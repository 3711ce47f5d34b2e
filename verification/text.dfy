/**
 * The string operations the run set-up and the netCDF reader rely on:
 * Python's `pat in s`, the last piece of `s.split(sep)`, and the decimal
 * digit strings that `strptime` reads and `strftime` writes.
 */
module Text {

  /** `pat` occurs in `s` starting at index `i`. */
  predicate OccursAt(s: string, pat: string, i: int)
  {
    0 <= i && i + |pat| <= |s| && s[i..i + |pat|] == pat
  }

  /** An occurrence of `pat` splits `s` into the text before it, `pat` and the text after it. */
  lemma SplitAtOccurrence(s: string, pat: string, i: int)
    requires OccursAt(s, pat, i)
    ensures s == s[..i] + pat + s[i + |pat|..]
  {
    assert s == s[..i] + s[i..i + |pat|] + s[i + |pat|..];
  }

  /** Python's `pat in s`. */
  predicate Contains(s: string, pat: string)
    ensures Contains(s, pat) ==> |pat| <= |s|
    ensures pat == [] ==> Contains(s, pat)
  {
    assert pat == [] ==> OccursAt(s, pat, 0);
    exists i | 0 <= i <= |s| - |pat| :: OccursAt(s, pat, i)
  }

  /** The greatest index `k <= i` at which `sep` occurs in `s`, or -1 if there is none. */
  function LastOccurrence(s: string, sep: string, i: int): (k: int)
    decreases i + 1
    ensures k == -1 || 0 <= k <= i
    ensures k >= 0 ==> OccursAt(s, sep, k)
    ensures forall j :: k < j <= i ==> !OccursAt(s, sep, j)
  {
    if i < 0 then -1
    else if OccursAt(s, sep, i) then i
    else LastOccurrence(s, sep, i - 1)
  }

  /**
   * `s.split(sep)[-1]`: the text after the last occurrence of `sep`, or all
   * of `s` when `sep` does not occur. Python splits left to right at
   * non-overlapping occurrences, so this is the last piece whenever `sep`
   * cannot overlap itself, as for "since ".
   */
  function AfterLast(s: string, sep: string): (r: string)
    requires |sep| > 0
    ensures |r| <= |s| && r == s[|s| - |r|..]
    ensures !Contains(r, sep)
    ensures r == s <==> !Contains(s, sep)
    ensures r != s ==> OccursAt(s, sep, |s| - |r| - |sep|)
  {
    var k := LastOccurrence(s, sep, |s| - |sep|);
    if k < 0 then s
    else
      var r := s[k + |sep|..];
      forall j | 0 <= j <= |r| - |sep| ensures !OccursAt(r, sep, j) {
        if OccursAt(r, sep, j) {
          assert s[k + |sep| + j..k + |sep| + j + |sep|] == r[j..j + |sep|];
          assert OccursAt(s, sep, k + |sep| + j);
        }
      }
      r
  }

  /** If `sep` occurs at `k` and nowhere after it, the last piece starts right after `k`. */
  lemma AfterLastAt(s: string, sep: string, k: int)
    requires |sep| > 0 && OccursAt(s, sep, k)
    requires forall j :: k < j <= |s| - |sep| ==> !OccursAt(s, sep, j)
    ensures AfterLast(s, sep) == s[k + |sep|..]
  {
  }

  predicate IsDigit(c: char)
  {
    '0' <= c <= '9'
  }

  predicate AllDigits(s: string)
  {
    forall i | 0 <= i < |s| :: IsDigit(s[i])
  }

  function Pow10(n: nat): nat
  {
    if n == 0 then 1 else 10 * Pow10(n - 1)
  }

  function DigitChar(d: nat): (c: char)
    requires d < 10
    ensures IsDigit(c)
  {
    ('0' as int + d) as char
  }

  /** The number a decimal digit string denotes (what `int()` and `strptime` read). */
  function DigitsValue(s: string): (n: nat)
    requires AllDigits(s)
    ensures n < Pow10(|s|)
  {
    if s == [] then 0
    else DigitsValue(s[..|s| - 1]) * 10 + (s[|s| - 1] as int - '0' as int)
  }

  /** `n` written with exactly `width` decimal digits, zero-padded on the left (`%04d`, `%02d`). */
  function Pad(n: nat, width: nat): (s: string)
    ensures |s| == width && AllDigits(s)
  {
    if width == 0 then [] else Pad(n / 10, width - 1) + [DigitChar(n % 10)]
  }

  /** Reading back a padded number gives the number, when it fits in the width. */
  lemma {:induction false} DigitsOfPad(n: nat, width: nat)
    requires n < Pow10(width)
    ensures DigitsValue(Pad(n, width)) == n
  {
    if width > 0 {
      var p := Pad(n / 10, width - 1);
      assert n / 10 < Pow10(width - 1);
      DigitsOfPad(n / 10, width - 1);
      assert (p + [DigitChar(n % 10)])[..|p|] == p;
    }
  }

  /** Padding the value of a digit string to its own width gives the string back. */
  lemma {:induction false} PadOfDigits(s: string)
    requires AllDigits(s)
    ensures Pad(DigitsValue(s), |s|) == s
  {
    if s != [] {
      var init := s[..|s| - 1];
      var d := s[|s| - 1] as int - '0' as int;
      var v := DigitsValue(init) * 10 + d;
      assert v / 10 == DigitsValue(init) && v % 10 == d;
      PadOfDigits(init);
      assert s == init + [s[|s| - 1]];
    }
  }
}
