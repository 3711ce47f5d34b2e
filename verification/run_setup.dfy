/**
 * The run-configuration block of `main.py` (lines 44-79): from the requested
 * start and end times and the `--inverse` and `--cart_shp` flags it derives
 * the integration length in hours, the step count TDRIFT, and the entries it
 * writes into the `[Lagrangian]` table of the loaded TOML document.
 */
module RunSetup {
  import opened Common
  import opened Text
  import opened Calendar

  /** A TOML value as far as this block looks at it. `OtherValue` stands for arrays, tables and dates. */
  datatype Value = IntValue(i: int) | BoolValue(b: bool) | StrValue(s: string) | OtherValue

  /** The sub-tables of `[Lagrangian]`: section name to its key/value entries. */
  type Tables = map<string, map<string, Value>>

  /** The parsed command-line arguments this block uses. */
  datatype Args = Args(
    starttime: string, endtime: string, inverse: string,
    geoarea: string, casename: string, lagini: string, cartShp: string)

  /** The exceptions the block can raise. */
  datatype RunError =
    | BadTimestamp          // ValueError from strptime, lines 44-45
    | InvalidDirection      // RuntimeError, line 54: --inverse is neither 'T' nor 'F'
    | NegativeDuration      // RuntimeError, line 57
    | MissingKey(key: string)  // KeyError on a missing section or on INSTP
    | NotNumeric            // TypeError from 3600/INSTP
    | ZeroStep              // ZeroDivisionError from 3600/INSTP
    | InvalidInverseChoice  // ValueError, line 66
    | InvalidCoordinate     // ValueError, line 79: --cart_shp is neither 'T' nor 'F'

  /** The table as it stands when the block ends, and the exception it ended with, if any. */
  datatype Applied = Applied(tables: Tables, error: Option<RunError>)

  /** `(end - start).total_seconds() // 3600`: whole hours, rounded towards minus infinity. */
  function ElapsedHours(span: int): (h: int)
    ensures h * SecondsPerHour <= span < h * SecondsPerHour + SecondsPerHour
  {
    span / SecondsPerHour
  }

  /**
   * `time_run` after the direction flag and the negativity check
   * (lines 46-57): forward keeps the floored hours and needs end >= start;
   * inverse negates them, which rounds the backward span up, and so accepts
   * only a span shorter than one hour.
   */
  function RunHours(span: int, inverse: string): (r: Result<nat, RunError>)
    ensures inverse != "T" && inverse != "F" ==> r == Failure(InvalidDirection)
    ensures inverse == "F" ==> (r.Success? <==> span >= 0)
    ensures inverse == "F" && r.Success? ==>
              r.value * SecondsPerHour <= span < r.value * SecondsPerHour + SecondsPerHour
    ensures inverse == "T" ==> (r.Success? <==> span < SecondsPerHour)
    ensures inverse == "T" && r.Success? ==>
              r.value * SecondsPerHour - SecondsPerHour < -span <= r.value * SecondsPerHour
    ensures (inverse == "T" || inverse == "F") && r.Failure? ==> r.error == NegativeDuration
  {
    var hours := ElapsedHours(span);
    var timeRun := if inverse == "T" then -hours else hours;
    if inverse != "T" && inverse != "F" then Failure(InvalidDirection)
    else if timeRun < 0 then Failure(NegativeDuration)
    else Success(timeRun)
  }

  /** `int(hours * (3600 / instp))` in exact arithmetic: `int` truncates towards zero. */
  function StepCount(hours: nat, instp: int): (n: int)
    requires instp != 0
    ensures instp > 0 ==> 0 <= n && n * instp <= hours * SecondsPerHour < n * instp + instp
    ensures instp < 0 ==> n <= 0 && n * instp <= hours * SecondsPerHour < n * instp - instp
  {
    if instp > 0 then hours * SecondsPerHour / instp
    else -(hours * SecondsPerHour / -instp)
  }

  /**
   * Python's number view of a TOML value: `bool` is a subclass of `int`, so a
   * boolean counts as the integer it equals; strings and other values raise
   * TypeError in `3600/INSTP`.
   */
  function Numeric(v: Value): (r: Option<int>)
    ensures r.None? <==> v.StrValue? || v.OtherValue?
    ensures v.BoolValue? ==> r == Some(if v.b then 1 else 0)
    ensures v.IntValue? ==> r == Some(v.i)
  {
    match v
    case IntValue(i) => Some(i)
    case BoolValue(b) => Some(if b then 1 else 0)
    case _ => None
  }

  /**
   * The right-hand side of line 58: reads INSTP and computes TDRIFT. It
   * succeeds exactly when INSTP is a usable step, and otherwise raises the
   * KeyError, TypeError or ZeroDivisionError of that line.
   */
  function DriftSteps(t: Tables, hours: nat): (r: Result<int, RunError>)
    ensures r.Success? <==> UsableStep(t)
    ensures r.Success? ==> r.value == StepCount(hours, Numeric(t["TimeIntegration"]["INSTP"]).value)
    ensures r.Failure? ==> r.error.MissingKey? || r.error == NotNumeric || r.error == ZeroStep
    ensures "TimeIntegration" !in t ==> r == Failure(MissingKey("TimeIntegration"))
    ensures "TimeIntegration" in t && "INSTP" !in t["TimeIntegration"] ==> r == Failure(MissingKey("INSTP"))
    ensures "TimeIntegration" in t && "INSTP" in t["TimeIntegration"] ==>
              && (Numeric(t["TimeIntegration"]["INSTP"]).None? ==> r == Failure(NotNumeric))
              && (Numeric(t["TimeIntegration"]["INSTP"]) == Some(0) ==> r == Failure(ZeroStep))
  {
    if "TimeIntegration" !in t then Failure(MissingKey("TimeIntegration"))
    else if "INSTP" !in t["TimeIntegration"] then Failure(MissingKey("INSTP"))
    else match Numeric(t["TimeIntegration"]["INSTP"])
      case None => Failure(NotNumeric)
      case Some(instp) => if instp == 0 then Failure(ZeroStep) else Success(StepCount(hours, instp))
  }

  /**
   * `data['Lagrangian'][section][key] = v`, unless an exception was already
   * raised: the value is stored when the section exists and a KeyError is
   * raised otherwise; no other entry changes and no section is added.
   */
  function Assign(a: Applied, section: string, key: string, v: Value): (r: Applied)
    ensures a.error.Some? ==> r == a
    ensures a.error.None? ==> (r.error.None? <==> section in a.tables)
    ensures r.error != a.error ==> r.error == Some(MissingKey(section))
    ensures r.error.None? && a.error.None? ==> section in r.tables && key in r.tables[section] && r.tables[section][key] == v
  {
    if a.error.Some? then a
    else if section in a.tables then Applied(a.tables[section := a.tables[section][key := v]], None)
    else Applied(a.tables, Some(MissingKey(section)))
  }

  /** Raises `e`, unless an exception was already raised. */
  function Raise(a: Applied, e: RunError): Applied
  {
    if a.error.Some? then a else Applied(a.tables, Some(e))
  }

  /** What lines 44-57 establish: the parsed start time and the checked hour count. */
  datatype RunWindow = RunWindow(start: DateTime, hours: nat)

  /**
   * Lines 44-57: parse the end time, then the start time, then sign and check
   * the hours. A timestamp that does not parse is the only cause of the
   * strptime ValueError; a run that passes has a 'T'/'F' direction flag and
   * starts at the parsed start time.
   */
  function TimeRun(args: Args): (r: Result<RunWindow, RunError>)
    ensures r == Failure(BadTimestamp) <==> Parse(args.endtime).None? || Parse(args.starttime).None?
    ensures r.Failure? ==> r.error == BadTimestamp || r.error == InvalidDirection || r.error == NegativeDuration
    ensures r.Success? ==> (args.inverse == "T" || args.inverse == "F") && Parse(args.starttime) == Some(r.value.start)
  {
    match Parse(args.endtime)
    case None => Failure(BadTimestamp)
    case Some(endTime) =>
      match Parse(args.starttime)
      case None => Failure(BadTimestamp)
      case Some(startTime) =>
        match RunHours(ToSeconds(endTime) - ToSeconds(startTime), args.inverse)
        case Failure(e) => Failure(e)
        case Success(hours) => Success(RunWindow(startTime, hours))
  }

  /**
   * Lines 59-66: the case name and the direction flag. The stage completes
   * iff the section exists and the flag is 'T' or 'F'; it writes nothing but
   * CaseName and Inverse.
   */
  function WriteGeneral(a: Applied, args: Args): (r: Applied)
    ensures a.error.Some? ==> r == a
    ensures a.error.None? ==> (r.error.None? <==> "General" in a.tables && (args.inverse == "T" || args.inverse == "F"))
    ensures r.error != a.error ==>
              || r.error == Some(MissingKey("General"))
              || (r.error == Some(InvalidInverseChoice) && args.inverse != "T" && args.inverse != "F")
    ensures a.error.None? && "General" !in a.tables ==> r == Applied(a.tables, Some(MissingKey("General")))
    ensures a.error.None? && "General" in a.tables && args.inverse != "T" && args.inverse != "F" ==>
              r.error == Some(InvalidInverseChoice)
    ensures KeepsOthers(a.tables, r.tables)
  {
    var a1 := Assign(a, "General", "CaseName", StrValue(args.casename));
    var r := if args.inverse == "F" then Assign(a1, "General", "Inverse", BoolValue(false))
             else if args.inverse == "T" then Assign(a1, "General", "Inverse", BoolValue(true))
             else Raise(a1, InvalidInverseChoice);
    WrittenKeepsOthers(a, "General", "CaseName", StrValue(args.casename));
    WrittenKeepsOthers(a1, "General", "Inverse", BoolValue(args.inverse == "T"));
    KeepsOthersTrans(a.tables, a1.tables, r.tables);
    r
  }

  /**
   * Lines 67-70: `strftime` of the start time's year, month, day and hour.
   * The stage completes iff the section exists and writes nothing but the
   * four *LAG fields.
   */
  function WriteStartTime(a: Applied, start: DateTime): (r: Applied)
    requires Valid(start)
    ensures a.error.Some? ==> r == a
    ensures a.error.None? ==> (r.error.None? <==> "StartTime" in a.tables)
    ensures r.error != a.error ==> r.error == Some(MissingKey("StartTime"))
    ensures a.error.None? && "StartTime" !in a.tables ==> r == Applied(a.tables, Some(MissingKey("StartTime")))
    ensures KeepsOthers(a.tables, r.tables)
  {
    var a1 := Assign(a, "StartTime", "YEARLAG", StrValue(Pad(start.year, 4)));
    var a2 := Assign(a1, "StartTime", "MONTHLAG", StrValue(Pad(start.month, 2)));
    var a3 := Assign(a2, "StartTime", "DAYLAG", StrValue(Pad(start.day, 2)));
    var r := Assign(a3, "StartTime", "HOURLAG", StrValue(Pad(start.hour, 2)));
    WrittenKeepsOthers(a, "StartTime", "YEARLAG", StrValue(Pad(start.year, 4)));
    WrittenKeepsOthers(a1, "StartTime", "MONTHLAG", StrValue(Pad(start.month, 2)));
    WrittenKeepsOthers(a2, "StartTime", "DAYLAG", StrValue(Pad(start.day, 2)));
    WrittenKeepsOthers(a3, "StartTime", "HOURLAG", StrValue(Pad(start.hour, 2)));
    KeepsOthersTrans(a.tables, a1.tables, a2.tables);
    KeepsOthersTrans(a.tables, a2.tables, a3.tables);
    KeepsOthersTrans(a.tables, a3.tables, r.tables);
    r
  }

  /**
   * Lines 71-79: the grid area, the particle file and the coordinate-system
   * flag. The stage completes iff both sections exist and the flag is 'T' or
   * 'F'; it writes nothing but GEOAREA, LAGINI and CART_SHP.
   */
  function WriteLocation(a: Applied, args: Args): (r: Applied)
    ensures a.error.Some? ==> r == a
    ensures a.error.None? ==>
              (r.error.None? <==>
                 "IOLocation" in a.tables && "ProjectionControl" in a.tables && (args.cartShp == "T" || args.cartShp == "F"))
    ensures r.error != a.error ==>
              || r.error == Some(MissingKey("IOLocation"))
              || r.error == Some(MissingKey("ProjectionControl"))
              || (r.error == Some(InvalidCoordinate) && args.cartShp != "T" && args.cartShp != "F")
    ensures a.error.None? && "IOLocation" !in a.tables ==> r == Applied(a.tables, Some(MissingKey("IOLocation")))
    ensures a.error.None? && "IOLocation" in a.tables && args.cartShp != "T" && args.cartShp != "F" ==>
              r.error == Some(InvalidCoordinate)
    ensures a.error.None? && "IOLocation" in a.tables && "ProjectionControl" !in a.tables && (args.cartShp == "T" || args.cartShp == "F") ==>
              r.error == Some(MissingKey("ProjectionControl"))
    ensures KeepsOthers(a.tables, r.tables)
  {
    var a1 := Assign(a, "IOLocation", "GEOAREA", StrValue(args.geoarea));
    var a2 := Assign(a1, "IOLocation", "LAGINI", StrValue(args.lagini));
    var r := if args.cartShp == "F" then Assign(a2, "ProjectionControl", "CART_SHP", BoolValue(false))
             else if args.cartShp == "T" then Assign(a2, "ProjectionControl", "CART_SHP", BoolValue(true))
             else Raise(a2, InvalidCoordinate);
    WrittenKeepsOthers(a, "IOLocation", "GEOAREA", StrValue(args.geoarea));
    WrittenKeepsOthers(a1, "IOLocation", "LAGINI", StrValue(args.lagini));
    WrittenKeepsOthers(a2, "ProjectionControl", "CART_SHP", BoolValue(args.cartShp == "T"));
    KeepsOthersTrans(a.tables, a1.tables, a2.tables);
    KeepsOthersTrans(a.tables, a2.tables, r.tables);
    r
  }

  /**
   * Lines 44-79: every check and every write, in the order the script
   * performs them. Whatever the outcome, only the entries of lines 58-76 can
   * differ from the loaded table, and the ValueError of line 66 is never
   * raised: line 54 has already rejected every other direction flag.
   */
  function Configure(args: Args, t: Tables): (r: Applied)
    ensures KeepsOthers(t, r.tables)
    ensures r.error != Some(InvalidInverseChoice)
    ensures TimeRun(args).Failure? ==> r == Applied(t, Some(TimeRun(args).error))
    ensures TimeRun(args).Success? && DriftSteps(t, TimeRun(args).value.hours).Failure? ==>
              r == Applied(t, Some(DriftSteps(t, TimeRun(args).value.hours).error))
  {
    match TimeRun(args)
    case Failure(e) => Applied(t, Some(e))
    case Success(w) =>
      match DriftSteps(t, w.hours)
      case Failure(e) => Applied(t, Some(e))
      case Success(tdrift) =>
        var a := Assign(Applied(t, None), "TimeIntegration", "TDRIFT", IntValue(tdrift));
        var g := WriteGeneral(a, args);
        var s := WriteStartTime(g, w.start);
        var r := WriteLocation(s, args);
        WrittenKeepsOthers(Applied(t, None), "TimeIntegration", "TDRIFT", IntValue(tdrift));
        KeepsOthersTrans(t, a.tables, g.tables);
        KeepsOthersTrans(t, g.tables, s.tables);
        KeepsOthersTrans(t, s.tables, r.tables);
        r
  }

  /** The entries line 58-76 may write; all others are left alone. */
  predicate IsWrittenEntry(section: string, key: string)
  {
    || (section == "TimeIntegration" && key == "TDRIFT")
    || (section == "General" && (key == "CaseName" || key == "Inverse"))
    || (section == "StartTime" && (key == "YEARLAG" || key == "MONTHLAG" || key == "DAYLAG" || key == "HOURLAG"))
    || (section == "IOLocation" && (key == "GEOAREA" || key == "LAGINI"))
    || (section == "ProjectionControl" && key == "CART_SHP")
  }

  /** The sections the block writes into. */
  predicate SectionsPresent(t: Tables)
  {
    && "TimeIntegration" in t && "General" in t && "StartTime" in t
    && "IOLocation" in t && "ProjectionControl" in t
  }

  /** The value INSTP stands for, when it is a usable step length. */
  predicate UsableStep(t: Tables)
  {
    && "TimeIntegration" in t && "INSTP" in t["TimeIntegration"]
    && Numeric(t["TimeIntegration"]["INSTP"]).Some?
    && Numeric(t["TimeIntegration"]["INSTP"]).value != 0
  }

  /**
   * `u` differs from `t` only in the entries the block writes: the same
   * sections, every other entry (INSTP among them) kept, no other key added.
   */
  predicate KeepsOthers(t: Tables, u: Tables)
  {
    && u.Keys == t.Keys
    && (forall s, k | s in t && k in t[s] && !IsWrittenEntry(s, k) :: k in u[s] && u[s][k] == t[s][k])
    && (forall s, k | s in u && k in u[s] && !IsWrittenEntry(s, k) :: k in t[s])
  }

  /** `u` is `t` with at most the entry `key` of `section` set: same sections, every other entry kept. */
  predicate UpdatesOnly(t: Tables, u: Tables, section: string, key: string)
  {
    && u.Keys == t.Keys
    && (forall s, k | s in t && k in t[s] && (s != section || k != key) :: k in u[s] && u[s][k] == t[s][k])
    && (forall s, k | s in u && k in u[s] && (s != section || k != key) :: k in t[s])
  }

  /** One assignment changes no entry but the one it stores. */
  lemma AssignUpdatesOnly(a: Applied, section: string, key: string, v: Value)
    ensures UpdatesOnly(a.tables, Assign(a, section, key, v).tables, section, key)
  {
  }

  /** An assignment to one of the block's entries keeps every other entry. */
  lemma WrittenKeepsOthers(a: Applied, section: string, key: string, v: Value)
    requires IsWrittenEntry(section, key)
    ensures KeepsOthers(a.tables, Assign(a, section, key, v).tables)
  {
    AssignUpdatesOnly(a, section, key, v);
  }

  lemma KeepsOthersTrans(t: Tables, u: Tables, v: Tables)
    requires KeepsOthers(t, u) && KeepsOthers(u, v)
    ensures KeepsOthers(t, v)
  {
  }

  /** The block completes exactly when the times check out, INSTP is usable, every section exists and the coordinate flag is 'T' or 'F'. */
  lemma ConfigureSucceeds(args: Args, t: Tables)
    ensures Configure(args, t).error.None? <==>
      && TimeRun(args).Success?
      && UsableStep(t)
      && SectionsPresent(t)
      && (args.cartShp == "T" || args.cartShp == "F")
  {
    match TimeRun(args)
    case Failure(_) =>
    case Success(w) =>
      match DriftSteps(t, w.hours)
      case Failure(_) =>
      case Success(tdrift) =>
        var a := Assign(Applied(t, None), "TimeIntegration", "TDRIFT", IntValue(tdrift));
        StagesSucceed(a, args, w.start);
  }

  /**
   * Once line 58 has stored TDRIFT, lines 59-79 run to the end exactly when
   * every section exists and both flags are 'T' or 'F'.
   */
  lemma StagesSucceed(a: Applied, args: Args, start: DateTime)
    requires a.error.None? && "TimeIntegration" in a.tables && Valid(start)
    ensures WriteLocation(WriteStartTime(WriteGeneral(a, args), start), args).error.None? <==>
      && SectionsPresent(a.tables)
      && (args.inverse == "T" || args.inverse == "F")
      && (args.cartShp == "T" || args.cartShp == "F")
  {
    var g := WriteGeneral(a, args);
    if g.error.None? {
      var st := WriteStartTime(g, start);
      assert st.tables.Keys == a.tables.Keys;
    }
  }

  /**
   * An unknown direction flag is reported as the RuntimeError of line 54,
   * whatever the coordinate flag and the document, and nothing is written.
   */
  lemma DirectionCheckedFirst(args: Args, t: Tables)
    requires Parse(args.starttime).Some? && Parse(args.endtime).Some?
    requires args.inverse != "T" && args.inverse != "F"
    ensures Configure(args, t) == Applied(t, Some(InvalidDirection))
  {
  }

  /** Seconds from the parsed start time to the parsed end time. */
  function Span(args: Args): int
    requires Parse(args.starttime).Some? && Parse(args.endtime).Some?
  {
    ToSeconds(Parse(args.endtime).value) - ToSeconds(Parse(args.starttime).value)
  }

  /**
   * Lines 44-57 in terms of the requested window: forward runs need the end
   * no earlier than the start, as date-times; inverse runs pass the check only when the end
   * is less than an hour after the start, and then count the whole hours
   * from the end back to the start, rounded up.
   */
  lemma TimeRunWindow(args: Args)
    requires Parse(args.starttime).Some? && Parse(args.endtime).Some?
    ensures args.inverse == "F" ==> (TimeRun(args).Success? <==> Span(args) >= 0)
    ensures args.inverse == "T" ==> (TimeRun(args).Success? <==> Span(args) < SecondsPerHour)
    ensures args.inverse == "T" && TimeRun(args).Success? ==>
              var h := TimeRun(args).value.hours;
              (h - 1) * SecondsPerHour < -Span(args) <= h * SecondsPerHour
    ensures args.inverse == "F" && TimeRun(args).Success? ==>
              var h := TimeRun(args).value.hours;
              h * SecondsPerHour <= Span(args) < (h + 1) * SecondsPerHour
    ensures args.inverse == "F" ==>
              (TimeRun(args).Success? <==> !Before(Parse(args.endtime).value, Parse(args.starttime).value))
  {
    ToSecondsOrder(Parse(args.endtime).value, Parse(args.starttime).value);
  }

  /** The table after lines 58-70 of a run that gets that far: TDRIFT, the General entries and the *LAG fields. */
  function TimedTables(args: Args, t: Tables, start: DateTime, tdrift: int): Tables
    requires Valid(start) && SectionsPresent(t)
  {
    var t1 := t["TimeIntegration" := t["TimeIntegration"]["TDRIFT" := IntValue(tdrift)]];
    var t2 := t1["General" := t1["General"]["CaseName" := StrValue(args.casename)]
                                           ["Inverse" := BoolValue(args.inverse == "T")]];
    t2["StartTime" := t2["StartTime"]["YEARLAG" := StrValue(Pad(start.year, 4))]
                                     ["MONTHLAG" := StrValue(Pad(start.month, 2))]
                                     ["DAYLAG" := StrValue(Pad(start.day, 2))]
                                     ["HOURLAG" := StrValue(Pad(start.hour, 2))]]
  }

  /** The table of a completed block just before CART_SHP, the last of the ten entries, is written. */
  function LocatedTables(args: Args, t: Tables, start: DateTime, tdrift: int): Tables
    requires Valid(start) && SectionsPresent(t)
  {
    var t3 := TimedTables(args, t, start, tdrift);
    t3["IOLocation" := t3["IOLocation"]["GEOAREA" := StrValue(args.geoarea)]
                                        ["LAGINI" := StrValue(args.lagini)]]
  }

  /**
   * The table after a completed block: the ten entries of lines 58-76,
   * each stored into its own section, one section after the other.
   */
  function CompletedTables(args: Args, t: Tables, start: DateTime, tdrift: int): Tables
    requires Valid(start) && SectionsPresent(t)
  {
    var t4 := LocatedTables(args, t, start, tdrift);
    t4["ProjectionControl" := t4["ProjectionControl"]["CART_SHP" := BoolValue(args.cartShp == "T")]]
  }

  /**
   * What a completed block holds: TDRIFT, the names, Inverse and CART_SHP
   * as the flags read as booleans, and the *LAG fields as the start time's
   * zero-padded year, month, day and hour.
   */
  lemma CompletedEntries(args: Args, t: Tables, start: DateTime, tdrift: int)
    requires Valid(start) && SectionsPresent(t)
    ensures var u := CompletedTables(args, t, start, tdrift);
      && u.Keys == t.Keys
      && u["TimeIntegration"]["TDRIFT"] == IntValue(tdrift)
      && u["General"]["CaseName"] == StrValue(args.casename)
      && u["General"]["Inverse"] == BoolValue(args.inverse == "T")
      && u["StartTime"]["YEARLAG"] == StrValue(Pad(start.year, 4))
      && u["StartTime"]["MONTHLAG"] == StrValue(Pad(start.month, 2))
      && u["StartTime"]["DAYLAG"] == StrValue(Pad(start.day, 2))
      && u["StartTime"]["HOURLAG"] == StrValue(Pad(start.hour, 2))
      && u["IOLocation"]["GEOAREA"] == StrValue(args.geoarea)
      && u["IOLocation"]["LAGINI"] == StrValue(args.lagini)
      && u["ProjectionControl"]["CART_SHP"] == BoolValue(args.cartShp == "T")
  {
  }

  lemma WriteGeneralDone(a: Applied, args: Args)
    requires a.error.None? && "General" in a.tables && (args.inverse == "T" || args.inverse == "F")
    ensures WriteGeneral(a, args) ==
              Applied(a.tables["General" := a.tables["General"]["CaseName" := StrValue(args.casename)]
                                                             ["Inverse" := BoolValue(args.inverse == "T")]], None)
  {
  }

  lemma WriteStartTimeDone(a: Applied, start: DateTime)
    requires a.error.None? && "StartTime" in a.tables && Valid(start)
    ensures WriteStartTime(a, start) ==
              Applied(a.tables["StartTime" := a.tables["StartTime"]["YEARLAG" := StrValue(Pad(start.year, 4))]
                                                                 ["MONTHLAG" := StrValue(Pad(start.month, 2))]
                                                                 ["DAYLAG" := StrValue(Pad(start.day, 2))]
                                                                 ["HOURLAG" := StrValue(Pad(start.hour, 2))]], None)
  {
  }

  lemma WriteLocationDone(a: Applied, args: Args)
    requires a.error.None? && "IOLocation" in a.tables && "ProjectionControl" in a.tables
    ensures var t4 := a.tables["IOLocation" := a.tables["IOLocation"]["GEOAREA" := StrValue(args.geoarea)]
                                                                   ["LAGINI" := StrValue(args.lagini)]];
      WriteLocation(a, args) ==
        if args.cartShp == "T" || args.cartShp == "F" then
          Applied(t4["ProjectionControl" := t4["ProjectionControl"]["CART_SHP" := BoolValue(args.cartShp == "T")]], None)
        else Applied(t4, Some(InvalidCoordinate))
  {
  }

  /** The table after lines 58-70, when every check up to there has passed. */
  lemma ConfigureReachesLocation(args: Args, t: Tables)
    requires TimeRun(args).Success? && UsableStep(t) && SectionsPresent(t)
    ensures var w := TimeRun(args).value;
            var t3 := TimedTables(args, t, w.start, StepCount(w.hours, Numeric(t["TimeIntegration"]["INSTP"]).value));
      && SectionsPresent(t3)
      && Configure(args, t) == WriteLocation(Applied(t3, None), args)
  {
    var w := TimeRun(args).value;
    var tdrift := StepCount(w.hours, Numeric(t["TimeIntegration"]["INSTP"]).value);
    var t1 := t["TimeIntegration" := t["TimeIntegration"]["TDRIFT" := IntValue(tdrift)]];
    var a := Assign(Applied(t, None), "TimeIntegration", "TDRIFT", IntValue(tdrift));
    assert a == Applied(t1, None);
    WriteGeneralDone(a, args);
    WriteStartTimeDone(WriteGeneral(a, args), w.start);
  }

  /**
   * On success the table is the completed one: the ten entries written with
   * the step count of INSTP and the start time of lines 44-57.
   */
  lemma ConfigureCompletes(args: Args, t: Tables)
    requires Configure(args, t).error.None?
    ensures TimeRun(args).Success? && UsableStep(t) && SectionsPresent(t)
    ensures args.cartShp == "T" || args.cartShp == "F"
    ensures Configure(args, t).tables ==
              CompletedTables(args, t, TimeRun(args).value.start,
                              StepCount(TimeRun(args).value.hours, Numeric(t["TimeIntegration"]["INSTP"]).value))
  {
    ConfigureSucceeds(args, t);
    ConfigureReachesLocation(args, t);
    var w := TimeRun(args).value;
    var tdrift := StepCount(w.hours, Numeric(t["TimeIntegration"]["INSTP"]).value);
    WriteLocationDone(Applied(TimedTables(args, t, w.start, tdrift), None), args);
  }

  /**
   * A bad coordinate flag is noticed last: when everything else is in order
   * the script raises the ValueError of line 79 with the other nine entries
   * written as in a completed run and CART_SHP untouched.
   */
  lemma CoordinateCheckedLast(args: Args, t: Tables)
    requires args.cartShp != "T" && args.cartShp != "F"
    requires TimeRun(args).Success? && UsableStep(t) && SectionsPresent(t)
    ensures Configure(args, t).error == Some(InvalidCoordinate)
    ensures Configure(args, t).tables ==
              LocatedTables(args, t, TimeRun(args).value.start,
                            StepCount(TimeRun(args).value.hours, Numeric(t["TimeIntegration"]["INSTP"]).value))
  {
    ConfigureReachesLocation(args, t);
    var w := TimeRun(args).value;
    var tdrift := StepCount(w.hours, Numeric(t["TimeIntegration"]["INSTP"]).value);
    WriteLocationDone(Applied(TimedTables(args, t, w.start, tdrift), None), args);
  }

  /**
   * The ValueError of line 79 is raised exactly when the times check out,
   * INSTP is usable, the General, StartTime and IOLocation sections exist and
   * the coordinate flag is neither 'T' nor 'F'. ProjectionControl is not
   * needed: a bad flag never reaches it.
   */
  lemma CoordinateErrorExactly(args: Args, t: Tables)
    ensures Configure(args, t).error == Some(InvalidCoordinate) <==>
      && TimeRun(args).Success?
      && UsableStep(t)
      && "General" in t && "StartTime" in t && "IOLocation" in t
      && args.cartShp != "T" && args.cartShp != "F"
  {
    match TimeRun(args)
    case Failure(_) =>
    case Success(w) =>
      match DriftSteps(t, w.hours)
      case Failure(_) =>
      case Success(tdrift) =>
        var a := Assign(Applied(t, None), "TimeIntegration", "TDRIFT", IntValue(tdrift));
        StagesRaiseCoordinate(a, args, w.start);
  }

  /**
   * Once line 58 has stored TDRIFT, lines 59-79 end in the ValueError of
   * line 79 exactly when the General, StartTime and IOLocation sections exist,
   * the direction flag is 'T' or 'F' and the coordinate flag is neither.
   */
  lemma StagesRaiseCoordinate(a: Applied, args: Args, start: DateTime)
    requires a.error.None? && "TimeIntegration" in a.tables && Valid(start)
    ensures WriteLocation(WriteStartTime(WriteGeneral(a, args), start), args).error == Some(InvalidCoordinate) <==>
      && "General" in a.tables && "StartTime" in a.tables && "IOLocation" in a.tables
      && (args.inverse == "T" || args.inverse == "F")
      && args.cartShp != "T" && args.cartShp != "F"
  {
    var g := WriteGeneral(a, args);
    if g.error.None? {
      var st := WriteStartTime(g, start);
      assert st.tables.Keys == a.tables.Keys;
    }
  }

  /** The *LAG strings read back as the start time's fields: 4 digits for the year, 2 for the rest. */
  lemma StartFieldsReadBack(start: DateTime)
    requires Valid(start)
    ensures DigitsValue(Pad(start.year, 4)) == start.year
    ensures DigitsValue(Pad(start.month, 2)) == start.month
    ensures DigitsValue(Pad(start.day, 2)) == start.day
    ensures DigitsValue(Pad(start.hour, 2)) == start.hour
  {
    assert Pow10(2) == 100 && Pow10(4) == 10000;
    DigitsOfPad(start.year, 4);
    DigitsOfPad(start.month, 2);
    DigitsOfPad(start.day, 2);
    DigitsOfPad(start.hour, 2);
  }

  /** Equal start and end times are accepted in both directions, with no hours and no steps. */
  lemma EqualBoundsGiveNoSteps(args: Args, t: Tables)
    requires args.starttime == args.endtime && Parse(args.starttime).Some?
    requires args.inverse == "T" || args.inverse == "F"
    ensures TimeRun(args) == Success(RunWindow(Parse(args.starttime).value, 0))
    ensures Configure(args, t).error.None? ==>
              && SectionsPresent(t)
              && Configure(args, t).tables == CompletedTables(args, t, Parse(args.starttime).value, 0)
  {
    var start := Parse(args.starttime).value;
    assert ToSeconds(start) - ToSeconds(start) == 0;
    assert RunHours(0, args.inverse) == Success(0);
    if Configure(args, t).error.None? {
      ConfigureCompletes(args, t);
      var instp := Numeric(t["TimeIntegration"]["INSTP"]).value;
      assert StepCount(0, instp) == 0;
    }
  }

  /**
   * `data` as the script holds it, updated entry by entry. An exception
   * leaves whatever was written before it in place; the script then ends
   * without dumping the document.
   */
  class ConfigDocument {
    var tables: Tables

    constructor (tables: Tables)
      ensures this.tables == tables
    {
      this.tables := tables;
    }

    /** One assignment `data['Lagrangian'][section][key] = v`. */
    method Put(section: string, key: string, v: Value) returns (error: Option<RunError>)
      modifies this
      ensures section in old(tables) ==> error == None && tables == old(tables)[section := old(tables)[section][key := v]]
      ensures section !in old(tables) ==> error == Some(MissingKey(section)) && tables == old(tables)
    {
      if section in tables {
        tables := tables[section := tables[section][key := v]];
        error := None;
      } else {
        error := Some(MissingKey(section));
      }
    }

    /** Lines 59-66. */
    method PutGeneral(args: Args) returns (error: Option<RunError>)
      modifies this
      ensures Applied(tables, error) == WriteGeneral(Applied(old(tables), None), args)
    {
      error := Put("General", "CaseName", StrValue(args.casename));
      if error.Some? { return; }
      if args.inverse == "F" {
        error := Put("General", "Inverse", BoolValue(false));
      } else if args.inverse == "T" {
        error := Put("General", "Inverse", BoolValue(true));
      } else {
        error := Some(InvalidInverseChoice);
      }
    }

    /** Lines 67-70. */
    method PutStartTime(start: DateTime) returns (error: Option<RunError>)
      requires Valid(start)
      modifies this
      ensures Applied(tables, error) == WriteStartTime(Applied(old(tables), None), start)
    {
      error := Put("StartTime", "YEARLAG", StrValue(Pad(start.year, 4)));
      if error.Some? { return; }
      error := Put("StartTime", "MONTHLAG", StrValue(Pad(start.month, 2)));
      if error.Some? { return; }
      error := Put("StartTime", "DAYLAG", StrValue(Pad(start.day, 2)));
      if error.Some? { return; }
      error := Put("StartTime", "HOURLAG", StrValue(Pad(start.hour, 2)));
    }

    /** Lines 71-79. */
    method PutLocation(args: Args) returns (error: Option<RunError>)
      modifies this
      ensures Applied(tables, error) == WriteLocation(Applied(old(tables), None), args)
    {
      error := Put("IOLocation", "GEOAREA", StrValue(args.geoarea));
      if error.Some? { return; }
      error := Put("IOLocation", "LAGINI", StrValue(args.lagini));
      if error.Some? { return; }
      if args.cartShp == "F" {
        error := Put("ProjectionControl", "CART_SHP", BoolValue(false));
      } else if args.cartShp == "T" {
        error := Put("ProjectionControl", "CART_SHP", BoolValue(true));
      } else {
        error := Some(InvalidCoordinate);
      }
    }

    /** Lines 44-79 of `main.py`, run against the loaded document. */
    method ApplyRunWindow(args: Args) returns (error: Option<RunError>)
      modifies this
      ensures Applied(tables, error) == Configure(args, old(tables))
    {
      var run := TimeRun(args);
      if run.Failure? { return Some(run.error); }
      var drift := DriftSteps(tables, run.value.hours);
      if drift.Failure? { return Some(drift.error); }
      error := Put("TimeIntegration", "TDRIFT", IntValue(drift.value));
      if error.Some? { return; }
      error := PutGeneral(args);
      if error.Some? { return; }
      error := PutStartTime(run.value.start);
      if error.Some? { return; }
      error := PutLocation(args);
    }
  }
}
