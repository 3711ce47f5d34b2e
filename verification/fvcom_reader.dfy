/**
 * `FVCOMResultProcessor`: the time axis of an FVCOM netCDF output file.
 * The file system is a map from file names to datasets, a dataset a map
 * from variable names to their values and `units` attribute. A raw time
 * value is an offset from the epoch, held as a whole number of
 * microseconds (the resolution of `timedelta`), and a converted time is an
 * instant of the `Calendar` module.
 */
module FvcomReader {
  import opened Common
  import opened Text
  import opened Calendar

  /** A netCDF variable: its values and, when present, its `units` attribute. */
  datatype Variable = Variable(values: seq<int>, units: Option<string>)

  type Dataset = map<string, Variable>

  /** An `nc.Dataset` object: the variables of the file and whether it is still open. */
  datatype Handle = Handle(variables: Dataset, isOpen: bool)

  datatype ReaderError =
    | FileNotFound     // nc.Dataset could not open the file
    | NoTimeVariable   // ValueError: none of the candidate names, and no earlier choice
    | MissingVariable  // KeyError: the chosen name is not a variable of this dataset
    | DatasetClosed    // reading the data of a closed dataset
    | MissingUnits     // AttributeError: the time variable has no `units`
    | BadEpoch         // ValueError from strptime on the text after "since "
    | OutOfRange       // OverflowError: epoch + offset outside the years 1..9999
    | EmptyTimeData    // IndexError: datetimes[0] of an empty time axis

  /** The dictionary `get_time_info` returns; times are instants. */
  datatype TimeInfo = TimeInfo(
    startTime: int,
    endTime: int,
    totalTimesteps: nat,
    timeUnits: string,
    baseTime: DateTime,
    allTimes: seq<int>)

  /** The time variable names tried by `open_dataset`, in order of preference. */
  const TimeVariableNames: seq<string> := ["time", "Time", "Times", "itime", "itime2"]

  /** The epoch used when the units name none: 1858-11-17 00:00:00, the Modified Julian Day origin. */
  const DefaultEpoch: DateTime := DateTime(1858, 11, 17, 0, 0, 0)

  /** The index of the first of `names` that is a variable of `vars`, or `|names|` if none is. */
  function FirstPresent(names: seq<string>, vars: Dataset): (k: nat)
    ensures k <= |names|
    ensures forall j | 0 <= j < k :: names[j] !in vars
    ensures k < |names| ==> names[k] in vars
  {
    if names == [] then 0
    else if names[0] in vars then 0
    else 1 + FirstPresent(names[1..], vars)
  }

  /**
   * The time variable after the search of `open_dataset`: the first
   * candidate the dataset has, or else whatever was chosen before.
   */
  function SelectTimeVariable(vars: Dataset, previous: Option<string>): (r: Option<string>)
    ensures (forall k | 0 <= k < |TimeVariableNames| :: TimeVariableNames[k] !in vars) ==> r == previous
    ensures (exists k | 0 <= k < |TimeVariableNames| :: TimeVariableNames[k] in vars) ==>
              exists k | 0 <= k < |TimeVariableNames| ::
                && r == Some(TimeVariableNames[k])
                && TimeVariableNames[k] in vars
                && forall j | 0 <= j < k :: TimeVariableNames[j] !in vars
  {
    var k := FirstPresent(TimeVariableNames, vars);
    if k < |TimeVariableNames| then Some(TimeVariableNames[k]) else previous
  }

  /**
   * The epoch named by a units string: the text after the last "since " read
   * as '%Y-%m-%d %H:%M:%S' when the units mention "since" at all, and the
   * default epoch otherwise. None where strptime raises.
   */
  function EpochOf(units: string): (r: Option<DateTime>)
    ensures r.Some? ==> Valid(r.value)
    ensures !Contains(units, "since") ==> r == Some(DefaultEpoch)
  {
    if Contains(units, "since") then Parse(AfterLast(units, "since "))
    else Some(DefaultEpoch)
  }

  /** Adding one offset to the epoch at each position, in order. */
  function Shift(epoch: int, offsets: seq<int>): (times: seq<int>)
    ensures |times| == |offsets|
    ensures forall i | 0 <= i < |offsets| :: times[i] == epoch + offsets[i]
  {
    if offsets == [] then [] else [epoch + offsets[0]] + Shift(epoch, offsets[1..])
  }

  /**
   * The conversion of lines 75-81. The `itime`/`itime2` branch does what the
   * other branch does, so every name converts each raw value the same way.
   */
  function ConvertOffsets(name: string, epoch: int, offsets: seq<int>): (times: seq<int>)
    ensures |times| == |offsets|
    ensures forall i | 0 <= i < |offsets| :: times[i] == epoch + offsets[i]
  {
    if name in ["itime", "itime2"] then Shift(epoch, offsets)
    else Shift(epoch, offsets)
  }

  predicate AllInRange(times: seq<int>)
  {
    forall i | 0 <= i < |times| :: InRange(times[i])
  }

  /**
   * Lines 75-96 once the epoch is known: every time must be a representable
   * date-time, the axis must not be empty, and the answer reports the first
   * and last times, the count, the units, the epoch and all the times.
   */
  function TimeAxis(name: string, units: string, base: DateTime, offsets: seq<int>): (r: Result<TimeInfo, ReaderError>)
    requires Valid(base)
    ensures r.Success? <==>
              |offsets| > 0 && forall i | 0 <= i < |offsets| :: InRange(InstantOf(base) + offsets[i])
    ensures r.Failure? ==>
              (r.error == EmptyTimeData <==> |offsets| == 0) && (r.error == EmptyTimeData || r.error == OutOfRange)
    ensures r.Success? ==>
              && r.value.totalTimesteps == |offsets|
              && |r.value.allTimes| == |offsets|
              && (forall i | 0 <= i < |offsets| :: r.value.allTimes[i] == InstantOf(base) + offsets[i])
              && r.value.startTime == InstantOf(base) + offsets[0]
              && r.value.endTime == InstantOf(base) + offsets[|offsets| - 1]
              && r.value.timeUnits == units
              && r.value.baseTime == base
  {
    var times := ConvertOffsets(name, InstantOf(base), offsets);
    if !AllInRange(times) then Failure(OutOfRange)
    else if |times| == 0 then Failure(EmptyTimeData)
    else Success(TimeInfo(times[0], times[|times| - 1], |offsets|, units, base, times))
  }

  /**
   * The body of `get_time_info` on a dataset that is held: the variable is
   * looked up first, then its data read (which fails on a closed dataset),
   * then its units, then the epoch, then the conversion. Each step raises
   * its own error exactly when the earlier steps passed and it fails; a read
   * that gets past them all is the time axis of the variable's values.
   */
  function ReadTimeInfo(h: Handle, timeVar: Option<string>): (r: Result<TimeInfo, ReaderError>)
    ensures r.Failure? ==> r.error != FileNotFound && r.error != NoTimeVariable
    ensures r.Success? ==> timeVar.Some? && timeVar.value in h.variables && h.isOpen
    ensures r == Failure(MissingVariable) <==> timeVar.None? || timeVar.value !in h.variables
    ensures r == Failure(DatasetClosed) <==> timeVar.Some? && timeVar.value in h.variables && !h.isOpen
    ensures r == Failure(MissingUnits) <==>
              timeVar.Some? && timeVar.value in h.variables && h.isOpen && h.variables[timeVar.value].units.None?
    ensures r == Failure(BadEpoch) <==>
              && timeVar.Some? && timeVar.value in h.variables && h.isOpen
              && h.variables[timeVar.value].units.Some?
              && EpochOf(h.variables[timeVar.value].units.value).None?
    ensures timeVar.Some? && timeVar.value in h.variables && h.isOpen ==>
              var v := h.variables[timeVar.value];
              v.units.Some? && EpochOf(v.units.value).Some? ==>
                r == TimeAxis(timeVar.value, v.units.value, EpochOf(v.units.value).value, v.values)
  {
    if timeVar.None? || timeVar.value !in h.variables then Failure(MissingVariable)
    else if !h.isOpen then Failure(DatasetClosed)
    else
      var v := h.variables[timeVar.value];
      if v.units.None? then Failure(MissingUnits)
      else match EpochOf(v.units.value)
        case None => Failure(BadEpoch)
        case Some(base) => TimeAxis(timeVar.value, v.units.value, base, v.values)
  }

  /** Non-decreasing, stated on neighbours. */
  predicate Ordered(s: seq<int>)
  {
    forall i | 0 < i < |s| :: s[i - 1] <= s[i]
  }

  /** Neighbour order gives order between any two positions. */
  lemma {:induction false} OrderedPairs(s: seq<int>, i: int, j: int)
    requires Ordered(s) && 0 <= i <= j < |s|
    ensures s[i] <= s[j]
    decreases j - i
  {
    if i < j {
      OrderedPairs(s, i, j - 1);
    }
  }

  /** Times come out in the order of the raw values, and ordered raw values give start <= end. */
  lemma OrderedTimeAxis(name: string, units: string, base: DateTime, offsets: seq<int>)
    requires Valid(base) && TimeAxis(name, units, base, offsets).Success?
    ensures Ordered(offsets) <==> Ordered(TimeAxis(name, units, base, offsets).value.allTimes)
    ensures Ordered(offsets) ==>
              TimeAxis(name, units, base, offsets).value.startTime <= TimeAxis(name, units, base, offsets).value.endTime
  {
    if Ordered(offsets) {
      OrderedPairs(offsets, 0, |offsets| - 1);
    }
  }

  /** What a successful read reports about the time variable it read. */
  lemma TimeInfoOfVariable(h: Handle, timeVar: Option<string>)
    requires ReadTimeInfo(h, timeVar).Success?
    ensures var v := h.variables[timeVar.value];
      var info := ReadTimeInfo(h, timeVar).value;
      && h.isOpen
      && v.units.Some? && EpochOf(v.units.value) == Some(info.baseTime)
      && info.timeUnits == v.units.value
      && info.totalTimesteps == |v.values| > 0
      && |info.allTimes| == |v.values|
      && (forall i | 0 <= i < |v.values| :: info.allTimes[i] == InstantOf(info.baseTime) + v.values[i])
      && info.startTime == info.allTimes[0]
      && info.endTime == info.allTimes[|v.values| - 1]
  {
  }

  /** A timestamp holds no 's', so nothing inside it can start "since". */
  lemma ParsedHasNoS(s: string, i: int)
    requires Parse(s).Some? && 0 <= i < |s|
    ensures s[i] != 's'
  {
    ParsedHasNoLetters(s, i);
  }

  /** Units written as "<anything>since <timestamp>" name that timestamp as the epoch. */
  lemma EpochOfTimestamp(prefix: string, dt: DateTime)
    requires Valid(dt)
    ensures EpochOf(prefix + "since " + Format(dt)) == Some(dt)
  {
    var f := Format(dt);
    var u := prefix + "since " + f;
    var k := |prefix|;
    assert u[k..k + 6] == "since ";
    assert OccursAt(u, "since ", k);
    assert OccursAt(u, "since", k) by {
      assert u[k..k + 5] == "since";
    }
    ParseFormat(dt);
    forall j | k < j <= |u| - 6 ensures !OccursAt(u, "since ", j) {
      if j < k + 6 {
        assert u[j] == "since "[j - k];
      } else {
        assert u[j] == f[j - k - 6];
        ParsedHasNoS(f, j - k - 6);
      }
      assert u[j..j + 6][0] == u[j];
    }
    AfterLastAt(u, "since ", k);
    assert u[k + 6..] == f;
  }

  /**
   * Conversely, units that mention "since" name an epoch only when they end
   * with "since " and the canonical form of that epoch.
   */
  lemma TimestampOfEpoch(units: string)
    requires Contains(units, "since") && EpochOf(units).Some?
    ensures |units| >= 25
    ensures units == units[..|units| - 25] + "since " + Format(EpochOf(units).value)
  {
    var r := AfterLast(units, "since ");
    FormatParse(r);
    if r == units {
      var i :| 0 <= i <= |units| - 5 && OccursAt(units, "since", i);
      assert units[i..i + 5][0] == units[i];
      ParsedHasNoS(units, i);
    }
    SplitAtOccurrence(units, "since ", |units| - 25);
  }

  /** Units that mention "since" without a following space never name an epoch (strptime fails). */
  lemma SinceWithoutSpace(units: string)
    requires Contains(units, "since") && !Contains(units, "since ")
    ensures EpochOf(units).None?
  {
    if EpochOf(units).Some? {
      TimestampOfEpoch(units);
      var n := |units|;
      assert units[n - 25..n - 19] == "since ";
      assert OccursAt(units, "since ", n - 25);
    }
  }

  /**
   * The reader of one output file. `dataset` is None until the file has been
   * opened, and `timeVar` None until a time variable has been chosen.
   */
  class ResultProcessor {
    const filename: string
    var dataset: Option<Handle>
    var timeVar: Option<string>

    constructor(filename: string)
      ensures this.filename == filename && dataset == None && timeVar == None
    {
      this.filename := filename;
      dataset := None;
      timeVar := None;
    }

    /**
     * Opens the file named `filename` in `disk` and searches the candidate
     * time variables in order, keeping the earlier choice when none is
     * present. The error NoTimeVariable is raised only when there is no
     * choice at all; the dataset stays open either way.
     */
    method OpenDataset(disk: map<string, Dataset>) returns (err: Option<ReaderError>)
      modifies this
      ensures filename !in disk ==>
                dataset == old(dataset) && timeVar == old(timeVar) && err == Some(FileNotFound)
      ensures filename in disk ==>
                && dataset == Some(Handle(disk[filename], true))
                && timeVar == SelectTimeVariable(disk[filename], old(timeVar))
                && err == (if timeVar.None? then Some(NoTimeVariable) else None)
    {
      if filename !in disk {
        return Some(FileNotFound);
      }
      var vars := disk[filename];
      dataset := Some(Handle(vars, true));
      var i := 0;
      while i < |TimeVariableNames|
        invariant 0 <= i <= |TimeVariableNames|
        invariant forall j | 0 <= j < i :: TimeVariableNames[j] !in vars
        invariant timeVar == old(timeVar)
        invariant dataset == Some(Handle(vars, true))
      {
        if TimeVariableNames[i] in vars {
          timeVar := Some(TimeVariableNames[i]);
          break;
        }
        i := i + 1;
      }
      err := if timeVar.None? then Some(NoTimeVariable) else None;
    }

    /** Closes the dataset when one is held; a reader that never opened is left alone. */
    method CloseDataset()
      modifies this
      ensures old(dataset).None? ==> dataset == None
      ensures old(dataset).Some? ==> dataset == Some(old(dataset).value.(isOpen := false))
      ensures timeVar == old(timeVar)
    {
      if dataset.Some? {
        dataset := Some(dataset.value.(isOpen := false));
      }
    }

    /**
     * Opens the file first only when no dataset is held (a closed one is not
     * reopened), then reads the time axis of the chosen variable.
     */
    method GetTimeInfo(disk: map<string, Dataset>) returns (r: Result<TimeInfo, ReaderError>)
      modifies this
      ensures old(dataset).Some? ==>
                dataset == old(dataset) && timeVar == old(timeVar) && r == ReadTimeInfo(dataset.value, timeVar)
      ensures old(dataset).None? && filename !in disk ==>
                dataset == None && timeVar == old(timeVar) && r == Failure(FileNotFound)
      ensures old(dataset).None? && filename in disk ==>
                && dataset == Some(Handle(disk[filename], true))
                && timeVar == SelectTimeVariable(disk[filename], old(timeVar))
                && r == (if timeVar.None? then Failure(NoTimeVariable) else ReadTimeInfo(dataset.value, timeVar))
    {
      if dataset.None? {
        var err := OpenDataset(disk);
        if err.Some? {
          return Failure(err.value);
        }
      }
      r := ReadTimeInfo(dataset.value, timeVar);
    }
  }

  /**
   * A reader whose search found nothing keeps the open dataset, so asking it
   * again does not retry the search: the lookup of the missing name fails.
   */
  method RetryAfterNoTimeVariable(disk: map<string, Dataset>) returns (first: Result<TimeInfo, ReaderError>, second: Result<TimeInfo, ReaderError>)
    requires "out.nc" in disk
    requires forall k | 0 <= k < |TimeVariableNames| :: TimeVariableNames[k] !in disk["out.nc"]
    ensures first == Failure(NoTimeVariable) && second == Failure(MissingVariable)
  {
    var p := new ResultProcessor("out.nc");
    first := p.GetTimeInfo(disk);
    second := p.GetTimeInfo(disk);
  }

  /** A closed reader is not reopened: its next read fails on the closed dataset. */
  method ReadAfterClose(disk: map<string, Dataset>) returns (before: Result<TimeInfo, ReaderError>, after: Result<TimeInfo, ReaderError>)
    requires "out.nc" in disk && "time" in disk["out.nc"]
    ensures before.Failure? ==> before.error != DatasetClosed
    ensures after == Failure(DatasetClosed)
  {
    var p := new ResultProcessor("out.nc");
    before := p.GetTimeInfo(disk);
    p.CloseDataset();
    after := p.GetTimeInfo(disk);
  }
}
