# FVCOM Lagrangian run set-up and time-axis reader, in Dafny

This project models the two pieces of logic in the FVCOM offline Lagrangian
particle-tracking driver:

- **Run configuration** (`main.py`, lines 44-79). The script parses a start
  and an end timestamp written as `'%Y-%m-%d %H:%M:%S'`. It turns the span
  into whole hours, negates them for an inverse (backward) run and rejects a
  negative result. It then writes ten entries into the `[Lagrangian]` table
  of the loaded TOML document:
  - the step count `TDRIFT = int(hours * 3600 / INSTP)`;
  - the case name and the `Inverse` flag;
  - the zero-padded year, month, day and hour of the start time;
  - the grid area, the particle file and the `CART_SHP` flag.

  `RunSetup.Configure` is the pure model of the whole block, exception
  included. `RunSetup.ConfigDocument` holds the document and updates it
  entry by entry, as the script does. Its method `ApplyRunWindow` is proved
  to end in exactly the state `Configure` describes.
- **Time-axis extraction** (`modules/FVCOMnetCDFReader/__init__.py`,
  class `FVCOMResultProcessor`). The reader opens the output file and picks
  the first of `time, Time, Times, itime, itime2` that the file has. It takes
  the epoch from the CF-style units string `"<unit> since <timestamp>"`,
  defaulting to 1858-11-17 00:00:00. It converts every raw value to epoch
  plus offset and reports the first and last times and the count.
  `FvcomReader.ResultProcessor` carries the `dataset` and `time_var` fields.
  `FvcomReader.ReadTimeInfo` is the pure conversion.

Three supporting modules:
- `Calendar`: Python `datetime` at whole-second resolution. It holds the
  proleptic Gregorian day count and the fixed timestamp format, with both
  round trips proved.
- `Text`: `in`, `split(sep)[-1]` and zero-padded decimal digits.
- `Common`: Option and Result.

Conventions:
- **Exceptions** become error values. `RunSetup.Applied` pairs the table as
  it stands with the exception that ended the block, if any.
- **Partial writes:** an exception raised halfway leaves the entries written
  before it in place, as in the script.
- **The TOML document** is a map from section name to a map from key to
  value. Only the sub-tables of `[Lagrangian]` are modelled.
- **A netCDF file** is a map from variable name to its values and its
  `units` attribute. The file system is a map from file name to such a file.
- **Time:**
  - Times are instants: whole microseconds since 0001-01-01 00:00:00, the
    resolution of `datetime` and `timedelta`.
  - A raw time value is the offset it denotes, in microseconds.
  - Spans between parsed timestamps are whole seconds (`Calendar.ToSeconds`).

## Model

| member | source | states |
|---|---|---|
| Text.Contains | modules/FVCOMnetCDFReader/__init__.py:67 | `pat in s`: a pattern longer than the string never occurs, and the empty pattern always does |
| Text.AfterLast | modules/FVCOMnetCDFReader/__init__.py:68 | for a separator that cannot overlap itself, such as "since ", the last piece of `split(sep)`: a suffix that does not contain the separator, the whole string exactly when the separator does not occur, and otherwise preceded by the separator |
| Text.Pad | main.py:67-70 | `strftime('%Y')`, `('%m')`, `('%d')`, `('%H')`: exactly the width's number of decimal digits |
| Text.DigitsOfPad | main.py:67-70 | reading back a number written zero-padded to a width it fits in gives the number |
| Text.PadOfDigits | main.py:44-45 | padding the value of a digit string to its own width gives the string back (the digit fields `Calendar.Parse` reads are canonical) |
| Calendar.ToSeconds | main.py:46 | seconds since 0001-01-01, never negative, whose remainder modulo a day is the time of day |
| Calendar.ToSecondsOrder | main.py:46 | seconds keep the order of date-times in both directions, and equal seconds mean equal date-times, so the sign of `(end - start).total_seconds()` says which comes first |
| Calendar.InstantInRange | modules/FVCOMnetCDFReader/__init__.py:81 | every valid `datetime` is an instant between 0001-01-01 and the end of year 9999 |
| Calendar.Format | main.py:67-70 | `strftime('%Y-%m-%d %H:%M:%S')` has the 19-character layout: digits with '-', ' ' and ':' in their places |
| Calendar.Parse | main.py:44-45 | `strptime` with '%Y-%m-%d %H:%M:%S' on the zero-padded layout: whatever it yields is a valid date-time |
| Calendar.ParseFormat | main.py:44-45 | `Calendar.Parse` of the formatted timestamp gives back the date-time |
| Calendar.FormatParse | main.py:44-45 | a string `Calendar.Parse` accepts is the canonical formatting of the date-time it yields |
| Calendar.ParsedHasNoLetters | modules/FVCOMnetCDFReader/__init__.py:69 | a string `Calendar.Parse` accepts holds only the digits 0-9 and the separators '-', ' ' and ':' |
| RunSetup.ElapsedHours | main.py:46 | `total_seconds() // 3600` is the whole number of hours rounded towards minus infinity: h*3600 <= span < (h+1)*3600 |
| RunSetup.RunHours | main.py:46-57 | any flag other than 'T'/'F' raises the direction RuntimeError; forward succeeds iff end >= start, with the floored hours; inverse succeeds iff the span is under one hour, with the backward span rounded up; otherwise the negative-duration RuntimeError |
| RunSetup.TimeRun | main.py:44-57 | the strptime ValueError is raised iff a timestamp does not parse; the only other errors are the two RuntimeErrors; a run that passes has a 'T'/'F' flag and starts at the parsed start time |
| RunSetup.TimeRunWindow | main.py:44-57 | in terms of the two parsed timestamps: forward runs are accepted iff the end is not before the start, inverse runs iff end < start + 1 hour; the hour bounds of each direction |
| RunSetup.StepCount | main.py:58 | TDRIFT truncates hours*3600/INSTP towards zero: non-negative and the largest count of steps within the run for INSTP > 0, non-positive for INSTP < 0 |
| RunSetup.Numeric | main.py:58 | integers and booleans are numbers in `3600/INSTP`, True as 1 and False as 0; strings and other values are not |
| RunSetup.DriftSteps | main.py:58 | TDRIFT can be computed iff INSTP is present, numeric and non-zero, and is then the step count of the run hours; otherwise the KeyError for TimeIntegration or for INSTP when that is missing, the TypeError when INSTP is not a number, and the ZeroDivisionError when it is 0 (or False) |
| RunSetup.Assign | main.py:58-76 | one assignment after an exception does nothing; otherwise it stores the value iff the section exists and raises KeyError for that section if not; the sections stay the same |
| RunSetup.AssignUpdatesOnly | main.py:58-76 | one assignment changes no entry besides the one it stores |
| RunSetup.WrittenKeepsOthers | main.py:58-76 | an assignment to one of the ten written entries keeps every other entry |
| RunSetup.WriteGeneral | main.py:59-66 | after an exception nothing happens; otherwise completes iff the section exists and the flag is 'T' or 'F'; a missing section raises the KeyError of line 59 with nothing written, whatever the flag; with the section present another flag raises the ValueError of line 66; touches no entry besides CaseName and Inverse |
| RunSetup.WriteStartTime | main.py:67-70 | after an exception nothing happens; otherwise completes iff the section exists; a missing section raises its KeyError with nothing written; touches no entry besides the four *LAG fields |
| RunSetup.WriteLocation | main.py:71-79 | after an exception nothing happens; otherwise completes iff both sections exist and the coordinate flag is 'T' or 'F'; a missing IOLocation raises the KeyError of line 71 with nothing written, whatever the flag; with IOLocation present another flag raises the ValueError of line 79 whether or not ProjectionControl exists, and a 'T'/'F' flag without ProjectionControl raises its KeyError; touches no entry besides GEOAREA, LAGINI and CART_SHP |
| RunSetup.Configure | main.py:44-79 | whatever the outcome, the same sections remain, INSTP and every other loaded entry keep their values and no other key is added; the ValueError of line 66 is never raised; an error of lines 44-57, or of line 58's right-hand side, is raised with the table untouched |
| RunSetup.ConfigureSucceeds | main.py:44-79 | the block completes iff the timestamps parse and the direction check passes, INSTP is usable, all five sections exist and the coordinate flag is 'T' or 'F' |
| RunSetup.StagesSucceed | main.py:59-79 | once TDRIFT is stored, the writes of lines 59-79 all complete iff the General, StartTime, IOLocation and ProjectionControl sections exist and both flags are 'T' or 'F' |
| RunSetup.DirectionCheckedFirst | main.py:47-54 | an unknown direction flag raises the RuntimeError of line 54 and nothing is written, whatever the coordinate flag and the document |
| RunSetup.CompletedEntries | main.py:58-76 | a completed block keeps the sections and stores TDRIFT, CaseName, Inverse as True iff the flag is 'T', the start time's 4-digit year and 2-digit month, day and hour, GEOAREA, LAGINI, and CART_SHP as True iff the flag is 'T' |
| RunSetup.WriteGeneralDone | main.py:59-63 | with the section present and a 'T'/'F' flag the General stage writes exactly its two entries |
| RunSetup.WriteStartTimeDone | main.py:67-70 | with the section present the StartTime stage writes exactly its four entries |
| RunSetup.WriteLocationDone | main.py:71-79 | with both sections present the location stage writes GEOAREA and LAGINI, then CART_SHP or, for a bad flag, raises with CART_SHP untouched |
| RunSetup.ConfigureReachesLocation | main.py:44-70 | when the time checks, INSTP and the sections are fine, the block reaches line 71 with TDRIFT, the General and the StartTime entries written |
| RunSetup.ConfigureCompletes | main.py:44-76 | a completed block had valid times, a usable INSTP, all sections and a 'T'/'F' coordinate flag, and its table is the loaded one with the ten entries written from the start time and the step count |
| RunSetup.CoordinateCheckedLast | main.py:71-79 | a bad coordinate flag, with everything else in order, is reported after every other check, with the other nine entries written as in a completed run and CART_SHP untouched |
| RunSetup.CoordinateErrorExactly | main.py:44-79 | the ValueError of line 79 is raised iff the times check out, INSTP is usable, the General, StartTime and IOLocation sections exist and the coordinate flag is neither 'T' nor 'F' (ProjectionControl is never reached) |
| RunSetup.StagesRaiseCoordinate | main.py:59-79 | once TDRIFT is stored, lines 59-79 end in the ValueError of line 79 iff the General, StartTime and IOLocation sections exist, the direction flag is 'T' or 'F' and the coordinate flag is neither |
| RunSetup.StartFieldsReadBack | main.py:67-70 | the *LAG strings read back as the start time's year, month, day and hour, whatever the direction |
| RunSetup.EqualBoundsGiveNoSteps | main.py:44-58 | equal start and end are accepted in both directions with zero hours, and a completed block then stores TDRIFT = 0 |
| RunSetup.ConfigDocument.constructor | main.py:41-42 | the document holds the loaded table |
| RunSetup.ConfigDocument.Put | main.py:58 | one assignment stores the value under the key of an existing section, and a missing section raises KeyError with nothing changed |
| RunSetup.ConfigDocument.PutGeneral | main.py:59-66 | the document and the exception after lines 59-66 are those of the General stage |
| RunSetup.ConfigDocument.PutStartTime | main.py:67-70 | the document and the exception after lines 67-70 are those of the StartTime stage |
| RunSetup.ConfigDocument.PutLocation | main.py:71-79 | the document and the exception after lines 71-79 are those of the location stage |
| RunSetup.ConfigDocument.ApplyRunWindow | main.py:44-79 | running the block in place leaves exactly the table and the exception of `Configure` on the loaded table |
| FvcomReader.FirstPresent | modules/FVCOMnetCDFReader/__init__.py:30-34 | the index found is that of a present name with no present name before it, or the end of the list |
| FvcomReader.SelectTimeVariable | modules/FVCOMnetCDFReader/__init__.py:30-34 | the time variable becomes the first candidate the dataset has; with no candidate present the earlier choice is kept |
| FvcomReader.EpochOf | modules/FVCOMnetCDFReader/__init__.py:66-72 | the epoch is always a valid date-time, and units without "since" give 1858-11-17 00:00:00 |
| FvcomReader.EpochOfTimestamp | modules/FVCOMnetCDFReader/__init__.py:67-69 | units of the form "<anything>since <timestamp>" give that timestamp as the epoch |
| FvcomReader.TimestampOfEpoch | modules/FVCOMnetCDFReader/__init__.py:67-69 | conversely, units that mention "since" give an epoch (with `Calendar.Parse` for `strptime`) only if they end with "since " and the canonical form of that epoch |
| FvcomReader.SinceWithoutSpace | modules/FVCOMnetCDFReader/__init__.py:67-69 | units that mention "since" but never "since " make strptime fail |
| FvcomReader.Shift | modules/FVCOMnetCDFReader/__init__.py:77-81 | the i-th time is the epoch plus the i-th raw value, with as many times as values |
| FvcomReader.ConvertOffsets | modules/FVCOMnetCDFReader/__init__.py:75-81 | both branches convert each raw value the same way, to epoch plus offset, whatever the variable's name |
| FvcomReader.TimeAxis | modules/FVCOMnetCDFReader/__init__.py:75-96 | succeeds iff the data is non-empty and every time is a representable date-time; fails on empty data exactly with the IndexError case; on success the count is the number of values, all_times is epoch plus each value in order, start is the first, end the last, with the units and the epoch |
| FvcomReader.ReadTimeInfo | modules/FVCOMnetCDFReader/__init__.py:60-100 | never reports the errors of opening; the KeyError iff no variable is chosen or the dataset lacks it; the closed-dataset error iff it is present but the dataset is closed; the AttributeError iff it has no units; the strptime ValueError iff the units name no parsable epoch; past these steps the read is exactly `TimeAxis` of the variable's units, epoch and values |
| FvcomReader.OrderedTimeAxis | modules/FVCOMnetCDFReader/__init__.py:81-85 | the times are ordered iff the raw values are, and ordered values give start <= end |
| FvcomReader.TimeInfoOfVariable | modules/FVCOMnetCDFReader/__init__.py:60-96 | a successful read reports the variable's units and the epoch they name, its value count, and epoch plus each value from first to last |
| FvcomReader.ResultProcessor.constructor | modules/FVCOMnetCDFReader/__init__.py:10-19 | a new reader holds no dataset and no time variable |
| FvcomReader.ResultProcessor.OpenDataset | modules/FVCOMnetCDFReader/__init__.py:23-42 | a missing file changes nothing and raises; otherwise the dataset is the open file, the time variable is chosen by priority, keeping the old one when none is present, and ValueError is raised iff there is still none |
| FvcomReader.ResultProcessor.CloseDataset | modules/FVCOMnetCDFReader/__init__.py:44-48 | a held dataset is closed and kept; without one nothing happens |
| FvcomReader.ResultProcessor.GetTimeInfo | modules/FVCOMnetCDFReader/__init__.py:50-100 | the file is opened first only when no dataset is held, and its error is passed on; the answer is the read of the chosen variable |
| FvcomReader.RetryAfterNoTimeVariable | modules/FVCOMnetCDFReader/__init__.py:23-61 | a file without time variables raises ValueError once; the next call does not reopen and fails on the lookup instead |
| FvcomReader.ReadAfterClose | modules/FVCOMnetCDFReader/__init__.py:44-61 | a closed reader is not reopened, and its next read fails on the closed dataset |

## Left out

- Command-line parsing and logging are not modelled. So are the copying, loading and dumping of the TOML file and the creation of the log directory. The parsed arguments and the loaded table are parameters.
- The `[Lagrangian]` lookup is not modelled, so a document without that table (a KeyError before any write) has no counterpart. The model starts from its sub-tables.
- `Calendar.Parse` is weaker than `strptime` in what it accepts. It accepts only the zero-padded 19-character layout with the ASCII digits 0-9. `strptime` also accepts:
  - one-digit month, day, hour, minute and second fields (`"2025-4-2 0:0:0"`);
  - a space-padded day such as `" 2"`;
  - any run of whitespace (tabs included) where the format has its space;
  - Unicode decimal digits.

  Such strings are rejected here, and those timestamps raise BadTimestamp or BadEpoch in the model where Python goes on.
- `Calendar.FormatParse`, `Calendar.ParsedHasNoLetters` and `FvcomReader.TimestampOfEpoch` hold of `Calendar.Parse`, not of `strptime`, which accepts the further forms listed above (for example "days since 1858-11-17 0:0:0" names an epoch in Python).
- `Text.AfterLast` is Python's last piece of `split(sep)` only for a separator that cannot overlap itself. Python splits at non-overlapping occurrences from the left, so `"aaa".split("aa")[-1]` is `"a"`, whereas `AfterLast("aaa", "aa")` is empty. The one separator the reader uses, "since ", cannot overlap itself.
- `RunSetup.StepCount` uses exact rational arithmetic. Python computes `hours * (3600 / INSTP)` in floating point, which can fall just below an integer when INSTP does not divide 3600. A float INSTP is not modelled at all, since `Value` has no float.
- `RunSetup.WriteStartTime` always writes a 4-digit year. Some C libraries' `strftime('%Y')` writes years before 1000 without leading zeros.
- Raw netCDF time values are taken as exact offsets in microseconds. The float-days conversion `timedelta(days=float(t))` and its rounding to microseconds are not modelled.
- netCDF file access is reduced to a map of variables. Masked arrays are not modelled. Neither is what the library does when a dataset is closed twice: `CloseDataset` simply marks it closed again.
- `print_time_summary` only logs, and `latlon2projection` calls pyproj on floats and writes into the file. Neither is modelled.
- The loggers created in `__init__` (which read `configuration/config.toml`) are not modelled.
- The `LagrangianTracking` module is not part of this model. It does not parse, and `main.py:92` calls a name it does not define.
