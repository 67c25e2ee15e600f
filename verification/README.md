# Flysight jump-track pipeline in Dafny

This project models how the Flysight plotting tool turns a FlySight GPS
recording into a jump track. It also proves properties of that model. The
pipeline exists twice in the source:

- the `FlysightTrackBuilder` class in `flysight_ops.py`, which updates a
  working table, the GUI options and a header list in place;
- the free functions in `flysight_tool.py`, each of which returns a new table.

Both run the same stages:

1. drop the units row the CSV reader leaves at position 0;
2. derive three speed columns, `velH`, `velT` and `gr`;
3. keep only the jump: from ten samples before the first sample whose
   total speed reaches 2 m/s, up to (not including) the first later sample
   at or below 0.5 m/s;
4. add a `time_elapsed` column running evenly from 0 to the whole seconds
   between the first and last timestamps;
5. optionally add a `ground_elev` column, one elevation-service answer per
   row, in row order.

Modules:

- `Frames`: the table (recorded samples plus named derived columns), the
  error conditions, and Python's positional slice rule.
- `Kinematics`: the speed stage.
- `Jump`: segment detection.
- `Elapsed`: timedelta normal form, `linspace` and the time stage.
- `Elevation`: the two unit vocabularies and the elevation stage.
- `FlysightOps`: the reader's row drop, the builder class, the
  composed pipeline and the tool's construction sequence.
- `FlysightTool`: the free functions, including the `get_elev` loop as a
  method proved equal to the elevation stage.

Two things are parameters:

- `speeds` maps one sample to its horizontal speed, total speed and glide
  ratio. It stands for the floating-point arithmetic in `calc_vel`.
- `lookup` maps one request to `Some(elevation)`, or to `None` when the
  response lacks the expected keys. It stands for the elevation web service.

Timestamps are integer microseconds. Elapsed times are exact reals.

Behaviour of the code worth knowing:

- The lower slice bound `start - 10` is not clamped to 0. `iloc` counts a
  negative bound from the end of the table and only then floors it at 0.
  So a jump that starts within the first ten samples of a long recording
  yields an empty segment, and the build then fails at the elapsed-time
  stage (`BuildEmptiedByShortLeadIn`).
- `build` calls `add_elev()` with its default `metric`, so elevation
  requests are always in metres (`BuildQueriesInMeters`).
- `find_jump` ignores its `speed` argument and always uses 2 and 0.5.

## Model

| member | source | states |
|---|---|---|
| Frames.Column | flysight_ops.py:162 | Reading a derived column succeeds exactly when the column exists, and then gives one value per row; otherwise the result is the missing-column error. |
| Frames.PyBound | flysight_ops.py:173 | An adjusted slice bound never exceeds the length, and a bound already inside `0..n` is kept. |
| Frames.PySlice | flysight_ops.py:173 | Python's `s[lo:hi]`: the result is the elements of `s` from the adjusted lower bound on, `max(0, b - a)` of them for adjusted bounds `a` and `b`, and with bounds inside `0..n` it is the ordinary slice. |
| Frames.SliceRows | flysight_ops.py:173 | `iloc[lo:hi]` slices the rows and every derived column by the same Python-adjusted bounds, keeps the set of columns and keeps the table rectangular. |
| Kinematics.CalcVel | flysight_ops.py:140-150 | Calc_vel (also `flysight_tool.py:44-54`) keeps the rows and every other column, and adds exactly `velH`, `velT` and `gr`. Value `i` of each is the given speed function applied to row `i`. |
| Jump.FirstAtLeast | flysight_ops.py:162-166 | The result is the least position from `from` whose speed is at least the threshold. None means no such position exists. |
| Jump.FirstAtMost | flysight_ops.py:168-171 | The result is the least position from `from` whose speed is at most the threshold. None means no such position exists. |
| Jump.Detect | flysight_ops.py:162-171 | A success is a start meeting the first-match start rule and a finish meeting the first-match finish rule. The missing-start error occurs exactly when no speed reaches the start threshold. Every failure is one of the two not-found errors. |
| Jump.CropJump | flysight_ops.py:152-174 | A successful crop keeps the column set and rectangularity, and never has more rows than its input. |
| Jump.DetectFindsJump | flysight_ops.py:162-171 | Any `k`, `f` satisfying the two first-match rules (thresholds inclusive) are exactly what the detector reports. |
| Jump.DetectMissingFinish | flysight_ops.py:168-171 | When a start exists but no later speed falls to the end threshold, the detector reports the missing finish. |
| Jump.CropJumpKeepsSlice | flysight_ops.py:173-174 | Given the start and finish, the crop is the Python slice `[start - 10, finish)` of the rows and of every column. |
| Jump.CropJumpFails | flysight_ops.py:162-171 | There are three failure conditions, each with both directions: no `velT` column; no speed reaching the start threshold; and, for the start, no later speed at or below the end threshold. |
| Jump.StartPrecedesFinish | flysight_ops.py:162-169 | With an end threshold below the start threshold, the finish comes strictly after the start. |
| Jump.CropJumpFullLeadIn | flysight_ops.py:173-174 | With at least ten samples before the start, the segment is the original rows `k-10 .. f-1` in order, `f - k + 10` of them. The finish row is excluded, and row 10 of the segment is the start row. |
| Jump.CropJumpShortLeadIn | flysight_ops.py:173-174 | With fewer than ten samples before the start, the segment begins at `max(0, n + k - 10)`. It is empty once that bound reaches the finish. |
| Elapsed.FromMicros | flysight_ops.py:182 | The timedelta of a span is normalised (seconds within a day, microseconds within a second) and has exactly that span's length. |
| Elapsed.FromMicrosUnique | flysight_ops.py:182 | The normal form is unique: any normalised timedelta is `FromMicros` of its own length. |
| Elapsed.Duration | flysight_ops.py:182 | `(end - start).seconds` is always below one day. |
| Elapsed.DurationTruncates | flysight_ops.py:182 | Within a day, the duration is the span truncated down to whole seconds. |
| Elapsed.DurationWrapsDaily | flysight_ops.py:182 | Adding one day to the span leaves the duration unchanged. |
| Elapsed.NegativeSpanWraps | flysight_ops.py:182 | A last timestamp one microsecond before the first gives 86399 seconds, not a negative duration. |
| Elapsed.Linspace | flysight_ops.py:183 | `linspace(0, stop, n)` has `n` values, starts at 0 and, for two or more values, ends exactly at `stop`. |
| Elapsed.LinspaceNondecreasing | flysight_ops.py:183 | With a non-negative stop, the values never decrease. |
| Elapsed.LinspaceEvenStep | flysight_ops.py:183 | Consecutive values differ by exactly `stop / (n - 1)`. |
| Elapsed.ConvertTime | flysight_ops.py:176-184 | Convert_time (also `flysight_tool.py:57-66`) fails exactly on an empty table. Otherwise it keeps rows and other columns and adds one `time_elapsed` value per row, starting at 0 and, for two or more rows, ending at the duration between the first and last timestamps: the column is `linspace(0, duration, n)` (also `flysight_tool.py:65`). |
| Elapsed.ConvertTimeEvenStep | flysight_ops.py:180-183 | Consecutive elapsed values are exactly `duration / (n - 1)` apart: the column is spaced by sample index, not by the timestamps. |
| Elapsed.ConvertTimeNondecreasing | flysight_ops.py:183 | The elapsed-time column never decreases. |
| Elevation.Lower | flysight_ops.py:95 | `str.lower()` keeps the length and lower-cases each ASCII letter in place. |
| Elevation.LowerIdempotent | flysight_ops.py:95 | Lower-casing twice is the same as lower-casing once. |
| Elevation.SystemUnits | flysight_ops.py:95 | In any letter case, `metric` gives metres and `english` gives feet, and in both directions. Any other system is the key error naming the lower-cased system, the key `system.lower()` that was looked up. |
| Elevation.UnitsIgnoreCase | flysight_ops.py:95 | Lower-casing the argument first changes neither the builder's unit (nor its key error) nor the free function's unit (also `flysight_tool.py:116-119`). |
| Elevation.NormalizeUnits | flysight_tool.py:116-119 | The result is feet exactly when the lower-cased string is `feet`, `ft` or `f`, and metres otherwise, so the argument never causes a failure. |
| Elevation.EnglishMeansFeetOnlyToBuilder | flysight_ops.py:95 | The builder maps `english` to feet, while the free function maps it to metres. |
| Elevation.FeetUnknownToBuilder | flysight_tool.py:116-119 | The free function maps `Feet` to feet, while the builder (`flysight_ops.py:95`) raises the key error for `feet`. |
| Elevation.Queries | flysight_ops.py:109-112 | One request per row, in row order, carrying that row's longitude and latitude and the unit. |
| Elevation.Elevations | flysight_ops.py:114-117 | The ordered map of requests succeeds exactly when every response has an elevation. Then there is one answer per request, and answer `i` is the response to request `i`. |
| Elevation.AddElevation | flysight_ops.py:97-118 | The elevation stage fails exactly when some row's answer is missing. Otherwise it keeps rows and other columns and adds `ground_elev`, with one value per row, value `i` being the answer for row `i`. |
| FlysightOps.DropUnitsRow | flysight_ops.py:63-64 | Dropping the units row fails exactly on an empty parse. Otherwise the first parsed row followed by the result is the whole parse. |
| FlysightOps.MetricIsMeters | flysight_ops.py:84-95 | The default system `metric` maps to metres. |
| FlysightOps.AddElevStep | flysight_ops.py:84-118 | Add_elev looks up the unit before the flag is checked, so an unknown system fails with the key error for its lower-cased name even with enrichment off. With enrichment off the table is returned unchanged; with it on, the result is the elevation stage in the looked-up unit. |
| FlysightOps.AfterSpeeds | flysight_ops.py:136-138 | The crop, time and elevation stages of `build` keep the result rectangular. |
| FlysightOps.BuildTrack | flysight_ops.py:127-138 | The table `build` produces from the reader's table stays rectangular. |
| FlysightOps.BuildTrackKeys | flysight_ops.py:127-138 | A successful build keeps the columns it was given and adds exactly `velH`, `velT`, `gr`, `time_elapsed`, and `ground_elev` only when enrichment is on. |
| FlysightOps.AfterSpeedsKeys | flysight_ops.py:136-138 | The stages after the speeds add exactly `time_elapsed`, and `ground_elev` when enrichment is on. |
| FlysightOps.TotalSpeeds | flysight_ops.py:146 | The `velT` column has one value per row, and value `i` is row `i`'s total speed. |
| FlysightOps.HeadersDistinct | flysight_ops.py:36-49 | The twelve recorded headers followed by the derived headers contain no repeated name. |
| FlysightOps.BuildHeadersMatchColumns | flysight_ops.py:120-150 | After a successful build on a fresh table, the headers are distinct, and a derived column exists exactly when its name is among the appended headers. |
| FlysightOps.BuildFailsWithoutStart | flysight_ops.py:162-166 | If no sample reaches 2 m/s, the build fails with the missing-start error, whatever the enrichment setting. |
| FlysightOps.BuildKeepsJump | flysight_ops.py:127-184 | With ten samples of lead-in, a build without enrichment succeeds. Its rows are the original rows `k-10 .. f-1`, and its elapsed time ends at the whole seconds between the first and last kept samples. |
| FlysightOps.BuildEmptiedByShortLeadIn | flysight_ops.py:173-181 | If the start lies among the first ten samples and the wrapped lower bound reaches the finish, the build fails with the empty-track error. |
| FlysightOps.BuildQueriesInMeters | flysight_ops.py:97-138 | In a successfully enriched build, elevation `i` is the answer to a request in metres for row `i`'s position. |
| FlysightOps.FlysightTrackBuilder.constructor | flysight_ops.py:74-82 | A new builder holds the reader's table without derived columns, the GUI options and the twelve recorded headers. |
| FlysightOps.FlysightTrackBuilder.AppendHeaders | flysight_ops.py:120-124 | The header list becomes the old list followed by the new headers in order. Nothing else changes. |
| FlysightOps.FlysightTrackBuilder.CalcVel | flysight_ops.py:140-150 | The table becomes the speed stage of the old table, and the headers grow by `velH`, `velT`, `gr`. |
| FlysightOps.FlysightTrackBuilder.CropJump | flysight_ops.py:152-174 | On success the table becomes the crop of the old table. On failure it reports the crop's error and leaves the table as it was. |
| FlysightOps.FlysightTrackBuilder.ConvertTime | flysight_ops.py:176-184 | On success the table becomes the time stage of the old table and the headers grow by `time_elapsed`. On an empty table it reports the error and changes nothing. |
| FlysightOps.FlysightTrackBuilder.AddElev | flysight_ops.py:84-118 | The table becomes the add_elev step of the old one, or stays unchanged on failure. The headers grow by `ground_elev` only when the step succeeds with enrichment on. |
| FlysightOps.FlysightTrackBuilder.RunAfterSpeeds | flysight_ops.py:136-138 | The last three calls of `build`, run in order, stop at the first failure. On success the table is `AfterSpeeds` of the old one, and the headers grow by `time_elapsed` and, when enabled, `ground_elev`. A failed crop changes nothing; a failed time stage leaves the cropped table with the old headers; a failed elevation stage leaves the timed table with `time_elapsed` appended. |
| FlysightOps.FlysightTrackBuilder.Build | flysight_ops.py:127-138 | Build fails exactly when `BuildTrack` of the old table fails, with the same error. On success the table is that track and the headers grow by exactly `velH, velT, gr, time_elapsed` then `ground_elev` when enabled. On failure the speed columns and their headers remain, and so does each later stage that completed before the one that raised. |
| FlysightOps.FlysightTrackBuilder.GetFlysightTrack | flysight_ops.py:186-190 | The returned track holds the table and options as they were, after which the table, options and headers are all None. |
| FlysightOps.FlysightTrackBuilder.Reset | flysight_ops.py:192-196 | The table, options and headers all become None. |
| FlysightOps.OpenTrack | flysight_ops.py:14-19 | Constructing the tool fails on an empty parse, or with the build's error when the build fails. Otherwise the track holds `BuildTrack` of the parsed rows after the units row, together with the given options. |
| FlysightTool.FindJump | flysight_tool.py:69-100 | The free function's crop is the builder's crop with the default thresholds 2 and 0.5, whatever `speed` is passed. |
| FlysightTool.GetElev | flysight_tool.py:103-135 | The row-by-row loop, which stops at the first missing answer, gives exactly the elevation stage in the normalised unit: failure when some answer is missing, otherwise `ground_elev[i]` answering row `i`. |
| FlysightTool.LoadFlysight | flysight_tool.py:138-148 | Loading fails exactly on an empty parse. Otherwise the rows are the parse minus its first row, with no derived columns. |
| FlysightTool.ScriptTrack | flysight_tool.py:170-178 | The script's main sequence (load, calc_vel, find_jump, convert_time) fails at loading on an empty parse; a result holds exactly `velH`, `velT`, `gr` and `time_elapsed`, one value per row, and at least one but fewer rows than were parsed. |
| FlysightTool.ScriptMatchesBuilder | flysight_tool.py:168-178 | The script's sequence (load, calc_vel, find_jump, convert_time) gives the same result or error as the builder with enrichment off. |

## Left out

- CSV parsing (`pd.read_csv` with `parse_dates`, `comment`, `usecols`) is not modelled. The model starts from the parsed samples, and timestamps are integer microseconds rather than pandas nanosecond datetimes.
- Row labels are taken to equal positions. The reader's `reset_index` guarantees this for the table the crop receives, so the label-based `.loc` lookups in the crop become positional. The cropped table (`flysight_ops.py:173-174`, `flysight_tool.py:99`) keeps the labels of the sliced positions and is never re-indexed, so its labels are not dense. No later stage reads labels, but a second crop of an already cropped table would use them as positions; the model's crop slices by position whatever table it is given.
- `np.sqrt` and the glide-ratio division in `calc_vel`, including the inf/NaN at `velD == 0`, are floating point. They are the `speeds` parameter.
- `linspace` is exact over the reals. numpy's float rounding is not modelled.
- HTTP requests, URL formatting of float coordinates and JSON key extraction are the `lookup` parameter. A missing key is `None`, and the whole stage then fails. Errors other than a missing key (network failures, malformed JSON) are not distinguished.
- `ThreadPoolExecutor` concurrency is not modelled. Only its order-preserving result is, as a sequential map.
- Elevation.Lower: `str.lower()` is modelled for ASCII letters only; full Unicode lower-casing (which can change a string's length) is not. For the keys the builder and `get_elev` compare against, the outcome is the same.
- `HEADER_COLS` is the reader's own list object, so appends also change the reader's copy. The builder also keeps the reader in `self.reader` (`flysight_ops.py:79`), and `reset` does not clear it, so the reader's list keeps every appended header. Nothing reads `self.reader` after `__init__`, so this aliasing is not modelled.
- GUI options are a record rather than a dict. A missing `elev_bool` key is not modelled.
- The builder's methods require the fields set by the constructor. Calling a stage after `reset` fails in Python with a type error, and the model excludes that case.
- `get_elev` assigns `OrderedDict.values()` to the column. The model takes this as the list of values in row order.
- Plotting (`plot_track`, `plot_plotly`, the script's plots), the tkinter GUI, the file dialog and the Plotly/Dash module are not modelled.
