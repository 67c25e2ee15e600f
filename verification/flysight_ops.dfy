/** The track builder: a working table, the GUI options and the list of
    column headers, updated in place by a fixed sequence of stages and
    cleared once the finished track is handed out. */
module FlysightOps {
  import opened Frames
  import opened Kinematics
  import opened Jump
  import opened Elapsed
  import opened Elevation

  /** The options the GUI hands over. */
  datatype Options = Options(trackFilename: string, trackTitle: string, elevBool: bool)

  /** The finished track: the built table and the options it was built with.
      Both are `None` when taken from a builder that was already reset. */
  datatype FlysightTrack = FlysightTrack(df: Option<Table>, options: Option<Options>)

  /** The headers `calc_vel` appends, in order. */
  const SpeedHeaders: seq<string> := ["velH", "velT", "gr"]

  /** The headers appended after the speeds: elapsed time, then the ground
      elevation when enrichment is on. */
  function LaterHeaders(elevBool: bool): seq<string> {
    ["time_elapsed"] + (if elevBool then ["ground_elev"] else [])
  }

  /** The column headers `build` appends, in order. */
  function DerivedHeaders(elevBool: bool): seq<string> {
    SpeedHeaders + LaterHeaders(elevBool)
  }

  /** Appending the speed headers and then the later ones appends
      `DerivedHeaders`. */
  lemma DerivedHeadersAppend(h0: seq<string>, elevBool: bool)
    ensures h0 + SpeedHeaders + LaterHeaders(elevBool) == h0 + DerivedHeaders(elevBool)
  {
  }

  /** The default system of `add_elev` asks for metres. */
  lemma MetricIsMeters()
    ensures SystemUnits("metric") == Ok(Meters)
  {
    assert Lower("metric") == "metric";
  }

  /** The reader's last step: the first parsed row holds the units, so it is
      dropped and the rest is re-indexed from 0; a parse without rows has no
      row labelled 0 to drop. */
  function DropUnitsRow<R>(parsed: seq<R>): (r: Result<seq<R>>)
    ensures r.Ok? <==> |parsed| > 0
    ensures r.Err? ==> r.error == MissingUnitsRow
    ensures r.Ok? ==> [parsed[0]] + r.value == parsed
  {
    if |parsed| == 0 then Err(MissingUnitsRow) else Ok(parsed[1..])
  }

  /** What `add_elev(system)` does to a table: the unit lookup comes first and
      raises on an unknown system even when enrichment is off; with
      enrichment off the table is returned as it was. */
  function AddElevStep(t: Table, elevBool: bool, system: string, lookup: Query -> Option<real>): (r: Result<Table>)
    requires Rectangular(t)
    ensures SystemUnits(system).Err? ==> r == Err(UnknownUnitSystem(Lower(system)))
    ensures SystemUnits(system).Ok? && !elevBool ==> r == Ok(t)
    ensures SystemUnits(system).Ok? && elevBool ==> r == AddElevation(t, SystemUnits(system).value, lookup)
  {
    var units :- SystemUnits(system);
    if elevBool then AddElevation(t, units, lookup) else Ok(t)
  }

  /** The stages `build` runs on the table once the speeds are in: the jump
      with the default thresholds, then elapsed time, then elevation in the
      default `metric` system. */
  function AfterSpeeds(t: Table, elevBool: bool, lookup: Query -> Option<real>): (r: Result<Table>)
    requires Rectangular(t)
    ensures r.Ok? ==> Rectangular(r.value)
  {
    var jump :- CropJump(t, SpeedStart, SpeedEnd);
    var timed :- ConvertTime(jump);
    AddElevStep(timed, elevBool, "metric", lookup)
  }

  /** `AfterSpeeds` stage by stage. */
  lemma AfterSpeedsStages(t: Table, elevBool: bool, lookup: Query -> Option<real>)
    requires Rectangular(t)
    ensures var jump := CropJump(t, SpeedStart, SpeedEnd);
            AfterSpeeds(t, elevBool, lookup) ==
              if jump.Err? then Err(jump.error)
              else
                var timed := ConvertTime(jump.value);
                if timed.Err? then Err(timed.error)
                else AddElevStep(timed.value, elevBool, "metric", lookup)
  {
  }

  /** The table `build` leaves behind: the speeds, then the remaining stages. */
  function BuildTrack(t: Table, elevBool: bool, speeds: Sample -> Speeds, lookup: Query -> Option<real>): (r: Result<Table>)
    requires Rectangular(t)
    ensures r.Ok? ==> Rectangular(r.value)
  {
    AfterSpeeds(CalcVel(t, speeds), elevBool, lookup)
  }

  /** The derived columns a successful build adds. */
  function AddedColumns(elevBool: bool): set<Derived> {
    {VelH, VelT, Gr, TimeElapsed} + (if elevBool then {GroundElev} else {})
  }

  /** A successful build keeps the columns it was given and adds exactly the
      speeds, the elapsed time and, when enabled, the ground elevation. */
  lemma BuildTrackKeys(t: Table, elevBool: bool, speeds: Sample -> Speeds, lookup: Query -> Option<real>)
    requires Rectangular(t)
    ensures BuildTrack(t, elevBool, speeds, lookup).Ok? ==>
              BuildTrack(t, elevBool, speeds, lookup).value.derived.Keys == t.derived.Keys + AddedColumns(elevBool)
  {
    AfterSpeedsKeys(CalcVel(t, speeds), elevBool, lookup);
  }

  /** The stages after the speeds add the elapsed time and, when enabled,
      the ground elevation, and keep every column they are given. */
  lemma AfterSpeedsKeys(t: Table, elevBool: bool, lookup: Query -> Option<real>)
    requires Rectangular(t)
    ensures AfterSpeeds(t, elevBool, lookup).Ok? ==>
              AfterSpeeds(t, elevBool, lookup).value.derived.Keys ==
                t.derived.Keys + {TimeElapsed} + (if elevBool then {GroundElev} else {})
  {
    AfterSpeedsStages(t, elevBool, lookup);
    MetricIsMeters();
  }

  /** The total-speed column `calc_vel` derives for a table. */
  function TotalSpeeds(t: Table, speeds: Sample -> Speeds): (v: seq<real>)
    requires Rectangular(t)
    ensures |v| == |t.rows|
    ensures forall i :: 0 <= i < |t.rows| ==> v[i] == speeds(t.rows[i]).velT
  {
    CalcVel(t, speeds).derived[VelT]
  }

  /** A list without repeated names. */
  ghost predicate Distinct(s: seq<string>) {
    forall i, j :: 0 <= i < j < |s| ==> s[i] != s[j]
  }

  /** The twelve recorded headers and the five derived ones are seventeen
      different names. */
  lemma HeadersDistinct(elevBool: bool)
    ensures Distinct(BaseColumns + DerivedHeaders(elevBool))
  {
  }

  /** On a table fresh from the reader, every header after a successful build
      names exactly one column: the headers are distinct, and the appended headers name exactly the
      derived columns the build added. */
  lemma BuildHeadersMatchColumns(t: Table, elevBool: bool, speeds: Sample -> Speeds, lookup: Query -> Option<real>)
    requires t.derived == map[]
    ensures Distinct(BaseColumns + DerivedHeaders(elevBool))
    ensures BuildTrack(t, elevBool, speeds, lookup).Ok? ==>
              forall c :: c in BuildTrack(t, elevBool, speeds, lookup).value.derived <==> Name(c) in DerivedHeaders(elevBool)
  {
    HeadersDistinct(elevBool);
    BuildTrackKeys(t, elevBool, speeds, lookup);
    forall c ensures c in AddedColumns(elevBool) <==> Name(c) in DerivedHeaders(elevBool) {
    }
  }

  /** The first and last elements of a slice of at least two elements. */
  lemma SliceEnds<T>(s: seq<T>, lo: int, hi: int)
    requires 0 <= lo && lo + 2 <= hi <= |s|
    ensures |s[lo..hi]| == hi - lo
    ensures s[lo..hi][0] == s[lo] && s[lo..hi][hi - lo - 1] == s[hi - 1]
  {
  }

  /** When no sample's total speed reaches 2, the build stops at the jump
      detector with the missing start, before time or elevation are touched. */
  lemma BuildFailsWithoutStart(t: Table, elevBool: bool, speeds: Sample -> Speeds, lookup: Query -> Option<real>)
    requires Rectangular(t)
    requires forall i :: 0 <= i < |t.rows| ==> speeds(t.rows[i]).velT < SpeedStart
    ensures BuildTrack(t, elevBool, speeds, lookup) == Err(JumpStartNotFound)
  {
    CropJumpFails(CalcVel(t, speeds), SpeedStart, SpeedEnd);
  }

  /** Once a start with ten samples of lead-in and a finish are found, a build
      without enrichment succeeds: its rows are the original rows `k - 10 ..
      f - 1` in order, and its elapsed time ends at the whole seconds between
      the first and last kept sample. */
  lemma {:induction false} BuildKeepsJump(t: Table, speeds: Sample -> Speeds, lookup: Query -> Option<real>, k: nat, f: nat)
    requires Rectangular(t)
    requires IsStart(TotalSpeeds(t, speeds), SpeedStart, k) && IsFinish(TotalSpeeds(t, speeds), SpeedEnd, k, f)
    requires k >= LeadIn
    ensures var r := BuildTrack(t, false, speeds, lookup);
            && r.Ok?
            && r.value.rows == t.rows[k - LeadIn .. f]
            && TimeElapsed in r.value.derived
            && |r.value.derived[TimeElapsed]| == f - k + LeadIn
            && r.value.derived[TimeElapsed][f - k + LeadIn - 1] == Duration(t.rows[k - LeadIn].time, t.rows[f - 1].time) as real
  {
    var withSpeeds := CalcVel(t, speeds);
    CropJumpFullLeadIn(withSpeeds, SpeedStart, SpeedEnd, k, f);
    StartPrecedesFinish(TotalSpeeds(t, speeds), SpeedStart, SpeedEnd, k, f);
    var jump := CropJump(withSpeeds, SpeedStart, SpeedEnd).value;
    SliceEnds(t.rows, k - LeadIn, f);
    AfterSpeedsStages(withSpeeds, false, lookup);
    MetricIsMeters();
  }

  /** With the start among the first ten samples the lower bound `k - 10`
      counts from the end of the table. When the table is long enough for
      that bound to reach the finish, the jump comes out empty and the build
      fails at the elapsed-time stage. */
  lemma {:induction false} BuildEmptiedByShortLeadIn(t: Table, elevBool: bool, speeds: Sample -> Speeds,
                                                     lookup: Query -> Option<real>, k: nat, f: nat)
    requires Rectangular(t)
    requires IsStart(TotalSpeeds(t, speeds), SpeedStart, k) && IsFinish(TotalSpeeds(t, speeds), SpeedEnd, k, f)
    requires k < LeadIn && f <= |t.rows| + k - LeadIn
    ensures BuildTrack(t, elevBool, speeds, lookup) == Err(EmptyTrack)
  {
    var withSpeeds := CalcVel(t, speeds);
    CropJumpShortLeadIn(withSpeeds, SpeedStart, SpeedEnd, k, f);
    AfterSpeedsStages(withSpeeds, elevBool, lookup);
  }

  /** `build` calls `add_elev()` without a system, so the elevation of row `i`
      is always the answer to a request in metres for that row's position,
      whatever unit system the recording was meant to use. */
  lemma BuildQueriesInMeters(t: Table, speeds: Sample -> Speeds, lookup: Query -> Option<real>)
    requires Rectangular(t)
    requires BuildTrack(t, true, speeds, lookup).Ok?
    ensures var r := BuildTrack(t, true, speeds, lookup).value;
            && GroundElev in r.derived
            && |r.derived[GroundElev]| == |r.rows|
            && forall i :: 0 <= i < |r.rows| ==>
                 lookup(Query(r.rows[i].lon, r.rows[i].lat, Meters)) == Some(r.derived[GroundElev][i])
  {
    var withSpeeds := CalcVel(t, speeds);
    AfterSpeedsStages(withSpeeds, true, lookup);
    MetricIsMeters();
    var timed := ConvertTime(CropJump(withSpeeds, SpeedStart, SpeedEnd).value).value;
    var r := BuildTrack(t, true, speeds, lookup).value;
    assert r == AddElevation(timed, Meters, lookup).value;
    forall i | 0 <= i < |r.rows|
      ensures lookup(Query(r.rows[i].lon, r.rows[i].lat, Meters)) == Some(r.derived[GroundElev][i])
    {
      assert RowQuery(timed, Meters, i) == Query(r.rows[i].lon, r.rows[i].lat, Meters);
    }
  }

  class FlysightTrackBuilder {
    var df: Option<Table>
    var options: Option<Options>
    var headerCols: Option<seq<string>>

    ghost predicate Valid()
      reads this
    {
      df.Some? ==> Rectangular(df.value)
    }

    /** A builder over the rows the reader returned, with the twelve recorded
        headers and no derived columns. */
    constructor (guiOptions: Options, csv: seq<Sample>)
      ensures Valid()
      ensures df == Some(Table(csv, map[]))
      ensures options == Some(guiOptions)
      ensures headerCols == Some(BaseColumns)
    {
      df := Some(Table(csv, map[]));
      options := Some(guiOptions);
      headerCols := Some(BaseColumns);
    }

    /** Appends the new headers one by one, in order. */
    method AppendHeaders(newCols: seq<string>)
      requires headerCols.Some?
      modifies this`headerCols
      ensures headerCols == Some(old(headerCols.value) + newCols)
    {
      ghost var before := headerCols.value;
      var i := 0;
      while i < |newCols|
        invariant 0 <= i <= |newCols|
        invariant headerCols.Some? && headerCols.value == before + newCols[..i]
      {
        assert newCols[..i + 1] == newCols[..i] + [newCols[i]];
        headerCols := Some(headerCols.value + [newCols[i]]);
        i := i + 1;
      }
      assert newCols[..i] == newCols;
    }

    /** Adds the three speed columns and their headers. */
    method CalcVel(speeds: Sample -> Speeds)
      requires Valid() && df.Some? && headerCols.Some?
      modifies this`df, this`headerCols
      ensures Valid() && df.Some? && headerCols.Some?
      ensures df == Some(Kinematics.CalcVel(old(df.value), speeds))
      ensures headerCols == Some(old(headerCols.value) + SpeedHeaders)
    {
      df := Some(Kinematics.CalcVel(df.value, speeds));
      AppendHeaders(SpeedHeaders);
    }

    /** Replaces the table with the detected jump, or raises and leaves it. */
    method CropJump(speedStart: real, speedEnd: real) returns (o: Outcome)
      requires Valid() && df.Some?
      modifies this`df
      ensures Valid() && df.Some?
      ensures var r := Jump.CropJump(old(df.value), speedStart, speedEnd);
              if r.Ok? then o == Pass && df == Some(r.value)
              else o == Fail(r.error) && df == old(df)
    {
      var r := Jump.CropJump(df.value, speedStart, speedEnd);
      if r.Err? {
        return Fail(r.error);
      }
      df := Some(r.value);
      return Pass;
    }

    /** Adds the elapsed-time column and its header, or raises on an empty
        table and changes nothing. */
    method ConvertTime() returns (o: Outcome)
      requires Valid() && df.Some? && headerCols.Some?
      modifies this`df, this`headerCols
      ensures Valid() && df.Some? && headerCols.Some?
      ensures var r := Elapsed.ConvertTime(old(df.value));
              if r.Ok? then o == Pass && df == Some(r.value) && headerCols == Some(old(headerCols.value) + ["time_elapsed"])
              else o == Fail(r.error) && df == old(df) && headerCols == old(headerCols)
    {
      var r := Elapsed.ConvertTime(df.value);
      if r.Err? {
        return Fail(r.error);
      }
      df := Some(r.value);
      AppendHeaders(["time_elapsed"]);
      return Pass;
    }

    /** Looks up the unit of `system`, then, only when the options enable it,
        adds the elevation column and its header; on any failure the table and
        headers are left as they were. */
    method AddElev(system: string, lookup: Query -> Option<real>) returns (o: Outcome)
      requires Valid() && df.Some? && options.Some? && headerCols.Some?
      modifies this`df, this`headerCols
      ensures Valid() && df.Some? && headerCols.Some?
      ensures var r := AddElevStep(old(df.value), options.value.elevBool, system, lookup);
              if r.Ok? then o == Pass && df == Some(r.value)
              else o == Fail(r.error) && df == old(df)
      ensures headerCols ==
                if o.Pass? && options.value.elevBool then Some(old(headerCols.value) + ["ground_elev"])
                else old(headerCols)
    {
      var units := SystemUnits(system);
      if units.Err? {
        return Fail(units.error);
      }
      if options.value.elevBool {
        var elevSeries := Elevations(Queries(df.value.rows, units.value), lookup);
        if elevSeries.None? {
          return Fail(ElevationLookupFailed);
        }
        df := Some(df.value.(derived := df.value.derived[GroundElev := elevSeries.value]));
        AppendHeaders(["ground_elev"]);
      }
      return Pass;
    }

    /** Runs the jump, time and elevation stages in order and stops at the
        first that raises, leaving what the earlier stages did: a failed crop
        changes nothing, a failed time stage leaves the crop with the old
        headers, and a failed elevation stage leaves the timed table with
        `time_elapsed` appended. */
    method RunAfterSpeeds(lookup: Query -> Option<real>) returns (o: Outcome)
      requires Valid() && df.Some? && options.Some? && headerCols.Some?
      modifies this`df, this`headerCols
      ensures Valid() && df.Some? && headerCols.Some?
      ensures var r := AfterSpeeds(old(df.value), options.value.elevBool, lookup);
              if r.Ok? then o == Pass && df == Some(r.value)
              else o == Fail(r.error)
      ensures o.Pass? ==> headerCols == Some(old(headerCols.value) + LaterHeaders(options.value.elevBool))
      ensures var jump := Jump.CropJump(old(df.value), SpeedStart, SpeedEnd);
              jump.Err? ==> df == old(df) && headerCols == old(headerCols)
      ensures var jump := Jump.CropJump(old(df.value), SpeedStart, SpeedEnd);
              jump.Ok? && Elapsed.ConvertTime(jump.value).Err? ==>
                df == Some(jump.value) && headerCols == old(headerCols)
      ensures var jump := Jump.CropJump(old(df.value), SpeedStart, SpeedEnd);
              jump.Ok? && Elapsed.ConvertTime(jump.value).Ok? && o.Fail? ==>
                df == Some(Elapsed.ConvertTime(jump.value).value) &&
                headerCols == Some(old(headerCols.value) + ["time_elapsed"])
    {
      ghost var h0 := headerCols.value;
      assert h0 + ["time_elapsed"] + ["ground_elev"] == h0 + LaterHeaders(true);
      assert h0 + ["time_elapsed"] == h0 + LaterHeaders(false);
      AfterSpeedsStages(df.value, options.value.elevBool, lookup);
      o := CropJump(SpeedStart, SpeedEnd);
      if o.Fail? {
        return;
      }
      o := ConvertTime();
      if o.Fail? {
        return;
      }
      o := AddElev("metric", lookup);
    }

    /** Runs the four stages in order and stops at the first that raises.
        On success the table is `BuildTrack` of the original one and the
        headers have grown by exactly `DerivedHeaders`. On failure the speeds
        stay in, with their headers, and so does every later stage that
        completed before the one that raised. */
    method Build(speeds: Sample -> Speeds, lookup: Query -> Option<real>) returns (o: Outcome)
      requires Valid() && df.Some? && options.Some? && headerCols.Some?
      modifies this`df, this`headerCols
      ensures Valid() && df.Some? && headerCols.Some?
      ensures var r := BuildTrack(old(df.value), options.value.elevBool, speeds, lookup);
              if r.Ok? then o == Pass && df == Some(r.value)
              else o == Fail(r.error)
      ensures o.Pass? ==> headerCols == Some(old(headerCols.value) + DerivedHeaders(options.value.elevBool))
      ensures var jump := Jump.CropJump(Kinematics.CalcVel(old(df.value), speeds), SpeedStart, SpeedEnd);
              jump.Err? ==>
                df == Some(Kinematics.CalcVel(old(df.value), speeds)) &&
                headerCols == Some(old(headerCols.value) + SpeedHeaders)
      ensures var jump := Jump.CropJump(Kinematics.CalcVel(old(df.value), speeds), SpeedStart, SpeedEnd);
              jump.Ok? && Elapsed.ConvertTime(jump.value).Err? ==>
                df == Some(jump.value) && headerCols == Some(old(headerCols.value) + SpeedHeaders)
      ensures var jump := Jump.CropJump(Kinematics.CalcVel(old(df.value), speeds), SpeedStart, SpeedEnd);
              jump.Ok? && Elapsed.ConvertTime(jump.value).Ok? && o.Fail? ==>
                df == Some(Elapsed.ConvertTime(jump.value).value) &&
                headerCols == Some(old(headerCols.value) + SpeedHeaders + ["time_elapsed"])
    {
      ghost var h0 := headerCols.value;
      CalcVel(speeds);
      o := RunAfterSpeeds(lookup);
      DerivedHeadersAppend(h0, options.value.elevBool);
    }

    /** Hands out the table and options, then clears the builder. */
    method GetFlysightTrack() returns (track: FlysightTrack)
      modifies this`df, this`options, this`headerCols
      ensures track == FlysightTrack(old(df), old(options))
      ensures df.None? && options.None? && headerCols.None?
    {
      track := FlysightTrack(df, options);
      Reset();
    }

    /** Clears the table, the options and the headers. */
    method Reset()
      modifies this`df, this`options, this`headerCols
      ensures df.None? && options.None? && headerCols.None?
    {
      df := None;
      options := None;
      headerCols := None;
    }
  }

  /** The tool's construction sequence, without the plotting that follows:
      read, build, take the track. It fails exactly when reading or building
      fails, and otherwise holds the built table and the given options. */
  method OpenTrack(guiOptions: Options, parsed: seq<Sample>, speeds: Sample -> Speeds, lookup: Query -> Option<real>)
    returns (r: Result<FlysightTrack>)
    ensures |parsed| == 0 ==> r == Err(MissingUnitsRow)
    ensures |parsed| > 0 ==>
              var b := BuildTrack(Table(parsed[1..], map[]), guiOptions.elevBool, speeds, lookup);
              if b.Ok? then r == Ok(FlysightTrack(Some(b.value), Some(guiOptions)))
              else r == Err(b.error)
  {
    var csv := DropUnitsRow(parsed);
    if csv.Err? {
      return Err(csv.error);
    }
    var builder := new FlysightTrackBuilder(guiOptions, csv.value);
    var o := builder.Build(speeds, lookup);
    if o.Fail? {
      return Err(o.error);
    }
    var track := builder.GetFlysightTrack();
    return Ok(track);
  }
}
