/** The older script: free functions over a table, each returning a new
    table, with its own copy of the jump detector, its own unit
    normalisation and an elevation loop that asks for one row at a time. */
module FlysightTool {
  import opened Frames
  import opened Kinematics
  import opened Jump
  import opened Elapsed
  import opened Elevation
  import opened FlysightOps

  /** `find_jump(df, speed)`: the thresholds are the literals 2 and 0.5, so
      the `speed` argument has no effect. The rows kept are those from ten
      before the first sample at 2 m/s up to, but not including, the first
      sample from there on at or below 0.5 m/s. */
  function FindJump(t: Table, speed: real): (r: Result<Table>)
    requires Rectangular(t)
    ensures r == Jump.CropJump(t, SpeedStart, SpeedEnd)
  {
    var v :- Column(t, VelT);
    var start :- match FirstAtLeast(v, 2.0, 0)
                 case None => Err(JumpStartNotFound)
                 case Some(s) => Ok(s);
    var finish :- match FirstAtMost(v, 0.5, start)
                  case None => Err(JumpFinishNotFound)
                  case Some(f) => Ok(f);
    Ok(SliceRows(t, start as int - 10, finish))
  }

  /** `get_elev(df, units)`: normalises the units, then asks for the
      elevation of each row in turn and collects the answers in row order; a
      response without the elevation raises at that row. The result is the
      elevation stage applied with the normalised unit. */
  method GetElev(t: Table, units: string, lookup: Query -> Option<real>) returns (r: Result<Table>)
    requires Rectangular(t)
    ensures r == AddElevation(t, NormalizeUnits(units), lookup)
  {
    var u := if Lower(units) in ["feet", "ft", "f"] then Feet else Meters;
    var elevSeries: seq<real> := [];
    var i := 0;
    while i < |t.rows|
      invariant 0 <= i <= |t.rows|
      invariant |elevSeries| == i
      invariant forall j :: 0 <= j < i ==> lookup(RowQuery(t, u, j)) == Some(elevSeries[j])
    {
      var point := t.rows[i];
      var elevation := lookup(Query(point.lon, point.lat, u));
      if elevation.None? {
        assert !lookup(RowQuery(t, u, i)).Some?;
        return Err(ElevationLookupFailed);
      }
      elevSeries := elevSeries + [elevation.value];
      i := i + 1;
    }
    var expected := AddElevation(t, u, lookup);
    assert expected.Ok?;
    assert expected.value.derived[GroundElev] == elevSeries;
    return Ok(t.(derived := t.derived[GroundElev := elevSeries]));
  }

  /** `load_flysight(filename)` after parsing: the units row is dropped and
      the table has only the recorded columns. */
  function LoadFlysight(parsed: seq<Sample>): (r: Result<Table>)
    ensures r.Ok? <==> |parsed| > 0
    ensures r.Err? ==> r.error == MissingUnitsRow
    ensures r.Ok? ==> [parsed[0]] + r.value.rows == parsed && r.value.derived == map[] && Rectangular(r.value)
  {
    var rows :- DropUnitsRow(parsed);
    Ok(Table(rows, map[]))
  }

  /** The script's main sequence without the plot: load, speeds, jump,
      elapsed time. An empty parse fails at loading; a result holds exactly
      the three speed columns and the elapsed time, one value per row, with
      no more rows than were recorded. */
  function ScriptTrack(parsed: seq<Sample>, speeds: Sample -> Speeds): (r: Result<Table>)
    ensures |parsed| == 0 ==> r == Err(MissingUnitsRow)
    ensures r.Ok? ==> && Rectangular(r.value)
                      && r.value.derived.Keys == {VelH, VelT, Gr, TimeElapsed}
                      && 0 < |r.value.rows| < |parsed|
  {
    var raw :- LoadFlysight(parsed);
    var withSpeeds := Kinematics.CalcVel(raw, speeds);
    var jump :- FindJump(withSpeeds, 2.0);
    Elapsed.ConvertTime(jump)
  }

  /** The script and the builder agree when enrichment is off: both give
      the same table, or fail with the same condition. */
  lemma ScriptMatchesBuilder(parsed: seq<Sample>, speeds: Sample -> Speeds, lookup: Query -> Option<real>)
    requires |parsed| > 0
    ensures ScriptTrack(parsed, speeds) == BuildTrack(Table(parsed[1..], map[]), false, speeds, lookup)
  {
    var t := Table(parsed[1..], map[]);
    assert LoadFlysight(parsed) == Ok(t);
    AfterSpeedsStages(Kinematics.CalcVel(t, speeds), false, lookup);
    MetricIsMeters();
  }
}
