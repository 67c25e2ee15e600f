/** The in-memory table that the jump-track pipeline passes from stage to
    stage: the twelve recorded columns of every sample, plus the named
    columns of reals that the stages derive, together with the error
    conditions a stage can raise and Python's rule for slicing by position. */
module Frames {

  /** The conditions under which a pipeline stage raises instead of returning. */
  datatype Error =
    | MissingUnitsRow              // dropping row label 0 from an empty parse
    | MissingColumn(col: Derived)  // reading a derived column that was never added
    | JumpStartNotFound            // no sample reaches the start speed
    | JumpFinishNotFound           // no sample from the start on falls to the end speed
    | EmptyTrack                   // `iloc[0]` on a table without rows
    | UnknownUnitSystem(system: string)
    | ElevationLookupFailed        // an elevation response without the expected keys

  datatype Result<+T> = Ok(value: T) | Err(error: Error) {
    predicate IsFailure() { Err? }
    function PropagateFailure<U>(): Result<U> requires Err? { Err(error) }
    function Extract(): T requires Ok? { value }
  }

  /** What a state-changing stage reports: it finished, or it raised. */
  datatype Outcome = Pass | Fail(error: Error)

  datatype Option<+T> = None | Some(value: T)

  /** One recorded sample. The timestamp is in whole microseconds; the other
      eleven columns are position, the three velocity components, the four
      accuracy estimates and the heading. */
  datatype Sample = Sample(
    time: int,
    lat: real, lon: real, hMSL: real,
    velN: real, velE: real, velD: real,
    hAcc: real, vAcc: real, sAcc: real,
    heading: real, cAcc: real)

  /** The twelve columns read from a recording, in the order they are listed. */
  const BaseColumns: seq<string> :=
    ["time", "lat", "lon", "hMSL", "velN", "velE", "velD",
     "hAcc", "vAcc", "sAcc", "heading", "cAcc"]

  /** The columns the pipeline derives: horizontal speed, total speed, glide
      ratio, elapsed time and ground elevation. */
  datatype Derived = VelH | VelT | Gr | TimeElapsed | GroundElev

  /** The header under which a derived column appears. */
  function Name(c: Derived): string {
    match c
    case VelH => "velH"
    case VelT => "velT"
    case Gr => "gr"
    case TimeElapsed => "time_elapsed"
    case GroundElev => "ground_elev"
  }

  /** A table: its rows in temporal order and the derived columns added so far. */
  datatype Table = Table(rows: seq<Sample>, derived: map<Derived, seq<real>>)

  /** Every derived column holds exactly one value per row. */
  ghost predicate Rectangular(t: Table) {
    forall c :: c in t.derived ==> |t.derived[c]| == |t.rows|
  }

  /** `df[Name(col)]` for a derived column: its values, or the key error. */
  function Column(t: Table, col: Derived): (r: Result<seq<real>>)
    requires Rectangular(t)
    ensures r.Ok? <==> col in t.derived
    ensures r.Ok? ==> |r.value| == |t.rows|
    ensures r.Err? ==> r.error == MissingColumn(col)
  {
    if col in t.derived then Ok(t.derived[col]) else Err(MissingColumn(col))
  }

  /** Python's adjustment of one slice bound against a length `n` (step 1):
      a negative bound counts from the end and is then floored at 0, a bound
      past the end is cut to the end. */
  function PyBound(x: int, n: nat): (k: nat)
    ensures k <= n
    ensures 0 <= x <= n ==> k == x
  {
    if x < 0 then (if x + n < 0 then 0 else x + n)
    else if x > n then n
    else x
  }

  /** `s[lo:hi]` in Python: both bounds adjusted, empty when they cross.
      The result is a run of consecutive elements of `s` starting at the
      adjusted lower bound, and with bounds inside `0..|s|` it is the
      ordinary slice. */
  function PySlice<T>(s: seq<T>, lo: int, hi: int): (r: seq<T>)
    ensures |r| <= |s|
    ensures var a, b := PyBound(lo, |s|), PyBound(hi, |s|);
            && |r| == (if a <= b then b - a else 0)
            && forall i :: 0 <= i < |r| ==> r[i] == s[a + i]
    ensures 0 <= lo <= hi <= |s| ==> r == s[lo..hi]
  {
    var a, b := PyBound(lo, |s|), PyBound(hi, |s|);
    if a <= b then s[a..b] else []
  }

  /** Slicing two sequences of the same length with the same bounds gives
      results of the same length. */
  lemma PySliceSameLength<T, U>(s: seq<T>, u: seq<U>, lo: int, hi: int)
    requires |s| == |u|
    ensures |PySlice(s, lo, hi)| == |PySlice(u, lo, hi)|
  {
  }

  /** `df.iloc[lo:hi]`: the same positional slice of the rows and of every
      derived column. */
  function SliceRows(t: Table, lo: int, hi: int): (r: Table)
    requires Rectangular(t)
    ensures Rectangular(r) && r.derived.Keys == t.derived.Keys
    ensures r.rows == PySlice(t.rows, lo, hi)
    ensures forall c :: c in t.derived ==> r.derived[c] == PySlice(t.derived[c], lo, hi)
  {
    var r := Table(PySlice(t.rows, lo, hi), map c | c in t.derived :: PySlice(t.derived[c], lo, hi));
    assert forall c :: c in r.derived ==> |r.derived[c]| == |r.rows| by {
      forall c | c in r.derived ensures |r.derived[c]| == |r.rows| {
        PySliceSameLength(t.derived[c], t.rows, lo, hi);
      }
    }
    r
  }
}
