/** The elevation enricher: one ground-elevation lookup per row, keyed by
    the row's longitude and latitude and a unit of length, with the results
    kept in row order. The elevation service is a parameter `lookup`; a
    response without the expected keys is `None`. */
module Elevation {
  import opened Frames

  datatype Unit = Meters | Feet

  /** One elevation request: the service's `x` is the longitude, `y` the latitude. */
  datatype Query = Query(lon: real, lat: real, units: Unit)

  /** ASCII lower case of one character. */
  function LowerChar(c: char): char {
    if 'A' <= c <= 'Z' then (c as int + 32) as char else c
  }

  /** `str.lower()`, letter by letter. */
  function Lower(s: string): (r: string)
    ensures |r| == |s|
    ensures forall i :: 0 <= i < |s| ==> r[i] == LowerChar(s[i])
  {
    if s == [] then [] else [LowerChar(s[0])] + Lower(s[1..])
  }

  /** Lower-casing twice changes nothing more. */
  lemma LowerIdempotent(s: string)
    ensures Lower(Lower(s)) == Lower(s)
  {
    assert forall i :: 0 <= i < |s| ==> Lower(Lower(s))[i] == Lower(s)[i];
  }

  /** The builder's unit table: `metric` gives metres, `english` gives feet,
      in any letter case; any other system is a key error naming the
      lower-cased system, the key that was looked up. */
  function SystemUnits(system: string): (r: Result<Unit>)
    ensures r == Ok(Meters) <==> Lower(system) == "metric"
    ensures r == Ok(Feet) <==> Lower(system) == "english"
    ensures r.Err? ==> r.error == UnknownUnitSystem(Lower(system))
  {
    var key := Lower(system);
    if key == "metric" then Ok(Meters)
    else if key == "english" then Ok(Feet)
    else Err(UnknownUnitSystem(key))
  }

  /** Both unit vocabularies ignore letter case: lower-casing the argument
      first changes neither the unit nor the key error. */
  lemma UnitsIgnoreCase(s: string)
    ensures SystemUnits(Lower(s)) == SystemUnits(s)
    ensures NormalizeUnits(Lower(s)) == NormalizeUnits(s)
  {
    LowerIdempotent(s);
  }

  /** The free function's unit normalisation: `feet`, `ft` or `f` in any
      letter case give feet, every other string gives metres. */
  function NormalizeUnits(units: string): (r: Unit)
    ensures r == Feet <==> Lower(units) in ["feet", "ft", "f"]
  {
    if Lower(units) in ["feet", "ft", "f"] then Feet else Meters
  }

  /** The two unit vocabularies disagree: the builder's `english` is feet,
      but the free function reads it as metres. */
  lemma EnglishMeansFeetOnlyToBuilder()
    ensures SystemUnits("english") == Ok(Feet) && NormalizeUnits("english") == Meters
  {
    assert Lower("english") == "english";
  }

  /** The free function's `Feet` is feet, but a key error to the builder,
      which reports the lower-cased key. */
  lemma FeetUnknownToBuilder()
    ensures NormalizeUnits("Feet") == Feet && SystemUnits("Feet") == Err(UnknownUnitSystem("feet"))
  {
    assert Lower("Feet") == "feet";
  }

  /** The request for every row, in row order. */
  function Queries(rows: seq<Sample>, units: Unit): (qs: seq<Query>)
    ensures |qs| == |rows|
    ensures forall i :: 0 <= i < |rows| ==> qs[i] == Query(rows[i].lon, rows[i].lat, units)
  {
    seq(|rows|, i requires 0 <= i < |rows| => Query(rows[i].lon, rows[i].lat, units))
  }

  /** The results of all requests, collected in request order; the whole
      collection fails when any single response lacks the elevation. */
  function Elevations(qs: seq<Query>, lookup: Query -> Option<real>): (r: Option<seq<real>>)
    ensures r.Some? <==> forall i :: 0 <= i < |qs| ==> lookup(qs[i]).Some?
    ensures r.Some? ==> |r.value| == |qs|
    ensures r.Some? ==> forall i :: 0 <= i < |qs| ==> lookup(qs[i]) == Some(r.value[i])
  {
    if qs == [] then Some([])
    else
      match lookup(qs[0])
      case None => None
      case Some(e) =>
        match Elevations(qs[1..], lookup)
        case None => None
        case Some(rest) => Some([e] + rest)
  }

  /** One row's request. */
  function RowQuery(t: Table, units: Unit, i: int): Query
    requires 0 <= i < |t.rows|
  {
    Query(t.rows[i].lon, t.rows[i].lat, units)
  }

  /** The enrichment step itself: the same rows with a `ground_elev` column
      whose value `i` is the answer for row `i`, or a failure when any row's
      answer is missing. */
  function AddElevation(t: Table, units: Unit, lookup: Query -> Option<real>): (r: Result<Table>)
    requires Rectangular(t)
    ensures r.Ok? <==> forall i :: 0 <= i < |t.rows| ==> lookup(RowQuery(t, units, i)).Some?
    ensures r.Err? ==> r.error == ElevationLookupFailed
    ensures r.Ok? ==> Rectangular(r.value) && r.value.rows == t.rows
    ensures r.Ok? ==> r.value.derived.Keys == t.derived.Keys + {GroundElev}
    ensures r.Ok? ==> forall c :: c in t.derived && c != GroundElev ==> r.value.derived[c] == t.derived[c]
    ensures r.Ok? ==> |r.value.derived[GroundElev]| == |t.rows|
    ensures r.Ok? ==> forall i :: 0 <= i < |t.rows| ==>
              lookup(RowQuery(t, units, i)) == Some(r.value.derived[GroundElev][i])
  {
    var qs := Queries(t.rows, units);
    assert forall i :: 0 <= i < |t.rows| ==> qs[i] == RowQuery(t, units, i);
    match Elevations(qs, lookup)
    case None => Err(ElevationLookupFailed)
    case Some(es) => Ok(t.(derived := t.derived[GroundElev := es]))
  }
}
