/** The time normaliser: the segment's duration is the `seconds` field of
    the timedelta between its last and first timestamps, and the elapsed-time
    column runs evenly from 0 to that duration, one value per row. */
module Elapsed {
  import opened Frames

  const MicrosPerSecond: int := 1_000_000
  const SecondsPerDay: int := 86_400

  /** A timedelta in the normal form Python keeps: whole days (any sign),
      seconds within the day and microseconds within the second. */
  datatype Timedelta = Timedelta(days: int, seconds: nat, microseconds: nat)

  ghost predicate Normalized(d: Timedelta) {
    d.seconds < SecondsPerDay && d.microseconds < MicrosPerSecond
  }

  /** The length of a timedelta in microseconds. */
  function TotalMicros(d: Timedelta): int {
    (d.days * SecondsPerDay + d.seconds) * MicrosPerSecond + d.microseconds
  }

  /** The normalised timedelta of a span of microseconds. */
  function FromMicros(us: int): (d: Timedelta)
    ensures Normalized(d) && TotalMicros(d) == us
  {
    var s := us / MicrosPerSecond;
    Timedelta(s / SecondsPerDay, s % SecondsPerDay, us % MicrosPerSecond)
  }

  /** The normal form is unique: a normalised timedelta is what `FromMicros`
      gives for its own length. */
  lemma FromMicrosUnique(d: Timedelta)
    requires Normalized(d)
    ensures FromMicros(TotalMicros(d)) == d
  {
    var s := d.days * SecondsPerDay + d.seconds;
    var us := s * MicrosPerSecond + d.microseconds;
    assert us / MicrosPerSecond == s && us % MicrosPerSecond == d.microseconds;
    assert s / SecondsPerDay == d.days && s % SecondsPerDay == d.seconds;
  }

  /** `(last - first).seconds`: the whole seconds of the span, truncated,
      wrapping once per day. */
  function Duration(first: int, last: int): (s: nat)
    ensures s < SecondsPerDay
  {
    FromMicros(last - first).seconds
  }

  /** Within one day the duration is the span truncated to whole seconds. */
  lemma DurationTruncates(first: int, last: int)
    requires 0 <= last - first < SecondsPerDay * MicrosPerSecond
    ensures Duration(first, last) * MicrosPerSecond <= last - first < (Duration(first, last) + 1) * MicrosPerSecond
  {
    var d := FromMicros(last - first);
  }

  /** A span one day longer has the same duration: days are dropped. */
  lemma {:induction false} DurationWrapsDaily(first: int, last: int)
    ensures Duration(first, last + SecondsPerDay * MicrosPerSecond) == Duration(first, last)
  {
    var d := FromMicros(last - first);
    var later := Timedelta(d.days + 1, d.seconds, d.microseconds);
    assert TotalMicros(later) == last + SecondsPerDay * MicrosPerSecond - first;
    FromMicrosUnique(later);
  }

  /** A last timestamp one microsecond before the first gives a duration of
      23:59:59, not a negative one. */
  lemma NegativeSpanWraps(first: int)
    ensures Duration(first, first - 1) == SecondsPerDay - 1
  {
    FromMicrosUnique(Timedelta(-1, SecondsPerDay - 1, MicrosPerSecond - 1));
  }

  /** `linspace(0, stop, n)` over exact reals. */
  function Linspace(n: nat, stop: real): (r: seq<real>)
    ensures |r| == n
    ensures n >= 1 ==> r[0] == 0.0
    ensures n >= 2 ==> r[n - 1] == stop
  {
    seq(n, i requires 0 <= i < n => if n == 1 then 0.0 else stop * (i as real) / ((n - 1) as real))
  }

  /** With a non-negative stop the values never decrease. */
  lemma LinspaceNondecreasing(n: nat, stop: real, i: nat, j: nat)
    requires stop >= 0.0 && i <= j < n
    ensures Linspace(n, stop)[i] <= Linspace(n, stop)[j]
  {
    if n > 1 {
      var m := (n - 1) as real;
      var step := stop / m;
      assert step >= 0.0;
      assert Linspace(n, stop)[i] == step * (i as real);
      assert Linspace(n, stop)[j] == step * (j as real);
      assert step * (j as real) - step * (i as real) == step * ((j - i) as real);
      assert step * ((j - i) as real) >= 0.0;
    }
  }

  /** Consecutive values are one `stop / (n - 1)` apart: the column is spaced
      by sample index, not by the timestamps. */
  lemma LinspaceEvenStep(n: nat, stop: real, i: nat)
    requires i + 1 < n
    ensures Linspace(n, stop)[i + 1] - Linspace(n, stop)[i] == stop / ((n - 1) as real)
  {
    var m := (n - 1) as real;
    assert stop * ((i + 1) as real) == stop * (i as real) + stop;
  }

  /** `convert_time`: the same rows with a `time_elapsed` column from 0 to
      the duration between the first and last timestamps; a table without
      rows raises. */
  function ConvertTime(t: Table): (r: Result<Table>)
    requires Rectangular(t)
    ensures r.Err? <==> |t.rows| == 0
    ensures r.Err? ==> r.error == EmptyTrack
    ensures r.Ok? ==> Rectangular(r.value) && r.value.rows == t.rows
    ensures r.Ok? ==> r.value.derived.Keys == t.derived.Keys + {TimeElapsed}
    ensures r.Ok? ==> forall c :: c in t.derived && c != TimeElapsed ==> r.value.derived[c] == t.derived[c]
    ensures r.Ok? ==>
              var n, col := |t.rows|, r.value.derived[TimeElapsed];
              && |col| == n
              && col[0] == 0.0
              && (n >= 2 ==> col[n - 1] == Duration(t.rows[0].time, t.rows[n - 1].time) as real)
              && col == Linspace(n, Duration(t.rows[0].time, t.rows[n - 1].time) as real)
  {
    if |t.rows| == 0 then Err(EmptyTrack)
    else
      var n := |t.rows|;
      var duration := Duration(t.rows[0].time, t.rows[n - 1].time);
      Ok(t.(derived := t.derived[TimeElapsed := Linspace(n, duration as real)]))
  }

  /** The elapsed-time column is spaced by sample index: consecutive rows are
      one `duration / (n - 1)` apart, whatever their timestamps. */
  lemma ConvertTimeEvenStep(t: Table, i: nat)
    requires Rectangular(t) && i + 1 < |t.rows|
    ensures ConvertTime(t).Ok?
    ensures var n := |t.rows|;
            ConvertTime(t).value.derived[TimeElapsed][i + 1] - ConvertTime(t).value.derived[TimeElapsed][i] ==
              Duration(t.rows[0].time, t.rows[n - 1].time) as real / ((n - 1) as real)
  {
    var n := |t.rows|;
    LinspaceEvenStep(n, Duration(t.rows[0].time, t.rows[n - 1].time) as real, i);
  }

  /** The elapsed-time column never decreases. */
  lemma ConvertTimeNondecreasing(t: Table, i: nat, j: nat)
    requires Rectangular(t) && i <= j < |t.rows|
    ensures ConvertTime(t).Ok?
    ensures ConvertTime(t).value.derived[TimeElapsed][i] <= ConvertTime(t).value.derived[TimeElapsed][j]
  {
    var n := |t.rows|;
    LinspaceNondecreasing(n, Duration(t.rows[0].time, t.rows[n - 1].time) as real, i, j);
  }
}
