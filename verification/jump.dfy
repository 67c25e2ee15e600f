/** The segment detector: finds where the jump starts and ends in the
    total-speed column and keeps the rows from ten samples before the start
    up to, but not including, the end. */
module Jump {
  import opened Frames

  /** Default start threshold of the builder, and the fixed one of `find_jump`. */
  const SpeedStart: real := 2.0
  /** Default end threshold of the builder, and the fixed one of `find_jump`. */
  const SpeedEnd: real := 0.5
  /** Number of samples kept before the detected start. */
  const LeadIn: int := 10

  /** `k` is the first position whose speed reaches the start threshold. */
  ghost predicate IsStart(v: seq<real>, speedStart: real, k: int) {
    && 0 <= k < |v|
    && v[k] >= speedStart
    && forall j :: 0 <= j < k ==> v[j] < speedStart
  }

  /** `f` is the first position at or after `k` whose speed has fallen to the
      end threshold. */
  ghost predicate IsFinish(v: seq<real>, speedEnd: real, k: int, f: int) {
    && 0 <= k <= f < |v|
    && v[f] <= speedEnd
    && forall j :: k <= j < f ==> v[j] > speedEnd
  }

  /** The first position at or after `from` whose speed is at least `threshold`. */
  function FirstAtLeast(v: seq<real>, threshold: real, from: nat): (r: Option<nat>)
    requires from <= |v|
    ensures r.Some? ==> from <= r.value < |v| && v[r.value] >= threshold
    ensures r.Some? ==> forall j :: from <= j < r.value ==> v[j] < threshold
    ensures r.None? ==> forall j :: from <= j < |v| ==> v[j] < threshold
    decreases |v| - from
  {
    if from == |v| then None
    else if v[from] >= threshold then Some(from)
    else FirstAtLeast(v, threshold, from + 1)
  }

  /** The first position at or after `from` whose speed is at most `threshold`. */
  function FirstAtMost(v: seq<real>, threshold: real, from: nat): (r: Option<nat>)
    requires from <= |v|
    ensures r.Some? ==> from <= r.value < |v| && v[r.value] <= threshold
    ensures r.Some? ==> forall j :: from <= j < r.value ==> v[j] > threshold
    ensures r.None? ==> forall j :: from <= j < |v| ==> v[j] > threshold
    decreases |v| - from
  {
    if from == |v| then None
    else if v[from] <= threshold then Some(from)
    else FirstAtMost(v, threshold, from + 1)
  }

  /** The start and finish positions, or the condition under which none exist. */
  function Detect(v: seq<real>, speedStart: real, speedEnd: real): (r: Result<(nat, nat)>)
    ensures r.Ok? ==> IsStart(v, speedStart, r.value.0) && IsFinish(v, speedEnd, r.value.0, r.value.1)
    ensures r == Err(JumpStartNotFound) <==> forall j :: 0 <= j < |v| ==> v[j] < speedStart
    ensures r.Err? ==> r.error == JumpStartNotFound || r.error == JumpFinishNotFound
  {
    match FirstAtLeast(v, speedStart, 0)
    case None => Err(JumpStartNotFound)
    case Some(start) =>
      match FirstAtMost(v, speedEnd, start)
      case None => Err(JumpFinishNotFound)
      case Some(finish) => Ok((start, finish))
  }

  /** `crop_jump(speed_start, speed_end)` on a table: the rows
      `[start - 10, finish)` under Python's slice rule, or the error. */
  function CropJump(t: Table, speedStart: real, speedEnd: real): (r: Result<Table>)
    requires Rectangular(t)
    ensures r.Ok? ==> Rectangular(r.value) && r.value.derived.Keys == t.derived.Keys
    ensures r.Ok? ==> |r.value.rows| <= |t.rows|
  {
    var v :- Column(t, VelT);
    var bounds :- Detect(v, speedStart, speedEnd);
    Ok(SliceRows(t, bounds.0 - LeadIn, bounds.1))
  }

  /** Start and finish are unique: whenever `k` and `f` satisfy the two
      first-match rules, the detector reports exactly them. */
  lemma {:induction false} DetectFindsJump(v: seq<real>, speedStart: real, speedEnd: real, k: nat, f: nat)
    requires IsStart(v, speedStart, k) && IsFinish(v, speedEnd, k, f)
    ensures Detect(v, speedStart, speedEnd) == Ok((k, f))
  {
    var s := FirstAtLeast(v, speedStart, 0);
    var e := FirstAtMost(v, speedEnd, k);
  }

  /** When a start exists but no later sample falls to the end threshold,
      the detector reports the missing finish. */
  lemma {:induction false} DetectMissingFinish(v: seq<real>, speedStart: real, speedEnd: real, k: nat)
    requires IsStart(v, speedStart, k)
    requires forall j :: k <= j < |v| ==> v[j] > speedEnd
    ensures Detect(v, speedStart, speedEnd) == Err(JumpFinishNotFound)
  {
    var s := FirstAtLeast(v, speedStart, 0);
    var e := FirstAtMost(v, speedEnd, k);
  }

  /** The kept rows are the rows at positions `[k - 10, f)` under Python's
      slice rule, every derived column sliced alike. */
  lemma CropJumpKeepsSlice(t: Table, speedStart: real, speedEnd: real, k: nat, f: nat)
    requires Rectangular(t) && VelT in t.derived
    requires IsStart(t.derived[VelT], speedStart, k)
    requires IsFinish(t.derived[VelT], speedEnd, k, f)
    ensures CropJump(t, speedStart, speedEnd) == Ok(SliceRows(t, k - LeadIn, f))
  {
    DetectFindsJump(t.derived[VelT], speedStart, speedEnd, k, f);
  }

  /** The three ways the detector fails: no `velT` column, no sample at the
      start speed, or no sample at the end speed from the start on. */
  lemma CropJumpFails(t: Table, speedStart: real, speedEnd: real)
    requires Rectangular(t)
    ensures VelT !in t.derived <==> CropJump(t, speedStart, speedEnd) == Err(MissingColumn(VelT))
    ensures VelT in t.derived ==>
              (CropJump(t, speedStart, speedEnd) == Err(JumpStartNotFound) <==>
               forall j :: 0 <= j < |t.rows| ==> t.derived[VelT][j] < speedStart)
    ensures VelT in t.derived ==>
              forall k :: IsStart(t.derived[VelT], speedStart, k) ==>
                (CropJump(t, speedStart, speedEnd) == Err(JumpFinishNotFound) <==>
                 forall j :: k <= j < |t.rows| ==> t.derived[VelT][j] > speedEnd)
  {
    if VelT in t.derived {
      var v := t.derived[VelT];
      forall k | IsStart(v, speedStart, k)
        ensures CropJump(t, speedStart, speedEnd) == Err(JumpFinishNotFound) <==>
                forall j :: k <= j < |t.rows| ==> v[j] > speedEnd
      {
        if forall j :: k <= j < |v| ==> v[j] > speedEnd {
          DetectMissingFinish(v, speedStart, speedEnd, k);
        } else {
          var f :| k <= f < |v| && v[f] <= speedEnd;
          var e := FirstAtMost(v, speedEnd, k);
          assert e.Some?;
          DetectFindsJump(v, speedStart, speedEnd, k, e.value);
        }
      }
    }
  }

  /** With an end threshold below the start threshold the start sample is
      never the finish sample, so the segment is never cut at its own start. */
  lemma StartPrecedesFinish(v: seq<real>, speedStart: real, speedEnd: real, k: nat, f: nat)
    requires speedEnd < speedStart
    requires IsStart(v, speedStart, k) && IsFinish(v, speedEnd, k, f)
    ensures k < f
  {
  }

  /** With at least ten samples before the start, the segment is the
      `f - k + 10` original rows `k - 10 .. f - 1` in their order: the finish
      row is left out, and when the finish comes after the start, row 10 of
      the segment is the start row. */
  lemma {:induction false} CropJumpFullLeadIn(t: Table, speedStart: real, speedEnd: real, k: nat, f: nat)
    requires Rectangular(t) && VelT in t.derived
    requires IsStart(t.derived[VelT], speedStart, k)
    requires IsFinish(t.derived[VelT], speedEnd, k, f)
    requires k >= LeadIn
    ensures CropJump(t, speedStart, speedEnd).Ok?
    ensures CropJump(t, speedStart, speedEnd).value.rows == t.rows[k - LeadIn .. f]
    ensures |CropJump(t, speedStart, speedEnd).value.rows| == f - k + LeadIn
    ensures k < f ==> CropJump(t, speedStart, speedEnd).value.rows[LeadIn] == t.rows[k]
  {
    CropJumpKeepsSlice(t, speedStart, speedEnd, k, f);
  }

  /** With fewer than ten samples before the start the lower bound `k - 10`
      is negative and Python counts it from the end of the table, flooring at
      0: the segment is the rows from `max(0, n + k - 10)` up to `f`, which is
      empty as soon as that bound reaches `f`. */
  lemma {:induction false} CropJumpShortLeadIn(t: Table, speedStart: real, speedEnd: real, k: nat, f: nat)
    requires Rectangular(t) && VelT in t.derived
    requires IsStart(t.derived[VelT], speedStart, k)
    requires IsFinish(t.derived[VelT], speedEnd, k, f)
    requires k < LeadIn
    ensures var n := |t.rows|;
            var lo := if n + k - LeadIn < 0 then 0 else n + k - LeadIn;
            CropJump(t, speedStart, speedEnd) ==
              Ok(SliceRows(t, k - LeadIn, f)) &&
            SliceRows(t, k - LeadIn, f).rows == (if lo <= f then t.rows[lo..f] else [])
  {
    CropJumpKeepsSlice(t, speedStart, speedEnd, k, f);
  }
}
