/** The kinematics stage: three speed columns derived from the velocity
    components of every sample. The floating-point arithmetic behind them
    (square roots, the glide-ratio division) is a parameter `speeds`. */
module Kinematics {
  import opened Frames

  /** Horizontal speed, total speed and glide ratio of one sample. */
  datatype Speeds = Speeds(velH: real, velT: real, gr: real)

  /** The names of the three columns the stage adds, in the order it adds them. */
  const SpeedColumns: seq<Derived> := [VelH, VelT, Gr]

  /** `calc_vel`: the same rows, with the columns `velH`, `velT` and `gr`
      added and every other column kept. */
  function CalcVel(t: Table, speeds: Sample -> Speeds): (r: Table)
    requires Rectangular(t)
    ensures Rectangular(r) && r.rows == t.rows
    ensures r.derived.Keys == t.derived.Keys + {VelH, VelT, Gr}
    ensures forall i :: 0 <= i < |t.rows| ==>
              && r.derived[VelH][i] == speeds(t.rows[i]).velH
              && r.derived[VelT][i] == speeds(t.rows[i]).velT
              && r.derived[Gr][i] == speeds(t.rows[i]).gr
    ensures forall c :: c in t.derived && c !in SpeedColumns ==> r.derived[c] == t.derived[c]
  {
    var n := |t.rows|;
    var velH := seq(n, i requires 0 <= i < n => speeds(t.rows[i]).velH);
    var velT := seq(n, i requires 0 <= i < n => speeds(t.rows[i]).velT);
    var gr := seq(n, i requires 0 <= i < n => speeds(t.rows[i]).gr);
    t.(derived := t.derived[VelH := velH][VelT := velT][Gr := gr])
  }
}
