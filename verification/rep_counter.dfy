/**
 The two-phase repetition counter both exercises use. A machine is either
 up or down and carries the number of repetitions completed. It goes down
 when the diagnostic joint angle falls strictly below the lower threshold
 and comes back up, completing a repetition, when the angle rises strictly
 above the upper threshold. Readings between the two thresholds never move
 it: that gap is the hysteresis band.
 */
module RepCounter {

  datatype Phase = Up | Down

  /** Thresholds in degrees: enter the down phase below `enterDown`,
      leave it above `exitUp`. */
  datatype Band = Band(enterDown: real, exitUp: real)

  /** Push-ups read the elbow angle (app.py:119-123). */
  const PushUpBand: Band := Band(90.0, 160.0)

  /** Half-squats read the knee angle (app.py:134-138). */
  const HalfSquatBand: Band := Band(150.0, 170.0)

  datatype Machine = Machine(phase: Phase, count: nat)

  /** A machine as a session starts it: up, nothing counted. */
  const Fresh: Machine := Machine(Up, 0)

  /** One reading. The phase flips exactly when the reading crosses the
      threshold that leads out of the current phase, and the counter rises
      by one exactly on a down-to-up flip. */
  function Advance(m: Machine, x: real, band: Band): (r: Machine)
    ensures r.phase != m.phase <==>
              (m.phase == Up && x < band.enterDown) || (m.phase == Down && x > band.exitUp)
    ensures r.count == m.count + (if m.phase == Down && r.phase == Up then 1 else 0)
  {
    if x < band.enterDown && m.phase == Up then Machine(Down, m.count)
    else if x > band.exitUp && m.phase == Down then Machine(Up, m.count + 1)
    else m
  }

  predicate InBand(x: real, band: Band)
  {
    band.enterDown <= x <= band.exitUp
  }

  /** A reading inside the band changes neither phase nor counter. */
  lemma HoldsInBand(m: Machine, x: real, band: Band)
    requires InBand(x, band)
    ensures Advance(m, x, band) == m
  {
  }

  /** Feeds a sequence of readings, first to last. */
  function Run(m: Machine, xs: seq<real>, band: Band): (r: Machine)
    ensures r.count >= m.count
    decreases |xs|
  {
    if |xs| == 0 then m else Run(Advance(m, xs[0], band), xs[1..], band)
  }

  /** Readings that all stay inside the band leave the machine untouched,
      however long they oscillate. */
  lemma {:induction false} RunHoldsInBand(m: Machine, xs: seq<real>, band: Band)
    requires forall i :: 0 <= i < |xs| ==> InBand(xs[i], band)
    ensures Run(m, xs, band) == m
    decreases |xs|
  {
    if |xs| > 0 {
      HoldsInBand(m, xs[0], band);
      RunHoldsInBand(m, xs[1..], band);
    }
  }

  /** The machines a run passes through: the start, then one per reading. */
  function Trace(m: Machine, xs: seq<real>, band: Band): (t: seq<Machine>)
    ensures |t| == |xs| + 1
    ensures t[0] == m
    decreases |xs|
  {
    if |xs| == 0 then [m] else [m] + Trace(Advance(m, xs[0], band), xs[1..], band)
  }

  /** The number of adjacent down-then-up pairs in a trace: the completed
      repetitions, counted from the phases alone. */
  function Completions(t: seq<Machine>): nat
    decreases |t|
  {
    if |t| < 2 then 0
    else (if t[0].phase == Down && t[1].phase == Up then 1 else 0) + Completions(t[1..])
  }

  /** The counter after a run is its starting value plus the number of
      down-to-up transitions the run went through. */
  lemma {:induction false} CountIsCompletions(m: Machine, xs: seq<real>, band: Band)
    ensures Run(m, xs, band).count == m.count + Completions(Trace(m, xs, band))
    decreases |xs|
  {
    if |xs| > 0 {
      var m' := Advance(m, xs[0], band);
      var rest := Trace(m', xs[1..], band);
      var t := Trace(m, xs, band);
      assert t == [m] + rest;
      assert t[1..] == rest;
      assert t[1] == m';
      CountIsCompletions(m', xs[1..], band);
    }
  }

  /** A repetition takes at least two readings, one to go down and one to
      come back up; a run that starts down may finish one repetition in its
      first reading. */
  lemma {:induction false} AtMostOneRepPerTwoReadings(m: Machine, xs: seq<real>, band: Band)
    ensures 2 * (Run(m, xs, band).count - m.count) <= |xs| + (if m.phase == Down then 1 else 0)
    decreases |xs|
  {
    if |xs| > 0 {
      AtMostOneRepPerTwoReadings(Advance(m, xs[0], band), xs[1..], band);
    }
  }

  /** From the down phase, counting anything needs a reading above the
      upper threshold. */
  lemma {:induction false} RiseNeedsExitReading(m: Machine, xs: seq<real>, band: Band)
    requires m.phase == Down
    requires Run(m, xs, band).count > m.count
    ensures exists j :: 0 <= j < |xs| && xs[j] > band.exitUp
    decreases |xs|
  {
    if xs[0] > band.exitUp {
      assert 0 <= 0 < |xs| && xs[0] > band.exitUp;
    } else {
      RiseNeedsExitReading(Advance(m, xs[0], band), xs[1..], band);
      var j :| 0 <= j < |xs[1..]| && xs[1..][j] > band.exitUp;
      assert xs[j + 1] > band.exitUp;
    }
  }

  /** From the up phase, counting anything needs a full swing: a reading
      below the lower threshold followed later by one above the upper. */
  lemma {:induction false} RepNeedsFullSwing(m: Machine, xs: seq<real>, band: Band)
    requires m.phase == Up
    requires Run(m, xs, band).count > m.count
    ensures exists i, j :: 0 <= i < j < |xs| && xs[i] < band.enterDown && xs[j] > band.exitUp
    decreases |xs|
  {
    var m' := Advance(m, xs[0], band);
    if xs[0] < band.enterDown {
      RiseNeedsExitReading(m', xs[1..], band);
      var j :| 0 <= j < |xs[1..]| && xs[1..][j] > band.exitUp;
      assert 0 <= 0 < j + 1 < |xs| && xs[0] < band.enterDown && xs[j + 1] > band.exitUp;
    } else {
      RepNeedsFullSwing(m', xs[1..], band);
      var i, j :| 0 <= i < j < |xs[1..]| && xs[1..][i] < band.enterDown && xs[1..][j] > band.exitUp;
      assert 0 <= i + 1 < j + 1 < |xs| && xs[i + 1] < band.enterDown && xs[j + 1] > band.exitUp;
    }
  }
}
