/**
 * The exploration-temperature schedule `visit_softmax_temperature_fn`: a step
 * function of training progress that makes action selection greedier as
 * training advances.
 */
module Temperature {
  import opened LunarLanderConfig

  /** The four temperatures, from maximal exploration to near-greedy. */
  const Temperatures: seq<real> := [1000.0, 1.0, 0.5, 0.1]

  /** The schedule as the source states it: `trainedSteps` is compared with
      0.25, 0.5 and 0.75 of `trainingSteps`, lower bound of each band
      inclusive, the last band open-ended. `numMoves` is accepted and unused. */
  function VisitSoftmaxTemperature(c: MuZeroConfig, numMoves: int, trainedSteps: int): (r: real)
    ensures r > 0.0
    ensures r in Temperatures
  {
    var t := trainedSteps as real;
    var n := c.trainingSteps as real;
    if t < 0.25 * n then 1000.0
    else if t < 0.5 * n then 1.0
    else if t < 0.75 * n then 0.5
    else 0.1
  }

  /** Reference definition of training progress: how many of the quarter-marks
      `1/4, 2/4, ..., k/4` of `trainingSteps` the step count has reached,
      counted in integers (`j/4 * n <= t` scaled by 4). */
  function MarksReached(trainingSteps: int, trainedSteps: int, k: nat): (m: nat)
    ensures m <= k
  {
    if k == 0 then 0
    else MarksReached(trainingSteps, trainedSteps, k - 1)
         + (if k * trainingSteps <= 4 * trainedSteps then 1 else 0)
  }

  /** Progress never goes backwards: more trained steps reach at least as many marks. */
  lemma {:induction false} MarksReachedMonotone(n: int, t1: int, t2: int, k: nat)
    requires t1 <= t2
    ensures MarksReached(n, t1, k) <= MarksReached(n, t2, k)
  {
    if k > 0 {
      MarksReachedMonotone(n, t1, t2, k - 1);
    }
  }

  /** With a positive budget the marks are reached in order, so the count of
      marks reached among the three is the index of the band. */
  lemma MarksReachedBands(n: int, t: int)
    requires n > 0
    ensures MarksReached(n, t, 3) == 0 <==> 4 * t < n
    ensures MarksReached(n, t, 3) == 1 <==> n <= 4 * t < 2 * n
    ensures MarksReached(n, t, 3) == 2 <==> 2 * n <= 4 * t < 3 * n
    ensures MarksReached(n, t, 3) == 3 <==> 3 * n <= 4 * t
  {
    assert MarksReached(n, t, 1) == (if n <= 4 * t then 1 else 0);
    assert MarksReached(n, t, 2) == MarksReached(n, t, 1) + (if 2 * n <= 4 * t then 1 else 0);
    assert MarksReached(n, t, 3) == MarksReached(n, t, 2) + (if 3 * n <= 4 * t then 1 else 0);
  }

  /** Each threshold comparison on reals is the integer comparison scaled by 4. */
  lemma QuarterThreshold(n: int, t: int, k: nat)
    requires 1 <= k <= 3
    ensures (t as real < (k as real / 4.0) * n as real) <==> 4 * t < k * n
  {
  }

  /** For a positive budget the schedule is the temperature of the band
      reached: the real-valued thresholds agree with the integer reference. */
  lemma TemperatureIsBandTemperature(c: MuZeroConfig, numMoves: int, trainedSteps: int)
    requires c.trainingSteps > 0
    ensures VisitSoftmaxTemperature(c, numMoves, trainedSteps)
            == Temperatures[MarksReached(c.trainingSteps, trainedSteps, 3)]
  {
    var n, t := c.trainingSteps, trainedSteps;
    QuarterThreshold(n, t, 1);
    QuarterThreshold(n, t, 2);
    QuarterThreshold(n, t, 3);
    MarksReachedBands(n, t);
  }

  /** Exploration band: below a quarter of the budget, negative counts
      included, the temperature is 1000; and only there. */
  lemma ExplorationBand(c: MuZeroConfig, numMoves: int, trainedSteps: int)
    ensures VisitSoftmaxTemperature(c, numMoves, trainedSteps) == 1000.0
            <==> 4 * trainedSteps < c.trainingSteps
    ensures trainedSteps < 0 && c.trainingSteps > 0
            ==> VisitSoftmaxTemperature(c, numMoves, trainedSteps) == 1000.0
  {
  }

  /** Proportional band: from a quarter up to half of the budget the
      temperature is 1; and only there. */
  lemma ProportionalBand(c: MuZeroConfig, numMoves: int, trainedSteps: int)
    ensures VisitSoftmaxTemperature(c, numMoves, trainedSteps) == 1.0
            <==> c.trainingSteps <= 4 * trainedSteps < 2 * c.trainingSteps
  {
  }

  /** Moderately greedy band: from half up to three quarters of the budget the
      temperature is 0.5; and only there. */
  lemma ModeratelyGreedyBand(c: MuZeroConfig, numMoves: int, trainedSteps: int)
    ensures VisitSoftmaxTemperature(c, numMoves, trainedSteps) == 0.5
            <==> 2 * c.trainingSteps <= 4 * trainedSteps < 3 * c.trainingSteps
  {
  }

  /** Near-greedy band: from three quarters of a positive budget on, however
      far past the budget, the temperature is 0.1; and only there. */
  lemma NearGreedyBand(c: MuZeroConfig, numMoves: int, trainedSteps: int)
    requires c.trainingSteps > 0
    ensures VisitSoftmaxTemperature(c, numMoves, trainedSteps) == 0.1
            <==> 3 * c.trainingSteps <= 4 * trainedSteps
    ensures trainedSteps >= c.trainingSteps
            ==> VisitSoftmaxTemperature(c, numMoves, trainedSteps) == 0.1
  {
  }

  /** `numMoves` has no influence on the result. */
  lemma IndependentOfNumMoves(c: MuZeroConfig, m1: int, m2: int, trainedSteps: int)
    ensures VisitSoftmaxTemperature(c, m1, trainedSteps) == VisitSoftmaxTemperature(c, m2, trainedSteps)
  {
  }

  /** The temperature table is strictly decreasing. */
  lemma TemperaturesDecreasing(i: nat, j: nat)
    requires i < j < |Temperatures|
    ensures Temperatures[j] < Temperatures[i]
  {
  }

  /** Greedier as training progresses: more trained steps never give a higher
      temperature, for any budget (a non-positive one has only the bands 1000
      and 0.1). */
  lemma GreedierAsTrainingProgresses(c: MuZeroConfig, m1: int, m2: int, t1: int, t2: int)
    requires t1 <= t2
    ensures VisitSoftmaxTemperature(c, m2, t2) <= VisitSoftmaxTemperature(c, m1, t1)
  {
    if c.trainingSteps > 0 {
      TemperatureIsBandTemperature(c, m1, t1);
      TemperatureIsBandTemperature(c, m2, t2);
      var b1, b2 := MarksReached(c.trainingSteps, t1, 3), MarksReached(c.trainingSteps, t2, 3);
      MarksReachedMonotone(c.trainingSteps, t1, t2, 3);
      if b1 < b2 {
        TemperaturesDecreasing(b1, b2);
      }
    }
  }

  predicate Ascending(ts: seq<int>) {
    forall i, j :: 0 <= i < j < |ts| ==> ts[i] <= ts[j]
  }

  /** Over a whole run, with step counts read in increasing order, the
      temperatures handed to the planner never increase. */
  lemma NonIncreasingOverRun(c: MuZeroConfig, moves: seq<int>, ts: seq<int>)
    requires |moves| == |ts|
    requires Ascending(ts)
    ensures forall i, j :: 0 <= i < j < |ts| ==>
              VisitSoftmaxTemperature(c, moves[j], ts[j]) <= VisitSoftmaxTemperature(c, moves[i], ts[i])
  {
    forall i, j | 0 <= i < j < |ts|
      ensures VisitSoftmaxTemperature(c, moves[j], ts[j]) <= VisitSoftmaxTemperature(c, moves[i], ts[i])
    {
      GreedierAsTrainingProgresses(c, moves[i], moves[j], ts[i], ts[j]);
    }
  }

  /** The default budget of 700 puts the band boundaries at 175, 350 and 525,
      each boundary step being the first step of its band. */
  lemma DefaultSchedule(numMoves: int)
    ensures VisitSoftmaxTemperature(Default(), numMoves, 0) == 1000.0
    ensures VisitSoftmaxTemperature(Default(), numMoves, 174) == 1000.0
    ensures VisitSoftmaxTemperature(Default(), numMoves, 175) == 1.0
    ensures VisitSoftmaxTemperature(Default(), numMoves, 349) == 1.0
    ensures VisitSoftmaxTemperature(Default(), numMoves, 350) == 0.5
    ensures VisitSoftmaxTemperature(Default(), numMoves, 524) == 0.5
    ensures VisitSoftmaxTemperature(Default(), numMoves, 525) == 0.1
    ensures VisitSoftmaxTemperature(Default(), numMoves, 699) == 0.1
  {
  }
}
