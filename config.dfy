/**
 * The structural part of the LunarLander MuZero configuration record: the
 * shape of an observation, the list of legal actions and the number of
 * training steps the run is planned for. The record is built once and never
 * updated, so it is a value.
 */
module LunarLanderConfig {

  /** The fields of `MuZeroConfig` that the temperature schedule and the
      self-play driver rely on. */
  datatype MuZeroConfig = MuZeroConfig(
    observationShape: int,  // length of the flat observation vector
    actionSpace: seq<int>,  // every legal action, in order
    trainingSteps: int      // total number of weight updates planned
  )

  /** The list `[0, 1, ..., n - 1]`, as `[i for i in range(n)]` builds it. */
  function Range(n: nat): (r: seq<int>)
    ensures |r| == n
    ensures forall i :: 0 <= i < n ==> r[i] == i
  {
    if n == 0 then [] else Range(n - 1) + [n - 1]
  }

  /** Action `i` sits at index `i`: the actions are contiguous and zero-based. */
  predicate ZeroBasedContiguous(actions: seq<int>) {
    forall i :: 0 <= i < |actions| ==> actions[i] == i
  }

  predicate NoDuplicates(actions: seq<int>) {
    forall i, j :: 0 <= i < j < |actions| ==> actions[i] != actions[j]
  }

  /** The record's invariant: every count is positive and the action space is
      the non-empty contiguous range starting at 0. */
  predicate Valid(c: MuZeroConfig) {
    && c.observationShape > 0
    && c.trainingSteps > 0
    && |c.actionSpace| > 0
    && ZeroBasedContiguous(c.actionSpace)
  }

  /** The configuration `MuZeroConfig.__init__` builds for LunarLander. */
  function Default(): (c: MuZeroConfig)
    ensures Valid(c)
    ensures c.observationShape == 8
    ensures c.actionSpace == [0, 1, 2, 3]
    ensures c.trainingSteps == 700
  {
    MuZeroConfig(8, Range(4), 700)
  }

  /** A contiguous zero-based action list holds exactly the actions
      `0 .. |actions| - 1`, each once. */
  lemma ContiguousActions(actions: seq<int>)
    requires ZeroBasedContiguous(actions)
    ensures NoDuplicates(actions)
    ensures forall a :: a in actions <==> 0 <= a < |actions|
  {
    forall a | 0 <= a < |actions|
      ensures a in actions
    {
      assert actions[a] == a;
    }
  }

  /** The default action space is `[0, 1, 2, 3]`: four distinct actions,
      action `i` at index `i`. */
  lemma DefaultActionSpace()
    ensures |Default().actionSpace| == 4
    ensures NoDuplicates(Default().actionSpace)
    ensures forall a :: a in Default().actionSpace <==> 0 <= a < 4
  {
  }
}
