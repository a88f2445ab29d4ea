/** Runs as sequences of states, whatever the states are. */
module Runs {
  function Last<S>(run: seq<S>): S
    requires run != []
  {
    run[|run| - 1]
  }

  /** Each state but the first follows from the one before it. */
  ghost predicate Chained<S(!new)>(run: seq<S>, successor: (S, S) -> bool) {
    forall i :: 0 <= i < |run| - 1 ==> successor(run[i], run[i + 1])
  }

  lemma ChainExtends<S(!new)>(run: seq<S>, next: S, successor: (S, S) -> bool)
    requires run != [] && Chained(run, successor) && successor(Last(run), next)
    ensures Chained(run + [next], successor)
  {
    var longer := run + [next];
    forall i | 0 <= i < |longer| - 1 ensures successor(longer[i], longer[i + 1]) {
      assert i < |run| - 1 ==> successor(run[i], run[i + 1]);
    }
  }
}
