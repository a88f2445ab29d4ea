/** Set facts the solver needs to be told. */
module Sets {
  lemma EmptyOrHasMember(s: set<int>)
    ensures s == {} || exists x :: x in s
  {
    if forall x :: x !in s {
      assert s == {};
    }
  }

  /** Distinct members of a set are no more than the set has. */
  lemma {:induction false} DistinctFit<T>(xs: seq<T>, whole: set<T>)
    requires forall i :: 0 <= i < |xs| ==> xs[i] in whole
    requires forall i, j :: 0 <= i < j < |xs| ==> xs[i] != xs[j]
    ensures |xs| <= |whole|
  {
    if xs != [] {
      DistinctFit(xs[1..], whole - {xs[0]});
    }
  }
}
