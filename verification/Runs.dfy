/** Induction over the runs of a transition system. */
module Runs {

  ghost predicate Follows<S(!new)>(run: seq<S>, step: (S, S) -> bool) {
    forall i :: 0 < i < |run| ==> step(run[i - 1], run[i])
  }

  ghost predicate Preserves<S(!new)>(inv: S -> bool, step: (S, S) -> bool) {
    forall u, v :: inv(u) && step(u, v) ==> inv(v)
  }

  /** What holds at one point of a run and is kept by every step holds from there on. */
  lemma {:induction false} Invariant<S(!new)>(run: seq<S>, i: nat, j: nat, inv: S -> bool, step: (S, S) -> bool)
    requires i <= j < |run| && inv(run[i]) && Follows(run, step) && Preserves(inv, step)
    ensures inv(run[j])
    decreases j
  {
    if i < j {
      Invariant(run, i, j - 1, inv, step);
      assert step(run[j - 1], run[j]);
    }
  }
}
