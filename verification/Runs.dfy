/** Recorded runs of any transition system, in a form that is cheap to carry along: no step is looked at unasked. */
module Runs {
  ghost predicate IsStep<S, L>(next: (S, L, S) -> bool, ss: seq<S>, ls: seq<L>, i: nat)
    requires |ss| == |ls| + 1 && i < |ls|
  {
    next(ss[i], ls[i], ss[i + 1])
  }

  ghost predicate IsRun<S, L>(next: (S, L, S) -> bool, ss: seq<S>, ls: seq<L>) {
    |ss| == |ls| + 1 && forall i: nat {:trigger IsStep(next, ss, ls, i)} :: i < |ls| ==> IsStep(next, ss, ls, i)
  }

  lemma Grows<S, L>(next: (S, L, S) -> bool, ss: seq<S>, ls: seq<L>, x: L, s: S)
    requires IsRun(next, ss, ls) && next(ss[|ls|], x, s)
    ensures IsRun(next, ss + [s], ls + [x])
  {
    forall i: nat | i < |ls| + 1
      ensures IsStep(next, ss + [s], ls + [x], i)
    {
      assert i < |ls| ==> IsStep(next, ss, ls, i);
    }
  }

  lemma StepOf<S, L>(next: (S, L, S) -> bool, ss: seq<S>, ls: seq<L>, i: nat)
    requires IsRun(next, ss, ls) && i < |ls|
    ensures next(ss[i], ls[i], ss[i + 1])
  {
    assert IsStep(next, ss, ls, i);
  }
}
