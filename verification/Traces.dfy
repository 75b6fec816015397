/**
 Runs of a step machine. Every concurrent protocol of this project is a set of
 states with an initial predicate and a step relation; a run is a finite
 sequence of states joined by steps, so "in every run" quantifies over every
 interleaving of the threads involved.
 */
module Traces {

  ghost predicate IsRun<S(!new)>(init: S -> bool, next: (S, S) -> bool, run: seq<S>)
  {
    && |run| > 0
    && init(run[0])
    && forall i, j :: 0 <= i && j == i + 1 < |run| ==> next(run[i], run[j])
  }

  /** An inductive predicate holds in every state of every run. */
  lemma {:induction false} InductiveHolds<S(!new)>(init: S -> bool, next: (S, S) -> bool, inv: S -> bool,
                                                   run: seq<S>, k: nat)
    requires IsRun(init, next, run)
    requires forall s :: init(s) ==> inv(s)
    requires forall s, t :: inv(s) && next(s, t) ==> inv(t)
    requires k < |run|
    ensures inv(run[k])
  {
    if k > 0 {
      InductiveHolds(init, next, inv, run, k - 1);
      var i, j := k - 1, k;
      assert next(run[i], run[j]);
    }
  }

  /** A run followed by one more step. */
  lemma Extend<S(!new)>(init: S -> bool, next: (S, S) -> bool, run: seq<S>, t: S) returns (longer: seq<S>)
    requires IsRun(init, next, run) && next(run[|run| - 1], t)
    ensures IsRun(init, next, longer) && longer[|longer| - 1] == t
  {
    longer := run + [t];
    forall i, j | 0 <= i && j == i + 1 < |longer| ensures next(longer[i], longer[j]) {
      if j < |run| { assert next(run[i], run[j]); }
    }
  }

  /** p still holds at j, or some step between i and j is one that may break it. */
  ghost predicate KeptUntil<S(!new)>(p: S -> bool, breaks: (S, S) -> bool, run: seq<S>, i: nat, j: nat)
    requires i <= j < |run|
  {
    p(run[j]) || exists k, l :: i <= k && l == k + 1 <= j && breaks(run[k], run[l])
  }

  lemma {:induction false} HoldsUntil<S(!new)>(init: S -> bool, next: (S, S) -> bool, inv: S -> bool,
                                               p: S -> bool, breaks: (S, S) -> bool, run: seq<S>, i: nat, j: nat)
    requires IsRun(init, next, run) && i <= j < |run| && p(run[i])
    requires forall s :: init(s) ==> inv(s)
    requires forall s, t :: inv(s) && next(s, t) ==> inv(t)
    requires forall s, t :: inv(s) && next(s, t) && p(s) ==> p(t) || breaks(s, t)
    ensures KeptUntil(p, breaks, run, i, j)
    decreases j
  {
    if i < j {
      var k, l := j - 1, j;
      HoldsUntil(init, next, inv, p, breaks, run, i, k);
      if p(run[k]) {
        InductiveHolds(init, next, inv, run, k);
        assert next(run[k], run[l]);
        assert p(run[l]) || breaks(run[k], run[l]);
      }
    }
  }
}
