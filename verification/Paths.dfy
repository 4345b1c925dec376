/** Pieces of runs, and how to continue them: for results that say some run exists. */
module Paths {
  import opened RaftTypes
  import opened NodeSpec
  import opened Cluster

  function Last(run: seq<State>): State
    requires |run| > 0
  {
    run[|run| - 1]
  }

  /** A piece of a run: steps of the cluster model from any state. */
  ghost predicate IsPath(run: seq<State>) {
    |run| > 0 && forall i: nat {:trigger StepAt(run, i)} | i + 1 < |run| :: StepAt(run, i)
  }

  /** `run'` goes on from `run` by steps of node n, which is `y` at the end. */
  ghost predicate Moves(run: seq<State>, run': seq<State>, n: NodeId, y: NodeState)
    requires |run| > 0
  {
    && IsPath(run') && run <= run'
    && Last(run').config == Last(run).config && Last(run).msgs <= Last(run').msgs
    && Last(run').nodes == Last(run).nodes[n := y]
  }

  lemma Take(run: seq<State>, a: Action) returns (run': seq<State>)
    requires IsPath(run) && Enabled(Last(run), a)
    ensures Moves(run, run', a.n, NodeAfter(Last(run), a))
    ensures Last(run').msgs == Last(run).msgs + Emitted(Last(run), a)
  {
    run' := run + [After(Last(run), a)];
    forall i: nat | i + 1 < |run'| ensures StepAt(run', i) {
      if i + 1 < |run| {
        assert StepAt(run, i);
      } else {
        assert Enabled(Last(run), a);
      }
    }
  }

  lemma PathIsRun(run: seq<State>)
    requires IsPath(run) && Init(run[0])
    ensures IsRun(run)
  {
  }
}
