/**
 The gap in becomeLeader. startElection checks under the lock that the node is still candidate in the
 term it counted votes for, releases the lock, and becomeLeader takes it again without checking. The
 cluster model takes both as one step. Here: the run in which the gap makes two leaders of one term,
 and the guard that closes it.
 */
module LateLeadership {
  import opened RaftTypes
  import opened NodeSpec
  import opened LeaderLogs
  import opened Cluster
  import opened Invariant
  import opened StepGrows
  import opened Safety

  /** The candidate has counted a quorum for its term and is about to take the lock again. */
  ghost predicate CountedQuorum(run: seq<State>, i: nat, n: NodeId, q: set<NodeId>)
    requires i < |run|
  {
    Enabled(run[i], DoWin(n, q))
  }

  /** The guard that becomeLeader does not have. */
  predicate StillCandidate(x: NodeState, t: nat) {
    x.role == Candidate && x.term == t
  }

  lemma {:induction false} StaysTrue(run: seq<State>, i: nat, j: nat, n: NodeId)
    requires IsRun(run) && i <= j < |run| && n in run[i].nodes
    ensures run[i].msgs <= run[j].msgs && run[i].config == run[j].config
    ensures n in run[j].nodes && run[i].nodes[n].disk.term <= run[j].nodes[n].disk.term
    decreases j
  {
    if i < j {
      StaysTrue(run, i, j - 1, n);
      assert StepAt(run, j - 1);
      InvAlways(run, j - 1);
      var a :| Enabled(run[j - 1], a) && run[j] == After(run[j - 1], a);
      InvKept(run[j - 1], a);
    }
  }

  /** The late step is a winning step of the cluster model, for the term counted. */
  ghost predicate WinsTerm(s: State, n: NodeId, q: set<NodeId>, t: nat) {
    Enabled(s, DoWin(n, q)) && s.nodes[n].term == t
  }

  /**
   The late step wins the term whose votes were counted exactly when the guard still holds; the term
   then has no leader yet.
   */
  lemma LateLeadershipWinsIff(run: seq<State>, i: nat, j: nat, n: NodeId, q: set<NodeId>)
    requires IsRun(run) && i <= j < |run| && CountedQuorum(run, i, n, q)
    ensures n in run[j].nodes
    ensures WinsTerm(run[j], n, q, run[i].nodes[n].term) <==> StillCandidate(run[j].nodes[n], run[i].nodes[n].term)
    ensures StillCandidate(run[j].nodes[n], run[i].nodes[n].term) ==> run[i].nodes[n].term !in run[j].h.leaders
  {
    StaysTrue(run, i, j, n);
    InvAlways(run, j);
    assert NodeOk(run[j].nodes[n], run[j].h.logs);
    if StillCandidate(run[j].nodes[n], run[i].nodes[n].term) {
      WinIsFresh(run[j], n, q);
    }
  }

  /**
   And about the votes. In the term that was counted, q has still elected n. In any other term, which
   becomeLeader would claim all the same, nobody but n itself has voted for n, unless n stood there anew.
   */
  lemma LateLeadershipVotes(run: seq<State>, i: nat, j: nat, n: NodeId, q: set<NodeId>)
    requires IsRun(run) && i <= j < |run| && CountedQuorum(run, i, n, q)
    ensures n in run[j].nodes
    ensures
      var t, claimed := run[i].nodes[n].term, BecomeLeader(run[j].nodes[n]).term;
      && (claimed == t ==> forall v | v in q && v != n :: VotedFor(run[j], v, n, claimed))
      && ((claimed, n) !in run[j].h.candidacies ==> claimed != t && forall v :: !VotedFor(run[j], v, n, claimed))
  {
    StaysTrue(run, i, j, n);
    InvAlways(run, j);
    StoodStays(run, i, j, n);
    var claimed := run[j].nodes[n].term;
    if (claimed, n) !in run[j].h.candidacies {
      forall v ensures !VotedFor(run[j], v, n, claimed) {
        OnlyForCandidates(run[j], v, n, claimed);
      }
    }
  }

  ghost predicate VotedFor(s: State, v: NodeId, n: NodeId, t: nat) {
    VoteAnswer(v, n, t, VoteReply(t, true)) in s.msgs
  }

  lemma OnlyForCandidates(s: State, v: NodeId, n: NodeId, t: nat)
    requires Inv(s)
    ensures VotedFor(s, v, n, t) ==> (t, n) in s.h.candidacies
  {
    if VotedFor(s, v, n, t) {
      assert MsgOk(s, VoteAnswer(v, n, t, VoteReply(t, true)));
      assert VoteOk(s, t, v);
    }
  }

  /** Having stood for election in a term is not forgotten. */
  lemma {:induction false} StoodStays(run: seq<State>, i: nat, j: nat, n: NodeId)
    requires IsRun(run) && i <= j < |run| && n in run[i].nodes && run[i].nodes[n].role == Candidate
    ensures (run[i].nodes[n].term, n) in run[j].h.candidacies
    decreases j
  {
    if i == j {
      InvAlways(run, i);
      assert RoleOk(run[i], run[i].nodes[n]);
    } else {
      StoodStays(run, i, j - 1, n);
      InvAlways(run, j - 1);
      assert StepAt(run, j - 1);
      var a :| Enabled(run[j - 1], a) && run[j] == After(run[j - 1], a);
      InvKept(run[j - 1], a);
    }
  }

  // ----- the run that breaks election safety -----

  const A: NodeId := "a"
  const B: NodeId := "b"
  const C: NodeId := "c"

  function Three(): set<NodeId> { {A, B, C} }

  function Start(): State {
    State(Three(), map[A := FreshNode(A, Three()), B := FreshNode(B, Three()), C := FreshNode(C, Three())], {},
          History(map[], map[], map[], map[], map[], map[], map[], {}))
  }

  lemma Extend(run: seq<State>, a: Action) returns (run': seq<State>)
    requires IsRun(run) && Enabled(run[|run| - 1], a)
    ensures IsRun(run') && run' == run + [After(run[|run| - 1], a)]
  {
    var s := run[|run| - 1];
    run' := run + [After(s, a)];
    forall i: nat | i + 1 < |run'| ensures StepAt(run', i) {
      if i + 1 < |run| {
        assert StepAt(run, i);
      } else {
        assert Enabled(s, a);
      }
    }
  }

  function CandidateAt(id: NodeId, t: nat, ballots: set<Ballot>): NodeState {
    FreshNode(id, Three()).(role := Candidate, term := t, votedFor := id, disk := Disk(t, id), seen := {[]}, ballots := ballots)
  }

  function VoterFor(x: NodeState, t: nat, c: NodeId): NodeState {
    x.(role := Follower, term := t, votedFor := c, disk := Disk(t, c))
  }

  /** Reading an empty log, standing for election and asking for votes. */
  lemma Stand(run: seq<State>, n: NodeId) returns (run': seq<State>)
    requires IsRun(run) && n in run[|run| - 1].nodes && run[|run| - 1].nodes[n] == FreshNode(n, Three())
    ensures IsRun(run') && |run'| > |run| && run'[..|run|] == run
    ensures
      var s, s' := run[|run| - 1], run'[|run'| - 1];
      && s'.config == s.config && s.msgs + {VoteRequest(VoteArgs(1, n, 0, 0))} <= s'.msgs
      && s'.nodes == s.nodes[n := CandidateAt(n, 1, {Ballot(1, 0, 0)})]
  {
    run' := Extend(run, DoReadPosition(n));
    assert {} + {[]} == run'[|run'| - 1].nodes[n].seen;
    run' := Extend(run', DoBecomeCandidate(n, []));
    assert run'[|run'| - 1].nodes[n].ballots == {Ballot(1, 0, 0)};
    run' := Extend(run', DoSave(n));
    assert run'[|run'| - 1].nodes[n] == CandidateAt(n, 1, {Ballot(1, 0, 0)});
    run' := Extend(run', DoRequestVotes(n, Ballot(1, 0, 0)));
  }

  /** Standing again, one term higher. */
  lemma StandAgain(run: seq<State>, n: NodeId) returns (run': seq<State>)
    requires IsRun(run) && n in run[|run| - 1].nodes
    requires run[|run| - 1].nodes[n] == CandidateAt(n, 1, {Ballot(1, 0, 0)})
    ensures IsRun(run') && |run'| > |run| && run'[..|run|] == run
    ensures
      var s, s' := run[|run| - 1], run'[|run'| - 1];
      && s'.config == s.config && s.msgs + {VoteRequest(VoteArgs(2, n, 0, 0))} <= s'.msgs
      && s'.nodes == s.nodes[n := CandidateAt(n, 2, {Ballot(1, 0, 0), Ballot(2, 0, 0)})]
  {
    run' := Extend(run, DoBecomeCandidate(n, []));
    assert run'[|run'| - 1].nodes[n].ballots == {Ballot(1, 0, 0), Ballot(2, 0, 0)};
    run' := Extend(run', DoSave(n));
    assert run'[|run'| - 1].nodes[n] == CandidateAt(n, 2, {Ballot(1, 0, 0), Ballot(2, 0, 0)});
    run' := Extend(run', DoRequestVotes(n, Ballot(2, 0, 0)));
  }

  /** A node of a lower term and an empty log grants the vote. */
  lemma Grant(run: seq<State>, n: NodeId, c: NodeId, t: nat) returns (run': seq<State>)
    requires IsRun(run) && n in run[|run| - 1].nodes && n != c && c != NO_NODE
    requires run[|run| - 1].nodes[n].term < t && run[|run| - 1].nodes[n].log == []
    requires VoteRequest(VoteArgs(t, c, 0, 0)) in run[|run| - 1].msgs
    ensures IsRun(run') && |run'| > |run| && run'[..|run|] == run
    ensures
      var s, s' := run[|run| - 1], run'[|run'| - 1];
      && s'.config == s.config && s.msgs + {VoteAnswer(n, c, t, VoteReply(t, true))} <= s'.msgs
      && s'.nodes == s.nodes[n := VoterFor(s.nodes[n], t, c)]
  {
    run' := Extend(run, DoHandleVote(n, VoteArgs(t, c, 0, 0)));
  }

  lemma StartIsInit()
    ensures Init(Start()) && IsRun([Start()])
  {
  }

  lemma Pairs()
    ensures |Three()| == 3 && IsQuorum(Three(), {A, B}) && IsQuorum(Three(), {A, C})
  {
    assert A != B && B != C && A != C;
    assert |{A, B}| == 2 && |{A, C}| == 2;
  }

  /** A counts the votes of A and B for term 1; C has not moved. */
  lemma FirstElection() returns (run: seq<State>)
    ensures IsRun(run)
    ensures
      var s := run[|run| - 1];
      && s.config == Three() && s.nodes.Keys == Three()
      && s.nodes[A] == CandidateAt(A, 1, {Ballot(1, 0, 0)}) && s.nodes[C] == FreshNode(C, Three())
      && VoteAnswer(B, A, 1, VoteReply(1, true)) in s.msgs
    ensures CountedQuorum(run, |run| - 1, A, {A, B})
  {
    StartIsInit();
    run := [Start()];
    run := Stand(run, A);
    run := Grant(run, B, A, 1);
    CountIsEnough(run[|run| - 1], A, B, 1);
  }

  /** Two granted votes out of three make a quorum. */
  lemma CountIsEnough(s: State, n: NodeId, v: NodeId, t: nat)
    requires s.config == Three() && s.nodes.Keys == Three() && ((v == B && n == A) || (v == A && n == C))
    requires s.nodes[n].role == Candidate && s.nodes[n].term == t == s.nodes[n].disk.term
    requires VoteAnswer(v, n, t, VoteReply(t, true)) in s.msgs
    ensures Enabled(s, DoWin(n, {n, v}))
  {
    Pairs();
    assert {C, A} == {A, C};
  }

  /** A votes for C in term 2, and C collects the votes of A and C. */
  lemma SecondElection(run: seq<State>) returns (run': seq<State>)
    requires IsRun(run)
    requires
      var s := run[|run| - 1];
      && s.config == Three() && s.nodes.Keys == Three()
      && s.nodes[A] == CandidateAt(A, 1, {Ballot(1, 0, 0)}) && s.nodes[C] == FreshNode(C, Three())
    ensures IsRun(run') && |run'| > |run| && run'[..|run|] == run
    ensures
      var s' := run'[|run'| - 1];
      && s'.config == Three() && s'.nodes.Keys == Three()
      && s'.nodes[A] == VoterFor(CandidateAt(A, 1, {Ballot(1, 0, 0)}), 2, C)
      && s'.nodes[C] == CandidateAt(C, 2, {Ballot(1, 0, 0), Ballot(2, 0, 0)})
      && VoteAnswer(A, C, 2, VoteReply(2, true)) in s'.msgs
    ensures Enabled(run'[|run'| - 1], DoWin(C, {C, A}))
  {
    run' := Stand(run, C);
    run' := StandAgain(run', C);
    run' := Grant(run', A, C, 2);
    CountIsEnough(run'[|run'| - 1], C, A, 2);
  }

  /**
   Candidate A counts a quorum for term 1; before it takes the lock again it votes for C in term 2, and
   C wins term 2. The late becomeLeader then makes A a leader of term 2 as well.
   */
  lemma LateLeadershipMakesTwoLeaders() returns (run: seq<State>, i: nat, q: set<NodeId>)
    ensures IsRun(run) && i < |run| && CountedQuorum(run, i, A, q)
    ensures Leads(run[|run| - 1], C, 2) && A in run[|run| - 1].nodes
    ensures !StillCandidate(run[|run| - 1].nodes[A], run[i].nodes[A].term)
    ensures
      var late := BecomeLeader(run[|run| - 1].nodes[A]);
      late.role == Leader && late.term == 2 && late.disk.votedFor == C
  {
    var first := FirstElection();
    i := |first| - 1;
    q := {A, B};
    var second := SecondElection(first);
    assert second[i] == second[..|first|][i] == first[i];
    run := CompleteWin(second);
    assert run[i] == second[i];
    assert first[i].nodes[A].term == 1;
  }

  lemma CompleteWin(run: seq<State>) returns (run': seq<State>)
    requires IsRun(run)
    requires Enabled(run[|run| - 1], DoWin(C, {C, A}))
    ensures IsRun(run') && |run'| == |run| + 1 && run'[..|run|] == run
    ensures Leads(run'[|run|], C, run[|run| - 1].nodes[C].term)
    ensures run'[|run|].nodes.Keys == run[|run| - 1].nodes.Keys
    ensures A in run[|run| - 1].nodes ==> run'[|run|].nodes[A] == run[|run| - 1].nodes[A]
  {
    run' := Extend(run, DoWin(C, {C, A}));
  }
}
