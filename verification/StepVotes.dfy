/** Every action keeps votes, elections and candidacies consistent with the history. */
module StepVotes {
  import opened RaftTypes
  import opened NodeSpec
  import opened LeaderLogs
  import opened Cluster
  import opened Invariant
  import opened StepGrows

  // ----- candidacies -----

  lemma NewCandidacyOk(s: State, a: Action)
    requires Inv(s) && Enabled(s, a) && Grows(s, After(s, a)) && a.DoBecomeCandidate?
    ensures CandidacyOk(After(s, a), s.nodes[a.n].term + 1, a.n)
  {
    var x := s.nodes[a.n];
    assert NodeOk(x, s.h.logs) && HeldOk(x, a.basis, s.h.logs);
    KeptGrown(a.basis, x.log, x.disk.term, x.term, s.h.logs, s.h.logs);
  }

  lemma OldCandidacyOk(s: State, s': State, u: nat, c: NodeId)
    requires Shape(s) && Candidacies(s) && Grows(s, s')
    requires (u, c) in s.h.candidacies && s'.h.candidacies[(u, c)] == s.h.candidacies[(u, c)]
    ensures CandidacyOk(s', u, c)
  {
    assert CandidacyOk(s, u, c);
    var x := s.h.candidacies[(u, c)];
    TracedGrown(x.basis, s.h.logs, s'.h.logs);
    TracedGrown(x.log, s.h.logs, s'.h.logs);
    KeptGrown(x.basis, x.log, u - 1, u - 1, s.h.logs, s'.h.logs);
  }

  lemma CandidaciesKept(s: State, a: Action)
    requires Inv(s) && Enabled(s, a) && Grows(s, After(s, a))
    ensures Candidacies(After(s, a))
  {
    var s' := After(s, a);
    forall u, c | (u, c) in s'.h.candidacies ensures CandidacyOk(s', u, c) {
      if a.DoBecomeCandidate? && (u, c) == (s.nodes[a.n].term + 1, a.n) {
        NewCandidacyOk(s, a);
      } else {
        OldCandidacyOk(s, s', u, c);
      }
    }
  }

  // ----- votes -----

  /** The saved vote of a term is never replaced by another one. */
  lemma SavedVoteStays(s: State, a: Action)
    requires Enabled(s, a) && NodeOk(s.nodes[a.n], s.h.logs)
    ensures
      var x, y := s.nodes[a.n], NodeAfter(s, a);
      y.disk.term == x.disk.term && x.disk.votedFor != NO_NODE ==> y.disk.votedFor == x.disk.votedFor
  {
  }

  lemma OldVoteOk(s: State, a: Action, t: nat, v: NodeId)
    requires Inv(s) && Enabled(s, a) && Grows(s, After(s, a)) && Shape(After(s, a))
    requires (t, v) in s.h.votes
    requires (t, v) in After(s, a).h.voteLogs ==> (t, v) in s.h.voteLogs
    ensures VoteOk(After(s, a), t, v)
  {
    assert NodeOk(s.nodes[a.n], s.h.logs);
    SavedVoteStays(s, a);
    UnmovedVoteOk(s, After(s, a), t, v);
  }

  lemma UnmovedVoteOk(s: State, s': State, t: nat, v: NodeId)
    requires Shape(s) && Votes(s) && Nodes(s) && Shape(s') && Grows(s, s')
    requires (t, v) in s.h.votes && ((t, v) in s'.h.voteLogs ==> (t, v) in s.h.voteLogs)
    requires forall n | n in s.config ::
               s'.nodes[n].disk.term == s.nodes[n].disk.term && s.nodes[n].disk.votedFor != NO_NODE ==>
                 s'.nodes[n].disk.votedFor == s.nodes[n].disk.votedFor
    ensures VoteOk(s', t, v)
  {
    assert VoteOk(s, t, v);
    var c := s.h.votes[(t, v)];
    assert NodeOk(s.nodes[c], s.h.logs);
  }

  lemma VoterVoted(s: State, t: nat, v: NodeId)
    requires Shape(s) && Votes(s)
    ensures (t, v) in s.h.voteLogs ==> (t, v) in s.h.votes
  {
    if (t, v) in s.h.voteLogs {
      assert VoterOk(s, t, v);
    }
  }

  lemma GrantedVoteOk(s: State, a: Action)
    requires Inv(s) && Enabled(s, a) && Grows(s, After(s, a)) && Shape(After(s, a))
    requires a.DoHandleVote? && HandleVote(s.nodes[a.n], a.ask).1.granted
    requires (a.ask.term, a.n) !in s.h.votes
    ensures VoteOk(After(s, a), a.ask.term, a.n)
  {
    assert MsgOk(s, VoteRequest(a.ask));
    VoterVoted(s, a.ask.term, a.n);
    var c := a.ask.candidate;
    assert NodeOk(s.nodes[c], s.h.logs);
  }

  lemma WinnerVoteOk(s: State, a: Action)
    requires Inv(s) && Enabled(s, a) && Grows(s, After(s, a)) && Shape(After(s, a)) && a.DoWin?
    requires (s.nodes[a.n].term, a.n) !in s.h.votes
    ensures VoteOk(After(s, a), s.nodes[a.n].term, a.n)
  {
    var x := s.nodes[a.n];
    assert RoleOk(s, x) && NodeOk(x, s.h.logs);
    VoterVoted(s, x.term, a.n);
  }

  /** A vote log is added only together with its vote. */
  lemma VoteLogSource(s: State, a: Action, t: nat, v: NodeId)
    requires Inv(s) && Enabled(s, a) && (t, v) in s.h.votes && (t, v) in HistoryAfter(s, a).voteLogs
    ensures (t, v) in s.h.voteLogs
  {
    VoteHasLog(s, t, v);
    VoteLogsRecorded(s, a);
  }

  lemma VoteHasLog(s: State, t: nat, v: NodeId)
    requires Shape(s) && Votes(s) && (t, v) in s.h.votes
    ensures t !in s.h.leaders ==> (t, v) in s.h.voteLogs
  {
    assert VoteOk(s, t, v);
  }

  lemma VoteLogsRecorded(s: State, a: Action)
    requires Enabled(s, a)
    ensures forall t, v | (t, v) in HistoryAfter(s, a).voteLogs && (t, v) !in s.h.voteLogs :: t !in s.h.leaders
  {
  }

  lemma VotesKept(s: State, a: Action)
    requires Inv(s) && Enabled(s, a) && Grows(s, After(s, a))
    ensures Shape(After(s, a)) && Votes(After(s, a))
  {
    var s' := After(s, a);
    ShapeKept(s, a);
    forall t, v | (t, v) in s'.h.votes ensures VoteOk(s', t, v) {
      if (t, v) in s.h.votes {
        if (t, v) in s'.h.voteLogs { VoteLogSource(s, a, t, v); }
        OldVoteOk(s, a, t, v);
      } else if a.DoWin? {
        WinnerVoteOk(s, a);
      } else {
        GrantedVoteOk(s, a);
      }
    }
    forall t, v | (t, v) in s'.h.voteLogs ensures VoterOk(s', t, v) {
      VoterKept(s, a, t, v);
    }
  }

  lemma VoterKept(s: State, a: Action, t: nat, v: NodeId)
    requires Inv(s) && Enabled(s, a) && Grows(s, After(s, a))
    requires (t, v) in After(s, a).h.voteLogs
    ensures VoterOk(After(s, a), t, v)
  {
    var s' := After(s, a);
    if (t, v) in s.h.voteLogs {
      assert VoterOk(s, t, v);
      TracedGrown(s.h.voteLogs[(t, v)], s.h.logs, s'.h.logs);
    } else {
      assert NodeOk(s.nodes[a.n], s.h.logs);
      TracedGrown(s.nodes[a.n].log, s.h.logs, s'.h.logs);
    }
  }

  // ----- elections -----

  lemma OldElectionOk(s: State, s': State, t: nat)
    requires Shape(s) && Leaders(s) && Elections(s) && Nodes(s) && Grows(s, s')
    requires t in s.h.leaders && t in s'.h.logs
    ensures ElectionOk(s', t)
  {
    assert ElectionOk(s, t);
    var c := s.h.leaders[t];
    assert NodeOk(s.nodes[c], s.h.logs);
    PrefixTrans(s.h.candidacies[(t, c)].log, s.h.logs[t], s'.h.logs[t]);
  }

  lemma NewElectionOk(s: State, a: Action)
    requires Inv(s) && Enabled(s, a) && Grows(s, After(s, a)) && a.DoWin?
    ensures ElectionOk(After(s, a), s.nodes[a.n].term)
  {
    var s' := After(s, a);
    var x := s.nodes[a.n];
    var t := x.term;
    WinIsFresh(s, a.n, a.quorum);
    assert RoleOk(s, x) && NodeOk(x, s.h.logs);
    forall v | v in a.quorum
      ensures (t, v) in s'.h.votes && s'.h.votes[(t, v)] == a.n && (t, v) in s'.h.voteLogs
    {
      QuorumVotedForWinner(s, a.n, a.quorum, v);
      if (t, v) in s.h.votes { assert VoteOk(s, t, v); }
    }
  }

  lemma ElectionsKept(s: State, a: Action)
    requires Inv(s) && Enabled(s, a) && Grows(s, After(s, a)) && Leaders(After(s, a))
    ensures Elections(After(s, a))
  {
    var s' := After(s, a);
    forall t | t in s'.h.leaders ensures ElectionOk(s', t) {
      if t in s.h.leaders {
        OldElectionOk(s, s', t);
      } else {
        NewElectionOk(s, a);
      }
    }
  }
}
