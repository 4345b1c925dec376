/** Every action keeps leaders, candidates and ballots consistent with the history. */
module StepRoles {
  import opened RaftTypes
  import opened NodeSpec
  import opened LeaderLogs
  import opened Cluster
  import opened Invariant
  import opened StepGrows
  import opened StepLogs

  /** What a bystander's role depends on does not change. */
  lemma BystanderRoleOk(s: State, a: Action, n: NodeId)
    requires Inv(s) && Enabled(s, a) && Grows(s, After(s, a))
    requires n in s.config && n != a.n
    ensures RoleOk(After(s, a), s.nodes[n])
  {
    var x := s.nodes[n];
    assert RoleOk(s, x) && RoleOk(s, s.nodes[a.n]);
    if a.DoWin? {
      WinIsFresh(s, a.n, a.quorum);
      WinTouchesOwnTerm(s, a);
    } else if a.DoPropose? && Propose(s.nodes[a.n], a.proposal).1.Accepted? {
      ProposeTouchesOwnTerm(s, a);
    } else {
      LeadersUntouched(s, a);
    }
    UnmovedRoleOk(s, After(s, a), n);
  }

  lemma UnmovedRoleOk(s: State, s': State, n: NodeId)
    requires Shape(s) && Grows(s, s') && n in s.config && RoleOk(s, s.nodes[n])
    requires var x := s.nodes[n];
             && (x.role == Leader ==> x.term in s'.h.logs && s'.h.logs[x.term] == s.h.logs[x.term])
             && (x.role == Candidate && x.term in s'.h.leaders ==> s'.h.leaders[x.term] != x.id)
    ensures RoleOk(s', s.nodes[n])
  {
    var x := s.nodes[n];
    forall b | b in x.ballots ensures BallotOk(s', x, b) {
      assert BallotOk(s, x, b);
    }
  }

  /** Only a new candidacy adds a ballot. */
  lemma BallotsInherited(s: State, a: Action)
    requires Enabled(s, a) && !a.DoBecomeCandidate?
    ensures
      var x, y := s.nodes[a.n], NodeAfter(s, a);
      y.id == x.id && (y.ballots == {} || (y.ballots == x.ballots && x.term <= y.term))
  {
  }

  lemma BallotKept(s: State, s': State, x: NodeState, y: NodeState, b: Ballot)
    requires Shape(s) && Grows(s, s') && x.id in s.config && s.nodes[x.id] == x
    requires BallotOk(s, x, b) && y.id == x.id && x.term <= y.term
    ensures BallotOk(s', y, b)
  {
  }

  lemma BallotsKept(s: State, a: Action)
    requires Inv(s) && Enabled(s, a) && Grows(s, After(s, a)) && !a.DoBecomeCandidate?
    ensures forall b | b in NodeAfter(s, a).ballots :: BallotOk(After(s, a), NodeAfter(s, a), b)
  {
    var x, y := s.nodes[a.n], NodeAfter(s, a);
    BallotsInherited(s, a);
    assert RoleOk(s, x);
    forall b | b in y.ballots ensures BallotOk(After(s, a), y, b) {
      assert BallotOk(s, x, b);
      BallotKept(s, After(s, a), x, y, b);
    }
  }

  lemma NewBallotKept(s: State, a: Action)
    requires Inv(s) && Enabled(s, a) && Grows(s, After(s, a)) && a.DoBecomeCandidate?
    ensures forall b | b in NodeAfter(s, a).ballots :: BallotOk(After(s, a), NodeAfter(s, a), b)
  {
    var x, y := s.nodes[a.n], NodeAfter(s, a);
    assert RoleOk(s, x);
    forall b | b in y.ballots ensures BallotOk(After(s, a), y, b) {
      if b in x.ballots {
        assert BallotOk(s, x, b);
        BallotKept(s, After(s, a), x, y, b);
      }
    }
  }

  /** The role survives an action that leaves role, term, vote and log alone. */
  ghost predicate SameStanding(x: NodeState, y: NodeState) {
    && y.id == x.id && y.role == x.role && y.term == x.term && y.votedFor == x.votedFor && y.log == x.log
    && (y.disk == x.disk || y.disk == Disk(y.term, y.votedFor))
    && y.leading == x.leading
  }

  lemma StandingKept(s: State, a: Action)
    requires Inv(s) && Enabled(s, a) && Grows(s, After(s, a))
    requires SameStanding(s.nodes[a.n], NodeAfter(s, a)) && !a.DoWin? && !a.DoBecomeCandidate?
    requires a.DoPropose? ==> !Propose(s.nodes[a.n], a.proposal).1.Accepted?
    ensures RoleOk(After(s, a), NodeAfter(s, a))
  {
    assert RoleOk(s, s.nodes[a.n]);
    BallotsKept(s, a);
    LeadersUntouched(s, a);
    StandingKeptIn(s, After(s, a), s.nodes[a.n], NodeAfter(s, a));
  }

  lemma StandingKeptIn(s: State, s': State, x: NodeState, y: NodeState)
    requires Shape(s) && Grows(s, s') && s'.h.leaders == s.h.leaders && s'.h.logs == s.h.logs
    requires x.id in s.config && s.nodes[x.id] == x && RoleOk(s, x) && SameStanding(x, y)
    requires forall b | b in y.ballots :: BallotOk(s', y, b)
    ensures RoleOk(s', y)
  {
  }

  lemma CandidateRoleOk(s: State, a: Action)
    requires Inv(s) && Enabled(s, a) && Grows(s, After(s, a)) && a.DoBecomeCandidate?
    ensures RoleOk(After(s, a), NodeAfter(s, a))
  {
    var x := s.nodes[a.n];
    assert NodeOk(x, s.h.logs);
    NotLeaderOfUnsavedTerm(s, a.n, x.term + 1);
    NewBallotKept(s, a);
  }

  lemma NotLeaderOfUnsavedTerm(s: State, n: NodeId, t: nat)
    requires Shape(s) && Leaders(s) && Elections(s) && n in s.config && s.nodes[n].disk.term < t
    ensures t in s.h.leaders ==> s.h.leaders[t] != n
  {
    if t in s.h.leaders {
      assert ElectionOk(s, t);
    }
  }

  lemma WinnerRoleOk(s: State, a: Action)
    requires Inv(s) && Enabled(s, a) && Grows(s, After(s, a)) && a.DoWin?
    ensures RoleOk(After(s, a), NodeAfter(s, a))
  {
    BallotsKept(s, a);
  }

  lemma ProposerRoleOk(s: State, a: Action)
    requires Inv(s) && Enabled(s, a) && Grows(s, After(s, a)) && a.DoPropose?
    requires Propose(s.nodes[a.n], a.proposal).1.Accepted?
    ensures RoleOk(After(s, a), NodeAfter(s, a))
  {
    assert RoleOk(s, s.nodes[a.n]);
    BallotsKept(s, a);
    ProposeTouchesOwnTerm(s, a);
    LongerLeaderIn(s, After(s, a), s.nodes[a.n], NodeAfter(s, a));
  }

  lemma LongerLeaderIn(s: State, s': State, x: NodeState, y: NodeState)
    requires LeaderNode(s, x) && s'.config == s.config && s'.h.leaders == s.h.leaders
    requires s'.h.logs == s.h.logs[x.term := y.log] && x.log <= y.log
    requires y.id == x.id && y.term == x.term && y.disk == x.disk && y.leading == x.leading
    ensures LeaderNode(s', y)
  {
  }

  lemma {:induction false} LastOfTermBounded(l: seq<Entry>, term: nat, i: nat)
    ensures LastOfTerm(l, term, i) <= i
    decreases i
  {
    if i > 0 && TermAt(l, i) != term {
      LastOfTermBounded(l, term, i - 1);
    }
  }

  /** An answer that a leader still uses is about a request cut from its present log. */
  lemma AnswerFitsLog(s: State, a: Action)
    requires Inv(s) && Enabled(s, a) && a.DoHandleAppendAnswer?
    requires a.m.reply.term <= s.nodes[a.n].term && s.nodes[a.n].role == Leader
    ensures LeaderNode(s, s.nodes[a.n]) && a.m.peer in s.config - {a.n}
    ensures a.m.args.term == s.nodes[a.n].term && ShipsSuffix(s.nodes[a.n].log, a.m.args)
    ensures Sent(a.m.args).Some? ==> Sent(a.m.args).value == a.m.args.prevIndex + |a.m.args.entries|
    ensures !a.m.reply.success ==> BackOff(s.nodes[a.n].log, a.m.reply) <= |s.nodes[a.n].log| + 1
  {
    var x := s.nodes[a.n];
    assert RoleOk(s, x) && MsgOk(s, a.m);
    assert LeaderOk(s, x.term);
    LastOfTermBounded(x.log, a.m.reply.conflictTerm, |x.log|);
  }

  lemma AnswerRoleOk(s: State, a: Action)
    requires Inv(s) && Enabled(s, a) && Grows(s, After(s, a)) && a.DoHandleAppendAnswer?
    ensures RoleOk(After(s, a), NodeAfter(s, a))
  {
    var x, y := s.nodes[a.n], NodeAfter(s, a);
    assert RoleOk(s, x);
    BallotsKept(s, a);
    LeadersUntouched(s, a);
    AnswerStands(x, a.m.peer, Sent(a.m.args), a.m.reply);
    if y.role == Leader {
      AnswerFitsLog(s, a);
      AnswerNextBounded(x, a.m.peer, a.m.args, a.m.reply);
      LeaderStandsIn(s, After(s, a), x, y);
    } else if y.role == Candidate {
      StandingKeptIn(s, After(s, a), x, y);
    }
  }

  lemma AnswerStands(x: NodeState, peer: NodeId, sent: Option<nat>, reply: AppendReply)
    ensures
      var y := HandleAppendReply(x, peer, sent, reply);
      && (y.role != Follower ==>
            && reply.term <= x.term && y.id == x.id && y.role == x.role && y.term == x.term
            && y.votedFor == x.votedFor && y.log == x.log && y.disk == x.disk)
      && (y.role == Candidate ==> y.leading == x.leading)
  {
  }

  /** A leader's next indices stay within one entry of its log. */
  lemma AnswerNextBounded(x: NodeState, peer: NodeId, args: AppendArgs, reply: AppendReply)
    requires x.role == Leader && reply.term <= x.term && x.leading.Some? && peer in x.leading.value.nextIndex
    requires x.leading.value.matchIndex.Keys == x.leading.value.nextIndex.Keys
    requires forall p | p in x.leading.value.nextIndex :: x.leading.value.nextIndex[p] <= |x.log| + 1
    requires Sent(args).Some? ==> Sent(args).value <= |x.log|
    requires !reply.success ==> BackOff(x.log, reply) <= |x.log| + 1
    ensures
      var y := HandleAppendReply(x, peer, Sent(args), reply);
      && y.leading.Some? && y.leading.value.nextIndex.Keys == x.leading.value.nextIndex.Keys
      && y.leading.value.matchIndex.Keys == x.leading.value.nextIndex.Keys
      && forall p | p in y.leading.value.nextIndex :: y.leading.value.nextIndex[p] <= |x.log| + 1
  {
  }

  lemma LeaderStandsIn(s: State, s': State, x: NodeState, y: NodeState)
    requires LeaderNode(s, x) && s'.config == s.config && s'.h.leaders == s.h.leaders && s'.h.logs == s.h.logs
    requires y.id == x.id && y.term == x.term && y.log == x.log && y.disk.term == x.disk.term
    requires y.leading.Some? && y.leading.value.nextIndex.Keys == y.leading.value.matchIndex.Keys == s.config - {x.id}
    requires forall p | p in y.leading.value.nextIndex :: y.leading.value.nextIndex[p] <= |x.log| + 1
    ensures LeaderNode(s', y)
  {
  }

  lemma FollowerRoleOk(s: State, a: Action)
    requires Inv(s) && Enabled(s, a) && Grows(s, After(s, a))
    requires NodeAfter(s, a).role == Follower && !a.DoBecomeCandidate?
    ensures RoleOk(After(s, a), NodeAfter(s, a))
  {
    BallotsKept(s, a);
  }

  lemma VoterRoleOk(s: State, a: Action)
    requires Inv(s) && Enabled(s, a) && Grows(s, After(s, a)) && a.DoHandleVote?
    ensures RoleOk(After(s, a), NodeAfter(s, a))
  {
    var x, y := s.nodes[a.n], NodeAfter(s, a);
    assert RoleOk(s, x);
    BallotsKept(s, a);
    LeadersUntouched(s, a);
    VoterStands(x, a.ask);
    if y.role == Leader {
      LeaderStandsIn(s, After(s, a), x, y);
    } else if y.role == Candidate {
      StandingKeptIn(s, After(s, a), x, y);
    }
  }

  lemma VoterStands(x: NodeState, args: VoteArgs)
    requires args.candidate != x.id && x.id != NO_NODE && (x.role == Candidate ==> x.votedFor == x.id)
    ensures
      var y := HandleVote(x, args).0;
      && (y.role == Candidate ==> SameStanding(x, y))
      && (y.role == Leader ==>
            && x.role == Leader && y.id == x.id && y.term == x.term && y.log == x.log && y.leading == x.leading
            && (y.disk == x.disk || y.disk.term == y.term))
  {
  }

  ghost predicate Settled(a: Action) {
    !a.DoBecomeCandidate? && !a.DoHandleVote? && !a.DoWin? && !a.DoPropose? && !a.DoHandleAppendAnswer?
  }

  lemma StaysOrFollows(s: State, a: Action)
    requires Enabled(s, a) && Settled(a)
    ensures NodeAfter(s, a).role == Follower || SameStanding(s.nodes[a.n], NodeAfter(s, a))
  {
  }

  lemma SettledRoleOk(s: State, a: Action)
    requires Inv(s) && Enabled(s, a) && Grows(s, After(s, a)) && Settled(a)
    ensures RoleOk(After(s, a), NodeAfter(s, a))
  {
    StaysOrFollows(s, a);
    if NodeAfter(s, a).role == Follower {
      FollowerRoleOk(s, a);
    } else {
      StandingKept(s, a);
    }
  }

  lemma ActingRoleOk(s: State, a: Action)
    requires Inv(s) && Enabled(s, a) && Grows(s, After(s, a))
    ensures RoleOk(After(s, a), NodeAfter(s, a))
  {
    if a.DoBecomeCandidate? {
      CandidateRoleOk(s, a);
    } else if a.DoHandleVote? {
      VoterRoleOk(s, a);
    } else if a.DoWin? {
      WinnerRoleOk(s, a);
    } else if a.DoHandleAppendAnswer? {
      AnswerRoleOk(s, a);
    } else if a.DoPropose? {
      if Propose(s.nodes[a.n], a.proposal).1.Accepted? {
        ProposerRoleOk(s, a);
      } else {
        StandingKept(s, a);
      }
    } else {
      SettledRoleOk(s, a);
    }
  }

  lemma RolesKept(s: State, a: Action)
    requires Inv(s) && Enabled(s, a) && Grows(s, After(s, a))
    ensures Shape(After(s, a)) && Roles(After(s, a))
  {
    var s' := After(s, a);
    ShapeKept(s, a);
    ActingRoleOk(s, a);
    forall n | n in s'.config ensures RoleOk(s', s'.nodes[n]) {
      if n != a.n {
        BystanderRoleOk(s, a, n);
      }
    }
  }
}
