/** Every action keeps the messages truthful and the state machines in step with the logs. */
module StepMsgs {
  import opened RaftTypes
  import opened NodeSpec
  import opened LeaderLogs
  import opened Cluster
  import opened Invariant
  import opened StepGrows
  import opened StepLogs
  import opened StepRoles
  import opened StepAcks
  import opened StepCommits

  // ----- messages already sent -----

  lemma OldRequestOk(s: State, s': State, peer: NodeId, args: AppendArgs)
    requires Shape(s) && Grows(s, s') && RequestOk(s, peer, args)
    ensures RequestOk(s', peer, args)
  {
    var l, l' := s.h.logs[args.term], s'.h.logs[args.term];
    CoveredGrown(s, s', l, l', args.commit, args.term, args.term);
  }

  lemma OldMsgOk(s: State, s': State, m: Msg)
    requires Shape(s) && Shape(s') && Nodes(s) && Grows(s, s') && MsgOk(s, m)
    ensures MsgOk(s', m)
  {
    match m
    case VoteRequest(ask) => assert NodeOk(s.nodes[ask.candidate], s.h.logs);
    case VoteAnswer(v, c, t, reply) =>
    case AppendRequest(peer, args) => OldRequestOk(s, s', peer, args);
    case AppendAnswer(peer, args, reply) => OldRequestOk(s, s', peer, args);
  }

  // ----- new messages -----

  lemma NewVoteRequestOk(s: State, a: Action, m: Msg)
    requires Inv(s) && Enabled(s, a) && Grows(s, After(s, a)) && Shape(After(s, a))
    requires a.DoRequestVotes? && m in Emitted(s, a)
    ensures MsgOk(After(s, a), m)
  {
    assert RoleOk(s, s.nodes[a.n]);
    assert BallotOk(s, s.nodes[a.n], a.ballot);
  }

  lemma NewVoteAnswerOk(s: State, a: Action, m: Msg)
    requires Inv(s) && Enabled(s, a) && Grows(s, After(s, a)) && Shape(After(s, a))
    requires a.DoHandleVote? && m in Emitted(s, a)
    ensures MsgOk(After(s, a), m)
  {
  }

  lemma CoveredLess(h: History, l: seq<Entry>, c: nat, d: nat, hi: nat)
    requires Covered(h, l, c, hi) && d <= c
    ensures Covered(h, l, d, hi)
  {
    if d > 0 {
      var t, i :| (t, i) in h.commits && CoveredBy(h, l, c, hi, t, i);
      assert l[..d] == l[..c][..d];
      assert CoveredBy(h, l, d, hi, t, i);
    }
  }

  /** replicateTo ships the whole suffix, so its commit index stays within the last entry shipped. */
  lemma SuffixShipped(x: NodeState, peer: NodeId, commit: nat)
    requires x.leading.Some? && peer in x.leading.value.nextIndex
    requires 1 <= x.leading.value.nextIndex[peer] <= |x.log| + 1 && commit <= |x.log|
    ensures ShipsSuffix(x.log, BuildAppend(x, peer, commit))
  {
  }

  lemma NewRequestOk(s: State, a: Action, m: Msg)
    requires Inv(s) && Enabled(s, a) && Grows(s, After(s, a)) && Shape(After(s, a))
    requires a.DoSendAppend? && m in Emitted(s, a)
    ensures MsgOk(After(s, a), m)
  {
    var x := s.nodes[a.n];
    assert RoleOk(s, x) && NodeOk(x, s.h.logs) && CommitKnown(s.h, x);
    CoveredLess(s.h, x.log, x.commit, a.commit, x.term);
    SuffixShipped(x, a.peer, a.commit);
    OldRequestOk(s, After(s, a), a.peer, BuildAppend(x, a.peer, a.commit));
  }

  lemma {:induction false} ConflictStartBounded(l: seq<Entry>, term: nat, i: nat)
    ensures ConflictStart(l, term, i) <= i + 1
    decreases i
  {
    if i > 0 && TermAt(l, i) == term {
      ConflictStartBounded(l, term, i - 1);
    }
  }

  /** A rejection never points beyond the previous index of the request. */
  lemma RejectionBounded(x: NodeState, args: AppendArgs)
    ensures var r := HandleAppend(x, args).1; !r.success ==> r.conflictIndex <= args.prevIndex
  {
    if 0 < args.prevIndex <= |x.log| {
      ConflictStartBounded(x.log, TermAt(x.log, args.prevIndex), args.prevIndex - 1);
    }
  }

  lemma NewAppendAnswerOk(s: State, a: Action, m: Msg)
    requires Inv(s) && Enabled(s, a) && Grows(s, After(s, a)) && Shape(After(s, a))
    requires a.DoHandleAppend? && m in Emitted(s, a)
    ensures MsgOk(After(s, a), m)
  {
    assert MsgOk(s, AppendRequest(a.n, a.args));
    OldRequestOk(s, After(s, a), a.n, a.args);
    RejectionBounded(s.nodes[a.n], a.args);
  }

  lemma MsgsKept(s: State, a: Action)
    requires Inv(s) && Enabled(s, a) && Grows(s, After(s, a)) && Shape(After(s, a))
    ensures Msgs(After(s, a))
  {
    var s' := After(s, a);
    forall m | m in s'.msgs ensures MsgOk(s', m) {
      if m in s.msgs {
        assert MsgOk(s, m);
        OldMsgOk(s, s', m);
      } else if a.DoRequestVotes? {
        NewVoteRequestOk(s, a, m);
      } else if a.DoHandleVote? {
        NewVoteAnswerOk(s, a, m);
      } else if a.DoSendAppend? {
        NewRequestOk(s, a, m);
      } else {
        NewAppendAnswerOk(s, a, m);
      }
    }
  }

  // ----- applying -----

  lemma ApplyDelivered(s: State, a: Action)
    requires Inv(s) && Succeeds(s, a)
    ensures ApplyOk(NodeAfter(s, a))
  {
    var x, y := s.nodes[a.n], NodeAfter(s, a);
    assert ApplyOk(x);
    SuccessDelivers(s, a);
    DeliveredCommit(s, a.n, a.args);
    forall i | 0 <= i <= x.commit ensures x.log[..i] == y.log[..i] {
      assert x.log[..i] == x.log[..x.commit][..i];
      assert y.log[..i] == y.log[..x.commit][..i];
    }
  }

  lemma ApplyFetched(x: NodeState)
    requires ApplyOk(x) && x.job.Picked?
    ensures ApplyOk(FetchApply(x))
  {
    assert x.log[..x.applied] + x.log[x.applied..x.job.upTo] == x.log[..x.job.upTo];
  }

  lemma ApplyExtended(x: NodeState, y: NodeState)
    requires ApplyOk(x) && x.log <= y.log && x.commit <= y.commit <= |y.log|
    requires y.applied == x.applied && y.job == x.job && y.machine == x.machine
    ensures ApplyOk(y)
  {
    forall i | 0 <= i <= |x.log| ensures x.log[..i] == y.log[..i] {
    }
  }

  lemma ApplyUntouched(s: State, a: Action)
    requires Enabled(s, a) && !Succeeds(s, a)
    requires !a.DoPickApply? && !a.DoFetchApply? && !a.DoFinishApply? && !a.DoCrash? && !a.DoHandleAppendAnswer?
    ensures
      var x, y := s.nodes[a.n], NodeAfter(s, a);
      && x.log <= y.log && y.applied == x.applied && y.job == x.job && y.machine == x.machine
      && (y.commit == x.commit || (Proposes(s, a) && y.commit == |y.log|))
  {
  }

  lemma AnswerUntouched(x: NodeState, peer: NodeId, sent: Option<nat>, reply: AppendReply)
    requires x.commit <= |x.log|
    ensures
      var y := HandleAppendReply(x, peer, sent, reply);
      && y.log == x.log && y.applied == x.applied && y.job == x.job && y.machine == x.machine
      && x.commit <= y.commit <= |y.log|
  {
    if HandleAppendReply(x, peer, sent, reply).commit != x.commit {
      AnswerAdvances(x, peer, sent, reply);
    }
  }

  lemma ApplyMoves(s: State, a: Action)
    requires Enabled(s, a) && ApplyOk(s.nodes[a.n])
    requires a.DoPickApply? || a.DoFetchApply? || a.DoFinishApply? || a.DoCrash?
    ensures ApplyOk(NodeAfter(s, a))
  {
    if a.DoFetchApply? { ApplyFetched(s.nodes[a.n]); }
  }

  lemma ActingApplyOk(s: State, a: Action)
    requires Inv(s) && Enabled(s, a)
    ensures ApplyOk(NodeAfter(s, a))
  {
    var x, y := s.nodes[a.n], NodeAfter(s, a);
    assert ApplyOk(x);
    if Succeeds(s, a) {
      ApplyDelivered(s, a);
    } else if a.DoPickApply? || a.DoFetchApply? || a.DoFinishApply? || a.DoCrash? {
      ApplyMoves(s, a);
    } else {
      if a.DoHandleAppendAnswer? {
        AnswerUntouched(x, a.m.peer, Sent(a.m.args), a.m.reply);
      } else {
        ApplyUntouched(s, a);
      }
      ApplyExtended(x, y);
    }
  }

  lemma AppliesKept(s: State, a: Action)
    requires Inv(s) && Enabled(s, a) && Shape(After(s, a))
    ensures Applies(After(s, a))
  {
    var s' := After(s, a);
    ActingApplyOk(s, a);
    forall n | n in s'.config ensures ApplyOk(s'.nodes[n]) {
      if n != a.n {
        assert ApplyOk(s.nodes[n]);
      }
    }
  }
}
