/** Every action only extends the history. */
module StepGrows {
  import opened RaftTypes
  import opened NodeSpec
  import opened LeaderLogs
  import opened Cluster
  import opened Invariant
  import opened LeaderCompleteness

  lemma ShapeKept(s: State, a: Action)
    requires Shape(s) && Enabled(s, a)
    ensures Shape(After(s, a))
  {
  }

  lemma SavedTermGrows(s: State, a: Action)
    requires Shape(s) && Nodes(s) && Enabled(s, a)
    ensures s.nodes[a.n].disk.term <= NodeAfter(s, a).disk.term
  {
    assert NodeOk(s.nodes[a.n], s.h.logs);
  }

  /** Votes recorded for the members of a winner's quorum all went to the winner. */
  lemma QuorumVotedForWinner(s: State, n: NodeId, q: set<NodeId>, v: NodeId)
    requires Inv(s) && Enabled(s, DoWin(n, q)) && v in q
    ensures v != n ==> (s.nodes[n].term, v) in s.h.votes
    ensures (s.nodes[n].term, v) in s.h.votes ==> s.h.votes[(s.nodes[n].term, v)] == n
  {
    var t := s.nodes[n].term;
    assert RoleOk(s, s.nodes[n]) && NodeOk(s.nodes[n], s.h.logs);
    if v != n {
      assert MsgOk(s, VoteAnswer(v, n, t, VoteReply(t, true)));
    } else if (t, n) in s.h.votes {
      assert VoteOk(s, t, n);
    }
  }

  /** A candidate that counts a quorum wins a term that has no leader yet. */
  lemma WinIsFresh(s: State, n: NodeId, q: set<NodeId>)
    requires Inv(s) && Enabled(s, DoWin(n, q))
    ensures s.nodes[n].term !in s.h.leaders
  {
    var t := s.nodes[n].term;
    assert RoleOk(s, s.nodes[n]);
    if t in s.h.leaders {
      assert ElectionOk(s, t);
      var v := QuorumsMeet(s.config, q, s.h.electors[t]);
      QuorumVotedForWinner(s, n, q, v);
      assert false;
    }
  }

  /** A node that has voted in its current term can only repeat that vote. */
  lemma OneVote(s: State, n: NodeId, t: nat)
    requires Shape(s) && Votes(s) && Nodes(s) && n in s.config
    requires (t, n) in s.h.votes && s.nodes[n].term <= t
    ensures s.nodes[n].term == t && s.nodes[n].votedFor == s.h.votes[(t, n)]
  {
    assert VoteOk(s, t, n);
    assert NodeOk(s.nodes[n], s.h.logs);
  }

  ghost predicate HistoryGrows(s: State, h: History, h': History)
    requires Shape(s)
  {
    && Grown(h.logs, h'.logs)
    && (forall t | t in h.leaders :: t in h'.leaders && h'.leaders[t] == h.leaders[t])
    && (forall t | t in h.electors :: t in h'.electors && h'.electors[t] == h.electors[t])
    && (forall k | k in h.votes :: k in h'.votes && h'.votes[k] == h.votes[k])
    && (forall k | k in h.voteLogs :: k in h'.voteLogs && h'.voteLogs[k] == h.voteLogs[k])
    && (forall k | k in h.acks :: k in h'.acks && h'.acks[k] >= h.acks[k])
    && h.commits <= h'.commits
    && (forall k | k in h.candidacies :: k in h'.candidacies)
    && (forall u, c | (u, c) in h.candidacies && c in s.config && u <= s.nodes[c].term ::
          h'.candidacies[(u, c)] == h.candidacies[(u, c)])
  }

  lemma GrownRefl(ll: LogMap)
    ensures Grown(ll, ll)
  {
  }

  /** Actions that write nothing to the history but what is named. */
  lemma LeadersUntouched(s: State, a: Action)
    requires Enabled(s, a) && !a.DoWin? && (a.DoPropose? ==> !Propose(s.nodes[a.n], a.proposal).1.Accepted?)
    ensures HistoryAfter(s, a).logs == s.h.logs && HistoryAfter(s, a).leaders == s.h.leaders
    ensures HistoryAfter(s, a).electors == s.h.electors
  {
    match a {
      case DoHandleVote(_, _) =>
      case DoHandleAppend(_, _) =>
      case DoHandleAppendAnswer(_, _) =>
      case DoPropose(_, _) =>
      case _ =>
    }
  }

  /** An accepted proposal extends the log of the proposer's term and no other. */
  lemma ProposeTouchesOwnTerm(s: State, a: Action)
    requires a.DoPropose? && Enabled(s, a) && Propose(s.nodes[a.n], a.proposal).1.Accepted?
    ensures
      var x, y, h' := s.nodes[a.n], NodeAfter(s, a), HistoryAfter(s, a);
      && h'.leaders == s.h.leaders && h'.logs == s.h.logs[x.term := y.log]
      && x.role == Leader == y.role && y.id == x.id && y.term == x.term && y.disk == x.disk
      && y.leading == x.leading && x.log <= y.log
  {
  }

  lemma WinTouchesOwnTerm(s: State, a: Action)
    requires a.DoWin? && Enabled(s, a)
    ensures HistoryAfter(s, a).leaders == s.h.leaders[s.nodes[a.n].term := a.n]
    ensures HistoryAfter(s, a).logs == s.h.logs[s.nodes[a.n].term := s.nodes[a.n].log]
  {
  }

  lemma RecordVoteGrows(s: State, t: nat, v: NodeId, c: NodeId, log: seq<Entry>)
    requires Shape(s) && ((t, v) in s.h.votes ==> s.h.votes[(t, v)] == c)
    ensures HistoryGrows(s, s.h, RecordVote(s.h, t, v, c, log))
  {
    GrownRefl(s.h.logs);
  }

  /** A granted vote is the node's first in that term or a repetition. */
  lemma GrantRepeats(x: NodeState, args: VoteArgs, c: NodeId)
    requires HandleVote(x, args).1.granted && x.term == args.term && x.votedFor == c != NO_NODE
    ensures args.candidate == c
  {
  }

  lemma GrantNeedsTerm(x: NodeState, args: VoteArgs)
    requires HandleVote(x, args).1.granted
    ensures x.term <= args.term
  {
  }

  lemma VoteGrows(s: State, a: Action)
    requires Shape(s) && Nodes(s) && Votes(s) && a.DoHandleVote? && Enabled(s, a)
    ensures HistoryGrows(s, s.h, HistoryAfter(s, a))
  {
    var x, args := s.nodes[a.n], a.ask;
    if HandleVote(x, args).1.granted {
      GrantNeedsTerm(x, args);
      if (args.term, a.n) in s.h.votes {
        OneVote(s, a.n, args.term);
        assert VoteOk(s, args.term, a.n);
        GrantRepeats(x, args, s.h.votes[(args.term, a.n)]);
      }
      RecordVoteGrows(s, args.term, a.n, args.candidate, x.log);
    } else {
      NothingGrows(s);
    }
  }

  lemma RecordAckGrows(s: State, t: nat, n: NodeId, upTo: nat)
    requires Shape(s)
    ensures HistoryGrows(s, s.h, RecordAck(s.h, t, n, upTo))
  {
    GrownRefl(s.h.logs);
  }

  lemma NothingGrows(s: State)
    requires Shape(s)
    ensures HistoryGrows(s, s.h, s.h)
  {
    GrownRefl(s.h.logs);
  }

  lemma CandidacyGrows(s: State, n: NodeId, c: Candidacy)
    requires Shape(s) && n in s.config
    ensures HistoryGrows(s, s.h, s.h.(candidacies := s.h.candidacies[(s.nodes[n].term + 1, n) := c]))
  {
    GrownRefl(s.h.logs);
  }

  lemma CommitGrows(s: State, t: nat, i: nat)
    requires Shape(s)
    ensures HistoryGrows(s, s.h, s.h.(commits := s.h.commits + {(t, i)}))
  {
    GrownRefl(s.h.logs);
  }

  /** The remaining actions add a candidacy of a new term, a commitment, or nothing. */
  lemma OtherGrows(s: State, a: Action)
    requires Shape(s) && Enabled(s, a)
    requires !a.DoHandleVote? && !a.DoWin? && !a.DoPropose? && !a.DoHandleAppend?
    ensures HistoryGrows(s, s.h, HistoryAfter(s, a))
  {
    NothingGrows(s);
    if a.DoBecomeCandidate? {
      CandidacyGrows(s, a.n, Candidacy(a.basis, s.nodes[a.n].log));
    } else if a.DoHandleAppendAnswer? {
      CommitGrows(s, s.nodes[a.n].term, NodeAfter(s, a).commit);
    }
  }

  lemma AckNeedsLeader(s: State, t: nat, n: NodeId)
    requires Shape(s) && Acks(s)
    ensures (t, n) in s.h.acks ==> t in s.h.logs
  {
    if (t, n) in s.h.acks {
      assert AckOk(s, t, n);
    }
  }

  lemma WinGrows(s: State, a: Action)
    requires Inv(s) && a.DoWin? && Enabled(s, a)
    ensures HistoryGrows(s, s.h, HistoryAfter(s, a))
  {
    WinIsFresh(s, a.n, a.quorum);
    QuorumVotedForWinner(s, a.n, a.quorum, a.n);
    AckNeedsLeader(s, s.nodes[a.n].term, a.n);
  }

  lemma ProposeGrows(s: State, a: Action)
    requires Shape(s) && Roles(s) && Matches(s) && a.DoPropose? && Enabled(s, a)
    ensures HistoryGrows(s, s.h, HistoryAfter(s, a))
  {
    var x := s.nodes[a.n];
    if x.role == Leader {
      assert RoleOk(s, x) && MatchOk(s, x);
      assert x.log <= Propose(x, a.proposal).0.log;
    }
  }

  lemma AppendGrows(s: State, a: Action)
    requires Shape(s) && a.DoHandleAppend? && Enabled(s, a)
    ensures HistoryGrows(s, s.h, HistoryAfter(s, a))
  {
    if HandleAppend(s.nodes[a.n], a.args).1.success {
      RecordAckGrows(s, a.args.term, a.n, a.args.prevIndex + |a.args.entries|);
    } else {
      NothingGrows(s);
    }
  }

  lemma HistoryOnlyGrows(s: State, a: Action)
    requires Inv(s) && Enabled(s, a)
    ensures HistoryGrows(s, s.h, HistoryAfter(s, a))
  {
    match a
    case DoHandleVote(_, _) => VoteGrows(s, a);
    case DoWin(_, _) => WinGrows(s, a);
    case DoPropose(_, _) => ProposeGrows(s, a);
    case DoHandleAppend(_, _) => AppendGrows(s, a);
    case _ => OtherGrows(s, a);
  }

  lemma EveryStepGrows(s: State, a: Action)
    requires Inv(s) && Enabled(s, a)
    ensures Grows(s, After(s, a))
  {
    ShapeKept(s, a);
    SavedTermGrows(s, a);
    HistoryOnlyGrows(s, a);
  }
}
