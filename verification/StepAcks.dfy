/** Every action keeps what nodes held, acknowledged and counted consistent with the history. */
module StepAcks {
  import opened RaftTypes
  import opened NodeSpec
  import opened LeaderLogs
  import opened Cluster
  import opened Invariant
  import opened StepGrows
  import opened StepLogs
  import opened StepRoles

  // ----- how the acting node's log changes -----

  ghost predicate Proposes(s: State, a: Action) {
    a.DoPropose? && Enabled(s, a) && Propose(s.nodes[a.n], a.proposal).1.Accepted?
  }

  lemma QuietLog(s: State, a: Action)
    requires Enabled(s, a) && !Succeeds(s, a) && !Proposes(s, a)
    ensures NodeAfter(s, a).log == s.nodes[a.n].log
  {
  }

  lemma SuccessSaves(s: State, a: Action)
    requires Inv(s) && Succeeds(s, a)
    ensures Delivers(s, a.n, a.args)
    ensures NodeAfter(s, a).disk.term == a.args.term && s.nodes[a.n].disk.term <= a.args.term
    ensures NodeAfter(s, a).log == if Shipped(s, a.args) <= s.nodes[a.n].log then s.nodes[a.n].log else Shipped(s, a.args)
    ensures Shipped(s, a.args) <= s.h.logs[a.args.term]
  {
    SuccessDelivers(s, a);
    assert NodeOk(s.nodes[a.n], s.h.logs);
    AppendReplaces(s, a.n, a.args);
  }

  /** Whatever a node held before an action it holds after it, or a leader overruled it. */
  lemma HeldKept(s: State, a: Action, p: seq<Entry>)
    requires Inv(s) && Enabled(s, a) && Grows(s, After(s, a))
    requires HeldOk(s.nodes[a.n], p, s.h.logs)
    ensures HeldOk(NodeAfter(s, a), p, After(s, a).h.logs)
  {
    var x, y := s.nodes[a.n], NodeAfter(s, a);
    var ll, ll' := s.h.logs, After(s, a).h.logs;
    SavedTermGrows(s, a);
    TracedGrown(p, ll, ll');
    if Succeeds(s, a) {
      SuccessSaves(s, a);
      if !(Shipped(s, a.args) <= x.log) {
        KeptReplace(p, x.log, Shipped(s, a.args), x.disk.term, a.args.term, ll);
      }
    } else if Proposes(s, a) {
      KeptExtend(p, x.log, y.log, x.disk.term, ll);
    } else {
      QuietLog(s, a);
    }
    KeptGrown(p, y.log, if Succeeds(s, a) && y.log != x.log then y.disk.term else x.disk.term, y.disk.term, ll, ll');
  }

  lemma BystanderHeld(s: State, s': State, x: NodeState, p: seq<Entry>)
    requires Shape(s) && Grows(s, s') && HeldOk(x, p, s.h.logs)
    ensures HeldOk(x, p, s'.h.logs)
  {
    TracedGrown(p, s.h.logs, s'.h.logs);
    KeptGrown(p, x.log, x.disk.term, x.disk.term, s.h.logs, s'.h.logs);
  }

  // ----- positions read -----

  lemma SeenSource(s: State, a: Action, p: seq<Entry>)
    requires Enabled(s, a) && p in NodeAfter(s, a).seen
    ensures p in s.nodes[a.n].seen || p == s.nodes[a.n].log
  {
  }

  lemma ReadsKept(s: State, a: Action)
    requires Inv(s) && Enabled(s, a) && Grows(s, After(s, a))
    ensures Shape(After(s, a)) && Reads(After(s, a))
  {
    var s' := After(s, a);
    ShapeKept(s, a);
    forall n, p | n in s'.config && p in s'.nodes[n].seen ensures HeldOk(s'.nodes[n], p, s'.h.logs) {
      if n != a.n {
        assert HeldOk(s.nodes[n], p, s.h.logs);
        BystanderHeld(s, s', s.nodes[n], p);
      } else {
        SeenSource(s, a, p);
        OwnLogHeld(s, n);
        assert HeldOk(s.nodes[n], p, s.h.logs);
        HeldKept(s, a, p);
      }
    }
  }

  lemma OwnLogHeld(s: State, n: NodeId)
    requires Shape(s) && Nodes(s) && n in s.config
    ensures HeldOk(s.nodes[n], s.nodes[n].log, s.h.logs)
  {
    assert NodeOk(s.nodes[n], s.h.logs);
    KeptPrefix(s.nodes[n].log, s.nodes[n].log, s.nodes[n].disk.term, s.h.logs);
  }

  // ----- acknowledgements -----

  lemma BystanderAck(s: State, a: Action, t: nat, n: NodeId)
    requires Inv(s) && Enabled(s, a) && Grows(s, After(s, a)) && Shape(After(s, a))
    requires (t, n) in s.h.acks && n != a.n && After(s, a).h.acks[(t, n)] == s.h.acks[(t, n)]
    ensures AckOk(After(s, a), t, n)
  {
    UnmovedAck(s, After(s, a), t, n);
  }

  lemma UnmovedAck(s: State, s': State, t: nat, n: NodeId)
    requires Shape(s) && Acks(s) && Shape(s') && Grows(s, s') && (t, n) in s.h.acks
    requires n in s.config ==> s'.nodes[n] == s.nodes[n]
    requires s'.h.acks[(t, n)] == s.h.acks[(t, n)]
    ensures AckOk(s', t, n)
  {
    var m := s.h.acks[(t, n)];
    assert AckOk(s, t, n);
    OldPrefix(s, s', t, m);
    BystanderHeld(s, s', s.nodes[n], s.h.logs[t][..m]);
  }

  /** While a node stays in a term, its log holds what it acknowledged in that term. */
  lemma AckedPrefixStays(s: State, a: Action, t: nat)
    requires Inv(s) && Enabled(s, a) && (t, a.n) in s.h.acks
    ensures AckOk(s, t, a.n)
    ensures t == NodeAfter(s, a).disk.term ==> s.h.logs[t][..s.h.acks[(t, a.n)]] <= NodeAfter(s, a).log
  {
    assert AckOk(s, t, a.n);
    SavedTermGrows(s, a);
    var x, y := s.nodes[a.n], NodeAfter(s, a);
    var m := s.h.acks[(t, a.n)];
    if t == y.disk.term {
      if Succeeds(s, a) {
        SuccessSaves(s, a);
        assert x.log[..m] == s.h.logs[t][..m];
        ReplaceKeepsPrefix(x.log, Shipped(s, a.args), s.h.logs[t], m);
        assert y.log[..m] == x.log[..m];
      } else if !Proposes(s, a) {
        QuietLog(s, a);
      }
    }
  }

  lemma AckFromParts(s: State, t: nat, n: NodeId, p: seq<Entry>)
    requires Shape(s) && (t, n) in s.h.acks && n in s.config && t in s.h.logs
    requires s.h.acks[(t, n)] <= |s.h.logs[t]| && p == s.h.logs[t][..s.h.acks[(t, n)]]
    requires t <= s.nodes[n].disk.term && HeldOk(s.nodes[n], p, s.h.logs)
    requires t == s.nodes[n].disk.term ==> p <= s.nodes[n].log
    ensures AckOk(s, t, n)
  {
  }

  lemma OldPrefix(s: State, s': State, t: nat, m: nat)
    requires Shape(s) && Grows(s, s') && t in s.h.logs && m <= |s.h.logs[t]|
    ensures t in s'.h.logs && m <= |s'.h.logs[t]| && s'.h.logs[t][..m] == s.h.logs[t][..m]
  {
  }

  lemma OldAckOk(s: State, a: Action, t: nat)
    requires Inv(s) && Enabled(s, a) && Grows(s, After(s, a)) && Shape(After(s, a))
    requires (t, a.n) in s.h.acks && After(s, a).h.acks[(t, a.n)] == s.h.acks[(t, a.n)]
    ensures AckOk(After(s, a), t, a.n)
  {
    AckedPrefixStays(s, a, t);
    SavedTermGrows(s, a);
    var p := s.h.logs[t][..s.h.acks[(t, a.n)]];
    OldPrefix(s, After(s, a), t, s.h.acks[(t, a.n)]);
    HeldKept(s, a, p);
    AckFromParts(After(s, a), t, a.n, p);
  }

  /** The acknowledgement an action adds: where it counts, and how far it reaches. */
  lemma NewAck(s: State, a: Action, t: nat, n: NodeId)
    requires Inv(s) && Enabled(s, a)
    requires (t, n) in After(s, a).h.acks
    requires (t, n) !in s.h.acks || After(s, a).h.acks[(t, n)] != s.h.acks[(t, n)]
    ensures n == a.n
    ensures if Succeeds(s, a) then t == a.args.term && After(s, a).h.acks[(t, n)] == a.args.prevIndex + |a.args.entries|
            else (a.DoWin? || Proposes(s, a)) && t == s.nodes[n].term && After(s, a).h.acks[(t, n)] == |NodeAfter(s, a).log|
  {
  }

  /** A new acknowledgement covers a prefix of the node's new log, in the node's saved term. */
  lemma NewAckPrefix(s: State, a: Action, t: nat)
    requires Inv(s) && Enabled(s, a) && Grows(s, After(s, a))
    requires (t, a.n) in After(s, a).h.acks
    requires (t, a.n) !in s.h.acks || After(s, a).h.acks[(t, a.n)] != s.h.acks[(t, a.n)]
    ensures NodeAfter(s, a).disk.term == t && t in After(s, a).h.logs
    ensures
      var m := After(s, a).h.acks[(t, a.n)];
      m <= |After(s, a).h.logs[t]| && After(s, a).h.logs[t][..m] <= NodeAfter(s, a).log
  {
    NewAck(s, a, t, a.n);
    if Succeeds(s, a) {
      SuccessSaves(s, a);
      OldPrefix(s, After(s, a), t, a.args.prevIndex + |a.args.entries|);
      ShippedHeld(s.nodes[a.n].log, Shipped(s, a.args));
    } else {
      LeaderAcksOwnLog(s, a);
    }
  }

  lemma ShippedHeld(l: seq<Entry>, x: seq<Entry>)
    ensures x <= if x <= l then l else x
  {
  }

  lemma LeaderAcksOwnLog(s: State, a: Action)
    requires Shape(s) && Roles(s) && Enabled(s, a) && (a.DoWin? || Proposes(s, a))
    ensures
      var t, y := s.nodes[a.n].term, NodeAfter(s, a);
      t == y.disk.term && t in HistoryAfter(s, a).logs && HistoryAfter(s, a).logs[t] == y.log
  {
    assert RoleOk(s, s.nodes[a.n]);
  }

  lemma NewAckOk(s: State, a: Action, t: nat)
    requires Inv(s) && Enabled(s, a) && Grows(s, After(s, a)) && Shape(After(s, a)) && Nodes(After(s, a))
    requires (t, a.n) in After(s, a).h.acks
    requires (t, a.n) !in s.h.acks || After(s, a).h.acks[(t, a.n)] != s.h.acks[(t, a.n)]
    ensures AckOk(After(s, a), t, a.n) && NodeAfter(s, a).disk.term == t
  {
    var s' := After(s, a);
    var y := NodeAfter(s, a);
    NewAckPrefix(s, a, t);
    var p := s'.h.logs[t][..s'.h.acks[(t, a.n)]];
    assert NodeOk(s'.nodes[a.n], s'.h.logs);
    HeldPrefix(y, p, s'.h.logs);
    AckFromParts(s', t, a.n, p);
  }

  lemma HeldPrefix(x: NodeState, p: seq<Entry>, ll: LogMap)
    requires NodeOk(x, ll) && p <= x.log
    ensures HeldOk(x, p, ll)
  {
    TracedPrefix(x.log, p, ll);
    KeptPrefix(p, x.log, x.disk.term, ll);
  }

  lemma AcksKept(s: State, a: Action)
    requires Inv(s) && Enabled(s, a) && Grows(s, After(s, a)) && Shape(After(s, a)) && Nodes(After(s, a))
    ensures Acks(After(s, a))
  {
    var s' := After(s, a);
    forall t, n | (t, n) in s'.h.acks ensures AckOk(s', t, n) {
      if (t, n) in s.h.acks && s'.h.acks[(t, n)] == s.h.acks[(t, n)] {
        if n == a.n {
          OldAckOk(s, a, t);
        } else {
          BystanderAck(s, a, t, n);
        }
      } else {
        NewAck(s, a, t, n);
        NewAckOk(s, a, t);
      }
    }
  }

  // ----- votes keep acknowledgements -----

  /** A term without a leader overrules nothing. */
  lemma KeptBelow(a: seq<Entry>, l: seq<Entry>, hi: int, u: nat, ll: LogMap)
    requires Kept(a, l, hi, ll) && hi <= u && u !in ll
    ensures Kept(a, l, u - 1, ll)
  {
    var below := u - 1;
    forall k: nat | k < |a| ensures KeptAt(a, k, l, below, ll) {
      assert KeptAt(a, k, l, hi, ll);
      if !(a[..k + 1] <= l) {
        var w :| w in ll && a[k].term < w <= hi && Conflict(ll[w], a[..k + 1]);
        assert w != u;
      }
    }
  }

  /** Where a new vote log comes from. */
  lemma NewVoteLog(s: State, a: Action, u: nat, v: NodeId)
    requires Inv(s) && Enabled(s, a)
    requires (u, v) in After(s, a).h.voteLogs && (u, v) !in s.h.voteLogs
    ensures v == a.n && After(s, a).h.voteLogs[(u, v)] == s.nodes[v].log
    ensures u !in s.h.logs && s.nodes[v].disk.term <= u
    ensures a.DoWin? || a.DoHandleVote?
  {
    assert NodeOk(s.nodes[a.n], s.h.logs);
    if a.DoWin? { WinIsFresh(s, a.n, a.quorum); }
  }

  lemma SameAckKept(s: State, s': State, u: nat, t: nat, v: NodeId)
    requires Shape(s) && VotesKeepAcks(s) && Grows(s, s')
    requires (u, v) in s.h.voteLogs && (t, v) in s.h.acks && t < u
    requires s'.h.acks[(t, v)] == s.h.acks[(t, v)]
    ensures VoteKeepsAck(s'.h, u, t, v)
  {
    var m := s.h.acks[(t, v)];
    assert VoteKeepsAck(s.h, u, t, v);
    OldPrefix(s, s', t, m);
    KeptGrown(s.h.logs[t][..m], s.h.voteLogs[(u, v)], u - 1, u - 1, s.h.logs, s'.h.logs);
  }

  lemma NewVoteKeepsAck(s: State, a: Action, u: nat, t: nat, v: NodeId)
    requires Inv(s) && Enabled(s, a) && Grows(s, After(s, a))
    requires (u, v) in After(s, a).h.voteLogs && (u, v) !in s.h.voteLogs
    requires (t, v) in s.h.acks && After(s, a).h.acks[(t, v)] == s.h.acks[(t, v)] && t < u
    ensures VoteKeepsAck(After(s, a).h, u, t, v)
  {
    NewVoteLog(s, a, u, v);
    FreshVoteKeepsAck(s, After(s, a), u, t, v);
  }

  lemma FreshVoteKeepsAck(s: State, s': State, u: nat, t: nat, v: NodeId)
    requires Shape(s) && Acks(s) && Grows(s, s') && v in s.config
    requires (u, v) in s'.h.voteLogs && s'.h.voteLogs[(u, v)] == s.nodes[v].log
    requires u !in s.h.logs && s.nodes[v].disk.term <= u
    requires (t, v) in s.h.acks && s'.h.acks[(t, v)] == s.h.acks[(t, v)] && t < u
    ensures VoteKeepsAck(s'.h, u, t, v)
  {
    var h, x := s.h, s.nodes[v];
    var m := h.acks[(t, v)];
    assert AckOk(s, t, v);
    KeptBelow(h.logs[t][..m], x.log, x.disk.term, u, h.logs);
    OldPrefix(s, s', t, m);
    KeptGrown(h.logs[t][..m], x.log, u - 1, u - 1, h.logs, s'.h.logs);
  }

  /** Acknowledging in term t comes before voting in any later term. */
  lemma NoAckAfterVote(s: State, a: Action, u: nat, t: nat, v: NodeId)
    requires Inv(s) && Enabled(s, a) && Grows(s, After(s, a))
    requires Shape(After(s, a)) && Nodes(After(s, a)) && Votes(After(s, a))
    requires (u, v) in After(s, a).h.voteLogs && (t, v) in After(s, a).h.acks && t < u
    ensures (t, v) in s.h.acks && After(s, a).h.acks[(t, v)] == s.h.acks[(t, v)]
  {
    var s' := After(s, a);
    assert VoterOk(s', u, v);
    assert VoteOk(s', u, v);
    if (t, v) !in s.h.acks || s'.h.acks[(t, v)] != s.h.acks[(t, v)] {
      NewAck(s, a, t, v);
      NewAckPrefix(s, a, t);
      assert false;
    }
  }

  lemma VotesKeepAcksKept(s: State, a: Action)
    requires Inv(s) && Enabled(s, a) && Grows(s, After(s, a))
    requires Shape(After(s, a)) && Nodes(After(s, a)) && Votes(After(s, a))
    ensures VotesKeepAcks(After(s, a))
  {
    var s' := After(s, a);
    forall u, t, v | (u, v) in s'.h.voteLogs && (t, v) in s'.h.acks && t < u ensures VoteKeepsAck(s'.h, u, t, v) {
      NoAckAfterVote(s, a, u, t, v);
      if (u, v) in s.h.voteLogs {
        SameAckKept(s, s', u, t, v);
      } else {
        NewVoteKeepsAck(s, a, u, t, v);
      }
    }
  }

  // ----- match indices -----

  lemma BystanderMatch(s: State, a: Action, n: NodeId)
    requires Inv(s) && Enabled(s, a) && Grows(s, After(s, a))
    requires n in s.config && n != a.n && s.nodes[n].role == Leader
    ensures s.nodes[n].leading.Some? && MatchOk(After(s, a), s.nodes[n])
  {
    assert RoleOk(s, s.nodes[n]);
    assert MatchOk(s, s.nodes[n]);
    var k := (s.nodes[n].term, n);
    if After(s, a).h.acks[k] != s.h.acks[k] { NewAck(s, a, k.0, k.1); }
  }

  lemma SettledMatch(s: State, a: Action)
    requires Inv(s) && Enabled(s, a) && Grows(s, After(s, a)) && NodeAfter(s, a).role == Leader
    requires !a.DoWin? && !a.DoPropose? && !a.DoHandleAppendAnswer?
    ensures NodeAfter(s, a).leading.Some? && MatchOk(After(s, a), NodeAfter(s, a))
  {
    var x, y := s.nodes[a.n], NodeAfter(s, a);
    LeaderStays(s, a);
    assert RoleOk(s, x) && MatchOk(s, x);
    var k := (x.term, a.n);
    if After(s, a).h.acks[k] != s.h.acks[k] {
      NewAck(s, a, k.0, k.1);
      SuccessFollows(s, a);
    }
  }

  lemma LeaderStays(s: State, a: Action)
    requires Enabled(s, a) && NodeAfter(s, a).role == Leader
    requires !a.DoWin? && !a.DoPropose? && !a.DoHandleAppendAnswer?
    ensures
      var x, y := s.nodes[a.n], NodeAfter(s, a);
      && x.role == Leader && y.id == x.id && y.term == x.term && y.log == x.log && y.leading == x.leading
  {
  }

  lemma SuccessFollows(s: State, a: Action)
    requires Enabled(s, a)
    ensures Succeeds(s, a) ==> NodeAfter(s, a).role == Follower
  {
  }

  lemma AnswerKeepsHistory(s: State, a: Action)
    requires Enabled(s, a) && a.DoHandleAppendAnswer?
    ensures After(s, a).h.acks == s.h.acks
  {
  }

  lemma NotedMatch(s: State, s': State, x: NodeState, peer: NodeId, args: AppendArgs)
    requires s'.h.acks == s.h.acks && x.leading.Some? && MatchOk(s, x)
    requires (x.term, peer) in s.h.acks && s.h.acks[(x.term, peer)] >= args.prevIndex + |args.entries|
    requires Sent(args).Some? ==> Sent(args).value == args.prevIndex + |args.entries|
    ensures MatchOk(s', NoteSuccess(x, peer, Sent(args)))
  {
  }

  lemma AnswerMatch(s: State, a: Action)
    requires Inv(s) && Enabled(s, a) && Grows(s, After(s, a)) && NodeAfter(s, a).role == Leader
    requires a.DoHandleAppendAnswer?
    ensures NodeAfter(s, a).leading.Some? && MatchOk(After(s, a), NodeAfter(s, a))
  {
    var x, reply := s.nodes[a.n], a.m.reply;
    AnswerStands(x, a.m.peer, Sent(a.m.args), reply);
    AnswerFitsLog(s, a);
    AnswerKeepsHistory(s, a);
    LeaderMatches(s, a.n);
    if reply.success {
      SuccessAcked(s, a.m);
      NotedMatch(s, After(s, a), x, a.m.peer, a.m.args);
      SuccessAnswer(x, a.m.peer, Sent(a.m.args), reply);
      SameMatch(After(s, a), NoteSuccess(x, a.m.peer, Sent(a.m.args)), NodeAfter(s, a));
    } else {
      RejectionAnswer(x, a.m.peer, Sent(a.m.args), reply);
      SameMatch(After(s, a), x, NodeAfter(s, a));
    }
  }

  lemma LeaderMatches(s: State, n: NodeId)
    requires Shape(s) && Roles(s) && Matches(s) && n in s.config && s.nodes[n].role == Leader
    ensures s.nodes[n].leading.Some? && MatchOk(s, s.nodes[n])
  {
    assert RoleOk(s, s.nodes[n]);
    assert MatchOk(s, s.nodes[n]);
  }

  lemma SuccessAcked(s: State, m: Msg)
    requires Shape(s) && Msgs(s) && m in s.msgs && m.AppendAnswer? && m.reply.success
    ensures (m.args.term, m.peer) in s.h.acks && s.h.acks[(m.args.term, m.peer)] >= m.args.prevIndex + |m.args.entries|
  {
    assert MsgOk(s, m);
  }

  lemma SuccessAnswer(x: NodeState, peer: NodeId, sent: Option<nat>, reply: AppendReply)
    requires x.role == Leader && x.leading.Some? && reply.success && reply.term <= x.term
    ensures
      var y, z := HandleAppendReply(x, peer, sent, reply), NoteSuccess(x, peer, sent);
      y.leading == z.leading && y.term == z.term && y.id == z.id && y.log == z.log
  {
  }

  lemma RejectionAnswer(x: NodeState, peer: NodeId, sent: Option<nat>, reply: AppendReply)
    requires x.role == Leader && x.leading.Some? && !reply.success && reply.term <= x.term
    ensures
      var y := HandleAppendReply(x, peer, sent, reply);
      && y.leading.Some? && y.leading.value.matchIndex == x.leading.value.matchIndex
      && y.term == x.term && y.id == x.id && y.log == x.log
  {
  }

  lemma SameMatch(s: State, x: NodeState, y: NodeState)
    requires x.leading.Some? && y.leading.Some? && x.leading.value.matchIndex == y.leading.value.matchIndex
    requires y.term == x.term && y.id == x.id && y.log == x.log && MatchOk(s, x)
    ensures MatchOk(s, y)
  {
  }

  lemma FreshMatch(s: State, a: Action)
    requires Inv(s) && Enabled(s, a) && Grows(s, After(s, a)) && NodeAfter(s, a).role == Leader
    requires a.DoWin? || a.DoPropose?
    ensures NodeAfter(s, a).leading.Some? && MatchOk(After(s, a), NodeAfter(s, a))
  {
    if a.DoPropose? {
      ProposerStays(s.nodes[a.n], a.proposal);
      LeaderMatches(s, a.n);
    }
  }

  lemma ProposerStays(x: NodeState, p: Proposal)
    ensures
      var y := Propose(x, p).0;
      && y.role == x.role && y.term == x.term && y.id == x.id && y.leading == x.leading
      && (!Propose(x, p).1.Accepted? ==> y == x)
  {
  }

  lemma MatchesKept(s: State, a: Action)
    requires Inv(s) && Enabled(s, a) && Grows(s, After(s, a)) && Shape(After(s, a))
    ensures Matches(After(s, a))
  {
    var s' := After(s, a);
    forall n | n in s'.config && s'.nodes[n].role == Leader
      ensures s'.nodes[n].leading.Some? && MatchOk(s', s'.nodes[n])
    {
      if n != a.n {
        BystanderMatch(s, a, n);
      } else if a.DoWin? || a.DoPropose? {
        FreshMatch(s, a);
      } else if a.DoHandleAppendAnswer? {
        AnswerMatch(s, a);
      } else {
        SettledMatch(s, a);
      }
    }
  }
}
