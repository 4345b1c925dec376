/** Every action keeps the leaders' logs, the nodes' logs and the roles in order. */
module StepLogs {
  import opened RaftTypes
  import opened NodeSpec
  import opened LeaderLogs
  import opened Cluster
  import opened Invariant
  import opened LeaderCompleteness
  import opened StepGrows

  // ----- leaders' logs -----

  /** A traced log inherits order and numbering from the leaders' logs. */
  lemma TracedOrdered(s: State, l: seq<Entry>)
    requires Leaders(s) && Traced(l, s.h.logs)
    ensures Sorted(l) && Numbered(l)
  {
    if |l| > 0 {
      var k: nat := |l| - 1;
      assert TracedAt(l, k, s.h.logs);
      var t := l[k].term;
      assert LeaderOk(s, t);
      assert l == l[..k + 1];
      assert forall j | 0 <= j < |l| :: l[j] == s.h.logs[t][j];
    }
  }

  lemma LeaderLogKept(s: State, s': State, t: nat)
    requires Shape(s) && Leaders(s) && Grows(s, s')
    requires t in s.h.logs && s'.h.logs.Keys == s'.h.leaders.Keys && s'.h.logs[t] == s.h.logs[t]
    ensures LeaderOk(s', t)
  {
    assert LeaderOk(s, t);
    TracedGrown(s.h.logs[t], s.h.logs, s'.h.logs);
  }

  lemma WonLogOk(s: State, a: Action)
    requires Inv(s) && a.DoWin? && Enabled(s, a)
    requires Grows(s, After(s, a))
    ensures After(s, a).h.logs.Keys == After(s, a).h.leaders.Keys
    ensures LeaderOk(After(s, a), s.nodes[a.n].term)
  {
    var x := s.nodes[a.n];
    var s' := After(s, a);
    assert NodeOk(x, s.h.logs) && RoleOk(s, x);
    assert CandidacyOk(s, x.term, x.id);
    TracedGrown(x.log, s.h.logs, s'.h.logs);
    TracedOrdered(s, x.log);
  }

  lemma AppendedTraced(l: seq<Entry>, e: Entry, ll: LogMap, ll': LogMap)
    requires Traced(l, ll) && Grown(ll, ll') && e.term in ll' && ll'[e.term] == l + [e]
    ensures Traced(l + [e], ll')
  {
    TracedGrown(l, ll, ll');
    var m := l + [e];
    forall k: nat | k < |m| ensures TracedAt(m, k, ll') {
      if k < |l| {
        assert TracedAt(l, k, ll');
        assert m[..k + 1] == l[..k + 1];
      } else {
        assert m[..k + 1] == m;
      }
    }
  }

  lemma ExtendedLeaderOk(s: State, s': State, t: nat, e: Entry)
    requires Shape(s) && Leaders(s) && Grows(s, s') && t in s.h.logs && e.term == t && e.index == |s.h.logs[t]| + 1
    requires t in s'.h.logs && t in s'.h.leaders && s'.h.logs[t] == s.h.logs[t] + [e]
    ensures LeaderOk(s', t)
  {
    assert LeaderOk(s, t);
    AppendedTraced(s.h.logs[t], e, s.h.logs, s'.h.logs);
  }

  lemma ProposedLogOk(s: State, a: Action)
    requires Shape(s) && Leaders(s) && Roles(s) && a.DoPropose? && Enabled(s, a)
    requires Grows(s, After(s, a)) && Propose(s.nodes[a.n], a.proposal).1.Accepted?
    ensures After(s, a).h.logs.Keys == After(s, a).h.leaders.Keys
    ensures LeaderOk(After(s, a), s.nodes[a.n].term)
  {
    var x := s.nodes[a.n];
    assert RoleOk(s, x);
    var e := Entry(|x.log| + 1, x.term, a.proposal.kind, a.proposal.command.value);
    ExtendedLeaderOk(s, After(s, a), x.term, e);
  }

  /** Which leaders' logs an action touches. */
  lemma OtherLeaderLogs(s: State, a: Action)
    requires Shape(s) && Leaders(s) && Roles(s) && Enabled(s, a)
    ensures HistoryAfter(s, a).leaders.Keys == HistoryAfter(s, a).logs.Keys == HistoryAfter(s, a).electors.Keys
    ensures forall t | t in HistoryAfter(s, a).logs && t != s.nodes[a.n].term ::
              t in s.h.logs && HistoryAfter(s, a).logs[t] == s.h.logs[t]
  {
    assert RoleOk(s, s.nodes[a.n]);
    if !a.DoWin? && (a.DoPropose? ==> !Propose(s.nodes[a.n], a.proposal).1.Accepted?) {
      LeadersUntouched(s, a);
    }
  }

  lemma LeadersFromParts(s: State, s': State, u: nat)
    requires Shape(s) && Leaders(s) && Grows(s, s')
    requires s'.h.leaders.Keys == s'.h.logs.Keys == s'.h.electors.Keys
    requires forall t | t in s'.h.logs && t != u :: t in s.h.logs && s'.h.logs[t] == s.h.logs[t]
    requires u in s'.h.logs ==> (u in s.h.logs && s'.h.logs[u] == s.h.logs[u]) || LeaderOk(s', u)
    ensures Leaders(s')
  {
    forall t | t in s'.h.logs ensures LeaderOk(s', t) {
      if t in s.h.logs && s'.h.logs[t] == s.h.logs[t] {
        LeaderLogKept(s, s', t);
      }
    }
  }

  lemma LeadersKept(s: State, a: Action)
    requires Inv(s) && Enabled(s, a) && Grows(s, After(s, a))
    ensures Leaders(After(s, a))
  {
    var x := s.nodes[a.n];
    OtherLeaderLogs(s, a);
    if a.DoWin? {
      WonLogOk(s, a);
    } else if a.DoPropose? && Propose(x, a.proposal).1.Accepted? {
      ProposedLogOk(s, a);
    } else {
      LeadersUntouched(s, a);
    }
    LeadersFromParts(s, After(s, a), x.term);
  }

  // ----- the follower's log -----

  /** The leader's log up to the last entry a request ships. */
  function Shipped(s: State, args: AppendArgs): seq<Entry>
    requires args.term in s.h.logs && args.prevIndex + |args.entries| <= |s.h.logs[args.term]|
  {
    s.h.logs[args.term][..args.prevIndex + |args.entries|]
  }

  ghost predicate Delivers(s: State, n: NodeId, args: AppendArgs) {
    && n in s.config && n in s.nodes
    && RequestOk(s, n, args) && args.term >= s.nodes[n].term && PrevMatches(s.nodes[n].log, args)
  }

  lemma PrevIsShared(l: seq<Entry>, m: seq<Entry>, args: AppendArgs, ll: LogMap)
    requires Traced(l, ll) && Traced(m, ll) && Numbered(m)
    requires ShipsSuffix(m, args) && PrevMatches(l, args)
    ensures args.prevIndex <= |l| && l[..args.prevIndex] == m[..args.prevIndex]
  {
    if args.prevIndex > 0 {
      SameTermSamePrefix(l, m, args.prevIndex - 1, ll);
    }
  }

  /** Once the previous entry matches, a follower's log becomes the shipped log or already holds it. */
  lemma AppendReplaces(s: State, n: NodeId, args: AppendArgs)
    requires Shape(s) && Leaders(s) && Nodes(s) && Delivers(s, n, args)
    ensures
      var l, x := s.nodes[n].log, Shipped(s, args);
      Merge(l, args.entries) == if x <= l then l else x
  {
    var l, m, x := s.nodes[n].log, s.h.logs[args.term], Shipped(s, args);
    assert NodeOk(s.nodes[n], s.h.logs) && LeaderOk(s, args.term);
    PrevIsShared(l, m, args, s.h.logs);
    TracedPrefix(m, x, s.h.logs);
    assert args.entries == x[args.prevIndex..];
    assert l[..args.prevIndex] == x[..args.prevIndex];
    MergeIsReplace(l, x, args.prevIndex, s.h.logs);
  }

  lemma DeliveredNodeOk(s: State, n: NodeId, args: AppendArgs)
    requires Inv(s) && Enabled(s, DoHandleAppend(n, args)) && Delivers(s, n, args)
    ensures NodeOk(HandleAppend(s.nodes[n], args).0, s.h.logs)
  {
    var x := s.nodes[n];
    var y := HandleAppend(x, args).0;
    assert NodeOk(x, s.h.logs) && LeaderOk(s, args.term);
    AppendReplaces(s, n, args);
    TracedPrefix(s.h.logs[args.term], Shipped(s, args), s.h.logs);
    DeliveredCommit(s, n, args);
  }

  /** A leader's log holds what its follower has committed, so no truncation reaches that far. */
  lemma DeliveredCommit(s: State, n: NodeId, args: AppendArgs)
    requires Inv(s) && Enabled(s, DoHandleAppend(n, args)) && Delivers(s, n, args)
    ensures
      var x, y := s.nodes[n], HandleAppend(s.nodes[n], args).0;
      && x.commit <= |x.log| && x.commit <= y.commit <= |y.log|
      && x.log[..x.commit] == y.log[..x.commit]
      && (args.commit > x.commit ==> y.commit == args.commit && y.log[..args.commit] <= s.h.logs[args.term])
  {
    var x := s.nodes[n];
    var w := s.h.logs[args.term];
    var sh := Shipped(s, args);
    AppendReplaces(s, n, args);
    assert NodeOk(x, s.h.logs) && CommitKnown(s.h, x);
    CoveredInLeader(s, x.log, x.commit, x.disk.term, args.term);
    ReplaceKeepsPrefix(x.log, sh, w, x.commit);
    ReplaceHolds(x.log, sh, w, args.commit);
  }

  /** A prefix shared with the leader's log survives the replacement. */
  lemma ReplaceKeepsPrefix(l: seq<Entry>, x: seq<Entry>, w: seq<Entry>, c: nat)
    requires c <= |l| && l[..c] <= w && x <= w
    ensures var l' := if x <= l then l else x; c <= |l'| && l'[..c] == l[..c]
  {
    PrefixesComparable(x, l[..c], w);
    if x <= l[..c] {
      PrefixTrans(x, l[..c], l);
    }
  }

  lemma ReplaceHolds(l: seq<Entry>, x: seq<Entry>, w: seq<Entry>, c: nat)
    requires c <= |x| && x <= w
    ensures var l' := if x <= l then l else x; c <= |l'| && l'[..c] <= w
  {
  }

  // ----- nodes and roles -----

  ghost predicate Succeeds(s: State, a: Action) {
    a.DoHandleAppend? && Enabled(s, a) && HandleAppend(s.nodes[a.n], a.args).1.success
  }

  lemma SuccessDelivers(s: State, a: Action)
    requires Inv(s) && Succeeds(s, a)
    ensures Delivers(s, a.n, a.args)
  {
    assert MsgOk(s, AppendRequest(a.n, a.args));
  }

  /** The fields NodeOk speaks of, for actions that leave the log alone. */
  ghost predicate Quiet(x: NodeState, y: NodeState) {
    && y.log == x.log && y.commit <= |y.log|
    && x.disk.term <= y.disk.term <= y.term
    && (y.disk.term == y.term ==> y.votedFor == y.disk.votedFor)
  }

  lemma QuietNodeOk(x: NodeState, y: NodeState, ll: LogMap, ll': LogMap)
    requires NodeOk(x, ll) && Quiet(x, y) && Grown(ll, ll')
    ensures NodeOk(y, ll')
  {
    TracedGrown(x.log, ll, ll');
  }

  lemma OthersAreQuiet(s: State, a: Action)
    requires Enabled(s, a) && NodeOk(s.nodes[a.n], s.h.logs)
    requires !Succeeds(s, a) && !a.DoHandleAppendAnswer?
    requires a.DoPropose? ==> !Propose(s.nodes[a.n], a.proposal).1.Accepted?
    ensures Quiet(s.nodes[a.n], NodeAfter(s, a))
  {
  }

  lemma AnswerIsQuiet(x: NodeState, peer: NodeId, sent: Option<nat>, reply: AppendReply, ll: LogMap)
    requires NodeOk(x, ll)
    ensures Quiet(x, HandleAppendReply(x, peer, sent, reply))
  {
    if reply.term <= x.term && x.leading.Some? {
      AdvanceBounded(NoteSuccess(x, peer, sent), |x.log|);
    }
  }

  /** updateCommitIndex leaves the commit index alone or finds an entry of the current term. */
  lemma {:induction false} AdvanceBounded(x: NodeState, i: nat)
    requires x.leading.Some? && i <= |x.log|
    ensures
      var c := AdvanceFrom(x, i);
      && c >= x.commit
      && (c > x.commit ==>
            && c <= i && TermAt(x.log, c) == x.term
            && CountAcks(x.leading.value.matchIndex, c) >= QuorumSize(x.config))
    decreases i
  {
    if i > x.commit {
      AdvanceBounded(x, i - 1);
    }
  }

  lemma ProposedNodeOk(s: State, a: Action)
    requires Inv(s) && a.DoPropose? && Enabled(s, a) && Propose(s.nodes[a.n], a.proposal).1.Accepted?
    requires Grows(s, After(s, a)) && Leaders(After(s, a))
    ensures NodeOk(NodeAfter(s, a), After(s, a).h.logs)
  {
    var x := s.nodes[a.n];
    assert NodeOk(x, s.h.logs) && RoleOk(s, x);
    assert LeaderOk(After(s, a), x.term);
  }

  lemma ActingNodeOk(s: State, a: Action)
    requires Inv(s) && Enabled(s, a)
    requires Grows(s, After(s, a)) && Leaders(After(s, a))
    ensures NodeOk(NodeAfter(s, a), After(s, a).h.logs)
  {
    var x := s.nodes[a.n];
    var ll' := After(s, a).h.logs;
    assert NodeOk(x, s.h.logs);
    if Succeeds(s, a) {
      SuccessDelivers(s, a);
      DeliveredNodeOk(s, a.n, a.args);
      TracedGrown(NodeAfter(s, a).log, s.h.logs, ll');
    } else if a.DoPropose? && Propose(x, a.proposal).1.Accepted? {
      ProposedNodeOk(s, a);
    } else {
      if a.DoHandleAppendAnswer? {
        AnswerIsQuiet(x, a.m.peer, Sent(a.m.args), a.m.reply, s.h.logs);
      } else {
        OthersAreQuiet(s, a);
      }
      QuietNodeOk(x, NodeAfter(s, a), s.h.logs, ll');
    }
  }

  lemma NodesKept(s: State, a: Action)
    requires Inv(s) && Enabled(s, a)
    requires Grows(s, After(s, a)) && Leaders(After(s, a))
    ensures Shape(After(s, a)) && Nodes(After(s, a))
  {
    var s' := After(s, a);
    ShapeKept(s, a);
    ActingNodeOk(s, a);
    forall n | n in s'.config ensures NodeOk(s'.nodes[n], s'.h.logs) {
      if n != a.n {
        assert NodeOk(s.nodes[n], s.h.logs);
        TracedGrown(s.nodes[n].log, s.h.logs, s'.h.logs);
      }
    }
  }
}
