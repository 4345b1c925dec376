/** What holds in every run of the cluster. */
module Safety {
  import opened RaftTypes
  import opened NodeSpec
  import opened LeaderLogs
  import opened Cluster
  import opened Invariant
  import opened LeaderCompleteness
  import opened StepGrows
  import opened StepLogs
  import opened StepRoles
  import opened StepVotes
  import opened StepAcks
  import opened StepCommits
  import opened StepMsgs

  // ----- the invariant -----

  lemma InvKept(s: State, a: Action)
    requires Inv(s) && Enabled(s, a)
    ensures Inv(After(s, a)) && Grows(s, After(s, a))
  {
    EveryStepGrows(s, a);
    LeadersKept(s, a);
    NodesKept(s, a);
    RolesKept(s, a);
    VotesKept(s, a);
    ElectionsKept(s, a);
    CandidaciesKept(s, a);
    ReadsKept(s, a);
    AcksKept(s, a);
    VotesKeepAcksKept(s, a);
    MatchesKept(s, a);
    CommitsKept(s, a);
    NodeCommitsKept(s, a);
    MsgsKept(s, a);
    AppliesKept(s, a);
  }

  lemma {:induction false} InvAlways(run: seq<State>, i: nat)
    requires IsRun(run) && i < |run|
    ensures Inv(run[i])
    decreases i
  {
    if i == 0 {
      InitInv(run[0]);
    } else {
      InvAlways(run, i - 1);
      assert StepAt(run, i - 1);
      var a :| Enabled(run[i - 1], a) && run[i] == After(run[i - 1], a);
      InvKept(run[i - 1], a);
    }
  }

  /** The part of the history that the theorems compare across a run. */
  ghost predicate Extends(h: History, h': History) {
    && (forall t | t in h.leaders :: t in h'.leaders && h'.leaders[t] == h.leaders[t])
    && Grown(h.logs, h'.logs) && h.commits <= h'.commits
  }

  lemma {:induction false} HistoryExtends(run: seq<State>, i: nat, j: nat)
    requires IsRun(run) && i <= j < |run|
    ensures Extends(run[i].h, run[j].h) && run[i].config == run[j].config
    decreases j
  {
    if i < j {
      HistoryExtends(run, i, j - 1);
      StepExtends(run, j - 1);
      GrownTrans(run[i].h.logs, run[j - 1].h.logs, run[j].h.logs);
    }
  }

  lemma StepExtends(run: seq<State>, i: nat)
    requires IsRun(run) && i + 1 < |run|
    ensures Extends(run[i].h, run[i + 1].h) && run[i].config == run[i + 1].config
  {
    InvAlways(run, i);
    assert StepAt(run, i);
    var a :| Enabled(run[i], a) && run[i + 1] == After(run[i], a);
    InvKept(run[i], a);
    GrowsExtends(run[i], run[i + 1]);
  }

  lemma GrowsExtends(s: State, s': State)
    requires Shape(s) && Grows(s, s')
    ensures Extends(s.h, s'.h)
  {
  }

  lemma GrownTrans(a: LogMap, b: LogMap, c: LogMap)
    requires Grown(a, b) && Grown(b, c)
    ensures Grown(a, c)
  {
    forall t | t in a ensures t in c && a[t] <= c[t] {
      PrefixTrans(a[t], b[t], c[t]);
    }
  }

  // ----- election safety -----

  ghost predicate Leads(s: State, n: NodeId, t: nat) {
    n in s.nodes && s.nodes[n].role == Leader && s.nodes[n].term == t
  }

  lemma LeaderRecorded(run: seq<State>, i: nat, n: NodeId, t: nat)
    requires IsRun(run) && i < |run| && Leads(run[i], n, t)
    ensures t in run[i].h.leaders && run[i].h.leaders[t] == n
    ensures t in run[i].h.logs && run[i].nodes[n].log == run[i].h.logs[t]
  {
    InvAlways(run, i);
    assert RoleOk(run[i], run[i].nodes[n]);
  }

  /** At most one node ever leads a term, whatever crashes and restarts happen in between. */
  lemma ElectionSafety(run: seq<State>, i: nat, j: nat, a: NodeId, b: NodeId, t: nat)
    requires IsRun(run) && i < |run| && j < |run|
    requires Leads(run[i], a, t) && Leads(run[j], b, t)
    ensures a == b
  {
    LeaderRecorded(run, i, a, t);
    LeaderRecorded(run, j, b, t);
    if i <= j {
      HistoryExtends(run, i, j);
    } else {
      HistoryExtends(run, j, i);
    }
  }

  // ----- log matching -----

  /** Logs that agree on the term at an index agree on everything up to it. */
  lemma LogMatching(run: seq<State>, i: nat, a: NodeId, b: NodeId, k: nat)
    requires IsRun(run) && i < |run| && a in run[i].nodes && b in run[i].nodes
    requires 1 <= k <= |run[i].nodes[a].log| && k <= |run[i].nodes[b].log|
    requires TermAt(run[i].nodes[a].log, k) == TermAt(run[i].nodes[b].log, k)
    ensures run[i].nodes[a].log[..k] == run[i].nodes[b].log[..k]
  {
    var s := run[i];
    InvAlways(run, i);
    assert NodeOk(s.nodes[a], s.h.logs) && NodeOk(s.nodes[b], s.h.logs);
    SameTermSamePrefix(s.nodes[a].log, s.nodes[b].log, k - 1, s.h.logs);
  }

  // ----- leader completeness -----

  lemma FactsOf(s: State)
    requires Inv(s)
    ensures Facts(s)
  {
  }

  /**
   Leader completeness: what any node has committed is in the log of every leader of its term or a later
   one, from then on.
   */
  lemma LeaderHoldsCommitted(run: seq<State>, i: nat, j: nat, a: NodeId, b: NodeId, u: nat)
    requires IsRun(run) && i <= j < |run| && a in run[i].nodes
    requires Leads(run[j], b, u) && run[i].nodes[a].term <= u
    ensures
      var la, lb, c := run[i].nodes[a].log, run[j].nodes[b].log, run[i].nodes[a].commit;
      c <= |la| && c <= |lb| && la[..c] == lb[..c]
  {
    var s, s' := run[i], run[j];
    var x := s.nodes[a];
    InvAlways(run, i);
    InvAlways(run, j);
    assert CommitKnown(s.h, x) && NodeOk(x, s.h.logs);
    LeaderRecorded(run, j, b, u);
    CoveredLater(run, i, j, x.log, x.commit, x.disk.term);
    FactsOf(s');
    CoveredInLeader(s', x.log, x.commit, x.disk.term, u);
  }

  /** What was covered by a commitment stays covered. */
  lemma CoveredLater(run: seq<State>, i: nat, j: nat, l: seq<Entry>, c: nat, hi: nat)
    requires IsRun(run) && i <= j < |run| && Covered(run[i].h, l, c, hi)
    ensures Covered(run[j].h, l, c, hi)
  {
    HistoryExtends(run, i, j);
    var h, h' := run[i].h, run[j].h;
    if c > 0 {
      var t, k :| (t, k) in h.commits && CoveredBy(h, l, c, hi, t, k);
      PrefixTrans(l[..c], h.logs[t], h'.logs[t]);
      assert CoveredBy(h', l, c, hi, t, k);
    }
  }

  // ----- state machine safety -----

  /** Any two committed prefixes agree, whichever nodes held them and whenever. */
  lemma CommittedAgree(run: seq<State>, i: nat, j: nat, a: NodeId, b: NodeId)
    requires IsRun(run) && i < |run| && j < |run| && a in run[i].nodes && b in run[j].nodes
    ensures
      var x, y := run[i].nodes[a], run[j].nodes[b];
      && x.commit <= |x.log| && y.commit <= |y.log|
      && forall k | 0 <= k < x.commit && k < y.commit :: x.log[k] == y.log[k]
  {
    var m := if i <= j then j else i;
    var x, y := run[i].nodes[a], run[j].nodes[b];
    InvAlways(run, i);
    InvAlways(run, j);
    InvAlways(run, m);
    assert CommitKnown(run[i].h, x) && CommitKnown(run[j].h, y);
    CoveredLater(run, i, m, x.log, x.commit, x.disk.term);
    CoveredLater(run, j, m, y.log, y.commit, y.disk.term);
    FactsOf(run[m]);
    CommitsAgree(run[m], x.log, x.commit, x.disk.term, y.log, y.commit, y.disk.term);
  }

  /**
   State machine safety: the sequences of entries that any two nodes hand to their state machines, at
   any two moments of a run, agree wherever both are defined; and each is the node's own log, in order,
   from index 1 on without a gap or a repetition.
   */
  lemma StateMachineSafety(run: seq<State>, i: nat, j: nat, a: NodeId, b: NodeId)
    requires IsRun(run) && i < |run| && j < |run| && a in run[i].nodes && b in run[j].nodes
    ensures
      var x, y := run[i].nodes[a], run[j].nodes[b];
      && x.machine <= x.log && |x.machine| <= x.commit
      && (forall k | 0 <= k < |x.machine| :: x.machine[k].index == k + 1)
      && forall k | 0 <= k < |x.machine| && k < |y.machine| :: x.machine[k] == y.machine[k]
  {
    CommittedAgree(run, i, j, a, b);
    MachineIsLogPrefix(run, i, a);
    MachineIsLogPrefix(run, j, b);
  }

  lemma MachineIsLogPrefix(run: seq<State>, i: nat, n: NodeId)
    requires IsRun(run) && i < |run| && n in run[i].nodes
    ensures var x := run[i].nodes[n]; x.machine <= x.log && |x.machine| <= x.commit <= |x.log| && Numbered(x.machine)
  {
    InvAlways(run, i);
    var s := run[i];
    assert ApplyOk(s.nodes[n]) && NodeOk(s.nodes[n], s.h.logs);
    TracedOrdered(s, s.nodes[n].log);
  }

  // ----- commitment and acknowledgement -----

  /** Between restarts a node's commit index never decreases, and its committed entries never change. */
  lemma CommitNeverRetreats(s: State, a: Action)
    requires Inv(s) && Enabled(s, a) && !a.DoCrash?
    ensures
      var x, y := s.nodes[a.n], NodeAfter(s, a);
      && x.commit <= y.commit && x.commit <= |x.log| && x.commit <= |y.log|
      && x.log[..x.commit] == y.log[..x.commit]
  {
    var x, y := s.nodes[a.n], NodeAfter(s, a);
    assert NodeOk(x, s.h.logs);
    if Succeeds(s, a) {
      SuccessDelivers(s, a);
      DeliveredCommit(s, a.n, a.args);
    } else if a.DoHandleAppendAnswer? {
      AnswerUntouched(x, a.m.peer, Sent(a.m.args), a.m.reply);
    } else if !a.DoPickApply? && !a.DoFetchApply? && !a.DoFinishApply? {
      ApplyUntouched(s, a);
    }
  }

  /**
   Follower commit without "last new entry": a request that is accepted commits exactly what the leader
   announced, and that lies inside the entries this very request verified.
   */
  lemma FollowerCommitIsVerified(s: State, n: NodeId, args: AppendArgs)
    requires Inv(s) && Enabled(s, DoHandleAppend(n, args)) && HandleAppend(s.nodes[n], args).1.success
    requires args.commit > s.nodes[n].commit
    ensures
      var y := HandleAppend(s.nodes[n], args).0;
      && y.commit == args.commit <= args.prevIndex + |args.entries| <= |y.log|
      && args.term in s.h.logs && args.prevIndex + |args.entries| <= |s.h.logs[args.term]|
      && y.log[..args.prevIndex + |args.entries|] == s.h.logs[args.term][..args.prevIndex + |args.entries|]
  {
    var a := DoHandleAppend(n, args);
    SuccessSaves(s, a);
    DeliveredCommit(s, n, args);
    ShippedIsHeld(s.nodes[n].log, Shipped(s, args));
  }

  lemma ShippedIsHeld(l: seq<Entry>, x: seq<Entry>)
    ensures var l' := if x <= l then l else x; |x| <= |l'| && l'[..|x|] == x
  {
  }

  /**
   Acknowledgement is stable: while a peer that answered Success in term t stays in term t, its log
   agrees with the log of that term's leader through the last entry of the request it answered, whatever
   is repeated or reordered, and whether or not that leader still leads.
   */
  lemma AckStable(run: seq<State>, i: nat, peer: NodeId, args: AppendArgs, reply: AppendReply)
    requires IsRun(run) && i < |run|
    requires AppendAnswer(peer, args, reply) in run[i].msgs && reply.success
    requires peer in run[i].nodes && run[i].nodes[peer].term == args.term
    ensures
      var m := args.prevIndex + |args.entries|;
      && args.term in run[i].h.logs && m <= |run[i].nodes[peer].log| && m <= |run[i].h.logs[args.term]|
      && run[i].nodes[peer].log[..m] == run[i].h.logs[args.term][..m]
  {
    var s := run[i];
    InvAlways(run, i);
    assert MsgOk(s, AppendAnswer(peer, args, reply));
    assert AckOk(s, args.term, peer) && NodeOk(s.nodes[peer], s.h.logs);
    AckedShorter(s.h.logs[args.term], s.h.logs[args.term], args.prevIndex + |args.entries|,
                 s.h.acks[(args.term, peer)], s.nodes[peer].log);
  }

  /** In particular with the log of a node that leads the term then or later. */
  lemma AckMatchesLeader(run: seq<State>, i: nat, j: nat, peer: NodeId, args: AppendArgs, reply: AppendReply, b: NodeId)
    requires IsRun(run) && i <= j < |run|
    requires AppendAnswer(peer, args, reply) in run[i].msgs && reply.success
    requires peer in run[i].nodes && run[i].nodes[peer].term == args.term
    requires Leads(run[j], b, args.term)
    ensures
      var m := args.prevIndex + |args.entries|;
      && m <= |run[i].nodes[peer].log| && m <= |run[j].nodes[b].log|
      && run[i].nodes[peer].log[..m] == run[j].nodes[b].log[..m]
  {
    AckStable(run, i, peer, args, reply);
    HistoryExtends(run, i, j);
    LeaderRecorded(run, j, b, args.term);
  }

  lemma AckedShorter(w: seq<Entry>, w': seq<Entry>, m: nat, n: nat, l: seq<Entry>)
    requires m <= n <= |w| && w[..n] <= l && w <= w'
    ensures m <= |l| && m <= |w'| && l[..m] == w'[..m]
  {
    assert l[..m] == w[..n][..m];
  }

  /** Between restarts the state machine is only ever handed further entries. */
  lemma MachineOnlyGrows(s: State, a: Action)
    requires Inv(s) && Enabled(s, a) && !a.DoCrash?
    ensures s.nodes[a.n].machine <= NodeAfter(s, a).machine
  {
    if Succeeds(s, a) {
    } else if a.DoHandleAppendAnswer? {
      assert NodeOk(s.nodes[a.n], s.h.logs);
      AnswerUntouched(s.nodes[a.n], a.m.peer, Sent(a.m.args), a.m.reply);
    } else if !a.DoPickApply? && !a.DoFetchApply? && !a.DoFinishApply? {
      ApplyUntouched(s, a);
    }
  }
}
