/**
 Replies of an earlier term. replicateTo uses a successful reply whenever the node leads and the reply's
 term is not higher; it does not ask whether the request was sent in the present term. The cluster model
 does. Here: exactly which replies do harm, and a run in which one of them makes two nodes apply
 different entries at one index.
 */
module StaleReply {
  import opened RaftTypes
  import opened NodeSpec
  import opened LeaderLogs
  import opened Cluster
  import opened Invariant
  import opened StepCommits
  import opened Safety
  import opened LeaderCompleteness
  import opened Paths

  // ----- which replies do harm -----

  /** The index up to which a successful reply makes the leader count the peer. */
  function CountsTo(args: AppendArgs): nat {
    match Sent(args)
    case None => 0
    case Some(i) => i
  }

  /**
   For every entry of its own term that the leader now counts for the peer, the peer has acknowledged the
   leader's very log up to there. `acked` is the log of the request's term, `l` the leader's.
   */
  ghost predicate CountsTruly(acked: seq<Entry>, l: seq<Entry>, term: nat, commit: nat, upTo: nat) {
    forall k: nat | commit < k <= upTo && k <= |l| && TermAt(l, k) == term :: k <= |acked| && acked[..k] == l[..k]
  }

  /** A log the leader may have later in its term. */
  ghost predicate OwnExtension(l: seq<Entry>, l': seq<Entry>, term: nat) {
    l <= l' && forall k | |l| <= k < |l'| :: l'[k].term == term
  }

  /** A success under way to a leader, of the present term or an earlier one. */
  ghost predicate Received(s: State, n: NodeId, m: Msg) {
    && n in s.nodes && s.nodes[n].role == Leader
    && m in s.msgs && m.AppendAnswer? && m.reply.success && m.args.leader == n
  }

  /** What the invariant says of such a reply. */
  lemma ReceivedFacts(s: State, n: NodeId, m: Msg)
    requires Inv(s) && Received(s, n, m)
    ensures
      var x, t := s.nodes[n], m.args.term;
      && t <= x.term && t in s.h.logs && Bounded(s.h.logs[t], t)
      && (t == x.term ==> s.h.logs[t] == x.log)
      && CountsTo(m.args) <= |s.h.logs[t]| && Sorted(x.log) && Bounded(x.log, x.term)
  {
    assert MsgOk(s, m) && RoleOk(s, s.nodes[n]);
    assert LeaderOk(s, m.args.term) && LeaderOk(s, s.nodes[n].term) && ElectionOk(s, m.args.term);
    assert NodeOk(s.nodes[n], s.h.logs);
  }

  /** In a sorted log no entry of the highest term comes before one of another term. */
  lemma OwnTermLast(l: seq<Entry>, term: nat, k: nat, j: nat)
    requires Sorted(l) && Bounded(l, term) && 1 <= k <= j <= |l| && TermAt(l, k) == term
    ensures TermAt(l, j) == term
  {
    assert l[k - 1].term <= l[j - 1].term <= term;
  }

  /** A log of an earlier term does not hold an entry of this one. */
  lemma TooEarly(acked: seq<Entry>, t: nat, l: seq<Entry>, term: nat, k: nat)
    requires Bounded(acked, t) && t < term && 1 <= k <= |l| && TermAt(l, k) == term
    ensures !(k <= |acked| && acked[..k] == l[..k])
  {
    assert l[..k][k - 1] == l[k - 1];
    assert k <= |acked| ==> acked[..k][k - 1] == acked[k - 1];
  }

  /** When a reply is harmless for the entries the leader has. */
  predicate Harmless(x: NodeState, args: AppendArgs) {
    var top := Min(CountsTo(args), |x.log|);
    args.term == x.term || top <= x.commit || TermAt(x.log, top) != x.term
  }

  /**
   In every run: using a reply makes the leader count only what the peer really acknowledged, exactly when
   the request was of this term, or the reply reaches no further than the commit index, or the last
   entry it reaches is not of this term.
   */
  lemma HarmlessIff(run: seq<State>, i: nat, n: NodeId, m: Msg)
    requires IsRun(run) && i < |run| && Received(run[i], n, m)
    ensures m.args.term in run[i].h.logs
    ensures
      var x := run[i].nodes[n];
      CountsTruly(run[i].h.logs[m.args.term], x.log, x.term, x.commit, CountsTo(m.args)) <==> Harmless(x, m.args)
  {
    var s := run[i];
    InvAlways(run, i);
    ReceivedFacts(s, n, m);
    HarmlessFor(s.nodes[n], m.args, s.h.logs[m.args.term]);
  }

  lemma HarmlessFor(x: NodeState, args: AppendArgs, acked: seq<Entry>)
    requires args.term <= x.term && Bounded(acked, args.term) && (args.term == x.term ==> acked == x.log)
    requires Sorted(x.log) && Bounded(x.log, x.term)
    ensures CountsTruly(acked, x.log, x.term, x.commit, CountsTo(args)) <==> Harmless(x, args)
  {
    var top := Min(CountsTo(args), |x.log|);
    if Harmless(x, args) {
      forall k: nat | x.commit < k <= CountsTo(args) && k <= |x.log| && TermAt(x.log, k) == x.term
        ensures k <= |acked| && acked[..k] == x.log[..k]
      {
        if args.term != x.term {
          OwnTermLast(x.log, x.term, k, top);
        }
      }
    } else {
      TooEarly(acked, args.term, x.log, x.term, top);
      assert x.commit < top <= CountsTo(args) && top <= |x.log| && TermAt(x.log, top) == x.term;
    }
  }

  /** When it stays harmless: the match index it leaves also counts entries the leader appends later. */
  predicate HarmlessForGood(x: NodeState, args: AppendArgs) {
    var i := CountsTo(args);
    args.term == x.term || i <= x.commit || (i <= |x.log| && TermAt(x.log, i) != x.term)
  }

  lemma HarmlessForGoodIff(run: seq<State>, i: nat, n: NodeId, m: Msg)
    requires IsRun(run) && i < |run| && Received(run[i], n, m)
    ensures m.args.term in run[i].h.logs
    ensures
      var x, acked := run[i].nodes[n], run[i].h.logs[m.args.term];
      (forall l | OwnExtension(x.log, l, x.term) :: CountsTruly(acked, l, x.term, x.commit, CountsTo(m.args)))
      <==> HarmlessForGood(x, m.args)
  {
    var s := run[i];
    InvAlways(run, i);
    ReceivedFacts(s, n, m);
    var x, acked := s.nodes[n], s.h.logs[m.args.term];
    if HarmlessForGood(x, m.args) {
      forall l | OwnExtension(x.log, l, x.term) ensures CountsTruly(acked, l, x.term, x.commit, CountsTo(m.args)) {
        StaysHarmless(x, m.args, acked, l);
      }
    } else {
      var l := HarmfulExtension(x, m.args, acked);
    }
  }

  lemma StaysHarmless(x: NodeState, args: AppendArgs, acked: seq<Entry>, l: seq<Entry>)
    requires HarmlessForGood(x, args) && OwnExtension(x.log, l, x.term)
    requires args.term == x.term ==> acked == x.log
    requires CountsTo(args) <= |acked| && Sorted(x.log) && Bounded(x.log, x.term)
    ensures CountsTruly(acked, l, x.term, x.commit, CountsTo(args))
  {
    var i := CountsTo(args);
    forall k: nat | x.commit < k <= i && k <= |l| && TermAt(l, k) == x.term ensures k <= |acked| && acked[..k] == l[..k] {
      if args.term == x.term {
        assert l[..k] == x.log[..k];
      } else {
        assert TermAt(x.log, k) == x.term;
        OwnTermLast(x.log, x.term, k, i);
      }
    }
  }

  lemma HarmfulExtension(x: NodeState, args: AppendArgs, acked: seq<Entry>) returns (l: seq<Entry>)
    requires !HarmlessForGood(x, args) && args.term <= x.term && Bounded(acked, args.term)
    ensures OwnExtension(x.log, l, x.term) && !CountsTruly(acked, l, x.term, x.commit, CountsTo(args))
  {
    var i := CountsTo(args);
    l := if i <= |x.log| then x.log else x.log + seq(i - |x.log|, _ => Entry(0, x.term, Noop, []));
    assert i <= |l| && TermAt(l, i) == x.term;
    TooEarly(acked, args.term, l, x.term, i);
    assert x.commit < i;
  }

  // ----- the nodes of the example -----

  const A: NodeId := "a"
  const B: NodeId := "b"
  const C: NodeId := "c"
  const D: NodeId := "d"
  const E: NodeId := "e"

  function Five(): set<NodeId> { {A, B, C, D, E} }

  // ----- the steps of a run -----

  /** What the example says of a node. */
  ghost predicate Stands(s: State, n: NodeId, role: Role, term: nat, log: seq<Entry>) {
    && n in s.nodes && s.nodes[n].id == n && s.nodes[n].config == Five()
    && s.nodes[n].role == role && s.nodes[n].term == term == s.nodes[n].disk.term
    && s.nodes[n].log == log
  }

  /** A node that has committed and applied nothing. */
  ghost predicate Is(s: State, n: NodeId, role: Role, term: nat, log: seq<Entry>) {
    && Stands(s, n, role, term, log)
    && s.nodes[n].commit == 0 == s.nodes[n].applied && s.nodes[n].job == Idle && s.nodes[n].machine == []
  }

  ghost predicate SameProgress(x: NodeState, y: NodeState) {
    y.commit == x.commit && y.applied == x.applied && y.job == x.job && y.machine == x.machine
  }

  ghost predicate Complete(s: State) {
    s.config == Five() == s.nodes.Keys
  }

  function AskOf(n: NodeId, t: nat, log: seq<Entry>): VoteArgs {
    VoteArgs(t, n, |log|, LastTerm(log))
  }

  lemma Stand(run: seq<State>, n: NodeId, role: Role, t: nat, log: seq<Entry>) returns (run': seq<State>)
    requires IsPath(run) && Complete(Last(run)) && Is(Last(run), n, role, t, log)
    ensures IsPath(run') && Complete(Last(run')) && Is(Last(run'), n, Candidate, t + 1, log)
    ensures Moves(run, run', n, Last(run').nodes[n])
    ensures VoteRequest(AskOf(n, t + 1, log)) in Last(run').msgs
  {
    run' := Take(run, DoReadPosition(n));
    run' := Take(run', DoBecomeCandidate(n, log));
    run' := Take(run', DoSave(n));
    run' := Take(run', DoRequestVotes(n, Ballot(t + 1, |log|, LastTerm(log))));
  }

  /** A node of a lower term votes for a candidate whose position is as recent as its own. */
  lemma Grant(run: seq<State>, v: NodeId, role: Role, u: nat, log: seq<Entry>, c: NodeId, ask: VoteArgs)
    returns (run': seq<State>)
    requires IsPath(run) && Complete(Last(run)) && Is(Last(run), v, role, u, log) && u < ask.term
    requires VoteRequest(ask) in Last(run).msgs && ask.candidate == c != v
    requires UpToDate(ask.lastIndex, ask.lastTerm, log)
    ensures IsPath(run') && Complete(Last(run')) && Is(Last(run'), v, Follower, ask.term, log)
    ensures Moves(run, run', v, Last(run').nodes[v])
    ensures VoteAnswer(v, c, ask.term, VoteReply(ask.term, true)) in Last(run').msgs
  {
    run' := Take(run, DoHandleVote(v, ask));
  }

  /** Three different nodes make a quorum of five. */
  lemma Trio(n: NodeId, v: NodeId, w: NodeId) returns (q: set<NodeId>)
    requires n in Five() && v in Five() && w in Five() && n != v && n != w && v != w
    ensures IsQuorum(Five(), q) && n in q && forall x | x in q :: x == n || x == v || x == w
  {
    q := {n, v, w};
    assert |q| == 3 && |Five()| == 5;
  }

  lemma Win(run: seq<State>, n: NodeId, v: NodeId, w: NodeId, t: nat, log: seq<Entry>) returns (run': seq<State>)
    requires IsPath(run) && Complete(Last(run)) && Is(Last(run), n, Candidate, t, log)
    requires v in Five() && w in Five() && n != v && n != w && v != w
    requires VoteAnswer(v, n, t, VoteReply(t, true)) in Last(run).msgs
    requires VoteAnswer(w, n, t, VoteReply(t, true)) in Last(run).msgs
    ensures IsPath(run') && Complete(Last(run')) && Is(Last(run'), n, Leader, t, log)
    ensures Moves(run, run', n, Last(run').nodes[n])
    ensures Last(run').nodes[n].leading ==
            Some(LeaderState(Uniform(Five() - {n}, |log| + 1), Uniform(Five() - {n}, 0)))
  {
    var q := Trio(n, v, w);
    run' := Take(run, DoWin(n, q));
  }

  /** An election won with the votes of v and w. */
  lemma Elect(run: seq<State>, n: NodeId, role: Role, t: nat, log: seq<Entry>,
              v: NodeId, vr: Role, vt: nat, vlog: seq<Entry>, w: NodeId, wr: Role, wt: nat, wlog: seq<Entry>)
    returns (run': seq<State>)
    requires IsPath(run) && Complete(Last(run)) && Is(Last(run), n, role, t, log)
    requires Is(Last(run), v, vr, vt, vlog) && Is(Last(run), w, wr, wt, wlog) && vt <= t && wt <= t
    requires n != v && n != w && v != w
    requires UpToDate(|log|, LastTerm(log), vlog) && UpToDate(|log|, LastTerm(log), wlog)
    ensures IsPath(run') && Complete(Last(run')) && Is(Last(run'), n, Leader, t + 1, log)
    ensures Is(Last(run'), v, Follower, t + 1, vlog) && Is(Last(run'), w, Follower, t + 1, wlog)
    ensures Rest(run, run', {n, v, w})
    ensures Last(run').nodes[n].leading ==
            Some(LeaderState(Uniform(Five() - {n}, |log| + 1), Uniform(Five() - {n}, 0)))
  {
    run' := Stand(run, n, role, t, log);
    run' := Grant(run', v, vr, vt, vlog, n, AskOf(n, t + 1, log));
    run' := Grant(run', w, wr, wt, wlog, n, AskOf(n, t + 1, log));
    run' := Win(run', n, v, w, t + 1, log);
  }

  /** Nodes outside `moved` are as they were, and messages are only added. */
  ghost predicate Rest(run: seq<State>, run': seq<State>, moved: set<NodeId>)
    requires |run| > 0 && |run'| > 0
  {
    && run'[0] == run[0] && Last(run).msgs <= Last(run').msgs
    && forall n | n in Last(run).nodes && n !in moved :: n in Last(run').nodes && Last(run').nodes[n] == Last(run).nodes[n]
  }

  function Next(t: nat, log: seq<Entry>): Entry {
    Entry(|log| + 1, t, Noop, [])
  }

  lemma Offer(run: seq<State>, n: NodeId, t: nat, log: seq<Entry>) returns (run': seq<State>)
    requires IsPath(run) && Complete(Last(run)) && Is(Last(run), n, Leader, t, log)
    ensures IsPath(run') && Complete(Last(run')) && Is(Last(run'), n, Leader, t, log + [Next(t, log)])
    ensures Rest(run, run', {n}) && Last(run').nodes[n].leading == Last(run).nodes[n].leading
  {
    assert |Five()| == 5;
    run' := Take(run, DoPropose(n, Proposal(Noop, Some([]))));
  }

  lemma Post(run: seq<State>, n: NodeId, t: nat, log: seq<Entry>, p: NodeId, next: nat)
    returns (run': seq<State>, args: AppendArgs)
    requires IsPath(run) && Complete(Last(run)) && Is(Last(run), n, Leader, t, log) && 1 <= next <= |log|
    requires Last(run).nodes[n].leading.Some?
    requires p in Last(run).nodes[n].leading.value.nextIndex && Last(run).nodes[n].leading.value.nextIndex[p] == next
    ensures args == AppendArgs(t, n, next - 1, TermAt(log, next - 1), log[next - 1..], 0)
    ensures IsPath(run') && run'[0] == run[0]
    ensures Last(run').nodes == Last(run).nodes && Last(run').config == Last(run).config
    ensures Last(run').msgs == Last(run).msgs + {AppendRequest(p, args)}
  {
    run' := Take(run, DoSendAppend(n, p, 0));
    args := BuildAppend(Last(run).nodes[n], p, 0);
    assert log[next - 1..|log|] == log[next - 1..];
    assert Last(run').nodes == Last(run).nodes;
  }

  /** The effect of a request that commits nothing and whose previous entry matches. */
  lemma TakenIn(x: NodeState, args: AppendArgs)
    requires x.term <= args.term && args.commit == 0 && PrevMatches(x.log, args)
    ensures
      var (y, reply) := HandleAppend(x, args);
      && reply == AppendReply(args.term, true, 0, 0) && y.log == Merge(x.log, args.entries)
      && y.role == Follower && y.term == args.term == y.disk.term && SameProgress(x, y)
      && y.id == x.id && y.config == x.config
  {
  }

  lemma Receive(run: seq<State>, p: NodeId, role: Role, u: nat, plog: seq<Entry>, args: AppendArgs)
    returns (run': seq<State>)
    requires IsPath(run) && Complete(Last(run)) && Stands(Last(run), p, role, u, plog)
    requires AppendRequest(p, args) in Last(run).msgs
    requires u <= args.term && args.commit == 0 && PrevMatches(plog, args)
    ensures IsPath(run') && Complete(Last(run')) && Stands(Last(run'), p, Follower, args.term, Merge(plog, args.entries))
    ensures Rest(run, run', {p}) && SameProgress(Last(run).nodes[p], Last(run').nodes[p])
    ensures AppendAnswer(p, args, AppendReply(args.term, true, 0, 0)) in Last(run').msgs
  {
    TakenIn(Last(run).nodes[p], args);
    run' := Take(run, DoHandleAppend(p, args));
  }

  /** The leader ships what lies beyond `next - 1`, and the peer takes it. */
  lemma Ship(run: seq<State>, n: NodeId, t: nat, log: seq<Entry>, p: NodeId, role: Role, u: nat, plog: seq<Entry>, next: nat)
    returns (run': seq<State>, args: AppendArgs)
    requires IsPath(run) && Complete(Last(run)) && Is(Last(run), n, Leader, t, log) && Stands(Last(run), p, role, u, plog)
    requires n != p && u <= t && 1 <= next <= |log|
    requires Last(run).nodes[n].leading.Some?
    requires p in Last(run).nodes[n].leading.value.nextIndex && Last(run).nodes[n].leading.value.nextIndex[p] == next
    requires next == 1 || (next - 1 <= |plog| && TermAt(plog, next - 1) == TermAt(log, next - 1))
    ensures args == AppendArgs(t, n, next - 1, TermAt(log, next - 1), log[next - 1..], 0)
    ensures IsPath(run') && Complete(Last(run')) && Stands(Last(run'), p, Follower, t, Merge(plog, log[next - 1..]))
    ensures Rest(run, run', {p}) && SameProgress(Last(run).nodes[p], Last(run').nodes[p])
    ensures AppendAnswer(p, args, AppendReply(t, true, 0, 0)) in Last(run').msgs
  {
    run', args := Post(run, n, t, log, p, next);
    run' := Receive(run', p, role, u, plog, args);
  }

  /** A leader of two entries, the second of its own term, counts the peers that match it. */
  lemma Counting(x: NodeState, peers: set<NodeId>)
    requires x.leading.Some? && x.config == Five() && x.commit == 0
    requires |x.log| == 2 && x.log[0].term != x.term == x.log[1].term
    requires peers == set p | p in x.leading.value.matchIndex && x.leading.value.matchIndex[p] >= 2
    ensures AdvanceFrom(x, 2) == if |peers| >= 2 then 2 else 0
  {
    assert |Five()| == 5;
    assert AdvanceFrom(x, 1) == AdvanceFrom(x, 0);
  }

  function TwoOf(p: NodeId, q: NodeId): set<NodeId> { {p, q} }

  /** The leader n takes note of a success of p up to index 2; `peers` then match that index. */
  lemma Count(start: seq<State>, n: NodeId, t: nat, log: seq<Entry>, p: NodeId, args: AppendArgs, peers: set<NodeId>)
    returns (run: seq<State>)
    requires IsPath(start) && Complete(Last(start)) && Is(Last(start), n, Leader, t, log)
    requires |log| == 2 && log[0].term != t == log[1].term
    requires args.term == t && args.leader == n && Sent(args) == Some(2)
    requires AppendAnswer(p, args, AppendReply(t, true, 0, 0)) in Last(start).msgs
    requires Last(start).nodes[n].leading.Some?
    requires var m := Last(start).nodes[n].leading.value.matchIndex[p := 2];
             peers == set q | q in m && m[q] >= 2
    ensures IsPath(run) && Complete(Last(run)) && Rest(start, run, {n}) && Stands(Last(run), n, Leader, t, log)
    ensures |peers| < 2 ==> Is(Last(run), n, Leader, t, log)
    ensures Last(run).nodes[n].commit == (if |peers| >= 2 then 2 else 0)
    ensures Last(run).nodes[n].applied == 0 && Last(run).nodes[n].job == Idle && Last(run).nodes[n].machine == []
    ensures var ls := Last(start).nodes[n].leading.value;
            Last(run).nodes[n].leading == Some(LeaderState(ls.nextIndex[p := 3], ls.matchIndex[p := 2]))
  {
    Counting(NoteSuccess(Last(start).nodes[n], p, Some(2)), peers);
    run := Take(start, DoHandleAppendAnswer(n, AppendAnswer(p, args, AppendReply(t, true, 0, 0))));
  }

  /** A node applies the two entries it has committed. */
  lemma ApplyTwo(start: seq<State>, n: NodeId, role: Role, t: nat, log: seq<Entry>) returns (run: seq<State>)
    requires IsPath(start) && Complete(Last(start)) && Stands(Last(start), n, role, t, log) && |log| == 2
    requires var x := Last(start).nodes[n]; x.commit == 2 && x.applied == 0 && x.job == Idle && x.machine == []
    ensures IsPath(run) && Complete(Last(run)) && Rest(start, run, {n})
    ensures Stands(Last(run), n, role, t, log) && Last(run).nodes[n].machine == log
  {
    run := Take(start, DoPickApply(n));
    run := Take(run, DoFetchApply(n));
    assert [] + log[0..2] == log;
  }

  // ----- the logs of the example -----

  const X1: Entry := Entry(1, 1, Noop, [])
  const X2: Entry := Entry(2, 1, Noop, [])
  const Y1: Entry := Entry(1, 2, Noop, [])
  const Z2: Entry := Entry(2, 3, Noop, [])
  const W2: Entry := Entry(2, 4, Noop, [])

  function Start(): State {
    State(Five(), map n | n in Five() :: FreshNode(n, Five()), {},
          History(map[], map[], map[], map[], map[], map[], map[], {}))
  }

  lemma Begin() returns (run: seq<State>)
    ensures IsPath(run) && Init(run[0]) && Complete(Last(run))
    ensures forall n | n in Five() :: Is(Last(run), n, Follower, 0, [])
  {
    run := [Start()];
  }

  /** The peers of n with the same next index for all, as after an election. */
  function Fresh(n: NodeId, next: nat): Option<LeaderState> {
    Some(LeaderState(Uniform(Five() - {n}, next), Uniform(Five() - {n}, 0)))
  }

  /** The five nodes at one moment, E without a log. */
  ghost predicate Scene(s: State, ra: Role, ta: nat, la: seq<Entry>, tb: nat, lb: seq<Entry>,
                        rc: Role, tc: nat, lc: seq<Entry>, td: nat, ld: seq<Entry>, te: nat)
  {
    && Complete(s) && Is(s, A, ra, ta, la) && Is(s, B, Follower, tb, lb) && Is(s, C, rc, tc, lc)
    && Is(s, D, Follower, td, ld) && Is(s, E, Follower, te, [])
  }

  /** A leads term 1. */
  lemma FirstElection() returns (run: seq<State>)
    ensures IsPath(run) && Init(run[0]) && Scene(Last(run), Leader, 1, [], 1, [], Follower, 1, [], 0, [], 0)
    ensures Last(run).nodes[A].leading == Fresh(A, 1)
  {
    run := Begin();
    run := Elect(run, A, Follower, 0, [], B, Follower, 0, [], C, Follower, 0, []);
  }

  lemma OfferTwo(start: seq<State>) returns (run: seq<State>)
    requires IsPath(start) && Complete(Last(start)) && Is(Last(start), A, Leader, 1, [])
    ensures IsPath(run) && Complete(Last(run)) && Is(Last(run), A, Leader, 1, [X1, X2])
    ensures Rest(start, run, {A}) && Last(run).nodes[A].leading == Last(start).nodes[A].leading
  {
    run := Offer(start, A, 1, []);
    assert [] + [Next(1, [])] == [X1];
    run := Offer(run, A, 1, [X1]);
    assert [X1] + [Next(1, [X1])] == [X1, X2];
  }

  /** The reply of term 1 that will arrive in term 3. */
  function Late(): Msg {
    AppendAnswer(B, AppendArgs(1, A, 0, 0, [X1, X2], 0), AppendReply(1, true, 0, 0))
  }

  /** Two entries reach B; the answer stays under way. */
  lemma ShipToB(start: seq<State>) returns (run: seq<State>)
    requires IsPath(start) && Complete(Last(start)) && Is(Last(start), A, Leader, 1, [X1, X2])
    requires Is(Last(start), B, Follower, 1, []) && Last(start).nodes[A].leading == Fresh(A, 1)
    ensures IsPath(run) && Complete(Last(run)) && Rest(start, run, {B})
    ensures Is(Last(run), B, Follower, 1, [X1, X2]) && Late() in Last(run).msgs
  {
    var args;
    run, args := Ship(start, A, 1, [X1, X2], B, Follower, 1, [], 1);
    assert [X1, X2][0..] == [X1, X2] && Merge([], [X1, X2]) == [X1, X2];
  }

  lemma FirstTerm() returns (run: seq<State>)
    ensures IsPath(run) && Init(run[0]) && Late() in Last(run).msgs
    ensures Scene(Last(run), Leader, 1, [X1, X2], 1, [X1, X2], Follower, 1, [], 0, [], 0)
  {
    run := FirstElection();
    run := OfferTwo(run);
    run := ShipToB(run);
  }

  /** C leads term 2 and has an entry. */
  lemma SecondElection(start: seq<State>) returns (run: seq<State>)
    requires IsPath(start) && Scene(Last(start), Leader, 1, [X1, X2], 1, [X1, X2], Follower, 1, [], 0, [], 0)
    ensures IsPath(run) && Rest(start, run, {C, D, E})
    ensures Scene(Last(run), Leader, 1, [X1, X2], 1, [X1, X2], Leader, 2, [Y1], 2, [], 2)
    ensures Last(run).nodes[C].leading == Fresh(C, 1)
  {
    run := Elect(start, C, Follower, 1, [], D, Follower, 0, [], E, Follower, 0, []);
    run := Offer(run, C, 2, []);
    assert [] + [Next(2, [])] == [Y1];
  }

  /** C ships its one entry to a peer whose first entry is another one, or missing. */
  lemma ShipY(start: seq<State>, p: NodeId, role: Role, t: nat, log: seq<Entry>) returns (run: seq<State>)
    requires IsPath(start) && Complete(Last(start)) && Is(Last(start), C, Leader, 2, [Y1])
    requires p != C && Is(Last(start), p, role, t, log) && t <= 2 && Last(start).nodes[C].leading == Fresh(C, 1)
    requires log == [] || log == [X1, X2]
    ensures IsPath(run) && Complete(Last(run)) && Rest(start, run, {p}) && Is(Last(run), p, Follower, 2, [Y1])
  {
    var args;
    run, args := Ship(start, C, 2, [Y1], p, role, t, log, 1);
    assert [Y1][0..] == [Y1] && [X1, X2][..0] == [] && Merge(log, [Y1]) == [] + [Y1];
  }

  /** It replaces A's log; D takes the same entry. */
  lemma SecondTerm(start: seq<State>) returns (run: seq<State>)
    requires IsPath(start) && Scene(Last(start), Leader, 1, [X1, X2], 1, [X1, X2], Follower, 1, [], 0, [], 0)
    ensures IsPath(run) && Rest(start, run, {A, C, D, E})
    ensures Scene(Last(run), Follower, 2, [Y1], 1, [X1, X2], Leader, 2, [Y1], 2, [Y1], 2)
    ensures Last(run).nodes[C].leading == Fresh(C, 1)
  {
    run := SecondElection(start);
    run := ShipY(run, A, Leader, 1, [X1, X2]);
    run := ShipY(run, D, Follower, 2, []);
  }

  /** A leads term 3 and has a second entry. */
  lemma ThirdElection(start: seq<State>) returns (run: seq<State>)
    requires IsPath(start) && Scene(Last(start), Follower, 2, [Y1], 1, [X1, X2], Leader, 2, [Y1], 2, [Y1], 2)
    ensures IsPath(run) && Rest(start, run, {A, D, E})
    ensures Scene(Last(run), Leader, 3, [Y1, Z2], 1, [X1, X2], Leader, 2, [Y1], 3, [Y1], 3)
    ensures Last(run).nodes[A].leading == Fresh(A, 2)
  {
    run := Elect(start, A, Follower, 2, [Y1], D, Follower, 2, [Y1], E, Follower, 2, []);
    run := Offer(run, A, 3, [Y1]);
    assert [Y1] + [Next(3, [Y1])] == [Y1, Z2];
  }

  /** D takes A's new entry and A counts that: one peer is too few. */
  lemma Replicate(start: seq<State>) returns (run: seq<State>)
    requires IsPath(start) && Complete(Last(start)) && Last(start).nodes[A].leading == Fresh(A, 2)
    requires Is(Last(start), A, Leader, 3, [Y1, Z2]) && Is(Last(start), D, Follower, 3, [Y1])
    ensures IsPath(run) && Complete(Last(run)) && Rest(start, run, {A, D})
    ensures Is(Last(run), A, Leader, 3, [Y1, Z2]) && Is(Last(run), D, Follower, 3, [Y1, Z2])
    ensures Last(run).nodes[A].leading.Some? && Last(run).nodes[A].leading.value.matchIndex == Uniform(Five() - {A}, 0)[D := 2]
  {
    var args;
    run, args := Ship(start, A, 3, [Y1, Z2], D, Follower, 3, [Y1], 2);
    assert [Y1, Z2][1..] == [Z2] && Merge([Y1], [Z2]) == [Y1, Z2];
    var m := Uniform(Five() - {A}, 0)[D := 2];
    assert {D} == set p | p in m && m[p] >= 2;
    run := Count(run, A, 3, [Y1, Z2], D, args, {D});
  }

  /** The moment at which the late reply arrives. */
  ghost predicate Awaiting(s: State) {
    && Scene(s, Leader, 3, [Y1, Z2], 1, [X1, X2], Leader, 2, [Y1], 3, [Y1, Z2], 3)
    && Late() in s.msgs && s.nodes[C].leading == Fresh(C, 1)
    && s.nodes[A].leading.Some? && s.nodes[A].leading.value.matchIndex == Uniform(Five() - {A}, 0)[D := 2]
  }

  lemma AwaitingIsReachable() returns (run: seq<State>)
    ensures IsPath(run) && Init(run[0]) && Awaiting(Last(run))
  {
    run := FirstTerm();
    run := SecondTerm(run);
    run := ThirdElection(run);
    run := Replicate(run);
  }

  // ----- the late reply -----

  /** One use of a reply without comparing terms. */
  ghost predicate Uses(s: State, s': State, n: NodeId, m: Msg) {
    && n in s.nodes && m in s.msgs && m.AppendAnswer? && m.args.leader == n
    && s' == s.(nodes := s.nodes[n := HandleAppendReply(s.nodes[n], m.peer, Sent(m.args), m.reply)])
  }

  function Used(s: State): State
    requires A in s.nodes
  {
    s.(nodes := s.nodes[A := HandleAppendReply(s.nodes[A], B, Some(2), AppendReply(1, true, 0, 0))])
  }

  /** B counts as well, and three of five make A commit. */
  lemma LateReplyCounts(s: State)
    requires Awaiting(s)
    ensures Uses(s, Used(s), A, Late()) && Complete(Used(s)) && Used(s).nodes == s.nodes[A := Used(s).nodes[A]]
    ensures Stands(Used(s), A, Leader, 3, [Y1, Z2])
    ensures var y := Used(s).nodes[A]; y.commit == 2 && y.applied == 0 && y.job == Idle && y.machine == []
  {
    var noted := NoteSuccess(s.nodes[A], B, Some(2));
    var m := noted.leading.value.matchIndex;
    assert m == Uniform(Five() - {A}, 0)[D := 2][B := 2];
    assert TwoOf(B, D) == set p | p in m && m[p] >= 2;
    assert |TwoOf(B, D)| == 2;
    Counting(noted, TwoOf(B, D));
  }

  /** Two nodes are no quorum of five. */
  lemma TwoAreTooFew(q: set<NodeId>)
    requires IsQuorum(Five(), q)
    ensures exists n :: n in q && n != A && n != D
  {
    assert |Five()| == 5;
    if q <= {A, D} {
      SubsetSize(q, {A, D});
    }
    assert q <= {A, D} || exists n :: n in q && n !in {A, D};
  }

  lemma NotHeld(l: seq<Entry>)
    requires l == [X1, X2] || l == [Y1] || l == []
    ensures !([Y1, Z2] <= l)
  {
    assert |l| == 2 ==> l[0] != [Y1, Z2][0];
  }

  lemma NoQuorumHolds(s: State, q: set<NodeId>)
    requires Awaiting(s) && IsQuorum(s.config, q)
    ensures exists n :: n in q && n in s.nodes && !([Y1, Z2] <= s.nodes[n].log)
  {
    TwoAreTooFew(q);
    var n :| n in q && n != A && n != D;
    NotHeld(s.nodes[n].log);
    assert n in s.nodes && !([Y1, Z2] <= s.nodes[n].log);
  }

  /**
   A reachable state of the cluster model in which a success of term 1 is under way to A, now leader of
   term 3. Used without comparing the terms, it makes A commit index 2; but every quorum has a node that
   does not hold A's entry there.
   */
  lemma StaleReplyCommitsTooEarly() returns (run: seq<State>, m: Msg)
    ensures IsRun(run) && Received(Last(run), A, m)
    ensures Leads(Last(run), A, 3) && m.reply.term <= 3 && m.args.term < 3 && !Harmless(Last(run).nodes[A], m.args)
    ensures
      var s := Last(run);
      var y := HandleAppendReply(s.nodes[A], m.peer, Sent(m.args), m.reply);
      && y.commit == 2 == |y.log|
      && forall q | IsQuorum(s.config, q) :: exists n :: n in q && n in s.nodes && !(y.log <= s.nodes[n].log)
  {
    run := AwaitingIsReachable();
    PathIsRun(run);
    m := Late();
    var s := Last(run);
    LateReplyCounts(s);
    forall q | IsQuorum(s.config, q) ensures exists n :: n in q && n in s.nodes && !([Y1, Z2] <= s.nodes[n].log) {
      NoQuorumHolds(s, q);
    }
  }

  // ----- what it leads to -----

  /** E, in term 3, refuses C's request of term 2, and C steps down. */
  lemma Unseat(start: seq<State>) returns (run: seq<State>)
    requires IsPath(start) && Complete(Last(start)) && Is(Last(start), C, Leader, 2, [Y1])
    requires Is(Last(start), E, Follower, 3, []) && Last(start).nodes[C].leading == Fresh(C, 1)
    ensures IsPath(run) && Complete(Last(run)) && Rest(start, run, {C}) && Is(Last(run), C, Follower, 3, [Y1])
  {
    var args;
    run, args := Post(start, C, 2, [Y1], E, 1);
    run := Take(run, DoHandleAppend(E, args));
    assert Last(run).nodes == Last(start).nodes;
    run := Take(run, DoHandleAppendAnswer(C, AppendAnswer(E, args, AppendReply(3, false, 0, 0))));
  }

  /** C leads term 4, without A's entry, and has one of its own at index 2. */
  lemma FourthElection(start: seq<State>) returns (run: seq<State>)
    requires IsPath(start) && Complete(Last(start)) && Is(Last(start), C, Follower, 3, [Y1])
    requires Is(Last(start), B, Follower, 1, [X1, X2]) && Is(Last(start), E, Follower, 3, [])
    ensures IsPath(run) && Complete(Last(run)) && Rest(start, run, {B, C, E})
    ensures Is(Last(run), C, Leader, 4, [Y1, W2]) && Last(run).nodes[C].leading == Fresh(C, 2)
  {
    run := Elect(start, C, Follower, 3, [Y1], B, Follower, 1, [X1, X2], E, Follower, 3, []);
    run := Offer(run, C, 4, [Y1]);
    assert [Y1] + [Next(4, [Y1])] == [Y1, W2];
  }

  /** C ships its entry to a peer that holds A's. */
  lemma ShipW(start: seq<State>, p: NodeId, role: Role) returns (run: seq<State>, args: AppendArgs)
    requires IsPath(start) && Complete(Last(start)) && Is(Last(start), C, Leader, 4, [Y1, W2])
    requires p != C && Stands(Last(start), p, role, 3, [Y1, Z2])
    requires Last(start).nodes[C].leading.Some? && p in Last(start).nodes[C].leading.value.nextIndex
    requires Last(start).nodes[C].leading.value.nextIndex[p] == 2
    ensures IsPath(run) && Complete(Last(run)) && Rest(start, run, {p})
    ensures SameProgress(Last(start).nodes[p], Last(run).nodes[p])
    ensures args.term == 4 && args.leader == C && Sent(args) == Some(2)
    ensures AppendAnswer(p, args, AppendReply(4, true, 0, 0)) in Last(run).msgs
  {
    run, args := Ship(start, C, 4, [Y1, W2], p, role, 3, [Y1, Z2], 2);
    assert [Y1, W2][1..] == [W2];
  }

  /** D and A take it, over the entry that A has committed, and C commits it. */
  lemma Overwrite(start: seq<State>) returns (run: seq<State>)
    requires IsPath(start) && Complete(Last(start)) && Is(Last(start), C, Leader, 4, [Y1, W2])
    requires Last(start).nodes[C].leading == Fresh(C, 2)
    requires Stands(Last(start), A, Leader, 3, [Y1, Z2]) && Stands(Last(start), D, Follower, 3, [Y1, Z2])
    ensures IsPath(run) && Complete(Last(run)) && run[0] == start[0]
    ensures Last(run).nodes[A].machine == Last(start).nodes[A].machine
    ensures Stands(Last(run), C, Leader, 4, [Y1, W2])
    ensures var y := Last(run).nodes[C]; y.commit == 2 && y.applied == 0 && y.job == Idle && y.machine == []
  {
    run := OverwriteD(start);
    var args;
    run, args := ShipW(run, A, Leader);
    var m := Uniform(Five() - {C}, 0)[D := 2][A := 2];
    assert TwoOf(A, D) == set p | p in m && m[p] >= 2;
    assert |TwoOf(A, D)| == 2;
    run := Count(run, C, 4, [Y1, W2], A, args, TwoOf(A, D));
  }

  lemma OverwriteD(start: seq<State>) returns (run: seq<State>)
    requires IsPath(start) && Complete(Last(start)) && Is(Last(start), C, Leader, 4, [Y1, W2])
    requires Last(start).nodes[C].leading == Fresh(C, 2) && Stands(Last(start), D, Follower, 3, [Y1, Z2])
    ensures IsPath(run) && Complete(Last(run)) && Rest(start, run, {C, D}) && Is(Last(run), C, Leader, 4, [Y1, W2])
    ensures Last(run).nodes[C].leading ==
            Some(LeaderState(Uniform(Five() - {C}, 2)[D := 3], Uniform(Five() - {C}, 0)[D := 2]))
  {
    var args;
    run, args := ShipW(start, D, Follower);
    var m := Uniform(Five() - {C}, 0)[D := 2];
    assert {D} == set p | p in m && m[p] >= 2;
    run := Count(run, C, 4, [Y1, W2], D, args, {D});
  }

  /** From the moment after the late reply, A and C come to apply different entries at index 2. */
  lemma Diverge(s: State) returns (run: seq<State>)
    requires Awaiting(s)
    ensures IsPath(run) && run[0] == Used(s) && Complete(Last(run))
    ensures Last(run).nodes[A].machine == [Y1, Z2] && Last(run).nodes[C].machine == [Y1, W2]
  {
    run := ApplyAtA(s);
    run := Succeed(run);
    run := Overwrite(run);
    run := ApplyTwo(run, C, Leader, 4, [Y1, W2]);
  }

  /** A applies what it has committed. */
  lemma ApplyAtA(s: State) returns (run: seq<State>)
    requires Awaiting(s)
    ensures IsPath(run) && run[0] == Used(s) && Complete(Last(run)) && Applied(Last(run))
    ensures Is(Last(run), B, Follower, 1, [X1, X2]) && Is(Last(run), C, Leader, 2, [Y1]) && Is(Last(run), E, Follower, 3, [])
    ensures Last(run).nodes[C].leading == Fresh(C, 1)
  {
    LateReplyCounts(s);
    run := [Used(s)];
    run := ApplyTwo(run, A, Leader, 3, [Y1, Z2]);
  }

  ghost predicate Applied(s: State) {
    && Stands(s, A, Leader, 3, [Y1, Z2]) && s.nodes[A].machine == [Y1, Z2]
    && Stands(s, D, Follower, 3, [Y1, Z2])
  }

  lemma Succeed(start: seq<State>) returns (run: seq<State>)
    requires IsPath(start) && Complete(Last(start)) && Applied(Last(start))
    requires Is(Last(start), B, Follower, 1, [X1, X2]) && Is(Last(start), C, Leader, 2, [Y1])
    requires Is(Last(start), E, Follower, 3, []) && Last(start).nodes[C].leading == Fresh(C, 1)
    ensures IsPath(run) && run[0] == start[0] && Complete(Last(run)) && Applied(Last(run))
    ensures Is(Last(run), C, Leader, 4, [Y1, W2]) && Last(run).nodes[C].leading == Fresh(C, 2)
  {
    run := Unseat(start);
    run := FourthElection(run);
  }

  /** What the source may do: a step of the cluster model, or use a reply without comparing terms. */
  ghost predicate LooseStep(s: State, s': State) {
    Step(s, s') || exists n, m :: Uses(s, s', n, m)
  }

  ghost predicate LooseAt(run: seq<State>, i: nat)
    requires i + 1 < |run|
  {
    LooseStep(run[i], run[i + 1])
  }

  ghost predicate IsLooseRun(run: seq<State>) {
    && |run| > 0 && Init(run[0])
    && forall i: nat {:trigger LooseAt(run, i)} | i + 1 < |run| :: LooseAt(run, i)
  }

  lemma Join(a: seq<State>, b: seq<State>, n: NodeId, m: Msg)
    requires IsPath(a) && Init(a[0]) && IsPath(b) && Uses(Last(a), b[0], n, m)
    ensures IsLooseRun(a + b)
  {
    var run := a + b;
    forall i: nat | i + 1 < |run| ensures LooseAt(run, i) {
      if i + 1 < |a| {
        assert StepAt(a, i) && Step(run[i], run[i + 1]);
      } else if i >= |a| {
        assert StepAt(b, i - |a|) && Step(run[i], run[i + 1]);
      } else {
        assert Uses(run[i], run[i + 1], n, m);
      }
    }
  }

  /** Without the comparison state machine safety is false: two nodes apply different entries at index 2. */
  lemma StaleRepliesBreakSafety() returns (run: seq<State>)
    ensures IsLooseRun(run) && A in Last(run).nodes && C in Last(run).nodes
    ensures
      var x, y := Last(run).nodes[A].machine, Last(run).nodes[C].machine;
      |x| == |y| == 2 && x[1].index == y[1].index == 2 && x[1] != y[1]
  {
    var before := AwaitingIsReachable();
    var after := Diverge(Last(before));
    LateReplyCounts(Last(before));
    Join(before, after, A, Late());
    run := before + after;
  }

  /**
   With the comparison: a reply to a request of the leader's own term advances the commit index only to
   an entry of that term which a quorum has acknowledged in it.
   */
  lemma CurrentReplyCommitsSoundly(run: seq<State>, i: nat, n: NodeId, m: Msg)
    requires IsRun(run) && i < |run| && n in run[i].nodes && run[i].nodes[n].role == Leader
    requires m in run[i].msgs && m.AppendAnswer? && m.args.leader == n && m.args.term == run[i].nodes[n].term
    ensures Enabled(run[i], DoHandleAppendAnswer(n, m))
    ensures
      var x, s' := run[i].nodes[n], After(run[i], DoHandleAppendAnswer(n, m));
      s'.nodes[n].commit != x.commit ==> s'.nodes[n].commit > x.commit && CommitOk(s', x.term, s'.nodes[n].commit)
  {
    var s, a := run[i], DoHandleAppendAnswer(n, m);
    InvAlways(run, i);
    InvKept(s, a);
    if NodeAfter(s, a).commit != s.nodes[n].commit {
      AnswerCommitOk(s, a);
    }
  }
}
