/**
 Votes are also given where they should be. Log positions are totally ordered, so some member of any
 set of nodes is accepted by all of them; and from every state of every run, any majority can elect such
 a member by its own steps.
 */
module Electability {
  import opened RaftTypes
  import opened NodeSpec
  import opened LeaderLogs
  import opened Cluster
  import opened Safety
  import opened Paths

  // ----- the order of positions -----

  /** A candidate with log `a` passes the check of a voter with log `b`. */
  predicate AtLeast(a: seq<Entry>, b: seq<Entry>) {
    UpToDate(|a|, LastTerm(a), b)
  }

  /** Of any two logs one is accepted against the other; both are exactly when the positions are equal. */
  lemma PositionsTotal(a: seq<Entry>, b: seq<Entry>)
    ensures AtLeast(a, b) || AtLeast(b, a)
    ensures AtLeast(a, b) && AtLeast(b, a) <==> |a| == |b| && LastTerm(a) == LastTerm(b)
  {
  }

  lemma PositionsTransitive(a: seq<Entry>, b: seq<Entry>, c: seq<Entry>)
    requires AtLeast(a, b) && AtLeast(b, c)
    ensures AtLeast(a, c)
  {
  }

  /** A log is accepted against everything it has grown from, and what is shorter is not accepted against it. */
  lemma GrownIsAccepted(a: seq<Entry>, b: seq<Entry>)
    requires Sorted(a) && b <= a
    ensures AtLeast(a, b)
    ensures b != a ==> !AtLeast(b, a)
  {
    if b != [] {
      assert a[|b| - 1].term <= a[|a| - 1].term;
    }
  }

  /** In any state, any nodes have one among them that all of them accept. */
  lemma {:induction false} MostRecent(s: State, q: set<NodeId>) returns (m: NodeId)
    requires q != {} && q <= s.nodes.Keys
    ensures m in q && forall n | n in q :: AtLeast(s.nodes[m].log, s.nodes[n].log)
  {
    m :| m in q;
    if q != {m} {
      var other := MostRecent(s, q - {m});
      PositionsTotal(s.nodes[m].log, s.nodes[other].log);
      if AtLeast(s.nodes[m].log, s.nodes[other].log) {
        forall n | n in q ensures AtLeast(s.nodes[m].log, s.nodes[n].log) {
          if n != m {
            PositionsTransitive(s.nodes[m].log, s.nodes[other].log, s.nodes[n].log);
          }
        }
      } else {
        m := other;
      }
    }
  }

  // ----- who is granted -----

  /** A vote is granted exactly to a candidate of a term in which no other vote is held, if its log is recent enough. */
  lemma GrantedIff(x: NodeState, args: VoteArgs)
    ensures HandleVote(x, args).1.granted <==>
            && (args.term > x.term || (args.term == x.term && x.votedFor in {NO_NODE, args.candidate}))
            && UpToDate(args.lastIndex, args.lastTerm, x.log)
    ensures HandleVote(x, args).1.granted ==>
            HandleVote(x, args).0.votedFor == args.candidate && HandleVote(x, args).0.disk == Disk(args.term, args.candidate)
  {
  }

  /** The member that all accept is granted the vote of each that is in a lower term or has not voted. */
  lemma MostRecentIsGranted(s: State, q: set<NodeId>, args: VoteArgs, m: NodeId, v: NodeId)
    requires q <= s.nodes.Keys && m in q && v in q && forall n | n in q :: AtLeast(s.nodes[m].log, s.nodes[n].log)
    requires args == VoteArgs(args.term, m, |s.nodes[m].log|, LastTerm(s.nodes[m].log))
    requires s.nodes[v].term < args.term || (s.nodes[v].term == args.term && s.nodes[v].votedFor == NO_NODE)
    ensures HandleVote(s.nodes[v], args).1 == VoteReply(args.term, true)
  {
    assert AtLeast(s.nodes[m].log, s.nodes[v].log);
  }

  /** A pre-vote is what the vote would be at a node that has not voted; the answer carries the node's term. */
  lemma PreVoteIff(x: NodeState, args: VoteArgs)
    ensures HandlePreVote(x, args).granted <==> HandleVote(x.(votedFor := NO_NODE), args).1.granted
    ensures HandlePreVote(x, args).term == x.term
  {
  }

  // ----- an election -----

  ghost predicate StandsAt(s: State, n: NodeId, t: nat, log: seq<Entry>) {
    && n in s.nodes && s.nodes[n].role == Candidate && s.nodes[n].term == t == s.nodes[n].disk.term
    && s.nodes[n].log == log
    && VoteRequest(VoteArgs(t, n, |log|, LastTerm(log))) in s.msgs
  }

  lemma StandOnce(run: seq<State>, n: NodeId) returns (run': seq<State>)
    requires IsPath(run) && n in Last(run).nodes && Last(run).nodes[n].id == n
    ensures IsPath(run') && n in Last(run').nodes && Moves(run, run', n, Last(run').nodes[n])
    ensures Last(run').nodes[n].id == n
    ensures StandsAt(Last(run'), n, Last(run).nodes[n].term + 1, Last(run).nodes[n].log)
  {
    var x := Last(run).nodes[n];
    run' := Take(run, DoReadPosition(n));
    run' := Take(run', DoBecomeCandidate(n, x.log));
    run' := Take(run', DoSave(n));
    run' := Take(run', DoRequestVotes(n, Ballot(x.term + 1, |x.log|, LastTerm(x.log))));
  }

  /** Standing again and again, into a term above t. */
  lemma {:induction false} StandAbove(run: seq<State>, n: NodeId, t: nat) returns (run': seq<State>)
    requires IsPath(run) && n in Last(run).nodes && Last(run).nodes[n].id == n
    ensures IsPath(run') && n in Last(run').nodes && Moves(run, run', n, Last(run').nodes[n])
    ensures Last(run').nodes[n].term > t
    ensures StandsAt(Last(run'), n, Last(run').nodes[n].term, Last(run).nodes[n].log)
    decreases t - Last(run).nodes[n].term
  {
    run' := StandOnce(run, n);
    if Last(run').nodes[n].term <= t {
      run' := StandAbove(run', n, t);
    }
  }

  /** What a set of voters does not change. */
  ghost predicate OnlyMoved(run: seq<State>, run': seq<State>, moved: set<NodeId>)
    requires |run| > 0
  {
    && IsPath(run') && run <= run'
    && Last(run').config == Last(run).config && Last(run).msgs <= Last(run').msgs
    && Last(run').nodes.Keys == Last(run).nodes.Keys
    && forall n | n in Last(run).nodes && n !in moved :: Last(run').nodes[n] == Last(run).nodes[n]
  }

  lemma GrantOne(run: seq<State>, v: NodeId, args: VoteArgs) returns (run': seq<State>)
    requires IsPath(run) && v in Last(run).nodes && VoteRequest(args) in Last(run).msgs && args.candidate != v
    requires HandleVote(Last(run).nodes[v], args).1 == VoteReply(args.term, true)
    ensures OnlyMoved(run, run', {v})
    ensures VoteAnswer(v, args.candidate, args.term, VoteReply(args.term, true)) in Last(run').msgs
  {
    run' := Take(run, DoHandleVote(v, args));
  }

  lemma {:induction false} GrantAll(run: seq<State>, voters: set<NodeId>, args: VoteArgs) returns (run': seq<State>)
    requires IsPath(run) && voters <= Last(run).nodes.Keys && VoteRequest(args) in Last(run).msgs
    requires args.candidate !in voters
    requires forall v | v in voters :: HandleVote(Last(run).nodes[v], args).1 == VoteReply(args.term, true)
    ensures OnlyMoved(run, run', voters)
    ensures forall v | v in voters ::
              VoteAnswer(v, args.candidate, args.term, VoteReply(args.term, true)) in Last(run').msgs
    decreases voters
  {
    run' := run;
    if voters != {} {
      var v :| v in voters;
      run' := GrantOne(run, v, args);
      run' := GrantAll(run', voters - {v}, args);
    }
  }

  lemma {:induction false} TermsBounded(s: State, q: set<NodeId>) returns (t: nat)
    requires q <= s.nodes.Keys
    ensures forall n | n in q :: s.nodes[n].term <= t
  {
    t := 0;
    if q != {} {
      var n :| n in q;
      t := TermsBounded(s, q - {n});
      t := if t < s.nodes[n].term then s.nodes[n].term else t;
    }
  }

  lemma WinNow(run: seq<State>, n: NodeId, q: set<NodeId>, t: nat, log: seq<Entry>) returns (run': seq<State>)
    requires IsPath(run) && StandsAt(Last(run), n, t, log) && n in q && IsQuorum(Last(run).config, q)
    requires forall v | v in q && v != n :: VoteAnswer(v, n, t, VoteReply(t, true)) in Last(run).msgs
    ensures OnlyMoved(run, run', {n}) && Leads(Last(run'), n, t)
  {
    run' := Take(run, DoWin(n, q));
  }

  /**
   From every state of every run, every majority can elect one of its members by its own steps alone, in
   a term above all of theirs: the one whose position all of them accept.
   */
  lemma MajorityCanElect(run: seq<State>, q: set<NodeId>) returns (run': seq<State>, m: NodeId, t: nat)
    requires IsRun(run) && IsQuorum(Last(run).config, q)
    ensures IsRun(run') && run <= run' && m in q && Leads(Last(run'), m, t)
    ensures q <= Last(run).nodes.Keys && forall n | n in q :: Last(run).nodes[n].term < t
    ensures forall n | n in Last(run).nodes && n !in q :: n in Last(run').nodes && Last(run').nodes[n] == Last(run).nodes[n]
  {
    var s := Last(run);
    InvAlways(run, |run| - 1);
    m := MostRecent(s, q);
    var bound := TermsBounded(s, q);
    run' := StandAbove(run, m, bound);
    var s' := Last(run');
    t := s'.nodes[m].term;
    var args := VoteArgs(t, m, |s.nodes[m].log|, LastTerm(s.nodes[m].log));
    forall v | v in q - {m} ensures HandleVote(s'.nodes[v], args).1 == VoteReply(t, true) {
      assert s'.nodes[v] == s.nodes[v];
      MostRecentIsGranted(s, q, args, m, v);
    }
    run' := GrantAll(run', q - {m}, args);
    run' := WinNow(run', m, q, t, s.nodes[m].log);
    PathIsRun(run');
  }
}
