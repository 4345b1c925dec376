/** Every action keeps commitments, messages and the state machines in order. */
module StepCommits {
  import opened RaftTypes
  import opened NodeSpec
  import opened LeaderLogs
  import opened Cluster
  import opened Invariant
  import opened StepGrows
  import opened StepLogs
  import opened StepRoles
  import opened StepAcks

  // ----- commitments -----

  lemma OldCommitOk(s: State, s': State, t: nat, i: nat)
    requires Shape(s) && Grows(s, s') && CommitOk(s, t, i)
    ensures CommitOk(s', t, i)
  {
    var q :| AckedBy(s, q, t, i);
    assert AckedBy(s', q, t, i);
  }

  /** The peers counted by updateCommitIndex, with the leader itself, form a quorum that acknowledged. */
  lemma CountedQuorum(s: State, x: NodeState, c: nat)
    requires Shape(s) && x.id in s.config && x.config == s.config && x.leading.Some? && MatchOk(s, x)
    requires x.leading.value.matchIndex.Keys == s.config - {x.id}
    requires 0 < c <= |x.log| && CountAcks(x.leading.value.matchIndex, c) >= QuorumSize(s.config)
    ensures exists q :: AckedBy(s, q, x.term, c)
  {
    var m := x.leading.value.matchIndex;
    var peers := set p | p in m && m[p] >= c;
    var q := {x.id} + peers;
    assert |q| == 1 + |peers|;
    assert AckedBy(s, q, x.term, c);
  }

  lemma AnswerCommitOk(s: State, a: Action)
    requires Shape(s) && Enabled(s, a) && Shape(After(s, a))
    requires Roles(After(s, a)) && Matches(After(s, a))
    requires a.DoHandleAppendAnswer? && NodeAfter(s, a).commit != s.nodes[a.n].commit
    ensures CommitOk(After(s, a), s.nodes[a.n].term, NodeAfter(s, a).commit)
    ensures NodeAfter(s, a).commit > s.nodes[a.n].commit && s.nodes[a.n].role == Leader
  {
    var s' := After(s, a);
    var x, y := s.nodes[a.n], NodeAfter(s, a);
    AnswerAdvances(x, a.m.peer, Sent(a.m.args), a.m.reply);
    LeaderCommitOk(s', a.n);
  }

  lemma LeaderCommitOk(s: State, n: NodeId)
    requires Shape(s) && Roles(s) && Matches(s) && n in s.config
    requires var y := s.nodes[n];
             && y.role == Leader && y.leading.Some? && 0 < y.commit <= |y.log| && TermAt(y.log, y.commit) == y.term
             && CountAcks(y.leading.value.matchIndex, y.commit) >= QuorumSize(y.config)
    ensures CommitOk(s, s.nodes[n].term, s.nodes[n].commit)
  {
    assert RoleOk(s, s.nodes[n]) && MatchOk(s, s.nodes[n]);
    CountedQuorum(s, s.nodes[n], s.nodes[n].commit);
  }

  lemma AnswerAdvances(x: NodeState, peer: NodeId, sent: Option<nat>, reply: AppendReply)
    requires HandleAppendReply(x, peer, sent, reply).commit != x.commit
    ensures
      var y := HandleAppendReply(x, peer, sent, reply);
      && x.role == y.role == Leader && y.term == x.term && y.log == x.log && y.leading.Some?
      && x.commit < y.commit <= |y.log| && TermAt(y.log, y.commit) == y.term
      && CountAcks(y.leading.value.matchIndex, y.commit) >= QuorumSize(y.config)
  {
    AdvanceBounded(NoteSuccess(x, peer, sent), |x.log|);
  }

  lemma SoleMember(config: set<NodeId>, n: NodeId)
    requires n in config && ClusterSize(config) <= 1
    ensures config == {n} && QuorumSize(config) == 1
  {
    assert |config - {n}| == |config| - 1;
  }

  lemma ProposeCommitOk(s: State, a: Action)
    requires Inv(s) && Proposes(s, a) && Grows(s, After(s, a))
    requires NodeAfter(s, a).commit != s.nodes[a.n].commit
    ensures CommitOk(After(s, a), s.nodes[a.n].term, NodeAfter(s, a).commit)
  {
    SoleMember(s.config, a.n);
    assert AckedBy(After(s, a), {a.n}, s.nodes[a.n].term, NodeAfter(s, a).commit);
  }

  lemma CommitsKept(s: State, a: Action)
    requires Inv(s) && Enabled(s, a) && Grows(s, After(s, a)) && Shape(After(s, a))
    requires Roles(After(s, a)) && Matches(After(s, a))
    ensures Commits(After(s, a))
  {
    var s' := After(s, a);
    forall t, i | (t, i) in s'.h.commits ensures CommitOk(s', t, i) {
      if (t, i) in s.h.commits {
        assert CommitOk(s, t, i);
        OldCommitOk(s, s', t, i);
      } else if a.DoPropose? {
        ProposeCommitOk(s, a);
      } else {
        AnswerCommitOk(s, a);
      }
    }
  }

  // ----- commit indices -----

  lemma CoveredGrown(s: State, s': State, l: seq<Entry>, l': seq<Entry>, c: nat, hi: nat, hi': nat)
    requires Shape(s) && Grows(s, s') && Covered(s.h, l, c, hi) && hi <= hi'
    requires c <= |l'| && (c <= |l| ==> l'[..c] == l[..c])
    ensures Covered(s'.h, l', c, hi')
  {
    if c > 0 {
      var t, i :| (t, i) in s.h.commits && CoveredBy(s.h, l, c, hi, t, i);
      PrefixTrans(l[..c], s.h.logs[t], s'.h.logs[t]);
      assert CoveredBy(s'.h, l', c, hi', t, i);
    }
  }

  lemma DeliveredCovered(s: State, a: Action)
    requires Inv(s) && Succeeds(s, a) && Grows(s, After(s, a))
    ensures CommitKnown(After(s, a).h, NodeAfter(s, a))
  {
    var x, y := s.nodes[a.n], NodeAfter(s, a);
    SuccessSaves(s, a);
    DeliveredCommit(s, a.n, a.args);
    assert CommitKnown(s.h, x);
    if a.args.commit > x.commit {
      CoveredGrown(s, After(s, a), s.h.logs[a.args.term], y.log, y.commit, a.args.term, y.disk.term);
    } else {
      SmallCommit(x, a.args);
      CoveredGrown(s, After(s, a), x.log, y.log, x.commit, x.disk.term, y.disk.term);
    }
  }

  lemma SmallCommit(x: NodeState, args: AppendArgs)
    requires args.commit <= x.commit
    ensures HandleAppend(x, args).0.commit == x.commit
  {
  }

  lemma NewCommitCovered(s: State, a: Action)
    requires Enabled(s, a) && Shape(After(s, a)) && Roles(After(s, a)) && NodeAfter(s, a).role == Leader
    requires NodeAfter(s, a).term == s.nodes[a.n].term
    requires CommitOk(After(s, a), s.nodes[a.n].term, NodeAfter(s, a).commit)
    requires (s.nodes[a.n].term, NodeAfter(s, a).commit) in After(s, a).h.commits
    ensures CommitKnown(After(s, a).h, NodeAfter(s, a))
  {
    LeaderCommitKnown(After(s, a), a.n);
  }

  lemma LeaderCommitKnown(s: State, n: NodeId)
    requires Shape(s) && Roles(s) && n in s.config && s.nodes[n].role == Leader
    requires CommitOk(s, s.nodes[n].term, s.nodes[n].commit) && (s.nodes[n].term, s.nodes[n].commit) in s.h.commits
    ensures CommitKnown(s.h, s.nodes[n])
  {
    var y := s.nodes[n];
    assert RoleOk(s, y);
    assert CoveredBy(s.h, y.log, y.commit, y.disk.term, y.term, y.commit);
  }

  lemma CommittedPrefixStays(s: State, a: Action)
    requires Enabled(s, a) && !Succeeds(s, a) && s.nodes[a.n].commit <= |s.nodes[a.n].log|
    ensures
      var x, y := s.nodes[a.n], NodeAfter(s, a);
      x.commit <= |y.log| && y.log[..x.commit] == x.log[..x.commit]
  {
    if !Proposes(s, a) { QuietLog(s, a); }
  }

  lemma SameCommitCovered(s: State, a: Action)
    requires Inv(s) && Enabled(s, a) && Grows(s, After(s, a)) && !Succeeds(s, a)
    requires NodeAfter(s, a).commit == s.nodes[a.n].commit
    ensures CommitKnown(After(s, a).h, NodeAfter(s, a))
  {
    var x, y := s.nodes[a.n], NodeAfter(s, a);
    assert CommitKnown(s.h, x) && NodeOk(x, s.h.logs);
    SavedTermGrows(s, a);
    CommittedPrefixStays(s, a);
    CoveredGrown(s, After(s, a), x.log, y.log, x.commit, x.disk.term, y.disk.term);
  }

  /** A commit index changes on success, on a restart, or at a leader that records a commitment. */
  lemma CommitChange(s: State, a: Action)
    requires Enabled(s, a) && !Succeeds(s, a) && NodeAfter(s, a).commit != s.nodes[a.n].commit
    ensures a.DoCrash? || a.DoHandleAppendAnswer? || Proposes(s, a)
    ensures a.DoCrash? ==> NodeAfter(s, a).commit == 0
    ensures !a.DoCrash? ==> (s.nodes[a.n].term, NodeAfter(s, a).commit) in After(s, a).h.commits
    ensures Proposes(s, a) ==> NodeAfter(s, a).role == Leader && NodeAfter(s, a).term == s.nodes[a.n].term
  {
  }

  lemma ActingCommitKnown(s: State, a: Action)
    requires Inv(s) && Enabled(s, a) && Grows(s, After(s, a)) && Shape(After(s, a))
    requires Roles(After(s, a)) && Matches(After(s, a))
    ensures CommitKnown(After(s, a).h, NodeAfter(s, a))
  {
    var x, y := s.nodes[a.n], NodeAfter(s, a);
    if Succeeds(s, a) {
      DeliveredCovered(s, a);
    } else if y.commit == x.commit {
      SameCommitCovered(s, a);
    } else {
      CommitChange(s, a);
      if Proposes(s, a) {
        ProposeCommitOk(s, a);
        NewCommitCovered(s, a);
      } else if a.DoHandleAppendAnswer? {
        AnswerCommitOk(s, a);
        AnswerAdvances(x, a.m.peer, Sent(a.m.args), a.m.reply);
        NewCommitCovered(s, a);
      }
    }
  }

  lemma NodeCommitsKept(s: State, a: Action)
    requires Inv(s) && Enabled(s, a) && Grows(s, After(s, a)) && Shape(After(s, a))
    requires Roles(After(s, a)) && Matches(After(s, a))
    ensures NodeCommits(After(s, a))
  {
    var s' := After(s, a);
    ActingCommitKnown(s, a);
    forall n | n in s'.config ensures CommitKnown(s'.h, s'.nodes[n]) {
      if n != a.n {
        var x := s.nodes[n];
        assert CommitKnown(s.h, x) && NodeOk(x, s.h.logs);
        CoveredGrown(s, s', x.log, x.log, x.commit, x.disk.term, x.disk.term);
      }
    }
  }
}
