/** Batched proposals: appending a whole batch and committing once, against proposing one by one. */
module Batch {
  import opened RaftTypes
  import opened NodeSpec

  /** One item of a batch at a leader: appended or refused, but not committed yet. */
  function AppendNext(s: NodeState, p: Proposal): (NodeState, ProposeResult) {
    if p.command.None? then (s, BadCommand)
    else
      var e := Entry(|s.log| + 1, s.term, p.kind, p.command.value);
      (s.(log := s.log + [e]), Accepted(e.index, e.term))
  }

  function AppendAll(s: NodeState, ps: seq<Proposal>): (NodeState, seq<ProposeResult>) {
    if ps == [] then (s, [])
    else
      var n := |ps| - 1;
      var (s1, rs) := AppendAll(s, ps[..n]);
      var (s2, r) := AppendNext(s1, ps[n]);
      (s2, rs + [r])
  }

  /** A node that does not lead refuses every item and changes nothing. */
  lemma {:induction false} AllRefused(s: NodeState, ps: seq<Proposal>)
    requires s.role != Leader
    ensures
      var (s', rs) := ProposeAll(s, ps);
      s' == s && |rs| == |ps| && forall i | 0 <= i < |rs| :: rs[i] == NotLeader(s.leaderId)
  {
    if ps != [] {
      AllRefused(s, ps[..|ps| - 1]);
    }
  }

  /** Committing once at the end of a batch is committing after every item. */
  lemma {:induction false} CommitOnce(s: NodeState, ps: seq<Proposal>)
    requires s.role == Leader
    ensures
      var (s1, rs) := AppendAll(s, ps);
      var s2 := if s1.log != s.log && ClusterSize(s.config) <= 1 then s1.(commit := |s1.log|) else s1;
      && ProposeAll(s, ps) == (s2, rs)
      && s.log <= s1.log && s1 == s.(log := s1.log)
  {
    if ps != [] {
      CommitOnce(s, ps[..|ps| - 1]);
    }
  }

  function Accepts(rs: seq<ProposeResult>): nat {
    if rs == [] then 0 else Accepts(rs[..|rs| - 1]) + (if rs[|rs| - 1].Accepted? then 1 else 0)
  }

  /** A batch changes the log and the commit index only, and the log by its accepted items. */
  lemma {:induction false} BatchShape(s: NodeState, ps: seq<Proposal>)
    requires s.role == Leader
    ensures
      var (s', rs) := ProposeAll(s, ps);
      && |rs| == |ps| && s' == s.(log := s'.log, commit := s'.commit)
      && s.log <= s'.log && |s'.log| == |s.log| + Accepts(rs)
  {
    if ps != [] {
      var n := |ps| - 1;
      BatchShape(s, ps[..n]);
      assert ProposeAll(s, ps).1[..n] == ProposeAll(s, ps[..n]).1;
    }
  }

  /** The results and the log of a shorter batch are prefixes of those of a longer one. */
  lemma BatchPrefix(s: NodeState, ps: seq<Proposal>)
    requires s.role == Leader && ps != []
    ensures
      var n := |ps| - 1;
      && ProposeAll(s, ps[..n]).0.log <= ProposeAll(s, ps).0.log
      && |ProposeAll(s, ps).1| == n + 1 && ProposeAll(s, ps).1[..n] == ProposeAll(s, ps[..n]).1
  {
    BatchShape(s, ps[..|ps| - 1]);
  }

  /**
   Every request of a batch gets exactly one result. The accepted ones get consecutive indices in the
   current term, and those are the entries the log gains, in the order of the batch.
   */
  lemma {:induction false} BatchResults(s: NodeState, ps: seq<Proposal>, i: nat)
    requires s.role == Leader && i < |ps|
    ensures
      var (s', rs) := ProposeAll(s, ps);
      && |rs| == |ps|
      && (rs[i].Accepted? <==> ps[i].command.Some?)
      && (rs[i].Accepted? ==>
            && rs[i].index == |s.log| + Accepts(rs[..i]) + 1 <= |s'.log|
            && rs[i].term == s.term
            && s'.log[rs[i].index - 1] == Entry(rs[i].index, s.term, ps[i].kind, ps[i].command.value))
  {
    var n := |ps| - 1;
    BatchPrefix(s, ps);
    if i < n {
      BatchResults(s, ps[..n], i);
      assert ProposeAll(s, ps).1[..i] == ProposeAll(s, ps[..n]).1[..i];
      assert ProposeAll(s, ps).1[i] == ProposeAll(s, ps[..n]).1[i];
    } else {
      BatchShape(s, ps[..n]);
    }
  }
}
