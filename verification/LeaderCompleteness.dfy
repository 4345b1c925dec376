/**
 Leader completeness: the log of every leader holds everything committed in earlier terms. It follows
 from the invariant of one state, by induction on the term of the later leader.
 */
module LeaderCompleteness {
  import opened RaftTypes
  import opened NodeSpec
  import opened LeaderLogs
  import opened Cluster
  import opened Invariant

  // ----- quorums -----

  lemma SubsetSize<T>(a: set<T>, b: set<T>)
    requires a <= b
    ensures |a| <= |b|
  {
    if a != {} {
      var x :| x in a;
      SubsetSize(a - {x}, b - {x});
    }
  }

  lemma QuorumsMeet(config: set<NodeId>, q1: set<NodeId>, q2: set<NodeId>) returns (v: NodeId)
    requires config != {} && IsQuorum(config, q1) && IsQuorum(config, q2)
    ensures v in q1 && v in q2
  {
    SubsetSize(q1 + q2, config);
    assert |q1 + q2| + |q1 * q2| == |q1| + |q2|;
    v :| v in q1 * q2;
  }

  // ----- positions -----

  /** A prefix that ends in a term below the last term of `a` cannot reach the end of `a`. */
  lemma EarlierPrefix(p: seq<Entry>, a: seq<Entry>, l: seq<Entry>, t: nat)
    requires p <= l && a <= l && Bounded(p, t) && LastTerm(a) > t
    ensures p <= a
  {
    PrefixesComparable(p, a, l);
    assert forall j | 0 <= j < |a| && j < |p| :: a[j] == p[j];
  }

  /** A log holding entry i of the leader of term t ends in a term of at least t. */
  lemma HoldsLateTerm(log: seq<Entry>, p: seq<Entry>, t: nat, ll: LogMap)
    requires Traced(log, ll) && p <= log && |p| > 0 && p[|p| - 1].term == t
    requires forall u | u in ll :: Sorted(ll[u])
    ensures LastTerm(log) >= t && |log| >= |p|
  {
    var k := |log| - 1;
    var u := log[k].term;
    assert TracedAt(log, k, ll);
    assert log[..k + 1] == log;
    assert ll[u][|p| - 1] == log[|p| - 1] == p[|p| - 1];
    assert ll[u][k] == log[k];
  }

  /**
   The log whose position a candidate advertised holds every committed prefix `p` that a voter held
   when it found that position up to date. `earlier` is the induction hypothesis.
   */
  lemma BasisHolds(basis: seq<Entry>, log: seq<Entry>, p: seq<Entry>, t: nat, u: nat, ll: LogMap)
    requires Traced(basis, ll) && Traced(log, ll) && Bounded(basis, u - 1)
    requires forall w | w in ll :: Sorted(ll[w])
    requires t in ll && p <= ll[t] && |p| > 0 && p[|p| - 1].term == t && Bounded(p, t) && t >= 1
    requires p <= log && UpToDate(|basis|, LastTerm(basis), log)
    requires forall w | w in ll && t < w < u :: p <= ll[w]
    ensures p <= basis
  {
    HoldsLateTerm(log, p, t, ll);
    var a := LastTerm(basis);
    assert a >= t;
    var k := |basis| - 1;
    assert TracedAt(basis, k, ll);
    assert basis[k].term == a && basis[..k + 1] == basis;
    if a == t {
      assert LastTerm(log) == t && |basis| >= |log|;
      PrefixesComparable(p, basis, ll[t]);
    } else {
      EarlierPrefix(p, basis, ll[a], t);
    }
  }

  /** If no leader between t and u contradicts `p`, then what kept `a` kept `p`. */
  lemma KeptHolds(a: seq<Entry>, l: seq<Entry>, p: seq<Entry>, t: nat, u: nat, ll: LogMap)
    requires Kept(a, l, u - 1, ll) && p <= a && |p| > 0 && p[|p| - 1].term == t
    requires forall w | w in ll && t < w < u :: p <= ll[w]
    ensures p <= l
  {
    var k := |p| - 1;
    assert KeptAt(a, k, l, u - 1, ll);
    assert a[..k + 1] == p && a[k].term == t;
    forall w | w in ll && t < w <= u - 1 ensures !Conflict(ll[w], p) {
      NotConflicting(ll[w], p);
    }
  }

  ghost predicate Facts(s: State) {
    && Shape(s) && Leaders(s) && Votes(s) && Elections(s) && Candidacies(s)
    && Acks(s) && VotesKeepAcks(s)
  }

  lemma SortedLeaders(s: State)
    requires Leaders(s)
    ensures forall w | w in s.h.logs :: Sorted(s.h.logs[w])
  {
    forall w | w in s.h.logs ensures Sorted(s.h.logs[w]) {
      assert LeaderOk(s, w);
    }
  }

  /** One elector that had acknowledged the committed entry carries it into the new leader's log. */
  lemma {:induction false} ElectorCarries(s: State, t: nat, i: nat, u: nat, v: NodeId)
    requires Facts(s)
    requires t in s.h.logs && 0 < i <= |s.h.logs[t]| && s.h.logs[t][i - 1].term == t
    requires t < u && u in s.h.logs && v in s.h.electors[u]
    requires (t, v) in s.h.acks && s.h.acks[(t, v)] >= i
    requires forall w | w in s.h.logs && t < w < u :: s.h.logs[t][..i] <= s.h.logs[w]
    ensures s.h.logs[t][..i] <= s.h.logs[u]
  {
    var h := s.h;
    var p := h.logs[t][..i];
    var c := h.leaders[u];
    assert ElectionOk(s, u);
    assert VoteOk(s, u, v);
    assert LeaderOk(s, t);
    var vlog := h.voteLogs[(u, v)];
    assert AckOk(s, t, v) && VoteKeepsAck(h, u, t, v) && VoterOk(s, u, v);
    var acked := h.logs[t][..h.acks[(t, v)]];
    assert p <= acked;
    KeptHolds(acked, vlog, p, t, u, h.logs);
    var cand := h.candidacies[(u, c)];
    assert CandidacyOk(s, u, c);
    SortedLeaders(s);
    if v != c {
      BasisHolds(cand.basis, vlog, p, t, u, h.logs);
      KeptHolds(cand.basis, cand.log, p, t, u, h.logs);
    }
    PrefixTrans(p, cand.log, h.logs[u]);
  }

  /** Every leader of a later term holds what a quorum acknowledged of an entry of term t. */
  lemma {:induction false} CommittedInLaterLeaders(s: State, t: nat, i: nat, u: nat)
    requires Facts(s) && CommitOk(s, t, i)
    requires t < u && u in s.h.logs
    ensures s.h.logs[t][..i] <= s.h.logs[u]
    decreases u
  {
    forall w | w in s.h.logs && t < w < u ensures s.h.logs[t][..i] <= s.h.logs[w] {
      CommittedInLaterLeaders(s, t, i, w);
    }
    var q :| AckedBy(s, q, t, i);
    assert ElectionOk(s, u);
    var v := QuorumsMeet(s.config, q, s.h.electors[u]);
    ElectorCarries(s, t, i, u, v);
  }

  lemma SameLeader(ll: LogMap, t: nat, i: nat, u: nat)
    requires t in ll && t == u && i <= |ll[t]|
    ensures ll[t][..i] <= ll[u]
  {
  }

  /** The same, for the term of the commitment and all later ones. */
  lemma {:induction false} CommittedInLeader(s: State, t: nat, i: nat, u: nat)
    requires Facts(s) && CommitOk(s, t, i)
    requires t <= u && u in s.h.logs
    ensures s.h.logs[t][..i] <= s.h.logs[u]
  {
    if t < u {
      CommittedInLaterLeaders(s, t, i, u);
    } else {
      SameLeader(s.h.logs, t, i, u);
    }
  }

  /** Any two committed prefixes are prefixes of one leader's log. */
  lemma {:induction false} CommitsAgree(s: State, a: seq<Entry>, c: nat, hi: nat, b: seq<Entry>, d: nat, hi': nat)
    requires Facts(s) && Commits(s)
    requires Covered(s.h, a, c, hi) && Covered(s.h, b, d, hi')
    ensures c <= |a| && d <= |b|
    ensures forall k | 0 <= k < c && k < d :: a[k] == b[k]
  {
    if c > 0 && d > 0 {
      var t, i :| (t, i) in s.h.commits && CoveredBy(s.h, a, c, hi, t, i);
      var t', i' :| (t', i') in s.h.commits && CoveredBy(s.h, b, d, hi', t', i');
      var u := if t <= t' then t' else t;
      assert CommitOk(s, t, i) && CommitOk(s, t', i');
      CommittedInLeader(s, t, i, u);
      CommittedInLeader(s, t', i', u);
      CoveredPrefix(a, c, i, s.h.logs[t], s.h.logs[u]);
      CoveredPrefix(b, d, i', s.h.logs[t'], s.h.logs[u]);
      forall k | 0 <= k < c && k < d ensures a[k] == b[k] {
        assert a[..c][k] == s.h.logs[u][k] && b[..d][k] == s.h.logs[u][k];
      }
    }
  }

  lemma CoveredPrefix(a: seq<Entry>, c: nat, i: nat, l: seq<Entry>, m: seq<Entry>)
    requires c <= |a| && c <= i <= |l| && a[..c] <= l && l[..i] <= m
    ensures a[..c] <= m
  {
    assert a[..c] == l[..c] == l[..i][..c];
  }

  /** A node's committed prefix lies in the log of every leader of its saved term or later. */
  lemma {:induction false} CoveredInLeader(s: State, a: seq<Entry>, c: nat, hi: nat, u: nat)
    requires Facts(s) && Commits(s) && Covered(s.h, a, c, hi)
    requires hi <= u && u in s.h.logs
    ensures c <= |a| && a[..c] <= s.h.logs[u]
  {
    if c > 0 {
      var t, i :| (t, i) in s.h.commits && CoveredBy(s.h, a, c, hi, t, i);
      assert CommitOk(s, t, i);
      CommittedInLeader(s, t, i, u);
      CoveredPrefix(a, c, i, s.h.logs[t], s.h.logs[u]);
    }
  }
}
