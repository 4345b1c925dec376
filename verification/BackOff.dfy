/**
 The conflict back-off between a leader and a follower. Both logs are traced to the same leaders'
 logs, which is what log matching needs.
 */
module BackOffProof {
  import opened RaftTypes
  import opened NodeSpec
  import opened LeaderLogs
  import opened Cluster
  import opened Invariant
  import opened StepLogs
  import opened StepAcks
  import opened LeaderCompleteness
  import opened Safety

  /** The length of the longest common prefix. */
  function Common(a: seq<Entry>, b: seq<Entry>): nat {
    if a == [] || b == [] || a[0] != b[0] then 0 else 1 + Common(a[1..], b[1..])
  }

  lemma {:induction false} CommonMeaning(a: seq<Entry>, b: seq<Entry>)
    ensures var c := Common(a, b);
            && c <= |a| && c <= |b| && a[..c] == b[..c]
            && (c < |a| && c < |b| ==> a[c] != b[c])
  {
    if a != [] && b != [] && a[0] == b[0] {
      CommonMeaning(a[1..], b[1..]);
      var c := Common(a[1..], b[1..]);
      assert a[..c + 1] == [a[0]] + a[1..][..c];
      assert b[..c + 1] == [b[0]] + b[1..][..c];
    }
  }

  /** A shared prefix is no longer than the common one. */
  lemma SharedIsCommon(a: seq<Entry>, b: seq<Entry>, k: nat)
    requires k <= |a| && k <= |b| && a[..k] == b[..k]
    ensures k <= Common(a, b)
  {
    CommonMeaning(a, b);
    var c := Common(a, b);
    if c < k {
      assert a[..k][c] == b[..k][c];
    }
  }

  lemma {:induction false} ConflictStartMeaning(l: seq<Entry>, term: nat, i: nat)
    requires i <= |l|
    ensures var f := ConflictStart(l, term, i);
            && f <= i + 1 && f != 1
            && (forall k | 1 <= k <= i && k >= f :: TermAt(l, k) == term)
            && (f > 0 ==> TermAt(l, f - 1) != term)
    decreases i
  {
    if i > 0 && TermAt(l, i) == term {
      ConflictStartMeaning(l, term, i - 1);
    }
  }

  lemma {:induction false} LastOfTermMeaning(l: seq<Entry>, term: nat, i: nat)
    requires i <= |l|
    ensures var k := LastOfTerm(l, term, i);
            && k <= i
            && (k > 0 ==> TermAt(l, k) == term)
            && (forall j | k < j <= i :: TermAt(l, j) != term)
    decreases i
  {
    if i > 0 && TermAt(l, i) != term {
      LastOfTermMeaning(l, term, i - 1);
    }
  }

  /** Equal terms at an index lie within the common prefix. */
  lemma MatchIsCommon(a: seq<Entry>, b: seq<Entry>, k: nat, ll: LogMap)
    requires Traced(a, ll) && Traced(b, ll)
    requires 1 <= k <= |a| && k <= |b| && TermAt(a, k) == TermAt(b, k)
    ensures k <= Common(a, b)
  {
    SameTermSamePrefix(a, b, k - 1, ll);
    SharedIsCommon(a, b, k);
  }

  lemma CommonTerms(a: seq<Entry>, b: seq<Entry>, k: nat)
    requires 1 <= k <= Common(a, b)
    ensures k <= |a| && k <= |b| && TermAt(a, k) == TermAt(b, k)
  {
    CommonMeaning(a, b);
    assert a[..Common(a, b)][k - 1] == b[..Common(a, b)][k - 1];
  }

  /** A rejected probe of a leader's log. */
  ghost predicate Rejected(f: seq<Entry>, l: seq<Entry>, args: AppendArgs) {
    && args.prevIndex <= |l| && args.prevTerm == TermAt(l, args.prevIndex)
    && !PrevMatches(f, args)
  }

  lemma RejectedBeyondCommon(f: seq<Entry>, l: seq<Entry>, args: AppendArgs)
    requires Rejected(f, l, args)
    ensures Common(f, l) < args.prevIndex
  {
    if args.prevIndex <= Common(f, l) {
      CommonTerms(f, l, args.prevIndex);
    }
  }

  /** An entry of term c at or beyond index p fixes what stands at p, wherever c occurs at p. */
  lemma SameBelow(l: seq<Entry>, f: seq<Entry>, k: nat, p: nat, ll: LogMap)
    requires Traced(f, ll) && Traced(l, ll)
    requires 1 <= p <= k <= |l| && p <= |f| && TermAt(l, k) == TermAt(f, p)
    ensures TermAt(l, p) == TermAt(f, p)
  {
    var c := TermAt(f, p);
    assert TracedAt(l, k - 1, ll) && TracedAt(f, p - 1, ll);
    assert l[..k][p - 1] == ll[c][p - 1];
    assert f[..p][p - 1] == ll[c][p - 1];
  }

  /** The leader's last entry of the conflicting term lies below the rejected index. */
  lemma LeaderScanStopsBelow(f: seq<Entry>, l: seq<Entry>, args: AppendArgs, ll: LogMap)
    requires Traced(f, ll) && Traced(l, ll) && Rejected(f, l, args) && args.prevIndex <= |f|
    ensures LastOfTerm(l, TermAt(f, args.prevIndex), |l|) < args.prevIndex
  {
    var k := LastOfTerm(l, TermAt(f, args.prevIndex), |l|);
    LastOfTermMeaning(l, TermAt(f, args.prevIndex), |l|);
    if k >= args.prevIndex {
      SameBelow(l, f, k, args.prevIndex, ll);
      assert false;
    }
  }

  /** In a sorted log the conflicting term fills everything between two of its entries. */
  lemma RunIsContiguous(f: seq<Entry>, c: nat, k: nat, j: nat, p: nat)
    requires Sorted(f) && 1 <= k <= j <= p <= |f| && TermAt(f, k) == c && TermAt(f, p) == c
    ensures TermAt(f, j) == c
  {
    assert f[k - 1].term <= f[j - 1].term <= f[p - 1].term;
  }

  /** The leader knows the conflicting term: it resumes after its last entry of that term. */
  lemma KnownTermStep(f: seq<Entry>, l: seq<Entry>, args: AppendArgs, k: nat, ll: LogMap)
    requires Traced(f, ll) && Traced(l, ll) && Sorted(f) && Rejected(f, l, args) && args.prevIndex <= |f|
    requires k == LastOfTerm(l, TermAt(f, args.prevIndex), |l|) && k > 0
    ensures Common(f, l) <= k < args.prevIndex
  {
    var c, d := TermAt(f, args.prevIndex), Common(f, l);
    RejectedBeyondCommon(f, l, args);
    LeaderScanStopsBelow(f, l, args, ll);
    LastOfTermMeaning(l, c, |l|);
    if k < d {
      CommonTerms(f, l, d);
      CommonTerms(f, l, k);
      RunIsContiguous(f, c, k, d, args.prevIndex);
      assert false;
    }
  }

  /** The leader does not know it: it resumes at the start of the follower's run, or parks. */
  lemma UnknownTermStep(f: seq<Entry>, l: seq<Entry>, args: AppendArgs)
    requires Rejected(f, l, args) && args.prevIndex <= |f|
    requires LastOfTerm(l, TermAt(f, args.prevIndex), |l|) == 0
    ensures
      var start := ConflictStart(f, TermAt(f, args.prevIndex), args.prevIndex - 1);
      start <= args.prevIndex && (start > Common(f, l) || (start == 0 && Common(f, l) == 0))
  {
    var c, d := TermAt(f, args.prevIndex), Common(f, l);
    RejectedBeyondCommon(f, l, args);
    ConflictStartMeaning(f, c, args.prevIndex - 1);
    LastOfTermMeaning(l, c, |l|);
    if d > 0 {
      CommonTerms(f, l, d);
    }
  }

  /** One rejection: the next index drops below the rejected one but not into the common prefix. */
  lemma BackOffStep(f: seq<Entry>, l: seq<Entry>, term: nat, args: AppendArgs, ll: LogMap)
    requires Traced(f, ll) && Traced(l, ll) && Sorted(f) && Numbered(f) && Rejected(f, l, args)
    ensures var next := BackOff(l, Reject(f, term, args));
            && next <= args.prevIndex
            && (next > Common(f, l) || (next == 0 && Common(f, l) == 0))
  {
    if args.prevIndex > |f| {
      CommonMeaning(f, l);
    } else {
      var k := LastOfTerm(l, TermAt(f, args.prevIndex), |l|);
      if k > 0 {
        KnownTermStep(f, l, args, k, ll);
      } else {
        UnknownTermStep(f, l, args);
      }
    }
  }

  // ----- the whole search -----

  function Probe(l: seq<Entry>, next: nat): AppendArgs
    requires 1 <= next <= |l| + 1
  {
    AppendArgs(0, NO_NODE, next - 1, TermAt(l, next - 1), [], 0)
  }

  /**
   The next index at which probing ends while both logs stand still: the first one the follower
   accepts, or 0 when the peer is parked. At most `rounds` probes are made.
   */
  function Settle(f: seq<Entry>, l: seq<Entry>, next: nat, rounds: nat): Option<nat>
    requires next <= |l| + 1
    decreases rounds
  {
    if next == 0 then Some(0)
    else if PrevMatches(f, Probe(l, next)) then Some(next)
    else if rounds == 0 then None
    else
      var next' := BackOff(l, Reject(f, 0, Probe(l, next)));
      if next' > |l| + 1 then None else Settle(f, l, next', rounds - 1)
  }

  /**
   From any next index beyond the common prefix, probing ends within next - Common rejections, exactly
   one past the common prefix; or it parks the peer, which only happens when nothing is shared.
   */
  lemma {:induction false} SettleIsExact(f: seq<Entry>, l: seq<Entry>, next: nat, rounds: nat, ll: LogMap)
    requires Traced(f, ll) && Traced(l, ll) && Sorted(f) && Numbered(f) && Numbered(l)
    requires Common(f, l) < next <= |l| + 1 && rounds >= next - Common(f, l)
    ensures var r := Settle(f, l, next, rounds);
            r == Some(Common(f, l) + 1) || (r == Some(0) && Common(f, l) == 0)
    decreases rounds
  {
    var args := Probe(l, next);
    if PrevMatches(f, args) {
      if next > 1 {
        MatchIsCommon(f, l, next - 1, ll);
      }
    } else {
      BackOffStep(f, l, 0, args, ll);
      var next' := BackOff(l, Reject(f, 0, args));
      if next' > 0 {
        SettleIsExact(f, l, next', rounds - 1, ll);
      }
    }
  }

  // ----- the fast part -----

  /** A follower whose log is too short, but a prefix of the leader's, is reached with the next request. */
  lemma ShortFollowerCaughtUp(f: seq<Entry>, l: seq<Entry>, term: nat, args: AppendArgs)
    requires Rejected(f, l, args) && args.prevIndex > |f|
    ensures BackOff(l, Reject(f, term, args)) == |f| + 1 <= |l| + 1
    ensures f <= l ==> PrevMatches(f, Probe(l, |f| + 1))
  {
  }

  /** Each further rejection is about a lower term: a whole term of the follower is skipped at a time. */
  lemma ConflictTermFalls(f: seq<Entry>, l: seq<Entry>, term: nat, args: AppendArgs, ll: LogMap)
    requires Traced(f, ll) && Traced(l, ll) && Sorted(f) && Numbered(f)
    requires Rejected(f, l, args) && args.prevIndex <= |f|
    ensures
      var next := BackOff(l, Reject(f, term, args));
      && next <= args.prevIndex
      && (0 < next && !PrevMatches(f, Probe(l, next)) ==>
            1 < next && TermAt(f, next - 1) < TermAt(f, args.prevIndex))
  {
    BackOffStep(f, l, term, args, ll);
    var c := TermAt(f, args.prevIndex);
    var next := BackOff(l, Reject(f, term, args));
    if 1 < next {
      assert f[next - 2].term <= f[args.prevIndex - 1].term;
      LastOfTermMeaning(l, c, |l|);
      ConflictStartMeaning(f, c, args.prevIndex - 1);
    }
  }

  function TermsBelow(f: seq<Entry>, c: nat): set<nat> {
    set k | 0 <= k < |f| && f[k].term < c :: f[k].term
  }

  function Terms(f: seq<Entry>): set<nat> {
    set k | 0 <= k < |f| :: f[k].term
  }

  lemma FewerTerms(f: seq<Entry>, i: nat, c: nat)
    requires 1 <= i <= |f| && TermAt(f, i) < c
    ensures |TermsBelow(f, TermAt(f, i))| < |TermsBelow(f, c)|
  {
    var t := TermAt(f, i);
    assert t == f[i - 1].term;
    assert t in TermsBelow(f, c) && t !in TermsBelow(f, t);
    SubsetSize(TermsBelow(f, t), TermsBelow(f, c) - {t});
  }

  lemma TermsBelowAll(f: seq<Entry>, i: nat)
    requires 1 <= i <= |f|
    ensures |TermsBelow(f, TermAt(f, i))| < |Terms(f)|
  {
    var t := TermAt(f, i);
    assert t == f[i - 1].term;
    assert t in Terms(f) && t !in TermsBelow(f, t);
    SubsetSize(TermsBelow(f, t), Terms(f) - {t});
  }

  /** More probes do not change where probing ends. */
  lemma {:induction false} SettleMore(f: seq<Entry>, l: seq<Entry>, next: nat, rounds: nat, more: nat)
    requires next <= |l| + 1 && rounds <= more && Settle(f, l, next, rounds).Some?
    ensures Settle(f, l, next, more) == Settle(f, l, next, rounds)
    decreases rounds
  {
    if next > 0 && !PrevMatches(f, Probe(l, next)) {
      var next' := BackOff(l, Reject(f, 0, Probe(l, next)));
      SettleMore(f, l, next', rounds - 1, more - 1);
    }
  }

  lemma {:induction false} SettleWithin(f: seq<Entry>, l: seq<Entry>, next: nat, rounds: nat, ll: LogMap)
    requires Traced(f, ll) && Traced(l, ll) && Sorted(f) && Numbered(f) && Numbered(l)
    requires 1 <= next <= |l| + 1 && next <= |f| + 1
    requires next > 1 ==> rounds > |TermsBelow(f, TermAt(f, next - 1))|
    ensures Settle(f, l, next, rounds).Some?
    decreases rounds
  {
    var args := Probe(l, next);
    if !PrevMatches(f, args) {
      ConflictTermFalls(f, l, 0, args, ll);
      var next' := BackOff(l, Reject(f, 0, args));
      if next' > 0 && !PrevMatches(f, Probe(l, next')) {
        FewerTerms(f, next' - 1, TermAt(f, args.prevIndex));
        SettleWithin(f, l, next', rounds - 1, ll);
      }
    }
  }

  /**
   Fast back-off: wherever probing starts, it ends exactly, after at most one rejection more than the
   follower's log has different terms.
   */
  lemma SettleIsFast(f: seq<Entry>, l: seq<Entry>, next: nat, rounds: nat, ll: LogMap)
    requires Traced(f, ll) && Traced(l, ll) && Sorted(f) && Numbered(f) && Numbered(l)
    requires Common(f, l) < next <= |l| + 1 && rounds > |Terms(f)|
    ensures var r := Settle(f, l, next, rounds);
            r == Some(Common(f, l) + 1) || (r == Some(0) && Common(f, l) == 0)
  {
    if next <= |f| + 1 {
      if next > 1 { TermsBelowAll(f, next - 1); }
      SettleWithin(f, l, next, rounds, ll);
    } else {
      var args := Probe(l, next);
      ShortFollowerCaughtUp(f, l, 0, args);
      if |f| > 0 { TermsBelowAll(f, |f|); }
      SettleWithin(f, l, |f| + 1, rounds - 1, ll);
    }
    var enough := rounds + (next - Common(f, l));
    SettleMore(f, l, next, rounds, enough);
    SettleIsExact(f, l, next, enough, ll);
  }

  // ----- in the cluster -----

  /**
   A rejection by a follower in a run, used by the leader of that term at that moment or any later one:
   the new next index is below the one the request was built from, and keeps what the two logs share.
   */
  lemma BackOffInRun(run: seq<State>, i: nat, j: nat, n: NodeId, args: AppendArgs, b: NodeId)
    requires IsRun(run) && i <= j < |run|
    requires Enabled(run[i], DoHandleAppend(n, args)) && Leads(run[j], b, args.term)
    requires run[i].nodes[n].term <= args.term && !PrevMatches(run[i].nodes[n].log, args)
    ensures
      var f, l := run[i].nodes[n].log, run[j].nodes[b].log;
      var next := BackOff(l, HandleAppend(run[i].nodes[n], args).1);
      && next < args.prevIndex + 1
      && (next > Common(f, l) || (next == 0 && Common(f, l) == 0))
  {
    var s, s' := run[i], run[j];
    var f, l := s.nodes[n].log, s'.nodes[b].log;
    InvAlways(run, i);
    InvAlways(run, j);
    HistoryExtends(run, i, j);
    LeaderRecorded(run, j, b, args.term);
    assert NodeOk(s.nodes[n], s.h.logs) && MsgOk(s, AppendRequest(n, args)) && NodeOk(s'.nodes[b], s'.h.logs);
    TracedGrown(f, s.h.logs, s'.h.logs);
    TracedOrdered(s, f);
    BackOffStep(f, l, args.term, args, s'.h.logs);
  }
}
