/**
 Logs measured against the logs of the leaders. `ll` maps a term to the log its leader has built so
 far. The two central notions:

   Traced(l, ll)       every prefix of `l` that ends in an entry of term t is a prefix of ll[t];
   Kept(a, l, hi, ll)  every prefix of `a` is still in `l`, unless the log of a leader of a later term,
                       up to hi, contradicts it.
 */
module LeaderLogs {
  import opened RaftTypes
  import opened NodeSpec

  type LogMap = map<nat, seq<Entry>>

  ghost predicate TracedAt(l: seq<Entry>, k: nat, ll: LogMap)
    requires k < |l|
  {
    l[k].term in ll && l[..k + 1] <= ll[l[k].term]
  }

  ghost predicate Traced(l: seq<Entry>, ll: LogMap) {
    forall k: nat {:trigger TracedAt(l, k, ll)} | k < |l| :: TracedAt(l, k, ll)
  }

  ghost predicate Bounded(l: seq<Entry>, hi: int) {
    forall k | 0 <= k < |l| :: l[k].term <= hi
  }

  ghost predicate Sorted(l: seq<Entry>) {
    forall j, k | 0 <= j <= k < |l| :: l[j].term <= l[k].term
  }

  ghost predicate Numbered(l: seq<Entry>) {
    forall k | 0 <= k < |l| :: l[k].index == k + 1 && l[k].term >= 1
  }

  ghost predicate Conflict(a: seq<Entry>, b: seq<Entry>) {
    exists k :: 0 <= k < |a| && k < |b| && a[k] != b[k]
  }

  /** A leader of a term in (lo, hi] has a log that contradicts `p`. */
  ghost predicate Overruled(p: seq<Entry>, lo: int, hi: int, ll: LogMap) {
    exists w :: w in ll && lo < w <= hi && Conflict(ll[w], p)
  }

  ghost predicate KeptAt(a: seq<Entry>, k: nat, l: seq<Entry>, hi: int, ll: LogMap)
    requires k < |a|
  {
    a[..k + 1] <= l || Overruled(a[..k + 1], a[k].term, hi, ll)
  }

  ghost predicate Kept(a: seq<Entry>, l: seq<Entry>, hi: int, ll: LogMap) {
    forall k: nat {:trigger KeptAt(a, k, l, hi, ll)} | k < |a| :: KeptAt(a, k, l, hi, ll)
  }

  ghost predicate Grown(ll: LogMap, ll': LogMap) {
    forall t | t in ll :: t in ll' && ll[t] <= ll'[t]
  }

  // ----- prefixes -----

  lemma PrefixTrans(a: seq<Entry>, b: seq<Entry>, c: seq<Entry>)
    requires a <= b <= c
    ensures a <= c
  {
  }

  /** Two prefixes of one log are comparable. */
  lemma PrefixesComparable(a: seq<Entry>, b: seq<Entry>, c: seq<Entry>)
    requires a <= c && b <= c
    ensures |a| <= |b| ==> a <= b
    ensures |b| <= |a| ==> b <= a
  {
    if |a| <= |b| {
      assert forall k | 0 <= k < |a| :: a[k] == c[k] && b[k] == c[k];
    } else {
      assert forall k | 0 <= k < |b| :: a[k] == c[k] && b[k] == c[k];
    }
  }

  lemma NotConflicting(a: seq<Entry>, b: seq<Entry>)
    requires b <= a
    ensures !Conflict(a, b)
  {
  }

  lemma ConflictOrComparable(a: seq<Entry>, b: seq<Entry>)
    ensures Conflict(a, b) || a <= b || b <= a
  {
    if !Conflict(a, b) {
      assert forall k | 0 <= k < |a| && k < |b| :: a[k] == b[k];
      if |a| <= |b| { assert a <= b; } else { assert b <= a; }
    }
  }

  // ----- growth -----

  lemma TracedGrown(l: seq<Entry>, ll: LogMap, ll': LogMap)
    requires Traced(l, ll) && Grown(ll, ll')
    ensures Traced(l, ll')
  {
    forall k: nat | k < |l| ensures TracedAt(l, k, ll') {
      assert TracedAt(l, k, ll);
      PrefixTrans(l[..k + 1], ll[l[k].term], ll'[l[k].term]);
    }
  }

  lemma OverruledGrown(p: seq<Entry>, lo: int, hi: int, hi': int, ll: LogMap, ll': LogMap)
    requires Overruled(p, lo, hi, ll) && Grown(ll, ll') && hi <= hi'
    ensures Overruled(p, lo, hi', ll')
  {
    var w :| w in ll && lo < w <= hi && Conflict(ll[w], p);
    var k :| 0 <= k < |ll[w]| && k < |p| && ll[w][k] != p[k];
    assert ll'[w][k] != p[k];
    assert Conflict(ll'[w], p);
  }

  lemma KeptGrown(a: seq<Entry>, l: seq<Entry>, hi: int, hi': int, ll: LogMap, ll': LogMap)
    requires Kept(a, l, hi, ll) && Grown(ll, ll') && hi <= hi'
    ensures Kept(a, l, hi', ll')
  {
    forall k: nat | k < |a| ensures KeptAt(a, k, l, hi', ll') {
      assert KeptAt(a, k, l, hi, ll);
      if !(a[..k + 1] <= l) {
        OverruledGrown(a[..k + 1], a[k].term, hi, hi', ll, ll');
      }
    }
  }

  /** A log keeps its own prefixes. */
  lemma KeptPrefix(a: seq<Entry>, l: seq<Entry>, hi: int, ll: LogMap)
    requires a <= l
    ensures Kept(a, l, hi, ll)
  {
    forall k: nat | k < |a| ensures KeptAt(a, k, l, hi, ll) {
      PrefixTrans(a[..k + 1], a, l);
    }
  }

  lemma KeptExtend(a: seq<Entry>, l: seq<Entry>, l': seq<Entry>, hi: int, ll: LogMap)
    requires Kept(a, l, hi, ll) && l <= l'
    ensures Kept(a, l', hi, ll)
  {
    forall k: nat | k < |a| ensures KeptAt(a, k, l', hi, ll) {
      assert KeptAt(a, k, l, hi, ll);
      if a[..k + 1] <= l {
        PrefixTrans(a[..k + 1], l, l');
      }
    }
  }

  lemma TracedPrefix(l: seq<Entry>, p: seq<Entry>, ll: LogMap)
    requires Traced(l, ll) && p <= l
    ensures Traced(p, ll)
  {
    forall k: nat | k < |p| ensures TracedAt(p, k, ll) {
      assert TracedAt(l, k, ll);
      assert p[..k + 1] == l[..k + 1];
    }
  }

  // ----- matching -----

  /** Log matching: equal terms at an index mean equal logs up to that index. */
  lemma SameTermSamePrefix(a: seq<Entry>, b: seq<Entry>, k: nat, ll: LogMap)
    requires Traced(a, ll) && Traced(b, ll)
    requires k < |a| && k < |b| && a[k].term == b[k].term
    ensures a[..k + 1] == b[..k + 1]
  {
    assert TracedAt(a, k, ll) && TracedAt(b, k, ll);
    PrefixesComparable(a[..k + 1], b[..k + 1], ll[a[k].term]);
  }

  /** What the conflict loop leaves, when `x` is the leader's log up to the last entry shipped. */
  lemma MergeIsReplace(l: seq<Entry>, x: seq<Entry>, prev: nat, ll: LogMap)
    requires Traced(l, ll) && Traced(x, ll) && Numbered(x)
    requires prev <= |x| && prev <= |l| && l[..prev] == x[..prev]
    ensures Merge(l, x[prev..]) == if x <= l then l else x
    decreases |x| - prev
  {
    var es := x[prev..];
    if prev < |x| {
      assert es[0] == x[prev] && es[0].index == prev + 1;
      if prev < |l| {
        if l[prev].term == x[prev].term {
          SameTermSamePrefix(l, x, prev, ll);
          assert es[1..] == x[prev + 1..];
          MergeIsReplace(l, x, prev + 1, ll);
        } else {
          assert x[prev] != l[prev];
          assert l[..prev] + es == x;
        }
      } else {
        assert l == l[..prev];
        assert l + es == x;
      }
    } else {
      assert x == x[..prev] == l[..prev];
      assert x <= l;
    }
  }

  /** Replacing a log by a leader's loses only what that leader's log contradicts. */
  lemma KeptReplace(a: seq<Entry>, l: seq<Entry>, x: seq<Entry>, hi: int, w: nat, ll: LogMap)
    requires Traced(a, ll) && Bounded(a, w) && hi <= w
    requires w in ll && x <= ll[w] && !(x <= l)
    requires Kept(a, l, hi, ll)
    ensures Kept(a, x, w, ll)
  {
    forall k: nat | k < |a| ensures KeptAt(a, k, x, w, ll) {
      assert TracedAt(a, k, ll) && KeptAt(a, k, l, hi, ll);
      var p := a[..k + 1];
      if p <= l && !(p <= x) {
        ConflictOrComparable(x, p);
        if x <= p { PrefixTrans(x, p, l); }
        assert Conflict(x, p);
        ConflictInExtension(x, ll[w], p);
        assert p <= ll[a[k].term];
        assert Overruled(p, a[k].term, w, ll);
      } else if !(p <= l) {
        OverruledGrown(p, a[k].term, hi, w, ll, ll);
      }
    }
  }

  lemma ConflictInExtension(x: seq<Entry>, y: seq<Entry>, p: seq<Entry>)
    requires Conflict(x, p) && x <= y
    ensures Conflict(y, p)
  {
    var k :| 0 <= k < |x| && k < |p| && x[k] != p[k];
    assert y[k] != p[k];
  }
}
