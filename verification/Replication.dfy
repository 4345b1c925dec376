/** What replication achieves, where the safety theorems only say what it never does. */
module Replication {
  import opened RaftTypes
  import opened NodeSpec

  // ----- the commit index -----

  lemma MajorityIs(config: set<NodeId>, n: nat)
    requires n >= 1
    ensures n >= QuorumSize(config) <==> 2 * n > |config|
  {
  }

  /** Above the index that the scan stops at, no entry of the leader's term has enough acknowledgements. */
  lemma {:induction false} AdvanceIsHighest(x: NodeState, i: nat)
    requires x.leading.Some? && i <= |x.log|
    ensures
      var c := AdvanceFrom(x, i);
      && x.commit <= c
      && (c > x.commit ==>
            && c <= i && x.log[c - 1].term == x.term
            && CountAcks(x.leading.value.matchIndex, c) >= QuorumSize(x.config))
      && forall j | c <= j < i && x.log[j].term == x.term ::
           CountAcks(x.leading.value.matchIndex, j + 1) < QuorumSize(x.config)
    decreases i
  {
    if i > x.commit {
      AdvanceIsHighest(x, i - 1);
    }
  }

  /**
   The commit rule: a leader commits exactly up to the highest index of its own term that a majority
   matches, itself included, or stays where it is.
   */
  lemma CommitRule(x: NodeState)
    requires x.leading.Some?
    ensures
      var y, m := UpdateCommit(x), x.leading.value.matchIndex;
      && y == x.(commit := y.commit) && x.commit <= y.commit
      && (y.commit > x.commit ==>
            && y.commit <= |x.log| && x.log[y.commit - 1].term == x.term
            && 2 * (1 + |set p | p in m && m[p] >= y.commit|) > |x.config|)
      && forall j | x.commit <= j < |x.log| && x.log[j].term == x.term
                    && 2 * (1 + |set p | p in m && m[p] >= j + 1|) > |x.config| :: j < y.commit
  {
    var y, m := UpdateCommit(x), x.leading.value.matchIndex;
    AdvanceIsHighest(x, |x.log|);
    if y.commit > x.commit {
      MajorityIs(x.config, CountAcks(m, y.commit));
    }
    forall j | x.commit <= j < |x.log| && x.log[j].term == x.term
               && 2 * (1 + |set p | p in m && m[p] >= j + 1|) > |x.config|
      ensures j < y.commit
    {
      MajorityIs(x.config, CountAcks(m, j + 1));
    }
  }

  // ----- the next request -----

  /** After a success the next request starts right after the last entry that was acknowledged. */
  lemma NextAfterSuccess(x: NodeState, peer: NodeId, args: AppendArgs, reply: AppendReply, commit: nat)
    requires x.role == Leader && x.leading.Some? && reply.success && reply.term <= x.term
    requires args.entries != [] && args.entries[|args.entries| - 1].index == args.prevIndex + |args.entries| <= |x.log|
    ensures
      var last := args.prevIndex + |args.entries|;
      var y := HandleAppendReply(x, peer, Some(last), reply);
      && y.leading.Some? && peer in y.leading.value.nextIndex && y.leading.value.nextIndex[peer] == last + 1
      && peer in y.leading.value.matchIndex && y.leading.value.matchIndex[peer] == last
      && (forall p | p in x.leading.value.nextIndex && p != peer ::
            p in y.leading.value.nextIndex && y.leading.value.nextIndex[p] == x.leading.value.nextIndex[p])
      && (forall p | p in x.leading.value.matchIndex && p != peer ::
            p in y.leading.value.matchIndex && y.leading.value.matchIndex[p] == x.leading.value.matchIndex[p])
      && BuildAppend(y, peer, commit).prevIndex == last
      && BuildAppend(y, peer, commit).prevTerm == x.log[last - 1].term
      && BuildAppend(y, peer, commit).entries == x.log[last..]
  {
  }

  // ----- the follower's log -----

  /** The k-th shipped entry is new to the log, or meets another term there. */
  predicate Differs(l: seq<Entry>, prev: nat, es: seq<Entry>, k: nat)
    requires k < |es|
  {
    prev + k >= |l| || l[prev + k].term != es[k].term
  }

  /** Entries numbered from prev + 1 on. */
  predicate NumberedFrom(es: seq<Entry>, prev: nat) {
    forall k | 0 <= k < |es| :: es[k].index == prev + 1 + k
  }

  /**
   The log is left alone if it has all the shipped entries; otherwise it is cut where the first one
   differs, at the k-th, and everything shipped from there on is appended.
   */
  lemma {:induction false} MergeExact(l: seq<Entry>, prev: nat, es: seq<Entry>, k: nat)
    requires NumberedFrom(es, prev) && prev <= |l| && k <= |es|
    requires forall j: nat | j < k :: !Differs(l, prev, es, j)
    requires k < |es| ==> Differs(l, prev, es, k)
    ensures if k == |es| then Merge(l, es) == l else prev + k <= |l| && Merge(l, es) == l[..prev + k] + es[k..]
    decreases |es|
  {
    if es != [] {
      if k == 0 {
        assert es[0..] == es && l[..|l|] == l;
      } else {
        assert !Differs(l, prev, es, 0);
        var prev', rest := prev + 1, es[1..];
        forall j: nat | j < k - 1 ensures !Differs(l, prev', rest, j) {
          assert !Differs(l, prev, es, j + 1);
        }
        MergeExact(l, prev', rest, k - 1);
        assert es[1..][k - 1..] == es[k..];
      }
    }
  }
}
