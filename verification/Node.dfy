/**
 The node of pkg/raft/node.go as an object with fields, and its critical sections as methods that run
 the loops of the source. Each method is proved to compute the function of the same name in NodeSpec,
 so each takes exactly one step of the cluster model. The log is not compacted here.
 */
module RaftNode {
  import opened RaftTypes
  import opened LogFile
  import opened LogStore
  import Batch
  import Replication
  import Spec = NodeSpec

  /** The numbers in a request fit the 64-bit fields that carry them. */
  predicate InRange(args: AppendArgs) {
    args.prevIndex < TWO_64 && forall e | e in args.entries :: e.index < TWO_64
  }

  class Node {
    const id: NodeId
    const config: set<NodeId>
    const log: Log
    var role: Role
    var currentTerm: nat
    var votedFor: NodeId
    var leaderID: NodeId
    var commitIndex: nat
    var lastApplied: nat
    var leaderState: Option<Spec.LeaderState>
    // state.json
    var stateFile: Spec.Disk
    // What election and apply goroutines hold between critical sections, and what the FSM was given.
    ghost var seen: set<seq<Entry>>
    ghost var ballots: set<Spec.Ballot>
    ghost var job: Spec.ApplyJob
    ghost var machine: seq<Entry>

    ghost predicate Valid()
      reads this, log
    {
      log.Valid() && log.firstIdx == 1
    }

    ghost function State(): Spec.NodeState
      reads this, log
    {
      Spec.NodeState(id, config, role, currentTerm, votedFor, leaderID, log.entries, commitIndex, lastApplied,
                     leaderState, stateFile, seen, ballots, job, machine)
    }

    /** NewNode and loadPersistentState: what the files hold, and nothing else. */
    constructor (id: NodeId, config: set<NodeId>, log: Log, stateFile: Spec.Disk)
      requires log.Valid() && log.firstIdx == 1
      ensures Valid() && this.id == id && this.config == config && this.log == log && this.stateFile == stateFile
      ensures State() == Spec.Restart(State())
      ensures role == Follower && currentTerm == stateFile.term && votedFor == stateFile.votedFor
      ensures leaderID == NO_NODE && commitIndex == 0 == lastApplied && leaderState.None?
    {
      this.id := id;
      this.config := config;
      this.log := log;
      this.role := Follower;
      this.currentTerm := stateFile.term;
      this.votedFor := stateFile.votedFor;
      this.leaderID := NO_NODE;
      this.commitIndex := 0;
      this.lastApplied := 0;
      this.leaderState := None;
      this.stateFile := stateFile;
      this.seen := {};
      this.ballots := {};
      this.job := Spec.Idle;
      this.machine := [];
    }

    // ----- the log through its indices -----

    lemma LogPositions()
      requires Valid()
      ensures log.LastIndex() == |log.entries| && log.LastTerm() == Spec.LastTerm(log.entries)
      ensures forall i: U64 :: log.TermAt(i) == Spec.TermAt(log.entries, i)
    {
      forall i: U64 ensures log.TermAt(i) == Spec.TermAt(log.entries, i) {
        if i in log.View() {
          assert log.View()[i] == EntryAt(1, log.entries, i);
        }
      }
    }

    /** What is stored of a log can be stored of every prefix of it; all of a suffix must fit, too. */
    lemma PrefixStorable(a: seq<Entry>, b: seq<Entry>)
      requires a <= b
      ensures AllFit(log.codec, b) <==> AllFit(log.codec, a) && AllFit(log.codec, b[|a|..])
    {
      assert b == a + b[|a|..];
    }

    /** A process that stops and starts again on its files: the crash step of the cluster model. */
    method RestartFromFiles() returns (n: Node)
      requires Valid() && log.Durable() && 1 + |log.file| <= TWO_63
      ensures fresh(n) && fresh(n.log) && n.Valid() && n.log.Durable()
      ensures n.State() == Spec.Restart(State())
    {
      var l := log.Reopen();
      n := new Node(id, config, l, stateFile);
    }

    // ----- elections -----

    method SavePersistentState()
      requires Valid()
      modifies this`stateFile
      ensures Valid() && State() == Spec.Save(old(State()))
      ensures stateFile.term == currentTerm && stateFile.votedFor == votedFor
    {
      stateFile := Spec.Disk(currentTerm, votedFor);
    }

    /** The first lines of startElection: the position that vote requests will advertise. */
    method ReadPosition() returns (lastIndex: nat, lastTerm: nat)
      requires Valid()
      modifies this`seen
      ensures Valid() && State() == Spec.ReadPosition(old(State()))
      ensures lastIndex == |log.entries| && lastTerm == Spec.LastTerm(log.entries)
      ensures lastTerm == if log.entries == [] then 0 else log.entries[|log.entries| - 1].term
    {
      LogPositions();
      lastIndex := log.LastIndex();
      lastTerm := log.LastTerm();
      seen := seen + {log.entries};
    }

    /** Phase 2 of startElection; the vote requests advertise the position read earlier. */
    method BecomeCandidate(ghost basis: seq<Entry>, lastIndex: nat, lastTerm: nat) returns (args: VoteArgs)
      requires Valid() && lastIndex == |basis| && lastTerm == Spec.LastTerm(basis)
      modifies this`role, this`currentTerm, this`votedFor, this`ballots
      ensures Valid() && State() == Spec.BecomeCandidate(old(State()), basis)
      ensures args == VoteArgs(currentTerm, id, lastIndex, lastTerm)
      ensures role == Candidate && currentTerm == old(currentTerm) + 1 && votedFor == id
      ensures Spec.Ballot(args.term, args.lastIndex, args.lastTerm) in ballots
    {
      role := Candidate;
      currentTerm := currentTerm + 1;
      votedFor := id;
      args := VoteArgs(currentTerm, id, lastIndex, lastTerm);
      ballots := ballots + {Spec.Ballot(currentTerm, lastIndex, lastTerm)};
    }

    method IsLogUpToDate(lastIndex: nat, lastTerm: nat) returns (ok: bool)
      requires Valid()
      ensures ok == Spec.UpToDate(lastIndex, lastTerm, log.entries)
      ensures var ourTerm := if log.entries == [] then 0 else log.entries[|log.entries| - 1].term;
              ok <==> lastTerm > ourTerm || (lastTerm == ourTerm && lastIndex >= |log.entries|)
    {
      LogPositions();
      var ourTerm := log.LastTerm();
      var ourIndex := log.LastIndex();
      if lastTerm != ourTerm {
        return lastTerm > ourTerm;
      }
      ok := lastIndex >= ourIndex;
    }

    method HandlePreVote(args: VoteArgs) returns (reply: VoteReply)
      requires Valid()
      ensures reply == Spec.HandlePreVote(State(), args) && reply.term == currentTerm
      ensures var ourTerm := if log.entries == [] then 0 else log.entries[|log.entries| - 1].term;
              reply.granted <==>
              && args.term >= currentTerm
              && (args.lastTerm > ourTerm || (args.lastTerm == ourTerm && args.lastIndex >= |log.entries|))
    {
      reply := VoteReply(currentTerm, false);
      if args.term < currentTerm {
        return;
      }
      var ok := IsLogUpToDate(args.lastIndex, args.lastTerm);
      if ok {
        reply := reply.(granted := true);
      }
    }

    method HandleRequestVote(args: VoteArgs) returns (reply: VoteReply)
      requires Valid()
      modifies this`currentTerm, this`role, this`votedFor, this`stateFile
      ensures Valid() && (State(), reply) == Spec.HandleVote(old(State()), args)
      // Who is granted.
      ensures var ourTerm := if log.entries == [] then 0 else log.entries[|log.entries| - 1].term;
              reply.granted <==>
              && (args.term > old(currentTerm) ||
                  (args.term == old(currentTerm) && old(votedFor) in {NO_NODE, args.candidate}))
              && (args.lastTerm > ourTerm || (args.lastTerm == ourTerm && args.lastIndex >= |log.entries|))
      // What the node remembers, and keeps on disk.
      ensures currentTerm == reply.term == if args.term > old(currentTerm) then args.term else old(currentTerm)
      ensures votedFor == if reply.granted then args.candidate
                          else if args.term > old(currentTerm) then NO_NODE else old(votedFor)
      ensures role == if args.term > old(currentTerm) then Follower else old(role)
      ensures args.term >= old(currentTerm) ==> stateFile == Spec.Disk(currentTerm, votedFor)
    {
      reply := VoteReply(currentTerm, false);
      if args.term < currentTerm {
        return;
      }
      if args.term > currentTerm {
        currentTerm := args.term;
        role := Follower;
        votedFor := NO_NODE;
      }
      reply := reply.(term := currentTerm);
      var ok := IsLogUpToDate(args.lastIndex, args.lastTerm);
      if (votedFor == NO_NODE || votedFor == args.candidate) && ok {
        votedFor := args.candidate;
        reply := reply.(granted := true);
      }
      SavePersistentState();
    }

    method HandleVoteReply(reply: VoteReply)
      requires Valid()
      modifies this`currentTerm, this`role, this`votedFor
      ensures Valid() && State() == Spec.HandleVoteReply(old(State()), reply)
      ensures reply.term > old(currentTerm) ==> currentTerm == reply.term && role == Follower && votedFor == NO_NODE
      ensures reply.term <= old(currentTerm) ==> State() == old(State())
    {
      if reply.term > currentTerm {
        currentTerm := reply.term;
        role := Follower;
        votedFor := NO_NODE;
      }
    }

    method BecomeLeader()
      requires Valid()
      modifies this`role, this`leaderID, this`leaderState
      ensures Valid() && State() == Spec.BecomeLeader(old(State()))
      ensures role == Leader && leaderID == id && leaderState.Some?
      ensures var ls := leaderState.value;
              && ls.nextIndex.Keys == config - {id} == ls.matchIndex.Keys
              && (forall p | p in ls.nextIndex :: ls.nextIndex[p] == |log.entries| + 1)
              && forall p | p in ls.matchIndex :: ls.matchIndex[p] == 0
    {
      LogPositions();
      role := Leader;
      leaderID := id;
      var lastIdx := log.LastIndex();
      var next := ForPeers(lastIdx + 1);
      var matched := ForPeers(0);
      leaderState := Some(Spec.LeaderState(next, matched));
    }

    /** The loop over the configuration that sets an index for every other node. */
    method ForPeers(index: nat) returns (m: map<NodeId, nat>)
      ensures m == Spec.Uniform(config - {id}, index)
      ensures m.Keys == config - {id} && forall p | p in m :: m[p] == index
    {
      m := map[];
      var todo := config;
      while todo != {}
        invariant todo <= config && m.Keys == config - {id} - todo
        invariant forall p | p in m :: m[p] == index
        decreases todo
      {
        var p :| p in todo;
        if p != id {
          m := m[p := index];
        }
        todo := todo - {p};
      }
    }

    // ----- proposing -----

    method Propose(p: Proposal) returns (r: ProposeResult)
      requires Valid() && |log.entries| + 1 < TWO_63
      modifies this`commitIndex, log
      ensures Valid() && (State(), r) == Spec.Propose(old(State()), p)
      ensures role != Leader ==> r == NotLeader(leaderID)
      ensures role == Leader && p.command.None? ==> r == BadCommand
      ensures r.Accepted? <==> role == Leader && p.command.Some?
      ensures r.Accepted? ==>
                && r.index == |old(log.entries)| + 1 && r.term == currentTerm
                && log.entries == old(log.entries) + [Entry(r.index, r.term, p.kind, p.command.value)]
                && commitIndex == if |config| <= 1 then r.index else old(commitIndex)
      ensures !r.Accepted? ==> State() == old(State())
      ensures old(log.entries) <= log.entries && |log.entries| <= |old(log.entries)| + 1
      ensures old(log.Durable()) && log.Storable() ==> log.Durable()
    {
      if role != Leader {
        return NotLeader(leaderID);
      }
      if p.command.None? {
        return BadCommand;
      }
      LogPositions();
      var e := Entry(log.LastIndex() + 1, currentTerm, p.kind, p.command.value);
      log.Append([e]);
      var size := ClusterSize();
      if size <= 1 {
        commitIndex := e.index;
      }
      r := Accepted(e.index, e.term);
    }

    method ClusterSize() returns (n: nat)
      ensures n == Spec.ClusterSize(config) && n == if config == {} then 1 else |config|
    {
      n := if |config| == 0 then 1 else |config|;
    }

    /** The branch of processBatch at a node that does not lead. */
    method RefuseBatch(batch: seq<Proposal>) returns (results: seq<ProposeResult>)
      requires Valid() && role != Leader
      ensures (State(), results) == Spec.ProposeAll(State(), batch)
    {
      results := [];
      for i := 0 to |batch|
        invariant |results| == i && forall k | 0 <= k < i :: results[k] == NotLeader(leaderID)
      {
        results := results + [NotLeader(leaderID)];
      }
      Batch.AllRefused(State(), batch);
      assert results == Spec.ProposeAll(State(), batch).1;
    }

    method AppendNext(p: Proposal) returns (r: ProposeResult)
      requires Valid() && |log.entries| + 1 < TWO_63
      modifies log
      ensures Valid() && (State(), r) == Batch.AppendNext(old(State()), p)
      ensures old(log.entries) <= log.entries && |log.entries| <= |old(log.entries)| + 1
      ensures old(log.Durable()) && log.Storable() ==> log.Durable()
    {
      if p.command.None? {
        return BadCommand;
      }
      LogPositions();
      var e := Entry(log.LastIndex() + 1, currentTerm, p.kind, p.command.value);
      log.Append([e]);
      r := Accepted(e.index, e.term);
    }

    /** The loop of processBatch; `last` is the index of the last entry appended, if any was. */
    method AppendBatch(batch: seq<Proposal>) returns (results: seq<ProposeResult>, last: Option<nat>)
      requires Valid() && |log.entries| + |batch| < TWO_63
      modifies log
      ensures Valid() && (State(), results) == Batch.AppendAll(old(State()), batch)
      ensures last == if log.entries == old(log.entries) then None else Some(|log.entries|)
      ensures old(log.Durable()) && log.Storable() ==> log.Durable()
    {
      results, last := [], None;
      for i := 0 to |batch|
        invariant Valid() && |log.entries| <= |old(log.entries)| + i
        invariant (State(), results) == Batch.AppendAll(old(State()), batch[..i])
        invariant old(log.entries) <= log.entries
        invariant old(log.Durable()) && log.Storable() ==> log.Durable()
        invariant last == if |log.entries| == |old(log.entries)| then None else Some(|log.entries|)
        invariant last.None? ==> log.entries == old(log.entries)
      {
        ghost var had := log.entries;
        var r := AppendNext(batch[i]);
        PrefixStorable(had, log.entries);
        assert batch[..i + 1][..i] == batch[..i];
        results := results + [r];
        if r.Accepted? {
          last := Some(r.index);
        }
      }
      assert batch[..|batch|] == batch;
    }

    /** processBatch: the proposals of a batch, one after the other under one lock. */
    method ProcessBatch(batch: seq<Proposal>) returns (results: seq<ProposeResult>)
      requires Valid() && |log.entries| + |batch| < TWO_63
      modifies this`commitIndex, log
      ensures Valid() && (State(), results) == Spec.ProposeAll(old(State()), batch)
      ensures old(log.Durable()) && log.Storable() ==> log.Durable()
    {
      if role != Leader {
        results := RefuseBatch(batch);
        return;
      }
      Batch.CommitOnce(State(), batch);
      var last;
      results, last := AppendBatch(batch);
      var size := ClusterSize();
      if last.Some? && size <= 1 {
        commitIndex := last.value;
      }
    }

    // ----- the follower's side -----

    /** The scan for the first index of the conflicting term. */
    method FindConflictStart(term: nat, prev: U64) returns (index: nat)
      requires Valid() && 1 <= prev <= |log.entries|
      ensures index == Spec.ConflictStart(log.entries, term, prev - 1)
      // The start of the run of that term, or 0 when it reaches down to index 1.
      ensures index == 0 ==> forall j | 0 <= j < prev - 1 :: log.entries[j].term == term
      ensures index != 0 ==>
                && 2 <= index <= prev && log.entries[index - 2].term != term
                && forall j | index - 1 <= j < prev - 1 :: log.entries[j].term == term
    {
      LogPositions();
      index := 0;
      var i: U64 := prev - 1;
      while i >= 1
        invariant i < prev
        invariant forall j | i <= j < prev - 1 :: log.entries[j].term == term
        invariant Spec.ConflictStart(log.entries, term, prev - 1) == Spec.ConflictStart(log.entries, term, i)
      {
        if log.TermAt(i) != term {
          index := i + 1;
          return;
        }
        i := i - 1;
      }
    }

    /** The loop over the shipped entries that finds the first one that is new or conflicts. */
    method MergeEntries(es: seq<Entry>)
      requires Valid() && |log.entries| + |es| < TWO_63 && forall e | e in es :: e.index < TWO_64
      modifies log`entries, log`file
      ensures Valid() && log.entries == Spec.Merge(old(log.entries), es)
      ensures old(log.Durable()) && log.Storable() ==> log.Durable()
    {
      LogPositions();
      for i := 0 to |es|
        invariant Valid() && log.entries == old(log.entries) && log.file == old(log.file)
        invariant Spec.Merge(log.entries, es) == Spec.Merge(log.entries, es[i..])
      {
        var e := es[i];
        assert es[i..][0] == e && es[i..][1..] == es[i + 1..];
        if e.index <= log.LastIndex() {
          if log.TermAt(e.index) != e.term {
            ghost var l := log.entries;
            Truncate(e.index);
            assert log.entries == l[..if e.index == 0 then 0 else e.index - 1];
            AppendRest(es[i..]);
            return;
          }
        } else {
          AppendRest(es[i..]);
          return;
        }
      }
    }

    method AppendRest(es: seq<Entry>)
      requires Valid() && |log.entries| + |es| < TWO_63
      modifies log`entries, log`file
      ensures Valid() && log.entries == old(log.entries) + es
      ensures log.Storable() ==> old(log.Storable()) && (old(log.Durable()) ==> log.Durable())
    {
      PrefixStorable(log.entries, log.entries + es);
      log.Append(es);
    }

    /** TruncateAfter(index - 1), with the wrap-around of index 0. */
    method Truncate(index: U64)
      requires Valid() && index <= |log.entries|
      modifies log`entries, log`file
      ensures Valid() && log.entries == old(log.entries)[..if index == 0 then 0 else index - 1]
      ensures old(log.Durable()) && log.Storable() ==> log.Durable()
    {
      ghost var l := log.entries;
      var target: U64 := if index == 0 then TWO_64 - 1 else index - 1;
      log.TruncateAfter(target);
      PrefixByView(l, log.entries, if index == 0 then 0 else index - 1);
    }

    static lemma PrefixByView(l: seq<Entry>, m: seq<Entry>, n: nat)
      requires m <= l && n <= |l|
      requires ViewOf(1, m).Keys == set i | i in ViewOf(1, l) && i <= n
      ensures m == l[..n]
    {
      if |m| > 0 {
        assert |m| in ViewOf(1, m).Keys;
      }
      if n > 0 {
        assert n in ViewOf(1, l).Keys;
        assert n in ViewOf(1, m).Keys;
      }
    }

    method Adopt(args: AppendArgs)
      requires Valid()
      modifies this`currentTerm, this`votedFor, this`role, this`leaderID
      ensures Valid() && State() == Spec.Adopt(old(State()), args)
      ensures role == Follower && leaderID == args.leader
      ensures currentTerm == if args.term > old(currentTerm) then args.term else old(currentTerm)
      ensures votedFor == if args.term > old(currentTerm) then NO_NODE else old(votedFor)
    {
      if args.term > currentTerm {
        currentTerm := args.term;
        votedFor := NO_NODE;
      }
      role := Follower;
      leaderID := args.leader;
    }

    /** The consistency check on the entry before the shipped ones. */
    method CheckPrev(args: AppendArgs) returns (ok: bool, reply: AppendReply)
      requires Valid() && InRange(args)
      ensures ok == Spec.PrevMatches(log.entries, args)
      ensures !ok ==> reply == Spec.Reject(log.entries, currentTerm, args)
      ensures ok <==> args.prevIndex == 0 ||
                      (args.prevIndex <= |log.entries| && log.entries[args.prevIndex - 1].term == args.prevTerm)
      ensures !ok ==> reply.term == currentTerm && !reply.success
      ensures !ok && args.prevIndex > |log.entries| ==> reply.conflictIndex == |log.entries| + 1 && reply.conflictTerm == 0
      ensures !ok && args.prevIndex <= |log.entries| ==> reply.conflictTerm == log.entries[args.prevIndex - 1].term
    {
      LogPositions();
      ok, reply := true, AppendReply(currentTerm, false, 0, 0);
      if args.prevIndex > 0 {
        if args.prevIndex > log.LastIndex() {
          ok, reply := false, reply.(conflictIndex := log.LastIndex() + 1);
          return;
        }
        if log.TermAt(args.prevIndex) != args.prevTerm {
          var c := log.TermAt(args.prevIndex);
          var start := FindConflictStart(c, args.prevIndex);
          ok, reply := false, reply.(conflictTerm := c, conflictIndex := start);
        }
      }
    }

    /** The new entries and the new commit index, persisted. */
    method Accept(args: AppendArgs)
      requires Valid() && InRange(args) && |log.entries| + |args.entries| < TWO_63
      modifies this`commitIndex, this`stateFile, log`entries, log`file
      ensures Valid() && log.entries == Spec.Merge(old(log.entries), args.entries)
      ensures commitIndex ==
        if args.commit > old(commitIndex) then Spec.Min(args.commit, |log.entries|) else old(commitIndex)
      ensures args.commit <= old(commitIndex) ==> commitIndex == old(commitIndex)
      ensures args.commit > old(commitIndex) ==>
                commitIndex == if args.commit < |log.entries| then args.commit else |log.entries|
      ensures stateFile == Spec.Disk(currentTerm, votedFor)
      ensures old(log.Durable()) && log.Storable() ==> log.Durable()
    {
      MergeEntries(args.entries);
      LogPositions();
      if args.commit > commitIndex {
        var lastNew := log.LastIndex();
        if args.commit < lastNew {
          commitIndex := args.commit;
        } else {
          commitIndex := lastNew;
        }
      }
      SavePersistentState();
    }

    method HandleAppendEntries(args: AppendArgs) returns (reply: AppendReply)
      requires Valid() && InRange(args) && |log.entries| + |args.entries| < TWO_63
      modifies this`currentTerm, this`votedFor, this`role, this`leaderID, this`commitIndex, this`stateFile, log
      ensures Valid() && (State(), reply) == Spec.HandleAppend(old(State()), args)
      // When it is accepted, and what is answered.
      ensures reply.success <==>
              && args.term >= old(currentTerm)
              && (args.prevIndex == 0 || (args.prevIndex <= |old(log.entries)| &&
                                          old(log.entries)[args.prevIndex - 1].term == args.prevTerm))
      ensures reply.term == currentTerm == if args.term > old(currentTerm) then args.term else old(currentTerm)
      // A request of an earlier term changes nothing; any other makes the node follow its sender.
      ensures args.term < old(currentTerm) ==> State() == old(State())
      ensures args.term >= old(currentTerm) ==> role == Follower && leaderID == args.leader
      // Only an accepted one reaches the log, the commit index and the disk.
      ensures !reply.success ==>
                log.entries == old(log.entries) && commitIndex == old(commitIndex) && stateFile == old(stateFile)
      ensures reply.success ==> stateFile.term == currentTerm && stateFile.votedFor == votedFor
      ensures reply.success && args.commit <= old(commitIndex) ==> commitIndex == old(commitIndex)
      ensures reply.success && args.commit > old(commitIndex) ==>
                commitIndex == if args.commit < |log.entries| then args.commit else |log.entries|
      ensures old(log.Durable()) && log.Storable() ==> log.Durable()
    {
      reply := AppendReply(currentTerm, false, 0, 0);
      if args.term < currentTerm {
        return;
      }
      Adopt(args);
      var ok, rejection := CheckPrev(args);
      if !ok {
        return rejection;
      }
      Accept(args);
      reply := AppendReply(currentTerm, true, 0, 0);
    }

    // ----- the leader's side -----

    /** replicateTo's request to a peer that is not parked. */
    method BuildAppend(peer: NodeId, commit: nat) returns (args: AppendArgs)
      requires Valid() && leaderState.Some? && peer in leaderState.value.nextIndex
      requires 1 <= leaderState.value.nextIndex[peer] < TWO_63
      ensures args == Spec.BuildAppend(State(), peer, commit)
      ensures args.term == currentTerm && args.leader == id && args.commit == commit
      ensures args.prevIndex + 1 == leaderState.value.nextIndex[peer]
      ensures args.prevTerm ==
              if 1 <= args.prevIndex <= |log.entries| then log.entries[args.prevIndex - 1].term else 0
      ensures args.entries == if args.prevIndex < |log.entries| then log.entries[args.prevIndex..] else []
    {
      LogPositions();
      var next := leaderState.value.nextIndex[peer];
      var entries := RangeOf(next, log.LastIndex());
      args := AppendArgs(currentTerm, id, next - 1, log.TermAt(next - 1), entries, commit);
    }

    method RangeOf(from: nat, to: nat) returns (es: seq<Entry>)
      requires Valid() && 1 <= from < TWO_63 && to < TWO_63
      ensures es == Spec.Slice(log.entries, from, to)
    {
      es := log.GetRange(from, to);
      OffsetIsExact(from, 1);
      OffsetIsExact(to, 1);
    }

    /** The inner loop of updateCommitIndex. */
    method CountAcks(matched: map<NodeId, nat>, i: nat) returns (count: nat)
      ensures count == Spec.CountAcks(matched, i)
      ensures count == 1 + |set p | p in matched && matched[p] >= i|
    {
      count := 1;
      var todo := matched.Keys;
      while todo != {}
        invariant todo <= matched.Keys
        invariant count == 1 + |set p | p in matched.Keys - todo && matched[p] >= i|
        decreases todo
      {
        var p :| p in todo;
        ghost var was := set p | p in matched.Keys - todo && matched[p] >= i;
        todo := todo - {p};
        ghost var now := set p | p in matched.Keys - todo && matched[p] >= i;
        if matched[p] >= i {
          assert now == was + {p};
          count := count + 1;
        } else {
          assert now == was;
        }
      }
      assert (set p | p in matched.Keys - todo && matched[p] >= i) == set p | p in matched && matched[p] >= i;
    }

    method QuorumSize() returns (n: nat)
      ensures n == Spec.QuorumSize(config)
      // The least majority.
      ensures n >= 1 && |config| < 2 * n && (n > 1 ==> 2 * (n - 1) <= |config|)
    {
      var size := ClusterSize();
      n := if size <= 1 then 1 else size / 2 + 1;
    }

    /**
     The commit index is the highest index of the current term that a majority matches, the node itself
     included; or it is where it was, and no such index lies above it.
     */
    ghost predicate CommitsHighest(before: nat)
      requires leaderState.Some?
      reads this, log
    {
      var m := leaderState.value.matchIndex;
      && before <= commitIndex
      && (commitIndex > before ==>
            && commitIndex <= |log.entries| && log.entries[commitIndex - 1].term == currentTerm
            && 2 * (1 + |set p | p in m && m[p] >= commitIndex|) > |config|)
      && forall j | before <= j < |log.entries| && log.entries[j].term == currentTerm
                    && 2 * (1 + |set p | p in m && m[p] >= j + 1|) > |config| :: j < commitIndex
    }

    method UpdateCommitIndex()
      requires Valid()
      modifies this`commitIndex
      ensures Valid() && State() == Spec.UpdateCommit(old(State()))
      ensures leaderState.None? ==> commitIndex == old(commitIndex)
      ensures leaderState.Some? ==> CommitsHighest(old(commitIndex))
    {
      if leaderState.None? {
        return;
      }
      ghost var x := State();
      commitIndex := ScanForCommit();
      RuleHolds(x);
    }

    lemma RuleHolds(x: Spec.NodeState)
      requires leaderState.Some? && x.leading.Some? && State() == Spec.UpdateCommit(x)
      ensures CommitsHighest(x.commit)
    {
      Replication.CommitRule(x);
    }

    /** The loop of updateCommitIndex, from the last index down. */
    method ScanForCommit() returns (idx: nat)
      requires Valid() && leaderState.Some?
      ensures idx == Spec.AdvanceFrom(State(), |log.entries|)
    {
      LogPositions();
      var needed := QuorumSize();
      idx := log.LastIndex();
      while idx > commitIndex
        invariant idx <= |log.entries|
        invariant Spec.AdvanceFrom(State(), |log.entries|) == Spec.AdvanceFrom(State(), idx)
      {
        if log.TermAt(idx) == currentTerm {
          var count := CountAcks(leaderState.value.matchIndex, idx);
          if count >= needed {
            return;
          }
        }
        idx := idx - 1;
      }
      idx := commitIndex;
    }

    /** The leader's scan for its last entry of the conflicting term. */
    method FindLastOfTerm(term: nat) returns (index: nat)
      requires Valid()
      ensures index == Spec.LastOfTerm(log.entries, term, |log.entries|)
      ensures index <= |log.entries| && (index > 0 ==> log.entries[index - 1].term == term)
      ensures forall j | index <= j < |log.entries| :: log.entries[j].term != term
    {
      LogPositions();
      index := log.LastIndex();
      while index >= 1
        invariant index <= |log.entries| && forall j | index <= j < |log.entries| :: log.entries[j].term != term
        invariant Spec.LastOfTerm(log.entries, term, |log.entries|) == Spec.LastOfTerm(log.entries, term, index)
      {
        if log.TermAt(index) == term {
          return;
        }
        index := index - 1;
      }
    }

    /**
     After a rejection the next index of the peer, and nothing else, follows the reply: right after the
     last entry of the conflicting term, or where the reply says if there is none or no term is named.
     */
    ghost predicate Resumes(before: Option<Spec.LeaderState>, peer: NodeId, reply: AppendReply)
      requires before.Some?
      reads this, log
    {
      && leaderState.Some? && peer in leaderState.value.nextIndex
      && leaderState.value.matchIndex == before.value.matchIndex
      && var next := leaderState.value.nextIndex[peer];
         && leaderState.value.nextIndex == before.value.nextIndex[peer := next]
         && (if reply.conflictTerm > 0 && exists j :: 0 <= j < |log.entries| && log.entries[j].term == reply.conflictTerm
             then
               && 2 <= next <= |log.entries| + 1 && log.entries[next - 2].term == reply.conflictTerm
               && forall j | next - 1 <= j < |log.entries| :: log.entries[j].term != reply.conflictTerm
             else next == reply.conflictIndex)
    }

    /** The branch of replicateTo for a rejection. */
    method BackOff(peer: NodeId, reply: AppendReply)
      requires Valid() && leaderState.Some?
      modifies this`leaderState
      ensures Valid() && State() == Spec.NoteRejection(old(State()), peer, reply)
      ensures Resumes(old(leaderState), peer, reply)
    {
      var ls := leaderState.value;
      var next := reply.conflictIndex;
      if reply.conflictTerm > 0 {
        var i := FindLastOfTerm(reply.conflictTerm);
        if i > 0 {
          next := i + 1;
        }
      }
      leaderState := Some(ls.(nextIndex := ls.nextIndex[peer := next]));
    }

    /** The tail of replicateTo. */
    method HandleAppendReply(peer: NodeId, entries: seq<Entry>, reply: AppendReply)
      requires Valid()
      modifies this`currentTerm, this`role, this`votedFor, this`leaderState, this`stateFile, this`commitIndex
      ensures Valid()
      ensures State() == Spec.HandleAppendReply(old(State()), peer,
                           if entries == [] then None else Some(entries[|entries| - 1].index), reply)
      // A higher term ends the leadership, on disk too.
      ensures reply.term > old(currentTerm) ==>
                && currentTerm == reply.term && role == Follower && votedFor == NO_NODE && leaderState.None?
                && commitIndex == old(commitIndex) && stateFile == Spec.Disk(reply.term, NO_NODE)
      ensures reply.term <= old(currentTerm) && (old(role) != Leader || old(leaderState).None?) ==> State() == old(State())
      // A success moves both indices of the peer to the last entry it was sent, and the commit index as far as it goes.
      ensures reply.term <= old(currentTerm) && old(role) == Leader && old(leaderState).Some? && reply.success ==>
                && leaderState.Some? && CommitsHighest(old(commitIndex))
                && leaderState.value == (if entries == [] then old(leaderState).value else
                     Spec.LeaderState(old(leaderState).value.nextIndex[peer := entries[|entries| - 1].index + 1],
                                      old(leaderState).value.matchIndex[peer := entries[|entries| - 1].index]))
      ensures reply.term <= old(currentTerm) && old(role) == Leader && old(leaderState).Some? && !reply.success ==>
                Resumes(old(leaderState), peer, reply) && commitIndex == old(commitIndex)
    {
      if reply.term > currentTerm {
        currentTerm := reply.term;
        role := Follower;
        votedFor := NO_NODE;
        leaderState := None;
        SavePersistentState();
        return;
      }
      if role != Leader || leaderState.None? {
        return;
      }
      if reply.success {
        if |entries| > 0 {
          var last := entries[|entries| - 1].index;
          var ls := leaderState.value;
          leaderState := Some(Spec.LeaderState(ls.nextIndex[peer := last + 1], ls.matchIndex[peer := last]));
        }
        UpdateCommitIndex();
      } else {
        BackOff(peer, reply);
      }
    }

    // ----- applying -----

    /** The first critical section of applyCommitted. */
    method PickApply() returns (from: nat, upTo: nat, any: bool)
      requires Valid() && job.Idle?
      modifies this`job
      ensures Valid() && State() == Spec.PickApply(old(State()))
      ensures from == lastApplied && upTo == commitIndex && any == (lastApplied < commitIndex)
      ensures job == if lastApplied < commitIndex then Spec.Picked(commitIndex) else Spec.Idle
    {
      from, upTo, any := lastApplied, commitIndex, lastApplied < commitIndex;
      if any {
        job := Spec.Picked(upTo);
      }
    }

    /** The entries read without the node's lock and handed to the state machine one by one. */
    method FetchApply(from: nat, upTo: nat) returns (entries: seq<Entry>)
      requires Valid() && job == Spec.Picked(upTo) && from == lastApplied && from + 1 < TWO_63 && upTo < TWO_63
      modifies this`job, this`machine
      ensures Valid() && State() == Spec.FetchApply(old(State()))
      ensures machine == old(machine) + entries && job == Spec.Fetched(upTo)
      ensures from <= upTo <= |log.entries| ==> entries == log.entries[from..upTo]
    {
      entries := RangeOf(from + 1, upTo);
      for i := 0 to |entries|
        invariant machine == old(machine) + entries[..i]
      {
        machine := machine + [entries[i]];
        assert entries[..i + 1] == entries[..i] + [entries[i]];
      }
      assert entries[..|entries|] == entries;
      job := Spec.Fetched(upTo);
    }

    /** The last critical section of applyCommitted. */
    method FinishApply(upTo: nat)
      requires Valid() && job == Spec.Fetched(upTo)
      modifies this`job, this`lastApplied
      ensures Valid() && State() == Spec.FinishApply(old(State()))
      ensures lastApplied == upTo && job == Spec.Idle
    {
      lastApplied := upTo;
      job := Spec.Idle;
    }

    /** GracefulStop's step-down of a leader. */
    method StepDown()
      requires Valid() && role == Leader
      modifies this`role, this`leaderState
      ensures Valid() && State() == Spec.StepDown(old(State()))
      ensures role == Follower && leaderState.None? && currentTerm == old(currentTerm) && votedFor == old(votedFor)
    {
      role := Follower;
      leaderState := None;
    }
  }
}
