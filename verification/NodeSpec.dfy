/**
 The behaviour of one Raft node as functions on values: for every handler of pkg/raft/node.go, the
 state it leaves and the reply it sends. The class in Node.dfy runs the loops of the source and is
 proved to compute these functions; the cluster model in Cluster.dfy takes its steps with them.
 */
module NodeSpec {
  import opened RaftTypes

  /** What state.json holds. */
  datatype Disk = Disk(term: nat, votedFor: NodeId)

  datatype LeaderState = LeaderState(nextIndex: map<NodeId, nat>, matchIndex: map<NodeId, nat>)

  /** An election under way: its term and the log position its vote requests advertise. */
  datatype Ballot = Ballot(term: nat, lastIndex: nat, lastTerm: nat)

  /** Where the apply loop stands: the lock is free while a job is Picked or Fetched. */
  datatype ApplyJob = Idle | Picked(upTo: nat) | Fetched(upTo: nat)

  datatype NodeState = NodeState(
    id: NodeId,
    config: set<NodeId>,
    role: Role,
    term: nat,
    votedFor: NodeId,
    leaderId: NodeId,
    log: seq<Entry>,
    commit: nat,
    applied: nat,
    leading: Option<LeaderState>,
    disk: Disk,
    // The log as it stood whenever an election read its last index and term.
    seen: set<seq<Entry>>,
    ballots: set<Ballot>,
    job: ApplyJob,
    // The entries handed to the state machine since the process started.
    machine: seq<Entry>)

  // ----- log positions -----

  function TermAt(l: seq<Entry>, i: nat): nat {
    if 1 <= i <= |l| then l[i - 1].term else 0
  }

  function LastTerm(l: seq<Entry>): nat {
    TermAt(l, |l|)
  }

  /** isLogUpToDate: is a candidate's position at least as recent as that of `l`? */
  predicate UpToDate(lastIndex: nat, lastTerm: nat, l: seq<Entry>) {
    if lastTerm != LastTerm(l) then lastTerm > LastTerm(l) else lastIndex >= |l|
  }

  function Min(a: nat, b: nat): nat {
    if a < b then a else b
  }

  /** GetRange on a log that starts at index 1; both bounds are inclusive. */
  function Slice(l: seq<Entry>, from: nat, to: nat): seq<Entry> {
    var lo := if from == 0 then 0 else from - 1;
    var hi := Min(to, |l|);
    if lo < hi then l[lo..hi] else []
  }

  // ----- quorums -----

  function ClusterSize(config: set<NodeId>): nat {
    if |config| == 0 then 1 else |config|
  }

  function QuorumSize(config: set<NodeId>): nat {
    if ClusterSize(config) <= 1 then 1 else ClusterSize(config) / 2 + 1
  }

  // ----- elections -----

  function ReadPosition(s: NodeState): NodeState {
    s.(seen := s.seen + {s.log})
  }

  /** The second phase of startElection; `basis` is the log whose position was read before pre-vote. */
  function BecomeCandidate(s: NodeState, basis: seq<Entry>): NodeState {
    s.(role := Candidate,
    term := s.term + 1,
    votedFor := s.id,
    ballots := s.ballots + {Ballot(s.term + 1, |basis|, LastTerm(basis))})
  }

  function Save(s: NodeState): NodeState {
    s.(disk := Disk(s.term, s.votedFor))
  }

  function HandlePreVote(s: NodeState, args: VoteArgs): VoteReply {
    VoteReply(s.term, args.term >= s.term && UpToDate(args.lastIndex, args.lastTerm, s.log))
  }

  function HandleVote(s: NodeState, args: VoteArgs): (NodeState, VoteReply) {
    if args.term < s.term then
      (s, VoteReply(s.term, false))
    else
      var s1 := if args.term > s.term then s.(term := args.term, role := Follower, votedFor := NO_NODE) else s;
      if (s1.votedFor == NO_NODE || s1.votedFor == args.candidate) && UpToDate(args.lastIndex, args.lastTerm, s1.log) then
        (Save(s1.(votedFor := args.candidate)), VoteReply(s1.term, true))
      else
        (Save(s1), VoteReply(s1.term, false))
  }

  /** What a candidate does with the term of a vote reply (saving comes later, outside the lock). */
  function HandleVoteReply(s: NodeState, reply: VoteReply): NodeState {
    if reply.term > s.term then s.(term := reply.term, role := Follower, votedFor := NO_NODE) else s
  }

  /** The same index for every peer. */
  function Uniform(peers: set<NodeId>, index: nat): map<NodeId, nat> {
    map p | p in peers :: index
  }

  function BecomeLeader(s: NodeState): NodeState {
    var peers := s.config - {s.id};
    s.(role := Leader,
    leaderId := s.id,
    leading := Some(LeaderState(Uniform(peers, |s.log| + 1), Uniform(peers, 0))))
  }

  // ----- proposing -----

  function Propose(s: NodeState, p: Proposal): (NodeState, ProposeResult) {
    if s.role != Leader then
      (s, NotLeader(s.leaderId))
    else if p.command.None? then
      (s, BadCommand)
    else
      var e := Entry(|s.log| + 1, s.term, p.kind, p.command.value);
      var s1 := s.(log := s.log + [e]);
      (if ClusterSize(s.config) <= 1 then s1.(commit := e.index) else s1, Accepted(e.index, e.term))
  }

  /** Proposing the items of a list one by one. */
  function ProposeAll(s: NodeState, ps: seq<Proposal>): (NodeState, seq<ProposeResult>) {
    if ps == [] then (s, [])
    else
      var n := |ps| - 1;
      var (s1, rs) := ProposeAll(s, ps[..n]);
      var (s2, r) := Propose(s1, ps[n]);
      (s2, rs + [r])
  }

  // ----- replication -----

  /** replicateTo's request to `peer`, which is not parked (its next index is at least 1). */
  function BuildAppend(s: NodeState, peer: NodeId, commit: nat): AppendArgs
    requires s.leading.Some? && peer in s.leading.value.nextIndex && s.leading.value.nextIndex[peer] >= 1
  {
    var next := s.leading.value.nextIndex[peer];
    AppendArgs(s.term, s.id, next - 1, TermAt(s.log, next - 1), Slice(s.log, next, |s.log|), commit)
  }

  /** The loop that looks for the first entry that is new or conflicting. */
  function Merge(l: seq<Entry>, es: seq<Entry>): seq<Entry> {
    if es == [] then
      l
    else if es[0].index <= |l| then
      if TermAt(l, es[0].index) != es[0].term then
        l[..if es[0].index == 0 then 0 else es[0].index - 1] + es
      else
        Merge(l, es[1..])
    else
      l + es
  }

  /** The scan for the first index of the conflicting term; 0 when the term reaches down to index 1. */
  function ConflictStart(l: seq<Entry>, term: nat, i: nat): nat {
    if i == 0 then 0
    else if TermAt(l, i) != term then i + 1
    else ConflictStart(l, term, i - 1)
  }

  /** The state after the prologue that every request of a current term passes through. */
  function Adopt(s: NodeState, args: AppendArgs): NodeState {
    var s1 := if args.term > s.term then s.(term := args.term, votedFor := NO_NODE) else s;
    s1.(role := Follower, leaderId := args.leader)
  }

  /** Does the log hold the entry the request builds on? */
  predicate PrevMatches(l: seq<Entry>, args: AppendArgs) {
    args.prevIndex == 0 || (args.prevIndex <= |l| && TermAt(l, args.prevIndex) == args.prevTerm)
  }

  function Reject(l: seq<Entry>, term: nat, args: AppendArgs): AppendReply {
    if args.prevIndex > |l| then
      AppendReply(term, false, |l| + 1, 0)
    else
      var c := TermAt(l, args.prevIndex);
      AppendReply(term, false, if args.prevIndex == 0 then 0 else ConflictStart(l, c, args.prevIndex - 1), c)
  }

  function HandleAppend(s: NodeState, args: AppendArgs): (NodeState, AppendReply) {
    if args.term < s.term then
      (s, AppendReply(s.term, false, 0, 0))
    else
      var s1 := Adopt(s, args);
      if !PrevMatches(s1.log, args) then
        (s1, Reject(s1.log, s1.term, args))
      else
        var log := Merge(s1.log, args.entries);
        var commit := if args.commit > s1.commit then Min(args.commit, |log|) else s1.commit;
        (Save(s1.(log := log, commit := commit)), AppendReply(s1.term, true, 0, 0))
  }

  // ----- the leader's side -----

  function CountAcks(matchIndex: map<NodeId, nat>, i: nat): nat {
    1 + |set p | p in matchIndex && matchIndex[p] >= i|
  }

  /** updateCommitIndex from index i downwards. */
  function AdvanceFrom(s: NodeState, i: nat): nat
    requires s.leading.Some?
    decreases i
  {
    if i <= s.commit then s.commit
    else if TermAt(s.log, i) == s.term && CountAcks(s.leading.value.matchIndex, i) >= QuorumSize(s.config) then i
    else AdvanceFrom(s, i - 1)
  }

  function UpdateCommit(s: NodeState): NodeState {
    if s.leading.None? then s else s.(commit := AdvanceFrom(s, |s.log|))
  }

  /** The last index at or below i whose entry has the given term; 0 when there is none. */
  function LastOfTerm(l: seq<Entry>, term: nat, i: nat): nat {
    if i == 0 then 0
    else if TermAt(l, i) == term then i
    else LastOfTerm(l, term, i - 1)
  }

  /** The next index to try after a rejection. */
  function BackOff(l: seq<Entry>, reply: AppendReply): nat {
    if reply.conflictTerm == 0 then reply.conflictIndex
    else
      var i := LastOfTerm(l, reply.conflictTerm, |l|);
      if i > 0 then i + 1 else reply.conflictIndex
  }

  /** The indices of `peer` after it accepted a request whose last entry was `sent`, if it had any. */
  function NoteSuccess(s: NodeState, peer: NodeId, sent: Option<nat>): NodeState
    requires s.leading.Some?
  {
    if sent.None? then s
    else
      var ls := s.leading.value;
      s.(leading := Some(LeaderState(ls.nextIndex[peer := sent.value + 1], ls.matchIndex[peer := sent.value])))
  }

  function NoteRejection(s: NodeState, peer: NodeId, reply: AppendReply): NodeState
    requires s.leading.Some?
  {
    var ls := s.leading.value;
    s.(leading := Some(ls.(nextIndex := ls.nextIndex[peer := BackOff(s.log, reply)])))
  }

  /** The tail of replicateTo; `sent` is the index of the last entry shipped, if any was. */
  function HandleAppendReply(s: NodeState, peer: NodeId, sent: Option<nat>, reply: AppendReply): NodeState {
    if reply.term > s.term then
      Save(s.(term := reply.term, role := Follower, votedFor := NO_NODE, leading := None))
    else if s.role != Leader || s.leading.None? then
      s
    else if reply.success then
      UpdateCommit(NoteSuccess(s, peer, sent))
    else
      NoteRejection(s, peer, reply)
  }

  // ----- applying -----

  function PickApply(s: NodeState): NodeState {
    if s.applied >= s.commit then s else s.(job := Picked(s.commit))
  }

  /** GetRange runs without the node's lock, on whatever the log is by then. */
  function FetchApply(s: NodeState): NodeState
    requires s.job.Picked?
  {
    s.(job := Fetched(s.job.upTo), machine := s.machine + Slice(s.log, s.applied + 1, s.job.upTo))
  }

  function FinishApply(s: NodeState): NodeState
    requires s.job.Fetched?
  {
    s.(applied := s.job.upTo, job := Idle)
  }

  // ----- stopping and starting -----

  /** GracefulStop's step-down. */
  function StepDown(s: NodeState): NodeState {
    s.(role := Follower, leading := None)
  }

  /** NewNode on the files a stopped or crashed process left behind. */
  function Restart(s: NodeState): NodeState {
    NodeState(s.id, s.config, Follower, s.disk.term, s.disk.votedFor, NO_NODE, s.log, 0, 0, None, s.disk, {}, {}, Idle, [])
  }
}
