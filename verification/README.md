# A verified model of prisn's replicated core

prisn keeps its deployments in a hand-written Raft (`pkg/raft`), launches scheduled jobs from a
Kubernetes reconciler (`operator/controllers/prisncronjob_controller.go`), shares installed packages
between scripts through a layer cache (`pkg/layer`) and builds each runtime environment once
(`pkg/runtime/env.go`). This project models those four parts in Dafny and proves what they promise over
every run or every input.

`dafny verify dfyconfig.toml` checks the whole project.

## How it is organised

**Raft, in two layers.** `NodeSpec.dfy` gives every critical section of `pkg/raft/node.go` as a function
from the node's state (and a message) to its next state and reply. `Node.dfy` is the node as an object
with fields, whose methods run the loops of the source over the object of `LogStore.dfy` and are proved
to compute exactly those functions. `Cluster.dfy` builds the cluster out of the same functions: any
number of nodes, a network that loses, repeats, delays and reorders messages, crashes with restart from
`state.json` and `raft.log`, and history variables that no step reads. `Invariant.dfy` is the inductive
invariant; `StepGrows.dfy` to `StepMsgs.dfy` show that every action keeps it; `Safety.dfy` states the
theorems over whole runs. Two ideas carry the proof: every log is *traced* (each entry stands where the
leader of its term put it, after the same prefix), and a log a node once held stays *kept* (in its later
logs, unless a leader of a term in between overruled it). The second is what makes a vote request sound
that advertises a position read before pre-vote.

**The log on disk.** `LogFile.dfy` is the frame format; `LogStore.dfy` is `Log` with its 64-bit offset
arithmetic and its two files; `UnaryCodec.dfy` gives a marshalling that meets what is assumed of it.

**The state machine.** `Fsm.dfy` is `ClusterState`; `FsmHistory.dfy` says what each part of its state owes to
the log; `FsmProofs.dfy` has its invariants and ties it to the runs of the cluster. `Batch.dfy` relates batched to sequential proposing, `BackOff.dfy` the conflict
back-off to the longest common prefix. `LateLeadership.dfy` examines the gap before `becomeLeader`, and
`StaleReply.dfy` replies that outlive the term of their request. `Replication.dfy` and `Electability.dfy` say
what is achieved where the safety theorems only say what never happens: how far a leader commits, and that
any majority can elect a leader from any state of any run.

**The others.** `Cron.dfy`, `Packages.dfy` with `Layers.dfy`, and `SingleFlight.dfy`.

## What the Raft theorems take for granted

- The cluster configuration is fixed, not empty, the same on all nodes, contains every node, and no node
  ID is empty (`pkg/raft/node.go:1628-1647`).
- The check that an election is won and `becomeLeader` are one step. The source releases the lock between
  them (`pkg/raft/node.go:624-630`, `705-708`); `LateLeadership.dfy` shows the run in which that makes two
  leaders of one term, and that checking the same condition again under the lock is exactly what is needed.
- `replicateTo` reads the next index, the previous entry and the entries in one step, while the node
  leads (`pkg/raft/node.go:797-825`); the commit index it carries may be older.
- A reply to an append is used only when the request carried the node's current term, or to raise the
  term. The source does not compare the two (`pkg/raft/node.go:850-870`); `StaleReply.dfy` shows the run
  in which that makes two nodes apply different entries, exactly which replies do harm, and that with the
  comparison a quorum has always acknowledged what is committed.
- A handler runs as one step together with its disk writes, which succeed. The separate
  `savePersistentState` of an election is a step of its own and may be lost in a crash; it writes the
  fields as they stand at one moment, although the source reads them there without the lock
  (`pkg/raft/node.go:548`, `1691-1696`).
- A vote request of an election goes out after its term is on disk.
- A next index of 0, which the conflict scan yields when the conflicting term reaches down to index 1
  (`pkg/raft/node.go:1092-1097`, `884`), parks the peer for a snapshot; nothing is sent to it.
- Pre-vote only filters elections: the cluster model lets a node become candidate whenever it has read
  its position, which covers every outcome of pre-vote and `startImmediateElection`.

## Where the code does not do what one would expect

- `LateLeadershipMakesTwoLeaders`: as above. `LateLeadershipWinsIff` gives the exact guard.
- `StaleReplyCommitsTooEarly` and `StaleRepliesBreakSafety`: as above, for a reply of an earlier term.
  `HarmlessIff` and `HarmlessForGoodIff` say exactly which replies do no harm, in terms the leader can check
  when the reply arrives.
- `LoadFrameAppendedIff`: an entry of 2^32 bytes or more is written with a wrapped length and makes the
  log unreadable; every shorter one reads back.
- `TruncateAll` resets the first index but leaves `snapshot.meta`, so the log is rebuilt by reopening it
  exactly when there is no such file (or it names index 0).
- An emptied log that was compacted reports last index 0; `LastIndex` is the position of the last entry
  exactly when the log has entries or was never compacted.
- `CompactionGapShiftsEntries`: a process that dies in `Compact` between its two files finds every
  remaining entry under a wrong index.
- `TornFrameIsRefused`: a write torn inside a frame makes the whole log unreadable, at every cut but 0.
- `NamedKeptIff`: activating a version that a deployment does not have leaves `ActiveVersions` naming a
  version that does not exist; nothing else does.
- `KeyUnambiguousIff`: a deployment key stands for one namespace and name exactly when neither contains
  a slash.
- The starting-deadline branch of `Reconcile` is unreachable, and `TooManyIsForever`: without a starting
  deadline a cron job that falls a hundred days behind never launches again. A deadline of at most a hundred
  days excludes that (`DeadlineExcludesTooMany`), and nothing else does.
- `SearchEndsIff`: the search for a missed run does not end when the schedule library gives up on a time
  inside the part of the past that is searched, as it does for a schedule that never fires.
- `ForbidOverlapsExample`: Forbid looks at running and pending jobs only, so the job of the last launch does not
  hold back the next one while it has no phase yet.
- `CreatedTwiceExample`: an environment can be created twice, one after the other, since the cache is not
  looked at again under the lock; `LaterCallersFind` says for whom this cannot happen.
- `OrderFreeIff`: the ID of a layer depends on the order of the request exactly when some name has two
  candidates. `VersionsKeptIff`: a base stands in for a requested package whatever version it holds.
- The comment at `operator/controllers/prisncronjob_controller.go:325` speaks of a hundred iterations; the
  code below it, and so the model, compares with a hundred days.
- `pkg/raft/node.go:1000` speaks of refusing a pre-vote while a leader is known; the code below it only
  compares terms and logs, and so does the model.

## Model

| member | source | states |
|---|---|---|
| `Safety.StateMachineSafety` | pkg/raft/node.go:414-441 | in every run, what any two nodes hand to their state machines at any two moments agrees wherever both are defined; each hands over its log in order, without gap or repetition, and never beyond its commit index |
| `Safety.MachineIsLogPrefix` | pkg/raft/node.go:414-437 | although the log is read after the lock is released, what was applied is a numbered prefix of the log inside the committed part |
| `Safety.MachineOnlyGrows` | pkg/raft/node.go:424-437 | between restarts the state machine is only ever given further entries |
| `Safety.CommittedAgree` | pkg/raft/node.go:950-980 | the committed prefixes of any two nodes at any two moments agree |
| `Safety.LeaderHoldsCommitted` | pkg/raft/node.go:513-562 | leader completeness: the log of every leader of the same or a later term holds what any node had committed, although vote requests advertise a position read before pre-vote |
| `Safety.ElectionSafety` | pkg/raft/node.go:1013-1044 | at most one node ever leads a term, in runs with crashes and restarts and with terms raised in memory only |
| `Safety.LogMatching` | pkg/raft/node.go:1082-1117 | in every reachable state two logs with the same term at an index are identical up to it |
| `Safety.CommitNeverRetreats` | pkg/raft/node.go:1103-1126 | no action but a restart lowers a commit index, and none changes a committed entry: truncation never reaches that far |
| `Safety.FollowerCommitIsVerified` | pkg/raft/node.go:1119-1126 | min(LeaderCommit, LastIndex) is LeaderCommit and lies within the entries this request verified against the leader's log |
| `Safety.AckStable` | pkg/raft/node.go:865-870 | a peer that answered Success agrees with the log of that term's leader through the last entry of the request for as long as it stays in the term, under duplication and reordering, whether or not that leader still leads |
| `Safety.AckMatchesLeader` | pkg/raft/node.go:865-870 | in particular with the log of a node that leads the term then or later |
| `Safety.InvKept` | pkg/raft/node.go:352-1137 | every action keeps the invariant and only extends the history |
| `Safety.InvAlways` | pkg/raft/node.go:352-1137 | the invariant holds in every state of every run |
| `Safety.HistoryExtends` | pkg/raft/node.go:352-1137 | leaders, their logs and commitments recorded at one moment of a run stay recorded |
| `LeaderCompleteness.QuorumsMeet` | pkg/raft/node.go:1628-1647 | two quorums of one configuration share a node |
| `LeaderCompleteness.ElectorCarries` | pkg/raft/node.go:1047-1055 | one voter that acknowledged a committed entry carries it into the new leader's log, through the position the candidate advertised |
| `LeaderCompleteness.CommittedInLaterLeaders` | pkg/raft/node.go:957-979 | what a quorum acknowledged of an entry of the leader's own term is in the log of every later leader |
| `LeaderCompleteness.CommitsAgree` | pkg/raft/node.go:957-979 | any two prefixes covered by commitments agree |
| `StepGrows.WinIsFresh` | pkg/raft/node.go:624-630 | a candidate that counts a quorum wins a term that has no leader |
| `StepGrows.OneVote` | pkg/raft/node.go:1026-1042 | a node that voted in its term, before or after a restart, still has that vote |
| `StepVotes.SavedVoteStays` | pkg/raft/node.go:1691-1711 | no action replaces the saved vote of a term by another |
| `LeaderLogs.MergeIsReplace` | pkg/raft/node.go:1103-1117 | the conflict loop leaves the leader's log up to the last entry shipped, or the old log where it already holds that |
| `StepLogs.AppendReplaces` | pkg/raft/node.go:1082-1117 | the same for every request delivered in a run |
| `StepLogs.DeliveredCommit` | pkg/raft/node.go:1103-1126 | an accepted request keeps the committed prefix and never lowers the commit index |
| `StepMsgs.SuffixShipped` | pkg/raft/node.go:806-825 | a request ships the leader's whole suffix, so its LeaderCommit is at most PrevLogIndex plus the number of entries |
| `StepAcks.HeldKept` | pkg/raft/node.go:513-518 | whatever log a node once held is in its later logs or was overruled by a leader of a term in between |
| `StepAcks.AckedPrefixStays` | pkg/raft/node.go:1103-1117 | while a node stays in a term its log holds what it acknowledged in that term |
| `StepCommits.CountedQuorum` | pkg/raft/node.go:963-970 | the peers counted by updateCommitIndex and the leader form a quorum that acknowledged the entry |
| `Replication.CommitRule` | pkg/raft/node.go:950-980 | a leader commits exactly up to the highest index of its own term that a majority matches, itself included, or stays where it is |
| `Replication.AdvanceIsHighest` | pkg/raft/node.go:958-979 | above the index the scan stops at, no entry of the term has enough acknowledgements |
| `Replication.NextAfterSuccess` | pkg/raft/node.go:865-869 | after a success the next request starts right after the last entry acknowledged, and no other peer's indices move |
| `Replication.MergeExact` | pkg/raft/node.go:1103-1117 | for any contiguous entries: the log is left alone if it has them all, else cut at the first one that differs and continued with the rest |
| `Electability.PositionsTotal` | pkg/raft/node.go:1047-1055 | of any two logs one is accepted against the other, both exactly when last index and term are equal |
| `Electability.PositionsTransitive` | pkg/raft/node.go:1047-1055 | acceptance is transitive |
| `Electability.GrownIsAccepted` | pkg/raft/node.go:1047-1055 | a log is accepted against all it has grown from, and these are not accepted against it |
| `Electability.MostRecent` | pkg/raft/node.go:1047-1055 | any nodes in any state have one among them that all of them accept |
| `Electability.GrantedIff` | pkg/raft/node.go:1022-1042 | a vote is granted exactly in a term in which the node holds no other vote, to a position recent enough; it is then on disk |
| `Electability.MostRecentIsGranted` | pkg/raft/node.go:1013-1044 | the node all accept is granted the vote of each that is in a lower term or has not voted |
| `Electability.PreVoteIff` | pkg/raft/node.go:985-1010 | a pre-vote is what the vote would be at a node that has not voted in that term |
| `Electability.MajorityCanElect` | pkg/raft/node.go:513-630 | from every state of every run, every majority can elect one of its members by its own steps alone |
| `BackOffProof.ConflictStartMeaning` | pkg/raft/node.go:1089-1098 | the follower's scan finds the start of the run of the conflicting term, or 0 |
| `BackOffProof.LastOfTermMeaning` | pkg/raft/node.go:876-882 | the leader's scan finds its last entry of the term, or 0 when it has none |
| `BackOffProof.KnownTermStep` | pkg/raft/node.go:873-882 | resuming after the leader's last entry of the conflicting term skips nothing the logs do not share |
| `BackOffProof.UnknownTermStep` | pkg/raft/node.go:883-885 | so does resuming at the start of the follower's run; index 0 comes up only when nothing is shared |
| `BackOffProof.LeaderScanStopsBelow` | pkg/raft/node.go:873-882 | the leader's scan of its whole log stops below PrevLogIndex |
| `BackOffProof.BackOffStep` | pkg/raft/node.go:871-889 | one rejection lowers the next index and keeps it above the longest common prefix, or parks the peer, which shares nothing then |
| `BackOffProof.ShortFollowerCaughtUp` | pkg/raft/node.go:1084-1087 | a follower whose log is too short names the index after its last one; if its log is a prefix, the next request is accepted |
| `BackOffProof.ConflictTermFalls` | pkg/raft/node.go:871-889 | each further rejection is about a lower term: a whole term is skipped at a time |
| `BackOffProof.SettleIsExact` | pkg/raft/node.go:871-889 | probing ends after at most as many rejections as the distance, exactly one past the longest common prefix or parked |
| `BackOffProof.SettleIsFast` | pkg/raft/node.go:871-889 | wherever probing starts it ends after at most one rejection more than the follower's log has different terms |
| `BackOffProof.BackOffInRun` | pkg/raft/node.go:871-889 | the same for rejections in a run that reach the leader of the term at that moment or later |
| `LateLeadership.LateLeadershipWinsIff` | pkg/raft/node.go:624-630 | after the lock was released, becomeLeader wins the term that was counted exactly when the node is still candidate in it; the term has no leader then |
| `LateLeadership.LateLeadershipVotes` | pkg/raft/node.go:705-708 | in the term counted the quorum has still elected the node; in another term it claims without having stood there, nobody else has voted for it |
| `LateLeadership.LateLeadershipMakesTwoLeaders` | pkg/raft/node.go:705-708 | a run of three nodes after which the unguarded becomeLeader makes a second leader of term 2 |
| `StaleReply.StaleReplyCommitsTooEarly` | pkg/raft/node.go:861-870 | a run of five nodes after which a success of term 1, used by the leader of term 3, commits an entry that some node of every quorum does not hold |
| `StaleReply.StaleRepliesBreakSafety` | pkg/raft/node.go:861-870 | the run goes on until two nodes have applied different entries at index 2: without the comparison state machine safety is false |
| `StaleReply.HarmlessIff` | pkg/raft/node.go:865-870 | in every run, a success makes the leader count only what the peer acknowledged of the leader's own log, exactly when the request was of its term, or reaches no further than its commit index, or ends at an entry of another term |
| `StaleReply.HarmlessForGoodIff` | pkg/raft/node.go:865-870 | the same for all entries the leader may append later in its term: then the index must also lie within its log |
| `StaleReply.CurrentReplyCommitsSoundly` | pkg/raft/node.go:861-870 | a reply to a request of the leader's own term commits only an entry of that term that a quorum acknowledged in it |
| `Batch.CommitOnce` | pkg/raft/node.go:393-408 | appending a batch and committing once leaves what proposing its items one by one leaves |
| `Batch.AllRefused` | pkg/raft/node.go:357-362 | a node that does not lead refuses every item and changes nothing |
| `Batch.BatchShape` | pkg/raft/node.go:352-408 | a batch changes only log and commit index, and the log by as many entries as were accepted |
| `Batch.BatchResults` | pkg/raft/node.go:366-391 | each request gets one result; accepted ones get consecutive indices in the current term and are the entries the log gains, in order |
| `RaftNode.Node.constructor` | pkg/raft/node.go:1714-1735 | a node starts from its files and nothing else |
| `RaftNode.Node.RestartFromFiles` | pkg/raft/node.go:143-181 | stopping and starting again on files that rebuild the log is exactly the crash step of the cluster model |
| `RaftNode.Node.SavePersistentState` | pkg/raft/node.go:1691-1711 | term and vote go to state.json |
| `RaftNode.Node.ReadPosition` | pkg/raft/node.go:513-518 | the advertised position is that of the log at this moment |
| `RaftNode.Node.BecomeCandidate` | pkg/raft/node.go:540-562 | the candidate step of the cluster model, with requests that advertise the earlier position |
| `RaftNode.Node.IsLogUpToDate` | pkg/raft/node.go:1047-1055 | accepted exactly with a higher last term, or the same and an index no lower |
| `RaftNode.Node.HandlePreVote` | pkg/raft/node.go:985-1010 | granted exactly for a term not lower and a position recent enough, without any change of state |
| `RaftNode.Node.HandleRequestVote` | pkg/raft/node.go:1013-1044 | exactly the vote step of the cluster model; who is granted, and what term, vote and role are in memory and on disk, over the fields |
| `RaftNode.Node.HandleVoteReply` | pkg/raft/node.go:588-598 | a higher term in a vote reply makes the candidate a follower, in memory |
| `RaftNode.Node.BecomeLeader` | pkg/raft/node.go:705-732 | next and match indices of exactly the other nodes |
| `RaftNode.Node.ForPeers` | pkg/raft/node.go:719-731 | the loop over the configuration gives every other node the index, whatever the order of the map |
| `RaftNode.Node.Propose` | pkg/raft/node.go:1416-1458 | the propose step, with commitment at once in a cluster of one; the files still rebuild the log if its entries fit |
| `RaftNode.Node.RefuseBatch` | pkg/raft/node.go:357-362 | every item gets the refusal that proposing it would give |
| `RaftNode.Node.AppendNext` | pkg/raft/node.go:367-390 | one item is appended at the next index in the current term, or refused |
| `RaftNode.Node.AppendBatch` | pkg/raft/node.go:365-391 | the loop appends the items in order and remembers the last index it appended, if any |
| `RaftNode.Node.ProcessBatch` | pkg/raft/node.go:352-408 | the loop of the batch refines proposing one by one |
| `RaftNode.Node.FindConflictStart` | pkg/raft/node.go:1092-1097 | the follower's scan |
| `RaftNode.Node.MergeEntries` | pkg/raft/node.go:1103-1117 | the conflict loop over the shipped entries |
| `RaftNode.Node.CheckPrev` | pkg/raft/node.go:1082-1100 | acceptance and rejection by the previous entry, with the conflict information |
| `RaftNode.Node.Adopt` | pkg/raft/node.go:1071-1078 | the request's term and leader are taken over, in memory only |
| `RaftNode.Node.Accept` | pkg/raft/node.go:1102-1136 | entries merged, commit index raised to min(LeaderCommit, LastIndex), state persisted |
| `RaftNode.Node.HandleAppendEntries` | pkg/raft/node.go:1058-1137 | exactly the append step of the cluster model; a rejection raises the term in memory only; the files still rebuild the log if its entries fit |
| `RaftNode.Node.BuildAppend` | pkg/raft/node.go:812-825 | the request for a peer that is not parked |
| `RaftNode.Node.CountAcks` | pkg/raft/node.go:963-968 | the leader plus the peers that match the index, whatever the order of the map |
| `RaftNode.Node.QuorumSize` | pkg/raft/node.go:1641-1647 | the least number of nodes that is more than half of the configuration, and 1 for an empty one |
| `RaftNode.Node.UpdateCommitIndex` | pkg/raft/node.go:950-980 | over the fields: the highest index of the current term that a majority matches, or no change and no such index |
| `RaftNode.Node.ScanForCommit` | pkg/raft/node.go:958-979 | the scan from the last index down |
| `RaftNode.Node.FindLastOfTerm` | pkg/raft/node.go:876-882 | the leader's scan |
| `RaftNode.Node.BackOff` | pkg/raft/node.go:871-889 | the next index after a rejection |
| `RaftNode.Node.HandleAppendReply` | pkg/raft/node.go:850-889 | exactly the answer step of the cluster model; over the fields: a higher term ends the leadership, a success moves the peer's indices and the commit index as far as it goes, a rejection moves the next index only |
| `RaftNode.Node.PickApply` | pkg/raft/node.go:415-422 | the range to apply |
| `RaftNode.Node.FetchApply` | pkg/raft/node.go:424-433 | the entries of that range go to the state machine in order |
| `RaftNode.Node.FinishApply` | pkg/raft/node.go:435-437 | the range is marked as applied |
| `RaftNode.Node.StepDown` | pkg/raft/node.go:216-226 | a leader that stops gives up its leadership |
| `LogFile.LengthRoundTrip` | pkg/raft/log.go:122-129 | a 4-byte little-endian length reads back modulo 2^32 |
| `LogFile.LowByteFirst` | pkg/raft/log.go:124 | the low byte of a length comes first |
| `LogFile.ReadsOwnFrameIff` | pkg/raft/log.go:121-142 | a frame reads back, whatever follows, exactly when its entry is shorter than 2^32 bytes |
| `LogFile.LoadEncoded` | pkg/raft/log.go:115-146 | frames read back in order, in front of whatever follows them |
| `LogFile.LoadRoundTrip` | pkg/raft/log.go:115-146 | a file of frames loads to its entries |
| `LogFile.LoadThenMore` | pkg/raft/log.go:115-146 | a loadable file stays loadable in front of what is appended to it, its entries first |
| `LogFile.LoadFrameAppendedIff` | pkg/raft/log.go:149-178 | appending a frame to a loadable file adds its entry at the end exactly when the entry is shorter than 2^32 bytes |
| `LogFile.TornFrameIsRefused` | pkg/raft/log.go:131-135 | a file whose last frame is cut short does not load, unless the cut removes it whole |
| `LogStore.OffsetIsExact` | pkg/raft/log.go:181-190 | int(idx - firstIdx) in 64 bits is the difference, or negative 2^63 beyond |
| `LogStore.Log.NewLog` | pkg/raft/log.go:36-67 | opening a directory gives the log its two files describe, or fails where raft.log does not parse |
| `LogStore.Log.Empty` | pkg/raft/log.go:47-58 | an empty log behind the position of its snapshot metadata |
| `LogStore.Log.ReadFrames` | pkg/raft/log.go:115-146 | the read loop computes the entries of the file, or reports the failure |
| `LogStore.Log.Get` | pkg/raft/log.go:181-190 | the entry at the index, for every 64-bit index |
| `LogStore.Log.TermAt` | pkg/raft/log.go:246-252 | its term, or 0 |
| `LogStore.Log.GetRange` | pkg/raft/log.go:193-212 | exactly the entries of the range that the log has |
| `LogStore.Log.LastIndex` | pkg/raft/log.go:224-232 | the last index, and exactly when an empty log loses it |
| `LogStore.Log.LastTerm` | pkg/raft/log.go:235-243 | the term at the last index |
| `LogStore.Log.Append` | pkg/raft/log.go:149-178 | memory and file gain the entries; the files rebuild the log if all of them are shorter than 2^32 bytes, and for a single one only if it is; contiguous entries stay at the index they carry |
| `LogStore.Log.AppendOne` | pkg/raft/log.go:157-174 | the two writes of an entry add one frame to the file |
| `LogStore.Log.Rewrite` | pkg/raft/log.go:288-339 | the new file holds the frames of the entries in memory, and rebuilds them if they fit |
| `LogStore.Log.TruncateAfter` | pkg/raft/log.go:256-272 | the index-to-entry map is cut after the index, on disk too; an index 2^63 beyond the first drops all |
| `LogStore.Log.Compact` | pkg/raft/log.go:363-390 | entries up to the index go, the others keep their indices, both files agree; an index outside the log changes nothing |
| `LogStore.Log.TruncateAll` | pkg/raft/log.go:276-284 | empties the log; the files still rebuild it exactly when no snapshot metadata remain |
| `LogStore.Log.Reopen` | pkg/raft/log.go:36-67 | reopening a log whose files are in step gives the same entries, first index and snapshot position |
| `LogStore.AlignedAppend` | pkg/raft/log.go:149-178 | appending contiguous entries keeps every entry at the index it carries |
| `LogStore.ViewIsByIndex` | pkg/raft/log.go:181-190 | in a log whose entries stand at the index they carry, looking up an index finds the entry of that index |
| `LogStore.CompactionGapShiftsEntries` | pkg/raft/log.go:383-389 | new metadata with the old file put every remaining entry under a wrong index |
| `UnaryCodec.UnaryIsFaithful` | pkg/raft/log.go:137-140 | the assumption about marshalling can be met |
| `UnaryCodec.Bootstrap` | pkg/raft/node.go:520-530 | a node on an empty directory becomes leader of a cluster of one and commits its no-op, which its files rebuild |
| `UnaryCodec.CompactionGapExample` | pkg/raft/log.go:383-389 | two entries compacted up to the first: index 2 answers with entry 1 |
| `Fsm.ClusterState.Apply` | pkg/raft/fsm.go:86-224 | the effect of one entry, with timestamps left out; one that does not decode changes nothing |
| `Fsm.ClusterState.constructor` | pkg/raft/fsm.go:71-79 | an empty state |
| `Fsm.ClusterState.ApplyDeployment` | pkg/raft/fsm.go:100-149 | a deployment is created with one active version, or updated with a further one where the version is new |
| `Fsm.ClusterState.ApplyActivate` | pkg/raft/fsm.go:166-172 | the flags and the recorded version of a known deployment follow the command |
| `Fsm.ClusterState.ApplyDeploymentEntry` | pkg/raft/fsm.go:94-172 | the commands about deployments, with their decoding failures |
| `Fsm.ClusterState.ApplyClusterEntry` | pkg/raft/fsm.go:174-208 | the commands about assignments and nodes, with their decoding failures |
| `Fsm.ClusterState.ApplyAll` | pkg/raft/node.go:424-433 | applying a list of entries is the fold of their effects, failures passed over |
| `Fsm.ClusterState.FlagVersions` | pkg/raft/fsm.go:136-138 | the loops over Versions flag the named version and no other |
| `Fsm.ClusterState.Restore` | pkg/raft/fsm.go:234-249 | a snapshot that decodes replaces every field, another none |
| `FsmProofs.StateOkAlways` | pkg/raft/fsm.go:94-172 | after any entries, ActiveVersions and Deployments have the same keys, each deployment sits under its own key with at least one version, and flagged versions are the recorded one |
| `FsmProofs.EntryKeeps` | pkg/raft/fsm.go:86-224 | every kind of entry keeps that |
| `FsmHistory.PresentIff` | pkg/raft/fsm.go:94-159 | after any log, a deployment is there exactly when the last create, update or delete about it is not a delete |
| `FsmHistory.ReplicasAreLast` | pkg/raft/fsm.go:94-219 | its replicas are those of the last create, update or scale about it |
| `FsmHistory.SettingsAreLast` | pkg/raft/fsm.go:94-149 | its port, schedule and environment are those of the last create or update about it |
| `FsmHistory.NamesAreFirst` | pkg/raft/fsm.go:103-124 | its name, namespace and type are those of the entry that made it |
| `FsmHistory.HasOrigin` | pkg/raft/fsm.go:103-124 | every deployment has such an entry, with no delete after it |
| `FsmHistory.ActiveIsLast` | pkg/raft/fsm.go:124-171 | its active version is the last one named by an activation, create or update; after an activation exactly the versions of that ID are flagged |
| `FsmHistory.AssignmentIsLast` | pkg/raft/fsm.go:151-188 | an assignment is that of the last assign, unassign or delete about its key, if that is an assign |
| `FsmHistory.NodeIsLast` | pkg/raft/fsm.go:190-208 | a node is known, with the address it joined with, exactly when the last entry about it is a join |
| `FsmHistory.LastAppliedIsLast` | pkg/raft/fsm.go:222-223 | the last applied index is that of the last entry that decodes; one that does not changes nothing |
| `FsmHistory.OthersKept` | pkg/raft/fsm.go:86-224 | an entry about another deployment, or about none, leaves a deployment and its active version alone |
| `FsmHistory.MadeNew` | pkg/raft/fsm.go:103-124 | a new deployment has every field of the command and one flagged version with its metadata |
| `FsmHistory.MadeAgain` | pkg/raft/fsm.go:125-149 | one that is there takes replicas, port, schedule and environment, and gains a flagged version exactly when the command names one that is not active |
| `FsmHistory.Scaled` | pkg/raft/fsm.go:210-219 | scaling changes the replicas and nothing else |
| `FsmHistory.Activated` | pkg/raft/fsm.go:161-172 | activating flags exactly the versions of that ID, records it and changes nothing else |
| `FsmHistory.Deleted` | pkg/raft/fsm.go:151-159 | deleting removes the deployment, its active version and its assignment |
| `FsmHistory.NothingThere` | pkg/raft/fsm.go:161-219 | scaling or activating what is not there does nothing |
| `FsmProofs.NamedKeptIff` | pkg/raft/fsm.go:161-172 | an entry leaves an active version that does not exist exactly when it activates an unknown one |
| `FsmProofs.DanglingVersionExample` | pkg/raft/fsm.go:161-172 | a deployment of version 1 and an activation of version 2 leave version 2 recorded and missing |
| `FsmProofs.ActivateNamesIff` | pkg/raft/fsm.go:166-172 | activating keeps every recorded version an existing one exactly when the deployment has the version or does not exist |
| `FsmProofs.KeyIsInjective` | pkg/raft/fsm.go:81-83 | namespaces without a slash have distinct keys for distinct deployments |
| `FsmProofs.KeyUnambiguousIff` | pkg/raft/fsm.go:81-83 | a key determines namespace and name exactly when neither has a slash |
| `FsmProofs.FoldInParts` | pkg/raft/node.go:424-433 | applying a log in two parts is applying it whole |
| `FsmProofs.SnapshotThenSuffix` | pkg/raft/fsm.go:227-249 | restoring a snapshot and applying the rest is applying the whole log |
| `FsmProofs.ReplicasAgree` | pkg/raft/node.go:414-441 | in every run, of any two replicas at any two moments one state is a stage of the other; equally many entries give equal states |
| `Cron.GetMissedRun` | operator/controllers/prisncronjob_controller.go:301-332 | where the loop ends: the greatest tick in (earliest, now]; none exactly when there is none; the error exactly when some such tick lies more than 100 days past earliest |
| `Cron.SearchEndsIff` | operator/controllers/prisncronjob_controller.go:322-330 | the loop ends exactly when the schedule library does not give up within the part of the past that is searched |
| `Cron.NeverFiringNeverEnds` | operator/controllers/prisncronjob_controller.go:322-330 | for a schedule that never fires no pass of the loop is the last |
| `Cron.CronJob.UpdateActiveJobs` | operator/controllers/prisncronjob_controller.go:204-230 | one item for each running or pending job, in order, and no other; the latest completion among succeeded jobs |
| `Cron.ListMeaning` | operator/controllers/prisncronjob_controller.go:208-217 | a name is listed exactly when a job of that name is running or pending; the list is empty exactly when none is |
| `Cron.CronJob.Reconcile` | operator/controllers/prisncronjob_controller.go:82-174 | which outcome occurs when; what is launched is the latest tick after the last launch and inside the deadline; under Forbid nothing is launched beside a running or pending job; what the status and the deletions are after each outcome; the starting-deadline rejection never |
| `Cron.DueIff` | operator/controllers/prisncronjob_controller.go:303-320 | the search covers exactly the ticks after the last launch, or the creation, and inside the starting deadline |
| `Cron.ForbidOverlapsExample` | operator/controllers/prisncronjob_controller.go:133-136 | under Forbid, a job that has no phase yet does not keep the next one from being launched |
| `Cron.HundredDays` | operator/controllers/prisncronjob_controller.go:326 | the limit is a hundred days, to the nanosecond |
| `Cron.ScheduleAdvances` | operator/controllers/prisncronjob_controller.go:162-163 | LastScheduleTime never moves back over any sequence of reconciles |
| `Cron.LaunchesIncrease` | operator/controllers/prisncronjob_controller.go:104-174 | launches are ticks, not in the future, and strictly increase, so none is launched twice |
| `Cron.TooManyIsForever` | operator/controllers/prisncronjob_controller.go:104-109 | without a starting deadline, an error about too many missed runs repeats at every later reconcile |
| `Cron.DeadlineExcludesTooMany` | operator/controllers/prisncronjob_controller.go:303-315 | a starting deadline of at most a hundred days rules the error out at every reconcile |
| `Cron.TooManyIsPossible` | operator/controllers/prisncronjob_controller.go:301-329 | no other deadline does, nor does none |
| `Cron.TooManyExample` | operator/controllers/prisncronjob_controller.go:104-109 | a cron job that reports the error at a reconcile and at any later one |
| `SingleFlight.InvKept` | pkg/runtime/env.go:59-93 | every step of every goroutine keeps slots, channels and their creators in agreement |
| `SingleFlight.InvAlways` | pkg/runtime/env.go:59-93 | that agreement holds in every interleaving |
| `SingleFlight.OneCreator` | pkg/runtime/env.go:68-92 | at most one goroutine creates the environment of a key at a time |
| `SingleFlight.SlotIffCreator` | pkg/runtime/env.go:80-89 | the map holds a key exactly while a goroutine creates its environment |
| `SingleFlight.ReleasedByCreator` | pkg/runtime/env.go:70-89 | a waiter can go on exactly when the creator it found, of its own key, has finished |
| `SingleFlight.CreationIsCached` | pkg/runtime/env.go:91-92 | a creation puts the environment into the cache exactly when it succeeds |
| `SingleFlight.WaiterIsServed` | pkg/runtime/env.go:70-78 | a waiter whose creator succeeded returns the environment |
| `SingleFlight.LaterCallersFind` | pkg/runtime/env.go:63-92 | once an environment is in the cache, no goroutine that looks from then on takes the lock, waits or creates |
| `SingleFlight.CreatedTwiceExample` | pkg/runtime/env.go:63-82 | one that had looked before can create it a second time |
| `Packages.NormalizePackages` | pkg/layer/store.go:424-449 | whatever order the map lists its values in, the result is the canonical form |
| `Packages.Collect` | pkg/layer/store.go:426-437 | the first loop computes the map of representatives |
| `Packages.Values` | pkg/layer/store.go:439-442 | the second loop lists every representative once, in any order |
| `Packages.SeenIsCandidate` | pkg/layer/store.go:426-437 | the map has exactly the requested names, each with a candidate of that name |
| `Packages.FirstWins` | pkg/layer/store.go:429-436 | a candidate that comes first is the one kept |
| `Packages.SortedUnique` | pkg/layer/store.go:444-446 | a set of packages has at most one listing sorted by lower-cased name |
| `Packages.LessMeaning` | pkg/layer/store.go:444-446 | the order of names is dictionary order |
| `Packages.CanonKeepsNames` | pkg/layer/store.go:425-446 | the form is sorted, has every requested name, and represents each by a requested package that is versioned if any of the name is |
| `Packages.CanonOfSorted` | pkg/layer/store.go:451-452 | normalizing again changes nothing |
| `Packages.OrderFreeIff` | pkg/layer/store.go:424-449 | the form is the same for every order of the request exactly when each name has one candidate |
| `Packages.OrderMattersExample` | pkg/layer/store.go:429-436 | of two versions of one name the first one requested is installed |
| `Packages.UnambiguousIsOrderFree` | pkg/layer/store.go:424-449 | without ambiguity the form depends on the set of packages only |
| `Packages.DistinctIsOrderFree` | pkg/layer/store.go:424-449 | for distinct lower-cased names it is the sorted permutation of the request, in any order |
| `Layers.DeltaSorted` | pkg/layer/store.go:172-186 | the delta of a normalized request is its own normal form |
| `Layers.CoveredAndRest` | pkg/layer/store.go:148-185 | every package is covered or left over, counting repetitions |
| `Layers.VersionsKeptIff` | pkg/layer/store.go:132-186 | base and delta share out the requested names; the requested packages themselves survive exactly when the base holds them wherever it has the name |
| `Layers.VersionIgnoredExample` | pkg/layer/store.go:150-153 | a base with version 1 leaves nothing over of a request for version 2 |
| `Layers.IdIsCanonical` | pkg/layer/store.go:451-465 | unambiguous requests for the same packages have the same layer ID in any order |
| `Layers.Store.FindBestBase` | pkg/layer/store.go:133-170 | a base of maximal positive score, whatever order the map has; it covers half of the request or three packages, and no base of its priority covers more; none only if none scores or the winner covers too little |
| `Layers.Store.CoveredBy` | pkg/layer/store.go:148-153 | the packages of a base whose names are wanted, in order |
| `Layers.Store.LayerId` | pkg/layer/store.go:451-465 | the digest of the canonical form |
| `Layers.Store.ComputeDelta` | pkg/layer/store.go:173-186 | the requested packages whose names are not covered |
| `Layers.Store.Plan` | pkg/layer/store.go:102-109 | the chosen base is registered, covers what it is said to cover, and the delta is what it leaves over, in normal form |
| `Layers.Store.GetOrCreateLayer` | pkg/layer/store.go:189-208 | an existing layer is only marked as used, a missing one is added under its ID, or nothing changes where installing fails |
| `Layers.Store.ComposeStack` | pkg/layer/store.go:287-310 | if all layers are present, the path has the directory of each, in order |
| `Layers.PathsInParts` | pkg/layer/store.go:291-302 | in general each ID contributes its layer's directory, or nothing if it has none, one after the other |
| `Layers.AllPresent` | pkg/layer/store.go:291-302 | present layers contribute one directory each |
| `Layers.Store.Resolve` | pkg/layer/store.go:98-130 | the store stays in order; with bases backed by their layers and no clash of IDs, the stack's layers are present and have every requested name, the delta's with their versions, and the path is the base's directory followed by the delta's |
| `Layers.Store.AllFound` | pkg/layer/store.go:111-127 | every requested name is in a layer whose directory is on the path |
| `Layers.Store.AllProvided` | pkg/layer/store.go:111-127 | the layers of base and delta together have every requested name |
| `Layers.Store.RegisterBase` | pkg/layer/store.go:321-327 | the store stays in order exactly when the layer of the base is present and has its names |
| `Layers.Store.BuildBase` | pkg/layer/base.go:114-148 | an existing base is left alone; a new layer under an ID that no other list has keeps every base backed |
| `Layers.Store.RebuildBacked` | pkg/layer/base.go:129-135 | replacing a layer by one of the same normal form takes no name from any base |
| `Layers.Store.BaseLayerIds` | pkg/layer/store.go:339-342 | exactly the layers some base points at |
| `Layers.Store.GarbageCollect` | pkg/layer/store.go:330-362 | a layer goes exactly when it is old, of no base and removable; bases stay backed; counts and bytes add up |

## Left out

- `HandleInstallSnapshot`, `sendSnapshot` and `maybeCompactLog` inside the consensus theorems: as coded they lose the log position used for voting; compaction is modelled on the log alone.
- Membership changes (`applyMembershipChange`): the quorum changes when an entry is applied, without joint consensus; the theorems are for a fixed configuration.
- Timers, RPC timeouts, liveness, and the parts of leadership transfer other than its immediate election.
- Replies of an earlier term that reach a leader of a later one, in the runs of the safety theorems: the source uses them, and `StaleReply.StaleReplyCommitsTooEarly` shows that they break the rule of commitment the theorems rest on.
- `pkg/raft/transport.go`, `pkg/raft/discovery.go`, `pkg/raft/cluster.go`: transport and thin wrappers.
- JSON and SHA-256: encodings are arbitrary functions that decoding undoes, digests are arbitrary functions.
- Disk errors, other than a torn frame and a crash between the two files of a compaction; `Sync` calls.
- Indices at or above 2^63: the operations of `Log` and `Node` require room below that bound.
- Timestamps, `Metrics`, and the readers of `ClusterState`: no property above depends on them.
- The object of the state machine is not a field of the modelled node: the node records the entries it hands over, and `FsmProofs.ReplicasAgree` folds them.
- `Cron.GetMissedRun`: is stated for searches that end, since a loop that does not end returns nothing; `Cron.SearchEndsIff` says exactly which end. The library is taken to look ahead to a horizon that never moves back, and to answer with the zero time beyond it.
- Cron jobs being deleted, finalizers, `cleanupOldJobs` and the content of the created job: object plumbing around the schedule; updates of the status are taken to succeed.
- Half-built environments: in the single-flight protocol an environment is in the cache from the moment its creation succeeds; `checkCache` may accept one earlier, as soon as some of its files exist.
- `cacheKey` of `pkg/runtime/env.go`, and everything that installs, runs or removes an environment.
- `Layers.Store.Resolve`: does not promise the versions of packages that a base covers, because the source does not compare them; `Layers.VersionsKeptIff` says when they are right.
- The layout of a layer's directory (the choice of `site-packages` below it), the index file of the layer store, and overflow of a base's score.
- The command line, the API server, authentication, the other controllers, dependency analysis, runners and sandboxes.
