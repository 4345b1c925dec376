/**
 A cluster of nodes that exchange messages over a network that may lose, repeat, delay and reorder
 them: every message ever sent stays in `msgs` and may be delivered any number of times, or never.
 Each action is one critical section of pkg/raft/node.go (or one crash), taken by one node.
 */
module Cluster {
  import opened RaftTypes
  import opened NodeSpec
  import opened LeaderLogs

  datatype Msg =
    | VoteRequest(ask: VoteArgs)
    | VoteAnswer(voter: NodeId, candidate: NodeId, election: nat, vote: VoteReply)
    | AppendRequest(peer: NodeId, args: AppendArgs)
    // The goroutine that receives the answer still holds the request it sent.
    | AppendAnswer(peer: NodeId, args: AppendArgs, reply: AppendReply)

  /** The log whose position a candidate advertised, and the log it had when it became candidate. */
  datatype Candidacy = Candidacy(basis: seq<Entry>, log: seq<Entry>)

  /** History variables: actions write them, no action is enabled or disabled by them. */
  datatype History = History(
    leaders: map<nat, NodeId>,
    logs: LogMap,
    electors: map<nat, set<NodeId>>,
    votes: map<(nat, NodeId), NodeId>,
    // The voter's log when it voted, for votes cast before the term had a leader.
    voteLogs: map<(nat, NodeId), seq<Entry>>,
    candidacies: map<(nat, NodeId), Candidacy>,
    // How much of the leader's log of a term a node has acknowledged in that term.
    acks: map<(nat, NodeId), nat>,
    // (t, i): the leader of term t committed its own entry i.
    commits: set<(nat, nat)>)

  datatype State = State(config: set<NodeId>, nodes: map<NodeId, NodeState>, msgs: set<Msg>, h: History)

  datatype Action =
    | DoReadPosition(n: NodeId)
    | DoBecomeCandidate(n: NodeId, basis: seq<Entry>)
    | DoSave(n: NodeId)
    | DoRequestVotes(n: NodeId, ballot: Ballot)
    | DoHandleVote(n: NodeId, ask: VoteArgs)
    | DoHandleVoteAnswer(n: NodeId, m: Msg)
    | DoWin(n: NodeId, quorum: set<NodeId>)
    | DoPropose(n: NodeId, proposal: Proposal)
    | DoSendAppend(n: NodeId, peer: NodeId, commit: nat)
    | DoHandleAppend(n: NodeId, args: AppendArgs)
    | DoHandleAppendAnswer(n: NodeId, m: Msg)
    | DoPickApply(n: NodeId)
    | DoFetchApply(n: NodeId)
    | DoFinishApply(n: NodeId)
    | DoStepDown(n: NodeId)
    | DoCrash(n: NodeId)

  // ----- initial states -----

  function FreshNode(id: NodeId, config: set<NodeId>): NodeState {
    NodeState(id, config, Follower, 0, NO_NODE, NO_NODE, [], 0, 0, None, Disk(0, NO_NODE), {}, {}, Idle, [])
  }

  ghost predicate Init(s: State) {
    && s.config != {} && NO_NODE !in s.config
    && s.nodes.Keys == s.config
    && (forall n | n in s.config :: s.nodes[n] == FreshNode(n, s.config))
    && s.msgs == {}
    && s.h == History(map[], map[], map[], map[], map[], map[], map[], {})
  }

  // ----- when an action may happen -----

  predicate IsQuorum(config: set<NodeId>, q: set<NodeId>) {
    q <= config && |q| >= QuorumSize(config)
  }

  ghost predicate Enabled(s: State, a: Action) {
    && a.n in s.nodes
    && var x := s.nodes[a.n];
       match a
       case DoReadPosition(n) => true
       case DoBecomeCandidate(n, basis) => basis in x.seen
       case DoSave(n) => true
       case DoRequestVotes(n, b) => b in x.ballots && b.term <= x.disk.term
       case DoHandleVote(n, args) => VoteRequest(args) in s.msgs && args.candidate != n
       case DoHandleVoteAnswer(n, m) => m in s.msgs && m.VoteAnswer? && m.candidate == n
       case DoWin(n, q) =>
         && x.role == Candidate && x.disk.term == x.term
         && n in q && IsQuorum(s.config, q)
         && forall v | v in q && v != n :: VoteAnswer(v, n, x.term, VoteReply(x.term, true)) in s.msgs
       case DoPropose(n, p) => true
       case DoSendAppend(n, peer, c) =>
         && x.role == Leader && x.leading.Some? && c <= x.commit
         && peer in x.leading.value.nextIndex && x.leading.value.nextIndex[peer] >= 1
       case DoHandleAppend(n, args) => AppendRequest(n, args) in s.msgs
       case DoHandleAppendAnswer(n, m) =>
         && m in s.msgs && m.AppendAnswer? && m.args.leader == n
         && (m.reply.term > x.term || m.args.term == x.term)
       case DoPickApply(n) => x.job.Idle?
       case DoFetchApply(n) => x.job.Picked?
       case DoFinishApply(n) => x.job.Fetched?
       case DoStepDown(n) => x.role == Leader
       case DoCrash(n) => true
  }

  // ----- what an action does -----

  function Sent(args: AppendArgs): Option<nat> {
    if args.entries == [] then None else Some(args.entries[|args.entries| - 1].index)
  }

  /** The new state of the acting node. */
  ghost function NodeAfter(s: State, a: Action): NodeState
    requires Enabled(s, a)
  {
    var x := s.nodes[a.n];
    match a
    case DoReadPosition(n) => ReadPosition(x)
    case DoBecomeCandidate(n, basis) => BecomeCandidate(x, basis)
    case DoSave(n) => Save(x)
    case DoRequestVotes(n, b) => x
    case DoHandleVote(n, args) => HandleVote(x, args).0
    case DoHandleVoteAnswer(n, m) => HandleVoteReply(x, m.vote)
    case DoWin(n, q) => BecomeLeader(x)
    case DoPropose(n, p) => Propose(x, p).0
    case DoSendAppend(n, peer, c) => x
    case DoHandleAppend(n, args) => HandleAppend(x, args).0
    case DoHandleAppendAnswer(n, m) => HandleAppendReply(x, m.peer, Sent(m.args), m.reply)
    case DoPickApply(n) => PickApply(x)
    case DoFetchApply(n) => FetchApply(x)
    case DoFinishApply(n) => FinishApply(x)
    case DoStepDown(n) => StepDown(x)
    case DoCrash(n) => Restart(x)
  }

  /** The message the acting node sends, if any. */
  ghost function Emitted(s: State, a: Action): set<Msg>
    requires Enabled(s, a)
  {
    var x := s.nodes[a.n];
    match a
    case DoRequestVotes(n, b) => {VoteRequest(VoteArgs(b.term, n, b.lastIndex, b.lastTerm))}
    case DoHandleVote(n, args) => {VoteAnswer(n, args.candidate, args.term, HandleVote(x, args).1)}
    case DoSendAppend(n, peer, c) => {AppendRequest(peer, BuildAppend(x, peer, c))}
    case DoHandleAppend(n, args) => {AppendAnswer(n, args, HandleAppend(x, args).1)}
    case _ => {}
  }

  function RecordVote(h: History, t: nat, voter: NodeId, candidate: NodeId, log: seq<Entry>): History {
    h.(votes := h.votes[(t, voter) := candidate],
    voteLogs := if t in h.leaders || (t, voter) in h.voteLogs then h.voteLogs else h.voteLogs[(t, voter) := log])
  }

  function RecordAck(h: History, t: nat, n: NodeId, upTo: nat): History {
    if (t, n) in h.acks && h.acks[(t, n)] >= upTo then h else h.(acks := h.acks[(t, n) := upTo])
  }

  ghost function HistoryAfter(s: State, a: Action): History
    requires Enabled(s, a)
  {
    var h := s.h;
    var x := s.nodes[a.n];
    var y := NodeAfter(s, a);
    match a
    case DoBecomeCandidate(n, basis) => h.(candidacies := h.candidacies[(y.term, n) := Candidacy(basis, x.log)])
    case DoHandleVote(n, args) =>
      if HandleVote(x, args).1.granted then RecordVote(h, args.term, n, args.candidate, x.log) else h
    case DoWin(n, q) =>
      // The candidate's vote for itself counts from here on.
      RecordVote(h, x.term, n, n, x.log).(
      leaders := h.leaders[x.term := n],
      logs := h.logs[x.term := x.log],
      electors := h.electors[x.term := q],
      acks := h.acks[(x.term, n) := |x.log|])
    case DoPropose(n, p) =>
      if Propose(x, p).1.Accepted? then
        h.(logs := h.logs[x.term := y.log],
        acks := h.acks[(x.term, n) := |y.log|],
        commits := if y.commit == x.commit then h.commits else h.commits + {(x.term, y.commit)})
      else h
    case DoHandleAppend(n, args) =>
      if HandleAppend(x, args).1.success then RecordAck(h, args.term, n, args.prevIndex + |args.entries|) else h
    case DoHandleAppendAnswer(n, m) =>
      if y.commit == x.commit then h else h.(commits := h.commits + {(x.term, y.commit)})
    case _ => h
  }

  ghost function After(s: State, a: Action): State
    requires Enabled(s, a)
  {
    State(s.config, s.nodes[a.n := NodeAfter(s, a)], s.msgs + Emitted(s, a), HistoryAfter(s, a))
  }

  // ----- runs -----

  ghost predicate Step(s: State, s': State) {
    exists a :: Enabled(s, a) && s' == After(s, a)
  }

  ghost predicate StepAt(run: seq<State>, i: nat)
    requires i + 1 < |run|
  {
    Step(run[i], run[i + 1])
  }

  ghost predicate IsRun(run: seq<State>) {
    && |run| > 0
    && Init(run[0])
    && forall i: nat {:trigger StepAt(run, i)} | i + 1 < |run| :: StepAt(run, i)
  }
}
