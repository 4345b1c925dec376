/** The inductive invariant of the cluster, and the order in which its history only grows. */
module Invariant {
  import opened RaftTypes
  import opened NodeSpec
  import opened LeaderLogs
  import opened Cluster

  ghost predicate Shape(s: State) {
    && s.config != {} && NO_NODE !in s.config
    && s.nodes.Keys == s.config
    && forall n | n in s.config :: s.nodes[n].id == n && s.nodes[n].config == s.config
  }

  // ----- leaders' logs -----

  ghost predicate LeaderOk(s: State, t: nat)
    requires t in s.h.logs && t in s.h.leaders
  {
    var l := s.h.logs[t];
    && t >= 1 && s.h.leaders[t] in s.config
    && Traced(l, s.h.logs) && Sorted(l) && Bounded(l, t) && Numbered(l)
  }

  ghost predicate Leaders(s: State) {
    && s.h.leaders.Keys == s.h.logs.Keys == s.h.electors.Keys
    && forall t {:trigger LeaderOk(s, t)} | t in s.h.logs :: LeaderOk(s, t)
  }

  // ----- nodes -----

  ghost predicate NodeOk(x: NodeState, ll: LogMap) {
    && Traced(x.log, ll) && Bounded(x.log, x.disk.term)
    && x.disk.term <= x.term
    && (x.disk.term == x.term ==> x.votedFor == x.disk.votedFor)
    && x.commit <= |x.log|
  }

  ghost predicate Nodes(s: State)
    requires Shape(s)
  {
    forall n {:trigger NodeOk(s.nodes[n], s.h.logs)} | n in s.config :: NodeOk(s.nodes[n], s.h.logs)
  }

  ghost predicate LeaderNode(s: State, x: NodeState) {
    && x.term in s.h.leaders && s.h.leaders[x.term] == x.id
    && x.term in s.h.logs && x.log == s.h.logs[x.term]
    && x.disk.term == x.term
    && x.leading.Some?
    && x.leading.value.nextIndex.Keys == s.config - {x.id}
    && x.leading.value.matchIndex.Keys == s.config - {x.id}
    && (forall p | p in x.leading.value.nextIndex :: x.leading.value.nextIndex[p] <= |x.log| + 1)
  }

  ghost predicate CandidateNode(s: State, x: NodeState) {
    && x.votedFor == x.id
    && (x.term, x.id) in s.h.candidacies && s.h.candidacies[(x.term, x.id)].log == x.log
    && (x.term in s.h.leaders ==> s.h.leaders[x.term] != x.id)
  }

  ghost predicate BallotOk(s: State, x: NodeState, b: Ballot) {
    && b.term <= x.term
    && (b.term, x.id) in s.h.candidacies
    && Advertises(s.h.candidacies[(b.term, x.id)].basis, b.lastIndex, b.lastTerm)
  }

  predicate Advertises(l: seq<Entry>, lastIndex: nat, lastTerm: nat) {
    lastIndex == |l| && lastTerm == LastTerm(l)
  }

  ghost predicate RoleOk(s: State, x: NodeState) {
    && (x.role == Leader ==> LeaderNode(s, x))
    && (x.role == Candidate ==> CandidateNode(s, x))
    && forall b {:trigger BallotOk(s, x, b)} | b in x.ballots :: BallotOk(s, x, b)
  }

  ghost predicate Roles(s: State)
    requires Shape(s)
  {
    forall n {:trigger RoleOk(s, s.nodes[n])} | n in s.config :: RoleOk(s, s.nodes[n])
  }

  // ----- elections -----

  ghost predicate VoteOk(s: State, t: nat, v: NodeId)
    requires Shape(s) && (t, v) in s.h.votes
  {
    var c := s.h.votes[(t, v)];
    && v in s.config && t <= s.nodes[v].disk.term
    && (t == s.nodes[v].disk.term ==> s.nodes[v].disk.votedFor == c)
    && c in s.config && t <= s.nodes[c].disk.term
    && (t, c) in s.h.candidacies
    && (t !in s.h.leaders ==> (t, v) in s.h.voteLogs)
    && ((t, v) in s.h.voteLogs ==> VoteLogOk(s.h.candidacies[(t, c)], v == c, s.h.voteLogs[(t, v)]))
  }

  ghost predicate VoteLogOk(c: Candidacy, own: bool, log: seq<Entry>) {
    if own then log == c.log else UpToDate(|c.basis|, LastTerm(c.basis), log)
  }

  ghost predicate VoterOk(s: State, t: nat, v: NodeId)
    requires (t, v) in s.h.voteLogs
  {
    (t, v) in s.h.votes && Traced(s.h.voteLogs[(t, v)], s.h.logs)
  }

  ghost predicate Votes(s: State)
    requires Shape(s)
  {
    && (forall t, v {:trigger VoteOk(s, t, v)} | (t, v) in s.h.votes :: VoteOk(s, t, v))
    && (forall t, v {:trigger VoterOk(s, t, v)} | (t, v) in s.h.voteLogs :: VoterOk(s, t, v))
  }

  ghost predicate ElectionOk(s: State, t: nat)
    requires t in s.h.electors && t in s.h.leaders && t in s.h.logs
  {
    var c := s.h.leaders[t];
    && IsQuorum(s.config, s.h.electors[t])
    && (forall v | v in s.h.electors[t] :: (t, v) in s.h.votes && s.h.votes[(t, v)] == c && (t, v) in s.h.voteLogs)
    && (t, c) in s.h.candidacies && s.h.candidacies[(t, c)].log <= s.h.logs[t]
    && c in s.nodes && t <= s.nodes[c].disk.term
  }

  ghost predicate Elections(s: State)
    requires Leaders(s)
  {
    forall t {:trigger ElectionOk(s, t)} | t in s.h.leaders :: ElectionOk(s, t)
  }

  ghost predicate CandidacyOk(s: State, u: nat, c: NodeId)
    requires (u, c) in s.h.candidacies
  {
    var x := s.h.candidacies[(u, c)];
    && u >= 1
    && Traced(x.basis, s.h.logs) && Traced(x.log, s.h.logs)
    && Bounded(x.basis, u - 1) && Bounded(x.log, u - 1)
    && Kept(x.basis, x.log, u - 1, s.h.logs)
  }

  ghost predicate Candidacies(s: State) {
    forall u, c {:trigger CandidacyOk(s, u, c)} | (u, c) in s.h.candidacies :: CandidacyOk(s, u, c)
  }

  // ----- what nodes held and acknowledged -----

  ghost predicate HeldOk(x: NodeState, a: seq<Entry>, ll: LogMap) {
    Traced(a, ll) && Bounded(a, x.disk.term) && Kept(a, x.log, x.disk.term, ll)
  }

  ghost predicate Reads(s: State)
    requires Shape(s)
  {
    forall n, a {:trigger HeldOk(s.nodes[n], a, s.h.logs)} | n in s.config && a in s.nodes[n].seen ::
      HeldOk(s.nodes[n], a, s.h.logs)
  }

  ghost predicate AckOk(s: State, t: nat, n: NodeId)
    requires Shape(s) && (t, n) in s.h.acks
  {
    var m := s.h.acks[(t, n)];
    && n in s.config && t in s.h.logs && m <= |s.h.logs[t]|
    && t <= s.nodes[n].disk.term
    && HeldOk(s.nodes[n], s.h.logs[t][..m], s.h.logs)
    && (t == s.nodes[n].disk.term ==> s.h.logs[t][..m] <= s.nodes[n].log)
  }

  ghost predicate Acks(s: State)
    requires Shape(s)
  {
    forall t, n {:trigger AckOk(s, t, n)} | (t, n) in s.h.acks :: AckOk(s, t, n)
  }

  /** A voter's log at its vote in term u holds what it had acknowledged in an earlier term t. */
  ghost predicate VoteKeepsAck(h: History, u: nat, t: nat, v: NodeId)
    requires (u, v) in h.voteLogs && (t, v) in h.acks
  {
    && t in h.logs && h.acks[(t, v)] <= |h.logs[t]|
    && Kept(h.logs[t][..h.acks[(t, v)]], h.voteLogs[(u, v)], u - 1, h.logs)
  }

  ghost predicate VotesKeepAcks(s: State) {
    forall u, t, v {:trigger VoteKeepsAck(s.h, u, t, v)} |
      (u, v) in s.h.voteLogs && (t, v) in s.h.acks && t < u :: VoteKeepsAck(s.h, u, t, v)
  }

  /** A leader's match indices never run ahead of what its peers acknowledged in its term. */
  ghost predicate MatchOk(s: State, x: NodeState)
    requires x.leading.Some?
  {
    && (x.term, x.id) in s.h.acks && s.h.acks[(x.term, x.id)] == |x.log|
    && forall p | p in x.leading.value.matchIndex && x.leading.value.matchIndex[p] > 0 ::
         (x.term, p) in s.h.acks && x.leading.value.matchIndex[p] <= s.h.acks[(x.term, p)]
  }

  ghost predicate Matches(s: State)
    requires Shape(s)
  {
    forall n {:trigger MatchOk(s, s.nodes[n])} | n in s.config && s.nodes[n].role == Leader ::
      s.nodes[n].leading.Some? && MatchOk(s, s.nodes[n])
  }

  // ----- commitment -----

  /** A quorum has acknowledged entry i of the leader of term t, an entry of its own term. */
  ghost predicate CommitOk(s: State, t: nat, i: nat) {
    && t in s.h.logs && 0 < i <= |s.h.logs[t]| && s.h.logs[t][i - 1].term == t
    && exists q :: AckedBy(s, q, t, i)
  }

  ghost predicate AckedBy(s: State, q: set<NodeId>, t: nat, i: nat) {
    IsQuorum(s.config, q) && forall v | v in q :: (t, v) in s.h.acks && s.h.acks[(t, v)] >= i
  }

  ghost predicate Commits(s: State) {
    forall t, i {:trigger CommitOk(s, t, i)} | (t, i) in s.h.commits :: CommitOk(s, t, i)
  }

  /** The first c entries of `l` are covered by a commitment made in a term up to hi. */
  ghost predicate Covered(h: History, l: seq<Entry>, c: nat, hi: nat) {
    c == 0 || (c <= |l| && exists t, i {:trigger CoveredBy(h, l, c, hi, t, i)} ::
                             (t, i) in h.commits && CoveredBy(h, l, c, hi, t, i))
  }

  ghost predicate CoveredBy(h: History, l: seq<Entry>, c: nat, hi: nat, t: nat, i: nat)
    requires c <= |l|
  {
    t <= hi && c <= i && t in h.logs && i <= |h.logs[t]| && l[..c] <= h.logs[t]
  }

  ghost predicate CommitKnown(h: History, x: NodeState) {
    Covered(h, x.log, x.commit, x.disk.term)
  }

  ghost predicate NodeCommits(s: State)
    requires Shape(s)
  {
    forall n {:trigger CommitKnown(s.h, s.nodes[n])} | n in s.config :: CommitKnown(s.h, s.nodes[n])
  }

  // ----- messages -----

  ghost predicate RequestOk(s: State, peer: NodeId, args: AppendArgs) {
    && args.term in s.h.logs && args.term in s.h.leaders
    && s.h.leaders[args.term] == args.leader && peer in s.config && peer != args.leader
    && ShipsSuffix(s.h.logs[args.term], args)
    && Covered(s.h, s.h.logs[args.term], args.commit, args.term)
  }

  /** A request ships its leader's whole log beyond prevIndex, and its commit index stays inside. */
  ghost predicate ShipsSuffix(l: seq<Entry>, args: AppendArgs) {
    && args.prevIndex + |args.entries| <= |l|
    && args.entries == l[args.prevIndex..args.prevIndex + |args.entries|]
    && args.prevTerm == TermAt(l, args.prevIndex)
    && args.commit <= args.prevIndex + |args.entries|
  }

  ghost predicate MsgOk(s: State, m: Msg)
    requires Shape(s)
  {
    match m
    case VoteRequest(ask) =>
      && ask.candidate in s.config && (ask.term, ask.candidate) in s.h.candidacies
      && ask.term <= s.nodes[ask.candidate].disk.term
      && Advertises(s.h.candidacies[(ask.term, ask.candidate)].basis, ask.lastIndex, ask.lastTerm)
    case VoteAnswer(v, c, t, reply) =>
      reply.granted ==> (t, v) in s.h.votes && s.h.votes[(t, v)] == c
    case AppendRequest(peer, args) => RequestOk(s, peer, args)
    case AppendAnswer(peer, args, reply) =>
      && RequestOk(s, peer, args)
      && (reply.success ==>
            (args.term, peer) in s.h.acks && s.h.acks[(args.term, peer)] >= args.prevIndex + |args.entries|)
      && (!reply.success ==> reply.conflictIndex <= args.prevIndex)
  }

  ghost predicate Msgs(s: State)
    requires Shape(s)
  {
    forall m {:trigger MsgOk(s, m)} | m in s.msgs :: MsgOk(s, m)
  }

  // ----- applying -----

  ghost predicate ApplyOk(x: NodeState) {
    && x.applied <= x.commit <= |x.log|
    && match x.job
       case Idle => x.machine == x.log[..x.applied]
       case Picked(upTo) => x.applied < upTo <= x.commit && x.machine == x.log[..x.applied]
       case Fetched(upTo) => x.applied < upTo <= x.commit && x.machine == x.log[..upTo]
  }

  ghost predicate Applies(s: State)
    requires Shape(s)
  {
    forall n {:trigger ApplyOk(s.nodes[n])} | n in s.config :: ApplyOk(s.nodes[n])
  }

  // ----- the whole invariant -----

  ghost predicate Inv(s: State) {
    && Shape(s) && Leaders(s) && Nodes(s) && Roles(s)
    && Votes(s) && Elections(s) && Candidacies(s)
    && Reads(s) && Acks(s) && VotesKeepAcks(s) && Matches(s)
    && Commits(s) && NodeCommits(s)
    && Msgs(s) && Applies(s)
  }

  // ----- history only grows -----

  ghost predicate Grows(s: State, s': State)
    requires Shape(s)
  {
    && s'.config == s.config && s'.nodes.Keys == s.nodes.Keys && s.msgs <= s'.msgs
    && Grown(s.h.logs, s'.h.logs)
    && (forall t | t in s.h.leaders :: t in s'.h.leaders && s'.h.leaders[t] == s.h.leaders[t])
    && (forall t | t in s.h.electors :: t in s'.h.electors && s'.h.electors[t] == s.h.electors[t])
    && (forall k | k in s.h.votes :: k in s'.h.votes && s'.h.votes[k] == s.h.votes[k])
    && (forall k | k in s.h.voteLogs :: k in s'.h.voteLogs && s'.h.voteLogs[k] == s.h.voteLogs[k])
    && (forall k | k in s.h.acks :: k in s'.h.acks && s'.h.acks[k] >= s.h.acks[k])
    && s.h.commits <= s'.h.commits
    && (forall n | n in s.config :: s.nodes[n].disk.term <= s'.nodes[n].disk.term)
    && (forall k | k in s.h.candidacies :: k in s'.h.candidacies)
    // A candidacy is rewritten only when a crash has forgotten it before it was saved.
    && (forall u, c | (u, c) in s.h.candidacies && c in s.config && u <= s.nodes[c].term ::
          s'.h.candidacies[(u, c)] == s.h.candidacies[(u, c)])
  }

  lemma InitInv(s: State)
    requires Init(s)
    ensures Inv(s)
  {
  }
}
