/** The vocabulary of pkg/raft: roles, log entries, RPC arguments and replies. */
module RaftTypes {

  /** The empty string stands for "no node", as in the source. */
  type NodeId = string

  const NO_NODE: NodeId := ""

  type Byte = b: int | 0 <= b < 256

  datatype Option<+T> = None | Some(value: T)

  datatype Role = Follower | Candidate | Leader

  datatype Kind =
    | Noop
    | DeploymentCreate
    | DeploymentUpdate
    | DeploymentDelete
    | DeploymentActivate
    | SchedulerAssign
    | SchedulerUnassign
    | NodeJoin
    | NodeLeave
    | ScaleChange
    | SecretCreate
    | SecretDelete

  /** Indices are 1-based; 0 means "no entry". */
  datatype Entry = Entry(index: nat, term: nat, kind: Kind, command: seq<Byte>)

  datatype VoteArgs = VoteArgs(term: nat, candidate: NodeId, lastIndex: nat, lastTerm: nat)

  datatype VoteReply = VoteReply(term: nat, granted: bool)

  datatype AppendArgs = AppendArgs(
    term: nat,
    leader: NodeId,
    prevIndex: nat,
    prevTerm: nat,
    entries: seq<Entry>,
    commit: nat)

  datatype AppendReply = AppendReply(term: nat, success: bool, conflictIndex: nat, conflictTerm: nat)

  /** A command to propose: the bytes it marshals to, or a marshalling failure. */
  datatype Proposal = Proposal(kind: Kind, command: Option<seq<Byte>>)

  datatype ProposeResult =
    | Accepted(index: nat, term: nat)
    | NotLeader(leader: NodeId)
    | BadCommand
}
