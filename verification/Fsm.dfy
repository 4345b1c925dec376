/**
 The replicated state machine of pkg/raft/fsm.go, with its timestamps left out. Decoding a command is
 abstract: a decoder returns None where UnmarshalCommand returns an error.
 */
module Fsm {
  import opened RaftTypes

  datatype DeploymentCommand = DeploymentCommand(
    name: string,
    namespace: string,
    version: string,
    fingerprint: string,
    typ: string,
    replicas: int,
    port: int,
    schedule: string,
    env: map<string, string>,
    size: int,
    fileCount: int)

  datatype AssignmentCommand = AssignmentCommand(deployment: string, namespace: string, nodes: seq<NodeId>)

  datatype NodeCommand = NodeCommand(id: NodeId, address: string)

  datatype Decoders = Decoders(
    deployment: seq<Byte> -> Option<DeploymentCommand>,
    assignment: seq<Byte> -> Option<AssignmentCommand>,
    node: seq<Byte> -> Option<NodeCommand>)

  datatype VersionMeta = VersionMeta(id: string, fingerprint: string, size: int, fileCount: int, active: bool)

  datatype DeploymentMeta = DeploymentMeta(
    name: string,
    namespace: string,
    typ: string,
    replicas: int,
    port: int,
    schedule: string,
    env: map<string, string>,
    versions: seq<VersionMeta>)

  datatype FsmState = FsmState(
    deployments: map<string, DeploymentMeta>,
    nodes: map<NodeId, string>,
    assignments: map<string, seq<NodeId>>,
    activeVersions: map<string, string>,
    lastApplied: nat)

  /** json.Marshal and json.Unmarshal on the state. */
  datatype SnapshotCodec = SnapshotCodec(enc: FsmState -> seq<Byte>, dec: seq<Byte> -> Option<FsmState>)

  const EMPTY := FsmState(map[], map[], map[], map[], 0)

  function Key(namespace: string, name: string): string {
    namespace + "/" + name
  }

  // ----- one entry -----

  function NewVersion(c: DeploymentCommand): VersionMeta {
    VersionMeta(c.version, c.fingerprint, c.size, c.fileCount, true)
  }

  /** Every version flagged active exactly when its ID is `id`; None flags none. */
  function Flag(vs: seq<VersionMeta>, id: Option<string>): seq<VersionMeta> {
    seq(|vs|, i requires 0 <= i < |vs| => vs[i].(active := id == Some(vs[i].id)))
  }

  function Lookup(m: map<string, string>, k: string): string {
    if k in m then m[k] else ""
  }

  function CreateOrUpdate(s: FsmState, c: DeploymentCommand): FsmState {
    var key := Key(c.namespace, c.name);
    if key !in s.deployments then
      var d := DeploymentMeta(c.name, c.namespace, c.typ, c.replicas, c.port, c.schedule, c.env, [NewVersion(c)]);
      s.(deployments := s.deployments[key := d], activeVersions := s.activeVersions[key := c.version])
    else
      var d := s.deployments[key].(replicas := c.replicas, port := c.port, schedule := c.schedule, env := c.env);
      if c.version != "" && c.version != Lookup(s.activeVersions, key) then
        var d1 := d.(versions := Flag(d.versions, None) + [NewVersion(c)]);
        s.(deployments := s.deployments[key := d1], activeVersions := s.activeVersions[key := c.version])
      else
        s.(deployments := s.deployments[key := d])
  }

  function Delete(s: FsmState, c: DeploymentCommand): FsmState {
    var key := Key(c.namespace, c.name);
    s.(deployments := s.deployments - {key}, assignments := s.assignments - {key}, activeVersions := s.activeVersions - {key})
  }

  function Activate(s: FsmState, c: DeploymentCommand): FsmState {
    var key := Key(c.namespace, c.name);
    if key !in s.deployments then s
    else
      var d := s.deployments[key];
      s.(deployments := s.deployments[key := d.(versions := Flag(d.versions, Some(c.version)))],
      activeVersions := s.activeVersions[key := c.version])
  }

  function Scale(s: FsmState, c: DeploymentCommand): FsmState {
    var key := Key(c.namespace, c.name);
    if key !in s.deployments then s
    else s.(deployments := s.deployments[key := s.deployments[key].(replicas := c.replicas)])
  }

  /** The effect of the command in an entry, or None where it does not decode. */
  function Command(d: Decoders, s: FsmState, e: Entry): Option<FsmState> {
    match e.kind
    case DeploymentCreate | DeploymentUpdate =>
      (match d.deployment(e.command) case None => None case Some(c) => Some(CreateOrUpdate(s, c)))
    case DeploymentDelete => (match d.deployment(e.command) case None => None case Some(c) => Some(Delete(s, c)))
    case DeploymentActivate => (match d.deployment(e.command) case None => None case Some(c) => Some(Activate(s, c)))
    case ScaleChange => (match d.deployment(e.command) case None => None case Some(c) => Some(Scale(s, c)))
    case SchedulerAssign =>
      (match d.assignment(e.command)
       case None => None
       case Some(c) => Some(s.(assignments := s.assignments[Key(c.namespace, c.deployment) := c.nodes])))
    case SchedulerUnassign =>
      (match d.assignment(e.command)
       case None => None
       case Some(c) => Some(s.(assignments := s.assignments - {Key(c.namespace, c.deployment)})))
    case NodeJoin =>
      (match d.node(e.command) case None => None case Some(c) => Some(s.(nodes := s.nodes[c.id := c.address])))
    case NodeLeave =>
      (match d.node(e.command) case None => None case Some(c) => Some(s.(nodes := s.nodes - {c.id})))
    case Noop | SecretCreate | SecretDelete => Some(s)
  }

  /** An entry that does not decode leaves everything as it is, the last applied index included. */
  function ApplyEntry(d: Decoders, s: FsmState, e: Entry): FsmState {
    match Command(d, s, e)
    case None => s
    case Some(s1) => s1.(lastApplied := e.index)
  }

  function Fold(d: Decoders, s: FsmState, es: seq<Entry>): FsmState {
    if es == [] then s else ApplyEntry(d, Fold(d, s, es[..|es| - 1]), es[|es| - 1])
  }

  // ----- the class -----

  class ClusterState {
    const decoders: Decoders
    var deployments: map<string, DeploymentMeta>
    var nodes: map<NodeId, string>
    var assignments: map<string, seq<NodeId>>
    var activeVersions: map<string, string>
    var lastApplied: nat

    ghost function Value(): FsmState
      reads this
    {
      FsmState(deployments, nodes, assignments, activeVersions, lastApplied)
    }

    constructor (decoders: Decoders)
      ensures Value() == EMPTY && this.decoders == decoders
    {
      this.decoders := decoders;
      deployments, nodes, assignments, activeVersions, lastApplied := map[], map[], map[], map[], 0;
    }

    method FlagVersions(vs: seq<VersionMeta>, id: Option<string>) returns (r: seq<VersionMeta>)
      ensures r == Flag(vs, id)
    {
      r := vs;
      for i := 0 to |vs|
        invariant |r| == |vs|
        invariant forall k | 0 <= k < i :: r[k] == Flag(vs, id)[k]
        invariant forall k | i <= k < |vs| :: r[k] == vs[k]
      {
        r := r[i := r[i].(active := id == Some(r[i].id))];
      }
    }

    method ApplyDeployment(c: DeploymentCommand)
      modifies this`deployments, this`activeVersions
      ensures Value() == CreateOrUpdate(old(Value()), c)
    {
      var key := Key(c.namespace, c.name);
      if key !in deployments {
        deployments := deployments[key :=
          DeploymentMeta(c.name, c.namespace, c.typ, c.replicas, c.port, c.schedule, c.env, [NewVersion(c)])];
        activeVersions := activeVersions[key := c.version];
      } else {
        var existing := deployments[key].(replicas := c.replicas, port := c.port, schedule := c.schedule, env := c.env);
        if c.version != "" && c.version != Lookup(activeVersions, key) {
          var vs := FlagVersions(existing.versions, None);
          existing := existing.(versions := vs + [NewVersion(c)]);
          activeVersions := activeVersions[key := c.version];
        }
        deployments := deployments[key := existing];
      }
    }

    method ApplyActivate(c: DeploymentCommand)
      modifies this`deployments, this`activeVersions
      ensures Value() == Activate(old(Value()), c)
    {
      var key := Key(c.namespace, c.name);
      if key in deployments {
        var vs := FlagVersions(deployments[key].versions, Some(c.version));
        deployments := deployments[key := deployments[key].(versions := vs)];
        activeVersions := activeVersions[key := c.version];
      }
    }

    /** The commands about deployments. */
    method ApplyDeploymentEntry(e: Entry) returns (ok: bool)
      requires e.kind in {DeploymentCreate, DeploymentUpdate, DeploymentDelete, DeploymentActivate, ScaleChange}
      modifies this`deployments, this`activeVersions, this`assignments
      ensures ok == Command(decoders, old(Value()), e).Some?
      ensures Value() == if ok then Command(decoders, old(Value()), e).value else old(Value())
    {
      var cmd := decoders.deployment(e.command);
      if cmd.None? {
        return false;
      }
      var c := cmd.value;
      var key := Key(c.namespace, c.name);
      ok := true;
      match e.kind {
        case DeploymentCreate | DeploymentUpdate => ApplyDeployment(c);
        case DeploymentDelete =>
          deployments := deployments - {key};
          assignments := assignments - {key};
          activeVersions := activeVersions - {key};
        case DeploymentActivate => ApplyActivate(c);
        case ScaleChange =>
          if key in deployments {
            deployments := deployments[key := deployments[key].(replicas := c.replicas)];
          }
      }
    }

    /** The commands about assignments and nodes. */
    method ApplyClusterEntry(e: Entry) returns (ok: bool)
      requires e.kind in {SchedulerAssign, SchedulerUnassign, NodeJoin, NodeLeave}
      modifies this`assignments, this`nodes
      ensures ok == Command(decoders, old(Value()), e).Some?
      ensures Value() == if ok then Command(decoders, old(Value()), e).value else old(Value())
    {
      if e.kind == SchedulerAssign || e.kind == SchedulerUnassign {
        var cmd := decoders.assignment(e.command);
        if cmd.None? {
          return false;
        }
        var key := Key(cmd.value.namespace, cmd.value.deployment);
        assignments := if e.kind == SchedulerAssign then assignments[key := cmd.value.nodes] else assignments - {key};
      } else {
        var cmd := decoders.node(e.command);
        if cmd.None? {
          return false;
        }
        nodes := if e.kind == NodeJoin then nodes[cmd.value.id := cmd.value.address] else nodes - {cmd.value.id};
      }
      ok := true;
    }

    method Apply(e: Entry) returns (ok: bool)
      modifies this
      ensures Value() == ApplyEntry(decoders, old(Value()), e)
      ensures ok == Command(decoders, old(Value()), e).Some?
    {
      match e.kind {
        case Noop | SecretCreate | SecretDelete => ok := true;
        case DeploymentCreate | DeploymentUpdate | DeploymentDelete | DeploymentActivate | ScaleChange =>
          ok := ApplyDeploymentEntry(e);
        case SchedulerAssign | SchedulerUnassign | NodeJoin | NodeLeave =>
          ok := ApplyClusterEntry(e);
      }
      if ok {
        lastApplied := e.index;
      }
    }

    /** The loop of applyCommitted: errors are reported and passed over. */
    method ApplyAll(es: seq<Entry>)
      modifies this
      ensures Value() == Fold(decoders, old(Value()), es)
    {
      for i := 0 to |es|
        invariant Value() == Fold(decoders, old(Value()), es[..i])
      {
        var _ := Apply(es[i]);
        assert es[..i + 1][..i] == es[..i];
      }
      assert es[..|es|] == es;
    }

    method Snapshot(codec: SnapshotCodec) returns (data: seq<Byte>)
      ensures data == codec.enc(Value())
    {
      data := codec.enc(FsmState(deployments, nodes, assignments, activeVersions, lastApplied));
    }

    /** Restore takes over every field of a snapshot that decodes, and nothing of one that does not. */
    method Restore(codec: SnapshotCodec, data: seq<Byte>) returns (ok: bool)
      modifies this
      ensures ok == codec.dec(data).Some?
      ensures Value() == if ok then codec.dec(data).value else old(Value())
    {
      var restored := codec.dec(data);
      if restored.None? {
        return false;
      }
      deployments, nodes := restored.value.deployments, restored.value.nodes;
      assignments, activeVersions := restored.value.assignments, restored.value.activeVersions;
      lastApplied := restored.value.lastApplied;
      ok := true;
    }
  }
}
