/**
 A codec that meets every assumption made about marshalling, so that the contracts of the log and of the
 node speak of something: numbers are written as runs of ones, the command as it is.
 */
module UnaryCodec {
  import opened RaftTypes
  import opened LogFile
  import opened LogStore
  import Spec = NodeSpec
  import opened RaftNode

  function Ones(n: nat): seq<Byte> {
    if n == 0 then [] else [1] + Ones(n - 1)
  }

  /** The number written at the front, and what follows its end mark. */
  function TakeOnes(bs: seq<Byte>): Option<(nat, seq<Byte>)> {
    if bs == [] then None
    else if bs[0] == 0 then Some((0, bs[1..]))
    else
      match TakeOnes(bs[1..])
      case None => None
      case Some((n, rest)) => Some((n + 1, rest))
  }

  lemma {:induction false} TakesOnes(n: nat, rest: seq<Byte>)
    ensures TakeOnes(Ones(n) + [0] + rest) == Some((n, rest))
  {
    var bs := Ones(n) + [0] + rest;
    if n == 0 {
      assert bs == [0] + rest;
    } else {
      assert bs[0] == 1 && bs[1..] == Ones(n - 1) + [0] + rest;
      TakesOnes(n - 1, rest);
    }
  }

  function KindCode(k: Kind): Byte {
    match k
    case Noop => 0
    case DeploymentCreate => 1
    case DeploymentUpdate => 2
    case DeploymentDelete => 3
    case DeploymentActivate => 4
    case SchedulerAssign => 5
    case SchedulerUnassign => 6
    case NodeJoin => 7
    case NodeLeave => 8
    case ScaleChange => 9
    case SecretCreate => 10
    case SecretDelete => 11
  }

  function KindOf(b: Byte): Kind {
    match b
    case 0 => Noop
    case 1 => DeploymentCreate
    case 2 => DeploymentUpdate
    case 3 => DeploymentDelete
    case 4 => DeploymentActivate
    case 5 => SchedulerAssign
    case 6 => SchedulerUnassign
    case 7 => NodeJoin
    case 8 => NodeLeave
    case 9 => ScaleChange
    case 10 => SecretCreate
    case _ => SecretDelete
  }

  function EncodeEntry(e: Entry): seq<Byte> {
    Ones(e.index) + [0] + (Ones(e.term) + [0] + ([KindCode(e.kind)] + e.command))
  }

  function DecodeEntry(bs: seq<Byte>): Option<Entry> {
    match TakeOnes(bs)
    case None => None
    case Some((index, bs1)) =>
      match TakeOnes(bs1)
      case None => None
      case Some((term, bs2)) => if bs2 == [] then None else Some(Entry(index, term, KindOf(bs2[0]), bs2[1..]))
  }

  function Unary(): Codec {
    Codec(EncodeEntry, DecodeEntry)
  }

  /** The assumption about marshalling can be met. */
  lemma UnaryIsFaithful()
    ensures Faithful(Unary())
  {
    forall e: Entry ensures DecodeEntry(EncodeEntry(e)) == Some(e) {
      var bs2 := [KindCode(e.kind)] + e.command;
      var bs1 := Ones(e.term) + [0] + bs2;
      TakesOnes(e.index, bs1);
      TakesOnes(e.term, bs2);
    }
  }

  /** Two entries, compacted up to the first: with only snapshot.meta replaced, index 2 answers entry 1. */
  lemma CompactionGapExample()
    ensures
      var entries := [Entry(1, 1, Noop, []), Entry(2, 1, Noop, [])];
      && Load(Unary(), Encode(Unary(), entries)) == Some(entries)
      && 2 in ViewOf(FirstAfter(Some(Meta(1, 1))), entries)
      && ViewOf(FirstAfter(Some(Meta(1, 1))), entries)[2] == entries[0]
  {
    var entries := [Entry(1, 1, Noop, []), Entry(2, 1, Noop, [])];
    UnaryIsFaithful();
    assert Ones(1) == [1] && Ones(2) == [1, 1];
    assert AllFit(Unary(), entries);
    CompactionGapShiftsEntries(Unary(), 1, entries, 1, 1, 2);
  }

  /**
   A cluster of one on an empty directory: the first election and its no-op entry, which is committed at
   once and rebuilt from the files.
   */
  method Bootstrap(id: NodeId) returns (n: Node)
    ensures n.Valid() && n.log.Durable() && n.log.Storable()
    ensures n.role == Leader && n.currentTerm == 1 == n.stateFile.term && n.commitIndex == 1
    ensures n.log.entries == [Entry(1, 1, Noop, [])]
  {
    UnaryIsFaithful();
    var log := new Log.Empty(Unary(), None);
    n := new Node(id, {id}, log, Spec.Disk(0, NO_NODE));
    var lastIndex, lastTerm := n.ReadPosition();
    var args := n.BecomeCandidate(n.log.entries, lastIndex, lastTerm);
    n.SavePersistentState();
    n.BecomeLeader();
    assert |{id}| == 1;
    var r := n.Propose(Proposal(Noop, Some([])));
    assert Ones(1) == [1];
    assert Fits(Unary(), Entry(1, 1, Noop, []));
  }
}
