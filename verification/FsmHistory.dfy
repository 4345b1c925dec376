/**
 What a state says about the log it comes from: every field of a deployment, every assignment and every
 node is that of the last entry about it, whatever else the log holds.
 */
module FsmHistory {
  import opened RaftTypes
  import opened Fsm

  // ----- the last entry of a kind -----

  /** The index of the last entry that satisfies p, or -1. */
  function LastWhere(log: seq<Entry>, p: Entry -> bool): int {
    if log == [] then -1
    else if p(log[|log| - 1]) then |log| - 1
    else LastWhere(log[..|log| - 1], p)
  }

  lemma {:induction false} LastWhereMeaning(log: seq<Entry>, p: Entry -> bool)
    ensures -1 <= LastWhere(log, p) < |log|
    ensures LastWhere(log, p) >= 0 ==> p(log[LastWhere(log, p)])
    ensures forall j | LastWhere(log, p) < j < |log| :: !p(log[j])
  {
    if log != [] && !p(log[|log| - 1]) {
      LastWhereMeaning(log[..|log| - 1], p);
    }
  }

  /** The entry decodes to a command of one of these kinds about the deployment `key`. */
  predicate Means(d: Decoders, e: Entry, kinds: set<Kind>, key: string) {
    && e.kind in kinds && d.deployment(e.command).Some?
    && var c := d.deployment(e.command).value; c.namespace + "/" + c.name == key
  }

  function About(d: Decoders, kinds: set<Kind>, key: string): Entry -> bool {
    e => Means(d, e, kinds, key)
  }

  function CommandOf(d: Decoders, e: Entry): DeploymentCommand
    requires d.deployment(e.command).Some?
  {
    d.deployment(e.command).value
  }

  const ANY: set<Kind> := {DeploymentCreate, DeploymentUpdate, DeploymentDelete, DeploymentActivate, ScaleChange}
  const MADE: set<Kind> := {DeploymentCreate, DeploymentUpdate, DeploymentDelete}
  const SIZED: set<Kind> := {DeploymentCreate, DeploymentUpdate, DeploymentDelete, ScaleChange}

  // ----- one entry -----

  /** The state before the last entry. */
  function Before(d: Decoders, log: seq<Entry>): FsmState
    requires log != []
  {
    Fold(d, EMPTY, log[..|log| - 1])
  }

  /** An entry about another deployment, or about none, leaves a deployment and its active version alone. */
  lemma OthersKept(d: Decoders, s: FsmState, e: Entry, key: string)
    requires !Means(d, e, ANY, key)
    ensures SameAt(s, ApplyEntry(d, s, e), key)
  {
    if e.kind in ANY {
      if d.deployment(e.command).Some? {
        OtherKeyKept(d, s, e, key);
      }
    } else {
      OtherKindKept(d, s, e);
    }
  }

  lemma OtherKindKept(d: Decoders, s: FsmState, e: Entry)
    requires e.kind !in ANY
    ensures var s' := ApplyEntry(d, s, e); s'.deployments == s.deployments && s'.activeVersions == s.activeVersions
  {
  }

  ghost predicate SameAt(s: FsmState, s': FsmState, key: string) {
    && (key in s'.deployments <==> key in s.deployments)
    && (key in s.deployments ==> s'.deployments[key] == s.deployments[key])
    && (key in s'.activeVersions <==> key in s.activeVersions)
    && (key in s.activeVersions ==> s'.activeVersions[key] == s.activeVersions[key])
  }

  lemma CommandKeepsOthers(s: FsmState, c: DeploymentCommand, key: string)
    requires Key(c.namespace, c.name) != key
    ensures SameAt(s, CreateOrUpdate(s, c), key) && SameAt(s, Delete(s, c), key)
    ensures SameAt(s, Activate(s, c), key) && SameAt(s, Scale(s, c), key)
  {
  }

  lemma OtherKeyKept(d: Decoders, s: FsmState, e: Entry, key: string)
    requires e.kind in ANY && d.deployment(e.command).Some? && !Means(d, e, ANY, key)
    ensures SameAt(s, ApplyEntry(d, s, e), key)
  {
    var c := CommandOf(d, e);
    CommandKeepsOthers(s, c, key);
    match e.kind {
      case DeploymentCreate | DeploymentUpdate => assert Command(d, s, e) == Some(CreateOrUpdate(s, c));
      case DeploymentDelete => assert Command(d, s, e) == Some(Delete(s, c));
      case DeploymentActivate => assert Command(d, s, e) == Some(Activate(s, c));
      case ScaleChange => assert Command(d, s, e) == Some(Scale(s, c));
    }
  }

  /** A create or update of a deployment that is not there makes it with every field of the command. */
  lemma MadeNew(d: Decoders, s: FsmState, e: Entry, key: string)
    requires Means(d, e, {DeploymentCreate, DeploymentUpdate}, key) && key !in s.deployments
    ensures
      var s', c := ApplyEntry(d, s, e), CommandOf(d, e);
      && key in s'.deployments && key in s'.activeVersions && s'.activeVersions[key] == c.version
      && var x := s'.deployments[key];
         && x.name == c.name && x.namespace == c.namespace && x.typ == c.typ && x.replicas == c.replicas
         && x.port == c.port && x.schedule == c.schedule && x.env == c.env && |x.versions| == 1
         && var v := x.versions[0];
            v.id == c.version && v.fingerprint == c.fingerprint && v.size == c.size && v.fileCount == c.fileCount && v.active
  {
  }

  /** One that is there keeps its name and type, takes the rest, and gains a version if that is a new one. */
  lemma MadeAgain(d: Decoders, s: FsmState, e: Entry, key: string)
    requires Means(d, e, {DeploymentCreate, DeploymentUpdate}, key) && key in s.deployments && key in s.activeVersions
    ensures
      var s', c := ApplyEntry(d, s, e), CommandOf(d, e);
      && key in s'.deployments && key in s'.activeVersions
      && var x, x' := s.deployments[key], s'.deployments[key];
         && x'.name == x.name && x'.namespace == x.namespace && x'.typ == x.typ && x'.replicas == c.replicas
         && x'.port == c.port && x'.schedule == c.schedule && x'.env == c.env
         && (c.version == "" || c.version == s.activeVersions[key] ==>
               x'.versions == x.versions && s'.activeVersions[key] == s.activeVersions[key])
         && (c.version != "" && c.version != s.activeVersions[key] ==>
               && s'.activeVersions[key] == c.version && |x'.versions| == |x.versions| + 1
               && (forall i | 0 <= i < |x.versions| :: x'.versions[i] == x.versions[i].(active := false))
               && var v := x'.versions[|x.versions|];
                  v.id == c.version && v.fingerprint == c.fingerprint && v.size == c.size && v.fileCount == c.fileCount && v.active)
  {
  }

  lemma Scaled(d: Decoders, s: FsmState, e: Entry, key: string)
    requires Means(d, e, {ScaleChange}, key) && key in s.deployments
    ensures
      var s' := ApplyEntry(d, s, e);
      && key in s'.deployments && s'.deployments[key] == s.deployments[key].(replicas := CommandOf(d, e).replicas)
      && s'.activeVersions == s.activeVersions
  {
  }

  /** Activating flags exactly the versions of that ID and records it; nothing else changes. */
  lemma Activated(d: Decoders, s: FsmState, e: Entry, key: string)
    requires Means(d, e, {DeploymentActivate}, key) && key in s.deployments
    ensures
      var s', c := ApplyEntry(d, s, e), CommandOf(d, e);
      && key in s'.deployments && key in s'.activeVersions && s'.activeVersions[key] == c.version
      && var x, x' := s.deployments[key], s'.deployments[key];
         && x' == x.(versions := x'.versions) && |x'.versions| == |x.versions|
         && forall i | 0 <= i < |x.versions| :: x'.versions[i] == x.versions[i].(active := x.versions[i].id == c.version)
  {
  }

  lemma Deleted(d: Decoders, s: FsmState, e: Entry, key: string)
    requires Means(d, e, {DeploymentDelete}, key)
    ensures
      var s' := ApplyEntry(d, s, e);
      key !in s'.deployments && key !in s'.activeVersions && key !in s'.assignments
  {
  }

  /** Scaling or activating what is not there does nothing to it. */
  lemma NothingThere(d: Decoders, s: FsmState, e: Entry, key: string)
    requires Means(d, e, {ScaleChange, DeploymentActivate}, key) && key !in s.deployments
    ensures var s' := ApplyEntry(d, s, e); s'.deployments == s.deployments && s'.activeVersions == s.activeVersions
  {
  }

  // ----- whole logs -----

  lemma {:induction false} KeysAgree(d: Decoders, log: seq<Entry>, key: string)
    ensures key in Fold(d, EMPTY, log).deployments <==> key in Fold(d, EMPTY, log).activeVersions
  {
    if log != [] {
      KeysAgree(d, log[..|log| - 1], key);
      var s, e := Before(d, log), log[|log| - 1];
      if !Means(d, e, ANY, key) {
        OthersKept(d, s, e, key);
      } else if Means(d, e, {DeploymentCreate, DeploymentUpdate}, key) {
        if key in s.deployments { MadeAgain(d, s, e, key); } else { MadeNew(d, s, e, key); }
      } else if Means(d, e, {DeploymentDelete}, key) {
        Deleted(d, s, e, key);
      } else if key !in s.deployments {
        NothingThere(d, s, e, key);
      } else if e.kind == ScaleChange {
        Scaled(d, s, e, key);
      } else {
        Activated(d, s, e, key);
      }
    }
  }

  /** A deployment is there exactly when the last create, update or delete about it is not a delete. */
  lemma {:induction false} PresentIff(d: Decoders, log: seq<Entry>, key: string)
    ensures
      var i := LastWhere(log, About(d, MADE, key));
      && i < |log|
      && (key in Fold(d, EMPTY, log).deployments <==> i >= 0 && log[i].kind != DeploymentDelete)
  {
    LastWhereMeaning(log, About(d, MADE, key));
    if log != [] {
      PresentIff(d, log[..|log| - 1], key);
      KeysAgree(d, log[..|log| - 1], key);
      var s, e := Before(d, log), log[|log| - 1];
      if !Means(d, e, ANY, key) {
        OthersKept(d, s, e, key);
      } else if Means(d, e, {DeploymentCreate, DeploymentUpdate}, key) {
        if key in s.deployments { MadeAgain(d, s, e, key); } else { MadeNew(d, s, e, key); }
      } else if Means(d, e, {DeploymentDelete}, key) {
        Deleted(d, s, e, key);
      } else if key !in s.deployments {
        NothingThere(d, s, e, key);
      } else if e.kind == ScaleChange {
        Scaled(d, s, e, key);
      } else {
        Activated(d, s, e, key);
      }
    }
  }

  /** Its replicas are those of the last create, update or scale about it; no delete comes later. */
  lemma {:induction false} ReplicasAreLast(d: Decoders, log: seq<Entry>, key: string)
    requires key in Fold(d, EMPTY, log).deployments
    ensures
      var i := LastWhere(log, About(d, SIZED, key));
      && 0 <= i < |log| && Means(d, log[i], {DeploymentCreate, DeploymentUpdate, ScaleChange}, key)
      && Fold(d, EMPTY, log).deployments[key].replicas == CommandOf(d, log[i]).replicas
  {
    LastWhereMeaning(log, About(d, SIZED, key));
    KeysAgree(d, log[..|log| - 1], key);
    var s, e := Before(d, log), log[|log| - 1];
    if !Means(d, e, ANY, key) {
      OthersKept(d, s, e, key);
      ReplicasAreLast(d, log[..|log| - 1], key);
    } else if Means(d, e, {DeploymentCreate, DeploymentUpdate}, key) {
      if key in s.deployments { MadeAgain(d, s, e, key); } else { MadeNew(d, s, e, key); }
    } else if Means(d, e, {DeploymentDelete}, key) {
      Deleted(d, s, e, key);
    } else if key !in s.deployments {
      NothingThere(d, s, e, key);
    } else if e.kind == ScaleChange {
      Scaled(d, s, e, key);
    } else {
      Activated(d, s, e, key);
      ReplicasAreLast(d, log[..|log| - 1], key);
    }
  }

  /** Its port, schedule and environment are those of the last create or update about it. */
  lemma {:induction false} SettingsAreLast(d: Decoders, log: seq<Entry>, key: string)
    requires key in Fold(d, EMPTY, log).deployments
    ensures
      var i := LastWhere(log, About(d, MADE, key));
      && 0 <= i < |log| && Means(d, log[i], {DeploymentCreate, DeploymentUpdate}, key)
      && var x, c := Fold(d, EMPTY, log).deployments[key], CommandOf(d, log[i]);
         x.port == c.port && x.schedule == c.schedule && x.env == c.env
  {
    LastWhereMeaning(log, About(d, MADE, key));
    KeysAgree(d, log[..|log| - 1], key);
    var s, e := Before(d, log), log[|log| - 1];
    if !Means(d, e, ANY, key) {
      OthersKept(d, s, e, key);
      SettingsAreLast(d, log[..|log| - 1], key);
    } else if Means(d, e, {DeploymentCreate, DeploymentUpdate}, key) {
      if key in s.deployments { MadeAgain(d, s, e, key); } else { MadeNew(d, s, e, key); }
    } else if Means(d, e, {DeploymentDelete}, key) {
      Deleted(d, s, e, key);
    } else if key !in s.deployments {
      NothingThere(d, s, e, key);
    } else {
      if e.kind == ScaleChange { Scaled(d, s, e, key); } else { Activated(d, s, e, key); }
      SettingsAreLast(d, log[..|log| - 1], key);
    }
  }

  /** The entry at i makes the deployment anew, and nothing deletes it later. */
  ghost predicate Origin(d: Decoders, log: seq<Entry>, key: string, i: nat) {
    && i < |log| && Means(d, log[i], {DeploymentCreate, DeploymentUpdate}, key)
    && key !in Fold(d, EMPTY, log[..i]).deployments
    && forall j | i < j < |log| :: !Means(d, log[j], {DeploymentDelete}, key)
  }

  /** Its name, namespace and type are those of the entry that made it. */
  lemma {:induction false} NamesAreFirst(d: Decoders, log: seq<Entry>, key: string, i: nat)
    requires Origin(d, log, key, i)
    ensures
      && key in Fold(d, EMPTY, log).deployments
      && var x, c := Fold(d, EMPTY, log).deployments[key], CommandOf(d, log[i]);
         x.name == c.name && x.namespace == c.namespace && x.typ == c.typ
    decreases |log|
  {
    var s, e := Before(d, log), log[|log| - 1];
    if i == |log| - 1 {
      MadeNew(d, s, e, key);
    } else {
      assert log[..|log| - 1][..i] == log[..i];
      NamesAreFirst(d, log[..|log| - 1], key, i);
      KeysAgree(d, log[..|log| - 1], key);
      if !Means(d, e, ANY, key) {
        OthersKept(d, s, e, key);
      } else if Means(d, e, {DeploymentCreate, DeploymentUpdate}, key) {
        MadeAgain(d, s, e, key);
      } else {
        assert !Means(d, e, {DeploymentDelete}, key);
        if e.kind == ScaleChange { Scaled(d, s, e, key); } else { Activated(d, s, e, key); }
      }
    }
  }

  /** Every deployment has such an entry. */
  lemma {:induction false} HasOrigin(d: Decoders, log: seq<Entry>, key: string) returns (i: nat)
    requires key in Fold(d, EMPTY, log).deployments
    ensures Origin(d, log, key, i)
  {
    var s, e, init := Before(d, log), log[|log| - 1], log[..|log| - 1];
    if key !in s.deployments {
      i := |log| - 1;
      if !Means(d, e, ANY, key) {
        OthersKept(d, s, e, key);
      } else if Means(d, e, {DeploymentDelete}, key) {
        Deleted(d, s, e, key);
      } else if Means(d, e, {ScaleChange, DeploymentActivate}, key) {
        NothingThere(d, s, e, key);
      }
    } else {
      i := HasOrigin(d, init, key);
      assert init[..i] == log[..i];
      if Means(d, e, {DeploymentDelete}, key) {
        Deleted(d, s, e, key);
      }
      forall j | i < j < |log| ensures !Means(d, log[j], {DeploymentDelete}, key) {
        if j < |log| - 1 {
          assert init[j] == log[j];
        }
      }
    }
  }

  // ----- versions -----

  /** An activation, a create or an update that names a version of `key`. */
  predicate Names(d: Decoders, e: Entry, key: string) {
    || Means(d, e, {DeploymentActivate}, key)
    || (Means(d, e, {DeploymentCreate, DeploymentUpdate}, key) && CommandOf(d, e).version != "")
  }

  /** The last entry that names a version of the deployment, which is there from then on. */
  ghost predicate LastNaming(d: Decoders, log: seq<Entry>, key: string, i: nat) {
    && i < |log| && Names(d, log[i], key)
    && key in Fold(d, EMPTY, log[..i + 1]).deployments
    && forall j | i < j < |log| :: !Names(d, log[j], key) && !Means(d, log[j], {DeploymentDelete}, key)
  }

  /** The active version is the last one named; after an activation exactly its versions carry the flag. */
  lemma {:induction false} ActiveIsLast(d: Decoders, log: seq<Entry>, key: string, i: nat)
    requires LastNaming(d, log, key, i)
    ensures
      var s', c := Fold(d, EMPTY, log), CommandOf(d, log[i]);
      && key in s'.deployments && key in s'.activeVersions && s'.activeVersions[key] == c.version
      && (log[i].kind == DeploymentActivate ==>
            forall v | v in s'.deployments[key].versions :: v.active <==> v.id == c.version)
    decreases |log|
  {
    var s, e := Before(d, log), log[|log| - 1];
    KeysAgree(d, log[..|log| - 1], key);
    if i == |log| - 1 {
      assert log[..i + 1] == log;
      NamedNow(d, log, key);
    } else {
      assert log[..|log| - 1][..i + 1] == log[..i + 1];
      ActiveIsLast(d, log[..|log| - 1], key, i);
      assert !Names(d, e, key) && !Means(d, e, {DeploymentDelete}, key);
      UnnamedKept(d, s, e, key);
    }
  }

  lemma UnnamedKept(d: Decoders, s: FsmState, e: Entry, key: string)
    requires !Names(d, e, key) && !Means(d, e, {DeploymentDelete}, key)
    requires key in s.deployments && key in s.activeVersions
    ensures
      var s' := ApplyEntry(d, s, e);
      && key in s'.deployments && key in s'.activeVersions && s'.activeVersions[key] == s.activeVersions[key]
      && s'.deployments[key].versions == s.deployments[key].versions
  {
    if !Means(d, e, ANY, key) {
      OthersKept(d, s, e, key);
    } else if Means(d, e, {ScaleChange}, key) {
      Scaled(d, s, e, key);
    } else {
      MadeAgain(d, s, e, key);
    }
  }

  lemma NamedNow(d: Decoders, log: seq<Entry>, key: string)
    requires log != [] && Names(d, log[|log| - 1], key) && key in Fold(d, EMPTY, log).deployments
    requires key in Before(d, log).deployments <==> key in Before(d, log).activeVersions
    ensures
      var s', c := Fold(d, EMPTY, log), CommandOf(d, log[|log| - 1]);
      && key in s'.activeVersions && s'.activeVersions[key] == c.version
      && (log[|log| - 1].kind == DeploymentActivate ==>
            forall v | v in s'.deployments[key].versions :: v.active <==> v.id == c.version)
  {
    var s, e := Before(d, log), log[|log| - 1];
    if e.kind == DeploymentActivate {
      if key !in s.deployments {
        NothingThere(d, s, e, key);
      } else {
        Activated(d, s, e, key);
      }
    } else if key in s.deployments {
      MadeAgain(d, s, e, key);
    } else {
      MadeNew(d, s, e, key);
    }
  }

  // ----- assignments, nodes, progress -----

  /** The entry sets or clears the assignment of `key`. */
  predicate Assigns(d: Decoders, e: Entry, key: string) {
    || Means(d, e, {DeploymentDelete}, key)
    || (e.kind in {SchedulerAssign, SchedulerUnassign} && d.assignment(e.command).Some? &&
        var c := d.assignment(e.command).value; c.namespace + "/" + c.deployment == key)
  }

  function Assigning(d: Decoders, key: string): Entry -> bool {
    e => Assigns(d, e, key)
  }

  /** An assignment is that of the last assign, unassign or delete about its key, if that is an assign. */
  lemma {:induction false} AssignmentIsLast(d: Decoders, log: seq<Entry>, key: string)
    ensures
      var i, s := LastWhere(log, Assigning(d, key)), Fold(d, EMPTY, log);
      && i < |log|
      && (key in s.assignments <==> i >= 0 && log[i].kind == SchedulerAssign)
      && (key in s.assignments ==>
            d.assignment(log[i].command).Some? && s.assignments[key] == d.assignment(log[i].command).value.nodes)
  {
    LastWhereMeaning(log, Assigning(d, key));
    if log != [] {
      AssignmentIsLast(d, log[..|log| - 1], key);
      AssignmentStep(d, Before(d, log), log[|log| - 1], key);
    }
  }

  lemma AssignmentStep(d: Decoders, s: FsmState, e: Entry, key: string)
    ensures
      var s' := ApplyEntry(d, s, e);
      if Assigns(d, e, key) then
        && (key in s'.assignments <==> e.kind == SchedulerAssign)
        && (key in s'.assignments ==> s'.assignments[key] == d.assignment(e.command).value.nodes)
      else
        && (key in s'.assignments <==> key in s.assignments)
        && (key in s.assignments ==> s'.assignments[key] == s.assignments[key])
  {
  }

  predicate Moves(d: Decoders, e: Entry, id: NodeId) {
    e.kind in {NodeJoin, NodeLeave} && d.node(e.command).Some? && d.node(e.command).value.id == id
  }

  function Moving(d: Decoders, id: NodeId): Entry -> bool {
    e => Moves(d, e, id)
  }

  /** A node is known, with the address it joined with, exactly when the last entry about it is a join. */
  lemma {:induction false} NodeIsLast(d: Decoders, log: seq<Entry>, id: NodeId)
    ensures
      var i, s := LastWhere(log, Moving(d, id)), Fold(d, EMPTY, log);
      && i < |log|
      && (id in s.nodes <==> i >= 0 && log[i].kind == NodeJoin)
      && (id in s.nodes ==> d.node(log[i].command).Some? && s.nodes[id] == d.node(log[i].command).value.address)
  {
    LastWhereMeaning(log, Moving(d, id));
    if log != [] {
      NodeIsLast(d, log[..|log| - 1], id);
      NodeStep(d, Before(d, log), log[|log| - 1], id);
    }
  }

  lemma NodeStep(d: Decoders, s: FsmState, e: Entry, id: NodeId)
    ensures
      var s' := ApplyEntry(d, s, e);
      if Moves(d, e, id) then
        && (id in s'.nodes <==> e.kind == NodeJoin)
        && (id in s'.nodes ==> s'.nodes[id] == d.node(e.command).value.address)
      else
        && (id in s'.nodes <==> id in s.nodes)
        && (id in s.nodes ==> s'.nodes[id] == s.nodes[id])
  {
  }

  predicate Decodes(d: Decoders, e: Entry) {
    && (e.kind in ANY ==> d.deployment(e.command).Some?)
    && (e.kind in {SchedulerAssign, SchedulerUnassign} ==> d.assignment(e.command).Some?)
    && (e.kind in {NodeJoin, NodeLeave} ==> d.node(e.command).Some?)
  }

  function Decoding(d: Decoders): Entry -> bool {
    e => Decodes(d, e)
  }

  /** The last applied index is that of the last entry that decodes; one that does not changes nothing. */
  lemma {:induction false} LastAppliedIsLast(d: Decoders, log: seq<Entry>)
    ensures
      var i := LastWhere(log, Decoding(d));
      && i < |log| && Fold(d, EMPTY, log).lastApplied == if i >= 0 then log[i].index else 0
    ensures log != [] && !Decodes(d, log[|log| - 1]) ==> Fold(d, EMPTY, log) == Before(d, log)
  {
    LastWhereMeaning(log, Decoding(d));
    if log != [] {
      LastAppliedIsLast(d, log[..|log| - 1]);
      ProgressStep(d, Before(d, log), log[|log| - 1]);
    }
  }

  lemma ProgressStep(d: Decoders, s: FsmState, e: Entry)
    ensures ApplyEntry(d, s, e).lastApplied == if Decodes(d, e) then e.index else s.lastApplied
    ensures !Decodes(d, e) ==> ApplyEntry(d, s, e) == s
  {
  }
}
