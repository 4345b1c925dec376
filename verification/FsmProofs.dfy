/** What every sequence of entries keeps true of the state machine, and why replicas agree. */
module FsmProofs {
  import opened RaftTypes
  import opened NodeSpec
  import opened Cluster
  import opened Fsm
  import opened Safety

  // ----- the invariant of the state machine -----

  ghost predicate DeploymentOk(s: FsmState, key: string)
    requires key in s.deployments && key in s.activeVersions
  {
    var d := s.deployments[key];
    && key == Key(d.namespace, d.name)
    && |d.versions| > 0
    && forall i | 0 <= i < |d.versions| && d.versions[i].active :: d.versions[i].id == s.activeVersions[key]
  }

  ghost predicate StateOk(s: FsmState) {
    && s.deployments.Keys == s.activeVersions.Keys
    && forall key | key in s.deployments :: DeploymentOk(s, key)
  }

  /** Replacing one deployment and its active version leaves the others alone. */
  lemma ReplaceKeeps(s: FsmState, s': FsmState, key: string, d: DeploymentMeta, v: string)
    requires StateOk(s)
    requires s'.deployments == s.deployments[key := d] && s'.activeVersions == s.activeVersions[key := v]
    requires DeploymentOk(s', key)
    ensures StateOk(s')
  {
    forall k | k in s'.deployments ensures DeploymentOk(s', k) {
      if k != key { assert DeploymentOk(s, k); }
    }
  }

  /** CreateOrUpdate touches one key; what it leaves there is in order. */
  lemma UpdateOwnKey(s: FsmState, c: DeploymentCommand)
    requires StateOk(s)
    ensures
      var s', key := CreateOrUpdate(s, c), Key(c.namespace, c.name);
      && key in s'.deployments && key in s'.activeVersions && DeploymentOk(s', key)
      && s'.deployments == s.deployments[key := s'.deployments[key]]
      && s'.activeVersions == s.activeVersions[key := s'.activeVersions[key]]
  {
    var key := Key(c.namespace, c.name);
    if key in s.deployments { assert DeploymentOk(s, key); }
  }

  lemma UpdateKeeps(s: FsmState, c: DeploymentCommand)
    requires StateOk(s)
    ensures StateOk(CreateOrUpdate(s, c))
  {
    var s', key := CreateOrUpdate(s, c), Key(c.namespace, c.name);
    UpdateOwnKey(s, c);
    ReplaceKeeps(s, s', key, s'.deployments[key], s'.activeVersions[key]);
  }

  lemma ActivateKeeps(s: FsmState, c: DeploymentCommand)
    requires StateOk(s)
    ensures StateOk(Activate(s, c))
  {
    var s' := Activate(s, c);
    forall key | key in s'.deployments ensures DeploymentOk(s', key) {
      assert DeploymentOk(s, key);
    }
  }

  lemma DeleteKeeps(s: FsmState, c: DeploymentCommand)
    requires StateOk(s)
    ensures StateOk(Delete(s, c))
  {
    var s' := Delete(s, c);
    forall key | key in s'.deployments ensures DeploymentOk(s', key) {
      assert DeploymentOk(s, key);
    }
  }

  lemma ScaleKeeps(s: FsmState, c: DeploymentCommand)
    requires StateOk(s)
    ensures StateOk(Scale(s, c))
  {
    var s' := Scale(s, c);
    forall key | key in s'.deployments ensures DeploymentOk(s', key) {
      assert DeploymentOk(s, key);
    }
  }

  lemma OtherFieldsKeep(s: FsmState, s': FsmState)
    requires StateOk(s) && s'.deployments == s.deployments && s'.activeVersions == s.activeVersions
    ensures StateOk(s')
  {
    forall key | key in s'.deployments ensures DeploymentOk(s', key) {
      assert DeploymentOk(s, key);
    }
  }

  lemma EntryKeeps(d: Decoders, s: FsmState, e: Entry)
    requires StateOk(s)
    ensures StateOk(ApplyEntry(d, s, e))
  {
    CommandKeeps(d, s, e);
    var r := Command(d, s, e);
    if r.Some? {
      OtherFieldsKeep(r.value, ApplyEntry(d, s, e));
    }
  }

  lemma CommandKeeps(d: Decoders, s: FsmState, e: Entry)
    requires StateOk(s)
    ensures Command(d, s, e).Some? ==> StateOk(Command(d, s, e).value)
  {
    var r, c := Command(d, s, e), d.deployment(e.command);
    if r.Some? {
      match e.kind {
        case DeploymentCreate | DeploymentUpdate => UpdateKeeps(s, c.value);
        case DeploymentDelete => DeleteKeeps(s, c.value);
        case DeploymentActivate => ActivateKeeps(s, c.value);
        case ScaleChange => ScaleKeeps(s, c.value);
        case _ => OtherFieldsKeep(s, r.value);
      }
    }
  }

  /** After any sequence of entries: one active version per deployment key, and flags that agree with it. */
  lemma {:induction false} StateOkAlways(d: Decoders, es: seq<Entry>)
    ensures StateOk(Fold(d, EMPTY, es))
  {
    if es != [] {
      StateOkAlways(d, es[..|es| - 1]);
      EntryKeeps(d, Fold(d, EMPTY, es[..|es| - 1]), es[|es| - 1]);
    }
  }

  // ----- does the active version exist? -----

  predicate HasVersion(d: DeploymentMeta, id: string) {
    exists i | 0 <= i < |d.versions| :: d.versions[i].id == id
  }

  /** Every deployment's recorded active version is one of its versions. */
  ghost predicate Named(s: FsmState) {
    s.deployments.Keys == s.activeVersions.Keys
    && forall key | key in s.deployments :: HasVersion(s.deployments[key], s.activeVersions[key])
  }

  /** The one kind of entry that breaks it: activating a version the deployment does not have. */
  predicate ActivatesUnknown(d: Decoders, s: FsmState, e: Entry) {
    && e.kind == DeploymentActivate
    && var c := d.deployment(e.command);
       c.Some? && var key := Key(c.value.namespace, c.value.name);
                  key in s.deployments && !HasVersion(s.deployments[key], c.value.version)
  }

  lemma FlagKeepsVersions(d: DeploymentMeta, id: Option<string>, v: string)
    ensures HasVersion(d.(versions := Flag(d.versions, id)), v) == HasVersion(d, v)
  {
    var d' := d.(versions := Flag(d.versions, id));
    if HasVersion(d, v) {
      var i :| 0 <= i < |d.versions| && d.versions[i].id == v;
      assert d'.versions[i].id == v;
    }
    if HasVersion(d', v) {
      var i :| 0 <= i < |d'.versions| && d'.versions[i].id == v;
      assert d.versions[i].id == v;
    }
  }

  lemma UpdateNamesOwnKey(s: FsmState, c: DeploymentCommand)
    requires Named(s)
    ensures
      var s', key := CreateOrUpdate(s, c), Key(c.namespace, c.name);
      && key in s'.deployments && key in s'.activeVersions && HasVersion(s'.deployments[key], s'.activeVersions[key])
      && s'.deployments == s.deployments[key := s'.deployments[key]]
      && s'.activeVersions == s.activeVersions[key := s'.activeVersions[key]]
  {
    var s', key := CreateOrUpdate(s, c), Key(c.namespace, c.name);
    if key in s.deployments && s'.activeVersions[key] == s.activeVersions[key] {
      StillHas(s.deployments[key], s'.deployments[key], s.activeVersions[key]);
    } else {
      LastIsThere(s'.deployments[key], c);
    }
  }

  lemma StillHas(d: DeploymentMeta, d': DeploymentMeta, v: string)
    requires HasVersion(d, v) && |d.versions| <= |d'.versions|
    requires forall i | 0 <= i < |d.versions| :: d'.versions[i].id == d.versions[i].id
    ensures HasVersion(d', v)
  {
    var i :| 0 <= i < |d.versions| && d.versions[i].id == v;
    assert d'.versions[i].id == v;
  }

  lemma LastIsThere(d: DeploymentMeta, c: DeploymentCommand)
    requires |d.versions| > 0 && d.versions[|d.versions| - 1] == NewVersion(c)
    ensures HasVersion(d, c.version)
  {
    assert d.versions[|d.versions| - 1].id == c.version;
  }

  lemma UpdateNames(s: FsmState, c: DeploymentCommand)
    requires Named(s)
    ensures Named(CreateOrUpdate(s, c))
  {
    UpdateNamesOwnKey(s, c);
  }

  lemma ActivateNamesIff(s: FsmState, c: DeploymentCommand)
    requires Named(s)
    ensures
      var key := Key(c.namespace, c.name);
      Named(Activate(s, c)) <==> (key !in s.deployments || HasVersion(s.deployments[key], c.version))
  {
    var s' := Activate(s, c);
    var key := Key(c.namespace, c.name);
    if key in s.deployments {
      FlagKeepsVersions(s.deployments[key], Some(c.version), c.version);
      assert s'.activeVersions[key] == c.version;
      assert HasVersion(s'.deployments[key], c.version) == HasVersion(s.deployments[key], c.version);
    }
  }

  /** An entry leaves a dangling active version exactly when it activates an unknown version. */
  lemma NamedKeptIff(d: Decoders, s: FsmState, e: Entry)
    requires Named(s)
    ensures Named(ApplyEntry(d, s, e)) <==> !ActivatesUnknown(d, s, e)
  {
    var c := d.deployment(e.command);
    if e.kind == DeploymentActivate {
      if c.Some? { ActivateNamesIff(s, c.value); }
    } else if (e.kind == DeploymentCreate || e.kind == DeploymentUpdate) && c.Some? {
      UpdateNames(s, c.value);
    } else if e.kind == ScaleChange && c.Some? {
      ScaleNames(s, c.value);
    }
  }

  function VersionOf(version: string): DeploymentCommand {
    DeploymentCommand("web", "prod", version, "", "", 1, 80, "", map[], 0, 0)
  }

  /** Such an entry is possible after a single deployment: version 2 is activated, only 1 exists. */
  lemma DanglingVersionExample() returns (d: Decoders, log: seq<Entry>)
    ensures |log| == 2 && Named(Fold(d, EMPTY, log[..1])) && !Named(Fold(d, EMPTY, log))
    ensures Fold(d, EMPTY, log).activeVersions == map["prod/web" := "2"]
  {
    d := Decoders(bs => Some(VersionOf(if bs == [] then "1" else "2")), _ => None, _ => None);
    var create, activate := Entry(1, 1, DeploymentCreate, []), Entry(2, 1, DeploymentActivate, [0]);
    log := [create, activate];
    assert log[..1] == [create] && [create][..0] == [];
    var s := ApplyEntry(d, EMPTY, create);
    assert Fold(d, EMPTY, [create]) == s;
    assert Key("prod", "web") == "prod/web";
    assert s.deployments["prod/web"].versions == [NewVersion(VersionOf("1"))];
    NamedKeptIff(d, EMPTY, create);
    assert !HasVersion(s.deployments["prod/web"], "2");
    NamedKeptIff(d, s, activate);
    assert Fold(d, EMPTY, log) == ApplyEntry(d, s, activate);
  }

  lemma ScaleNames(s: FsmState, c: DeploymentCommand)
    requires Named(s)
    ensures Named(Scale(s, c))
  {
    var s' := Scale(s, c);
    forall key | key in s'.deployments ensures HasVersion(s'.deployments[key], s'.activeVersions[key]) {
      var i :| 0 <= i < |s.deployments[key].versions| && s.deployments[key].versions[i].id == s.activeVersions[key];
      assert s'.deployments[key].versions[i].id == s'.activeVersions[key];
    }
  }

  // ----- keys -----

  /** Namespaces without a slash make keys unambiguous; with one, two deployments can share a key. */
  lemma {:induction false} KeyIsInjective(ns: string, name: string, ns': string, name': string)
    requires '/' !in ns && '/' !in ns'
    ensures Key(ns, name) == Key(ns', name') <==> ns == ns' && name == name'
  {
    if Key(ns, name) == Key(ns', name') {
      var k := Key(ns, name);
      assert k[|ns|] == '/' && k[|ns'|] == '/';
      assert forall i | 0 <= i < |ns| :: k[i] == ns[i];
      assert forall i | 0 <= i < |ns'| :: k[i] == ns'[i];
      assert |ns| == |ns'|;
      assert ns == k[..|ns|] && ns' == k[..|ns'|];
      assert name == k[|ns| + 1..] && name' == k[|ns'| + 1..];
    }
  }

  ghost predicate Unambiguous(ns: string, name: string) {
    forall ns', name' :: Key(ns', name') == Key(ns, name) ==> ns' == ns && name' == name
  }

  lemma SlashSplits(ns: string, name: string)
    requires '/' in ns || '/' in name
    ensures !Unambiguous(ns, name)
  {
    if '/' in ns {
      var i :| 0 <= i < |ns| && ns[i] == '/';
      var ns', name' := ns[..i], ns[i + 1..] + "/" + name;
      assert ns == ns' + "/" + ns[i + 1..];
      assert Key(ns', name') == Key(ns, name);
    } else {
      var i :| 0 <= i < |name| && name[i] == '/';
      var ns', name' := ns + "/" + name[..i], name[i + 1..];
      assert name == name[..i] + "/" + name';
      assert Key(ns', name') == Key(ns, name);
    }
  }

  /** A key belongs to one namespace and name only, exactly when neither contains a slash. */
  lemma KeyUnambiguousIff(ns: string, name: string)
    ensures Unambiguous(ns, name) <==> '/' !in ns && '/' !in name
  {
    if '/' in ns || '/' in name {
      SlashSplits(ns, name);
    } else {
      forall ns', name' | Key(ns', name') == Key(ns, name) ensures ns' == ns && name' == name {
        var k := Key(ns, name);
        assert Key(ns', name')[|ns'|] == '/';
        assert forall i | 0 <= i < |k| && i != |ns| :: k[i] == (if i < |ns| then ns[i] else name[i - |ns| - 1]);
        assert ns' == k[..|ns'|] && ns == k[..|ns|];
        assert name' == k[|ns'| + 1..] && name == k[|ns| + 1..];
      }
    }
  }

  // ----- replicas -----

  lemma {:induction false} FoldInParts(d: Decoders, s: FsmState, a: seq<Entry>, b: seq<Entry>)
    ensures Fold(d, s, a + b) == Fold(d, Fold(d, s, a), b)
    decreases |b|
  {
    if b == [] {
      assert a + b == a;
    } else {
      var n := |b| - 1;
      assert (a + b)[..|a + b| - 1] == a + b[..n];
      FoldInParts(d, s, a, b[..n]);
    }
  }

  /** Restoring a snapshot and applying the rest of the log is applying the whole log. */
  lemma SnapshotThenSuffix(d: Decoders, codec: SnapshotCodec, log: seq<Entry>, k: nat)
    requires k <= |log|
    requires codec.dec(codec.enc(Fold(d, EMPTY, log[..k]))) == Some(Fold(d, EMPTY, log[..k]))
    ensures
      var restored := codec.dec(codec.enc(Fold(d, EMPTY, log[..k])));
      Fold(d, restored.value, log[k..]) == Fold(d, EMPTY, log)
  {
    FoldInParts(d, EMPTY, log[..k], log[k..]);
    assert log[..k] + log[k..] == log;
  }

  /**
   Replica agreement: in every run, the state of a node that has applied no more than another, at any
   moment of either, is a stage that the other's state went through; equal lengths mean equal states.
   */
  lemma ReplicasAgree(run: seq<State>, i: nat, j: nat, a: NodeId, b: NodeId, d: Decoders)
    requires IsRun(run) && i < |run| && j < |run| && a in run[i].nodes && b in run[j].nodes
    requires |run[i].nodes[a].machine| <= |run[j].nodes[b].machine|
    ensures
      var ma, mb := run[i].nodes[a].machine, run[j].nodes[b].machine;
      && ma <= mb
      && Fold(d, EMPTY, mb) == Fold(d, Fold(d, EMPTY, ma), mb[|ma|..])
      && (|ma| == |mb| ==> Fold(d, EMPTY, ma) == Fold(d, EMPTY, mb))
  {
    var ma, mb := run[i].nodes[a].machine, run[j].nodes[b].machine;
    StateMachineSafety(run, i, j, a, b);
    FoldInParts(d, EMPTY, ma, mb[|ma|..]);
    assert ma + mb[|ma|..] == mb;
    if |ma| == |mb| { assert ma == mb; }
  }
}
