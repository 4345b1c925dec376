/**
 The layer cache of pkg/layer/store.go and pkg/layer/base.go: a request is answered by a base layer
 chosen by score plus a delta layer addressed by the digest of its normal form. `digest` stands for
 the shortened SHA-256 of the joined list, so two lists may have one ID.
 */
module Layers {
  import opened RaftTypes
  import opened Packages

  datatype Layer = Layer(id: string, packages: seq<Package>, size: nat, lastUsed: int, path: string)

  datatype Base = Base(name: string, layerId: string, packages: seq<Package>, priority: int)

  datatype Stack = Stack(layerIds: seq<string>, path: seq<string>)

  type Digest = seq<Package> -> string

  // ---------------------------------------------------------------- choosing a base

  /** The packages of a base whose names are wanted, in the base's order. */
  function Covered(lower: Lower, ps: seq<Package>, wanted: set<string>): (r: seq<Package>)
    ensures forall p :: p in r <==> p in ps && Key(lower, p) in wanted
  {
    if ps == [] then []
    else
      var init, p := ps[..|ps| - 1], ps[|ps| - 1];
      assert ps == init + [p];
      Covered(lower, init, wanted) + (if Key(lower, p) in wanted then [p] else [])
  }

  /** The requested packages a covered set leaves over, in the request's order. */
  function Delta(lower: Lower, required: seq<Package>, covered: set<string>): (r: seq<Package>)
    ensures forall p :: p in r <==> p in required && Key(lower, p) !in covered
  {
    if required == [] then []
    else
      var init, p := required[..|required| - 1], required[|required| - 1];
      assert required == init + [p];
      Delta(lower, init, covered) + (if Key(lower, p) !in covered then [p] else [])
  }

  /** Every package is covered or left over, counting repetitions. */
  lemma {:induction false} CoveredAndRest(lower: Lower, ps: seq<Package>, names: set<string>)
    ensures |Covered(lower, ps, names)| + |Delta(lower, ps, names)| == |ps|
  {
    if ps != [] {
      CoveredAndRest(lower, ps[..|ps| - 1], names);
    }
  }

  ghost function Score(lower: Lower, b: Base, wanted: set<string>): int {
    |Covered(lower, b.packages, wanted)| * (b.priority + 1)
  }

  ghost predicate Best(lower: Lower, bases: map<string, Base>, wanted: set<string>, n: string) {
    && n in bases
    && Score(lower, bases[n], wanted) > 0
    && forall o :: o in bases ==> Score(lower, bases[o], wanted) <= Score(lower, bases[n], wanted)
  }

  /** A base does not score higher than one of that priority covering n, nor covers more at its priority. */
  ghost predicate NotBetter(lower: Lower, b: Base, wanted: set<string>, n: nat, priority: int) {
    var c := |Covered(lower, b.packages, wanted)|;
    c * (b.priority + 1) <= n * (priority + 1) && (b.priority == priority ==> c <= n)
  }

  /** A sorted request leaves a sorted delta, so the delta is its own normal form. */
  lemma {:induction false} DeltaSorted(lower: Lower, required: seq<Package>, covered: set<string>)
    requires Sorted(lower, required)
    ensures Sorted(lower, Delta(lower, required, covered))
    ensures Canon(lower, Delta(lower, required, covered)) == Delta(lower, required, covered)
  {
    if required != [] {
      var init, p := required[..|required| - 1], required[|required| - 1];
      DeltaSorted(lower, init, covered);
      var d := Delta(lower, init, covered);
      forall i | 0 <= i < |d| ensures Less(Key(lower, d[i]), Key(lower, p)) {
        assert d[i] in init;
      }
    }
    CanonOfSorted(lower, Delta(lower, required, covered));
  }

  /**
   Names are always covered; a requested package itself, with its version, is in the base or the delta
   exactly when the base holds that very package wherever it has the name.
   */
  lemma VersionsKeptIff(lower: Lower, base: seq<Package>, required: seq<Package>)
    ensures var covered := Covered(lower, base, Keys(lower, required));
            var delta := Delta(lower, required, Keys(lower, covered));
            && Keys(lower, required) == Keys(lower, covered) + Keys(lower, delta)
            && Keys(lower, covered) !! Keys(lower, delta)
            && ((forall p :: p in required ==> p in base || p in delta) <==>
                (forall p :: p in required && Key(lower, p) in Keys(lower, base) ==> p in base))
  {
    var covered := Covered(lower, base, Keys(lower, required));
    var delta := Delta(lower, required, Keys(lower, covered));
    forall p | p in required ensures Key(lower, p) in Keys(lower, covered) <==> Key(lower, p) in Keys(lower, base) {
      if Key(lower, p) in Keys(lower, base) {
        var q :| q in base && Key(lower, q) == Key(lower, p);
        assert q in covered;
      }
    }
    forall k | k in Keys(lower, required) ensures k in Keys(lower, covered) + Keys(lower, delta) {
      var p :| p in required && Key(lower, p) == k;
      assert p in delta || k in Keys(lower, covered);
    }
  }

  /** A base with version 1 of a package leaves nothing over of a request for version 2. */
  lemma VersionIgnoredExample(lower: Lower)
    ensures
      var base, required := [Package("numpy", "1")], [Package("numpy", "2")];
      var covered := Covered(lower, base, Keys(lower, required));
      Delta(lower, required, Keys(lower, covered)) == [] && required[0] !in base
  {
    var base, required := [Package("numpy", "1")], [Package("numpy", "2")];
    var covered := Covered(lower, base, Keys(lower, required));
    var delta := Delta(lower, required, Keys(lower, covered));
    assert required[0] in required;
    assert base[0] in covered;
    assert Key(lower, base[0]) in Keys(lower, covered);
    assert forall p :: p !in delta;
  }

  // ---------------------------------------------------------------- what a store promises

  /** Every layer sits under the digest of its normal form. */
  ghost predicate Addressed(lower: Lower, digest: Digest, layers: map<string, Layer>) {
    forall id :: id in layers ==> layers[id].id == id == digest(Canon(lower, layers[id].packages))
  }

  /** Every base points at a present layer that has all the base's names. */
  ghost predicate Backed(lower: Lower, layers: map<string, Layer>, bases: map<string, Base>) {
    forall n :: n in bases ==>
                  && bases[n].layerId in layers
                  && Keys(lower, bases[n].packages) <= Keys(lower, layers[bases[n].layerId].packages)
  }

  /** The ID of a list is not already taken by another list. */
  ghost predicate NoClash(lower: Lower, digest: Digest, layers: map<string, Layer>, ps: seq<Package>) {
    digest(ps) in layers ==> Canon(lower, layers[digest(ps)].packages) == ps
  }

  ghost predicate Provides(lower: Lower, layers: map<string, Layer>, ids: seq<string>, k: string) {
    exists id :: id in ids && id in layers && k in Keys(lower, layers[id].packages)
  }

  /** A directory of the path belongs to a layer that has the name. */
  ghost predicate Found(lower: Lower, layers: map<string, Layer>, path: seq<string>, k: string) {
    exists id :: id in layers && layers[id].path in path && k in Keys(lower, layers[id].packages)
  }

  /** The layers `ids` are present and have every requested name; the delta's packages come as asked for. */
  ghost predicate Serves(
    lower: Lower, digest: Digest, layers: map<string, Layer>, ids: seq<string>, packages: seq<Package>, delta: seq<Package>)
  {
    && (forall id :: id in ids ==> id in layers)
    && (forall p :: p in packages ==> Provides(lower, layers, ids, Key(lower, p)))
    && (delta != [] ==> digest(delta) in ids)
    && (forall p :: p in delta ==> digest(delta) in layers && p in layers[digest(delta)].packages)
  }

  /** Layers that remain keep their packages. */
  ghost predicate Extends(was: map<string, Layer>, now: map<string, Layer>) {
    forall id :: id in was ==> id in now && now[id].packages == was[id].packages
  }

  lemma BackedExtends(lower: Lower, was: map<string, Layer>, now: map<string, Layer>, bases: map<string, Base>)
    requires Backed(lower, was, bases) && Extends(was, now)
    ensures Backed(lower, now, bases)
  {
    forall n | n in bases
      ensures bases[n].layerId in now && Keys(lower, bases[n].packages) <= Keys(lower, now[bases[n].layerId].packages)
    {
      assert bases[n].layerId in was;
    }
  }

  /** Two requests for the same packages in any order have the same delta ID, if neither is ambiguous. */
  lemma IdIsCanonical(lower: Lower, digest: Digest, xs: seq<Package>, ys: seq<Package>)
    requires SameItems(xs, ys) && Unambiguous(lower, xs)
    ensures digest(Canon(lower, xs)) == digest(Canon(lower, ys))
  {
    OrderFreeIff(lower, xs);
  }

  /** The directories of the layers that are present, in the order of their IDs. */
  function Paths(layers: map<string, Layer>, ids: seq<string>): seq<string> {
    if ids == [] then []
    else
      var init, id := ids[..|ids| - 1], ids[|ids| - 1];
      Paths(layers, init) + (if id in layers then [layers[id].path] else [])
  }

  /** One ID gives its layer's directory, or nothing; more of them give theirs one after the other. */
  lemma {:induction false} PathsInParts(layers: map<string, Layer>, a: seq<string>, b: seq<string>, id: string)
    ensures Paths(layers, [id]) == if id in layers then [layers[id].path] else []
    ensures Paths(layers, a + b) == Paths(layers, a) + Paths(layers, b)
    decreases |b|
  {
    assert [id][..0] == [];
    if b == [] {
      assert a + b == a;
    } else {
      assert (a + b)[..|a + b| - 1] == a + b[..|b| - 1];
      PathsInParts(layers, a, b[..|b| - 1], id);
    }
  }

  /** If all are present, that is one directory for each. */
  lemma {:induction false} AllPresent(layers: map<string, Layer>, ids: seq<string>)
    requires forall id :: id in ids ==> id in layers
    ensures |Paths(layers, ids)| == |ids| && forall i | 0 <= i < |ids| :: Paths(layers, ids)[i] == layers[ids[i]].path
  {
    if ids != [] {
      assert ids[|ids| - 1] in ids;
      AllPresent(layers, ids[..|ids| - 1]);
    }
  }

  // ---------------------------------------------------------------- bytes on disk

  ghost function TotalSize(layers: map<string, Layer>): nat {
    if layers == map[] then 0
    else
      var id :| id in layers;
      layers[id].size + TotalSize(layers - {id})
  }

  lemma {:induction false} TotalSizeOf(layers: map<string, Layer>, id: string)
    requires id in layers
    ensures TotalSize(layers) == layers[id].size + TotalSize(layers - {id})
    decreases |layers|
  {
    var o :| o in layers && TotalSize(layers) == layers[o].size + TotalSize(layers - {o});
    if o != id {
      TotalSizeOf(layers - {o}, id);
      TotalSizeOf(layers - {id}, o);
      assert layers - {o} - {id} == layers - {id} - {o};
    }
  }

  // ---------------------------------------------------------------- the store

  class Store {
    const lower: Lower
    const digest: Digest
    var layers: map<string, Layer>
    var bases: map<string, Base>

    ghost predicate Valid()
      reads this
    {
      Addressed(lower, digest, layers) && Backed(lower, layers, bases)
    }

    constructor (lower: Lower, digest: Digest)
      ensures this.lower == lower && this.digest == digest
      ensures layers == map[] && bases == map[] && Valid()
    {
      this.lower := lower;
      this.digest := digest;
      layers := map[];
      bases := map[];
    }

    method LayerId(packages: seq<Package>) returns (id: string)
      ensures id == digest(Canon(lower, packages))
    {
      var normal := NormalizePackages(lower, packages);
      id := digest(normal);
    }

    method CoveredBy(b: Base, wanted: set<string>) returns (covered: seq<Package>)
      ensures covered == Covered(lower, b.packages, wanted)
    {
      covered := [];
      for i := 0 to |b.packages|
        invariant covered == Covered(lower, b.packages[..i], wanted)
      {
        assert b.packages[..i + 1][..i] == b.packages[..i];
        if Key(lower, b.packages[i]) in wanted {
          covered := covered + [b.packages[i]];
        }
      }
      assert b.packages[..|b.packages|] == b.packages;
    }

    method NameSet(packages: seq<Package>) returns (names: set<string>)
      ensures names == Keys(lower, packages)
    {
      names := {};
      for i := 0 to |packages|
        invariant names == Keys(lower, packages[..i])
      {
        assert packages[..i + 1] == packages[..i] + [packages[i]];
        names := names + {Key(lower, packages[i])};
      }
      assert packages[..|packages|] == packages;
    }

    /** findBestBase, over whatever order the map of bases gives. */
    method FindBestBase(packages: seq<Package>)
      returns (best: Option<Base>, covered: seq<Package>, ghost winner: string)
      ensures best.Some? ==>
                && Best(lower, bases, Keys(lower, packages), winner) && best.value == bases[winner]
                && covered == Covered(lower, best.value.packages, Keys(lower, packages))
      // It covers half of the request or three packages. No base scores higher, so among those of its
      // priority none covers more.
      ensures best.Some? ==>
                && (2 * |covered| + 1 >= |packages| || |covered| >= 3) && |covered| > 0
                && forall o :: o in bases ==>
                     NotBetter(lower, bases[o], Keys(lower, packages), |covered|, best.value.priority)
      // No base is chosen if none scores, or the winner covers too little.
      ensures best.None? ==>
                && covered == []
                && ((exists n :: Best(lower, bases, Keys(lower, packages), n)) ==>
                     && Best(lower, bases, Keys(lower, packages), winner)
                     && var n := |Covered(lower, bases[winner].packages, Keys(lower, packages))|;
                        2 * n + 1 < |packages| && n < 3)
    {
      var wanted := NameSet(packages);
      best, covered, winner := None, [], "";
      var bestScore := 0;
      var rest := bases.Keys;
      while rest != {}
        invariant rest <= bases.Keys
        invariant bestScore >= 0
        invariant best.None? ==> bestScore == 0 && covered == []
        invariant best.Some? ==>
                    && winner in bases && best.value == bases[winner]
                    && covered == Covered(lower, bases[winner].packages, wanted)
                    && bestScore == Score(lower, bases[winner], wanted) > 0
        invariant forall o :: o in bases && o !in rest ==> Score(lower, bases[o], wanted) <= bestScore
        decreases |rest|
      {
        var n :| n in rest;
        rest := rest - {n};
        var b := bases[n];
        var c := CoveredBy(b, wanted);
        var score := |c| * (b.priority + 1);
        if score > bestScore {
          bestScore, best, covered, winner := score, Some(b), c, n;
        }
      }
      if best.Some? {
        BestIsBest(wanted, winner);
      }
      if best.None? || !(|covered| >= |packages| / 2 || |covered| >= 3) {
        best, covered := None, [];
      }
    }

    lemma BestIsBest(wanted: set<string>, winner: string)
      requires winner in bases && Score(lower, bases[winner], wanted) > 0
      requires forall o :: o in bases ==> Score(lower, bases[o], wanted) <= Score(lower, bases[winner], wanted)
      ensures Best(lower, bases, wanted, winner) && Covered(lower, bases[winner].packages, wanted) != []
      ensures forall o :: o in bases ==>
                NotBetter(lower, bases[o], wanted, |Covered(lower, bases[winner].packages, wanted)|, bases[winner].priority)
    {
      forall o | o in bases
        ensures NotBetter(lower, bases[o], wanted, |Covered(lower, bases[winner].packages, wanted)|, bases[winner].priority)
      {
        LessTimes(|Covered(lower, bases[o].packages, wanted)|, |Covered(lower, bases[winner].packages, wanted)|,
                  bases[winner].priority + 1);
      }
    }

    /** computeDelta. */
    method ComputeDelta(required: seq<Package>, covered: seq<Package>) returns (delta: seq<Package>)
      ensures delta == Delta(lower, required, Keys(lower, covered))
    {
      var names := NameSet(covered);
      delta := [];
      for i := 0 to |required|
        invariant delta == Delta(lower, required[..i], names)
      {
        assert required[..i + 1][..i] == required[..i];
        if Key(lower, required[i]) !in names {
          delta := delta + [required[i]];
        }
      }
      assert required[..|required|] == required;
    }

    /** getOrCreateLayer; `install` is the size and path of a successful installation. */
    method GetOrCreateLayer(packages: seq<Package>, now: int, install: Option<(nat, string)>)
      returns (layer: Option<Layer>)
      modifies this`layers
      ensures var id := digest(Canon(lower, packages));
              && (layer.None? <==> id !in old(layers) && install.None?)
              && (layer.None? ==> layers == old(layers))
              && (layer.Some? ==>
                    && id in layers && layer.value == layers[id]
                    && layers[id] == (if id in old(layers) then old(layers)[id].(lastUsed := now)
                                      else Layer(id, packages, install.value.0, now, install.value.1))
                    && layers == old(layers)[id := layers[id]])
      ensures Extends(old(layers), layers)
      ensures old(Valid()) ==> Valid()
    {
      var id := LayerId(packages);
      if id in layers {
        layers := layers[id := layers[id].(lastUsed := now)];
        StillValid(old(layers));
        return Some(layers[id]);
      }
      if install.None? {
        return None;
      }
      layers := layers[id := Layer(id, packages, install.value.0, now, install.value.1)];
      StillValid(old(layers));
      layer := Some(layers[id]);
    }

    lemma StillValid(was: map<string, Layer>)
      requires Extends(was, layers)
      ensures Backed(lower, was, bases) ==> Backed(lower, layers, bases)
    {
      if Backed(lower, was, bases) {
        BackedExtends(lower, was, layers, bases);
      }
    }

    /** composeStack: IDs without a layer contribute no path. */
    method ComposeStack(layerIds: seq<string>) returns (stack: Stack)
      ensures stack.layerIds == layerIds && stack.path == Paths(layers, layerIds)
      ensures (forall id :: id in layerIds ==> id in layers) ==>
                |stack.path| == |layerIds| && forall i | 0 <= i < |layerIds| :: stack.path[i] == layers[layerIds[i]].path
    {
      var path := [];
      for i := 0 to |layerIds|
        invariant path == Paths(layers, layerIds[..i])
      {
        assert layerIds[..i + 1][..i] == layerIds[..i];
        if layerIds[i] in layers {
          path := path + [layers[layerIds[i]].path];
        }
      }
      assert layerIds[..|layerIds|] == layerIds;
      stack := Stack(layerIds, path);
      if forall id :: id in layerIds ==> id in layers {
        AllPresent(layers, layerIds);
      }
    }

    /**
     Resolve. `delta` is the list given to the delta layer. Whatever base the order of the map selects,
     a store whose bases are backed answers with layers that have every requested name, unless the
     delta's ID belongs to another list; what is in the delta comes with the version asked for.
     */
    method Resolve(packages: seq<Package>, now: int, install: Option<(nat, string)>)
      returns (stack: Option<Stack>, ghost base: Option<Base>, ghost delta: seq<Package>)
      modifies this`layers
      ensures forall p :: p in delta ==> p in Canon(lower, packages)
      ensures stack.None? <==> delta != [] && digest(delta) !in old(layers) && install.None?
      ensures stack.None? ==> layers == old(layers)
      ensures Extends(old(layers), layers)
      ensures old(Valid()) ==> Valid()
      ensures base.Some? ==> base.value in bases.Values
      ensures stack.Some? && old(Valid()) ==>
                stack.value.layerIds ==
                (if base.Some? then [base.value.layerId] else []) + (if delta == [] then [] else [digest(delta)])
      ensures stack.Some? && old(Valid()) && NoClash(lower, digest, old(layers), delta) ==>
                && Serves(lower, digest, layers, stack.value.layerIds, packages, delta)
                && Leads(stack.value, packages, base, delta)
    {
      var chosen, covered, left := Plan(packages);
      base := chosen;
      delta := left;
      var ids := if chosen.Some? then [chosen.value.layerId] else [];
      if |left| > 0 {
        var layer := GetOrCreateLayer(left, now, install);
        if layer.None? {
          return None, base, delta;
        }
        ids := ids + [layer.value.id];
      }
      var s := ComposeStack(ids);
      stack := Some(s);
      if old(Valid()) && NoClash(lower, digest, old(layers), delta) {
        Answered(packages, base, covered, delta, s);
      }
    }

    lemma Answered(packages: seq<Package>, base: Option<Base>, covered: seq<Package>, delta: seq<Package>, s: Stack)
      requires Backed(lower, layers, bases)
      requires base.Some? ==> base.value in bases.Values && forall p :: p in covered ==> p in base.value.packages
      requires base.None? ==> covered == []
      requires delta == Delta(lower, Canon(lower, packages), Keys(lower, covered))
      requires delta != [] ==> digest(delta) in layers && Canon(lower, layers[digest(delta)].packages) == delta
      requires s.layerIds == (if base.Some? then [base.value.layerId] else []) + (if delta == [] then [] else [digest(delta)])
      requires s.path == Paths(layers, s.layerIds)
      ensures Serves(lower, digest, layers, s.layerIds, packages, delta) && Leads(s, packages, base, delta)
    {
      AllProvided(packages, base, covered, delta, s.layerIds);
      AllPresent(layers, s.layerIds);
      AllFound(packages, s, base, delta);
    }

    /** Every requested name is in a directory of the path: that of the base, then that of the delta. */
    ghost predicate Leads(s: Stack, packages: seq<Package>, base: Option<Base>, delta: seq<Package>)
      reads this
    {
      && (base.Some? ==> base.value.layerId in layers) && (delta != [] ==> digest(delta) in layers)
      && s.path == (if base.Some? then [layers[base.value.layerId].path] else []) +
                   (if delta == [] then [] else [layers[digest(delta)].path])
      && forall p :: p in packages ==> Found(lower, layers, s.path, Key(lower, p))
    }

    lemma AllFound(packages: seq<Package>, s: Stack, base: Option<Base>, delta: seq<Package>)
      requires forall id :: id in s.layerIds ==> id in layers
      requires |s.path| == |s.layerIds| && forall i | 0 <= i < |s.layerIds| :: s.path[i] == layers[s.layerIds[i]].path
      requires forall p :: p in packages ==> Provides(lower, layers, s.layerIds, Key(lower, p))
      requires s.layerIds == (if base.Some? then [base.value.layerId] else []) + (if delta == [] then [] else [digest(delta)])
      ensures Leads(s, packages, base, delta)
    {
      forall p | p in packages ensures Found(lower, layers, s.path, Key(lower, p)) {
        var id :| id in s.layerIds && id in layers && Key(lower, p) in Keys(lower, layers[id].packages);
        var i :| 0 <= i < |s.layerIds| && s.layerIds[i] == id;
        assert s.path[i] == layers[id].path;
      }
    }

    /** The part of Resolve that only reads: normalize, choose a base, see what is left. */
    method Plan(packages: seq<Package>) returns (base: Option<Base>, covered: seq<Package>, delta: seq<Package>)
      ensures base.Some? ==> base.value in bases.Values && forall p :: p in covered ==> p in base.value.packages
      ensures base.None? ==> covered == []
      ensures delta == Delta(lower, Canon(lower, packages), Keys(lower, covered))
      ensures Canon(lower, delta) == delta
    {
      var normal := NormalizePackages(lower, packages);
      CanonKeepsNames(lower, packages);
      ghost var winner;
      base, covered, winner := FindBestBase(normal);
      delta := ComputeDelta(normal, covered);
      DeltaSorted(lower, normal, Keys(lower, covered));
    }

    /** The two layers of a stack share out the names of a request. */
    lemma AllProvided(packages: seq<Package>, base: Option<Base>, covered: seq<Package>, delta: seq<Package>, ids: seq<string>)
      requires Backed(lower, layers, bases)
      requires base.Some? ==> base.value in bases.Values && forall p :: p in covered ==> p in base.value.packages
      requires base.None? ==> covered == []
      requires delta == Delta(lower, Canon(lower, packages), Keys(lower, covered))
      requires delta != [] ==> digest(delta) in layers && Canon(lower, layers[digest(delta)].packages) == delta
      requires ids == (if base.Some? then [base.value.layerId] else []) + (if delta == [] then [] else [digest(delta)])
      ensures Serves(lower, digest, layers, ids, packages, delta)
    {
      var normal := Canon(lower, packages);
      CanonKeepsNames(lower, packages);
      forall p | p in packages ensures Provides(lower, layers, ids, Key(lower, p)) {
        assert Key(lower, p) in Keys(lower, normal);
        OneProvided(normal, base, covered, delta, ids, Key(lower, p));
      }
      forall q | q in delta ensures q in layers[digest(delta)].packages {
        FromDelta(delta, q, ids);
      }
    }

    lemma OneProvided(
      normal: seq<Package>, base: Option<Base>, covered: seq<Package>, delta: seq<Package>, ids: seq<string>, k: string)
      requires Backed(lower, layers, bases) && k in Keys(lower, normal)
      requires base.Some? ==> base.value in bases.Values && base.value.layerId in ids
      requires base.Some? ==> forall p :: p in covered ==> p in base.value.packages
      requires base.None? ==> covered == []
      requires forall p :: p in normal && Key(lower, p) !in Keys(lower, covered) ==> p in delta
      requires delta != [] ==>
                 && digest(delta) in ids && digest(delta) in layers
                 && Canon(lower, layers[digest(delta)].packages) == delta
      ensures Provides(lower, layers, ids, k)
    {
      var q :| q in normal && Key(lower, q) == k;
      if q in delta {
        FromDelta(delta, q, ids);
      } else {
        FromBase(base.value, covered, k, ids);
      }
    }

    lemma FromDelta(delta: seq<Package>, q: Package, ids: seq<string>)
      requires q in delta && digest(delta) in ids && digest(delta) in layers
      requires Canon(lower, layers[digest(delta)].packages) == delta
      ensures q in layers[digest(delta)].packages && Provides(lower, layers, ids, Key(lower, q))
    {
      CanonKeepsNames(lower, layers[digest(delta)].packages);
    }

    lemma FromBase(base: Base, covered: seq<Package>, k: string, ids: seq<string>)
      requires Backed(lower, layers, bases) && base in bases.Values && base.layerId in ids
      requires k in Keys(lower, covered) && forall p :: p in covered ==> p in base.packages
      ensures Provides(lower, layers, ids, k)
    {
      var n :| n in bases && bases[n] == base;
      assert k in Keys(lower, base.packages);
    }

    /** RegisterBase. */
    method RegisterBase(b: Base)
      modifies this`bases
      ensures bases == old(bases)[b.name := b]
      ensures old(Valid()) ==>
                (Valid() <==> b.layerId in layers && Keys(lower, b.packages) <= Keys(lower, layers[b.layerId].packages))
    {
      bases := bases[b.name := b];
      assert b.name in bases && bases[b.name] == b;
    }

    /** BuildBase: an existing base with a present layer is left alone. */
    method BuildBase(name: string, packages: seq<Package>, priority: int, now: int, install: Option<(nat, string)>)
      returns (ok: bool)
      modifies this
      ensures old(name in bases && bases[name].layerId in layers) ==>
                ok && layers == old(layers) && bases == old(bases)
      ensures !old(name in bases && bases[name].layerId in layers) ==>
                && ok == install.Some?
                && (!ok ==> layers == old(layers) && bases == old(bases))
                && (ok ==> var id := digest(Canon(lower, packages));
                           && layers == old(layers)[id := Layer(id, packages, install.value.0, now, install.value.1)]
                           && bases == old(bases)[name := Base(name, id, packages, priority)])
      ensures old(Valid()) && NoClash(lower, digest, old(layers), Canon(lower, packages)) ==> Valid()
    {
      if name in bases && bases[name].layerId in layers {
        return true;
      }
      if install.None? {
        return false;
      }
      var id := LayerId(packages);
      layers := layers[id := Layer(id, packages, install.value.0, now, install.value.1)];
      bases := bases[name := Base(name, id, packages, priority)];
      ok := true;
      if old(Valid()) && NoClash(lower, digest, old(layers), Canon(lower, packages)) {
        RebuildBacked(old(layers), old(bases), id, packages);
      }
    }

    /** Replacing a layer by one of the same normal form takes no name away. */
    lemma RebuildBacked(was: map<string, Layer>, basesWere: map<string, Base>, id: string, packages: seq<Package>)
      requires Backed(lower, was, basesWere)
      requires id in layers && layers == was[id := layers[id]] && layers[id].packages == packages
      requires id in was ==> Canon(lower, was[id].packages) == Canon(lower, packages)
      ensures Backed(lower, layers, basesWere)
    {
      if id in was {
        CanonKeepsNames(lower, was[id].packages);
        CanonKeepsNames(lower, packages);
      }
    }

    ghost predicate IsBaseLayer(id: string)
      reads this`bases
    {
      exists n :: n in bases && bases[n].layerId == id
    }

    method BaseLayerIds() returns (ids: set<string>)
      ensures forall id :: id in ids <==> IsBaseLayer(id)
    {
      ids := {};
      var rest := bases.Keys;
      while rest != {}
        invariant rest <= bases.Keys
        invariant forall id :: id in ids <==> exists n :: n in bases && n !in rest && bases[n].layerId == id
        decreases |rest|
      {
        var n :| n in rest;
        rest := rest - {n};
        ids := ids + {bases[n].layerId};
      }
    }

    /**
     GarbageCollect; `stuck` holds the layers whose directory cannot be removed. A layer goes exactly
     when it is old, no base's and removable; the store stays valid and the bytes are accounted for.
     */
    method GarbageCollect(cutoff: int, stuck: set<string>) returns (removed: nat, freed: nat)
      modifies this`layers
      ensures forall id :: id in layers <==>
                             && id in old(layers)
                             && (IsBaseLayer(id) || old(layers)[id].lastUsed >= cutoff || id in stuck)
      ensures forall id :: id in layers ==> layers[id] == old(layers)[id]
      ensures removed + |layers| == old(|layers|)
      ensures freed + TotalSize(layers) == old(TotalSize(layers))
      ensures old(Valid()) ==> Valid()
    {
      var keep := BaseLayerIds();
      removed, freed := 0, 0;
      var rest := layers.Keys;
      while rest != {}
        invariant rest <= layers.Keys <= old(layers).Keys
        invariant forall id :: id in old(layers) && id !in rest ==>
                                 (id in layers <==> id in keep || old(layers)[id].lastUsed >= cutoff || id in stuck)
        invariant forall id :: id in layers ==> layers[id] == old(layers)[id]
        invariant removed + |layers| == |old(layers)|
        invariant freed + TotalSize(layers) == TotalSize(old(layers))
        decreases |rest|
      {
        var id :| id in rest;
        rest := rest - {id};
        if id !in keep && layers[id].lastUsed < cutoff && id !in stuck {
          TotalSizeOf(layers, id);
          freed := freed + layers[id].size;
          removed := removed + 1;
          Removing(layers, id);
          layers := layers - {id};
        }
      }
      assert old(Backed(lower, layers, bases)) ==> forall n :: n in bases ==> IsBaseLayer(bases[n].layerId);
    }
  }

  lemma LessTimes(a: nat, b: nat, m: int)
    requires b * m > 0
    ensures a * m <= b * m ==> a <= b
  {
    if a > b {
      assert a * m == b * m + (a - b) * m;
      assert m > 0;
    }
  }

  lemma Removing(layers: map<string, Layer>, id: string)
    requires id in layers
    ensures |layers - {id}| == |layers| - 1
  {
    assert (layers - {id}).Keys == layers.Keys - {id};
    assert |layers.Keys| == |layers|;
  }
}
