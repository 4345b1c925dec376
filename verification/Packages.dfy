/**
 normalizePackages of pkg/layer/store.go. `lower` stands for strings.ToLower and is arbitrary: nothing
 below depends on which names it identifies.
 */
module Packages {

  datatype Package = Package(name: string, version: string)

  type Lower = string -> string

  function Key(lower: Lower, p: Package): string {
    lower(p.name)
  }

  ghost function Keys(lower: Lower, ps: seq<Package>): set<string> {
    set p | p in ps :: Key(lower, p)
  }

  // ---------------------------------------------------------------- the order of names

  /** Go's `<` on strings. */
  predicate Less(a: string, b: string) {
    b != [] && (a == [] || (if a[0] == b[0] then Less(a[1..], b[1..]) else a[0] < b[0]))
  }

  lemma {:induction false} LessIsTotal(a: string, b: string)
    ensures a == b ==> !Less(a, b)
    ensures a != b ==> Less(a, b) != Less(b, a)
  {
    if a != [] && b != [] && a[0] == b[0] {
      assert a == [a[0]] + a[1..] && b == [b[0]] + b[1..];
      LessIsTotal(a[1..], b[1..]);
    }
  }

  lemma {:induction false} LessIsTransitive(a: string, b: string, c: string)
    requires Less(a, b) && Less(b, c)
    ensures Less(a, c)
  {
    if a != [] && a[0] == b[0] == c[0] {
      LessIsTransitive(a[1..], b[1..], c[1..]);
    }
  }

  /** Dictionary order: what is less is a proper prefix, or has the smaller character at the first difference. */
  lemma {:induction false} LessMeaning(a: string, b: string, k: nat)
    requires k <= |a| && k <= |b| && a[..k] == b[..k] && (k < |a| && k < |b| ==> a[k] != b[k])
    ensures Less(a, b) <==> k < |b| && (k == |a| || a[k] < b[k])
    decreases k
  {
    if k > 0 {
      assert a[0] == a[..k][0] == b[0];
      assert a[1..][..k - 1] == a[..k][1..] == b[1..][..k - 1];
      LessMeaning(a[1..], b[1..], k - 1);
    }
  }

  predicate Sorted(lower: Lower, ps: seq<Package>) {
    forall i, j :: 0 <= i < j < |ps| ==> Less(Key(lower, ps[i]), Key(lower, ps[j]))
  }

  predicate Distinct(lower: Lower, ps: seq<Package>) {
    forall i, j :: 0 <= i < j < |ps| ==> Key(lower, ps[i]) != Key(lower, ps[j])
  }

  lemma SortedIsDistinct(lower: Lower, ps: seq<Package>)
    requires Sorted(lower, ps)
    ensures Distinct(lower, ps)
  {
    forall i, j | 0 <= i < j < |ps| ensures Key(lower, ps[i]) != Key(lower, ps[j]) {
      LessIsTotal(Key(lower, ps[i]), Key(lower, ps[j]));
    }
  }

  /** A set of packages has at most one sorted listing. */
  lemma {:induction false} SortedUnique(lower: Lower, a: seq<Package>, b: seq<Package>)
    requires Sorted(lower, a) && Sorted(lower, b)
    requires forall p :: p in a <==> p in b
    ensures a == b
    decreases |a|
  {
    assert b != [] ==> b[0] in b;
    assert a != [] ==> a[0] in a;
    if a != [] {
      SortedIsDistinct(lower, a);
      SortedIsDistinct(lower, b);
      HeadsAgree(lower, a, b);
      forall p ensures p in a[1..] <==> p in b[1..] {
        HeadOnly(lower, a, p);
        HeadOnly(lower, b, p);
      }
      SortedUnique(lower, a[1..], b[1..]);
      assert a == [a[0]] + a[1..] && b == [b[0]] + b[1..];
    }
  }

  lemma HeadsAgree(lower: Lower, a: seq<Package>, b: seq<Package>)
    requires Sorted(lower, a) && Sorted(lower, b) && a != [] && b != []
    requires forall p :: p in a <==> p in b
    ensures a[0] == b[0]
  {
    assert a[0] in b && b[0] in a;
    var i :| 0 <= i < |b| && b[i] == a[0];
    var j :| 0 <= j < |a| && a[j] == b[0];
    LessIsTotal(Key(lower, a[0]), Key(lower, b[0]));
  }

  // ---------------------------------------------------------------- duplicates

  /** An earlier package gives way only to one that brings a version it lacks. */
  function Prefer(existing: Package, p: Package): Package {
    if p.version != "" && existing.version == "" then p else existing
  }

  function Note(lower: Lower, m: map<string, Package>, p: Package): map<string, Package> {
    var k := Key(lower, p);
    m[k := if k in m then Prefer(m[k], p) else p]
  }

  /** The map `seen` after the first loop. */
  function Seen(lower: Lower, ps: seq<Package>): map<string, Package> {
    if ps == [] then map[] else Note(lower, Seen(lower, ps[..|ps| - 1]), ps[|ps| - 1])
  }

  /** What a package must be to represent its name: versioned, unless no package of that name is. */
  ghost predicate Candidate(lower: Lower, ps: seq<Package>, p: Package) {
    p in ps && (p.version == "" ==> forall q :: q in ps && Key(lower, q) == Key(lower, p) ==> q.version == "")
  }

  lemma {:induction false} SeenIsCandidate(lower: Lower, ps: seq<Package>)
    ensures Seen(lower, ps).Keys == Keys(lower, ps)
    ensures forall k :: k in Seen(lower, ps) ==>
                          Candidate(lower, ps, Seen(lower, ps)[k]) && Key(lower, Seen(lower, ps)[k]) == k
  {
    if ps != [] {
      var init, p := ps[..|ps| - 1], ps[|ps| - 1];
      assert ps == init + [p];
      SeenIsCandidate(lower, init);
      assert Keys(lower, ps) == Keys(lower, init) + {Key(lower, p)};
      NoteIsCandidate(lower, init, p, Seen(lower, init));
    }
  }

  lemma NoteIsCandidate(lower: Lower, init: seq<Package>, p: Package, m: map<string, Package>)
    requires m.Keys == Keys(lower, init)
    requires forall k :: k in m ==> Candidate(lower, init, m[k]) && Key(lower, m[k]) == k
    ensures
      var m' := Note(lower, m, p);
      forall k :: k in m' ==> Candidate(lower, init + [p], m'[k]) && Key(lower, m'[k]) == k
  {
    var m' := Note(lower, m, p);
    forall k | k in m' ensures Candidate(lower, init + [p], m'[k]) && Key(lower, m'[k]) == k {
      if k in m {
        assert Candidate(lower, init, m[k]);
      }
    }
  }

  lemma NoteKeeps(lower: Lower, m: map<string, Package>, ps: seq<Package>, p: Package, c: Package)
    requires Candidate(lower, ps, c) && p in ps && Key(lower, c) in m && m[Key(lower, c)] == c
    ensures Key(lower, c) in Note(lower, m, p) && Note(lower, m, p)[Key(lower, c)] == c
  {
  }

  /** A candidate that comes first is the one kept. */
  lemma {:induction false} FirstWins(lower: Lower, ps: seq<Package>)
    requires ps != [] && Candidate(lower, ps, ps[0])
    ensures Key(lower, ps[0]) in Seen(lower, ps) && Seen(lower, ps)[Key(lower, ps[0])] == ps[0]
  {
    var init := ps[..|ps| - 1];
    assert ps == init + [ps[|ps| - 1]];
    if init != [] {
      assert forall q :: q in init ==> q in ps;
      assert init[0] in init;
      FirstWins(lower, init);
      NoteKeeps(lower, Seen(lower, init), ps, ps[|ps| - 1], ps[0]);
    }
  }

  // ---------------------------------------------------------------- the canonical form

  /** Put `p` at its place in a sorted list, resolving a duplicate as `seen` does. */
  function Place(lower: Lower, s: seq<Package>, p: Package): seq<Package> {
    if s == [] then [p]
    else if Key(lower, s[0]) == Key(lower, p) then [Prefer(s[0], p)] + s[1..]
    else if Less(Key(lower, p), Key(lower, s[0])) then [p] + s
    else [s[0]] + Place(lower, s[1..], p)
  }

  /** The normal form of a package list, one package at a time. */
  function Canon(lower: Lower, ps: seq<Package>): seq<Package> {
    if ps == [] then [] else Place(lower, Canon(lower, ps[..|ps| - 1]), ps[|ps| - 1])
  }

  /** `s` is the sorted listing of the values of `m`. */
  ghost predicate Listing(lower: Lower, s: seq<Package>, m: map<string, Package>) {
    && Sorted(lower, s)
    && forall p :: p in s <==> Key(lower, p) in m && m[Key(lower, p)] == p
  }

  ghost predicate Keyed(lower: Lower, m: map<string, Package>) {
    forall k :: k in m ==> Key(lower, m[k]) == k
  }

  lemma ListingKeys(lower: Lower, s: seq<Package>, m: map<string, Package>)
    requires Listing(lower, s, m) && Keyed(lower, m)
    ensures m.Keys == Keys(lower, s)
  {
    forall k | k in m ensures k in Keys(lower, s) {
      assert m[k] in s;
    }
  }

  lemma PlaceOnHead(lower: Lower, s: seq<Package>, p: Package, m: map<string, Package>)
    requires Listing(lower, s, m) && Keyed(lower, m) && s != [] && Key(lower, s[0]) == Key(lower, p)
    ensures Listing(lower, Place(lower, s, p), Note(lower, m, p))
  {
    SortedIsDistinct(lower, s);
    var t, m' := Place(lower, s, p), Note(lower, m, p);
    assert s[0] in s;
    assert t == [Prefer(s[0], p)] + s[1..];
    assert forall i :: 0 <= i < |t| ==> Key(lower, t[i]) == Key(lower, s[i]);
    forall q ensures q in t <==> Key(lower, q) in m' && m'[Key(lower, q)] == q {
      HeadOnly(lower, s, q);
      assert q in t <==> q == t[0] || q in s[1..];
    }
  }

  lemma PlaceBefore(lower: Lower, s: seq<Package>, p: Package, m: map<string, Package>)
    requires Listing(lower, s, m) && Keyed(lower, m) && s != [] && Less(Key(lower, p), Key(lower, s[0]))
    ensures Listing(lower, [p] + s, Note(lower, m, p))
  {
    var k, m' := Key(lower, p), Note(lower, m, p);
    InFront(lower, s, p);
    ListingKeys(lower, s, m);
    forall q ensures q in [p] + s <==> Key(lower, q) in m' && m'[Key(lower, q)] == q {
      assert q in [p] + s <==> q == p || q in s;
    }
  }

  /** A listing without its head lists the map without the head's key. */
  lemma ListingTail(lower: Lower, s: seq<Package>, m: map<string, Package>)
    requires Listing(lower, s, m) && s != []
    ensures Listing(lower, s[1..], m - {Key(lower, s[0])})
  {
    SortedIsDistinct(lower, s);
    var m' := m - {Key(lower, s[0])};
    forall q ensures q in s[1..] <==> Key(lower, q) in m' && m'[Key(lower, q)] == q {
      HeadOnly(lower, s, q);
    }
  }

  /** And a head below everything in a listing adds itself. */
  lemma ListingCons(lower: Lower, h: Package, t: seq<Package>, m: map<string, Package>)
    requires Listing(lower, t, m) && Key(lower, h) !in m
    requires forall q :: q in t ==> Less(Key(lower, h), Key(lower, q))
    ensures Listing(lower, [h] + t, m[Key(lower, h) := h])
  {
    var m' := m[Key(lower, h) := h];
    forall q ensures q in [h] + t <==> Key(lower, q) in m' && m'[Key(lower, q)] == q {
      assert q in [h] + t <==> q == h || q in t;
    }
  }

  lemma HeadIsLeast(lower: Lower, s: seq<Package>, q: Package)
    requires Sorted(lower, s) && s != [] && q in s[1..]
    ensures Less(Key(lower, s[0]), Key(lower, q))
  {
    var i :| 0 <= i < |s| - 1 && s[1..][i] == q;
    assert s[i + 1] == q;
  }

  lemma PlaceAfter(lower: Lower, s: seq<Package>, t: seq<Package>, p: Package, m: map<string, Package>)
    requires Listing(lower, s, m) && s != []
    requires Key(lower, s[0]) != Key(lower, p) && !Less(Key(lower, p), Key(lower, s[0]))
    requires Listing(lower, t, Note(lower, m - {Key(lower, s[0])}, p))
    ensures Listing(lower, [s[0]] + t, Note(lower, m, p))
  {
    var h := s[0];
    var m' := m - {Key(lower, h)};
    assert h in s;
    ListingTail(lower, s, m);
    forall q | q in t ensures Less(Key(lower, h), Key(lower, q)) {
      LessIsTotal(Key(lower, h), Key(lower, p));
      if Key(lower, q) != Key(lower, p) {
        assert q in s[1..];
        HeadIsLeast(lower, s, q);
      }
    }
    ListingCons(lower, h, t, Note(lower, m', p));
    assert Note(lower, m', p)[Key(lower, h) := h] == Note(lower, m, p);
  }

  /** Placing keeps the list sorted and changes only what stands under the key of `p`. */
  lemma {:induction false} PlaceMembers(lower: Lower, s: seq<Package>, p: Package, m: map<string, Package>)
    requires Listing(lower, s, m) && Keyed(lower, m)
    ensures Listing(lower, Place(lower, s, p), Note(lower, m, p))
  {
    var k := Key(lower, p);
    if s == [] {
      ListingKeys(lower, s, m);
      assert m == map[];
    } else if Key(lower, s[0]) == k {
      PlaceOnHead(lower, s, p, m);
    } else if Less(k, Key(lower, s[0])) {
      PlaceBefore(lower, s, p, m);
    } else {
      var m' := m - {Key(lower, s[0])};
      ListingTail(lower, s, m);
      PlaceMembers(lower, s[1..], p, m');
      PlaceAfter(lower, s, Place(lower, s[1..], p), p, m);
    }
  }

  lemma HeadOnly(lower: Lower, s: seq<Package>, q: Package)
    requires Distinct(lower, s) && s != []
    ensures q in s[1..] <==> q in s && Key(lower, q) != Key(lower, s[0])
  {
    assert s == [s[0]] + s[1..];
    if q in s[1..] {
      var i :| 0 <= i < |s| - 1 && s[1..][i] == q;
      assert s[i + 1] == q;
    }
  }

  lemma InFront(lower: Lower, s: seq<Package>, p: Package)
    requires Sorted(lower, s) && s != [] && Less(Key(lower, p), Key(lower, s[0]))
    ensures Sorted(lower, [p] + s)
    ensures forall q :: q in s ==> Key(lower, q) != Key(lower, p)
  {
    forall i | 0 <= i < |s| ensures Less(Key(lower, p), Key(lower, s[i])) {
      if i > 0 {
        LessIsTransitive(Key(lower, p), Key(lower, s[0]), Key(lower, s[i]));
      }
    }
    forall q | q in s ensures Key(lower, q) != Key(lower, p) {
      LessIsTotal(Key(lower, q), Key(lower, p));
    }
  }

  lemma {:induction false} CanonLists(lower: Lower, ps: seq<Package>)
    ensures Listing(lower, Canon(lower, ps), Seen(lower, ps))
  {
    if ps != [] {
      CanonLists(lower, ps[..|ps| - 1]);
      SeenIsCandidate(lower, ps[..|ps| - 1]);
      PlaceMembers(lower, Canon(lower, ps[..|ps| - 1]), ps[|ps| - 1], Seen(lower, ps[..|ps| - 1]));
    }
  }

  /** The form is sorted, has every requested name and only requested packages. */
  lemma CanonKeepsNames(lower: Lower, ps: seq<Package>)
    ensures Sorted(lower, Canon(lower, ps))
    ensures Keys(lower, Canon(lower, ps)) == Keys(lower, ps)
    ensures forall p :: p in Canon(lower, ps) ==> Candidate(lower, ps, p)
  {
    CanonLists(lower, ps);
    SeenIsCandidate(lower, ps);
    var m, c := Seen(lower, ps), Canon(lower, ps);
    forall k | k in m ensures k in Keys(lower, c) {
      assert m[k] in c;
    }
  }

  /** Equal maps are equal forms, and conversely. */
  lemma CanonIsSeen(lower: Lower, xs: seq<Package>, ys: seq<Package>)
    ensures Canon(lower, xs) == Canon(lower, ys) <==> Seen(lower, xs) == Seen(lower, ys)
  {
    CanonLists(lower, xs);
    CanonLists(lower, ys);
    if Seen(lower, xs) == Seen(lower, ys) {
      SortedUnique(lower, Canon(lower, xs), Canon(lower, ys));
    }
    if Canon(lower, xs) == Canon(lower, ys) {
      SeenIncluded(lower, xs, ys);
      SeenIncluded(lower, ys, xs);
      assert Seen(lower, xs).Keys == Seen(lower, ys).Keys;
    }
  }

  lemma SeenIncluded(lower: Lower, xs: seq<Package>, ys: seq<Package>)
    requires Canon(lower, xs) == Canon(lower, ys)
    ensures forall k :: k in Seen(lower, xs) ==> k in Seen(lower, ys) && Seen(lower, xs)[k] == Seen(lower, ys)[k]
  {
    CanonLists(lower, xs);
    CanonLists(lower, ys);
    SeenIsCandidate(lower, xs);
    forall k | k in Seen(lower, xs)
      ensures k in Seen(lower, ys) && Seen(lower, xs)[k] == Seen(lower, ys)[k]
    {
      assert Seen(lower, xs)[k] in Canon(lower, xs);
    }
  }

  /** Normalizing a sorted list changes nothing, so normalizing twice is normalizing once. */
  lemma CanonOfSorted(lower: Lower, s: seq<Package>)
    requires Sorted(lower, s)
    ensures Canon(lower, s) == s
  {
    SortedIsDistinct(lower, s);
    CanonKeepsNames(lower, s);
    forall p ensures p in s <==> p in Canon(lower, s) {
      SameByName(lower, s, Canon(lower, s), p);
    }
    SortedUnique(lower, Canon(lower, s), s);
  }

  /** A list with distinct names has no other sublist with all its names. */
  lemma SameByName(lower: Lower, s: seq<Package>, c: seq<Package>, p: Package)
    requires Distinct(lower, s) && Keys(lower, c) == Keys(lower, s) && forall q :: q in c ==> q in s
    ensures p in s <==> p in c
  {
    if p in s {
      assert Key(lower, p) in Keys(lower, c);
      var q :| q in c && Key(lower, q) == Key(lower, p);
      OneOfAName(lower, s, p, q);
    }
  }

  lemma OneOfAName(lower: Lower, s: seq<Package>, p: Package, q: Package)
    requires Distinct(lower, s) && p in s && q in s && Key(lower, p) == Key(lower, q)
    ensures p == q
  {
  }

  // ---------------------------------------------------------------- order independence

  /** Each name has one package that can represent it. */
  ghost predicate Unambiguous(lower: Lower, ps: seq<Package>) {
    forall p, q :: Candidate(lower, ps, p) && Candidate(lower, ps, q) && Key(lower, p) == Key(lower, q) ==> p == q
  }

  ghost predicate SameItems(xs: seq<Package>, ys: seq<Package>) {
    multiset(xs) == multiset(ys)
  }

  ghost predicate OrderFree(lower: Lower, ps: seq<Package>) {
    forall ys :: SameItems(ps, ys) ==> Canon(lower, ys) == Canon(lower, ps)
  }

  lemma SameMembers(xs: seq<Package>, ys: seq<Package>, p: Package)
    requires SameItems(xs, ys)
    ensures p in xs <==> p in ys
  {
    assert p in multiset(xs) <==> p in multiset(ys);
  }

  lemma UnambiguousIsOrderFree(lower: Lower, xs: seq<Package>, ys: seq<Package>)
    requires Unambiguous(lower, xs)
    requires forall p :: p in xs <==> p in ys
    ensures Canon(lower, xs) == Canon(lower, ys)
  {
    SeenIsCandidate(lower, xs);
    SeenIsCandidate(lower, ys);
    var mx, my := Seen(lower, xs), Seen(lower, ys);
    assert Keys(lower, xs) == Keys(lower, ys);
    forall k | k in mx ensures mx[k] == my[k] {
      assert Candidate(lower, xs, mx[k]) && Candidate(lower, ys, my[k]) && Candidate(lower, xs, my[k]);
    }
    assert mx == my;
    CanonIsSeen(lower, xs, ys);
  }

  /** Bring a package to the front. */
  lemma ToFront(lower: Lower, ps: seq<Package>, p: Package) returns (ys: seq<Package>)
    requires Candidate(lower, ps, p)
    ensures SameItems(ps, ys)
    ensures Key(lower, p) in Seen(lower, ys) && Seen(lower, ys)[Key(lower, p)] == p
  {
    var i :| 0 <= i < |ps| && ps[i] == p;
    ys := [p] + ps[..i] + ps[i + 1..];
    assert ps == ps[..i] + [p] + ps[i + 1..];
    assert SameItems(ps, ys);
    forall q ensures q in ps <==> q in ys {
      SameMembers(ps, ys, q);
    }
    FirstWins(lower, ys);
  }

  /** The normal form ignores the order of the request exactly when no name is ambiguous. */
  lemma OrderFreeIff(lower: Lower, ps: seq<Package>)
    ensures OrderFree(lower, ps) <==> Unambiguous(lower, ps)
  {
    if Unambiguous(lower, ps) {
      forall ys | SameItems(ps, ys) ensures Canon(lower, ys) == Canon(lower, ps) {
        forall p ensures p in ps <==> p in ys {
          SameMembers(ps, ys, p);
        }
        UnambiguousIsOrderFree(lower, ps, ys);
      }
    }
    if OrderFree(lower, ps) {
      forall p, q | Candidate(lower, ps, p) && Candidate(lower, ps, q) && Key(lower, p) == Key(lower, q)
        ensures p == q
      {
        var xs := ToFront(lower, ps, p);
        var ys := ToFront(lower, ps, q);
        assert Canon(lower, xs) == Canon(lower, ps) == Canon(lower, ys);
        CanonIsSeen(lower, xs, ys);
      }
    }
  }

  /** Two versions of one name: the order of the request decides which one is installed. */
  lemma OrderMattersExample(lower: Lower)
    ensures
      var one, two := Package("numpy", "1"), Package("numpy", "2");
      !OrderFree(lower, [one, two]) && Canon(lower, [one, two]) == [one] && Canon(lower, [two, one]) == [two]
  {
    var one, two := Package("numpy", "1"), Package("numpy", "2");
    TwoVersions(lower, one, two);
    TwoVersions(lower, two, one);
    assert SameItems([one, two], [two, one]);
  }

  lemma TwoVersions(lower: Lower, p: Package, q: Package)
    requires p.name == q.name && p.version != ""
    ensures Canon(lower, [p, q]) == [p]
  {
    assert [p, q][..1] == [p] && [p][..0] == [];
    assert Canon(lower, [p]) == Place(lower, [], p) == [p];
    assert Canon(lower, [p, q]) == Place(lower, [p], q) == [Prefer(p, q)] + [];
  }

  /** In particular for a request whose lower-cased names are distinct. */
  lemma DistinctIsOrderFree(lower: Lower, ps: seq<Package>)
    requires Distinct(lower, ps)
    ensures OrderFree(lower, ps)
    ensures SameItems(ps, Canon(lower, ps))
  {
    forall p, q | p in ps && q in ps && Key(lower, p) == Key(lower, q) ensures p == q {
      OneOfAName(lower, ps, p, q);
    }
    OrderFreeIff(lower, ps);
    CanonKeepsNames(lower, ps);
    var c := Canon(lower, ps);
    forall p ensures p in ps <==> p in c {
      SameByName(lower, ps, c, p);
    }
    SortedIsDistinct(lower, c);
    SameMultiset(lower, ps, c);
  }

  lemma {:induction false} SameMultiset(lower: Lower, xs: seq<Package>, ys: seq<Package>)
    requires Distinct(lower, xs) && Distinct(lower, ys) && forall p :: p in xs <==> p in ys
    ensures SameItems(xs, ys)
  {
    forall p ensures multiset(xs)[p] == multiset(ys)[p] {
      AtMostOnce(lower, xs, p);
      AtMostOnce(lower, ys, p);
      assert p in xs <==> p in multiset(xs);
      assert p in ys <==> p in multiset(ys);
    }
  }

  lemma {:induction false} AtMostOnce(lower: Lower, xs: seq<Package>, p: Package)
    requires Distinct(lower, xs)
    ensures multiset(xs)[p] <= 1
  {
    if xs != [] {
      assert xs == [xs[0]] + xs[1..];
      AtMostOnce(lower, xs[1..], p);
      HeadOnly(lower, xs, xs[0]);
      assert xs[0] in multiset(xs[1..]) <==> xs[0] in xs[1..];
    }
  }

  // ---------------------------------------------------------------- the code

  /** sort.Slice by lower-cased name: a listing in order of the same packages. */
  function SortByName(lower: Lower, ps: seq<Package>): (r: seq<Package>)
    ensures multiset(r) == multiset(ps)
  {
    if ps == [] then []
    else
      assert ps == [ps[0]] + ps[1..];
      InsertByName(lower, ps[0], SortByName(lower, ps[1..]))
  }

  function InsertByName(lower: Lower, p: Package, s: seq<Package>): (r: seq<Package>)
    ensures multiset(r) == multiset([p]) + multiset(s)
  {
    if s == [] || Less(Key(lower, p), Key(lower, s[0])) then [p] + s
    else
      assert s == [s[0]] + s[1..];
      [s[0]] + InsertByName(lower, p, s[1..])
  }

  lemma {:induction false} InsertSorted(lower: Lower, p: Package, s: seq<Package>)
    requires Sorted(lower, s) && forall q :: q in s ==> Key(lower, q) != Key(lower, p)
    ensures Sorted(lower, InsertByName(lower, p, s))
  {
    if s != [] {
      if Less(Key(lower, p), Key(lower, s[0])) {
        InFront(lower, s, p);
      } else {
        InsertSorted(lower, p, s[1..]);
        var t := InsertByName(lower, p, s[1..]);
        forall i | 0 <= i < |t| ensures Less(Key(lower, s[0]), Key(lower, t[i])) {
          assert t[i] in multiset(t);
          assert s[0] in s;
          LessIsTotal(Key(lower, s[0]), Key(lower, p));
        }
      }
    }
  }

  lemma {:induction false} SortSorted(lower: Lower, ps: seq<Package>)
    requires Distinct(lower, ps)
    ensures Sorted(lower, SortByName(lower, ps))
  {
    if ps != [] {
      SortSorted(lower, ps[1..]);
      var s := SortByName(lower, ps[1..]);
      forall q | q in s ensures Key(lower, q) != Key(lower, ps[0]) {
        assert q in multiset(s);
        assert q in ps[1..];
        HeadOnly(lower, ps, q);
      }
      InsertSorted(lower, ps[0], s);
    }
  }

  /** The first loop of normalizePackages. */
  method Collect(lower: Lower, packages: seq<Package>) returns (seen: map<string, Package>)
    ensures seen == Seen(lower, packages)
  {
    seen := map[];
    for i := 0 to |packages|
      invariant seen == Seen(lower, packages[..i])
    {
      assert packages[..i + 1][..i] == packages[..i];
      var p := packages[i];
      var key := Key(lower, p);
      if key in seen {
        if p.version != "" && seen[key].version == "" {
          seen := seen[key := p];
        }
      } else {
        seen := seen[key := p];
      }
    }
    assert packages[..|packages|] == packages;
  }

  /** The second loop: the values of the map, in whatever order the map gives. */
  method Values(lower: Lower, seen: map<string, Package>) returns (result: seq<Package>)
    requires Keyed(lower, seen)
    ensures forall p :: p in result <==> Key(lower, p) in seen && seen[Key(lower, p)] == p
    ensures Distinct(lower, result)
  {
    result := [];
    var rest := seen.Keys;
    while rest != {}
      invariant rest <= seen.Keys
      invariant forall p :: p in result <==> Key(lower, p) in seen.Keys - rest && seen[Key(lower, p)] == p
      invariant Distinct(lower, result)
      decreases |rest|
    {
      var k :| k in rest;
      rest := rest - {k};
      result := result + [seen[k]];
    }
  }

  /** normalizePackages: fill the map, list it, sort. */
  method NormalizePackages(lower: Lower, packages: seq<Package>) returns (result: seq<Package>)
    ensures result == Canon(lower, packages)
  {
    var seen := Collect(lower, packages);
    SeenIsCandidate(lower, packages);
    var listed := Values(lower, seen);
    result := SortByName(lower, listed);
    SortSorted(lower, listed);
    forall p ensures p in result <==> p in listed {
      SameMembers(result, listed, p);
    }
    CanonLists(lower, packages);
    SortedUnique(lower, result, Canon(lower, packages));
  }
}
