/**
 The format of raft.log: one frame per entry, a 4-byte little-endian length followed by the bytes of the
 marshalled entry. Marshalling itself is abstract: `enc` and `dec` stand for json.Marshal and
 json.Unmarshal. The length is written as a 32-bit number, so that of a longer entry wraps around.
 */
module LogFile {
  import opened RaftTypes

  datatype Codec = Codec(enc: Entry -> seq<Byte>, dec: seq<Byte> -> Option<Entry>)

  const LENGTH_LIMIT: nat := 0x1_0000_0000

  /** Unmarshalling undoes marshalling. */
  ghost predicate Faithful(c: Codec) {
    forall e :: c.dec(c.enc(e)) == Some(e)
  }

  /** The length of the entry survives the conversion to 32 bits. */
  predicate Fits(c: Codec, e: Entry) {
    |c.enc(e)| < LENGTH_LIMIT
  }

  predicate AllFit(c: Codec, es: seq<Entry>) {
    forall e | e in es :: Fits(c, e)
  }

  // ----- the length prefix -----

  /** binary.Write of uint32(n). */
  function PutLength(n: nat): (b: seq<Byte>)
    ensures |b| == 4
  {
    [n % 256, n / 256 % 256, n / 65536 % 256, n / 16777216 % 256]
  }

  function GetLength(b: seq<Byte>): (n: nat)
    requires |b| == 4
    ensures n < LENGTH_LIMIT
  {
    var b0: int, b1: int, b2: int, b3: int := b[0], b[1], b[2], b[3];
    b0 + 256 * b1 + 65536 * b2 + 16777216 * b3
  }

  /** A length reads back modulo 2^32. */
  lemma LengthRoundTrip(n: nat)
    ensures GetLength(PutLength(n)) == n % LENGTH_LIMIT
  {
    var a, b, d := n / 256, n / 65536, n / 16777216;
    assert n == 256 * a + n % 256;
    assert a == 256 * b + a % 256;
    assert b == 256 * d + b % 256;
    assert d == 256 * (d / 256) + d % 256;
    WrapsTo(n, GetLength(PutLength(n)), d / 256);
  }

  /** The low byte comes first: the others are the length of what remains after dividing by 256. */
  lemma LowByteFirst(b: seq<Byte>)
    requires |b| == 4
    ensures GetLength(b) % 256 == b[0] && GetLength(b) / 256 == GetLength(b[1..] + [0])
  {
    var rest := b[1..] + [0];
    assert rest[0] == b[1] && rest[1] == b[2] && rest[2] == b[3] && rest[3] == 0;
    assert GetLength(b) == b[0] + 256 * GetLength(rest);
  }

  lemma WrapsTo(n: nat, r: nat, q: nat)
    requires r < LENGTH_LIMIT && n == LENGTH_LIMIT * q + r
    ensures n % LENGTH_LIMIT == r
  {
  }

  // ----- frames -----

  function Frame(c: Codec, e: Entry): seq<Byte> {
    PutLength(|c.enc(e)|) + c.enc(e)
  }

  function Encode(c: Codec, es: seq<Entry>): seq<Byte> {
    if es == [] then [] else Frame(c, es[0]) + Encode(c, es[1..])
  }

  lemma {:induction false} EncodeInParts(c: Codec, a: seq<Entry>, b: seq<Entry>)
    ensures Encode(c, a + b) == Encode(c, a) + Encode(c, b)
  {
    if a == [] {
      assert a + b == b;
    } else {
      assert (a + b)[1..] == a[1..] + b;
      EncodeInParts(c, a[1..], b);
    }
  }

  lemma EncodeNext(c: Codec, es: seq<Entry>, i: nat)
    requires i < |es|
    ensures Encode(c, es[..i + 1]) == Encode(c, es[..i]) + Frame(c, es[i])
  {
    assert es[..i + 1] == es[..i] + [es[i]];
    EncodeInParts(c, es[..i], [es[i]]);
    assert Encode(c, [es[i]]) == Frame(c, es[i]);
  }

  /** The outcome of reading one frame from the front of a file. */
  datatype FrameResult = End | Bad | Read(entry: Entry, size: nat)

  function ReadFrame(c: Codec, file: seq<Byte>): (r: FrameResult)
    ensures r.Read? ==> 4 <= r.size <= |file|
  {
    if |file| == 0 then End
    else if |file| < 4 then Bad
    else
      var n := GetLength(file[..4]);
      if |file| - 4 < n then Bad
      else match c.dec(file[4..4 + n])
           case None => Bad
           case Some(e) => Read(e, 4 + n)
  }

  /** load(): all entries of a file, or None where the source reports an error. */
  function Load(c: Codec, file: seq<Byte>): Option<seq<Entry>>
    decreases |file|
  {
    match ReadFrame(c, file)
    case End => Some([])
    case Bad => None
    case Read(e, n) =>
      Prepend([e], Load(c, file[n..]))
  }

  function Prepend(es: seq<Entry>, r: Option<seq<Entry>>): Option<seq<Entry>> {
    match r
    case None => None
    case Some(more) => Some(es + more)
  }

  lemma PrependTwice(a: seq<Entry>, b: seq<Entry>, r: Option<seq<Entry>>)
    ensures Prepend(a, Prepend(b, r)) == Prepend(a + b, r)
    ensures Prepend([], r) == r
  {
    if r.Some? {
      assert a + (b + r.value) == (a + b) + r.value;
      assert [] + r.value == r.value;
    }
  }

  /** What is read depends on the length in front and the bytes behind it. */
  lemma ReadsByLength(c: Codec, head: seq<Byte>, n: nat, tail: seq<Byte>)
    requires |head| == 4 && GetLength(head) == n
    ensures ReadFrame(c, head + tail) ==
            if |tail| < n || c.dec(tail[..n]).None? then Bad else Read(c.dec(tail[..n]).value, 4 + n)
  {
    var file := head + tail;
    assert file[..4] == head;
    if n <= |tail| {
      assert file[4..4 + n] == tail[..n];
    }
  }

  lemma FitsOrWraps(n: nat)
    ensures n < LENGTH_LIMIT ==> n % LENGTH_LIMIT == n
    ensures n >= LENGTH_LIMIT ==> n % LENGTH_LIMIT < n
  {
  }

  /** The same for what is left of a frame and anything behind it. */
  lemma ReadsFrame(c: Codec, e: Entry, tail: seq<Byte>)
    ensures
      var n := |c.enc(e)| % LENGTH_LIMIT;
      ReadFrame(c, PutLength(|c.enc(e)|) + tail) ==
      if |tail| < n || c.dec(tail[..n]).None? then Bad else Read(c.dec(tail[..n]).value, 4 + n)
  {
    LengthRoundTrip(|c.enc(e)|);
    ReadsByLength(c, PutLength(|c.enc(e)|), |c.enc(e)| % LENGTH_LIMIT, tail);
  }

  /** A frame reads back, whatever follows it, exactly when its entry fits. */
  lemma ReadsOwnFrameIff(c: Codec, e: Entry, rest: seq<Byte>)
    requires Faithful(c)
    ensures ReadFrame(c, Frame(c, e) + rest) == Read(e, |Frame(c, e)|) <==> Fits(c, e)
  {
    var data := c.enc(e);
    assert Frame(c, e) + rest == PutLength(|data|) + (data + rest);
    ReadsFrame(c, e, data + rest);
    FitsOrWraps(|data|);
    assert (data + rest)[..|data|] == data;
  }

  /** Reading back what was written, with anything behind it. */
  lemma {:induction false} LoadEncoded(c: Codec, es: seq<Entry>, rest: seq<Byte>)
    requires Faithful(c) && AllFit(c, es)
    ensures Load(c, Encode(c, es) + rest) == Prepend(es, Load(c, rest))
  {
    if es == [] {
      assert Encode(c, es) + rest == rest;
      PrependTwice([], [], Load(c, rest));
    } else {
      var f, tail := Frame(c, es[0]), Encode(c, es[1..]) + rest;
      assert Encode(c, es) + rest == f + tail;
      ReadsOwnFrameIff(c, es[0], tail);
      assert (f + tail)[|f|..] == tail;
      LoadEncoded(c, es[1..], rest);
      PrependTwice([es[0]], es[1..], Load(c, rest));
      assert [es[0]] + es[1..] == es;
    }
  }

  lemma LoadRoundTrip(c: Codec, es: seq<Entry>)
    requires Faithful(c) && AllFit(c, es)
    ensures Load(c, Encode(c, es)) == Some(es)
  {
    LoadEncoded(c, es, []);
    assert Encode(c, es) + [] == Encode(c, es);
    assert es + [] == es;
  }

  /** A loadable file stays loadable when more is appended to it, and its entries come first. */
  lemma {:induction false} LoadThenMore(c: Codec, a: seq<Byte>, b: seq<Byte>)
    requires Load(c, a).Some?
    ensures Load(c, a + b) == Prepend(Load(c, a).value, Load(c, b))
    decreases |a|
  {
    if a == [] {
      assert a + b == b;
      PrependTwice([], [], Load(c, b));
    } else {
      var n := GetLength(a[..4]);
      assert (a + b)[..4] == a[..4] && (a + b)[4..4 + n] == a[4..4 + n];
      assert (a + b)[4 + n..] == a[4 + n..] + b;
      var r := ReadFrame(c, a);
      LoadThenMore(c, a[r.size..], b);
      PrependTwice([r.entry], Load(c, a[r.size..]).value, Load(c, b));
    }
  }

  /** A frame by itself loads to its entry exactly when the entry fits: otherwise bytes are left over. */
  lemma LoadFrameIff(c: Codec, e: Entry)
    requires Faithful(c)
    ensures Load(c, Frame(c, e)) == Some([e]) <==> Fits(c, e)
  {
    var f := Frame(c, e);
    assert f + [] == f;
    ReadsOwnFrameIff(c, e, []);
    if Fits(c, e) {
      assert f[|f|..] == [];
      assert [e] + [] == [e];
    } else {
      ReadsFrame(c, e, c.enc(e));
      FitsOrWraps(|c.enc(e)|);
      var r := ReadFrame(c, f);
      if r.Read? {
        NothingFromNothing(c, f[r.size..]);
      }
    }
  }

  lemma NothingFromNothing(c: Codec, file: seq<Byte>)
    ensures Load(c, file) == Some([]) <==> file == []
  {
  }

  lemma PrependIsInjective(a: seq<Entry>, b: seq<Entry>, r: Option<seq<Entry>>)
    ensures Prepend(a, r) == Some(a + b) <==> r == Some(b)
  {
    if Prepend(a, r) == Some(a + b) {
      assert r.value == (a + r.value)[|a|..] == (a + b)[|a|..] == b;
    }
  }

  /** Appending a frame to a loadable file adds its entry exactly when the entry fits. */
  lemma LoadFrameAppendedIff(c: Codec, a: seq<Byte>, e: Entry)
    requires Faithful(c) && Load(c, a).Some?
    ensures Load(c, a + Frame(c, e)) == Some(Load(c, a).value + [e]) <==> Fits(c, e)
  {
    LoadThenMore(c, a, Frame(c, e));
    LoadFrameIff(c, e);
    PrependIsInjective(Load(c, a).value, [e], Load(c, Frame(c, e)));
  }

  /** A file has at least four bytes for every entry. */
  lemma {:induction false} LoadBounded(c: Codec, file: seq<Byte>)
    requires Load(c, file).Some?
    ensures |Load(c, file).value| <= |file|
    decreases |file|
  {
    var r := ReadFrame(c, file);
    if r.Read? {
      LoadBounded(c, file[r.size..]);
    }
  }

  /**
   A write torn inside a frame: the file is not loadable again. A process that dies between the writes
   of one entry leaves a file that NewLog refuses.
   */
  lemma TornFrameIsRefused(c: Codec, es: seq<Entry>, e: Entry, cut: nat)
    requires Faithful(c) && AllFit(c, es) && Fits(c, e) && cut < |Frame(c, e)|
    ensures Load(c, Encode(c, es) + Frame(c, e)[..cut]) == if cut == 0 then Some(es) else None
  {
    LoadEncoded(c, es, Frame(c, e)[..cut]);
    TornFrameIsBad(c, e, cut);
    assert es + [] == es;
  }

  lemma TornFrameIsBad(c: Codec, e: Entry, cut: nat)
    requires Fits(c, e) && cut < |Frame(c, e)|
    ensures Load(c, Frame(c, e)[..cut]) == if cut == 0 then Some([]) else None
  {
    if cut >= 4 {
      var data := c.enc(e);
      assert Frame(c, e)[..cut] == PutLength(|data|) + data[..cut - 4];
      ReadsFrame(c, e, data[..cut - 4]);
      FitsOrWraps(|data|);
    }
  }
}
