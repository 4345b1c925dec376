/**
 The log of pkg/raft/log.go: entries in memory behind a first index, and the two files that must
 rebuild them. Indices are 64-bit unsigned in the source; `int(idx - firstIdx)` is written out.
 */
module LogStore {
  import opened RaftTypes
  import opened LogFile

  const TWO_63: nat := 0x8000_0000_0000_0000
  const TWO_64: nat := 0x1_0000_0000_0000_0000

  type U64 = i: nat | i < TWO_64

  datatype Meta = Meta(index: nat, term: nat)

  /** int(idx - first): subtract modulo 2^64, then read the result as a signed number. */
  function Offset(idx: U64, first: U64): int {
    var d := (idx - first) % TWO_64;
    if d < TWO_63 then d else d - TWO_64
  }

  /** For logs that start below 2^63 the offset is exact, except that it goes negative 2^63 beyond. */
  lemma OffsetIsExact(idx: U64, first: U64)
    requires first <= TWO_63
    ensures if idx - first < TWO_63 then Offset(idx, first) == idx - first else Offset(idx, first) < 0
  {
  }

  /** Two writes leave what one write of both parts leaves. */
  lemma JoinedWrites(file: seq<Byte>, a: seq<Byte>, b: seq<Byte>)
    ensures file + a + b == file + (a + b)
  {
  }

  /** What a loadable file becomes when frames are appended to it. */
  lemma LoadAppended(c: Codec, file: seq<Byte>, es: seq<Entry>)
    requires Faithful(c) && Load(c, file).Some?
    ensures AllFit(c, es) ==> Load(c, file + Encode(c, es)) == Some(Load(c, file).value + es)
    ensures |es| == 1 ==>
              (Load(c, file + Encode(c, es)) == Some(Load(c, file).value + es) <==> Fits(c, es[0]))
  {
    if AllFit(c, es) {
      LoadThenMore(c, file, Encode(c, es));
      LoadRoundTrip(c, es);
    }
    if |es| == 1 {
      assert es == [es[0]] && Encode(c, es) == Frame(c, es[0]);
      LoadFrameAppendedIff(c, file, es[0]);
    }
  }

  function FirstAfter(meta: Option<Meta>): nat {
    if meta.None? then 1 else meta.value.index + 1
  }

  function MetaOr(meta: Option<Meta>): Meta {
    if meta.None? then Meta(0, 0) else meta.value
  }

  /** The entries by index. */
  ghost function ViewOf(first: nat, entries: seq<Entry>): map<nat, Entry> {
    map i: nat | first <= i < first + |entries| :: EntryAt(first, entries, i)
  }

  function EntryAt(first: nat, entries: seq<Entry>, i: nat): Entry
    requires first <= i < first + |entries|
  {
    entries[i - first]
  }

  /** Every entry stands at the index it carries. */
  ghost predicate Aligned(first: nat, entries: seq<Entry>) {
    forall k | 0 <= k < |entries| :: entries[k].index == first + k
  }

  class Log {
    const codec: Codec
    var entries: seq<Entry>
    var firstIdx: nat
    var snapshotIndex: nat
    var snapshotTerm: nat
    // raft.log and snapshot.meta
    var file: seq<Byte>
    var meta: Option<Meta>

    ghost predicate Valid()
      reads this
    {
      1 <= firstIdx && firstIdx + |entries| <= TWO_63
    }

    /** The files rebuild every field. */
    ghost predicate Durable()
      reads this
    {
      && Valid()
      && Load(codec, file) == Some(entries)
      && firstIdx == FirstAfter(meta)
      && Meta(snapshotIndex, snapshotTerm) == MetaOr(meta)
    }

    /** Every entry can be written to a file and read back. */
    ghost predicate Storable()
      reads this
    {
      Faithful(codec) && AllFit(codec, entries)
    }

    ghost function View(): map<nat, Entry>
      reads this
    {
      ViewOf(firstIdx, entries)
    }

    constructor Empty(codec: Codec, meta: Option<Meta>)
      requires FirstAfter(meta) <= TWO_63
      ensures Durable() && this.codec == codec && this.meta == meta && entries == [] && file == []
    {
      this.codec := codec;
      this.entries := [];
      this.firstIdx := FirstAfter(meta);
      this.snapshotIndex := MetaOr(meta).index;
      this.snapshotTerm := MetaOr(meta).term;
      this.file := [];
      this.meta := meta;
    }

    /** load(): the frames of raft.log, read one after the other. */
    method ReadFrames(file: seq<Byte>) returns (ok: bool)
      requires Durable() && entries == [] && firstIdx + |file| <= TWO_63
      modifies this`entries, this`file
      ensures ok == Load(codec, file).Some?
      ensures ok ==> Durable() && entries == Load(codec, file).value && this.file == file
    {
      var rest := file;
      PrependTwice([], [], Load(codec, rest));
      while |rest| > 0
        invariant |rest| <= |file|
        invariant Load(codec, file) == Prepend(entries, Load(codec, rest))
        decreases |rest|
      {
        var r := ReadFrame(codec, rest);
        match r {
          case End => assert false;
          case Bad => return false;
          case Read(e, n) =>
            PrependTwice(entries, [e], Load(codec, rest[n..]));
            entries := entries + [e];
            rest := rest[n..];
        }
      }
      assert entries + [] == entries;
      LoadBounded(codec, file);
      this.file := file;
      ok := true;
    }

    /** NewLog on the files of a data directory; null where it returns an error. */
    static method NewLog(codec: Codec, file: seq<Byte>, meta: Option<Meta>) returns (l: Log?)
      requires FirstAfter(meta) + |file| <= TWO_63
      ensures (l == null) == Load(codec, file).None?
      ensures l != null ==>
        && fresh(l) && l.Durable() && l.codec == codec && l.file == file && l.meta == meta
        && l.entries == Load(codec, file).value
    {
      var n := new Log.Empty(codec, meta);
      var ok := n.ReadFrames(file);
      l := if ok then n else null;
    }

    // ----- readers -----

    function Get(idx: U64): (r: Option<Entry>)
      requires Valid()
      reads this
      ensures r == if idx in View() then Some(View()[idx]) else None
    {
      OffsetIsExact(idx, firstIdx);
      var a := Offset(idx, firstIdx);
      if a < 0 || a >= |entries| then None else Some(entries[a])
    }

    function TermAt(idx: U64): (t: nat)
      requires Valid()
      reads this
      ensures t == if idx in View() then View()[idx].term else 0
    {
      match Get(idx)
      case None => 0
      case Some(e) => e.term
    }

    function GetRange(start: U64, end: U64): (r: seq<Entry>)
      requires Valid()
      requires start < TWO_63 && end < TWO_63
      reads this
      ensures
        var lo := if start < firstIdx then firstIdx else start;
        var hi := if end >= firstIdx + |entries| then firstIdx + |entries| - 1 else end;
        && |r| == (if lo <= hi then hi - lo + 1 else 0)
        && forall i | lo <= i < lo + |r| :: i in View() && r[i - lo] == View()[i]
    {
      OffsetIsExact(start, firstIdx);
      OffsetIsExact(end, firstIdx);
      var a := if Offset(start, firstIdx) < 0 then 0 else Offset(start, firstIdx);
      var b := if Offset(end, firstIdx) >= |entries| then |entries| - 1 else Offset(end, firstIdx);
      if a > b then [] else entries[a..b + 1]
    }

    /** 0 on an empty log, even on one that was compacted. */
    function LastIndex(): (i: nat)
      requires Valid()
      reads this
      ensures entries != [] ==> i in View() && i + 1 !in View()
      ensures entries == [] ==> i == 0
      ensures (i == firstIdx + |entries| - 1) == (entries != [] || firstIdx == 1)
    {
      if |entries| == 0 then 0 else firstIdx + |entries| - 1
    }

    function LastTerm(): (t: nat)
      requires Valid()
      reads this
      ensures t == TermAt(LastIndex())
    {
      if |entries| == 0 then 0 else entries[|entries| - 1].term
    }

    // ----- writers -----

    /**
     The file gains the frames of the entries. It still rebuilds the log if every entry fits its length
     field, and for a single entry only if it does.
     */
    method Append(es: seq<Entry>)
      requires Valid() && firstIdx + |entries| + |es| <= TWO_63
      modifies this`entries, this`file
      ensures Valid() && entries == old(entries) + es && file == old(file) + Encode(codec, es)
      ensures old(Durable()) && Faithful(codec) && AllFit(codec, es) ==> Durable()
      ensures old(Durable()) && Faithful(codec) && |es| == 1 ==> (Durable() <==> Fits(codec, es[0]))
      ensures old(Aligned(firstIdx, entries)) && Aligned(firstIdx + |old(entries)|, es) ==> Aligned(firstIdx, entries)
    {
      for i := 0 to |es|
        invariant entries == old(entries) + es[..i]
        invariant file == old(file) + Encode(codec, es[..i])
      {
        EncodeNext(codec, es, i);
        AppendOne(es[i]);
        assert es[..i + 1] == es[..i] + [es[i]];
      }
      assert es[..|es|] == es;
      if old(Durable()) && Faithful(codec) {
        LoadAppended(codec, old(file), es);
      }
    }

    /** One entry: its length, its bytes, and the copy in memory. */
    method AppendOne(e: Entry)
      modifies this`entries, this`file
      ensures entries == old(entries) + [e] && file == old(file) + Frame(codec, e)
    {
      var data := codec.enc(e);
      JoinedWrites(file, PutLength(|data|), data);
      file := file + PutLength(|data|);
      file := file + data;
      entries := entries + [e];
    }

    /** rewrite(): a fresh file from the entries in memory, put in place by a rename. */
    method Rewrite()
      modifies this`file
      ensures file == Encode(codec, entries)
      ensures Storable() ==> Load(codec, file) == Some(entries)
    {
      var tmp: seq<Byte> := [];
      for i := 0 to |entries|
        invariant tmp == Encode(codec, entries[..i])
      {
        EncodeNext(codec, entries, i);
        var data := codec.enc(entries[i]);
        tmp := tmp + (PutLength(|data|) + data);
      }
      assert entries[..|entries|] == entries;
      file := tmp;
      if Storable() {
        LoadRoundTrip(codec, entries);
      }
    }

    /** Keeps the entries up to idx; an index 2^63 or more beyond the first one drops them all. */
    method TruncateAfter(idx: U64)
      requires Valid()
      modifies this`entries, this`file
      ensures Valid() && (old(Durable()) && Storable() ==> Durable())
      ensures entries <= old(entries) && file == Encode(codec, entries)
      ensures View() ==
        (if idx - firstIdx < TWO_63 then map i | i in old(View()) && i <= idx :: old(View())[i] else map[])
      ensures old(Aligned(firstIdx, entries)) ==> Aligned(firstIdx, entries)
    {
      OffsetIsExact(idx, firstIdx);
      var a := Offset(idx, firstIdx);
      if a < 0 { a := -1; }
      if a + 1 < |entries| {
        entries := entries[..a + 1];
      }
      Rewrite();
    }

    /** Drops the entries up to snapshotIndex, unless that index is not in the log. */
    method Compact(index: nat, term: nat)
      requires Valid()
      modifies this
      ensures Valid() && (old(Durable()) && Storable() ==> Durable())
      ensures index !in old(View()) ==>
        entries == old(entries) && firstIdx == old(firstIdx) && file == old(file) && meta == old(meta)
        && snapshotIndex == old(snapshotIndex) && snapshotTerm == old(snapshotTerm)
      ensures index in old(View()) ==>
        && View() == (map i | i in old(View()) && i > index :: old(View())[i])
        && firstIdx == index + 1 && snapshotIndex == index && snapshotTerm == term && meta == Some(Meta(index, term))
      ensures old(Aligned(firstIdx, entries)) ==> Aligned(firstIdx, entries)
    {
      if index < firstIdx || index > firstIdx + |entries| - 1 {
        return;
      }
      var n := index - firstIdx + 1;
      snapshotIndex := index;
      snapshotTerm := term;
      entries := entries[n..];
      firstIdx := index + 1;
      meta := Some(Meta(snapshotIndex, snapshotTerm));
      Rewrite();
    }

    /** Empties the log and starts over at index 1, but leaves snapshot.meta in place. */
    method TruncateAll()
      requires Valid()
      modifies this
      ensures Valid() && entries == [] && firstIdx == 1 && meta == old(meta)
      ensures snapshotIndex == old(snapshotIndex) && snapshotTerm == old(snapshotTerm)
      ensures old(Durable()) ==> (Durable() <==> (meta.None? || meta.value.index == 0))
    {
      entries := [];
      firstIdx := 1;
      Rewrite();
    }

    /** Closing a durable log and opening its directory again yields the same log. */
    method Reopen() returns (l: Log)
      requires Durable() && FirstAfter(meta) + |file| <= TWO_63
      ensures fresh(l) && l.Durable()
      ensures l.entries == entries && l.firstIdx == firstIdx && l.View() == View()
      ensures l.snapshotIndex == snapshotIndex && l.snapshotTerm == snapshotTerm
    {
      var n := NewLog(codec, file, meta);
      l := n;
    }
  }

  // ----- indices -----

  /** Appending entries numbered from LastIndex() + 1 keeps a log aligned that is not compacted empty. */
  lemma AlignedAppend(first: nat, a: seq<Entry>, b: seq<Entry>)
    requires Aligned(first, a) && Aligned(first + |a|, b)
    ensures Aligned(first, a + b)
    ensures forall i | i in ViewOf(first, a) :: i in ViewOf(first, a + b) && ViewOf(first, a + b)[i] == ViewOf(first, a)[i]
  {
    forall i | i in ViewOf(first, a)
      ensures i in ViewOf(first, a + b) && ViewOf(first, a + b)[i] == ViewOf(first, a)[i]
    {
      assert EntryAt(first, a + b, i) == EntryAt(first, a, i);
    }
  }

  /** On an aligned log, Get answers with the entry of that very index. */
  lemma ViewIsByIndex(first: nat, entries: seq<Entry>, i: nat)
    requires Aligned(first, entries) && i in ViewOf(first, entries)
    ensures ViewOf(first, entries)[i].index == i
  {
  }

  /**
   A process that dies in Compact after snapshot.meta is replaced and before raft.log is: what reopening
   finds is shifted, so every entry answers to the wrong index. This holds for every compaction that
   removes anything.
   */
  lemma CompactionGapShiftsEntries(c: Codec, first: nat, entries: seq<Entry>, index: nat, term: nat, i: nat)
    requires Faithful(c) && AllFit(c, entries) && Aligned(first, entries) && index in ViewOf(first, entries)
    requires i in ViewOf(FirstAfter(Some(Meta(index, term))), entries)
    ensures Load(c, Encode(c, entries)) == Some(entries)
    ensures ViewOf(FirstAfter(Some(Meta(index, term))), entries)[i].index == i - (index + 1 - first) < i
  {
    LoadRoundTrip(c, entries);
  }
}
