/**
  Laying out an ELF64 and reading it back: whatever program headers and dynamic tables a
  little-endian file is given, the gate reads those and judges the file by them.
 */
module StaticBinaryLayout {
  import opened StaticBinary

  // ---------------------------------------------------------------- layout

  /** `v` in `n` bytes, least significant first. */
  function Bytes(v: nat, n: nat): (r: seq<Byte>)
    ensures |r| == n
  {
    if n == 0 then [] else [v % 256] + Bytes(v / 256, n - 1)
  }

  function Pow256(n: nat): nat {
    if n == 0 then 1 else 256 * Pow256(n - 1)
  }

  datatype Header =
    Header(kind: nat, flags: nat, offset: nat, vaddr: nat, paddr: nat, filesz: nat, memsz: nat, align: nat)

  ghost predicate HeaderFits(h: Header) {
    && h.kind < Pow256(4) && h.flags < Pow256(4) && h.offset < Pow256(8) && h.vaddr < Pow256(8)
    && h.paddr < Pow256(8) && h.filesz < Pow256(8) && h.memsz < Pow256(8) && h.align < Pow256(8)
  }

  function EncodeHeader(h: Header): (r: seq<Byte>)
    ensures |r| == 56
  {
    Bytes(h.kind, 4) + Bytes(h.flags, 4) + Bytes(h.offset, 8) + Bytes(h.vaddr, 8)
    + Bytes(h.paddr, 8) + Bytes(h.filesz, 8) + Bytes(h.memsz, 8) + Bytes(h.align, 8)
  }

  function EncodeHeaders(hs: seq<Header>): (r: seq<Byte>)
    ensures |r| == 56 * |hs|
  {
    if hs == [] then [] else EncodeHeaders(hs[..|hs| - 1]) + EncodeHeader(hs[|hs| - 1])
  }

  ghost predicate EntryFits(e: Entry) {
    -0x8000_0000_0000_0000 <= e.tag < 0x8000_0000_0000_0000 && e.value < Pow256(8)
  }

  /** The two's complement word of a tag. */
  function Word(tag: int): nat
    requires -0x8000_0000_0000_0000 <= tag < 0x8000_0000_0000_0000
  {
    if tag < 0 then tag + 0x1_0000_0000_0000_0000 else tag
  }

  function EncodeEntry(e: Entry): (r: seq<Byte>)
    requires EntryFits(e)
    ensures |r| == 16
  {
    Bytes(Word(e.tag), 8) + Bytes(e.value, 8)
  }

  ghost predicate TableFits(es: seq<Entry>) {
    forall i :: 0 <= i < |es| ==> EntryFits(es[i]) && es[i].tag != Null
  }

  /** The entries and the terminator. */
  function EncodeTable(es: seq<Entry>): (r: seq<Byte>)
    requires TableFits(es)
    ensures |r| == 16 * |es| + 16
  {
    if es == [] then Bytes(0, 8) + Bytes(0, 8) else EncodeEntry(es[0]) + EncodeTable(es[1..])
  }

  /** The rest of the ELF header: what the gate does not look at is arbitrary. */
  datatype Elf = Elf(ident: seq<Byte>, front: seq<Byte>, phoff: nat, middle: seq<Byte>, back: seq<Byte>)

  ghost predicate ElfFits(elf: Elf) {
    |elf.ident| == 10 && |elf.front| == 16 && |elf.middle| == 14 && |elf.back| == 6 && elf.phoff < Pow256(8)
  }

  function EncodeElf(elf: Elf, phnum: nat): (r: seq<Byte>)
    requires ElfFits(elf)
    ensures |r| == 64
  {
    [0x7f, 0x45, 0x4c, 0x46, 2, 1] + elf.ident + elf.front + Bytes(elf.phoff, 8) + elf.middle
    + Bytes(56, 2) + Bytes(phnum, 2) + elf.back
  }

  function SegmentOf(h: Header): Segment {
    Segment(h.kind, h.offset, h.vaddr, h.filesz)
  }

  function SegmentsOf(hs: seq<Header>): (r: seq<Segment>)
    ensures |r| == |hs|
  {
    seq(|hs|, i requires 0 <= i < |hs| => SegmentOf(hs[i]))
  }

  ghost predicate Holds(data: seq<Byte>, at: nat, bytes: seq<Byte>) {
    at + |bytes| <= |data| && forall k :: 0 <= k < |bytes| ==> data[at + k] == bytes[k]
  }

  // ---------------------------------------------------------------- fields

  lemma {:induction false} HoldsSplit(data: seq<Byte>, at: nat, a: seq<Byte>, b: seq<Byte>)
    requires Holds(data, at, a + b)
    ensures Holds(data, at, a) && Holds(data, at + |a|, b)
  {
    forall k | 0 <= k < |a|
      ensures data[at + k] == a[k]
    {
      assert (a + b)[k] == a[k];
    }
    forall k | 0 <= k < |b|
      ensures data[at + |a| + k] == b[k]
    {
      assert (a + b)[|a| + k] == b[k] && at + |a| + k == at + (|a| + k);
    }
  }

  lemma {:induction false} LeReads(data: seq<Byte>, at: nat, v: nat, n: nat)
    requires Holds(data, at, Bytes(v, n)) && v < Pow256(n)
    ensures Le(data, at, n) == v
    decreases n
  {
    if n > 0 {
      HoldsSplit(data, at, [v % 256], Bytes(v / 256, n - 1));
      LeReads(data, at + 1, v / 256, n - 1);
      assert data[at + 0] == [v % 256][0];
    }
  }

  lemma {:induction false} Pow256Is()
    ensures Pow256(2) == 0x1_0000 && Pow256(4) == 0x1_0000_0000 && Pow256(8) == 0x1_0000_0000_0000_0000
  {
    assert Pow256(1) == 256;
    assert Pow256(3) == 0x100_0000;
    assert Pow256(5) == 0x100_0000_0000;
    assert Pow256(6) == 0x1_0000_0000_0000;
    assert Pow256(7) == 0x100_0000_0000_0000;
  }

  /** The first of several fields, and the rest after it. */
  lemma {:induction false} TakeField(data: seq<Byte>, at: nat, v: nat, n: nat, rest: seq<Byte>)
    requires Holds(data, at, Bytes(v, n) + rest) && v < Pow256(n)
    ensures at + n + |rest| <= |data| && Le(data, at, n) == v && Holds(data, at + n, rest)
  {
    HoldsSplit(data, at, Bytes(v, n), rest);
    LeReads(data, at, v, n);
  }

  lemma {:induction false} HeaderReads(data: seq<Byte>, at: nat, h: Header)
    requires HeaderFits(h) && Holds(data, at, EncodeHeader(h))
    ensures SegmentAt(data, at) == SegmentOf(h)
  {
    var f7 := Bytes(h.memsz, 8) + Bytes(h.align, 8);
    var f6 := Bytes(h.filesz, 8) + f7;
    var f5 := Bytes(h.paddr, 8) + f6;
    var f4 := Bytes(h.vaddr, 8) + f5;
    var f3 := Bytes(h.offset, 8) + f4;
    var f2 := Bytes(h.flags, 4) + f3;
    assert EncodeHeader(h) == Bytes(h.kind, 4) + f2;
    TakeField(data, at, h.kind, 4, f2);
    TakeField(data, at + 4, h.flags, 4, f3);
    TakeField(data, at + 8, h.offset, 8, f4);
    TakeField(data, at + 16, h.vaddr, 8, f5);
    TakeField(data, at + 24, h.paddr, 8, f6);
    TakeField(data, at + 32, h.filesz, 8, f7);
  }

  lemma {:induction false} EntryReads(data: seq<Byte>, at: nat, e: Entry, rest: seq<Byte>)
    requires EntryFits(e) && Holds(data, at, EncodeEntry(e) + rest)
    ensures at + 16 + |rest| <= |data| && EntryAt(data, at) == e && Holds(data, at + 16, rest)
  {
    Pow256Is();
    HoldsSplit(data, at, EncodeEntry(e), rest);
    TakeField(data, at, Word(e.tag), 8, Bytes(e.value, 8));
    LeReads(data, at + 8, e.value, 8);
  }

  // ---------------------------------------------------------------- tables

  lemma {:induction false} HeadersRead(data: seq<Byte>, at: nat, hs: seq<Header>)
    requires Holds(data, at, EncodeHeaders(hs)) && forall i :: 0 <= i < |hs| ==> HeaderFits(hs[i])
    ensures SegmentsAt(data, at, |hs|) == SegmentsOf(hs)
    decreases |hs|
  {
    if hs != [] {
      var n := |hs| - 1;
      assert Holds(data, at, EncodeHeaders(hs[..n])) && SegmentAt(data, at + 56 * n) == SegmentOf(hs[n]) by {
        HoldsSplit(data, at, EncodeHeaders(hs[..n]), EncodeHeader(hs[n]));
        HeaderReads(data, at + 56 * n, hs[n]);
      }
      HeadersRead(data, at, hs[..n]);
      assert SegmentsOf(hs) == SegmentsOf(hs[..n]) + [SegmentOf(hs[n])];
    }
  }

  lemma {:induction false} TableReads(data: seq<Byte>, at: nat, limit: nat, es: seq<Entry>)
    requires TableFits(es) && Holds(data, at, EncodeTable(es)) && at + 16 * |es| + 16 <= limit <= |data|
    ensures Table(data, at, limit) == es
    decreases |es|
  {
    if es == [] {
      Pow256Is();
      TakeField(data, at, 0, 8, Bytes(0, 8));
    } else {
      EntryReads(data, at, es[0], EncodeTable(es[1..]));
      TableReads(data, at + 16, limit, es[1..]);
    }
  }

  /** The dynamic table laid out in a segment is the one read from it. */
  lemma {:induction false} EntriesReadBack(data: seq<Byte>, s: Segment, es: seq<Entry>)
    requires TableFits(es) && Holds(data, s.offset, EncodeTable(es)) && 16 * |es| + 16 <= s.filesz
    ensures Table(data, s.offset, Limit(data, s)) == es
  {
    TableReads(data, s.offset, Limit(data, s), es);
  }

  lemma {:induction false} ElfReads(data: seq<Byte>, elf: Elf, phnum: nat)
    requires ElfFits(elf) && phnum < Pow256(2) && Holds(data, 0, EncodeElf(elf, phnum))
    ensures |data| >= 64 && data[..6] == [0x7f, 0x45, 0x4c, 0x46, 2, 1]
    ensures Le(data, 32, 8) == elf.phoff && Le(data, 54, 2) == 56 && Le(data, 56, 2) == phnum
  {
    Pow256Is();
    var f4 := Bytes(phnum, 2) + elf.back;
    var f3 := Bytes(56, 2) + f4;
    var f2 := Bytes(elf.phoff, 8) + (elf.middle + f3);
    var magic := [0x7f, 0x45, 0x4c, 0x46, 2, 1];
    var start := magic + elf.ident + elf.front;
    assert EncodeElf(elf, phnum) == start + f2;
    HoldsSplit(data, 0, start, f2);
    assert data[..6] == magic by {
      assert forall k :: 0 <= k < 6 ==> data[0 + k] == start[k] == magic[k];
    }
    TakeField(data, 32, elf.phoff, 8, elf.middle + f3);
    HoldsSplit(data, 40, elf.middle, f3);
    TakeField(data, 54, 56, 2, f4);
    TakeField(data, 56, phnum, 2, elf.back);
  }

  /** The file starts with `elf`, and the headers are where it says. */
  ghost predicate LaidOut(data: seq<Byte>, elf: Elf, hs: seq<Header>) {
    && ElfFits(elf) && |hs| < Pow256(2) && (forall i :: 0 <= i < |hs| ==> HeaderFits(hs[i]))
    && Holds(data, 0, EncodeElf(elf, |hs|)) && Holds(data, elf.phoff, EncodeHeaders(hs))
  }

  /** The program headers laid out are the segments read. */
  lemma {:induction false} SegmentsReadBack(data: seq<Byte>, elf: Elf, hs: seq<Header>)
    requires LaidOut(data, elf, hs)
    ensures ReadSegments(data) == Ok(SegmentsOf(hs))
  {
    ElfReads(data, elf, |hs|);
    HeadersRead(data, elf.phoff, hs);
    assert Prefix(data, 4) == data[..6][..4];
    assert data[4] == data[..6][4] && data[5] == data[..6][5];
  }

  // ---------------------------------------------------------------- the verdict on a layout

  /** Each dynamic segment holds its table. */
  ghost predicate TablesLaidOut(data: seq<Byte>, hs: seq<Header>, tables: seq<seq<Entry>>) {
    && |tables| == |hs|
    && forall i {:trigger hs[i]} {:trigger tables[i]} :: 0 <= i < |hs| && hs[i].kind == Dynamic ==>
         && TableFits(tables[i]) && Holds(data, hs[i].offset, EncodeTable(tables[i]))
         && 16 * |tables[i]| + 16 <= hs[i].filesz
  }

  ghost predicate AsksFor(es: seq<Entry>) {
    exists k :: 0 <= k < |es| && es[k].tag == Needed
  }

  /** A laid-out file passes exactly when no header is an interpreter's and no dynamic table asks
      for a library, whatever else it holds. */
  lemma {:induction false} VerdictOnLayout(data: seq<Byte>, elf: Elf, hs: seq<Header>, tables: seq<seq<Entry>>)
    requires LaidOut(data, elf, hs) && TablesLaidOut(data, hs, tables)
    ensures Findings(data) == Ok([]) <==>
              forall i {:trigger hs[i]} {:trigger tables[i]} :: 0 <= i < |hs| ==>
                hs[i].kind != Interp && !(hs[i].kind == Dynamic && AsksFor(tables[i]))
  {
    var segments := SegmentsOf(hs);
    SegmentsReadBack(data, elf, hs);
    FindingsExactly(data, segments);
    InterpretersExactly(segments);
    NamesExactly(data, segments);
    forall i | 0 <= i < |hs|
      ensures segments[i].kind == hs[i].kind
      ensures Wants(data, segments[i]) <==> hs[i].kind == Dynamic && AsksFor(tables[i])
    {
      WantsAsLaidOut(data, segments[i], tables[i]);
    }
  }

  lemma {:induction false} WantsAsLaidOut(data: seq<Byte>, s: Segment, es: seq<Entry>)
    requires s.kind == Dynamic ==>
               TableFits(es) && Holds(data, s.offset, EncodeTable(es)) && 16 * |es| + 16 <= s.filesz
    ensures Wants(data, s) <==> s.kind == Dynamic && AsksFor(es)
  {
    if s.kind == Dynamic {
      EntriesReadBack(data, s, es);
      WantsExactly(data, s);
      ValuesExist(es, Needed);
    }
  }

  // ---------------------------------------------------------------- the names reported

  lemma {:induction false} OffsetThroughFirst(segments: seq<Segment>, k: nat, vaddr: nat)
    requires k < |segments| && Maps(segments[k], vaddr) && forall j :: 0 <= j < k ==> !Maps(segments[j], vaddr)
    ensures Offset(segments, vaddr) == Ok(segments[k].offset + (vaddr - segments[k].vaddr))
    decreases k
  {
    if k > 0 {
      OffsetThroughFirst(segments[1..], k - 1, vaddr);
    }
  }

  lemma {:induction false} FindIs(data: seq<Byte>, b: Byte, at: nat, end: nat)
    requires at <= end < |data| && data[end] == b && forall k :: at <= k < end ==> data[k] != b
    ensures Find(data, b, at) == end
    decreases end - at
  {
    if at < end {
      FindIs(data, b, at + 1, end);
    }
  }

  lemma {:induction false} NameReads(data: seq<Byte>, at: nat, name: seq<Byte>)
    requires 0 !in name && Holds(data, at, name + [0])
    ensures CString(data, at) == name
  {
    HoldsSplit(data, at, name, [0]);
    assert data[at + |name| + 0] == [0][0];
    forall k | at <= k < at + |name|
      ensures data[k] != 0
    {
      assert data[at + (k - at)] == name[k - at];
    }
    FindIs(data, 0, at, at + |name|);
  }

  /** A section that asks for libraries, with its names where its string table puts them, is
      reported with those names, in order. */
  lemma {:induction false} NamesReadBack(data: seq<Byte>, segments: seq<Segment>, es: seq<Entry>, base: nat,
                                         names: seq<seq<Byte>>)
    requires |Values(es, Needed)| == |names| > 0 && Values(es, StrTab) != []
    requires Offset(segments, Values(es, StrTab)[0]) == Ok(base)
    requires forall i :: 0 <= i < |names| ==> 0 !in names[i] && Holds(data, base + Values(es, Needed)[i], names[i] + [0])
    ensures NamesIn(data, segments, es) == Ok(names)
  {
    var wanted := Values(es, Needed);
    forall i | 0 <= i < |names|
      ensures CStrings(data, base, wanted)[i] == names[i]
    {
      NameReads(data, base + wanted[i], names[i]);
    }
    assert CStrings(data, base, wanted) == names;
  }
}
