/**
  What the gate reports on a laid-out file: one finding per interpreter header, then one per entry
  that asks for a library, each by the name its own value points at.
 */
module StaticBinaryReport {
  import opened StaticBinary
  import opened StaticBinaryLayout

  // ---------------------------------------------------------------- positions

  ghost predicate Rising(at: seq<nat>) {
    forall a, b :: 0 <= a < b < |at| ==> at[a] < at[b]
  }

  /** The positions of the entries tagged `tag`, each once, in order. */
  ghost predicate ListsTag(es: seq<Entry>, tag: int, at: seq<nat>) {
    Rising(at) && forall k: nat :: k in at <==> k < |es| && es[k].tag == tag
  }

  function TagPositions(es: seq<Entry>, tag: int, n: nat): (at: seq<nat>)
    requires n <= |es|
    ensures forall a :: 0 <= a < |at| ==> at[a] < n
  {
    if n == 0 then []
    else if es[n - 1].tag == tag then TagPositions(es, tag, n - 1) + [n - 1]
    else TagPositions(es, tag, n - 1)
  }

  lemma {:induction false} PositionsRise(es: seq<Entry>, tag: int, n: nat)
    requires n <= |es|
    ensures Rising(TagPositions(es, tag, n))
    ensures forall k: nat :: k in TagPositions(es, tag, n) <==> k < n && es[k].tag == tag
    decreases n
  {
    if n > 0 {
      PositionsRise(es, tag, n - 1);
    }
  }

  lemma {:induction false} ValuesSnoc(es: seq<Entry>, e: Entry, tag: int)
    ensures Values(es + [e], tag) == if e.tag == tag then Values(es, tag) + [e.value] else Values(es, tag)
    decreases |es|
  {
    if es == [] {
      assert [e][1..] == [] && [] + [e] == [e];
    } else {
      assert (es + [e])[1..] == es[1..] + [e];
      ValuesSnoc(es[1..], e, tag);
    }
  }

  lemma {:induction false} PositionsHoldValues(es: seq<Entry>, tag: int, n: nat)
    requires n <= |es|
    ensures var at, vs := TagPositions(es, tag, n), Values(es[..n], tag);
            |vs| == |at| && forall k :: 0 <= k < |at| ==> vs[k] == es[at[k]].value
    decreases n
  {
    if n > 0 {
      PositionsHoldValues(es, tag, n - 1);
      ValuesSnoc(es[..n - 1], es[n - 1], tag);
      assert es[..n] == es[..n - 1] + [es[n - 1]];
    }
  }

  /** Their values are what is collected. */
  lemma {:induction false} ValuesAreAt(es: seq<Entry>, tag: int) returns (at: seq<nat>)
    ensures ListsTag(es, tag, at) && |Values(es, tag)| == |at|
    ensures forall n :: 0 <= n < |at| ==> at[n] < |es| && Values(es, tag)[n] == es[at[n]].value
  {
    at := TagPositions(es, tag, |es|);
    PositionsRise(es, tag, |es|);
    PositionsHoldValues(es, tag, |es|);
    assert es[..|es|] == es;
  }

  /** The positions of the interpreter headers. */
  lemma {:induction false} InterpretersAreAt(segments: seq<Segment>) returns (at: seq<nat>)
    ensures Rising(at) && (forall i: nat :: i in at <==> i < |segments| && segments[i].kind == 3)
    ensures Interpreters(segments) == seq(|at|, _ => HasInterpreter)
    decreases |segments|
  {
    if segments == [] {
      at := [];
    } else {
      var rest := InterpretersAreAt(segments[1..]);
      var later := seq(|rest|, n requires 0 <= n < |rest| => rest[n] + 1);
      at := if segments[0].kind == 3 then [0] + later else later;
      forall i: nat
        ensures i in later <==> 0 < i < |segments| && segments[i].kind == 3
      {
        if i in later {
          var n :| 0 <= n < |later| && later[n] == i;
          assert rest[n] in rest;
        }
        if 0 < i < |segments| && segments[i].kind == 3 {
          assert i - 1 in rest;
          var n :| 0 <= n < |rest| && rest[n] == i - 1;
          assert later[n] == i;
        }
      }
      forall i: nat
        ensures i in at <==> i < |segments| && segments[i].kind == 3
      {
        assert i in at <==> i in later || (i == 0 && segments[0].kind == 3);
      }
    }
  }

  // ---------------------------------------------------------------- where the names are

  /** Position `p` holds the first entry of that tag. */
  ghost predicate FirstTagged(es: seq<Entry>, tag: int, p: nat) {
    p < |es| && es[p].tag == tag && forall q :: 0 <= q < p ==> es[q].tag != tag
  }

  /** Header `l` is the first loaded one that maps the address. */
  ghost predicate FirstMapping(hs: seq<Header>, vaddr: nat, l: nat) {
    && l < |hs| && MapsThere(hs[l], vaddr)
    && forall m :: 0 <= m < l ==> !MapsThere(hs[m], vaddr)
  }

  ghost predicate MapsThere(h: Header, vaddr: nat) {
    h.kind == 1 && h.vaddr <= vaddr < h.vaddr + h.filesz
  }

  /** Entry `p` is the section's first string table (tag 5), and header `l` maps it to `base`. */
  ghost predicate NamesStart(hs: seq<Header>, es: seq<Entry>, base: nat) {
    exists p: nat, l: nat :: FirstTagged(es, 5, p) && FirstMapping(hs, es[p].value, l)
      && base == hs[l].offset + (es[p].value - hs[l].vaddr)
  }

  lemma {:induction false} FirstValue(es: seq<Entry>, tag: int, p: nat)
    requires FirstTagged(es, tag, p)
    ensures Values(es, tag) != [] && Values(es, tag)[0] == es[p].value
    decreases p
  {
    if p > 0 {
      FirstValue(es[1..], tag, p - 1);
    }
  }

  lemma {:induction false} ResolvesTo(hs: seq<Header>, es: seq<Entry>, base: nat)
    requires NamesStart(hs, es, base)
    ensures Values(es, 5) != [] && Offset(SegmentsOf(hs), Values(es, 5)[0]) == Ok(base)
  {
    var p: nat, l: nat :| FirstTagged(es, 5, p) && FirstMapping(hs, es[p].value, l)
      && base == hs[l].offset + (es[p].value - hs[l].vaddr);
    FirstValue(es, 5, p);
    var segments := SegmentsOf(hs);
    assert forall m :: 0 <= m < |hs| ==> (Maps(segments[m], es[p].value) <==> MapsThere(hs[m], es[p].value));
    OffsetThroughFirst(segments, l, es[p].value);
  }

  // ---------------------------------------------------------------- section by section

  /** The `entry`-th entry of the table of the `section`-th header. */
  datatype Ask = Ask(section: nat, entry: nat)

  ghost predicate Asked(hs: seq<Header>, tables: seq<seq<Entry>>, a: Ask)
    requires |tables| == |hs|
  {
    && a.section < |hs| && hs[a.section].kind == 2
    && a.entry < |tables[a.section]| && tables[a.section][a.entry].tag == 1
  }

  predicate Sooner(a: Ask, b: Ask) {
    a.section < b.section || (a.section == b.section && a.entry < b.entry)
  }

  /** Every entry that asks, from section `i` on, each once, in section and table order. */
  ghost predicate ListsAsks(hs: seq<Header>, tables: seq<seq<Entry>>, i: nat, asks: seq<Ask>)
    requires |tables| == |hs|
  {
    && (forall a, b :: 0 <= a < b < |asks| ==> Sooner(asks[a], asks[b]))
    && forall a :: a in asks <==> Asked(hs, tables, a) && a.section >= i
  }

  ghost predicate BasesKnown(hs: seq<Header>, tables: seq<seq<Entry>>, bases: seq<nat>) {
    && |tables| == |hs| == |bases|
    && forall i {:trigger hs[i]} {:trigger bases[i]} :: 0 <= i < |hs| && hs[i].kind == 2 && AsksFor(tables[i]) ==>
         NamesStart(hs, tables[i], bases[i])
  }

  ghost function NameOf(data: seq<Byte>, tables: seq<seq<Entry>>, bases: seq<nat>, a: Ask): seq<Byte>
    requires |tables| == |bases| && a.section < |tables| && a.entry < |tables[a.section]|
  {
    CString(data, bases[a.section] + tables[a.section][a.entry].value)
  }

  ghost predicate InTables(tables: seq<seq<Entry>>, asks: seq<Ask>) {
    forall n {:trigger asks[n]} :: 0 <= n < |asks| ==> asks[n].section < |tables| && asks[n].entry < |tables[asks[n].section]|
  }

  ghost function NamesOf(data: seq<Byte>, tables: seq<seq<Entry>>, bases: seq<nat>, asks: seq<Ask>): (r: seq<seq<Byte>>)
    requires |tables| == |bases| && InTables(tables, asks)
    ensures |r| == |asks| && forall n :: 0 <= n < |asks| ==> r[n] == NameOf(data, tables, bases, asks[n])
  {
    if asks == [] then [] else [NameOf(data, tables, bases, asks[0])] + NamesOf(data, tables, bases, asks[1..])
  }

  lemma {:induction false} NamesOfBoth(data: seq<Byte>, tables: seq<seq<Entry>>, bases: seq<nat>, a: seq<Ask>, b: seq<Ask>)
    requires |tables| == |bases| && InTables(tables, a) && InTables(tables, b)
    ensures InTables(tables, a + b)
    ensures NamesOf(data, tables, bases, a + b) == NamesOf(data, tables, bases, a) + NamesOf(data, tables, bases, b)
  {
  }

  lemma {:induction false} NamesInIs(data: seq<Byte>, segments: seq<Segment>, es: seq<Entry>, base: nat)
    requires Values(es, 1) != [] ==> Values(es, 5) != [] && Offset(segments, Values(es, 5)[0]) == Ok(base)
    ensures NamesIn(data, segments, es) == Ok(CStrings(data, base, Values(es, 1)))
  {
    if Values(es, 1) == [] {
      assert CStrings(data, base, []) == [];
    }
  }

  lemma {:induction false} NamesAreCStrings(data: seq<Byte>, tables: seq<seq<Entry>>, bases: seq<nat>, i: nat, at: seq<nat>,
                                            own: seq<Ask>, wanted: seq<nat>)
    requires |tables| == |bases| && i < |tables| && |own| == |at| == |wanted|
    requires forall n :: 0 <= n < |at| ==> at[n] < |tables[i]| && wanted[n] == tables[i][at[n]].value && own[n] == Ask(i, at[n])
    ensures InTables(tables, own) && CStrings(data, bases[i], wanted) == NamesOf(data, tables, bases, own)
  {
    assert InTables(tables, own);
    forall n | 0 <= n < |at|
      ensures CStrings(data, bases[i], wanted)[n] == NamesOf(data, tables, bases, own)[n]
    {
      assert own[n] == Ask(i, at[n]);
    }
  }

  lemma {:induction false} SectionResolves(hs: seq<Header>, tables: seq<seq<Entry>>, bases: seq<nat>, i: nat)
    requires BasesKnown(hs, tables, bases) && i < |hs| && hs[i].kind == 2 && Values(tables[i], 1) != []
    ensures Values(tables[i], 5) != [] && Offset(SegmentsOf(hs), Values(tables[i], 5)[0]) == Ok(bases[i])
  {
    ValuesExist(tables[i], 1);
    ResolvesTo(hs, tables[i], bases[i]);
  }

  /** The names of one section, in table order. */
  lemma {:induction false} SectionReport(data: seq<Byte>, hs: seq<Header>, tables: seq<seq<Entry>>, bases: seq<nat>, i: nat)
      returns (own: seq<Ask>)
    requires TablesLaidOut(data, hs, tables) && BasesKnown(hs, tables, bases) && i < |hs|
    ensures forall a, b :: 0 <= a < b < |own| ==> Sooner(own[a], own[b])
    ensures forall a :: a in own <==> Asked(hs, tables, a) && a.section == i
    ensures InTables(tables, own)
    ensures SectionNames(data, SegmentsOf(hs))[i] == Ok(NamesOf(data, tables, bases, own))
  {
    own := [];
    if hs[i].kind == 2 {
      var at := ValuesAreAt(tables[i], 1);
      own := seq(|at|, n requires 0 <= n < |at| => Ask(i, at[n]));
      OwnAsks(hs, tables, i, at, own);
      NamesAreCStrings(data, tables, bases, i, at, own, Values(tables[i], 1));
      SectionNamesAre(data, hs, tables, bases, i);
    }
  }

  lemma {:induction false} SectionNamesAre(data: seq<Byte>, hs: seq<Header>, tables: seq<seq<Entry>>, bases: seq<nat>, i: nat)
    requires TablesLaidOut(data, hs, tables) && BasesKnown(hs, tables, bases) && i < |hs| && hs[i].kind == 2
    ensures SectionNames(data, SegmentsOf(hs))[i] == Ok(CStrings(data, bases[i], Values(tables[i], 1)))
  {
    var segments := SegmentsOf(hs);
    EntriesReadBack(data, segments[i], tables[i]);
    if Values(tables[i], 1) != [] {
      SectionResolves(hs, tables, bases, i);
    }
    NamesInIs(data, segments, tables[i], bases[i]);
  }

  lemma {:induction false} OwnAsks(hs: seq<Header>, tables: seq<seq<Entry>>, i: nat, at: seq<nat>, own: seq<Ask>)
    requires |tables| == |hs| && i < |hs| && hs[i].kind == 2 && ListsTag(tables[i], 1, at)
    requires |own| == |at| && forall n :: 0 <= n < |at| ==> own[n] == Ask(i, at[n])
    ensures forall a :: a in own <==> Asked(hs, tables, a) && a.section == i
  {
    forall a
      ensures a in own <==> Asked(hs, tables, a) && a.section == i
    {
      if a in own {
        var n :| 0 <= n < |own| && own[n] == a;
        assert at[n] in at;
      }
      if Asked(hs, tables, a) && a.section == i {
        assert a.entry in at;
        var n :| 0 <= n < |at| && at[n] == a.entry;
        assert own[n] == a;
      }
    }
  }

  lemma {:induction false} AsksPrepend(hs: seq<Header>, tables: seq<seq<Entry>>, i: nat, own: seq<Ask>, rest: seq<Ask>)
    requires |tables| == |hs| && i < |hs| && ListsAsks(hs, tables, i + 1, rest)
    requires forall a, b :: 0 <= a < b < |own| ==> Sooner(own[a], own[b])
    requires forall a :: a in own <==> Asked(hs, tables, a) && a.section == i
    ensures ListsAsks(hs, tables, i, own + rest)
  {
    var all := own + rest;
    forall a, b | 0 <= a < b < |all|
      ensures Sooner(all[a], all[b])
    {
      if a < |own| <= b {
        assert own[a] in own && rest[b - |own|] in rest;
      }
    }
  }

  lemma {:induction false} AsksAreInTables(hs: seq<Header>, tables: seq<seq<Entry>>, i: nat, asks: seq<Ask>)
    requires |tables| == |hs| && ListsAsks(hs, tables, i, asks)
    ensures InTables(tables, asks)
  {
    forall n | 0 <= n < |asks|
      ensures asks[n].section < |tables| && asks[n].entry < |tables[asks[n].section]|
    {
      assert asks[n] in asks;
    }
  }

  lemma {:induction false} SectionsReport(data: seq<Byte>, hs: seq<Header>, tables: seq<seq<Entry>>, bases: seq<nat>, i: nat)
      returns (asks: seq<Ask>)
    requires TablesLaidOut(data, hs, tables) && BasesKnown(hs, tables, bases) && i <= |hs|
    ensures ListsAsks(hs, tables, i, asks) && InTables(tables, asks)
    ensures Merged(SectionNames(data, SegmentsOf(hs)), i) == Ok(NamesOf(data, tables, bases, asks))
    decreases |hs| - i
  {
    if i == |hs| {
      asks := [];
    } else {
      var own := SectionReport(data, hs, tables, bases, i);
      var rest := SectionsReport(data, hs, tables, bases, i + 1);
      asks := own + rest;
      AsksPrepend(hs, tables, i, own, rest);
      NamesOfBoth(data, tables, bases, own, rest);
    }
  }

  // ---------------------------------------------------------------- the report

  /** The whole report on a laid-out file whose string tables are mapped: one `HasInterpreter` for each
      header of kind 3, then one `Needs` for each entry tagged 1 of each header of kind 2, in header and
      table order, each naming what stands at its value above its section's string table. */
  lemma {:induction false} ReportOnLayout(data: seq<Byte>, elf: Elf, hs: seq<Header>, tables: seq<seq<Entry>>, bases: seq<nat>)
      returns (ints: seq<nat>, asks: seq<Ask>)
    requires LaidOut(data, elf, hs) && TablesLaidOut(data, hs, tables) && BasesKnown(hs, tables, bases)
    ensures Rising(ints) && forall i: nat :: i in ints <==> i < |hs| && hs[i].kind == 3
    ensures ListsAsks(hs, tables, 0, asks) && InTables(tables, asks)
    ensures var r := Findings(data);
            && r.Ok? && |r.value| == |ints| + |asks|
            && (forall n :: 0 <= n < |ints| ==> r.value[n] == HasInterpreter)
            && forall n :: 0 <= n < |asks| ==> r.value[|ints| + n] == Needs(NameOf(data, tables, bases, asks[n]))
  {
    var segments := SegmentsOf(hs);
    SegmentsReadBack(data, elf, hs);
    ints := InterpretersAreAt(segments);
    asks := SectionsReport(data, hs, tables, bases, 0);
    assert forall i: nat :: i < |hs| ==> segments[i].kind == hs[i].kind;
  }

  /** A name is the bytes up to the next 0, or to the end of the file; past it, there are none. */
  lemma {:induction false} NameRunsToEnd(data: seq<Byte>, at: nat)
    requires forall k :: at <= k < |data| ==> data[k] != 0
    ensures CString(data, at) == if at <= |data| then data[at..] else []
  {
    if at <= |data| {
      FindsNone(data, at);
    }
  }

  lemma {:induction false} FindsNone(data: seq<Byte>, at: nat)
    requires at <= |data| && forall k :: at <= k < |data| ==> data[k] != 0
    ensures Find(data, 0, at) == |data|
    decreases |data| - at
  {
    if at < |data| {
      FindsNone(data, at + 1);
    }
  }

  // ---------------------------------------------------------------- refusals

  /** Which refusal a file gets that is not read: not an ELF, not one of 64 bits and little endian, or
      one whose header table is elsewhere. */
  lemma {:induction false} NotReadExactly(data: seq<Byte>)
    ensures var r := ReadSegments(data);
            var magic := |data| >= 4 && data[0] == 0x7f && data[1] == 0x45 && data[2] == 0x4c && data[3] == 0x46;
            && (r == Err(NotElf) <==> !magic)
            && (r == Err(NotElf64) <==> magic && (|data| < 64 || data[4] != 2 || data[5] != 1))
            && (r == Err(NoHeaderTable) <==>
                  magic && |data| >= 64 && data[4] == 2 && data[5] == 1
                  && (Le(data, 54, 2) != 56 || Le(data, 32, 8) + 56 * Le(data, 56, 2) > |data|))
  {
    if |data| >= 4 {
      assert Prefix(data, 4) == [data[0], data[1], data[2], data[3]];
    }
  }

  /** The first section that cannot be resolved says how the file is refused: no string table, or one
      that no loaded segment maps. */
  lemma {:induction false} FirstUnresolvedRefuses(data: seq<Byte>, segments: seq<Segment>, i: nat)
    requires i < |segments| && Unresolved(data, segments, segments[i])
    requires forall k :: 0 <= k < i ==> !Unresolved(data, segments, segments[k])
    ensures var tables := Values(Entries(data, segments[i]), 5);
            Names(data, segments) == if tables == [] then Err(NoStringTable) else Err(Unmapped(tables[0]))
  {
    var sections := SectionNames(data, segments);
    forall k | 0 <= k <= i
      ensures sections[k].Err? <==> k == i
    {
      SectionExactly(data, segments, segments[k]);
    }
    WantsExactly(data, segments[i]);
    FirstErr(sections, 0, i);
    UnmappedSays(segments, Values(Entries(data, segments[i]), 5));
  }

  lemma {:induction false} UnmappedSays(segments: seq<Segment>, tables: seq<nat>)
    requires tables == [] || forall i :: 0 <= i < |segments| ==> !Maps(segments[i], tables[0])
    ensures tables != [] ==> Offset(segments, tables[0]) == Err(Unmapped(tables[0]))
  {
    if tables != [] {
      OffsetErr(segments, tables[0]);
    }
  }

  lemma {:induction false} OffsetErr(segments: seq<Segment>, vaddr: nat)
    requires forall i :: 0 <= i < |segments| ==> !Maps(segments[i], vaddr)
    ensures Offset(segments, vaddr) == Err(Unmapped(vaddr))
    decreases |segments|
  {
    if segments != [] {
      OffsetErr(segments[1..], vaddr);
    }
  }

  lemma {:induction false} FirstErr(sections: seq<Result<seq<seq<Byte>>>>, from: nat, i: nat)
    requires from <= i < |sections| && sections[i].Err? && forall k :: from <= k < i ==> sections[k].Ok?
    ensures Merged(sections, from) == sections[i]
    decreases i - from
  {
    if from < i {
      FirstErr(sections, from + 1, i);
    }
  }
}
