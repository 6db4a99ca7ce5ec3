/**
  The release gate on linking (`check-static-binary.py`): it reads the program headers and the
  dynamic sections of a little-endian ELF64 and lets through only a file that names no interpreter
  and no library.

  Reading a field requires it to be inside the file, so that every read is in range is part of
  each member's well-formedness.
 */
module StaticBinary {
  import opened Options

  type Byte = n: nat | n < 256

  datatype Refusal = NotElf | NotElf64 | NoHeaderTable | NoStringTable | Unmapped(vaddr: nat)

  datatype Result<T> = Ok(value: T) | Err(error: Refusal)

  datatype Segment = Segment(kind: nat, offset: nat, vaddr: nat, filesz: nat)

  datatype Entry = Entry(tag: int, value: nat)

  const Load := 1
  const Dynamic := 2
  const Interp := 3

  const Null := 0
  const Needed := 1
  const StrTab := 5

  // ---------------------------------------------------------------- fields

  /** The `n` bytes at `at`, least significant first. */
  function Le(data: seq<Byte>, at: nat, n: nat): nat
    requires at + n <= |data|
    decreases n
  {
    if n == 0 then 0 else data[at] + 256 * Le(data, at + 1, n - 1)
  }

  /** A 64-bit word as a two's complement number. */
  function Signed(word: nat): int {
    if word < 0x8000_0000_0000_0000 then word else word - 0x1_0000_0000_0000_0000
  }

  function SegmentAt(data: seq<Byte>, at: nat): Segment
    requires at + 56 <= |data|
  {
    Segment(Le(data, at, 4), Le(data, at + 8, 8), Le(data, at + 16, 8), Le(data, at + 32, 8))
  }

  function EntryAt(data: seq<Byte>, at: nat): Entry
    requires at + 16 <= |data|
  {
    Entry(Signed(Le(data, at, 8)), Le(data, at + 8, 8))
  }

  // ---------------------------------------------------------------- segments

  function Prefix(data: seq<Byte>, n: nat): seq<Byte> {
    if n < |data| then data[..n] else data
  }

  function SegmentsAt(data: seq<Byte>, at: nat, count: nat): (r: seq<Segment>)
    requires at + 56 * count <= |data|
    ensures |r| == count
    ensures forall i :: 0 <= i < count ==> r[i] == SegmentAt(data, at + 56 * i)
    decreases count
  {
    if count == 0 then []
    else SegmentsAt(data, at, count - 1) + [SegmentAt(data, at + 56 * (count - 1))]
  }

  function ReadSegments(data: seq<Byte>): Result<seq<Segment>> {
    if Prefix(data, 4) != [0x7f, 'E' as int, 'L' as int, 'F' as int] then Err(NotElf)
    else if |data| < 64 || data[4] != 2 || data[5] != 1 then Err(NotElf64)
    else
      var phoff, phentsize, phnum := Le(data, 32, 8), Le(data, 54, 2), Le(data, 56, 2);
      if phentsize != 56 || phoff + phnum * phentsize > |data| then Err(NoHeaderTable)
      else Ok(SegmentsAt(data, phoff, phnum))
  }

  predicate Maps(s: Segment, vaddr: nat) {
    s.kind == Load && s.vaddr <= vaddr < s.vaddr + s.filesz
  }

  /** Through the first loaded segment that maps the address. */
  method VaddrToOffset(segments: seq<Segment>, vaddr: nat) returns (r: Result<nat>)
    ensures r == Offset(segments, vaddr)
  {
    for i := 0 to |segments|
      invariant Offset(segments[i..], vaddr) == Offset(segments, vaddr)
    {
      if Maps(segments[i], vaddr) {
        return Ok(segments[i].offset + vaddr - segments[i].vaddr);
      }
    }
    return Err(Unmapped(vaddr));
  }

  function Offset(segments: seq<Segment>, vaddr: nat): (r: Result<nat>)
    ensures r.Ok? <==> exists i :: 0 <= i < |segments| && Maps(segments[i], vaddr)
  {
    if segments == [] then Err(Unmapped(vaddr))
    else if Maps(segments[0], vaddr) then Ok(segments[0].offset + vaddr - segments[0].vaddr)
    else
      var r := Offset(segments[1..], vaddr);
      assert r.Ok? ==> exists i :: 0 <= i < |segments[1..]| && Maps(segments[1..][i], vaddr);
      r
  }

  // ---------------------------------------------------------------- dynamic entries

  /** Where the entries of a segment have to end: within it and within the file. */
  function Limit(data: seq<Byte>, s: Segment): nat {
    if s.offset + s.filesz < |data| then s.offset + s.filesz else |data|
  }

  /** The entries from `at`, up to the terminator or the last that fits below `limit`. */
  function Table(data: seq<Byte>, at: nat, limit: nat): seq<Entry>
    requires limit <= |data|
    decreases limit - at
  {
    if at + 16 > limit || EntryAt(data, at).tag == Null then []
    else [EntryAt(data, at)] + Table(data, at + 16, limit)
  }

  method DynamicEntries(data: seq<Byte>, s: Segment) returns (entries: seq<Entry>)
    ensures entries == Table(data, s.offset, Limit(data, s))
  {
    entries := [];
    var at := s.offset;
    while at < Limit(data, s) - 16 + 1
      invariant entries + Table(data, at, Limit(data, s)) == Table(data, s.offset, Limit(data, s))
      decreases Limit(data, s) - at
    {
      var e := EntryAt(data, at);
      if e.tag == Null {
        break;
      }
      entries := entries + [e];
      at := at + 16;
    }
  }

  // ---------------------------------------------------------------- libraries

  function Find(data: seq<Byte>, b: Byte, at: nat): (r: nat)
    requires at <= |data|
    ensures at <= r <= |data|
    decreases |data| - at
  {
    if at == |data| || data[at] == b then at else Find(data, b, at + 1)
  }

  /** The bytes up to the next 0; past the end of the file there are none. */
  function CString(data: seq<Byte>, at: nat): seq<Byte> {
    if at > |data| then [] else data[at..Find(data, 0, at)]
  }

  /** The values of the entries that carry `tag`. */
  function Values(entries: seq<Entry>, tag: int): seq<nat> {
    if entries == [] then []
    else if entries[0].tag == tag then [entries[0].value] + Values(entries[1..], tag)
    else Values(entries[1..], tag)
  }

  function CStrings(data: seq<Byte>, base: nat, wanted: seq<nat>): (r: seq<seq<Byte>>)
    ensures |r| == |wanted|
  {
    seq(|wanted|, i requires 0 <= i < |wanted| => CString(data, base + wanted[i]))
  }

  /** The libraries one dynamic section names. */
  function NamesIn(data: seq<Byte>, segments: seq<Segment>, entries: seq<Entry>): Result<seq<seq<Byte>>> {
    var wanted, tables := Values(entries, Needed), Values(entries, StrTab);
    if wanted == [] then Ok([])
    else if tables == [] then Err(NoStringTable)
    else
      match Offset(segments, tables[0])
      case Err(e) => Err(e)
      case Ok(base) => Ok(CStrings(data, base, wanted))
  }

  function Entries(data: seq<Byte>, s: Segment): seq<Entry> {
    if s.kind == Dynamic then Table(data, s.offset, Limit(data, s)) else []
  }

  function SectionNames(data: seq<Byte>, segments: seq<Segment>): seq<Result<seq<seq<Byte>>>> {
    seq(|segments|, i requires 0 <= i < |segments| => NamesIn(data, segments, Entries(data, segments[i])))
  }

  /** All the names from the `i`-th section on; the first that cannot be resolved refuses the file. */
  function Merged(sections: seq<Result<seq<seq<Byte>>>>, i: nat): Result<seq<seq<Byte>>>
    requires i <= |sections|
    decreases |sections| - i
  {
    if i == |sections| then Ok([])
    else if sections[i].Err? then sections[i]
    else Prepend(sections[i].value, Merged(sections, i + 1))
  }

  function Prepend(own: seq<seq<Byte>>, r: Result<seq<seq<Byte>>>): Result<seq<seq<Byte>>> {
    match r
    case Err(e) => Err(e)
    case Ok(names) => Ok(own + names)
  }

  function Names(data: seq<Byte>, segments: seq<Segment>): Result<seq<seq<Byte>>> {
    Merged(SectionNames(data, segments), 0)
  }

  method NamesOfSection(data: seq<Byte>, segments: seq<Segment>, s: Segment) returns (r: Result<seq<seq<Byte>>>)
    requires s.kind == Dynamic
    ensures r == NamesIn(data, segments, Entries(data, s))
  {
    var entries := DynamicEntries(data, s);
    var wanted, tables := Values(entries, Needed), Values(entries, StrTab);
    if wanted != [] && tables == [] {
      return Err(NoStringTable);
    }
    var base := 0;
    if wanted != [] {
      var offset := VaddrToOffset(segments, tables[0]);
      if offset.Err? {
        return Err(offset.error);
      }
      base := offset.value;
    }
    return Ok(CStrings(data, base, wanted));
  }

  method NeededLibraries(data: seq<Byte>, segments: seq<Segment>) returns (r: Result<seq<seq<Byte>>>)
    ensures r == Names(data, segments)
  {
    ghost var sections := SectionNames(data, segments);
    var names := [];
    PrependTwice([], [], Merged(sections, 0));
    for i := 0 to |segments|
      invariant Prepend(names, Merged(sections, i)) == Merged(sections, 0)
    {
      if segments[i].kind == Dynamic {
        var own := NamesOfSection(data, segments, segments[i]);
        if own.Err? {
          return Err(own.error);
        }
        PrependTwice(names, own.value, Merged(sections, i + 1));
        names := names + own.value;
      } else {
        PrependTwice(names, [], Merged(sections, i + 1));
      }
    }
    PrependTwice(names, [], Ok([]));
    return Ok(names);
  }

  lemma {:induction false} PrependTwice(a: seq<seq<Byte>>, b: seq<seq<Byte>>, r: Result<seq<seq<Byte>>>)
    ensures Prepend(a, Prepend(b, r)) == Prepend(a + b, r) && (b == [] ==> Prepend(b, r) == r && a + b == a)
  {
    assert a + [] == a;
    if r.Ok? {
      assert a + (b + r.value) == a + b + r.value && [] + r.value == r.value;
    }
  }

  // ---------------------------------------------------------------- the verdict

  datatype Finding = HasInterpreter | Needs(name: seq<Byte>)

  function Interpreters(segments: seq<Segment>): seq<Finding> {
    if segments == [] then []
    else if segments[0].kind == Interp then [HasInterpreter] + Interpreters(segments[1..])
    else Interpreters(segments[1..])
  }

  function NeedsAll(names: seq<seq<Byte>>): seq<Finding> {
    seq(|names|, i requires 0 <= i < |names| => Needs(names[i]))
  }

  /** Why the file is not static; nothing when it is. */
  function Findings(data: seq<Byte>): Result<seq<Finding>> {
    match ReadSegments(data)
    case Err(e) => Err(e)
    case Ok(segments) =>
      match Names(data, segments)
      case Err(e) => Err(e)
      case Ok(names) => Ok(Interpreters(segments) + NeedsAll(names))
  }

  method FindingsFor(data: seq<Byte>) returns (r: Result<seq<Finding>>)
    ensures r == Findings(data)
  {
    var segments := ReadSegments(data);
    if segments.Err? {
      return Err(segments.error);
    }
    var names := NeededLibraries(data, segments.value);
    if names.Err? {
      return Err(names.error);
    }
    return Ok(Interpreters(segments.value) + NeedsAll(names.value));
  }

  /** The script's exit code, given how many arguments it got and what reading the file gave. */
  method ExitCode(arguments: nat, file: Option<seq<Byte>>) returns (code: nat)
    ensures code == 2 <==> arguments != 1
    ensures code == 0 <==> arguments == 1 && file.Some? && Static(file.value)
    ensures code <= 2
  {
    if arguments != 1 {
      return 2;
    }
    if file.None? {
      return 1;
    }
    var found := FindingsFor(file.value);
    GateIsExact(file.value);
    code := if found.Err? || found.value != [] then 1 else 0;
  }

  // ---------------------------------------------------------------- what static means

  /** A little-endian ELF64 whose program header table lies within the file. */
  ghost predicate Readable(data: seq<Byte>) {
    && |data| >= 64
    && data[0] == 0x7f && data[1] == 0x45 && data[2] == 0x4c && data[3] == 0x46
    && data[4] == 2 && data[5] == 1
    && Le(data, 54, 2) == 56 && HeaderAt(data, Le(data, 56, 2)) <= |data|
  }

  /** Where the `i`-th program header starts. */
  function HeaderAt(data: seq<Byte>, i: nat): nat
    requires |data| >= 64
  {
    Le(data, 32, 8) + 56 * i
  }

  ghost predicate HasHeader(data: seq<Byte>, i: nat)
    requires Readable(data)
  {
    i < Le(data, 56, 2)
  }

  ghost predicate NamesInterpreter(data: seq<Byte>)
    requires Readable(data)
  {
    exists i: nat :: HasHeader(data, i) && SegmentAt(data, HeaderAt(data, i)).kind == Interp
  }

  /** The `k`-th entry of the section lies within it and within the file. */
  ghost predicate Fits(data: seq<Byte>, s: Segment, k: nat) {
    s.offset + 16 * k + 16 <= s.offset + s.filesz && s.offset + 16 * k + 16 <= |data|
  }

  /** The `k`-th entry asks for a library, and no terminator comes before it. */
  ghost predicate Asks(data: seq<Byte>, s: Segment, k: nat) {
    && Fits(data, s, k)
    && EntryAt(data, s.offset + 16 * k).tag == Needed
    && forall j :: 0 <= j < k ==> EntryAt(data, s.offset + 16 * j).tag != Null
  }

  ghost predicate NamesLibrary(data: seq<Byte>)
    requires Readable(data)
  {
    exists i: nat, k: nat :: HasHeader(data, i)
      && SegmentAt(data, HeaderAt(data, i)).kind == Dynamic && Asks(data, SegmentAt(data, HeaderAt(data, i)), k)
  }

  ghost predicate Static(data: seq<Byte>) {
    Readable(data) && !NamesInterpreter(data) && !NamesLibrary(data)
  }

  // ---------------------------------------------------------------- the gate is exact

  lemma {:induction false} ReadableExactly(data: seq<Byte>)
    ensures ReadSegments(data).Ok? <==> Readable(data)
  {
    if |data| >= 4 {
      assert Prefix(data, 4) == [data[0], data[1], data[2], data[3]];
    }
  }

  /** The entries read are those of the section, in order, none a terminator. */
  lemma {:induction false} TableListed(data: seq<Byte>, at: nat, limit: nat, k: nat)
    requires limit <= |data| && k < |Table(data, at, limit)|
    ensures at + 16 * k + 16 <= limit && Table(data, at, limit)[k] == EntryAt(data, at + 16 * k)
    ensures Table(data, at, limit)[k].tag != Null
    decreases k
  {
    if k > 0 {
      TableListed(data, at + 16, limit, k - 1);
      assert at + 16 + 16 * (k - 1) == at + 16 * k;
    }
  }

  /** They stop only at a terminator or where no further one fits. */
  lemma {:induction false} TableStops(data: seq<Byte>, at: nat, limit: nat)
    requires limit <= |data|
    ensures var n := |Table(data, at, limit)|;
            at + 16 * n + 16 > limit || EntryAt(data, at + 16 * n).tag == Null
    decreases limit - at
  {
    if at + 16 <= limit && EntryAt(data, at).tag != Null {
      TableStops(data, at + 16, limit);
      assert at + 16 + 16 * |Table(data, at + 16, limit)| == at + 16 * |Table(data, at, limit)|;
    }
  }

  lemma {:induction false} ValuesExist(entries: seq<Entry>, tag: int)
    ensures Values(entries, tag) != [] <==> exists k :: 0 <= k < |entries| && entries[k].tag == tag
    decreases |entries|
  {
    if entries != [] {
      ValuesExist(entries[1..], tag);
      if exists k :: 0 <= k < |entries| && entries[k].tag == tag {
        var k :| 0 <= k < |entries| && entries[k].tag == tag;
        assert k > 0 ==> entries[1..][k - 1].tag == tag;
      }
      if k :| 0 <= k < |entries[1..]| && entries[1..][k].tag == tag {
        assert entries[k + 1].tag == tag;
      }
    }
  }

  ghost predicate Wants(data: seq<Byte>, s: Segment) {
    s.kind == Dynamic && exists k: nat :: Asks(data, s, k)
  }

  lemma {:induction false} AsksIfListed(data: seq<Byte>, s: Segment, k: nat)
    requires var es := Table(data, s.offset, Limit(data, s)); k < |es| && es[k].tag == Needed
    ensures Asks(data, s, k)
  {
    var limit := Limit(data, s);
    TableListed(data, s.offset, limit, k);
    forall j | 0 <= j < k
      ensures EntryAt(data, s.offset + 16 * j).tag != Null
    {
      TableListed(data, s.offset, limit, j);
    }
  }

  lemma {:induction false} ListedIfAsks(data: seq<Byte>, s: Segment, k: nat)
    requires Asks(data, s, k)
    ensures var es := Table(data, s.offset, Limit(data, s)); k < |es| && es[k].tag == Needed
  {
    var limit := Limit(data, s);
    TableStops(data, s.offset, limit);
    TableListed(data, s.offset, limit, k);
  }

  lemma {:induction false} WantsExactly(data: seq<Byte>, s: Segment)
    ensures Values(Entries(data, s), Needed) != [] <==> Wants(data, s)
  {
    var es := Entries(data, s);
    ValuesExist(es, Needed);
    if s.kind == Dynamic {
      if k :| 0 <= k < |es| && es[k].tag == Needed {
        AsksIfListed(data, s, k);
      }
      if k: nat :| Asks(data, s, k) {
        ListedIfAsks(data, s, k);
      }
    }
  }

  /** Resolving the names is refused only over a section that does ask for a library: one without a
      string table, or with one no loaded segment maps. */
  ghost predicate Unresolved(data: seq<Byte>, segments: seq<Segment>, s: Segment) {
    && Wants(data, s)
    && var tables := Values(Entries(data, s), StrTab);
       tables == [] || forall i :: 0 <= i < |segments| ==> !Maps(segments[i], tables[0])
  }

  lemma {:induction false} SectionExactly(data: seq<Byte>, segments: seq<Segment>, s: Segment)
    ensures var r := NamesIn(data, segments, Entries(data, s));
            && (r == Ok([]) <==> !Wants(data, s))
            && (r.Err? <==> Unresolved(data, segments, s))
  {
    WantsExactly(data, s);
  }

  lemma {:induction false} MergedExactly(sections: seq<Result<seq<seq<Byte>>>>, i: nat)
    requires i <= |sections|
    ensures Merged(sections, i) == Ok([]) <==> forall k :: i <= k < |sections| ==> sections[k] == Ok([])
    ensures Merged(sections, i).Err? <==> exists k :: i <= k < |sections| && sections[k].Err?
    decreases |sections| - i
  {
    if i < |sections| {
      MergedExactly(sections, i + 1);
      var rest := Merged(sections, i + 1);
      if sections[i].Ok? && rest.Ok? {
        assert |sections[i].value + rest.value| == |sections[i].value| + |rest.value|;
      }
    }
  }

  lemma {:induction false} NamesExactly(data: seq<Byte>, segments: seq<Segment>)
    ensures Names(data, segments) == Ok([]) <==> forall k :: 0 <= k < |segments| ==> !Wants(data, segments[k])
    ensures Names(data, segments).Err? <==> exists k :: 0 <= k < |segments| && Unresolved(data, segments, segments[k])
  {
    var sections := SectionNames(data, segments);
    MergedExactly(sections, 0);
    forall k | 0 <= k < |segments|
      ensures sections[k] == Ok([]) <==> !Wants(data, segments[k])
      ensures sections[k].Err? <==> Unresolved(data, segments, segments[k])
    {
      SectionExactly(data, segments, segments[k]);
    }
    assert |sections| == |segments|;
  }

  lemma {:induction false} InterpretersExactly(segments: seq<Segment>)
    ensures Interpreters(segments) == [] <==> forall i :: 0 <= i < |segments| ==> segments[i].kind != Interp
    decreases |segments|
  {
    if segments != [] {
      InterpretersExactly(segments[1..]);
      assert forall i :: 1 <= i < |segments| ==> segments[i] == segments[1..][i - 1];
      assert forall i :: 0 <= i < |segments[1..]| ==> segments[1..][i] == segments[i + 1];
    }
  }

  /** What the headers name, said of the segments read from them. */
  lemma {:induction false} SegmentsAreHeaders(data: seq<Byte>, segments: seq<Segment>)
    requires Readable(data) && ReadSegments(data) == Ok(segments)
    ensures NamesInterpreter(data) <==> exists i :: 0 <= i < |segments| && segments[i].kind == Interp
    ensures NamesLibrary(data) <==> exists i :: 0 <= i < |segments| && Wants(data, segments[i])
  {
    assert forall i: nat :: HasHeader(data, i) <==> i < |segments|;
    assert forall i: nat :: i < |segments| ==> segments[i] == SegmentAt(data, HeaderAt(data, i));
    if i: nat :| HasHeader(data, i) && SegmentAt(data, HeaderAt(data, i)).kind == Interp {
      assert segments[i].kind == Interp;
    }
    if i: nat, k: nat :| HasHeader(data, i) && SegmentAt(data, HeaderAt(data, i)).kind == Dynamic
                         && Asks(data, SegmentAt(data, HeaderAt(data, i)), k) {
      assert Wants(data, segments[i]);
    }
    if i :| 0 <= i < |segments| && segments[i].kind == Interp {
      assert HasHeader(data, i);
    }
    if i :| 0 <= i < |segments| && Wants(data, segments[i]) {
      assert HasHeader(data, i);
    }
  }

  lemma {:induction false} FindingsExactly(data: seq<Byte>, segments: seq<Segment>)
    requires ReadSegments(data) == Ok(segments)
    ensures Findings(data) == Ok([]) <==> Interpreters(segments) == [] && Names(data, segments) == Ok([])
  {
    var names := Names(data, segments);
    if names.Ok? {
      assert |Interpreters(segments) + NeedsAll(names.value)| == |Interpreters(segments)| + |names.value|;
    }
  }

  /** Every byte string: nothing is found against it exactly when it is static. */
  lemma {:induction false} GateIsExact(data: seq<Byte>)
    ensures Findings(data) == Ok([]) <==> Static(data)
  {
    ReadableExactly(data);
    if Readable(data) {
      var segments := ReadSegments(data).value;
      SegmentsAreHeaders(data, segments);
      InterpretersExactly(segments);
      NamesExactly(data, segments);
      FindingsExactly(data, segments);
    }
  }

  /** A file whose headers can be read is refused, rather than reported on, only if it names a
      library. */
  lemma {:induction false} RefusedOnlyOverALibrary(data: seq<Byte>)
    requires Readable(data) && Findings(data).Err?
    ensures NamesLibrary(data)
  {
    ReadableExactly(data);
    var segments := ReadSegments(data).value;
    SegmentsAreHeaders(data, segments);
    NamesExactly(data, segments);
  }
}
