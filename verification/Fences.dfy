/**
  Markdown prose: the lines outside fenced code, numbered, with their code spans blanked. Two checks
  scan for it, each with a loop of its own (`check-doc-language.py`, `check-doc-links.py`).
 */
module Fences {
  import opened Options

  datatype Numbered = Numbered(number: nat, text: string)

  /** A stretch of a line. */
  datatype Span = Span(start: nat, end: nat)

  // ---------------------------------------------------------------- fences

  function Spaces(line: string): (n: nat)
    ensures n <= |line|
  {
    if line != "" && line[0] == ' ' then 1 + Spaces(line[1..]) else 0
  }

  /** The marker of a fence line: three backquotes or tildes after at most three spaces. */
  function Fence(line: string): (marker: Option<string>)
    ensures marker.Some? ==> |marker.value| == 3
  {
    var n := Spaces(line);
    if n <= 3 && n + 3 <= |line| && (line[n..n + 3] == "```" || line[n..n + 3] == "~~~")
    then Some(line[n..n + 3]) else None
  }

  /** A fence line is exactly at most three spaces, one of the two markers, and anything. */
  lemma {:induction false} FenceExactly(line: string, marker: string)
    ensures Fence(line) == Some(marker)
            <==> (marker == "```" || marker == "~~~") && exists n: nat :: FencedAfter(line, n, marker)
  {
    SpacesAre(line);
    if Fence(line) == Some(marker) {
      assert FencedAfter(line, Spaces(line), marker);
    }
    if (marker == "```" || marker == "~~~") && exists n: nat :: FencedAfter(line, n, marker) {
      var n: nat :| FencedAfter(line, n, marker);
      assert line[n] == line[n..n + 3][0] != ' ';
    }
  }

  /** The marker stands after `n` spaces, at most three. */
  ghost predicate FencedAfter(line: string, n: nat, marker: string) {
    n <= 3 && n + 3 <= |line| && line[n..n + 3] == marker && forall k :: 0 <= k < n ==> line[k] == ' '
  }

  lemma {:induction false} SpacesAre(line: string)
    ensures forall k :: 0 <= k < Spaces(line) ==> line[k] == ' '
    ensures Spaces(line) < |line| ==> line[Spaces(line)] != ' '
    decreases |line|
  {
    if line != "" && line[0] == ' ' {
      SpacesAre(line[1..]);
    }
  }

  /** No line between has the marker of line `o`. */
  ghost predicate StillOpen(lines: seq<string>, o: nat, n: nat)
    requires o < n <= |lines|
  {
    forall k :: o < k < n ==> Fence(lines[k]) != Fence(lines[o])
  }

  /** Line `n` comes after a fence line that opened a fence and with it still open. */
  ghost predicate Inside(lines: seq<string>, n: nat)
    requires n <= |lines|
    decreases n
  {
    exists o: nat :: o < n && Fence(lines[o]).Some? && !Inside(lines, o) && StillOpen(lines, o, n)
  }

  /** Line `o` opens the fence that line `n` is inside. */
  ghost predicate Opens(lines: seq<string>, o: nat, n: nat)
    requires o < n <= |lines|
  {
    Fence(lines[o]).Some? && !Inside(lines, o) && StillOpen(lines, o, n)
  }

  lemma {:induction false} Opener(lines: seq<string>, n: nat) returns (o: nat)
    requires n <= |lines| && Inside(lines, n)
    ensures o < n && Opens(lines, o, n)
  {
    o :| o < n && Fence(lines[o]).Some? && !Inside(lines, o) && StillOpen(lines, o, n);
  }

  lemma {:induction false} InsideIf(lines: seq<string>, o: nat, n: nat)
    requires o < n <= |lines| && Opens(lines, o, n)
    ensures forall k :: o < k <= n ==> Inside(lines, k)
  {
    forall k | o < k <= n
      ensures Inside(lines, k)
    {
      assert StillOpen(lines, o, k);
    }
  }

  // ---------------------------------------------------------------- blanking

  /** What `finditer` gives: in order, not overlapping, not empty, on the line. */
  ghost predicate InOrder(spans: seq<Span>, line: string) {
    && (forall i :: 0 <= i < |spans| ==> spans[i].start < spans[i].end <= |line|)
    && (forall i, j :: 0 <= i < j < |spans| ==> spans[i].end <= spans[j].start)
  }

  predicate Covered(spans: seq<Span>, k: nat) {
    exists i :: 0 <= i < |spans| && spans[i].start <= k < spans[i].end
  }

  function Blanks(n: nat): (s: string)
    ensures |s| == n && forall k :: 0 <= k < n ==> s[k] == ' '
  {
    seq(n, _ => ' ')
  }

  /** `sub`: the line from `from` on, each span replaced by as many spaces. */
  function BlankFrom(line: string, spans: seq<Span>, from: nat): string
    requires from <= |line| && InOrder(spans, line) && (spans != [] ==> from <= spans[0].start)
    decreases |spans|
  {
    if spans == [] then line[from..]
    else
      assert forall i :: 0 <= i < |spans[1..]| ==> spans[1..][i] == spans[i + 1];
      line[from..spans[0].start] + Blanks(spans[0].end - spans[0].start) + BlankFrom(line, spans[1..], spans[0].end)
  }

  /** Blanking keeps every column: a character in a span is a space, any other is itself. So a place
      found on the blanked line is the same place on the raw line. */
  lemma {:induction false} BlankingKeepsColumns(line: string, spans: seq<Span>, from: nat)
    requires from <= |line| && InOrder(spans, line) && (spans != [] ==> from <= spans[0].start)
    ensures |BlankFrom(line, spans, from)| == |line| - from
    ensures forall k :: from <= k < |line| ==>
              BlankFrom(line, spans, from)[k - from] == if Covered(spans, k) then ' ' else line[k]
    decreases |spans|
  {
    if spans != [] {
      var rest := spans[1..];
      assert forall i :: 0 <= i < |rest| ==> rest[i] == spans[i + 1];
      BlankingKeepsColumns(line, rest, spans[0].end);
      var out, tail := BlankFrom(line, spans, from), BlankFrom(line, rest, spans[0].end);
      forall k | from <= k < |line|
        ensures out[k - from] == if Covered(spans, k) then ' ' else line[k]
      {
        CoveredByFirst(spans, k);
        if k >= spans[0].end {
          assert out[k - from] == tail[k - spans[0].end];
        } else {
          forall i | 0 <= i < |rest|
            ensures !(rest[i].start <= k)
          {
            assert spans[0].end <= spans[i + 1].start;
          }
        }
      }
    }
  }

  lemma {:induction false} CoveredByFirst(spans: seq<Span>, k: nat)
    requires spans != []
    ensures Covered(spans, k) <==> spans[0].start <= k < spans[0].end || Covered(spans[1..], k)
  {
    if i :| 0 <= i < |spans| && spans[i].start <= k < spans[i].end {
      if i > 0 {
        assert spans[1..][i - 1] == spans[i];
      }
    }
    if i :| 0 <= i < |spans[1..]| && spans[1..][i].start <= k < spans[1..][i].end {
      assert spans[i + 1] == spans[1..][i];
    }
  }

  /** The code spans of a line. */
  type Finder = string -> seq<Span>

  ghost predicate Finds(find: Finder) {
    forall line :: InOrder(find(line), line)
  }

  function Blanked(find: Finder, line: string): string
    requires Finds(find)
  {
    BlankFrom(line, find(line), 0)
  }

  // ---------------------------------------------------------------- the two scans

  /** The lines outside fences among the first `n`, blanked if asked. */
  ghost function Prose(lines: seq<string>, find: Finder, asked: bool, n: nat): seq<Numbered>
    requires n <= |lines| && Finds(find)
    decreases n
  {
    if n == 0 then []
    else
      var rest := Prose(lines, find, asked, n - 1);
      if Inside(lines, n - 1) || Fence(lines[n - 1]).Some? then rest
      else rest + [Numbered(n, if asked then Blanked(find, lines[n - 1]) else lines[n - 1])]
  }

  /** `marker` is that of the fence line `n` is inside, if it is. */
  ghost predicate Tracks(lines: seq<string>, n: nat, marker: Option<string>)
    requires n <= |lines|
  {
    && (marker.Some? <==> Inside(lines, n))
    && forall o: nat {:trigger Opens(lines, o, n)} :: o < n && Opens(lines, o, n) ==> Fence(lines[o]) == marker
  }

  function Follow(marker: Option<string>, fence: Option<string>): Option<string> {
    if marker.None? then fence else if fence == marker then None else marker
  }

  /** What opened the fence around `n + 1`. */
  lemma {:induction false} OpensNext(lines: seq<string>, o: nat, n: nat)
    requires o <= n < |lines|
    ensures Opens(lines, o, n + 1) <==>
              if o == n then Fence(lines[n]).Some? && !Inside(lines, n)
              else Opens(lines, o, n) && Fence(lines[n]) != Fence(lines[o])
  {
    if o < n && StillOpen(lines, o, n) && Fence(lines[n]) != Fence(lines[o]) {
      assert StillOpen(lines, o, n + 1);
    }
    if StillOpen(lines, o, n + 1) && o < n {
      assert StillOpen(lines, o, n);
    }
  }

  lemma {:induction false} TracksOn(lines: seq<string>, n: nat, marker: Option<string>)
    requires n < |lines| && Tracks(lines, n, marker)
    ensures Tracks(lines, n + 1, Follow(marker, Fence(lines[n])))
  {
    var next := Follow(marker, Fence(lines[n]));
    forall o: nat | o < n + 1 && Opens(lines, o, n + 1)
      ensures next.Some? && Fence(lines[o]) == next
    {
      OpensNext(lines, o, n);
      if o < n {
        InsideIf(lines, o, n);
      }
    }
    if next.Some? {
      var o := n;
      if marker.Some? {
        o := Opener(lines, n);
      }
      OpensNext(lines, o, n);
      InsideIf(lines, o, n + 1);
    }
  }

  lemma {:induction false} ProseStep(lines: seq<string>, find: Finder, asked: bool, n: nat, marker: Option<string>)
    requires n < |lines| && Finds(find) && Tracks(lines, n, marker)
    ensures Tracks(lines, n + 1, Follow(marker, Fence(lines[n])))
    ensures Prose(lines, find, asked, n + 1)
            == if marker.Some? || Fence(lines[n]).Some? then Prose(lines, find, asked, n)
               else Prose(lines, find, asked, n) + [Numbered(n + 1, if asked then Blanked(find, lines[n]) else lines[n])]
  {
    TracksOn(lines, n, marker);
  }

  /** The language check's scan. */
  method MarkdownProse(lines: seq<string>, find: Finder) returns (prose: seq<Numbered>)
    requires Finds(find)
    ensures prose == Prose(lines, find, true, |lines|)
  {
    prose := [];
    var marker: Option<string> := None;
    for n := 0 to |lines|
      invariant Tracks(lines, n, marker) && prose == Prose(lines, find, true, n)
    {
      ProseStep(lines, find, true, n, marker);
      var fence := Fence(lines[n]);
      if marker.None? && fence.Some? {
        marker := fence;
      } else if marker.Some? && fence.Some? && fence.value == marker.value {
        marker := None;
      } else if marker.None? {
        prose := prose + [Numbered(n + 1, Blanked(find, lines[n]))];
      }
    }
  }

  ghost function Named(fence: string): Option<string> {
    if fence == "" then None else Some(fence)
  }

  /** The link check's scan, with "" for no fence; headings keep their spans when `blankCode` is off. */
  method ProseLines(lines: seq<string>, find: Finder, blankCode: bool) returns (kept: seq<Numbered>)
    requires Finds(find)
    ensures kept == Prose(lines, find, blankCode, |lines|)
  {
    kept := [];
    var fence := "";
    for n := 0 to |lines|
      invariant Tracks(lines, n, Named(fence)) && kept == Prose(lines, find, blankCode, n)
    {
      ProseStep(lines, find, blankCode, n, Named(fence));
      var marker := Fence(lines[n]);
      if fence != "" {
        fence := if marker.Some? && marker.value == fence then "" else fence;
      } else if marker.Some? {
        fence := marker.value;
      } else {
        kept := kept + [Numbered(n + 1, if blankCode then Blanked(find, lines[n]) else lines[n])];
      }
    }
  }

  /** The two agree on every text, and every column of a line they return is that column of the raw
      line. */
  method ScansAgree(lines: seq<string>, find: Finder) returns (prose: seq<Numbered>, kept: seq<Numbered>)
    requires Finds(find)
    ensures prose == kept
    ensures forall e :: e in prose ==> OnRawLine(lines, find, e)
  {
    prose := MarkdownProse(lines, find);
    kept := ProseLines(lines, find, true);
    ProseKeepsColumns(lines, find, |lines|);
  }

  /** The entry is a raw line with its code spans, and nothing else, turned to spaces. */
  ghost predicate OnRawLine(lines: seq<string>, find: Finder, e: Numbered) {
    && 1 <= e.number <= |lines|
    && var raw := lines[e.number - 1];
       && |e.text| == |raw|
       && forall k :: 0 <= k < |raw| ==> e.text[k] == if Covered(find(raw), k) then ' ' else raw[k]
  }

  lemma {:induction false} ProseKeepsColumns(lines: seq<string>, find: Finder, n: nat)
    requires n <= |lines| && Finds(find)
    ensures forall e :: e in Prose(lines, find, true, n) ==> OnRawLine(lines, find, e)
    decreases n
  {
    if n > 0 {
      ProseKeepsColumns(lines, find, n - 1);
      BlankingKeepsColumns(lines[n - 1], find(lines[n - 1]), 0);
    }
  }

  /** So a place found on a returned line is that place on the raw line, and what is found there, if
      it has no space in it, is what the raw line says. */
  lemma {:induction false} FoundOnRawLine(lines: seq<string>, find: Finder, e: Numbered, start: nat, end: nat)
    requires OnRawLine(lines, find, e) && start <= end <= |e.text| && ' ' !in e.text[start..end]
    ensures var raw := lines[e.number - 1]; end <= |raw| && raw[start..end] == e.text[start..end]
  {
    var raw := lines[e.number - 1];
    forall k | start <= k < end
      ensures raw[k] == e.text[k]
    {
      assert e.text[start..end][k - start] == e.text[k];
    }
  }
}
