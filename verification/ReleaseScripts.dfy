/**
  Shell commands of a release script (`check-release-pins.py`): continuation lines are joined, full
  comment lines dropped, and each `cargo build` must run with RUSTFLAGS cleared.

  What the patterns find in a text is a parameter.
 */
module ReleaseScripts {
  import opened Options

  /** What is white space; the model leaves the Unicode table open. */
  type Spaces = set<char>

  // ---------------------------------------------------------------- lines

  function StripLeft(ws: Spaces, s: string): string {
    if s != "" && s[0] in ws then StripLeft(ws, s[1..]) else s
  }

  function StripRight(drop: set<char>, s: string): string {
    if s != "" && s[|s| - 1] in drop then StripRight(drop, s[..|s| - 1]) else s
  }

  predicate IsComment(ws: Spaces, line: string) {
    var s := StripLeft(ws, line);
    s != "" && s[0] == '#'
  }

  predicate Continues(ws: Spaces, line: string) {
    var s := StripRight(ws, line);
    s != "" && s[|s| - 1] == '\\'
  }

  /** What a line adds to its command. */
  function Piece(ws: Spaces, line: string): string {
    " " + StripRight({'\\'}, StripRight(ws, StripLeft(ws, line)))
  }

  // ---------------------------------------------------------------- commands

  /** Lines `first..end`, counted from 0, dropped as a comment, joined as a command, or left open at
      the end of the file. */
  datatype Part = Comment(first: nat) | Command(first: nat, end: nat) | Open(first: nat, end: nat)

  function PartEnd(p: Part): nat {
    if p.Comment? then p.first + 1 else p.end
  }

  function Text(ws: Spaces, lines: seq<string>, first: nat, end: nat): string
    requires first <= end <= |lines|
  {
    if first == end then "" else Text(ws, lines, first, end - 1) + Piece(ws, lines[end - 1])
  }

  /** The first line at or after `i` that does not continue. */
  function LastLine(ws: Spaces, lines: seq<string>, i: nat): (last: nat)
    requires i <= |lines|
    ensures i <= last <= |lines|
    ensures forall k :: i <= k < last ==> Continues(ws, lines[k])
    ensures last < |lines| ==> !Continues(ws, lines[last])
    decreases |lines| - i
  {
    if i == |lines| || !Continues(ws, lines[i]) then i else LastLine(ws, lines, i + 1)
  }

  /** The file from line `i`, where nothing is open, as parts. */
  function Parts(ws: Spaces, lines: seq<string>, i: nat): seq<Part>
    requires i <= |lines|
    decreases |lines| - i
  {
    if i == |lines| then []
    else if IsComment(ws, lines[i]) then [Comment(i)] + Parts(ws, lines, i + 1)
    else
      var last := LastLine(ws, lines, i);
      if last == |lines| then [Open(i, |lines|)] else [Command(i, last + 1)] + Parts(ws, lines, last + 1)
  }

  /** A comment line is one; a command runs from a line that is not a comment through lines that
      continue to one that does not; what is left open continues to the end of the file. */
  ghost predicate PartOk(ws: Spaces, lines: seq<string>, p: Part) {
    && p.first < PartEnd(p) <= |lines|
    && (p.Comment? <==> IsComment(ws, lines[p.first]))
    && (p.Command? ==> !Continues(ws, lines[p.end - 1]) && forall k :: p.first <= k < p.end - 1 ==> Continues(ws, lines[k]))
    && (p.Open? ==> p.end == |lines| && forall k :: p.first <= k < |lines| ==> Continues(ws, lines[k]))
  }

  ghost predicate Tile(ws: Spaces, lines: seq<string>, ps: seq<Part>, from: nat) {
    if ps == [] then from == |lines|
    else ps[0].first == from && PartOk(ws, lines, ps[0]) && Tile(ws, lines, ps[1..], PartEnd(ps[0]))
  }

  /** Every line is in exactly one part: the parts follow each other from the first line to the last. */
  lemma {:induction false} NoLineLost(ws: Spaces, lines: seq<string>, i: nat)
    requires i <= |lines|
    ensures Tile(ws, lines, Parts(ws, lines, i), i)
    decreases |lines| - i
  {
    if i < |lines| {
      var ps := Parts(ws, lines, i);
      if IsComment(ws, lines[i]) {
        NoLineLost(ws, lines, i + 1);
        assert ps[1..] == Parts(ws, lines, i + 1);
      } else if LastLine(ws, lines, i) < |lines| {
        NoLineLost(ws, lines, LastLine(ws, lines, i) + 1);
        assert ps[1..] == Parts(ws, lines, LastLine(ws, lines, i) + 1);
      } else {
        assert ps[1..] == [];
      }
    }
  }

  datatype Joined = Joined(number: nat, text: string)

  ghost predicate Fit(lines: seq<string>, ps: seq<Part>) {
    ps == [] || (ps[0].first <= PartEnd(ps[0]) <= |lines| && Fit(lines, ps[1..]))
  }

  /** The commands among the parts, numbered by their first line, counted from 1. */
  function Commands(ws: Spaces, lines: seq<string>, ps: seq<Part>): seq<Joined>
    requires Fit(lines, ps)
  {
    if ps == [] then []
    else if ps[0].Command? then
      [Joined(ps[0].first + 1, Text(ws, lines, ps[0].first, ps[0].end))] + Commands(ws, lines, ps[1..])
    else Commands(ws, lines, ps[1..])
  }

  /** The commands of the file from line `i`, where nothing is open. */
  function CommandsFrom(ws: Spaces, lines: seq<string>, i: nat): seq<Joined>
    requires i <= |lines|
    decreases |lines| - i
  {
    if i == |lines| then []
    else if IsComment(ws, lines[i]) then CommandsFrom(ws, lines, i + 1)
    else
      var last := LastLine(ws, lines, i);
      if last == |lines| then []
      else [Joined(i + 1, Text(ws, lines, i, last + 1))] + CommandsFrom(ws, lines, last + 1)
  }

  /** They are the commands among the file's parts. */
  lemma {:induction false} CommandsAreParts(ws: Spaces, lines: seq<string>, i: nat)
    requires i <= |lines|
    ensures Fit(lines, Parts(ws, lines, i)) && CommandsFrom(ws, lines, i) == Commands(ws, lines, Parts(ws, lines, i))
    decreases |lines| - i
  {
    if i < |lines| {
      var ps, last := Parts(ws, lines, i), LastLine(ws, lines, i);
      if IsComment(ws, lines[i]) {
        CommandsAreParts(ws, lines, i + 1);
        assert ps[1..] == Parts(ws, lines, i + 1);
      } else if last < |lines| {
        CommandsAreParts(ws, lines, last + 1);
        assert ps[1..] == Parts(ws, lines, last + 1);
      } else {
        assert ps[1..] == [] && Commands(ws, lines, ps[1..]) == [];
      }
    }
  }

  /** One more line of the open command. */
  lemma {:induction false} LineAdded(ws: Spaces, lines: seq<string>, first: nat, n: nat, done: seq<Joined>)
    requires first <= n < |lines| && !IsComment(ws, lines[first]) && LastLine(ws, lines, first) == LastLine(ws, lines, n)
    ensures Continues(ws, lines[n]) ==> LastLine(ws, lines, first) == LastLine(ws, lines, n + 1)
    ensures !Continues(ws, lines[n]) ==>
              done + CommandsFrom(ws, lines, first)
              == (done + [Joined(first + 1, Text(ws, lines, first, n + 1))]) + CommandsFrom(ws, lines, n + 1)
  {
  }

  /** `commands` and the one being joined since line `start` (none when 0) make up what the lines
      before `n` give. */
  ghost predicate Joining(ws: Spaces, lines: seq<string>, n: nat, start: nat, text: string, commands: seq<Joined>) {
    && n <= |lines| && start <= n && (start == 0 <==> text == "")
    && (start == 0 ==> commands + CommandsFrom(ws, lines, n) == CommandsFrom(ws, lines, 0))
    && (start > 0 ==>
          && text == Text(ws, lines, start - 1, n) && !IsComment(ws, lines[start - 1])
          && LastLine(ws, lines, start - 1) == LastLine(ws, lines, n)
          && commands + CommandsFrom(ws, lines, start - 1) == CommandsFrom(ws, lines, 0))
  }

  lemma {:induction false} LineJoined(ws: Spaces, lines: seq<string>, n: nat, start: nat, text: string, commands: seq<Joined>)
    requires n < |lines| && Joining(ws, lines, n, start, text, commands) && (text == "" ==> !IsComment(ws, lines[n]))
    ensures var from, all := if start == 0 then n + 1 else start, text + Piece(ws, lines[n]);
            if Continues(ws, lines[n]) then Joining(ws, lines, n + 1, from, all, commands)
            else Joining(ws, lines, n + 1, 0, "", commands + [Joined(from, all)])
  {
    var from := if start == 0 then n + 1 else start;
    LineAdded(ws, lines, from - 1, n, commands);
  }

  method JoinedCommands(ws: Spaces, lines: seq<string>) returns (commands: seq<Joined>)
    ensures commands == CommandsFrom(ws, lines, 0)
  {
    commands := [];
    var start, text := 0, "";
    for n := 0 to |lines|
      invariant Joining(ws, lines, n, start, text, commands)
    {
      if text == "" && IsComment(ws, lines[n]) {
        continue;
      }
      LineJoined(ws, lines, n, start, text, commands);
      if start == 0 {
        start := n + 1;
      }
      text := text + Piece(ws, lines[n]);
      if !Continues(ws, lines[n]) {
        commands := commands + [Joined(start, text)];
        start, text := 0, "";
      }
    }
  }

  ghost predicate Ascending(cs: seq<Joined>, above: nat) {
    && (forall k :: 0 <= k < |cs| ==> above < cs[k].number)
    && (forall a, b :: 0 <= a < b < |cs| ==> cs[a].number < cs[b].number)
  }

  lemma {:induction false} AscendingCons(c: Joined, rest: seq<Joined>, above: nat, next: nat)
    requires above < c.number <= next && Ascending(rest, next)
    ensures Ascending([c] + rest, above)
  {
    assert forall k :: 1 <= k < |[c] + rest| ==> ([c] + rest)[k] == rest[k - 1];
  }

  /** Commands are numbered in increasing order. */
  lemma {:induction false} NumbersIncrease(ws: Spaces, lines: seq<string>, i: nat)
    requires i <= |lines|
    ensures Ascending(CommandsFrom(ws, lines, i), i)
    decreases |lines| - i
  {
    if i < |lines| {
      var last := LastLine(ws, lines, i);
      if IsComment(ws, lines[i]) {
        NumbersIncrease(ws, lines, i + 1);
      } else if last < |lines| {
        NumbersIncrease(ws, lines, last + 1);
        AscendingCons(Joined(i + 1, Text(ws, lines, i, last + 1)), CommandsFrom(ws, lines, last + 1), i, last + 1);
      }
    }
  }

  // ---------------------------------------------------------------- RUSTFLAGS

  /** A `cargo build` or `cargo install`, and where it starts. */
  datatype Call = Call(build: bool, start: nat)

  /** The patterns: the first cargo call of a text, whether the text sets an empty RUSTFLAGS, whether
      it exports one. */
  datatype Patterns = Patterns(call: string -> Option<Call>, clears: string -> bool, exports: string -> bool)

  function Before(text: string, start: nat): string {
    if start < |text| then text[..start] else text
  }

  /** An earlier command without a cargo call exported an empty RUSTFLAGS. */
  ghost predicate ExportedBefore(p: Patterns, cs: seq<Joined>, k: nat)
    requires k <= |cs|
  {
    exists j :: 0 <= j < k && p.call(cs[j].text).None? && p.exports(cs[j].text)
  }

  /** The first cargo call of the command is a build, nothing before it on the command clears
      RUSTFLAGS, and no earlier command exported it empty. */
  ghost predicate Uncleared(p: Patterns, cs: seq<Joined>, k: nat)
    requires k < |cs|
  {
    var text := cs[k].text;
    var call := p.call(text);
    && call.Some? && call.value.build && !ExportedBefore(p, cs, k)
    && !p.clears(text[..if call.value.start < |text| then call.value.start else |text|])
  }

  method UnclearedCommands(p: Patterns, cs: seq<Joined>) returns (found: seq<nat>)
    ensures forall k :: k in found <==> 0 <= k < |cs| && Uncleared(p, cs, k)
    ensures forall a, b :: 0 <= a < b < |found| ==> found[a] < found[b]
  {
    found := [];
    var exported := false;
    for n := 0 to |cs|
      invariant exported <==> ExportedBefore(p, cs, n)
      invariant forall k :: k in found <==> 0 <= k < n && Uncleared(p, cs, k)
      invariant forall a, b :: 0 <= a < b < |found| ==> found[a] < found[b]
    {
      var call := p.call(cs[n].text);
      assert call.Some? ==> var text := cs[n].text;
        Before(text, call.value.start) == text[..if call.value.start < |text| then call.value.start else |text|];
      if call.None? {
        exported := exported || p.exports(cs[n].text);
      } else if call.value.build && !(exported || p.clears(Before(cs[n].text, call.value.start))) {
        assert forall a :: 0 <= a < |found| ==> found[a] in found;
        found := found + [n];
      }
    }
  }

  /** The first lines of exactly the commands of the file that build without a cleared RUSTFLAGS are
      reported, each once, in order. */
  method CheckRustflagsCleared(ws: Spaces, p: Patterns, lines: seq<string>) returns (found: seq<nat>)
    ensures var cs := CommandsFrom(ws, lines, 0);
            forall n :: n in found <==> exists k :: 0 <= k < |cs| && cs[k].number == n && Uncleared(p, cs, k)
    ensures forall a, b :: 0 <= a < b < |found| ==> found[a] < found[b]
  {
    var cs := JoinedCommands(ws, lines);
    var which := UnclearedCommands(p, cs);
    NumbersIncrease(ws, lines, 0);
    assert forall i :: 0 <= i < |which| ==> which[i] in which;
    found := seq(|which|, i requires 0 <= i < |which| => cs[which[i]].number);
    forall n
      ensures n in found <==> exists k :: 0 <= k < |cs| && cs[k].number == n && Uncleared(p, cs, k)
    {
      if n in found {
        var i :| 0 <= i < |found| && found[i] == n;
        assert which[i] in which;
      }
      if k :| 0 <= k < |cs| && cs[k].number == n && Uncleared(p, cs, k) {
        assert k in which;
        var i :| 0 <= i < |which| && which[i] == k;
        assert found[i] == n;
      }
    }
  }
}
