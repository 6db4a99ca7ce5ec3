/** Printing a release script and reading it back: its commands, with nothing of them lost. */
module ReleaseScriptsRoundTrip {
  import opened ReleaseScripts

  // ---------------------------------------------------------------- a script

  /** A line's text between its indentation and its trailing white space. */
  datatype Line = Line(lead: string, body: string, trail: string)

  /** A comment line, a command over one or more lines, or one still open at the end of the file. */
  datatype Item = Remark(lead: string, text: string) | Cmd(lines: seq<Line>) | OpenCmd(lines: seq<Line>)

  datatype Items = NoItems | Then(item: Item, rest: Items)

  /** Every line but the last of a command ends in a backslash. */
  function ShowLine(l: Line, more: bool): string {
    l.lead + (l.body + ((if more then "\\" else "") + l.trail))
  }

  function ShowLines(ls: seq<Line>, open: bool): (r: seq<string>)
    ensures |r| == |ls|
    ensures forall k :: 0 <= k < |ls| ==> r[k] == ShowLine(ls[k], open || k + 1 < |ls|)
  {
    seq(|ls|, k requires 0 <= k < |ls| => ShowLine(ls[k], open || k + 1 < |ls|))
  }

  function ShowItem(it: Item): seq<string> {
    match it
    case Remark(lead, text) => [lead + ("#" + text)]
    case Cmd(ls) => ShowLines(ls, false)
    case OpenCmd(ls) => ShowLines(ls, true)
  }

  function ShowItems(items: Items): seq<string> {
    match items
    case NoItems => []
    case Then(it, rest) => ShowItem(it) + ShowItems(rest)
  }

  /** The bodies, each after a space. */
  function JoinedText(ls: seq<Line>): string {
    if ls == [] then "" else JoinedText(ls[..|ls| - 1]) + (" " + ls[|ls| - 1].body)
  }

  /** What an item gives, before what comes after it. */
  function Given(it: Item, number: nat, rest: seq<Joined>): seq<Joined> {
    match it
    case Remark(_, _) => rest
    case Cmd(ls) => [Joined(number, JoinedText(ls))] + rest
    case OpenCmd(_) => []
  }

  /** The commands, numbered by their first lines, the first item on line `number`. */
  function Expected(items: Items, number: nat): seq<Joined> {
    match items
    case NoItems => []
    case Then(it, rest) => Given(it, number, Expected(rest, number + |ShowItem(it)|))
  }

  // ---------------------------------------------------------------- what may be printed

  predicate AllIn(s: string, cs: set<char>) {
    s == "" || (s[0] in cs && AllIn(s[1..], cs))
  }

  /** A body neither starts with white space nor ends in a backslash, nor, on a last line, in white
      space. */
  predicate LineOk(ws: Spaces, l: Line, more: bool) {
    && AllIn(l.lead, ws) && AllIn(l.trail, ws)
    && (l.body != "" ==> && l.body[0] !in ws && l.body[|l.body| - 1] != '\\'
                         && (!more ==> l.body[|l.body| - 1] !in ws))
  }

  ghost predicate LinesOk(ws: Spaces, ls: seq<Line>, open: bool) {
    && ls != [] && (ls[0].body != "" ==> ls[0].body[0] != '#')
    && forall k :: 0 <= k < |ls| ==> LineOk(ws, ls[k], open || k + 1 < |ls|)
  }

  ghost predicate ItemOk(ws: Spaces, it: Item) {
    match it
    case Remark(lead, _) => AllIn(lead, ws)
    case Cmd(ls) => LinesOk(ws, ls, false)
    case OpenCmd(ls) => LinesOk(ws, ls, true)
  }

  ghost predicate ItemsOk(ws: Spaces, items: Items)
    decreases items, 0
  {
    match items
    case NoItems => true
    case Then(it, rest) => FirstOk(ws, it, rest)
  }

  ghost predicate FirstOk(ws: Spaces, it: Item, rest: Items)
    decreases rest, 1
  {
    ItemOk(ws, it) && (it.OpenCmd? ==> rest.NoItems?) && ItemsOk(ws, rest)
  }

  // ---------------------------------------------------------------- stripping

  lemma {:induction false} StripLeftSkips(ws: Spaces, lead: string, rest: string)
    requires AllIn(lead, ws)
    ensures StripLeft(ws, lead + rest) == StripLeft(ws, rest)
    decreases |lead|
  {
    if lead != "" {
      assert (lead + rest)[1..] == lead[1..] + rest;
      StripLeftSkips(ws, lead[1..], rest);
    } else {
      assert lead + rest == rest;
    }
  }

  lemma {:induction false} AllInEnd(s: string, cs: set<char>)
    requires AllIn(s, cs) && s != ""
    ensures s[|s| - 1] in cs && AllIn(s[..|s| - 1], cs)
    decreases |s|
  {
    if |s| > 1 {
      AllInEnd(s[1..], cs);
      assert s[1..][..|s| - 2] == s[..|s| - 1][1..];
    }
  }

  lemma {:induction false} StripRightSkips(drop: set<char>, s: string, trail: string)
    requires AllIn(trail, drop)
    ensures StripRight(drop, s + trail) == StripRight(drop, s)
    decreases |trail|
  {
    if trail != "" {
      AllInEnd(trail, drop);
      assert (s + trail)[..|s + trail| - 1] == s + trail[..|trail| - 1];
      StripRightSkips(drop, s, trail[..|trail| - 1]);
    } else {
      assert s + trail == s;
    }
  }

  // ---------------------------------------------------------------- one line

  lemma {:induction false} LineIsNoComment(ws: Spaces, l: Line, more: bool)
    requires '\\' !in ws && LineOk(ws, l, more) && (l.body != "" ==> l.body[0] != '#')
    ensures !IsComment(ws, ShowLine(l, more))
  {
    var rest := l.body + ((if more then "\\" else "") + l.trail);
    StripLeftSkips(ws, l.lead, rest);
    if l.body == "" && !more {
      assert rest == l.trail;
      StripLeftSkips(ws, l.trail, "");
      assert l.trail + "" == l.trail;
    }
  }

  lemma {:induction false} RemarkIsComment(ws: Spaces, lead: string, text: string)
    requires '#' !in ws && AllIn(lead, ws)
    ensures IsComment(ws, lead + ("#" + text))
  {
    StripLeftSkips(ws, lead, "#" + text);
  }

  /** What a line says between its white space. */
  function Core(l: Line, more: bool): string {
    if more then l.body + "\\" else l.body
  }

  lemma {:induction false} ShownAround(l: Line, more: bool)
    ensures ShowLine(l, more) == l.lead + (Core(l, more) + l.trail)
  {
    assert l.body + ("" + l.trail) == l.body + l.trail;
    assert l.body + ("\\" + l.trail) == (l.body + "\\") + l.trail;
  }

  /** Stripped on the right, the white space after the core goes; if there is no core, all of it. */
  lemma {:induction false} RightOf(ws: Spaces, lead: string, core: string, trail: string)
    requires AllIn(lead, ws) && AllIn(trail, ws) && (core != "" ==> core[|core| - 1] !in ws)
    ensures StripRight(ws, lead + (core + trail)) == if core == "" then "" else lead + core
  {
    assert lead + (core + trail) == (lead + core) + trail;
    StripRightSkips(ws, lead + core, trail);
    if core == "" {
      assert lead + core == "" + lead;
      StripRightSkips(ws, "", lead);
    }
  }

  /** Stripped on both sides, only the core stays. */
  lemma {:induction false} BothOf(ws: Spaces, lead: string, core: string, trail: string)
    requires AllIn(lead, ws) && AllIn(trail, ws) && (core != "" ==> core[0] !in ws && core[|core| - 1] !in ws)
    ensures StripRight(ws, StripLeft(ws, lead + (core + trail))) == core
  {
    StripLeftSkips(ws, lead, core + trail);
    if core == "" {
      assert core + trail == trail + "";
      StripLeftSkips(ws, trail, "");
    } else {
      assert (core + trail)[0] == core[0];
      StripRightSkips(ws, core, trail);
    }
  }

  lemma {:induction false} LineContinues(ws: Spaces, l: Line, more: bool)
    requires '\\' !in ws && LineOk(ws, l, more)
    ensures Continues(ws, ShowLine(l, more)) <==> more
  {
    ShownAround(l, more);
    RightOf(ws, l.lead, Core(l, more), l.trail);
  }

  lemma {:induction false} LinePiece(ws: Spaces, l: Line, more: bool)
    requires '\\' !in ws && LineOk(ws, l, more)
    ensures Piece(ws, ShowLine(l, more)) == " " + l.body
  {
    ShownAround(l, more);
    BothOf(ws, l.lead, Core(l, more), l.trail);
    BackslashGoes(l.body, more);
  }

  lemma {:induction false} BackslashGoes(body: string, more: bool)
    requires body != "" ==> body[|body| - 1] != '\\'
    ensures StripRight({'\\'}, if more then body + "\\" else body) == body
  {
    if more {
      StripRightSkips({'\\'}, body, "\\");
    }
  }

  // ---------------------------------------------------------------- one command

  ghost predicate StandsAt(lines: seq<string>, i: nat, printed: seq<string>) {
    i + |printed| <= |lines| && forall k :: 0 <= k < |printed| ==> lines[i + k] == printed[k]
  }

  /** A printed command runs to its own last line; an open one to the end of the file. */
  lemma {:induction false} CommandRuns(ws: Spaces, lines: seq<string>, i: nat, ls: seq<Line>, open: bool, k: nat)
    requires '\\' !in ws && LinesOk(ws, ls, open) && StandsAt(lines, i, ShowLines(ls, open)) && k < |ls|
    requires open ==> i + |ls| == |lines|
    ensures LastLine(ws, lines, i + k) == if open then |lines| else i + |ls| - 1
    decreases |ls| - k
  {
    var l, more := ls[k], open || k + 1 < |ls|;
    assert lines[i + k] == ShowLines(ls, open)[k] == ShowLine(l, more);
    LineContinues(ws, l, more);
    if k + 1 < |ls| {
      CommandRuns(ws, lines, i, ls, open, k + 1);
    }
  }

  lemma {:induction false} CommandText(ws: Spaces, lines: seq<string>, i: nat, ls: seq<Line>, open: bool, n: nat)
    requires '\\' !in ws && LinesOk(ws, ls, open) && StandsAt(lines, i, ShowLines(ls, open)) && n <= |ls|
    ensures Text(ws, lines, i, i + n) == JoinedText(ls[..n])
    decreases n
  {
    if n > 0 {
      CommandText(ws, lines, i, ls, open, n - 1);
      assert Piece(ws, lines[i + (n - 1)]) == " " + ls[n - 1].body by {
        assert lines[i + (n - 1)] == ShowLines(ls, open)[n - 1];
        LinePiece(ws, ls[n - 1], open || n < |ls|);
      }
      assert ls[..n][..n - 1] == ls[..n - 1];
    }
  }

  lemma {:induction false} FirstLineIsNoComment(ws: Spaces, lines: seq<string>, i: nat, ls: seq<Line>, open: bool)
    requires '\\' !in ws && LinesOk(ws, ls, open) && StandsAt(lines, i, ShowLines(ls, open))
    ensures i < |lines| && !IsComment(ws, lines[i])
  {
    assert lines[i + 0] == ShowLines(ls, open)[0];
    LineIsNoComment(ws, ls[0], open || 1 < |ls|);
  }

  lemma {:induction false} CommandIs(ws: Spaces, lines: seq<string>, i: nat, last: nat, text: string)
    requires i <= last <= |lines| && i < |lines| && !IsComment(ws, lines[i]) && LastLine(ws, lines, i) == last
    requires last < |lines| ==> Text(ws, lines, i, last + 1) == text
    ensures CommandsFrom(ws, lines, i) ==
              if last == |lines| then [] else [Joined(i + 1, text)] + CommandsFrom(ws, lines, last + 1)
  {
  }

  lemma {:induction false} CommandReads(ws: Spaces, lines: seq<string>, i: nat, ls: seq<Line>, open: bool)
    requires '\\' !in ws && LinesOk(ws, ls, open) && StandsAt(lines, i, ShowLines(ls, open))
    requires open ==> i + |ls| == |lines|
    ensures CommandsFrom(ws, lines, i) ==
              if open then [] else [Joined(i + 1, JoinedText(ls))] + CommandsFrom(ws, lines, i + |ls|)
  {
    var last := if open then |lines| else i + |ls| - 1;
    assert LastLine(ws, lines, i) == last by {
      CommandRuns(ws, lines, i, ls, open, 0);
    }
    assert !open ==> Text(ws, lines, i, last + 1) == JoinedText(ls) by {
      CommandText(ws, lines, i, ls, open, |ls|);
      assert ls[..|ls|] == ls;
    }
    assert !IsComment(ws, lines[i]) by {
      FirstLineIsNoComment(ws, lines, i, ls, open);
    }
    CommandIs(ws, lines, i, last, JoinedText(ls));
  }

  // ---------------------------------------------------------------- the script

  lemma {:induction false} RemarkReads(ws: Spaces, lines: seq<string>, i: nat, lead: string, text: string)
    requires '#' !in ws && AllIn(lead, ws) && StandsAt(lines, i, [lead + ("#" + text)])
    ensures CommandsFrom(ws, lines, i) == CommandsFrom(ws, lines, i + 1)
  {
    assert lines[i + 0] == [lead + ("#" + text)][0];
    RemarkIsComment(ws, lead, text);
  }

  lemma {:induction false} ItemReads(ws: Spaces, lines: seq<string>, i: nat, it: Item)
    requires '\\' !in ws && '#' !in ws && ItemOk(ws, it) && StandsAt(lines, i, ShowItem(it))
    requires it.OpenCmd? ==> i + |ShowItem(it)| == |lines|
    ensures CommandsFrom(ws, lines, i) == Given(it, i + 1, CommandsFrom(ws, lines, i + |ShowItem(it)|))
  {
    match it
    case Remark(lead, text) => RemarkReads(ws, lines, i, lead, text);
    case Cmd(ls) => CommandReads(ws, lines, i, ls, false);
    case OpenCmd(ls) => CommandReads(ws, lines, i, ls, true);
  }

  lemma {:induction false} FirstItemReads(ws: Spaces, lines: seq<string>, i: nat, it: Item, rest: Items)
    requires '\\' !in ws && '#' !in ws && FirstOk(ws, it, rest) && StandsAt(lines, i, ShowItem(it) + ShowItems(rest))
    requires i + |ShowItem(it)| + |ShowItems(rest)| == |lines|
    ensures StandsAt(lines, i + |ShowItem(it)|, ShowItems(rest)) && ItemsOk(ws, rest)
    ensures CommandsFrom(ws, lines, i) == Given(it, i + 1, CommandsFrom(ws, lines, i + |ShowItem(it)|))
  {
    assert StandsAt(lines, i, ShowItem(it)) && StandsAt(lines, i + |ShowItem(it)|, ShowItems(rest)) by {
      Split(lines, i, ShowItem(it), ShowItems(rest));
    }
    assert it.OpenCmd? ==> i + |ShowItem(it)| == |lines|;
    assert CommandsFrom(ws, lines, i) == Given(it, i + 1, CommandsFrom(ws, lines, i + |ShowItem(it)|)) by {
      ItemReads(ws, lines, i, it);
    }
  }

  lemma {:induction false} ItemsRead(ws: Spaces, lines: seq<string>, i: nat, items: Items)
    requires '\\' !in ws && '#' !in ws && ItemsOk(ws, items)
    requires StandsAt(lines, i, ShowItems(items)) && i + |ShowItems(items)| == |lines|
    ensures CommandsFrom(ws, lines, i) == Expected(items, i + 1)
    decreases items
  {
    match items
    case NoItems =>
    case Then(it, rest) =>
      FirstItemReads(ws, lines, i, it, rest);
      ItemsRead(ws, lines, i + |ShowItem(it)|, rest);
  }

  lemma {:induction false} Split(lines: seq<string>, i: nat, a: seq<string>, b: seq<string>)
    requires StandsAt(lines, i, a + b)
    ensures StandsAt(lines, i, a) && StandsAt(lines, i + |a|, b)
  {
    forall k | 0 <= k < |a|
      ensures lines[i + k] == a[k]
    {
      assert (a + b)[k] == a[k];
    }
    forall k | 0 <= k < |b|
      ensures lines[i + |a| + k] == b[k]
    {
      assert lines[i + (|a| + k)] == (a + b)[|a| + k] == b[k];
    }
  }

  /** Reading back a printed script gives its commands, each the bodies of its lines after single
      spaces, numbered by its first line; comments and what is still open at the end give none. */
  lemma {:induction false} ScriptRoundTrip(ws: Spaces, items: Items)
    requires '\\' !in ws && '#' !in ws && ItemsOk(ws, items)
    ensures CommandsFrom(ws, ShowItems(items), 0) == Expected(items, 1)
  {
    ItemsRead(ws, ShowItems(items), 0, items);
  }
}
