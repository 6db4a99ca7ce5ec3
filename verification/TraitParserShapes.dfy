/**
  What the trait reader takes for an `async fn`, and members spelled out as brackets within brackets:
  no condition here is stated by the reader's own counting.
 */
module TraitParserShapes {
  import opened Options
  import opened Text
  import opened TraitParser
  import opened TraitParserRoundTrip

  // ---------------------------------------------------------------- the pattern

  /** A run of `cs` from `i` to just before `end`. */
  ghost predicate RunOf(text: string, i: nat, end: nat, cs: set<char>) {
    i < end <= |text| && forall k :: i <= k < end ==> text[k] in cs
  }

  /** No word character before `i`; from there `async`, spaces, `fn`, spaces, and a name at `name`. */
  ghost predicate AsyncFnAt(cs: Chars, text: string, i: nat, fn: nat, name: nat)
    requires i <= |text|
  {
    && (i == 0 || text[i - 1] !in cs.word)
    && Here(text, i, "async") && RunOf(text, i + 5, fn, cs.space)
    && Here(text, fn, "fn") && RunOf(text, fn + 2, name, cs.space)
    && name < |text| && text[name] in cs.word
  }

  lemma {:induction false} RunEndIs(text: string, i: nat, end: nat, cs: set<char>)
    requires i <= end <= |text| && (forall k :: i <= k < end ==> text[k] in cs) && (end < |text| ==> text[end] !in cs)
    ensures RunEnd(text, i, cs) == end
    decreases end - i
  {
    if i < end {
      RunEndIs(text, i + 1, end, cs);
    }
  }

  lemma {:induction false} RunEndHolds(text: string, i: nat, cs: set<char>)
    requires i <= |text|
    ensures var end := RunEnd(text, i, cs);
            (forall k :: i <= k < end ==> text[k] in cs) && (end < |text| ==> text[end] !in cs)
    decreases |text| - i
  {
    if i < |text| && text[i] in cs {
      RunEndHolds(text, i + 1, cs);
    }
  }

  lemma {:induction false} MatchIsAsyncFn(cs: Chars, text: string, i: nat)
    requires i <= |text| && MatchAt(cs, text, i).Some?
    ensures var m := MatchAt(cs, text, i).value;
            && m.start == i && RunOf(text, m.name, m.end, cs.word) && (m.end < |text| ==> text[m.end] !in cs.word)
            && AsyncFnAt(cs, text, i, RunEnd(text, i + 5, cs.space), m.name)
  {
    var fn := RunEnd(text, i + 5, cs.space);
    RunEndHolds(text, i + 5, cs.space);
    RunEndHolds(text, fn + 2, cs.space);
    RunEndHolds(text, RunEnd(text, fn + 2, cs.space), cs.word);
  }

  lemma {:induction false} AsyncFnMatches(cs: Chars, text: string, i: nat, fn: nat, name: nat)
    requires CharsOk(cs) && i <= |text| && AsyncFnAt(cs, text, i, fn, name)
    ensures MatchAt(cs, text, i).Some? && MatchAt(cs, text, i).value.name == name
  {
    HereAt(text, fn, "fn", 0);
    RunEndIs(text, i + 5, fn, cs.space);
    RunEndIs(text, fn + 2, name, cs.space);
  }

  /** A match is exactly that, with the whole word as the name. */
  lemma {:induction false} MatchExactly(cs: Chars, text: string, i: nat)
    requires CharsOk(cs) && i <= |text|
    ensures MatchAt(cs, text, i).Some? <==> exists fn: nat, name: nat :: AsyncFnAt(cs, text, i, fn, name)
    ensures MatchAt(cs, text, i).Some? ==>
              var m := MatchAt(cs, text, i).value;
              && m.start == i && RunOf(text, m.name, m.end, cs.word) && (m.end < |text| ==> text[m.end] !in cs.word)
              && exists fn: nat :: AsyncFnAt(cs, text, i, fn, m.name)
  {
    if MatchAt(cs, text, i).Some? {
      MatchIsAsyncFn(cs, text, i);
    }
    if fn: nat, name: nat :| AsyncFnAt(cs, text, i, fn, name) {
      AsyncFnMatches(cs, text, i, fn, name);
    }
  }

  // ---------------------------------------------------------------- first ends

  /** A balanced stretch ends where the brackets first cancel out; if they never do, with the text. */
  lemma {:induction false} CancelEndExactly(text: string, start: nat, i: nat, pair: Brackets)
    requires start <= i <= |text|
    ensures var end := CancelEnd(text, start, i, pair);
            && (forall k :: i < k < end ==> Nesting(text, start, k, pair) != 0)
            && (i < end && Nesting(text, start, end, pair) != 0 ==> end == |text|)
    decreases |text| - i
  {
    if i < |text| && Nesting(text, start, i + 1, pair) != 0 {
      CancelEndExactly(text, start, i + 1, pair);
    }
  }

  /** A header ends at the first `{` or `;` outside brackets; if there is none, with the text, as one
      that has no body. */
  lemma {:induction false} HeaderStopExactly(text: string, start: nat, i: nat)
    requires start <= i <= |text|
    ensures var stop := HeaderStop(text, start, i);
            && (forall k :: i <= k < stop.at ==> Nesting(text, start, k + 1, Round) != 0 || (text[k] != '{' && text[k] != ';'))
            && (stop.at < |text| ==> && Nesting(text, start, stop.at + 1, Round) == 0
                                     && (text[stop.at] == '{' || text[stop.at] == ';') && stop.mark == text[stop.at])
            && (stop.at == |text| ==> stop.mark == ';')
    decreases |text| - i
  {
    if i < |text| && !(Nesting(text, start, i + 1, Round) == 0 && Ending(text[i])) {
      HeaderStopExactly(text, start, i + 1);
    }
  }

  // ---------------------------------------------------------------- brackets within brackets

  datatype Tree = Ch(c: char) | Group(open: char, inner: seq<Tree>, close: char)

  function ShowTrees(ts: seq<Tree>): string {
    if ts == [] then "" else ShowTree(ts[0]) + ShowTrees(ts[1..])
  }

  function ShowTree(t: Tree): string {
    match t
    case Ch(c) => [c]
    case Group(open, inner, close) => [open] + (ShowTrees(inner) + [close])
  }

  /** Characters outside `openers` and `closers`, and groups between one of each. */
  predicate Grouped(ts: seq<Tree>, openers: set<char>, closers: set<char>) {
    ts == [] || (GroupedOne(ts[0], openers, closers) && Grouped(ts[1..], openers, closers))
  }

  predicate GroupedOne(t: Tree, openers: set<char>, closers: set<char>) {
    match t
    case Ch(c) => c !in openers && c !in closers
    case Group(open, inner, close) => open in openers && close in closers && Grouped(inner, openers, closers)
  }

  lemma {:induction false} NestingOfBoth(a: string, b: string, k: nat, pair: Brackets)
    requires k <= |b|
    ensures Nesting(a + b, 0, |a| + k, pair) == Nesting(a, 0, |a|, pair) + Nesting(b, 0, k, pair)
    decreases k
  {
    if k > 0 {
      NestingOfBoth(a, b, k - 1, pair);
    } else {
      NestingOfFirst(a, b, |a|, pair);
    }
  }

  lemma {:induction false} NestingOfFirst(a: string, b: string, k: nat, pair: Brackets)
    requires k <= |a|
    ensures Nesting(a + b, 0, k, pair) == Nesting(a, 0, k, pair)
    decreases k
  {
    if k > 0 {
      NestingOfFirst(a, b, k - 1, pair);
    }
  }

  lemma {:induction false} NestingOfOne(c: char, pair: Brackets)
    ensures Nesting([c], 0, 0, pair) == 0 && Nesting([c], 0, 1, pair) == Change(c, pair)
  {
    assert Nesting([c], 0, 0, pair) == 0;
  }

  /** Nesting never falls below where it started, and comes back to it. */
  ghost predicate Level(s: string, pair: Brackets) {
    && Nesting(s, 0, |s|, pair) == 0
    && forall k :: 0 <= k <= |s| ==> Nesting(s, 0, k, pair) >= 0
  }

  lemma {:induction false} LevelBoth(a: string, b: string, pair: Brackets)
    requires Level(a, pair) && Level(b, pair)
    ensures Level(a + b, pair)
  {
    forall k | 0 <= k <= |a + b|
      ensures Nesting(a + b, 0, k, pair) >= 0
    {
      if k <= |a| {
        NestingOfFirst(a, b, k, pair);
      } else {
        NestingOfBoth(a, b, k - |a|, pair);
      }
    }
    NestingOfBoth(a, b, |b|, pair);
  }

  /** Within a group the nesting is one more. */
  lemma {:induction false} GroupNests(open: char, inner: string, close: char, k: nat, pair: Brackets)
    requires Change(open, pair) == 1 && Change(close, pair) == -1 && Level(inner, pair) && k <= |inner|
    ensures var s := [open] + (inner + [close]);
            && Nesting(s, 0, 0, pair) == 0 && Nesting(s, 0, 1 + k, pair) == 1 + Nesting(inner, 0, k, pair)
            && Nesting(s, 0, |s|, pair) == 0
  {
    var tail := inner + [close];
    NestingOfOne(open, pair);
    NestingOfBoth([open], tail, k, pair);
    NestingOfFirst(inner, [close], k, pair);
    NestingOfBoth([open], tail, |tail|, pair);
    NestingOfBoth(inner, [close], 1, pair);
    NestingOfOne(close, pair);
  }

  lemma {:induction false} TreesLevel(ts: seq<Tree>, pair: Brackets)
    requires Grouped(ts, pair.openers, pair.closers) && pair.openers !! pair.closers
    ensures Level(ShowTrees(ts), pair)
    decreases ts, 0
  {
    if ts != [] {
      TreeLevel(ts[0], pair);
      TreesLevel(ts[1..], pair);
      LevelBoth(ShowTree(ts[0]), ShowTrees(ts[1..]), pair);
    }
  }

  lemma {:induction false} TreeLevel(t: Tree, pair: Brackets)
    requires GroupedOne(t, pair.openers, pair.closers) && pair.openers !! pair.closers
    ensures Level(ShowTree(t), pair)
    decreases t, 1
  {
    match t
    case Ch(c) => NestingOfOne(c, pair);
    case Group(open, inner, close) =>
      TreesLevel(inner, pair);
      var s := ShowTree(t);
      forall k | 0 <= k <= |s|
        ensures Nesting(s, 0, k, pair) >= 0
      {
        var m := if k == 0 || k == |s| then 0 else k - 1;
        GroupNests(open, ShowTrees(inner), close, m, pair);
      }
      GroupNests(open, ShowTrees(inner), close, 0, pair);
  }

  // ---------------------------------------------------------------- headers and bodies

  /** A header: round and square brackets in groups, and no `{` or `;` outside them. */
  predicate HeaderShape(ts: seq<Tree>) {
    && Grouped(ts, {'(', '['}, {')', ']'})
    && forall i :: 0 <= i < |ts| ==> ts[i] != Ch('{') && ts[i] != Ch(';')
  }

  /** A body: curly brackets in groups. */
  predicate BodyShape(ts: seq<Tree>) {
    Grouped(ts, {'{'}, {'}'})
  }

  lemma {:induction false} BodyShapeOk(ts: seq<Tree>)
    requires BodyShape(ts)
    ensures BodyOk(ShowTrees(ts))
  {
    TreesLevel(ts, Curly);
    LevelIsNoneClosed(ShowTrees(ts), |ShowTrees(ts)|);
  }

  lemma {:induction false} LevelIsNoneClosed(s: string, n: nat)
    requires Level(s, Curly) && n <= |s|
    ensures NoneClosed(s, n)
    decreases n
  {
    if n > 0 {
      LevelIsNoneClosed(s, n - 1);
    }
  }

  lemma {:induction false} NoEndingBoth(a: string, b: string, n: nat)
    requires NoEnding(a, |a|) && Nesting(a, 0, |a|, Round) == 0 && n <= |b| && NoEnding(b, n)
    ensures NoEnding(a + b, |a| + n)
    decreases n
  {
    if n > 0 {
      NoEndingBoth(a, b, n - 1);
      NestingOfBoth(a, b, n, Round);
    } else {
      NoEndingFirst(a, b, |a|);
    }
  }

  lemma {:induction false} NoEndingFirst(a: string, b: string, n: nat)
    requires n <= |a| && NoEnding(a, n)
    ensures NoEnding(a + b, n)
    decreases n
  {
    if n > 0 {
      NoEndingFirst(a, b, n - 1);
      NestingOfFirst(a, b, n, Round);
    }
  }

  /** Inside a group nothing ends the header. */
  lemma {:induction false} NoEndingInGroup(open: char, inner: string, close: char, n: nat)
    requires open in {'(', '['} && close in {')', ']'} && Level(inner, Round) && n <= |inner| + 2
    ensures NoEnding([open] + (inner + [close]), n)
    decreases n
  {
    if n > 0 {
      NoEndingInGroup(open, inner, close, n - 1);
      if n <= |inner| + 1 {
        GroupNests(open, inner, close, n - 1, Round);
      }
    }
  }

  lemma {:induction false} HeaderShapeOk(ts: seq<Tree>)
    requires HeaderShape(ts)
    ensures HeaderOk(ShowTrees(ts))
    decreases |ts|
  {
    if ts != [] {
      var first, rest := ShowTree(ts[0]), ShowTrees(ts[1..]);
      HeaderShapeOk(ts[1..]);
      TreeLevel(ts[0], Round);
      assert NoEnding(first, |first|) by {
        match ts[0]
        case Ch(c) =>
          assert c != '{' && c != ';';
          assert NoEnding([c], 0);
        case Group(open, inner, close) =>
          TreesLevel(inner, Round);
          NoEndingInGroup(open, ShowTrees(inner), close, |first|);
      }
      NoEndingBoth(first, rest, |rest|);
      NestingOfBoth(first, rest, |rest|, Round);
    }
  }

  // ---------------------------------------------------------------- the round trip

  /** `lead async fn name header;` or, with a body, `lead async fn name header{body}`. */
  datatype Shape = Shape(lead: string, gap: string, space: string, name: string, header: seq<Tree>,
                         body: Option<seq<Tree>>)

  datatype Shapes = NoShapes | More(shape: Shape, rest: Shapes)

  function MemberOf(s: Shape): Member {
    Member(s.lead, s.gap, s.space, s.name, ShowTrees(s.header), if s.body.Some? then Some(ShowTrees(s.body.value)) else None)
  }

  function MembersOf(ss: Shapes): Members {
    match ss
    case NoShapes => NoMembers
    case More(s, rest) => Then(MemberOf(s), MembersOf(rest))
  }

  function NamesWithBodies(ss: Shapes): seq<string> {
    match ss
    case NoShapes => []
    case More(s, rest) => if s.body.Some? then [s.name] + NamesWithBodies(rest) else NamesWithBodies(rest)
  }

  ghost predicate ShapeOk(cs: Chars, s: Shape) {
    && s.gap != "" && All(s.gap, |s.gap|, cs.space) && s.space != "" && All(s.space, |s.space|, cs.space)
    && s.name != "" && All(s.name, |s.name|, cs.word)
    && ShowTrees(s.header) != "" && ShowTrees(s.header)[0] !in cs.word && HeaderShape(s.header)
    && (s.body.Some? ==> BodyShape(s.body.value))
    && NoAsync(s.lead) && (s.lead != "" ==> s.lead[|s.lead| - 1] !in cs.word)
  }

  ghost predicate ShapesOk(cs: Chars, ss: Shapes) {
    match ss
    case NoShapes => true
    case More(s, rest) => ShapeOk(cs, s) && ShapesOk(cs, rest)
  }

  lemma {:induction false} ShapesArePlain(cs: Chars, ss: Shapes)
    requires ShapesOk(cs, ss)
    ensures PlainMembers(cs, MembersOf(ss)) && WithBodies(MembersOf(ss)) == NamesWithBodies(ss)
  {
    match ss
    case NoShapes =>
    case More(s, rest) =>
      HeaderShapeOk(s.header);
      if s.body.Some? {
        BodyShapeOk(s.body.value);
      }
      ShapesArePlain(cs, rest);
  }

  /** Members whose headers and bodies are brackets within brackets: exactly those with bodies are
      listed, in order. */
  lemma {:induction false} ShapesRoundTrip(cs: Chars, ss: Shapes, tail: string)
    requires CharsOk(cs) && ShapesOk(cs, ss) && NoAsync(tail)
    ensures Defaults(cs, Print(MembersOf(ss), tail), 0) == NamesWithBodies(ss)
  {
    ShapesArePlain(cs, ss);
    PlainRoundTrip(cs, MembersOf(ss), tail);
  }
}
