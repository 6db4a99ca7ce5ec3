/**
  The reader of store trait defaults (`check-store-defaults.py`): it lists the `async fn`s of a
  trait body that carry a body of their own, by matching brackets.
 */
module TraitParser {
  import opened Options
  import opened Text

  /** What `\w` and `\s` match; the model leaves the Unicode tables open. */
  datatype Chars = Chars(word: set<char>, space: set<char>)

  // ---------------------------------------------------------------- brackets

  datatype Brackets = Brackets(openers: set<char>, closers: set<char>)

  function Pair(opener: char, closer: char): Brackets {
    Brackets({opener}, {closer})
  }

  /** Openers less closers in `text[from..end]`. */
  function Nesting(text: string, from: nat, end: nat, pair: Brackets): int
    requires from <= end <= |text|
    decreases end
  {
    if from == end then 0 else Nesting(text, from, end - 1, pair) + Change(text[end - 1], pair)
  }

  function Change(c: char, pair: Brackets): int {
    (if c in pair.openers then 1 else 0) - (if c in pair.closers then 1 else 0)
  }

  /** The first end after `i` at which the brackets from `start` cancel out, or the text's end. */
  function CancelEnd(text: string, start: nat, i: nat, pair: Brackets): (end: nat)
    requires start <= i <= |text|
    ensures i <= end <= |text| && (i < |text| ==> i < end)
    decreases |text| - i
  {
    if i == |text| then |text|
    else if Nesting(text, start, i + 1, pair) == 0 then i + 1
    else CancelEnd(text, start, i + 1, pair)
  }

  method SkipBalanced(text: string, start: nat, opener: char, closer: char) returns (end: nat)
    requires start <= |text|
    ensures end == CancelEnd(text, start, start, Pair(opener, closer))
  {
    var depth := 0;
    for i := start to |text|
      invariant depth == Nesting(text, start, i, Pair(opener, closer))
      invariant CancelEnd(text, start, i, Pair(opener, closer)) == CancelEnd(text, start, start, Pair(opener, closer))
    {
      depth := depth + Change(text[i], Pair(opener, closer));
      if depth == 0 {
        return i + 1;
      }
    }
    return |text|;
  }

  const Round := Brackets({'(', '['}, {')', ']'})

  predicate Ending(c: char) {
    c == '{' || c == ';'
  }

  datatype Stop = Stop(at: nat, mark: char)

  /** The first `{` or `;` from `i` on outside the brackets opened since `start`. */
  function HeaderStop(text: string, start: nat, i: nat): (stop: Stop)
    requires start <= i <= |text|
    ensures i <= stop.at <= |text| && Ending(stop.mark)
    ensures stop.mark == '{' ==> stop.at < |text|
    decreases |text| - i
  {
    if i == |text| then Stop(|text|, ';')
    else if Nesting(text, start, i + 1, Round) == 0 && Ending(text[i]) then Stop(i, text[i])
    else HeaderStop(text, start, i + 1)
  }

  method HeaderEnd(text: string, start: nat) returns (stop: Stop)
    requires start <= |text|
    ensures stop == HeaderStop(text, start, start)
  {
    var nesting := 0;
    for i := start to |text|
      invariant nesting == Nesting(text, start, i, Round)
      invariant HeaderStop(text, start, i) == HeaderStop(text, start, start)
    {
      nesting := nesting + Change(text[i], Round);
      if nesting == 0 && Ending(text[i]) {
        return Stop(i, text[i]);
      }
    }
    return Stop(|text|, ';');
  }

  // ---------------------------------------------------------------- `\basync\s+fn\s+(\w+)`

  /** The end of the run of `cs` from `i`. */
  function RunEnd(text: string, i: nat, cs: set<char>): (end: nat)
    requires i <= |text|
    ensures i <= end <= |text|
    decreases |text| - i
  {
    if i < |text| && text[i] in cs then RunEnd(text, i + 1, cs) else i
  }

  datatype Match = Match(start: nat, name: nat, end: nat)

  /** `word` at `i`, then at least one space; the index after them. */
  function Keyword(cs: Chars, text: string, i: nat, word: string): (end: Option<nat>)
    ensures end.Some? ==> i + |word| < end.value <= |text|
  {
    if Here(text, i, word) && RunEnd(text, i + |word|, cs.space) > i + |word|
    then Some(RunEnd(text, i + |word|, cs.space)) else None
  }

  /** No word goes on from before `i`. */
  predicate Boundary(cs: Chars, text: string, i: nat)
    requires i <= |text|
  {
    i == 0 || text[i - 1] !in cs.word
  }

  function MatchAt(cs: Chars, text: string, i: nat): (m: Option<Match>)
    requires i <= |text|
    ensures m.Some? ==> m.value.start == i < m.value.name < m.value.end <= |text|
  {
    var fn := if Boundary(cs, text, i) then Keyword(cs, text, i, "async") else None;
    var name := if fn.Some? then Keyword(cs, text, fn.value, "fn") else None;
    if name.Some? && RunEnd(text, name.value, cs.word) > name.value
    then Some(Match(i, name.value, RunEnd(text, name.value, cs.word))) else None
  }

  function Search(cs: Chars, text: string, pos: nat): (m: Option<Match>)
    ensures m.Some? ==> pos <= m.value.start < m.value.name < m.value.end <= |text|
    decreases |text| - pos
  {
    if pos > |text| then None
    else if MatchAt(cs, text, pos).Some? then MatchAt(cs, text, pos)
    else Search(cs, text, pos + 1)
  }

  // ---------------------------------------------------------------- the walk

  /** Where the walk goes on after a header that stops at `stop`. */
  function Next(text: string, stop: Stop): (pos: nat)
    requires stop.at <= |text| && Ending(stop.mark)
    ensures stop.at <= pos && (stop.at < |text| ==> stop.at < pos)
  {
    if stop.mark == '{' then CancelEnd(text, stop.at, stop.at, Pair('{', '}')) else stop.at + 1
  }

  /** The names of the `async fn`s with bodies from `pos` on. */
  function Defaults(cs: Chars, text: string, pos: nat): seq<string>
    decreases |text| - pos
  {
    var found := Search(cs, text, pos);
    if found.None? then []
    else
      var stop := HeaderStop(text, found.value.end, found.value.end);
      var rest := Defaults(cs, text, Next(text, stop));
      if stop.mark == '{' then [text[found.value.name..found.value.end]] + rest else rest
  }

  /** The header and, if it has one, the body of the function matched; where the walk goes on. */
  method SkipMember(body: string, end: nat) returns (hasBody: bool, pos: nat)
    requires end <= |body|
    ensures var stop := HeaderStop(body, end, end);
            hasBody == (stop.mark == '{') && pos == Next(body, stop)
  {
    var stop := HeaderEnd(body, end);
    hasBody := stop.mark == '{';
    pos := stop.at;
    if hasBody {
      pos := SkipBalanced(body, pos, '{', '}');
    }
    if stop.mark == ';' {
      pos := pos + 1;
    }
  }

  method TraitDefaults(cs: Chars, body: string) returns (names: seq<string>)
    ensures names == Defaults(cs, body, 0)
  {
    names := [];
    var pos := 0;
    var found := Search(cs, body, pos);
    while found.Some?
      invariant found == Search(cs, body, pos)
      invariant names + Defaults(cs, body, pos) == Defaults(cs, body, 0)
      decreases |body| - pos
    {
      var hasBody, next := SkipMember(body, found.value.end);
      if hasBody {
        names := names + [body[found.value.name..found.value.end]];
      }
      pos := next;
      found := Search(cs, body, pos);
    }
  }
}
