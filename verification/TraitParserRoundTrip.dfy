/**
  Printing a trait body and reading it back: exactly the members with bodies are listed, in order,
  whatever their bodies hold.
 */
module TraitParserRoundTrip {
  import opened Options
  import opened Text
  import opened TraitParser

  // ---------------------------------------------------------------- members

  /** `lead async fn name header;` or, with a body, `lead async fn name header{body}`. */
  datatype Member = Member(lead: string, gap: string, space: string, name: string, header: string,
                           body: Option<string>)

  datatype Members = NoMembers | Then(member: Member, rest: Members)

  const Curly := Pair('{', '}')

  /** Strings to be put one after another. */
  datatype Strings = Nil | Cons(first: string, others: Strings)

  function Join(ss: Strings): string {
    match ss
    case Nil => ""
    case Cons(first, others) => first + Join(others)
  }

  function Close(m: Member): Strings {
    if m.body.None? then Cons(";", Nil) else Cons("{", Cons(m.body.value, Cons("}", Nil)))
  }

  function Signature(m: Member): Strings {
    Cons("async", Cons(m.gap, Cons("fn", Cons(m.space, Cons(m.name, Cons(m.header, Close(m)))))))
  }

  function Printed(m: Member): string {
    Join(Cons(m.lead, Signature(m)))
  }

  function Print(ms: Members, tail: string): string {
    match ms
    case NoMembers => tail
    case Then(m, rest) => Printed(m) + Print(rest, tail)
  }

  function WithBodies(ms: Members): seq<string> {
    match ms
    case NoMembers => []
    case Then(m, rest) => Listed(m, WithBodies(rest))
  }

  function Listed(m: Member, names: seq<string>): seq<string> {
    if m.body.Some? then [m.name] + names else names
  }

  // ---------------------------------------------------------------- what may be printed

  /** The first `n` characters are all of `cs`. */
  ghost predicate All(s: string, n: nat, cs: set<char>)
    requires n <= |s|
  {
    n == 0 || (s[n - 1] in cs && All(s, n - 1, cs))
  }

  /** In the first `n` characters there is no `{` or `;` outside brackets. */
  ghost predicate NoEnding(header: string, n: nat)
    requires n <= |header|
  {
    n == 0 || ((Ending(header[n - 1]) ==> Nesting(header, 0, n, Round) != 0) && NoEnding(header, n - 1))
  }

  /** No brace among the first `n` characters closes what was not opened. */
  ghost predicate NoneClosed(body: string, n: nat)
    requires n <= |body|
  {
    Nesting(body, 0, n, Curly) >= 0 && (n == 0 || NoneClosed(body, n - 1))
  }

  ghost predicate HeaderOk(header: string) {
    Nesting(header, 0, |header|, Round) == 0 && NoEnding(header, |header|)
  }

  ghost predicate BodyOk(body: string) {
    Nesting(body, 0, |body|, Curly) == 0 && NoneClosed(body, |body|)
  }

  ghost predicate MemberOk(cs: Chars, m: Member) {
    && m.gap != "" && All(m.gap, |m.gap|, cs.space) && m.space != "" && All(m.space, |m.space|, cs.space)
    && m.name != "" && All(m.name, |m.name|, cs.word)
    && m.header != "" && m.header[0] !in cs.word && HeaderOk(m.header)
    && (m.body.Some? ==> BodyOk(m.body.value))
  }

  /** The classes are disjoint, and the markers are what they look like. */
  ghost predicate CharsOk(cs: Chars) {
    && cs.word !! cs.space
    && {'a', 'f'} <= cs.word && ';' !in cs.word && '}' !in cs.word
  }

  /** No `async fn` is seen from `from` to `end`. */
  ghost predicate Quiet(cs: Chars, text: string, from: nat, end: nat)
    requires end <= |text| + 1
  {
    forall i: nat :: from <= i < end && i <= |text| ==> MatchAt(cs, text, i).None?
  }

  /** Every member, from `at` on, is well formed and is the first `async fn` after its lead begins. */
  ghost predicate MembersOk(cs: Chars, text: string, at: nat, ms: Members)
    requires at <= |text|
    decreases ms, 0
  {
    match ms
    case NoMembers => Quiet(cs, text, at, |text| + 1)
    case Then(m, rest) => FirstOk(cs, text, at, m, rest)
  }

  ghost predicate FirstOk(cs: Chars, text: string, at: nat, m: Member, rest: Members)
    requires at <= |text|
    decreases rest, 1
  {
    && MemberOk(cs, m) && at + |m.lead| <= at + |Printed(m)| <= |text|
    && Quiet(cs, text, at, at + |m.lead|) && Boundary(cs, text, at + |m.lead|)
    && MembersOk(cs, text, at + |Printed(m)|, rest)
  }

  // ---------------------------------------------------------------- brackets in place

  lemma {:induction false} NestingSplits(text: string, from: nat, mid: nat, end: nat, pair: Brackets)
    requires from <= mid <= end <= |text|
    ensures Nesting(text, from, end, pair) == Nesting(text, from, mid, pair) + Nesting(text, mid, end, pair)
    decreases end
  {
    if mid < end {
      NestingSplits(text, from, mid, end - 1, pair);
    }
  }

  lemma {:induction false} NestingInPlace(text: string, at: nat, s: string, k: nat, pair: Brackets)
    requires Here(text, at, s) && k <= |s|
    ensures Nesting(text, at, at + k, pair) == Nesting(s, 0, k, pair)
    decreases k
  {
    if k > 0 {
      NestingInPlace(text, at, s, k - 1, pair);
      HereAt(text, at, s, k - 1);
    }
  }

  lemma {:induction false} AllAt(s: string, n: nat, cs: set<char>, k: nat)
    requires k < n <= |s| && All(s, n, cs)
    ensures s[k] in cs
    decreases n
  {
    if k < n - 1 {
      AllAt(s, n - 1, cs, k);
    }
  }

  lemma {:induction false} NoEndingAt(header: string, n: nat, k: nat)
    requires k < n <= |header| && NoEnding(header, n)
    ensures Ending(header[k]) ==> Nesting(header, 0, k + 1, Round) != 0
    decreases n
  {
    if k < n - 1 {
      NoEndingAt(header, n - 1, k);
    }
  }

  lemma {:induction false} NoneClosedAt(body: string, n: nat, k: nat)
    requires k <= n <= |body| && NoneClosed(body, n)
    ensures Nesting(body, 0, k, Curly) >= 0
    decreases n
  {
    if k < n {
      NoneClosedAt(body, n - 1, k);
    }
  }

  /** The header's own end is found: every earlier `{` or `;` is inside brackets. */
  lemma {:induction false} HeaderPasses(text: string, at: nat, header: string, k: nat)
    requires Here(text, at, header) && HeaderOk(header) && k <= |header| && at + |header| < |text|
    requires Ending(text[at + |header|])
    ensures HeaderStop(text, at, at + k) == Stop(at + |header|, text[at + |header|])
    decreases |header| - k
  {
    if k < |header| {
      HereAt(text, at, header, k);
      NoEndingAt(header, |header|, k);
      NestingInPlace(text, at, header, k + 1, Round);
      HeaderPasses(text, at, header, k + 1);
    } else {
      NestingInPlace(text, at, header, k, Round);
    }
  }

  /** The body is passed over to its own closing brace. */
  lemma {:induction false} BodyPasses(text: string, at: nat, body: string, k: nat)
    requires Here(text, at, "{") && Here(text, at + 1, body) && Here(text, at + 1 + |body|, "}")
    requires BodyOk(body) && k <= |body|
    ensures CancelEnd(text, at, at + 1 + k, Curly) == at + |body| + 2
    decreases |body| - k
  {
    HereAt(text, at, "{", 0);
    assert Nesting(text, at, at + 1, Curly) == 1;
    NestingInPlace(text, at + 1, body, k, Curly);
    NestingSplits(text, at, at + 1, at + 1 + k, Curly);
    if k < |body| {
      NoneClosedAt(body, |body|, k + 1);
      NestingInPlace(text, at + 1, body, k + 1, Curly);
      NestingSplits(text, at, at + 1, at + 1 + (k + 1), Curly);
      BodyPasses(text, at, body, k + 1);
    } else {
      HereAt(text, at + 1 + |body|, "}", 0);
    }
  }

  lemma {:induction false} BodySkipped(text: string, at: nat, body: string)
    requires Here(text, at, "{") && Here(text, at + 1, body) && Here(text, at + 1 + |body|, "}") && BodyOk(body)
    ensures CancelEnd(text, at, at, Curly) == at + |body| + 2
  {
    HereAt(text, at, "{", 0);
    assert Nesting(text, at, at + 1, Curly) == 1;
    BodyPasses(text, at, body, 0);
  }

  // ---------------------------------------------------------------- one member

  lemma {:induction false} RunIs(text: string, at: nat, s: string, k: nat, cs: set<char>)
    requires Here(text, at, s) && All(s, |s|, cs) && k <= |s| && at + |s| < |text| && text[at + |s|] !in cs
    ensures RunEnd(text, at + k, cs) == at + |s|
    decreases |s| - k
  {
    if k < |s| {
      HereAt(text, at, s, k);
      AllAt(s, |s|, cs, k);
      RunIs(text, at, s, k + 1, cs);
    }
  }

  lemma {:induction false} HereFirst(text: string, at: nat, first: string, others: Strings)
    requires Here(text, at, Join(Cons(first, others)))
    ensures Here(text, at, first) && Here(text, at + |first|, Join(others))
  {
    HereSplit(text, at, first, Join(others));
  }

  lemma {:induction false} KeywordIs(cs: Chars, text: string, at: nat, word: string, gap: string, after: Strings)
    requires Here(text, at, Join(Cons(word, Cons(gap, after)))) && gap != "" && All(gap, |gap|, cs.space)
    requires after.Cons? && after.first != "" && after.first[0] !in cs.space
    ensures Keyword(cs, text, at, word) == Some(at + |word| + |gap|) && Here(text, at + |word| + |gap|, Join(after))
  {
    var next := at + |word| + |gap|;
    HereFirst(text, at, word, Cons(gap, after));
    HereFirst(text, at + |word|, gap, after);
    assert next < |text| && text[next] !in cs.space by {
      HereFirst(text, next, after.first, after.others);
      HereAt(text, next, after.first, 0);
    }
    RunIs(text, at + |word|, gap, 0, cs.space);
  }

  lemma {:induction false} NameIs(cs: Chars, text: string, k: nat, name: string, after: Strings)
    requires Here(text, k, Join(Cons(name, after))) && All(name, |name|, cs.word)
    requires after.Cons? && after.first != "" && after.first[0] !in cs.word
    ensures Here(text, k + |name|, Join(after)) && RunEnd(text, k, cs.word) == k + |name| && text[k..k + |name|] == name
  {
    HereFirst(text, k, name, after);
    assert k + |name| < |text| && text[k + |name|] !in cs.word by {
      HereFirst(text, k + |name|, after.first, after.others);
      HereAt(text, k + |name|, after.first, 0);
    }
    RunIs(text, k, name, 0, cs.word);
    forall j | 0 <= j < |name|
      ensures text[k + j] == name[j]
    {
      HereAt(text, k, name, j);
    }
  }

  /** The signature printed at `at` is matched there, with its name. */
  lemma {:induction false} SignatureMatches(cs: Chars, text: string, at: nat, gap: string, fn: Strings, space: string,
                                            name: string, after: Strings)
    requires CharsOk(cs) && fn == Cons("fn", Cons(space, Cons(name, after)))
    requires Here(text, at, Join(Cons("async", Cons(gap, fn)))) && Boundary(cs, text, at)
    requires gap != "" && All(gap, |gap|, cs.space) && space != "" && All(space, |space|, cs.space)
    requires name != "" && All(name, |name|, cs.word)
    requires after.Cons? && after.first != "" && after.first[0] !in cs.word
    ensures var k := at + 7 + |gap| + |space|;
            && MatchAt(cs, text, at) == Some(Match(at, k, k + |name|)) && text[k..k + |name|] == name
            && Here(text, k + |name|, Join(after))
  {
    var k := at + 7 + |gap| + |space|;
    assert Keyword(cs, text, at, "async") == Some(at + 5 + |gap|) && Here(text, at + 5 + |gap|, Join(fn)) by {
      KeywordIs(cs, text, at, "async", gap, fn);
    }
    assert Keyword(cs, text, at + 5 + |gap|, "fn") == Some(k) && Here(text, k, Join(Cons(name, after))) by {
      AllAt(name, |name|, cs.word, 0);
      KeywordIs(cs, text, at + 5 + |gap|, "fn", space, Cons(name, after));
    }
    NameIs(cs, text, k, name, after);
  }

  lemma {:induction false} SearchIs(cs: Chars, text: string, pos: nat, at: nat)
    requires pos <= at <= |text| && Quiet(cs, text, pos, at) && MatchAt(cs, text, at).Some?
    ensures Search(cs, text, pos) == MatchAt(cs, text, at)
    decreases at - pos
  {
    if pos < at {
      assert MatchAt(cs, text, pos).None?;
      SearchIs(cs, text, pos + 1, at);
    }
  }

  lemma {:induction false} SearchFindsNone(cs: Chars, text: string, pos: nat)
    requires Quiet(cs, text, pos, |text| + 1)
    ensures Search(cs, text, pos) == None
    decreases |text| + 1 - pos
  {
    if pos <= |text| {
      assert MatchAt(cs, text, pos).None?;
      SearchFindsNone(cs, text, pos + 1);
    }
  }

  /** The header of a member ends where it was printed to end, and the walk goes on after the
      member. */
  lemma {:induction false} MemberEnds(text: string, at: nat, m: Member)
    requires HeaderOk(m.header) && (m.body.Some? ==> BodyOk(m.body.value))
    requires Here(text, at, Join(Cons(m.header, Close(m))))
    ensures var stop := HeaderStop(text, at, at);
            && (stop.mark == '{' <==> m.body.Some?)
            && Next(text, stop) == at + |m.header| + |Join(Close(m))|
  {
    var end := at + |m.header|;
    HereFirst(text, at, m.header, Close(m));
    HereFirst(text, end, Close(m).first, Close(m).others);
    HereAt(text, end, Close(m).first, 0);
    HeaderPasses(text, at, m.header, 0);
    if m.body.Some? {
      HereFirst(text, end + 1, m.body.value, Cons("}", Nil));
      HereFirst(text, end + 1 + |m.body.value|, "}", Nil);
      BodySkipped(text, end, m.body.value);
      assert |Join(Cons("}", Nil))| == 1;
    }
  }

  lemma {:induction false} WalkStep(cs: Chars, text: string, at: nat, m: Member, found: Match, next: nat)
    requires Search(cs, text, at) == Some(found) && found.name <= found.end <= |text|
    requires text[found.name..found.end] == m.name
    requires var stop := HeaderStop(text, found.end, found.end); (stop.mark == '{' <==> m.body.Some?) && Next(text, stop) == next
    ensures Defaults(cs, text, at) == Listed(m, Defaults(cs, text, next))
  {
  }

  lemma {:induction false} PrintedLength(m: Member)
    ensures |Printed(m)| == |m.lead| + |Join(Signature(m))|
    ensures |Printed(m)| == |m.lead| + 7 + |m.gap| + |m.space| + |m.name| + |m.header| + |Join(Close(m))|
  {
    var named := Cons(m.name, Cons(m.header, Close(m)));
    assert |Join(named)| == |m.name| + |m.header| + |Join(Close(m))|;
    assert |Join(Cons("fn", Cons(m.space, named)))| == 2 + |m.space| + |Join(named)|;
  }

  /** Where a member printed at `at` is matched. */
  function Found(at: nat, m: Member): Match {
    var start := at + |m.lead|;
    var name := start + 7 + |m.gap| + |m.space|;
    Match(start, name, name + |m.name|)
  }

  lemma {:induction false} MemberFound(cs: Chars, text: string, at: nat, m: Member)
    requires CharsOk(cs) && MemberOk(cs, m) && Here(text, at, Printed(m))
    requires Quiet(cs, text, at, at + |m.lead|) && Boundary(cs, text, at + |m.lead|)
    ensures var f := Found(at, m);
            && Search(cs, text, at) == Some(f) && f.end <= |text| && text[f.name..f.end] == m.name
            && Here(text, f.end, Join(Cons(m.header, Close(m))))
  {
    var start := at + |m.lead|;
    HereFirst(text, at, m.lead, Signature(m));
    SignatureMatches(cs, text, start, m.gap, Signature(m).others.others, m.space, m.name, Cons(m.header, Close(m)));
    SearchIs(cs, text, at, start);
  }

  lemma {:induction false} MemberReads(cs: Chars, text: string, at: nat, m: Member)
    requires CharsOk(cs) && MemberOk(cs, m) && Here(text, at, Printed(m))
    requires Quiet(cs, text, at, at + |m.lead|) && Boundary(cs, text, at + |m.lead|)
    ensures Defaults(cs, text, at) == Listed(m, Defaults(cs, text, at + |Printed(m)|))
  {
    MemberFound(cs, text, at, m);
    MemberEnds(text, Found(at, m).end, m);
    PrintedLength(m);
    WalkStep(cs, text, at, m, Found(at, m), at + |Printed(m)|);
  }

  // ---------------------------------------------------------------- the whole body

  lemma {:induction false} FirstMemberReads(cs: Chars, text: string, at: nat, m: Member, rest: Members, tail: string)
    requires CharsOk(cs) && Ends(text, at, Printed(m) + Print(rest, tail)) && FirstOk(cs, text, at, m, rest)
    ensures var next := at + |Printed(m)|;
            && Ends(text, next, Print(rest, tail)) && MembersOk(cs, text, next, rest)
            && Defaults(cs, text, at) == Listed(m, Defaults(cs, text, next))
  {
    HereSplit(text, at, Printed(m), Print(rest, tail));
    MemberReads(cs, text, at, m);
  }

  lemma {:induction false} MembersRead(cs: Chars, text: string, at: nat, ms: Members, tail: string)
    requires CharsOk(cs) && Ends(text, at, Print(ms, tail)) && MembersOk(cs, text, at, ms)
    ensures Defaults(cs, text, at) == WithBodies(ms)
    decreases ms
  {
    match ms
    case NoMembers => SearchFindsNone(cs, text, at);
    case Then(m, rest) =>
      FirstMemberReads(cs, text, at, m, rest, tail);
      MembersRead(cs, text, at + |Printed(m)|, rest, tail);
  }

  /** Reading a printed trait body lists exactly the members with bodies, in order. */
  lemma {:induction false} RoundTrip(cs: Chars, ms: Members, tail: string)
    requires CharsOk(cs) && MembersOk(cs, Print(ms, tail), 0, ms)
    ensures Defaults(cs, Print(ms, tail), 0) == WithBodies(ms)
  {
    HereIf(Print(ms, tail), 0, Print(ms, tail));
    MembersRead(cs, Print(ms, tail), 0, ms, tail);
  }

  // ---------------------------------------------------------------- leads without `async`

  ghost predicate NoAsync(s: string) {
    forall i: nat :: !Here(s, i, "async")
  }

  /** What a caller can check without reading the whole text. */
  ghost predicate PlainMembers(cs: Chars, ms: Members) {
    match ms
    case NoMembers => true
    case Then(m, rest) =>
      && MemberOk(cs, m) && NoAsync(m.lead)
      && (m.lead != "" ==> m.lead[|m.lead| - 1] !in cs.word)
      && PlainMembers(cs, rest)
  }

  lemma {:induction false} QuietWithoutAsync(cs: Chars, text: string, at: nat, lead: string)
    requires Here(text, at, lead) && NoAsync(lead)
    requires at + |lead| == |text| || text[at + |lead|] == 'a'
    ensures Quiet(cs, text, at, at + |lead|)
  {
    forall i: nat | at <= i < at + |lead|
      ensures !Here(text, i, "async")
    {
      if Here(text, i, "async") {
        if i + 5 <= at + |lead| {
          HereInside(text, at, lead, i - at, "async");
        } else {
          HereAt(text, i, "async", at + |lead| - i);
        }
      }
    }
  }

  lemma {:induction false} JoinEnds(text: string, at: nat, ss: Strings, last: string)
    requires Here(text, at, Join(ss)) && last != "" && EndsIn(ss, last)
    ensures at + |Join(ss)| > 0 && text[at + |Join(ss)| - 1] == last[|last| - 1]
    decreases ss
  {
    HereFirst(text, at, ss.first, ss.others);
    if ss.others.Nil? {
      HereAt(text, at, last, |last| - 1);
    } else {
      JoinEnds(text, at + |ss.first|, ss.others, last);
    }
  }

  ghost predicate EndsIn(ss: Strings, last: string) {
    ss.Cons? && if ss.others.Nil? then ss.first == last else EndsIn(ss.others, last)
  }

  lemma {:induction false} SignatureEndsIn(m: Member)
    ensures EndsIn(Cons(m.lead, Signature(m)), if m.body.None? then ";" else "}")
  {
    var last := if m.body.None? then ";" else "}";
    assert EndsIn(Close(m), last) by {
      assert EndsIn(Cons("}", Nil), "}");
    }
    assert EndsIn(Cons(m.name, Cons(m.header, Close(m))), last);
    assert EndsIn(Cons("fn", Cons(m.space, Cons(m.name, Cons(m.header, Close(m))))), last);
  }

  lemma {:induction false} PlainMember(cs: Chars, text: string, at: nat, m: Member)
    requires CharsOk(cs) && Here(text, at, Printed(m)) && Boundary(cs, text, at)
    requires NoAsync(m.lead) && (m.lead != "" ==> m.lead[|m.lead| - 1] !in cs.word)
    ensures at + |m.lead| <= at + |Printed(m)| <= |text|
    ensures Quiet(cs, text, at, at + |m.lead|) && Boundary(cs, text, at + |m.lead|)
    ensures Boundary(cs, text, at + |Printed(m)|)
  {
    SignatureEndsIn(m);
    JoinEnds(text, at, Cons(m.lead, Signature(m)), if m.body.None? then ";" else "}");
    HereFirst(text, at, m.lead, Signature(m));
    HereFirst(text, at + |m.lead|, "async", Signature(m).others);
    HereAt(text, at + |m.lead|, "async", 0);
    QuietWithoutAsync(cs, text, at, m.lead);
    if m.lead != "" {
      HereAt(text, at, m.lead, |m.lead| - 1);
    }
  }

  lemma {:induction false} PlainMembersOk(cs: Chars, text: string, at: nat, ms: Members, tail: string)
    requires CharsOk(cs) && PlainMembers(cs, ms) && NoAsync(tail)
    requires Ends(text, at, Print(ms, tail)) && Boundary(cs, text, at)
    ensures MembersOk(cs, text, at, ms)
    decreases ms
  {
    match ms
    case NoMembers =>
      QuietWithoutAsync(cs, text, at, tail);
      assert !Here(text, |text|, "async");
    case Then(m, rest) =>
      var next := at + |Printed(m)|;
      assert Here(text, at, Printed(m)) && Ends(text, next, Print(rest, tail)) by {
        HereSplit(text, at, Printed(m), Print(rest, tail));
      }
      assert Quiet(cs, text, at, at + |m.lead|) && Boundary(cs, text, at + |m.lead|) && Boundary(cs, text, next) by {
        PlainMember(cs, text, at, m);
      }
      PlainMembersOk(cs, text, next, rest, tail);
  }

  /** The round trip for members whose text between signatures does not say `async`. */
  lemma {:induction false} PlainRoundTrip(cs: Chars, ms: Members, tail: string)
    requires CharsOk(cs) && PlainMembers(cs, ms) && NoAsync(tail)
    ensures Defaults(cs, Print(ms, tail), 0) == WithBodies(ms)
  {
    HereIf(Print(ms, tail), 0, Print(ms, tail));
    PlainMembersOk(cs, Print(ms, tail), 0, ms, tail);
    RoundTrip(cs, ms, tail);
  }
}
