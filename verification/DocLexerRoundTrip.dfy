/**
  Printing Rust and reading it back: a source printed from items gives exactly its comments, each
  on its own lines, so a comment marker inside a literal is never reported.
 */
module DocLexerRoundTrip {
  import opened Text
  import opened DocLexer
  import opened DocLexerPartition

  // ---------------------------------------------------------------- items

  /** What a block comment holds: characters, and whole block comments. */
  datatype Nest = Plain(c: char) | Block(parts: seq<Nest>)

  datatype Piece = Lit(c: char) | Esc(c: char)

  /** The last four are what only the end of the text ends. */
  datatype Item =
    | LineComment(body: string)
    | BlockComment(parts: seq<Nest>)
    | Str(pieces: seq<Piece>)
    | RawStr(prefix: string, hashes: nat, raw: string)
    | CharLit(c: char)
    | EscapedChar(first: char, rest: seq<Piece>)
    | Tick
    | Code(c: char)
    | LastLine(body: string)
    | OpenBlock(parts: seq<Nest>)
    | OpenStr(pieces: seq<Piece>)
    | OpenRaw(prefix: string, hashes: nat, raw: string)

  function PrintNests(ps: seq<Nest>): string {
    if ps == [] then "" else PrintNest(ps[0]) + PrintNests(ps[1..])
  }

  function PrintNest(p: Nest): string {
    match p
    case Plain(c) => [c]
    case Block(parts) => "/*" + (PrintNests(parts) + "*/")
  }

  function PrintPieces(ps: seq<Piece>): string {
    if ps == [] then ""
    else (match ps[0] case Lit(c) => [c] case Esc(c) => ['\\', c]) + PrintPieces(ps[1..])
  }

  function PrintRaw(hashes: nat, raw: string): string {
    "r" + (Hashes(hashes) + ("\"" + (raw + Closer(hashes))))
  }

  function PrintOpenRaw(hashes: nat, raw: string): string {
    "r" + (Hashes(hashes) + ("\"" + raw))
  }

  function PrintItem(it: Item): string {
    match it
    case LineComment(body) => "//" + body + "\n"
    case BlockComment(parts) => PrintNest(Block(parts))
    case Str(pieces) => "\"" + (PrintPieces(pieces) + "\"")
    case RawStr(prefix, hashes, raw) => prefix + PrintRaw(hashes, raw)
    case CharLit(c) => ['\'', c, '\'']
    case EscapedChar(first, rest) => ['\'', '\\', first] + (PrintPieces(rest) + "'")
    case Tick => "'"
    case Code(c) => [c]
    case LastLine(body) => "//" + body
    case OpenBlock(parts) => "/*" + PrintNests(parts)
    case OpenStr(pieces) => "\"" + PrintPieces(pieces)
    case OpenRaw(prefix, hashes, raw) => prefix + PrintOpenRaw(hashes, raw)
  }

  predicate Commented(it: Item) {
    it.LineComment? || it.BlockComment? || it.LastLine? || it.OpenBlock?
  }

  /** The comment an item is, without the newline that ends a line comment. */
  function CommentText(it: Item): string {
    match it
    case LineComment(body) => "//" + body
    case BlockComment(_) => PrintItem(it)
    case LastLine(_) => PrintItem(it)
    case OpenBlock(_) => PrintItem(it)
    case _ => ""
  }

  /** An item as printed, with the comment it is, if it is one. */
  datatype Part = Part(shown: string, comment: seq<string>)

  datatype Items = NoItems | Then(item: Item, rest: Items)

  datatype Parts = NoParts | After(part: Part, rest: Parts)

  function PartOf(it: Item): Part {
    Part(PrintItem(it), if Commented(it) then [CommentText(it)] else [])
  }

  function PartsOf(items: Items): Parts {
    match items
    case NoItems => NoParts
    case Then(it, rest) => After(PartOf(it), PartsOf(rest))
  }

  function Show(parts: Parts): string {
    match parts
    case NoParts => ""
    case After(part, rest) => part.shown + Show(rest)
  }

  function Print(items: Items): string {
    Show(PartsOf(items))
  }

  // ---------------------------------------------------------------- what may be printed

  /** No two neighbouring characters make a comment marker of their own. */
  predicate NestsOk(ps: seq<Nest>, after: string) {
    ps == [] ||
    var rest := PrintNests(ps[1..]) + after;
    && NestsOk(ps[1..], after)
    && (match ps[0]
        case Plain(c) => rest == "" || (!(c == '/' && rest[0] == '*') && !(c == '*' && rest[0] == '/'))
        case Block(parts) => NestsOk(parts, "*/"))
  }

  /** The letters, digits and underscores that `s` ends in. */
  function LastWord(alnum: set<char>, s: string): string {
    if s != "" && (s[|s| - 1] in alnum || s[|s| - 1] == '_') then LastWord(alnum, s[..|s| - 1]) + [s[|s| - 1]] else ""
  }

  /** An `r` after `before` starts a raw string if hashes and a quote follow: it is a word of its own,
      or the whole word before it is one of the two prefix letters. */
  predicate StartsRaw(alnum: set<char>, before: string) {
    var word := LastWord(alnum, before);
    word == "" || word == "b" || word == "c"
  }

  predicate PiecesOk(ps: seq<Piece>, quote: char) {
    ps == [] || (!(ps[0].Lit? && (ps[0].c == quote || ps[0].c == '\\')) && PiecesOk(ps[1..], quote))
  }

  /** After its `r`, the text does open a raw string. */
  predicate OpensRaw(after: string) {
    after != "" && (after[0] == '"' || (after[0] == '#' && OpensRaw(after[1..])))
  }

  ghost predicate CloserOnlyAtEnd(hashes: nat, raw: string) {
    NotBefore(raw + Closer(hashes), Closer(hashes), |raw|)
  }

  /** `pat` does not start in the first `n` characters. */
  ghost predicate NotBefore(text: string, pat: string, n: nat) {
    n == 0 || (!Here(text, n - 1, pat) && NotBefore(text, pat, n - 1))
  }

  /** `it` printed between `before` and `after` is the item it is meant to be. */
  ghost predicate Fits(lang: Lang, before: string, it: Item, after: string) {
    match it
    case LineComment(body) => '\n' !in body
    case BlockComment(parts) => NestsOk(parts, "*/")
    case Str(pieces) => PiecesOk(pieces, '"')
    case RawStr(prefix, hashes, raw) =>
      && (prefix == "" || prefix == "b" || prefix == "c") && LastWord(lang.alnum, before) == ""
      && CloserOnlyAtEnd(hashes, raw)
    case CharLit(c) => c != '\\'
    case EscapedChar(_, rest) => PiecesOk(rest, '\'')
    case Tick => !(|after| > 0 && after[0] == '\\') && !(|after| > 1 && after[1] == '\'')
    case Code(c) =>
      && c != '"' && c != '\''
      && (c == '/' ==> after == "" || (after[0] != '/' && after[0] != '*'))
      && (c == 'r' && StartsRaw(lang.alnum, before) ==> !OpensRaw(after))
    case LastLine(body) => after == "" && '\n' !in body
    case OpenBlock(parts) => after == "" && NestsOk(parts, "")
    case OpenStr(pieces) => after == "" && PiecesOk(pieces, '"')
    case OpenRaw(prefix, hashes, raw) =>
      && after == "" && (prefix == "" || prefix == "b" || prefix == "c") && LastWord(lang.alnum, before) == ""
      && NotBefore(raw, Closer(hashes), |raw|)
  }

  /** Each item fits where it is printed. */
  ghost predicate ItemsOk(lang: Lang, before: string, items: Items)
    decreases items, 0
  {
    match items
    case NoItems => true
    case Then(it, rest) => ItemOk(lang, before, it, rest)
  }

  ghost predicate ItemOk(lang: Lang, before: string, it: Item, rest: Items)
    decreases rest, 1
  {
    Fits(lang, before, it, Print(rest)) && ItemsOk(lang, before + PrintItem(it), rest)
  }

  // ---------------------------------------------------------------- what is to be read back

  /** The lines of the part's comment, if it is one, before `es`. */
  function OwnLines(part: Part, line: nat, es: seq<Entry>): seq<Entry> {
    if part.comment == [] then es else Split(part.comment[0], 0, 0, |part.comment[0]|, line) + es
  }

  /** The comments of the parts, line by line, the first part starting on line `line`. */
  function Comments(parts: Parts, line: nat): seq<Entry> {
    match parts
    case NoParts => []
    case After(part, rest) => OwnLines(part, line, Comments(rest, line + Newlines(part.shown, |part.shown|)))
  }

  /** Where the comments are when the first part starts at `at`. */
  function Located(parts: Parts, at: nat): Found {
    match parts
    case NoParts => Nothing
    case After(part, rest) => WithOwn(part, at, Located(rest, at + |part.shown|))
  }

  function WithOwn(part: Part, at: nat, rest: Found): Found {
    if part.comment == [] then rest else Comment(at, at + |part.comment[0]|, rest)
  }

  // ---------------------------------------------------------------- block comments

  lemma {:induction false} ScanPassesNests(text: string, i: nat, ps: seq<Nest>, after: string, depth: nat)
    requires NestsOk(ps, after) && depth > 0
    requires Here(text, i, PrintNests(ps) + after) && (after == "" ==> i + |PrintNests(ps)| == |text|)
    ensures i + |PrintNests(ps)| <= |text|
    ensures BlockEnd(text, i, depth, true) == BlockEnd(text, i + |PrintNests(ps)|, depth, true)
    decreases ps, 0
  {
    if ps != [] {
      var rest := PrintNests(ps[1..]);
      var one := PrintNest(ps[0]);
      assert PrintNests(ps) + after == one + (rest + after);
      HereSplit(text, i, one, rest + after);
      ScanPassesNests(text, i + |one|, ps[1..], after, depth);
      match ps[0]
      case Plain(c) =>
        HereAt(text, i, one, 0);
        if rest + after != "" {
          HereAt(text, i + 1, rest + after, 0);
        }
      case Block(parts) =>
        ScanPassesBlock(text, i, parts, depth);
    }
  }

  /** A whole block comment is passed over: the scan leaves it exactly at its own closing marker. */
  lemma {:induction false} ScanPassesBlock(text: string, i: nat, parts: seq<Nest>, depth: nat)
    requires NestsOk(parts, "*/") && Here(text, i, PrintNest(Block(parts)))
    ensures i + 2 <= i + |PrintNest(Block(parts))| <= |text|
    ensures BlockEnd(text, i + 2, depth + 1, true) == BlockEnd(text, i + |PrintNest(Block(parts))|, depth, true)
    ensures Pair(text, i, '/', '*')
    decreases parts, 1
  {
    var inner := PrintNests(parts);
    HereSplit(text, i, "/*", inner + "*/");
    HereAt(text, i, "/*", 0);
    HereAt(text, i, "/*", 1);
    ScanPassesNests(text, i + 2, parts, "*/", depth + 1);
    HereSplit(text, i + 2, inner, "*/");
    var e := i + 2 + |inner|;
    HereAt(text, e, "*/", 0);
    HereAt(text, e, "*/", 1);
    assert BlockEnd(text, e, depth + 1, true) == BlockEnd(text, e + 2, depth, true);
  }

  // ---------------------------------------------------------------- one token

  lemma {:induction false} BlockToken(lang: Lang, text: string, i: nat, parts: seq<Nest>)
    requires lang.isRust && NestsOk(parts, "*/") && Here(text, i, PrintNest(Block(parts)))
    ensures i < |text| && IsComment(text, i)
    ensures TokenEnd(lang, text, i) == i + |PrintNest(Block(parts))|
  {
    ScanPassesBlock(text, i, parts, 0);
  }

  lemma {:induction false} LineEndIs(text: string, i: nat, end: nat)
    requires i <= end < |text| && text[end] == '\n' && forall k :: i <= k < end ==> text[k] != '\n'
    ensures LineEnd(text, i) == end
    decreases end - i
  {
    if i < end {
      LineEndIs(text, i + 1, end);
    }
  }

  lemma {:induction false} LineToken(lang: Lang, text: string, i: nat, body: string)
    requires '\n' !in body && Here(text, i, ("//" + body) + "\n")
    ensures i < |text| && IsComment(text, i)
    ensures TokenEnd(lang, text, i) == i + |"//" + body| < |text| && text[i + |"//" + body|] == '\n'
  {
    var whole := "//" + body;
    var end := i + |whole|;
    HereSplit(text, i, whole, "\n");
    HereAt(text, i, whole, 0);
    HereAt(text, i, whole, 1);
    HereAt(text, end, "\n", 0);
    forall k | i <= k < end
      ensures text[k] != '\n'
    {
      HereAt(text, i, whole, k - i);
    }
    LineEndIs(text, i, end);
  }

  lemma {:induction false} QuotedPasses(text: string, j: nat, ps: seq<Piece>, quote: char)
    requires PiecesOk(ps, quote) && quote != '\\' && Here(text, j, PrintPieces(ps))
    ensures QuotedEnd(text, j, quote) == QuotedEnd(text, j + |PrintPieces(ps)|, quote)
    decreases |ps|
  {
    if ps != [] {
      var one := match ps[0] case Lit(c) => [c] case Esc(c) => ['\\', c];
      HereSplit(text, j, one, PrintPieces(ps[1..]));
      HereAt(text, j, one, 0);
      QuotedPasses(text, j + |one|, ps[1..], quote);
    }
  }

  lemma {:induction false} QuotedCloses(text: string, j: nat, ps: seq<Piece>, quote: char)
    requires PiecesOk(ps, quote) && quote != '\\' && Here(text, j, PrintPieces(ps) + [quote])
    ensures QuotedEnd(text, j, quote) == j + |PrintPieces(ps)| + 1 <= |text|
  {
    HereSplit(text, j, PrintPieces(ps), [quote]);
    HereAt(text, j + |PrintPieces(ps)|, [quote], 0);
    QuotedPasses(text, j, ps, quote);
  }

  lemma {:induction false} StrToken(lang: Lang, text: string, i: nat, pieces: seq<Piece>)
    requires PiecesOk(pieces, '"') && Here(text, i, "\"" + (PrintPieces(pieces) + "\""))
    ensures i < |text| && !IsComment(text, i)
    ensures TokenEnd(lang, text, i) == i + |PrintPieces(pieces)| + 2
  {
    HereSplit(text, i, "\"", PrintPieces(pieces) + "\"");
    HereAt(text, i, "\"", 0);
    QuotedCloses(text, i + 1, pieces, '"');
  }

  lemma {:induction false} EscapedCharToken(lang: Lang, text: string, i: nat, first: char, rest: seq<Piece>)
    requires lang.isRust && PiecesOk(rest, '\'')
    requires Here(text, i, ['\'', '\\', first] + (PrintPieces(rest) + "'"))
    ensures i < |text| && !IsComment(text, i)
    ensures TokenEnd(lang, text, i) == i + |PrintPieces(rest)| + 4
  {
    var open := ['\'', '\\', first];
    HereSplit(text, i, open, PrintPieces(rest) + "'");
    HereAt(text, i, open, 0);
    HereAt(text, i, open, 1);
    QuotedCloses(text, i + 3, rest, '\'');
    assert QuotedEnd(text, i + 1, '\'') == QuotedEnd(text, i + 3, '\'');
  }

  lemma {:induction false} CharLitToken(lang: Lang, text: string, i: nat, c: char)
    requires lang.isRust && c != '\\' && Here(text, i, ['\'', c, '\''])
    ensures i < |text| && !IsComment(text, i) && TokenEnd(lang, text, i) == i + 3
  {
    HereAt(text, i, ['\'', c, '\''], 0);
    HereAt(text, i, ['\'', c, '\''], 1);
    HereAt(text, i, ['\'', c, '\''], 2);
  }

  lemma {:induction false} TickToken(lang: Lang, text: string, i: nat, after: string)
    requires lang.isRust && Here(text, i, "'") && Ends(text, i + 1, after)
    requires !(|after| > 0 && after[0] == '\\') && !(|after| > 1 && after[1] == '\'')
    ensures i < |text| && !IsComment(text, i) && TokenEnd(lang, text, i) == i + 1
  {
    HereAt(text, i, "'", 0);
    if |after| > 0 {
      HereAt(text, i + 1, after, 0);
    }
    if |after| > 1 {
      HereAt(text, i + 1, after, 1);
    }
  }

  // ---------------------------------------------------------------- raw strings and code

  lemma {:induction false} NoRawEnd(text: string, j: nat, hashes: nat, after: string)
    requires Ends(text, j, after) && !OpensRaw(after)
    ensures RawEnd(text, j, hashes) == -1
    decreases |after|
  {
    if after != "" {
      HereAt(text, j, after, 0);
      if after[0] == '#' {
        assert after == "#" + after[1..];
        HereSplit(text, j, "#", after[1..]);
        NoRawEnd(text, j + 1, hashes + 1, after[1..]);
      }
    }
  }

  lemma {:induction false} SamePrefix(lang: Lang, text: string, before: string)
    requires Here(text, 0, before)
    ensures RawPrefix(lang, text, |before|) == RawPrefix(lang, before, |before|)
  {
    if |before| > 0 {
      HereAt(text, 0, before, |before| - 1);
    }
    if |before| > 1 {
      HereAt(text, 0, before, |before| - 2);
    }
  }

  /** What the lexer looks back at is the word before. */
  lemma {:induction false} RawPrefixExactly(lang: Lang, before: string)
    ensures RawPrefix(lang, before, |before|) <==> StartsRaw(lang.alnum, before)
    ensures LastWord(lang.alnum, before) == "" <==> before == "" || !Identifier(lang, before[|before| - 1])
  {
    var n := |before|;
    if n > 0 && Identifier(lang, before[n - 1]) {
      var front := before[..n - 1];
      assert LastWord(lang.alnum, before) == LastWord(lang.alnum, front) + [before[n - 1]];
      var word := LastWord(lang.alnum, before);
      assert word[|word| - 1] == before[n - 1];
      assert LastWord(lang.alnum, front) == "" <==> n == 1 || !Identifier(lang, before[n - 2]);
      if LastWord(lang.alnum, front) == "" {
        assert word == [before[n - 1]];
      }
    }
  }

  lemma {:induction false} CodeToken(lang: Lang, text: string, before: string, c: char, after: string)
    requires lang.isRust && Fits(lang, before, Code(c), after)
    requires Here(text, 0, before) && Here(text, |before|, [c]) && Ends(text, |before| + 1, after)
    ensures var i := |before|; i < |text| && !IsComment(text, i) && TokenEnd(lang, text, i) == i + 1
  {
    var i := |before|;
    HereAt(text, i, [c], 0);
    if c == 'r' {
      SamePrefix(lang, text, before);
      RawPrefixExactly(lang, before);
      if RawPrefix(lang, text, i) {
        NoRawEnd(text, i + 1, 0, after);
      }
    }
    if |after| > 0 {
      HereAt(text, i + 1, after, 0);
    }
  }

  lemma {:induction false} NotBeforeAt(text: string, pat: string, n: nat, k: nat)
    requires NotBefore(text, pat, n) && k < n
    ensures !Here(text, k, pat)
    decreases n
  {
    if k < n - 1 {
      NotBeforeAt(text, pat, n - 1, k);
    }
  }

  /** The closer is found at the end of the body and not before. */
  lemma {:induction false} CloserFound(text: string, j: nat, hashes: nat, raw: string)
    requires Here(text, j, raw + Closer(hashes)) && CloserOnlyAtEnd(hashes, raw)
    ensures Find(text, Closer(hashes), j) == j + |raw|
  {
    HereSplit(text, j, raw, Closer(hashes));
    forall k: nat | j <= k < j + |raw|
      ensures !Here(text, k, Closer(hashes))
    {
      NotBeforeAt(raw + Closer(hashes), Closer(hashes), |raw|, k - j);
      if Here(text, k, Closer(hashes)) {
        HereInside(text, j, raw + Closer(hashes), k - j, Closer(hashes));
      }
    }
    FindIs(text, Closer(hashes), j, j + |raw|);
  }

  lemma {:induction false} RawEndIs(text: string, j: nat, seen: nat, more: nat, raw: string)
    requires Here(text, j, Hashes(more) + ("\"" + (raw + Closer(seen + more))))
    requires CloserOnlyAtEnd(seen + more, raw)
    ensures RawEnd(text, j, seen) == j + more + 1 + |raw| + seen + more + 1 <= |text|
    decreases more
  {
    var close := raw + Closer(seen + more);
    if more == 0 {
      assert Hashes(0) + ("\"" + close) == "\"" + close;
      HereSplit(text, j, "\"", close);
      HereAt(text, j, "\"", 0);
      CloserFound(text, j + 1, seen, raw);
    } else {
      assert Hashes(more) + ("\"" + close) == "#" + (Hashes(more - 1) + ("\"" + close));
      HereSplit(text, j, "#", Hashes(more - 1) + ("\"" + close));
      HereAt(text, j, "#", 0);
      RawEndIs(text, j + 1, seen + 1, more - 1, raw);
    }
  }

  lemma {:induction false} RawToken(lang: Lang, text: string, i: nat, hashes: nat, raw: string)
    requires lang.isRust && Here(text, i, PrintRaw(hashes, raw)) && RawPrefix(lang, text, i)
    requires CloserOnlyAtEnd(hashes, raw)
    ensures i < |text| && !IsComment(text, i)
    ensures TokenEnd(lang, text, i) == i + |PrintRaw(hashes, raw)|
  {
    var rest := Hashes(hashes) + ("\"" + (raw + Closer(hashes)));
    HereSplit(text, i, "r", rest);
    HereAt(text, i, "r", 0);
    RawEndIs(text, i + 1, 0, hashes, raw);
  }

  // ---------------------------------------------------------------- one item

  /** `ends` lists the lexer's token ends; used only where a token's end is spoken of. */
  ghost predicate Table(lang: Lang, text: string, ends: seq<nat>) {
    && Proper(text, ends)
    && forall i: nat {:trigger TokenEnd(lang, text, i)} :: i < |text| ==> ends[i] == TokenEnd(lang, text, i)
  }

  /** From `at`, the scan reads `part` and goes on after it. */
  ghost predicate Reads(text: string, ends: seq<nat>, at: nat, part: Part)
    requires Proper(text, ends)
  {
    && at + |part.shown| <= |text|
    && CommentsFrom(text, ends, at) == WithOwn(part, at, CommentsFrom(text, ends, at + |part.shown|))
  }

  lemma {:induction false} Skips(text: string, ends: seq<nat>, i: nat, part: Part)
    requires Proper(text, ends) && i < |text| && !IsComment(text, i)
    requires part.comment == [] && ends[i] == i + |part.shown|
    ensures Reads(text, ends, i, part)
  {
  }

  lemma {:induction false} ReadsLine(lang: Lang, text: string, ends: seq<nat>, i: nat, body: string)
    requires Table(lang, text, ends) && '\n' !in body && Here(text, i, PrintItem(LineComment(body)))
    ensures Reads(text, ends, i, PartOf(LineComment(body)))
  {
    var end := i + |"//" + body|;
    LineToken(lang, text, i, body);
    assert TokenEnd(lang, text, end) == end + 1 && !IsComment(text, end);
  }

  lemma {:induction false} ReadsBlock(lang: Lang, text: string, ends: seq<nat>, i: nat, parts: seq<Nest>)
    requires lang.isRust && Table(lang, text, ends)
    requires NestsOk(parts, "*/") && Here(text, i, PrintItem(BlockComment(parts)))
    ensures Reads(text, ends, i, PartOf(BlockComment(parts)))
  {
    BlockToken(lang, text, i, parts);
  }

  lemma {:induction false} ReadsStr(lang: Lang, text: string, ends: seq<nat>, i: nat, pieces: seq<Piece>)
    requires Table(lang, text, ends) && PiecesOk(pieces, '"') && Here(text, i, PrintItem(Str(pieces)))
    ensures Reads(text, ends, i, PartOf(Str(pieces)))
  {
    StrToken(lang, text, i, pieces);
    Skips(text, ends, i, PartOf(Str(pieces)));
  }

  lemma {:induction false} ReadsEscapedChar(lang: Lang, text: string, ends: seq<nat>, i: nat, first: char, rest: seq<Piece>)
    requires lang.isRust && Table(lang, text, ends)
    requires PiecesOk(rest, '\'') && Here(text, i, PrintItem(EscapedChar(first, rest)))
    ensures Reads(text, ends, i, PartOf(EscapedChar(first, rest)))
  {
    EscapedCharToken(lang, text, i, first, rest);
    Skips(text, ends, i, PartOf(EscapedChar(first, rest)));
  }

  lemma {:induction false} ReadsCharLit(lang: Lang, text: string, ends: seq<nat>, i: nat, c: char)
    requires lang.isRust && Table(lang, text, ends) && c != '\\' && Here(text, i, PrintItem(CharLit(c)))
    ensures Reads(text, ends, i, PartOf(CharLit(c)))
  {
    CharLitToken(lang, text, i, c);
    Skips(text, ends, i, PartOf(CharLit(c)));
  }

  lemma {:induction false} ReadsTick(lang: Lang, text: string, ends: seq<nat>, i: nat, after: string)
    requires lang.isRust && Table(lang, text, ends) && Here(text, i, PrintItem(Tick)) && Ends(text, i + 1, after)
    requires !(|after| > 0 && after[0] == '\\') && !(|after| > 1 && after[1] == '\'')
    ensures Reads(text, ends, i, PartOf(Tick))
  {
    TickToken(lang, text, i, after);
    Skips(text, ends, i, PartOf(Tick));
  }

  lemma {:induction false} ReadsCode(lang: Lang, text: string, ends: seq<nat>, before: string, c: char, after: string)
    requires lang.isRust && Table(lang, text, ends) && Fits(lang, before, Code(c), after)
    requires Placed(text, before, Code(c), after)
    ensures Reads(text, ends, |before|, PartOf(Code(c)))
  {
    CodeToken(lang, text, before, c, after);
    Skips(text, ends, |before|, PartOf(Code(c)));
  }

  /** The `b` or `c` before a raw string is a token of its own. */
  lemma {:induction false} ReadsPrefix(lang: Lang, text: string, ends: seq<nat>, before: string, prefix: string)
    requires Table(lang, text, ends) && Here(text, 0, before) && Here(text, |before|, prefix)
    requires (prefix == "" || prefix == "b" || prefix == "c") && LastWord(lang.alnum, before) == ""
    ensures CommentsFrom(text, ends, |before|) == CommentsFrom(text, ends, |before| + |prefix|)
    ensures RawPrefix(lang, text, |before| + |prefix|)
  {
    var i := |before|;
    RawPrefixExactly(lang, before);
    if i > 0 {
      HereAt(text, 0, before, i - 1);
    }
    if prefix != "" {
      HereAt(text, i, prefix, 0);
      assert TokenEnd(lang, text, i) == i + 1 && !IsComment(text, i);
    }
  }

  lemma {:induction false} SkipsRaw(lang: Lang, text: string, ends: seq<nat>, r: nat, hashes: nat, raw: string, shown: string)
    requires lang.isRust && Table(lang, text, ends) && shown == PrintRaw(hashes, raw)
    requires Here(text, r, shown) && RawPrefix(lang, text, r) && CloserOnlyAtEnd(hashes, raw)
    ensures CommentsFrom(text, ends, r) == CommentsFrom(text, ends, r + |shown|)
  {
    RawToken(lang, text, r, hashes, raw);
  }

  lemma {:induction false} ReadsRaw(lang: Lang, text: string, ends: seq<nat>, before: string, prefix: string,
                                    hashes: nat, raw: string, shown: string, part: Part)
    requires lang.isRust && Table(lang, text, ends) && shown == PrintRaw(hashes, raw)
    requires prefix == "" || prefix == "b" || prefix == "c"
    requires LastWord(lang.alnum, before) == "" && CloserOnlyAtEnd(hashes, raw)
    requires Here(text, 0, before) && Here(text, |before|, part.shown)
    requires part.shown == prefix + shown && part.comment == []
    ensures Reads(text, ends, |before|, part)
  {
    HereSplit(text, |before|, prefix, shown);
    ReadsPrefix(lang, text, ends, before, prefix);
    SkipsRaw(lang, text, ends, |before| + |prefix|, hashes, raw, shown);
  }

  // ---------------------------------------------------------------- what only the end ends

  lemma {:induction false} LineEndIsEnd(text: string, i: nat)
    requires i <= |text| && forall k :: i <= k < |text| ==> text[k] != '\n'
    ensures LineEnd(text, i) == |text|
    decreases |text| - i
  {
    if i < |text| {
      LineEndIsEnd(text, i + 1);
    }
  }

  lemma {:induction false} ReadsLastLine(lang: Lang, text: string, ends: seq<nat>, i: nat, body: string)
    requires Table(lang, text, ends) && '\n' !in body
    requires Here(text, i, PrintItem(LastLine(body))) && i + |PrintItem(LastLine(body))| == |text|
    ensures Reads(text, ends, i, PartOf(LastLine(body)))
  {
    var whole := "//" + body;
    HereAt(text, i, whole, 0);
    HereAt(text, i, whole, 1);
    forall k | i <= k < |text|
      ensures text[k] != '\n'
    {
      HereAt(text, i, whole, k - i);
    }
    LineEndIsEnd(text, i);
    assert TokenEnd(lang, text, i) == |text| && IsComment(text, i);
  }

  lemma {:induction false} ReadsOpenBlock(lang: Lang, text: string, ends: seq<nat>, i: nat, parts: seq<Nest>)
    requires lang.isRust && Table(lang, text, ends) && NestsOk(parts, "")
    requires Here(text, i, PrintItem(OpenBlock(parts))) && i + |PrintItem(OpenBlock(parts))| == |text|
    ensures Reads(text, ends, i, PartOf(OpenBlock(parts)))
  {
    HereSplit(text, i, "/*", PrintNests(parts));
    HereAt(text, i, "/*", 0);
    HereAt(text, i, "/*", 1);
    assert PrintNests(parts) + "" == PrintNests(parts);
    ScanPassesNests(text, i + 2, parts, "", 1);
    assert TokenEnd(lang, text, i) == |text| && IsComment(text, i);
  }

  lemma {:induction false} OpenStrToken(lang: Lang, text: string, i: nat, quote: char, pieces: seq<Piece>)
    requires quote == '"' || (quote == '\'' && !lang.isRust)
    requires PiecesOk(pieces, quote) && Here(text, i, [quote] + PrintPieces(pieces)) && i + 1 + |PrintPieces(pieces)| == |text|
    ensures i < |text| && !IsComment(text, i) && TokenEnd(lang, text, i) == |text|
  {
    HereSplit(text, i, [quote], PrintPieces(pieces));
    HereAt(text, i, [quote], 0);
    QuotedPasses(text, i + 1, pieces, quote);
  }

  lemma {:induction false} OpenRawEndIs(text: string, j: nat, seen: nat, more: nat, raw: string)
    requires Here(text, j, Hashes(more) + ("\"" + raw)) && j + more + 1 + |raw| == |text|
    requires NotBefore(raw, Closer(seen + more), |raw|)
    ensures RawEnd(text, j, seen) == |text|
    decreases more
  {
    if more == 0 {
      assert Hashes(0) + ("\"" + raw) == "\"" + raw;
      HereSplit(text, j, "\"", raw);
      HereAt(text, j, "\"", 0);
      CloserNotFound(text, j + 1, seen, raw, 0);
    } else {
      assert Hashes(more) + ("\"" + raw) == "#" + (Hashes(more - 1) + ("\"" + raw));
      HereSplit(text, j, "#", Hashes(more - 1) + ("\"" + raw));
      HereAt(text, j, "#", 0);
      OpenRawEndIs(text, j + 1, seen + 1, more - 1, raw);
    }
  }

  lemma {:induction false} CloserNotFound(text: string, j: nat, hashes: nat, raw: string, k: nat)
    requires Here(text, j, raw) && j + |raw| == |text| && NotBefore(raw, Closer(hashes), |raw|) && k <= |raw|
    ensures Find(text, Closer(hashes), j + k) == -1
    decreases |raw| - k
  {
    if k < |raw| {
      NotBeforeAt(raw, Closer(hashes), |raw|, k);
      if Here(text, j + k, Closer(hashes)) {
        HereInside(text, j, raw, k, Closer(hashes));
      }
      CloserNotFound(text, j, hashes, raw, k + 1);
    }
  }

  lemma {:induction false} SkipsOpenRaw(lang: Lang, text: string, ends: seq<nat>, r: nat, hashes: nat, raw: string, shown: string)
    requires lang.isRust && Table(lang, text, ends) && shown == PrintOpenRaw(hashes, raw)
    requires Here(text, r, shown) && r + |shown| == |text| && RawPrefix(lang, text, r)
    requires NotBefore(raw, Closer(hashes), |raw|)
    ensures CommentsFrom(text, ends, r) == CommentsFrom(text, ends, |text|)
  {
    var rest := Hashes(hashes) + ("\"" + raw);
    HereSplit(text, r, "r", rest);
    HereAt(text, r, "r", 0);
    OpenRawEndIs(text, r + 1, 0, hashes, raw);
    assert TokenEnd(lang, text, r) == |text| && !IsComment(text, r);
  }

  lemma {:induction false} ReadsOpenRaw(lang: Lang, text: string, ends: seq<nat>, before: string, prefix: string,
                                        hashes: nat, raw: string, shown: string, part: Part)
    requires lang.isRust && Table(lang, text, ends) && shown == PrintOpenRaw(hashes, raw)
    requires (prefix == "" || prefix == "b" || prefix == "c") && LastWord(lang.alnum, before) == ""
    requires NotBefore(raw, Closer(hashes), |raw|)
    requires Here(text, 0, before) && Here(text, |before|, part.shown) && |before| + |part.shown| == |text|
    requires part.shown == prefix + shown && part.comment == []
    ensures Reads(text, ends, |before|, part)
  {
    HereSplit(text, |before|, prefix, shown);
    ReadsPrefix(lang, text, ends, before, prefix);
    SkipsOpenRaw(lang, text, ends, |before| + |prefix|, hashes, raw, shown);
  }

  lemma {:induction false} ReadsOpenStr(lang: Lang, text: string, ends: seq<nat>, i: nat, quote: char, pieces: seq<Piece>, part: Part)
    requires quote == '"' || (quote == '\'' && !lang.isRust)
    requires Table(lang, text, ends) && PiecesOk(pieces, quote) && part == Part([quote] + PrintPieces(pieces), [])
    requires Here(text, i, part.shown) && i + |part.shown| == |text|
    ensures Reads(text, ends, i, part)
  {
    OpenStrToken(lang, text, i, quote, pieces);
    Skips(text, ends, i, part);
  }

  /** `it` stands between `before` and `after`, and those are the whole text. */
  ghost predicate Placed(text: string, before: string, it: Item, after: string) {
    && Here(text, 0, before) && Here(text, |before|, PrintItem(it))
    && Ends(text, |before| + |PrintItem(it)|, after)
  }

  lemma {:induction false} ReadsItem(lang: Lang, text: string, ends: seq<nat>, before: string, it: Item, after: string)
    requires lang.isRust && Table(lang, text, ends)
    requires Fits(lang, before, it, after) && Placed(text, before, it, after)
    ensures Reads(text, ends, |before|, PartOf(it))
  {
    match it
    case LineComment(body) => ReadsLine(lang, text, ends, |before|, body);
    case BlockComment(parts) => ReadsBlock(lang, text, ends, |before|, parts);
    case Str(pieces) => ReadsStr(lang, text, ends, |before|, pieces);
    case RawStr(prefix, hashes, raw) =>
      ReadsRaw(lang, text, ends, before, prefix, hashes, raw, PrintRaw(hashes, raw), PartOf(it));
    case CharLit(c) => ReadsCharLit(lang, text, ends, |before|, c);
    case EscapedChar(first, rest) => ReadsEscapedChar(lang, text, ends, |before|, first, rest);
    case Tick => ReadsTick(lang, text, ends, |before|, after);
    case Code(c) => ReadsCode(lang, text, ends, before, c, after);
    case LastLine(body) => ReadsLastLine(lang, text, ends, |before|, body);
    case OpenBlock(parts) => ReadsOpenBlock(lang, text, ends, |before|, parts);
    case OpenStr(pieces) => ReadsOpenStr(lang, text, ends, |before|, '"', pieces, PartOf(it));
    case OpenRaw(prefix, hashes, raw) =>
      ReadsOpenRaw(lang, text, ends, before, prefix, hashes, raw, PrintOpenRaw(hashes, raw), PartOf(it));
  }

  // ---------------------------------------------------------------- all the items

  lemma {:induction false} Append(text: string, before: string, one: string, rest: string)
    requires Here(text, 0, before) && Ends(text, |before|, one + rest)
    ensures Here(text, |before|, one) && Ends(text, |before| + |one|, rest) && Here(text, 0, before + one)
  {
    HereSplit(text, |before|, one, rest);
    HereJoin(text, 0, before, one);
  }

  /** A part's comment is what it starts with. */
  ghost predicate PartOk(part: Part) {
    part.comment != [] ==> Here(part.shown, 0, part.comment[0])
  }

  lemma {:induction false} ItemPartOk(it: Item)
    ensures PartOk(PartOf(it))
  {
    if Commented(it) {
      HereIf(PrintItem(it), 0, CommentText(it));
    }
  }

  ghost predicate PartsOk(parts: Parts) {
    match parts
    case NoParts => true
    case After(part, rest) => PartOk(part) && PartsOk(rest)
  }

  lemma {:induction false} ItemPartsOk(items: Items)
    ensures PartsOk(PartsOf(items))
  {
    match items
    case NoItems =>
    case Then(it, rest) =>
      ItemPartOk(it);
      ItemPartsOk(rest);
  }

  /** From `at` to the end the scan goes part by part. */
  ghost predicate ReadInTurn(text: string, ends: seq<nat>, at: nat, parts: Parts)
    requires Proper(text, ends)
    decreases parts
  {
    match parts
    case NoParts => at == |text|
    case After(part, rest) => Reads(text, ends, at, part) && ReadInTurn(text, ends, at + |part.shown|, rest)
  }

  lemma {:induction false} FirstItemReads(lang: Lang, text: string, ends: seq<nat>, before: string, it: Item, rest: Items)
    requires lang.isRust && Table(lang, text, ends) && ItemOk(lang, before, it, rest)
    requires Here(text, 0, before) && Ends(text, |before|, PrintItem(it) + Print(rest))
    ensures Reads(text, ends, |before|, PartOf(it)) && Here(text, 0, before + PrintItem(it))
    ensures Ends(text, |before + PrintItem(it)|, Print(rest)) && ItemsOk(lang, before + PrintItem(it), rest)
  {
    Append(text, before, PrintItem(it), Print(rest));
    ReadsItem(lang, text, ends, before, it, Print(rest));
  }

  lemma {:induction false} ItemsReadInTurn(lang: Lang, text: string, ends: seq<nat>, before: string, items: Items)
    requires lang.isRust && Table(lang, text, ends)
    requires Here(text, 0, before) && Ends(text, |before|, Print(items)) && ItemsOk(lang, before, items)
    ensures ReadInTurn(text, ends, |before|, PartsOf(items))
    decreases items
  {
    match items
    case NoItems =>
    case Then(it, rest) =>
      FirstItemReads(lang, text, ends, before, it, rest);
      ItemsReadInTurn(lang, text, ends, before + PrintItem(it), rest);
  }

  lemma {:induction false} FoundWhereLocated(text: string, ends: seq<nat>, at: nat, parts: Parts)
    requires Proper(text, ends) && at <= |text| && ReadInTurn(text, ends, at, parts)
    ensures CommentsFrom(text, ends, at) == Located(parts, at)
    decreases parts
  {
    match parts
    case NoParts =>
    case After(part, rest) => FoundWhereLocated(text, ends, at + |part.shown|, rest);
  }

  /** Newlines counted from the start, through a stretch `s` of the text. */
  lemma {:induction false} NewlinesThrough(text: string, i: nat, s: string, k: nat)
    requires Here(text, i, s) && k <= |s|
    ensures Newlines(text, i + k) == Newlines(text, i) + Newlines(s, k)
    decreases k
  {
    if k > 0 {
      HereAt(text, i, s, k - 1);
      NewlinesThrough(text, i, s, k - 1);
    }
  }

  lemma {:induction false} SliceIs(text: string, i: nat, s: string, a: nat, b: nat)
    requires Here(text, i, s) && a <= b <= |s|
    ensures text[i + a..i + b] == s[a..b]
  {
    forall k | a <= k < b
      ensures text[i + k] == s[k]
    {
      HereAt(text, i, s, k);
    }
    assert forall k :: 0 <= k < b - a ==> s[a..b][k] == s[a + k];
  }

  /** A stretch of the text splits as it would on its own. */
  lemma {:induction false} SplitInPlace(text: string, at: nat, s: string, from: nat, i: nat, line: nat)
    requires Here(text, at, s) && from <= i <= |s|
    ensures Split(text, at + from, at + i, at + |s|, line) == Split(s, from, i, |s|, line)
    decreases |s| - i
  {
    SliceIs(text, at, s, from, i);
    if i < |s| {
      HereAt(text, at, s, i);
      if s[i] == '\n' {
        SplitInPlace(text, at, s, i + 1, i + 1, line + 1);
      } else {
        SplitInPlace(text, at, s, from, i + 1, line);
      }
    }
  }

  lemma {:induction false} EntriesStep(text: string, at: nat, part: Part, rest: Found, es: seq<Entry>, all: Found, want: seq<Entry>)
    requires PartOk(part) && Here(text, at, part.shown)
    requires Within(rest, |text|) && EntriesOf(text, rest) == es
    requires all == WithOwn(part, at, rest) && want == OwnLines(part, 1 + Newlines(text, at), es)
    ensures Within(all, |text|) && EntriesOf(text, all) == want
  {
    if part.comment != [] {
      HereWithin(text, at, part.shown, part.comment[0]);
      SplitInPlace(text, at, part.comment[0], 0, 0, 1 + Newlines(text, at));
    }
  }

  lemma {:induction false} EntriesOfParts(text: string, at: nat, parts: Parts)
    requires PartsOk(parts) && Here(text, at, Show(parts))
    ensures Within(Located(parts, at), |text|)
    ensures EntriesOf(text, Located(parts, at)) == Comments(parts, 1 + Newlines(text, at))
    decreases parts
  {
    match parts
    case NoParts =>
    case After(part, rest) =>
      var next, line := at + |part.shown|, 1 + Newlines(text, at);
      var after := line + Newlines(part.shown, |part.shown|);
      assert Here(text, at, part.shown) && Here(text, next, Show(rest)) by {
        HereSplit(text, at, part.shown, Show(rest));
      }
      assert after == 1 + Newlines(text, next) by {
        NewlinesThrough(text, at, part.shown, |part.shown|);
      }
      EntriesOfParts(text, next, rest);
      EntriesStep(text, at, part, Located(rest, next), Comments(rest, after), Located(parts, at), Comments(parts, line));
  }

  lemma {:induction false} WholeText(text: string)
    ensures Here(text, 0, text) && Ends(text, 0, text) && Here(text, 0, "")
  {
    HereIf(text, 0, text);
  }

  lemma {:induction false} EntriesWhenReadInTurn(text: string, ends: seq<nat>, parts: Parts)
    requires Proper(text, ends) && PartsOk(parts) && Here(text, 0, Show(parts)) && ReadInTurn(text, ends, 0, parts)
    ensures EntriesOf(text, CommentsFrom(text, ends, 0)) == Comments(parts, 1)
  {
    FoundWhereLocated(text, ends, 0, parts);
    EntriesOfParts(text, 0, parts);
  }

  lemma {:induction false} PrintedReadInTurn(lang: Lang, items: Items, text: string, ends: seq<nat>)
    requires lang.isRust && Table(lang, text, ends) && ItemsOk(lang, "", items) && text == Print(items)
    ensures ReadInTurn(text, ends, 0, PartsOf(items))
  {
    WholeText(text);
    ItemsReadInTurn(lang, text, ends, "", items);
  }

  /** Reading back a printed Rust source gives its comments, in order, each line with its number,
      and nothing else. */
  lemma {:induction false} RoundTrip(lang: Lang, items: Items)
    requires lang.isRust && ItemsOk(lang, "", items)
    ensures EntriesOf(Print(items), CommentsFrom(Print(items), TokenEnds(lang, Print(items)), 0))
            == Comments(PartsOf(items), 1)
  {
    var text, ends := Print(items), TokenEnds(lang, Print(items));
    ItemPartsOk(items);
    WholeText(text);
    PrintedReadInTurn(lang, items, text, ends);
    EntriesWhenReadInTurn(text, ends, PartsOf(items));
  }

  method ReadsBack(lang: Lang, items: Items) returns (comments: seq<Entry>)
    requires lang.isRust && ItemsOk(lang, "", items)
    ensures comments == Comments(PartsOf(items), 1)
  {
    comments := SourceComments(lang, Print(items));
    RoundTrip(lang, items);
  }
}
