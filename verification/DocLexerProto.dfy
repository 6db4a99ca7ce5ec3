/**
  Printing a proto source and reading it back. Block comments do not nest there, both quotes open a
  literal, and an `r` is a letter.
 */
module DocLexerProto {
  import opened Text
  import opened DocLexer
  import opened DocLexerPartition
  import opened DocLexerRoundTrip

  /** The last three are what only the end of the text ends. */
  datatype ProtoItem =
    | ProtoLine(body: string)
    | ProtoBlock(body: string)
    | Literal(quote: char, pieces: seq<Piece>)
    | Letter(c: char)
    | ProtoLastLine(body: string)
    | ProtoOpenBlock(body: string)
    | OpenLiteral(quote: char, pieces: seq<Piece>)

  datatype ProtoItems = NoneLeft | Next(item: ProtoItem, rest: ProtoItems)

  function ShowItem(it: ProtoItem): string {
    match it
    case ProtoLine(body) => "//" + body + "\n"
    case ProtoBlock(body) => "/*" + (body + "*/")
    case Literal(quote, pieces) => [quote] + (PrintPieces(pieces) + [quote])
    case Letter(c) => [c]
    case ProtoLastLine(body) => "//" + body
    case ProtoOpenBlock(body) => "/*" + body
    case OpenLiteral(quote, pieces) => [quote] + PrintPieces(pieces)
  }

  /** An item as printed, with the comment it is, if it is one, without the newline after a line. */
  function ProtoPart(it: ProtoItem): Part {
    match it
    case ProtoLine(body) => Part(ShowItem(it), ["//" + body])
    case ProtoBlock(_) => Part(ShowItem(it), [ShowItem(it)])
    case ProtoLastLine(_) => Part(ShowItem(it), [ShowItem(it)])
    case ProtoOpenBlock(_) => Part(ShowItem(it), [ShowItem(it)])
    case _ => Part(ShowItem(it), [])
  }

  function ProtoParts(items: ProtoItems): Parts {
    match items
    case NoneLeft => NoParts
    case Next(it, rest) => After(ProtoPart(it), ProtoParts(rest))
  }

  // ---------------------------------------------------------------- what may be printed

  predicate Quote(c: char) {
    c == '"' || c == '\''
  }

  /** `it`, with `after` behind it, is the item it is meant to be. */
  ghost predicate FitsProto(it: ProtoItem, after: string) {
    match it
    case ProtoLine(body) => '\n' !in body
    case ProtoBlock(body) => NotBefore(body + "*/", "*/", |body|)
    case Literal(quote, pieces) => Quote(quote) && PiecesOk(pieces, quote)
    case Letter(c) => !Quote(c) && (c == '/' ==> after == "" || (after[0] != '/' && after[0] != '*'))
    case ProtoLastLine(body) => after == "" && '\n' !in body
    case ProtoOpenBlock(body) => after == "" && NotBefore(body, "*/", |body|)
    case OpenLiteral(quote, pieces) => after == "" && Quote(quote) && PiecesOk(pieces, quote)
  }

  /** Each item fits where it is printed. */
  ghost predicate AllFit(items: ProtoItems)
    decreases items, 0
  {
    match items
    case NoneLeft => true
    case Next(it, rest) => FirstFits(it, rest)
  }

  ghost predicate FirstFits(it: ProtoItem, rest: ProtoItems)
    decreases rest, 1
  {
    FitsProto(it, Show(ProtoParts(rest))) && AllFit(rest)
  }

  // ---------------------------------------------------------------- one item

  /** A block comment that does not nest ends at the first closing marker, whatever it opens. */
  lemma {:induction false} FlatBlockEnds(text: string, i: nat, body: string, k: nat)
    requires Here(text, i, body + "*/") && NotBefore(body + "*/", "*/", |body|) && k <= |body|
    ensures BlockEnd(text, i + k, 1, false) == i + |body| + 2
    decreases |body| - k
  {
    if k < |body| {
      NotBeforeAt(body + "*/", "*/", |body|, k);
      NoPairInside(text, i, body + "*/", k);
      FlatBlockEnds(text, i, body, k + 1);
    } else {
      HereSplit(text, i, body, "*/");
      HereAt(text, i + |body|, "*/", 0);
      HereAt(text, i + |body|, "*/", 1);
    }
  }

  lemma {:induction false} NoPairInside(text: string, i: nat, whole: string, k: nat)
    requires Here(text, i, whole) && k + 1 < |whole| && !Here(whole, k, "*/")
    ensures !Pair(text, i + k, '*', '/')
  {
    HereAt(text, i, whole, k);
    HereAt(text, i, whole, k + 1);
    if whole[k] == '*' && whole[k + 1] == '/' {
      HereIf(whole, k, "*/");
    }
  }

  lemma {:induction false} OpenFlatBlock(text: string, i: nat, body: string, k: nat)
    requires Here(text, i, body) && i + |body| == |text| && NotBefore(body, "*/", |body|) && k <= |body|
    ensures BlockEnd(text, i + k, 1, false) == |text|
    decreases |body| - k
  {
    if k < |body| {
      NotBeforeAt(body, "*/", |body|, k);
      if k + 1 < |body| {
        NoPairInside(text, i, body, k);
      }
      OpenFlatBlock(text, i, body, k + 1);
    }
  }

  lemma {:induction false} ReadsProtoLine(lang: Lang, text: string, ends: seq<nat>, i: nat, body: string)
    requires Table(lang, text, ends) && '\n' !in body && Here(text, i, ShowItem(ProtoLine(body)))
    ensures Reads(text, ends, i, ProtoPart(ProtoLine(body)))
  {
    ReadsLine(lang, text, ends, i, body);
  }

  lemma {:induction false} ReadsProtoBlock(lang: Lang, text: string, ends: seq<nat>, i: nat, body: string)
    requires !lang.isRust && Table(lang, text, ends) && NotBefore(body + "*/", "*/", |body|)
    requires Here(text, i, ShowItem(ProtoBlock(body)))
    ensures Reads(text, ends, i, ProtoPart(ProtoBlock(body)))
  {
    HereSplit(text, i, "/*", body + "*/");
    HereAt(text, i, "/*", 0);
    HereAt(text, i, "/*", 1);
    FlatBlockEnds(text, i + 2, body, 0);
    assert TokenEnd(lang, text, i) == i + |body| + 4 && IsComment(text, i);
  }

  lemma {:induction false} ReadsProtoOpenBlock(lang: Lang, text: string, ends: seq<nat>, i: nat, body: string)
    requires !lang.isRust && Table(lang, text, ends) && NotBefore(body, "*/", |body|)
    requires Here(text, i, ShowItem(ProtoOpenBlock(body))) && i + 2 + |body| == |text|
    ensures Reads(text, ends, i, ProtoPart(ProtoOpenBlock(body)))
  {
    HereSplit(text, i, "/*", body);
    HereAt(text, i, "/*", 0);
    HereAt(text, i, "/*", 1);
    OpenFlatBlock(text, i + 2, body, 0);
    assert TokenEnd(lang, text, i) == |text| && IsComment(text, i);
  }

  lemma {:induction false} ReadsLiteral(lang: Lang, text: string, ends: seq<nat>, i: nat, quote: char, pieces: seq<Piece>)
    requires !lang.isRust && Table(lang, text, ends) && Quote(quote) && PiecesOk(pieces, quote)
    requires Here(text, i, ShowItem(Literal(quote, pieces)))
    ensures Reads(text, ends, i, ProtoPart(Literal(quote, pieces)))
  {
    HereSplit(text, i, [quote], PrintPieces(pieces) + [quote]);
    HereAt(text, i, [quote], 0);
    QuotedCloses(text, i + 1, pieces, quote);
    assert TokenEnd(lang, text, i) == i + |PrintPieces(pieces)| + 2;
    Skips(text, ends, i, ProtoPart(Literal(quote, pieces)));
  }

  lemma {:induction false} ReadsLetter(lang: Lang, text: string, ends: seq<nat>, i: nat, c: char, after: string)
    requires !lang.isRust && Table(lang, text, ends) && FitsProto(Letter(c), after)
    requires Here(text, i, [c]) && Ends(text, i + 1, after)
    ensures Reads(text, ends, i, ProtoPart(Letter(c)))
  {
    HereAt(text, i, [c], 0);
    if after != "" {
      HereAt(text, i + 1, after, 0);
    }
    assert TokenEnd(lang, text, i) == i + 1;
    Skips(text, ends, i, ProtoPart(Letter(c)));
  }

  lemma {:induction false} ReadsProtoItem(lang: Lang, text: string, ends: seq<nat>, i: nat, it: ProtoItem, after: string)
    requires !lang.isRust && Table(lang, text, ends) && FitsProto(it, after)
    requires Here(text, i, ShowItem(it)) && Ends(text, i + |ShowItem(it)|, after)
    ensures Reads(text, ends, i, ProtoPart(it))
  {
    match it
    case ProtoLine(body) => ReadsProtoLine(lang, text, ends, i, body);
    case ProtoBlock(body) => ReadsProtoBlock(lang, text, ends, i, body);
    case Literal(quote, pieces) => ReadsLiteral(lang, text, ends, i, quote, pieces);
    case Letter(c) => ReadsLetter(lang, text, ends, i, c, after);
    case ProtoLastLine(body) => ReadsLastLine(lang, text, ends, i, body);
    case ProtoOpenBlock(body) => ReadsProtoOpenBlock(lang, text, ends, i, body);
    case OpenLiteral(quote, pieces) => ReadsOpenStr(lang, text, ends, i, quote, pieces, ProtoPart(it));
  }

  // ---------------------------------------------------------------- all the items

  lemma {:induction false} FirstProtoReads(lang: Lang, text: string, ends: seq<nat>, at: nat, it: ProtoItem, rest: ProtoItems)
    requires !lang.isRust && Table(lang, text, ends) && FirstFits(it, rest)
    requires Ends(text, at, ShowItem(it) + Show(ProtoParts(rest)))
    ensures Reads(text, ends, at, ProtoPart(it)) && AllFit(rest)
    ensures Ends(text, at + |ShowItem(it)|, Show(ProtoParts(rest)))
  {
    HereSplit(text, at, ShowItem(it), Show(ProtoParts(rest)));
    ReadsProtoItem(lang, text, ends, at, it, Show(ProtoParts(rest)));
  }

  lemma {:induction false} ProtoReadInTurn(lang: Lang, text: string, ends: seq<nat>, at: nat, items: ProtoItems)
    requires !lang.isRust && Table(lang, text, ends) && Ends(text, at, Show(ProtoParts(items))) && AllFit(items)
    ensures ReadInTurn(text, ends, at, ProtoParts(items))
    decreases items
  {
    match items
    case NoneLeft =>
    case Next(it, rest) =>
      FirstProtoReads(lang, text, ends, at, it, rest);
      ProtoReadInTurn(lang, text, ends, at + |ShowItem(it)|, rest);
  }

  lemma {:induction false} ProtoPartOk(it: ProtoItem)
    ensures PartOk(ProtoPart(it))
  {
    if ProtoPart(it).comment != [] {
      HereIf(ShowItem(it), 0, ProtoPart(it).comment[0]);
    }
  }

  lemma {:induction false} ProtoPartsOk(items: ProtoItems)
    ensures PartsOk(ProtoParts(items))
  {
    match items
    case NoneLeft =>
    case Next(it, rest) =>
      ProtoPartOk(it);
      ProtoPartsOk(rest);
  }

  /** Reading back a printed proto source gives its comments, in order, each line with its number, and
      nothing else: no marker inside a literal of either quote, and no text after the first end of a
      block comment. */
  lemma {:induction false} ProtoRoundTrip(lang: Lang, items: ProtoItems)
    requires !lang.isRust && AllFit(items)
    ensures var text := Show(ProtoParts(items));
            EntriesOf(text, CommentsFrom(text, TokenEnds(lang, text), 0)) == Comments(ProtoParts(items), 1)
  {
    var text := Show(ProtoParts(items));
    var ends := TokenEnds(lang, text);
    ProtoPartsOk(items);
    WholeText(text);
    ProtoReadInTurn(lang, text, ends, 0, items);
    EntriesWhenReadInTurn(text, ends, ProtoParts(items));
  }

  method ReadsProtoBack(lang: Lang, items: ProtoItems) returns (comments: seq<Entry>)
    requires !lang.isRust && AllFit(items)
    ensures comments == Comments(ProtoParts(items), 1)
  {
    comments := SourceComments(lang, Show(ProtoParts(items)));
    ProtoRoundTrip(lang, items);
  }
}
