/** The lexer's tokens tile every text, and each comment is reported line by line, verbatim. */
module DocLexerPartition {
  import opened DocLexer

  // ---------------------------------------------------------------- lines

  /** The lines of `es` put together again. */
  function Joined(es: seq<Entry>): string
    requires es != []
  {
    if |es| == 1 then es[0].text else es[0].text + "\n" + Joined(es[1..])
  }

  ghost predicate Consecutive(es: seq<Entry>, first: nat) {
    es == [] || (es[0].line == first && '\n' !in es[0].text && Consecutive(es[1..], first + 1))
  }

  lemma {:induction false} LineRejoins(text: string, from: nat, i: nat, end: nat, line: nat, es: seq<Entry>)
    requires from <= i < end <= |text| && '\n' !in text[from..i] && text[i] == '\n'
    requires es != [] && Joined(es) == text[i + 1..end] && Consecutive(es, line + 1)
    ensures var all := [Entry(line, text[from..i])] + es;
            Joined(all) == text[from..end] && Consecutive(all, line)
  {
    assert ([Entry(line, text[from..i])] + es)[1..] == es;
    assert text[from..i] + "\n" + text[i + 1..end] == text[from..end];
  }

  lemma {:induction false} SplitRejoins(text: string, from: nat, i: nat, end: nat, line: nat)
    requires from <= i <= end <= |text| && '\n' !in text[from..i]
    ensures var es := Split(text, from, i, end, line);
            && es != [] && Joined(es) == text[from..end] && Consecutive(es, line)
            && line + |es| - 1 + Newlines(text, i) == line + Newlines(text, end)
    decreases end - i
  {
    if i < end {
      NewlinesStep(text, i);
      if text[i] == '\n' {
        SplitRejoins(text, i + 1, i + 1, end, line + 1);
        LineRejoins(text, from, i, end, line, Split(text, i + 1, i + 1, end, line + 1));
      } else {
        assert text[from..i + 1] == text[from..i] + [text[i]];
        SplitRejoins(text, from, i + 1, end, line);
      }
    }
  }

  lemma {:induction false} NewlinesStep(text: string, i: nat)
    requires i < |text|
    ensures Newlines(text, i + 1) == Newlines(text, i) + if text[i] == '\n' then 1 else 0
  {
  }

  /** A comment's entries are its physical lines: rejoined they are the comment, they are numbered
      consecutively from the line the comment starts on, and the last is the line it ends on. */
  lemma {:induction false} EntriesAreTheComment(text: string, start: nat, end: nat)
    requires start <= end <= |text|
    ensures var es := Entries(text, start, end);
            && es != [] && Joined(es) == text[start..end]
            && Consecutive(es, 1 + Newlines(text, start))
            && |es| + Newlines(text, start) == 1 + Newlines(text, end)
  {
    SplitRejoins(text, start, start, end, Newlines(text, start) + 1);
  }

  // ---------------------------------------------------------------- tiling

  datatype Span = Span(start: nat, end: nat)

  /** The tokens of `text` from `i` on. */
  function Spans(text: string, ends: seq<nat>, i: nat): seq<Span>
    requires Proper(text, ends) && i <= |text|
    decreases |text| - i
  {
    if i == |text| then [] else [Span(i, ends[i])] + Spans(text, ends, ends[i])
  }

  /** Non-empty spans, each starting where the one before ends, from `from` to `to`. */
  ghost predicate Tiles(spans: seq<Span>, from: nat, to: nat) {
    if spans == [] then from == to
    else spans[0].start == from && from < spans[0].end && Tiles(spans[1..], spans[0].end, to)
  }

  /** The comments among the spans. */
  function OnlyComments(text: string, spans: seq<Span>): Found {
    if spans == [] then Nothing
    else if IsComment(text, spans[0].start) then
      Comment(spans[0].start, spans[0].end, OnlyComments(text, spans[1..]))
    else OnlyComments(text, spans[1..])
  }

  lemma {:induction false} SpansTile(text: string, ends: seq<nat>, i: nat)
    requires Proper(text, ends) && i <= |text|
    ensures Tiles(Spans(text, ends, i), i, |text|)
    ensures CommentsFrom(text, ends, i) == OnlyComments(text, Spans(text, ends, i))
    decreases |text| - i
  {
    if i < |text| {
      SpansTile(text, ends, ends[i]);
      assert Spans(text, ends, i)[1..] == Spans(text, ends, ends[i]);
    }
  }

  /** Any text, either mode: the tokens cut it into consecutive non-empty pieces with nothing left
      over, and what is reported is the comment pieces, in order, each as `EntriesAreTheComment`
      says. */
  lemma {:induction false} TokensPartitionTheText(lang: Lang, text: string)
    ensures var spans := Spans(text, TokenEnds(lang, text), 0);
            && Tiles(spans, 0, |text|)
            && CommentsFrom(text, TokenEnds(lang, text), 0) == OnlyComments(text, spans)
  {
    SpansTile(text, TokenEnds(lang, text), 0);
  }

  /** So every position is in one token. */
  lemma {:induction false} TilesCover(spans: seq<Span>, from: nat, to: nat, p: nat)
    requires Tiles(spans, from, to) && from <= p < to
    ensures exists k :: 0 <= k < |spans| && spans[k].start <= p < spans[k].end
    decreases |spans|
  {
    if p >= spans[0].end {
      TilesCover(spans[1..], spans[0].end, to, p);
      var k :| 0 <= k < |spans[1..]| && spans[1..][k].start <= p < spans[1..][k].end;
      assert spans[k + 1].start <= p < spans[k + 1].end;
    } else {
      assert spans[0].start <= p < spans[0].end;
    }
  }
}
