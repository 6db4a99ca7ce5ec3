/**
  The comment lexer of the documentation-language check (`check-doc-language.py`): it separates
  the comments of Rust and proto sources from strings, raw strings, chars and lifetimes.

  The loops are methods; each is proved to compute a function on which the theorems are stated.
 */
module DocLexer {
  import opened Text

  /** The file kind, and the letters and digits of Unicode, which the model leaves open. */
  datatype Lang = Lang(isRust: bool, alnum: set<char>)

  /** One physical line of a comment, numbered from 1. */
  datatype Entry = Entry(line: nat, text: string)

  predicate Pair(text: string, i: nat, a: char, b: char) {
    i + 1 < |text| && text[i] == a && text[i + 1] == b
  }

  // ---------------------------------------------------------------- block comments

  /** Where a block comment ends, scanning from `i` inside `depth` open ones. */
  function BlockEnd(text: string, i: nat, depth: nat, nested: bool): (end: nat)
    requires i <= |text|
    ensures i <= end <= |text|
    decreases |text| - i
  {
    if i == |text| || depth == 0 then i
    else if nested && Pair(text, i, '/', '*') then BlockEnd(text, i + 2, depth + 1, nested)
    else if Pair(text, i, '*', '/') then BlockEnd(text, i + 2, depth - 1, nested)
    else BlockEnd(text, i + 1, depth, nested)
  }

  method SkipBlockComment(text: string, start: nat, nested: bool) returns (i: nat)
    requires start + 2 <= |text|
    ensures i == BlockEnd(text, start + 2, 1, nested)
  {
    var depth: nat := 1;
    i := start + 2;
    while i < |text| && depth != 0
      invariant start + 2 <= i <= |text|
      invariant BlockEnd(text, i, depth, nested) == BlockEnd(text, start + 2, 1, nested)
    {
      if nested && Pair(text, i, '/', '*') {
        depth, i := depth + 1, i + 2;
      } else if Pair(text, i, '*', '/') {
        depth, i := depth - 1, i + 2;
      } else {
        i := i + 1;
      }
    }
  }

  // ---------------------------------------------------------------- literals

  function QuotedEnd(text: string, j: nat, quote: char): (end: nat)
    ensures end <= |text| && (j < |text| ==> j < end)
    decreases |text| - j
  {
    if j >= |text| then |text|
    else if text[j] == '\\' then QuotedEnd(text, j + 2, quote)
    else if text[j] == quote then j + 1
    else QuotedEnd(text, j + 1, quote)
  }

  method ReadQuoted(text: string, i: nat, quote: char) returns (end: nat)
    ensures end == QuotedEnd(text, i + 1, quote)
  {
    var j := i + 1;
    while j < |text|
      invariant QuotedEnd(text, j, quote) == QuotedEnd(text, i + 1, quote)
      decreases |text| - j
    {
      if text[j] == '\\' {
        j := j + 2;
      } else if text[j] == quote {
        return j + 1;
      } else {
        j := j + 1;
      }
    }
    return |text|;
  }

  /** The first newline at or after `i`, or the end. */
  function LineEnd(text: string, i: nat): (end: nat)
    requires i <= |text|
    ensures i <= end <= |text| && (i < |text| && text[i] != '\n' ==> i < end)
    decreases |text| - i
  {
    if i == |text| || text[i] == '\n' then i else LineEnd(text, i + 1)
  }

  function Closer(hashes: nat): (s: string)
    ensures |s| == hashes + 1
  {
    "\"" + Hashes(hashes)
  }

  function Hashes(n: nat): (s: string)
    ensures |s| == n && forall k :: 0 <= k < n ==> s[k] == '#'
  {
    if n == 0 then "" else "#" + Hashes(n - 1)
  }

  /** The index after a raw string, read from `j` after its `r` and `hashes` hash marks; -1 if it
      is not one. */
  function RawEnd(text: string, j: nat, hashes: nat): (r: int)
    requires j <= |text|
    ensures r == -1 || j < r <= |text|
    decreases |text| - j
  {
    if j == |text| then -1
    else if text[j] == '#' then RawEnd(text, j + 1, hashes + 1)
    else if text[j] != '"' then -1
    else
      var end := Find(text, Closer(hashes), j + 1);
      if end < 0 then |text| else end + hashes + 1
  }

  method RawStringEnd(text: string, i: nat) returns (r: int)
    requires i < |text|
    ensures r == RawEnd(text, i + 1, 0)
  {
    var j := i + 1;
    while j < |text| && text[j] == '#'
      invariant i + 1 <= j <= |text| && RawEnd(text, j, j - i - 1) == RawEnd(text, i + 1, 0)
    {
      j := j + 1;
    }
    if j >= |text| || text[j] != '"' {
      return -1;
    }
    var closer := Closer(j - i - 1);
    var end := Find(text, closer, j + 1);
    r := if end < 0 then |text| else end + |closer|;
  }

  predicate Identifier(lang: Lang, c: char) {
    c in lang.alnum || c == '_'
  }

  /** No word runs into position `i`, except a whole word that is the letter b or c. */
  predicate RawPrefix(lang: Lang, text: string, i: nat)
    requires i <= |text|
  {
    || i == 0 || !Identifier(lang, text[i - 1])
    || ((text[i - 1] == 'b' || text[i - 1] == 'c') && (i < 2 || !Identifier(lang, text[i - 2])))
  }

  function CharOrLifetime(text: string, i: nat): (end: nat)
    requires i < |text|
    ensures i < end <= |text|
  {
    if i + 1 < |text| && text[i + 1] == '\\' then QuotedEnd(text, i + 1, '\'')
    else if i + 2 < |text| && text[i + 2] == '\'' then i + 3
    else i + 1
  }

  // ---------------------------------------------------------------- tokens

  predicate IsComment(text: string, i: nat) {
    Pair(text, i, '/', '/') || Pair(text, i, '/', '*')
  }

  function TokenEnd(lang: Lang, text: string, i: nat): (end: nat)
    requires i < |text|
    ensures i < end <= |text|
  {
    if Pair(text, i, '/', '/') then LineEnd(text, i)
    else if Pair(text, i, '/', '*') then BlockEnd(text, i + 2, 1, lang.isRust)
    else if text[i] == '"' || (text[i] == '\'' && !lang.isRust) then QuotedEnd(text, i + 1, text[i])
    else if lang.isRust && text[i] == '\'' then CharOrLifetime(text, i)
    else if lang.isRust && text[i] == 'r' && RawPrefix(lang, text, i) && RawEnd(text, i + 1, 0) > 0
      then RawEnd(text, i + 1, 0)
    else i + 1
  }

  /** Where the token that starts at each position ends. */
  function TokenEnds(lang: Lang, text: string): seq<nat> {
    seq(|text|, i requires 0 <= i < |text| => TokenEnd(lang, text, i))
  }

  ghost predicate Proper(text: string, ends: seq<nat>) {
    |ends| == |text| && forall i :: 0 <= i < |ends| ==> i < ends[i] <= |text|
  }

  /** Comments, in order, as the stretches of text they are. */
  datatype Found = Nothing | Comment(start: nat, end: nat, rest: Found)

  /** The comments of `text` from `i` on. */
  function CommentsFrom(text: string, ends: seq<nat>, i: nat): (found: Found)
    requires Proper(text, ends) && i <= |text|
    ensures Within(found, |text|)
    decreases |text| - i
  {
    if i == |text| then Nothing
    else if IsComment(text, i) then Comment(i, ends[i], CommentsFrom(text, ends, ends[i]))
    else CommentsFrom(text, ends, ends[i])
  }

  // ---------------------------------------------------------------- lines

  /** The newlines among the first `n` characters. */
  function Newlines(text: string, n: nat): nat
    requires n <= |text|
  {
    if n == 0 then 0 else Newlines(text, n - 1) + if text[n - 1] == '\n' then 1 else 0
  }

  /** `text[from..end]` split at its newlines, one entry a line, the first numbered `line`; there is
      none in `text[from..i]`. */
  function Split(text: string, from: nat, i: nat, end: nat, line: nat): seq<Entry>
    requires from <= i <= end <= |text|
    decreases end - i
  {
    if i == end then [Entry(line, text[from..end])]
    else if text[i] == '\n' then [Entry(line, text[from..i])] + Split(text, i + 1, i + 1, end, line + 1)
    else Split(text, from, i + 1, end, line)
  }

  /** The entries of the comment from `start` to `end`. */
  function Entries(text: string, start: nat, end: nat): seq<Entry>
    requires start <= end <= |text|
  {
    Split(text, start, start, end, Newlines(text, start) + 1)
  }

  ghost predicate Within(found: Found, n: nat) {
    found.Nothing? || (found.start <= found.end <= n && Within(found.rest, n))
  }

  function EntriesOf(text: string, found: Found): seq<Entry>
    requires Within(found, |text|)
  {
    match found
    case Nothing => []
    case Comment(start, end, rest) => Entries(text, start, end) + EntriesOf(text, rest)
  }

  /** `split` cuts the comment at its newlines and each piece is appended with its line number. */
  method AddComment(comments: seq<Entry>, text: string, start: nat, end: nat) returns (out: seq<Entry>)
    requires start <= end <= |text|
    ensures out == comments + Entries(text, start, end)
  {
    var line: nat := Newlines(text, start) + 1;
    var from, i := start, start;
    out := comments;
    while i < end
      invariant start <= from <= i <= end
      invariant out + Split(text, from, i, end, line) == comments + Entries(text, start, end)
    {
      if text[i] == '\n' {
        out := out + [Entry(line, text[from..i])];
        from, line := i + 1, line + 1;
      }
      i := i + 1;
    }
    out := out + [Entry(line, text[from..end])];
  }

  // ---------------------------------------------------------------- the scan

  method NextToken(lang: Lang, text: string, i: nat, comments: seq<Entry>)
      returns (end: nat, out: seq<Entry>)
    requires i < |text|
    ensures end == TokenEnd(lang, text, i)
    ensures out == comments + if IsComment(text, i) then Entries(text, i, end) else []
  {
    out := comments;
    if Pair(text, i, '/', '/') {
      end := LineEnd(text, i);
      out := AddComment(comments, text, i, end);
    } else if Pair(text, i, '/', '*') {
      end := SkipBlockComment(text, i, lang.isRust);
      out := AddComment(comments, text, i, end);
    } else if text[i] == '"' || (text[i] == '\'' && !lang.isRust) {
      end := ReadQuoted(text, i, text[i]);
    } else if lang.isRust && text[i] == '\'' {
      end := CharOrLifetime(text, i);
    } else if lang.isRust && text[i] == 'r' && RawPrefix(lang, text, i) {
      var raw := RawStringEnd(text, i);
      end := if raw > 0 then raw else i + 1;
    } else {
      end := i + 1;
    }
  }

  lemma {:induction false} ScanStep(text: string, ends: seq<nat>, i: nat, done: seq<Entry>)
    requires Proper(text, ends) && i < |text|
    ensures done + (if IsComment(text, i) then Entries(text, i, ends[i]) else [])
                 + EntriesOf(text, CommentsFrom(text, ends, ends[i]))
            == done + EntriesOf(text, CommentsFrom(text, ends, i))
  {
  }

  method SourceComments(lang: Lang, text: string) returns (comments: seq<Entry>)
    ensures comments == EntriesOf(text, CommentsFrom(text, TokenEnds(lang, text), 0))
  {
    comments := [];
    var i := 0;
    ghost var ends := TokenEnds(lang, text);
    while i < |text|
      invariant i <= |text|
      invariant comments + EntriesOf(text, CommentsFrom(text, ends, i)) == EntriesOf(text, CommentsFrom(text, ends, 0))
    {
      ScanStep(text, ends, i, comments);
      i, comments := NextToken(lang, text, i, comments);
    }
  }
}
