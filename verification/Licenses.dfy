/**
  The license texts of the shipped crates (`gen-third-party.py`): texts are gathered once each, by
  digest, with the crates that carry them, and listed in an order that does not depend on how they
  were gathered.
 */
module Licenses {

  datatype File = File(name: string, text: string)

  /** A shipped crate, `crate` its name and version, with the license files found for it. */
  datatype Package = Package(crate: string, files: seq<File>)

  datatype Entry = Entry(text: string, file: string, crates: seq<string>)

  /** One license file of one crate. */
  datatype Use = Use(crate: string, file: File)

  type Digest = string -> string

  // ---------------------------------------------------------------- gathering

  function Add(digest: Digest, texts: map<string, Entry>, use: Use): map<string, Entry> {
    var d := digest(use.file.text);
    var was := if d in texts then texts[d] else Entry(use.file.text, use.file.name, []);
    texts[d := was.(crates := was.crates + [use.crate])]
  }

  function Collected(digest: Digest, uses: seq<Use>): map<string, Entry> {
    if uses == [] then map[]
    else Add(digest, Collected(digest, uses[..|uses| - 1]), uses[|uses| - 1])
  }

  /** The first `n` license files of a crate. */
  function UsesUpTo(p: Package, n: nat): (r: seq<Use>)
    requires n <= |p.files|
    ensures |r| == n && forall i :: 0 <= i < n ==> r[i] == Use(p.crate, p.files[i])
  {
    if n == 0 then [] else UsesUpTo(p, n - 1) + [Use(p.crate, p.files[n - 1])]
  }

  function UsesOf(p: Package): (r: seq<Use>)
    ensures |r| == |p.files|
  {
    UsesUpTo(p, |p.files|)
  }

  /** Every license file of every crate, in order. */
  function Uses(packages: seq<Package>): seq<Use> {
    if packages == [] then [] else Uses(packages[..|packages| - 1]) + UsesOf(packages[|packages| - 1])
  }

  function Missing(packages: seq<Package>): seq<Package> {
    if packages == [] then []
    else
      var last := packages[|packages| - 1];
      Missing(packages[..|packages| - 1]) + if last.files == [] then [last] else []
  }

  lemma {:induction false} CollectedSnoc(digest: Digest, uses: seq<Use>, use: Use)
    ensures Collected(digest, uses + [use]) == Add(digest, Collected(digest, uses), use)
  {
    assert (uses + [use])[..|uses|] == uses;
  }

  method AddFile(digest: Digest, texts: map<string, Entry>, crate: string, file: File) returns (out: map<string, Entry>)
    ensures out == Add(digest, texts, Use(crate, file))
  {
    var d := digest(file.text);
    out := texts;
    if d !in out {
      out := out[d := Entry(file.text, file.name, [])];
    }
    out := out[d := out[d].(crates := out[d].crates + [crate])];
  }

  method AddFiles(digest: Digest, texts: map<string, Entry>, p: Package, ghost uses: seq<Use>)
      returns (out: map<string, Entry>)
    requires texts == Collected(digest, uses)
    ensures out == Collected(digest, uses + UsesOf(p))
  {
    out := texts;
    assert uses + UsesUpTo(p, 0) == uses;
    for i := 0 to |p.files|
      invariant out == Collected(digest, uses + UsesUpTo(p, i))
    {
      out := AddFile(digest, out, p.crate, p.files[i]);
      CollectedSnoc(digest, uses + UsesUpTo(p, i), Use(p.crate, p.files[i]));
      assert uses + UsesUpTo(p, i + 1) == (uses + UsesUpTo(p, i)) + [Use(p.crate, p.files[i])];
    }
  }

  method CollectTexts(digest: Digest, packages: seq<Package>) returns (texts: map<string, Entry>, missing: seq<Package>)
    ensures texts == Collected(digest, Uses(packages))
    ensures missing == Missing(packages)
    ensures Total(texts) == FileCount(packages)
  {
    CountsAddUp(digest, packages);
    texts, missing := map[], [];
    for i := 0 to |packages|
      invariant texts == Collected(digest, Uses(packages[..i]))
      invariant missing == Missing(packages[..i])
    {
      assert packages[..i + 1][..i] == packages[..i];
      if packages[i].files == [] {
        missing := missing + [packages[i]];
        assert Uses(packages[..i]) + UsesOf(packages[i]) == Uses(packages[..i]);
      } else {
        texts := AddFiles(digest, texts, packages[i], Uses(packages[..i]));
      }
    }
    assert packages[..|packages|] == packages;
  }

  // ---------------------------------------------------------------- what an entry holds

  ghost predicate Injective(digest: Digest) {
    forall s, t :: digest(s) == digest(t) ==> s == t
  }

  /** The crates that carry `text`, once for each file that is it, in order. */
  function Carriers(uses: seq<Use>, text: string): seq<string> {
    if uses == [] then []
    else
      var last := uses[|uses| - 1];
      Carriers(uses[..|uses| - 1], text) + if last.file.text == text then [last.crate] else []
  }

  /** The name of the first file that is `text`. */
  function FirstName(uses: seq<Use>, text: string): string {
    if uses == [] then ""
    else if uses[0].file.text == text then uses[0].file.name
    else FirstName(uses[1..], text)
  }

  lemma {:induction false} FirstNameSnoc(uses: seq<Use>, last: Use, text: string)
    ensures FirstName(uses + [last], text)
            == if Carriers(uses, text) != [] then FirstName(uses, text)
               else if last.file.text == text then last.file.name else ""
    decreases |uses|
  {
    if uses == [] {
      assert (uses + [last])[0] == last && FirstName(uses + [last], text) == if last.file.text == text then last.file.name else "";
    } else {
      assert (uses + [last])[1..] == uses[1..] + [last];
      FirstNameSnoc(uses[1..], last, text);
      CarriersCons(uses, text);
    }
  }

  lemma {:induction false} CarriersCons(uses: seq<Use>, text: string)
    requires uses != []
    ensures Carriers(uses, text) == (if uses[0].file.text == text then [uses[0].crate] else []) + Carriers(uses[1..], text)
    decreases |uses|
  {
    var n := |uses| - 1;
    if n > 0 {
      CarriersCons(uses[..n], text);
      assert uses[..n][1..] == uses[1..][..n - 1];
    }
  }

  /** Each text that occurs has one entry, under its digest: the text, the name of the first file
      that is it, and every crate that carries it. There are no other entries. */
  lemma {:induction false} EntriesExactly(digest: Digest, uses: seq<Use>, text: string)
    requires Injective(digest)
    ensures var texts := Collected(digest, uses);
            && (digest(text) in texts <==> Carriers(uses, text) != [])
            && (digest(text) in texts ==> texts[digest(text)] == Entry(text, FirstName(uses, text), Carriers(uses, text)))
    decreases |uses|
  {
    if uses != [] {
      var last, init := uses[|uses| - 1], uses[..|uses| - 1];
      assert uses == init + [last];
      EntriesExactly(digest, init, text);
      FirstNameSnoc(init, last, text);
    }
  }

  lemma {:induction false} KeysAreDigests(digest: Digest, uses: seq<Use>, d: string)
    requires d in Collected(digest, uses)
    ensures exists i :: 0 <= i < |uses| && digest(uses[i].file.text) == d
    decreases |uses|
  {
    var last, init := uses[|uses| - 1], uses[..|uses| - 1];
    if d == digest(last.file.text) {
      assert uses[|uses| - 1] == last;
    } else {
      KeysAreDigests(digest, init, d);
      var i :| 0 <= i < |init| && digest(init[i].file.text) == d;
      assert uses[i] == init[i];
    }
  }

  // ---------------------------------------------------------------- conservation

  /** The crates listed under all the entries. */
  ghost function Total(texts: map<string, Entry>): nat {
    if texts == map[] then 0
    else
      var d :| d in texts;
      |texts[d].crates| + Total(texts - {d})
  }

  lemma {:induction false} TotalWithout(texts: map<string, Entry>, d: string)
    requires d in texts
    ensures Total(texts) == |texts[d].crates| + Total(texts - {d})
    decreases |texts|
  {
    var e :| e in texts && Total(texts) == |texts[e].crates| + Total(texts - {e});
    if e != d {
      TotalWithout(texts - {e}, d);
      TotalWithout(texts - {d}, e);
      assert texts - {e} - {d} == texts - {d} - {e};
    }
  }

  lemma {:induction false} AddCounts(digest: Digest, texts: map<string, Entry>, use: Use)
    ensures Total(Add(digest, texts, use)) == Total(texts) + 1
  {
    var d, out := digest(use.file.text), Add(digest, texts, use);
    TotalWithout(out, d);
    assert out - {d} == texts - {d};
    if d in texts {
      TotalWithout(texts, d);
    } else {
      assert texts - {d} == texts;
    }
  }

  /** The entries' crate counts add up to the number of license files. */
  lemma {:induction false} NothingLostOrDoubled(digest: Digest, uses: seq<Use>)
    ensures Total(Collected(digest, uses)) == |uses|
    decreases |uses|
  {
    if uses != [] {
      var last, init := uses[|uses| - 1], uses[..|uses| - 1];
      NothingLostOrDoubled(digest, init);
      AddCounts(digest, Collected(digest, init), last);
    }
  }

  lemma {:induction false} UsesHave(packages: seq<Package>, i: nat, k: nat)
    requires i < |packages| && k < |packages[i].files|
    ensures Use(packages[i].crate, packages[i].files[k]) in Uses(packages)
    decreases |packages|
  {
    var n := |packages| - 1;
    if i == n {
      assert UsesOf(packages[n])[k] == Use(packages[i].crate, packages[i].files[k]);
    } else {
      UsesHave(packages[..n], i, k);
    }
  }

  lemma {:induction false} MissingExactly(packages: seq<Package>, p: Package)
    ensures p in Missing(packages) <==> p in packages && p.files == []
    decreases |packages|
  {
    if packages != [] {
      var n := |packages| - 1;
      MissingExactly(packages[..n], p);
      assert packages == packages[..n] + [packages[n]];
    }
  }

  lemma {:induction false} CarriersHave(uses: seq<Use>, i: nat)
    requires i < |uses|
    ensures uses[i].crate in Carriers(uses, uses[i].file.text)
    decreases |uses|
  {
    var n := |uses| - 1;
    if i < n {
      CarriersHave(uses[..n], i);
    } else {
      var c := Carriers(uses, uses[i].file.text);
      assert c[|c| - 1] == uses[i].crate;
    }
  }

  /** Each crate is either reported as having no license file, or listed under the text of each of
      its files. */
  lemma {:induction false} EveryCrateAccounted(digest: Digest, packages: seq<Package>, i: nat)
    requires Injective(digest) && i < |packages|
    ensures packages[i] in Missing(packages) <==> packages[i].files == []
    ensures forall k :: 0 <= k < |packages[i].files| ==>
              var d := digest(packages[i].files[k].text);
              var texts := Collected(digest, Uses(packages));
              && d in texts && texts[d].text == packages[i].files[k].text
              && packages[i].crate in texts[d].crates
  {
    MissingExactly(packages, packages[i]);
    forall k | 0 <= k < |packages[i].files|
      ensures var d := digest(packages[i].files[k].text);
              var texts := Collected(digest, Uses(packages));
              && d in texts && texts[d].text == packages[i].files[k].text
              && packages[i].crate in texts[d].crates
    {
      UsesHave(packages, i, k);
      var uses := Uses(packages);
      var j :| 0 <= j < |uses| && uses[j] == Use(packages[i].crate, packages[i].files[k]);
      CarriersHave(uses, j);
      EntriesExactly(digest, uses, packages[i].files[k].text);
    }
  }

  /** The license files of all the crates. */
  function FileCount(packages: seq<Package>): nat {
    if packages == [] then 0 else FileCount(packages[..|packages| - 1]) + |packages[|packages| - 1].files|
  }

  lemma {:induction false} UsesCount(packages: seq<Package>)
    ensures |Uses(packages)| == FileCount(packages)
    decreases |packages|
  {
    if packages != [] {
      UsesCount(packages[..|packages| - 1]);
    }
  }

  /** The entries' crate counts add up to the number of license files of the crates. */
  lemma {:induction false} CountsAddUp(digest: Digest, packages: seq<Package>)
    ensures Total(Collected(digest, Uses(packages))) == FileCount(packages)
  {
    NothingLostOrDoubled(digest, Uses(packages));
    UsesCount(packages);
  }

  // ---------------------------------------------------------------- an entry, place by place

  /** The `file`-th license file of the `package`-th crate. */
  datatype Place = Place(package: nat, file: nat)

  predicate Valid(packages: seq<Package>, at: Place) {
    at.package < |packages| && at.file < |packages[at.package].files|
  }

  function FileAt(packages: seq<Package>, at: Place): File
    requires Valid(packages, at)
  {
    packages[at.package].files[at.file]
  }

  ghost predicate AllValid(packages: seq<Package>, at: seq<Place>) {
    forall n {:trigger at[n]} :: 0 <= n < |at| ==> Valid(packages, at[n])
  }

  function CratesAt(packages: seq<Package>, at: seq<Place>): (r: seq<string>)
    requires AllValid(packages, at)
    ensures |r| == |at| && forall n :: 0 <= n < |at| ==> r[n] == packages[at[n].package].crate
  {
    seq(|at|, n requires 0 <= n < |at| => packages[at[n].package].crate)
  }

  predicate Earlier(a: Place, b: Place) {
    a.package < b.package || (a.package == b.package && a.file < b.file)
  }

  /** `at` lists the places before `end` where the text is, each once, in order. */
  ghost predicate ListsPlaces(packages: seq<Package>, text: string, end: Place, at: seq<Place>) {
    && (forall a, b :: 0 <= a < b < |at| ==> Earlier(at[a], at[b]))
    && forall p :: p in at <==> Valid(packages, p) && Earlier(p, end) && FileAt(packages, p).text == text
  }

  /** The uses and the places tell the same story: the crates, and the name of the first file. */
  ghost predicate Matches(packages: seq<Package>, uses: seq<Use>, text: string, at: seq<Place>) {
    && AllValid(packages, at)
    && Carriers(uses, text) == CratesAt(packages, at)
    && (at != [] ==> FirstName(uses, text) == FileAt(packages, at[0]).name)
  }

  predicate InFiles(packages: seq<Package>, end: Place) {
    end.package <= |packages| && (end.file > 0 ==> end.package < |packages| && end.file <= |packages[end.package].files|)
  }

  /** The uses before `end`. */
  function UsesBefore(packages: seq<Package>, end: Place): seq<Use>
    requires InFiles(packages, end)
    decreases end.package, end.file
  {
    if end.file > 0 then
      var p := Place(end.package, end.file - 1);
      UsesBefore(packages, p) + [Use(packages[p.package].crate, FileAt(packages, p))]
    else if end.package > 0 then
      UsesBefore(packages, Place(end.package - 1, |packages[end.package - 1].files|))
    else []
  }

  lemma {:induction false} UsesOfOne(packages: seq<Package>, i: nat, n: nat)
    requires i < |packages| && n <= |packages[i].files|
    ensures UsesBefore(packages, Place(i, n)) == UsesBefore(packages, Place(i, 0)) + UsesUpTo(packages[i], n)
    decreases n
  {
    if n > 0 {
      UsesOfOne(packages, i, n - 1);
    }
  }

  lemma {:induction false} UsesAreAll(packages: seq<Package>, i: nat)
    requires i <= |packages|
    ensures UsesBefore(packages, Place(i, 0)) == Uses(packages[..i])
    decreases i
  {
    if i > 0 {
      UsesAreAll(packages, i - 1);
      UsesOfOne(packages, i - 1, |packages[i - 1].files|);
      assert packages[..i][..i - 1] == packages[..i - 1];
    }
  }

  lemma {:induction false} MatchesSnoc(packages: seq<Package>, uses: seq<Use>, text: string, at: seq<Place>, p: Place)
    requires Matches(packages, uses, text, at) && Valid(packages, p)
    ensures var more := uses + [Use(packages[p.package].crate, FileAt(packages, p))];
            Matches(packages, more, text, if FileAt(packages, p).text == text then at + [p] else at)
  {
    var last := Use(packages[p.package].crate, FileAt(packages, p));
    FirstNameSnoc(uses, last, text);
    assert (uses + [last])[..|uses|] == uses;
    assert |Carriers(uses, text)| == |at|;
  }

  lemma {:induction false} ListsSnoc(packages: seq<Package>, text: string, at: seq<Place>, p: Place)
    requires ListsPlaces(packages, text, p, at) && Valid(packages, p)
    ensures ListsPlaces(packages, text, Place(p.package, p.file + 1),
                        if FileAt(packages, p).text == text then at + [p] else at)
  {
    var more := if FileAt(packages, p).text == text then at + [p] else at;
    forall a, b | 0 <= a < b < |more|
      ensures Earlier(more[a], more[b])
    {
      if b == |at| {
        assert at[a] in at;
      }
    }
    forall q
      ensures q in more <==> Valid(packages, q) && Earlier(q, Place(p.package, p.file + 1)) && FileAt(packages, q).text == text
    {
      assert q in more <==> q in at || (q == p && FileAt(packages, p).text == text);
    }
  }

  /** The places before `end` where the text is. */
  function PlacesBefore(packages: seq<Package>, text: string, end: Place): seq<Place>
    requires InFiles(packages, end)
    decreases end.package, end.file
  {
    if end.file > 0 then
      var p := Place(end.package, end.file - 1);
      var at := PlacesBefore(packages, text, p);
      if FileAt(packages, p).text == text then at + [p] else at
    else if end.package > 0 then
      PlacesBefore(packages, text, Place(end.package - 1, |packages[end.package - 1].files|))
    else []
  }

  lemma {:induction false} PlacesAreListed(packages: seq<Package>, text: string, end: Place)
    requires InFiles(packages, end)
    ensures ListsPlaces(packages, text, end, PlacesBefore(packages, text, end))
    decreases end.package, end.file
  {
    if end.file > 0 {
      var p := Place(end.package, end.file - 1);
      PlacesAreListed(packages, text, p);
      ListsSnoc(packages, text, PlacesBefore(packages, text, p), p);
    } else if end.package > 0 {
      var p := Place(end.package - 1, |packages[end.package - 1].files|);
      PlacesAreListed(packages, text, p);
      assert forall q :: Valid(packages, q) ==> (Earlier(q, end) <==> Earlier(q, p));
    }
  }

  lemma {:induction false} PlacesMatch(packages: seq<Package>, text: string, end: Place)
    requires InFiles(packages, end)
    ensures Matches(packages, UsesBefore(packages, end), text, PlacesBefore(packages, text, end))
    decreases end.package, end.file
  {
    if end.file > 0 {
      var p := Place(end.package, end.file - 1);
      PlacesMatch(packages, text, p);
      MatchesSnoc(packages, UsesBefore(packages, p), text, PlacesBefore(packages, text, p), p);
    } else if end.package > 0 {
      PlacesMatch(packages, text, Place(end.package - 1, |packages[end.package - 1].files|));
    }
  }

  /** The entry of a text, said of the crates alone: the places where the text is, in order, give the
      crates listed and, the first of them, the file name; without any there is no entry. */
  lemma {:induction false} EntryOfText(digest: Digest, packages: seq<Package>, text: string) returns (at: seq<Place>)
    requires Injective(digest)
    ensures forall a, b :: 0 <= a < b < |at| ==> Earlier(at[a], at[b])
    ensures forall p :: p in at <==> Valid(packages, p) && FileAt(packages, p).text == text
    ensures AllValid(packages, at)
    ensures var texts, d := Collected(digest, Uses(packages)), digest(text);
            && (d in texts <==> at != [])
            && (at != [] ==> texts[d] == Entry(text, FileAt(packages, at[0]).name, CratesAt(packages, at)))
  {
    var end := Place(|packages|, 0);
    at := PlacesBefore(packages, text, end);
    PlacesAreListed(packages, text, end);
    PlacesMatch(packages, text, end);
    UsesAreAll(packages, |packages|);
    assert packages[..|packages|] == packages;
    assert forall q :: Valid(packages, q) ==> Earlier(q, end);
    EntriesExactly(digest, Uses(packages), text);
    assert at != [] <==> Carriers(Uses(packages), text) != [] by {
      assert |Carriers(Uses(packages), text)| == |at|;
    }
  }

  /** Who has no license file: exactly those crates, in order, each once. */
  lemma {:induction false} MissingAre(packages: seq<Package>) returns (at: seq<nat>)
    ensures forall a, b :: 0 <= a < b < |at| ==> at[a] < at[b]
    ensures forall i: nat :: i in at <==> i < |packages| && packages[i].files == []
    ensures forall n :: 0 <= n < |at| ==> at[n] < |packages|
    ensures Missing(packages) == seq(|at|, n requires 0 <= n < |at| => packages[at[n]])
    decreases |packages|
  {
    if packages == [] {
      at := [];
    } else {
      var n := |packages| - 1;
      at := MissingAre(packages[..n]);
      assert forall a :: 0 <= a < |at| ==> at[a] in at;
      if packages[n].files == [] {
        at := at + [n];
      }
    }
  }
}
