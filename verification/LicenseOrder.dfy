/**
  The order of the license texts in the generated file (`gen-third-party.py`): most crates first,
  then file name, then digest, whatever order the dictionary holds them in.
 */
module LicenseOrder {
  import opened Licenses

  /** A dictionary item. */
  datatype Item = Item(digest: string, entry: Entry)

  // ---------------------------------------------------------------- strings

  /** Strings as Python compares them: by code points, a prefix before what it begins. */
  predicate Leq(s: string, t: string) {
    s == "" || (t != "" && (s[0] < t[0] || (s[0] == t[0] && Leq(s[1..], t[1..]))))
  }

  lemma {:induction false} LeqTotal(s: string, t: string)
    ensures Leq(s, t) || Leq(t, s)
  {
    if s != "" && t != "" && s[0] == t[0] {
      LeqTotal(s[1..], t[1..]);
    }
  }

  lemma {:induction false} LeqAntisymmetric(s: string, t: string)
    requires Leq(s, t) && Leq(t, s)
    ensures s == t
  {
    if s != "" {
      LeqAntisymmetric(s[1..], t[1..]);
      assert s == [s[0]] + s[1..] && t == [t[0]] + t[1..];
    }
  }

  lemma {:induction false} LeqTransitive(s: string, t: string, u: string)
    requires Leq(s, t) && Leq(t, u)
    ensures Leq(s, u)
  {
    if s != "" && s[0] == t[0] && t[0] == u[0] {
      LeqTransitive(s[1..], t[1..], u[1..]);
    }
  }

  // ---------------------------------------------------------------- the sort key

  /** `(-len(crates), file, digest)` of `a` is not after that of `b`. */
  predicate NotAfter(a: Item, b: Item) {
    || |a.entry.crates| > |b.entry.crates|
    || (|a.entry.crates| == |b.entry.crates| &&
        if a.entry.file == b.entry.file then Leq(a.digest, b.digest) else Leq(a.entry.file, b.entry.file))
  }

  lemma {:induction false} NotAfterTotal(a: Item, b: Item)
    ensures NotAfter(a, b) || NotAfter(b, a)
  {
    LeqTotal(a.entry.file, b.entry.file);
    LeqTotal(a.digest, b.digest);
  }

  lemma {:induction false} NotAfterBothWays(a: Item, b: Item)
    requires NotAfter(a, b) && NotAfter(b, a)
    ensures a.digest == b.digest
  {
    if a.entry.file == b.entry.file {
      LeqAntisymmetric(a.digest, b.digest);
    } else {
      LeqAntisymmetric(a.entry.file, b.entry.file);
    }
  }

  lemma {:induction false} NotAfterTransitive(a: Item, b: Item, c: Item)
    requires NotAfter(a, b) && NotAfter(b, c)
    ensures NotAfter(a, c)
  {
    if |a.entry.crates| == |c.entry.crates| {
      if a.entry.file == b.entry.file == c.entry.file {
        LeqTransitive(a.digest, b.digest, c.digest);
      } else if a.entry.file == c.entry.file {
        LeqAntisymmetric(a.entry.file, b.entry.file);
      } else if a.entry.file != b.entry.file && b.entry.file != c.entry.file {
        LeqTransitive(a.entry.file, b.entry.file, c.entry.file);
      }
    }
  }

  // ---------------------------------------------------------------- sorting

  datatype Items = Nil | Cons(first: Item, rest: Items)

  function Elements(items: Items): multiset<Item> {
    match items
    case Nil => multiset{}
    case Cons(first, rest) => multiset{first} + Elements(rest)
  }

  /** No item comes after one that follows it. */
  ghost predicate Sorted(items: Items) {
    items.Nil? || (Sorted(items.rest) && (items.rest.Cons? ==> NotAfter(items.first, items.rest.first)))
  }

  function Insert(x: Item, items: Items): Items {
    if items.Nil? || NotAfter(x, items.first) then Cons(x, items) else Cons(items.first, Insert(x, items.rest))
  }

  function Ordered(items: Items): Items {
    match items
    case Nil => Nil
    case Cons(first, rest) => Insert(first, Ordered(rest))
  }

  lemma {:induction false} InsertSorts(x: Item, items: Items)
    requires Sorted(items)
    ensures Sorted(Insert(x, items)) && Elements(Insert(x, items)) == multiset{x} + Elements(items)
  {
    if items.Cons? && !NotAfter(x, items.first) {
      NotAfterTotal(x, items.first);
      InsertSorts(x, items.rest);
    }
  }

  lemma {:induction false} OrderedSorts(items: Items)
    ensures Sorted(Ordered(items)) && Elements(Ordered(items)) == Elements(items)
  {
    if items.Cons? {
      OrderedSorts(items.rest);
      InsertSorts(items.first, Ordered(items.rest));
    }
  }

  lemma {:induction false} FirstIsLeast(items: Items, x: Item)
    requires Sorted(items) && x in Elements(items)
    ensures items.Cons? && NotAfter(items.first, x)
    decreases items
  {
    if x == items.first {
      NotAfterTotal(x, x);
    } else {
      FirstIsLeast(items.rest, x);
      NotAfterTransitive(items.first, items.rest.first, x);
    }
  }

  /** A dictionary has one item for a key. */
  ghost predicate Keyed(items: multiset<Item>) {
    forall x, y :: x in items && y in items && x.digest == y.digest ==> x == y
  }

  lemma {:induction false} RestOf(items: Items)
    requires items.Cons?
    ensures items.first in Elements(items) && Elements(items.rest) == Elements(items) - multiset{items.first}
  {
  }

  lemma {:induction false} NilExactly(items: Items)
    ensures items.Nil? <==> Elements(items) == multiset{}
  {
    if items.Cons? {
      RestOf(items);
    }
  }

  lemma {:induction false} SortedIsUnique(a: Items, b: Items)
    requires Sorted(a) && Sorted(b) && Elements(a) == Elements(b) && Keyed(Elements(a))
    ensures a == b
    decreases a
  {
    NilExactly(a);
    NilExactly(b);
    if a.Cons? {
      RestOf(a);
      RestOf(b);
      assert a.first == b.first by {
        FirstIsLeast(b, a.first);
        FirstIsLeast(a, b.first);
        NotAfterBothWays(a.first, b.first);
      }
      SortedIsUnique(a.rest, b.rest);
    }
  }

  /** `items` lists the dictionary, each key once. */
  ghost predicate Lists(items: Items, texts: map<string, Entry>) {
    forall x: Item :: Elements(items)[x] == if x.digest in texts && texts[x.digest] == x.entry then 1 else 0
  }

  /** Two listings of one dictionary, in whatever insertion order, come out the same; and what comes
      out is the dictionary, sorted. */
  lemma {:induction false} OrderIgnoresInsertion(texts: map<string, Entry>, a: Items, b: Items)
    requires Lists(a, texts) && Lists(b, texts)
    ensures Ordered(a) == Ordered(b)
    ensures Lists(Ordered(a), texts) && Sorted(Ordered(a))
  {
    OrderedSorts(a);
    OrderedSorts(b);
    assert Elements(a) == Elements(b);
    SortedIsUnique(Ordered(a), Ordered(b));
  }

  // ---------------------------------------------------------------- the order, spelled out

  /** Where the two first differ, `s` has ended or has the smaller character. */
  ghost predicate Precedes(s: string, t: string) {
    exists k: nat :: k <= |s| && k < |t| && s[..k] == t[..k] && (k == |s| || s[k] < t[k])
  }

  lemma {:induction false} PrecedesCons(s: string, t: string)
    requires s != "" && t != "" && s[0] == t[0]
    ensures Precedes(s, t) <==> Precedes(s[1..], t[1..])
  {
    if k: nat :| k <= |s[1..]| && k < |t[1..]| && s[1..][..k] == t[1..][..k] && (k == |s[1..]| || s[1..][k] < t[1..][k]) {
      assert s[..k + 1] == [s[0]] + s[1..][..k] && t[..k + 1] == [t[0]] + t[1..][..k];
    }
    if k: nat :| k <= |s| && k < |t| && s[..k] == t[..k] && (k == |s| || s[k] < t[k]) {
      assert k > 0;
      assert s[1..][..k - 1] == s[..k][1..] && t[1..][..k - 1] == t[..k][1..];
    }
  }

  lemma {:induction false} PrecedesFirst(s: string, t: string)
    requires t != "" && (s == "" || s[0] != t[0])
    ensures Precedes(s, t) <==> s == "" || s[0] < t[0]
  {
    assert s[..0] == t[..0];
    if k: nat :| 0 < k <= |s| && k < |t| && s[..k] == t[..k] {
      SameStart(s, t, k);
    }
  }

  lemma {:induction false} SameStart(s: string, t: string, k: nat)
    requires 0 < k <= |s| && k <= |t| && s[..k] == t[..k]
    ensures s[0] == t[0]
  {
    assert s[..k][0] == t[..k][0];
  }

  lemma {:induction false} LeqExactly(s: string, t: string)
    ensures Leq(s, t) <==> s == t || Precedes(s, t)
    decreases |s|
  {
    if t != "" {
      if s != "" && s[0] == t[0] {
        LeqExactly(s[1..], t[1..]);
        PrecedesCons(s, t);
        assert s == [s[0]] + s[1..] && t == [t[0]] + t[1..];
      } else {
        PrecedesFirst(s, t);
      }
    }
  }

  /** More crates first; then the file name; then the digest. */
  ghost predicate ListedFirst(a: Item, b: Item) {
    || |a.entry.crates| > |b.entry.crates|
    || (|a.entry.crates| == |b.entry.crates| && Precedes(a.entry.file, b.entry.file))
    || (|a.entry.crates| == |b.entry.crates| && a.entry.file == b.entry.file
        && (a.digest == b.digest || Precedes(a.digest, b.digest)))
  }

  lemma {:induction false} NotAfterExactly(a: Item, b: Item)
    ensures NotAfter(a, b) <==> ListedFirst(a, b)
  {
    LeqExactly(a.entry.file, b.entry.file);
    LeqExactly(a.digest, b.digest);
    if a.entry.file == b.entry.file {
      NotBeforeItself(a.entry.file);
    }
  }

  lemma {:induction false} NotBeforeItself(s: string)
    ensures !Precedes(s, s)
  {
  }

  function Listing(items: Items): seq<Item> {
    match items
    case Nil => []
    case Cons(first, rest) => [first] + Listing(rest)
  }

  lemma {:induction false} ListingHas(items: Items, x: Item)
    ensures x in Listing(items) <==> x in Elements(items)
  {
    if items.Cons? {
      ListingHas(items.rest, x);
    }
  }

  lemma {:induction false} SortedListing(items: Items, i: nat, j: nat)
    requires Sorted(items) && i < j < |Listing(items)|
    ensures ListedFirst(Listing(items)[i], Listing(items)[j])
  {
    if i > 0 {
      SortedListing(items.rest, i - 1, j - 1);
    } else {
      var x := Listing(items)[j];
      assert x == Listing(items.rest)[j - 1];
      ListingHas(items.rest, x);
      FirstIsLeast(items, x);
      NotAfterExactly(items.first, x);
    }
  }

  /** In the generated file crate counts never increase; equal counts go by file name, equal names by
      digest. */
  lemma {:induction false} FileIsInOrder(items: Items, i: nat, j: nat)
    requires i < j < |Listing(Ordered(items))|
    ensures ListedFirst(Listing(Ordered(items))[i], Listing(Ordered(items))[j])
  {
    OrderedSorts(items);
    SortedListing(Ordered(items), i, j);
  }
}
