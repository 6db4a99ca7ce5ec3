/** Strings that stand at a place of a text. */
module Text {

  /** `pat` stands at `i`. */
  predicate Here(text: string, i: nat, pat: string) {
    i + |pat| <= |text| && Agree(text, i, pat, |pat|)
  }

  /** The first `n` characters of `pat` are those of `text` from `i`. */
  predicate Agree(text: string, i: nat, pat: string, n: nat)
    requires n <= |pat| && i + n <= |text|
  {
    n == 0 || (text[i + n - 1] == pat[n - 1] && Agree(text, i, pat, n - 1))
  }

  /** `str.find`: the first place at or after `from`, -1 for none. */
  function Find(text: string, pat: string, from: nat): (r: int)
    ensures r == -1 || (from <= r && r + |pat| <= |text|)
    decreases |text| - from
  {
    if from + |pat| > |text| then -1
    else if Here(text, from, pat) then from
    else Find(text, pat, from + 1)
  }

  lemma {:induction false} AgreeAt(text: string, i: nat, pat: string, n: nat, k: nat)
    requires k < n <= |pat| && i + n <= |text| && Agree(text, i, pat, n)
    ensures text[i + k] == pat[k]
    decreases n
  {
    if k < n - 1 {
      AgreeAt(text, i, pat, n - 1, k);
    }
  }

  lemma {:induction false} AgreeIf(text: string, i: nat, pat: string, n: nat)
    requires n <= |pat| && i + n <= |text| && forall k :: 0 <= k < n ==> text[i + k] == pat[k]
    ensures Agree(text, i, pat, n)
  {
    if n > 0 {
      AgreeIf(text, i, pat, n - 1);
      assert pat[n - 1] == text[i + (n - 1)];
    }
  }

  lemma {:induction false} HereAt(text: string, i: nat, pat: string, k: nat)
    requires Here(text, i, pat) && k < |pat|
    ensures i + k < |text| && text[i + k] == pat[k]
  {
    AgreeAt(text, i, pat, |pat|, k);
  }

  lemma {:induction false} HereIf(text: string, i: nat, pat: string)
    requires i + |pat| <= |text| && forall k :: 0 <= k < |pat| ==> text[i + k] == pat[k]
    ensures Here(text, i, pat)
  {
    AgreeIf(text, i, pat, |pat|);
  }

  lemma {:induction false} HereSplit(text: string, i: nat, a: string, b: string)
    requires Here(text, i, a + b)
    ensures Here(text, i, a) && Here(text, i + |a|, b)
  {
    forall k | 0 <= k < |a|
      ensures text[i + k] == a[k]
    {
      HereAt(text, i, a + b, k);
    }
    forall k | 0 <= k < |b|
      ensures text[i + |a| + k] == b[k]
    {
      HereAt(text, i, a + b, |a| + k);
    }
    HereIf(text, i, a);
    HereIf(text, i + |a|, b);
  }

  lemma {:induction false} HereJoin(text: string, i: nat, a: string, b: string)
    requires Here(text, i, a) && Here(text, i + |a|, b)
    ensures Here(text, i, a + b)
  {
    forall k | 0 <= k < |a + b|
      ensures text[i + k] == (a + b)[k]
    {
      if k < |a| {
        HereAt(text, i, a, k);
      } else {
        HereAt(text, i + |a|, b, k - |a|);
      }
    }
    HereIf(text, i, a + b);
  }

  lemma {:induction false} HereWithin(text: string, i: nat, s: string, start: string)
    requires Here(text, i, s) && Here(s, 0, start)
    ensures Here(text, i, start)
  {
    forall k | 0 <= k < |start|
      ensures text[i + k] == start[k]
    {
      HereAt(s, 0, start, k);
      HereAt(text, i, s, k);
    }
    HereIf(text, i, start);
  }

  lemma {:induction false} FindIs(text: string, pat: string, from: nat, at: nat)
    requires from <= at && Here(text, at, pat)
    requires forall k: nat :: from <= k < at ==> !Here(text, k, pat)
    ensures Find(text, pat, from) == at
    decreases at - from
  {
    if from < at {
      assert !Here(text, from, pat);
      FindIs(text, pat, from + 1, at);
    }
  }

  lemma {:induction false} HereInside(text: string, i: nat, whole: string, k: nat, pat: string)
    requires Here(text, i, whole) && k + |pat| <= |whole| && Here(text, i + k, pat)
    ensures Here(whole, k, pat)
  {
    forall m | 0 <= m < |pat|
      ensures whole[k + m] == pat[m]
    {
      HereAt(text, i, whole, k + m);
      HereAt(text, i + k, pat, m);
    }
    HereIf(whole, k, pat);
  }

  /** `after` is all that follows position `i`. */
  predicate Ends(text: string, i: nat, after: string) {
    i + |after| == |text| && Here(text, i, after)
  }
}
