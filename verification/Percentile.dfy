/** The nearest-rank percentile of a benchmark's latencies (`commit_bench.rs`), over exact reals. */
module Percentile {

  function Ceil(x: real): int {
    -(-x).Floor
  }

  function Clamp(n: int, low: nat, high: nat): nat
    requires low <= high
  {
    if n < low then low else if n > high then high else n
  }

  function Rank(n: nat, p: real): int {
    Ceil(p / 100.0 * n as real)
  }

  function Percentile(sample: seq<real>, p: real): real {
    if sample == [] then 0.0 else sample[Clamp(Rank(|sample|, p), 1, |sample|) - 1]
  }

  ghost predicate Ascending(s: seq<real>) {
    forall i, j :: 0 <= i <= j < |s| ==> s[i] <= s[j]
  }

  /** How many samples are at most `v`. */
  function AtMost(s: seq<real>, v: real): nat {
    if s == [] then 0 else AtMost(s[..|s| - 1], v) + if s[|s| - 1] <= v then 1 else 0
  }

  lemma {:induction false} AtLeastSoMany(s: seq<real>, k: nat)
    requires Ascending(s) && k < |s|
    ensures AtMost(s, s[k]) >= k + 1
    decreases |s|
  {
    var n := |s| - 1;
    if k < n {
      AtLeastSoMany(s[..n], k);
    } else {
      AllAtMost(s[..n], s[n]);
    }
  }

  lemma {:induction false} AllAtMost(s: seq<real>, v: real)
    requires forall i :: 0 <= i < |s| ==> s[i] <= v
    ensures AtMost(s, v) == |s|
    decreases |s|
  {
    if s != [] {
      AllAtMost(s[..|s| - 1], v);
    }
  }

  /** Fewer than `k + 1` samples are at most anything below the `k`-th. */
  lemma {:induction false} FewBelow(s: seq<real>, k: nat, v: real)
    requires Ascending(s) && k < |s| && v < s[k]
    ensures AtMost(s, v) <= k
    decreases |s|
  {
    if k < |s| - 1 {
      FewBelow(s[..|s| - 1], k, v);
    } else {
      AtMostBound(s[..|s| - 1], v);
    }
  }

  lemma {:induction false} AtMostBound(s: seq<real>, v: real)
    ensures AtMost(s, v) <= |s|
    decreases |s|
  {
    if s != [] {
      AtMostBound(s[..|s| - 1], v);
    }
  }

  lemma {:induction false} RankIs(n: nat, p: real)
    requires n > 0 && 0.0 <= p <= 100.0
    ensures 0 <= Rank(n, p) <= n
    ensures Rank(n, p) as real * 100.0 >= p * n as real
    ensures (Rank(n, p) - 1) as real * 100.0 < p * n as real
  {
    var x := p / 100.0 * n as real;
    assert x * 100.0 == p * n as real;
    assert p * n as real <= 100.0 * n as real;
    assert p * n as real >= 0.0;
  }

  /** The nearest rank: the smallest sample such that at least `p` percent of them are at most it. */
  lemma {:induction false} NearestRank(s: seq<real>, p: real)
    requires s != [] && Ascending(s) && 0.0 <= p <= 100.0
    ensures Percentile(s, p) in s
    ensures AtMost(s, Percentile(s, p)) as real * 100.0 >= p * |s| as real
    ensures forall v :: v < Percentile(s, p) && v in s ==> AtMost(s, v) as real * 100.0 < p * |s| as real
  {
    RankIs(|s|, p);
    var r := Clamp(Rank(|s|, p), 1, |s|);
    AtLeastSoMany(s, r - 1);
    forall v | v < s[r - 1] && v in s
      ensures AtMost(s, v) as real * 100.0 < p * |s| as real
    {
      FewBelow(s, r - 1, v);
    }
  }

  /** No sample at all gives 0; below 0 percent is the least sample, above 100 the greatest. */
  lemma {:induction false} OutOfRange(s: seq<real>, p: real)
    ensures s == [] ==> Percentile(s, p) == 0.0
    ensures s != [] && p <= 0.0 ==> Percentile(s, p) == s[0]
    ensures s != [] && p >= 100.0 ==> Percentile(s, p) == s[|s| - 1]
  {
    if s != [] {
      if p <= 0.0 {
        RankMonotone(|s|, p, 0.0);
      } else if p >= 100.0 {
        RankMonotone(|s|, 100.0, p);
      }
    }
  }

  /** A higher percentile is never a smaller sample, for any `p` and `q`. */
  lemma {:induction false} Monotone(s: seq<real>, p: real, q: real)
    requires Ascending(s) && p <= q
    ensures Percentile(s, p) <= Percentile(s, q)
  {
    if s != [] {
      RankMonotone(|s|, p, q);
    }
  }

  lemma {:induction false} RankMonotone(n: nat, p: real, q: real)
    requires p <= q
    ensures Rank(n, p) <= Rank(n, q)
  {
    Scaled(p / 100.0, q / 100.0, n as real);
    CeilMonotone(p / 100.0 * n as real, q / 100.0 * n as real);
  }

  lemma {:induction false} Scaled(a: real, b: real, n: real)
    requires a <= b && n >= 0.0
    ensures a * n <= b * n
  {
    var d := b - a;
    assert d * n >= 0.0;
    assert (a + d) * n == a * n + d * n;
  }

  lemma {:induction false} CeilMonotone(x: real, y: real)
    requires x <= y
    ensures Ceil(x) <= Ceil(y)
  {
  }
}
