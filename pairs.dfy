/**
 * Pair enumeration over the row positions 0..n-1 of the depot table, as
 * `itertools.permutations(index, 2)` and `itertools.combinations(index, 2)`
 * produce it for a default RangeIndex, and the truncation `pairs[:test_limit]`.
 */
module Pairs {
  import opened Wrappers

  /** (idx1, idx2): origin and destination row positions. */
  type Pair = (nat, nat)

  predicate LexLess(p: Pair, q: Pair) {
    p.0 < q.0 || (p.0 == q.0 && p.1 < q.1)
  }

  /** Strictly increasing in lexicographic order (hence also free of duplicates). */
  predicate StrictlyLex(s: seq<Pair>) {
    forall a, b :: 0 <= a < b < |s| ==> LexLess(s[a], s[b])
  }

  /** Every pair indexes a row of an n-row table. */
  predicate Within(pairs: seq<Pair>, n: nat) {
    forall k :: 0 <= k < |pairs| ==> pairs[k].0 < n && pairs[k].1 < n
  }

  predicate IsPrefix<T(==)>(r: seq<T>, s: seq<T>) {
    |r| <= |s| && r == s[..|r|]
  }

  // ---------------------------------------------------------------- permutations

  /** The pairs permutations yields with first element i: (i, j) for j != i, in order. */
  function PermutationRow(i: nat, n: nat): seq<Pair>
    requires i < n
  {
    seq(i, j requires 0 <= j < i => (i, j)) + seq(n - 1 - i, j requires 0 <= j < n - 1 - i => (i, i + 1 + j))
  }

  function PermutationsFrom(i: nat, n: nat): seq<Pair>
    decreases n - i
  {
    if i >= n then [] else PermutationRow(i, n) + PermutationsFrom(i + 1, n)
  }

  lemma PermutationRowFacts(i: nat, n: nat)
    requires i < n
    ensures |PermutationRow(i, n)| == n - 1
    ensures forall p :: p in PermutationRow(i, n) <==> p.0 == i && p.1 < n && p.1 != i
    ensures StrictlyLex(PermutationRow(i, n))
  {
    var row := PermutationRow(i, n);
    forall p: Pair | p.0 == i && p.1 < n && p.1 != i
      ensures p in row
    {
      if p.1 < i {
        assert row[p.1] == p;
      } else {
        assert row[i + (p.1 - i - 1)] == p;
      }
    }
  }

  /** Concatenating two increasing runs, all of the first below all of the second, is increasing. */
  lemma ConcatStrictlyLex(a: seq<Pair>, b: seq<Pair>)
    requires StrictlyLex(a) && StrictlyLex(b)
    requires forall x, y :: x in a && y in b ==> LexLess(x, y)
    ensures StrictlyLex(a + b)
  {
    var c := a + b;
    forall u, v | 0 <= u < v < |c|
      ensures LexLess(c[u], c[v])
    {
      if v < |a| {
      } else if u >= |a| {
        assert c[u] == b[u - |a|] && c[v] == b[v - |a|];
      } else {
        assert c[u] in a && c[v] in b;
      }
    }
  }

  lemma {:induction false} PermutationsFromFacts(i: nat, n: nat)
    requires i <= n
    ensures |PermutationsFrom(i, n)| == (n - i) * (n - 1)
    ensures forall p :: p in PermutationsFrom(i, n) <==> i <= p.0 < n && p.1 < n && p.0 != p.1
    ensures StrictlyLex(PermutationsFrom(i, n))
    decreases n - i
  {
    if i < n {
      PermutationRowFacts(i, n);
      PermutationsFromFacts(i + 1, n);
      var row, rest := PermutationRow(i, n), PermutationsFrom(i + 1, n);
      assert PermutationsFrom(i, n) == row + rest;
      ConcatStrictlyLex(row, rest);
      assert (n - i) * (n - 1) == (n - 1) + (n - (i + 1)) * (n - 1);
    }
  }

  /** `list(itertools.permutations(range(n), 2))` */
  function Permutations(n: nat): seq<Pair> {
    PermutationsFrom(0, n)
  }

  /** The permutations of n positions are every ordered pair of distinct
    * positions, exactly once each, in lexicographic order: n * (n - 1) of them. */
  lemma PermutationsFacts(n: nat)
    ensures |Permutations(n)| == n * (n - 1)
    ensures forall p :: p in Permutations(n) <==> p.0 < n && p.1 < n && p.0 != p.1
    ensures StrictlyLex(Permutations(n))
  {
    PermutationsFromFacts(0, n);
  }

  // ---------------------------------------------------------------- combinations

  /** The pairs combinations yields with first element i: (i, j) for j > i, in order. */
  function CombinationRow(i: nat, n: nat): seq<Pair>
    requires i < n
  {
    seq(n - 1 - i, j requires 0 <= j < n - 1 - i => (i, i + 1 + j))
  }

  function CombinationsFrom(i: nat, n: nat): seq<Pair>
    decreases n - i
  {
    if i >= n then [] else CombinationRow(i, n) + CombinationsFrom(i + 1, n)
  }

  lemma CombinationRowFacts(i: nat, n: nat)
    requires i < n
    ensures |CombinationRow(i, n)| == n - 1 - i
    ensures forall p :: p in CombinationRow(i, n) <==> p.0 == i && i < p.1 < n
    ensures StrictlyLex(CombinationRow(i, n))
  {
    var row := CombinationRow(i, n);
    forall p: Pair | p.0 == i && i < p.1 < n
      ensures p in row
    {
      assert row[p.1 - i - 1] == p;
    }
  }

  lemma {:induction false} CombinationsFromFacts(i: nat, n: nat)
    requires i <= n
    ensures 2 * |CombinationsFrom(i, n)| == (n - i) * (n - i - 1)
    ensures forall p :: p in CombinationsFrom(i, n) <==> i <= p.0 < p.1 < n
    ensures StrictlyLex(CombinationsFrom(i, n))
    decreases n - i
  {
    if i < n {
      CombinationRowFacts(i, n);
      CombinationsFromFacts(i + 1, n);
      var row, rest := CombinationRow(i, n), CombinationsFrom(i + 1, n);
      assert CombinationsFrom(i, n) == row + rest;
      ConcatStrictlyLex(row, rest);
      var m := n - i;
      assert m * (m - 1) == 2 * (m - 1) + (m - 1) * (m - 2);
    }
  }

  /** `list(itertools.combinations(range(n), 2))` */
  function Combinations(n: nat): seq<Pair> {
    CombinationsFrom(0, n)
  }

  /** The combinations of n positions are every pair i < j exactly once, in
    * lexicographic order: n * (n - 1) / 2 of them. */
  lemma CombinationsFacts(n: nat)
    ensures 2 * |Combinations(n)| == n * (n - 1)
    ensures forall p :: p in Combinations(n) <==> p.0 < p.1 < n
    ensures StrictlyLex(Combinations(n))
  {
    CombinationsFromFacts(0, n);
  }

  /** Combinations never list a pair in both directions, and never a pair of one row with itself. */
  lemma CombinationsUndirected(n: nat, p: Pair)
    requires p in Combinations(n)
    ensures (p.1, p.0) !in Combinations(n) && p.0 != p.1
    ensures p in Permutations(n) && (p.1, p.0) in Permutations(n)
  {
    CombinationsFacts(n);
    PermutationsFacts(n);
  }

  // ---------------------------------------------------------------- truncation

  function Min(a: int, b: int): int { if a <= b then a else b }
  function Max(a: int, b: int): int { if a <= b then b else a }

  /** Python's `s[:k]`: a prefix of s; the first k elements when k >= 0 (all of
    * them when k >= |s|), and all but the last -k when k < 0 (none when -k >= |s|). */
  function SliceTo<T(==)>(s: seq<T>, k: int): (r: seq<T>)
    ensures IsPrefix(r, s)
    ensures 0 <= k ==> |r| == Min(k, |s|)
    ensures k < 0 ==> |r| == Max(0, |s| + k)
  {
    if 0 <= k then (if k <= |s| then s[..k] else s)
    else if -k <= |s| then s[..|s| + k]
    else []
  }

  /** A negative stop counts from the end: `s[:k] == s[:len(s) + k]`. */
  lemma SliceToNegative<T>(s: seq<T>, k: int)
    requires k < 0 && -k <= |s|
    ensures SliceTo(s, k) == SliceTo(s, |s| + k)
    ensures |SliceTo(s, k)| == |s| + k
  {
  }

  /** `if test_limit is not None: pairs = pairs[:test_limit]` */
  function Truncate<T(==)>(s: seq<T>, testLimit: Option<int>): (r: seq<T>)
    ensures IsPrefix(r, s)
    ensures testLimit.None? ==> r == s
    ensures testLimit.Some? ==> r == SliceTo(s, testLimit.value)
  {
    match testLimit
    case None => s
    case Some(k) => SliceTo(s, k)
  }

  /** A prefix of the enumeration of an n-row table only indexes rows of that table. */
  lemma PrefixWithin(r: seq<Pair>, s: seq<Pair>, n: nat)
    requires IsPrefix(r, s)
    requires forall p :: p in s ==> p.0 < n && p.1 < n
    ensures Within(r, n)
  {
    forall k | 0 <= k < |r|
      ensures r[k].0 < n && r[k].1 < n
    {
      assert r[k] == s[k] && s[k] in s;
    }
  }

  // ---------------------------------------------------------------- processed pairs

  /** The pairs a permutation-based calculator processes for an n-row table. */
  function PermutationPairs(n: nat, testLimit: Option<int>): (pairs: seq<Pair>)
    ensures IsPrefix(pairs, Permutations(n))
    ensures Within(pairs, n)
  {
    var pairs := Truncate(Permutations(n), testLimit);
    PermutationsFacts(n);
    PrefixWithin(pairs, Permutations(n), n);
    pairs
  }

  /** How many pairs a permutation-based calculator processes: all n * (n - 1)
    * without a limit, the first k with a limit k >= 0, all but the last -k with k < 0. */
  lemma PermutationPairsCount(n: nat, testLimit: Option<int>)
    ensures testLimit.None? ==> |PermutationPairs(n, testLimit)| == n * (n - 1)
    ensures testLimit.Some? && 0 <= testLimit.value ==>
              |PermutationPairs(n, testLimit)| == Min(testLimit.value, n * (n - 1))
    ensures testLimit.Some? && testLimit.value < 0 ==>
              |PermutationPairs(n, testLimit)| == Max(0, n * (n - 1) + testLimit.value)
  {
    PermutationsFacts(n);
  }

  /** A limit only ever shortens the work: at most n * (n - 1) pairs, and at most the limit when it is not negative. */
  lemma PermutationPairsBound(n: nat, testLimit: Option<int>)
    ensures |PermutationPairs(n, testLimit)| <= n * (n - 1)
    ensures testLimit.Some? && 0 <= testLimit.value ==> |PermutationPairs(n, testLimit)| <= testLimit.value
  {
    PermutationPairsCount(n, testLimit);
  }

  /** The pairs the combination-based calculator processes for an n-row table. */
  function CombinationPairs(n: nat, testLimit: Option<int>): (pairs: seq<Pair>)
    ensures IsPrefix(pairs, Combinations(n))
    ensures Within(pairs, n)
  {
    var pairs := Truncate(Combinations(n), testLimit);
    CombinationsFacts(n);
    PrefixWithin(pairs, Combinations(n), n);
    pairs
  }

  /** How many pairs the combination-based calculator processes: all n * (n - 1) / 2
    * without a limit, the first k with a limit k >= 0, all but the last -k with k < 0. */
  lemma CombinationPairsCount(n: nat, testLimit: Option<int>)
    ensures testLimit.None? ==> 2 * |CombinationPairs(n, testLimit)| == n * (n - 1)
    ensures testLimit.Some? && 0 <= testLimit.value ==>
              |CombinationPairs(n, testLimit)| == Min(testLimit.value, |Combinations(n)|)
    ensures testLimit.Some? && testLimit.value < 0 ==>
              |CombinationPairs(n, testLimit)| == Max(0, |Combinations(n)| + testLimit.value)
  {
    CombinationsFacts(n);
  }

  /** Every pair the combination-based calculator processes has its lower row position first. */
  lemma CombinationPairsOrdered(n: nat, testLimit: Option<int>)
    ensures forall k :: 0 <= k < |CombinationPairs(n, testLimit)| ==>
              CombinationPairs(n, testLimit)[k].0 < CombinationPairs(n, testLimit)[k].1
  {
    var pairs := CombinationPairs(n, testLimit);
    CombinationsFacts(n);
    assert forall k :: 0 <= k < |pairs| ==> pairs[k] in Combinations(n);
  }

  /** Fewer than two rows give no pair to process. */
  lemma NoPairsBelowTwo(n: nat, testLimit: Option<int>)
    requires n < 2
    ensures PermutationPairs(n, testLimit) == [] && CombinationPairs(n, testLimit) == []
  {
    PermutationsFacts(n);
    CombinationsFacts(n);
    assert n * (n - 1) == 0;
  }
}
