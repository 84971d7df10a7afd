/** Index pairs (i, j) with i < j < n in the order two nested loops
    `for i in range(n): for j in range(i + 1, n)` produce them, optionally
    filtered by a test on the pair. Both cosmogenesis engines build their
    relation lists this way. */
module Pairs {

  import opened Common

  type Pair = (nat, nat)

  /** Keeps every pair: the unfiltered all-to-all list. */
  function KeepAll(i: nat, j: nat): bool { true }

  /** Row i of the nested loops after the inner loop has reached j:
      the kept pairs (i, k) for i < k < j, in increasing k. */
  function KeptRow(keep: (nat, nat) -> bool, i: nat, j: nat): seq<Pair>
    requires i < j
    decreases j
  {
    if j == i + 1 then []
    else KeptRow(keep, i, j - 1) + (if keep(i, j - 1) then [(i, j - 1)] else [])
  }

  /** The first i rows of the nested loops over n nodes. */
  function KeptPairsBelow(keep: (nat, nat) -> bool, n: nat, i: nat): seq<Pair>
    requires i <= n
  {
    if i == 0 then [] else KeptPairsBelow(keep, n, i - 1) + KeptRow(keep, i - 1, n)
  }

  /** Everything the nested loops over n nodes keep. */
  function KeptPairs(keep: (nat, nat) -> bool, n: nat): seq<Pair>
  {
    KeptPairsBelow(keep, n, n)
  }

  /** Every pair (i, j) with i < j < n. */
  function AllPairs(n: nat): seq<Pair>
  {
    KeptPairs(KeepAll, n)
  }

  predicate LexLess(a: Pair, b: Pair)
  {
    a.0 < b.0 || (a.0 == b.0 && a.1 < b.1)
  }

  predicate StrictlySorted(s: seq<Pair>)
  {
    forall a, b :: 0 <= a < b < |s| ==> LexLess(s[a], s[b])
  }

  predicate NoDuplicates<T(==)>(s: seq<T>)
  {
    forall a, b :: 0 <= a < b < |s| ==> s[a] != s[b]
  }

  lemma {:induction false} KeptRowMembers(keep: (nat, nat) -> bool, i: nat, j: nat)
    requires i < j
    ensures forall p :: p in KeptRow(keep, i, j) <==> p.0 == i && i < p.1 < j && keep(p.0, p.1)
    ensures StrictlySorted(KeptRow(keep, i, j))
    decreases j
  {
    if j > i + 1 {
      KeptRowMembers(keep, i, j - 1);
    }
  }

  lemma {:induction false} KeptPairsBelowMembers(keep: (nat, nat) -> bool, n: nat, i: nat)
    requires i <= n
    ensures forall p :: p in KeptPairsBelow(keep, n, i) <==> p.0 < i && p.0 < p.1 < n && keep(p.0, p.1)
    ensures StrictlySorted(KeptPairsBelow(keep, n, i))
  {
    if i > 0 {
      KeptPairsBelowMembers(keep, n, i - 1);
      KeptRowMembers(keep, i - 1, n);
      var a := KeptPairsBelow(keep, n, i - 1);
      var b := KeptRow(keep, i - 1, n);
      forall x, y | 0 <= x < y < |a + b| ensures LexLess((a + b)[x], (a + b)[y]) {
        if y < |a| {
        } else if x >= |a| {
          assert (a + b)[x] == b[x - |a|] && (a + b)[y] == b[y - |a|];
        } else {
          assert (a + b)[x] == a[x] && a[x] in a;
          assert (a + b)[y] == b[y - |a|] && b[y - |a|] in b;
        }
      }
    }
  }

  /** s lists exactly the pairs i < j < n that pass the test, in strictly
      increasing lexicographic order. */
  ghost predicate ListsPairs(s: seq<Pair>, keep: (nat, nat) -> bool, n: nat)
  {
    StrictlySorted(s) && forall p :: p in s <==> p.0 < p.1 < n && keep(p.0, p.1)
  }

  /** The kept pairs are exactly the pairs i < j < n that pass the test,
      in strictly increasing lexicographic order, hence without duplicates. */
  lemma KeptPairsMembers(keep: (nat, nat) -> bool, n: nat)
    ensures forall p :: p in KeptPairs(keep, n) <==> p.0 < p.1 < n && keep(p.0, p.1)
    ensures ListsPairs(KeptPairs(keep, n), keep, n) && NoDuplicates(KeptPairs(keep, n))
  {
    KeptPairsBelowMembers(keep, n, n);
  }

  /** A filtered list is contained in the all-pairs list. */
  lemma KeptPairsWithinAll(keep: (nat, nat) -> bool, n: nat)
    ensures forall p :: p in KeptPairs(keep, n) ==> p in AllPairs(n)
    ensures |KeptPairs(keep, n)| <= |AllPairs(n)|
  {
    KeptPairsMembers(keep, n);
    KeptPairsMembers(KeepAll, n);
    DupFreeSubsetNotLonger(KeptPairs(keep, n), AllPairs(n));
  }

  lemma {:induction false} AllPairsBelowLength(n: nat, i: nat)
    requires i <= n
    ensures 2 * |KeptPairsBelow(KeepAll, n, i)| == i * (2 * n - i - 1)
  {
    if i > 0 {
      AllPairsBelowLength(n, i - 1);
      AllRowLength(i - 1, n);
      var x := 2 * n - i;
      assert (i - 1) * x == i * x - x;
      assert i * x - i == i * (x - 1);
    }
  }

  lemma {:induction false} AllRowLength(i: nat, j: nat)
    requires i < j
    ensures |KeptRow(KeepAll, i, j)| == j - i - 1
    decreases j
  {
    if j > i + 1 {
      AllRowLength(i, j - 1);
    }
  }

  /** n nodes have n(n-1)/2 pairs. */
  lemma AllPairsLength(n: nat)
    ensures 2 * |AllPairs(n)| == n * (n - 1)
  {
    AllPairsBelowLength(n, n);
    assert 2 * n - n - 1 == n - 1;
  }

  lemma {:induction false} DupFreeSetSize<T>(s: seq<T>)
    requires NoDuplicates(s)
    ensures |set x | x in s| == |s|
  {
    if |s| > 0 {
      var p := s[..|s| - 1];
      DupFreeSetSize(p);
      assert (set x | x in s) == (set x | x in p) + {s[|s| - 1]};
      assert s[|s| - 1] !in p by {
        forall k | 0 <= k < |p| ensures p[k] != s[|s| - 1] { assert p[k] == s[k]; }
      }
    }
  }

  /** A duplicate-free list whose elements all occur in another duplicate-free
      list is no longer than it. */
  lemma DupFreeSubsetNotLonger<T>(s: seq<T>, t: seq<T>)
    requires NoDuplicates(s) && NoDuplicates(t)
    requires forall x :: x in s ==> x in t
    ensures |s| <= |t|
  {
    DupFreeSetSize(s);
    DupFreeSetSize(t);
    var a := set x | x in s;
    var b := set x | x in t;
    assert a <= b;
    SubsetCardinality(a, b);
  }

  /** A duplicate-free list of pairs i < j < n has at most n(n-1)/2 entries. */
  lemma DupFreePairsBound(s: seq<Pair>, n: nat)
    requires NoDuplicates(s)
    requires forall p :: p in s ==> p.0 < p.1 < n
    ensures 2 * |s| <= n * (n - 1)
  {
    KeptPairsMembers(KeepAll, n);
    AllPairsLength(n);
    DupFreeSubsetNotLonger(s, AllPairs(n));
  }

  /** The nested loops `for i in range(n): for j in range(i + 1, n)` that
      append each pair passing the test to an existing list. */
  method AppendKeptPairs(base: seq<Pair>, keep: (nat, nat) -> bool, n: nat) returns (rels: seq<Pair>)
    ensures rels == base + KeptPairs(keep, n)
  {
    rels := base;
    for i := 0 to n
      invariant rels == base + KeptPairsBelow(keep, n, i)
    {
      ghost var prefix := rels;
      for j := i + 1 to n
        invariant rels == prefix + KeptRow(keep, i, j)
      {
        assert KeptRow(keep, i, j + 1) == KeptRow(keep, i, j) + (if keep(i, j) then [(i, j)] else []);
        if keep(i, j) {
          rels := rels + [(i, j)];
        }
      }
      assert KeptPairsBelow(keep, n, i + 1) == KeptPairsBelow(keep, n, i) + KeptRow(keep, i, n);
      assert rels == base + (KeptPairsBelow(keep, n, i) + KeptRow(keep, i, n));
    }
  }
}
