/**
 * Shuffles as data. Both programs shuffle with an ambient random source
 * (Swift's `shuffle()`/`shuffled()`, Python's `random.shuffle`). Here a
 * shuffle of `n` cards is an arbitrary index permutation `order` of the
 * positions 0 .. n - 1, supplied by the caller, and the shuffled pile is
 * `Permute(s, order)`. The lemmas prove that a shuffle only reorders cards.
 */
module Permutations {

  /** The positions 0, 1, ..., n - 1 in increasing order. */
  function Range(n: nat): (r: seq<nat>)
    ensures |r| == n
    ensures forall i :: 0 <= i < n ==> r[i] == i
  {
    seq(n, i requires 0 <= i < n => i)
  }

  /** The positions in `Range(n)` are exactly those below n. */
  lemma RangeMembers(n: nat)
    ensures forall x: nat :: x in multiset(Range(n)) <==> x < n
  {
    forall x: nat | x < n
      ensures x in multiset(Range(n))
    {
      assert Range(n)[x] == x;
    }
  }

  /**
   * `order` names every position 0 .. n - 1 exactly once. The first two
   * conjuncts follow from the third; they are stated so that indexing with
   * `order` needs no extra proof.
   */
  predicate IsPermutation(order: seq<nat>, n: nat)
  {
    && |order| == n
    && (forall i :: 0 <= i < |order| ==> order[i] < n)
    && multiset(order) == multiset(Range(n))
  }

  /** The pile `s` rearranged so that its new position i holds `s[order[i]]`. */
  function Permute<T>(s: seq<T>, order: seq<nat>): (r: seq<T>)
    requires IsPermutation(order, |s|)
    ensures |r| == |s|
    ensures forall i :: 0 <= i < |r| ==> r[i] == s[order[i]]
  {
    seq(|order|, i requires 0 <= i < |order| => s[order[i]])
  }

  /** No position occurs twice in `Range(n)`. */
  lemma {:induction false} RangeCountAtMostOne(n: nat, x: nat)
    ensures multiset(Range(n))[x] <= 1
  {
    if n > 0 {
      RangeCountAtMostOne(n - 1, x);
      assert Range(n) == Range(n - 1) + [n - 1];
      if x == n - 1 {
        assert x !in Range(n - 1);
      }
    }
  }

  /** A permutation never names one position twice. */
  lemma PermutationDistinct(order: seq<nat>, n: nat)
    requires IsPermutation(order, n)
    ensures forall i, j :: 0 <= i < j < |order| ==> order[i] != order[j]
  {
    forall i, j | 0 <= i < j < |order|
      ensures order[i] != order[j]
    {
      if order[i] == order[j] {
        var x := order[i];
        assert order == order[..i] + [x] + order[i + 1..j] + [x] + order[j + 1..];
        assert multiset(order)[x] >= 2;
        RangeCountAtMostOne(n, x);
        assert false;
      }
    }
  }

  /** Removing one copy of the same element from two equal multisets leaves equal multisets. */
  lemma MultisetCancel<T>(a: multiset<T>, b: multiset<T>, x: T)
    requires a + multiset{x} == b + multiset{x}
    ensures a == b
  {
    assert a == (a + multiset{x}) - multiset{x};
    assert b == (b + multiset{x}) - multiset{x};
  }

  /** Taking the last position n out of a permutation of n + 1 positions leaves a permutation of n. */
  lemma RemoveLastPosition(order: seq<nat>, n: nat, k: nat)
    requires IsPermutation(order, n + 1)
    requires k < |order| && order[k] == n
    ensures IsPermutation(order[..k] + order[k + 1..], n)
  {
    var rest := order[..k] + order[k + 1..];
    assert multiset(rest) == multiset(Range(n)) by {
      assert order == order[..k] + [n] + order[k + 1..];
      assert multiset(order) == multiset(rest) + multiset{n};
      assert multiset(Range(n + 1)) == multiset(Range(n)) + multiset{n} by {
        assert Range(n + 1) == Range(n) + [n];
      }
      MultisetCancel(multiset(rest), multiset(Range(n)), n);
    }
    RangeMembers(n);
    forall i | 0 <= i < |rest|
      ensures rest[i] < n
    {
      assert rest[i] in multiset(rest);
    }
  }

  /** Permuting with position n taken out is permuting the first n cards and inserting card n at k. */
  lemma PermuteSplit<T>(s: seq<T>, order: seq<nat>, k: nat)
    requires |s| > 0 && IsPermutation(order, |s|)
    requires k < |order| && order[k] == |s| - 1
    requires IsPermutation(order[..k] + order[k + 1..], |s| - 1)
    ensures Permute(s, order)
         == Permute(s[..|s| - 1], order[..k] + order[k + 1..])[..k] + [s[|s| - 1]]
          + Permute(s[..|s| - 1], order[..k] + order[k + 1..])[k..]
  {
    var rest := order[..k] + order[k + 1..];
    var p := Permute(s, order);
    var p' := Permute(s[..|s| - 1], rest);
    var q := p'[..k] + [s[|s| - 1]] + p'[k..];
    forall i | 0 <= i < |p|
      ensures p[i] == q[i]
    {
      if i < k {
        assert rest[i] == order[i];
      } else if i > k {
        assert rest[i - 1] == order[i];
      }
    }
  }

  /** Shuffling only reorders: the shuffled pile holds the same cards. */
  lemma {:induction false} PermutePreservesMultiset<T>(s: seq<T>, order: seq<nat>)
    requires IsPermutation(order, |s|)
    ensures multiset(Permute(s, order)) == multiset(s)
  {
    if |s| > 0 {
      var n := |s| - 1;
      var k := PositionOf(order, n);
      var rest := order[..k] + order[k + 1..];
      RemoveLastPosition(order, n, k);
      PermutePreservesMultiset(s[..n], rest);
      PermuteSplit(s, order, k);
      InsertedLast(s, Permute(s, order), Permute(s[..n], rest), k);
    }
  }

  /** A pile that is `p'` with the last card of `s` inserted holds the cards of `s` when `p'` holds the others. */
  lemma InsertedLast<T>(s: seq<T>, p: seq<T>, p': seq<T>, k: nat)
    requires |s| > 0 && k <= |p'|
    requires p == p'[..k] + [s[|s| - 1]] + p'[k..]
    requires multiset(p') == multiset(s[..|s| - 1])
    ensures multiset(p) == multiset(s)
  {
    InsertMultiset(p', k, s[|s| - 1]);
    assert s == s[..|s| - 1] + [s[|s| - 1]];
  }

  /** Where the last position sits in a permutation. */
  lemma PositionOf(order: seq<nat>, n: nat) returns (k: nat)
    requires IsPermutation(order, n + 1)
    ensures k < |order| && order[k] == n
  {
    RangeMembers(n + 1);
    assert n in multiset(order);
    assert n in order;
    k :| 0 <= k < |order| && order[k] == n;
  }

  /** Inserting one element anywhere adds exactly that element to the multiset. */
  lemma InsertMultiset<T>(p: seq<T>, k: nat, x: T)
    requires k <= |p|
    ensures multiset(p[..k] + [x] + p[k..]) == multiset(p) + multiset{x}
  {
    assert p == p[..k] + p[k..];
  }

  /** A pile whose cards are pairwise different holds each of them exactly once. */
  lemma {:induction false} DistinctCount<T>(s: seq<T>, x: T)
    requires forall i, j :: 0 <= i < j < |s| ==> s[i] != s[j]
    ensures multiset(s)[x] == if x in s then 1 else 0
  {
    if s != [] {
      DistinctCount(s[1..], x);
      assert s == [s[0]] + s[1..];
    }
  }

  /** Rearranging a pile whose cards are pairwise different keeps them pairwise different. */
  lemma PermutePreservesDistinct<T>(s: seq<T>, order: seq<nat>)
    requires IsPermutation(order, |s|)
    requires forall i, j :: 0 <= i < j < |s| ==> s[i] != s[j]
    ensures forall i, j :: 0 <= i < j < |s| ==> Permute(s, order)[i] != Permute(s, order)[j]
  {
    PermutationDistinct(order, |s|);
    var p := Permute(s, order);
    forall i, j | 0 <= i < j < |s|
      ensures p[i] != p[j]
    {
      if order[i] < order[j] {
        assert p[i] == s[order[i]] && p[j] == s[order[j]];
      } else {
        assert order[j] < order[i];
      }
    }
  }
}
