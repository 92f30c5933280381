/**
 * `List.shuffled()` with its randomness made an input: the caller supplies
 * the index permutation that the shuffle would have drawn.
 */
module Shuffle {
  /** `perm` lists every index below `n` exactly once. */
  predicate IsPermutation(perm: seq<int>, n: int)
  {
    && |perm| == n
    && (forall i :: 0 <= i < |perm| ==> 0 <= perm[i] < n)
    && (forall i, j :: 0 <= i < j < |perm| ==> perm[i] != perm[j])
    && (forall k :: 0 <= k < n ==> k in perm)
  }

  /** The elements of `s` in the order that `perm` lists their indices. */
  function Permute<T>(s: seq<T>, perm: seq<int>): (r: seq<T>)
    requires forall i :: 0 <= i < |perm| ==> 0 <= perm[i] < |s|
  {
    seq(|perm|, i requires 0 <= i < |perm| => s[perm[i]])
  }

  /** Removing the entry for the last index leaves a permutation of the indices below it. */
  lemma DropLastIndex(perm: seq<int>, n: int, j: int)
    requires IsPermutation(perm, n) && 0 <= j < n && perm[j] == n - 1
    ensures IsPermutation(perm[..j] + perm[j + 1..], n - 1)
    ensures forall i :: 0 <= i < |perm| && i != j ==> 0 <= perm[i] < n - 1
  {
    var rest := perm[..j] + perm[j + 1..];
    assert forall i :: 0 <= i < j ==> rest[i] == perm[i];
    assert forall i :: j <= i < n - 1 ==> rest[i] == perm[i + 1];
    forall k | 0 <= k < n - 1 ensures k in rest {
      assert k in perm;
      var i :| 0 <= i < |perm| && perm[i] == k;
      if i < j {
        assert rest[i] == k;
      } else {
        assert i != j && rest[i - 1] == k;
      }
    }
  }

  /** Shuffling `s` is shuffling all but its last element, then placing the last at `j`. */
  lemma PermuteSplitsAtLast<T>(s: seq<T>, perm: seq<int>, j: int)
    requires |perm| == |s| && 0 <= j < |s| && perm[j] == |s| - 1
    requires forall i :: 0 <= i < |perm| && i != j ==> 0 <= perm[i] < |s| - 1
    ensures var rest := perm[..j] + perm[j + 1..];
      Permute(s, perm) == Permute(s[..|s| - 1], rest)[..j] + [s[|s| - 1]] + Permute(s[..|s| - 1], rest)[j..]
  {
    var n := |s|;
    var rest := perm[..j] + perm[j + 1..];
    var p, q := Permute(s, perm), Permute(s[..n - 1], rest);
    forall i | 0 <= i < n ensures p[i] == (q[..j] + [s[n - 1]] + q[j..])[i] {
      if i < j {
        assert rest[i] == perm[i];
      } else if i > j {
        assert rest[i - 1] == perm[i];
      }
    }
  }

  /** Inserting `x` anywhere in `q` adds one `x` to its multiset. */
  lemma MultisetOfInsertion<T>(q: seq<T>, j: int, x: T)
    requires 0 <= j <= |q|
    ensures multiset(q[..j] + [x] + q[j..]) == multiset(q) + multiset{x}
  {
    assert q == q[..j] + q[j..];
  }

  /** A shuffle is a permutation: it keeps every element, as often as it occurs. */
  lemma {:induction false} PermutePreservesMultiset<T>(s: seq<T>, perm: seq<int>)
    requires IsPermutation(perm, |s|)
    ensures multiset(Permute(s, perm)) == multiset(s)
  {
    var n := |s|;
    if n == 0 {
      assert Permute(s, perm) == [];
    } else {
      assert n - 1 in perm;
      var j :| 0 <= j < |perm| && perm[j] == n - 1;
      var rest, init := perm[..j] + perm[j + 1..], s[..n - 1];
      DropLastIndex(perm, n, j);
      PermutePreservesMultiset(init, rest);
      PermuteSplitsAtLast(s, perm, j);
      MultisetOfInsertion(Permute(init, rest), j, s[n - 1]);
      assert s == init + [s[n - 1]];
    }
  }
}
