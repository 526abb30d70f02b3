/** Sequence operations shared by the game models: `Array.prototype.splice(i, 1)`,
    `indexOf`, and membership counting. */
module Seqs {

  /** The sequence without its element at position `i` (JavaScript `splice(i, 1)`). */
  function RemoveAt<T>(s: seq<T>, i: nat): (r: seq<T>)
    requires i < |s|
    ensures |r| == |s| - 1
    ensures forall k :: 0 <= k < i ==> r[k] == s[k]
    ensures forall k :: i <= k < |r| ==> r[k] == s[k + 1]
    ensures multiset(r) == multiset(s) - multiset{s[i]}
  {
    assert s == s[..i] + [s[i]] + s[i + 1..];
    s[..i] + s[i + 1..]
  }

  /** Every element occurs at most once. */
  predicate NoDuplicates<T(==)>(s: seq<T>) {
    forall i, j :: 0 <= i < j < |s| ==> s[i] != s[j]
  }

  /** A sequence whose multiset is contained in that of a duplicate-free sequence has no duplicates. */
  lemma {:induction false} NoDuplicatesOfSubMultiset<T>(small: seq<T>, big: seq<T>)
    requires NoDuplicates(big)
    requires multiset(small) <= multiset(big)
    ensures NoDuplicates(small)
  {
    forall i, j | 0 <= i < j < |small|
      ensures small[i] != small[j]
    {
      if small[i] == small[j] {
        OccursTwice(small, i, j);
        OccursOnce(big, small[i]);
        assert false;
      }
    }
  }

  /** An element found at two positions occurs at least twice. */
  lemma OccursTwice<T>(s: seq<T>, i: nat, j: nat)
    requires i < j < |s| && s[i] == s[j]
    ensures multiset(s)[s[i]] >= 2
  {
    var x := s[i];
    assert s == s[..i] + [x] + s[i + 1..j] + [x] + s[j + 1..];
    assert multiset(s) == multiset(s[..i]) + multiset{x} + multiset(s[i + 1..j]) + multiset{x} + multiset(s[j + 1..]);
  }

  /** In a duplicate-free sequence no element occurs twice. */
  lemma {:induction false} OccursOnce<T>(s: seq<T>, x: T)
    requires NoDuplicates(s)
    ensures multiset(s)[x] <= 1
  {
    if s != [] {
      assert s == [s[0]] + s[1..];
      assert NoDuplicates(s[1..]) by {
        forall i, j | 0 <= i < j < |s[1..]| ensures s[1..][i] != s[1..][j] {
          assert s[1..][i] == s[i + 1] && s[1..][j] == s[j + 1];
        }
      }
      OccursOnce(s[1..], x);
      if s[0] == x {
        assert x !in s[1..] by {
          forall k | 0 <= k < |s[1..]| ensures s[1..][k] != x {
            assert s[1..][k] == s[k + 1];
          }
        }
      }
    }
  }

  /** Position of the first occurrence of `x` (JavaScript `indexOf`); `|s|` stands for its -1. */
  function FirstIndexOf<T(==)>(s: seq<T>, x: T): (r: nat)
    ensures r <= |s|
    ensures r < |s| ==> s[r] == x
    ensures forall j :: 0 <= j < r ==> s[j] != x
    ensures r == |s| <==> x !in s
  {
    if s == [] then 0
    else if s[0] == x then 0
    else 1 + FirstIndexOf(s[1..], x)
  }

  /** In a sequence without duplicates, the first index of the element at `k` is `k`. */
  lemma FirstIndexOfUnique<T>(s: seq<T>, k: nat)
    requires NoDuplicates(s) && k < |s|
    ensures FirstIndexOf(s, s[k]) == k
  {
  }
}
