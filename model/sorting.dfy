/**
 * Python's sorted(items, key=...) as a stable insertion sort on sequences: elements
 * with equal keys keep their input order. sorted(..., reverse=True) is the same sort
 * on the negated key, which is also stable.
 */
module Sorting {
  predicate SortedBy<T>(s: seq<T>, key: T -> real) {
    forall i, j :: 0 <= i < j < |s| ==> key(s[i]) <= key(s[j])
  }

  /** Inserts x after every element whose key is not greater than its own. */
  function Insert<T>(x: T, r: seq<T>, key: T -> real): (out: seq<T>)
    ensures |out| == |r| + 1
    ensures multiset(out) == multiset(r) + multiset{x}
  {
    if r == [] || key(r[|r| - 1]) <= key(x) then r + [x]
    else
      assert r == r[..|r| - 1] + [r[|r| - 1]];
      Insert(x, r[..|r| - 1], key) + [r[|r| - 1]]
  }

  function SortBy<T>(s: seq<T>, key: T -> real): (r: seq<T>)
    ensures |r| == |s|
    ensures multiset(r) == multiset(s)
  {
    if s == [] then []
    else
      assert s == s[..|s| - 1] + [s[|s| - 1]];
      Insert(s[|s| - 1], SortBy(s[..|s| - 1], key), key)
  }

  lemma {:induction false} InsertSorted<T>(x: T, r: seq<T>, key: T -> real)
    requires SortedBy(r, key)
    ensures SortedBy(Insert(x, r, key), key)
  {
    if r == [] || key(r[|r| - 1]) <= key(x) {
    } else {
      var init, last := r[..|r| - 1], r[|r| - 1];
      InsertSorted(x, init, key);
      var ins := Insert(x, init, key);
      assert key(x) < key(last);
      forall k | 0 <= k < |ins| ensures key(ins[k]) <= key(last) {
        assert ins[k] in multiset(ins);
        assert ins[k] == x || ins[k] in multiset(init);
        if ins[k] != x {
          var m :| 0 <= m < |init| && init[m] == ins[k];
          assert r[m] == init[m];
        }
      }
    }
  }

  /** The result is ordered by key and is a permutation of the input. */
  lemma {:induction false} SortBySorted<T>(s: seq<T>, key: T -> real)
    ensures SortedBy(SortBy(s, key), key)
  {
    if s != [] {
      SortBySorted(s[..|s| - 1], key);
      InsertSorted(s[|s| - 1], SortBy(s[..|s| - 1], key), key);
    }
  }

  /** No two elements share a key. */
  predicate DistinctKeys<T>(s: seq<T>, key: T -> real) {
    forall i, j :: 0 <= i < j < |s| ==> key(s[i]) != key(s[j])
  }

  lemma DistinctKeysOfPermutation<T>(a: seq<T>, b: seq<T>, key: T -> real)
    requires multiset(a) == multiset(b) && DistinctKeys(a, key)
    ensures DistinctKeys(b, key)
  {
    forall i, j | 0 <= i < j < |b| ensures key(b[i]) != key(b[j]) {
      assert b[i] in multiset(a) && b[j] in multiset(a);
      var p :| 0 <= p < |a| && a[p] == b[i];
      var q :| 0 <= q < |a| && a[q] == b[j];
      if p == q {
        // b[i] == b[j] occurs twice in b, hence twice in a, at two positions with one key
        assert multiset(b)[b[i]] >= 2 by {
          assert b == b[..i] + [b[i]] + b[i + 1..j] + [b[j]] + b[j + 1..];
        }
        assert multiset(a)[a[p]] >= 2;
        var p2 := OtherOccurrence(a, p);
        assert false;
      }
    }
  }

  /** An element occurring at least twice has a second position. */
  lemma OtherOccurrence<T>(a: seq<T>, p: int) returns (p2: int)
    requires 0 <= p < |a| && multiset(a)[a[p]] >= 2
    ensures 0 <= p2 < |a| && p2 != p && a[p2] == a[p]
  {
    var rest := a[..p] + a[p + 1..];
    assert a == a[..p] + [a[p]] + a[p + 1..];
    assert multiset(rest)[a[p]] >= 1;
    assert a[p] in rest;
    var k :| 0 <= k < |rest| && rest[k] == a[p];
    if k < p { p2 := k; } else { p2 := k + 1; }
  }

  /** Two key-ordered permutations of each other with no repeated key start with the same element. */
  lemma SameHead<T>(a: seq<T>, b: seq<T>, key: T -> real)
    requires a != [] && SortedBy(a, key) && SortedBy(b, key)
    requires multiset(a) == multiset(b) && DistinctKeys(a, key)
    ensures b != [] && a[0] == b[0]
  {
    assert a[0] in multiset(b);
    var i :| 0 <= i < |b| && b[i] == a[0];
    assert b[0] in multiset(a);
    var j :| 0 <= j < |a| && a[j] == b[0];
    assert key(b[0]) <= key(b[i]);
    assert key(a[0]) <= key(a[j]);
    assert key(a[j]) == key(a[0]);
    assert j == 0;
  }

  lemma SameTail<T>(a: seq<T>, b: seq<T>)
    requires a != [] && b != [] && a[0] == b[0] && multiset(a) == multiset(b)
    ensures multiset(a[1..]) == multiset(b[1..])
  {
    assert a == [a[0]] + a[1..];
    assert b == [b[0]] + b[1..];
    assert multiset(a) == multiset{a[0]} + multiset(a[1..]);
    assert multiset(b) == multiset{b[0]} + multiset(b[1..]);
    assert multiset(a[1..]) == multiset(a) - multiset{a[0]};
    assert multiset(b[1..]) == multiset(b) - multiset{b[0]};
  }

  lemma SortedTail<T>(a: seq<T>, key: T -> real)
    requires a != [] && SortedBy(a, key) && DistinctKeys(a, key)
    ensures SortedBy(a[1..], key) && DistinctKeys(a[1..], key)
  {
    forall i, j | 0 <= i < j < |a| - 1 ensures key(a[1..][i]) <= key(a[1..][j]) && key(a[1..][i]) != key(a[1..][j]) {
      assert a[1..][i] == a[i + 1] && a[1..][j] == a[j + 1];
    }
  }

  /** Two key-ordered sequences with the same elements and no repeated key are equal. */
  lemma {:induction false} SortedUnique<T>(a: seq<T>, b: seq<T>, key: T -> real)
    requires SortedBy(a, key) && SortedBy(b, key)
    requires multiset(a) == multiset(b) && DistinctKeys(a, key)
    ensures a == b
  {
    if a == [] {
      assert |b| == |multiset(b)| == 0;
    } else {
      SameHead(a, b, key);
      SameTail(a, b);
      SortedTail(a, key);
      DistinctKeysOfPermutation(a, b, key);
      SortedTail(b, key);
      SortedUnique(a[1..], b[1..], key);
      assert a == [a[0]] + a[1..] && b == [b[0]] + b[1..];
    }
  }

  /** Sorting does not depend on the input order when no two elements share a key. */
  lemma SortByOrderIndependent<T>(s: seq<T>, t: seq<T>, key: T -> real)
    requires multiset(s) == multiset(t) && DistinctKeys(s, key)
    ensures SortBy(s, key) == SortBy(t, key)
  {
    SortBySorted(s, key);
    SortBySorted(t, key);
    DistinctKeysOfPermutation(s, SortBy(s, key), key);
    SortedUnique(SortBy(s, key), SortBy(t, key), key);
  }
}
