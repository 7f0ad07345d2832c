/**
 * `list.sort(key=..., reverse=True)` and `sorted(..., key=..., reverse=True)`
 * on an integer key: Python's sort is stable, also when reversed, so
 * elements of equal key keep their order.  Specified by insertion, which
 * puts each element after every earlier one whose key is not smaller.
 */
module StableSort {

  /** Keys never increase from left to right. */
  predicate SortedDesc<T>(s: seq<T>, key: T -> int)
  {
    forall i, j :: 0 <= i < j < |s| ==> key(s[j]) <= key(s[i])
  }

  /** The elements of `s` whose key is `k`, in order. */
  function WithKey<T>(s: seq<T>, key: T -> int, k: int): (r: seq<T>)
    ensures |r| <= |s|
  {
    if s == [] then []
    else WithKey(s[..|s| - 1], key, k) + (if key(s[|s| - 1]) == k then [s[|s| - 1]] else [])
  }

  /** `x` placed after the last element whose key is at least its own. */
  function Insert<T>(s: seq<T>, x: T, key: T -> int): seq<T>
  {
    if s == [] then [x]
    else if key(s[|s| - 1]) >= key(x) then s + [x]
    else Insert(s[..|s| - 1], x, key) + [s[|s| - 1]]
  }

  /** The stable descending sort, one insertion per element. */
  function SortDesc<T>(s: seq<T>, key: T -> int): seq<T>
  {
    if s == [] then [] else Insert(SortDesc(s[..|s| - 1], key), s[|s| - 1], key)
  }

  lemma {:induction false} WithKeySnoc<T>(s: seq<T>, x: T, key: T -> int, k: int)
    ensures WithKey(s + [x], key, k) == WithKey(s, key, k) + (if key(x) == k then [x] else [])
  {
    assert (s + [x])[..|s|] == s;
  }

  /** Insertion adds exactly `x`. */
  lemma {:induction false} InsertPerm<T>(s: seq<T>, x: T, key: T -> int)
    ensures multiset(Insert(s, x, key)) == multiset(s) + multiset{x}
    ensures |Insert(s, x, key)| == |s| + 1
    decreases |s|
  {
    if s != [] && key(s[|s| - 1]) < key(x) {
      var s' := s[..|s| - 1];
      var y := s[|s| - 1];
      InsertPerm(s', x, key);
      assert s == s' + [y];
      assert multiset(s) == multiset(s') + multiset{y};
    }
  }

  /** Insertion keeps a sorted sequence sorted. */
  lemma {:induction false} InsertSorted<T>(s: seq<T>, x: T, key: T -> int)
    requires SortedDesc(s, key)
    ensures SortedDesc(Insert(s, x, key), key)
    decreases |s|
  {
    if s != [] && key(s[|s| - 1]) < key(x) {
      var s' := s[..|s| - 1];
      var y := s[|s| - 1];
      InsertSorted(s', x, key);
      InsertPerm(s', x, key);
      var t := Insert(s', x, key);
      forall i | 0 <= i < |t|
        ensures key(y) <= key(t[i])
      {
        assert t[i] in multiset(t);
        if t[i] != x {
          assert t[i] in multiset(s');
          var j :| 0 <= j < |s'| && s'[j] == t[i];
          assert s[j] == t[i];
        }
      }
      assert Insert(s, x, key) == t + [y];
    }
  }

  /** Insertion lets `x` follow the elements of its own key. */
  lemma {:induction false} InsertStable<T>(s: seq<T>, x: T, key: T -> int, k: int)
    requires SortedDesc(s, key)
    ensures WithKey(Insert(s, x, key), key, k) == WithKey(s, key, k) + (if key(x) == k then [x] else [])
    decreases |s|
  {
    if s == [] {
      assert Insert(s, x, key) == [] + [x];
      WithKeySnoc([], x, key, k);
    } else if key(s[|s| - 1]) >= key(x) {
      WithKeySnoc(s, x, key, k);
    } else {
      var s' := s[..|s| - 1];
      var y := s[|s| - 1];
      assert SortedDesc(s', key);
      InsertStable(s', x, key, k);
      assert Insert(s, x, key) == Insert(s', x, key) + [y];
      WithKeySnoc(Insert(s', x, key), y, key, k);
      assert s == s' + [y];
      WithKeySnoc(s', y, key, k);
      if key(y) == k {
        // every element of key k sorts before x, so none is inserted after y
        assert key(x) != k;
        assert WithKey(s, key, k) == WithKey(s', key, k) + [y];
      }
    }
  }

  /**
   * The sort is sorted, a permutation, and stable: the elements of any one
   * key come out in their original order.
   */
  lemma {:induction false} SortDescProps<T>(s: seq<T>, key: T -> int)
    ensures SortedDesc(SortDesc(s, key), key)
    ensures multiset(SortDesc(s, key)) == multiset(s)
    ensures forall k :: WithKey(SortDesc(s, key), key, k) == WithKey(s, key, k)
    decreases |s|
  {
    if s != [] {
      var s' := s[..|s| - 1];
      var x := s[|s| - 1];
      SortDescProps(s', key);
      InsertPerm(SortDesc(s', key), x, key);
      InsertSorted(SortDesc(s', key), x, key);
      assert s == s' + [x];
      forall k
        ensures WithKey(SortDesc(s, key), key, k) == WithKey(s, key, k)
      {
        InsertStable(SortDesc(s', key), x, key, k);
      }
    }
  }

  /** The insertion point: everything from `j` on has a smaller key than `x`, the element before it does not. */
  lemma {:induction false} InsertAt<T>(s: seq<T>, x: T, key: T -> int, j: nat)
    requires j <= |s|
    requires forall i :: j <= i < |s| ==> key(s[i]) < key(x)
    requires j == 0 || key(s[j - 1]) >= key(x)
    ensures Insert(s, x, key) == s[..j] + [x] + s[j..]
    decreases |s|
  {
    if s == [] {
    } else if j == |s| {
      assert s[..j] == s;
    } else {
      var s' := s[..|s| - 1];
      InsertAt(s', x, key, j);
      assert s'[..j] == s[..j];
      assert s[j..] == s'[j..] + [s[|s| - 1]];
    }
  }

  /** `sort(key=..., reverse=True)`: insertion sort, scanning back from the end for each element's place. */
  method SortBy<T>(s: seq<T>, key: T -> int) returns (r: seq<T>)
    ensures r == SortDesc(s, key)
    ensures SortedDesc(r, key) && multiset(r) == multiset(s)
    ensures forall k :: WithKey(r, key, k) == WithKey(s, key, k)
  {
    r := [];
    for i := 0 to |s|
      invariant r == SortDesc(s[..i], key)
    {
      var x := s[i];
      var j := |r|;
      while j > 0 && key(r[j - 1]) < key(x)
        invariant 0 <= j <= |r|
        invariant forall i' :: j <= i' < |r| ==> key(r[i']) < key(x)
      {
        j := j - 1;
      }
      InsertAt(r, x, key, j);
      assert s[..i + 1][..i] == s[..i];
      r := r[..j] + [x] + r[j..];
    }
    assert s[..|s|] == s;
    SortDescProps(s, key);
  }
}
