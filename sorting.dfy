/**
 * Python's ordering of str (code point by code point, a proper prefix
 * first), `sorted(...)` of a set of strings and the stable sort of a list
 * on a string key.
 */
module Sorting {

  /** a <= b in Python's string order. */
  predicate LexLe(a: string, b: string)
    decreases |a|
  {
    |a| == 0 || (|b| > 0 && (a[0] < b[0] || (a[0] == b[0] && LexLe(a[1..], b[1..]))))
  }

  lemma {:induction false} LexReflexive(a: string)
    ensures LexLe(a, a)
    decreases |a|
  {
    if |a| > 0 {
      LexReflexive(a[1..]);
    }
  }

  lemma {:induction false} LexTotal(a: string, b: string)
    ensures LexLe(a, b) || LexLe(b, a)
    decreases |a|
  {
    if |a| > 0 && |b| > 0 && a[0] == b[0] {
      LexTotal(a[1..], b[1..]);
    }
  }

  lemma {:induction false} LexAntisymmetric(a: string, b: string)
    requires LexLe(a, b) && LexLe(b, a)
    ensures a == b
    decreases |a|
  {
    if |a| > 0 {
      LexAntisymmetric(a[1..], b[1..]);
      assert a == [a[0]] + a[1..] && b == [b[0]] + b[1..];
    }
  }

  lemma {:induction false} LexTransitive(a: string, b: string, c: string)
    requires LexLe(a, b) && LexLe(b, c)
    ensures LexLe(a, c)
    decreases |a|
  {
    if |a| > 0 && a[0] == b[0] && b[0] == c[0] {
      LexTransitive(a[1..], b[1..], c[1..]);
    }
  }

  /** Strictly increasing: sorted, no string twice. */
  predicate StrictlySorted(xs: seq<string>)
  {
    forall i, j :: 0 <= i < j < |xs| ==> LexLe(xs[i], xs[j]) && xs[i] != xs[j]
  }

  /** `xs == sorted(s)` */
  predicate SortedOf(xs: seq<string>, s: set<string>)
  {
    StrictlySorted(xs) && |xs| == |s| && (forall x :: x in xs ==> x in s) && (forall x :: x in s ==> x in xs)
  }

  predicate IsLeast(m: string, s: set<string>)
  {
    m in s && forall y :: y in s ==> LexLe(m, y)
  }

  /** A finite nonempty set of strings has a least element. */
  lemma {:induction false} LeastExists(s: set<string>)
    requires s != {}
    ensures exists m :: IsLeast(m, s)
    decreases |s|
  {
    var x :| x in s;
    if s - {x} == {} {
      assert s == {x};
      LexReflexive(x);
      assert IsLeast(x, s);
    } else {
      LeastExists(s - {x});
      var m :| IsLeast(m, s - {x});
      LexTotal(m, x);
      if LexLe(m, x) {
        assert IsLeast(m, s);
      } else {
        forall y | y in s
          ensures LexLe(x, y)
        {
          if y != x {
            LexTransitive(x, m, y);
          } else {
            LexReflexive(x);
          }
        }
        assert IsLeast(x, s);
      }
    }
  }

  /** `sorted(s)`, taking the least remaining string each time. */
  method SortSet(s: set<string>) returns (xs: seq<string>)
    ensures SortedOf(xs, s)
  {
    xs := [];
    var rest := s;
    while rest != {}
      invariant rest <= s
      invariant StrictlySorted(xs)
      invariant forall x :: x in xs <==> x in s && x !in rest
      invariant forall i, y :: 0 <= i < |xs| && y in rest ==> LexLe(xs[i], y) && xs[i] != y
      invariant |xs| + |rest| == |s|
      decreases rest
    {
      LeastExists(rest);
      var m :| IsLeast(m, rest);
      forall y | y in rest - {m}
        ensures LexLe(m, y) && m != y
      {
      }
      xs := xs + [m];
      rest := rest - {m};
    }
  }

  /** There is only one sorted list of a set. */
  lemma {:induction false} SortedOfUnique(xs: seq<string>, ys: seq<string>, s: set<string>)
    requires SortedOf(xs, s) && SortedOf(ys, s)
    ensures xs == ys
    decreases |xs|
  {
    if xs == [] || ys == [] {
      assert |xs| == 0 || |ys| == 0;
    } else {
      var a := xs[0];
      var b := ys[0];
      assert a in ys;
      assert b in xs;
      var i :| 0 <= i < |ys| && ys[i] == a;
      var j :| 0 <= j < |xs| && xs[j] == b;
      assert LexLe(b, a) by { if i == 0 { LexReflexive(a); } }
      assert LexLe(a, b) by { if j == 0 { LexReflexive(a); } }
      LexAntisymmetric(a, b);
      var s' := s - {a};
      forall x
        ensures x in xs[1..] <==> x in s'
      {
        if x in xs[1..] {
          var k :| 1 <= k < |xs| && xs[k] == x;
        }
        if x in s' {
          var k :| 0 <= k < |xs| && xs[k] == x;
          assert k != 0;
          assert xs[1..][k - 1] == x;
        }
      }
      forall x
        ensures x in ys[1..] <==> x in s'
      {
        if x in ys[1..] {
          var k :| 1 <= k < |ys| && ys[k] == x;
        }
        if x in s' {
          var k :| 0 <= k < |ys| && ys[k] == x;
          assert k != 0;
          assert ys[1..][k - 1] == x;
        }
      }
      SortedOfUnique(xs[1..], ys[1..], s');
      assert xs == [a] + xs[1..] && ys == [b] + ys[1..];
    }
  }

  // ---------------------------------------------------------------------
  // sorted(xs, key=...) on a string key: stable, ascending
  // ---------------------------------------------------------------------

  /** Keys never decrease from left to right. */
  predicate SortedAsc<T>(s: seq<T>, key: T -> string)
  {
    forall i, j :: 0 <= i < j < |s| ==> LexLe(key(s[i]), key(s[j]))
  }

  /** The elements of `s` whose key is `k`, in order. */
  function KeyedBy<T>(s: seq<T>, key: T -> string, k: string): (r: seq<T>)
    ensures |r| <= |s|
  {
    if s == [] then []
    else KeyedBy(s[..|s| - 1], key, k) + (if key(s[|s| - 1]) == k then [s[|s| - 1]] else [])
  }

  /** `x` placed after the last element whose key is not above its own. */
  function InsertAsc<T>(s: seq<T>, x: T, key: T -> string): seq<T>
  {
    if s == [] then [x]
    else if LexLe(key(s[|s| - 1]), key(x)) then s + [x]
    else InsertAsc(s[..|s| - 1], x, key) + [s[|s| - 1]]
  }

  /** The stable ascending sort, one insertion per element. */
  function SortAsc<T>(s: seq<T>, key: T -> string): seq<T>
  {
    if s == [] then [] else InsertAsc(SortAsc(s[..|s| - 1], key), s[|s| - 1], key)
  }

  lemma {:induction false} KeyedBySnoc<T>(s: seq<T>, x: T, key: T -> string, k: string)
    ensures KeyedBy(s + [x], key, k) == KeyedBy(s, key, k) + (if key(x) == k then [x] else [])
  {
    assert (s + [x])[..|s|] == s;
  }

  /** Insertion adds exactly `x`. */
  lemma {:induction false} InsertAscPerm<T>(s: seq<T>, x: T, key: T -> string)
    ensures multiset(InsertAsc(s, x, key)) == multiset(s) + multiset{x}
    ensures |InsertAsc(s, x, key)| == |s| + 1
    decreases |s|
  {
    if s != [] && !LexLe(key(s[|s| - 1]), key(x)) {
      var s' := s[..|s| - 1];
      var y := s[|s| - 1];
      InsertAscPerm(s', x, key);
      assert s == s' + [y];
      assert multiset(s) == multiset(s') + multiset{y};
    }
  }

  /** Insertion keeps a sorted sequence sorted. */
  lemma {:induction false} InsertAscSorted<T>(s: seq<T>, x: T, key: T -> string)
    requires SortedAsc(s, key)
    ensures SortedAsc(InsertAsc(s, x, key), key)
    decreases |s|
  {
    if s == [] {
    } else if LexLe(key(s[|s| - 1]), key(x)) {
      forall i | 0 <= i < |s|
        ensures LexLe(key(s[i]), key(x))
      {
        if i < |s| - 1 {
          LexTransitive(key(s[i]), key(s[|s| - 1]), key(x));
        }
      }
    } else {
      var s' := s[..|s| - 1];
      var y := s[|s| - 1];
      InsertAscSorted(s', x, key);
      InsertAscPerm(s', x, key);
      var t := InsertAsc(s', x, key);
      LexTotal(key(y), key(x));
      forall i | 0 <= i < |t|
        ensures LexLe(key(t[i]), key(y))
      {
        assert t[i] in multiset(t);
        if t[i] != x {
          assert t[i] in multiset(s');
          var j :| 0 <= j < |s'| && s'[j] == t[i];
          assert s[j] == t[i];
        }
      }
      assert InsertAsc(s, x, key) == t + [y];
    }
  }

  /** Insertion lets `x` follow the elements of its own key. */
  lemma {:induction false} InsertAscStable<T>(s: seq<T>, x: T, key: T -> string, k: string)
    requires SortedAsc(s, key)
    ensures KeyedBy(InsertAsc(s, x, key), key, k) == KeyedBy(s, key, k) + (if key(x) == k then [x] else [])
    decreases |s|
  {
    if s == [] {
      assert InsertAsc(s, x, key) == [] + [x];
      KeyedBySnoc([], x, key, k);
    } else if LexLe(key(s[|s| - 1]), key(x)) {
      KeyedBySnoc(s, x, key, k);
    } else {
      var s' := s[..|s| - 1];
      var y := s[|s| - 1];
      assert SortedAsc(s', key);
      InsertAscStable(s', x, key, k);
      assert InsertAsc(s, x, key) == InsertAsc(s', x, key) + [y];
      KeyedBySnoc(InsertAsc(s', x, key), y, key, k);
      assert s == s' + [y];
      KeyedBySnoc(s', y, key, k);
      if key(y) == k {
        // every element of key k sorts after x's key, so x is not of key k
        assert key(x) != k by { LexReflexive(k); }
        assert KeyedBy(s, key, k) == KeyedBy(s', key, k) + [y];
      }
    }
  }

  /**
   * The sort is sorted, a permutation, and stable: the elements of any one
   * key come out in their original order.
   */
  lemma {:induction false} SortAscProps<T>(s: seq<T>, key: T -> string)
    ensures SortedAsc(SortAsc(s, key), key)
    ensures multiset(SortAsc(s, key)) == multiset(s)
    ensures forall k :: KeyedBy(SortAsc(s, key), key, k) == KeyedBy(s, key, k)
    decreases |s|
  {
    if s != [] {
      var s' := s[..|s| - 1];
      var x := s[|s| - 1];
      SortAscProps(s', key);
      InsertAscPerm(SortAsc(s', key), x, key);
      InsertAscSorted(SortAsc(s', key), x, key);
      assert s == s' + [x];
      forall k
        ensures KeyedBy(SortAsc(s, key), key, k) == KeyedBy(s, key, k)
      {
        InsertAscStable(SortAsc(s', key), x, key, k);
      }
    }
  }

  /** The insertion point: everything from `j` on has a key above that of `x`, the element before it does not. */
  lemma {:induction false} InsertAscAt<T>(s: seq<T>, x: T, key: T -> string, j: nat)
    requires j <= |s|
    requires forall i :: j <= i < |s| ==> !LexLe(key(s[i]), key(x))
    requires j == 0 || LexLe(key(s[j - 1]), key(x))
    ensures InsertAsc(s, x, key) == s[..j] + [x] + s[j..]
    decreases |s|
  {
    if s == [] {
    } else if j == |s| {
      assert s[..j] == s;
    } else {
      var s' := s[..|s| - 1];
      var y := s[|s| - 1];
      assert !LexLe(key(y), key(x));
      assert InsertAsc(s, x, key) == InsertAsc(s', x, key) + [y];
      assert forall i :: j <= i < |s'| ==> s'[i] == s[i];
      InsertAscAt(s', x, key, j);
      assert s'[..j] == s[..j];
      assert s[j..] == s'[j..] + [y];
    }
  }

  /** `sorted(s, key=...)`: insertion sort, scanning back from the end for each element's place. */
  method SortAscBy<T>(s: seq<T>, key: T -> string) returns (r: seq<T>)
    ensures r == SortAsc(s, key)
    ensures SortedAsc(r, key) && multiset(r) == multiset(s)
    ensures forall k :: KeyedBy(r, key, k) == KeyedBy(s, key, k)
  {
    r := [];
    for i := 0 to |s|
      invariant r == SortAsc(s[..i], key)
    {
      var x := s[i];
      var j := |r|;
      while j > 0 && !LexLe(key(r[j - 1]), key(x))
        invariant 0 <= j <= |r|
        invariant forall i' :: j <= i' < |r| ==> !LexLe(key(r[i']), key(x))
      {
        j := j - 1;
      }
      InsertAscAt(r, x, key, j);
      assert s[..i + 1][..i] == s[..i];
      r := r[..j] + [x] + r[j..];
    }
    assert s[..|s|] == s;
    SortAscProps(s, key);
  }
}
