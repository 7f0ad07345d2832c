/**
 * `uniq(tbl, col)`, defined in several of the analysis scripts: the rows
 * of a table, keeping only the first row for each value of one column.
 */
module Uniq {

  /** The keys of the elements of `xs`. */
  function Keys<T, K>(xs: seq<T>, key: T -> K): set<K>
  {
    set i | 0 <= i < |xs| :: key(xs[i])
  }

  /** `xs[i]` is the first element with its key. */
  predicate FirstOfKey<T, K(==)>(xs: seq<T>, key: T -> K, i: int)
    requires 0 <= i < |xs|
  {
    forall j :: 0 <= j < i ==> key(xs[j]) != key(xs[i])
  }

  /** The elements whose key no earlier element has, in order. */
  function Uniq<T, K(==)>(xs: seq<T>, key: T -> K): seq<T>
  {
    if xs == [] then []
    else
      var pre := xs[..|xs| - 1];
      Uniq(pre, key) + (if key(xs[|xs| - 1]) in Keys(pre, key) then [] else [xs[|xs| - 1]])
  }

  /** The column `col` of a row, the key of `uniq(tbl, col)`. */
  function Cell(col: nat): seq<string> -> string
  {
    (r: seq<string>) => if col < |r| then r[col] else ""
  }

  lemma {:induction false} KeysSnoc<T, K>(xs: seq<T>, x: T, key: T -> K)
    ensures Keys(xs + [x], key) == Keys(xs, key) + {key(x)}
  {
    var ys := xs + [x];
    forall k | k in Keys(ys, key)
      ensures k in Keys(xs, key) + {key(x)}
    {
      var i :| 0 <= i < |ys| && key(ys[i]) == k;
      if i < |xs| {
        assert key(xs[i]) == k;
      }
    }
    forall k | k in Keys(xs, key)
      ensures k in Keys(ys, key)
    {
      var i :| 0 <= i < |xs| && key(xs[i]) == k;
      assert key(ys[i]) == k;
    }
    assert key(ys[|xs|]) == key(x);
  }

  /** The loop of `uniq`: a seen-set of keys and the rows kept. */
  method UniqBy<T, K(==)>(xs: seq<T>, key: T -> K) returns (r: seq<T>)
    ensures r == Uniq(xs, key)
  {
    r := [];
    var seen: set<K> := {};
    for i := 0 to |xs|
      invariant r == Uniq(xs[..i], key)
      invariant seen == Keys(xs[..i], key)
    {
      assert xs[..i + 1][..i] == xs[..i];
      KeysSnoc(xs[..i], xs[i], key);
      assert xs[..i] + [xs[i]] == xs[..i + 1];
      if key(xs[i]) in seen {
        continue;
      }
      seen := seen + {key(xs[i])};
      r := r + [xs[i]];
    }
    assert xs[..|xs|] == xs;
  }

  /**
   * `uniq` keeps a subsequence: the elements at increasing positions
   * `idx`, which are exactly the positions of the first element of each
   * key.
   */
  lemma {:induction false} UniqPositions<T, K>(xs: seq<T>, key: T -> K) returns (idx: seq<nat>)
    ensures |idx| == |Uniq(xs, key)|
    ensures forall a, b :: 0 <= a < b < |idx| ==> idx[a] < idx[b]
    ensures forall j :: 0 <= j < |idx| ==> idx[j] < |xs| && Uniq(xs, key)[j] == xs[idx[j]] && FirstOfKey(xs, key, idx[j])
    ensures forall i :: 0 <= i < |xs| && FirstOfKey(xs, key, i) ==> i in idx
    decreases |xs|
  {
    if xs == [] {
      return [];
    }
    var n := |xs| - 1;
    var pre := xs[..n];
    var p := UniqPositions(pre, key);
    forall j | 0 <= j < |p|
      ensures FirstOfKey(xs, key, p[j])
    {
      assert FirstOfKey(pre, key, p[j]);
    }
    if key(xs[n]) in Keys(pre, key) {
      idx := p;
      forall i | 0 <= i < |xs| && FirstOfKey(xs, key, i)
        ensures i in idx
      {
        if i < n {
          assert FirstOfKey(pre, key, i);
        }
      }
    } else {
      idx := p + [n];
      assert FirstOfKey(xs, key, n) by {
        forall j | 0 <= j < n
          ensures key(xs[j]) != key(xs[n])
        {
          assert key(pre[j]) in Keys(pre, key);
        }
      }
      forall i | 0 <= i < |xs| && FirstOfKey(xs, key, i)
        ensures i in idx
      {
        if i < n {
          assert FirstOfKey(pre, key, i);
        }
      }
    }
  }

  /** No two elements `uniq` keeps share a key. */
  lemma {:induction false} UniqDistinct<T, K>(xs: seq<T>, key: T -> K)
    ensures forall a, b :: 0 <= a < b < |Uniq(xs, key)| ==> key(Uniq(xs, key)[a]) != key(Uniq(xs, key)[b])
  {
    var idx := UniqPositions(xs, key);
    var r := Uniq(xs, key);
    forall a, b | 0 <= a < b < |r|
      ensures key(r[a]) != key(r[b])
    {
      assert idx[a] < idx[b] && FirstOfKey(xs, key, idx[b]);
    }
  }

  /** Every key of the input is kept. */
  lemma {:induction false} UniqKeys<T, K>(xs: seq<T>, key: T -> K)
    ensures Keys(Uniq(xs, key), key) == Keys(xs, key)
  {
    var idx := UniqPositions(xs, key);
    var r := Uniq(xs, key);
    forall k | k in Keys(xs, key)
      ensures k in Keys(r, key)
    {
      var i :| 0 <= i < |xs| && key(xs[i]) == k;
      var f := FirstWith(xs, key, i);
      var j :| 0 <= j < |idx| && idx[j] == f;
      assert key(r[j]) == k;
    }
    forall k | k in Keys(r, key)
      ensures k in Keys(xs, key)
    {
      var j :| 0 <= j < |r| && key(r[j]) == k;
      assert key(xs[idx[j]]) == k;
    }
  }

  /** The first position with the key of `xs[i]`. */
  lemma {:induction false} FirstWith<T, K>(xs: seq<T>, key: T -> K, i: nat) returns (f: nat)
    requires i < |xs|
    ensures f <= i && key(xs[f]) == key(xs[i]) && FirstOfKey(xs, key, f)
    decreases i
  {
    if FirstOfKey(xs, key, i) {
      return i;
    }
    var j :| 0 <= j < i && key(xs[j]) == key(xs[i]);
    f := FirstWith(xs, key, j);
  }

  /** The first element, the header of a table, is always kept, and kept first. */
  lemma {:induction false} UniqHead<T, K>(xs: seq<T>, key: T -> K)
    requires xs != []
    ensures Uniq(xs, key) != [] && Uniq(xs, key)[0] == xs[0]
  {
    var idx := UniqPositions(xs, key);
    assert FirstOfKey(xs, key, 0);
    assert 0 in idx;
  }

  /** `uniq` keeps one element per distinct key: as many as there are keys. */
  lemma {:induction false} UniqSize<T, K>(xs: seq<T>, key: T -> K)
    ensures |Uniq(xs, key)| == |Keys(xs, key)|
    decreases |xs|
  {
    if xs != [] {
      var pre := xs[..|xs| - 1];
      var x := xs[|xs| - 1];
      UniqSize(pre, key);
      KeysSnoc(pre, x, key);
      assert pre + [x] == xs;
      if key(x) in Keys(pre, key) {
        assert Keys(xs, key) == Keys(pre, key);
      } else {
        assert |Keys(xs, key)| == |Keys(pre, key)| + 1;
      }
    }
  }
}
