/**
 * `d[k] += w` on a `defaultdict(int)`: the per-key tallies the analysis
 * scripts keep, and their consistency with the items tallied.
 */
module Tally {
  import KeepMax
  import Counting

  /** `d[k]` on a defaultdict(int): 0 for a missing key. */
  function Get<K>(m: map<K, nat>, k: K): nat
  {
    if k in m then m[k] else 0
  }

  /** `d[k] += w`. */
  function Bump<K>(m: map<K, nat>, k: K, w: nat): map<K, nat>
  {
    m[k := Get(m, k) + w]
  }

  /** The dict after tallying each (key, weight) pair in order. */
  function Tally<K>(kws: seq<(K, nat)>): map<K, nat>
  {
    if kws == [] then map[] else Bump(Tally(kws[..|kws| - 1]), kws[|kws| - 1].0, kws[|kws| - 1].1)
  }

  /** The total weight of the pairs with key `k`. */
  function WeightOf<K(==)>(kws: seq<(K, nat)>, k: K): nat
  {
    if kws == [] then 0 else WeightOf(kws[..|kws| - 1], k) + (if kws[|kws| - 1].0 == k then kws[|kws| - 1].1 else 0)
  }

  /** The total weight of all pairs. */
  function Total<K>(kws: seq<(K, nat)>): nat
  {
    if kws == [] then 0 else Total(kws[..|kws| - 1]) + kws[|kws| - 1].1
  }

  /** The sum of the tallies of the keys `ks`. */
  function SumAt<K>(m: map<K, nat>, ks: seq<K>): nat
  {
    if ks == [] then 0 else SumAt(m, ks[..|ks| - 1]) + Get(m, ks[|ks| - 1])
  }

  /** Pairs of weight one: a plain counter. */
  function Ones<K>(ks: seq<K>): (r: seq<(K, nat)>)
    ensures |r| == |ks| && forall i :: 0 <= i < |ks| ==> r[i] == (ks[i], 1)
  {
    seq(|ks|, i requires 0 <= i < |ks| => (ks[i], 1))
  }

  lemma {:induction false} TallySnoc<K>(kws: seq<(K, nat)>, k: K, w: nat)
    ensures Tally(kws + [(k, w)]) == Bump(Tally(kws), k, w)
    ensures WeightOf(kws + [(k, w)], k) == WeightOf(kws, k) + w
    ensures Total(kws + [(k, w)]) == Total(kws) + w
  {
    assert (kws + [(k, w)])[..|kws|] == kws;
  }

  /**
   * Each key's tally is the total weight of its pairs, and the dict's keys
   * are exactly the keys tallied.
   */
  lemma {:induction false} TallyMeaning<K>(kws: seq<(K, nat)>)
    ensures forall k :: Get(Tally(kws), k) == WeightOf(kws, k)
    ensures forall k :: k in Tally(kws) ==> exists i :: 0 <= i < |kws| && kws[i].0 == k
    ensures forall i :: 0 <= i < |kws| ==> kws[i].0 in Tally(kws)
    decreases |kws|
  {
    if kws != [] {
      var pre := kws[..|kws| - 1];
      TallyMeaning(pre);
      forall i | 0 <= i < |pre|
        ensures kws[i].0 in Tally(kws)
      {
        assert pre[i].0 in Tally(pre);
      }
      forall k | k in Tally(kws)
        ensures exists i :: 0 <= i < |kws| && kws[i].0 == k
      {
        if k != kws[|kws| - 1].0 {
          assert k in Tally(pre);
          var i :| 0 <= i < |pre| && pre[i].0 == k;
          assert kws[i].0 == k;
        }
      }
    }
  }

  /** A key outside `ks` does not change their sum. */
  lemma {:induction false} SumAtFrame<K>(m: map<K, nat>, ks: seq<K>, k: K, v: nat)
    requires k !in ks
    ensures SumAt(m[k := v], ks) == SumAt(m, ks)
    decreases |ks|
  {
    if ks != [] {
      SumAtFrame(m, ks[..|ks| - 1], k, v);
    }
  }

  /** Raising a key that appears once in `ks` raises their sum by as much. */
  lemma {:induction false} SumAtBump<K>(m: map<K, nat>, ks: seq<K>, k: K, w: nat)
    requires forall a, b :: 0 <= a < b < |ks| ==> ks[a] != ks[b]
    requires k in ks
    ensures SumAt(Bump(m, k, w), ks) == SumAt(m, ks) + w
    decreases |ks|
  {
    var pre := ks[..|ks| - 1];
    if ks[|ks| - 1] == k {
      SumAtFrame(m, pre, k, Get(m, k) + w);
    } else {
      assert k in pre by {
        var a :| 0 <= a < |ks| && ks[a] == k;
        assert pre[a] == k;
      }
      SumAtBump(m, pre, k, w);
    }
  }

  /**
   * The tallies, summed over the keys in the order the dict first saw
   * them, add up to the total weight: nothing is lost or counted twice.
   */
  lemma {:induction false} TallyTotal<K>(kws: seq<(K, nat)>)
    ensures SumAt(Tally(kws), KeepMax.FirstSeen(kws)) == Total(kws)
    decreases |kws|
  {
    if kws != [] {
      var pre := kws[..|kws| - 1];
      var (k, w) := kws[|kws| - 1];
      TallyTotal(pre);
      KeepMax.FirstSeenKeys(pre);
      var ks := KeepMax.FirstSeen(pre);
      if k in ks {
        SumAtBump(Tally(pre), ks, k, w);
      } else {
        TallyMeaning(pre);
        assert Get(Tally(pre), k) == 0;
        SumAtFrame(Tally(pre), ks, k, w);
        assert (ks + [k])[..|ks|] == ks;
      }
    }
  }

  /** Counting each key once per occurrence: the counts add up to the number of items. */
  lemma {:induction false} CountTotal<K>(ks: seq<K>)
    ensures SumAt(Tally(Ones(ks)), KeepMax.FirstSeen(Ones(ks))) == |ks|
  {
    TallyTotal(Ones(ks));
    OnesTotal(ks);
  }

  lemma {:induction false} OnesTotal<K>(ks: seq<K>)
    ensures Total(Ones(ks)) == |ks|
    decreases |ks|
  {
    if ks != [] {
      OnesTotal(ks[..|ks| - 1]);
      assert Ones(ks)[..|ks| - 1] == Ones(ks[..|ks| - 1]);
    }
  }

  /** The test `x == k`. */
  function Is<K(==)>(k: K): K -> bool
  {
    x => x == k
  }

  /** A plain counter holds, for each key, the number of its occurrences. */
  lemma {:induction false} CountMeaning<K>(ks: seq<K>, k: K)
    ensures Get(Tally(Ones(ks)), k) == Counting.CountIf(ks, Is(k))
    decreases |ks|
  {
    TallyMeaning(Ones(ks));
    OnesWeight(ks, k);
  }

  lemma {:induction false} OnesWeight<K>(ks: seq<K>, k: K)
    ensures WeightOf(Ones(ks), k) == Counting.CountIf(ks, Is(k))
    decreases |ks|
  {
    if ks != [] {
      OnesWeight(ks[..|ks| - 1], k);
      assert Ones(ks)[..|ks| - 1] == Ones(ks[..|ks| - 1]);
    }
  }
}
