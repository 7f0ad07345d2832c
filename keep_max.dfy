/**
 * Keeping, per key, the entry with the largest score seen so far:
 *   `if k not in d or score(v) > score(d[k]): d[k] = v`    (ties keep the earlier entry)
 *   `if k in d and score(v) < score(d[k]): continue; d[k] = v`    (ties take the later one)
 * Also the order in which a dict first sees its keys.
 */
module KeepMax {

  /** A new score displaces the stored one: when greater, and also when equal if `onTie`. */
  predicate Beats(n: int, o: int, onTie: bool)
  {
    n > o || (onTie && n == o)
  }

  /** One update of the dict. */
  function Put<K, V>(d: map<K, V>, k: K, v: V, score: V -> int, onTie: bool): (r: map<K, V>)
    ensures r.Keys == d.Keys + {k}
  {
    if k !in d || Beats(score(v), score(d[k]), onTie) then d[k := v] else d
  }

  /** The dict after every entry of `kvs`, in order, starting from `{}`. */
  function PutAll<K, V>(kvs: seq<(K, V)>, score: V -> int, onTie: bool): map<K, V>
  {
    if kvs == [] then map[]
    else Put(PutAll(kvs[..|kvs| - 1], score, onTie), kvs[|kvs| - 1].0, kvs[|kvs| - 1].1, score, onTie)
  }

  /**
   * Entry `i` is the one kept for `k`: it has the largest score of `k`'s
   * entries, and is the first such (`onTie` false) or the last (`onTie` true).
   */
  ghost predicate Kept<K, V>(kvs: seq<(K, V)>, k: K, i: int, score: V -> int, onTie: bool)
  {
    0 <= i < |kvs| && kvs[i].0 == k
    && (forall j :: 0 <= j < |kvs| && kvs[j].0 == k ==> score(kvs[j].1) <= score(kvs[i].1))
    && (if onTie then forall j :: i < j < |kvs| && kvs[j].0 == k ==> score(kvs[j].1) < score(kvs[i].1)
        else forall j :: 0 <= j < i && kvs[j].0 == k ==> score(kvs[j].1) < score(kvs[i].1))
  }

  /** Key `k` occurs in `kvs`. */
  ghost predicate Seen<K, V>(kvs: seq<(K, V)>, k: K)
  {
    exists i :: 0 <= i < |kvs| && kvs[i].0 == k
  }

  /** The dict holds exactly the keys seen. */
  lemma {:induction false} PutAllKeys<K, V>(kvs: seq<(K, V)>, score: V -> int, onTie: bool)
    ensures forall k :: k in PutAll(kvs, score, onTie) <==> Seen(kvs, k)
    decreases |kvs|
  {
    if kvs != [] {
      var pre := kvs[..|kvs| - 1];
      PutAllKeys(pre, score, onTie);
      forall k
        ensures k in PutAll(kvs, score, onTie) <==> exists i :: 0 <= i < |kvs| && kvs[i].0 == k
      {
        if k in PutAll(pre, score, onTie) {
          var i :| 0 <= i < |pre| && pre[i].0 == k;
          assert kvs[i].0 == k;
        }
        if k != kvs[|kvs| - 1].0 && (exists i :: 0 <= i < |kvs| && kvs[i].0 == k) {
          var i :| 0 <= i < |kvs| && kvs[i].0 == k;
          assert pre[i].0 == k;
        }
      }
    }
  }

  /** Each key holds the entry the tie rule keeps. */
  lemma {:induction false} PutAllKept<K, V>(kvs: seq<(K, V)>, score: V -> int, onTie: bool)
    ensures forall k :: k in PutAll(kvs, score, onTie) ==>
      exists i :: Kept(kvs, k, i, score, onTie) && PutAll(kvs, score, onTie)[k] == kvs[i].1
    decreases |kvs|
  {
    if kvs != [] {
      var pre := kvs[..|kvs| - 1];
      PutAllKept(pre, score, onTie);
      PutAllKeys(pre, score, onTie);
      forall k | k in PutAll(kvs, score, onTie)
        ensures exists i :: Kept(kvs, k, i, score, onTie) && PutAll(kvs, score, onTie)[k] == kvs[i].1
      {
        KeptStep(kvs, k, score, onTie);
      }
    }
  }

  /** The step of PutAllKept for one key. */
  lemma {:induction false} KeptStep<K, V>(kvs: seq<(K, V)>, k: K, score: V -> int, onTie: bool)
    requires kvs != [] && k in PutAll(kvs, score, onTie)
    requires var pre := kvs[..|kvs| - 1];
      (forall k :: k in PutAll(pre, score, onTie) <==> exists i :: 0 <= i < |pre| && pre[i].0 == k)
      && (forall k :: k in PutAll(pre, score, onTie) ==>
        exists i :: Kept(pre, k, i, score, onTie) && PutAll(pre, score, onTie)[k] == pre[i].1)
    ensures exists i :: Kept(kvs, k, i, score, onTie) && PutAll(kvs, score, onTie)[k] == kvs[i].1
  {
    var pre := kvs[..|kvs| - 1];
    var n := |kvs| - 1;
    var d := PutAll(pre, score, onTie);
    assert PutAll(kvs, score, onTie) == Put(d, kvs[n].0, kvs[n].1, score, onTie);
    if k !in d {
      forall j | 0 <= j < n
        ensures kvs[j].0 != k
      {
        assert kvs[j] == pre[j];
      }
      KeptNew(kvs, k, score, onTie);
    } else {
      var i :| Kept(pre, k, i, score, onTie) && d[k] == pre[i].1;
      if k != kvs[n].0 || !Beats(score(kvs[n].1), score(d[k]), onTie) {
        KeptStays(kvs, k, i, score, onTie);
      } else {
        KeptReplaced(kvs, k, i, score, onTie);
      }
    }
  }

  lemma {:induction false} KeptNew<K, V>(kvs: seq<(K, V)>, k: K, score: V -> int, onTie: bool)
    requires kvs != [] && kvs[|kvs| - 1].0 == k
    requires forall j :: 0 <= j < |kvs| - 1 ==> kvs[j].0 != k
    ensures Kept(kvs, k, |kvs| - 1, score, onTie)
  {
  }

  lemma {:induction false} KeptStays<K, V>(kvs: seq<(K, V)>, k: K, i: int, score: V -> int, onTie: bool)
    requires kvs != [] && Kept(kvs[..|kvs| - 1], k, i, score, onTie)
    requires var (k', v') := kvs[|kvs| - 1];
      k' != k || !Beats(score(v'), score(kvs[i].1), onTie)
    ensures Kept(kvs, k, i, score, onTie)
  {
    var pre := kvs[..|kvs| - 1];
    assert forall j :: 0 <= j < |pre| ==> kvs[j] == pre[j];
  }

  lemma {:induction false} KeptReplaced<K, V>(kvs: seq<(K, V)>, k: K, i: int, score: V -> int, onTie: bool)
    requires kvs != [] && Kept(kvs[..|kvs| - 1], k, i, score, onTie)
    requires var (k', v') := kvs[|kvs| - 1];
      k' == k && Beats(score(v'), score(kvs[i].1), onTie)
    ensures Kept(kvs, k, |kvs| - 1, score, onTie)
  {
    var pre := kvs[..|kvs| - 1];
    assert forall j :: 0 <= j < |pre| ==> kvs[j] == pre[j];
  }

  /** The keys of `kvs` in the order a dict first sees them (its iteration order). */
  function FirstSeen<K(==), V>(kvs: seq<(K, V)>): (r: seq<K>)
  {
    if kvs == [] then []
    else
      var pre := FirstSeen(kvs[..|kvs| - 1]);
      if kvs[|kvs| - 1].0 in pre then pre else pre + [kvs[|kvs| - 1].0]
  }

  /** Each key seen appears once. */
  lemma {:induction false} FirstSeenKeys<K, V>(kvs: seq<(K, V)>)
    ensures forall k :: k in FirstSeen(kvs) <==> Seen(kvs, k)
    ensures forall a, b :: 0 <= a < b < |FirstSeen(kvs)| ==> FirstSeen(kvs)[a] != FirstSeen(kvs)[b]
    decreases |kvs|
  {
    if kvs != [] {
      var pre := kvs[..|kvs| - 1];
      FirstSeenKeys(pre);
      forall k
        ensures k in FirstSeen(kvs) <==> exists i :: 0 <= i < |kvs| && kvs[i].0 == k
      {
        if k in FirstSeen(pre) {
          var i :| 0 <= i < |pre| && pre[i].0 == k;
          assert kvs[i].0 == k;
        }
        if exists i :: 0 <= i < |kvs| && kvs[i].0 == k {
          var i :| 0 <= i < |kvs| && kvs[i].0 == k;
          if i < |pre| {
            assert pre[i].0 == k;
          }
        }
      }
    }
  }

  /** `d[k] = v` for each pair in order: the tie rule with one score for all, so a later pair always wins. */
  function Assign<K, V>(kvs: seq<(K, V)>): map<K, V>
  {
    PutAll(kvs, (v: V) => 0, true)
  }

  lemma {:induction false} AssignSnoc<K, V>(kvs: seq<(K, V)>, k: K, v: V)
    ensures Assign(kvs + [(k, v)]) == Assign(kvs)[k := v]
  {
    assert (kvs + [(k, v)])[..|kvs|] == kvs;
  }

  /** A key holds the value of its last pair. */
  lemma {:induction false} AssignLast<K, V>(kvs: seq<(K, V)>, k: K)
    ensures k in Assign(kvs) <==> exists i :: 0 <= i < |kvs| && kvs[i].0 == k
    ensures k in Assign(kvs) ==>
      exists i :: 0 <= i < |kvs| && kvs[i].0 == k && Assign(kvs)[k] == kvs[i].1 && forall j :: i < j < |kvs| ==> kvs[j].0 != k
  {
    PutAllKeys(kvs, (v: V) => 0, true);
    PutAllKept(kvs, (v: V) => 0, true);
  }
}
