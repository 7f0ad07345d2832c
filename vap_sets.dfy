/**
 * The per-AP VAP set shared by the nttbp-* scripts. An AP (one row of the AP
 * database) broadcasts the VAPs of its ap-group, minus those its ap-name
 * excludes, plus the ap-name's own VAPs. Each VAP is identified by the tuple
 * (essid, opmode, forward-mode), so two VAPs with the same tuple (the
 * 2.4 GHz and 5 GHz twins) count once. Also here: the counting dictionaries
 * (`d[k] += 1` for every key of a set) the scripts keep across APs.
 */
module VapSets {
  import opened Wrappers
  import opened AosConfig

  /** (vap.ssid_prof.ssid, vap.ssid_prof.opmode, vap.fwd_mode) */
  datatype VapKey = VapKey(ssid: string, opmode: string, fwdMode: string)

  /** The tuple of a VAP; None for the AttributeError of a VAP without ssid-profile. */
  function KeyOf(vap: Vap): (r: Option<VapKey>)
    ensures r.Some? <==> vap.ssidProf.Some?
    ensures r.Some? ==> r.value.ssid == vap.ssidProf.value.ssid && r.value.fwdMode == vap.fwdMode
  {
    match vap.ssidProf
    case None => None
    case Some(s) => Some(VapKey(s.ssid, s.opmode, vap.fwdMode))
  }

  /** Whether a VAP enters the set: disabled VAPs are skipped when `skipDisabled`. */
  predicate Counted(vap: Vap, skipDisabled: bool)
  {
    !(skipDisabled && vap.disabled)
  }

  /** Some VAP of `vaps` that enters the set has tuple `t`. */
  predicate Carries(vaps: seq<Vap>, skipDisabled: bool, t: VapKey)
  {
    exists i :: 0 <= i < |vaps| && Counted(vaps[i], skipDisabled) && KeyOf(vaps[i]) == Some(t)
  }

  /** Every VAP of `vaps` that enters the set has an ssid-profile. */
  predicate AllKeyed(vaps: seq<Vap>, skipDisabled: bool)
  {
    forall i :: 0 <= i < |vaps| && Counted(vaps[i], skipDisabled) ==> vaps[i].ssidProf.Some?
  }

  /** The tuples of `vaps`, added one VAP at a time; None when a counted VAP has no ssid-profile. */
  function KeysOf(vaps: seq<Vap>, skipDisabled: bool): Option<set<VapKey>>
    decreases |vaps|
  {
    if vaps == [] then Some({})
    else
      var v := vaps[|vaps| - 1];
      match KeysOf(vaps[..|vaps| - 1], skipDisabled)
      case None => None
      case Some(s) =>
        if !Counted(v, skipDisabled) then Some(s)
        else (match KeyOf(v)
          case None => None
          case Some(k) => Some(s + {k}))
  }

  /** KeysOf fails exactly on a counted VAP without ssid-profile, and otherwise holds exactly the carried tuples. */
  lemma {:induction false} KeysOfMembers(vaps: seq<Vap>, skipDisabled: bool)
    ensures KeysOf(vaps, skipDisabled).Some? <==> AllKeyed(vaps, skipDisabled)
    ensures KeysOf(vaps, skipDisabled).Some? ==>
      forall t :: t in KeysOf(vaps, skipDisabled).value <==> Carries(vaps, skipDisabled, t)
  {
    KeysOfDefined(vaps, skipDisabled);
    if KeysOf(vaps, skipDisabled).Some? {
      forall t
        ensures t in KeysOf(vaps, skipDisabled).value <==> Carries(vaps, skipDisabled, t)
      {
        KeysOfHas(vaps, skipDisabled, t);
      }
    }
  }

  /** KeysOf fails exactly on a counted VAP without ssid-profile. */
  lemma {:induction false} KeysOfDefined(vaps: seq<Vap>, skipDisabled: bool)
    ensures KeysOf(vaps, skipDisabled).Some? <==> AllKeyed(vaps, skipDisabled)
    decreases |vaps|
  {
    if vaps != [] {
      var n := |vaps| - 1;
      var p := vaps[..n];
      KeysOfDefined(p, skipDisabled);
      if AllKeyed(vaps, skipDisabled) {
        forall i | 0 <= i < n && Counted(p[i], skipDisabled)
          ensures p[i].ssidProf.Some?
        {
          assert p[i] == vaps[i];
        }
      } else {
        var i :| 0 <= i < |vaps| && Counted(vaps[i], skipDisabled) && vaps[i].ssidProf.None?;
        if i < n {
          assert p[i] == vaps[i];
        }
      }
    }
  }

  /** A tuple is in KeysOf exactly when a counted VAP carries it. */
  lemma {:induction false} KeysOfHas(vaps: seq<Vap>, skipDisabled: bool, t: VapKey)
    requires KeysOf(vaps, skipDisabled).Some?
    ensures t in KeysOf(vaps, skipDisabled).value <==> Carries(vaps, skipDisabled, t)
    decreases |vaps|
  {
    if vaps != [] {
      var n := |vaps| - 1;
      var p := vaps[..n];
      KeysOfHas(p, skipDisabled, t);
      CarriesSnoc(vaps, skipDisabled, t);
    }
  }

  /** A tuple carried by `vaps` is carried by all but the last VAP or by the last one. */
  lemma {:induction false} CarriesSnoc(vaps: seq<Vap>, skipDisabled: bool, t: VapKey)
    requires vaps != []
    ensures Carries(vaps, skipDisabled, t) <==>
      Carries(vaps[..|vaps| - 1], skipDisabled, t)
      || (Counted(vaps[|vaps| - 1], skipDisabled) && KeyOf(vaps[|vaps| - 1]) == Some(t))
  {
    var n := |vaps| - 1;
    var p := vaps[..n];
    if Carries(vaps, skipDisabled, t) {
      var i :| 0 <= i < |vaps| && Counted(vaps[i], skipDisabled) && KeyOf(vaps[i]) == Some(t);
      if i < n {
        assert p[i] == vaps[i];
      }
    }
    if Carries(p, skipDisabled, t) {
      var i :| 0 <= i < n && Counted(p[i], skipDisabled) && KeyOf(p[i]) == Some(t);
      assert p[i] == vaps[i];
    }
  }

  /** `c.vap_profs[vap_n]` for every name, or None for the KeyError of an undefined one. */
  function Lookup(vapProfs: map<string, Vap>, names: seq<string>): (r: Option<seq<Vap>>)
    ensures r.Some? <==> forall j :: 0 <= j < |names| ==> names[j] in vapProfs
    ensures r.Some? ==> |r.value| == |names| && forall j :: 0 <= j < |names| ==> r.value[j] == vapProfs[names[j]]
    decreases |names|
  {
    if names == [] then Some([])
    else if names[0] !in vapProfs then None
    else match Lookup(vapProfs, names[1..])
      case None => None
      case Some(rest) => Some([vapProfs[names[0]]] + rest)
  }

  /** The tuples the exclude-virtual-ap names stand for; disabled or not, each is discarded. */
  function ExcludedKeys(vapProfs: map<string, Vap>, names: seq<string>): Option<set<VapKey>>
  {
    match Lookup(vapProfs, names)
    case None => None
    case Some(vaps) => KeysOf(vaps, false)
  }

  /**
   * The VAP set of the AP named `apn` in ap-group `apg`: None for the
   * KeyError of an undefined ap-group or excluded VAP, or a VAP without
   * ssid-profile.
   */
  function ApKeys(c: Config, apg: string, apn: string, skipDisabled: bool): Option<set<VapKey>>
  {
    if apg !in c.apGroups then None
    else match KeysOf(c.apGroups[apg].vaps, skipDisabled)
      case None => None
      case Some(g) =>
        if apn !in c.apNames then Some(g)
        else (match ExcludedKeys(c.vaps, c.apNames[apn].excludeVaps)
          case None => None
          case Some(x) =>
            (match KeysOf(c.apNames[apn].vaps, skipDisabled)
              case None => None
              case Some(n) => Some(g - x + n)))
  }

  /** One of the ap-name's exclude-virtual-ap names is a defined VAP with tuple `t`. */
  predicate ExcludesKey(c: Config, apn: string, t: VapKey)
    requires apn in c.apNames
  {
    var names := c.apNames[apn].excludeVaps;
    exists j :: 0 <= j < |names| && names[j] in c.vaps && KeyOf(c.vaps[names[j]]) == Some(t)
  }

  /**
   * What the VAP set holds: a tuple is on the AP when a counted VAP of the
   * ap-group carries it and no excluded VAP has it, or when a counted VAP of
   * the ap-name carries it (the ap-name's own VAPs win over its exclusions).
   */
  lemma {:induction false} ApKeysMembers(c: Config, apg: string, apn: string, skipDisabled: bool, t: VapKey)
    requires ApKeys(c, apg, apn, skipDisabled).Some?
    ensures t in ApKeys(c, apg, apn, skipDisabled).value <==>
      (Carries(c.apGroups[apg].vaps, skipDisabled, t) && !(apn in c.apNames && ExcludesKey(c, apn, t)))
      || (apn in c.apNames && Carries(c.apNames[apn].vaps, skipDisabled, t))
  {
    KeysOfMembers(c.apGroups[apg].vaps, skipDisabled);
    if apn in c.apNames {
      var names := c.apNames[apn].excludeVaps;
      var vaps := Lookup(c.vaps, names).value;
      KeysOfMembers(vaps, false);
      KeysOfMembers(c.apNames[apn].vaps, skipDisabled);
      if ExcludesKey(c, apn, t) {
        var j :| 0 <= j < |names| && names[j] in c.vaps && KeyOf(c.vaps[names[j]]) == Some(t);
        assert Counted(vaps[j], false) && KeyOf(vaps[j]) == Some(t);
      }
      if Carries(vaps, false, t) {
        var j :| 0 <= j < |vaps| && Counted(vaps[j], false) && KeyOf(vaps[j]) == Some(t);
        assert names[j] in c.vaps && KeyOf(c.vaps[names[j]]) == Some(t);
      }
    }
  }

  /** The first loop of every script: the tuples of the (counted) VAPs, in list order. */
  method CollectKeys(vaps: seq<Vap>, skipDisabled: bool) returns (r: Option<set<VapKey>>)
    ensures r == KeysOf(vaps, skipDisabled)
  {
    var s: set<VapKey> := {};
    var k := 0;
    while k < |vaps|
      invariant 0 <= k <= |vaps|
      invariant KeysOf(vaps[..k], skipDisabled) == Some(s)
    {
      assert vaps[..k + 1][..k] == vaps[..k];
      var v := vaps[k];
      if Counted(v, skipDisabled) {
        if v.ssidProf.None? {
          KeysNoneSticks(vaps, skipDisabled, k + 1);
          return None;
        }
        s := s + {VapKey(v.ssidProf.value.ssid, v.ssidProf.value.opmode, v.fwdMode)};
      }
      k := k + 1;
    }
    assert vaps[..k] == vaps;
    r := Some(s);
  }

  /** Once a prefix fails, every longer prefix fails. */
  lemma {:induction false} KeysNoneSticks(vaps: seq<Vap>, skipDisabled: bool, k: nat)
    requires k <= |vaps| && KeysOf(vaps[..k], skipDisabled).None?
    ensures KeysOf(vaps, skipDisabled).None?
    decreases |vaps| - k
  {
    if k < |vaps| {
      assert vaps[..k + 1][..k] == vaps[..k];
      KeysNoneSticks(vaps, skipDisabled, k + 1);
    } else {
      assert vaps[..k] == vaps;
    }
  }

  /** The exclude loop: `vap_set.discard(k)` for the tuple of every named VAP. */
  method DiscardExcluded(s0: set<VapKey>, vapProfs: map<string, Vap>, names: seq<string>) returns (r: Option<set<VapKey>>)
    ensures ExcludedKeys(vapProfs, names).None? ==> r.None?
    ensures ExcludedKeys(vapProfs, names).Some? ==> r == Some(s0 - ExcludedKeys(vapProfs, names).value)
  {
    var s := s0;
    var k := 0;
    ghost var x: set<VapKey> := {};
    while k < |names|
      invariant 0 <= k <= |names|
      invariant ExcludedKeys(vapProfs, names[..k]) == Some(x) && s == s0 - x
    {
      var n := names[k];
      assert names[..k + 1][..k] == names[..k];
      if n !in vapProfs || vapProfs[n].ssidProf.None? {
        ExcludedNoneSticks(vapProfs, names, k);
        return None;
      }
      var v := vapProfs[n];
      var t := VapKey(v.ssidProf.value.ssid, v.ssidProf.value.opmode, v.fwdMode);
      ExcludedStep(vapProfs, names, k);
      s := s - {t};
      x := x + {t};
      k := k + 1;
    }
    assert names[..k] == names;
    r := Some(s);
  }

  lemma {:induction false} ExcludedStep(vapProfs: map<string, Vap>, names: seq<string>, k: nat)
    requires k < |names| && names[k] in vapProfs && vapProfs[names[k]].ssidProf.Some?
    requires ExcludedKeys(vapProfs, names[..k]).Some?
    ensures ExcludedKeys(vapProfs, names[..k + 1]) == Some(ExcludedKeys(vapProfs, names[..k]).value + {KeyOf(vapProfs[names[k]]).value})
  {
    var p := names[..k];
    var q := names[..k + 1];
    var vp := Lookup(vapProfs, p).value;
    var vq := Lookup(vapProfs, q).value;
    assert vq[..k] == vp;
  }

  lemma {:induction false} ExcludedNoneSticks(vapProfs: map<string, Vap>, names: seq<string>, k: nat)
    requires k < |names| && (names[k] !in vapProfs || vapProfs[names[k]].ssidProf.None?)
    ensures ExcludedKeys(vapProfs, names).None?
  {
    if Lookup(vapProfs, names).Some? {
      var vaps := Lookup(vapProfs, names).value;
      KeysOfMembers(vaps, false);
      assert Counted(vaps[k], false) && vaps[k].ssidProf.None?;
    }
  }

  /** The three loops that build an AP's VAP set, in the scripts' order. */
  method ApKeySet(c: Config, apg: string, apn: string, skipDisabled: bool) returns (r: Option<set<VapKey>>)
    ensures r == ApKeys(c, apg, apn, skipDisabled)
  {
    if apg !in c.apGroups {
      return None;
    }
    var g := CollectKeys(c.apGroups[apg].vaps, skipDisabled);
    if g.None? || apn !in c.apNames {
      return g;
    }
    var s := DiscardExcluded(g.value, c.vaps, c.apNames[apn].excludeVaps);
    if s.None? {
      return None;
    }
    var n := CollectKeys(c.apNames[apn].vaps, skipDisabled);
    if n.None? {
      return None;
    }
    r := Some(s.value + n.value);
  }

  /*
   * Counting dictionaries
   */

  /** `d.get(k, set())` */
  function SetOf<K, V>(m: map<K, set<V>>, k: K): set<V> { if k in m then m[k] else {} }

  /** `d.get(k, 0)` */
  function Count<K>(d: map<K, nat>, k: K): nat
  {
    if k in d then d[k] else 0
  }

  /** `for i in s: d[i] = d.get(i, 0) + 1`: one more for every key of `s`, a new entry for a new key. */
  function Bump<K>(d: map<K, nat>, s: set<K>): map<K, nat>
  {
    map k | k in d.Keys + s :: Count(d, k) + (if k in s then 1 else 0)
  }

  /** In how many of the sets `k` occurs. */
  function Occ<K>(sets: seq<set<K>>, k: K): nat
    decreases |sets|
  {
    if sets == [] then 0
    else Occ(sets[..|sets| - 1], k) + (if k in sets[|sets| - 1] then 1 else 0)
  }

  /** Bump applied for every set in turn. */
  function BumpAll<K>(d: map<K, nat>, sets: seq<set<K>>): map<K, nat>
    decreases |sets|
  {
    if sets == [] then d else Bump(BumpAll(d, sets[..|sets| - 1]), sets[|sets| - 1])
  }

  /**
   * A counting dictionary after a run of APs counts, for every key, the APs
   * whose set holds it, and has an entry exactly for the keys it started
   * with or met.
   */
  lemma {:induction false} BumpAllCounts<K>(d: map<K, nat>, sets: seq<set<K>>, k: K)
    ensures Count(BumpAll(d, sets), k) == Count(d, k) + Occ(sets, k)
    ensures k in BumpAll(d, sets) <==> k in d || Occ(sets, k) > 0
    decreases |sets|
  {
    if sets != [] {
      BumpAllCounts(d, sets[..|sets| - 1], k);
    }
  }

  /** The counting loop over one AP's set, in whatever order the set is walked. */
  method Tally<K>(d: map<K, nat>, s: set<K>) returns (r: map<K, nat>)
    ensures r == Bump(d, s)
  {
    r := d;
    var rest := s;
    while rest != {}
      invariant rest <= s
      invariant r.Keys == d.Keys + (s - rest)
      invariant forall k :: k in r ==> r[k] == Count(d, k) + (if k in s - rest then 1 else 0)
      decreases rest
    {
      var k :| k in rest;
      r := r[k := Count(r, k) + 1];
      rest := rest - {k};
    }
  }
}
