/**
 * The per-AP loop of nttbp-summarize.py: for every AP-database row, the
 * static-channel count, the AP's VAP set, the per-tuple AP counts, the
 * detection of APs that mix bridge and tunnelled VAPs, and the
 * co-existence counts (which tuples are broadcast by the same APs).
 */
module SummarizeAps {
  import opened Wrappers
  import opened Text
  import opened AosConfig
  import opened VapSets

  /** `dot11x and dot11x.arm_prof and dot11x.arm_prof.disabled` */
  predicate ArmDisabled(r: Option<Radio>)
  {
    r.Some? && r.value.armProf.Some? && r.value.armProf.value.disabled
  }

  /** `dot11x and dot11x.radio is False` */
  predicate RadioOff(r: Option<Radio>)
  {
    r.Some? && !r.value.radio
  }

  /** An AP on a static channel: a radio of its ap-group, or of its stored ap-name, has a disabled ARM profile. */
  predicate IsStatic(c: Config, apg: string, apn: string)
    requires apg in c.apGroups
  {
    ArmDisabled(c.apGroups[apg].dot11a) || ArmDisabled(c.apGroups[apg].dot11g)
    || (apn in c.apNames && (ArmDisabled(c.apNames[apn].dot11a) || ArmDisabled(c.apNames[apn].dot11g)))
  }

  /** Both radios switched off, which only a stored ap-name's own radio profiles can do. */
  predicate BothRadiosOff(c: Config, apn: string)
  {
    apn in c.apNames && RadioOff(c.apNames[apn].dot11a) && RadioOff(c.apNames[apn].dot11g)
  }

  /** The carrier SSIDs left out of the co-existence table. */
  predicate Eligible(t: VapKey)
  {
    t.ssid != "0000docomo" && t.ssid != "0001docomo" && t.ssid != "NTT-SPOT"
  }

  function CoexKeys(s: set<VapKey>): set<VapKey>
  {
    set t | t in s && Eligible(t)
  }

  predicate HasBridge(s: set<VapKey>) { exists t :: t in s && t.fwdMode == "bridge" }

  predicate HasTunnel(s: set<VapKey>) { exists t :: t in s && t.fwdMode != "bridge" }

  /** An AP with both a bridge VAP and a tunnel or split-tunnel VAP. */
  predicate Mixed(s: set<VapKey>) { HasBridge(s) && HasTunnel(s) }

  /** mix_flag after the tuples of `done`: bit 1 for a bridge tuple, bit 2 for any other. */
  function MixFlag(done: set<VapKey>): bv2
  {
    (if HasBridge(done) then 1 else 0) | (if HasTunnel(done) then 2 else 0)
  }

  /** coex_vaps_sets, coex_vaps_count and controller_sets. */
  datatype Coex = Coex(sets: map<VapKey, set<VapKey>>, counts: map<VapKey, map<VapKey, nat>>,
                       controllers: map<VapKey, set<string>>)

  function CountsOf(m: map<VapKey, map<VapKey, nat>>, k: VapKey): map<VapKey, nat> { if k in m then m[k] else map[] }

  /** coex_vaps_sets after the tuples `e` of the AP's set `s` have had their turn: each gains the others. */
  function AddCoexSets(m: map<VapKey, set<VapKey>>, s: set<VapKey>, e: set<VapKey>): map<VapKey, set<VapKey>>
  {
    map i | i in m.Keys + e :: SetOf(m, i) + (if i in e then s - {i} else {})
  }

  /** coex_vaps_count likewise: each gains one for every other tuple. */
  function AddCoexCounts(m: map<VapKey, map<VapKey, nat>>, s: set<VapKey>, e: set<VapKey>): map<VapKey, map<VapKey, nat>>
  {
    map i | i in m.Keys + e :: if i in e then Bump(CountsOf(m, i), s - {i}) else CountsOf(m, i)
  }

  /** controller_sets likewise: each gains the controller. */
  function AddControllers(m: map<VapKey, set<string>>, e: set<VapKey>, controller: string): map<VapKey, set<string>>
  {
    map i | i in m.Keys + e :: SetOf(m, i) + (if i in e then {controller} else {})
  }

  /** The co-existence maps after the tuples `done` of the AP's set `s` have had their turn. */
  function AddCoex(x: Coex, s: set<VapKey>, done: set<VapKey>, controller: string): Coex
  {
    var e := CoexKeys(done);
    Coex(AddCoexSets(x.sets, s, e), AddCoexCounts(x.counts, s, e), AddControllers(x.controllers, e, controller))
  }

  /** The state the loop carries across APs (the first three are reset per file, the rest span files). */
  datatype SumState = SumState(numStatic: nat, vapCount: map<VapKey, nat>, mixedApCount: nat,
                               globalMixedAp: set<string>, globalVapSet: map<string, set<VapKey>>,
                               globalVapCount: map<VapKey, nat>, coex: Coex)

  /** What one AP with VAP set `s` adds. */
  function AddAp(st: SumState, apn: string, controller: string, s: set<VapKey>): SumState
  {
    st.(vapCount := Bump(st.vapCount, s),
        mixedApCount := st.mixedApCount + (if Mixed(s) then 1 else 0),
        globalMixedAp := st.globalMixedAp + (if Mixed(s) then {apn} else {}),
        globalVapSet := st.globalVapSet[apn := s],
        globalVapCount := Bump(st.globalVapCount, s),
        coex := AddCoex(st.coex, s, s, controller))
  }

  lemma {:induction false} BumpStep<K>(d: map<K, nat>, done: set<K>, k: K)
    requires k !in done
    ensures Bump(d, done + {k}) == Bump(d, done)[k := Count(Bump(d, done), k) + 1]
  {
  }

  lemma {:induction false} MapUpdate<K, V>(z: map<K, V>, y: map<K, V>, i: K, v: V)
    requires z.Keys == y.Keys + {i} && i in z && z[i] == v
    requires forall k :: k in z && k != i ==> z[k] == y[k]
    ensures z == y[i := v]
  {
  }

  lemma {:induction false} CoexKeysAdd(done: set<VapKey>, i: VapKey)
    requires Eligible(i)
    ensures CoexKeys(done + {i}) == CoexKeys(done) + {i}
  {
  }

  lemma {:induction false} CoexSetsStep(m: map<VapKey, set<VapKey>>, s: set<VapKey>, e: set<VapKey>, i: VapKey)
    requires i !in e
    ensures AddCoexSets(m, s, e + {i}) == AddCoexSets(m, s, e)[i := SetOf(AddCoexSets(m, s, e), i) + (s - {i})]
  {
    var y := AddCoexSets(m, s, e);
    var z := AddCoexSets(m, s, e + {i});
    assert z.Keys == y.Keys + {i};
    assert SetOf(y, i) == SetOf(m, i);
    MapUpdate(z, y, i, SetOf(y, i) + (s - {i}));
  }

  lemma {:induction false} CoexCountsStep(m: map<VapKey, map<VapKey, nat>>, s: set<VapKey>, e: set<VapKey>, i: VapKey)
    requires i !in e
    ensures AddCoexCounts(m, s, e + {i}) == AddCoexCounts(m, s, e)[i := Bump(CountsOf(AddCoexCounts(m, s, e), i), s - {i})]
  {
    var y := AddCoexCounts(m, s, e);
    var z := AddCoexCounts(m, s, e + {i});
    assert z.Keys == y.Keys + {i};
    MapUpdate(z, y, i, Bump(CountsOf(y, i), s - {i}));
  }

  lemma {:induction false} ControllersStep(m: map<VapKey, set<string>>, e: set<VapKey>, controller: string, i: VapKey)
    requires i !in e
    ensures AddControllers(m, e + {i}, controller) == AddControllers(m, e, controller)[i := SetOf(AddControllers(m, e, controller), i) + {controller}]
  {
    var y := AddControllers(m, e, controller);
    var z := AddControllers(m, e + {i}, controller);
    assert z.Keys == y.Keys + {i};
    assert SetOf(y, i) == SetOf(m, i);
    MapUpdate(z, y, i, SetOf(y, i) + {controller});
  }

  lemma {:induction false} CoexStep(x: Coex, s: set<VapKey>, done: set<VapKey>, controller: string, i: VapKey)
    requires i !in done && Eligible(i)
    ensures var y := AddCoex(x, s, done, controller);
      AddCoex(x, s, done + {i}, controller)
      == Coex(y.sets[i := SetOf(y.sets, i) + (s - {i})],
              y.counts[i := Bump(CountsOf(y.counts, i), s - {i})],
              y.controllers[i := SetOf(y.controllers, i) + {controller}])
  {
    CoexKeysAdd(done, i);
    var e := CoexKeys(done);
    assert i !in e;
    CoexSetsStep(x.sets, s, e, i);
    CoexCountsStep(x.counts, s, e, i);
    ControllersStep(x.controllers, e, controller, i);
  }

  lemma {:induction false} CoexNone(x: Coex, s: set<VapKey>, controller: string)
    ensures AddCoex(x, s, {}, controller) == x
  {
    assert CoexKeys({}) == {};
    SetsNone(x.sets, s);
    CountsNone(x.counts, s);
    ControllersNone(x.controllers, controller);
  }

  lemma {:induction false} SetsNone(m: map<VapKey, set<VapKey>>, s: set<VapKey>)
    ensures AddCoexSets(m, s, {}) == m
  {
    var y := AddCoexSets(m, s, {});
    assert y.Keys == m.Keys;
    forall k | k in m ensures y[k] == m[k] {}
  }

  lemma {:induction false} CountsNone(m: map<VapKey, map<VapKey, nat>>, s: set<VapKey>)
    ensures AddCoexCounts(m, s, {}) == m
  {
    var y := AddCoexCounts(m, s, {});
    assert y.Keys == m.Keys;
    forall k | k in m ensures y[k] == m[k] {}
  }

  lemma {:induction false} ControllersNone(m: map<VapKey, set<string>>, controller: string)
    ensures AddControllers(m, {}, controller) == m
  {
    var y := AddControllers(m, {}, controller);
    assert y.Keys == m.Keys;
    forall k | k in m ensures y[k] == m[k] {}
  }

  lemma {:induction false} CoexSkip(x: Coex, s: set<VapKey>, done: set<VapKey>, controller: string, i: VapKey)
    requires !Eligible(i)
    ensures AddCoex(x, s, done + {i}, controller) == AddCoex(x, s, done, controller)
  {
    assert CoexKeys(done + {i}) == CoexKeys(done);
  }

  lemma {:induction false} MixFlagGrows(done: set<VapKey>, i: VapKey)
    ensures MixFlag(done) == 3 ==> MixFlag(done + {i}) == 3
  {
    assert HasBridge(done) ==> HasBridge(done + {i});
    assert HasTunnel(done) ==> HasTunnel(done + {i});
  }

  /** `d[i] += 1` for the next tuple of the AP's set. */
  method VisitCount(ghost d0: map<VapKey, nat>, ghost done: set<VapKey>, d: map<VapKey, nat>, i: VapKey) returns (d': map<VapKey, nat>)
    requires i !in done && d == Bump(d0, done)
    ensures d' == Bump(d0, done + {i})
  {
    BumpStep(d0, done, i);
    d' := d[i := Count(d, i) + 1];
  }

  /** The co-existence part of one visit: tuple i gains the AP's other tuples and the controller. */
  method VisitCoex(ghost x0: Coex, s: set<VapKey>, ghost done: set<VapKey>, controller: string, x: Coex, i: VapKey) returns (x': Coex)
    requires i in s && i !in done && x == AddCoex(x0, s, done, controller)
    ensures x' == AddCoex(x0, s, done + {i}, controller)
  {
    x' := x;
    if Eligible(i) {
      CoexStep(x0, s, done, controller, i);
      var c := Tally(CountsOf(x.counts, i), s - {i});
      x' := Coex(x.sets[i := SetOf(x.sets, i) + (s - {i})], x.counts[i := c],
                 x.controllers[i := SetOf(x.controllers, i) + {controller}]);
    } else {
      CoexSkip(x0, s, done, controller, i);
    }
  }

  /** The mixed-AP part of one visit: once both bits are set the flag stays 3 and the AP is not counted again. */
  method VisitMixed(flag: bv2, ghost done: set<VapKey>, i: VapKey) returns (flag': bv2, becameMixed: bool)
    requires flag == MixFlag(done)
    ensures flag' == MixFlag(done + {i})
    ensures becameMixed <==> flag != 3 && flag' == 3
    ensures flag == 3 ==> flag' == 3
  {
    MixFlagGrows(done, i);
    flag' := flag;
    becameMixed := false;
    if flag != 3 {
      if i.fwdMode == "bridge" {
        flag' := flag | 1;
      } else {
        flag' := flag | 2;
      }
      becameMixed := flag' == 3;
    }
    assert HasBridge(done + {i}) <==> HasBridge(done) || i.fwdMode == "bridge";
    assert HasTunnel(done + {i}) <==> HasTunnel(done) || i.fwdMode != "bridge";
  }

  /**
   * One AP's pass over its VAP set, in whatever order the set is walked:
   * both counters, the mixed flag (the AP is recorded the moment both bits
   * are set, so at most once), and the co-existence entries.
   */
  method AccountAp(st: SumState, apn: string, controller: string, s: set<VapKey>) returns (r: SumState)
    ensures r == AddAp(st, apn, controller, s)
  {
    var vapCount := st.vapCount;
    var globalVapCount := st.globalVapCount;
    var mixedApCount := st.mixedApCount;
    var globalMixedAp := st.globalMixedAp;
    var x := st.coex;
    var flag: bv2 := 0;
    var rest := s;
    CoexNone(st.coex, s, controller);
    assert Bump(st.vapCount, {}) == st.vapCount;
    assert Bump(st.globalVapCount, {}) == st.globalVapCount;
    assert !HasBridge({}) && !HasTunnel({});
    assert s - rest == {};
    while rest != {}
      invariant rest <= s
      invariant flag == MixFlag(s - rest)
      invariant vapCount == Bump(st.vapCount, s - rest)
      invariant globalVapCount == Bump(st.globalVapCount, s - rest)
      invariant mixedApCount == st.mixedApCount + (if flag == 3 then 1 else 0)
      invariant globalMixedAp == st.globalMixedAp + (if flag == 3 then {apn} else {})
      invariant x == AddCoex(st.coex, s, s - rest, controller)
      decreases rest
    {
      var i :| i in rest;
      ghost var done := s - rest;
      assert s - (rest - {i}) == done + {i};
      vapCount := VisitCount(st.vapCount, done, vapCount, i);
      var becameMixed;
      flag, becameMixed := VisitMixed(flag, done, i);
      if becameMixed {
        globalMixedAp := globalMixedAp + {apn};
        mixedApCount := mixedApCount + 1;
      }
      globalVapCount := VisitCount(st.globalVapCount, done, globalVapCount, i);
      x := VisitCoex(st.coex, s, done, controller, x, i);
      rest := rest - {i};
    }
    assert s - rest == s;
    r := st.(vapCount := vapCount, mixedApCount := mixedApCount, globalMixedAp := globalMixedAp,
             globalVapSet := st.globalVapSet[apn := s], globalVapCount := globalVapCount, coex := x);
  }

  /*
   * The loop over the AP database
   */

  /** The AP's VAP set, when the row is processed and not skipped; None for a skipped row. */
  function RowVaps(c: Config, row: seq<string>): Option<set<VapKey>>
  {
    if |row| < 2 || BothRadiosOff(c, Lower(row[0])) then None
    else ApKeys(c, Lower(row[1]), Lower(row[0]), true)
  }

  /** The row raises: a short row, an undefined ap-group, or a failing VAP set on an AP that is not skipped. */
  predicate RowFails(c: Config, row: seq<string>)
  {
    |row| < 2 || Lower(row[1]) !in c.apGroups
    || (!BothRadiosOff(c, Lower(row[0])) && ApKeys(c, Lower(row[1]), Lower(row[0]), true).None?)
  }

  predicate RowStatic(c: Config, row: seq<string>)
  {
    |row| >= 2 && Lower(row[1]) in c.apGroups && IsStatic(c, Lower(row[1]), Lower(row[0]))
  }

  /** One row of `for r in ap_db_tbl`. */
  function SummarizeRow(c: Config, controller: string, st: SumState, row: seq<string>): Option<SumState>
  {
    if RowFails(c, row) then None
    else
      var st1 := st.(numStatic := st.numStatic + (if RowStatic(c, row) then 1 else 0));
      match RowVaps(c, row)
      case None => Some(st1)
      case Some(s) => Some(AddAp(st1, Lower(row[0]), controller, s))
  }

  function SummarizeRows(c: Config, controller: string, st: SumState, rows: seq<seq<string>>): Option<SumState>
    decreases |rows|
  {
    if rows == [] then Some(st)
    else match SummarizeRows(c, controller, st, rows[..|rows| - 1])
      case None => None
      case Some(p) => SummarizeRow(c, controller, p, rows[|rows| - 1])
  }

  /** The loop body for one row. */
  method SummarizeOne(c: Config, controller: string, st: SumState, row: seq<string>) returns (r: Option<SumState>)
    ensures r == SummarizeRow(c, controller, st, row)
  {
    if |row| < 2 || Lower(row[1]) !in c.apGroups {
      return None;
    }
    var apg := Lower(row[1]);
    var apn := Lower(row[0]);
    var st1 := st;
    if IsStatic(c, apg, apn) {
      st1 := st.(numStatic := st.numStatic + 1);
    }
    if BothRadiosOff(c, apn) {
      return Some(st1);
    }
    var s := ApKeySet(c, apg, apn, true);
    if s.None? {
      return None;
    }
    var a := AccountAp(st1, apn, controller, s.value);
    r := Some(a);
  }

  /** The static/mixed/co-existence loop over one file's AP database. */
  method CountAps(c: Config, controller: string, st: SumState, rows: seq<seq<string>>) returns (r: Option<SumState>)
    ensures r == SummarizeRows(c, controller, st, rows)
  {
    var cur := st;
    var k := 0;
    while k < |rows|
      invariant 0 <= k <= |rows|
      invariant SummarizeRows(c, controller, st, rows[..k]) == Some(cur)
    {
      assert rows[..k + 1][..k] == rows[..k];
      var n := SummarizeOne(c, controller, cur, rows[k]);
      if n.None? {
        SummarizeFailSticks(c, controller, st, rows, k + 1);
        return None;
      }
      cur := n.value;
      k := k + 1;
    }
    assert rows[..k] == rows;
    r := Some(cur);
  }

  lemma {:induction false} SummarizeFailSticks(c: Config, controller: string, st: SumState, rows: seq<seq<string>>, k: nat)
    requires k <= |rows| && SummarizeRows(c, controller, st, rows[..k]).None?
    ensures SummarizeRows(c, controller, st, rows).None?
    decreases |rows| - k
  {
    if k < |rows| {
      assert rows[..k + 1][..k] == rows[..k];
      SummarizeFailSticks(c, controller, st, rows, k + 1);
    } else {
      assert rows[..k] == rows;
    }
  }

  /*
   * What the loop computes
   */

  /** The VAP sets of the APs that were not skipped, in row order. */
  function KeySets(c: Config, rows: seq<seq<string>>): seq<set<VapKey>>
    decreases |rows|
  {
    if rows == [] then []
    else
      var p := KeySets(c, rows[..|rows| - 1]);
      match RowVaps(c, rows[|rows| - 1])
      case None => p
      case Some(s) => p + [s]
  }

  /** How many rows are static APs (skipped ones included). */
  function StaticRows(c: Config, rows: seq<seq<string>>): nat
    decreases |rows|
  {
    if rows == [] then 0
    else StaticRows(c, rows[..|rows| - 1]) + (if RowStatic(c, rows[|rows| - 1]) then 1 else 0)
  }

  /** The lowered names of the mixed APs. */
  function MixedNames(c: Config, rows: seq<seq<string>>): set<string>
    decreases |rows|
  {
    if rows == [] then {}
    else
      var row := rows[|rows| - 1];
      MixedNames(c, rows[..|rows| - 1])
      + (match RowVaps(c, row) case Some(s) => if Mixed(s) then {Lower(row[0])} else {} case None => {})
  }

  /** How many of the sets are mixed. */
  function NumMixed(sets: seq<set<VapKey>>): nat
    decreases |sets|
  {
    if sets == [] then 0 else NumMixed(sets[..|sets| - 1]) + (if Mixed(sets[|sets| - 1]) then 1 else 0)
  }

  /** The co-existence maps after a run of APs. */
  function CoexAll(x: Coex, sets: seq<set<VapKey>>, controller: string): Coex
    decreases |sets|
  {
    if sets == [] then x else
      var s := sets[|sets| - 1];
      AddCoex(CoexAll(x, sets[..|sets| - 1], controller), s, s, controller)
  }

  /** What one processed row changes. */
  lemma {:induction false} RowStep(c: Config, controller: string, p: SumState, row: seq<string>)
    requires SummarizeRow(c, controller, p, row).Some?
    ensures var r := SummarizeRow(c, controller, p, row).value;
      r.numStatic == p.numStatic + (if RowStatic(c, row) then 1 else 0)
      && (RowVaps(c, row).None? ==>
            r.vapCount == p.vapCount && r.globalVapCount == p.globalVapCount && r.mixedApCount == p.mixedApCount
            && r.globalMixedAp == p.globalMixedAp && r.coex == p.coex)
      && (RowVaps(c, row).Some? ==> r == AddAp(p.(numStatic := r.numStatic), Lower(row[0]), controller, RowVaps(c, row).value))
  {
  }

  /** The fold over rows, one row at a time. */
  lemma {:induction false} RowsStep(c: Config, controller: string, st: SumState, rows: seq<seq<string>>)
    requires rows != [] && SummarizeRows(c, controller, st, rows).Some?
    ensures SummarizeRows(c, controller, st, rows[..|rows| - 1]).Some?
    ensures SummarizeRows(c, controller, st, rows)
      == SummarizeRow(c, controller, SummarizeRows(c, controller, st, rows[..|rows| - 1]).value, rows[|rows| - 1])
  {
  }

  lemma {:induction false} KeySetsStep(c: Config, rows: seq<seq<string>>)
    requires rows != []
    ensures var p := KeySets(c, rows[..|rows| - 1]);
      KeySets(c, rows) == (match RowVaps(c, rows[|rows| - 1]) case None => p case Some(s) => p + [s])
      && KeySets(c, rows)[..|p|] == p
  {
  }

  /** num_static counts every static AP, skipped or not. */
  lemma {:induction false} StaticTotal(c: Config, controller: string, st: SumState, rows: seq<seq<string>>)
    requires SummarizeRows(c, controller, st, rows).Some?
    ensures SummarizeRows(c, controller, st, rows).value.numStatic == st.numStatic + StaticRows(c, rows)
    decreases |rows|
  {
    if rows != [] {
      RowsStep(c, controller, st, rows);
      StaticTotal(c, controller, st, rows[..|rows| - 1]);
      RowStep(c, controller, SummarizeRows(c, controller, st, rows[..|rows| - 1]).value, rows[|rows| - 1]);
    }
  }

  /**
   * Over a whole file, vap_count and global_vap_count are bumped once for
   * every tuple of every non-skipped AP's VAP set (BumpAllCounts then says
   * each counts the APs carrying the tuple).
   */
  lemma {:induction false} TupleTotals(c: Config, controller: string, st: SumState, rows: seq<seq<string>>)
    requires SummarizeRows(c, controller, st, rows).Some?
    ensures var r := SummarizeRows(c, controller, st, rows).value;
      r.vapCount == BumpAll(st.vapCount, KeySets(c, rows))
      && r.globalVapCount == BumpAll(st.globalVapCount, KeySets(c, rows))
    decreases |rows|
  {
    if rows != [] {
      RowsStep(c, controller, st, rows);
      TupleTotals(c, controller, st, rows[..|rows| - 1]);
      RowStep(c, controller, SummarizeRows(c, controller, st, rows[..|rows| - 1]).value, rows[|rows| - 1]);
      KeySetsStep(c, rows);
    }
  }

  /** Every mixed AP adds one to mixed_ap_count and its name to global_mixed_ap; no other AP does. */
  lemma {:induction false} MixedTotals(c: Config, controller: string, st: SumState, rows: seq<seq<string>>)
    requires SummarizeRows(c, controller, st, rows).Some?
    ensures var r := SummarizeRows(c, controller, st, rows).value;
      r.mixedApCount == st.mixedApCount + NumMixed(KeySets(c, rows))
      && r.globalMixedAp == st.globalMixedAp + MixedNames(c, rows)
    decreases |rows|
  {
    if rows != [] {
      RowsStep(c, controller, st, rows);
      MixedTotals(c, controller, st, rows[..|rows| - 1]);
      RowStep(c, controller, SummarizeRows(c, controller, st, rows[..|rows| - 1]).value, rows[|rows| - 1]);
      KeySetsStep(c, rows);
    }
  }

  /** The co-existence maps after a file are those of the non-skipped APs' VAP sets, in row order. */
  lemma {:induction false} CoexTotals(c: Config, controller: string, st: SumState, rows: seq<seq<string>>)
    requires SummarizeRows(c, controller, st, rows).Some?
    ensures SummarizeRows(c, controller, st, rows).value.coex == CoexAll(st.coex, KeySets(c, rows), controller)
    decreases |rows|
  {
    if rows != [] {
      RowsStep(c, controller, st, rows);
      CoexTotals(c, controller, st, rows[..|rows| - 1]);
      RowStep(c, controller, SummarizeRows(c, controller, st, rows[..|rows| - 1]).value, rows[|rows| - 1]);
      KeySetsStep(c, rows);
    }
  }

  /** An AP whose ap-name switches both radios off adds to num_static at most, and to nothing else. */
  lemma {:induction false} BothOffContributesNothing(c: Config, controller: string, st: SumState, row: seq<string>)
    requires |row| >= 2 && Lower(row[1]) in c.apGroups && BothRadiosOff(c, Lower(row[0]))
    ensures SummarizeRow(c, controller, st, row) == Some(st.(numStatic := st.numStatic + (if RowStatic(c, row) then 1 else 0)))
  {
  }

  /** How many of the sets hold both `i` and `j`. */
  function Both(sets: seq<set<VapKey>>, i: VapKey, j: VapKey): nat
    decreases |sets|
  {
    if sets == [] then 0
    else Both(sets[..|sets| - 1], i, j) + (if i in sets[|sets| - 1] && j in sets[|sets| - 1] then 1 else 0)
  }

  /**
   * coex_vaps_count[i][j] counts the APs that carry both i and j, for every
   * tuple i outside the carrier SSIDs and every other tuple j.
   */
  lemma {:induction false} CoexCounts(x: Coex, sets: seq<set<VapKey>>, controller: string, i: VapKey, j: VapKey)
    requires Eligible(i) && i != j
    ensures Count(CountsOf(CoexAll(x, sets, controller).counts, i), j) == Count(CountsOf(x.counts, i), j) + Both(sets, i, j)
    decreases |sets|
  {
    if sets != [] {
      var s := sets[|sets| - 1];
      CoexCounts(x, sets[..|sets| - 1], controller, i, j);
      if i in s {
        assert i in CoexKeys(s);
      } else {
        assert i !in CoexKeys(s);
      }
    }
  }

  /**
   * The shape the co-existence maps keep: the three maps share their keys,
   * none of them a carrier SSID; each tuple's counts are keyed by exactly
   * its co-existing set, which never holds the tuple itself.
   */
  predicate CoexOk(x: Coex)
  {
    x.sets.Keys == x.counts.Keys == x.controllers.Keys
    && (forall i :: i in x.sets ==> Eligible(i) && i !in x.sets[i] && x.counts[i].Keys == x.sets[i])
  }

  lemma {:induction false} AddCoexOk(x: Coex, s: set<VapKey>, controller: string)
    requires CoexOk(x)
    ensures CoexOk(AddCoex(x, s, s, controller))
  {
  }

  /** Starting from empty maps, the shape holds after any run of APs, and an entry exists exactly for the tuples met. */
  lemma {:induction false} CoexAllOk(x: Coex, sets: seq<set<VapKey>>, controller: string, i: VapKey)
    requires CoexOk(x)
    ensures CoexOk(CoexAll(x, sets, controller))
    ensures i in CoexAll(x, sets, controller).sets <==> i in x.sets || (Eligible(i) && Occ(sets, i) > 0)
    decreases |sets|
  {
    if sets != [] {
      var s := sets[|sets| - 1];
      CoexAllOk(x, sets[..|sets| - 1], controller, i);
      AddCoexOk(CoexAll(x, sets[..|sets| - 1], controller), s, controller);
    }
  }
}
