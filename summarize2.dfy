/**
 * The per-AP loop of nttbp-summarize2.py, run for every controller file
 * with its own configuration while the totals carry over from file to file:
 * APs, RAPs, AP models, ap-groups in use, cellular-handoff-assist ESSIDs,
 * each AP's set of enabled VAP tuples and, per tuple, the number of APs
 * carrying it; then the count of tuples per forwarding mode.
 */
module Summarize2 {
  import opened Wrappers
  import opened Text
  import opened AosConfig
  import opened VapSets

  /** total_ap, num_rap, global_apg_set, global_ap_model_count, global_cha_ssid, global_vap_set and global_vap_count. */
  datatype Sum2State = Sum2State(totalAp: nat, numRap: nat, apGroups: set<string>, modelCount: map<string, nat>,
                                 chaSsids: set<string>, vapSets: map<string, set<VapKey>>, vapCount: map<VapKey, nat>)

  const Start2 := Sum2State(0, 0, {}, map[], {}, map[], map[])

  /** The ESSIDs of the enabled VAPs with cellular-handoff-assist. */
  function ChaOf(vaps: seq<Vap>): set<string>
  {
    set v | v in vaps && !v.disabled && v.cha && v.ssidProf.Some? :: v.ssidProf.value.ssid
  }

  /** What an AP adds to global_cha_ssid: its group's and its stored ap-name's, exclusions not applied. */
  function ChaSsids(c: Config, apg: string, apn: string): set<string>
  {
    (if apg in c.apGroups then ChaOf(c.apGroups[apg].vaps) else {})
    + (if apn in c.apNames then ChaOf(c.apNames[apn].vaps) else {})
  }

  /**
   * One row of the AP database; None for a row with fewer than six columns
   * or an AP whose VAP set cannot be built.
   */
  function Sum2Row(c: Config, st: Sum2State, row: seq<string>): Option<Sum2State>
  {
    if |row| < 6 then None
    else match ApKeys(c, Lower(row[1]), Lower(row[0]), true)
      case None => None
      case Some(s) =>
        Some(st.(numRap := st.numRap + (if 'R' in row[5] then 1 else 0),
                 apGroups := st.apGroups + {Lower(row[1])},
                 modelCount := Bump(st.modelCount, {row[2]}),
                 chaSsids := st.chaSsids + ChaSsids(c, Lower(row[1]), Lower(row[0])),
                 vapSets := st.vapSets[row[0] := s],
                 vapCount := Bump(st.vapCount, s)))
  }

  function Sum2Rows(c: Config, st: Sum2State, rows: seq<seq<string>>): Option<Sum2State>
    decreases |rows|
  {
    if rows == [] then Some(st)
    else match Sum2Rows(c, st, rows[..|rows| - 1])
      case None => None
      case Some(p) => Sum2Row(c, p, rows[|rows| - 1])
  }

  /** One file: its APs are added to the total first, then its rows are visited. */
  function Sum2File(c: Config, st: Sum2State, rows: seq<seq<string>>): Option<Sum2State>
  {
    Sum2Rows(c, st.(totalAp := st.totalAp + |rows|), rows)
  }

  method Sum2One(c: Config, st: Sum2State, row: seq<string>) returns (r: Option<Sum2State>)
    ensures r == Sum2Row(c, st, row)
  {
    if |row| < 6 {
      return None;
    }
    var apg := Lower(row[1]);
    var apn := Lower(row[0]);
    var models := Tally(st.modelCount, {row[2]});
    var rap := if 'R' in row[5] then 1 else 0;
    var s := ApKeySet(c, apg, apn, true);
    if s.None? {
      return None;
    }
    var counts := Tally(st.vapCount, s.value);
    r := Some(Sum2State(st.totalAp, st.numRap + rap, st.apGroups + {apg}, models,
                        st.chaSsids + ChaSsids(c, apg, apn), st.vapSets[row[0] := s.value], counts));
  }

  /** One file: the total first, then the loop over its AP database. */
  method Sum2Loop(c: Config, st: Sum2State, rows: seq<seq<string>>) returns (r: Option<Sum2State>)
    ensures r == Sum2File(c, st, rows)
  {
    var first := st.(totalAp := st.totalAp + |rows|);
    assert Sum2File(c, st, rows) == Sum2Rows(c, first, rows);
    r := Sum2RowsLoop(c, first, rows);
  }

  method Sum2RowsLoop(c: Config, st: Sum2State, rows: seq<seq<string>>) returns (r: Option<Sum2State>)
    ensures r == Sum2Rows(c, st, rows)
  {
    var cur := st;
    var k := 0;
    while k < |rows|
      invariant 0 <= k <= |rows|
      invariant Sum2Rows(c, st, rows[..k]) == Some(cur)
    {
      Sum2Snoc(c, st, rows, k, cur);
      var n := Sum2One(c, cur, rows[k]);
      if n.None? {
        Sum2FailSticks(c, st, rows, k + 1);
        return None;
      }
      cur := n.value;
      k := k + 1;
    }
    assert rows[..k] == rows;
    r := Some(cur);
  }

  lemma {:induction false} Sum2Snoc(c: Config, st: Sum2State, rows: seq<seq<string>>, k: nat, cur: Sum2State)
    requires k < |rows| && Sum2Rows(c, st, rows[..k]) == Some(cur)
    ensures Sum2Rows(c, st, rows[..k + 1]) == Sum2Row(c, cur, rows[k])
  {
    assert rows[..k + 1][..k] == rows[..k];
  }

  lemma {:induction false} Sum2FailSticks(c: Config, st: Sum2State, rows: seq<seq<string>>, k: nat)
    requires k <= |rows| && Sum2Rows(c, st, rows[..k]).None?
    ensures Sum2Rows(c, st, rows).None?
    decreases |rows| - k
  {
    if k < |rows| {
      assert rows[..k + 1][..k] == rows[..k];
      Sum2FailSticks(c, st, rows, k + 1);
    } else {
      assert rows[..k] == rows;
    }
  }

  /** The fold unfolded once at its last row. */
  lemma {:induction false} Sum2Last(c: Config, st: Sum2State, rows: seq<seq<string>>)
    requires rows != [] && Sum2Rows(c, st, rows).Some?
    ensures Sum2Rows(c, st, rows[..|rows| - 1]).Some?
    ensures Sum2Row(c, Sum2Rows(c, st, rows[..|rows| - 1]).value, rows[|rows| - 1]) == Sum2Rows(c, st, rows)
  {
  }

  /** What one accepted row changes, field by field. */
  lemma {:induction false} Sum2RowFields(c: Config, p: Sum2State, row: seq<string>)
    requires Sum2Row(c, p, row).Some?
    ensures |row| >= 6 && ApKeys(c, Lower(row[1]), Lower(row[0]), true).Some?
    ensures var r := Sum2Row(c, p, row).value;
      r.chaSsids == p.chaSsids + ChaSsids(c, Lower(row[1]), Lower(row[0]))
      && r.apGroups == p.apGroups + {Lower(row[1])}
      && r.vapSets == p.vapSets[row[0] := RowKeys(c, row)]
  {
  }

  /** A completed fold saw only rows of six or more columns whose VAP sets could be built. */
  lemma {:induction false} Sum2RowsOk(c: Config, st: Sum2State, rows: seq<seq<string>>, i: nat)
    requires Sum2Rows(c, st, rows).Some? && i < |rows|
    ensures |rows[i]| >= 6 && ApKeys(c, Lower(rows[i][1]), Lower(rows[i][0]), true).Some?
    decreases |rows|
  {
    var m := |rows| - 1;
    assert Sum2Rows(c, st, rows[..m]).Some? && Sum2Row(c, Sum2Rows(c, st, rows[..m]).value, rows[m]).Some? by {
      Sum2Last(c, st, rows);
    }
    if i < m {
      Sum2RowsOk(c, st, rows[..m], i);
      assert rows[..m][i] == rows[i];
    } else {
      Sum2RowOk(c, Sum2Rows(c, st, rows[..m]).value, rows[m]);
    }
  }

  lemma {:induction false} Sum2RowOk(c: Config, p: Sum2State, row: seq<string>)
    requires Sum2Row(c, p, row).Some?
    ensures |row| >= 6 && ApKeys(c, Lower(row[1]), Lower(row[0]), true).Some?
  {
  }

  /** The VAP set of a row (empty for a row the fold would have refused). */
  function RowKeys(c: Config, row: seq<string>): set<VapKey>
  {
    if |row| < 2 then {}
    else match ApKeys(c, Lower(row[1]), Lower(row[0]), true)
      case None => {}
      case Some(s) => s
  }

  function KeySeq(c: Config, rows: seq<seq<string>>): seq<set<VapKey>>
  {
    seq(|rows|, i requires 0 <= i < |rows| => RowKeys(c, rows[i]))
  }

  function ModelSeq(rows: seq<seq<string>>): seq<set<string>>
  {
    seq(|rows|, i requires 0 <= i < |rows| => if |rows[i]| >= 3 then {rows[i][2]} else {})
  }

  /** The rows of remote APs (an `R` among the flags). */
  function RapRows(rows: seq<seq<string>>): set<nat>
  {
    set i: nat | i < |rows| && |rows[i]| >= 6 && 'R' in rows[i][5]
  }

  /** What one accepted row adds to the counters. */
  lemma {:induction false} Sum2RowCounts(c: Config, p: Sum2State, row: seq<string>)
    requires Sum2Row(c, p, row).Some?
    ensures |row| >= 6
    ensures var r := Sum2Row(c, p, row).value;
      && r.vapCount == Bump(p.vapCount, RowKeys(c, row))
      && r.modelCount == Bump(p.modelCount, {row[2]})
      && r.numRap == p.numRap + (if 'R' in row[5] then 1 else 0)
      && r.totalAp == p.totalAp
  {
  }

  /** global_vap_count after a file counts, per tuple, the APs whose enabled VAPs carry it. */
  lemma {:induction false} Sum2VapCount(c: Config, st: Sum2State, rows: seq<seq<string>>)
    requires Sum2Rows(c, st, rows).Some?
    ensures Sum2Rows(c, st, rows).value.vapCount == BumpAll(st.vapCount, KeySeq(c, rows))
    decreases |rows|
  {
    if rows != [] {
      var m := |rows| - 1;
      var ks := KeySeq(c, rows);
      assert Sum2Rows(c, st, rows[..m]).Some?
             && Sum2Rows(c, st, rows).value.vapCount == Bump(Sum2Rows(c, st, rows[..m]).value.vapCount, ks[m]) by {
        Sum2Last(c, st, rows);
        Sum2RowCounts(c, Sum2Rows(c, st, rows[..m]).value, rows[m]);
      }
      Sum2VapCount(c, st, rows[..m]);
      assert ks[..m] == KeySeq(c, rows[..m]);
    }
  }

  /** global_ap_model_count after a file counts the APs of each model. */
  lemma {:induction false} Sum2ModelCount(c: Config, st: Sum2State, rows: seq<seq<string>>)
    requires Sum2Rows(c, st, rows).Some?
    ensures Sum2Rows(c, st, rows).value.modelCount == BumpAll(st.modelCount, ModelSeq(rows))
    decreases |rows|
  {
    if rows != [] {
      var m := |rows| - 1;
      var ms := ModelSeq(rows);
      assert Sum2Rows(c, st, rows[..m]).Some?
             && Sum2Rows(c, st, rows).value.modelCount == Bump(Sum2Rows(c, st, rows[..m]).value.modelCount, ms[m]) by {
        Sum2Last(c, st, rows);
        Sum2RowCounts(c, Sum2Rows(c, st, rows[..m]).value, rows[m]);
      }
      Sum2ModelCount(c, st, rows[..m]);
      assert ms[..m] == ModelSeq(rows[..m]);
    }
  }

  /** num_rap after a file counts its remote APs; total_ap is left alone by the loop. */
  lemma {:induction false} Sum2NumRap(c: Config, st: Sum2State, rows: seq<seq<string>>)
    requires Sum2Rows(c, st, rows).Some?
    ensures Sum2Rows(c, st, rows).value.numRap == st.numRap + |RapRows(rows)|
    ensures Sum2Rows(c, st, rows).value.totalAp == st.totalAp
    decreases |rows|
  {
    if rows != [] {
      var m := |rows| - 1;
      var p := Sum2Rows(c, st, rows[..m]).value;
      assert Sum2Rows(c, st, rows[..m]).Some? && |rows[m]| >= 6
             && Sum2Rows(c, st, rows).value.numRap == p.numRap + (if 'R' in rows[m][5] then 1 else 0)
             && Sum2Rows(c, st, rows).value.totalAp == p.totalAp by {
        Sum2Last(c, st, rows);
        Sum2RowCounts(c, p, rows[m]);
      }
      Sum2NumRap(c, st, rows[..m]);
      RapRowsStep(rows);
    }
  }

  lemma {:induction false} RapRowsStep(rows: seq<seq<string>>)
    requires rows != [] && |rows[|rows| - 1]| >= 6
    ensures |RapRows(rows)| == |RapRows(rows[..|rows| - 1])| + (if 'R' in rows[|rows| - 1][5] then 1 else 0)
  {
    var m := |rows| - 1;
    var p := RapRows(rows[..m]);
    if 'R' in rows[m][5] {
      assert RapRows(rows) == p + {m};
    } else {
      assert RapRows(rows) == p;
    }
  }

  /** Some row names ap-group `g` (lowered). */
  predicate NamesGroup(rows: seq<seq<string>>, g: string)
  {
    exists i :: 0 <= i < |rows| && |rows[i]| >= 2 && Lower(rows[i][1]) == g
  }

  /** Some row's group or ap-name has an enabled cellular-handoff-assist VAP for ESSID `x`. */
  predicate HasCha(c: Config, rows: seq<seq<string>>, x: string)
  {
    exists i :: 0 <= i < |rows| && |rows[i]| >= 2 && x in ChaSsids(c, Lower(rows[i][1]), Lower(rows[i][0]))
  }

  lemma {:induction false} NamesGroupLast(rows: seq<seq<string>>, g: string)
    requires rows != [] && |rows[|rows| - 1]| >= 2
    ensures NamesGroup(rows, g) <==> NamesGroup(rows[..|rows| - 1], g) || Lower(rows[|rows| - 1][1]) == g
  {
    var m := |rows| - 1;
    if NamesGroup(rows, g) {
      var i :| 0 <= i < |rows| && |rows[i]| >= 2 && Lower(rows[i][1]) == g;
      if i < m {
        assert rows[..m][i] == rows[i];
      }
    }
    if NamesGroup(rows[..m], g) {
      var i :| 0 <= i < m && |rows[..m][i]| >= 2 && Lower(rows[..m][i][1]) == g;
      assert rows[..m][i] == rows[i];
    }
  }

  lemma {:induction false} HasChaLast(c: Config, rows: seq<seq<string>>, x: string)
    requires rows != [] && |rows[|rows| - 1]| >= 2
    ensures HasCha(c, rows, x) <==>
      HasCha(c, rows[..|rows| - 1], x) || x in ChaSsids(c, Lower(rows[|rows| - 1][1]), Lower(rows[|rows| - 1][0]))
  {
    var m := |rows| - 1;
    if HasCha(c, rows, x) {
      var i :| 0 <= i < |rows| && |rows[i]| >= 2 && x in ChaSsids(c, Lower(rows[i][1]), Lower(rows[i][0]));
      if i < m {
        assert rows[..m][i] == rows[i];
      }
    }
    if HasCha(c, rows[..m], x) {
      var i :| 0 <= i < m && |rows[..m][i]| >= 2 && x in ChaSsids(c, Lower(rows[..m][i][1]), Lower(rows[..m][i][0]));
      assert rows[..m][i] == rows[i];
    }
  }

  /** An ap-group is in use exactly when some row names it (lowered). */
  lemma {:induction false} Sum2Groups(c: Config, st: Sum2State, rows: seq<seq<string>>, g: string)
    requires Sum2Rows(c, st, rows).Some?
    ensures g in Sum2Rows(c, st, rows).value.apGroups <==> g in st.apGroups || NamesGroup(rows, g)
    decreases |rows|
  {
    if rows != [] {
      var m := |rows| - 1;
      var r := Sum2Rows(c, st, rows).value;
      assert Sum2Rows(c, st, rows[..m]).Some? && |rows[m]| >= 2
             && r.apGroups == Sum2Rows(c, st, rows[..m]).value.apGroups + {Lower(rows[m][1])} by {
        Sum2Last(c, st, rows);
        Sum2RowFields(c, Sum2Rows(c, st, rows[..m]).value, rows[m]);
      }
      Sum2Groups(c, st, rows[..m], g);
      NamesGroupLast(rows, g);
    }
  }

  /**
   * An ESSID has cellular-handoff-assist exactly when some row's group or
   * ap-name has an enabled such VAP for it.
   */
  lemma {:induction false} Sum2Cha(c: Config, st: Sum2State, rows: seq<seq<string>>, x: string)
    requires Sum2Rows(c, st, rows).Some?
    ensures x in Sum2Rows(c, st, rows).value.chaSsids <==> x in st.chaSsids || HasCha(c, rows, x)
    decreases |rows|
  {
    if rows != [] {
      var m := |rows| - 1;
      var r := Sum2Rows(c, st, rows).value;
      assert Sum2Rows(c, st, rows[..m]).Some? && |rows[m]| >= 2
             && r.chaSsids == Sum2Rows(c, st, rows[..m]).value.chaSsids + ChaSsids(c, Lower(rows[m][1]), Lower(rows[m][0])) by {
        Sum2Last(c, st, rows);
        Sum2RowFields(c, Sum2Rows(c, st, rows[..m]).value, rows[m]);
      }
      Sum2Cha(c, st, rows[..m], x);
      HasChaLast(c, rows, x);
    }
  }

  /** Row `i` is the last one naming AP `ap` (as written). */
  predicate LastFor(rows: seq<seq<string>>, i: nat, ap: string)
  {
    i < |rows| && |rows[i]| >= 1 && rows[i][0] == ap
    && forall j :: i < j < |rows| && |rows[j]| >= 1 ==> rows[j][0] != ap
  }

  /** The AP names (as written) of the rows. */
  function ApNamesOf(rows: seq<seq<string>>): set<string>
  {
    set i | 0 <= i < |rows| && |rows[i]| >= 1 :: rows[i][0]
  }

  /**
   * global_vap_set has an entry exactly for the AP names met, holding the
   * VAP set of the last row with that name; other entries are unchanged.
   */
  lemma {:induction false} Sum2VapSets(c: Config, st: Sum2State, rows: seq<seq<string>>, ap: string)
    requires Sum2Rows(c, st, rows).Some?
    ensures ap in Sum2Rows(c, st, rows).value.vapSets <==> ap in st.vapSets || ap in ApNamesOf(rows)
    ensures forall i: nat :: LastFor(rows, i, ap) ==> Sum2Rows(c, st, rows).value.vapSets[ap] == KeySeq(c, rows)[i]
    ensures ap !in ApNamesOf(rows) && ap in st.vapSets ==> Sum2Rows(c, st, rows).value.vapSets[ap] == st.vapSets[ap]
    decreases |rows|
  {
    if rows != [] {
      var m := |rows| - 1;
      var pv := Sum2Rows(c, st, rows[..m]).value.vapSets;
      var ks := KeySeq(c, rows);
      assert Sum2Rows(c, st, rows[..m]).Some? && |rows[m]| >= 2
             && Sum2Rows(c, st, rows).value.vapSets == pv[rows[m][0] := ks[m]] by {
        Sum2Last(c, st, rows);
        Sum2RowFields(c, Sum2Rows(c, st, rows[..m]).value, rows[m]);
      }
      Sum2VapSets(c, st, rows[..m], ap);
      assert KeySeq(c, rows[..m]) == ks[..m];
      LastWriteWins(st.vapSets, pv, Sum2Rows(c, st, rows).value.vapSets, rows, ks, rows[..m], KeySeq(c, rows[..m]), ap);
    }
  }

  /**
   * One more row writes its value under its AP name (the first column):
   * what the entry for `ap` then holds, given what it held before.
   */
  lemma {:induction false} LastWriteWins<V>(st: map<string, V>, pv: map<string, V>, rv: map<string, V>,
                                            rows: seq<seq<string>>, ks: seq<V>, pre: seq<seq<string>>, pks: seq<V>, ap: string)
    requires rows != [] && |ks| == |rows| && |rows[|rows| - 1]| >= 1
    requires pre == rows[..|rows| - 1] && pks == ks[..|rows| - 1]
    requires rv == pv[rows[|rows| - 1][0] := ks[|rows| - 1]]
    requires ap in pv <==> ap in st || ap in ApNamesOf(pre)
    requires forall i: nat :: LastFor(pre, i, ap) ==> pv[ap] == pks[i]
    requires ap !in ApNamesOf(pre) && ap in st ==> pv[ap] == st[ap]
    ensures ap in rv <==> ap in st || ap in ApNamesOf(rows)
    ensures forall i: nat :: LastFor(rows, i, ap) ==> rv[ap] == ks[i]
    ensures ap !in ApNamesOf(rows) && ap in st ==> rv[ap] == st[ap]
  {
    var m := |rows| - 1;
    ApNamesLast(rows);
    forall i: nat | LastFor(rows, i, ap)
      ensures rv[ap] == ks[i]
    {
      if i < m {
        LastForPrefix(rows, i, ap);
        assert ks[..m][i] == ks[i];
      }
    }
  }

  lemma {:induction false} ApNamesLast(rows: seq<seq<string>>)
    requires rows != [] && |rows[|rows| - 1]| >= 1
    ensures ApNamesOf(rows) == ApNamesOf(rows[..|rows| - 1]) + {rows[|rows| - 1][0]}
  {
    var m := |rows| - 1;
    forall i | 0 <= i < m
      ensures rows[..m][i] == rows[i]
    {
    }
  }

  lemma {:induction false} LastForPrefix(rows: seq<seq<string>>, i: nat, ap: string)
    requires LastFor(rows, i, ap) && i < |rows| - 1 && |rows[|rows| - 1]| >= 1
    ensures rows[|rows| - 1][0] != ap && LastFor(rows[..|rows| - 1], i, ap) && rows[..|rows| - 1][i] == rows[i]
  {
    var m := |rows| - 1;
    forall j | i < j < m && |rows[..m][j]| >= 1
      ensures rows[..m][j][0] != ap
    {
      assert rows[..m][j] == rows[j];
    }
  }

  /** The number of tuples with forwarding mode `mode`. */
  function ModeCount(keys: set<VapKey>, mode: string): nat
  {
    |set t | t in keys && t.fwdMode == mode|
  }

  predicate KnownMode(mode: string)
  {
    mode == "tunnel" || mode == "split-tunnel" || mode == "bridge"
  }

  function UnknownCount(keys: set<VapKey>): nat
  {
    |set t | t in keys && !KnownMode(t.fwdMode)|
  }

  lemma {:induction false} ModeCountAdd(done: set<VapKey>, t: VapKey, mode: string)
    requires t !in done
    ensures ModeCount(done + {t}, mode) == ModeCount(done, mode) + (if t.fwdMode == mode then 1 else 0)
    ensures UnknownCount(done + {t}) == UnknownCount(done) + (if KnownMode(t.fwdMode) then 0 else 1)
  {
    var a := set x | x in done && x.fwdMode == mode;
    var u := set x | x in done && !KnownMode(x.fwdMode);
    if t.fwdMode == mode {
      assert (set x | x in done + {t} && x.fwdMode == mode) == a + {t};
    } else {
      assert (set x | x in done + {t} && x.fwdMode == mode) == a;
    }
    if KnownMode(t.fwdMode) {
      assert (set x | x in done + {t} && !KnownMode(x.fwdMode)) == u;
    } else {
      assert (set x | x in done + {t} && !KnownMode(x.fwdMode)) == u + {t};
    }
  }

  /**
   * The closing loop over global_vap_count's keys: tunnel, split-tunnel and
   * bridge tuples are counted, any other mode is reported; every tuple
   * falls in exactly one of the four.
   */
  method CountModes(keys: set<VapKey>) returns (tun: nat, split: nat, bridge: nat, unknown: nat)
    ensures tun == ModeCount(keys, "tunnel") && split == ModeCount(keys, "split-tunnel")
    ensures bridge == ModeCount(keys, "bridge") && unknown == UnknownCount(keys)
    ensures tun + split + bridge + unknown == |keys|
  {
    tun, split, bridge, unknown := 0, 0, 0, 0;
    var rest := keys;
    ghost var done: set<VapKey> := {};
    while rest != {}
      invariant rest <= keys && done == keys - rest
      invariant tun == ModeCount(done, "tunnel") && split == ModeCount(done, "split-tunnel")
      invariant bridge == ModeCount(done, "bridge") && unknown == UnknownCount(done)
      invariant tun + split + bridge + unknown == |done|
      decreases rest
    {
      var t :| t in rest;
      ModeCountAdd(done, t, "tunnel");
      ModeCountAdd(done, t, "split-tunnel");
      ModeCountAdd(done, t, "bridge");
      if t.fwdMode == "tunnel" {
        tun := tun + 1;
      } else if t.fwdMode == "split-tunnel" {
        split := split + 1;
      } else if t.fwdMode == "bridge" {
        bridge := bridge + 1;
      } else {
        unknown := unknown + 1;
      }
      rest := rest - {t};
      done := done + {t};
    }
    assert done == keys;
  }
}
