/**
 * The per-AP loop of nttbp-apsys.py: every AP resolves its ap system-profile
 * (a stored ap-name's own, else its ap-group's), and APs whose profile has a
 * session ACL are collected per profile together with the ESSIDs of their
 * bridge-mode VAPs; one output row per such profile, in name order.
 */
module ApSysAps {
  import opened Wrappers
  import opened Text
  import opened AosConfig
  import opened AosConfigFacts
  import opened VapSets
  import opened Sorting

  /**
   * The name of the system profile an AP uses: the ap-name's own when the
   * ap-name is stored and sets one, otherwise its ap-group's; None for the
   * KeyError of an undefined ap-group.
   */
  function ApSysName(c: Config, apg: string, apn: string): (r: Option<string>)
    ensures apn in c.apNames && c.apNames[apn].apSys.Some? ==> r == c.apNames[apn].apSys
    ensures !(apn in c.apNames && c.apNames[apn].apSys.Some?) ==>
      (r.Some? <==> apg in c.apGroups) && (r.Some? ==> r.value == c.apGroups[apg].apSys)
  {
    if apn in c.apNames && c.apNames[apn].apSys.Some? then c.apNames[apn].apSys
    else if apg in c.apGroups then Some(c.apGroups[apg].apSys)
    else None
  }

  /** apsys_ap_sets, apsys_bridge_ssid_sets and ses_acl_found. */
  datatype ApSysState = ApSysState(apSets: map<string, set<string>>, bridgeSsids: map<string, set<string>>, aclFound: bool)

  const Start := ApSysState(map[], map[], false)

  /** The ESSIDs of the bridge-mode tuples. */
  function BridgeSsids(s: set<VapKey>): set<string>
  {
    set t | t in s && t.fwdMode == "bridge" :: t.ssid
  }

  /** The AP-name loop over the VAP set: `if i[2] != 'bridge': continue`, else add the ESSID. */
  method CollectBridge(ssids: set<string>, s: set<VapKey>) returns (r: set<string>)
    ensures r == ssids + BridgeSsids(s)
  {
    r := ssids;
    var rest := s;
    while rest != {}
      invariant rest <= s
      invariant r == ssids + BridgeSsids(s - rest)
      decreases rest
    {
      var t :| t in rest;
      assert s - (rest - {t}) == (s - rest) + {t};
      if t.fwdMode == "bridge" {
        r := r + {t.ssid};
      }
      rest := rest - {t};
    }
    assert s - rest == s;
  }

  /** The profile of a row's AP, when that profile is defined and has a session ACL. */
  function CountedProfile(c: Config, row: seq<string>): Option<ApSysProf>
  {
    if |row| < 2 then None
    else match ApSysName(c, Lower(row[1]), Lower(row[0]))
      case None => None
      case Some(n) => if n in c.apSystems && c.apSystems[n].sesAcl.Some? then Some(c.apSystems[n]) else None
  }

  /** The row raises: a short row, an undefined ap-group or system profile, or a failing VAP set for a counted AP. */
  predicate ApSysFails(c: Config, row: seq<string>)
  {
    |row| < 2 || ApSysName(c, Lower(row[1]), Lower(row[0])).None?
    || ApSysName(c, Lower(row[1]), Lower(row[0])).value !in c.apSystems
    || (CountedProfile(c, row).Some? && ApKeys(c, Lower(row[1]), Lower(row[0]), false).None?)
  }

  /** One row of `for r in ap_db_tbl` (disabled VAPs are not skipped here). */
  function ApSysRow(c: Config, st: ApSysState, row: seq<string>): Option<ApSysState>
  {
    if ApSysFails(c, row) then None
    else match CountedProfile(c, row)
      case None => Some(st)
      case Some(p) =>
        var s := ApKeys(c, Lower(row[1]), Lower(row[0]), false).value;
        Some(ApSysState(st.apSets[p.name := SetOf(st.apSets, p.name) + {row[0]}],
                        st.bridgeSsids[p.name := SetOf(st.bridgeSsids, p.name) + BridgeSsids(s)], true))
  }

  function ApSysRows(c: Config, st: ApSysState, rows: seq<seq<string>>): Option<ApSysState>
    decreases |rows|
  {
    if rows == [] then Some(st)
    else match ApSysRows(c, st, rows[..|rows| - 1])
      case None => None
      case Some(p) => ApSysRow(c, p, rows[|rows| - 1])
  }

  method ApSysOne(c: Config, st: ApSysState, row: seq<string>) returns (r: Option<ApSysState>)
    ensures r == ApSysRow(c, st, row)
  {
    if |row| < 2 {
      return None;
    }
    var apg := Lower(row[1]);
    var apn := Lower(row[0]);
    var name: string;
    if apn in c.apNames && c.apNames[apn].apSys.Some? {
      name := c.apNames[apn].apSys.value;
    } else if apg in c.apGroups {
      name := c.apGroups[apg].apSys;
    } else {
      return None;
    }
    if name !in c.apSystems {
      return None;
    }
    var p := c.apSystems[name];
    if p.sesAcl.None? {
      return Some(st);
    }
    var aps := st.apSets[p.name := SetOf(st.apSets, p.name) + {row[0]}];
    var s := ApKeySet(c, apg, apn, false);
    if s.None? {
      return None;
    }
    var b := CollectBridge(SetOf(st.bridgeSsids, p.name), s.value);
    r := Some(ApSysState(aps, st.bridgeSsids[p.name := b], true));
  }

  /** The loop over one file's AP database. */
  method CollectApSys(c: Config, rows: seq<seq<string>>) returns (r: Option<ApSysState>)
    ensures r == ApSysRows(c, Start, rows)
  {
    var cur := Start;
    var k := 0;
    while k < |rows|
      invariant 0 <= k <= |rows|
      invariant ApSysRows(c, Start, rows[..k]) == Some(cur)
    {
      assert rows[..k + 1][..k] == rows[..k];
      var n := ApSysOne(c, cur, rows[k]);
      if n.None? {
        ApSysFailSticks(c, Start, rows, k + 1);
        return None;
      }
      cur := n.value;
      k := k + 1;
    }
    assert rows[..k] == rows;
    r := Some(cur);
  }

  lemma {:induction false} ApSysFailSticks(c: Config, st: ApSysState, rows: seq<seq<string>>, k: nat)
    requires k <= |rows| && ApSysRows(c, st, rows[..k]).None?
    ensures ApSysRows(c, st, rows).None?
    decreases |rows| - k
  {
    if k < |rows| {
      assert rows[..k + 1][..k] == rows[..k];
      ApSysFailSticks(c, st, rows, k + 1);
    } else {
      assert rows[..k] == rows;
    }
  }

  /** Row `i` is an AP counted under profile name `n`. */
  predicate CountedUnder(c: Config, row: seq<string>, n: string)
  {
    CountedProfile(c, row).Some? && CountedProfile(c, row).value.name == n
  }

  /** The ESSIDs a row contributes when it is counted. */
  function RowBridge(c: Config, row: seq<string>): set<string>
  {
    if |row| < 2 then {}
    else match ApKeys(c, Lower(row[1]), Lower(row[0]), false)
      case None => {}
      case Some(s) => BridgeSsids(s)
  }

  predicate ListsAp(c: Config, row: seq<string>, n: string, ap: string)
  {
    CountedUnder(c, row, n) && row[0] == ap
  }

  predicate ListsSsid(c: Config, row: seq<string>, n: string, ssid: string)
  {
    CountedUnder(c, row, n) && ssid in RowBridge(c, row)
  }

  /** The fold unfolded once at its last row. */
  lemma {:induction false} ApSysRowsLast(c: Config, st: ApSysState, rows: seq<seq<string>>)
    requires rows != [] && ApSysRows(c, st, rows).Some?
    ensures ApSysRows(c, st, rows[..|rows| - 1]).Some?
    ensures ApSysRow(c, ApSysRows(c, st, rows[..|rows| - 1]).value, rows[|rows| - 1]) == ApSysRows(c, st, rows)
  {
  }

  /** An AP name is listed under a profile exactly when some row counted under that profile names it. */
  lemma {:induction false} ApSysApMembers(c: Config, st: ApSysState, rows: seq<seq<string>>, n: string, ap: string)
    requires ApSysRows(c, st, rows).Some?
    ensures ap in SetOf(ApSysRows(c, st, rows).value.apSets, n) <==>
      ap in SetOf(st.apSets, n) || exists i :: 0 <= i < |rows| && ListsAp(c, rows[i], n, ap)
    decreases |rows|
  {
    if rows != [] {
      var m := |rows| - 1;
      assert ApSysRows(c, st, rows[..m]).Some?
             && (ap in SetOf(ApSysRows(c, st, rows).value.apSets, n)
                 <==> ap in SetOf(ApSysRows(c, st, rows[..m]).value.apSets, n) || ListsAp(c, rows[m], n, ap)) by {
        ApSysRowsLast(c, st, rows);
        ApSysApStep(c, ApSysRows(c, st, rows[..m]).value, rows[m], n, ap);
      }
      ApSysApMembers(c, st, rows[..m], n, ap);
      ApLast(c, rows, rows[..m], n, ap);
    }
  }

  lemma {:induction false} ApLast(c: Config, rows: seq<seq<string>>, pre: seq<seq<string>>, n: string, ap: string)
    requires rows != [] && pre == rows[..|rows| - 1]
    ensures (exists i :: 0 <= i < |rows| && ListsAp(c, rows[i], n, ap))
            <==> (exists i :: 0 <= i < |pre| && ListsAp(c, pre[i], n, ap)) || ListsAp(c, rows[|rows| - 1], n, ap)
  {
    if exists i :: 0 <= i < |rows| && ListsAp(c, rows[i], n, ap) {
      var i :| 0 <= i < |rows| && ListsAp(c, rows[i], n, ap);
      if i < |pre| {
        assert pre[i] == rows[i];
      }
    }
    if exists i :: 0 <= i < |pre| && ListsAp(c, pre[i], n, ap) {
      var i :| 0 <= i < |pre| && ListsAp(c, pre[i], n, ap);
      assert rows[i] == pre[i];
    }
  }

  lemma {:induction false} SsidLast(c: Config, rows: seq<seq<string>>, pre: seq<seq<string>>, n: string, ssid: string)
    requires rows != [] && pre == rows[..|rows| - 1]
    ensures (exists i :: 0 <= i < |rows| && ListsSsid(c, rows[i], n, ssid))
            <==> (exists i :: 0 <= i < |pre| && ListsSsid(c, pre[i], n, ssid)) || ListsSsid(c, rows[|rows| - 1], n, ssid)
  {
    if exists i :: 0 <= i < |rows| && ListsSsid(c, rows[i], n, ssid) {
      var i :| 0 <= i < |rows| && ListsSsid(c, rows[i], n, ssid);
      if i < |pre| {
        assert pre[i] == rows[i];
      }
    }
    if exists i :: 0 <= i < |pre| && ListsSsid(c, pre[i], n, ssid) {
      var i :| 0 <= i < |pre| && ListsSsid(c, pre[i], n, ssid);
      assert rows[i] == pre[i];
    }
  }

  lemma {:induction false} ApSysApStep(c: Config, p: ApSysState, row: seq<string>, n: string, ap: string)
    requires ApSysRow(c, p, row).Some?
    ensures ap in SetOf(ApSysRow(c, p, row).value.apSets, n) <==> ap in SetOf(p.apSets, n) || ListsAp(c, row, n, ap)
  {
  }

  lemma {:induction false} ApSysSsidStep(c: Config, p: ApSysState, row: seq<string>, n: string, ssid: string)
    requires ApSysRow(c, p, row).Some?
    ensures ssid in SetOf(ApSysRow(c, p, row).value.bridgeSsids, n) <==> ssid in SetOf(p.bridgeSsids, n) || ListsSsid(c, row, n, ssid)
  {
  }

  /** An ESSID is listed under a profile exactly when it is on a bridge VAP of some row counted under that profile. */
  lemma {:induction false} ApSysSsidMembers(c: Config, st: ApSysState, rows: seq<seq<string>>, n: string, ssid: string)
    requires ApSysRows(c, st, rows).Some?
    ensures ssid in SetOf(ApSysRows(c, st, rows).value.bridgeSsids, n) <==>
      ssid in SetOf(st.bridgeSsids, n) || exists i :: 0 <= i < |rows| && ListsSsid(c, rows[i], n, ssid)
    decreases |rows|
  {
    if rows != [] {
      var m := |rows| - 1;
      assert ApSysRows(c, st, rows[..m]).Some?
             && (ssid in SetOf(ApSysRows(c, st, rows).value.bridgeSsids, n)
                 <==> ssid in SetOf(ApSysRows(c, st, rows[..m]).value.bridgeSsids, n) || ListsSsid(c, rows[m], n, ssid)) by {
        ApSysRowsLast(c, st, rows);
        ApSysSsidStep(c, ApSysRows(c, st, rows[..m]).value, rows[m], n, ssid);
      }
      ApSysSsidMembers(c, st, rows[..m], n, ssid);
      SsidLast(c, rows, rows[..m], n, ssid);
    }
  }

  /** ses_acl_found holds exactly when some row's profile has a session ACL. */
  lemma {:induction false} ApSysAclFound(c: Config, st: ApSysState, rows: seq<seq<string>>)
    requires ApSysRows(c, st, rows).Some?
    ensures ApSysRows(c, st, rows).value.aclFound <==>
      st.aclFound || exists i :: 0 <= i < |rows| && CountedProfile(c, rows[i]).Some?
    decreases |rows|
  {
    if rows != [] {
      var m := |rows| - 1;
      ApSysRowsLast(c, st, rows);
      ApSysAclFound(c, st, rows[..m]);
      assert forall i :: 0 <= i < m ==> rows[..m][i] == rows[i];
      if exists i :: 0 <= i < |rows| && CountedProfile(c, rows[i]).Some? {
        var i :| 0 <= i < |rows| && CountedProfile(c, rows[i]).Some?;
        if i < m {
          assert CountedProfile(c, rows[..m][i]).Some?;
        }
      }
    }
  }

  /**
   * The shape the collected state keeps: both maps have the same profile
   * names, each a defined profile with a session ACL, and an ACL has been
   * found exactly when some profile was collected.
   */
  predicate ApSysOk(c: Config, st: ApSysState)
  {
    st.apSets.Keys == st.bridgeSsids.Keys
    && (st.aclFound <==> st.apSets != map[])
    && forall n :: n in st.apSets ==> n in c.apSystems && c.apSystems[n].sesAcl.Some?
  }

  /** On a parsed configuration (profiles stored under their own names), every row keeps the shape. */
  lemma {:induction false} ApSysRowsOk(v: Variant, c: Config, st: ApSysState, rows: seq<seq<string>>)
    requires ConfigGood(v, c) && ApSysOk(c, st) && ApSysRows(c, st, rows).Some?
    ensures ApSysOk(c, ApSysRows(c, st, rows).value)
    decreases |rows|
  {
    if rows != [] {
      var m := |rows| - 1;
      assert ApSysRows(c, st, rows)
        == (match ApSysRows(c, st, rows[..m]) case None => None case Some(p) => ApSysRow(c, p, rows[m]));
      ApSysRowsOk(v, c, st, rows[..m]);
      var row := rows[m];
      var p := ApSysRows(c, st, rows[..m]).value;
      var r := ApSysRows(c, st, rows).value;
      if CountedProfile(c, row).Some? {
        var q := CountedProfile(c, row).value;
        var k := ApSysName(c, Lower(row[1]), Lower(row[0])).value;
        assert c.apSystems[k] == q && q.name == k;
        assert r.apSets.Keys == p.apSets.Keys + {k};
      }
    }
  }

  /** One output row: controller, profile, its session ACL, the sorted AP names and the sorted bridge ESSIDs, each newline-joined. */
  ghost predicate IsOutputRow(c: Config, st: ApSysState, n: string, row: seq<string>)
    requires n in c.apSystems && c.apSystems[n].sesAcl.Some?
  {
    |row| == 5 && row[0] == c.name && row[1] == n && row[2] == c.apSystems[n].sesAcl.value
    && (exists aps :: SortedOf(aps, SetOf(st.apSets, n)) && row[3] == Join(aps, '\n'))
    && (exists ssids :: SortedOf(ssids, SetOf(st.bridgeSsids, n)) && row[4] == Join(ssids, '\n'))
  }

  /** The row of one profile: file, name, ACL, and its APs and bridge SSIDs sorted, one per line. */
  method OutputRow(c: Config, st: ApSysState, n: string) returns (row: seq<string>)
    requires n in c.apSystems && c.apSystems[n].sesAcl.Some?
    ensures IsOutputRow(c, st, n, row)
  {
    var aps := SortSet(SetOf(st.apSets, n));
    var ssids := SortSet(SetOf(st.bridgeSsids, n));
    row := [c.name, n, c.apSystems[n].sesAcl.value, Join(aps, '\n'), Join(ssids, '\n')];
  }

  /**
   * The summary rows of one file: none when no ACL was found, otherwise one
   * per collected profile, in name order; None for the KeyError of a
   * profile name that is not a key.
   */
  method ApSysTable(c: Config, st: ApSysState) returns (r: Option<seq<seq<string>>>)
    ensures !st.aclFound ==> r == Some([])
    ensures ApSysOk(c, st) ==> r.Some?
    ensures r.Some? && st.aclFound ==>
      exists names :: SortedOf(names, st.apSets.Keys) && |r.value| == |names|
        && forall i :: 0 <= i < |names| ==>
             (names[i] in c.apSystems && c.apSystems[names[i]].sesAcl.Some? && IsOutputRow(c, st, names[i], r.value[i]))
  {
    if !st.aclFound {
      return Some([]);
    }
    var names := SortSet(st.apSets.Keys);
    var out: seq<seq<string>> := [];
    var k := 0;
    while k < |names|
      invariant 0 <= k <= |names| && |out| == k
      invariant forall i :: 0 <= i < k ==> names[i] in c.apSystems && c.apSystems[names[i]].sesAcl.Some?
                                           && IsOutputRow(c, st, names[i], out[i])
    {
      var n := names[k];
      if n !in c.apSystems || c.apSystems[n].sesAcl.None? {
        assert n in st.apSets;
        return None;
      }
      var row := OutputRow(c, st, n);
      out := out + [row];
      k := k + 1;
    }
    r := Some(out);
  }
}
