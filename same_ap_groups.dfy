/**
 * nttbp-sameapgroup.py after parse_config: the ap-groups the AP database
 * uses are visited in name order, and every group whose configuration text
 * equals that of an earlier one is listed under that earlier group; one
 * output row per such earlier group.
 */
module SameApGroups {
  import opened Wrappers
  import opened Text
  import opened AosConfig
  import opened AosConfigFacts
  import opened Sorting

  /** active_apg_names: the lowered ap-group column; None for the IndexError of a row with fewer than two columns. */
  function ActiveGroups(rows: seq<seq<string>>): (r: Option<set<string>>)
    decreases |rows|
  {
    if rows == [] then Some({})
    else match ActiveGroups(rows[..|rows| - 1])
      case None => None
      case Some(s) =>
        var row := rows[|rows| - 1];
        if |row| < 2 then None else Some(s + {Lower(row[1])})
  }

  lemma {:induction false} ActiveMembers(rows: seq<seq<string>>, n: string)
    ensures ActiveGroups(rows).Some? <==> forall i :: 0 <= i < |rows| ==> |rows[i]| >= 2
    ensures ActiveGroups(rows).Some? ==>
      (n in ActiveGroups(rows).value <==> exists i :: 0 <= i < |rows| && Lower(rows[i][1]) == n)
    decreases |rows|
  {
    if rows != [] {
      var m := |rows| - 1;
      ActiveMembers(rows[..m], n);
      assert forall i :: 0 <= i < m ==> rows[..m][i] == rows[i];
      if ActiveGroups(rows).Some? {
        if exists i :: 0 <= i < |rows| && Lower(rows[i][1]) == n {
          var i :| 0 <= i < |rows| && Lower(rows[i][1]) == n;
          if i < m {
            assert Lower(rows[..m][i][1]) == n;
          }
        }
      }
    }
  }

  method CollectActive(rows: seq<seq<string>>) returns (r: Option<set<string>>)
    ensures r == ActiveGroups(rows)
  {
    var s: set<string> := {};
    var k := 0;
    while k < |rows|
      invariant 0 <= k <= |rows|
      invariant ActiveGroups(rows[..k]) == Some(s)
    {
      assert rows[..k + 1][..k] == rows[..k];
      if |rows[k]| < 2 {
        ActiveNoneSticks(rows, k + 1);
        return None;
      }
      s := s + {Lower(rows[k][1])};
      k := k + 1;
    }
    assert rows[..k] == rows;
    r := Some(s);
  }

  lemma {:induction false} ActiveNoneSticks(rows: seq<seq<string>>, k: nat)
    requires k <= |rows| && ActiveGroups(rows[..k]).None?
    ensures ActiveGroups(rows).None?
    decreases |rows| - k
  {
    if k < |rows| {
      assert rows[..k + 1][..k] == rows[..k];
      ActiveNoneSticks(rows, k + 1);
    } else {
      assert rows[..k] == rows;
    }
  }

  /** An entry of same_apg_lists: the first group with a configuration and the later ones with the same. */
  datatype Dup = Dup(orig: string, dups: seq<string>)

  /** apg_conf_dict (configuration text to first group) and same_apg_lists, kept in insertion order. */
  datatype DupState = DupState(confs: map<string, ApGroup>, groups: seq<Dup>)

  const NoDups := DupState(map[], [])

  /** The position of the entry for `o`, if any. */
  function Find(groups: seq<Dup>, o: string): (r: Option<nat>)
    ensures r.Some? ==> r.value < |groups| && groups[r.value].orig == o
    ensures r.None? ==> forall j :: 0 <= j < |groups| ==> groups[j].orig != o
    decreases |groups|
  {
    if groups == [] then None
    else if groups[|groups| - 1].orig == o then Some(|groups| - 1)
    else Find(groups[..|groups| - 1], o)
  }

  /** One group of `for apg_n in sorted(active_apg_names)`; None for the KeyError of an undefined group. */
  function DupStep(c: Config, st: DupState, n: string): Option<DupState>
  {
    if n !in c.apGroups then None
    else
      var g := c.apGroups[n];
      if g.conf in st.confs then
        var orig := st.confs[g.conf].name;
        match Find(st.groups, orig)
        case Some(j) => Some(st.(groups := st.groups[j := Dup(orig, st.groups[j].dups + [g.name])]))
        case None => Some(st.(groups := st.groups + [Dup(orig, [g.name])]))
      else Some(st.(confs := st.confs[g.conf := g]))
  }

  function DupFold(c: Config, st: DupState, names: seq<string>): Option<DupState>
    decreases |names|
  {
    if names == [] then Some(st)
    else match DupFold(c, st, names[..|names| - 1])
      case None => None
      case Some(p) => DupStep(c, p, names[|names| - 1])
  }

  method FindDups(c: Config, names: seq<string>) returns (r: Option<DupState>)
    ensures r == DupFold(c, NoDups, names)
  {
    var st := NoDups;
    var k := 0;
    while k < |names|
      invariant 0 <= k <= |names|
      invariant DupFold(c, NoDups, names[..k]) == Some(st)
    {
      assert names[..k + 1][..k] == names[..k];
      var n := names[k];
      if n !in c.apGroups {
        DupNoneSticks(c, NoDups, names, k + 1);
        return None;
      }
      var g := c.apGroups[n];
      if g.conf in st.confs {
        var orig := st.confs[g.conf].name;
        var j := Find(st.groups, orig);
        if j.Some? {
          st := st.(groups := st.groups[j.value := Dup(orig, st.groups[j.value].dups + [g.name])]);
        } else {
          st := st.(groups := st.groups + [Dup(orig, [g.name])]);
        }
      } else {
        st := st.(confs := st.confs[g.conf := g]);
      }
      k := k + 1;
    }
    assert names[..k] == names;
    r := Some(st);
  }

  lemma {:induction false} DupNoneSticks(c: Config, st: DupState, names: seq<string>, k: nat)
    requires k <= |names| && DupFold(c, st, names[..k]).None?
    ensures DupFold(c, st, names).None?
    decreases |names| - k
  {
    if k < |names| {
      assert names[..k + 1][..k] == names[..k];
      DupNoneSticks(c, st, names, k + 1);
    } else {
      assert names[..k] == names;
    }
  }

  /** The names of the visited groups whose configuration text is `k`, in visiting order. */
  function Members(c: Config, names: seq<string>, k: string): seq<string>
    decreases |names|
  {
    if names == [] then []
    else
      var n := names[|names| - 1];
      Members(c, names[..|names| - 1], k) + (if n in c.apGroups && c.apGroups[n].conf == k then [c.apGroups[n].name] else [])
  }

  /** Every member is the name of a visited group with that configuration, and every such group is a member. */
  lemma {:induction false} MembersSource(c: Config, names: seq<string>, k: string, j: nat)
    requires j < |Members(c, names, k)|
    ensures exists i :: 0 <= i < |names| && names[i] in c.apGroups && c.apGroups[names[i]].conf == k
                        && c.apGroups[names[i]].name == Members(c, names, k)[j]
    decreases |names|
  {
    var m := |names| - 1;
    var p := Members(c, names[..m], k);
    if j < |p| {
      MembersSource(c, names[..m], k, j);
      var i :| 0 <= i < m && names[..m][i] in c.apGroups && c.apGroups[names[..m][i]].conf == k
                && c.apGroups[names[..m][i]].name == p[j];
      assert names[i] == names[..m][i];
    } else {
      assert names[m] in c.apGroups && c.apGroups[names[m]].name == Members(c, names, k)[j];
    }
  }

  lemma {:induction false} MembersEmpty(c: Config, names: seq<string>, k: string, i: nat)
    requires i < |names| && names[i] in c.apGroups && c.apGroups[names[i]].conf == k
    ensures |Members(c, names, k)| > 0
    decreases |names|
  {
    var m := |names| - 1;
    if i < m {
      MembersEmpty(c, names[..m], k, i);
    }
  }

  /** Every visited group is stored under its own name lowered (the lookup of the output row relies on it). */
  predicate KeyedByLower(c: Config, names: seq<string>)
  {
    forall i :: 0 <= i < |names| && names[i] in c.apGroups ==> Lower(c.apGroups[names[i]].name) == names[i]
  }

  /**
   * What the state holds after visiting `names`: the first group with each
   * configuration seen, and, for each configuration shared by more than one
   * visited group, exactly one entry listing the later ones in visiting order.
   */
  ghost predicate DupsInv(c: Config, names: seq<string>, st: DupState)
  {
    FirstsOk(c, names, st) && SeenOk(c, names, st) && EntriesOk(c, names, st) && CompleteOk(c, names, st)
    && DistinctOrigs(st.groups)
  }

  /** Each configuration seen is mapped to its first group. */
  ghost predicate FirstsOk(c: Config, names: seq<string>, st: DupState)
  {
    forall k :: k in st.confs ==> |Members(c, names, k)| > 0 && st.confs[k].name == Members(c, names, k)[0]
  }

  /** Every visited group's configuration has been seen. */
  ghost predicate SeenOk(c: Config, names: seq<string>, st: DupState)
  {
    forall i :: 0 <= i < |names| && names[i] in c.apGroups ==> c.apGroups[names[i]].conf in st.confs
  }

  /** Each entry lists the later groups of a configuration shared by more than one. */
  ghost predicate EntriesOk(c: Config, names: seq<string>, st: DupState)
  {
    forall j :: 0 <= j < |st.groups| ==> EntryOk(c, names, st, st.groups[j])
  }

  /** The entry `d` lists the later groups of a configuration shared by more than one. */
  ghost predicate EntryOk(c: Config, names: seq<string>, st: DupState, d: Dup)
  {
    exists k :: k in st.confs && st.confs[k].name == d.orig
                && |Members(c, names, k)| > 1 && d.dups == Members(c, names, k)[1..]
  }

  /** Each configuration shared by more than one group has an entry. */
  ghost predicate CompleteOk(c: Config, names: seq<string>, st: DupState)
  {
    forall k :: k in st.confs && |Members(c, names, k)| > 1 ==> Find(st.groups, st.confs[k].name).Some?
  }

  predicate DistinctOrigs(groups: seq<Dup>)
  {
    forall j, j' :: 0 <= j < j' < |groups| ==> groups[j].orig != groups[j'].orig
  }

  /** Two configurations never have first groups of the same name. */
  lemma {:induction false} OrigInjective(c: Config, names: seq<string>, st: DupState, k1: string, k2: string)
    requires KeyedByLower(c, names) && FirstsOk(c, names, st)
    requires k1 in st.confs && k2 in st.confs && st.confs[k1].name == st.confs[k2].name
    ensures k1 == k2
  {
    MembersSource(c, names, k1, 0);
    MembersSource(c, names, k2, 0);
  }

  lemma {:induction false} MembersSnoc(c: Config, names: seq<string>, n: string, k: string)
    ensures Members(c, names + [n], k)
      == Members(c, names, k) + (if n in c.apGroups && c.apGroups[n].conf == k then [c.apGroups[n].name] else [])
  {
    assert (names + [n])[..|names|] == names;
  }

  lemma {:induction false} KeyedPrefix(c: Config, names: seq<string>, n: string)
    requires KeyedByLower(c, names + [n])
    ensures KeyedByLower(c, names)
  {
    forall i | 0 <= i < |names| && names[i] in c.apGroups
      ensures Lower(c.apGroups[names[i]].name) == names[i]
    {
      assert (names + [n])[i] == names[i];
    }
  }

  /** A group with a configuration not seen before becomes the first of it. */
  lemma {:induction false} StepNewConf(c: Config, names: seq<string>, st: DupState, n: string)
    requires DupsInv(c, names, st) && n in c.apGroups && c.apGroups[n].conf !in st.confs
    ensures DupStep(c, st, n).Some? && DupsInv(c, names + [n], DupStep(c, st, n).value)
  {
    var g := c.apGroups[n];
    assert DupStep(c, st, n) == Some(st.(confs := st.confs[g.conf := g]));
    NewConfFirsts(c, names, st, n);
    NewConfEntries(c, names, st, n);
    NewConfComplete(c, names, st, n);
  }

  /** The members of each configuration after a group with a new one. */
  lemma {:induction false} NewConfMembers(c: Config, names: seq<string>, st: DupState, n: string)
    requires SeenOk(c, names, st) && n in c.apGroups && c.apGroups[n].conf !in st.confs
    ensures forall k :: k != c.apGroups[n].conf ==> Members(c, names + [n], k) == Members(c, names, k)
    ensures Members(c, names + [n], c.apGroups[n].conf) == [c.apGroups[n].name]
  {
    var g := c.apGroups[n];
    forall k
      ensures Members(c, names + [n], k) == Members(c, names, k) + (if g.conf == k then [g.name] else [])
    {
      MembersSnoc(c, names, n, k);
    }
    if |Members(c, names, g.conf)| > 0 {
      MembersSource(c, names, g.conf, 0);
    }
  }

  lemma {:induction false} NewConfFirsts(c: Config, names: seq<string>, st: DupState, n: string)
    requires FirstsOk(c, names, st) && SeenOk(c, names, st) && n in c.apGroups && c.apGroups[n].conf !in st.confs
    ensures var st' := st.(confs := st.confs[c.apGroups[n].conf := c.apGroups[n]]);
      FirstsOk(c, names + [n], st') && SeenOk(c, names + [n], st')
  {
    var g := c.apGroups[n];
    var names' := names + [n];
    var st' := st.(confs := st.confs[g.conf := g]);
    NewConfMembers(c, names, st, n);
    forall k | k in st'.confs
      ensures |Members(c, names', k)| > 0 && st'.confs[k].name == Members(c, names', k)[0]
    {
      if k != g.conf {
        assert Members(c, names', k) == Members(c, names, k);
      }
    }
    forall i | 0 <= i < |names'| && names'[i] in c.apGroups
      ensures c.apGroups[names'[i]].conf in st'.confs
    {
      if i < |names| {
        assert names'[i] == names[i];
      }
    }
  }

  lemma {:induction false} NewConfEntries(c: Config, names: seq<string>, st: DupState, n: string)
    requires SeenOk(c, names, st) && EntriesOk(c, names, st) && n in c.apGroups && c.apGroups[n].conf !in st.confs
    ensures DupStep(c, st, n).Some? && EntriesOk(c, names + [n], DupStep(c, st, n).value)
  {
    var g := c.apGroups[n];
    var st' := st.(confs := st.confs[g.conf := g]);
    assert DupStep(c, st, n) == Some(st');
    NewConfMembers(c, names, st, n);
    EntriesKept(c, names, names + [n], st, st');
  }

  /** The entries stay right when the old configurations keep their first groups and their members. */
  lemma {:induction false} EntriesKept(c: Config, names: seq<string>, names': seq<string>, st: DupState, st': DupState)
    requires EntriesOk(c, names, st) && st'.groups == st.groups
    requires forall k :: k in st.confs ==> k in st'.confs && st'.confs[k] == st.confs[k]
    requires forall k :: k in st.confs ==> Members(c, names', k) == Members(c, names, k)
    ensures EntriesOk(c, names', st')
  {
    forall j | 0 <= j < |st'.groups|
      ensures EntryOk(c, names', st', st'.groups[j])
    {
      assert st'.groups[j] == st.groups[j];
      var k0 :| k0 in st.confs && st.confs[k0].name == st.groups[j].orig
                && |Members(c, names, k0)| > 1 && st.groups[j].dups == Members(c, names, k0)[1..];
      assert k0 in st'.confs && st'.confs[k0].name == st'.groups[j].orig;
    }
  }

  lemma {:induction false} NewConfComplete(c: Config, names: seq<string>, st: DupState, n: string)
    requires SeenOk(c, names, st) && CompleteOk(c, names, st) && n in c.apGroups && c.apGroups[n].conf !in st.confs
    ensures CompleteOk(c, names + [n], st.(confs := st.confs[c.apGroups[n].conf := c.apGroups[n]]))
  {
    var g := c.apGroups[n];
    var names' := names + [n];
    var st' := st.(confs := st.confs[g.conf := g]);
    NewConfMembers(c, names, st, n);
    forall k | k in st'.confs && |Members(c, names', k)| > 1
      ensures Find(st'.groups, st'.confs[k].name).Some?
    {
      assert Members(c, names', k) == Members(c, names, k);
    }
  }

  /** Facts shared by both cases of a group whose configuration was seen before. */
  lemma {:induction false} KnownConfFacts(c: Config, names: seq<string>, st: DupState, n: string)
    requires KeyedByLower(c, names) && FirstsOk(c, names, st) && n in c.apGroups && c.apGroups[n].conf in st.confs
    ensures forall k :: (Members(c, names + [n], k)
      == Members(c, names, k) + (if c.apGroups[n].conf == k then [c.apGroups[n].name] else []))
    ensures forall k :: k in st.confs && k != c.apGroups[n].conf ==> st.confs[k].name != st.confs[c.apGroups[n].conf].name
    ensures |Members(c, names, c.apGroups[n].conf)| > 0
  {
    var g := c.apGroups[n];
    forall k
      ensures Members(c, names + [n], k) == Members(c, names, k) + (if g.conf == k then [g.name] else [])
    {
      MembersSnoc(c, names, n, k);
    }
    forall k | k in st.confs && k != g.conf
      ensures st.confs[k].name != st.confs[g.conf].name
    {
      if st.confs[k].name == st.confs[g.conf].name {
        OrigInjective(c, names, st, k, g.conf);
      }
    }
  }

  /** A later group with an already seen configuration joins the entry of that configuration's first group. */
  lemma {:induction false} StepKnownConf(c: Config, names: seq<string>, st: DupState, n: string)
    requires KeyedByLower(c, names) && DupsInv(c, names, st) && n in c.apGroups && c.apGroups[n].conf in st.confs
    ensures DupStep(c, st, n).Some? && DupsInv(c, names + [n], DupStep(c, st, n).value)
  {
    var g := c.apGroups[n];
    var names' := names + [n];
    var st' := DupStep(c, st, n).value;
    var orig := st.confs[g.conf].name;
    assert st'.confs == st.confs;
    KnownConfFacts(c, names, st, n);
    var M := Members(c, names, g.conf);
    assert Members(c, names', g.conf) == M + [g.name];
    forall k | k in st'.confs
      ensures |Members(c, names', k)| > 0 && st'.confs[k].name == Members(c, names', k)[0]
    {
    }
    forall i | 0 <= i < |names'| && names'[i] in c.apGroups
      ensures c.apGroups[names'[i]].conf in st'.confs
    {
      if i < |names| {
        assert names'[i] == names[i];
      }
    }
    if Find(st.groups, orig).Some? {
      StepJoin(c, names, st, n);
      StepJoinComplete(c, names, st, n);
    } else {
      StepFirstDup(c, names, st, n);
    }
  }

  /** The entry whose first group is that of configuration `k` lists the later groups of `k`. */
  lemma {:induction false} EntryOf(c: Config, names: seq<string>, st: DupState, j: nat, k: string)
    requires KeyedByLower(c, names) && FirstsOk(c, names, st) && EntriesOk(c, names, st)
    requires k in st.confs && j < |st.groups| && st.groups[j].orig == st.confs[k].name
    ensures |Members(c, names, k)| > 1 && st.groups[j].dups == Members(c, names, k)[1..]
  {
    var k0 :| k0 in st.confs && st.confs[k0].name == st.groups[j].orig
              && |Members(c, names, k0)| > 1 && st.groups[j].dups == Members(c, names, k0)[1..];
    OrigInjective(c, names, st, k0, k);
  }

  /** The entry of the first group exists: the group is appended to it. */
  lemma {:induction false} StepJoin(c: Config, names: seq<string>, st: DupState, n: string)
    requires KeyedByLower(c, names) && FirstsOk(c, names, st) && EntriesOk(c, names, st) && DistinctOrigs(st.groups)
    requires n in c.apGroups && c.apGroups[n].conf in st.confs
    requires Find(st.groups, st.confs[c.apGroups[n].conf].name).Some?
    ensures DupStep(c, st, n).Some?
    ensures EntriesOk(c, names + [n], DupStep(c, st, n).value)
  {
    var g := c.apGroups[n];
    var names' := names + [n];
    var orig := st.confs[g.conf].name;
    var j := Find(st.groups, orig).value;
    KnownConfFacts(c, names, st, n);
    var M := Members(c, names, g.conf);
    EntryOf(c, names, st, j, g.conf);
    assert (M + [g.name])[1..] == M[1..] + [g.name];
    var st' := st.(groups := st.groups[j := Dup(orig, M[1..] + [g.name])]);
    assert DupStep(c, st, n) == Some(st');
    forall j' | 0 <= j' < |st'.groups|
      ensures exists k :: k in st'.confs && st'.confs[k].name == st'.groups[j'].orig
                      && |Members(c, names', k)| > 1 && st'.groups[j'].dups == Members(c, names', k)[1..]
    {
      if j' == j {
        assert st'.confs[g.conf].name == st'.groups[j'].orig;
      } else {
        assert st'.groups[j'] == st.groups[j'];
        var k1 :| k1 in st.confs && st.confs[k1].name == st.groups[j'].orig
                  && |Members(c, names, k1)| > 1 && st.groups[j'].dups == Members(c, names, k1)[1..];
        assert k1 != g.conf;
        assert Members(c, names', k1) == Members(c, names, k1);
      }
    }
    assert EntriesOk(c, names', st');
  }

  /** StepJoin, continued: the entries stay complete and distinct. */
  lemma {:induction false} StepJoinComplete(c: Config, names: seq<string>, st: DupState, n: string)
    requires KeyedByLower(c, names) && FirstsOk(c, names, st) && CompleteOk(c, names, st) && DistinctOrigs(st.groups)
    requires n in c.apGroups && c.apGroups[n].conf in st.confs
    requires Find(st.groups, st.confs[c.apGroups[n].conf].name).Some?
    ensures DupStep(c, st, n).Some?
    ensures CompleteOk(c, names + [n], DupStep(c, st, n).value)
    ensures DistinctOrigs(DupStep(c, st, n).value.groups)
  {
    var g := c.apGroups[n];
    var names' := names + [n];
    var orig := st.confs[g.conf].name;
    var j := Find(st.groups, orig).value;
    KnownConfFacts(c, names, st, n);
    var st' := DupStep(c, st, n).value;
    assert forall j' :: 0 <= j' < |st'.groups| ==> st'.groups[j'].orig == st.groups[j'].orig;
    FindSame(st.groups, st'.groups);
    forall k | k in st'.confs && |Members(c, names', k)| > 1
      ensures Find(st'.groups, st'.confs[k].name).Some?
    {
      if k != g.conf {
        assert Members(c, names', k) == Members(c, names, k);
      }
    }
    forall j1, j2 | 0 <= j1 < j2 < |st'.groups|
      ensures st'.groups[j1].orig != st'.groups[j2].orig
    {
      assert st'.groups[j1].orig == st.groups[j1].orig && st'.groups[j2].orig == st.groups[j2].orig;
    }
  }

  /** The first group gets its entry, at the end of the list, holding the group. */
  lemma {:induction false} StepFirstDup(c: Config, names: seq<string>, st: DupState, n: string)
    requires KeyedByLower(c, names) && DupsInv(c, names, st) && n in c.apGroups && c.apGroups[n].conf in st.confs
    requires Find(st.groups, st.confs[c.apGroups[n].conf].name).None?
    ensures DupStep(c, st, n).Some?
    ensures EntriesOk(c, names + [n], DupStep(c, st, n).value)
    ensures CompleteOk(c, names + [n], DupStep(c, st, n).value)
    ensures DistinctOrigs(DupStep(c, st, n).value.groups)
  {
    StepFirstEntries(c, names, st, n);
    StepFirstComplete(c, names, st, n);
  }

  lemma {:induction false} StepFirstEntries(c: Config, names: seq<string>, st: DupState, n: string)
    requires KeyedByLower(c, names) && FirstsOk(c, names, st) && EntriesOk(c, names, st) && CompleteOk(c, names, st)
    requires n in c.apGroups && c.apGroups[n].conf in st.confs
    requires Find(st.groups, st.confs[c.apGroups[n].conf].name).None?
    ensures DupStep(c, st, n).Some?
    ensures EntriesOk(c, names + [n], DupStep(c, st, n).value)
  {
    var g := c.apGroups[n];
    var names' := names + [n];
    var orig := st.confs[g.conf].name;
    KnownConfFacts(c, names, st, n);
    var M := Members(c, names, g.conf);
    assert |M| == 1;
    assert (M + [g.name])[1..] == [g.name];
    var st' := st.(groups := st.groups + [Dup(orig, [g.name])]);
    assert DupStep(c, st, n) == Some(st');
    forall j | 0 <= j < |st'.groups|
      ensures exists k :: k in st'.confs && st'.confs[k].name == st'.groups[j].orig
                    && |Members(c, names', k)| > 1 && st'.groups[j].dups == Members(c, names', k)[1..]
    {
      if j == |st.groups| {
        assert st'.confs[g.conf].name == st'.groups[j].orig;
      } else {
        assert st'.groups[j] == st.groups[j];
        var k0 :| k0 in st.confs && st.confs[k0].name == st.groups[j].orig
                  && |Members(c, names, k0)| > 1 && st.groups[j].dups == Members(c, names, k0)[1..];
        assert k0 != g.conf;
        assert Members(c, names', k0) == Members(c, names, k0);
      }
    }
    assert EntriesOk(c, names', st');
  }

  lemma {:induction false} StepFirstComplete(c: Config, names: seq<string>, st: DupState, n: string)
    requires KeyedByLower(c, names) && FirstsOk(c, names, st) && CompleteOk(c, names, st) && DistinctOrigs(st.groups)
    requires n in c.apGroups && c.apGroups[n].conf in st.confs
    requires Find(st.groups, st.confs[c.apGroups[n].conf].name).None?
    ensures DupStep(c, st, n).Some?
    ensures CompleteOk(c, names + [n], DupStep(c, st, n).value)
    ensures DistinctOrigs(DupStep(c, st, n).value.groups)
  {
    var g := c.apGroups[n];
    var names' := names + [n];
    var orig := st.confs[g.conf].name;
    KnownConfFacts(c, names, st, n);
    var st' := st.(groups := st.groups + [Dup(orig, [g.name])]);
    assert DupStep(c, st, n) == Some(st');
    forall k | k in st'.confs && |Members(c, names', k)| > 1
      ensures Find(st'.groups, st'.confs[k].name).Some?
    {
      if k != g.conf {
        assert Members(c, names', k) == Members(c, names, k);
      }
      FindExtend(st.groups, Dup(orig, [g.name]), st.confs[k].name);
    }
    forall j1, j2 | 0 <= j1 < j2 < |st'.groups|
      ensures st'.groups[j1].orig != st'.groups[j2].orig
    {
      if j2 < |st.groups| {
        assert st'.groups[j1] == st.groups[j1] && st'.groups[j2] == st.groups[j2];
      } else {
        assert st'.groups[j1] == st.groups[j1];
      }
    }
  }

  lemma {:induction false} DupStepInv(c: Config, names: seq<string>, st: DupState, n: string)
    requires KeyedByLower(c, names + [n]) && DupsInv(c, names, st) && n in c.apGroups
    ensures DupStep(c, st, n).Some? && DupsInv(c, names + [n], DupStep(c, st, n).value)
  {
    KeyedPrefix(c, names, n);
    if c.apGroups[n].conf in st.confs {
      StepKnownConf(c, names, st, n);
    } else {
      StepNewConf(c, names, st, n);
    }
  }

  lemma {:induction false} FindSame(gs: seq<Dup>, hs: seq<Dup>)
    requires |gs| == |hs| && forall j :: 0 <= j < |gs| ==> gs[j].orig == hs[j].orig
    ensures forall o :: Find(gs, o).Some? <==> Find(hs, o).Some?
  {
    forall o
      ensures Find(gs, o).Some? <==> Find(hs, o).Some?
    {
      if Find(gs, o).Some? {
        assert hs[Find(gs, o).value].orig == o;
      }
      if Find(hs, o).Some? {
        assert gs[Find(hs, o).value].orig == o;
      }
    }
  }

  lemma {:induction false} FindExtend(gs: seq<Dup>, d: Dup, o: string)
    requires Find(gs, o).Some? || d.orig == o
    ensures Find(gs + [d], o).Some?
  {
    if d.orig != o {
      var j := Find(gs, o).value;
      assert (gs + [d])[j].orig == o;
    }
  }

  /** The fold keeps DupsInv. */
  lemma {:induction false} DupFoldInv(c: Config, names: seq<string>)
    requires KeyedByLower(c, names) && DupFold(c, NoDups, names).Some?
    ensures DupsInv(c, names, DupFold(c, NoDups, names).value)
    decreases |names|
  {
    if names != [] {
      var m := |names| - 1;
      assert names == names[..m] + [names[m]];
      assert KeyedByLower(c, names[..m]) by {
        forall i | 0 <= i < m && names[..m][i] in c.apGroups
          ensures Lower(c.apGroups[names[..m][i]].name) == names[..m][i]
        {
          assert names[..m][i] == names[i];
        }
      }
      DupFoldInv(c, names[..m]);
      DupStepInv(c, names[..m], DupFold(c, NoDups, names[..m]).value, names[m]);
    }
  }

  /** s[:-1] */
  function DropLast(s: string): (r: string)
    ensures s != [] ==> s == r + [s[|s| - 1]]
    ensures s == [] ==> r == []
  {
    if s == [] then [] else s[..|s| - 1]
  }

  lemma {:induction false} JoinSnoc(parts: seq<string>, x: string, sep: char)
    requires parts != []
    ensures Join(parts + [x], sep) == Join(parts, sep) + [sep] + x
    decreases |parts|
  {
    if |parts| == 1 {
      assert parts + [x] == [parts[0], x];
    } else {
      JoinSnoc(parts[1..], x, sep);
      assert (parts + [x])[1..] == parts[1..] + [x];
    }
  }

  /** The second column: the first group and then each later one, newline-separated. */
  method GroupCell(d: Dup) returns (cell: string)
    ensures cell == Join([d.orig] + d.dups, '\n')
  {
    cell := d.orig;
    var k := 0;
    while k < |d.dups|
      invariant 0 <= k <= |d.dups|
      invariant cell == Join([d.orig] + d.dups[..k], '\n')
    {
      JoinSnoc([d.orig] + d.dups[..k], d.dups[k], '\n');
      assert [d.orig] + d.dups[..k + 1] == [d.orig] + d.dups[..k] + [d.dups[k]];
      cell := cell + "\n" + d.dups[k];
      k := k + 1;
    }
    assert d.dups[..k] == d.dups;
  }

  /** `out` holds one row per entry of same_apg_lists, in order: the controller, the entry's groups, its first group's text without the final newline. */
  predicate RowsOfState(c: Config, controller: string, st: DupState, out: seq<seq<string>>)
  {
    |out| == |st.groups|
    && forall j :: 0 <= j < |st.groups| ==>
      Lower(st.groups[j].orig) in c.apGroups
      && out[j] == [controller, Join([st.groups[j].orig] + st.groups[j].dups, '\n'),
                    DropLast(c.apGroups[Lower(st.groups[j].orig)].conf)]
  }

  /** The output rows, one per entry of same_apg_lists; None for the KeyError of a group not stored under its name lowered. */
  method DupRows(c: Config, controller: string, st: DupState) returns (r: Option<seq<seq<string>>>)
    ensures r.Some? <==> forall j :: 0 <= j < |st.groups| ==> Lower(st.groups[j].orig) in c.apGroups
    ensures r.Some? ==> RowsOfState(c, controller, st, r.value)
  {
    var out: seq<seq<string>> := [];
    var k := 0;
    while k < |st.groups|
      invariant 0 <= k <= |st.groups| && |out| == k
      invariant forall j :: 0 <= j < k ==> Lower(st.groups[j].orig) in c.apGroups
      invariant forall j :: 0 <= j < k ==>
        out[j] == [controller, Join([st.groups[j].orig] + st.groups[j].dups, '\n'),
                   DropLast(c.apGroups[Lower(st.groups[j].orig)].conf)]
    {
      var d := st.groups[k];
      if Lower(d.orig) !in c.apGroups {
        return None;
      }
      var cell := GroupCell(d);
      out := out + [[controller, cell, DropLast(c.apGroups[Lower(d.orig)].conf)]];
      k := k + 1;
    }
    r := Some(out);
  }

  /**
   * The rows of one file. Over groups stored under their names lowered,
   * every row names the visited groups with one configuration text, in
   * name order and at least two of them, and carries that text without its
   * final newline; and every configuration shared by two visited groups has
   * a row.
   */
  lemma {:induction false} DupTable(c: Config, names: seq<string>, st: DupState, k: string)
    requires KeyedByLower(c, names) && DupFold(c, NoDups, names) == Some(st)
    ensures forall j :: 0 <= j < |st.groups| ==>
      Lower(st.groups[j].orig) in c.apGroups
      && [st.groups[j].orig] + st.groups[j].dups == Members(c, names, c.apGroups[Lower(st.groups[j].orig)].conf)
      && |Members(c, names, c.apGroups[Lower(st.groups[j].orig)].conf)| > 1
    ensures |Members(c, names, k)| > 1 ==>
      exists j :: 0 <= j < |st.groups| && Lower(st.groups[j].orig) in c.apGroups
                  && c.apGroups[Lower(st.groups[j].orig)].conf == k
    ensures DistinctOrigs(st.groups)
  {
    DupFoldInv(c, names);
    forall j | 0 <= j < |st.groups|
      ensures Lower(st.groups[j].orig) in c.apGroups
      ensures [st.groups[j].orig] + st.groups[j].dups == Members(c, names, c.apGroups[Lower(st.groups[j].orig)].conf)
      ensures |Members(c, names, c.apGroups[Lower(st.groups[j].orig)].conf)| > 1
    {
      var k0 :| k0 in st.confs && st.confs[k0].name == st.groups[j].orig
                && |Members(c, names, k0)| > 1 && st.groups[j].dups == Members(c, names, k0)[1..];
      MembersSource(c, names, k0, 0);
      var M := Members(c, names, k0);
      assert M == [M[0]] + M[1..];
    }
    if |Members(c, names, k)| > 1 {
      var i :| 0 <= i < |names| && names[i] in c.apGroups && c.apGroups[names[i]].conf == k
               && c.apGroups[names[i]].name == Members(c, names, k)[0] by {
        MembersSource(c, names, k, 0);
      }
      var j := Find(st.groups, st.confs[k].name).value;
      assert Lower(st.groups[j].orig) == names[i];
    }
  }

  /** Groups looked up by a lowered name in a parsed configuration are stored under their name lowered. */
  lemma {:induction false} ParsedKeyedByLower(c: Config, names: seq<string>)
    requires ConfigGood(SameApGroup, c) && forall i :: 0 <= i < |names| ==> Lowered(names[i])
    ensures KeyedByLower(c, names)
  {
    forall i | 0 <= i < |names| && names[i] in c.apGroups
      ensures Lower(c.apGroups[names[i]].name) == names[i]
    {
      assert GroupKeyOk(SameApGroup, names[i], c.apGroups[names[i]]);
    }
  }

  /** Every visited group's name is one of the groups of `c`: only then does the fold raise no KeyError. */
  lemma {:induction false} DupFoldDefined(c: Config, st: DupState, names: seq<string>)
    ensures DupFold(c, st, names).Some? <==> forall i :: 0 <= i < |names| ==> names[i] in c.apGroups
    decreases |names|
  {
    if names != [] {
      var m := |names| - 1;
      DupFoldDefined(c, st, names[..m]);
      assert forall i :: 0 <= i < m ==> names[..m][i] == names[i];
    }
  }

  /**
   * The rows are exactly one per configuration text shared by two or more
   * of the listed groups: row j belongs to the text ks[j], no text has two
   * rows, and every shared text has one.
   */
  ghost predicate RowsShareConf(c: Config, controller: string, names: seq<string>, out: seq<seq<string>>)
  {
    exists ks: seq<string> :: RowsForConfs(c, controller, names, ks, out)
  }

  ghost predicate RowsForConfs(c: Config, controller: string, names: seq<string>, ks: seq<string>, out: seq<seq<string>>)
  {
    |ks| == |out|
    && (forall j1, j2 :: 0 <= j1 < j2 < |ks| ==> ks[j1] != ks[j2])
    && (forall j :: 0 <= j < |ks| ==>
      |Members(c, names, ks[j])| > 1 && out[j] == [controller, Join(Members(c, names, ks[j]), '\n'), DropLast(ks[j])])
    && (forall k :: |Members(c, names, k)| > 1 ==> k in ks)
  }

  /**
   * The whole report of one controller: the active groups in name order,
   * their duplicates, and the rows. It fails exactly for a short database
   * row or, on a parsed configuration, an active group the configuration
   * does not define; the rows are those of same_apg_lists after the fold
   * over the sorted names, and on a parsed configuration they list the
   * active groups sharing one configuration text, one row per shared text.
   */
  method SameGroupRows(c: Config, controller: string, rows: seq<seq<string>>) returns (r: Option<seq<seq<string>>>)
    ensures ActiveGroups(rows).None? ==> r.None?
    ensures r.Some? ==> ActiveGroups(rows).Some? && forall n :: n in ActiveGroups(rows).value ==> n in c.apGroups
    ensures ConfigGood(SameApGroup, c) && ActiveGroups(rows).Some? && (forall n :: n in ActiveGroups(rows).value ==> n in c.apGroups)
      ==> r.Some?
    ensures r.Some? ==> exists names ::
      && SortedOf(names, ActiveGroups(rows).value)
      && DupFold(c, NoDups, names).Some?
      && RowsOfState(c, controller, DupFold(c, NoDups, names).value, r.value)
    ensures ConfigGood(SameApGroup, c) && r.Some? ==>
      exists names :: SortedOf(names, ActiveGroups(rows).value) && RowsShareConf(c, controller, names, r.value)
  {
    var active := CollectActive(rows);
    if active.None? {
      return None;
    }
    var names := SortSet(active.value);
    DupFoldDefined(c, NoDups, names);
    var st := FindDups(c, names);
    if st.None? {
      var i :| 0 <= i < |names| && names[i] !in c.apGroups;
      assert names[i] in active.value;
      return None;
    }
    assert forall n :: n in active.value ==> n in names;
    if ConfigGood(SameApGroup, c) {
      ActiveLowered(rows, names);
      ParsedKeyedByLower(c, names);
      DupTable(c, names, st.value, "");
    }
    r := DupRows(c, controller, st.value);
    if r.Some? && ConfigGood(SameApGroup, c) {
      RowsTable(c, controller, names, st.value, r.value);
    }
  }
  /** The sorted active names are lowered. */
  lemma {:induction false} ActiveLowered(rows: seq<seq<string>>, names: seq<string>)
    requires ActiveGroups(rows).Some? && SortedOf(names, ActiveGroups(rows).value)
    ensures forall i :: 0 <= i < |names| ==> Lowered(names[i])
  {
    forall i | 0 <= i < |names|
      ensures Lowered(names[i])
    {
      var x :| 0 <= x < |rows| && |rows[x]| >= 2 && Lower(rows[x][1]) == names[i] by {
        ActiveMembers(rows, names[i]);
      }
      LowerIdempotent(rows[x][1]);
    }
  }

  /** DupRows over the state DupFold leaves gives one row per shared configuration text. */
  lemma {:induction false} RowsTable(c: Config, controller: string, names: seq<string>, st: DupState, out: seq<seq<string>>)
    requires KeyedByLower(c, names) && DupFold(c, NoDups, names) == Some(st)
    requires RowsOfState(c, controller, st, out)
    ensures RowsShareConf(c, controller, names, out)
  {
    DupTable(c, names, st, "");
    var ks := seq(|out|, j requires 0 <= j < |out| => c.apGroups[Lower(st.groups[j].orig)].conf);
    forall j1, j2 | 0 <= j1 < j2 < |ks|
      ensures ks[j1] != ks[j2]
    {
      assert st.groups[j1].orig != st.groups[j2].orig;
    }
    forall k | |Members(c, names, k)| > 1
      ensures k in ks
    {
      DupTable(c, names, st, k);
      var j :| 0 <= j < |st.groups| && Lower(st.groups[j].orig) in c.apGroups
               && c.apGroups[Lower(st.groups[j].orig)].conf == k;
      assert ks[j] == k;
    }
    assert RowsForConfs(c, controller, names, ks, out);
  }
}
