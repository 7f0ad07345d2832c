/**
 * The controller level of nttbp-summarize-functinos.py: the VAP set of an
 * AP built by loops, the loop over the AP database rows of one controller
 * that feeds the per-AP step, and the function table `row_add` writes from
 * the counters.
 */
module FunctionsTable {
  import opened Wrappers
  import opened Text
  import opened AosConfig
  import opened VapSets
  import opened SummarizeFunctions

  /** vap_prof_set as the script builds it: add, discard the excluded names one by one, add. */
  method VapProfSet(c: Config, apg: string, apn: string) returns (r: Option<set<Vap>>)
    requires apg in c.apGroups
    ensures r == VapObjs(c, apg, apn)
  {
    var vaps := c.apGroups[apg].vaps;
    var s: set<Vap> := {};
    for i := 0 to |vaps|
      invariant s == set v | v in vaps[..i] && !v.disabled
    {
      assert vaps[..i + 1] == vaps[..i] + [vaps[i]];
      if !vaps[i].disabled {
        s := s + {vaps[i]};
      }
    }
    assert vaps[..|vaps|] == vaps;
    if apn !in c.apNames {
      return Some(s);
    }
    ghost var g := s;
    var names := c.apNames[apn].excludeVaps;
    for j := 0 to |names|
      invariant forall k :: 0 <= k < j ==> names[k] in c.vaps
      invariant s == g - set k | 0 <= k < j :: c.vaps[names[k]]
    {
      if names[j] !in c.vaps {
        return None;
      }
      s := s - {c.vaps[names[j]]};
    }
    var x := Lookup(c.vaps, names).value;
    assert (set v | v in x) == set k | 0 <= k < |names| :: c.vaps[names[k]] by {
      forall v | v in x
        ensures v in set k | 0 <= k < |names| :: c.vaps[names[k]]
      {
        var k :| 0 <= k < |x| && x[k] == v;
      }
    }
    var own := c.apNames[apn].vaps;
    ghost var h := s;
    for i := 0 to |own|
      invariant s == h + set v | v in own[..i] && !v.disabled
    {
      assert own[..i + 1] == own[..i] + [own[i]];
      if !own[i].disabled {
        s := s + {own[i]};
      }
    }
    assert own[..|own|] == own;
    r := Some(s);
  }

  /** Every counted function of a tuple was counted on at least one AP, and on no more APs than carry the tuple. */
  predicate FuncInv(st: FuncState)
  {
    forall p :: p in st.feats ==> 1 <= st.feats[p] <= Count(st.global, p.1)
  }

  /** Each VAP of tuple `t` on the AP has function `f`. */
  predicate AllHave(f: Feature, t: VapKey, info: ApInfo, objs: set<Vap>)
  {
    forall v :: v in objs && KeyOf(v) == Some(t) ==> Has(f, v, info)
  }

  /** The counter entries the AP bumps whichever VAP of a tuple comes first. */
  function AllMarks(info: ApInfo, objs: set<Vap>): set<(Feature, VapKey)>
  {
    set t, f | t in TuplesOf(objs) && f in AllFeatures && AllHave(f, t, info, objs) :: (f, t)
  }

  /** The counter entries the AP may bump, for some order of the set. */
  function SomeMarks(info: ApInfo, objs: set<Vap>): set<(Feature, VapKey)>
  {
    set v, f | v in objs && v.ssidProf.Some? && f in AllFeatures && Has(f, v, info) :: (f, KeyOf(v).value)
  }

  /** Whatever the representatives, the entries bumped lie between the two. */
  lemma {:induction false} MarksBetween(rep: map<VapKey, Vap>, objs: set<Vap>, info: ApInfo)
    requires Represents(rep, objs)
    ensures AllMarks(info, objs) <= MarksOf(rep, info) <= SomeMarks(info, objs)
  {
    forall p | p in AllMarks(info, objs)
      ensures p in MarksOf(rep, info)
    {
      var t := p.1;
      assert t in rep.Keys;
      assert Has(p.0, rep[t], info);
    }
    forall p | p in MarksOf(rep, info)
      ensures p in SomeMarks(info, objs)
    {
      var t := p.1;
      assert rep[t] in objs && KeyOf(rep[t]) == Some(t);
    }
  }

  /** A visit keeps FuncInv: an AP bumps a function entry only for a tuple it also bumps. */
  lemma {:induction false} VisitKeepsInv(st: FuncState, info: ApInfo, objs: set<Vap>, rep: map<VapKey, Vap>, next: FuncState)
    requires FuncInv(st) && Represents(rep, objs)
    requires next.global == Bump(st.global, TuplesOf(objs))
    requires next.feats == Bump(st.feats, MarksOf(rep, info))
    ensures FuncInv(next)
  {
    forall p | p in next.feats
      ensures 1 <= next.feats[p] <= Count(next.global, p.1)
    {
      if p in MarksOf(rep, info) {
        assert p.1 in rep.Keys;
      }
    }
  }

  /** The tuples an AP row counts; none for a skipped row (or a failing one). */
  function RowTuples(c: Config, row: seq<string>): set<VapKey>
  {
    match ApPlan(c, row)
    case Some(Visit(_, objs)) => TuplesOf(objs)
    case _ => {}
  }

  function RowAll(c: Config, row: seq<string>): set<(Feature, VapKey)>
  {
    match ApPlan(c, row)
    case Some(Visit(info, objs)) => AllMarks(info, objs)
    case _ => {}
  }

  function RowSome(c: Config, row: seq<string>): set<(Feature, VapKey)>
  {
    match ApPlan(c, row)
    case Some(Visit(info, objs)) => SomeMarks(info, objs)
    case _ => {}
  }

  function TupleSeq(c: Config, rows: seq<seq<string>>): seq<set<VapKey>>
  {
    seq(|rows|, i requires 0 <= i < |rows| => RowTuples(c, rows[i]))
  }

  function AllSeq(c: Config, rows: seq<seq<string>>): seq<set<(Feature, VapKey)>>
  {
    seq(|rows|, i requires 0 <= i < |rows| => RowAll(c, rows[i]))
  }

  function SomeSeq(c: Config, rows: seq<seq<string>>): seq<set<(Feature, VapKey)>>
  {
    seq(|rows|, i requires 0 <= i < |rows| => RowSome(c, rows[i]))
  }

  /** The row stops the script whatever the order its VAP set is walked in. */
  ghost predicate MustFail(c: Config, row: seq<string>)
  {
    match ApPlan(c, row)
    case None => true
    case Some(Skip) => false
    case Some(Visit(info, objs)) => VisitMustFail(info, objs)
  }

  /** The row stops the script for some order of its VAP set. */
  ghost predicate MayFail(c: Config, row: seq<string>)
  {
    match ApPlan(c, row)
    case None => true
    case Some(Skip) => false
    case Some(Visit(info, objs)) => VisitMayFail(info, objs)
  }

  /** Every function entry counts at least the APs on which all VAPs of the tuple have it, and at most those on which one does. */
  ghost predicate FeatBounds(st: FuncState, cur: FuncState, lo: seq<set<(Feature, VapKey)>>, hi: seq<set<(Feature, VapKey)>>)
  {
    forall p :: Count(st.feats, p) + Occ(lo, p) <= Count(cur.feats, p) <= Count(st.feats, p) + Occ(hi, p)
  }

  /** What the loop over the rows keeps once the rows `done` are counted into `cur`. */
  ghost predicate FileInv(c: Config, st: FuncState, done: seq<seq<string>>, cur: FuncState)
  {
    cur.global == BumpAll(st.global, TupleSeq(c, done))
    && (FuncInv(st) ==> FuncInv(cur))
    && FeatBounds(st, cur, AllSeq(c, done), SomeSeq(c, done))
    && forall j :: 0 <= j < |done| ==> !MustFail(c, done[j])
  }

  lemma {:induction false} OccSnoc<K>(sets: seq<set<K>>, s: set<K>, k: K)
    ensures Occ(sets + [s], k) == Occ(sets, k) + if k in s then 1 else 0
  {
    assert (sets + [s])[..|sets|] == sets;
  }

  lemma {:induction false} SeqsSnoc(c: Config, done: seq<seq<string>>, row: seq<string>)
    ensures TupleSeq(c, done + [row]) == TupleSeq(c, done) + [RowTuples(c, row)]
    ensures AllSeq(c, done + [row]) == AllSeq(c, done) + [RowAll(c, row)]
    ensures SomeSeq(c, done + [row]) == SomeSeq(c, done) + [RowSome(c, row)]
  {
  }

  /** One more row whose counters moved by the given sets. */
  lemma {:induction false} FileStep(c: Config, st: FuncState, done: seq<seq<string>>, cur: FuncState, row: seq<string>, next: FuncState,
                 marks: set<(Feature, VapKey)>)
    requires FileInv(c, st, done, cur) && !MustFail(c, row)
    requires next.global == Bump(cur.global, RowTuples(c, row))
    requires next.feats == Bump(cur.feats, marks)
    requires RowAll(c, row) <= marks <= RowSome(c, row)
    requires FuncInv(cur) ==> FuncInv(next)
    ensures FileInv(c, st, done + [row], next)
  {
    SeqsSnoc(c, done, row);
    assert (TupleSeq(c, done) + [RowTuples(c, row)])[..|done|] == TupleSeq(c, done);
    forall p
      ensures Count(st.feats, p) + Occ(AllSeq(c, done + [row]), p) <= Count(next.feats, p)
                                  <= Count(st.feats, p) + Occ(SomeSeq(c, done + [row]), p)
    {
      OccSnoc(AllSeq(c, done), RowAll(c, row), p);
      OccSnoc(SomeSeq(c, done), RowSome(c, row), p);
    }
  }

  /**
   * One AP database row: a short row, an undefined group, a bare regulatory
   * domain name or an undefined excluded VAP stops the script; an AP with
   * both radios off is skipped; otherwise its VAP set is visited.
   */
  method CountRow(c: Config, ghost st: FuncState, ghost done: seq<seq<string>>, cur: FuncState, row: seq<string>)
    returns (r: Option<FuncState>)
    requires FileInv(c, st, done, cur)
    ensures MustFail(c, row) ==> r.None?
    ensures r.None? ==> MayFail(c, row)
    ensures r.Some? ==> FileInv(c, st, done + [row], r.value)
  {
    if |row| < 2 {
      return None;
    }
    var apg := Lower(row[1]);
    var apn := Lower(row[0]);
    if apg !in c.apGroups {
      return None;
    }
    if BothOff(c, apg, apn) {
      SkipStep(c, st, done, cur, row);
      return Some(cur);
    }
    var reg := RegOf(c, apg, apn);
    if reg.None? {
      return None;
    }
    var objs := VapProfSet(c, apg, apn);
    if objs.None? {
      return None;
    }
    var info := Info(c, apg, apn, reg.value);
    assert ApPlan(c, row) == Some(Visit(info, objs.value));
    r := VisitVaps(cur, info, objs.value);
    if r.Some? {
      VisitStep(c, st, done, cur, row, info, objs.value, r.value);
    }
  }

  /** A row with both radios off leaves the counters as they are. */
  lemma {:induction false} SkipStep(c: Config, st: FuncState, done: seq<seq<string>>, cur: FuncState, row: seq<string>)
    requires FileInv(c, st, done, cur) && ApPlan(c, row) == Some(Skip)
    ensures FileInv(c, st, done + [row], cur)
  {
    assert Bump(cur.global, {}) == cur.global && Bump(cur.feats, {}) == cur.feats;
    FileStep(c, st, done, cur, row, cur, {});
  }

  /** A row whose VAP set was visited moved the counters by its tuples and by marks between its bounds. */
  lemma {:induction false} VisitStep(c: Config, st: FuncState, done: seq<seq<string>>, cur: FuncState, row: seq<string>,
                                     info: ApInfo, objs: set<Vap>, next: FuncState)
    requires FileInv(c, st, done, cur) && ApPlan(c, row) == Some(Visit(info, objs)) && !VisitMustFail(info, objs)
    requires next.global == Bump(cur.global, TuplesOf(objs))
    requires exists rep :: Represents(rep, objs) && next.feats == Bump(cur.feats, MarksOf(rep, info))
    ensures FileInv(c, st, done + [row], next)
  {
    var rep :| Represents(rep, objs) && next.feats == Bump(cur.feats, MarksOf(rep, info));
    MarksBetween(rep, objs, info);
    if FuncInv(cur) {
      VisitKeepsInv(cur, info, objs, rep, next);
    }
    FileStep(c, st, done, cur, row, next, MarksOf(rep, info));
  }

  /**
   * The loop over the AP database rows of one controller, starting from
   * the counters of the controllers before it. On success every tuple has
   * been counted once per AP that carries it, FuncInv is kept, and each
   * function entry lies between the APs on which all the tuple's VAPs have
   * the function and those on which one of them does.
   */
  method CountFile(c: Config, st: FuncState, rows: seq<seq<string>>) returns (r: Option<FuncState>)
    ensures (exists i :: 0 <= i < |rows| && MustFail(c, rows[i])) ==> r.None?
    ensures r.None? ==> exists i :: 0 <= i < |rows| && MayFail(c, rows[i])
    ensures r.Some? ==> r.value.global == BumpAll(st.global, TupleSeq(c, rows))
    ensures r.Some? && FuncInv(st) ==> FuncInv(r.value)
    ensures r.Some? ==> FeatBounds(st, r.value, AllSeq(c, rows), SomeSeq(c, rows))
  {
    var cur := st;
    assert TupleSeq(c, []) == [] && AllSeq(c, []) == [] && SomeSeq(c, []) == [];
    for k := 0 to |rows|
      invariant FileInv(c, st, rows[..k], cur)
    {
      var next := CountRow(c, st, rows[..k], cur, rows[k]);
      if next.None? {
        return None;
      }
      assert rows[..k + 1] == rows[..k] + [rows[k]];
      cur := next.value;
    }
    assert rows[..|rows|] == rows;
    r := Some(cur);
  }

  /** A cell of the function table: '-', '〇' or a number of APs. */
  datatype Cell = Dash | Circle | Num(n: nat)

  /**
   * row_add: for each tuple in order, '-' when the function was never
   * counted for it, '〇' when it was counted on every AP carrying the tuple,
   * otherwise the number of APs.
   */
  predicate CellsOf(st: FuncState, f: Feature, order: seq<VapKey>, cells: seq<Cell>)
  {
    |cells| == |order|
    && forall i :: 0 <= i < |order| ==>
         (cells[i] == Dash <==> (f, order[i]) !in st.feats)
         && (cells[i] == Circle <==> (f, order[i]) in st.feats && st.feats[(f, order[i])] == Count(st.global, order[i]))
         && (cells[i].Num? ==> (f, order[i]) in st.feats && cells[i].n == st.feats[(f, order[i])])
  }

  method RowAdd(st: FuncState, f: Feature, order: seq<VapKey>) returns (cells: seq<Cell>)
    ensures CellsOf(st, f, order, cells)
    ensures FuncInv(st) ==> forall i :: 0 <= i < |order| && cells[i].Num? ==> 0 < cells[i].n < Count(st.global, order[i])
  {
    cells := [];
    for i := 0 to |order|
      invariant |cells| == i
      invariant CellsOf(st, f, order[..i], cells)
    {
      var t := order[i];
      var cell: Cell;
      if (f, t) !in st.feats {
        cell := Dash;
      } else if st.feats[(f, t)] == Count(st.global, t) {
        cell := Circle;
      } else {
        cell := Num(st.feats[(f, t)]);
      }
      cells := cells + [cell];
    }
    assert order[..|order|] == order;
  }

  /** The rows of the function table in the script's order, each with the dictionary it reads (W52/W56 is not listed). */
  const TableRows: seq<(string, Feature)> := [
    ("MAC Authentication", MacAuth), ("802.1X Reauthentication", Reauth), ("Delete keycache", DelKeycache),
    ("Deny Inter User Traffic", DenyIntUser), ("Broadcast Filter", BcastFilter), ("XML API", XmlApi),
    ("Radius Accounting", Acct), ("Radius Interim Accounting", InterimAcct), ("User Derivation Rules", UserDeriv),
    ("Stealth SSID", Stealth), ("802.11 Probe Threshold", ProbeThresh), ("802.11 Auth Threshold", AuthThresh),
    ("Advertise AP name", AdvApName), ("VHT(11ac) disabled", VhtDisable), ("HT(11n) disabled", HtDisable),
    ("5GHz No channel bonding", NoBonding), ("L2 Auth Fail Through", L2FailThru), ("Cellular Handoff Assist", Cha),
    ("ClientMatch", ClientMatch), ("CM custom parameter", CmCustom), ("2.4GHz disabled", Off11g),
    ("5GHz disabled", Off11a), ("5GHz W52/W53/W56", Band("W52/W53/W56")), ("W52 only", Band("W52")),
    ("W53 only", Band("W53")), ("W56 only", Band("W56")), ("W52/W53 only", Band("W52/W53")),
    ("W53/W56 only", Band("W53/W56")), ("5GHz custom", Band("Custom")), ("Static channel assignment", Static)]

  /** The results table: one row per listed function, named as listed. */
  method Results(st: FuncState, order: seq<VapKey>) returns (rows: seq<(string, seq<Cell>)>)
    ensures |rows| == |TableRows|
    ensures forall i :: 0 <= i < |rows| ==> rows[i].0 == TableRows[i].0 && CellsOf(st, TableRows[i].1, order, rows[i].1)
  {
    rows := [];
    for i := 0 to |TableRows|
      invariant |rows| == i
      invariant forall j :: 0 <= j < i ==> rows[j].0 == TableRows[j].0 && CellsOf(st, TableRows[j].1, order, rows[j].1)
    {
      var cells := RowAdd(st, TableRows[i].1, order);
      rows := rows + [(TableRows[i].0, cells)];
    }
  }
}
