/**
 * ap2xls.py: the 'show ap database long' table de-duplicated by AP name,
 * narrowed to the APs whose name matches `--pattern`, and the number of
 * APs of each model.
 */
module Ap2Xls {
  import opened Wrappers
  import Uniq
  import Tally
  import Counting

  type Row = seq<string>

  /**
   * How the script ends early: no AP database table (`sys.exit`), or a
   * table, row or cell that is not there (IndexError).
   */
  datatype Failure = NoTable | MissingCell

  /** `ap_db_tbl`, header first, and `apmodelctr`. */
  datatype Report = Report(aps: seq<Row>, models: map<string, nat>)

  /** The name test of the filter, `re.search(args.pattern, r[0])`, on a row. */
  function Named(matches: string -> bool): Row -> bool
  {
    r => |r| > 0 && matches(r[0])
  }

  /** The model column of the data rows. */
  function Models(rows: seq<Row>): (ms: seq<string>)
    requires forall i :: 0 <= i < |rows| ==> |rows[i]| > 2
    ensures |ms| == |rows| && forall i :: 0 <= i < |rows| ==> ms[i] == rows[i][2]
  {
    seq(|rows|, i requires 0 <= i < |rows| => rows[i][2])
  }

  /** No row is empty, so `uniq` can read every row's name. */
  predicate Named0(rows: seq<Row>)
  {
    forall i :: 0 <= i < |rows| ==> rows[i] != []
  }

  /** Every data row has a model column. */
  predicate HasModels(aps: seq<Row>)
  {
    forall j :: 1 <= j < |aps| ==> |aps[j]| > 2
  }

  /** `ap_db_tbl`: the header, then the de-duplicated rows whose name matches. */
  function Selected(u: seq<Row>, matches: string -> bool): seq<Row>
    requires u != []
  {
    [u[0]] + Counting.Filter(u[1..], Named(matches))
  }

  /** The whole script up to its spreadsheet output. */
  function Ap2Xls(tbl: Option<seq<Row>>, matches: string -> bool): Result<Report, Failure>
  {
    if tbl.None? then Err(NoTable)
    else if !Named0(tbl.value) then Err(MissingCell)
    else
      var u := Uniq.Uniq(tbl.value, Uniq.Cell(0));
      if u == [] then Err(MissingCell)
      else
        var aps := Selected(u, matches);
        if !HasModels(aps) then Err(MissingCell)
        else Ok(Report(aps, Tally.Tally(Tally.Ones(Models(aps[1..])))))
  }

  /** The filter loop. */
  method Select(u: seq<Row>, matches: string -> bool) returns (aps: seq<Row>)
    requires u != []
    ensures aps == Selected(u, matches)
  {
    aps := [u[0]];
    for i := 1 to |u|
      invariant aps == [u[0]] + Counting.Filter(u[1..i], Named(matches))
    {
      assert u[1..i + 1] == u[1..i] + [u[i]];
      assert (u[1..i] + [u[i]])[..i - 1] == u[1..i];
      if |u[i]| > 0 && matches(u[i][0]) {
        aps := aps + [u[i]];
      }
    }
    assert u[1..|u|] == u[1..];
  }

  /** The model tally loop. */
  method CountModels(aps: seq<Row>) returns (r: Option<map<string, nat>>)
    requires aps != []
    ensures r.None? <==> !HasModels(aps)
    ensures r.Some? ==> r.value == Tally.Tally(Tally.Ones(Models(aps[1..])))
  {
    var ctr: map<string, nat> := map[];
    for i := 1 to |aps|
      invariant forall j :: 1 <= j < i ==> |aps[j]| > 2
      invariant ctr == Tally.Tally(Tally.Ones(Models(aps[1..i])))
    {
      if |aps[i]| <= 2 {
        return None;
      }
      var ms := Models(aps[1..i + 1]);
      assert ms[..i - 1] == Models(aps[1..i]);
      assert Tally.Ones(ms)[..i - 1] == Tally.Ones(ms[..i - 1]);
      ctr := Tally.Bump(ctr, aps[i][2], 1);
    }
    assert aps[1..|aps|] == aps[1..];
    return Some(ctr);
  }

  /** The script after parsing, up to its spreadsheet output. */
  method Run(tbl: Option<seq<Row>>, matches: string -> bool) returns (r: Result<Report, Failure>)
    ensures r == Ap2Xls(tbl, matches)
  {
    if tbl.None? {
      return Err(NoTable);
    }
    if exists i :: 0 <= i < |tbl.value| && tbl.value[i] == [] {
      return Err(MissingCell);
    }
    var u := Uniq.UniqBy(tbl.value, Uniq.Cell(0));
    if u == [] {
      return Err(MissingCell);
    }
    var aps := Select(u, matches);
    var ctr := CountModels(aps);
    if ctr.None? {
      return Err(MissingCell);
    }
    return Ok(Report(aps, ctr.value));
  }

  /** What the filter keeps, in terms of the rows it reads. */
  lemma {:induction false} SelectedMeaning(u: seq<Row>, matches: string -> bool)
    requires u != []
    ensures var aps := Selected(u, matches);
      && aps[0] == u[0]
      && (forall j :: 1 <= j < |aps| ==> aps[j] in u[1..] && matches(aps[j][0]))
      && (forall k :: 1 <= k < |u| && |u[k]| > 0 && matches(u[k][0]) ==> u[k] in aps)
  {
    var aps := Selected(u, matches);
    forall j | 1 <= j < |aps|
      ensures aps[j] in u[1..] && matches(aps[j][0])
    {
      assert aps[j] in Counting.Filter(u[1..], Named(matches));
      Counting.FilterMembers(u[1..], Named(matches), aps[j]);
    }
    forall k | 1 <= k < |u| && |u[k]| > 0 && matches(u[k][0])
      ensures u[k] in aps
    {
      assert u[k] in u[1..];
      Counting.FilterMembers(u[1..], Named(matches), u[k]);
    }
  }

  /**
   * The header is kept, first; every other row kept is a row of the AP
   * database whose name matches; every first row of a name that matches is kept.
   */
  lemma {:induction false} ApsMeaning(tbl: Option<seq<Row>>, matches: string -> bool)
    requires Ap2Xls(tbl, matches).Ok?
    ensures var rows := tbl.value; var aps := Ap2Xls(tbl, matches).value.aps;
      && rows != [] && aps[0] == rows[0]
      && (forall j :: 1 <= j < |aps| ==> aps[j] in rows && matches(aps[j][0]))
      && (forall i :: 1 <= i < |rows| && Uniq.FirstOfKey(rows, Uniq.Cell(0), i) && matches(rows[i][0]) ==> rows[i] in aps)
  {
    var rows := tbl.value;
    var key := Uniq.Cell(0);
    var u := Uniq.Uniq(rows, key);
    var aps := Selected(u, matches);
    assert rows != [];
    Uniq.UniqHead(rows, key);
    var idx := Uniq.UniqPositions(rows, key);
    SelectedMeaning(u, matches);
    forall j | 1 <= j < |aps|
      ensures aps[j] in rows
    {
      var k :| 1 <= k < |u| && u[k] == aps[j];
      assert u[k] == rows[idx[k]];
    }
    forall i | 1 <= i < |rows| && Uniq.FirstOfKey(rows, key, i) && matches(rows[i][0])
      ensures rows[i] in aps
    {
      var k :| 0 <= k < |idx| && idx[k] == i;
      assert k != 0 by {
        assert idx[0] == 0;
      }
      assert |u[k]| > 0 && matches(u[k][0]);
    }
  }

  /** No two kept rows share a name. */
  lemma {:induction false} ApsDistinct(tbl: Option<seq<Row>>, matches: string -> bool)
    requires Ap2Xls(tbl, matches).Ok?
    ensures var aps := Ap2Xls(tbl, matches).value.aps;
      forall a, b :: 0 <= a < b < |aps| ==> Uniq.Cell(0)(aps[a]) != Uniq.Cell(0)(aps[b])
  {
    var u := Uniq.Uniq(tbl.value, Uniq.Cell(0));
    Uniq.UniqDistinct(tbl.value, Uniq.Cell(0));
    SelectedDistinct(u, matches);
  }

  lemma {:induction false} SelectedDistinct(u: seq<Row>, matches: string -> bool)
    requires u != []
    requires forall x, y :: 0 <= x < y < |u| ==> Uniq.Cell(0)(u[x]) != Uniq.Cell(0)(u[y])
    ensures var aps := Selected(u, matches);
      forall a, b :: 0 <= a < b < |aps| ==> Uniq.Cell(0)(aps[a]) != Uniq.Cell(0)(aps[b])
  {
    var aps := Selected(u, matches);
    forall a, b | 0 <= a < b < |aps|
      ensures Uniq.Cell(0)(aps[a]) != Uniq.Cell(0)(aps[b])
    {
      KeptOrder(u, Named(matches), a, b);
    }
  }

  /** Two kept rows come from two positions of `u`, in the same order. */
  lemma {:induction false} KeptOrder(u: seq<Row>, p: Row -> bool, a: nat, b: nat)
    requires u != [] && a < b < 1 + |Counting.Filter(u[1..], p)|
    ensures exists x, y :: 0 <= x < y < |u| && ([u[0]] + Counting.Filter(u[1..], p))[a] == u[x] && ([u[0]] + Counting.Filter(u[1..], p))[b] == u[y]
  {
    var s := u[1..];
    var ps := FilterPositions(s, p);
    var aps := [u[0]] + Counting.Filter(s, p);
    if a == 0 {
      assert aps[b] == s[ps[b - 1]] == u[ps[b - 1] + 1];
    } else {
      assert ps[a - 1] < ps[b - 1];
      assert aps[a] == u[ps[a - 1] + 1] && aps[b] == u[ps[b - 1] + 1];
    }
  }
  /** The positions of the elements `Filter` keeps, increasing. */
  lemma {:induction false} FilterPositions<T>(s: seq<T>, p: T -> bool) returns (ps: seq<nat>)
    ensures |ps| == |Counting.Filter(s, p)|
    ensures forall j :: 0 <= j < |ps| ==> ps[j] < |s| && Counting.Filter(s, p)[j] == s[ps[j]]
    ensures forall a, b :: 0 <= a < b < |ps| ==> ps[a] < ps[b]
    decreases |s|
  {
    if s == [] {
      return [];
    }
    var pre := s[..|s| - 1];
    ps := FilterPositions(pre, p);
    if p(s[|s| - 1]) {
      ps := ps + [|s| - 1];
    }
  }

  /**
   * `apmodelctr[m]` is the number of kept APs of model m, and the counts
   * add up to the number of kept APs.
   */
  lemma {:induction false} ModelCounts(tbl: Option<seq<Row>>, matches: string -> bool, m: string)
    requires Ap2Xls(tbl, matches).Ok?
    ensures var rep := Ap2Xls(tbl, matches).value;
      && (forall j :: 1 <= j < |rep.aps| ==> |rep.aps[j]| > 2)
      && Tally.Get(rep.models, m) == Counting.CountIf(Models(rep.aps[1..]), Tally.Is(m))
      && Tally.SumAt(rep.models, Tally.KeepMax.FirstSeen(Tally.Ones(Models(rep.aps[1..])))) == |rep.aps| - 1
  {
    var rep := Ap2Xls(tbl, matches).value;
    Tally.CountMeaning(Models(rep.aps[1..]), m);
    Tally.CountTotal(Models(rep.aps[1..]));
  }
}
