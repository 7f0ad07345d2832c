/**
 * ap-monitor-list-sum.py: for each file, the 5 GHz rows of 'show ap
 * monitor ap-list', the number of co-channel APs (a valid base BSSID
 * sharing a channel with the own channel, SNR >= 10) and the 3rd-party
 * APs (any other ap-type, SNR >= 10); over all files, the sum of the
 * co-channel counts and each 3rd-party BSSID once, with its strongest
 * sighting, listed by SNR, largest first.
 */
module ApMonitorSum {
  import opened Wrappers
  import opened Text
  import opened MonitorRows
  import opened MonitorSections
  import Channels
  import StableSort
  import Counting
  import KeepMax
  import Results

  /**
   * How the script ends early: a file without an ap-list, a phy column without a match, a label missing from the table,
   * and, as written, the TypeError of assigning into a tuple row.
   */
  datatype Failure = NoApList | BadPhy | UnknownLabel | TupleAssign

  /** What `parse_aplist` returns for one file: `intf_ap` and `coch` (its `intf` is the length of `intf_ap`). */
  datatype FileCount = FileCount(intf: seq<Entry>, coch: nat)

  /** The totals over all files, the 3rd-party APs by BSSID (`intf_all`) and the order they are printed in. */
  datatype SumReport = SumReport(cochTot: nat, thirdParty: map<string, Entry>, order: seq<string>)

  /** The own BSSID of a file: the first one marked "(+)". */
  predicate IsOwn(e: Entry) { EndsWith(e.bss, "(+)") }

  /** A valid base BSSID, the candidates of the co-channel count. */
  predicate Candidate(e: Entry) { EndsWith(e.bss, "0") && e.kind == "valid" }

  /** A 3rd-party AP strong enough to list. */
  predicate ThirdParty(e: Entry) { e.kind != "valid" && e.snr >= SnrThreshold }

  /** The co-channel test as a section: a candidate is red when it shares a channel with `mych` at SNR >= 10. */
  function CochRule(): Rule
  {
    Rule(Candidate, (e: Entry) => false, true, (e: Entry) => "")
  }

  /** The counting loop on one file's entries with own channel `mych`. */
  function Count(t: Channels.Table, mych: string, es: seq<Entry>): Result<FileCount, Failure>
  {
    match Section(t, mych, es, CochRule())
      case None => Err(UnknownLabel)
      case Some(ls) => Ok(FileCount(Counting.Filter(es, ThirdParty), Counting.CountIf(ls, IsRed)))
  }

  /** `parse_aplist` on one file's ap-list (None when the file has none). */
  function FileSummary(t: Channels.Table, rows: Option<seq<seq<string>>>): Result<FileCount, Failure>
    requires rows.Some? ==> Cells7(rows.value)
  {
    if rows.None? then Err(NoApList)
    else match Entries(ApList5GHz, rows.value)
      case None => Err(BadPhy)
      case Some(es) => Count(t, Mych(FirstOwn(es, IsOwn)), es)
  }

  predicate AllCells7(files: seq<Option<seq<seq<string>>>>)
  {
    forall i :: 0 <= i < |files| ==> files[i].Some? ==> Cells7(files[i].value)
  }

  /** Each file's summary, in order. */
  function FileResults(t: Channels.Table, files: seq<Option<seq<seq<string>>>>): (rs: seq<Result<FileCount, Failure>>)
    requires AllCells7(files)
    ensures |rs| == |files| && forall i :: 0 <= i < |files| ==> rs[i] == FileSummary(t, files[i])
  {
    seq(|files|, i requires 0 <= i < |files| => FileSummary(t, files[i]))
  }

  /** The summaries up to the first failure: the script exits at the first file that fails. */
  function Summaries(t: Channels.Table, files: seq<Option<seq<seq<string>>>>): Result<seq<FileCount>, Failure>
    requires AllCells7(files)
  {
    Results.Gather(FileResults(t, files))
  }

  /** `coch_tot` */
  function CochTot(fcs: seq<FileCount>): nat
  {
    if fcs == [] then 0 else CochTot(fcs[..|fcs| - 1]) + fcs[|fcs| - 1].coch
  }

  function Keyed(es: seq<Entry>): (r: seq<(string, Entry)>)
    ensures |r| == |es| && forall i :: 0 <= i < |es| ==> r[i] == (es[i].bss, es[i])
  {
    seq(|es|, i requires 0 <= i < |es| => (es[i].bss, es[i]))
  }

  /** Every 3rd-party sighting of every file, keyed by BSSID, in the order the script meets them. */
  function Sightings(fcs: seq<FileCount>): seq<(string, Entry)>
  {
    if fcs == [] then [] else Sightings(fcs[..|fcs| - 1]) + Keyed(fcs[|fcs| - 1].intf)
  }

  /** The SNR of the sighting kept for a BSSID. */
  function KeptSnr(d: map<string, Entry>, k: string): int
  {
    if k in d then d[k].snr else 0
  }

  /** The sort key: the SNR of the sighting kept for a BSSID. */
  function BySnr(d: map<string, Entry>): string -> int
  {
    k => KeptSnr(d, k)
  }

  /** The report: keep the strongest sighting per BSSID (the first on ties), then sort the dict's keys by it. */
  function Report(fcs: seq<FileCount>): SumReport
  {
    var kvs := Sightings(fcs);
    var d := KeepMax.PutAll(kvs, Snr, false);
    SumReport(CochTot(fcs), d, StableSort.SortDesc(KeepMax.FirstSeen(kvs), BySnr(d)))
  }

  /** The script on the files' ap-lists, with the channel table `t`. */
  function ApMonitorListSum(t: Channels.Table, files: seq<Option<seq<seq<string>>>>): Result<SumReport, Failure>
    requires AllCells7(files)
  {
    match Summaries(t, files)
      case Err(f) => Err(f)
      case Ok(fcs) => Ok(Report(fcs))
  }

  /** The counting loop: the co-channel count and the 3rd-party list in one pass. */
  method CountFile(t: Channels.Table, mych: string, es: seq<Entry>) returns (r: Result<FileCount, Failure>)
    ensures r == Count(t, mych, es)
  {
    var intfAp: seq<Entry> := [];
    var coch: nat := 0;
    ghost var ls: seq<Line> := [];
    for i := 0 to |es|
      invariant Section(t, mych, es[..i], CochRule()) == Some(ls)
      invariant coch == Counting.CountIf(ls, IsRed)
      invariant intfAp == Counting.Filter(es[..i], ThirdParty)
    {
      var e := es[i];
      CountPrefix(t, mych, es, i);
      var next;
      next, ls := CochStep(t, mych, e, ls, coch);
      if next.None? {
        SectionNone(t, mych, es, CochRule(), i + 1);
        return Err(UnknownLabel);
      }
      coch := next.value;
      if ThirdParty(e) {
        intfAp := intfAp + [e];
      }
    }
    assert es[..|es|] == es;
    return Ok(FileCount(intfAp, coch));
  }

  /** The co-channel test on one entry: the new count, or None for the KeyError. */
  method CochStep(t: Channels.Table, mych: string, e: Entry, ghost ls: seq<Line>, coch: nat)
    returns (next: Option<nat>, ghost ls': seq<Line>)
    requires coch == Counting.CountIf(ls, IsRed)
    ensures next.None? <==> MonitorSections.Step(t, mych, Some(ls), e, CochRule()).None?
    ensures next.Some? ==> MonitorSections.Step(t, mych, Some(ls), e, CochRule()) == Some(ls') && next.value == Counting.CountIf(ls', IsRed)
  {
    ls' := ls;
    if !Candidate(e) {
      return Some(coch), ls';
    }
    var c := Paint(t, mych, e, CochRule());
    if c.None? {
      return None, ls';
    }
    ls' := ls + [Line(e, "", c.value)];
    Counting.CountSnoc(ls, Line(e, "", c.value), IsRed);
    return Some(if c.value == Red then coch + 1 else coch), ls';
  }

  lemma {:induction false} CountPrefix(t: Channels.Table, mych: string, es: seq<Entry>, i: nat)
    requires i < |es|
    ensures Section(t, mych, es[..i + 1], CochRule()) == MonitorSections.Step(t, mych, Section(t, mych, es[..i], CochRule()), es[i], CochRule())
    ensures Counting.Filter(es[..i + 1], ThirdParty) == Counting.Filter(es[..i], ThirdParty) + (if ThirdParty(es[i]) then [es[i]] else [])
  {
    SectionPrefix(t, mych, es, CochRule(), i);
    assert es[..i + 1][..i] == es[..i];
  }

  /** `parse_aplist` */
  method ParseFile(t: Channels.Table, rows: Option<seq<seq<string>>>) returns (r: Result<FileCount, Failure>)
    requires rows.Some? ==> Cells7(rows.value)
    ensures r == FileSummary(t, rows)
  {
    if rows.None? {
      return Err(NoApList);
    }
    var parsed := ParseEntries(ApList5GHz, rows.value, IsOwn);
    if parsed.None? {
      return Err(BadPhy);
    }
    var (es, mine) := parsed.value;
    r := CountFile(t, Mych(mine), es);
  }

  /** The dict after `kvs`, and its keys in insertion order. */
  ghost predicate Merged(d: map<string, Entry>, order: seq<string>, kvs: seq<(string, Entry)>)
  {
    d == KeepMax.PutAll(kvs, Snr, false) && order == KeepMax.FirstSeen(kvs)
  }

  /** One sighting into `intf_all`: a new BSSID is added at the end, a known one replaced only by a larger SNR. */
  method MergeOne(d: map<string, Entry>, order: seq<string>, ghost kvs: seq<(string, Entry)>, e: Entry)
    returns (d': map<string, Entry>, order': seq<string>)
    requires Merged(d, order, kvs)
    ensures Merged(d', order', kvs + [(e.bss, e)])
  {
    KeepMax.PutAllKeys(kvs, Snr, false);
    KeepMax.FirstSeenKeys(kvs);
    assert (kvs + [(e.bss, e)])[..|kvs|] == kvs;
    if e.bss !in d {
      d', order' := d[e.bss := e], order + [e.bss];
    } else {
      order' := order;
      if e.snr > d[e.bss].snr {
        d' := d[e.bss := e];
      } else {
        d' := d;
      }
    }
  }

  /** The loop merging one file's 3rd-party APs. */
  method MergeFile(d: map<string, Entry>, order: seq<string>, ghost kvs: seq<(string, Entry)>, rs: seq<Entry>)
    returns (d': map<string, Entry>, order': seq<string>)
    requires Merged(d, order, kvs)
    ensures Merged(d', order', kvs + Keyed(rs))
  {
    d', order' := d, order;
    assert kvs + Keyed(rs[..0]) == kvs;
    for j := 0 to |rs|
      invariant Merged(d', order', kvs + Keyed(rs[..j]))
    {
      assert Keyed(rs[..j + 1]) == Keyed(rs[..j]) + [(rs[j].bss, rs[j])];
      assert kvs + Keyed(rs[..j + 1]) == (kvs + Keyed(rs[..j])) + [(rs[j].bss, rs[j])];
      d', order' := MergeOne(d', order', kvs + Keyed(rs[..j]), rs[j]);
    }
    assert rs[..|rs|] == rs;
  }

  /** The loop over the files: the running co-channel total and `intf_all` with its keys in insertion order. */
  method SumFiles(t: Channels.Table, files: seq<Option<seq<seq<string>>>>)
    returns (r: Result<(nat, map<string, Entry>, seq<string>), Failure>)
    requires AllCells7(files)
    ensures r.Err? <==> Summaries(t, files).Err?
    ensures r.Err? ==> r.error == Summaries(t, files).error
    ensures r.Ok? ==> r.value.0 == CochTot(Summaries(t, files).value) && Merged(r.value.1, r.value.2, Sightings(Summaries(t, files).value))
  {
    ghost var rs := FileResults(t, files);
    var cochTot: nat := 0;
    var d: map<string, Entry> := map[];
    var order: seq<string> := [];
    ghost var fcs: seq<FileCount> := [];
    for i := 0 to |files|
      invariant Results.Gather(rs[..i]) == Ok(fcs)
      invariant cochTot == CochTot(fcs) && Merged(d, order, Sightings(fcs))
    {
      var fc := ParseFile(t, files[i]);
      SumStep(rs, i, fcs);
      if fc.Err? {
        Results.GatherStop(rs, i + 1);
        return Err(fc.error);
      }
      cochTot := cochTot + fc.value.coch;
      d, order := MergeFile(d, order, Sightings(fcs), fc.value.intf);
      fcs := fcs + [fc.value];
    }
    assert rs[..|files|] == rs;
    return Ok((cochTot, d, order));
  }

  /** The script: each file in turn, then the 3rd-party APs by SNR. */
  method Run(t: Channels.Table, files: seq<Option<seq<seq<string>>>>) returns (r: Result<SumReport, Failure>)
    requires AllCells7(files)
    ensures r == ApMonitorListSum(t, files)
  {
    var sum := SumFiles(t, files);
    if sum.Err? {
      return Err(sum.error);
    }
    var (cochTot, d, order) := sum.value;
    var sorted := StableSort.SortBy(order, BySnr(d));
    return Ok(SumReport(cochTot, d, sorted));
  }

  /** One more file: its failure, or its summary appended, its count added and its sightings merged. */
  lemma {:induction false} SumStep(rs: seq<Result<FileCount, Failure>>, i: nat, fcs: seq<FileCount>)
    requires i < |rs| && Results.Gather(rs[..i]) == Ok(fcs)
    ensures rs[i].Err? ==> Results.Gather(rs[..i + 1]) == Err(rs[i].error)
    ensures rs[i].Ok? ==>
      Results.Gather(rs[..i + 1]) == Ok(fcs + [rs[i].value])
      && CochTot(fcs + [rs[i].value]) == CochTot(fcs) + rs[i].value.coch
      && Sightings(fcs + [rs[i].value]) == Sightings(fcs) + Keyed(rs[i].value.intf)
  {
    Results.GatherStep(rs, i, fcs);
    if rs[i].Ok? {
      assert (fcs + [rs[i].value])[..|fcs|] == fcs;
    }
  }

  /** A co-channel AP: a valid base BSSID sharing a channel with `mych`, at SNR >= 10. */
  predicate CochAp(t: Channels.Table, mych: string, e: Entry)
  {
    Candidate(e) && Channels.IsIntf(t, e.ch, mych) == Some(true) && e.snr >= SnrThreshold
  }

  /** The count fails exactly when a candidate's label, or the own channel, is missing from the table. */
  lemma {:induction false} CountFails(t: Channels.Table, mych: string, es: seq<Entry>)
    ensures Count(t, mych, es).Err? <==> exists i :: 0 <= i < |es| && Candidate(es[i]) && (es[i].ch !in t || mych !in t)
  {
    SectionFail(t, mych, es, CochRule());
  }

  /** A file's co-channel count is the number of its co-channel APs. */
  lemma {:induction false} CountCoch(t: Channels.Table, mych: string, es: seq<Entry>)
    requires Count(t, mych, es).Ok?
    ensures Count(t, mych, es).value.coch == Counting.CountIf(es, e => CochAp(t, mych, e))
  {
    SectionRed(t, mych, es, CochRule());
    Counting.CountMono(es, e => RedEntry(t, mych, e, CochRule()), e => CochAp(t, mych, e));
    Counting.CountMono(es, e => CochAp(t, mych, e), e => RedEntry(t, mych, e, CochRule()));
  }

  /** A file's 3rd-party list holds exactly its strong non-valid APs, and its length is their number. */
  lemma {:induction false} CountThirdParty(t: Channels.Table, mych: string, es: seq<Entry>)
    requires Count(t, mych, es).Ok?
    ensures forall e :: e in Count(t, mych, es).value.intf <==> e in es && ThirdParty(e)
    ensures |Count(t, mych, es).value.intf| == Counting.CountIf(es, ThirdParty)
  {
    forall e
      ensures e in Count(t, mych, es).value.intf <==> e in es && ThirdParty(e)
    {
      Counting.FilterMembers(es, ThirdParty, e);
    }
    Counting.FilterCount(es, ThirdParty);
  }

  /**
   * Each 3rd-party BSSID seen in any file is listed, and only those; each
   * is listed once, with its strongest sighting (the first of equal SNR),
   * and the list runs by that SNR, largest first.
   */
  lemma {:induction false} ReportThirdParty(fcs: seq<FileCount>)
    ensures var rep := Report(fcs);
      var kvs := Sightings(fcs);
      (forall k :: k in rep.thirdParty <==> KeepMax.Seen(kvs, k))
      && (forall k :: k in rep.thirdParty ==> exists i :: KeepMax.Kept(kvs, k, i, Snr, false) && rep.thirdParty[k] == kvs[i].1)
      && (forall k :: k in rep.order <==> k in rep.thirdParty)
      && |rep.order| == |rep.thirdParty|
      && StableSort.SortedDesc(rep.order, BySnr(rep.thirdParty))
  {
    var kvs := Sightings(fcs);
    var d := KeepMax.PutAll(kvs, Snr, false);
    assert Report(fcs).thirdParty == d;
    KeepMax.PutAllKeys(kvs, Snr, false);
    KeepMax.PutAllKept(kvs, Snr, false);
    ReportOrder(kvs, d);
  }

  /** The sorted first-seen keys are the dict's keys, each once, by SNR, largest first. */
  lemma {:induction false} ReportOrder(kvs: seq<(string, Entry)>, d: map<string, Entry>)
    requires d == KeepMax.PutAll(kvs, Snr, false)
    ensures var order := StableSort.SortDesc(KeepMax.FirstSeen(kvs), BySnr(d));
      && (forall k :: k in order <==> k in d)
      && |order| == |d|
      && StableSort.SortedDesc(order, BySnr(d))
  {
    var keys := KeepMax.FirstSeen(kvs);
    KeepMax.PutAllKeys(kvs, Snr, false);
    KeepMax.FirstSeenKeys(kvs);
    StableSort.SortDescProps(keys, BySnr(d));
    var order := StableSort.SortDesc(keys, BySnr(d));
    SameKeys(order, keys);
    DistinctLength(keys, d);
    assert |order| == |keys| by {
      assert |multiset(order)| == |multiset(keys)|;
    }
  }

  lemma {:induction false} SameKeys(a: seq<string>, b: seq<string>)
    requires multiset(a) == multiset(b)
    ensures forall k :: k in a <==> k in b
  {
    forall k
      ensures k in a <==> k in b
    {
      assert k in a <==> k in multiset(a);
      assert k in b <==> k in multiset(b);
    }
  }

  /** A list of distinct keys that are exactly a map's keys is as long as the map. */
  lemma {:induction false} DistinctLength(keys: seq<string>, d: map<string, Entry>)
    requires forall a, b :: 0 <= a < b < |keys| ==> keys[a] != keys[b]
    requires forall k :: k in keys <==> k in d
    ensures |keys| == |d|
  {
    var s := set k | k in keys;
    assert s == d.Keys;
    DistinctCard(keys);
  }

  lemma {:induction false} DistinctCard(keys: seq<string>)
    requires forall a, b :: 0 <= a < b < |keys| ==> keys[a] != keys[b]
    ensures |set k | k in keys| == |keys|
    decreases |keys|
  {
    if keys != [] {
      var pre := keys[..|keys| - 1];
      var x := keys[|keys| - 1];
      DistinctCard(pre);
      assert (set k | k in keys) == (set k | k in pre) + {x};
      assert x !in pre;
    }
  }

  // ---- as written: the ap-list rows are tuples ----

  /**
   * `parse_aplist` as written: the first 5 GHz row whose SNR reads as an
   * integer raises TypeError at `row[5] = int(row[5])`, since the row is a
   * tuple; without such a row every 5 GHz row has been skipped, and the
   * file counts nothing, as the intended `FileSummary` of it does.
   */
  function FileSummaryAsWritten(t: Channels.Table, rows: Option<seq<seq<string>>>): (r: Result<FileCount, Failure>)
    requires rows.Some? ==> Cells7(rows.value)
    ensures r.Err? <==> rows.None? || TypeErrorAt(ApList5GHz, rows.value).Some?
    ensures rows.Some? && TypeErrorAt(ApList5GHz, rows.value).Some? ==> r == Err(TupleAssign)
    ensures r.Ok? ==> r.value == FileCount([], 0) && r == FileSummary(t, rows)
  {
    if rows.None? then Err(NoApList)
    else if TypeErrorAt(ApList5GHz, rows.value).Some? then Err(TupleAssign)
    else
      TupleLoopAppendsNothing(ApList5GHz, rows.value, IsOwn);
      assert Section(t, "", [], CochRule()) == Some([]);
      FileSummary(t, rows)
  }

  function FileResultsAsWritten(t: Channels.Table, files: seq<Option<seq<seq<string>>>>): (rs: seq<Result<FileCount, Failure>>)
    requires AllCells7(files)
    ensures |rs| == |files| && forall i :: 0 <= i < |files| ==> rs[i] == FileSummaryAsWritten(t, files[i])
  {
    seq(|files|, i requires 0 <= i < |files| => FileSummaryAsWritten(t, files[i]))
  }

  /** The script as written. */
  function ApMonitorListSumAsWritten(t: Channels.Table, files: seq<Option<seq<seq<string>>>>): Result<SumReport, Failure>
    requires AllCells7(files)
  {
    match Results.Gather(FileResultsAsWritten(t, files))
      case Err(f) => Err(f)
      case Ok(fcs) => Ok(Report(fcs))
  }

  lemma {:induction false} NothingSummed(fcs: seq<FileCount>)
    requires forall i :: 0 <= i < |fcs| ==> fcs[i] == FileCount([], 0)
    ensures CochTot(fcs) == 0 && Sightings(fcs) == []
    decreases |fcs|
  {
    if fcs != [] {
      NothingSummed(fcs[..|fcs| - 1]);
      assert Keyed(fcs[|fcs| - 1].intf) == [];
    }
  }

  /**
   * As written the script never reports a co-channel or 3rd-party AP: it
   * stops at the first file without an ap-list or with a 5 GHz row whose
   * SNR reads as an integer, and otherwise prints zero totals and an empty
   * list.
   */
  lemma {:induction false} AsWrittenReportsNothing(t: Channels.Table, files: seq<Option<seq<seq<string>>>>)
    requires AllCells7(files)
    ensures ApMonitorListSumAsWritten(t, files).Err? <==>
      exists i :: 0 <= i < |files| && (files[i].None? || TypeErrorAt(ApList5GHz, files[i].value).Some?)
    ensures ApMonitorListSumAsWritten(t, files).Ok? ==> ApMonitorListSumAsWritten(t, files).value == SumReport(0, map[], [])
  {
    var rs := FileResultsAsWritten(t, files);
    Results.GatherFirst(rs);
    if Results.Gather(rs).Err? {
      var i :| 0 <= i < |rs| && rs[i] == Err(Results.Gather(rs).error) && forall j :: 0 <= j < i ==> rs[j].Ok?;
      assert rs[i].Err?;
    } else {
      var fcs := Results.Gather(rs).value;
      forall i | 0 <= i < |files|
        ensures !(files[i].None? || TypeErrorAt(ApList5GHz, files[i].value).Some?)
      {
        assert rs[i].Ok?;
      }
      NothingSummed(fcs);
      assert KeepMax.PutAll(Sightings(fcs), Snr, false) == map[];
      assert KeepMax.FirstSeen(Sightings(fcs)) == [];
    }
  }
}
