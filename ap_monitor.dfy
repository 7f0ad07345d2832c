/**
 * ap-monitor-list.py: the ap-list of 'show ap monitor ap-list' sorted by
 * current SNR, largest first, printed as the valid APs (base BSSIDs only)
 * and the interfering APs, with the AP names of 'show ap bss-table', the
 * own channel of the first own 5 GHz BSSID ("(+)") and the counts of
 * co-channel APs with SNR >= 10.
 */
module ApMonitor {
  import opened Wrappers
  import opened Text
  import opened MonitorRows
  import opened MonitorSections
  import Channels
  import StableSort
  import Counting
  import KeepMax

  /**
   * How the script ends early: no ap-list, a bss-table row too short for
   * column 8 (IndexError), a phy column without a match, a label missing
   * from the channel table (KeyError), or no own 5 GHz BSSID (`myapn`
   * unbound, a NameError); as written also the TypeError of assigning
   * into a tuple row.
   */
  datatype Failure = NoApList | ShortBssRow | BadPhy | UnknownLabel | NoOwnAp | TupleAssign

  /** The two sections with their totals (a section's total is its length), and the own AP's name. */
  datatype Report = Report(valid: seq<Line>, validCoch: nat, myapn: string, intf: seq<Line>, intfCoch: nat)

  predicate Wide(rows: seq<seq<string>>, n: nat)
  {
    forall i :: 0 <= i < |rows| ==> |rows[i]| >= n
  }

  /** (BSSID, AP name) of each bss-table row. */
  function NamePairs(rows: seq<seq<string>>): (r: seq<(string, string)>)
    requires Wide(rows, 9)
    ensures |r| == |rows| && forall i :: 0 <= i < |rows| ==> r[i] == (rows[i][0], rows[i][8])
  {
    seq(|rows|, i requires 0 <= i < |rows| => (rows[i][0], rows[i][8]))
  }

  /** `bss2apn`: empty without a bss-table; None for the IndexError of a short row. */
  function ApNames(bss: Option<seq<seq<string>>>): Option<map<string, string>>
  {
    if bss.None? then Some(map[])
    else if !Wide(bss.value, 9) then None
    else Some(KeepMax.Assign(NamePairs(bss.value)))
  }

  /** The defaultdict lookup: '' for a BSSID the bss-table does not list. */
  function Name(names: map<string, string>, k: string): string
  {
    if k in names then names[k] else ""
  }

  /** The name of a BSSID is the AP name of its last bss-table row, '' when it has none. */
  lemma {:induction false} ApNamesLast(rows: seq<seq<string>>, k: string)
    requires ApNames(Some(rows)).Some?
    ensures var names := ApNames(Some(rows)).value;
      (Name(names, k) == "" && forall i :: 0 <= i < |rows| ==> rows[i][0] != k)
      || exists i :: 0 <= i < |rows| && rows[i][0] == k && Name(names, k) == rows[i][8]
           && forall j :: i < j < |rows| ==> rows[j][0] != k
  {
    var ps := NamePairs(rows);
    KeepMax.AssignLast(ps, k);
    if k in KeepMax.Assign(ps) {
      var i :| 0 <= i < |ps| && ps[i].0 == k && KeepMax.Assign(ps)[k] == ps[i].1 && forall j :: i < j < |ps| ==> ps[j].0 != k;
      assert rows[i][0] == k;
    } else {
      forall i | 0 <= i < |rows|
        ensures rows[i][0] != k
      {
        assert ps[i].0 == rows[i][0];
      }
    }
  }

  /** The loop filling `bss2apn`. */
  method ReadNames(bss: Option<seq<seq<string>>>) returns (r: Option<map<string, string>>)
    ensures r == ApNames(bss)
  {
    if bss.None? {
      return Some(map[]);
    }
    var rows := bss.value;
    var names: map<string, string> := map[];
    for i := 0 to |rows|
      invariant Wide(rows[..i], 9) && names == KeepMax.Assign(NamePairs(rows[..i]))
    {
      if |rows[i]| < 9 {
        return None;
      }
      assert NamePairs(rows[..i + 1]) == NamePairs(rows[..i]) + [(rows[i][0], rows[i][8])];
      KeepMax.AssignSnoc(NamePairs(rows[..i]), rows[i][0], rows[i][8]);
      names := names[rows[i][0] := rows[i][8]];
    }
    assert rows[..|rows|] == rows;
    return Some(names);
  }

  /** The own BSSID: a 5 GHz (channel 36 up) BSSID marked "(+)". */
  predicate IsOwn(e: Entry) { EndsWith(e.bss, "(+)") && e.pch >= 36 }

  /** A valid AP's base BSSID (ending in 0), on 5 GHz. */
  predicate ValidBase(e: Entry)
  {
    (EndsWith(e.bss, "0") || EndsWith(e.bss, "0(+)")) && e.kind == "valid" && e.pch >= 36
  }

  /** Any other ap-type, on 5 GHz. */
  predicate Interfering(e: Entry) { e.kind != "valid" && e.pch >= 36 }

  /** The valid section names an AP by the first 17 characters of its BSSID, that is, without "(+)". */
  function ValidRule(names: map<string, string>): Rule
  {
    Rule(ValidBase, (e: Entry) => EndsWith(e.bss, "(+)"), true, (e: Entry) => Name(names, Slice(e.bss, 0, 17)))
  }

  /** The interfering section has no green line and looks the whole BSSID up. */
  function IntfRule(names: map<string, string>): Rule
  {
    Rule(Interfering, (e: Entry) => false, true, (e: Entry) => Name(names, e.bss))
  }

  /** The report on the parsed entries `es` whose first own entry is `mine`. */
  function Analyse(t: Channels.Table, names: map<string, string>, es: seq<Entry>, mine: Option<Entry>): Result<Report, Failure>
  {
    Sections(t, names, StableSort.SortDesc(es, Snr), mine)
  }

  /** The two sections over the sorted entries. */
  function Sections(t: Channels.Table, names: map<string, string>, sorted: seq<Entry>, mine: Option<Entry>): Result<Report, Failure>
  {
    match Section(t, Mych(mine), sorted, ValidRule(names))
      case None => Err(UnknownLabel)
      case Some(valid) =>
        if mine.None? then Err(NoOwnAp)
        else match Section(t, Mych(mine), sorted, IntfRule(names))
          case None => Err(UnknownLabel)
          case Some(intf) =>
            Ok(Report(valid, Counting.CountIf(valid, IsRed), Name(names, Slice(mine.value.bss, 0, 17)),
                      intf, Counting.CountIf(intf, IsRed)))
  }

  /** The script on an ap-list (None when the output has none) and a bss-table, with the channel table `t`. */
  function ApMonitorList(t: Channels.Table, apList: Option<seq<seq<string>>>, bss: Option<seq<seq<string>>>): Result<Report, Failure>
    requires apList.Some? ==> Cells7(apList.value)
  {
    if apList.None? then Err(NoApList)
    else match ApNames(bss)
      case None => Err(ShortBssRow)
      case Some(names) =>
        match Entries(ApList, apList.value)
          case None => Err(BadPhy)
          case Some(es) => Analyse(t, names, es, FirstOwn(es, IsOwn))
  }

  /**
   * The script: read the names, parse the ap-list, sort it, print the two
   * sections.  `t` is the `chsets` table, as `Channels.BuildChsets(true)`
   * builds it.
   */
  method Run(t: Channels.Table, apList: Option<seq<seq<string>>>, bss: Option<seq<seq<string>>>) returns (r: Result<Report, Failure>)
    requires apList.Some? ==> Cells7(apList.value)
    ensures r == ApMonitorList(t, apList, bss)
  {
    if apList.None? {
      return Err(NoApList);
    }
    var names := ReadNames(bss);
    if names.None? {
      return Err(ShortBssRow);
    }
    var parsed := ParseEntries(ApList, apList.value, IsOwn);
    if parsed.None? {
      return Err(BadPhy);
    }
    var (es, mine) := parsed.value;
    var sorted := StableSort.SortBy(es, Snr);
    var mych := Mych(mine);
    var valid := Render(t, mych, sorted, ValidRule(names.value));
    if valid.None? {
      return Err(UnknownLabel);
    }
    if mine.None? {
      return Err(NoOwnAp);
    }
    var intf := Render(t, mych, sorted, IntfRule(names.value));
    if intf.None? {
      return Err(UnknownLabel);
    }
    return Ok(Report(valid.value.0, valid.value.1, Name(names.value, Slice(mine.value.bss, 0, 17)), intf.value.0, intf.value.1));
  }

  /**
   * The totals and co-channel counts are those of the unsorted entries: the
   * number of valid base APs, and of those that are not the own AP, share a
   * channel with it and have SNR >= 10; likewise for the interfering APs.
   */
  lemma {:induction false} AnalyseCounts(t: Channels.Table, names: map<string, string>, es: seq<Entry>, mine: Option<Entry>)
    requires Analyse(t, names, es, mine).Ok?
    ensures var rep := Analyse(t, names, es, mine).value;
      |rep.valid| == Counting.CountIf(es, ValidBase)
      && rep.validCoch == Counting.CountIf(es, e => RedEntry(t, Mych(mine), e, ValidRule(names)))
      && |rep.intf| == Counting.CountIf(es, Interfering)
      && rep.intfCoch == Counting.CountIf(es, e => RedEntry(t, Mych(mine), e, IntfRule(names)))
      && rep.validCoch <= |rep.valid| && rep.intfCoch <= |rep.intf|
  {
    var sorted := StableSort.SortDesc(es, Snr);
    StableSort.SortDescProps(es, Snr);
    var mych := Mych(mine);
    var vr := ValidRule(names);
    var ir := IntfRule(names);
    SectionPerm(t, mych, sorted, es, vr);
    SectionPerm(t, mych, sorted, es, ir);
    SectionCounts(t, mych, es, vr);
    SectionCounts(t, mych, es, ir);
    var v := Section(t, mych, sorted, vr).value;
    var n := Section(t, mych, sorted, ir).value;
    Counting.CountMono(v, IsRed, l => true);
    Counting.CountMono(n, IsRed, l => true);
    AllCount(v);
    AllCount(n);
  }

  /** On the unsorted entries, a section's length and red count are counts of entries. */
  lemma {:induction false} SectionCounts(t: Channels.Table, mych: string, es: seq<Entry>, rule: Rule)
    requires Section(t, mych, es, rule).Some?
    ensures |Section(t, mych, es, rule).value| == Counting.CountIf(es, rule.keep)
    ensures Counting.CountIf(Section(t, mych, es, rule).value, IsRed) == Counting.CountIf(es, e => RedEntry(t, mych, e, rule))
  {
    SectionLines(t, mych, es, rule);
    Counting.FilterCount(es, rule.keep);
    SectionRed(t, mych, es, rule);
  }

  lemma {:induction false} AllCount(ls: seq<Line>)
    ensures Counting.CountIf(ls, l => true) == |ls|
    decreases |ls|
  {
    if ls != [] {
      AllCount(ls[..|ls| - 1]);
    }
  }

  /** A valid-section line: a valid base AP, green exactly when own, red exactly when a strong co-channel AP. */
  predicate ValidLine(t: Channels.Table, mych: string, l: Line)
  {
    ValidBase(l.e)
    && (l.colour == Green <==> EndsWith(l.e.bss, "(+)"))
    && (l.colour == Red <==> !EndsWith(l.e.bss, "(+)") && Channels.IsIntf(t, l.e.ch, mych) == Some(true) && l.e.snr >= SnrThreshold)
  }

  /** An interfering-section line: red exactly when a strong co-channel AP. */
  predicate IntfLine(t: Channels.Table, mych: string, l: Line)
  {
    Interfering(l.e)
    && (l.colour == Red <==> Channels.IsIntf(t, l.e.ch, mych) == Some(true) && l.e.snr >= SnrThreshold)
  }

  /**
   * Both sections list their APs by SNR, largest first; the valid section
   * has a green line exactly for the own BSSID, and a red line exactly for
   * an AP sharing a channel with the own channel at SNR >= 10.
   */
  lemma {:induction false} AnalyseLines(t: Channels.Table, names: map<string, string>, es: seq<Entry>, mine: Option<Entry>)
    requires Analyse(t, names, es, mine).Ok?
    ensures var rep := Analyse(t, names, es, mine).value;
      StableSort.SortedDesc(LineEntries(rep.valid), Snr) && StableSort.SortedDesc(LineEntries(rep.intf), Snr)
      && (forall k :: 0 <= k < |rep.valid| ==> ValidLine(t, Mych(mine), rep.valid[k]))
      && (forall k :: 0 <= k < |rep.intf| ==> IntfLine(t, Mych(mine), rep.intf[k]))
  {
    var sorted := StableSort.SortDesc(es, Snr);
    SortedEntries(es);
    ValidSection(t, Mych(mine), sorted, names);
    IntfSection(t, Mych(mine), sorted, names);
  }

  /** The sort orders by SNR and keeps every entry. */
  lemma {:induction false} SortedEntries(es: seq<Entry>)
    ensures StableSort.SortedDesc(StableSort.SortDesc(es, Snr), Snr)
    ensures multiset(StableSort.SortDesc(es, Snr)) == multiset(es)
  {
    StableSort.SortDescProps(es, Snr);
  }

  lemma {:induction false} ValidSection(t: Channels.Table, mych: string, sorted: seq<Entry>, names: map<string, string>)
    requires StableSort.SortedDesc(sorted, Snr) && Section(t, mych, sorted, ValidRule(names)).Some?
    ensures var ls := Section(t, mych, sorted, ValidRule(names)).value;
      StableSort.SortedDesc(LineEntries(ls), Snr) && forall k :: 0 <= k < |ls| ==> ValidLine(t, mych, ls[k])
  {
    SectionSorted(t, mych, sorted, ValidRule(names));
    SectionKept(t, mych, sorted, ValidRule(names));
  }

  lemma {:induction false} IntfSection(t: Channels.Table, mych: string, sorted: seq<Entry>, names: map<string, string>)
    requires StableSort.SortedDesc(sorted, Snr) && Section(t, mych, sorted, IntfRule(names)).Some?
    ensures var ls := Section(t, mych, sorted, IntfRule(names)).value;
      StableSort.SortedDesc(LineEntries(ls), Snr) && forall k :: 0 <= k < |ls| ==> IntfLine(t, mych, ls[k])
  {
    SectionSorted(t, mych, sorted, IntfRule(names));
    SectionKept(t, mych, sorted, IntfRule(names));
  }

  /**
   * Without an own 5 GHz BSSID `mych` stays '', which no channel table
   * holds, so the valid section already fails on the first valid base AP:
   * the NameError is reached only when there is none.
   */
  lemma {:induction false} NoOwnMeansNoValid(t: Channels.Table, names: map<string, string>, es: seq<Entry>)
    requires "" !in t
    requires Analyse(t, names, es, FirstOwn(es, IsOwn)) == Err(NoOwnAp)
    ensures forall i :: 0 <= i < |es| ==> !ValidBase(es[i])
  {
    var sorted := StableSort.SortDesc(es, Snr);
    var mine := FirstOwn(es, IsOwn);
    SectionsNoOwn(t, names, sorted, mine);
    SortedEntries(es);
    NoValidIn(t, names, es, sorted);
  }

  /**
   * On the table the `chsets` loops build, '' is no label, so the NameError
   * on `myapn` is reached only by an AP list without a valid base AP.
   */
  lemma {:induction false} NoOwnOnBuiltTable(t: Channels.Table, names: map<string, string>, es: seq<Entry>)
    requires Channels.Built(t, true)
    requires Analyse(t, names, es, FirstOwn(es, IsOwn)) == Err(NoOwnAp)
    ensures forall i :: 0 <= i < |es| ==> !ValidBase(es[i])
  {
    Channels.BuiltLookups(t, true, "", "");
    NoOwnMeansNoValid(t, names, es);
  }

  lemma {:induction false} NoValidIn(t: Channels.Table, names: map<string, string>, es: seq<Entry>, sorted: seq<Entry>)
    requires "" !in t && multiset(sorted) == multiset(es) && FirstOwn(es, IsOwn).None?
    requires Section(t, "", sorted, ValidRule(names)).Some?
    ensures forall i :: 0 <= i < |es| ==> !ValidBase(es[i])
  {
    SameMembers(es, sorted);
    NoOwnIn(es);
    NoValidWithoutOwn(t, sorted, names);
  }

  lemma {:induction false} SameMembers(a: seq<Entry>, b: seq<Entry>)
    requires multiset(a) == multiset(b)
    ensures forall e :: e in a <==> e in b
  {
    forall e
      ensures e in a <==> e in b
    {
      assert e in a <==> e in multiset(a);
      assert e in b <==> e in multiset(b);
    }
  }

  lemma {:induction false} NoOwnIn(es: seq<Entry>)
    requires FirstOwn(es, IsOwn).None?
    ensures forall e :: e in es ==> !IsOwn(e)
  {
  }

  lemma {:induction false} SectionsNoOwn(t: Channels.Table, names: map<string, string>, sorted: seq<Entry>, mine: Option<Entry>)
    requires Sections(t, names, sorted, mine) == Err(NoOwnAp)
    ensures mine.None? && Section(t, Mych(mine), sorted, ValidRule(names)).Some?
  {
  }

  /** With `mych` '' the valid section succeeds only on a list with no valid base AP that is not own. */
  lemma {:induction false} NoValidWithoutOwn(t: Channels.Table, sorted: seq<Entry>, names: map<string, string>)
    requires "" !in t && Section(t, "", sorted, ValidRule(names)).Some?
    requires forall e :: e in sorted ==> !IsOwn(e)
    ensures forall e :: e in sorted ==> !ValidBase(e)
  {
    SectionFail(t, "", sorted, ValidRule(names));
    forall e | e in sorted
      ensures !ValidBase(e)
    {
      var x :| 0 <= x < |sorted| && sorted[x] == e;
      assert !Unknown(t, "", sorted[x], ValidRule(names));
    }
  }

  // ---- as written: the ap-list rows are tuples ----

  /**
   * The script as written: the row loop raises TypeError at the first row
   * whose SNR reads as an integer, since `row[5] = int(row[5])` assigns into
   * a tuple; without such a row it has skipped every row.
   */
  function ApMonitorListAsWritten(t: Channels.Table, apList: Option<seq<seq<string>>>, bss: Option<seq<seq<string>>>): Result<Report, Failure>
    requires apList.Some? ==> Cells7(apList.value)
  {
    if apList.None? then Err(NoApList)
    else if ApNames(bss).None? then Err(ShortBssRow)
    else if TypeErrorAt(ApList, apList.value).Some? then Err(TupleAssign)
    else ApMonitorList(t, apList, bss)
  }

  /**
   * As written the script never prints its sections: it stops with
   * TypeError at the first row whose SNR reads as an integer, and with no
   * such row no entry is recorded, `myapn` is never bound, and it ends with
   * the NameError.
   */
  lemma {:induction false} AsWrittenNeverReports(t: Channels.Table, apList: Option<seq<seq<string>>>, bss: Option<seq<seq<string>>>)
    requires apList.Some? ==> Cells7(apList.value)
    ensures ApMonitorListAsWritten(t, apList, bss).Err?
    ensures apList.Some? && ApNames(bss).Some? ==>
      ApMonitorListAsWritten(t, apList, bss) == (if TypeErrorAt(ApList, apList.value).Some? then Err(TupleAssign) else Err(NoOwnAp))
  {
    if apList.Some? && ApNames(bss).Some? && TypeErrorAt(ApList, apList.value).None? {
      TupleLoopAppendsNothing(ApList, apList.value, IsOwn);
      var names := ApNames(bss).value;
      assert StableSort.SortDesc([], Snr) == [];
      assert Section(t, "", [], ValidRule(names)) == Some([]);
      assert Analyse(t, names, [], None) == Err(NoOwnAp);
    }
  }
}
