/**
 * cli-monitor-list.py: the client-list of 'show ap monitor client-list'
 * sorted by SNR, largest first, printed as the stations connected to one
 * of the AP's own BSSIDs (those of 'show ap bss-table'), the valid
 * stations not connected to it, and the stations of any other sta-type,
 * all on 5 GHz.  The own channel is that of the first connected 5 GHz
 * station; the last two sections colour a station sharing a channel with
 * it.
 */
module CliMonitor {
  import opened Wrappers
  import opened MonitorRows
  import opened MonitorSections
  import Channels
  import StableSort
  import Counting

  /**
   * How the script ends early: no client-list, an empty bss-table row
   * (IndexError on column 0), a phy column without a match, or a label
   * missing from the channel table (KeyError).
   */
  datatype Failure = NoStaList | EmptyBssRow | BadPhy | UnknownLabel

  /** The three sections. */
  datatype Report = Report(connected: seq<Line>, others: seq<Line>, nonValid: seq<Line>)

  /** `mybss`: column 0 of every bss-table row; empty without a bss-table; None for an empty row. */
  function OwnBssids(bss: Option<seq<seq<string>>>): (r: Option<set<string>>)
    ensures r.Some? && bss.Some? ==> forall b :: b in r.value <==> exists i :: 0 <= i < |bss.value| && bss.value[i] != [] && bss.value[i][0] == b
  {
    if bss.None? then Some({})
    else if exists i :: 0 <= i < |bss.value| && bss.value[i] == [] then None
    else Some(set i | 0 <= i < |bss.value| :: bss.value[i][0])
  }

  /** The loop filling `mybss`. */
  method ReadOwnBssids(bss: Option<seq<seq<string>>>) returns (r: Option<set<string>>)
    ensures r == OwnBssids(bss)
  {
    if bss.None? {
      return Some({});
    }
    var rows := bss.value;
    var mybss: set<string> := {};
    for i := 0 to |rows|
      invariant forall j :: 0 <= j < i ==> rows[j] != []
      invariant mybss == set j | 0 <= j < i :: rows[j][0]
    {
      if rows[i] == [] {
        return None;
      }
      mybss := mybss + {rows[i][0]};
    }
    return Some(mybss);
  }

  /** A 5 GHz station connected to an own BSSID. */
  predicate Connected(mybss: set<string>, e: Entry) { e.bss in mybss && e.pch >= 36 }

  /** A valid 5 GHz station connected elsewhere. */
  predicate OtherValid(mybss: set<string>, e: Entry) { e.bss !in mybss && e.kind == "valid" && e.pch >= 36 }

  /** A 5 GHz station of another sta-type. */
  predicate NonValid(e: Entry) { e.kind != "valid" && e.pch >= 36 }

  /** The connected section neither colours nor looks a label up. */
  function ConnectedRule(mybss: set<string>): Rule
  {
    Rule((e: Entry) => Connected(mybss, e), (e: Entry) => false, false, (e: Entry) => "")
  }

  function OtherRule(mybss: set<string>): Rule
  {
    Rule((e: Entry) => OtherValid(mybss, e), (e: Entry) => false, true, (e: Entry) => "")
  }

  function NonValidRule(): Rule
  {
    Rule(NonValid, (e: Entry) => false, true, (e: Entry) => "")
  }

  /** The three sections over the sorted entries, with own channel `mych`. */
  function Sections(t: Channels.Table, mybss: set<string>, mych: string, sorted: seq<Entry>): Result<Report, Failure>
  {
    match Section(t, mych, sorted, ConnectedRule(mybss))
      case None => Err(UnknownLabel)
      case Some(c) =>
        match Section(t, mych, sorted, OtherRule(mybss))
          case None => Err(UnknownLabel)
          case Some(o) =>
            match Section(t, mych, sorted, NonValidRule())
              case None => Err(UnknownLabel)
              case Some(n) => Ok(Report(c, o, n))
  }

  /** The script on a client-list and a bss-table, with the channel table `t`. */
  function CliMonitorList(t: Channels.Table, staList: Option<seq<seq<string>>>, bss: Option<seq<seq<string>>>): Result<Report, Failure>
    requires staList.Some? ==> Cells7(staList.value)
  {
    if staList.None? then Err(NoStaList)
    else match OwnBssids(bss)
      case None => Err(EmptyBssRow)
      case Some(mybss) =>
        match Entries(StaList, staList.value)
          case None => Err(BadPhy)
          case Some(es) =>
            Sections(t, mybss, Mych(FirstOwn(es, e => Connected(mybss, e))), StableSort.SortDesc(es, Snr))
  }

  /**
   * The script: read the own BSSIDs, parse the client-list, sort it, print
   * the three sections.  `t` is the `chset` table, as `Channels.CliChset`
   * builds it.
   */
  method Run(t: Channels.Table, staList: Option<seq<seq<string>>>, bss: Option<seq<seq<string>>>) returns (r: Result<Report, Failure>)
    requires staList.Some? ==> Cells7(staList.value)
    ensures r == CliMonitorList(t, staList, bss)
  {
    if staList.None? {
      return Err(NoStaList);
    }
    var mybss := ReadOwnBssids(bss);
    if mybss.None? {
      return Err(EmptyBssRow);
    }
    var parsed := ParseEntries(StaList, staList.value, e => Connected(mybss.value, e));
    if parsed.None? {
      return Err(BadPhy);
    }
    var (es, mine) := parsed.value;
    var sorted := StableSort.SortBy(es, Snr);
    var mych := Mych(mine);
    var c := Render(t, mych, sorted, ConnectedRule(mybss.value));
    if c.None? {
      return Err(UnknownLabel);
    }
    var o := Render(t, mych, sorted, OtherRule(mybss.value));
    if o.None? {
      return Err(UnknownLabel);
    }
    var n := Render(t, mych, sorted, NonValidRule());
    if n.None? {
      return Err(UnknownLabel);
    }
    return Ok(Report(c.value.0, o.value.0, n.value.0));
  }

  /** The connected section never fails: it looks no label up. */
  lemma {:induction false} ConnectedNeverFails(t: Channels.Table, mybss: set<string>, mych: string, es: seq<Entry>)
    ensures Section(t, mych, es, ConnectedRule(mybss)).Some?
    decreases |es|
  {
    if es != [] {
      ConnectedNeverFails(t, mybss, mych, es[..|es| - 1]);
    }
  }

  /** A painted line: never green, red exactly for a station sharing a channel with `mych` at SNR >= 10. */
  predicate PaintedLine(t: Channels.Table, mych: string, l: Line)
  {
    (l.colour == Red <==> Channels.IsIntf(t, l.e.ch, mych) == Some(true) && l.e.snr >= SnrThreshold)
    && l.colour != Green
  }

  /**
   * Every section lists its stations by SNR, largest first, and only those
   * of its test; the connected lines are plain, the others coloured by
   * channel overlap.
   */
  lemma {:induction false} SectionsLines(t: Channels.Table, mybss: set<string>, mych: string, sorted: seq<Entry>)
    requires StableSort.SortedDesc(sorted, Snr) && Sections(t, mybss, mych, sorted).Ok?
    ensures var rep := Sections(t, mybss, mych, sorted).value;
      StableSort.SortedDesc(LineEntries(rep.connected), Snr)
      && StableSort.SortedDesc(LineEntries(rep.others), Snr)
      && StableSort.SortedDesc(LineEntries(rep.nonValid), Snr)
      && (forall k :: 0 <= k < |rep.connected| ==> Connected(mybss, rep.connected[k].e) && rep.connected[k].colour == Plain)
      && (forall k :: 0 <= k < |rep.others| ==> OtherValid(mybss, rep.others[k].e) && PaintedLine(t, mych, rep.others[k]))
      && (forall k :: 0 <= k < |rep.nonValid| ==> NonValid(rep.nonValid[k].e) && PaintedLine(t, mych, rep.nonValid[k]))
  {
    SectionSorted(t, mych, sorted, ConnectedRule(mybss));
    SectionSorted(t, mych, sorted, OtherRule(mybss));
    SectionSorted(t, mych, sorted, NonValidRule());
    SectionKept(t, mych, sorted, ConnectedRule(mybss));
    SectionKept(t, mych, sorted, OtherRule(mybss));
    SectionKept(t, mych, sorted, NonValidRule());
  }

  /** A valid 5 GHz station connected to an own BSSID. */
  predicate ConnectedValid(mybss: set<string>, e: Entry) { Connected(mybss, e) && e.kind == "valid" }

  predicate Valid5(e: Entry) { e.kind == "valid" && e.pch >= 36 }

  /**
   * Each valid 5 GHz station is printed once in the first two sections:
   * the connected section holds the connected ones, the second all others.
   */
  lemma {:induction false} ValidSplit(t: Channels.Table, mybss: set<string>, mych: string, sorted: seq<Entry>)
    requires Sections(t, mybss, mych, sorted).Ok?
    ensures |Sections(t, mybss, mych, sorted).value.others| + Counting.CountIf(sorted, e => ConnectedValid(mybss, e))
      == Counting.CountIf(sorted, Valid5)
  {
    SectionLines(t, mych, sorted, OtherRule(mybss));
    Counting.FilterCount(sorted, OtherRule(mybss).keep);
    Counting.CountSplit(sorted, Valid5, e => ConnectedValid(mybss, e), OtherRule(mybss).keep);
  }

  /** The client-list's failures: a KeyError needs a painted station whose label, or `mych`, the table lacks. */
  lemma {:induction false} SectionsFail(t: Channels.Table, mybss: set<string>, mych: string, sorted: seq<Entry>)
    ensures Sections(t, mybss, mych, sorted).Err? <==>
      exists i :: 0 <= i < |sorted| && (OtherValid(mybss, sorted[i]) || NonValid(sorted[i])) && (sorted[i].ch !in t || mych !in t)
  {
    ConnectedNeverFails(t, mybss, mych, sorted);
    SectionFail(t, mych, sorted, OtherRule(mybss));
    SectionFail(t, mych, sorted, NonValidRule());
  }
}
