/**
 * radar-stats-nttd.py: the RADAR_DETECT events of 'show airmatch event',
 * counted per AP-name prefix (the letters and digits before the first
 * '-') and per hour of the day, listed busiest prefix first with its 24
 * hourly counts and its total.
 */
module RadarStatsNttd {
  import opened Wrappers
  import Text
  import Results
  import StableSort

  /**
   * How the script ends early: no event table (a TypeError on None), a
   * channel `int()` rejects, or an hour past 23, which indexes past the
   * 24 hourly counts (an IndexError the KeyError handler does not catch).
   */
  datatype Failure = NoTable | BadChan | BadHour

  /** A counted event: its AP prefix and its hour. */
  datatype Event = Event(prefix: string, hour: nat)

  /** `radar_num` (24 hourly counts per prefix), `radar_tot`, and the order the prefixes entered them. */
  datatype Tally = Tally(bins: map<string, seq<nat>>, tot: map<string, nat>, order: seq<string>)

  /** One printed row: the prefix, its hourly counts and its total. */
  datatype Line = Line(prefix: string, hours: seq<nat>, total: nat)

  const Hours := 24

  const RadarDetect := "RADAR_DETECT"

  /** Rows of the "Event Type", "Timestamp", "APName", "Chan" projection. */
  predicate Cells4(rows: seq<seq<string>>)
  {
    forall i :: 0 <= i < |rows| ==> |rows[i]| == 4
  }

  /** `[a-zA-Z0-9]`. */
  predicate IsAlnum(c: char)
  {
    'a' <= c <= 'z' || 'A' <= c <= 'Z' || '0' <= c <= '9'
  }

  /** The length of the run of letters and digits `s` starts with. */
  function AlnumLen(s: string): (n: nat)
    ensures n <= |s|
    ensures forall i :: 0 <= i < n ==> IsAlnum(s[i])
    ensures n < |s| ==> !IsAlnum(s[n])
  {
    if s == [] || !IsAlnum(s[0]) then 0 else 1 + AlnumLen(s[1..])
  }

  /** `re.match("([a-zA-Z0-9]+)-", apn).group(1)`, or None without a match. */
  function Prefix(apn: string): Option<string>
  {
    var n := AlnumLen(apn);
    if 0 < n < |apn| && apn[n] == '-' then Some(apn[..n]) else None
  }

  /** The positions of a `\d` in `\d\d\d\d-\d\d-\d\d_\d\d:\d\d:\d\d`. */
  predicate DigitAt(i: int)
  {
    0 <= i < 19 && i != 4 && i != 7 && i != 10 && i != 13 && i != 16
  }

  /** `ts` starts with a timestamp `YYYY-MM-DD_hh:mm:ss`. */
  predicate Stamped(ts: string)
  {
    |ts| >= 19
    && (forall i :: 0 <= i < 19 && DigitAt(i) ==> Text.IsDigit(ts[i]))
    && ts[4] == '-' && ts[7] == '-' && ts[10] == '_' && ts[13] == ':' && ts[16] == ':'
  }

  /** `int(m.group(1))`: the hour of a timestamp, or None without a match. */
  function Hour(ts: string): Option<nat>
  {
    if Stamped(ts) then Some(Text.DigitsValue(ts[11..13], 10)) else None
  }

  /**
   * One row: None when it is skipped (another event type, an AP name or a
   * timestamp without a match), else its event or the failure it raises.
   */
  function Classify(row: seq<string>): (r: Result<Option<Event>, Failure>)
    requires |row| == 4
    ensures r.Ok? && r.value.Some? ==> r.value.value.hour < Hours
  {
    if row[0] != RadarDetect then Ok(None)
    else match Prefix(row[2])
      case None => Ok(None)
      case Some(p) =>
        match Hour(row[1])
          case None => Ok(None)
          case Some(h) =>
            if Text.ParseInt(row[3]).None? then Err(BadChan)
            else if h >= Hours then Err(BadHour)
            else Ok(Some(Event(p, h)))
  }

  function RowResults(rows: seq<seq<string>>): (r: seq<Result<Option<Event>, Failure>>)
    requires Cells4(rows)
    ensures |r| == |rows| && forall i :: 0 <= i < |rows| ==> r[i] == Classify(rows[i])
  {
    seq(|rows|, i requires 0 <= i < |rows| => Classify(rows[i]))
  }

  /** Each row's outcome, up to the first failure. */
  function Detections(rows: seq<seq<string>>): Result<seq<Option<Event>>, Failure>
    requires Cells4(rows)
  {
    Results.Gather(RowResults(rows))
  }

  /** 24 zero counts. */
  function Zeros(): (z: seq<nat>)
    ensures |z| == Hours && forall h :: 0 <= h < Hours ==> z[h] == 0
  {
    seq(Hours, h => 0)
  }

  /** One row into the dicts: a new prefix starts with 24 zero counts. */
  function Record(t: Tally, o: Option<Event>): Tally
  {
    match o
      case None => t
      case Some(e) =>
        if e.prefix in t.bins && e.prefix in t.tot && e.hour < |t.bins[e.prefix]| then
          var b := t.bins[e.prefix];
          Tally(t.bins[e.prefix := b[e.hour := b[e.hour] + 1]], t.tot[e.prefix := t.tot[e.prefix] + 1], t.order)
        else if e.hour < Hours then
          Tally(t.bins[e.prefix := Zeros()[e.hour := 1]], t.tot[e.prefix := 1],
                if e.prefix in t.order then t.order else t.order + [e.prefix])
        else t
  }

  function Tallied(os: seq<Option<Event>>): Tally
  {
    if os == [] then Tally(map[], map[], [])
    else Record(Tallied(os[..|os| - 1]), os[|os| - 1])
  }

  /** The number of events with prefix `p`. */
  function Seen(os: seq<Option<Event>>, p: string): nat
  {
    if os == [] then 0
    else Seen(os[..|os| - 1], p) + (if os[|os| - 1].Some? && os[|os| - 1].value.prefix == p then 1 else 0)
  }

  /** The number of events with prefix `p` in hour `h`. */
  function SeenAt(os: seq<Option<Event>>, p: string, h: nat): nat
  {
    if os == [] then 0
    else SeenAt(os[..|os| - 1], p, h) + (if os[|os| - 1] == Some(Event(p, h)) then 1 else 0)
  }

  function Sum(s: seq<nat>): nat
  {
    if s == [] then 0 else Sum(s[..|s| - 1]) + s[|s| - 1]
  }

  function TotOf(t: Tally, p: string): int
  {
    if p in t.tot then t.tot[p] else 0
  }

  function Key(t: Tally): string -> int
  {
    p => TotOf(t, p)
  }

  function Lines(t: Tally, names: seq<string>): seq<Line>
  {
    seq(|names|, j requires 0 <= j < |names| =>
      Line(names[j], if names[j] in t.bins then t.bins[names[j]] else [], TotOf(t, names[j])))
  }

  /** The sheet's rows: every prefix by its total, largest first. */
  function Listing(t: Tally): seq<Line>
  {
    Lines(t, StableSort.SortDesc(t.order, Key(t)))
  }

  /** The script on the event table. */
  function RadarStatsNttd(rows: Option<seq<seq<string>>>): Result<seq<Line>, Failure>
    requires rows.Some? ==> Cells4(rows.value)
  {
    if rows.None? then Err(NoTable)
    else match Detections(rows.value)
      case Err(f) => Err(f)
      case Ok(os) => Ok(Listing(Tallied(os)))
  }

  /** Every prefix in the dicts has 24 counts and a total. */
  predicate Shaped(t: Tally)
  {
    t.bins.Keys == t.tot.Keys && forall p :: p in t.bins ==> |t.bins[p]| == Hours
  }

  lemma {:induction false} TalliedSnoc(os: seq<Option<Event>>, o: Option<Event>)
    ensures Tallied(os + [o]) == Record(Tallied(os), o)
  {
    assert (os + [o])[..|os|] == os;
  }

  /** One event into the dicts: the KeyError of a new prefix starts it at one. */
  method Add(bins: map<string, seq<nat>>, tot: map<string, nat>, order: seq<string>, e: Event)
    returns (bins': map<string, seq<nat>>, tot': map<string, nat>, order': seq<string>)
    requires Shaped(Tally(bins, tot, order)) && (forall p :: p in bins <==> p in order) && e.hour < Hours
    ensures Tally(bins', tot', order') == Record(Tally(bins, tot, order), Some(e))
  {
    if e.prefix in bins {
      var b := bins[e.prefix];
      bins' := bins[e.prefix := b[e.hour := b[e.hour] + 1]];
      tot' := tot[e.prefix := tot[e.prefix] + 1];
      order' := order;
    } else {
      var b := Zeros();
      bins' := bins[e.prefix := b[e.hour := 1]];
      tot' := tot[e.prefix := 1];
      order' := order + [e.prefix];
    }
  }

  /** The dicts stay shaped, and `order` holds their keys. */
  lemma {:induction false} TallyShaped(os: seq<Option<Event>>)
    ensures Shaped(Tallied(os))
    ensures forall p :: p in Tallied(os).bins <==> p in Tallied(os).order
    decreases |os|
  {
    if os != [] {
      TallyShaped(os[..|os| - 1]);
    }
  }

  /** The counting loop over the table. */
  method Collect(rows: seq<seq<string>>) returns (r: Result<Tally, Failure>)
    requires Cells4(rows)
    ensures r.Err? <==> Detections(rows).Err?
    ensures r.Err? ==> r.error == Detections(rows).error
    ensures r.Ok? ==> r.value == Tallied(Detections(rows).value)
  {
    var bins: map<string, seq<nat>> := map[];
    var tot: map<string, nat> := map[];
    var order: seq<string> := [];
    ghost var results := RowResults(rows);
    ghost var os: seq<Option<Event>> := [];
    for i := 0 to |rows|
      invariant Results.Gather(results[..i]) == Ok(os)
      invariant Tallied(os) == Tally(bins, tot, order)
    {
      Results.GatherStep(results, i, os);
      TallyShaped(os);
      var o := Classify(rows[i]);
      if o.Err? {
        Results.GatherStop(results, i + 1);
        return Err(o.error);
      }
      TalliedSnoc(os, o.value);
      if o.value.Some? {
        bins, tot, order := Add(bins, tot, order, o.value.value);
      }
      os := os + [o.value];
    }
    assert results[..|rows|] == results;
    return Ok(Tally(bins, tot, order));
  }

  /** The script: count the events, then list the prefixes. */
  method Run(rows: Option<seq<seq<string>>>) returns (r: Result<seq<Line>, Failure>)
    requires rows.Some? ==> Cells4(rows.value)
    ensures r == RadarStatsNttd(rows)
  {
    if rows.None? {
      return Err(NoTable);
    }
    var t := Collect(rows.value);
    if t.Err? {
      return Err(t.error);
    }
    var sorted := StableSort.SortBy(t.value.order, Key(t.value));
    return Ok(Lines(t.value, sorted));
  }

  /**
   * The prefix is the one string of letters and digits that, followed by
   * '-', starts the AP name; without one the row is skipped.
   */
  lemma {:induction false} PrefixMeaning(apn: string, p: string)
    ensures Prefix(apn) == Some(p) <==>
      |p| > 0 && (forall i :: 0 <= i < |p| ==> IsAlnum(p[i])) && |p| < |apn| && apn[..|p|] == p && apn[|p|] == '-'
  {
    if |p| > 0 && (forall i :: 0 <= i < |p| ==> IsAlnum(p[i])) && |p| < |apn| && apn[..|p|] == p && apn[|p|] == '-' {
      AlnumLenAt(apn, |p|);
    }
  }

  /** A run of letters and digits ended by another character is the whole leading run. */
  lemma {:induction false} AlnumLenAt(s: string, n: nat)
    requires n < |s| && (forall i :: 0 <= i < n ==> IsAlnum(s[i])) && !IsAlnum(s[n])
    ensures AlnumLen(s) == n
    decreases n
  {
    if n > 0 {
      AlnumLenAt(s[1..], n - 1);
    }
  }

  /** The hour is `int()` of the timestamp's two hour digits, so it is below 100. */
  lemma {:induction false} HourMeaning(ts: string)
    requires Hour(ts).Some?
    ensures Text.ParseInt(ts[11..13]) == Some(Hour(ts).value)
    ensures Hour(ts).value < 100
  {
    var d := ts[11..13];
    assert DigitAt(11) && DigitAt(12);
    assert Text.AllDigits(d);
    Text.ParseIntDigits(d);
    assert d[..1][..0] == [];
    assert Text.DigitsValue(d[..1], 10) == Text.DigitValue(d[0]);
  }

  /** Raising a count by one raises the sum by one. */
  lemma {:induction false} SumBump(s: seq<nat>, h: nat)
    requires h < |s|
    ensures Sum(s[h := s[h] + 1]) == Sum(s) + 1
    decreases |s|
  {
    var s' := s[h := s[h] + 1];
    assert s'[..|s| - 1] == if h < |s| - 1 then s[..|s| - 1][h := s[h] + 1] else s[..|s| - 1];
    if h < |s| - 1 {
      SumBump(s[..|s| - 1], h);
    }
  }

  lemma {:induction false} SumZeros(s: seq<nat>)
    requires forall h :: 0 <= h < |s| ==> s[h] == 0
    ensures Sum(s) == 0
    decreases |s|
  {
    if s != [] {
      SumZeros(s[..|s| - 1]);
    }
  }

  /** An event is counted in exactly one hour: a prefix's counts in one hour are at most its total. */
  lemma {:induction false} SeenAtBound(os: seq<Option<Event>>, p: string, h: nat)
    ensures SeenAt(os, p, h) <= Seen(os, p)
    decreases |os|
  {
    if os != [] {
      SeenAtBound(os[..|os| - 1], p, h);
    }
  }

  /**
   * The dicts count the events: a prefix is a key exactly when it has an
   * event, its total is its number of events, and its 24 counts are its
   * numbers of events per hour.
   */
  lemma {:induction false} TallyMeaning(os: seq<Option<Event>>)
    requires forall i :: 0 <= i < |os| && os[i].Some? ==> os[i].value.hour < Hours
    ensures var t := Tallied(os);
      Shaped(t)
      && (forall p :: p in t.tot <==> Seen(os, p) > 0)
      && (forall p :: p in t.tot ==> t.tot[p] == Seen(os, p))
      && (forall p, h :: p in t.bins && 0 <= h < Hours ==> t.bins[p][h] == SeenAt(os, p, h))
    decreases |os|
  {
    TallyShaped(os);
    if os != [] {
      var pre := os[..|os| - 1];
      TallyMeaning(pre);
      TallyShaped(pre);
      var o := os[|os| - 1];
      if o.Some? && o.value.prefix !in Tallied(pre).tot {
        forall h | 0 <= h < Hours
          ensures SeenAt(pre, o.value.prefix, h) == 0
        {
          SeenAtBound(pre, o.value.prefix, h);
        }
      }
    }
  }

  /** Each prefix's counts add up to its total. */
  predicate Summed(t: Tally)
  {
    forall p :: p in t.bins && p in t.tot ==> Sum(t.bins[p]) == t.tot[p]
  }

  /** One row keeps every prefix's counts adding up to its total. */
  lemma {:induction false} SummedStep(t: Tally, o: Option<Event>)
    requires Shaped(t) && Summed(t)
    ensures Summed(Record(t, o))
  {
    if o.Some? {
      var e := o.value;
      var t' := Record(t, o);
      if e.prefix in t.bins && e.prefix in t.tot && e.hour < |t.bins[e.prefix]| {
        var b := t.bins[e.prefix];
        SumBump(b, e.hour);
        assert t'.bins[e.prefix] == b[e.hour := b[e.hour] + 1];
      } else if e.hour < Hours {
        SumZeros(Zeros());
        SumBump(Zeros(), e.hour);
        assert t'.bins[e.prefix] == Zeros()[e.hour := 0 + 1];
      }
    }
  }

  /** Each prefix's 24 counts add up to its total, the last cell of its row. */
  lemma {:induction false} TallySums(os: seq<Option<Event>>)
    ensures Summed(Tallied(os))
    decreases |os|
  {
    if os != [] {
      var pre := os[..|os| - 1];
      TallySums(pre);
      TallyShaped(pre);
      SummedStep(Tallied(pre), os[|os| - 1]);
    }
  }

  /** The events the table's rows give have hours below 24. */
  lemma {:induction false} DetectionsHours(rows: seq<seq<string>>)
    requires Cells4(rows) && Detections(rows).Ok?
    ensures var os := Detections(rows).value;
      forall i :: 0 <= i < |os| && os[i].Some? ==> os[i].value.hour < Hours
  {
    var rs := RowResults(rows);
    Results.GatherFirst(rs);
    var os := Detections(rows).value;
    forall i | 0 <= i < |os| && os[i].Some?
      ensures os[i].value.hour < Hours
    {
      assert os[i] == rs[i].value && rs[i] == Classify(rows[i]);
    }
  }

  /** The sorted prefixes are the keys of the dicts, largest total first. */
  lemma {:induction false} SortedKeys(os: seq<Option<Event>>)
    ensures var t := Tallied(os);
      var sorted := StableSort.SortDesc(t.order, Key(t));
      StableSort.SortedDesc(sorted, Key(t))
      && forall p :: p in sorted <==> p in t.bins
  {
    var t := Tallied(os);
    TallyShaped(os);
    var sorted := StableSort.SortDesc(t.order, Key(t));
    StableSort.SortDescProps(t.order, Key(t));
    forall p
      ensures p in sorted <==> p in t.order
    {
      assert p in sorted <==> p in multiset(sorted);
      assert p in t.order <==> p in multiset(t.order);
    }
  }

  /** The sheet lists every prefix with an event, and no other. */
  lemma {:induction false} ListingNames(os: seq<Option<Event>>)
    requires forall i :: 0 <= i < |os| && os[i].Some? ==> os[i].value.hour < Hours
    ensures var ls := Listing(Tallied(os));
      forall p :: (exists j :: 0 <= j < |ls| && ls[j].prefix == p) <==> Seen(os, p) > 0
  {
    var t := Tallied(os);
    SortedKeys(os);
    TallyMeaning(os);
    var sorted := StableSort.SortDesc(t.order, Key(t));
    var ls := Listing(t);
    forall p | Seen(os, p) > 0
      ensures exists j :: 0 <= j < |ls| && ls[j].prefix == p
    {
      var j :| 0 <= j < |sorted| && sorted[j] == p;
      assert ls[j].prefix == p;
    }
    forall j | 0 <= j < |ls|
      ensures Seen(os, ls[j].prefix) > 0
    {
      assert sorted[j] in sorted;
    }
  }

  /** The sheet lists the prefixes by total, largest first. */
  lemma {:induction false} ListingOrder(os: seq<Option<Event>>)
    ensures var ls := Listing(Tallied(os));
      forall a, b :: 0 <= a < b < |ls| ==> ls[b].total <= ls[a].total
  {
    var t := Tallied(os);
    SortedKeys(os);
    var sorted := StableSort.SortDesc(t.order, Key(t));
    var ls := Listing(t);
    forall a, b | 0 <= a < b < |ls|
      ensures ls[b].total <= ls[a].total
    {
      assert Key(t)(sorted[b]) <= Key(t)(sorted[a]);
    }
  }

  /**
   * A row's total is its prefix's number of events, its cells its numbers
   * of events per hour, and they add up to the total.
   */
  lemma {:induction false} ListingCells(os: seq<Option<Event>>)
    requires forall i :: 0 <= i < |os| && os[i].Some? ==> os[i].value.hour < Hours
    ensures var ls := Listing(Tallied(os));
      forall j :: 0 <= j < |ls| ==>
        ls[j].total == Seen(os, ls[j].prefix) && |ls[j].hours| == Hours && Sum(ls[j].hours) == ls[j].total
        && forall h :: 0 <= h < Hours ==> ls[j].hours[h] == SeenAt(os, ls[j].prefix, h)
  {
    var t := Tallied(os);
    SortedKeys(os);
    TallyMeaning(os);
    TallySums(os);
    var sorted := StableSort.SortDesc(t.order, Key(t));
    var ls := Listing(t);
    forall j | 0 <= j < |ls|
      ensures sorted[j] in t.bins
    {
      assert sorted[j] in sorted;
    }
  }
}
