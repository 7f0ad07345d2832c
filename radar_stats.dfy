/**
 * radar-stats.py: the radar events of 'show airmatch event radar', counted
 * per AP and per AP and channel, listed busiest AP first while an AP has
 * more than four events, one cell per DFS channel.
 */
module RadarStats {
  import opened Wrappers
  import Text
  import Results
  import StableSort

  /** No event table (a TypeError on None), or a channel `int()` rejects. */
  datatype Failure = NoTable | BadChan

  /** One radar event: the AP that saw it and its channel. */
  datatype Event = Event(apn: string, ch: int)

  /**
   * The two dicts: `num` (events per AP), `ch` (events per AP and channel),
   * and `order`, the order in which the APs entered `num`.
   */
  datatype Tally = Tally(num: map<string, nat>, ch: map<string, map<int, nat>>, order: seq<string>)

  /** One printed row: the AP name and its counts on the DFS channels. */
  datatype Line = Line(apn: string, counts: seq<nat>)

  /** The channels of the sheet's columns. */
  const DfsChannels: seq<int> := [52, 56, 60, 64, 100, 104, 108, 112, 116, 120, 124, 128, 132, 136, 140]

  /** An AP is listed while it has more than this many events. */
  const MinListed := 4

  /** Rows of the "APName", "Chan" projection. */
  predicate Cells2(rows: seq<seq<string>>)
  {
    forall i :: 0 <= i < |rows| ==> |rows[i]| == 2
  }

  function ReadEvent(row: seq<string>): Result<Event, Failure>
    requires |row| == 2
  {
    match Text.ParseInt(row[1])
      case None => Err(BadChan)
      case Some(c) => Ok(Event(row[0], c))
  }

  function EventResults(rows: seq<seq<string>>): (r: seq<Result<Event, Failure>>)
    requires Cells2(rows)
    ensures |r| == |rows| && forall i :: 0 <= i < |rows| ==> r[i] == ReadEvent(rows[i])
  {
    seq(|rows|, i requires 0 <= i < |rows| => ReadEvent(rows[i]))
  }

  /** The events of the table, or the failure of the first row whose channel is not a number. */
  function Events(rows: seq<seq<string>>): Result<seq<Event>, Failure>
    requires Cells2(rows)
  {
    Results.Gather(EventResults(rows))
  }

  /** One event into the dicts: a new AP starts at one with an empty channel dict. */
  function Record(t: Tally, e: Event): Tally
  {
    var known := e.apn in t.num;
    var m := if known && e.apn in t.ch then t.ch[e.apn] else map[];
    Tally(t.num[e.apn := if known then t.num[e.apn] + 1 else 1],
          t.ch[e.apn := m[e.ch := if e.ch in m then m[e.ch] + 1 else 1]],
          if known then t.order else t.order + [e.apn])
  }

  /** The dicts after the events, in order. */
  function Tallied(evs: seq<Event>): Tally
  {
    if evs == [] then Tally(map[], map[], [])
    else Record(Tallied(evs[..|evs| - 1]), evs[|evs| - 1])
  }

  /** The number of events of AP `k`. */
  function Seen(evs: seq<Event>, k: string): nat
  {
    if evs == [] then 0
    else Seen(evs[..|evs| - 1], k) + (if evs[|evs| - 1].apn == k then 1 else 0)
  }

  /** The number of events of AP `k` on channel `c`. */
  function SeenOn(evs: seq<Event>, k: string, c: int): nat
  {
    if evs == [] then 0
    else SeenOn(evs[..|evs| - 1], k, c) + (if evs[|evs| - 1] == Event(k, c) then 1 else 0)
  }

  /** `radar_num[k]`, for the sort key. */
  function NumOf(t: Tally, k: string): int
  {
    if k in t.num then t.num[k] else 0
  }

  function Key(t: Tally): string -> int
  {
    k => NumOf(t, k)
  }

  function ChOf(t: Tally, k: string): map<int, nat>
  {
    if k in t.ch then t.ch[k] else map[]
  }

  /** A row's cells: the count on each DFS channel, 0 where the AP had none. */
  function Row(m: map<int, nat>): seq<nat>
  {
    seq(|DfsChannels|, j requires 0 <= j < |DfsChannels| => if DfsChannels[j] in m then m[DfsChannels[j]] else 0)
  }

  /** How many APs of `ks` come before the first with at most four events. */
  function BusyLen(t: Tally, ks: seq<string>): (n: nat)
    ensures n <= |ks|
  {
    if ks == [] || NumOf(t, ks[0]) <= MinListed then 0 else 1 + BusyLen(t, ks[1..])
  }

  function Lines(t: Tally, names: seq<string>): seq<Line>
  {
    seq(|names|, j requires 0 <= j < |names| => Line(names[j], Row(ChOf(t, names[j]))))
  }

  /** The sheet's rows: APs by event count, largest first, up to the first with at most four. */
  function Listing(t: Tally): seq<Line>
  {
    var sorted := StableSort.SortDesc(t.order, Key(t));
    Lines(t, sorted[..BusyLen(t, sorted)])
  }

  /** The script on the event table. */
  function RadarStats(rows: Option<seq<seq<string>>>): Result<seq<Line>, Failure>
    requires rows.Some? ==> Cells2(rows.value)
  {
    if rows.None? then Err(NoTable)
    else match Events(rows.value)
      case Err(f) => Err(f)
      case Ok(evs) => Ok(Listing(Tallied(evs)))
  }

  lemma {:induction false} TalliedSnoc(evs: seq<Event>, e: Event)
    ensures Tallied(evs + [e]) == Record(Tallied(evs), e)
  {
    assert (evs + [e])[..|evs|] == evs;
  }

  /** The counting loop over the table. */
  method Collect(rows: seq<seq<string>>) returns (r: Result<Tally, Failure>)
    requires Cells2(rows)
    ensures r.Err? <==> Events(rows).Err?
    ensures r.Err? ==> r.error == Events(rows).error
    ensures r.Ok? ==> r.value == Tallied(Events(rows).value)
  {
    var num: map<string, nat> := map[];
    var chs: map<string, map<int, nat>> := map[];
    var order: seq<string> := [];
    ghost var results := EventResults(rows);
    ghost var evs: seq<Event> := [];
    for i := 0 to |rows|
      invariant Results.Gather(results[..i]) == Ok(evs)
      invariant Tallied(evs) == Tally(num, chs, order)
      invariant num.Keys == chs.Keys
    {
      var apn := rows[i][0];
      var ch := Text.ParseInt(rows[i][1]);
      Results.GatherStep(results, i, evs);
      if ch.None? {
        Results.GatherStop(results, i + 1);
        return Err(BadChan);
      }
      TalliedSnoc(evs, Event(apn, ch.value));
      num, chs, order := Add(num, chs, order, Event(apn, ch.value));
      evs := evs + [Event(apn, ch.value)];
    }
    assert results[..|rows|] == results;
    return Ok(Tally(num, chs, order));
  }

  /** One event into the dicts: the KeyError of a new AP starts it at one. */
  method Add(num: map<string, nat>, chs: map<string, map<int, nat>>, order: seq<string>, e: Event)
    returns (num': map<string, nat>, chs': map<string, map<int, nat>>, order': seq<string>)
    requires num.Keys == chs.Keys
    ensures Tally(num', chs', order') == Record(Tally(num, chs, order), e)
    ensures num'.Keys == chs'.Keys
  {
    num', chs', order' := num, chs, order;
    if e.apn in num {
      num' := num[e.apn := num[e.apn] + 1];
    } else {
      num' := num[e.apn := 1];
      chs' := chs[e.apn := map[]];
      order' := order + [e.apn];
    }
    var m := chs'[e.apn];
    if e.ch in m {
      chs' := chs'[e.apn := m[e.ch := m[e.ch] + 1]];
    } else {
      chs' := chs'[e.apn := m[e.ch := 1]];
    }
  }

  lemma {:induction false} BusySuffix(t: Tally, ks: seq<string>, i: nat)
    requires i < |ks| && BusyLen(t, ks) == i + BusyLen(t, ks[i..]) && NumOf(t, ks[i]) > MinListed
    ensures BusyLen(t, ks) == i + 1 + BusyLen(t, ks[i + 1..])
  {
    assert ks[i..][1..] == ks[i + 1..];
  }

  /** The listing loop: stop at the first AP with at most four events. */
  method List(t: Tally) returns (lines: seq<Line>)
    ensures lines == Listing(t)
  {
    var sorted := StableSort.SortBy(t.order, Key(t));
    lines := [];
    var i := 0;
    while i < |sorted|
      invariant i <= |sorted|
      invariant BusyLen(t, sorted) == i + BusyLen(t, sorted[i..])
      invariant lines == Lines(t, sorted[..i])
    {
      var apn := sorted[i];
      if NumOf(t, apn) <= MinListed {
        break;
      }
      BusySuffix(t, sorted, i);
      LinesSnoc(t, sorted, i);
      lines := lines + [Line(apn, Row(ChOf(t, apn)))];
      i := i + 1;
    }
    assert BusyLen(t, sorted[i..]) == 0;
  }

  lemma {:induction false} LinesSnoc(t: Tally, names: seq<string>, i: nat)
    requires i < |names|
    ensures Lines(t, names[..i + 1]) == Lines(t, names[..i]) + [Line(names[i], Row(ChOf(t, names[i])))]
  {
    var a := Lines(t, names[..i + 1]);
    var b := Lines(t, names[..i]) + [Line(names[i], Row(ChOf(t, names[i])))];
    assert |a| == |b|;
    forall j | 0 <= j < |a|
      ensures a[j] == b[j]
    {
      assert names[..i + 1][j] == names[j];
      if j < i {
        assert names[..i][j] == names[j];
      }
    }
  }

  /** The script: count the events, then list the busy APs. */
  method Run(rows: Option<seq<seq<string>>>) returns (r: Result<seq<Line>, Failure>)
    requires rows.Some? ==> Cells2(rows.value)
    ensures r == RadarStats(rows)
  {
    if rows.None? {
      return Err(NoTable);
    }
    var t := Collect(rows.value);
    if t.Err? {
      return Err(t.error);
    }
    var lines := List(t.value);
    return Ok(lines);
  }

  /** The table fails exactly at its first channel that is not a number. */
  lemma {:induction false} EventsFail(rows: seq<seq<string>>)
    requires Cells2(rows)
    ensures Events(rows).Err? <==> exists i :: 0 <= i < |rows| && Text.ParseInt(rows[i][1]).None?
    ensures Events(rows).Ok? ==>
      |Events(rows).value| == |rows| && forall i :: 0 <= i < |rows| ==> Events(rows).value[i] == Event(rows[i][0], Text.ParseInt(rows[i][1]).value)
  {
    Results.GatherFirst(EventResults(rows));
    if Events(rows).Err? {
      var i :| 0 <= i < |rows| && EventResults(rows)[i].Err?;
    }
  }

  /** An AP has no more events on one channel than in all. */
  lemma {:induction false} SeenOnBound(evs: seq<Event>, k: string, c: int)
    ensures SeenOn(evs, k, c) <= Seen(evs, k)
    decreases |evs|
  {
    if evs != [] {
      SeenOnBound(evs[..|evs| - 1], k, c);
    }
  }

  /**
   * The APs in the dicts are those with an event, the same in both, and
   * `order` holds each of them once.
   */
  lemma {:induction false} TallyKeys(evs: seq<Event>)
    ensures var t := Tallied(evs);
      t.num.Keys == t.ch.Keys
      && (forall k :: k in t.num <==> k in t.order)
      && (forall k :: k in t.num <==> Seen(evs, k) > 0)
      && (forall a, b :: 0 <= a < b < |t.order| ==> t.order[a] != t.order[b])
    decreases |evs|
  {
    if evs != [] {
      TallyKeys(evs[..|evs| - 1]);
    }
  }

  /** `num` holds each AP's number of events. */
  lemma {:induction false} TallyNum(evs: seq<Event>)
    ensures var t := Tallied(evs);
      forall k :: k in t.num ==> t.num[k] == Seen(evs, k)
    decreases |evs|
  {
    if evs != [] {
      TallyNum(evs[..|evs| - 1]);
      TallyKeys(evs[..|evs| - 1]);
    }
  }

  /** An AP's channel dict holds exactly the channels it saw, each with its number of events. */
  lemma {:induction false} TallyCh(evs: seq<Event>)
    ensures var t := Tallied(evs);
      (forall k, c :: k in t.ch ==> (c in t.ch[k] <==> SeenOn(evs, k, c) > 0))
      && (forall k, c :: k in t.ch && c in t.ch[k] ==> t.ch[k][c] == SeenOn(evs, k, c))
    decreases |evs|
  {
    if evs != [] {
      var pre := evs[..|evs| - 1];
      var e := evs[|evs| - 1];
      TallyCh(pre);
      TallyKeys(pre);
      if e.apn !in Tallied(pre).num {
        forall c
          ensures SeenOn(pre, e.apn, c) == 0
        {
          SeenOnBound(pre, e.apn, c);
        }
      }
    }
  }

  /** In keys sorted largest first, the busy prefix is exactly the busy APs. */
  lemma {:induction false} BusyPrefix(t: Tally, ks: seq<string>)
    requires StableSort.SortedDesc(ks, Key(t))
    ensures forall j :: 0 <= j < |ks| ==> (j < BusyLen(t, ks) <==> NumOf(t, ks[j]) > MinListed)
    decreases |ks|
  {
    if ks != [] && NumOf(t, ks[0]) > MinListed {
      var rest := ks[1..];
      assert StableSort.SortedDesc(rest, Key(t)) by {
        forall a, b | 0 <= a < b < |rest|
          ensures Key(t)(rest[b]) <= Key(t)(rest[a])
        {
          assert rest[a] == ks[a + 1] && rest[b] == ks[b + 1];
        }
      }
      BusyPrefix(t, rest);
      forall j | 1 <= j < |ks|
        ensures ks[j] == rest[j - 1]
      {
      }
    } else if ks != [] {
      forall j | 0 <= j < |ks|
        ensures NumOf(t, ks[j]) <= MinListed
      {
        if j > 0 {
          assert Key(t)(ks[j]) <= Key(t)(ks[0]);
        }
      }
    }
  }

  /** The sorted keys are the keys of `num`, each once, largest count first. */
  lemma {:induction false} SortedKeys(evs: seq<Event>)
    ensures var t := Tallied(evs);
      var sorted := StableSort.SortDesc(t.order, Key(t));
      StableSort.SortedDesc(sorted, Key(t))
      && (forall k :: k in sorted <==> k in t.num)
      && forall j :: 0 <= j < |sorted| ==> sorted[j] in t.num && NumOf(t, sorted[j]) == Seen(evs, sorted[j])
  {
    var t := Tallied(evs);
    TallyKeys(evs);
    TallyNum(evs);
    var sorted := StableSort.SortDesc(t.order, Key(t));
    StableSort.SortDescProps(t.order, Key(t));
    forall k
      ensures k in sorted <==> k in t.order
    {
      assert k in sorted <==> k in multiset(sorted);
      assert k in t.order <==> k in multiset(t.order);
    }
    forall j | 0 <= j < |sorted|
      ensures sorted[j] in t.num
    {
      assert sorted[j] in sorted;
    }
  }

  /** The names of the sheet are the busy prefix of the sorted keys. */
  lemma {:induction false} BusyNames(t: Tally, ks: seq<string>)
    requires StableSort.SortedDesc(ks, Key(t))
    ensures var ls := Lines(t, ks[..BusyLen(t, ks)]);
      forall k :: (exists j :: 0 <= j < |ls| && ls[j].apn == k) <==> k in ks && NumOf(t, k) > MinListed
  {
    BusyPrefix(t, ks);
    var ls := Lines(t, ks[..BusyLen(t, ks)]);
    forall k | k in ks && NumOf(t, k) > MinListed
      ensures exists j :: 0 <= j < |ls| && ls[j].apn == k
    {
      var j :| 0 <= j < |ks| && ks[j] == k;
      assert ls[j].apn == k;
    }
  }

  /** The sheet lists exactly the APs with more than four events. */
  lemma {:induction false} ListingNames(evs: seq<Event>)
    ensures var ls := Listing(Tallied(evs));
      forall k :: (exists j :: 0 <= j < |ls| && ls[j].apn == k) <==> Seen(evs, k) > MinListed
  {
    var t := Tallied(evs);
    SortedKeys(evs);
    TallyKeys(evs);
    TallyNum(evs);
    BusyNames(t, StableSort.SortDesc(t.order, Key(t)));
  }

  /** The sheet lists the APs by their number of events, largest first. */
  lemma {:induction false} ListingOrder(evs: seq<Event>)
    ensures var ls := Listing(Tallied(evs));
      forall a, b :: 0 <= a < b < |ls| ==> Seen(evs, ls[b].apn) <= Seen(evs, ls[a].apn)
  {
    var t := Tallied(evs);
    SortedKeys(evs);
    var sorted := StableSort.SortDesc(t.order, Key(t));
    var ls := Listing(t);
    forall a, b | 0 <= a < b < |ls|
      ensures Seen(evs, ls[b].apn) <= Seen(evs, ls[a].apn)
    {
      assert Key(t)(sorted[b]) <= Key(t)(sorted[a]);
    }
  }

  /** Each row's cells are the AP's numbers of events on the DFS channels, 0 where it had none. */
  lemma {:induction false} ListingCells(evs: seq<Event>)
    ensures var ls := Listing(Tallied(evs));
      forall j, x :: 0 <= j < |ls| && 0 <= x < |DfsChannels| ==>
        |ls[j].counts| == |DfsChannels| && ls[j].counts[x] == SeenOn(evs, ls[j].apn, DfsChannels[x])
  {
    var t := Tallied(evs);
    SortedKeys(evs);
    TallyCh(evs);
    TallyKeys(evs);
    var sorted := StableSort.SortDesc(t.order, Key(t));
    var ls := Listing(t);
    forall j, x | 0 <= j < |ls| && 0 <= x < |DfsChannels|
      ensures |ls[j].counts| == |DfsChannels| && ls[j].counts[x] == SeenOn(evs, ls[j].apn, DfsChannels[x])
    {
      assert ls[j].apn == sorted[j] && sorted[j] in t.ch;
    }
  }
}
