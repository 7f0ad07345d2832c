/**
 * toptalker.py: two snapshots of 'show datapath session dpi' taken ten
 * seconds apart; the bytes each local session moved in between, summed per
 * local address and per application, and the ten largest of each.
 */
module TopTalker {
  import opened Wrappers
  import Text
  import Results
  import StableSort

  /** A snapshot without a session table (a TypeError on None), or a byte count `int()` rejects. */
  datatype Failure = NoTable | BadBytes

  /** One row of the seven-column projection, its byte count read. */
  datatype Ses = Ses(sip: string, dip: string, prot: string, sport: string, dport: string, bytes: int, app: string)

  /**
   * The second snapshot against the first: `info` stands for `ses_sip`,
   * `ses_dip` and `ses_app` (always assigned together), `dbytes` is the
   * delta dict and `order` the order in which it first saw its keys.
   */
  datatype Deltas = Deltas(info: map<string, Ses>, dbytes: map<string, int>, order: seq<string>)

  /** `ip_bytes`, `ip_numses` and `app_bytes`, with the orders in which they first saw their keys. */
  datatype Agg = Agg(ipBytes: map<string, int>, ipNum: map<string, nat>, ipOrder: seq<string>,
                     appBytes: map<string, int>, appOrder: seq<string>)

  /** The two printed lists: client, bytes and sessions; application and bytes. */
  datatype Report = Report(clients: seq<(string, int, nat)>, apps: seq<(string, int)>)

  /** The local network: a session is followed when one of its ends starts with this. */
  const IpPat := "192.168.1."

  /** Sessions to or from the controller itself are not counted. */
  const ControllerIp := "192.168.1.1"

  /** The length of each printed list. */
  const TopN := 10

  /** Rows of the seven-column projection. */
  predicate Cells7(rows: seq<seq<string>>)
  {
    forall i :: 0 <= i < |rows| ==> |rows[i]| == 7
  }

  /** `int(byte)` on the row, before any other test. */
  function ReadSes(row: seq<string>): Result<Ses, Failure>
    requires |row| == 7
  {
    match Text.ParseInt(row[5])
      case None => Err(BadBytes)
      case Some(b) => Ok(Ses(row[0], row[1], row[2], row[3], row[4], b, row[6]))
  }

  function SesResults(rows: seq<seq<string>>): (r: seq<Result<Ses, Failure>>)
    requires Cells7(rows)
    ensures |r| == |rows| && forall i :: 0 <= i < |rows| ==> r[i] == ReadSes(rows[i])
  {
    seq(|rows|, i requires 0 <= i < |rows| => ReadSes(rows[i]))
  }

  /** The sessions of a snapshot, or the failure of its first row whose byte count is not a number. */
  function Sessions(rows: seq<seq<string>>): Result<seq<Ses>, Failure>
    requires Cells7(rows)
  {
    Results.Gather(SesResults(rows))
  }

  /** f"{s:w}": left-aligned, padded with spaces to at least `w` characters, never cut. */
  function Pad(s: string, w: nat): (r: string)
    ensures |r| == if |s| < w then w else |s|
    ensures r[..|s|] == s && forall i :: |s| <= i < |r| ==> r[i] == ' '
  {
    if |s| < w then s + seq(w - |s|, _ => ' ') else s
  }

  /** The five padded fields of the session key. */
  function Fields(s: Ses): seq<string>
  {
    [Pad(s.sip, 16), Pad(s.dip, 16), Pad(s.prot, 5), Pad(s.sport, 5), Pad(s.dport, 5)]
  }

  /** f"{sip:16}:{dip:16}:{prot:5}:{sport:5}:{dport:5}". */
  function Key(s: Ses): string
  {
    Text.Join(Fields(s), ':')
  }

  /** A session with one end on the local network. */
  predicate Local(s: Ses)
  {
    Text.StartsWith(s.sip, IpPat) || Text.StartsWith(s.dip, IpPat)
  }

  /** The first snapshot's dicts: each local session under its key, a later row overwriting an earlier one. */
  function Recorded(ss: seq<Ses>): map<string, Ses>
  {
    if ss == [] then map[]
    else
      var m := Recorded(ss[..|ss| - 1]);
      var s := ss[|ss| - 1];
      if Local(s) then m[Key(s) := s] else m
  }

  /** The bytes a session moved since the first snapshot: its whole count when new or when the count went down. */
  function DeltaOf(prev: map<string, Ses>, s: Ses): int
  {
    var k := Key(s);
    if k !in prev then s.bytes
    else if s.bytes - prev[k].bytes < 0 then s.bytes
    else s.bytes - prev[k].bytes
  }

  /** One row of the second snapshot. */
  function Compare(prev: map<string, Ses>, d: Deltas, s: Ses): Deltas
  {
    if !Local(s) then d
    else
      var k := Key(s);
      Deltas(if k in prev then d.info else d.info[k := s],
             d.dbytes[k := DeltaOf(prev, s)],
             if k in d.dbytes then d.order else d.order + [k])
  }

  /** The delta dict after the second snapshot's rows, in order. */
  function Compared(prev: map<string, Ses>, ss: seq<Ses>): Deltas
  {
    if ss == [] then Deltas(prev, map[], [])
    else Compare(prev, Compared(prev, ss[..|ss| - 1]), ss[|ss| - 1])
  }

  /** The dicts agree on their keys: every delta has its session's addresses and application. */
  ghost predicate Coherent(d: Deltas)
  {
    d.dbytes.Keys <= d.info.Keys
    && (forall k :: k in d.dbytes <==> k in d.order)
    && (forall a, b :: 0 <= a < b < |d.order| ==> d.order[a] != d.order[b])
  }

  /** `d[k] += w`, a missing key starting from `w`. */
  function AddTo(m: map<string, int>, k: string, w: int): map<string, int>
  {
    m[k := if k in m then m[k] + w else w]
  }

  /**
   * One local end of a counted session: `ip_bytes[ip] += w` and
   * `ip_numses[ip] += 1`, or, on the KeyError of a new address, `w` and 1.
   */
  function Charge(a: Agg, ip: string, w: int): Agg
  {
    if !Text.StartsWith(ip, IpPat) then a
    else if ip in a.ipBytes && ip in a.ipNum then
      a.(ipBytes := a.ipBytes[ip := a.ipBytes[ip] + w], ipNum := a.ipNum[ip := a.ipNum[ip] + 1])
    else a.(ipBytes := a.ipBytes[ip := w], ipNum := a.ipNum[ip := 1], ipOrder := a.ipOrder + [ip])
  }

  /** Both ends of a session charged, the source address first. */
  function ChargeBoth(a: Agg, s: Ses, w: int): Agg
  {
    Charge(Charge(a, s.sip, w), s.dip, w)
  }

  /** A delta that is counted: not zero, and not to or from the controller. */
  predicate Counted(d: Deltas, k: string)
    requires k in d.dbytes && d.dbytes.Keys <= d.info.Keys
  {
    d.dbytes[k] != 0 && d.info[k].sip != ControllerIp && d.info[k].dip != ControllerIp
  }

  /** One session of the delta dict into the aggregates. */
  function Account(a: Agg, d: Deltas, k: string): Agg
    requires k in d.dbytes && d.dbytes.Keys <= d.info.Keys
  {
    if !Counted(d, k) then a
    else
      var s := d.info[k];
      var w := d.dbytes[k];
      var b := ChargeBoth(a, s, w);
      b.(appBytes := AddTo(b.appBytes, s.app, w),
         appOrder := if s.app in b.appBytes then b.appOrder else b.appOrder + [s.app])
  }

  /** The keys `ks` all have a delta. */
  predicate Listed(d: Deltas, ks: seq<string>)
  {
    forall i :: 0 <= i < |ks| ==> ks[i] in d.dbytes
  }

  /** The aggregates after the sessions `ks` of the delta dict, in order. */
  function Aggregated(d: Deltas, ks: seq<string>): Agg
    requires d.dbytes.Keys <= d.info.Keys && Listed(d, ks)
  {
    if ks == [] then Agg(map[], map[], [], map[], [])
    else Account(Aggregated(d, ks[..|ks| - 1]), d, ks[|ks| - 1])
  }

  /** `d[k]` for the sort key, 0 for a key the dict does not hold. */
  function ValueOf(m: map<string, int>, k: string): int
  {
    if k in m then m[k] else 0
  }

  function By(m: map<string, int>): string -> int
  {
    k => ValueOf(m, k)
  }

  /** `sorted(keys, key=..., reverse=True)[:10]`. */
  function Top(keys: seq<string>, m: map<string, int>): seq<string>
  {
    var sorted := StableSort.SortDesc(keys, By(m));
    sorted[..if |sorted| < TopN then |sorted| else TopN]
  }

  function ClientLines(a: Agg, ks: seq<string>): seq<(string, int, nat)>
  {
    seq(|ks|, i requires 0 <= i < |ks| => (ks[i], ValueOf(a.ipBytes, ks[i]), if ks[i] in a.ipNum then a.ipNum[ks[i]] else 0))
  }

  function AppLines(a: Agg, ks: seq<string>): seq<(string, int)>
  {
    seq(|ks|, i requires 0 <= i < |ks| => (ks[i], ValueOf(a.appBytes, ks[i])))
  }

  function Reported(a: Agg): Report
  {
    Report(ClientLines(a, Top(a.ipOrder, a.ipBytes)), AppLines(a, Top(a.appOrder, a.appBytes)))
  }

  /** The script on its two snapshots. */
  function TopTalker(first: Option<seq<seq<string>>>, second: Option<seq<seq<string>>>): Result<Report, Failure>
    requires first.Some? ==> Cells7(first.value)
    requires second.Some? ==> Cells7(second.value)
  {
    if first.None? then Err(NoTable)
    else match Sessions(first.value)
      case Err(f) => Err(f)
      case Ok(ss1) =>
        if second.None? then Err(NoTable)
        else match Sessions(second.value)
          case Err(f) => Err(f)
          case Ok(ss2) =>
            var d := Compared(Recorded(ss1), ss2);
            CoherentCompared(Recorded(ss1), ss2);
            Ok(Reported(Aggregated(d, d.order)))
  }

  // ---- the loops of the script ----

  lemma {:induction false} RecordedSnoc(ss: seq<Ses>, s: Ses)
    ensures Recorded(ss + [s]) == if Local(s) then Recorded(ss)[Key(s) := s] else Recorded(ss)
  {
    assert (ss + [s])[..|ss|] == ss;
  }

  lemma {:induction false} ComparedSnoc(prev: map<string, Ses>, ss: seq<Ses>, s: Ses)
    ensures Compared(prev, ss + [s]) == Compare(prev, Compared(prev, ss), s)
  {
    assert (ss + [s])[..|ss|] == ss;
  }

  /** The first snapshot's loop. */
  method ReadFirst(rows: seq<seq<string>>) returns (r: Result<map<string, Ses>, Failure>)
    requires Cells7(rows)
    ensures Sessions(rows).Err? ==> r == Err(Sessions(rows).error)
    ensures Sessions(rows).Ok? ==> r == Ok(Recorded(Sessions(rows).value))
  {
    var m: map<string, Ses> := map[];
    ghost var results := SesResults(rows);
    ghost var ss: seq<Ses> := [];
    for i := 0 to |rows|
      invariant Results.Gather(results[..i]) == Ok(ss)
      invariant m == Recorded(ss)
    {
      var row := rows[i];
      var b := Text.ParseInt(row[5]);
      Results.GatherStep(results, i, ss);
      if b.None? {
        Results.GatherStop(results, i + 1);
        return Err(BadBytes);
      }
      var s := Ses(row[0], row[1], row[2], row[3], row[4], b.value, row[6]);
      RecordedSnoc(ss, s);
      if Text.StartsWith(s.sip, IpPat) || Text.StartsWith(s.dip, IpPat) {
        m := m[Key(s) := s];
      }
      ss := ss + [s];
    }
    assert results[..|rows|] == results;
    return Ok(m);
  }

  /** The second snapshot's loop: the delta of each local session. */
  method ReadSecond(prev: map<string, Ses>, rows: seq<seq<string>>) returns (r: Result<Deltas, Failure>)
    requires Cells7(rows)
    ensures Sessions(rows).Err? ==> r == Err(Sessions(rows).error)
    ensures Sessions(rows).Ok? ==> r == Ok(Compared(prev, Sessions(rows).value))
  {
    var info := prev;
    var dbytes: map<string, int> := map[];
    var order: seq<string> := [];
    ghost var results := SesResults(rows);
    ghost var ss: seq<Ses> := [];
    for i := 0 to |rows|
      invariant Results.Gather(results[..i]) == Ok(ss)
      invariant Deltas(info, dbytes, order) == Compared(prev, ss)
    {
      var row := rows[i];
      var b := Text.ParseInt(row[5]);
      Results.GatherStep(results, i, ss);
      if b.None? {
        Results.GatherStop(results, i + 1);
        return Err(BadBytes);
      }
      var s := Ses(row[0], row[1], row[2], row[3], row[4], b.value, row[6]);
      ComparedSnoc(prev, ss, s);
      info, dbytes, order := CompareRow(prev, info, dbytes, order, s);
      ss := ss + [s];
    }
    assert results[..|rows|] == results;
    return Ok(Deltas(info, dbytes, order));
  }

  /** One row of the second snapshot: a new key joins the order; a session the first snapshot lacks records its addresses. */
  method CompareRow(prev: map<string, Ses>, info: map<string, Ses>, dbytes: map<string, int>, order: seq<string>, s: Ses)
    returns (info': map<string, Ses>, dbytes': map<string, int>, order': seq<string>)
    ensures Deltas(info', dbytes', order') == Compare(prev, Deltas(info, dbytes, order), s)
  {
    info', dbytes', order' := info, dbytes, order;
    if !(Text.StartsWith(s.sip, IpPat) || Text.StartsWith(s.dip, IpPat)) {
      return;
    }
    var key := Key(s);
    if key !in dbytes {
      order' := order + [key];
    }
    if key in prev {
      var delta := s.bytes - prev[key].bytes;
      if delta < 0 {
        delta := s.bytes;
      }
      dbytes' := dbytes[key := delta];
    } else {
      dbytes' := dbytes[key := s.bytes];
      info' := info[key := s];
    }
  }

  lemma {:induction false} AggregatedSnoc(d: Deltas, ks: seq<string>, i: nat)
    requires d.dbytes.Keys <= d.info.Keys && Listed(d, ks) && i < |ks|
    ensures Aggregated(d, ks[..i + 1]) == Account(Aggregated(d, ks[..i]), d, ks[i])
  {
    assert ks[..i + 1][..i] == ks[..i];
  }

  /** The aggregation loop over the delta dict. */
  method Aggregate(d: Deltas) returns (a: Agg)
    requires Coherent(d)
    ensures a == Aggregated(d, d.order)
  {
    a := Agg(map[], map[], [], map[], []);
    for i := 0 to |d.order|
      invariant a == Aggregated(d, d.order[..i])
    {
      var ses := d.order[i];
      var byte := d.dbytes[ses];
      AggregatedSnoc(d, d.order, i);
      if byte == 0 {
        continue;
      }
      var sip := d.info[ses].sip;
      var dip := d.info[ses].dip;
      if sip == ControllerIp || dip == ControllerIp {
        continue;
      }
      a := ChargeEnd(a, sip, byte);
      a := ChargeEnd(a, dip, byte);
      var app := d.info[ses].app;
      if app in a.appBytes {
        a := a.(appBytes := a.appBytes[app := a.appBytes[app] + byte]);
      } else {
        a := a.(appBytes := a.appBytes[app := byte], appOrder := a.appOrder + [app]);
      }
    }
    assert d.order[..|d.order|] == d.order;
  }

  /** The `try: ... += ... except KeyError:` for one end of a session. */
  method ChargeEnd(a: Agg, ip: string, byte: int) returns (a': Agg)
    ensures a' == Charge(a, ip, byte)
  {
    a' := a;
    if Text.StartsWith(ip, IpPat) {
      if ip in a.ipBytes && ip in a.ipNum {
        a' := a.(ipBytes := a.ipBytes[ip := a.ipBytes[ip] + byte], ipNum := a.ipNum[ip := a.ipNum[ip] + 1]);
      } else {
        a' := a.(ipBytes := a.ipBytes[ip := byte], ipNum := a.ipNum[ip := 1], ipOrder := a.ipOrder + [ip]);
      }
    }
  }

  /** The top of a key list, as the report prints it. */
  method TopOf(keys: seq<string>, m: map<string, int>) returns (t: seq<string>)
    ensures t == Top(keys, m)
  {
    var sorted := StableSort.SortBy(keys, By(m));
    t := sorted[..if |sorted| < TopN then |sorted| else TopN];
  }

  /** The script: both snapshots, the deltas, the aggregates and the two top-ten lists. */
  method Run(first: Option<seq<seq<string>>>, second: Option<seq<seq<string>>>) returns (r: Result<Report, Failure>)
    requires first.Some? ==> Cells7(first.value)
    requires second.Some? ==> Cells7(second.value)
    ensures r == TopTalker(first, second)
  {
    if first.None? {
      return Err(NoTable);
    }
    var prev := ReadFirst(first.value);
    if prev.Err? {
      return Err(prev.error);
    }
    if second.None? {
      return Err(NoTable);
    }
    var d := ReadSecond(prev.value, second.value);
    if d.Err? {
      return Err(d.error);
    }
    CoherentCompared(prev.value, Sessions(second.value).value);
    var a := Aggregate(d.value);
    var clients := TopOf(a.ipOrder, a.ipBytes);
    var apps := TopOf(a.appOrder, a.appBytes);
    return Ok(Report(ClientLines(a, clients), AppLines(a, apps)));
  }

  // ---- what the script computes ----

  /** Row `i` is the last local row of `ss` with key `k`. */
  predicate LastWith(ss: seq<Ses>, k: string, i: int)
  {
    0 <= i < |ss| && Local(ss[i]) && Key(ss[i]) == k
    && forall j :: i < j < |ss| && Local(ss[j]) ==> Key(ss[j]) != k
  }

  /**
   * The first snapshot keeps exactly the keys of its local rows, each with
   * the last local row of that key: a later duplicate overwrites the
   * earlier bytes and application.
   */
  lemma {:induction false} RecordedMeaning(ss: seq<Ses>, k: string)
    ensures k in Recorded(ss) <==> exists i :: 0 <= i < |ss| && Local(ss[i]) && Key(ss[i]) == k
    ensures k in Recorded(ss) ==> exists i :: LastWith(ss, k, i) && Recorded(ss)[k] == ss[i]
  {
    RecordedKeys(ss, k);
    if k in Recorded(ss) {
      RecordedLast(ss, k);
    }
  }

  lemma {:induction false} RecordedKeys(ss: seq<Ses>, k: string)
    ensures k in Recorded(ss) <==> exists i :: 0 <= i < |ss| && Local(ss[i]) && Key(ss[i]) == k
    decreases |ss|
  {
    if ss != [] {
      var pre := ss[..|ss| - 1];
      var s := ss[|ss| - 1];
      RecordedKeys(pre, k);
      if k in Recorded(ss) {
        if !(Local(s) && Key(s) == k) {
          var i :| 0 <= i < |pre| && Local(pre[i]) && Key(pre[i]) == k;
          assert ss[i] == pre[i];
        }
      }
      if exists i :: 0 <= i < |ss| && Local(ss[i]) && Key(ss[i]) == k {
        var i :| 0 <= i < |ss| && Local(ss[i]) && Key(ss[i]) == k;
        if i < |pre| {
          assert pre[i] == ss[i];
        }
      }
    }
  }

  lemma {:induction false} RecordedLast(ss: seq<Ses>, k: string)
    requires k in Recorded(ss)
    ensures exists i :: LastWith(ss, k, i) && Recorded(ss)[k] == ss[i]
    decreases |ss|
  {
    var pre := ss[..|ss| - 1];
    var s := ss[|ss| - 1];
    if Local(s) && Key(s) == k {
      assert LastWith(ss, k, |ss| - 1);
    } else {
      RecordedLast(pre, k);
      var i :| LastWith(pre, k, i) && Recorded(pre)[k] == pre[i];
      assert forall j :: 0 <= j < |pre| ==> ss[j] == pre[j];
      assert LastWith(ss, k, i);
    }
  }

  /**
   * The delta dict, its key order and the session dicts stay coherent: every
   * key with a delta has its addresses, the order holds each key of the
   * delta dict once, and the first snapshot's sessions are kept.
   */
  lemma {:induction false} CoherentCompared(prev: map<string, Ses>, ss: seq<Ses>)
    ensures Coherent(Compared(prev, ss))
    ensures prev.Keys <= Compared(prev, ss).info.Keys
    ensures forall k :: k in prev ==> Compared(prev, ss).info[k] == prev[k]
    decreases |ss|
  {
    if ss != [] {
      CoherentCompared(prev, ss[..|ss| - 1]);
    }
  }

  /** A key has a delta exactly when some local row of the second snapshot has it. */
  lemma {:induction false} ComparedKeys(prev: map<string, Ses>, ss: seq<Ses>, k: string)
    ensures k in Compared(prev, ss).dbytes <==> exists i :: 0 <= i < |ss| && Local(ss[i]) && Key(ss[i]) == k
    decreases |ss|
  {
    if ss != [] {
      var pre := ss[..|ss| - 1];
      ComparedKeys(prev, pre, k);
      if k in Compared(prev, pre).dbytes {
        var i :| 0 <= i < |pre| && Local(pre[i]) && Key(pre[i]) == k;
        assert ss[i] == pre[i];
      } else {
        forall i | 0 <= i < |pre| && Local(ss[i])
          ensures Key(ss[i]) != k
        {
          assert ss[i] == pre[i];
        }
      }
    }
  }

  /** Key `k`'s entries come from row `s`: its delta, and its addresses unless the first snapshot had them. */
  predicate EntryFrom(prev: map<string, Ses>, d: Deltas, k: string, s: Ses)
  {
    k in d.dbytes && k in d.info && d.dbytes[k] == DeltaOf(prev, s)
    && d.info[k] == (if k in prev then prev[k] else s)
  }

  /**
   * The second snapshot: a key's delta is that of its last local row,
   * measured against the first snapshot; its addresses are the first
   * snapshot's when it had the key, else the last such row's.
   */
  lemma {:induction false} ComparedLast(prev: map<string, Ses>, ss: seq<Ses>, k: string)
    requires k in Compared(prev, ss).dbytes
    ensures exists i :: LastWith(ss, k, i) && EntryFrom(prev, Compared(prev, ss), k, ss[i])
    decreases |ss|
  {
    var pre := ss[..|ss| - 1];
    var s := ss[|ss| - 1];
    var d0 := Compared(prev, pre);
    assert Compared(prev, ss) == Compare(prev, d0, s);
    if Local(s) && Key(s) == k {
      CoherentCompared(prev, pre);
      assert LastWith(ss, k, |ss| - 1);
    } else {
      CompareOther(prev, d0, s, k);
      ComparedLast(prev, pre, k);
      var i :| LastWith(pre, k, i) && EntryFrom(prev, d0, k, pre[i]);
      assert ss == pre + [s];
      LastWithSnoc(pre, s, k, i);
    }
  }

  /** A row of another key, or not local, leaves key `k`'s entries alone. */
  lemma {:induction false} CompareOther(prev: map<string, Ses>, d: Deltas, s: Ses, k: string)
    requires !(Local(s) && Key(s) == k)
    ensures var e := Compare(prev, d, s);
      (k in e.dbytes <==> k in d.dbytes) && (k in d.dbytes ==> e.dbytes[k] == d.dbytes[k])
      && (k in e.info <==> k in d.info) && (k in d.info ==> e.info[k] == d.info[k])
  {
  }

  /** A later row that is not a local row of key `k` keeps the last one where it was. */
  lemma {:induction false} LastWithSnoc(pre: seq<Ses>, s: Ses, k: string, i: int)
    requires LastWith(pre, k, i) && !(Local(s) && Key(s) == k)
    ensures LastWith(pre + [s], k, i)
  {
    var ss := pre + [s];
    forall j | i < j < |ss| && Local(ss[j])
      ensures Key(ss[j]) != k
    {
      if j < |pre| {
        assert ss[j] == pre[j];
      }
    }
  }

  /**
   * With byte counts that are not negative, a delta is never negative and
   * never more than the session's latest count; it is the growth since the
   * first snapshot when the count grew, and the whole count otherwise.
   */
  lemma {:induction false} DeltaBounds(prev: map<string, Ses>, s: Ses)
    requires s.bytes >= 0
    requires Key(s) in prev ==> prev[Key(s)].bytes >= 0
    ensures 0 <= DeltaOf(prev, s) <= s.bytes
    ensures Key(s) in prev && prev[Key(s)].bytes <= s.bytes ==> DeltaOf(prev, s) + prev[Key(s)].bytes == s.bytes
    ensures Key(s) !in prev || s.bytes < prev[Key(s)].bytes ==> DeltaOf(prev, s) == s.bytes
  {
  }

  /** How many ends of session `s` are the address `ip`. */
  function Ends(s: Ses, ip: string): nat
  {
    (if s.sip == ip then 1 else 0) + (if s.dip == ip then 1 else 0)
  }

  /** The sessions that the counted deltas of `ks` charge to the local address `ip`, one per matching end. */
  function Hits(d: Deltas, ks: seq<string>, ip: string): nat
    requires d.dbytes.Keys <= d.info.Keys && Listed(d, ks)
  {
    if ks == [] then 0
    else
      var k := ks[|ks| - 1];
      Hits(d, ks[..|ks| - 1], ip) + (if Counted(d, k) && Text.StartsWith(ip, IpPat) then Ends(d.info[k], ip) else 0)
  }

  /** The bytes that the counted deltas of `ks` charge to the local address `ip`, once per matching end. */
  function HitBytes(d: Deltas, ks: seq<string>, ip: string): int
    requires d.dbytes.Keys <= d.info.Keys && Listed(d, ks)
  {
    if ks == [] then 0
    else
      var k := ks[|ks| - 1];
      HitBytes(d, ks[..|ks| - 1], ip) + (if Counted(d, k) && Text.StartsWith(ip, IpPat) then Ends(d.info[k], ip) * d.dbytes[k] else 0)
  }

  /** The bytes of the counted deltas of `ks` whose application is `app`. */
  function AppMoved(d: Deltas, ks: seq<string>, app: string): int
    requires d.dbytes.Keys <= d.info.Keys && Listed(d, ks)
  {
    if ks == [] then 0
    else
      var k := ks[|ks| - 1];
      AppMoved(d, ks[..|ks| - 1], app) + (if Counted(d, k) && d.info[k].app == app then d.dbytes[k] else 0)
  }

  /** The number of counted deltas of `ks` whose application is `app`. */
  function AppSessions(d: Deltas, ks: seq<string>, app: string): nat
    requires d.dbytes.Keys <= d.info.Keys && Listed(d, ks)
  {
    if ks == [] then 0
    else
      var k := ks[|ks| - 1];
      AppSessions(d, ks[..|ks| - 1], app) + (if Counted(d, k) && d.info[k].app == app then 1 else 0)
  }

  /** The bytes of all counted deltas of `ks`. */
  function Moved(d: Deltas, ks: seq<string>): int
    requires d.dbytes.Keys <= d.info.Keys && Listed(d, ks)
  {
    if ks == [] then 0
    else
      var k := ks[|ks| - 1];
      Moved(d, ks[..|ks| - 1]) + (if Counted(d, k) then d.dbytes[k] else 0)
  }

  function Count(m: map<string, nat>, k: string): nat
  {
    if k in m then m[k] else 0
  }

  /** No element twice. */
  predicate Distinct(ks: seq<string>)
  {
    forall a, b :: 0 <= a < b < |ks| ==> ks[a] != ks[b]
  }

  /** The per-address dicts hold, for each local address, its sessions and bytes. */
  ghost predicate IpsHold(a: Agg, d: Deltas, ks: seq<string>)
    requires d.dbytes.Keys <= d.info.Keys && Listed(d, ks)
  {
    a.ipBytes.Keys == a.ipNum.Keys
    && (forall ip :: ip in a.ipNum <==> ip in a.ipOrder)
    && Distinct(a.ipOrder)
    && (forall ip :: ip in a.ipNum <==> Hits(d, ks, ip) > 0)
    && (forall ip :: Count(a.ipNum, ip) == Hits(d, ks, ip))
    && (forall ip :: ValueOf(a.ipBytes, ip) == HitBytes(d, ks, ip))
  }

  /** The per-application dict holds, for each application, its bytes. */
  ghost predicate AppsHold(a: Agg, d: Deltas, ks: seq<string>)
    requires d.dbytes.Keys <= d.info.Keys && Listed(d, ks)
  {
    (forall app :: app in a.appBytes <==> app in a.appOrder)
    && Distinct(a.appOrder)
    && (forall app :: app in a.appBytes <==> AppSessions(d, ks, app) > 0)
    && (forall app :: ValueOf(a.appBytes, app) == AppMoved(d, ks, app))
  }

  /** One local end charged: the same keys in both dicts, each once in the order. */
  lemma {:induction false} ChargeKeys(a: Agg, x: string, w: int)
    requires a.ipBytes.Keys == a.ipNum.Keys
    requires (forall ip :: ip in a.ipNum <==> ip in a.ipOrder) && Distinct(a.ipOrder)
    ensures var b := Charge(a, x, w);
      b.ipBytes.Keys == b.ipNum.Keys && b.ipNum.Keys == a.ipNum.Keys + (if Text.StartsWith(x, IpPat) then {x} else {})
      && (forall ip :: ip in b.ipNum <==> ip in b.ipOrder) && Distinct(b.ipOrder)
  {
    var b := Charge(a, x, w);
    if Text.StartsWith(x, IpPat) && x !in a.ipNum {
      assert b.ipOrder == a.ipOrder + [x];
      forall p, q | 0 <= p < q < |b.ipOrder|
        ensures b.ipOrder[p] != b.ipOrder[q]
      {
        if q == |a.ipOrder| {
          assert b.ipOrder[p] == a.ipOrder[p];
        }
      }
    }
  }

  /** One local end charged: one more session and `w` more bytes for that address, nothing else changes. */
  lemma {:induction false} ChargeCounts(a: Agg, x: string, w: int, ip: string)
    requires a.ipBytes.Keys == a.ipNum.Keys
    ensures var b := Charge(a, x, w);
      var hit := ip == x && Text.StartsWith(x, IpPat);
      b.ipBytes.Keys == b.ipNum.Keys
      && Count(b.ipNum, ip) == Count(a.ipNum, ip) + (if hit then 1 else 0)
      && ValueOf(b.ipBytes, ip) == ValueOf(a.ipBytes, ip) + (if hit then w else 0)
  {
  }

  /** Both ends of a counted session charged: the keys. */
  lemma {:induction false} ChargeBothKeys(a: Agg, s: Ses, w: int)
    requires a.ipBytes.Keys == a.ipNum.Keys
    requires (forall ip :: ip in a.ipNum <==> ip in a.ipOrder) && Distinct(a.ipOrder)
    ensures var b := ChargeBoth(a, s, w);
      b.ipBytes.Keys == b.ipNum.Keys
      && (forall ip :: ip in b.ipNum <==> ip in b.ipOrder) && Distinct(b.ipOrder)
      && (forall ip :: ip in b.ipNum <==> ip in a.ipNum || (Text.StartsWith(ip, IpPat) && Ends(s, ip) > 0))
  {
    var c := Charge(a, s.sip, w);
    var b := Charge(c, s.dip, w);
    ChargeKeys(a, s.sip, w);
    ChargeKeys(c, s.dip, w);
    forall ip
      ensures ip in b.ipNum <==> ip in a.ipNum || (Text.StartsWith(ip, IpPat) && Ends(s, ip) > 0)
    {
      assert ip in b.ipNum <==> ip in c.ipNum || (ip == s.dip && Text.StartsWith(s.dip, IpPat));
      assert ip in c.ipNum <==> ip in a.ipNum || (ip == s.sip && Text.StartsWith(s.sip, IpPat));
    }
  }

  /** Both ends of a counted session charged: one session and `w` bytes per local end that is `ip`. */
  lemma {:induction false} ChargeBothCounts(a: Agg, s: Ses, w: int, ip: string)
    requires a.ipBytes.Keys == a.ipNum.Keys
    ensures var b := ChargeBoth(a, s, w);
      Count(b.ipNum, ip) == Count(a.ipNum, ip) + (if Text.StartsWith(ip, IpPat) then Ends(s, ip) else 0)
      && ValueOf(b.ipBytes, ip) == ValueOf(a.ipBytes, ip) + (if Text.StartsWith(ip, IpPat) then Ends(s, ip) * w else 0)
  {
    var c := Charge(a, s.sip, w);
    var b := Charge(c, s.dip, w);
    ChargeCounts(a, s.sip, w, ip);
    ChargeCounts(c, s.dip, w, ip);
    var one := ip == s.sip && Text.StartsWith(s.sip, IpPat);
    var two := ip == s.dip && Text.StartsWith(s.dip, IpPat);
    assert Count(b.ipNum, ip) == Count(a.ipNum, ip) + (if one then 1 else 0) + (if two then 1 else 0);
    assert ValueOf(b.ipBytes, ip) == ValueOf(a.ipBytes, ip) + (if one then w else 0) + (if two then w else 0);
  }

  lemma {:induction false} IpsStep(d: Deltas, ks: seq<string>)
    requires d.dbytes.Keys <= d.info.Keys && Listed(d, ks) && ks != []
    requires IpsHold(Aggregated(d, ks[..|ks| - 1]), d, ks[..|ks| - 1])
    ensures IpsHold(Aggregated(d, ks), d, ks)
  {
    var pre := ks[..|ks| - 1];
    var k := ks[|ks| - 1];
    var a := Aggregated(d, pre);
    assert Aggregated(d, ks) == Account(a, d, k);
    AccountIps(a, d, k);
    IpsHoldStep(a, Aggregated(d, ks), d, ks);
  }

  /** What the counted delta of `k` charges to the local address `ip`: one session per matching end. */
  function Inc(d: Deltas, k: string, ip: string): nat
    requires k in d.dbytes && d.dbytes.Keys <= d.info.Keys
  {
    if Counted(d, k) && Text.StartsWith(ip, IpPat) then Ends(d.info[k], ip) else 0
  }

  /** The address dicts after `k`: coherent, and each address charged `Inc` sessions and as many deltas. */
  ghost predicate IpsCharged(a: Agg, b: Agg, d: Deltas, k: string)
    requires k in d.dbytes && d.dbytes.Keys <= d.info.Keys
  {
    b.ipBytes.Keys == b.ipNum.Keys
    && (forall ip :: ip in b.ipNum <==> ip in b.ipOrder) && Distinct(b.ipOrder)
    && (forall ip :: ip in b.ipNum <==> ip in a.ipNum || Inc(d, k, ip) > 0)
    && (forall ip :: Count(b.ipNum, ip) == Count(a.ipNum, ip) + Inc(d, k, ip))
    && (forall ip :: ValueOf(b.ipBytes, ip) == ValueOf(a.ipBytes, ip) + Inc(d, k, ip) * d.dbytes[k])
  }

  lemma {:induction false} AccountIps(a: Agg, d: Deltas, k: string)
    requires k in d.dbytes && d.dbytes.Keys <= d.info.Keys
    requires a.ipBytes.Keys == a.ipNum.Keys
    requires (forall ip :: ip in a.ipNum <==> ip in a.ipOrder) && Distinct(a.ipOrder)
    ensures IpsCharged(a, Account(a, d, k), d, k)
  {
    if Counted(d, k) {
      var s := d.info[k];
      var w := d.dbytes[k];
      var b := Account(a, d, k);
      var c := ChargeBoth(a, s, w);
      assert b.ipBytes == c.ipBytes && b.ipNum == c.ipNum && b.ipOrder == c.ipOrder;
      ChargeBothKeys(a, s, w);
      forall ip
        ensures Count(b.ipNum, ip) == Count(a.ipNum, ip) + Inc(d, k, ip)
        ensures ValueOf(b.ipBytes, ip) == ValueOf(a.ipBytes, ip) + Inc(d, k, ip) * w
      {
        ChargeBothCounts(a, s, w, ip);
      }
    }
  }

  lemma {:induction false} IpsHoldStep(a: Agg, b: Agg, d: Deltas, ks: seq<string>)
    requires d.dbytes.Keys <= d.info.Keys && Listed(d, ks) && ks != []
    requires IpsHold(a, d, ks[..|ks| - 1]) && IpsCharged(a, b, d, ks[|ks| - 1])
    ensures IpsHold(b, d, ks)
  {
    var pre := ks[..|ks| - 1];
    var k := ks[|ks| - 1];
    forall ip
      ensures ip in b.ipNum <==> Hits(d, ks, ip) > 0
      ensures Count(b.ipNum, ip) == Hits(d, ks, ip)
      ensures ValueOf(b.ipBytes, ip) == HitBytes(d, ks, ip)
    {
      HitsStep(d, ks, ip);
      assert ip in a.ipNum <==> Hits(d, pre, ip) > 0;
      assert Count(a.ipNum, ip) == Hits(d, pre, ip);
      assert ValueOf(a.ipBytes, ip) == HitBytes(d, pre, ip);
    }
  }

  lemma {:induction false} HitsStep(d: Deltas, ks: seq<string>, ip: string)
    requires d.dbytes.Keys <= d.info.Keys && Listed(d, ks) && ks != []
    ensures Hits(d, ks, ip) == Hits(d, ks[..|ks| - 1], ip) + Inc(d, ks[|ks| - 1], ip)
    ensures HitBytes(d, ks, ip) == HitBytes(d, ks[..|ks| - 1], ip) + Inc(d, ks[|ks| - 1], ip) * d.dbytes[ks[|ks| - 1]]
  {
  }

  /**
   * `ip_bytes` and `ip_numses` have the same keys, exactly the local
   * addresses with a counted session; each session adds its delta, and one
   * session, to each of its ends on the local network (twice when both
   * ends are the same local address).
   */
  lemma {:induction false} AggregatedIps(d: Deltas, ks: seq<string>)
    requires d.dbytes.Keys <= d.info.Keys && Listed(d, ks)
    ensures IpsHold(Aggregated(d, ks), d, ks)
    decreases |ks|
  {
    if ks != [] {
      AggregatedIps(d, ks[..|ks| - 1]);
      IpsStep(d, ks);
    }
  }

  /** Charging an address leaves the application dict alone. */
  lemma {:induction false} ChargeApps(a: Agg, x: string, w: int)
    ensures Charge(a, x, w).appBytes == a.appBytes && Charge(a, x, w).appOrder == a.appOrder
  {
  }

  /** One application charged: `w` more bytes for it, a new one appended to the order. */
  lemma {:induction false} AddApp(m: map<string, int>, order: seq<string>, app: string, w: int)
    requires (forall x :: x in m <==> x in order) && Distinct(order)
    ensures var m' := AddTo(m, app, w);
      var order' := if app in m then order else order + [app];
      (forall x :: x in m' <==> x in order') && Distinct(order')
      && m'.Keys == m.Keys + {app}
      && forall x :: ValueOf(m', x) == ValueOf(m, x) + (if x == app then w else 0)
  {
    if app !in m {
      var order' := order + [app];
      forall p, q | 0 <= p < q < |order'|
        ensures order'[p] != order'[q]
      {
        if q == |order| {
          assert order'[p] == order[p];
        }
      }
    }
  }

  lemma {:induction false} AppsStep(d: Deltas, ks: seq<string>)
    requires d.dbytes.Keys <= d.info.Keys && Listed(d, ks) && ks != []
    requires AppsHold(Aggregated(d, ks[..|ks| - 1]), d, ks[..|ks| - 1])
    ensures AppsHold(Aggregated(d, ks), d, ks)
  {
    var pre := ks[..|ks| - 1];
    var k := ks[|ks| - 1];
    var a := Aggregated(d, pre);
    var b := Aggregated(d, ks);
    assert b == Account(a, d, k);
    AccountApps(a, d, k);
    if Counted(d, k) {
      AddApp(a.appBytes, a.appOrder, d.info[k].app, d.dbytes[k]);
    }
  }

  /** One session of the delta dict: what it does to the application dict and its order. */
  lemma {:induction false} AccountApps(a: Agg, d: Deltas, k: string)
    requires k in d.dbytes && d.dbytes.Keys <= d.info.Keys
    ensures Account(a, d, k).appBytes == if Counted(d, k) then AddTo(a.appBytes, d.info[k].app, d.dbytes[k]) else a.appBytes
    ensures Account(a, d, k).appOrder ==
      if Counted(d, k) && d.info[k].app !in a.appBytes then a.appOrder + [d.info[k].app] else a.appOrder
  {
    if Counted(d, k) {
      var s := d.info[k];
      var w := d.dbytes[k];
      ChargeApps(a, s.sip, w);
      ChargeApps(Charge(a, s.sip, w), s.dip, w);
    }
  }

  /** `app_bytes` holds exactly the applications of counted sessions, each with the sum of their deltas. */
  lemma {:induction false} AggregatedApps(d: Deltas, ks: seq<string>)
    requires d.dbytes.Keys <= d.info.Keys && Listed(d, ks)
    ensures AppsHold(Aggregated(d, ks), d, ks)
    decreases |ks|
  {
    if ks != [] {
      AggregatedApps(d, ks[..|ks| - 1]);
      AppsStep(d, ks);
    }
  }

  /** The sum of `m` over the keys `ks`. */
  function SumAt(m: map<string, int>, ks: seq<string>): int
  {
    if ks == [] then 0 else SumAt(m, ks[..|ks| - 1]) + ValueOf(m, ks[|ks| - 1])
  }

  /** A key outside `ks` does not change their sum. */
  lemma {:induction false} SumAtFrame(m: map<string, int>, ks: seq<string>, k: string, v: int)
    requires k !in ks
    ensures SumAt(m[k := v], ks) == SumAt(m, ks)
    decreases |ks|
  {
    if ks != [] {
      SumAtFrame(m, ks[..|ks| - 1], k, v);
    }
  }

  /** Adding `w` to a key that appears once in `ks` adds `w` to their sum. */
  lemma {:induction false} SumAtAdd(m: map<string, int>, ks: seq<string>, k: string, w: int)
    requires Distinct(ks) && k in ks
    ensures SumAt(AddTo(m, k, w), ks) == SumAt(m, ks) + w
    decreases |ks|
  {
    var pre := ks[..|ks| - 1];
    if ks[|ks| - 1] == k {
      assert k !in pre;
      SumAtFrame(m, pre, k, ValueOf(m, k) + w);
    } else {
      assert k in pre by {
        var a :| 0 <= a < |ks| && ks[a] == k;
        assert pre[a] == k;
      }
      SumAtAdd(m, pre, k, w);
    }
  }

  /**
   * Nothing is lost or counted twice: the bytes of `app_bytes`, summed over
   * its keys, are the bytes of all counted deltas.
   */
  lemma {:induction false} AppTotal(d: Deltas, ks: seq<string>)
    requires d.dbytes.Keys <= d.info.Keys && Listed(d, ks)
    ensures SumAt(Aggregated(d, ks).appBytes, Aggregated(d, ks).appOrder) == Moved(d, ks)
    decreases |ks|
  {
    if ks != [] {
      var pre := ks[..|ks| - 1];
      var k := ks[|ks| - 1];
      AppTotal(d, pre);
      AggregatedApps(d, pre);
      var a := Aggregated(d, pre);
      if Counted(d, k) {
        var s := d.info[k];
        var w := d.dbytes[k];
        var c := Charge(a, s.sip, w);
        ChargeApps(a, s.sip, w);
        ChargeApps(c, s.dip, w);
        if s.app in a.appBytes {
          SumAtAdd(a.appBytes, a.appOrder, s.app, w);
        } else {
          SumAtFrame(a.appBytes, a.appOrder, s.app, w);
          assert (a.appOrder + [s.app])[..|a.appOrder|] == a.appOrder;
        }
      }
    }
  }

  /**
   * The printed top ten: at most ten keys, all from `keys`, in descending
   * order of their values; when a key is left out, every listed key has at
   * least its value.
   */
  lemma {:induction false} TopMeaning(keys: seq<string>, m: map<string, int>)
    ensures var t := Top(keys, m);
      |t| == (if |keys| < TopN then |keys| else TopN)
      && (forall i :: 0 <= i < |t| ==> t[i] in keys)
      && (forall i, j :: 0 <= i < j < |t| ==> ValueOf(m, t[j]) <= ValueOf(m, t[i]))
      && (forall k, i :: k in keys && k !in t && 0 <= i < |t| ==> ValueOf(m, k) <= ValueOf(m, t[i]))
  {
    var sorted := StableSort.SortDesc(keys, By(m));
    StableSort.SortDescProps(keys, By(m));
    assert |sorted| == |keys| by {
      assert |multiset(sorted)| == |multiset(keys)|;
    }
    var t := Top(keys, m);
    forall i | 0 <= i < |t|
      ensures t[i] in keys
    {
      assert t[i] == sorted[i] && sorted[i] in multiset(keys);
    }
    forall i, j | 0 <= i < j < |t|
      ensures ValueOf(m, t[j]) <= ValueOf(m, t[i])
    {
      assert By(m)(sorted[j]) <= By(m)(sorted[i]);
    }
    forall k, i | k in keys && k !in t && 0 <= i < |t|
      ensures ValueOf(m, k) <= ValueOf(m, t[i])
    {
      assert k in multiset(sorted);
      var j :| 0 <= j < |sorted| && sorted[j] == k;
      assert forall x :: 0 <= x < |t| ==> t[x] == sorted[x];
      assert By(m)(sorted[j]) <= By(m)(sorted[i]);
    }
  }

  /** Trailing padding is trimmed back to the end of the field. */
  lemma {:induction false} TrimPadding(f: string, w: nat, k: nat)
    requires f == [] || !Text.IsSpace(f[|f| - 1])
    requires |f| <= k <= |Pad(f, w)|
    ensures Text.RTrimEnd(Pad(f, w), k) == |f|
    decreases k
  {
    var p := Pad(f, w);
    if k > |f| {
      assert p[k - 1] == ' ';
      TrimPadding(f, w, k - 1);
    } else if k > 0 {
      assert p[k - 1] == f[|f| - 1];
    }
  }

  /** f"{s:w}" drops nothing: right-stripping it gives back a field that does not end in whitespace. */
  lemma {:induction false} PadStrip(f: string, w: nat)
    requires f == [] || !Text.IsSpace(f[|f| - 1])
    ensures Text.RStrip(Pad(f, w)) == f
  {
    TrimPadding(f, w, |Pad(f, w)|);
  }

  /** Fields as the table gives them: no ':' inside and no trailing whitespace. */
  predicate Plain(f: string)
  {
    ':' !in f && (f == [] || !Text.IsSpace(f[|f| - 1]))
  }

  /** Padding adds only spaces. */
  lemma {:induction false} PadAvoids(f: string, w: nat, c: char)
    requires c != ' ' && c !in f
    ensures c !in Pad(f, w)
  {
    var p := Pad(f, w);
    forall i | 0 <= i < |p|
      ensures p[i] != c
    {
      if i < |f| {
        assert p[i] == p[..|f|][i] == f[i];
      }
    }
  }

  /** The key splits at ':' back into its five padded fields. */
  lemma {:induction false} SplitKey(x: Ses)
    requires Plain(x.sip) && Plain(x.dip) && Plain(x.prot) && Plain(x.sport) && Plain(x.dport)
    ensures Text.Split(Key(x), ':') == Fields(x)
  {
    PadAvoids(x.sip, 16, ':');
    PadAvoids(x.dip, 16, ':');
    PadAvoids(x.prot, 5, ':');
    PadAvoids(x.sport, 5, ':');
    PadAvoids(x.dport, 5, ':');
    var fs := Fields(x);
    assert forall j :: 0 <= j < |fs| ==> ':' !in fs[j];
    Text.SplitJoin(fs, ':');
  }

  /**
   * Two sessions share a key only when they agree on addresses, protocol and
   * ports, as long as no field holds a ':' (which an IPv6 address or a MAC
   * would).
   */
  lemma {:induction false} KeyInjective(s: Ses, t: Ses)
    requires Plain(s.sip) && Plain(s.dip) && Plain(s.prot) && Plain(s.sport) && Plain(s.dport)
    requires Plain(t.sip) && Plain(t.dip) && Plain(t.prot) && Plain(t.sport) && Plain(t.dport)
    requires Key(s) == Key(t)
    ensures s.sip == t.sip && s.dip == t.dip && s.prot == t.prot && s.sport == t.sport && s.dport == t.dport
  {
    SplitKey(s);
    SplitKey(t);
    var fs, ft := Fields(s), Fields(t);
    assert fs == ft;
    assert fs[0] == ft[0] && fs[1] == ft[1] && fs[2] == ft[2] && fs[3] == ft[3] && fs[4] == ft[4];
    PadInjective(s.sip, t.sip, 16);
    PadInjective(s.dip, t.dip, 16);
    PadInjective(s.prot, t.prot, 5);
    PadInjective(s.sport, t.sport, 5);
    PadInjective(s.dport, t.dport, 5);
  }

  lemma {:induction false} PadInjective(a: string, b: string, w: nat)
    requires Plain(a) && Plain(b) && Pad(a, w) == Pad(b, w)
    ensures a == b
  {
    PadStrip(a, w);
    PadStrip(b, w);
  }
}
