/**
 * dp-ses-udp.py: the long-lived UDP sessions of 'show datapath session
 * dpi' to or from one of the Teams ports, between clients of the APs the
 * AP-name pattern selects; the client addresses, the multicast sessions
 * and the V/I/Q/u flag counters.  The columns are read at fixed
 * positions: TAge at 10, Bytes at 12, Flags at 20.
 */
module DpSesUdp {
  import opened Wrappers
  import Text
  import Results
  import Sessions

  type Row = seq<string>

  /**
   * How the script ends early: no session or user table (`sys.exit`), a
   * row too short (IndexError), a TAge, protocol, port or byte count that
   * is no number (`int()`).
   */
  datatype Failure = NoSessions | NoUsers | MissingCell | BadInt

  /** A kept session, and whether its source port is one of `Ports` (its destination is then a client). */
  datatype Hit = Hit(session: Sessions.Session, client: bool)

  /** `tbl`, `tbl_m` and the counters; `uniq_ip`; `ip2apn`. */
  datatype Report = Report(kept: Sessions.Kept, clients: set<string>, apOf: map<string, string>)

  /** `Proto`: UDP. */
  const Proto := 17

  /** `Ports`: Teams' media ports. */
  const Ports: set<int> := {3479, 3480, 3481}

  const TAgeColumn := 10
  const BytesColumn := 12
  const FlagsColumn := 20

  /** `re.search(APpat, name)` with `APpat = r'SG-WA-F02|SG-WC-F02'`. */
  predicate ApSelected(name: string)
  {
    Text.Contains(name, "SG-WA-F02") || Text.Contains(name, "SG-WC-F02")
  }

  /** The four numbers every row is read for: `tage`, `proto`, `sp`, `dp`. */
  datatype Numbers = Numbers(tage: int, proto: int, sp: int, dp: int)

  /** `int(r[10], 16)`, `int(r[2])`, `int(r[3])`, `int(r[4])`, in that order, before any test. */
  function ReadNumbers(r: Row): (n: Result<Numbers, Failure>)
    ensures n.Ok? ==> (|r| > TAgeColumn
      && Text.ParseHex(r[TAgeColumn]) == Some(n.value.tage) && Text.ParseInt(r[2]) == Some(n.value.proto)
      && Text.ParseInt(r[3]) == Some(n.value.sp) && Text.ParseInt(r[4]) == Some(n.value.dp))
  {
    if |r| <= TAgeColumn then Err(MissingCell)
    else match Text.ParseHex(r[TAgeColumn])
      case None => Err(BadInt)
      case Some(tage) =>
        match Text.ParseInt(r[2])
          case None => Err(BadInt)
          case Some(proto) =>
            match Text.ParseInt(r[3])
              case None => Err(BadInt)
              case Some(sp) =>
                match Text.ParseInt(r[4])
                  case None => Err(BadInt)
                  case Some(dp) => Ok(Numbers(tage, proto, sp, dp))
  }

  /**
   * The filters: TAge above 5, protocol UDP, a Teams port at either end,
   * and the AP of either endpoint selected.
   */
  predicate Wanted(apOf: map<string, string>, r: Row, n: Numbers)
    requires |r| > 1
  {
    && n.tage > Sessions.MaxShortAge && n.proto == Proto && (n.sp in Ports || n.dp in Ports)
    && (ApSelected(Sessions.ApOf(apOf, r[0])) || ApSelected(Sessions.ApOf(apOf, r[1])))
  }

  /** The rest of the body for a wanted row: `int(r[12])`, `r[20]`, and the kept session. */
  function Finish(r: Row, n: Numbers): (h: Result<Option<Hit>, Failure>)
    requires |r| > TAgeColumn
    ensures h.Ok? ==> (h.value.Some? && |r| > FlagsColumn
      && Text.ParseInt(r[BytesColumn]) == Some(h.value.value.session.bytes)
      && h.value.value == Hit(Sessions.Session(r[0], r[1], r[2], r[3], r[4], n.tage, h.value.value.session.bytes, r[FlagsColumn]), n.sp in Ports))
  {
    if |r| <= BytesColumn then Err(MissingCell)
    else match Text.ParseInt(r[BytesColumn])
      case None => Err(BadInt)
      case Some(bytes) =>
        if |r| <= FlagsColumn then Err(MissingCell)
        else Ok(Some(Hit(Sessions.Session(r[0], r[1], r[2], r[3], r[4], n.tage, bytes, r[FlagsColumn]), n.sp in Ports)))
  }

  /** One data row, in the order the loop body reads it. */
  function ReadRow(apOf: map<string, string>, r: Row): Result<Option<Hit>, Failure>
  {
    match ReadNumbers(r)
      case Err(f) => Err(f)
      case Ok(n) => if Wanted(apOf, r, n) then Finish(r, n) else Ok(None)
  }

  /**
   * A row read without error had its four numbers read; it is kept
   * exactly when it passes the filters, and then its destination counts
   * as a client exactly when the source port is a Teams port.
   */
  lemma {:induction false} RowKept(apOf: map<string, string>, r: Row)
    requires ReadRow(apOf, r).Ok?
    ensures ReadNumbers(r).Ok?
    ensures ReadRow(apOf, r).value.Some? <==> Wanted(apOf, r, ReadNumbers(r).value)
    ensures ReadRow(apOf, r).value.Some? ==>
      var h := ReadRow(apOf, r).value.value;
      && h.session.src == r[0] && h.session.dst == r[1]
      && (h.client <==> Text.ParseInt(r[3]).value in Ports)
      && |r| > FlagsColumn && Text.ParseInt(r[BytesColumn]) == Some(h.session.bytes) && h.session.flags == r[FlagsColumn]
  {
  }

  function RowResults(apOf: map<string, string>, rows: seq<Row>): (rs: seq<Result<Option<Hit>, Failure>>)
    ensures |rs| == |rows| && forall i :: 0 <= i < |rows| ==> rs[i] == ReadRow(apOf, rows[i])
  {
    seq(|rows|, i requires 0 <= i < |rows| => ReadRow(apOf, rows[i]))
  }

  function Plain(hs: seq<Hit>): (ss: seq<Sessions.Session>)
    ensures |ss| == |hs| && forall i :: 0 <= i < |hs| ==> ss[i] == hs[i].session
  {
    seq(|hs|, i requires 0 <= i < |hs| => hs[i].session)
  }

  /** `uniq_ip`: the destinations of the hits from a Teams port. */
  function Clients(hs: seq<Hit>): set<string>
  {
    set i | 0 <= i < |hs| && hs[i].client :: hs[i].session.dst
  }

  /** The whole script up to its printing. */
  function UdpSessions(dp: Option<seq<Row>>, users: Option<seq<Row>>): Result<Report, Failure>
  {
    if dp.None? then Err(NoSessions)
    else if users.None? then Err(NoUsers)
    else match Sessions.UserAps(if users.value == [] then [] else users.value[1..])
      case None => Err(MissingCell)
      case Some(apOf) =>
        match Results.Gather(RowResults(apOf, if dp.value == [] then [] else dp.value[1..]))
          case Err(f) => Err(f)
          case Ok(os) =>
            var hs := Sessions.Somes(os);
            Ok(Report(Sessions.Summary(Plain(hs)), Clients(hs), apOf))
  }

  lemma {:induction false} ClientsSnoc(hs: seq<Hit>, h: Hit)
    ensures Clients(hs + [h]) == Clients(hs) + (if h.client then {h.session.dst} else {})
  {
    var ts := hs + [h];
    assert ts[|hs|] == h;
    forall d | d in Clients(ts)
      ensures d in Clients(hs) + (if h.client then {h.session.dst} else {})
    {
      var i :| 0 <= i < |ts| && ts[i].client && ts[i].session.dst == d;
      if i < |hs| {
        assert hs[i].client && hs[i].session.dst == d;
      }
    }
    forall d | d in Clients(hs)
      ensures d in Clients(ts)
    {
      var i :| 0 <= i < |hs| && hs[i].client && hs[i].session.dst == d;
      assert ts[i].client && ts[i].session.dst == d;
    }
  }

  /** One kept hit: `tbl`, `tbl_m` and the counters as for every script, and `uniq_ip.add(r[1])` for a client. */
  method Record(kept: Sessions.Kept, uniqIp: set<string>, ghost hs: seq<Hit>, h: Hit) returns (kept': Sessions.Kept, uniqIp': set<string>)
    requires kept == Sessions.Summary(Plain(hs)) && uniqIp == Clients(hs)
    ensures kept' == Sessions.Summary(Plain(hs + [h])) && uniqIp' == Clients(hs + [h])
  {
    ClientsSnoc(hs, h);
    uniqIp' := uniqIp;
    if h.client {
      uniqIp' := uniqIp + {h.session.dst};
    }
    assert Plain(hs + [h]) == Plain(hs) + [h.session];
    kept' := Sessions.Keep(kept, h.session);
  }

  /** The main loop over the session rows. */
  method Scan(apOf: map<string, string>, rows: seq<Row>) returns (r: Result<(Sessions.Kept, set<string>), Failure>)
    ensures Results.Gather(RowResults(apOf, rows)).Err? ==> r == Err(Results.Gather(RowResults(apOf, rows)).error)
    ensures Results.Gather(RowResults(apOf, rows)).Ok? ==>
      var hs := Sessions.Somes(Results.Gather(RowResults(apOf, rows)).value);
      r == Ok((Sessions.Summary(Plain(hs)), Clients(hs)))
  {
    ghost var rs := RowResults(apOf, rows);
    ghost var os: seq<Option<Hit>> := [];
    ghost var hs: seq<Hit> := [];
    var kept := Sessions.Summary([]);
    var uniqIp: set<string> := {};
    for i := 0 to |rows|
      invariant Results.Gather(rs[..i]) == Ok(os)
      invariant hs == Sessions.Somes(os)
      invariant kept == Sessions.Summary(Plain(hs))
      invariant uniqIp == Clients(hs)
    {
      var o := ReadRow(apOf, rows[i]);
      Results.GatherStep(rs, i, os);
      if o.Err? {
        Results.GatherStop(rs, i + 1);
        return Err(o.error);
      }
      Sessions.SomesSnoc(os, o.value);
      if o.value.Some? {
        var h := o.value.value;
        kept, uniqIp := Record(kept, uniqIp, hs, h);
        hs := hs + [h];
      }
      os := os + [o.value];
    }
    assert rs[..|rows|] == rs;
    return Ok((kept, uniqIp));
  }

  /** The script after parsing, up to its printing. */
  method Run(dp: Option<seq<Row>>, users: Option<seq<Row>>) returns (r: Result<Report, Failure>)
    ensures r == UdpSessions(dp, users)
  {
    if dp.None? {
      return Err(NoSessions);
    }
    if users.None? {
      return Err(NoUsers);
    }
    var apOf := Sessions.BuildUserAps(if users.value == [] then [] else users.value[1..]);
    if apOf.None? {
      return Err(MissingCell);
    }
    var scanned := Scan(apOf.value, if dp.value == [] then [] else dp.value[1..]);
    if scanned.Err? {
      return Err(scanned.error);
    }
    return Ok(Report(scanned.value.0, scanned.value.1, apOf.value));
  }

  /** The kept row `rows[i]` yields `x`. */
  predicate Yields(apOf: map<string, string>, rows: seq<Row>, i: int, x: Hit)
    requires 0 <= i < |rows|
  {
    ReadRow(apOf, rows[i]) == Ok(Some(x))
  }

  /** On success, the AP map and the hits of the scan. */
  lemma {:induction false} UdpOk(dp: Option<seq<Row>>, users: Option<seq<Row>>)
    requires UdpSessions(dp, users).Ok?
    ensures dp.Some? && users.Some? && Sessions.UserAps(if users.value == [] then [] else users.value[1..]).Some?
    ensures var apOf := Sessions.UserAps(if users.value == [] then [] else users.value[1..]).value; var rows := if dp.value == [] then [] else dp.value[1..];
      && Results.Gather(RowResults(apOf, rows)).Ok?
      && UdpSessions(dp, users).value == Report(Sessions.Summary(Plain(Sessions.Somes(Results.Gather(RowResults(apOf, rows)).value))), Clients(Sessions.Somes(Results.Gather(RowResults(apOf, rows)).value)), apOf)
  {
  }

  /** When every row is read without error, a session is kept exactly when `RowKept` keeps its row. */
  lemma {:induction false} HitSessions(apOf: map<string, string>, rows: seq<Row>, s: Sessions.Session)
    requires Results.Gather(RowResults(apOf, rows)).Ok?
    ensures forall i :: 0 <= i < |rows| ==> ReadRow(apOf, rows[i]).Ok?
    ensures s in Plain(Sessions.Somes(Results.Gather(RowResults(apOf, rows)).value)) <==> exists i, c :: 0 <= i < |rows| && Yields(apOf, rows, i, Hit(s, c))
  {
    Results.GatherFirst(RowResults(apOf, rows));
    KeptFromRow(apOf, rows, s);
    RowToKept(apOf, rows, s);
  }

  /** A hit is kept exactly when some row yields it. */
  lemma {:induction false} HitOf(apOf: map<string, string>, rows: seq<Row>, h: Hit)
    requires Results.Gather(RowResults(apOf, rows)).Ok?
    ensures h in Sessions.Somes(Results.Gather(RowResults(apOf, rows)).value) <==> exists i :: 0 <= i < |rows| && Yields(apOf, rows, i, h)
  {
    var rs := RowResults(apOf, rows);
    Sessions.GatherSomes(rs, h);
    if exists i :: 0 <= i < |rs| && rs[i] == Ok(Some(h)) {
      var i :| 0 <= i < |rs| && rs[i] == Ok(Some(h));
      assert Yields(apOf, rows, i, h);
    }
    if exists i :: 0 <= i < |rows| && Yields(apOf, rows, i, h) {
      var i :| 0 <= i < |rows| && Yields(apOf, rows, i, h);
      assert rs[i] == Ok(Some(h));
    }
  }

  lemma {:induction false} KeptFromRow(apOf: map<string, string>, rows: seq<Row>, s: Sessions.Session)
    requires Results.Gather(RowResults(apOf, rows)).Ok?
    ensures s in Plain(Sessions.Somes(Results.Gather(RowResults(apOf, rows)).value)) ==> exists i, c :: 0 <= i < |rows| && Yields(apOf, rows, i, Hit(s, c))
  {
    var hs := Sessions.Somes(Results.Gather(RowResults(apOf, rows)).value);
    if s in Plain(hs) {
      var k :| 0 <= k < |hs| && Plain(hs)[k] == s;
      HitOf(apOf, rows, hs[k]);
      var i :| 0 <= i < |rows| && Yields(apOf, rows, i, hs[k]);
      assert Yields(apOf, rows, i, Hit(s, hs[k].client));
    }
  }

  lemma {:induction false} RowToKept(apOf: map<string, string>, rows: seq<Row>, s: Sessions.Session)
    requires Results.Gather(RowResults(apOf, rows)).Ok?
    ensures (exists i, c :: 0 <= i < |rows| && Yields(apOf, rows, i, Hit(s, c))) ==> s in Plain(Sessions.Somes(Results.Gather(RowResults(apOf, rows)).value))
  {
    if exists i, c :: 0 <= i < |rows| && Yields(apOf, rows, i, Hit(s, c)) {
      var i, c :| 0 <= i < |rows| && Yields(apOf, rows, i, Hit(s, c));
      HitOf(apOf, rows, Hit(s, c));
      InPlain(Sessions.Somes(Results.Gather(RowResults(apOf, rows)).value), Hit(s, c));
    }
  }

  lemma {:induction false} InPlain(hs: seq<Hit>, h: Hit)
    requires h in hs
    ensures h.session in Plain(hs)
  {
    var k :| 0 <= k < |hs| && hs[k] == h;
    assert Plain(hs)[k] == h.session;
  }

  /** When every row is read without error, an address is a client exactly when some kept row from a Teams port goes to it. */
  lemma {:induction false} HitClients(apOf: map<string, string>, rows: seq<Row>, d: string)
    requires Results.Gather(RowResults(apOf, rows)).Ok?
    ensures d in Clients(Sessions.Somes(Results.Gather(RowResults(apOf, rows)).value)) <==> exists i, x :: 0 <= i < |rows| && Yields(apOf, rows, i, Hit(x, true)) && x.dst == d
  {
    ClientFromRow(apOf, rows, d);
    RowToClient(apOf, rows, d);
  }

  /** A client address comes from a hit from a Teams port to it. */
  lemma {:induction false} ClientHit(hs: seq<Hit>, d: string) returns (h: Hit)
    requires d in Clients(hs)
    ensures h in hs && h.client && h.session.dst == d
  {
    var k :| 0 <= k < |hs| && hs[k].client && hs[k].session.dst == d;
    h := hs[k];
  }

  lemma {:induction false} ClientFromRow(apOf: map<string, string>, rows: seq<Row>, d: string)
    requires Results.Gather(RowResults(apOf, rows)).Ok?
    ensures d in Clients(Sessions.Somes(Results.Gather(RowResults(apOf, rows)).value)) ==> exists i, x :: 0 <= i < |rows| && Yields(apOf, rows, i, Hit(x, true)) && x.dst == d
  {
    var hs := Sessions.Somes(Results.Gather(RowResults(apOf, rows)).value);
    if d in Clients(hs) {
      var h := ClientHit(hs, d);
      HitOf(apOf, rows, h);
      var i :| 0 <= i < |rows| && Yields(apOf, rows, i, h);
      assert Yields(apOf, rows, i, Hit(h.session, true)) && h.session.dst == d;
    }
  }

  lemma {:induction false} RowToClient(apOf: map<string, string>, rows: seq<Row>, d: string)
    requires Results.Gather(RowResults(apOf, rows)).Ok?
    ensures (exists i, x :: 0 <= i < |rows| && Yields(apOf, rows, i, Hit(x, true)) && x.dst == d) ==> d in Clients(Sessions.Somes(Results.Gather(RowResults(apOf, rows)).value))
  {
    var hs := Sessions.Somes(Results.Gather(RowResults(apOf, rows)).value);
    if exists i, x :: 0 <= i < |rows| && Yields(apOf, rows, i, Hit(x, true)) && x.dst == d {
      var i, x :| 0 <= i < |rows| && Yields(apOf, rows, i, Hit(x, true)) && x.dst == d;
      HitOf(apOf, rows, Hit(x, true));
      var k :| 0 <= k < |hs| && hs[k] == Hit(x, true);
    }
  }

  /**
   * On success every data row is read without error; a session is kept
   * exactly when `RowKept` keeps its row, and an address is a client
   * exactly when some kept row from a Teams port goes to it.
   */
  lemma {:induction false} KeptRows(dp: Option<seq<Row>>, users: Option<seq<Row>>, s: Sessions.Session, d: string)
    requires UdpSessions(dp, users).Ok?
    ensures var apOf := UdpSessions(dp, users).value.apOf; var rows := if dp.value == [] then [] else dp.value[1..];
      && (forall i :: 0 <= i < |rows| ==> ReadRow(apOf, rows[i]).Ok?)
      && (s in UdpSessions(dp, users).value.kept.sessions <==> exists i, c :: 0 <= i < |rows| && Yields(apOf, rows, i, Hit(s, c)))
      && (d in UdpSessions(dp, users).value.clients <==> exists i, x :: 0 <= i < |rows| && Yields(apOf, rows, i, Hit(x, true)) && x.dst == d)
  {
    UdpOk(dp, users);
    var apOf := UdpSessions(dp, users).value.apOf;
    var rows := if dp.value == [] then [] else dp.value[1..];
    HitSessions(apOf, rows, s);
    HitClients(apOf, rows, d);
  }
}
