/**
 * dp-ses-zoom.py: the long-lived, non-GRE sessions of 'show datapath
 * session dpi' whose source port is one of Zoom's (8801..8810), the set
 * of their destination addresses and the multicast ones.  The columns
 * are read at fixed positions: TAge at 10, Bytes at 12, Flags at 20.
 */
module DpSesZoom {
  import opened Wrappers
  import Text
  import Counting
  import Results
  import Sessions

  type Row = seq<string>

  /**
   * How the script ends early: no session table (`sys.exit`), a row too
   * short (IndexError), a TAge, source port or byte count that is no
   * number (`int()`).
   */
  datatype Failure = NoSessions | MissingCell | BadInt

  /** `tbl`, `tbl_m` and `dip`. */
  datatype Report = Report(sessions: seq<Sessions.Session>, multicast: seq<Sessions.Session>, dip: set<string>)

  const TAgeColumn := 10
  const BytesColumn := 12
  const FlagsColumn := 20

  /** Zoom's source ports. */
  const FirstZoomPort := 8801
  const LastZoomPort := 8810

  /** One data row, in the order the loop body reads it. */
  function ReadRow(r: Row): Result<Option<Sessions.Session>, Failure>
  {
    if |r| <= TAgeColumn then Err(MissingCell)
    else match Text.ParseHex(r[TAgeColumn])
      case None => Err(BadInt)
      case Some(tage) =>
        if tage <= Sessions.MaxShortAge then Ok(None)
        else if r[2] == "47" then Ok(None)
        else match Text.ParseInt(r[3])
          case None => Err(BadInt)
          case Some(sp) =>
            if !(FirstZoomPort <= sp <= LastZoomPort) then Ok(None)
            else if |r| <= BytesColumn then Err(MissingCell)
            else match Text.ParseInt(r[BytesColumn])
              case None => Err(BadInt)
              case Some(bytes) =>
                if |r| <= FlagsColumn then Err(MissingCell)
                else Ok(Some(Sessions.Session(r[0], r[1], r[2], r[3], r[4], tage, bytes, r[FlagsColumn])))
  }

  /**
   * A row read without error is kept exactly when its TAge is above 5,
   * its protocol is not GRE and its source port is one of Zoom's; the
   * kept session carries the row's own values.
   */
  lemma {:induction false} RowKept(r: Row)
    requires ReadRow(r).Ok?
    ensures |r| > TAgeColumn && Text.ParseHex(r[TAgeColumn]).Some?
    ensures ReadRow(r).value.Some? <==>
      && Text.ParseHex(r[TAgeColumn]).value > 5 && r[2] != "47"
      && Text.ParseInt(r[3]).Some? && FirstZoomPort <= Text.ParseInt(r[3]).value <= LastZoomPort
    ensures ReadRow(r).value.Some? ==>
      var s := ReadRow(r).value.value;
      && s.src == r[0] && s.dst == r[1] && s.sport == r[3]
      && |r| > FlagsColumn && Text.ParseInt(r[BytesColumn]) == Some(s.bytes) && s.flags == r[FlagsColumn]
  {
  }

  function RowResults(rows: seq<Row>): (rs: seq<Result<Option<Sessions.Session>, Failure>>)
    ensures |rs| == |rows| && forall i :: 0 <= i < |rows| ==> rs[i] == ReadRow(rows[i])
  {
    seq(|rows|, i requires 0 <= i < |rows| => ReadRow(rows[i]))
  }

  /** The destination addresses of the sessions. */
  function Dsts(ss: seq<Sessions.Session>): set<string>
  {
    set i | 0 <= i < |ss| :: ss[i].dst
  }

  /** The report of the kept sessions `ss`. */
  function Summary(ss: seq<Sessions.Session>): Report
  {
    Report(ss, Counting.Filter(ss, Sessions.McDst), Dsts(ss))
  }

  /** The whole script up to its printing. */
  function Zoom(dp: Option<seq<Row>>): Result<Report, Failure>
  {
    if dp.None? then Err(NoSessions)
    else
      match Results.Gather(RowResults(if dp.value == [] then [] else dp.value[1..]))
        case Err(f) => Err(f)
        case Ok(os) => Ok(Summary(Sessions.Somes(os)))
  }

  lemma {:induction false} DstsSnoc(ss: seq<Sessions.Session>, s: Sessions.Session)
    ensures Dsts(ss + [s]) == Dsts(ss) + {s.dst}
  {
    var ts := ss + [s];
    assert ts[|ss|].dst == s.dst;
    forall d | d in Dsts(ts)
      ensures d in Dsts(ss) + {s.dst}
    {
      var i :| 0 <= i < |ts| && ts[i].dst == d;
      if i < |ss| {
        assert ss[i].dst == d;
      }
    }
    forall d | d in Dsts(ss)
      ensures d in Dsts(ts)
    {
      var i :| 0 <= i < |ss| && ss[i].dst == d;
      assert ts[i].dst == d;
    }
  }

  /** The main loop over the session rows. */
  method Scan(rows: seq<Row>) returns (r: Result<Report, Failure>)
    ensures Results.Gather(RowResults(rows)).Err? ==> r == Err(Results.Gather(RowResults(rows)).error)
    ensures Results.Gather(RowResults(rows)).Ok? ==> r == Ok(Summary(Sessions.Somes(Results.Gather(RowResults(rows)).value)))
  {
    ghost var rs := RowResults(rows);
    ghost var os: seq<Option<Sessions.Session>> := [];
    var tbl: seq<Sessions.Session> := [];
    var tblM: seq<Sessions.Session> := [];
    var dip: set<string> := {};
    for i := 0 to |rows|
      invariant Results.Gather(rs[..i]) == Ok(os)
      invariant tbl == Sessions.Somes(os)
      invariant Report(tbl, tblM, dip) == Summary(tbl)
    {
      var o := ReadRow(rows[i]);
      Results.GatherStep(rs, i, os);
      if o.Err? {
        Results.GatherStop(rs, i + 1);
        return Err(o.error);
      }
      Sessions.SomesSnoc(os, o.value);
      if o.value.Some? {
        var s := o.value.value;
        DstsSnoc(tbl, s);
        assert (tbl + [s])[..|tbl|] == tbl;
        dip := dip + {s.dst};
        if Sessions.Multicast(s.dst) {
          tblM := tblM + [s];
        }
        tbl := tbl + [s];
      }
      os := os + [o.value];
    }
    assert rs[..|rows|] == rs;
    return Ok(Report(tbl, tblM, dip));
  }

  /** The script after parsing, up to its printing. */
  method Run(dp: Option<seq<Row>>) returns (r: Result<Report, Failure>)
    ensures r == Zoom(dp)
  {
    if dp.None? {
      return Err(NoSessions);
    }
    r := Scan(if dp.value == [] then [] else dp.value[1..]);
  }

  /**
   * `dip` holds exactly the destinations of the kept sessions, `tbl_m`
   * exactly the kept sessions to a multicast address, and there are no
   * more receivers than sessions.
   */
  lemma {:induction false} ReportMeaning(dp: Option<seq<Row>>, s: Sessions.Session, d: string)
    requires Zoom(dp).Ok?
    ensures var rep := Zoom(dp).value;
      && (d in rep.dip <==> exists i :: 0 <= i < |rep.sessions| && rep.sessions[i].dst == d)
      && (s in rep.multicast <==> s in rep.sessions && Sessions.Multicast(s.dst))
      && |rep.dip| <= |rep.sessions|
  {
    var ss := Zoom(dp).value.sessions;
    Counting.FilterMembers(ss, Sessions.McDst, s);
    DstsSize(ss);
  }

  lemma {:induction false} DstsSize(ss: seq<Sessions.Session>)
    ensures |Dsts(ss)| <= |ss|
    decreases |ss|
  {
    if ss != [] {
      var pre := ss[..|ss| - 1];
      DstsSize(pre);
      DstsSnoc(pre, ss[|ss| - 1]);
      assert pre + [ss[|ss| - 1]] == ss;
    }
  }

  /**
   * On success every data row is read without error, and the kept
   * sessions are exactly those of the rows `RowKept` keeps.
   */
  lemma {:induction false} KeptRows(dp: Option<seq<Row>>, s: Sessions.Session)
    requires Zoom(dp).Ok?
    ensures var rows := if dp.value == [] then [] else dp.value[1..];
      && (forall i :: 0 <= i < |rows| ==> ReadRow(rows[i]).Ok?)
      && (s in Zoom(dp).value.sessions <==> exists i :: 0 <= i < |rows| && ReadRow(rows[i]) == Ok(Some(s)))
  {
    Sessions.GatherSomes(RowResults(if dp.value == [] then [] else dp.value[1..]), s);
  }
}
