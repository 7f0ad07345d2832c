/**
 * dp-ses-toprate.py: the long-lived, non-GRE sessions of 'show datapath
 * session dpi' (or 'internal'), with their ToS and a shortened AppID, the
 * multicast ones, and how many carry each of the V/I/Q/u flags.
 */
module DpSesTopRate {
  import opened Wrappers
  import Text
  import Results
  import Sessions

  type Row = seq<string>

  /**
   * How the script ends early: neither session table, or no user table
   * (`sys.exit`); an empty session table or a short row (IndexError); a
   * header without one of the columns (`list.index`); a TAge that is no
   * hex number or a byte count that is no integer (`int()`).
   */
  datatype Failure = NoSessions | NoUsers | EmptyTable | MissingColumn(name: string) | MissingCell | BadInt

  /** The positions of the columns read by name, from the table's own header. */
  datatype Columns = Columns(tos: nat, tage: nat, bytes: nat, flags: nat, appid: nat)

  /** One row of `tbl`, less the floating-point bitrate. */
  datatype TopRate = TopRate(session: Sessions.Session, tos: string, appid: string)

  /** `tbl`, `tbl_m`, the flag counters, and `ip2apn`. */
  datatype Report = Report(rates: seq<TopRate>, kept: Sessions.Kept, apOf: map<string, string>)

  /** The number of AppID characters kept. */
  const AppIdWidth := 16

  /** The GRE protocol number, as the text of the protocol column. */
  const Gre := "47"

  /** `r[idx_appid][:16].rstrip()`. */
  function AppId(s: string): string
  {
    Text.RStrip(s[..if |s| < AppIdWidth then |s| else AppIdWidth])
  }

  /**
   * The AppID shown is a prefix of the original of at most 16 characters,
   * not ending in whitespace, and only whitespace is dropped from the
   * first 16 characters.
   */
  lemma {:induction false} AppIdMeaning(s: string)
    ensures var a := AppId(s);
      && |a| <= AppIdWidth && a == s[..|a|]
      && (a == [] || !Text.IsSpace(a[|a| - 1]))
      && forall i :: |a| <= i < |s| && i < AppIdWidth ==> Text.IsSpace(s[i])
  {
    var w := s[..if |s| < AppIdWidth then |s| else AppIdWidth];
    forall i | |AppId(s)| <= i < |s| && i < AppIdWidth
      ensures Text.IsSpace(s[i])
    {
      Text.RStripRemovesSpace(w, i);
    }
  }

  function Column(header: seq<string>, name: string): (r: Result<nat, Failure>)
    ensures r.Ok? ==> r.value < |header| && header[r.value] == name
    ensures r.Err? ==> r.error == MissingColumn(name) && name !in header
  {
    match Text.IndexOf(header, name)
      case None => Err(MissingColumn(name))
      case Some(k) => Ok(k)
  }

  /** `dp_ses[0].index(...)` for the five columns, in the script's order. */
  function Resolve(header: seq<string>): Result<Columns, Failure>
  {
    match Column(header, "ToS")
      case Err(f) => Err(f)
      case Ok(tos) =>
        match Column(header, "TAge")
          case Err(f) => Err(f)
          case Ok(tage) =>
            match Column(header, "Bytes")
              case Err(f) => Err(f)
              case Ok(bytes) =>
                match Column(header, "Flags")
                  case Err(f) => Err(f)
                  case Ok(flags) =>
                    match Column(header, "AppID")
                      case Err(f) => Err(f)
                      case Ok(appid) => Ok(Columns(tos, tage, bytes, flags, appid))
  }

  /**
   * One data row, in the order the loop body reads it: the kept row,
   * None when skipped, or the error that ends the script.
   */
  function ReadRow(c: Columns, r: Row): Result<Option<TopRate>, Failure>
  {
    if c.tage >= |r| then Err(MissingCell)
    else match Text.ParseHex(r[c.tage])
      case None => Err(BadInt)
      case Some(tage) =>
        if tage <= Sessions.MaxShortAge then Ok(None)
        else if |r| <= 2 then Err(MissingCell)
        else if r[2] == Gre then Ok(None)
        else if c.bytes >= |r| then Err(MissingCell)
        else match Text.ParseInt(r[c.bytes])
          case None => Err(BadInt)
          case Some(bytes) =>
            if c.flags >= |r| || |r| <= 4 || c.tos >= |r| || c.appid >= |r| then Err(MissingCell)
            else
              var s := Sessions.Session(r[0], r[1], r[2], r[3], r[4], tage, bytes, r[c.flags]);
              Ok(Some(TopRate(s, r[c.tos], AppId(r[c.appid]))))
  }

  /**
   * A row that is read without error is kept exactly when its TAge is
   * above 5 and its protocol is not GRE, and the kept session carries the
   * row's own values.
   */
  lemma {:induction false} RowKept(c: Columns, r: Row)
    requires ReadRow(c, r).Ok?
    ensures c.tage < |r| && Text.ParseHex(r[c.tage]).Some?
    ensures ReadRow(c, r).value.Some? <==> Text.ParseHex(r[c.tage]).value > 5 && |r| > 2 && r[2] != Gre
    ensures ReadRow(c, r).value.Some? ==>
      var t := ReadRow(c, r).value.value;
      && t.session.tage == Text.ParseHex(r[c.tage]).value
      && c.bytes < |r| && Text.ParseInt(r[c.bytes]) == Some(t.session.bytes)
      && |r| > 4 && t.session.src == r[0] && t.session.dst == r[1] && t.session.proto == r[2]
      && c.flags < |r| && t.session.flags == r[c.flags]
      && c.appid < |r| && t.appid == AppId(r[c.appid])
  {
    assert c.tage < |r| && Text.ParseHex(r[c.tage]).Some?;
    var tage := Text.ParseHex(r[c.tage]).value;
    if tage > Sessions.MaxShortAge && |r| > 2 && r[2] != Gre {
      assert c.bytes < |r| && Text.ParseInt(r[c.bytes]).Some?;
      var bytes := Text.ParseInt(r[c.bytes]).value;
      assert c.flags < |r| && |r| > 4 && c.tos < |r| && c.appid < |r|;
      assert ReadRow(c, r).value == Some(TopRate(Sessions.Session(r[0], r[1], r[2], r[3], r[4], tage, bytes, r[c.flags]), r[c.tos], AppId(r[c.appid])));
    } else {
      assert ReadRow(c, r).value.None?;
    }
  }

  function RowResults(c: Columns, rows: seq<Row>): (rs: seq<Result<Option<TopRate>, Failure>>)
    ensures |rs| == |rows| && forall i :: 0 <= i < |rows| ==> rs[i] == ReadRow(c, rows[i])
  {
    seq(|rows|, i requires 0 <= i < |rows| => ReadRow(c, rows[i]))
  }

  /** The sessions of the kept rows. */
  function Plain(ts: seq<TopRate>): (ss: seq<Sessions.Session>)
    ensures |ss| == |ts| && forall i :: 0 <= i < |ts| ==> ss[i] == ts[i].session
  {
    seq(|ts|, i requires 0 <= i < |ts| => ts[i].session)
  }

  /** The session table the script reads: 'dpi', else 'internal'. */
  function SessionTable(dpi: Option<seq<Row>>, internal: Option<seq<Row>>): Option<seq<Row>>
  {
    if dpi.Some? then dpi else internal
  }

  /** The whole script up to its printing. */
  function TopRates(dpi: Option<seq<Row>>, internal: Option<seq<Row>>, users: Option<seq<Row>>): Result<Report, Failure>
  {
    match SessionTable(dpi, internal)
      case None => Err(NoSessions)
      case Some(dp) =>
        if users.None? then Err(NoUsers)
        else match Sessions.UserAps(if users.value == [] then [] else users.value[1..])
          case None => Err(MissingCell)
          case Some(apOf) =>
            if dp == [] then Err(EmptyTable)
            else match Resolve(dp[0])
              case Err(f) => Err(f)
              case Ok(c) =>
                match Results.Gather(RowResults(c, dp[1..]))
                  case Err(f) => Err(f)
                  case Ok(os) =>
                    var rates := Sessions.Somes(os);
                    Ok(Report(rates, Sessions.Summary(Plain(rates)), apOf))
  }

  /** The main loop over the session rows. */
  /** One kept row: appended to `tbl` and counted as for every script. */
  method Record(kept: Sessions.Kept, tbl: seq<TopRate>, t: TopRate) returns (kept': Sessions.Kept, tbl': seq<TopRate>)
    requires kept == Sessions.Summary(Plain(tbl))
    ensures tbl' == tbl + [t] && kept' == Sessions.Summary(Plain(tbl'))
  {
    assert Plain(tbl + [t]) == Plain(tbl) + [t.session];
    kept' := Sessions.Keep(kept, t.session);
    tbl' := tbl + [t];
  }

  method Scan(c: Columns, rows: seq<Row>) returns (r: Result<(seq<TopRate>, Sessions.Kept), Failure>)
    ensures Results.Gather(RowResults(c, rows)).Err? ==> r == Err(Results.Gather(RowResults(c, rows)).error)
    ensures Results.Gather(RowResults(c, rows)).Ok? ==>
      var ts := Sessions.Somes(Results.Gather(RowResults(c, rows)).value);
      r == Ok((ts, Sessions.Summary(Plain(ts))))
  {
    ghost var rs := RowResults(c, rows);
    ghost var os: seq<Option<TopRate>> := [];
    var tbl: seq<TopRate> := [];
    var kept := Sessions.Summary([]);
    for i := 0 to |rows|
      invariant Results.Gather(rs[..i]) == Ok(os)
      invariant tbl == Sessions.Somes(os)
      invariant kept == Sessions.Summary(Plain(tbl))
    {
      var o := ReadRow(c, rows[i]);
      Results.GatherStep(rs, i, os);
      if o.Err? {
        Results.GatherStop(rs, i + 1);
        return Err(o.error);
      }
      Sessions.SomesSnoc(os, o.value);
      if o.value.Some? {
        kept, tbl := Record(kept, tbl, o.value.value);
      }
      os := os + [o.value];
    }
    assert rs[..|rows|] == rs;
    return Ok((tbl, kept));
  }

  /** The script after parsing, up to its printing. */
  method Run(dpi: Option<seq<Row>>, internal: Option<seq<Row>>, users: Option<seq<Row>>) returns (r: Result<Report, Failure>)
    ensures r == TopRates(dpi, internal, users)
  {
    var dp := SessionTable(dpi, internal);
    if dp.None? {
      return Err(NoSessions);
    }
    if users.None? {
      return Err(NoUsers);
    }
    var apOf := Sessions.BuildUserAps(if users.value == [] then [] else users.value[1..]);
    if apOf.None? {
      return Err(MissingCell);
    }
    if dp.value == [] {
      return Err(EmptyTable);
    }
    var c := Resolve(dp.value[0]);
    if c.Err? {
      return Err(c.error);
    }
    var scanned := Scan(c.value, dp.value[1..]);
    if scanned.Err? {
      return Err(scanned.error);
    }
    return Ok(Report(scanned.value.0, scanned.value.1, apOf.value));
  }

  /** On success, the table, its columns, and the rows kept. */
  lemma {:induction false} TopRatesOk(dpi: Option<seq<Row>>, internal: Option<seq<Row>>, users: Option<seq<Row>>)
    requires TopRates(dpi, internal, users).Ok?
    ensures SessionTable(dpi, internal).Some? && SessionTable(dpi, internal).value != []
    ensures var dp := SessionTable(dpi, internal).value;
      && Resolve(dp[0]).Ok?
      && Results.Gather(RowResults(Resolve(dp[0]).value, dp[1..])).Ok?
      && TopRates(dpi, internal, users).value.rates == Sessions.Somes(Results.Gather(RowResults(Resolve(dp[0]).value, dp[1..])).value)
  {
  }

  /**
   * On success every data row is read without error, and the kept
   * sessions are exactly those of the rows `RowKept` keeps.
   */
  lemma {:induction false} ReportMeaning(dpi: Option<seq<Row>>, internal: Option<seq<Row>>, users: Option<seq<Row>>, t: TopRate)
    requires TopRates(dpi, internal, users).Ok?
    ensures SessionTable(dpi, internal).Some? && SessionTable(dpi, internal).value != []
    ensures var dp := SessionTable(dpi, internal).value; var c := Resolve(dp[0]);
      && c.Ok?
      && (forall i :: 0 <= i < |dp[1..]| ==> ReadRow(c.value, dp[1..][i]).Ok?)
      && (t in TopRates(dpi, internal, users).value.rates <==> exists i :: 0 <= i < |dp[1..]| && ReadRow(c.value, dp[1..][i]) == Ok(Some(t)))
  {
    TopRatesOk(dpi, internal, users);
    var dp := SessionTable(dpi, internal).value;
    var c := Resolve(dp[0]).value;
    Sessions.GatherSomes(RowResults(c, dp[1..]), t);
  }
}
