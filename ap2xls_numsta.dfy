/**
 * ap2xls_numsta.py: the AP database and the active-AP table, each
 * de-duplicated by AP name; the number of APs of each model; for every
 * active AP its two radios' PHY, channel, EIRP and client count read from
 * the 'Radio 0/1 Band Ch/EIRP/MaxEIRP/Clients' cells; the number of APs
 * and of clients on each 5 GHz channel; and the clients of both radios per
 * floor, the floor being read from the AP group.  The AP-name pattern is
 * commented out in the script, so no row is filtered by name.
 */
module Ap2XlsNumSta {
  import opened Wrappers
  import Text
  import Uniq
  import Tally
  import Ap2Xls
  import Sessions
  import KeepMax
  import Counting

  type Row = seq<string>

  /**
   * How the script ends early: no AP database or active-AP table
   * (`sys.exit`), a table, row or cell that is not there (IndexError), a
   * radio column missing from the active-AP header (`list.index`).
   */
  datatype Failure = NoDatabase | NoActive | MissingCell | MissingColumn(name: string)

  /** The groups of a radio cell: PHY, channel, EIRP and clients. */
  datatype Radio = Radio(phy: string, ch: string, eirp: string, sta: string)

  /** `ap_act_tbl`, `r0chctr`, `r0chsta` and `usersperfloor`. */
  datatype Stats = Stats(act: seq<Row>, chCount: map<string, nat>, chSta: map<string, nat>, floorUsers: map<string, nat>)

  /** `ap_db_tbl` and `apmodelctr`, then the statistics of the active APs. */
  datatype Report = Report(aps: seq<Row>, models: map<string, nat>, stats: Stats)

  const Radio0Column := "Radio 0 Band Ch/EIRP/MaxEIRP/Clients"
  const Radio1Column := "Radio 1 Band Ch/EIRP/MaxEIRP/Clients"

  /** The header of `ap_act_tbl`. */
  const ActHeader: Row := ["Name", "5G PHY", "5G Ch", "5G EIRP", "5G STA", "2.4G PHY", "2.4G Ch", "2.4G EIRP", "2.4G STA"]

  /** The floor of an AP whose group does not name one. */
  const NoFloor := "n/a"

  /** `[\dSE+\-]+`: a channel label. */
  predicate ChannelText(s: string)
  {
    s != [] && forall k :: 0 <= k < |s| ==> Text.IsDigit(s[k]) || s[k] in "SE+-"
  }

  /** `[\d\.]+`, and `[\d\.-]+` when `dash`: an EIRP value. */
  predicate DecimalText(s: string, dash: bool)
  {
    s != [] && forall k :: 0 <= k < |s| ==> Text.IsDigit(s[k]) || s[k] == '.' || (dash && s[k] == '-')
  }

  /** `\d+`: a client count. */
  predicate NumberText(s: string)
  {
    s != [] && Text.AllDigits(s)
  }

  /** The position of the last ':' of `s`. */
  function LastColon(s: string): (r: Option<nat>)
    ensures r.Some? ==> r.value < |s| && s[r.value] == ':' && ':' !in s[r.value + 1..]
    ensures r.None? ==> ':' !in s
  {
    if s == [] then None
    else if s[|s| - 1] == ':' then Some(|s| - 1)
    else
      var r := LastColon(s[..|s| - 1]);
      assert s == s[..|s| - 1] + [s[|s| - 1]];
      r
  }

  /**
   * `re.match(r"(.+):([\dSE+\-]+)/([\d\.]+)/[\d\.]+/(\d+)$", s)` (with
   * `[\d\.-]` for radio 1, `dash`).  No class after the ':' holds ':', so
   * the ':' that `.+` stops at is the last one; no class holds '/', so the
   * rest splits into exactly four parts at its '/'s.
   */
  function ParseRadio(s: string, dash: bool): (r: Option<Radio>)
    ensures r.Some? ==> r.value.phy != [] && ChannelText(r.value.ch) && DecimalText(r.value.eirp, dash) && NumberText(r.value.sta)
  {
    match LastColon(s)
      case None => None
      case Some(c) =>
        var parts := Text.Split(s[c + 1..], '/');
        if c > 0 && |parts| == 4 && ChannelText(parts[0]) && DecimalText(parts[1], dash)
          && DecimalText(parts[2], dash) && NumberText(parts[3])
        then Some(Radio(s[..c], parts[0], parts[1], parts[3]))
        else None
  }

  /** The text a radio cell is made of. */
  function RadioText(phy: string, ch: string, eirp: string, max: string, sta: string): string
  {
    phy + ":" + Text.Join([ch, eirp, max, sta], '/')
  }

  /** Every cell of the pattern's form is read back as its groups. */
  lemma {:induction false} ParseRadioText(phy: string, ch: string, eirp: string, max: string, sta: string, dash: bool)
    requires phy != [] && ChannelText(ch) && DecimalText(eirp, dash) && DecimalText(max, dash) && NumberText(sta)
    ensures ParseRadio(RadioText(phy, ch, eirp, max, sta), dash) == Some(Radio(phy, ch, eirp, sta))
  {
    var parts := [ch, eirp, max, sta];
    var rest := Text.Join(parts, '/');
    var s := RadioText(phy, ch, eirp, max, sta);
    forall k | 0 <= k < |parts|
      ensures '/' !in parts[k] && ':' !in parts[k]
    {
    }
    Text.SplitJoin(parts, '/');
    Text.JoinAvoids(parts, '/', ':');
    assert s[|phy|] == ':';
    assert s[|phy| + 1..] == rest;
    var c := LastColon(s).value;
    assert s[..|phy|] == phy;
  }

  /** Every cell read has the pattern's form. */
  lemma {:induction false} ParseRadioShape(s: string, dash: bool)
    requires ParseRadio(s, dash).Some?
    ensures var r := ParseRadio(s, dash).value;
      exists max :: DecimalText(max, dash) && s == RadioText(r.phy, r.ch, r.eirp, max, r.sta)
        && r.phy != [] && ChannelText(r.ch) && DecimalText(r.eirp, dash) && NumberText(r.sta)
  {
    var c := LastColon(s).value;
    var parts := Text.Split(s[c + 1..], '/');
    Text.JoinSplit(s[c + 1..], '/');
    assert parts == [parts[0], parts[1], parts[2], parts[3]];
    assert s == s[..c] + ":" + s[c + 1..];
    assert s == RadioText(s[..c], parts[0], parts[1], parts[2], parts[3]);
  }

  /** The four cells a radio contributes to `ap_act_tbl`: its groups, or empty cells and '0' clients. */
  function RadioCells(r: Option<Radio>): (cells: seq<string>)
    ensures |cells| == 4
  {
    match r
      case Some(x) => [x.phy, x.ch, x.eirp, x.sta]
      case None => ["", "", "", "0"]
  }

  /** `int(r_sta)`: a count read, else 0. */
  function Clients(r: Option<Radio>): nat
    requires r.Some? ==> NumberText(r.value.sta)
  {
    match r
      case Some(x) => Text.DigitsValue(x.sta, 10)
      case None => 0
  }

  /** `re.match(r'GTS(\d\d)', group)`: the two digits after 'GTS', else 'n/a'. */
  function Floor(group: string): string
  {
    if |group| >= 5 && group[..3] == "GTS" && Text.IsDigit(group[3]) && Text.IsDigit(group[4]) then group[3..5] else NoFloor
  }

  /** A floor read from a group is its two digits; 'n/a' holds no digit, so it is never a floor read. */
  lemma {:induction false} FloorMeaning(d: string, rest: string, group: string)
    ensures |d| == 2 && Text.AllDigits(d) ==> Floor("GTS" + d + rest) == d
    ensures Floor(group) == NoFloor || (Text.StartsWith(group, "GTS") && |Floor(group)| == 2 && Text.AllDigits(Floor(group)))
  {
    if |d| == 2 && Text.AllDigits(d) {
      var g := "GTS" + d + rest;
      assert g[..3] == "GTS" && g[3] == d[0] && g[4] == d[1] && g[3..5] == d;
    }
  }

  /** The columns of the two radio cells, from the active-AP table's own header. */
  function RadioColumns(header: Row): Result<(nat, nat), Failure>
  {
    match Text.IndexOf(header, Radio0Column)
      case None => Err(MissingColumn(Radio0Column))
      case Some(i0) =>
        match Text.IndexOf(header, Radio1Column)
          case None => Err(MissingColumn(Radio1Column))
          case Some(i1) => Ok((i0, i1))
  }

  /** A row holds every cell the loop body reads: both radio cells, the name and the group. */
  predicate Readable(row: Row, i0: nat, i1: nat)
  {
    |row| > i0 && |row| > i1 && |row| > 1
  }

  predicate AllReadable(rows: seq<Row>, i0: nat, i1: nat)
  {
    forall i :: 0 <= i < |rows| ==> |rows[i]| > i0 && |rows[i]| > i1 && |rows[i]| > 1
  }

  function Radio0(row: Row, i0: nat): Option<Radio>
    requires |row| > i0
  {
    ParseRadio(row[i0], false)
  }

  function Radio1(row: Row, i1: nat): Option<Radio>
    requires |row| > i1
  {
    ParseRadio(row[i1], true)
  }

  /** The row the loop appends to `ap_act_tbl`. */
  function ActRow(row: Row, i0: nat, i1: nat): (r: Row)
    requires Readable(row, i0, i1)
    ensures |r| == |ActHeader| && r[0] == row[0]
  {
    [row[0]] + RadioCells(Radio0(row, i0)) + RadioCells(Radio1(row, i1))
  }

  /** The channel and client count of a radio 0 cell that parses. */
  function ChannelClients(row: Row, i0: nat): Option<(string, nat)>
    requires |row| > i0
  {
    match Radio0(row, i0)
      case Some(x) => Some((x.ch, Text.DigitsValue(x.sta, 10)))
      case None => None
  }

  /** The (floor, clients of both radios) pair of a row. */
  function FloorClients(row: Row, i0: nat, i1: nat): (string, nat)
    requires Readable(row, i0, i1)
  {
    (Floor(row[1]), Clients(Radio0(row, i0)) + Clients(Radio1(row, i1)))
  }

  function ActRows(rows: seq<Row>, i0: nat, i1: nat): (r: seq<Row>)
    requires AllReadable(rows, i0, i1)
    ensures |r| == |rows| && forall i :: 0 <= i < |rows| ==> r[i] == ActRow(rows[i], i0, i1)
  {
    seq(|rows|, i requires 0 <= i < |rows| => ActRow(rows[i], i0, i1))
  }

  /** The (channel, clients) pairs of the rows whose radio 0 cell parses, in order. */
  function ChannelPairs(rows: seq<Row>, i0: nat): seq<(string, nat)>
    requires forall i :: 0 <= i < |rows| ==> |rows[i]| > i0
  {
    Sessions.Somes(seq(|rows|, i requires 0 <= i < |rows| => ChannelClients(rows[i], i0)))
  }

  function FloorPairs(rows: seq<Row>, i0: nat, i1: nat): (r: seq<(string, nat)>)
    requires AllReadable(rows, i0, i1)
    ensures |r| == |rows| && forall i :: 0 <= i < |rows| ==> r[i] == FloorClients(rows[i], i0, i1)
  {
    seq(|rows|, i requires 0 <= i < |rows| => FloorClients(rows[i], i0, i1))
  }

  /** The channels of the pairs, one per parsed radio 0 cell. */
  function Channels(ps: seq<(string, nat)>): (r: seq<string>)
    ensures |r| == |ps| && forall i :: 0 <= i < |ps| ==> r[i] == ps[i].0
  {
    seq(|ps|, i requires 0 <= i < |ps| => ps[i].0)
  }

  /** The statistics of the active-AP loop over `rows`. */
  function ActStats(rows: seq<Row>, i0: nat, i1: nat): Stats
    requires AllReadable(rows, i0, i1)
  {
    var ps := ChannelPairs(rows, i0);
    Stats([ActHeader] + ActRows(rows, i0, i1), Tally.Tally(Tally.Ones(Channels(ps))), Tally.Tally(ps), Tally.Tally(FloorPairs(rows, i0, i1)))
  }

  /** No row is empty, so `uniq` can read every row's name. */
  predicate Keyed(rows: seq<Row>)
  {
    forall i :: 0 <= i < |rows| ==> rows[i] != []
  }

  /** The whole script up to its spreadsheet output. */
  function NumSta(db: Option<seq<Row>>, active: Option<seq<Row>>): Result<Report, Failure>
  {
    if db.None? then Err(NoDatabase)
    else if active.None? then Err(NoActive)
    else if !Keyed(db.value) || !Keyed(active.value) then Err(MissingCell)
    else
      var aps := Uniq.Uniq(db.value, Uniq.Cell(0));
      var act := Uniq.Uniq(active.value, Uniq.Cell(0));
      if aps == [] || !Ap2Xls.HasModels(aps) || act == [] then Err(MissingCell)
      else match RadioColumns(act[0])
        case Err(f) => Err(f)
        case Ok((i0, i1)) =>
          if !AllReadable(act[1..], i0, i1) then Err(MissingCell)
          else Ok(Report(aps, Tally.Tally(Tally.Ones(Ap2Xls.Models(aps[1..]))), ActStats(act[1..], i0, i1)))
  }

  lemma {:induction false} ChannelPairsSnoc(rows: seq<Row>, i0: nat, row: Row)
    requires forall i :: 0 <= i < |rows| ==> |rows[i]| > i0
    requires |row| > i0
    ensures ChannelPairs(rows + [row], i0) == ChannelPairs(rows, i0) + (if ChannelClients(row, i0).Some? then [ChannelClients(row, i0).value] else [])
  {
    var os := seq(|rows|, i requires 0 <= i < |rows| => ChannelClients(rows[i], i0));
    var os' := seq(|rows| + 1, i requires 0 <= i < |rows| + 1 => ChannelClients((rows + [row])[i], i0));
    assert os' == os + [ChannelClients(row, i0)];
    Sessions.SomesSnoc(os, ChannelClients(row, i0));
  }

  /** One more row bumps both channel counters of its radio 0 channel, if it parses. */
  lemma {:induction false} ChannelStep(rows: seq<Row>, i0: nat, row: Row)
    requires forall i :: 0 <= i < |rows| ==> |rows[i]| > i0
    requires |row| > i0
    ensures var ps := ChannelPairs(rows, i0); var ps' := ChannelPairs(rows + [row], i0); var cc := ChannelClients(row, i0);
      && (cc.None? ==> ps' == ps)
      && (cc.Some? ==> Tally.Tally(Tally.Ones(Channels(ps'))) == Tally.Bump(Tally.Tally(Tally.Ones(Channels(ps))), cc.value.0, 1))
      && (cc.Some? ==> Tally.Tally(ps') == Tally.Bump(Tally.Tally(ps), cc.value.0, cc.value.1))
  {
    ChannelPairsSnoc(rows, i0, row);
    var ps := ChannelPairs(rows, i0);
    if ChannelClients(row, i0).Some? {
      var (ch, n) := ChannelClients(row, i0).value;
      assert Channels(ps + [(ch, n)]) == Channels(ps) + [ch];
      assert Tally.Ones(Channels(ps) + [ch]) == Tally.Ones(Channels(ps)) + [(ch, 1)];
      Tally.TallySnoc(Tally.Ones(Channels(ps)), ch, 1);
      Tally.TallySnoc(ps, ch, n);
    }
  }

  /** One more row bumps its floor by the clients of both its radios. */
  lemma {:induction false} FloorStep(rows: seq<Row>, i0: nat, i1: nat, row: Row)
    requires AllReadable(rows, i0, i1) && Readable(row, i0, i1)
    ensures AllReadable(rows + [row], i0, i1)
    ensures var fn := FloorClients(row, i0, i1);
      Tally.Tally(FloorPairs(rows + [row], i0, i1)) == Tally.Bump(Tally.Tally(FloorPairs(rows, i0, i1)), fn.0, fn.1)
    ensures ActRows(rows + [row], i0, i1) == ActRows(rows, i0, i1) + [ActRow(row, i0, i1)]
  {
    var (fl, n) := FloorClients(row, i0, i1);
    assert FloorPairs(rows + [row], i0, i1) == FloorPairs(rows, i0, i1) + [(fl, n)];
    Tally.TallySnoc(FloorPairs(rows, i0, i1), fl, n);
  }

  lemma {:induction false} ActStatsFields(rows: seq<Row>, i0: nat, i1: nat)
    requires AllReadable(rows, i0, i1)
    ensures var st := ActStats(rows, i0, i1); var ps := ChannelPairs(rows, i0);
      && st.act == [ActHeader] + ActRows(rows, i0, i1)
      && st.chCount == Tally.Tally(Tally.Ones(Channels(ps)))
      && st.chSta == Tally.Tally(ps)
      && st.floorUsers == Tally.Tally(FloorPairs(rows, i0, i1))
  {
  }

  /** The statistics of one more active AP, field by field. */
  lemma {:induction false} ActStatsSnoc(rows: seq<Row>, row: Row, i0: nat, i1: nat)
    requires AllReadable(rows, i0, i1) && Readable(row, i0, i1)
    ensures AllReadable(rows + [row], i0, i1)
    ensures ActStats(rows + [row], i0, i1).act == ActStats(rows, i0, i1).act + [ActRow(row, i0, i1)]
    ensures ActStats(rows + [row], i0, i1).chCount
            == if ChannelClients(row, i0).Some?
               then Tally.Bump(ActStats(rows, i0, i1).chCount, ChannelClients(row, i0).value.0, 1)
               else ActStats(rows, i0, i1).chCount
    ensures ActStats(rows + [row], i0, i1).chSta
            == if ChannelClients(row, i0).Some?
               then Tally.Bump(ActStats(rows, i0, i1).chSta, ChannelClients(row, i0).value.0, ChannelClients(row, i0).value.1)
               else ActStats(rows, i0, i1).chSta
    ensures ActStats(rows + [row], i0, i1).floorUsers
            == Tally.Bump(ActStats(rows, i0, i1).floorUsers, FloorClients(row, i0, i1).0, FloorClients(row, i0, i1).1)
  {
    ChannelStep(rows, i0, row);
    FloorStep(rows, i0, i1, row);
    ActStatsFields(rows, i0, i1);
    ActStatsFields(rows + [row], i0, i1);
  }

  /** The loop body: one active AP added to the statistics of the APs before it. */
  method Record(ghost rows: seq<Row>, st: Stats, row: Row, i0: nat, i1: nat) returns (st': Stats)
    requires AllReadable(rows, i0, i1) && Readable(row, i0, i1)
    requires st == ActStats(rows, i0, i1)
    ensures AllReadable(rows + [row], i0, i1) && st' == ActStats(rows + [row], i0, i1)
  {
    ActStatsSnoc(rows, row, i0, i1);
    var chCount, chSta := st.chCount, st.chSta;
    var cc := ChannelClients(row, i0);
    if cc.Some? {
      chCount := Tally.Bump(chCount, cc.value.0, 1);
      chSta := Tally.Bump(chSta, cc.value.0, cc.value.1);
    }
    var fc := FloorClients(row, i0, i1);
    return Stats(st.act + [ActRow(row, i0, i1)], chCount, chSta, Tally.Bump(st.floorUsers, fc.0, fc.1));
  }

  /** The loop over the active APs. */
  method Collect(rows: seq<Row>, i0: nat, i1: nat) returns (st: Stats)
    requires AllReadable(rows, i0, i1)
    ensures st == ActStats(rows, i0, i1)
  {
    st := Stats([ActHeader], map[], map[], map[]);
    assert rows[..0] == [];
    for i := 0 to |rows|
      invariant AllReadable(rows[..i], i0, i1)
      invariant st == ActStats(rows[..i], i0, i1)
    {
      assert Readable(rows[i], i0, i1) && rows[..i + 1] == rows[..i] + [rows[i]];
      st := Record(rows[..i], st, rows[i], i0, i1);
    }
    assert rows[..|rows|] == rows;
  }

  /** The script after parsing, up to its spreadsheet output. */
  method Run(db: Option<seq<Row>>, active: Option<seq<Row>>) returns (r: Result<Report, Failure>)
    ensures r == NumSta(db, active)
  {
    if db.None? {
      return Err(NoDatabase);
    }
    if active.None? {
      return Err(NoActive);
    }
    if (exists i :: 0 <= i < |db.value| && db.value[i] == []) || (exists i :: 0 <= i < |active.value| && active.value[i] == []) {
      return Err(MissingCell);
    }
    var aps := Uniq.UniqBy(db.value, Uniq.Cell(0));
    var act := Uniq.UniqBy(active.value, Uniq.Cell(0));
    if aps == [] {
      return Err(MissingCell);
    }
    var models := Ap2Xls.CountModels(aps);
    if models.None? || act == [] {
      return Err(MissingCell);
    }
    var cols := RadioColumns(act[0]);
    if cols.Err? {
      return Err(cols.error);
    }
    var (i0, i1) := cols.value;
    if !AllReadable(act[1..], i0, i1) {
      return Err(MissingCell);
    }
    var st := Collect(act[1..], i0, i1);
    return Ok(Report(aps, models.value, st));
  }

  /**
   * Every row of `ap_act_tbl` has the nine cells of its header and starts
   * with the AP name; an AP whose radio cell does not parse shows empty
   * PHY, channel and EIRP and '0' clients for that radio.
   */
  lemma {:induction false} ActRowsMeaning(rows: seq<Row>, i0: nat, i1: nat)
    requires AllReadable(rows, i0, i1)
    ensures var act := ActStats(rows, i0, i1).act;
      && |act| == |rows| + 1 && act[0] == ActHeader
      && (forall j :: 0 <= j < |act| ==> |act[j]| == |ActHeader|)
      && (forall i :: 0 <= i < |rows| ==> act[i + 1][0] == rows[i][0])
      && (forall i :: 0 <= i < |rows| && Radio0(rows[i], i0).None? ==> act[i + 1][1..5] == ["", "", "", "0"])
      && (forall i :: 0 <= i < |rows| && Radio1(rows[i], i1).None? ==> act[i + 1][5..] == ["", "", "", "0"])
  {
    var act := ActStats(rows, i0, i1).act;
    forall i | 0 <= i < |rows|
      ensures act[i + 1][1..5] == RadioCells(Radio0(rows[i], i0)) && act[i + 1][5..] == RadioCells(Radio1(rows[i], i1))
    {
      assert act[i + 1] == ActRow(rows[i], i0, i1);
    }
  }

  /**
   * `r0chctr[ch]` is the number of APs whose radio 0 is on channel ch,
   * `r0chsta[ch]` the sum of their radio 0 clients, and the counts add up
   * to the number of APs whose radio 0 cell parses.
   */
  lemma {:induction false} ChannelMeaning(rows: seq<Row>, i0: nat, i1: nat, ch: string)
    requires AllReadable(rows, i0, i1)
    ensures var st := ActStats(rows, i0, i1); var ps := ChannelPairs(rows, i0);
      && Tally.Get(st.chCount, ch) == Counting.CountIf(Channels(ps), Tally.Is(ch))
      && Tally.Get(st.chSta, ch) == Tally.WeightOf(ps, ch)
      && Tally.SumAt(st.chCount, KeepMax.FirstSeen(Tally.Ones(Channels(ps)))) == |ps|
  {
    var ps := ChannelPairs(rows, i0);
    Tally.CountMeaning(Channels(ps), ch);
    Tally.TallyMeaning(ps);
    Tally.CountTotal(Channels(ps));
  }

  /**
   * The pairs counted are those of the rows whose radio 0 cell parses, in
   * order: one per such row, with its channel and client count.
   */
  lemma {:induction false} ChannelPairsMeaning(rows: seq<Row>, i0: nat) returns (idx: seq<nat>)
    requires forall i :: 0 <= i < |rows| ==> |rows[i]| > i0
    ensures var ps := ChannelPairs(rows, i0);
      && |idx| == |ps|
      && (forall a, b :: 0 <= a < b < |idx| ==> idx[a] < idx[b])
      && (forall j :: 0 <= j < |idx| ==> (idx[j] < |rows| && Radio0(rows[idx[j]], i0).Some?
            && ps[j] == (Radio0(rows[idx[j]], i0).value.ch, Text.DigitsValue(Radio0(rows[idx[j]], i0).value.sta, 10))))
      && (forall i :: 0 <= i < |rows| && Radio0(rows[i], i0).Some? ==> i in idx)
  {
    var os := seq(|rows|, i requires 0 <= i < |rows| => ChannelClients(rows[i], i0));
    idx := Sessions.SomesPositions(os);
  }

  /**
   * `usersperfloor[fl]` is the sum of the clients of both radios of the APs
   * on floor fl, and the floors add up to the clients of every AP.
   */
  lemma {:induction false} FloorMeaningOf(rows: seq<Row>, i0: nat, i1: nat, fl: string)
    requires AllReadable(rows, i0, i1)
    ensures var st := ActStats(rows, i0, i1); var fs := FloorPairs(rows, i0, i1);
      && Tally.Get(st.floorUsers, fl) == Tally.WeightOf(fs, fl)
      && Tally.SumAt(st.floorUsers, KeepMax.FirstSeen(fs)) == Tally.Total(fs)
  {
    Tally.TallyMeaning(FloorPairs(rows, i0, i1));
    Tally.TallyTotal(FloorPairs(rows, i0, i1));
  }
}
