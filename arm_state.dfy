/**
 * arm-state.py: the 'show ap arm state' section of a tech-support log lists,
 * for every AP, the neighbour APs its radio hears.  For each AP on an
 * accepted 5 GHz channel the script counts the neighbours heard at SNR 10
 * or more (`nnbr`), those at SNR 30 or more (`ncov`, coverage) and those of
 * the first kind on an overlapping channel (`ncoch`, co-channel); it keeps
 * per-floor totals of the APs and their co-channel counts, and lists the
 * APs by name, case-insensitively.
 *
 * The AP database and each AP's neighbour table are read with the table
 * parser of aos_parser.py (`AosParser`).  The specification functions come
 * first, then the methods that perform the script's loops and are proved
 * equal to them, then the lemmas.
 */
module ArmState {
  import opened Wrappers
  import opened Text
  import MonitorRows
  import Channels
  import AosParser
  import AosQuery
  import Tally
  import KeepMax
  import Counting
  import Sorting

  type Row = seq<string>

  /** COV_SNR: a neighbour at least this loud covers the AP. */
  const CovSnr := 30
  /** A neighbour below this SNR is not counted at all. */
  const NbrSnr := 10
  /** The command whose output the script scans, and the command each neighbour block is parsed as. */
  const ArmCmd := "show ap arm state"

  /** The exceptions that end the script. */
  datatype Failure =
    | Parser(error: AosParser.ParseError)  // raised inside AOSParser
    | NoApDatabase                         // "show ap database long output not found." and exit(-1)
    | ShortRow                             // IndexError on a table row
    | BadSnr                               // ValueError from int() on the SNR cell
    | UnknownChannel                       // KeyError from isintf on a label chsets lacks
    | NoApCounted                          // ZeroDivisionError in the total average

  // ---------------------------------------------------------------------
  // apn2floor
  // ---------------------------------------------------------------------

  predicate IsFloorMark(c: char) { c == 'f' || c == 'F' }

  /**
   * Where the group of `(\d+|[GM])[fF]` (when `!second`) or of `B(\d+)-`
   * (when `second`) ends, for a match starting at `p`.  A run of digits is
   * taken whole: a shorter run would leave a digit where the letter after
   * it is needed.
   */
  function FloorMatchAt(s: string, p: nat, second: bool): (r: Option<nat>)
    requires p <= |s|
    ensures r.Some? ==> p < r.value < |s|
  {
    if !second then
      if p < |s| && IsDigit(s[p]) then
        var d := MonitorRows.DigitsEnd(s, p);
        if d < |s| && IsFloorMark(s[d]) then Some(d) else None
      else if p + 1 < |s| && (s[p] == 'G' || s[p] == 'M') && IsFloorMark(s[p + 1]) then Some(p + 1)
      else None
    else if p + 1 < |s| && s[p] == 'B' && IsDigit(s[p + 1]) then
      var d := MonitorRows.DigitsEnd(s, p + 1);
      if d < |s| && s[d] == '-' then Some(d) else None
    else None
  }

  /** The scan of `re.search`: the first position from `p` where the pattern matches, with its group's end. */
  function FloorSearch(s: string, p: nat, second: bool): (r: Option<(nat, nat)>)
    requires p <= |s|
    ensures r.Some? ==> p <= r.value.0 < r.value.1 < |s| && FloorMatchAt(s, r.value.0, second) == Some(r.value.1)
    ensures r.Some? ==> forall q :: p <= q < r.value.0 ==> FloorMatchAt(s, q, second).None?
    ensures r.None? ==> forall q :: p <= q <= |s| ==> FloorMatchAt(s, q, second).None?
    decreases |s| - p
  {
    match FloorMatchAt(s, p, second)
    case Some(e) => Some((p, e))
    case None => if p == |s| then None else FloorSearch(s, p + 1, second)
  }

  /** `fl` occurs at `p` in the name, followed by 'f'/'F', or between "B" and '-'. */
  predicate FloorIn(apn: string, fl: string, p: nat)
  {
    p + |fl| < |apn| && apn[p..p + |fl|] == fl
    && (IsFloorMark(apn[p + |fl|]) || (apn[p + |fl|] == '-' && p > 0 && apn[p - 1] == 'B'))
  }

  /**
   * apn2floor: the group of the first pattern that occurs in the name,
   * `(\d+|[GM])[fF]` before `B(\d+)-`, and "n/a" when neither does.  A
   * floor is "G", "M" or a run of digits, and occurs in the name followed
   * by 'f'/'F', or between "B" and '-'.
   */
  function Floor(apn: string): (fl: string)
    ensures fl == "n/a" || fl == "G" || fl == "M" || (fl != [] && AllDigits(fl))
    ensures fl != "n/a" ==> exists p :: FloorIn(apn, fl, p)
    ensures fl == "n/a" <==> forall q :: 0 <= q <= |apn| ==> FloorMatchAt(apn, q, false).None? && FloorMatchAt(apn, q, true).None?
  {
    match FloorSearch(apn, 0, false)
    case Some((p, e)) =>
      var fl := apn[p..e];
      assert fl != "n/a" by { if IsDigit(apn[p]) { assert !IsDigit('n'); } }
      assert apn[p..p + |fl|] == fl;
      assert FloorIn(apn, fl, p);
      fl
    case None =>
      match FloorSearch(apn, 0, true)
      case Some((p, e)) =>
        var fl := apn[p + 1..e];
        assert fl[0] == apn[p + 1] && IsDigit(fl[0]);
        assert apn[p + 1..p + 1 + |fl|] == fl;
        assert FloorIn(apn, fl, p + 1);
        fl
      case None => "n/a"
  }

  // ---------------------------------------------------------------------
  // The 'AP:' header line
  // ---------------------------------------------------------------------

  /** `[:\w]`: a character of the MAC address. */
  predicate IsMacChar(c: char) { MonitorRows.IsWord(c, false) || c == ':' }

  /** " Channel:" followed by a digit at position `q`. */
  predicate ChannelAt(l: string, q: nat)
  {
    q + 10 <= |l| && l[q..q + 9] == " Channel:" && IsDigit(l[q + 9])
  }

  /** The greedy `.*` before " Channel:": the rightmost position in [lo, hi) where it fits. */
  function LastChannel(l: string, lo: nat, hi: nat): (r: Option<nat>)
    ensures r.Some? ==> lo <= r.value < hi && ChannelAt(l, r.value) && forall q :: r.value < q < hi ==> !ChannelAt(l, q)
    ensures r.None? ==> forall q :: lo <= q < hi ==> !ChannelAt(l, q)
    decreases hi
  {
    if hi <= lo then None
    else if ChannelAt(l, hi - 1) then Some(hi - 1)
    else LastChannel(l, lo, hi - 1)
  }

  /** The end of one repetition of `\d+[SE+-]?` that starts at the digit at `j`. */
  function SegmentEnd(l: string, j: nat): (e: nat)
    requires j < |l| && IsDigit(l[j])
    ensures j < e <= |l|
  {
    var d := MonitorRows.DigitsEnd(l, j);
    if d < |l| && MonitorRows.IsBonding(l[d]) then d + 1 else d
  }

  /**
   * The repeated group `(\d+[SE+-]?)+` from the digit at `j`: the span of
   * its last repetition, which is what the group captures.
   */
  function LastSegment(l: string, j: nat): (r: (nat, nat))
    requires j < |l| && IsDigit(l[j])
    ensures j <= r.0 < r.1 <= |l| && IsDigit(l[r.0])
    decreases |l| - j
  {
    var e := SegmentEnd(l, j);
    if e < |l| && IsDigit(l[e]) then LastSegment(l, e) else (j, e)
  }

  /**
   * `re.match(r'AP:([\w-]+) MAC:[:\w]+.* Channel:(\d+[SE+-]?)+', l)`: the AP
   * name and the channel label.  The name is the whole run of word
   * characters and dashes after "AP:", " MAC:" and at least one MAC
   * character follow it, and the label is read at the last " Channel:"
   * that a digit follows.
   */
  function Header(l: string): (r: Option<(string, string)>)
    ensures r.Some? ==> StartsWith(l, "AP:" + r.value.0 + " MAC:")
    ensures r.Some? ==> r.value.0 != [] && forall k :: 0 <= k < |r.value.0| ==> MonitorRows.IsWord(r.value.0[k], true)
    ensures r.Some? ==> r.value.1 != [] && IsDigit(r.value.1[0])
  {
    if !StartsWith(l, "AP:") then None
    else
      var w := MonitorRows.WordEnd(l, 3, true);
      MonitorRows.WordEndRun(l, 3, true);
      if w == 3 || w + 6 > |l| || l[w..w + 5] != " MAC:" || !IsMacChar(l[w + 5]) then None
      else
        match LastChannel(l, w + 6, |l|)
        case None => None
        case Some(q) =>
          var (a, b) := LastSegment(l, q + 9);
          assert l[..w + 5] == "AP:" + l[3..w] + " MAC:" by {
            assert l[..3] == "AP:";
          }
          Some((l[3..w], l[a..b]))
  }

  /** `int(re.sub(r'[SE+-]', '', ch))`: the digits of a channel label as a number. */
  function Primary(ch: string): nat
  {
    var d := MonitorRows.DigitsEnd(ch, 0);
    DigitsValue(ch[..d], 10)
  }

  /** A header opens a block unless `chi < 36 or chi & 3 != 0`. */
  predicate Accepted(ch: string)
  {
    Primary(ch) >= 36 && Primary(ch) % 4 == 0
  }

  /** A line that opens a block, whatever the scanner was doing. */
  predicate Opens(l: string)
  {
    Header(l).Some? && Accepted(Header(l).value.1)
  }

  // ---------------------------------------------------------------------
  // The block scanner
  // ---------------------------------------------------------------------

  /** A finished block: the header's AP name and channel label, and the lines after it. */
  datatype Block = Block(apn: string, ch: string, body: seq<string>)

  /** `cont`, `apn`, `ch` and `out` (without its first, command line), and the blocks handed on so far. */
  datatype Scan = Scan(open: bool, apn: string, ch: string, body: seq<string>, closed: seq<Block>)

  const Idle := Scan(false, "", "", [], [])

  /** The open block is handed to parse_nbr_data. */
  function Close(s: Scan): Scan
  {
    s.(open := false, closed := s.closed + [Block(s.apn, s.ch, s.body)])
  }

  /** With no block open: an accepted 'AP:' header opens one. */
  function Look(s: Scan, l: string): Scan
  {
    if Opens(l) then s.(open := true, apn := Header(l).value.0, ch := Header(l).value.1, body := []) else s
  }

  /**
   * One line: 'Legend: ' closes the open block; an 'AP:' line closes it and
   * is then examined as a header itself; any other line joins it.
   */
  function Step(s: Scan, l: string): (r: Scan)
    ensures s.closed <= r.closed
  {
    if s.open && StartsWith(l, "Legend: ") then Close(s)
    else if s.open && StartsWith(l, "AP:") then Look(Close(s), l)
    else if s.open then s.(body := s.body + [l])
    else Look(s, l)
  }

  function Scanned(lines: seq<string>): Scan
  {
    if lines == [] then Idle else Step(Scanned(lines[..|lines| - 1]), lines[|lines| - 1])
  }

  /** The first line from `i` that starts 'show ap arm state', or the end. */
  function StartFrom(lines: seq<string>, i: nat): (k: nat)
    requires i <= |lines|
    ensures i <= k <= |lines|
    decreases |lines| - i
  {
    if i == |lines| || StartsWith(lines[i], ArmCmd) then i else StartFrom(lines, i + 1)
  }

  /** The lines the scanner reads: those after the first that starts 'show ap arm state'. */
  function Section(lines: seq<string>): seq<string>
  {
    var k := StartFrom(lines, 0);
    if k < |lines| then lines[k + 1..] else []
  }

  // ---------------------------------------------------------------------
  // parse_nbr_data
  // ---------------------------------------------------------------------

  /** apn2model and apn2group. */
  datatype Db = Db(model: map<string, string>, group: map<string, string>)

  /** The loop over the AP database rows: name to model and group, the last row of a name winning. */
  function Recorded(rows: seq<Row>): (r: Result<Db, Failure>)
    ensures r.Ok? ==> r.value.model.Keys == r.value.group.Keys
  {
    if rows == [] then Ok(Db(map[], map[]))
    else
      match Recorded(rows[..|rows| - 1])
      case Err(e) => Err(e)
      case Ok(d) =>
        var x := rows[|rows| - 1];
        if |x| < 3 then Err(ShortRow) else Ok(Db(d.model[x[0] := x[2]], d.group[x[0] := x[1]]))
  }

  /** The AP database of the whole log, first occurrence, active APs only. */
  function Database(lines: seq<string>): (r: Result<Db, Failure>)
    ensures r.Ok? ==> r.value.model.Keys == r.value.group.Keys
  {
    match AosParser.Parse(lines, [AosParser.AP_DATABASE_LONG_TABLE], true)
    case Err(e) => Err(Parser(e))
    case Ok(tables) =>
      match AosQuery.GetTable(tables, AosParser.AP_DATABASE_LONG_TABLE, [])
      case Some(Whole(tbl)) => Recorded(Tail(tbl))
      case _ => Err(NoApDatabase)
  }

  /** `re.match(r'(\d+)[E+-]?/([\d\.]+)', s)`: the channel digits before the '/' and the EIRP. */
  function ChanOf(s: string): (r: Option<string>)
    ensures r.Some? ==> r.value != [] && AllDigits(r.value) && StartsWith(s, r.value)
  {
    var d := MonitorRows.DigitsEnd(s, 0);
    var e := if d < |s| && (s[d] == 'E' || s[d] == '+' || s[d] == '-') then d + 1 else d;
    if d > 0 && e + 1 < |s| && s[e] == '/' && (IsDigit(s[e + 1]) || s[e + 1] == '.') then Some(s[..d]) else None
  }

  /** The neighbour's channel: from the sixth cell, else from the fifth. */
  function NeighborChannel(x: Row): Option<string>
    requires |x| >= 6
  {
    if ChanOf(x[5]).Some? then ChanOf(x[5]) else ChanOf(x[4])
  }

  /** What one neighbour row adds: to `ncov`, to `nnbr`, to `ncoch`. */
  datatype Seen = Seen(cov: bool, nbr: bool, coch: bool)

  datatype Counts = Counts(nnbr: nat, ncov: nat, ncoch: nat)

  /** A row the loop reads that is heard at SNR 10 or more. */
  predicate IsNeighbor(x: Row)
  {
    |x| >= 3 && ':' !in x[0] && ParseInt(x[2]).Some? && ParseInt(x[2]).value >= NbrSnr
  }

  /** A row the loop reads that is heard at SNR 30 or more. */
  predicate IsCoverage(x: Row)
  {
    |x| >= 3 && ':' !in x[0] && ParseInt(x[2]).Some? && ParseInt(x[2]).value >= CovSnr
  }

  /** A neighbour whose channel is read and overlaps the AP's own label. */
  predicate IsCoChannel(t: Channels.Table, mych: string, x: Row)
  {
    IsNeighbor(x) && |x| >= 6 && NeighborChannel(x).Some? && Channels.IsIntf(t, NeighborChannel(x).value, mych) == Some(true)
  }

  function CoChannel(t: Channels.Table, mych: string): Row -> bool
  {
    x => IsCoChannel(t, mych, x)
  }

  /**
   * One iteration of the neighbour loop: names with ':' are not APs and
   * are skipped; the SNR is read; a neighbour whose channel cell cannot be
   * read still counts as a neighbour, but not as co-channel.
   */
  function Neighbor(t: Channels.Table, mych: string, x: Row): (r: Result<Option<Seen>, Failure>)
    ensures r.Ok? ==> |x| > 0 && (r.value.None? <==> ':' in x[0])
    ensures r.Ok? && r.value.Some? ==> (r.value.value.nbr <==> IsNeighbor(x)) && (r.value.value.cov <==> IsCoverage(x))
    ensures r.Ok? && r.value.Some? ==> (r.value.value.coch <==> IsCoChannel(t, mych, x))
    ensures r.Ok? && r.value.Some? ==> (r.value.value.cov ==> r.value.value.nbr) && (r.value.value.coch ==> r.value.value.nbr)
  {
    if |x| == 0 then Err(ShortRow)
    else if ':' in x[0] then Ok(None)
    else if |x| < 3 then Err(ShortRow)
    else
      match ParseInt(x[2])
      case None => Err(BadSnr)
      case Some(snr) =>
        match Heard(t, mych, x, snr)
        case Err(e) => Err(e)
        case Ok(v) => Ok(Some(v))
  }

  /** A row with a readable SNR: a neighbour from SNR 10, and then its channel is read. */
  function Heard(t: Channels.Table, mych: string, x: Row, snr: int): (r: Result<Seen, Failure>)
    requires |x| >= 3 && ':' !in x[0] && ParseInt(x[2]) == Some(snr)
    ensures r.Ok? ==> (r.value.nbr <==> IsNeighbor(x)) && (r.value.cov <==> IsCoverage(x))
    ensures r.Ok? ==> (r.value.coch <==> IsCoChannel(t, mych, x))
    ensures r.Ok? ==> (r.value.cov ==> r.value.nbr) && (r.value.coch ==> r.value.nbr)
  {
    if snr < NbrSnr then Ok(Seen(snr >= CovSnr, false, false))
    else if |x| < 6 then Err(ShortRow)
    else
      match NeighborChannel(x)
      case None => Ok(Seen(snr >= CovSnr, true, false))
      case Some(ch) =>
        match Channels.IsIntf(t, ch, mych)
        case None => Err(UnknownChannel)
        case Some(b) => Ok(Seen(snr >= CovSnr, true, b))
  }

  function Add(c: Counts, s: Option<Seen>): Counts
  {
    match s
    case None => c
    case Some(v) =>
      Counts(c.nnbr + (if v.nbr then 1 else 0), c.ncov + (if v.cov then 1 else 0), c.ncoch + (if v.coch then 1 else 0))
  }

  /**
   * The loop over the neighbour rows, stopping at the first exception.
   * Coverage and co-channel neighbours are neighbours, so neither count
   * exceeds `nnbr`, and `nnbr` does not exceed the number of rows.
   */
  function NbrCounts(t: Channels.Table, mych: string, rows: seq<Row>): (r: Result<Counts, Failure>)
    ensures r.Ok? ==> r.value.ncov <= r.value.nnbr && r.value.ncoch <= r.value.nnbr && r.value.nnbr <= |rows|
  {
    if rows == [] then Ok(Counts(0, 0, 0))
    else
      match NbrCounts(t, mych, rows[..|rows| - 1])
      case Err(e) => Err(e)
      case Ok(c) =>
        match Neighbor(t, mych, rows[|rows| - 1])
        case Err(e) => Err(e)
        case Ok(s) => Ok(Add(c, s))
  }

  /** A result row: `counts` is None for the row of zeros written when the AP has no neighbour table. */
  datatype ApRow = ApRow(apn: string, group: string, model: string, ch: string, counts: Option<Counts>)

  /**
   * parse_nbr_data for one block: nothing for an AP the name pattern
   * rejects or the AP database lacks; a row of zeros when the block holds
   * no neighbour table; otherwise the AP's three counts.
   */
  function Processed(t: Channels.Table, db: Db, pattern: string -> bool, b: Block): (r: Result<Option<ApRow>, Failure>)
    requires db.model.Keys == db.group.Keys
    ensures r.Ok? && r.value.Some? ==> b.apn in db.group && pattern(b.apn)
    ensures r.Ok? && r.value.Some? ==> r.value.value == ApRow(b.apn, db.group[b.apn], db.model[b.apn], b.ch, r.value.value.counts)
  {
    if !pattern(b.apn) || b.apn !in db.group then Ok(None)
    else
      match AosParser.Parse([ArmCmd] + b.body, [ArmCmd], true)
      case Err(e) => Err(Parser(e))
      case Ok(tables) =>
        var none := ApRow(b.apn, db.group[b.apn], db.model[b.apn], b.ch, None);
        match AosQuery.GetTable(tables, ArmCmd, [])
        case Some(Whole(tbl)) =>
          if |tbl| == 0 then Ok(Some(none))
          else (
            match NbrCounts(t, b.ch, tbl[1..])
            case Err(e) => Err(e)
            case Ok(c) => Ok(Some(none.(counts := Some(c)))))
        case _ => Ok(Some(none))
  }

  /** The blocks handed to parse_nbr_data in turn: the rows kept, or the first exception. */
  function Collected(t: Channels.Table, db: Db, pattern: string -> bool, blocks: seq<Block>): Result<seq<ApRow>, Failure>
    requires db.model.Keys == db.group.Keys
  {
    if blocks == [] then Ok([])
    else
      match Collected(t, db, pattern, blocks[..|blocks| - 1])
      case Err(e) => Err(e)
      case Ok(rows) =>
        match Processed(t, db, pattern, blocks[|blocks| - 1])
        case Err(e) => Err(e)
        case Ok(None) => Ok(rows)
        case Ok(Some(row)) => Ok(rows + [row])
  }

  // ---------------------------------------------------------------------
  // Floor counters and the report
  // ---------------------------------------------------------------------

  /** flrctr, flritf, allctr and allitf. */
  datatype Counters = Counters(flrctr: map<string, nat>, flritf: map<string, nat>, allctr: nat, allitf: nat)

  /** The floor of every AP that was counted (the rows with counts), in order. */
  function Floors(rows: seq<ApRow>): seq<string>
  {
    if rows == [] then []
    else Floors(rows[..|rows| - 1]) + (if rows[|rows| - 1].counts.Some? then [Floor(rows[|rows| - 1].apn)] else [])
  }

  /** The floor and co-channel count of every AP that was counted, in order. */
  function Charges(rows: seq<ApRow>): seq<(string, nat)>
  {
    if rows == [] then []
    else
      var x := rows[|rows| - 1];
      Charges(rows[..|rows| - 1]) + (if x.counts.Some? then [(Floor(x.apn), x.counts.value.ncoch)] else [])
  }

  /** The counters after the rows: APs and co-channel neighbours per floor and in all. */
  function CountersOf(rows: seq<ApRow>): Counters
  {
    Counters(Tally.Tally(Tally.Ones(Floors(rows))), Tally.Tally(Charges(rows)), |Floors(rows)|, Tally.Total(Charges(rows)))
  }

  /** The counter updates at the end of parse_nbr_data. */
  function Charge(c: Counters, fl: string, ncoch: nat): Counters
  {
    Counters(Tally.Bump(c.flrctr, fl, 1), Tally.Bump(c.flritf, fl, ncoch), c.allctr + 1, c.allitf + ncoch)
  }

  /** The sort key: the AP name, lowered. */
  function NameKey(r: ApRow): string { Lower(r.apn) }

  datatype Report = Report(rows: seq<ApRow>, counters: Counters)

  /**
   * The whole script: the AP database, the scan, then the counters and the
   * rows sorted by name.  With no AP counted the total average divides by
   * zero.  `t` is the `chsets` table and `pattern` the `--pattern` test.
   */
  function ArmStateOf(t: Channels.Table, lines: seq<string>, pattern: string -> bool): Result<Report, Failure>
  {
    match Database(lines)
    case Err(e) => Err(e)
    case Ok(db) =>
      match Collected(t, db, pattern, Scanned(Section(lines)).closed)
      case Err(e) => Err(e)
      case Ok(rows) =>
        if |Floors(rows)| == 0 then Err(NoApCounted)
        else Ok(Report(Sorting.SortAsc(rows, NameKey), CountersOf(rows)))
  }

  // ---------------------------------------------------------------------
  // The script's loops
  // ---------------------------------------------------------------------

  /** The AP database loop: `apn2model[r[0]] = r[2]` and `apn2group[r[0]] = r[1]` for every data row. */
  method ReadDatabase(lines: seq<string>) returns (r: Result<Db, Failure>)
    ensures r == Database(lines)
  {
    var aos := new AosParser.AOSParser(lines, [AosParser.AP_DATABASE_LONG_TABLE], true);
    if aos.failure.Some? {
      return Err(Parser(aos.failure.value));
    }
    var v := AosQuery.GetTable(aos.tables, AosParser.AP_DATABASE_LONG_TABLE, []);
    if !(v.Some? && v.value.Whole?) {
      return Err(NoApDatabase);
    }
    var rows := Tail(v.value.table);
    var model: map<string, string> := map[];
    var group: map<string, string> := map[];
    for i := 0 to |rows|
      invariant Recorded(rows[..i]) == Ok(Db(model, group))
    {
      var x := rows[i];
      assert rows[..i + 1][..i] == rows[..i];
      if |x| < 3 {
        RecordedSticks(rows, i + 1);
        return Err(ShortRow);
      }
      model := model[x[0] := x[2]];
      group := group[x[0] := x[1]];
    }
    assert rows[..|rows|] == rows;
    return Ok(Db(model, group));
  }

  /** One iteration of the neighbour loop. */
  method ReadNeighbor(t: Channels.Table, mych: string, x: Row) returns (r: Result<Option<Seen>, Failure>)
    ensures r == Neighbor(t, mych, x)
  {
    if |x| == 0 {
      return Err(ShortRow);
    }
    if ':' in x[0] {
      return Ok(None);
    }
    if |x| < 3 {
      return Err(ShortRow);
    }
    var v := ParseInt(x[2]);
    if v.None? {
      return Err(BadSnr);
    }
    var snr := v.value;
    var cov := snr >= CovSnr;
    if snr < NbrSnr {
      return Ok(Some(Seen(cov, false, false)));
    }
    if |x| < 6 {
      return Err(ShortRow);
    }
    var m := ChanOf(x[5]);
    if m.None? {
      m := ChanOf(x[4]);
    }
    if m.None? {
      return Ok(Some(Seen(cov, true, false)));
    }
    var intf := Channels.IsIntf(t, m.value, mych);
    if intf.None? {
      return Err(UnknownChannel);
    }
    return Ok(Some(Seen(cov, true, intf.value)));
  }

  /** `ncov += 1`, `nnbr += 1` and `ncoch += 1` as the row calls for them. */
  method Tick(nnbr: nat, ncov: nat, ncoch: nat, s: Option<Seen>) returns (nnbr': nat, ncov': nat, ncoch': nat)
    ensures Counts(nnbr', ncov', ncoch') == Add(Counts(nnbr, ncov, ncoch), s)
  {
    nnbr', ncov', ncoch' := nnbr, ncov, ncoch;
    if s.Some? {
      if s.value.cov {
        ncov' := ncov' + 1;
      }
      if s.value.nbr {
        nnbr' := nnbr' + 1;
      }
      if s.value.coch {
        ncoch' := ncoch' + 1;
      }
    }
  }

  /** The neighbour loop of parse_nbr_data: `nnbr`, `ncov` and `ncoch` counted row by row. */
  method CountNeighbors(t: Channels.Table, mych: string, rows: seq<Row>) returns (r: Result<Counts, Failure>)
    ensures r == NbrCounts(t, mych, rows)
  {
    var nnbr, ncov, ncoch := 0, 0, 0;
    for i := 0 to |rows|
      invariant NbrCounts(t, mych, rows[..i]) == Ok(Counts(nnbr, ncov, ncoch))
    {
      var s := ReadNeighbor(t, mych, rows[i]);
      NbrCountsStep(t, mych, rows, i, Counts(nnbr, ncov, ncoch), s);
      if s.Err? {
        NbrCountsSticks(t, mych, rows, i + 1);
        return Err(s.error);
      }
      nnbr, ncov, ncoch := Tick(nnbr, ncov, ncoch, s.value);
    }
    assert rows[..|rows|] == rows;
    return Ok(Counts(nnbr, ncov, ncoch));
  }

  /** parse_nbr_data: the block's lines, behind the command line, parsed as a 'show ap arm state' table. */
  method ParseNbrData(t: Channels.Table, db: Db, pattern: string -> bool, b: Block) returns (r: Result<Option<ApRow>, Failure>)
    requires db.model.Keys == db.group.Keys
    ensures r == Processed(t, db, pattern, b)
  {
    if !pattern(b.apn) || b.apn !in db.group {
      return Ok(None);
    }
    var aos := new AosParser.AOSParser([ArmCmd] + b.body, [ArmCmd], true);
    if aos.failure.Some? {
      return Err(Parser(aos.failure.value));
    }
    var none := ApRow(b.apn, db.group[b.apn], db.model[b.apn], b.ch, None);
    var v := AosQuery.GetTable(aos.tables, ArmCmd, []);
    if !(v.Some? && v.value.Whole?) || |v.value.table| == 0 {
      return Ok(Some(none));
    }
    var c := CountNeighbors(t, b.ch, v.value.table[1..]);
    if c.Err? {
      return Err(c.error);
    }
    return Ok(Some(none.(counts := Some(c.value))));
  }

  /** A closed block handed to parse_nbr_data: its row kept, and the counters charged when it was counted. */
  method CloseBlock(t: Channels.Table, db: Db, pattern: string -> bool, ghost blocks: seq<Block>, rows: seq<ApRow>, c: Counters, b: Block)
    returns (r: Result<(seq<ApRow>, Counters), Failure>)
    requires db.model.Keys == db.group.Keys
    requires Collected(t, db, pattern, blocks) == Ok(rows) && c == CountersOf(rows)
    ensures r.Err? ==> Collected(t, db, pattern, blocks + [b]) == Err(r.error)
    ensures r.Ok? ==> Collected(t, db, pattern, blocks + [b]) == Ok(r.value.0) && r.value.1 == CountersOf(r.value.0)
  {
    var p := ParseNbrData(t, db, pattern, b);
    CollectedStep(t, db, pattern, blocks, rows, b, p);
    if p.Err? {
      return Err(p.error);
    }
    if p.value.None? {
      return Ok((rows, c));
    }
    var c' := ChargeRow(rows, c, p.value.value);
    return Ok((rows + [p.value.value], c'));
  }

  /** The counter updates at the end of parse_nbr_data, for a row that was counted. */
  method ChargeRow(rows: seq<ApRow>, c: Counters, row: ApRow) returns (c': Counters)
    requires c == CountersOf(rows)
    ensures c' == CountersOf(rows + [row])
  {
    CountersSnoc(rows, row);
    if row.counts.None? {
      return c;
    }
    var fl := Floor(row.apn);
    var flrctr := c.flrctr[fl := Tally.Get(c.flrctr, fl) + 1];
    var flritf := c.flritf[fl := Tally.Get(c.flritf, fl) + row.counts.value.ncoch];
    var allctr := c.allctr + 1;
    var allitf := c.allitf + row.counts.value.ncoch;
    return Counters(flrctr, flritf, allctr, allitf);
  }

  /** The lines after the first that starts 'show ap arm state' (the loop that skips to it). */
  method SkipToSection(lines: seq<string>) returns (sec: seq<string>)
    ensures sec == Section(lines)
  {
    var k := 0;
    while k < |lines| && !StartsWith(lines[k], ArmCmd)
      invariant k <= |lines| && StartFrom(lines, k) == StartFrom(lines, 0)
    {
      k := k + 1;
    }
    sec := if k < |lines| then lines[k + 1..] else [];
  }

  /**
   * The scanner loop over the section: each closed block is handed to
   * parse_nbr_data and its row kept; a block still open at the end of the
   * input is dropped.
   */
  method ScanSection(t: Channels.Table, db: Db, pattern: string -> bool, sec: seq<string>) returns (r: Result<(seq<ApRow>, Counters), Failure>)
    requires db.model.Keys == db.group.Keys
    ensures r.Err? ==> Collected(t, db, pattern, Scanned(sec).closed) == Err(r.error)
    ensures r.Ok? ==> Collected(t, db, pattern, Scanned(sec).closed) == Ok(r.value.0) && r.value.1 == CountersOf(r.value.0)
  {
    var open, apn, ch, body := false, "", "", [];
    ghost var blocks: seq<Block> := [];
    var rows: seq<ApRow> := [];
    var c := Counters(map[], map[], 0, 0);
    for i := 0 to |sec|
      invariant Scanned(sec[..i]) == Scan(open, apn, ch, body, blocks)
      invariant Collected(t, db, pattern, blocks) == Ok(rows)
      invariant c == CountersOf(rows)
    {
      var l := sec[i];
      assert sec[..i + 1][..i] == sec[..i];
      if open && (StartsWith(l, "Legend: ") || StartsWith(l, "AP:")) {
        var b := Block(apn, ch, body);
        var res := CloseBlock(t, db, pattern, blocks, rows, c, b);
        blocks := blocks + [b];
        if res.Err? {
          CollectedStops(t, db, pattern, sec, i + 1);
          return Err(res.error);
        }
        rows, c := res.value.0, res.value.1;
        open := false;
        if StartsWith(l, "Legend: ") {
          continue;
        }
      } else if open {
        body := body + [l];
        continue;
      }
      var h := Header(l);
      if h.Some? && Accepted(h.value.1) {
        open, apn, ch, body := true, h.value.0, h.value.1, [];
      }
    }
    assert sec[..|sec|] == sec;
    return Ok((rows, c));
  }

  /**
   * The script: the AP database, the scan of the section, the total
   * average (which needs an AP counted), and the rows sorted by name,
   * case-insensitively.
   */
  method Run(t: Channels.Table, lines: seq<string>, pattern: string -> bool) returns (r: Result<Report, Failure>)
    ensures r == ArmStateOf(t, lines, pattern)
  {
    var dbr := ReadDatabase(lines);
    if dbr.Err? {
      return Err(dbr.error);
    }
    var sec := SkipToSection(lines);
    var scan := ScanSection(t, dbr.value, pattern, sec);
    if scan.Err? {
      return Err(scan.error);
    }
    var (rows, c) := scan.value;
    if c.allctr == 0 {
      return Err(NoApCounted);
    }
    var sorted := Sorting.SortAscBy(rows, NameKey);
    return Ok(Report(sorted, c));
  }

  // ---------------------------------------------------------------------
  // Lemmas
  // ---------------------------------------------------------------------

  lemma {:induction false} RecordedSticks(rows: seq<Row>, i: nat)
    requires i <= |rows| && Recorded(rows[..i]).Err?
    ensures Recorded(rows) == Recorded(rows[..i])
    decreases |rows| - i
  {
    if i < |rows| {
      assert rows[..i + 1][..i] == rows[..i];
      RecordedSticks(rows, i + 1);
    } else {
      assert rows[..i] == rows;
    }
  }

  lemma {:induction false} NbrCountsSticks(t: Channels.Table, mych: string, rows: seq<Row>, i: nat)
    requires i <= |rows| && NbrCounts(t, mych, rows[..i]).Err?
    ensures NbrCounts(t, mych, rows) == NbrCounts(t, mych, rows[..i])
    decreases |rows| - i
  {
    if i < |rows| {
      assert rows[..i + 1][..i] == rows[..i];
      NbrCountsSticks(t, mych, rows, i + 1);
    } else {
      assert rows[..i] == rows;
    }
  }

  lemma {:induction false} CollectedSticks(t: Channels.Table, db: Db, pattern: string -> bool, blocks: seq<Block>, i: nat)
    requires db.model.Keys == db.group.Keys
    requires i <= |blocks| && Collected(t, db, pattern, blocks[..i]).Err?
    ensures Collected(t, db, pattern, blocks) == Collected(t, db, pattern, blocks[..i])
    decreases |blocks| - i
  {
    if i < |blocks| {
      assert blocks[..i + 1][..i] == blocks[..i];
      CollectedSticks(t, db, pattern, blocks, i + 1);
    } else {
      assert blocks[..i] == blocks;
    }
  }

  lemma {:induction false} CollectedStep(t: Channels.Table, db: Db, pattern: string -> bool, blocks: seq<Block>, rows: seq<ApRow>,
                                         b: Block, p: Result<Option<ApRow>, Failure>)
    requires db.model.Keys == db.group.Keys
    requires Collected(t, db, pattern, blocks) == Ok(rows) && p == Processed(t, db, pattern, b)
    ensures p.Err? ==> Collected(t, db, pattern, blocks + [b]) == Err(p.error)
    ensures p.Ok? && p.value.None? ==> Collected(t, db, pattern, blocks + [b]) == Ok(rows)
    ensures p.Ok? && p.value.Some? ==> Collected(t, db, pattern, blocks + [b]) == Ok(rows + [p.value.value])
  {
    assert (blocks + [b])[..|blocks|] == blocks;
  }

  lemma {:induction false} NbrCountsStep(t: Channels.Table, mych: string, rows: seq<Row>, i: nat, c: Counts, s: Result<Option<Seen>, Failure>)
    requires i < |rows| && NbrCounts(t, mych, rows[..i]) == Ok(c) && s == Neighbor(t, mych, rows[i])
    ensures s.Err? ==> NbrCounts(t, mych, rows[..i + 1]) == Err(s.error)
    ensures s.Ok? ==> NbrCounts(t, mych, rows[..i + 1]) == Ok(Add(c, s.value))
  {
    assert rows[..i + 1][..i] == rows[..i];
  }

  /** The scanner only ever appends blocks: those closed by a prefix of the lines come first. */
  lemma {:induction false} ScannedPrefix(lines: seq<string>, i: nat)
    requires i <= |lines|
    ensures Scanned(lines[..i]).closed <= Scanned(lines).closed
    decreases |lines| - i
  {
    if i < |lines| {
      assert lines[..i + 1][..i] == lines[..i];
      ScannedPrefix(lines, i + 1);
    } else {
      assert lines[..i] == lines;
    }
  }

  /** An exception raised for a block ends the whole scan with it. */
  lemma {:induction false} CollectedStops(t: Channels.Table, db: Db, pattern: string -> bool, lines: seq<string>, i: nat)
    requires db.model.Keys == db.group.Keys
    requires i <= |lines| && Collected(t, db, pattern, Scanned(lines[..i]).closed).Err?
    ensures Collected(t, db, pattern, Scanned(lines).closed) == Collected(t, db, pattern, Scanned(lines[..i]).closed)
  {
    ScannedPrefix(lines, i);
    var pre := Scanned(lines[..i]).closed;
    var all := Scanned(lines).closed;
    assert all[..|pre|] == pre;
    CollectedSticks(t, db, pattern, all, |pre|);
  }

  lemma {:induction false} CountersSnoc(rows: seq<ApRow>, row: ApRow)
    ensures row.counts.None? ==> CountersOf(rows + [row]) == CountersOf(rows)
    ensures row.counts.Some? ==> CountersOf(rows + [row]) == Charge(CountersOf(rows), Floor(row.apn), row.counts.value.ncoch)
  {
    var rows' := rows + [row];
    assert rows'[..|rows|] == rows;
    if row.counts.None? {
      assert Floors(rows') == Floors(rows) && Charges(rows') == Charges(rows);
    } else {
      var fl := Floor(row.apn);
      assert Floors(rows') == Floors(rows) + [fl];
      assert Tally.Ones(Floors(rows) + [fl]) == Tally.Ones(Floors(rows)) + [(fl, 1)];
      Tally.TallySnoc(Tally.Ones(Floors(rows)), fl, 1);
      Tally.TallySnoc(Charges(rows), fl, row.counts.value.ncoch);
    }
  }

  // ---------------------------------------------------------------------
  // What the script promises
  // ---------------------------------------------------------------------

  /** Row `i` is the last row for name `k`. */
  ghost predicate LastFor(rows: seq<Row>, k: string, i: nat)
  {
    i < |rows| && |rows[i]| >= 3 && rows[i][0] == k && forall j :: i < j < |rows| ==> |rows[j]| == 0 || rows[j][0] != k
  }

  /** The AP database loop fails exactly on a row of fewer than three cells. */
  lemma {:induction false} RecordedOk(rows: seq<Row>)
    ensures Recorded(rows).Ok? <==> forall i :: 0 <= i < |rows| ==> |rows[i]| >= 3
    decreases |rows|
  {
    if rows != [] {
      var pre := rows[..|rows| - 1];
      RecordedOk(pre);
      assert forall i :: 0 <= i < |pre| ==> pre[i] == rows[i];
    }
  }

  /**
   * Every name of the AP database is known, with the group and model of
   * the last row of that name.
   */
  lemma {:induction false} RecordedLast(rows: seq<Row>)
    requires Recorded(rows).Ok?
    ensures forall k :: k in Recorded(rows).value.group ==>
      exists i: nat :: LastFor(rows, k, i) && Recorded(rows).value.group[k] == rows[i][1] && Recorded(rows).value.model[k] == rows[i][2]
    decreases |rows|
  {
    if rows != [] {
      var pre := rows[..|rows| - 1];
      var x := rows[|rows| - 1];
      RecordedLast(pre);
      var d := Recorded(rows).value;
      var d0 := Recorded(pre).value;
      assert d == Db(d0.model[x[0] := x[2]], d0.group[x[0] := x[1]]);
      forall k | k in d.group
        ensures exists i: nat :: LastFor(rows, k, i) && d.group[k] == rows[i][1] && d.model[k] == rows[i][2]
      {
        if k == x[0] {
          assert LastFor(rows, k, |rows| - 1);
        } else {
          var i: nat :| LastFor(pre, k, i) && d0.group[k] == pre[i][1] && d0.model[k] == pre[i][2];
          assert pre[i] == rows[i];
          assert LastFor(rows, k, i);
        }
      }
    }
  }

  /** Every row's name is in the AP database. */
  lemma {:induction false} RecordedKeys(rows: seq<Row>)
    requires Recorded(rows).Ok?
    ensures forall i :: 0 <= i < |rows| ==> |rows[i]| > 0 && rows[i][0] in Recorded(rows).value.group
    decreases |rows|
  {
    if rows != [] {
      var pre := rows[..|rows| - 1];
      RecordedKeys(pre);
      assert forall i :: 0 <= i < |pre| ==> pre[i] == rows[i];
    }
  }

  /** What one row read without an exception adds to each count. */
  lemma {:induction false} AddMeaning(t: Channels.Table, mych: string, c: Counts, x: Row)
    requires Neighbor(t, mych, x).Ok?
    ensures var c' := Add(c, Neighbor(t, mych, x).value);
      c'.nnbr == c.nnbr + (if IsNeighbor(x) then 1 else 0)
      && c'.ncov == c.ncov + (if IsCoverage(x) then 1 else 0)
      && c'.ncoch == c.ncoch + (if CoChannel(t, mych)(x) then 1 else 0)
  {
  }

  /**
   * The counts are the numbers of rows the loop reads (names without ':')
   * heard at SNR 10 or more, at SNR 30 or more, and of those of the first
   * kind whose channel overlaps the AP's own.
   */
  lemma {:induction false} NbrCountsMeaning(t: Channels.Table, mych: string, rows: seq<Row>)
    requires NbrCounts(t, mych, rows).Ok?
    ensures NbrCounts(t, mych, rows).value
      == Counts(Counting.CountIf(rows, IsNeighbor), Counting.CountIf(rows, IsCoverage), Counting.CountIf(rows, CoChannel(t, mych)))
    decreases |rows|
  {
    if rows != [] {
      var pre := rows[..|rows| - 1];
      var x := rows[|rows| - 1];
      NbrCountsMeaning(t, mych, pre);
      var c := NbrCounts(t, mych, pre).value;
      assert NbrCounts(t, mych, rows).value == Add(c, Neighbor(t, mych, x).value);
      AddMeaning(t, mych, c, x);
    }
  }

  /** A neighbour whose name contains ':' changes nothing. */
  lemma {:induction false} ColonIgnored(t: Channels.Table, mych: string, rows: seq<Row>, x: Row)
    requires |x| > 0 && ':' in x[0]
    ensures NbrCounts(t, mych, rows + [x]) == NbrCounts(t, mych, rows)
  {
    assert (rows + [x])[..|rows|] == rows;
  }

  /**
   * The rows kept are those of APs the name pattern accepts and the AP
   * database knows, with its group and model, and every counted row keeps
   * its coverage and co-channel counts within its neighbour count.
   */
  lemma {:induction false} CollectedRows(t: Channels.Table, db: Db, pattern: string -> bool, blocks: seq<Block>)
    requires db.model.Keys == db.group.Keys && Collected(t, db, pattern, blocks).Ok?
    ensures forall row :: row in Collected(t, db, pattern, blocks).value ==>
      pattern(row.apn) && row.apn in db.group && row.group == db.group[row.apn] && row.model == db.model[row.apn]
      && (row.counts.Some? ==> row.counts.value.ncov <= row.counts.value.nnbr && row.counts.value.ncoch <= row.counts.value.nnbr)
    decreases |blocks|
  {
    if blocks != [] {
      var pre := blocks[..|blocks| - 1];
      var b := blocks[|blocks| - 1];
      CollectedRows(t, db, pattern, pre);
      var p := Processed(t, db, pattern, b);
      if p.value.Some? && p.value.value.counts.Some? {
        var tables := AosParser.Parse([ArmCmd] + b.body, [ArmCmd], true).value;
        var tbl := AosQuery.GetTable(tables, ArmCmd, []).value.table;
        assert p.value.value.counts.value == NbrCounts(t, b.ch, tbl[1..]).value;
      }
    }
  }

  /** A block that every closed block of the scan satisfies. */
  ghost predicate BlockOk(lines: seq<string>, b: Block)
  {
    Accepted(b.ch)
    && (exists i :: 0 <= i < |lines| && Header(lines[i]) == Some((b.apn, b.ch)))
    && forall k :: 0 <= k < |b.body| ==> !StartsWith(b.body[k], "Legend: ") && !StartsWith(b.body[k], "AP:")
  }

  ghost predicate ScanOk(lines: seq<string>, s: Scan)
  {
    (forall k :: 0 <= k < |s.closed| ==> BlockOk(lines, s.closed[k]))
    && (s.open ==> BlockOk(lines, Block(s.apn, s.ch, s.body)))
  }

  lemma {:induction false} BlockOkGrows(lines: seq<string>, n: nat, b: Block)
    requires n <= |lines| && BlockOk(lines[..n], b)
    ensures BlockOk(lines, b)
  {
    var i :| 0 <= i < n && Header(lines[..n][i]) == Some((b.apn, b.ch));
    assert lines[i] == lines[..n][i];
  }

  /**
   * Every block handed on was opened by an 'AP:' header of the input whose
   * channel is at least 36 and a multiple of 4, with that header's name
   * and label, and holds no 'Legend: ' or 'AP:' line.
   */
  lemma {:induction false} ScannedBlocks(lines: seq<string>)
    ensures ScanOk(lines, Scanned(lines))
    decreases |lines|
  {
    if lines != [] {
      var n := |lines| - 1;
      var pre := lines[..n];
      var l := lines[n];
      ScannedBlocks(pre);
      var s := Scanned(pre);
      forall k | 0 <= k < |s.closed|
        ensures BlockOk(lines, s.closed[k])
      {
        BlockOkGrows(lines, n, s.closed[k]);
      }
      if s.open {
        BlockOkGrows(lines, n, Block(s.apn, s.ch, s.body));
      }
      if Opens(l) {
        assert lines[n] == l;
        assert BlockOk(lines, Block(Header(l).value.0, Header(l).value.1, []));
      }
      if s.open && !StartsWith(l, "Legend: ") && !StartsWith(l, "AP:") {
        var b := Block(s.apn, s.ch, s.body + [l]);
        assert BlockOk(lines, b);
      }
    }
  }

  /** A line cannot start both 'Legend: ' and 'AP:'. */
  lemma {:induction false} LegendNotHeader(l: string)
    requires StartsWith(l, "Legend: ")
    ensures !StartsWith(l, "AP:")
  {
    assert l[0] == "Legend: "[0];
  }

  /**
   * Every line that opens a block opens exactly one, also when it is the
   * 'AP:' line that closes the block before it: the blocks handed on, and
   * the one still open, are as many as those lines.
   */
  lemma {:induction false} BlockCount(lines: seq<string>)
    ensures |Scanned(lines).closed| + (if Scanned(lines).open then 1 else 0) == Counting.CountIf(lines, Opens)
    decreases |lines|
  {
    if lines != [] {
      var l := lines[|lines| - 1];
      BlockCount(lines[..|lines| - 1]);
      if StartsWith(l, "Legend: ") {
        LegendNotHeader(l);
      }
    }
  }

  lemma {:induction false} ChargesFloors(rows: seq<ApRow>)
    ensures |Charges(rows)| == |Floors(rows)|
    ensures forall i :: 0 <= i < |Floors(rows)| ==> Charges(rows)[i].0 == Floors(rows)[i]
    decreases |rows|
  {
    if rows != [] {
      ChargesFloors(rows[..|rows| - 1]);
    }
  }

  /** Each floor's AP count is the number of counted APs on it. */
  lemma {:induction false} FloorCounts(rows: seq<ApRow>, fl: string)
    ensures Tally.Get(CountersOf(rows).flrctr, fl) == Counting.CountIf(Floors(rows), Tally.Is(fl))
  {
    Tally.CountMeaning(Floors(rows), fl);
  }

  /** The per-floor AP counts add up to `allctr`, the per-floor co-channel counts to `allitf`. */
  lemma {:induction false} FloorSums(rows: seq<ApRow>)
    ensures Tally.SumAt(CountersOf(rows).flrctr, KeepMax.FirstSeen(Tally.Ones(Floors(rows)))) == CountersOf(rows).allctr
    ensures Tally.SumAt(CountersOf(rows).flritf, KeepMax.FirstSeen(Charges(rows))) == CountersOf(rows).allitf
  {
    Tally.CountTotal(Floors(rows));
    Tally.TallyTotal(Charges(rows));
  }

  /** Both floor dicts have the same floors: those of the counted APs. */
  lemma {:induction false} FloorKeys(rows: seq<ApRow>)
    ensures CountersOf(rows).flrctr.Keys == CountersOf(rows).flritf.Keys == set i | 0 <= i < |Floors(rows)| :: Floors(rows)[i]
  {
    var fs := Floors(rows);
    var cs := Charges(rows);
    Tally.TallyMeaning(Tally.Ones(fs));
    Tally.TallyMeaning(cs);
    ChargesFloors(rows);
    forall fl | fl in Tally.Tally(Tally.Ones(fs))
      ensures fl in Tally.Tally(cs) && fl in fs
    {
      var i :| 0 <= i < |fs| && Tally.Ones(fs)[i].0 == fl;
      assert cs[i].0 == fl;
    }
    forall fl | fl in Tally.Tally(cs)
      ensures fl in Tally.Tally(Tally.Ones(fs))
    {
      var i :| 0 <= i < |cs| && cs[i].0 == fl;
      assert Tally.Ones(fs)[i].0 == fl;
    }
    forall i | 0 <= i < |fs|
      ensures fs[i] in Tally.Tally(Tally.Ones(fs))
    {
      assert Tally.Ones(fs)[i].0 == fs[i];
    }
  }

  /**
   * The report lists the rows kept, sorted by lowered name, rows of equal
   * lowered name in the order they were found, and at least one AP was
   * counted.
   */
  lemma {:induction false} ReportOrder(t: Channels.Table, lines: seq<string>, pattern: string -> bool)
    requires ArmStateOf(t, lines, pattern).Ok?
    ensures var db := Database(lines).value;
      var rows := Collected(t, db, pattern, Scanned(Section(lines)).closed).value;
      var rep := ArmStateOf(t, lines, pattern).value;
      Sorting.SortedAsc(rep.rows, NameKey) && multiset(rep.rows) == multiset(rows)
      && (forall k :: Sorting.KeyedBy(rep.rows, NameKey, k) == Sorting.KeyedBy(rows, NameKey, k))
      && rep.counters == CountersOf(rows) && rep.counters.allctr > 0
  {
    var db := Database(lines).value;
    var rows := Collected(t, db, pattern, Scanned(Section(lines)).closed).value;
    Sorting.SortAscProps(rows, NameKey);
  }
}
