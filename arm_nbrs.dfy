/**
 * arm-nbrs.py: from a tech-support log, list for an AP the APs its radio
 * monitors ('show ap monitor ap-list ap-name ...') and its ARM neighbours
 * ('show ap arm neighbors ap-name ...'), coloured by how they relate to the
 * AP's own 5 GHz channel, and name each BSSID after the AP the
 * 'show ap bss-table' output assigns it to.
 *
 * The scanner cuts the log into blocks, one per command; a block is parsed
 * with the table parser of aos_parser.py (`AosParser`) when the next
 * command starts.  The script keeps three globals between blocks: the AP
 * name to own channel map `apn2ch` (written by the monitor list, read by
 * the neighbour list), the BSSID to AP name map `bss2apn` and the flag
 * `bssresolve`.  They and the listings printed so far are the `World`.
 */
module ArmNbrs {
  import opened Wrappers
  import opened Text
  import MonitorRows
  import AosParser
  import AosQuery
  import StableSort
  import Counting
  import KeepMax

  type Row = seq<string>

  /** The command of a monitor-list block, as a pattern of the table parser. */
  const MonCmd := "show ap monitor ap-list .*"
  /** The command of a neighbour block. */
  const NbrCmd := "show ap arm neighbors"
  /** The AP name and own channel the script assumes for an instant AP's plain 'show ap arm neighbors'. */
  const IapName := "APGTS3424A"
  const IapChannel := "36+"
  /** Below this SNR an AP is weak (blue). */
  const WeakSnr := 10
  /** At this SNR or more an AP covers (white). */
  const CovSnr := 25

  /** The exceptions that end the script. */
  datatype Failure =
    | Parser(error: AosParser.ParseError)  // raised inside AOSParser
    | ShortRow                             // IndexError on a table row
    | BadSnr                               // ValueError from int() on the SNR cell
    | NoOwnChannel                         // KeyError: apn2ch[apn] for an AP without a monitor list
    | NoNeighborTable                      // TypeError: tbl[1:] with no neighbour table

  /** The colour a listed row is printed in; Plain is the terminal's own. */
  datatype Colour = Plain | Green | Blue | Yellow | Cyan | Red | Magenta

  /** A printed row: the entry, its colour and the AP name its BSSID resolves to. */
  datatype Shown<E> = Shown(entry: E, colour: Colour, name: string)

  /** An entry of the monitor list: BSSID, ESSID, radio, channel digits, type and SNR. */
  datatype MonEntry = MonEntry(bss: string, ess: string, radio: string, ch: string, kind: string, snr: int)

  /** An ARM neighbour: BSSID, ESSID, channel cell, SNR, EIRP, path loss, flags and the primary channel. */
  datatype NbrEntry = NbrEntry(bss: string, ess: string, ch: string, snr: int, eirp: string, pl: string, flg: string,
                               pch: Option<string>)

  /** What the script prints for one block. */
  datatype Listing =
    | MonList(apn: string, monitored: seq<Shown<MonEntry>>)                       // parse_ap_mon's table
    | NoApList(apn: string)                                                    // "No ap-list found for ..."
    | NbrList(apn: string, mych: string, neighbors: seq<Shown<NbrEntry>>, nintf: nat, cov: nat)  // parse_arm_nbr's table
    | NoBssTable                                                               // "No bss-table found."

  /** The script's globals, and the listings printed so far. */
  datatype World = World(apn2ch: map<string, string>, bss2apn: map<string, string>, resolve: bool, shown: seq<Listing>)

  const Start := World(map[], map[], false, [])

  /** The entries of a printed listing, in printed order. */
  function Entries<E>(rows: seq<Shown<E>>): (es: seq<E>)
    ensures |es| == |rows| && forall i :: 0 <= i < |rows| ==> es[i] == rows[i].entry
  {
    seq(|rows|, i requires 0 <= i < |rows| => rows[i].entry)
  }

  /** `bss[:16]`: the part of a BSSID that the virtual APs of one radio share. */
  function Prefix(bss: string): string
  {
    Slice(bss, 0, 16)
  }

  /**
   * `apnres`: with a bss-table read, the AP name of the BSSID's first 17
   * characters (the defaultdict gives "" for one it does not know);
   * without, "".
   */
  function Resolve(w: World, bss: string): string
  {
    var k := Slice(bss, 0, 17);
    if w.resolve && k in w.bss2apn then w.bss2apn[k] else ""
  }

  // ---------------------------------------------------------------------
  // parse_ap_mon
  // ---------------------------------------------------------------------

  /** `re.match(r'5GHz/(\d+)', radio)`: the channel digits of a 5 GHz radio. */
  function Radio5(radio: string): (r: Option<string>)
    ensures r.Some? ==> r.value != [] && AllDigits(r.value) && StartsWith(radio, "5GHz/" + r.value)
  {
    if StartsWith(radio, "5GHz/") then
      var d := MonitorRows.DigitsEnd(radio, 5);
      assert radio[..d] == "5GHz/" + radio[5..d] by {
        assert radio[..5] == "5GHz/";
      }
      if d > 5 then Some(radio[5..d]) else None
    else None
  }

  /** `bss_set`, `tbl2` and `mych` (None while no own BSSID was seen). */
  datatype MonState = MonState(seen: set<string>, kept: seq<MonEntry>, own: Option<string>)

  /** The entry a readable monitor row becomes. */
  predicate MonReadable(r: Row)
  {
    |r| >= 11 && ParseInt(r[10]).Some?
  }

  function MonEntryOf(r: Row, ch: string): MonEntry
    requires MonReadable(r)
  {
    MonEntry(r[0], r[1], r[2], ch, r[3], ParseInt(r[10]).value)
  }

  /**
   * One monitor row: a 'valid' row whose BSSID prefix was seen is skipped;
   * any other row records its prefix, has its SNR read, and is kept when
   * its radio is 5 GHz; a kept BSSID ending '(+)' is the AP's own, and its
   * channel becomes `mych`.
   */
  function MonStep(st: MonState, r: Row): (res: Result<MonState, Failure>)
  {
    if |r| < 4 then Err(ShortRow)
    else if r[3] == "valid" && Prefix(r[0]) in st.seen then Ok(st)
    else if !MonReadable(r) then (if |r| < 11 then Err(ShortRow) else Err(BadSnr))
    else
      var seen := st.seen + {Prefix(r[0])};
      match Radio5(r[2])
      case None => Ok(st.(seen := seen))
      case Some(ch) =>
        Ok(MonState(seen, st.kept + [MonEntryOf(r, ch)], if EndsWith(r[0], "(+)") then Some(ch) else st.own))
  }

  /** The loop over the monitor rows, stopping at the first exception. */
  function MonRows(rows: seq<Row>): Result<MonState, Failure>
  {
    if rows == [] then Ok(MonState({}, [], None))
    else
      match MonRows(rows[..|rows| - 1])
      case Err(e) => Err(e)
      case Ok(st) => MonStep(st, rows[|rows| - 1])
  }

  /**
   * The colour of a monitor entry: its own BSSID green; then a weak AP
   * blue; then one on the own channel yellow; then one below SNR 25 cyan.
   */
  function MonColour(e: MonEntry, mych: string): (c: Colour)
    ensures c == Green <==> EndsWith(e.bss, "(+)")
    ensures c == Blue ==> e.snr < WeakSnr
    ensures c == Yellow ==> e.snr >= WeakSnr && e.ch == mych
    ensures c == Cyan ==> WeakSnr <= e.snr < CovSnr && e.ch != mych
    ensures c == Plain ==> e.snr >= CovSnr && e.ch != mych
    ensures c in {Plain, Green, Blue, Yellow, Cyan}
  {
    if EndsWith(e.bss, "(+)") then Green
    else if e.snr < WeakSnr then Blue
    else if e.ch == mych then Yellow
    else if e.snr < CovSnr then Cyan
    else Plain
  }

  /** The printed monitor rows: each entry with its colour and resolved name. */
  function MonPainted(w: World, es: seq<MonEntry>, mych: string): (rows: seq<Shown<MonEntry>>)
    ensures Entries(rows) == es
    ensures forall i :: 0 <= i < |rows| ==> rows[i].colour == MonColour(es[i], mych) && rows[i].name == Resolve(w, es[i].bss)
  {
    seq(|es|, i requires 0 <= i < |es| => Shown(es[i], MonColour(es[i], mych), Resolve(w, es[i].bss)))
  }

  function MonSnr(e: MonEntry): int { e.snr }

  /**
   * parse_ap_mon: the first monitor-list table of the block; without one,
   * only the message; with one, the AP's own channel recorded in `apn2ch`
   * when an own BSSID was kept, and the kept entries listed by SNR,
   * loudest first.
   */
  function ApMon(w: World, lines: seq<string>, apn: string): Result<World, Failure>
  {
    match AosParser.Parse(lines, [MonCmd], true)
    case Err(e) => Err(Parser(e))
    case Ok(tables) =>
      match AosQuery.GetTable(tables, MonCmd, [])
      case Some(Whole(tbl)) =>
        (match MonRows(Tail(tbl))
         case Err(e) => Err(e)
         case Ok(st) =>
           var apn2ch := if st.own.Some? then w.apn2ch[apn := st.own.value] else w.apn2ch;
           var mych := if st.own.Some? then st.own.value else "";
           var sorted := StableSort.SortDesc(st.kept, MonSnr);
           Ok(w.(apn2ch := apn2ch, shown := w.shown + [MonList(apn, MonPainted(w, sorted, mych))])))
      case _ => Ok(w.(shown := w.shown + [NoApList(apn)]))
  }

  // ---------------------------------------------------------------------
  // parse_arm_nbr
  // ---------------------------------------------------------------------

  /** `re.match(r'(\d+)', ch)`: the leading digits; None for the script's 0, which equals no channel string. */
  function LeadDigits(ch: string): (r: Option<string>)
    ensures r.Some? ==> r.value != [] && AllDigits(r.value) && StartsWith(ch, r.value)
  {
    var d := MonitorRows.DigitsEnd(ch, 0);
    if d > 0 then Some(ch[..d]) else None
  }

  /** `bss_set` and `tbl2`. */
  datatype NbrState = NbrState(seen: set<string>, kept: seq<NbrEntry>)

  function NbrEntryOf(r: Row): NbrEntry
    requires |r| >= 8 && ParseInt(r[4]).Some?
  {
    NbrEntry(r[0], r[1], r[3], ParseInt(r[4]).value, r[5], r[6], r[7], LeadDigits(r[3]))
  }

  /**
   * One neighbour row: only 5 GHz rows whose flag is not 'Indirect' count,
   * and of those only the first of each BSSID prefix, whatever its type.
   */
  function NbrStep(st: NbrState, r: Row): (res: Result<NbrState, Failure>)
  {
    if |r| < 3 then Err(ShortRow)
    else if r[2] != "5GHz" then Ok(st)
    else if |r| < 8 then Err(ShortRow)
    else if r[7] == "Indirect" || Prefix(r[0]) in st.seen then Ok(st)
    else if ParseInt(r[4]).None? then Err(BadSnr)
    else Ok(NbrState(st.seen + {Prefix(r[0])}, st.kept + [NbrEntryOf(r)]))
  }

  /** The loop over the neighbour rows, stopping at the first exception. */
  function NbrRows(rows: seq<Row>): Result<NbrState, Failure>
  {
    if rows == [] then Ok(NbrState({}, []))
    else
      match NbrRows(rows[..|rows| - 1])
      case Err(e) => Err(e)
      case Ok(st) => NbrStep(st, rows[|rows| - 1])
  }

  /** On the AP's own channel: the primary channel equals `mych`. */
  predicate SameChannel(e: NbrEntry, mych: string)
  {
    e.pch == Some(mych)
  }

  /**
   * The colour of a neighbour: weak blue; then a same-channel AP with
   * EIRP '0' red, any other same-channel AP yellow; then EIRP '0' magenta;
   * then below SNR 25 cyan.
   */
  function NbrColour(e: NbrEntry, mych: string): (c: Colour)
    ensures c == Blue <==> e.snr < WeakSnr
    ensures c == Red <==> e.snr >= WeakSnr && SameChannel(e, mych) && e.eirp == "0"
    ensures c == Yellow <==> e.snr >= WeakSnr && SameChannel(e, mych) && e.eirp != "0"
    ensures c == Magenta <==> e.snr >= WeakSnr && !SameChannel(e, mych) && e.eirp == "0"
    ensures c == Cyan <==> WeakSnr <= e.snr < CovSnr && !SameChannel(e, mych) && e.eirp != "0"
    ensures c == Plain <==> e.snr >= CovSnr && !SameChannel(e, mych) && e.eirp != "0"
    ensures c != Green
  {
    if e.snr < WeakSnr then Blue
    else if SameChannel(e, mych) && e.eirp == "0" then Red
    else if SameChannel(e, mych) then Yellow
    else if e.eirp == "0" then Magenta
    else if e.snr < CovSnr then Cyan
    else Plain
  }

  function NbrPainted(w: World, es: seq<NbrEntry>, mych: string): (rows: seq<Shown<NbrEntry>>)
    ensures Entries(rows) == es
    ensures forall i :: 0 <= i < |rows| ==> rows[i].colour == NbrColour(es[i], mych) && rows[i].name == Resolve(w, es[i].bss)
  {
    seq(|es|, i requires 0 <= i < |es| => Shown(es[i], NbrColour(es[i], mych), Resolve(w, es[i].bss)))
  }

  /** `nintf` and `cov` after the colouring loop: a yellow row counts as co-channel, and covers at SNR 25; a plain row covers. */
  function Tallied(es: seq<NbrEntry>, mych: string): (nat, nat)
  {
    if es == [] then (0, 0)
    else
      var t := Tallied(es[..|es| - 1], mych);
      var e := es[|es| - 1];
      var c := NbrColour(e, mych);
      (t.0 + (if c == Yellow then 1 else 0), t.1 + (if (c == Yellow && e.snr >= CovSnr) || c == Plain then 1 else 0))
  }

  function NbrSnr(e: NbrEntry): int { e.snr }

  /**
   * parse_arm_nbr: the AP's own channel must be known (KeyError) and the
   * block must hold a neighbour table (TypeError); the kept neighbours are
   * listed by SNR, loudest first, and counted.
   */
  function ArmNbr(w: World, lines: seq<string>, apn: string): Result<World, Failure>
  {
    match AosParser.Parse(lines, [NbrCmd], true)
    case Err(e) => Err(Parser(e))
    case Ok(tables) =>
      if apn !in w.apn2ch then Err(NoOwnChannel)
      else
        var mych := w.apn2ch[apn];
        match AosQuery.GetTable(tables, NbrCmd, [])
        case Some(Whole(tbl)) =>
          (match NbrRows(Tail(tbl))
           case Err(e) => Err(e)
           case Ok(st) =>
             var sorted := StableSort.SortDesc(st.kept, NbrSnr);
             var t := Tallied(sorted, mych);
             Ok(w.(shown := w.shown + [NbrList(apn, mych, NbrPainted(w, sorted, mych), t.0, t.1)])))
        case _ => Err(NoNeighborTable)
  }

  // ---------------------------------------------------------------------
  // parse_bss_tbl
  // ---------------------------------------------------------------------

  /** `bss2apn[r[0]] = r[8]` for every row, stopping at a short row. */
  function BssRows(m: map<string, string>, rows: seq<Row>): Result<map<string, string>, Failure>
  {
    if rows == [] then Ok(m)
    else
      match BssRows(m, rows[..|rows| - 1])
      case Err(e) => Err(e)
      case Ok(m') =>
        var r := rows[|rows| - 1];
        if |r| < 9 then Err(ShortRow) else Ok(m'[r[0] := r[8]])
  }

  /** parse_bss_tbl: the first bss-table of the block fills `bss2apn` and turns name resolution on. */
  function BssTbl(w: World, lines: seq<string>): Result<World, Failure>
  {
    match AosParser.Parse(lines, [AosParser.AP_BSS_TABLE], true)
    case Err(e) => Err(Parser(e))
    case Ok(tables) =>
      match AosQuery.GetTable(tables, AosParser.AP_BSS_TABLE, [])
      case Some(Whole(tbl)) =>
        (match BssRows(w.bss2apn, Tail(tbl))
         case Err(e) => Err(e)
         case Ok(m) => Ok(w.(bss2apn := m, resolve := true)))
      case _ => Ok(w.(shown := w.shown + [NoBssTable]))
  }

  // ---------------------------------------------------------------------
  // The block scanner
  // ---------------------------------------------------------------------

  /** `cont`: 1, 2 and 3. */
  datatype Kind = ApList | ArmNbrs | BssTable

  /** The commands that open a block, with the AP name they give. */
  datatype Opener = OpenMon(apn: string) | OpenNbr(apn: string) | OpenBss | OpenIap

  /** The end of the run of spaces from `i`. */
  function SpacesEnd(l: string, i: nat): (e: nat)
    requires i <= |l|
    ensures i <= e <= |l| && (e == |l| || l[e] != ' ') && forall k :: i <= k < e ==> l[k] == ' '
    decreases |l| - i
  {
    if i < |l| && l[i] == ' ' then SpacesEnd(l, i + 1) else i
  }

  /** `key +ap-name "([\w-]+)"` matched at `p`: the quoted AP name. */
  function NamedAt(l: string, key: string, p: nat): (r: Option<string>)
    ensures r.Some? ==> r.value != [] && forall k :: 0 <= k < |r.value| ==> MonitorRows.IsWord(r.value[k], true)
  {
    if p + |key| <= |l| && l[p..p + |key|] == key then
      var q := p + |key|;
      var e := SpacesEnd(l, q);
      if e > q && e + 9 <= |l| && l[e..e + 9] == "ap-name \"" then
        var n := MonitorRows.WordEnd(l, e + 9, true);
        MonitorRows.WordEndRun(l, e + 9, true);
        if n > e + 9 && n < |l| && l[n] == '"' then Some(l[e + 9..n]) else None
      else None
    else None
  }

  /** `re.search`: the match at the leftmost position from `p` on. */
  function NamedSearch(l: string, key: string, p: nat): (r: Option<string>)
    ensures r.Some? ==> exists q :: p <= q <= |l| && NamedAt(l, key, q) == r
    ensures r.None? ==> forall q :: p <= q <= |l| ==> NamedAt(l, key, q).None?
    decreases |l| + 1 - p
  {
    if p > |l| then None
    else if NamedAt(l, key, p).Some? then NamedAt(l, key, p)
    else NamedSearch(l, key, p + 1)
  }

  /** `show ap bss-table[\r\n ]*$` matched at `p`. */
  predicate BssAt(l: string, p: nat)
  {
    var key := "show ap bss-table";
    p + |key| <= |l| && l[p..p + |key|] == key && forall k :: p + |key| <= k < |l| ==> l[k] in {' ', '\r', '\n'}
  }

  function BssSearch(l: string, p: nat): (b: bool)
    ensures b <==> exists q :: p <= q <= |l| && BssAt(l, q)
    decreases |l| + 1 - p
  {
    if p > |l| then false else BssAt(l, p) || BssSearch(l, p + 1)
  }

  /** A line examined while no block is open: only those starting 'show ' or 'COMMAND' are. */
  function OpenerOf(l: string): (r: Option<Opener>)
    ensures r.Some? ==> StartsWith(l, "show ") || StartsWith(l, "COMMAND")
  {
    if !(StartsWith(l, "show ") || StartsWith(l, "COMMAND")) then None
    else if NamedSearch(l, "show ap monitor ap-list", 0).Some? then Some(OpenMon(NamedSearch(l, "show ap monitor ap-list", 0).value))
    else if NamedSearch(l, NbrCmd, 0).Some? then Some(OpenNbr(NamedSearch(l, NbrCmd, 0).value))
    else if BssSearch(l, 0) then Some(OpenBss)
    else if Contains(l, NbrCmd) then Some(OpenIap)
    else None
  }

  /** A block handed to a parse function: its kind, the AP name at the time, and `out` (the command line first). */
  datatype Block = Block(kind: Kind, apn: string, lines: seq<string>)

  /** What the scanner hands on: the instant AP's channel written into `apn2ch`, or a finished block. */
  datatype Event = Pin | Dispatch(block: Block)

  /** `cont` (None for 0), `apn`, `out`, and the events so far. */
  datatype Scan = Scan(cont: Option<Kind>, apn: string, out: seq<string>, events: seq<Event>)

  const Idle := Scan(None, "", [], [])

  /** A line that ends an open block. */
  predicate Ends(l: string)
  {
    StartsWith(l, "show ") || StartsWith(l, "Neighbor Summary")
  }

  /** With no block open: a command line opens one. */
  function Look(s: Scan, l: string): (r: Scan)
    ensures s.events <= r.events
  {
    match OpenerOf(l)
    case None => s
    case Some(OpenMon(a)) => s.(cont := Some(ApList), apn := a, out := [l])
    case Some(OpenNbr(a)) => s.(cont := Some(ArmNbrs), apn := a, out := [l])
    case Some(OpenBss) => s.(cont := Some(BssTable), out := [l])
    case Some(OpenIap) => Scan(Some(ArmNbrs), IapName, [l], s.events + [Pin])
  }

  function Close(s: Scan): Scan
    requires s.cont.Some?
  {
    s.(cont := None, events := s.events + [Dispatch(Block(s.cont.value, s.apn, s.out))])
  }

  /**
   * One line: with a block open, a line starting 'show ' or
   * 'Neighbor Summary' closes it and is then examined itself; any other
   * line joins it.
   */
  function Step(s: Scan, l: string): (r: Scan)
    ensures s.events <= r.events
  {
    if s.cont.Some? && Ends(l) then Look(Close(s), l)
    else if s.cont.Some? then s.(out := s.out + [l])
    else Look(s, l)
  }

  function Scanned(lines: seq<string>): Scan
  {
    if lines == [] then Idle else Step(Scanned(lines[..|lines| - 1]), lines[|lines| - 1])
  }

  /** One event applied to the globals. */
  function Apply(w: World, ev: Event): Result<World, Failure>
  {
    match ev
    case Pin => Ok(w.(apn2ch := w.apn2ch[IapName := IapChannel]))
    case Dispatch(b) =>
      match b.kind
      case ApList => ApMon(w, b.lines, b.apn)
      case ArmNbrs => ArmNbr(w, b.lines, b.apn)
      case BssTable => BssTbl(w, b.lines)
  }

  /** The events in turn, stopping at the first exception. */
  function Applied(w: World, evs: seq<Event>): Result<World, Failure>
  {
    if evs == [] then Ok(w)
    else
      match Applied(w, evs[..|evs| - 1])
      case Err(e) => Err(e)
      case Ok(w') => Apply(w', evs[|evs| - 1])
  }

  /** The whole script over the lines of its input files; a block still open at the end is never parsed. */
  function ArmNbrsOf(lines: seq<string>): Result<World, Failure>
  {
    Applied(Start, Scanned(lines).events)
  }

  // ---------------------------------------------------------------------
  // The script's loops
  // ---------------------------------------------------------------------

  /** The loop of parse_ap_mon over the table rows. */
  method KeepMonitor(rows: seq<Row>) returns (r: Result<MonState, Failure>)
    ensures r == MonRows(rows)
  {
    var seen: set<string> := {};
    var kept: seq<MonEntry> := [];
    var own: Option<string> := None;
    for i := 0 to |rows|
      invariant MonRows(rows[..i]) == Ok(MonState(seen, kept, own))
    {
      var x := rows[i];
      assert rows[..i + 1][..i] == rows[..i];
      if |x| < 4 {
        MonRowsSticks(rows, i + 1);
        return Err(ShortRow);
      }
      if x[3] == "valid" && Prefix(x[0]) in seen {
        continue;
      }
      if |x| < 11 || ParseInt(x[10]).None? {
        MonRowsSticks(rows, i + 1);
        return if |x| < 11 then Err(ShortRow) else Err(BadSnr);
      }
      seen := seen + {Prefix(x[0])};
      var ch := Radio5(x[2]);
      if ch.None? {
        continue;
      }
      if EndsWith(x[0], "(+)") {
        own := ch;
      }
      kept := kept + [MonEntry(x[0], x[1], x[2], ch.value, x[3], ParseInt(x[10]).value)];
    }
    assert rows[..|rows|] == rows;
    return Ok(MonState(seen, kept, own));
  }

  /** The colouring loop of parse_ap_mon. */
  method PaintMonitor(w: World, es: seq<MonEntry>, mych: string) returns (rows: seq<Shown<MonEntry>>)
    ensures rows == MonPainted(w, es, mych)
  {
    rows := [];
    for i := 0 to |es|
      invariant rows == MonPainted(w, es[..i], mych)
    {
      rows := rows + [Shown(es[i], MonColour(es[i], mych), Resolve(w, es[i].bss))];
    }
    assert es[..|es|] == es;
  }

  /** parse_ap_mon. */
  method ParseApMon(w: World, lines: seq<string>, apn: string) returns (r: Result<World, Failure>)
    ensures r == ApMon(w, lines, apn)
  {
    var aos := new AosParser.AOSParser(lines, [MonCmd], true);
    if aos.failure.Some? {
      return Err(Parser(aos.failure.value));
    }
    var v := AosQuery.GetTable(aos.tables, MonCmd, []);
    if !(v.Some? && v.value.Whole?) {
      return Ok(w.(shown := w.shown + [NoApList(apn)]));
    }
    var st := KeepMonitor(Tail(v.value.table));
    if st.Err? {
      return Err(st.error);
    }
    var apn2ch := w.apn2ch;
    var mych := "";
    if st.value.own.Some? {
      mych := st.value.own.value;
      apn2ch := apn2ch[apn := mych];
    }
    var sorted := StableSort.SortBy(st.value.kept, MonSnr);
    var shown := PaintMonitor(w, sorted, mych);
    return Ok(w.(apn2ch := apn2ch, shown := w.shown + [MonList(apn, shown)]));
  }

  /** The loop of parse_arm_nbr over the table rows. */
  method KeepNeighbors(rows: seq<Row>) returns (r: Result<NbrState, Failure>)
    ensures r == NbrRows(rows)
  {
    var seen: set<string> := {};
    var kept: seq<NbrEntry> := [];
    for i := 0 to |rows|
      invariant NbrRows(rows[..i]) == Ok(NbrState(seen, kept))
    {
      var x := rows[i];
      assert rows[..i + 1][..i] == rows[..i];
      if |x| < 3 {
        NbrRowsSticks(rows, i + 1);
        return Err(ShortRow);
      }
      if x[2] != "5GHz" {
        continue;
      }
      if |x| < 8 {
        NbrRowsSticks(rows, i + 1);
        return Err(ShortRow);
      }
      if x[7] == "Indirect" || Prefix(x[0]) in seen {
        continue;
      }
      var snr := ParseInt(x[4]);
      if snr.None? {
        NbrRowsSticks(rows, i + 1);
        return Err(BadSnr);
      }
      seen := seen + {Prefix(x[0])};
      kept := kept + [NbrEntry(x[0], x[1], x[3], snr.value, x[5], x[6], x[7], LeadDigits(x[3]))];
    }
    assert rows[..|rows|] == rows;
    return Ok(NbrState(seen, kept));
  }

  /** The colouring loop of parse_arm_nbr, with its two counters. */
  method PaintNeighbors(w: World, es: seq<NbrEntry>, mych: string) returns (rows: seq<Shown<NbrEntry>>, nintf: nat, cov: nat)
    ensures rows == NbrPainted(w, es, mych)
    ensures (nintf, cov) == Tallied(es, mych)
  {
    rows, nintf, cov := [], 0, 0;
    for i := 0 to |es|
      invariant rows == NbrPainted(w, es[..i], mych)
      invariant (nintf, cov) == Tallied(es[..i], mych)
    {
      var e := es[i];
      var c := NbrColour(e, mych);
      PaintedStep(w, es, mych, i);
      nintf, cov := Count(nintf, cov, e, c);
      rows := rows + [Shown(e, c, Resolve(w, e.bss))];
    }
    assert es[..|es|] == es;
  }

  /** The counter updates of one coloured neighbour. */
  method Count(nintf: nat, cov: nat, e: NbrEntry, c: Colour) returns (nintf': nat, cov': nat)
    ensures nintf' == nintf + (if c == Yellow then 1 else 0)
    ensures cov' == cov + (if (c == Yellow && e.snr >= CovSnr) || c == Plain then 1 else 0)
  {
    nintf', cov' := nintf, cov;
    if c == Yellow {
      nintf' := nintf' + 1;
      if e.snr >= CovSnr {
        cov' := cov' + 1;
      }
    } else if c == Plain {
      cov' := cov' + 1;
    }
  }

  /** parse_arm_nbr. */
  method ParseArmNbr(w: World, lines: seq<string>, apn: string) returns (r: Result<World, Failure>)
    ensures r == ArmNbr(w, lines, apn)
  {
    var aos := new AosParser.AOSParser(lines, [NbrCmd], true);
    if aos.failure.Some? {
      return Err(Parser(aos.failure.value));
    }
    var v := AosQuery.GetTable(aos.tables, NbrCmd, []);
    if apn !in w.apn2ch {
      return Err(NoOwnChannel);
    }
    var mych := w.apn2ch[apn];
    if !(v.Some? && v.value.Whole?) {
      return Err(NoNeighborTable);
    }
    var st := KeepNeighbors(Tail(v.value.table));
    if st.Err? {
      return Err(st.error);
    }
    var sorted := StableSort.SortBy(st.value.kept, NbrSnr);
    var shown, nintf, cov := PaintNeighbors(w, sorted, mych);
    return Ok(w.(shown := w.shown + [NbrList(apn, mych, shown, nintf, cov)]));
  }

  /** parse_bss_tbl. */
  method ParseBssTbl(w: World, lines: seq<string>) returns (r: Result<World, Failure>)
    ensures r == BssTbl(w, lines)
  {
    var aos := new AosParser.AOSParser(lines, [AosParser.AP_BSS_TABLE], true);
    if aos.failure.Some? {
      return Err(Parser(aos.failure.value));
    }
    var v := AosQuery.GetTable(aos.tables, AosParser.AP_BSS_TABLE, []);
    if !(v.Some? && v.value.Whole?) {
      return Ok(w.(shown := w.shown + [NoBssTable]));
    }
    var rows := Tail(v.value.table);
    var m := w.bss2apn;
    for i := 0 to |rows|
      invariant BssRows(w.bss2apn, rows[..i]) == Ok(m)
    {
      var x := rows[i];
      assert rows[..i + 1][..i] == rows[..i];
      if |x| < 9 {
        BssRowsSticks(w.bss2apn, rows, i + 1);
        return Err(ShortRow);
      }
      m := m[x[0] := x[8]];
    }
    assert rows[..|rows|] == rows;
    return Ok(w.(bss2apn := m, resolve := true));
  }

  /** The opener tests of the main loop, in order. */
  method ReadOpener(l: string) returns (op: Option<Opener>)
    ensures op == OpenerOf(l)
  {
    if !(StartsWith(l, "show ") || StartsWith(l, "COMMAND")) {
      return None;
    }
    var m := NamedSearch(l, "show ap monitor ap-list", 0);
    if m.Some? {
      return Some(OpenMon(m.value));
    }
    m := NamedSearch(l, NbrCmd, 0);
    if m.Some? {
      return Some(OpenNbr(m.value));
    }
    if BssSearch(l, 0) {
      return Some(OpenBss);
    }
    if Contains(l, NbrCmd) {
      return Some(OpenIap);
    }
    return None;
  }

  /** A finished block handed to its parse function. */
  method ParseBlock(w: World, b: Block) returns (r: Result<World, Failure>)
    ensures r == Apply(w, Dispatch(b))
  {
    match b.kind
    case ApList => r := ParseApMon(w, b.lines, b.apn);
    case ArmNbrs => r := ParseArmNbr(w, b.lines, b.apn);
    case BssTable => r := ParseBssTbl(w, b.lines);
  }

  /** A line that ends the open block: the block is parsed at once. */
  method CloseBlock(s: Scan, w: World) returns (s': Scan, r: Result<World, Failure>)
    requires s.cont.Some? && Applied(Start, s.events) == Ok(w)
    ensures s' == Close(s)
    ensures r == Applied(Start, s'.events)
  {
    var b := Block(s.cont.value, s.apn, s.out);
    r := ParseBlock(w, b);
    s' := s.(cont := None, events := s.events + [Dispatch(b)]);
    assert s'.events[..|s'.events| - 1] == s.events;
  }

  /** With no block open: the opener tests, and the pin of the instant AP's channel at its open. */
  method Open(s: Scan, w: World, l: string) returns (s': Scan, w': World)
    requires Applied(Start, s.events) == Ok(w)
    ensures s' == Look(s, l)
    ensures Applied(Start, s'.events) == Ok(w')
  {
    s', w' := s, w;
    var op := ReadOpener(l);
    match op
    case None =>
    case Some(OpenMon(a)) =>
      s' := s.(cont := Some(ApList), apn := a, out := [l]);
    case Some(OpenNbr(a)) =>
      s' := s.(cont := Some(ArmNbrs), apn := a, out := [l]);
    case Some(OpenBss) =>
      s' := s.(cont := Some(BssTable), out := [l]);
    case Some(OpenIap) =>
      s' := Scan(Some(ArmNbrs), IapName, [l], s.events + [Pin]);
      w' := w.(apn2ch := w.apn2ch[IapName := IapChannel]);
      assert s'.events[..|s'.events| - 1] == s.events;
  }

  /**
   * The main loop: each line closes, joins or opens a block; a closed block
   * is parsed at once, and the first exception ends the script.
   */
  method Run(lines: seq<string>) returns (r: Result<World, Failure>)
    ensures r == ArmNbrsOf(lines)
  {
    var w := Start;
    var s := Idle;
    for i := 0 to |lines|
      invariant Scanned(lines[..i]) == s
      invariant Applied(Start, s.events) == Ok(w)
    {
      var l := lines[i];
      assert lines[..i + 1][..i] == lines[..i];
      if s.cont.Some? && Ends(l) {
        var res;
        s, res := CloseBlock(s, w);
        if res.Err? {
          assert Scanned(lines[..i + 1]) == Look(s, l);
          AppliedStops(lines, i + 1, s.events);
          return Err(res.error);
        }
        w := res.value;
      } else if s.cont.Some? {
        s := s.(out := s.out + [l]);
        continue;
      }
      s, w := Open(s, w, l);
    }
    assert lines[..|lines|] == lines;
    return Ok(w);
  }

  // ---------------------------------------------------------------------
  // Lemmas
  // ---------------------------------------------------------------------

  lemma {:induction false} MonRowsSticks(rows: seq<Row>, i: nat)
    requires i <= |rows| && MonRows(rows[..i]).Err?
    ensures MonRows(rows) == MonRows(rows[..i])
    decreases |rows| - i
  {
    if i < |rows| {
      assert rows[..i + 1][..i] == rows[..i];
      MonRowsSticks(rows, i + 1);
    } else {
      assert rows[..i] == rows;
    }
  }

  lemma {:induction false} NbrRowsSticks(rows: seq<Row>, i: nat)
    requires i <= |rows| && NbrRows(rows[..i]).Err?
    ensures NbrRows(rows) == NbrRows(rows[..i])
    decreases |rows| - i
  {
    if i < |rows| {
      assert rows[..i + 1][..i] == rows[..i];
      NbrRowsSticks(rows, i + 1);
    } else {
      assert rows[..i] == rows;
    }
  }

  lemma {:induction false} BssRowsSticks(m: map<string, string>, rows: seq<Row>, i: nat)
    requires i <= |rows| && BssRows(m, rows[..i]).Err?
    ensures BssRows(m, rows) == BssRows(m, rows[..i])
    decreases |rows| - i
  {
    if i < |rows| {
      assert rows[..i + 1][..i] == rows[..i];
      BssRowsSticks(m, rows, i + 1);
    } else {
      assert rows[..i] == rows;
    }
  }

  lemma {:induction false} AppliedSticks(w: World, evs: seq<Event>, i: nat)
    requires i <= |evs| && Applied(w, evs[..i]).Err?
    ensures Applied(w, evs) == Applied(w, evs[..i])
    decreases |evs| - i
  {
    if i < |evs| {
      assert evs[..i + 1][..i] == evs[..i];
      AppliedSticks(w, evs, i + 1);
    } else {
      assert evs[..i] == evs;
    }
  }

  /** One more neighbour coloured and counted. */
  lemma {:induction false} PaintedStep(w: World, es: seq<NbrEntry>, mych: string, i: nat)
    requires i < |es|
    ensures NbrPainted(w, es[..i + 1], mych) == NbrPainted(w, es[..i], mych) + [Shown(es[i], NbrColour(es[i], mych), Resolve(w, es[i].bss))]
    ensures var t := Tallied(es[..i], mych); var c := NbrColour(es[i], mych);
      Tallied(es[..i + 1], mych) == (t.0 + (if c == Yellow then 1 else 0), t.1 + (if (c == Yellow && es[i].snr >= CovSnr) || c == Plain then 1 else 0))
  {
    assert es[..i + 1][..i] == es[..i];
  }

  /** The scanner only ever appends events: those of a prefix of the lines come first. */
  lemma {:induction false} ScannedPrefix(lines: seq<string>, i: nat)
    requires i <= |lines|
    ensures Scanned(lines[..i]).events <= Scanned(lines).events
    decreases |lines| - i
  {
    if i < |lines| {
      assert lines[..i + 1][..i] == lines[..i];
      ScannedPrefix(lines, i + 1);
    } else {
      assert lines[..i] == lines;
    }
  }

  /** An exception raised for a block ends the whole script with it. */
  lemma {:induction false} AppliedStops(lines: seq<string>, i: nat, pre: seq<Event>)
    requires i <= |lines| && pre <= Scanned(lines[..i]).events && Applied(Start, pre).Err?
    ensures ArmNbrsOf(lines) == Applied(Start, pre)
  {
    ScannedPrefix(lines, i);
    var all := Scanned(lines).events;
    assert all[..|pre|] == pre;
    AppliedSticks(Start, all, |pre|);
  }

  // ---------------------------------------------------------------------
  // What the monitor list keeps
  // ---------------------------------------------------------------------

  lemma {:induction false} MonRowsLast(rows: seq<Row>)
    requires rows != [] && MonRows(rows).Ok?
    ensures MonRows(rows[..|rows| - 1]).Ok? && MonRows(rows) == MonStep(MonRows(rows[..|rows| - 1]).value, rows[|rows| - 1])
  {
  }

  /** What one monitor row that raises nothing does to the state, in terms of the row alone. */
  ghost predicate MonStepped(st: MonState, st': MonState, r: Row)
  {
    |r| >= 4 && st'.seen == st.seen + {Prefix(r[0])}
    && ((st'.kept == st.kept && st'.own == st.own)
        || (MonReadable(r) && Radio5(r[2]).Some?
            && st'.kept == st.kept + [MonEntryOf(r, Radio5(r[2]).value)]
            && st'.own == (if EndsWith(r[0], "(+)") then Some(Radio5(r[2]).value) else st.own)
            && (r[3] == "valid" ==> Prefix(r[0]) !in st.seen)))
  }

  lemma {:induction false} MonStepOk(st: MonState, r: Row)
    requires MonStep(st, r).Ok?
    ensures MonStepped(st, MonStep(st, r).value, r)
    ensures r[3] != "valid" && Radio5(r[2]).Some? ==>
      MonReadable(r) && MonStep(st, r).value.kept == st.kept + [MonEntryOf(r, Radio5(r[2]).value)]
  {
  }

  lemma {:induction false} NbrRowsLast(rows: seq<Row>)
    requires rows != [] && NbrRows(rows).Ok?
    ensures NbrRows(rows[..|rows| - 1]).Ok? && NbrRows(rows) == NbrStep(NbrRows(rows[..|rows| - 1]).value, rows[|rows| - 1])
  {
  }

  /** What one neighbour row that raises nothing does to the state, in terms of the row alone. */
  ghost predicate NbrStepped(st: NbrState, st': NbrState, r: Row)
  {
    |r| >= 3 && (r[2] == "5GHz" ==> |r| >= 8)
    && (st' == st || (|r| >= 8 && r[2] == "5GHz" && r[7] != "Indirect" && Prefix(r[0]) !in st.seen && ParseInt(r[4]).Some?
                      && st' == NbrState(st.seen + {Prefix(r[0])}, st.kept + [NbrEntryOf(r)])))
    && (|r| >= 8 && r[2] == "5GHz" && r[7] != "Indirect" ==> Prefix(r[0]) in st'.seen)
  }

  lemma {:induction false} NbrStepOk(st: NbrState, r: Row)
    requires NbrStep(st, r).Ok?
    ensures NbrStepped(st, NbrStep(st, r).value, r)
  {
  }

  /** Entry `i` is the last kept one whose BSSID ends '(+)'. */
  ghost predicate LastOwn(kept: seq<MonEntry>, i: nat)
  {
    i < |kept| && EndsWith(kept[i].bss, "(+)") && forall j :: i < j < |kept| ==> !EndsWith(kept[j].bss, "(+)")
  }

  /** `own` is the channel of the last kept entry whose BSSID ends '(+)', and unset when there is none. */
  ghost predicate OwnOk(st: MonState)
  {
    (st.own.None? <==> forall j :: 0 <= j < |st.kept| ==> !EndsWith(st.kept[j].bss, "(+)"))
    && (st.own.Some? ==> exists i: nat :: LastOwn(st.kept, i) && st.own.value == st.kept[i].ch)
  }

  lemma {:induction false} OwnStep(st0: MonState, st: MonState, r: Row)
    requires OwnOk(st0) && MonStepped(st0, st, r)
    ensures OwnOk(st)
  {
    if st.kept != st0.kept {
      var ch := Radio5(r[2]).value;
      var n := |st0.kept|;
      assert st.kept[n] == MonEntryOf(r, ch);
      if EndsWith(r[0], "(+)") {
        assert LastOwn(st.kept, n);
      } else {
        assert st.own == st0.own;
        assert forall j :: 0 <= j < n ==> st.kept[j] == st0.kept[j];
        if st0.own.Some? {
          var i: nat :| LastOwn(st0.kept, i) && st0.own.value == st0.kept[i].ch;
          assert LastOwn(st.kept, i);
        }
      }
    } else {
      assert st.own == st0.own;
    }
  }

  /**
   * `mych` is the channel of the last kept entry whose BSSID ends '(+)',
   * and stays unset when there is none.
   */
  lemma {:induction false} MonOwnLast(rows: seq<Row>)
    requires MonRows(rows).Ok?
    ensures var st := MonRows(rows).value;
      st.own.None? <==> forall j :: 0 <= j < |st.kept| ==> !EndsWith(st.kept[j].bss, "(+)")
    ensures var st := MonRows(rows).value;
      st.own.Some? ==> exists i: nat :: LastOwn(st.kept, i) && st.own.value == st.kept[i].ch
    decreases |rows|
  {
    if rows != [] {
      var pre := rows[..|rows| - 1];
      MonRowsLast(rows);
      MonOwnLast(pre);
      MonStepOk(MonRows(pre).value, rows[|rows| - 1]);
      OwnStep(MonRows(pre).value, MonRows(rows).value, rows[|rows| - 1]);
    }
  }

  /**
   * Every row's BSSID prefix is recorded, whether the row was kept, skipped
   * as a repeated 'valid' entry, or read and left out for not being 5 GHz;
   * nothing else is recorded, and every kept entry's prefix is.
   */
  ghost predicate SeenOk(rows: seq<Row>, st: MonState)
  {
    (forall i :: 0 <= i < |rows| ==> |rows[i]| >= 4 && Prefix(rows[i][0]) in st.seen)
    && (forall k :: k in st.seen ==> exists i :: 0 <= i < |rows| && |rows[i]| > 0 && k == Prefix(rows[i][0]))
    && KeptSeen(st)
  }

  /** Every kept entry's BSSID prefix is recorded. */
  ghost predicate KeptSeen(st: MonState)
  {
    forall e :: e in st.kept ==> Prefix(e.bss) in st.seen
  }

  lemma {:induction false} SeenStep(rows: seq<Row>, st0: MonState, st: MonState)
    requires rows != [] && SeenOk(rows[..|rows| - 1], st0) && MonStepped(st0, st, rows[|rows| - 1])
    ensures SeenOk(rows, st)
  {
    var pre := rows[..|rows| - 1];
    assert rows == pre + [rows[|rows| - 1]];
    SeenAppend(rows, pre, rows[|rows| - 1], st0, st);
  }

  lemma {:induction false} SeenAppend(rows: seq<Row>, pre: seq<Row>, r: Row, st0: MonState, st: MonState)
    requires rows == pre + [r] && SeenOk(pre, st0) && MonStepped(st0, st, r)
    ensures SeenOk(rows, st)
  {
    forall i | 0 <= i < |rows|
      ensures |rows[i]| >= 4 && Prefix(rows[i][0]) in st.seen
    {
      if i < |pre| {
        assert rows[i] == pre[i];
      }
    }
    forall k | k in st.seen
      ensures exists i :: 0 <= i < |rows| && |rows[i]| > 0 && k == Prefix(rows[i][0])
    {
      if k in st0.seen {
        var i :| 0 <= i < |pre| && |pre[i]| > 0 && k == Prefix(pre[i][0]);
        assert rows[i] == pre[i];
      } else {
        assert rows[|pre|] == r;
      }
    }
  }

  /**
   * Every row's BSSID prefix ends up recorded, whether the row was kept,
   * skipped as a repeated 'valid' entry, or read and left out for not
   * being 5 GHz; nothing else is recorded, and every kept entry's prefix is.
   */
  lemma {:induction false} MonSeen(rows: seq<Row>)
    requires MonRows(rows).Ok?
    ensures SeenOk(rows, MonRows(rows).value)
    decreases |rows|
  {
    if rows != [] {
      var pre := rows[..|rows| - 1];
      MonRowsLast(rows);
      MonSeen(pre);
      MonStepOk(MonRows(pre).value, rows[|rows| - 1]);
      SeenStep(rows, MonRows(pre).value, MonRows(rows).value);
    }
  }

  /** A kept 'valid' entry's BSSID prefix differs from that of every entry kept before it. */
  lemma {:induction false} MonValidFirst(rows: seq<Row>)
    requires MonRows(rows).Ok?
    ensures ValidFirst(MonRows(rows).value.kept)
    decreases |rows|
  {
    if rows != [] {
      var pre := rows[..|rows| - 1];
      MonRowsLast(rows);
      MonValidFirst(pre);
      MonSeen(pre);
      MonStepOk(MonRows(pre).value, rows[|rows| - 1]);
      ValidFirstStep(MonRows(pre).value, MonRows(rows).value, rows[|rows| - 1]);
    }
  }

  /** A kept 'valid' entry's BSSID prefix differs from that of every entry kept before it. */
  ghost predicate ValidFirst(kept: seq<MonEntry>)
  {
    forall i, j :: 0 <= i < j < |kept| && kept[j].kind == "valid" ==> Prefix(kept[i].bss) != Prefix(kept[j].bss)
  }

  lemma {:induction false} ValidFirstStep(st0: MonState, st: MonState, r: Row)
    requires ValidFirst(st0.kept) && KeptSeen(st0) && MonStepped(st0, st, r)
    ensures ValidFirst(st.kept)
  {
    if st.kept != st0.kept {
      var n := |st0.kept|;
      assert st.kept[n] == MonEntryOf(r, Radio5(r[2]).value);
      forall i | 0 <= i < n
        ensures st.kept[i] == st0.kept[i] && Prefix(st0.kept[i].bss) in st0.seen
      {
        assert st0.kept[i] in st0.kept;
      }
    }
  }

  /** Every 5 GHz entry of another type than 'valid' is kept, with its SNR read. */
  lemma {:induction false} MonOthersKept(rows: seq<Row>)
    requires MonRows(rows).Ok?
    ensures forall i :: 0 <= i < |rows| && |rows[i]| >= 4 && rows[i][3] != "valid" && Radio5(rows[i][2]).Some? ==>
      MonReadable(rows[i]) && MonEntryOf(rows[i], Radio5(rows[i][2]).value) in MonRows(rows).value.kept
    decreases |rows|
  {
    if rows != [] {
      var pre := rows[..|rows| - 1];
      var r := rows[|rows| - 1];
      MonRowsLast(rows);
      MonOthersKept(pre);
      var st0 := MonRows(pre).value;
      var st := MonRows(rows).value;
      MonStepOk(st0, r);
      forall i | 0 <= i < |rows| && |rows[i]| >= 4 && rows[i][3] != "valid" && Radio5(rows[i][2]).Some?
        ensures MonReadable(rows[i]) && MonEntryOf(rows[i], Radio5(rows[i][2]).value) in st.kept
      {
        if i < |pre| {
          assert rows[i] == pre[i];
        }
      }
    }
  }

  /**
   * In the listing, sorted by SNR, some row is green exactly when an own
   * BSSID was kept, and then one green row carries `mych`.
   */
  lemma {:induction false} GreenOwn(w: World, kept: seq<MonEntry>, own: Option<string>)
    requires own.None? <==> forall j :: 0 <= j < |kept| ==> !EndsWith(kept[j].bss, "(+)")
    requires own.Some? ==> exists i: nat :: LastOwn(kept, i) && own.value == kept[i].ch
    ensures var rows := MonPainted(w, StableSort.SortDesc(kept, MonSnr), if own.Some? then own.value else "");
      (own.Some? ==> exists i :: 0 <= i < |rows| && rows[i].colour == Green && rows[i].entry.ch == own.value)
      && (own.None? ==> forall i :: 0 <= i < |rows| ==> rows[i].colour != Green)
  {
    var mych := if own.Some? then own.value else "";
    var sorted := StableSort.SortDesc(kept, MonSnr);
    StableSort.SortDescProps(kept, MonSnr);
    var rows := MonPainted(w, sorted, mych);
    if own.Some? {
      var i: nat :| LastOwn(kept, i) && own.value == kept[i].ch;
      assert kept[i] in multiset(sorted);
      var j :| 0 <= j < |sorted| && sorted[j] == kept[i];
      assert rows[j].colour == Green;
    } else {
      forall j | 0 <= j < |rows|
        ensures rows[j].colour != Green
      {
        assert sorted[j] in multiset(kept);
      }
    }
  }

  /** parse_ap_mon adds exactly one listing and changes no other global than `apn2ch[apn]`. */
  lemma {:induction false} ApMonFrame(w: World, lines: seq<string>, apn: string)
    requires ApMon(w, lines, apn).Ok?
    ensures var r := ApMon(w, lines, apn).value;
      r.bss2apn == w.bss2apn && r.resolve == w.resolve && r.shown[..|w.shown|] == w.shown && |r.shown| == |w.shown| + 1
      && (forall k :: k != apn ==> (k in r.apn2ch <==> k in w.apn2ch) && (k in r.apn2ch ==> r.apn2ch[k] == w.apn2ch[k]))
  {
  }

  /**
   * The listing of parse_ap_mon is for this AP and ordered by SNR, loudest
   * first; its green rows are the AP's own BSSIDs; when there is one,
   * `apn2ch[apn]` becomes the channel of a green row, and when there is
   * none `apn2ch` is left as it was.  Without a monitor table the message
   * names the AP and `apn2ch` is left as it was.
   */
  lemma {:induction false} ApMonListing(w: World, lines: seq<string>, apn: string)
    requires ApMon(w, lines, apn).Ok?
    ensures var r := ApMon(w, lines, apn).value; var l := r.shown[|w.shown|];
      l.MonList? ==> (l.apn == apn && StableSort.SortedDesc(Entries(l.monitored), MonSnr)
        && (forall i :: 0 <= i < |l.monitored| ==> (l.monitored[i].colour == Green <==> EndsWith(l.monitored[i].entry.bss, "(+)")))
        && ((exists i :: 0 <= i < |l.monitored| && l.monitored[i].colour == Green) ==>
              apn in r.apn2ch && exists i :: 0 <= i < |l.monitored| && l.monitored[i].colour == Green && l.monitored[i].entry.ch == r.apn2ch[apn])
        && ((forall i :: 0 <= i < |l.monitored| ==> l.monitored[i].colour != Green) ==> r.apn2ch == w.apn2ch))
    ensures var r := ApMon(w, lines, apn).value; var l := r.shown[|w.shown|];
      l.NoApList? ==> l.apn == apn && r.apn2ch == w.apn2ch
  {
    ApMonFrame(w, lines, apn);
    var tables := AosParser.Parse(lines, [MonCmd], true).value;
    var v := AosQuery.GetTable(tables, MonCmd, []);
    if v.Some? && v.value.Whole? {
      var st := MonRows(Tail(v.value.table)).value;
      MonOwnLast(Tail(v.value.table));
      StableSort.SortDescProps(st.kept, MonSnr);
      GreenOwn(w, st.kept, st.own);
    }
  }

  // ---------------------------------------------------------------------
  // What the neighbour list keeps and counts
  // ---------------------------------------------------------------------

  /**
   * The kept neighbours have pairwise different BSSID prefixes, none is
   * 'Indirect', and each carries the leading digits of its channel cell as
   * its primary channel.
   */
  lemma {:induction false} NbrDistinct(rows: seq<Row>)
    requires NbrRows(rows).Ok?
    ensures NbrKeptOk(NbrRows(rows).value)
    decreases |rows|
  {
    if rows != [] {
      var pre := rows[..|rows| - 1];
      NbrRowsLast(rows);
      NbrDistinct(pre);
      NbrStepOk(NbrRows(pre).value, rows[|rows| - 1]);
      DistinctStep(NbrRows(pre).value, NbrRows(rows).value, rows[|rows| - 1]);
    }
  }

  /**
   * The kept neighbours have pairwise different BSSID prefixes, all
   * recorded, none is 'Indirect', and each carries the leading digits of
   * its channel cell as its primary channel.
   */
  ghost predicate NbrKeptOk(st: NbrState)
  {
    (forall e :: e in st.kept ==> Prefix(e.bss) in st.seen && e.flg != "Indirect" && e.pch == LeadDigits(e.ch))
    && forall i, j :: 0 <= i < j < |st.kept| ==> Prefix(st.kept[i].bss) != Prefix(st.kept[j].bss)
  }

  lemma {:induction false} DistinctStep(st0: NbrState, st: NbrState, r: Row)
    requires NbrKeptOk(st0) && NbrStepped(st0, st, r)
    ensures NbrKeptOk(st)
  {
    if st != st0 {
      var n := |st0.kept|;
      assert st.kept[n] == NbrEntryOf(r);
      forall i | 0 <= i < n
        ensures st.kept[i] == st0.kept[i] && Prefix(st0.kept[i].bss) in st0.seen
      {
        assert st0.kept[i] in st0.kept;
      }
    }
  }

  /**
   * Every row must carry a band, and a 5 GHz row its flags; every 5 GHz
   * row that is not 'Indirect' is represented by a kept neighbour of the
   * same BSSID prefix, and only such rows are recorded.
   */
  ghost predicate CoveredOk(rows: seq<Row>, st: NbrState)
  {
    (forall i :: 0 <= i < |rows| ==> |rows[i]| >= 3 && (rows[i][2] == "5GHz" ==> |rows[i]| >= 8))
    && (forall i :: 0 <= i < |rows| && |rows[i]| >= 8 && rows[i][2] == "5GHz" && rows[i][7] != "Indirect" ==>
          Prefix(rows[i][0]) in st.seen)
    && (forall k :: k in st.seen ==> exists e :: e in st.kept && Prefix(e.bss) == k)
  }

  lemma {:induction false} NbrCovered(rows: seq<Row>)
    requires NbrRows(rows).Ok?
    ensures CoveredOk(rows, NbrRows(rows).value)
    decreases |rows|
  {
    if rows != [] {
      var pre := rows[..|rows| - 1];
      NbrRowsLast(rows);
      NbrCovered(pre);
      NbrStepOk(NbrRows(pre).value, rows[|rows| - 1]);
      CoveredStep(rows, NbrRows(pre).value, NbrRows(rows).value);
    }
  }

  lemma {:induction false} CoveredStep(rows: seq<Row>, st0: NbrState, st: NbrState)
    requires rows != [] && CoveredOk(rows[..|rows| - 1], st0) && NbrStepped(st0, st, rows[|rows| - 1])
    ensures CoveredOk(rows, st)
  {
    var pre := rows[..|rows| - 1];
    assert rows == pre + [rows[|rows| - 1]];
    CoveredAppend(rows, pre, rows[|rows| - 1], st0, st);
  }

  lemma {:induction false} CoveredAppend(rows: seq<Row>, pre: seq<Row>, r: Row, st0: NbrState, st: NbrState)
    requires rows == pre + [r] && CoveredOk(pre, st0) && NbrStepped(st0, st, r)
    ensures CoveredOk(rows, st)
  {
    forall i | 0 <= i < |rows|
      ensures |rows[i]| >= 3 && (rows[i][2] == "5GHz" ==> |rows[i]| >= 8)
      ensures |rows[i]| >= 8 && rows[i][2] == "5GHz" && rows[i][7] != "Indirect" ==> Prefix(rows[i][0]) in st.seen
    {
      if i < |pre| {
        assert rows[i] == pre[i];
      }
    }
    if st != st0 {
      forall k | k in st.seen
        ensures exists e :: e in st.kept && Prefix(e.bss) == k
      {
        if k in st0.seen {
          var e :| e in st0.kept && Prefix(e.bss) == k;
          assert e in st.kept;
        } else {
          assert st.kept[|st.kept| - 1] == NbrEntryOf(r);
        }
      }
    }
  }

  /** A neighbour the script counts in `nintf`: heard, on the own channel, and not at EIRP '0'. */
  predicate CoChannel(e: NbrEntry, mych: string)
  {
    e.snr >= WeakSnr && SameChannel(e, mych) && e.eirp != "0"
  }

  function CoChannelWith(mych: string): NbrEntry -> bool
  {
    e => CoChannel(e, mych)
  }

  /** A neighbour the script counts in `cov`: at SNR 25 or more and not at EIRP '0'. */
  predicate Covers(e: NbrEntry)
  {
    e.snr >= CovSnr && e.eirp != "0"
  }

  /**
   * `nintf` counts the co-channel neighbours and `cov` the covering ones,
   * on the own channel or not: the colour tests add up to these plain
   * conditions.
   */
  lemma {:induction false} TalliedCounts(es: seq<NbrEntry>, mych: string)
    ensures Tallied(es, mych) == (Counting.CountIf(es, CoChannelWith(mych)), Counting.CountIf(es, Covers))
    decreases |es|
  {
    if es != [] {
      TalliedCounts(es[..|es| - 1], mych);
    }
  }

  /**
   * parse_arm_nbr adds exactly one listing, for this AP and the channel
   * `apn2ch` holds for it, and changes no global.  The listed neighbours
   * are ordered by SNR, loudest first, and `nintf` and `cov` count the
   * co-channel and the covering ones among them.
   */
  lemma {:induction false} ArmNbrListing(w: World, lines: seq<string>, apn: string)
    requires ArmNbr(w, lines, apn).Ok?
    ensures var r := ArmNbr(w, lines, apn).value;
      apn in w.apn2ch && r.apn2ch == w.apn2ch && r.bss2apn == w.bss2apn && r.resolve == w.resolve
      && r.shown[..|w.shown|] == w.shown && |r.shown| == |w.shown| + 1
    ensures var r := ArmNbr(w, lines, apn).value; var l := r.shown[|w.shown|];
      l.NbrList? && l.apn == apn && l.mych == w.apn2ch[apn] && StableSort.SortedDesc(Entries(l.neighbors), NbrSnr)
      && l.nintf == Counting.CountIf(Entries(l.neighbors), CoChannelWith(l.mych))
      && l.cov == Counting.CountIf(Entries(l.neighbors), Covers)
  {
    var tables := AosParser.Parse(lines, [NbrCmd], true).value;
    var tbl := AosQuery.GetTable(tables, NbrCmd, []).value.table;
    var st := NbrRows(Tail(tbl)).value;
    StableSort.SortDescProps(st.kept, NbrSnr);
    TalliedCounts(StableSort.SortDesc(st.kept, NbrSnr), w.apn2ch[apn]);
  }

  /** The plain digits of a channel cell never equal '36+': an instant AP's neighbours are never co-channel. */
  lemma {:induction false} IapNeverCoChannel(es: seq<NbrEntry>)
    requires forall i :: 0 <= i < |es| ==> es[i].pch == LeadDigits(es[i].ch)
    ensures forall i :: 0 <= i < |es| ==> NbrColour(es[i], IapChannel) != Yellow && NbrColour(es[i], IapChannel) != Red
    ensures Tallied(es, IapChannel).0 == 0
    decreases |es|
  {
    forall i | 0 <= i < |es|
      ensures !SameChannel(es[i], IapChannel)
    {
      var d := LeadDigits(es[i].ch);
      assert !IsDigit(IapChannel[2]);
      assert d.Some? ==> AllDigits(d.value);
    }
    if es != [] {
      IapNeverCoChannel(es[..|es| - 1]);
    }
  }

  // ---------------------------------------------------------------------
  // The bss-table and the scanner
  // ---------------------------------------------------------------------

  /** The (BSSID, AP name) pairs of the bss-table rows. */
  function BssPairs(rows: seq<Row>): (ps: seq<(string, string)>)
    requires forall i :: 0 <= i < |rows| ==> |rows[i]| >= 9
    ensures |ps| == |rows|
  {
    seq(|rows|, i requires 0 <= i < |rows| => (rows[i][0], rows[i][8]))
  }

  /**
   * The bss-table loop fails exactly on a row of fewer than nine cells;
   * otherwise `bss2apn` is the old map overridden by the rows' BSSID and
   * AP name pairs, a later row of a BSSID winning.
   */
  lemma {:induction false} BssRowsMeaning(m: map<string, string>, rows: seq<Row>)
    ensures BssRows(m, rows).Ok? <==> forall i :: 0 <= i < |rows| ==> |rows[i]| >= 9
    ensures BssRows(m, rows).Ok? ==> BssRows(m, rows).value == m + KeepMax.Assign(BssPairs(rows))
  {
    BssRowsOk(m, rows);
    if BssRows(m, rows).Ok? {
      BssRowsValue(m, rows);
    }
  }

  lemma {:induction false} BssRowsOk(m: map<string, string>, rows: seq<Row>)
    ensures BssRows(m, rows).Ok? <==> forall i :: 0 <= i < |rows| ==> |rows[i]| >= 9
    decreases |rows|
  {
    if rows != [] {
      var pre := rows[..|rows| - 1];
      BssRowsOk(m, pre);
      assert forall i :: 0 <= i < |pre| ==> pre[i] == rows[i];
    }
  }

  lemma {:induction false} BssRowsValue(m: map<string, string>, rows: seq<Row>)
    requires BssRows(m, rows).Ok?
    ensures forall i :: 0 <= i < |rows| ==> |rows[i]| >= 9
    ensures BssRows(m, rows).value == m + KeepMax.Assign(BssPairs(rows))
    decreases |rows|
  {
    BssRowsOk(m, rows);
    if rows != [] {
      var pre := rows[..|rows| - 1];
      var r := rows[|rows| - 1];
      BssRowsValue(m, pre);
      assert forall i :: 0 <= i < |pre| ==> pre[i] == rows[i];
      assert BssPairs(rows) == BssPairs(pre) + [(r[0], r[8])];
      KeepMax.AssignSnoc(BssPairs(pre), r[0], r[8]);
    }
  }

  /** The kind of block an opener starts. */
  function KindOf(op: Opener): Kind
  {
    match op
    case OpenMon(_) => ApList
    case OpenNbr(_) => ArmNbrs
    case OpenBss => BssTable
    case OpenIap => ArmNbrs
  }

  /** The AP name an opener sets; the bss-table command sets none. */
  function NameOf(op: Opener): Option<string>
  {
    match op
    case OpenMon(a) => Some(a)
    case OpenNbr(a) => Some(a)
    case OpenBss => None
    case OpenIap => Some(IapName)
  }

  /**
   * A block as the scanner builds it: opened by a command line of its kind
   * naming its AP, followed by input lines none of which starts 'show ' or
   * 'Neighbor Summary'.
   */
  ghost predicate BlockOk(lines: seq<string>, b: Block)
  {
    |b.lines| >= 1 && OpenerOf(b.lines[0]).Some? && KindOf(OpenerOf(b.lines[0]).value) == b.kind
    && (NameOf(OpenerOf(b.lines[0]).value).Some? ==> b.apn == NameOf(OpenerOf(b.lines[0]).value).value)
    && (forall k :: 1 <= k < |b.lines| ==> !Ends(b.lines[k]))
    && (forall k :: 0 <= k < |b.lines| ==> b.lines[k] in lines)
  }

  ghost predicate ScanOk(lines: seq<string>, s: Scan)
  {
    (forall k :: 0 <= k < |s.events| && s.events[k].Dispatch? ==> BlockOk(lines, s.events[k].block))
    && (s.cont.Some? ==> BlockOk(lines, Block(s.cont.value, s.apn, s.out)))
  }

  lemma {:induction false} BlockOkGrows(lines: seq<string>, n: nat, b: Block)
    requires n <= |lines| && BlockOk(lines[..n], b)
    ensures BlockOk(lines, b)
  {
    forall k | 0 <= k < |b.lines|
      ensures b.lines[k] in lines
    {
      var j :| 0 <= j < n && lines[..n][j] == b.lines[k];
      assert lines[j] == b.lines[k];
    }
  }

  /** Every block handed on, and the one still open, is built as `BlockOk` says. */
  lemma {:induction false} ScannedBlocks(lines: seq<string>)
    ensures ScanOk(lines, Scanned(lines))
    decreases |lines|
  {
    if lines != [] {
      var n := |lines| - 1;
      ScannedBlocks(lines[..n]);
      ScanOkGrows(lines, n, Scanned(lines[..n]));
      ScanOkStep(lines, Scanned(lines[..n]), lines[n]);
    }
  }

  lemma {:induction false} ScanOkGrows(lines: seq<string>, n: nat, s: Scan)
    requires n <= |lines| && ScanOk(lines[..n], s)
    ensures ScanOk(lines, s)
  {
    forall k | 0 <= k < |s.events| && s.events[k].Dispatch?
      ensures BlockOk(lines, s.events[k].block)
    {
      BlockOkGrows(lines, n, s.events[k].block);
    }
    if s.cont.Some? {
      BlockOkGrows(lines, n, Block(s.cont.value, s.apn, s.out));
    }
  }

  lemma {:induction false} ScanOkStep(lines: seq<string>, s: Scan, l: string)
    requires ScanOk(lines, s) && l in lines
    ensures ScanOk(lines, Step(s, l))
  {
    if s.cont.Some? && Ends(l) {
      CloseOk(lines, s);
      LookOk(lines, Close(s), l);
    } else if s.cont.Some? {
      JoinOk(lines, s, l);
    } else {
      LookOk(lines, s, l);
    }
  }

  lemma {:induction false} CloseOk(lines: seq<string>, s: Scan)
    requires s.cont.Some? && ScanOk(lines, s)
    ensures ScanOk(lines, Close(s))
  {
    var evs := Close(s).events;
    assert forall k :: 0 <= k < |s.events| ==> evs[k] == s.events[k];
  }

  lemma {:induction false} JoinOk(lines: seq<string>, s: Scan, l: string)
    requires s.cont.Some? && !Ends(l) && ScanOk(lines, s) && l in lines
    ensures ScanOk(lines, s.(out := s.out + [l]))
  {
    var b := Block(s.cont.value, s.apn, s.out + [l]);
    assert forall k :: 0 <= k < |s.out| ==> b.lines[k] == s.out[k];
    assert BlockOk(lines, b);
  }

  lemma {:induction false} LookOk(lines: seq<string>, s: Scan, l: string)
    requires s.cont.None? && ScanOk(lines, s) && l in lines
    ensures ScanOk(lines, Look(s, l))
  {
    var t := Look(s, l);
    if OpenerOf(l).Some? {
      assert t.out == [l] && t.cont == Some(KindOf(OpenerOf(l).value));
      assert forall k :: 0 <= k < |s.events| ==> t.events[k] == s.events[k];
    }
  }

  /** A line that closes a block and is itself a command opens the next block at once. */
  lemma {:induction false} CloseThenOpen(s: Scan, l: string)
    requires s.cont.Some? && Ends(l) && OpenerOf(l).Some?
    ensures Step(s, l).cont == Some(KindOf(OpenerOf(l).value)) && Step(s, l).out == [l]
    ensures Step(s, l).events[..|s.events| + 1] == s.events + [Dispatch(Block(s.cont.value, s.apn, s.out))]
  {
  }
}
