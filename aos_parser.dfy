/**
 * The table-extraction engine of aos_parser.py: a single pass over the lines
 * of a controller log that recognises the output of selected "show" commands
 * and turns every occurrence into a table (a header row followed by data
 * rows), sliced at the column offsets given by a dashed separator line.
 *
 * `Step` is the effect of one input line on the scanner state and `Parse`
 * the whole pass; the class `AOSParser` performs the same pass imperatively
 * and is proved to agree with `Parse`. The lemmas at the end state what every
 * stored table looks like.
 */
module AosParser {
  import opened Wrappers
  import opened Text

  type Row = seq<string>
  type Table = seq<Row>

  const AP_DATABASE_TABLE := "show ap database"
  const AP_DATABASE_LONG_TABLE := "show ap database long"
  const AP_BSS_TABLE := "show ap bss-table"
  const AP_ACTIVE_TABLE := "show ap active"
  const AP_ASSOCIATION_TABLE := "show ap association"
  const USER_TABLE := "show user-table"
  const DATAPATH_SESSION_TABLE := "show datapath session verbose"
  const DATAPATH_SESSION_DPI := "show datapath session dpi"

  /** The exceptions the pass can raise. */
  datatype ParseError =
    | NoHeaderLine                 // NameError: a separator before any candidate header line
    | ColumnNotFound(name: string) // ValueError from list.index
    | CellOutOfRange               // IndexError on a short row

  predicate IsApDatabase(cmd: string) { cmd == AP_DATABASE_TABLE || cmd == AP_DATABASE_LONG_TABLE }

  predicate IsDatapath(cmd: string) { cmd == DATAPATH_SESSION_TABLE || cmd == DATAPATH_SESSION_DPI }

  // ---------------------------------------------------------------------
  // Command recognition: re.search(cmd + "$", line)
  // ---------------------------------------------------------------------

  /** `p` occurs in `s` with at least `tail` characters after it. */
  predicate OccursWithTail(s: string, p: string, tail: nat)
  {
    exists i :: 0 <= i && i + |p| + tail <= |s| && StartsWith(s[i..], p)
  }

  /**
   * Command patterns are literal text, optionally ending in ".+" or ".*";
   * a literal pattern followed by "$" matches exactly the lines ending in it.
   */
  predicate CmdMatches(cmd: string, line: string)
  {
    if EndsWith(cmd, ".+") then OccursWithTail(line, cmd[..|cmd| - 2], 1)
    else if EndsWith(cmd, ".*") then OccursWithTail(line, cmd[..|cmd| - 2], 0)
    else EndsWith(line, cmd)
  }

  // ---------------------------------------------------------------------
  // Separator lines and column offsets
  // ---------------------------------------------------------------------

  /** Length of the run of `c` at the start of `s`. */
  function LeadingRun(s: string, c: char): (n: nat)
    ensures n <= |s|
    ensures forall i :: 0 <= i < n ==> s[i] == c
    ensures n < |s| ==> s[n] != c
  {
    if s == [] || s[0] != c then 0 else 1 + LeadingRun(s[1..], c)
  }

  /** re.match("-+ +-", line): dashes, then spaces, then a dash, from column 0. */
  predicate IsSeparator(line: string)
  {
    var d := LeadingRun(line, '-');
    var sp := LeadingRun(line[d..], ' ');
    d >= 1 && sp >= 1 && d + sp < |line| && line[d + sp] == '-'
  }

  /** Position j starts a maximal run of dashes. */
  predicate IsRunStart(line: string, j: int)
  {
    0 <= j < |line| && line[j] == '-' && (j == 0 || line[j - 1] != '-')
  }

  /** The start of every maximal dash run at or after `from`, in order (re.finditer('-+')). */
  function DashRunStarts(line: string, from: nat): (r: seq<nat>)
    requires from <= |line|
    ensures forall k :: 0 <= k < |r| ==> from <= r[k] && IsRunStart(line, r[k])
    ensures forall k, m :: 0 <= k < m < |r| ==> r[k] < r[m]
    decreases |line| - from
  {
    if from == |line| then []
    else if IsRunStart(line, from) then [from] + DashRunStarts(line, from + 1)
    else DashRunStarts(line, from + 1)
  }

  /** Every run start at or after `from` is among the offsets. */
  lemma {:induction false} DashRunStartsComplete(line: string, from: nat, j: nat)
    requires from <= j < |line| && IsRunStart(line, j)
    ensures j in DashRunStarts(line, from)
    decreases j - from
  {
    if from < j {
      DashRunStartsComplete(line, from + 1, j);
    }
  }

  function Offsets(line: string): seq<nat>
  {
    DashRunStarts(line, 0)
  }

  /** A separator yields at least two offsets, the first being column 0. */
  lemma {:induction false} SeparatorOffsets(line: string)
    requires IsSeparator(line)
    ensures |Offsets(line)| >= 2 && Offsets(line)[0] == 0
  {
    var d := LeadingRun(line, '-');
    var sp := LeadingRun(line[d..], ' ');
    var r := Offsets(line);
    assert IsRunStart(line, 0);
    assert line[d..][sp - 1] == ' ';
    assert IsRunStart(line, d + sp);
    DashRunStartsComplete(line, 0, 0);
    DashRunStartsComplete(line, 0, d + sp);
    assert 0 in r && d + sp in r;
    var k :| 0 <= k < |r| && r[k] == 0;
    var m :| 0 <= m < |r| && r[m] == d + sp;
    assert k != m;
  }

  /** Cell i of a line: from offset i up to offset i+1, or to the end for the last one. */
  function RawCell(line: string, idx: seq<nat>, i: nat): string
    requires i < |idx|
  {
    if i + 1 < |idx| then Slice(line, idx[i], idx[i + 1]) else SliceFrom(line, idx[i])
  }

  /** A cell as stored: stripped on both sides (headers) or on the right only (data). */
  function TrimCell(cell: string, both: bool): (r: string)
    ensures both ==> r == Strip(cell)
    ensures !both ==> r == RStrip(cell)
  {
    if both then Strip(cell) else RStrip(cell)
  }

  /** The cells of a line, one per offset, each passed through `TrimCell`. */
  function Cells(line: string, idx: seq<nat>, both: bool): (r: Row)
    ensures |r| == |idx|
  {
    seq(|idx|, i requires 0 <= i < |idx| => TrimCell(RawCell(line, idx, i), both))
  }

  /** A data row: one right-stripped cell per offset. */
  function DataRow(line: string, idx: seq<nat>): (r: Row)
    ensures |r| == |idx|
  {
    Cells(line, idx, false)
  }

  /** A header row: one cell per offset, stripped on both sides. */
  function HeaderRow(line: string, idx: seq<nat>): (r: Row)
    ensures |r| == |idx|
  {
    Cells(line, idx, true)
  }

  /** The dpi filter: a leading space means no application, else the first word. */
  function AppIdCell(app: string): (r: string)
    ensures ' ' !in r
    ensures StartsWith(app, " ") ==> r == "unknown"
    ensures !StartsWith(app, " ") ==> StartsWith(app, r) && (|r| == |app| || app[|r|] == ' ')
  {
    if StartsWith(app, " ") then "unknown" else FirstWord(app)
  }

  /** re.match("[0-9A-F][0-9A-F]:", line) */
  predicate StartsWithMac(line: string)
  {
    |line| >= 3 && ('0' <= line[0] <= '9' || 'A' <= line[0] <= 'F')
    && ('0' <= line[1] <= '9' || 'A' <= line[1] <= 'F') && line[2] == ':'
  }

  // ---------------------------------------------------------------------
  // The scanner state and one step of the pass
  // ---------------------------------------------------------------------

  /**
   * Everything the pass keeps between lines: the stored tables, the two
   * flags, the occurrence being built with its accepted-row count, the
   * current offsets, the last candidate header line and the filter columns.
   */
  datatype ParserState = ParserState(
    tables: map<string, seq<Table>>,
    inTable: bool,
    inCont: bool,
    curCmd: string,
    curTable: Table,
    num: nat,
    idx: seq<nat>,
    prevLine: Option<string>,
    idxStatus: nat,
    idxApp: nat)

  function InitialTables(cmds: seq<string>): map<string, seq<Table>>
  {
    map c | c in cmds :: []
  }

  function Init(cmds: seq<string>): ParserState
  {
    ParserState(InitialTables(cmds), false, false, "", [], 0, [], None, 0, 0)
  }

  /** The structural facts every step relies on. */
  predicate Shape(cmds: seq<string>, st: ParserState)
  {
    st.tables.Keys == (set c | c in cmds)
    && (st.inTable ==> st.curCmd in cmds)
    && (st.inCont ==> st.inTable && |st.idx| >= 1)
  }

  /** end_of_cmd: store the occurrence if it accepted a row. */
  function StoreIfNonEmpty(st: ParserState): (r: ParserState)
    requires st.curCmd in st.tables
    ensures r.num == 0
    ensures r.tables.Keys == st.tables.Keys
    ensures r == st.(num := 0, tables := r.tables)
    ensures st.num == 0 ==> r.tables == st.tables
    ensures st.num > 0 ==> r.tables[st.curCmd] == st.tables[st.curCmd] + [st.curTable]
    ensures forall c :: c in st.tables && c != st.curCmd ==> r.tables[c] == st.tables[c]
  {
    if st.num == 0 then st
    else st.(num := 0, tables := st.tables[st.curCmd := st.tables[st.curCmd] + [st.curTable]])
  }

  /** The pattern loop: every matching pattern restarts the occurrence, so the last match wins. */
  function SelectCommand(cmds: seq<string>, line: string, st: ParserState): ParserState
    decreases |cmds|
  {
    if cmds == [] then st
    else
      var st1 := if CmdMatches(cmds[0], line)
        then st.(inTable := true, curCmd := cmds[0], curTable := [], num := 0)
        else st;
      SelectCommand(cmds[1..], line, st1)
  }

  function AppendRow(st: ParserState, row: Row): ParserState
  {
    st.(curTable := st.curTable + [row], num := st.num + 1)
  }

  /** The per-command row filters applied before a data row is kept. */
  function AddRow(activeOnly: bool, st: ParserState, row: Row): (r: Result<ParserState, ParseError>)
    ensures r.Ok? ==> r.value.tables == st.tables && r.value.inTable == st.inTable && r.value.inCont == st.inCont
    ensures r.Ok? ==> r.value.curCmd == st.curCmd && r.value.idx == st.idx
    ensures r.Ok? && r.value != st ==>
      r.value.num == st.num + 1 && |r.value.curTable| == |st.curTable| + 1
      && r.value.curTable[..|st.curTable|] == st.curTable && |r.value.curTable[|st.curTable|]| == |row|
  {
    if IsApDatabase(st.curCmd) then
      if !activeOnly then Ok(AppendRow(st, row))
      else if st.idxStatus >= |row| then Err(CellOutOfRange)
      else if !StartsWith(row[st.idxStatus], "Up") then Ok(st)
      else Ok(AppendRow(st, row))
    else if st.curCmd == DATAPATH_SESSION_DPI then
      if st.idxApp >= |row| then Err(CellOutOfRange)
      else Ok(AppendRow(st, row[st.idxApp := AppIdCell(row[st.idxApp])]))
    else Ok(AppendRow(st, row))
  }

  /** A line inside a content section: termination rules, then a data row. */
  function ContentStep(activeOnly: bool, st: ParserState, line: string): (r: Result<ParserState, ParseError>)
    requires st.inCont && st.inTable && st.curCmd in st.tables
    ensures r.Ok? ==> r.value.tables.Keys == st.tables.Keys && r.value.curCmd == st.curCmd && r.value.idx == st.idx
    ensures r.Ok? ==> (r.value.inCont ==> r.value.inTable)
    ensures r.Ok? ==>
      r.value.curTable == st.curTable
      || (r.value.num == st.num + 1 && |r.value.curTable| == |st.curTable| + 1
          && r.value.curTable[..|st.curTable|] == st.curTable && |r.value.curTable[|st.curTable|]| == |st.idx|)
  {
    if IsDatapath(st.curCmd) && line == "" then Ok(st)
    else if IsDatapath(st.curCmd) && StartsWithMac(line) then Ok(st)
    else if IsDatapath(st.curCmd) && !IsDigit(line[0]) then Ok(StoreIfNonEmpty(st.(inTable := false, inCont := false)))
    else if !IsDatapath(st.curCmd) && st.curCmd == AP_ASSOCIATION_TABLE && StartsWith(line, "Num Clients:") then
      Ok(StoreIfNonEmpty(st.(inTable := false, inCont := false)))
    else if line == "" then Ok(st.(inCont := false))
    else AddRow(activeOnly, st, DataRow(line, st.idx))
  }

  /** The header of an occurrence, taken from the last line before its first separator. */
  function TakeHeader(st: ParserState): (r: Result<ParserState, ParseError>)
    ensures r.Ok? ==> r.value.tables == st.tables && r.value.inTable == st.inTable && r.value.curCmd == st.curCmd
    ensures r.Ok? ==> r.value.inCont == st.inCont && r.value.idx == st.idx && r.value.num == st.num
  {
    match st.prevLine
    case None => Err(NoHeaderLine)
    case Some(hdr) =>
      var row := HeaderRow(hdr, st.idx);
      if IsApDatabase(st.curCmd) then
        match IndexOf(row, "Status")
        case None => Err(ColumnNotFound("Status"))
        case Some(k) => Ok(st.(idxStatus := k, curTable := [row]))
      else if st.curCmd == DATAPATH_SESSION_DPI then
        match IndexOf(row, "AppID")
        case None => Err(ColumnNotFound("AppID"))
        case Some(k) => Ok(st.(idxApp := k, curTable := [row]))
      else Ok(st.(curTable := [row]))
  }

  /** A separator line: new offsets, and the header when the occurrence has none yet. */
  function OpenSection(st: ParserState, line: string): (r: Result<ParserState, ParseError>)
    requires IsSeparator(line)
    ensures r.Ok? ==> r.value.inCont && r.value.idx == Offsets(line) && |r.value.idx| >= 2
    ensures r.Ok? ==> r.value.tables == st.tables && r.value.inTable == st.inTable && r.value.curCmd == st.curCmd
  {
    SeparatorOffsets(line);
    var st1 := st.(inCont := true, idx := Offsets(line));
    if |st.curTable| != 0 then Ok(st1) else TakeHeader(st1)
  }

  /** A line outside any content section: close on "show ", look for a command, a separator or a header candidate. */
  function OutsideStep(cmds: seq<string>, st: ParserState, line: string): (r: Result<ParserState, ParseError>)
    requires Shape(cmds, st) && !st.inCont
    ensures r.Ok? ==> Shape(cmds, r.value)
  {
    var st1 := if st.inTable && Contains(line, "show ") then StoreIfNonEmpty(st.(inTable := false)) else st;
    if !st1.inTable then
      if Contains(line, "show ") then
        SelectCommandShape(cmds, cmds, line, st1);
        Ok(SelectCommand(cmds, line, st1))
      else Ok(st1)
    else if IsSeparator(line) then OpenSection(st1, line)
    else Ok(st1.(prevLine := Some(line)))
  }

  /** The effect of one input line (before right-stripping) on the scanner state. */
  function Step(cmds: seq<string>, activeOnly: bool, st: ParserState, raw: string): (r: Result<ParserState, ParseError>)
    requires Shape(cmds, st)
    ensures r.Ok? ==> Shape(cmds, r.value)
  {
    var line := RStrip(raw);
    if st.inCont then ContentStep(activeOnly, st, line) else OutsideStep(cmds, st, line)
  }

  lemma {:induction false} SelectCommandShape(all: seq<string>, cmds: seq<string>, line: string, st: ParserState)
    requires forall c :: c in cmds ==> c in all
    requires Shape(all, st) && !st.inCont
    ensures Shape(all, SelectCommand(cmds, line, st)) && !SelectCommand(cmds, line, st).inCont
    decreases |cmds|
  {
    if cmds != [] {
      var st1 := if CmdMatches(cmds[0], line)
        then st.(inTable := true, curCmd := cmds[0], curTable := [], num := 0)
        else st;
      SelectCommandShape(all, cmds[1..], line, st1);
    }
  }

  /** The state after the first lines of the input, folding `Step` from the left. */
  function Run(cmds: seq<string>, activeOnly: bool, lines: seq<string>): (r: Result<ParserState, ParseError>)
    ensures r.Ok? ==> Shape(cmds, r.value)
    decreases |lines|
  {
    if lines == [] then Ok(Init(cmds))
    else match Run(cmds, activeOnly, lines[..|lines| - 1])
      case Err(e) => Err(e)
      case Ok(st) => Step(cmds, activeOnly, st, lines[|lines| - 1])
  }

  /** At end of input an open command is closed. */
  function Finish(st: ParserState): ParserState
    requires st.inTable ==> st.curCmd in st.tables
  {
    if st.inTable then StoreIfNonEmpty(st) else st
  }

  /** The tables the pass produces, or the exception it raises. */
  function Parse(lines: seq<string>, cmds: seq<string>, activeOnly: bool): Result<map<string, seq<Table>>, ParseError>
  {
    match Run(cmds, activeOnly, lines)
    case Err(e) => Err(e)
    case Ok(st) => Ok(Finish(st).tables)
  }

  lemma {:induction false} RunErrorSticks(cmds: seq<string>, activeOnly: bool, lines: seq<string>, i: nat)
    requires i <= |lines| && Run(cmds, activeOnly, lines[..i]).Err?
    ensures Run(cmds, activeOnly, lines) == Run(cmds, activeOnly, lines[..i])
    decreases |lines| - i
  {
    if i < |lines| {
      assert lines[..i + 1][..i] == lines[..i];
      RunErrorSticks(cmds, activeOnly, lines, i + 1);
    } else {
      assert lines[..i] == lines;
    }
  }

  // ---------------------------------------------------------------------
  // The parser object
  // ---------------------------------------------------------------------

  class AOSParser {
    var tables: map<string, seq<Table>>
    var num: nat
    var curCmd: string
    var curTable: Table
    // The loop variables of the constructor, kept as fields so that each
    // kind of line can be handled by a method of its own.
    var inTable: bool
    var inCont: bool
    var idx: seq<nat>
    var prevLine: Option<string>
    var idxStatus: nat
    var idxApp: nat
    /** The exception that the Python constructor would raise, if any. */
    var failure: Option<ParseError>

    /** The scanner state as the specification sees it. */
    ghost function Snapshot(): ParserState
      reads this
    {
      ParserState(tables, inTable, inCont, curCmd, curTable, num, idx, prevLine, idxStatus, idxApp)
    }

    /** end_of_cmd: append the finished occurrence if it accepted at least one row. */
    method EndOfCmd()
      requires curCmd in tables
      modifies this`num, this`tables
      ensures Snapshot() == StoreIfNonEmpty(old(Snapshot()))
    {
      if num == 0 {
        return;
      }
      num := 0;
      tables := tables[curCmd := tables[curCmd] + [curTable]];
    }

    /** A line inside a content section: the termination rules, then the row filters. */
    method ContentLine(activeOnly: bool, line: string) returns (err: Option<ParseError>)
      requires inCont && inTable && curCmd in tables
      modifies this
      ensures failure == old(failure)
      ensures match ContentStep(activeOnly, old(Snapshot()), line)
        case Err(e) => err == Some(e)
        case Ok(s) => err == None && Snapshot() == s
    {
      err := None;
      if IsDatapath(curCmd) {
        if line == "" {
          return;
        }
        if StartsWithMac(line) {
          return;
        }
        if !IsDigit(line[0]) {
          inTable := false;
          inCont := false;
          EndOfCmd();
          return;
        }
      } else if curCmd == AP_ASSOCIATION_TABLE {
        if StartsWith(line, "Num Clients:") {
          inTable := false;
          inCont := false;
          EndOfCmd();
          return;
        }
      }
      if line == "" {
        inCont := false;
        return;
      }
      err := DataLine(activeOnly, DataRow(line, idx));
    }

    /** A data row: the row filters, then the row joins the occurrence. */
    method DataLine(activeOnly: bool, row: Row) returns (err: Option<ParseError>)
      modifies this
      ensures failure == old(failure)
      ensures match AddRow(activeOnly, old(Snapshot()), row)
        case Err(e) => err == Some(e)
        case Ok(s) => err == None && Snapshot() == s
    {
      err := None;
      var row := row;
      if IsApDatabase(curCmd) {
        if activeOnly {
          if idxStatus >= |row| {
            err := Some(CellOutOfRange);
            return;
          }
          if !StartsWith(row[idxStatus], "Up") {
            return;
          }
        }
      } else if curCmd == DATAPATH_SESSION_DPI {
        if idxApp >= |row| {
          err := Some(CellOutOfRange);
          return;
        }
        var app := row[idxApp];
        if StartsWith(app, " ") {
          row := row[idxApp := "unknown"];
        } else {
          row := row[idxApp := FirstWord(app)];
        }
      }
      curTable := curTable + [row];
      num := num + 1;
    }

    /** The pattern loop over a line containing "show ": each match restarts the occurrence. */
    method CommandLine(cmds: seq<string>, line: string)
      modifies this
      ensures failure == old(failure)
      ensures Snapshot() == SelectCommand(cmds, line, old(Snapshot()))
    {
      var j := 0;
      while j < |cmds|
        invariant 0 <= j <= |cmds|
        invariant failure == old(failure)
        invariant SelectCommand(cmds, line, old(Snapshot())) == SelectCommand(cmds[j..], line, Snapshot())
      {
        assert cmds[j..][1..] == cmds[j + 1..];
        if CmdMatches(cmds[j], line) {
          inTable := true;
          curCmd := cmds[j];
          curTable := [];
          num := 0;
        }
        j := j + 1;
      }
      assert cmds[j..] == [];
    }

    /** The header line of a new occurrence and its filter column. */
    method HeaderLine() returns (err: Option<ParseError>)
      modifies this
      ensures failure == old(failure)
      ensures match TakeHeader(old(Snapshot()))
        case Err(e) => err == Some(e)
        case Ok(s) => err == None && Snapshot() == s
    {
      err := None;
      if prevLine.None? {
        err := Some(NoHeaderLine);
        return;
      }
      var row := HeaderRow(prevLine.value, idx);
      if IsApDatabase(curCmd) {
        var k := IndexOf(row, "Status");
        if k.None? {
          err := Some(ColumnNotFound("Status"));
          return;
        }
        idxStatus := k.value;
      } else if curCmd == DATAPATH_SESSION_DPI {
        var k := IndexOf(row, "AppID");
        if k.None? {
          err := Some(ColumnNotFound("AppID"));
          return;
        }
        idxApp := k.value;
      }
      curTable := [row];
    }

    /** A separator line: new offsets, and the header if the occurrence has none yet. */
    method SeparatorLine(line: string) returns (err: Option<ParseError>)
      requires IsSeparator(line)
      modifies this
      ensures failure == old(failure)
      ensures match OpenSection(old(Snapshot()), line)
        case Err(e) => err == Some(e)
        case Ok(s) => err == None && Snapshot() == s
    {
      err := None;
      inCont := true;
      idx := Offsets(line);
      if |curTable| == 0 {
        err := HeaderLine();
      }
    }

    /** A line outside any content section. */
    method OutsideLine(cmds: seq<string>, line: string) returns (err: Option<ParseError>)
      requires Shape(cmds, Snapshot()) && !inCont
      modifies this
      ensures failure == old(failure)
      ensures match OutsideStep(cmds, old(Snapshot()), line)
        case Err(e) => err == Some(e)
        case Ok(s) => err == None && Snapshot() == s
    {
      err := None;
      if inTable {
        if Contains(line, "show ") {
          inTable := false;
          EndOfCmd();
        }
      }
      if !inTable {
        if !Contains(line, "show ") {
          return;
        }
        CommandLine(cmds, line);
        return;
      }
      if IsSeparator(line) {
        err := SeparatorLine(line);
      } else {
        prevLine := Some(line);
      }
    }

    /** `self.tables[cmd] = []` for every command. */
    method AddCommands(cmds: seq<string>)
      requires tables == map[]
      modifies this`tables
      ensures tables == InitialTables(cmds)
    {
      var k := 0;
      while k < |cmds|
        invariant 0 <= k <= |cmds|
        invariant tables == map c | c in cmds[..k] :: []
      {
        tables := tables[cmds[k] := []];
        k := k + 1;
        assert cmds[..k] == cmds[..k - 1] + [cmds[k - 1]];
      }
      assert cmds[..k] == cmds;
    }

    /** One input line, right-stripped, handed to the handler of its kind. */
    method Feed(cmds: seq<string>, activeOnly: bool, raw: string) returns (err: Option<ParseError>)
      requires Shape(cmds, Snapshot())
      modifies this
      ensures failure == old(failure)
      ensures match Step(cmds, activeOnly, old(Snapshot()), raw)
        case Err(e) => err == Some(e)
        case Ok(s) => err == None && Snapshot() == s
    {
      var line := RStrip(raw);
      if inCont {
        err := ContentLine(activeOnly, line);
      } else {
        err := OutsideLine(cmds, line);
      }
    }

    /** Parse the lines, keeping the occurrences of the given commands. */
    constructor (lines: seq<string>, cmds: seq<string>, activeOnly: bool)
      ensures Parse(lines, cmds, activeOnly).Ok? ==> failure == None && tables == Parse(lines, cmds, activeOnly).value
      ensures Parse(lines, cmds, activeOnly).Err? ==> failure == Some(Parse(lines, cmds, activeOnly).error)
    {
      tables := map[];
      num := 0;
      curCmd := "";
      curTable := [];
      inTable := false;
      inCont := false;
      idx := [];
      prevLine := None;
      idxStatus := 0;
      idxApp := 0;
      failure := None;
      new;
      AddCommands(cmds);
      var i := 0;
      while i < |lines|
        invariant 0 <= i <= |lines|
        invariant Run(cmds, activeOnly, lines[..i]) == Ok(Snapshot())
        invariant failure == None
      {
        assert lines[..i + 1][..i] == lines[..i];
        var err := Feed(cmds, activeOnly, lines[i]);
        i := i + 1;
        if err.Some? {
          failure := err;
          RunErrorSticks(cmds, activeOnly, lines, i);
          return;
        }
      }
      assert lines[..i] == lines;
      if inTable {
        EndOfCmd();
      }
    }
  }
}
