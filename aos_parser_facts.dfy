/**
 * What the table-extraction pass guarantees about the tables it stores:
 * every occurrence is a header followed by at least one data row, rows are
 * at least two cells wide, header cells carry no surrounding whitespace and
 * the per-command filters hold for every kept row. The guarantees are an
 * invariant of `Step`, carried through `Run` to the result of `Parse`.
 */
module AosParserFacts {
  import opened Wrappers
  import opened Text
  import opened AosParser

  /** A cell with no whitespace at either end. */
  predicate Trimmed(s: string)
  {
    s == [] || (!IsSpace(s[0]) && !IsSpace(s[|s| - 1]))
  }

  /** An AP-database occurrence: the header names a Status column and, when only active APs are kept, every data row's Status starts with "Up". */
  predicate StatusFiltered(activeOnly: bool, t: Table)
    requires |t| >= 1
  {
    match IndexOf(t[0], "Status")
    case None => false
    case Some(k) => activeOnly ==> forall i :: 1 <= i < |t| ==> k < |t[i]| && StartsWith(t[i][k], "Up")
  }

  /** A dpi occurrence: the header names an AppID column and no data row's AppID contains a space. */
  predicate AppIdsClean(t: Table)
    requires |t| >= 1
  {
    match IndexOf(t[0], "AppID")
    case None => false
    case Some(k) => forall i :: 1 <= i < |t| ==> k < |t[i]| && ' ' !in t[i][k]
  }

  /** An occurrence of `cmd` as it is built: a trimmed header, rows of two or more cells, the filters' guarantees. */
  predicate TableOk(cmd: string, activeOnly: bool, t: Table)
  {
    |t| >= 1
    && (forall i :: 0 <= i < |t| ==> |t[i]| >= 2)
    && (forall j :: 0 <= j < |t[0]| ==> Trimmed(t[0][j]))
    && (IsApDatabase(cmd) ==> StatusFiltered(activeOnly, t))
    && (cmd == DATAPATH_SESSION_DPI ==> AppIdsClean(t))
  }

  /** A stored occurrence also has at least one data row. */
  predicate StoredOk(cmd: string, activeOnly: bool, t: Table)
  {
    |t| >= 2 && TableOk(cmd, activeOnly, t)
  }

  predicate AllStoredOk(activeOnly: bool, tables: map<string, seq<Table>>)
  {
    forall c :: c in tables ==> forall t :: t in tables[c] ==> StoredOk(c, activeOnly, t)
  }

  /** The occurrence being built, with the filter columns its header gave. */
  predicate CurrentOk(activeOnly: bool, st: ParserState)
  {
    |st.curTable| == st.num + 1
    && TableOk(st.curCmd, activeOnly, st.curTable)
    && (IsApDatabase(st.curCmd) ==> IndexOf(st.curTable[0], "Status") == Some(st.idxStatus))
    && (st.curCmd == DATAPATH_SESSION_DPI ==> IndexOf(st.curTable[0], "AppID") == Some(st.idxApp))
  }

  /** The invariant of the pass. */
  predicate Good(cmds: seq<string>, activeOnly: bool, st: ParserState)
  {
    Shape(cmds, st)
    && AllStoredOk(activeOnly, st.tables)
    && (st.inCont ==> |st.idx| >= 2 && st.curTable != [])
    && (!st.inTable ==> st.num == 0)
    && (st.inTable && st.curTable == [] ==> st.num == 0)
    && (st.inTable && st.curTable != [] ==> CurrentOk(activeOnly, st))
  }

  lemma {:induction false} InitGood(cmds: seq<string>, activeOnly: bool)
    ensures Good(cmds, activeOnly, Init(cmds))
  {
  }

  /** Closing a command stores only an occurrence with data rows, and it stores it intact. */
  lemma {:induction false} StoreGood(cmds: seq<string>, activeOnly: bool, st: ParserState)
    requires Good(cmds, activeOnly, st) && st.inTable
    ensures Good(cmds, activeOnly, StoreIfNonEmpty(st.(inTable := false, inCont := false)))
    ensures st.num > 0 ==> StoredOk(st.curCmd, activeOnly, st.curTable)
    ensures st.num > 0 ==> StoreIfNonEmpty(st.(inTable := false, inCont := false)).tables[st.curCmd] == st.tables[st.curCmd] + [st.curTable]
  {
    var s1 := st.(inTable := false, inCont := false);
    var r := StoreIfNonEmpty(s1);
    if st.num != 0 {
      assert st.curTable != [] && CurrentOk(activeOnly, st);
      assert StoredOk(st.curCmd, activeOnly, st.curTable);
      forall c | c in r.tables
        ensures forall t :: t in r.tables[c] ==> StoredOk(c, activeOnly, t)
      {
        if c == st.curCmd {
          assert r.tables[c] == st.tables[c] + [st.curTable];
        } else {
          assert r.tables[c] == st.tables[c];
        }
      }
    }
  }

  /** Every command the pattern loop picks starts a fresh, empty occurrence. */
  lemma {:induction false} SelectCommandGood(all: seq<string>, cmds: seq<string>, activeOnly: bool, line: string, st: ParserState)
    requires forall c :: c in cmds ==> c in all
    requires Good(all, activeOnly, st) && !st.inCont && (st.inTable ==> st.curTable == [])
    ensures Good(all, activeOnly, SelectCommand(cmds, line, st))
    decreases |cmds|
  {
    if cmds != [] {
      var st1 := if CmdMatches(cmds[0], line)
        then st.(inTable := true, curCmd := cmds[0], curTable := [], num := 0)
        else st;
      assert Good(all, activeOnly, st1);
      SelectCommandGood(all, cmds[1..], activeOnly, line, st1);
    }
  }

  /** A header row is trimmed cell by cell. */
  lemma {:induction false} HeaderTrimmed(line: string, idx: seq<nat>)
    ensures forall j :: 0 <= j < |idx| ==> Trimmed(HeaderRow(line, idx)[j])
  {
  }

  /** A separator outside a section opens one, taking a header for a fresh occurrence. */
  lemma {:induction false} OpenSectionGood(cmds: seq<string>, activeOnly: bool, st: ParserState, line: string)
    requires Good(cmds, activeOnly, st) && st.inTable && !st.inCont && IsSeparator(line)
    requires OpenSection(st, line).Ok?
    ensures Good(cmds, activeOnly, OpenSection(st, line).value)
  {
    var r := OpenSection(st, line).value;
    if st.curTable == [] {
      var hdr := st.prevLine.value;
      var row := HeaderRow(hdr, r.idx);
      HeaderTrimmed(hdr, r.idx);
      assert r.curTable == [row];
      assert TableOk(r.curCmd, activeOnly, r.curTable);
    }
  }

  /** A kept data row keeps the occurrence well formed. */
  lemma {:induction false} AddRowGood(cmds: seq<string>, activeOnly: bool, st: ParserState, row: Row)
    requires Good(cmds, activeOnly, st) && st.inCont && |row| == |st.idx|
    requires AddRow(activeOnly, st, row).Ok?
    ensures Good(cmds, activeOnly, AddRow(activeOnly, st, row).value)
  {
    var r := AddRow(activeOnly, st, row).value;
    if r != st {
      var t := r.curTable;
      var n := |st.curTable|;
      assert t[..n] == st.curTable;
      assert forall i :: 0 <= i < n ==> t[i] == st.curTable[i];
      assert |t[n]| >= 2;
      assert t[0] == st.curTable[0];
      if IsApDatabase(st.curCmd) {
        assert t == st.curTable + [row];
      } else if st.curCmd == DATAPATH_SESSION_DPI {
        assert t == st.curTable + [row[st.idxApp := AppIdCell(row[st.idxApp])]];
      }
      assert TableOk(r.curCmd, activeOnly, t);
    }
  }

  /** A line inside a section keeps the invariant. */
  lemma {:induction false} ContentStepGood(cmds: seq<string>, activeOnly: bool, st: ParserState, line: string)
    requires Good(cmds, activeOnly, st) && st.inCont
    requires ContentStep(activeOnly, st, line).Ok?
    ensures Good(cmds, activeOnly, ContentStep(activeOnly, st, line).value)
  {
    if IsDatapath(st.curCmd) && line == "" {
    } else if IsDatapath(st.curCmd) && StartsWithMac(line) {
    } else if IsDatapath(st.curCmd) && !IsDigit(line[0]) {
      StoreGood(cmds, activeOnly, st);
    } else if !IsDatapath(st.curCmd) && st.curCmd == AP_ASSOCIATION_TABLE && StartsWith(line, "Num Clients:") {
      StoreGood(cmds, activeOnly, st);
    } else if line == "" {
    } else {
      AddRowGood(cmds, activeOnly, st, DataRow(line, st.idx));
    }
  }

  /** A line outside a section keeps the invariant. */
  lemma {:induction false} OutsideStepGood(cmds: seq<string>, activeOnly: bool, st: ParserState, line: string)
    requires Good(cmds, activeOnly, st) && !st.inCont
    requires OutsideStep(cmds, st, line).Ok?
    ensures Good(cmds, activeOnly, OutsideStep(cmds, st, line).value)
  {
    var st1 := if st.inTable && Contains(line, "show ") then StoreIfNonEmpty(st.(inTable := false)) else st;
    if st.inTable && Contains(line, "show ") {
      assert st.(inTable := false) == st.(inTable := false, inCont := false);
      StoreGood(cmds, activeOnly, st);
    }
    assert Good(cmds, activeOnly, st1);
    if !st1.inTable {
      if Contains(line, "show ") {
        SelectCommandGood(cmds, cmds, activeOnly, line, st1);
      }
    } else if IsSeparator(line) {
      OpenSectionGood(cmds, activeOnly, st1, line);
    }
  }

  lemma {:induction false} StepGood(cmds: seq<string>, activeOnly: bool, st: ParserState, raw: string)
    requires Good(cmds, activeOnly, st)
    requires Step(cmds, activeOnly, st, raw).Ok?
    ensures Good(cmds, activeOnly, Step(cmds, activeOnly, st, raw).value)
  {
    var line := RStrip(raw);
    if st.inCont {
      ContentStepGood(cmds, activeOnly, st, line);
    } else {
      OutsideStepGood(cmds, activeOnly, st, line);
    }
  }

  /** The invariant holds after any prefix of the input that raised nothing. */
  lemma {:induction false} RunGood(cmds: seq<string>, activeOnly: bool, lines: seq<string>)
    requires Run(cmds, activeOnly, lines).Ok?
    ensures Good(cmds, activeOnly, Run(cmds, activeOnly, lines).value)
    decreases |lines|
  {
    if lines == [] {
      InitGood(cmds, activeOnly);
    } else {
      var prefix := lines[..|lines| - 1];
      RunGood(cmds, activeOnly, prefix);
      StepGood(cmds, activeOnly, Run(cmds, activeOnly, prefix).value, lines[|lines| - 1]);
    }
  }

  /**
   * Every table `Parse` returns is keyed by a requested command and is a
   * trimmed header followed by at least one data row, every row at least two
   * cells wide, with the AP-database and dpi filters holding for every row.
   */
  lemma {:induction false} ParsedTablesOk(lines: seq<string>, cmds: seq<string>, activeOnly: bool)
    requires Parse(lines, cmds, activeOnly).Ok?
    ensures Parse(lines, cmds, activeOnly).value.Keys == set c | c in cmds
    ensures AllStoredOk(activeOnly, Parse(lines, cmds, activeOnly).value)
  {
    RunGood(cmds, activeOnly, lines);
    var st := Run(cmds, activeOnly, lines).value;
    if st.inTable {
      StoreGood(cmds, activeOnly, st);
      assert Finish(st).tables == StoreIfNonEmpty(st.(inTable := false, inCont := false)).tables;
    }
  }
  // ---------------------------------------------------------------------
  // Command selection and section boundaries
  // ---------------------------------------------------------------------

  /** A line that matches no pattern leaves the state as it was. */
  lemma {:induction false} SelectCommandNoMatch(cmds: seq<string>, line: string, st: ParserState)
    requires forall k :: 0 <= k < |cmds| ==> !CmdMatches(cmds[k], line)
    ensures SelectCommand(cmds, line, st) == st
    decreases |cmds|
  {
    if cmds != [] {
      assert forall k :: 0 <= k < |cmds[1..]| ==> cmds[1..][k] == cmds[k + 1];
      SelectCommandNoMatch(cmds[1..], line, st);
    }
  }

  /** The last matching pattern becomes the current command, with an empty occurrence. */
  lemma {:induction false} SelectCommandLastMatch(cmds: seq<string>, line: string, st: ParserState, j: nat)
    requires j < |cmds| && CmdMatches(cmds[j], line)
    requires forall k :: j < k < |cmds| ==> !CmdMatches(cmds[k], line)
    ensures SelectCommand(cmds, line, st) == st.(inTable := true, curCmd := cmds[j], curTable := [], num := 0)
    decreases |cmds|
  {
    var st1 := if CmdMatches(cmds[0], line)
      then st.(inTable := true, curCmd := cmds[0], curTable := [], num := 0)
      else st;
    assert forall k :: 0 <= k < |cmds[1..]| ==> cmds[1..][k] == cmds[k + 1];
    if j == 0 {
      SelectCommandNoMatch(cmds[1..], line, st1);
    } else {
      SelectCommandLastMatch(cmds[1..], line, st1, j - 1);
    }
  }

  /** Outside a datapath command, a blank line ends the section but leaves the command open. */
  lemma {:induction false} BlankLineEndsSection(cmds: seq<string>, activeOnly: bool, st: ParserState, raw: string)
    requires Shape(cmds, st) && st.inCont && !IsDatapath(st.curCmd) && RStrip(raw) == ""
    ensures Step(cmds, activeOnly, st, raw) == Ok(st.(inCont := false))
    ensures Step(cmds, activeOnly, st, raw).value.inTable
  {
  }

  /** In a datapath session table a blank line, or one that starts with a MAC address, is skipped. */
  lemma {:induction false} DatapathSkips(cmds: seq<string>, activeOnly: bool, st: ParserState, raw: string)
    requires Shape(cmds, st) && st.inCont && IsDatapath(st.curCmd)
    requires RStrip(raw) == "" || StartsWithMac(RStrip(raw))
    ensures Step(cmds, activeOnly, st, raw) == Ok(st)
  {
  }

  /**
   * In a datapath session table the first other line that does not start
   * with a digit closes the command; the line itself is consumed, not tried
   * as a command start.
   */
  lemma {:induction false} DatapathNonDigitCloses(cmds: seq<string>, activeOnly: bool, st: ParserState, raw: string)
    requires Shape(cmds, st) && st.inCont && IsDatapath(st.curCmd)
    requires RStrip(raw) != "" && !StartsWithMac(RStrip(raw)) && !IsDigit(RStrip(raw)[0])
    ensures Step(cmds, activeOnly, st, raw) == Ok(StoreIfNonEmpty(st.(inTable := false, inCont := false)))
  {
  }

  /** In the association table a line starting "Num Clients:" closes the command, and is consumed. */
  lemma {:induction false} AssociationClosesOnNumClients(cmds: seq<string>, activeOnly: bool, st: ParserState, raw: string)
    requires Shape(cmds, st) && st.inCont && st.curCmd == AP_ASSOCIATION_TABLE
    requires StartsWith(RStrip(raw), "Num Clients:")
    ensures Step(cmds, activeOnly, st, raw) == Ok(StoreIfNonEmpty(st.(inTable := false, inCont := false)))
  {
  }

  /** Between sections a line containing "show " closes the command and is then tried as a command start. */
  lemma {:induction false} ShowClosesCommand(cmds: seq<string>, activeOnly: bool, st: ParserState, raw: string)
    requires Shape(cmds, st) && !st.inCont && st.inTable && Contains(RStrip(raw), "show ")
    ensures Step(cmds, activeOnly, st, raw) == Ok(SelectCommand(cmds, RStrip(raw), StoreIfNonEmpty(st.(inTable := false))))
  {
  }

  /** A separator in an occurrence that already has rows only resets the offsets: no second header. */
  lemma {:induction false} LaterSeparatorKeepsRows(st: ParserState, line: string)
    requires IsSeparator(line) && st.curTable != []
    ensures OpenSection(st, line) == Ok(st.(inCont := true, idx := Offsets(line)))
  {
  }
}
