/**
 * The query side of aos_parser.py: how many occurrences of a command were
 * stored, the first or every occurrence, and the column projection that
 * skips the header and yields a bare cell for one column or a tuple for
 * several.
 */
module AosQuery {
  import opened Wrappers
  import opened Text
  import opened AosParser
  import opened AosParserFacts

  /** One projected data row: a bare cell when one column is asked for, a tuple otherwise. */
  datatype Projected = Cell(value: string) | Tuple(items: seq<string>)

  /** What get_table / get_tables hand back for one occurrence. */
  datatype View =
    | Whole(table: Table)                                 // no columns asked for
    | Columns(rows: Result<seq<Projected>, ParseError>)   // the projection, or the exception it raises

  /** `[header.index(col) for col in cols]`: the first position of every column, or the first missing name. */
  function ColumnIndices(header: Row, cols: seq<string>): (r: Result<seq<nat>, ParseError>)
    ensures r.Ok? <==> forall k :: 0 <= k < |cols| ==> cols[k] in header
    ensures r.Ok? ==> |r.value| == |cols|
    ensures r.Ok? ==> forall k :: 0 <= k < |cols| ==> IndexOf(header, cols[k]) == Some(r.value[k])
    ensures r.Err? ==> r.error.ColumnNotFound? && r.error.name in cols && r.error.name !in header
    decreases |cols|
  {
    if cols == [] then Ok([])
    else match IndexOf(header, cols[0])
      case None => Err(ColumnNotFound(cols[0]))
      case Some(i) =>
        match ColumnIndices(header, cols[1..])
        case Err(e) => Err(e)
        case Ok(rest) => Ok([i] + rest)
  }

  /** The row reaches every index. */
  predicate Covers(row: Row, idx: seq<nat>)
  {
    forall k :: 0 <= k < |idx| ==> idx[k] < |row|
  }

  /** `p` is the projection of `row` on `idx`. */
  predicate ProjectionOf(row: Row, idx: seq<nat>, single: bool, p: Projected)
    requires Covers(row, idx)
  {
    if single then |idx| >= 1 && p == Cell(row[idx[0]])
    else p.Tuple? && |p.items| == |idx| && forall k :: 0 <= k < |idx| ==> p.items[k] == row[idx[k]]
  }

  function ProjectRow(row: Row, idx: seq<nat>, single: bool): (r: Result<Projected, ParseError>)
    requires single ==> |idx| >= 1
    ensures r.Ok? <==> (if single then idx[0] < |row| else Covers(row, idx))
    ensures r.Ok? && Covers(row, idx) ==> ProjectionOf(row, idx, single, r.value)
    ensures r.Err? ==> r.error == CellOutOfRange
  {
    if single then
      if idx[0] < |row| then Ok(Cell(row[idx[0]])) else Err(CellOutOfRange)
    else if Covers(row, idx) then Ok(Tuple(seq(|idx|, k requires 0 <= k < |idx| => row[idx[k]])))
    else Err(CellOutOfRange)
  }

  /** The projections of the rows, in order, or the IndexError a short row raises. */
  function ProjectRows(rows: seq<Row>, idx: seq<nat>, single: bool): (r: Result<seq<Projected>, ParseError>)
    requires single ==> |idx| >= 1
    ensures r.Ok? <==> forall i :: 0 <= i < |rows| ==> ProjectRow(rows[i], idx, single).Ok?
    ensures r.Ok? ==> |r.value| == |rows| && forall i :: 0 <= i < |rows| ==> Ok(r.value[i]) == ProjectRow(rows[i], idx, single)
    ensures r.Err? ==> r.error == CellOutOfRange
    decreases |rows|
  {
    if rows == [] then Ok([])
    else match ProjectRow(rows[0], idx, single)
      case Err(e) => Err(e)
      case Ok(p) =>
        match ProjectRows(rows[1..], idx, single)
        case Err(e) => Err(e)
        case Ok(rest) =>
          assert forall i :: 1 <= i < |rows| ==> rows[1..][i - 1] == rows[i];
          Ok([p] + rest)
  }

  /** _get_cols_gen(tbl, *cols): the data rows projected on the named columns. */
  function ColsGen(tbl: Table, cols: seq<string>): (r: Result<seq<Projected>, ParseError>)
    ensures tbl == [] ==> r == Err(CellOutOfRange)
    ensures tbl != [] && (exists k :: 0 <= k < |cols| && cols[k] !in tbl[0]) ==> r.Err? && r.error.ColumnNotFound?
    ensures r.Ok? ==> |r.value| == |tbl| - 1
    ensures tbl != [] && ColumnIndices(tbl[0], cols).Ok? ==>
      (r.Ok? <==> forall i :: 1 <= i < |tbl| ==> ProjectRow(tbl[i], ColumnIndices(tbl[0], cols).value, |cols| == 1).Ok?)
    ensures r.Ok? ==> tbl != [] && ColumnIndices(tbl[0], cols).Ok?
    ensures r.Ok? ==> forall i :: 0 <= i < |r.value| ==> ProjectRow(tbl[i + 1], ColumnIndices(tbl[0], cols).value, |cols| == 1) == Ok(r.value[i])
    ensures r.Err? && tbl != [] && ColumnIndices(tbl[0], cols).Ok? ==> r.error == CellOutOfRange
  {
    if tbl == [] then Err(CellOutOfRange)
    else match ColumnIndices(tbl[0], cols)
      case Err(e) => Err(e)
      case Ok(idx) =>
        var data := tbl[1..];
        assert forall i :: 0 <= i < |data| ==> data[i] == tbl[i + 1];
        assert forall i :: 1 <= i < |tbl| ==> tbl[i] == data[i - 1];
        ProjectRows(data, idx, |cols| == 1)
  }

  /** get_num_tables(cmd) */
  function NumTables(tables: map<string, seq<Table>>, cmd: string): (n: nat)
    ensures cmd !in tables ==> n == 0
    ensures cmd in tables ==> n == |tables[cmd]|
  {
    if cmd !in tables then 0 else |tables[cmd]|
  }

  function ViewOf(tbl: Table, cols: seq<string>): View
  {
    if |cols| != 0 then Columns(ColsGen(tbl, cols)) else Whole(tbl)
  }

  /** get_tables(cmd, *cols): every stored occurrence, whole or projected; None when nothing is stored. */
  function GetTables(tables: map<string, seq<Table>>, cmd: string, cols: seq<string>): (r: Option<seq<View>>)
    ensures r.None? <==> NumTables(tables, cmd) == 0
    ensures r.Some? ==> |r.value| == NumTables(tables, cmd)
    ensures r.Some? ==> forall i :: 0 <= i < |r.value| ==> r.value[i] == ViewOf(tables[cmd][i], cols)
  {
    if cmd !in tables || |tables[cmd]| == 0 then None
    else Some(seq(|tables[cmd]|, i requires 0 <= i < |tables[cmd]| => ViewOf(tables[cmd][i], cols)))
  }

  /** get_table(cmd, *cols): the first stored occurrence, whole or projected; None when nothing is stored. */
  function GetTable(tables: map<string, seq<Table>>, cmd: string, cols: seq<string>): (r: Option<View>)
    ensures r.None? <==> NumTables(tables, cmd) == 0
  {
    if cmd !in tables || |tables[cmd]| == 0 then None
    else Some(ViewOf(tables[cmd][0], cols))
  }

  /** get_table is the first element of get_tables. */
  lemma {:induction false} GetTableIsFirst(tables: map<string, seq<Table>>, cmd: string, cols: seq<string>)
    ensures GetTable(tables, cmd, cols).None? <==> GetTables(tables, cmd, cols).None?
    ensures GetTable(tables, cmd, cols).Some? ==> GetTable(tables, cmd, cols).value == GetTables(tables, cmd, cols).value[0]
  {
  }

  /**
   * With only active APs kept, projecting a parsed AP-database occurrence on
   * its Status column raises nothing, and every projected cell starts with "Up".
   */
  lemma {:induction false} ActiveStatusColumn(lines: seq<string>, cmds: seq<string>, cmd: string)
    requires Parse(lines, cmds, true).Ok? && IsApDatabase(cmd)
    requires GetTable(Parse(lines, cmds, true).value, cmd, ["Status"]).Some?
    ensures match GetTable(Parse(lines, cmds, true).value, cmd, ["Status"]).value
      case Whole(_) => false
      case Columns(rows) => rows.Ok? && forall p :: p in rows.value ==> p.Cell? && StartsWith(p.value, "Up")
  {
    var m := Parse(lines, cmds, true).value;
    ParsedTablesOk(lines, cmds, true);
    var t := m[cmd][0];
    assert t in m[cmd];
    assert StoredOk(cmd, true, t);
    assert StatusFiltered(true, t);
    assert IndexOf(t[0], "Status").Some?;
    var k := IndexOf(t[0], "Status").value;
    var ci := ColumnIndices(t[0], ["Status"]);
    assert ci.Ok?;
    assert IndexOf(t[0], ["Status"][0]) == Some(ci.value[0]);
    assert ci.value == [k];
    var rows := t[1..];
    assert forall i :: 0 <= i < |rows| ==> rows[i] == t[i + 1];
    var r := ProjectRows(rows, [k], true);
    assert r.Ok?;
    forall p | p in r.value
      ensures p.Cell? && StartsWith(p.value, "Up")
    {
      var i :| 0 <= i < |r.value| && r.value[i] == p;
      assert Ok(p) == ProjectRow(rows[i], [k], true);
    }
  }
}
