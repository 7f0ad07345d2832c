/**
 * The two renderings of a table in aos_parser.py: table2str, which pads every
 * cell but the last to its column's widest cell and separates columns by two
 * spaces, and table2csv, which joins cells with commas. Both produce one line
 * per row, each ended by a newline, and nothing for a table without data rows.
 */
module AosFormat {
  import opened Wrappers
  import opened Text
  import opened AosParser

  function Min(a: nat, b: nat): nat { if a <= b then a else b }

  function Max(a: nat, b: nat): nat { if a >= b then a else b }

  function Zeros(n: nat): (r: seq<nat>)
    ensures |r| == n && forall i :: 0 <= i < n ==> r[i] == 0
  {
    seq(n, _ => 0)
  }

  /** `list(map(max, widths, map(len, row)))`: map stops at the shorter of the two. */
  function WidenBy(w: seq<nat>, row: Row): (r: seq<nat>)
    ensures |r| == Min(|w|, |row|)
  {
    seq(Min(|w|, |row|), i requires 0 <= i < Min(|w|, |row|) => Max(w[i], |row[i]|))
  }

  /** The widths after the loop has visited `rows` in order, starting from `w`. */
  function Widths(rows: seq<Row>, w: seq<nat>): seq<nat>
    decreases |rows|
  {
    if rows == [] then w else WidenBy(Widths(rows[..|rows| - 1], w), rows[|rows| - 1])
  }

  /**
   * The fold computes column maxima: one width per column every row has,
   * each at least the start value and every row's cell length, and equal
   * to the start value or to some row's cell length.
   */
  lemma {:induction false} WidthsAreMaxima(rows: seq<Row>, w: seq<nat>)
    ensures |Widths(rows, w)| <= |w|
    ensures forall j :: 0 <= j < |rows| ==> |Widths(rows, w)| <= |rows[j]|
    ensures |Widths(rows, w)| == |w| || exists j :: 0 <= j < |rows| && |Widths(rows, w)| == |rows[j]|
    ensures forall i :: 0 <= i < |Widths(rows, w)| ==> Widths(rows, w)[i] >= w[i]
    ensures forall j, i :: 0 <= j < |rows| && 0 <= i < |Widths(rows, w)| ==> Widths(rows, w)[i] >= |rows[j][i]|
    ensures forall i :: 0 <= i < |Widths(rows, w)| ==>
      Widths(rows, w)[i] == w[i] || exists j :: 0 <= j < |rows| && Widths(rows, w)[i] == |rows[j][i]|
    decreases |rows|
  {
    if rows != [] {
      var n := |rows| - 1;
      var prefix := rows[..n];
      WidthsAreMaxima(prefix, w);
      var v := Widths(prefix, w);
      var r := Widths(rows, w);
      assert r == WidenBy(v, rows[n]);
      assert forall j :: 0 <= j < n ==> rows[j] == prefix[j];
      forall i | 0 <= i < |r|
        ensures r[i] == w[i] || exists j :: 0 <= j < |rows| && r[i] == |rows[j][i]|
      {
        if r[i] != |rows[n][i]| {
          assert r[i] == v[i];
          if v[i] != w[i] {
            var j :| 0 <= j < n && v[i] == |prefix[j][i]|;
            assert r[i] == |rows[j][i]|;
          }
        }
      }
      if |r| != |w| {
        if |r| != |rows[n]| {
          assert |r| == |v|;
          var j :| 0 <= j < n && |v| == |prefix[j]|;
          assert |r| == |rows[j]|;
        }
      }
    }
  }

  /** The column-width loop of table2str. */
  method ColumnWidths(table: Table) returns (w: seq<nat>)
    requires |table| >= 1
    ensures w == Widths(table, Zeros(|table[0]|))
  {
    w := Zeros(|table[0]|);
    var k := 0;
    while k < |table|
      invariant 0 <= k <= |table|
      invariant w == Widths(table[..k], Zeros(|table[0]|))
    {
      assert table[..k + 1][..k] == table[..k];
      w := WidenBy(w, table[k]);
      k := k + 1;
    }
    assert table[..k] == table;
  }

  /** '{:n}'.format(s): left-aligned, padded with spaces to at least n characters. */
  function PadRight(s: string, n: nat): (r: string)
    ensures |r| == Max(|s|, n)
    ensures r[..|s|] == s && forall i :: |s| <= i < |r| ==> r[i] == ' '
  {
    if |s| >= n then s else s + seq(n - |s|, _ => ' ')
  }

  /** The number of placeholders in the format string: one per width, at least one. */
  function Slots(w: seq<nat>): nat
  {
    Max(|w|, 1)
  }

  /** The formatted text from cell `i` on: padded cells with two spaces after each, the last cell as is. */
  function FormatFrom(row: Row, w: seq<nat>, i: nat): string
    requires i < Slots(w) <= |row|
    decreases Slots(w) - i
  {
    if i == Slots(w) - 1 then row[i] else PadRight(row[i], w[i]) + "  " + FormatFrom(row, w, i + 1)
  }

  function FormatRow(row: Row, w: seq<nat>): string
    requires Slots(w) <= |row|
  {
    FormatFrom(row, w, 0)
  }

  /** The column at which cell `k` starts when every earlier cell fits its width. */
  function Offset(w: seq<nat>, k: nat): nat
    requires k <= |w|
  {
    if k == 0 then 0 else Offset(w, k - 1) + w[k - 1] + 2
  }

  /** Rows joined by newlines, with a final newline. */
  function Lines(lines: seq<string>): string
  {
    Join(lines, '\n') + "\n"
  }

  /** table2str: None stands for the IndexError raised when the format string has more placeholders than a row has cells. */
  function Render(table: Table): Option<string>
  {
    if |table| < 2 then Some("")
    else
      var w := Widths(table, Zeros(|table[0]|));
      if exists i :: 0 <= i < |table| && |table[i]| < Slots(w) then None
      else Some(Lines(seq(|table|, i requires 0 <= i < |table| && Slots(w) <= |table[i]| => FormatRow(table[i], w))))
  }

  /** table2str, imperatively: the widths loop, then one formatted line per row. */
  method Table2Str(table: Table) returns (r: Option<string>)
    ensures r == Render(table)
  {
    if |table| < 2 {
      return Some("");
    }
    var w := ColumnWidths(table);
    var lines: seq<string> := [];
    var k := 0;
    while k < |table|
      invariant 0 <= k <= |table|
      invariant |lines| == k
      invariant forall i :: 0 <= i < k ==> Slots(w) <= |table[i]| && lines[i] == FormatRow(table[i], w)
    {
      if |table[k]| < Slots(w) {
        assert 0 <= k < |table| && |table[k]| < Slots(w);
        return None;
      }
      lines := lines + [FormatRow(table[k], w)];
      k := k + 1;
    }
    assert !exists i :: 0 <= i < |table| && |table[i]| < Slots(w);
    assert lines == seq(|table|, i requires 0 <= i < |table| && Slots(w) <= |table[i]| => FormatRow(table[i], w));
    r := Some(Lines(lines));
  }

  /** table2str fails exactly when there are data rows and some row is empty. */
  lemma {:induction false} RenderFails(table: Table)
    ensures Render(table).None? <==> |table| >= 2 && exists i :: 0 <= i < |table| && table[i] == []
  {
    if |table| >= 2 {
      var w0 := Zeros(|table[0]|);
      var w := Widths(table, w0);
      WidthsAreMaxima(table, w0);
      if exists i :: 0 <= i < |table| && table[i] == [] {
        var i :| 0 <= i < |table| && table[i] == [];
        assert |table[i]| < Slots(w);
      }
      if exists i :: 0 <= i < |table| && |table[i]| < Slots(w) {
        var i :| 0 <= i < |table| && |table[i]| < Slots(w);
        assert table[i] == [];
      }
    }
  }

  /** Where each cell lands in a formatted row: cell k starts at `Offset(w, k)`, after the earlier padded cells. */
  lemma {:induction false} FormatFromCells(row: Row, w: seq<nat>, i: nat, k: nat)
    requires i <= k < Slots(w) <= |row|
    requires forall m :: 0 <= m < |w| ==> |row[m]| <= w[m]
    ensures k <= |w| && Offset(w, i) <= Offset(w, k)
    ensures |FormatFrom(row, w, i)| >= Offset(w, k) - Offset(w, i) + |row[k]|
    ensures FormatFrom(row, w, i)[Offset(w, k) - Offset(w, i)..Offset(w, k) - Offset(w, i) + |row[k]|] == row[k]
    decreases k - i
  {
    if i == k {
      if i < Slots(w) - 1 {
        var p := PadRight(row[i], w[i]);
        assert FormatFrom(row, w, i) == p + "  " + FormatFrom(row, w, i + 1);
        CellAtFront(p, FormatFrom(row, w, i + 1), row[i]);
      }
    } else {
      FormatFromCells(row, w, i + 1, k);
      CellShift(row, w, i, k);
    }
  }

  /** FormatFromCells, one cell back: what holds from cell i + 1 on holds from cell i, shifted by the padded cell i. */
  lemma {:induction false} CellShift(row: Row, w: seq<nat>, i: nat, k: nat)
    requires i < k < Slots(w) <= |row|
    requires forall m :: 0 <= m < |w| ==> |row[m]| <= w[m]
    requires k <= |w| && Offset(w, i + 1) <= Offset(w, k)
    requires |FormatFrom(row, w, i + 1)| >= Offset(w, k) - Offset(w, i + 1) + |row[k]|
    requires FormatFrom(row, w, i + 1)[Offset(w, k) - Offset(w, i + 1)..Offset(w, k) - Offset(w, i + 1) + |row[k]|] == row[k]
    ensures Offset(w, i) <= Offset(w, k)
    ensures |FormatFrom(row, w, i)| >= Offset(w, k) - Offset(w, i) + |row[k]|
    ensures FormatFrom(row, w, i)[Offset(w, k) - Offset(w, i)..Offset(w, k) - Offset(w, i) + |row[k]|] == row[k]
  {
    var p := PadRight(row[i], w[i]);
    var t := FormatFrom(row, w, i + 1);
    assert |p| == w[i];
    assert FormatFrom(row, w, i) == p + "  " + t;
    assert Offset(w, i + 1) == Offset(w, i) + w[i] + 2;
    CellAfter(p, t, Offset(w, k) - Offset(w, i + 1), row[k]);
  }

  /** A padded cell followed by the rest starts with the cell. */
  lemma {:induction false} CellAtFront(p: string, t: string, x: string)
    requires |x| <= |p| && p[..|x|] == x
    ensures |p + "  " + t| >= |x| && (p + "  " + t)[..|x|] == x
  {
    assert (p + "  " + t)[..|x|] == p[..|x|];
  }

  /** A cell found in the rest is found two spaces after the padded cell. */
  lemma {:induction false} CellAfter(p: string, t: string, a: nat, x: string)
    requires a + |x| <= |t| && t[a..a + |x|] == x
    ensures |p + "  " + t| >= |p| + 2 + a + |x|
    ensures (p + "  " + t)[|p| + 2 + a..|p| + 2 + a + |x|] == x
  {
    var s := p + "  " + t;
    assert s[|p| + 2..] == t;
    assert s[|p| + 2 + a..|p| + 2 + a + |x|] == s[|p| + 2..][a..a + |x|];
  }

  /**
   * The columns of table2str line up: in every line, cell k of that row
   * starts at the same column `Offset(w, k)`, w being the column widths.
   */
  lemma {:induction false} RenderAligned(table: Table, s: string, i: nat, k: nat)
    requires Render(table) == Some(s) && |table| >= 2 && i < |table|
    ensures var w := Widths(table, Zeros(|table[0]|));
      k < Slots(w) ==>
        Slots(w) <= |table[i]| && k <= |w|
        && |FormatRow(table[i], w)| >= Offset(w, k) + |table[i][k]|
        && FormatRow(table[i], w)[Offset(w, k)..Offset(w, k) + |table[i][k]|] == table[i][k]
  {
    var w0 := Zeros(|table[0]|);
    var w := Widths(table, w0);
    WidthsAreMaxima(table, w0);
    if k < Slots(w) {
      assert !(|table[i]| < Slots(w));
      FormatFromCells(table[i], w, 0, k);
    }
  }

  /** table2csv */
  function Table2Csv(table: Table): string
  {
    if |table| < 2 then ""
    else Lines(seq(|table|, i requires 0 <= i < |table| => Join(table[i], ',')))
  }

  /** A cell safe for CSV: neither a comma nor a newline inside. */
  predicate CsvSafe(cell: string)
  {
    ',' !in cell && '\n' !in cell
  }

  /**
   * table2csv round trip: when no cell holds a comma or a newline and no row
   * is empty, splitting the text before its final newline at newlines, and
   * every line at commas, gives the table back.
   */
  lemma {:induction false} CsvRoundTrip(table: Table)
    requires |table| >= 2
    requires forall i :: 0 <= i < |table| ==> table[i] != []
    requires forall i, j :: 0 <= i < |table| && 0 <= j < |table[i]| ==> CsvSafe(table[i][j])
    ensures var s := Table2Csv(table);
      |s| >= 1 && s[|s| - 1] == '\n'
      && |Split(s[..|s| - 1], '\n')| == |table|
      && forall i :: 0 <= i < |table| ==> Split(Split(s[..|s| - 1], '\n')[i], ',') == table[i]
  {
    var lines := seq(|table|, i requires 0 <= i < |table| => Join(table[i], ','));
    forall i | 0 <= i < |table|
      ensures '\n' !in lines[i] && Split(lines[i], ',') == table[i]
    {
      JoinAvoids(table[i], ',', '\n');
      SplitJoin(table[i], ',');
    }
    var s := Table2Csv(table);
    assert s == Join(lines, '\n') + "\n";
    assert s[..|s| - 1] == Join(lines, '\n');
    SplitJoin(lines, '\n');
  }
}
