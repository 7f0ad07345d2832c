/**
 * retry_rates.py: over the tables of 'show ap debug client-table', the
 * row with the most Tx packets per client MAC, ignoring rows under 4000
 * packets, with its retry rate.  The script prints the clients after
 * every table, so what it prints is one snapshot per table read.
 */
module RetryRates {
  import opened Wrappers
  import opened Text
  import Results

  /** Tx_Pkts below which a client is ignored. */
  const TxPktsThreshold := 4000

  /**
   * How the script ends early: `get_tables` found nothing (`len(None)`),
   * an empty table or a short row (IndexError), a header without one of
   * the columns (`list.index`), a count that is no integer (`int()`).
   */
  datatype Failure = NoTables | EmptyTable | MissingColumn(name: string) | ShortRow | BadInt

  /** The positions of the columns the script reads, from the table's own header. */
  datatype Columns = Columns(pkts: nat, retries: nat, snr: nat, rate: nat)

  /** One data row as the loop reads it. */
  datatype Client = Client(mac: string, row: seq<string>, txPkts: int, txRetries: int)

  /** `retry_rate[mac]` as the exact ratio `retries / pkts` (times 100 when printed). */
  datatype Rate = Rate(retries: int, pkts: int)

  predicate Eligible(c: Client) { c.txPkts >= TxPktsThreshold }

  function Column(header: seq<string>, name: string): (r: Result<nat, Failure>)
    ensures r.Ok? ==> r.value < |header| && header[r.value] == name
    ensures r.Err? ==> r.error == MissingColumn(name) && name !in header
  {
    match IndexOf(header, name)
      case None => Err(MissingColumn(name))
      case Some(k) => Ok(k)
  }

  /** `tbl[0].index(...)` for the four columns, in the script's order. */
  function Resolve(header: seq<string>): Result<Columns, Failure>
  {
    match Column(header, "Tx_Pkts")
      case Err(f) => Err(f)
      case Ok(p) =>
        match Column(header, "Tx_Retries")
          case Err(f) => Err(f)
          case Ok(r) =>
            match Column(header, "Last_Rx_SNR")
              case Err(f) => Err(f)
              case Ok(s) =>
                match Column(header, "Tx_Rate")
                  case Err(f) => Err(f)
                  case Ok(t) => Ok(Columns(p, r, s, t))
  }

  /** `mac = row[0]`, `int(row[idx_tx_pkts])`, `int(row[idx_tx_retr])`, in that order. */
  function ReadRow(cols: Columns, row: seq<string>): Result<Client, Failure>
  {
    if |row| == 0 || cols.pkts >= |row| then Err(ShortRow)
    else match ParseInt(row[cols.pkts])
      case None => Err(BadInt)
      case Some(p) =>
        if cols.retries >= |row| then Err(ShortRow)
        else match ParseInt(row[cols.retries])
          case None => Err(BadInt)
          case Some(r) => Ok(Client(row[0], row, p, r))
  }

  /** The clients of the data rows, up to the first row that fails. */
  function ReadRows(cols: Columns, rows: seq<seq<string>>): Result<seq<Client>, Failure>
  {
    Results.Gather(RowResults(cols, rows))
  }

  function RowResults(cols: Columns, rows: seq<seq<string>>): (rs: seq<Result<Client, Failure>>)
    ensures |rs| == |rows| && forall i :: 0 <= i < |rows| ==> rs[i] == ReadRow(cols, rows[i])
  {
    seq(|rows|, i requires 0 <= i < |rows| => ReadRow(cols, rows[i]))
  }

  /** The clients of one table: its header resolved, then its data rows. */
  function TableClients(tbl: seq<seq<string>>): Result<seq<Client>, Failure>
  {
    if tbl == [] then Err(EmptyTable)
    else match Resolve(tbl[0])
      case Err(f) => Err(f)
      case Ok(cols) => ReadRows(cols, tbl[1..])
  }

  /** The clients of all the tables, in order, up to the first failure. */
  function Clients(tbls: seq<seq<seq<string>>>): Result<seq<Client>, Failure>
  {
    if tbls == [] then Ok([])
    else match Clients(tbls[..|tbls| - 1])
      case Err(f) => Err(f)
      case Ok(cs) =>
        match TableClients(tbls[|tbls| - 1])
          case Err(f) => Err(f)
          case Ok(c) => Ok(cs + c)
  }

  /** One row into the dict: skipped under the threshold or under the stored count, stored otherwise. */
  function Update(d: map<string, Client>, c: Client): map<string, Client>
  {
    if !Eligible(c) then d
    else if c.mac in d && c.txPkts < d[c.mac].txPkts then d
    else d[c.mac := c]
  }

  /** The client kept per MAC after the rows `cs`. */
  function Selected(cs: seq<Client>): map<string, Client>
  {
    if cs == [] then map[] else Update(Selected(cs[..|cs| - 1]), cs[|cs| - 1])
  }

  /** What the script prints: one snapshot after each table read, and how it ended. */
  datatype Report = Report(printed: seq<map<string, Client>>, failure: Option<Failure>)

  function Printed(tbls: seq<seq<seq<string>>>): seq<map<string, Client>>
  {
    if tbls == [] then []
    else if Clients(tbls).Err? then Printed(tbls[..|tbls| - 1])
    else Printed(tbls[..|tbls| - 1]) + [Selected(Clients(tbls).value)]
  }

  /** The script on the result of `get_tables` (None when there is no table). */
  function RetryRates(tbls: Option<seq<seq<seq<string>>>>): Report
  {
    match tbls
      case None => Report([], Some(NoTables))
      case Some(ts) => Report(Printed(ts), if Clients(ts).Err? then Some(Clients(ts).error) else None)
  }

  /** The three dicts of the script: the same keys as `d`, and the projections of its clients. */
  predicate Holds(maxTxPkts: map<string, int>, rows: map<string, seq<string>>, rate: map<string, Rate>, d: map<string, Client>)
  {
    maxTxPkts.Keys == d.Keys && rows.Keys == d.Keys && rate.Keys == d.Keys
    && forall k :: k in d ==>
      maxTxPkts[k] == d[k].txPkts && rows[k] == d[k].row && rate[k] == Rate(d[k].txRetries, d[k].txPkts)
  }

  /** The three dicts after the rows `cs`. */
  ghost predicate Dicts(maxTxPkts: map<string, int>, rows: map<string, seq<string>>, rate: map<string, Rate>, cs: seq<Client>)
  {
    Holds(maxTxPkts, rows, rate, Selected(cs))
  }

  /** The loop over one table's data rows, updating the three dicts. */
  method ReadTable(tbl: seq<seq<string>>, ghost cs: seq<Client>,
                   maxTxPkts: map<string, int>, rows: map<string, seq<string>>, rate: map<string, Rate>)
    returns (r: Result<(map<string, int>, map<string, seq<string>>, map<string, Rate>), Failure>)
    requires Dicts(maxTxPkts, rows, rate, cs)
    ensures r.Err? <==> TableClients(tbl).Err?
    ensures r.Err? ==> r.error == TableClients(tbl).error
    ensures r.Ok? ==> Dicts(r.value.0, r.value.1, r.value.2, cs + TableClients(tbl).value)
  {
    if tbl == [] {
      return Err(EmptyTable);
    }
    var cols := Resolve(tbl[0]);
    if cols.Err? {
      return Err(cols.error);
    }
    r := ReadData(cols.value, tbl[1..], cs, maxTxPkts, rows, rate);
  }

  /** The loop over a table's data rows. */
  method ReadData(cols: Columns, data: seq<seq<string>>, ghost cs: seq<Client>,
                  maxTxPkts: map<string, int>, rows: map<string, seq<string>>, rate: map<string, Rate>)
    returns (r: Result<(map<string, int>, map<string, seq<string>>, map<string, Rate>), Failure>)
    requires Dicts(maxTxPkts, rows, rate, cs)
    ensures r.Err? <==> ReadRows(cols, data).Err?
    ensures r.Err? ==> r.error == ReadRows(cols, data).error
    ensures r.Ok? ==> Dicts(r.value.0, r.value.1, r.value.2, cs + ReadRows(cols, data).value)
  {
    var m, rs, rt := maxTxPkts, rows, rate;
    ghost var results := RowResults(cols, data);
    ghost var read: seq<Client> := [];
    ghost var d := Selected(cs);
    assert cs + read == cs;
    for i := 0 to |data|
      invariant Results.Gather(results[..i]) == Ok(read)
      invariant d == Selected(cs + read) && Holds(m, rs, rt, d)
    {
      var c := ReadRow(cols, data[i]);
      Results.GatherStep(results, i, read);
      if c.Err? {
        Results.GatherStop(results, i + 1);
        return Err(c.error);
      }
      m, rs, rt := Store(c.value, m, rs, rt, d);
      SelectedSnoc(cs + read, c.value);
      AppendAssoc(cs, read, c.value);
      read := read + [c.value];
      d := Update(d, c.value);
    }
    assert results[..|data|] == results;
    return Ok((m, rs, rt));
  }

  lemma {:induction false} AppendAssoc<T>(a: seq<T>, b: seq<T>, x: T)
    ensures a + (b + [x]) == a + b + [x]
  {
  }

  lemma {:induction false} SelectedSnoc(cs: seq<Client>, c: Client)
    ensures Selected(cs + [c]) == Update(Selected(cs), c)
  {
    assert (cs + [c])[..|cs|] == cs;
  }

  /** One row into the three dicts: ignored under the threshold or under the stored count. */
  method Store(c: Client, maxTxPkts: map<string, int>, rows: map<string, seq<string>>, rate: map<string, Rate>, ghost d: map<string, Client>)
    returns (maxTxPkts': map<string, int>, rows': map<string, seq<string>>, rate': map<string, Rate>)
    requires Holds(maxTxPkts, rows, rate, d)
    ensures Holds(maxTxPkts', rows', rate', Update(d, c))
  {
    maxTxPkts', rows', rate' := maxTxPkts, rows, rate;
    if c.txPkts < TxPktsThreshold {
      return;
    }
    if c.mac in maxTxPkts && c.txPkts < maxTxPkts[c.mac] {
      return;
    }
    maxTxPkts' := maxTxPkts[c.mac := c.txPkts];
    rows' := rows[c.mac := c.row];
    rate' := rate[c.mac := Rate(c.txRetries, c.txPkts)];
  }

  /** The script: every table in turn, the dicts carried over, a snapshot printed after each. */
  method Run(tbls: Option<seq<seq<seq<string>>>>) returns (r: Report)
    ensures r == RetryRates(tbls)
  {
    if tbls.None? {
      return Report([], Some(NoTables));
    }
    var ts := tbls.value;
    var m: map<string, int> := map[];
    var rs: map<string, seq<string>> := map[];
    var rt: map<string, Rate> := map[];
    var printed: seq<map<string, Client>> := [];
    ghost var cs: seq<Client> := [];
    for i := 0 to |ts|
      invariant Clients(ts[..i]) == Ok(cs)
      invariant Dicts(m, rs, rt, cs)
      invariant printed == Printed(ts[..i])
    {
      assert ts[..i + 1][..i] == ts[..i];
      var step := ReadTable(ts[i], cs, m, rs, rt);
      if step.Err? {
        ClientsStop(ts, i + 1);
        PrintedStop(ts, i + 1);
        return Report(printed, Some(step.error));
      }
      cs := cs + TableClients(ts[i]).value;
      m, rs, rt := step.value.0, step.value.1, step.value.2;
      printed := printed + [Snapshot(m, rs, rt, cs)];
    }
    assert ts[..|ts|] == ts;
    return Report(printed, None);
  }

  /** The kept clients, read back from the three dicts. */
  function Snapshot(m: map<string, int>, rs: map<string, seq<string>>, rt: map<string, Rate>, ghost cs: seq<Client>): (d: map<string, Client>)
    requires Dicts(m, rs, rt, cs)
    ensures d == Selected(cs)
  {
    SelectedMacs(cs);
    map k | k in m :: Client(k, rs[k], m[k], rt[k].retries)
  }

  /** Each client is stored under its own MAC. */
  lemma {:induction false} SelectedMacs(cs: seq<Client>)
    ensures forall k :: k in Selected(cs) ==> Selected(cs)[k].mac == k
    decreases |cs|
  {
    if cs != [] {
      SelectedMacs(cs[..|cs| - 1]);
    }
  }

  lemma {:induction false} ClientsStop(tbls: seq<seq<seq<string>>>, i: nat)
    requires 0 < i <= |tbls| && Clients(tbls[..i]).Err?
    ensures Clients(tbls) == Clients(tbls[..i])
    decreases |tbls|
  {
    if i < |tbls| {
      var pre := tbls[..|tbls| - 1];
      assert pre[..i] == tbls[..i];
      ClientsStop(pre, i);
    } else {
      assert tbls[..i] == tbls;
    }
  }

  /** After a failing table nothing more is printed. */
  lemma {:induction false} PrintedStop(tbls: seq<seq<seq<string>>>, i: nat)
    requires 0 < i <= |tbls| && Clients(tbls[..i]).Err?
    ensures Printed(tbls) == Printed(tbls[..i - 1])
    decreases |tbls|
  {
    if i < |tbls| {
      var pre := tbls[..|tbls| - 1];
      assert pre[..i] == tbls[..i];
      ClientsStop(tbls, i);
      PrintedStop(pre, i);
      assert pre[..i - 1] == tbls[..i - 1];
    } else {
      assert tbls[..i] == tbls;
    }
  }

  /** The clients kept are exactly those with some row of at least 4000 packets. */
  lemma {:induction false} SelectedKeys(cs: seq<Client>)
    ensures forall k :: k in Selected(cs) <==> exists i :: 0 <= i < |cs| && cs[i].mac == k && Eligible(cs[i])
    decreases |cs|
  {
    if cs != [] {
      var pre := cs[..|cs| - 1];
      SelectedKeys(pre);
      forall k
        ensures k in Selected(cs) <==> exists i :: 0 <= i < |cs| && cs[i].mac == k && Eligible(cs[i])
      {
        if k in Selected(pre) {
          var i :| 0 <= i < |pre| && pre[i].mac == k && Eligible(pre[i]);
          assert cs[i] == pre[i];
        }
        if exists i :: 0 <= i < |cs| && cs[i].mac == k && Eligible(cs[i]) {
          var i :| 0 <= i < |cs| && cs[i].mac == k && Eligible(cs[i]);
          if i < |pre| {
            assert pre[i] == cs[i];
          }
        }
      }
    }
  }

  /**
   * Row `i` is the one kept for `k`: its packet count is the largest of
   * `k`'s rows, at least the threshold, and no later row of `k` has as many.
   */
  ghost predicate KeptAt(cs: seq<Client>, k: string, i: int)
  {
    0 <= i < |cs| && cs[i].mac == k && Eligible(cs[i])
    && (forall j :: 0 <= j < |cs| && cs[j].mac == k ==> cs[j].txPkts <= cs[i].txPkts)
    && (forall j :: i < j < |cs| && cs[j].mac == k ==> cs[j].txPkts < cs[i].txPkts)
  }

  /** Each MAC holds its row with the most packets, the last of equal counts. */
  lemma {:induction false} SelectedMax(cs: seq<Client>, k: string)
    requires k in Selected(cs)
    ensures exists i :: KeptAt(cs, k, i) && Selected(cs)[k] == cs[i]
    decreases |cs|
  {
    var pre := cs[..|cs| - 1];
    var c := cs[|cs| - 1];
    var n := |cs| - 1;
    if k in Selected(pre) {
      SelectedMax(pre, k);
      var i :| KeptAt(pre, k, i) && Selected(pre)[k] == pre[i];
      if c.mac == k && Eligible(c) && c.txPkts >= pre[i].txPkts {
        KeptLast(cs, k, i);
      } else {
        KeptEarlier(cs, k, i);
      }
    } else {
      SelectedKeys(pre);
      KeptFirst(cs, pre, k);
    }
  }

  /** A last row at least as large as the row kept before it is kept. */
  lemma {:induction false} KeptLast(cs: seq<Client>, k: string, i: int)
    requires cs != [] && KeptAt(cs[..|cs| - 1], k, i)
    requires cs[|cs| - 1].mac == k && Eligible(cs[|cs| - 1]) && cs[|cs| - 1].txPkts >= cs[i].txPkts
    ensures KeptAt(cs, k, |cs| - 1)
  {
    var n := |cs| - 1;
    forall j | 0 <= j < n && cs[j].mac == k
      ensures cs[j].txPkts <= cs[n].txPkts
    {
      assert cs[..n][j] == cs[j];
    }
  }

  /** A last row that is not kept leaves the earlier kept row kept. */
  lemma {:induction false} KeptEarlier(cs: seq<Client>, k: string, i: int)
    requires cs != [] && KeptAt(cs[..|cs| - 1], k, i)
    requires !(cs[|cs| - 1].mac == k && Eligible(cs[|cs| - 1]) && cs[|cs| - 1].txPkts >= cs[i].txPkts)
    ensures KeptAt(cs, k, i)
  {
    var n := |cs| - 1;
    assert cs[..n][i] == cs[i];
    forall j | 0 <= j < n && cs[j].mac == k
      ensures cs[j].txPkts <= cs[i].txPkts
    {
      assert cs[..n][j] == cs[j];
    }
    forall j | i < j < n && cs[j].mac == k
      ensures cs[j].txPkts < cs[i].txPkts
    {
      assert cs[..n][j] == cs[j];
    }
  }

  /** The first eligible row of a MAC is kept. */
  lemma {:induction false} KeptFirst(cs: seq<Client>, pre: seq<Client>, k: string)
    requires cs != [] && pre == cs[..|cs| - 1] && cs[|cs| - 1].mac == k && Eligible(cs[|cs| - 1])
    requires forall j :: 0 <= j < |pre| && pre[j].mac == k ==> !Eligible(pre[j])
    ensures KeptAt(cs, k, |cs| - 1)
  {
    var n := |cs| - 1;
    forall j | 0 <= j < n && cs[j].mac == k
      ensures cs[j].txPkts <= cs[n].txPkts
    {
      assert cs[..n][j] == cs[j];
    }
  }
}
