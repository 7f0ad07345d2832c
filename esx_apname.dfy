/**
 * esx-apname.py: renames the access points of an Ekahau survey to the
 * names the controller knows them by.
 *
 * The BSSID to AP-name map is built from 'show ap bss-table' tables (a
 * BSSID seen under two names maps to the marker "DUP").  Then each survey
 * AP whose name is a placeholder '実際 AP-xx:xx' or 'Measured AP-xx:xx'
 * takes the name of the AP behind one of its measured BSSIDs (Aruba APs),
 * or its vendor name and 'xx:xx' (other vendors, with --vendor).
 *
 * The survey files are taken as the three already-decoded JSON lists; the
 * zip archives and the JSON text are not modelled.  The loop variable
 * `bss` of the script outlives its loops: an AP without measurements
 * reuses the BSSID left by the previous loop, and the model threads it as
 * `last`.
 */
module EsxApname {
  import opened Wrappers
  import Text

  /** The uncaught Python exceptions, each of which stops the script. */
  datatype Failure =
    | EmptyTable          // IndexError: bss_table[0]
    | NoColumn            // ValueError: .index("ap name") / .index("bss")
    | ShortRow            // IndexError: row[idx]
    | UnknownAp           // KeyError: apid_to_mids[r['accessPointId']]
    | UnknownMeasurement  // KeyError: mid_to_bss[mid]
    | NoBss               // NameError: `bss` never bound
    | NoBssTables         // TypeError: iterating the None of get_tables when no bss-table was stored

  /** An entry of accessPoints.json: its id, name and optional vendor. */
  datatype Ap = Ap(id: string, name: string, vendor: Option<string>)

  /** An entry of measuredRadios.json. */
  datatype Radio = Radio(apId: string, mids: seq<string>)

  /** An entry of accessPointMeasurements.json. */
  datatype Measurement = Measurement(id: string, mac: string)

  datatype Esx = Esx(aps: seq<Ap>, radios: seq<Radio>, measurements: seq<Measurement>)

  const Dup := "DUP"
  const Aruba := "Aruba"

  // ---- bss_to_apn ----

  /** (ap name, bss) of each row of one table, at the columns its own header names. */
  function RowPairs(rows: seq<seq<string>>, ia: nat, ib: nat): (r: Result<seq<(string, string)>, Failure>)
    ensures r.Ok? ==> |r.value| == |rows| && forall i :: 0 <= i < |rows| ==> ia < |rows[i]| && ib < |rows[i]| && r.value[i] == (rows[i][ia], rows[i][ib])
    ensures r.Err? ==> r.error == ShortRow && exists i :: 0 <= i < |rows| && (ia >= |rows[i]| || ib >= |rows[i]|)
  {
    if rows == [] then Ok([])
    else match RowPairs(rows[..|rows| - 1], ia, ib)
      case Err(e) => Err(e)
      case Ok(ps) =>
        var row := rows[|rows| - 1];
        if ia < |row| && ib < |row| then Ok(ps + [(row[ia], row[ib])]) else Err(ShortRow)
  }

  function TablePairs(t: seq<seq<string>>): Result<seq<(string, string)>, Failure>
  {
    if t == [] then Err(EmptyTable)
    else match (Text.IndexOf(t[0], "ap name"), Text.IndexOf(t[0], "bss"))
      case (Some(ia), Some(ib)) => RowPairs(t[1..], ia, ib)
      case _ => Err(NoColumn)
  }

  /** The rows of all tables, in order. */
  function Pairs(tables: seq<seq<seq<string>>>): Result<seq<(string, string)>, Failure>
  {
    if tables == [] then Ok([])
    else match Pairs(tables[..|tables| - 1])
      case Err(e) => Err(e)
      case Ok(ps) =>
        match TablePairs(tables[|tables| - 1])
        case Err(e) => Err(e)
        case Ok(qs) => Ok(ps + qs)
  }

  /** One row: a first sighting maps the BSSID, a second name marks it "DUP" for good. */
  function AddBss(m: map<string, string>, apn: string, bss: string): map<string, string>
  {
    if bss !in m then m[bss := apn]
    else if m[bss] == Dup || m[bss] == apn then m
    else m[bss := Dup]
  }

  function BssMap(ps: seq<(string, string)>): map<string, string>
  {
    if ps == [] then map[] else AddBss(BssMap(ps[..|ps| - 1]), ps[|ps| - 1].0, ps[|ps| - 1].1)
  }

  /** The value the loop variable `bss` is left with. */
  function LastBss(ps: seq<(string, string)>): Option<string>
  {
    if ps == [] then None else Some(ps[|ps| - 1].1)
  }

  // ---- the survey ----

  /** `apid_to_mids`: every AP starts with no measurement, each radio adds its own. */
  function Mids(aps: seq<Ap>, radios: seq<Radio>): Result<map<string, seq<string>>, Failure>
  {
    if radios == [] then Ok(NoMids(aps))
    else match Mids(aps, radios[..|radios| - 1])
      case Err(e) => Err(e)
      case Ok(m) =>
        var r := radios[|radios| - 1];
        if r.apId in m then Ok(m[r.apId := m[r.apId] + r.mids]) else Err(UnknownAp)
  }

  function NoMids(aps: seq<Ap>): (m: map<string, seq<string>>)
    ensures forall i :: 0 <= i < |aps| ==> aps[i].id in m
  {
    if aps == [] then map[] else NoMids(aps[..|aps| - 1])[aps[|aps| - 1].id := []]
  }

  /** `mid_to_bss`: the later of two measurements with the same id wins. */
  function MacOf(ms: seq<Measurement>): map<string, string>
  {
    if ms == [] then map[] else MacOf(ms[..|ms| - 1])[ms[|ms| - 1].id := ms[|ms| - 1].mac]
  }

  predicate IsLowHex(c: char) { Text.IsDigit(c) || 'a' <= c <= 'f' }

  /** `[0-9a-f][0-9a-f]:[0-9a-f][0-9a-f]` */
  predicate HexPair(x: string)
  {
    |x| == 5 && IsLowHex(x[0]) && IsLowHex(x[1]) && x[2] == ':' && IsLowHex(x[3]) && IsLowHex(x[4])
  }

  /** '実際 AP-' */
  const Actual := "\U{5B9F}\U{969B} AP-"
  const Measured := "Measured AP-"

  /** The 'xx:xx' of a placeholder name, trying '実際 AP-' first. */
  function Last2(apn: string): (r: Option<string>)
    ensures r.Some? ==> HexPair(r.value)
    ensures r.Some? ==> Text.StartsWith(apn, Actual + r.value) || Text.StartsWith(apn, Measured + r.value)
  {
    if Text.StartsWith(apn, Actual) && |apn| >= |Actual| + 5 && HexPair(apn[|Actual|..|Actual| + 5]) then
      Some(apn[|Actual|..|Actual| + 5])
    else if Text.StartsWith(apn, Measured) && |apn| >= |Measured| + 5 && HexPair(apn[|Measured|..|Measured| + 5]) then
      Some(apn[|Measured|..|Measured| + 5])
    else None
  }

  /** `bss[-5:] == last2` */
  predicate Matches(bss: string, last2: string)
  {
    (if |bss| < 5 then bss else bss[|bss| - 5..]) == last2
  }

  /**
   * The measurement loop with its `break`: the first BSSID matching
   * 'xx:xx', otherwise the last one looked at, otherwise the value `bss`
   * already had.
   */
  function Choose(mids: seq<string>, macs: map<string, string>, last2: string, last: Option<string>): (r: Result<Option<string>, Failure>)
  {
    if mids == [] then Ok(last)
    else if mids[0] !in macs then Err(UnknownMeasurement)
    else if Matches(macs[mids[0]], last2) then Ok(Some(macs[mids[0]]))
    else Choose(mids[1..], macs, last2, Some(macs[mids[0]]))
  }

  function VendorOf(ap: Ap): string
  {
    if ap.vendor.Some? then ap.vendor.value else "unknown"
  }

  /** The new name of a placeholder AP whose chosen BSSID is `bss`, or None when it is left alone. */
  function NewName(ap: Ap, bss: string, bssMap: map<string, string>, byVendor: bool, last2: string): Option<string>
  {
    if VendorOf(ap) == Aruba then
      if bss in bssMap && bssMap[bss] != Dup then Some(bssMap[bss]) else None
    else if byVendor then Some(VendorOf(ap) + "-" + last2)
    else None
  }

  /**
   * What a new name can be: for an Aruba AP, the controller's name of a
   * BSSID seen under one name only; for another vendor (with --vendor), the
   * vendor and the 'xx:xx' of the placeholder.
   */
  predicate RenameOk(ap: Ap, n: string, bssMap: map<string, string>, byVendor: bool)
  {
    && Last2(ap.name).Some?
    && if VendorOf(ap) == Aruba then n != Dup && n in bssMap.Values
       else byVendor && n == VendorOf(ap) + "-" + Last2(ap.name).value
  }

  /** The APs as renamed, which of them were, `num_processed` and the final `bss`. */
  datatype Conv = Conv(aps: seq<Ap>, renamed: seq<bool>, num: nat, last: Option<string>)

  /** One AP of the conversion loop: the AP as left, whether it was renamed, and `bss` after it. */
  function OneAp(ap: Ap, mids: map<string, seq<string>>, macs: map<string, string>, bssMap: map<string, string>, byVendor: bool, last: Option<string>): Result<(Ap, bool, Option<string>), Failure>
  {
    match Last2(ap.name)
    case None => Ok((ap, false, last))
    case Some(l2) =>
      if ap.id !in mids then Err(UnknownAp) else
      match Choose(mids[ap.id], macs, l2, last)
      case Err(e) => Err(e)
      case Ok(None) => Err(NoBss)
      case Ok(Some(b)) =>
        match NewName(ap, b, bssMap, byVendor, l2)
        case None => Ok((ap, false, Some(b)))
        case Some(n) => Ok((ap.(name := n), true, Some(b)))
  }

  function ConvertAp(c: Conv, ap: Ap, mids: map<string, seq<string>>, macs: map<string, string>, bssMap: map<string, string>, byVendor: bool): Result<Conv, Failure>
  {
    match OneAp(ap, mids, macs, bssMap, byVendor, c.last)
    case Err(e) => Err(e)
    case Ok(o) => Ok(Conv(c.aps + [o.0], c.renamed + [o.1], if o.1 then c.num + 1 else c.num, o.2))
  }

  function Convert(aps: seq<Ap>, mids: map<string, seq<string>>, macs: map<string, string>, bssMap: map<string, string>, byVendor: bool, last: Option<string>): Result<Conv, Failure>
  {
    if aps == [] then Ok(Conv([], [], 0, last))
    else match Convert(aps[..|aps| - 1], mids, macs, bssMap, byVendor, last)
      case Err(e) => Err(e)
      case Ok(c) => ConvertAp(c, aps[|aps| - 1], mids, macs, bssMap, byVendor)
  }

  /** One survey file: its APs as renamed, with the counters. */
  function Survey(esx: Esx, bssMap: map<string, string>, byVendor: bool, last: Option<string>): Result<Conv, Failure>
  {
    match Mids(esx.aps, esx.radios)
    case Err(e) => Err(e)
    case Ok(m) => Convert(esx.aps, m, MacOf(esx.measurements), bssMap, byVendor, last)
  }

  /** Every AP keeps its entry in `apid_to_mids`. */
  lemma {:induction false} MidsKeys(aps: seq<Ap>, radios: seq<Radio>)
    requires Mids(aps, radios).Ok?
    ensures forall i :: 0 <= i < |aps| ==> aps[i].id in Mids(aps, radios).value
    decreases |radios|
  {
    if radios != [] {
      MidsKeys(aps, radios[..|radios| - 1]);
    }
  }

  /** The value `bss` has after the survey files converted so far. */
  function LastOf(cs: seq<Conv>, last: Option<string>): Option<string>
  {
    if cs == [] then last else cs[|cs| - 1].last
  }

  /** All survey files in turn, `bss` carried from one to the next. */
  function Surveys(files: seq<Esx>, bssMap: map<string, string>, byVendor: bool, last: Option<string>): (r: Result<seq<Conv>, Failure>)
    ensures r.Ok? ==> |r.value| == |files|
  {
    if files == [] then Ok([])
    else match Surveys(files[..|files| - 1], bssMap, byVendor, last)
      case Err(e) => Err(e)
      case Ok(cs) =>
        match Survey(files[|files| - 1], bssMap, byVendor, LastOf(cs, last))
        case Err(e) => Err(e)
        case Ok(c) => Ok(cs + [c])
  }

  /** The whole script, given what get_tables returned: the renamed APs of each survey file. */
  function EsxApname(tables: Option<seq<seq<seq<string>>>>, files: seq<Esx>, byVendor: bool): Result<seq<Conv>, Failure>
  {
    match tables
    case None => Err(NoBssTables)
    case Some(ts) =>
      match Pairs(ts)
      case Err(e) => Err(e)
      case Ok(ps) => Surveys(files, BssMap(ps), byVendor, LastBss(ps))
  }

  // ---- the loops ----

  /** The loop over the bss tables that fills `bss_to_apn`; None when no bss-table was stored. */
  method BuildBssMap(bssTables: Option<seq<seq<seq<string>>>>) returns (r: Result<(map<string, string>, Option<string>), Failure>)
    ensures bssTables.None? ==> r == Err(NoBssTables)
    ensures bssTables.Some? && Pairs(bssTables.value).Err? ==> r == Err(Pairs(bssTables.value).error)
    ensures bssTables.Some? && Pairs(bssTables.value).Ok? ==>
      r == Ok((BssMap(Pairs(bssTables.value).value), LastBss(Pairs(bssTables.value).value)))
  {
    if bssTables.None? {
      return Err(NoBssTables);
    }
    var tables := bssTables.value;
    var m: map<string, string> := map[];
    var bss: Option<string> := None;
    ghost var ps: seq<(string, string)> := [];
    for i := 0 to |tables|
      invariant Pairs(tables[..i]) == Ok(ps) && m == BssMap(ps) && bss == LastBss(ps)
    {
      assert tables[..i + 1][..i] == tables[..i];
      var rt := ReadTable(tables[i], m, bss, ps);
      if rt.Err? {
        PairsStop(tables, i + 1);
        return Err(rt.error);
      }
      m, bss := rt.value.0, rt.value.1;
      ps := ps + TablePairs(tables[i]).value;
    }
    assert tables[..|tables|] == tables;
    return Ok((m, bss));
  }

  /** One table: its header, then the loop over its rows. */
  method ReadTable(t: seq<seq<string>>, m0: map<string, string>, bss0: Option<string>, ghost ps: seq<(string, string)>)
    returns (r: Result<(map<string, string>, Option<string>), Failure>)
    requires m0 == BssMap(ps) && bss0 == LastBss(ps)
    ensures TablePairs(t).Err? ==> r == Err(TablePairs(t).error)
    ensures TablePairs(t).Ok? ==> r == Ok((BssMap(ps + TablePairs(t).value), LastBss(ps + TablePairs(t).value)))
  {
    if t == [] {
      return Err(EmptyTable);
    }
    var ia := Text.IndexOf(t[0], "ap name");
    var ib := Text.IndexOf(t[0], "bss");
    if ia.None? || ib.None? {
      return Err(NoColumn);
    }
    assert t[1..][..] == t[1..];
    r := ReadRows(t[1..], ia.value, ib.value, m0, bss0, ps);
  }

  /** The loop over the rows of one table. */
  method ReadRows(rows: seq<seq<string>>, ia: nat, ib: nat, m0: map<string, string>, bss0: Option<string>, ghost ps: seq<(string, string)>)
    returns (r: Result<(map<string, string>, Option<string>), Failure>)
    requires m0 == BssMap(ps) && bss0 == LastBss(ps)
    ensures RowPairs(rows, ia, ib).Err? ==> r == Err(RowPairs(rows, ia, ib).error)
    ensures RowPairs(rows, ia, ib).Ok? ==>
      r == Ok((BssMap(ps + RowPairs(rows, ia, ib).value), LastBss(ps + RowPairs(rows, ia, ib).value)))
  {
    var m, bss := m0, bss0;
    ghost var qs: seq<(string, string)> := [];
    assert ps + qs == ps;
    for j := 0 to |rows|
      invariant RowPairs(rows[..j], ia, ib) == Ok(qs)
      invariant m == BssMap(ps + qs) && bss == LastBss(ps + qs)
    {
      assert rows[..j + 1][..j] == rows[..j];
      var row := rows[j];
      if ia >= |row| || ib >= |row| {
        RowShort(rows, j, ia, ib);
        return Err(ShortRow);
      }
      var x := (row[ia], row[ib]);
      BssSnoc(ps + qs, x);
      assert ps + (qs + [x]) == (ps + qs) + [x];
      m := AddBss(m, x.0, x.1);
      bss := Some(x.1);
      qs := qs + [x];
    }
    assert rows[..|rows|] == rows;
    return Ok((m, bss));
  }

  /** A row too short for either column fails the whole table. */
  lemma {:induction false} RowShort(rows: seq<seq<string>>, j: nat, ia: nat, ib: nat)
    requires j < |rows| && (ia >= |rows[j]| || ib >= |rows[j]|)
    ensures RowPairs(rows, ia, ib) == Err(ShortRow)
  {
  }

  lemma {:induction false} BssSnoc(xs: seq<(string, string)>, x: (string, string))
    ensures BssMap(xs + [x]) == AddBss(BssMap(xs), x.0, x.1) && LastBss(xs + [x]) == Some(x.1)
  {
    assert (xs + [x])[..|xs|] == xs;
  }

  /** Once a table has failed, the later tables change nothing. */
  lemma {:induction false} PairsStop(tables: seq<seq<seq<string>>>, n: nat)
    requires n <= |tables| && Pairs(tables[..n]).Err?
    ensures Pairs(tables) == Pairs(tables[..n])
    decreases |tables|
  {
    if n < |tables| {
      var pre := tables[..|tables| - 1];
      assert pre[..n] == tables[..n];
      PairsStop(pre, n);
    } else {
      assert tables[..n] == tables;
    }
  }

  /** The measurement loop with its `break`. */
  method ChooseBss(mids: seq<string>, macs: map<string, string>, last2: string, last: Option<string>) returns (r: Result<Option<string>, Failure>)
    ensures r == Choose(mids, macs, last2, last)
  {
    var bss := last;
    var i := 0;
    while i < |mids|
      invariant i <= |mids|
      invariant Choose(mids, macs, last2, last) == Choose(mids[i..], macs, last2, bss)
    {
      assert mids[i..][1..] == mids[i + 1..];
      if mids[i] !in macs {
        return Err(UnknownMeasurement);
      }
      bss := Some(macs[mids[i]]);
      if Matches(macs[mids[i]], last2) {
        return Ok(bss);
      }
      i := i + 1;
    }
    return Ok(bss);
  }

  /** The body of the conversion loop for one AP. */
  method RenameOne(ap: Ap, mids: map<string, seq<string>>, macs: map<string, string>, bssMap: map<string, string>, byVendor: bool, last: Option<string>)
    returns (r: Result<(Ap, bool, Option<string>), Failure>)
    ensures r == OneAp(ap, mids, macs, bssMap, byVendor, last)
    ensures r.Ok? && !r.value.1 ==> r.value.0 == ap
  {
    var l2 := Last2(ap.name);
    if l2.None? {
      return Ok((ap, false, last));
    }
    if ap.id !in mids {
      return Err(UnknownAp);
    }
    var b := ChooseBss(mids[ap.id], macs, l2.value, last);
    if b.Err? {
      return Err(b.error);
    }
    if b.value.None? {
      return Err(NoBss);
    }
    var n := NewName(ap, b.value.value, bssMap, byVendor, l2.value);
    if n.Some? {
      return Ok((ap.(name := n.value), true, b.value));
    }
    return Ok((ap, false, b.value));
  }

  /**
   * The conversion loop: renames the APs of `aps` in place and counts
   * them, leaving `bss` as the loop left it.
   */
  method RenameAps(aps: array<Ap>, mids: map<string, seq<string>>, macs: map<string, string>, bssMap: map<string, string>, byVendor: bool, last: Option<string>)
    returns (r: Result<(nat, Option<string>), Failure>, renamed: seq<bool>)
    modifies aps
    ensures var c := Convert(old(aps[..]), mids, macs, bssMap, byVendor, last);
      match r
      case Err(e) => c == Err(e)
      case Ok(nb) => c == Ok(Conv(aps[..], renamed, nb.0, nb.1))
  {
    ghost var orig := aps[..];
    ghost var cur: seq<Ap> := [];
    var num: nat := 0;
    var bss := last;
    renamed := [];
    for i := 0 to aps.Length
      invariant ConvertedTo(orig, i, mids, macs, bssMap, byVendor, last, Conv(cur, renamed, num, bss))
      invariant |cur| == i && forall k :: 0 <= k < i ==> aps[k] == cur[k]
      invariant forall k :: i <= k < aps.Length ==> aps[k] == orig[k]
    {
      var one := Visit(aps[i], bss, mids, macs, bssMap, byVendor, orig, i, last, Conv(cur, renamed, num, bss));
      if one.Err? {
        return Err(one.error), renamed;
      }
      var (ap, done, b) := one.value;
      if done {
        aps[i] := ap;
        num := num + 1;
      }
      renamed, bss, cur := renamed + [done], b, cur + [ap];
    }
    assert orig[..aps.Length] == orig && aps[..] == cur;
    assert ConvertedTo(orig, aps.Length, mids, macs, bssMap, byVendor, last, Conv(cur, renamed, num, bss));
    return Ok((num, bss)), renamed;
  }

  /** One AP of the loop, with what it does to the conversion of the APs so far. */
  method Visit(ap: Ap, bss: Option<string>, mids: map<string, seq<string>>, macs: map<string, string>, bssMap: map<string, string>, byVendor: bool,
               ghost aps: seq<Ap>, ghost i: nat, ghost last: Option<string>, ghost c: Conv)
    returns (r: Result<(Ap, bool, Option<string>), Failure>)
    requires i < |aps| && aps[i] == ap && c.last == bss && ConvertedTo(aps, i, mids, macs, bssMap, byVendor, last, c)
    ensures r.Err? ==> Convert(aps, mids, macs, bssMap, byVendor, last) == Err(r.error)
    ensures r.Ok? ==> ConvertedTo(aps, i + 1, mids, macs, bssMap, byVendor, last,
      Conv(c.aps + [r.value.0], c.renamed + [r.value.1], if r.value.1 then c.num + 1 else c.num, r.value.2))
    ensures r.Ok? && !r.value.1 ==> r.value.0 == ap
  {
    r := RenameOne(ap, mids, macs, bssMap, byVendor, bss);
    if r.Err? {
      ConvertSnocErr(aps, i, mids, macs, bssMap, byVendor, last, c);
      ConvertStop(aps, i + 1, mids, macs, bssMap, byVendor, last);
    } else {
      ConvertSnoc(aps, i, mids, macs, bssMap, byVendor, last, c, r.value);
    }
  }

  /** The APs before `i` convert to `c`. */
  ghost predicate ConvertedTo(aps: seq<Ap>, i: nat, mids: map<string, seq<string>>, macs: map<string, string>, bssMap: map<string, string>, byVendor: bool, last: Option<string>, c: Conv)
  {
    i <= |aps| && Convert(aps[..i], mids, macs, bssMap, byVendor, last) == Ok(c)
  }

  lemma {:induction false} ConvertSnoc(aps: seq<Ap>, i: nat, mids: map<string, seq<string>>, macs: map<string, string>, bssMap: map<string, string>, byVendor: bool, last: Option<string>, c: Conv, o: (Ap, bool, Option<string>))
    requires i < |aps| && Convert(aps[..i], mids, macs, bssMap, byVendor, last) == Ok(c)
    requires OneAp(aps[i], mids, macs, bssMap, byVendor, c.last) == Ok(o)
    ensures Convert(aps[..i + 1], mids, macs, bssMap, byVendor, last) == Ok(Conv(c.aps + [o.0], c.renamed + [o.1], if o.1 then c.num + 1 else c.num, o.2))
  {
    assert aps[..i + 1][..i] == aps[..i];
  }

  lemma {:induction false} ConvertSnocErr(aps: seq<Ap>, i: nat, mids: map<string, seq<string>>, macs: map<string, string>, bssMap: map<string, string>, byVendor: bool, last: Option<string>, c: Conv)
    requires i < |aps| && Convert(aps[..i], mids, macs, bssMap, byVendor, last) == Ok(c)
    requires OneAp(aps[i], mids, macs, bssMap, byVendor, c.last).Err?
    ensures Convert(aps[..i + 1], mids, macs, bssMap, byVendor, last) == Err(OneAp(aps[i], mids, macs, bssMap, byVendor, c.last).error)
  {
    assert aps[..i + 1][..i] == aps[..i];
  }

  /** Once an AP has failed, the later APs change nothing. */
  lemma {:induction false} ConvertStop(aps: seq<Ap>, n: nat, mids: map<string, seq<string>>, macs: map<string, string>, bssMap: map<string, string>, byVendor: bool, last: Option<string>)
    requires n <= |aps| && Convert(aps[..n], mids, macs, bssMap, byVendor, last).Err?
    ensures Convert(aps, mids, macs, bssMap, byVendor, last) == Convert(aps[..n], mids, macs, bssMap, byVendor, last)
    decreases |aps|
  {
    if n < |aps| {
      var pre := aps[..|aps| - 1];
      assert pre[..n] == aps[..n];
      ConvertStop(pre, n, mids, macs, bssMap, byVendor, last);
    } else {
      assert aps[..n] == aps;
    }
  }

  /** The three loops that fill `apid_to_mids` and `mid_to_bss`. */
  method Dicts(esx: Esx) returns (r: Result<(map<string, seq<string>>, map<string, string>), Failure>)
    ensures Mids(esx.aps, esx.radios).Err? ==> r == Err(Mids(esx.aps, esx.radios).error)
    ensures Mids(esx.aps, esx.radios).Ok? ==> r == Ok((Mids(esx.aps, esx.radios).value, MacOf(esx.measurements)))
  {
    var mids: map<string, seq<string>> := map[];
    for i := 0 to |esx.aps|
      invariant mids == NoMids(esx.aps[..i])
    {
      assert esx.aps[..i + 1][..i] == esx.aps[..i];
      mids := mids[esx.aps[i].id := []];
    }
    assert esx.aps[..|esx.aps|] == esx.aps;
    for i := 0 to |esx.radios|
      invariant Mids(esx.aps, esx.radios[..i]) == Ok(mids)
    {
      assert esx.radios[..i + 1][..i] == esx.radios[..i];
      var rd := esx.radios[i];
      if rd.apId !in mids {
        MidsStop(esx.aps, esx.radios, i + 1);
        return Err(UnknownAp);
      }
      mids := mids[rd.apId := mids[rd.apId] + rd.mids];
    }
    assert esx.radios[..|esx.radios|] == esx.radios;
    var macs: map<string, string> := map[];
    for i := 0 to |esx.measurements|
      invariant macs == MacOf(esx.measurements[..i])
    {
      assert esx.measurements[..i + 1][..i] == esx.measurements[..i];
      macs := macs[esx.measurements[i].id := esx.measurements[i].mac];
    }
    assert esx.measurements[..|esx.measurements|] == esx.measurements;
    return Ok((mids, macs));
  }

  /** Once a radio has failed, the later radios change nothing. */
  lemma {:induction false} MidsStop(aps: seq<Ap>, radios: seq<Radio>, n: nat)
    requires n <= |radios| && Mids(aps, radios[..n]).Err?
    ensures Mids(aps, radios) == Mids(aps, radios[..n])
    decreases |radios|
  {
    if n < |radios| {
      var pre := radios[..|radios| - 1];
      assert pre[..n] == radios[..n];
      MidsStop(aps, pre, n);
    } else {
      assert radios[..n] == radios;
    }
  }

  /** One survey file: its dicts, then its APs renamed in place. */
  method RunSurvey(esx: Esx, bssMap: map<string, string>, byVendor: bool, last: Option<string>) returns (r: Result<Conv, Failure>)
    ensures r == Survey(esx, bssMap, byVendor, last)
  {
    var d := Dicts(esx);
    if d.Err? {
      return Err(d.error);
    }
    var aps := new Ap[|esx.aps|](i requires 0 <= i < |esx.aps| => esx.aps[i]);
    assert aps[..] == esx.aps;
    var res, renamed := RenameAps(aps, d.value.0, d.value.1, bssMap, byVendor, last);
    if res.Err? {
      return Err(res.error);
    }
    return Ok(Conv(aps[..], renamed, res.value.0, res.value.1));
  }

  /** The whole script: the bss tables, then every survey file. */
  method Run(tables: Option<seq<seq<seq<string>>>>, files: seq<Esx>, byVendor: bool) returns (r: Result<seq<Conv>, Failure>)
    ensures r == EsxApname(tables, files, byVendor)
  {
    var b := BuildBssMap(tables);
    if b.Err? {
      return Err(b.error);
    }
    ghost var ps := Pairs(tables.value).value;
    var bssMap, bss := b.value.0, b.value.1;
    var cs: seq<Conv> := [];
    for i := 0 to |files|
      invariant Surveys(files[..i], bssMap, byVendor, LastBss(ps)) == Ok(cs) && bss == LastOf(cs, LastBss(ps))
    {
      assert files[..i + 1][..i] == files[..i];
      var c := RunSurvey(files[i], bssMap, byVendor, bss);
      if c.Err? {
        SurveysStop(files, i + 1, bssMap, byVendor, LastBss(ps));
        return Err(c.error);
      }
      cs := cs + [c.value];
      bss := c.value.last;
    }
    assert files[..|files|] == files;
    return Ok(cs);
  }

  /** Once a survey file has failed, the later files change nothing. */
  lemma {:induction false} SurveysStop(files: seq<Esx>, n: nat, bssMap: map<string, string>, byVendor: bool, last: Option<string>)
    requires n <= |files| && Surveys(files[..n], bssMap, byVendor, last).Err?
    ensures Surveys(files, bssMap, byVendor, last) == Surveys(files[..n], bssMap, byVendor, last)
    decreases |files|
  {
    if n < |files| {
      var pre := files[..|files| - 1];
      assert pre[..n] == files[..n];
      SurveysStop(pre, n, bssMap, byVendor, last);
    } else {
      assert files[..n] == files;
    }
  }
}
