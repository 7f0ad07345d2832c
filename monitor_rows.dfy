/**
 * The rows of 'show ap monitor ap-list' and 'show ap monitor client-list'
 * as the monitor scripts read them: the band/chan/ch-width/ht-type column
 * is searched for "/(\d+[SE+-]?)/(\d+MHz)/(\w+)" (the client list allows
 * '-' in the last group), SNR and RSSI are read with int(), and the own
 * channel is that of the first entry a script's own test picks.
 */
module MonitorRows {
  import opened Wrappers
  import opened Text

  /** The groups of a match: channel label, primary channel, width, PHY type. */
  datatype Phy = Phy(ch: string, pch: nat, cbw: string, phy: string)

  /**
   * One parsed row.  `mac` is the station of a client-list row and the
   * BSSID again for an ap-list row; `kind` is ap-type or sta-type; `encr`
   * is empty for client-list rows.
   */
  datatype Entry = Entry(mac: string, bss: string, essid: string, ch: string, pch: nat, cbw: string, phy: string,
                         kind: string, encr: string, snr: int, rssi: int)

  /** `\w` (ASCII letters, digits and '_'), and '-' too when `dash`. */
  predicate IsWord(c: char, dash: bool)
  {
    IsDigit(c) || 'a' <= c <= 'z' || 'A' <= c <= 'Z' || c == '_' || (dash && c == '-')
  }

  predicate IsBonding(c: char) { c == 'S' || c == 'E' || c == '+' || c == '-' }

  /** The end of the run of digits starting at `i`. */
  function DigitsEnd(s: string, i: nat): (j: nat)
    requires i <= |s|
    ensures i <= j <= |s| && (j == |s| || !IsDigit(s[j])) && AllDigits(s[i .. j])
    decreases |s| - i
  {
    if i < |s| && IsDigit(s[i]) then
      var j := DigitsEnd(s, i + 1);
      assert s[i..j] == [s[i]] + s[i + 1..j];
      j
    else i
  }

  /** The end of the run of word characters starting at `i`. */
  function WordEnd(s: string, i: nat, dash: bool): (j: nat)
    requires i <= |s|
    ensures i <= j <= |s|
    decreases |s| - i
  {
    if i < |s| && IsWord(s[i], dash) then WordEnd(s, i + 1, dash) else i
  }

  /** The run is all word characters and maximal. */
  lemma {:induction false} WordEndRun(s: string, i: nat, dash: bool)
    requires i <= |s|
    ensures var j := WordEnd(s, i, dash);
      (j == |s| || !IsWord(s[j], dash)) && forall k :: i <= k < j ==> IsWord(s[k], dash)
    decreases |s| - i
  {
    if i < |s| && IsWord(s[i], dash) {
      WordEndRun(s, i + 1, dash);
    }
  }

  /** Where the label ends: a bonding letter is part of it only when '/' follows. */
  function LabelEnd(s: string, j: nat): (e: nat)
    ensures e == j || e == j + 1
  {
    if j + 1 < |s| && IsBonding(s[j]) && s[j + 1] == '/' then j + 1 else j
  }

  /** "(\d+MHz)/(\w+)" from position `f`: the width and the PHY type. */
  function WidthPhy(s: string, f: nat, dash: bool): Option<(string, string)>
    requires f <= |s|
  {
    var k := DigitsEnd(s, f);
    if k == f || k + 4 > |s| || s[k] != 'M' || s[k + 1] != 'H' || s[k + 2] != 'z' || s[k + 3] != '/' then None
    else
      var w := WordEnd(s, k + 4, dash);
      if w == k + 4 then None else Some((s[f..k + 3], s[k + 4..w]))
  }

  /**
   * The pattern matched at position `i`.  Every part is greedy and what
   * follows it cannot be taken by it, so there is at most one match at `i`:
   * the digits run to their end, a bonding letter is taken only when '/'
   * follows it, and the width's digits must be followed by "MHz/".
   */
  function MatchAt(s: string, i: nat, dash: bool): Option<Phy>
  {
    if i >= |s| || s[i] != '/' then None
    else
      var j := DigitsEnd(s, i + 1);
      var e := LabelEnd(s, j);
      if j == i + 1 || e >= |s| || s[e] != '/' then None
      else match WidthPhy(s, e + 1, dash)
        case None => None
        case Some((cbw, phy)) => Some(Phy(s[i + 1..e], DigitsValue(s[i + 1..j], 10), cbw, phy))
  }

  /** `re.search`: the match at the leftmost position from `i` on. */
  function Search(s: string, i: nat, dash: bool): (r: Option<(nat, Phy)>)
    requires i <= |s|
    ensures r.Some? ==> i <= r.value.0 < |s| && MatchAt(s, r.value.0, dash) == Some(r.value.1)
    ensures r.Some? ==> forall p :: i <= p < r.value.0 ==> MatchAt(s, p, dash).None?
    ensures r.None? ==> forall p :: i <= p ==> MatchAt(s, p, dash).None?
    decreases |s| - i
  {
    if i == |s| then None
    else if MatchAt(s, i, dash).Some? then Some((i, MatchAt(s, i, dash).value))
    else Search(s, i + 1, dash)
  }

  /** `re.sub(r'[SE+-]', '', ch)` */
  function DropBonding(ch: string): (r: string)
  {
    if ch == [] then []
    else DropBonding(ch[..|ch| - 1]) + (if IsBonding(ch[|ch| - 1]) then [] else [ch[|ch| - 1]])
  }

  lemma {:induction false} DropBondingDigits(d: string)
    requires AllDigits(d)
    ensures DropBonding(d) == d
    decreases |d|
  {
    if d != [] {
      DropBondingDigits(d[..|d| - 1]);
      assert d == d[..|d| - 1] + [d[|d| - 1]];
    }
  }

  lemma {:induction false} SliceSplit(s: string, a: nat, b: nat, c: nat)
    requires a <= b <= c <= |s|
    ensures s[a..c] == s[a..b] + s[b..c]
  {
  }

  /** Three '/'-separated pieces laid out from `i` to `w`. */
  lemma {:induction false} SlashText(s: string, i: nat, e: nat, k: nat, w: nat)
    requires i < e < k < w <= |s| && s[i] == '/' && s[e] == '/' && s[k] == '/'
    ensures s[i..w] == "/" + s[i + 1..e] + "/" + s[e + 1..k] + "/" + s[k + 1..w]
  {
    SliceSplit(s, i, i + 1, w);
    SliceSplit(s, i + 1, e, w);
    SliceSplit(s, e, e + 1, w);
    SliceSplit(s, e + 1, k, w);
    SliceSplit(s, k, k + 1, w);
    assert s[i..i + 1] == "/" && s[e..e + 1] == "/" && s[k..k + 1] == "/";
  }

  /** The width's digits end at `k`, followed by "MHz/", and the word runs from `k + 4` to `w`. */
  lemma {:induction false} WidthPhyParts(s: string, f: nat, dash: bool) returns (k: nat, w: nat)
    requires f <= |s| && WidthPhy(s, f, dash).Some?
    ensures f < k && k + 4 < w <= |s| && s[k] == 'M' && s[k + 1] == 'H' && s[k + 2] == 'z' && s[k + 3] == '/'
    ensures forall x :: k + 4 <= x < w ==> IsWord(s[x], dash)
    ensures WidthPhy(s, f, dash).value == (s[f..k + 3], s[k + 4..w])
  {
    k := DigitsEnd(s, f);
    w := WordEnd(s, k + 4, dash);
    WordEndRun(s, k + 4, dash);
  }

  /** The positions a match at `i` is made of: the '/' ending the label, the digits of the width, the end of the word. */
  lemma {:induction false} MatchAtParts(s: string, i: nat, dash: bool) returns (e: nat, k: nat, w: nat)
    requires MatchAt(s, i, dash).Some?
    ensures i < e < k && k + 4 < w <= |s| && s[i] == '/' && s[e] == '/'
    ensures s[k] == 'M' && s[k + 1] == 'H' && s[k + 2] == 'z' && s[k + 3] == '/'
    ensures forall x :: k + 4 <= x < w ==> IsWord(s[x], dash)
    ensures MatchAt(s, i, dash).value.ch == s[i + 1..e]
    ensures MatchAt(s, i, dash).value.cbw == s[e + 1..k + 3]
    ensures MatchAt(s, i, dash).value.phy == s[k + 4..w]
  {
    var j := DigitsEnd(s, i + 1);
    e := LabelEnd(s, j);
    k, w := WidthPhyParts(s, e + 1, dash);
  }

  /** A match spells out "/" + ch + "/" + cbw + "/" + phy at its position. */
  lemma {:induction false} MatchAtText(s: string, i: nat, dash: bool)
    requires MatchAt(s, i, dash).Some?
    ensures var p := MatchAt(s, i, dash).value;
      var m := "/" + p.ch + "/" + p.cbw + "/" + p.phy;
      i + |m| <= |s| && s[i..i + |m|] == m
  {
    var e, k, w := MatchAtParts(s, i, dash);
    SlashText(s, i, e, k + 3, w);
  }

  /** The width ends in "MHz" and the PHY type is a nonempty word. */
  lemma {:induction false} MatchAtShape(s: string, i: nat, dash: bool)
    requires MatchAt(s, i, dash).Some?
    ensures var p := MatchAt(s, i, dash).value;
      EndsWith(p.cbw, "MHz") && |p.phy| > 0 && forall c :: c in p.phy ==> IsWord(c, dash)
  {
    var e, k, w := MatchAtParts(s, i, dash);
    var p := MatchAt(s, i, dash).value;
    assert p.cbw[|p.cbw| - 3..] == s[k..k + 3] == "MHz";
    forall c | c in p.phy
      ensures IsWord(c, dash)
    {
      var x :| 0 <= x < |p.phy| && p.phy[x] == c;
      assert c == s[k + 4 + x];
    }
  }

  /** The label is the primary channel's digits and at most one bonding letter. */
  lemma {:induction false} MatchAtLabel(s: string, i: nat, dash: bool) returns (j: nat)
    requires MatchAt(s, i, dash).Some?
    ensures i + 1 < j <= |s| && AllDigits(s[i + 1..j])
    ensures MatchAt(s, i, dash).value.pch == DigitsValue(s[i + 1..j], 10)
    ensures var ch := MatchAt(s, i, dash).value.ch;
      ch == s[i + 1..j] || (j < |s| && IsBonding(s[j]) && ch == s[i + 1..j] + [s[j]])
  {
    j := DigitsEnd(s, i + 1);
    var e := LabelEnd(s, j);
    if e == j + 1 {
      assert s[i + 1..e] == s[i + 1..j] + [s[j]];
    }
  }

  /** The primary channel is `int()` of the label with its bonding letters removed. */
  lemma {:induction false} MatchAtPrimary(s: string, i: nat, dash: bool)
    requires MatchAt(s, i, dash).Some?
    ensures ParseInt(DropBonding(MatchAt(s, i, dash).value.ch)) == Some(MatchAt(s, i, dash).value.pch)
  {
    var p := MatchAt(s, i, dash).value;
    var j := MatchAtLabel(s, i, dash);
    var d := s[i + 1..j];
    DropBondingDigits(d);
    if p.ch != d {
      assert p.ch[..|p.ch| - 1] == d;
    }
    assert DropBonding(p.ch) == d;
    ParseIntDigits(d);
  }

  /** What the script's loop makes of one row. */
  datatype Outcome = Skip | NoPhy | Parsed(e: Entry)

  /**
   * An ap-list row (bssid, essid, band/chan/ch-width/ht-type, ap-type, encr,
   * curr-snr, curr-rssi): a non-integer SNR or RSSI skips it (the
   * ValueError), a phy column without a match stops the script.
   */
  function ApRow(row: seq<string>): Outcome
    requires |row| == 7
  {
    var snr := ParseInt(row[5]);
    var rssi := ParseInt(row[6]);
    if snr.None? || rssi.None? then Skip
    else match Search(row[2], 0, false)
      case None => NoPhy
      case Some((_, p)) => Parsed(Entry(row[0], row[0], row[1], p.ch, p.pch, p.cbw, p.phy, row[3], row[4], snr.value, rssi.value))
  }

  /** A client-list row (mac, bssid, essid, band/chan/ch-width/ht-type, sta-type, snr, rssi). */
  function StaRow(row: seq<string>): Outcome
    requires |row| == 7
  {
    var snr := ParseInt(row[5]);
    var rssi := ParseInt(row[6]);
    if snr.None? || rssi.None? then Skip
    else match Search(row[3], 0, true)
      case None => NoPhy
      case Some((_, p)) => Parsed(Entry(row[0], row[1], row[2], p.ch, p.pch, p.cbw, p.phy, row[4], "", snr.value, rssi.value))
  }

  /** Which listing a script reads, and for ap-monitor-list-sum.py only its 5 GHz rows. */
  datatype Source = ApList | StaList | ApList5GHz

  function RowOf(src: Source, row: seq<string>): Outcome
    requires |row| == 7
  {
    match src
      case ApList => ApRow(row)
      case StaList => StaRow(row)
      case ApList5GHz => if StartsWith(row[2], "5GHz") then ApRow(row) else Skip
  }

  predicate Cells7(rows: seq<seq<string>>)
  {
    forall i :: 0 <= i < |rows| ==> |rows[i]| == 7
  }

  /** What the loop makes of each row. */
  function Outcomes(src: Source, rows: seq<seq<string>>): (os: seq<Outcome>)
    requires Cells7(rows)
    ensures |os| == |rows| && forall i :: 0 <= i < |rows| ==> os[i] == RowOf(src, rows[i])
  {
    seq(|rows|, i requires 0 <= i < |rows| => RowOf(src, rows[i]))
  }

  /** One row's effect on the entries so far. */
  function Step(acc: Option<seq<Entry>>, o: Outcome): Option<seq<Entry>>
  {
    match acc
      case None => None
      case Some(es) =>
        match o
          case Skip => Some(es)
          case NoPhy => None
          case Parsed(e) => Some(es + [e])
  }

  /** The entries the loop appends, or None when it stops at a row without a match. */
  function Collect(os: seq<Outcome>): (r: Option<seq<Entry>>)
    ensures r.Some? ==> |r.value| <= |os|
  {
    if os == [] then Some([]) else Step(Collect(os[..|os| - 1]), os[|os| - 1])
  }

  lemma {:induction false} CollectPrefix(os: seq<Outcome>, i: nat)
    requires i < |os|
    ensures Collect(os[..i + 1]) == Step(Collect(os[..i]), os[i])
  {
    assert os[..i + 1][..i] == os[..i];
  }

  function Entries(src: Source, rows: seq<seq<string>>): Option<seq<Entry>>
    requires Cells7(rows)
  {
    Collect(Outcomes(src, rows))
  }

  /** The loop stops exactly when some row has integer SNR and RSSI but no match. */
  lemma {:induction false} CollectFail(os: seq<Outcome>)
    ensures Collect(os).None? <==> exists i :: 0 <= i < |os| && os[i].NoPhy?
    decreases |os|
  {
    if os != [] {
      var pre := os[..|os| - 1];
      CollectFail(pre);
      if exists i :: 0 <= i < |pre| && pre[i].NoPhy? {
        var i :| 0 <= i < |pre| && pre[i].NoPhy?;
        assert os[i] == pre[i];
      }
      if exists i :: 0 <= i < |os| && os[i].NoPhy? {
        var i :| 0 <= i < |os| && os[i].NoPhy?;
        if i < |pre| {
          assert pre[i] == os[i];
        }
      }
    }
  }

  /** The entries are exactly the parsed rows. */
  lemma {:induction false} CollectParsed(os: seq<Outcome>, e: Entry)
    requires Collect(os).Some?
    ensures e in Collect(os).value <==> Parsed(e) in os
    decreases |os|
  {
    if os != [] {
      var pre := os[..|os| - 1];
      CollectParsed(pre, e);
      assert os == pre + [os[|os| - 1]];
    }
  }

  // ---- the ap-list loops as written: the rows are tuples ----

  /**
   * `get_table` with several columns yields each row as a tuple, so in the
   * ap-list loops `row[5] = int(row[5])` raises TypeError, which
   * `except ValueError` does not catch, on the first row whose SNR reads as an
   * integer (in ap-monitor-list-sum.py, the first such 5 GHz row). A row
   * whose SNR does not read as one raises ValueError first and is skipped.
   * The client list is not affected: cli-monitor-list.py copies the cells
   * into local variables.
   */
  predicate TupleHit(src: Source, row: seq<string>)
    requires |row| == 7
  {
    src != StaList && (src == ApList5GHz ==> StartsWith(row[2], "5GHz")) && ParseInt(row[5]).Some?
  }

  /** The position of the first `true`, None when there is none. */
  function FirstTrue(bs: seq<bool>): (r: Option<nat>)
    ensures r.Some? ==> r.value < |bs| && bs[r.value] && forall j :: 0 <= j < r.value ==> !bs[j]
    ensures r.None? <==> forall j :: 0 <= j < |bs| ==> !bs[j]
    decreases |bs|
  {
    if bs == [] then None
    else if bs[0] then Some(0)
    else
      var r := FirstTrue(bs[1..]);
      assert forall j :: 0 <= j < |bs| - 1 ==> bs[1..][j] == bs[j + 1];
      if r.None? then None else Some(r.value + 1)
  }

  function Hits(src: Source, rows: seq<seq<string>>): (bs: seq<bool>)
    requires Cells7(rows)
    ensures |bs| == |rows| && forall i :: 0 <= i < |rows| ==> bs[i] == TupleHit(src, rows[i])
  {
    seq(|rows|, i requires 0 <= i < |rows| => TupleHit(src, rows[i]))
  }

  /** The row of the ap-list loop as written that raises TypeError, or None when every row is skipped. */
  function TypeErrorAt(src: Source, rows: seq<seq<string>>): (r: Option<nat>)
    requires Cells7(rows)
    ensures r.Some? ==> r.value < |rows| && TupleHit(src, rows[r.value]) && forall j :: 0 <= j < r.value ==> !TupleHit(src, rows[j])
    ensures r.None? <==> forall j :: 0 <= j < |rows| ==> !TupleHit(src, rows[j])
  {
    var bs := Hits(src, rows);
    var r := FirstTrue(bs);
    assert r.None? <==> forall j :: 0 <= j < |bs| ==> !bs[j];
    r
  }

  lemma {:induction false} CollectSkips(os: seq<Outcome>)
    requires forall i :: 0 <= i < |os| ==> os[i].Skip?
    ensures Collect(os) == Some([])
    decreases |os|
  {
    if os != [] {
      CollectSkips(os[..|os| - 1]);
    }
  }

  /**
   * As written, no ap-list row is ever appended: when no row raises
   * TypeError, the loop has skipped every row, so it ends with no entries
   * and `mych` still ''.
   */
  lemma {:induction false} TupleLoopAppendsNothing(src: Source, rows: seq<seq<string>>, own: Entry -> bool)
    requires Cells7(rows) && src != StaList && TypeErrorAt(src, rows).None?
    ensures Entries(src, rows) == Some([]) && Mych(FirstOwn(Entries(src, rows).value, own)) == ""
  {
    var os := Outcomes(src, rows);
    forall i | 0 <= i < |os|
      ensures os[i].Skip?
    {
      assert !TupleHit(src, rows[i]);
    }
    CollectSkips(os);
  }

  lemma {:induction false} CollectOne(o: Outcome)
    requires o.Parsed?
    ensures Collect([o]) == Some([o.e])
  {
    var os := [o];
    assert os[..|os| - 1] == [];
    assert Collect(os) == Step(Collect([]), o);
    assert Collect([]) == Some([]);
    assert [] + [o.e] == [o.e];
  }

  lemma {:induction false} OneRow(src: Source, row: seq<string>)
    requires |row| == 7
    ensures TupleHit(src, row) ==> TypeErrorAt(src, [row]) == Some(0)
    ensures RowOf(src, row).Parsed? ==> Entries(src, [row]) == Some([RowOf(src, row).e])
  {
    assert Outcomes(src, [row]) == [RowOf(src, row)];
    if RowOf(src, row).Parsed? {
      CollectOne(RowOf(src, row));
    }
  }

  /** The digit run from `i` ends at the first non-digit `j`. */
  lemma {:induction false} DigitsEndAt(s: string, i: nat, j: nat)
    requires i <= j < |s| && (forall k :: i <= k < j ==> IsDigit(s[k])) && !IsDigit(s[j])
    ensures DigitsEnd(s, i) == j
  {
    var e := DigitsEnd(s, i);
    assert e <= j;
  }

  lemma {:induction false} ExampleSnr(s: string)
    requires s == "30"
    ensures ParseInt(s) == Some(30)
  {
    assert |s| == 2 && s[0] == '3' && s[1] == '0';
    assert AllDigits(s);
    ParseIntDigits(s);
    var p := s[..1];
    assert p[..0] == [] && p[0] == '3';
    assert DigitsValue(p, 10) == 3;
    assert DigitsValue(s, 10) == DigitsValue(p, 10) * 10 + DigitValue(s[1]);
  }

  lemma {:induction false} ExampleRssi()
    ensures ParseInt("-60").Some?
  {
  }

  lemma {:induction false} ExamplePhy(s: string)
    requires s == "5GHz/36+/40MHz/VHT"
    ensures Search(s, 0, false).Some?
  {
    assert |s| == 18 && s[4] == '/' && s[5] == '3' && s[6] == '6' && s[7] == '+' && s[8] == '/';
    assert s[9] == '4' && s[10] == '0' && s[11] == 'M' && s[12] == 'H' && s[13] == 'z' && s[14] == '/' && s[15] == 'V';
    DigitsEndAt(s, 5, 7);
    assert LabelEnd(s, 7) == 8;
    DigitsEndAt(s, 9, 11);
    assert WordEnd(s, 15, false) > 15;
    assert WidthPhy(s, 9, false).Some?;
    assert MatchAt(s, 4, false).Some?;
  }

  lemma {:induction false} ExampleHit(row: seq<string>)
    requires |row| == 7 && row[2] == "5GHz/36+/40MHz/VHT" && row[5] == "30"
    ensures TupleHit(ApList, row) && TupleHit(ApList5GHz, row) && RowOf(ApList5GHz, row) == RowOf(ApList, row)
  {
    ExampleSnr(row[5]);
    assert row[2][..4] == "5GHz";
  }

  lemma {:induction false} ExampleParsed(row: seq<string>)
    requires |row| == 7 && row[2] == "5GHz/36+/40MHz/VHT" && row[5] == "30" && row[6] == "-60"
    ensures RowOf(ApList, row).Parsed? && RowOf(ApList, row).e.snr == 30
  {
    ExampleSnr(row[5]);
    ExampleRssi();
    ExamplePhy(row[2]);
  }

  /**
   * The 5 GHz row of the scripts' own comment, with SNR 30: as written the
   * loops of both ap-list scripts raise TypeError on it, while the intended
   * loop appends it as an entry of SNR 30.
   */
  lemma {:induction false} TupleRowExample(rows: seq<seq<string>>)
    requires rows == [["aa:bb:cc:dd:ee:ff", "x", "5GHz/36+/40MHz/VHT", "valid", "wpa2", "30", "-60"]]
    ensures TypeErrorAt(ApList, rows) == Some(0) && TypeErrorAt(ApList5GHz, rows) == Some(0)
    ensures Entries(ApList, rows).Some? && |Entries(ApList, rows).value| == 1 && Entries(ApList, rows).value[0].snr == 30
    ensures Entries(ApList5GHz, rows) == Entries(ApList, rows)
  {
    ExampleHit(rows[0]);
    ExampleParsed(rows[0]);
    OneRow(ApList, rows[0]);
    OneRow(ApList5GHz, rows[0]);
  }

  /** The first entry passing the script's test: `mych` is its label, '' when there is none. */
  function FirstOwn(es: seq<Entry>, own: Entry -> bool): (r: Option<Entry>)
    ensures r.Some? ==> r.value in es && own(r.value)
    ensures r.None? <==> forall i :: 0 <= i < |es| ==> !own(es[i])
  {
    if es == [] then None
    else if own(es[0]) then Some(es[0])
    else
      var r := FirstOwn(es[1..], own);
      assert forall i :: 0 <= i < |es| - 1 ==> es[1..][i] == es[i + 1];
      r
  }

  /** It is the first entry that passes the test. */
  lemma {:induction false} FirstOwnFirst(es: seq<Entry>, own: Entry -> bool, i: nat)
    requires i < |es| && own(es[i]) && forall j :: 0 <= j < i ==> !own(es[j])
    ensures FirstOwn(es, own) == Some(es[i])
    decreases i
  {
    if i > 0 {
      FirstOwnFirst(es[1..], own, i - 1);
    }
  }

  /** The loop's own-entry state: `mine` is `es[first]`, the first entry passing the test, if any. */
  ghost predicate OwnInv(es: seq<Entry>, own: Entry -> bool, mine: Option<Entry>, first: nat)
  {
    (mine.Some? ==> first < |es| && own(es[first]) && mine.value == es[first] && forall j :: 0 <= j < first ==> !own(es[j]))
    && (mine.None? ==> forall j :: 0 <= j < |es| ==> !own(es[j]))
  }

  /** `if mych == '' and own(e): mych = ...`, then the append.  A label is never empty, so `mych == ''` means none yet. */
  method OwnStep(es: seq<Entry>, e: Entry, own: Entry -> bool, mine: Option<Entry>, ghost first: nat)
    returns (mine': Option<Entry>, ghost first': nat)
    requires OwnInv(es, own, mine, first)
    ensures OwnInv(es + [e], own, mine', first')
  {
    mine', first' := mine, first;
    if mine.None? && own(e) {
      mine', first' := Some(e), |es|;
    }
  }

  /**
   * The parsing loop of the monitor scripts over the rows' outcomes: append
   * each parsed entry, remember the first entry `own` picks, stop at a row
   * without a match.
   */
  method CollectOwn(os: seq<Outcome>, own: Entry -> bool) returns (r: Option<(seq<Entry>, Option<Entry>)>)
    ensures r.None? <==> Collect(os).None?
    ensures r.Some? ==> r.value.0 == Collect(os).value && r.value.1 == FirstOwn(r.value.0, own)
  {
    var es: seq<Entry> := [];
    var mine: Option<Entry> := None;
    ghost var first: nat := 0;
    for i := 0 to |os|
      invariant Collect(os[..i]) == Some(es)
      invariant OwnInv(es, own, mine, first)
    {
      CollectPrefix(os, i);
      match os[i]
      case NoPhy =>
        CollectFail(os);
        return None;
      case Skip =>
      case Parsed(e) =>
        mine, first := OwnStep(es, e, own, mine, first);
        es := es + [e];
    }
    if mine.Some? {
      FirstOwnFirst(es, own, first);
    }
    assert os[..|os|] == os;
    return Some((es, mine));
  }

  /** The monitor scripts' reading of a listing: each row's outcome, then the loop. */
  method ParseEntries(src: Source, rows: seq<seq<string>>, own: Entry -> bool) returns (r: Option<(seq<Entry>, Option<Entry>)>)
    requires Cells7(rows)
    ensures r.None? <==> Entries(src, rows).None?
    ensures r.Some? ==> r.value.0 == Entries(src, rows).value && r.value.1 == FirstOwn(r.value.0, own)
  {
    r := CollectOwn(Outcomes(src, rows), own);
  }

  /** `mych` */
  function Mych(mine: Option<Entry>): string
  {
    if mine.Some? then mine.value.ch else ""
  }
}
