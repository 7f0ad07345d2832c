/**
 * phycap-distrib.py: the clients of 'show ap association' broken down by
 * band, HT/VHT/HE capability, spatial streams, OS (from the user table),
 * SSID and channel (from the BSS table), and the user table's clients per
 * AP and per floor.
 */
module PhycapDistrib {
  import opened Wrappers
  import Text
  import Counting
  import KeepMax
  import Results
  import Tally
  import Uniq
  import MonitorRows
  import Sessions

  type Row = seq<string>

  /**
   * How the script ends early: a table missing (`sys.exit`), a row too
   * short (IndexError), a BSS whose channel cell does not start with a
   * channel label (`sys.exit`), a client with more spatial streams than
   * `numss` has slots (IndexError), an association to a BSS the BSS table
   * does not list (KeyError).
   */
  datatype Failure = NoUsers | NoAssociations | NoBssTable | MissingCell | InvalidChannel | NoStreamSlot | UnknownBss(bss: string)

  /** One association, classified as the counting loop reads it. */
  datatype Sta = Sta(bss: string, mac: string, essid: string, is5G: bool, ht: bool, vht: bool, he: bool, ss: nat, os: string, ch: string)

  /**
   * The counters of the association loop.  `essPhy[(e, b)]` is
   * `essctrphy[e][1 if b else 0]` and `osSs[(os, k)]` is `os_numss[os][k]`.
   */
  datatype Counts = Counts(
    num5G: nat, num2G: nat, numHt: nat, numVht: nat, numHe: nat,
    numSs: seq<nat>, osSs: map<(string, nat), nat>,
    ess: map<string, nat>, essPhy: map<(string, bool), nat>, channels: map<string, nat>)

  /** `apnctr`, `flrctr` and `mac2os`, from the user table. */
  datatype Users = Users(aps: map<string, nat>, floors: map<nat, nat>, osOf: map<string, string>)

  /** `n`, the user-table maps, `bss2ch`, the associations read, and their counters. */
  datatype Report = Report(numSta: int, users: Users, bssCh: map<string, string>, stas: seq<Sta>, counts: Counts)

  /** The length of `numss` and of each `os_numss` entry. */
  const StreamSlots := 5

  const UnknownOs := "unknown"

  // ---- the user table ----

  /** 'Floor_' and two digits at position p. */
  predicate FloorAt(s: string, p: nat)
  {
    p + 8 <= |s| && s[p..p + 6] == "Floor_" && Text.IsDigit(s[p + 6]) && Text.IsDigit(s[p + 7])
  }

  /** The first position from `i` where 'Floor_' and two digits start: the scan of `re.search`. */
  function FloorFrom(s: string, i: nat): (r: Option<nat>)
    requires i <= |s|
    ensures r.Some? ==> i <= r.value && FloorAt(s, r.value) && forall q: nat :: i <= q < r.value ==> !FloorAt(s, q)
    ensures r.None? ==> forall q: nat :: i <= q ==> !FloorAt(s, q)
    decreases |s| - i
  {
    if i == |s| then None else if FloorAt(s, i) then Some(i) else FloorFrom(s, i + 1)
  }

  /** `re.search(r'Floor_(\d\d)', apn)` and `int(m.group(1))`. */
  function FloorOf(apn: string): (r: Option<nat>)
    ensures r.None? ==> forall p: nat :: !FloorAt(apn, p)
    ensures forall p: nat :: FloorAt(apn, p) && (forall q: nat :: q < p ==> !FloorAt(apn, q)) ==>
      r == Some(10 * Text.DigitValue(apn[p + 6]) + Text.DigitValue(apn[p + 7]))
  {
    match FloorFrom(apn, 0)
      case None => None
      case Some(p) => Some(10 * Text.DigitValue(apn[p + 6]) + Text.DigitValue(apn[p + 7]))
  }

  /** An AP name that starts with 'Floor_' and two digits is on that floor. */
  lemma {:induction false} FloorOfPrefix(d: string, rest: string)
    requires |d| == 2 && Text.AllDigits(d)
    ensures FloorOf("Floor_" + d + rest) == Some(Text.DigitsValue(d, 10))
  {
    var s := "Floor_" + d + rest;
    assert s[0..6] == "Floor_" && s[6] == d[0] && s[7] == d[1];
    assert Text.IsDigit(d[0]) && Text.IsDigit(d[1]);
    assert FloorAt(s, 0);
    assert FloorFrom(s, 0) == Some(0);
    assert FloorOf(s) == Some(10 * Text.DigitValue(d[0]) + Text.DigitValue(d[1]));
    assert d[..1] == [d[0]] && [d[0]][..0] == [];
    assert Text.DigitsValue([d[0]], 10) == Text.DigitValue(d[0]);
    assert Text.DigitsValue(d, 10) == Text.DigitsValue(d[..1], 10) * 10 + Text.DigitValue(d[1]);
  }

  predicate UserRowsOk(rows: seq<Row>)
  {
    forall i :: 0 <= i < |rows| ==> |rows[i]| > 12
  }

  function ApNames(rows: seq<Row>): (r: seq<string>)
    requires UserRowsOk(rows)
    ensures |r| == |rows| && forall i :: 0 <= i < |rows| ==> r[i] == rows[i][7]
  {
    seq(|rows|, i requires 0 <= i < |rows| => rows[i][7])
  }

  /** The floors of the rows whose AP name has one, in order. */
  function Floors(rows: seq<Row>): seq<nat>
    requires UserRowsOk(rows)
  {
    if rows == [] then []
    else
      var r := rows[|rows| - 1];
      Floors(rows[..|rows| - 1]) + (if FloorOf(r[7]).Some? then [FloorOf(r[7]).value] else [])
  }

  /** `mac2os`: the MACs of the rows with a non-empty OS, each to the OS of its last such row. */
  function OsMap(rows: seq<Row>): map<string, string>
    requires UserRowsOk(rows)
  {
    if rows == [] then map[]
    else
      var r := rows[|rows| - 1];
      var m := OsMap(rows[..|rows| - 1]);
      if r[12] != "" then m[r[1] := r[12]] else m
  }

  /** The maps the user-table loop builds. */
  function UserMaps(rows: seq<Row>): Users
    requires UserRowsOk(rows)
  {
    Users(Tally.Tally(Tally.Ones(ApNames(rows))), Tally.Tally(Tally.Ones(Floors(rows))), OsMap(rows))
  }

  lemma {:induction false} UserMapsSnoc(rows: seq<Row>, r: Row)
    requires UserRowsOk(rows) && |r| > 12
    ensures UserRowsOk(rows + [r])
    ensures var u, u' := UserMaps(rows), UserMaps(rows + [r]);
      && u'.aps == Tally.Bump(u.aps, r[7], 1)
      && u'.floors == (if FloorOf(r[7]).Some? then Tally.Bump(u.floors, FloorOf(r[7]).value, 1) else u.floors)
      && u'.osOf == (if r[12] != "" then u.osOf[r[1] := r[12]] else u.osOf)
  {
    var rows' := rows + [r];
    assert rows'[..|rows|] == rows && rows'[|rows|] == r;
    assert ApNames(rows') == ApNames(rows) + [r[7]];
    assert Floors(rows') == Floors(rows) + (if FloorOf(r[7]).Some? then [FloorOf(r[7]).value] else []);
    assert OsMap(rows') == if r[12] != "" then OsMap(rows)[r[1] := r[12]] else OsMap(rows);
    OnesSnoc(ApNames(rows), r[7]);
    var fl := FloorOf(r[7]);
    if fl.Some? {
      OnesSnoc(Floors(rows), fl.value);
      assert UserMaps(rows').floors == Tally.Tally(Tally.Ones(Floors(rows) + [fl.value]));
    } else {
      assert Floors(rows') == Floors(rows);
    }
  }

  /** The loop body over one user-table row. */
  method AddUser(ghost rows: seq<Row>, u: Users, r: Row) returns (u': Users)
    requires UserRowsOk(rows) && |r| > 12 && u == UserMaps(rows)
    ensures UserRowsOk(rows + [r]) && u' == UserMaps(rows + [r])
  {
    UserMapsSnoc(rows, r);
    var floors := u.floors;
    var fl := FloorOf(r[7]);
    if fl.Some? {
      floors := Tally.Bump(floors, fl.value, 1);
    }
    var osOf := u.osOf;
    if r[12] != "" {
      osOf := osOf[r[1] := r[12]];
    }
    return Users(Tally.Bump(u.aps, r[7], 1), floors, osOf);
  }

  /** The loop over the user table. */
  method BuildUsers(rows: seq<Row>) returns (u: Users)
    requires UserRowsOk(rows)
    ensures u == UserMaps(rows)
  {
    u := Users(map[], map[], map[]);
    for i := 0 to |rows|
      invariant u == UserMaps(rows[..i])
    {
      assert rows[..i + 1] == rows[..i] + [rows[i]];
      u := AddUser(rows[..i], u, rows[i]);
    }
    assert rows[..|rows|] == rows;
  }

  /** The OS of a client: `mac2os[mac]`, else 'unknown'. */
  function OsOf(osOf: map<string, string>, mac: string): string
  {
    if mac in osOf then osOf[mac] else UnknownOs
  }

  /** The user row `i` has MAC `mac` and a non-empty OS. */
  predicate HasOs(rows: seq<Row>, mac: string, i: int)
    requires UserRowsOk(rows)
  {
    0 <= i < |rows| && rows[i][1] == mac && rows[i][12] != ""
  }

  /**
   * A client's OS is that of the last user row with its MAC and a
   * non-empty OS, and 'unknown' when there is none.
   */
  lemma {:induction false} OsMeaning(rows: seq<Row>, mac: string)
    requires UserRowsOk(rows)
    ensures (forall i :: !HasOs(rows, mac, i)) ==> OsOf(OsMap(rows), mac) == UnknownOs
    ensures forall i :: HasOs(rows, mac, i) && (forall j :: i < j ==> !HasOs(rows, mac, j)) ==> OsOf(OsMap(rows), mac) == rows[i][12]
    decreases |rows|
  {
    if rows != [] {
      var pre := rows[..|rows| - 1];
      var r := rows[|rows| - 1];
      OsMeaning(pre, mac);
      assert OsMap(rows) == if r[12] != "" then OsMap(pre)[r[1] := r[12]] else OsMap(pre);
      forall i | HasOs(rows, mac, i) && (forall j :: i < j ==> !HasOs(rows, mac, j))
        ensures OsOf(OsMap(rows), mac) == rows[i][12]
      {
        if i < |pre| {
          assert !HasOs(rows, mac, |rows| - 1);
          assert HasOs(pre, mac, i);
          forall j | i < j
            ensures !HasOs(pre, mac, j)
          {
            assert !HasOs(rows, mac, j);
          }
        }
      }
      if forall i :: !HasOs(rows, mac, i) {
        forall i
          ensures !HasOs(pre, mac, i)
        {
          assert !HasOs(rows, mac, i);
        }
      }
    }
  }

  /** The user rows whose AP name gives floor f. */
  function FloorIs(f: nat): Row -> bool
  {
    (r: Row) => |r| > 7 && FloorOf(r[7]) == Some(f)
  }

  /** `flrctr[f]` is the number of user rows whose AP name gives floor f. */
  lemma {:induction false} FloorCounts(rows: seq<Row>, f: nat)
    requires UserRowsOk(rows)
    ensures Tally.Get(UserMaps(rows).floors, f) == Counting.CountIf(rows, FloorIs(f))
  {
    Tally.CountMeaning(Floors(rows), f);
    FloorsCount(rows, f);
  }

  lemma {:induction false} FloorsCount(rows: seq<Row>, f: nat)
    requires UserRowsOk(rows)
    ensures Counting.CountIf(Floors(rows), Tally.Is(f)) == Counting.CountIf(rows, FloorIs(f))
    decreases |rows|
  {
    if rows != [] {
      var pre := rows[..|rows| - 1];
      var r := rows[|rows| - 1];
      var fl := FloorOf(r[7]);
      FloorsCount(pre, f);
      assert Floors(rows) == Floors(pre) + (if fl.Some? then [fl.value] else []);
      assert pre + [r] == rows;
      Counting.CountSnoc(pre, r, FloorIs(f));
      assert FloorIs(f)(r) == (fl == Some(f));
      if fl.Some? {
        Counting.CountSnoc(Floors(pre), fl.value, Tally.Is(f));
        assert Tally.Is(f)(fl.value) == (fl.value == f);
      } else {
        assert Floors(rows) == Floors(pre);
      }
    }
  }

  // ---- the BSS table ----

  /** `re.match(r'(\d+[SE+-]?)/', s)`: the channel label at the start of the cell. */
  function ChannelLabel(s: string): (r: Option<string>)
    ensures r.Some? ==> var l := r.value;
      && 0 < |l| < |s| && s[..|l|] == l && s[|l|] == '/'
      && (forall k :: 0 <= k < |l| - 1 ==> Text.IsDigit(l[k]))
      && (Text.IsDigit(l[|l| - 1]) || MonitorRows.IsBonding(l[|l| - 1]))
  {
    var j := MonitorRows.DigitsEnd(s, 0);
    var e := MonitorRows.LabelEnd(s, j);
    if j == 0 || e >= |s| || s[e] != '/' then None
    else
      assert forall k :: 0 <= k < j ==> Text.IsDigit(s[0..j][k]);
      Some(s[..e])
  }

  /** Digits with an optional bonding suffix, before a '/', are read back as the label. */
  lemma {:induction false} ChannelLabelOf(d: string, b: string, rest: string)
    requires d != [] && Text.AllDigits(d)
    requires b == [] || (|b| == 1 && MonitorRows.IsBonding(b[0]))
    ensures ChannelLabel(d + b + "/" + rest) == Some(d + b)
  {
    var s := d + b + "/" + rest;
    var j := MonitorRows.DigitsEnd(s, 0);
    assert s[|d|] == (b + "/")[0];
    assert s[..|d + b|] == d + b;
  }

  /** One BSS-table row, in the order the loop body reads it. */
  function ReadBss(r: Row): Result<Option<(string, string)>, Failure>
  {
    if |r| <= 6 then Err(MissingCell)
    else if r[6] == "am" || r[6] == "Spectrum" then Ok(None)
    else match ChannelLabel(r[5])
      case None => Err(InvalidChannel)
      case Some(ch) => Ok(Some((r[0], ch)))
  }

  function BssResults(rows: seq<Row>): (rs: seq<Result<Option<(string, string)>, Failure>>)
    ensures |rs| == |rows| && forall i :: 0 <= i < |rows| ==> rs[i] == ReadBss(rows[i])
  {
    seq(|rows|, i requires 0 <= i < |rows| => ReadBss(rows[i]))
  }

  /** The loop over the BSS table. */
  method BuildBssCh(rows: seq<Row>) returns (r: Result<map<string, string>, Failure>)
    ensures Results.Gather(BssResults(rows)).Err? ==> r == Err(Results.Gather(BssResults(rows)).error)
    ensures Results.Gather(BssResults(rows)).Ok? ==> r == Ok(KeepMax.Assign(Sessions.Somes(Results.Gather(BssResults(rows)).value)))
  {
    ghost var rs := BssResults(rows);
    ghost var os: seq<Option<(string, string)>> := [];
    var m: map<string, string> := map[];
    for i := 0 to |rows|
      invariant Results.Gather(rs[..i]) == Ok(os)
      invariant m == KeepMax.Assign(Sessions.Somes(os))
    {
      var o := ReadBss(rows[i]);
      Results.GatherStep(rs, i, os);
      if o.Err? {
        Results.GatherStop(rs, i + 1);
        return Err(o.error);
      }
      Sessions.SomesSnoc(os, o.value);
      if o.value.Some? {
        var (k, v) := o.value.value;
        assert Sessions.Somes(os + [o.value]) == Sessions.Somes(os) + [(k, v)];
        KeepMax.AssignSnoc(Sessions.Somes(os), k, v);
        m := m[k := v];
      } else {
        assert Sessions.Somes(os + [o.value]) == Sessions.Somes(os);
      }
      os := os + [o.value];
    }
    assert rs[..|rows|] == rs;
    return Ok(m);
  }

  // ---- the association table ----

  /** '-', a digit and 'ss' at position p. */
  predicate StreamsAt(s: string, p: nat)
  {
    p + 4 <= |s| && s[p] == '-' && Text.IsDigit(s[p + 1]) && s[p + 2] == 's' && s[p + 3] == 's'
  }

  /** The first position from `i` where '-Nss' starts. */
  function StreamsFrom(s: string, i: nat): (r: Option<nat>)
    requires i <= |s|
    ensures r.Some? ==> i <= r.value && StreamsAt(s, r.value) && forall q: nat :: i <= q < r.value ==> !StreamsAt(s, q)
    ensures r.None? ==> forall q: nat :: i <= q ==> !StreamsAt(s, q)
    decreases |s| - i
  {
    if i == |s| then None else if StreamsAt(s, i) then Some(i) else StreamsFrom(s, i + 1)
  }

  /** `re.search("-(\d)ss", phycap)`: the digit of the first '-Nss', else 0. */
  function Streams(phycap: string): (ss: nat)
    ensures ss < 10
    ensures (forall p: nat :: !StreamsAt(phycap, p)) ==> ss == 0
    ensures forall p: nat :: StreamsAt(phycap, p) && (forall q: nat :: q < p ==> !StreamsAt(phycap, q)) ==>
      ss == Text.DigitValue(phycap[p + 1])
  {
    match StreamsFrom(phycap, 0)
      case None => 0
      case Some(p) => Text.DigitValue(phycap[p + 1])
  }

  /** One association row, in the order the loop body reads it. */
  function ReadSta(r: Row, bssCh: map<string, string>, osOf: map<string, string>): (o: Result<Sta, Failure>)
    ensures o.Ok? ==> o.value.ss < StreamSlots
  {
    if |r| <= 15 then Err(MissingCell)
    else
      var phycap := r[15];
      var ss := Streams(phycap);
      if ss >= StreamSlots then Err(NoStreamSlot)
      else if r[1] !in bssCh then Err(UnknownBss(r[1]))
      else Ok(Sta(r[1], r[2], r[7], Text.Contains(phycap, "5GHz"), Text.Contains(phycap, "-HT-"),
        Text.Contains(phycap, "-VHT-"), Text.Contains(phycap, "-HE-"), ss, OsOf(osOf, r[2]), bssCh[r[1]]))
  }

  function StaResults(rows: seq<Row>, bssCh: map<string, string>, osOf: map<string, string>): (rs: seq<Result<Sta, Failure>>)
    ensures |rs| == |rows| && forall i :: 0 <= i < |rows| ==> rs[i] == ReadSta(rows[i], bssCh, osOf)
  {
    seq(|rows|, i requires 0 <= i < |rows| => ReadSta(rows[i], bssCh, osOf))
  }

  predicate Is5G(s: Sta) { s.is5G }
  predicate Is2G(s: Sta) { !s.is5G }
  predicate IsHt(s: Sta) { s.ht }
  predicate IsVht(s: Sta) { s.vht }
  predicate IsHe(s: Sta) { s.he }

  function HasStreams(k: nat): Sta -> bool
  {
    (s: Sta) => s.ss == k
  }

  function Essids(ss: seq<Sta>): (r: seq<string>)
    ensures |r| == |ss| && forall i :: 0 <= i < |ss| ==> r[i] == ss[i].essid
  {
    seq(|ss|, i requires 0 <= i < |ss| => ss[i].essid)
  }

  function EssBands(ss: seq<Sta>): (r: seq<(string, bool)>)
    ensures |r| == |ss| && forall i :: 0 <= i < |ss| ==> r[i] == (ss[i].essid, ss[i].is5G)
  {
    seq(|ss|, i requires 0 <= i < |ss| => (ss[i].essid, ss[i].is5G))
  }

  function OsStreams(ss: seq<Sta>): (r: seq<(string, nat)>)
    ensures |r| == |ss| && forall i :: 0 <= i < |ss| ==> r[i] == (ss[i].os, ss[i].ss)
  {
    seq(|ss|, i requires 0 <= i < |ss| => (ss[i].os, ss[i].ss))
  }

  function Chans(ss: seq<Sta>): (r: seq<string>)
    ensures |r| == |ss| && forall i :: 0 <= i < |ss| ==> r[i] == ss[i].ch
  {
    seq(|ss|, i requires 0 <= i < |ss| => ss[i].ch)
  }

  function StreamCounts(ss: seq<Sta>): (r: seq<nat>)
    ensures |r| == StreamSlots && forall k :: 0 <= k < StreamSlots ==> r[k] == Counting.CountIf(ss, HasStreams(k))
  {
    seq(StreamSlots, k requires 0 <= k < StreamSlots => Counting.CountIf(ss, HasStreams(k)))
  }

  /** The counters after the association loop over `ss`. */
  function Count(ss: seq<Sta>): Counts
  {
    Counts(Counting.CountIf(ss, Is5G), Counting.CountIf(ss, Is2G), Counting.CountIf(ss, IsHt),
      Counting.CountIf(ss, IsVht), Counting.CountIf(ss, IsHe), StreamCounts(ss),
      Tally.Tally(Tally.Ones(OsStreams(ss))), Tally.Tally(Tally.Ones(Essids(ss))),
      Tally.Tally(Tally.Ones(EssBands(ss))), Tally.Tally(Tally.Ones(Chans(ss))))
  }

  lemma {:induction false} FlagsSnoc(ss: seq<Sta>, s: Sta)
    ensures var c, c' := Count(ss), Count(ss + [s]);
      && c'.num5G == c.num5G + (if s.is5G then 1 else 0)
      && c'.num2G == c.num2G + (if s.is5G then 0 else 1)
      && c'.numHt == c.numHt + (if s.ht then 1 else 0)
      && c'.numVht == c.numVht + (if s.vht then 1 else 0)
      && c'.numHe == c.numHe + (if s.he then 1 else 0)
  {
    Counting.CountSnoc(ss, s, Is5G);
    Counting.CountSnoc(ss, s, Is2G);
    Counting.CountSnoc(ss, s, IsHt);
    Counting.CountSnoc(ss, s, IsVht);
    Counting.CountSnoc(ss, s, IsHe);
  }

  lemma {:induction false} StreamsSnoc(ss: seq<Sta>, s: Sta)
    requires s.ss < StreamSlots
    ensures var n := StreamCounts(ss); StreamCounts(ss + [s]) == n[s.ss := n[s.ss] + 1]
  {
    forall k | 0 <= k < StreamSlots
      ensures Counting.CountIf(ss + [s], HasStreams(k)) == Counting.CountIf(ss, HasStreams(k)) + (if s.ss == k then 1 else 0)
    {
      Counting.CountSnoc(ss, s, HasStreams(k));
    }
  }

  lemma {:induction false} OnesSnoc<K>(ks: seq<K>, k: K)
    ensures Tally.Tally(Tally.Ones(ks + [k])) == Tally.Bump(Tally.Tally(Tally.Ones(ks)), k, 1)
  {
    assert Tally.Ones(ks + [k]) == Tally.Ones(ks) + [(k, 1)];
    Tally.TallySnoc(Tally.Ones(ks), k, 1);
  }

  lemma {:induction false} TalliesSnoc(ss: seq<Sta>, s: Sta)
    ensures var c, c' := Count(ss), Count(ss + [s]);
      && c'.osSs == Tally.Bump(c.osSs, (s.os, s.ss), 1)
      && c'.ess == Tally.Bump(c.ess, s.essid, 1)
      && c'.essPhy == Tally.Bump(c.essPhy, (s.essid, s.is5G), 1)
      && c'.channels == Tally.Bump(c.channels, s.ch, 1)
  {
    assert OsStreams(ss + [s]) == OsStreams(ss) + [(s.os, s.ss)];
    assert Essids(ss + [s]) == Essids(ss) + [s.essid];
    assert EssBands(ss + [s]) == EssBands(ss) + [(s.essid, s.is5G)];
    assert Chans(ss + [s]) == Chans(ss) + [s.ch];
    OnesSnoc(OsStreams(ss), (s.os, s.ss));
    OnesSnoc(Essids(ss), s.essid);
    OnesSnoc(EssBands(ss), (s.essid, s.is5G));
    OnesSnoc(Chans(ss), s.ch);
  }

  /** The loop body over one association. */
  method AddSta(ghost ss: seq<Sta>, c: Counts, s: Sta) returns (c': Counts)
    requires c == Count(ss) && s.ss < StreamSlots
    ensures c' == Count(ss + [s])
  {
    FlagsSnoc(ss, s);
    StreamsSnoc(ss, s);
    TalliesSnoc(ss, s);
    var num5G, num2G := c.num5G, c.num2G;
    if s.is5G {
      num5G := num5G + 1;
    } else {
      num2G := num2G + 1;
    }
    c' := Counts(num5G, num2G,
      c.numHt + (if s.ht then 1 else 0), c.numVht + (if s.vht then 1 else 0), c.numHe + (if s.he then 1 else 0),
      c.numSs[s.ss := c.numSs[s.ss] + 1], Tally.Bump(c.osSs, (s.os, s.ss), 1),
      Tally.Bump(c.ess, s.essid, 1), Tally.Bump(c.essPhy, (s.essid, s.is5G), 1), Tally.Bump(c.channels, s.ch, 1));
  }

  /** The loop over the associations. */
  method Scan(rows: seq<Row>, bssCh: map<string, string>, osOf: map<string, string>) returns (r: Result<(seq<Sta>, Counts), Failure>)
    ensures Results.Gather(StaResults(rows, bssCh, osOf)).Err? ==> r == Err(Results.Gather(StaResults(rows, bssCh, osOf)).error)
    ensures Results.Gather(StaResults(rows, bssCh, osOf)).Ok? ==>
      var stas := Results.Gather(StaResults(rows, bssCh, osOf)).value;
      r == Ok((stas, Count(stas)))
  {
    ghost var rs := StaResults(rows, bssCh, osOf);
    var ss: seq<Sta> := [];
    var c := Count([]);
    for i := 0 to |rows|
      invariant Results.Gather(rs[..i]) == Ok(ss)
      invariant c == Count(ss)
    {
      var o := ReadSta(rows[i], bssCh, osOf);
      assert rs[i] == o;
      Results.GatherStep(rs, i, ss);
      if o.Err? {
        Results.GatherStop(rs, i + 1);
        assert Results.Gather(rs) == Err(o.error);
        return Err(o.error);
      }
      c := AddSta(ss, c, o.value);
      ss := ss + [o.value];
    }
    assert rs[..|rows|] == rs;
    assert Results.Gather(rs) == Ok(ss);
    return Ok((ss, c));
  }

  // ---- the script ----

  /** Every row has column `col`, so `uniq(tbl, col)` can read it. */
  predicate Keyed(rows: seq<Row>, col: nat)
  {
    forall i :: 0 <= i < |rows| ==> |rows[i]| > col
  }

  /** The whole script up to its printing. */
  function Phycap(users: Option<seq<Row>>, assoc: Option<seq<Row>>, bss: Option<seq<Row>>): Result<Report, Failure>
  {
    if users.None? then Err(NoUsers)
    else if assoc.None? then Err(NoAssociations)
    else if bss.None? then Err(NoBssTable)
    else if !Keyed(assoc.value, 2) || !Keyed(bss.value, 0) then Err(MissingCell)
    else
      var a := Uniq.Uniq(assoc.value, Uniq.Cell(2));
      var b := Uniq.Uniq(bss.value, Uniq.Cell(0));
      if !UserRowsOk(Text.Tail(users.value)) then Err(MissingCell)
      else Tables(Text.Tail(users.value), Text.Tail(a), Text.Tail(b), |a| - 1)
  }

  /** The script once the three tables are read and de-duplicated. */
  function Tables(urows: seq<Row>, arows: seq<Row>, brows: seq<Row>, numSta: int): Result<Report, Failure>
    requires UserRowsOk(urows)
  {
    var u := UserMaps(urows);
    match Results.Gather(BssResults(brows))
      case Err(f) => Err(f)
      case Ok(os) =>
        var bssCh := KeepMax.Assign(Sessions.Somes(os));
        match Results.Gather(StaResults(arows, bssCh, u.osOf))
          case Err(f) => Err(f)
          case Ok(ss) => Ok(Report(numSta, u, bssCh, ss, Count(ss)))
  }

  /** The script after parsing, up to its printing. */
  method Run(users: Option<seq<Row>>, assoc: Option<seq<Row>>, bss: Option<seq<Row>>) returns (r: Result<Report, Failure>)
    ensures r == Phycap(users, assoc, bss)
  {
    if users.None? {
      return Err(NoUsers);
    }
    if assoc.None? {
      return Err(NoAssociations);
    }
    if bss.None? {
      return Err(NoBssTable);
    }
    if !Keyed(assoc.value, 2) || !Keyed(bss.value, 0) {
      return Err(MissingCell);
    }
    var a := Uniq.UniqBy(assoc.value, Uniq.Cell(2));
    var b := Uniq.UniqBy(bss.value, Uniq.Cell(0));
    if !UserRowsOk(Text.Tail(users.value)) {
      return Err(MissingCell);
    }
    r := RunTables(Text.Tail(users.value), Text.Tail(a), Text.Tail(b), |a| - 1);
  }

  method RunTables(urows: seq<Row>, arows: seq<Row>, brows: seq<Row>, numSta: int) returns (r: Result<Report, Failure>)
    requires UserRowsOk(urows)
    ensures r == Tables(urows, arows, brows, numSta)
  {
    var u := BuildUsers(urows);
    var bssCh := BuildBssCh(brows);
    if bssCh.Err? {
      return Err(bssCh.error);
    }
    var scanned := Scan(arows, bssCh.value, u.osOf);
    if scanned.Err? {
      return Err(scanned.error);
    }
    return Ok(Report(numSta, u, bssCh.value, scanned.value.0, scanned.value.1));
  }

  // ---- what the counters mean ----

  lemma {:induction false} BandsSplit(ss: seq<Sta>)
    ensures Counting.CountIf(ss, Is5G) + Counting.CountIf(ss, Is2G) == |ss|
    decreases |ss|
  {
    if ss != [] {
      BandsSplit(ss[..|ss| - 1]);
    }
  }

  /** Each SSID's client count is the sum of its 2.4 GHz and 5 GHz counts. */
  lemma {:induction false} EssSplit(ss: seq<Sta>, e: string)
    ensures Counting.CountIf(Essids(ss), Tally.Is(e))
      == Counting.CountIf(EssBands(ss), Tally.Is((e, false))) + Counting.CountIf(EssBands(ss), Tally.Is((e, true)))
    decreases |ss|
  {
    if ss != [] {
      var pre := ss[..|ss| - 1];
      EssSplit(pre, e);
      assert Essids(ss)[..|pre|] == Essids(pre);
      assert EssBands(ss)[..|pre|] == EssBands(pre);
    }
  }

  function SumOf(xs: seq<nat>): nat
  {
    if xs == [] then 0 else SumOf(xs[..|xs| - 1]) + xs[|xs| - 1]
  }

  /** Every client with fewer streams than slots is in exactly one slot. */
  lemma {:induction false} StreamsTotal(ss: seq<Sta>)
    requires forall i :: 0 <= i < |ss| ==> ss[i].ss < StreamSlots
    ensures SumOf(StreamCounts(ss)) == |ss|
    decreases |ss|
  {
    if ss != [] {
      var pre := ss[..|ss| - 1];
      var s := ss[|ss| - 1];
      StreamsTotal(pre);
      assert pre + [s] == ss;
      StreamsSnoc(pre, s);
      SumOfBump(StreamCounts(pre), s.ss);
      assert SumOf(StreamCounts(pre)) == |pre|;
      assert StreamCounts(ss) == StreamCounts(pre)[s.ss := StreamCounts(pre)[s.ss] + 1];
    } else {
      SumOfZeros(StreamCounts(ss));
    }
  }

  lemma {:induction false} SumOfZeros(xs: seq<nat>)
    requires forall k :: 0 <= k < |xs| ==> xs[k] == 0
    ensures SumOf(xs) == 0
    decreases |xs|
  {
    if xs != [] {
      SumOfZeros(xs[..|xs| - 1]);
    }
  }

  lemma {:induction false} SumOfBump(xs: seq<nat>, k: nat)
    requires k < |xs|
    ensures SumOf(xs[k := xs[k] + 1]) == SumOf(xs) + 1
    decreases |xs|
  {
    var n := |xs| - 1;
    if k < n {
      SumOfBump(xs[..n], k);
      assert xs[k := xs[k] + 1][..n] == xs[..n][k := xs[k] + 1];
    } else {
      assert xs[k := xs[k] + 1][..n] == xs[..n];
    }
  }

  /** Every association read has a stream count with a slot. */
  lemma {:induction false} StaStreams(rows: seq<Row>, bssCh: map<string, string>, osOf: map<string, string>)
    requires Results.Gather(StaResults(rows, bssCh, osOf)).Ok?
    ensures var ss := Results.Gather(StaResults(rows, bssCh, osOf)).value;
      |ss| == |rows| && forall i :: 0 <= i < |ss| ==> ss[i].ss < StreamSlots && ReadSta(rows[i], bssCh, osOf) == Ok(ss[i])
  {
    Results.GatherFirst(StaResults(rows, bssCh, osOf));
  }

  /**
   * On success: every association is either 5 GHz or 2.4 GHz, each in one
   * stream slot and on one channel, and each SSID's count is the sum of
   * its two band counts.
   */
  lemma {:induction false} CountsMeaning(users: Option<seq<Row>>, assoc: Option<seq<Row>>, bss: Option<seq<Row>>, e: string)
    requires Phycap(users, assoc, bss).Ok?
    ensures var rep := Phycap(users, assoc, bss).value; var c := rep.counts;
      && c.num5G + c.num2G == |rep.stas|
      && SumOf(c.numSs) == |rep.stas|
      && Tally.SumAt(c.channels, KeepMax.FirstSeen(Tally.Ones(Chans(rep.stas)))) == |rep.stas|
      && Tally.Get(c.ess, e) == Tally.Get(c.essPhy, (e, false)) + Tally.Get(c.essPhy, (e, true))
      && (assoc.value != [] ==> rep.numSta == |rep.stas|)
  {
    var rep := Phycap(users, assoc, bss).value;
    var a := Uniq.Uniq(assoc.value, Uniq.Cell(2));
    var b := Uniq.Uniq(bss.value, Uniq.Cell(0));
    var u := UserMaps(Text.Tail(users.value));
    var bssCh := KeepMax.Assign(Sessions.Somes(Results.Gather(BssResults(Text.Tail(b))).value));
    StaStreams(Text.Tail(a), bssCh, u.osOf);
    BandsSplit(rep.stas);
    StreamsTotal(rep.stas);
    Tally.CountTotal(Chans(rep.stas));
    Tally.CountMeaning(Essids(rep.stas), e);
    Tally.CountMeaning(EssBands(rep.stas), (e, false));
    Tally.CountMeaning(EssBands(rep.stas), (e, true));
    EssSplit(rep.stas, e);
    if assoc.value != [] {
      Uniq.UniqHead(assoc.value, Uniq.Cell(2));
    }
  }
}
