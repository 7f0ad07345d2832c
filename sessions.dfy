/**
 * What the dp-ses-*.py scripts share when they walk the rows of
 * 'show datapath session dpi': the session fields they keep, the
 * multicast test on the destination address, the V/I/Q/u flag counters
 * and the IP to AP-name map read from 'show user-table'.
 */
module Sessions {
  import opened Wrappers
  import Text
  import Counting
  import KeepMax
  import Results

  type Row = seq<string>

  /** Sessions this short-lived (TAge, in hex) are ignored: `if tage <= 5: continue`. */
  const MaxShortAge := 5

  /** A kept session: the row's addresses, protocol and ports as text, its age and byte count, its flags. */
  datatype Session = Session(src: string, dst: string, proto: string, sport: string, dport: string, tage: int, bytes: int, flags: string)

  /** `num_v`, `num_i`, `num_q`, `num_u`. */
  datatype Counters = Counters(v: nat, i: nat, q: nat, u: nat)

  /** The length of the run of decimal digits at the start of `s`. */
  function LeadingDigits(s: string): (n: nat)
    ensures n <= |s|
    ensures forall i :: 0 <= i < n ==> Text.IsDigit(s[i])
    ensures n == |s| || !Text.IsDigit(s[n])
  {
    if s == [] || !Text.IsDigit(s[0]) then 0 else 1 + LeadingDigits(s[1..])
  }

  /** A run of digits that ends where a non-digit starts is the leading run. */
  lemma {:induction false} LeadingDigitsAt(s: string, n: nat)
    requires n < |s| && (forall i :: 0 <= i < n ==> Text.IsDigit(s[i])) && !Text.IsDigit(s[n])
    ensures LeadingDigits(s) == n
    decreases n
  {
    if n > 0 {
      LeadingDigitsAt(s[1..], n - 1);
    }
  }

  /**
   * `re.match(r'(\d+)\.', s)` and `int(m.group(1))`: the number before
   * the first '.', when `s` starts with digits followed by '.'.  `\d+`
   * is greedy and a shorter run is followed by a digit, not '.', so the
   * only match is the whole leading run.
   */
  function FirstOctet(s: string): Option<nat>
  {
    var n := LeadingDigits(s);
    if 0 < n < |s| && s[n] == '.' then Some(Text.DigitsValue(s[..n], 10)) else None
  }

  /** `224 <= ip <= 239` on the first octet of the destination. */
  predicate Multicast(dst: string)
  {
    match FirstOctet(dst)
      case None => false
      case Some(a) => 224 <= a <= 239
  }

  /** The destination of a kept session is a multicast address. */
  predicate McDst(s: Session)
  {
    Multicast(s.dst)
  }

  /**
   * An address is multicast exactly when it starts with a run of digits,
   * followed by '.', whose value lies in 224..239.
   */
  lemma {:induction false} MulticastMeaning(d: string)
    ensures Multicast(d) <==> exists n :: 0 < n < |d| && Text.AllDigits(d[..n]) && d[n] == '.' && 224 <= Text.DigitsValue(d[..n], 10) <= 239
  {
    if exists n :: 0 < n < |d| && Text.AllDigits(d[..n]) && d[n] == '.' && 224 <= Text.DigitsValue(d[..n], 10) <= 239 {
      var n :| 0 < n < |d| && Text.AllDigits(d[..n]) && d[n] == '.' && 224 <= Text.DigitsValue(d[..n], 10) <= 239;
      assert forall i :: 0 <= i < n ==> Text.IsDigit(d[..n][i]);
      LeadingDigitsAt(d, n);
    }
    if Multicast(d) {
      var n := LeadingDigits(d);
      assert Text.AllDigits(d[..n]);
    }
  }

  /** A dotted address is multicast exactly when its first octet is in 224..239. */
  lemma {:induction false} MulticastQuad(a: nat, rest: string)
    ensures Multicast(Text.NatToStr(a) + "." + rest) <==> 224 <= a <= 239
  {
    var p := Text.NatToStr(a);
    var d := p + "." + rest;
    LeadingDigitsAt(d, |p|);
    assert d[..|p|] == p;
  }

  /** The test `c in flags` on a kept session. */
  function HasFlag(c: char): Session -> bool
  {
    (s: Session) => c in s.flags
  }

  /** The counters as they stand after the sessions `ss`. */
  function FlagCounts(ss: seq<Session>): Counters
  {
    Counters(Counting.CountIf(ss, HasFlag('V')), Counting.CountIf(ss, HasFlag('I')),
             Counting.CountIf(ss, HasFlag('Q')), Counting.CountIf(ss, HasFlag('u')))
  }

  /** The lists and counters the scan builds: every kept session, the multicast ones, the flag counters. */
  datatype Kept = Kept(sessions: seq<Session>, multicast: seq<Session>, counts: Counters)

  /** What the scan holds after keeping the sessions `ss`. */
  function Summary(ss: seq<Session>): (k: Kept)
    ensures k.sessions == ss
    ensures forall s :: s in k.multicast <==> s in ss && Multicast(s.dst)
    ensures k.counts.v <= |ss| && k.counts.i <= |ss| && k.counts.q <= |ss| && k.counts.u <= |ss|
  {
    forall s ensures s in Counting.Filter(ss, McDst) <==> s in ss && Multicast(s.dst) {
      Counting.FilterMembers(ss, McDst, s);
    }
    Kept(ss, Counting.Filter(ss, McDst), FlagCounts(ss))
  }

  /** One kept session: `tbl.append`, `tbl_m.append` when multicast, and the counters its flags name. */
  method Keep(k: Kept, s: Session) returns (k': Kept)
    requires k == Summary(k.sessions)
    ensures k' == Summary(k.sessions + [s])
  {
    var ss := k.sessions;
    assert (ss + [s])[..|ss|] == ss;
    var m := k.multicast;
    if Multicast(s.dst) {
      m := m + [s];
    }
    var c := k.counts;
    if 'V' in s.flags {
      c := c.(v := c.v + 1);
    }
    if 'I' in s.flags {
      c := c.(i := c.i + 1);
    }
    if 'Q' in s.flags {
      c := c.(q := c.q + 1);
    }
    if 'u' in s.flags {
      c := c.(u := c.u + 1);
    }
    k' := Kept(ss + [s], m, c);
  }

  /** The values of the `Some` entries, in order. */
  function Somes<T>(os: seq<Option<T>>): seq<T>
  {
    if os == [] then []
    else Somes(os[..|os| - 1]) + (if os[|os| - 1].Some? then [os[|os| - 1].value] else [])
  }

  lemma {:induction false} SomesSnoc<T>(os: seq<Option<T>>, o: Option<T>)
    ensures Somes(os + [o]) == Somes(os) + (if o.Some? then [o.value] else [])
  {
    assert (os + [o])[..|os|] == os;
  }

  /** A value is kept exactly when some entry holds it. */
  lemma {:induction false} SomesMembers<T>(os: seq<Option<T>>, x: T)
    ensures x in Somes(os) <==> Some(x) in os
    decreases |os|
  {
    if os != [] {
      SomesMembers(os[..|os| - 1], x);
      assert os == os[..|os| - 1] + [os[|os| - 1]];
    }
  }

  /**
   * The kept values come from the `Some` entries at increasing positions
   * `idx`, which are all the `Some` entries: one kept value per entry.
   */
  lemma {:induction false} SomesPositions<T>(os: seq<Option<T>>) returns (idx: seq<nat>)
    ensures |idx| == |Somes(os)|
    ensures forall a, b :: 0 <= a < b < |idx| ==> idx[a] < idx[b]
    ensures forall j :: 0 <= j < |idx| ==> idx[j] < |os| && os[idx[j]] == Some(Somes(os)[j])
    ensures forall i :: 0 <= i < |os| && os[i].Some? ==> i in idx
    decreases |os|
  {
    if os == [] {
      return [];
    }
    var n := |os| - 1;
    var pre := os[..n];
    var sp := Somes(pre);
    idx := SomesPositions(pre);
    assert forall i :: 0 <= i < n ==> pre[i] == os[i];
    if os[n].Some? {
      assert Somes(os) == sp + [os[n].value];
      idx := idx + [n];
      forall j | 0 <= j < |idx|
        ensures idx[j] < |os| && os[idx[j]] == Some(Somes(os)[j])
      {
        if j < |sp| {
          assert Somes(os)[j] == sp[j];
        }
      }
    } else {
      assert Somes(os) == sp;
    }
  }

  /**
   * A scan that keeps some rows and skips others succeeds only when every
   * row is read without error, and then keeps exactly the values of the
   * rows read as kept.
   */
  lemma {:induction false} GatherSomes<T, E>(rs: seq<Result<Option<T>, E>>, x: T)
    requires Results.Gather(rs).Ok?
    ensures forall i :: 0 <= i < |rs| ==> rs[i].Ok?
    ensures x in Somes(Results.Gather(rs).value) <==> exists i :: 0 <= i < |rs| && rs[i] == Ok(Some(x))
  {
    Results.GatherFirst(rs);
    var os := Results.Gather(rs).value;
    SomesMembers(os, x);
    if Some(x) in os {
      var k :| 0 <= k < |os| && os[k] == Some(x);
      assert rs[k] == Ok(Some(x));
    }
    if exists i :: 0 <= i < |rs| && rs[i] == Ok(Some(x)) {
      var i :| 0 <= i < |rs| && rs[i] == Ok(Some(x));
      assert os[i] == Some(x);
    }
  }

  /** The column of 'show user-table' that holds the AP name. */
  const UserApColumn := 7

  /** The (IP, AP name) pairs of the user-table rows. */
  function IpAps(rows: seq<Row>): (ps: seq<(string, string)>)
    requires forall i :: 0 <= i < |rows| ==> |rows[i]| > UserApColumn
    ensures |ps| == |rows| && forall i :: 0 <= i < |rows| ==> ps[i] == (rows[i][0], rows[i][UserApColumn])
  {
    seq(|rows|, i requires 0 <= i < |rows| => (rows[i][0], rows[i][UserApColumn]))
  }

  /**
   * `ip2apn[r[0]] = r[7]` for each user-table data row; None stands for
   * the IndexError of a row too short.
   */
  function UserAps(rows: seq<Row>): Option<map<string, string>>
  {
    if forall i :: 0 <= i < |rows| ==> |rows[i]| > UserApColumn then Some(KeepMax.Assign(IpAps(rows))) else None
  }

  /** The loop that builds `ip2apn`. */
  method BuildUserAps(rows: seq<Row>) returns (m: Option<map<string, string>>)
    ensures m == UserAps(rows)
  {
    var d: map<string, string> := map[];
    for i := 0 to |rows|
      invariant forall j :: 0 <= j < i ==> |rows[j]| > UserApColumn
      invariant d == KeepMax.Assign(IpAps(rows[..i]))
    {
      if |rows[i]| <= UserApColumn {
        return None;
      }
      KeepMax.AssignSnoc(IpAps(rows[..i]), rows[i][0], rows[i][UserApColumn]);
      assert IpAps(rows[..i + 1]) == IpAps(rows[..i]) + [(rows[i][0], rows[i][UserApColumn])];
      d := d[rows[i][0] := rows[i][UserApColumn]];
    }
    assert rows[..|rows|] == rows;
    return Some(d);
  }

  /** `ip2apn.get(ip, '')`. */
  function ApOf(m: map<string, string>, ip: string): string
  {
    if ip in m then m[ip] else ""
  }

  /** An IP maps to the AP name of the last user-table row with that IP, and to '' when no row has it. */
  lemma {:induction false} UserApsMeaning(rows: seq<Row>, ip: string)
    requires UserAps(rows).Some?
    ensures var m := UserAps(rows).value;
      && ((forall i :: 0 <= i < |rows| ==> rows[i][0] != ip) ==> ApOf(m, ip) == "")
      && (forall i :: 0 <= i < |rows| && rows[i][0] == ip && (forall j :: i < j < |rows| ==> rows[j][0] != ip) ==> ApOf(m, ip) == rows[i][UserApColumn])
  {
    var ps := IpAps(rows);
    KeepMax.AssignLast(ps, ip);
    forall i | 0 <= i < |rows| && rows[i][0] == ip && (forall j :: i < j < |rows| ==> rows[j][0] != ip)
      ensures ApOf(UserAps(rows).value, ip) == rows[i][UserApColumn]
    {
      assert ps[i].0 == ip;
      assert forall j :: i < j < |ps| ==> ps[j].0 != ip;
    }
  }
}
