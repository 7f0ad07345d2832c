/**
 * dp-ses-topuser.py: the users of 'show datapath user table' ranked by
 * their number of sessions, the 200 busiest first, each with the name, AP
 * and SSID that 'show user-table' gives for its IP address.
 */
module DpSesTopUser {
  import opened Wrappers
  import Text
  import Results
  import Sessions
  import Uniq
  import KeepMax
  import StableSort
  import MonitorRows

  type Row = seq<string>

  /**
   * How the script ends early: no datapath user table or no user table
   * (`sys.exit`), or a row too short for a cell it reads (IndexError).
   */
  datatype Failure = NoDatapathUsers | NoL3Users | MissingCell

  /** What 'show user-table' says about one IP: `ip2name`, `ip2apn`, `ip2ssid`. */
  datatype User = User(name: string, apn: string, ssid: string)

  /** One row of `tbl`: IP, MAC and number of sessions. */
  datatype Talker = Talker(ip: string, mac: string, sessions: nat)

  /**
   * The L3 and L2 user counts printed, the IP to user map, `tbl`, and the
   * rows listed.
   */
  datatype Report = Report(l3Users: int, l2Users: int, users: map<string, User>, talkers: seq<Talker>, top: seq<Talker>)

  /** The number of users listed. */
  const TopCount := 200

  /** The SSID shown when the user-table's column 9 does not start with one. */
  const NoSsid := "n/a"

  /** No row is empty, so `uniq` can read every row's first cell. */
  predicate Keyed(rows: seq<Row>)
  {
    forall i :: 0 <= i < |rows| ==> rows[i] != []
  }

  /**
   * `re.match(r'([\w-]+)/', s)`: the word characters and dashes before
   * the first '/', when there is at least one and a '/' follows them.
   * The run is greedy and '/' is not one of its characters, so the only
   * possible match is the whole leading run.
   */
  function Ssid(s: string): string
  {
    var w := MonitorRows.WordEnd(s, 0, true);
    if 0 < w < |s| && s[w] == '/' then s[..w] else NoSsid
  }

  /**
   * The SSID is the text before a '/' that only word characters and
   * dashes precede, and "n/a" (which has no such form) when there is none.
   */
  lemma {:induction false} SsidMeaning(s: string)
    ensures forall w :: 0 < w < |s| && s[w] == '/' && (forall k :: 0 <= k < w ==> MonitorRows.IsWord(s[k], true)) ==> Ssid(s) == s[..w]
    ensures (forall w :: 0 < w < |s| && s[w] == '/' ==> exists k :: 0 <= k < w && !MonitorRows.IsWord(s[k], true)) ==> Ssid(s) == NoSsid
  {
    MonitorRows.WordEndRun(s, 0, true);
    var e := MonitorRows.WordEnd(s, 0, true);
    forall w | 0 < w < |s| && s[w] == '/' && (forall k :: 0 <= k < w ==> MonitorRows.IsWord(s[k], true))
      ensures Ssid(s) == s[..w]
    {
      assert !MonitorRows.IsWord(s[w], true);
    }
  }

  /** The user-table row read for its IP. */
  function UserOf(r: Row): User
    requires |r| > 9
  {
    User(r[2], r[7], Ssid(r[9]))
  }

  /** The (IP, user) pairs of the user-table rows. */
  function UserPairs(rows: seq<Row>): (ps: seq<(string, User)>)
    requires forall i :: 0 <= i < |rows| ==> |rows[i]| > 9
    ensures |ps| == |rows| && forall i :: 0 <= i < |rows| ==> ps[i] == (rows[i][0], UserOf(rows[i]))
  {
    seq(|rows|, i requires 0 <= i < |rows| => (rows[i][0], UserOf(rows[i])))
  }

  /**
   * The loop that fills `ip2name`, `ip2apn` and `ip2ssid` (three maps
   * with the same keys, one map of triples here); None stands for the
   * IndexError of a row too short.
   */
  function UserMap(rows: seq<Row>): Option<map<string, User>>
  {
    if forall i :: 0 <= i < |rows| ==> |rows[i]| > 9 then Some(KeepMax.Assign(UserPairs(rows))) else None
  }

  /** The three `defaultdict(lambda: "")` reads for one IP. */
  function Lookup(users: map<string, User>, ip: string): User
  {
    if ip in users then users[ip] else User("", "", "")
  }

  /** A digit, '/' and a digit at `q`: where `(\d+)/(\d+)` can cross its '/'. */
  predicate Slash(s: string, q: int)
  {
    0 <= q && q + 2 < |s| && Text.IsDigit(s[q]) && s[q + 1] == '/' && Text.IsDigit(s[q + 2])
  }

  /** `(\d+)/(\d+)` matches at `p`: the digit run from `p` is followed by '/' and a digit. */
  predicate PairAt(s: string, p: nat)
  {
    p < |s| && Text.IsDigit(s[p]) && var j := MonitorRows.DigitsEnd(s, p); j + 1 < |s| && s[j] == '/' && Text.IsDigit(s[j + 1])
  }

  /** `re.search`: the leftmost match from `p` on. */
  function FindPair(s: string, p: nat): (r: Option<nat>)
    requires p <= |s|
    ensures r.Some? ==> p <= r.value < |s| && PairAt(s, r.value) && forall q :: p <= q < r.value ==> !PairAt(s, q)
    ensures r.None? ==> forall q :: p <= q < |s| ==> !PairAt(s, q)
    decreases |s| - p
  {
    if p == |s| then None
    else if PairAt(s, p) then Some(p)
    else FindPair(s, p + 1)
  }

  /** `int(m.group(1))` of `re.search(r'(\d+)/(\d+)', s)`, when it matches. */
  function SessionCount(s: string): Option<nat>
  {
    match FindPair(s, 0)
      case None => None
      case Some(p) => Some(Text.DigitsValue(s[p..MonitorRows.DigitsEnd(s, p)], 10))
  }

  /** Inside a run of digits, every position's run ends at the same place. */
  lemma {:induction false} DigitsEndStep(s: string, i: nat)
    requires i < |s| && Text.IsDigit(s[i])
    ensures MonitorRows.DigitsEnd(s, i) == MonitorRows.DigitsEnd(s, i + 1)
  {
  }

  /** A digit just before a match is a match too. */
  lemma {:induction false} PairExtends(s: string, i: nat)
    requires PairAt(s, i + 1)
    ensures Text.IsDigit(s[i]) ==> PairAt(s, i)
  {
    if Text.IsDigit(s[i]) {
      DigitsEndStep(s, i);
    }
  }

  /** Every `Slash` is a match of the pattern. */
  lemma {:induction false} SlashPair(s: string, q: int)
    requires Slash(s, q)
    ensures PairAt(s, q) && MonitorRows.DigitsEnd(s, q) == q + 1
  {
    assert MonitorRows.DigitsEnd(s, q + 1) == q + 1;
    DigitsEndStep(s, q);
  }

  /** `s[p..q+1]` is a whole run of digits: nothing before `p` extends it. */
  predicate DigitRun(s: string, p: int, q: int)
  {
    0 <= p <= q < |s| && (forall k :: p <= k <= q ==> Text.IsDigit(s[k])) && (p == 0 || !Text.IsDigit(s[p - 1]))
  }

  /**
   * There is a count exactly when some digit is followed by '/' and a
   * digit; the count is then the value of the whole run of digits that
   * ends at the first such '/'.
   */
  lemma {:induction false} SessionCountMeaning(s: string)
    ensures SessionCount(s).None? <==> forall q :: !Slash(s, q)
    ensures SessionCount(s).Some? ==> exists p, q :: (
      && DigitRun(s, p, q) && Slash(s, q) && (forall q' :: q' < q ==> !Slash(s, q'))
      && SessionCount(s).value == Text.DigitsValue(s[p..q + 1], 10))
  {
    var r := FindPair(s, 0);
    if r.None? {
      forall q | Slash(s, q)
        ensures false
      {
        SlashPair(s, q);
      }
    } else {
      var p := r.value;
      var j := MonitorRows.DigitsEnd(s, p);
      var q := j - 1;
      assert s[p..j][0] == s[p];
      assert Slash(s, q) by {
        assert s[p..j][q - p] == s[q];
      }
      forall k | p <= k <= q
        ensures Text.IsDigit(s[k])
      {
        assert s[p..j][k - p] == s[k];
      }
      forall q' | q' < q
        ensures !Slash(s, q')
      {
        if Slash(s, q') {
          SlashPair(s, q');
        }
      }
      if p > 0 {
        PairExtends(s, p - 1);
      }
      assert s[p..j] == s[p..q + 1];
      assert DigitRun(s, p, q) && Slash(s, q) && (forall q' :: q' < q ==> !Slash(s, q'))
        && SessionCount(s).value == Text.DigitsValue(s[p..q + 1], 10);
    }
  }

  /** One row of the datapath user table, in the order the loop body reads it. */
  function ReadRow(r: Row): Result<Option<Talker>, Failure>
  {
    if |r| <= 2 then Err(MissingCell)
    else if Text.Contains(r[2], "2700/") then Ok(None)
    else if |r| <= 7 then Err(MissingCell)
    else match SessionCount(r[7])
      case None => Ok(None)
      case Some(n) => Ok(Some(Talker(r[0], r[1], n)))
  }

  /**
   * A row read without error is kept exactly when its column 2 does not
   * contain '2700/' and its column 7 holds a count, and then it carries
   * the row's IP, MAC and that count.
   */
  lemma {:induction false} RowKept(r: Row)
    requires ReadRow(r).Ok?
    ensures |r| > 2
    ensures ReadRow(r).value.Some? <==> !Text.Contains(r[2], "2700/") && |r| > 7 && SessionCount(r[7]).Some?
    ensures ReadRow(r).value.Some? ==> |r| > 7 && ReadRow(r).value.value == Talker(r[0], r[1], SessionCount(r[7]).value)
  {
  }

  function RowResults(rows: seq<Row>): (rs: seq<Result<Option<Talker>, Failure>>)
    ensures |rs| == |rows| && forall i :: 0 <= i < |rows| ==> rs[i] == ReadRow(rows[i])
  {
    seq(|rows|, i requires 0 <= i < |rows| => ReadRow(rows[i]))
  }

  /** The sort key of the ranking. */
  function SessionKey(t: Talker): int
  {
    t.sessions
  }

  /** `sorted(tbl, key=lambda x: x[2], reverse=True)[:200]`. */
  function Top(tbl: seq<Talker>): seq<Talker>
  {
    var sorted := StableSort.SortDesc(tbl, SessionKey);
    if |sorted| <= TopCount then sorted else sorted[..TopCount]
  }

  /** The whole script up to its printing. */
  function TopUser(dp: Option<seq<Row>>, l3: Option<seq<Row>>): Result<Report, Failure>
  {
    if dp.None? then Err(NoDatapathUsers)
    else if l3.None? then Err(NoL3Users)
    else if !Keyed(dp.value) || !Keyed(l3.value) then Err(MissingCell)
    else
      var u := Uniq.Uniq(l3.value, Uniq.Cell(0));
      match UserMap(Text.Tail(u))
        case None => Err(MissingCell)
        case Some(users) =>
          match Results.Gather(RowResults(Text.Tail(dp.value)))
            case Err(f) => Err(f)
            case Ok(os) =>
              var tbl := Sessions.Somes(os);
              Ok(Report(|u| - 1, |Uniq.Uniq(dp.value, Uniq.Cell(0))| - 1, users, tbl, Top(tbl)))
  }

  /** The loop that fills the three IP maps. */
  method BuildUsers(rows: seq<Row>) returns (m: Option<map<string, User>>)
    ensures m == UserMap(rows)
  {
    var d: map<string, User> := map[];
    for i := 0 to |rows|
      invariant forall j :: 0 <= j < i ==> |rows[j]| > 9
      invariant d == KeepMax.Assign(UserPairs(rows[..i]))
    {
      var r := rows[i];
      if |r| <= 9 {
        return None;
      }
      var ssid := NoSsid;
      var w := MonitorRows.WordEnd(r[9], 0, true);
      if 0 < w < |r[9]| && r[9][w] == '/' {
        ssid := r[9][..w];
      }
      assert User(r[2], r[7], ssid) == UserOf(r);
      UsersStep(rows, i);
      d := d[r[0] := User(r[2], r[7], ssid)];
    }
    assert rows[..|rows|] == rows;
    return Some(d);
  }

  lemma {:induction false} UsersStep(rows: seq<Row>, i: nat)
    requires i < |rows| && forall j :: 0 <= j <= i ==> |rows[j]| > 9
    ensures KeepMax.Assign(UserPairs(rows[..i + 1])) == KeepMax.Assign(UserPairs(rows[..i]))[rows[i][0] := UserOf(rows[i])]
  {
    assert UserPairs(rows[..i + 1]) == UserPairs(rows[..i]) + [(rows[i][0], UserOf(rows[i]))];
    KeepMax.AssignSnoc(UserPairs(rows[..i]), rows[i][0], UserOf(rows[i]));
  }

  /** The loop that fills `tbl`. */
  method Scan(rows: seq<Row>) returns (r: Result<seq<Talker>, Failure>)
    ensures Results.Gather(RowResults(rows)).Err? ==> r == Err(Results.Gather(RowResults(rows)).error)
    ensures Results.Gather(RowResults(rows)).Ok? ==> r == Ok(Sessions.Somes(Results.Gather(RowResults(rows)).value))
  {
    ghost var rs := RowResults(rows);
    ghost var os: seq<Option<Talker>> := [];
    var tbl: seq<Talker> := [];
    for i := 0 to |rows|
      invariant Results.Gather(rs[..i]) == Ok(os)
      invariant tbl == Sessions.Somes(os)
    {
      var o := ReadRow(rows[i]);
      Results.GatherStep(rs, i, os);
      if o.Err? {
        Results.GatherStop(rs, i + 1);
        return Err(o.error);
      }
      Sessions.SomesSnoc(os, o.value);
      if o.value.Some? {
        tbl := tbl + [o.value.value];
      }
      os := os + [o.value];
    }
    assert rs[..|rows|] == rs;
    return Ok(tbl);
  }

  /** The ranking: a stable sort by session count, largest first, cut at 200 rows. */
  method Rank(tbl: seq<Talker>) returns (top: seq<Talker>)
    ensures top == Top(tbl)
  {
    var sorted := StableSort.SortBy(tbl, SessionKey);
    top := if |sorted| <= TopCount then sorted else sorted[..TopCount];
  }

  /** The script after parsing, up to its printing. */
  method Run(dp: Option<seq<Row>>, l3: Option<seq<Row>>) returns (r: Result<Report, Failure>)
    ensures r == TopUser(dp, l3)
  {
    if dp.None? {
      return Err(NoDatapathUsers);
    }
    if l3.None? {
      return Err(NoL3Users);
    }
    if !Keyed(dp.value) || !Keyed(l3.value) {
      return Err(MissingCell);
    }
    r := RunKeyed(dp.value, l3.value);
  }

  /** The script once both tables are present and every row has a first cell. */
  method RunKeyed(dp: seq<Row>, l3: seq<Row>) returns (r: Result<Report, Failure>)
    requires Keyed(dp) && Keyed(l3)
    ensures r == TopUser(Some(dp), Some(l3))
  {
    var u := Uniq.UniqBy(l3, Uniq.Cell(0));
    var users := BuildUsers(Text.Tail(u));
    if users.None? {
      return Err(MissingCell);
    }
    var tbl := Scan(Text.Tail(dp));
    if tbl.Err? {
      return Err(tbl.error);
    }
    var top := Rank(tbl.value);
    var l2 := Uniq.UniqBy(dp, Uniq.Cell(0));
    return Ok(Report(|u| - 1, |l2| - 1, users.value, tbl.value, top));
  }

  /**
   * The L2 user count is the number of distinct first cells of the
   * datapath user table, less the header's.
   */
  lemma {:induction false} L2Users(dp: Option<seq<Row>>, l3: Option<seq<Row>>)
    requires TopUser(dp, l3).Ok?
    ensures TopUser(dp, l3).value.l2Users == |Uniq.Keys(dp.value, Uniq.Cell(0))| - 1
  {
    Uniq.UniqSize(dp.value, Uniq.Cell(0));
  }

  /** On success, the de-duplicated user table and the pairs the IP map is built from. */
  lemma {:induction false} UsersOk(dp: Option<seq<Row>>, l3: Option<seq<Row>>)
    requires TopUser(dp, l3).Ok?
    ensures Keyed(l3.value)
    ensures var u := Uniq.Uniq(l3.value, Uniq.Cell(0));
      && (forall j :: 0 <= j < |Text.Tail(u)| ==> |Text.Tail(u)[j]| > 9)
      && TopUser(dp, l3).value.users == KeepMax.Assign(UserPairs(Text.Tail(u)))
  {
  }

  /**
   * An IP of the user table maps to the user of its first data row, the
   * one `uniq` keeps.
   */
  lemma {:induction false} UsersFirst(dp: Option<seq<Row>>, l3: Option<seq<Row>>, i: nat)
    requires TopUser(dp, l3).Ok?
    requires 1 <= i < |l3.value| && Uniq.FirstOfKey(l3.value, Uniq.Cell(0), i)
    ensures |l3.value[i]| > 9 && Lookup(TopUser(dp, l3).value.users, l3.value[i][0]) == UserOf(l3.value[i])
  {
    UsersOk(dp, l3);
    FirstLookup(l3.value, i);
  }

  /** The first data row of an IP is the one `uniq` keeps, so the map holds its user. */
  lemma {:induction false} FirstLookup(rows: seq<Row>, i: nat)
    requires 1 <= i < |rows| && Uniq.FirstOfKey(rows, Uniq.Cell(0), i)
    requires forall j :: 0 <= j < |Text.Tail(Uniq.Uniq(rows, Uniq.Cell(0)))| ==> |Text.Tail(Uniq.Uniq(rows, Uniq.Cell(0)))[j]| > 9
    ensures |rows[i]| > 9 && Lookup(KeepMax.Assign(UserPairs(Text.Tail(Uniq.Uniq(rows, Uniq.Cell(0))))), rows[i][0]) == UserOf(rows[i])
  {
    var key := Uniq.Cell(0);
    var u := Uniq.Uniq(rows, key);
    var idx := Uniq.UniqPositions(rows, key);
    Uniq.UniqDistinct(rows, key);
    assert Uniq.FirstOfKey(rows, key, 0);
    var h :| 0 <= h < |idx| && idx[h] == 0;
    var k :| 0 <= k < |idx| && idx[k] == i;
    assert h < k;
    assert u[k] == rows[i];
    DistinctLookup(u, k);
  }

  /** In a table whose rows have distinct first cells, each data row's IP maps to that row's user. */
  lemma {:induction false} DistinctLookup(u: seq<Row>, k: nat)
    requires 1 <= k < |u|
    requires forall a, b :: 0 <= a < b < |u| ==> Uniq.Cell(0)(u[a]) != Uniq.Cell(0)(u[b])
    requires forall j :: 0 <= j < |Text.Tail(u)| ==> |Text.Tail(u)[j]| > 9
    ensures |u[k]| > 9 && Lookup(KeepMax.Assign(UserPairs(Text.Tail(u))), u[k][0]) == UserOf(u[k])
  {
    var ps := UserPairs(Text.Tail(u));
    assert Text.Tail(u)[k - 1] == u[k];
    assert ps[k - 1].0 == u[k][0];
    KeepMax.AssignLast(ps, u[k][0]);
    forall j | k - 1 < j < |ps|
      ensures ps[j].0 != u[k][0]
    {
      assert Text.Tail(u)[j] == u[j + 1];
      assert Uniq.Cell(0)(u[k]) != Uniq.Cell(0)(u[j + 1]);
    }
  }

  /** An IP of no data row of the user table maps to empty name, AP and SSID. */
  lemma {:induction false} UsersAbsent(dp: Option<seq<Row>>, l3: Option<seq<Row>>, ip: string)
    requires TopUser(dp, l3).Ok?
    requires forall j :: 1 <= j < |l3.value| ==> l3.value[j][0] != ip
    ensures Lookup(TopUser(dp, l3).value.users, ip) == User("", "", "")
  {
    UsersOk(dp, l3);
    var rows := l3.value;
    var key := Uniq.Cell(0);
    var u := Uniq.Uniq(rows, key);
    var ps := UserPairs(Text.Tail(u));
    KeepMax.AssignLast(ps, ip);
    if rows != [] {
      var idx := Uniq.UniqPositions(rows, key);
      Uniq.UniqHead(rows, key);
      forall j | 0 <= j < |ps|
        ensures ps[j].0 != ip
      {
        assert idx[0] < idx[j + 1];
      }
    }
  }

  /**
   * On success every datapath row after the header is read without
   * error, de-duplicated or not, and `tbl` holds one talker per kept row,
   * in table order: rows at increasing positions `idx` that are all the
   * kept rows.
   */
  lemma {:induction false} TalkersMeaning(dp: Option<seq<Row>>, l3: Option<seq<Row>>) returns (idx: seq<nat>)
    requires TopUser(dp, l3).Ok?
    ensures var rows := Text.Tail(dp.value); var tbl := TopUser(dp, l3).value.talkers;
      && (forall i :: 0 <= i < |rows| ==> ReadRow(rows[i]).Ok?)
      && |idx| == |tbl|
      && (forall a, b :: 0 <= a < b < |idx| ==> idx[a] < idx[b])
      && (forall j :: 0 <= j < |idx| ==> idx[j] < |rows| && ReadRow(rows[idx[j]]) == Ok(Some(tbl[j])))
      && (forall i :: 0 <= i < |rows| && ReadRow(rows[i]).value.Some? ==> i in idx)
  {
    var rows := Text.Tail(dp.value);
    var rs := RowResults(rows);
    Results.GatherFirst(rs);
    idx := Sessions.SomesPositions(Results.Gather(rs).value);
  }

  /**
   * The listing is the talkers sorted by session count, largest first,
   * ties in table order, cut at 200: as many rows as there are talkers up
   * to 200, each a talker, and no talker left out has more sessions than
   * any listed.
   */
  lemma {:induction false} TopMeaning(tbl: seq<Talker>)
    ensures |Top(tbl)| == (if |tbl| <= TopCount then |tbl| else TopCount)
    ensures StableSort.SortedDesc(Top(tbl), SessionKey)
    ensures multiset(Top(tbl)) <= multiset(tbl)
    ensures forall t :: t in multiset(tbl) - multiset(Top(tbl)) ==> forall j :: 0 <= j < |Top(tbl)| ==> t.sessions <= Top(tbl)[j].sessions
    ensures forall k :: StableSort.WithKey(Top(tbl), SessionKey, k) <= StableSort.WithKey(tbl, SessionKey, k)
  {
    var sorted := StableSort.SortDesc(tbl, SessionKey);
    StableSort.SortDescProps(tbl, SessionKey);
    var n := if |sorted| <= TopCount then |sorted| else TopCount;
    assert Top(tbl) == sorted[..n];
    assert |sorted| == |tbl| by {
      assert |multiset(sorted)| == |multiset(tbl)|;
    }
    TopOfSorted(sorted, tbl, n);
  }

  /** The first `n` of a stable sort of `tbl`, by what the sort promises. */
  lemma {:induction false} TopOfSorted(sorted: seq<Talker>, tbl: seq<Talker>, n: nat)
    requires n <= |sorted| && StableSort.SortedDesc(sorted, SessionKey) && multiset(sorted) == multiset(tbl)
    requires forall k :: StableSort.WithKey(sorted, SessionKey, k) == StableSort.WithKey(tbl, SessionKey, k)
    ensures |sorted[..n]| == n && StableSort.SortedDesc(sorted[..n], SessionKey)
    ensures multiset(sorted[..n]) <= multiset(tbl)
    ensures forall t :: t in multiset(tbl) - multiset(sorted[..n]) ==> forall j :: 0 <= j < n ==> t.sessions <= sorted[..n][j].sessions
    ensures forall k :: StableSort.WithKey(sorted[..n], SessionKey, k) <= StableSort.WithKey(tbl, SessionKey, k)
  {
    TopLeftOut(sorted, n);
    TopStable(sorted, tbl, n);
  }

  /** A prefix of a stable sort keeps, per key, a prefix of the input's elements of that key. */
  lemma {:induction false} TopStable(sorted: seq<Talker>, tbl: seq<Talker>, n: nat)
    requires n <= |sorted|
    requires forall k :: StableSort.WithKey(sorted, SessionKey, k) == StableSort.WithKey(tbl, SessionKey, k)
    ensures forall k :: StableSort.WithKey(sorted[..n], SessionKey, k) <= StableSort.WithKey(tbl, SessionKey, k)
  {
    forall k
      ensures StableSort.WithKey(sorted[..n], SessionKey, k) <= StableSort.WithKey(tbl, SessionKey, k)
    {
      WithKeyPrefix(sorted, n, k);
    }
  }

  /** What a sorted sequence leaves out past its first `n` elements sorts no higher than any of them. */
  lemma {:induction false} TopLeftOut(sorted: seq<Talker>, n: nat)
    requires n <= |sorted| && StableSort.SortedDesc(sorted, SessionKey)
    ensures multiset(sorted[..n]) <= multiset(sorted)
    ensures forall t :: t in multiset(sorted) - multiset(sorted[..n]) ==> forall j :: 0 <= j < n ==> t.sessions <= sorted[j].sessions
  {
    var top := sorted[..n];
    var rest := sorted[n..];
    assert sorted == top + rest;
    assert multiset(sorted) == multiset(top) + multiset(rest);
    forall t | t in multiset(sorted) - multiset(top)
      ensures forall j :: 0 <= j < n ==> t.sessions <= sorted[j].sessions
    {
      assert t in multiset(rest);
      var m :| 0 <= m < |rest| && rest[m] == t;
      assert sorted[n + m] == t;
    }
  }

  /** The elements of one key in a prefix are a prefix of those in the whole. */
  lemma {:induction false} WithKeyPrefix(s: seq<Talker>, n: nat, k: int)
    requires n <= |s|
    ensures StableSort.WithKey(s[..n], SessionKey, k) <= StableSort.WithKey(s, SessionKey, k)
    decreases |s|
  {
    if n < |s| {
      var pre := s[..|s| - 1];
      WithKeyPrefix(pre, n, k);
      assert pre[..n] == s[..n];
    } else {
      assert s[..n] == s;
    }
  }
}
