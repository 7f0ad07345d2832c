/**
 * What esx-apname.py's maps and renaming mean, stated over the whole input
 * rather than loop step by loop step.
 */
module EsxApnameFacts {
  import opened Wrappers
  import Text
  import opened EsxApname

  // ---- bss_to_apn ----

  /** Two rows of the bss tables give `b` to different AP names. */
  predicate Conflict(ps: seq<(string, string)>, b: string)
  {
    exists i, j :: 0 <= i < j < |ps| && ps[i].1 == b && ps[j].1 == b && ps[i].0 != ps[j].0
  }

  /** A BSSID is in the map exactly when some row names it. */
  lemma {:induction false} BssKeys(ps: seq<(string, string)>)
    ensures forall b :: b in BssMap(ps) <==> exists i :: 0 <= i < |ps| && ps[i].1 == b
    decreases |ps|
  {
    if ps != [] {
      var pre := ps[..|ps| - 1];
      BssKeys(pre);
      forall b | b in BssMap(ps)
        ensures exists i :: 0 <= i < |ps| && ps[i].1 == b
      {
        if b != ps[|ps| - 1].1 {
          assert b in BssMap(pre);
          var i :| 0 <= i < |pre| && pre[i].1 == b;
          assert ps[i] == pre[i];
        }
      }
      forall b, i | 0 <= i < |ps| && ps[i].1 == b
        ensures b in BssMap(ps)
      {
        if i < |pre| {
          assert pre[i] == ps[i];
        }
      }
    }
  }

  /**
   * When no AP is itself called "DUP": the map says "DUP" for a BSSID
   * exactly when two rows give it different names, and otherwise every row
   * with that BSSID carries the name the map holds.
   */
  lemma {:induction false} BssValue(ps: seq<(string, string)>, b: string)
    requires forall i :: 0 <= i < |ps| ==> ps[i].0 != Dup
    requires b in BssMap(ps)
    ensures BssMap(ps)[b] == Dup <==> Conflict(ps, b)
    ensures BssMap(ps)[b] != Dup ==> forall i :: 0 <= i < |ps| && ps[i].1 == b ==> ps[i].0 == BssMap(ps)[b]
    decreases |ps|
  {
    var n := |ps| - 1;
    var pre := ps[..n];
    assert forall i :: 0 <= i < n ==> pre[i] == ps[i];
    if ps[n].1 != b {
      BssValue(pre, b);
      OtherRowConflict(ps, b);
    } else if b !in BssMap(pre) {
      BssKeys(pre);
      assert forall i :: 0 <= i < n ==> ps[i].1 != b;
    } else {
      BssValue(pre, b);
      BssKeys(pre);
      SameRow(ps, b, BssMap(pre)[b]);
    }
  }

  /** A last row for another BSSID changes nothing about `b`'s conflicts. */
  lemma {:induction false} OtherRowConflict(ps: seq<(string, string)>, b: string)
    requires ps != [] && ps[|ps| - 1].1 != b
    ensures Conflict(ps, b) <==> Conflict(ps[..|ps| - 1], b)
  {
    var pre := ps[..|ps| - 1];
    if Conflict(ps, b) {
      var i, j :| 0 <= i < j < |ps| && ps[i].1 == b && ps[j].1 == b && ps[i].0 != ps[j].0;
      assert pre[i] == ps[i] && pre[j] == ps[j];
    }
    if Conflict(pre, b) {
      var i, j :| 0 <= i < j < |pre| && pre[i].1 == b && pre[j].1 == b && pre[i].0 != pre[j].0;
      assert ps[i] == pre[i] && ps[j] == pre[j];
    }
  }

  /** A last row for `b`, which the earlier rows already map to `y`. */
  lemma {:induction false} SameRow(ps: seq<(string, string)>, b: string, y: string)
    requires ps != [] && ps[|ps| - 1].1 == b && ps[|ps| - 1].0 != Dup
    requires var pre := ps[..|ps| - 1];
      && (exists i :: 0 <= i < |pre| && pre[i].1 == b)
      && (y == Dup <==> Conflict(pre, b))
      && (y != Dup ==> forall i :: 0 <= i < |pre| && pre[i].1 == b ==> pre[i].0 == y)
    ensures var z := if y == Dup || y == ps[|ps| - 1].0 then y else Dup;
      && (z == Dup <==> Conflict(ps, b))
      && (z != Dup ==> forall i :: 0 <= i < |ps| && ps[i].1 == b ==> ps[i].0 == z)
  {
    var n := |ps| - 1;
    var pre := ps[..n];
    assert forall i :: 0 <= i < n ==> pre[i] == ps[i];
    if y == Dup {
      var i, j :| 0 <= i < j < |pre| && pre[i].1 == b && pre[j].1 == b && pre[i].0 != pre[j].0;
      assert ps[i] == pre[i] && ps[j] == pre[j];
    } else if y == ps[n].0 {
      assert forall i :: 0 <= i < |ps| && ps[i].1 == b ==> ps[i].0 == y;
    } else {
      var i :| 0 <= i < |pre| && pre[i].1 == b;
      assert ps[i].0 == y;
    }
  }

  /** A BSSID once marked "DUP" stays so whatever rows follow. */
  lemma {:induction false} DupSticky(ps: seq<(string, string)>, n: nat, b: string)
    requires n <= |ps| && b in BssMap(ps[..n]) && BssMap(ps[..n])[b] == Dup
    ensures b in BssMap(ps) && BssMap(ps)[b] == Dup
    decreases |ps|
  {
    if n < |ps| {
      var pre := ps[..|ps| - 1];
      assert pre[..n] == ps[..n];
      DupSticky(pre, n, b);
    } else {
      assert ps[..n] == ps;
    }
  }

  // ---- apid_to_mids and mid_to_bss ----

  /** Some AP of the file has id `id`. */
  predicate Known(aps: seq<Ap>, id: string)
  {
    exists k :: 0 <= k < |aps| && aps[k].id == id
  }

  /** The measurement ids of all radios of AP `id`, in file order. */
  function RadioMids(radios: seq<Radio>, id: string): seq<string>
  {
    if radios == [] then []
    else RadioMids(radios[..|radios| - 1], id) + (if radios[|radios| - 1].apId == id then radios[|radios| - 1].mids else [])
  }

  lemma {:induction false} NoMidsMeaning(aps: seq<Ap>)
    ensures forall id :: id in NoMids(aps) <==> Known(aps, id)
    ensures forall id :: id in NoMids(aps) ==> NoMids(aps)[id] == []
    decreases |aps|
  {
    if aps != [] {
      var pre := aps[..|aps| - 1];
      NoMidsMeaning(pre);
      forall id | Known(aps, id)
        ensures id in NoMids(aps)
      {
        var k :| 0 <= k < |aps| && aps[k].id == id;
        if k < |pre| {
          assert pre[k] == aps[k];
        }
      }
      forall id | Known(pre, id)
        ensures Known(aps, id)
      {
        var k :| 0 <= k < |pre| && pre[k].id == id;
        assert aps[k] == pre[k];
      }
    }
  }

  /**
   * Filling `apid_to_mids` succeeds exactly when every radio belongs to a
   * known AP; then every AP, and only those, maps to the measurements of
   * all its radios in order.
   */
  lemma {:induction false} MidsMeaning(aps: seq<Ap>, radios: seq<Radio>)
    ensures Mids(aps, radios).Ok? <==> forall j :: 0 <= j < |radios| ==> Known(aps, radios[j].apId)
    ensures Mids(aps, radios).Ok? ==>
      (forall id :: id in Mids(aps, radios).value <==> Known(aps, id)) &&
      forall id :: id in Mids(aps, radios).value ==> Mids(aps, radios).value[id] == RadioMids(radios, id)
  {
    MidsDefined(aps, radios);
    if Mids(aps, radios).Ok? {
      MidsKnownKeys(aps, radios);
      MidsValues(aps, radios);
    }
  }

  /** The keys of `apid_to_mids` are the known AP ids, whatever radios were added. */
  lemma {:induction false} MidsKnownKeys(aps: seq<Ap>, radios: seq<Radio>)
    requires Mids(aps, radios).Ok?
    ensures forall id :: id in Mids(aps, radios).value <==> Known(aps, id)
    decreases |radios|
  {
    if radios == [] {
      NoMidsMeaning(aps);
    } else {
      MidsKnownKeys(aps, radios[..|radios| - 1]);
    }
  }

  lemma {:induction false} MidsDefined(aps: seq<Ap>, radios: seq<Radio>)
    ensures Mids(aps, radios).Ok? <==> forall j :: 0 <= j < |radios| ==> Known(aps, radios[j].apId)
    decreases |radios|
  {
    if radios != [] {
      var n := |radios| - 1;
      var pre := radios[..n];
      MidsDefined(aps, pre);
      assert forall j :: 0 <= j < n ==> pre[j] == radios[j];
      if Mids(aps, pre).Ok? {
        MidsKnownKeys(aps, pre);
      } else {
        var j :| 0 <= j < n && !Known(aps, pre[j].apId);
        assert !Known(aps, radios[j].apId);
      }
    }
  }

  lemma {:induction false} MidsValues(aps: seq<Ap>, radios: seq<Radio>)
    requires Mids(aps, radios).Ok?
    ensures forall id :: id in Mids(aps, radios).value ==> Mids(aps, radios).value[id] == RadioMids(radios, id)
    decreases |radios|
  {
    if radios == [] {
      NoMidsMeaning(aps);
    } else {
      var n := |radios| - 1;
      var pre := radios[..n];
      MidsValues(aps, pre);
      forall id | id in Mids(aps, radios).value
        ensures Mids(aps, radios).value[id] == RadioMids(radios, id)
      {
        assert RadioMids(radios, id) == RadioMids(pre, id) + (if radios[n].apId == id then radios[n].mids else []);
      }
    }
  }

  /** `mid_to_bss` holds every measurement id, with the mac of its last entry. */
  lemma {:induction false} MacOfMeaning(ms: seq<Measurement>)
    ensures forall id :: id in MacOf(ms) <==> exists k :: 0 <= k < |ms| && ms[k].id == id
    ensures forall k :: 0 <= k < |ms| && (forall j :: k < j < |ms| ==> ms[j].id != ms[k].id) ==> MacOf(ms)[ms[k].id] == ms[k].mac
    decreases |ms|
  {
    if ms != [] {
      var n := |ms| - 1;
      var pre := ms[..n];
      MacOfMeaning(pre);
      assert forall k :: 0 <= k < n ==> pre[k] == ms[k];
      forall id | id in MacOf(ms)
        ensures exists k :: 0 <= k < |ms| && ms[k].id == id
      {
        if id != ms[n].id {
          var k :| 0 <= k < n && pre[k].id == id;
          assert ms[k].id == id;
        }
      }
    }
  }

  // ---- the placeholder names ----

  /** A '実際 AP-xx:xx' name gives back its 'xx:xx'. */
  lemma {:induction false} Last2Actual(x: string, rest: string)
    requires HexPair(x)
    ensures Last2(Actual + x + rest) == Some(x)
  {
    var apn := Actual + x + rest;
    assert apn[..|Actual|] == Actual;
    assert apn[|Actual|..|Actual| + 5] == x;
  }

  /** A 'Measured AP-xx:xx' name gives back its 'xx:xx'. */
  lemma {:induction false} Last2Measured(x: string, rest: string)
    requires HexPair(x)
    ensures Last2(Measured + x + rest) == Some(x)
  {
    var apn := Measured + x + rest;
    Text.NotStartsWith(apn, Actual, 0);
    assert apn[..|Measured|] == Measured;
    assert apn[|Measured|..|Measured| + 5] == x;
  }

  // ---- choosing the BSSID ----

  /** With every id measured, the loop stops at the first BSSID ending in 'xx:xx'. */
  lemma {:induction false} ChooseFirst(mids: seq<string>, macs: map<string, string>, l2: string, last: Option<string>, i: nat)
    requires i < |mids| && forall k :: 0 <= k <= i ==> mids[k] in macs
    requires Matches(macs[mids[i]], l2) && forall k :: 0 <= k < i ==> !Matches(macs[mids[k]], l2)
    ensures Choose(mids, macs, l2, last) == Ok(Some(macs[mids[i]]))
    decreases i
  {
    if i > 0 {
      var tail := mids[1..];
      assert forall k :: 0 <= k < i ==> tail[k] == mids[k + 1];
      ChooseFirst(tail, macs, l2, Some(macs[mids[0]]), i - 1);
    }
  }

  /** With every id measured and none matching, `bss` is the last BSSID, or what it was before. */
  lemma {:induction false} ChooseNoMatch(mids: seq<string>, macs: map<string, string>, l2: string, last: Option<string>)
    requires forall k :: 0 <= k < |mids| ==> mids[k] in macs && !Matches(macs[mids[k]], l2)
    ensures Choose(mids, macs, l2, last) == Ok(if mids == [] then last else Some(macs[mids[|mids| - 1]]))
    decreases |mids|
  {
    if mids != [] {
      var tail := mids[1..];
      assert forall k :: 0 <= k < |tail| ==> tail[k] == mids[k + 1];
      ChooseNoMatch(tail, macs, l2, Some(macs[mids[0]]));
      if |tail| > 0 {
        assert tail[|tail| - 1] == mids[|mids| - 1];
      }
    }
  }

  /** The loop gets past the first `k` ids: each is measured and none matches. */
  predicate Passed(mids: seq<string>, macs: map<string, string>, l2: string, k: nat)
  {
    k <= |mids| && forall j :: 0 <= j < k ==> mids[j] in macs && !Matches(macs[mids[j]], l2)
  }

  lemma {:induction false} PassedTail(mids: seq<string>, macs: map<string, string>, l2: string, k: nat)
    requires mids != [] && mids[0] in macs && !Matches(macs[mids[0]], l2)
    ensures Passed(mids, macs, l2, k + 1) <==> Passed(mids[1..], macs, l2, k)
  {
    var tail := mids[1..];
    if Passed(tail, macs, l2, k) {
      forall j | 0 <= j < k + 1
        ensures mids[j] in macs && !Matches(macs[mids[j]], l2)
      {
        if j > 0 {
          assert mids[j] == tail[j - 1];
        }
      }
    }
    if Passed(mids, macs, l2, k + 1) {
      forall j | 0 <= j < k
        ensures tail[j] in macs && !Matches(macs[tail[j]], l2)
      {
        assert tail[j] == mids[j + 1];
      }
    }
  }

  /**
   * The loop stops with a KeyError exactly when it reaches a measurement id
   * `mid_to_bss` lacks before any BSSID ending in 'xx:xx'.
   */
  lemma {:induction false} ChooseFails(mids: seq<string>, macs: map<string, string>, l2: string, last: Option<string>)
    ensures Choose(mids, macs, l2, last).Err? <==> exists k :: 0 <= k < |mids| && mids[k] !in macs && Passed(mids, macs, l2, k)
    ensures Choose(mids, macs, l2, last).Err? ==> Choose(mids, macs, l2, last).error == UnknownMeasurement
    decreases |mids|
  {
    if mids == [] {
    } else if mids[0] !in macs {
      assert Passed(mids, macs, l2, 0);
    } else if Matches(macs[mids[0]], l2) {
      assert forall k :: 0 < k <= |mids| ==> !Passed(mids, macs, l2, k);
    } else {
      var tail := mids[1..];
      ChooseFails(tail, macs, l2, Some(macs[mids[0]]));
      if Choose(mids, macs, l2, last).Err? {
        var k :| 0 <= k < |tail| && tail[k] !in macs && Passed(tail, macs, l2, k);
        PassedTail(mids, macs, l2, k);
        assert mids[k + 1] == tail[k];
      }
      if exists k :: 0 <= k < |mids| && mids[k] !in macs && Passed(mids, macs, l2, k) {
        var k :| 0 <= k < |mids| && mids[k] !in macs && Passed(mids, macs, l2, k);
        assert k > 0;
        PassedTail(mids, macs, l2, k - 1);
        assert tail[k - 1] == mids[k];
      }
    }
  }

  // ---- one AP ----

  /** A renamed AP changes only its name, to one it may take; any other AP is left alone. */
  lemma {:induction false} OneApOk(ap: Ap, mids: map<string, seq<string>>, macs: map<string, string>, bssMap: map<string, string>, byVendor: bool, last: Option<string>)
    requires OneAp(ap, mids, macs, bssMap, byVendor, last).Ok?
    ensures var o := OneAp(ap, mids, macs, bssMap, byVendor, last).value;
      ApOk(ap, o.0, o.1, bssMap, byVendor)
  {
    var o := OneAp(ap, mids, macs, bssMap, byVendor, last).value;
    if o.1 {
      var l2 := Last2(ap.name).value;
      var b := Choose(mids[ap.id], macs, l2, last).value.value;
      if VendorOf(ap) == Aruba {
        assert bssMap[b] == o.0.name;
      }
    }
  }

  /** A placeholder Aruba AP is renamed exactly when its BSSID has one name, and takes that name. */
  lemma {:induction false} OneApAruba(ap: Ap, mids: map<string, seq<string>>, macs: map<string, string>, bssMap: map<string, string>, byVendor: bool, last: Option<string>)
    requires VendorOf(ap) == Aruba
    requires OneAp(ap, mids, macs, bssMap, byVendor, last).Ok?
    ensures var o := OneAp(ap, mids, macs, bssMap, byVendor, last).value;
      Last2(ap.name).Some? ==>
        && o.2.Some?
        && (o.1 <==> o.2.value in bssMap && bssMap[o.2.value] != Dup)
        && (o.1 ==> o.0.name == bssMap[o.2.value])
  {
    if Last2(ap.name).Some? {
      var l2 := Last2(ap.name).value;
      var c := Choose(mids[ap.id], macs, l2, last);
      assert c.Ok? && c.value.Some?;
    }
  }

  /** Another vendor's placeholder AP is renamed exactly when --vendor is given. */
  lemma {:induction false} OneApOther(ap: Ap, mids: map<string, seq<string>>, macs: map<string, string>, bssMap: map<string, string>, byVendor: bool, last: Option<string>)
    requires VendorOf(ap) != Aruba
    requires OneAp(ap, mids, macs, bssMap, byVendor, last).Ok?
    ensures Last2(ap.name).Some? ==> (OneAp(ap, mids, macs, bssMap, byVendor, last).value.1 <==> byVendor)
  {
    if Last2(ap.name).Some? {
      var l2 := Last2(ap.name).value;
      var c := Choose(mids[ap.id], macs, l2, last);
      assert c.Ok? && c.value.Some?;
    }
  }

  // ---- one file ----

  /** How many of the flags are set. */
  function CountTrue(bs: seq<bool>): nat
  {
    if bs == [] then 0 else CountTrue(bs[..|bs| - 1]) + (if bs[|bs| - 1] then 1 else 0)
  }

  /** One AP as the loop leaves it: renamed to a name it may take, or untouched. */
  predicate ApOk(ap: Ap, now: Ap, renamed: bool, bssMap: map<string, string>, byVendor: bool)
  {
    if renamed then now == ap.(name := now.name) && RenameOk(ap, now.name, bssMap, byVendor)
    else now == ap
  }

  /** The conversion of one file, seen AP by AP. */
  predicate ConvOk(aps: seq<Ap>, c: Conv, bssMap: map<string, string>, byVendor: bool)
  {
    && |c.aps| == |aps| && |c.renamed| == |aps|
    && c.num == CountTrue(c.renamed)
    && forall i :: 0 <= i < |aps| ==> ApOk(aps[i], c.aps[i], c.renamed[i], bssMap, byVendor)
  }

  /** One more AP, converted as OneAp says, keeps the conversion AP by AP. */
  lemma {:induction false} ConvOkSnoc(aps: seq<Ap>, c0: Conv, o: (Ap, bool, Option<string>), bssMap: map<string, string>, byVendor: bool)
    requires aps != [] && ConvOk(aps[..|aps| - 1], c0, bssMap, byVendor)
    requires ApOk(aps[|aps| - 1], o.0, o.1, bssMap, byVendor)
    ensures ConvOk(aps, Conv(c0.aps + [o.0], c0.renamed + [o.1], if o.1 then c0.num + 1 else c0.num, o.2), bssMap, byVendor)
  {
    var n := |aps| - 1;
    var c := Conv(c0.aps + [o.0], c0.renamed + [o.1], if o.1 then c0.num + 1 else c0.num, o.2);
    assert c.renamed[..n] == c0.renamed;
    forall i | 0 <= i < |aps|
      ensures ApOk(aps[i], c.aps[i], c.renamed[i], bssMap, byVendor)
    {
      if i < n {
        assert aps[..n][i] == aps[i];
        assert c.aps[i] == c0.aps[i] && c.renamed[i] == c0.renamed[i];
      }
    }
  }

  /**
   * `num_processed` counts the renamed APs; a renamed AP changes only its
   * name, to one it may take; every other AP is left as it was.
   */
  lemma {:induction false} ConvertMeaning(aps: seq<Ap>, mids: map<string, seq<string>>, macs: map<string, string>, bssMap: map<string, string>, byVendor: bool, last: Option<string>, c: Conv)
    requires Convert(aps, mids, macs, bssMap, byVendor, last) == Ok(c)
    ensures ConvOk(aps, c, bssMap, byVendor)
    decreases |aps|
  {
    if aps != [] {
      var n := |aps| - 1;
      var c0, o := ConvertStep(aps, mids, macs, bssMap, byVendor, last, c);
      OneApOk(aps[n], mids, macs, bssMap, byVendor, c0.last);
      ConvertMeaning(aps[..n], mids, macs, bssMap, byVendor, last, c0);
      ConvOkSnoc(aps, c0, o, bssMap, byVendor);
    }
  }

  /** The last AP of a converted file, and the conversion before it. */
  lemma {:induction false} ConvertStep(aps: seq<Ap>, mids: map<string, seq<string>>, macs: map<string, string>, bssMap: map<string, string>, byVendor: bool, last: Option<string>, c: Conv)
    returns (c0: Conv, o: (Ap, bool, Option<string>))
    requires aps != [] && Convert(aps, mids, macs, bssMap, byVendor, last) == Ok(c)
    ensures Convert(aps[..|aps| - 1], mids, macs, bssMap, byVendor, last) == Ok(c0)
    ensures OneAp(aps[|aps| - 1], mids, macs, bssMap, byVendor, c0.last) == Ok(o)
    ensures c == Conv(c0.aps + [o.0], c0.renamed + [o.1], if o.1 then c0.num + 1 else c0.num, o.2)
  {
    c0 := Convert(aps[..|aps| - 1], mids, macs, bssMap, byVendor, last).value;
    o := OneAp(aps[|aps| - 1], mids, macs, bssMap, byVendor, c0.last).value;
  }
}
