/**
 * The 5 GHz channel tables of the monitor and ARM scripts and their
 * interference test: a channel label (a primary channel, optionally with a
 * bonding suffix '+', '-', 'E' or 'S') maps to the set of 20 MHz channels it
 * occupies, and two labels interfere when those sets meet.
 */
module Channels {
  import opened Wrappers
  import opened Text

  /** A channel table: label to the 20 MHz channels (as text) it covers. */
  type Table = map<string, set<string>>

  const Ch20: seq<nat> := [36, 40, 44, 48, 52, 56, 60, 64, 100, 104, 108, 112, 116, 120, 124, 128, 132, 136, 140, 144,
                           149, 153, 157, 161, 165]
  const Ch40: seq<nat> := [36, 44, 52, 60, 100, 108, 116, 124, 132, 140, 149, 157]
  const Ch80: seq<nat> := [36, 52, 100, 116, 149]
  const Ch160: seq<nat> := [36, 100]

  /** A label: the channel number in decimal followed by the suffix. */
  function Key(c: nat, suffix: string): string { NatToStr(c) + suffix }

  /** `n` channels 4 apart from `c`, as text. */
  function Block(c: nat, n: nat): set<string>
  {
    set j | 0 <= j < n :: Chan(c, j)
  }

  /** Channel `c + 4j` as text. */
  function Chan(c: nat, j: nat): string { NatToStr(c + 4 * j) }

  /** A suffix: empty or one character that is not a digit. */
  predicate Suffix(s: string) { |s| == 0 || (|s| == 1 && !IsDigit(s[0])) }

  /** A label ends in a digit exactly when it has no suffix. */
  lemma {:induction false} KeyLast(a: nat, s: string)
    ensures |s| == 0 ==> IsDigit(Key(a, s)[|Key(a, s)| - 1])
    ensures |s| == 1 ==> Key(a, s)[|Key(a, s)| - 1] == s[0]
  {
  }

  /** Labels with the same number and suffix only are equal. */
  lemma {:induction false} KeyInjective(a: nat, b: nat, s: string, t: string)
    requires Suffix(s) && Suffix(t) && Key(a, s) == Key(b, t)
    ensures a == b && s == t
  {
    var x, y := Key(a, s), Key(b, t);
    KeyLast(a, s);
    KeyLast(b, t);
    if |s| == 1 && |t| == 1 {
      assert x[..|x| - 1] == NatToStr(a) && y[..|y| - 1] == NatToStr(b);
      NatToStrInjective(a, b);
    } else if |s| == 0 && |t| == 0 {
      assert x == NatToStr(a) && y == NatToStr(b);
      NatToStrInjective(a, b);
    } else {
      assert false;
    }
  }

  /** isIntf / isintf: None for the KeyError of a label the table lacks. */
  function IsIntf(t: Table, a: string, b: string): (r: Option<bool>)
    ensures r.Some? <==> a in t && b in t
  {
    if a in t && b in t then Some(t[a] * t[b] != {}) else None
  }

  /** Interference does not depend on the order of the two labels. */
  lemma {:induction false} IntfSymmetric(t: Table, a: string, b: string)
    ensures IsIntf(t, a, b) == IsIntf(t, b, a)
  {
    if a in t && b in t {
      assert t[a] * t[b] == t[b] * t[a];
    }
  }

  /** No label covers no channel. */
  predicate NonEmpty(m: Table)
  {
    forall k :: k in m ==> m[k] != {}
  }

  /** Each channel of `l20` (its first `n`) maps to itself. */
  ghost predicate Has20(m: Table, l20: seq<nat>, n: nat)
    requires n <= |l20|
  {
    forall i :: 0 <= i < n ==> Key(l20[i], "") in m && m[Key(l20[i], "")] == {NatToStr(l20[i])}
  }

  /** Each 40 MHz pair of `l40` is stored under both labels. */
  ghost predicate Has40(m: Table, l40: seq<nat>, n: nat)
    requires n <= |l40|
  {
    forall i :: 0 <= i < n ==>
      Key(l40[i], "+") in m && m[Key(l40[i], "+")] == Block(l40[i], 2)
      && Key(l40[i] + 4, "-") in m && m[Key(l40[i] + 4, "-")] == Block(l40[i], 2)
  }

  /** The label with suffix `s` of channel `l[i] + 4j` of a block. */
  function BlockKey(l: seq<nat>, i: nat, j: nat, s: string): string
    requires i < |l|
  {
    Key(l[i] + 4 * j, s)
  }

  /** Each block of `w` channels from `l` is stored under the label of each of its channels. */
  ghost predicate HasWide(m: Table, l: seq<nat>, n: nat, w: nat, s: string)
    requires n <= |l|
  {
    forall i, j :: 0 <= i < n && 0 <= j < w ==> BlockKey(l, i, j, s) in m && m[BlockKey(l, i, j, s)] == Block(l[i], w)
  }

  /** The blocks of `l`, `w` channels wide, do not overlap. */
  predicate Spread(l: seq<nat>, w: nat)
  {
    forall i, i' :: 0 <= i < i' < |l| ==> l[i] + 4 * w <= l[i']
  }

  /** Writing a label with another suffix leaves the entries of suffix `s` alone. */
  lemma {:induction false} OtherSuffix(a: nat, b: nat, s: string, t: string)
    requires Suffix(s) && Suffix(t) && s != t
    ensures Key(a, s) != Key(b, t)
  {
    if Key(a, s) == Key(b, t) {
      KeyInjective(a, b, s, t);
    }
  }

  lemma {:induction false} BlockNonEmpty(c: nat, n: nat)
    requires n > 0
    ensures NatToStr(c) in Block(c, n)
  {
    assert Chan(c, 0) in Block(c, n);
  }

  /** The labels the 20 MHz loop writes for the first `n` channels of `l`. */
  ghost function Labels20(l: seq<nat>, n: nat): set<string>
    requires n <= |l|
  {
    if n == 0 then {} else Labels20(l, n - 1) + {Key(l[n - 1], "")}
  }

  /** The labels the 40 MHz loop writes for the first `n` pairs of `l`. */
  ghost function Labels40(l: seq<nat>, n: nat): set<string>
    requires n <= |l|
  {
    if n == 0 then {} else Labels40(l, n - 1) + {Key(l[n - 1], "+"), Key(l[n - 1] + 4, "-")}
  }

  /** The labels the first `j` assignments for block i of a wide loop write. */
  ghost function BlockLabels(l: seq<nat>, i: nat, j: nat, s: string): set<string>
    requires i < |l|
  {
    if j == 0 then {} else BlockLabels(l, i, j - 1, s) + {BlockKey(l, i, j - 1, s)}
  }

  /** The labels a wide loop writes for the first `n` blocks of `l`, `w` channels each. */
  ghost function LabelsWide(l: seq<nat>, n: nat, w: nat, s: string): set<string>
    requires n <= |l|
  {
    if n == 0 then {} else LabelsWide(l, n - 1, w, s) + BlockLabels(l, n - 1, w, s)
  }

  /** Every label the `chsets` loops write over the given channel lists. */
  ghost function Labels(l20: seq<nat>, l40: seq<nat>, l80: seq<nat>, l160: seq<nat>, with160: bool): set<string>
  {
    Labels20(l20, |l20|) + Labels40(l40, |l40|) + LabelsWide(l80, |l80|, 4, "E")
    + (if with160 then LabelsWide(l160, |l160|, 8, "S") else {})
  }

  /** The tables the loops of ap-monitor-list.py and (without 160 MHz) arm-state.py build. */
  ghost predicate Built(m: Table, with160: bool)
  {
    Has20(m, Ch20, |Ch20|) && Has40(m, Ch40, |Ch40|) && HasWide(m, Ch80, |Ch80|, 4, "E")
    && (with160 ==> HasWide(m, Ch160, |Ch160|, 8, "S"))
    && NonEmpty(m)
    && m.Keys == Labels(Ch20, Ch40, Ch80, Ch160, with160)
  }

  /** Every label written is a channel number followed by its suffix, so never ''. */
  lemma {:induction false} LabelsNonEmpty(l20: seq<nat>, l40: seq<nat>, l80: seq<nat>, l160: seq<nat>, with160: bool)
    ensures "" !in Labels(l20, l40, l80, l160, with160)
  {
    NoEmpty20(l20, |l20|);
    NoEmpty40(l40, |l40|);
    NoEmptyWide(l80, |l80|, 4, "E");
    NoEmptyWide(l160, |l160|, 8, "S");
  }

  lemma {:induction false} NoEmpty20(l: seq<nat>, n: nat)
    requires n <= |l|
    ensures "" !in Labels20(l, n)
  {
    if n > 0 {
      NoEmpty20(l, n - 1);
      assert |NatToStr(l[n - 1])| >= 1;
    }
  }

  lemma {:induction false} NoEmpty40(l: seq<nat>, n: nat)
    requires n <= |l|
    ensures "" !in Labels40(l, n)
  {
    if n > 0 {
      NoEmpty40(l, n - 1);
      assert |NatToStr(l[n - 1])| >= 1 && |NatToStr(l[n - 1] + 4)| >= 1;
    }
  }

  lemma {:induction false} NoEmptyBlock(l: seq<nat>, i: nat, j: nat, s: string)
    requires i < |l|
    ensures "" !in BlockLabels(l, i, j, s)
  {
    if j > 0 {
      NoEmptyBlock(l, i, j - 1, s);
      assert |NatToStr(l[i] + 4 * (j - 1))| >= 1;
    }
  }

  lemma {:induction false} NoEmptyWide(l: seq<nat>, n: nat, w: nat, s: string)
    requires n <= |l|
    ensures "" !in LabelsWide(l, n, w, s)
  {
    if n > 0 {
      NoEmptyWide(l, n - 1, w, s);
      NoEmptyBlock(l, n - 1, w, s);
    }
  }

  /**
   * In the built table `isIntf` raises KeyError exactly when a label is not
   * one the loops write; in particular '' (an unset `mych`) always raises.
   */
  lemma {:induction false} BuiltLookups(m: Table, with160: bool, a: string, b: string)
    requires Built(m, with160)
    ensures "" !in m
    ensures IsIntf(m, a, b).None? <==> a !in Labels(Ch20, Ch40, Ch80, Ch160, with160) || b !in Labels(Ch20, Ch40, Ch80, Ch160, with160)
  {
    LabelsNonEmpty(Ch20, Ch40, Ch80, Ch160, with160);
  }

  /**
   * The `chsets` loops: every 20 MHz channel to itself, each 40 MHz pair
   * under both of its labels, each 80 MHz (and, when `with160`, 160 MHz)
   * block under the label of each of its channels; no label covers nothing,
   * and no other label exists.
   */
  method BuildChsets(with160: bool) returns (m: Table)
    ensures Built(m, with160)
  {
    assert Spread(Ch80, 4) && Spread(Ch160, 8);
    m := BuildFrom(Ch20, Ch40, Ch80, Ch160, with160);
  }

  /** The loops of BuildChsets over the given channel lists. */
  method BuildFrom(l20: seq<nat>, l40: seq<nat>, l80: seq<nat>, l160: seq<nat>, with160: bool) returns (m: Table)
    requires Spread(l80, 4) && Spread(l160, 8)
    ensures Has20(m, l20, |l20|) && Has40(m, l40, |l40|) && HasWide(m, l80, |l80|, 4, "E")
    ensures with160 ==> HasWide(m, l160, |l160|, 8, "S")
    ensures NonEmpty(m)
    ensures m.Keys == Labels(l20, l40, l80, l160, with160)
  {
    m := Add20(map[], l20);
    m := Add40(m, l20, l40);
    m := AddWide(m, l20, l40, [], l80, 4, "E");
    if with160 {
      m := AddWide(m, l20, l40, l80, l160, 8, "S");
    }
  }

  /** `for i in l20: chset[str(i)] = {str(i)}` over whatever the table already holds. */
  method Add20(m0: Table, l20: seq<nat>) returns (m: Table)
    ensures Has20(m, l20, |l20|)
    ensures NonEmpty(m0) ==> NonEmpty(m)
    ensures forall k :: k in m0 && |k| > 0 && !IsDigit(k[|k| - 1]) ==> k in m && m[k] == m0[k]
    ensures forall k :: k in m ==> k in m0 || (|k| > 0 && IsDigit(k[|k| - 1]))
    ensures m.Keys == m0.Keys + Labels20(l20, |l20|)
  {
    m := m0;
    for i := 0 to |l20|
      invariant Has20(m, l20, i)
      invariant NonEmpty(m0) ==> NonEmpty(m)
      invariant forall k :: k in m0 && |k| > 0 && !IsDigit(k[|k| - 1]) ==> k in m && m[k] == m0[k]
      invariant forall k :: k in m <==> k in m0 || k in Labels20(l20, i)
    {
      m := Put20(m0, m, l20, i);
    }
    Labels20Digits(l20, |l20|);
  }

  /** `chset[str(ch)] = {str(ch)}` for ch = l20[i]. */
  method Put20(m0: Table, m1: Table, l20: seq<nat>, i: nat) returns (m: Table)
    requires i < |l20| && Has20(m1, l20, i)
    requires forall k :: k in m0 && |k| > 0 && !IsDigit(k[|k| - 1]) ==> k in m1 && m1[k] == m0[k]
    requires forall k :: k in m1 <==> k in m0 || k in Labels20(l20, i)
    ensures Has20(m, l20, i + 1)
    ensures NonEmpty(m1) ==> NonEmpty(m)
    ensures forall k :: k in m0 && |k| > 0 && !IsDigit(k[|k| - 1]) ==> k in m && m[k] == m0[k]
    ensures forall k :: k in m <==> k in m0 || k in Labels20(l20, i + 1)
  {
    var ch := l20[i];
    forall i' | 0 <= i' < i && Key(l20[i'], "") == Key(ch, "")
      ensures l20[i'] == ch
    {
      KeyInjective(l20[i'], ch, "", "");
    }
    KeyLast(ch, "");
    m := m1[Key(ch, "") := {NatToStr(ch)}];
  }

  /** The labels of the 20 MHz loop are plain numbers: they end in a digit. */
  lemma {:induction false} Labels20Digits(l: seq<nat>, n: nat)
    requires n <= |l|
    ensures forall k :: k in Labels20(l, n) ==> |k| > 0 && IsDigit(k[|k| - 1])
  {
    if n > 0 {
      Labels20Digits(l, n - 1);
      KeyLast(l[n - 1], "");
    }
  }

  method Add40(m0: Table, l20: seq<nat>, l40: seq<nat>) returns (m: Table)
    requires Has20(m0, l20, |l20|) && NonEmpty(m0)
    ensures Has20(m, l20, |l20|) && Has40(m, l40, |l40|) && NonEmpty(m)
    ensures m.Keys == m0.Keys + Labels40(l40, |l40|)
  {
    m := m0;
    for i := 0 to |l40|
      invariant Has20(m, l20, |l20|) && Has40(m, l40, i) && NonEmpty(m)
      invariant m.Keys == m0.Keys + Labels40(l40, i)
    {
      var m' := Put40(m, l20, l40, i);
      Put40Keys(m, m0, l40, i);
      m := m';
    }
  }

  /** One more 40 MHz pair adds its two labels to the keys. */
  lemma {:induction false} Put40Keys(m: Table, m0: Table, l: seq<nat>, n: nat)
    requires n < |l| && m.Keys == m0.Keys + Labels40(l, n)
    ensures m.Keys + {Key(l[n], "+"), Key(l[n] + 4, "-")} == m0.Keys + Labels40(l, n + 1)
  {
  }

  /** chsets[ch + '+'] and chsets[str(ch + 4) + '-'] for ch = l40[i]. */
  method Put40(m0: Table, l20: seq<nat>, l40: seq<nat>, i: nat) returns (m: Table)
    requires i < |l40|
    requires Has20(m0, l20, |l20|) && Has40(m0, l40, i) && NonEmpty(m0)
    ensures Has20(m, l20, |l20|) && Has40(m, l40, i + 1) && NonEmpty(m)
    ensures m.Keys == m0.Keys + {Key(l40[i], "+"), Key(l40[i] + 4, "-")}
  {
    var ch := l40[i];
    m := m0[Key(ch, "+") := Block(ch, 2)];
    m := m[Key(ch + 4, "-") := Block(ch, 2)];
    Put40Keeps20(m0, l20, l40, i);
    Put40Adds(m0, l40, i);
    BlockNonEmpty(ch, 2);
  }

  /** The labels of a 40 MHz pair leave the 20 MHz entries alone. */
  lemma {:induction false} Put40Keeps20(m0: Table, l20: seq<nat>, l40: seq<nat>, i: nat)
    requires i < |l40| && Has20(m0, l20, |l20|)
    ensures Has20(m0[Key(l40[i], "+") := Block(l40[i], 2)][Key(l40[i] + 4, "-") := Block(l40[i], 2)], l20, |l20|)
  {
    var ch := l40[i];
    var m := m0[Key(ch, "+") := Block(ch, 2)][Key(ch + 4, "-") := Block(ch, 2)];
    forall i' | 0 <= i' < |l20|
      ensures Key(l20[i'], "") in m && m[Key(l20[i'], "")] == {NatToStr(l20[i'])}
    {
      OtherSuffix(l20[i'], ch, "", "+");
      OtherSuffix(l20[i'], ch + 4, "", "-");
    }
  }

  /** Pair i is stored under both labels, and the earlier pairs stay as they were. */
  lemma {:induction false} Put40Adds(m0: Table, l40: seq<nat>, i: nat)
    requires i < |l40| && Has40(m0, l40, i)
    ensures Has40(m0[Key(l40[i], "+") := Block(l40[i], 2)][Key(l40[i] + 4, "-") := Block(l40[i], 2)], l40, i + 1)
  {
    var ch := l40[i];
    var m := m0[Key(ch, "+") := Block(ch, 2)][Key(ch + 4, "-") := Block(ch, 2)];
    OtherSuffix(ch, ch + 4, "+", "-");
    forall i' | 0 <= i' < i + 1
      ensures Key(l40[i'], "+") in m && m[Key(l40[i'], "+")] == Block(l40[i'], 2)
      ensures Key(l40[i'] + 4, "-") in m && m[Key(l40[i'] + 4, "-")] == Block(l40[i'], 2)
    {
      if i' < i {
        PairKept(l40[i'], ch);
      }
    }
  }

  /** An earlier pair's labels are rewritten only with the same block, when the pair is the same. */
  lemma {:induction false} PairKept(a: nat, ch: nat)
    ensures Key(a, "+") == Key(ch, "+") ==> a == ch
    ensures Key(a + 4, "-") == Key(ch + 4, "-") ==> a == ch
    ensures Key(a, "+") != Key(ch + 4, "-") && Key(a + 4, "-") != Key(ch, "+")
  {
    if Key(a, "+") == Key(ch, "+") {
      KeyInjective(a, ch, "+", "+");
    }
    if Key(a + 4, "-") == Key(ch + 4, "-") {
      KeyInjective(a + 4, ch + 4, "-", "-");
    }
    OtherSuffix(a, ch + 4, "+", "-");
    OtherSuffix(a + 4, ch, "-", "+");
  }

  /**
   * The 80 MHz (suffix 'E', 4 channels) or 160 MHz (suffix 'S', 8 channels)
   * loop, over blocks of `l`; `l80` is the 80 MHz list already written when
   * this is the 160 MHz loop.
   */
  method AddWide(m0: Table, l20: seq<nat>, l40: seq<nat>, l80: seq<nat>, l: seq<nat>, w: nat, s: string)
    returns (m: Table)
    requires s in {"E", "S"} && w > 0 && Spread(l, w)
    requires Has20(m0, l20, |l20|) && Has40(m0, l40, |l40|) && HasWide(m0, l80, |l80|, 4, "E") && NonEmpty(m0)
    ensures Has20(m, l20, |l20|) && Has40(m, l40, |l40|) && NonEmpty(m)
    ensures s == "S" ==> HasWide(m, l80, |l80|, 4, "E")
    ensures HasWide(m, l, |l|, w, s)
    ensures m.Keys == m0.Keys + LabelsWide(l, |l|, w, s)
  {
    m := m0;
    for i := 0 to |l|
      invariant Has20(m, l20, |l20|) && Has40(m, l40, |l40|) && NonEmpty(m)
      invariant s == "S" ==> HasWide(m, l80, |l80|, 4, "E")
      invariant HasWide(m, l, i, w, s)
      invariant m == WideMap(m0, l, i, w, s)
    {
      m := AddBlock(m, l20, l40, l80, l, w, s, i);
    }
    WideMapKeys(m0, l, |l|, w, s);
  }

  /** The table after the first `j` assignments for block i of a wide loop. */
  ghost function BlockMap(m: Table, l: seq<nat>, i: nat, j: nat, w: nat, s: string): Table
    requires i < |l|
  {
    if j == 0 then m else BlockMap(m, l, i, j - 1, w, s)[BlockKey(l, i, j - 1, s) := Block(l[i], w)]
  }

  /** The table after the first `n` blocks of a wide loop. */
  ghost function WideMap(m: Table, l: seq<nat>, n: nat, w: nat, s: string): Table
    requires n <= |l|
  {
    if n == 0 then m else BlockMap(WideMap(m, l, n - 1, w, s), l, n - 1, w, w, s)
  }

  lemma {:induction false} BlockMapKeys(m: Table, l: seq<nat>, i: nat, j: nat, w: nat, s: string)
    requires i < |l|
    ensures BlockMap(m, l, i, j, w, s).Keys == m.Keys + BlockLabels(l, i, j, s)
  {
    if j > 0 {
      BlockMapKeys(m, l, i, j - 1, w, s);
    }
  }

  /** A wide loop adds exactly the labels of the channels of its blocks. */
  lemma {:induction false} WideMapKeys(m: Table, l: seq<nat>, n: nat, w: nat, s: string)
    requires n <= |l|
    ensures WideMap(m, l, n, w, s).Keys == m.Keys + LabelsWide(l, n, w, s)
  {
    if n > 0 {
      WideMapKeys(m, l, n - 1, w, s);
      BlockMapKeys(WideMap(m, l, n - 1, w, s), l, n - 1, w, w, s);
    }
  }

  /** The inner loop of a wide loop: block i under the label of each of its channels. */
  method AddBlock(m1: Table, l20: seq<nat>, l40: seq<nat>, l80: seq<nat>, l: seq<nat>, w: nat, s: string, i: nat)
    returns (m: Table)
    requires s in {"E", "S"} && Spread(l, w) && i < |l|
    requires Has20(m1, l20, |l20|) && Has40(m1, l40, |l40|) && NonEmpty(m1)
    requires s == "S" ==> HasWide(m1, l80, |l80|, 4, "E")
    requires HasWide(m1, l, i, w, s)
    ensures Has20(m, l20, |l20|) && Has40(m, l40, |l40|) && NonEmpty(m)
    ensures s == "S" ==> HasWide(m, l80, |l80|, 4, "E")
    ensures HasWide(m, l, i + 1, w, s)
    ensures m == BlockMap(m1, l, i, w, w, s)
  {
    m := m1;
    for j := 0 to w
      invariant Has20(m, l20, |l20|) && Has40(m, l40, |l40|) && NonEmpty(m)
      invariant s == "S" ==> HasWide(m, l80, |l80|, 4, "E")
      invariant HasWide(m, l, i, w, s)
      invariant forall j' :: 0 <= j' < j ==> BlockKey(l, i, j', s) in m && m[BlockKey(l, i, j', s)] == Block(l[i], w)
      invariant m == BlockMap(m1, l, i, j, w, s)
    {
      m := PutWide(m, l20, l40, l80, l, w, s, i, j);
    }
  }

  /** chsets[str(l[i] + 4j) + s] = the block of l[i]. */
  method PutWide(m0: Table, l20: seq<nat>, l40: seq<nat>, l80: seq<nat>, l: seq<nat>, w: nat, s: string, i: nat, j: nat)
    returns (m: Table)
    requires s in {"E", "S"} && Spread(l, w) && i < |l| && j < w
    requires Has20(m0, l20, |l20|) && Has40(m0, l40, |l40|) && NonEmpty(m0)
    requires s == "S" ==> HasWide(m0, l80, |l80|, 4, "E")
    requires HasWide(m0, l, i, w, s)
    requires forall j' :: 0 <= j' < j ==> BlockKey(l, i, j', s) in m0 && m0[BlockKey(l, i, j', s)] == Block(l[i], w)
    ensures Has20(m, l20, |l20|) && Has40(m, l40, |l40|) && NonEmpty(m)
    ensures s == "S" ==> HasWide(m, l80, |l80|, 4, "E")
    ensures HasWide(m, l, i, w, s)
    ensures forall j' :: 0 <= j' <= j ==> BlockKey(l, i, j', s) in m && m[BlockKey(l, i, j', s)] == Block(l[i], w)
    ensures m == m0[BlockKey(l, i, j, s) := Block(l[i], w)]
  {
    var k := BlockKey(l, i, j, s);
    WideKeyFresh(l20, l40, l80, l, w, s, i, j);
    BlockNonEmpty(l[i], w);
    m := m0[k := Block(l[i], w)];
  }

  /** The label PutWide writes is none of the labels written before it. */
  lemma {:induction false} WideKeyFresh(l20: seq<nat>, l40: seq<nat>, l80: seq<nat>, l: seq<nat>, w: nat, s: string, i: nat, j: nat)
    requires s in {"E", "S"} && Spread(l, w) && i < |l| && j < w
    ensures forall i' :: 0 <= i' < |l20| ==> Key(l20[i'], "") != BlockKey(l, i, j, s)
    ensures forall i' :: 0 <= i' < |l40| ==> Key(l40[i'], "+") != BlockKey(l, i, j, s) && Key(l40[i'] + 4, "-") != BlockKey(l, i, j, s)
    ensures s == "S" ==> forall i', j' :: 0 <= i' < |l80| && 0 <= j' < 4 ==> BlockKey(l80, i', j', "E") != BlockKey(l, i, j, s)
    ensures forall i', j' :: 0 <= i' < i && 0 <= j' < w ==> BlockKey(l, i', j', s) != BlockKey(l, i, j, s)
    ensures forall j' :: 0 <= j' < j ==> BlockKey(l, i, j', s) != BlockKey(l, i, j, s)
  {
    var c := l[i] + 4 * j;
    var k := Key(c, s);
    forall i' | 0 <= i' < |l20|
      ensures Key(l20[i'], "") != k
    {
      OtherSuffix(l20[i'], c, "", s);
    }
    forall i' | 0 <= i' < |l40|
      ensures Key(l40[i'], "+") != k && Key(l40[i'] + 4, "-") != k
    {
      OtherSuffix(l40[i'], c, "+", s);
      OtherSuffix(l40[i'] + 4, c, "-", s);
    }
    if s == "S" {
      forall i', j' | 0 <= i' < |l80| && 0 <= j' < 4
        ensures BlockKey(l80, i', j', "E") != k
      {
        OtherSuffix(l80[i'] + 4 * j', c, "E", s);
      }
    }
    forall i', j' | 0 <= i' < i && 0 <= j' < w
      ensures BlockKey(l, i', j', s) != k
    {
      if BlockKey(l, i', j', s) == k {
        KeyInjective(l[i'] + 4 * j', c, s, s);
      }
    }
    forall j' | 0 <= j' < j
      ensures BlockKey(l, i, j', s) != k
    {
      if BlockKey(l, i, j', s) == k {
        KeyInjective(l[i] + 4 * j', c, s, s);
      }
    }
  }

  /** No label of `m` is empty: every label interferes with itself. */
  lemma {:induction false} NonEmptyReflexive(m: Table, a: string)
    requires NonEmpty(m) && a in m
    ensures IsIntf(m, a, a) == Some(true)
  {
    var x :| x in m[a];
    assert x in m[a] * m[a];
  }

  /** A 20 MHz channel interferes with a label exactly when the label covers it. */
  lemma {:induction false} Intf20(m: Table, l20: seq<nat>, i: nat, b: string)
    requires i < |l20| && Has20(m, l20, |l20|) && b in m
    ensures IsIntf(m, Key(l20[i], ""), b) == Some(NatToStr(l20[i]) in m[b])
  {
    var a := Key(l20[i], "");
    if NatToStr(l20[i]) in m[b] {
      assert NatToStr(l20[i]) in m[a] * m[b];
    }
  }

  /** The two labels of a 40 MHz pair interfere with each other and with both of its channels. */
  lemma {:induction false} Intf40(m: Table, l20: seq<nat>, l40: seq<nat>, i: nat)
    requires i < |l40| && Has40(m, l40, |l40|)
    ensures IsIntf(m, Key(l40[i], "+"), Key(l40[i] + 4, "-")) == Some(true)
    ensures forall j :: 0 <= j < 2 ==> Chan(l40[i], j) in m[Key(l40[i], "+")] && Chan(l40[i], j) in m[Key(l40[i] + 4, "-")]
  {
    BlockNonEmpty(l40[i], 2);
    assert NatToStr(l40[i]) in m[Key(l40[i], "+")] * m[Key(l40[i] + 4, "-")];
  }

  /** The 40 MHz labels of the literal `chset` of cli-monitor-list.py ('64+' and '108-' included). */
  const Cli40: Table := map[
    "36+" := {"36", "40"}, "40-" := {"36", "40"}, "44+" := {"44", "48"}, "48-" := {"44", "48"},
    "52+" := {"52", "56"}, "56-" := {"52", "56"}, "60+" := {"60", "64"}, "64+" := {"60", "64"},
    "64-" := {"60", "64"}, "100+" := {"100", "104"}, "104-" := {"100", "104"}, "108-" := {"104", "108"},
    "108+" := {"108", "112"}, "112-" := {"108", "112"}, "116+" := {"116", "120"}, "120-" := {"116", "120"},
    "124+" := {"124", "128"}, "128-" := {"124", "128"}, "132+" := {"132", "136"}, "136-" := {"132", "136"},
    "140+" := {"140", "144"}, "144-" := {"140", "144"}, "149+" := {"149", "153"}, "153-" := {"149", "153"},
    "157+" := {"157", "161"}, "161-" := {"157", "161"}]

  /** The 40 MHz labels of the literal `chset` of ap-monitor-list-sum.py: '64+' and '108-' cover nothing. */
  const Sum40: Table := map[
    "36+" := {"36", "40"}, "40-" := {"36", "40"}, "44+" := {"44", "48"}, "48-" := {"44", "48"},
    "52+" := {"52", "56"}, "56-" := {"52", "56"}, "60+" := {"60", "64"}, "64-" := {"60", "64"},
    "64+" := {}, "100+" := {"100", "104"}, "104-" := {"100", "104"}, "108+" := {"108", "112"},
    "108-" := {}, "112-" := {"108", "112"}, "116+" := {"116", "120"}, "120-" := {"116", "120"},
    "124+" := {"124", "128"}, "128-" := {"124", "128"}, "132+" := {"132", "136"}, "136-" := {"132", "136"},
    "140+" := {"140", "144"}, "144-" := {"140", "144"}, "149+" := {"149", "153"}, "153-" := {"149", "153"},
    "157+" := {"157", "161"}, "161-" := {"157", "161"}]

  /** The 80 MHz labels both literal tables share. */
  const Literal80: Table := map[
    "36E" := {"36", "40", "44", "48"}, "40E" := {"36", "40", "44", "48"}, "44E" := {"36", "40", "44", "48"},
    "48E" := {"36", "40", "44", "48"}, "52E" := {"52", "56", "60", "64"}, "56E" := {"52", "56", "60", "64"},
    "60E" := {"52", "56", "60", "64"}, "64E" := {"52", "56", "60", "64"}, "100E" := {"100", "104", "108", "112"},
    "104E" := {"100", "104", "108", "112"}, "108E" := {"100", "104", "108", "112"},
    "112E" := {"100", "104", "108", "112"}, "116E" := {"116", "120", "124", "128"},
    "120E" := {"116", "120", "124", "128"}, "124E" := {"116", "120", "124", "128"},
    "128E" := {"116", "120", "124", "128"}, "132E" := {"132", "136", "140", "144"},
    "136E" := {"132", "136", "140", "144"}, "140E" := {"132", "136", "140", "144"},
    "144E" := {"132", "136", "140", "144"}, "149E" := {"149", "153", "157", "161"},
    "153E" := {"149", "153", "157", "161"}, "157E" := {"149", "153", "157", "161"},
    "161E" := {"149", "153", "157", "161"}]

  /** The single 160 MHz label of cli-monitor-list.py. */
  const Cli160: Table := map["60S" := {"36", "40", "44", "48", "52", "56", "60", "64"}]

  /** Every label of the 40 MHz literal of cli-monitor-list.py covers a channel; the two irregular ones cover 60/64 and 104/108. */
  lemma {:induction false} Cli40Facts()
    ensures NonEmpty(Cli40)
    ensures "64+" in Cli40 && Cli40["64+"] == {"60", "64"} && "108-" in Cli40 && Cli40["108-"] == {"104", "108"}
  {
  }

  lemma {:induction false} Literal80Facts()
    ensures NonEmpty(Literal80)
    ensures forall k :: k in Literal80 ==> |k| > 0 && k[|k| - 1] == 'E'
  {
  }

  lemma {:induction false} Sum40Facts()
    ensures "64+" in Sum40 && Sum40["64+"] == {} && "108-" in Sum40 && Sum40["108-"] == {}
  {
  }

  /** A union of tables whose labels cover something has no empty label. */
  lemma {:induction false} NonEmptyUnion(a: Table, b: Table)
    requires NonEmpty(a) && NonEmpty(b)
    ensures NonEmpty(a + b)
  {
  }

  /** The literal `chset` of cli-monitor-list.py, before its 20 MHz channels are added. */
  const CliLiteral: Table := Cli40 + Literal80 + Cli160

  /** The literal `chset` of ap-monitor-list-sum.py, before its 20 MHz channels are added. */
  const SumLiteral: Table := Sum40 + Literal80

  /** The labels of cli-monitor-list.py's literal all cover some channel. */
  lemma {:induction false} CliLiteralNonEmpty()
    ensures NonEmpty(CliLiteral)
  {
    Cli40Facts();
    Literal80Facts();
    NonEmptyUnion(Cli40, Literal80);
    NonEmptyUnion(Cli40 + Literal80, Cli160);
  }

  /** The irregular labels of cli-monitor-list.py's literal: '64+', '108-' and the 160 MHz '60S'. */
  lemma {:induction false} CliLiteralIrregular()
    ensures "64+" in CliLiteral && CliLiteral["64+"] == {"60", "64"}
    ensures "108-" in CliLiteral && CliLiteral["108-"] == {"104", "108"}
  {
    Cli40Facts();
    Literal80Facts();
  }

  lemma {:induction false} CliLiteral160()
    ensures "60S" in CliLiteral && CliLiteral["60S"] == {"36", "40", "44", "48", "52", "56", "60", "64"}
  {
  }

  /**
   * A label the literal table of a script holds, ending in a suffix, keeps
   * its value once the 20 MHz channels are added.
   */
  ghost predicate KeepsLiteral(t: Table, lit: Table)
  {
    forall k :: k in lit && |k| > 0 && !IsDigit(k[|k| - 1]) ==> k in t && t[k] == lit[k]
  }

  /**
   * cli-monitor-list.py's table: the literal, then every 20 MHz channel to
   * itself; CliLiteralIrregular and CliLiteral160 give its odd labels.
   */
  method CliChset() returns (t: Table)
    ensures Has20(t, Ch20, |Ch20|) && KeepsLiteral(t, CliLiteral)
    ensures NonEmpty(t)
  {
    CliLiteralNonEmpty();
    t := Add20(CliLiteral, Ch20);
  }

  /** ap-monitor-list-sum.py's table: the literal, then every 20 MHz channel to itself. */
  method SumChset() returns (t: Table)
    ensures Has20(t, Ch20, |Ch20|) && KeepsLiteral(t, SumLiteral)
  {
    t := Add20(SumLiteral, Ch20);
  }

  /** ap-monitor-list-sum.py's irregular labels '64+' and '108-' cover nothing. */
  lemma {:induction false} SumLiteralFacts()
    ensures "64+" in SumLiteral && SumLiteral["64+"] == {} && "108-" in SumLiteral && SumLiteral["108-"] == {}
  {
    Sum40Facts();
    Literal80Facts();
  }

  /** In ap-monitor-list-sum.py '64+' and '108-' interfere with nothing, themselves included. */
  lemma {:induction false} EmptyLabels(t: Table, a: string, b: string)
    requires a in t && t[a] == {} && b in t
    ensures IsIntf(t, a, b) == Some(false) && IsIntf(t, b, a) == Some(false)
  {
  }
}
