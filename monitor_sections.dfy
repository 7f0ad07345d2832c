/**
 * The sections the monitor scripts print from their SNR-sorted entries:
 * each keeps the entries of one test, numbers them, and colours each line
 * green (the own AP), red (its label shares a channel with the own
 * channel and SNR >= 10), yellow (shares one, weaker) or not at all.
 * `isIntf` looks both labels up in the channel table, so a label the
 * table lacks is a KeyError that ends the script.
 */
module MonitorSections {
  import opened Wrappers
  import opened MonitorRows
  import opened Counting
  import Channels
  import StableSort

  datatype Colour = Plain | Green | Yellow | Red

  /** One printed line: the entry, the AP name printed with it, its colour (its number is its position). */
  datatype Line = Line(e: Entry, apn: string, colour: Colour)

  /**
   * What a section prints: the entries `keep` picks; `green` ones are the
   * own AP; only a section that `paint`s looks the label up; `apn` is the
   * AP name column.
   */
  datatype Rule = Rule(keep: Entry -> bool, green: Entry -> bool, paint: bool, apn: Entry -> string)

  /** The SNR from which an overlapping AP is counted. */
  const SnrThreshold := 10

  /** The colour of a kept entry, or None for the KeyError of a label missing from `t`. */
  function Paint(t: Channels.Table, mych: string, e: Entry, rule: Rule): Option<Colour>
  {
    if rule.green(e) then Some(Green)
    else if !rule.paint then Some(Plain)
    else match Channels.IsIntf(t, e.ch, mych)
      case None => None
      case Some(hit) => Some(if !hit then Plain else if e.snr >= SnrThreshold then Red else Yellow)
  }

  predicate IsRed(l: Line) { l.colour == Red }

  function Snr(e: Entry): int { e.snr }

  /** One entry's effect on the section so far. */
  function Step(t: Channels.Table, mych: string, acc: Option<seq<Line>>, e: Entry, rule: Rule): Option<seq<Line>>
  {
    match acc
      case None => None
      case Some(ls) =>
        if !rule.keep(e) then Some(ls)
        else match Paint(t, mych, e, rule)
          case None => None
          case Some(c) => Some(ls + [Line(e, rule.apn(e), c)])
  }

  /** The lines of a section over `es`, in order, or None when a lookup fails. */
  function Section(t: Channels.Table, mych: string, es: seq<Entry>, rule: Rule): (r: Option<seq<Line>>)
    ensures r.Some? ==> |r.value| <= |es|
  {
    if es == [] then Some([]) else Step(t, mych, Section(t, mych, es[..|es| - 1], rule), es[|es| - 1], rule)
  }

  lemma {:induction false} SectionPrefix(t: Channels.Table, mych: string, es: seq<Entry>, rule: Rule, i: nat)
    requires i < |es|
    ensures Section(t, mych, es[..i + 1], rule) == Step(t, mych, Section(t, mych, es[..i], rule), es[i], rule)
  {
    assert es[..i + 1][..i] == es[..i];
  }

  /** The entries of the lines, in order. */
  function LineEntries(ls: seq<Line>): (r: seq<Entry>)
    ensures |r| == |ls| && forall k :: 0 <= k < |ls| ==> r[k] == ls[k].e
  {
    seq(|ls|, k requires 0 <= k < |ls| => ls[k].e)
  }

  /** A kept entry whose label cannot be looked up. */
  predicate Unknown(t: Channels.Table, mych: string, e: Entry, rule: Rule)
  {
    rule.keep(e) && Paint(t, mych, e, rule).None?
  }

  /** A section fails exactly when some kept entry's lookup fails. */
  lemma {:induction false} SectionFail(t: Channels.Table, mych: string, es: seq<Entry>, rule: Rule)
    ensures Section(t, mych, es, rule).None? <==> exists i :: 0 <= i < |es| && Unknown(t, mych, es[i], rule)
    decreases |es|
  {
    if es != [] {
      var pre := es[..|es| - 1];
      SectionFail(t, mych, pre, rule);
      if exists i :: 0 <= i < |pre| && Unknown(t, mych, pre[i], rule) {
        var i :| 0 <= i < |pre| && Unknown(t, mych, pre[i], rule);
        assert es[i] == pre[i];
      }
      if exists i :: 0 <= i < |es| && Unknown(t, mych, es[i], rule) {
        var i :| 0 <= i < |es| && Unknown(t, mych, es[i], rule);
        if i < |pre| {
          assert pre[i] == es[i];
        }
      }
    }
  }

  /** A line is printed for every kept entry, in order, with its own colour and AP name. */
  lemma {:induction false} SectionLines(t: Channels.Table, mych: string, es: seq<Entry>, rule: Rule)
    requires Section(t, mych, es, rule).Some?
    ensures var ls := Section(t, mych, es, rule).value;
      LineEntries(ls) == Filter(es, rule.keep)
      && forall k :: 0 <= k < |ls| ==> Paint(t, mych, ls[k].e, rule) == Some(ls[k].colour) && ls[k].apn == rule.apn(ls[k].e)
    decreases |es|
  {
    if es != [] {
      var pre := es[..|es| - 1];
      SectionLines(t, mych, pre, rule);
      var ls := Section(t, mych, es, rule).value;
      var ls' := Section(t, mych, pre, rule).value;
      if rule.keep(es[|es| - 1]) {
        assert LineEntries(ls) == LineEntries(ls') + [es[|es| - 1]];
      } else {
        assert ls == ls';
      }
    }
  }

  /** Every line of a section is a kept entry with the colour `Paint` gives it. */
  lemma {:induction false} SectionKept(t: Channels.Table, mych: string, es: seq<Entry>, rule: Rule)
    requires Section(t, mych, es, rule).Some?
    ensures var ls := Section(t, mych, es, rule).value;
      forall k :: 0 <= k < |ls| ==> rule.keep(ls[k].e) && Paint(t, mych, ls[k].e, rule) == Some(ls[k].colour)
  {
    SectionLines(t, mych, es, rule);
    var ls := Section(t, mych, es, rule).value;
    forall k | 0 <= k < |ls|
      ensures rule.keep(ls[k].e)
    {
      assert LineEntries(ls)[k] in Filter(es, rule.keep);
    }
  }

  /** The red lines are the kept entries whose colour is red, wherever they stand. */
  predicate RedEntry(t: Channels.Table, mych: string, e: Entry, rule: Rule)
  {
    rule.keep(e) && Paint(t, mych, e, rule) == Some(Red)
  }

  /** The count of red lines is the count of red entries. */
  lemma {:induction false} SectionRed(t: Channels.Table, mych: string, es: seq<Entry>, rule: Rule)
    requires Section(t, mych, es, rule).Some?
    ensures CountIf(Section(t, mych, es, rule).value, IsRed) == CountIf(es, e => RedEntry(t, mych, e, rule))
    decreases |es|
  {
    if es != [] {
      var pre := es[..|es| - 1];
      var e := es[|es| - 1];
      SectionRed(t, mych, pre, rule);
      var ls' := Section(t, mych, pre, rule).value;
      if rule.keep(e) {
        CountSnoc(ls', Line(e, rule.apn(e), Paint(t, mych, e, rule).value), IsRed);
      }
    }
  }

  /** Whether a section fails, how many lines it prints and how many are red do not depend on the order of the entries. */
  lemma {:induction false} SectionPerm(t: Channels.Table, mych: string, a: seq<Entry>, b: seq<Entry>, rule: Rule)
    requires multiset(a) == multiset(b)
    ensures Section(t, mych, a, rule).None? <==> Section(t, mych, b, rule).None?
    ensures Section(t, mych, a, rule).Some? ==>
      |Section(t, mych, a, rule).value| == |Section(t, mych, b, rule).value|
      && CountIf(Section(t, mych, a, rule).value, IsRed) == CountIf(Section(t, mych, b, rule).value, IsRed)
  {
    SectionFail(t, mych, a, rule);
    SectionFail(t, mych, b, rule);
    forall e | Unknown(t, mych, e, rule)
      ensures e in a <==> e in b
    {
      assert e in a <==> e in multiset(a);
      assert e in b <==> e in multiset(b);
    }
    if Section(t, mych, a, rule).Some? {
      SectionLines(t, mych, a, rule);
      SectionLines(t, mych, b, rule);
      SectionRed(t, mych, a, rule);
      SectionRed(t, mych, b, rule);
      FilterCount(a, rule.keep);
      FilterCount(b, rule.keep);
      CountPerm(a, b, rule.keep);
      CountPerm(a, b, e => RedEntry(t, mych, e, rule));
    }
  }

  /** A section of a list sorted by SNR, largest first, is sorted the same way. */
  lemma {:induction false} SectionSorted(t: Channels.Table, mych: string, es: seq<Entry>, rule: Rule)
    requires StableSort.SortedDesc(es, Snr) && Section(t, mych, es, rule).Some?
    ensures StableSort.SortedDesc(LineEntries(Section(t, mych, es, rule).value), Snr)
    decreases |es|
  {
    if es != [] {
      var pre := es[..|es| - 1];
      var e := es[|es| - 1];
      SectionSorted(t, mych, pre, rule);
      SectionLines(t, mych, pre, rule);
      var ls' := Section(t, mych, pre, rule).value;
      if rule.keep(e) {
        var ls := Section(t, mych, es, rule).value;
        forall k | 0 <= k < |ls'|
          ensures e.snr <= ls'[k].e.snr
        {
          assert LineEntries(ls')[k] in Filter(pre, rule.keep);
          var x :| 0 <= x < |pre| && pre[x] == ls'[k].e;
          assert es[x] == pre[x];
        }
        assert LineEntries(ls) == LineEntries(ls') + [e];
      }
    }
  }

  /** The loop of one section: number and colour each kept entry, counting the red ones. */
  method Render(t: Channels.Table, mych: string, es: seq<Entry>, rule: Rule) returns (r: Option<(seq<Line>, nat)>)
    ensures r.None? <==> Section(t, mych, es, rule).None?
    ensures r.Some? ==> r.value.0 == Section(t, mych, es, rule).value && r.value.1 == CountIf(r.value.0, IsRed)
  {
    var ls: seq<Line> := [];
    var coch: nat := 0;
    for i := 0 to |es|
      invariant Section(t, mych, es[..i], rule) == Some(ls)
      invariant coch == CountIf(ls, IsRed)
    {
      var e := es[i];
      SectionPrefix(t, mych, es, rule, i);
      if rule.keep(e) {
        var c := Paint(t, mych, e, rule);
        if c.None? {
          SectionNone(t, mych, es, rule, i + 1);
          return None;
        }
        CountSnoc(ls, Line(e, rule.apn(e), c.value), IsRed);
        if c.value == Red {
          coch := coch + 1;
        }
        ls := ls + [Line(e, rule.apn(e), c.value)];
      }
    }
    assert es[..|es|] == es;
    return Some((ls, coch));
  }

  /** Once a prefix fails, the whole section fails. */
  lemma {:induction false} SectionNone(t: Channels.Table, mych: string, es: seq<Entry>, rule: Rule, i: nat)
    requires i <= |es| && Section(t, mych, es[..i], rule).None?
    ensures Section(t, mych, es, rule).None?
  {
    SectionFail(t, mych, es[..i], rule);
    var x :| 0 <= x < i && Unknown(t, mych, es[..i][x], rule);
    assert es[..i][x] == es[x];
    SectionFail(t, mych, es, rule);
  }
}
