/**
 * dif-radio-stats.py: reads console captures of 'show ap debug
 * radio-stats', 'client-stats', 'radius-statistics' and
 * 'pmk-sync-statistics', and prints every counter line with how far the
 * counter moved since the previous capture of the same command.
 *
 * `ctr[cmd][param]` and `mcol_ctr[cmd][param][idx]` are one map over
 * `Key` here (a missing key reads 0, as in the defaultdicts).  The
 * specification state also keeps a log of every reading and the
 * difference reported for it, so that what the reported differences mean
 * can be stated over the whole run.
 */
module DifRadioStats {
  import opened Wrappers
  import Text
  import Tally
  import MonitorRows
  import DpMsgq

  datatype Key = Single(cmd: string, param: string) | Multi(cmd: string, param: string, idx: nat)

  /** One reading of a counter and the difference shown for it (None: no difference shown). */
  datatype Event = Event(key: Key, value: nat, diff: Option<int>)

  datatype Counters = Counters(values: map<Key, nat>, log: seq<Event>)

  /** The colour a line is printed in: CYAN for a command, BRIGHTRED for an alarming increase. */
  datatype Colour = Plain | Cyan | BrightRed

  datatype Printed = Printed(text: string, colour: Colour)

  /** The script's state between lines: `cmd`, `skip_lines`, the counters and the printed lines. */
  datatype State = State(cmd: string, skip: nat, c: Counters, out: seq<Printed>)

  const Radius := "show ap debug radius-statistics"

  // ---- replace_str ----

  /**
   * `replace_str(s, pos, newstr)`: `newstr` written over `s` from column
   * `pos`, `s` first padded with spaces when it is shorter than `pos`.
   */
  function ReplaceStr(s: string, pos: nat, n: string): (r: string)
    ensures |r| == if |s| < pos + |n| then pos + |n| else |s|
    ensures forall k :: 0 <= k < pos && k < |s| ==> r[k] == s[k]
    ensures forall k :: |s| <= k < pos ==> r[k] == ' '
    ensures r[pos..pos + |n|] == n
    ensures forall k :: pos + |n| <= k < |s| ==> r[k] == s[k]
  {
    if pos > |s| then s + DpMsgq.Spaces(pos - |s|) + n
    else s[..pos] + n + Text.SliceFrom(s, pos + |n|)
  }

  // ---- the prompt ----

  /** `[\)\]] \*?#|Command: |COMMAND=` matching at column `i`: where the match ends. */
  function PromptAt(l: string, i: nat): Option<nat>
    requires i <= |l|
  {
    if i + 3 <= |l| && (l[i] == ')' || l[i] == ']') && l[i + 1] == ' ' && l[i + 2] == '#' then Some(i + 3)
    else if i + 4 <= |l| && (l[i] == ')' || l[i] == ']') && l[i + 1] == ' ' && l[i + 2] == '*' && l[i + 3] == '#' then Some(i + 4)
    else if Text.StartsWith(l[i..], "Command: ") then Some(i + 9)
    else if Text.StartsWith(l[i..], "COMMAND=") then Some(i + 8)
    else None
  }

  /** `re.search(re_prompt, l)` from column `i`: the leftmost match, as (start, end). */
  function PromptSearch(l: string, i: nat): (r: Option<(nat, nat)>)
    requires i <= |l|
    ensures r.Some? ==> i <= r.value.0 < |l| && PromptAt(l, r.value.0) == Some(r.value.1)
    ensures r.Some? ==> forall j :: i <= j < r.value.0 ==> PromptAt(l, j).None?
    ensures r.None? ==> forall j :: i <= j <= |l| ==> PromptAt(l, j).None?
    decreases |l| - i
  {
    match PromptAt(l, i)
    case Some(e) => Some((i, e))
    case None => if i == |l| then None else PromptSearch(l, i + 1)
  }

  /** The commands whose counters are parsed. */
  predicate Supported(c: string)
  {
    Text.Contains(c, "radio-stats") || Text.Contains(c, "client-stats")
    || Text.Contains(c, "radius-statistics") || Text.Contains(c, "pmk-sync-statistics")
  }

  // ---- the counter lines ----

  /** The start of the run of digits that ends at `j`. */
  function DigitsBack(s: string, j: nat): (i: nat)
    requires j <= |s|
    ensures i <= j && Text.AllDigits(s[i..j]) && (i == 0 || !Text.IsDigit(s[i - 1]))
    decreases j
  {
    if j > 0 && Text.IsDigit(s[j - 1]) then
      var i := DigitsBack(s, j - 1);
      assert s[i..j] == s[i..j - 1] + [s[j - 1]];
      i
    else j
  }

  /**
   * `re.match(r'(.+)  +([0-9]+)$', l)`: the parameter (the greedy group,
   * so everything up to the last two spaces before the final digits) and
   * `int()` of the digits.
   */
  function CounterLine(l: string): (r: Option<(string, nat)>)
    ensures r.Some? ==> var p := r.value.0;
      && 1 <= |p| && |p| + 2 < |l| && l[..|p|] == p && l[|p|] == ' ' && l[|p| + 1] == ' '
      && Text.AllDigits(l[|p| + 2..]) && r.value.1 == Text.DigitsValue(l[|p| + 2..], 10)
  {
    var d := DigitsBack(l, |l|);
    if d == |l| || d < 3 || l[d - 1] != ' ' || l[d - 2] != ' ' then None
    else Some((l[..d - 2], Text.DigitsValue(l[d..], 10)))
  }

  /** `[\w()/ -]`: the characters of a multi-column parameter. */
  predicate IsParamChar(c: char)
  {
    MonitorRows.IsWord(c, true) || c == '(' || c == ')' || c == '/' || c == ' '
  }

  /** `( +\d+){2,}$` matches from column `p`: blanks and digits to the end, at least two numbers. */
  predicate TailOk(l: string, p: nat)
  {
    && p < |l| && l[p] == ' ' && Text.IsDigit(l[|l| - 1])
    && (forall k :: p <= k < |l| ==> l[k] == ' ' || Text.IsDigit(l[k]))
    && exists j :: p < j < |l| && l[j] == ' ' && Text.IsDigit(l[j - 1])
  }

  /**
   * The lazy `([\w()/ -]+?)`, trying the lengths `p` onwards: the first
   * length after which the rest of the pattern matches.
   */
  function ParamFrom(l: string, p: nat): (r: Option<nat>)
    requires 1 <= p
    ensures r.Some? ==> p <= r.value < |l| && TailOk(l, r.value)
    ensures r.Some? ==> forall k :: p - 1 <= k < r.value ==> IsParamChar(l[k])
    ensures r.Some? ==> forall q :: p <= q < r.value ==> !TailOk(l, q)
    decreases |l| - p
  {
    if p > |l| || !IsParamChar(l[p - 1]) then None
    else if TailOk(l, p) then Some(p)
    else ParamFrom(l, p + 1)
  }

  /** `re.match(r'([\w()/ -]+?)( +\d+){2,}$', l)`: the length of the parameter. */
  function MultiParam(l: string): Option<nat>
  {
    ParamFrom(l, 1)
  }

  /**
   * `re.finditer(r'([0-9]+)', l[i:])`: (column just after the number,
   * value) for each run of digits, left to right.
   */
  function RunsFrom(l: string, i: nat): (rs: seq<(nat, nat)>)
    ensures forall j :: 0 <= j < |rs| ==> i < rs[j].0 <= |l|
    ensures forall j, k :: 0 <= j < k < |rs| ==> rs[j].0 < rs[k].0
    decreases |l| - i
  {
    if i >= |l| then []
    else if Text.IsDigit(l[i]) then
      var e := MonitorRows.DigitsEnd(l, i);
      [(e, Text.DigitsValue(l[i..e], 10))] + RunsFrom(l, e)
    else RunsFrom(l, i + 1)
  }

  // ---- the counters ----

  /** The difference shown for reading `v` of `k`: none while the counter reads 0. */
  function Reported(c: Counters, k: Key, v: nat): Option<int>
  {
    Diff(Tally.Get(c.values, k), v)
  }

  /** The difference shown for reading `v` after `stored`: none when `stored` is 0. */
  function Diff(stored: nat, v: nat): Option<int>
  {
    if stored == 0 then None else Some(v - stored)
  }

  /** `ctr[...] = val`, with the reading and its shown difference logged. */
  function Read(c: Counters, k: Key, v: nat): Counters
  {
    Counters(c.values[k := v], c.log + [Event(k, v, Reported(c, k, v))])
  }

  /** What reading the numbers of one multi-column line leaves: the counters and the rewritten line. */
  datatype Scan = Scan(c: Counters, text: string)

  /** The `enumerate(re.finditer(...))` loop over the runs `rs` of line `l`. */
  function ReadRuns(c: Counters, cmd: string, param: string, l: string, rs: seq<(nat, nat)>): (r: Scan)
    decreases |rs|
  {
    if rs == [] then Scan(c, l)
    else
      var s := ReadRuns(c, cmd, param, l, rs[..|rs| - 1]);
      var k := Multi(cmd, param, |rs| - 1);
      var e := rs[|rs| - 1];
      var d := Reported(s.c, k, e.1);
      Scan(Read(s.c, k, e.1), if d.None? then s.text else ReplaceStr(s.text, e.0 + 1, DpMsgq.Signed(d.value)))
  }

  /** `f'{s:>12}'`: right-aligned in `w` characters, never cut. */
  function RightAlign(s: string, w: nat): (r: string)
    ensures |r| == if |s| < w then w else |s|
    ensures r[|r| - |s|..] == s
  {
    DpMsgq.Spaces(w - |s|) + s
  }

  /** `f"{diff:+}"`, or "" when no difference is shown. */
  function Shown(d: Option<int>): string
  {
    if d.None? then "" else DpMsgq.Signed(d.value)
  }

  /** `re.search(r'error|fail|drop|reject|timeout', param, re.IGNORECASE)`. */
  predicate Alarming(param: string)
  {
    var p := Text.Lower(param);
    Text.Contains(p, "error") || Text.Contains(p, "fail") || Text.Contains(p, "drop")
    || Text.Contains(p, "reject") || Text.Contains(p, "timeout")
  }

  /** The printed form of a single counter line: the difference right-aligned after column 50. */
  function CounterRow(l: string, param: string, d: Option<int>): Printed
  {
    Printed(l + DpMsgq.Spaces(50 - |l|) + RightAlign(Shown(d), 12),
      if d.Some? && d.value > 0 && Alarming(param) then BrightRed else Plain)
  }

  // ---- the script ----

  /** A line of a supported command: a counter line, a multi-column line or text. */
  function Data(st: State, l: string, full: bool): State
  {
    if st.cmd == Radius then
      match MultiParam(l)
      case Some(p) =>
        var s := ReadRuns(st.c, st.cmd, l[..p], l, RunsFrom(l, p));
        st.(c := s.c, out := st.out + [Printed(s.text, Plain)])
      case None => if full then st.(out := st.out + [Printed(l, Plain)]) else st
    else
      match CounterLine(l)
      case Some(pv) =>
        var k := Single(st.cmd, pv.0);
        st.(c := Read(st.c, k, pv.1), out := st.out + [CounterRow(l, pv.0, Reported(st.c, k, pv.1))])
      case None => st.(out := st.out + [Printed(l, Plain)])
  }

  /** A prompt line whose command text starts at column `e`. */
  function Prompt(st: State, l: string, e: nat): State
    requires e <= |l|
  {
    var cmd := Text.Strip(l[e..]);
    if Text.Contains(cmd, "show clock") then st.(cmd := "", skip := 2, out := st.out + [Printed(l, Plain)])
    else if Supported(cmd) then st.(cmd := cmd, out := st.out + [Printed("", Plain), Printed(l, Cyan)])
    else st.(cmd := "")
  }

  /** One (unstripped) input line. */
  function Step(st: State, line: string, full: bool): State
  {
    var l := Text.RStrip(line);
    if st.skip > 0 then st.(skip := st.skip - 1, out := st.out + [Printed(l, Plain)])
    else if Text.StartsWith(l, "Output Time:") then st.(out := st.out + [Printed(l, Plain)])
    else match PromptSearch(l, 0)
      case Some(m) => Prompt(st, l, m.1)
      case None => if st.cmd == "" then st else Data(st, l, full)
  }

  const Start := State("", 0, Counters(map[], []), [])

  function Steps(lines: seq<string>, full: bool): State
  {
    if lines == [] then Start else Step(Steps(lines[..|lines| - 1], full), lines[|lines| - 1], full)
  }

  // ---- the loops ----

  /** The inner `enumerate(re.finditer(...))` loop. */
  method ReadLineRuns(values: map<Key, nat>, ghost log: seq<Event>, cmd: string, param: string, l: string, rs: seq<(nat, nat)>)
    returns (values': map<Key, nat>, text: string, ghost log': seq<Event>)
    ensures ReadRuns(Counters(values, log), cmd, param, l, rs) == Scan(Counters(values', log'), text)
  {
    values', text, log' := values, l, log;
    for i := 0 to |rs|
      invariant ReadRuns(Counters(values, log), cmd, param, l, rs[..i]) == Scan(Counters(values', log'), text)
    {
      assert rs[..i + 1][..i] == rs[..i];
      var k := Multi(cmd, param, i);
      var stored := Tally.Get(values', k);
      var diff: Option<int> := if stored == 0 then None else Some(rs[i].1 as int - stored);
      log' := log' + [Event(k, rs[i].1, diff)];
      values' := values'[k := rs[i].1];
      if diff.Some? {
        text := ReplaceStr(text, rs[i].0 + 1, DpMsgq.Signed(diff.value));
      }
    }
    assert rs[..|rs|] == rs;
  }

  /** The body of the main loop. */
  method Feed(cmd: string, skip: nat, values: map<Key, nat>, ghost log: seq<Event>, out: seq<Printed>, line: string, full: bool)
    returns (cmd': string, skip': nat, values': map<Key, nat>, ghost log': seq<Event>, out': seq<Printed>)
    ensures Step(State(cmd, skip, Counters(values, log), out), line, full) == State(cmd', skip', Counters(values', log'), out')
  {
    cmd', skip', values', log', out' := cmd, skip, values, log, out;
    var l := Text.RStrip(line);
    if skip > 0 {
      skip', out' := skip - 1, out + [Printed(l, Plain)];
      return;
    }
    if Text.StartsWith(l, "Output Time:") {
      out' := out + [Printed(l, Plain)];
      return;
    }
    var m := PromptSearch(l, 0);
    if m.Some? {
      cmd' := Text.Strip(l[m.value.1..]);
      if Text.Contains(cmd', "show clock") {
        cmd', skip', out' := "", 2, out + [Printed(l, Plain)];
      } else if Supported(cmd') {
        out' := out + [Printed("", Plain), Printed(l, Cyan)];
      } else {
        cmd' := "";
      }
      return;
    }
    if cmd == "" {
      return;
    }
    if cmd == Radius {
      var p := MultiParam(l);
      if p.Some? {
        var text;
        values', text, log' := ReadLineRuns(values, log, cmd, l[..p.value], l, RunsFrom(l, p.value));
        out' := out + [Printed(text, Plain)];
      } else if full {
        out' := out + [Printed(l, Plain)];
      }
      return;
    }
    var pv := CounterLine(l);
    if pv.Some? {
      var k := Single(cmd, pv.value.0);
      var stored := Tally.Get(values, k);
      var diff: Option<int> := if stored == 0 then None else Some(pv.value.1 as int - stored);
      log' := log + [Event(k, pv.value.1, diff)];
      values' := values[k := pv.value.1];
      out' := out + [CounterRow(l, pv.value.0, diff)];
    } else {
      out' := out + [Printed(l, Plain)];
    }
  }

  /** The main loop over the input lines: what it prints. */
  method Run(lines: seq<string>, full: bool) returns (out: seq<Printed>)
    ensures out == Steps(lines, full).out
  {
    var cmd := "";
    var skip: nat := 0;
    var values: map<Key, nat> := map[];
    ghost var log: seq<Event> := [];
    out := [];
    for i := 0 to |lines|
      invariant Steps(lines[..i], full) == State(cmd, skip, Counters(values, log), out)
    {
      assert lines[..i + 1][..i] == lines[..i];
      cmd, skip, values, log, out := Feed(cmd, skip, values, log, out, lines[i], full);
    }
    assert lines[..|lines|] == lines;
  }
}

/**
 * What the shown differences mean, which commands are tracked, which lines
 * are highlighted, and that the two counter-line patterns read back what
 * they match.
 */
module DifRadioStatsFacts {
  import opened Wrappers
  import Text
  import Tally
  import MonitorRows
  import DpMsgq
  import DpMsgqFacts
  import opened DifRadioStats

  // ---- the counters ----

  /** The latest reading of counter `k` in the log, 0 before the first. */
  function LastValue(log: seq<Event>, k: Key): nat
  {
    if log == [] then 0
    else if log[|log| - 1].key == k then log[|log| - 1].value
    else LastValue(log[..|log| - 1], k)
  }

  /**
   * Every shown difference is the reading minus the previous reading of
   * the same counter, and none is shown exactly when that previous reading
   * is 0 (or there is none).
   */
  predicate Coherent(log: seq<Event>)
  {
    forall i :: 0 <= i < |log| ==>
      log[i].diff == Diff(LastValue(log[..i], log[i].key), log[i].value)
  }

  /** The stored value of every counter is its latest reading. */
  ghost predicate CountersOk(c: Counters)
  {
    Coherent(c.log) && forall k :: Tally.Get(c.values, k) == LastValue(c.log, k)
  }

  lemma {:induction false} ReadOk(c: Counters, k: Key, v: nat)
    requires CountersOk(c)
    ensures CountersOk(Read(c, k, v))
  {
    var c' := Read(c, k, v);
    assert c'.log[..|c.log|] == c.log;
    forall i | 0 <= i < |c'.log|
      ensures c'.log[i].diff == Diff(LastValue(c'.log[..i], c'.log[i].key), c'.log[i].value)
    {
      if i < |c.log| {
        assert c'.log[..i] == c.log[..i];
      }
    }
  }

  lemma {:induction false} ReadRunsOk(c: Counters, cmd: string, param: string, l: string, rs: seq<(nat, nat)>)
    requires CountersOk(c)
    ensures CountersOk(ReadRuns(c, cmd, param, l, rs).c)
    decreases |rs|
  {
    if rs != [] {
      var pre := rs[..|rs| - 1];
      ReadRunsOk(c, cmd, param, l, pre);
      ReadOk(ReadRuns(c, cmd, param, l, pre).c, Multi(cmd, param, |rs| - 1), rs[|rs| - 1].1);
    }
  }

  lemma {:induction false} StepOk(st: State, line: string, full: bool)
    requires CountersOk(st.c)
    ensures CountersOk(Step(st, line, full).c)
  {
    var l := Text.RStrip(line);
    if st.skip == 0 && !Text.StartsWith(l, "Output Time:") && PromptSearch(l, 0).None? && st.cmd != "" {
      if st.cmd == Radius {
        if MultiParam(l).Some? {
          var p := MultiParam(l).value;
          ReadRunsOk(st.c, st.cmd, l[..p], l, RunsFrom(l, p));
        }
      } else if CounterLine(l).Some? {
        ReadOk(st.c, Single(st.cmd, CounterLine(l).value.0), CounterLine(l).value.1);
      }
    }
  }

  lemma {:induction false} StepsOk(lines: seq<string>, full: bool)
    ensures CountersOk(Steps(lines, full).c)
    decreases |lines|
  {
    if lines != [] {
      var pre := lines[..|lines| - 1];
      StepsOk(pre, full);
      StepOk(Steps(pre, full), lines[|lines| - 1], full);
    }
  }

  /**
   * After any run, every counter holds its latest reading, and every
   * shown difference is a reading minus the previous nonzero reading of
   * that counter.
   */
  lemma {:induction false} ShownDiffs(lines: seq<string>, full: bool, k: Key)
    ensures var c := Steps(lines, full).c;
      Coherent(c.log) && Tally.Get(c.values, k) == LastValue(c.log, k)
  {
    StepsOk(lines, full);
  }

  /** The numbers of a multi-column line are stored under their positions 0, 1, 2, ... */
  lemma {:induction false} ReadRunsStores(c: Counters, cmd: string, param: string, l: string, rs: seq<(nat, nat)>, i: nat)
    requires i < |rs|
    ensures Tally.Get(ReadRuns(c, cmd, param, l, rs).c.values, Multi(cmd, param, i)) == rs[i].1
    decreases |rs|
  {
    if i < |rs| - 1 {
      ReadRunsStores(c, cmd, param, l, rs[..|rs| - 1], i);
    }
  }

  /** A difference is written only after the parameter, so the line keeps its parameter. */
  lemma {:induction false} ReadRunsKeeps(c: Counters, cmd: string, param: string, l: string, rs: seq<(nat, nat)>, p: nat)
    requires p <= |l| && forall j :: 0 <= j < |rs| ==> p <= rs[j].0
    ensures var t := ReadRuns(c, cmd, param, l, rs).text; |l| <= |t| && t[..p] == l[..p]
    decreases |rs|
  {
    if rs != [] {
      ReadRunsKeeps(c, cmd, param, l, rs[..|rs| - 1], p);
    }
  }

  // ---- the commands ----

  /** What `cmd` and `skip_lines` can hold between lines. */
  predicate CmdOk(st: State)
  {
    (st.cmd == "" || (Supported(st.cmd) && !Text.Contains(st.cmd, "show clock"))) && st.skip <= 2
  }

  /**
   * The tracked command is always empty or a supported command that is
   * not 'show clock', and at most two lines are passed through.
   */
  lemma {:induction false} StepsCmd(lines: seq<string>, full: bool)
    ensures CmdOk(Steps(lines, full))
    decreases |lines|
  {
    if lines != [] {
      StepsCmd(lines[..|lines| - 1], full);
    }
  }

  /** A prompt ends the previous command: the new one is the text after the prompt if supported, else none. */
  lemma {:induction false} PromptSetsCmd(st: State, line: string, full: bool)
    requires var l := Text.RStrip(line);
      st.skip == 0 && !Text.StartsWith(l, "Output Time:") && PromptSearch(l, 0).Some?
    ensures var l := Text.RStrip(line);
      var cmd := Text.Strip(l[PromptSearch(l, 0).value.1..]);
      var st' := Step(st, line, full);
      && st'.c == st.c
      && st'.cmd == (if Supported(cmd) && !Text.Contains(cmd, "show clock") then cmd else "")
      && st'.skip == (if Text.Contains(cmd, "show clock") then 2 else 0)
  {
  }

  /** A 'show clock' prompt line and the two lines after it are printed as they are, and nothing else changes. */
  lemma {:induction false} ClockPassThrough(st: State, a: string, b: string, c: string, full: bool)
    requires var l := Text.RStrip(a);
      && st.skip == 0 && !Text.StartsWith(l, "Output Time:") && PromptSearch(l, 0).Some?
      && Text.Contains(Text.Strip(l[PromptSearch(l, 0).value.1..]), "show clock")
    ensures var st' := Step(Step(Step(st, a, full), b, full), c, full);
      && st'.out == st.out + [Printed(Text.RStrip(a), Plain), Printed(Text.RStrip(b), Plain), Printed(Text.RStrip(c), Plain)]
      && st'.c == st.c && st'.cmd == "" && st'.skip == 0
  {
    var s1 := Step(st, a, full);
    assert s1 == st.(cmd := "", skip := 2, out := st.out + [Printed(Text.RStrip(a), Plain)]);
    var s2 := Step(s1, b, full);
    assert s2 == s1.(skip := 1, out := s1.out + [Printed(Text.RStrip(b), Plain)]);
  }

  // ---- the highlight ----

  predicate HasAlert(ps: seq<Printed>)
  {
    exists i :: 0 <= i < |ps| && ps[i].colour == BrightRed
  }

  lemma {:induction false} NoAlertAppend(a: seq<Printed>, b: seq<Printed>)
    requires !HasAlert(a) && forall i :: 0 <= i < |b| ==> b[i].colour != BrightRed
    ensures !HasAlert(a + b)
  {
    forall i | 0 <= i < |a + b|
      ensures (a + b)[i].colour != BrightRed
    {
      if i >= |a| {
        assert (a + b)[i] == b[i - |a|];
      }
    }
  }

  /** The line is a single-column counter line of the tracked command. */
  predicate CounterCase(st: State, l: string)
  {
    && st.skip == 0 && !Text.StartsWith(l, "Output Time:") && PromptSearch(l, 0).None?
    && st.cmd != "" && st.cmd != Radius && CounterLine(l).Some?
  }

  /** Every line adds its printed lines after those already printed. */
  lemma {:induction false} StepAppends(st: State, line: string, full: bool)
    ensures var out := Step(st, line, full).out; |st.out| <= |out| && out[..|st.out|] == st.out
  {
    var l := Text.RStrip(line);
    if st.skip == 0 && !Text.StartsWith(l, "Output Time:") && PromptSearch(l, 0).None? && st.cmd == Radius && MultiParam(l).Some? {
      var p := MultiParam(l).value;
      var t := ReadRuns(st.c, st.cmd, l[..p], l, RunsFrom(l, p)).text;
      assert Step(st, line, full).out == st.out + [Printed(t, Plain)];
    }
  }

  /** No line other than a counter line is printed in bright red. */
  lemma {:induction false} OtherLinesPlain(st: State, line: string, full: bool)
    requires !HasAlert(st.out) && !CounterCase(st, Text.RStrip(line))
    ensures !HasAlert(Step(st, line, full).out)
  {
    var l := Text.RStrip(line);
    var st' := Step(st, line, full);
    if st.skip > 0 || Text.StartsWith(l, "Output Time:") {
      NoAlertAppend(st.out, [Printed(l, Plain)]);
    } else if PromptSearch(l, 0).Some? {
      var cmd := Text.Strip(l[PromptSearch(l, 0).value.1..]);
      if Text.Contains(cmd, "show clock") {
        NoAlertAppend(st.out, [Printed(l, Plain)]);
      } else if Supported(cmd) {
        NoAlertAppend(st.out, [Printed("", Plain), Printed(l, Cyan)]);
      }
    } else if st.cmd == Radius {
      if MultiParam(l).Some? {
        var p := MultiParam(l).value;
        var t := ReadRuns(st.c, st.cmd, l[..p], l, RunsFrom(l, p)).text;
        assert st'.out == st.out + [Printed(t, Plain)];
        NoAlertAppend(st.out, [Printed(t, Plain)]);
      } else if full {
        NoAlertAppend(st.out, [Printed(l, Plain)]);
      }
    } else if st.cmd != "" {
      NoAlertAppend(st.out, [Printed(l, Plain)]);
    }
  }

  /**
   * A line is printed in bright red exactly when it is a counter line
   * whose parameter mentions an error, failure, drop, reject or timeout
   * and whose counter, already nonzero, went up.
   */
  lemma {:induction false} AlertIff(st: State, line: string, full: bool)
    requires !HasAlert(st.out)
    ensures var l := Text.RStrip(line);
      HasAlert(Step(st, line, full).out) <==>
        && CounterCase(st, l)
        && var pv := CounterLine(l).value;
           var stored := Tally.Get(st.c.values, Single(st.cmd, pv.0));
           Alarming(pv.0) && stored != 0 && pv.1 > stored
  {
    var l := Text.RStrip(line);
    if CounterCase(st, l) {
      var pv := CounterLine(l).value;
      var row := CounterRow(l, pv.0, Reported(st.c, Single(st.cmd, pv.0), pv.1));
      var out := Step(st, line, full).out;
      assert out == st.out + [row];
      if HasAlert(out) {
        var i :| 0 <= i < |out| && out[i].colour == BrightRed;
        assert i == |st.out|;
      } else {
        assert out[|st.out|] == row;
      }
    } else {
      OtherLinesPlain(st, line, full);
    }
  }

  // ---- reading back ----

  lemma {:induction false} DigitsBackAt(s: string, i: nat, j: nat)
    requires i <= j <= |s| && Text.AllDigits(s[i..j]) && (i == 0 || !Text.IsDigit(s[i - 1]))
    ensures DigitsBack(s, j) == i
    decreases j
  {
    if i < j {
      assert Text.IsDigit(s[i..j][j - 1 - i]);
      assert s[i..j - 1] == s[i..j][..j - 1 - i];
      DigitsBackAt(s, i, j - 1);
    }
  }

  /** The counter-line pattern reads back any parameter and number it is given, whatever the parameter ends with. */
  lemma {:induction false} CounterLineOf(param: string, v: nat)
    requires |param| >= 1
    ensures CounterLine(param + "  " + Text.NatToStr(v)) == Some((param, v))
  {
    var n := Text.NatToStr(v);
    var l := param + "  " + n;
    var d := |param| + 2;
    assert l[d..] == n;
    DigitsBackAt(l, d, |l|);
    assert l[..d - 2] == param;
  }

  /** The numbers of a multi-column line, each after one blank. */
  function Cols(nums: seq<nat>): string
  {
    if nums == [] then "" else " " + Text.NatToStr(nums[0]) + Cols(nums[1..])
  }

  lemma {:induction false} ColsChars(nums: seq<nat>)
    ensures forall k :: 0 <= k < |Cols(nums)| ==> Cols(nums)[k] == ' ' || Text.IsDigit(Cols(nums)[k])
    ensures nums != [] ==> |Cols(nums)| >= 2 && Cols(nums)[0] == ' ' && Text.IsDigit(Cols(nums)[|Cols(nums)| - 1])
    decreases |nums|
  {
    if nums != [] {
      ColsChars(nums[1..]);
      var n := Text.NatToStr(nums[0]);
      var c := Cols(nums);
      assert c == " " + n + Cols(nums[1..]);
      forall k | 0 <= k < |c|
        ensures c[k] == ' ' || Text.IsDigit(c[k])
      {
        if 1 <= k < 1 + |n| {
          assert c[k] == n[k - 1];
        } else if k >= 1 + |n| {
          assert c[k] == Cols(nums[1..])[k - 1 - |n|];
        }
      }
      if nums[1..] == [] {
        assert c[|c| - 1] == n[|n| - 1];
      } else {
        assert c[|c| - 1] == Cols(nums[1..])[|Cols(nums[1..])| - 1];
      }
    }
  }

  /** The runs of digits after `s` are the numbers, in order. */
  lemma {:induction false} RunsOfCols(s: string, nums: seq<nat>)
    ensures var rs := RunsFrom(s + Cols(nums), |s|);
      |rs| == |nums| && forall i :: 0 <= i < |rs| ==> rs[i].1 == nums[i]
    decreases |nums|
  {
    var l := s + Cols(nums);
    if nums == [] {
      assert l == s;
    } else {
      var n := Text.NatToStr(nums[0]);
      var s' := s + " " + n;
      assert l == s' + Cols(nums[1..]);
      assert l[|s|] == ' ' && l[|s| + 1] == n[0];
      ColsChars(nums[1..]);
      forall k | |s| + 1 <= k < |s'|
        ensures Text.IsDigit(l[k])
      {
        assert l[k] == n[k - |s| - 1];
      }
      if nums[1..] != [] {
        assert l[|s'|] == Cols(nums[1..])[0];
      }
      DpMsgqFacts.DigitsEndAt(l, |s| + 1, |s'|);
      assert l[|s| + 1..|s'|] == n;
      RunsOfCols(s', nums[1..]);
    }
  }

  lemma {:induction false} ParamFromAt(l: string, p: nat, q: nat)
    requires 1 <= p <= q < |l| && TailOk(l, q)
    requires forall k :: p - 1 <= k < q ==> IsParamChar(l[k])
    requires forall x :: p <= x < q ==> !TailOk(l, x)
    ensures ParamFrom(l, p) == Some(q)
    decreases q - p
  {
    if p < q {
      ParamFromAt(l, p + 1, q);
    }
  }

  /**
   * The multi-column pattern reads back a parameter followed by two or
   * more numbers, each after a blank, provided the parameter does not
   * itself end in a blank or a digit (the lazy group stops at the first
   * place the numbers can start).
   */
  lemma {:induction false} MultiLineOf(param: string, nums: seq<nat>)
    requires |param| >= 1 && |nums| >= 2
    requires forall k :: 0 <= k < |param| ==> IsParamChar(param[k])
    requires param[|param| - 1] != ' ' && !Text.IsDigit(param[|param| - 1])
    ensures var l := param + Cols(nums);
      && MultiParam(l) == Some(|param|)
      && |RunsFrom(l, |param|)| == |nums|
      && forall i :: 0 <= i < |nums| ==> RunsFrom(l, |param|)[i].1 == nums[i]
  {
    var l := param + Cols(nums);
    var p := |param|;
    ColsChars(nums);
    ColsChars(nums[1..]);
    var n := Text.NatToStr(nums[0]);
    assert Cols(nums) == " " + n + Cols(nums[1..]);
    forall k | p <= k < |l|
      ensures l[k] == ' ' || Text.IsDigit(l[k])
    {
      assert l[k] == Cols(nums)[k - p];
    }
    var j := p + 1 + |n|;
    assert l[j] == Cols(nums[1..])[0];
    assert l[j - 1] == n[|n| - 1];
    assert l[|l| - 1] == Cols(nums)[|Cols(nums)| - 1];
    assert TailOk(l, p);
    forall x | 1 <= x < p
      ensures !TailOk(l, x)
    {
      assert l[p - 1] == param[p - 1];
    }
    forall k | 0 <= k < p
      ensures IsParamChar(l[k])
    {
      assert l[k] == param[k];
    }
    ParamFromAt(l, 1, p);
    RunsOfCols(param, nums);
  }
}
