/**
 * dp-msgq.py: reads the output of 'show datapath message-queue counters'
 * and of the datapath papi counters, and prints under every counter line
 * how far each counter moved since its previous reading.
 *
 * A message-queue counter is identified by (cpu, opcode, column), a papi
 * counter by (cpu, description); both dicts of the script are one map over
 * `Key` here.  The specification state also keeps a log of every reading
 * and the difference reported for it, so that what the reported
 * differences mean can be stated over the whole run.
 */
module DpMsgq {
  import opened Wrappers
  import Text
  import Tally
  import MonitorRows

  datatype Key = Queue(cpu: string, opcode: string, pos: nat) | Papi(cpu: string, desc: string)

  /** One reading of a counter, and the difference reported for it. */
  datatype Event = Event(key: Key, value: nat, diff: int)

  /** `ctr`/`ctr2` (a missing key reads 0) and the history of readings. */
  datatype Counters = Counters(values: map<Key, nat>, log: seq<Event>)

  /** The script's state between lines: the current `cpu`, the counters, the printed lines. */
  datatype State = State(cpu: Option<string>, c: Counters, out: seq<string>)

  /** A message-queue line before any cpu was read: the NameError on `cpu`. */
  datatype Failure = NoCpu

  /** A papi line: the cpu cell, the description and the counter value. */
  datatype PapiReading = PapiReading(cpu: string, desc: string, value: nat)

  // ---- the three line patterns ----

  predicate IsLowHex(c: char) { Text.IsDigit(c) || 'a' <= c <= 'f' }

  /** `[\w/]`: the characters of an opcode. */
  predicate IsOpcodeChar(c: char) { MonitorRows.IsWord(c, false) || c == '/' }

  /** `[\w,\. -]`: the characters of a papi description. */
  predicate IsDescChar(c: char) { MonitorRows.IsWord(c, true) || c == ',' || c == '.' || c == ' ' }

  /** The end of the run of blanks starting at `i`. */
  function BlankEnd(s: string, i: nat): (j: nat)
    requires i <= |s|
    ensures i <= j <= |s| && (j == |s| || s[j] != ' ')
    ensures forall k :: i <= k < j ==> s[k] == ' '
    decreases |s| - i
  {
    if i < |s| && s[i] == ' ' then BlankEnd(s, i + 1) else i
  }

  /** The end of the run of opcode characters starting at `i`. */
  function OpcodeEnd(s: string, i: nat): (j: nat)
    requires i <= |s|
    ensures i <= j <= |s| && (j == |s| || !IsOpcodeChar(s[j]))
    ensures forall k :: i <= k < j ==> IsOpcodeChar(s[k])
    decreases |s| - i
  {
    if i < |s| && IsOpcodeChar(s[i]) then OpcodeEnd(s, i + 1) else i
  }

  /** `re.match(r'Cpu--> +(\d+)', l)`: the cpu number. */
  function CpuLine(l: string): (r: Option<string>)
    ensures r.Some? ==> Text.StartsWith(l, "Cpu-->") && |r.value| > 0 && Text.AllDigits(r.value)
  {
    if !Text.StartsWith(l, "Cpu-->") then None
    else
      var s := BlankEnd(l, 6);
      var d := MonitorRows.DigitsEnd(l, s);
      if s == 6 || d == s then None else Some(l[s..d])
  }

  /** `re.match(r'([\w/]+) +[0-9a-f]{8}', l)`: the opcode of a message-queue line. */
  function QueueLine(l: string): (r: Option<string>)
    ensures r.Some? ==> |r.value| > 0 && Text.StartsWith(l, r.value)
  {
    var o := OpcodeEnd(l, 0);
    var s := BlankEnd(l, o);
    if o == 0 || s == o || s + 8 > |l| then None
    else if forall k :: s <= k < s + 8 ==> IsLowHex(l[k]) then Some(l[..o])
    else None
  }

  /** The value of the digits, spaces and " |" that end a papi line from `j` on. */
  function PapiTail(l: string, j: nat): (r: Option<nat>)
    requires j <= |l|
  {
    var e := BlankEnd(l, j);
    var d := MonitorRows.DigitsEnd(l, e);
    if e == j || d == e || d + 2 > |l| || l[d] != ' ' || l[d + 1] != '|' then None
    else Some(Text.DigitsValue(l[e..d], 10))
  }

  /**
   * The lazy `([\w,\. -]+?)` from column 15: the first end `j`, trying
   * `from` onwards, up to which all characters are description
   * characters and after which the rest of the pattern matches.
   */
  function DescEnd(l: string, from: nat): (r: Option<nat>)
    requires 16 <= from
    ensures r.Some? ==> from <= r.value <= |l| && PapiTail(l, r.value).Some?
    ensures r.Some? ==> forall k :: from - 1 <= k < r.value ==> IsDescChar(l[k])
    ensures r.Some? ==> forall j :: from <= j < r.value ==> PapiTail(l, j).None?
    decreases |l| - from
  {
    if from > |l| || !IsDescChar(l[from - 1]) then None
    else if PapiTail(l, from).Some? then Some(from)
    else DescEnd(l, from + 1)
  }

  /** `(\d\d|G |  )`: the cpu cell of a papi line. */
  predicate CpuCell(c: string)
  {
    |c| == 2 && ((Text.IsDigit(c[0]) && Text.IsDigit(c[1])) || c == "G " || c == "  ")
  }

  /** The fixed start `| cc | [ddd] | ` of a papi line. */
  predicate PapiHead(h: string)
  {
    && |h| == 15 && h[..2] == "| " && CpuCell(h[2..4]) && h[4..7] == " | "
    && h[7] == '[' && Text.AllDigits(h[8..11]) && h[11] == ']' && h[12..15] == " | "
  }

  predicate PapiPrefix(l: string)
  {
    |l| >= 16 && PapiHead(l[..15])
  }

  /** `re.match(r'\| (\d\d|G |  ) \| \[\d\d\d\] \| ([\w,\. -]+?) +(\d+) \|', l)`. */
  function PapiLine(l: string): (r: Option<PapiReading>)
    ensures r.Some? ==> PapiPrefix(l) && r.value.cpu == l[2..4] && CpuCell(r.value.cpu)
    ensures r.Some? ==> |r.value.desc| > 0 && Text.StartsWith(l[15..], r.value.desc)
    ensures r.Some? ==> PapiTail(l, 15 + |r.value.desc|) == Some(r.value.value)
  {
    if !PapiPrefix(l) then None
    else match DescEnd(l, 16)
      case None => None
      case Some(e) => Some(PapiReading(l[2..4], l[15..e], PapiTail(l, e).value))
  }

  // ---- the 8-digit fields of a message-queue line ----

  /** `' [0-9a-f]{8}'` matches at column `p`. */
  predicate FieldAt(l: string, p: nat)
  {
    p + 9 <= |l| && l[p] == ' ' && forall k :: p + 1 <= k < p + 9 ==> IsLowHex(l[k])
  }

  /** `int(m.group(0), 16)`: the value of the eight digits after column `p`. */
  function FieldValue(l: string, p: nat): nat
    requires FieldAt(l, p)
  {
    var s := l[p + 1..p + 9];
    assert forall k :: 0 <= k < |s| ==> s[k] == l[p + 1 + k];
    Text.DigitsValue(s, 16)
  }

  /**
   * `re.finditer(r' [0-9a-f]{8}', l)` from column `p`: (column of the
   * digits, value) for each non-overlapping match, left to right.
   */
  function FieldsFrom(l: string, p: nat): (fs: seq<(nat, nat)>)
    ensures forall i :: 0 <= i < |fs| ==> p + 1 <= fs[i].0 && FieldAt(l, fs[i].0 - 1) && fs[i].1 == FieldValue(l, fs[i].0 - 1)
    ensures forall i, j :: 0 <= i < j < |fs| ==> fs[i].0 + 9 <= fs[j].0
    decreases |l| - p
  {
    if p + 9 > |l| then []
    else if FieldAt(l, p) then
      var rest := FieldsFrom(l, p + 9);
      FieldsCons(l, p, rest);
      [(p + 1, FieldValue(l, p))] + rest
    else FieldsFrom(l, p + 1)
  }

  /** A match at `p` followed by the matches from `p + 9` keeps the scan's order and spacing. */
  lemma {:induction false} FieldsCons(l: string, p: nat, rest: seq<(nat, nat)>)
    requires FieldAt(l, p)
    requires forall i :: 0 <= i < |rest| ==> p + 10 <= rest[i].0 && FieldAt(l, rest[i].0 - 1) && rest[i].1 == FieldValue(l, rest[i].0 - 1)
    requires forall i, j :: 0 <= i < j < |rest| ==> rest[i].0 + 9 <= rest[j].0
    ensures var fs := [(p + 1, FieldValue(l, p))] + rest;
      (forall i :: 0 <= i < |fs| ==> p + 1 <= fs[i].0 && FieldAt(l, fs[i].0 - 1) && fs[i].1 == FieldValue(l, fs[i].0 - 1))
      && forall i, j :: 0 <= i < j < |fs| ==> fs[i].0 + 9 <= fs[j].0
  {
    var fs := [(p + 1, FieldValue(l, p))] + rest;
    assert forall i :: 1 <= i < |fs| ==> fs[i] == rest[i - 1];
  }

  function Fields(l: string): seq<(nat, nat)>
  {
    FieldsFrom(l, 0)
  }

  /** The scan does not miss a match that starts at or after where it starts. */
  lemma {:induction false} FieldsFound(l: string, p: nat, q: nat)
    requires p <= q && FieldAt(l, q)
    ensures FieldsFrom(l, p) != []
    decreases |l| - p
  {
    if !FieldAt(l, p) {
      FieldsFound(l, p + 1, q);
    }
  }

  /** A message-queue line has at least one field: the one after the opcode. */
  lemma {:induction false} QueueLineHasField(l: string)
    requires QueueLine(l).Some?
    ensures Fields(l) != []
  {
    var o := OpcodeEnd(l, 0);
    var s := BlankEnd(l, o);
    assert FieldAt(l, s - 1);
    FieldsFound(l, 0, s - 1);
  }

  // ---- the counters ----

  /** `diff = val - ctr[key]; ctr[key] = val`, with the reading logged. */
  function Read(c: Counters, k: Key, v: nat): Counters
  {
    Counters(c.values[k := v], c.log + [Event(k, v, v - Tally.Get(c.values, k))])
  }

  /** What reading the fields of one message-queue line leaves: the counters and `diff` in column order. */
  datatype Scan = Scan(c: Counters, ds: seq<(nat, int)>)

  function ReadFields(c: Counters, cpu: string, op: string, fs: seq<(nat, nat)>): (r: Scan)
    ensures |r.ds| == |fs|
  {
    if fs == [] then Scan(c, [])
    else
      var s := ReadFields(c, cpu, op, fs[..|fs| - 1]);
      var f := fs[|fs| - 1];
      Scan(Read(s.c, Queue(cpu, op, f.0), f.1), s.ds + [(f.0, f.1 - Tally.Get(s.c.values, Queue(cpu, op, f.0)))])
  }

  // ---- the diff line ----

  function Spaces(n: int): (r: string)
    ensures |r| == if n <= 0 then 0 else n
    ensures forall k :: 0 <= k < |r| ==> r[k] == ' '
  {
    if n <= 0 then [] else seq(n, _ => ' ')
  }

  /** `f'{d:+}'`: the difference with its sign, '+' for zero too. */
  function Signed(d: int): (r: string)
    ensures |r| >= 2 && (r[0] == '+' || r[0] == '-') && Text.IsDigit(r[|r| - 1])
  {
    (if d < 0 then "-" else "+") + Text.NatToStr(if d < 0 then -d else d)
  }

  /** `f'{d:>+8}'`: signed, right-aligned in 8 characters. */
  function Field(d: int): string
  {
    Spaces(8 - |Signed(d)|) + Signed(d)
  }

  /**
   * `Ses += ' ' * (pos - len(Ses)); Ses += f'{val:>+8}'`: the text so far
   * is kept, and the difference starts at its column or right after it.
   */
  function Put(s: string, d: (nat, int)): string
  {
    s + Spaces(d.0 - |s|) + Field(d.1)
  }

  /** `Ses`: each difference placed at its column, or right after the previous one. */
  function Aligned(ds: seq<(nat, int)>): string
  {
    if ds == [] then "" else Put(Aligned(ds[..|ds| - 1]), ds[|ds| - 1])
  }

  // ---- the script ----

  /** One (unstripped) input line. */
  function Step(st: State, line: string, full: bool): Result<State, Failure>
  {
    var l := Text.RStrip(line);
    match CpuLine(l)
    case Some(n) => Ok(st.(cpu := Some(n), out := st.out + [l]))
    case None =>
      match QueueLine(l)
      case Some(op) =>
        if st.cpu.None? then Err(NoCpu)
        else
          var s := ReadFields(st.c, st.cpu.value, op, Fields(l));
          Ok(st.(c := s.c, out := st.out + [l, Aligned(s.ds)]))
      case None =>
        match PapiLine(l)
        case Some(p) =>
          var k := Papi(p.cpu, p.desc);
          Ok(State(Some(p.cpu), Read(st.c, k, p.value), st.out + [l + " " + Signed(p.value - Tally.Get(st.c.values, k))]))
        case None =>
          Ok(if full then st.(out := st.out + [l]) else st)
  }

  const Start := State(None, Counters(map[], []), [])

  /** The state after the lines, or the failure that stopped the script. */
  function Steps(lines: seq<string>, full: bool): Result<State, Failure>
  {
    if lines == [] then Ok(Start)
    else match Steps(lines[..|lines| - 1], full)
      case Err(f) => Err(f)
      case Ok(st) => Step(st, lines[|lines| - 1], full)
  }

  /** The printed lines. */
  function MsgQ(lines: seq<string>, full: bool): Result<seq<string>, Failure>
  {
    match Steps(lines, full)
    case Err(f) => Err(f)
    case Ok(st) => Ok(st.out)
  }

  /** Once a line has failed, the script has stopped: later lines change nothing. */
  lemma {:induction false} StepsStop(lines: seq<string>, i: nat, full: bool)
    requires i <= |lines| && Steps(lines[..i], full).Err?
    ensures Steps(lines, full) == Steps(lines[..i], full)
    decreases |lines|
  {
    if i < |lines| {
      var pre := lines[..|lines| - 1];
      assert pre[..i] == lines[..i];
      StepsStop(pre, i, full);
    } else {
      assert lines[..i] == lines;
    }
  }

  // ---- the loops ----

  /** The inner `finditer` loop: reads each field into the counters. */
  method ReadLineFields(values: map<Key, nat>, ghost log: seq<Event>, cpu: string, op: string, fs: seq<(nat, nat)>)
    returns (values': map<Key, nat>, ds: seq<(nat, int)>, ghost log': seq<Event>)
    ensures ReadFields(Counters(values, log), cpu, op, fs) == Scan(Counters(values', log'), ds)
  {
    values', ds, log' := values, [], log;
    for i := 0 to |fs|
      invariant ReadFields(Counters(values, log), cpu, op, fs[..i]) == Scan(Counters(values', log'), ds)
    {
      assert fs[..i + 1][..i] == fs[..i];
      var k := Queue(cpu, op, fs[i].0);
      var prev := Tally.Get(values', k);
      var diff := fs[i].1 as int - prev;
      ds := ds + [(fs[i].0, diff)];
      log' := log' + [Event(k, fs[i].1, diff)];
      values' := values'[k := fs[i].1];
    }
    assert fs[..|fs|] == fs;
  }

  /** The `Ses` loop. */
  lemma {:induction false} AlignedSnoc(ds: seq<(nat, int)>, i: nat)
    requires i < |ds|
    ensures Aligned(ds[..i + 1]) == Put(Aligned(ds[..i]), ds[i])
  {
    assert ds[..i + 1][..i] == ds[..i];
  }

  method Align(ds: seq<(nat, int)>) returns (ses: string)
    ensures ses == Aligned(ds)
  {
    ses := "";
    for i := 0 to |ds|
      invariant ses == Aligned(ds[..i])
    {
      AlignedSnoc(ds, i);
      ses := Put(ses, ds[i]);
    }
    assert ds[..|ds|] == ds;
  }

  /** The body of the main loop. */
  method Feed(cpu: Option<string>, values: map<Key, nat>, ghost log: seq<Event>, out: seq<string>, line: string, full: bool)
    returns (r: Result<(Option<string>, map<Key, nat>, seq<string>), Failure>, ghost log': seq<Event>)
    ensures Step(State(cpu, Counters(values, log), out), line, full).Err? ==>
      r == Err(Step(State(cpu, Counters(values, log), out), line, full).error)
    ensures Step(State(cpu, Counters(values, log), out), line, full).Ok? ==>
      var st := Step(State(cpu, Counters(values, log), out), line, full).value;
      r == Ok((st.cpu, st.c.values, st.out)) && log' == st.c.log
  {
    log' := log;
    var l := Text.RStrip(line);
    var n := CpuLine(l);
    if n.Some? {
      return Ok((n, values, out + [l])), log';
    }
    var op := QueueLine(l);
    if op.Some? {
      if cpu.None? {
        return Err(NoCpu), log';
      }
      var values', ds;
      values', ds, log' := ReadLineFields(values, log, cpu.value, op.value, Fields(l));
      var ses := Align(ds);
      return Ok((cpu, values', out + [l, ses])), log';
    }
    var p := PapiLine(l);
    if p.Some? {
      var k := Papi(p.value.cpu, p.value.desc);
      var diff := p.value.value - Tally.Get(values, k);
      log' := log + [Event(k, p.value.value, diff)];
      return Ok((Some(p.value.cpu), values[k := p.value.value], out + [l + " " + Signed(diff)])), log';
    }
    if full {
      return Ok((cpu, values, out + [l])), log';
    }
    return Ok((cpu, values, out)), log';
  }

  /** The main loop over the input lines. */
  method Run(lines: seq<string>, full: bool) returns (r: Result<seq<string>, Failure>)
    ensures r == MsgQ(lines, full)
  {
    var cpu: Option<string> := None;
    var values: map<Key, nat> := map[];
    ghost var log: seq<Event> := [];
    var out: seq<string> := [];
    for i := 0 to |lines|
      invariant Steps(lines[..i], full) == Ok(State(cpu, Counters(values, log), out))
    {
      assert lines[..i + 1][..i] == lines[..i];
      var fed;
      fed, log := Feed(cpu, values, log, out, lines[i], full);
      if fed.Err? {
        StepsStop(lines, i + 1, full);
        return Err(fed.error);
      }
      cpu, values, out := fed.value.0, fed.value.1, fed.value.2;
    }
    assert lines[..|lines|] == lines;
    return Ok(out);
  }
}

/**
 * What the reported differences mean, where the diff line puts them, and
 * that the three line patterns read back what they match.
 */
module DpMsgqFacts {
  import opened Wrappers
  import Text
  import Tally
  import MonitorRows
  import opened DpMsgq

  // ---- differences and readings ----

  /** The latest reading of counter `k` in the log, 0 before the first. */
  function LastValue(log: seq<Event>, k: Key): nat
  {
    if log == [] then 0
    else if log[|log| - 1].key == k then log[|log| - 1].value
    else LastValue(log[..|log| - 1], k)
  }

  /** The sum of the differences reported for counter `k`. */
  function SumDiffs(log: seq<Event>, k: Key): int
  {
    if log == [] then 0
    else SumDiffs(log[..|log| - 1], k) + (if log[|log| - 1].key == k then log[|log| - 1].diff else 0)
  }

  /** Every reported difference is the reading minus the previous reading of the same counter. */
  predicate Coherent(log: seq<Event>)
  {
    forall i :: 0 <= i < |log| ==> log[i].diff == log[i].value - LastValue(log[..i], log[i].key)
  }

  /** The stored value of every counter is its latest reading. */
  ghost predicate CountersOk(c: Counters)
  {
    Coherent(c.log) && forall k :: Tally.Get(c.values, k) == LastValue(c.log, k)
  }

  lemma {:induction false} ReadOk(c: Counters, k: Key, v: nat)
    requires CountersOk(c)
    ensures CountersOk(Read(c, k, v))
  {
    var c' := Read(c, k, v);
    assert c'.log[..|c.log|] == c.log;
    forall i | 0 <= i < |c'.log|
      ensures c'.log[i].diff == c'.log[i].value - LastValue(c'.log[..i], c'.log[i].key)
    {
      if i < |c.log| {
        assert c'.log[..i] == c.log[..i];
      }
    }
  }

  lemma {:induction false} ReadFieldsOk(c: Counters, cpu: string, op: string, fs: seq<(nat, nat)>)
    requires CountersOk(c)
    ensures CountersOk(ReadFields(c, cpu, op, fs).c)
    decreases |fs|
  {
    if fs != [] {
      var pre := fs[..|fs| - 1];
      ReadFieldsOk(c, cpu, op, pre);
      ReadOk(ReadFields(c, cpu, op, pre).c, Queue(cpu, op, fs[|fs| - 1].0), fs[|fs| - 1].1);
    }
  }

  lemma {:induction false} StepOk(st: State, line: string, full: bool)
    requires CountersOk(st.c) && Step(st, line, full).Ok?
    ensures CountersOk(Step(st, line, full).value.c)
  {
    var l := Text.RStrip(line);
    if CpuLine(l).None? {
      if QueueLine(l).Some? {
        ReadFieldsOk(st.c, st.cpu.value, QueueLine(l).value, Fields(l));
      } else if PapiLine(l).Some? {
        var p := PapiLine(l).value;
        ReadOk(st.c, Papi(p.cpu, p.desc), p.value);
      }
    }
  }

  lemma {:induction false} StepsOk(lines: seq<string>, full: bool)
    requires Steps(lines, full).Ok?
    ensures CountersOk(Steps(lines, full).value.c)
    decreases |lines|
  {
    if lines != [] {
      var pre := lines[..|lines| - 1];
      StepsOk(pre, full);
      StepOk(Steps(pre, full).value, lines[|lines| - 1], full);
    }
  }

  /** In a coherent log the differences reported for a counter add up to its latest reading. */
  lemma {:induction false} Telescope(log: seq<Event>, k: Key)
    requires Coherent(log)
    ensures SumDiffs(log, k) == LastValue(log, k)
    decreases |log|
  {
    if log != [] {
      var pre := log[..|log| - 1];
      forall i | 0 <= i < |pre|
        ensures pre[i].diff == pre[i].value - LastValue(pre[..i], pre[i].key)
      {
        assert pre[..i] == log[..i];
      }
      Telescope(pre, k);
    }
  }

  /**
   * After any run, every counter holds its latest reading, every reported
   * difference is a reading minus the previous reading of that counter
   * (0 before the first), and so the differences reported for a counter
   * add up to the value it holds.
   */
  lemma {:induction false} DiffsAddUp(lines: seq<string>, full: bool, k: Key)
    requires Steps(lines, full).Ok?
    ensures var c := Steps(lines, full).value.c;
      && Coherent(c.log)
      && Tally.Get(c.values, k) == LastValue(c.log, k)
      && SumDiffs(c.log, k) == Tally.Get(c.values, k)
  {
    StepsOk(lines, full);
    Telescope(Steps(lines, full).value.c.log, k);
  }

  // ---- one message-queue line ----

  /** Reading fields at other columns leaves a counter alone. */
  lemma {:induction false} ReadFieldsOther(c: Counters, cpu: string, op: string, fs: seq<(nat, nat)>, p: nat)
    requires forall i :: 0 <= i < |fs| ==> fs[i].0 != p
    ensures Tally.Get(ReadFields(c, cpu, op, fs).c.values, Queue(cpu, op, p)) == Tally.Get(c.values, Queue(cpu, op, p))
    decreases |fs|
  {
    if fs != [] {
      ReadFieldsOther(c, cpu, op, fs[..|fs| - 1], p);
    }
  }

  /**
   * With the columns of a line all different (as `Fields` guarantees),
   * the diff of each field is its value minus what its counter held
   * before the line, and the counter then holds the value.
   */
  lemma {:induction false} ReadFieldsMeaning(c: Counters, cpu: string, op: string, fs: seq<(nat, nat)>)
    requires forall i, j :: 0 <= i < j < |fs| ==> fs[i].0 < fs[j].0
    ensures var r := ReadFields(c, cpu, op, fs);
      forall i :: 0 <= i < |fs| ==>
        && r.ds[i] == (fs[i].0, fs[i].1 as int - Tally.Get(c.values, Queue(cpu, op, fs[i].0)))
        && Tally.Get(r.c.values, Queue(cpu, op, fs[i].0)) == fs[i].1
    decreases |fs|
  {
    if fs != [] {
      var pre := fs[..|fs| - 1];
      var f := fs[|fs| - 1];
      ReadFieldsMeaning(c, cpu, op, pre);
      ReadFieldsOther(c, cpu, op, pre, f.0);
      var s := ReadFields(c, cpu, op, pre);
      forall i | 0 <= i < |pre|
        ensures Tally.Get(ReadFields(c, cpu, op, fs).c.values, Queue(cpu, op, fs[i].0)) == fs[i].1
      {
        assert fs[i].0 != f.0;
      }
    }
  }

  /**
   * The fields of a message-queue line are at distinct columns, and the
   * diff of each is its value minus what its counter held before the line.
   */
  lemma {:induction false} FieldsDiffs(c: Counters, cpu: string, op: string, l: string)
    ensures var fs := Fields(l);
      var r := ReadFields(c, cpu, op, fs);
      forall i :: 0 <= i < |fs| ==>
        && FieldAt(l, fs[i].0 - 1)
        && r.ds[i] == (fs[i].0, FieldValue(l, fs[i].0 - 1) as int - Tally.Get(c.values, Queue(cpu, op, fs[i].0)))
  {
    var fs := Fields(l);
    FieldsIncreasing(l);
    ReadFieldsMeaning(c, cpu, op, fs);
  }

  lemma {:induction false} FieldsIncreasing(l: string)
    ensures var fs := Fields(l); forall i, j :: 0 <= i < j < |fs| ==> fs[i].0 < fs[j].0
  {
    var fs := Fields(l);
    forall i, j | 0 <= i < j < |fs|
      ensures fs[i].0 < fs[j].0
    {
      assert fs[i].0 + 9 <= fs[j].0;
    }
  }

  // ---- where the diff line puts each difference ----

  function Column(ds: seq<(nat, int)>, i: nat): nat
    requires i < |ds|
  {
    var w := |Aligned(ds[..i])|;
    if ds[i].0 < w then w else ds[i].0
  }

  lemma {:induction false} AlignedPrefix(ds: seq<(nat, int)>, n: nat)
    requires n <= |ds|
    ensures |Aligned(ds[..n])| <= |Aligned(ds)| && Aligned(ds)[..|Aligned(ds[..n])|] == Aligned(ds[..n])
    decreases |ds|
  {
    if n < |ds| {
      var pre := ds[..|ds| - 1];
      AlignedPrefix(pre, n);
      assert pre[..n] == ds[..n];
      PutPrefix(Aligned(ds), Aligned(pre), ds[|ds| - 1]);
      PrefixOfPrefix(Aligned(ds), Aligned(pre), Aligned(ds[..n]));
    } else {
      assert ds[..n] == ds;
    }
  }

  /** The text before a difference is a prefix of the text after it. */
  lemma {:induction false} PutPrefix(all: string, s: string, d: (nat, int))
    requires all == Put(s, d)
    ensures |s| <= |all| && all[..|s|] == s
  {
    PutShape(s, d);
  }

  lemma {:induction false} PrefixOfPrefix(a: string, b: string, c: string)
    requires |b| <= |a| && a[..|b|] == b && |c| <= |b| && b[..|c|] == c
    ensures |c| <= |a| && a[..|c|] == c
  {
    assert forall k :: 0 <= k < |c| ==> a[k] == b[k];
  }

  /**
   * Difference `i` is printed, signed and right-aligned in (at least) 8
   * characters, from its counter's column or, when the previous
   * difference already reaches past that column, right after it.
   */
  lemma {:induction false} Placed(ds: seq<(nat, int)>, i: nat)
    requires i < |ds|
    ensures Column(ds, i) + |Field(ds[i].1)| <= |Aligned(ds)|
    ensures Aligned(ds)[Column(ds, i)..Column(ds, i) + |Field(ds[i].1)|] == Field(ds[i].1)
  {
    AlignedPrefix(ds, i + 1);
    PlacedAt(Aligned(ds), Aligned(ds[..i + 1]), ds, i);
  }

  /** Placed, for a text `all` that starts with the line up to difference `i`. */
  lemma {:induction false} PlacedAt(all: string, t: string, ds: seq<(nat, int)>, i: nat)
    requires i < |ds| && t == Aligned(ds[..i + 1]) && |t| <= |all| && all[..|t|] == t
    ensures Column(ds, i) + |Field(ds[i].1)| <= |all|
    ensures all[Column(ds, i)..Column(ds, i) + |Field(ds[i].1)|] == Field(ds[i].1)
  {
    AlignedStep(ds, i);
    SliceOfPrefix(all, t, Column(ds, i), Field(ds[i].1));
  }

  lemma {:induction false} AlignedStep(ds: seq<(nat, int)>, i: nat)
    requires i < |ds|
    ensures var t := Aligned(ds[..i + 1]);
      |t| == Column(ds, i) + |Field(ds[i].1)| && t[Column(ds, i)..] == Field(ds[i].1)
  {
    assert ds[..i + 1][..i] == ds[..i];
    assert Aligned(ds[..i + 1]) == Put(Aligned(ds[..i]), ds[i]);
    PutShape(Aligned(ds[..i]), ds[i]);
  }

  /** The text so far is kept, and the difference starts at its column or right after the text. */
  lemma {:induction false} PutShape(s: string, d: (nat, int))
    ensures var r, col := Put(s, d), if d.0 < |s| then |s| else d.0;
      |r| == col + |Field(d.1)| && r[..|s|] == s && r[col..] == Field(d.1)
  {
    var sp := Spaces(d.0 - |s|);
    assert Put(s, d)[..|s|] == s;
    assert Put(s, d)[|s| + |sp|..] == Field(d.1);
  }

  lemma {:induction false} SliceOfPrefix(all: string, t: string, col: nat, f: string)
    requires |t| <= |all| && all[..|t|] == t
    requires |t| == col + |f| && t[col..] == f
    ensures col + |f| <= |all| && all[col..col + |f|] == f
  {
    assert forall k :: col <= k < col + |f| ==> all[k] == all[..|t|][k];
  }

  /** `f'{d:>+8}'` is the signed difference with spaces before it up to 8 characters. */
  lemma {:induction false} FieldShape(d: int)
    ensures var f, t := Field(d), Signed(d);
      && |f| == (if |t| < 8 then 8 else |t|)
      && f[|f| - |t|..] == t && forall k :: 0 <= k < |f| - |t| ==> f[k] == ' '
  {
  }

  lemma {:induction false} AlignedWidth(ds: seq<(nat, int)>)
    requires forall i, j :: 0 <= i < j < |ds| ==> ds[i].0 + 8 <= ds[j].0
    requires forall i :: 0 <= i < |ds| ==> |Signed(ds[i].1)| <= 8
    ensures ds != [] ==> |Aligned(ds)| == ds[|ds| - 1].0 + 8
    decreases |ds|
  {
    if |ds| > 1 {
      AlignedWidth(ds[..|ds| - 1]);
    }
  }

  /**
   * When the columns are at least 8 apart (the fields of a line are 9
   * apart) and no difference needs more than 8 characters, every
   * difference sits exactly under its counter.
   */
  lemma {:induction false} UnderColumns(ds: seq<(nat, int)>, i: nat)
    requires forall i, j :: 0 <= i < j < |ds| ==> ds[i].0 + 8 <= ds[j].0
    requires forall i :: 0 <= i < |ds| ==> |Signed(ds[i].1)| <= 8
    requires i < |ds|
    ensures Column(ds, i) == ds[i].0
  {
    AlignedWidth(ds[..i]);
  }

  // ---- the printed differences read back ----

  lemma {:induction false} LTrimSkips(s: string, i: nat, e: nat, k: nat)
    requires i <= k < e <= |s| && !Text.IsSpace(s[k])
    requires forall j :: i <= j < k ==> Text.IsSpace(s[j])
    ensures Text.LTrimStart(s, i, e) == k
    decreases k - i
  {
    if i < k {
      LTrimSkips(s, i + 1, e, k);
    }
  }

  lemma {:induction false} StripSigned(d: int)
    ensures Text.Strip(Signed(d)) == Signed(d)
  {
    var t := Signed(d);
    assert !Text.IsSpace(t[|t| - 1]);
    assert Text.RTrimEnd(t, |t|) == |t|;
    assert !Text.IsSpace(t[0]);
    LTrimSkips(t, 0, |t|, 0);
  }

  /** `int(f'{d:+}')` is `d`. */
  lemma {:induction false} SignedReadsBack(d: int)
    ensures Text.ParseInt(Signed(d)) == Some(d)
  {
    var t := Signed(d);
    var n: nat := if d < 0 then -d else d;
    StripSigned(d);
    assert Text.Unsigned(t) == Text.NatToStr(n);
    assert Text.WellGrouped(Text.NatToStr(n), false);
    Text.RemoveCharAbsent(Text.NatToStr(n), '_');
  }

  /** Spaces before a text that neither starts nor ends in a blank are stripped off. */
  lemma {:induction false} StripPadded(n: int, t: string)
    requires |t| > 0 && !Text.IsSpace(t[0]) && !Text.IsSpace(t[|t| - 1])
    ensures Text.Strip(Spaces(n) + t) == t
  {
    var f := Spaces(n) + t;
    var k := |Spaces(n)|;
    assert f[|f| - 1] == t[|t| - 1] && f[k] == t[0];
    assert forall j :: 0 <= j < k ==> f[j] == ' ';
    assert Text.IsSpace(' ');
    assert Text.RTrimEnd(f, |f|) == |f|;
    LTrimSkips(f, 0, |f|, k);
    assert f[k..] == t;
  }

  lemma {:induction false} SignedEnds(d: int)
    ensures var t := Signed(d); !Text.IsSpace(t[0]) && !Text.IsSpace(t[|t| - 1])
  {
    var t := Signed(d);
    assert t[0] == '+' || t[0] == '-';
    assert '0' <= t[|t| - 1] <= '9';
  }

  lemma {:induction false} StripField(d: int)
    ensures Text.Strip(Field(d)) == Signed(d)
  {
    SignedEnds(d);
    StripPadded(8 - |Signed(d)|, Signed(d));
  }

  /** int() reads a string through its stripped form only. */
  lemma {:induction false} ParseIntStrip(s: string, t: string)
    requires Text.Strip(s) == Text.Strip(t)
    ensures Text.ParseInt(s) == Text.ParseInt(t)
  {
  }

  /** `int(f'{d:>+8}')` is `d`: the padded difference of the diff line reads back too. */
  lemma {:induction false} FieldReadsBack(d: int)
    ensures Text.ParseInt(Field(d)) == Some(d)
  {
    StripField(d);
    StripSigned(d);
    ParseIntStrip(Field(d), Signed(d));
    SignedReadsBack(d);
  }

  // ---- the line patterns read back ----

  lemma {:induction false} BlankEndAt(s: string, i: nat, j: nat)
    requires i <= j <= |s| && (j == |s| || s[j] != ' ')
    requires forall k :: i <= k < j ==> s[k] == ' '
    ensures BlankEnd(s, i) == j
    decreases j - i
  {
    if i < j {
      BlankEndAt(s, i + 1, j);
    }
  }

  lemma {:induction false} OpcodeEndAt(s: string, i: nat, j: nat)
    requires i <= j <= |s| && (j == |s| || !IsOpcodeChar(s[j]))
    requires forall k :: i <= k < j ==> IsOpcodeChar(s[k])
    ensures OpcodeEnd(s, i) == j
    decreases j - i
  {
    if i < j {
      OpcodeEndAt(s, i + 1, j);
    }
  }

  lemma {:induction false} DigitsEndAt(s: string, i: nat, j: nat)
    requires i <= j <= |s| && (j == |s| || !Text.IsDigit(s[j]))
    requires forall k :: i <= k < j ==> Text.IsDigit(s[k])
    ensures MonitorRows.DigitsEnd(s, i) == j
    decreases j - i
  {
    if i < j {
      DigitsEndAt(s, i + 1, j);
    }
  }

  /** A 'Cpu-->' line gives back its number. */
  lemma {:induction false} CpuLineOf(gap: string, n: string, rest: string)
    requires |gap| > 0 && forall k :: 0 <= k < |gap| ==> gap[k] == ' '
    requires |n| > 0 && Text.AllDigits(n)
    requires rest == [] || !Text.IsDigit(rest[0])
    ensures CpuLine("Cpu-->" + gap + n + rest) == Some(n)
  {
    var l := "Cpu-->" + gap + n + rest;
    var s, d := 6 + |gap|, 6 + |gap| + |n|;
    assert l[..6] == "Cpu-->";
    assert forall k :: 6 <= k < s ==> l[k] == gap[k - 6];
    assert forall k :: s <= k < d ==> l[k] == n[k - s];
    assert d < |l| ==> l[d] == rest[0];
    BlankEndAt(l, 6, s);
    DigitsEndAt(l, s, d);
    assert l[s..d] == n;
  }

  /** A message-queue line gives back its opcode. */
  lemma {:induction false} QueueLineOf(op: string, gap: string, hex: string, rest: string)
    requires |op| > 0 && forall k :: 0 <= k < |op| ==> IsOpcodeChar(op[k])
    requires |gap| > 0 && forall k :: 0 <= k < |gap| ==> gap[k] == ' '
    requires |hex| == 8 && forall k :: 0 <= k < 8 ==> IsLowHex(hex[k])
    ensures QueueLine(op + gap + hex + rest) == Some(op)
  {
    var l := op + gap + hex + rest;
    var o, s := |op|, |op| + |gap|;
    assert forall k :: 0 <= k < o ==> l[k] == op[k];
    assert forall k :: o <= k < s ==> l[k] == gap[k - o];
    assert forall k :: s <= k < s + 8 ==> l[k] == hex[k - s];
    OpcodeEndAt(l, 0, o);
    BlankEndAt(l, o, s);
    assert l[..o] == op;
  }

  lemma {:induction false} DescEndAt(l: string, from: nat, e: nat)
    requires 16 <= from <= e <= |l|
    requires forall k :: from - 1 <= k < e ==> IsDescChar(l[k])
    requires forall j :: from <= j < e ==> PapiTail(l, j).None?
    requires PapiTail(l, e).Some?
    ensures DescEnd(l, from) == Some(e)
    decreases e - from
  {
    if from < e {
      DescEndAt(l, from + 1, e);
    }
  }

  /** Before the end `e` of a description that does not end in a blank, the rest of the pattern cannot match. */
  lemma {:induction false} NoEarlyTail(l: string, e: nat, d: nat, j: nat)
    requires 16 <= j < e < d < |l|
    requires l[e - 1] != ' ' && l[e] == ' ' && !Text.IsDigit(l[e])
    requires forall k :: 15 <= k <= d ==> l[k] != '|'
    ensures PapiTail(l, j).None?
  {
    var b := BlankEnd(l, j);
    if b > j {
      assert b <= e - 1;
      assert MonitorRows.DigitsEnd(l, b) <= e;
    }
  }

  /** The parts of a papi line end at columns `e` (description), `g` (blanks) and `d` (digits). */
  predicate PapiShape(l: string, e: nat, g: nat, d: nat, digits: string)
  {
    && PapiPrefix(l) && 16 <= e < g < d && d + 2 <= |l|
    && (forall k :: 15 <= k < e ==> IsDescChar(l[k]))
    && l[e - 1] != ' '
    && (forall k :: e <= k < g ==> l[k] == ' ')
    && Text.AllDigits(digits) && l[g..d] == digits
    && l[d] == ' ' && l[d + 1] == '|'
  }

  lemma {:induction false} PapiTailAt(l: string, e: nat, g: nat, d: nat, digits: string)
    requires PapiShape(l, e, g, d, digits)
    ensures PapiTail(l, e) == Some(Text.DigitsValue(digits, 10))
  {
    assert forall k :: g <= k < d ==> l[k] == digits[k - g];
    BlankEndAt(l, e, g);
    DigitsEndAt(l, g, d);
  }

  lemma {:induction false} DescEndOf(l: string, e: nat, g: nat, d: nat, digits: string)
    requires PapiShape(l, e, g, d, digits)
    ensures DescEnd(l, 16) == Some(e)
  {
    PapiTailAt(l, e, g, d, digits);
    forall j | 16 <= j < e
      ensures PapiTail(l, j).None?
    {
      NoEarlyTail(l, e, d, j);
    }
    DescEndAt(l, 16, e);
  }

  /** The papi pattern on a line given by the columns where its parts end. */
  lemma {:induction false} PapiLineAt(l: string, e: nat, g: nat, d: nat, digits: string)
    requires PapiShape(l, e, g, d, digits)
    ensures PapiLine(l) == Some(PapiReading(l[2..4], l[15..e], Text.DigitsValue(digits, 10)))
  {
    PapiTailAt(l, e, g, d, digits);
    DescEndOf(l, e, g, d, digits);
  }

  /** Where the parts of a papi line sit. */
  lemma {:induction false} PapiParts(head: string, desc: string, gap: string, digits: string, rest: string)
    requires |head| == 15
    ensures var l := head + (desc + (gap + (digits + (" |" + rest))));
      var e := 15 + |desc|;
      var g := e + |gap|;
      var d := g + |digits|;
      && d + 2 <= |l| && l[..15] == head && l[15..e] == desc
      && (forall k :: 15 <= k < e ==> l[k] == desc[k - 15])
      && (forall k :: e <= k < g ==> l[k] == gap[k - e])
      && l[g..d] == digits
      && l[d] == ' ' && l[d + 1] == '|'
  {
    var t3 := digits + (" |" + rest);
    var t2 := gap + t3;
    var t1 := desc + t2;
    var l := head + t1;
    assert l[15..] == t1;
    assert t1[|desc|..] == t2;
    assert t2[|gap|..] == t3;
    assert l[15 + |desc| + |gap|..] == t3;
  }

  /** The parts of a papi line meet what `PapiLineAt` asks of them. */
  lemma {:induction false} PapiPartsOk(l: string, head: string, desc: string, gap: string, digits: string, rest: string)
    requires l == head + (desc + (gap + (digits + (" |" + rest))))
    requires PapiHead(head)
    requires |desc| > 0 && desc[|desc| - 1] != ' ' && forall k :: 0 <= k < |desc| ==> IsDescChar(desc[k])
    requires |gap| > 0 && forall k :: 0 <= k < |gap| ==> gap[k] == ' '
    requires |digits| > 0 && Text.AllDigits(digits)
    ensures PapiShape(l, 15 + |desc|, 15 + |desc| + |gap|, 15 + |desc| + |gap| + |digits|, digits)
    ensures l[2..4] == head[2..4] && l[15..15 + |desc|] == desc
  {
    PapiParts(head, desc, gap, digits, rest);
    assert l[2..4] == l[..15][2..4];
  }

  /** A papi line gives back its cpu cell, its description and its value. */
  lemma {:induction false} PapiLineOf(head: string, desc: string, gap: string, digits: string, rest: string)
    requires PapiHead(head)
    requires |desc| > 0 && desc[|desc| - 1] != ' ' && forall k :: 0 <= k < |desc| ==> IsDescChar(desc[k])
    requires |gap| > 0 && forall k :: 0 <= k < |gap| ==> gap[k] == ' '
    requires |digits| > 0 && Text.AllDigits(digits)
    ensures PapiLine(head + (desc + (gap + (digits + (" |" + rest)))))
      == Some(PapiReading(head[2..4], desc, Text.DigitsValue(digits, 10)))
  {
    var l := head + (desc + (gap + (digits + (" |" + rest))));
    PapiPartsOk(l, head, desc, gap, digits, rest);
    PapiLineAt(l, 15 + |desc|, 15 + |desc| + |gap|, 15 + |desc| + |gap| + |digits|, digits);
  }
}
