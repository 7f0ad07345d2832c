/**
 * Python string semantics the tools rely on: whitespace stripping, slicing
 * with clamped bounds, prefix/suffix/substring tests, split and join on one
 * character, and the decimal and hexadecimal conversions of int() and str().
 */
module Text {
  import opened Wrappers

  /** The characters for which Python's str.isspace() holds, by code point. */
  const SPACES: set<char> := {0x9 as char, 0xA as char, 0xB as char, 0xC as char, 0xD as char, 0x1C as char, 0x1D as char, 0x1E as char, 0x1F as char, 0x20 as char, 0x85 as char, 0xA0 as char, 0x1680 as char, 0x2000 as char, 0x2001 as char, 0x2002 as char, 0x2003 as char, 0x2004 as char, 0x2005 as char, 0x2006 as char, 0x2007 as char, 0x2008 as char, 0x2009 as char, 0x200A as char, 0x2028 as char, 0x2029 as char, 0x202F as char, 0x205F as char, 0x3000 as char}

  predicate IsSpace(c: char)
  {
    c in SPACES
  }

  predicate IsDigit(c: char) { '0' <= c <= '9' }

  predicate IsHexDigit(c: char) { IsDigit(c) || 'a' <= c <= 'f' || 'A' <= c <= 'F' }

  predicate AllDigits(s: string) { forall i :: 0 <= i < |s| ==> IsDigit(s[i]) }

  /** The end of s[..n] once trailing whitespace is dropped. */
  function RTrimEnd(s: string, n: nat): (m: nat)
    requires n <= |s|
    ensures m <= n
    ensures m == 0 || !IsSpace(s[m - 1])
    decreases n
  {
    if n > 0 && IsSpace(s[n - 1]) then RTrimEnd(s, n - 1) else n
  }

  /** str.rstrip(): the longest prefix that does not end in whitespace. */
  function RStrip(s: string): (r: string)
    ensures |r| <= |s| && r == s[..|r|]
    ensures r == [] || !IsSpace(r[|r| - 1])
  {
    s[..RTrimEnd(s, |s|)]
  }

  lemma {:induction false} RTrimEndSpaces(s: string, n: nat, i: nat)
    requires n <= |s| && RTrimEnd(s, n) <= i < n
    ensures IsSpace(s[i])
    decreases n
  {
    if i < n - 1 {
      RTrimEndSpaces(s, n - 1, i);
    }
  }

  /** rstrip() removes whitespace only. */
  lemma {:induction false} RStripRemovesSpace(s: string, i: nat)
    requires |RStrip(s)| <= i < |s|
    ensures IsSpace(s[i])
  {
    RTrimEndSpaces(s, |s|, i);
  }

  /** The start of s[i..e] once leading whitespace is dropped. */
  function LTrimStart(s: string, i: nat, e: nat): (k: nat)
    requires i <= e <= |s|
    ensures i <= k <= e
    ensures k == e || !IsSpace(s[k])
    decreases e - i
  {
    if i < e && IsSpace(s[i]) then LTrimStart(s, i + 1, e) else i
  }

  lemma {:induction false} LTrimStartSpaces(s: string, i: nat, e: nat, j: nat)
    requires i <= e <= |s| && i <= j < LTrimStart(s, i, e)
    ensures IsSpace(s[j])
    decreases e - i
  {
    if i < j {
      LTrimStartSpaces(s, i + 1, e, j);
    }
  }

  /** str.lstrip(): the longest suffix that does not start with whitespace. */
  function LStrip(s: string): (r: string)
    ensures |r| <= |s| && r == s[|s| - |r|..]
    ensures r == [] || !IsSpace(r[0])
  {
    s[LTrimStart(s, 0, |s|)..]
  }

  /** lstrip() removes whitespace only. */
  lemma {:induction false} LStripRemovesSpace(s: string, i: nat)
    requires i < |s| - |LStrip(s)|
    ensures IsSpace(s[i])
  {
    LTrimStartSpaces(s, 0, |s|, i);
  }

  /** str.strip(): whitespace removed at both ends. */
  function Strip(s: string): (r: string)
    ensures |r| <= |s|
    ensures r == [] || (!IsSpace(r[0]) && !IsSpace(r[|r| - 1]))
  {
    var m := RTrimEnd(s, |s|);
    s[LTrimStart(s, 0, m)..m]
  }

  /** strip() removes whitespace only, from both ends. */
  lemma {:induction false} StripRemovesSpace(s: string, i: nat)
    requires i < |s|
    requires i < LTrimStart(s, 0, RTrimEnd(s, |s|)) || RTrimEnd(s, |s|) <= i
    ensures IsSpace(s[i])
  {
    if i < LTrimStart(s, 0, RTrimEnd(s, |s|)) {
      LTrimStartSpaces(s, 0, RTrimEnd(s, |s|), i);
    } else {
      RTrimEndSpaces(s, |s|, i);
    }
  }

  predicate StartsWith(s: string, p: string) { |p| <= |s| && s[..|p|] == p }

  /** A string that differs from `p` at a position inside both does not start with `p`. */
  lemma {:induction false} NotStartsWith(s: string, p: string, i: nat)
    requires i < |p| && i < |s| && s[i] != p[i]
    ensures !StartsWith(s, p)
  {
    if |p| <= |s| {
      assert s[..|p|][i] == s[i];
    }
  }

  predicate EndsWith(s: string, p: string) { |p| <= |s| && s[|s| - |p|..] == p }

  /** Python's `p in s` for strings. */
  predicate Contains(s: string, p: string)
    decreases |s|
  {
    StartsWith(s, p) || (|s| > 0 && Contains(s[1..], p))
  }

  /** Python's s[a:b] for non-negative bounds: both ends are clamped to the length. */
  function Slice(s: string, a: nat, b: nat): string
  {
    var lo := if a < |s| then a else |s|;
    var hi := if b < |s| then b else |s|;
    if lo <= hi then s[lo..hi] else ""
  }

  /** Python's xs[1:] on a list: everything after the first element, or nothing. */
  function Tail<T>(xs: seq<T>): seq<T>
  {
    if xs == [] then [] else xs[1..]
  }

  /** Python's s[a:] for a non-negative bound. */
  function SliceFrom(s: string, a: nat): string
  {
    if a < |s| then s[a..] else ""
  }

  /** s.replace(c, ''): every occurrence of one character removed. */
  function RemoveChar(s: string, c: char): (r: string)
    ensures c !in r
    ensures |r| <= |s|
    ensures forall i :: 0 <= i < |r| ==> r[i] in s
  {
    if s == [] then [] else (if s[0] == c then [] else [s[0]]) + RemoveChar(s[1..], c)
  }

  /** str.lower() restricted to ASCII letters. */
  function Lower(s: string): (r: string)
    ensures |r| == |s|
  {
    seq(|s|, i requires 0 <= i < |s| => if 'A' <= s[i] <= 'Z' then (s[i] as int + 32) as char else s[i])
  }

  /** Lowering twice is lowering once. */
  lemma {:induction false} LowerIdempotent(s: string)
    ensures Lower(Lower(s)) == Lower(s)
  {
  }

  /** A character that is not a letter occurs in the lowered string exactly where it occurs in the original. */
  lemma {:induction false} LowerKeepsNonLetter(s: string, c: char)
    requires !('A' <= c <= 'Z') && !('a' <= c <= 'z')
    ensures c in Lower(s) <==> c in s
  {
    if c in s {
      var i :| 0 <= i < |s| && s[i] == c;
      assert Lower(s)[i] == c;
    }
    if c in Lower(s) {
      var i :| 0 <= i < |s| && Lower(s)[i] == c;
      assert s[i] == c;
    }
  }

  /** list.index(x) for a list of strings; None stands for the ValueError. */
  function IndexOf(xs: seq<string>, x: string): (r: Option<nat>)
    ensures r.Some? ==> r.value < |xs| && xs[r.value] == x && forall j :: 0 <= j < r.value ==> xs[j] != x
    ensures r.None? ==> forall j :: 0 <= j < |xs| ==> xs[j] != x
  {
    if xs == [] then None
    else if xs[0] == x then Some(0)
    else match IndexOf(xs[1..], x)
      case None => None
      case Some(k) => Some(k + 1)
  }

  /** s.split(c) for a one-character separator. */
  function Split(s: string, c: char): (r: seq<string>)
    ensures |r| >= 1
    ensures forall k :: 0 <= k < |r| ==> c !in r[k]
    decreases |s|
  {
    if s == [] then [""]
    else
      var rest := Split(s[1..], c);
      if s[0] == c then [""] + rest else [[s[0]] + rest[0]] + rest[1..]
  }

  /** c.join(parts) for a one-character separator. */
  function Join(parts: seq<string>, c: char): string
    decreases |parts|
  {
    if parts == [] then ""
    else if |parts| == 1 then parts[0]
    else parts[0] + [c] + Join(parts[1..], c)
  }

  /** A character that is not the separator and occurs in no part does not occur in the join. */
  lemma {:induction false} JoinAvoids(parts: seq<string>, sep: char, c: char)
    requires c != sep && forall k :: 0 <= k < |parts| ==> c !in parts[k]
    ensures c !in Join(parts, sep)
    decreases |parts|
  {
    if |parts| > 1 {
      JoinAvoids(parts[1..], sep, c);
      assert Join(parts, sep) == parts[0] + [sep] + Join(parts[1..], sep);
    }
  }

  lemma {:induction false} JoinSplit(s: string, c: char)
    ensures Join(Split(s, c), c) == s
    decreases |s|
  {
    if s != [] {
      JoinSplit(s[1..], c);
      var rest := Split(s[1..], c);
      if s[0] == c {
        assert Split(s, c) == [""] + rest;
        assert Join([""] + rest, c) == "" + [c] + Join(rest, c);
      } else {
        assert Split(s, c) == [[s[0]] + rest[0]] + rest[1..];
        if |rest| == 1 {
          assert Join(rest, c) == rest[0];
        } else {
          assert Join(rest, c) == rest[0] + [c] + Join(rest[1..], c);
          assert ([[s[0]] + rest[0]] + rest[1..])[1..] == rest[1..];
        }
      }
    }
  }

  lemma {:induction false} SplitNoSep(a: string, c: char)
    requires c !in a
    ensures Split(a, c) == [a]
    decreases |a|
  {
    if a != [] {
      SplitNoSep(a[1..], c);
      assert [a[0]] + a[1..] == a;
    }
  }

  lemma {:induction false} SplitAfterPart(a: string, b: string, c: char)
    requires c !in a
    ensures Split(a + [c] + b, c) == [a] + Split(b, c)
    decreases |a|
  {
    if a == [] {
      assert a + [c] + b == [c] + b;
      assert ([c] + b)[1..] == b;
    } else {
      assert (a + [c] + b)[1..] == a[1..] + [c] + b;
      SplitAfterPart(a[1..], b, c);
      assert [a[0]] + a[1..] == a;
    }
  }

  /** Splitting a joined list gives the list back when no part holds the separator. */
  lemma {:induction false} SplitJoin(parts: seq<string>, c: char)
    requires |parts| >= 1
    requires forall k :: 0 <= k < |parts| ==> c !in parts[k]
    ensures Split(Join(parts, c), c) == parts
    decreases |parts|
  {
    if |parts| == 1 {
      SplitNoSep(parts[0], c);
    } else {
      SplitJoin(parts[1..], c);
      SplitAfterPart(parts[0], Join(parts[1..], c), c);
      assert [parts[0]] + parts[1..] == parts;
    }
  }

  /** s.split(" ")[0]: the text before the first space. */
  function FirstWord(s: string): (r: string)
    ensures StartsWith(s, r) && ' ' !in r
    ensures |r| < |s| ==> s[|r|] == ' '
  {
    if s == [] || s[0] == ' ' then "" else [s[0]] + FirstWord(s[1..])
  }

  // ---- decimal and hexadecimal numbers ----

  function DigitValue(c: char): nat
    requires IsHexDigit(c)
  {
    if IsDigit(c) then c as int - '0' as int
    else if 'a' <= c <= 'f' then c as int - 'a' as int + 10
    else c as int - 'A' as int + 10
  }

  /** The value of a string of digits in the given base (most significant first). */
  function DigitsValue(s: string, base: nat): nat
    requires forall i :: 0 <= i < |s| ==> IsHexDigit(s[i])
    decreases |s|
  {
    if s == [] then 0 else DigitsValue(s[..|s| - 1], base) * base + DigitValue(s[|s| - 1])
  }

  function DigitChar(d: nat): (c: char)
    requires d < 10
    ensures IsDigit(c) && DigitValue(c) == d
  {
    ('0' as int + d) as char
  }

  /** str(n) for a natural number: decimal digits without leading zeros. */
  function NatToStr(n: nat): (r: string)
    ensures |r| >= 1 && AllDigits(r)
    ensures |r| > 1 ==> r[0] != '0'
    ensures DigitsValue(r, 10) == n
    decreases n
  {
    if n < 10 then [DigitChar(n)]
    else
      var p := NatToStr(n / 10);
      var r := p + [DigitChar(n % 10)];
      assert r[..|r| - 1] == p;
      r
  }

  /** str(i) for any integer. */
  function IntToStr(i: int): (r: string)
    ensures |r| >= 1
    ensures i >= 0 ==> r == NatToStr(i)
    ensures i < 0 ==> r == "-" + NatToStr(-i)
  {
    if i >= 0 then NatToStr(i) else "-" + NatToStr(-i)
  }

  lemma {:induction false} NatToStrInjective(a: nat, b: nat)
    requires NatToStr(a) == NatToStr(b)
    ensures a == b
  {
    assert DigitsValue(NatToStr(a), 10) == a;
  }

  /** A run of digits in which single underscores may separate digits, as int() accepts. */
  predicate WellGrouped(s: string, hex: bool)
  {
    |s| >= 1 && s[0] != '_' && s[|s| - 1] != '_'
    && (forall i :: 0 <= i < |s| ==> s[i] == '_' || (if hex then IsHexDigit(s[i]) else IsDigit(s[i])))
    && (forall i :: 0 <= i < |s| - 1 ==> !(s[i] == '_' && s[i + 1] == '_'))
  }

  function SignOf(t: string): int
  {
    if |t| > 0 && t[0] == '-' then -1 else 1
  }

  function Unsigned(t: string): string
  {
    if |t| > 0 && (t[0] == '-' || t[0] == '+') then t[1..] else t
  }

  /** int(s): None stands for the ValueError. */
  function ParseInt(s: string): (r: Option<int>)
    ensures r.Some? ==> WellGrouped(Unsigned(Strip(s)), false)
  {
    var t := Strip(s);
    var body := Unsigned(t);
    if WellGrouped(body, false) then
      var digits := RemoveChar(body, '_');
      Some(SignOf(t) * DigitsValue(digits, 10))
    else None
  }

  /** int(s, 16): like int(s) but in base 16, with an optional 0x prefix. */
  function ParseHex(s: string): (r: Option<int>)
  {
    var t := Strip(s);
    var u := Unsigned(t);
    var body0 := if |u| >= 2 && u[0] == '0' && (u[1] == 'x' || u[1] == 'X') then u[2..] else u;
    var body := if body0 != [] && body0[0] == '_' && |body0| < |u| then body0[1..] else body0;
    if WellGrouped(body, true) then
      var digits := RemoveChar(body, '_');
      Some(SignOf(t) * DigitsValue(digits, 16))
    else None
  }

  lemma {:induction false} RemoveCharAbsent(s: string, c: char)
    requires c !in s
    ensures RemoveChar(s, c) == s
  {
    if s != [] { RemoveCharAbsent(s[1..], c); }
  }

  lemma {:induction false} StripDigits(s: string)
    requires |s| >= 1 && AllDigits(s)
    ensures Strip(s) == s
  {
    assert !IsSpace(s[|s| - 1]);
    assert RTrimEnd(s, |s|) == |s|;
    assert RStrip(s) == s;
    assert !IsSpace(s[0]);
    assert LTrimStart(s, 0, |s|) == 0;
  }

  /** int() reads a plain run of decimal digits as its value. */
  lemma {:induction false} ParseIntDigits(s: string)
    requires |s| >= 1 && AllDigits(s)
    ensures ParseInt(s) == Some(DigitsValue(s, 10))
  {
    assert Strip(s) == s by { StripDigits(s); }
    assert Unsigned(s) == s && SignOf(s) == 1 by { assert IsDigit(s[0]); }
    assert WellGrouped(s, false);
    assert RemoveChar(s, '_') == s by {
      assert '_' !in s;
      RemoveCharAbsent(s, '_');
    }
  }

  /** int(str(n)) == n: the decimal form of a number reads back as that number. */
  lemma {:induction false} ParseIntNatToStr(n: nat)
    ensures ParseInt(NatToStr(n)) == Some(n)
  {
    ParseIntDigits(NatToStr(n));
  }
}
