/**
 * The parts of JavaScript's string and number semantics that the modelled
 * code calls: `startsWith`, `charAt`, `split` with a string separator,
 * `replace` with a string pattern, `toUpperCase` (ASCII letters only),
 * `Number.prototype.toString` on non-negative integers and `parseInt`.
 * `indexOf` locates the pattern of `replace` and the separators of `split`;
 * `Join` is never called by the code and serves only as the inverse that
 * states the round trip of `split`. Errors raised by awaited calls are
 * modelled here too.
 */
module Js {
  import opened Wrappers

  /** A thrown value. `statusCode` is that property of the error object; a TypeError has none. */
  datatype Error = Error(statusCode: Option<int>)

  /** What reading a property of `undefined` or `null` throws. */
  const TypeError := Error(None)

  /** The outcome of an awaited call: the data it resolved to, or the error it threw. */
  datatype Reply<+T> = Answered(data: T) | Failed(error: Error)

  // ---------------------------------------------------------------- searching

  /** `pat` occurs in `s` starting at index `i`. */
  predicate OccursAt(s: string, pat: string, i: int)
  {
    0 <= i && i + |pat| <= |s| && s[i..i + |pat|] == pat
  }

  /** `s.indexOf(pat, from)`: the first occurrence of `pat` at or after `from`, or -1. */
  function IndexFrom(s: string, pat: string, from: nat): (i: int)
    requires from <= |s|
    ensures i == -1 || (from <= i && OccursAt(s, pat, i))
    ensures forall j :: from <= j && (i == -1 || j < i) ==> !OccursAt(s, pat, j)
    decreases |s| - from
  {
    if OccursAt(s, pat, from) then from
    else if from == |s| then -1
    else IndexFrom(s, pat, from + 1)
  }

  /** `s.indexOf(pat)`: the first occurrence of `pat` in `s`, or -1 when there is none. */
  function IndexOf(s: string, pat: string): (i: int)
    ensures i == -1 || OccursAt(s, pat, i)
    ensures forall j :: (i == -1 || j < i) ==> !OccursAt(s, pat, j)
  {
    IndexFrom(s, pat, 0)
  }

  /** `s.includes(pat)`. */
  predicate Includes(s: string, pat: string)
  {
    IndexOf(s, pat) != -1
  }

  /** `s.startsWith(prefix)`. */
  predicate StartsWith(s: string, prefix: string)
  {
    |prefix| <= |s| && s[..|prefix|] == prefix
  }

  /** `s.charAt(i)`: the one-character string at `i`, and "" outside the string. */
  function CharAt(s: string, i: int): string
  {
    if 0 <= i < |s| then [s[i]] else ""
  }

  /** An occurrence inside a prefix of `s` is an occurrence in `s`. */
  lemma OccursInPrefix(s: string, pat: string, n: nat, j: int)
    requires n <= |s| && OccursAt(s[..n], pat, j)
    ensures OccursAt(s, pat, j)
  {
    assert s[..n][j..j + |pat|] == s[j..j + |pat|];
  }

  // ---------------------------------------------------------------- split and join

  /** `s.split(sep)` for a non-empty string separator. */
  function Split(s: string, sep: string): (parts: seq<string>)
    requires sep != ""
    ensures |parts| >= 1
    decreases |s|
  {
    var i := IndexOf(s, sep);
    if i == -1 then [s] else [s[..i]] + Split(s[i + |sep|..], sep)
  }

  /** `parts.join(sep)`. */
  function Join(parts: seq<string>, sep: string): string
  {
    if parts == [] then ""
    else if |parts| == 1 then parts[0]
    else parts[0] + sep + Join(parts[1..], sep)
  }

  /** Joining the pieces of a split with the same separator gives back the string. */
  lemma {:induction false} JoinSplit(s: string, sep: string)
    requires sep != ""
    ensures Join(Split(s, sep), sep) == s
    decreases |s|
  {
    var i := IndexOf(s, sep);
    if i != -1 {
      var rest := s[i + |sep|..];
      var tail := Split(rest, sep);
      JoinSplit(rest, sep);
      assert Split(s, sep) == [s[..i]] + tail;
      JoinCons(s[..i], tail, sep);
      assert s[i..i + |sep|] == sep;
      assert s == s[..i] + s[i..i + |sep|] + rest;
    }
  }

  lemma JoinCons(a: string, tail: seq<string>, sep: string)
    requires tail != []
    ensures Join([a] + tail, sep) == a + sep + Join(tail, sep)
  {
    assert ([a] + tail)[1..] == tail;
  }

  /** No piece of a split contains the separator. */
  lemma {:induction false} SplitPartsExcludeSeparator(s: string, sep: string)
    requires sep != ""
    ensures forall k :: 0 <= k < |Split(s, sep)| ==> !Includes(Split(s, sep)[k], sep)
    decreases |s|
  {
    var i := IndexOf(s, sep);
    if i != -1 {
      var rest := s[i + |sep|..];
      SplitPartsExcludeSeparator(rest, sep);
      var j := IndexOf(s[..i], sep);
      if j != -1 {
        OccursInPrefix(s, sep, i, j);
        assert false;
      }
      assert Split(s, sep) == [s[..i]] + Split(rest, sep);
    }
  }

  /** A string without the separator splits into itself alone. */
  lemma SplitWithoutSeparator(s: string, sep: string)
    requires sep != "" && !Includes(s, sep)
    ensures Split(s, sep) == [s]
  {
  }

  /** Splitting on one character peels off everything before its first occurrence. */
  lemma SplitCons(a: string, c: char, rest: string)
    requires c !in a
    ensures Split(a + [c] + rest, [c]) == [a] + Split(rest, [c])
  {
    var s := a + [c] + rest;
    assert s[|a|..|a| + 1] == [c];
    assert OccursAt(s, [c], |a|);
    forall j | 0 <= j < |a|
      ensures !OccursAt(s, [c], j)
    {
      assert s[j..j + 1] == [a[j]];
    }
    var i := IndexOf(s, [c]);
    assert i == |a|;
    assert s[..i] == a;
    assert s[i + 1..] == rest;
  }

  /** A string without the character splits into itself alone (one-character separator form). */
  lemma SplitNoChar(a: string, c: char)
    requires c !in a
    ensures Split(a, [c]) == [a]
  {
    forall j | 0 <= j < |a|
      ensures !OccursAt(a, [c], j)
    {
      assert a[j..j + 1] == [a[j]];
    }
  }

  // ---------------------------------------------------------------- replace and concatenation

  /** `s.replace(pat, rep)` with a string pattern and a replacement without `$` patterns: only the first occurrence is replaced. */
  function ReplaceFirst(s: string, pat: string, rep: string): string
  {
    var i := IndexOf(s, pat);
    if i == -1 then s else s[..i] + rep + s[i + |pat|..]
  }

  /** When `s` starts with `pat`, removing the first occurrence drops exactly that prefix, and later occurrences stay. */
  lemma ReplaceLeadingOccurrence(s: string, pat: string)
    requires StartsWith(s, pat)
    ensures ReplaceFirst(s, pat, "") == s[|pat|..]
  {
    assert OccursAt(s, pat, 0);
  }

  /** The string that results from `+=` of every piece in turn onto "". */
  function Concat(parts: seq<string>): string
  {
    if parts == [] then "" else parts[0] + Concat(parts[1..])
  }

  /** Appending one more piece appends it to the concatenation. */
  lemma {:induction false} ConcatAppend(parts: seq<string>, x: string)
    ensures Concat(parts + [x]) == Concat(parts) + x
  {
    if parts != [] {
      assert (parts + [x])[1..] == parts[1..] + [x];
      ConcatAppend(parts[1..], x);
    }
  }

  // ---------------------------------------------------------------- case

  /** `toUpperCase` on one character, for ASCII letters; every other character is left as it is. */
  function UpperChar(c: char): char
  {
    if 'a' <= c <= 'z' then (c as int - 32) as char else c
  }

  /** `s.toUpperCase()`, restricted to ASCII letters. */
  function ToUpper(s: string): string
  {
    seq(|s|, i requires 0 <= i < |s| => UpperChar(s[i]))
  }

  /** Upper-casing twice is upper-casing once, so a comparison after upper-casing ignores case. */
  lemma ToUpperIdempotent(s: string)
    ensures ToUpper(ToUpper(s)) == ToUpper(s)
  {
  }

  // ---------------------------------------------------------------- numbers

  predicate IsDigit(c: char)
  {
    '0' <= c <= '9'
  }

  /** The character of decimal digit `d`. */
  function DigitChar(d: int): (c: char)
    requires 0 <= d < 10
    ensures IsDigit(c) && (c == '0' <==> d == 0)
  {
    ('0' as int + d) as char
  }

  /** `n.toString()` for a non-negative integer: its decimal digits, with no zero padding. */
  function Decimal(n: nat): (s: string)
    ensures |s| >= 1
    ensures forall k :: 0 <= k < |s| ==> IsDigit(s[k])
    ensures s[0] == '0' ==> n == 0
    decreases n
  {
    if n < 10 then [DigitChar(n)] else Decimal(n / 10) + [DigitChar(n % 10)]
  }

  /** A JavaScript number as `parseInt` can produce it. */
  datatype Number = Num(n: int) | NaN

  /** The white-space and line-terminator characters that `parseInt` skips. */
  predicate IsWhiteSpace(c: char)
  {
    c in {'\t', '\n', '\U{000B}', '\U{000C}', '\r', ' ', '\U{00A0}', '\U{1680}', '\U{2000}', '\U{2001}',
          '\U{2002}', '\U{2003}', '\U{2004}', '\U{2005}', '\U{2006}', '\U{2007}', '\U{2008}', '\U{2009}',
          '\U{200A}', '\U{2028}', '\U{2029}', '\U{202F}', '\U{205F}', '\U{3000}', '\U{FEFF}'}
  }

  function TrimStart(s: string): string
    decreases |s|
  {
    if s != [] && IsWhiteSpace(s[0]) then TrimStart(s[1..]) else s
  }

  /** The value of a digit in radix up to 36; 36 for a character that is no digit. */
  function DigitValue(c: char): nat
  {
    if '0' <= c <= '9' then c as int - '0' as int
    else if 'a' <= c <= 'z' then c as int - 'a' as int + 10
    else if 'A' <= c <= 'Z' then c as int - 'A' as int + 10
    else 36
  }

  /** How many leading characters of `s` are digits in `radix`. */
  function DigitRun(s: string, radix: nat): (k: nat)
    ensures k <= |s|
    decreases |s|
  {
    if s != [] && DigitValue(s[0]) < radix then 1 + DigitRun(s[1..], radix) else 0
  }

  /** The value of the digit string `s` in `radix`, most significant digit first. */
  function DigitsValue(s: string, radix: nat): int
    decreases |s|
  {
    if s == [] then 0 else DigitsValue(s[..|s| - 1], radix) * radix + DigitValue(s[|s| - 1])
  }

  /**
   * `parseInt(s)` without a radix argument: leading white space is skipped,
   * one sign is read, a `0x`/`0X` prefix selects radix 16, and the longest
   * run of digits is read; no digit at all gives NaN.
   */
  function ParseInt(s: string): Number
  {
    var t := TrimStart(s);
    var negative := t != [] && t[0] == '-';
    var u := if t != [] && (t[0] == '-' || t[0] == '+') then t[1..] else t;
    var hex := StartsWith(u, "0x") || StartsWith(u, "0X");
    var radix := if hex then 16 else 10;
    var body := if hex then u[2..] else u;
    var k := DigitRun(body, radix);
    if k == 0 then NaN
    else
      var v := DigitsValue(body[..k], radix);
      Num(if negative then -v else v)
  }

  lemma {:induction false} DigitRunWhole(s: string, radix: nat)
    requires forall k :: 0 <= k < |s| ==> DigitValue(s[k]) < radix
    ensures DigitRun(s, radix) == |s|
    decreases |s|
  {
    if s != [] {
      DigitRunWhole(s[1..], radix);
    }
  }

  lemma {:induction false} DecimalValue(n: nat)
    ensures DigitsValue(Decimal(n), 10) == n
    decreases n
  {
    if n >= 10 {
      DecimalValue(n / 10);
      var s := Decimal(n);
      assert s[..|s| - 1] == Decimal(n / 10);
    }
  }

  /** A decimal form has no hex prefix and is one whole run of digits worth `n`. */
  lemma DecimalDigits(n: nat)
    ensures var s := Decimal(n);
      !StartsWith(s, "0x") && !StartsWith(s, "0X") && DigitRun(s, 10) == |s| && DigitsValue(s[..|s|], 10) == n
  {
    var s := Decimal(n);
    assert !StartsWith(s, "0x") && !StartsWith(s, "0X") by {
      if |s| >= 2 {
        assert IsDigit(s[1]);
      }
    }
    forall k | 0 <= k < |s|
      ensures DigitValue(s[k]) < 10
    {
      assert IsDigit(s[k]);
    }
    DigitRunWhole(s, 10);
    assert s[..|s|] == s;
    DecimalValue(n);
  }

  /** `parseInt` reads back what `toString` wrote: the decimal form of `n` parses to `n`. */
  lemma ParseDecimal(n: nat)
    ensures ParseInt(Decimal(n)) == Num(n)
  {
    var s := Decimal(n);
    assert !IsWhiteSpace(s[0]);
    assert TrimStart(s) == s;
    DecimalDigits(n);
  }

  /** A minus sign in front of a decimal form gives the negated number. */
  lemma ParseNegativeDecimal(n: nat)
    ensures ParseInt("-" + Decimal(n)) == Num(-(n as int))
  {
    var t := "-" + Decimal(n);
    assert !IsWhiteSpace(t[0]);
    assert TrimStart(t) == t;
    assert t[1..] == Decimal(n);
    DecimalDigits(n);
  }

  /** A string starting with neither white space, a sign nor a digit parses to NaN. */
  lemma ParseNoDigit(s: string)
    requires s != [] && !IsWhiteSpace(s[0]) && s[0] != '-' && s[0] != '+' && DigitValue(s[0]) >= 10
    ensures ParseInt(s) == NaN
  {
    assert TrimStart(s) == s;
  }
}
