/**
 * The JavaScript string operations the core relies on, stated over `seq<char>`:
 * `trim`, ASCII `toLowerCase`/`toUpperCase`, `startsWith`, `split`/`join` on a
 * one-character separator, decimal rendering of numbers and `Number(...)` on
 * integer literals.
 */
module Strings {
  import opened Base

  /** The characters `String.prototype.trim` and the regular-expression class `\s`
      treat as white space (ECMAScript WhiteSpace and LineTerminator). */
  predicate IsSpace(c: char) {
    c == '\t' || c == '\n' || c == '\U{B}' || c == '\U{C}' || c == '\r' || c == ' '
    || c == '\U{A0}' || c == '\U{1680}' || ('\U{2000}' <= c <= '\U{200A}')
    || c == '\U{2028}' || c == '\U{2029}' || c == '\U{202F}' || c == '\U{205F}'
    || c == '\U{3000}' || c == '\U{FEFF}'
  }

  /** `s` with its leading white space removed. */
  function TrimStart(s: string): (r: string)
    ensures |r| <= |s|
  {
    if s != [] && IsSpace(s[0]) then TrimStart(s[1..]) else s
  }

  /** `TrimStart` drops exactly the white space at the front. */
  lemma {:induction false} TrimStartShape(s: string)
    ensures TrimStart(s) == s[|s| - |TrimStart(s)|..]
    ensures TrimStart(s) == [] || !IsSpace(TrimStart(s)[0])
    ensures forall i :: 0 <= i < |s| - |TrimStart(s)| ==> IsSpace(s[i])
  {
    if s != [] && IsSpace(s[0]) {
      TrimStartShape(s[1..]);
    }
  }

  /** `s` with its trailing white space removed. */
  function TrimEnd(s: string): (r: string)
    ensures |r| <= |s|
  {
    if s != [] && IsSpace(s[|s| - 1]) then TrimEnd(s[..|s| - 1]) else s
  }

  /** `TrimEnd` drops exactly the white space at the back. */
  lemma {:induction false} TrimEndShape(s: string)
    ensures TrimEnd(s) == s[..|TrimEnd(s)|]
    ensures TrimEnd(s) == [] || !IsSpace(TrimEnd(s)[|TrimEnd(s)| - 1])
    ensures forall i :: |TrimEnd(s)| <= i < |s| ==> IsSpace(s[i])
  {
    if s != [] && IsSpace(s[|s| - 1]) {
      TrimEndShape(s[..|s| - 1]);
    }
  }

  /** `String.prototype.trim`: the longest substring that neither starts nor ends
      with white space, obtained by dropping white space at both ends. */
  function Trim(s: string): (r: string)
    ensures |r| <= |s|
  {
    TrimEnd(TrimStart(s))
  }

  /** The trimmed string neither starts nor ends with white space. */
  lemma TrimShape(s: string)
    ensures Trim(s) == [] || (!IsSpace(Trim(s)[0]) && !IsSpace(Trim(s)[|Trim(s)| - 1]))
  {
    TrimStartShape(s);
    TrimEndShape(TrimStart(s));
  }

  /** A string that already has no white space at either end is its own trim. */
  lemma TrimNoop(s: string)
    requires s == [] || (!IsSpace(s[0]) && !IsSpace(s[|s| - 1]))
    ensures Trim(s) == s
  {
  }

  /** Trimming twice is trimming once. */
  lemma TrimIdempotent(s: string)
    ensures Trim(Trim(s)) == Trim(s)
  {
    TrimShape(s);
    TrimNoop(Trim(s));
  }

  /** `toLowerCase` on one character, for the ASCII letters. */
  function LowerChar(c: char): char {
    if 'A' <= c <= 'Z' then (c as int + 32) as char else c
  }

  /** `toUpperCase` on one character, for the ASCII letters. */
  function UpperChar(c: char): char {
    if 'a' <= c <= 'z' then (c as int - 32) as char else c
  }

  /** `String.prototype.toLowerCase` restricted to ASCII letters. */
  function ToLower(s: string): (r: string)
    ensures |r| == |s|
    ensures forall i :: 0 <= i < |s| ==> r[i] == LowerChar(s[i])
  {
    seq(|s|, i requires 0 <= i < |s| => LowerChar(s[i]))
  }

  /** `String.prototype.toUpperCase` restricted to ASCII letters. */
  function ToUpper(s: string): (r: string)
    ensures |r| == |s|
    ensures forall i :: 0 <= i < |s| ==> r[i] == UpperChar(s[i])
  {
    seq(|s|, i requires 0 <= i < |s| => UpperChar(s[i]))
  }

  /** Lower-casing is idempotent. */
  lemma ToLowerIdempotent(s: string)
    ensures ToLower(ToLower(s)) == ToLower(s)
  {
  }

  /** `s.startsWith(p)`. */
  predicate StartsWith(s: string, p: string) {
    |p| <= |s| && s[..|p|] == p
  }

  /** `s.includes(sub)`. */
  predicate Contains(s: string, sub: string)
    decreases |s|
  {
    StartsWith(s, sub) || (s != [] && Contains(s[1..], sub))
  }

  // ---------------------------------------------------------------------------
  // split / join on a one-character separator
  // ---------------------------------------------------------------------------

  /** `s.split(sep)` for a one-character separator: the maximal pieces between
      separators, always at least one (the empty string splits to `[""]`). */
  function Split(s: string, sep: char): (r: seq<string>)
    ensures |r| >= 1
    ensures forall k :: 0 <= k < |r| ==> sep !in r[k]
  {
    if s == [] then [[]]
    else
      var rest := Split(s[1..], sep);
      if s[0] == sep then [[]] + rest else [[s[0]] + rest[0]] + rest[1..]
  }

  /** `parts.join(sep)`. */
  function Join(parts: seq<string>, sep: char): string {
    if |parts| == 0 then []
    else if |parts| == 1 then parts[0]
    else parts[0] + [sep] + Join(parts[1..], sep)
  }

  /** Splitting and re-joining on the same separator gives back the string. */
  lemma {:induction false} JoinSplit(s: string, sep: char)
    ensures Join(Split(s, sep), sep) == s
  {
    if s != [] {
      var rest := Split(s[1..], sep);
      JoinSplit(s[1..], sep);
      if s[0] == sep {
        assert Split(s, sep) == [[]] + rest;
        assert ([[]] + rest)[1..] == rest;
      } else if |rest| == 1 {
        assert Split(s, sep) == [[s[0]] + rest[0]];
      } else {
        var r := [[s[0]] + rest[0]] + rest[1..];
        assert Split(s, sep) == r;
        assert r[1..] == rest[1..];
        assert Join(rest, sep) == rest[0] + [sep] + Join(rest[1..], sep);
      }
    }
  }

  /** The joined text starts with the first part. */
  lemma JoinHead(parts: seq<string>, sep: char)
    requires parts != []
    ensures |Join(parts, sep)| >= |parts[0]| && Join(parts, sep)[..|parts[0]|] == parts[0]
  {
    if |parts| > 1 {
      assert Join(parts, sep) == parts[0] + ([sep] + Join(parts[1..], sep));
    }
  }

  /** The text before the first `sep` (all of `s` when there is none). */
  function BeforeFirst(s: string, sep: char): (r: string)
    ensures sep !in r
  {
    if s == [] || s[0] == sep then [] else [s[0]] + BeforeFirst(s[1..], sep)
  }

  /** The text after the first `sep` (empty when there is none). */
  function AfterFirst(s: string, sep: char): string {
    if s == [] then []
    else if s[0] == sep then s[1..]
    else AfterFirst(s[1..], sep)
  }

  /** `BeforeFirst` and `AfterFirst` cut `s` at its first separator. */
  lemma {:induction false} CutAtFirst(s: string, sep: char)
    ensures s == BeforeFirst(s, sep) + (if sep in s then [sep] + AfterFirst(s, sep) else [])
    ensures sep !in s ==> AfterFirst(s, sep) == []
  {
    if s != [] && s[0] != sep {
      CutAtFirst(s[1..], sep);
      assert sep in s <==> sep in s[1..] by {
        assert s == [s[0]] + s[1..];
      }
    }
  }

  /** Destructuring `[head, ...tail] = s.split(sep)` and re-joining `tail` with
      `sep` yields the text before and the text after the first separator. */
  lemma {:induction false} SplitHeadTail(s: string, sep: char)
    ensures Split(s, sep)[0] == BeforeFirst(s, sep)
    ensures Join(Split(s, sep)[1..], sep) == AfterFirst(s, sep)
  {
    if s != [] {
      var rest := Split(s[1..], sep);
      SplitHeadTail(s[1..], sep);
      if s[0] == sep {
        assert Split(s, sep)[1..] == rest;
        JoinSplit(s[1..], sep);
      } else {
        assert Split(s, sep)[1..] == rest[1..];
      }
    }
  }

  /** The concatenation of a sequence of strings (or of any sequences). */
  function Concat<T>(parts: seq<seq<T>>): seq<T> {
    if parts == [] then [] else parts[0] + Concat(parts[1..])
  }

  /** Concatenation distributes over sequence concatenation. */
  lemma {:induction false} ConcatAppend<T>(a: seq<seq<T>>, b: seq<seq<T>>)
    ensures Concat(a + b) == Concat(a) + Concat(b)
  {
    if a == [] {
      assert a + b == b;
    } else {
      assert (a + b)[1..] == a[1..] + b;
      ConcatAppend(a[1..], b);
    }
  }

  lemma TakeAll<T>(s: seq<T>)
    ensures s[..|s|] == s
  {
  }

  /** The `forEach` that appends one line per entry to a text buffer. */
  method AppendLines(start: string, lines: seq<string>) returns (buf: string)
    ensures buf == start + Concat(lines)
  {
    buf := start;
    for i := 0 to |lines|
      invariant buf == start + Concat(lines[..i])
    {
      ConcatSnoc(lines, i);
      buf := buf + lines[i];
    }
    TakeAll(lines);
  }

  /** The concatenation of a prefix one element longer. */
  lemma ConcatSnoc<T>(lines: seq<seq<T>>, i: nat)
    requires i < |lines|
    ensures Concat(lines[..i + 1]) == Concat(lines[..i]) + lines[i]
  {
    assert lines[..i + 1] == lines[..i] + [lines[i]];
    ConcatAppend(lines[..i], [lines[i]]);
    assert Concat([lines[i]]) == lines[i] + [];
    assert lines[i] + [] == lines[i];
  }

  // ---------------------------------------------------------------------------
  // Numbers
  // ---------------------------------------------------------------------------

  predicate IsDigit(c: char) {
    '0' <= c <= '9'
  }

  predicate AllDigits(s: string) {
    forall i :: 0 <= i < |s| ==> IsDigit(s[i])
  }

  function DigitChar(d: nat): (c: char)
    requires d < 10
    ensures IsDigit(c)
  {
    ('0' as int + d) as char
  }

  function DigitValue(c: char): (d: nat)
    requires IsDigit(c)
    ensures d < 10
  {
    c as int - '0' as int
  }

  /** The decimal rendering of a natural number, as template literals print it. */
  function Decimal(n: nat): (r: string)
    ensures |r| >= 1 && AllDigits(r)
  {
    if n < 10 then [DigitChar(n)] else Decimal(n / 10) + [DigitChar(n % 10)]
  }

  /** The rendering of an integer, with a leading minus sign when negative. */
  function IntToString(n: int): string {
    if n < 0 then "-" + Decimal(-n) else Decimal(n)
  }

  /** The value of a string of decimal digits (leading zeros allowed). */
  function DigitsValue(s: string): nat
    requires AllDigits(s)
  {
    if s == [] then 0 else DigitsValue(s[..|s| - 1]) * 10 + DigitValue(s[|s| - 1])
  }

  /** A JavaScript number, with the finite values taken exactly (rounding to the
      nearest double is not modelled). */
  datatype JsNumber = NaN | PosInfinity | NegInfinity | Finite(value: real)

  /** The value of a digit in bases up to 16 (`0`-`9`, `a`-`f`, `A`-`F`). */
  function DigitIn(c: char): Option<nat> {
    if '0' <= c <= '9' then Some(c as int - '0' as int)
    else if 'a' <= c <= 'f' then Some(c as int - 'a' as int + 10)
    else if 'A' <= c <= 'F' then Some(c as int - 'A' as int + 10)
    else None
  }

  predicate AllDigitsIn(s: string, base: nat) {
    forall i :: 0 <= i < |s| ==> DigitIn(s[i]).Some? && DigitIn(s[i]).value < base
  }

  /** The value of a string of digits in `base`. */
  function ValueIn(s: string, base: nat): nat
    requires AllDigitsIn(s, base)
  {
    if s == [] then 0 else ValueIn(s[..|s| - 1], base) * base + DigitIn(s[|s| - 1]).value
  }

  /** Ten to the power `n`. */
  function Pow10(n: nat): (r: real)
    ensures r >= 1.0
  {
    if n == 0 then 1.0 else 10.0 * Pow10(n - 1)
  }

  /** `e` or `E` followed by an optional sign and decimal digits: the exponent. */
  function Exponent(x: string): Option<int> {
    var digits := if x != [] && (x[0] == '+' || x[0] == '-') then x[1..] else x;
    if digits != [] && AllDigits(digits) then
      var v: int := DigitsValue(digits);
      Some(if x[0] == '-' then -v else v)
    else None
  }

  /** An unsigned decimal literal without exponent: `d+`, `d+.d*` or `.d+`. */
  function Mantissa(m: string): Option<real> {
    var ip := BeforeFirst(m, '.');
    var fp := AfterFirst(m, '.');
    if AllDigits(ip) && AllDigits(fp) && (ip != [] || fp != []) && ('.' in m || fp == []) then
      Some(DigitsValue(ip) as real + DigitsValue(fp) as real / Pow10(|fp|))
    else None
  }

  /** The StrUnsignedDecimalLiteral grammar of ECMAScript section 7.1.4.1, apart
      from `Infinity`. */
  function UnsignedDecimal(u: string): Option<real> {
    var m := BeforeFirst(ExponentMarks(u), 'e');
    if 'e' in ExponentMarks(u) then
      match (Mantissa(m), Exponent(AfterFirst(ExponentMarks(u), 'e')))
      case (Some(v), Some(x)) => Some(if x >= 0 then v * Pow10(x) else v / Pow10(-x))
      case _ => None
    else Mantissa(u)
  }

  /** `u` with `E` written as `e` (the two exponent markers are interchangeable;
      every other letter makes the literal invalid anyway). */
  function ExponentMarks(u: string): (r: string)
    ensures |r| == |u|
  {
    seq(|u|, i requires 0 <= i < |u| => if u[i] == 'E' then 'e' else u[i])
  }

  /** `Number(s)` (ECMAScript section 7.1.4.1.1, StringToNumber): white space
      around a decimal literal with optional sign and exponent, `Infinity`, or an
      unsigned `0x`/`0o`/`0b` integer; the blank string is 0; anything else NaN. */
  function ToNumber(s: string): (r: JsNumber) {
    var t := Trim(s);
    if t == [] then Finite(0.0)
    else if |t| > 2 && t[0] == '0' && (t[1] == 'x' || t[1] == 'X' || t[1] == 'o' || t[1] == 'O' || t[1] == 'b' || t[1] == 'B') then
      var base := if t[1] == 'x' || t[1] == 'X' then 16 else if t[1] == 'o' || t[1] == 'O' then 8 else 2;
      if AllDigitsIn(t[2..], base) then Finite(ValueIn(t[2..], base) as real) else NaN
    else
      var negative := t[0] == '-';
      var u := if t[0] == '+' || t[0] == '-' then t[1..] else t;
      if u == "Infinity" then (if negative then NegInfinity else PosInfinity)
      else
        match UnsignedDecimal(u)
        case Some(v) => Finite(if negative then -v else v)
        case None => NaN
  }

  /** Reading back the decimal rendering of `n` gives `n`. */
  lemma {:induction false} DecimalRoundTrip(n: nat)
    ensures DigitsValue(Decimal(n)) == n
  {
    if n >= 10 {
      var d := Decimal(n / 10) + [DigitChar(n % 10)];
      assert d[..|d| - 1] == Decimal(n / 10);
      DecimalRoundTrip(n / 10);
    }
  }

  lemma {:induction false} NoSeparatorInDigits(s: string, sep: char)
    requires AllDigits(s) && !IsDigit(sep)
    ensures BeforeFirst(s, sep) == s && AfterFirst(s, sep) == [] && sep !in s
  {
    CutAtFirst(s, sep);
    if s != [] {
      NoSeparatorInDigits(s[1..], sep);
    }
  }

  /** `Number` of a non-empty string of decimal digits is their value. */
  lemma NumberOfDigits(t: string)
    requires t != [] && AllDigits(t)
    ensures ToNumber(t) == Finite(DigitsValue(t) as real)
  {
    assert IsDigit(t[0]) && IsDigit(t[|t| - 1]);
    TrimNoop(t);
    assert |t| > 2 ==> IsDigit(t[1]);
    assert t != "Infinity" by { assert IsDigit(t[0]); }
    UnsignedOfDigits(t);
  }

  lemma UnsignedOfDigits(t: string)
    requires t != [] && AllDigits(t)
    ensures UnsignedDecimal(t) == Some(DigitsValue(t) as real)
  {
    assert ExponentMarks(t) == t;
    NoSeparatorInDigits(t, 'e');
    MantissaOfDigits(t);
  }

  lemma MantissaOfDigits(t: string)
    requires t != [] && AllDigits(t)
    ensures Mantissa(t) == Some(DigitsValue(t) as real)
  {
    NoSeparatorInDigits(t, '.');
    assert DigitsValue([]) == 0 && Pow10(0) == 1.0;
  }

  /** `Number` of a printed natural number is that number: a number shown in a
      menu, typed back, designates the same entry. */
  lemma NumberOfDecimal(n: nat)
    ensures ToNumber(Decimal(n)) == Finite(n as real)
  {
    NumberOfDigits(Decimal(n));
    DecimalRoundTrip(n);
  }
}
