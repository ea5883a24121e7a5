/**
 * The JavaScript string primitives the core relies on, stated over `seq<char>`:
 * `trim`, `toLowerCase` (ASCII letters), `startsWith`/`endsWith`, the `\D`
 * digit filter, `String(n)` for non-negative integers and `parseInt(s, 10)`.
 */
module Text {
  import opened Base

  /** ECMAScript WhiteSpace and LineTerminator code points: the set `trim` strips and `\s` matches. */
  predicate IsWhitespace(c: char) {
    var n := c as int;
    n == 0x09 || n == 0x0A || n == 0x0B || n == 0x0C || n == 0x0D || n == 0x20
    || n == 0xA0 || n == 0x1680 || (0x2000 <= n <= 0x200A) || n == 0x2028
    || n == 0x2029 || n == 0x202F || n == 0x205F || n == 0x3000 || n == 0xFEFF
  }

  predicate NoWhitespace(s: string) {
    forall i :: 0 <= i < |s| ==> !IsWhitespace(s[i])
  }

  /** `s` with its leading whitespace removed. */
  function TrimStart(s: string): (r: string)
    ensures |r| <= |s| && r == s[|s| - |r|..]
    ensures r == [] || !IsWhitespace(r[0])
    ensures forall i :: 0 <= i < |s| - |r| ==> IsWhitespace(s[i])
  {
    if s != [] && IsWhitespace(s[0]) then TrimStart(s[1..]) else s
  }

  /** `s` with its trailing whitespace removed. */
  function TrimEnd(s: string): (r: string)
    ensures |r| <= |s| && r == s[..|r|]
    ensures r == [] || !IsWhitespace(r[|r| - 1])
    ensures forall i :: |r| <= i < |s| ==> IsWhitespace(s[i])
  {
    if s != [] && IsWhitespace(s[|s| - 1]) then TrimEnd(s[..|s| - 1]) else s
  }

  /** JavaScript `s.trim()`. */
  function Trim(s: string): string {
    TrimEnd(TrimStart(s))
  }

  /** A string whose ends are not whitespace is its own trim. */
  lemma {:induction false} TrimOfTrimmed(s: string)
    requires s == [] || (!IsWhitespace(s[0]) && !IsWhitespace(s[|s| - 1]))
    ensures Trim(s) == s
  {
  }

  /** `trim` is idempotent. */
  lemma {:induction false} TrimIdempotent(s: string)
    ensures Trim(Trim(s)) == Trim(s)
  {
    var t := Trim(s);
    if t != [] {
      var u := TrimStart(s);
      assert t == u[..|t|];
      assert t[0] == u[0];
    }
    TrimOfTrimmed(t);
  }

  /** A trimmed string has no whitespace at either end. */
  lemma TrimEnds(s: string)
    ensures var t := Trim(s); t == [] || (!IsWhitespace(t[0]) && !IsWhitespace(t[|t| - 1]))
  {
    var t := Trim(s);
    if t != [] {
      var u := TrimStart(s);
      assert t == u[..|t|];
      assert t[0] == u[0];
    }
  }

  /** JavaScript `toLowerCase` on one character; only ASCII letters are mapped. */
  function LowerChar(c: char): char {
    if 'A' <= c <= 'Z' then (c as int + 32) as char else c
  }

  /** JavaScript `s.toLowerCase()` for strings whose letters are ASCII. */
  function ToLower(s: string): (r: string)
    ensures |r| == |s|
    ensures forall i :: 0 <= i < |s| ==> r[i] == LowerChar(s[i])
  {
    if s == [] then [] else [LowerChar(s[0])] + ToLower(s[1..])
  }

  lemma ToLowerIdempotent(s: string)
    ensures ToLower(ToLower(s)) == ToLower(s)
  {
  }

  predicate StartsWith(s: string, prefix: string) {
    |prefix| <= |s| && s[..|prefix|] == prefix
  }

  predicate EndsWith(s: string, suffix: string) {
    |suffix| <= |s| && s[|s| - |suffix|..] == suffix
  }

  predicate IsDigit(c: char) {
    '0' <= c <= '9'
  }

  predicate AllDigits(s: string) {
    forall i :: 0 <= i < |s| ==> IsDigit(s[i])
  }

  /** `s.replace(/\D/g, "")`: the ASCII digits of `s`, in order. */
  function DigitsOf(s: string): (r: string)
    ensures AllDigits(r)
    ensures |r| <= |s|
  {
    if s == [] then []
    else (if IsDigit(s[0]) then [s[0]] else []) + DigitsOf(s[1..])
  }

  function DigitValue(c: char): nat
    requires IsDigit(c)
  {
    c as int - '0' as int
  }

  function DigitChar(d: nat): (c: char)
    requires d < 10
    ensures IsDigit(c) && DigitValue(c) == d
  {
    ('0' as int + d) as char
  }

  /** The value of a string of decimal digits. */
  function DigitsValue(ds: string): nat
    requires AllDigits(ds)
  {
    if ds == [] then 0 else 10 * DigitsValue(ds[..|ds| - 1]) + DigitValue(ds[|ds| - 1])
  }

  /** `String(n)` for a non-negative integer: its canonical decimal form. */
  function DecimalString(n: nat): (r: string)
    ensures r != [] && AllDigits(r)
    ensures |r| > 1 ==> r[0] != '0'
  {
    if n < 10 then [DigitChar(n)] else DecimalString(n / 10) + [DigitChar(n % 10)]
  }

  /** Reading back the canonical decimal form gives the number. */
  lemma {:induction false} DecimalStringValue(n: nat)
    ensures DigitsValue(DecimalString(n)) == n
  {
    if n >= 10 {
      var r := DecimalString(n);
      assert r[..|r| - 1] == DecimalString(n / 10);
      DecimalStringValue(n / 10);
    }
  }

  /** The longest prefix of `s` made of decimal digits. */
  function LeadingDigits(s: string): (r: string)
    ensures AllDigits(r) && StartsWith(s, r)
    ensures |r| == |s| || !IsDigit(s[|r|])
  {
    if s != [] && IsDigit(s[0]) then [s[0]] + LeadingDigits(s[1..]) else []
  }

  lemma {:induction false} LeadingDigitsOfDigits(s: string)
    requires AllDigits(s)
    ensures LeadingDigits(s) == s
  {
    if s != [] {
      LeadingDigitsOfDigits(s[1..]);
    }
  }

  /**
   * `parseInt(s, 10)`: skip leading whitespace, read an optional sign, then the
   * longest run of decimal digits; `None` stands for `NaN` (no digits at all).
   */
  function ParseInt(s: string): (r: Option<int>)
  {
    var t := TrimStart(s);
    var negative := t != [] && t[0] == '-';
    var body := if t != [] && (t[0] == '-' || t[0] == '+') then t[1..] else t;
    var ds := LeadingDigits(body);
    if ds == [] then None
    else if negative then Some(-(DigitsValue(ds) as int))
    else Some(DigitsValue(ds))
  }

  /** `parseInt(String(n), 10) == n` for every non-negative integer. */
  lemma DecimalStringParses(n: nat)
    ensures ParseInt(DecimalString(n)) == Some(n)
  {
    var r := DecimalString(n);
    assert TrimStart(r) == r;
    LeadingDigitsOfDigits(r);
    DecimalStringValue(n);
  }

  /** `String(n)` for any integer: a minus sign before the magnitude's decimal form. */
  function IntString(n: int): (r: string)
    ensures n >= 0 ==> r == DecimalString(n)
    ensures n < 0 ==> r == "-" + DecimalString(-n)
  {
    if n >= 0 then DecimalString(n) else "-" + DecimalString(-n)
  }

  /** `parseInt(String(n), 10) == n` for every integer. */
  lemma IntStringParses(n: int)
    ensures ParseInt(IntString(n)) == Some(n)
  {
    if n >= 0 {
      DecimalStringParses(n);
    } else {
      var d := DecimalString(-n);
      var r := IntString(n);
      assert r[0] == '-' && r[1..] == d;
      assert TrimStart(r) == r;
      LeadingDigitsOfDigits(d);
      DecimalStringValue(-n);
    }
  }

  /** A run of digits followed by a non-digit parses to the value of the digits. */
  lemma DigitsThenJunkParse(ds: string, rest: string)
    requires ds != [] && AllDigits(ds)
    requires rest == [] || !IsDigit(rest[0])
    ensures ParseInt(ds + rest) == Some(DigitsValue(ds))
  {
    var s := ds + rest;
    assert s[0] == ds[0] && IsDigit(s[0]);
    assert !IsWhitespace(s[0]);
    assert TrimStart(s) == s;
    assert s[0] != '-' && s[0] != '+';
    LeadingDigitsAppend(ds, rest);
  }

  lemma {:induction false} LeadingDigitsAppend(ds: string, rest: string)
    requires AllDigits(ds)
    requires rest == [] || !IsDigit(rest[0])
    ensures LeadingDigits(ds + rest) == ds
  {
    if ds != [] {
      assert (ds + rest)[1..] == ds[1..] + rest;
      LeadingDigitsAppend(ds[1..], rest);
    }
  }

  /** `xs.join(" ")`. */
  function JoinWithSpace(xs: seq<string>): (r: string)
  {
    if xs == [] then []
    else if |xs| == 1 then xs[0]
    else xs[0] + " " + JoinWithSpace(xs[1..])
  }
}
