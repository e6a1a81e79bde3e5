/**
 * The few JavaScript string behaviours the block model relies on:
 * printing a non-negative integer in decimal (template literals such as
 * `text-${Date.now()}`), `String.prototype.startsWith`, and the global
 * `parseInt` with its default radix on decimal input.
 */
module Strings {
  import opened Wrappers

  predicate IsDigit(c: char) {
    '0' <= c <= '9'
  }

  predicate AllDigits(s: string) {
    forall i :: 0 <= i < |s| ==> IsDigit(s[i])
  }

  function DigitChar(d: nat): (c: char)
    requires d < 10
    ensures IsDigit(c)
  {
    ['0', '1', '2', '3', '4', '5', '6', '7', '8', '9'][d]
  }

  function DigitValue(c: char): (d: nat)
    requires IsDigit(c)
    ensures d < 10
  {
    (c as int - '0' as int) as nat
  }

  lemma DigitRoundTrip(d: nat)
    requires d < 10
    ensures DigitValue(DigitChar(d)) == d
  {
  }

  /** The decimal text of `n`, as `${n}` prints a non-negative integer. */
  function NatToString(n: nat): (s: string)
    ensures |s| >= 1 && AllDigits(s)
  {
    if n < 10 then [DigitChar(n)] else NatToString(n / 10) + [DigitChar(n % 10)]
  }

  /** The value of a string of decimal digits, most significant first. */
  function DigitsValue(s: string): nat
    requires AllDigits(s)
  {
    if |s| == 0 then 0 else DigitsValue(s[..|s| - 1]) * 10 + DigitValue(s[|s| - 1])
  }

  lemma {:induction false} DigitsValueOfNatToString(n: nat)
    ensures DigitsValue(NatToString(n)) == n
  {
    if n >= 10 {
      var s := NatToString(n);
      assert s[..|s| - 1] == NatToString(n / 10);
      DigitsValueOfNatToString(n / 10);
      DigitRoundTrip(n % 10);
    } else {
      DigitRoundTrip(n);
    }
  }

  /** Printing is injective: two timestamps print alike only when they are equal. */
  lemma NatToStringInjective(a: nat, b: nat)
    ensures NatToString(a) == NatToString(b) <==> a == b
  {
    if NatToString(a) == NatToString(b) {
      DigitsValueOfNatToString(a);
      DigitsValueOfNatToString(b);
    }
  }

  predicate StartsWith(s: string, prefix: string) {
    |prefix| <= |s| && s[..|prefix|] == prefix
  }

  /**
   * The characters `parseInt` skips before the number: ECMAScript's white
   * space (tab, vertical tab, form feed, space, no-break space, the byte
   * order mark and the other space separators) and its line terminators.
   */
  predicate IsSpace(c: char) {
    || c == '\t' || c == '\U{000B}' || c == '\U{000C}' || c == ' ' || c == '\U{00A0}' || c == '\U{FEFF}'
    || c == '\U{1680}' || ('\U{2000}' <= c <= '\U{200A}') || c == '\U{202F}' || c == '\U{205F}' || c == '\U{3000}'
    || c == '\n' || c == '\r' || c == '\U{2028}' || c == '\U{2029}'
  }

  function TrimStart(s: string): (t: string)
    ensures |t| <= |s| && t == s[|s| - |t|..]
    ensures |t| > 0 ==> !IsSpace(t[0])
  {
    if |s| > 0 && IsSpace(s[0]) then TrimStart(s[1..]) else s
  }

  /** The longest prefix of `s` made of decimal digits. */
  function DigitPrefix(s: string): (d: string)
    ensures AllDigits(d) && StartsWith(s, d)
    ensures |d| < |s| ==> !IsDigit(s[|d|])
  {
    if |s| > 0 && IsDigit(s[0]) then [s[0]] + DigitPrefix(s[1..]) else []
  }

  /**
   * JavaScript's `parseInt(s)` on decimal input: leading white space is
   * skipped, one optional sign is read, then the longest run of digits;
   * `None` stands for `NaN` (no digit where the number should start).
   * Whatever follows the digits is ignored.
   */
  function ParseInt(s: string): (r: Option<int>)
    ensures r.None? <==> |DigitPrefix(Unsigned(TrimStart(s)))| == 0
  {
    var t := TrimStart(s);
    var d := DigitPrefix(Unsigned(t));
    if |d| == 0 then None
    else if |t| > 0 && t[0] == '-' then Some(-(DigitsValue(d) as int))
    else Some(DigitsValue(d))
  }

  /** `t` without its leading sign, if it has one. */
  function Unsigned(t: string): (u: string)
    ensures |t| > 0 && (t[0] == '-' || t[0] == '+') ==> u == t[1..]
    ensures !(|t| > 0 && (t[0] == '-' || t[0] == '+')) ==> u == t
  {
    if |t| > 0 && (t[0] == '-' || t[0] == '+') then t[1..] else t
  }

  /** `parseInt(s) || fallback`: `NaN` and `0` are both falsy, so both give the fallback. */
  function ParseIntOr(s: string, fallback: int): (r: int)
    ensures ParseInt(s).Some? && ParseInt(s).value != 0 ==> r == ParseInt(s).value
    ensures ParseInt(s).None? || ParseInt(s).value == 0 ==> r == fallback
  {
    match ParseInt(s)
    case Some(v) => if v != 0 then v else fallback
    case None => fallback
  }

  lemma {:induction false} DigitPrefixOfDigits(s: string)
    requires AllDigits(s)
    ensures DigitPrefix(s) == s
  {
    if |s| > 0 {
      DigitPrefixOfDigits(s[1..]);
    }
  }

  /** A string of digits parses to its value, and with a leading minus to its negation. */
  lemma ParseIntOfDigits(s: string)
    requires |s| > 0 && AllDigits(s)
    ensures ParseInt(s) == Some(DigitsValue(s))
    ensures ParseInt("-" + s) == Some(-(DigitsValue(s) as int))
  {
    DigitPrefixOfDigits(s);
    NoSpaceNoSign(s);
    ParseIntAfterTrim(s, s);
    var m := "-" + s;
    assert m[0] == '-' && m[1..] == s;
    NoSpaceSign(m);
    ParseIntAfterTrim(m, s);
  }

  lemma NoSpaceNoSign(s: string)
    requires |s| > 0 && IsDigit(s[0])
    ensures TrimStart(s) == s && Unsigned(s) == s
  {
    assert !IsSpace(s[0]);
  }

  lemma NoSpaceSign(m: string)
    requires |m| > 0 && m[0] == '-'
    ensures TrimStart(m) == m && Unsigned(m) == m[1..]
  {
  }

  /** Once white space and sign are settled, the value is that of the digits after them. */
  lemma ParseIntAfterTrim(s: string, d: string)
    requires |d| > 0 && AllDigits(d)
    requires Unsigned(TrimStart(s)) == d && DigitPrefix(d) == d
    ensures var t := TrimStart(s);
      ParseInt(s) == if |t| > 0 && t[0] == '-' then Some(-(DigitsValue(d) as int)) else Some(DigitsValue(d))
  {
  }

  /** `parseInt` reads back what `${n}` printed. */
  lemma ParseIntRoundTrip(n: nat)
    ensures ParseInt(NatToString(n)) == Some(n)
  {
    ParseIntOfDigits(NatToString(n));
    DigitsValueOfNatToString(n);
  }

  /** Leading white space of any kind, an ideographic space or a line separator included, is skipped. */
  lemma LeadingSpaceSkipped(c: char, n: nat)
    requires IsSpace(c)
    ensures ParseInt([c] + NatToString(n)) == Some(n)
  {
    var d := NatToString(n);
    assert ([c] + d)[1..] == d;
    assert TrimStart([c] + d) == TrimStart(d);
    ParseIntRoundTrip(n);
  }

  /** Text without any digit after the sign parses to `NaN`; the empty input is the common case. */
  lemma ParseIntEmpty()
    ensures ParseInt("") == None
    ensures ParseIntOr("", 20) == 20
  {
  }
}
