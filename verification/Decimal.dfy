/** Decimal printing and parsing of integers, as std::to_string, std::stoll and std::stoi do it. */
module Decimal {
  import opened Common

  predicate IsDigit(c: char) {
    '0' <= c <= '9'
  }

  function DigitChar(d: nat): char
    requires d < 10
  {
    ('0' as int + d) as char
  }

  function DigitValue(c: char): nat
    requires IsDigit(c)
  {
    c as int - '0' as int
  }

  predicate AllDigits(s: string) {
    forall i :: 0 <= i < |s| ==> IsDigit(s[i])
  }

  function PrintNat(n: nat): (s: string)
    ensures 0 < |s| && AllDigits(s)
  {
    if n < 10 then [DigitChar(n)] else PrintNat(n / 10) + [DigitChar(n % 10)]
  }

  function Print(n: int): (s: string)
    ensures 0 < |s|
    ensures forall i :: 0 <= i < |s| ==> IsDigit(s[i]) || s[i] == '-'
  {
    if n < 0 then "-" + PrintNat(-n) else PrintNat(n)
  }

  function NatValue(s: string): nat
    requires AllDigits(s)
  {
    if s == "" then 0 else NatValue(s[..|s| - 1]) * 10 + DigitValue(s[|s| - 1])
  }

  /** A digit appended multiplies by ten and adds itself. */
  lemma NumeralGrows(s: string, d: nat)
    requires AllDigits(s) && d < 10
    ensures NatValue("") == 0
    ensures AllDigits(s + ["0123456789"[d]]) && NatValue(s + ["0123456789"[d]]) == 10 * NatValue(s) + d
  {
    assert (s + ["0123456789"[d]])[..|s|] == s;
  }

  /** Printing loses nothing. */
  lemma {:induction false} NatRoundTrip(n: nat)
    ensures NatValue(PrintNat(n)) == n
  {
    var s := PrintNat(n);
    if n < 10 {
      assert s[..|s| - 1] == "";
    } else {
      NatRoundTrip(n / 10);
      assert s[..|s| - 1] == PrintNat(n / 10);
    }
  }

  lemma PrintNatInjective(m: nat, n: nat)
    requires PrintNat(m) == PrintNat(n)
    ensures m == n
  {
    NatRoundTrip(m);
    NatRoundTrip(n);
  }

  predicate IsSpace(c: char) {
    c == ' ' || c == '\t' || c == '\n' || c == '\r' || c == '\U{0B}' || c == '\U{0C}'
  }

  function SkipSpaces(s: string): (r: string)
    ensures r == "" || !IsSpace(r[0])
  {
    if s != "" && IsSpace(s[0]) then SkipSpaces(s[1..]) else s
  }

  /** The longest prefix of digits. */
  function DigitPrefix(s: string): (r: string)
    ensures AllDigits(r) && r <= s
  {
    if s != "" && IsDigit(s[0]) then [s[0]] + DigitPrefix(s[1..]) else ""
  }

  lemma {:induction false} DigitPrefixOfDigits(s: string)
    requires AllDigits(s)
    ensures DigitPrefix(s) == s
  {
    if s != "" {
      DigitPrefixOfDigits(s[1..]);
      assert s == [s[0]] + s[1..];
    }
  }

  /** Leading blanks, an optional sign, then digits; whatever follows them is ignored. None stands for
      the exception thrown when there is no digit or the value is outside [lo, hi]. */
  function ParseIn(s: string, lo: int, hi: int): (r: Option<int>)
    ensures r.Some? ==> lo <= r.value <= hi
  {
    var t := SkipSpaces(s);
    var negative := t != "" && t[0] == '-';
    var signed := t != "" && (t[0] == '-' || t[0] == '+');
    var digits := DigitPrefix(if signed then t[1..] else t);
    if digits == "" then None else
      var magnitude: int := NatValue(digits);
      var v := if negative then -magnitude else magnitude;
      if lo <= v <= hi then Some(v) else None
  }

  function Stoll(s: string): (r: Option<int>)
    ensures r.Some? ==> InInt64(r.value)
  {
    ParseIn(s, INT64_MIN, INT64_MAX)
  }

  function Stoi(s: string): (r: Option<int>)
    ensures r.Some? ==> -0x8000_0000 <= r.value <= 0x7FFF_FFFF
  {
    ParseIn(s, -0x8000_0000, 0x7FFF_FFFF)
  }

  /** Base ten, most significant digit first. */
  lemma PrintsInBaseTen(n: nat)
    ensures PrintNat(n) == (if n < 10 then "" else PrintNat(n / 10)) + ["0123456789"[n % 10]]
    ensures Print(n) == PrintNat(n) && (n > 0 ==> Print(-(n as int)) == "-" + PrintNat(n))
  {
  }

  lemma {:induction false} BlanksAreSkipped(blanks: string, rest: string)
    requires (forall i :: 0 <= i < |blanks| ==> IsSpace(blanks[i])) && (rest == "" || !IsSpace(rest[0]))
    ensures SkipSpaces(blanks + rest) == rest
  {
    if blanks == "" {
      assert blanks + rest == rest;
    } else {
      assert (blanks + rest)[1..] == blanks[1..] + rest;
      BlanksAreSkipped(blanks[1..], rest);
    }
  }

  lemma {:induction false} DigitsEnd(digits: string, rest: string)
    requires AllDigits(digits) && (rest == "" || !IsDigit(rest[0]))
    ensures DigitPrefix(digits + rest) == digits
  {
    if digits == "" {
      assert digits + rest == rest;
    } else {
      assert (digits + rest)[1..] == digits[1..] + rest;
      DigitsEnd(digits[1..], rest);
    }
  }

  /** What the conversions accept: blanks, at most one sign, a numeral, anything. Without a digit, or out of range,
      they throw. */
  lemma ParseMeans(blanks: string, sign: string, digits: string, rest: string, lo: int, hi: int)
    requires forall i :: 0 <= i < |blanks| ==> IsSpace(blanks[i])
    requires sign == "" || sign == "+" || sign == "-"
    requires AllDigits(digits) && (rest == "" || !IsDigit(rest[0]))
    requires digits == "" && sign == "" ==> rest == "" || (!IsSpace(rest[0]) && rest[0] != '+' && rest[0] != '-')
    ensures var v := if sign == "-" then -(NatValue(digits) as int) else NatValue(digits);
            ParseIn(blanks + sign + digits + rest, lo, hi)
            == if digits != "" && lo <= v <= hi then Some(v) else None
  {
    hide SkipSpaces, DigitPrefix, NatValue;
    var body := digits + rest;
    var text := sign + body;
    assert blanks + sign + digits + rest == blanks + text;
    assert digits != "" ==> body[0] == digits[0];
    assert sign != "" ==> text[0] == sign[0] && text[1..] == body;
    assert sign == "" ==> text == body;
    BlanksAreSkipped(blanks, text);
    DigitsEnd(digits, rest);
  }

  /** Whatever was printed in range parses back, down to the most negative value. */
  lemma PrintParses(n: int, lo: int, hi: int)
    requires lo <= n <= hi
    ensures ParseIn(Print(n), lo, hi) == Some(n)
  {
    var digits := PrintNat(if n < 0 then -n else n);
    DigitPrefixOfDigits(digits);
    NatRoundTrip(if n < 0 then -n else n);
    if n < 0 {
      assert Print(n) == ['-'] + digits;
      assert Print(n)[1..] == digits;
    } else {
      assert IsDigit(digits[0]);
    }
  }
}
