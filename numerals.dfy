/** Integers written as text: Python's `str` of a natural number (how the
    backend names sessions) and JavaScript's `parseInt(text) || 0` (how the
    client reads the age and weight boxes). */
module Numerals {
  import opened Wrappers
  import opened Text

  /** The value of `c` as a digit of base 36 (0-9, then a-z or A-Z). */
  function DigitValue(c: char): Option<nat> {
    if '0' <= c <= '9' then Some(c as int - '0' as int)
    else if 'a' <= c <= 'z' then Some(c as int - 'a' as int + 10)
    else if 'A' <= c <= 'Z' then Some(c as int - 'A' as int + 10)
    else None
  }

  predicate IsDigit(c: char, radix: nat) {
    DigitValue(c).Some? && DigitValue(c).value < radix
  }

  predicate AllDigits(s: string, radix: nat) {
    forall i :: 0 <= i < |s| ==> IsDigit(s[i], radix)
  }

  /** The number that the digits `s` denote in base `radix`. */
  function Value(s: string, radix: nat): nat
    requires AllDigits(s, radix)
  {
    if s == [] then 0 else Value(s[..|s| - 1], radix) * radix + DigitValue(s[|s| - 1]).value
  }

  function DecimalDigit(d: nat): (c: char)
    requires d < 10
    ensures IsDigit(c, 10) && DigitValue(c) == Some(d)
  {
    ('0' as int + d) as char
  }

  /** Python's `str(n)` for a natural number: decimal digits, no leading zero. */
  function Decimal(n: nat): (s: string)
    ensures s != [] && AllDigits(s, 10)
    ensures (s[0] == '0') == (n == 0)
    ensures n == 0 ==> |s| == 1
  {
    if n < 10 then [DecimalDigit(n)] else Decimal(n / 10) + [DecimalDigit(n % 10)]
  }

  /** Reading the decimal text back gives the number. */
  lemma {:induction false} DecimalValue(n: nat)
    ensures Value(Decimal(n), 10) == n
  {
    if n >= 10 {
      var s := Decimal(n);
      assert s[..|s| - 1] == Decimal(n / 10);
      DecimalValue(n / 10);
    }
  }

  /** Different numbers have different decimal texts. */
  lemma DecimalInjective(a: nat, b: nat)
    ensures Decimal(a) == Decimal(b) ==> a == b
  {
    DecimalValue(a);
    DecimalValue(b);
  }

  /** The number of digits of base `radix` that start `s`. */
  function LeadingDigits(s: string, radix: nat): (n: nat)
    ensures n <= |s|
    ensures AllDigits(s[..n], radix)
    ensures n < |s| ==> !IsDigit(s[n], radix)
  {
    if s != [] && IsDigit(s[0], radix) then 1 + LeadingDigits(s[1..], radix) else 0
  }

  /** JavaScript's `parseInt(s)` with no radix; None is NaN. Leading white
      space is skipped, then the rest is read by ParseSigned. */
  function ParseInt(s: string): Option<int> {
    ParseSigned(TrimStart(Js, s))
  }

  /** One sign is read, a "0x"/"0X" prefix selects base 16, and the longest
      run of digits that follows is the value. */
  function ParseSigned(t: string): Option<int> {
    var negative := t != [] && t[0] == '-';
    var u := if t != [] && (t[0] == '-' || t[0] == '+') then t[1..] else t;
    match ParseUnsigned(u)
    case None => None
    case Some(magnitude) => Some(if negative then -(magnitude as int) else magnitude as int)
  }

  /** The digits after the sign: base 16 after a "0x"/"0X" prefix, base 10
      otherwise; None when no digit follows. */
  function ParseUnsigned(u: string): Option<nat> {
    var hex := |u| >= 2 && u[0] == '0' && (u[1] == 'x' || u[1] == 'X');
    var radix := if hex then 16 else 10;
    var w := if hex then u[2..] else u;
    var k := LeadingDigits(w, radix);
    if k == 0 then None else Some(Value(w[..k], radix))
  }

  /** `parseInt(s) || 0`: NaN (and a zero of either sign) give 0. */
  function ParseIntOrZero(s: string): int {
    match ParseInt(s)
    case None => 0
    case Some(v) => v
  }

  /** The decimal text of a number, followed by anything that does not
      continue it, reads back as that number: the leading-integer parse. */
  lemma ParseIntOfDecimal(n: nat, tail: string)
    requires tail == [] || !IsDigit(tail[0], 10)
    requires n == 0 && tail != [] ==> tail[0] != 'x' && tail[0] != 'X'
    ensures ParseIntOrZero(Decimal(n) + tail) == n
  {
    var t := Decimal(n) + tail;
    assert t[0] == Decimal(n)[0] && IsDigit(t[0], 10);
    assert t[0] != '-' && t[0] != '+';
    ParseIntWithoutLeadingSpace(t);
    UnsignedDecimal(n, tail);
  }

  /** A minus sign in front of the decimal text negates the value. */
  lemma ParseIntOfNegativeDecimal(n: nat, tail: string)
    requires tail == [] || !IsDigit(tail[0], 10)
    requires n == 0 && tail != [] ==> tail[0] != 'x' && tail[0] != 'X'
    ensures ParseIntOrZero("-" + Decimal(n) + tail) == -(n as int)
  {
    var u := Decimal(n) + tail;
    var t := "-" + u;
    assert "-" + Decimal(n) + tail == t;
    ParseIntWithoutLeadingSpace(t);
    assert t[1..] == u;
    UnsignedDecimal(n, tail);
  }

  /** Text that does not start with white space is read as it is. */
  lemma ParseIntWithoutLeadingSpace(t: string)
    requires t != [] && !IsJsSpace(t[0])
    ensures ParseInt(t) == ParseSigned(t)
  {
    assert LeadingSpaces(Js, t) == 0;
  }

  /** After the sign: decimal digits that are not a hexadecimal prefix are
      read in base 10 up to the first non-digit. */
  lemma UnsignedDecimal(n: nat, tail: string)
    requires tail == [] || !IsDigit(tail[0], 10)
    requires n == 0 && tail != [] ==> tail[0] != 'x' && tail[0] != 'X'
    ensures ParseUnsigned(Decimal(n) + tail) == Some(n)
  {
    var d := Decimal(n);
    var u := d + tail;
    assert u[0] == d[0];
    assert n == 0 && |u| >= 2 ==> u[1] == tail[0];
    LeadingDigitsOfDigits(d, tail, 10);
    assert u[..|d|] == d;
    DecimalValue(n);
  }

  /** Digits followed by a non-digit: exactly the digits are read. */
  lemma {:induction false} LeadingDigitsOfDigits(d: string, tail: string, radix: nat)
    requires AllDigits(d, radix)
    requires tail == [] || !IsDigit(tail[0], radix)
    ensures LeadingDigits(d + tail, radix) == |d|
  {
    if d != [] {
      assert (d + tail)[1..] == d[1..] + tail;
      LeadingDigitsOfDigits(d[1..], tail, radix);
    } else {
      assert d + tail == tail;
    }
  }

  /** White space in front of the number changes nothing. */
  lemma ParseIntSkipsLeadingSpace(pad: string, s: string)
    requires IsBlank(Js, pad)
    ensures ParseInt(pad + s) == ParseInt(s)
  {
    LeadingSpacesOfPadded(Js, pad, s);
    assert TrimStart(Js, pad + s) == TrimStart(Js, s);
  }

  /** Text without any decimal digit is unparsable and becomes 0. */
  lemma ParseIntWithoutDigits(s: string)
    requires forall i :: 0 <= i < |s| ==> !IsDigit(s[i], 10)
    ensures ParseIntOrZero(s) == 0
  {
    var t := TrimStart(Js, s);
    assert forall i :: 0 <= i < |t| ==> t[i] == s[LeadingSpaces(Js, s) + i];
    var u := if t != [] && (t[0] == '-' || t[0] == '+') then t[1..] else t;
    assert forall i :: 0 <= i < |u| ==> !IsDigit(u[i], 10);
  }
}
