/** Printing and parsing of two-decimal amounts, as stored in an idempotency record. */
module Money {
  import opened Values

  function Digit(d: nat): char
    requires d < 10
  {
    '0' + (d as char)
  }

  function Digits(n: nat): string {
    if n < 10 then [Digit(n)] else Digits(n / 10) + [Digit(n % 10)]
  }

  function Units(units: nat, tenths: nat, hundredths: nat): string
    requires tenths < 10 && hundredths < 10
  {
    Digits(units) + ['.', Digit(tenths), Digit(hundredths)]
  }

  /** The decimal text of an amount of cents: an optional sign, the units, a point, two digits. */
  function Printed(cents: int): string {
    var magnitude: nat := if cents < 0 then -cents else cents;
    (if cents < 0 then "-" else "")
    + Units(magnitude / 100, magnitude % 100 / 10, magnitude % 10)
  }

  predicate IsDigit(c: char) {
    '0' <= c <= '9'
  }

  function DigitValue(c: char): nat
    requires IsDigit(c)
  {
    (c as int) - ('0' as int)
  }

  function ParsedNat(s: string): Option<nat> {
    if s == [] || !IsDigit(s[|s| - 1]) then None
    else if |s| == 1 then Some(DigitValue(s[0]))
    else
      match ParsedNat(s[..|s| - 1])
      case None => None
      case Some(front) => Some(10 * front + DigitValue(s[|s| - 1]))
  }

  function ParsedMagnitude(s: string): Option<nat> {
    if |s| < 4 || s[|s| - 3] != '.' || !IsDigit(s[|s| - 2]) || !IsDigit(s[|s| - 1]) then None
    else
      match ParsedNat(s[..|s| - 3])
      case None => None
      case Some(units) => Some(100 * units + 10 * DigitValue(s[|s| - 2]) + DigitValue(s[|s| - 1]))
  }

  /** Reads a text with exactly two decimals back into cents. */
  function Parsed(s: string): Option<int> {
    var negative := s != [] && s[0] == '-';
    var magnitude := ParsedMagnitude(if negative then s[1..] else s);
    if magnitude.None? then None
    else
      var n: int := magnitude.value;
      Some(if negative then -n else n)
  }

  lemma {:induction false} ParseDigits(n: nat)
    ensures ParsedNat(Digits(n)) == Some(n)
    ensures Digits(n) != [] && IsDigit(Digits(n)[0])
  {
    if n >= 10 {
      ParseDigits(n / 10);
      var s := Digits(n);
      assert s[..|s| - 1] == Digits(n / 10);
      assert s[0] == Digits(n / 10)[0];
    }
  }

  lemma ParseUnits(units: nat, tenths: nat, hundredths: nat)
    requires tenths < 10 && hundredths < 10
    ensures ParsedMagnitude(Units(units, tenths, hundredths)) == Some(100 * units + 10 * tenths + hundredths)
    ensures Units(units, tenths, hundredths)[0] != '-'
  {
    ParseDigits(units);
    var s := Units(units, tenths, hundredths);
    assert s[..|s| - 3] == Digits(units);
    assert s[0] == Digits(units)[0];
  }

  lemma DigitsOf(n: nat)
    ensures n == 100 * (n / 100) + 10 * (n % 100 / 10) + n % 10
  {
    assert n % 100 % 10 == n % 10;
  }

  /** Printing any amount and reading it back gives the amount. */
  lemma ParsePrinted(cents: int)
    ensures Parsed(Printed(cents)) == Some(cents)
  {
    var n: nat := if cents < 0 then -cents else cents;
    DigitsOf(n);
    ParseUnits(n / 100, n % 100 / 10, n % 10);
    var s := Units(n / 100, n % 100 / 10, n % 10);
    if cents < 0 {
      assert Printed(cents)[1..] == s;
    } else {
      assert Printed(cents) == s;
    }
  }

  lemma {:induction false} NoLeadingZero(n: nat)
    ensures Digits(n) != [] && (Digits(n)[0] == '0' <==> n == 0) && Digits(n)[0] != '-'
  {
    if n >= 10 {
      NoLeadingZero(n / 10);
    }
  }

  lemma DecimalDigits()
    ensures forall d: nat | d < 10 :: Digit(d) == "0123456789"[d]
  {
  }

  /** The text ends in a point and the two digits of the cents, has a sign below zero, and no leading zero. */
  lemma PrintedShape(cents: int)
    ensures var s := Printed(cents);
            var n := if cents < 0 then -cents else cents;
            && |s| >= 4
            && s[|s| - 3..] == ['.', "0123456789"[n % 100 / 10], "0123456789"[n % 10]]
            && (s[0] == '-' <==> cents < 0)
            && (s[if cents < 0 then 1 else 0] == '0' <==> n < 100)
  {
    var n: nat := if cents < 0 then -cents else cents;
    DecimalDigits();
    NoLeadingZero(n / 100);
    var s := Units(n / 100, n % 100 / 10, n % 10);
    assert Printed(cents) == (if cents < 0 then "-" else "") + s;
  }
}
