/**
 * The integer parsing that the handlers apply to the `:id` path segment
 * (Go's `strconv.Atoi` on a 64-bit platform), and decimal formatting
 * (`strconv.Itoa`), used to state that a stored id can be addressed again.
 *
 * `Atoi` accepts an optional `+` or `-` followed by one or more decimal
 * digits (leading zeros allowed, no spaces, no underscores) whose value
 * fits in Go's 64-bit `int`; everything else is an error.
 */
module Strconv {
  import opened Wrappers

  const MinInt: int := -0x8000_0000_0000_0000
  const MaxInt: int := 0x7fff_ffff_ffff_ffff

  /** Go's `int` on a 64-bit platform. */
  type Int64 = x: int | MinInt <= x <= MaxInt

  predicate IsDigit(c: char) {
    '0' <= c <= '9'
  }

  predicate AllDigits(s: string) {
    forall i :: 0 <= i < |s| ==> IsDigit(s[i])
  }

  function DigitValue(c: char): (d: nat)
    requires IsDigit(c)
    ensures d < 10
  {
    c as int - '0' as int
  }

  function DigitChar(d: nat): (c: char)
    requires d < 10
    ensures IsDigit(c) && DigitValue(c) == d
  {
    ('0' as int + d) as char
  }

  /** The value of a string of decimal digits, most significant first. */
  function DigitsValue(s: string): nat
    requires AllDigits(s)
  {
    if s == [] then 0 else DigitsValue(s[..|s| - 1]) * 10 + DigitValue(s[|s| - 1])
  }

  /** What follows an optional leading sign. */
  function Magnitude(s: string): (m: string)
    ensures |m| <= |s|
  {
    if |s| > 0 && (s[0] == '+' || s[0] == '-') then s[1..] else s
  }

  /** A well-formed number: an optional sign and at least one digit. */
  predicate WellFormed(s: string) {
    Magnitude(s) != [] && AllDigits(Magnitude(s))
  }

  /** The mathematical value of a well-formed number, before any range check. */
  function SignedValue(s: string): int
    requires WellFormed(s)
  {
    var v := DigitsValue(Magnitude(s));
    if s[0] == '-' then -(v as int) else v
  }

  /** `strconv.Atoi`: the parsed value, or None for a syntax or range error. */
  function Atoi(s: string): (r: Option<Int64>)
    ensures r.Some? <==> WellFormed(s) && MinInt <= SignedValue(s) <= MaxInt
    ensures r.Some? ==> r.value == SignedValue(s)
  {
    var m := Magnitude(s);
    if m == [] || !AllDigits(m) then None
    else
      var v := if s[0] == '-' then -(DigitsValue(m) as int) else DigitsValue(m);
      if MinInt <= v <= MaxInt then Some(v) else None
  }

  /** The shortest decimal representation of a natural number. */
  function Decimal(n: nat): (s: string)
    ensures s != [] && AllDigits(s)
    decreases n
  {
    if n < 10 then [DigitChar(n)] else Decimal(n / 10) + [DigitChar(n % 10)]
  }

  /** `strconv.Itoa`. */
  function Itoa(n: Int64): string {
    if n < 0 then "-" + Decimal(-(n as int)) else Decimal(n)
  }

  lemma {:induction false} DecimalValue(n: nat)
    ensures DigitsValue(Decimal(n)) == n
    decreases n
  {
    if n >= 10 {
      DecimalValue(n / 10);
      var s := Decimal(n);
      assert s[..|s| - 1] == Decimal(n / 10);
    }
  }

  /** A digit string with no sign parses exactly when its value fits in 64 bits. */
  lemma AtoiDecimal(n: nat)
    ensures Atoi(Decimal(n)) == (if n <= MaxInt then Some(n) else None)
  {
    var s := Decimal(n);
    DecimalValue(n);
    assert IsDigit(s[0]);
    assert Magnitude(s) == s;
  }

  /** Every 64-bit integer, formatted in decimal, parses back to itself. */
  lemma AtoiItoa(n: Int64)
    ensures Atoi(Itoa(n)) == Some(n)
  {
    var s := Itoa(n);
    if n < 0 {
      DecimalValue(-(n as int));
      assert Magnitude(s) == Decimal(-(n as int));
    } else {
      AtoiDecimal(n);
    }
  }

  /** Concrete cases: the empty segment, a non-number, a lone sign, signs and leading zeros. */
  lemma AtoiExamples()
    ensures Atoi("") == None
    ensures Atoi("abc") == None
    ensures Atoi("-") == None
    ensures Atoi("1x") == None
    ensures Atoi("+7") == Some(7)
    ensures Atoi("-12") == Some(-12)
    ensures Atoi("007") == Some(7)
  {
    assert !IsDigit("abc"[0]);
    assert !IsDigit("1x"[1]);
    assert Magnitude("+7") == "7";
    assert DigitsValue("7") == 7;
    assert Magnitude("-12") == "12";
    assert "12"[..1] == "1";
    assert DigitsValue("12") == 12;
    assert "007"[..2] == "00" && "00"[..1] == "0";
    assert DigitsValue("007") == 7;
  }
}
