/** Shared vocabulary: optional values and the decimal numerals that the server prints. */
module Basics {

  datatype Option<+T> = None | Some(value: T)

  function Digit(d: nat): char
    requires d < 10
  {
    ('0' as int + d) as char
  }

  /** What a `%d` verb prints for a natural number. */
  function Decimal(n: nat): string
  {
    if n < 10 then [Digit(n)] else Decimal(n / 10) + [Digit(n % 10)]
  }

  /** What a `%d` verb prints for an integer. */
  function PrintInt(n: int): string
  {
    if n < 0 then "-" + Decimal(-n) else Decimal(n)
  }

  /** Reads a numeral back, most significant digit first. */
  function ParseDecimal(s: string): int
  {
    if s == [] then 0 else 10 * ParseDecimal(s[..|s| - 1]) + (s[|s| - 1] as int - '0' as int)
  }

  lemma {:induction false} DecimalRoundTrip(n: nat)
    ensures ParseDecimal(Decimal(n)) == n
  {
    if n < 10 {
      assert Decimal(n)[..0] == [];
    } else {
      DecimalRoundTrip(n / 10);
      var s := Decimal(n);
      assert s[..|s| - 1] == Decimal(n / 10);
    }
  }

  lemma DecimalInjective(a: nat, b: nat)
    requires Decimal(a) == Decimal(b)
    ensures a == b
  {
    DecimalRoundTrip(a);
    DecimalRoundTrip(b);
  }

  lemma {:induction false} DecimalUnsigned(n: nat)
    ensures Decimal(n) != "" && Decimal(n)[0] != '-'
  {
    if n >= 10 {
      DecimalUnsigned(n / 10);
    }
  }

  lemma PrintIntInjective(a: int, b: int)
    requires PrintInt(a) == PrintInt(b)
    ensures a == b
  {
    if a < 0 && b < 0 {
      assert PrintInt(a)[1..] == Decimal(-a) && PrintInt(b)[1..] == Decimal(-b);
      DecimalInjective(-a, -b);
    } else if a >= 0 && b >= 0 {
      DecimalInjective(a, b);
    } else {
      DecimalUnsigned(if a >= 0 then a else b);
    }
  }

  /** The nearest number of hundredths, ties to even. */
  function Hundredths(x: real): nat
    requires x >= 0.0
  {
    var whole := (x * 100.0).Floor;
    var rest := x * 100.0 - whole as real;
    if rest > 0.5 || (rest == 0.5 && whole % 2 == 1) then whole + 1 else whole
  }

  function PrintHundredths(n: nat): string
  {
    Decimal(n / 100) + "." + [Digit(n / 10 % 10), Digit(n % 10)]
  }

  /** What a `%.2f` verb prints. */
  function TwoPlaces(x: real): string
  {
    if x < 0.0 then "-" + PrintHundredths(Hundredths(-x)) else PrintHundredths(Hundredths(x))
  }

  lemma {:induction false} ParseAppend(s: string, c: char)
    ensures ParseDecimal(s + [c]) == 10 * ParseDecimal(s) + (c as int - '0' as int)
  {
    assert (s + [c])[..|s|] == s;
  }

  lemma HundredthsRead(n: nat)
    ensures var s := PrintHundredths(n);
            |s| >= 4 && s[|s| - 3] == '.' && ParseDecimal(s[..|s| - 3] + s[|s| - 2..]) == n
  {
    var s, head, tens, ones := PrintHundredths(n), Decimal(n / 100), Digit(n / 10 % 10), Digit(n % 10);
    DecimalUnsigned(n / 100);
    assert s[..|s| - 3] == head && s[|s| - 2..] == [tens, ones];
    assert head + [tens, ones] == (head + [tens]) + [ones];
    ParseAppend(head + [tens], ones);
    ParseAppend(head, tens);
    DecimalRoundTrip(n / 100);
  }

  lemma HundredthsNearest(x: real)
    requires x >= 0.0
    ensures var n := Hundredths(x);
            && -0.5 <= 100.0 * x - n as real <= 0.5
            && (100.0 * x - n as real == 0.5 || 100.0 * x - n as real == -0.5 ==> n % 2 == 0)
  {
  }

  /** A printed amount, read without its point, is the nearest number of hundredths, and the even one
      of two that are equally near. */
  lemma TwoPlacesRounds(x: real)
    requires x >= 0.0
    ensures var s := TwoPlaces(x);
            && |s| >= 4 && s[|s| - 3] == '.'
            && var cents := ParseDecimal(s[..|s| - 3] + s[|s| - 2..]);
               && -0.5 <= 100.0 * x - cents as real <= 0.5
               && (100.0 * x - cents as real == 0.5 || 100.0 * x - cents as real == -0.5 ==> cents % 2 == 0)
  {
    HundredthsRead(Hundredths(x));
    HundredthsNearest(x);
  }
}
