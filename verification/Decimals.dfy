/** Decimal numbers as the services compute with them: a coefficient and a power of ten, and the
    operations of the General Decimal Arithmetic specification, each of which rounds an exact
    result to the digits of its context (roundTiesToEven, section 4.3.1 of IEEE 754-2008). */
module Decimals {
  import opened Results

  // ---------------------------------------------------------------- powers of ten and digits

  function Pow10(n: nat): (p: nat)
    ensures p > 0
  {
    if n == 0 then 1 else 10 * Pow10(n - 1)
  }

  function Digits(n: nat): (d: nat)
    ensures d > 0
  {
    if n < 10 then 1 else 1 + Digits(n / 10)
  }

  /** A number has at most `k` digits exactly when it is below ten to the `k`. */
  lemma {:induction false} DigitsBound(n: nat, k: nat)
    requires k > 0
    ensures Digits(n) <= k <==> n < Pow10(k)
  {
    if k == 1 {
      assert Pow10(1) == 10 * Pow10(0) && Pow10(0) == 1;
    } else if n >= 10 {
      DigitsBound(n / 10, k - 1);
      assert n / 10 < Pow10(k - 1) <==> n < 10 * Pow10(k - 1);
    } else {
      Pow10Grows(1, k);
      assert Pow10(1) == 10 * Pow10(0) && Pow10(0) == 1;
    }
  }

  lemma {:induction false} Pow10Grows(a: nat, b: nat)
    requires a <= b
    ensures Pow10(a) <= Pow10(b)
  {
    if a < b {
      Pow10Grows(a, b - 1);
    }
  }

  lemma {:induction false} Pow10Adds(a: nat, b: nat)
    ensures Pow10(a + b) == Pow10(a) * Pow10(b)
  {
    if a == 0 {
    } else {
      Pow10Adds(a - 1, b);
      assert Pow10(a + b) == 10 * (Pow10(a - 1) * Pow10(b)) == (10 * Pow10(a - 1)) * Pow10(b);
    }
  }

  lemma {:induction false} Pow10Even(k: nat)
    requires k > 0
    ensures Pow10(k) % 2 == 0
  {
    assert Pow10(k) == 2 * (5 * Pow10(k - 1));
  }

  // ---------------------------------------------------------------- numbers

  datatype Dec = Dec(neg: bool, coeff: nat, exp: int)

  /** The value in units of ten to the `e`. */
  function Units(d: Dec, e: int): int
    requires e <= d.exp
  {
    var magnitude := d.coeff * Pow10(d.exp - e);
    if d.neg then -magnitude else magnitude
  }

  function Lower(a: Dec, b: Dec): int {
    if a.exp <= b.exp then a.exp else b.exp
  }

  /** Numeric equality: `1.50` is `1.5`, and zero has no sign. */
  predicate Same(a: Dec, b: Dec) {
    Units(a, Lower(a, b)) == Units(b, Lower(a, b))
  }

  function Quotient(n: nat, p: nat): nat
    requires p > 0
  {
    n / p
  }

  function Remainder(n: nat, p: nat): (r: nat)
    requires p > 0
    ensures r < p
  {
    n % p
  }

  function HalfUp(n: nat, k: nat): nat {
    Quotient(n + Pow10(k) / 2, Pow10(k))
  }

  predicate Odd(n: nat) {
    n % 2 == 1
  }

  function HalfEven(n: nat, k: nat): nat {
    var p := Pow10(k);
    var q, r := Quotient(n, p), Remainder(n, p);
    if 2 * r > p || (2 * r == p && Odd(q)) then q + 1 else q
  }

  lemma Divided(n: nat, p: nat)
    requires p > 0
    ensures n == Product(Quotient(n, p), p) + Remainder(n, p)
  {
  }

  /** The exact result rounded to the digits of the context. */
  function Fix(d: Dec, prec: nat): Dec
    requires prec > 0
  {
    if Digits(d.coeff) <= prec then d
    else
      var k := Digits(d.coeff) - prec;
      var c := HalfEven(d.coeff, k);
      if Digits(c) > prec then Dec(d.neg, c / 10, d.exp + k + 1) else Dec(d.neg, c, d.exp + k)
  }

  function Plus(a: Dec, b: Dec, prec: nat): Dec
    requires prec > 0
  {
    var e := Lower(a, b);
    var sum := Units(a, e) + Units(b, e);
    Fix(Dec(sum < 0, if sum < 0 then -sum else sum, e), prec)
  }

  function Minus(a: Dec, b: Dec, prec: nat): Dec
    requires prec > 0
  {
    Plus(a, b.(neg := !b.neg), prec)
  }

  function Times(a: Dec, b: Dec, prec: nat): Dec
    requires prec > 0
  {
    Fix(Dec(a.neg != b.neg, a.coeff * b.coeff, a.exp + b.exp), prec)
  }

  /** Trailing zeros given up until the exponent is the ideal one. */
  function Strip(coeff: nat, exp: int, ideal: int): (nat, int)
    decreases ideal - exp
  {
    if exp < ideal && coeff % 10 == 0 then Strip(coeff / 10, exp + 1, ideal) else (coeff, exp)
  }

  function Scaled(n: nat, k: int): (m: nat)
    ensures n > 0 ==> m > 0
  {
    if k > 0 then Product(n, Pow10(k)) else n
  }

  function Product(n: nat, p: nat): (m: nat)
    ensures n > 0 && p > 0 ==> m > 0
  {
    n * p
  }

  /** Long division to one digit more than the context holds; an inexact last digit is kept off
      zero and five, so that rounding it to the context cannot tie. */
  function Over(a: Dec, b: Dec, prec: nat): Dec
    requires prec > 0 && b.coeff > 0
  {
    var neg, ideal := a.neg != b.neg, a.exp - b.exp;
    if a.coeff == 0 then Dec(neg, 0, ideal)
    else
      var shift := Digits(b.coeff) - Digits(a.coeff) + prec + 1;
      var top, bottom := Scaled(a.coeff, shift), Scaled(b.coeff, -shift);
      var q := Quotient(top, bottom);
      if Remainder(top, bottom) == 0 then
        var (c, e) := Strip(q, ideal - shift, ideal);
        Fix(Dec(neg, c, e), prec)
      else Fix(Dec(neg, if q % 5 == 0 then q + 1 else q, ideal - shift), prec)
  }

  const CENT := -2

  /** `quantize` to cents, half up; None where the result has more digits than the context. */
  function ToCents(d: Dec, prec: nat): Option<Dec> {
    var c := if d.exp >= CENT then d.coeff * Pow10(d.exp - CENT) else HalfUp(d.coeff, CENT - d.exp);
    if Digits(c) > prec then None else Some(Dec(d.neg, c, CENT))
  }

  // ---------------------------------------------------------------- exactness

  lemma FixKeepsShort(d: Dec, prec: nat)
    requires prec > 0 && d.coeff < Pow10(prec)
    ensures Fix(d, prec) == d
  {
    DigitsBound(d.coeff, prec);
  }

  /** Rounding to `prec` digits leaves a value unchanged exactly when the digits it would lose
      are zeros. */
  predicate Fits(n: nat, prec: nat) {
    Digits(n) <= prec || Remainder(n, Pow10(Digits(n) - prec)) == 0
  }

  lemma HalfEvenExact(n: nat, k: nat)
    ensures Product(HalfEven(n, k), Pow10(k)) == n <==> Remainder(n, Pow10(k)) == 0
  {
    hide Pow10, Quotient, Remainder;
    var p := Pow10(k);
    Divided(n, p);
    assert Product(Quotient(n, p) + 1, p) == Product(Quotient(n, p), p) + p;
  }

  /** What rounding makes of the value: the kept digits, in units of the last one kept. */
  lemma FixedValue(d: Dec, prec: nat)
    requires prec > 0 && Digits(d.coeff) > prec
    ensures var k := Digits(d.coeff) - prec;
      var magnitude: int := Product(HalfEven(d.coeff, k), Pow10(k));
      Fix(d, prec).exp >= d.exp && Units(Fix(d, prec), d.exp) == if d.neg then -magnitude else magnitude
  {
    hide Digits, HalfEven;
    var k := Digits(d.coeff) - prec;
    var c := HalfEven(d.coeff, k);
    if Digits(c) > prec {
      RoundsUpToPower(d.coeff, prec);
      assert c == 10 * Pow10(prec - 1);
      assert Pow10(k + 1) == 10 * Pow10(k);
      assert (c / 10) * Pow10(k + 1) == c * Pow10(k);
    }
  }

  lemma FixIsFaithful(d: Dec, prec: nat)
    requires prec > 0
    ensures Same(Fix(d, prec), d) <==> Fits(d.coeff, prec)
  {
    hide Digits, HalfEven, Product, Remainder;
    assert Pow10(0) == 1;
    if Digits(d.coeff) > prec {
      hide Fix;
      FixedValue(d, prec);
      HalfEvenExact(d.coeff, Digits(d.coeff) - prec);
    }
  }

  /** Rounding carries into a new digit only by reaching a power of ten. */
  lemma RoundsUpToPower(n: nat, prec: nat)
    requires prec > 0 && Digits(n) > prec && Digits(HalfEven(n, Digits(n) - prec)) > prec
    ensures HalfEven(n, Digits(n) - prec) == Pow10(prec)
  {
    hide Digits, Quotient, Remainder, Pow10;
    var k := Digits(n) - prec;
    var p, q := Pow10(k), Quotient(n, Pow10(k));
    DigitsBound(n, Digits(n));
    Pow10Adds(k, prec);
    Divided(n, p);
    if q >= Pow10(prec) {
      MulMonotone(Pow10(prec), q, p);
    }
    DigitsBound(HalfEven(n, k), prec);
  }

  lemma MulMonotone(a: nat, b: nat, p: nat)
    requires a <= b
    ensures a * p <= b * p
  {
  }

  lemma {:induction false} StripZeros(c: nat, k: nat, exp: int, ideal: int)
    requires exp + k <= ideal
    ensures Strip(c * Pow10(k), exp, ideal) == Strip(c, exp + k, ideal)
    decreases k
  {
    if k == 0 {
      assert c * Pow10(0) == c;
    } else {
      assert c * Pow10(k) == 10 * (c * Pow10(k - 1));
      StripZeros(c, k - 1, exp + 1, ideal);
    }
  }

  /** A hundredth of a short number is exact: the decimal point moves, and the exponent ends
      between the ideal one and two below it. */
  lemma HundredthIsExact(a: Dec, prec: nat)
    requires prec > 2 && !a.neg && a.coeff < Pow10(prec)
    ensures var r := Over(a, Dec(false, 100, 0), prec);
      && !r.neg && a.exp - 2 <= r.exp <= a.exp
      && r.coeff * Pow10(r.exp - (a.exp - 2)) == a.coeff
  {
    hide Digits, Strip, Pow10, Quotient, Remainder;
    if a.coeff > 0 {
      DigitsBound(a.coeff, prec);
      ThreeDigits();
      var shift := Digits(100) - Digits(a.coeff) + prec + 1;
      HundredthOfScaled(a.coeff, shift);
      StripZeros(a.coeff, shift - 2, a.exp - shift, a.exp);
      TwoZeros(a.coeff, a.exp - 2);
      var (c, e) := Strip(a.coeff, a.exp - 2, a.exp);
      FixKeepsShort(Dec(false, c, e), prec);
    }
  }

  lemma ThreeDigits()
    ensures Digits(100) == 3
  {
    assert Digits(10) == 2;
  }

  lemma HundredthOfScaled(n: nat, shift: nat)
    requires shift > 2
    ensures Quotient(Scaled(n, shift), Scaled(100, -(shift as int))) == n * Pow10(shift - 2)
    ensures Remainder(Scaled(n, shift), Scaled(100, -(shift as int))) == 0
  {
    Pow10Adds(2, shift - 2);
    assert Pow10(2) == 100 by {
      assert Pow10(0) == 1 && Pow10(1) == 10;
    }
    assert n * Pow10(shift) == 100 * (n * Pow10(shift - 2));
  }

  lemma TwoZeros(c: nat, exp: int)
    ensures var (r, e) := Strip(c, exp, exp + 2);
      exp <= e <= exp + 2 && r <= c && r * Pow10(e - exp) == c
  {
    assert Pow10(0) == 1 && Pow10(1) == 10 && Pow10(2) == 100;
    if c % 10 == 0 {
      var d := c / 10;
      assert Strip(c, exp, exp + 2) == Strip(d, exp + 1, exp + 2);
      if d % 10 == 0 {
        assert Strip(d, exp + 1, exp + 2) == Strip(d / 10, exp + 2, exp + 2) == (d / 10, exp + 2);
      }
    }
  }

  /** A number of cents given with any exponent rounds to the same cents. */
  lemma CentsOfHundredths(c: nat, exp: int, n: nat)
    requires -6 <= exp <= -4 && c * Pow10(exp + 6) == n
    ensures HalfUp(c, CENT - exp) == (n + 5000) / 10000
  {
    assert Pow10(0) == 1 && Pow10(1) == 10 && Pow10(2) == 100;
    assert Pow10(3) == 1000 && Pow10(4) == 10000;
  }
}
