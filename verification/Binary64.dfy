/** Integers that travel as IEEE 754 binary64 numbers, as every JSON number does here. */
module Binary64 {
  const PRECISION := 0x20_0000_0000_0000    // 2^53

  function Pow2(e: nat): (p: nat)
    ensures p > 0
  {
    if e == 0 then 1 else 2 * Pow2(e - 1)
  }

  ghost predicate IsSignificand(x: nat, m: nat, e: nat) {
    m < PRECISION && x == m * Pow2(e)
  }

  /** `x` is a binary64 number (far below the largest finite one). */
  ghost predicate Representable(x: nat) {
    exists m: nat, e: nat :: IsSignificand(x, m, e)
  }

  // A number is shortened to its 53 leading bits: what is left of it, how many bits were
  // dropped, and what those bits said.

  function Significand(n: nat): nat {
    if n < PRECISION then n else Significand(n / 2)
  }

  function Exponent(n: nat): nat {
    if n < PRECISION then 0 else Exponent(n / 2) + 1
  }

  function Dropped(n: nat): nat {
    if n < PRECISION then 0 else 2 * Dropped(n / 2) + n % 2
  }

  /** `q` units and a rest, rounded to nearest, ties to even. */
  function RoundUnits(q: nat, rest: nat, unit: nat): nat {
    if 2 * rest < unit || (2 * rest == unit && q % 2 == 0) then q * unit else (q + 1) * unit
  }

  function Round(n: nat): nat {
    RoundUnits(Significand(n), Dropped(n), Pow2(Exponent(n)))
  }

  function RoundInt(n: int): int {
    if n < 0 then -(Round(-n) as int) else Round(n)
  }

  function Distance(a: int, b: int): nat {
    if a < b then b - a else a - b
  }

  lemma MulMono(a: nat, b: nat, p: nat)
    requires a <= b
    ensures a * p <= b * p
  {}

  lemma {:induction false} Pow2Splits(e: nat, f: nat)
    requires e <= f
    ensures Pow2(f) == Pow2(f - e) * Pow2(e)
  {
    if e < f {
      Pow2Splits(e, f - 1);
    }
  }

  /** `n` is `q` units of its exponent and a rest. */
  ghost predicate OnGrid(n: nat, e: nat, q: nat, rest: nat) {
    n == q * Pow2(e) + rest && rest < Pow2(e) && q < PRECISION && (e > 0 ==> PRECISION / 2 <= q)
  }

  lemma {:induction false} Shortened(n: nat)
    ensures OnGrid(n, Exponent(n), Significand(n), Dropped(n))
  {
    if n >= PRECISION {
      var h := n / 2;
      Shortened(h);
      assert 2 * (Significand(h) * Pow2(Exponent(h))) == Significand(h) * (2 * Pow2(Exponent(h)));
    } else {
      assert Pow2(0) == 1;
    }
  }

  lemma Assoc(a: nat, b: nat, c: nat)
    ensures a * b * c == a * (b * c)
  {}

  lemma CoarserIsOnGrid(m: nat, c: nat, unit: nat, q: nat)
    ensures m * (c * unit) <= q * unit || (q + 1) * unit <= m * (c * unit)
  {
    var k := m * c;
    Assoc(m, c, unit);
    if k <= q {
      MulMono(k, q, unit);
    } else {
      MulMono(q + 1, k, unit);
    }
  }

  lemma FinerIsBelow(m: nat, unit: nat, c: nat, q: nat)
    requires m <= 2 * q && c > 0
    ensures m * unit <= q * (2 * c * unit)
  {
    MulMono(m, 2 * q, unit);
    MulMono(1, c, 2 * q * unit);
    assert c * (2 * q * unit) == q * (2 * c * unit) by {
      Assoc(c, 2 * q, unit);
      Assoc(q, 2 * c, unit);
      assert c * (2 * q) == q * (2 * c);
    }
  }

  /** No binary64 number lies strictly between two neighbours of the grid. */
  lemma {:induction false} GridIsComplete(n: nat, e: nat, q: nat, rest: nat, y: nat)
    requires OnGrid(n, e, q, rest) && Representable(y)
    ensures y <= q * Pow2(e) || (q + 1) * Pow2(e) <= y
  {
    var m: nat, f: nat :| IsSignificand(y, m, f);
    if f >= e {
      Pow2Splits(e, f);
      CoarserIsOnGrid(m, Pow2(f - e), Pow2(e), q);
    } else {
      Pow2Splits(f, e);
      FinerIsBelow(m, Pow2(f), Pow2(e - f - 1), q);
    }
  }

  /** The neighbours of `n` on its grid are binary64 numbers. */
  lemma {:induction false} GridIsRepresentable(n: nat, e: nat, q: nat, rest: nat)
    requires OnGrid(n, e, q, rest)
    ensures Representable(q * Pow2(e)) && Representable((q + 1) * Pow2(e))
  {
    assert IsSignificand(q * Pow2(e), q, e);
    if q + 1 < PRECISION {
      assert IsSignificand((q + 1) * Pow2(e), q + 1, e);
    } else {
      Assoc(PRECISION / 2, 2, Pow2(e));
      assert IsSignificand((q + 1) * Pow2(e), PRECISION / 2, e + 1);
    }
  }

  lemma UnitsAreNearest(q: nat, rest: nat, unit: nat, y: nat)
    requires rest < unit && (y <= q * unit || (q + 1) * unit <= y)
    ensures var n, x := q * unit + rest, RoundUnits(q, rest, unit);
            Distance(n, x) <= Distance(n, y) && (Distance(n, x) == Distance(n, y) ==> x == y || 2 * rest == unit)
  {}

  /** With exponent `e`, the significand of `x` is even. */
  ghost predicate IsEvenMultiple(x: nat, e: nat) {
    exists k: nat :: x == (2 * k) * Pow2(e)
  }

  lemma {:induction false} TiesAreEven(q: nat, rest: nat, e: nat)
    requires 2 * rest == Pow2(e)
    ensures IsEvenMultiple(RoundUnits(q, rest, Pow2(e)), e)
  {
    var k := (q + 1) / 2;
    assert RoundUnits(q, rest, Pow2(e)) == (2 * k) * Pow2(e);
  }

  /** Rounding yields a binary64 number, none is nearer, and of two that are equally near it
      is the one with the even significand. */
  lemma {:induction false} RoundIsNearestEven(n: nat, y: nat)
    requires Representable(y)
    ensures Representable(Round(n))
    ensures Distance(n, Round(n)) <= Distance(n, y)
    ensures Distance(n, Round(n)) == Distance(n, y) ==> y == Round(n) || IsEvenMultiple(Round(n), Exponent(n))
  {
    var e, q, rest := Exponent(n), Significand(n), Dropped(n);
    Shortened(n);
    GridIsRepresentable(n, e, q, rest);
    GridIsComplete(n, e, q, rest, y);
    UnitsAreNearest(q, rest, Pow2(e), y);
    if 2 * rest == Pow2(e) {
      TiesAreEven(q, rest, e);
    }
  }

  /** A number survives the round trip exactly when it is a binary64 number. */
  lemma SurvivesIffRepresentable(n: nat)
    ensures Round(n) == n <==> Representable(n)
  {
    var e, q, rest := Exponent(n), Significand(n), Dropped(n);
    Shortened(n);
    GridIsRepresentable(n, e, q, rest);
    if Representable(n) {
      RoundIsNearestEven(n, n);
    }
  }

  /** Every id that is drawn is below 2^53, so all ids survive. */
  lemma IdsSurvive(n: nat)
    requires n <= PRECISION
    ensures Representable(n) && Round(n) == n
  {
    if n < PRECISION {
      assert n == n * Pow2(0);
      assert IsSignificand(n, n, 0);
    } else {
      assert Pow2(1) == 2;
      assert IsSignificand(n, PRECISION / 2, 1);
    }
    SurvivesIffRepresentable(n);
  }

  /** The precision is 53 bits. */
  lemma PrecisionIs53Bits()
    ensures PRECISION == Pow2(53)
  {
    assert Pow2(3) == 8 && Pow2(5) == 32;
    Pow2Splits(5, 10);
    Pow2Splits(10, 20);
    Pow2Splits(20, 40);
    Pow2Splits(10, 13);
    Pow2Splits(40, 53);
  }

  function Magnitude(n: int): nat {
    if n < 0 then -n else n
  }

  /** Negative numbers too are rounded to the nearest binary64 number. */
  lemma {:induction false} RoundIntIsNearest(n: int, y: int)
    requires Representable(Magnitude(y))
    ensures Representable(Magnitude(RoundInt(n)))
    ensures Distance(n, RoundInt(n)) <= Distance(n, y)
  {
    IdsSurvive(0);
    RoundIsNearestEven(Magnitude(n), Magnitude(y));
    RoundIsNearestEven(Magnitude(n), 0);
  }

  /** The bound is tight. */
  lemma FirstLostId()
    ensures !Representable(PRECISION + 1) && Round(PRECISION + 1) == PRECISION
  {
    var half := (PRECISION + 1) / 2;
    assert half == PRECISION / 2 && Significand(half) == half && Exponent(half) == 0 && Dropped(half) == 0;
    assert Significand(PRECISION + 1) == half && Dropped(PRECISION + 1) == 1 && Pow2(Exponent(PRECISION + 1)) == 2;
    SurvivesIffRepresentable(PRECISION + 1);
  }
}
