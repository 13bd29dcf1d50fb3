/** Decimal arithmetic at 28 significant digits, rounding half to even, on exact real values. */
module Decimals {

  // ---------------------------------------------------------------- powers of ten

  ghost function Pow10(n: int): (p: real)
    ensures p > 0.0
    decreases if n < 0 then -n else n
  {
    if n == 0 then 1.0 else if n > 0 then 10.0 * Pow10(n - 1) else Pow10(n + 1) / 10.0
  }

  lemma Pow10Next(n: int)
    ensures Pow10(n + 1) == 10.0 * Pow10(n)
  {
    if n < 0 { assert Pow10(n) == Pow10(n + 1) / 10.0; }
  }

  lemma {:induction false} Pow10Add(a: int, b: int)
    ensures Pow10(a + b) == Pow10(a) * Pow10(b)
    decreases if b < 0 then -b else b
  {
    hide Pow10;
    if b > 0 {
      Pow10Add(a, b - 1);
      Pow10Next(a + b - 1);
      Pow10Next(b - 1);
      TenTimes(Pow10(a), Pow10(b - 1));
    } else if b < 0 {
      Pow10Add(a, b + 1);
      Pow10Next(a + b);
      Pow10Next(b);
      TenTimes(Pow10(a), Pow10(b));
    } else {
      Pow10Zero();
    }
  }

  lemma Pow10Zero()
    ensures Pow10(0) == 1.0
  {}

  lemma TenTimes(x: real, y: real)
    ensures 10.0 * (x * y) == x * (10.0 * y)
  {}

  /** Powers with a natural exponent are whole. */
  ghost function Tens(n: nat): (p: nat)
    ensures p > 0
  {
    if n == 0 then 1 else 10 * Tens(n - 1)
  }

  lemma {:induction false} TensIsPow10(n: nat)
    ensures Tens(n) as real == Pow10(n)
  {
    if n > 0 { TensIsPow10(n - 1); }
  }

  lemma Pow10Monotone(a: int, b: int)
    requires a <= b
    ensures Pow10(a) <= Pow10(b)
  {
    hide Pow10, Tens;
    Pow10Add(a, b - a);
    TensIsPow10(b - a);
    Scaled(Pow10(a), 1.0, Pow10(b - a));
  }

  lemma Scaled(p: real, x: real, y: real)
    requires p >= 0.0 && x <= y
    ensures x * p <= y * p && p * x <= p * y
  {}

  // ---------------------------------------------------------------- the scale of a value

  const DIGITS: nat := 28

  /** x has its first digit at place e. */
  ghost predicate HasPlace(x: real, e: int) { Pow10(e) <= x < Pow10(e + 1) }

  lemma {:induction false} WholePlace(n: nat) returns (e: nat)
    requires n > 0
    ensures Tens(e) <= n < Tens(e + 1)
  {
    if n < 10 {
      e := 0;
      assert Tens(1) == 10;
    } else {
      var f := WholePlace(n / 10);
      e := f + 1;
      assert Tens(e + 1) == 10 * Tens(e);
    }
  }

  lemma PlaceExists(x: real)
    requires x > 0.0
    ensures exists e :: HasPlace(x, e)
  {
    if x >= 1.0 {
      var e := LargePlace(x);
    } else {
      var e := SmallPlace(x);
    }
  }

  lemma SmallPlace(x: real) returns (e: int)
    requires 0.0 < x < 1.0
    ensures HasPlace(x, e)
  {
    hide Pow10, Tens;
    var y := 1.0 / x;
    Reciprocal(x);
    var f: int := LargePlace(y);
    Pow10Add(f, -f);
    Pow10Add(f + 1, -f - 1);
    Pow10Zero();
    Inverse(x, y, Pow10(f), Pow10(-f));
    Inverse(x, y, Pow10(f + 1), Pow10(-f - 1));
    Pow10Next(-f);
    e := if x < Pow10(-f) then -f - 1 else -f;
  }

  lemma Reciprocal(x: real)
    requires 0.0 < x < 1.0
    ensures 1.0 / x >= 1.0 && x * (1.0 / x) == 1.0
  {
    var y := 1.0 / x;
    assert x * y == 1.0;
    if y < 1.0 { Scaled(x, y, 1.0); }
  }

  /** Reciprocals reverse the order. */
  lemma Inverse(x: real, y: real, p: real, q: real)
    requires x > 0.0 && y > 0.0 && p > 0.0 && q > 0.0 && x * y == 1.0 && p * q == 1.0
    ensures p <= y <==> x <= q
    ensures p < y <==> x < q
  {
    var xp := x * p;
    assert xp * y == p by { assert xp * y == (x * y) * p; }
    assert xp * q == x by { assert xp * q == x * (p * q); }
    if p <= y { assert xp <= 1.0 by { if xp > 1.0 { Strict(y, 1.0, xp); } } Scaled(q, xp, 1.0); }
    if p < y { assert xp < 1.0 by { if xp >= 1.0 { Scaled(y, 1.0, xp); } } Strict(q, xp, 1.0); }
    if x <= q { assert xp <= 1.0 by { if xp > 1.0 { Strict(q, 1.0, xp); } } Scaled(y, xp, 1.0); }
    if x < q { assert xp < 1.0 by { if xp >= 1.0 { Scaled(q, 1.0, xp); } } Strict(y, xp, 1.0); }
  }

  lemma Strict(p: real, x: real, y: real)
    requires p > 0.0 && x < y
    ensures x * p < y * p
  {}

  lemma LargePlace(x: real) returns (e: nat)
    requires x >= 1.0
    ensures HasPlace(x, e)
  {
    hide Pow10, Tens;
    var n := x.Floor;
    e := WholePlace(n);
    TensIsPow10(e);
    TensIsPow10(e + 1);
    assert n + 1 <= Tens(e + 1);
  }

  /** The place of the last of x's 28 digits. */
  ghost function Scale(x: real): (s: int)
    requires x > 0.0
    ensures HasPlace(x, s + DIGITS - 1)
  {
    PlaceExists(x);
    var e :| HasPlace(x, e);
    e - DIGITS + 1
  }

  lemma PlacesAgree(x: real, a: int, b: int)
    requires HasPlace(x, a) && HasPlace(x, b)
    ensures a == b
  {
    if a < b { Pow10Monotone(a + 1, b); }
    if b < a { Pow10Monotone(b + 1, a); }
  }

  // ---------------------------------------------------------------- rounding

  /** Nearest whole number, ties to even. */
  ghost function HalfEven(y: real): int {
    var f := y.Floor;
    var r := y - f as real;
    if r < 0.5 then f else if r > 0.5 then f + 1 else if f % 2 == 0 then f else f + 1
  }

  /** The context's result for an exact non-negative value. */
  ghost function Round28(x: real): real
    requires x >= 0.0
  {
    if x == 0.0 then 0.0
    else
      var unit := Pow10(Scale(x));
      HalfEven(x / unit) as real * unit
  }

  /** Values with at most 28 significant digits. */
  ghost predicate Representable(y: real) {
    exists m: nat, e: int :: m <= Tens(DIGITS) && y == Shifted(m, e)
  }

  ghost function Shifted(m: nat, e: int): real { m as real * Pow10(e) }

  lemma HalfEvenBounds(y: real, n: int)
    ensures n as real <= y ==> n <= HalfEven(y)
    ensures y <= n as real ==> HalfEven(y) <= n
  {}

  lemma HalfEvenMonotone(x: real, y: real)
    requires x <= y
    ensures HalfEven(x) <= HalfEven(y)
  {}

  /** x in units of its last digit lies between 28-digit whole numbers. */
  lemma Normalized(x: real)
    requires x > 0.0
    ensures var unit := Pow10(Scale(x));
            && x / unit * unit == x
            && Tens(DIGITS - 1) as real <= x / unit <= Tens(DIGITS) as real
            && Tens(DIGITS - 1) <= HalfEven(x / unit) <= Tens(DIGITS)
  {
    hide Pow10, Tens, HalfEven;
    var s := Scale(x);
    var unit := Pow10(s);
    Pow10Add(DIGITS - 1, s);
    Pow10Add(DIGITS, s);
    TensIsPow10(DIGITS - 1);
    TensIsPow10(DIGITS);
    Quotient(x, unit, Tens(DIGITS - 1) as real, Tens(DIGITS) as real);
    HalfEvenBounds(x / unit, Tens(DIGITS - 1));
    HalfEvenBounds(x / unit, Tens(DIGITS));
  }

  lemma Quotient(x: real, unit: real, low: real, high: real)
    requires unit > 0.0 && low * unit <= x <= high * unit
    ensures x / unit * unit == x && low <= x / unit <= high
  {
    var q := x / unit;
    assert q * unit == x;
    if q < low { Strict(unit, q, low); }
    if q > high { Strict(unit, high, q); }
  }

  lemma RoundIsRepresentable(x: real)
    requires x >= 0.0
    ensures Round28(x) >= 0.0 && Representable(Round28(x))
  {
    hide Pow10, Tens, HalfEven, Scale;
    if x == 0.0 {
      assert 0.0 == Shifted(0, 0);
    } else {
      Normalized(x);
      var unit := Pow10(Scale(x));
      var m := HalfEven(x / unit);
      Scaled(unit, 0.0, m as real);
      assert Round28(x) == Shifted(m, Scale(x));
    }
  }

  /** A representable value no finer than x's last digit is a whole number of those units; a
      finer one lies below everything with x's number of digits. */
  lemma Finer(m: nat, e: int, s: int)
    requires e >= s
    ensures Shifted(m, e) == (m * Tens(e - s)) as real * Pow10(s)
  {
    hide Pow10, Tens;
    Pow10Add(e - s, s);
    TensIsPow10(e - s);
    Assoc(m as real, Tens(e - s) as real, Pow10(s));
  }

  lemma Coarser(m: nat, e: int, s: int)
    requires m <= Tens(DIGITS) && e < s
    ensures Shifted(m, e) <= Tens(DIGITS - 1) as real * Pow10(s)
  {
    hide Pow10, Tens;
    Scaled(Pow10(e), m as real, Tens(DIGITS) as real);
    TensIsPow10(DIGITS);
    TensIsPow10(DIGITS - 1);
    Pow10Add(DIGITS, e);
    Pow10Add(DIGITS - 1, s);
    Pow10Monotone(DIGITS + e, DIGITS - 1 + s);
  }

  lemma Assoc(a: real, b: real, c: real)
    ensures a * (b * c) == a * b * c
  {}

  /** r is at least as close to x as y is. */
  predicate IsAsClose(r: real, y: real, x: real) {
    if y <= x then y <= r <= x + (x - y) else x - (y - x) <= r <= y
  }

  lemma HalfEvenNearest(q: real, n: int)
    ensures IsAsClose(HalfEven(q) as real, n as real, q)
  {
    var f := q.Floor;
    if n <= f { assert n as real <= f as real; } else { assert (f + 1) as real <= n as real; }
  }

  lemma CloseTimes(h: real, n: real, q: real, unit: real, r: real, y: real, x: real)
    requires unit > 0.0 && IsAsClose(h, n, q)
    requires r == h * unit && y == n * unit && x == q * unit
    ensures IsAsClose(r, y, x)
  {
    var mirror := q + (q - n);
    assert mirror * unit == x + (x - y);
    if n <= q { Scaled(unit, n, q); Scaled(unit, n, h); Scaled(unit, h, mirror); }
    else { Strict(unit, q, n); Scaled(unit, mirror, h); Scaled(unit, h, n); }
  }

  lemma NearestInUnits(x: real, n: int, y: real)
    requires x > 0.0 && y == n as real * Pow10(Scale(x))
    ensures IsAsClose(Round28(x), y, x)
  {
    hide Pow10, Tens, HalfEven, Scale, IsAsClose;
    Normalized(x);
    var unit := Pow10(Scale(x));
    HalfEvenNearest(x / unit, n);
    CloseTimes(HalfEven(x / unit) as real, n as real, x / unit, unit, Round28(x), y, x);
  }

  /** No value of at most 28 digits is closer than the rounded one. */
  lemma RoundIsNearest(x: real, y: real)
    requires x >= 0.0 && Representable(y)
    ensures IsAsClose(Round28(x), y, x)
  {
    hide Pow10, Tens, HalfEven, Scale, Shifted, Round28;
    var m: nat, e: int :| m <= Tens(DIGITS) && y == Shifted(m, e);
    if x == 0.0 {
      RoundZero();
    } else if e >= Scale(x) {
      Finer(m, e, Scale(x));
      NearestInUnits(x, m * Tens(e - Scale(x)), y);
    } else {
      Coarser(m, e, Scale(x));
      AtLeastBottom(x);
      NearestInUnits(x, Tens(DIGITS - 1), Tens(DIGITS - 1) as real * Pow10(Scale(x)));
    }
  }

  /** So rounding never crosses a value of at most 28 digits. */
  lemma RoundKeepsOrder(x: real, y: real)
    requires x >= 0.0 && Representable(y)
    ensures y <= x ==> y <= Round28(x)
    ensures x <= y ==> Round28(x) <= y
  {
    hide Round28, Representable;
    RoundIsNearest(x, y);
  }

  lemma AtLeastBottom(x: real)
    requires x > 0.0
    ensures Tens(DIGITS - 1) as real * Pow10(Scale(x)) <= x
  {
    hide Pow10, Tens, HalfEven, Scale;
    Normalized(x);
    Scaled(Pow10(Scale(x)), Tens(DIGITS - 1) as real, x / Pow10(Scale(x)));
  }

  /** Values with at most 28 digits are not changed. */
  lemma RoundKeepsRepresentable(y: real)
    requires y >= 0.0 && Representable(y)
    ensures Round28(y) == y
  {
    RoundKeepsOrder(y, y);
  }

  /** Halfway between two of them it is the even one. */
  lemma TiesGoEven(x: real, n: int)
    requires x > 0.0 && x == (n as real + 0.5) * Pow10(Scale(x))
    ensures Round28(x) == (if n % 2 == 0 then n else n + 1) as real * Pow10(Scale(x))
  {
    hide Pow10, Tens, Scale;
    var unit := Pow10(Scale(x));
    Quotient(x, unit, n as real + 0.5, n as real + 0.5);
    assert (n as real + 0.5).Floor == n;
  }

  /** Rounding is monotone. */
  lemma RoundMonotone(x: real, y: real)
    requires 0.0 <= x <= y
    ensures Round28(x) <= Round28(y)
  {
    hide Pow10, Tens, HalfEven, Round28, Scale;
    if x == 0.0 {
      RoundIsRepresentable(y);
      RoundZero();
    } else if Scale(x) == Scale(y) {
      SameUnit(x, y);
    } else {
      PlacesOrder(x, y);
      TopOfScale(x);
      BottomOfScale(y);
      Coarser(Tens(DIGITS), Scale(x), Scale(y));
    }
  }

  lemma RoundZero()
    ensures Round28(0.0) == 0.0
  {}

  lemma SameUnit(x: real, y: real)
    requires 0.0 < x <= y && Scale(x) == Scale(y)
    ensures Round28(x) <= Round28(y)
  {
    hide Pow10, Tens, HalfEven, Scale;
    Normalized(x);
    Normalized(y);
    var unit := Pow10(Scale(x));
    var p, q := x / unit, y / unit;
    if p > q { Strict(unit, q, p); }
    assert p <= q;
    HalfEvenMonotone(p, q);
    Scaled(unit, HalfEven(p) as real, HalfEven(q) as real);
  }

  lemma TopOfScale(x: real)
    requires x > 0.0
    ensures Round28(x) <= Shifted(Tens(DIGITS), Scale(x))
  {
    hide Pow10, Tens, HalfEven, Scale;
    Normalized(x);
    Scaled(Pow10(Scale(x)), HalfEven(x / Pow10(Scale(x))) as real, Tens(DIGITS) as real);
  }

  lemma BottomOfScale(x: real)
    requires x > 0.0
    ensures Tens(DIGITS - 1) as real * Pow10(Scale(x)) <= Round28(x)
  {
    hide Pow10, Tens, HalfEven, Scale;
    Normalized(x);
    Scaled(Pow10(Scale(x)), Tens(DIGITS - 1) as real, HalfEven(x / Pow10(Scale(x))) as real);
  }

  /** A larger value cannot have a smaller scale. */
  lemma PlacesOrder(x: real, y: real)
    requires 0.0 < x <= y
    ensures Scale(x) <= Scale(y)
  {
    hide Pow10, Tens;
    var s, t := Scale(x), Scale(y);
    if t < s { Pow10Monotone(t + DIGITS, s + DIGITS - 1); }
  }

  /** Whole numbers of at most 28 digits are representable. */
  lemma WholeIsRepresentable(n: nat)
    requires n <= Tens(DIGITS)
    ensures Representable(n as real)
  {
    hide Tens;
    Pow10Zero();
    assert n as real == Shifted(n, 0);
  }

  /** Ceiling to a whole number: `to_integral_value(ROUND_CEILING)`. */
  ghost function Ceiling(x: real): int { -((-x).Floor) }

  lemma CeilingIs(x: real, n: int)
    requires (n - 1) as real < x <= n as real
    ensures Ceiling(x) == n
  {}

  lemma CeilingMonotone(x: real, y: real)
    requires x <= y
    ensures Ceiling(x) <= Ceiling(y)
  {}
}
