/** Pricing in paise through 28-digit decimals, and exactly how many fractional digits of hours
    it prices without error. */
module Money {
  import opened Common
  import opened Decimals

  const MAX_CHANGE: int := 100_000_000
  const MAX_HOURS: real := 1000.0

  /** What `Decimal(value)` makes of an hours text. */
  datatype HoursText = NotText | Malformed | NotFinite | Number(value: real)

  function ParseHours(t: HoursText): (h: Option<real>)
    ensures h.Some? <==> t.Number? && 0.0 < t.value <= MAX_HOURS
    ensures h.Some? ==> h.value == t.value
  {
    if t.Number? && 0.0 < t.value <= MAX_HOURS then Some(t.value) else None
  }

  function MaxReal(x: real, y: real): real { if x >= y then x else y }

  /** Whole increments after both roundings. */
  ghost function Steps(hours: real, rate: int, minimum: int, increment: int): int
    requires hours > 0.0 && rate > 0 && minimum > 0 && increment > 0
  {
    var raw := MaxReal(Round28(Product(hours, rate)), minimum as real);
    Ceiling(Round28(Ratio(raw, increment)))
  }

  ghost function Product(hours: real, rate: int): (p: real)
    requires hours > 0.0 && rate > 0
    ensures p > 0.0
  {
    Strict(rate as real, 0.0, hours);
    hours * rate as real
  }

  ghost function Ratio(raw: real, increment: int): (q: real)
    requires raw > 0.0 && increment > 0
    ensures q > 0.0
  {
    raw / increment as real
  }

  ghost function RecommendTotal(t: HoursText, rate: int, minimum: int, increment: int): Option<int> {
    var hours := ParseHours(t);
    if hours.None? || rate <= 0 || minimum <= 0 || increment <= 0 then None
    else
      var total := Steps(hours.value, rate, minimum, increment) * increment;
      if total > MAX_CHANGE then None else Some(total)
  }

  // ---------------------------------------------------------------- the exact price

  ghost function Raw(hours: real, rate: int, minimum: int): real
    requires hours > 0.0 && rate > 0
  {
    MaxReal(Product(hours, rate), minimum as real)
  }

  /** So many whole increments cover the amount. */
  predicate Covers(k: int, raw: real, increment: int) { raw <= (k * increment) as real }

  /** The least number of whole increments that covers the amount. */
  ghost predicate IsLeast(k: int, raw: real, increment: int) {
    Covers(k, raw, increment) && forall j :: Covers(j, raw, increment) ==> k <= j
  }

  lemma Times(j: int, k: int, increment: int)
    requires increment > 0
    ensures j <= k <==> j * increment <= k * increment
  {}

  lemma LeastByNeighbour(k: int, raw: real, increment: int)
    requires increment > 0
    ensures IsLeast(k, raw, increment) <==> Covers(k, raw, increment) && !Covers(k - 1, raw, increment)
  {
    if Covers(k, raw, increment) && !Covers(k - 1, raw, increment) {
      forall j | Covers(j, raw, increment) ensures k <= j {
        if j <= k - 1 { Times(j, k - 1, increment); assert false; }
      }
    }
  }

  /** Such a number exists for every amount. */
  lemma LeastExists(raw: real, increment: int) returns (k: int)
    requires raw > 0.0 && increment > 0
    ensures IsLeast(k, raw, increment) && k > 0
  {
    k := 1;
    var cap := raw.Floor + 1;
    while !Covers(k, raw, increment)
      invariant k > 0 && !Covers(k - 1, raw, increment)
      decreases cap - k
    {
      Times(1, increment, k);
      k := k + 1;
    }
    LeastByNeighbour(k, raw, increment);
  }

  /** The answer is the exact price, or a refusal because the exact price is above the limit. */
  ghost predicate IsExact(answer: Option<int>, raw: real, increment: int) {
    exists k :: IsLeast(k, raw, increment)
      && answer == if k * increment > MAX_CHANGE then None else Some(k * increment)
  }

  // ---------------------------------------------------------------- hours with few digits

  /** c units of the d-th fractional digit. */
  ghost function Ticks(c: nat, d: int): real { Shifted(c, -d) }

  /** At most d fractional digits. */
  ghost predicate HasDigits(x: real, d: int) { exists c: nat :: x == Ticks(c, d) }

  /** Values within the hours and money bounds that a client can configure. */
  predicate InBounds(rate: int, minimum: int, increment: int) {
    0 < rate <= MAX_CHANGE && 0 < minimum <= MAX_CHANGE && 0 < increment <= MAX_CHANGE
  }

  lemma Coarse(x: real, d: int, f: int)
    requires HasDigits(x, d) && 0 <= d <= f
    ensures HasDigits(x, f)
  {
    hide Pow10, Tens;
    var c: nat :| x == Ticks(c, d);
    Finer(c, -d, -f);
    assert x == Ticks(c * Tens(f - d), f);
  }

  lemma WholeDigits(n: nat, d: int)
    requires d >= 0
    ensures HasDigits(n as real, d)
  {
    hide Pow10, Tens;
    Pow10Zero();
    assert n as real == Ticks(n, 0);
    Coarse(n as real, 0, d);
  }

  lemma TimesDigits(hours: real, rate: int, d: int)
    requires hours > 0.0 && rate > 0 && HasDigits(hours, d)
    ensures HasDigits(Product(hours, rate), d)
  {
    hide Pow10;
    var c: nat :| hours == Ticks(c, d);
    Swap(c as real, Pow10(-d), rate as real);
    assert Product(hours, rate) == Ticks(c * rate, d);
  }

  lemma Swap(a: real, b: real, c: real)
    ensures a * b * c == a * c * b
  {}

  /** Strictly above a whole number means at least one last digit above it. */
  lemma OneDigitAbove(x: real, n: nat, d: int)
    requires d >= 0 && HasDigits(x, d) && x > n as real
    ensures x >= n as real + Pow10(-d)
  {
    hide Pow10, Tens;
    var c: nat :| x == Ticks(c, d);
    Pow10Zero();
    Finer(n, 0, -d);
    assert Shifted(n, 0) == n as real;
    var m, unit := n * Tens(d), Pow10(-d);
    assert n as real == m as real * unit;
    assert x == c as real * unit;
    OneMore(x, n as real, c, m, unit);
  }

  lemma OneMore(x: real, y: real, c: nat, m: nat, unit: real)
    requires unit > 0.0 && x == c as real * unit && y == m as real * unit && x > y
    ensures x >= y + unit
  {
    if c <= m {
      Scaled(unit, c as real, m as real);
      assert false;
    }
    Scaled(unit, (m + 1) as real, c as real);
    Distribute(m as real, unit);
  }

  lemma Distribute(a: real, u: real)
    ensures (a + 1.0) * u == a * u + u
  {}

  // ---------------------------------------------------------------- the division step

  const PLACES: int := 19

  /** Between k and k plus one part in 10^19 of an increment there is a 28-digit value, as long
      as k increments stay within the limit. */
  lemma Between(k: nat, increment: int, e: nat)
    requires 0 < increment && e <= 8 && k < Tens(e + 1) && increment * Tens(e) <= Tens(8)
    ensures var y := k as real + Pow10((e as int) - 27);
            Representable(y) && k as real < y && y * increment as real <= (k * increment) as real + Pow10(-PLACES)
  {
    hide Pow10, Tens;
    var f: int := 27 - e;
    var unit := Pow10(-f);
    SumIsShifted(k, f);
    FitsDigits(k, e, f);
    assert k as real + unit == Shifted(k * Tens(f) + 1, -f);
    FineUnit(increment, e);
    SpreadOver(k, unit, increment);
  }

  lemma SumIsShifted(k: nat, f: int)
    requires f >= 0
    ensures k as real + Pow10(-f) == Shifted(k * Tens(f) + 1, -f)
  {
    hide Pow10, Tens;
    Pow10Zero();
    assert Shifted(k, 0) == k as real;
    Finer(k, 0, -f);
    Distribute((k * Tens(f)) as real, Pow10(-f));
  }

  lemma FitsDigits(k: nat, e: nat, f: int)
    requires f >= 0 && k < Tens(e + 1) && e + 1 + f == DIGITS
    ensures k * Tens(f) + 1 <= Tens(DIGITS)
  {
    hide Pow10, Tens;
    TensAdd(e + 1, f);
    Times(k + 1, Tens(e + 1), Tens(f));
    assert (k + 1) * Tens(f) == k * Tens(f) + Tens(f);
  }

  lemma {:induction false} TensAdd(a: nat, b: nat)
    ensures Tens(a + b) == Tens(a) * Tens(b)
  {
    if a > 0 {
      TensAdd(a - 1, b);
      assert Tens(a + b) == 10 * (Tens(a - 1) * Tens(b));
      assert Tens(a) == 10 * Tens(a - 1);
    }
  }

  lemma FineUnit(increment: int, e: nat)
    requires 0 < increment && e <= 8 && increment * Tens(e) <= Tens(8)
    ensures increment as real * Pow10((e as int) - 27) <= Pow10(-PLACES)
  {
    hide Pow10, Tens;
    TensIsPow10(e);
    TensIsPow10(8);
    Pow10Add(e, -27);
    Pow10Add(8, -27);
    var unit := Pow10(-27);
    var a, b := increment * Tens(e), Tens(8);
    Scaled(unit, a as real, b as real);
    Assoc(increment as real, Tens(e) as real, unit);
  }

  lemma SpreadOver(k: nat, unit: real, increment: int)
    ensures (k as real + unit) * increment as real == (k * increment) as real + increment as real * unit
  {}

  /** Dividing an amount clearly above k increments rounds to something above k. */
  lemma DivisionStaysAbove(raw: real, k: nat, increment: int)
    requires raw > 0.0 && 0 < increment <= MAX_CHANGE && k * increment <= MAX_CHANGE
    requires raw >= (k * increment) as real + Pow10(-PLACES)
    ensures Round28(Ratio(raw, increment)) > k as real
  {
    hide Pow10, Tens, Round28, Representable;
    var e := PlaceOf(k, increment);
    Between(k, increment, e);
    var y := k as real + Pow10((e as int) - 27);
    var q := Ratio(raw, increment);
    assert q * increment as real == raw;
    if q < y { Strict(increment as real, q, y); }
    RoundKeepsOrder(q, y);
  }

  lemma PlaceOf(k: nat, increment: int) returns (e: nat)
    requires 0 < increment <= MAX_CHANGE && k * increment <= MAX_CHANGE
    ensures e <= 8 && k < Tens(e + 1) && increment * Tens(e) <= Tens(8)
  {
    EightZeros();
    if k == 0 {
      e := 0;
    } else {
      hide Tens;
      e := WholePlace(k);
      Times(Tens(e), k, increment);
      Times(1, increment, Tens(e));
      if e > 8 { TensGrow(9, e); NineZeros(); }
    }
  }

  lemma EightZeros()
    ensures Tens(8) == MAX_CHANGE && Tens(0) == 1 && Tens(1) == 10
  {}

  lemma NineZeros()
    ensures Tens(9) == 10 * Tens(8) && Tens(8) > 0
  {}

  lemma TensGrow(a: nat, b: nat)
    requires a <= b
    ensures Tens(a) <= Tens(b)
  {
    hide Tens;
    TensAdd(a, b - a);
    Times(1, Tens(b - a), Tens(a));
  }

  // ---------------------------------------------------------------- exact up to 19 digits

  lemma WholeUnits(k: nat)
    requires k <= 10 * MAX_CHANGE + 1
    ensures Representable(k as real)
  {
    hide Tens, Representable;
    EightZeros();
    NineZeros();
    TensGrow(10, DIGITS);
    TensGrow(9, 10);
    TenZeros();
    WholeIsRepresentable(k);
  }

  lemma TenZeros()
    ensures Tens(10) == 10 * Tens(9)
  {}

  /** The number of steps is exact when the amount divided is at most the limit and clearly
      above the step before. */
  lemma StepsAreExact(raw: real, k: int, increment: int)
    requires raw > 0.0 && 0 < increment <= MAX_CHANGE && k > 0 && IsLeast(k, raw, increment) && (k - 1) * increment <= MAX_CHANGE
    requires raw >= ((k - 1) * increment) as real + Pow10(-PLACES)
    ensures Ceiling(Round28(Ratio(raw, increment))) == k
  {
    hide Pow10, Tens, Round28, Representable;
    var q := Ratio(raw, increment);
    assert q * increment as real == raw;
    if q > k as real { Strict(increment as real, k as real, q); assert false; }
    if k > 1 { Times(1, increment, k - 1); }
    WholeUnits(k);
    RoundKeepsOrder(q, k as real);
    DivisionStaysAbove(raw, k - 1, increment);
    CeilingIs(Round28(q), k);
  }

  lemma LimitTicks()
    ensures MAX_CHANGE as real == Ticks(Tens(27), PLACES) && Tens(27) < Tens(DIGITS)
  {
    hide Pow10, Tens;
    EightZeros();
    TensAdd(8, 19);
    Pow10Zero();
    Finer(Tens(8), 0, -PLACES);
    assert Shifted(Tens(8), 0) == MAX_CHANGE as real;
    TensAdd(27, 1);
  }

  /** Amounts within the limit with at most 19 fractional digits have at most 28 digits, and so
      have amounts one last digit above a whole one. */
  lemma SmallIsRepresentable(x: real)
    requires HasDigits(x, PLACES) && x <= MAX_CHANGE as real
    ensures Representable(x)
  {
    hide Pow10, Tens;
    var c: nat :| x == Ticks(c, PLACES);
    LimitTicks();
    var unit := Pow10(-PLACES);
    if c > Tens(27) { Strict(unit, Tens(27) as real, c as real); assert false; }
  }

  lemma NextIsRepresentable(n: nat)
    requires n <= MAX_CHANGE
    ensures Representable(n as real + Pow10(-PLACES))
  {
    hide Pow10, Tens, Representable;
    SumIsShifted(n, PLACES);
    EightZeros();
    TensAdd(8, 19);
    LimitTicks();
    Times(n, MAX_CHANGE, Tens(19));
    ShiftedIsRepresentable(n * Tens(19) + 1, -PLACES);
  }

  lemma ShiftedIsRepresentable(m: nat, e: int)
    requires m <= Tens(DIGITS)
    ensures Representable(Shifted(m, e))
  {}

  lemma RawDigits(hours: real, rate: int, minimum: int, d: int)
    requires hours > 0.0 && rate > 0 && minimum > 0 && 0 <= d <= PLACES && HasDigits(hours, d)
    ensures HasDigits(Product(hours, rate), PLACES) && HasDigits(Raw(hours, rate, minimum), PLACES)
  {
    hide HasDigits;
    TimesDigits(hours, rate, d);
    Coarse(Product(hours, rate), d, PLACES);
    WholeDigits(minimum, PLACES);
  }

  /** Within the limit nothing is rounded before the division. */
  lemma PayablePrice(hours: real, rate: int, minimum: int, increment: int, k: int)
    requires hours > 0.0 && InBounds(rate, minimum, increment)
    requires HasDigits(Product(hours, rate), PLACES) && HasDigits(Raw(hours, rate, minimum), PLACES)
    requires k > 0 && IsLeast(k, Raw(hours, rate, minimum), increment) && k * increment <= MAX_CHANGE
    ensures Steps(hours, rate, minimum, increment) == k
  {
    hide HasDigits, Pow10, Tens, Representable, Round28, Ceiling;
    var raw, product := Raw(hours, rate, minimum), Product(hours, rate);
    SmallIsRepresentable(product);
    RoundKeepsRepresentable(product);
    LeastByNeighbour(k, raw, increment);
    Times(0, k - 1, increment);
    OneDigitAbove(raw, (k - 1) * increment, PLACES);
    StepsAreExact(raw, k, increment);
  }

  /** Above the limit, rounding cannot bring the price back under it. */
  lemma RefusedPrice(hours: real, rate: int, minimum: int, increment: int, k: int)
    requires hours > 0.0 && InBounds(rate, minimum, increment) && HasDigits(Raw(hours, rate, minimum), PLACES)
    requires k > 0 && IsLeast(k, Raw(hours, rate, minimum), increment) && k * increment > MAX_CHANGE
    ensures Steps(hours, rate, minimum, increment) * increment > MAX_CHANGE
  {
    hide HasDigits, Pow10, Tens, Representable, Round28;
    var raw0, product := Raw(hours, rate, minimum), Product(hours, rate);
    var n := LastWithin(increment);
    if Covers(n, raw0, increment) { Times(k, n, increment); assert false; }
    OneDigitAbove(raw0, n * increment, PLACES);
    var y := (n * increment) as real + Pow10(-PLACES);
    NextIsRepresentable(n * increment);
    RoundKeepsOrder(product, y);
    var raw := MaxReal(Round28(product), minimum as real);
    assert raw >= y;
    DivisionStaysAbove(raw, n, increment);
    var steps := Ceiling(Round28(Ratio(raw, increment)));
    assert steps >= n + 1;
    Times(n + 1, steps, increment);
  }

  lemma LastWithin(increment: int) returns (n: nat)
    requires 0 < increment <= MAX_CHANGE
    ensures n * increment <= MAX_CHANGE < (n + 1) * increment
  {
    n := MAX_CHANGE / increment;
    assert MAX_CHANGE == n * increment + MAX_CHANGE % increment;
  }

  /** With at most 19 fractional digits of hours the price is exactly the least multiple of the
      increment that is at least hours times rate and at least the minimum, and it is refused
      exactly when that multiple is above the limit. */
  lemma ExactPrice(t: HoursText, rate: int, minimum: int, increment: int, d: int)
    requires ParseHours(t).Some? && InBounds(rate, minimum, increment)
    requires 0 <= d <= PLACES && HasDigits(t.value, d)
    ensures IsExact(RecommendTotal(t, rate, minimum, increment), Raw(t.value, rate, minimum), increment)
  {
    hide HasDigits, Pow10, Tens, Representable, Round28, Ceiling, Steps, IsLeast;
    RawDigits(t.value, rate, minimum, d);
    var raw := Raw(t.value, rate, minimum);
    var k := LeastExists(raw, increment);
    if k * increment <= MAX_CHANGE {
      PayablePrice(t.value, rate, minimum, increment, k);
    } else {
      RefusedPrice(t.value, rate, minimum, increment, k);
    }
  }

  /** In plain terms: a price covers hours times rate and the minimum, is a multiple of the
      increment within the limit, and one increment less would not cover both; without a price no
      multiple within the limit covers them. */
  lemma PriceIsLeastMultiple(t: HoursText, rate: int, minimum: int, increment: int, d: int)
    requires t.Number? && 0.0 < t.value <= 1000.0 && InBounds(rate, minimum, increment)
    requires 0 <= d <= 19 && HasDigits(t.value, d)
    ensures match RecommendTotal(t, rate, minimum, increment)
            case Some(total) =>
              && total % increment == 0 && total <= 100_000_000
              && t.value * rate as real <= total as real && minimum <= total
              && ((total - increment) as real < t.value * rate as real || total - increment < minimum)
            case None =>
              forall n :: n % increment == 0 && minimum <= n && t.value * rate as real <= n as real ==> n > 100_000_000
  {
    hide HasDigits, RecommendTotal, Raw, IsLeast, Covers;
    ExactPrice(t, rate, minimum, increment, d);
    var raw := Raw(t.value, rate, minimum);
    var k :| IsLeast(k, raw, increment) && RecommendTotal(t, rate, minimum, increment) == if k * increment > MAX_CHANGE then None else Some(k * increment);
    LeastByNeighbour(k, raw, increment);
    Multiple(k, increment);
    CoversBoth(k, t.value, rate, minimum, increment);
    CoversBoth(k - 1, t.value, rate, minimum, increment);
    forall n | n % increment == 0 && minimum <= n && t.value * rate as real <= n as real ensures n >= k * increment {
      LeastMultiple(n, k, t.value, rate, minimum, increment);
    }
  }

  lemma CoversBoth(k: int, hours: real, rate: int, minimum: int, increment: int)
    requires hours > 0.0 && rate > 0
    ensures Covers(k, Raw(hours, rate, minimum), increment) <==> hours * rate as real <= (k * increment) as real && minimum <= k * increment
  {}

  lemma LeastMultiple(n: int, k: int, hours: real, rate: int, minimum: int, increment: int)
    requires hours > 0.0 && rate > 0 && increment > 0 && IsLeast(k, Raw(hours, rate, minimum), increment)
    requires n % increment == 0 && minimum <= n && hours * rate as real <= n as real
    ensures n >= k * increment
  {
    hide Raw;
    var j := n / increment;
    assert n == j * increment;
    CoversBoth(j, hours, rate, minimum, increment);
    Times(k, j, increment);
  }

  lemma Multiple(k: int, increment: int)
    requires increment > 0
    ensures (k * increment) % increment == 0 && (k - 1) * increment == k * increment - increment
  {
    var n := k * increment;
    assert n / increment * increment + n % increment == n;
    Times(n / increment, k, increment);
    Times(k, n / increment, increment);
    Times(k, n / increment + 1, increment);
  }

  // ---------------------------------------------------------------- and not beyond

  /** 394.93694832250547974961 hours: 20 fractional digits. */
  const ODD_HOURS: nat := 39_493_694_832_250_547_974_961
  const ODD_RATE: int := 50_641
  const HALF: nat := 10_000_001

  lemma TwentyZeros()
    ensures Tens(20) == 100_000_000_000_000_000_000
    ensures Tens(28) == 10_000_000_000_000_000_000_000_000_000
    ensures Tens(7) == 10_000_000 && Tens(8) == 100_000_000
  {
    EightZeros();
    FewZeros();
    hide Tens;
    TensAdd(8, 8);
    TensAdd(16, 4);
    TensAdd(20, 8);
  }

  lemma FewZeros()
    ensures Tens(4) == 10_000 && Tens(7) == 10_000_000
  {}

  /** The product is exact: two units of 10^7 + 1 and one last digit. */
  lemma OddProduct() returns (hours: real, raw: real)
    ensures hours == Ticks(ODD_HOURS, 20) && 0.0 < hours <= MAX_HOURS
    ensures raw == Product(hours, ODD_RATE) == (2 * HALF) as real + Pow10(-20)
    ensures Round28(raw) == raw
  {
    hide Pow10, Tens, Round28, Representable;
    TwentyZeros();
    hours := Ticks(ODD_HOURS, 20);
    var unit := Pow10(-20);
    Pow10Zero();
    Finer(1, 0, -20);
    assert Tens(20) as real * unit == 1.0;
    assert hours == ODD_HOURS as real * unit;
    Scaled(unit, ODD_HOURS as real, 1000.0 * Tens(20) as real);
    Strict(unit, 0.0, ODD_HOURS as real);
    raw := Product(hours, ODD_RATE);
    Swap(ODD_HOURS as real, unit, ODD_RATE as real);
    var m := 2 * HALF * Tens(20) + 1;
    assert ODD_HOURS * ODD_RATE == m;
    assert raw == m as real * unit;
    SumIsShifted(2 * HALF, 20);
    ShiftedIsRepresentable(m, -20);
    RoundKeepsRepresentable(raw);
  }

  /** Half of it is a tie at the 28th digit, and goes to the even neighbour below. */
  lemma OddQuotient(raw: real)
    requires raw == (2 * HALF) as real + Pow10(-20)
    ensures Round28(Ratio(raw, 2)) == HALF as real
  {
    hide Pow10, Tens, HalfEven, Scale;
    TwentyZeros();
    var unit := Pow10(-20);
    var q := Ratio(raw, 2);
    Pow10Zero();
    Finer(1, 0, -20);
    Pow10Monotone(-20, 0);
    assert q == HALF as real + unit / 2.0;
    TensIsPow10(7);
    TensIsPow10(8);
    assert HasPlace(q, 7);
    PlacesAgree(q, Scale(q) + DIGITS - 1, 7);
    var n := HALF * Tens(20);
    TieOfHalf(q, HALF as real, n, unit);
    EvenTie(n);
    assert Round28(q) == HalfEven(q / unit) as real * unit;
  }

  lemma TieOfHalf(q: real, half: real, n: nat, unit: real)
    requires unit > 0.0 && q == half + unit / 2.0 && n as real * unit == half
    ensures q / unit == n as real + 0.5
  {
    assert (n as real + 0.5) * unit == q;
    var r := q / unit;
    assert r * unit == q;
    if r < n as real + 0.5 { Strict(unit, r, n as real + 0.5); assert false; }
    if r > n as real + 0.5 { Strict(unit, n as real + 0.5, r); assert false; }
  }

  lemma EvenTie(n: nat)
    requires n % 2 == 0
    ensures HalfEven(n as real + 0.5) == n
  {}

  /** Priced at 50641 with increment 2, these hours come to 20000002 where the exact price is
      20000004. */
  lemma TwentyDigitsFail() returns (t: HoursText)
    ensures t == Number(Ticks(ODD_HOURS, 20)) && ParseHours(t).Some? && HasDigits(t.value, 20)
    ensures RecommendTotal(t, ODD_RATE, 1, 2) == Some(20_000_002)
    ensures IsExact(Some(20_000_004), Raw(t.value, ODD_RATE, 1), 2) && !IsExact(Some(20_000_002), Raw(t.value, ODD_RATE, 1), 2)
  {
    hide Pow10, Tens, Round28, Ceiling, HasDigits;
    var hours, raw := OddProduct();
    t := Number(hours);
    TicksHasDigits(ODD_HOURS, 20);
    OddQuotient(raw);
    CeilingIs(HALF as real, HALF);
    assert Raw(hours, ODD_RATE, 1) == raw;
    assert RecommendTotal(t, ODD_RATE, 1, 2) == Some(2 * HALF);
    assert !Covers(HALF, raw, 2);
    TwentyDigitsSmall();
    LeastByNeighbour(HALF + 1, raw, 2);
    forall k | IsLeast(k, raw, 2) ensures k == HALF + 1 {}
  }

  lemma TwentyDigitsSmall()
    ensures 0.0 < Pow10(-20) < 1.0
  {
    hide Pow10;
    Pow10Zero();
    Pow10Monotone(-20, -1);
    Pow10Next(-1);
  }

  lemma TicksHasDigits(c: nat, d: int)
    ensures HasDigits(Ticks(c, d), d)
  {}

  /** Every price at d fractional digits is exact. */
  ghost predicate AlwaysExact(d: int) {
    forall t: HoursText, rate: int, minimum: int, increment: int ::
      ParseHours(t).Some? && HasDigits(t.value, d) && InBounds(rate, minimum, increment) ==>
        IsExact(RecommendTotal(t, rate, minimum, increment), Raw(t.value, rate, minimum), increment)
  }

  /** The price is always exact if and only if hours have at most 19 fractional digits. */
  lemma ExactIffNineteenDigits(d: nat)
    ensures AlwaysExact(d) <==> d <= 19
  {
    hide HasDigits, RecommendTotal, IsExact, Raw;
    if d <= 19 {
      forall t: HoursText, rate: int, minimum: int, increment: int
        | ParseHours(t).Some? && HasDigits(t.value, d) && InBounds(rate, minimum, increment)
        ensures IsExact(RecommendTotal(t, rate, minimum, increment), Raw(t.value, rate, minimum), increment) {
        ExactPrice(t, rate, minimum, increment, d);
      }
    } else {
      var t := TwentyDigitsFail();
      Coarse(t.value, 20, d);
      assert InBounds(ODD_RATE, 1, 2);
    }
  }

  // ---------------------------------------------------------------- at any number of digits

  /** More hours never cost less, whatever their digits. */
  lemma MonotoneInHours(t: HoursText, u: HoursText, rate: int, minimum: int, increment: int)
    requires ParseHours(t).Some? && ParseHours(u).Some? && t.value <= u.value
    requires rate > 0 && minimum > 0 && increment > 0
    ensures var a, b := RecommendTotal(t, rate, minimum, increment), RecommendTotal(u, rate, minimum, increment);
            (b.Some? ==> a.Some? && a.value <= b.value)
  {
    hide Round28, Ceiling;
    Scaled(rate as real, t.value, u.value);
    RoundMonotone(Product(t.value, rate), Product(u.value, rate));
    var x := MaxReal(Round28(Product(t.value, rate)), minimum as real);
    var y := MaxReal(Round28(Product(u.value, rate)), minimum as real);
    RatioMonotone(x, y, increment);
    RoundMonotone(Ratio(x, increment), Ratio(y, increment));
    CeilingMonotone(Round28(Ratio(x, increment)), Round28(Ratio(y, increment)));
    Times(Steps(t.value, rate, minimum, increment), Steps(u.value, rate, minimum, increment), increment);
  }

  lemma RatioMonotone(x: real, y: real, increment: int)
    requires 0.0 < x <= y && increment > 0
    ensures Ratio(x, increment) <= Ratio(y, increment)
  {
    var p, q := Ratio(x, increment), Ratio(y, increment);
    assert p * increment as real == x && q * increment as real == y;
    if p > q { Strict(increment as real, q, p); assert false; }
  }

  /** Rounding never charges more than the exact price, and at most one increment less. */
  lemma WithinOneIncrement(t: HoursText, rate: int, minimum: int, increment: int, k: int)
    requires ParseHours(t).Some? && InBounds(rate, minimum, increment)
    requires IsLeast(k, Raw(t.value, rate, minimum), increment) && k * increment <= MAX_CHANGE
    ensures RecommendTotal(t, rate, minimum, increment) in {Some(k * increment), Some((k - 1) * increment)}
  {
    hide Round28, Ceiling, Representable;
    var product := Product(t.value, rate);
    var raw := MaxReal(Round28(product), minimum as real);
    LeastByNeighbour(k, Raw(t.value, rate, minimum), increment);
    SmallSteps(k, increment, minimum);
    WholeUnits(k * increment);
    RoundKeepsOrder(product, (k * increment) as real);
    WholeUnits((k - 1) * increment);
    RoundKeepsOrder(product, ((k - 1) * increment) as real);
    QuotientBetween(raw, k, increment);
    var q := Ratio(raw, increment);
    WholeUnits(k);
    RoundKeepsOrder(q, k as real);
    WholeUnits(k - 1);
    RoundKeepsOrder(q, (k - 1) as real);
    CeilingBetween(Round28(q), k);
  }

  lemma SmallSteps(k: int, increment: int, minimum: int)
    requires minimum > 0 && increment > 0 && minimum as real <= (k * increment) as real && k * increment <= MAX_CHANGE
    ensures 0 < k <= MAX_CHANGE && 0 <= (k - 1) * increment <= k * increment
  {
    Times(k, 0, increment);
    if k > 1 { Times(1, increment, k); }
    Times(0, k - 1, increment);
    Times(k - 1, k, increment);
  }

  lemma QuotientBetween(raw: real, k: int, increment: int)
    requires raw > 0.0 && increment > 0
    requires ((k - 1) * increment) as real <= raw <= (k * increment) as real
    ensures (k - 1) as real <= Ratio(raw, increment) <= k as real
  {
    Quotient(raw, increment as real, (k - 1) as real, k as real);
  }

  lemma CeilingBetween(x: real, k: int)
    requires (k - 1) as real <= x <= k as real
    ensures Ceiling(x) in {k - 1, k}
  {}

  // ---------------------------------------------------------------- effort ranges

  ghost function ValidateEffort(low: HoursText, recommended: HoursText, high: HoursText): (range: Option<(real, real, real)>)
    ensures range.Some? ==> low == Number(range.value.0) && recommended == Number(range.value.1) && high == Number(range.value.2)
  {
    var l, r, h := ParseHours(low), ParseHours(recommended), ParseHours(high);
    if l.None? || r.None? || h.None? then None
    else if !(l.value <= r.value <= h.value) then None
    else if h.value > Round28(l.value * 2.0) then None
    else Some((l.value, r.value, h.value))
  }

  /** The range the check is meant to accept: ordered, and at most a factor of two. */
  predicate IsEffort(low: HoursText, recommended: HoursText, high: HoursText) {
    && ParseHours(low).Some? && ParseHours(recommended).Some? && ParseHours(high).Some?
    && low.value <= recommended.value <= high.value <= 2.0 * low.value
  }

  const EFFORT_PLACES: int := 25

  lemma ThousandTicks()
    ensures MAX_HOURS == Ticks(Tens(DIGITS), EFFORT_PLACES)
  {
    hide Pow10, Tens;
    ThreeZeros();
    TensAdd(3, 25);
    Pow10Zero();
    Finer(1000, 0, -EFFORT_PLACES);
    assert Shifted(1000, 0) == MAX_HOURS;
  }

  lemma ThreeZeros()
    ensures Tens(3) == 1000
  {}

  /** Doubling is exact up to a thousand hours, and beyond it the limit on hours decides. */
  lemma DoubleDecides(low: real, high: real)
    requires 0.0 < low && HasDigits(low, EFFORT_PLACES) && 0.0 < high <= MAX_HOURS
    ensures high > Round28(low * 2.0) <==> high > low * 2.0
  {
    hide Pow10, Tens, Round28;
    var c: nat :| low == Ticks(c, EFFORT_PLACES);
    var unit := Pow10(-EFFORT_PLACES);
    assert low * 2.0 == Ticks(2 * c, EFFORT_PLACES) by { Swap(c as real, unit, 2.0); }
    ThousandTicks();
    ShiftedIsRepresentable(Tens(DIGITS), -EFFORT_PLACES);
    if 2 * c <= Tens(DIGITS) {
      ShiftedIsRepresentable(2 * c, -EFFORT_PLACES);
      RoundKeepsRepresentable(low * 2.0);
    } else {
      Scaled(unit, Tens(DIGITS) as real, (2 * c) as real);
      RoundKeepsOrder(low * 2.0, MAX_HOURS);
    }
  }

  /** The range is judged as meant at d fractional digits of the low estimate. */
  ghost predicate EffortJudged(d: int) {
    forall low: HoursText, recommended: HoursText, high: HoursText :: ParseHours(low).Some? && HasDigits(low.value, d) ==>
      (ValidateEffort(low, recommended, high).Some? <==> IsEffort(low, recommended, high))
  }

  const UNEVEN: nat := 50 * 100_000_000_000_000_000_000_000_000 + 1

  /** 50 hours and one unit of the 26th digit: the doubled value needs 29 digits, and loses its
      last one, so that a range of exactly a factor of two is refused. */
  lemma TwentySixDigitsFail() returns (low: HoursText, high: HoursText)
    ensures low == Number(Ticks(UNEVEN, 26)) && high == Number(2.0 * low.value)
    ensures ParseHours(low).Some? && HasDigits(low.value, 26)
    ensures IsEffort(low, low, high) && ValidateEffort(low, low, high).None?
  {
    hide Pow10, Tens, HalfEven, Scale, HasDigits;
    var l := Ticks(UNEVEN, 26);
    TicksHasDigits(UNEVEN, 26);
    var unit := Pow10(-25);
    TwentySixZeros();
    Pow10Zero();
    Pow10Next(-26);
    Finer(1, 0, -26);
    assert l == 50.0 + unit / 10.0;
    Pow10Monotone(-25, 0);
    var x := l * 2.0;
    TwoAndThree();
    assert HasPlace(x, 2);
    PlacesAgree(x, Scale(x) + DIGITS - 1, 2);
    Finer(1, 0, -25);
    var n := 100 * Tens(25);
    BelowHalf(x, n, unit);
    assert Round28(x) == HalfEven(x / unit) as real * unit == 100.0;
    low, high := Number(l), Number(2.0 * l);
  }

  lemma TwoAndThree()
    ensures Pow10(2) == 100.0 && Pow10(3) == 1000.0
  {}

  lemma TwentySixZeros()
    ensures Tens(25) == 10_000_000_000_000_000_000_000_000 && Tens(26) == 100_000_000_000_000_000_000_000_000
  {
    TwentyZeros();
    EightZeros();
    FiveZeros();
    hide Tens;
    TensAdd(20, 5);
    TensAdd(25, 1);
  }

  lemma FiveZeros()
    ensures Tens(5) == 100_000
  {}

  lemma BelowHalf(x: real, n: nat, unit: real)
    requires unit > 0.0 && x == n as real * unit + unit * 0.2
    ensures HalfEven(x / unit) == n
  {
    var r := x / unit;
    assert r * unit == x;
    var y := n as real + 0.2;
    assert y * unit == x;
    if r < y { Strict(unit, r, y); assert false; }
    if r > y { Strict(unit, y, r); assert false; }
  }

  /** The range check means what it says if and only if the low estimate has at most 25
      fractional digits. */
  lemma EffortIffTwentyFiveDigits(d: nat)
    ensures EffortJudged(d) <==> d <= 25
  {
    hide HasDigits, Round28;
    if d <= 25 {
      forall low: HoursText, recommended: HoursText, high: HoursText | ParseHours(low).Some? && HasDigits(low.value, d)
        ensures ValidateEffort(low, recommended, high).Some? <==> IsEffort(low, recommended, high) {
        Coarse(low.value, d, EFFORT_PLACES);
        if high.Number? && 0.0 < high.value <= MAX_HOURS { DoubleDecides(low.value, high.value); }
      }
    } else {
      var low, high := TwentySixDigitsFail();
      Coarse(low.value, 26, d);
    }
  }
}
