/** Up to which totals the resource split of internal/manifests/manifestutils/resources.go keeps to the total in single
    precision: for every table, replica count and rounding to nearest up to 2^24 + 82, and no further. */
module SafeTotals {
  import opened Wrappers
  import opened ResourceSplit
  import opened SinglePrecision

  /** Every total up to this one is kept. */
  const LAST_SAFE: nat := 16777298

  // ---------- dividing among replicas wins nothing ----------

  /** A representable number in this range is a multiple of a unit that divides 1. */
  lemma UnitOf(x: real) returns (k: int, e: int)
    requires Representable(x) && 0.001 <= x < 16777216.0
    ensures e <= 0 && x == Number(k, e) && x < Number(SIGNIFICAND, e)
  {
    e := Exponent(x);
    Bounds(e);
    hide Representable, Number, Pow2;
    if x == Number(LEAST, e) { k := LEAST; } else { k := OnGrid(x, e); }
  }

  lemma Bounds(e: int)
    ensures Number(LEAST, e) == 8388608.0 * Pow2(e) && Number(SIGNIFICAND, e) == 16777216.0 * Pow2(e)
    ensures e > 0 ==> Pow2(e) >= 2.0
  {
    if e > 0 { PowerPositive(e - 1); }
  }

  /** A whole number that is at most a rounding error above a multiple of such a unit is not above it. */
  lemma WholeBelow(count: int, x: real, k: int, e: int)
    requires e <= 0 && x == Number(k, e) && count as real <= Grow(EPSILON, x) && x < Number(SIGNIFICAND, e)
    ensures count as real <= x
  {
    Shift(count, e, 0 - e);
    WholeNumber(count);
    Bounds(e);
    var c := count * PowerOfTwo(0 - e);
    NumbersOrdered(k, c, e);
    NumbersOrdered(c, k, e);
    hide Number, Pow2, PowerOfTwo;
    assert EPSILON * x < Pow2(e);
  }

  lemma NotBelow(v: real, y: real, z: real)
    requires Nearest(v, y) && Representable(z) && z <= v
    ensures y >= z
  {}

  /** Replica counts of 24 bits are not rounded, and larger ones not below that. */
  lemma CountRounds(rnd: Rounding, n: nat)
    requires RoundsToNearest(rnd) && 1 <= n <= MAX_INT32
    ensures n <= SIGNIFICAND ==> rnd(n as real) == n as real
    ensures n > SIGNIFICAND ==> rnd(n as real) >= 16777216.0
  {
    assert Nearest(n as real, rnd(n as real));
    WholeNumber(n);
    WholeNumber(SIGNIFICAND);
    if n <= SIGNIFICAND {
      RepresentableStays(n as real, rnd(n as real));
    } else {
      assert Representable(Number(SIGNIFICAND, 0));
      NotBelow(n as real, rnd(n as real), SIGNIFICAND as real);
    }
  }

  /** The whole amounts of all replicas together are no more than what is divided among them. */
  lemma ReplicasTake(rnd: Rounding, x: real, n: nat)
    requires RoundsToNearest(rnd) && Representable(x) && 0.00125 <= x <= 10000000.0 && 1 <= n <= MAX_INT32
    ensures (n * Truncate(Each(rnd, x, n))) as real <= x
  {
    NearestIsAccurate(rnd);
    CountRounds(rnd, n);
    RoundBounds(rnd, EPSILON, n as real);
    if n > 1 {
      hide RoundsToNearest, Representable, InRange;
      QuotientRange(x, rnd(n as real));
      QuotientRounds(rnd, x / rnd(n as real));
      if n > SIGNIFICAND {
        Vanishes(x, rnd(n as real), rnd(x / rnd(n as real)));
      } else {
        TakenTogether(x, n, rnd(x / n as real));
        var k, e := UnitOf(x);
        WholeBelow(n * Truncate(rnd(x / n as real)), x, k, e);
      }
    }
  }

  lemma QuotientRounds(rnd: Rounding, q: real)
    requires Accurate(rnd, EPSILON) && 0.0000000000002 <= q <= 10000000.0
    ensures 0.0 <= rnd(q) <= Grow(EPSILON, q)
  {
    RoundBounds(rnd, EPSILON, q);
  }

  lemma Vanishes(x: real, d: real, y: real)
    requires 0.0 <= x <= 10000000.0 && d >= 16777216.0 && 0.0 <= y <= Grow(EPSILON, x / d)
    ensures Truncate(y) == 0
  {
    var q := x / d;
    assert q * d == x;
    if q > 0.6 { Mono(0.6, q, d); }
  }

  lemma TakenTogether(x: real, n: nat, y: real)
    requires n >= 1 && 0.0 <= y <= Grow(EPSILON, x / n as real)
    ensures (n * Truncate(y)) as real <= Grow(EPSILON, x)
  {
    var q := x / n as real;
    assert n as real * q == x;
    GrowScales(EPSILON, n as real, q);
    Mono(Truncate(y) as real, Grow(EPSILON, q), n as real);
    IntProduct(n, Truncate(y));
  }

  // ---------- the part of a component ----------

  /** Rounding moves a number of this size by at most half the unit. */
  lemma RoundingMoves(y: real, x: real, e: int)
    requires Nearest(y, x) && -149 <= e <= 104 && 0.0 <= y < Number(SIGNIFICAND, e)
    ensures x <= y + Pow2(e) / 2.0
  {
    var m := Enclosed(y, e);
    assert Representable(Number(m, e)) && Representable(Number(m + 1, e));
    hide Number, Representable, Pow2;
    Halfway(y, x, Number(m, e), Number(m + 1, e), Pow2(e));
  }

  lemma Enclosed(y: real, e: int) returns (m: int)
    requires 0.0 <= y < Number(SIGNIFICAND, e)
    ensures 0 <= m < SIGNIFICAND && Number(m, e) <= y < Number(m + 1, e) == Number(m, e) + Pow2(e)
  {
    NextPower(e);
    hide Pow2;
    m := GridBelow(y, Pow2(e));
    NextNumber(m, e);
  }

  lemma GridBelow(y: real, g: real) returns (m: int)
    requires g > 0.0 && 0.0 <= y < 16777216.0 * g
    ensures 0 <= m < SIGNIFICAND && m as real * g <= y < m as real * g + g
  {
    var q := y / g;
    assert q * g == y;
    m := FloorBetween(y, q, g);
  }

  lemma FloorBetween(y: real, q: real, g: real) returns (m: int)
    requires g > 0.0 && 0.0 <= y < 16777216.0 * g && q * g == y
    ensures 0 <= m < SIGNIFICAND && m as real * g <= y < m as real * g + g
  {
    m := q.Floor;
    if q < 0.0 { StrictMono(q, 0.0, g); }
    if q >= 16777216.0 { Mono(16777216.0, q, g); }
    Mono(m as real, q, g);
    Upper(y, q, m as real, g);
  }

  /** A power of two by which a fraction becomes a number of 24 bits. */
  function Bits(thousandths: nat): nat {
    if thousandths < 16 then 30
    else if thousandths < 32 then 29
    else if thousandths < 63 then 28
    else if thousandths < 125 then 27
    else if thousandths < 250 then 26
    else 25
  }

  function Scale(thousandths: nat): nat {
    if thousandths < 16 then 0x4000_0000
    else if thousandths < 32 then 0x2000_0000
    else if thousandths < 63 then 0x1000_0000
    else if thousandths < 125 then 0x800_0000
    else if thousandths < 250 then 0x400_0000
    else 0x200_0000
  }

  function Significand(thousandths: nat): int { (thousandths * Scale(thousandths) + 500) / 1000 }

  /** A fraction that is not itself a power of two. */
  predicate Below(thousandths: nat) { 10 <= thousandths < 500 && thousandths != 125 && thousandths != 250 }

  lemma Scales()
    ensures PowerOfTwo(25) == 0x200_0000 && PowerOfTwo(26) == 0x400_0000 && PowerOfTwo(27) == 0x800_0000
    ensures PowerOfTwo(28) == 0x1000_0000 && PowerOfTwo(29) == 0x2000_0000 && PowerOfTwo(30) == 0x4000_0000
  {
    Power36();
    assert PowerOfTwo(25) == 2 * PowerOfTwo(24);
    assert PowerOfTwo(26) == 2 * PowerOfTwo(25);
    assert PowerOfTwo(27) == 2 * PowerOfTwo(26);
    assert PowerOfTwo(28) == 2 * PowerOfTwo(27);
    assert PowerOfTwo(29) == 2 * PowerOfTwo(28);
    assert PowerOfTwo(30) == 2 * PowerOfTwo(29);
  }

  lemma ScaleIsPower(thousandths: nat)
    ensures PowerOfTwo(Bits(thousandths)) == Scale(thousandths)
    ensures Pow2(0 - Bits(thousandths)) == 1.0 / Scale(thousandths) as real
  {
    Scales();
    hide PowerOfTwo;
  }

  lemma SignificandBounds(thousandths: nat)
    requires Below(thousandths)
    ensures LEAST < Significand(thousandths) <= SIGNIFICAND - 100
    ensures -500 < thousandths * Scale(thousandths) - 1000 * Significand(thousandths) < 500
  {
    var f := thousandths;
    if f < 16 { Bracket(f, 0x800_0000, 10, 15); }
    else if f < 32 { Bracket(f, 0x400_0000, 16, 31); }
    else if f < 63 { Bracket(f, 0x200_0000, 32, 62); }
    else if f < 125 { Bracket(f, 0x100_0000, 63, 124); }
    else if f < 250 { Bracket(f, 0x80_0000, 126, 249); }
    else { Bracket(f, 0x40_0000, 251, 499); }
  }

  /** A multiple of 8 is not halfway between multiples of 1000. */
  lemma Bracket(f: nat, eighth: nat, low: nat, high: nat)
    requires low <= f <= high && low * eighth >= 125 * (LEAST + 1) && high * eighth <= 125 * (SIGNIFICAND - 101)
    ensures LEAST < (f * (8 * eighth) + 500) / 1000 <= SIGNIFICAND - 100
    ensures -500 < f * (8 * eighth) - 1000 * ((f * (8 * eighth) + 500) / 1000) < 500
  {
    IntMono(low, f, eighth);
    IntMono(f, high, eighth);
    var q := f * eighth;
    assert f * (8 * eighth) == 8 * q;
    MultipleOfEight(q);
  }

  lemma MultipleOfEight(q: int)
    ensures -500 < 8 * q - 1000 * ((8 * q + 500) / 1000) < 500
  {}

  lemma FractionRounds(thousandths: nat)
    requires Below(thousandths)
    ensures RoundedFraction(thousandths, Significand(thousandths), 0 - Bits(thousandths))
  {
    ScaleIsPower(thousandths);
    SignificandBounds(thousandths);
    hide PowerOfTwo, Pow2, Significand;
    CloseFraction(thousandths, Significand(thousandths), Scale(thousandths));
  }

  lemma CloseFraction(thousandths: nat, m: int, scale: nat)
    requires scale > 0 && -500 < thousandths * scale - 1000 * m < 500
    ensures Distance(Fraction(thousandths), m as real * (1.0 / scale as real)) < 1.0 / scale as real / 2.0
  {
    var g, f := 1.0 / scale as real, thousandths as real / 1000.0;
    assert g * scale as real == 1.0;
    assert f == f * scale as real * g;
    var d := f * scale as real - m as real;
    assert -0.5 < d < 0.5 by { assert (thousandths * scale) as real == thousandths as real * scale as real; }
    StrictMono(d, 0.5, g);
    StrictMono(-0.5, d, g);
    assert d * g == f - m as real * g;
  }

  const HIGHEST: nat := SIGNIFICAND + 84

  /** Totals that occur after rounding. */
  predicate Rounded(t: nat) { t <= HIGHEST && (t <= SIGNIFICAND || t % 2 == 0) }

  /** The most that a component can take of a rounded total. */
  function Most(t: nat, thousandths: nat): int {
    if thousandths == 500 then t / 2 else (t * Significand(thousandths) + LEAST) / Scale(thousandths)
  }

  /** Total times fraction before the last rounding. */
  lemma ProductOf(rnd: Rounding, t: nat, thousandths: nat)
    requires RoundsToNearest(rnd) && Below(thousandths)
    ensures Product(t as real, rnd(Fraction(thousandths)))
         == Number(Significand(thousandths) * t, 0 - Bits(thousandths))
  {
    var m, e := Significand(thousandths), 0 - Bits(thousandths);
    RoundedTo(rnd, thousandths, m, e);
    hide Significand, Number, Pow2, RoundsToNearest;
    ProductOfEqual(t, rnd(Fraction(thousandths)), m, e);
  }

  lemma RoundedTo(rnd: Rounding, thousandths: nat, m: int, e: int)
    requires RoundsToNearest(rnd) && Below(thousandths)
    requires m == Significand(thousandths) && e == 0 - Bits(thousandths)
    ensures rnd(Fraction(thousandths)) == Number(m, e)
  {
    FractionRounds(thousandths);
    SignificandBounds(thousandths);
    IsNearest(rnd, Fraction(thousandths));
    hide Significand, Number, Pow2, RoundsToNearest, Nearest, Distance;
    RoundsTo(Fraction(thousandths), rnd(Fraction(thousandths)), m, e);
  }

  lemma ProductOfEqual(t: nat, x: real, m: int, e: int)
    requires x == Number(m, e)
    ensures Product(t as real, x) == Number(m * t, e)
  {
    TimesNumber(t, m, e);
  }

  /** In multiples of the unit of the fraction. */
  lemma InUnits(thousandths: nat, c: int)
    ensures Number(c, 0 - Bits(thousandths)) == c as real / Scale(thousandths) as real
    ensures Number(SIGNIFICAND, 24 - Bits(thousandths)) == 281474976710656.0 / Scale(thousandths) as real
    ensures Pow2(24 - Bits(thousandths)) == 16777216.0 / Scale(thousandths) as real
  {
    ScaleIsPower(thousandths);
    ScaleBounds(thousandths);
    hide Pow2, PowerOfTwo, Scale, Bits, Number;
    InUnit(0 - Bits(thousandths), Scale(thousandths), c);
    UnitOfFraction(0 - Bits(thousandths), Scale(thousandths));
    TwentyFourBits(24 - Bits(thousandths), Scale(thousandths) as real);
  }

  lemma InUnit(e: int, scale: nat, c: int)
    requires scale > 0 && Pow2(e) == 1.0 / scale as real
    ensures Number(c, e) == c as real / scale as real
  {
    hide Pow2;
    OverOne(c as real, scale as real);
  }

  lemma UnitOfFraction(e: int, scale: nat)
    requires scale > 0 && Pow2(e) == 1.0 / scale as real
    ensures Pow2(24 + e) == 16777216.0 / scale as real
  {
    Power36();
    PowersMultiply(e, 24);
    hide Pow2, PowerOfTwo;
    OverOne(16777216.0, scale as real);
  }

  lemma TwentyFourBits(e: int, scale: real)
    requires scale > 0.0 && Pow2(e) == 16777216.0 / scale
    ensures Number(SIGNIFICAND, e) == 281474976710656.0 / scale
  {
    hide Pow2;
    var unit := 16777216.0 / scale;
    assert unit * scale == 16777216.0;
    assert 281474976710656.0 / scale * scale == 281474976710656.0;
  }

  lemma OverOne(a: real, b: real)
    requires b > 0.0
    ensures a * (1.0 / b) == a / b
  {}

  lemma BelowPart(rnd: Rounding, t: nat, thousandths: nat, x: real)
    requires RoundsToNearest(rnd) && Below(thousandths) && 1 <= t <= HIGHEST
    requires x == rnd(Product(t as real, rnd(Fraction(thousandths))))
    ensures Representable(x) && x * Scale(thousandths) as real <= (t * Significand(thousandths) + LEAST) as real
  {
    hide Significand, Number, Pow2, Scale, Product, Representable, RoundsToNearest, Nearest, InRange;
    var c, scale := Significand(thousandths) * t, Scale(thousandths);
    ProductOf(rnd, t, thousandths);
    InUnits(thousandths, c);
    SignificandBounds(thousandths);
    ProductBounds(Significand(thousandths), t);
    ScaleBounds(thousandths);
    QuotientInRange(c, scale);
    var y := c as real / scale as real;
    IsNearest(rnd, y);
    RoundingMoves(y, x, 24 - Bits(thousandths));
    Unscale(c, scale, x);
  }

  lemma IsNearest(rnd: Rounding, y: real)
    requires RoundsToNearest(rnd) && InRange(y)
    ensures Nearest(y, rnd(y)) && Representable(rnd(y))
  {}

  lemma ScaleBounds(thousandths: nat)
    ensures 0x200_0000 <= Scale(thousandths) <= 0x4000_0000
  {}

  lemma ProductBounds(m: int, t: nat)
    requires LEAST < m <= SIGNIFICAND - 100 && 1 <= t <= HIGHEST
    ensures LEAST < m * t < 281474976710656
  {
    IntMono(1, t, m);
    IntMono(t, HIGHEST, m);
  }

  lemma QuotientInRange(c: int, scale: nat)
    requires LEAST < c < 281474976710656 && 0x200_0000 <= scale <= 0x4000_0000
    ensures InRange(c as real / scale as real) && 0.0 <= c as real / scale as real < 281474976710656.0 / scale as real
  {
    QuotientBetween(c as real, scale as real, 0.001, 10000000.0);
    StrictQuotient(c as real, 281474976710656.0, scale as real);
  }

  lemma QuotientBetween(c: real, d: real, low: real, high: real)
    requires d > 0.0 && low * d <= c <= high * d
    ensures low <= c / d <= high
  {
    var q := c / d;
    assert q * d == c;
    if q < low { StrictMono(q, low, d); }
    if q > high { StrictMono(high, q, d); }
  }

  lemma StrictQuotient(a: real, b: real, d: real)
    requires a < b && d > 0.0
    ensures a / d < b / d
  {}

  lemma Unscale(c: int, scale: nat, x: real)
    requires scale > 0 && x <= c as real / scale as real + 16777216.0 / scale as real / 2.0
    ensures x * scale as real <= (c + LEAST) as real
  {
    var n := scale as real;
    var bound := c as real / n + 16777216.0 / n / 2.0;
    Mono(x, bound, n);
    assert bound * n == c as real + 8388608.0;
  }

  /** The limits of all replicas of a component. */
  function Taken(rnd: Rounding, total: nat, thousandths: nat, replicas: nat): int {
    replicas * Limit(rnd, total, thousandths, replicas)
  }

  /** What the replicas of a component take of its part. */
  lemma LimitTakes(rnd: Rounding, total: nat, thousandths: nat, n: nat, x: real)
    requires RoundsToNearest(rnd) && x == Part(rnd, total as real, Fraction(thousandths)) && 1 <= n <= MAX_INT32
    requires Representable(x) && 0.00125 <= x <= 10000000.0
    ensures Taken(rnd, total, thousandths, n) as real <= x
  {
    hide RoundsToNearest, Representable, Part, Each, Truncate;
    ReplicasTake(rnd, x, n);
  }

  lemma PartOf(rnd: Rounding, total: nat, t: nat, fraction: real)
    requires rnd(total as real) == t as real
    ensures Part(rnd, total as real, fraction) == rnd(Product(t as real, rnd(fraction)))
  {
    PartIsProduct(rnd, total as real, fraction);
    hide Part, Product;
  }

  lemma PartIsProduct(rnd: Rounding, total: real, fraction: real)
    ensures Part(rnd, total, fraction) == rnd(Product(rnd(total), rnd(fraction)))
  {}

  lemma BelowTakes(rnd: Rounding, total: nat, t: nat, thousandths: nat, n: nat)
    requires RoundsToNearest(rnd) && rnd(total as real) == t as real && Below(thousandths)
    requires 1 <= total && 1 <= t <= HIGHEST && total <= MAX_INT32 && 1 <= n <= MAX_INT32
    ensures Taken(rnd, total, thousandths, n) <= Most(t, thousandths)
  {
    var x := Part(rnd, total as real, Fraction(thousandths));
    hide RoundsToNearest, Representable, Part, Significand, Scale, Taken;
    PartOf(rnd, total, t, Fraction(thousandths));
    BelowPart(rnd, t, thousandths, x);
    PartAtLeast(rnd, total, thousandths);
    var c, scale := t * Significand(thousandths) + LEAST, Scale(thousandths);
    SignificandBounds(thousandths);
    ProductBounds(Significand(thousandths), t);
    ScaleBounds(thousandths);
    PartSize(x, scale, c);
    LimitTakes(rnd, total, thousandths, n, x);
    WholeQuotient(Taken(rnd, total, thousandths, n), x, scale, c);
  }

  lemma PartAtLeast(rnd: Rounding, total: nat, thousandths: nat)
    requires RoundsToNearest(rnd) && 1 <= total <= MAX_INT32 && 10 <= thousandths <= 1000
    ensures Part(rnd, total as real, Fraction(thousandths)) >= 0.00125
  {
    NearestIsAccurate(rnd);
    hide RoundsToNearest, Accurate, Part;
    AllBounds(rnd, EPSILON, total as real, Fraction(thousandths));
  }

  lemma PartSize(x: real, scale: nat, c: int)
    requires 0x200_0000 <= scale && x * scale as real <= c as real && c < 281474985099264
    ensures x <= 10000000.0
  {
    if x > 10000000.0 { Mono(10000000.0, x, scale as real); }
  }

  lemma WholeQuotient(count: int, x: real, scale: nat, c: int)
    requires scale > 0 && count as real <= x && x * scale as real <= c as real
    ensures count <= c / scale
  {
    Mono(count as real, x, scale as real);
    IntProduct(count, scale);
    assert count * scale <= c;
    FloorOf(count, scale, c);
  }

  lemma FloorOf(count: int, scale: nat, c: int)
    requires scale > 0 && count * scale <= c
    ensures count <= c / scale
  {
    var q := c / scale;
    if count >= q + 1 { IntMono(q + 1, count, scale); }
  }

  /** One half is exact, and so is its product with a rounded total. */
  lemma HalfPart(rnd: Rounding, t: nat)
    requires RoundsToNearest(rnd) && 1 <= t && Rounded(t)
    ensures rnd(Product(t as real, rnd(Fraction(500)))) == t as real / 2.0 && Representable(t as real / 2.0)
  {
    Halves();
    assert Representable(Number(1, -1));
    assert Representable(t as real / 2.0) by {
      if t <= SIGNIFICAND {
        assert Number(t, -1) == t as real / 2.0;
      } else {
        assert Number(t / 2, 0) == t as real / 2.0;
      }
    }
    hide Number, Pow2, Representable;
    RepresentableStays(Fraction(500), rnd(Fraction(500)));
    RepresentableStays(t as real / 2.0, rnd(t as real / 2.0));
  }

  lemma Halves()
    ensures Pow2(-1) == 0.5 && Pow2(0) == 1.0 && Number(1, -1) == Fraction(500)
  {
    assert PowerOfTwo(1) == 2;
  }

  lemma HalfTakes(rnd: Rounding, total: nat, t: nat, n: nat)
    requires RoundsToNearest(rnd) && rnd(total as real) == t as real && Rounded(t)
    requires 1 <= total && 1 <= t && total <= MAX_INT32 && 1 <= n <= MAX_INT32
    ensures Taken(rnd, total, 500, n) <= t / 2
  {
    hide RoundsToNearest, Representable, Part, Taken;
    HalfPart(rnd, t);
    PartOf(rnd, total, t, Fraction(500));
    var x := t as real / 2.0;
    LimitTakes(rnd, total, 500, n, x);
    WholeQuotient(Taken(rnd, total, 500, n), x, 2, t);
  }

  lemma NothingTaken(rnd: Rounding, thousandths: nat, n: nat)
    requires RoundsToNearest(rnd) && 1 <= n <= MAX_INT32
    ensures Taken(rnd, 0, thousandths, n) == 0
  {
    NearestIsAccurate(rnd);
    ZeroTotal(rnd, EPSILON, thousandths, n);
  }

  predicate Usual(thousandths: nat) { thousandths == 500 || Below(thousandths) }

  /** All replicas of a component together. */
  lemma ComponentTakes(rnd: Rounding, total: nat, t: nat, thousandths: nat, n: nat)
    requires RoundsToNearest(rnd) && rnd(total as real) == t as real && Rounded(t) && Usual(thousandths)
    requires total <= MAX_INT32 && (total == 0 <==> t == 0) && 1 <= n <= MAX_INT32
    ensures Taken(rnd, total, thousandths, n) <= Most(t, thousandths)
  {
    hide RoundsToNearest, Taken, Significand;
    if total == 0 {
      NothingTaken(rnd, thousandths, n);
      ScaleBounds(thousandths);
    } else if thousandths == 500 {
      HalfTakes(rnd, total, t, n);
    } else {
      BelowTakes(rnd, total, t, thousandths, n);
    }
  }

  // ---------- whole tables ----------

  predicate AllUsual(fractions: seq<nat>) { forall i :: 0 <= i < |fractions| ==> Usual(fractions[i]) }

  function MostTotal(t: nat, fractions: seq<nat>): int {
    if fractions == [] then 0 else Most(t, fractions[0]) + MostTotal(t, fractions[1..])
  }

  lemma {:induction false} TableTakes(rnd: Rounding, total: nat, t: nat, fractions: seq<nat>, replicas: seq<nat>)
    requires RoundsToNearest(rnd) && rnd(total as real) == t as real && Rounded(t) && (total == 0 <==> t == 0)
    requires total <= MAX_INT32 && |fractions| == |replicas| && GoodCounts(replicas) && AllUsual(fractions)
    ensures TotalLimit(rnd, total, fractions, replicas) <= MostTotal(t, fractions)
  {
    hide RoundsToNearest, Most, Limit, Rounded, Usual;
    if fractions != [] {
      TableTakes(rnd, total, t, fractions[1..], replicas[1..]);
      ComponentTakes(rnd, total, t, fractions[0], replicas[0]);
    }
  }

  lemma MostFrom(t: nat, fractions: seq<nat>, i: nat)
    requires i < |fractions|
    ensures MostTotal(t, fractions[i..]) == Most(t, fractions[i]) + MostTotal(t, fractions[i + 1..])
  {
    hide Most;
    assert fractions[i..][1..] == fractions[i + 1..];
  }

  /** The sum of a table with six to eight rows. */
  lemma MostOfTable(t: nat, fractions: seq<nat>)
    requires 6 <= |fractions| <= 8
    ensures MostTotal(t, fractions) ==
              Most(t, fractions[0]) + Most(t, fractions[1]) + Most(t, fractions[2]) + Most(t, fractions[3])
              + Most(t, fractions[4]) + Most(t, fractions[5])
              + (if |fractions| > 6 then Most(t, fractions[6]) else 0)
              + (if |fractions| > 7 then Most(t, fractions[7]) else 0)
  {
    hide Most;
    assert fractions[0..] == fractions && fractions[|fractions|..] == [];
    MostOfNone(t);
    hide MostTotal;
    MostFrom(t, fractions, 0);
    MostFrom(t, fractions, 1);
    MostFrom(t, fractions, 2);
    MostFrom(t, fractions, 3);
    MostFrom(t, fractions, 4);
    MostFrom(t, fractions, 5);
    if |fractions| > 6 { MostFrom(t, fractions, 6); }
    if |fractions| > 7 { MostFrom(t, fractions, 7); }
  }

  lemma MostOfNone(t: nat)
    ensures MostTotal(t, []) == 0
  {}

  predicate IsBound(thousandths: nat, fraction: int, half: int) {
    if thousandths == 500 then fraction == 0x2000_0000 && half == 0
    else
      && Below(thousandths) && fraction == Significand(thousandths) * (0x4000_0000 / Scale(thousandths))
      && half == LEAST * (0x4000_0000 / Scale(thousandths))
  }

  /** The bound without its quotient: the fraction and half its unit in multiples of 2^-30. */
  lemma MostAtMost(t: nat, thousandths: nat, fraction: int, half: int)
    requires IsBound(thousandths, fraction, half)
    ensures Most(t, thousandths) * 0x4000_0000 <= Times(t, fraction) + half
  {
    if thousandths != 500 {
      hide Significand;
      Rescale(t * Significand(thousandths) + LEAST, Scale(thousandths), 0x4000_0000 / Scale(thousandths));
      Spread(t, Significand(thousandths), LEAST, 0x4000_0000 / Scale(thousandths));
    }
  }

  function Times(t: nat, fraction: int): int { t * fraction }

  lemma Rescale(c: int, scale: nat, rest: nat)
    requires scale > 0 && scale * rest == 0x4000_0000
    ensures (c / scale) * 0x4000_0000 <= c * rest
  {
    IntMono((c / scale) * scale, c, rest);
    assert (c / scale) * scale * rest == (c / scale) * (scale * rest);
  }

  lemma Spread(t: int, m: int, half: int, rest: int)
    ensures (t * m + half) * rest == t * (m * rest) + half * rest
  {}

  function NoGatewayCpu(t: nat): int {
    Most(t, 270) + Most(t, 380) + Most(t, 160) + Most(t, 100) + Most(t, 45) + Most(t, 45)
  }

  lemma NoGatewayCpuKept(t: nat)
    requires t <= HIGHEST
    ensures NoGatewayCpu(t) <= t
  {
    MostAtMost(t, 270, 289910304, 268435456);
    MostAtMost(t, 380, 408021888, 268435456);
    MostAtMost(t, 160, 171798688, 134217728);
    MostAtMost(t, 100, 107374184, 67108864);
    MostAtMost(t, 45, 48318384, 33554432);
    hide Most;
  }

  function NoGatewayMemory(t: nat): int {
    Most(t, 120) + Most(t, 500) + Most(t, 180) + Most(t, 150) + Most(t, 25) + Most(t, 25)
  }

  lemma NoGatewayMemoryKept(t: nat)
    requires t <= HIGHEST
    ensures NoGatewayMemory(t) <= t
  {
    MostAtMost(t, 120, 128849016, 67108864);
    MostAtMost(t, 500, 536870912, 0);
    MostAtMost(t, 180, 193273536, 134217728);
    MostAtMost(t, 150, 161061280, 134217728);
    MostAtMost(t, 25, 26843546, 16777216);
    hide Most;
  }

  function ProxyCpu(t: nat): int {
    Most(t, 270) + Most(t, 380) + Most(t, 160) + Most(t, 100) + Most(t, 45) + Most(t, 10) + Most(t, 35)
  }

  lemma ProxyCpuKept(t: nat)
    requires t <= HIGHEST
    ensures ProxyCpu(t) <= t
  {
    MostAtMost(t, 270, 289910304, 268435456);
    MostAtMost(t, 380, 408021888, 268435456);
    MostAtMost(t, 160, 171798688, 134217728);
    MostAtMost(t, 100, 107374184, 67108864);
    MostAtMost(t, 45, 48318384, 33554432);
    MostAtMost(t, 10, 10737418, 8388608);
    MostAtMost(t, 35, 37580964, 33554432);
    hide Most;
  }

  function ProxyMemory(t: nat): int {
    Most(t, 120) + Most(t, 500) + Most(t, 180) + Most(t, 150) + Most(t, 25) + Most(t, 10) + Most(t, 15)
  }

  lemma ProxyMemoryKept(t: nat)
    requires t <= HIGHEST
    ensures ProxyMemory(t) <= t
  {
    MostAtMost(t, 120, 128849016, 67108864);
    MostAtMost(t, 500, 536870912, 0);
    MostAtMost(t, 180, 193273536, 134217728);
    MostAtMost(t, 150, 161061280, 134217728);
    MostAtMost(t, 25, 26843546, 16777216);
    MostAtMost(t, 10, 10737418, 8388608);
    MostAtMost(t, 15, 16106127, 8388608);
    hide Most;
  }

  function GatewayCpu(t: nat): int {
    Most(t, 260) + Most(t, 360) + Most(t, 150) + Most(t, 90)
      + Most(t, 40) + Most(t, 40) + Most(t, 40) + Most(t, 20)
  }

  lemma GatewayCpuKept(t: nat)
    requires t <= HIGHEST
    ensures GatewayCpu(t) <= t
  {
    MostAtMost(t, 260, 279172864, 268435456);
    MostAtMost(t, 360, 386547072, 268435456);
    MostAtMost(t, 150, 161061280, 134217728);
    MostAtMost(t, 90, 96636768, 67108864);
    MostAtMost(t, 40, 42949672, 33554432);
    MostAtMost(t, 20, 21474836, 16777216);
    hide Most;
  }

  function GatewayMemory(t: nat): int {
    Most(t, 110) + Most(t, 490) + Most(t, 170) + Most(t, 140)
      + Most(t, 20) + Most(t, 20) + Most(t, 30) + Most(t, 20)
  }

  lemma GatewayMemoryKept(t: nat)
    requires t <= HIGHEST
    ensures GatewayMemory(t) <= t
  {
    MostAtMost(t, 110, 118111600, 67108864);
    MostAtMost(t, 490, 526133504, 268435456);
    MostAtMost(t, 170, 182536112, 134217728);
    MostAtMost(t, 140, 150323856, 134217728);
    MostAtMost(t, 20, 21474836, 16777216);
    MostAtMost(t, 30, 32212254, 16777216);
    hide Most;
  }

  /** The same bound in thousandths, counted from a total of which every fraction is whole. */
  lemma MostInThousandths(t: nat, j: nat, thousandths: nat, fraction: int, half: int, extra: int)
    requires t == BASE + 2 * j && SIGNIFICAND <= t <= HIGHEST && thousandths % 5 == 0
    requires IsBound(thousandths, fraction, half) && Covered(1000 * fraction - 0x4000_0000 * thousandths, half, extra)
    ensures 1000 * AboveBase(t, thousandths) <= Times(j, 2 * thousandths) + extra
  {
    hide Most, IsBound, Times, Covered;
    MostAtMost(t, thousandths, fraction, half);
    Interpolated(t, 1000 * fraction - 0x4000_0000 * thousandths, half, extra);
    TimesDifference(t, fraction, thousandths);
    TimesFromBase(j, thousandths / 5);
  }

  lemma Interpolated(t: nat, d: int, half: int, extra: int)
    requires SIGNIFICAND <= t <= HIGHEST && Covered(d, half, extra)
    ensures Times(t, d) + 1000 * half < 0x4000_0000 * (extra + 1)
  {
    if d >= 0 { IntMono(t, HIGHEST, d); } else { IntMono(SIGNIFICAND, t, 0 - d); }
  }

  lemma TimesDifference(t: nat, fraction: int, thousandths: nat)
    ensures Times(t, 1000 * fraction - 0x4000_0000 * thousandths)
         == 1000 * Times(t, fraction) - 0x4000_0000 * Times(t, thousandths)
  {}

  lemma TimesFromBase(j: nat, fifth: nat)
    ensures Times(BASE + 2 * j, 5 * fifth) == Times(j, 2 * (5 * fifth)) + 83886000 * fifth
  {}

  predicate Covered(d: int, half: int, extra: int) {
    d * SIGNIFICAND + 1000 * half < 0x4000_0000 * (extra + 1) && d * HIGHEST + 1000 * half < 0x4000_0000 * (extra + 1)
  }

  lemma RowInThousandths(t: nat, j: nat, thousandths: nat, fraction: int, half: int, extra: int)
    requires t == BASE + 2 * j && SIGNIFICAND <= t <= HIGHEST && thousandths % 5 == 0
    requires IsBound(thousandths, fraction, half) && Covered(1000 * fraction - 0x4000_0000 * thousandths, half, extra)
    ensures 1000 * AboveBase(t, thousandths) <= 2 * thousandths * j + extra
  {
    hide AboveBase;
    MostInThousandths(t, j, thousandths, fraction, half, extra);
  }

  const BASE: nat := 16777200

  function AboveBase(t: nat, thousandths: nat): int { Most(t, thousandths) - 83886 * (thousandths / 5) }

  lemma NoGatewayCpuLowShares(j: nat, a: int, b: int, c: int, d: int, e: int)
    requires 9 <= j <= 22
    requires 50 * a <= 27 * j + 21
    requires 25 * b <= 19 * j + 6
    requires 25 * c <= 8 * j + 3
    requires 5 * d <= j
    requires 100 * e <= 9 * j + 6
    ensures a + b + c + d + 2 * e < 2 * j
  {
    match j {
      case 9 => case 10 => case 11 => case 12 => case 13 => case 14 => case 15 => case 16 => case 17 =>
      case 18 => case 19 => case 20 => case 21 => case 22 => case _ =>
    }
  }

  lemma NoGatewayCpuMiddleShares(j: nat, a: int, b: int, c: int, d: int, e: int)
    requires 23 <= j <= 36
    requires 50 * a <= 27 * j + 21
    requires 25 * b <= 19 * j + 6
    requires 25 * c <= 8 * j + 3
    requires 5 * d <= j
    requires 100 * e <= 9 * j + 6
    ensures a + b + c + d + 2 * e < 2 * j
  {
    match j {
      case 23 => case 24 => case 25 => case 26 => case 27 => case 28 => case 29 => case 30 => case 31 =>
      case 32 => case 33 => case 34 => case 35 => case 36 => case _ =>
    }
  }

  lemma NoGatewayCpuHighShares(j: nat, a: int, b: int, c: int, d: int, e: int)
    requires 37 <= j <= 49
    requires 50 * a <= 27 * j + 21
    requires 25 * b <= 19 * j + 6
    requires 25 * c <= 8 * j + 3
    requires 5 * d <= j
    requires 100 * e <= 9 * j + 6
    ensures a + b + c + d + 2 * e < 2 * j
  {
    match j {
      case 37 => case 38 => case 39 => case 40 => case 41 => case 42 => case 43 => case 44 => case 45 =>
      case 46 => case 47 => case 48 => case 49 => case _ =>
    }
  }

  lemma NoGatewayCpuShares(j: nat, a: int, b: int, c: int, d: int, e: int)
    requires 9 <= j <= 49
    requires 50 * a <= 27 * j + 21
    requires 25 * b <= 19 * j + 6
    requires 25 * c <= 8 * j + 3
    requires 5 * d <= j
    requires 100 * e <= 9 * j + 6
    ensures a + b + c + d + 2 * e < 2 * j
  {
    if j <= 22 {
      NoGatewayCpuLowShares(j, a, b, c, d, e);
    } else if j <= 36 {
      NoGatewayCpuMiddleShares(j, a, b, c, d, e);
    } else {
      NoGatewayCpuHighShares(j, a, b, c, d, e);
    }
  }

  lemma NoGatewayCpuLoose(t: nat)
    requires SIGNIFICAND < t <= LAST_SAFE && t % 2 == 0
    ensures NoGatewayCpu(t) < t
  {
    hide Most, Times;
    var j := (t - BASE) / 2;
    RowInThousandths(t, j, 270, 289910304, 268435456, 430);
    RowInThousandths(t, j, 380, 408021888, 268435456, 250);
    RowInThousandths(t, j, 160, 171798688, 134217728, 125);
    RowInThousandths(t, j, 100, 107374184, 67108864, 87);
    RowInThousandths(t, j, 45, 48318384, 33554432, 61);
    NoGatewayCpuShares(j, AboveBase(t, 270), AboveBase(t, 380), AboveBase(t, 160), AboveBase(t, 100),
                       AboveBase(t, 45));
  }

  lemma NoGatewayMemoryShares(j: nat, a: int, b: int, c: int, d: int, e: int)
    requires 9 <= j <= 49
    requires 25 * a <= 6 * j + 1
    requires 1 * b <= j
    requires 25 * c <= 9 * j + 6
    requires 10 * d <= 3 * j + 2
    requires 20 * e <= j
    ensures a + b + c + d + 2 * e < 2 * j
  {
    match j {
      case 9 => case 10 => case 11 => case 12 => case 13 => case 14 => case 15 => case 16 => case 17 =>
      case 18 => case 19 => case 20 => case 21 => case 22 => case 23 => case 24 => case 25 => case 26 =>
      case 27 => case 28 => case 29 => case 30 => case 31 => case 32 => case 33 => case 34 => case 35 =>
      case 36 => case 37 => case 38 => case 39 => case 40 => case 41 => case 42 => case 43 => case 44 =>
      case 45 => case 46 => case 47 => case 48 => case 49 => case _ =>
    }
  }

  lemma NoGatewayMemoryLoose(t: nat)
    requires SIGNIFICAND < t <= LAST_SAFE && t % 2 == 0
    ensures NoGatewayMemory(t) < t
  {
    hide Most, Times;
    var j := (t - BASE) / 2;
    RowInThousandths(t, j, 120, 128849016, 67108864, 62);
    RowInThousandths(t, j, 500, 536870912, 0, 0);
    RowInThousandths(t, j, 180, 193273536, 134217728, 245);
    RowInThousandths(t, j, 150, 161061280, 134217728, 225);
    RowInThousandths(t, j, 25, 26843546, 16777216, 21);
    NoGatewayMemoryShares(j, AboveBase(t, 120), AboveBase(t, 500), AboveBase(t, 180), AboveBase(t, 150),
                          AboveBase(t, 25));
  }

  lemma ProxyCpuLowShares(j: nat, a: int, b: int, c: int, d: int, e: int, f: int, g: int)
    requires 9 <= j <= 22
    requires 50 * a <= 27 * j + 21
    requires 25 * b <= 19 * j + 6
    requires 25 * c <= 8 * j + 3
    requires 5 * d <= j
    requires 100 * e <= 9 * j + 6
    requires 50 * f <= j
    requires 100 * g <= 7 * j + 3
    ensures a + b + c + d + e + f + g < 2 * j
  {
    match j {
      case 9 => case 10 => case 11 => case 12 => case 13 => case 14 => case 15 => case 16 => case 17 =>
      case 18 => case 19 => case 20 => case 21 => case 22 => case _ =>
    }
  }

  lemma ProxyCpuMiddleShares(j: nat, a: int, b: int, c: int, d: int, e: int, f: int, g: int)
    requires 23 <= j <= 36
    requires 50 * a <= 27 * j + 21
    requires 25 * b <= 19 * j + 6
    requires 25 * c <= 8 * j + 3
    requires 5 * d <= j
    requires 100 * e <= 9 * j + 6
    requires 50 * f <= j
    requires 100 * g <= 7 * j + 3
    ensures a + b + c + d + e + f + g < 2 * j
  {
    match j {
      case 23 => case 24 => case 25 => case 26 => case 27 => case 28 => case 29 => case 30 => case 31 =>
      case 32 => case 33 => case 34 => case 35 => case 36 => case _ =>
    }
  }

  lemma ProxyCpuHighShares(j: nat, a: int, b: int, c: int, d: int, e: int, f: int, g: int)
    requires 37 <= j <= 49
    requires 50 * a <= 27 * j + 21
    requires 25 * b <= 19 * j + 6
    requires 25 * c <= 8 * j + 3
    requires 5 * d <= j
    requires 100 * e <= 9 * j + 6
    requires 50 * f <= j
    requires 100 * g <= 7 * j + 3
    ensures a + b + c + d + e + f + g < 2 * j
  {
    match j {
      case 37 => case 38 => case 39 => case 40 => case 41 => case 42 => case 43 => case 44 => case 45 =>
      case 46 => case 47 => case 48 => case 49 => case _ =>
    }
  }

  lemma ProxyCpuShares(j: nat, a: int, b: int, c: int, d: int, e: int, f: int, g: int)
    requires 9 <= j <= 49
    requires 50 * a <= 27 * j + 21
    requires 25 * b <= 19 * j + 6
    requires 25 * c <= 8 * j + 3
    requires 5 * d <= j
    requires 100 * e <= 9 * j + 6
    requires 50 * f <= j
    requires 100 * g <= 7 * j + 3
    ensures a + b + c + d + e + f + g < 2 * j
  {
    if j <= 22 {
      ProxyCpuLowShares(j, a, b, c, d, e, f, g);
    } else if j <= 36 {
      ProxyCpuMiddleShares(j, a, b, c, d, e, f, g);
    } else {
      ProxyCpuHighShares(j, a, b, c, d, e, f, g);
    }
  }

  lemma ProxyCpuLoose(t: nat)
    requires SIGNIFICAND < t <= LAST_SAFE && t % 2 == 0
    ensures ProxyCpu(t) < t
  {
    hide Most, Times;
    var j := (t - BASE) / 2;
    RowInThousandths(t, j, 270, 289910304, 268435456, 430);
    RowInThousandths(t, j, 380, 408021888, 268435456, 250);
    RowInThousandths(t, j, 160, 171798688, 134217728, 125);
    RowInThousandths(t, j, 100, 107374184, 67108864, 87);
    RowInThousandths(t, j, 45, 48318384, 33554432, 61);
    RowInThousandths(t, j, 10, 10737418, 8388608, 7);
    RowInThousandths(t, j, 35, 37580964, 33554432, 33);
    ProxyCpuShares(j, AboveBase(t, 270), AboveBase(t, 380), AboveBase(t, 160), AboveBase(t, 100), AboveBase(t, 45),
                   AboveBase(t, 10), AboveBase(t, 35));
  }

  lemma ProxyMemoryShares(j: nat, a: int, b: int, c: int, d: int, e: int, f: int, g: int)
    requires 9 <= j <= 49
    requires 25 * a <= 6 * j + 1
    requires 1 * b <= j
    requires 25 * c <= 9 * j + 6
    requires 10 * d <= 3 * j + 2
    requires 20 * e <= j
    requires 50 * f <= j
    requires 100 * g <= 3 * j
    ensures a + b + c + d + e + f + g < 2 * j
  {
    match j {
      case 9 => case 10 => case 11 => case 12 => case 13 => case 14 => case 15 => case 16 => case 17 =>
      case 18 => case 19 => case 20 => case 21 => case 22 => case 23 => case 24 => case 25 => case 26 =>
      case 27 => case 28 => case 29 => case 30 => case 31 => case 32 => case 33 => case 34 => case 35 =>
      case 36 => case 37 => case 38 => case 39 => case 40 => case 41 => case 42 => case 43 => case 44 =>
      case 45 => case 46 => case 47 => case 48 => case 49 => case _ =>
    }
  }

  lemma ProxyMemoryLoose(t: nat)
    requires SIGNIFICAND < t <= LAST_SAFE && t % 2 == 0
    ensures ProxyMemory(t) < t
  {
    hide Most, Times;
    var j := (t - BASE) / 2;
    RowInThousandths(t, j, 120, 128849016, 67108864, 62);
    RowInThousandths(t, j, 500, 536870912, 0, 0);
    RowInThousandths(t, j, 180, 193273536, 134217728, 245);
    RowInThousandths(t, j, 150, 161061280, 134217728, 225);
    RowInThousandths(t, j, 25, 26843546, 16777216, 21);
    RowInThousandths(t, j, 10, 10737418, 8388608, 7);
    RowInThousandths(t, j, 15, 16106127, 8388608, 7);
    ProxyMemoryShares(j, AboveBase(t, 120), AboveBase(t, 500), AboveBase(t, 180), AboveBase(t, 150), AboveBase(t, 25),
                      AboveBase(t, 10), AboveBase(t, 15));
  }

  lemma GatewayCpuLowShares(j: nat, a: int, b: int, c: int, d: int, e: int, f: int)
    requires 9 <= j <= 22
    requires 25 * a <= 13 * j + 6
    requires 25 * b <= 18 * j + 12
    requires 10 * c <= 3 * j + 2
    requires 50 * d <= 9 * j + 6
    requires 25 * e <= 2 * j
    requires 25 * f <= j
    ensures a + b + c + d + 3 * e + f < 2 * j
  {
    match j {
      case 9 => case 10 => case 11 => case 12 => case 13 => case 14 => case 15 => case 16 => case 17 =>
      case 18 => case 19 => case 20 => case 21 => case 22 => case _ =>
    }
  }

  lemma GatewayCpuMiddleShares(j: nat, a: int, b: int, c: int, d: int, e: int, f: int)
    requires 23 <= j <= 36
    requires 25 * a <= 13 * j + 6
    requires 25 * b <= 18 * j + 12
    requires 10 * c <= 3 * j + 2
    requires 50 * d <= 9 * j + 6
    requires 25 * e <= 2 * j
    requires 25 * f <= j
    ensures a + b + c + d + 3 * e + f < 2 * j
  {
    match j {
      case 23 => case 24 => case 25 => case 26 => case 27 => case 28 => case 29 => case 30 => case 31 =>
      case 32 => case 33 => case 34 => case 35 => case 36 => case _ =>
    }
  }

  lemma GatewayCpuHighShares(j: nat, a: int, b: int, c: int, d: int, e: int, f: int)
    requires 37 <= j <= 49
    requires 25 * a <= 13 * j + 6
    requires 25 * b <= 18 * j + 12
    requires 10 * c <= 3 * j + 2
    requires 50 * d <= 9 * j + 6
    requires 25 * e <= 2 * j
    requires 25 * f <= j
    ensures a + b + c + d + 3 * e + f < 2 * j
  {
    match j {
      case 37 => case 38 => case 39 => case 40 => case 41 => case 42 => case 43 => case 44 => case 45 =>
      case 46 => case 47 => case 48 => case 49 => case _ =>
    }
  }

  lemma GatewayCpuShares(j: nat, a: int, b: int, c: int, d: int, e: int, f: int)
    requires 9 <= j <= 49
    requires 25 * a <= 13 * j + 6
    requires 25 * b <= 18 * j + 12
    requires 10 * c <= 3 * j + 2
    requires 50 * d <= 9 * j + 6
    requires 25 * e <= 2 * j
    requires 25 * f <= j
    ensures a + b + c + d + 3 * e + f < 2 * j
  {
    if j <= 22 {
      GatewayCpuLowShares(j, a, b, c, d, e, f);
    } else if j <= 36 {
      GatewayCpuMiddleShares(j, a, b, c, d, e, f);
    } else {
      GatewayCpuHighShares(j, a, b, c, d, e, f);
    }
  }

  lemma GatewayCpuLoose(t: nat)
    requires SIGNIFICAND < t <= LAST_SAFE && t % 2 == 0
    ensures GatewayCpu(t) < t
  {
    hide Most, Times;
    var j := (t - BASE) / 2;
    RowInThousandths(t, j, 260, 279172864, 268435456, 250);
    RowInThousandths(t, j, 360, 386547072, 268435456, 490);
    RowInThousandths(t, j, 150, 161061280, 134217728, 225);
    RowInThousandths(t, j, 90, 96636768, 67108864, 122);
    RowInThousandths(t, j, 40, 42949672, 33554432, 31);
    RowInThousandths(t, j, 20, 21474836, 16777216, 15);
    GatewayCpuShares(j, AboveBase(t, 260), AboveBase(t, 360), AboveBase(t, 150), AboveBase(t, 90), AboveBase(t, 40),
                     AboveBase(t, 20));
  }

  lemma GatewayMemoryLowShares(j: nat, a: int, b: int, c: int, d: int, e: int, f: int)
    requires 9 <= j <= 22
    requires 50 * a <= 11 * j + 3
    requires 50 * b <= 49 * j + 20
    requires 50 * c <= 17 * j + 7
    requires 25 * d <= 7 * j + 3
    requires 25 * e <= j
    requires 50 * f <= 3 * j
    ensures a + b + c + d + 3 * e + f < 2 * j
  {
    match j {
      case 9 => case 10 => case 11 => case 12 => case 13 => case 14 => case 15 => case 16 => case 17 =>
      case 18 => case 19 => case 20 => case 21 => case 22 => case _ =>
    }
  }

  lemma GatewayMemoryMiddleShares(j: nat, a: int, b: int, c: int, d: int, e: int, f: int)
    requires 23 <= j <= 36
    requires 50 * a <= 11 * j + 3
    requires 50 * b <= 49 * j + 20
    requires 50 * c <= 17 * j + 7
    requires 25 * d <= 7 * j + 3
    requires 25 * e <= j
    requires 50 * f <= 3 * j
    ensures a + b + c + d + 3 * e + f < 2 * j
  {
    match j {
      case 23 => case 24 => case 25 => case 26 => case 27 => case 28 => case 29 => case 30 => case 31 =>
      case 32 => case 33 => case 34 => case 35 => case 36 => case _ =>
    }
  }

  lemma GatewayMemoryHighShares(j: nat, a: int, b: int, c: int, d: int, e: int, f: int)
    requires 37 <= j <= 49
    requires 50 * a <= 11 * j + 3
    requires 50 * b <= 49 * j + 20
    requires 50 * c <= 17 * j + 7
    requires 25 * d <= 7 * j + 3
    requires 25 * e <= j
    requires 50 * f <= 3 * j
    ensures a + b + c + d + 3 * e + f < 2 * j
  {
    match j {
      case 37 => case 38 => case 39 => case 40 => case 41 => case 42 => case 43 => case 44 => case 45 =>
      case 46 => case 47 => case 48 => case 49 => case _ =>
    }
  }

  lemma GatewayMemoryShares(j: nat, a: int, b: int, c: int, d: int, e: int, f: int)
    requires 9 <= j <= 49
    requires 50 * a <= 11 * j + 3
    requires 50 * b <= 49 * j + 20
    requires 50 * c <= 17 * j + 7
    requires 25 * d <= 7 * j + 3
    requires 25 * e <= j
    requires 50 * f <= 3 * j
    ensures a + b + c + d + 3 * e + f < 2 * j
  {
    if j <= 22 {
      GatewayMemoryLowShares(j, a, b, c, d, e, f);
    } else if j <= 36 {
      GatewayMemoryMiddleShares(j, a, b, c, d, e, f);
    } else {
      GatewayMemoryHighShares(j, a, b, c, d, e, f);
    }
  }

  lemma GatewayMemoryLoose(t: nat)
    requires SIGNIFICAND < t <= LAST_SAFE && t % 2 == 0
    ensures GatewayMemory(t) < t
  {
    hide Most, Times;
    var j := (t - BASE) / 2;
    RowInThousandths(t, j, 110, 118111600, 67108864, 62);
    RowInThousandths(t, j, 490, 526133504, 268435456, 410);
    RowInThousandths(t, j, 170, 182536112, 134217728, 155);
    RowInThousandths(t, j, 140, 150323856, 134217728, 135);
    RowInThousandths(t, j, 20, 21474836, 16777216, 15);
    RowInThousandths(t, j, 30, 32212254, 16777216, 15);
    GatewayMemoryShares(j, AboveBase(t, 110), AboveBase(t, 490), AboveBase(t, 170), AboveBase(t, 140),
                        AboveBase(t, 20), AboveBase(t, 30));
  }

  // ---------- every table ----------

  lemma NoGatewayCpuTable(t: nat)
    ensures AllUsual(CpuOf(NO_GATEWAY)) && MostTotal(t, CpuOf(NO_GATEWAY)) == NoGatewayCpu(t)
  {
    hide Most, MostTotal;
    MostOfTable(t, CpuOf(NO_GATEWAY));
  }

  lemma NoGatewayMemoryTable(t: nat)
    ensures AllUsual(MemoryOf(NO_GATEWAY)) && MostTotal(t, MemoryOf(NO_GATEWAY)) == NoGatewayMemory(t)
  {
    hide Most, MostTotal;
    MostOfTable(t, MemoryOf(NO_GATEWAY));
  }

  lemma ProxyCpuTable(t: nat)
    ensures AllUsual(CpuOf(NO_GATEWAY_WITH_PROXY)) && MostTotal(t, CpuOf(NO_GATEWAY_WITH_PROXY)) == ProxyCpu(t)
  {
    hide Most, MostTotal;
    MostOfTable(t, CpuOf(NO_GATEWAY_WITH_PROXY));
  }

  lemma ProxyMemoryTable(t: nat)
    ensures AllUsual(MemoryOf(NO_GATEWAY_WITH_PROXY)) && MostTotal(t, MemoryOf(NO_GATEWAY_WITH_PROXY)) == ProxyMemory(t)
  {
    hide Most, MostTotal;
    MostOfTable(t, MemoryOf(NO_GATEWAY_WITH_PROXY));
  }

  lemma GatewayCpuTable(t: nat)
    ensures AllUsual(CpuOf(WITH_GATEWAY)) && MostTotal(t, CpuOf(WITH_GATEWAY)) == GatewayCpu(t)
  {
    hide Most, MostTotal;
    MostOfTable(t, CpuOf(WITH_GATEWAY));
  }

  lemma GatewayMemoryTable(t: nat)
    ensures AllUsual(MemoryOf(WITH_GATEWAY)) && MostTotal(t, MemoryOf(WITH_GATEWAY)) == GatewayMemory(t)
  {
    hide Most, MostTotal;
    MostOfTable(t, MemoryOf(WITH_GATEWAY));
  }

  /** No table takes more than a rounded total, and each takes less than an even one just above 24 bits. */
  lemma TablesKeep(s: Settings, t: nat)
    requires t <= HIGHEST
    ensures AllUsual(CpuOf(Table(s))) && AllUsual(MemoryOf(Table(s)))
    ensures MostTotal(t, CpuOf(Table(s))) <= t && MostTotal(t, MemoryOf(Table(s))) <= t
    ensures SIGNIFICAND < t <= LAST_SAFE && t % 2 == 0 ==>
              MostTotal(t, CpuOf(Table(s))) < t && MostTotal(t, MemoryOf(Table(s))) < t
  {
    hide MostTotal, CpuOf, MemoryOf, AllUsual;
    hide NoGatewayCpu, NoGatewayMemory, ProxyCpu, ProxyMemory, GatewayCpu, GatewayMemory;
    if s.authentication {
      ProxyCpuTable(t); ProxyMemoryTable(t);
      ProxyCpuKept(t); ProxyMemoryKept(t);
    } else if s.gateway {
      GatewayCpuTable(t); GatewayMemoryTable(t);
      GatewayCpuKept(t); GatewayMemoryKept(t);
    } else {
      NoGatewayCpuTable(t); NoGatewayMemoryTable(t);
      NoGatewayCpuKept(t); NoGatewayMemoryKept(t);
    }
    if SIGNIFICAND < t <= LAST_SAFE && t % 2 == 0 {
      if s.authentication {
        ProxyCpuLoose(t); ProxyMemoryLoose(t);
      } else if s.gateway {
        GatewayCpuLoose(t); GatewayMemoryLoose(t);
      } else {
        NoGatewayCpuLoose(t); NoGatewayMemoryLoose(t);
      }
    }
  }

  // ---------- rounding the total ----------

  /** A total that is not representable becomes one of its even neighbours. */
  lemma TotalRounds(rnd: Rounding, total: nat) returns (t: nat)
    requires RoundsToNearest(rnd) && total <= LAST_SAFE + 1
    ensures rnd(total as real) == t as real && Rounded(t) && (total == 0 <==> t == 0)
    ensures if total <= SIGNIFICAND || total % 2 == 0 then t == total else t == total - 1 || t == total + 1
  {
    hide RoundsToNearest;
    if total <= SIGNIFICAND || total % 2 == 0 {
      ExactTotal(rnd, total);
      t := total;
    } else {
      t := OddTotalRounds(rnd, total);
    }
  }

  lemma OddTotalRounds(rnd: Rounding, total: nat) returns (t: nat)
    requires RoundsToNearest(rnd) && SIGNIFICAND < total <= LAST_SAFE + 1 && total % 2 == 1
    ensures rnd(total as real) == t as real && (t == total - 1 || t == total + 1)
  {
    IsNearest(rnd, total as real);
    hide RoundsToNearest, Nearest;
    t := OddRounds(total, rnd(total as real));
  }

  lemma ExactTotal(rnd: Rounding, total: nat)
    requires RoundsToNearest(rnd) && Rounded(total)
    ensures rnd(total as real) == total as real
  {
    IsNearest(rnd, total as real);
    hide RoundsToNearest, Nearest, Representable;
    if total <= SIGNIFICAND { SmallIsRepresentable(total); } else { EvenIsRepresentable(total); }
    RepresentableStays(total as real, rnd(total as real));
  }

  lemma SmallIsRepresentable(n: nat)
    requires n <= SIGNIFICAND
    ensures Representable(n as real)
  {
    WholeNumber(n);
  }

  lemma EvenNumber(n: nat)
    requires n % 2 == 0
    ensures Number(n / 2, 1) == n as real
  {
    assert PowerOfTwo(1) == 2;
    assert n == n / 2 * 2;
  }

  lemma EvenIsRepresentable(n: nat)
    requires n <= 2 * SIGNIFICAND && n % 2 == 0
    ensures Representable(n as real)
  {
    EvenNumber(n);
  }

  lemma OddRounds(total: nat, y: real) returns (t: nat)
    requires Nearest(total as real, y) && SIGNIFICAND < total <= HIGHEST && total % 2 == 1
    ensures y == t as real && (t == total - 1 || t == total + 1)
  {
    hide Number, Representable, Nearest, Distance;
    EvenIsRepresentable(total - 1);
    EvenIsRepresentable(total + 1);
    RepresentableResult(total as real, y);
    NotBelow(total as real, y, (total - 1) as real);
    NotAbove(total as real, y, (total + 1) as real);
    var k := EvenWhole(y);
    EvenBetween(total, k);
    t := 2 * k;
  }

  lemma EvenBetween(total: nat, k: int)
    requires total % 2 == 1 && (total - 1) as real <= (2 * k) as real <= (total + 1) as real
    ensures 2 * k == total - 1 || 2 * k == total + 1
  {}

  lemma EvenWhole(y: real) returns (k: int)
    requires Representable(y) && y >= 16777216.0
    ensures y == (2 * k) as real
  {
    NumberOfTwos(LEAST);
    k := LEAST;
    hide Number, Representable;
    if y != 16777216.0 {
      k := OnGrid(y, 1);
      NumberOfTwos(k);
    }
  }

  lemma NotAbove(v: real, y: real, z: real)
    requires Nearest(v, y) && Representable(z) && z >= v
    ensures y <= z
  {}

  lemma RepresentableResult(v: real, y: real)
    requires Nearest(v, y)
    ensures Representable(y)
  {}

  lemma NumberOfTwos(k: int)
    ensures Number(k, 1) == (2 * k) as real
  {
    assert PowerOfTwo(1) == 2;
  }

  // ---------- main results ----------

  lemma TakesWithin(s: Settings, rnd: Rounding, total: nat, fractions: seq<nat>, replicas: seq<nat>)
    requires RoundsToNearest(rnd) && total <= LAST_SAFE
    requires fractions == CpuOf(Table(s)) || fractions == MemoryOf(Table(s))
    requires |fractions| == |replicas| && GoodCounts(replicas)
    ensures TotalLimit(rnd, total, fractions, replicas) <= total
  {
    var t := TotalRounds(rnd, total);
    hide RoundsToNearest, TotalLimit, MostTotal, CpuOf, MemoryOf, Table, GoodCounts, AllUsual;
    TablesKeep(s, t);
    TableTakes(rnd, total, t, fractions, replicas);
  }

  /** For every table, replica count and rounding to nearest, a total of at most 16777298 is never exceeded: of CPU up
      to 16777 cores, of memory up to 16 MiB. */
  lemma SafeTotal(s: Settings, rnd: Rounding, sized: Profiles, counts: Counts)
    requires RoundsToNearest(rnd) && s.size == "" && forall name :: Effective(counts(name)) <= MAX_INT32
    ensures var out := HandedOut(s, rnd, sized, counts, Table(s));
            && (s.totalCpu.Some? && s.totalCpu.value <= LAST_SAFE ==> out.0 <= s.totalCpu.value)
            && (s.totalMemory.Some? && s.totalMemory.value <= LAST_SAFE ==> out.1 <= s.totalMemory.value)
  {
    HandedOutIsTotal(s, rnd, sized, counts, 0);
    CountsAreGood(counts, Table(s));
    assert Table(s)[0..] == Table(s);
    hide Table, RoundsToNearest, TotalLimit, Effective, HandedOut, CpuOf, MemoryOf, CountsOf, GoodCounts;
    if s.totalCpu.Some? && s.totalCpu.value <= LAST_SAFE {
      TakesWithin(s, rnd, s.totalCpu.value, CpuOf(Table(s)), CountsOf(counts, Table(s)));
    }
    if s.totalMemory.Some? && s.totalMemory.value <= LAST_SAFE {
      TakesWithin(s, rnd, s.totalMemory.value, MemoryOf(Table(s)), CountsOf(counts, Table(s)));
    }
  }

  // ---------- and no further ----------

  /** The significand, written with all its 24 bits, is even. */
  ghost predicate Even(y: real) {
    exists m, e :: LEAST <= m < SIGNIFICAND && -149 <= e <= 104 && m % 2 == 0 && y == Number(m, e)
  }

  /** The default rounding of the standard, section 4.3.1: of two nearest numbers the even one. */
  ghost predicate TiesToEven(rnd: Rounding) {
    RoundsToNearest(rnd) && forall x, z :: InRange(x) && Nearest(x, z) && z != rnd(x) ==> Even(rnd(x))
  }

  const FIRST_UNSAFE: nat := LAST_SAFE + 1

  lemma OddSignificand(y: real)
    requires y == (LAST_SAFE as real)
    ensures !Even(y)
  {
    if Even(y) {
      var m, e :| LEAST <= m < SIGNIFICAND && -149 <= e <= 104 && m % 2 == 0 && y == Number(m, e);
      NumberOfTwos(LEAST);
      NumberOfTwos(SIGNIFICAND);
      NumberOfTwos(m);
      if e < 1 {
        TooSmall(m, e, 1);
      } else if e > 1 {
        TooSmall(SIGNIFICAND, 1, e);
        NumbersOrdered(LEAST, m, e);
      }
      hide Number;
      assert false;
    }
  }

  /** The first unsafe total lies between two representable ones and is rounded up. */
  lemma RoundsUp(rnd: Rounding)
    requires TiesToEven(rnd)
    ensures rnd(FIRST_UNSAFE as real) == (FIRST_UNSAFE + 1) as real
  {
    var x, up := FIRST_UNSAFE as real, (FIRST_UNSAFE + 1) as real;
    var t := TotalRounds(rnd, FIRST_UNSAFE);
    if t != FIRST_UNSAFE + 1 {
      EvenIsRepresentable(FIRST_UNSAFE + 1);
      IsNearest(rnd, x);
      assert Nearest(x, up);
      OddSignificand(rnd(x));
      assert false;
    }
  }

  /** A whole number in units of a fraction. */
  lemma WholeInUnits(thousandths: nat, n: int)
    ensures Number(n * PowerOfTwo(Bits(thousandths) - 24), 24 - Bits(thousandths)) == n as real
    ensures Scale(thousandths) == 16777216 * PowerOfTwo(Bits(thousandths) - 24)
  {
    Shift(n, 24 - Bits(thousandths), Bits(thousandths) - 24);
    WholeNumber(n);
    ScaleIsPower(thousandths);
    Power36();
    PowerAdds(24, Bits(thousandths) - 24);
  }

  lemma Residue(m: int, h: nat, scale: nat, rest: nat)
    requires LEAST < m <= SIGNIFICAND - 100 && -500 < 10 * h * scale - 1000 * m < 500 && scale == 16777216 * rest
    ensures var c, n := m * 16777300, 167773 * h;
            -8388608 < c - n * scale < 8388608 && LEAST < n * rest <= SIGNIFICAND
  {
    var q := h * scale - 100 * m;
    assert 10 * h * scale == 10 * (h * scale);
    assert -50 < q < 50;
    var n := 167773 * h;
    assert n * scale == 167773 * (h * scale);
    assert n * scale == 16777216 * (n * rest);
  }

  lemma CloseWhole(c: int, n: int, scale: nat)
    requires scale > 0 && -8388608 < c - n * scale < 8388608
    ensures Distance(c as real / scale as real, n as real) < 16777216.0 / scale as real / 2.0
  {
    var d, q := scale as real, c as real / scale as real;
    assert q * d == c as real;
    IntProduct(n, scale);
    var r := q - n as real;
    assert r * d == c as real - n as real * d;
    var half := 8388608.0 / d;
    assert half * d == 8388608.0;
    if r >= half { Mono(half, r, d); }
    if r <= -half { Mono(r, -half, d); }
    assert 16777216.0 / d / 2.0 == half;
  }

  /** A multiple of a hundredth of the first unsafe total, after its rounding, is a whole number and comes out
      exactly. */
  lemma HundredthsAreExact(rnd: Rounding, hundredths: nat)
    requires RoundsToNearest(rnd) && rnd(FIRST_UNSAFE as real) == (FIRST_UNSAFE + 1) as real && Below(10 * hundredths)
    ensures Limit(rnd, FIRST_UNSAFE, 10 * hundredths, 1) == 167773 * hundredths
  {
    var f, n := 10 * hundredths, 167773 * hundredths;
    HundredthsPart(rnd, f, n, hundredths);
    hide Part, RoundsToNearest;
    assert Part(rnd, FIRST_UNSAFE as real, Fraction(f)) == n as real;
  }

  lemma HundredthsPart(rnd: Rounding, f: nat, n: nat, hundredths: nat)
    requires RoundsToNearest(rnd) && rnd(FIRST_UNSAFE as real) == (FIRST_UNSAFE + 1) as real
    requires Below(f) && f == 10 * hundredths && n == 167773 * hundredths
    ensures Part(rnd, FIRST_UNSAFE as real, Fraction(f)) == n as real
  {
    hide RoundsToNearest, Significand, Scale, Part, Product, Nearest, InRange, Number, Pow2, PowerOfTwo;
    var c, scale, rest := Significand(f) * 16777300, Scale(f), PowerOfTwo(Bits(f) - 24);
    ProductOf(rnd, 16777300, f);
    InUnits(f, c);
    WholeInUnits(f, n);
    SignificandBounds(f);
    ProductBounds(Significand(f), 16777300);
    ScaleBounds(f);
    QuotientInRange(c, scale);
    PartOf(rnd, FIRST_UNSAFE, 16777300, Fraction(f));
    Residue(Significand(f), hundredths, scale, rest);
    CloseWhole(c, n, scale);
    IsNearest(rnd, c as real / scale as real);
    RoundsTo(c as real / scale as real, rnd(c as real / scale as real), n * rest, 24 - Bits(f));
  }

  predicate InHundredths(fractions: seq<nat>) {
    forall i :: 0 <= i < |fractions| ==> fractions[i] % 10 == 0 && Below(fractions[i])
  }

  lemma {:induction false} HundredthsTotal(rnd: Rounding, fractions: seq<nat>, replicas: seq<nat>)
    requires RoundsToNearest(rnd) && rnd(FIRST_UNSAFE as real) == (FIRST_UNSAFE + 1) as real && InHundredths(fractions)
    requires |replicas| == |fractions| && forall i :: 0 <= i < |replicas| ==> replicas[i] == 1
    ensures 10 * TotalLimit(rnd, FIRST_UNSAFE, fractions, replicas) == 167773 * Sum(fractions)
  {
    hide RoundsToNearest, Limit, Below;
    if fractions != [] {
      HundredthsTotal(rnd, fractions[1..], replicas[1..]);
      HundredthsAreExact(rnd, fractions[0] / 10);
    }
  }

  lemma GatewayHundredths()
    ensures InHundredths(CpuOf(WITH_GATEWAY)) && InHundredths(MemoryOf(WITH_GATEWAY))
  {}

  /** With a gateway and single replicas, the rounding of the standard hands out one unit more than the first unsafe
      total, of CPU and of memory. */
  lemma FirstExcess(rnd: Rounding, sized: Profiles)
    requires TiesToEven(rnd)
    ensures var s := Settings("", true, false, Some(FIRST_UNSAFE), Some(FIRST_UNSAFE));
            HandedOut(s, rnd, sized, _ => None, Table(s)) == (FIRST_UNSAFE + 1, FIRST_UNSAFE + 1)
  {
    var s := Settings("", true, false, Some(FIRST_UNSAFE), Some(FIRST_UNSAFE));
    RoundsUp(rnd);
    SingleCounts(s);
    TablesSumToOne(s);
    GatewayHundredths();
    hide TiesToEven, HandedOut, TotalLimit, CpuOf, MemoryOf, CountsOf, InHundredths, RoundsToNearest, Sum;
    NearestOf(rnd);
    HandedOutIsTotal(s, rnd, sized, _ => None, 0);
    HundredthsTotal(rnd, CpuOf(Table(s)), CountsOf(_ => None, Table(s)));
    HundredthsTotal(rnd, MemoryOf(Table(s)), CountsOf(_ => None, Table(s)));
  }

  lemma NearestOf(rnd: Rounding)
    requires TiesToEven(rnd)
    ensures RoundsToNearest(rnd)
  {}

  lemma SingleCounts(s: Settings)
    ensures var ns := CountsOf(_ => None, Table(s));
            && |ns| == |CpuOf(Table(s))| == |MemoryOf(Table(s))| && forall i :: 0 <= i < |ns| ==> ns[i] == 1
    ensures Table(s)[0..] == Table(s)
  {
    var ns := CountsOf(_ => None, Table(s));
    assert forall i :: 0 <= i < |ns| ==> ns[i] == Effective(None);
  }

  /** No settings, replica counts and total of CPU up to this one lead to an excess. */
  ghost predicate KeepsCpu(rnd: Rounding, bound: nat) {
    forall s: Settings, sized: Profiles, counts: Counts ::
      s.size == "" && s.totalCpu.Some? && s.totalCpu.value <= bound && SmallCounts(counts) ==>
        HandedOut(s, rnd, sized, counts, Table(s)).0 <= s.totalCpu.value
  }

  ghost predicate KeepsMemory(rnd: Rounding, bound: nat) {
    forall s: Settings, sized: Profiles, counts: Counts ::
      s.size == "" && s.totalMemory.Some? && s.totalMemory.value <= bound && SmallCounts(counts) ==>
        HandedOut(s, rnd, sized, counts, Table(s)).1 <= s.totalMemory.value
  }

  ghost predicate SmallCounts(counts: Counts) { forall name :: Effective(counts(name)) <= MAX_INT32 }

  /** The bound up to which totals are safe, exactly, for the rounding of the standard. */
  lemma SafeExactly(rnd: Rounding, bound: nat)
    requires TiesToEven(rnd)
    ensures KeepsCpu(rnd, bound) <==> bound <= LAST_SAFE
    ensures KeepsMemory(rnd, bound) <==> bound <= LAST_SAFE
  {
    if bound <= LAST_SAFE {
      NearestOf(rnd);
      KeepsBelow(rnd, bound);
    } else {
      hide TiesToEven, HandedOut, Table;
      var none: Profiles := (_, _) => Requirements(None, None);
      var s := Settings("", true, false, Some(FIRST_UNSAFE), Some(FIRST_UNSAFE));
      FirstExcess(rnd, none);
      assert SmallCounts(_ => None);
    }
  }

  lemma KeepsBelow(rnd: Rounding, bound: nat)
    requires RoundsToNearest(rnd) && bound <= LAST_SAFE
    ensures KeepsCpu(rnd, bound) && KeepsMemory(rnd, bound)
  {
    hide RoundsToNearest, HandedOut, Table;
    forall s: Settings, sized: Profiles, counts: Counts | s.size == "" && SmallCounts(counts)
      ensures s.totalCpu.Some? && s.totalCpu.value <= bound ==>
                HandedOut(s, rnd, sized, counts, Table(s)).0 <= s.totalCpu.value
      ensures s.totalMemory.Some? && s.totalMemory.value <= bound ==>
                HandedOut(s, rnd, sized, counts, Table(s)).1 <= s.totalMemory.value
    {
      SafeTotal(s, rnd, sized, counts);
    }
  }

  // ---------- the rounding of the standard exists ----------

  /** Of the two neighbours the one to round to. */
  lemma EvenExists(x: real) returns (y: real)
    requires InRange(x)
    ensures Nearest(x, y) && forall z :: Nearest(x, z) && z != y ==> Even(y)
  {
    if x == 0.0 {
      WholeNumber(0);
      y := 0.0;
      assert Representable(0.0);
      return;
    }
    var e := Exponent(x);
    NextPower(e);
    var m := Between(x, e);
    y := EvenNeighbour(x, m, e);
  }

  lemma EvenNeighbour(x: real, m: int, e: int) returns (y: real)
    requires LEAST <= m < SIGNIFICAND && -149 <= e <= 60 && Number(m, e) <= x < Number(m + 1, e)
    ensures Nearest(x, y) && forall z :: Nearest(x, z) && z != y ==> Even(y)
  {
    hide Nearest, Even, Number, Representable;
    var low, high := Number(m, e), Number(m + 1, e);
    y := Closer(x, m, e);
    NeighboursOnly(x, m, e);
    if m % 2 == 0 {
      EvenNumberIsEven(m, e);
      if Nearest(x, low) { y := low; }
    } else {
      EvenNumberIsEven(m + 1, e);
      if Nearest(x, high) { y := high; }
    }
  }

  lemma EvenNumberIsEven(m: int, e: int)
    requires LEAST <= m <= SIGNIFICAND && m % 2 == 0 && -149 <= e <= 103
    ensures Even(Number(m, e))
  {
    if m == SIGNIFICAND {
      Shift(LEAST, e, 1);
      assert PowerOfTwo(1) == 2;
      assert Number(LEAST, e + 1) == Number(m, e);
    }
  }

  lemma NeighboursOnly(x: real, m: int, e: int)
    requires LEAST <= m < SIGNIFICAND && -149 <= e <= 104 && Number(m, e) <= x < Number(m + 1, e)
    ensures forall z :: Nearest(x, z) ==> z == Number(m, e) || z == Number(m + 1, e)
  {
    var low, high := Number(m, e), Number(m + 1, e);
    assert Representable(low) && Representable(high);
    forall z | Nearest(x, z) ensures z == low || z == high {
      NoneBetween(z, m, e);
    }
  }

  ghost function ToEven(x: real): real {
    if y :| Nearest(x, y) && forall z :: Nearest(x, z) && z != y ==> Even(y) then y else 0.0
  }

  lemma ToEvenRounds()
    ensures TiesToEven(ToEven)
  {
    forall x | InRange(x)
      ensures Nearest(x, ToEven(x)) && forall z :: Nearest(x, z) && z != ToEven(x) ==> Even(ToEven(x))
    {
      var _ := EvenExists(x);
    }
  }
}
