/** Rounding to the nearest single-precision number (binary32 of IEEE 754-2019, section 4.3.1), as far as the resource
    split depends on it. */
module SinglePrecision {
  import opened Wrappers
  import opened ResourceSplit

  function PowerOfTwo(n: nat): nat { if n == 0 then 1 else 2 * PowerOfTwo(n - 1) }

  function Pow2(e: int): real {
    if e >= 0 then PowerOfTwo(e) as real else 1.0 / Inverse(e)
  }

  function Inverse(e: int): (r: real)
    ensures r > 0.0
  {
    if e >= 0 then 1.0 else (PowerPositive(-e); PowerOfTwo(-e) as real)
  }

  lemma {:induction false} PowerPositive(n: nat)
    ensures PowerOfTwo(n) > 0
  {
    if n > 0 { PowerPositive(n - 1); }
  }

  lemma NextPower(e: int)
    ensures 0.0 < Pow2(e) && Pow2(e + 1) == 2.0 * Pow2(e)
  {
    if e >= 0 { PowerPositive(e); } else { PowerPositive(-e); }
  }

  const SIGNIFICAND := 0x100_0000

  function Number(m: int, e: int): real { m as real * Pow2(e) }

  /** A significand of 24 bits times a power of two. */
  ghost predicate Representable(y: real) {
    exists m, e :: -SIGNIFICAND <= m <= SIGNIFICAND && -149 <= e <= 104 && y == Number(m, e)
  }

  function Distance(x: real, y: real): real { if x <= y then y - x else x - y }

  /** No representable number is closer to x than y is; how ties are broken does not matter. */
  ghost predicate Nearest(x: real, y: real) {
    Representable(y) && forall z :: Representable(z) ==> Distance(x, y) <= Distance(x, z)
  }

  ghost predicate RoundsToNearest(rnd: Rounding) {
    forall x :: InRange(x) ==> Nearest(x, rnd(x))
  }

  lemma LargePowers()
    ensures PowerOfTwo(60) == 1152921504606846976 && PowerOfTwo(73) == 9444732965739290427392
  {
    SmallPowers();
    hide PowerOfTwo;
    PowerAdds(5, 5);
    PowerAdds(10, 10);
    PowerAdds(20, 20);
    PowerAdds(40, 20);
    PowerAdds(10, 3);
    PowerAdds(60, 13);
  }

  lemma SmallPowers()
    ensures PowerOfTwo(3) == 8 && PowerOfTwo(4) == 16 && PowerOfTwo(5) == 32
  {}

  lemma RangeOfPowers()
    ensures 8388608.0 * Pow2(-73) <= SMALL && LARGE < 16777216.0 * Pow2(60)
  {
    LargePowers();
    hide PowerOfTwo;
  }

  lemma {:induction false} PowerAdds(a: nat, b: nat)
    ensures PowerOfTwo(a + b) == PowerOfTwo(a) * PowerOfTwo(b)
  {
    if a > 0 {
      PowerAdds(a - 1, b);
      assert PowerOfTwo(a + b) == 2 * PowerOfTwo(a - 1 + b);
    }
  }

  /** The power of two that puts 24 bits before the point. */
  lemma Exponent(x: real) returns (e: int)
    requires SMALL <= x <= LARGE
    ensures -73 <= e <= 60 && 8388608.0 * Pow2(e) <= x < 16777216.0 * Pow2(e)
  {
    RangeOfPowers();
    e := -73;
    while x >= 16777216.0 * Pow2(e)
      invariant -73 <= e <= 60 && 8388608.0 * Pow2(e) <= x
      decreases 60 - e
    {
      assert e != 60;
      NextPower(e);
      e := e + 1;
    }
  }

  lemma Scaled(x: real, g: real) returns (m: int)
    requires g > 0.0 && 8388608.0 * g <= x < 16777216.0 * g
    ensures 8388608 <= m < 16777216 && m as real * g <= x < m as real * g + g
  {
    var q := x / g;
    assert q * g == x;
    m := q.Floor;
    if q < 8388608.0 { Mono(q, 8388608.0, g); StrictMono(q, 8388608.0, g); }
    if q >= 16777216.0 { Mono(16777216.0, q, g); }
    Mono(m as real, q, g);
    Upper(x, q, m as real, g);
  }

  lemma Upper(x: real, q: real, m: real, g: real)
    requires g > 0.0 && q * g == x && q < m + 1.0
    ensures x < m * g + g
  {
    var n := m + 1.0;
    StrictMono(q, n, g);
    assert n * g == m * g + g;
  }

  lemma StrictMono(a: real, b: real, c: real)
    requires a < b && c > 0.0
    ensures a * c < b * c
  {}

  const EPSILON := 1.0 / 16777216.0

  /** The result is off by at most half a unit in the last place. */
  lemma RelativeError(x: real, y: real)
    requires SMALL <= x <= LARGE && Nearest(x, y)
    ensures Shrink(EPSILON, x) <= y <= Grow(EPSILON, x)
  {
    var e := Exponent(x);
    NextPower(e);
    hide Pow2;
    var m := Between(x, e);
    assert Representable(Number(m, e)) && Representable(Number(m + 1, e));
    hide Representable, Number;
    Halfway(x, y, Number(m, e), Number(m + 1, e), Pow2(e));
    HalfUnit(x, y, Pow2(e));
  }

  /** Two neighbouring numbers enclose x. */
  lemma Between(x: real, e: int) returns (m: int)
    requires Pow2(e) > 0.0 && 8388608.0 * Pow2(e) <= x < 16777216.0 * Pow2(e)
    ensures 8388608 <= m < 16777216 && Number(m, e) <= x < Number(m + 1, e) == Number(m, e) + Pow2(e)
  {
    m := Scaled(x, Pow2(e));
    NextNumber(m, e);
    hide Pow2;
  }

  lemma NextNumber(m: int, e: int)
    ensures Number(m + 1, e) == Number(m, e) + Pow2(e)
  {
    assert (m + 1) as real == m as real + 1.0;
  }

  lemma Halfway(x: real, y: real, low: real, high: real, g: real)
    requires low <= x < high && high == low + g
    requires Distance(x, y) <= Distance(x, low) && Distance(x, y) <= Distance(x, high)
    ensures Distance(x, y) <= g / 2.0
  {}

  lemma HalfUnit(x: real, y: real, g: real)
    requires 8388608.0 * g <= x && Distance(x, y) <= g / 2.0
    ensures Shrink(EPSILON, x) <= y <= Grow(EPSILON, x)
  {}

  /** Rounding to nearest has the relative error of half a unit in the last place throughout the range. */
  lemma NearestIsAccurate(rnd: Rounding)
    requires RoundsToNearest(rnd)
    ensures Accurate(rnd, EPSILON)
  {
    forall x | InRange(x) ensures Shrink(EPSILON, x) <= rnd(x) <= Grow(EPSILON, x) {
      if x == 0.0 {
        assert Number(0, 0) == 0.0;
        assert Representable(0.0);
      } else {
        RelativeError(x, rnd(x));
      }
    }
  }

  /** In single precision the code may exceed the total, but by no more than a relative error of five roundings. */
  lemma SinglePrecisionConservation(s: Settings, rnd: Rounding, sized: Profiles, counts: Counts)
    requires RoundsToNearest(rnd) && s.size == "" && forall name :: Effective(counts(name)) <= MAX_INT32
    ensures var out := HandedOut(s, rnd, sized, counts, Table(s));
            && (s.totalCpu.Some? && s.totalCpu.value <= MAX_INT64 ==>
                  Shrink(EPSILON, out.0 as real) <= FourTimes(EPSILON, s.totalCpu.value as real))
            && (s.totalMemory.Some? && s.totalMemory.value <= MAX_INT64 ==>
                  Shrink(EPSILON, out.1 as real) <= FourTimes(EPSILON, s.totalMemory.value as real))
  {
    NearestIsAccurate(rnd);
    hide Table, HandedOut, Accurate;
    Conservation(s, rnd, EPSILON, sized, counts);
  }

  // ---------- the bound is needed ----------

  lemma {:induction false} PowersMultiply(e: int, n: nat)
    ensures Pow2(e + n) == PowerOfTwo(n) as real * Pow2(e)
  {
    hide Pow2;
    if n > 0 {
      PowersMultiply(e, n - 1);
      NextPower(e + n - 1);
      Reassociate(PowerOfTwo(n - 1) as real, Pow2(e));
    }
  }

  lemma Reassociate(a: real, b: real)
    ensures 2.0 * (a * b) == (2.0 * a) * b
  {}

  /** A power of two can be moved into the significand. */
  lemma Shift(m: int, e: int, n: nat)
    ensures Number(m, e + n) == Number(m * PowerOfTwo(n), e)
  {
    PowersMultiply(e, n);
    hide Pow2, PowerOfTwo;
    Associate(m, PowerOfTwo(n), Pow2(e));
  }

  lemma Associate(m: int, n: int, g: real)
    ensures m as real * (n as real * g) == (m * n) as real * g
  {
    assert (m * n) as real == m as real * n as real;
  }

  /** Multiples of a unit are ordered like their factors, and differ by a unit at least. */
  lemma NumbersOrdered(a: int, b: int, e: int)
    ensures a <= b ==> Number(a, e) <= Number(b, e)
    ensures a < b ==> Number(a, e) + Pow2(e) <= Number(b, e)
  {
    NextPower(e);
    NextNumber(a, e);
    hide Pow2;
    if a <= b { Mono(a as real, b as real, Pow2(e)); }
    if a < b { Mono((a + 1) as real, b as real, Pow2(e)); }
  }

  /** The least significand of 24 bits. */
  const LEAST := 0x80_0000

  /** Above 24 bits of a unit, the representable numbers are multiples of the unit. */
  lemma OnGrid(z: real, e: int) returns (k: int)
    requires Representable(z) && z > Number(LEAST, e)
    ensures z == Number(k, e)
  {
    var m, d :| -SIGNIFICAND <= m <= SIGNIFICAND && -149 <= d <= 104 && z == Number(m, d);
    hide Number, PowerOfTwo;
    if d >= e {
      Shift(m, e, d - e);
      k := m * PowerOfTwo(d - e);
    } else {
      TooSmall(m, d, e);
      assert false;
    }
  }

  lemma TooSmall(m: int, d: int, e: int)
    requires m <= SIGNIFICAND && d < e
    ensures Number(m, d) <= Number(LEAST, e)
  {
    hide Number;
    Shift(LEAST, d, e - d);
    PowerPositive(e - d - 1);
    assert LEAST * PowerOfTwo(e - d) >= SIGNIFICAND;
    NumbersOrdered(m, LEAST * PowerOfTwo(e - d), d);
  }

  /** What is less than half a unit away is what a number is rounded to. */
  lemma RoundsTo(x: real, y: real, m: int, e: int)
    requires Nearest(x, y) && LEAST < m <= SIGNIFICAND && -149 <= e <= 104
    requires Distance(x, Number(m, e)) < Pow2(e) / 2.0
    ensures y == Number(m, e)
  {
    NumbersOrdered(LEAST, m, e);
    assert Representable(Number(m, e));
    hide Number, Representable;
    CloseToBoth(x, y, Number(m, e), Pow2(e));
    var k := OnGrid(y, e);
    NumbersOrdered(k, m, e);
    NumbersOrdered(m, k, e);
  }

  lemma CloseToBoth(x: real, y: real, z: real, g: real)
    requires Distance(x, y) <= Distance(x, z) < g / 2.0
    ensures z - g < y < z + g
  {}

  lemma RepresentableStays(x: real, y: real)
    requires Nearest(x, y) && Representable(x)
    ensures y == x
  {}

  /** Of two neighbours the closer one is nearest. */
  lemma NearestExists(x: real) returns (y: real)
    requires InRange(x)
    ensures Nearest(x, y)
  {
    if x == 0.0 {
      assert Number(0, 0) == 0.0;
      return 0.0;
    }
    var e := Exponent(x);
    NextPower(e);
    var m := Between(x, e);
    y := Closer(x, m, e);
  }

  lemma Closer(x: real, m: int, e: int) returns (y: real)
    requires LEAST <= m < SIGNIFICAND && -149 <= e <= 104 && Number(m, e) <= x < Number(m + 1, e)
    ensures Nearest(x, y)
  {
    var low, high := Number(m, e), Number(m + 1, e);
    y := if Distance(x, low) <= Distance(x, high) then low else high;
    assert Representable(low) && Representable(high);
    hide Number;
    forall z | Representable(z) ensures Distance(x, y) <= Distance(x, z) {
      NoneBetween(z, m, e);
    }
  }

  lemma NoneBetween(z: real, m: int, e: int)
    requires LEAST <= m && Representable(z)
    ensures z <= Number(m, e) || Number(m + 1, e) <= z
  {
    NumbersOrdered(LEAST, m, e);
    NextPower(e);
    hide Number, Pow2;
    if z > Number(m, e) {
      var k := OnGrid(z, e);
      NumbersOrdered(k, m, e);
      NumbersOrdered(m + 1, k, e);
    }
  }

  ghost function ToNearest(x: real): real {
    if y :| Nearest(x, y) then y else 0.0
  }

  /** There is a rounding to nearest. */
  lemma ToNearestRounds()
    ensures RoundsToNearest(ToNearest)
  {
    forall x | InRange(x) ensures Nearest(x, ToNearest(x)) {
      var _ := NearestExists(x);
    }
  }

  const TOTAL: nat := 0x10_0000_0000

  lemma Power36()
    ensures PowerOfTwo(36) == TOTAL && PowerOfTwo(12) == 4096 && PowerOfTwo(24) == SIGNIFICAND
  {
    SmallPowers();
    hide PowerOfTwo;
    PowerAdds(3, 3);
    PowerAdds(6, 6);
    PowerAdds(12, 12);
    PowerAdds(24, 12);
  }

  lemma WholeNumber(m: int)
    ensures Number(m, 0) == m as real
  {}

  /** A total that is a power of two is multiplied without error. */
  lemma WholePart(rnd: Rounding, fraction: real, m: int, e: int)
    requires RoundsToNearest(rnd) && rnd(fraction) == Number(m, e) && LEAST <= m <= SIGNIFICAND && -36 <= e <= 0
    ensures Part(rnd, TOTAL as real, fraction) == (m * PowerOfTwo(e + 36)) as real
  {
    WholeTotal(rnd);
    hide PowerOfTwo, Number, RoundsToNearest;
    TimesTotal(m, e);
    StaysWhole(rnd, m, e + 36);
  }

  lemma WholeTotal(rnd: Rounding)
    requires RoundsToNearest(rnd)
    ensures rnd(TOTAL as real) == TOTAL as real
  {
    Power36();
    assert Number(1, 36) == TOTAL as real by { hide PowerOfTwo; }
    RepresentableStays(TOTAL as real, rnd(TOTAL as real));
  }

  lemma TimesNumber(t: int, m: int, e: int)
    ensures t as real * Number(m, e) == Number(m * t, e)
  {
    hide Pow2;
    Associate(t, m, Pow2(e));
    assert t * m == m * t;
  }

  lemma TimesTotal(m: int, e: int)
    ensures TOTAL as real * Number(m, e) == Number(m, e + 36)
  {
    Power36();
    Shift(m, e, 36);
    hide PowerOfTwo, Number;
    TimesNumber(TOTAL, m, e);
  }

  lemma WholeValue(m: int, n: nat)
    ensures Number(m, n) == (m * PowerOfTwo(n)) as real
  {
    Shift(m, 0, n);
    hide Number, PowerOfTwo;
    WholeNumber(m * PowerOfTwo(n));
  }

  lemma PowerBelow(n: nat)
    requires n <= 36
    ensures 1 <= PowerOfTwo(n) <= TOTAL
  {
    PowerAdds(n, 36 - n);
    Power36();
    PowerPositive(n);
    PowerPositive(36 - n);
    hide PowerOfTwo;
    Factor(PowerOfTwo(n), PowerOfTwo(36 - n));
  }

  lemma Factor(p: nat, q: nat)
    requires q >= 1
    ensures p <= p * q
  {}

  lemma StaysWhole(rnd: Rounding, m: int, n: nat)
    requires RoundsToNearest(rnd) && LEAST <= m <= SIGNIFICAND && n <= 36
    ensures rnd(Number(m, n)) == Number(m, n) == (m * PowerOfTwo(n)) as real
  {
    assert Representable(Number(m, n));
    WholeValue(m, n);
    PowerBelow(n);
    hide Number, PowerOfTwo, Representable;
    BelowTotal(m, PowerOfTwo(n));
    RepresentableStays(Number(m, n), rnd(Number(m, n)));
  }

  lemma IntMono(a: int, b: int, c: int)
    requires a <= b && c >= 0
    ensures a * c <= b * c
  {}

  lemma BelowTotal(m: int, p: int)
    requires LEAST <= m <= SIGNIFICAND && 1 <= p <= TOTAL
    ensures InRange((m * p) as real)
  {
    IntMono(1, m, p);
    IntMono(m, SIGNIFICAND, p);
    assert p <= m * p <= SIGNIFICAND * p <= SIGNIFICAND * TOTAL;
  }

  /** Rounding a fraction: the significand and exponent it gets. */
  ghost predicate RoundedFraction(thousandths: nat, m: int, e: int) {
    LEAST < m <= SIGNIFICAND && -36 <= e <= 0 && Distance(Fraction(thousandths), Number(m, e)) < Pow2(e) / 2.0
  }

  lemma LimitOfTotal(rnd: Rounding, thousandths: nat, m: int, e: int)
    requires RoundsToNearest(rnd) && 10 <= thousandths <= 1000 && RoundedFraction(thousandths, m, e)
    ensures Limit(rnd, TOTAL, thousandths, 1) == m * PowerOfTwo(e + 36)
  {
    hide PowerOfTwo, Number, Pow2, Part;
    assert InRange(Fraction(thousandths));
    RoundsTo(Fraction(thousandths), rnd(Fraction(thousandths)), m, e);
    hide RoundsToNearest, Distance;
    WholePart(rnd, Fraction(thousandths), m, e);
  }

  /** The fractions of memory without a gateway, except one half. */
  lemma MemoryFractions()
    ensures RoundedFraction(120, 16106127, -27) && RoundedFraction(180, 12079596, -26)
    ensures RoundedFraction(150, 10066330, -26) && RoundedFraction(25, 13421773, -29)
  {
    SmallPowers();
    PowerAdds(3, 3);
    PowerAdds(6, 6);
    PowerAdds(12, 12);
    PowerAdds(24, 3);
    PowerAdds(24, 5);
    assert PowerOfTwo(2) == 4;
    PowerAdds(24, 2);
    hide PowerOfTwo;
    assert Pow2(-27) == 1.0 / 134217728.0 && Pow2(-26) == 1.0 / 67108864.0 && Pow2(-29) == 1.0 / 536870912.0;
  }

  lemma HalfOfTotal(rnd: Rounding)
    requires RoundsToNearest(rnd)
    ensures Limit(rnd, TOTAL, 500, 1) == TOTAL / 2
  {
    Shift(LEAST, -24, 24);
    Power36();
    SmallPowers();
    PowerAdds(24, 0);
    assert Pow2(-24) == 1.0 / 16777216.0 && Number(LEAST, -24) == Fraction(500);
    assert Representable(Number(LEAST, -24));
    hide Number, Pow2, PowerOfTwo;
    RepresentableStays(Fraction(500), rnd(Fraction(500)));
    WholePart(rnd, Fraction(500), LEAST, -24);
  }

  /** Without a gateway and with no replica counts, every rounding to nearest hands out 768 bytes more than a total of
      64 GiB of memory. */
  lemma Overshoot(rnd: Rounding, sized: Profiles)
    requires RoundsToNearest(rnd)
    ensures var s := Settings("", false, false, Some(0), Some(TOTAL));
            HandedOut(s, rnd, sized, _ => None, Table(s)).1 == TOTAL + 768
  {
    hide Limit, HandedOut, RoundsToNearest, TotalLimit, Table, MemoryOf, CountsOf, CpuOf, Ones;
    var s := Settings("", false, false, Some(0), Some(TOTAL));
    HandedOutIsTotal(s, rnd, sized, _ => None, 0);
    WholeTable(s);
    AllAlone();
    MemoryTotal(rnd);
  }

  lemma WholeTable(s: Settings)
    requires !s.gateway && !s.authentication
    ensures Table(s)[0..] == Table(s) && MemoryOf(Table(s)) == [120, 500, 180, 150, 25, 25]
    ensures CountsOf(_ => None, Table(s)) == Ones(6)
  {
    AllAlone();
    assert MemoryOf(NO_GATEWAY) == [120, 500, 180, 150, 25, 25];
  }

  lemma AllAlone()
    ensures CountsOf(_ => None, NO_GATEWAY) == Ones(6)
  {
    var ns := CountsOf(_ => None, NO_GATEWAY);
    assert forall i :: 0 <= i < |ns| ==> ns[i] == Effective(None);
  }

  function Ones(n: nat): seq<nat> { seq(n, _ => 1) }

  lemma PlusOne(rnd: Rounding, total: nat, f: nat, fractions: seq<nat>)
    ensures TotalLimit(rnd, total, [f] + fractions, Ones(|fractions| + 1))
         == Limit(rnd, total, f, 1) + TotalLimit(rnd, total, fractions, Ones(|fractions|))
  {
    hide Limit;
    assert ([f] + fractions)[1..] == fractions && Ones(|fractions| + 1)[1..] == Ones(|fractions|);
  }

  lemma MemoryTotal(rnd: Rounding)
    requires RoundsToNearest(rnd)
    ensures TotalLimit(rnd, TOTAL, [120, 500, 180, 150, 25, 25], Ones(6)) == TOTAL + 768
  {
    MemoryLimits(rnd);
    NothingLeft(rnd);
    hide Limit, TotalLimit, RoundsToNearest, Ones;
    PlusOne(rnd, TOTAL, 25, []);
    PlusOne(rnd, TOTAL, 25, [25]);
    PlusOne(rnd, TOTAL, 150, [25, 25]);
    PlusOne(rnd, TOTAL, 180, [150, 25, 25]);
    PlusOne(rnd, TOTAL, 500, [180, 150, 25, 25]);
    PlusOne(rnd, TOTAL, 120, [500, 180, 150, 25, 25]);
    assert [25] + [] == [25] && [25] + [25] == [25, 25] && [150] + [25, 25] == [150, 25, 25];
    assert [180] + [150, 25, 25] == [180, 150, 25, 25] && [500] + [180, 150, 25, 25] == [500, 180, 150, 25, 25];
    assert [120] + [500, 180, 150, 25, 25] == [120, 500, 180, 150, 25, 25];
  }

  lemma NothingLeft(rnd: Rounding)
    ensures TotalLimit(rnd, TOTAL, [], Ones(0)) == 0
  {}

  lemma MemoryLimits(rnd: Rounding)
    requires RoundsToNearest(rnd)
    ensures Limit(rnd, TOTAL, 120, 1) == 8246337024 && Limit(rnd, TOTAL, 500, 1) == 34359738368
    ensures Limit(rnd, TOTAL, 180, 1) == 12369506304 && Limit(rnd, TOTAL, 150, 1) == 10307921920
    ensures Limit(rnd, TOTAL, 25, 1) == 1717986944
  {
    MemoryFractions();
    SmallPowers();
    PowerAdds(5, 5);
    PowerAdds(4, 5);
    PowerAdds(3, 4);
    hide RoundsToNearest, Limit, RoundedFraction, PowerOfTwo;
    HalfOfTotal(rnd);
    LimitOfTotal(rnd, 120, 16106127, -27);
    LimitOfTotal(rnd, 180, 12079596, -26);
    LimitOfTotal(rnd, 150, 10066330, -26);
    LimitOfTotal(rnd, 25, 13421773, -29);
  }
}
