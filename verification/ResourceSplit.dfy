/** Splitting a total of CPU or memory among the components (internal/manifests/manifestutils/resources.go), in exact
    arithmetic and in single precision. */
module ResourceSplit {
  import opened Wrappers

  // ---------- the tables ----------

  /** Fractions in thousandths of the total. */
  datatype Share = Share(component: string, cpu: nat, memory: nat)

  const NO_GATEWAY: seq<Share> :=
    [Share("distributor", 270, 120), Share("ingester", 380, 500), Share("compactor", 160, 180),
     Share("querier", 100, 150),
     Share("query-frontend", 45, 25), Share("jaeger-frontend", 45, 25)]

  const NO_GATEWAY_WITH_PROXY: seq<Share> :=
    [Share("distributor", 270, 120), Share("ingester", 380, 500), Share("compactor", 160, 180),
     Share("querier", 100, 150),
     Share("query-frontend", 45, 25), Share("query-frontend-proxy", 10, 10), Share("jaeger-frontend", 35, 15)]

  const WITH_GATEWAY: seq<Share> :=
    [Share("distributor", 260, 110), Share("ingester", 360, 490), Share("compactor", 150, 170),
     Share("querier", 90, 140),
     Share("query-frontend", 40, 20), Share("jaeger-frontend", 40, 20), Share("gateway", 40, 30),
     Share("tempo-gateway-opa", 20, 20)]

  datatype Settings = Settings(size: string, gateway: bool, authentication: bool, totalCpu: Option<nat>,
                               totalMemory: Option<nat>)

  /** Authentication decides last, so that the gateway gets nothing when both are enabled. */
  function Table(s: Settings): seq<Share> {
    if s.authentication then NO_GATEWAY_WITH_PROXY else if s.gateway then WITH_GATEWAY else NO_GATEWAY
  }

  function Find(table: seq<Share>, component: string): Option<Share> {
    if table == [] then None
    else if table[0].component == component then Some(table[0])
    else Find(table[1..], component)
  }

  // ---------- the arithmetic ----------

  /** How real results are rounded: the identity, or rounding to single precision. */
  type Rounding = real -> real

  function Exact(x: real): real { x }

  const REQUESTS_PERCENTAGE := 0.3

  function Fraction(thousandths: nat): real { thousandths as real / 1000.0 }

  /** Division; no rounding considered here turns a replica count into 0. */
  function Over(a: real, b: real): real { if b == 0.0 then a else a / b }

  /** The part of the total that all replicas of a component have together. */
  function Part(rnd: Rounding, total: real, fraction: real): real { rnd(rnd(total) * rnd(fraction)) }

  function Each(rnd: Rounding, all: real, replicas: nat): real {
    if replicas > 1 then rnd(Over(all, rnd(replicas as real))) else all
  }

  /** Before truncation: the total times the fraction, divided by the replicas if there are several. */
  function ShareOf(rnd: Rounding, total: nat, thousandths: nat, replicas: nat): real {
    Each(rnd, Part(rnd, total as real, Fraction(thousandths)), replicas)
  }

  /** int64(x) for x that is not negative. */
  function Truncate(x: real): int { x.Floor }

  function Limit(rnd: Rounding, total: nat, thousandths: nat, replicas: nat): int {
    Truncate(ShareOf(rnd, total, thousandths, replicas))
  }

  function RoundedProduct(rnd: Rounding, a: real, b: real): real { rnd(a * b) }

  function Requested(rnd: Rounding, share: real): real { RoundedProduct(rnd, share, rnd(REQUESTS_PERCENTAGE)) }

  function RequestOf(rnd: Rounding, share: real): int { Truncate(Requested(rnd, share)) }

  function Request(rnd: Rounding, total: nat, thousandths: nat, replicas: nat): int {
    RequestOf(rnd, ShareOf(rnd, total, thousandths, replicas))
  }

  datatype Amounts = Amounts(limit: int, request: int)

  datatype Requirements = Requirements(cpu: Option<Amounts>, memory: Option<Amounts>)

  function Split(rnd: Rounding, total: Option<nat>, thousandths: nat, replicas: nat): Option<Amounts> {
    if total.None? then None
    else Some(Amounts(Limit(rnd, total.value, thousandths, replicas), Request(rnd, total.value, thousandths, replicas)))
  }

  /** An absent replica count and one below two are treated alike. */
  function Effective(replicas: Option<int>): (n: nat)
    ensures n >= 1
  {
    if replicas.Some? && replicas.value > 1 then replicas.value else 1
  }

  /** Resources; the profiles of the named sizes are given by sized. */
  function Resources(s: Settings, rnd: Rounding, sized: (string, string) -> Requirements, component: string,
                     replicas: Option<int>): Requirements
  {
    if s.size != "" then sized(s.size, component)
    else
      var share := Find(Table(s), component);
      if share.None? then Requirements(None, None)
      else Requirements(Split(rnd, s.totalCpu, share.value.cpu, Effective(replicas)),
                        Split(rnd, s.totalMemory, share.value.memory, Effective(replicas)))
  }

  // ---------- conservation ----------

  /** The smallest and largest results that occur, apart from 0. */
  const SMALL := 0.000000000000001
  const LARGE := 10000000000000000000000000.0

  predicate InRange(x: real) { x == 0.0 || SMALL <= x <= LARGE }

  /** Shares are well within the range. */
  predicate Sizable(x: real) { x == 0.0 || 0.0000000000001 <= x <= 1000000000000000000000.0 }

  function Grow(u: real, x: real): real { x + u * x }

  function Shrink(u: real, x: real): real { x - u * x }

  /** Every result in range is off by at most the relative error u. */
  ghost predicate Accurate(rnd: Rounding, u: real) {
    forall x :: InRange(x) ==> Shrink(u, x) <= rnd(x) <= Grow(u, x)
  }

  lemma ExactIsAccurate()
    ensures Accurate(Exact, 0.0)
  {}

  const MAX_INT64 := 0x7FFF_FFFF_FFFF_FFFF
  const MAX_INT32 := 0x7FFF_FFFF

  // Products of reals are handled by the following lemmas alone.

  lemma Mono(a: real, b: real, c: real)
    requires a <= b && c >= 0.0
    ensures a * c <= b * c && c * a <= c * b
  {}

  lemma GrowScales(u: real, a: real, x: real)
    ensures Grow(u, a * x) == a * Grow(u, x) && Grow(u, x * a) == Grow(u, x) * a
    ensures Shrink(u, a * x) == a * Shrink(u, x) && Shrink(u, x * a) == Shrink(u, x) * a
  {
    assert u * (a * x) == a * (u * x);
  }

  lemma GrowMono(u: real, x: real, y: real)
    requires 0.0 <= u && x <= y
    ensures Grow(u, x) <= Grow(u, y)
  {
    Mono(x, y, u);
  }

  lemma ShrinkMono(u: real, x: real, y: real)
    requires 0.0 <= u <= 1.0 && x <= y
    ensures Shrink(u, x) <= Shrink(u, y)
  {
    Mono(u, 1.0, y - x);
    assert u * (y - x) == u * y - u * x;
  }

  lemma GrowAdds(u: real, x: real, y: real)
    ensures Grow(u, x + y) == Grow(u, x) + Grow(u, y) && Shrink(u, x + y) == Shrink(u, x) + Shrink(u, y)
  {
    assert u * (x + y) == u * x + u * y;
  }

  lemma ErrorSize(u: real, x: real)
    requires 0.0 <= u <= 0.5 && 0.0 <= x
    ensures 0.5 * x <= Shrink(u, x) <= x <= Grow(u, x) <= 2.0 * x
  {
    Mono(0.0, u, x);
    Mono(u, 0.5, x);
  }

  lemma Positive(a: real, b: real, lowA: real, lowB: real, highA: real, highB: real)
    requires 0.0 <= lowA <= a <= highA && 0.0 <= lowB <= b <= highB
    ensures lowA * lowB <= a * b <= highA * highB
  {
    Mono(lowA, a, lowB);
    Mono(lowB, b, a);
    Mono(a, highA, b);
    Mono(b, highB, highA);
  }

  /** The true value, off by four roundings. */
  function FourTimes(u: real, x: real): real { Grow(u, Grow(u, Grow(u, Grow(u, x)))) }

  /** An amount handed out, reduced by one relative error: the replica count is rounded too. */
  function AtLeast(u: real, amount: int): real { Shrink(u, amount as real) }

  /** Named so that equal arguments are seen to give equal products. */
  function Product(a: real, b: real): real { a * b }

  /** What the replicas of a component get together. */
  function Together(u: real, replicas: nat, share: real): real { Shrink(u, Product(replicas as real, share)) }

  /** A part of the total, off by four roundings. */
  function AtMost(u: real, total: nat, thousandths: nat): real { FourTimes(u, Portion(total, thousandths)) }

  function Portion(total: nat, thousandths: nat): real { Product(total as real, Fraction(thousandths)) }

  lemma PortionsAdd(total: nat, a: nat, b: nat)
    ensures Portion(total, a) + Portion(total, b) <= Portion(total, a + b)
  {
    assert Fraction(a) + Fraction(b) == Fraction(a + b);
    Distributes(total as real, Fraction(a), Fraction(b), Fraction(a + b));
  }

  lemma Distributes(t: real, a: real, b: real, c: real)
    requires a + b == c
    ensures t * a + t * b <= t * c
  {
    assert t * (a + b) == t * a + t * b;
  }

  lemma RoundBounds(rnd: Rounding, u: real, x: real)
    requires Accurate(rnd, u) && 0.0 <= u <= 0.5 && InRange(x)
    ensures 0.0 <= 0.5 * x <= rnd(x) <= 2.0 * x && Shrink(u, x) <= rnd(x) <= Grow(u, x)
  {
    ErrorSize(u, x);
  }

  lemma ProductGrows(u: real, t: real, f: real, rt: real, rf: real, all: real)
    requires 0.0 <= u && 0.0 <= t && 0.0 <= f && 0.0 <= rt <= Grow(u, t) && 0.0 <= rf <= Grow(u, f)
    requires all <= Grow(u, rt * rf)
    ensures all <= Grow(u, Grow(u, Grow(u, t * f)))
  {
    Positive(rt, rf, 0.0, 0.0, Grow(u, t), Grow(u, f));
    GrowScales(u, Grow(u, t), f);
    GrowScales(u, f, t);
    hide Grow;
    assert Grow(u, t) * Grow(u, f) == Grow(u, Grow(u, t) * f) == Grow(u, Grow(u, t * f));
    GrowMono(u, rt * rf, Grow(u, Grow(u, t * f)));
  }

  lemma ProductRange(a: real, b: real)
    requires 0.5 <= a <= 20000000000000000000.0 && 0.005 <= b <= 2.0
    ensures 0.0025 <= a * b <= 40000000000000000000.0
  {
    Positive(a, b, 0.5, 0.005, 20000000000000000000.0, 2.0);
  }

  /** The product of total and fraction, three roundings on. */
  lemma AllBounds(rnd: Rounding, u: real, t: real, f: real)
    requires Accurate(rnd, u) && 0.0 <= u <= 0.5 && 1.0 <= t <= 10000000000000000000.0 && 0.01 <= f <= 1.0
    ensures 0.00125 <= Part(rnd, t, f) <= 100000000000000000000.0
    ensures Part(rnd, t, f) <= Grow(u, Grow(u, Grow(u, Product(t, f))))
  {
    RoundBounds(rnd, u, t);
    RoundBounds(rnd, u, f);
    hide Accurate, InRange, Grow, Shrink;
    ProductRange(rnd(t), rnd(f));
    PartBounds(rnd, u, rnd(t) * rnd(f));
    ProductGrows(u, t, f, rnd(t), rnd(f), rnd(rnd(t) * rnd(f)));
  }

  lemma PartBounds(rnd: Rounding, u: real, x: real)
    requires Accurate(rnd, u) && 0.0 <= u <= 0.5 && 0.0025 <= x <= 40000000000000000000.0
    ensures 0.00125 <= rnd(x) <= 100000000000000000000.0 && rnd(x) <= Grow(u, x)
  {
    RoundBounds(rnd, u, x);
  }

  lemma QuotientRange(a: real, d: real)
    requires 0.00125 <= a <= 100000000000000000000.0 && 1.0 <= d <= 4294967296.0
    ensures 0.0000000000002 <= a / d <= a && a / d * d == a
  {
    var q := a / d;
    assert q * d == a;
    if q < 0.0000000000002 { Mono(q, 0.0000000000002, d); }
    Mono(1.0, d, q);
  }

  lemma QuotientShrinks(u: real, all: real, n: real, rn: real, share: real)
    requires 0.0 <= u <= 0.5 && 1.0 <= rn && Shrink(u, n) <= rn && 0.0 <= share <= Grow(u, all / rn)
    ensures Shrink(u, Product(n, share)) <= Grow(u, all)
  {
    GrowScales(u, share, n);
    assert n * share == share * n;
    Mono(Shrink(u, n), rn, share);
    Mono(share, Grow(u, all / rn), rn);
    GrowScales(u, rn, all / rn);
    assert all / rn * rn == all;
    hide Grow, Shrink;
  }

  lemma DividedBound(rnd: Rounding, u: real, all: real, n: real)
    requires Accurate(rnd, u) && 0.0 <= u <= 0.5 && 2.0 <= n <= MAX_INT32 as real
    requires 0.00125 <= all <= 100000000000000000000.0
    ensures var share := rnd(Over(all, rnd(n)));
            0.0 <= share && Sizable(share) && Shrink(u, Product(n, share)) <= Grow(u, all)
  {
    RoundBounds(rnd, u, n);
    QuotientRange(all, rnd(n));
    RoundBounds(rnd, u, all / rnd(n));
    QuotientShrinks(u, all, n, rnd(n), rnd(all / rnd(n)));
  }

  lemma ZeroPart(rnd: Rounding, u: real, f: real)
    requires Accurate(rnd, u) && 0.0 <= u <= 0.5
    ensures Part(rnd, 0.0, f) == 0.0
  {
    RoundBounds(rnd, u, 0.0);
    assert rnd(0.0) == 0.0;
    assert rnd(0.0) * rnd(f) == 0.0;
  }

  lemma ZeroTotal(rnd: Rounding, u: real, thousandths: nat, replicas: nat)
    requires Accurate(rnd, u) && 0.0 <= u <= 0.5 && 1 <= replicas <= MAX_INT32
    ensures ShareOf(rnd, 0, thousandths, replicas) == 0.0
  {
    RoundBounds(rnd, u, 0.0);
    RoundBounds(rnd, u, replicas as real);
    ZeroPart(rnd, u, Fraction(thousandths));
  }

  lemma ZeroBound(rnd: Rounding, u: real, thousandths: nat, replicas: nat)
    requires Accurate(rnd, u) && 0.0 <= u <= 0.5 && 1 <= replicas <= MAX_INT32
    ensures ShareOf(rnd, 0, thousandths, replicas) == 0.0
    ensures Together(u, replicas, 0.0) == 0.0 && AtMost(u, 0, thousandths) == 0.0
  {
    ZeroTotal(rnd, u, thousandths, replicas);
    NothingGrows(u);
    TimesZero(Fraction(thousandths), replicas as real);
    assert replicas as real * 0.0 == 0.0;
    assert Portion(0, thousandths) == 0.0;
  }

  lemma PositiveBound(rnd: Rounding, u: real, t: real, f: real, replicas: nat)
    requires Accurate(rnd, u) && 0.0 <= u <= 0.5 && 1.0 <= t <= 10000000000000000000.0 && 0.01 <= f <= 1.0
    requires 1 <= replicas <= MAX_INT32
    ensures var share := Each(rnd, Part(rnd, t, f), replicas);
            0.0 <= share && Sizable(share) && Together(u, replicas, share) <= FourTimes(u, Product(t, f))
  {
    AllBounds(rnd, u, t, f);
    EachBound(rnd, u, Part(rnd, t, f), replicas);
    hide Accurate, Grow, Shrink, Part, Each, Sizable, Product;
    GrowMono(u, Part(rnd, t, f), Grow(u, Grow(u, Grow(u, Product(t, f)))));
  }

  /** All replicas together get at most the component's fraction, up to the rounding error. */
  lemma ComponentBound(rnd: Rounding, u: real, total: nat, thousandths: nat, replicas: nat)
    requires Accurate(rnd, u) && 0.0 <= u <= 0.5 && total <= MAX_INT64 && 10 <= thousandths <= 1000
    requires 1 <= replicas <= MAX_INT32
    ensures var share := ShareOf(rnd, total, thousandths, replicas);
            0.0 <= share && Sizable(share) && Together(u, replicas, share) <= AtMost(u, total, thousandths)
  {
    hide Accurate, FourTimes, Part, Each, Together, Product;
    if total == 0 {
      ZeroBound(rnd, u, thousandths, replicas);
    } else {
      PositiveBound(rnd, u, total as real, Fraction(thousandths), replicas);
    }
  }

  lemma EachBound(rnd: Rounding, u: real, all: real, replicas: nat)
    requires Accurate(rnd, u) && 0.0 <= u <= 0.5 && 1 <= replicas <= MAX_INT32
    requires 0.00125 <= all <= 100000000000000000000.0
    ensures var share := Each(rnd, all, replicas);
            0.0 <= share && Sizable(share) && Together(u, replicas, share) <= Grow(u, all)
  {
    if replicas > 1 {
      DividedBound(rnd, u, all, replicas as real);
    } else {
      assert replicas as real == 1.0;
      assert Product(replicas as real, all) == all;
      ErrorSize(u, all);
    }
  }

  lemma TimesZero(f: real, n: real)
    ensures 0.0 * f == 0.0 && n * 0.0 == 0.0
  {}

  lemma NothingGrows(u: real)
    ensures Shrink(u, 0.0) == 0.0 && FourTimes(u, 0.0) == 0.0
  {
    assert Grow(u, 0.0) == 0.0;
  }

  /** The sum over a table of what all replicas of each component get. */
  function TotalLimit(rnd: Rounding, total: nat, fractions: seq<nat>, replicas: seq<nat>): int
    requires |fractions| == |replicas|
  {
    if fractions == [] then 0
    else
      replicas[0] * Limit(rnd, total, fractions[0], replicas[0])
      + TotalLimit(rnd, total, fractions[1..], replicas[1..])
  }

  function Sum(xs: seq<nat>): nat { if xs == [] then 0 else xs[0] + Sum(xs[1..]) }

  predicate GoodCounts(replicas: seq<nat>) { forall i :: 0 <= i < |replicas| ==> 1 <= replicas[i] <= MAX_INT32 }

  predicate GoodFractions(fractions: seq<nat>) { forall i :: 0 <= i < |fractions| ==> 10 <= fractions[i] <= 1000 }

  lemma IntProduct(a: int, b: int)
    ensures (a * b) as real == a as real * b as real
  {}

  lemma TruncatedBound(u: real, n: nat, share: real)
    requires 0.0 <= u <= 0.5
    ensures AtLeast(u, n * Truncate(share)) <= Together(u, n, share)
  {
    hide Shrink;
    Mono(Truncate(share) as real, share, n as real);
    IntProduct(n, Truncate(share));
    ShrinkMono(u, (n * Truncate(share)) as real, Product(n as real, share));
  }

  lemma LimitBound(rnd: Rounding, u: real, total: nat, thousandths: nat, replicas: nat)
    requires Accurate(rnd, u) && 0.0 <= u <= 0.5 && total <= MAX_INT64 && 10 <= thousandths <= 1000
    requires 1 <= replicas <= MAX_INT32
    ensures AtLeast(u, replicas * Limit(rnd, total, thousandths, replicas)) <= AtMost(u, total, thousandths)
  {
    ComponentBound(rnd, u, total, thousandths, replicas);
    TruncatedBound(u, replicas, ShareOf(rnd, total, thousandths, replicas));
  }

  lemma FourTimesAdds(u: real, x: real, y: real)
    ensures FourTimes(u, x) + FourTimes(u, y) == FourTimes(u, x + y)
  {
    GrowAdds(u, x, y);
    GrowAdds(u, Grow(u, x), Grow(u, y));
    GrowAdds(u, Grow(u, Grow(u, x)), Grow(u, Grow(u, y)));
    GrowAdds(u, Grow(u, Grow(u, Grow(u, x))), Grow(u, Grow(u, Grow(u, y))));
    hide Grow;
  }

  lemma FourTimesMono(u: real, x: real, y: real)
    requires 0.0 <= u && x <= y
    ensures FourTimes(u, x) <= FourTimes(u, y)
  {
    GrowMono(u, x, y);
    GrowMono(u, Grow(u, x), Grow(u, y));
    GrowMono(u, Grow(u, Grow(u, x)), Grow(u, Grow(u, y)));
    GrowMono(u, Grow(u, Grow(u, Grow(u, x))), Grow(u, Grow(u, Grow(u, y))));
    hide Grow;
  }

  lemma AddBounds(u: real, mine: int, others: int, x: real, y: real, z: real)
    requires 0.0 <= u <= 0.5 && x + y <= z
    requires Shrink(u, mine as real) <= FourTimes(u, x) && Shrink(u, others as real) <= FourTimes(u, y)
    ensures Shrink(u, (mine + others) as real) <= FourTimes(u, z)
  {
    hide FourTimes, Shrink;
    GrowAdds(u, mine as real, others as real);
    ShrinkMono(u, (mine + others) as real, mine as real + others as real);
    FourTimesAdds(u, x, y);
    FourTimesMono(u, x + y, z);
  }

  lemma StepBound(u: real, total: nat, mine: int, others: int, f: nat, rest: nat)
    requires 0.0 <= u <= 0.5
    requires AtLeast(u, mine) <= AtMost(u, total, f) && AtLeast(u, others) <= AtMost(u, total, rest)
    ensures AtLeast(u, mine + others) <= AtMost(u, total, f + rest)
  {
    hide FourTimes, Shrink, Portion;
    PortionsAdd(total, f, rest);
    AddBounds(u, mine, others, Portion(total, f), Portion(total, rest), Portion(total, f + rest));
  }

  lemma EmptyBound(u: real, total: nat)
    ensures AtLeast(u, 0) == 0.0 && AtMost(u, total, 0) == 0.0
  {
    NothingGrows(u);
    TimesZero(0.0, total as real);
    assert total as real * Fraction(0) == 0.0;
  }

  lemma {:induction false} SumBound(rnd: Rounding, u: real, total: nat, fractions: seq<nat>, replicas: seq<nat>)
    requires Accurate(rnd, u) && 0.0 <= u <= 0.5 && total <= MAX_INT64
    requires |fractions| == |replicas| && GoodCounts(replicas) && GoodFractions(fractions)
    ensures AtLeast(u, TotalLimit(rnd, total, fractions, replicas)) <= AtMost(u, total, Sum(fractions))
  {
    hide Accurate, AtMost, AtLeast, Limit;
    if fractions == [] {
      EmptyBound(u, total);
    } else {
      SumBound(rnd, u, total, fractions[1..], replicas[1..]);
      LimitBound(rnd, u, total, fractions[0], replicas[0]);
      StepBound(u, total, replicas[0] * Limit(rnd, total, fractions[0], replicas[0]),
                TotalLimit(rnd, total, fractions[1..], replicas[1..]), fractions[0], Sum(fractions[1..]));
    }
  }

  // ---------- the tables split everything ----------

  function CpuOf(table: seq<Share>): seq<nat> { seq(|table|, i requires 0 <= i < |table| => table[i].cpu) }

  function MemoryOf(table: seq<Share>): seq<nat> { seq(|table|, i requires 0 <= i < |table| => table[i].memory) }

  ghost predicate SumsTo(xs: seq<nat>, n: nat) { GoodFractions(xs) && Sum(xs) == n }

  /** Adding up from a position of the list. */
  lemma SumFrom(xs: seq<nat>, i: nat)
    requires i < |xs|
    ensures Sum(xs[i..]) == xs[i] + Sum(xs[i + 1..])
  {
    assert xs[i..][1..] == xs[i + 1..];
  }

  lemma SumOfEight(xs: seq<nat>)
    requires |xs| == 8
    ensures Sum(xs) == xs[0] + xs[1] + xs[2] + xs[3] + xs[4] + xs[5] + xs[6] + xs[7]
  {
    hide Sum;
    SumFrom(xs, 0);
    SumFrom(xs, 1);
    SumFrom(xs, 2);
    SumFrom(xs, 3);
    SumFrom(xs, 4);
    SumFrom(xs, 5);
    SumFrom(xs, 6);
    SumFrom(xs, 7);
    EmptySum();
    assert xs[0..] == xs && xs[8..] == [];
  }

  lemma EmptySum()
    ensures Sum([]) == 0
  {}

  /** Padding with zeros in front changes no sum. */
  lemma {:induction false} SumPadded(xs: seq<nat>, n: nat)
    ensures Sum(seq(n, _ => 0) + xs) == Sum(xs)
  {
    var padded := seq(n, _ => 0) + xs;
    if n == 0 {
      assert padded == xs;
    } else {
      assert padded[1..] == seq(n - 1, _ => 0) + xs;
      SumPadded(xs, n - 1);
    }
  }

  lemma SumOfShort(xs: seq<nat>, padded: seq<nat>)
    requires |xs| <= 8 && padded == seq(8 - |xs|, _ => 0) + xs
    ensures Sum(xs) == padded[0] + padded[1] + padded[2] + padded[3] + padded[4] + padded[5] + padded[6] + padded[7]
  {
    SumPadded(xs, 8 - |xs|);
    SumOfEight(padded);
  }

  /** Every table gives away exactly the whole. */
  lemma TablesSumToOne(s: Settings)
    ensures SumsTo(CpuOf(Table(s)), 1000) && SumsTo(MemoryOf(Table(s)), 1000)
  {
    hide Sum;
    SumOfShort(CpuOf(NO_GATEWAY_WITH_PROXY), seq(1, _ => 0) + CpuOf(NO_GATEWAY_WITH_PROXY));
    SumOfShort(MemoryOf(NO_GATEWAY_WITH_PROXY), seq(1, _ => 0) + MemoryOf(NO_GATEWAY_WITH_PROXY));
    SumOfShort(CpuOf(NO_GATEWAY), seq(2, _ => 0) + CpuOf(NO_GATEWAY));
    SumOfShort(MemoryOf(NO_GATEWAY), seq(2, _ => 0) + MemoryOf(NO_GATEWAY));
    SumOfEight(CpuOf(WITH_GATEWAY));
    SumOfEight(MemoryOf(WITH_GATEWAY));
  }

  // ---------- main results ----------

  /** The names of a table are different, so looking one up finds its row. */
  lemma FindsRow(s: Settings, i: nat)
    requires i < |Table(s)|
    ensures Find(Table(s), Table(s)[i].component) == Some(Table(s)[i])
  {
    TablesHaveDifferentNames(s);
    FindIn(Table(s), i);
  }

  predicate DifferentNames(table: seq<Share>) {
    forall i, j :: 0 <= i < j < |table| ==> Differ(table[i].component, table[j].component)
  }

  predicate Differ(a: string, b: string) { a != "" && b != "" && (|a| != |b| || a[0] != b[0]) }

  /** Length and first letter tell the names of each table apart. */
  function Sign(name: string): (nat, char) { (|name|, if name == "" then ' ' else name[0]) }

  ghost predicate HasSigns(table: seq<Share>, signs: seq<(nat, char)>) {
    |table| == |signs|
    && forall i :: 0 <= i < |table| ==> table[i].component != "" && Sign(table[i].component) == signs[i]
  }

  lemma SignsDiffer(table: seq<Share>, signs: seq<(nat, char)>)
    requires HasSigns(table, signs) && forall i, j :: 0 <= i < j < |signs| ==> signs[i] != signs[j]
    ensures DifferentNames(table)
  {
    forall i, j | 0 <= i < j < |table| ensures Differ(table[i].component, table[j].component) {
      assert Sign(table[i].component) != Sign(table[j].component);
    }
  }

  lemma NoGatewayNames()
    ensures DifferentNames(NO_GATEWAY)
  {
    SignsDiffer(NO_GATEWAY, [(11, 'd'), (8, 'i'), (9, 'c'), (7, 'q'), (14, 'q'), (15, 'j')]);
  }

  lemma ProxyNames()
    ensures DifferentNames(NO_GATEWAY_WITH_PROXY)
  {
    SignsDiffer(NO_GATEWAY_WITH_PROXY, [(11, 'd'), (8, 'i'), (9, 'c'), (7, 'q'), (14, 'q'), (20, 'q'), (15, 'j')]);
  }

  lemma GatewayNames()
    ensures DifferentNames(WITH_GATEWAY)
  {
    SignsDiffer(WITH_GATEWAY, [(11, 'd'), (8, 'i'), (9, 'c'), (7, 'q'), (14, 'q'), (15, 'j'), (7, 'g'), (17, 't')]);
  }

  lemma TablesHaveDifferentNames(s: Settings)
    ensures DifferentNames(Table(s))
  {
    hide DifferentNames;
    NoGatewayNames();
    ProxyNames();
    GatewayNames();
  }

  lemma {:induction false} FindIn(table: seq<Share>, i: nat)
    requires i < |table| && DifferentNames(table)
    ensures Find(table, table[i].component) == Some(table[i])
  {
    if i > 0 {
      var rest := table[1..];
      forall j, k | 0 <= j < k < |rest| ensures Differ(rest[j].component, rest[k].component) {
        assert Differ(table[j + 1].component, table[k + 1].component);
      }
      FindIn(rest, i - 1);
    }
  }

  type Profiles = (string, string) -> Requirements

  type Counts = string -> Option<int>

  function LimitOf(a: Option<Amounts>): int { if a.Some? then a.value.limit else 0 }

  /** The limits of all replicas of the components in some rows of the table, added up. */
  function HandedOut(s: Settings, rnd: Rounding, sized: Profiles, counts: Counts, rows: seq<Share>): (int, int) {
    if rows == [] then (0, 0)
    else
      var name := rows[0].component;
      var r, n := Resources(s, rnd, sized, name, counts(name)), Effective(counts(name));
      var rest := HandedOut(s, rnd, sized, counts, rows[1..]);
      (n * LimitOf(r.cpu) + rest.0, n * LimitOf(r.memory) + rest.1)
  }

  function CountsOf(counts: Counts, rows: seq<Share>): seq<nat> {
    seq<nat>(|rows|, i requires 0 <= i < |rows| => Effective(counts(rows[i].component)))
  }

  /** The rows from position i on. */
  lemma {:induction false} HandedOutIsTotal(s: Settings, rnd: Rounding, sized: Profiles, counts: Counts, i: nat)
    requires s.size == "" && i <= |Table(s)|
    ensures var rows := Table(s)[i..];
            var out, ns := HandedOut(s, rnd, sized, counts, rows), CountsOf(counts, rows);
            && out.0 == (if s.totalCpu.None? then 0 else TotalLimit(rnd, s.totalCpu.value, CpuOf(rows), ns))
            && out.1 == (if s.totalMemory.None? then 0 else TotalLimit(rnd, s.totalMemory.value, MemoryOf(rows), ns))
    decreases |Table(s)| - i
  {
    hide Table, Limit, Request;
    if i < |Table(s)| {
      var rows := Table(s)[i..];
      HandedOutIsTotal(s, rnd, sized, counts, i + 1);
      FindsRow(s, i);
      assert rows[0] == Table(s)[i] && rows[1..] == Table(s)[i + 1..];
      assert CpuOf(rows)[1..] == CpuOf(rows[1..]) && MemoryOf(rows)[1..] == MemoryOf(rows[1..]);
      assert CountsOf(counts, rows)[1..] == CountsOf(counts, rows[1..]);
    }
  }

  /** Conservation: for every table, all totals and replica counts, and any rounding of relative error u, the limits of
      all replicas together exceed the total by no more than the error of five roundings. */
  lemma Conservation(s: Settings, rnd: Rounding, u: real, sized: Profiles, counts: Counts)
    requires s.size == "" && Accurate(rnd, u) && 0.0 <= u <= 0.5
    requires forall name :: Effective(counts(name)) <= MAX_INT32
    ensures var out := HandedOut(s, rnd, sized, counts, Table(s));
            && (s.totalCpu.Some? && s.totalCpu.value <= MAX_INT64 ==>
                  Shrink(u, out.0 as real) <= FourTimes(u, s.totalCpu.value as real))
            && (s.totalMemory.Some? && s.totalMemory.value <= MAX_INT64 ==>
                  Shrink(u, out.1 as real) <= FourTimes(u, s.totalMemory.value as real))
  {
    HandedOutIsTotal(s, rnd, sized, counts, 0);
    assert Table(s)[0..] == Table(s);
    TablesSumToOne(s);
    CountsAreGood(counts, Table(s));
    hide Table, Accurate, FourTimes, Shrink, TotalLimit, Sum, Effective, HandedOut, CpuOf, MemoryOf, CountsOf;
    if s.totalCpu.Some? && s.totalCpu.value <= MAX_INT64 {
      SumBound(rnd, u, s.totalCpu.value, CpuOf(Table(s)), CountsOf(counts, Table(s)));
      WholePortion(s.totalCpu.value);
    }
    if s.totalMemory.Some? && s.totalMemory.value <= MAX_INT64 {
      SumBound(rnd, u, s.totalMemory.value, MemoryOf(Table(s)), CountsOf(counts, Table(s)));
      WholePortion(s.totalMemory.value);
    }
  }

  lemma CountsAreGood(counts: Counts, rows: seq<Share>)
    requires forall name :: Effective(counts(name)) <= MAX_INT32
    ensures GoodCounts(CountsOf(counts, rows)) && |CountsOf(counts, rows)| == |CpuOf(rows)| == |MemoryOf(rows)|
  {
    var ns := CountsOf(counts, rows);
    forall i | 0 <= i < |ns| ensures 1 <= ns[i] <= MAX_INT32 {
      assert ns[i] == Effective(counts(rows[i].component));
    }
  }

  lemma WholePortion(total: nat)
    ensures Portion(total, 1000) == total as real
  {
    assert Fraction(1000) == 1.0;
  }

  /** In exact arithmetic the total is never exceeded. */
  lemma ExactConservation(s: Settings, sized: Profiles, counts: Counts)
    requires s.size == "" && forall name :: Effective(counts(name)) <= MAX_INT32
    ensures var out := HandedOut(s, Exact, sized, counts, Table(s));
            && (s.totalCpu.Some? && s.totalCpu.value <= MAX_INT64 ==> out.0 <= s.totalCpu.value)
            && (s.totalMemory.Some? && s.totalMemory.value <= MAX_INT64 ==> out.1 <= s.totalMemory.value)
  {
    ExactIsAccurate();
    hide Table, HandedOut, Accurate;
    Conservation(s, Exact, 0.0, sized, counts);
  }

  lemma PercentageBounds(rnd: Rounding, u: real)
    requires Accurate(rnd, u) && 0.0 <= u <= 0.5
    ensures 0.15 <= rnd(REQUESTS_PERCENTAGE) <= 0.45
  {
    assert InRange(REQUESTS_PERCENTAGE);
  }

  lemma SmallerProduct(u: real, share: real, p: real)
    requires 0.0 <= u <= 0.5 && 0.0 <= share && Sizable(share) && 0.15 <= p <= 0.45
    ensures InRange(share * p) && 0.0 <= share * p && Grow(u, share * p) <= share
  {
    if share == 0.0 {
      TimesZero(p, 0.0);
      NothingGrows(u);
    } else {
      Mono(0.15, p, share);
      Mono(p, 0.45, share);
      var x := share * p;
      assert 0.15 * share <= x <= 0.45 * share;
      Mono(u, 0.5, x);
    }
  }

  /** Requests never exceed limits, however the results are rounded. */
  lemma RequestWithinLimit(rnd: Rounding, u: real, total: nat, thousandths: nat, replicas: nat)
    requires Accurate(rnd, u) && 0.0 <= u <= 0.5 && total <= MAX_INT64 && 10 <= thousandths <= 1000
    requires 1 <= replicas <= MAX_INT32
    ensures 0 <= Request(rnd, total, thousandths, replicas) <= Limit(rnd, total, thousandths, replicas)
  {
    hide Accurate, ShareOf, Shrink, FourTimes, Fraction, RequestOf;
    ComponentBound(rnd, u, total, thousandths, replicas);
    PercentageBounds(rnd, u);
    RequestBelow(rnd, u, ShareOf(rnd, total, thousandths, replicas));
  }

  lemma RequestBelow(rnd: Rounding, u: real, share: real)
    requires Accurate(rnd, u) && 0.0 <= u <= 0.5 && 0.0 <= share && Sizable(share)
    requires 0.15 <= rnd(REQUESTS_PERCENTAGE) <= 0.45
    ensures 0 <= RequestOf(rnd, share) <= Truncate(share)
  {
    RequestedBelow(rnd, u, share);
    hide Requested;
    FloorMono(Requested(rnd, share), share);
  }

  lemma RequestedBelow(rnd: Rounding, u: real, share: real)
    requires Accurate(rnd, u) && 0.0 <= u <= 0.5 && 0.0 <= share && Sizable(share)
    requires 0.15 <= rnd(REQUESTS_PERCENTAGE) <= 0.45
    ensures 0.0 <= Requested(rnd, share) <= share
  {
    ProductBelow(rnd, u, share, rnd(REQUESTS_PERCENTAGE));
    hide RoundedProduct;
  }

  lemma ProductBelow(rnd: Rounding, u: real, share: real, p: real)
    requires Accurate(rnd, u) && 0.0 <= u <= 0.5 && 0.0 <= share && Sizable(share) && 0.15 <= p <= 0.45
    ensures 0.0 <= RoundedProduct(rnd, share, p) <= share
  {
    SmallerProduct(u, share, p);
    hide Grow, Shrink, Sizable;
    RoundBounds(rnd, u, share * p);
  }

  lemma FloorMono(x: real, y: real)
    requires 0.0 <= x <= y
    ensures 0 <= x.Floor <= y.Floor
  {}

  // ---------- nothing is wasted ----------

  function Replicas(counts: seq<nat>): nat { if counts == [] then 0 else counts[0] + Replicas(counts[1..]) }

  lemma ExactShare(total: nat, thousandths: nat, replicas: nat)
    requires replicas >= 1
    ensures replicas as real * ShareOf(Exact, total, thousandths, replicas) == Portion(total, thousandths)
  {
    var all := Portion(total, thousandths);
    assert Part(Exact, total as real, Fraction(thousandths)) == all;
    if replicas > 1 { assert replicas as real * (all / replicas as real) == all; }
  }

  lemma FloorLoss(n: nat, share: real)
    ensures n as real * share <= (n * Truncate(share)) as real + n as real
  {
    Mono(share, Truncate(share) as real + 1.0, n as real);
    IntProduct(n, Truncate(share));
    assert n as real * (Truncate(share) as real + 1.0) == n as real * Truncate(share) as real + n as real;
  }

  lemma {:induction false} LossBound(total: nat, fractions: seq<nat>, replicas: seq<nat>)
    requires |fractions| == |replicas| && GoodCounts(replicas)
    ensures Portion(total, Sum(fractions)) <= TotalLimit(Exact, total, fractions, replicas) as real
            + Replicas(replicas) as real
  {
    if fractions == [] {
      assert Portion(total, 0) == 0.0;
    } else {
      hide Portion, Limit, ShareOf;
      LossBound(total, fractions[1..], replicas[1..]);
      ComponentLoss(total, fractions[0], replicas[0]);
      PortionsSum(total, fractions[0], Sum(fractions[1..]));
    }
  }

  lemma ComponentLoss(total: nat, thousandths: nat, replicas: nat)
    requires replicas >= 1
    ensures Portion(total, thousandths) <= (replicas * Limit(Exact, total, thousandths, replicas)) as real
            + replicas as real
  {
    ExactShare(total, thousandths, replicas);
    FloorLoss(replicas, ShareOf(Exact, total, thousandths, replicas));
    hide ShareOf, Portion;
  }

  lemma PortionsSum(total: nat, a: nat, b: nat)
    ensures Portion(total, a + b) <= Portion(total, a) + Portion(total, b)
  {
    FractionsSum(total as real, Fraction(a), Fraction(b), Fraction(a + b));
  }

  lemma FractionsSum(t: real, a: real, b: real, c: real)
    requires a + b == c
    ensures t * c <= t * a + t * b
  {
    assert t * (a + b) == t * a + t * b;
  }

  /** In exact arithmetic nothing but the truncation is lost: at most one unit for each replica. */
  lemma NothingWasted(s: Settings, sized: Profiles, counts: Counts)
    requires s.size == "" && forall name :: Effective(counts(name)) <= MAX_INT32
    ensures var out, replicas := HandedOut(s, Exact, sized, counts, Table(s)), Replicas(CountsOf(counts, Table(s)));
            && (s.totalCpu.Some? ==> s.totalCpu.value <= out.0 + replicas)
            && (s.totalMemory.Some? ==> s.totalMemory.value <= out.1 + replicas)
  {
    HandedOutIsTotal(s, Exact, sized, counts, 0);
    assert Table(s)[0..] == Table(s);
    TablesSumToOne(s);
    CountsAreGood(counts, Table(s));
    hide Table, TotalLimit, Sum, Effective, HandedOut, CpuOf, MemoryOf, CountsOf, Portion, Replicas;
    if s.totalCpu.Some? {
      LossBound(s.totalCpu.value, CpuOf(Table(s)), CountsOf(counts, Table(s)));
      WholePortion(s.totalCpu.value);
    }
    if s.totalMemory.Some? {
      LossBound(s.totalMemory.value, MemoryOf(Table(s)), CountsOf(counts, Table(s)));
      WholePortion(s.totalMemory.value);
    }
  }

  // ---------- the gateway ----------

  lemma {:induction false} NotFound(table: seq<Share>, component: string)
    requires forall i :: 0 <= i < |table| ==> table[i].component != component
    ensures Find(table, component) == None
  {
    if table != [] {
      assert forall i :: 0 <= i < |table[1..]| ==> table[1..][i] == table[i + 1];
      NotFound(table[1..], component);
    }
  }

  lemma GatewayRow(authentication: bool)
    ensures authentication ==> Find(NO_GATEWAY_WITH_PROXY, "gateway") == None
    ensures !authentication ==> Find(WITH_GATEWAY, "gateway") == Some(Share("gateway", 40, 30))
  {
    if authentication {
      var t := NO_GATEWAY_WITH_PROXY;
      forall i | 0 <= i < |t| ensures t[i].component != "gateway" {
        assert |t[i].component| != 7 || t[i].component[0] != 'g';
      }
      NotFound(t, "gateway");
    } else {
      GatewayNames();
      assert WITH_GATEWAY[6].component == "gateway";
      FindIn(WITH_GATEWAY, 6);
    }
  }

  /** An enabled gateway gets no limits and requests at all, in spite of totals, exactly if Jaeger authentication is
      enabled. */
  lemma GatewayUnlimited(s: Settings, rnd: Rounding, sized: Profiles, replicas: Option<int>)
    requires s.size == "" && s.gateway && s.totalCpu.Some? && s.totalMemory.Some?
    ensures Resources(s, rnd, sized, "gateway", replicas) == Requirements(None, None) <==> s.authentication
  {
    GatewayRow(s.authentication);
    hide Find, Limit, Request;
  }

  /** A named size decides alone, whatever the totals and the replica count; without one, a replica count that is absent
      counts like one. */
  lemma SizeDecides(s: Settings, rnd: Rounding, sized: Profiles, component: string, replicas: Option<int>)
    ensures s.size != "" ==> Resources(s, rnd, sized, component, replicas) == sized(s.size, component)
    ensures s.size == "" && (replicas.Some? ==> replicas.value <= 1) ==>
              Resources(s, rnd, sized, component, replicas) == Resources(s, rnd, sized, component, Some(1))
  {
    hide Find, Limit, Request;
  }

  // ---------- every component's limit ----------

  lemma FloorOfQuotient(a: nat, b: nat)
    requires b > 0
    ensures (a as real / b as real).Floor == a / b
  {
    var k, next := a / b, a / b + 1;
    assert k * b <= a < next * b;
    IntProduct(k, b);
    IntProduct(next, b);
    QuotientAtLeast(a as real, b as real, k as real);
    QuotientBelow(a as real, b as real, next as real);
  }

  lemma QuotientAtLeast(a: real, b: real, low: real)
    requires b > 0.0 && low * b <= a
    ensures low <= a / b
  {
    var q := a / b;
    assert q * b == a;
    if q < low { StrictProduct(q, low, b); }
  }

  lemma QuotientBelow(a: real, b: real, high: real)
    requires b > 0.0 && a < high * b
    ensures a / b < high
  {
    var q := a / b;
    assert q * b == a;
    if q >= high { Mono(high, q, b); }
  }

  lemma StrictProduct(a: real, b: real, c: real)
    requires a < b && c > 0.0
    ensures a * c < b * c
  {}

  /** In exact arithmetic: the fraction of the total, divided among the replicas and rounded down; and three tenths of
      it. */
  lemma ExactAmounts(total: nat, thousandths: nat, replicas: nat)
    requires replicas >= 1
    ensures Limit(Exact, total, thousandths, replicas) == total * thousandths / (1000 * replicas)
    ensures Request(Exact, total, thousandths, replicas) == 3 * (total * thousandths) / (10000 * replicas)
  {
    ExactQuotient(total, thousandths, replicas);
    FloorOfQuotient(total * thousandths, 1000 * replicas);
    FloorOfQuotient(3 * (total * thousandths), 10000 * replicas);
    ThreeTenths(total * thousandths, replicas);
    hide ShareOf;
  }

  lemma ThreeTenths(part: nat, replicas: nat)
    requires replicas >= 1
    ensures part as real / (1000 * replicas) as real * 0.3 == (3 * part) as real / (10000 * replicas) as real
  {
    var x := part as real / (1000 * replicas) as real;
    assert x * (1000 * replicas) as real == part as real;
    assert (10000 * replicas) as real == 10.0 * (1000 * replicas) as real;
    assert x * 0.3 * (10000 * replicas) as real == 3.0 * (x * (1000 * replicas) as real);
  }

  lemma ExactQuotient(total: nat, thousandths: nat, replicas: nat)
    requires replicas >= 1
    ensures ShareOf(Exact, total, thousandths, replicas) == (total * thousandths) as real / (1000 * replicas) as real
  {
    var part := total as real * Fraction(thousandths);
    IntProduct(total, thousandths);
    assert part * 1000.0 == (total * thousandths) as real;
    if replicas > 1 {
      var n := replicas as real;
      assert (1000 * replicas) as real == 1000.0 * n;
      assert part / n * (1000.0 * n) == part * 1000.0;
    }
  }

  /** The component gets these thousandths of CPU and memory, if totals are set. */
  ghost predicate Gets(s: Settings, sized: Profiles, component: string, replicas: nat, cpu: nat, memory: nat)
    requires replicas >= 1
  {
    var r := Resources(s, Exact, sized, component, Some(replicas));
    && (s.totalCpu.Some? ==>
          r.cpu == Some(Amounts(s.totalCpu.value * cpu / (1000 * replicas),
                                3 * (s.totalCpu.value * cpu) / (10000 * replicas))))
    && (s.totalMemory.Some? ==>
          r.memory == Some(Amounts(s.totalMemory.value * memory / (1000 * replicas),
                                   3 * (s.totalMemory.value * memory) / (10000 * replicas))))
  }

  lemma RowGets(s: Settings, sized: Profiles, i: nat, replicas: nat)
    requires s.size == "" && i < |Table(s)| && replicas >= 1
    ensures Gets(s, sized, Table(s)[i].component, replicas, Table(s)[i].cpu, Table(s)[i].memory)
  {
    FindsRow(s, i);
    var share := Table(s)[i];
    if s.totalCpu.Some? { ExactAmounts(s.totalCpu.value, share.cpu, replicas); }
    if s.totalMemory.Some? { ExactAmounts(s.totalMemory.value, share.memory, replicas); }
    hide Table, Limit, Request, Find;
  }

  /** Without gateway and Jaeger authentication. */
  lemma PlainLimits(s: Settings, sized: Profiles, replicas: nat)
    requires s.size == "" && !s.gateway && !s.authentication && replicas >= 1
    ensures Gets(s, sized, "distributor", replicas, 270, 120)
    ensures Gets(s, sized, "ingester", replicas, 380, 500)
    ensures Gets(s, sized, "compactor", replicas, 160, 180)
    ensures Gets(s, sized, "querier", replicas, 100, 150)
    ensures Gets(s, sized, "query-frontend", replicas, 45, 25)
    ensures Gets(s, sized, "jaeger-frontend", replicas, 45, 25)
  {
    hide Gets;
    RowGets(s, sized, 0, replicas);
    RowGets(s, sized, 1, replicas);
    RowGets(s, sized, 2, replicas);
    RowGets(s, sized, 3, replicas);
    RowGets(s, sized, 4, replicas);
    RowGets(s, sized, 5, replicas);
  }

  /** With Jaeger authentication, whether or not the gateway is enabled. */
  lemma ProxyLimits(s: Settings, sized: Profiles, replicas: nat)
    requires s.size == "" && s.authentication && replicas >= 1
    ensures Gets(s, sized, "distributor", replicas, 270, 120)
    ensures Gets(s, sized, "ingester", replicas, 380, 500)
    ensures Gets(s, sized, "compactor", replicas, 160, 180)
    ensures Gets(s, sized, "querier", replicas, 100, 150)
    ensures Gets(s, sized, "query-frontend", replicas, 45, 25)
    ensures Gets(s, sized, "query-frontend-proxy", replicas, 10, 10)
    ensures Gets(s, sized, "jaeger-frontend", replicas, 35, 15)
  {
    hide Gets;
    RowGets(s, sized, 0, replicas);
    RowGets(s, sized, 1, replicas);
    RowGets(s, sized, 2, replicas);
    RowGets(s, sized, 3, replicas);
    RowGets(s, sized, 4, replicas);
    RowGets(s, sized, 5, replicas);
    RowGets(s, sized, 6, replicas);
  }

  /** With the gateway. */
  lemma GatewayLimits(s: Settings, sized: Profiles, replicas: nat)
    requires s.size == "" && s.gateway && !s.authentication && replicas >= 1
    ensures Gets(s, sized, "distributor", replicas, 260, 110)
    ensures Gets(s, sized, "ingester", replicas, 360, 490)
    ensures Gets(s, sized, "compactor", replicas, 150, 170)
    ensures Gets(s, sized, "querier", replicas, 90, 140)
    ensures Gets(s, sized, "query-frontend", replicas, 40, 20)
    ensures Gets(s, sized, "jaeger-frontend", replicas, 40, 20)
    ensures Gets(s, sized, "gateway", replicas, 40, 30)
    ensures Gets(s, sized, "tempo-gateway-opa", replicas, 20, 20)
  {
    hide Gets;
    RowGets(s, sized, 0, replicas);
    RowGets(s, sized, 1, replicas);
    RowGets(s, sized, 2, replicas);
    RowGets(s, sized, 3, replicas);
    RowGets(s, sized, 4, replicas);
    RowGets(s, sized, 5, replicas);
    RowGets(s, sized, 6, replicas);
    RowGets(s, sized, 7, replicas);
  }
}
