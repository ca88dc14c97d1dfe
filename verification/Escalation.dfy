/** Labor-rate escalation: a flat-hold rate table, compounded year by year. */
module Escalation {
  import opened Wrappers

  const BASE_YEAR: int := 2026

  const GENERIC_RATES: map<int, real> :=
    map[2026 := 0.0283, 2027 := 0.054, 2028 := 0.0265, 2029 := 0.0196, 2030 := 0.0193, 2031 := 0.0203]

  /** A tenant's overrides; a year may be present without a rate. */
  type ClientRates = map<int, Option<real>>

  /** The generic table with every rate the tenant gives laid over it. */
  function Known(client: ClientRates): (rates: map<int, real>)
    ensures forall y :: y in rates <==> y in GENERIC_RATES || (y in client && client[y].Some?)
    ensures forall y | y in rates ::
              rates[y] == if y in client && client[y].Some? then client[y].value else GENERIC_RATES[y]
  {
    GENERIC_RATES + map y | y in client && client[y].Some? :: client[y].value
  }

  /** The year whose rate holds for `year`: the greatest known one not after it, else the earliest. */
  ghost predicate HoldsFor(known: set<int>, year: int, y: int) {
    && y in known
    && (y <= year ==> forall k | k in known && k <= year :: k <= y)
    && (y > year ==> forall k | k in known :: y <= k)
  }

  /** A known year `k` takes over from `y` when it is nearer below `year`, or smaller while nothing is below. */
  predicate TakesOver(k: int, y: int, year: int) {
    (y <= year && y < k <= year) || (y > year && k < y)
  }

  lemma HoldsForOneMore(known: set<int>, k: int, year: int, y: int)
    requires HoldsFor(known, year, y)
    ensures HoldsFor(known + {k}, year, if TakesOver(k, y, year) then k else y)
  {
  }

  /** From any known year the one that holds is reached, upwards while it may be later, else downwards. */
  lemma {:induction false} HoldsForExists(known: set<int>, year: int, from: int)
    requires from in known
    ensures exists y :: HoldsFor(known, year, y)
    decreases from > year, if from <= year then year - from else from - year
  {
    if from <= year {
      if k: int :| k in known && from < k <= year {
        HoldsForExists(known, year, k);
      } else {
        assert HoldsFor(known, year, from);
      }
    } else {
      if k: int :| k in known && k < from {
        HoldsForExists(known, year, k);
      } else {
        assert HoldsFor(known, year, from);
      }
    }
  }

  ghost function RateYear(known: set<int>, year: int): (y: int)
    requires BASE_YEAR in known
    ensures HoldsFor(known, year, y)
  {
    HoldsForExists(known, year, BASE_YEAR);
    var y :| HoldsFor(known, year, y);
    y
  }

  lemma GenericIsKnown(client: ClientRates)
    ensures BASE_YEAR in Known(client) && |Known(client).Keys| > 0
  {
    assert Known(client).Keys != {};
  }

  ghost function Rate(client: ClientRates, year: int): real {
    GenericIsKnown(client);
    Known(client)[RateYear(Known(client).Keys, year)]
  }

  method ResolveEscalationRate(year: int, client: ClientRates) returns (rate: real)
    ensures rate == Rate(client, year)
  {
    var rates := Known(client);
    GenericIsKnown(client);
    if year in rates {
      assert HoldsFor(rates.Keys, year, year);
      HoldsForIsUnique(rates.Keys, year, year, RateYear(rates.Keys, year));
      return rates[year];
    }
    var y := FindRateYear(rates.Keys, year);
    HoldsForIsUnique(rates.Keys, year, y, RateYear(rates.Keys, year));
    return rates[y];
  }

  /** The greatest known year up to `year`, or where there is none the smallest known year. */
  method FindRateYear(known: set<int>, year: int) returns (y: int)
    requires |known| > 0
    ensures HoldsFor(known, year, y)
  {
    y := Pick(known);
    var todo := known - {y};
    assert known - todo == {y};
    while |todo| > 0
      invariant todo <= known
      invariant HoldsFor(known - todo, year, y)
      decreases |todo|
    {
      var k := Pick(todo);
      HoldsForOneMore(known - todo, k, year, y);
      assert known - (todo - {k}) == (known - todo) + {k};
      if TakesOver(k, y, year) {
        y := k;
      }
      todo := todo - {k};
    }
    assert known - todo == known;
  }

  method Pick<T>(s: set<T>) returns (x: T)
    requires |s| > 0
    ensures x in s
  {
    x :| x in s;
  }

  /** Compound escalation from `base` up to, not including, `target`. */
  ghost function Factor(client: ClientRates, target: int, base: int): real
    decreases target - base
  {
    if target <= base then 1.0 else Factor(client, target - 1, base) * (1.0 + Rate(client, target - 1))
  }

  method ComputeCumulativeEscalationFactor(target: int, client: ClientRates, base: int) returns (factor: real)
    ensures factor == Factor(client, target, base)
  {
    if target <= base {
      return 1.0;
    }
    factor := 1.0;
    for yr := base to target
      invariant factor == Factor(client, yr, base)
    {
      var rate := ResolveEscalationRate(yr, client);
      factor := factor * (1.0 + rate);
    }
  }

  /** FTE that the same budget still buys in `year`. */
  ghost function Escalated(fte: real, year: int, client: ClientRates): real {
    var factor := Factor(client, year, BASE_YEAR);
    if factor <= 0.0 then fte else fte / factor
  }

  /** Escalating it again gives the FTE back. */
  lemma EscalatedMeans(fte: real, year: int, client: ClientRates)
    ensures Factor(client, year, BASE_YEAR) > 0.0 ==>
              Escalated(fte, year, client) * Factor(client, year, BASE_YEAR) == fte
    ensures Factor(client, year, BASE_YEAR) <= 0.0 ==> Escalated(fte, year, client) == fte
  {
    hide Factor;
  }

  /** A year that the tenant gives a rate has that rate. */
  lemma GivenRateHolds(client: ClientRates, y: int)
    requires y in client && client[y].Some?
    ensures Rate(client, y) == client[y].value
  {
    GenericIsKnown(client);
    HoldsForIsUnique(Known(client).Keys, y, y, RateYear(Known(client).Keys, y));
  }

  /** Without overrides the rates run from 2.83 percent for 2026 and before to 2.03 percent for 2031 and after. */
  lemma GenericRates(y: int)
    ensures Rate(map[], y) ==
            if y <= 2026 then 0.0283 else if y == 2027 then 0.054 else if y == 2028 then 0.0265
            else if y == 2029 then 0.0196 else if y == 2030 then 0.0193 else 0.0203
  {
    var none: ClientRates := map[];
    GenericIsKnown(none);
    GenericTable();
    var nearest := if y < 2026 then 2026 else if y > 2031 then 2031 else y;
    hide GENERIC_RATES;
    assert HoldsFor(Known(none).Keys, y, nearest);
    HoldsForIsUnique(Known(none).Keys, y, nearest, RateYear(Known(none).Keys, y));
    assert Rate(none, y) == GENERIC_RATES[nearest];
  }

  lemma GenericTable()
    ensures forall y :: y in GENERIC_RATES <==> 2026 <= y <= 2031
    ensures GENERIC_RATES[2026] == 0.0283 && GENERIC_RATES[2027] == 0.054 && GENERIC_RATES[2028] == 0.0265
    ensures GENERIC_RATES[2029] == 0.0196 && GENERIC_RATES[2030] == 0.0193 && GENERIC_RATES[2031] == 0.0203
  {
  }

  /** Without overrides the first three yearly steps are 2.83, 5.4 and 2.65 percent. */
  lemma GenericFactors()
    ensures Factor(map[], 2029, 2026) == 1.0283 * 1.054 * 1.0265
  {
    GenericRates(2026);
    GenericRates(2027);
    GenericRates(2028);
    hide Rate;
    var none: ClientRates := map[];
    assert Factor(none, 2026, 2026) == 1.0;
    assert Factor(none, 2027, 2026) == 1.0283;
    assert Factor(none, 2028, 2026) == 1.0283 * 1.054;
  }

  method ApplyEscalationToFte(fte: real, year: int, client: ClientRates) returns (r: real)
    ensures r == Escalated(fte, year, client)
    ensures Factor(client, year, BASE_YEAR) > 0.0 ==> r * Factor(client, year, BASE_YEAR) == fte
    ensures Factor(client, year, BASE_YEAR) <= 0.0 ==> r == fte
  {
    EscalatedMeans(fte, year, client);
    var factor := ComputeCumulativeEscalationFactor(year, client, BASE_YEAR);
    r := if factor <= 0.0 then fte else fte / factor;
  }

  // ----- Algebra of the factor -----

  /** The factor over a range is the product over its parts. */
  lemma {:induction false} FactorSplits(client: ClientRates, base: int, mid: int, target: int)
    requires base <= mid <= target
    ensures Factor(client, target, base) == Factor(client, mid, base) * Factor(client, target, mid)
    decreases target - mid
  {
    hide Rate;
    if mid < target {
      FactorSplits(client, base, mid, target - 1);
      var rate := 1.0 + Rate(client, target - 1);
      ProductAssociates(Factor(client, mid, base), Factor(client, target - 1, mid), rate);
    }
  }

  lemma ProductAssociates(a: real, b: real, c: real)
    ensures (a * b) * c == a * (b * c)
  {
  }

  predicate AboveMinusOne(client: ClientRates) {
    forall y | y in Known(client) :: Known(client)[y] > -1.0
  }

  lemma {:induction false} FactorIsPositive(client: ClientRates, target: int, base: int)
    requires AboveMinusOne(client)
    ensures Factor(client, target, base) > 0.0
    decreases target - base
  {
    hide Rate;
    if target > base {
      FactorIsPositive(client, target - 1, base);
      RateAbove(client, target - 1);
      var before, step := Factor(client, target - 1, base), 1.0 + Rate(client, target - 1);
      ProductIsPositive(before, step);
      assert Factor(client, target, base) == before * step;
    }
  }

  lemma RateAbove(client: ClientRates, year: int)
    requires AboveMinusOne(client)
    ensures Rate(client, year) > -1.0
  {
  }

  lemma ProductIsPositive(a: real, b: real)
    requires a > 0.0 && b > 0.0
    ensures a * b > 0.0
  {
  }

  // ----- Overriding one year -----

  lemma KnownAfter(client: ClientRates, y: int, rate: real)
    ensures var changed := client[y := Some(rate)];
            && Known(changed).Keys == Known(client).Keys + {y} && Known(changed)[y] == rate
            && forall k | k in Known(client) && k != y :: Known(changed)[k] == Known(client)[k]
  {
  }

  /** A year's rate once its holding year is known. */
  lemma RateFrom(client: ClientRates, year: int, y: int)
    requires HoldsFor(Known(client).Keys, year, y)
    ensures Rate(client, year) == Known(client)[y]
  {
    GenericIsKnown(client);
    HoldsForIsUnique(Known(client).Keys, year, y, RateYear(Known(client).Keys, year));
  }

  lemma HoldsForIsUnique(known: set<int>, year: int, y: int, z: int)
    requires HoldsFor(known, year, y) && HoldsFor(known, year, z)
    ensures y == z
  {
  }

  /** The first known year after `y`, or that there is none. */
  ghost predicate NextKnown(known: set<int>, y: int, z: Option<int>) {
    match z
    case Some(next) => y < next && next in known && forall k | k in known :: k <= y || next <= k
    case None => forall k | k in known :: k <= y
  }

  lemma NextKnownExists(known: set<int>, y: int)
    ensures exists z :: NextKnown(known, y, z)
  {
    if k: int :| k in known && y < k {
      NextKnownBelow(known, y, k);
    } else {
      assert NextKnown(known, y, None);
    }
  }

  lemma {:induction false} NextKnownBelow(known: set<int>, y: int, from: int)
    requires from in known && y < from
    ensures exists z :: NextKnown(known, y, z)
    decreases from - y
  {
    if k: int :| k in known && y < k < from {
      NextKnownBelow(known, y, k);
    } else {
      assert NextKnown(known, y, Some(from));
    }
  }

  /** The years an override of `y` reaches: up to the next known year, and all earlier ones where it is the first known. */
  ghost predicate Reaches(known: set<int>, y: int, z: Option<int>, year: int) {
    || (y <= year && (z.Some? ==> year < z.value))
    || (year < y && forall k | k in known :: y <= k)
  }

  lemma HoldsAfter(known: set<int>, y: int, z: Option<int>, year: int, held: int)
    requires NextKnown(known, y, z) && HoldsFor(known, year, held)
    ensures HoldsFor(known + {y}, year, if Reaches(known, y, z, year) then y else held)
    ensures held == y ==> Reaches(known, y, z, year)
  {
  }

  /** An override moves the rate of exactly the years it reaches. */
  lemma OverrideIsLocal(client: ClientRates, y: int, z: Option<int>, rate: real, year: int)
    requires NextKnown(Known(client).Keys, y, z)
    ensures Rate(client[y := Some(rate)], year) ==
            if Reaches(Known(client).Keys, y, z, year) then rate else Rate(client, year)
  {
    hide Rate;
    var changed := client[y := Some(rate)];
    KnownAfter(client, y, rate);
    GenericIsKnown(client);
    var held := RateYear(Known(client).Keys, year);
    HoldsAfter(Known(client).Keys, y, z, year, held);
    hide Known, HoldsFor, Reaches, NextKnown;
    RateFrom(client, year, held);
    RateFrom(changed, year, if Reaches(Known(client).Keys, y, z, year) then y else held);
  }

  /** Up to the next known year the rate was that of `y` before, too. */
  lemma SameRateUpTo(client: ClientRates, y: int, z: Option<int>, year: int)
    requires BASE_YEAR <= y <= year && NextKnown(Known(client).Keys, y, z) && (z.Some? ==> year < z.value)
    ensures Rate(client, year) == Rate(client, y)
  {
    GenericIsKnown(client);
    var held := RateYear(Known(client).Keys, y);
    assert BASE_YEAR in Known(client).Keys;
    assert HoldsFor(Known(client).Keys, year, held);
    RateFrom(client, year, held);
  }

  /** A year before `y` is not reached, and one from `y` on exactly up to the next known year. */
  lemma RateMoved(client: ClientRates, y: int, z: Option<int>, rate: real, year: int)
    requires BASE_YEAR <= y && BASE_YEAR <= year && NextKnown(Known(client).Keys, y, z)
    ensures var moved := y <= year && (z.Some? ==> year < z.value);
            && Rate(client[y := Some(rate)], year) == (if moved then rate else Rate(client, year))
            && (moved ==> Rate(client, year) == Rate(client, y))
  {
    hide Rate, Known, NextKnown;
    OverrideIsLocal(client, y, z, rate, year);
    GenericIsKnown(client);
    assert BASE_YEAR in Known(client).Keys;
    if y <= year && (z.Some? ==> year < z.value) {
      SameRateUpTo(client, y, z, year);
    }
  }

  lemma {:induction false} OverrideLeavesEarlier(client: ClientRates, y: int, z: Option<int>, rate: real, target: int)
    requires BASE_YEAR <= y && NextKnown(Known(client).Keys, y, z) && target <= y
    ensures Factor(client[y := Some(rate)], target, BASE_YEAR) == Factor(client, target, BASE_YEAR)
    decreases target - BASE_YEAR
  {
    hide Rate, NextKnown, Known;
    if target > BASE_YEAR {
      OverrideLeavesEarlier(client, y, z, rate, target - 1);
      RateMoved(client, y, z, rate, target - 1);
    }
  }

  function Power(x: real, n: nat): real {
    if n == 0 then 1.0 else Power(x, n - 1) * x
  }

  /** How many of the years before `target` the override of `y` moves. */
  function Span(y: int, z: Option<int>, target: int): nat {
    if target <= y || (z.Some? && z.value <= y) then 0
    else (if z.Some? && z.value < target then z.value else target) - y
  }

  /** `changed` is `factor` with `n` yearly steps `u` replaced by `v`. */
  predicate Scales(changed: real, factor: real, u: real, v: real, n: nat) {
    changed * Power(u, n) == factor * Power(v, n)
  }

  lemma ScalesAlike(changed: real, factor: real, u: real, v: real, n: nat, step: real)
    requires Scales(changed, factor, u, v, n)
    ensures Scales(changed * step, factor * step, u, v, n)
  {
    var p, q := Power(u, n), Power(v, n);
    assert (changed * step) * p == (changed * p) * step && (factor * step) * q == (factor * q) * step;
  }

  lemma ScalesOnce(changed: real, factor: real, u: real, v: real, n: nat)
    requires Scales(changed, factor, u, v, n)
    ensures Scales(changed * v, factor * u, u, v, n + 1)
  {
    var p, q := Power(u, n), Power(v, n);
    assert (changed * v) * (p * u) == (changed * p) * (u * v);
    assert (factor * u) * (q * v) == (factor * q) * (u * v);
  }

  lemma ScalesNone(factor: real, u: real, v: real)
    ensures Scales(factor, factor, u, v, 0)
  {
  }

  lemma {:induction false} OverrideScales(client: ClientRates, y: int, z: Option<int>, rate: real, target: int)
    requires BASE_YEAR <= y && NextKnown(Known(client).Keys, y, z)
    ensures Scales(Factor(client[y := Some(rate)], target, BASE_YEAR), Factor(client, target, BASE_YEAR),
                   1.0 + Rate(client, y), 1.0 + rate, Span(y, z, target))
    decreases target - y
  {
    hide Rate, Known, NextKnown, Scales, Factor;
    var changed := client[y := Some(rate)];
    var b, u, v := Factor(client, target - 1, BASE_YEAR), 1.0 + Rate(client, y), 1.0 + rate;
    if target <= y {
      OverrideLeavesEarlier(client, y, z, rate, target);
      ScalesNone(Factor(client, target, BASE_YEAR), u, v);
    } else {
      OverrideScales(client, y, z, rate, target - 1);
      RateMoved(client, y, z, rate, target - 1);
      SpanGrows(Known(client).Keys, y, z, target);
      FactorGrows(client, target);
      FactorGrows(changed, target);
      hide Span;
      var a, n, step := Factor(changed, target - 1, BASE_YEAR), Span(y, z, target - 1), 1.0 + Rate(client, target - 1);
      if z.Some? && z.value < target {
        assert Factor(changed, target, BASE_YEAR) == a * step && Factor(client, target, BASE_YEAR) == b * step;
        ScalesAlike(a, b, u, v, n, step);
      } else {
        assert 1.0 + Rate(changed, target - 1) == v && step == u;
        assert Factor(changed, target, BASE_YEAR) == a * v && Factor(client, target, BASE_YEAR) == b * u;
        ScalesOnce(a, b, u, v, n);
      }
    }
  }

  lemma SpanGrows(known: set<int>, y: int, z: Option<int>, target: int)
    requires NextKnown(known, y, z) && target > y
    ensures Span(y, z, target) == Span(y, z, target - 1) + if z.Some? && z.value < target then 0 else 1
  {
  }

  lemma FactorGrows(client: ClientRates, target: int)
    requires target > BASE_YEAR
    ensures Factor(client, target, BASE_YEAR) == Factor(client, target - 1, BASE_YEAR) * (1.0 + Rate(client, target - 1))
  {
    hide Rate;
  }

  lemma ScalesMeans(changed: real, factor: real, u: real, v: real, n: nat)
    requires Scales(changed, factor, u, v, n)
    ensures changed * Power(u, n) == factor * Power(v, n)
  {
  }

  /** Each factor scales by the power of the ratio of the yearly steps, once for every year moved before the target. */
  lemma OverrideScalesLater(client: ClientRates, y: int, z: Option<int>, rate: real, target: int)
    requires BASE_YEAR <= y && NextKnown(Known(client).Keys, y, z)
    ensures Factor(client[y := Some(rate)], target, BASE_YEAR) * Power(1.0 + Rate(client, y), Span(y, z, target)) ==
            Factor(client, target, BASE_YEAR) * Power(1.0 + rate, Span(y, z, target))
  {
    hide Rate, Known, NextKnown, Factor, Power, Span, Scales;
    OverrideScales(client, y, z, rate, target);
    ScalesMeans(Factor(client[y := Some(rate)], target, BASE_YEAR), Factor(client, target, BASE_YEAR),
                1.0 + Rate(client, y), 1.0 + rate, Span(y, z, target));
  }

  /**
   Overriding the last known year is held flat: it leaves the factors up to that year alone and
   compounds into every later one.
   */
  lemma LastOverrideCompounds(client: ClientRates, y: int, rate: real, target: int)
    requires BASE_YEAR <= y && forall k | k in Known(client) :: k <= y
    ensures var changed := client[y := Some(rate)];
            && (target <= y ==> Factor(changed, target, BASE_YEAR) == Factor(client, target, BASE_YEAR))
            && (target >= y ==>
                  && Factor(changed, target, BASE_YEAR) == Factor(client, y, BASE_YEAR) * Power(1.0 + rate, target - y)
                  && Factor(changed, target, BASE_YEAR) * Power(1.0 + Rate(client, y), target - y) ==
                     Factor(client, target, BASE_YEAR) * Power(1.0 + rate, target - y))
  {
    assert NextKnown(Known(client).Keys, y, None);
    hide Known, Rate, NextKnown, Factor, Power, Scales;
    if target <= y {
      OverrideLeavesEarlier(client, y, None, rate, target);
    }
    if target >= y {
      HeldFlat(client, y, rate, target);
      FlatScales(client, y, rate, target);
    }
  }

  lemma FlatScales(client: ClientRates, y: int, rate: real, target: int)
    requires BASE_YEAR <= y <= target && NextKnown(Known(client).Keys, y, None)
    ensures Factor(client[y := Some(rate)], target, BASE_YEAR) * Power(1.0 + Rate(client, y), target - y) ==
            Factor(client, target, BASE_YEAR) * Power(1.0 + rate, target - y)
  {
    hide Known, Rate, NextKnown, Factor, Power, Scales;
    OverrideScales(client, y, None, rate, target);
    ScalesMeans(Factor(client[y := Some(rate)], target, BASE_YEAR), Factor(client, target, BASE_YEAR),
                1.0 + Rate(client, y), 1.0 + rate, target - y);
  }

  lemma {:induction false} HeldFlat(client: ClientRates, y: int, rate: real, target: int)
    requires BASE_YEAR <= y <= target && NextKnown(Known(client).Keys, y, None)
    ensures Factor(client[y := Some(rate)], target, BASE_YEAR) == Factor(client, y, BASE_YEAR) * Power(1.0 + rate, target - y)
    decreases target - y
  {
    hide Rate, Known;
    if target == y {
      OverrideLeavesEarlier(client, y, None, rate, y);
    } else {
      HeldFlat(client, y, rate, target - 1);
      OverrideIsLocal(client, y, None, rate, target - 1);
      ProductAssociates(Factor(client, y, BASE_YEAR), Power(1.0 + rate, target - 1 - y), 1.0 + rate);
    }
  }
}
