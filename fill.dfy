/**
 * The fill model and the per-tier evaluation of the FRAG token sale.
 *
 * A tier sells `supply` tokens at `price` bbSOL each, so it absorbs
 * `supply * price` bbSOL before it is oversubscribed. A deposit of
 * `increment` bbSOL into a tier that already holds `raised` bbSOL is
 * filled pro rata: the filled fraction is `min(1, capacity / (raised +
 * increment))`. The script writes this formula out four times (the
 * 10-bbSOL simulation, the allocator's one-unit probe, the allocator's
 * totals and the price sweep); here it is one total function, `Evaluate`,
 * and each of those places is an instance of it.
 *
 * Amounts are exact reals; the script's IEEE floats are not modelled.
 */
module ProRata {
  import opened Wrappers

  /** A sale tier: token price in bbSOL and total token supply. */
  datatype Tier = Tier(price: real, supply: nat)

  /** The five tiers of the launch, fixed at the top of the script. */
  const Registry: seq<Tier> := [
    Tier(0.000152709, 1600000),
    Tier(0.000213793, 1600000),
    Tier(0.000274876, 1600000),
    Tier(0.00033596, 1600000),
    Tier(0.000397044, 1600000)
  ]

  /** The deposit the script simulates per tier and sweeps over prices. */
  const SimulatedDeposit: real := 10.0

  /** The budget the script hands to the greedy allocator. */
  const AllocationBudget: real := 10.0

  /**
   * bbSOL a tier absorbs before it is oversubscribed: exactly what buys its
   * whole token supply at the tier's price.
   */
  function Capacity(t: Tier): (c: real)
    ensures t.price >= 0.0 ==> c >= 0.0
    ensures t.price > 0.0 ==> c / t.price == t.supply as real
    ensures t.price > 0.0 && t.supply > 0 ==> c > 0.0
  {
    t.supply as real * t.price
  }

  /** Python's `min(a, b)`: `a` unless `b` is strictly smaller. */
  function Min(a: real, b: real): real
  {
    if b < a then b else a
  }

  /** Filled fraction of a deposit, and the bbSOL of it actually used. */
  datatype Filled = Filled(pct: real, used: real)

  /**
   * Pro-rata fill of `increment` bbSOL into a tier of the given capacity
   * that already holds `raised`. A zero or negative denominator yields a zero
   * fraction.
   */
  function Fill(capacity: real, raised: real, increment: real): (r: Filled)
    ensures capacity >= 0.0 ==> 0.0 <= r.pct <= 1.0
    ensures raised + increment <= 0.0 ==> r.pct == 0.0
    ensures capacity >= 0.0 && increment >= 0.0 ==> 0.0 <= r.used <= increment
  {
    var denominator := raised + increment;
    var pct := if denominator > 0.0 then Min(1.0, capacity / denominator) else 0.0;
    assert capacity >= 0.0 && increment >= 0.0 ==> 0.0 <= increment * pct <= increment by {
      if capacity >= 0.0 && increment >= 0.0 {
        ScaleWithin(increment, pct);
      }
    }
    Filled(pct, increment * pct)
  }

  /** No rationing while the tier, with this deposit, stays within capacity. */
  lemma FillWithinCapacity(capacity: real, raised: real, increment: real)
    requires raised >= 0.0 && increment >= 0.0
    requires raised + increment <= capacity
    ensures Fill(capacity, raised, increment).used == increment
    ensures raised + increment > 0.0 ==> Fill(capacity, raised, increment).pct == 1.0
  {
    if raised + increment > 0.0 {
      QuotAtLeastOne(capacity, raised + increment);
    }
  }

  /**
   * Once the deposit pushes the tier past capacity, every depositor gets the
   * same fraction `capacity / (raised + increment)`: the deposit is strictly
   * rationed, yet a positive slice of it is still filled.
   */
  lemma FillRationed(capacity: real, raised: real, increment: real)
    requires raised >= 0.0 && increment >= 0.0 && capacity >= 0.0
    requires raised + increment > capacity
    ensures Fill(capacity, raised, increment).pct < 1.0
    ensures Fill(capacity, raised, increment).pct * (raised + increment) == capacity
    ensures Fill(capacity, raised, increment).used * (raised + increment) == increment * capacity
    ensures increment > 0.0 ==> Fill(capacity, raised, increment).used < increment
    ensures increment > 0.0 && capacity > 0.0 ==> Fill(capacity, raised, increment).used > 0.0
  {
    var d := raised + increment;
    QuotBelowOne(capacity, d);
    var pct := capacity / d;
    assert Fill(capacity, raised, increment) == Filled(pct, increment * pct);
    MulAssoc(increment, pct, d);
    ScaleBelow(increment, pct);
    PositiveProduct(increment, capacity / d, capacity, d);
  }

  /**
   * The fill can exceed the tier's remaining headroom: a tier that already
   * holds something and is pushed past capacity still fills more than
   * `capacity - raised`.
   */
  lemma FillExceedsHeadroom(capacity: real, raised: real, increment: real)
    requires raised > 0.0 && increment > 0.0 && capacity >= 0.0
    requires raised + increment > capacity
    ensures Fill(capacity, raised, increment).used > capacity - raised
  {
    var d := raised + increment;
    FillRationed(capacity, raised, increment);
    var used := Fill(capacity, raised, increment).used;
    // (used - (capacity - raised)) * d == raised * (d - capacity) > 0
    var excess := d - capacity;
    var gap := used - (capacity - raised);
    assert gap * d == raised * excess;
    PositiveFactor(raised, excess);
    PositiveFromProduct(gap, d);
  }

  // Small facts of real arithmetic used by the proofs above.

  lemma QuotAtLeastOne(x: real, d: real)
    requires d > 0.0 && x >= d
    ensures x / d >= 1.0 && Min(1.0, x / d) == 1.0
  {
  }

  lemma QuotBelowOne(x: real, d: real)
    requires d > 0.0 && 0.0 <= x < d
    ensures 0.0 <= x / d < 1.0 && Min(1.0, x / d) == x / d
    ensures (x / d) * d == x
  {
    var q := x / d;
    assert (q - 1.0) * d == x - d;
    NegativeFromProduct(q - 1.0, d);
  }

  lemma NegativeFromProduct(y: real, d: real)
    requires d > 0.0 && y * d < 0.0
    ensures y < 0.0
  {
  }

  lemma AboveHundredPercent(o: real, c: real, x: real)
    requires c > 0.0 && o > 100.0 && o * c == 100.0 * x
    ensures x > c
  {
    StrictMul(c, 100.0, o);
  }

  lemma StrictMul(c: real, a: real, b: real)
    requires c > 0.0 && a < b
    ensures c * a < c * b
  {
  }

  lemma MulAssoc(a: real, b: real, c: real)
    ensures (a * b) * c == a * (b * c)
  {
  }

  lemma ScaleWithin(x: real, p: real)
    requires x >= 0.0 && 0.0 <= p <= 1.0
    ensures 0.0 <= x * p <= x
  {
  }

  lemma ScaleBelow(x: real, p: real)
    requires 0.0 <= p < 1.0
    ensures x > 0.0 ==> x * p < x
  {
  }

  lemma PositiveFactor(a: real, b: real)
    requires a > 0.0 && b > 0.0
    ensures a * b > 0.0
  {
  }

  lemma PositiveFromProduct(x: real, d: real)
    requires d > 0.0 && x * d > 0.0
    ensures x > 0.0
  {
  }

  lemma PositiveProduct(x: real, q: real, n: real, d: real)
    requires d > 0.0 && q == n / d && n >= 0.0
    ensures x > 0.0 && n > 0.0 ==> x * q > 0.0
  {
  }

  /** What a deposit into one tier yields, in bbSOL, tokens and USD. */
  datatype Evaluation = Evaluation(
    pctAllocated: real,
    used: real,
    tokens: real,
    usdSpent: real,
    usdReceived: real,
    profitUsd: real,
    profitPct: real)

  /**
   * Deposit `increment` bbSOL into tier `t` holding `raised`, with bbSOL
   * worth `rate` USD and FRAG resold at `resale` USD. The two divisions are
   * guarded: no tokens at a non-positive price, no percentage when nothing
   * was spent.
   */
  function Evaluate(t: Tier, raised: real, increment: real, rate: real, resale: real): (e: Evaluation)
    ensures e.pctAllocated == Fill(Capacity(t), raised, increment).pct
    ensures e.used == Fill(Capacity(t), raised, increment).used
    ensures t.price > 0.0 ==> e.tokens * t.price == e.used
    ensures t.price <= 0.0 ==> e.tokens == 0.0
    ensures e.usdSpent > 0.0 ==> e.profitPct * e.usdSpent == 100.0 * e.profitUsd
    ensures e.usdSpent <= 0.0 ==> e.profitPct == 0.0
  {
    var f := Fill(Capacity(t), raised, increment);
    var tokens := if t.price > 0.0 then f.used / t.price else 0.0;
    var usdReceived := tokens * resale;
    var usdSpent := f.used * rate;
    var profitUsd := usdReceived - usdSpent;
    var profitPct := if usdSpent > 0.0 then (usdReceived / usdSpent - 1.0) * 100.0 else 0.0;
    Evaluation(f.pct, f.used, tokens, usdSpent, usdReceived, profitUsd, profitPct)
  }

  /**
   * Profit per bbSOL used: each bbSOL buys tokens at the tier's price,
   * resold at `resale` and paid for at `rate`.
   */
  lemma ProfitPerTierPrice(t: Tier, raised: real, increment: real, rate: real, resale: real)
    ensures t.price > 0.0 ==>
              Evaluate(t, raised, increment, rate, resale).profitUsd * t.price
              == Fill(Capacity(t), raised, increment).used * (resale - rate * t.price)
    ensures t.price <= 0.0 ==>
              Evaluate(t, raised, increment, rate, resale).profitUsd == -(Fill(Capacity(t), raised, increment).used * rate)
  {
    var e := Evaluate(t, raised, increment, rate, resale);
    var used := Fill(Capacity(t), raised, increment).used;
    assert e.profitUsd == e.tokens * resale - used * rate;
    if t.price > 0.0 {
      ProfitScaled(e.tokens, t.price, used, resale, rate);
    }
  }

  lemma ProfitScaled(tokens: real, tierPrice: real, used: real, price: real, rate: real)
    requires tierPrice > 0.0 && tokens * tierPrice == used
    ensures (tokens * price - used * rate) * tierPrice == used * (price - rate * tierPrice)
  {
    calc {
      (tokens * price - used * rate) * tierPrice;
      tokens * tierPrice * price - used * rate * tierPrice;
      used * (price - rate * tierPrice);
    }
  }

  /** Tokens received are never negative for a non-negative deposit. */
  lemma TokensNonNegative(t: Tier, raised: real, increment: real, rate: real, resale: real)
    requires increment >= 0.0
    ensures Evaluate(t, raised, increment, rate, resale).tokens >= 0.0
  {
    var f := Fill(Capacity(t), raised, increment);
    if t.price > 0.0 {
      assert Capacity(t) >= 0.0;
      assert f.used >= 0.0;
      assert f.used / t.price >= 0.0;
    }
  }

  /**
   * With the tier, its raised amount and the deposit fixed, profit in USD is
   * non-decreasing in the resale price, and strictly increasing once any
   * tokens are received. Fill, tokens and cost do not depend on the price.
   */
  lemma ProfitMonotoneInResale(t: Tier, raised: real, increment: real, rate: real, low: real, high: real)
    requires increment >= 0.0 && low <= high
    ensures Evaluate(t, raised, increment, rate, low).tokens == Evaluate(t, raised, increment, rate, high).tokens
    ensures Evaluate(t, raised, increment, rate, low).usdSpent == Evaluate(t, raised, increment, rate, high).usdSpent
    ensures Evaluate(t, raised, increment, rate, low).profitUsd <= Evaluate(t, raised, increment, rate, high).profitUsd
    ensures Evaluate(t, raised, increment, rate, low).tokens > 0.0 && low < high ==>
              Evaluate(t, raised, increment, rate, low).profitUsd < Evaluate(t, raised, increment, rate, high).profitUsd
  {
    TokensNonNegative(t, raised, increment, rate, low);
    var tokens := Evaluate(t, raised, increment, rate, low).tokens;
    assert tokens * low <= tokens * high;
    if tokens > 0.0 && low < high {
      assert tokens * low < tokens * high;
    }
  }

  /**
   * The overfund percentage `raised / capacity * 100`; `None` where the
   * script divides by a zero capacity and stops with an error.
   */
  function Overfund(t: Tier, raised: real): (r: Option<real>)
    ensures r.None? <==> Capacity(t) == 0.0
    ensures r.Some? ==> r.value * Capacity(t) == 100.0 * raised
  {
    if Capacity(t) == 0.0 then None else Some(raised / Capacity(t) * 100.0)
  }

  /**
   * An overfund above 100% means the tier already holds more than it can
   * absorb, so any new deposit into it is rationed.
   */
  lemma OverfundMeansRationing(t: Tier, raised: real, increment: real, rate: real, resale: real)
    requires Capacity(t) > 0.0 && raised >= 0.0 && increment >= 0.0
    requires Overfund(t, raised).Some? && Overfund(t, raised).value > 100.0
    ensures raised > Capacity(t)
    ensures Evaluate(t, raised, increment, rate, resale).pctAllocated < 1.0
  {
    var c := Capacity(t);
    var o := Overfund(t, raised).value;
    AboveHundredPercent(o, c, raised);
    FillRationed(c, raised, increment);
  }

  /** One row of the 10-bbSOL simulation table: the overfund and the evaluation. */
  datatype Row = Row(overfund: real, eval: Evaluation)

  /**
   * The per-tier simulation: deposit `deposit` into every tier on its own.
   * `None` when some tier has zero capacity, where the script's overfund
   * division fails.
   */
  method SimulateDeposit(tiers: seq<Tier>, raised: seq<nat>, deposit: real, rate: real, resale: real)
    returns (rows: Option<seq<Row>>)
    requires |raised| == |tiers|
    ensures rows.None? <==> exists i :: 0 <= i < |tiers| && Capacity(tiers[i]) == 0.0
    ensures rows.Some? ==> |rows.value| == |tiers|
    ensures rows.Some? ==> forall i :: 0 <= i < |tiers| ==>
              Overfund(tiers[i], raised[i] as real) == Some(rows.value[i].overfund) &&
              rows.value[i].eval == Evaluate(tiers[i], raised[i] as real, deposit, rate, resale)
  {
    var results: seq<Row> := [];
    for i := 0 to |tiers|
      invariant |results| == i
      invariant forall k :: 0 <= k < i ==>
                  Overfund(tiers[k], raised[k] as real) == Some(results[k].overfund) &&
                  results[k].eval == Evaluate(tiers[k], raised[k] as real, deposit, rate, resale)
    {
      var overfund := Overfund(tiers[i], raised[i] as real);
      if overfund.None? {
        return None;
      }
      results := results + [Row(overfund.value, Evaluate(tiers[i], raised[i] as real, deposit, rate, resale))];
    }
    rows := Some(results);
  }

  /**
   * The first registry tier, empty, with a 10-bbSOL deposit: fully filled,
   * all 10 bbSOL used, 10 / 0.000152709 tokens.
   */
  lemma FirstTierScenario(rate: real, resale: real)
    ensures Capacity(Registry[0]) == 244.3344
    ensures Evaluate(Registry[0], 0.0, SimulatedDeposit, rate, resale).pctAllocated == 1.0
    ensures Evaluate(Registry[0], 0.0, SimulatedDeposit, rate, resale).used == 10.0
    ensures Evaluate(Registry[0], 0.0, SimulatedDeposit, rate, resale).tokens * 0.000152709 == 10.0
  {
    FillWithinCapacity(Capacity(Registry[0]), 0.0, SimulatedDeposit);
  }
}
