/**
 * The greedy allocator and its aggregate totals.
 *
 * The budget is split into `int(budget)` whole bbSOL units. Each unit goes
 * to the tier whose one-unit deposit, evaluated against that tier's running
 * raised amount, yields the highest absolute USD profit; ties go to the
 * lowest tier index. The running raised amount of the chosen tier then grows
 * by one. This is a heuristic, not an exact optimiser.
 *
 * The totals then evaluate each tier once with its WHOLE allocation against
 * `raised + allocation`, which is not the sum of the one-unit fills the
 * allocator saw along the way.
 */
module Allocator {
  import opened Wrappers
  import opened ArgMax
  import opened ProRata

  /** The number of unit passes: Python's `int(budget)` fed to `range`. */
  function Steps(budget: real): (n: nat)
    ensures budget >= 0.0 ==> n as real <= budget < n as real + 1.0
    ensures budget < 1.0 ==> n == 0
  {
    if budget < 0.0 then 0 else budget.Floor
  }

  /** The script's 10-bbSOL budget gives ten unit passes. */
  lemma ScriptPasses()
    ensures Steps(AllocationBudget) == 10
  {
  }

  function SumNat(s: seq<nat>): nat
    decreases |s|
  {
    if s == [] then 0 else SumNat(s[..|s| - 1]) + s[|s| - 1]
  }

  lemma {:induction false} SumNatIncrement(s: seq<nat>, b: nat)
    requires b < |s|
    ensures SumNat(s[b := s[b] + 1]) == SumNat(s) + 1
    decreases |s|
  {
    var t := s[b := s[b] + 1];
    var n := |s| - 1;
    assert t[..n] == if b < n then s[..n][b := s[b] + 1] else s[..n];
    if b < n {
      SumNatIncrement(s[..n], b);
    }
  }

  lemma {:induction false} SumNatBoundsEntries(s: seq<nat>, i: nat)
    requires i < |s|
    ensures s[i] <= SumNat(s)
    decreases |s|
  {
    if i < |s| - 1 {
      SumNatBoundsEntries(s[..|s| - 1], i);
    }
  }

  function Zeros(n: nat): (z: seq<nat>)
    ensures |z| == n && SumNat(z) == 0
    ensures forall i :: 0 <= i < n ==> z[i] == 0
    decreases n
  {
    if n == 0 then [] else
      var z := Zeros(n - 1) + [0];
      assert z[..n - 1] == Zeros(n - 1);
      z
  }

  /** Each tier's raised amount once the allocation so far is added to it. */
  function RaisedNow(raised: seq<nat>, allocation: seq<nat>): (r: seq<real>)
    requires |allocation| == |raised|
    ensures |r| == |raised|
    ensures forall i :: 0 <= i < |raised| ==> r[i] == raised[i] as real + allocation[i] as real
  {
    seq(|raised|, i requires 0 <= i < |raised| => raised[i] as real + allocation[i] as real)
  }

  lemma RaisedNowIncrement(raised: seq<nat>, allocation: seq<nat>, b: nat)
    requires |allocation| == |raised| && b < |raised|
    ensures RaisedNow(raised, allocation[b := allocation[b] + 1])
            == RaisedNow(raised, allocation)[b := RaisedNow(raised, allocation)[b] + 1.0]
  {
    var after := allocation[b := allocation[b] + 1];
    assert forall i :: 0 <= i < |raised| ==>
      RaisedNow(raised, after)[i] == RaisedNow(raised, allocation)[b := RaisedNow(raised, allocation)[b] + 1.0][i];
  }

  /** A marginal gain: the value of one more unit in tier `i` holding `r`. */
  type Gain = (nat, real) -> real

  /**
   * The script's marginal gain: the USD profit of a one-bbSOL deposit into
   * tier `i`, evaluated against its running raised amount `r`.
   */
  function UnitProfit(tiers: seq<Tier>, rate: real, resale: real): (g: Gain)
    ensures forall i: nat, r: real :: i < |tiers| ==>
              g(i, r) == Evaluate(tiers[i], r, 1.0, rate, resale).profitUsd
  {
    (i: nat, r: real) => if i < |tiers| then Evaluate(tiers[i], r, 1.0, rate, resale).profitUsd else 0.0
  }

  /** The marginal gain of each tier given its running raised amount. */
  function MarginalProfits(gain: Gain, raisedNow: seq<real>): (m: seq<real>)
    ensures |m| == |raisedNow|
    ensures forall i :: 0 <= i < |raisedNow| ==> m[i] == gain(i, raisedNow[i])
  {
    seq(|raisedNow|, i requires 0 <= i < |raisedNow| => gain(i, raisedNow[i]))
  }

  /** The tier the allocator picks given the allocation so far. */
  function GreedyChoice(gain: Gain, raised: seq<nat>, allocation: seq<nat>): (b: nat)
    requires 0 < |raised| && |allocation| == |raised|
    ensures IsFirstArgMax(MarginalProfits(gain, RaisedNow(raised, allocation)), b)
  {
    FirstArgMax(MarginalProfits(gain, RaisedNow(raised, allocation)))
  }

  /**
   * Reference definition of the allocator: the allocation after `k` unit
   * passes. It always hands out exactly `k` units.
   */
  function GreedyAllocation(gain: Gain, raised: seq<nat>, k: nat): (a: seq<nat>)
    requires 0 < |raised|
    ensures |a| == |raised|
    ensures SumNat(a) == k
    decreases k
  {
    if k == 0 then Zeros(|raised|)
    else
      var prev := GreedyAllocation(gain, raised, k - 1);
      var b := GreedyChoice(gain, raised, prev);
      SumNatIncrement(prev, b);
      prev[b := prev[b] + 1]
  }

  /**
   * One allocator pass changes exactly one entry, by one unit, at the lowest
   * tier that maximises the marginal gain.
   */
  lemma GreedyStep(gain: Gain, raised: seq<nat>, k: nat)
    requires 0 < |raised|
    ensures var before := GreedyAllocation(gain, raised, k);
            var after := GreedyAllocation(gain, raised, k + 1);
            var b := GreedyChoice(gain, raised, before);
            b < |raised| && after == before[b := before[b] + 1] &&
            after[b] == before[b] + 1 &&
            forall j :: 0 <= j < |raised| && j != b ==> after[j] == before[j]
  {
  }

  /** No tier receives more units than were handed out. */
  lemma GreedyEntriesBounded(gain: Gain, raised: seq<nat>, k: nat, i: nat)
    requires 0 < |raised| && i < |raised|
    ensures GreedyAllocation(gain, raised, k)[i] <= k
  {
    SumNatBoundsEntries(GreedyAllocation(gain, raised, k), i);
  }

  /**
   * The inner scan of one pass: the running best starts empty (the script's
   * minus infinity) and is replaced on a strictly greater marginal profit.
   */
  method PickTier(tiers: seq<Tier>, raisedNow: seq<real>, rate: real, resale: real) returns (best: nat)
    requires 0 < |tiers| && |raisedNow| == |tiers|
    ensures IsFirstArgMax(MarginalProfits(UnitProfit(tiers, rate, resale), raisedNow), best)
  {
    ghost var m := MarginalProfits(UnitProfit(tiers, rate, resale), raisedNow);
    best := 0;
    var bestProfit: Option<real> := None;
    for i := 0 to |tiers|
      invariant best < |tiers|
      invariant bestProfit.None? <==> i == 0
      invariant bestProfit.Some? ==> best < i && bestProfit.value == m[best]
      invariant forall j :: 0 <= j < i ==> m[j] <= m[best]
      invariant forall j :: 0 <= j < best ==> m[j] < m[best]
    {
      var profit := Evaluate(tiers[i], raisedNow[i], 1.0, rate, resale).profitUsd;
      assert profit == m[i];
      if bestProfit.None? || profit > bestProfit.value {
        bestProfit := Some(profit);
        best := i;
      }
    }
  }

  /**
   * The allocator loop: `Steps(budget)` passes, each adding one unit to the
   * picked tier's allocation and to its running raised amount.
   */
  method Allocate(tiers: seq<Tier>, raised: seq<nat>, budget: real, rate: real, resale: real)
    returns (allocation: seq<nat>, raisedNow: seq<real>)
    requires 0 < |tiers| && |raised| == |tiers|
    ensures allocation == GreedyAllocation(UnitProfit(tiers, rate, resale), raised, Steps(budget))
    ensures |allocation| == |tiers| && SumNat(allocation) == Steps(budget)
    ensures raisedNow == RaisedNow(raised, allocation)
  {
    ghost var gain := UnitProfit(tiers, rate, resale);
    allocation := Zeros(|tiers|);
    raisedNow := seq(|raised|, i requires 0 <= i < |raised| => raised[i] as real);
    assert raisedNow == RaisedNow(raised, allocation);
    for step := 0 to Steps(budget)
      invariant |allocation| == |tiers| && SumNat(allocation) == step
      invariant allocation == GreedyAllocation(gain, raised, step)
      invariant raisedNow == RaisedNow(raised, allocation)
    {
      var best := PickTier(tiers, raisedNow, rate, resale);
      AllocatePass(gain, raised, step, allocation, raisedNow, best);
      allocation := allocation[best := allocation[best] + 1];
      raisedNow := raisedNow[best := raisedNow[best] + 1.0];
    }
  }

  /** One pass of `Allocate` re-establishes its loop invariant. */
  lemma AllocatePass(gain: Gain, raised: seq<nat>, step: nat,
                     allocation: seq<nat>, raisedNow: seq<real>, best: nat)
    requires 0 < |raised|
    requires allocation == GreedyAllocation(gain, raised, step)
    requires raisedNow == RaisedNow(raised, allocation)
    requires IsFirstArgMax(MarginalProfits(gain, raisedNow), best)
    ensures best < |allocation|
    ensures allocation[best := allocation[best] + 1] == GreedyAllocation(gain, raised, step + 1)
    ensures RaisedNow(raised, allocation[best := allocation[best] + 1]) == raisedNow[best := raisedNow[best] + 1.0]
  {
    PickedIsGreedyChoice(gain, raised, allocation, best);
    GreedyStep(gain, raised, step);
    RaisedNowIncrement(raised, allocation, best);
  }

  lemma PickedIsGreedyChoice(gain: Gain, raised: seq<nat>, allocation: seq<nat>, best: nat)
    requires 0 < |raised| && |allocation| == |raised|
    requires IsFirstArgMax(MarginalProfits(gain, RaisedNow(raised, allocation)), best)
    ensures best == GreedyChoice(gain, raised, allocation)
  {
    FirstArgMaxUnique(MarginalProfits(gain, RaisedNow(raised, allocation)), best,
                      GreedyChoice(gain, raised, allocation));
  }

  /** Aggregates over all tiers: USD return, bbSOL used and USD spent. */
  datatype Totals = Totals(totalReturn: real, usedTotal: real, spentTotal: real)

  /** Each tier evaluated once with its whole allocation against `raised + allocation`. */
  function Outcomes(tiers: seq<Tier>, raised: seq<nat>, allocation: seq<nat>, rate: real, resale: real)
    : (es: seq<Evaluation>)
    requires |raised| == |tiers| && |allocation| == |tiers|
    ensures |es| == |tiers|
    ensures forall i :: 0 <= i < |tiers| ==>
              es[i] == Evaluate(tiers[i], raised[i] as real, allocation[i] as real, rate, resale)
  {
    seq(|tiers|, i requires 0 <= i < |tiers| =>
      Evaluate(tiers[i], raised[i] as real, allocation[i] as real, rate, resale))
  }

  /** Reference definition of the running sums, over a prefix of outcomes. */
  function TotalsOf(es: seq<Evaluation>): Totals
    decreases |es|
  {
    if es == [] then Totals(0.0, 0.0, 0.0)
    else
      var t := TotalsOf(es[..|es| - 1]);
      var e := es[|es| - 1];
      Totals(t.totalReturn + e.usdReceived, t.usedTotal + e.used, t.spentTotal + e.usdSpent)
  }

  /**
   * The totals loop, followed by the total profit `return - cost`.
   */
  method ComputeTotals(tiers: seq<Tier>, raised: seq<nat>, allocation: seq<nat>, rate: real, resale: real)
    returns (totals: Totals, profit: real)
    requires |raised| == |tiers| && |allocation| == |tiers|
    ensures totals == TotalsOf(Outcomes(tiers, raised, allocation, rate, resale))
    ensures profit == totals.totalReturn - totals.spentTotal
  {
    ghost var es := Outcomes(tiers, raised, allocation, rate, resale);
    var totalReturn, usedTotal, spentTotal := 0.0, 0.0, 0.0;
    for i := 0 to |tiers|
      invariant Totals(totalReturn, usedTotal, spentTotal) == TotalsOf(es[..i])
    {
      var e := Evaluate(tiers[i], raised[i] as real, allocation[i] as real, rate, resale);
      assert es[..i + 1][..i] == es[..i];
      totalReturn := totalReturn + e.usdReceived;
      usedTotal := usedTotal + e.used;
      spentTotal := spentTotal + e.usdSpent;
    }
    assert es[..|tiers|] == es;
    totals := Totals(totalReturn, usedTotal, spentTotal);
    profit := totalReturn - spentTotal;
  }

  /** When no price is negative, no tier uses more bbSOL than its allocation. */
  lemma EachTierWithinAllocation(tiers: seq<Tier>, raised: seq<nat>, allocation: seq<nat>, rate: real, resale: real)
    requires |raised| == |tiers| && |allocation| == |tiers|
    requires forall i :: 0 <= i < |tiers| ==> tiers[i].price >= 0.0
    ensures forall i :: 0 <= i < |tiers| ==>
              0.0 <= Outcomes(tiers, raised, allocation, rate, resale)[i].used <= allocation[i] as real
  {
    var es := Outcomes(tiers, raised, allocation, rate, resale);
    forall i | 0 <= i < |tiers|
      ensures 0.0 <= es[i].used <= allocation[i] as real
    {
      assert Capacity(tiers[i]) >= 0.0;
    }
  }

  /** When no price is negative, the total used lies between 0 and the units allocated. */
  lemma {:induction false} UsedWithinAllocation(tiers: seq<Tier>, raised: seq<nat>, allocation: seq<nat>, rate: real, resale: real)
    requires |raised| == |tiers| && |allocation| == |tiers|
    requires forall i :: 0 <= i < |tiers| ==> tiers[i].price >= 0.0
    ensures 0.0 <= TotalsOf(Outcomes(tiers, raised, allocation, rate, resale)).usedTotal <= SumNat(allocation) as real
    decreases |tiers|
  {
    var es := Outcomes(tiers, raised, allocation, rate, resale);
    if |tiers| > 0 {
      var n := |tiers| - 1;
      assert Outcomes(tiers[..n], raised[..n], allocation[..n], rate, resale) == es[..n];
      UsedWithinAllocation(tiers[..n], raised[..n], allocation[..n], rate, resale);
      assert Capacity(tiers[n]) >= 0.0;
      assert es[n].used <= allocation[n] as real;
    }
  }

  /**
   * With no tier pushed past capacity by its allocation, every allocated unit
   * is used.
   */
  lemma {:induction false} AllUsedWithinCapacity(tiers: seq<Tier>, raised: seq<nat>, allocation: seq<nat>, rate: real, resale: real)
    requires |raised| == |tiers| && |allocation| == |tiers|
    requires forall i :: 0 <= i < |tiers| ==> raised[i] as real + allocation[i] as real <= Capacity(tiers[i])
    ensures TotalsOf(Outcomes(tiers, raised, allocation, rate, resale)).usedTotal == SumNat(allocation) as real
    decreases |tiers|
  {
    var es := Outcomes(tiers, raised, allocation, rate, resale);
    if |tiers| > 0 {
      var n := |tiers| - 1;
      assert Outcomes(tiers[..n], raised[..n], allocation[..n], rate, resale) == es[..n];
      AllUsedWithinCapacity(tiers[..n], raised[..n], allocation[..n], rate, resale);
      FillWithinCapacity(Capacity(tiers[n]), raised[n] as real, allocation[n] as real);
    }
  }

  /**
   * The allocator and its totals together: the units handed out are
   * `int(budget)`, and the bbSOL actually used never exceeds them.
   */
  method AllocateAndTotal(tiers: seq<Tier>, raised: seq<nat>, budget: real, rate: real, resale: real)
    returns (allocation: seq<nat>, totals: Totals, profit: real)
    requires 0 < |tiers| && |raised| == |tiers|
    ensures |allocation| == |tiers| && SumNat(allocation) == Steps(budget)
    ensures allocation == GreedyAllocation(UnitProfit(tiers, rate, resale), raised, Steps(budget))
    ensures (forall i :: 0 <= i < |tiers| ==> tiers[i].price >= 0.0) ==>
              0.0 <= totals.usedTotal <= Steps(budget) as real &&
              (budget >= 0.0 ==> totals.usedTotal <= budget)
    ensures profit == totals.totalReturn - totals.spentTotal
  {
    var raisedNow;
    allocation, raisedNow := Allocate(tiers, raised, budget, rate, resale);
    totals, profit := ComputeTotals(tiers, raised, allocation, rate, resale);
    if forall i :: 0 <= i < |tiers| ==> tiers[i].price >= 0.0 {
      UsedWithinAllocation(tiers, raised, allocation, rate, resale);
    }
  }

  /**
   * The totals are not the sum of the allocator's one-unit fills. A single
   * capacity-1 tier already holding 1 receives both units of a budget of 2;
   * its one-unit probes fill 1/2 and then 1/3, 5/6 in all, while the totals
   * evaluate 2 units against 3 and find 2/3 used.
   */
  lemma TotalsAreNotMarginalSums(rate: real, resale: real)
    ensures GreedyAllocation(UnitProfit([Tier(1.0, 1)], rate, resale), [1], 2) == [2]
    ensures Evaluate(Tier(1.0, 1), 1.0, 1.0, rate, resale).used
            + Evaluate(Tier(1.0, 1), 2.0, 1.0, rate, resale).used == 5.0 / 6.0
    ensures TotalsOf(Outcomes([Tier(1.0, 1)], [1], [2], rate, resale)).usedTotal == 2.0 / 3.0
  {
    SingleTierTakesAll(UnitProfit([Tier(1.0, 1)], rate, resale), 1, 2);
    UnitTierFills();
    var es := Outcomes([Tier(1.0, 1)], [1], [2], rate, resale);
    assert es[..0] == [];
  }

  /** The three fills of a capacity-1 tier used by `TotalsAreNotMarginalSums`. */
  lemma UnitTierFills()
    ensures Capacity(Tier(1.0, 1)) == 1.0
    ensures Fill(1.0, 1.0, 1.0).used == 1.0 / 2.0
    ensures Fill(1.0, 2.0, 1.0).used == 1.0 / 3.0
    ensures Fill(1.0, 1.0, 2.0).used == 2.0 / 3.0
  {
  }

  /** With a single tier every unit goes to it. */
  lemma {:induction false} SingleTierTakesAll(gain: Gain, r: nat, k: nat)
    ensures GreedyAllocation(gain, [r], k) == [k]
    decreases k
  {
    if k > 0 {
      SingleTierTakesAll(gain, r, k - 1);
      var prev := GreedyAllocation(gain, [r], k - 1);
      assert GreedyChoice(gain, [r], prev) == 0;
    }
  }
}
