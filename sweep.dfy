/**
 * The price sweep: each tier's profit for the fixed deposit at every
 * candidate resale price, the profit relative to the worst tier at each
 * price, the best tier at each price, and the thresholds where the best
 * tier changes.
 *
 * Profit curves are indexed `curves[tier][point]`. The price points are a
 * given sequence (the script spaces 1000 points evenly over [0.15, 2.30]).
 */
module Sweep {
  import opened ArgMax
  import opened ProRata

  /**
   * Profit in USD of tier `i` at resale price `price`; raised and deposit
   * fixed. Each bbSOL used buys tokens at the tier's price, resold at `price`
   * and paid for at `rate`.
   */
  function ProfitAt(tiers: seq<Tier>, raised: seq<nat>, deposit: real, rate: real, price: real, i: nat): (p: real)
    requires |raised| == |tiers| && i < |tiers|
    ensures tiers[i].price > 0.0 ==>
              p * tiers[i].price == Fill(Capacity(tiers[i]), raised[i] as real, deposit).used * (price - rate * tiers[i].price)
    ensures tiers[i].price <= 0.0 ==> p == -(Fill(Capacity(tiers[i]), raised[i] as real, deposit).used * rate)
  {
    ProfitPerTierPrice(tiers[i], raised[i] as real, deposit, rate, price);
    Evaluate(tiers[i], raised[i] as real, deposit, rate, price).profitUsd
  }

  /** Every tier's profit at one price point. */
  function ProfitsAt(tiers: seq<Tier>, raised: seq<nat>, deposit: real, rate: real, price: real): (p: seq<real>)
    requires |raised| == |tiers|
    ensures |p| == |tiers|
    ensures forall i :: 0 <= i < |tiers| ==> p[i] == ProfitAt(tiers, raised, deposit, rate, price, i)
  {
    seq(|tiers|, i requires 0 <= i < |tiers| => ProfitAt(tiers, raised, deposit, rate, price, i))
  }

  /** Every row of `curves` has `m` points. */
  ghost predicate Rectangular(curves: seq<seq<real>>, m: nat)
  {
    forall i :: 0 <= i < |curves| ==> |curves[i]| == m
  }

  /** The values of all curves at point `j`. */
  function Column(curves: seq<seq<real>>, m: nat, j: nat): (c: seq<real>)
    requires Rectangular(curves, m) && j < m
    ensures |c| == |curves|
    ensures forall i :: 0 <= i < |curves| ==> c[i] == curves[i][j]
  {
    seq(|curves|, i requires 0 <= i < |curves| => curves[i][j])
  }

  ghost predicate StrictlyIncreasing(prices: seq<real>)
  {
    forall a, b :: 0 <= a < b < |prices| ==> prices[a] < prices[b]
  }

  /** `curves[i][j]` is the profit of tier `i` at price point `j`. */
  ghost predicate IsProfitCurves(tiers: seq<Tier>, raised: seq<nat>, deposit: real, rate: real,
                                 prices: seq<real>, curves: seq<seq<real>>)
    requires |raised| == |tiers|
  {
    |curves| == |tiers| && Rectangular(curves, |prices|) &&
    forall i, j :: 0 <= i < |tiers| && 0 <= j < |prices| ==>
      curves[i][j] == ProfitAt(tiers, raised, deposit, rate, prices[j], i)
  }

  /** `rel` is `curves` less the per-point minimum over all curves. */
  ghost predicate IsRelative(curves: seq<seq<real>>, m: nat, rel: seq<seq<real>>)
    requires |curves| > 0 && Rectangular(curves, m)
  {
    |rel| == |curves| && Rectangular(rel, m) &&
    forall i, j :: 0 <= i < |curves| && 0 <= j < m ==>
      rel[i][j] == curves[i][j] - MinOf(Column(curves, m, j))
  }

  /**
   * The sweep's nested loop: for each price, append every tier's profit to
   * that tier's curve.
   */
  method ProfitCurves(tiers: seq<Tier>, raised: seq<nat>, deposit: real, rate: real, prices: seq<real>)
    returns (curves: seq<seq<real>>)
    requires |raised| == |tiers|
    ensures IsProfitCurves(tiers, raised, deposit, rate, prices, curves)
  {
    curves := seq(|tiers|, _ => []);
    for j := 0 to |prices|
      invariant |curves| == |tiers| && Rectangular(curves, j)
      invariant forall i, p :: 0 <= i < |tiers| && 0 <= p < j ==>
                  curves[i][p] == ProfitAt(tiers, raised, deposit, rate, prices[p], i)
    {
      for i := 0 to |tiers|
        invariant |curves| == |tiers|
        invariant forall k :: 0 <= k < i ==> |curves[k]| == j + 1
        invariant forall k :: i <= k < |tiers| ==> |curves[k]| == j
        invariant forall k, p :: 0 <= k < |tiers| && 0 <= p < j ==>
                    curves[k][p] == ProfitAt(tiers, raised, deposit, rate, prices[p], k)
        invariant forall k :: 0 <= k < i ==> curves[k][j] == ProfitAt(tiers, raised, deposit, rate, prices[j], k)
      {
        curves := curves[i := curves[i] + [ProfitAt(tiers, raised, deposit, rate, prices[j], i)]];
      }
    }
  }

  /**
   * Relative profit: each curve minus the per-point minimum over tiers.
   * Every value is non-negative and, at each point, the worst tier sits at 0.
   */
  method RelativeProfits(curves: seq<seq<real>>, m: nat) returns (rel: seq<seq<real>>)
    requires |curves| > 0 && Rectangular(curves, m)
    ensures IsRelative(curves, m, rel)
    ensures forall i, j :: 0 <= i < |curves| && 0 <= j < m ==> rel[i][j] >= 0.0
    ensures forall j :: 0 <= j < m ==> 0.0 in Column(rel, m, j)
  {
    var lowest := seq(m, j requires 0 <= j < m => MinOf(Column(curves, m, j)));
    assert forall j :: 0 <= j < m ==> lowest[j] == MinOf(Column(curves, m, j));
    rel := [];
    for i := 0 to |curves|
      invariant |rel| == i && Rectangular(rel, m)
      invariant forall k, j :: 0 <= k < i && 0 <= j < m ==> rel[k][j] == curves[k][j] - lowest[j]
    {
      rel := rel + [seq(m, j requires 0 <= j < m => curves[i][j] - lowest[j])];
    }
    forall i, j | 0 <= i < |curves| && 0 <= j < m
      ensures rel[i][j] >= 0.0
    {
      assert MinOf(Column(curves, m, j)) <= Column(curves, m, j)[i];
    }
    forall j | 0 <= j < m
      ensures 0.0 in Column(rel, m, j)
    {
      var c := Column(curves, m, j);
      var i :| 0 <= i < |c| && c[i] == MinOf(c);
      assert Column(rel, m, j)[i] == 0.0;
    }
  }

  /**
   * The best tier at each point: a scan seeded with tier 0 that moves on a
   * strictly greater profit, so ties go to the lowest index.
   */
  method BestTiers(curves: seq<seq<real>>, m: nat) returns (best: seq<nat>)
    requires |curves| > 0 && Rectangular(curves, m)
    ensures |best| == m
    ensures forall j :: 0 <= j < m ==> IsFirstArgMax(Column(curves, m, j), best[j])
  {
    best := [];
    for j := 0 to m
      invariant |best| == j
      invariant forall p :: 0 <= p < j ==> IsFirstArgMax(Column(curves, m, p), best[p])
    {
      var bestIdx := 0;
      var bestProfit := curves[0][j];
      for i := 1 to |curves|
        invariant bestIdx < i && bestProfit == curves[bestIdx][j]
        invariant forall k :: 0 <= k < i ==> curves[k][j] <= bestProfit
        invariant forall k :: 0 <= k < bestIdx ==> curves[k][j] < bestProfit
      {
        if curves[i][j] > bestProfit {
          bestProfit := curves[i][j];
          bestIdx := i;
        }
      }
      assert IsFirstArgMax(Column(curves, m, j), bestIdx);
      best := best + [bestIdx];
    }
  }

  /** A threshold: the price at which the best tier changes, and the old and new tier. */
  datatype Threshold = Threshold(price: real, from: nat, to: nat)

  /**
   * Reference definition of the change points: the indices `i >= 1` at which
   * the best tier differs from the one at `i - 1`, in increasing order.
   */
  function ChangeIndices(best: seq<nat>): (idx: seq<nat>)
    ensures forall k :: 0 <= k < |idx| ==> 1 <= idx[k] < |best| && best[idx[k] - 1] != best[idx[k]]
    decreases |best|
  {
    if |best| <= 1 then []
    else
      var n := |best| - 1;
      var prefix := ChangeIndices(best[..n]);
      if best[n - 1] != best[n] then prefix + [n] else prefix
  }

  /** Every change of best tier is a change point. */
  lemma {:induction false} ChangeIndicesComplete(best: seq<nat>, i: nat)
    requires 1 <= i < |best| && best[i - 1] != best[i]
    ensures i in ChangeIndices(best)
    decreases |best|
  {
    var n := |best| - 1;
    var prefix := ChangeIndices(best[..n]);
    assert ChangeIndices(best) == if best[n - 1] != best[n] then prefix + [n] else prefix;
    if i < n {
      assert best[..n][i - 1] == best[i - 1] && best[..n][i] == best[i];
      ChangeIndicesComplete(best[..n], i);
      assert i in prefix;
    } else {
      assert ChangeIndices(best) == prefix + [n];
    }
  }

  /** Change points are listed in strictly increasing order. */
  lemma {:induction false} ChangeIndicesIncreasing(best: seq<nat>)
    ensures forall k, l :: 0 <= k < l < |ChangeIndices(best)| ==> ChangeIndices(best)[k] < ChangeIndices(best)[l]
    decreases |best|
  {
    if |best| > 1 {
      ChangeIndicesIncreasing(best[..|best| - 1]);
    }
  }

  /** There are at most `|best| - 1` change points. */
  lemma {:induction false} ChangeIndicesCount(best: seq<nat>)
    requires |best| > 0
    ensures |ChangeIndices(best)| <= |best| - 1
    decreases |best|
  {
    if |best| > 1 {
      ChangeIndicesCount(best[..|best| - 1]);
    }
  }

  /**
   * `events` holds one threshold per change point, in order: the price at the
   * change point, the tier before it and the tier at it.
   */
  ghost predicate IsThresholdList(prices: seq<real>, best: seq<nat>, events: seq<Threshold>)
    requires |best| == |prices|
  {
    |events| == |ChangeIndices(best)| &&
    forall k :: 0 <= k < |events| ==>
      var i := ChangeIndices(best)[k];
      events[k] == Threshold(prices[i], best[i - 1], best[i])
  }

  /**
   * The threshold scan: walk the best tiers in price order keeping the
   * current tier, and record an event whenever the best tier differs.
   * What the list says about the best tiers is `ThresholdListFacts`.
   */
  method ScanThresholds(prices: seq<real>, best: seq<nat>) returns (events: seq<Threshold>)
    requires |best| == |prices| && |best| > 0
    ensures IsThresholdList(prices, best, events)
    ensures |events| == 0 ==> forall i :: 0 <= i < |best| ==> best[i] == best[0]
  {
    events := [];
    var current := best[0];
    assert IsThresholdList(prices[..1], best[..1], events);
    for i := 1 to |best|
      invariant current == best[i - 1]
      invariant IsThresholdList(prices[..i], best[..i], events)
      invariant |events| == 0 ==> forall p :: 0 <= p < i ==> best[p] == best[0]
    {
      ThresholdListExtend(prices, best, i, events);
      if best[i] != current {
        events := events + [Threshold(prices[i], current, best[i])];
        current := best[i];
      }
    }
    assert prices[..|prices|] == prices && best[..|best|] == best;
  }

  /** Extending the scanned prefix by one point adds an event exactly at a change. */
  lemma ThresholdListExtend(prices: seq<real>, best: seq<nat>, i: nat, events: seq<Threshold>)
    requires |best| == |prices| && 1 <= i < |best|
    requires IsThresholdList(prices[..i], best[..i], events)
    ensures best[i - 1] != best[i] ==>
              IsThresholdList(prices[..i + 1], best[..i + 1], events + [Threshold(prices[i], best[i - 1], best[i])])
    ensures best[i - 1] == best[i] ==> IsThresholdList(prices[..i + 1], best[..i + 1], events)
  {
    ChangeIndicesExtend(best, i);
    var idx := ChangeIndices(best[..i]);
    var longer := ChangeIndices(best[..i + 1]);
    assert forall k :: 0 <= k < |idx| ==> longer[k] == idx[k];
    // Both prefixes agree with the whole sequences below their length.
    var shorter, wider := best[..i + 1], prices[..i + 1];
    forall k | 0 <= k < |idx|
      ensures events[k] == Threshold(wider[idx[k]], shorter[idx[k] - 1], shorter[idx[k]])
    {
      var j := idx[k];
      assert events[k] == Threshold(prices[..i][j], best[..i][j - 1], best[..i][j]);
    }
    if best[i - 1] != best[i] {
      assert |longer| == |idx| + 1 && longer[|idx|] == i;
      var more := events + [Threshold(prices[i], best[i - 1], best[i])];
      forall k | 0 <= k < |more|
        ensures more[k] == Threshold(wider[longer[k]], shorter[longer[k] - 1], shorter[longer[k]])
      {
        if k < |events| {
          assert more[k] == events[k];
        }
      }
    } else {
      assert |longer| == |idx|;
    }
  }

  /**
   * A threshold list records real changes, each one leaving the tier the
   * previous one entered, from the initial best tier to the final one; there
   * are fewer events than price points, and for increasing prices the events
   * come in increasing price order.
   */
  lemma ThresholdListFacts(prices: seq<real>, best: seq<nat>, events: seq<Threshold>)
    requires |best| == |prices| && |best| > 0
    requires IsThresholdList(prices, best, events)
    ensures forall k :: 0 <= k < |events| ==> events[k].from != events[k].to
    ensures forall k :: 0 <= k < |events| - 1 ==> events[k].to == events[k + 1].from
    ensures |events| > 0 ==> events[0].from == best[0] && events[|events| - 1].to == best[|best| - 1]
    ensures |events| < |best|
    ensures StrictlyIncreasing(prices) ==>
              forall k, l :: 0 <= k < l < |events| ==> events[k].price < events[l].price
  {
    ChangeIndicesCount(best);
    ChangeIndicesChain(best);
    ChangeIndicesEnds(best);
    if StrictlyIncreasing(prices) {
      ThresholdPricesIncrease(prices, best, events);
    }
  }

  lemma ChangeIndicesExtend(best: seq<nat>, i: nat)
    requires 1 <= i < |best|
    ensures ChangeIndices(best[..i + 1])
            == ChangeIndices(best[..i]) + (if best[i - 1] != best[i] then [i] else [])
  {
    assert best[..i + 1][..i] == best[..i];
  }

  /**
   * The first change point leaves the initial best tier and the last one
   * enters the final best tier; with no change point the two coincide.
   */
  lemma {:induction false} ChangeIndicesEnds(best: seq<nat>)
    requires |best| > 0
    ensures var idx := ChangeIndices(best);
            (|idx| > 0 ==> best[idx[0] - 1] == best[0] && best[idx[|idx| - 1]] == best[|best| - 1]) &&
            (|idx| == 0 ==> best[|best| - 1] == best[0])
    decreases |best|
  {
    if |best| > 1 {
      var n := |best| - 1;
      var prefix := best[..n];
      ChangeIndicesEnds(prefix);
      var p := ChangeIndices(prefix);
      assert |p| > 0 ==> prefix[p[0] - 1] == best[p[0] - 1] && prefix[p[|p| - 1]] == best[p[|p| - 1]];
      assert prefix[n - 1] == best[n - 1] && prefix[0] == best[0];
      if best[n - 1] != best[n] {
        assert ChangeIndices(best) == p + [n];
      } else {
        assert ChangeIndices(best) == p;
      }
    }
  }

  /**
   * Between consecutive change points the best tier does not move: the tier a
   * change point leaves is the one the previous change point entered.
   */
  lemma {:induction false} ChangeIndicesChain(best: seq<nat>)
    requires |best| > 0
    ensures var idx := ChangeIndices(best);
            forall k :: 0 <= k < |idx| - 1 ==> best[idx[k]] == best[idx[k + 1] - 1]
    decreases |best|
  {
    if |best| > 1 {
      var n := |best| - 1;
      var prefix := best[..n];
      ChangeIndicesChain(prefix);
      ChangeIndicesEnds(prefix);
      var p := ChangeIndices(prefix);
      var idx := ChangeIndices(best);
      assert idx == if best[n - 1] != best[n] then p + [n] else p;
      forall k | 0 <= k < |idx| - 1
        ensures best[idx[k]] == best[idx[k + 1] - 1]
      {
        if k + 1 < |p| {
          assert prefix[p[k]] == prefix[p[k + 1] - 1];
        } else {
          assert idx[k + 1] == n && prefix[p[k]] == prefix[n - 1];
        }
      }
    }
  }

  lemma ThresholdPricesIncrease(prices: seq<real>, best: seq<nat>, events: seq<Threshold>)
    requires |best| == |prices| && StrictlyIncreasing(prices)
    requires |events| == |ChangeIndices(best)|
    requires forall k :: 0 <= k < |events| ==> events[k].price == prices[ChangeIndices(best)[k]]
    ensures forall k, l :: 0 <= k < l < |events| ==> events[k].price < events[l].price
  {
    var idx := ChangeIndices(best);
    ChangeIndicesIncreasing(best);
    forall k, l | 0 <= k < l < |events| ensures events[k].price < events[l].price {
      assert idx[k] < idx[l];
    }
  }

  /** For increasing prices every profit curve is non-decreasing. */
  lemma CurvesNonDecreasing(tiers: seq<Tier>, raised: seq<nat>, deposit: real, rate: real,
                            prices: seq<real>, curves: seq<seq<real>>)
    requires |raised| == |tiers| && deposit >= 0.0 && StrictlyIncreasing(prices)
    requires IsProfitCurves(tiers, raised, deposit, rate, prices, curves)
    ensures forall i, a, b :: 0 <= i < |tiers| && 0 <= a <= b < |prices| ==> curves[i][a] <= curves[i][b]
  {
    forall i, a, b | 0 <= i < |tiers| && 0 <= a <= b < |prices|
      ensures curves[i][a] <= curves[i][b]
    {
      ProfitMonotoneInResale(tiers[i], raised[i] as real, deposit, rate, prices[a], prices[b]);
    }
  }

  /** Relative profit singles out the same best tier as profit itself. */
  lemma RelativeKeepsBest(curves: seq<seq<real>>, rel: seq<seq<real>>, m: nat, j: nat, b: nat)
    requires |curves| > 0 && Rectangular(curves, m) && j < m
    requires IsRelative(curves, m, rel)
    ensures IsFirstArgMax(Column(curves, m, j), b) <==> IsFirstArgMax(Column(rel, m, j), b)
  {
    var low := MinOf(Column(curves, m, j));
    ShiftPreservesFirstArgMax(Column(curves, m, j), Column(rel, m, j), seq(|curves|, _ => low), b);
  }

  /** Column `j` of the profit curves is the profit of every tier at price `j`. */
  lemma ColumnIsProfits(tiers: seq<Tier>, raised: seq<nat>, deposit: real, rate: real,
                        prices: seq<real>, curves: seq<seq<real>>, j: nat)
    requires |raised| == |tiers| && j < |prices|
    requires IsProfitCurves(tiers, raised, deposit, rate, prices, curves)
    ensures Column(curves, |prices|, j) == ProfitsAt(tiers, raised, deposit, rate, prices[j])
  {
  }

  /** The best tier of the profit curves is the best tier of every price point. */
  lemma BestOfProfits(tiers: seq<Tier>, raised: seq<nat>, deposit: real, rate: real, prices: seq<real>,
                      curves: seq<seq<real>>, rel: seq<seq<real>>, best: seq<nat>)
    requires 0 < |tiers| && |raised| == |tiers|
    requires IsProfitCurves(tiers, raised, deposit, rate, prices, curves)
    requires IsRelative(curves, |prices|, rel)
    requires |best| == |prices|
    requires forall j :: 0 <= j < |prices| ==> IsFirstArgMax(Column(curves, |prices|, j), best[j])
    ensures forall j :: 0 <= j < |prices| ==>
              IsFirstArgMax(ProfitsAt(tiers, raised, deposit, rate, prices[j]), best[j]) &&
              IsFirstArgMax(Column(rel, |prices|, j), best[j])
  {
    forall j | 0 <= j < |prices|
      ensures IsFirstArgMax(ProfitsAt(tiers, raised, deposit, rate, prices[j]), best[j])
      ensures IsFirstArgMax(Column(rel, |prices|, j), best[j])
    {
      ColumnIsProfits(tiers, raised, deposit, rate, prices, curves, j);
      RelativeKeepsBest(curves, rel, |prices|, j, best[j]);
    }
  }

  /**
   * The whole price sweep: profit curves, relative curves, the best tier at
   * every price and the thresholds where it changes.
   */
  method SweepPrices(tiers: seq<Tier>, raised: seq<nat>, deposit: real, rate: real, prices: seq<real>)
    returns (curves: seq<seq<real>>, rel: seq<seq<real>>, best: seq<nat>, events: seq<Threshold>)
    requires 0 < |tiers| && |raised| == |tiers| && 0 < |prices|
    ensures IsProfitCurves(tiers, raised, deposit, rate, prices, curves)
    ensures IsRelative(curves, |prices|, rel)
    ensures forall i, j :: 0 <= i < |tiers| && 0 <= j < |prices| ==> rel[i][j] >= 0.0
    ensures |best| == |prices|
    ensures forall j :: 0 <= j < |prices| ==>
              IsFirstArgMax(ProfitsAt(tiers, raised, deposit, rate, prices[j]), best[j]) &&
              IsFirstArgMax(Column(rel, |prices|, j), best[j])
    ensures IsThresholdList(prices, best, events)
  {
    curves := ProfitCurves(tiers, raised, deposit, rate, prices);
    rel := RelativeProfits(curves, |prices|);
    best := BestTiers(curves, |prices|);
    events := ScanThresholds(prices, best);
    BestOfProfits(tiers, raised, deposit, rate, prices, curves, rel, best);
  }
}
