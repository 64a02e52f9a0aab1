# FRAG tier analysis, modelled in Dafny

`frag_full_analysis.py` helps a depositor in the FRAG token launch. The sale has five
tiers. Each tier sells 1,600,000 tokens at a fixed price in bbSOL. A tier that receives
more bbSOL than its capacity (`supply * price`) fills every deposit pro rata, by the
fraction `min(1, capacity / (raised + deposit))`. From the bbSOL already raised in each
tier, the bbSOL price in USD and an estimated FRAG resale price, the script:

1. simulates a 10-bbSOL deposit into each tier: overfund percentage, filled fraction,
   bbSOL used, tokens received, USD spent and received, profit in USD and in percent;
2. splits a 10-bbSOL budget greedily. It makes one pass per whole bbSOL. Each pass gives
   one unit to the tier whose one-unit deposit, evaluated against that tier's running
   raised amount, earns the most USD. Ties go to the lowest tier. Afterwards it totals
   return, bbSOL used and cost, evaluating each tier once with its whole allocation;
3. sweeps a grid of resale prices. It computes every tier's profit curve for the 10-bbSOL
   deposit, the curves relative to the per-point minimum, the best tier at each price,
   and the thresholds where the best tier changes.

The model has five modules:

- `Wrappers`: `Option`.
- `ArgMax`: the first-maximum property used by both argmax loops, and the minimum.
- `ProRata`: tiers, the fill rule and the evaluation. One total function `Evaluate` stands
  for the four copies of the formula in the script. Also the overfund percentage and the
  per-tier simulation.
- `Allocator`: the greedy allocator and its totals.
- `Sweep`: profit curves, relative profits, best tiers and threshold detection.

Each loop of the core (lines 47-69, 94-124 and 145-177) is a method with a `for` loop, proved against a specification:
`PickTier` and `BestTiers` against the first-maximum predicate `IsFirstArgMax`;
`Allocate` against the reference function `GreedyAllocation`; `ComputeTotals` against
`TotalsOf`; `ProfitCurves` and `RelativeProfits` against the predicates `IsProfitCurves`
and `IsRelative`; `ScanThresholds` against `IsThresholdList`, which is built on the
reference function `ChangeIndices`; `SimulateDeposit` against `Overfund` and `Evaluate`.
The properties of those definitions are proved as lemmas. The greedy reference definition is written over an abstract marginal gain. The
script's gain, the one-unit USD profit from `Evaluate`, is `Allocator.UnitProfit`.
Amounts are exact reals.

A natural reading of the fill rule is that a deposit never uses more than the tier's
remaining headroom `max(0, capacity - raised)`. The code does not behave that way.
Once a tier is oversubscribed, every depositor, old or new, gets the same fraction. So a
new deposit into a tier that already holds something still uses strictly more than the
headroom. The model follows the code, and `ProRata.FillExceedsHeadroom` states the
difference.

## Model

| member | source | states |
|---|---|---|
| ArgMax.FirstArgMax | frag_full_analysis.py:163-171 | the result is the first index of a maximal element: no entry exceeds it and every entry before it is strictly smaller, so ties go to the lowest index as with the script's strict `>` |
| ArgMax.FirstArgMaxUnique | frag_full_analysis.py:106-108 | at most one index has the first-maximum property, so every scan proved to meet it picks the same tier |
| ArgMax.ShiftPreservesFirstArgMax | frag_full_analysis.py:157-161 | subtracting the same amount from every entry keeps exactly the same first maximum, in both directions |
| ArgMax.MinOf | frag_full_analysis.py:157 | the minimum is one of the entries and no entry is below it |
| ProRata.Fill | frag_full_analysis.py:50-51 | for a non-negative capacity the filled fraction lies in [0, 1]; the fraction is 0 when raised plus the deposit is not positive (the guard of lines 100 and 118); the bbSOL used lies between 0 and the deposit |
| ProRata.Capacity | frag_full_analysis.py:48 | capacity is never negative at a non-negative price and positive for a positive price and supply; divided by the price it gives back exactly the tier's supply (also line 147) |
| ProRata.FillWithinCapacity | frag_full_analysis.py:48-51 | while raised plus deposit stays within capacity, the whole deposit is used, and the fraction is 1 once raised plus the deposit is positive |
| ProRata.FillRationed | frag_full_analysis.py:50-51 | past capacity the fraction is below 1 and equals capacity / (raised + deposit); used × (raised + deposit) = deposit × capacity; a positive deposit is strictly cut, but still partly filled when the capacity is positive |
| ProRata.FillExceedsHeadroom | frag_full_analysis.py:50-51 | in a tier that already holds bbSOL and is pushed past capacity, the deposit uses strictly more than the headroom capacity − raised |
| ProRata.Evaluate | frag_full_analysis.py:48-56 | fraction and bbSOL used are those of the fill; tokens × price = used for a positive price and tokens are 0 otherwise; profit % × spent = 100 × profit when spent is positive and profit % is 0 otherwise |
| ProRata.ProfitPerTierPrice | frag_full_analysis.py:52-55 | at a positive tier price, USD profit × tier price = bbSOL used × (resale − rate × tier price); at a non-positive one no tokens are bought and the profit is minus the cost of the bbSOL used |
| ProRata.TokensNonNegative | frag_full_analysis.py:52 | a non-negative deposit never yields negative tokens |
| ProRata.ProfitMonotoneInResale | frag_full_analysis.py:150-153 | tokens and USD spent do not depend on the resale price; profit never falls as the resale price rises, and rises strictly when tokens are positive |
| ProRata.Overfund | frag_full_analysis.py:49 | no value exactly when the capacity is 0, where the script's division fails; otherwise overfund × capacity = 100 × raised |
| ProRata.OverfundMeansRationing | frag_full_analysis.py:49-50 | an overfund above 100% means raised exceeds capacity and any further deposit gets a fraction below 1 |
| ProRata.SimulateDeposit | frag_full_analysis.py:46-69 | no table exactly when some tier has zero capacity; otherwise one row per tier, holding that tier's overfund and its evaluation for the deposit |
| ProRata.FirstTierScenario | frag_full_analysis.py:8-52 | the first tier's capacity is 244.3344 bbSOL; an empty first tier fills a 10-bbSOL deposit completely and returns 10 / 0.000152709 tokens |
| Allocator.ScriptPasses | frag_full_analysis.py:89-94 | the script's 10-bbSOL budget gives exactly ten unit passes |
| Allocator.Steps | frag_full_analysis.py:94 | the number of passes is the integer part n of a non-negative budget, n ≤ budget < n + 1, and 0 for a budget below 1 |
| Allocator.GreedyChoice | frag_full_analysis.py:95-108 | the chosen tier is the first maximum of the marginal gains at the running raised amounts |
| Allocator.UnitProfit | frag_full_analysis.py:98-105 | the gain of tier i at raised r is `Evaluate`'s USD profit for a 1-bbSOL deposit into that tier, the one-unit probe of the allocator's inner loop |
| Allocator.GreedyAllocation | frag_full_analysis.py:94-110 | after k passes there is one entry per tier and exactly k units are handed out |
| Allocator.GreedyStep | frag_full_analysis.py:106-110 | one pass adds exactly one unit, at the greedy choice, and leaves every other tier unchanged |
| Allocator.GreedyEntriesBounded | frag_full_analysis.py:109 | no tier receives more units than the number of passes |
| Allocator.PickTier | frag_full_analysis.py:95-108 | the scan, seeded with "no best yet", returns the first maximum of the one-unit USD profits at the running raised amounts |
| Allocator.Allocate | frag_full_analysis.py:89-110 | the allocation is the reference greedy allocation for `Steps(budget)` passes, with `Steps(budget)` units in all, and the running raised amounts are raised plus allocation |
| Allocator.ComputeTotals | frag_full_analysis.py:112-125 | the totals are the sums of return, bbSOL used and cost over each tier evaluated once with its whole allocation; profit = return − cost |
| Allocator.Outcomes | frag_full_analysis.py:116-121 | one evaluation per tier, each `Evaluate` of the tier with its whole allocation as deposit against raised + allocation |
| Allocator.EachTierWithinAllocation | frag_full_analysis.py:116-119 | for non-negative prices each tier uses between 0 and its allocation |
| Allocator.UsedWithinAllocation | frag_full_analysis.py:115-123 | for non-negative prices the bbSOL used in total lies between 0 and the units allocated |
| Allocator.AllUsedWithinCapacity | frag_full_analysis.py:116-123 | when no tier is pushed past capacity by its allocation, every allocated unit is used |
| Allocator.AllocateAndTotal | frag_full_analysis.py:89-125 | the allocator hands out `Steps(budget)` units as the reference allocation; for non-negative prices the bbSOL used lies between 0 and that count, so it never exceeds a non-negative budget |
| Allocator.TotalsAreNotMarginalSums | frag_full_analysis.py:94-123 | the totals are not the sum of the one-unit fills the allocator saw: a single capacity-1 tier holding 1 gets both units of a 2-unit greedy allocation; its one-unit probes fill 1/2 and 1/3, 5/6 in all, but the totals report 2/3 used |
| Allocator.SingleTierTakesAll | frag_full_analysis.py:94-110 | with a single tier, the greedy allocation after k passes gives all k units to it |
| Sweep.ProfitCurves | frag_full_analysis.py:143-154 | curve `i` at point `j` is tier `i`'s profit for the deposit at price `j` |
| Sweep.ProfitAt | frag_full_analysis.py:147-153 | the profit of tier i at one resale price is `Evaluate`'s USD profit for the fixed deposit; at a positive tier price, profit × tier price = bbSOL used × (resale − rate × tier price), and at a non-positive one it is minus the cost of the bbSOL used |
| Sweep.RelativeProfits | frag_full_analysis.py:156-161 | each relative value is the curve minus the per-point minimum over tiers; all are non-negative and every point has a tier at 0 |
| Sweep.BestTiers | frag_full_analysis.py:163-171 | the best tier at each point is the first maximum of the profits there |
| Sweep.ChangeIndices | frag_full_analysis.py:172-177 | every listed index is a point where the best tier differs from the previous point |
| Sweep.ChangeIndicesComplete | frag_full_analysis.py:174-177 | every point where the best tier changes is listed |
| Sweep.ChangeIndicesIncreasing | frag_full_analysis.py:174 | change points are listed in strictly increasing order |
| Sweep.ChangeIndicesCount | frag_full_analysis.py:174 | there are at most one fewer change points than price points |
| Sweep.ChangeIndicesEnds | frag_full_analysis.py:173-177 | the first change leaves the initial best tier and the last enters the final one; with no change they are equal |
| Sweep.ChangeIndicesChain | frag_full_analysis.py:175-177 | the tier a change enters is the one the next change leaves |
| Sweep.ScanThresholds | frag_full_analysis.py:172-177 | the events are exactly one threshold per change point, holding its price, the old tier and the new tier; no event means the best tier never changes |
| Sweep.ThresholdListExtend | frag_full_analysis.py:174-177 | extending the scanned prefix by one point adds an event exactly when the best tier changes there |
| Sweep.ThresholdListFacts | frag_full_analysis.py:172-177 | every event is a real change; consecutive events chain; the first leaves the initial best tier and the last enters the final one; there are fewer events than points; for increasing prices the event prices increase |
| Sweep.CurvesNonDecreasing | frag_full_analysis.py:145-154 | for a non-negative deposit and increasing prices, every profit curve is non-decreasing |
| Sweep.RelativeKeepsBest | frag_full_analysis.py:157-171 | the relative curves have the same first maximum at a point as the profit curves, in both directions |
| Sweep.BestOfProfits | frag_full_analysis.py:163-171 | the best tier at each price is the first maximum of all tiers' profits at that price, and also of the relative profits |
| Sweep.SweepPrices | frag_full_analysis.py:143-177 | the curves, relative curves (none negative), best tiers and threshold list produced by the four loops in sequence, each meeting its reference definition |

## Left out

- Reading the raised amounts, the bbSOL price and the resale price from the console (lines 15-35): these become parameters.
- Colours, headers and the printed tables, including `max_profit_pct` (lines 38-45, 70-86, 127-138), and the averages computed only to be printed (lines 133-135).
- The plot and its labels (lines 178-212), including the overfund recomputed for the legend.
- `np.linspace(0.15, 2.3, 1000)` (line 143): the price points are a given sequence, and properties that need them ordered assume `StrictlyIncreasing`.
- IEEE floating point, NaN and infinities. Amounts are exact reals. The allocator's `-inf` seed and `best_idx = -1` become "no best yet" (`None`), which is always replaced on the first tier.
- The unused `capacity` list (line 92).
- The tier list must be non-empty where the script indexes tier 0 or an argmax (the allocator, the best-tier scan), and the price list non-empty for the threshold scan. On such empty lists the script raises an error: an `IndexError` at `allocation[best_idx]` (line 109, where `best_idx` is still -1) and at `melhor_tier_por_preco[0]` (line 173), a `ValueError` from `np.min` at line 157 and a `KeyError` at `lucros_por_tier[0]` (line 166).
- The 10-bbSOL deposit and budget are parameters. `SimulatedDeposit` and `AllocationBudget` hold the script's values.
- Allocation entries are natural numbers. The script keeps them as floats, but they only ever hold whole numbers.
- Fill: lines 50 and 148 do not guard their denominator. With a non-negative raised amount and the script's 10-bbSOL deposit it is always positive. For a zero or negative denominator, which only a zero or negative deposit can produce, the script would divide by zero or compute a negative fraction; the model returns a zero fraction, as the guarded lines 100 and 118 do.
- SweepPrices: the threshold properties and the monotonicity of the curves are not repeated in its contract. They follow from its `IsThresholdList` and curve postconditions through `ThresholdListFacts` and `CurvesNonDecreasing`.
