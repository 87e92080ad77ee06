# Energy trading decisions — a verified model

This project models the decision core of a household energy-trading agent. Each hour the
agent decides how to split its energy across four flows: how much goes into storage, how much
is sold to the grid, how much is bought from the grid and how much is drawn from storage. Its
inputs are the hour's production and consumption, one storage capacity and one storage level
(its caller, `src/agents/manager.py:53-54`, sums several storages into these two figures), a
24-hour table of grid purchase and sale prices labelled `"HH:00 - HH:00"`, and the current
peer-to-peer price. It also prices a decision: the purchase cost minus the
grid and peer-to-peer sale revenue.

The model is split into modules:

- `PriceTable` (`price_table.dfy`) formats the hour-range labels and looks prices up, with
  the fallback pair (0.5, 0.25) for a missing label.
- `PriceStatistics` (`statistics.dfy`) holds the day's mean, population variance and
  standard deviation, and the 75th percentile with linear interpolation.
- `Forecast` (`forecast.dfy`) scans the look-ahead window for purchase-price spikes, finds
  the nearest spike and finds the hours with a high sale price.
- `Allocation` (`allocation.dfy`) splits a surplus between storage and grid sale, and covers
  a deficit from storage and grid purchase.
- `ProactiveBuying` (`proactive.dfy`) buys extra energy into storage before a spike.
- `Trading` (`trading.dfy`) composes the full hourly decision. `Trading.Decision` specifies
  it and the method `Trading.DecideEnergyDistribution` computes it step by step.
- `Cost` (`cost.dfy`) computes the net cost of a decision.

Floating-point numbers are modelled as exact reals. `np.mean` is the exact mean. The
standard deviation, the 75th percentile of the sale prices and the exponential function are
parameters of the decision. `Trading.Decision` and its entry point
`Trading.DecideEnergyDistribution` are defined only for tables with non-negative prices and
a standard deviation of at least 0; within that, they and their general lemmas hold for any
percentile threshold and any exponential.
The characterisations `PriceStatistics.IsPopulationStd` and `PriceStatistics.Percentile75`
are used only by the flat-table lemmas, and the bound on the exponential only by
`Allocation.UrgencyBounds`.

- "Infinitely far" (no spike ahead) is `None` in `Option<nat>`.
- Python's `min` and `max` are `Allocation.Min` and `Allocation.Max`. Like Python, they
  return the first argument when the two are equal.
- The price table is a `map` from label to a (purchase, sale) pair.

## Model

| member | source | states |
|---|---|---|
| PriceTable.HourRangeLabel | src/decisions/trading.py:21-27 | computes the label of `hour % 24`: the start hour and the following hour (mod 24) as two digits each, as `SS:00 - EE:00` |
| Cost.CalculateCost | src/decisions/trading.py:314-343 | computes the purchase at the hour's purchase price, minus the grid sale at the hour's sale price, minus the P2P sale at the P2P price; nothing traded costs nothing |
| Trading.Decision | src/decisions/trading.py:42-224 | computes the whole hourly decision: the market outlook, the surplus split or deficit cover, the proactive extra when enabled, then the clamp at zero |
| Trading.MarketOutlook | src/decisions/trading.py:76-119 | computes the current prices, the day's mean purchase price, the spike threshold mean + std, the spikes ahead and whether a good sell hour lies ahead |
| Trading.BaseDecision | src/decisions/trading.py:121-203 | computes the surplus split when production exceeds consumption, and the deficit cover otherwise |
| Trading.ProactiveExtra | src/decisions/trading.py:205-216 | computes the proactive (purchase, fill) pair when proactive buying is enabled, and (0, 0) otherwise |
| Trading.Clamp | src/decisions/trading.py:218-222 | raises each quantity to at least 0, so all four are non-negative, and leaves an allocation with no negative quantity unchanged |
| Forecast.SpikesAhead | src/decisions/trading.py:96-107 | computes the spikes among the next `n` hours, nearest first; each is an hour whose purchase price exceeds the threshold, with its price and distance |
| Forecast.NextSpike | src/decisions/trading.py:109-112 | computes the distance of the first recorded spike, or `None` (infinitely far) when there is none |
| Forecast.GoodSellHours | src/decisions/trading.py:114-119 | computes the upcoming hours of the window whose sale price exceeds the threshold, in window order |
| PriceStatistics.Mean | src/decisions/trading.py:88 | computes the exact arithmetic mean of a non-empty series |
| PriceStatistics.IsPopulationStd | src/decisions/trading.py:89 | holds when a value is non-negative and its square is the population variance, as `np.std` computes |
| PriceStatistics.Percentile75 | src/decisions/trading.py:115 | computes the 75th percentile of a sorted series, interpolated linearly at index 0.75 (n - 1), as `np.percentile` does by default |
| Allocation.StorageUrgency | src/decisions/trading.py:137-141 | computes exp(-0.1 · hours) for the nearest spike and 0.1 when there is none |
| Allocation.TargetStoragePercentage | src/decisions/trading.py:144 | computes 0.5 plus the urgency, capped at 0.9 |
| Allocation.StorageDeficit | src/decisions/trading.py:145-148 | computes how far the storage level is below its target, never negative |
| Allocation.ShouldPrioritizeStorage | src/decisions/trading.py:151-155 | holds when storage is short and a spike is under 12 hours away, when P2P is competitive, or when storage is short and a good sell hour lies ahead |
| Allocation.ShouldUseStorage | src/decisions/trading.py:174-178 | holds when the current hour is a spike, when no spike is due within 6 hours, or when storage is over 80% full |
| Allocation.CheapExtra | src/decisions/trading.py:198-199 | computes ten times the price-advantage ratio, capped by the free storage |
| ProactiveBuying.ScaledAmount | src/decisions/trading.py:277-301 | computes 5 kWh times the time factor, the capped price factor and the advantage ratio, times the spike-to-current ratio |
| ProactiveBuying.CapExtra | src/decisions/trading.py:303-310 | computes the scaled amount times min(1, free/20), capped by the free storage and then by half of it |
| PriceTable.LabelRoundTrip | src/decisions/trading.py:21-27 | every label is 13 characters, and reading the start hour back gives `hour % 24` |
| PriceTable.LabelsAgreeIffSameHourOfDay | src/decisions/trading.py:21-27 | two hours get the same label exactly when they are equal mod 24 |
| PriceTable.LabelNormalises | src/decisions/trading.py:23 | any integer hour, negative or past 23, gets the label of its hour of day |
| PriceTable.GetGridPricesForHour | src/decisions/trading.py:29-40 | with non-negative prices in the table, the returned purchase and sale prices are non-negative, including on the fallback path |
| PriceTable.LookupHitOrFallback | src/decisions/trading.py:29-40 | a present label returns its table row; a missing label returns the fallback (0.5, 0.25) |
| PriceTable.LookupNormalisesHour | src/decisions/trading.py:21-40 | a lookup at `hour` or at `hour + 24k` equals the lookup at `hour % 24` |
| PriceTable.LookupShiftsByDays | src/decisions/trading.py:21-40 | adding whole days to the hour does not change the prices returned |
| PriceTable.TableFromEntries | src/decisions/trading.py:29-36 | computes the complete table that holds row `h` under hour `h`'s label, for each of the 24 hours; `PriceTable.LookupCompleteTable` states what a lookup in it returns |
| PriceTable.LookupCompleteTable | src/decisions/trading.py:29-36 | a lookup in a table built from 24 rows returns row `hour % 24` |
| Forecast.DayPrices | src/decisions/trading.py:81-83 | computes the 24 lookups of hours 0 to 23 in order, fallback rows included; `Forecast.DayPricesAt` states that the row for `hour % 24` is the current hour's lookup |
| Forecast.DayPricesAt | src/decisions/trading.py:76-83 | the day's entry at `hour % 24` is the current hour's lookup |
| Forecast.Purchases | src/decisions/trading.py:84 | computes the day's purchase prices in hour order; `PriceStatistics.MeanPositive` and `Forecast.FlatTableHasNoSpikes` state what the statistics over them give |
| Forecast.Sales | src/decisions/trading.py:85 | computes the day's sale prices in hour order; `PriceStatistics.PercentileOfConstant` states their percentile on a flat table |
| PriceStatistics.SquaredDeviations | src/decisions/trading.py:89 | one squared deviation from the mean per price, in order |
| PriceStatistics.MeanConstant | src/decisions/trading.py:88 | the mean of a constant series is that constant |
| PriceStatistics.MeanNonNegative | src/decisions/trading.py:88 | the mean of non-negative prices is non-negative |
| PriceStatistics.MeanPositive | src/decisions/trading.py:88 | the mean of non-negative prices with one positive price is positive |
| PriceStatistics.ConstantStdIsZero | src/decisions/trading.py:89 | the population standard deviation of a constant series is 0 |
| PriceStatistics.VarianceOfConstant | src/decisions/trading.py:89 | the population variance of a constant series is 0 |
| PriceStatistics.PercentileWithinRange | src/decisions/trading.py:115 | the interpolated 75th percentile lies between the minimum and the maximum, and is at least the lower interpolation point |
| PriceStatistics.PercentileOfConstant | src/decisions/trading.py:115 | the 75th percentile of a sorted copy of a constant series is that constant |
| Forecast.ScanSpikes | src/decisions/trading.py:95-107 | the loop returns exactly the spikes of the window, nearest first. Each spike lies 1 to `look_ahead_hours` hours away, names the hour at that distance (wrapping past midnight) and carries that hour's purchase price, which is above the threshold. An offset is recorded iff it lies in the window and its price exceeds the threshold. Distances strictly increase |
| Forecast.SpikesAheadSound | src/decisions/trading.py:96-107 | every recorded spike lies inside the window, carries its hour's purchase price and exceeds the threshold |
| Forecast.SpikesAheadExact | src/decisions/trading.py:96-107 | an offset is recorded iff it lies within 1..`look_ahead_hours` and its hour's purchase price exceeds the threshold |
| Forecast.SpikesAheadIncreasing | src/decisions/trading.py:100-107 | spikes are recorded nearest first, with strictly increasing distances |
| Forecast.NoSpikesIff | src/decisions/trading.py:100-107 | the spike list is empty iff no hour in the window exceeds the threshold |
| Forecast.NextSpikeIsNearest | src/decisions/trading.py:109-112 | the distance to the next spike is `d` iff offset `d` is a spike and no nearer offset is; it is infinite iff there is no spike |
| Forecast.GoodSellHoursNonEmptyIff | src/decisions/trading.py:114-119 | some good sell hour lies ahead iff a window offset has a sale price above the threshold |
| Forecast.LookAheadNormalisesHour | src/decisions/trading.py:96-119 | the spikes and the good sell hours at `hour + 24k` are those at `hour` |
| Forecast.FlatTableHasNoSpikes | src/decisions/trading.py:87-107 | with the same purchase price every hour, the standard deviation is 0, the threshold is that price, and no spike is found |
| Allocation.SurplusAllocation | src/decisions/trading.py:131-164 | a surplus is split between storage and grid sale and nothing else; both parts are non-negative and sum to the surplus; storage is filled iff storage is prioritised and capacity is left; the fill never exceeds the free capacity, and when some is sold the storage was filled to the brim |
| Allocation.UrgencyBounds | src/decisions/trading.py:137-144 | for an exponential with values in (0, 1] on non-positive arguments, the urgency is in (0, 1] and the target percentage in (0.5, 0.9] |
| Allocation.DeficitAllocation | src/decisions/trading.py:166-203 | a deficit sells nothing. Storage is drawn only when the storage-use condition holds, and then exactly min(cap, need) when anything is stored, where the cap is the whole stock in a spike and half of it otherwise. The draw never exceeds the need or the stock. Draw plus purchase-for-use equals the need. The extra purchase into storage is positive iff need remains, the price is below 80% of the mean, a spike lies within 12 hours and space is free; it is bounded by the free space and by 10 times the price-advantage ratio. Zero need moves nothing |
| Allocation.BalancedHourIsIdle | src/decisions/trading.py:166-203 | a zero deficit moves no energy |
| Allocation.DeficitKeepsStorageBeforeNearSpike | src/decisions/trading.py:170-193 | 15 kWh needed, 20 of 100 kWh stored, a spike 3 hours ahead, no current spike and no cheap price: the whole need is bought and storage is kept |
| ProactiveBuying.TimeFactor | src/decisions/trading.py:284-290 | 0.3 outside the 2..12 hour window, within [0, 1] inside it, 1 exactly at 7 hours, 0 exactly at 2 and at 12 hours |
| ProactiveBuying.CalculateProactiveBuying | src/decisions/trading.py:226-312 | the purchase and the storage fill are equal and non-negative, at most half the storage still free, and positive iff there is a spike, at least 1 kWh is free, the price is more than 5% below the mean, and the time factor is positive |
| ProactiveBuying.ScaledAmountSign | src/decisions/trading.py:277-301 | at a positive price with a real advantage and a positive spike price, the scaled amount is non-negative, and positive iff the time factor is |
| ProactiveBuying.CapExtraBounds | src/decisions/trading.py:303-310 | the capped amount lies within half the free storage, and is positive iff the scaled amount is |
| ProactiveBuying.ProactiveBuyingAsWritten | src/decisions/trading.py:277-312 | in floating-point the result is NaN exactly when the gate passes at price 0.0 with the spike 2 or 12 hours away; otherwise it agrees with the corrected computation |
| ProactiveBuying.NaNPurchaseWitness | src/decisions/trading.py:166-222 | on the witness hour (15 kWh deficit, empty 100 kWh storage, price 0.0, mean 1.0, spike threshold below 10.0, spike at 10.0 two hours ahead) the deficit cover buys 25 kWh with 10 kWh to storage; fed that allocation, the code's proactive amount is NaN and its clamp makes the purchase 0 kWh, while the corrected amount is 0 kWh and the purchase stays 25 kWh, covering the need |
| Trading.OutlookFitsProactiveBuying | src/decisions/trading.py:87-112 | with non-negative prices, the current price is non-negative, and when a spike lies ahead the mean and the spike's price are positive |
| Trading.ReadMarket | src/decisions/trading.py:76-119 | the method computes the current prices, the day's mean, the spike threshold, the spikes ahead and whether a good sell hour lies ahead, as specified |
| Trading.AllocateBalance | src/decisions/trading.py:121-203 | the method splits a surplus or covers a deficit as specified |
| Trading.SplitSurplus | src/decisions/trading.py:130-164 | the step-by-step surplus branch computes the specified surplus split |
| Trading.CoverDeficit | src/decisions/trading.py:166-203 | the step-by-step deficit branch computes the specified deficit cover |
| Trading.DecideEnergyDistribution | src/decisions/trading.py:42-224 | the method computes the specified hourly decision: outlook, balance, proactive purchase when enabled, clamp at zero |
| Trading.DecisionProperties | src/decisions/trading.py:121-224 | every quantity is non-negative; production + purchase + draw = consumption + fill + sale; storage is drawn only in a deficit and never beyond the stock; energy is sold only in a surplus; the fill never exceeds the free capacity |
| Trading.OutlookNormalisesHour | src/decisions/trading.py:76-119 | the market outlook at `hour + 24k` equals the one at `hour` |
| Trading.DecisionNormalisesHour | src/decisions/trading.py:42-224 | the decision at `hour + 24k` equals the decision at `hour` |
| Trading.BalancedHourDecision | src/decisions/trading.py:121-224 | when production equals consumption nothing is sold or drawn, all purchase goes to storage, and with proactive buying off nothing moves |
| Trading.FlatTableNeverBuysProactively | src/decisions/trading.py:205-216 | with a flat purchase price, turning proactive buying on changes nothing |
| Trading.FlatTableSurplusScenario | src/decisions/trading.py:131-164 | a 30 kWh surplus with empty 100 kWh storage under a flat table: all 30 kWh are stored iff P2P is more than 10% below the grid sale price, else all are sold |
| Cost.CostIgnoresStorageDraw | src/decisions/trading.py:314-343 | the cost does not depend on the storage draw |
| Cost.CostIsAdditive | src/decisions/trading.py:334-341 | the cost of summed quantities is the sum of their costs |
| Cost.CostIsHomogeneous | src/decisions/trading.py:334-341 | scaling every quantity by `k` scales the cost by `k` |
| Cost.CostSign | src/decisions/trading.py:329-341 | with non-negative prices and quantities, a pure purchase costs at least 0 and a pure sale yields at most 0 |
| Cost.CostNormalisesHour | src/decisions/trading.py:329-332 | the cost at `hour + 24k` equals the cost at `hour` |
| Cost.PurchaseOnlyCost | src/decisions/trading.py:329-341 | buying 10 kWh at 0.6 per kWh costs 6.0 |
| Cost.FallbackCost | src/decisions/trading.py:29-40 | for an hour missing from the table, the cost uses purchase 0.5 and sale 0.25 |

## Left out

- `load_grid_prices` (reading `grid_prices.csv`, and raising when the file is missing) is not modelled. The table is a given `map` from label to prices.
- Logging is not modelled. This includes the error logged on a missing label; only its fallback value is.
- Floating point is not modelled. Quantities are exact reals, so rounding does not appear. Infinity and NaN appear only in the finding below.
- `np.std`, `np.percentile` and `np.exp` are parameters of `Trading.Decision`:
  - `PriceStatistics.IsPopulationStd` characterises the standard deviation;
  - `PriceStatistics.Percentile75` gives the percentile for a sorted copy of the sale prices;
  - `Allocation.UrgencyBounds` assumes the exponential lies in (0, 1] on non-positive arguments.
- `Trading.Decision`: the decision itself, its entry point `Trading.DecideEnergyDistribution` and the helpers they call (`Allocation.DeficitAllocation` through a non-negative current price, `ProactiveBuying.CalculateProactiveBuying` through `ProactiveBuying.ProactiveArguments`) are defined only for tables with non-negative prices and a non-negative standard deviation. The code does not check either. A population standard deviation is never negative. Tables with negative prices are outside this model.
- `Trading.DecisionProperties`: these are stated as a lemma about `Trading.Decision`, not as postconditions of the method. The method is tied to `Trading.Decision`, so they carry over to it.
- `look_ahead_hours` is a parameter with no default. The code's default is 24; the only caller passes 12 (`src/agents/manager.py:75`).
- `enable_proactive_buying` is a parameter with no default. The code's default is `True`, which the only caller relies on.
- The spike dictionaries are `Forecast.Spike` records with the fields hour, price and hours away.
- `calculate_cost` takes an independent peer-to-peer sale quantity. The caller that feeds it the storage fill lies outside this model.
- The agent, the market manager, the message sender and the data models of the wider system are not part of this model.

## Findings

| source | as written | input that shows it | evidently intended | confidence | as-written member | corrected member |
|---|---|---|---|---|---|---|
| src/decisions/trading.py:277-312, 215, 221 | at a current purchase price of 0.0, `spike_price / current_price` is +inf. With the spike exactly 2 or 12 hours away, `time_factor` is 0, so `5.0 * 0.0 * inf` is NaN. `min` passes NaN on, and the final `max(0, buy_from_grid)` turns NaN into 0 | nothing stored, capacity 100 kWh, purchase price 0.0, mean 1.0, one spike at 10.0 two hours ahead, a 15 kWh deficit, which the deficit cover turns into 25 kWh bought from the grid with 10 kWh of it to storage, before the proactive step | a zero time factor buys nothing extra, and the deficit purchase stays as computed. The prices come from the table as numpy scalars, which is why the division yields inf; with a plain Python float it would raise `ZeroDivisionError` instead | not executed | ProactiveBuying.ProactiveBuyingAsWritten, ProactiveBuying.NaNPurchaseWitness | ProactiveBuying.CalculateProactiveBuying |
