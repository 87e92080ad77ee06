/**
 * The hourly decision: look up the current prices, summarise the day, scan ahead for
 * spikes and good sell hours, split the surplus or cover the deficit, add the
 * proactive purchase, and clamp every quantity at zero.
 */
module Trading {
  import opened Wrappers
  import opened PriceTable
  import opened PriceStatistics
  import opened Forecast
  import opened Allocation
  import opened ProactiveBuying

  /**
   * What the decision knows about the market at the current hour: the current prices,
   * the day's mean purchase price, the spike threshold (mean plus standard deviation),
   * the spikes ahead, nearest first, and whether some good sell hour lies ahead.
   */
  datatype Outlook = Outlook(now: PriceEntry, meanPurchase: real, spikeThreshold: real,
                             spikes: seq<Spike>, goodSellAhead: bool)

  /** The outlook `decide_energy_distribution` computes from the price table before it allocates anything. */
  function MarketOutlook(table: Table, hour: int, lookAheadHours: int, stdPurchase: real,
                         highSaleThreshold: real): Outlook
  {
    var day := DayPrices(table);
    var mean := Mean(Purchases(day));
    Outlook(GetGridPricesForHour(table, hour), mean, mean + stdPurchase,
            SpikesAhead(day, hour, mean + stdPurchase, lookAheadHours),
            |GoodSellHours(day, hour, highSaleThreshold, lookAheadHours)| > 0)
  }

  /**
   * With non-negative prices and a non-negative deviation, the outlook satisfies what
   * proactive buying is specified for: the current price is non-negative, and when a
   * spike lies ahead the mean and the spike's price are positive.
   */
  lemma OutlookFitsProactiveBuying(table: Table, hour: int, lookAheadHours: int, stdPurchase: real,
                                   highSaleThreshold: real)
    requires NonNegativePrices(table) && stdPurchase >= 0.0
    ensures var o := MarketOutlook(table, hour, lookAheadHours, stdPurchase, highSaleThreshold);
      ProactiveArguments(o.now.purchase, o.meanPurchase, o.spikes)
  {
    var day := DayPrices(table);
    SpikesFitProactiveBuying(table, hour, stdPurchase, SpikesAhead(day, hour, Mean(Purchases(day)) + stdPurchase,
                                                                   lookAheadHours), lookAheadHours);
  }

  lemma SpikesFitProactiveBuying(table: Table, hour: int, stdPurchase: real, spikes: seq<Spike>, lookAheadHours: int)
    requires NonNegativePrices(table) && stdPurchase >= 0.0
    requires spikes == SpikesAhead(DayPrices(table), hour, Mean(Purchases(DayPrices(table))) + stdPurchase, lookAheadHours)
    ensures ProactiveArguments(GetGridPricesForHour(table, hour).purchase, Mean(Purchases(DayPrices(table))), spikes)
  {
    var day := DayPrices(table);
    var ps := Purchases(day);
    MeanNonNegative(ps);
    if spikes != [] {
      SpikesAheadSound(day, hour, Mean(ps) + stdPurchase, lookAheadHours);
      assert spikes[0] in spikes;
      var h := spikes[0].hour;
      assert 0 <= h < 24 && ps[h] == spikes[0].price;
      MeanPositive(ps, h);
    }
  }

  /** A positive balance is a surplus to split, any other balance a deficit to cover. */
  function BaseDecision(balance: real, currentStorage: real, maxStorage: real, o: Outlook, p2pPrice: real,
                        exp: real -> real): Allocation
    requires o.now.purchase >= 0.0
  {
    var nextSpike := NextSpike(o.spikes);
    if balance > 0.0 then
      SurplusAllocation(balance, currentStorage, maxStorage, StorageUrgency(exp, nextSpike), nextSpike,
                        o.now.sale, p2pPrice, o.goodSellAhead)
    else
      DeficitAllocation(-balance, currentStorage, maxStorage, o.now.purchase, o.meanPurchase, o.spikeThreshold,
                        nextSpike)
  }

  /** The extra (grid purchase, storage fill) of proactive buying, or nothing when it is switched off. */
  function ProactiveExtra(currentStorage: real, maxStorage: real, o: Outlook, enableProactiveBuying: bool,
                          currentToStorage: real): (real, real)
    requires ProactiveArguments(o.now.purchase, o.meanPurchase, o.spikes)
  {
    if enableProactiveBuying
    then CalculateProactiveBuying(currentStorage, maxStorage, o.now.purchase, o.meanPurchase, o.spikes,
                                  currentToStorage)
    else (0.0, 0.0)
  }

  /** The final safety net: every quantity is raised to at least zero. */
  function Clamp(a: Allocation): (r: Allocation)
    ensures r.energyToStorage >= 0.0 && r.sellToGrid >= 0.0 && r.buyFromGrid >= 0.0 && r.takeFromStorage >= 0.0
    ensures a.energyToStorage >= 0.0 && a.sellToGrid >= 0.0 && a.buyFromGrid >= 0.0 && a.takeFromStorage >= 0.0
            ==> r == a
  {
    Allocation(Max(0.0, a.energyToStorage), Max(0.0, a.sellToGrid), Max(0.0, a.buyFromGrid), Max(0.0, a.takeFromStorage))
  }

  /** The whole decision as a function of its inputs: the base decision, the proactive extra, the clamp. */
  function Decision(production: real, consumption: real, currentStorage: real, maxStorage: real,
                    table: Table, hour: int, p2pPrice: real, lookAheadHours: int, enableProactiveBuying: bool,
                    stdPurchase: real, highSaleThreshold: real, exp: real -> real): Allocation
    requires NonNegativePrices(table) && stdPurchase >= 0.0
  {
    var o := MarketOutlook(table, hour, lookAheadHours, stdPurchase, highSaleThreshold);
    OutlookFitsProactiveBuying(table, hour, lookAheadHours, stdPurchase, highSaleThreshold);
    var base := BaseDecision(production - consumption, currentStorage, maxStorage, o, p2pPrice, exp);
    var extra := ProactiveExtra(currentStorage, maxStorage, o, enableProactiveBuying, base.energyToStorage);
    Clamp(Allocation(base.energyToStorage + extra.1, base.sellToGrid, base.buyFromGrid + extra.0, base.takeFromStorage))
  }

  // ---------------------------------------------------------------------------
  // The decision, step by step
  // ---------------------------------------------------------------------------

  /**
   * Decides one hour by updating the four quantities step by step, as the code
   * does; the result is exactly `Decision` of the same inputs, so it has every
   * property `DecisionProperties` states.
   */
  method DecideEnergyDistribution(production: real, consumption: real, currentStorage: real, maxStorage: real,
                                  table: Table, hour: int, p2pPrice: real, lookAheadHours: int,
                                  enableProactiveBuying: bool, stdPurchase: real, highSaleThreshold: real,
                                  exp: real -> real)
    returns (r: Allocation)
    requires NonNegativePrices(table) && stdPurchase >= 0.0
    ensures r == Decision(production, consumption, currentStorage, maxStorage, table, hour, p2pPrice,
                          lookAheadHours, enableProactiveBuying, stdPurchase, highSaleThreshold, exp)
  {
    var outlook := ReadMarket(table, hour, lookAheadHours, stdPurchase, highSaleThreshold);
    OutlookFitsProactiveBuying(table, hour, lookAheadHours, stdPurchase, highSaleThreshold);

    var energyBalance := production - consumption;
    var base := AllocateBalance(energyBalance, currentStorage, maxStorage, outlook, p2pPrice, exp);
    var energyToStorage, sellToGrid, buyFromGrid, takeFromStorage :=
      base.energyToStorage, base.sellToGrid, base.buyFromGrid, base.takeFromStorage;

    var extra := (0.0, 0.0);
    if enableProactiveBuying {
      extra := CalculateProactiveBuying(currentStorage, maxStorage, outlook.now.purchase, outlook.meanPurchase,
                                        outlook.spikes, energyToStorage);
      buyFromGrid := buyFromGrid + extra.0;
      energyToStorage := energyToStorage + extra.1;
    }

    r := Allocation(Max(0.0, energyToStorage), Max(0.0, sellToGrid), Max(0.0, buyFromGrid), Max(0.0, takeFromStorage));
    DecisionComposed(production, consumption, currentStorage, maxStorage, table, hour, p2pPrice, lookAheadHours,
                     enableProactiveBuying, stdPurchase, highSaleThreshold, exp, outlook, base, extra);
  }

  /** `Decision` is the clamp of the base decision plus the proactive extra, both taken on the outlook. */
  lemma DecisionComposed(production: real, consumption: real, currentStorage: real, maxStorage: real,
                         table: Table, hour: int, p2pPrice: real, lookAheadHours: int, enableProactiveBuying: bool,
                         stdPurchase: real, highSaleThreshold: real, exp: real -> real,
                         o: Outlook, base: Allocation, extra: (real, real))
    requires NonNegativePrices(table) && stdPurchase >= 0.0
    requires o == MarketOutlook(table, hour, lookAheadHours, stdPurchase, highSaleThreshold)
    requires ProactiveArguments(o.now.purchase, o.meanPurchase, o.spikes)
    requires base == BaseDecision(production - consumption, currentStorage, maxStorage, o, p2pPrice, exp)
    requires extra == ProactiveExtra(currentStorage, maxStorage, o, enableProactiveBuying, base.energyToStorage)
    ensures Decision(production, consumption, currentStorage, maxStorage, table, hour, p2pPrice,
                     lookAheadHours, enableProactiveBuying, stdPurchase, highSaleThreshold, exp)
         == Clamp(Allocation(base.energyToStorage + extra.1, base.sellToGrid, base.buyFromGrid + extra.0,
                             base.takeFromStorage))
  {
  }

  /**
   * The steps before any allocation: the current prices, the day's mean and spike
   * threshold, the scan ahead for spikes and the good sell hours.
   */
  method ReadMarket(table: Table, hour: int, lookAheadHours: int, stdPurchase: real, highSaleThreshold: real)
    returns (o: Outlook)
    ensures o == MarketOutlook(table, hour, lookAheadHours, stdPurchase, highSaleThreshold)
  {
    var currentPrices := GetGridPricesForHour(table, hour);
    var allPrices := DayPrices(table);
    var meanPurchasePrice := Mean(Purchases(allPrices));
    var purchaseSpikeThreshold := meanPurchasePrice + stdPurchase;
    var upcomingSpikes := ScanSpikes(allPrices, hour, lookAheadHours, purchaseSpikeThreshold);
    var upcomingGoodSellHours := GoodSellHours(allPrices, hour, highSaleThreshold, lookAheadHours);
    o := Outlook(currentPrices, meanPurchasePrice, purchaseSpikeThreshold, upcomingSpikes,
                 |upcomingGoodSellHours| > 0);
  }

  /** Splits a surplus (positive balance) or covers a deficit (balance zero or below). */
  method AllocateBalance(energyBalance: real, currentStorage: real, maxStorage: real, o: Outlook, p2pPrice: real,
                         exp: real -> real)
    returns (base: Allocation)
    requires o.now.purchase >= 0.0
    ensures base == BaseDecision(energyBalance, currentStorage, maxStorage, o, p2pPrice, exp)
  {
    var hoursToNextSpike := NextSpike(o.spikes);
    if energyBalance > 0.0 {
      base := SplitSurplus(energyBalance, currentStorage, maxStorage, StorageUrgency(exp, hoursToNextSpike),
                           hoursToNextSpike, o.now.sale, p2pPrice, o.goodSellAhead);
    } else {
      base := CoverDeficit(-energyBalance, currentStorage, maxStorage, o.now.purchase, o.meanPurchase,
                           o.spikeThreshold, hoursToNextSpike);
    }
  }

  /** The surplus branch, step by step: fill storage when it is prioritised and has room, sell the rest. */
  method SplitSurplus(surplus: real, currentStorage: real, maxStorage: real, storageUrgency: real,
                      hoursToNextSpike: Option<nat>, gridSalePrice: real, p2pPrice: real, goodSellAhead: bool)
    returns (a: Allocation)
    requires surplus > 0.0
    ensures a == SurplusAllocation(surplus, currentStorage, maxStorage, storageUrgency, hoursToNextSpike,
                                   gridSalePrice, p2pPrice, goodSellAhead)
  {
    var availableSurplus := surplus;
    var energyToStorage, sellToGrid := 0.0, 0.0;
    var storageCapacityLeft := maxStorage - currentStorage;
    var storageDeficit := StorageDeficit(currentStorage, maxStorage, storageUrgency);
    var p2pCompetitive := P2PCompetitive(p2pPrice, gridSalePrice);
    if ShouldPrioritizeStorage(storageDeficit, hoursToNextSpike, p2pCompetitive, goodSellAhead)
       && storageCapacityLeft > 0.0 {
      energyToStorage := Min(availableSurplus, storageCapacityLeft);
      availableSurplus := availableSurplus - energyToStorage;
    }
    if availableSurplus > 0.0 {
      sellToGrid := availableSurplus;
    }
    a := Allocation(energyToStorage, sellToGrid, 0.0, 0.0);
  }

  /**
   * The deficit branch, step by step: draw on storage when that is worth it, buy the
   * rest, and buy extra for storage when the grid is very cheap before a near spike.
   */
  method CoverDeficit(needed: real, currentStorage: real, maxStorage: real, gridPurchasePrice: real,
                      meanPurchasePrice: real, purchaseSpikeThreshold: real, hoursToNextSpike: Option<nat>)
    returns (a: Allocation)
    requires needed >= 0.0 && gridPurchasePrice >= 0.0
    ensures a == DeficitAllocation(needed, currentStorage, maxStorage, gridPurchasePrice, meanPurchasePrice,
                                   purchaseSpikeThreshold, hoursToNextSpike)
  {
    var energyNeeded := needed;
    var energyToStorage, buyFromGrid, takeFromStorage := 0.0, 0.0, 0.0;
    var isCurrentPriceSpike := gridPurchasePrice > purchaseSpikeThreshold;
    if ShouldUseStorage(isCurrentPriceSpike, hoursToNextSpike, currentStorage, maxStorage) && currentStorage > 0.0 {
      takeFromStorage := Min(StorageUsageCap(isCurrentPriceSpike, currentStorage), energyNeeded);
      energyNeeded := energyNeeded - takeFromStorage;
    }
    if energyNeeded > 0.0 {
      var storageSpaceAvailable := maxStorage - currentStorage;
      buyFromGrid := energyNeeded;
      if VeryCheap(gridPurchasePrice, meanPurchasePrice) && SpikeWithin(hoursToNextSpike, 12)
         && storageSpaceAvailable > 0.0 {
        var extraBuy := CheapExtra(gridPurchasePrice, meanPurchasePrice, storageSpaceAvailable);
        energyToStorage := energyToStorage + extraBuy;
        buyFromGrid := buyFromGrid + extraBuy;
      }
    }
    a := Allocation(energyToStorage, 0.0, buyFromGrid, takeFromStorage);
  }

  // ---------------------------------------------------------------------------
  // Properties of the decision
  // ---------------------------------------------------------------------------

  /**
   * What every decision satisfies. Every quantity is non-negative, energy is conserved
   * (production plus purchase plus storage draw equals consumption plus storage fill
   * plus sale), storage is drawn only in a deficit and never beyond what is stored,
   * energy is sold only in a surplus, and storage is never filled past its free capacity.
   */
  lemma DecisionProperties(production: real, consumption: real, currentStorage: real, maxStorage: real,
                           table: Table, hour: int, p2pPrice: real, lookAheadHours: int, enableProactiveBuying: bool,
                           stdPurchase: real, highSaleThreshold: real, exp: real -> real)
    requires NonNegativePrices(table) && stdPurchase >= 0.0
    ensures var r := Decision(production, consumption, currentStorage, maxStorage, table, hour, p2pPrice,
                              lookAheadHours, enableProactiveBuying, stdPurchase, highSaleThreshold, exp);
      && r.energyToStorage >= 0.0 && r.sellToGrid >= 0.0 && r.buyFromGrid >= 0.0 && r.takeFromStorage >= 0.0
      && production + r.buyFromGrid + r.takeFromStorage == consumption + r.energyToStorage + r.sellToGrid
      && (r.takeFromStorage > 0.0 ==> production < consumption && r.takeFromStorage <= currentStorage)
      && (r.sellToGrid > 0.0 ==> production > consumption)
      && r.energyToStorage <= Max(0.0, maxStorage - currentStorage)
  {
  }

  /** Adding whole days to the current hour does not change the outlook. */
  lemma OutlookNormalisesHour(table: Table, hour: int, k: int, lookAheadHours: int, stdPurchase: real,
                              highSaleThreshold: real)
    ensures MarketOutlook(table, hour + 24 * k, lookAheadHours, stdPurchase, highSaleThreshold)
         == MarketOutlook(table, hour, lookAheadHours, stdPurchase, highSaleThreshold)
  {
    CurrentPricesShiftByDays(table, hour, k);
    LookAheadShiftsByDays(table, hour, k, lookAheadHours, stdPurchase, highSaleThreshold);
  }

  /** The outlook's current prices are unchanged by whole days added to the hour. */
  lemma CurrentPricesShiftByDays(table: Table, hour: int, k: int)
    ensures GetGridPricesForHour(table, hour + 24 * k) == GetGridPricesForHour(table, hour)
  {
    LookupShiftsByDays(table, hour, k);
  }

  /** The outlook's spikes and good sell hours are unchanged by whole days added to the hour. */
  lemma LookAheadShiftsByDays(table: Table, hour: int, k: int, lookAheadHours: int, stdPurchase: real,
                              highSaleThreshold: real)
    ensures var day := DayPrices(table);
      var threshold := Mean(Purchases(day)) + stdPurchase;
      && SpikesAhead(day, hour + 24 * k, threshold, lookAheadHours) == SpikesAhead(day, hour, threshold, lookAheadHours)
      && GoodSellHours(day, hour + 24 * k, highSaleThreshold, lookAheadHours)
         == GoodSellHours(day, hour, highSaleThreshold, lookAheadHours)
  {
    var day := DayPrices(table);
    LookAheadNormalisesHour(day, hour, k, Mean(Purchases(day)) + stdPurchase, highSaleThreshold, lookAheadHours);
  }

  /** An hour outside 0..23 is decided as the hour of day it stands for. */
  lemma DecisionNormalisesHour(production: real, consumption: real, currentStorage: real, maxStorage: real,
                               table: Table, hour: int, k: int, p2pPrice: real, lookAheadHours: int,
                               enableProactiveBuying: bool, stdPurchase: real, highSaleThreshold: real,
                               exp: real -> real)
    requires NonNegativePrices(table) && stdPurchase >= 0.0
    ensures Decision(production, consumption, currentStorage, maxStorage, table, hour + 24 * k, p2pPrice,
                     lookAheadHours, enableProactiveBuying, stdPurchase, highSaleThreshold, exp)
         == Decision(production, consumption, currentStorage, maxStorage, table, hour, p2pPrice,
                     lookAheadHours, enableProactiveBuying, stdPurchase, highSaleThreshold, exp)
  {
    OutlookNormalisesHour(table, hour, k, lookAheadHours, stdPurchase, highSaleThreshold);
  }

  /** In a balanced hour nothing is sold or drawn, and without proactive buying nothing happens at all. */
  lemma BalancedHourDecision(energy: real, currentStorage: real, maxStorage: real, table: Table, hour: int,
                             p2pPrice: real, lookAheadHours: int, enableProactiveBuying: bool,
                             stdPurchase: real, highSaleThreshold: real, exp: real -> real)
    requires NonNegativePrices(table) && stdPurchase >= 0.0
    ensures var r := Decision(energy, energy, currentStorage, maxStorage, table, hour, p2pPrice,
                              lookAheadHours, enableProactiveBuying, stdPurchase, highSaleThreshold, exp);
      r.sellToGrid == 0.0 && r.takeFromStorage == 0.0 && r.buyFromGrid == r.energyToStorage &&
      (!enableProactiveBuying ==> r == Idle)
  {
    var o := MarketOutlook(table, hour, lookAheadHours, stdPurchase, highSaleThreshold);
    BalancedHourIsIdle(currentStorage, maxStorage, o.now.purchase, o.meanPurchase, o.spikeThreshold,
                       NextSpike(o.spikes));
  }

  /** Every hour of the table has the same purchase price and the same sale price. */
  predicate FlatTable(table: Table)
  {
    var day := DayPrices(table);
    FlatPurchasePrices(day) && forall h :: 0 <= h < 24 ==> day[h].sale == day[0].sale
  }

  /** With a flat purchase price there is no spike ahead, so proactive buying adds nothing. */
  lemma FlatTableNeverBuysProactively(production: real, consumption: real, currentStorage: real, maxStorage: real,
                                      table: Table, hour: int, p2pPrice: real, lookAheadHours: int,
                                      stdPurchase: real, highSaleThreshold: real, exp: real -> real)
    requires NonNegativePrices(table) && FlatPurchasePrices(DayPrices(table))
    requires IsPopulationStd(stdPurchase, Purchases(DayPrices(table)))
    ensures Decision(production, consumption, currentStorage, maxStorage, table, hour, p2pPrice,
                     lookAheadHours, true, stdPurchase, highSaleThreshold, exp)
         == Decision(production, consumption, currentStorage, maxStorage, table, hour, p2pPrice,
                     lookAheadHours, false, stdPurchase, highSaleThreshold, exp)
  {
    FlatTableHasNoSpikes(DayPrices(table), hour, stdPurchase, lookAheadHours);
  }

  /**
   * A 30 kWh surplus with empty storage (capacity 100) under a flat table: there is
   * no spike and no good sell hour ahead, so the surplus goes to storage exactly when
   * P2P is competitive (more than 10% below the grid sale price) and is sold to the
   * grid otherwise. `sortedSales` is a sorted copy of the day's sale prices, whose 75th
   * percentile is the good-sell threshold.
   */
  lemma FlatTableSurplusScenario(table: Table, hour: int, p2pPrice: real, lookAheadHours: int,
                                 enableProactiveBuying: bool, stdPurchase: real, sortedSales: seq<real>,
                                 exp: real -> real)
    requires NonNegativePrices(table) && FlatTable(table)
    requires IsPopulationStd(stdPurchase, Purchases(DayPrices(table)))
    requires |sortedSales| == 24 && multiset(sortedSales) == multiset(Sales(DayPrices(table)))
    ensures Decision(50.0, 20.0, 0.0, 100.0, table, hour, p2pPrice, lookAheadHours, enableProactiveBuying,
                     stdPurchase, Percentile75(sortedSales), exp)
         == if P2PCompetitive(p2pPrice, DayPrices(table)[0].sale) then Allocation(30.0, 0.0, 0.0, 0.0)
            else Allocation(0.0, 30.0, 0.0, 0.0)
  {
    var day := DayPrices(table);
    var sale := day[0].sale;
    FlatTableHasNoSpikes(day, hour, stdPurchase, lookAheadHours);
    FlatTableNeverBuysProactively(50.0, 20.0, 0.0, 100.0, table, hour, p2pPrice, lookAheadHours,
                                  stdPurchase, Percentile75(sortedSales), exp);
    PercentileOfConstant(sortedSales, Sales(day), sale);
    GoodSellHoursNonEmptyIff(day, hour, sale, lookAheadHours);
    DayPricesAt(table, hour);
    assert GetGridPricesForHour(table, hour).sale == sale;
    assert StorageDeficit(0.0, 100.0, StorageUrgency(exp, None)) == 60.0;
  }
}
