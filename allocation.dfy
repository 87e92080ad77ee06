/**
 * The allocation policy: how one hour's surplus is split between storage and grid
 * sale, and how one hour's deficit is covered by storage draw and grid purchase
 * (with an extra purchase into storage while the price is very low).
 */
module Allocation {
  import opened Wrappers

  /** The four quantities of a decision, in kWh. */
  datatype Allocation = Allocation(energyToStorage: real, sellToGrid: real, buyFromGrid: real, takeFromStorage: real)

  const Idle: Allocation := Allocation(0.0, 0.0, 0.0, 0.0)

  function Min(a: real, b: real): real
  {
    if b < a then b else a
  }

  function Max(a: real, b: real): real
  {
    if b > a then b else a
  }

  /** A spike is fewer than `hours` away; "no spike" counts as infinitely far. */
  predicate SpikeWithin(nextSpike: Option<nat>, hours: nat)
  {
    nextSpike.Some? && nextSpike.value < hours
  }

  /** A spike is more than `hours` away, or there is none. */
  predicate SpikeBeyond(nextSpike: Option<nat>, hours: nat)
  {
    nextSpike.None? || nextSpike.value > hours
  }

  // ---------------------------------------------------------------------------
  // Surplus
  // ---------------------------------------------------------------------------

  /**
   * How strongly storage is favoured: exp(-0.1 * hours) for the nearest spike, using
   * the exponential the caller supplies, and a base urgency of 0.1 when there is none.
   */
  function StorageUrgency(exp: real -> real, nextSpike: Option<nat>): real
  {
    match nextSpike
    case Some(hours) => exp(-0.1 * hours as real)
    case None => 0.1
  }

  /** The storage level aimed at, as a fraction of capacity: 0.5 plus urgency, at most 0.9. */
  function TargetStoragePercentage(urgency: real): real
  {
    Min(0.9, 0.5 + urgency)
  }

  /** How far storage is below its target level, never negative. */
  function StorageDeficit(currentStorage: real, maxStorage: real, urgency: real): real
  {
    Max(0.0, maxStorage * TargetStoragePercentage(urgency) - currentStorage)
  }

  /** P2P is competitive when its price is more than 10% below the grid sale price. */
  predicate P2PCompetitive(p2pPrice: real, saleNow: real)
  {
    p2pPrice < saleNow * 0.9
  }

  /** Store first when a spike is near and storage is short, when P2P is competitive, or when good sell hours lie ahead and storage is short. */
  predicate ShouldPrioritizeStorage(storageDeficit: real, nextSpike: Option<nat>, p2pCompetitive: bool, goodSellAhead: bool)
  {
    (storageDeficit > 0.0 && SpikeWithin(nextSpike, 12)) || p2pCompetitive || (goodSellAhead && storageDeficit > 0.0)
  }

  /**
   * The split of a surplus: when storage is prioritised and has room it takes as much
   * as fits, and whatever is left is sold to the grid.
   */
  function SurplusAllocation(surplus: real, currentStorage: real, maxStorage: real, urgency: real,
                             nextSpike: Option<nat>, saleNow: real, p2pPrice: real, goodSellAhead: bool): (a: Allocation)
    requires surplus > 0.0
    ensures a.buyFromGrid == 0.0 && a.takeFromStorage == 0.0
    ensures a.energyToStorage >= 0.0 && a.sellToGrid >= 0.0
    ensures a.energyToStorage + a.sellToGrid == surplus
    ensures a.energyToStorage > 0.0 <==>
      ShouldPrioritizeStorage(StorageDeficit(currentStorage, maxStorage, urgency), nextSpike,
                              P2PCompetitive(p2pPrice, saleNow), goodSellAhead) &&
      maxStorage - currentStorage > 0.0
    ensures a.energyToStorage <= Max(0.0, maxStorage - currentStorage)
    ensures a.energyToStorage > 0.0 && a.sellToGrid > 0.0 ==> a.energyToStorage == maxStorage - currentStorage
  {
    var capacityLeft := maxStorage - currentStorage;
    var prioritize := ShouldPrioritizeStorage(StorageDeficit(currentStorage, maxStorage, urgency), nextSpike,
                                              P2PCompetitive(p2pPrice, saleNow), goodSellAhead);
    var toStorage := if prioritize && capacityLeft > 0.0 then Min(surplus, capacityLeft) else 0.0;
    var remaining := surplus - toStorage;
    Allocation(toStorage, if remaining > 0.0 then remaining else 0.0, 0.0, 0.0)
  }

  /** With an exponential bounded by (0, 1] on non-positive arguments, urgency lies in (0, 1] and the target in (0.5, 0.9]. */
  lemma UrgencyBounds(exp: real -> real, nextSpike: Option<nat>)
    requires forall x: real :: x <= 0.0 ==> 0.0 < exp(x) <= 1.0
    ensures 0.0 < StorageUrgency(exp, nextSpike) <= 1.0
    ensures 0.5 < TargetStoragePercentage(StorageUrgency(exp, nextSpike)) <= 0.9
  {
    match nextSpike
    case Some(hours) =>
      assert -0.1 * hours as real <= 0.0;
    case None =>
  }

  // ---------------------------------------------------------------------------
  // Deficit
  // ---------------------------------------------------------------------------

  /** Draw on storage when the current hour is a spike, no spike is due within 6 hours, or storage is over 80% full. */
  predicate ShouldUseStorage(isSpikeNow: bool, nextSpike: Option<nat>, currentStorage: real, maxStorage: real)
  {
    isSpikeNow || SpikeBeyond(nextSpike, 6) || currentStorage > 0.8 * maxStorage
  }

  /** The most storage may give this hour: all of it during a spike, half otherwise. */
  function StorageUsageCap(isSpikeNow: bool, currentStorage: real): real
  {
    if isSpikeNow then currentStorage else currentStorage * 0.5
  }

  /** The current price is more than 20% below the day's mean. */
  predicate VeryCheap(purchaseNow: real, meanPurchase: real)
  {
    purchaseNow < meanPurchase * 0.8
  }

  /** Extra energy bought into storage while very cheap: ten times the relative price advantage, capped by free space. */
  function CheapExtra(purchaseNow: real, meanPurchase: real, storageSpace: real): (extra: real)
    requires meanPurchase != 0.0
  {
    var priceAdvantageRatio := (meanPurchase - purchaseNow) / meanPurchase;
    Min(storageSpace, priceAdvantageRatio * 10.0)
  }

  /**
   * The cover of a deficit: storage gives up to its cap when it is to be used, the
   * grid supplies the rest, and while the price is very low and a spike is within 12
   * hours an extra amount is bought straight into storage.
   */
  function DeficitAllocation(needed: real, currentStorage: real, maxStorage: real, purchaseNow: real,
                             meanPurchase: real, spikeThreshold: real, nextSpike: Option<nat>): (a: Allocation)
    requires needed >= 0.0 && purchaseNow >= 0.0
    ensures a.sellToGrid == 0.0
    ensures 0.0 <= a.takeFromStorage <= needed
    ensures a.takeFromStorage > 0.0 ==>
      ShouldUseStorage(purchaseNow > spikeThreshold, nextSpike, currentStorage, maxStorage) &&
      a.takeFromStorage <= currentStorage
    ensures a.takeFromStorage > 0.0 && purchaseNow <= spikeThreshold ==> a.takeFromStorage <= currentStorage * 0.5
    ensures ShouldUseStorage(purchaseNow > spikeThreshold, nextSpike, currentStorage, maxStorage) && currentStorage > 0.0 ==>
      a.takeFromStorage == Min(StorageUsageCap(purchaseNow > spikeThreshold, currentStorage), needed)
    ensures a.takeFromStorage + (a.buyFromGrid - a.energyToStorage) == needed
    ensures 0.0 <= a.energyToStorage <= Max(0.0, maxStorage - currentStorage)
    ensures a.energyToStorage > 0.0 <==>
      a.takeFromStorage < needed && VeryCheap(purchaseNow, meanPurchase) && SpikeWithin(nextSpike, 12) &&
      maxStorage - currentStorage > 0.0
    ensures a.energyToStorage > 0.0 ==> a.energyToStorage <= (meanPurchase - purchaseNow) / meanPurchase * 10.0
    ensures needed == 0.0 ==> a == Idle
  {
    var isSpikeNow := purchaseNow > spikeThreshold;
    var take := if ShouldUseStorage(isSpikeNow, nextSpike, currentStorage, maxStorage) && currentStorage > 0.0
                then Min(StorageUsageCap(isSpikeNow, currentStorage), needed) else 0.0;
    var remaining := needed - take;
    if remaining > 0.0 then
      var space := maxStorage - currentStorage;
      var extra := if VeryCheap(purchaseNow, meanPurchase) && SpikeWithin(nextSpike, 12) && space > 0.0
                   then CheapExtra(purchaseNow, meanPurchase, space) else 0.0;
      Allocation(extra, 0.0, remaining + extra, take)
    else
      Allocation(0.0, 0.0, 0.0, take)
  }

  /** With production equal to consumption the base decision does nothing at all. */
  lemma BalancedHourIsIdle(currentStorage: real, maxStorage: real, purchaseNow: real,
                           meanPurchase: real, spikeThreshold: real, nextSpike: Option<nat>)
    requires purchaseNow >= 0.0
    ensures DeficitAllocation(0.0, currentStorage, maxStorage, purchaseNow, meanPurchase, spikeThreshold, nextSpike) == Idle
  {
  }

  /**
   * The deficit case worked through by hand: 15 kWh needed, 20 of 100 kWh stored, the
   * hour not a spike, the next spike 3 hours away and the price not very low. Storage
   * is kept for the spike and the grid supplies all 15 kWh.
   */
  lemma DeficitKeepsStorageBeforeNearSpike(purchaseNow: real, meanPurchase: real, spikeThreshold: real)
    requires 0.0 <= purchaseNow <= spikeThreshold && purchaseNow >= meanPurchase * 0.8
    ensures DeficitAllocation(15.0, 20.0, 100.0, purchaseNow, meanPurchase, spikeThreshold, Some(3)) == Allocation(0.0, 0.0, 15.0, 0.0)
  {
  }
}
