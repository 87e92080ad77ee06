/**
 * Proactive buying: while the current price is well below the day's mean and a spike
 * lies ahead, buy extra grid energy straight into storage. The amount grows with the
 * price advantage and the spike's severity, peaks when the spike is 7 hours out, and
 * never takes more than half of the free storage in one hour.
 */
module ProactiveBuying {
  import opened Wrappers
  import opened Forecast
  import opened Allocation

  /** The nearest spike's distance scores 0.3 outside the 2..12 hour window and peaks at 7 inside it. */
  function TimeFactor(hoursToSpike: int): (f: real)
    ensures hoursToSpike < 2 || hoursToSpike > 12 ==> f == 0.3
    ensures 2 <= hoursToSpike <= 12 ==> 0.0 <= f <= 1.0
    ensures f == 1.0 <==> hoursToSpike == 7
    ensures f == 0.0 <==> hoursToSpike == 2 || hoursToSpike == 12
  {
    if hoursToSpike < 2 || hoursToSpike > 12 then 0.3
    else 1.0 - (if hoursToSpike >= 7 then hoursToSpike - 7 else 7 - hoursToSpike) as real / 5.0
  }

  /** Storage still free once the base decision's own storage fill is counted. */
  function AvailableStorage(currentStorage: real, maxStorage: real, currentToStorage: real): real
  {
    maxStorage - currentStorage - currentToStorage
  }

  /** Proactive buying is considered at all: a spike ahead, at least 1 kWh free, and the price more than 5% below the mean. */
  predicate ProactiveGate(currentStorage: real, maxStorage: real, currentPrice: real, meanPrice: real,
                          spikes: seq<Spike>, currentToStorage: real)
  {
    spikes != [] &&
    AvailableStorage(currentStorage, maxStorage, currentToStorage) >= 1.0 &&
    meanPrice != 0.0 && (meanPrice - currentPrice) / meanPrice > 0.05
  }

  /** What the arguments of a call from the decision satisfy: prices non-negative, a spike ahead implying positive mean and spike price. */
  predicate ProactiveArguments(currentPrice: real, meanPrice: real, spikes: seq<Spike>)
  {
    currentPrice >= 0.0 && (spikes != [] ==> meanPrice > 0.0 && spikes[0].price > 0.0)
  }

  /** The amount before the capacity caps: 5 kWh scaled by time, price and advantage factors and the spike ratio. */
  function ScaledAmount(currentPrice: real, meanPrice: real, spike: Spike): real
    requires currentPrice > 0.0 && meanPrice != 0.0
  {
    var priceAdvantageRatio := (meanPrice - currentPrice) / meanPrice;
    var spikeToCurrentRatio := spike.price / currentPrice;
    var priceFactor := Min(1.0, spikeToCurrentRatio / 2.0);
    var buyingFactor := TimeFactor(spike.hoursAway) * priceFactor * priceAdvantageRatio;
    5.0 * buyingFactor * spikeToCurrentRatio
  }

  /** The caps: scaled by how much of 20 kWh is free, at most the free space, then at most half of it. */
  function CapExtra(scaled: real, available: real): real
  {
    var capacityFactor := Min(1.0, available / 20.0);
    Min(Min(scaled * capacityFactor, available), available * 0.5)
  }

  /**
   * The proactive purchase, the same amount to buy and to store. A zero current price
   * makes the spike ratio unbounded: the amount is then half the free space when the
   * time factor is positive and nothing when it is zero.
   */
  function CalculateProactiveBuying(currentStorage: real, maxStorage: real, currentPrice: real, meanPrice: real,
                                    spikes: seq<Spike>, currentToStorage: real): (r: (real, real))
    requires ProactiveArguments(currentPrice, meanPrice, spikes)
    ensures r.0 == r.1
    ensures 0.0 <= r.0
    ensures r.0 > 0.0 ==> r.0 <= 0.5 * AvailableStorage(currentStorage, maxStorage, currentToStorage)
    ensures r.0 > 0.0 <==>
      ProactiveGate(currentStorage, maxStorage, currentPrice, meanPrice, spikes, currentToStorage) &&
      TimeFactor(spikes[0].hoursAway) > 0.0
  {
    var available := AvailableStorage(currentStorage, maxStorage, currentToStorage);
    if !ProactiveGate(currentStorage, maxStorage, currentPrice, meanPrice, spikes, currentToStorage) then (0.0, 0.0)
    else if currentPrice == 0.0 then
      var extra := if TimeFactor(spikes[0].hoursAway) > 0.0 then available * 0.5 else 0.0;
      (extra, extra)
    else
      ScaledAmountSign(currentPrice, meanPrice, spikes[0]);
      CapExtraBounds(ScaledAmount(currentPrice, meanPrice, spikes[0]), available);
      var extra := CapExtra(ScaledAmount(currentPrice, meanPrice, spikes[0]), available);
      (extra, extra)
  }

  lemma ScaledAmountSign(currentPrice: real, meanPrice: real, spike: Spike)
    requires currentPrice > 0.0 && meanPrice != 0.0 && spike.price > 0.0
    requires (meanPrice - currentPrice) / meanPrice > 0.05
    ensures ScaledAmount(currentPrice, meanPrice, spike) >= 0.0
    ensures ScaledAmount(currentPrice, meanPrice, spike) > 0.0 <==> TimeFactor(spike.hoursAway) > 0.0
  {
    var ratio := spike.price / currentPrice;
    var advantage := (meanPrice - currentPrice) / meanPrice;
    var priceFactor := Min(1.0, ratio / 2.0);
    var t := TimeFactor(spike.hoursAway);
    assert t >= 0.0;
    assert ratio > 0.0;
    assert priceFactor > 0.0;
    assert advantage > 0.0;
    assert ScaledAmount(currentPrice, meanPrice, spike) == 5.0 * (t * priceFactor * advantage) * ratio;
    ScaledProductSign(t, priceFactor, advantage, ratio);
  }

  lemma ScaledProductSign(t: real, p: real, a: real, s: real)
    requires t >= 0.0 && p > 0.0 && a > 0.0 && s > 0.0
    ensures 5.0 * (t * p * a) * s >= 0.0
    ensures 5.0 * (t * p * a) * s > 0.0 <==> t > 0.0
  {
  }

  lemma CapExtraBounds(scaled: real, available: real)
    requires scaled >= 0.0 && available >= 1.0
    ensures 0.0 <= CapExtra(scaled, available) <= available * 0.5
    ensures CapExtra(scaled, available) > 0.0 <==> scaled > 0.0
  {
    var capacityFactor := Min(1.0, available / 20.0);
    assert 0.0 < capacityFactor <= 1.0;
    if scaled > 0.0 {
      ProductIsPositive(scaled, capacityFactor);
    }
  }

  lemma ProductIsPositive(x: real, y: real)
    requires x > 0.0 && y > 0.0
    ensures x * y > 0.0
  {
  }

  // ---------------------------------------------------------------------------
  // The same computation in IEEE floating point, as `calculate_proactive_buying` evaluates it
  // ---------------------------------------------------------------------------

  /** A floating-point quantity that is either a number or NaN. */
  datatype Amount = Kwh(kwh: real) | NaN

  /**
   * The proactive purchase as `calculate_proactive_buying` computes it in floating point. At a
   * zero current price spike_price / current_price is +inf; with a zero time factor
   * (the spike exactly 2 or 12 hours away) the buying factor is 0.0 and
   * 5.0 * 0.0 * inf is NaN, which min(NaN, x) passes on.
   */
  function ProactiveBuyingAsWritten(currentStorage: real, maxStorage: real, currentPrice: real, meanPrice: real,
                                    spikes: seq<Spike>, currentToStorage: real): (r: (Amount, Amount))
    requires ProactiveArguments(currentPrice, meanPrice, spikes)
    ensures r.0 == r.1
    ensures r.0 == NaN <==>
      ProactiveGate(currentStorage, maxStorage, currentPrice, meanPrice, spikes, currentToStorage) &&
      currentPrice == 0.0 && TimeFactor(spikes[0].hoursAway) == 0.0
    ensures r.0 != NaN ==> r.0 == Kwh(CalculateProactiveBuying(currentStorage, maxStorage, currentPrice, meanPrice, spikes, currentToStorage).0)
  {
    var available := AvailableStorage(currentStorage, maxStorage, currentToStorage);
    if !ProactiveGate(currentStorage, maxStorage, currentPrice, meanPrice, spikes, currentToStorage) then (Kwh(0.0), Kwh(0.0))
    else if currentPrice == 0.0 then
      // price factor min(1.0, inf / 2) is 1.0; the price advantage ratio is exactly 1.0
      var extra := if TimeFactor(spikes[0].hoursAway) > 0.0 then Kwh(available * 0.5) else NaN;
      (extra, extra)
    else
      var extra := Kwh(CapExtra(ScaledAmount(currentPrice, meanPrice, spikes[0]), available));
      (extra, extra)
  }

  /** Python's max(0, x): NaN compares false with 0, so the result is 0. */
  function ClampAmount(x: Amount): real
  {
    match x
    case NaN => 0.0
    case Kwh(v) => Max(0.0, v)
  }

  /** Adding NaN to a quantity gives NaN. */
  function AddAmount(base: real, extra: Amount): Amount
  {
    match extra
    case NaN => NaN
    case Kwh(v) => Kwh(base + v)
  }

  /**
   * A concrete hour the code gets wrong: nothing stored (capacity 100 kWh), a deficit
   * of 15 kWh, the current price 0.0, the mean 1.0, and a spike at 10.0 exactly 2 hours
   * away, above a spike threshold between 0.0 and 10.0. The deficit cover buys 25 kWh,
   * 10 kWh of it into storage. The proactive amount is then NaN, and the final clamp
   * turns the purchase into 0 kWh, leaving the deficit uncovered; the corrected amount
   * is 0 kWh and the purchase stays at 25 kWh.
   */
  lemma NaNPurchaseWitness(spikeThreshold: real)
    requires 0.0 <= spikeThreshold < 10.0
    ensures DeficitAllocation(15.0, 0.0, 100.0, 0.0, 1.0, spikeThreshold, Some(2)) == Allocation(10.0, 0.0, 25.0, 0.0)
    ensures var base := DeficitAllocation(15.0, 0.0, 100.0, 0.0, 1.0, spikeThreshold, Some(2));
      var asWritten := ProactiveBuyingAsWritten(0.0, 100.0, 0.0, 1.0, [Spike(5, 10.0, 2)], base.energyToStorage);
      var corrected := CalculateProactiveBuying(0.0, 100.0, 0.0, 1.0, [Spike(5, 10.0, 2)], base.energyToStorage);
      && asWritten == (NaN, NaN)
      && ClampAmount(AddAmount(base.buyFromGrid, asWritten.0)) == 0.0
      && corrected == (0.0, 0.0)
      && Max(0.0, base.buyFromGrid + corrected.0) == 25.0
  {
    assert TimeFactor(2) == 0.0;
    assert ProactiveGate(0.0, 100.0, 0.0, 1.0, [Spike(5, 10.0, 2)], 10.0);
  }
}
