/**
 * The look-ahead part of the decision: the day's price rows, the scan of the next
 * hours for purchase-price spikes, the distance to the nearest spike and the hours
 * whose sale price is high.
 */
module Forecast {
  import opened Wrappers
  import opened PriceTable
  import opened PriceStatistics

  /** The prices of the 24 hours of the day, in hour order. */
  type Day = day: seq<PriceEntry> | |day| == 24 witness seq(24, h => PriceEntry(0.0, 0.0))

  /** The day as the lookup yields it, hour by hour (fallback rows included). */
  function DayPrices(table: Table): Day
  {
    seq(24, h requires 0 <= h < 24 => GetGridPricesForHour(table, h))
  }

  /** The lookup of any hour, however far outside 0..23, is the day's row for its hour of day. */
  lemma DayPricesAt(table: Table, hour: int)
    ensures DayPrices(table)[hour % 24] == GetGridPricesForHour(table, hour)
  {
    LookupNormalisesHour(table, hour, 0);
  }

  /** The day's purchase prices in hour order. */
  function Purchases(day: Day): seq<real>
  {
    seq(24, h requires 0 <= h < 24 => day[h].purchase)
  }

  /** The day's sale prices in hour order. */
  function Sales(day: Day): seq<real>
  {
    seq(24, h requires 0 <= h < 24 => day[h].sale)
  }

  /** An upcoming hour whose purchase price exceeds the spike threshold. */
  datatype Spike = Spike(hour: int, price: real, hoursAway: nat)

  /** The hour of day `offset` hours after `hour`. */
  function HourAhead(hour: int, offset: int): int
  {
    (hour + offset) % 24
  }

  /** The hour `offset` hours ahead is a spike: its purchase price is above the threshold. */
  predicate IsSpikeAhead(day: Day, hour: int, threshold: real, offset: int)
  {
    day[HourAhead(hour, offset)].purchase > threshold
  }

  /** The spike record for the hour `offset` hours ahead. */
  function SpikeAt(day: Day, hour: int, offset: nat): Spike
  {
    var h := HourAhead(hour, offset);
    Spike(h, day[h].purchase, offset)
  }

  /** The spikes among the next `n` hours, nearest first (the reference for the scan). */
  function SpikesAhead(day: Day, hour: int, threshold: real, n: int): seq<Spike>
    decreases n
  {
    if n <= 0 then []
    else
      SpikesAhead(day, hour, threshold, n - 1) +
      (if IsSpikeAhead(day, hour, threshold, n) then [SpikeAt(day, hour, n)] else [])
  }

  /**
   * Walks the next `lookAheadHours` hours, wrapping past midnight, and records each hour
   * whose purchase price is above `threshold`, with its distance from `hour`: exactly
   * the spikes of the window, nearest first.
   */
  method ScanSpikes(day: Day, hour: int, lookAheadHours: int, threshold: real) returns (spikes: seq<Spike>)
    ensures spikes == SpikesAhead(day, hour, threshold, lookAheadHours)
    ensures forall s :: s in spikes ==>
      1 <= s.hoursAway <= lookAheadHours && s.price > threshold &&
      s.hour == HourAhead(hour, s.hoursAway) && s.price == day[s.hour].purchase
    ensures forall d: nat :: SpikeAt(day, hour, d) in spikes <==>
      1 <= d <= lookAheadHours && IsSpikeAhead(day, hour, threshold, d)
    ensures forall j, k :: 0 <= j < k < |spikes| ==> spikes[j].hoursAway < spikes[k].hoursAway
  {
    spikes := [];
    var i := 0;
    while i < lookAheadHours
      invariant 0 <= i && (lookAheadHours >= 0 ==> i <= lookAheadHours) && (lookAheadHours < 0 ==> i == 0)
      invariant spikes == SpikesAhead(day, hour, threshold, i)
    {
      var h := HourAhead(hour, i + 1);
      var prices := day[h];
      if prices.purchase > threshold {
        spikes := spikes + [Spike(h, prices.purchase, i + 1)];
      }
      i := i + 1;
    }
    SpikesAheadSound(day, hour, threshold, lookAheadHours);
    SpikesAheadExact(day, hour, threshold, lookAheadHours);
    SpikesAheadIncreasing(day, hour, threshold, lookAheadHours);
  }

  /** Distance to the nearest spike; None stands for "no spike", i.e. infinitely far. */
  function NextSpike(spikes: seq<Spike>): Option<nat>
  {
    if spikes == [] then None else Some(spikes[0].hoursAway)
  }

  /** The upcoming hours, among the next `n`, whose sale price is above `threshold`. */
  function GoodSellHours(day: Day, hour: int, threshold: real, n: int): seq<int>
    decreases n
  {
    if n <= 0 then []
    else
      var h := HourAhead(hour, n);
      GoodSellHours(day, hour, threshold, n - 1) + (if day[h].sale > threshold then [h] else [])
  }

  // ---------------------------------------------------------------------------
  // Lemmas about the scan
  // ---------------------------------------------------------------------------

  /** Every recorded spike is the record of a spike hour of the window. */
  lemma {:induction false} SpikesAheadSound(day: Day, hour: int, threshold: real, n: int)
    ensures forall s :: s in SpikesAhead(day, hour, threshold, n) ==>
      1 <= s.hoursAway <= n && IsSpikeAhead(day, hour, threshold, s.hoursAway) &&
      s == SpikeAt(day, hour, s.hoursAway)
    decreases n
  {
    if n > 0 {
      SpikesAheadSound(day, hour, threshold, n - 1);
    }
  }

  /** The record of the hour `d` ahead is in the list exactly when that hour is a spike of the window. */
  lemma {:induction false} SpikesAheadExact(day: Day, hour: int, threshold: real, n: int)
    ensures forall d: nat :: SpikeAt(day, hour, d) in SpikesAhead(day, hour, threshold, n) <==>
      1 <= d <= n && IsSpikeAhead(day, hour, threshold, d)
    decreases n
  {
    SpikesAheadSound(day, hour, threshold, n);
    if n > 0 {
      SpikesAheadExact(day, hour, threshold, n - 1);
    }
  }

  /** Spikes are recorded in strictly increasing distance. */
  lemma {:induction false} SpikesAheadIncreasing(day: Day, hour: int, threshold: real, n: int)
    ensures forall j, k :: 0 <= j < k < |SpikesAhead(day, hour, threshold, n)| ==>
      SpikesAhead(day, hour, threshold, n)[j].hoursAway < SpikesAhead(day, hour, threshold, n)[k].hoursAway
    decreases n
  {
    if n > 0 {
      var prefix := SpikesAhead(day, hour, threshold, n - 1);
      var all := SpikesAhead(day, hour, threshold, n);
      SpikesAheadIncreasing(day, hour, threshold, n - 1);
      SpikesAheadBelow(day, hour, threshold, n - 1);
      if IsSpikeAhead(day, hour, threshold, n) {
        assert all == prefix + [SpikeAt(day, hour, n)];
        forall j, k | 0 <= j < k < |all|
          ensures all[j].hoursAway < all[k].hoursAway
        {
          assert all[j] == prefix[j];
          if k < |prefix| {
            assert all[k] == prefix[k];
          }
        }
      }
    }
  }

  /** The spike at any position of the list lies within the window. */
  lemma {:induction false} SpikesAheadBelow(day: Day, hour: int, threshold: real, n: int)
    ensures forall j :: 0 <= j < |SpikesAhead(day, hour, threshold, n)| ==>
      SpikesAhead(day, hour, threshold, n)[j].hoursAway <= n
    decreases n
  {
    if n > 0 {
      SpikesAheadBelow(day, hour, threshold, n - 1);
    }
  }

  /** No spike is recorded exactly when no hour of the window is above the threshold. */
  lemma {:induction false} NoSpikesIff(day: Day, hour: int, threshold: real, n: int)
    ensures SpikesAhead(day, hour, threshold, n) == [] <==>
      forall d :: 1 <= d <= n ==> !IsSpikeAhead(day, hour, threshold, d)
  {
    SpikesAheadSound(day, hour, threshold, n);
    SpikesAheadExact(day, hour, threshold, n);
    var spikes := SpikesAhead(day, hour, threshold, n);
    if spikes != [] {
      assert spikes[0] in spikes;
    } else {
      forall d | 1 <= d <= n
        ensures !IsSpikeAhead(day, hour, threshold, d)
      {
        assert SpikeAt(day, hour, d) !in spikes;
      }
    }
  }

  /**
   * hours_to_next_spike is the nearest spike's distance: Some(d) exactly when hour d
   * ahead is a spike and no nearer hour is, None exactly when the window has no spike.
   */
  lemma {:induction false} NextSpikeIsNearest(day: Day, hour: int, threshold: real, n: int, d: nat)
    ensures NextSpike(SpikesAhead(day, hour, threshold, n)) == Some(d) <==>
      1 <= d <= n && IsSpikeAhead(day, hour, threshold, d) &&
      forall e :: 1 <= e < d ==> !IsSpikeAhead(day, hour, threshold, e)
    ensures NextSpike(SpikesAhead(day, hour, threshold, n)) == None <==>
      forall e :: 1 <= e <= n ==> !IsSpikeAhead(day, hour, threshold, e)
  {
    var spikes := SpikesAhead(day, hour, threshold, n);
    SpikesAheadSound(day, hour, threshold, n);
    SpikesAheadExact(day, hour, threshold, n);
    SpikesAheadIncreasing(day, hour, threshold, n);
    NoSpikesIff(day, hour, threshold, n);
    if spikes != [] {
      var first := spikes[0].hoursAway;
      assert spikes[0] in spikes;
      assert forall s :: s in spikes ==> first <= s.hoursAway by {
        forall s | s in spikes ensures first <= s.hoursAway {
          var k :| 0 <= k < |spikes| && spikes[k] == s;
        }
      }
      forall e | 1 <= e < first
        ensures !IsSpikeAhead(day, hour, threshold, e)
      {
        assert SpikeAt(day, hour, e).hoursAway == e;
      }
      if 1 <= d <= n && IsSpikeAhead(day, hour, threshold, d) {
        assert SpikeAt(day, hour, d) in spikes;
      }
    }
  }

  /** Whether some good sell hour exists is whether the window holds a sale price above the threshold. */
  lemma {:induction false} GoodSellHoursNonEmptyIff(day: Day, hour: int, threshold: real, n: int)
    ensures |GoodSellHours(day, hour, threshold, n)| > 0 <==>
      exists d :: 1 <= d <= n && day[HourAhead(hour, d)].sale > threshold
    decreases n
  {
    if n > 0 {
      GoodSellHoursNonEmptyIff(day, hour, threshold, n - 1);
      if |GoodSellHours(day, hour, threshold, n)| > 0 && |GoodSellHours(day, hour, threshold, n - 1)| == 0 {
        assert day[HourAhead(hour, n)].sale > threshold;
      }
    }
  }

  /** Adding whole days to the current hour changes neither the spikes nor the good sell hours ahead. */
  lemma {:induction false} LookAheadNormalisesHour(day: Day, hour: int, k: int, threshold: real, saleThreshold: real, n: int)
    ensures SpikesAhead(day, hour + 24 * k, threshold, n) == SpikesAhead(day, hour, threshold, n)
    ensures GoodSellHours(day, hour + 24 * k, saleThreshold, n) == GoodSellHours(day, hour, saleThreshold, n)
    decreases n
  {
    if n > 0 {
      LookAheadNormalisesHour(day, hour, k, threshold, saleThreshold, n - 1);
      HourAheadNormalises(hour, k, n);
    }
  }

  /** Whole days added to the hour land on the same hour of day. */
  lemma HourAheadNormalises(hour: int, k: int, offset: int)
    ensures HourAhead(hour + 24 * k, offset) == HourAhead(hour, offset)
  {
    assert (hour + offset) + 24 * k == hour + 24 * k + offset;
  }

  // ---------------------------------------------------------------------------
  // The degenerate table
  // ---------------------------------------------------------------------------

  /** All 24 hours have the same purchase price. */
  predicate FlatPurchasePrices(day: Day)
  {
    forall h :: 0 <= h < 24 ==> day[h].purchase == day[0].purchase
  }

  /**
   * With a flat purchase price the standard deviation is zero, the threshold mean + std
   * is the price itself, and the scan records no spike however far it looks.
   */
  lemma FlatTableHasNoSpikes(day: Day, hour: int, std: real, n: int)
    requires FlatPurchasePrices(day)
    requires IsPopulationStd(std, Purchases(day))
    ensures std == 0.0
    ensures Mean(Purchases(day)) + std == day[0].purchase
    ensures SpikesAhead(day, hour, Mean(Purchases(day)) + std, n) == []
  {
    var c := day[0].purchase;
    var ps := Purchases(day);
    MeanConstant(ps, c);
    ConstantStdIsZero(ps, c, std);
    forall d | 1 <= d <= n
      ensures !IsSpikeAhead(day, hour, c, d)
    {
      var h := HourAhead(hour, d);
      assert 0 <= h < 24;
    }
    NoSpikesIff(day, hour, c, n);
  }
}
