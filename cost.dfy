/**
 * The cost evaluator: the signed net cost of a finished allocation at the current
 * hour's prices (positive is a cost, negative a profit).
 */
module Cost {
  import opened PriceTable

  /**
   * Grid purchases at the current purchase price, minus grid sales at the current sale
   * price, minus P2P sales at the P2P price. Drawing on storage costs nothing.
   */
  function CalculateCost(buyFromGrid: real, sellToGrid: real, sellToP2P: real, takeFromStorage: real,
                         table: Table, hour: int, p2pPrice: real): (c: real)
    ensures buyFromGrid == 0.0 && sellToGrid == 0.0 && sellToP2P == 0.0 ==> c == 0.0
  {
    var prices := GetGridPricesForHour(table, hour);
    buyFromGrid * prices.purchase - sellToGrid * prices.sale - sellToP2P * p2pPrice
  }

  /** The energy drawn from storage does not enter the cost. */
  lemma CostIgnoresStorageDraw(buyFromGrid: real, sellToGrid: real, sellToP2P: real, t1: real, t2: real,
                               table: Table, hour: int, p2pPrice: real)
    ensures CalculateCost(buyFromGrid, sellToGrid, sellToP2P, t1, table, hour, p2pPrice)
         == CalculateCost(buyFromGrid, sellToGrid, sellToP2P, t2, table, hour, p2pPrice)
  {
  }

  /** The cost is additive: the cost of two allocations combined is the sum of their costs. */
  lemma CostIsAdditive(b1: real, s1: real, q1: real, b2: real, s2: real, q2: real, takeFromStorage: real,
                       table: Table, hour: int, p2pPrice: real)
    ensures CalculateCost(b1 + b2, s1 + s2, q1 + q2, takeFromStorage, table, hour, p2pPrice)
         == CalculateCost(b1, s1, q1, takeFromStorage, table, hour, p2pPrice)
          + CalculateCost(b2, s2, q2, takeFromStorage, table, hour, p2pPrice)
  {
  }

  /** The cost scales with the allocation: k times every quantity costs k times as much. */
  lemma CostIsHomogeneous(k: real, buyFromGrid: real, sellToGrid: real, sellToP2P: real, takeFromStorage: real,
                          table: Table, hour: int, p2pPrice: real)
    ensures CalculateCost(k * buyFromGrid, k * sellToGrid, k * sellToP2P, takeFromStorage, table, hour, p2pPrice)
         == k * CalculateCost(buyFromGrid, sellToGrid, sellToP2P, takeFromStorage, table, hour, p2pPrice)
  {
  }

  /**
   * The cost is sign-consistent: with non-negative prices and quantities, buying only
   * is never a profit and selling only is never a cost.
   */
  lemma CostSign(buyFromGrid: real, sellToGrid: real, sellToP2P: real, takeFromStorage: real,
                 table: Table, hour: int, p2pPrice: real)
    requires NonNegativePrices(table) && p2pPrice >= 0.0
    requires buyFromGrid >= 0.0 && sellToGrid >= 0.0 && sellToP2P >= 0.0
    ensures sellToGrid == 0.0 && sellToP2P == 0.0 ==>
      CalculateCost(buyFromGrid, sellToGrid, sellToP2P, takeFromStorage, table, hour, p2pPrice) >= 0.0
    ensures buyFromGrid == 0.0 ==>
      CalculateCost(buyFromGrid, sellToGrid, sellToP2P, takeFromStorage, table, hour, p2pPrice) <= 0.0
  {
  }

  /** Whole days added to the hour do not change the cost. */
  lemma CostNormalisesHour(buyFromGrid: real, sellToGrid: real, sellToP2P: real, takeFromStorage: real,
                           table: Table, hour: int, k: int, p2pPrice: real)
    ensures CalculateCost(buyFromGrid, sellToGrid, sellToP2P, takeFromStorage, table, hour + 24 * k, p2pPrice)
         == CalculateCost(buyFromGrid, sellToGrid, sellToP2P, takeFromStorage, table, hour, p2pPrice)
  {
    LookupShiftsByDays(table, hour, k);
  }

  /**
   * 10 kWh bought at a purchase price of 0.6, with nothing sold, cost 6.0 whatever
   * the sale and P2P prices are.
   */
  lemma PurchaseOnlyCost(entries: seq<PriceEntry>, hour: int, p2pPrice: real, takeFromStorage: real)
    requires |entries| == 24 && entries[hour % 24].purchase == 0.6
    ensures CalculateCost(10.0, 0.0, 0.0, takeFromStorage, TableFromEntries(entries), hour, p2pPrice) == 6.0
  {
    LookupCompleteTable(entries, hour);
  }

  /**
   * A missing hour is priced at the fallback: buying costs 0.5 and selling to the grid
   * earns 0.25 per kWh.
   */
  lemma FallbackCost(buyFromGrid: real, sellToGrid: real, sellToP2P: real, takeFromStorage: real,
                     table: Table, hour: int, p2pPrice: real)
    requires HourRangeLabel(hour) !in table
    ensures CalculateCost(buyFromGrid, sellToGrid, sellToP2P, takeFromStorage, table, hour, p2pPrice)
         == buyFromGrid * 0.5 - sellToGrid * 0.25 - sellToP2P * p2pPrice
  {
    LookupHitOrFallback(table, hour);
  }
}
