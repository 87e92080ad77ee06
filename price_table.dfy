/**
 * The grid price table: one (purchase, sale) row per hour of the day, keyed by the
 * label of the hour range it covers, "HH:00 - HH:00", and the keyed lookup with its
 * fallback row for a missing label.
 */
module PriceTable {
  import opened Wrappers

  /** The purchase and sale price of grid energy for one hour. */
  datatype PriceEntry = PriceEntry(purchase: real, sale: real)

  /** The table as the decision engine receives it: hour-range label to prices. */
  type Table = map<string, PriceEntry>

  /** The row used when the table has no entry for the requested hour. */
  const Fallback: PriceEntry := PriceEntry(0.5, 0.25)

  /** Every row, and so every price the engine can see, is non-negative. */
  predicate NonNegativePrices(table: Table)
  {
    forall key :: key in table ==> table[key].purchase >= 0.0 && table[key].sale >= 0.0
  }

  // ---------------------------------------------------------------------------
  // Hour-range labels
  // ---------------------------------------------------------------------------

  function Digit(d: nat): char
    requires d < 10
  {
    ('0' as int + d) as char
  }

  /** Zero-padded two-digit decimal, as Python's "{:02d}" writes a number below 100. */
  function TwoDigits(n: nat): (s: string)
    requires n < 100
  {
    [Digit(n / 10), Digit(n % 10)]
  }

  /**
   * The label of the hour range starting at `hour` (taken modulo 24, as Python's
   * `%` does for a positive divisor): "SS:00 - EE:00" with EE the following hour.
   */
  function HourRangeLabel(hour: int): string
  {
    var start := hour % 24;
    TwoDigits(start) + ":00 - " + TwoDigits((start + 1) % 24) + ":00"
  }

  /** A label reads back as the hour of day it was made from. */
  lemma LabelRoundTrip(hour: int)
    ensures |HourRangeLabel(hour)| == 13
    ensures LabelHour(HourRangeLabel(hour)) == Some(hour % 24)
  {
    var start := hour % 24;
    var end := (start + 1) % 24;
    var key := HourRangeLabel(hour);
    assert key[..2] == TwoDigits(start) && key[8..10] == TwoDigits(end);
    assert key[2..8] == ":00 - " && key[10..] == ":00";
  }

  function DigitValue(c: char): Option<nat>
  {
    if '0' <= c <= '9' then Some(c as int - '0' as int) else None
  }

  function ParseTwoDigits(s: string): (r: Option<nat>)
    requires |s| == 2
    ensures r.Some? ==> r.value < 100
  {
    match (DigitValue(s[0]), DigitValue(s[1]))
    case (Some(tens), Some(units)) => Some(10 * tens + units)
    case _ => None
  }

  /**
   * Reads the starting hour back from a key: well-formed labels are exactly those
   * of a start hour below 24 followed by the next hour of the day.
   */
  function LabelHour(key: string): (r: Option<nat>)
    ensures r.Some? ==> r.value < 24
  {
    if |key| != 13 || key[2..8] != ":00 - " || key[10..] != ":00" then None
    else
      match (ParseTwoDigits(key[..2]), ParseTwoDigits(key[8..10]))
      case (Some(start), Some(end)) =>
        if start < 24 && end == (start + 1) % 24 then Some(start) else None
      case _ => None
  }

  /** Two hours share a key exactly when they agree modulo 24. */
  lemma LabelsAgreeIffSameHourOfDay(a: int, b: int)
    ensures HourRangeLabel(a) == HourRangeLabel(b) <==> a % 24 == b % 24
  {
    LabelRoundTrip(a);
    LabelRoundTrip(b);
  }

  // ---------------------------------------------------------------------------
  // Lookup
  // ---------------------------------------------------------------------------

  /** The prices for `hour`; a key the table lacks yields the fallback row. */
  function GetGridPricesForHour(table: Table, hour: int): (p: PriceEntry)
    ensures NonNegativePrices(table) ==> p.purchase >= 0.0 && p.sale >= 0.0
  {
    var key := HourRangeLabel(hour);
    if key in table then table[key] else Fallback
  }

  /** Lookup never fails: it returns the row for the key, or exactly the fallback. */
  lemma LookupHitOrFallback(table: Table, hour: int)
    ensures HourRangeLabel(hour) in table ==> GetGridPricesForHour(table, hour) == table[HourRangeLabel(hour)]
    ensures HourRangeLabel(hour) !in table ==> GetGridPricesForHour(table, hour) == PriceEntry(0.5, 0.25)
  {
  }

  /** The label depends on the hour of day only. */
  lemma LabelNormalises(hour: int)
    ensures HourRangeLabel(hour) == HourRangeLabel(hour % 24)
  {
    assert (hour % 24) % 24 == hour % 24;
  }

  /** An hour outside 0..23 gets the prices of the hour of day it stands for. */
  lemma LookupNormalisesHour(table: Table, hour: int, k: int)
    ensures GetGridPricesForHour(table, hour + 24 * k) == GetGridPricesForHour(table, hour % 24)
    ensures GetGridPricesForHour(table, hour) == GetGridPricesForHour(table, hour % 24)
  {
    assert (hour + 24 * k) % 24 == hour % 24;
    LabelNormalises(hour + 24 * k);
    LabelNormalises(hour);
  }

  /** Whole days added to the hour do not change its prices. */
  lemma LookupShiftsByDays(table: Table, hour: int, k: int)
    ensures GetGridPricesForHour(table, hour + 24 * k) == GetGridPricesForHour(table, hour)
  {
    LookupNormalisesHour(table, hour, k);
  }

  /** The table holding `entries[h]` under the key of each hour h of the day. */
  function TableFromEntries(entries: seq<PriceEntry>): Table
    requires |entries| == 24
  {
    LabelsReadBackOnDay();
    map h | 0 <= h < 24 :: HourRangeLabel(h) := entries[h]
  }

  /** Every label of the day reads back as its own hour, so no two hours of the day share a label. */
  lemma LabelsReadBackOnDay()
    ensures forall h :: 0 <= h < 24 ==> LabelHour(HourRangeLabel(h)) == Some(h)
  {
    forall h | 0 <= h < 24
      ensures LabelHour(HourRangeLabel(h)) == Some(h)
    {
      LabelRoundTrip(h);
    }
  }

  /** On a complete table the lookup never misses and returns the row of the hour of day. */
  lemma LookupCompleteTable(entries: seq<PriceEntry>, hour: int)
    requires |entries| == 24
    ensures GetGridPricesForHour(TableFromEntries(entries), hour) == entries[hour % 24]
  {
    var table := TableFromEntries(entries);
    var h := hour % 24;
    LabelNormalises(hour);
    LabelsReadBackOnDay();
    assert table[HourRangeLabel(h)] == entries[h];
  }
}
