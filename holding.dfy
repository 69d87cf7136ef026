/** The holding-period rule: a line item is short-term when fewer than 365
    whole days separate its acquisition from its sale. */
module Holding {
  import opened Lots

  const SecondsPerDay := 86400
  const HoldingDays := 365

  /** The whole days in a duration, truncated toward zero as Go's int()
      conversion truncates the duration's hours divided by 24. */
  function WholeDays(seconds: int): int
  {
    if seconds >= 0 then seconds / SecondsPerDay else -((-seconds) / SecondsPerDay)
  }

  /** The short-term test: whole days held below 365. Equivalently the sale
      falls less than 365 full days after the acquisition. */
  predicate IsShortSale(item: LineItem)
  {
    WholeDays(item.dateSold - item.dateAcquired) < HoldingDays
  }

  /** Truncation only matters within a day: the item is short-term exactly
      when the sale falls less than 365 * 86400 seconds after the
      acquisition; a sale dated before the acquisition is always
      short-term. */
  lemma ShortSaleIffWithinYear(item: LineItem)
    ensures IsShortSale(item) <==> item.dateSold - item.dateAcquired < HoldingDays * SecondsPerDay
  {
    var d := item.dateSold - item.dateAcquired;
    if d >= 0 {
      var q := d / SecondsPerDay;
      assert d == q * SecondsPerDay + d % SecondsPerDay;
      if q < HoldingDays {
        assert q <= HoldingDays - 1;
        assert q * SecondsPerDay <= (HoldingDays - 1) * SecondsPerDay;
      } else {
        assert q * SecondsPerDay >= HoldingDays * SecondsPerDay;
      }
    }
  }

  /** The boundary: a sale on day 364 after the acquisition (any second of
      it) is short-term; a sale on day 365 is long-term. */
  lemma HoldingBoundary(acquired: int, secondOfDay: int)
    requires 0 <= secondOfDay < SecondsPerDay
    ensures IsShortSale(LineItem("", 0.0, acquired, acquired + 364 * SecondsPerDay + secondOfDay, 0.0, 0.0, 0.0))
    ensures !IsShortSale(LineItem("", 0.0, acquired, acquired + 365 * SecondsPerDay + secondOfDay, 0.0, 0.0, 0.0))
  {
    ShortSaleIffWithinYear(LineItem("", 0.0, acquired, acquired + 364 * SecondsPerDay + secondOfDay, 0.0, 0.0, 0.0));
    ShortSaleIffWithinYear(LineItem("", 0.0, acquired, acquired + 365 * SecondsPerDay + secondOfDay, 0.0, 0.0, 0.0));
  }
}
