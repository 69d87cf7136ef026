/** Pricing one sale lot against buy lots: `calculate` for a single buy lot
    and `calculateLots` for a run of buy lots gathered from the queue. */
module Pricing {
  import opened Lots

  /** A sale lot matched against one buy lot that covers it. The line item
      is priced at the buy lot's unit price, and a remainder lot is returned
      when the buy lot holds more than is sold. As in the source, the gain
      is the sale lot's cost basis (not its sale price) minus that price. */
  function Calculate(buy: Coinlot, sale: Coinlot): (r: (Option<Coinlot>, LineItem))
    ensures r.0.Some? <==> buy.quantity > sale.quantity
    ensures r.0.Some? ==> r.0.value.quantity > 0.0 && r.0.value.date == buy.date
    ensures r.1.dateAcquired == buy.date && r.1.dateSold == sale.date
    ensures r.1.proceeds == sale.salePrice
  {
    var sublot :=
      if buy.quantity > sale.quantity then
        var subqty := buy.quantity - sale.quantity;
        Some(Coinlot(buy.date, sale.currency, subqty, buy.unitPrice, 0.0, buy.unitPrice * subqty))
      else None;
    var costBasis := buy.unitPrice * sale.quantity;
    (sublot, LineItem(sale.currency, sale.quantity, buy.date, sale.date,
                      sale.salePrice, costBasis, sale.costBasis - costBasis))
  }

  /** Quantity and cost basis are conserved by a single-lot match: the sold
      quantity and the remainder make up the buy lot, both are priced at the
      buy lot's unit price, and their bases make up the buy lot's quantity
      at that price. */
  lemma CalculateConserves(buy: Coinlot, sale: Coinlot)
    requires sale.quantity <= buy.quantity
    ensures var (sub, item) := Calculate(buy, sale);
      var rest := if sub.Some? then sub.value else Coinlot(buy.date, sale.currency, 0.0, buy.unitPrice, 0.0, 0.0);
      sale.quantity + rest.quantity == buy.quantity &&
      item.costBasis + rest.costBasis == buy.unitPrice * buy.quantity &&
      item.costBasis == buy.unitPrice * sale.quantity &&
      rest.unitPrice == buy.unitPrice && rest.costBasis == rest.unitPrice * rest.quantity
  {
    var (sub, item) := Calculate(buy, sale);
    if sub.Some? {
      assert buy.unitPrice * sale.quantity + buy.unitPrice * (buy.quantity - sale.quantity)
          == buy.unitPrice * buy.quantity;
    } else {
      assert sale.quantity == buy.quantity;
    }
  }

  /** The single-lot gain is proceeds minus cost basis, off by the sale
      lot's cost basis minus its sale price; so the two agree only when the
      sale lot's cost basis equals its sale price. */
  lemma CalculateGainIsNotProceedsMinusBasis(buy: Coinlot, sale: Coinlot)
    ensures var item := Calculate(buy, sale).1;
      item.gainOrLoss == item.proceeds - item.costBasis + (sale.costBasis - sale.salePrice)
    ensures var item := Calculate(buy, sale).1;
      item.gainOrLoss == item.proceeds - item.costBasis <==> sale.costBasis == sale.salePrice
  {
  }

  /** The number of lots, counted from the head, up to and including the
      first one at which the running quantity strictly exceeds `q`; None
      when no running quantity does. */
  function Overshoot(lots: seq<Coinlot>, q: real): (r: Option<nat>)
    ensures r.Some? ==> 1 <= r.value <= |lots|
  {
    if lots == [] then None
    else if lots[0].quantity > q then Some(1)
    else
      match Overshoot(lots[1..], q - lots[0].quantity)
      case None => None
      case Some(k) => Some(k + 1)
  }

  /** Overshoot finds the first running quantity above `q`, and finds none
      exactly when every running quantity stays at or below `q`. */
  lemma {:induction false} OvershootFirst(lots: seq<Coinlot>, q: real)
    ensures var r := Overshoot(lots, q);
      (r.Some? ==> Total(lots[..r.value], Quantity) > q &&
                   forall j :: 1 <= j < r.value ==> Total(lots[..j], Quantity) <= q) &&
      (r.None? ==> forall j :: 1 <= j <= |lots| ==> Total(lots[..j], Quantity) <= q)
  {
    if lots != [] {
      if lots[0].quantity > q {
        assert lots[..1] == [lots[0]];
      } else {
        OvershootFirst(lots[1..], q - lots[0].quantity);
        forall j | 1 <= j <= |lots|
          ensures Total(lots[..j], Quantity) == lots[0].quantity + Total(lots[1..][..j - 1], Quantity)
        {
          PrefixTotal(lots, j, Quantity);
        }
      }
    }
  }

  /** What `calculateLots` computes for a sale lot matched against a run of
      buy lots: the line item is acquired on the first lot's date and
      carries the cost basis of every lot up to the overshooting one; the
      overshoot, if any, is the remainder lot. Unlike the single-lot match,
      the gain is the sale price minus that cost basis. */
  function LotsMatch(lots: seq<Coinlot>, sale: Coinlot): (r: (Option<Coinlot>, LineItem))
    requires |lots| > 0
    ensures r.1.dateAcquired == lots[0].date && r.1.dateSold == sale.date
    ensures r.1.proceeds == sale.salePrice
    ensures r.1.gainOrLoss == r.1.proceeds - r.1.costBasis
  {
    var over := Overshoot(lots, sale.quantity);
    var used := if over.Some? then over.value else |lots|;
    var basis := Total(lots[..used], CostBasis);
    var sublot :=
      if over.Some? then
        var last := lots[used - 1];
        Some(Coinlot(last.date, sale.currency, Total(lots[..used], Quantity) - sale.quantity,
                     last.unitPrice, 0.0, last.costBasis))
      else None;
    (sublot, LineItem(sale.currency, sale.quantity, lots[0].date, sale.date,
                      sale.salePrice, basis, sale.salePrice - basis))
  }

  /** There is a remainder exactly when some running quantity exceeds the
      sale quantity, and it is then positive; without one, the line item
      carries the cost basis of the whole run. */
  lemma LotsMatchRemainderIff(lots: seq<Coinlot>, sale: Coinlot)
    requires |lots| > 0
    ensures var (sub, item) := LotsMatch(lots, sale);
      (sub.None? <==> forall j :: 1 <= j <= |lots| ==> Total(lots[..j], Quantity) <= sale.quantity) &&
      (sub.None? ==> item.costBasis == Total(lots, CostBasis)) &&
      (sub.Some? ==> sub.value.quantity > 0.0)
  {
    OvershootFirst(lots, sale.quantity);
    assert lots[..|lots|] == lots;
  }

  /** When the remainder exists it is the overshoot of the first running
      quantity above the sale, taken from the lot where that happens; its
      cost basis is that whole lot's basis, so the line item and the
      remainder together count that lot's basis twice. */
  lemma LotsMatchRemainder(lots: seq<Coinlot>, sale: Coinlot, k: nat)
    requires 1 <= k <= |lots|
    requires Total(lots[..k], Quantity) > sale.quantity
    requires forall j :: 1 <= j < k ==> Total(lots[..j], Quantity) <= sale.quantity
    ensures var (sub, item) := LotsMatch(lots, sale);
      sub == Some(Coinlot(lots[k - 1].date, sale.currency, Total(lots[..k], Quantity) - sale.quantity,
                          lots[k - 1].unitPrice, 0.0, lots[k - 1].costBasis)) &&
      item.costBasis == Total(lots[..k], CostBasis) &&
      item.costBasis + sub.value.costBasis == Total(lots[..k], CostBasis) + lots[k - 1].costBasis
  {
    OvershootFirst(lots, sale.quantity);
    var over := Overshoot(lots, sale.quantity);
    assert over.Some?;
    assert over.value == k;
  }

  /** With positive quantities, a run whose total equals the sale quantity
      leaves no remainder and is charged the whole run's cost basis. */
  lemma {:induction false} LotsMatchExact(lots: seq<Coinlot>, sale: Coinlot)
    requires |lots| > 0
    requires forall i :: 0 <= i < |lots| ==> lots[i].quantity > 0.0
    requires Total(lots, Quantity) == sale.quantity
    ensures LotsMatch(lots, sale).0.None?
    ensures LotsMatch(lots, sale).1.costBasis == Total(lots, CostBasis)
  {
    forall j | 1 <= j <= |lots| ensures Total(lots[..j], Quantity) <= sale.quantity {
      PrefixTotalAtMost(lots, j);
    }
    LotsMatchRemainderIff(lots, sale);
  }

  /** Only the sale lot's date, currency, quantity and sale price reach the
      result: its unit price and cost basis are never read. */
  lemma LotsMatchIgnoresSaleUnitPriceAndBasis(lots: seq<Coinlot>, sale: Coinlot, unitPrice: real, costBasis: real)
    requires |lots| > 0
    ensures LotsMatch(lots, sale.(unitPrice := unitPrice, costBasis := costBasis)) == LotsMatch(lots, sale)
  {
  }

  /** `calculateLots`: one pass over the gathered lots with running quantity
      and cost-basis sums, stopping at the first lot where the running
      quantity exceeds the sale quantity. */
  method CalculateLots(lots: seq<Coinlot>, sale: Coinlot) returns (sublot: Option<Coinlot>, item: LineItem)
    requires |lots| > 0
    ensures (sublot, item) == LotsMatch(lots, sale)
  {
    sublot := None;
    var deductedQty, costBasis := 0.0, 0.0;
    var dateAcquired := lots[0].date;
    var i := 0;
    while i < |lots|
      invariant 0 <= i <= |lots|
      invariant deductedQty == Total(lots[..i], Quantity)
      invariant costBasis == Total(lots[..i], CostBasis)
      invariant forall j :: 1 <= j <= i ==> Total(lots[..j], Quantity) <= sale.quantity
      invariant sublot.None?
    {
      var lot := lots[i];
      assert lots[..i + 1] == lots[..i] + [lot];
      TotalAppend(lots[..i], lot, Quantity);
      TotalAppend(lots[..i], lot, CostBasis);
      deductedQty := deductedQty + lot.quantity;
      var basis := lot.costBasis;
      costBasis := costBasis + basis;
      if deductedQty > sale.quantity {
        var subqty := deductedQty - sale.quantity;
        sublot := Some(Coinlot(lot.date, sale.currency, subqty, lot.unitPrice, 0.0, basis));
        LotsMatchRemainder(lots, sale, i + 1);
        break;
      }
      i := i + 1;
    }
    if sublot.None? {
      assert lots[..i] == lots;
      OvershootFirst(lots, sale.quantity);
    }
    item := LineItem(sale.currency, sale.quantity, dateAcquired, sale.date,
                     sale.salePrice, costBasis, sale.salePrice - costBasis);
  }
}
