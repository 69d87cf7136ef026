/** Values shared by the FIFO engine: lots, line items, and the running
    totals the matcher accumulates over a run of lots.

    Decimal amounts (the shopspring decimal type) are exact reals here;
    dates are whole seconds since the epoch. */
module Lots {

  datatype Option<T> = None | Some(value: T)

  /** The outcome of a computation that may stop with a Go runtime panic
      (an index into an empty slice). */
  datatype Outcome<T> = Ok(value: T) | Panic

  /** A quantity of one currency acquired (a buy lot) or disposed of (a
      sale lot). Buy lots leave `salePrice` at its zero value. */
  datatype Coinlot = Coinlot(
    date: int,
    currency: string,
    quantity: real,
    unitPrice: real,
    salePrice: real,
    costBasis: real)

  /** One row of Form 8949. The description "<quantity> <currency>" is kept
      as the quantity it prints; the adjustment columns are always empty. */
  datatype LineItem = LineItem(
    currency: string,
    described: real,
    dateAcquired: int,
    dateSold: int,
    proceeds: real,
    costBasis: real,
    gainOrLoss: real)

  /** The two buckets of Form 8949. */
  datatype Form8949 = Form8949(shortHolds: seq<LineItem>, longHolds: seq<LineItem>)

  const EmptyForm := Form8949([], [])

  /** The amounts of a lot that the matcher sums. */
  datatype Amount = Quantity | UnitPrice | CostBasis

  function Of(lot: Coinlot, a: Amount): real
  {
    match a
    case Quantity => lot.quantity
    case UnitPrice => lot.unitPrice
    case CostBasis => lot.costBasis
  }

  /** The sum of one amount over a run of lots. */
  function Total(lots: seq<Coinlot>, a: Amount): real
  {
    if lots == [] then 0.0 else Of(lots[0], a) + Total(lots[1..], a)
  }

  /** Appending a lot adds its amount to the running sum: this is how the
      source's accumulators grow. */
  lemma {:induction false} TotalAppend(lots: seq<Coinlot>, lot: Coinlot, a: Amount)
    ensures Total(lots + [lot], a) == Total(lots, a) + Of(lot, a)
  {
    if lots != [] {
      assert (lots + [lot])[1..] == lots[1..] + [lot];
      TotalAppend(lots[1..], lot, a);
    }
  }

  /** A non-empty prefix sums to its first lot plus the matching prefix of
      the rest. */
  lemma PrefixTotal(lots: seq<Coinlot>, j: int, a: Amount)
    requires 1 <= j <= |lots|
    ensures Total(lots[..j], a) == Of(lots[0], a) + Total(lots[1..][..j - 1], a)
  {
    assert lots[..j][1..] == lots[1..][..j - 1];
  }

  /** With positive quantities, a running total never exceeds the total. */
  lemma {:induction false} PrefixTotalAtMost(lots: seq<Coinlot>, j: int)
    requires 0 <= j <= |lots|
    requires forall i :: 0 <= i < |lots| ==> lots[i].quantity > 0.0
    ensures Total(lots[..j], Quantity) <= Total(lots, Quantity)
    ensures j < |lots| ==> Total(lots[..j], Quantity) < Total(lots, Quantity)
  {
    if j == 0 {
      if lots != [] {
        assert forall i :: 0 <= i < |lots[1..]| ==> lots[1..][i].quantity > 0.0 by {
          forall i | 0 <= i < |lots[1..]| ensures lots[1..][i].quantity > 0.0 {
            assert lots[1..][i] == lots[i + 1];
          }
        }
        PrefixTotalAtMost(lots[1..], 0);
      }
    } else {
      PrefixTotal(lots, j, Quantity);
      assert forall i :: 0 <= i < |lots[1..]| ==> lots[1..][i].quantity > 0.0 by {
        forall i | 0 <= i < |lots[1..]| ensures lots[1..][i].quantity > 0.0 {
          assert lots[1..][i] == lots[i + 1];
        }
      }
      PrefixTotalAtMost(lots[1..], j - 1);
    }
  }
}
