/** First in, first out: when a currency's buy lots are queued in date
    order, the line items `process` makes for it never go back in time.
    Within each bucket of the form, the acquisition dates of the line
    items are non-decreasing in the order the items were filed.

    The argument follows one sale lot at a time. The matcher's queue stays
    in date order, and the carried remainder is never dated after a queued
    lot. Every line item a step makes is dated no earlier than anything
    filed before it, and no later than anything the matcher still holds.
    A transaction history in date order gives buy queues in date order. */
module FifoOrder {
  import opened Lots
  import opened Pricing
  import opened Matching
  import opened Intake

  predicate DatedInOrder(lots: seq<Coinlot>)
  {
    forall i, j :: 0 <= i < j < |lots| ==> lots[i].date <= lots[j].date
  }

  /** `t` is no later than any lot of `lots`. */
  predicate NotAfter(t: int, lots: seq<Coinlot>)
  {
    forall i :: 0 <= i < |lots| ==> t <= lots[i].date
  }

  /** `t` is no later than anything the matcher still holds. */
  predicate Precedes(t: int, m: Matcher)
  {
    NotAfter(t, m.buys) && (m.carry.Some? ==> t <= m.carry.value.date)
  }

  /** The matcher's queue is in date order and its carry, if any, is not
      dated after a queued lot. */
  predicate FifoState(m: Matcher)
  {
    DatedInOrder(m.buys) && (m.carry.Some? ==> NotAfter(m.carry.value.date, m.buys))
  }

  predicate AcquiredInOrder(items: seq<LineItem>)
  {
    forall i, j :: 0 <= i < j < |items| ==> items[i].dateAcquired <= items[j].dateAcquired
  }

  predicate FormInOrder(form: Form8949)
  {
    AcquiredInOrder(form.shortHolds) && AcquiredInOrder(form.longHolds)
  }

  /** Every line item filed so far is dated no later than anything the
      matcher still holds. */
  predicate FiledBefore(form: Form8949, m: Matcher)
  {
    (forall i :: 0 <= i < |form.shortHolds| ==> Precedes(form.shortHolds[i].dateAcquired, m)) &&
    (forall i :: 0 <= i < |form.longHolds| ==> Precedes(form.longHolds[i].dateAcquired, m))
  }

  /** What one step keeps: the new state is again in FIFO order, the
      step's items are in date order and dated no later than anything left
      in the new state, and a date no later than the old state is no later
      than the new state nor than any of the items. */
  predicate StepInOrder(m: Matcher, t: int, r: Outcome<(Matcher, seq<LineItem>)>)
  {
    r.Ok? ==>
      var (next, items) := r.value;
      FifoState(next) && AcquiredInOrder(items) &&
      (forall i :: 0 <= i < |items| ==> Precedes(items[i].dateAcquired, next)) &&
      (Precedes(t, m) ==> Precedes(t, next) && forall i :: 0 <= i < |items| ==> t <= items[i].dateAcquired)
  }

  /** A queue in date order, cut in two: both parts are in date order and
      every lot of the first part is dated no later than the second. */
  lemma SplitInOrder(lots: seq<Coinlot>, rest: seq<Coinlot>)
    requires DatedInOrder(lots + rest)
    ensures DatedInOrder(lots) && DatedInOrder(rest)
    ensures forall i :: 0 <= i < |lots| ==> NotAfter(lots[i].date, rest)
  {
    var q := lots + rest;
    assert forall i :: 0 <= i < |lots| ==> q[i] == lots[i];
    assert forall j :: 0 <= j < |rest| ==> q[|lots| + j] == rest[j];
  }

  /** Dropping the head of a queue keeps it in date order and keeps every
      bound on its dates. */
  lemma DropInOrder(lots: seq<Coinlot>)
    requires lots != [] && DatedInOrder(lots)
    ensures DatedInOrder(lots[1..])
    ensures forall t :: NotAfter(t, lots) ==> NotAfter(t, lots[1..])
    ensures NotAfter(lots[0].date, lots[1..])
  {
    assert forall i :: 0 <= i < |lots[1..]| ==> lots[1..][i] == lots[i + 1];
  }

  /** The carry covers the sale lot (or no buy lots are left). */
  lemma CarryCoversInOrder(buys: seq<Coinlot>, c: Coinlot, sale: Coinlot, t: int)
    requires FifoState(Matcher(buys, Some(c)))
    requires buys == [] || sale.quantity <= c.quantity
    ensures StepInOrder(Matcher(buys, Some(c)), t, StepCarried(buys, c, sale))
  {
    if buys != [] {
      DropInOrder(buys);
    }
  }

  /** The remainder `calculateLots` returns is dated like one of the lots
      it matched. */
  lemma RemainderDated(lots: seq<Coinlot>, sale: Coinlot) returns (k: nat)
    requires |lots| > 0
    ensures LotsMatch(lots, sale).0.Some? ==> k < |lots| && LotsMatch(lots, sale).0.value.date == lots[k].date
  {
    var over := Overshoot(lots, sale.quantity);
    k := if over.Some? then over.value - 1 else 0;
  }

  /** After lots are gathered from a queue in date order and matched, with a
      remainder dated like one of them, the state left (optionally with one
      more lot dropped) is in FIFO order and dated no earlier than the first
      gathered lot nor than any bound on the queue. */
  lemma GatheredInOrder(lots: seq<Coinlot>, rest: seq<Coinlot>, sub: Option<Coinlot>, k: nat, drop: bool)
    requires |lots| > 0 && DatedInOrder(lots + rest)
    requires sub.Some? ==> k < |lots| && sub.value.date == lots[k].date
    ensures var next := Matcher(if drop && sub.Some? && rest != [] then rest[1..] else rest, sub);
      FifoState(next) && Precedes(lots[0].date, next) &&
      forall t :: NotAfter(t, lots + rest) ==> Precedes(t, next)
  {
    SplitInOrder(lots, rest);
    if rest != [] {
      DropInOrder(rest);
    }
    var q := lots + rest;
    assert forall i :: 0 <= i < |lots| ==> q[i] == lots[i];
    assert forall j :: 0 <= j < |rest| ==> q[|lots| + j] == rest[j];
  }

  /** The carry is sold first, then the lots gathered oldest first. */
  lemma CarryExceedsInOrder(buys: seq<Coinlot>, c: Coinlot, sale: Coinlot, t: int)
    requires FifoState(Matcher(buys, Some(c)))
    requires buys != [] && sale.quantity > c.quantity
    ensures StepInOrder(Matcher(buys, Some(c)), t, StepCarried(buys, c, sale))
  {
    StepCarryExceeds(buys, c, sale);
    GatherSplits(buys, sale.quantity - c.quantity);
    match Gather(buys, sale.quantity - c.quantity)
    case None =>
    case Some((lots, rest)) =>
      var newSale := CarrySaleLot(c, buys[0], lots, sale);
      var k := RemainderDated(lots, newSale);
      GatheredInOrder(lots, rest, LotsMatch(lots, newSale).0, k, true);
      assert lots[0] == buys[0];
  }

  /** No carry, and the queue head covers the sale lot. */
  lemma HeadCoversInOrder(buys: seq<Coinlot>, sale: Coinlot, t: int)
    requires DatedInOrder(buys)
    requires buys != [] && sale.quantity <= buys[0].quantity
    ensures StepInOrder(Matcher(buys, None), t, StepFresh(buys, sale))
  {
    DropInOrder(buys);
  }

  /** No carry, and lots are gathered oldest first to cover the sale lot. */
  lemma GatherInOrder(buys: seq<Coinlot>, sale: Coinlot, t: int)
    requires DatedInOrder(buys)
    requires buys != [] && sale.quantity > buys[0].quantity
    ensures StepInOrder(Matcher(buys, None), t, StepFresh(buys, sale))
  {
    GatherSplits(buys, sale.quantity);
    match Gather(buys, sale.quantity)
    case None =>
    case Some((lots, rest)) =>
      if lots != [] {
        var k := RemainderDated(lots, sale);
        GatheredInOrder(lots, rest, LotsMatch(lots, sale).0, k, false);
        assert StepFresh(buys, sale) == Ok((Matcher(rest, LotsMatch(lots, sale).0), [LotsMatch(lots, sale).1]));
      }
  }

  /** One sale lot keeps the matcher in FIFO order and makes line items no
      earlier than anything filed before and no later than anything left. */
  lemma StepKeepsFifo(m: Matcher, sale: Coinlot, t: int)
    requires FifoState(m)
    ensures StepInOrder(m, t, Step(m, sale))
  {
    match m.carry
    case Some(c) =>
      if m.buys == [] || sale.quantity <= c.quantity {
        CarryCoversInOrder(m.buys, c, sale, t);
      } else {
        CarryExceedsInOrder(m.buys, c, sale, t);
      }
    case None =>
      if m.buys != [] {
        if sale.quantity <= m.buys[0].quantity {
          HeadCoversInOrder(m.buys, sale, t);
        } else {
          GatherInOrder(m.buys, sale, t);
        }
      }
  }

  /** Filing items in date order, none dated before what is already filed,
      keeps both buckets in date order; and when every item already filed
      and every new one is dated no later than the matcher's state, so is
      every item of the filed form. */
  lemma {:induction false} FileAllInOrder(form: Form8949, items: seq<LineItem>, m: Matcher)
    requires FormInOrder(form) && AcquiredInOrder(items)
    requires forall i, j :: 0 <= i < |form.shortHolds| && 0 <= j < |items| ==>
      form.shortHolds[i].dateAcquired <= items[j].dateAcquired
    requires forall i, j :: 0 <= i < |form.longHolds| && 0 <= j < |items| ==>
      form.longHolds[i].dateAcquired <= items[j].dateAcquired
    requires FiledBefore(form, m)
    requires forall j :: 0 <= j < |items| ==> Precedes(items[j].dateAcquired, m)
    ensures FormInOrder(FileAll(form, items)) && FiledBefore(FileAll(form, items), m)
    decreases |items|
  {
    if items != [] {
      var filed := File(form, items[0]);
      assert forall j :: 0 <= j < |items[1..]| ==> items[1..][j] == items[j + 1];
      FileAllInOrder(filed, items[1..], m);
    }
  }

  /** The rest of `process` from a state in FIFO order, with a form whose
      buckets are in date order and dated no later than that state, ends
      with both buckets in date order. */
  lemma {:induction false} ReplayInOrder(m: Matcher, form: Form8949, sales: seq<Coinlot>)
    requires FifoState(m) && FormInOrder(form) && FiledBefore(form, m)
    ensures Replay(m, form, sales).Ok? ==> FormInOrder(Replay(m, form, sales).value)
    decreases |sales|
  {
    if sales != [] {
      StepKeepsFifo(m, sales[0], 0);
      match Step(m, sales[0])
      case Panic =>
      case Ok((next, items)) =>
        forall t | Precedes(t, m)
          ensures Precedes(t, next) && forall j :: 0 <= j < |items| ==> t <= items[j].dateAcquired
        {
          StepKeepsFifo(m, sales[0], t);
        }
        FileAllInOrder(form, items, next);
        ReplayInOrder(next, FileAll(form, items), sales[1..]);
    }
  }

  /** FIFO ordering: for buy lots queued in date order, the line items of
      each bucket `process` returns have non-decreasing acquisition dates. */
  lemma MatchedInOrder(buyLots: seq<Coinlot>, saleLots: seq<Coinlot>)
    requires DatedInOrder(buyLots)
    ensures Matched(buyLots, saleLots).Ok? ==>
      AcquiredInOrder(Matched(buyLots, saleLots).value.shortHolds) &&
      AcquiredInOrder(Matched(buyLots, saleLots).value.longHolds)
  {
    ReplayInOrder(Matcher(buyLots, None), EmptyForm, saleLots);
  }

  predicate TxsInOrder(txs: seq<Transaction>)
  {
    forall i, j :: 0 <= i < j < |txs| ==> txs[i].date <= txs[j].date
  }

  /** Every buy queue is in date order and dated no later than `d`. */
  predicate BuysInOrder(q: Queues, d: int)
  {
    forall c :: c in q.buyLots ==>
      DatedInOrder(q.buyLots[c]) && forall i :: 0 <= i < |q.buyLots[c]| ==> q.buyLots[c][i].date <= d
  }

  /** Appending a buy lot no earlier than every queued lot keeps the queues
      in date order. */
  lemma AddBuyLotInOrder(q: Queues, lot: Coinlot, d: int)
    requires BuysInOrder(q, d) && d <= lot.date
    ensures BuysInOrder(AddBuyLot(q, lot), lot.date)
  {
    var queue := Get(q.buyLots, lot.currency) + [lot];
    assert forall i :: 0 <= i < |queue| - 1 ==> queue[i] == Get(q.buyLots, lot.currency)[i];
  }

  /** One transaction, dated no earlier than every queued buy lot, keeps
      the buy queues in date order. */
  lemma ClassifyInOrder(q: Queues, tx: Transaction, end: int, fiat: set<string>, d: int)
    requires BuysInOrder(q, d) && d <= tx.date
    ensures BuysInOrder(Classify(q, tx, end, fiat), tx.date)
  {
    if !(tx.date > end || !IsTaxable(tx)) {
      var base, quote := tx.pair.base, tx.pair.quote;
      match tx.txType
      case Deposit =>
        AddBuyLotInOrder(q, Coinlot(tx.date, base, tx.quantity, tx.fiatPrice, 0.0, tx.fiatTotal), d);
      case Buy =>
        AddBuyLotInOrder(q, Coinlot(tx.date, base, tx.quantity, tx.quoteFiatPrice, 0.0, tx.fiatTotal), d);
      case Sell =>
        var sold := AddSaleLot(q, Coinlot(tx.date, base, tx.quantity, tx.quoteFiatPrice, tx.fiatQuantity, tx.fiatTotal));
        AddBuyLotInOrder(sold, Coinlot(tx.date, quote, tx.total, Mul(tx.quoteFiatPrice, tx.total), 0.0, tx.fiatTotal), d);
      case OtherType =>
    }
  }

  lemma {:induction false} ClassifyFromInOrder(q: Queues, txs: seq<Transaction>, end: int, fiat: set<string>, d: int)
    requires BuysInOrder(q, d) && TxsInOrder(txs)
    requires txs != [] ==> d <= txs[0].date
    ensures forall c :: c in ClassifyFrom(q, txs, end, fiat).buyLots ==>
      DatedInOrder(ClassifyFrom(q, txs, end, fiat).buyLots[c])
    decreases |txs|
  {
    if txs != [] {
      ClassifyInOrder(q, txs[0], end, fiat, d);
      assert forall i :: 0 <= i < |txs[1..]| ==> txs[1..][i] == txs[i + 1];
      ClassifyFromInOrder(Classify(q, txs[0], end, fiat), txs[1..], end, fiat, txs[0].date);
    }
  }

  /** A transaction history in date order gives every currency a buy queue
      in date order. */
  lemma QueuesInOrder(txs: seq<Transaction>, end: int, fiat: set<string>)
    requires TxsInOrder(txs)
    ensures forall c :: DatedInOrder(Get(QueuesOf(txs, end, fiat).buyLots, c))
  {
    ClassifyFromInOrder(NoQueues, txs, end, fiat, if txs == [] then 0 else txs[0].date);
  }
}
