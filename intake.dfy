/** Turning transactions into lots: the first half of `Run`. Each taxable
    transaction dated no later than the report's end adds lots to the tail
    of per-currency buy and sale queues. */
module Intake {
  import opened Lots

  datatype TxType = Deposit | Buy | Sell | OtherType
  datatype Category = Normal | Lost | Gift | Donation | OtherCategory
  datatype CurrencyPair = CurrencyPair(base: string, quote: string)

  /** A transaction with its decimal fields already parsed. */
  datatype Transaction = Transaction(
    date: int,
    txType: TxType,
    category: Category,
    pair: CurrencyPair,
    quantity: real,
    total: real,
    fiatQuantity: real,
    fiatPrice: real,
    quoteFiatPrice: real,
    fiatTotal: real)

  /** The buy and sale queues per currency, and the currencies that have buy
      lots in the order their first buy lot arrived (the order in which
      they are processed). */
  datatype Queues = Queues(
    buyLots: map<string, seq<Coinlot>>,
    saleLots: map<string, seq<Coinlot>>,
    currencies: seq<string>)

  const NoQueues := Queues(map[], map[], [])

  /** A currency's queue; a currency with no queue reads as empty, as a
      missing key reads as a nil slice in Go. */
  function Get(queues: map<string, seq<Coinlot>>, currency: string): seq<Coinlot>
  {
    if currency in queues then queues[currency] else []
  }

  /** Lost, gifted and donated coins are not taxable events. */
  predicate IsTaxable(tx: Transaction)
  {
    !(tx.category == Lost || tx.category == Gift || tx.category == Donation)
  }

  function AddBuyLot(q: Queues, lot: Coinlot): Queues
  {
    Queues(q.buyLots[lot.currency := Get(q.buyLots, lot.currency) + [lot]],
           q.saleLots,
           if lot.currency in q.buyLots then q.currencies else q.currencies + [lot.currency])
  }

  /** Decimal multiplication (`Mul` on the decimal type), exact on reals.
      It is a named function, not `*`, so that the price of a sell's quote
      lot is one term, matched as such between the queue building in `Run`
      and the lemmas about `Classify`; written inline, the verifier does not
      identify the product in the function's body with the same product in
      a lemma's contract. */
  function Mul(a: real, b: real): real { a * b }

  function AddSaleLot(q: Queues, lot: Coinlot): Queues
  {
    q.(saleLots := q.saleLots[lot.currency := Get(q.saleLots, lot.currency) + [lot]])
  }

  /** The lots one transaction adds. A deposit is one buy lot of the base
      currency. A buy is a buy lot of the base currency and, when the quote
      is not fiat, a sale lot of the quote currency. A sell is a sale lot of
      the base currency and a buy lot of the quote currency. */
  function Classify(q: Queues, tx: Transaction, end: int, fiat: set<string>): Queues
  {
    if tx.date > end || !IsTaxable(tx) then q
    else
      var base, quote := tx.pair.base, tx.pair.quote;
      match tx.txType
      case Deposit =>
        AddBuyLot(q, Coinlot(tx.date, base, tx.quantity, tx.fiatPrice, 0.0, tx.fiatTotal))
      case Buy =>
        var bought := AddBuyLot(q, Coinlot(tx.date, base, tx.quantity, tx.quoteFiatPrice, 0.0, tx.fiatTotal));
        if quote in fiat then bought
        else AddSaleLot(bought, Coinlot(tx.date, quote, tx.total, tx.quoteFiatPrice, tx.fiatQuantity, tx.fiatTotal))
      case Sell =>
        var sold := AddSaleLot(q, Coinlot(tx.date, base, tx.quantity, tx.quoteFiatPrice, tx.fiatQuantity, tx.fiatTotal));
        AddBuyLot(sold, Coinlot(tx.date, quote, tx.total, Mul(tx.quoteFiatPrice, tx.total), 0.0, tx.fiatTotal))
      case OtherType => q
  }

  function ClassifyFrom(q: Queues, txs: seq<Transaction>, end: int, fiat: set<string>): Queues
    decreases |txs|
  {
    if txs == [] then q else ClassifyFrom(Classify(q, txs[0], end, fiat), txs[1..], end, fiat)
  }

  /** The queues built from a whole transaction history. */
  function QueuesOf(txs: seq<Transaction>, end: int, fiat: set<string>): Queues
  {
    ClassifyFrom(NoQueues, txs, end, fiat)
  }

  /** Every category other than lost, gift and donation is taxable. */
  lemma TaxableCategories(tx: Transaction)
    ensures IsTaxable(tx) <==> tx.category in {Normal, OtherCategory}
  {
  }

  /** A transaction dated after the end of the report, or in the lost, gift
      or donation category, adds no lot. */
  lemma SkipsLateAndUntaxed(q: Queues, tx: Transaction, end: int, fiat: set<string>)
    ensures tx.date > end || tx.category in {Lost, Gift, Donation} ==> Classify(q, tx, end, fiat) == q
  {
  }

  /** A deposit appends exactly one buy lot, to its base currency's queue,
      and no sale lot. */
  lemma DepositAddsOneBuyLot(q: Queues, tx: Transaction, end: int, fiat: set<string>)
    requires tx.txType == Deposit && tx.date <= end && IsTaxable(tx)
    ensures var r := Classify(q, tx, end, fiat);
      var base := tx.pair.base;
      r.buyLots == q.buyLots[base := Get(q.buyLots, base) + [Coinlot(tx.date, base, tx.quantity, tx.fiatPrice, 0.0, tx.fiatTotal)]] &&
      r.saleLots == q.saleLots
  {
  }

  /** A buy appends a buy lot to its base currency's queue; with a quote
      currency that is not fiat it also appends a sale lot of the total to
      the quote currency's sale queue, and with a fiat quote nothing else. */
  lemma BuyAddsLots(q: Queues, tx: Transaction, end: int, fiat: set<string>)
    requires tx.txType == Buy && tx.date <= end && IsTaxable(tx)
    ensures var r := Classify(q, tx, end, fiat);
      var base, quote := tx.pair.base, tx.pair.quote;
      r.buyLots == q.buyLots[base := Get(q.buyLots, base) + [Coinlot(tx.date, base, tx.quantity, tx.quoteFiatPrice, 0.0, tx.fiatTotal)]] &&
      (quote in fiat ==> r.saleLots == q.saleLots) &&
      (quote !in fiat ==> r.saleLots == q.saleLots[quote := Get(q.saleLots, quote) + [Coinlot(tx.date, quote, tx.total, tx.quoteFiatPrice, tx.fiatQuantity, tx.fiatTotal)]])
  {
  }

  /** A sell appends a sale lot to its base currency's sale queue and a buy
      lot of the total, priced at the quote's fiat price times the total, to
      the quote currency's buy queue. */
  lemma SellAddsLots(q: Queues, tx: Transaction, end: int, fiat: set<string>)
    requires tx.txType == Sell && tx.date <= end && IsTaxable(tx)
    ensures var r := Classify(q, tx, end, fiat);
      var base, quote := tx.pair.base, tx.pair.quote;
      r.saleLots == q.saleLots[base := Get(q.saleLots, base) + [Coinlot(tx.date, base, tx.quantity, tx.quoteFiatPrice, tx.fiatQuantity, tx.fiatTotal)]] &&
      r.buyLots == q.buyLots[quote := Get(q.buyLots, quote) + [Coinlot(tx.date, quote, tx.total, Mul(tx.quoteFiatPrice, tx.total), 0.0, tx.fiatTotal)]]
  {
    var base, quote := tx.pair.base, tx.pair.quote;
    var sold := AddSaleLot(q, Coinlot(tx.date, base, tx.quantity, tx.quoteFiatPrice, tx.fiatQuantity, tx.fiatTotal));
    assert sold.buyLots == q.buyLots;
    assert Classify(q, tx, end, fiat)
        == AddBuyLot(sold, Coinlot(tx.date, quote, tx.total, Mul(tx.quoteFiatPrice, tx.total), 0.0, tx.fiatTotal));
  }

  /** Queues only grow at the tail: every queue before a run of transactions
      is a prefix of the same queue after it, so lots keep transaction
      order. */
  lemma {:induction false} QueuesGrowAtTail(q: Queues, txs: seq<Transaction>, end: int, fiat: set<string>, currency: string)
    ensures var r := ClassifyFrom(q, txs, end, fiat);
      Get(q.buyLots, currency) <= Get(r.buyLots, currency) &&
      Get(q.saleLots, currency) <= Get(r.saleLots, currency)
    decreases |txs|
  {
    if txs != [] {
      var next := Classify(q, txs[0], end, fiat);
      assert Get(q.buyLots, currency) <= Get(next.buyLots, currency);
      assert Get(q.saleLots, currency) <= Get(next.saleLots, currency);
      QueuesGrowAtTail(next, txs[1..], end, fiat, currency);
    }
  }

  /** The processing order lists each currency that has buy lots exactly
      once, and no other; every listed currency has a non-empty queue. */
  ghost predicate WellFormed(q: Queues)
  {
    (forall i, j :: 0 <= i < j < |q.currencies| ==> q.currencies[i] != q.currencies[j]) &&
    (forall c :: c in q.buyLots <==> c in q.currencies) &&
    (forall c :: c in q.buyLots ==> q.buyLots[c] != [])
  }

  lemma AddBuyLotKeepsWellFormed(q: Queues, lot: Coinlot)
    requires WellFormed(q)
    ensures WellFormed(AddBuyLot(q, lot))
  {
    var r := AddBuyLot(q, lot);
    if lot.currency !in q.buyLots {
      forall i, j | 0 <= i < j < |r.currencies| ensures r.currencies[i] != r.currencies[j] {
        if j == |q.currencies| {
          assert r.currencies[i] in q.currencies;
        }
      }
    }
  }

  lemma {:induction false} ClassifyFromKeepsWellFormed(q: Queues, txs: seq<Transaction>, end: int, fiat: set<string>)
    requires WellFormed(q)
    ensures WellFormed(ClassifyFrom(q, txs, end, fiat))
    decreases |txs|
  {
    if txs != [] {
      var tx := txs[0];
      if tx.date <= end && IsTaxable(tx) {
        var base, quote := tx.pair.base, tx.pair.quote;
        match tx.txType
        case Deposit =>
          AddBuyLotKeepsWellFormed(q, Coinlot(tx.date, base, tx.quantity, tx.fiatPrice, 0.0, tx.fiatTotal));
        case Buy =>
          AddBuyLotKeepsWellFormed(q, Coinlot(tx.date, base, tx.quantity, tx.quoteFiatPrice, 0.0, tx.fiatTotal));
        case Sell =>
          var sold := AddSaleLot(q, Coinlot(tx.date, base, tx.quantity, tx.quoteFiatPrice, tx.fiatQuantity, tx.fiatTotal));
          AddBuyLotKeepsWellFormed(sold, Coinlot(tx.date, quote, tx.total, Mul(tx.quoteFiatPrice, tx.total), 0.0, tx.fiatTotal));
        case OtherType =>
      }
      ClassifyFromKeepsWellFormed(Classify(q, tx, end, fiat), txs[1..], end, fiat);
    }
  }

  /** Only currencies that have buy lots are processed, each exactly once. */
  lemma QueuesOfWellFormed(txs: seq<Transaction>, end: int, fiat: set<string>)
    ensures WellFormed(QueuesOf(txs, end, fiat))
  {
    ClassifyFromKeepsWellFormed(NoQueues, txs, end, fiat);
  }
}
