/** The FIFO report: `Run` turns a transaction history into lots, matches
    each currency's sale lots against its buy lots, and gathers the line
    items of every currency into one Form 8949. */
module Fifo {
  import opened Lots
  import opened Holding
  import opened Intake
  import opened Matching
  import opened Pricing
  import opened FifoOrder

  /** The form for the currencies still to be processed, appended to the
      line items gathered so far. A panic while processing any currency
      ends the whole report. */
  function DispatchFrom(q: Queues, form: Form8949, currencies: seq<string>): Outcome<Form8949>
    decreases |currencies|
  {
    if currencies == [] then Ok(form)
    else
      var c := currencies[0];
      match Matched(Get(q.buyLots, c), Get(q.saleLots, c))
      case Panic => Panic
      case Ok(f) =>
        DispatchFrom(q, Form8949(form.shortHolds + f.shortHolds, form.longHolds + f.longHolds), currencies[1..])
  }

  /** The report for a transaction history: every currency with buy lots is
      processed, in the order its first buy lot arrived. */
  function Report(txs: seq<Transaction>, end: int, fiat: set<string>): Outcome<Form8949>
  {
    var q := QueuesOf(txs, end, fiat);
    DispatchFrom(q, EmptyForm, q.currencies)
  }

  /** `Run`: classify every transaction into the lot queues, then process
      each currency's queues and append its line items. The start of the
      reporting period is accepted and, as in the source, never read. */
  method Run(transactions: seq<Transaction>, start: int, end: int, fiat: set<string>)
    returns (form: Outcome<Form8949>)
    ensures form == Report(transactions, end, fiat)
  {
    var buyLots: map<string, seq<Coinlot>> := map[];
    var saleLots: map<string, seq<Coinlot>> := map[];
    var currencies: seq<string> := [];
    var i := 0;
    while i < |transactions|
      invariant 0 <= i <= |transactions|
      invariant ClassifyFrom(Queues(buyLots, saleLots, currencies), transactions[i..], end, fiat)
                == QueuesOf(transactions, end, fiat)
    {
      var trade := transactions[i];
      ghost var before := Queues(buyLots, saleLots, currencies);
      assert transactions[i..][0] == trade && transactions[i..][1..] == transactions[i + 1..];
      i := i + 1;
      if trade.date > end || !IsTaxable(trade) {
        continue;
      }
      var baseCurrency, quoteCurrency := trade.pair.base, trade.pair.quote;
      if trade.txType == Deposit {
        var coinlot := Coinlot(trade.date, baseCurrency, trade.quantity, trade.fiatPrice, 0.0, trade.fiatTotal);
        if baseCurrency !in buyLots {
          currencies := currencies + [baseCurrency];
        }
        buyLots := buyLots[baseCurrency := Get(buyLots, baseCurrency) + [coinlot]];
        assert Queues(buyLots, saleLots, currencies) == Classify(before, trade, end, fiat);
        continue;
      }
      if trade.txType == Buy {
        var buyCoinlot := Coinlot(trade.date, baseCurrency, trade.quantity, trade.quoteFiatPrice, 0.0, trade.fiatTotal);
        if baseCurrency !in buyLots {
          currencies := currencies + [baseCurrency];
        }
        buyLots := buyLots[baseCurrency := Get(buyLots, baseCurrency) + [buyCoinlot]];
        if quoteCurrency in fiat {
          assert Queues(buyLots, saleLots, currencies) == Classify(before, trade, end, fiat);
          continue;
        }
        var saleCoinlot := Coinlot(trade.date, quoteCurrency, trade.total, trade.quoteFiatPrice,
                                   trade.fiatQuantity, trade.fiatTotal);
        saleLots := saleLots[quoteCurrency := Get(saleLots, quoteCurrency) + [saleCoinlot]];
      }
      if trade.txType == Sell {
        var saleCoinlot := Coinlot(trade.date, baseCurrency, trade.quantity, trade.quoteFiatPrice,
                                   trade.fiatQuantity, trade.fiatTotal);
        saleLots := saleLots[baseCurrency := Get(saleLots, baseCurrency) + [saleCoinlot]];
        var buyCoinlot := Coinlot(trade.date, quoteCurrency, trade.total, Mul(trade.quoteFiatPrice, trade.total),
                                  0.0, trade.fiatTotal);
        if quoteCurrency !in buyLots {
          currencies := currencies + [quoteCurrency];
        }
        buyLots := buyLots[quoteCurrency := Get(buyLots, quoteCurrency) + [buyCoinlot]];
      }
      assert Queues(buyLots, saleLots, currencies) == Classify(before, trade, end, fiat);
    }
    assert transactions[i..] == [];

    ghost var q := Queues(buyLots, saleLots, currencies);
    var shorts: seq<LineItem> := [];
    var longs: seq<LineItem> := [];
    var j := 0;
    while j < |currencies|
      invariant 0 <= j <= |currencies|
      invariant DispatchFrom(q, Form8949(shorts, longs), currencies[j..]) == Report(transactions, end, fiat)
    {
      var currency := currencies[j];
      assert currencies[j..][0] == currency && currencies[j..][1..] == currencies[j + 1..];
      var processed := Process(Get(buyLots, currency), Get(saleLots, currency));
      if processed.Panic? {
        return Panic;
      }
      shorts := shorts + processed.value.shortHolds;
      longs := longs + processed.value.longHolds;
      j := j + 1;
    }
    assert currencies[j..] == [];
    return Ok(Form8949(shorts, longs));
  }

  /** Processing continues past a currency only when that currency's
      matching completes: the report is produced exactly when no currency
      panics, and each currency's line items follow those gathered before
      it, bucket by bucket. */
  lemma {:induction false} DispatchOkIff(q: Queues, form: Form8949, currencies: seq<string>)
    ensures DispatchFrom(q, form, currencies).Ok? <==>
      forall k :: 0 <= k < |currencies| ==> Matched(Get(q.buyLots, currencies[k]), Get(q.saleLots, currencies[k])).Ok?
    ensures DispatchFrom(q, form, currencies).Ok? ==>
      form.shortHolds <= DispatchFrom(q, form, currencies).value.shortHolds &&
      form.longHolds <= DispatchFrom(q, form, currencies).value.longHolds
    decreases |currencies|
  {
    if currencies != [] {
      var c := currencies[0];
      match Matched(Get(q.buyLots, c), Get(q.saleLots, c))
      case Panic =>
      case Ok(f) =>
        var next := Form8949(form.shortHolds + f.shortHolds, form.longHolds + f.longHolds);
        DispatchOkIff(q, next, currencies[1..]);
        assert forall k :: 1 <= k < |currencies| ==> currencies[1..][k - 1] == currencies[k];
    }
  }

  /** The whole report is produced exactly when no currency's matching
      panics. */
  lemma ReportOkIff(txs: seq<Transaction>, end: int, fiat: set<string>)
    ensures var q := QueuesOf(txs, end, fiat);
      Report(txs, end, fiat).Ok? <==>
        forall c :: c in q.currencies ==> Matched(Get(q.buyLots, c), Get(q.saleLots, c)).Ok?
  {
    var q := QueuesOf(txs, end, fiat);
    DispatchOkIff(q, EmptyForm, q.currencies);
  }

  /** Every line item of a report stands in the bucket its holding period
      selects: short-term holds in ShortHolds, the rest in LongHolds. */
  lemma {:induction false} DispatchHoldsTagged(q: Queues, form: Form8949, currencies: seq<string>)
    requires HoldsTagged(form)
    ensures DispatchFrom(q, form, currencies).Ok? ==> HoldsTagged(DispatchFrom(q, form, currencies).value)
    decreases |currencies|
  {
    if currencies != [] {
      var c := currencies[0];
      MatchedHoldsTagged(Get(q.buyLots, c), Get(q.saleLots, c));
      match Matched(Get(q.buyLots, c), Get(q.saleLots, c))
      case Panic =>
      case Ok(f) =>
        DispatchHoldsTagged(q, Form8949(form.shortHolds + f.shortHolds, form.longHolds + f.longHolds), currencies[1..]);
    }
  }

  lemma ReportHoldsTagged(txs: seq<Transaction>, end: int, fiat: set<string>)
    ensures Report(txs, end, fiat).Ok? ==> HoldsTagged(Report(txs, end, fiat).value)
  {
    var q := QueuesOf(txs, end, fiat);
    DispatchHoldsTagged(q, EmptyForm, q.currencies);
  }

  /** A worked history: one bitcoin deposited at 10000 dollars, sold for
      dollars 100 days later at 12000. The report holds one short-term line
      item with proceeds 12000, cost basis 10000 and gain 2000; the dollars
      the sale brought in become a buy lot that nothing sells. */
  lemma DepositThenSell(d: int)
    ensures var btcUsd := CurrencyPair("BTC", "USD");
      var deposit := Transaction(d, Deposit, Normal, btcUsd, 1.0, 10000.0, 10000.0, 10000.0, 1.0, 10000.0);
      var sell := Transaction(d + 100 * SecondsPerDay, Sell, Normal, btcUsd, 1.0, 12000.0, 12000.0, 12000.0, 1.0, 12000.0);
      Report([deposit, sell], d + 365 * SecondsPerDay, {"USD"})
        == Ok(Form8949([LineItem("BTC", 1.0, d, d + 100 * SecondsPerDay, 12000.0, 10000.0, 2000.0)], []))
  {
    var btcUsd := CurrencyPair("BTC", "USD");
    var deposit := Transaction(d, Deposit, Normal, btcUsd, 1.0, 10000.0, 10000.0, 10000.0, 1.0, 10000.0);
    var sell := Transaction(d + 100 * SecondsPerDay, Sell, Normal, btcUsd, 1.0, 12000.0, 12000.0, 12000.0, 1.0, 12000.0);
    var end := d + 365 * SecondsPerDay;
    var bought := Coinlot(d, "BTC", 1.0, 10000.0, 0.0, 10000.0);
    var sold := Coinlot(d + 100 * SecondsPerDay, "BTC", 1.0, 1.0, 12000.0, 12000.0);
    var dollars := Coinlot(d + 100 * SecondsPerDay, "USD", 12000.0, Mul(1.0, 12000.0), 0.0, 12000.0);
    var q1 := Classify(NoQueues, deposit, end, {"USD"});
    DepositAddsOneBuyLot(NoQueues, deposit, end, {"USD"});
    assert [] + [bought] == [bought] && [] + ["BTC"] == ["BTC"];
    assert q1.buyLots == map["BTC" := [bought]] && q1.saleLots == map[];
    assert q1.currencies == ["BTC"];
    var q2 := Classify(q1, sell, end, {"USD"});
    SellAddsLots(q1, sell, end, {"USD"});
    assert "USD" != "BTC";
    assert Get(q1.buyLots, "USD") == [] && Get(q1.saleLots, "BTC") == [];
    assert [] + [dollars] == [dollars] && [] + [sold] == [sold];
    assert q2.buyLots == map["BTC" := [bought], "USD" := [dollars]];
    assert q2.saleLots == map["BTC" := [sold]];
    assert q2.currencies == ["BTC", "USD"];
    assert QueuesOf([deposit, sell], end, {"USD"}) == q2 by {
      assert [deposit, sell][1..] == [sell];
      assert [sell][1..] == [];
      assert ClassifyFrom(q1, [sell], end, {"USD"}) == q2;
    }
    var item := LineItem("BTC", 1.0, d, d + 100 * SecondsPerDay, 12000.0, 10000.0, 2000.0);
    assert Calculate(bought, sold) == (None, item);
    assert [bought][1..] == [];
    assert Step(Matcher([bought], None), sold) == Ok((Matcher([], None), [item]));
    assert IsShortSale(item);
    assert FileAll(EmptyForm, [item]) == Form8949([item], []) by {
      assert [item][1..] == [];
    }
    assert Matched([bought], [sold]) == Ok(Form8949([item], [])) by {
      assert [sold][1..] == [];
      assert Replay(Matcher([], None), Form8949([item], []), []) == Ok(Form8949([item], []));
    }
    assert Matched([dollars], []) == Ok(EmptyForm);
    assert ["BTC", "USD"][1..] == ["USD"] && ["USD"][1..] == [];
    assert Get(q2.buyLots, "BTC") == [bought] && Get(q2.saleLots, "BTC") == [sold];
    assert Get(q2.buyLots, "USD") == [dollars] && Get(q2.saleLots, "USD") == [];
    assert [] + [item] == [item] && [item] + [] == [item];
    var form := Form8949([item], []);
    assert Form8949(form.shortHolds + EmptyForm.shortHolds, form.longHolds + EmptyForm.longHolds) == form;
    assert DispatchFrom(q2, form, []) == Ok(form);
    assert DispatchFrom(q2, form, ["USD"]) == Ok(form);
  }

  /** FIFO ordering for the whole report: for a transaction history in date
      order, the line items each currency contributes to either bucket have
      non-decreasing acquisition dates. */
  lemma ReportInOrder(txs: seq<Transaction>, end: int, fiat: set<string>)
    requires TxsInOrder(txs)
    ensures var q := QueuesOf(txs, end, fiat);
      forall c :: Matched(Get(q.buyLots, c), Get(q.saleLots, c)).Ok? ==>
        AcquiredInOrder(Matched(Get(q.buyLots, c), Get(q.saleLots, c)).value.shortHolds) &&
        AcquiredInOrder(Matched(Get(q.buyLots, c), Get(q.saleLots, c)).value.longHolds)
  {
    var q := QueuesOf(txs, end, fiat);
    QueuesInOrder(txs, end, fiat);
    forall c | Matched(Get(q.buyLots, c), Get(q.saleLots, c)).Ok?
      ensures AcquiredInOrder(Matched(Get(q.buyLots, c), Get(q.saleLots, c)).value.shortHolds) &&
              AcquiredInOrder(Matched(Get(q.buyLots, c), Get(q.saleLots, c)).value.longHolds)
    {
      MatchedInOrder(Get(q.buyLots, c), Get(q.saleLots, c));
    }
  }
}
