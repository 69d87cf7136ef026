# FIFO tax-lot engine

A Dafny model of the FIFO tax-lot engine of the tradebot repository
(`accounting/fifo.go`). The engine turns a history of deposits, buys and
sells into lots, matches each currency's sale lots against its buy lots
oldest first, and fills the two buckets of IRS Form 8949: short-term holds
and long-term holds.

The model has seven modules:

- `Lots` (lots.dfy): the values the engine passes around. These are the
  coin lot, the Form 8949 line item and the form itself, the `Outcome` of
  a run that may panic, and running totals over a run of lots.
- `Holding` (holding.dfy): `isShortSale`, the 365-day holding-period rule.
- `Pricing` (calculate.dfy): `calculate`, which matches one sale lot
  against one buy lot, and `calculateLots`, which matches it against a run
  of buy lots. `calculateLots` is a loop with running sums and an early
  exit, and is the method `CalculateLots`. That method is proved equal to
  the function `LotsMatch`.
- `Intake` (intake.dfy): the first half of `Run`. It drops late and
  non-taxable transactions (`isTaxable`) and appends the lots of the rest
  to per-currency queues.
- `Matching` (matching.dfy): `process`, the loop over one currency's sale
  lots.
  - The buy queue is consumed from its head.
  - A remainder lot (`sublot`) is carried from one sale lot to the next.
  - Each line item is filed in a bucket as soon as it is made.
  - The methods `Process`, `MatchCarried`, `MatchFresh` and `PopLots`
    are proved equal to the functions `Matched`, `StepCarried`,
    `StepFresh` and `Gather`. `Step` chooses between the two branches as
    the loop body does.
- `FifoOrder` (order.dfy): the FIFO ordering of what `process` returns.
  For a buy queue in date order, the acquisition dates in each bucket
  never go backwards (`MatchedInOrder`); a transaction history in date
  order gives such queues (`QueuesInOrder`), which carries the property
  to every currency of the report (`Fifo.ReportInOrder`).
- `Fifo` (fifo.dfy): `Run` itself. It builds the queues and then
  processes every currency that has buy lots. It is proved equal to the
  function `Report`.

Decimals (shopspring `decimal`) are exact `real`s and dates are whole
seconds. Go panics become the `Panic` outcome. Three situations panic
in the source, each by indexing an empty slice:

- a sale lot with no carried remainder and an empty queue (`buyLots[0]`);
- popping lots past the end of the queue (`buyLots[0]` in either popping
  loop);
- `calculateLots` called with no lots (`_lots[0]`).

In each of these cases the model returns `Panic`, and the whole report
then ends in `Panic`.

The model follows the code wherever it departs from what a FIFO tax
report should compute. These are the departures:

- A single-lot gain is the sale lot's cost basis minus the cost basis
  (`CalculateGainIsNotProceedsMinusBasis`). It is not proceeds minus cost
  basis.
- The remainder of a multi-lot match carries the whole last lot's basis
  (`LotsMatchRemainder`). It is not a basis recomputed from the overshoot.
- When the carried remainder covers a sale lot with some left over, the
  queue head is dropped without a line item (`StepCarryDropsHead`).
- When a sale lot exceeds the carried remainder, the carry is sold in a
  line item of its own and the lots gathered for the rest are matched in
  a second one (`StepCarryExceeds`). Both items price their proceeds at
  the sale lot's unit price times the quantity, not at a share of its sale
  price. Together they report the unit price times the sale lot's whole
  quantity, which is its sale price only when the two happen to agree
  (`CarryPricing`). If the second match leaves a remainder, the lot after the
  gathered ones is dropped without a line item. `StepCarryExceedsLosesLot`
  works a case: a lot of 5 disappears, and a sale with sale price 300
  reports proceeds of 3.
- Quantity is therefore not conserved across sale lots.
- A sale lot met with a carried remainder and an empty queue is skipped
  silently (`StepCarryWithoutBuys`). No warning is reported.

## Model

| member | source | states |
|---|---|---|
| Holding.ShortSaleIffWithinYear | accounting/fifo.go:337-340 | a line item is short-term exactly when the sale is less than 365 × 86400 seconds after the acquisition (whole days truncated toward zero) |
| Holding.HoldingBoundary | accounting/fifo.go:337-340 | a sale on day 364 after the acquisition is short-term and a sale on day 365 is long-term, at any second of the day |
| Pricing.Calculate | accounting/fifo.go:263-291 | a remainder lot exists exactly when the buy quantity exceeds the sale quantity; it is positive and dated like the buy lot; the item is acquired on the buy date, sold on the sale date, and its proceeds are the sale price |
| Pricing.CalculateConserves | accounting/fifo.go:270-280 | for a sale the buy lot covers: sold quantity plus remainder make up the buy lot; the item's basis is buy unit price × sale quantity; the remainder keeps the unit price and has basis unit price × remainder quantity; the two bases together are the buy lot's quantity at its unit price |
| Pricing.CalculateGainIsNotProceedsMinusBasis | accounting/fifo.go:280-290 | the single-lot gain is proceeds − cost basis + (sale lot's cost basis − its sale price), so it equals proceeds minus cost basis exactly when the sale lot's cost basis equals its sale price |
| Pricing.OvershootFirst | accounting/fifo.go:306-323 | the loop breaks at the first lot where the running quantity strictly exceeds the sale quantity, and never breaks exactly when every running quantity stays at or below it |
| Pricing.LotsMatch | accounting/fifo.go:293-335 | the item is acquired on the first lot's date, sold on the sale date, has the sale price as proceeds, and gain = proceeds − cost basis |
| Pricing.LotsMatchRemainderIff | accounting/fifo.go:306-323 | there is no remainder exactly when every running quantity stays at or below the sale quantity, the basis is then that of every lot, and a remainder is always positive |
| Pricing.LotsMatchRemainder | accounting/fifo.go:313-320 | the remainder is running quantity − sale quantity, dated and priced like the overshooting lot, at that lot's whole cost basis; the item's basis sums the lots up to and including that lot, so that lot's basis is counted twice |
| Pricing.LotsMatchExact | accounting/fifo.go:306-323 | with positive quantities summing exactly to the sale quantity there is no remainder, and the basis is that of all the lots |
| Pricing.LotsMatchIgnoresSaleUnitPriceAndBasis | accounting/fifo.go:293-335 | the sale lot's unit price and cost basis do not affect the result (so the averaged unit price of accounting/fifo.go:183 never reaches a line item) |
| Pricing.CalculateLots | accounting/fifo.go:293-335 | the loop with running quantity and basis and the early break computes `LotsMatch` |
| Intake.TaxableCategories | accounting/fifo.go:342-349 | a transaction is taxable exactly when its category is not lost, gift or donation |
| Intake.SkipsLateAndUntaxed | accounting/fifo.go:37-39 | a transaction dated after the end of the report, or lost, gifted or donated, adds no lot and leaves every queue as it was |
| Intake.DepositAddsOneBuyLot | accounting/fifo.go:51-60 | a deposit appends one buy lot (quantity, fiat price, fiat total) to its base currency's queue and touches no sale queue |
| Intake.BuyAddsLots | accounting/fifo.go:62-83 | a buy appends a base-currency buy lot; with a fiat quote nothing else; otherwise also a quote-currency sale lot of the total, with sale price the fiat quantity |
| Intake.SellAddsLots | accounting/fifo.go:85-103 | a sell appends a base-currency sale lot and a quote-currency buy lot of the total, priced at quote fiat price × total |
| Intake.QueuesGrowAtTail | accounting/fifo.go:35-104 | every queue before a run of transactions is a prefix of the same queue after it, so lots keep transaction order |
| Intake.QueuesOfWellFormed | accounting/fifo.go:114-118 | the processing order lists each currency with buy lots exactly once and no other, and each listed currency's queue is non-empty |
| Matching.GatherShortestPrefix | accounting/fifo.go:239-247 | popping splits the queue into the shortest prefix whose quantity reaches the target and the rest, and panics exactly when no prefix reaches it |
| Matching.PopLots | accounting/fifo.go:171-182 | the popping loop computes `Gather` and its quantity, unit-price and basis sums are the totals over the popped lots |
| Matching.MatchCarried | accounting/fifo.go:136-217 | the carry branch of the loop body computes `StepCarried` |
| Matching.MatchFresh | accounting/fifo.go:220-256 | the no-carry branch of the loop body computes `StepFresh` |
| Matching.Process | accounting/fifo.go:127-261 | `process` computes `Matched`: every sale lot in order, each item filed as it is made, with panics propagated |
| Matching.FileAllPartitions | accounting/fifo.go:165-169 | filing puts every line item into exactly one bucket (a multiset partition) and keeps every item in the bucket its holding period selects |
| Matching.FileAllAppends | accounting/fifo.go:165-169 | filing only appends: each bucket keeps the items filed before, in the same order |
| Matching.ReplayHoldsTagged | accounting/fifo.go:134-258 | from a correctly bucketed form, every form the loop produces is correctly bucketed |
| Matching.MatchedHoldsTagged | accounting/fifo.go:127-261 | every short-term hold `process` returns is short and every long-term hold is long |
| Matching.StepConsumesFromHead | accounting/fifo.go:134-256 | one sale lot leaves a suffix of the queue and makes at most two line items |
| Matching.StepCarryWithoutBuys | accounting/fifo.go:136-142 | with a carried remainder and no buy lots left, the sale lot makes no line item and changes nothing |
| Matching.StepHeadCoversSale | accounting/fifo.go:225-234 | with no carry and a sale the head covers, exactly the head is consumed, one item is made at the head's unit price, and the excess (if any) becomes the carry |
| Matching.StepGathersOldestFirst | accounting/fifo.go:236-256 | with no carry and a sale larger than the head, the step succeeds exactly when the sale is positive and some prefix reaches it; then the shortest such prefix is consumed and matched by `LotsMatch` |
| Matching.StepCarryDropsHead | accounting/fifo.go:201-215 | when the carry covers the sale with some left over, the queue head is dropped as well, and the carry shrinks by the sale at its unit price |
| Matching.StepCarryExceeds | accounting/fifo.go:149-215 | with a carry smaller than the sale, the step succeeds exactly when some prefix of the queue reaches sale − carry, and the lots gathered are the shortest such prefix; it then files the carry item and then the `LotsMatch` item of the gathered lots against the rebuilt sale lot; the new carry is that match's remainder, and with a remainder the next queued lot is dropped (lines 213-215) |
| Matching.CarryPricing | accounting/fifo.go:152-191 | for every carry, gathered run and sale lot, the two items' proceeds total the sale lot's unit price × its whole quantity, so they equal its sale price exactly when the sale price is that product |
| Matching.StepCarryExceedsLosesLot | accounting/fifo.go:149-215 | carry 1, sale 3 at unit price 1 and sale price 300, queue [1, 3, 5]: the queue ends empty, the carry becomes 2, and the two items' proceeds total 3 |
| Matching.StepCarryStaysPositive | accounting/fifo.go:134-256 | a positive carried remainder stays positive from one sale lot to the next |
| FifoOrder.StepKeepsFifo | accounting/fifo.go:134-256 | one sale lot keeps the queue in date order and the carry no later than any queued lot; its items are in acquisition-date order and dated no later than anything the matcher still holds; and every date no later than everything the matcher held is no later than any of its items nor than anything it still holds |
| FifoOrder.FileAllInOrder | accounting/fifo.go:165-169 | filing items in date order, none earlier than what is already filed, keeps both buckets in acquisition-date order |
| FifoOrder.ReplayInOrder | accounting/fifo.go:134-258 | from a state in FIFO order and buckets in date order that precede it, every form the loop produces has both buckets in acquisition-date order |
| FifoOrder.MatchedInOrder | accounting/fifo.go:127-261 | for buy lots queued in date order, each bucket `process` returns has non-decreasing acquisition dates |
| FifoOrder.QueuesInOrder | accounting/fifo.go:35-104 | a transaction history in date order gives every currency a buy queue in date order |
| Fifo.Run | accounting/fifo.go:30-125 | `Run` computes `Report`: the queues built from every transaction, then each currency with buy lots processed in first-buy order and its items appended |
| Fifo.DispatchOkIff | accounting/fifo.go:114-118 | dispatch produces a form exactly when no currency panics, and it only appends to the items gathered so far |
| Fifo.ReportOkIff | accounting/fifo.go:114-118 | the report is produced exactly when every processed currency's matching completes |
| Fifo.DispatchHoldsTagged | accounting/fifo.go:114-118 | appending each currency's correctly bucketed items keeps the form correctly bucketed |
| Fifo.ReportHoldsTagged | accounting/fifo.go:30-125 | every short-term hold of the report is short-term and every long-term hold is long-term |
| Fifo.ReportInOrder | accounting/fifo.go:30-125 | for a transaction history in date order, the line items each currency contributes to either bucket have non-decreasing acquisition dates |
| Fifo.DepositThenSell | accounting/fifo.go:30-125 | one bitcoin deposited at 10000 and sold 100 days later for 12000 gives one short-term item: proceeds 12000, cost basis 10000, gain 2000 |

## Left out

- `createTransactionService` (accounting/fifo.go:351-368) only wires a service and a data-access object.
- Logging and `fmt.Printf` output are left out. The one place where output matters, `buyLots[0]` at accounting/fifo.go:222, is kept as the panic it causes.
- Parsing of the decimal fields (accounting/fifo.go:41-46) is left out. Its errors are ignored in the source, and transactions here carry parsed values.
- Rendering amounts with `StringFixed(2)` is left out. Line items keep exact amounts.
- The description string is kept as the quantity it prints.
- The adjustment code and amount are left out; they are always empty.
- `Form8949.sort()` (accounting/fifo.go:123) is left out, because its definition is not part of this model. `Run` returns the buckets unsorted.
- Go map iteration order at accounting/fifo.go:114 is unspecified. The model fixes one order: the order in which each currency's first buy lot arrived.
- The averaged unit price at accounting/fifo.go:183 is computed by exact real division. The source divides by a float-converted count at decimal precision. `LotsMatchIgnoresSaleUnitPriceAndBasis` shows the value never reaches a line item.
- `isShortSale` works on whole seconds. Sub-second precision, the float rounding of `Duration.Hours()` and the saturation of `time.Sub` for dates centuries apart are not modelled.
- `FiatCurrencies` (in the common package, which is not part of this model) is the parameter `fiat`.
- Transaction types and categories are datatypes. Every type other than deposit, buy and sell, and every category other than normal, lost, gift and donation, is one `Other` constructor each.
- `Run`'s `start` parameter is accepted and never read, as in the source.
