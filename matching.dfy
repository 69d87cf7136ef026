/** The lot matcher (`process`): the sale lots of one currency walked in
    order against its buy-lot queue, with a carried remainder lot (the
    source's `sublot`) passed from one sale lot to the next. Each line item
    is filed as a short- or a long-term hold as soon as it is made.

    The queue is the source's slice `buyLots`, consumed by re-slicing it
    from the head. An index into an empty slice panics in Go; here it ends
    the run with `Panic`. */
module Matching {
  import opened Lots
  import opened Holding
  import opened Pricing

  /** The matcher's state between two sale lots. */
  datatype Matcher = Matcher(buys: seq<Coinlot>, carry: Option<Coinlot>)

  /** Every short-term hold is short and every long-term hold is long. */
  predicate HoldsTagged(form: Form8949)
  {
    (forall i :: 0 <= i < |form.shortHolds| ==> IsShortSale(form.shortHolds[i])) &&
    (forall i :: 0 <= i < |form.longHolds| ==> !IsShortSale(form.longHolds[i]))
  }

  /** Files one line item under the bucket its holding period selects. */
  function File(form: Form8949, item: LineItem): Form8949
  {
    if IsShortSale(item) then form.(shortHolds := form.shortHolds + [item])
    else form.(longHolds := form.longHolds + [item])
  }

  function FileAll(form: Form8949, items: seq<LineItem>): Form8949
    decreases |items|
  {
    if items == [] then form else FileAll(File(form, items[0]), items[1..])
  }

  /** The lots popped from the head of `queue` while the running quantity
      stays below `target`, and what is left of the queue; None when the
      queue runs out first (the source then indexes an empty slice). */
  function Gather(queue: seq<Coinlot>, target: real): (r: Option<(seq<Coinlot>, seq<Coinlot>)>)
    ensures r.Some? && target > 0.0 ==> |r.value.0| > 0
    decreases |queue|
  {
    if target <= 0.0 then Some(([], queue))
    else if queue == [] then None
    else
      match Gather(queue[1..], target - queue[0].quantity)
      case None => None
      case Some((lots, rest)) => Some(([queue[0]] + lots, rest))
  }

  /** Gathering splits the queue: the popped lots followed by what is left
      make up the queue. */
  lemma {:induction false} GatherSplits(queue: seq<Coinlot>, target: real)
    ensures Gather(queue, target).Some? ==> Gather(queue, target).value.0 + Gather(queue, target).value.1 == queue
    decreases |queue|
  {
    if target > 0.0 && queue != [] {
      GatherSplits(queue[1..], target - queue[0].quantity);
      assert queue == [queue[0]] + queue[1..];
    }
  }

  /** Gathering pops the shortest prefix of the queue whose quantity reaches
      the target, and fails exactly when no prefix reaches it. */
  lemma {:induction false} GatherShortestPrefix(queue: seq<Coinlot>, target: real)
    ensures var r := Gather(queue, target);
      (r.None? <==> forall j :: 0 <= j <= |queue| ==> Total(queue[..j], Quantity) < target) &&
      (r.Some? ==> r.value.0 + r.value.1 == queue && Total(r.value.0, Quantity) >= target &&
                   forall j :: 0 <= j < |r.value.0| ==> Total(queue[..j], Quantity) < target)
    decreases |queue|
  {
    GatherSplits(queue, target);
    assert queue[..0] == [];
    if target > 0.0 && queue != [] {
      GatherShortestPrefix(queue[1..], target - queue[0].quantity);
      forall j | 1 <= j <= |queue|
        ensures Total(queue[..j], Quantity) == queue[0].quantity + Total(queue[1..][..j - 1], Quantity)
      {
        PrefixTotal(queue, j, Quantity);
      }
      match Gather(queue[1..], target - queue[0].quantity)
      case None =>
      case Some((lots, rest)) =>
        assert queue[1..][..|lots|] == lots;
        assert Total(queue[..|lots| + 1], Quantity) >= target;
    } else if queue == [] {
      assert forall j :: 0 <= j <= |queue| ==> queue[..j] == [];
    }
  }

  /** `lots` put in front of the lots a gathering pops. */
  function Prefixed(lots: seq<Coinlot>, g: Option<(seq<Coinlot>, seq<Coinlot>)>): Option<(seq<Coinlot>, seq<Coinlot>)>
  {
    match g
    case None => None
    case Some((more, rest)) => Some((lots + more, rest))
  }

  lemma PrefixedNothing(g: Option<(seq<Coinlot>, seq<Coinlot>)>)
    ensures Prefixed([], g) == g
  {
    if g.Some? {
      assert [] + g.value.0 == g.value.0;
    }
  }

  /** Popping one more lot while the target is not yet reached. */
  lemma GatherPop(lots: seq<Coinlot>, buys: seq<Coinlot>, target: real)
    requires target > 0.0 && buys != []
    ensures Prefixed(lots, Gather(buys, target))
         == Prefixed(lots + [buys[0]], Gather(buys[1..], target - buys[0].quantity))
  {
    match Gather(buys[1..], target - buys[0].quantity)
    case None =>
    case Some((more, rest)) =>
      assert lots + ([buys[0]] + more) == (lots + [buys[0]]) + more;
  }

  /** Once the target is reached nothing more is popped. */
  lemma GatherDone(lots: seq<Coinlot>, buys: seq<Coinlot>, target: real)
    requires target <= 0.0
    ensures Prefixed(lots, Gather(buys, target)) == Some((lots, buys))
  {
    assert lots + [] == lots;
  }

  /** The line item for the carried remainder when a sale lot exceeds it:
      priced at the sale lot's unit price, at the remainder's cost basis. */
  function CarryItem(carry: Coinlot, sale: Coinlot): LineItem
  {
    var proceeds := carry.quantity * sale.unitPrice;
    LineItem(carry.currency, carry.quantity, carry.date, sale.date,
             proceeds, carry.costBasis, proceeds - carry.costBasis)
  }

  /** The part of a sale lot left over after the carried remainder, as the
      source rebuilds it for `calculateLots`. Its unit price is the sum of
      the carry's, the queue head's (once more) and every gathered lot's
      unit price over the number of gathered lots. */
  function CarrySaleLot(carry: Coinlot, head: Coinlot, lots: seq<Coinlot>, sale: Coinlot): Coinlot
    requires |lots| > 0
  {
    var newQuantity := sale.quantity - carry.quantity;
    Coinlot(sale.date, sale.currency, newQuantity,
            (carry.unitPrice + head.unitPrice + Total(lots, UnitPrice)) / (|lots| as real),
            sale.unitPrice * newQuantity, Total(lots, CostBasis))
  }

  /** One iteration of the source's loop over the sale lots: the new matcher
      state and the line items made, in the order they are filed. */
  function Step(m: Matcher, sale: Coinlot): Outcome<(Matcher, seq<LineItem>)>
  {
    match m.carry
    case Some(c) => StepCarried(m.buys, c, sale)
    case None => StepFresh(m.buys, sale)
  }

  /** A sale lot met with a carried remainder lot. */
  function StepCarried(buys: seq<Coinlot>, c: Coinlot, sale: Coinlot): Outcome<(Matcher, seq<LineItem>)>
  {
    if buys == [] then Ok((Matcher(buys, Some(c)), []))
    else if sale.quantity > c.quantity then
      match Gather(buys, sale.quantity - c.quantity)
      case None => Panic
      case Some((lots, rest)) =>
        var (sub, item) := LotsMatch(lots, CarrySaleLot(c, buys[0], lots, sale));
        Ok((Matcher(if sub.Some? && rest != [] then rest[1..] else rest, sub), [CarryItem(c, sale), item]))
    else
      var (sub, item) := Calculate(c, sale);
      Ok((Matcher(if sub.Some? then buys[1..] else buys, sub), [item]))
  }

  /** A sale lot met with no carried remainder. */
  function StepFresh(buys: seq<Coinlot>, sale: Coinlot): Outcome<(Matcher, seq<LineItem>)>
  {
    if buys == [] then Panic
    else if sale.quantity <= buys[0].quantity then
      var (sub, item) := Calculate(buys[0], sale);
      Ok((Matcher(buys[1..], sub), [item]))
    else
      match Gather(buys, sale.quantity)
      case None => Panic
      case Some((lots, rest)) =>
        if lots == [] then Panic
        else
          var (sub, item) := LotsMatch(lots, sale);
          Ok((Matcher(rest, sub), [item]))
  }

  /** The remaining sale lots run from a matcher state and a partly filled
      form. */
  function Replay(m: Matcher, form: Form8949, sales: seq<Coinlot>): Outcome<Form8949>
    decreases |sales|
  {
    if sales == [] then Ok(form)
    else
      match Step(m, sales[0])
      case Panic => Panic
      case Ok((next, items)) => Replay(next, FileAll(form, items), sales[1..])
  }

  /** What `process` returns for one currency's buy and sale lots. */
  function Matched(buyLots: seq<Coinlot>, saleLots: seq<Coinlot>): Outcome<Form8949>
  {
    Replay(Matcher(buyLots, None), EmptyForm, saleLots)
  }

  /** The source's inner loop: pops lots from the head of the queue while
      the running quantity is below `target`, summing their quantities, unit
      prices and cost bases as it goes. None where the source would index
      an empty slice. */
  method PopLots(buyLots: seq<Coinlot>, target: real)
    returns (r: Option<(seq<Coinlot>, seq<Coinlot>)>, sum: real, unitPrices: real, basis: real)
    ensures r == Gather(buyLots, target)
    ensures r.Some? ==> sum == Total(r.value.0, Quantity) && unitPrices == Total(r.value.0, UnitPrice) &&
                        basis == Total(r.value.0, CostBasis)
  {
    var buys := buyLots;
    var lots: seq<Coinlot> := [];
    sum, unitPrices, basis := 0.0, 0.0, 0.0;
    ghost var left := target;
    PrefixedNothing(Gather(buyLots, target));
    while sum < target
      invariant sum == Total(lots, Quantity) && unitPrices == Total(lots, UnitPrice)
      invariant basis == Total(lots, CostBasis)
      invariant left == target - sum
      invariant Gather(buyLots, target) == Prefixed(lots, Gather(buys, left))
      decreases |buys|
    {
      if |buys| == 0 {
        assert Gather(buys, left) == None;
        return None, sum, unitPrices, basis;
      }
      var lot := buys[0];
      GatherPop(lots, buys, left);
      TotalAppend(lots, lot, Quantity);
      TotalAppend(lots, lot, UnitPrice);
      TotalAppend(lots, lot, CostBasis);
      ghost var popped := Prefixed(lots + [lot], Gather(buys[1..], left - lot.quantity));
      sum := sum + lot.quantity;
      unitPrices := unitPrices + lot.unitPrice;
      basis := basis + lot.costBasis;
      left := left - lot.quantity;
      lots := lots + [lot];
      buys := buys[1..];
      assert Prefixed(lots, Gather(buys, left)) == popped;
    }
    GatherDone(lots, buys, left);
    r := Some((lots, buys));
  }

  /** The branch of the loop body taken while a remainder is carried. */
  method MatchCarried(buyLots: seq<Coinlot>, carry: Coinlot, saleLot: Coinlot)
    returns (r: Outcome<(Matcher, seq<LineItem>)>)
    ensures r == StepCarried(buyLots, carry, saleLot)
  {
    var buys := buyLots;
    if |buys| == 0 {
      // out of buy lots: the sale lot is skipped
      return Ok((Matcher(buys, Some(carry)), []));
    }
    var next: Option<Coinlot>;
    var items: seq<LineItem>;
    if saleLot.quantity > carry.quantity {
      var unitPrice := carry.unitPrice + buys[0].unitPrice;
      var first := CarryItem(carry, saleLot);
      var popped, _, unitPrices, basis := PopLots(buys, saleLot.quantity - carry.quantity);
      if popped.None? {
        return Panic;
      }
      var lots;
      lots, buys := popped.value.0, popped.value.1;
      unitPrice := (unitPrice + unitPrices) / (|lots| as real);
      var newQuantity := saleLot.quantity - carry.quantity;
      var newSaleLot := Coinlot(saleLot.date, saleLot.currency, newQuantity, unitPrice,
                                saleLot.unitPrice * newQuantity, basis);
      assert newSaleLot == CarrySaleLot(carry, buyLots[0], lots, saleLot);
      var item;
      next, item := CalculateLots(lots, newSaleLot);
      items := [first, item];
      assert StepCarried(buyLots, carry, saleLot)
          == Ok((Matcher(if next.Some? && buys != [] then buys[1..] else buys, next), items));
    } else {
      var (sub, item) := Calculate(carry, saleLot);
      next, items := sub, [item];
      assert StepCarried(buyLots, carry, saleLot)
          == Ok((Matcher(if next.Some? then buys[1..] else buys, next), items));
    }
    if next.Some? && |buys| > 0 {
      buys := buys[1..];
    }
    return Ok((Matcher(buys, next), items));
  }

  /** The branch of the loop body taken with no carried remainder. */
  method MatchFresh(buyLots: seq<Coinlot>, saleLot: Coinlot)
    returns (r: Outcome<(Matcher, seq<LineItem>)>)
    ensures r == StepFresh(buyLots, saleLot)
  {
    if |buyLots| == 0 {
      return Panic;
    }
    if saleLot.quantity <= buyLots[0].quantity {
      var (sub, item) := Calculate(buyLots[0], saleLot);
      return Ok((Matcher(buyLots[1..], sub), [item]));
    }
    var popped, _, _, _ := PopLots(buyLots, saleLot.quantity);
    if popped.None? {
      return Panic;
    }
    var (lots, buys) := popped.value;
    if |lots| == 0 {
      // calculateLots reads the first gathered lot
      return Panic;
    }
    var sub, item := CalculateLots(lots, saleLot);
    return Ok((Matcher(buys, sub), [item]));
  }

  /** `process`: every sale lot in order, each line item filed as it is
      made. */
  method Process(buyLots: seq<Coinlot>, saleLots: seq<Coinlot>) returns (r: Outcome<Form8949>)
    ensures r == Matched(buyLots, saleLots)
  {
    var buys := buyLots;
    var sublot: Option<Coinlot> := None;
    var form := EmptyForm;
    var i := 0;
    while i < |saleLots|
      invariant 0 <= i <= |saleLots|
      invariant Replay(Matcher(buys, sublot), form, saleLots[i..]) == Matched(buyLots, saleLots)
    {
      assert saleLots[i..][0] == saleLots[i] && saleLots[i..][1..] == saleLots[i + 1..];
      var step;
      if sublot.Some? {
        step := MatchCarried(buys, sublot.value, saleLots[i]);
      } else {
        step := MatchFresh(buys, saleLots[i]);
      }
      if step.Panic? {
        return Panic;
      }
      var (m, items) := step.value;
      ghost var filed := FileAll(form, items);
      var k := 0;
      while k < |items|
        invariant 0 <= k <= |items|
        invariant FileAll(form, items[k..]) == filed
      {
        assert items[k..][0] == items[k] && items[k..][1..] == items[k + 1..];
        var item := items[k];
        if IsShortSale(item) {
          form := form.(shortHolds := form.shortHolds + [item]);
        } else {
          form := form.(longHolds := form.longHolds + [item]);
        }
        k := k + 1;
      }
      buys, sublot := m.buys, m.carry;
      i := i + 1;
    }
    return Ok(form);
  }

  /** Filing puts every line item into exactly one bucket, the one its
      holding period selects. */
  lemma {:induction false} FileAllPartitions(form: Form8949, items: seq<LineItem>)
    ensures var filed := FileAll(form, items);
      multiset(filed.shortHolds) + multiset(filed.longHolds)
        == multiset(form.shortHolds) + multiset(form.longHolds) + multiset(items) &&
      (HoldsTagged(form) ==> HoldsTagged(filed))
    decreases |items|
  {
    if items != [] {
      FileAllPartitions(File(form, items[0]), items[1..]);
      assert items == [items[0]] + items[1..];
    }
  }

  /** Filing only appends: both buckets keep what was filed before, in the
      same order. */
  lemma {:induction false} FileAllAppends(form: Form8949, items: seq<LineItem>)
    ensures form.shortHolds <= FileAll(form, items).shortHolds
    ensures form.longHolds <= FileAll(form, items).longHolds
    decreases |items|
  {
    if items != [] {
      FileAllAppends(File(form, items[0]), items[1..]);
    }
  }

  /** Every line item `process` returns sits in the bucket its holding
      period selects. */
  lemma {:induction false} ReplayHoldsTagged(m: Matcher, form: Form8949, sales: seq<Coinlot>)
    requires HoldsTagged(form)
    ensures Replay(m, form, sales).Ok? ==> HoldsTagged(Replay(m, form, sales).value)
    decreases |sales|
  {
    if sales != [] {
      match Step(m, sales[0])
      case Panic =>
      case Ok((next, items)) =>
        FileAllPartitions(form, items);
        ReplayHoldsTagged(next, FileAll(form, items), sales[1..]);
    }
  }

  lemma MatchedHoldsTagged(buyLots: seq<Coinlot>, saleLots: seq<Coinlot>)
    ensures Matched(buyLots, saleLots).Ok? ==> HoldsTagged(Matched(buyLots, saleLots).value)
  {
    ReplayHoldsTagged(Matcher(buyLots, None), EmptyForm, saleLots);
  }

  /** The queue is only ever consumed from its head, and a sale lot makes at
      most two line items. */
  lemma StepConsumesFromHead(m: Matcher, sale: Coinlot)
    ensures Step(m, sale).Ok? ==>
      var (next, items) := Step(m, sale).value;
      |next.buys| <= |m.buys| && next.buys == m.buys[|m.buys| - |next.buys|..] && |items| <= 2
  {
    match m.carry
    case Some(c) =>
      if m.buys != [] && sale.quantity > c.quantity {
        GatherSplits(m.buys, sale.quantity - c.quantity);
        match Gather(m.buys, sale.quantity - c.quantity)
        case None =>
        case Some((lots, rest)) =>
          assert rest == m.buys[|lots|..];
      }
    case None =>
      if m.buys != [] && sale.quantity > m.buys[0].quantity {
        GatherSplits(m.buys, sale.quantity);
        match Gather(m.buys, sale.quantity)
        case None =>
        case Some((lots, rest)) =>
          assert rest == m.buys[|lots|..];
      }
  }

  /** With a carried remainder but no buy lots left, the sale lot makes no
      line item and changes nothing. */
  lemma StepCarryWithoutBuys(m: Matcher, sale: Coinlot)
    requires m.carry.Some? && m.buys == []
    ensures Step(m, sale) == Ok((m, []))
  {
  }

  /** With no carry and a sale lot the queue head covers, exactly the head
      is consumed: one line item at the head's unit price, and its excess
      (if any) becomes the carry. */
  lemma StepHeadCoversSale(m: Matcher, sale: Coinlot)
    requires m.carry.None? && m.buys != [] && sale.quantity <= m.buys[0].quantity
    ensures Step(m, sale).Ok?
    ensures var (next, items) := Step(m, sale).value;
      var head := m.buys[0];
      next.buys == m.buys[1..] && |items| == 1 &&
      items[0].dateAcquired == head.date && items[0].dateSold == sale.date &&
      items[0].costBasis == head.unitPrice * sale.quantity &&
      (next.carry.Some? <==> head.quantity > sale.quantity) &&
      (next.carry.Some? ==> next.carry.value.quantity == head.quantity - sale.quantity)
  {
  }

  /** With no carry and a sale lot larger than the queue head, lots are
      popped oldest first until the popped quantity reaches the sale
      quantity; the run fails exactly when no prefix of the queue reaches a
      positive sale quantity. */
  lemma StepGathersOldestFirst(m: Matcher, sale: Coinlot)
    requires m.carry.None? && m.buys != [] && sale.quantity > m.buys[0].quantity
    ensures Step(m, sale).Ok? <==>
      sale.quantity > 0.0 && exists k :: 0 <= k <= |m.buys| && Total(m.buys[..k], Quantity) >= sale.quantity
    ensures Step(m, sale).Ok? ==>
      var (next, items) := Step(m, sale).value;
      var k := |m.buys| - |next.buys|;
      1 <= k && next.buys == m.buys[k..] &&
      Total(m.buys[..k], Quantity) >= sale.quantity &&
      (forall j :: 0 <= j < k ==> Total(m.buys[..j], Quantity) < sale.quantity) &&
      (next.carry, items) == (LotsMatch(m.buys[..k], sale).0, [LotsMatch(m.buys[..k], sale).1])
  {
    var g := Gather(m.buys, sale.quantity);
    GatherShortestPrefix(m.buys, sale.quantity);
    GatherSplits(m.buys, sale.quantity);
    if g.Some? {
      var (lots, rest) := g.value;
      assert lots == m.buys[..|lots|];
      assert rest == m.buys[|lots|..];
    }
  }

  /** In the carry branch, a sale lot the carry covers with some to spare
      is matched against the carry alone, yet the head of the queue is
      dropped as well, without any line item for it. */
  lemma StepCarryDropsHead(buys: seq<Coinlot>, carry: Coinlot, sale: Coinlot)
    requires buys != [] && sale.quantity < carry.quantity
    ensures StepCarried(buys, carry, sale).Ok?
    ensures var (next, items) := StepCarried(buys, carry, sale).value;
      next.buys == buys[1..] && |items| == 1 &&
      items[0].dateAcquired == carry.date && next.carry.Some? &&
      next.carry.value.date == carry.date &&
      next.carry.value.quantity == carry.quantity - sale.quantity &&
      next.carry.value.unitPrice == carry.unitPrice &&
      next.carry.value.costBasis == carry.unitPrice * (carry.quantity - sale.quantity)
  {
    var sub := Calculate(carry, sale).0;
    assert sub.Some? && sub.value.unitPrice == carry.unitPrice;
    assert sub.value.costBasis == carry.unitPrice * (carry.quantity - sale.quantity);
  }

  /** A carried remainder always holds a positive quantity. */
  lemma StepCarryStaysPositive(m: Matcher, sale: Coinlot)
    requires m.carry.Some? ==> m.carry.value.quantity > 0.0
    ensures Step(m, sale).Ok? && Step(m, sale).value.0.carry.Some? ==>
      Step(m, sale).value.0.carry.value.quantity > 0.0
  {
    match m.carry
    case Some(c) =>
      if m.buys != [] && sale.quantity > c.quantity {
        match Gather(m.buys, sale.quantity - c.quantity)
        case None =>
        case Some((lots, rest)) =>
          LotsMatchRemainderIff(lots, CarrySaleLot(c, m.buys[0], lots, sale));
      }
    case None =>
      if m.buys != [] && sale.quantity > m.buys[0].quantity {
        match Gather(m.buys, sale.quantity)
        case None =>
        case Some((lots, rest)) =>
          if lots != [] {
            LotsMatchRemainderIff(lots, sale);
          }
      }
  }

  /** With a carried remainder smaller than the sale lot, two line items
      are made: the carry item, then the match of the lots gathered for
      what the carry leaves of the sale against the rebuilt sale lot (see
      `CarryPricing` for how both are priced). The step succeeds exactly
      when some prefix of the queue reaches what the carry leaves of the
      sale, and the lots gathered are the shortest such prefix. When that
      match leaves a remainder, the lot after the gathered ones is dropped
      as well. */
  lemma StepCarryExceeds(buys: seq<Coinlot>, c: Coinlot, sale: Coinlot)
    requires buys != [] && sale.quantity > c.quantity
    ensures StepCarried(buys, c, sale).Ok? <==> Gather(buys, sale.quantity - c.quantity).Some?
    ensures StepCarried(buys, c, sale).Ok? ==>
      var (next, items) := StepCarried(buys, c, sale).value;
      var (lots, rest) := Gather(buys, sale.quantity - c.quantity).value;
      |lots| > 0 &&
      var newSale := CarrySaleLot(c, buys[0], lots, sale);
      items == [CarryItem(c, sale), LotsMatch(lots, newSale).1] &&
      next.carry == LotsMatch(lots, newSale).0 &&
      next.buys == (if next.carry.Some? && rest != [] then rest[1..] else rest)
    ensures StepCarried(buys, c, sale).Ok? <==>
      exists k :: 0 <= k <= |buys| && Total(buys[..k], Quantity) >= sale.quantity - c.quantity
    ensures StepCarried(buys, c, sale).Ok? ==>
      var n := |Gather(buys, sale.quantity - c.quantity).value.0|;
      n <= |buys| && Gather(buys, sale.quantity - c.quantity).value.0 == buys[..n] &&
      Total(buys[..n], Quantity) >= sale.quantity - c.quantity &&
      forall j :: 0 <= j < n ==> Total(buys[..j], Quantity) < sale.quantity - c.quantity
  {
    GatherShortestPrefix(buys, sale.quantity - c.quantity);
    match Gather(buys, sale.quantity - c.quantity)
    case None =>
    case Some((lots, rest)) =>
      var newSale := CarrySaleLot(c, buys[0], lots, sale);
      var (sub, item) := LotsMatch(lots, newSale);
      assert StepCarried(buys, c, sale)
          == Ok((Matcher(if sub.Some? && rest != [] then rest[1..] else rest, sub), [CarryItem(c, sale), item]));
  }

  /** How the carry branch prices its two line items: together their
      proceeds are the sale lot's unit price times its whole quantity, not
      its sale price. The two agree only when the sale price happens to be
      exactly that product. */
  lemma CarryPricing(c: Coinlot, head: Coinlot, lots: seq<Coinlot>, sale: Coinlot)
    requires |lots| > 0
    ensures var total := CarryItem(c, sale).proceeds + LotsMatch(lots, CarrySaleLot(c, head, lots, sale)).1.proceeds;
      total == sale.unitPrice * sale.quantity &&
      (total == sale.salePrice <==> sale.salePrice == sale.unitPrice * sale.quantity)
  {
    assert c.quantity * sale.unitPrice + sale.unitPrice * (sale.quantity - c.quantity) == sale.unitPrice * sale.quantity;
  }

  /** A worked case of the carry branch: a carry of 1, then a sale lot of 3
      with unit price 1 and sale price 300, against a queue of lots of 1, 3
      and 5. The lots of 1 and 3 are gathered; the split of the 3 lot leaves
      a remainder of 2, so the 5 lot is dropped with no line item, and the
      two items' proceeds add up to 3, not 300. */
  lemma StepCarryExceedsLosesLot(d: int)
    ensures var c := Coinlot(d, "BTC", 1.0, 10.0, 0.0, 10.0);
      var sale := Coinlot(d + 1, "BTC", 3.0, 1.0, 300.0, 300.0);
      var buys := [Coinlot(d, "BTC", 1.0, 10.0, 0.0, 10.0), Coinlot(d, "BTC", 3.0, 10.0, 0.0, 30.0),
                   Coinlot(d, "BTC", 5.0, 10.0, 0.0, 50.0)];
      var r := StepCarried(buys, c, sale);
      r.Ok? && r.value.0.buys == [] &&
      r.value.0.carry.Some? && r.value.0.carry.value.quantity == 2.0 &&
      |r.value.1| == 2 && r.value.1[0].proceeds + r.value.1[1].proceeds == 3.0
  {
    var c := Coinlot(d, "BTC", 1.0, 10.0, 0.0, 10.0);
    var sale := Coinlot(d + 1, "BTC", 3.0, 1.0, 300.0, 300.0);
    var one, three, five := Coinlot(d, "BTC", 1.0, 10.0, 0.0, 10.0), Coinlot(d, "BTC", 3.0, 10.0, 0.0, 30.0),
                            Coinlot(d, "BTC", 5.0, 10.0, 0.0, 50.0);
    var buys := [one, three, five];
    assert buys[1..] == [three, five] && buys[1..][1..] == [five];
    assert Gather([five], -2.0) == Some(([], [five]));
    assert [three, five][1..] == [five] && [three] + [] == [three];
    assert Gather([three, five], 1.0) == Some(([three], [five]));
    assert [one] + [three] == [one, three];
    assert Gather(buys, 2.0) == Some(([one, three], [five]));
    var lots := [one, three];
    var newSale := CarrySaleLot(c, one, lots, sale);
    assert newSale.quantity == 2.0;
    assert lots[..1] == [one] && lots[..2] == lots;
    TotalAppend([one], three, Quantity);
    assert [one] + [three] == lots;
    LotsMatchRemainder(lots, newSale, 2);
    StepCarryExceeds(buys, c, sale);
  }
}
