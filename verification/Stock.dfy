/** Unit conservation: what is on the shelf is explained by the deliveries, returns, restocks and sales on record, and
    every order is accounted for. */
module Stock {
  import opened Numbers
  import opened Rng
  import opened Ids
  import opened Market
  import opened SupplyChain
  import opened ReturnsDesk
  import opened Trading
  import opened DayCycle

  function UnitsRestocked(restocks: seq<Delivery>, sku: Sku): int {
    if restocks == [] then 0
    else
      var last := restocks[|restocks| - 1];
      UnitsRestocked(restocks[..|restocks| - 1], sku) + if last.sku == sku then last.units else 0
  }

  /** Units of a product delivered by suppliers, over every order that ever arrived. */
  function UnitsArrived(arrivals: seq<Arrival>, sku: Sku): int {
    if arrivals == [] then 0
    else
      var last := arrivals[|arrivals| - 1];
      UnitsArrived(arrivals[..|arrivals| - 1], sku) + if last.po.sku == sku then last.delivered else 0
  }

  /** Units of a product that the given returns brought back. */
  function BroughtBack(back: seq<Return>, sku: Sku): int {
    if back == [] then 0
    else BroughtBack(back[..|back| - 1], sku) + UnitsBack(back[|back| - 1], sku)
  }

  function UnitsBack(r: Return, sku: Sku): int { if r.sku == sku then r.recovered else 0 }

  function UnitsSold(sales: seq<Sale>, sku: Sku): int {
    if sales == [] then 0
    else
      var last := sales[|sales| - 1].order;
      UnitsSold(sales[..|sales| - 1], sku) + if last.sku == sku then last.quantity else 0
  }

  /** Stock that no record explains. The queue holds returns the morning has not looked at yet. */
  function Unexplained(st: State, queue: seq<Return>, sku: Sku): int
    requires sku in st.products
  {
    var h := st.history;
    st.products[sku].stock
    - UnitsRestocked(h.restocks, sku) - UnitsArrived(h.arrivals, sku)
    - BroughtBack(st.openReturns, sku) - BroughtBack(queue, sku) - BroughtBack(h.closedReturns, sku)
    + UnitsSold(h.sales, sku)
  }

  predicate InStock(products: map<Sku, Product>) {
    forall sku <- products.Keys :: products[sku].stock >= 0
  }

  /** Nothing unexplained came or went, and nothing was oversold unless the order limit is negative. */
  predicate SameStock(m: Setup, before: State, queue: seq<Return>, after: State, rest: seq<Return>) {
    && after.products.Keys == before.products.Keys
    && (forall sku <- before.products.Keys :: Unexplained(after, rest, sku) == Unexplained(before, queue, sku))
    && (m.maxOrderQty >= 0 && InStock(before.products) ==> InStock(after.products))
  }

  lemma RestocksAppend(restocks: seq<Delivery>, d: Delivery, sku: Sku)
    ensures UnitsRestocked(restocks + [d], sku) == UnitsRestocked(restocks, sku) + if d.sku == sku then d.units else 0
  {
    assert (restocks + [d])[..|restocks|] == restocks;
  }

  lemma ArrivedAppend(arrivals: seq<Arrival>, a: Arrival, sku: Sku)
    ensures UnitsArrived(arrivals + [a], sku)
            == UnitsArrived(arrivals, sku) + if a.po.sku == sku then a.delivered else 0
  {
    assert (arrivals + [a])[..|arrivals|] == arrivals;
  }

  lemma BroughtBackAppend(back: seq<Return>, r: Return, sku: Sku)
    ensures BroughtBack(back + [r], sku) == BroughtBack(back, sku) + UnitsBack(r, sku)
  {
    assert (back + [r])[..|back|] == back;
  }

  lemma {:induction false} BroughtBackFront(back: seq<Return>, sku: Sku)
    requires back != []
    ensures BroughtBack(back, sku) == UnitsBack(back[0], sku) + BroughtBack(back[1..], sku)
  {
    if |back| > 1 {
      var front := back[..|back| - 1];
      BroughtBackFront(front, sku);
      assert back[1..][..|back| - 2] == front[1..];
    }
  }

  lemma SalesAppend(sales: seq<Sale>, s: Sale, sku: Sku)
    ensures UnitsSold(sales + [s], sku) == UnitsSold(sales, sku) + if s.order.sku == sku then s.order.quantity else 0
  {
    assert (sales + [s])[..|sales|] == sales;
  }

  lemma DeliverKeepsStock(m: Setup, st: State, po: Inbound)
    ensures SameStock(m, st, [], Deliver(m, st, po), [])
  {
    hide DeliveredQty, Uniform, UnitsArrived, BroughtBack, UnitsRestocked, UnitsSold, Blend;
    var complete := m.draws(st.cursor) <= po.reliability;
    var ratio := if complete then 1.0 else Uniform(0.65, 0.95, m.draws(st.cursor + 1));
    var qty := DeliveredQty(po.quantity, ratio);
    NothingNegative(po.quantity, ratio);
    forall sku ensures UnitsArrived(st.history.arrivals + [Arrival(po, st.day, qty)], sku)
                       == UnitsArrived(st.history.arrivals, sku) + if po.sku == sku then qty else 0
    {
      ArrivedAppend(st.history.arrivals, Arrival(po, st.day, qty), sku);
    }
  }

  lemma NothingNegative(quantity: int, ratio: real)
    ensures DeliveredQty(quantity, ratio) >= 0
  {
  }

  lemma InboundStepKeepsStock(m: Setup, st: State, queued: Inbound)
    ensures SameStock(m, st, [], InboundStep(m, st, queued), [])
  {
    hide SlipOf, Deliver, UnitsArrived, BroughtBack, UnitsRestocked, UnitsSold;
    var slip := SlipOf(m, st, queued);
    var po := queued.(daysUntilArrival := queued.daysUntilArrival + slip.days - 1, delay := queued.delay + slip.days);
    var moved := st.(cursor := st.cursor + slip.draws, totals := Counted(st.totals, slip));
    DeliverKeepsStock(m, moved, po);
    forall sku
      ensures UnitsArrived(st.history.arrivals + [Arrival(po, st.day, 0)], sku)
              == UnitsArrived(st.history.arrivals, sku)
    {
      ArrivedAppend(st.history.arrivals, Arrival(po, st.day, 0), sku);
    }
  }

  lemma {:induction false} InboundKeepsStock(m: Setup, st: State, queue: seq<Inbound>)
    ensures SameStock(m, st, [], InboundRun(m, st, queue), [])
    decreases |queue|
  {
    hide InboundStep, Unexplained, InStock;
    if queue != [] {
      InboundStepKeepsStock(m, st, queue[0]);
      InboundKeepsStock(m, InboundStep(m, st, queue[0]), queue[1..]);
    }
  }

  lemma SettleShelves(m: Setup, x: Morning, due: Return, amount: int, sku: Sku)
    requires sku in x.st.products
    ensures Settle(m, x, due).st.products.Keys == x.st.products.Keys
    ensures Settle(m, x, due).st.products[sku].stock - x.st.products[sku].stock
            == UnitsBack(Settled(m, x.st.products, due, amount), sku) - UnitsBack(due, sku) >= 0
  {
    hide Appraised, Portion;
    assert RecoveredUnits(due) >= 0 by { PortionNotNegative(due.quantity, due.recoveryRate); }
  }

  lemma PortionNotNegative(quantity: int, rate: real)
    ensures Portion(quantity, rate) >= 0
  {
  }

  /** A return put back on the shelf carries the units it brought back on its own record. */
  lemma ReturnStepKeepsStock(m: Setup, x: Morning, queue: seq<Return>)
    requires queue != []
    ensures SameStock(m, x.st, queue, ReturnStep(m, x, queue[0]).st, queue[1..])
  {
    hide Settle, Settled, BroughtBack, UnitsArrived, UnitsRestocked, UnitsSold;
    var due := queue[0].(daysLeft := queue[0].daysLeft - 1);
    var amount := Affordable(due.refund, x.st.capital);
    var r := Settled(m, x.st.products, due, amount);
    var kept := r.(refund := due.refund - amount, daysLeft := 1);
    SettleFrame(m, x, due);
    forall sku <- x.st.products.Keys
      ensures Settle(m, x, due).st.products[sku].stock - x.st.products[sku].stock
              == UnitsBack(r, sku) - UnitsBack(due, sku) >= 0
      ensures BroughtBack(queue, sku) == UnitsBack(due, sku) + BroughtBack(queue[1..], sku)
      ensures BroughtBack(x.st.openReturns + [due], sku) == BroughtBack(x.st.openReturns, sku) + UnitsBack(due, sku)
      ensures BroughtBack(x.st.openReturns + [kept], sku) == BroughtBack(x.st.openReturns, sku) + UnitsBack(r, sku)
      ensures BroughtBack(x.st.history.closedReturns + [r], sku)
              == BroughtBack(x.st.history.closedReturns, sku) + UnitsBack(r, sku)
    {
      SettleShelves(m, x, due, amount, sku);
      BroughtBackFront(queue, sku);
      BroughtBackAppend(x.st.openReturns, due, sku);
      BroughtBackAppend(x.st.openReturns, kept, sku);
      BroughtBackAppend(x.st.history.closedReturns, r, sku);
    }
  }

  lemma {:induction false} ReturnsKeepStock(m: Setup, x: Morning, queue: seq<Return>)
    ensures SameStock(m, x.st, queue, ReturnRun(m, x, queue).st, [])
    decreases |queue|
  {
    hide ReturnStep, Unexplained, InStock;
    if queue != [] {
      ReturnStepKeepsStock(m, x, queue);
      ReturnsKeepStock(m, ReturnStep(m, x, queue[0]), queue[1..]);
    }
  }

  lemma RestockKeepsStock(m: Setup, x: Evening, purchase: Purchase)
    ensures SameStock(m, x.st, [], Restocked(m, x, purchase).st, [])
  {
    hide BroughtBack, UnitsArrived, UnitsRestocked, UnitsSold;
    var d := Delivery(purchase.sku, Min(purchase.quantity, m.maxOrderQty));
    forall sku ensures UnitsRestocked(x.st.history.restocks + [d], sku)
                       == UnitsRestocked(x.st.history.restocks, sku) + if d.sku == sku then d.units else 0
    {
      RestocksAppend(x.st.history.restocks, d, sku);
    }
  }

  lemma PaymentKeepsStock(m: Setup, x: Evening, order: Order, p: Product)
    requires order.sku in x.st.products && p == x.st.products[order.sku] && p.stock >= order.quantity
    ensures SameStock(m, x.st, [], PaidFor(m, x, order, p).st, [])
  {
    hide BroughtBack, UnitsArrived, UnitsRestocked, UnitsSold, Fees, Attributed;
    forall sku ensures UnitsSold(x.st.history.sales + [Sale(order, p.price)], sku)
                       == UnitsSold(x.st.history.sales, sku) + if order.sku == sku then order.quantity else 0
    {
      SalesAppend(x.st.history.sales, Sale(order, p.price), sku);
    }
  }

  /** A return flagged today has brought nothing back yet. */
  lemma FlaggingKeepsStock(m: Setup, st: State, order: Order, p: Product, revenue: int)
    ensures SameStock(m, st, [], Flagged(m, st, order, p, revenue), [])
  {
    hide BroughtBack, UnitsArrived, UnitsRestocked, UnitsSold, ReturnOdds;
    var r := DrawnReturn(m, st.cursor + 1, Key(st.day, |st.openReturns| + 1), order, p.category, revenue);
    forall sku ensures BroughtBack(st.openReturns + [r], sku) == BroughtBack(st.openReturns, sku) {
      BroughtBackAppend(st.openReturns, r, sku);
    }
  }

  lemma SaleKeepsStock(m: Setup, x: Evening, order: Order, accepted: bool)
    ensures SameStock(m, x.st, [], Sold(m, x, order, accepted).st, [])
  {
    hide PaidFor, Flagged, BroughtBack, UnitsArrived, UnitsRestocked, UnitsSold;
    if order.sku in x.st.products && x.st.products[order.sku].stock >= order.quantity {
      var p := x.st.products[order.sku];
      PaymentKeepsStock(m, x, order, p);
      FlaggingKeepsStock(m, PaidFor(m, x, order, p).st, order, p, p.price * order.quantity);
    }
  }

  lemma PerformKeepsStock(m: Setup, x: Evening, a: Action)
    ensures SameStock(m, x.st, [], Perform(m, x, a).st, [])
  {
    hide Sold, Restocked, BroughtBack, UnitsArrived, UnitsRestocked, UnitsSold, SelectSupplier, TicketsResolved;
    match a
    case Sell(order, accepted) => SaleKeepsStock(m, x, order, accepted);
    case Restock(purchase) => RestockKeepsStock(m, x, purchase);
    case _ =>
  }

  lemma {:induction false} TradingKeepsStock(m: Setup, x: Evening, actions: seq<Action>)
    ensures SameStock(m, x.st, [], PerformAll(m, x, actions).st, [])
    decreases |actions|
  {
    hide Perform, Unexplained, InStock;
    if actions != [] {
      PerformKeepsStock(m, x, actions[0]);
      TradingKeepsStock(m, Perform(m, x, actions[0]), actions[1..]);
    }
  }

  lemma MorningKeepsStock(m: Setup, st: State)
    ensures SameStock(m, st, [], MorningOf(m, st).st, [])
  {
    var dawn := st.(day := st.day + 1);
    InboundKeepsStock(m, dawn.(inbound := []), dawn.inbound);
    var landed := InboundMorning(m, dawn);
    ReturnsKeepStock(m, Morning(landed.(openReturns := []), Adjustments(0, 0, 0)), landed.openReturns);
    hide InboundRun, ReturnRun, BroughtBack, UnitsArrived, UnitsRestocked, UnitsSold;
    assert BroughtBack([], "") == 0 by { NoneBack(); }
    forall sku ensures BroughtBack([], sku) == 0 { NoneBack(); }
  }

  lemma NoneBack()
    ensures forall sku :: BroughtBack([], sku) == 0
  {
  }

  lemma DayKeepsStock(m: Setup, st: State, plan: Plan)
    requires m.catalog != []
    ensures SameStock(m, st, [], RunDay(m, st, plan).st, [])
  {
    hide MorningOf, Prepared, RunDay, PerformAll, BroughtBack, UnitsArrived, UnitsRestocked, UnitsSold;
    MorningKeepsStock(m, st);
    MarketOpens(m, st);
    var desk := Prepared(m, st);
    TradingKeepsStock(m, Opened(m, desk.st, |desk.orders|, desk.adj), Actions(plan, desk.orders));
    EveningCloses(m, st, plan);
  }

  /** The shelf of every product holds its opening stock, plus what restocks, supplier arrivals and returns on record
      brought, less what the orders on record took. */
  predicate Shelved(m: Setup, opening: map<Sku, Product>, st: State) {
    && st.products.Keys == opening.Keys
    && (m.maxOrderQty >= 0 ==> InStock(st.products))
    && forall sku <- opening.Keys ::
         var h := st.history;
         st.products[sku].stock
         == opening[sku].stock + UnitsRestocked(h.restocks, sku) + UnitsArrived(h.arrivals, sku)
            + BroughtBack(st.openReturns, sku) + BroughtBack(h.closedReturns, sku) - UnitsSold(h.sales, sku)
  }

  lemma OpeningShelved(m: Setup, st: State)
    requires Opening(m, st)
    ensures Shelved(m, st.products, st)
  {
  }

  lemma SameStockShelved(m: Setup, opening: map<Sku, Product>, before: State, after: State)
    requires SameStock(m, before, [], after, []) && Shelved(m, opening, before)
    ensures Shelved(m, opening, after)
  {
    hide BroughtBack, UnitsArrived, UnitsRestocked, UnitsSold;
    NoneBack();
  }

  /** Main result: on every day of any run every product's stock is explained, unit by unit, by the records of
      restocks, arrivals, returns and sales, and is never negative unless the order limit is. */
  lemma {:induction false} RunKeepsStock(m: Setup, st: State, plans: seq<Plan>, days: nat)
    requires m.catalog != [] && Opening(m, st) && days <= |plans|
    ensures Shelved(m, st.products, StateAfter(m, st, plans, days))
    decreases days
  {
    hide RunDay, Shelved, SameStock;
    if days > 0 {
      RunKeepsStock(m, st, plans, days - 1);
      DayKeepsStock(m, StateAfter(m, st, plans, days - 1), plans[days - 1]);
      var today := StateAfter(m, st, plans, days);
      NextDay(m, st, plans, days - 1);
      SameStockShelved(m, st.products, StateAfter(m, st, plans, days - 1), today);
    } else {
      OpeningShelved(m, st);
    }
  }

  /** No action of the agent and no order ever takes stock below zero exactly when the order limit is not negative:
      a negative limit turns a restock into a sale back to the supplier, which nothing checks against stock. */
  lemma NeverOversoldExactly(m: Setup)
    ensures (forall x: Evening, a: Action ::
               InStock(x.st.products) ==> InStock(Perform(m, x, a).st.products))
            <==> m.maxOrderQty >= 0
  {
    if m.maxOrderQty >= 0 {
      forall x: Evening, a: Action | InStock(x.st.products)
        ensures InStock(Perform(m, x, a).st.products)
      {
        ActionKeepsInStock(m, x, a);
      }
    } else {
      var x, a := Oversell(m);
      assert InStock(x.st.products) && !InStock(Perform(m, x, a).st.products);
    }
  }

  lemma ActionKeepsInStock(m: Setup, x: Evening, a: Action)
    requires m.maxOrderQty >= 0 && InStock(x.st.products)
    ensures InStock(Perform(m, x, a).st.products)
  {
    hide Fees, Attributed, ReturnOdds;
  }

  lemma Oversell(m: Setup) returns (x: Evening, a: Action)
    requires m.maxOrderQty < 0
    ensures InStock(x.st.products) && a.Restock? && !InStock(Perform(m, x, a).st.products)
  {
    var shelf := Product("audio", 1500, 3999, 0, 8, 1.0, 4.5, 1.0, 1.0);
    var st := State(1, 0, 0, 0, map["P001" := shelf], map[], [], [], [], [], 0, NoTotals, NoSeries, 0, NoHistory);
    x, a := Evening(st, NoResults(0)), Restock(Purchase("P001", 1));
    var next := Perform(m, x, a).st.products;
    assert next["P001"].stock == m.maxOrderQty;
    assert "P001" in next.Keys;
  }

  function Handled(res: Results): int { res.fulfilled + res.rejected + res.stockouts }

  predicate Sells(a: Action, products: map<Sku, Product>) {
    a.Sell? && a.order.sku in products
  }

  lemma SaleHandled(m: Setup, x: Evening, a: Action)
    requires Sells(a, x.st.products)
    ensures var y := Perform(m, x, a);
            && Handled(y.res) == Handled(x.res) + 1 && y.res.received == x.res.received
            && y.st.products.Keys == x.st.products.Keys
  {
  }

  lemma {:induction false} SalesHandled(m: Setup, x: Evening, actions: seq<Action>)
    requires forall a <- actions :: Sells(a, x.st.products)
    ensures Handled(PerformAll(m, x, actions).res) == Handled(x.res) + |actions|
    ensures PerformAll(m, x, actions).res.received == x.res.received
    decreases |actions|
  {
    if actions != [] {
      SaleHandled(m, x, actions[0]);
      assert forall a <- actions[1..] :: a in actions;
      SalesHandled(m, Perform(m, x, actions[0]), actions[1..]);
    }
  }

  lemma OtherHandlesNothing(m: Setup, x: Evening, a: Action)
    requires !a.Sell?
    ensures var y := Perform(m, x, a);
            && Handled(y.res) == Handled(x.res) && y.res.received == x.res.received
            && y.st.products.Keys == x.st.products.Keys
  {
  }

  lemma {:induction false} OthersHandleNothing(m: Setup, x: Evening, actions: seq<Action>)
    requires forall a <- actions :: !a.Sell?
    ensures Handled(PerformAll(m, x, actions).res) == Handled(x.res)
    ensures PerformAll(m, x, actions).res.received == x.res.received
    ensures PerformAll(m, x, actions).st.products.Keys == x.st.products.Keys
    decreases |actions|
  {
    if actions != [] {
      OtherHandlesNothing(m, x, actions[0]);
      assert forall a <- actions[1..] :: a in actions;
      OthersHandleNothing(m, Perform(m, x, actions[0]), actions[1..]);
    }
  }

  lemma TradingHandlesEveryOrder(m: Setup, x: Evening, plan: Plan, orders: seq<Order>)
    requires Sellable(x.st.products, orders)
    ensures Handled(PerformAll(m, x, Actions(plan, orders)).res) == Handled(x.res) + |orders|
    ensures PerformAll(m, x, Actions(plan, orders)).res.received == x.res.received
  {
    var own := OwnActions(plan);
    var sales := Sales(plan, orders);
    PerformInTwo(m, x, own, sales);
    OthersHandleNothing(m, x, own);
    var y := PerformAll(m, x, own);
    forall a | a in sales ensures Sells(a, y.st.products) {
      var i :| 0 <= i < |orders| && a == sales[i];
      assert orders[i] in orders;
    }
    SalesHandled(m, y, sales);
  }

  /** Main result: every order the day received was fulfilled, rejected or met a stockout, and only once. */
  lemma DayHandlesEveryOrder(m: Setup, st: State, plan: Plan)
    requires m.catalog != []
    ensures var e := RunDay(m, st, plan); e.res.received == Handled(e.res) == |Prepared(m, st).orders|
  {
    hide Prepared, RunDay, PerformAll;
    MarketOpens(m, st);
    var desk := Prepared(m, st);
    TradingHandlesEveryOrder(m, Opened(m, desk.st, |desk.orders|, desk.adj), plan, desk.orders);
    EveningCloses(m, st, plan);
  }
}
