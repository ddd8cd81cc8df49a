/** One simulated day and whole runs, with what each phase of a day leaves alone. */
module DayCycle {
  import opened Rng
  import opened Market
  import opened SupplyChain
  import opened ReturnsDesk
  import opened Events
  import opened Demand
  import opened Trading

  /** What the day knows when the agent decides: the state, the orders of the day and the morning's refunds. */
  datatype Desk = Desk(st: State, orders: seq<Order>, adj: Adjustments)

  /** A new day after deliveries and refunds. */
  function MorningOf(m: Setup, st: State): Morning {
    ReturnMorning(m, InboundMorning(m, st.(day := st.day + 1)))
  }

  function Prepared(m: Setup, st: State): Desk
    requires m.catalog != []
  {
    var morning := MorningOf(m, st);
    var batch := Generated(m, EvolvedFrom(m, morning.st, 0));
    Desk(Injected(m, batch.st), batch.orders, morning.adj)
  }

  function RunDay(m: Setup, st: State, plan: Plan): Evening
    requires m.catalog != []
  {
    var desk := Prepared(m, st);
    var evening := Applied(m, desk.st, plan, desk.orders, desk.adj);
    evening.(st := EventsUpdated(evening.st))
  }

  /** The state a run is in after its first `days` days; the agent's plans may be anything. */
  function StateAfter(m: Setup, st: State, plans: seq<Plan>, days: nat): State
    requires m.catalog != [] && days <= |plans|
    decreases days, 0
  {
    if days == 0 then st else EveningOf(m, st, plans, days - 1).st
  }

  /** How day number `day` (counting from zero) ended. */
  function EveningOf(m: Setup, st: State, plans: seq<Plan>, day: nat): Evening
    requires m.catalog != [] && day < |plans|
    decreases day, 1
  {
    RunDay(m, StateAfter(m, st, plans, day), plans[day])
  }

  lemma NextDay(m: Setup, st: State, plans: seq<Plan>, day: nat)
    requires m.catalog != [] && day < |plans|
    ensures StateAfter(m, st, plans, day + 1) == RunDay(m, StateAfter(m, st, plans, day), plans[day]).st
  {
    hide RunDay;
  }

  /** Products that differ at most in rating, multiplier and advertising. */
  predicate SameGoods(before: map<Sku, Product>, after: map<Sku, Product>) {
    && after.Keys == before.Keys
    && forall sku <- before.Keys ::
         after[sku] == before[sku].(demandMultiplier := after[sku].demandMultiplier, rating := after[sku].rating,
                                    adBoost := after[sku].adBoost, nextAdBoost := after[sku].nextAdBoost)
  }

  /** Products that differ at most in stock and cost. */
  predicate SameListing(before: map<Sku, Product>, after: map<Sku, Product>) {
    && after.Keys == before.Keys
    && forall sku <- before.Keys ::
         after[sku] == before[sku].(stock := after[sku].stock, cost := after[sku].cost)
  }

  predicate DeliveriesOnly(st: State, r: State) {
    && r == st.(inbound := r.inbound, products := r.products, cursor := r.cursor,
                totals := st.totals.(delayEvents := r.totals.delayEvents, delayDays := r.totals.delayDays),
                history := st.history.(arrivals := r.history.arrivals))
    && SameListing(st.products, r.products)
  }

  predicate RefundsOnly(st: State, r: State) {
    && r == st.(openReturns := r.openReturns, products := r.products, capital := r.capital,
                totals := st.totals.(returnsProcessed := r.totals.returnsProcessed,
                                     refundsPaid := r.totals.refundsPaid, salvage := r.totals.salvage),
                history := st.history.(closedReturns := r.history.closedReturns))
    && SameListing(st.products, r.products)
  }

  /** What selling one order, or failing to, leaves alone. */
  predicate SaleOnly(st: State, r: State) {
    && r == st.(products := r.products, capital := r.capital, backlog := r.backlog, openReturns := r.openReturns,
                cursor := r.cursor,
                history := st.history.(sales := r.history.sales, refundsFlagged := r.history.refundsFlagged,
                                       returnsFlagged := r.history.returnsFlagged,
                                       returnKeys := r.history.returnKeys, returnIds := r.history.returnIds))
    && r.products.Keys == st.products.Keys
    && (forall sku <- st.products.Keys ::
          r.products[sku] == st.products[sku].(stock := r.products[sku].stock))
    && (forall sku <- r.backlog.Keys :: r.backlog[sku] >= BacklogOf(st.backlog, sku))
  }

  lemma SaleFrame(m: Setup, x: Evening, order: Order, accepted: bool)
    ensures SaleOnly(x.st, Sold(m, x, order, accepted).st)
  {
    hide PaidFor, Flagged;
    if order.sku in x.st.products {
      var p := x.st.products[order.sku];
      PaymentFrame(m, x, order, p);
      FlaggingFrame(m, PaidFor(m, x, order, p).st, order, p, p.price * order.quantity);
    }
  }

  lemma PaymentFrame(m: Setup, x: Evening, order: Order, p: Product)
    requires order.sku in x.st.products && p == x.st.products[order.sku]
    ensures SaleOnly(x.st, PaidFor(m, x, order, p).st)
  {
    hide Fees, Attributed;
  }

  lemma FlaggingFrame(m: Setup, st: State, order: Order, p: Product, revenue: int)
    ensures var r := Flagged(m, st, order, p, revenue);
            r == st.(openReturns := r.openReturns, cursor := r.cursor,
                     history := st.history.(refundsFlagged := r.history.refundsFlagged,
                                            returnsFlagged := r.history.returnsFlagged,
                                            returnKeys := r.history.returnKeys, returnIds := r.history.returnIds))
  {
    hide ReturnOdds, Uniform, RandInt;
  }

  lemma SameListingTransitive(a: map<Sku, Product>, b: map<Sku, Product>, c: map<Sku, Product>)
    requires SameListing(a, b) && SameListing(b, c)
    ensures SameListing(a, c)
  {
  }

  lemma InboundStepFrame(m: Setup, st: State, po: Inbound)
    ensures DeliveriesOnly(st, InboundStep(m, st, po))
  {
  }

  lemma {:induction false} InboundFrame(m: Setup, st: State, queue: seq<Inbound>)
    ensures DeliveriesOnly(st, InboundRun(m, st, queue))
    decreases |queue|
  {
    if queue != [] {
      hide InboundStep;
      var next := InboundStep(m, st, queue[0]);
      InboundStepFrame(m, st, queue[0]);
      InboundFrame(m, next, queue[1..]);
      SameListingTransitive(st.products, next.products, InboundRun(m, st, queue).products);
    }
  }

  lemma ReturnStepFrame(m: Setup, x: Morning, r: Return)
    ensures RefundsOnly(x.st, ReturnStep(m, x, r).st)
  {
    hide Settle, Settled;
    SettleFrame(m, x, r.(daysLeft := r.daysLeft - 1));
  }

  lemma {:induction false} ReturnFrame(m: Setup, x: Morning, queue: seq<Return>)
    ensures RefundsOnly(x.st, ReturnRun(m, x, queue).st)
    decreases |queue|
  {
    if queue != [] {
      hide ReturnStep;
      var next := ReturnStep(m, x, queue[0]);
      ReturnStepFrame(m, x, queue[0]);
      ReturnFrame(m, next, queue[1..]);
      SameListingTransitive(x.st.products, next.st.products, ReturnRun(m, x, queue).st.products);
    }
  }

  lemma {:induction false} EvolveFrame(m: Setup, st: State, i: nat)
    ensures var r := EvolvedFrom(m, st, i); r == st.(competitors := r.competitors, cursor := r.cursor)
    decreases |st.competitors| - i
  {
    if i < |st.competitors| {
      var c := st.competitors[i];
      if c.sku in st.products {
        var p := st.products[c.sku];
        var target := DriftTarget(p, c, m.draws(st.cursor), m.draws(st.cursor + 1));
        var price := EvolvedPrice(p, target, Pressure(st.events, c.sku));
        EvolveFrame(m, st.(competitors := st.competitors[i := c.(price := price)], cursor := st.cursor + 2), i + 1);
      } else {
        EvolveFrame(m, st, i + 1);
      }
    }
  }

  /** Issued order numbers are consecutive, and every order is for a listed product and at least one unit. */
  predicate Numbered(st: State) {
    && |st.history.orderIds| == st.nextOrder
    && forall i :: 0 <= i < st.nextOrder ==> st.history.orderIds[i] == Ids.OrderId(i + 1)
  }

  predicate Sellable(products: map<Sku, Product>, orders: seq<Order>) {
    forall order <- orders :: order.sku in products && 1 <= order.quantity <= 3
  }

  predicate OrdersOnly(st: State, r: State) {
    && r == st.(cursor := r.cursor, nextOrder := r.nextOrder,
                history := st.history.(orderIds := r.history.orderIds))
    && (Numbered(st) ==> Numbered(r))
  }

  lemma {:induction false} OrdersForFrame(m: Setup, b: Batch, sku: Sku, count: nat)
    requires sku in b.st.products && Sellable(b.st.products, b.orders)
    ensures var r := OrdersFor(m, b, sku, count); OrdersOnly(b.st, r.st) && Sellable(b.st.products, r.orders)
    decreases count
  {
    if count > 0 {
      RandIntBetween(1, 3, m.draws(b.st.cursor + 1));
      OrdersForFrame(m, NextOrder(m, b, sku), sku, count - 1);
    }
  }

  lemma {:induction false} OrdersRunFrame(m: Setup, b: Batch, skus: seq<Sku>)
    requires Sellable(b.st.products, b.orders)
    ensures var r := OrdersRun(m, b, skus); OrdersOnly(b.st, r.st) && Sellable(b.st.products, r.orders)
    decreases |skus|
  {
    if skus != [] {
      if skus[0] in b.st.products {
        var drawn := b.(st := b.st.(cursor := b.st.cursor + 1));
        var count := DemandOf(m, b.st, skus[0]);
        OrdersForFrame(m, drawn, skus[0], count);
        OrdersRunFrame(m, OrdersFor(m, drawn, skus[0], count), skus[1..]);
      } else {
        OrdersRunFrame(m, b, skus[1..]);
      }
    }
  }

  lemma GeneratedFrame(m: Setup, st: State)
    ensures var b := Generated(m, st);
            && OrdersOnly(st.(products := RolledForward(st.products)), b.st)
            && Sellable(st.products, b.orders)
            && SameGoods(st.products, b.st.products)
  {
    var start := Batch(st.(products := RolledForward(st.products)), []);
    OrdersRunFrame(m, start, m.catalog);
    var run := OrdersRun(m, start, m.catalog);
    var shuffled := Shuffling(m, run);
    forall order | order in shuffled.orders ensures order in run.orders {
      assert order in multiset(shuffled.orders);
    }
  }

  lemma InjectedFrame(m: Setup, st: State)
    requires m.catalog != []
    ensures var r := Injected(m, st);
            && r == st.(products := r.products, competitors := r.competitors, events := r.events, cursor := r.cursor)
            && SameGoods(st.products, r.products)
  {
  }

  lemma {:induction false} ExpiryFrame(st: State, queue: seq<Event>)
    ensures var r := ExpiryRun(st, queue);
            r == st.(products := r.products, events := r.events) && SameGoods(st.products, r.products)
    decreases |queue|
  {
    if queue != [] { ExpiryFrame(ExpiryStep(st, queue[0]), queue[1..]); }
  }

  lemma EventsUpdatedFrame(st: State)
    ensures var r := EventsUpdated(st);
            r == st.(products := r.products, events := r.events) && SameGoods(st.products, r.products)
  {
    ExpiryFrame(st.(events := []), st.events);
  }

  lemma SameGoodsTransitive(a: map<Sku, Product>, b: map<Sku, Product>, c: map<Sku, Product>)
    requires SameGoods(a, b) && SameGoods(b, c)
    ensures SameGoods(a, c)
  {
  }

  /** The morning moves stock, cost, cash and the two queues, and nothing is booked yet. */
  lemma MorningFrame(m: Setup, st: State)
    ensures var (r, dawn) := (MorningOf(m, st).st, st.(day := st.day + 1));
            && r == dawn.(inbound := r.inbound, openReturns := r.openReturns, products := r.products,
                          capital := r.capital, cursor := r.cursor,
                          totals := st.totals.(delayEvents := r.totals.delayEvents, delayDays := r.totals.delayDays,
                                               returnsProcessed := r.totals.returnsProcessed,
                                               refundsPaid := r.totals.refundsPaid, salvage := r.totals.salvage),
                          history := st.history.(arrivals := r.history.arrivals,
                                                 closedReturns := r.history.closedReturns))
            && SameListing(st.products, r.products)
  {
    var dawn := st.(day := st.day + 1);
    InboundFrame(m, dawn.(inbound := []), dawn.inbound);
    var landed := InboundMorning(m, dawn);
    var start := Morning(landed.(openReturns := []), Adjustments(0, 0, 0));
    ReturnFrame(m, start, landed.openReturns);
    SameListingTransitive(st.products, landed.products, MorningOf(m, st).st.products);
  }

  /** Between the refund pass and the agent's decision only demand, rivals, events and order numbers move. */
  lemma MarketOpens(m: Setup, st: State)
    requires m.catalog != []
    ensures var (x, d) := (MorningOf(m, st), Prepared(m, st));
            && d.adj == x.adj
            && d.st == x.st.(products := d.st.products, competitors := d.st.competitors, events := d.st.events,
                             cursor := d.st.cursor, nextOrder := d.st.nextOrder,
                             history := x.st.history.(orderIds := d.st.history.orderIds))
            && SameGoods(x.st.products, d.st.products)
            && Sellable(d.st.products, d.orders)
            && (Numbered(x.st) ==> Numbered(d.st))
  {
    var x := MorningOf(m, st);
    EvolveFrame(m, x.st, 0);
    var evolved := EvolvedFrom(m, x.st, 0);
    GeneratedFrame(m, evolved);
    var batch := Generated(m, evolved);
    InjectedFrame(m, batch.st);
    SameGoodsTransitive(x.st.products, batch.st.products, Prepared(m, st).st.products);
  }

  /** What the closing of the books and the expiry of events leave alone after the last sale. */
  lemma EveningCloses(m: Setup, st: State, plan: Plan)
    requires m.catalog != []
    ensures var d := Prepared(m, st);
            var x := PerformAll(m, Opened(m, d.st, |d.orders|, d.adj), Actions(plan, d.orders));
            var e := RunDay(m, st, plan);
            && e.st == x.st.(products := e.st.products, events := e.st.events, series := e.st.series,
                             totals := x.st.totals.(revenue := e.st.totals.revenue, costs := e.st.totals.costs,
                                                    fulfilled := e.st.totals.fulfilled,
                                                    stockouts := e.st.totals.stockouts))
            && SameGoods(x.st.products, e.st.products)
            && e.res == x.res.(profit := x.res.revenue - x.res.costs)
  {
    var d := Prepared(m, st);
    var x := PerformAll(m, Opened(m, d.st, |d.orders|, d.adj), Actions(plan, d.orders));
    var closed := BooksClosed(x.(st := Decayed(x.st)));
    EventsUpdatedFrame(closed.st);
    SameGoodsTransitive(x.st.products, closed.st.products, RunDay(m, st, plan).st.products);
  }
}
