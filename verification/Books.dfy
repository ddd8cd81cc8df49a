/** Cash conservation: money moved in the morning and booked in the evening always reconciles. */
module Books {
  import opened Numbers
  import opened Market
  import opened SupplyChain
  import opened ReturnsDesk
  import opened Trading
  import opened DayCycle

  /** Every recorded series adds up to its total and has one entry per day. */
  predicate SeriesAddUp(st: State) {
    && Sum(st.series.revenue) == st.totals.revenue
    && Sum(st.series.costs) == st.totals.costs
    && Sum(st.series.profit) == Profit(st)
    && Sum(st.series.adSpend) == st.totals.adSpend
    && |st.series.revenue| == |st.series.costs| == |st.series.profit| == st.day
    && |st.series.adSpend| == |st.series.adAttributed| == st.day
  }

  /** What the orders on record were sold for. */
  function Takings(sales: seq<Sale>): int {
    if sales == [] then 0
    else
      var last := sales[|sales| - 1];
      Takings(sales[..|sales| - 1]) + last.price * last.order.quantity
  }

  /** Total revenue is what the recorded sales brought, less refunds paid, plus salvage; each sale was counted once. */
  predicate Explained(st: State) {
    && st.totals.revenue == Takings(st.history.sales) - st.totals.refundsPaid + st.totals.salvage
    && st.totals.fulfilled == |st.history.sales|
  }

  predicate Balanced(st: State) {
    && st.capital == st.startingCapital + Profit(st)
    && Explained(st)
    && SeriesAddUp(st)
  }

  lemma OpeningBalanced(m: Setup, st: State)
    requires Opening(m, st)
    ensures Balanced(st)
  {
  }

  /** Cash not yet explained by the evening's own revenue and costs. */
  function Carried(x: Evening): int { x.st.capital - (x.res.revenue - x.res.costs) }

  /** What trading never touches before the books close, and advertising booked on both sides alike. */
  predicate SameBooks(x: Evening, y: Evening) {
    && Carried(y) == Carried(x)
    && y.st.day == x.st.day
    && y.st.startingCapital == x.st.startingCapital && y.st.startingInventory == x.st.startingInventory
    && y.st.series == x.st.series
    && y.st.totals == x.st.totals.(adSpend := y.st.totals.adSpend)
    && y.st.totals.adSpend - y.res.adSpend == x.st.totals.adSpend - x.res.adSpend
    && y.res.revenue - Takings(y.st.history.sales) == x.res.revenue - Takings(x.st.history.sales)
    && y.res.fulfilled - |y.st.history.sales| == x.res.fulfilled - |x.st.history.sales|
  }

  lemma TakingsAppend(sales: seq<Sale>, s: Sale)
    ensures Takings(sales + [s]) == Takings(sales) + s.price * s.order.quantity
  {
    assert (sales + [s])[..|sales|] == sales;
  }

  lemma PaymentKeepsBooks(m: Setup, x: Evening, order: Order, p: Product)
    ensures SameBooks(x, PaidFor(m, x, order, p))
  {
    hide ProcessingFee, Attributed, Takings;
    TakingsAppend(x.st.history.sales, Sale(order, p.price));
  }

  lemma SaleKeepsBooks(m: Setup, x: Evening, order: Order, accepted: bool)
    ensures SameBooks(x, Sold(m, x, order, accepted))
  {
    hide PaidFor, Flagged, Takings;
    if order.sku in x.st.products {
      var p := x.st.products[order.sku];
      PaymentKeepsBooks(m, x, order, p);
      FlaggingFrame(m, PaidFor(m, x, order, p).st, order, p, p.price * order.quantity);
    }
  }

  lemma PerformKeepsBooks(m: Setup, x: Evening, a: Action)
    ensures SameBooks(x, Perform(m, x, a))
  {
    hide Sold, TicketsResolved, SelectSupplier, Takings;
    if a.Sell? { SaleKeepsBooks(m, x, a.order, a.accepted); }
  }

  lemma {:induction false} TradingKeepsBooks(m: Setup, x: Evening, actions: seq<Action>)
    ensures SameBooks(x, PerformAll(m, x, actions))
    decreases |actions|
  {
    hide Perform, Takings;
    if actions != [] {
      PerformKeepsBooks(m, x, actions[0]);
      TradingKeepsBooks(m, Perform(m, x, actions[0]), actions[1..]);
    }
  }

  /** The refund pass moves exactly the cash it reports. */
  predicate Reported(x: Morning, y: Morning) {
    && y.st.capital + y.adj.refunds - y.adj.salvage == x.st.capital + x.adj.refunds - x.adj.salvage
    && y.st.totals.refundsPaid - y.adj.refunds == x.st.totals.refundsPaid - x.adj.refunds
    && y.st.totals.salvage - y.adj.salvage == x.st.totals.salvage - x.adj.salvage
    && y.st.totals.returnsProcessed - y.adj.processed == x.st.totals.returnsProcessed - x.adj.processed
  }

  lemma RefundReported(m: Setup, x: Morning, r: Return)
    ensures Reported(x, ReturnStep(m, x, r))
  {
    hide Settle, Settled;
    SettleFrame(m, x, r.(daysLeft := r.daysLeft - 1));
  }

  lemma {:induction false} RefundsReported(m: Setup, x: Morning, queue: seq<Return>)
    ensures Reported(x, ReturnRun(m, x, queue))
    decreases |queue|
  {
    hide ReturnStep;
    if queue != [] {
      RefundReported(m, x, queue[0]);
      RefundsReported(m, ReturnStep(m, x, queue[0]), queue[1..]);
    }
  }

  /** In the morning only the refund pass moves cash, and nothing is booked yet. */
  lemma MorningKeepsBooks(m: Setup, st: State)
    ensures var x := MorningOf(m, st);
            && x.st.capital == st.capital - x.adj.refunds + x.adj.salvage
            && x.st.day == st.day + 1
            && x.st.startingCapital == st.startingCapital && x.st.startingInventory == st.startingInventory
            && x.st.series == st.series
            && x.st.totals.revenue == st.totals.revenue && x.st.totals.costs == st.totals.costs
            && x.st.totals.adSpend == st.totals.adSpend && x.st.totals.fulfilled == st.totals.fulfilled
            && x.st.totals.refundsPaid == st.totals.refundsPaid + x.adj.refunds
            && x.st.totals.salvage == st.totals.salvage + x.adj.salvage
            && x.st.history.sales == st.history.sales
  {
    hide InboundRun, ReturnRun;
    MorningFrame(m, st);
    var dawn := st.(day := st.day + 1);
    InboundFrame(m, dawn.(inbound := []), dawn.inbound);
    var landed := InboundMorning(m, dawn);
    RefundsReported(m, Morning(landed.(openReturns := []), Adjustments(0, 0, 0)), landed.openReturns);
  }

  lemma BooksCloseBalanced(before: State, x: Evening)
    requires Balanced(before)
    requires x.st.capital - (x.res.revenue - x.res.costs) == before.capital
    requires x.st.startingCapital == before.startingCapital && x.st.series == before.series
    requires x.st.day == before.day + 1
    requires x.st.totals.revenue == before.totals.revenue && x.st.totals.costs == before.totals.costs
    requires x.st.totals.adSpend - x.res.adSpend == before.totals.adSpend
    requires x.st.totals.fulfilled == before.totals.fulfilled
    requires x.res.revenue - Takings(x.st.history.sales)
             == (x.st.totals.salvage - before.totals.salvage) - (x.st.totals.refundsPaid - before.totals.refundsPaid)
                - Takings(before.history.sales)
    requires x.res.fulfilled == |x.st.history.sales| - |before.history.sales|
    ensures Balanced(BooksClosed(x).st)
  {
    SumAppend(before.series.revenue, x.res.revenue);
    SumAppend(before.series.costs, x.res.costs);
    SumAppend(before.series.profit, x.res.revenue - x.res.costs);
    SumAppend(before.series.adSpend, x.res.adSpend);
  }

  /** Main result for one day: the books balance again, and cash moved by exactly the day's profit. */
  lemma DayKeepsBooks(m: Setup, st: State, plan: Plan)
    requires m.catalog != [] && Balanced(st)
    ensures var e := RunDay(m, st, plan);
            && Balanced(e.st)
            && e.st.capital == st.capital + e.res.profit
            && e.st.series.profit == st.series.profit + [e.res.profit]
            && e.st.series.revenue == st.series.revenue + [e.res.revenue]
            && e.res.profit == e.res.revenue - e.res.costs
            && e.st.day == st.day + 1
            && e.st.startingCapital == st.startingCapital && e.st.startingInventory == st.startingInventory
  {
    hide MorningOf, Prepared, PerformAll, Takings, Actions;
    MorningKeepsBooks(m, st);
    MarketOpens(m, st);
    var desk := Prepared(m, st);
    var start := Opened(m, desk.st, |desk.orders|, desk.adj);
    var actions := Actions(plan, desk.orders);
    TradingKeepsBooks(m, start, actions);
    var traded := PerformAll(m, start, actions);
    assert Carried(start) == st.capital;
    var rested := traded.(st := Decayed(traded.st));
    BooksCloseBalanced(st, rested);
    EventsUpdatedFrame(BooksClosed(rested).st);
  }

  /** Main result for runs: after every completed day capital is the starting capital plus all profit recorded,
      and the daily series add up to the totals. */
  lemma {:induction false} RunKeepsBooks(m: Setup, st: State, plans: seq<Plan>, day: nat)
    requires m.catalog != [] && Balanced(st) && day <= |plans|
    ensures var r := StateAfter(m, st, plans, day);
            && Balanced(r)
            && r.day == st.day + day
            && r.startingCapital == st.startingCapital && r.startingInventory == st.startingInventory
    decreases day
  {
    hide RunDay;
    if day > 0 {
      RunKeepsBooks(m, st, plans, day - 1);
      DayKeepsBooks(m, StateAfter(m, st, plans, day - 1), plans[day - 1]);
    }
  }

  /** Repricing or restocking one product moves the inventory by exactly its own change in value, once. */
  lemma {:induction false} InventoryMoves(catalog: seq<Sku>, products: map<Sku, Product>, sku: Sku, p: Product)
    requires Distinct(catalog) && sku in products
    ensures InventoryOf(catalog, products[sku := p])
            == InventoryOf(catalog, products)
               + if sku in catalog then p.cost * p.stock - products[sku].cost * products[sku].stock else 0
  {
    if catalog != [] {
      var (front, last) := (catalog[..|catalog| - 1], catalog[|catalog| - 1]);
      assert catalog == front + [last];
      InventoryMoves(front, products, sku, p);
      if last == sku { assert sku !in front; }
    }
  }

  /** Buying stock at cost leaves equity as it was. */
  lemma RestockKeepsEquity(m: Setup, x: Evening, purchase: Purchase)
    requires Distinct(m.catalog) && purchase.sku in m.catalog
    ensures Equity(m, Restocked(m, x, purchase).st) == Equity(m, x.st)
  {
    if purchase.sku in x.st.products {
      var p := x.st.products[purchase.sku];
      var units := Min(purchase.quantity, m.maxOrderQty);
      InventoryMoves(m.catalog, x.st.products, purchase.sku, p.(stock := p.stock + units));
      hide InventoryOf, Exposure;
      assert p.cost * (p.stock + units) == p.cost * p.stock + p.cost * units;
    }
  }

  /** A sale moves equity by what it nets less what the goods cost, and by what a return flagged at once will owe. */
  lemma SaleMovesEquity(m: Setup, x: Evening, order: Order, p: Product)
    requires Distinct(m.catalog) && order.sku in m.catalog
    requires order.sku in x.st.products && p == x.st.products[order.sku]
    ensures var y := Fulfilled(m, x, order, p);
            Equity(m, y.st) - Equity(m, x.st)
            == p.price * order.quantity - Max(0, Fees(m, p.price, order.quantity)) - p.cost * order.quantity
               - (Exposure(y.st.openReturns) - Exposure(x.st.openReturns))
  {
    hide InventoryOf, Exposure, Fulfilled, Fees;
    FulfilledGoods(m, x, order, p);
    InventoryMoves(m.catalog, x.st.products, order.sku, p.(stock := p.stock - order.quantity));
    assert p.cost * (p.stock - order.quantity) == p.cost * p.stock - p.cost * order.quantity;
  }

  lemma FulfilledGoods(m: Setup, x: Evening, order: Order, p: Product)
    ensures var y := Fulfilled(m, x, order, p);
            && y.st.products == x.st.products[order.sku := p.(stock := p.stock - order.quantity)]
            && y.st.capital == x.st.capital + p.price * order.quantity - Max(0, Fees(m, p.price, order.quantity))
  {
    hide Flagged, Fees, Attributed, ProcessingFee;
    FlaggingFrame(m, PaidFor(m, x, order, p).st, order, p, p.price * order.quantity);
  }

  /** Equity profit is net profit plus the change in inventory value less refunds still owed. */
  lemma EquityDecomposed(m: Setup, st: State, plans: seq<Plan>, day: nat)
    requires m.catalog != [] && Opening(m, st) && day <= |plans|
    ensures var r := StateAfter(m, st, plans, day);
            EquityProfit(m, r) == Profit(r)
                                  + (InventoryOf(m.catalog, r.products) - InventoryOf(m.catalog, st.products))
                                  - Exposure(r.openReturns)
  {
    RunKeepsBooks(m, st, plans, day);
  }
}
