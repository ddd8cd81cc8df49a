/** The evening does what the agent decided: which orders it sells, at which prices, and in which sections. */
module Obedience {
  import opened Market
  import opened ReturnsDesk
  import opened Events
  import opened Trading
  import opened DayCycle
  import opened Books
  import opened Stock
  import opened Solvency
  import opened Effects

  /** A sale is of an order received, for a product not rejected, and the flag, its id or its product asked for it. */
  predicate Allowed(plan: Plan, orders: seq<Order>, sale: Sale, st: State) {
    && sale.order in orders && sale.order.sku !in plan.rejectSkus
    && (plan.acceptAll || sale.order.orderId in plan.acceptOrders || sale.order.sku in plan.acceptSkus)
    && sale.order.sku in st.products && sale.price == st.products[sale.order.sku].price <= sale.order.maxPrice
  }

  /** An order so asked for and not rejected goes unsold only where its price or its stock forbids it. */
  predicate Honoured(plan: Plan, order: Order, sold: seq<Sale>, st: State) {
    && order.sku in st.products && order.sku !in plan.rejectSkus
    && (plan.acceptAll || order.orderId in plan.acceptOrders || order.sku in plan.acceptSkus)
    ==> || Sale(order, st.products[order.sku].price) in sold
        || st.products[order.sku].price > order.maxPrice
        || st.products[order.sku].stock < order.quantity
  }

  /** The sales are those the plan allows, and none it asks for is left out without need. */
  predicate Obeyed(plan: Plan, orders: seq<Order>, sold: seq<Sale>, st: State) {
    && (forall s <- sold :: Allowed(plan, orders, s, st))
    && (forall order <- orders :: Honoured(plan, order, sold, st))
  }

  /** Everything recorded before is still recorded, and what came after obeys the plan. */
  predicate ObeyedSince(plan: Plan, orders: seq<Order>, before: State, after: State) {
    && |before.history.sales| <= |after.history.sales|
    && after.history.sales[..|before.history.sales|] == before.history.sales
    && Obeyed(plan, orders, after.history.sales[|before.history.sales|..], after)
  }

  /** No order takes back less than nothing. */
  predicate Buying(orders: seq<Order>) { forall order <- orders :: order.quantity >= 0 }

  /** Prices stand and stock only falls. */
  predicate Sells(before: State, after: State) {
    && after.products.Keys == before.products.Keys
    && forall sku <- before.products.Keys ::
         && after.products[sku].price == before.products[sku].price
         && after.products[sku].stock <= before.products[sku].stock
  }

  lemma StillAllowed(plan: Plan, orders: seq<Order>, more: seq<Order>, sale: Sale, before: State, after: State)
    requires Allowed(plan, orders, sale, before) && Sells(before, after)
    requires forall order <- orders :: order in more
    ensures Allowed(plan, more, sale, after)
  {
  }

  lemma StillHonoured(plan: Plan, order: Order, sold: seq<Sale>, now: seq<Sale>, before: State, after: State)
    requires Honoured(plan, order, sold, before) && Sells(before, after)
    requires forall s <- sold :: s in now
    ensures Honoured(plan, order, now, after)
  {
  }

  lemma SaleSells(m: Setup, x: Evening, order: Order, accepted: bool)
    requires order.quantity >= 0
    ensures Sells(x.st, Sold(m, x, order, accepted).st)
  {
    hide Sold, Net, Handled, ComplaintsOver, SameBooks, SameStock;
    SaleHandles(m, x, order, accepted);
  }

  lemma NextObeys(plan: Plan, done: seq<Order>, order: Order, sold: seq<Sale>, now: seq<Sale>, sale: Sale,
                  before: State, after: State)
    requires Obeyed(plan, done, sold, before) && Sells(before, after)
    requires now == sold || (now == sold + [sale] && Allowed(plan, done + [order], sale, before))
    requires Honoured(plan, order, now, before)
    ensures Obeyed(plan, done + [order], now, after)
  {
    hide Sells, Allowed, Honoured;
    var more := done + [order];
    forall s <- now ensures Allowed(plan, more, s, after) {
      if s in sold { StillAllowed(plan, done, more, s, before, after); }
      else { StillAllowed(plan, more, more, s, before, after); }
    }
    forall other <- more ensures Honoured(plan, other, now, after) {
      if other in done { StillHonoured(plan, other, sold, now, before, after); }
      else { StillHonoured(plan, order, now, now, before, after); }
    }
  }

  lemma NextSaleObeys(m: Setup, plan: Plan, start: State, done: seq<Order>, x: Evening, order: Order)
    requires ObeyedSince(plan, done, start, x.st) && order.quantity >= 0
    ensures ObeyedSince(plan, done + [order], start, Sold(m, x, order, Accepts(plan, order)).st)
  {
    hide Sold, Sells, Allowed, Honoured, Fulfils, Obeyed, Accepts;
    var (y, accepted) := (Sold(m, x, order, Accepts(plan, order)), Accepts(plan, order));
    SalesGrow(m, x, order, accepted);
    SaleSells(m, x, order, accepted);
    var (n, sold) := (|start.history.sales|, x.st.history.sales[|start.history.sales|..]);
    var now := y.st.history.sales[n..];
    var price := if order.sku in x.st.products then x.st.products[order.sku].price else 0;
    assert now == sold + if Fulfils(x, order, accepted) then [Sale(order, price)] else [];
    OrderIsHonoured(plan, x, order, done, now);
    NextObeys(plan, done, order, sold, now, Sale(order, price), x.st, y.st);
  }

  lemma SalesGrow(m: Setup, x: Evening, order: Order, accepted: bool)
    ensures Fulfils(x, order, accepted) ==> order.sku in x.st.products
    ensures var price := if order.sku in x.st.products then x.st.products[order.sku].price else 0;
            Sold(m, x, order, accepted).st.history.sales
            == x.st.history.sales + if Fulfils(x, order, accepted) then [Sale(order, price)] else []
  {
    hide Sold;
    SaleRecorded(m, x, order, accepted);
  }

  /** The order at hand: sold when allowed, and honoured whatever was sold before. */
  lemma OrderIsHonoured(plan: Plan, x: Evening, order: Order, done: seq<Order>, now: seq<Sale>)
    requires Fulfils(x, order, Accepts(plan, order)) ==> Sale(order, x.st.products[order.sku].price) in now
    ensures Honoured(plan, order, now, x.st)
    ensures Fulfils(x, order, Accepts(plan, order)) ==>
              Allowed(plan, done + [order], Sale(order, x.st.products[order.sku].price), x.st)
  {
  }

  lemma {:induction false} SalesObey(m: Setup, plan: Plan, orders: seq<Order>, x: Evening, k: nat)
    requires k <= |orders| && Buying(orders)
    ensures ObeyedSince(plan, orders[..k], x.st, PerformAll(m, x, Sales(plan, orders)[..k]).st)
    decreases k
  {
    hide Perform, ObeyedSince, Accepts;
    var sales := Sales(plan, orders);
    if k > 0 {
      SalesObey(m, plan, orders, x, k - 1);
      NextAction(m, x, sales, k - 1);
      var y := PerformAll(m, x, sales[..k - 1]);
      assert orders[k - 1] in orders && orders[..k] == orders[..k - 1] + [orders[k - 1]];
      NextSaleObeys(m, plan, x.st, orders[..k - 1], y, orders[k - 1]);
      SellIsSold(m, y, orders[k - 1], Accepts(plan, orders[k - 1]));
    } else {
      assert sales[..0] == [] && orders[..0] == [];
      NothingSoldYet(plan, x.st);
    }
  }

  lemma AllSalesObey(m: Setup, plan: Plan, orders: seq<Order>, x: Evening)
    requires Buying(orders)
    ensures ObeyedSince(plan, orders, x.st, PerformAll(m, x, Sales(plan, orders)).st)
  {
    hide PerformAll, ObeyedSince, Sales;
    SalesObey(m, plan, orders, x, |orders|);
    SalesCounted(plan, orders);
    assert orders[..|orders|] == orders && Sales(plan, orders)[..|orders|] == Sales(plan, orders);
  }

  lemma SellIsSold(m: Setup, x: Evening, order: Order, accepted: bool)
    ensures Perform(m, x, Sell(order, accepted)) == Sold(m, x, order, accepted)
  {
  }

  lemma NothingSoldYet(plan: Plan, st: State)
    ensures ObeyedSince(plan, [], st, st)
  {
  }

  lemma {:induction false} OwnActionsSellNothing(m: Setup, x: Evening, actions: seq<Action>)
    requires forall a <- actions :: !a.Sell?
    ensures PerformAll(m, x, actions).st.history.sales == x.st.history.sales
    decreases |actions|
  {
    if actions != [] {
      OtherSellsNothing(m, x, actions[0]);
      assert forall a <- actions[1..] :: a in actions;
      hide Perform;
      OwnActionsSellNothing(m, Perform(m, x, actions[0]), actions[1..]);
    }
  }

  lemma OtherSellsNothing(m: Setup, x: Evening, a: Action)
    requires !a.Sell?
    ensures Perform(m, x, a).st.history.sales == x.st.history.sales
  {
    hide SelectSupplier, TicketsResolved;
  }

  lemma OwnActionsSellNone(plan: Plan)
    ensures forall a <- OwnActions(plan) :: !a.Sell?
  {
  }

  /** Main result: an evening sells exactly what the agent asked for and did not reject, as far as prices and stock
      go. */
  lemma AppliedObeys(m: Setup, st: State, plan: Plan, orders: seq<Order>, adj: Adjustments)
    requires Buying(orders)
    ensures ObeyedSince(plan, orders, st, Applied(m, st, plan, orders, adj).st)
  {
    var start := Opened(m, st, |orders|, adj);
    var sales := Sales(plan, orders);
    hide PerformAll, OwnActions, Sales, Opened;
    OpenedKeepsSales(m, st, |orders|, adj);
    OwnActionsSellNone(plan);
    OwnActionsSellNothing(m, start, OwnActions(plan));
    var own := PerformAll(m, start, OwnActions(plan));
    AllSalesObey(m, plan, orders, own);
    PerformInTwo(m, start, OwnActions(plan), sales);
  }

  lemma OpenedKeepsSales(m: Setup, st: State, received: int, adj: Adjustments)
    ensures Opened(m, st, received, adj).st.history.sales == st.history.sales
  {
  }

  lemma SalesCounted(plan: Plan, orders: seq<Order>)
    ensures |Sales(plan, orders)| == |orders|
  {
  }

  /** Every wish is acted on, in its section: prices, restocks, supplier orders, adverts, service, in that order. */
  lemma SectionsInPlace(plan: Plan)
    ensures var actions := OwnActions(plan);
            var a := |plan.prices|;
            var b := a + |plan.restocks|;
            var c := b + |plan.supplies|;
            var d := c + |plan.adverts|;
            && |actions| == d + |plan.service|
            && (forall i :: 0 <= i < |plan.prices| ==> actions[i] == SetPrice(plan.prices[i]))
            && (forall i :: 0 <= i < |plan.restocks| ==> actions[a + i] == Restock(plan.restocks[i]))
            && (forall i :: 0 <= i < |plan.supplies| ==> actions[b + i] == Procure(plan.supplies[i]))
            && (forall i :: 0 <= i < |plan.adverts| ==> actions[c + i] == Advertise(plan.adverts[i]))
            && (forall i :: 0 <= i < |plan.service| ==> actions[d + i] == Serve(plan.service[i]))
  {
  }

  /** The last positive price asked for a product, or the one it has. */
  function Asked(changes: seq<PriceChange>, sku: Sku, price: int): int {
    if changes == [] then price
    else
      var last := changes[|changes| - 1];
      if last.sku == sku && last.candidate.Some? && last.candidate.value > 0 then last.candidate.value
      else Asked(changes[..|changes| - 1], sku, price)
  }

  predicate PricedAs(changes: seq<PriceChange>, before: map<Sku, Product>, after: map<Sku, Product>) {
    && after.Keys == before.Keys
    && forall sku <- before.Keys :: after[sku].price == Asked(changes, sku, before[sku].price)
  }

  lemma {:induction false} PricesPrefix(m: Setup, x: Evening, changes: seq<PriceChange>, k: nat)
    requires k <= |changes|
    ensures PricedAs(changes[..k], x.st.products, PerformAll(m, x, PriceActions(changes)[..k]).st.products)
    decreases k
  {
    var actions := PriceActions(changes);
    if k > 0 {
      PricesPrefix(m, x, changes, k - 1);
      NextAction(m, x, actions, k - 1);
      assert changes[..k][..k - 1] == changes[..k - 1];
      PriceSetReprices(PerformAll(m, x, actions[..k - 1]), changes[k - 1]);
      assert Perform(m, PerformAll(m, x, actions[..k - 1]), actions[k - 1])
             == PriceSet(PerformAll(m, x, actions[..k - 1]), changes[k - 1]);
    } else {
      assert actions[..0] == [] && changes[..0] == [];
    }
  }

  predicate SamePrices(before: map<Sku, Product>, after: map<Sku, Product>) {
    after.Keys == before.Keys && forall sku <- before.Keys :: after[sku].price == before[sku].price
  }

  lemma OtherKeepsPrices(m: Setup, x: Evening, a: Action)
    requires !a.SetPrice?
    ensures SamePrices(x.st.products, Perform(m, x, a).st.products)
  {
    hide Sold, SelectSupplier, TicketsResolved;
    if a.Sell? { SaleFrame(m, x, a.order, a.accepted); }
  }

  lemma {:induction false} OthersKeepPrices(m: Setup, x: Evening, actions: seq<Action>)
    requires forall a <- actions :: !a.SetPrice?
    ensures SamePrices(x.st.products, PerformAll(m, x, actions).st.products)
    decreases |actions|
  {
    hide Perform;
    if actions != [] {
      OtherKeepsPrices(m, x, actions[0]);
      assert forall a <- actions[1..] :: a in actions;
      OthersKeepPrices(m, Perform(m, x, actions[0]), actions[1..]);
    }
  }

  lemma PricesFirst(plan: Plan, orders: seq<Order>) returns (rest: seq<Action>)
    ensures Actions(plan, orders) == PriceActions(plan.prices) + rest && forall a <- rest :: !a.SetPrice?
  {
    rest := RestockActions(plan.restocks) + SupplyActions(plan.supplies) + AdvertActions(plan.adverts)
            + ServiceActions(plan.service) + Sales(plan, orders);
  }

  /** Main result: after an evening every product costs the last positive price the agent asked for it. */
  lemma AppliedPrices(m: Setup, st: State, plan: Plan, orders: seq<Order>, adj: Adjustments)
    ensures PricedAs(plan.prices, st.products, Applied(m, st, plan, orders, adj).st.products)
  {
    var start := Opened(m, st, |orders|, adj);
    var rest := PricesFirst(plan, orders);
    hide PerformAll, Actions, PriceActions, Asked;
    PricesPrefix(m, start, plan.prices, |plan.prices|);
    assert plan.prices[..|plan.prices|] == plan.prices;
    AllPriceActions(plan.prices);
    PerformInTwo(m, start, PriceActions(plan.prices), rest);
    OthersKeepPrices(m, PerformAll(m, start, PriceActions(plan.prices)), rest);
  }

  lemma AllPriceActions(changes: seq<PriceChange>)
    ensures PriceActions(changes)[..|changes|] == PriceActions(changes)
  {
  }

  /** Main result: the orders of any day are sold, and the prices set, as that day's plan says. */
  lemma DayObeys(m: Setup, st: State, plan: Plan)
    requires m.catalog != []
    ensures var d := Prepared(m, st);
            && ObeyedSince(plan, d.orders, d.st, RunDay(m, st, plan).st)
            && PricedAs(plan.prices, st.products, RunDay(m, st, plan).st.products)
  {
    var d := Prepared(m, st);
    var evening := Applied(m, d.st, plan, d.orders, d.adj);
    hide Prepared, Applied, ObeyedSince, PricedAs, EventsUpdated, MorningOf;
    OrdersBuy(m, st);
    AppliedObeys(m, d.st, plan, d.orders, d.adj);
    AppliedPrices(m, d.st, plan, d.orders, d.adj);
    EventsUpdatedFrame(evening.st);
    StillObeyed(plan, d.orders, d.st, evening.st, EventsUpdated(evening.st));
    MorningKeepsPrices(m, st);
    StillPriced(plan.prices, st.products, d.st.products, evening.st.products, EventsUpdated(evening.st).products);
  }

  lemma OrdersBuy(m: Setup, st: State)
    requires m.catalog != []
    ensures Buying(Prepared(m, st).orders)
  {
    hide Prepared, MorningOf;
    MarketOpens(m, st);
  }

  lemma MorningKeepsPrices(m: Setup, st: State)
    requires m.catalog != []
    ensures SamePrices(st.products, Prepared(m, st).st.products)
  {
    hide Prepared, MorningOf;
    MarketOpens(m, st);
    MorningFrame(m, st);
  }

  lemma StillObeyed(plan: Plan, orders: seq<Order>, before: State, evening: State, after: State)
    requires ObeyedSince(plan, orders, before, evening)
    requires after.history == evening.history && SameGoods(evening.products, after.products)
    ensures ObeyedSince(plan, orders, before, after)
  {
    var sold := after.history.sales[|before.history.sales|..];
    assert Sells(evening, after);
    hide Honoured, Allowed;
    forall s <- sold ensures Allowed(plan, orders, s, after) {
      StillAllowed(plan, orders, orders, s, evening, after);
    }
    forall order <- orders ensures Honoured(plan, order, sold, after) {
      StillHonoured(plan, order, sold, sold, evening, after);
    }
  }

  lemma StillPriced(changes: seq<PriceChange>, before: map<Sku, Product>, morning: map<Sku, Product>,
                    evening: map<Sku, Product>, after: map<Sku, Product>)
    requires SamePrices(before, morning) && PricedAs(changes, morning, evening) && SameGoods(evening, after)
    ensures PricedAs(changes, before, after)
  {
  }
}
