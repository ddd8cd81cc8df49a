/** A run that goes into debt from the simulator's own opening: one cent below the default bound, a day's sales are
    enough, whatever the random stream. */
module Debt {
  import opened Numbers
  import opened Rng
  import opened Market
  import opened ReturnsDesk
  import opened Demand
  import opened Trading
  import opened DayCycle
  import opened Solvency

  const Skus: seq<Sku> := ["P001", "P002", "P003", "P004", "P005", "P006", "P007", "P008"]

  function OnSale(category: string, cost: int, price: int, stock: int, demand: int): Product {
    Product(category, cost, price, stock, demand, 1.0, 4.5, 1.0, 1.0)
  }

  /** The opening shelves. */
  function Shelves(): map<Sku, Product> {
    map["P001" := OnSale("audio", 1500, 3999, 100, 8),
        "P002" := OnSale("charging", 500, 1499, 200, 15),
        "P003" := OnSale("workstation", 2200, 5999, 50, 3),
        "P004" := OnSale("connectivity", 1200, 2999, 80, 5),
        "P005" := OnSale("audio", 2500, 6999, 60, 4),
        "P006" := OnSale("camera", 1800, 4999, 70, 6),
        "P007" := OnSale("accessories", 400, 1299, 150, 10),
        "P008" := OnSale("connectivity", 300, 999, 300, 20)]
  }

  /** The default fees and overhead on the opening catalogue; draws, suppliers and lanes may be anything, and the
      season may at most halve the first day's demand. */
  predicate DefaultFees(m: Setup) {
    && m.catalog == Skus && m.fulfillmentFee == 320 && m.processingRate == 0.03 && m.overhead == 800
    && m.seasonalDemand(1, "audio") >= 0.5
  }

  /** Ten thousand dollars and the opening shelves; rivals may be anyone. */
  predicate DefaultOpening(m: Setup, st: State) {
    Opening(m, st) && st.capital == 1000000 && st.products == Shelves()
  }

  function AllAt(skus: seq<Sku>, price: int): seq<PriceChange> {
    seq(|skus|, i requires 0 <= i < |skus| => PriceChange(skus[i], Some(price)))
  }

  /** Everything at $3.29, all cash into advertising, every order accepted. */
  function Spree(): Plan {
    Plan(true, {}, {}, {}, AllAt(Skus, 329), [], [], [Advert("P001", Some(999200))], [])
  }

  lemma CeilingAtLeast(price: int, u: Unit)
    requires price >= 999
    ensures Ceiling(price, u) >= 329
  {
    UniformBetween(0.9, 1.1, u);
    var factor := Uniform(0.9, 1.1, u);
    hide Uniform;
    var willing := price as real * factor;
    assert (price as real - 999.0) * factor >= 0.0;
    assert 999.0 * factor >= 899.1;
    HalfEvenAtLeast(willing, 329);
  }

  predicate Dear(products: map<Sku, Product>) { forall sku <- products.Keys :: products[sku].price >= 999 }

  predicate Willing(orders: seq<Order>) { forall order <- orders :: order.maxPrice >= 329 }

  lemma {:induction false} OrdersForWilling(m: Setup, b: Batch, sku: Sku, count: nat)
    requires sku in b.st.products && Dear(b.st.products) && Willing(b.orders)
    ensures var r := OrdersFor(m, b, sku, count);
            Willing(r.orders) && |r.orders| == |b.orders| + count && r.st.products == b.st.products
    decreases count
  {
    hide Ceiling, RandInt;
    if count > 0 {
      CeilingAtLeast(b.st.products[sku].price, m.draws(b.st.cursor));
      OrdersForWilling(m, NextOrder(m, b, sku), sku, count - 1);
    }
  }

  lemma {:induction false} OrdersRunWilling(m: Setup, b: Batch, skus: seq<Sku>)
    requires Dear(b.st.products) && Willing(b.orders)
    ensures var r := OrdersRun(m, b, skus); Willing(r.orders) && |r.orders| >= |b.orders|
    decreases |skus|
  {
    hide DemandOf, OrdersFor;
    if skus != [] {
      if skus[0] in b.st.products {
        var drawn := b.(st := b.st.(cursor := b.st.cursor + 1));
        var count := DemandOf(m, b.st, skus[0]);
        OrdersForWilling(m, drawn, skus[0], count);
        OrdersRunWilling(m, OrdersFor(m, drawn, skus[0], count), skus[1..]);
      } else {
        OrdersRunWilling(m, b, skus[1..]);
      }
    }
  }

  lemma SixWanted(p: Product, u: Unit)
    requires p.baseDemand == 8 && p.demandMultiplier == 1.0 && p.adBoost == 1.0 && p.rating == 4.5
    ensures RawDemand(p, u) >= 6
  {
    UniformBetween(0.7, 1.3, u);
    var factor := Uniform(0.7, 1.3, u);
    var base := p.baseDemand as real * p.demandMultiplier * MaxReal(0.2, p.adBoost);
    assert base == 8.0;
    var adjusted := base * (0.4 + (p.rating / 5.0) * 0.8);
    assert adjusted == 8.96;
    assert adjusted * factor >= 6.0;
  }

  lemma OneWanted(raw: real, factor: real, seasonal: real)
    requires raw >= 6.0 && factor >= 0.65 && seasonal >= 0.5
    ensures Seasoned(raw, factor, seasonal) >= 1
  {
    var near := raw * factor;
    assert (raw - 6.0) * factor >= 0.0;
    assert near >= 3.9;
    var wanted := near * seasonal;
    assert (near - 3.9) * seasonal >= 0.0;
    HalfEvenAtLeast(wanted, 1);
  }

  lemma FirstDemand(m: Setup, st: State)
    requires DefaultFees(m) && st.day == 1 && st.products == RolledForward(Shelves())
    ensures "P001" in st.products && DemandOf(m, st, "P001") >= 1 && Dear(st.products)
  {
    var p := st.products["P001"];
    assert p == Shelves()["P001"];
    SixWanted(p, m.draws(st.cursor));
    assert PriceFactor(st.competitors, "P001", p.price) >= 0.65;
    OneWanted(RawDemand(p, m.draws(st.cursor)) as real, PriceFactor(st.competitors, "P001", p.price),
              m.seasonalDemand(1, "audio"));
    hide RawDemand, PriceFactor, Seasoned;
  }

  lemma SomeoneOrders(m: Setup, st: State)
    requires DefaultFees(m) && st.day == 1 && st.products == Shelves()
    ensures Generated(m, st).orders != [] && Willing(Generated(m, st).orders)
  {
    hide DemandOf, RolledForward, Shelves, Dear, OrdersFor;
    var start := Batch(st.(products := RolledForward(st.products)), []);
    FirstDemand(m, start.st);
    var count := DemandOf(m, start.st, "P001");
    var drawn := start.(st := start.st.(cursor := start.st.cursor + 1));
    OrdersForWilling(m, drawn, "P001", count);
    var first := OrdersFor(m, drawn, "P001", count);
    assert m.catalog[0] == "P001";
    OrdersRunWilling(m, first, m.catalog[1..]);
    var run := OrdersRun(m, start, m.catalog);
    assert run == OrdersRun(m, first, m.catalog[1..]);
    ShuffledWilling(m, run);
  }

  lemma ShuffledWilling(m: Setup, b: Batch)
    requires b.orders != [] && Willing(b.orders)
    ensures Shuffling(m, b).orders != [] && Willing(Shuffling(m, b).orders)
  {
    var shuffled := Shuffling(m, b).orders;
    forall order <- shuffled ensures order in b.orders { assert order in multiset(shuffled); }
  }

  lemma QuietMorning(m: Setup, st: State)
    requires st.inbound == [] && st.openReturns == []
    ensures MorningOf(m, st) == Morning(st.(day := st.day + 1), Adjustments(0, 0, 0))
  {
  }

  /** What the first day knows when the agent decides. */
  lemma FirstDesk(m: Setup, st: State)
    requires DefaultFees(m) && DefaultOpening(m, st)
    ensures var d := Prepared(m, st);
            && d.st.capital == 1000000 && d.adj == Adjustments(0, 0, 0) && SameGoods(Shelves(), d.st.products)
            && d.orders != [] && Willing(d.orders) && Sellable(d.st.products, d.orders)
  {
    hide EvolvedFrom, Generated, Shelves;
    QuietMorning(m, st);
    var dawn := st.(day := st.day + 1);
    MarketOpens(m, st);
    EvolveFrame(m, dawn, 0);
    SomeoneOrders(m, EvolvedFrom(m, dawn, 0));
  }

  /** Priced alike, with the stock and costs of other shelves. */
  predicate Relabelled(before: map<Sku, Product>, after: map<Sku, Product>, price: int) {
    && after.Keys == before.Keys
    && forall sku <- before.Keys :: after[sku].price == price && after[sku].stock == before[sku].stock
  }

  predicate RelabelledAt(skus: seq<Sku>, before: map<Sku, Product>, after: map<Sku, Product>, price: int) {
    && after.Keys == before.Keys
    && forall sku <- before.Keys ::
         && after[sku].stock == before[sku].stock
         && after[sku].price == if sku in skus then price else before[sku].price
  }

  lemma {:induction false} Relabelling(m: Setup, x: Evening, skus: seq<Sku>, price: int)
    requires price > 0
    ensures var y := PerformAll(m, x, PriceActions(AllAt(skus, price)));
            y.st.capital == x.st.capital && RelabelledAt(skus, x.st.products, y.st.products, price)
    decreases |skus|
  {
    var actions := PriceActions(AllAt(skus, price));
    if skus == [] {
      assert actions == [];
    } else {
      assert actions[1..] == PriceActions(AllAt(skus[1..], price));
      assert skus == [skus[0]] + skus[1..];
      Relabelling(m, Perform(m, x, actions[0]), skus[1..], price);
    }
  }

  lemma AllRelabelled(before: map<Sku, Product>, after: map<Sku, Product>)
    requires SameGoods(Shelves(), before) && RelabelledAt(Skus, before, after, 329)
    ensures Relabelled(before, after, 329) && "P001" in after
  {
  }

  const Blowout := Advertise(Advert("P001", Some(999200)))

  lemma LabelsThenBlowout()
    ensures OwnActions(Spree()) == PriceActions(AllAt(Skus, 329)) + [Blowout]
  {
  }

  lemma BlowoutSpendsAll(m: Setup, before: map<Sku, Product>, x: Evening)
    requires x.st.capital == 999200 && "P001" in x.st.products && Relabelled(before, x.st.products, 329)
    ensures var y := Perform(m, x, Blowout); y.st.capital == 0 && Relabelled(before, y.st.products, 329)
  {
  }

  /** After the agent's own actions there is no cash, and everything costs $3.29. */
  lemma CashSpent(m: Setup, x: Evening)
    requires x.st.capital == 999200 && SameGoods(Shelves(), x.st.products)
    ensures var y := PerformAll(m, x, OwnActions(Spree()));
            y.st.capital == 0 && Relabelled(x.st.products, y.st.products, 329)
  {
    hide PerformAll, Perform, AllAt, PriceActions, OwnActions, Shelves, SameGoods, Relabelled, RelabelledAt, Skus,
         Spree;
    var labels := PriceActions(AllAt(Skus, 329));
    LabelsThenBlowout();
    PerformInTwo(m, x, labels, [Blowout]);
    Relabelling(m, x, Skus, 329);
    var y := PerformAll(m, x, labels);
    AllRelabelled(x.st.products, y.st.products);
    OneAction(m, y, Blowout);
    BlowoutSpendsAll(m, x.st.products, y);
  }

  lemma OneAction(m: Setup, x: Evening, a: Action)
    ensures PerformAll(m, x, [a]) == Perform(m, x, a)
  {
    hide Perform;
    assert [a][1..] == [];
    assert PerformAll(m, Perform(m, x, a), []) == Perform(m, x, a);
  }

  lemma EverySaleLoses(m: Setup, quantity: int)
    requires DefaultFees(m) && 1 <= quantity <= 3
    ensures Net(m, 329, quantity) < 0
  {
    var share := (329 * quantity) as real * 0.03;
    assert quantity == 1 ==> share == 9.87 && HalfUp(share) == 10;
    assert quantity == 2 ==> share == 19.74 && HalfUp(share) == 20;
    assert quantity == 3 ==> share == 29.61 && HalfUp(share) == 30;
  }

  predicate AtPrice(products: map<Sku, Product>, price: int) {
    forall sku <- products.Keys :: products[sku].price == price
  }

  predicate SmallSales(actions: seq<Action>) { forall a <- actions :: a.Sell? && 1 <= a.order.quantity <= 3 }

  lemma SaleNeverGains(m: Setup, x: Evening, order: Order, accepted: bool)
    requires DefaultFees(m) && AtPrice(x.st.products, 329) && 1 <= order.quantity <= 3
    ensures var y := Sold(m, x, order, accepted).st;
            && y.capital <= x.st.capital && AtPrice(y.products, 329)
            && (Fulfils(x, order, accepted) ==> y.capital < x.st.capital)
  {
    hide Sold, Net;
    SaleMovesNet(m, x, order, accepted);
    SaleFrame(m, x, order, accepted);
    EverySaleLoses(m, order.quantity);
  }

  lemma {:induction false} SalesNeverGain(m: Setup, x: Evening, actions: seq<Action>)
    requires DefaultFees(m) && AtPrice(x.st.products, 329) && SmallSales(actions)
    ensures PerformAll(m, x, actions).st.capital <= x.st.capital
    decreases |actions|
  {
    hide Sold;
    if actions != [] {
      assert actions[0] in actions && forall a <- actions[1..] :: a in actions;
      SaleNeverGains(m, x, actions[0].order, actions[0].accepted);
      SalesNeverGain(m, Perform(m, x, actions[0]), actions[1..]);
    }
  }

  /** Selling the day's orders from no cash at $3.29 ends in debt: the first one is always in stock. */
  lemma SalesLose(m: Setup, x: Evening, orders: seq<Order>)
    requires DefaultFees(m) && x.st.capital == 0 && AtPrice(x.st.products, 329)
    requires orders != [] && Willing(orders) && Sellable(x.st.products, orders)
    requires forall sku <- x.st.products.Keys :: x.st.products[sku].stock >= 3
    ensures PerformAll(m, x, Sales(Spree(), orders)).st.capital < 0
  {
    hide Sold;
    var sales := Sales(Spree(), orders);
    assert orders[0] in orders;
    assert sales[0] == Sell(orders[0], true);
    SaleNeverGains(m, x, orders[0], true);
    forall a <- sales[1..] ensures a.Sell? && 1 <= a.order.quantity <= 3 { assert a.order in orders; }
    SalesNeverGain(m, Perform(m, x, sales[0]), sales[1..]);
  }

  /** Main result: with the default fees, from the simulator's own opening and for every random stream, spending the
      cash on advertising and selling at $3.29 ends the first day in debt. */
  lemma DebtBelowTheBound(m: Setup, st: State)
    requires DefaultFees(m) && DefaultOpening(m, st)
    ensures StateAfter(m, st, [Spree()], 1).capital < 0
  {
    hide Prepared, RunDay, PerformAll, Sales, OwnActions, Shelves, StateAfter;
    FirstDesk(m, st);
    var d := Prepared(m, st);
    var start := Opened(m, d.st, |d.orders|, d.adj);
    CashSpent(m, start);
    var spent := PerformAll(m, start, OwnActions(Spree()));
    StocksSuffice(start.st.products, spent.st.products);
    SalesLose(m, spent, d.orders);
    PerformInTwo(m, start, OwnActions(Spree()), Sales(Spree(), d.orders));
    EveningCloses(m, st, Spree());
    FirstDayOnly(m, st);
  }

  lemma StocksSuffice(before: map<Sku, Product>, after: map<Sku, Product>)
    requires SameGoods(Shelves(), before) && Relabelled(before, after, 329)
    ensures AtPrice(after, 329) && forall sku <- after.Keys :: after[sku].stock >= 3
  {
  }

  lemma FirstDayOnly(m: Setup, st: State)
    requires m.catalog != []
    ensures StateAfter(m, st, [Spree()], 1) == RunDay(m, st, Spree()).st
  {
    hide RunDay;
    assert StateAfter(m, st, [Spree()], 0) == st;
    NextDay(m, st, [Spree()], 0);
  }
}
