/** When capital can go below zero: never while fulfilled orders cover their fees, and at once when one does not. */
module Solvency {
  import opened Numbers
  import opened Market
  import opened SupplyChain
  import opened ReturnsDesk
  import opened Trading
  import opened DayCycle

  /** The order is accepted, affordable to its customer and in stock. */
  predicate Fulfils(x: Evening, order: Order, accepted: bool) {
    && order.sku in x.st.products && accepted
    && x.st.products[order.sku].price <= order.maxPrice
    && x.st.products[order.sku].stock >= order.quantity
  }

  /** What a sale leaves once its fees are paid. */
  function Net(m: Setup, price: int, quantity: int): int { price * quantity - Max(0, Fees(m, price, quantity)) }

  /** If this action sells an order, the order's own revenue pays its own fees. */
  predicate SaleCovered(m: Setup, x: Evening, a: Action) {
    a.Sell? && Fulfils(x, a.order, a.accepted) ==> Net(m, x.st.products[a.order.sku].price, a.order.quantity) >= 0
  }

  lemma FlaggingKeepsCash(m: Setup, st: State, order: Order, p: Product, revenue: int)
    ensures var r := Flagged(m, st, order, p, revenue); r.capital == st.capital && r.products == st.products
  {
    hide ReturnOdds, DrawnReturn;
  }

  /** An order moves cash by exactly what it nets if it is fulfilled, and not at all otherwise. */
  lemma SaleMovesNet(m: Setup, x: Evening, order: Order, accepted: bool)
    ensures Sold(m, x, order, accepted).st.capital - x.st.capital
            == if Fulfils(x, order, accepted) then Net(m, x.st.products[order.sku].price, order.quantity) else 0
  {
    hide Fees, Flagged, Attributed;
    if Fulfils(x, order, accepted) {
      var p := x.st.products[order.sku];
      FlaggingKeepsCash(m, PaidFor(m, x, order, p).st, order, p, p.price * order.quantity);
    }
  }

  lemma ActionKeepsCash(m: Setup, x: Evening, a: Action)
    requires x.st.capital >= 0 && SaleCovered(m, x, a)
    ensures Perform(m, x, a).st.capital >= 0
  {
    hide Sold, Net, SelectSupplier, TicketsWanted;
    if a.Sell? { SaleMovesNet(m, x, a.order, a.accepted); }
  }

  /** The first k actions sell nothing that does not pay its own fees. */
  predicate CoveredTo(m: Setup, x: Evening, actions: seq<Action>, k: nat)
    requires k <= |actions|
  {
    forall i :: 0 <= i < k ==> SaleCovered(m, PerformAll(m, x, actions[..i]), actions[i])
  }

  lemma NextAction(m: Setup, x: Evening, actions: seq<Action>, k: nat)
    requires k < |actions|
    ensures PerformAll(m, x, actions[..k + 1]) == Perform(m, PerformAll(m, x, actions[..k]), actions[k])
  {
    hide Perform;
    assert actions[..k + 1] == actions[..k] + [actions[k]];
    PerformInTwo(m, x, actions[..k], [actions[k]]);
    var y := PerformAll(m, x, actions[..k]);
    assert PerformAll(m, Perform(m, y, actions[k]), []) == Perform(m, y, actions[k]);
    assert [actions[k]][1..] == [];
  }

  lemma {:induction false} TradingKeepsCash(m: Setup, x: Evening, actions: seq<Action>, k: nat)
    requires k <= |actions| && x.st.capital >= 0 && CoveredTo(m, x, actions, k)
    ensures PerformAll(m, x, actions[..k]).st.capital >= 0
    decreases k
  {
    hide Perform, SaleCovered;
    if k > 0 {
      TradingKeepsCash(m, x, actions, k - 1);
      NextAction(m, x, actions, k - 1);
      ActionKeepsCash(m, PerformAll(m, x, actions[..k - 1]), actions[k - 1]);
    }
  }

  lemma {:induction false} RefundsKeepCash(m: Setup, x: Morning, queue: seq<Return>)
    requires x.st.capital >= 0
    ensures ReturnRun(m, x, queue).st.capital >= 0
    decreases |queue|
  {
    if queue != [] {
      hide Settle, Settled;
      SettleFrame(m, x, queue[0].(daysLeft := queue[0].daysLeft - 1));
      RefundsKeepCash(m, ReturnStep(m, x, queue[0]), queue[1..]);
    }
  }

  /** Where the evening of a day starts, and the actions it takes. */
  function EveningStart(m: Setup, st: State): Evening
    requires m.catalog != []
  {
    var d := Prepared(m, st);
    Opened(m, d.st, |d.orders|, d.adj)
  }

  function DayActions(m: Setup, st: State, plan: Plan): seq<Action>
    requires m.catalog != []
  {
    Actions(plan, Prepared(m, st).orders)
  }

  /** No order the day fulfils fails to pay its own fees. */
  predicate DayCovered(m: Setup, st: State, plan: Plan)
    requires m.catalog != []
  {
    CoveredTo(m, EveningStart(m, st), DayActions(m, st, plan), |DayActions(m, st, plan)|)
  }

  /** Cash after any number of the morning's deliveries and of its refunds. */
  predicate MorningInCredit(m: Setup, st: State) {
    var dawn := st.(day := st.day + 1);
    var landed := InboundMorning(m, dawn);
    var start := Morning(landed.(openReturns := []), Adjustments(0, 0, 0));
    && (forall i :: 0 <= i <= |dawn.inbound| ==> InboundRun(m, dawn.(inbound := []), dawn.inbound[..i]).capital >= 0)
    && (forall i :: 0 <= i <= |landed.openReturns| ==> ReturnRun(m, start, landed.openReturns[..i]).st.capital >= 0)
  }

  lemma MorningKeepsCash(m: Setup, st: State)
    requires st.capital >= 0
    ensures MorningInCredit(m, st) && MorningOf(m, st).st.capital >= 0
  {
    hide InboundRun, ReturnRun;
    var dawn := st.(day := st.day + 1);
    forall i | 0 <= i <= |dawn.inbound| ensures InboundRun(m, dawn.(inbound := []), dawn.inbound[..i]).capital >= 0 {
      InboundFrame(m, dawn.(inbound := []), dawn.inbound[..i]);
    }
    assert dawn.inbound[..|dawn.inbound|] == dawn.inbound;
    var landed := InboundMorning(m, dawn);
    var start := Morning(landed.(openReturns := []), Adjustments(0, 0, 0));
    forall i | 0 <= i <= |landed.openReturns|
      ensures ReturnRun(m, start, landed.openReturns[..i]).st.capital >= 0
    {
      RefundsKeepCash(m, start, landed.openReturns[..i]);
    }
    assert landed.openReturns[..|landed.openReturns|] == landed.openReturns;
  }

  lemma EveningStartsInCredit(m: Setup, st: State)
    requires m.catalog != [] && st.capital >= 0
    ensures EveningStart(m, st).st.capital >= 0
  {
    hide MorningOf, Prepared;
    MorningKeepsCash(m, st);
    MarketOpens(m, st);
  }

  lemma DayKeepsCash(m: Setup, st: State, plan: Plan)
    requires m.catalog != [] && st.capital >= 0 && DayCovered(m, st, plan)
    ensures RunDay(m, st, plan).st.capital >= 0
  {
    hide Prepared, PerformAll, CoveredTo, Actions;
    EveningStartsInCredit(m, st);
    var actions := DayActions(m, st, plan);
    TradingKeepsCash(m, EveningStart(m, st), actions, |actions|);
    assert actions[..|actions|] == actions;
    EveningCloses(m, st, plan);
  }

  lemma {:induction false} RunKeepsCash(m: Setup, st: State, plans: seq<Plan>, days: nat)
    requires m.catalog != [] && st.capital >= 0 && days <= |plans|
    requires forall d :: 0 <= d < days ==> DayCovered(m, StateAfter(m, st, plans, d), plans[d])
    ensures StateAfter(m, st, plans, days).capital >= 0
    decreases days
  {
    hide RunDay, DayCovered;
    if days > 0 {
      RunKeepsCash(m, st, plans, days - 1);
      DayKeepsCash(m, StateAfter(m, st, plans, days - 1), plans[days - 1]);
      NextDay(m, st, plans, days - 1);
    }
  }

  /** Main result: while every order fulfilled so far pays its own fees, capital is never negative, not after any
      delivery, refund or action of any day. */
  lemma NeverInDebt(m: Setup, st: State, plans: seq<Plan>, day: nat, k: nat)
    requires m.catalog != [] && st.capital >= 0 && day < |plans|
    requires forall d :: 0 <= d < day ==> DayCovered(m, StateAfter(m, st, plans, d), plans[d])
    requires k <= |DayActions(m, StateAfter(m, st, plans, day), plans[day])|
    requires var today := StateAfter(m, st, plans, day);
             CoveredTo(m, EveningStart(m, today), DayActions(m, today, plans[day]), k)
    ensures var today := StateAfter(m, st, plans, day);
            && today.capital >= 0
            && MorningInCredit(m, today)
            && forall i :: 0 <= i <= k ==>
                 PerformAll(m, EveningStart(m, today), DayActions(m, today, plans[day])[..i]).st.capital >= 0
  {
    hide StateAfter, EveningStart, DayActions, MorningInCredit, SaleCovered, PerformAll;
    RunKeepsCash(m, st, plans, day);
    var today := StateAfter(m, st, plans, day);
    MorningKeepsCash(m, today);
    EveningStartsInCredit(m, today);
    forall i | 0 <= i <= k
      ensures PerformAll(m, EveningStart(m, today), DayActions(m, today, plans[day])[..i]).st.capital >= 0
    {
      TradingKeepsCash(m, EveningStart(m, today), DayActions(m, today, plans[day]), i);
    }
  }

  /** The price pays the fees of every order size the generator draws. */
  predicate Covered(m: Setup, price: int) {
    forall quantity :: 1 <= quantity <= 3 ==> Fees(m, price, quantity) <= price * quantity
  }

  predicate PricesCovered(m: Setup, products: map<Sku, Product>) {
    forall sku <- products.Keys :: products[sku].price > 0 && Covered(m, products[sku].price)
  }

  /** Every price the agent may set pays its fees. */
  predicate Prudent(m: Setup, plan: Plan) {
    forall change <- plan.prices :: PrudentChange(m, change)
  }

  predicate PrudentChange(m: Setup, change: PriceChange) {
    change.candidate.Some? && change.candidate.value > 0 ==> Covered(m, change.candidate.value)
  }

  predicate Safe(m: Setup, a: Action) {
    && (a.SetPrice? ==> PrudentChange(m, a.change))
    && (a.Sell? ==> 1 <= a.order.quantity <= 3)
  }

  lemma SafeSaleCovered(m: Setup, x: Evening, a: Action)
    requires PricesCovered(m, x.st.products) && Safe(m, a)
    ensures SaleCovered(m, x, a)
  {
    hide Fees;
    if a.Sell? && a.order.sku in x.st.products {
      var price := x.st.products[a.order.sku].price;
      assert Covered(m, price);
      assert Fees(m, price, a.order.quantity) <= price * a.order.quantity;
      assert price * a.order.quantity >= 0;
    }
  }

  lemma ActionKeepsPrices(m: Setup, x: Evening, a: Action)
    requires PricesCovered(m, x.st.products) && Safe(m, a)
    ensures PricesCovered(m, Perform(m, x, a).st.products)
  {
    hide Sold, Covered, SelectSupplier, TicketsResolved;
    if a.Sell? { SaleFrame(m, x, a.order, a.accepted); }
  }

  lemma {:induction false} SafeTradingCovered(m: Setup, x: Evening, actions: seq<Action>, k: nat)
    requires k <= |actions| && PricesCovered(m, x.st.products) && forall a <- actions :: Safe(m, a)
    ensures CoveredTo(m, x, actions, k) && PricesCovered(m, PerformAll(m, x, actions[..k]).st.products)
    decreases k
  {
    hide Perform, PricesCovered, Safe, SaleCovered;
    if k > 0 {
      var y := PerformAll(m, x, actions[..k - 1]);
      assert Safe(m, actions[k - 1]);
      SafeTradingCovered(m, x, actions, k - 1);
      SafeSaleCovered(m, y, actions[k - 1]);
      ActionKeepsPrices(m, y, actions[k - 1]);
      NextAction(m, x, actions, k - 1);
    } else {
      assert actions[..0] == [];
    }
  }

  lemma ActionsSafe(m: Setup, plan: Plan, orders: seq<Order>, products: map<Sku, Product>)
    requires Prudent(m, plan) && Sellable(products, orders)
    ensures forall a <- Actions(plan, orders) :: Safe(m, a)
  {
    hide Covered;
    forall a | a in Actions(plan, orders) ensures Safe(m, a) {
      if a.SetPrice? {
        assert a.change in plan.prices;
      } else if a.Sell? {
        assert a.order in orders;
      }
    }
  }

  lemma PrudentDayCovered(m: Setup, st: State, plan: Plan)
    requires m.catalog != [] && PricesCovered(m, st.products) && Prudent(m, plan)
    ensures DayCovered(m, st, plan) && PricesCovered(m, RunDay(m, st, plan).st.products)
  {
    hide MorningOf, Prepared, RunDay, PerformAll, Actions, Covered, CoveredTo;
    MorningFrame(m, st);
    MarketOpens(m, st);
    var d := Prepared(m, st);
    ActionsSafe(m, plan, d.orders, d.st.products);
    var actions := DayActions(m, st, plan);
    SafeTradingCovered(m, EveningStart(m, st), actions, |actions|);
    assert actions[..|actions|] == actions;
    EveningCloses(m, st, plan);
  }

  /** A run whose opening and chosen prices all cover their fees sells nothing below them, and is never in debt. */
  lemma {:induction false} PrudentRunStaysSolvent(m: Setup, st: State, plans: seq<Plan>, days: nat)
    requires m.catalog != [] && st.capital >= 0 && days <= |plans| && PricesCovered(m, st.products)
    requires forall plan <- plans :: Prudent(m, plan)
    ensures forall d :: 0 <= d < days ==> DayCovered(m, StateAfter(m, st, plans, d), plans[d])
    ensures PricesCovered(m, StateAfter(m, st, plans, days).products)
    ensures StateAfter(m, st, plans, days).capital >= 0
    decreases days
  {
    hide RunDay, Prudent, PricesCovered, DayCovered;
    if days > 0 {
      PrudentRunStaysSolvent(m, st, plans, days - 1);
      PrudentDayCovered(m, StateAfter(m, st, plans, days - 1), plans[days - 1]);
      NextDay(m, st, plans, days - 1);
      RunKeepsCash(m, st, plans, days);
    }
  }

  /** With $3.20 a unit and a 3% half-up fee, prices cover their fees exactly from $3.30 up, for any quantity. */
  lemma DefaultBound(m: Setup, price: int)
    requires m.fulfillmentFee == 320 && m.processingRate == 0.03
    ensures Covered(m, price) <==> price >= 330
    ensures price >= 330 ==> forall quantity :: quantity >= 1 ==> Fees(m, price, quantity) <= price * quantity
  {
    if price >= 330 {
      forall quantity | quantity >= 1 ensures Fees(m, price, quantity) <= price * quantity {
        DefaultFeesCovered(m, price, quantity);
      }
    } else {
      assert Fees(m, price, 1) > price * 1;
    }
  }

  lemma DefaultFeesCovered(m: Setup, price: int, quantity: int)
    requires m.fulfillmentFee == 320 && m.processingRate == 0.03 && price >= 330 && quantity >= 1
    ensures Fees(m, price, quantity) <= price * quantity
  {
    var revenue := price * quantity;
    assert revenue >= 330 * quantity by { assert (price - 330) * quantity >= 0; }
    HalfUpBetween(revenue as real * 0.03, 0, revenue - 320 * quantity);
  }

  /** The condition is sharp: with no cash left, selling at a price that does not cover its fees overdraws. */
  lemma UncoveredSaleOverdraws(m: Setup, x: Evening, order: Order)
    requires order.sku in x.st.products && x.st.capital == 0
    requires var p := x.st.products[order.sku];
             p.price <= order.maxPrice && p.stock >= order.quantity >= 1 && p.price > 0
             && Fees(m, p.price, order.quantity) > p.price * order.quantity
    ensures Sold(m, x, order, true).st.capital < 0
  {
    hide Flagged;
    var p := x.st.products[order.sku];
    assert p.price * order.quantity >= 0;
    FlaggingKeepsCash(m, PaidFor(m, x, order, p).st, order, p, p.price * order.quantity);
  }

  /** A sale at this price from a state without debt. */
  predicate PlainSale(x: Evening, order: Order, price: int) {
    && x.st.capital >= 0 && 1 <= order.quantity <= 3
    && order.sku in x.st.products && x.st.products[order.sku].price == price
  }

  /** A price is safe to sell at, whatever the state, exactly when it covers its fees for every order size. */
  lemma SalesSafeExactly(m: Setup, price: int)
    requires price > 0
    ensures (forall x: Evening, order: Order ::
               PlainSale(x, order, price) ==> Sold(m, x, order, true).st.capital >= 0)
            <==> Covered(m, price)
  {
    hide Fees, Flagged;
    if Covered(m, price) {
      forall x: Evening, order: Order | PlainSale(x, order, price) ensures Sold(m, x, order, true).st.capital >= 0 {
        CoveredSaleKeepsCash(m, x, order);
      }
    } else {
      var quantity :| 1 <= quantity <= 3 && Fees(m, price, quantity) > price * quantity;
      var p := Product("audio", 1500, price, quantity, 8, 1.0, 4.5, 1.0, 1.0);
      var st := State(1, 0, 0, 0, map["P001" := p], map[], [], [], [], [], 0, NoTotals, NoSeries, 0, NoHistory);
      var (x, order) := (Evening(st, NoResults(1)), Order("ORD-0000001", "P001", quantity, price));
      UncoveredSaleOverdraws(m, x, order);
      assert PlainSale(x, order, price);
    }
  }

  lemma CoveredSaleKeepsCash(m: Setup, x: Evening, order: Order)
    requires order.sku in x.st.products && x.st.products[order.sku].price > 0
    requires x.st.capital >= 0 && 1 <= order.quantity <= 3 && Covered(m, x.st.products[order.sku].price)
    ensures Sold(m, x, order, true).st.capital >= 0
  {
    hide Fees, Flagged;
    var p := x.st.products[order.sku];
    assert Fees(m, p.price, order.quantity) <= p.price * order.quantity;
    assert p.price * order.quantity >= 0;
    FlaggingKeepsCash(m, PaidFor(m, x, order, p).st, order, p, p.price * order.quantity);
  }
}
