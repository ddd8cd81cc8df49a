/** Limits that hold on every day of every run, and when advertising takes effect. */
module Bounds {
  import opened Numbers
  import opened Market
  import opened ReturnsDesk
  import opened Events
  import opened Demand
  import opened Trading
  import opened DayCycle

  /** A rating of one to five stars, and advertising that at most doubles demand. */
  predicate Presentable(p: Product) {
    && 1.0 <= p.rating <= 5.0
    && 0.2 <= p.adBoost <= 2.0
    && 1.0 <= p.nextAdBoost <= 2.0
  }

  /** No support backlog is negative. */
  predicate Bounded(st: State) {
    && (forall sku <- st.products.Keys :: Presentable(st.products[sku]))
    && (forall sku <- st.backlog.Keys :: st.backlog[sku] >= 0)
  }

  lemma ServiceBounded(x: Evening, service: Service)
    requires Bounded(x.st)
    ensures Bounded(Served(x, service).st)
  {
    hide TicketsResolved;
  }

  lemma SaleBounded(m: Setup, x: Evening, order: Order, accepted: bool)
    requires Bounded(x.st)
    ensures Bounded(Sold(m, x, order, accepted).st)
  {
    hide Sold;
    SaleFrame(m, x, order, accepted);
  }

  lemma ActionBounded(m: Setup, x: Evening, a: Action)
    requires Bounded(x.st)
    ensures Bounded(Perform(m, x, a).st)
  {
    hide Served, Sold;
    match a
    case Serve(service) => ServiceBounded(x, service);
    case Sell(order, accepted) => SaleBounded(m, x, order, accepted);
    case _ =>
  }

  lemma {:induction false} TradingBounded(m: Setup, x: Evening, actions: seq<Action>)
    requires Bounded(x.st)
    ensures Bounded(PerformAll(m, x, actions).st)
    decreases |actions|
  {
    hide Perform, Bounded;
    if actions != [] {
      ActionBounded(m, x, actions[0]);
      TradingBounded(m, Perform(m, x, actions[0]), actions[1..]);
    }
  }

  lemma InjectionBounded(m: Setup, st: State)
    requires m.catalog != [] && Bounded(st)
    ensures Bounded(Injected(m, st))
  {
    hide DrawnEvent, MultiplierFor, ShockedPrice, ReviewDrop;
    forall e ensures ReviewDrop(e) >= 0.25 { DropAtLeast(e); }
  }

  lemma DropAtLeast(e: Event)
    ensures ReviewDrop(e) >= 0.25 && ReviewRecovery(e) >= 0.10
  {
  }

  lemma {:induction false} ExpiryBounded(st: State, queue: seq<Event>)
    requires Bounded(st)
    ensures Bounded(ExpiryRun(st, queue))
    decreases |queue|
  {
    hide ReviewRecovery;
    if queue != [] {
      DropAtLeast(queue[0].(daysRemaining := queue[0].daysRemaining - 1));
      ExpiryBounded(ExpiryStep(st, queue[0]), queue[1..]);
    }
  }

  lemma MorningBounded(m: Setup, st: State)
    requires Bounded(st)
    ensures Bounded(MorningOf(m, st).st)
  {
    hide MorningOf;
    MorningFrame(m, st);
  }

  lemma PreparedBounded(m: Setup, st: State)
    requires m.catalog != [] && Bounded(st)
    ensures Bounded(Prepared(m, st).st)
  {
    hide MorningOf, EvolvedFrom, OrdersRun, Injected;
    MorningBounded(m, st);
    var morning := MorningOf(m, st).st;
    EvolveFrame(m, morning, 0);
    var evolved := EvolvedFrom(m, morning, 0);
    GeneratedFrame(m, evolved);
    InjectionBounded(m, Generated(m, evolved).st);
  }

  lemma DayBounded(m: Setup, st: State, plan: Plan)
    requires m.catalog != [] && Bounded(st)
    ensures Bounded(RunDay(m, st, plan).st)
  {
    hide Prepared, PerformAll, ExpiryRun, MultiplierFor, Actions;
    PreparedBounded(m, st);
    var d := Prepared(m, st);
    TradingBounded(m, Opened(m, d.st, |d.orders|, d.adj), Actions(plan, d.orders));
    var closed := Applied(m, d.st, plan, d.orders, d.adj).st;
    assert Bounded(closed);
    ExpiryBounded(closed.(events := []), closed.events);
  }

  /** Main result: on every day of any run ratings stay between one and five stars, advertising never more than
      doubles demand, and no backlog is negative. */
  lemma {:induction false} RunBounded(m: Setup, st: State, plans: seq<Plan>, days: nat)
    requires m.catalog != [] && Bounded(st) && days <= |plans|
    ensures Bounded(StateAfter(m, st, plans, days))
    decreases days
  {
    hide RunDay, Bounded;
    if days > 0 {
      RunBounded(m, st, plans, days - 1);
      DayBounded(m, StateAfter(m, st, plans, days - 1), plans[days - 1]);
    }
  }

  predicate SameBoost(before: map<Sku, Product>, after: map<Sku, Product>) {
    && after.Keys == before.Keys
    && forall sku <- before.Keys :: after[sku].adBoost == before[sku].adBoost
  }

  lemma ActionKeepsBoost(m: Setup, x: Evening, a: Action)
    ensures SameBoost(x.st.products, Perform(m, x, a).st.products)
  {
    hide Sold, TicketsResolved, SelectSupplier;
    if a.Sell? { SaleFrame(m, x, a.order, a.accepted); }
  }

  lemma {:induction false} TradingKeepsBoost(m: Setup, x: Evening, actions: seq<Action>)
    ensures SameBoost(x.st.products, PerformAll(m, x, actions).st.products)
    decreases |actions|
  {
    hide Perform;
    if actions != [] {
      ActionKeepsBoost(m, x, actions[0]);
      TradingKeepsBoost(m, Perform(m, x, actions[0]), actions[1..]);
    }
  }

  lemma {:induction false} ExpiryKeepsBoost(st: State, queue: seq<Event>)
    ensures SameBoost(st.products, ExpiryRun(st, queue).products)
    decreases |queue|
  {
    hide ReviewRecovery;
    if queue != [] { ExpiryKeepsBoost(ExpiryStep(st, queue[0]), queue[1..]); }
  }

  /** Main result: the boost a day trades under is the one scheduled by the evening before, and nothing done on the
      day itself, advertising included, changes it. */
  lemma AdvertsActTomorrow(m: Setup, st: State, plan: Plan)
    requires m.catalog != []
    ensures var (d, e) := (Prepared(m, st).st, RunDay(m, st, plan).st);
            && d.products.Keys == e.products.Keys == st.products.Keys
            && forall sku <- st.products.Keys ::
                 d.products[sku].adBoost == e.products[sku].adBoost == MaxReal(0.2, st.products[sku].nextAdBoost)
  {
    hide Prepared, Applied, EventsUpdated;
    BoostScheduled(m, st);
    var d := Prepared(m, st);
    TradingDayKeepsBoost(m, d.st, plan, d.orders, d.adj);
    EventsKeepBoost(Applied(m, d.st, plan, d.orders, d.adj).st);
  }

  lemma TradingDayKeepsBoost(m: Setup, st: State, plan: Plan, orders: seq<Order>, adj: Adjustments)
    ensures SameBoost(st.products, Applied(m, st, plan, orders, adj).st.products)
  {
    hide PerformAll, Actions;
    TradingKeepsBoost(m, Opened(m, st, |orders|, adj), Actions(plan, orders));
  }

  lemma EventsKeepBoost(st: State)
    ensures SameBoost(st.products, EventsUpdated(st).products)
  {
    hide ExpiryRun, MultiplierFor;
    ExpiryKeepsBoost(st.(events := []), st.events);
  }

  lemma BoostScheduled(m: Setup, st: State)
    requires m.catalog != []
    ensures var d := Prepared(m, st).st;
            && d.products.Keys == st.products.Keys
            && forall sku <- st.products.Keys :: d.products[sku].adBoost == MaxReal(0.2, st.products[sku].nextAdBoost)
  {
    hide MorningOf, EvolvedFrom, OrdersRun, DrawnEvent, MultiplierFor, ShockedPrice, ReviewDrop;
    MorningFrame(m, st);
    var morning := MorningOf(m, st).st;
    EvolveFrame(m, morning, 0);
    var evolved := EvolvedFrom(m, morning, 0);
    GeneratedFrame(m, evolved);
    var batch := Generated(m, evolved);
    assert batch.st.products == RolledForward(evolved.products);
  }
}
