/** However many deliveries blend into it, a product's cost stays within its opening cost and its quotes. */
module CostBasis {
  import opened Market
  import opened SupplyChain
  import opened ReturnsDesk
  import opened Trading
  import opened DayCycle

  predicate Quoted(m: Setup, sku: Sku, low: int, high: int) {
    forall offer <- SuppliersOf(m, sku) :: low <= offer.unitCost <= high
  }

  predicate PendingWithin(inbound: seq<Inbound>, sku: Sku, low: int, high: int) {
    forall po <- inbound :: po.sku == sku ==> low <= po.unitCost <= high
  }

  /** The product's cost, and the unit cost of every order of it still under way, lie in the interval. */
  predicate Spanned(st: State, sku: Sku, low: int, high: int) {
    && sku in st.products && low <= st.products[sku].cost <= high
    && PendingWithin(st.inbound, sku, low, high)
  }

  lemma StepKeepsSpan(m: Setup, st: State, po: Inbound, sku: Sku, low: int, high: int)
    requires Spanned(st, sku, low, high) && (po.sku == sku ==> low <= po.unitCost <= high)
    ensures Spanned(InboundStep(m, st, po), sku, low, high)
  {
    hide SlipOf, DeliveredQty, Blend;
    if po.sku == sku { BlendBetween(st.products[sku].cost, po.unitCost, low, high); }
  }

  lemma {:induction false} DeliveriesKeepSpan(m: Setup, st: State, queue: seq<Inbound>, sku: Sku, low: int, high: int)
    requires Spanned(st, sku, low, high) && PendingWithin(queue, sku, low, high)
    ensures Spanned(InboundRun(m, st, queue), sku, low, high)
    decreases |queue|
  {
    hide InboundStep;
    if queue != [] {
      assert queue[0] in queue && forall po <- queue[1..] :: po in queue;
      StepKeepsSpan(m, st, queue[0], sku, low, high);
      DeliveriesKeepSpan(m, InboundStep(m, st, queue[0]), queue[1..], sku, low, high);
    }
  }

  lemma {:induction false} RefundsKeepCost(m: Setup, x: Morning, queue: seq<Return>, sku: Sku)
    requires sku in x.st.products
    ensures var r := ReturnRun(m, x, queue).st; sku in r.products && r.products[sku].cost == x.st.products[sku].cost
    decreases |queue|
  {
    if queue != [] {
      hide RecoveredUnits, DamagedUnits, SalvageValue;
      RefundsKeepCost(m, ReturnStep(m, x, queue[0]), queue[1..], sku);
    }
  }

  lemma ProcurementKeepsSpan(m: Setup, x: Evening, supply: Supply, sku: Sku, low: int, high: int)
    requires Quoted(m, sku, low, high) && Spanned(x.st, sku, low, high)
    ensures Spanned(Supplied(m, x, supply).st, sku, low, high)
  {
    SelectedIsOffered(m, supply.sku, supply.supplier);
    hide SelectSupplier;
  }

  lemma ActionKeepsSpan(m: Setup, x: Evening, a: Action, sku: Sku, low: int, high: int)
    requires Quoted(m, sku, low, high) && Spanned(x.st, sku, low, high)
    ensures Spanned(Perform(m, x, a).st, sku, low, high)
  {
    hide Supplied, Sold, TicketsResolved;
    if a.Sell? { SaleFrame(m, x, a.order, a.accepted); }
    if a.Procure? { ProcurementKeepsSpan(m, x, a.supply, sku, low, high); }
  }

  lemma {:induction false} TradingKeepsSpan(m: Setup, x: Evening, actions: seq<Action>, sku: Sku, low: int, high: int)
    requires Quoted(m, sku, low, high) && Spanned(x.st, sku, low, high)
    ensures Spanned(PerformAll(m, x, actions).st, sku, low, high)
    decreases |actions|
  {
    hide Perform;
    if actions != [] {
      ActionKeepsSpan(m, x, actions[0], sku, low, high);
      TradingKeepsSpan(m, Perform(m, x, actions[0]), actions[1..], sku, low, high);
    }
  }

  lemma MorningKeepsSpan(m: Setup, st: State, sku: Sku, low: int, high: int)
    requires Spanned(st, sku, low, high)
    ensures Spanned(MorningOf(m, st).st, sku, low, high)
  {
    hide InboundRun, ReturnRun;
    var dawn := st.(day := st.day + 1);
    DeliveriesKeepSpan(m, dawn.(inbound := []), dawn.inbound, sku, low, high);
    var landed := InboundMorning(m, dawn);
    var start := Morning(landed.(openReturns := []), Adjustments(0, 0, 0));
    ReturnFrame(m, start, landed.openReturns);
    RefundsKeepCost(m, start, landed.openReturns, sku);
  }

  lemma DayKeepsSpan(m: Setup, st: State, plan: Plan, sku: Sku, low: int, high: int)
    requires m.catalog != [] && Quoted(m, sku, low, high) && Spanned(st, sku, low, high)
    ensures Spanned(RunDay(m, st, plan).st, sku, low, high)
  {
    hide MorningOf, Prepared, RunDay, PerformAll;
    MorningKeepsSpan(m, st, sku, low, high);
    MarketOpens(m, st);
    var d := Prepared(m, st);
    TradingKeepsSpan(m, Opened(m, d.st, |d.orders|, d.adj), Actions(plan, d.orders), sku, low, high);
    EveningCloses(m, st, plan);
  }

  /** Main result: any interval that holds a product's opening cost and its supplier quotes holds its cost after
      every day of every run. */
  lemma {:induction false} RunKeepsSpan(m: Setup, st: State, plans: seq<Plan>, days: nat, sku: Sku, low: int, high: int)
    requires m.catalog != [] && days <= |plans|
    requires Quoted(m, sku, low, high) && Spanned(st, sku, low, high)
    ensures Spanned(StateAfter(m, st, plans, days), sku, low, high)
    decreases days
  {
    hide RunDay;
    if days > 0 {
      RunKeepsSpan(m, st, plans, days - 1, sku, low, high);
      DayKeepsSpan(m, StateAfter(m, st, plans, days - 1), plans[days - 1], sku, low, high);
    }
  }
}
