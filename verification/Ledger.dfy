/** A run's saved figures against what happened in it: its totals against its days, its sales and its returns. */
module Ledger {
  import opened Numbers
  import opened Market
  import opened SupplyChain
  import opened ReturnsDesk
  import opened Trading
  import opened DayCycle
  import opened Books
  import opened Liabilities
  import opened Deliveries
  import opened Effects
  import opened Json
  import opened Decisions
  import opened Replay
  import opened Benchmark

  /** The figures a run reports both day by day and in total. */
  datatype Figure = Fulfilled | Stockouts | Revenue | AdSpend | ReturnsProcessed | RefundsPaid | Salvage

  function OfDay(res: Results, figure: Figure): int {
    match figure
    case Fulfilled => res.fulfilled
    case Stockouts => res.stockouts
    case Revenue => res.revenue
    case AdSpend => res.adSpend
    case ReturnsProcessed => res.returnsProcessed
    case RefundsPaid => res.refundsPaid
    case Salvage => res.salvage
  }

  function InTotal(totals: Totals, figure: Figure): int {
    match figure
    case Fulfilled => totals.fulfilled
    case Stockouts => totals.stockouts
    case Revenue => totals.revenue
    case AdSpend => totals.adSpend
    case ReturnsProcessed => totals.returnsProcessed
    case RefundsPaid => totals.refundsPaid
    case Salvage => totals.salvage
  }

  /** Trading leaves the morning's adjustments in the results as they were booked. */
  predicate SameAdjustments(x: Results, y: Results) {
    y.returnsProcessed == x.returnsProcessed && y.refundsPaid == x.refundsPaid && y.salvage == x.salvage
  }

  lemma SaleKeepsAdjustments(m: Setup, x: Evening, order: Order, accepted: bool)
    ensures SameAdjustments(x.res, Sold(m, x, order, accepted).res)
  {
    hide Flagged, Fees, Attributed;
  }

  lemma PerformKeepsAdjustments(m: Setup, x: Evening, a: Action)
    ensures SameAdjustments(x.res, Perform(m, x, a).res)
  {
    hide Sold, SelectSupplier, TicketsResolved;
    if a.Sell? { SaleKeepsAdjustments(m, x, a.order, a.accepted); }
  }

  lemma {:induction false} TradingKeepsAdjustments(m: Setup, x: Evening, actions: seq<Action>)
    ensures SameAdjustments(x.res, PerformAll(m, x, actions).res)
    decreases |actions|
  {
    hide Perform;
    if actions != [] {
      PerformKeepsAdjustments(m, x, actions[0]);
      TradingKeepsAdjustments(m, Perform(m, x, actions[0]), actions[1..]);
    }
  }

  lemma MorningReported(m: Setup, st: State)
    ensures var (x, before) := (MorningOf(m, st), st.totals);
            && x.st.totals.stockouts == before.stockouts
            && x.st.totals.returnsProcessed == before.returnsProcessed + x.adj.processed
  {
    hide InboundRun, ReturnRun;
    MorningFrame(m, st);
    var dawn := st.(day := st.day + 1);
    InboundFrame(m, dawn.(inbound := []), dawn.inbound);
    var landed := InboundMorning(m, dawn);
    RefundsReported(m, Morning(landed.(openReturns := []), Adjustments(0, 0, 0)), landed.openReturns);
  }

  lemma DayGains(m: Setup, st: State, plan: Plan)
    requires m.catalog != []
    ensures forall figure :: InTotal(RunDay(m, st, plan).st.totals, figure)
                             == InTotal(st.totals, figure) + OfDay(RunDay(m, st, plan).res, figure)
  {
    hide MorningOf, Prepared, PerformAll, Takings, Actions;
    MorningKeepsBooks(m, st);
    MorningReported(m, st);
    MarketOpens(m, st);
    var desk := Prepared(m, st);
    var start := Opened(m, desk.st, |desk.orders|, desk.adj);
    var actions := Actions(plan, desk.orders);
    TradingKeepsBooks(m, start, actions);
    TradingKeepsAdjustments(m, start, actions);
    var traded := PerformAll(m, start, actions);
    EventsUpdatedFrame(BooksClosed(traded.(st := Decayed(traded.st))).st);
  }

  /** The sum of one of the daily figures over the first days of a run. */
  function OverDays(m: Setup, st: State, plans: seq<Plan>, days: nat, figure: Figure): int
    requires m.catalog != [] && days <= |plans|
  {
    if days == 0 then 0
    else OverDays(m, st, plans, days - 1, figure) + OfDay(EveningOf(m, st, plans, days - 1).res, figure)
  }

  /** Main result: every cumulative total is the sum of the daily results. */
  lemma {:induction false} DaysAddUp(m: Setup, st: State, plans: seq<Plan>, days: nat, figure: Figure)
    requires m.catalog != [] && Opening(m, st) && days <= |plans|
    ensures InTotal(StateAfter(m, st, plans, days).totals, figure) == OverDays(m, st, plans, days, figure)
    decreases days
  {
    hide RunDay;
    if days > 0 {
      DaysAddUp(m, st, plans, days - 1, figure);
      DayGains(m, StateAfter(m, st, plans, days - 1), plans[days - 1]);
    }
  }

  /** The key a figure has among a day's results, and among the final ones. */
  function DayKey(figure: Figure): string {
    match figure
    case Fulfilled => "fulfilled"
    case Stockouts => "stockouts"
    case Revenue => "revenue"
    case AdSpend => "ad_spend"
    case ReturnsProcessed => "returns_processed"
    case RefundsPaid => "refunds_paid"
    case Salvage => "salvage_recovered"
  }

  function TotalKey(figure: Figure): string {
    match figure
    case Fulfilled => "orders_fulfilled"
    case Stockouts => "stockouts"
    case Revenue => "total_revenue"
    case AdSpend => "total_ad_spend"
    case ReturnsProcessed => "returns_processed"
    case RefundsPaid => "refunds_paid"
    case Salvage => "salvage_recovered"
  }

  /** Counts are saved as they are, money in dollars. */
  function InFile(figure: Figure, n: int): real {
    if figure.Fulfilled? || figure.Stockouts? || figure.ReturnsProcessed? then n as real else InDollars(n)
  }

  lemma TotalRead(m: Setup, st: State, figure: Figure)
    ensures Number(FinalResults(m, st), TotalKey(figure)) == InFile(figure, InTotal(st.totals, figure))
  {
    hide Number, Roi, EquityProfit, Equity, StartingEquity, Profit, InventoryOf, BacklogTotal, Exposure;
    match figure
    case Fulfilled => FinalAt(m, st, 11);
    case Stockouts => FinalAt(m, st, 12);
    case Revenue => FinalAt(m, st, 6);
    case AdSpend => FinalAt(m, st, 13);
    case ReturnsProcessed => FinalAt(m, st, 14);
    case RefundsPaid => FinalAt(m, st, 15);
    case Salvage => FinalAt(m, st, 16);
  }

  lemma DayKeysPlaced(res: Results)
    ensures var s := DayResults(res);
            && |s| == 14
            && |s[0].key| == 7 && |s[1].key| == 6 && |s[2].key| == 9 && |s[3].key| == 9 && |s[4].key| == 8
            && |s[5].key| == 21 && |s[6].key| == 22 && |s[7].key| == 24 && |s[8].key| == 16 && |s[9].key| == 23
            && |s[10].key| == 20 && |s[11].key| == 17 && |s[12].key| == 12 && |s[13].key| == 17
            && s[2].key[0] == 'f' && s[3].key[0] == 's' && s[11].key[0] == 'r' && s[13].key[0] == 's'
  {
  }

  lemma DayAt(res: Results, i: nat)
    requires i < 14
    ensures var field := DayResults(res)[i];
            Numeric(field.value) ==> Number(DayResults(res), field.key) == AsReal(field.value)
  {
    DayKeysPlaced(res);
    hide DayResults, Get;
    FirstFound(DayResults(res), i);
  }

  lemma DayRead(res: Results, figure: Figure)
    ensures Number(DayResults(res), DayKey(figure)) == InFile(figure, OfDay(res, figure))
  {
    hide Number;
    match figure
    case Fulfilled => DayAt(res, 2);
    case Stockouts => DayAt(res, 3);
    case Revenue => DayAt(res, 0);
    case AdSpend => DayAt(res, 4);
    case ReturnsProcessed => DayAt(res, 11);
    case RefundsPaid => DayAt(res, 12);
    case Salvage => DayAt(res, 13);
  }

  /** One figure of a saved day. */
  function EntryFigure(entry: Json, key: string): real { Number(FieldsOf(Get(FieldsOf(entry), "results", Null)), key) }

  function EntriesTotal(entries: seq<Json>, key: string): real {
    if entries == [] then 0.0
    else EntriesTotal(entries[..|entries| - 1], key) + EntryFigure(entries[|entries| - 1], key)
  }

  lemma {:induction false} EntriesAddUp(m: Setup, st: State, plans: seq<Plan>, decisions: seq<Json>, k: nat,
                                        figure: Figure)
    requires m.catalog != [] && |plans| == |decisions| && k <= |decisions|
    ensures EntriesTotal(Entries(m, st, plans, decisions)[..k], DayKey(figure))
            == InFile(figure, OverDays(m, st, plans, k, figure))
    decreases k
  {
    hide EntryFigure, Entry, EveningOf, DayKey, OfDay, InFile;
    var entries := Entries(m, st, plans, decisions);
    if k > 0 {
      EntriesAddUp(m, st, plans, decisions, k - 1, figure);
      assert entries[..k][..k - 1] == entries[..k - 1];
      var res := EveningOf(m, st, plans, k - 1).res;
      EntryRead(k, decisions[k - 1], res, figure);
      FiguresJoin(figure, OverDays(m, st, plans, k - 1, figure), OfDay(res, figure));
    } else {
      FiguresJoin(figure, 0, 0);
    }
  }

  lemma EntryRead(day: int, decision: Json, res: Results, figure: Figure)
    ensures EntryFigure(Entry(day, decision, res), DayKey(figure)) == InFile(figure, OfDay(res, figure))
  {
    hide Get, Number, DayResults, DayActions, DayKey, OfDay;
    EntryParts(day, decision, res, Null);
    DayRead(res, figure);
  }

  lemma FiguresJoin(figure: Figure, a: int, b: int)
    ensures InFile(figure, a + b) == InFile(figure, a) + InFile(figure, b) && InFile(figure, 0) == 0.0
  {
  }

  /** Main result: read from a run's own saved file, the figures of its days add up to its final ones. */
  lemma FileAddsUp(m: Setup, st: State, rd: Reader, s: Session, decisions: seq<Json>, figure: Figure)
    requires m.catalog != [] && Opening(m, st)
    ensures var file := Saved(m, st, rd, s, decisions);
            var entries := Get(file, "decisions", Null);
            && entries.List?
            && EntriesTotal(entries.items, DayKey(figure))
               == Number(FieldsOf(Get(file, "results", Null)), TotalKey(figure))
  {
    hide Saved, Get, Number, StateAfter, EveningOf, ReadPlan, Entries, FinalResults, Opening, EntriesTotal, DayKey,
         TotalKey, InTotal, OverDays;
    var plans := Plans(rd, decisions);
    SavedParts(m, st, rd, s, decisions, Null);
    DaysAddUp(m, st, plans, |plans|, figure);
    EntriesAddUp(m, st, plans, decisions, |decisions|, figure);
    EntriesWhole(m, st, plans, decisions);
    TotalRead(m, StateAfter(m, st, plans, |plans|), figure);
  }

  lemma EntriesWhole(m: Setup, st: State, plans: seq<Plan>, decisions: seq<Json>)
    requires m.catalog != [] && |plans| == |decisions|
    ensures Entries(m, st, plans, decisions)[..|decisions|] == Entries(m, st, plans, decisions)
  {
  }

  /** Main result: a run's final figures account for its sales and returns. Revenue is what the orders on record were
      sold for, less refunds, plus salvage; refunds paid and refunds still owed make up those flagged, and returns
      processed and returns still to be reconciled make up those flagged. */
  lemma FileAccounts(m: Setup, st: State, plans: seq<Plan>)
    requires m.catalog != [] && Opening(m, st)
    ensures var x := StateAfter(m, st, plans, |plans|);
            var r := FinalResults(m, x);
            && Number(r, "total_revenue") == InDollars(Takings(x.history.sales)) - Number(r, "refunds_paid")
                                             + Number(r, "salvage_recovered")
            && Number(r, "orders_fulfilled") == |x.history.sales| as real
            && Number(r, "refunds_paid") + Number(r, "pending_refund_exposure") == InDollars(x.history.refundsFlagged)
            && Number(r, "returns_processed") + Unreconciled(x.openReturns) as real == x.history.returnsFlagged as real
            && Number(r, "pending_returns_open") == |x.openReturns| as real
  {
    hide StateAfter, Number, FinalResults, Takings, Exposure, Unreconciled, Opening, Accounted, Balanced, ViewOf;
    OpeningBalanced(m, st);
    RunKeepsBooks(m, st, plans, |plans|);
    RunKeepsAccounts(m, st, plans, |plans|);
    FiguresAccount(m, StateAfter(m, st, plans, |plans|));
  }

  lemma FiguresAccount(m: Setup, x: State)
    requires Balanced(x) && Accounted(m, ViewOf(x, x.openReturns))
    ensures var r := FinalResults(m, x);
            && Number(r, "total_revenue") == InDollars(Takings(x.history.sales)) - Number(r, "refunds_paid")
                                             + Number(r, "salvage_recovered")
            && Number(r, "orders_fulfilled") == |x.history.sales| as real
            && Number(r, "refunds_paid") + Number(r, "pending_refund_exposure") == InDollars(x.history.refundsFlagged)
            && Number(r, "returns_processed") + Unreconciled(x.openReturns) as real == x.history.returnsFlagged as real
            && Number(r, "pending_returns_open") == |x.openReturns| as real
  {
    hide Number, FinalResults, Takings, Exposure, Unreconciled, Balanced, Accounted;
    TotalsExplained(m, x);
    TotalsRead(m, x);
    OpenRead(m, x);
  }

  lemma TotalsRead(m: Setup, x: State)
    ensures var r := FinalResults(m, x);
            && Number(r, "total_revenue") == InDollars(x.totals.revenue)
            && Number(r, "refunds_paid") == InDollars(x.totals.refundsPaid)
            && Number(r, "salvage_recovered") == InDollars(x.totals.salvage)
            && Number(r, "orders_fulfilled") == x.totals.fulfilled as real
            && Number(r, "returns_processed") == x.totals.returnsProcessed as real
            && Number(r, "pending_refund_exposure") == InDollars(Exposure(x.openReturns))
  {
    hide Number, FinalResults, Exposure, InventoryOf, Roi, Equity, EquityProfit;
    TotalRead(m, x, Revenue);
    TotalRead(m, x, RefundsPaid);
    TotalRead(m, x, Salvage);
    TotalRead(m, x, Fulfilled);
    TotalRead(m, x, ReturnsProcessed);
    FinalNumbers(m, x);
  }

  lemma TotalsExplained(m: Setup, x: State)
    requires Balanced(x) && Accounted(m, ViewOf(x, x.openReturns))
    ensures x.totals.revenue == Takings(x.history.sales) - x.totals.refundsPaid + x.totals.salvage
    ensures x.totals.fulfilled == |x.history.sales|
    ensures x.totals.refundsPaid + Exposure(x.openReturns) == x.history.refundsFlagged
    ensures x.totals.returnsProcessed + Unreconciled(x.openReturns) == x.history.returnsFlagged
  {
  }

  lemma OpenRead(m: Setup, st: State)
    ensures Number(FinalResults(m, st), "pending_returns_open") == |st.openReturns| as real
  {
    hide Number, Roi, EquityProfit, Equity, StartingEquity, Profit, InventoryOf, BacklogTotal, Exposure;
    FinalAt(m, st, 21);
  }

  /** A saved day shows every figure of its evening under its own key. */
  lemma DayShown(res: Results)
    ensures var r := DayResults(res);
            && Number(r, "revenue") == InDollars(res.revenue) && Number(r, "profit") == InDollars(res.profit)
            && Number(r, "fulfilled") == res.fulfilled as real && Number(r, "stockouts") == res.stockouts as real
            && Number(r, "ad_spend") == InDollars(res.adSpend)
            && Number(r, "ad_attributed_revenue") == InDollars(res.adAttributed)
            && Number(r, "supplier_orders_placed") == res.supplierOrders as real
            && Number(r, "service_tickets_resolved") == res.tickets as real
            && Number(r, "fulfillment_fees") == InDollars(res.fulfillmentFees)
            && Number(r, "payment_processing_fees") == InDollars(res.processingFees)
            && Number(r, "fixed_operating_cost") == InDollars(res.fixedCost)
            && Number(r, "returns_processed") == res.returnsProcessed as real
            && Number(r, "refunds_paid") == InDollars(res.refundsPaid)
            && Number(r, "salvage_recovered") == InDollars(res.salvage)
  {
    hide Number;
    for i := 0 to 14
      invariant forall k :: 0 <= k < i ==>
        var field := DayResults(res)[k];
        Numeric(field.value) ==> Number(DayResults(res), field.key) == AsReal(field.value)
    {
      DayAt(res, i);
    }
    var s := DayResults(res);
    assert s[0].key == "revenue" && s[1].key == "profit" && s[2].key == "fulfilled" && s[3].key == "stockouts";
    assert s[4].key == "ad_spend" && s[5].key == "ad_attributed_revenue" && s[6].key == "supplier_orders_placed";
    assert s[7].key == "service_tickets_resolved" && s[8].key == "fulfillment_fees";
    assert s[9].key == "payment_processing_fees" && s[10].key == "fixed_operating_cost";
    assert s[11].key == "returns_processed" && s[12].key == "refunds_paid" && s[13].key == "salvage_recovered";
  }

  /** Changing one product's backlog moves the open backlog by exactly that. */
  lemma {:induction false} BacklogMoves(catalog: seq<Sku>, backlog: map<Sku, int>, sku: Sku, waiting: int)
    requires Distinct(catalog)
    ensures BacklogTotal(catalog, backlog[sku := waiting])
            == BacklogTotal(catalog, backlog) + if sku in catalog then waiting - BacklogOf(backlog, sku) else 0
  {
    if catalog != [] {
      var (front, last) := (catalog[..|catalog| - 1], catalog[|catalog| - 1]);
      assert catalog == front + [last];
      BacklogMoves(front, backlog, sku, waiting);
      if last == sku { assert sku !in front; }
    }
  }

  /** The open backlog of a saved file falls by one for every ticket of a listed product that is served. */
  lemma ServiceLowersBacklog(m: Setup, x: Evening, service: Service)
    requires Distinct(m.catalog) && service.sku in m.catalog
    ensures var y := Served(x, service);
            Number(FinalResults(m, y.st), "open_customer_backlog")
            == Number(FinalResults(m, x.st), "open_customer_backlog") - (y.res.tickets - x.res.tickets) as real
  {
    BacklogRead(m, x.st);
    BacklogRead(m, Served(x, service).st);
    hide Number, FinalResults, BacklogTotal;
    ServedBacklog(m, x, service);
  }

  lemma ServedBacklog(m: Setup, x: Evening, service: Service)
    requires Distinct(m.catalog) && service.sku in m.catalog
    ensures var y := Served(x, service);
            BacklogTotal(m.catalog, y.st.backlog)
            == BacklogTotal(m.catalog, x.st.backlog) - (y.res.tickets - x.res.tickets)
  {
    ServiceRelieves(m, x, service);
    var y := Served(x, service);
    BacklogMoves(m.catalog, x.st.backlog, service.sku, BacklogOf(y.st.backlog, service.sku));
    SameBacklog(m.catalog, x.st.backlog[service.sku := BacklogOf(y.st.backlog, service.sku)], y.st.backlog);
  }

  lemma {:induction false} SameBacklog(catalog: seq<Sku>, a: map<Sku, int>, b: map<Sku, int>)
    requires forall sku :: BacklogOf(a, sku) == BacklogOf(b, sku)
    ensures BacklogTotal(catalog, a) == BacklogTotal(catalog, b)
  {
    if catalog != [] { SameBacklog(catalog[..|catalog| - 1], a, b); }
  }

  lemma BacklogRead(m: Setup, st: State)
    ensures Number(FinalResults(m, st), "open_customer_backlog") == BacklogTotal(m.catalog, st.backlog) as real
  {
    hide Number, Roi, EquityProfit, Equity, StartingEquity, Profit, InventoryOf, BacklogTotal, Exposure;
    FinalAt(m, st, 19);
  }

  /** Delays on file are those of all orders, pending and arrived. */
  lemma DelaysOnFile(m: Setup, st: State, plans: seq<Plan>)
    requires m.catalog != [] && Opening(m, st)
    ensures var x := StateAfter(m, st, plans, |plans|);
            var r := FinalResults(m, x);
            && Number(r, "supplier_delay_days")
               == (ArrivedDelay(x.history.arrivals) + PendingDelay(x.inbound)) as real
            && 0.0 <= Number(r, "supplier_delay_events") <= Number(r, "supplier_delay_days")
  {
    hide StateAfter, Number, FinalResults;
    RunKeepsTracking(m, st, plans, |plans|);
    DelaysRead(m, StateAfter(m, st, plans, |plans|));
  }

  lemma DelaysRead(m: Setup, st: State)
    ensures Number(FinalResults(m, st), "supplier_delay_days") == st.totals.delayDays as real
    ensures Number(FinalResults(m, st), "supplier_delay_events") == st.totals.delayEvents as real
  {
    hide Number, Roi, EquityProfit, Equity, StartingEquity, Profit, InventoryOf, BacklogTotal, Exposure;
    FinalAt(m, st, 17);
    FinalAt(m, st, 18);
  }
}
