/** Saving a run and replaying it: the same states every day, and a payload the comparison always accepts. */
module Replay {
  import opened Market
  import opened Trading
  import opened DayCycle
  import opened Json
  import opened Decisions
  import opened ReplayFile
  import opened Comparator

  function Plans(rd: Reader, decisions: seq<Json>): seq<Plan> {
    seq(|decisions|, i requires 0 <= i < |decisions| => ReadPlan(rd, decisions[i]))
  }

  function Dollars(cents: int): Json { Float(cents as real / 100.0) }

  function DollarSeries(cents: seq<int>): Json {
    List(seq(|cents|, i requires 0 <= i < |cents| => Dollars(cents[i])))
  }

  function Roi(m: Setup, st: State): real {
    var baseline := if StartingEquity(st) > 0 then StartingEquity(st) else 100;
    (Equity(m, st) - baseline) as real / baseline as real * 100.0
  }

  function BacklogTotal(catalog: seq<Sku>, backlog: map<Sku, int>): int {
    if catalog == [] then 0
    else BacklogTotal(catalog[..|catalog| - 1], backlog) + BacklogOf(backlog, catalog[|catalog| - 1])
  }

  /** The figures of a finished run. */
  function FinalResults(m: Setup, st: State): seq<Field> {
    [ Field("starting_capital", Dollars(st.startingCapital)),
      Field("starting_inventory_value", Dollars(st.startingInventory)),
      Field("starting_equity", Dollars(StartingEquity(st))),
      Field("final_capital", Dollars(st.capital)),
      Field("final_inventory_value", Dollars(InventoryOf(m.catalog, st.products))),
      Field("final_equity", Dollars(Equity(m, st))),
      Field("total_revenue", Dollars(st.totals.revenue)),
      Field("total_costs", Dollars(st.totals.costs)),
      Field("net_profit", Dollars(Profit(st))),
      Field("equity_profit", Dollars(EquityProfit(m, st))),
      Field("roi_percent", Float(Roi(m, st))),
      Field("orders_fulfilled", Int(st.totals.fulfilled)),
      Field("stockouts", Int(st.totals.stockouts)),
      Field("total_ad_spend", Dollars(st.totals.adSpend)),
      Field("returns_processed", Int(st.totals.returnsProcessed)),
      Field("refunds_paid", Dollars(st.totals.refundsPaid)),
      Field("salvage_recovered", Dollars(st.totals.salvage)),
      Field("supplier_delay_events", Int(st.totals.delayEvents)),
      Field("supplier_delay_days", Int(st.totals.delayDays)),
      Field("open_customer_backlog", Int(BacklogTotal(m.catalog, st.backlog))),
      Field("pending_refund_exposure", Dollars(Exposure(st.openReturns))),
      Field("pending_returns_open", Int(|st.openReturns|)) ]
  }

  function DailyPerformance(st: State): seq<Field> {
    [ Field("revenue", DollarSeries(st.series.revenue)),
      Field("costs", DollarSeries(st.series.costs)),
      Field("profit", DollarSeries(st.series.profit)),
      Field("ad_spend", DollarSeries(st.series.adSpend)),
      Field("ad_attributed_revenue", DollarSeries(st.series.adAttributed)) ]
  }

  function DayResults(res: Results): seq<Field> {
    [ Field("revenue", Dollars(res.revenue)),
      Field("profit", Dollars(res.profit)),
      Field("fulfilled", Int(res.fulfilled)),
      Field("stockouts", Int(res.stockouts)),
      Field("ad_spend", Dollars(res.adSpend)),
      Field("ad_attributed_revenue", Dollars(res.adAttributed)),
      Field("supplier_orders_placed", Int(res.supplierOrders)),
      Field("service_tickets_resolved", Int(res.tickets)),
      Field("fulfillment_fees", Dollars(res.fulfillmentFees)),
      Field("payment_processing_fees", Dollars(res.processingFees)),
      Field("fixed_operating_cost", Dollars(res.fixedCost)),
      Field("returns_processed", Int(res.returnsProcessed)),
      Field("refunds_paid", Dollars(res.refundsPaid)),
      Field("salvage_recovered", Dollars(res.salvage)) ]
  }

  function ActionCount(j: Json): Json { Int(if j.Obj? then |j.fields| else if j.List? then |j.items| else 0) }

  /** How many actions of each kind a decision asks for. */
  function DayActions(decision: Json): seq<Field> {
    var d := FieldsOf(decision);
    [ Field("accept_all_orders", Bool(Truthy(Get(d, "accept_all_orders", Bool(false))))),
      Field("accept_skus", ActionCount(Get(d, "accept_skus", List([])))),
      Field("reject_skus", ActionCount(Get(d, "reject_skus", List([])))),
      Field("orders_accepted", ActionCount(Get(d, "accept_orders", List([])))),
      Field("price_changes", ActionCount(Get(d, "price_changes", Obj([])))),
      Field("restocks", ActionCount(Get(d, "restock", Obj([])))),
      Field("supplier_orders", ActionCount(Get(d, "supplier_orders", List([])))),
      Field("ad_budget_shifts", ActionCount(Get(d, "ad_budget_shift", Obj([])))),
      Field("customer_ops_updates", ActionCount(Get(d, "customer_ops", Obj([])))) ]
  }

  /** One saved day. The agent's free text is kept but compared by nobody. */
  function Entry(day: int, decision: Json, res: Results): Json {
    Obj([ Field("day", Int(day)),
          Field("reasoning", Get(FieldsOf(decision), "reasoning", Str(""))),
          Field("decisions_raw", Sanitize(decision)),
          Field("actions", Obj(DayActions(decision))),
          Field("results", Obj(DayResults(res))) ])
  }

  function Entries(m: Setup, st: State, plans: seq<Plan>, decisions: seq<Json>): seq<Json>
    requires m.catalog != [] && |plans| == |decisions|
  {
    seq(|decisions|, i requires 0 <= i < |decisions| =>
      Entry(i + 1, decisions[i], EveningOf(m, st, plans, i).res))
  }

  /** What a results file says about the session itself; nothing in the run depends on it. */
  datatype Session = Session(
    seed: int,
    model: Json,
    memoryMode: Json,
    reviewMode: Json,
    weekly: bool,
    realismPath: Json,
    mode: Json,
    source: Json,
    seconds: real,
    calls: int,
    reflections: int,
    tokens: int)

  function Config(s: Session, days: nat): seq<Field> {
    [ Field("days", Int(days)),
      Field("seed", Int(s.seed)),
      Field("model", s.model),
      Field("memory_mode", s.memoryMode),
      Field("memory_review_mode", s.reviewMode),
      Field("weekly_consolidation", Bool(s.weekly)),
      Field("realism_config_path", s.realismPath),
      Field("run_mode", s.mode),
      Field("replay_source", s.source) ]
  }

  function Execution(s: Session): seq<Field> {
    [ Field("time_seconds", Float(s.seconds)),
      Field("llm_calls", Int(s.calls)),
      Field("reflection_calls", Int(s.reflections)),
      Field("total_tokens", Int(s.tokens)) ]
  }

  /** The results file of a run in which the agent decided as listed. */
  function Saved(m: Setup, st: State, rd: Reader, s: Session, decisions: seq<Json>): seq<Field>
    requires m.catalog != []
  {
    var plans := Plans(rd, decisions);
    var last := StateAfter(m, st, plans, |plans|);
    [ Field("config", Obj(Config(s, |decisions|))),
      Field("execution", Obj(Execution(s))),
      Field("results", Obj(FinalResults(m, last))),
      Field("daily_performance", Obj(DailyPerformance(last))),
      Field("decisions", List(Entries(m, st, plans, decisions))) ]
  }

  lemma SavedParts(m: Setup, st: State, rd: Reader, s: Session, decisions: seq<Json>, default: Json)
    requires m.catalog != []
    ensures var saved := Saved(m, st, rd, s, decisions);
            var plans := Plans(rd, decisions);
            var last := StateAfter(m, st, plans, |plans|);
            && Get(saved, "config", default) == Obj(Config(s, |decisions|))
            && Get(saved, "execution", default) == Obj(Execution(s))
            && Get(saved, "results", default) == Obj(FinalResults(m, last))
            && Get(saved, "daily_performance", default) == Obj(DailyPerformance(last))
            && Get(saved, "decisions", default) == List(Entries(m, st, plans, decisions))
  {
    hide FinalResults, DailyPerformance, Entries, StateAfter, Get, Config, Execution;
    var saved := Saved(m, st, rd, s, decisions);
    assert |saved[0].key| == 6 && |saved[1].key| == 9 && |saved[2].key| == 7 && |saved[3].key| == 17;
    assert |saved[4].key| == 9 && saved[1].key[0] == 'e' && saved[4].key[0] == 'd';
    GetAt(saved, 0, default);
    GetAt(saved, 1, default);
    GetAt(saved, 2, default);
    GetAt(saved, 3, default);
    GetAt(saved, 4, default);
  }

  lemma EntryParts(day: int, decision: Json, res: Results, default: Json)
    ensures var fields := Entry(day, decision, res).fields;
            && Get(fields, "day", default) == Int(day)
            && Get(fields, "decisions_raw", default) == Sanitize(decision)
            && Get(fields, "actions", default) == Obj(DayActions(decision))
            && Get(fields, "results", default) == Obj(DayResults(res))
  {
    hide DayResults, DayActions, Sanitize, Get;
    var s := Entry(day, decision, res).fields;
    assert |s[0].key| == 3 && |s[1].key| == 9 && |s[2].key| == 13 && |s[3].key| == 7 && |s[4].key| == 7;
    assert s[3].key[0] == 'a' && s[4].key[0] == 'r';
    GetAt(s, 0, default);
    GetAt(s, 2, default);
    GetAt(s, 3, default);
    GetAt(s, 4, default);
  }

  lemma EntriesSave(m: Setup, st: State, plans: seq<Plan>, decisions: seq<Json>)
    requires m.catalog != [] && |plans| == |decisions|
    requires forall i :: 0 <= i < |decisions| ==> WellTyped(decisions[i])
    ensures var entries := Entries(m, st, plans, decisions);
            && |entries| == |decisions|
            && forall i :: 0 <= i < |entries| ==> decisions[i].Obj? && Saves(entries[i], i + 1, decisions[i])
  {
    hide Get, Sanitize, EveningOf;
    var entries := Entries(m, st, plans, decisions);
    forall i | 0 <= i < |entries| ensures decisions[i].Obj? && Saves(entries[i], i + 1, decisions[i]) {
      assert WellTyped(decisions[i]);
      EntryParts(i + 1, decisions[i], EveningOf(m, st, plans, i).res, Null);
    }
  }

  function Sanitized(decisions: seq<Json>): seq<Json> {
    seq(|decisions|, i requires 0 <= i < |decisions| => Sanitize(decisions[i]))
  }

  lemma LoadsSanitized(m: Setup, st: State, rd: Reader, s: Session, decisions: seq<Json>)
    requires m.catalog != [] && decisions != []
    requires forall i :: 0 <= i < |decisions| ==> WellTyped(decisions[i])
    ensures Load(Saved(m, st, rd, s, decisions)) == Ok(Sanitized(decisions))
  {
    hide Saved, Get, Sanitize, Load, Entries, Saves, WellTyped, Plans;
    var plans := Plans(rd, decisions);
    PlansCounted(rd, decisions);
    SavedParts(m, st, rd, s, decisions, List([]));
    EntriesSave(m, st, plans, decisions);
    SaveThenLoad(Saved(m, st, rd, s, decisions), Entries(m, st, plans, decisions), decisions);
  }

  lemma PlansCounted(rd: Reader, decisions: seq<Json>)
    ensures |Plans(rd, decisions)| == |decisions|
  {
  }

  lemma SamePlans(rd: Reader, decisions: seq<Json>)
    requires forall i :: 0 <= i < |decisions| ==> WellTyped(decisions[i])
    ensures Plans(rd, Sanitized(decisions)) == Plans(rd, decisions)
  {
    hide Sanitize, ReadPlan, WellTyped;
    forall i | 0 <= i < |decisions| ensures Plans(rd, Sanitized(decisions))[i] == Plans(rd, decisions)[i] {
      SanitizePreservesPlan(rd, decisions[i]);
    }
  }

  /** Main result: loading what a run saved gives a replay that reads the same plan every day, and so passes through
      the same state, random cursor included, and ends every day with the same results. */
  lemma ReplayReproducesRun(m: Setup, st: State, rd: Reader, s: Session, decisions: seq<Json>)
    requires m.catalog != [] && decisions != []
    requires forall i :: 0 <= i < |decisions| ==> WellTyped(decisions[i])
    ensures Load(Saved(m, st, rd, s, decisions)) == Ok(Sanitized(decisions))
    ensures Plans(rd, Sanitized(decisions)) == Plans(rd, decisions)
    ensures forall day :: 0 <= day < |decisions| ==>
              EveningOf(m, st, Plans(rd, Sanitized(decisions)), day) == EveningOf(m, st, Plans(rd, decisions), day)
  {
    hide Saved, Load, WellTyped, EveningOf, Sanitize, ReadPlan;
    LoadsSanitized(m, st, rd, s, decisions);
    SamePlans(rd, decisions);
  }

  /** Field values that are plain numbers. */
  predicate Plain(fields: seq<Field>) {
    forall i :: 0 <= i < |fields| ==> IsNumber(fields[i].value)
  }

  lemma PlainReflexive(c: Contract, fields: seq<Field>, key: string)
    requires Tolerant(c) && Plain(fields) && Has(fields, key)
    ensures SameAtKey(c, fields, fields, key)
  {
  }

  lemma FinalPlain(m: Setup, st: State)
    ensures Plain(FinalResults(m, st))
  {
    hide Roi, EquityProfit, Equity, InventoryOf, BacklogTotal, Exposure;
  }

  lemma DayPlain(res: Results)
    ensures Plain(DayResults(res))
  {
  }

  predicate AllNumbers(j: Json) {
    j.List? && forall i :: 0 <= i < |j.items| ==> IsNumber(j.items[i])
  }

  lemma DailyPlain(st: State)
    ensures forall i :: 0 <= i < |DailyPerformance(st)| ==> AllNumbers(DailyPerformance(st)[i].value)
  {
  }

  lemma DailyReflexive(c: Contract, fields: seq<Field>, name: string)
    requires Tolerant(c) && Has(fields, name)
    requires forall i :: 0 <= i < |fields| ==> AllNumbers(fields[i].value)
    ensures SameSeries(c, fields, fields, name)
  {
    var i :| 0 <= i < |fields| && fields[i].value == Lookup(fields, name).value;
    assert AllNumbers(fields[i].value);
  }

  lemma PartsWellFormed(j: Json)
    requires WellFormed(j)
    ensures WellFormed(List(ItemsOf(j))) && WellFormed(OrNoList(j))
    ensures j.Obj? || ObjShaped(j) ==> WellFormed(DictOf(j))
  {
    hide Truthy;
  }

  lemma ObjectWellFormed(fields: seq<Field>)
    requires DistinctKeys(fields) && forall i :: 0 <= i < |fields| ==> WellFormed(fields[i].value)
    ensures WellFormed(Obj(fields))
  {
  }

  lemma ActionableWellFormed(d: seq<Field>)
    requires WellFormed(Obj(d)) && WellTyped(Obj(d))
    ensures forall i :: 0 <= i < |Written(ActionableOf(d))| ==> WellFormed(Written(ActionableOf(d))[i].value)
  {
    hide Get, ItemsOf, DictOf, OrNoList, WellFormed, Truthy, ListShaped, ObjShaped;
    NullWellFormed();
    forall key, default | default == Obj([]) || default == List([])
      ensures WellFormed(List(ItemsOf(Get(d, key, default))))
      ensures Get(d, key, default).Obj? || ObjShaped(Get(d, key, default)) ==> WellFormed(DictOf(Get(d, key, default)))
      ensures WellFormed(OrNoList(Get(d, key, default)))
    {
      GetWellFormed(d, key, default);
      PartsWellFormed(Get(d, key, default));
    }
  }

  lemma SanitizedWellFormed(decision: Json)
    requires WellFormed(decision) && WellTyped(decision)
    ensures WellFormed(Sanitize(decision))
  {
    ActionableWellFormed(decision.fields);
    NineKeysDistinct(ActionableOf(decision.fields));
    hide WellFormed, Written, ActionableOf;
    ObjectWellFormed(Written(ActionableOf(decision.fields)));
  }

  lemma EntryAgrees(c: Contract, rd: Reader, day: int, decision: Json, res: Results)
    requires Tolerant(c) && WellTyped(decision) && WellFormed(decision)
    requires CompleteResults(c.dayKeys, Obj(DayResults(res)))
    ensures SameDecision(c, Entry(day, decision, res), Entry(day, Sanitize(decision), res))
  {
    hide Get, Sanitize, DayResults, SameAtKey, WellFormed, Equal, Plain, EveningOf;
    EntryParts(day, decision, res, Null);
    EntryParts(day, decision, res, Obj([]));
    SanitizePreservesPlan(rd, decision);
    SanitizeIdempotent(decision);
    SanitizedIsObject(decision);
    EntryParts(day, Sanitize(decision), res, Null);
    EntryParts(day, Sanitize(decision), res, Obj([]));
    SanitizedWellFormed(decision);
    EqualReflexive(Sanitize(decision));
    DayPlain(res);
    var fields := DayResults(res);
    forall i | 0 <= i < |c.dayKeys| ensures SameAtKey(c, fields, fields, c.dayKeys[i]) {
      PlainReflexive(c, fields, c.dayKeys[i]);
    }
  }

  lemma SanitizedIsObject(decision: Json)
    ensures Sanitize(decision).Obj?
  {
  }

  lemma FinalAgrees(c: Contract, m: Setup, st: State)
    requires Tolerant(c) && CompleteResults(c.results, Obj(FinalResults(m, st)))
    ensures SameResults(c, Obj(FinalResults(m, st)), Obj(FinalResults(m, st)))
  {
    hide FinalResults, SameAtKey, Plain;
    FinalPlain(m, st);
    forall i | 0 <= i < |c.results| ensures SameAtKey(c, FinalResults(m, st), FinalResults(m, st), c.results[i]) {
      PlainReflexive(c, FinalResults(m, st), c.results[i]);
    }
  }

  lemma DailyAgrees(c: Contract, st: State)
    requires Tolerant(c) && CompleteDaily(c, Obj(DailyPerformance(st)))
    ensures SameDaily(c, Obj(DailyPerformance(st)), Obj(DailyPerformance(st)))
  {
    hide DailyPerformance, SameSeries, AllNumbers;
    DailyPlain(st);
    forall i | 0 <= i < |c.series|
      ensures SameSeries(c, DailyPerformance(st), DailyPerformance(st), c.series[i])
    {
      assert Get(DailyPerformance(st), c.series[i], Null).List?;
      DailyReflexive(c, DailyPerformance(st), c.series[i]);
    }
  }

  /** Main result: whenever a run's own file has what the contract asks for, comparing it with the file its faithful
      replay saves finds no mismatch. */
  lemma FaithfulReplayPasses(m: Setup, st: State, rd: Reader, c: Contract, s: Session, t: Session, decisions: seq<Json>)
    requires m.catalog != [] && decisions != [] && Tolerant(c)
    requires forall i :: 0 <= i < |decisions| ==> WellTyped(decisions[i]) && WellFormed(decisions[i])
    requires Complete(c, Saved(m, st, rd, s, decisions))
    ensures var live := Saved(m, st, rd, s, decisions);
            Load(live) == Ok(Sanitized(decisions)) && Agree(c, live, Saved(m, st, rd, t, Sanitized(decisions)))
  {
    hide Saved, Get, Sanitize, ReadPlan, Load, StateAfter, EveningOf, WellFormed, WellTyped, Entry, FinalResults,
         DailyPerformance, SameDecision, SameResults, SameDaily, CompleteResults, CompleteDaily, DayResults;
    ReplayReproducesRun(m, st, rd, s, decisions);
    var live := Saved(m, st, rd, s, decisions);
    var loaded := Sanitized(decisions);
    var plans := Plans(rd, decisions);
    var last := StateAfter(m, st, plans, |plans|);
    SavedParts(m, st, rd, s, decisions, Obj([]));
    SavedParts(m, st, rd, s, decisions, List([]));
    SavedParts(m, st, rd, t, loaded, Obj([]));
    SavedParts(m, st, rd, t, loaded, List([]));
    FinalAgrees(c, m, last);
    DailyAgrees(c, last);
    var (mine, theirs) := (Entries(m, st, plans, decisions), Entries(m, st, plans, loaded));
    forall i | 0 <= i < |decisions| ensures SameDecision(c, mine[i], theirs[i]) {
      var res := EveningOf(m, st, plans, i).res;
      DecisionShapes(decisions[i]);
      EntryResults(i + 1, decisions[i], res);
      assert mine[i] == Entry(i + 1, decisions[i], res);
      EntryAgrees(c, rd, i + 1, decisions[i], res);
    }
  }

  lemma DecisionShapes(decision: Json)
    requires WellTyped(decision)
    ensures decision.Obj?
  {
  }

  lemma EntryResults(day: int, decision: Json, res: Results)
    ensures Entry(day, decision, res).Obj?
    ensures Get(Entry(day, decision, res).fields, "results", Obj([])) == Obj(DayResults(res))
  {
    EntryParts(day, decision, res, Obj([]));
  }
}
