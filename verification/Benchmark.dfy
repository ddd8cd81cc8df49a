/** The published benchmark contract: a run's own file always has what it asks for and meets its invariants. */
module Benchmark {
  import opened Numbers
  import opened Market
  import opened Trading
  import opened DayCycle
  import opened Books
  import opened Json
  import opened Decisions
  import opened ReplayFile
  import opened Comparator
  import opened Replay

  const ResultKeys: seq<string> := [
    "starting_capital", "starting_inventory_value", "starting_equity", "final_capital", "final_inventory_value",
    "final_equity", "total_revenue", "total_costs", "net_profit", "equity_profit", "roi_percent", "orders_fulfilled",
    "stockouts", "total_ad_spend", "returns_processed", "refunds_paid", "salvage_recovered", "supplier_delay_events",
    "supplier_delay_days", "open_customer_backlog", "pending_refund_exposure", "pending_returns_open"]

  const SeriesKeys: seq<string> := ["revenue", "costs", "profit", "ad_spend", "ad_attributed_revenue"]

  const DayKeys: seq<string> := [
    "revenue", "profit", "fulfilled", "stockouts", "ad_spend", "ad_attributed_revenue", "supplier_orders_placed",
    "service_tickets_resolved", "fulfillment_fees", "payment_processing_fees", "fixed_operating_cost",
    "returns_processed", "refunds_paid", "salvage_recovered"]

  const ActionKeys: seq<string> := [
    "accept_all_orders", "accept_skus", "reject_skus", "orders_accepted", "price_changes", "restocks",
    "supplier_orders", "ad_budget_shifts", "customer_ops_updates"]

  const ConfigKeys: seq<string> := [
    "days", "seed", "model", "memory_mode", "memory_review_mode", "weekly_consolidation"]

  const ExecutionKeys: seq<string> := ["time_seconds", "llm_calls", "reflection_calls", "total_tokens"]

  const StandardContract := Contract(0.05, 0.02, ResultKeys, SeriesKeys, DayKeys)

  /** The keys of an object, in the same order. */
  predicate Spells(fields: seq<Field>, keys: seq<string>) {
    |fields| == |keys| && forall i :: 0 <= i < |keys| ==> fields[i].key == keys[i]
  }

  lemma SpelledKeysPresent(fields: seq<Field>, keys: seq<string>)
    requires Spells(fields, keys)
    ensures CompleteResults(keys, Obj(fields))
  {
    forall i | 0 <= i < |keys| ensures Has(fields, keys[i]) {
      assert fields[i].key == keys[i];
    }
  }

  lemma FinalSpelled(m: Setup, st: State)
    ensures Spells(FinalResults(m, st), ResultKeys)
  {
    hide Roi, EquityProfit, Equity, InventoryOf, BacklogTotal, Exposure, Dollars;
  }

  lemma DaySpelled(res: Results)
    ensures Spells(DayResults(res), DayKeys)
  {
    hide Dollars;
  }

  lemma DailySpelled(st: State)
    ensures Spells(DailyPerformance(st), SeriesKeys)
  {
    hide DollarSeries;
  }

  lemma DailyComplete(c: Contract, st: State)
    requires c.series == SeriesKeys
    ensures CompleteDaily(c, Obj(DailyPerformance(st)))
  {
    DailySpelled(st);
    DailyPlain(st);
    var fields := DailyPerformance(st);
    hide DailyPerformance;
    SpelledKeysPresent(fields, SeriesKeys);
    forall i | 0 <= i < |c.series| ensures Get(fields, c.series[i], Null).List? {
      assert Has(fields, SeriesKeys[i]);
      var k :| 0 <= k < |fields| && fields[k].value == Lookup(fields, SeriesKeys[i]).value;
      assert AllNumbers(fields[k].value);
    }
  }

  lemma SessionSpelled(s: Session, days: nat)
    ensures CompleteResults(ConfigKeys, Obj(Config(s, days))) && CompleteResults(ExecutionKeys, Obj(Execution(s)))
  {
    var config := Config(s, days);
    forall i | 0 <= i < |ConfigKeys| ensures Has(config, ConfigKeys[i]) { assert config[i].key == ConfigKeys[i]; }
    assert Spells(Execution(s), ExecutionKeys);
    SpelledKeysPresent(Execution(s), ExecutionKeys);
  }

  lemma ActionsSpelled(decision: Json)
    ensures CompleteResults(ActionKeys, Obj(DayActions(decision)))
  {
    hide Get, ActionCount, FieldsOf;
    assert Spells(DayActions(decision), ActionKeys);
    SpelledKeysPresent(DayActions(decision), ActionKeys);
  }

  /** Everything the published contract requires of a file: its parts, and in each part its keys. */
  predicate MeetsContract(file: seq<Field>) {
    && CompleteResults(ConfigKeys, Get(file, "config", Null))
    && CompleteResults(ExecutionKeys, Get(file, "execution", Null))
    && Complete(StandardContract, file)
    && EntriesComplete(Get(file, "decisions", List([])))
  }

  predicate EntriesComplete(entries: Json) {
    entries.List? && forall i :: 0 <= i < |entries.items| ==>
      && CompleteResults(ActionKeys, Get(FieldsOf(entries.items[i]), "actions", Null))
      && CompleteResults(DayKeys, Get(FieldsOf(entries.items[i]), "results", Obj([])))
  }

  lemma EntriesMeetContract(m: Setup, st: State, plans: seq<Plan>, decisions: seq<Json>)
    requires m.catalog != [] && |plans| == |decisions|
    ensures EntriesComplete(List(Entries(m, st, plans, decisions)))
    ensures CompleteDecisions(StandardContract, List(Entries(m, st, plans, decisions)))
  {
    hide Get, DayResults, DayActions, EveningOf, CompleteResults;
    var entries := Entries(m, st, plans, decisions);
    forall i | 0 <= i < |entries|
      ensures entries[i].Obj? && FieldsOf(entries[i]) == entries[i].fields
      ensures CompleteResults(ActionKeys, Get(entries[i].fields, "actions", Null))
      ensures CompleteResults(DayKeys, Get(entries[i].fields, "results", Obj([])))
    {
      var res := EveningOf(m, st, plans, i).res;
      EntryParts(i + 1, decisions[i], res, Null);
      EntryParts(i + 1, decisions[i], res, Obj([]));
      DaySpelled(res);
      SpelledKeysPresent(DayResults(res), DayKeys);
      ActionsSpelled(decisions[i]);
    }
  }

  /** Main result: whatever the agent decided, the file a run saves has every part and key the contract requires. */
  lemma SavedIsComplete(m: Setup, st: State, rd: Reader, s: Session, decisions: seq<Json>)
    requires m.catalog != []
    ensures MeetsContract(Saved(m, st, rd, s, decisions))
  {
    hide Saved, Get, FinalResults, DailyPerformance, Entries, StateAfter, ReadPlan, CompleteResults, CompleteDaily,
         CompleteDecisions, EntriesComplete, Config, Execution;
    var plans := Plans(rd, decisions);
    var last := StateAfter(m, st, plans, |plans|);
    SavedParts(m, st, rd, s, decisions, Null);
    SavedParts(m, st, rd, s, decisions, Obj([]));
    SavedParts(m, st, rd, s, decisions, List([]));
    FinalSpelled(m, last);
    SpelledKeysPresent(FinalResults(m, last), ResultKeys);
    DailyComplete(StandardContract, last);
    EntriesMeetContract(m, st, plans, decisions);
    SessionSpelled(s, |decisions|);
  }

  /** Main result: under the published contract the determinism check passes for every run of well-typed decisions,
      whoever ran it and however long it took. */
  lemma DeterminismCheckPasses(m: Setup, st: State, rd: Reader, s: Session, t: Session, decisions: seq<Json>)
    requires m.catalog != [] && decisions != []
    requires forall i :: 0 <= i < |decisions| ==> WellTyped(decisions[i]) && WellFormed(decisions[i])
    ensures Agree(StandardContract, Saved(m, st, rd, s, decisions), Saved(m, st, rd, t, Sanitized(decisions)))
  {
    hide Saved, Complete, Agree, Load, WellTyped, WellFormed, Sanitized;
    SavedIsComplete(m, st, rd, s, decisions);
    FaithfulReplayPasses(m, st, rd, StandardContract, s, t, decisions);
  }

  /** A number of an object, as the contract's invariants read it. */
  function Number(fields: seq<Field>, key: string): real {
    var j := Get(fields, key, Null);
    if Numeric(j) then AsReal(j) else 0.0
  }

  function Listed(fields: seq<Field>, key: string): seq<Json> {
    var j := Get(fields, key, Null);
    if j.List? then j.items else []
  }

  function Total(items: seq<Json>): real {
    if items == [] then 0.0
    else
      var last := items[|items| - 1];
      Total(items[..|items| - 1]) + if Numeric(last) then AsReal(last) else 0.0
  }

  lemma {:induction false} TotalOfDollars(cents: seq<int>)
    ensures Total(DollarSeries(cents).items) == Sum(cents) as real / 100.0
  {
    if cents != [] {
      var front := cents[..|cents| - 1];
      TotalOfDollars(front);
      assert DollarSeries(cents).items[..|cents| - 1] == DollarSeries(front).items;
    }
  }

  /** Length and first letter, which tell the result keys apart. */
  function Mark(key: string): int { if key == "" then 0 else |key| * 128 + key[0] as int }

  /** Where the key with a given mark stands. */
  function Place(mark: int): int {
    match mark
    case 2163 => 0
    case 3187 => 1
    case 2035 => 2
    case 1766 => 3
    case 2790 => 4
    case 1638 => 5
    case 1780 => 6
    case 1524 => 7
    case 1390 => 8
    case 1765 => 9
    case 1522 => 10
    case 2159 => 11
    case 1267 => 12
    case 1908 => 13
    case 2290 => 14
    case 1650 => 15
    case 2291 => 16
    case 2803 => 17
    case 2547 => 18
    case 2799 => 19
    case 3056 => 20
    case 2672 => 21
    case _ => -1
  }

  lemma ResultKeysPlaced(i: nat)
    requires i < |ResultKeys|
    ensures Place(Mark(ResultKeys[i])) == i
  {
  }

  lemma FinalKeysDistinct(m: Setup, st: State)
    ensures DistinctKeys(FinalResults(m, st))
  {
    FinalSpelled(m, st);
    var s := FinalResults(m, st);
    hide FinalResults, Mark, Place;
    forall i, k | 0 <= i < k < |s| ensures s[i].key != s[k].key {
      ResultKeysPlaced(i);
      ResultKeysPlaced(k);
      assert s[i].key == ResultKeys[i] && s[k].key == ResultKeys[k];
    }
  }

  function InDollars(cents: int): real { cents as real / 100.0 }

  lemma FinalNumbers(m: Setup, st: State)
    ensures var r := FinalResults(m, st);
            && Number(r, "starting_capital") == InDollars(st.startingCapital)
            && Number(r, "starting_equity") == InDollars(StartingEquity(st))
            && Number(r, "final_capital") == InDollars(st.capital)
            && Number(r, "final_inventory_value") == InDollars(InventoryOf(m.catalog, st.products))
            && Number(r, "final_equity") == InDollars(Equity(m, st))
            && Number(r, "total_revenue") == InDollars(st.totals.revenue)
            && Number(r, "total_costs") == InDollars(st.totals.costs)
            && Number(r, "net_profit") == InDollars(Profit(st))
            && Number(r, "equity_profit") == InDollars(EquityProfit(m, st))
            && Number(r, "roi_percent") == Roi(m, st)
            && Number(r, "pending_refund_exposure") == InDollars(Exposure(st.openReturns))
  {
    CashNumbers(m, st);
    EquityFigures(m, st);
    hide Number, FinalResults;
  }

  lemma CashNumbers(m: Setup, st: State)
    ensures var r := FinalResults(m, st);
            && Number(r, "starting_capital") == InDollars(st.startingCapital)
            && Number(r, "final_capital") == InDollars(st.capital)
            && Number(r, "total_revenue") == InDollars(st.totals.revenue)
            && Number(r, "total_costs") == InDollars(st.totals.costs)
            && Number(r, "net_profit") == InDollars(Profit(st))
  {
    hide Number, Roi, EquityProfit, Equity, StartingEquity, Profit, InventoryOf, BacklogTotal, Exposure, Dollars,
         InDollars;
    var r := FinalResults(m, st);
    FinalDollars(m, st, 0, st.startingCapital);
    FinalDollars(m, st, 3, st.capital);
    FinalDollars(m, st, 6, st.totals.revenue);
    FinalDollars(m, st, 7, st.totals.costs);
    FinalDollars(m, st, 8, Profit(st));
  }

  lemma EquityFigures(m: Setup, st: State)
    ensures var r := FinalResults(m, st);
            && Number(r, "starting_equity") == InDollars(StartingEquity(st))
            && Number(r, "final_inventory_value") == InDollars(InventoryOf(m.catalog, st.products))
            && Number(r, "final_equity") == InDollars(Equity(m, st))
            && Number(r, "equity_profit") == InDollars(EquityProfit(m, st))
            && Number(r, "roi_percent") == Roi(m, st)
            && Number(r, "pending_refund_exposure") == InDollars(Exposure(st.openReturns))
  {
    hide Number, Roi, EquityProfit, Equity, StartingEquity, Profit, InventoryOf, BacklogTotal, Exposure, Dollars,
         InDollars;
    var r := FinalResults(m, st);
    FinalDollars(m, st, 2, StartingEquity(st));
    FinalDollars(m, st, 4, InventoryOf(m.catalog, st.products));
    FinalDollars(m, st, 5, Equity(m, st));
    FinalDollars(m, st, 9, EquityProfit(m, st));
    FinalDollars(m, st, 20, Exposure(st.openReturns));
    FinalAt(m, st, 10);
  }

  lemma FinalAt(m: Setup, st: State, i: nat)
    requires i < |FinalResults(m, st)|
    ensures var field := FinalResults(m, st)[i];
            Numeric(field.value) ==> Number(FinalResults(m, st), field.key) == AsReal(field.value)
  {
    hide FinalResults, Get;
    FinalKeysDistinct(m, st);
    GetAt(FinalResults(m, st), i, Null);
  }

  lemma FinalDollars(m: Setup, st: State, i: nat, cents: int)
    requires i < |FinalResults(m, st)| && FinalResults(m, st)[i].value == Dollars(cents)
    ensures Number(FinalResults(m, st), FinalResults(m, st)[i].key) == InDollars(cents)
  {
    hide FinalResults, Number;
    FinalAt(m, st, i);
  }

  lemma DailySeries(st: State)
    ensures var d := DailyPerformance(st);
            && Listed(d, "revenue") == DollarSeries(st.series.revenue).items
            && Listed(d, "costs") == DollarSeries(st.series.costs).items
            && Listed(d, "profit") == DollarSeries(st.series.profit).items
            && Listed(d, "ad_spend") == DollarSeries(st.series.adSpend).items
            && Listed(d, "ad_attributed_revenue") == DollarSeries(st.series.adAttributed).items
  {
    hide Get;
    var d := DailyPerformance(st);
    assert |d[0].key| == 7 && |d[1].key| == 5 && |d[2].key| == 6 && |d[3].key| == 8 && |d[4].key| == 21;
    GetAt(d, 0, Null);
    GetAt(d, 1, Null);
    GetAt(d, 2, Null);
    GetAt(d, 3, Null);
    GetAt(d, 4, Null);
  }

  lemma RatioInDollars(equity: int, start: int)
    requires start > 0
    ensures (InDollars(equity) - InDollars(start)) / InDollars(start) * 100.0
            == (equity - start) as real / start as real * 100.0
  {
    var (gain, base) := ((equity - start) as real, start as real);
    var ratio := gain / base;
    assert ratio * base == gain;
    assert InDollars(equity) - InDollars(start) == gain / 100.0;
    assert ratio * (base / 100.0) == gain / 100.0;
    assert (gain / 100.0) / (base / 100.0) == ratio;
  }

  /** What the file's own numbers must satisfy, the published invariants among it. */
  predicate NumbersAgree(file: seq<Field>, days: nat) {
    var r := FieldsOf(Get(file, "results", Null));
    var d := FieldsOf(Get(file, "daily_performance", Null));
    && Number(r, "net_profit") == Number(r, "total_revenue") - Number(r, "total_costs")
    && Number(r, "net_profit") == Number(r, "final_capital") - Number(r, "starting_capital")
    && Number(r, "equity_profit") == Number(r, "final_equity") - Number(r, "starting_equity")
    && Number(r, "final_equity") == Number(r, "final_capital") + Number(r, "final_inventory_value")
                                    - Number(r, "pending_refund_exposure")
    && (Number(r, "starting_equity") > 0.0 ==>
          Number(r, "roi_percent") == (Number(r, "final_equity") - Number(r, "starting_equity"))
                                      / Number(r, "starting_equity") * 100.0)
    && Total(Listed(d, "revenue")) == Number(r, "total_revenue")
    && Total(Listed(d, "costs")) == Number(r, "total_costs")
    && Total(Listed(d, "profit")) == Number(r, "net_profit")
    && Number(FieldsOf(Get(file, "config", Null)), "days") == days as real
    && (forall i :: 0 <= i < |SeriesKeys| ==> |Listed(d, SeriesKeys[i])| == days)
  }

  /** Entry i is for day i + 1. */
  predicate DaysInOrder(entries: Json, days: nat) {
    entries.List? && |entries.items| == days
    && forall i :: 0 <= i < |entries.items| ==> DayOf(entries.items[i]) == Some(i + 1)
  }

  lemma EntriesInOrder(m: Setup, st: State, plans: seq<Plan>, decisions: seq<Json>)
    requires m.catalog != [] && |plans| == |decisions|
    ensures DaysInOrder(List(Entries(m, st, plans, decisions)), |decisions|)
  {
    hide EveningOf, Get;
    var entries := Entries(m, st, plans, decisions);
    forall i | 0 <= i < |entries| ensures DayOf(entries[i]) == Some(i + 1) {
      EntryParts(i + 1, decisions[i], EveningOf(m, st, plans, i).res, Null);
    }
  }

  lemma DaysConfigured(s: Session, days: nat)
    ensures Number(Config(s, days), "days") == days as real
  {
    assert Config(s, days)[0].key == "days";
  }

  lemma BalancedNumbers(m: Setup, st: State)
    requires Balanced(st)
    ensures var (r, d) := (FinalResults(m, st), DailyPerformance(st));
            && Number(r, "net_profit") == Number(r, "total_revenue") - Number(r, "total_costs")
            && Number(r, "net_profit") == Number(r, "final_capital") - Number(r, "starting_capital")
            && Total(Listed(d, "revenue")) == Number(r, "total_revenue")
            && Total(Listed(d, "costs")) == Number(r, "total_costs")
            && Total(Listed(d, "profit")) == Number(r, "net_profit")
            && (forall i :: 0 <= i < |SeriesKeys| ==> |Listed(d, SeriesKeys[i])| == st.day)
  {
    FinalNumbers(m, st);
    DailySeries(st);
    TotalOfDollars(st.series.revenue);
    TotalOfDollars(st.series.costs);
    TotalOfDollars(st.series.profit);
    hide Number, FinalResults, DailyPerformance, Total, Listed, InventoryOf, Exposure;
  }

  lemma EquityNumbers(m: Setup, st: State)
    ensures var r := FinalResults(m, st);
            && Number(r, "equity_profit") == Number(r, "final_equity") - Number(r, "starting_equity")
            && Number(r, "final_equity") == Number(r, "final_capital") + Number(r, "final_inventory_value")
                                            - Number(r, "pending_refund_exposure")
            && (Number(r, "starting_equity") > 0.0 ==>
                  Number(r, "roi_percent") == (Number(r, "final_equity") - Number(r, "starting_equity"))
                                              / Number(r, "starting_equity") * 100.0)
  {
    FinalNumbers(m, st);
    hide Number, FinalResults, InventoryOf, Exposure;
    if StartingEquity(st) > 0 { RatioInDollars(Equity(m, st), StartingEquity(st)); }
  }

  /** Main result: the numbers a run's file holds satisfy the published invariants, read from the file itself. */
  lemma ContractInvariantsHold(m: Setup, st: State, rd: Reader, s: Session, decisions: seq<Json>)
    requires m.catalog != [] && Opening(m, st)
    ensures var file := Saved(m, st, rd, s, decisions);
            NumbersAgree(file, |decisions|) && DaysInOrder(Get(file, "decisions", Null), |decisions|)
  {
    hide Saved, Get, StateAfter, ReadPlan, Entries, DaysInOrder, Balanced, Number, Total, Listed, Config, FinalResults,
         DailyPerformance, Opening;
    var plans := Plans(rd, decisions);
    var r := StateAfter(m, st, plans, |plans|);
    OpeningBalanced(m, st);
    RunKeepsBooks(m, st, plans, |plans|);
    assert st.day == 0 by { OpensAtZero(m, st); }
    BalancedNumbers(m, r);
    EquityNumbers(m, r);
    SavedParts(m, st, rd, s, decisions, Null);
    DaysConfigured(s, |decisions|);
    EntriesInOrder(m, st, plans, decisions);
  }

  lemma OpensAtZero(m: Setup, st: State)
    requires Opening(m, st)
    ensures st.day == 0
  {
  }
}
