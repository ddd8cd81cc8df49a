/** Rebuilding a run's timeline from its results file: capital is recovered from daily profits alone. */
module Theater {
  import opened Numbers
  import opened Market
  import opened Trading
  import opened DayCycle
  import opened Books
  import opened Json
  import opened Decisions
  import opened Replay
  import opened Benchmark

  /** One saved day's figures. */
  datatype DayFigures = DayFigures(day: int, revenue: real, profit: real, fulfilled: int, stockouts: int)

  /** What the reconstruction reads from a results file, money in dollars. */
  datatype Artifact = Artifact(
    startingCapital: real,
    days: int,
    revenue: seq<real>,
    profit: seq<real>,
    decisions: seq<DayFigures>)

  datatype Frame = Frame(
    day: int,
    capital: real,
    totalProfit: real,
    roi: real,
    revenue: real,
    costs: real,
    profit: real,
    fulfilled: int,
    stockouts: int)

  datatype Timeline = Timeline(frames: seq<Frame>, capital: seq<real>, dailyProfit: seq<real>)

  function Floats(items: seq<Json>): seq<real> {
    seq(|items|, i requires 0 <= i < |items| => if Numeric(items[i]) then AsReal(items[i]) else 0.0)
  }

  function FiguresIn(entry: Json): DayFigures {
    var (e, r) := (FieldsOf(entry), FieldsOf(Get(FieldsOf(entry), "results", Obj([]))));
    DayFigures(Truncate(Number(e, "day")), Number(r, "revenue"), Number(r, "profit"),
               Truncate(Number(r, "fulfilled")), Truncate(Number(r, "stockouts")))
  }

  /** The artifact in a results file whose figures are numbers. */
  function ArtifactOf(file: seq<Field>): Artifact {
    var results := FieldsOf(Get(file, "results", Obj([])));
    var daily := FieldsOf(Get(file, "daily_performance", Obj([])));
    var entries := Listed(file, "decisions");
    Artifact(if Has(results, "starting_capital") then Number(results, "starting_capital") else 10000.0,
             Truncate(Number(FieldsOf(Get(file, "config", Obj([]))), "days")),
             Floats(Listed(daily, "revenue")), Floats(Listed(daily, "profit")),
             seq(|entries|, i requires 0 <= i < |entries| => FiguresIn(entries[i])))
  }

  function TotalDays(a: Artifact): int {
    var longest := Max(Max(|a.revenue|, |a.profit|), |a.decisions|);
    if a.days > 0 then a.days else if longest > 0 then longest else 1
  }

  /** Figures by day; a later entry for a day replaces an earlier one. */
  function ByDay(decisions: seq<DayFigures>): map<int, DayFigures> {
    if decisions == [] then map[]
    else
      var last := decisions[|decisions| - 1];
      var rest := ByDay(decisions[..|decisions| - 1]);
      if last.day > 0 then rest[last.day := last] else rest
  }

  function FiguresOn(byDay: map<int, DayFigures>, day: int): DayFigures {
    if day in byDay then byDay[day] else DayFigures(day, 0.0, 0.0, 0, 0)
  }

  /** The day's entry of a series, or the figure stored with the day's decision where the series is too short. */
  function Recorded(series: seq<real>, day: int, stored: real): real
    requires day >= 1
  {
    if day - 1 < |series| then series[day - 1] else stored
  }

  function ProfitOn(a: Artifact, day: int): real
    requires day >= 1
  {
    Recorded(a.profit, day, FiguresOn(ByDay(a.decisions), day).profit)
  }

  function RevenueOn(a: Artifact, day: int): real
    requires day >= 1
  {
    Recorded(a.revenue, day, FiguresOn(ByDay(a.decisions), day).revenue)
  }

  /** Starting capital plus the profits of the first days. */
  function CapitalAfter(a: Artifact, day: nat): real {
    if day == 0 then a.startingCapital else CapitalAfter(a, day - 1) + ProfitOn(a, day)
  }

  function RoiOf(start: real, capital: real): real
    requires start != 0.0
  {
    (capital - start) / start * 100.0
  }

  predicate FrameFor(a: Artifact, day: int, f: Frame)
    requires day >= 1 && a.startingCapital != 0.0
  {
    && f.day == day
    && f.capital == CapitalAfter(a, day)
    && f.totalProfit == CapitalAfter(a, day) - a.startingCapital
    && f.roi == RoiOf(a.startingCapital, CapitalAfter(a, day))
    && f.profit == ProfitOn(a, day)
    && f.revenue == RevenueOn(a, day) == f.costs + f.profit
    && f.fulfilled == FiguresOn(ByDay(a.decisions), day).fulfilled
    && f.stockouts == FiguresOn(ByDay(a.decisions), day).stockouts
  }

  /** The reconstruction loop. A zero starting capital makes the return on investment undefined: no timeline. */
  method BuildReplayPayload(a: Artifact) returns (r: Option<Timeline>)
    ensures r.None? <==> a.startingCapital == 0.0
    ensures r.Some? ==>
              && |r.value.frames| == |r.value.capital| == TotalDays(a)
              && (forall i :: 0 <= i < TotalDays(a) ==> FrameFor(a, i + 1, r.value.frames[i]))
              && (forall i :: 0 <= i < TotalDays(a) ==> r.value.capital[i] == CapitalAfter(a, i + 1))
    ensures r.Some? && a.profit != [] ==> r.value.dailyProfit == a.profit
    ensures r.Some? && a.profit == [] ==>
              && |r.value.dailyProfit| == TotalDays(a)
              && forall i :: 0 <= i < TotalDays(a) ==> r.value.dailyProfit[i] == ProfitOn(a, i + 1)
  {
    if a.startingCapital == 0.0 {
      return None;
    }
    var total := TotalDays(a);
    var byDay: map<int, DayFigures> := map[];
    for i := 0 to |a.decisions|
      invariant byDay == ByDay(a.decisions[..i])
    {
      assert a.decisions[..i + 1][..i] == a.decisions[..i];
      if a.decisions[i].day > 0 {
        byDay := byDay[a.decisions[i].day := a.decisions[i]];
      }
    }
    assert a.decisions[..|a.decisions|] == a.decisions;

    var capital := a.startingCapital;
    var frames: seq<Frame> := [];
    var capitals: seq<real> := [];
    var profits: seq<real> := [];
    for day := 1 to total + 1
      invariant |frames| == |capitals| == |profits| == day - 1
      invariant capital == CapitalAfter(a, day - 1)
      invariant forall i :: 0 <= i < |frames| ==> FrameFor(a, i + 1, frames[i])
      invariant forall i :: 0 <= i < |capitals| ==> capitals[i] == CapitalAfter(a, i + 1)
      invariant forall i :: 0 <= i < |profits| ==> profits[i] == ProfitOn(a, i + 1)
    {
      var figures := if day in byDay then byDay[day] else DayFigures(day, 0.0, 0.0, 0, 0);
      var revenue := if day - 1 < |a.revenue| then a.revenue[day - 1] else figures.revenue;
      var profit := if day - 1 < |a.profit| then a.profit[day - 1] else figures.profit;
      capital := capital + profit;
      var roi := RoiOf(a.startingCapital, capital);
      frames := frames + [Frame(day, capital, capital - a.startingCapital, roi, revenue, revenue - profit, profit,
                                figures.fulfilled, figures.stockouts)];
      capitals := capitals + [capital];
      profits := profits + [profit];
    }
    return Some(Timeline(frames, capitals, if a.profit != [] then a.profit else profits));
  }

  function Amounts(cents: seq<int>): seq<real> {
    seq(|cents|, i requires 0 <= i < |cents| => InDollars(cents[i]))
  }

  function FiguresOf(day: int, res: Results): DayFigures {
    DayFigures(day, InDollars(res.revenue), InDollars(res.profit), res.fulfilled, res.stockouts)
  }

  /** The artifact of a run, in the run's own terms. */
  function Exported(m: Setup, st: State, plans: seq<Plan>): Artifact
    requires m.catalog != []
  {
    var last := StateAfter(m, st, plans, |plans|);
    Artifact(InDollars(last.startingCapital), |plans|, Amounts(last.series.revenue), Amounts(last.series.profit),
             seq(|plans|, i requires 0 <= i < |plans| => FiguresOf(i + 1, EveningOf(m, st, plans, i).res)))
  }

  lemma DollarsRead(cents: seq<int>)
    ensures Floats(DollarSeries(cents).items) == Amounts(cents)
  {
  }

  lemma DayNumbers(res: Results)
    ensures var r := DayResults(res);
            && Number(r, "revenue") == InDollars(res.revenue) && Number(r, "profit") == InDollars(res.profit)
            && Number(r, "fulfilled") == res.fulfilled as real && Number(r, "stockouts") == res.stockouts as real
  {
    hide Get;
    var s := DayResults(res);
    assert |s[0].key| == 7 && |s[1].key| == 6 && |s[2].key| == 9 && |s[3].key| == 9;
    assert s[2].key[0] == 'f' && s[3].key[0] == 's';
    FirstFound(s, 0);
    FirstFound(s, 1);
    FirstFound(s, 2);
    FirstFound(s, 3);
  }

  lemma EntryFigures(day: int, decision: Json, res: Results)
    ensures FiguresIn(Entry(day, decision, res)) == FiguresOf(day, res)
  {
    EntryParts(day, decision, res, Null);
    EntryParts(day, decision, res, Obj([]));
    DayNumbers(res);
    TruncateWhole(day);
    TruncateWhole(res.fulfilled);
    TruncateWhole(res.stockouts);
    hide Get, DayResults, DayActions, Sanitize, Truncate, InDollars;
  }

  lemma TruncateWhole(n: int)
    ensures Truncate(n as real) == n
  {
  }

  lemma StartIsThere(m: Setup, st: State)
    ensures Has(FinalResults(m, st), "starting_capital")
  {
    FinalSpelled(m, st);
    hide FinalResults;
    SpelledKeysPresent(FinalResults(m, st), ResultKeys);
    assert ResultKeys[0] == "starting_capital";
  }

  /** What is read from a run's saved file is what the run recorded. */
  lemma SavedArtifact(m: Setup, st: State, rd: Reader, s: Session, decisions: seq<Json>)
    requires m.catalog != []
    ensures ArtifactOf(Saved(m, st, rd, s, decisions)) == Exported(m, st, Plans(rd, decisions))
  {
    hide Saved, Get, Has, StateAfter, EveningOf, ReadPlan, FinalResults, DailyPerformance, Config, Number, Floats,
         Amounts, DollarSeries, FiguresIn, FiguresOf, InDollars, Truncate, Entry;
    var plans := Plans(rd, decisions);
    var last := StateAfter(m, st, plans, |plans|);
    SavedParts(m, st, rd, s, decisions, Null);
    SavedParts(m, st, rd, s, decisions, Obj([]));
    FinalNumbers(m, last);
    StartIsThere(m, last);
    DailySeries(last);
    DollarsRead(last.series.revenue);
    DollarsRead(last.series.profit);
    DaysConfigured(s, |decisions|);
    TruncateWhole(|decisions|);
    var a := ArtifactOf(Saved(m, st, rd, s, decisions));
    var entries := Entries(m, st, plans, decisions);
    forall i | 0 <= i < |decisions|
      ensures FiguresIn(entries[i]) == FiguresOf(i + 1, EveningOf(m, st, plans, i).res)
    {
      EntryFigures(i + 1, decisions[i], EveningOf(m, st, plans, i).res);
    }
    assert a.decisions == Exported(m, st, plans).decisions;
  }

  /** A run's series hold exactly what its evenings reported, in order. */
  lemma {:induction false} SeriesRecordEvenings(m: Setup, st: State, plans: seq<Plan>, days: nat)
    requires m.catalog != [] && Opening(m, st) && days <= |plans|
    ensures var r := StateAfter(m, st, plans, days);
            && |r.series.profit| == |r.series.revenue| == days
            && forall i :: 0 <= i < days ==>
                 r.series.profit[i] == EveningOf(m, st, plans, i).res.profit
                 && r.series.revenue[i] == EveningOf(m, st, plans, i).res.revenue
    decreases days
  {
    hide RunDay, Balanced;
    if days > 0 {
      SeriesRecordEvenings(m, st, plans, days - 1);
      OpeningBalanced(m, st);
      RunKeepsBooks(m, st, plans, days - 1);
      DayKeepsBooks(m, StateAfter(m, st, plans, days - 1), plans[days - 1]);
    }
  }

  lemma {:induction false} ByDayOfRun(figures: seq<DayFigures>, day: int)
    requires forall i :: 0 <= i < |figures| ==> figures[i].day == i + 1
    requires 1 <= day <= |figures|
    ensures day in ByDay(figures) && ByDay(figures)[day] == figures[day - 1]
  {
    if day < |figures| { ByDayOfRun(figures[..|figures| - 1], day); }
  }

  lemma {:induction false} CapitalRebuilt(m: Setup, st: State, plans: seq<Plan>, day: nat)
    requires m.catalog != [] && Opening(m, st) && day <= |plans|
    ensures CapitalAfter(Exported(m, st, plans), day) == InDollars(StateAfter(m, st, plans, day).capital)
    decreases day
  {
    hide RunDay, Balanced;
    OpeningBalanced(m, st);
    SeriesRecordEvenings(m, st, plans, |plans|);
    RunKeepsBooks(m, st, plans, |plans|);
    if day > 0 {
      CapitalRebuilt(m, st, plans, day - 1);
      RunKeepsBooks(m, st, plans, day - 1);
      DayKeepsBooks(m, StateAfter(m, st, plans, day - 1), plans[day - 1]);
    }
  }

  /** A saved run's timeline has its days, or a single one for a run of none. */
  lemma DaysFaithful(m: Setup, st: State, rd: Reader, s: Session, decisions: seq<Json>)
    requires m.catalog != [] && Opening(m, st)
    ensures TotalDays(ArtifactOf(Saved(m, st, rd, s, decisions))) == if decisions == [] then 1 else |decisions|
  {
    var plans := Plans(rd, decisions);
    hide ArtifactOf, Saved, StateAfter, EveningOf, ReadPlan;
    SavedArtifact(m, st, rd, s, decisions);
    SeriesRecordEvenings(m, st, plans, |plans|);
  }

  /** Main result: the capital rebuilt for a day from the saved file, from profits alone, is the capital the live run
      had that evening, to the cent. */
  lemma ReconstructionFaithful(m: Setup, st: State, rd: Reader, s: Session, decisions: seq<Json>, day: nat)
    requires m.catalog != [] && Opening(m, st) && day <= |decisions|
    ensures var plans := Plans(rd, decisions);
            CapitalAfter(ArtifactOf(Saved(m, st, rd, s, decisions)), day)
            == InDollars(StateAfter(m, st, plans, day).capital)
  {
    hide ArtifactOf, Saved, Exported, StateAfter, CapitalAfter, InDollars;
    SavedArtifact(m, st, rd, s, decisions);
    CapitalRebuilt(m, st, Plans(rd, decisions), day);
  }

  /** Main result: every frame rebuilt from the saved file shows the live day: its capital, total profit, revenue,
      costs, profit, fulfilled orders and stockouts. */
  lemma FramesFaithful(m: Setup, st: State, rd: Reader, s: Session, decisions: seq<Json>, day: nat, f: Frame)
    requires m.catalog != [] && Opening(m, st) && 1 <= day <= |decisions|
    requires var a := ArtifactOf(Saved(m, st, rd, s, decisions)); a.startingCapital != 0.0 && FrameFor(a, day, f)
    ensures var e := EveningOf(m, st, Plans(rd, decisions), day - 1);
            && f.capital == InDollars(e.st.capital) && f.totalProfit == InDollars(Profit(e.st))
            && f.revenue == InDollars(e.res.revenue) && f.profit == InDollars(e.res.profit)
            && f.costs == InDollars(e.res.costs)
            && f.fulfilled == e.res.fulfilled && f.stockouts == e.res.stockouts
  {
    hide ArtifactOf, Saved, Exported, FrameFor;
    SavedArtifact(m, st, rd, s, decisions);
    RebuiltFrame(m, st, Plans(rd, decisions), day, f);
  }

  lemma RebuiltFrame(m: Setup, st: State, plans: seq<Plan>, day: nat, f: Frame)
    requires m.catalog != [] && Opening(m, st) && 1 <= day <= |plans|
    requires var a := Exported(m, st, plans); a.startingCapital != 0.0 && FrameFor(a, day, f)
    ensures var e := EveningOf(m, st, plans, day - 1);
            && f.capital == InDollars(e.st.capital) && f.totalProfit == InDollars(Profit(e.st))
            && f.revenue == InDollars(e.res.revenue) && f.profit == InDollars(e.res.profit)
            && f.costs == InDollars(e.res.costs)
            && f.fulfilled == e.res.fulfilled && f.stockouts == e.res.stockouts
  {
    hide RunDay, CapitalAfter, ByDay, InventoryOf, SeriesAddUp;
    var a := Exported(m, st, plans);
    OpeningBalanced(m, st);
    CapitalRebuilt(m, st, plans, day);
    SeriesRecordEvenings(m, st, plans, |plans|);
    RunKeepsBooks(m, st, plans, |plans|);
    RunKeepsBooks(m, st, plans, day);
    RunKeepsBooks(m, st, plans, day - 1);
    DayKeepsBooks(m, StateAfter(m, st, plans, day - 1), plans[day - 1]);
    ByDayOfRun(a.decisions, day);
  }

  lemma RatiosEqual(p: real, s: real, q: real, t: real)
    requires s > 0.0 && t > 0.0
    ensures p / s == q / t <==> p * t == q * s
  {
    var (x, y) := (p / s, q / t);
    assert x * s == p && y * t == q;
    if x == y {
      assert p * t == x * s * t == y * t * s;
    }
    if p * t == q * s {
      var product := s * t;
      assert product > 0.0;
      assert (x - y) * product == 0.0;
    }
  }

  lemma PercentagesEqual(p: int, s: int, q: int, t: int)
    requires s > 0 && t > 0
    ensures p as real / s as real * 100.0 == q as real / t as real * 100.0 <==> p * t == q * s
  {
    RatiosEqual(p as real, s as real, q as real, t as real);
    assert (p * t) as real == p as real * t as real && (q * s) as real == q as real * s as real;
  }

  /** Main result: the return on investment a frame shows measures cash against starting cash, the live one equity
      against starting equity; the two agree exactly when equity profit and cash profit are in that proportion. */
  lemma RebuiltRoiExactly(m: Setup, st: State, rd: Reader, s: Session, decisions: seq<Json>, day: nat, f: Frame)
    requires m.catalog != [] && Opening(m, st) && 1 <= day <= |decisions|
    requires st.startingCapital > 0 && StartingEquity(st) > 0
    requires var a := ArtifactOf(Saved(m, st, rd, s, decisions)); a.startingCapital != 0.0 && FrameFor(a, day, f)
    ensures var e := EveningOf(m, st, Plans(rd, decisions), day - 1).st;
            f.roi == Roi(m, e) <==> EquityProfit(m, e) * st.startingCapital == Profit(e) * StartingEquity(st)
  {
    hide ArtifactOf, Saved, EveningOf, RunDay, CapitalAfter, InventoryOf, Exposure, SeriesAddUp, Explained, Plans;
    var plans := Plans(rd, decisions);
    PlansCounted(rd, decisions);
    SavedArtifact(m, st, rd, s, decisions);
    var a := Exported(m, st, plans);
    OpeningBalanced(m, st);
    RunKeepsBooks(m, st, plans, |plans|);
    RunKeepsBooks(m, st, plans, day);
    CapitalRebuilt(m, st, plans, day);
    var e := StateAfter(m, st, plans, day);
    assert a.startingCapital == InDollars(st.startingCapital);
    assert f.roi == RoiOf(InDollars(st.startingCapital), InDollars(e.capital));
    RatioInDollars(e.capital, st.startingCapital);
    PercentagesEqual(EquityProfit(m, e), StartingEquity(st), Profit(e), st.startingCapital);
  }
}
