/** The cached demand multiplier: always what the active events give, bounded, and neutral without events. */
module DemandCache {
  import opened Market
  import opened Events
  import opened Demand
  import opened Trading
  import opened DayCycle

  /** Every product's cached multiplier is the clamped product of its own active demand events. */
  predicate Cached(st: State) {
    forall sku <- st.products.Keys :: st.products[sku].demandMultiplier == MultiplierFor(st.events, sku)
  }

  predicate SameDemand(before: State, after: State) {
    && after.events == before.events && after.products.Keys == before.products.Keys
    && forall sku <- before.products.Keys ::
         after.products[sku].demandMultiplier == before.products[sku].demandMultiplier
  }

  lemma CompoundBetween(events: seq<Event>)
    ensures 0.2 <= Compound(events) <= 4.0
    ensures events == [] ==> Compound(events) == 1.0
  {
  }

  /** An event that does not shape a product's demand can start or expire without touching its multiplier. */
  lemma {:induction false} OthersDoNotMatter(before: seq<Event>, e: Event, after: seq<Event>, sku: Sku)
    requires !Shapes(e, sku)
    ensures MultiplierFor(before + [e] + after, sku) == MultiplierFor(before + after, sku)
  {
    ShapingSkips(before, e, after, sku);
  }

  lemma {:induction false} ShapingSkips(before: seq<Event>, e: Event, after: seq<Event>, sku: Sku)
    requires !Shapes(e, sku)
    ensures Shaping(before + [e] + after, sku) == Shaping(before + after, sku)
  {
    var all := before + [e] + after;
    if after == [] {
      assert all[..|all| - 1] == before && before + after == before;
    } else {
      var front := after[..|after| - 1];
      assert all[..|all| - 1] == before + [e] + front;
      assert (before + after)[..|before + after| - 1] == before + front;
      ShapingSkips(before, e, front, sku);
    }
  }

  lemma PerformKeepsDemand(m: Setup, x: Evening, a: Action)
    ensures SameDemand(x.st, Perform(m, x, a).st)
  {
    hide Sold, TicketsResolved, SelectSupplier;
    if a.Sell? { SaleFrame(m, x, a.order, a.accepted); }
  }

  lemma {:induction false} TradingKeepsDemand(m: Setup, x: Evening, actions: seq<Action>)
    ensures SameDemand(x.st, PerformAll(m, x, actions).st)
    decreases |actions|
  {
    hide Perform;
    if actions != [] {
      PerformKeepsDemand(m, x, actions[0]);
      TradingKeepsDemand(m, Perform(m, x, actions[0]), actions[1..]);
    }
  }

  lemma InjectionCaches(m: Setup, st: State)
    requires m.catalog != [] && Cached(st)
    ensures Cached(Injected(m, st))
  {
    hide InitialEffects, DrawnEvent, MultiplierFor;
  }

  lemma PreparedCaches(m: Setup, st: State)
    requires m.catalog != [] && Cached(st)
    ensures Cached(Prepared(m, st).st)
  {
    hide MorningOf, EvolvedFrom, OrdersRun, Injected, MultiplierFor;
    MorningFrame(m, st);
    var morning := MorningOf(m, st).st;
    EvolveFrame(m, morning, 0);
    var evolved := EvolvedFrom(m, morning, 0);
    GeneratedFrame(m, evolved);
    InjectionCaches(m, Generated(m, evolved).st);
  }

  lemma DayCaches(m: Setup, st: State, plan: Plan)
    requires m.catalog != []
    ensures Cached(RunDay(m, st, plan).st)
  {
    hide Prepared, Applied, ExpiryRun, MultiplierFor;
  }

  lemma OpeningCached(m: Setup, st: State)
    requires Opening(m, st)
    ensures Cached(st)
  {
  }

  lemma AfterDaysCached(m: Setup, st: State, plans: seq<Plan>, days: nat)
    requires m.catalog != [] && Opening(m, st) && days <= |plans|
    ensures Cached(StateAfter(m, st, plans, days))
  {
    hide RunDay, Cached;
    if days == 0 { OpeningCached(m, st); } else { DayCaches(m, StateAfter(m, st, plans, days - 1), plans[days - 1]); }
  }

  lemma CachedBounds(st: State)
    requires Cached(st)
    ensures forall sku <- st.products.Keys ::
              && 0.2 <= st.products[sku].demandMultiplier <= 4.0
              && (Shaping(st.events, sku) == [] ==> st.products[sku].demandMultiplier == 1.0)
  {
    hide Shaping, Compound;
    forall sku | sku in st.products.Keys
      ensures 0.2 <= st.products[sku].demandMultiplier <= 4.0
      ensures Shaping(st.events, sku) == [] ==> st.products[sku].demandMultiplier == 1.0
    {
      CompoundBetween(Shaping(st.events, sku));
    }
  }

  /** Main result: on every day of any run, when the agent decides and after any number of its actions, each cached
      multiplier is exactly what the events still active for that product give, lies in [0.2, 4.0], and is 1.0 when
      there are none; the same holds once the day's events have expired. */
  lemma RunCaches(m: Setup, st: State, plans: seq<Plan>, day: nat, actions: seq<Action>)
    requires m.catalog != [] && Opening(m, st) && day <= |plans|
    ensures var d := Prepared(m, StateAfter(m, st, plans, day));
            var x := PerformAll(m, Opened(m, d.st, |d.orders|, d.adj), actions).st;
            && Cached(StateAfter(m, st, plans, day)) && Cached(d.st) && Cached(x)
            && forall sku <- x.products.Keys ::
                 && 0.2 <= x.products[sku].demandMultiplier <= 4.0
                 && (Shaping(x.events, sku) == [] ==> x.products[sku].demandMultiplier == 1.0)
  {
    hide StateAfter, Prepared, PerformAll, MultiplierFor, Shaping;
    AfterDaysCached(m, st, plans, day);
    PreparedCaches(m, StateAfter(m, st, plans, day));
    var d := Prepared(m, StateAfter(m, st, plans, day));
    var start := Opened(m, d.st, |d.orders|, d.adj);
    TradingKeepsDemand(m, start, actions);
    CachedBounds(PerformAll(m, start, actions).st);
  }
}
