/** Supplier orders: how late they can be, what a delivery can hold, and what the delay counters count. */
module Deliveries {
  import opened Numbers
  import opened Rng
  import opened Ids
  import opened Market
  import opened SupplyChain
  import opened ReturnsDesk
  import opened Trading
  import opened DayCycle
  import opened Numbering

  /** An order still under way at the end of the given day. */
  predicate OnSchedule(m: Setup, po: Inbound, day: int) {
    && po.quantity >= 1
    && 0 <= po.delay <= DelayLimit(m)
    && po.placedOn <= day
    && po.daysUntilArrival == po.leadTime + po.delay - (day - po.placedOn)
    && (if po.placedOn == day then po.delay == 0 else po.leadTime >= 1 && po.daysUntilArrival >= 1)
  }

  /** A delivered order took its lead time (at least one morning) plus its own delays, and held no extra units. */
  predicate OnTime(m: Setup, a: Arrival) {
    && a.day - a.po.placedOn == Max(1, a.po.leadTime) + a.po.delay
    && 0 <= a.po.delay <= DelayLimit(m)
    && 0 <= a.delivered <= a.po.quantity
  }

  function ArrivedDelay(arrivals: seq<Arrival>): int {
    if arrivals == [] then 0 else ArrivedDelay(arrivals[..|arrivals| - 1]) + arrivals[|arrivals| - 1].po.delay
  }

  function PendingDelay(inbound: seq<Inbound>): int {
    if inbound == [] then 0 else PendingDelay(inbound[..|inbound| - 1]) + inbound[|inbound| - 1].delay
  }

  function PendingIds(inbound: seq<Inbound>): multiset<string> {
    if inbound == [] then multiset{} else PendingIds(inbound[..|inbound| - 1]) + multiset{inbound[|inbound| - 1].poId}
  }

  function ArrivedIds(arrivals: seq<Arrival>): multiset<string> {
    if arrivals == [] then multiset{}
    else ArrivedIds(arrivals[..|arrivals| - 1]) + multiset{arrivals[|arrivals| - 1].po.poId}
  }

  /** Identifiers issued are those pending, those still in the morning queue and those arrived. */
  predicate Traced(st: State, queue: seq<Inbound>) {
    multiset(st.history.purchaseIds) == PendingIds(st.inbound) + PendingIds(queue) + ArrivedIds(st.history.arrivals)
  }

  /** Every order placed is, by its own identifier, pending or arrived, once for each time it was placed, and the
      counters hold the delays of all of them. */
  predicate Tracked(m: Setup, st: State) {
    && (forall po <- st.inbound :: OnSchedule(m, po, st.day))
    && (forall a <- st.history.arrivals :: OnTime(m, a))
    && Traced(st, [])
    && st.totals.delayDays == ArrivedDelay(st.history.arrivals) + PendingDelay(st.inbound)
    && 0 <= st.totals.delayEvents <= st.totals.delayDays
  }

  /** The same during the morning, with the queue's orders still as they were yesterday. */
  predicate TrackedWith(m: Setup, st: State, queue: seq<Inbound>) {
    && (forall po <- st.inbound :: OnSchedule(m, po, st.day))
    && (forall po <- queue :: OnSchedule(m, po, st.day - 1))
    && (forall a <- st.history.arrivals :: OnTime(m, a))
    && Traced(st, queue)
    && st.totals.delayDays
       == ArrivedDelay(st.history.arrivals) + PendingDelay(st.inbound) + PendingDelay(queue)
    && 0 <= st.totals.delayEvents <= st.totals.delayDays
  }

  lemma PendingAppend(inbound: seq<Inbound>, po: Inbound)
    ensures PendingDelay(inbound + [po]) == PendingDelay(inbound) + po.delay
    ensures PendingIds(inbound + [po]) == PendingIds(inbound) + multiset{po.poId}
  {
    assert (inbound + [po])[..|inbound|] == inbound;
  }

  lemma ArrivedAppend(arrivals: seq<Arrival>, a: Arrival)
    ensures ArrivedDelay(arrivals + [a]) == ArrivedDelay(arrivals) + a.po.delay
    ensures ArrivedIds(arrivals + [a]) == ArrivedIds(arrivals) + multiset{a.po.poId}
  {
    assert (arrivals + [a])[..|arrivals|] == arrivals;
  }

  lemma {:induction false} PendingFront(queue: seq<Inbound>)
    requires queue != []
    ensures PendingDelay(queue) == queue[0].delay + PendingDelay(queue[1..])
    ensures PendingIds(queue) == multiset{queue[0].poId} + PendingIds(queue[1..])
  {
    if |queue| > 1 {
      var front := queue[..|queue| - 1];
      PendingFront(front);
      assert queue[1..][..|queue| - 2] == front[1..];
    }
  }

  lemma SlipWithin(m: Setup, st: State, po: Inbound)
    requires 0 <= po.delay <= DelayLimit(m)
    ensures po.delay + SlipOf(m, st, po).days <= DelayLimit(m)
    ensures SlipOf(m, st, po).days > 0 ==> po.daysUntilArrival > 1
  {
  }

  /** A delivery draws a fill ratio of at most one, so it holds between none and all of the order. */
  lemma DeliverOutcome(m: Setup, st: State, po: Inbound)
    requires po.quantity >= 1
    ensures var r := Deliver(m, st, po);
            && r == st.(products := r.products, cursor := r.cursor, history := r.history)
            && exists qty :: 0 <= qty <= po.quantity && r.history == Arrive(st, po, qty).history
  {
    var u := m.draws(st.cursor + 1);
    UniformBetween(0.65, 0.95, u);
    var ratio := if m.draws(st.cursor) <= po.reliability then 1.0 else Uniform(0.65, 0.95, u);
    DeliveryWithinOrder(po.quantity, ratio);
    var qty := DeliveredQty(po.quantity, ratio);
    assert Deliver(m, st, po).history == Arrive(st, po, qty).history;
  }

  /** The order goes on as po, having slipped or not. */
  predicate Moved(st: State, r: State, queued: Inbound, po: Inbound) {
    && r.day == st.day && r.history.purchaseIds == st.history.purchaseIds && po.poId == queued.poId
    && r.totals.delayDays - st.totals.delayDays == po.delay - queued.delay
    && 0 <= r.totals.delayEvents - st.totals.delayEvents <= po.delay - queued.delay
  }

  predicate StillUnderWay(st: State, r: State, po: Inbound) {
    r.inbound == st.inbound + [po] && r.history.arrivals == st.history.arrivals
  }

  predicate Landed(st: State, r: State, po: Inbound, qty: int) {
    r.inbound == st.inbound && r.history.arrivals == st.history.arrivals + [Arrival(po, st.day, qty)]
  }

  lemma StepOutcome(m: Setup, st: State, queued: Inbound) returns (po: Inbound, qty: int)
    requires OnSchedule(m, queued, st.day - 1)
    ensures var r := InboundStep(m, st, queued);
            && Moved(st, r, queued, po)
            && (if po.daysUntilArrival > 0 then StillUnderWay(st, r, po) && OnSchedule(m, po, st.day)
                else Landed(st, r, po, qty) && OnTime(m, Arrival(po, st.day, qty)))
  {
    hide Deliver, SlipOf;
    SlipWithin(m, st, queued);
    var slip := SlipOf(m, st, queued);
    po := queued.(daysUntilArrival := queued.daysUntilArrival + slip.days - 1, delay := queued.delay + slip.days);
    qty := 0;
    if po.daysUntilArrival <= 0 && po.sku in st.products {
      var moved := st.(cursor := st.cursor + slip.draws, totals := Counted(st.totals, slip));
      DeliverOutcome(m, moved, po);
      qty :| 0 <= qty <= po.quantity && Deliver(m, moved, po).history == Arrive(moved, po, qty).history;
    }
  }

  lemma StepTraces(m: Setup, st: State, queue: seq<Inbound>)
    requires queue != [] && OnSchedule(m, queue[0], st.day - 1) && Traced(st, queue)
    ensures Traced(InboundStep(m, st, queue[0]), queue[1..])
  {
    hide InboundStep, PendingIds, ArrivedIds, PendingDelay, ArrivedDelay, OnSchedule, OnTime;
    PendingFront(queue);
    var po, qty := StepOutcome(m, st, queue[0]);
    PendingAppend(st.inbound, po);
    ArrivedAppend(st.history.arrivals, Arrival(po, st.day, qty));
  }

  lemma StepKeepsTracking(m: Setup, st: State, queue: seq<Inbound>)
    requires queue != [] && TrackedWith(m, st, queue)
    ensures TrackedWith(m, InboundStep(m, st, queue[0]), queue[1..])
  {
    hide InboundStep, Traced, PendingIds, ArrivedIds;
    assert queue[0] in queue;
    StepTraces(m, st, queue);
    PendingFront(queue);
    assert forall other <- queue[1..] :: other in queue;
    var po, qty := StepOutcome(m, st, queue[0]);
    PendingAppend(st.inbound, po);
    ArrivedAppend(st.history.arrivals, Arrival(po, st.day, qty));
  }

  lemma {:induction false} MorningKeepsTracking(m: Setup, st: State, queue: seq<Inbound>)
    requires TrackedWith(m, st, queue)
    ensures Tracked(m, InboundRun(m, st, queue))
    decreases |queue|
  {
    hide InboundStep;
    if queue != [] {
      StepKeepsTracking(m, st, queue);
      MorningKeepsTracking(m, InboundStep(m, st, queue[0]), queue[1..]);
    }
  }

  /** What tracking reads. */
  predicate SameTracking(before: State, after: State) {
    && after.day == before.day && after.inbound == before.inbound
    && after.history.arrivals == before.history.arrivals
    && after.history.purchaseIds == before.history.purchaseIds
    && after.totals.delayDays == before.totals.delayDays && after.totals.delayEvents == before.totals.delayEvents
  }

  lemma OtherActionsKeepTracking(m: Setup, x: Evening, a: Action)
    requires !a.Procure?
    ensures SameTracking(x.st, Perform(m, x, a).st)
  {
  }

  lemma SameTracked(m: Setup, before: State, after: State)
    requires SameTracking(before, after) && Tracked(m, before)
    ensures Tracked(m, after)
  {
    hide OnSchedule, OnTime, PendingIds, ArrivedIds, PendingDelay, ArrivedDelay;
  }

  /** One more order is under way. */
  predicate OneMore(before: State, after: State, po: Inbound) {
    && after.day == before.day && after.inbound == before.inbound + [po]
    && after.history.arrivals == before.history.arrivals
    && after.history.purchaseIds == before.history.purchaseIds + [po.poId]
    && after.totals.delayDays == before.totals.delayDays && after.totals.delayEvents == before.totals.delayEvents
  }

  lemma OneMoreTracked(m: Setup, before: State, after: State, po: Inbound)
    requires Tracked(m, before) && OneMore(before, after, po) && OnSchedule(m, po, before.day) && po.delay == 0
    ensures Tracked(m, after)
  {
    hide OnSchedule, OnTime, PendingIds, ArrivedIds, PendingDelay, ArrivedDelay;
    PendingAppend(before.inbound, po);
    assert multiset(after.history.purchaseIds) == multiset(before.history.purchaseIds) + multiset{po.poId};
  }

  lemma SupplyOutcome(m: Setup, x: Evening, supply: Supply) returns (po: Inbound)
    ensures var y := Supplied(m, x, supply).st;
            SameTracking(x.st, y) || (OneMore(x.st, y, po) && OnSchedule(m, po, x.st.day) && po.delay == 0)
  {
    hide SelectSupplier, PurchaseId;
    var y := Supplied(m, x, supply).st;
    po := if |y.inbound| > 0 then y.inbound[|y.inbound| - 1]
          else Inbound("", "", "", 0, 0, 0.0, 0, "", 0, 0, 0);
  }

  lemma ProcurementKeepsTracking(m: Setup, x: Evening, supply: Supply)
    requires Tracked(m, x.st)
    ensures Tracked(m, Supplied(m, x, supply).st)
  {
    hide Supplied, Tracked, SameTracking, OneMore, OnSchedule;
    var y := Supplied(m, x, supply).st;
    var po := SupplyOutcome(m, x, supply);
    if SameTracking(x.st, y) { SameTracked(m, x.st, y); } else { OneMoreTracked(m, x.st, y, po); }
  }

  lemma {:induction false} TradingKeepsTracking(m: Setup, x: Evening, actions: seq<Action>)
    requires Tracked(m, x.st)
    ensures Tracked(m, PerformAll(m, x, actions).st)
    decreases |actions|
  {
    hide Tracked;
    if actions != [] {
      var a := actions[0];
      if a.Procure? {
        ProcurementKeepsTracking(m, x, a.supply);
      } else {
        OtherActionsKeepTracking(m, x, a);
        SameTracked(m, x.st, Perform(m, x, a).st);
      }
      TradingKeepsTracking(m, Perform(m, x, a), actions[1..]);
    }
  }

  lemma DawnTracked(m: Setup, st: State)
    requires Tracked(m, st)
    ensures var dawn := st.(day := st.day + 1); TrackedWith(m, dawn.(inbound := []), dawn.inbound)
  {
    hide OnSchedule, OnTime, ArrivedIds, ArrivedDelay;
  }

  lemma MorningTracked(m: Setup, st: State)
    requires Tracked(m, st)
    ensures Tracked(m, MorningOf(m, st).st)
  {
    hide InboundRun, ReturnRun, Tracked, TrackedWith;
    var dawn := st.(day := st.day + 1);
    DawnTracked(m, st);
    MorningKeepsTracking(m, dawn.(inbound := []), dawn.inbound);
    var landed := InboundMorning(m, dawn);
    ReturnFrame(m, Morning(landed.(openReturns := []), Adjustments(0, 0, 0)), landed.openReturns);
    SameTracked(m, landed, MorningOf(m, st).st);
  }

  lemma DayKeepsTracking(m: Setup, st: State, plan: Plan)
    requires m.catalog != [] && Tracked(m, st)
    ensures Tracked(m, RunDay(m, st, plan).st)
  {
    hide MorningOf, Prepared, RunDay, PerformAll, Tracked, Actions;
    MorningTracked(m, st);
    MarketOpens(m, st);
    var d := Prepared(m, st);
    var start := Opened(m, d.st, |d.orders|, d.adj);
    SameTracked(m, MorningOf(m, st).st, start.st);
    TradingKeepsTracking(m, start, Actions(plan, d.orders));
    EveningCloses(m, st, plan);
    SameTracked(m, PerformAll(m, start, Actions(plan, d.orders)).st, RunDay(m, st, plan).st);
  }

  /** Main result: in every run each delivered order took exactly its lead time plus its own delays, never more than
      the lead time plus the cumulative limit, and the delay counters cover every order ever placed. */
  lemma {:induction false} RunKeepsTracking(m: Setup, st: State, plans: seq<Plan>, days: nat)
    requires m.catalog != [] && Opening(m, st) && days <= |plans|
    ensures Tracked(m, StateAfter(m, st, plans, days))
    decreases days
  {
    hide RunDay;
    if days > 0 {
      RunKeepsTracking(m, st, plans, days - 1);
      DayKeepsTracking(m, StateAfter(m, st, plans, days - 1), plans[days - 1]);
    }
  }

  predicate PendingAs(inbound: seq<Inbound>, id: string) { exists po <- inbound :: po.poId == id }

  predicate ArrivedAs(arrivals: seq<Arrival>, id: string) { exists a <- arrivals :: a.po.poId == id }

  lemma {:induction false} PendingCounted(inbound: seq<Inbound>, id: string)
    ensures PendingIds(inbound)[id] > 0 <==> PendingAs(inbound, id)
    ensures |PendingIds(inbound)| == |inbound|
  {
    if inbound != [] {
      var (front, last) := (inbound[..|inbound| - 1], inbound[|inbound| - 1]);
      PendingCounted(front, id);
      assert inbound == front + [last];
      if PendingAs(front, id) {
        var po :| po in front && po.poId == id;
        assert po in inbound;
      }
      assert last in inbound;
    }
  }

  lemma {:induction false} ArrivedCounted(arrivals: seq<Arrival>, id: string)
    ensures ArrivedIds(arrivals)[id] > 0 <==> ArrivedAs(arrivals, id)
  {
    if arrivals != [] {
      var (front, last) := (arrivals[..|arrivals| - 1], arrivals[|arrivals| - 1]);
      ArrivedCounted(front, id);
      assert arrivals == front + [last];
      if ArrivedAs(front, id) {
        var a :| a in front && a.po.poId == id;
        assert a in arrivals;
      }
      assert last in arrivals;
    }
  }

  /** Main result: every purchase order ever placed is, under its own identifier, either still pending or arrived,
      never both, never twice, and never lost. */
  lemma EveryOrderOnce(m: Setup, st: State, plans: seq<Plan>, days: nat, id: string)
    requires m.catalog != [] && Opening(m, st) && days <= |plans|
    ensures var r := StateAfter(m, st, plans, days);
            && PendingIds(r.inbound)[id] + ArrivedIds(r.history.arrivals)[id]
               == (if id in r.history.purchaseIds then 1 else 0)
            && (id in r.history.purchaseIds <==>
                  PendingAs(r.inbound, id) || ArrivedAs(r.history.arrivals, id))
            && !(PendingAs(r.inbound, id) && ArrivedAs(r.history.arrivals, id))
  {
    hide StateAfter;
    RunKeepsTracking(m, st, plans, days);
    IdentifiersUnique(m, st, plans, days);
    var r := StateAfter(m, st, plans, days);
    DistinctOnce(r.history.purchaseIds, id);
    PendingCounted(r.inbound, id);
    assert Traced(r, []);
    ArrivedCounted(r.history.arrivals, id);
    assert multiset(r.history.purchaseIds)[id] == PendingIds(r.inbound)[id] + ArrivedIds(r.history.arrivals)[id];
  }

  /** No order is ever later than its lead time plus the cumulative delay limit. */
  lemma LatenessBound(m: Setup, st: State, plans: seq<Plan>, days: nat)
    requires m.catalog != [] && Opening(m, st) && days <= |plans|
    ensures forall a <- StateAfter(m, st, plans, days).history.arrivals :: a.po.leadTime >= 1 ==>
              && a.day == a.po.placedOn + a.po.leadTime + a.po.delay
              && a.day <= a.po.placedOn + a.po.leadTime + DelayLimit(m)
  {
    hide StateAfter, DelayLimit;
    RunKeepsTracking(m, st, plans, days);
    assert Tracked(m, StateAfter(m, st, plans, days));
    assert forall a <- StateAfter(m, st, plans, days).history.arrivals :: OnTime(m, a);
  }
}
