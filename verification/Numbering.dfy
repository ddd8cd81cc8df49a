/** Identifiers: orders, purchase orders and returns never share a printed number within a run. */
module Numbering {
  import opened Numbers
  import opened Rng
  import opened Ids
  import opened Market
  import opened Events
  import opened Demand
  import opened Trading
  import opened DayCycle

  /** Numbers issued so far: all distinct, none for a later day, and today's within the current queue length. */
  predicate Issued(prefix: string, keys: seq<Key>, ids: seq<string>, day: nat, queue: nat) {
    && |ids| == |keys|
    && (forall i :: 0 <= i < |ids| ==> ids[i] == Dated(prefix, keys[i]))
    && Distinct(keys)
    && (forall key <- keys :: key.day <= day && (key.day == day ==> key.slot <= queue))
  }

  predicate AllIssued(st: State) {
    && Issued("PO-", st.history.purchaseKeys, st.history.purchaseIds, st.day, |st.inbound|)
    && Issued("RET-", st.history.returnKeys, st.history.returnIds, st.day, |st.openReturns|)
    && Numbered(st)
  }

  /** A new day starts numbering afresh, however short the queue has become. */
  lemma NewDay(prefix: string, keys: seq<Key>, ids: seq<string>, day: nat, before: nat, queue: nat)
    requires Issued(prefix, keys, ids, day, before)
    ensures Issued(prefix, keys, ids, day + 1, queue)
  {
  }

  /** Numbering by queue length is safe while the queue only grows. */
  lemma NextIssued(prefix: string, keys: seq<Key>, ids: seq<string>, day: nat, queue: nat)
    requires Issued(prefix, keys, ids, day, queue)
    ensures var key := Key(day, queue + 1); Issued(prefix, keys + [key], ids + [Dated(prefix, key)], day, queue + 1)
  {
    var key := Key(day, queue + 1);
    forall i | 0 <= i < |keys| ensures keys[i] != key { assert keys[i] in keys; }
  }

  predicate SameNumbering(before: State, after: State) {
    && after.day == before.day && after.nextOrder == before.nextOrder
    && after.history.orderIds == before.history.orderIds
  }

  predicate SamePurchases(before: State, after: State) {
    && |after.inbound| == |before.inbound|
    && after.history.purchaseKeys == before.history.purchaseKeys
    && after.history.purchaseIds == before.history.purchaseIds
  }

  predicate SameReturns(before: State, after: State) {
    && |after.openReturns| == |before.openReturns|
    && after.history.returnKeys == before.history.returnKeys
    && after.history.returnIds == before.history.returnIds
  }

  /** One more entry, numbered with today's date and the new queue length. */
  predicate MorePurchases(before: State, after: State) {
    var key := Key(before.day, |before.inbound| + 1);
    && |after.inbound| == |before.inbound| + 1
    && after.history.purchaseKeys == before.history.purchaseKeys + [key]
    && after.history.purchaseIds == before.history.purchaseIds + [PurchaseId(key)]
  }

  predicate MoreReturns(before: State, after: State) {
    var key := Key(before.day, |before.openReturns| + 1);
    && |after.openReturns| == |before.openReturns| + 1
    && after.history.returnKeys == before.history.returnKeys + [key]
    && after.history.returnIds == before.history.returnIds + [ReturnId(key)]
  }

  lemma FlaggingNumbers(m: Setup, st: State, order: Order, p: Product, revenue: int)
    ensures var r := Flagged(m, st, order, p, revenue);
            && SameNumbering(st, r) && SamePurchases(st, r) && (SameReturns(st, r) || MoreReturns(st, r))
  {
  }

  lemma SaleNumbers(m: Setup, x: Evening, order: Order, accepted: bool)
    ensures var r := Sold(m, x, order, accepted).st;
            && SameNumbering(x.st, r) && SamePurchases(x.st, r) && (SameReturns(x.st, r) || MoreReturns(x.st, r))
  {
    hide Flagged, Fees, Attributed;
    if order.sku in x.st.products {
      var p := x.st.products[order.sku];
      FlaggingNumbers(m, PaidFor(m, x, order, p).st, order, p, p.price * order.quantity);
    }
  }

  lemma ActionNumbers(m: Setup, x: Evening, a: Action)
    ensures var r := Perform(m, x, a).st;
            && SameNumbering(x.st, r)
            && (SamePurchases(x.st, r) || MorePurchases(x.st, r))
            && (SameReturns(x.st, r) || MoreReturns(x.st, r))
  {
    hide Sold;
    if a.Sell? { SaleNumbers(m, x, a.order, a.accepted); }
  }

  lemma {:induction false} TradingNumbers(m: Setup, x: Evening, actions: seq<Action>)
    requires AllIssued(x.st)
    ensures AllIssued(PerformAll(m, x, actions).st)
    decreases |actions|
  {
    hide Perform, Dated;
    if actions != [] {
      ActionNumbers(m, x, actions[0]);
      NextIssued("PO-", x.st.history.purchaseKeys, x.st.history.purchaseIds, x.st.day, |x.st.inbound|);
      NextIssued("RET-", x.st.history.returnKeys, x.st.history.returnIds, x.st.day, |x.st.openReturns|);
      TradingNumbers(m, Perform(m, x, actions[0]), actions[1..]);
    }
  }

  lemma DayNumbers(m: Setup, st: State, plan: Plan)
    requires m.catalog != [] && AllIssued(st)
    ensures AllIssued(RunDay(m, st, plan).st)
  {
    hide MorningOf, Prepared, RunDay, PerformAll, Dated;
    MorningFrame(m, st);
    var r := MorningOf(m, st).st;
    NewDay("PO-", st.history.purchaseKeys, st.history.purchaseIds, st.day, |st.inbound|, |r.inbound|);
    NewDay("RET-", st.history.returnKeys, st.history.returnIds, st.day, |st.openReturns|, |r.openReturns|);
    MarketOpens(m, st);
    var d := Prepared(m, st);
    TradingNumbers(m, Opened(m, d.st, |d.orders|, d.adj), Actions(plan, d.orders));
    EveningCloses(m, st, plan);
  }

  lemma {:induction false} RunNumbers(m: Setup, st: State, plans: seq<Plan>, days: nat)
    requires m.catalog != [] && Opening(m, st) && days <= |plans|
    ensures AllIssued(StateAfter(m, st, plans, days))
    decreases days
  {
    hide RunDay;
    if days > 0 {
      RunNumbers(m, st, plans, days - 1);
      DayNumbers(m, StateAfter(m, st, plans, days - 1), plans[days - 1]);
    }
  }

  function NamesOf(orders: seq<Order>): seq<string> {
    seq(|orders|, i requires 0 <= i < |orders| => orders[i].orderId)
  }

  /** The record has grown by exactly the names of these orders, one by one. */
  predicate Noted(before: seq<string>, b: Batch) { b.st.history.orderIds == before + NamesOf(b.orders) }

  lemma NextNoted(m: Setup, b: Batch, sku: Sku, before: seq<string>)
    requires sku in b.st.products && Noted(before, b)
    ensures Noted(before, NextOrder(m, b, sku))
  {
    hide OrderId, Ceiling, RandInt;
    var next := NextOrder(m, b, sku);
    assert NamesOf(next.orders) == NamesOf(b.orders) + [next.orders[|b.orders|].orderId];
  }

  lemma {:induction false} OrdersForNoted(m: Setup, b: Batch, sku: Sku, count: nat, before: seq<string>)
    requires sku in b.st.products && Noted(before, b)
    ensures Noted(before, OrdersFor(m, b, sku, count))
    decreases count
  {
    if count > 0 {
      NextNoted(m, b, sku, before);
      OrdersForNoted(m, NextOrder(m, b, sku), sku, count - 1, before);
    }
  }

  lemma {:induction false} OrdersRunNoted(m: Setup, b: Batch, skus: seq<Sku>, before: seq<string>)
    requires Noted(before, b)
    ensures Noted(before, OrdersRun(m, b, skus))
    decreases |skus|
  {
    hide DemandOf, OrdersFor;
    if skus != [] {
      if skus[0] in b.st.products {
        var drawn := b.(st := b.st.(cursor := b.st.cursor + 1));
        var count := DemandOf(m, b.st, skus[0]);
        OrdersForNoted(m, drawn, skus[0], count, before);
        OrdersRunNoted(m, OrdersFor(m, drawn, skus[0], count), skus[1..], before);
      } else {
        OrdersRunNoted(m, b, skus[1..], before);
      }
    }
  }

  lemma NamesCounted(orders: seq<Order>)
    ensures |NamesOf(orders)| == |orders|
  {
  }

  lemma NamesSwapped(orders: seq<Order>, i: nat, j: nat)
    requires i < |orders| && j < |orders|
    ensures |NamesOf(orders)| == |orders| && NamesOf(Swap(orders, i, j)) == Swap(NamesOf(orders), i, j)
  {
  }

  /** Shuffling orders shuffles their names. */
  lemma {:induction false} NamesShuffled(orders: seq<Order>, top: nat, draws: Stream, cursor: nat)
    requires top < |orders| || top == 0
    ensures NamesOf(Shuffled(orders, top, draws, cursor)) == Shuffled(NamesOf(orders), top, draws, cursor)
    decreases top
  {
    hide Swap, Pick, NamesOf;
    NamesCounted(orders);
    if top > 0 {
      var i := Pick(top + 1, draws(cursor));
      NamesSwapped(orders, top, i);
      NamesShuffled(Swap(orders, top, i), top - 1, draws, cursor + 1);
    }
  }

  lemma GeneratedNoted(m: Setup, st: State)
    ensures var (b, before) := (Generated(m, st), st.history.orderIds);
            && |b.st.history.orderIds| == |before| + |b.orders| && b.st.history.orderIds[..|before|] == before
            && multiset(b.st.history.orderIds[|before|..]) == multiset(NamesOf(b.orders))
  {
    var start := Batch(st.(products := RolledForward(st.products)), []);
    assert NamesOf([]) == [];
    OrdersRunNoted(m, start, m.catalog, st.history.orderIds);
    var run := OrdersRun(m, start, m.catalog);
    NamesShuffled(run.orders, if run.orders == [] then 0 else |run.orders| - 1, m.draws, run.st.cursor);
    assert run.st.history.orderIds[|st.history.orderIds|..] == NamesOf(run.orders);
  }

  /** The orders a day hands out are exactly those it puts on record. */
  lemma DayNotes(m: Setup, st: State)
    requires m.catalog != []
    ensures var (d, before) := (Prepared(m, st), st.history.orderIds);
            && |d.st.history.orderIds| == |before| + |d.orders| && d.st.history.orderIds[..|before|] == before
            && multiset(d.st.history.orderIds[|before|..]) == multiset(NamesOf(d.orders))
  {
    hide MorningOf, EvolvedFrom, Generated, Injected;
    MorningFrame(m, st);
    var morning := MorningOf(m, st).st;
    EvolveFrame(m, morning, 0);
    var evolved := EvolvedFrom(m, morning, 0);
    GeneratedNoted(m, evolved);
    InjectedFrame(m, Generated(m, evolved).st);
  }

  lemma EveningNotesNothing(m: Setup, st: State, plan: Plan)
    requires m.catalog != []
    ensures RunDay(m, st, plan).st.history.orderIds == Prepared(m, st).st.history.orderIds
  {
    hide Prepared, RunDay, PerformAll, Actions;
    var d := Prepared(m, st);
    TradingNotesNothing(m, Opened(m, d.st, |d.orders|, d.adj), Actions(plan, d.orders));
    EveningCloses(m, st, plan);
  }

  lemma {:induction false} TradingNotesNothing(m: Setup, x: Evening, actions: seq<Action>)
    ensures PerformAll(m, x, actions).st.history.orderIds == x.st.history.orderIds
    decreases |actions|
  {
    hide Perform;
    if actions != [] {
      ActionNumbers(m, x, actions[0]);
      TradingNotesNothing(m, Perform(m, x, actions[0]), actions[1..]);
    }
  }

  /** Every order handed out on the first days of a run, day after day. */
  function AllOrders(m: Setup, st: State, plans: seq<Plan>, days: nat): seq<Order>
    requires m.catalog != [] && days <= |plans|
    decreases days
  {
    if days == 0 then []
    else AllOrders(m, st, plans, days - 1) + Prepared(m, StateAfter(m, st, plans, days - 1)).orders
  }

  lemma {:induction false} AllOrdersNoted(m: Setup, st: State, plans: seq<Plan>, days: nat)
    requires m.catalog != [] && Opening(m, st) && days <= |plans|
    ensures multiset(NamesOf(AllOrders(m, st, plans, days)))
            == multiset(StateAfter(m, st, plans, days).history.orderIds)
    decreases days
  {
    hide Prepared, RunDay;
    if days > 0 {
      AllOrdersNoted(m, st, plans, days - 1);
      var (before, today) := (StateAfter(m, st, plans, days - 1), Prepared(m, StateAfter(m, st, plans, days - 1)));
      DayNotes(m, before);
      EveningNotesNothing(m, before, plans[days - 1]);
      NextDay(m, st, plans, days - 1);
      hide StateAfter;
      NotesJoin(AllOrders(m, st, plans, days - 1), today.orders);
      var (earlier, now) := (before.history.orderIds, today.st.history.orderIds);
      assert now == earlier + now[|earlier|..];
    }
  }

  lemma NotesJoin(orders: seq<Order>, more: seq<Order>)
    ensures NamesOf(orders + more) == NamesOf(orders) + NamesOf(more)
  {
  }

  /** Main result: over a whole run no two orders handed out, no two purchase orders and no two returns print alike. */
  lemma IdentifiersUnique(m: Setup, st: State, plans: seq<Plan>, days: nat)
    requires m.catalog != [] && Opening(m, st) && days <= |plans|
    ensures Distinct(NamesOf(AllOrders(m, st, plans, days)))
    ensures var h := StateAfter(m, st, plans, days).history; Distinct(h.purchaseIds) && Distinct(h.returnIds)
  {
    hide StateAfter, RunDay, Dated, AllOrders, NamesOf;
    RunNumbers(m, st, plans, days);
    var h := StateAfter(m, st, plans, days).history;
    DistinctOrderIds(h.orderIds);
    AllOrdersNoted(m, st, plans, days);
    DistinctAnyOrder(h.orderIds, NamesOf(AllOrders(m, st, plans, days)));
    DistinctDatedIds("PO-", h.purchaseKeys, h.purchaseIds);
    DistinctDatedIds("RET-", h.returnKeys, h.returnIds);
  }
}
