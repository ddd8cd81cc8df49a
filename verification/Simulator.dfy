/** The simulator as an object: its daily methods update cash, stock and queues in place, and each is proved to do
    exactly what the corresponding step function says. */
module Simulator {
  import opened Numbers
  import opened Rng
  import opened Ids
  import opened Market
  import opened SupplyChain
  import opened ReturnsDesk
  import opened Events
  import opened Demand
  import opened Trading
  import opened DayCycle
  import opened DemandCache
  import opened Effects
  import opened Obedience

  class MarketSimulator {
    const m: Setup
    const startingCapital: int
    const startingInventory: int
    var day: nat
    var capital: int
    var products: map<Sku, Product>
    var backlog: map<Sku, int>
    var competitors: seq<Competitor>
    var events: seq<Event>
    var inbound: seq<Inbound>
    var openReturns: seq<Return>
    var nextOrder: nat
    var totals: Totals
    var series: Series
    var cursor: nat
    ghost var history: History

    ghost function Now(): State
      reads this
    {
      State(day, capital, startingCapital, startingInventory, products, backlog, competitors, events, inbound,
            openReturns, nextOrder, totals, series, cursor, history)
    }

    /** A simulator before its first day, over a given opening stock and opening competitors. */
    constructor (m: Setup, capital: int, products: map<Sku, Product>, competitors: seq<Competitor>)
      ensures this.m == m && this.capital == capital && this.products == products && this.competitors == competitors
      ensures Now().history == NoHistory && Now().totals == NoTotals && Now().series == NoSeries
      ensures day == 0 && nextOrder == 0 && events == [] && inbound == [] && openReturns == []
      ensures startingCapital == capital && startingInventory == InventoryOf(m.catalog, products)
      ensures backlog == map sku | sku in products :: 0
    {
      this.m := m;
      this.startingCapital := capital;
      this.startingInventory := InventoryOf(m.catalog, products);
      this.day := 0;
      this.capital := capital;
      this.products := products;
      this.backlog := map sku | sku in products :: 0;
      this.competitors := competitors;
      this.events := [];
      this.inbound := [];
      this.openReturns := [];
      this.nextOrder := 0;
      this.totals := NoTotals;
      this.series := NoSeries;
      this.cursor := 0;
      this.history := NoHistory;
    }

    /** An order still more than a day away may slip, within its lane's risk and its cumulative limit. */
    method SlipOrder(queued: Inbound) returns (po: Inbound)
      modifies this
      ensures var slip := SlipOf(m, old(Now()), queued);
              && po == queued.(daysUntilArrival := queued.daysUntilArrival + slip.days,
                               delay := queued.delay + slip.days)
              && Now() == old(Now()).(cursor := old(cursor) + slip.draws, totals := Counted(old(totals), slip))
      ensures queued.delay <= po.delay <= Max(queued.delay, DelayLimit(m))
      ensures Slipped(m, old(Now()), Now(), queued, po)
    {
      hide Slipped;
      SlipSlips(m, Now(), queued);
      hide LaneDelayRisk, RandInt;
      po := queued;
      if po.daysUntilArrival > 1 && po.delay < DelayLimit(m) {
        var gate := m.draws(cursor);
        cursor := cursor + 1;
        if gate < LaneDelayRisk(m, events, po) {
          var longest := if m.delayMax < m.delayMin then m.delayMin else m.delayMax;
          var days := RandInt(m.delayMin, longest, m.draws(cursor));
          cursor := cursor + 1;
          days := Min(days, DelayLimit(m) - po.delay);
          if days > 0 {
            po := po.(daysUntilArrival := po.daysUntilArrival + days, delay := po.delay + days);
            totals := totals.(delayEvents := totals.delayEvents + 1, delayDays := totals.delayDays + days);
          }
        }
      }
    }

    /** A due order arrives whole or in part and moves the product's cost basis. */
    method ReceiveOrder(po: Inbound)
      requires po.sku in products
      modifies this
      ensures Now() == Deliver(m, old(Now()), po)
      ensures Received(m, old(Now()), Now(), po)
    {
      hide Received;
      DeliverReceives(m, Now(), po);
      hide Uniform, DeliveredQty, Blend;
      var product := products[po.sku];
      var ratio := 1.0;
      var fill := m.draws(cursor);
      cursor := cursor + 1;
      if fill > po.reliability {
        ratio := Uniform(0.65, 0.95, m.draws(cursor));
        cursor := cursor + 1;
      }
      var qty := DeliveredQty(po.quantity, ratio);
      if qty > 0 {
        product := product.(stock := product.stock + qty);
        product := product.(cost := Blend(product.cost, po.unitCost));
      }
      products := products[po.sku := product];
      history := history.(arrivals := history.arrivals + [Arrival(po, day, qty)]);
    }

    /** One order of the morning queue: it may slip, counts down, and is received when due. */
    method ProcessInboundOrder(queued: Inbound, remaining: seq<Inbound>) returns (kept: seq<Inbound>)
      modifies this
      ensures inbound == old(inbound)
      ensures Now().(inbound := kept) == InboundStep(m, old(Now()).(inbound := remaining), queued)
    {
      hide SlipOf, Deliver;
      ghost var before := Now();
      SlipIgnoresQueue(before, remaining, queued);
      var po := SlipOrder(queued);
      po := po.(daysUntilArrival := po.daysUntilArrival - 1);
      if po.daysUntilArrival > 0 {
        return remaining + [po];
      }
      kept := remaining;
      if po.sku !in products {
        history := history.(arrivals := history.arrivals + [Arrival(po, day, 0)]);
      } else {
        DeliverIgnoresQueue(Now(), remaining, po);
        ReceiveOrder(po);
      }
    }

    lemma SlipIgnoresQueue(st: State, other: seq<Inbound>, po: Inbound)
      ensures SlipOf(m, st.(inbound := other), po) == SlipOf(m, st, po)
    {
    }

    lemma DeliverIgnoresQueue(st: State, other: seq<Inbound>, po: Inbound)
      ensures Deliver(m, st.(inbound := other), po) == Deliver(m, st, po).(inbound := other)
      ensures Deliver(m, st, po).inbound == st.inbound
    {
    }

    method ProcessInboundOrders()
      modifies this
      ensures Now() == InboundMorning(m, old(Now()))
    {
      var queue := inbound;
      var remaining: seq<Inbound> := [];
      for i := 0 to |queue|
        invariant inbound == queue
        invariant InboundRun(m, Now().(inbound := remaining), queue[i..]) == InboundMorning(m, old(Now()))
      {
        remaining := ProcessInboundOrder(queue[i], remaining);
        assert queue[i..][1..] == queue[i + 1..];
      }
      inbound := remaining;
    }

    /** Put back what came back whole and sell the rest for salvage. */
    method ReconcileUnits(r: Return, adj0: Adjustments) returns (adj: Adjustments)
      modifies this
      ensures Morning(Now(), adj) == Reconcile(m, Morning(old(Now()), adj0), r)
      ensures Reshelved(m, Morning(old(Now()), adj0), Morning(Now(), adj), r)
    {
      hide Reshelved;
      ReconcileReshelves(m, Morning(Now(), adj0), r);
      hide RecoveredUnits, Appraised;
      adj := adj0.(processed := adj0.processed + 1);
      totals := totals.(returnsProcessed := totals.returnsProcessed + 1);
      if r.sku in products {
        var product := products[r.sku];
        var recovered := RecoveredUnits(r);
        if recovered > 0 {
          products := products[r.sku := product.(stock := product.stock + recovered)];
        } else {
          assert products == products[r.sku := product];
        }
        var damaged := Max(0, r.quantity - recovered);
        if damaged > 0 {
          var salvage := Appraised(m, product, damaged);
          if salvage > 0 {
            capital := capital + salvage;
            adj := adj.(salvage := adj.salvage + salvage);
            totals := totals.(salvage := totals.salvage + salvage);
          }
        }
      }
    }

    /** Refund what cash allows and reconcile the units the first time. */
    method SettleReturn(due: Return, adj0: Adjustments) returns (adj: Adjustments, paid: int)
      modifies this
      ensures paid == Affordable(due.refund, old(capital))
      ensures Morning(Now(), adj) == Settle(m, Morning(old(Now()), adj0), due)
    {
      hide Reconcile, Reshelved;
      adj := adj0;
      paid := Min(due.refund, Max(capital, 0));
      if paid > 0 {
        capital := capital - paid;
        adj := adj.(refunds := adj.refunds + paid);
        totals := totals.(refundsPaid := totals.refundsPaid + paid);
      }
      if !due.reconciled {
        adj := ReconcileUnits(due, adj);
      }
    }

    /** One return of the morning queue: settle it when it is due, then close or keep it. */
    method ProcessPendingReturn(queued: Return, remaining: seq<Return>, adj0: Adjustments)
      returns (kept: seq<Return>, adj: Adjustments)
      modifies this
      ensures openReturns == old(openReturns)
      ensures Morning(Now().(openReturns := kept), adj)
              == ReturnStep(m, Morning(old(Now()).(openReturns := remaining), adj0), queued)
      ensures queued.refund >= 0 ==>
                Refunded(m, Morning(old(Now()).(openReturns := remaining), adj0),
                         Morning(Now().(openReturns := kept), adj), queued)
    {
      hide Refunded, Settle, Settled;
      if queued.refund >= 0 { ReturnStepRefunds(m, Morning(Now().(openReturns := remaining), adj0), queued); }
      var due := queued.(daysLeft := queued.daysLeft - 1);
      if due.daysLeft > 0 {
        return remaining + [due], adj0;
      }
      SettleIgnoresQueue(Morning(Now(), adj0), remaining, due);
      var r := Settled(m, products, due, Affordable(due.refund, capital));
      var paid;
      adj, paid := SettleReturn(due, adj0);
      kept := remaining;
      if due.refund > paid {
        kept := remaining + [r.(refund := due.refund - paid, daysLeft := 1)];
      } else {
        history := history.(closedReturns := history.closedReturns + [r]);
      }
    }

    lemma SettleIgnoresQueue(x: Morning, other: seq<Return>, r: Return)
      ensures var y := Settle(m, x, r);
              && Settle(m, x.(st := x.st.(openReturns := other)), r) == y.(st := y.st.(openReturns := other))
              && y.st.openReturns == x.st.openReturns
    {
      hide RecoveredUnits, DamagedUnits, SalvageValue;
    }

    method ProcessPendingReturns() returns (adj: Adjustments)
      modifies this
      ensures Morning(Now(), adj) == ReturnMorning(m, old(Now()))
    {
      var queue := openReturns;
      var remaining: seq<Return> := [];
      adj := Adjustments(0, 0, 0);
      for i := 0 to |queue|
        invariant openReturns == queue
        invariant ReturnRun(m, Morning(Now().(openReturns := remaining), adj), queue[i..])
                  == ReturnMorning(m, old(Now()))
      {
        remaining, adj := ProcessPendingReturn(queue[i], remaining, adj);
        assert queue[i..][1..] == queue[i + 1..];
      }
      openReturns := remaining;
    }

    /** Every competitor drifts or undercuts, within the floor and cap of our own product. */
    method EvolveCompetitorPrices()
      modifies this
      ensures Now() == EvolvedFrom(m, old(Now()), 0)
    {
      hide DriftTarget, EvolvedPrice, Pressure;
      for i := 0 to |competitors|
        invariant |competitors| == |old(competitors)|
        invariant EvolvedFrom(m, Now(), i) == EvolvedFrom(m, old(Now()), 0)
      {
        var c := competitors[i];
        if c.sku in products {
          var product := products[c.sku];
          var undercut := m.draws(cursor);
          var move := m.draws(cursor + 1);
          cursor := cursor + 2;
          var price := EvolvedPrice(product, DriftTarget(product, c, undercut, move), Pressure(events, c.sku));
          competitors := competitors[i := c.(price := price)];
        }
      }
    }

    /** Yesterday's advertising takes effect; each product is visited once. */
    method RollForwardDailyEffects()
      modifies this
      ensures Now() == old(Now()).(products := RolledForward(old(products)))
    {
      ghost var before := products;
      var todo := products.Keys;
      while todo != {}
        invariant todo <= before.Keys && products.Keys == before.Keys
        invariant forall sku <- todo :: products[sku] == before[sku]
        invariant forall sku <- before.Keys :: sku in todo || products[sku] == RolledForward(before)[sku]
        invariant Now() == old(Now()).(products := products)
        decreases |todo|
      {
        SomeElement(todo);
        var sku :| sku in todo;
        var product := products[sku];
        products := products[sku := product.(adBoost := MaxReal(0.2, product.nextAdBoost), nextAdBoost := 1.0)];
        todo := todo - {sku};
      }
      assert products == RolledForward(before);
    }

    /** The day's orders: demand per product in catalogue order, one numbered order a unit of demand, then a shuffle. */
    method GenerateDailyOrders() returns (orders: seq<Order>)
      modifies this
      ensures Batch(Now(), orders) == Generated(m, old(Now()))
    {
      hide DemandOf;
      RollForwardDailyEffects();
      ghost var start := Batch(Now(), []);
      orders := [];
      for i := 0 to |m.catalog|
        invariant OrdersRun(m, Batch(Now(), orders), m.catalog[i..]) == OrdersRun(m, start, m.catalog)
      {
        var sku := m.catalog[i];
        assert m.catalog[i..][1..] == m.catalog[i + 1..];
        if sku in products {
          orders := GenerateOrdersFor(sku, orders);
        }
      }
      orders := ShuffleOrders(orders);
    }

    method GenerateOrdersFor(sku: Sku, orders0: seq<Order>) returns (orders: seq<Order>)
      requires sku in products
      modifies this
      ensures Batch(Now(), orders)
              == OrdersFor(m, Batch(old(Now()).(cursor := old(cursor) + 1), orders0), sku, DemandOf(m, old(Now()), sku))
    {
      hide NextOrder;
      ghost var start := Batch(Now().(cursor := cursor + 1), orders0);
      ghost var count := DemandOf(m, Now(), sku);
      var demand := DrawDemand(sku);
      orders := orders0;
      for made := 0 to demand
        invariant sku in products
        invariant OrdersFor(m, Batch(Now(), orders), sku, demand - made) == OrdersFor(m, start, sku, count)
      {
        orders := GenerateOrder(sku, orders);
      }
    }

    method DrawDemand(sku: Sku) returns (demand: nat)
      requires sku in products
      modifies this`cursor
      ensures demand == DemandOf(m, old(Now()), sku)
      ensures Now() == old(Now()).(cursor := old(cursor) + 1)
    {
      hide RawDemand, PriceFactor, Seasoned;
      var product := products[sku];
      var raw := RawDemand(product, m.draws(cursor)) as real;
      var seasonal := m.seasonalDemand(day, product.category);
      demand := Seasoned(raw, PriceFactor(competitors, sku, product.price), seasonal);
      cursor := cursor + 1;
    }

    method GenerateOrder(sku: Sku, orders0: seq<Order>) returns (orders: seq<Order>)
      requires sku in products
      modifies this
      ensures products == old(products)
      ensures Batch(Now(), orders) == NextOrder(m, Batch(old(Now()), orders0), sku)
    {
      hide Ceiling, RandInt, OrderId;
      nextOrder := nextOrder + 1;
      var ceiling := Ceiling(products[sku].price, m.draws(cursor));
      var quantity := RandInt(1, 3, m.draws(cursor + 1));
      cursor := cursor + 2;
      var order := Order(OrderId(nextOrder), sku, quantity, ceiling);
      orders := orders0 + [order];
      history := history.(orderIds := history.orderIds + [order.orderId]);
    }

    method ShuffleOrders(orders0: seq<Order>) returns (orders: seq<Order>)
      modifies this`cursor
      ensures Batch(Now(), orders) == Shuffling(m, Batch(old(Now()), orders0))
    {
      hide Swap, Pick;
      orders := orders0;
      ghost var start := cursor;
      var top := if orders == [] then 0 else |orders| - 1;
      var i := top;
      while i > 0
        invariant |orders| == |orders0| && 0 <= i <= top && cursor == start + (top - i)
        invariant Shuffled(orders, i, m.draws, cursor) == Shuffled(orders0, top, m.draws, start)
        decreases i
      {
        orders := SwapAt(orders, i);
        i := i - 1;
      }
    }

    method SwapAt(orders: seq<Order>, i: nat) returns (swapped: seq<Order>)
      requires 0 < i < |orders|
      modifies this`cursor
      ensures cursor == old(cursor) + 1 && |swapped| == |orders|
      ensures Shuffled(orders, i, m.draws, old(cursor)) == Shuffled(swapped, i - 1, m.draws, cursor)
    {
      hide Swap, Pick;
      swapped := Swap(orders, i, Pick(i + 1, m.draws(cursor)));
      cursor := cursor + 1;
    }

    /** Neutral multipliers first, then each active event is applied to its own product, clamped each time. */
    method RecalculateDemandMultipliers()
      modifies this`products
      ensures Now() == Recalculated(old(Now()))
    {
      hide MultiplierFor, DemandFactor, Scaled;
      ghost var before := products;
      products := map sku | sku in products :: products[sku].(demandMultiplier := 1.0);
      forall sku ensures MultiplierFor(events[..0], sku) == 1.0 { NoEvents(sku); }
      for i := 0 to |events|
        invariant products.Keys == before.Keys
        invariant forall sku <- before.Keys ::
          products[sku] == before[sku].(demandMultiplier := MultiplierFor(events[..i], sku))
      {
        var e := events[i];
        ghost var was := products;
        if DemandFactor(e) != 1.0 && e.sku in products {
          var product := products[e.sku];
          products := products[e.sku := product.(demandMultiplier := Scaled(product.demandMultiplier, e))];
        }
        forall sku <- before.Keys
          ensures products[sku] == before[sku].(demandMultiplier := MultiplierFor(events[..i + 1], sku))
        {
          NextEvent(events, i, sku);
          assert was[sku].demandMultiplier == MultiplierFor(events[..i], sku);
        }
      }
      assert events[..|events|] == events;
      assert products == Recalculated(old(Now())).products;
    }

    static ghost function Stepped(events: seq<Event>, e: Event, sku: Sku): real {
      if e.sku == sku && DemandFactor(e) != 1.0 then Scaled(MultiplierFor(events, sku), e)
      else MultiplierFor(events, sku)
    }

    static lemma NoEvents(sku: Sku)
      ensures MultiplierFor([], sku) == 1.0
    {
    }

    static lemma NextEvent(events: seq<Event>, i: nat, sku: Sku)
      requires i < |events|
      ensures MultiplierFor(events[..i + 1], sku) == Stepped(events[..i], events[i], sku)
    {
      hide Scaled, Compound, DemandFactor;
      var longer := events[..i + 1];
      assert longer[..|longer| - 1] == events[..i] && longer[|longer| - 1] == events[i];
      OtherKinds(events[i]);
      if Shapes(events[i], sku) {
        CompoundExtends(Shaping(events[..i], sku), events[i]);
      }
    }

    static lemma OtherKinds(e: Event)
      ensures DemandFactor(e) == 1.0 || e.kind.DemandSpike? || e.kind.DemandCrash?
    {
    }

    static lemma CompoundExtends(events: seq<Event>, e: Event)
      ensures Compound(events + [e]) == Scaled(Compound(events), e)
      ensures DemandFactor(e) == 1.0 ==> Compound(events + [e]) == Compound(events)
    {
      var longer := events + [e];
      assert longer[..|longer| - 1] == events && longer[|longer| - 1] == e;
      CompoundBetween(events);
      hide Scaled, DemandFactor;
      if DemandFactor(e) == 1.0 { NeutralFactor(Compound(events), e); }
    }

    static lemma NeutralFactor(multiplier: real, e: Event)
      requires 0.2 <= multiplier <= 4.0 && DemandFactor(e) == 1.0
      ensures Scaled(multiplier, e) == multiplier
    {
      hide DemandFactor;
    }

    method ApplyEventInitialEffects(e: Event)
      modifies this
      ensures Now() == InitialEffects(old(Now()), e)
      ensures Hit(old(Now()), Now(), e)
    {
      hide Hit;
      InitialEffectsHit(Now(), e);
      if e.sku !in products { return; }
      if e.kind.ReviewBomb? {
        var product := products[e.sku];
        products := products[e.sku := product.(rating := Drop(product.rating, ReviewDrop(e)))];
      } else if e.kind.PriceWar? {
        ShockCompetitors(e);
      }
    }

    method ShockCompetitors(e: Event)
      modifies this`competitors
      ensures competitors == Shocked(old(competitors), e)
    {
      hide ShockedPrice;
      for i := 0 to |competitors|
        invariant |competitors| == |old(competitors)|
        invariant competitors[..i] == Shocked(old(competitors), e)[..i]
        invariant competitors[i..] == old(competitors)[i..]
      {
        var rival := competitors[i];
        if rival.sku == e.sku {
          competitors := competitors[i := rival.(price := ShockedPrice(rival.price, e))];
        }
        assert competitors[i] == Shocked(old(competitors), e)[i];
      }
    }

    method MaybeInjectEvent()
      requires m.catalog != []
      modifies this
      ensures Now() == Injected(m, old(Now()))
      ensures MaybeInjected(m, old(Now()), Now())
    {
      hide MaybeInjected, Hit;
      InjectedMaybe(m, Now());
      hide DrawnEvent, InitialEffects, Recalculated;
      var gate := m.draws(cursor);
      cursor := cursor + 1;
      if gate > 0.05 { return; }
      var e := DrawnEvent(m, cursor);
      cursor := cursor + 4;
      InjectEvent(e);
    }

    method InjectEvent(e: Event)
      modifies this
      ensures Now() == Recalculated(InitialEffects(old(Now()).(events := old(events) + [e]), e))
    {
      hide Hit, InitialEffects, Recalculated;
      events := events + [e];
      ApplyEventInitialEffects(e);
      RecalculateDemandMultipliers();
    }

    /** Count every event down, let expired review attacks recover, and refresh the multipliers. */
    method UpdateEvents()
      modifies this
      ensures Now() == EventsUpdated(old(Now()))
      ensures EventsPass(old(Now()), Now())
    {
      hide EventsPass;
      UpdatePasses(Now());
      hide Recalculated, ReviewRecovery;
      var queue := events;
      var running: seq<Event> := [];
      for i := 0 to |queue|
        invariant events == queue
        invariant ExpiryRun(Now().(events := running), queue[i..]) == ExpiryRun(old(Now()).(events := []), queue)
      {
        var e := queue[i].(daysRemaining := queue[i].daysRemaining - 1);
        assert queue[i..][1..] == queue[i + 1..];
        if e.daysRemaining > 0 {
          running := running + [e];
        } else if e.kind.ReviewBomb? && e.sku in products {
          var product := products[e.sku];
          products := products[e.sku := product.(rating := Lift(product.rating, ReviewRecovery(e)))];
        }
      }
      events := running;
      RecalculateDemandMultipliers();
    }

    /** Overhead is charged as far as cash allows, and the morning's refunds and salvage enter the day's books. */
    method OpenBooks(received: nat, adj: Adjustments) returns (res: Results)
      modifies this`capital
      ensures Evening(Now(), res) == Opened(m, old(Now()), received, adj)
      ensures BooksOpen(m, old(Now()), Now(), res, adj)
    {
      hide BooksOpen;
      OpenedBooks(m, Now(), received, adj);
      res := NoResults(received);
      if m.overhead > 0 {
        var amount := Min(m.overhead, Max(capital, 0));
        if amount > 0 {
          capital := capital - amount;
          res := res.(costs := res.costs + amount, fixedCost := res.fixedCost + amount);
        }
      }
      res := res.(returnsProcessed := res.returnsProcessed + adj.processed,
                  refundsPaid := res.refundsPaid + adj.refunds,
                  salvage := res.salvage + adj.salvage);
      res := res.(revenue := res.revenue - adj.refunds);
      res := res.(revenue := res.revenue + adj.salvage);
    }

    method ApplyPriceChange(change: PriceChange)
      modifies this
      ensures forall res :: Evening(Now(), res) == PriceSet(Evening(old(Now()), res), change)
      ensures Repriced(old(Now()), Now(), change)
    {
      hide Repriced;
      PriceSetReprices(Evening(Now(), NoResults(0)), change);
      if change.sku in products && change.candidate.Some? && change.candidate.value > 0 {
        var product := products[change.sku];
        products := products[change.sku := product.(price := change.candidate.value)];
      }
    }

    method ApplyRestock(purchase: Purchase, res0: Results) returns (res: Results)
      modifies this
      ensures Evening(Now(), res) == Restocked(m, Evening(old(Now()), res0), purchase)
      ensures Stocked(m, Evening(old(Now()), res0), Evening(Now(), res), purchase)
    {
      hide Stocked;
      RestockStocks(m, Evening(Now(), res0), purchase);
      res := res0;
      if purchase.sku !in products || purchase.quantity <= 0 { return; }
      var product := products[purchase.sku];
      var quantity := Min(purchase.quantity, m.maxOrderQty);
      var cost := product.cost * quantity;
      if cost <= capital {
        capital := capital - cost;
        products := products[purchase.sku := product.(stock := product.stock + quantity)];
        history := history.(restocks := history.restocks + [Delivery(purchase.sku, quantity)]);
        res := res.(costs := res.costs + cost);
      }
    }

    /** The named supplier if there is one by that name, otherwise the cheapest, quickest, most reliable. */
    method ChooseSupplier(sku: Sku, supplier: Option<string>) returns (offer: Option<Offer>)
      ensures offer == SelectSupplier(m, sku, supplier)
      ensures Chosen(SuppliersOf(m, sku), supplier, offer)
    {
      hide Chosen;
      SelectionChosen(m, sku, supplier);
      var offers := SuppliersOf(m, sku);
      if offers == [] { return None; }
      if supplier.Some? && supplier.value != "" {
        for i := 0 to |offers|
          invariant Named(offers[i..], supplier.value) == Named(offers, supplier.value)
        {
          assert offers[i..][0] == offers[i] && offers[i..][1..] == offers[i + 1..];
          if offers[i].supplierId == supplier.value { return Some(offers[i]); }
        }
      }
      offer := Some(Preferred(offers));
    }

    method PlaceSupplierOrder(sku: Sku, quantity: int, supplier: Option<string>) returns (placed: bool, total: int)
      modifies this`inbound, this`history
      ensures var offer := SelectSupplier(m, sku, supplier);
              && (placed <==> && sku in products && quantity > 0 && offer.Some?
                              && offer.value.unitCost * Max(quantity, offer.value.minOrderQty) <= capital)
              && (placed ==> && total == offer.value.unitCost * Max(quantity, offer.value.minOrderQty)
                             && Now() == OpenOrder(old(Now()), sku, Max(quantity, offer.value.minOrderQty),
                                                   offer.value))
              && (!placed ==> Now() == old(Now()) && total == 0)
    {
      hide PurchaseId;
      if sku !in products || quantity <= 0 { return false, 0; }
      var chosen := ChooseSupplier(sku, supplier);
      if chosen.None? { return false, 0; }
      var offer := chosen.value;
      var final := Max(quantity, offer.minOrderQty);
      total := offer.unitCost * final;
      if total > capital { return false, 0; }
      var key := Key(day, |inbound| + 1);
      var po := Inbound(PurchaseId(key), offer.supplierId, sku, final, offer.unitCost, offer.reliability,
                        offer.leadTime, offer.lane, 0, day, offer.leadTime);
      inbound := inbound + [po];
      history := history.(purchaseKeys := history.purchaseKeys + [key], purchaseIds := history.purchaseIds + [po.poId]);
      placed := true;
    }

    method ApplySupplierOrder(supply: Supply, res0: Results) returns (res: Results)
      modifies this
      ensures Evening(Now(), res) == Supplied(m, Evening(old(Now()), res0), supply)
      ensures Ordered(m, Evening(old(Now()), res0), Evening(Now(), res))
    {
      hide Ordered;
      SupplyOrders(m, Evening(Now(), res0), supply);
      hide SelectSupplier, PurchaseId;
      res := res0;
      var placed, total := PlaceSupplierOrder(supply.sku, Min(supply.quantity, m.maxOrderQty), supply.supplier);
      if placed {
        capital := capital - total;
        res := res.(costs := res.costs + total, supplierOrders := res.supplierOrders + 1);
      }
    }

    method ShiftAdBudget(advert: Advert, res0: Results) returns (res: Results)
      modifies this
      ensures Evening(Now(), res) == Advertised(Evening(old(Now()), res0), advert)
      ensures Promoted(Evening(old(Now()), res0), Evening(Now(), res), advert)
    {
      hide Promoted;
      AdvertPromotes(m, Evening(Now(), res0), advert);
      res := res0;
      if advert.sku !in products || advert.spend.None? { return; }
      var spend := advert.spend.value;
      if spend <= 0 || spend > capital { return; }
      capital := capital - spend;
      res := res.(costs := res.costs + spend, adSpend := res.adSpend + spend);
      totals := totals.(adSpend := totals.adSpend + spend);
      var product := products[advert.sku];
      var boost := MinReal(1.0, spend as real / 22000.0);
      products := products[advert.sku := product.(nextAdBoost := MaxReal(product.nextAdBoost, 1.0 + boost))];
    }

    method ServeCustomers(service: Service, res0: Results) returns (res: Results)
      modifies this
      ensures Evening(Now(), res) == Served(Evening(old(Now()), res0), service)
      ensures Relieved(Evening(old(Now()), res0), Evening(Now(), res), service)
    {
      hide Relieved;
      ServiceRelieves(m, Evening(Now(), res0), service);
      hide TicketsWanted;
      res := res0;
      if service.sku !in products { return; }
      var waiting := BacklogOf(backlog, service.sku);
      if waiting <= 0 { return; }
      var resolved := TicketsWanted(waiting, service.mode);
      var cost := TicketCost(service.mode) * resolved;
      if cost > capital {
        resolved := if capital > 0 then capital / TicketCost(service.mode) else 0;
        cost := TicketCost(service.mode) * resolved;
      }
      if resolved > 0 {
        capital := capital - cost;
        res := res.(costs := res.costs + cost, tickets := res.tickets + resolved);
        backlog := backlog[service.sku := Max(0, waiting - resolved)];
        var product := products[service.sku];
        var rating := MaxReal(1.0, MinReal(5.0, product.rating + RatingDelta(service.mode)));
        products := products[service.sku := product.(rating := rating)];
      }
    }

    method ApplyPriceChanges(changes: seq<PriceChange>, res0: Results) returns (res: Results)
      modifies this
      ensures Evening(Now(), res) == PerformAll(m, Evening(old(Now()), res0), PriceActions(changes))
    {
      hide PriceSet;
      res := res0;
      ghost var actions := PriceActions(changes);
      for i := 0 to |changes|
        invariant PerformAll(m, Evening(Now(), res), actions[i..]) == PerformAll(m, Evening(old(Now()), res0), actions)
      {
        assert actions[i..][0] == SetPrice(changes[i]) && actions[i..][1..] == actions[i + 1..];
        ApplyPriceChange(changes[i]);
      }
    }

    method ApplyRestocks(purchases: seq<Purchase>, res0: Results) returns (res: Results)
      modifies this
      ensures Evening(Now(), res) == PerformAll(m, Evening(old(Now()), res0), RestockActions(purchases))
    {
      hide Restocked;
      res := res0;
      ghost var actions := RestockActions(purchases);
      for i := 0 to |purchases|
        invariant PerformAll(m, Evening(Now(), res), actions[i..]) == PerformAll(m, Evening(old(Now()), res0), actions)
      {
        assert actions[i..][0] == Restock(purchases[i]) && actions[i..][1..] == actions[i + 1..];
        res := ApplyRestock(purchases[i], res);
      }
    }

    method ApplySupplierOrders(supplies: seq<Supply>, res0: Results) returns (res: Results)
      modifies this
      ensures Evening(Now(), res) == PerformAll(m, Evening(old(Now()), res0), SupplyActions(supplies))
    {
      hide Supplied;
      res := res0;
      ghost var actions := SupplyActions(supplies);
      for i := 0 to |supplies|
        invariant PerformAll(m, Evening(Now(), res), actions[i..]) == PerformAll(m, Evening(old(Now()), res0), actions)
      {
        assert actions[i..][0] == Procure(supplies[i]) && actions[i..][1..] == actions[i + 1..];
        res := ApplySupplierOrder(supplies[i], res);
      }
    }

    method ShiftAdBudgets(adverts: seq<Advert>, res0: Results) returns (res: Results)
      modifies this
      ensures Evening(Now(), res) == PerformAll(m, Evening(old(Now()), res0), AdvertActions(adverts))
    {
      hide Advertised;
      res := res0;
      ghost var actions := AdvertActions(adverts);
      for i := 0 to |adverts|
        invariant PerformAll(m, Evening(Now(), res), actions[i..]) == PerformAll(m, Evening(old(Now()), res0), actions)
      {
        assert actions[i..][0] == Advertise(adverts[i]) && actions[i..][1..] == actions[i + 1..];
        res := ShiftAdBudget(adverts[i], res);
      }
    }

    method ApplyCustomerOps(service: seq<Service>, res0: Results) returns (res: Results)
      modifies this
      ensures Evening(Now(), res) == PerformAll(m, Evening(old(Now()), res0), ServiceActions(service))
    {
      hide Served;
      res := res0;
      ghost var actions := ServiceActions(service);
      for i := 0 to |service|
        invariant PerformAll(m, Evening(Now(), res), actions[i..]) == PerformAll(m, Evening(old(Now()), res0), actions)
      {
        assert actions[i..][0] == Serve(service[i]) && actions[i..][1..] == actions[i + 1..];
        res := ServeCustomers(service[i], res);
      }
    }

    /** A rejected or overpriced order loses the customer, who may complain. */
    method LoseOrder(sku: Sku, chance: real, res0: Results) returns (res: Results)
      modifies this`cursor, this`backlog
      ensures Evening(Now(), res) == Lost(m, Evening(old(Now()), res0), sku, chance)
    {
      res := res0.(rejected := res0.rejected + 1);
      var complaint := m.draws(cursor);
      cursor := cursor + 1;
      if complaint < chance {
        backlog := backlog[sku := BacklogOf(backlog, sku) + 1];
      }
    }

    /** Stock goes out, revenue comes in, and fulfilment and payment fees are paid. */
    method CollectPayment(order: Order, res0: Results) returns (res: Results)
      requires order.sku in products
      modifies this`products, this`capital, this`history
      ensures Evening(Now(), res) == PaidFor(m, Evening(old(Now()), res0), order, old(products)[order.sku])
      ensures Collected(m, Evening(old(Now()), res0), Evening(Now(), res), order)
    {
      hide Collected;
      PaymentCollects(m, Evening(Now(), res0), order);
      hide ProcessingFee, Attributed;
      var product := products[order.sku];
      products := products[order.sku := product.(stock := product.stock - order.quantity)];
      history := history.(sales := history.sales + [Sale(order, product.price)]);
      var revenue := product.price * order.quantity;
      capital := capital + revenue;
      res := res0.(revenue := res0.revenue + revenue, fulfilled := res0.fulfilled + 1);
      var fulfillment := m.fulfillmentFee * order.quantity;
      var payment := ProcessingFee(m, revenue);
      var fees := fulfillment + payment;
      if fees > 0 {
        capital := capital - fees;
        res := res.(costs := res.costs + fees, fulfillmentFees := res.fulfillmentFees + fulfillment,
                    processingFees := res.processingFees + payment);
      }
      res := res.(adAttributed := res.adAttributed + Attributed(product, revenue));
    }

    /** Draw a return: whether it can be restocked, what share of it, and when it is resolved. */
    method DrawReturn(key: Key, order: Order, category: string, revenue: int) returns (r: Return)
      modifies this`cursor
      ensures r == DrawnReturn(m, old(cursor), key, order, category, revenue)
      ensures cursor == old(cursor) + if r.restockable then 3 else 2
    {
      hide Uniform, RandInt, ReturnId;
      var profile := ProfileFor(m, category);
      var restockable := m.draws(cursor) < profile.restockProb;
      cursor := cursor + 1;
      var rate := 0.0;
      if restockable {
        rate := Uniform(profile.recoveryLow, profile.recoveryHigh, m.draws(cursor));
        cursor := cursor + 1;
      }
      var days := RandInt(2, 10, m.draws(cursor));
      cursor := cursor + 1;
      r := Return(ReturnId(key), order.orderId, order.sku, order.quantity, revenue, days, restockable, rate,
                  false, revenue, 0, 0, 0, 0, 0, None);
    }

    method MaybeFlagReturn(order: Order, product: Product, revenue: int)
      modifies this
      ensures Now() == Flagged(m, old(Now()), order, product, revenue)
      ensures MaybeFlagged(m, old(Now()), Now(), order, product, revenue)
    {
      hide MaybeFlagged;
      FlaggingFlags(m, Now(), order, product, revenue);
      hide ReturnOdds, ReturnId;
      var gate := m.draws(cursor);
      cursor := cursor + 1;
      if gate >= ReturnOdds(m, day, product, order.quantity) { return; }
      var key := Key(day, |openReturns| + 1);
      var r := DrawReturn(key, order, product.category, revenue);
      openReturns := openReturns + [r];
      history := history.(refundsFlagged := history.refundsFlagged + revenue,
                          returnsFlagged := history.returnsFlagged + 1,
                          returnKeys := history.returnKeys + [key],
                          returnIds := history.returnIds + [r.returnId]);
    }

    /** One customer order: rejected, lost on price, out of stock, or fulfilled. */
    method ProcessOrder(order: Order, accepted: bool, res0: Results) returns (res: Results)
      modifies this
      ensures Evening(Now(), res) == Sold(m, Evening(old(Now()), res0), order, accepted)
      ensures OrderHandled(m, Evening(old(Now()), res0), Evening(Now(), res), order, accepted)
    {
      hide OrderHandled;
      SaleHandles(m, Evening(Now(), res0), order, accepted);
      hide Lost, PaidFor, Flagged;
      res := res0;
      if order.sku !in products { return; }
      var product := products[order.sku];
      if !accepted {
        res := LoseOrder(order.sku, 0.05, res);
      } else if product.price > order.maxPrice {
        res := LoseOrder(order.sku, 0.15, res);
      } else if product.stock < order.quantity {
        res := res.(stockouts := res.stockouts + 1);
        backlog := backlog[order.sku := BacklogOf(backlog, order.sku) + 2];
      } else {
        res := CollectPayment(order, res);
        MaybeFlagReturn(order, product, product.price * order.quantity);
      }
    }

    method ProcessOrders(plan: Plan, orders: seq<Order>, res0: Results) returns (res: Results)
      modifies this
      ensures Evening(Now(), res) == PerformAll(m, Evening(old(Now()), res0), Sales(plan, orders))
      ensures Buying(orders) ==> ObeyedSince(plan, orders, old(Now()), Now())
    {
      hide ObeyedSince, Buying;
      if Buying(orders) { AllSalesObey(m, plan, orders, Evening(Now(), res0)); }
      hide Sold;
      res := res0;
      ghost var actions := Sales(plan, orders);
      for i := 0 to |orders|
        invariant PerformAll(m, Evening(Now(), res), actions[i..]) == PerformAll(m, Evening(old(Now()), res0), actions)
      {
        var order := orders[i];
        var accepted := plan.acceptAll || order.orderId in plan.acceptOrders;
        if order.sku in plan.acceptSkus { accepted := true; }
        if order.sku in plan.rejectSkus { accepted := false; }
        assert actions[i..][0] == Sell(order, accepted) && actions[i..][1..] == actions[i + 1..];
        res := ProcessOrder(order, accepted, res);
      }
    }

    /** Every product with a large backlog loses some rating, once. */
    method DecayRatings()
      modifies this`products
      ensures Now() == Decayed(old(Now()))
      ensures products.Keys == old(products).Keys
      ensures forall sku <- old(products).Keys ::
                products[sku] == old(products)[sku].(
                  rating := if BacklogOf(backlog, sku) > 25 then MaxReal(1.0, old(products)[sku].rating - 0.04)
                            else old(products)[sku].rating)
    {
      ghost var before := products;
      var todo := backlog.Keys;
      while todo != {}
        invariant todo <= backlog.Keys && products.Keys == before.Keys
        invariant forall sku <- before.Keys ::
          products[sku] == if sku in todo then before[sku] else Decayed(old(Now())).products[sku]
        decreases |todo|
      {
        SomeElement(todo);
        var sku :| sku in todo;
        if backlog[sku] > 25 && sku in products {
          var product := products[sku];
          products := products[sku := product.(rating := MaxReal(1.0, product.rating - 0.04))];
        }
        todo := todo - {sku};
      }
      assert products == Decayed(old(Now())).products;
    }

    method CloseBooks(res0: Results) returns (res: Results)
      modifies this`series, this`totals
      ensures Evening(Now(), res) == BooksClosed(Evening(old(Now()), res0))
    {
      res := res0.(profit := res0.revenue - res0.costs);
      series := Series(series.revenue + [res.revenue], series.costs + [res.costs], series.profit + [res.profit],
                       series.adSpend + [res.adSpend], series.adAttributed + [res.adAttributed]);
      totals := totals.(revenue := totals.revenue + res.revenue, costs := totals.costs + res.costs,
                        fulfilled := totals.fulfilled + res.fulfilled, stockouts := totals.stockouts + res.stockouts);
    }

    /** The agent's evening: its own actions section by section, then every customer order, then the books. */
    method ApplyAgentDecisions(plan: Plan, orders: seq<Order>, adj: Adjustments) returns (res: Results)
      modifies this
      ensures Evening(Now(), res) == Applied(m, old(Now()), plan, orders, adj)
      ensures Buying(orders) ==> ObeyedSince(plan, orders, old(Now()), Now())
      ensures PricedAs(plan.prices, old(products), products)
    {
      hide ObeyedSince, PricedAs, Buying;
      if Buying(orders) { AppliedObeys(m, Now(), plan, orders, adj); }
      AppliedPrices(m, Now(), plan, orders, adj);
      hide PerformAll, Opened, BooksClosed, Decayed, PriceActions, RestockActions, SupplyActions, AdvertActions,
           ServiceActions, Sales;
      res := OpenBooks(|orders|, adj);
      ghost var start := Evening(Now(), res);
      res := ApplyPriceChanges(plan.prices, res);
      res := ApplyRestocks(plan.restocks, res);
      res := ApplySupplierOrders(plan.supplies, res);
      res := ShiftAdBudgets(plan.adverts, res);
      res := ApplyCustomerOps(plan.service, res);
      res := ProcessOrders(plan, orders, res);
      SectionsInOrder(start, plan, orders);
      DecayRatings();
      res := CloseBooks(res);
    }

    lemma SectionsInOrder(x: Evening, plan: Plan, orders: seq<Order>)
      ensures var priced := PerformAll(m, x, PriceActions(plan.prices));
              var restocked := PerformAll(m, priced, RestockActions(plan.restocks));
              var supplied := PerformAll(m, restocked, SupplyActions(plan.supplies));
              var advertised := PerformAll(m, supplied, AdvertActions(plan.adverts));
              var served := PerformAll(m, advertised, ServiceActions(plan.service));
              PerformAll(m, served, Sales(plan, orders)) == PerformAll(m, x, Actions(plan, orders))
    {
      hide PerformAll, PriceActions, RestockActions, SupplyActions, AdvertActions, ServiceActions, Sales;
      var first := PriceActions(plan.prices);
      var second := first + RestockActions(plan.restocks);
      var third := second + SupplyActions(plan.supplies);
      var fourth := third + AdvertActions(plan.adverts);
      PerformInTwo(m, x, first, RestockActions(plan.restocks));
      PerformInTwo(m, x, second, SupplyActions(plan.supplies));
      PerformInTwo(m, x, third, AdvertActions(plan.adverts));
      PerformInTwo(m, x, fourth, ServiceActions(plan.service));
      PerformInTwo(m, x, OwnActions(plan), Sales(plan, orders));
    }

    /** One day of the run, in the order the day loop takes its steps. */
    method SimulateDay(plan: Plan) returns (res: Results)
      requires m.catalog != []
      modifies this
      ensures Evening(Now(), res) == RunDay(m, old(Now()), plan)
      ensures DayClosed(m, old(Now()), plan, Now(), res)
      ensures ObeyedSince(plan, Prepared(m, old(Now())).orders, Prepared(m, old(Now())).st, Now())
      ensures PricedAs(plan.prices, old(products), products)
    {
      RunDayCloses(m, Now(), plan);
      DayObeys(m, Now(), plan);
      hide ObeyedSince, PricedAs, DayClosed, Prepared, Applied, EventsUpdated;
      var orders, adj := PrepareDay();
      res := ApplyAgentDecisions(plan, orders, adj);
      UpdateEvents();
    }

    /** The morning: deliveries, refunds, rivals, orders, and perhaps an event. */
    method PrepareDay() returns (orders: seq<Order>, adj: Adjustments)
      requires m.catalog != []
      modifies this
      ensures Desk(Now(), orders, adj) == Prepared(m, old(Now()))
    {
      hide InboundMorning, ReturnMorning, EvolvedFrom, Generated, Injected, MaybeInjected;
      day := day + 1;
      ProcessInboundOrders();
      adj := ProcessPendingReturns();
      EvolveCompetitorPrices();
      orders := GenerateDailyOrders();
      MaybeInjectEvent();
    }

    /** Main result: the object, whatever its agent decides, goes through exactly the states the model gives. */
    method RunSimulation(plans: seq<Plan>) returns (results: seq<Results>)
      requires m.catalog != []
      modifies this
      ensures Now() == StateAfter(m, old(Now()), plans, |plans|)
      ensures |results| == |plans|
      ensures forall i :: 0 <= i < |plans| ==> results[i] == EveningOf(m, old(Now()), plans, i).res
      ensures RunEnds(m, old(Now()), plans, Now())
    {
      ghost var start := Now();
      hide RunEnds, RunDay, DayClosed, ObeyedSince, PricedAs, Prepared;
      RunPromises(m, start, plans);
      results := [];
      for i := 0 to |plans|
        invariant Now() == StateAfter(m, start, plans, i)
        invariant |results| == i
        invariant forall k :: 0 <= k < i ==> results[k] == EveningOf(m, start, plans, k).res
      {
        var res := SimulateDay(plans[i]);
        results := results + [res];
      }
    }
  }
}
