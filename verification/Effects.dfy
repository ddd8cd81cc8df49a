/** What each handler of the simulator means to its caller: which amounts balance, what may move, and what stays. */
module Effects {
  import opened Numbers
  import opened Rng
  import opened Ids
  import opened Market
  import opened SupplyChain
  import opened ReturnsDesk
  import opened Events
  import opened Trading
  import opened DayCycle
  import opened Books
  import opened Stock
  import opened Solvency
  import opened Liabilities
  import opened Deliveries
  import opened DemandCache
  import opened Numbering
  import opened Bounds

  predicate InCredit(before: State, after: State) { before.capital >= 0 ==> after.capital >= 0 }

  /** Only the named product may differ. */
  predicate OnlyAt(sku: Sku, before: map<Sku, Product>, after: map<Sku, Product>) {
    after.Keys == before.Keys && forall other <- before.Keys :: other != sku ==> after[other] == before[other]
  }

  /** A slip: only an order more than a day away and below its delay limit can slip. It does so when the draw is below
      both the risk cap and its lane's risk, 4% for an unknown lane, raised while a supply shock hits its product; then
      by the days drawn, as far as the limit leaves room. */
  ghost predicate Slipped(m: Setup, before: State, after: State, queued: Inbound, po: Inbound) {
    var shocked := exists e <- before.events :: e.kind.SupplyShock? && e.sku == queued.sku;
    var lane := if queued.lane in m.delayRisk then m.delayRisk[queued.lane] else 0.04;
    var (draw, days) := (m.draws(before.cursor), po.delay - queued.delay);
    var room := Max(0, m.maxDelay) - queued.delay;
    && po == queued.(daysUntilArrival := queued.daysUntilArrival + days, delay := po.delay)
    && after.totals.delayDays - before.totals.delayDays == days
    && after.totals.delayEvents - before.totals.delayEvents == (if days > 0 then 1 else 0)
    && if queued.daysUntilArrival <= 1 || room <= 0 then
         days == 0 && after.cursor == before.cursor
       else if draw < m.maxRisk && draw < (if shocked then lane + m.shockRisk else lane) then
         && DrawnDays(m, m.draws(before.cursor + 1), room, days)
         && after.cursor == before.cursor + 2
       else days == 0 && after.cursor == before.cursor + 1
  }

  ghost predicate DrawnDays(m: Setup, u: Unit, room: int, days: int) {
    exists drawn :: DrawnAs(m.delayMin, Max(m.delayMin, m.delayMax), u, drawn) && days == Max(0, Min(drawn, room))
  }

  lemma RiskExactly(m: Setup, events: seq<Event>, po: Inbound, u: Unit)
    ensures var shocked := exists e <- events :: e.kind.SupplyShock? && e.sku == po.sku;
            var lane := if po.lane in m.delayRisk then m.delayRisk[po.lane] else 0.04;
            u < LaneDelayRisk(m, events, po) <==> u < m.maxRisk && u < (if shocked then lane + m.shockRisk else lane)
  {
    if ShockActive(events, po.sku) {
      var i :| 0 <= i < |events| && events[i].kind.SupplyShock? && events[i].sku == po.sku;
      assert events[i] in events;
    }
  }

  lemma SlipSlips(m: Setup, st: State, queued: Inbound)
    ensures var slip := SlipOf(m, st, queued);
            Slipped(m, st, st.(cursor := st.cursor + slip.draws, totals := Counted(st.totals, slip)), queued,
                    queued.(daysUntilArrival := queued.daysUntilArrival + slip.days, delay := queued.delay + slip.days))
  {
    RiskExactly(m, st.events, queued, m.draws(st.cursor));
    DaysDrawn(m, m.draws(st.cursor + 1), DelayLimit(m) - queued.delay);
    hide LaneDelayRisk, RandInt, DrawnDays;
  }

  lemma DaysDrawn(m: Setup, u: Unit, room: int)
    ensures DrawnDays(m, u, room, Max(0, Min(RandInt(m.delayMin, Max(m.delayMin, m.delayMax), u), room)))
  {
    RandIntExactly(m.delayMin, Max(m.delayMin, m.delayMax), u, RandInt(m.delayMin, Max(m.delayMin, m.delayMax), u));
    hide RandInt, DrawnAs;
  }

  /** A whole delivery is the order; another is a share from 65% up to 95%, as drawn, to half a unit. */
  predicate Filled(whole: bool, u: Unit, ordered: int, delivered: int) {
    if whole then delivered == ordered else Near(delivered, ordered as real * (0.65 + 0.30 * u))
  }

  /** A delivery: what the arrival records is what the shelf received. It is the whole order when the draw is within the
      supplier's reliability, and otherwise, to half a unit, the drawn share of it from 65% up to 95%. The cost moves
      when and only when something arrived: to within half a cent of 70% of the old cost and 30% of the delivered one,
      and never outside the two. Cash does not move. */
  predicate Received(m: Setup, before: State, after: State, po: Inbound)
    requires po.sku in before.products
  {
    && OnlyAt(po.sku, before.products, after.products)
    && after.capital == before.capital && after.inbound == before.inbound
    && |after.history.arrivals| == |before.history.arrivals| + 1
    && (var a := after.history.arrivals[|before.history.arrivals|];
        var (p, q) := (before.products[po.sku], after.products[po.sku]);
        && after.history.arrivals == before.history.arrivals + [a] && a.po == po && a.day == before.day
        && q == p.(stock := p.stock + a.delivered, cost := q.cost)
        && (po.quantity >= 0 ==> 0 <= a.delivered <= po.quantity)
        && (po.quantity >= 0 ==>
              Filled(m.draws(before.cursor) <= po.reliability, m.draws(before.cursor + 1), po.quantity, a.delivered))
        && (if a.delivered == 0 then q.cost == p.cost
            else Near(q.cost, p.cost as real * 0.7 + po.unitCost as real * 0.3))
        && Min(p.cost, po.unitCost) <= q.cost <= Max(p.cost, po.unitCost))
  }

  lemma DeliverReceives(m: Setup, st: State, po: Inbound)
    requires po.sku in st.products
    ensures Received(m, st, Deliver(m, st, po), po)
  {
    hide DeliveredQty, Blend, Uniform, Near, Filled;
    FillDelivered(m, st.cursor, po);
    var p := st.products[po.sku];
    BlendBetween(p.cost, po.unitCost, Min(p.cost, po.unitCost), Max(p.cost, po.unitCost));
    BlendNear(p.cost, po.unitCost);
  }

  lemma BlendNear(cost: int, unitCost: int)
    ensures Near(Blend(cost, unitCost), cost as real * 0.7 + unitCost as real * 0.3)
  {
    HalfUpNear(cost as real * 0.7 + unitCost as real * 0.3);
  }

  lemma FillDelivered(m: Setup, cursor: nat, po: Inbound)
    ensures var whole := m.draws(cursor) <= po.reliability;
            var qty := DeliveredQty(po.quantity, if whole then 1.0 else Uniform(0.65, 0.95, m.draws(cursor + 1)));
            && 0 <= qty
            && (po.quantity >= 0 ==>
                  && qty <= po.quantity
                  && Filled(whole, m.draws(cursor + 1), po.quantity, qty))
  {
    var (whole, u) := (m.draws(cursor) <= po.reliability, m.draws(cursor + 1));
    UniformBetween(0.65, 0.95, u);
    assert Uniform(0.65, 0.95, u) == 0.65 + 0.30 * u;
    var ratio := if whole then 1.0 else 0.65 + 0.30 * u;
    hide RoundedShare, Near, Uniform;
    RoundedShareNear(po.quantity, ratio);
    if po.quantity >= 0 { RoundedShareWithin(po.quantity, ratio); }
  }

  /** Damaged units bring their category's share of their cost, to half a cent, and never less than nothing. */
  predicate SalvagedFor(m: Setup, p: Product, damaged: int, gain: int) {
    var worth := (p.cost * damaged) as real * ProfileFor(m, p.category).salvage;
    if worth >= 0.0 then Near(gain, worth) else gain == 0
  }

  /** Units returned: counted once; restockable ones go back at the rate drawn, to half a unit, and the rest of the
      quantity sold is salvaged; the salvage cash is what the day reports. */
  predicate Reshelved(m: Setup, x: Morning, y: Morning, r: Return) {
    && OnlyAt(r.sku, x.st.products, y.st.products)
    && y.st == x.st.(products := y.st.products, capital := y.st.capital, totals := y.st.totals)
    && y.adj == x.adj.(processed := x.adj.processed + 1, salvage := y.adj.salvage)
    && y.st.totals.returnsProcessed == x.st.totals.returnsProcessed + 1
    && y.st.capital - x.st.capital == y.adj.salvage - x.adj.salvage == y.st.totals.salvage - x.st.totals.salvage >= 0
    && (r.sku in x.st.products ==>
          var (p, q) := (x.st.products[r.sku], y.st.products[r.sku]);
          var (back, gain) := (q.stock - p.stock, y.st.capital - x.st.capital);
          && q == p.(stock := q.stock) && back >= 0
          && (!r.restockable ==> back == 0)
          && (r.restockable && r.quantity >= 0 && r.recoveryRate >= 0.0 ==>
                NearShare(back, r.quantity, r.recoveryRate))
          && (r.quantity >= 0 && r.recoveryRate <= 1.0 ==>
                back <= r.quantity && SalvagedFor(m, p, r.quantity - back, gain)))
  }

  lemma ReconcileReshelves(m: Setup, x: Morning, r: Return)
    ensures Reshelved(m, x, Reconcile(m, x, r), r)
  {
    ReconcileFrame(m, x, r);
    if r.quantity >= 0 && r.recoveryRate <= 1.0 { UnitsSplit(r); }
    ReconcileStock(m, x, r);
    RecoveredNear(r);
    if r.sku in x.st.products { SalvageNear(m, x.st.products[r.sku], DamagedUnits(r)); }
    hide Reconcile, SalvageValue, RecoveredUnits, SalvagedFor, NearShare;
  }

  lemma ReconcileStock(m: Setup, x: Morning, r: Return)
    ensures OnlyAt(r.sku, x.st.products, Reconcile(m, x, r).st.products)
    ensures r.sku in x.st.products ==>
              Reconcile(m, x, r).st.products[r.sku].stock
              == x.st.products[r.sku].stock + Max(0, RecoveredUnits(r))
  {
    hide SalvageValue, RecoveredUnits, DamagedUnits;
  }

  lemma RecoveredNear(r: Return)
    ensures RecoveredUnits(r) >= 0 && (!r.restockable ==> RecoveredUnits(r) == 0)
    ensures r.restockable && r.quantity >= 0 && r.recoveryRate >= 0.0 ==>
              NearShare(RecoveredUnits(r), r.quantity, r.recoveryRate)
  {
    PortionNotNegative(r.quantity, r.recoveryRate);
    PortionNear(r.quantity, r.recoveryRate);
    hide Portion, NearShare;
  }

  lemma PortionNear(quantity: int, rate: real)
    ensures quantity >= 0 && rate >= 0.0 ==> NearShare(Portion(quantity, rate), quantity, rate)
  {
    RoundedShareNear(quantity, rate);
    hide RoundedShare;
    if quantity >= 0 && rate >= 0.0 { assert quantity as real * rate >= 0.0; }
  }

  lemma SalvageNear(m: Setup, p: Product, damaged: int)
    ensures damaged >= 0 ==> SalvagedFor(m, p, damaged, SalvageValue(m, p, damaged))
  {
    var worth := (p.cost * damaged) as real * ProfileFor(m, p.category).salvage;
    HalfUpNear(worth);
  }

  /** A return of the morning: what was due is what was paid plus what is still owed, only cash at hand was paid, and
      the return leaves the queue exactly when it is due and paid off, and its damaged units are sold the first time it
      is due, for what they are worth then, and never again. */
  predicate Refunded(m: Setup, x: Morning, y: Morning, queued: Return) {
    && Reported(x, y)
    && InCredit(x.st, y.st)
    && Exposure(y.st.openReturns) - Exposure(x.st.openReturns)
       == queued.refund - (y.st.totals.refundsPaid - x.st.totals.refundsPaid)
    && (y.st.openReturns == x.st.openReturns
        <==> queued.daysLeft <= 1 && queued.refund <= Max(x.st.capital, 0))
    && y.adj.processed - x.adj.processed == (if queued.daysLeft <= 1 && !queued.reconciled then 1 else 0)
    && y.st.totals.salvage - x.st.totals.salvage
       == (if queued.daysLeft <= 1 && !queued.reconciled then SalvageOf(m, x.st.products, queued) else 0)
  }

  /** The damaged units of a return are sold on the morning it first falls due, and on no other. */
  lemma ReturnStepSalvages(m: Setup, x: Morning, queued: Return)
    ensures ReturnStep(m, x, queued).st.totals.salvage - x.st.totals.salvage
            == if queued.daysLeft <= 1 && !queued.reconciled then SalvageOf(m, x.st.products, queued) else 0
  {
    hide Settle, Settled, SalvageValue, DamagedUnits;
    var due := queued.(daysLeft := queued.daysLeft - 1);
    SettleFrame(m, x, due);
    SameDamage(queued, due);
  }

  lemma ReturnStepOwes(m: Setup, x: Morning, queued: Return)
    requires queued.refund >= 0
    ensures var y := ReturnStep(m, x, queued);
            && Exposure(y.st.openReturns) - Exposure(x.st.openReturns)
               == queued.refund - (y.st.totals.refundsPaid - x.st.totals.refundsPaid)
            && (y.st.openReturns == x.st.openReturns
                <==> queued.daysLeft <= 1 && queued.refund <= Max(x.st.capital, 0))
  {
    hide Settle, Settled, Exposure;
    var y := ReturnStep(m, x, queued).st;
    var due := queued.(daysLeft := queued.daysLeft - 1);
    SettleFrame(m, x, due);
    SettledRecord(m, x.st.products, due, Affordable(queued.refund, x.st.capital));
    if |y.openReturns| > |x.st.openReturns| {
      var r := y.openReturns[|x.st.openReturns|];
      assert y.openReturns == x.st.openReturns + [r] + [];
      SumsAround(x.st.openReturns, r, []);
    }
    NoIds();
  }

  lemma ReturnStepRefunds(m: Setup, x: Morning, queued: Return)
    requires queued.refund >= 0
    ensures Refunded(m, x, ReturnStep(m, x, queued), queued)
  {
    hide Settle, Settled, Exposure, SalvageOf;
    RefundReported(m, x, queued);
    ReturnStepOwes(m, x, queued);
    ReturnStepSalvages(m, x, queued);
    SettleFrame(m, x, queued.(daysLeft := queued.daysLeft - 1));
  }

  /** An event hits only its own listed product, and only downwards: a review attack takes 1.2 stars a unit of severity
      off its rating, but from 0.25 up to 2.2 and no further than one star; a price war takes 35% a unit of severity off
      its rivals' prices, but from 5% up to 45%, to half a cent. */
  predicate Hit(before: State, after: State, e: Event) {
    && after == before.(products := after.products, competitors := after.competitors)
    && OnlyAt(e.sku, before.products, after.products)
    && (forall sku <- before.products.Keys ::
          var (p, q) := (before.products[sku], after.products[sku]);
          q == p.(rating := q.rating) && (p.rating >= 1.0 ==> 1.0 <= q.rating <= p.rating))
    && |after.competitors| == |before.competitors|
    && (forall i :: 0 <= i < |before.competitors| ==>
          var (c, d) := (before.competitors[i], after.competitors[i]);
          && d == c.(price := d.price) && (c.sku != e.sku ==> d == c)
          && (c.price >= 0 ==> 0 <= d.price <= c.price))
    && (e.kind.ReviewBomb? && e.sku in before.products ==>
          after.products[e.sku].rating
          == MaxReal(1.0, before.products[e.sku].rating - MaxReal(0.25, MinReal(2.2, 1.2 * e.severity))))
    && (e.kind.PriceWar? && e.sku in before.products ==>
          forall i :: 0 <= i < |before.competitors| && before.competitors[i].sku == e.sku ==>
            NearShare(after.competitors[i].price, before.competitors[i].price,
                      MaxReal(0.55, MinReal(0.95, 1.0 - 0.35 * e.severity))))
    && (!e.kind.ReviewBomb? ==> after.products == before.products)
    && (!e.kind.PriceWar? || e.sku !in before.products ==> after.competitors == before.competitors)
  }

  lemma ShockLowers(price: int, e: Event)
    requires price >= 0
    ensures 0 <= ShockedPrice(price, e) <= price
  {
    RoundedShareWithin(price, PriceWarShock(e));
  }

  lemma ShockNear(price: int, e: Event)
    ensures NearShare(ShockedPrice(price, e), price, MaxReal(0.55, MinReal(0.95, 1.0 - 0.35 * e.severity)))
  {
    RoundedShareNear(price, PriceWarShock(e));
    assert PriceWarShock(e) == MaxReal(0.55, MinReal(0.95, 1.0 - 0.35 * e.severity));
    hide RoundedShare;
  }

  lemma DropExactly(e: Event)
    ensures ReviewDrop(e) == MaxReal(0.25, MinReal(2.2, 1.2 * e.severity))
  {
  }

  lemma InitialEffectsHit(st: State, e: Event)
    ensures Hit(st, InitialEffects(st, e), e)
  {
    DropAtLeast(e);
    DropExactly(e);
    var shock := MaxReal(0.55, MinReal(0.95, 1.0 - 0.35 * e.severity));
    forall price: int
      ensures NearShare(ShockedPrice(price, e), price, shock)
      ensures price >= 0 ==> 0 <= ShockedPrice(price, e) <= price
    {
      ShockNear(price, e);
      if price >= 0 { ShockLowers(price, e); }
    }
    hide ShockedPrice, ReviewDrop, NearShare;
  }

  /** Each fifth of the draws brings one kind of event. */
  predicate KindDrawn(u: Unit, kind: EventKind) {
    kind == if u < 0.2 then SupplyShock else if u < 0.4 then PriceWar else if u < 0.6 then DemandSpike
            else if u < 0.8 then DemandCrash else ReviewBomb
  }

  /** How severe each kind is before the draw moves it by a fifth either way. */
  function UsualSeverity(kind: EventKind): real {
    match kind
    case SupplyShock => 0.7
    case PriceWar => 0.6
    case DemandSpike => 0.5
    case DemandCrash => 0.6
    case ReviewBomb => 0.5
  }

  /** An event as four draws have it: its kind, its product among those listed, its three to fourteen days, and how
      severe it is. */
  ghost predicate DrawnAsEvent(m: Setup, cursor: nat, e: Event) {
    && KindDrawn(m.draws(cursor), e.kind)
    && (exists k :: 0 <= k < |m.catalog| && e.sku == m.catalog[k]
                    && DrawnAs(0, |m.catalog| - 1, m.draws(cursor + 1), k))
    && DrawnAs(3, 14, m.draws(cursor + 2), e.daysRemaining)
    && e.severity == UsualSeverity(e.kind) * (0.8 + 0.4 * m.draws(cursor + 3))
  }

  /** A new event comes when and only when the draw is at most 5%: of the kind drawn, for a listed product, 0.4 to 0.84
      severe and lasting three to fourteen days; cached multipliers stay right. */
  ghost predicate MaybeInjected(m: Setup, before: State, after: State) {
    && (if m.draws(before.cursor) > 0.05 then after.events == before.events && after.cursor == before.cursor + 1
        else
          && |after.events| == |before.events| + 1 && after.events[..|before.events|] == before.events
          && after.cursor == before.cursor + 5
          && (var e := after.events[|before.events|];
              && 3 <= e.daysRemaining <= 14 && e.sku in m.catalog && 0.4 <= e.severity <= 0.84
              && DrawnAsEvent(m, before.cursor + 1, e)))
    && (Cached(before) ==> Cached(after))
  }

  lemma DrawnEventSound(m: Setup, cursor: nat)
    requires m.catalog != []
    ensures var e := DrawnEvent(m, cursor);
            && 3 <= e.daysRemaining <= 14 && e.sku in m.catalog && 0.4 <= e.severity <= 0.84
            && DrawnAsEvent(m, cursor, e)
  {
    RandIntBetween(3, 14, m.draws(cursor + 2));
    UniformBetween(0.8, 1.2, m.draws(cursor + 3));
    var (kind, severity) := KindAt(Pick(5, m.draws(cursor)));
    var factor := Uniform(0.8, 1.2, m.draws(cursor + 3));
    SeverityBetween(severity, factor);
    var (days, k) := (RandInt(3, 14, m.draws(cursor + 2)), Pick(|m.catalog|, m.draws(cursor + 1)));
    RandIntExactly(3, 14, m.draws(cursor + 2), days);
    RandIntExactly(0, |m.catalog| - 1, m.draws(cursor + 1), k);
    hide DrawnAs, RandInt;
  }

  lemma SeverityBetween(severity: real, factor: real)
    requires 0.5 <= severity <= 0.7 && 0.8 <= factor <= 1.2
    ensures 0.4 <= severity * factor <= 0.84
  {
    var (above, below) := (severity - 0.5, 0.7 - severity);
    assert above * factor >= 0.0;
    assert below * factor >= 0.0;
    assert severity * factor == 0.5 * factor + above * factor == 0.7 * factor - below * factor;
  }

  lemma InjectedMaybe(m: Setup, st: State)
    requires m.catalog != []
    ensures MaybeInjected(m, st, Injected(m, st))
  {
    DrawnEventSound(m, st.cursor + 1);
    if Cached(st) { InjectionCaches(m, st); }
    hide DrawnEvent, Cached, MultiplierFor;
  }

  /** What the attacks on a product's reviews that end tonight give back: 0.45 stars a unit of severity each, but from
      0.1 up to 0.75. */
  function Regained(events: seq<Event>, sku: Sku): real {
    if events == [] then 0.0
    else
      var (rest, last) := (Regained(events[..|events| - 1], sku), events[|events| - 1]);
      if last.sku == sku && last.kind.ReviewBomb? && last.daysRemaining <= 1
      then rest + MaxReal(0.1, MinReal(0.75, 0.45 * last.severity))
      else rest
  }

  /** The evening's pass: events age by a day and those that end leave; a rating regains what the attacks that end gave
      back, but not beyond five stars; nothing else moves but the multipliers. */
  predicate EventsPass(before: State, after: State) {
    && after == before.(events := after.events, products := after.products)
    && after.products.Keys == before.products.Keys
    && (forall e <- after.events :: e.daysRemaining > 0)
    && forall sku <- before.products.Keys ::
         var (p, q) := (before.products[sku], after.products[sku]);
         && q == p.(rating := q.rating, demandMultiplier := q.demandMultiplier)
         && (p.rating <= 5.0 ==> q.rating == MinReal(5.0, p.rating + Regained(before.events, sku)))
  }

  lemma {:induction false} RegainedNext(e: Event, rest: seq<Event>, sku: Sku)
    ensures Regained([e] + rest, sku)
            == Regained(rest, sku)
               + if e.sku == sku && e.kind.ReviewBomb? && e.daysRemaining <= 1
                 then MaxReal(0.1, MinReal(0.75, 0.45 * e.severity)) else 0.0
    ensures Regained(rest, sku) >= 0.0
    decreases |rest|
  {
    var all := [e] + rest;
    if rest == [] {
      assert all[..|all| - 1] == [] && all[|all| - 1] == e;
    } else {
      assert all[..|all| - 1] == [e] + rest[..|rest| - 1];
      RegainedNext(e, rest[..|rest| - 1], sku);
    }
  }

  lemma {:induction false} ExpiryRegains(st: State, queue: seq<Event>, sku: Sku)
    requires sku in st.products && st.products[sku].rating <= 5.0
    ensures var r := ExpiryRun(st, queue);
            && sku in r.products
            && r.products[sku].rating == MinReal(5.0, st.products[sku].rating + Regained(queue, sku))
    decreases |queue|
  {
    if queue != [] {
      assert queue == [queue[0]] + queue[1..];
      RegainedNext(queue[0], queue[1..], sku);
      ExpiryRegains(ExpiryStep(st, queue[0]), queue[1..], sku);
    }
  }

  lemma {:induction false} ExpiryKeepsRest(st: State, queue: seq<Event>)
    requires forall e <- st.events :: e.daysRemaining > 0
    ensures var r := ExpiryRun(st, queue);
            && r == st.(events := r.events, products := r.products) && r.products.Keys == st.products.Keys
            && (forall e <- r.events :: e.daysRemaining > 0)
            && forall sku <- st.products.Keys ::
                 r.products[sku] == st.products[sku].(rating := r.products[sku].rating)
    decreases |queue|
  {
    if queue != [] { ExpiryKeepsRest(ExpiryStep(st, queue[0]), queue[1..]); }
  }

  lemma UpdatePasses(st: State)
    ensures EventsPass(st, EventsUpdated(st))
  {
    ExpiryKeepsRest(st.(events := []), st.events);
    forall sku <- st.products.Keys | st.products[sku].rating <= 5.0
      ensures ExpiryRun(st.(events := []), st.events).products[sku].rating
              == MinReal(5.0, st.products[sku].rating + Regained(st.events, sku))
    {
      ExpiryRegains(st.(events := []), st.events, sku);
    }
    hide ExpiryRun, Regained, MultiplierFor;
  }

  /** The books open with the overhead cash could bear and the morning's refunds and salvage, which move no cash now. */
  predicate BooksOpen(m: Setup, before: State, after: State, res: Results, adj: Adjustments) {
    && after.capital + res.fixedCost == before.capital && InCredit(before, after)
    && 0 <= res.fixedCost <= Max(m.overhead, 0)
    && (0 <= m.overhead <= before.capital ==> res.fixedCost == m.overhead)
    && res.revenue - res.costs == adj.salvage - adj.refunds - res.fixedCost
    && Handled(res) == 0
  }

  lemma OpenedBooks(m: Setup, st: State, received: int, adj: Adjustments)
    ensures var x := Opened(m, st, received, adj); BooksOpen(m, st, x.st, x.res, adj)
  {
  }

  /** A price moves only to the positive price asked for, only for its product, and then it does. */
  predicate Repriced(before: State, after: State, change: PriceChange) {
    && after == before.(products := after.products)
    && OnlyAt(change.sku, before.products, after.products)
    && (Priced(before.products) ==> Priced(after.products))
    && (change.sku in before.products ==>
          var (p, q) := (before.products[change.sku], after.products[change.sku]);
          && q == p.(price := q.price)
          && (q.price == p.price || change.candidate == Some(q.price))
          && (change.candidate.Some? && change.candidate.value > 0 ==> q.price == change.candidate.value))
  }

  lemma PriceSetReprices(x: Evening, change: PriceChange)
    ensures Repriced(x.st, PriceSet(x, change).st, change) && PriceSet(x, change).res == x.res
  {
  }

  /** A restock of a listed product that cash can pay buys the quantity asked for, up to the order limit; any other buys
      nothing. It turns cash into stock at cost: the product's value on the shelf grows by what was paid. */
  predicate Stocked(m: Setup, x: Evening, y: Evening, purchase: Purchase) {
    && SameBooks(x, y) && InCredit(x.st, y.st)
    && SameStock(m, x.st, [], y.st, [])
    && OnlyAt(purchase.sku, x.st.products, y.st.products)
    && (purchase.sku in x.st.products ==>
          var (p, q) := (x.st.products[purchase.sku], y.st.products[purchase.sku]);
          && q == p.(stock := q.stock)
          && (var units := Min(purchase.quantity, m.maxOrderQty);
              q.stock - p.stock
              == if purchase.quantity > 0 && p.cost * units <= x.st.capital then units else 0)
          && y.st.capital + p.cost * q.stock == x.st.capital + p.cost * p.stock)
  }

  lemma RestockStocks(m: Setup, x: Evening, purchase: Purchase)
    ensures Stocked(m, x, Restocked(m, x, purchase), purchase)
  {
    PerformKeepsBooks(m, x, Restock(purchase));
    RestockKeepsStock(m, x, purchase);
    hide SameStock, SameBooks;
    if purchase.sku in x.st.products {
      var p := x.st.products[purchase.sku];
      var quantity := Min(purchase.quantity, m.maxOrderQty);
      assert p.cost * (p.stock + quantity) == p.cost * p.stock + p.cost * quantity;
    }
  }

  /** The first of a product's suppliers with the name given, or else its preferred one; none only without suppliers. */
  predicate Chosen(offers: seq<Offer>, supplier: Option<string>, chosen: Option<Offer>) {
    if offers == [] then chosen.None?
    else if supplier.Some? && supplier.value != "" && exists offer <- offers :: offer.supplierId == supplier.value then
      exists i :: 0 <= i < |offers| && FirstNamed(offers, supplier.value, i) && chosen == Some(offers[i])
    else exists i :: 0 <= i < |offers| && Foremost(offers, i) && chosen == Some(offers[i])
  }

  /** No offer is cheaper, none as cheap is quicker, none as cheap and quick is more reliable, and none before it is its
      equal in all three. */
  predicate Foremost(offers: seq<Offer>, i: nat)
    requires i < |offers|
  {
    var best := offers[i];
    && (forall offer <- offers ::
          && best.unitCost <= offer.unitCost
          && (best.unitCost == offer.unitCost ==> best.leadTime <= offer.leadTime)
          && (best.unitCost == offer.unitCost && best.leadTime == offer.leadTime ==>
                best.reliability >= offer.reliability))
    && forall j :: 0 <= j < i ==>
         || best.unitCost != offers[j].unitCost || best.leadTime != offers[j].leadTime
         || best.reliability != offers[j].reliability
  }

  lemma PreferredForemost(offers: seq<Offer>)
    requires offers != []
    ensures exists i :: 0 <= i < |offers| && Foremost(offers, i) && Preferred(offers) == offers[i]
  {
    var best := Preferred(offers);
    var i: nat :| i < |offers| && FirstBest(offers, i) && offers[i] == best;
    forall offer <- offers
      ensures best.unitCost <= offer.unitCost
      ensures best.unitCost == offer.unitCost ==> best.leadTime <= offer.leadTime
      ensures best.unitCost == offer.unitCost && best.leadTime == offer.leadTime ==>
                best.reliability >= offer.reliability
    {
      assert !Beats(offer, best);
    }
    forall j | 0 <= j < i
      ensures || best.unitCost != offers[j].unitCost || best.leadTime != offers[j].leadTime
              || best.reliability != offers[j].reliability
    {
      assert Beats(best, offers[j]);
    }
    hide Preferred;
    assert Foremost(offers, i);
  }

  predicate FirstNamed(offers: seq<Offer>, name: string, i: nat)
    requires i < |offers|
  {
    offers[i].supplierId == name && forall j :: 0 <= j < i ==> offers[j].supplierId != name
  }

  lemma {:induction false} NamedIsFirst(offers: seq<Offer>, name: string)
    ensures Named(offers, name).None? <==> forall offer <- offers :: offer.supplierId != name
    ensures Named(offers, name).Some? ==>
              exists i :: 0 <= i < |offers| && FirstNamed(offers, name, i) && Named(offers, name) == Some(offers[i])
    decreases |offers|
  {
    if offers != [] {
      assert offers == [offers[0]] + offers[1..];
      if offers[0].supplierId == name {
        assert FirstNamed(offers, name, 0);
      } else {
        NamedIsFirst(offers[1..], name);
        if Named(offers[1..], name).Some? {
          var i :| 0 <= i < |offers| - 1 && FirstNamed(offers[1..], name, i)
                   && Named(offers[1..], name) == Some(offers[1..][i]);
          assert forall j :: 1 <= j < i + 1 ==> offers[j] == offers[1..][j - 1];
          assert FirstNamed(offers, name, i + 1);
        }
      }
    }
  }

  lemma SelectionChosen(m: Setup, sku: Sku, supplier: Option<string>)
    ensures Chosen(SuppliersOf(m, sku), supplier, SelectSupplier(m, sku, supplier))
  {
    hide Preferred, FirstNamed, Foremost;
    var offers := SuppliersOf(m, sku);
    if offers != [] { PreferredForemost(offers); }
    if supplier.Some? { NamedIsFirst(offers, supplier.value); }
  }

  /** A supplier order: one more under way exactly when one is counted, paid in full at its quoted cost, for at least
      the supplier's minimum; no order is lost track of. */
  ghost predicate Ordered(m: Setup, x: Evening, y: Evening) {
    && SameBooks(x, y) && InCredit(x.st, y.st)
    && y.st.products == x.st.products
    && (Tracked(m, x.st) ==> Tracked(m, y.st))
    && y.res.supplierOrders - x.res.supplierOrders == |y.st.inbound| - |x.st.inbound|
    && ((y.st.inbound == x.st.inbound && y.st.capital == x.st.capital)
        || (exists po :: y.st.inbound == x.st.inbound + [po] && PaidOrder(m, x.st, po, x.st.capital - y.st.capital)))
  }

  /** The order is for what one of the product's suppliers offers, at least its minimum, at its cost and lead time. */
  predicate PaidOrder(m: Setup, st: State, po: Inbound, paid: int) {
    && paid == po.unitCost * po.quantity && po.quantity >= 1
    && (exists offer <- SuppliersOf(m, po.sku) :: Fits(offer, po))
    && po.sku in st.products && po.delay == 0 && po.daysUntilArrival == po.leadTime && po.placedOn == st.day
  }

  predicate Fits(offer: Offer, po: Inbound) {
    && offer.supplierId == po.supplierId && offer.unitCost == po.unitCost && offer.minOrderQty <= po.quantity
    && offer.leadTime == po.leadTime && offer.lane == po.lane && offer.reliability == po.reliability
  }

  lemma SupplyKeeps(m: Setup, x: Evening, supply: Supply)
    ensures SameBooks(x, Supplied(m, x, supply))
    ensures Tracked(m, x.st) ==> Tracked(m, Supplied(m, x, supply).st)
  {
    PerformKeepsBooks(m, x, Procure(supply));
    if Tracked(m, x.st) { ProcurementKeepsTracking(m, x, supply); }
    hide Tracked, SameBooks, Supplied;
  }

  lemma SupplyOrders(m: Setup, x: Evening, supply: Supply)
    ensures Ordered(m, x, Supplied(m, x, supply))
  {
    SupplyKeeps(m, x, supply);
    SelectedIsOffered(m, supply.sku, supply.supplier);
    hide Tracked, SameBooks, SelectSupplier, PurchaseId;
    var y := Supplied(m, x, supply);
    if |y.st.inbound| > |x.st.inbound| {
      assert Fits(SelectSupplier(m, supply.sku, supply.supplier).value, y.st.inbound[|x.st.inbound|]);
      assert PaidOrder(m, x.st, y.st.inbound[|x.st.inbound|], x.st.capital - y.st.capital);
    }
  }

  /** An advert for a listed product spends what it says when that is positive and cash can pay it, otherwise nothing;
      counts it everywhere alike; and raises only tomorrow's boost, by one for $220 and no more than that. */
  predicate Promoted(x: Evening, y: Evening, advert: Advert) {
    var spent := x.st.capital - y.st.capital;
    && SameBooks(x, y) && InCredit(x.st, y.st)
    && SameBoost(x.st.products, y.st.products)
    && OnlyAt(advert.sku, x.st.products, y.st.products)
    && spent == (if advert.sku in x.st.products && advert.spend.Some? && 0 < advert.spend.value <= x.st.capital
                 then advert.spend.value else 0)
    && y.res.adSpend - x.res.adSpend == y.st.totals.adSpend - x.st.totals.adSpend == spent
    && (advert.sku in x.st.products ==>
          var (p, q) := (x.st.products[advert.sku], y.st.products[advert.sku]);
          && q == p.(nextAdBoost := q.nextAdBoost)
          && p.nextAdBoost <= q.nextAdBoost <= MaxReal(p.nextAdBoost, 2.0)
          && (if spent == 0 then q.nextAdBoost == p.nextAdBoost
              else if spent >= 22000 then q.nextAdBoost == MaxReal(p.nextAdBoost, 2.0)
              else q.nextAdBoost == MaxReal(p.nextAdBoost, 1.0 + spent as real / 22000.0)))
  }

  lemma AdvertPromotes(m: Setup, x: Evening, advert: Advert)
    ensures Promoted(x, Advertised(x, advert), advert)
  {
    PerformKeepsBooks(m, x, Advertise(advert));
    ActionKeepsBoost(m, x, Advertise(advert));
    hide SameBooks, SameBoost;
  }

  /** What a service mode charges a ticket, which share of the backlog it takes on, and what it does to the rating. */
  datatype Terms = Terms(cents: int, share: real, stars: real)

  function TermsOf(mode: Mode): Terms {
    match mode
    case Proactive => Terms(75, 0.6, 0.08)
    case Minimal => Terms(15, 0.1, -0.02)
    case Standard => Terms(40, 0.3, 0.03)
  }

  /** Of a listed product's backlog the mode's share is served, to half a ticket, or as many as cash can pay. */
  predicate Answered(waiting: int, served: int, terms: Terms, capital: int) {
    || NearShare(served, waiting, terms.share)
    || (served as real <= waiting as real * terms.share && terms.cents * (served + 1) > capital)
  }

  /** Service: the tickets counted left the backlog, never more than waited, each was paid, nobody else was served. */
  ghost predicate Relieved(x: Evening, y: Evening, service: Service) {
    var (waiting, served) := (BacklogOf(x.st.backlog, service.sku), y.res.tickets - x.res.tickets);
    var terms := TermsOf(service.mode);
    && SameBooks(x, y) && InCredit(x.st, y.st)
    && 0 <= served <= Max(waiting, 0)
    && BacklogOf(y.st.backlog, service.sku) == waiting - served
    && x.st.capital - y.st.capital == terms.cents * served
    && (if service.sku in x.st.products && waiting > 0 then Answered(waiting, served, terms, x.st.capital)
        else served == 0)
    && (forall sku :: sku != service.sku ==> BacklogOf(y.st.backlog, sku) == BacklogOf(x.st.backlog, sku))
    && OnlyAt(service.sku, x.st.products, y.st.products)
    && (if served == 0 then y.st.products == x.st.products
        else
          var p := x.st.products[service.sku];
          y.st.products[service.sku]
          == p.(rating := MaxReal(1.0, MinReal(5.0, p.rating + terms.stars))))
    && (Bounded(x.st) ==> Bounded(y.st))
  }

  lemma WantedAtMost(backlog: int, mode: Mode)
    requires backlog >= 0
    ensures TicketsWanted(backlog, mode) <= backlog
  {
    hide RoundedShare;
    RoundedShareAtMost(backlog, ResolveRatio(mode));
  }

  lemma ModeTerms(mode: Mode)
    ensures TermsOf(mode) == Terms(TicketCost(mode), ResolveRatio(mode), RatingDelta(mode))
  {
  }

  lemma ResolvedAnswers(capital: int, waiting: int, mode: Mode)
    requires waiting > 0
    ensures Answered(waiting, TicketsResolved(capital, waiting, mode), TermsOf(mode), capital)
    ensures 0 <= TicketsResolved(capital, waiting, mode) <= waiting
  {
    WantedAtMost(waiting, mode);
    WantedNear(waiting, mode);
    ModeTerms(mode);
    hide TicketsWanted, TermsOf;
    var (wanted, n) := (TicketsWanted(waiting, mode), TicketsResolved(capital, waiting, mode));
    if TicketCost(mode) * wanted > capital {
      MostAffordable(capital, TicketCost(mode));
      if n < wanted { assert n as real <= wanted as real - 1.0; }
      else { FewerCostLess(TicketCost(mode), wanted, n); }
    }
  }

  lemma MostAffordable(capital: int, cost: int)
    requires cost > 0
    ensures cost * (capital / cost + 1) > capital >= cost * (capital / cost)
  {
  }

  lemma FewerCostLess(cost: int, few: int, many: int)
    requires cost > 0 && few <= many
    ensures cost * few <= cost * many
  {
  }

  lemma WantedNear(waiting: int, mode: Mode)
    requires waiting > 0
    ensures NearShare(TicketsWanted(waiting, mode), waiting, ResolveRatio(mode))
  {
    hide RoundedShare;
    RoundedShareNear(waiting, ResolveRatio(mode));
    RoundedShareWithin(waiting, ResolveRatio(mode));
  }

  lemma ServiceKeeps(m: Setup, x: Evening, service: Service)
    ensures SameBooks(x, Served(x, service)) && InCredit(x.st, Served(x, service).st)
    ensures Bounded(x.st) ==> Bounded(Served(x, service).st)
  {
    PerformKeepsBooks(m, x, Serve(service));
    if Bounded(x.st) { ServiceBounded(x, service); }
    hide SameBooks, Bounded, Served;
  }

  lemma ServiceRelieves(m: Setup, x: Evening, service: Service)
    ensures Relieved(x, Served(x, service), service)
  {
    ServiceKeeps(m, x, service);
    var waiting := BacklogOf(x.st.backlog, service.sku);
    if waiting > 0 { ResolvedAnswers(x.st.capital, waiting, service.mode); }
    ModeTerms(service.mode);
    hide InCredit, SameBooks, Bounded, TicketsResolved, Answered, TermsOf, TicketCost, ResolveRatio, RatingDelta;
  }

  /** What a sale owes to advertising: nothing without a boost, otherwise the boost's share of the revenue to half a
      cent, but never more than half of it. */
  predicate Credited(p: Product, revenue: int, credit: int) {
    if p.adBoost <= 1.0 then credit == 0
    else NearShare(credit, revenue, if p.adBoost <= 1.5 then p.adBoost - 1.0 else 0.5)
  }

  /** A fixed fee a unit and a rate of the revenue to half a cent are booked, unless together they come to nothing. */
  ghost predicate FeesBooked(m: Setup, revenue: int, quantity: int, handling: int, payment: int) {
    var due := m.fulfillmentFee * quantity;
    if handling + payment > 0 then handling == due && NearShare(payment, revenue, m.processingRate)
    else handling == payment == 0 && exists rate :: NearShare(rate, revenue, m.processingRate) && due + rate <= 0
  }

  /** A payment: the goods leave, cash gains the revenue less the fees booked, a fixed one a unit and a rate of the
      revenue to half a cent, and the sale is on record. */
  ghost predicate Collected(m: Setup, x: Evening, y: Evening, order: Order)
    requires order.sku in x.st.products
  {
    var p := x.st.products[order.sku];
    && SameBooks(x, y)
    && OnlyAt(order.sku, x.st.products, y.st.products)
    && y.st.products[order.sku] == p.(stock := p.stock - order.quantity)
    && y.st.capital - x.st.capital == Net(m, p.price, order.quantity)
    && y.res.fulfilled == x.res.fulfilled + 1
    && y.st.history.sales == x.st.history.sales + [Sale(order, p.price)]
    && (var (revenue, fees) := (p.price * order.quantity, y.res.costs - x.res.costs);
        var (handling, payment) := (y.res.fulfillmentFees - x.res.fulfillmentFees,
                                    y.res.processingFees - x.res.processingFees);
        && y.res.revenue - x.res.revenue == revenue
        && y.st.capital - x.st.capital == revenue - fees
        && handling + payment == fees
        && FeesBooked(m, revenue, order.quantity, handling, payment)
        && Credited(p, revenue, y.res.adAttributed - x.res.adAttributed))
  }

  lemma SaleCredits(p: Product, revenue: int)
    ensures Credited(p, revenue, Attributed(p, revenue))
  {
    HalfUpNear(revenue as real * MinReal(0.5, p.adBoost - 1.0));
  }

  lemma FeesAreBooked(m: Setup, revenue: int, quantity: int)
    ensures var (handling, payment) := (m.fulfillmentFee * quantity, ProcessingFee(m, revenue));
            if handling + payment > 0 then FeesBooked(m, revenue, quantity, handling, payment)
            else FeesBooked(m, revenue, quantity, 0, 0)
  {
    HalfUpNear(revenue as real * m.processingRate);
    assert NearShare(ProcessingFee(m, revenue), revenue, m.processingRate);
    hide NearShare, ProcessingFee;
  }

  lemma PaymentCollects(m: Setup, x: Evening, order: Order)
    requires order.sku in x.st.products
    ensures Collected(m, x, PaidFor(m, x, order, x.st.products[order.sku]), order)
  {
    var p := x.st.products[order.sku];
    PaymentKeepsBooks(m, x, order, p);
    SaleCredits(p, p.price * order.quantity);
    FeesAreBooked(m, p.price * order.quantity, order.quantity);
    hide SameBooks, ProcessingFee, Attributed, Credited, FeesBooked;
  }

  /** A sale is flagged for return when the draw is below its likelihood, but always below 0.8% and never from 30% up.
      Then exactly its revenue becomes owed, due in two to ten days, and its units can be restocked as its category has
      it. */
  ghost predicate MaybeFlagged(m: Setup, before: State, after: State, order: Order, p: Product, revenue: int) {
    && after == before.(cursor := after.cursor, openReturns := after.openReturns, history := after.history)
    && after.history.refundsFlagged - Exposure(after.openReturns)
       == before.history.refundsFlagged - Exposure(before.openReturns)
    && (after.openReturns == before.openReturns
        || exists r :: after.openReturns == before.openReturns + [r] && FlagOf(r, order, revenue)
                       && DrawnFate(m, before.cursor + 1, r, ProfileFor(m, p.category)))
    && (after.openReturns != before.openReturns
        <==> m.draws(before.cursor) < 0.008
             || (m.draws(before.cursor) < 0.3 && m.draws(before.cursor) < Likely(m, before.day, p, order.quantity)))
  }

  /** How likely a return is before the bounds: the category's base, 1.8% for each star the rating is short of 4.4 and
      1.2% for each further unit, all under the season. */
  function Likely(m: Setup, day: nat, p: Product, quantity: int): real {
    var stars := if p.rating < 4.4 then (4.4 - p.rating) * 0.018 else 0.0;
    var units := if quantity > 1 then (quantity - 1) as real * 0.012 else 0.0;
    Times(ProfileFor(m, p.category).base + stars + units, m.seasonalReturn(day, p.category))
  }

  predicate FlagOf(r: Return, order: Order, revenue: int) {
    && r.orderId == order.orderId && r.sku == order.sku && r.quantity == order.quantity
    && r.refund == revenue && 2 <= r.daysLeft <= 10 && !r.reconciled
  }

  /** Restockable as the first draw has it, then at a rate between the profile's two, and due as the last has it. */
  predicate DrawnFate(m: Setup, cursor: nat, r: Return, profile: ReturnProfile) {
    && (r.restockable <==> m.draws(cursor) < profile.restockProb)
    && (!r.restockable ==> r.recoveryRate == 0.0)
    && (r.restockable ==>
          var width := profile.recoveryHigh - profile.recoveryLow;
          r.recoveryRate == profile.recoveryLow + width * m.draws(cursor + 1))
    && DrawnAs(2, 10, m.draws(cursor + if r.restockable then 2 else 1), r.daysLeft)
  }

  lemma CandidateFlag(m: Setup, st: State, order: Order, p: Product, revenue: int)
    ensures FlagOf(Candidate(m, st, order, p, revenue), order, revenue)
    ensures DrawnFate(m, st.cursor + 1, Candidate(m, st, order, p, revenue), ProfileFor(m, p.category))
  {
    forall u: Unit ensures 2 <= RandInt(2, 10, u) <= 10 && DrawnAs(2, 10, u, RandInt(2, 10, u)) {
      RandIntBetween(2, 10, u);
      RandIntExactly(2, 10, u, RandInt(2, 10, u));
    }
    hide ReturnId, RandInt, DrawnAs;
  }

  lemma FlaggingFlags(m: Setup, st: State, order: Order, p: Product, revenue: int)
    ensures MaybeFlagged(m, st, Flagged(m, st, order, p, revenue), order, p, revenue)
  {
    OddsExactly(m, st.day, p, order.quantity, m.draws(st.cursor));
    FlagGate(m, st, order, p, revenue);
    FlaggedCases(m, st, order, p, revenue);
    CandidateFlag(m, st, order, p, revenue);
    var r := Candidate(m, st, order, p, revenue);
    SumsAround(st.openReturns, r, []);
    NoIds();
    assert st.openReturns + [r] + [] == st.openReturns + [r];
    hide Flagged, Candidate, Exposure, ReturnOdds, Likely;
  }

  lemma FlagGate(m: Setup, st: State, order: Order, p: Product, revenue: int)
    ensures m.draws(st.cursor) < ReturnOdds(m, st.day, p, order.quantity)
            <==> Flagged(m, st, order, p, revenue).openReturns != st.openReturns
  {
    hide ReturnOdds, DrawnReturn;
    var after := Flagged(m, st, order, p, revenue);
    if m.draws(st.cursor) < ReturnOdds(m, st.day, p, order.quantity) {
      assert |after.openReturns| == |st.openReturns| + 1;
    }
  }

  lemma OddsExactly(m: Setup, day: nat, p: Product, quantity: int, u: Unit)
    ensures u < ReturnOdds(m, day, p, quantity) <==> u < 0.008 || (u < 0.3 && u < Likely(m, day, p, quantity))
  {
    var stars := if p.rating < 4.4 then (4.4 - p.rating) * 0.018 else 0.0;
    var units := if quantity > 1 then (quantity - 1) as real * 0.012 else 0.0;
    assert MaxReal(0.0, 4.4 - p.rating) * 0.018 + Max(0, quantity - 1) as real * 0.012 == stars + units;
    hide Times;
  }

  /** A worse rating or a larger order never makes a return less likely. */
  lemma OddsRespond(m: Setup, day: nat, p: Product, q: Product, few: int, many: int)
    requires q.category == p.category && q.rating <= p.rating && few <= many
    requires m.seasonalReturn(day, p.category) >= 0.0
    ensures ReturnOdds(m, day, p, few) <= ReturnOdds(m, day, q, many)
  {
    var (base, season) := (ProfileFor(m, p.category).base, m.seasonalReturn(day, p.category));
    var low := base + (MaxReal(0.0, 4.4 - p.rating) * 0.018 + Max(0, few - 1) as real * 0.012);
    var high := base + (MaxReal(0.0, 4.4 - q.rating) * 0.018 + Max(0, many - 1) as real * 0.012);
    assert low <= high;
    TimesKeepsOrder(low, high, season);
    hide Times;
  }

  /** Complaints an order causes: by chance when it is lost, two when it is out of stock, none otherwise. */
  function ComplaintsOver(x: Evening, order: Order, accepted: bool, u: Unit): int {
    if order.sku !in x.st.products then 0
    else if !accepted then (if u < 0.05 then 1 else 0)
    else if x.st.products[order.sku].price > order.maxPrice then (if u < 0.15 then 1 else 0)
    else if x.st.products[order.sku].stock < order.quantity then 2
    else 0
  }

  /** An order: handled once if its product is listed; fulfilled, at the product's price and from its stock, exactly
      when accepted, affordable and in stock; rejected when it is not accepted or too dear; cash moves by what a
      fulfilled sale nets, else not at all, and complaints as the lost customer's draw has it. */
  predicate OrderHandled(m: Setup, x: Evening, y: Evening, order: Order, accepted: bool) {
    var fulfilled := Fulfils(x, order, accepted);
    && SameBooks(x, y)
    && SameStock(m, x.st, [], y.st, [])
    && SaleOnly(x.st, y.st)
    && Handled(y.res) - Handled(x.res) == (if order.sku in x.st.products then 1 else 0)
    && y.res.fulfilled - x.res.fulfilled == (if fulfilled then 1 else 0)
    && y.res.rejected - x.res.rejected
       == (if order.sku in x.st.products && (!accepted || x.st.products[order.sku].price > order.maxPrice)
           then 1 else 0)
    && y.st.capital - x.st.capital
       == (if fulfilled then Net(m, x.st.products[order.sku].price, order.quantity) else 0)
    && y.st.history.sales
       == (if fulfilled then x.st.history.sales + [Sale(order, x.st.products[order.sku].price)] else x.st.history.sales)
    && (forall sku <- x.st.products.Keys ::
          y.st.products[sku].stock
          == x.st.products[sku].stock - if fulfilled && sku == order.sku then order.quantity else 0)
    && BacklogOf(y.st.backlog, order.sku) - BacklogOf(x.st.backlog, order.sku)
       == ComplaintsOver(x, order, accepted, m.draws(x.st.cursor))
  }

  lemma SaleRecorded(m: Setup, x: Evening, order: Order, accepted: bool)
    ensures var (y, fulfilled) := (Sold(m, x, order, accepted), Fulfils(x, order, accepted));
            && y.st.products.Keys == x.st.products.Keys
            && y.st.history.sales
               == (if fulfilled then x.st.history.sales + [Sale(order, x.st.products[order.sku].price)]
                   else x.st.history.sales)
            && (forall sku <- x.st.products.Keys ::
                  y.st.products[sku].stock
                  == x.st.products[sku].stock - if fulfilled && sku == order.sku then order.quantity else 0)
  {
    hide Flagged, Fees, Attributed;
    if Fulfils(x, order, accepted) {
      var p := x.st.products[order.sku];
      FlaggingFrame(m, PaidFor(m, x, order, p).st, order, p, p.price * order.quantity);
    }
  }

  lemma SaleComplaints(m: Setup, x: Evening, order: Order, accepted: bool)
    ensures var y := Sold(m, x, order, accepted);
            && BacklogOf(y.st.backlog, order.sku) - BacklogOf(x.st.backlog, order.sku)
               == ComplaintsOver(x, order, accepted, m.draws(x.st.cursor))
            && y.res.fulfilled - x.res.fulfilled == (if Fulfils(x, order, accepted) then 1 else 0)
            && y.res.rejected - x.res.rejected
               == (if order.sku in x.st.products && (!accepted || x.st.products[order.sku].price > order.maxPrice)
                   then 1 else 0)
            && Handled(y.res) - Handled(x.res) == (if order.sku in x.st.products then 1 else 0)
  {
    hide Flagged, Fees, Attributed;
    if Fulfils(x, order, accepted) {
      var p := x.st.products[order.sku];
      FlaggingFrame(m, PaidFor(m, x, order, p).st, order, p, p.price * order.quantity);
    }
  }

  lemma SaleHandles(m: Setup, x: Evening, order: Order, accepted: bool)
    ensures OrderHandled(m, x, Sold(m, x, order, accepted), order, accepted)
  {
    hide Sold, SameBooks, SameStock, SaleOnly, Net, Handled, ComplaintsOver;
    SaleKeepsBooks(m, x, order, accepted);
    SaleKeepsStock(m, x, order, accepted);
    SaleFrame(m, x, order, accepted);
    SaleMovesNet(m, x, order, accepted);
    SaleRecorded(m, x, order, accepted);
    SaleComplaints(m, x, order, accepted);
  }

  /** A day: every order received is accounted for, balanced books stay balanced with cash moving by the day's profit,
      and a day that sells nothing below its fees stays in credit. */
  predicate DayClosed(m: Setup, before: State, plan: Plan, after: State, res: Results)
    requires m.catalog != []
  {
    && after.day == before.day + 1
    && res.received == Handled(res)
    && (Balanced(before) ==> Balanced(after) && after.capital == before.capital + res.profit)
    && (before.capital >= 0 && DayCovered(m, before, plan) ==> after.capital >= 0)
  }

  lemma RunDayCloses(m: Setup, st: State, plan: Plan)
    requires m.catalog != []
    ensures DayClosed(m, st, plan, RunDay(m, st, plan).st, RunDay(m, st, plan).res)
  {
    DayHandlesEveryOrder(m, st, plan);
    if Balanced(st) { DayKeepsBooks(m, st, plan); }
    if st.capital >= 0 && DayCovered(m, st, plan) { DayKeepsCash(m, st, plan); }
    DayAdvances(m, st, plan);
    hide RunDay, Balanced, DayCovered, Prepared;
  }

  lemma DayAdvances(m: Setup, st: State, plan: Plan)
    requires m.catalog != []
    ensures RunDay(m, st, plan).st.day == st.day + 1
  {
    hide MorningOf, Prepared, PerformAll, RunDay, Actions;
    MorningFrame(m, st);
    MarketOpens(m, st);
    var d := Prepared(m, st);
    TradingKeepsBooks(m, Opened(m, d.st, |d.orders|, d.adj), Actions(plan, d.orders));
    EveningCloses(m, st, plan);
  }

  /** What a whole run promises: from an opening its end is sound and no two orders share an id; from any debt-free
      start it stays in credit if every day sells nothing below its fees. */
  ghost predicate RunEnds(m: Setup, st: State, plans: seq<Plan>, end: State)
    requires m.catalog != []
  {
    && (Opening(m, st) ==> Sound(m, st, end) && Distinct(NamesOf(AllOrders(m, st, plans, |plans|))))
    && (st.capital >= 0 && (forall d :: 0 <= d < |plans| ==> DayCovered(m, StateAfter(m, st, plans, d), plans[d]))
        ==> end.capital >= 0)
  }

  lemma RunPromises(m: Setup, st: State, plans: seq<Plan>)
    requires m.catalog != []
    ensures RunEnds(m, st, plans, StateAfter(m, st, plans, |plans|))
  {
    hide StateAfter, Opening, Sound, DayCovered, AllOrders, NamesOf;
    if Opening(m, st) {
      RunSound(m, st, plans, |plans|);
      IdentifiersUnique(m, st, plans, |plans|);
    }
    if st.capital >= 0 && forall d :: 0 <= d < |plans| ==> DayCovered(m, StateAfter(m, st, plans, d), plans[d]) {
      RunKeepsCash(m, st, plans, |plans|);
    }
  }

  /** What holds of every state a run reaches from its opening. */
  predicate Sound(m: Setup, opening: State, st: State) {
    && Balanced(st)
    && Shelved(m, opening.products, st)
    && Tracked(m, st)
    && Accounted(m, ViewOf(st, st.openReturns))
    && AllIssued(st)
    && Cached(st)
  }

  lemma RunSound(m: Setup, st: State, plans: seq<Plan>, days: nat)
    requires m.catalog != [] && Opening(m, st) && days <= |plans|
    ensures Sound(m, st, StateAfter(m, st, plans, days))
  {
    hide StateAfter, Balanced, Shelved, Tracked, Accounted, AllIssued, Cached;
    OpeningBalanced(m, st);
    RunKeepsBooks(m, st, plans, days);
    RunKeepsStock(m, st, plans, days);
    RunKeepsTracking(m, st, plans, days);
    RunKeepsAccounts(m, st, plans, days);
    RunNumbers(m, st, plans, days);
    AfterDaysCached(m, st, plans, days);
  }
}
