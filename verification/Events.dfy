/** Adversarial events: severity curves, injection, expiry and the cached demand multiplier. */
module Events {
  import opened Numbers
  import opened Rng
  import opened Market

  function Severity(e: Event): real { MaxReal(0.0, e.severity) }

  function DemandFactor(e: Event): real {
    match e.kind
    case DemandSpike => MinReal(3.5, 1.0 + 2.0 * Severity(e))
    case DemandCrash => MaxReal(0.25, 1.0 - 0.75 * Severity(e))
    case _ => 1.0
  }

  function PriceWarShock(e: Event): real { MaxReal(0.55, MinReal(0.95, 1.0 - 0.35 * Severity(e))) }

  function PriceWarDrift(e: Event): real { MaxReal(0.70, MinReal(0.98, 1.0 - 0.18 * Severity(e))) }

  function ReviewDrop(e: Event): real { MaxReal(0.25, MinReal(2.20, 1.20 * Severity(e))) }

  function ReviewRecovery(e: Event): real { MaxReal(0.10, MinReal(0.75, 0.45 * Severity(e))) }

  function Clamped(x: real): real { MaxReal(0.2, MinReal(4.0, x)) }

  /** Does this event shape demand for the product? */
  predicate Shapes(e: Event, sku: Sku) {
    e.sku == sku && (e.kind.DemandSpike? || e.kind.DemandCrash?)
  }

  /** The demand events active for one product, in the order they were injected. */
  function Shaping(events: seq<Event>, sku: Sku): seq<Event> {
    if events == [] then []
    else
      var rest := Shaping(events[..|events| - 1], sku);
      var last := events[|events| - 1];
      if Shapes(last, sku) then rest + [last] else rest
  }

  /** The clamped product of the factors of the given events, first event first. */
  function Compound(events: seq<Event>): real {
    if events == [] then 1.0
    else Scaled(Compound(events[..|events| - 1]), events[|events| - 1])
  }

  function Scaled(multiplier: real, e: Event): real { Clamped(multiplier * DemandFactor(e)) }

  /** What a product's cached multiplier must be while these events are active. */
  function MultiplierFor(events: seq<Event>, sku: Sku): real { Compound(Shaping(events, sku)) }

  function Recalculated(st: State): State {
    st.(products := map sku | sku in st.products ::
          st.products[sku].(demandMultiplier := MultiplierFor(st.events, sku)))
  }

  function Drop(rating: real, amount: real): real { MaxReal(1.0, rating - amount) }

  function Lift(rating: real, amount: real): real { MinReal(5.0, rating + amount) }

  function ShockedPrice(price: int, e: Event): int { RoundedShare(price, PriceWarShock(e)) }

  function Shocked(competitors: seq<Competitor>, e: Event): seq<Competitor> {
    seq(|competitors|, i requires 0 <= i < |competitors| =>
      if competitors[i].sku == e.sku
      then competitors[i].(price := ShockedPrice(competitors[i].price, e))
      else competitors[i])
  }

  function InitialEffects(st: State, e: Event): State {
    if e.sku !in st.products then st
    else if e.kind.ReviewBomb? then
      var p := st.products[e.sku];
      st.(products := st.products[e.sku := p.(rating := Drop(p.rating, ReviewDrop(e)))])
    else if e.kind.PriceWar? then st.(competitors := Shocked(st.competitors, e))
    else st
  }

  function KindAt(i: nat): (EventKind, real)
    requires i < 5
  {
    [(SupplyShock, 0.7), (PriceWar, 0.6), (DemandSpike, 0.5), (DemandCrash, 0.6), (ReviewBomb, 0.5)][i]
  }

  function DrawnEvent(m: Setup, cursor: nat): Event
    requires m.catalog != []
  {
    var (kind, severity) := KindAt(Pick(5, m.draws(cursor)));
    var sku := m.catalog[Pick(|m.catalog|, m.draws(cursor + 1))];
    var days := RandInt(3, 14, m.draws(cursor + 2));
    Event(kind, sku, severity * Uniform(0.8, 1.2, m.draws(cursor + 3)), days)
  }

  function Injected(m: Setup, st: State): State
    requires m.catalog != []
  {
    if m.draws(st.cursor) > 0.05 then st.(cursor := st.cursor + 1)
    else
      var e := DrawnEvent(m, st.cursor + 1);
      Recalculated(InitialEffects(st.(cursor := st.cursor + 5, events := st.events + [e]), e))
  }

  /** One event of the evening pass; events still running are collected in st.events. */
  function ExpiryStep(st: State, running: Event): State {
    var e := running.(daysRemaining := running.daysRemaining - 1);
    if e.daysRemaining > 0 then st.(events := st.events + [e])
    else if e.kind.ReviewBomb? && e.sku in st.products then
      var p := st.products[e.sku];
      st.(products := st.products[e.sku := p.(rating := Lift(p.rating, ReviewRecovery(e)))])
    else st
  }

  function ExpiryRun(st: State, queue: seq<Event>): State
    decreases |queue|
  {
    if queue == [] then st else ExpiryRun(ExpiryStep(st, queue[0]), queue[1..])
  }

  function EventsUpdated(st: State): State {
    Recalculated(ExpiryRun(st.(events := []), st.events))
  }
}
