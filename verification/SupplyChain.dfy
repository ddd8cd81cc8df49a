/** Morning deliveries: each pending supplier order may slip, then counts down, then is delivered. */
module SupplyChain {
  import opened Numbers
  import opened Rng
  import opened Market

  /** How many days an order slips this morning, and how many random draws deciding that took. */
  datatype Slip = Slip(days: nat, draws: nat)

  predicate ShockActive(events: seq<Event>, sku: Sku) {
    exists i :: 0 <= i < |events| && events[i].kind.SupplyShock? && events[i].sku == sku
  }

  function LaneDelayRisk(m: Setup, events: seq<Event>, po: Inbound): real {
    var base := if po.lane in m.delayRisk then m.delayRisk[po.lane] else 0.04;
    MinReal(m.maxRisk, MaxReal(0.0, if ShockActive(events, po.sku) then base + m.shockRisk else base))
  }

  function DelayLimit(m: Setup): int { Max(0, m.maxDelay) }

  function SlipOf(m: Setup, st: State, po: Inbound): Slip {
    if po.daysUntilArrival > 1 && po.delay < DelayLimit(m) then
      if m.draws(st.cursor) < LaneDelayRisk(m, st.events, po) then
        var drawn := RandInt(m.delayMin, Max(m.delayMin, m.delayMax), m.draws(st.cursor + 1));
        Slip(Max(0, Min(drawn, DelayLimit(m) - po.delay)), 2)
      else
        Slip(0, 1)
    else
      Slip(0, 0)
  }

  function Counted(totals: Totals, slip: Slip): Totals {
    if slip.days == 0 then totals
    else totals.(delayEvents := totals.delayEvents + 1, delayDays := totals.delayDays + slip.days)
  }

  function DeliveredQty(quantity: int, ratio: real): int {
    Max(0, RoundedShare(quantity, ratio))
  }

  /** Cost basis smoothed toward the delivered unit cost. */
  function Blend(cost: int, unitCost: int): int {
    HalfUp(cost as real * 0.7 + unitCost as real * 0.3)
  }

  function Shelve(p: Product, qty: int, unitCost: int): Product {
    if qty > 0 then
      p.(stock := p.stock + qty, cost := Blend(p.cost, unitCost))
    else p
  }

  function Arrive(st: State, po: Inbound, qty: int): State {
    st.(history := st.history.(arrivals := st.history.arrivals + [Arrival(po, st.day, qty)]))
  }

  function Deliver(m: Setup, st: State, po: Inbound): State {
    var complete := m.draws(st.cursor) <= po.reliability;
    var ratio := if complete then 1.0 else Uniform(0.65, 0.95, m.draws(st.cursor + 1));
    var qty := DeliveredQty(po.quantity, ratio);
    Arrive(st.(cursor := st.cursor + (if complete then 1 else 2),
               products := if po.sku in st.products
                           then st.products[po.sku := Shelve(st.products[po.sku], qty, po.unitCost)]
                           else st.products),
           po, qty)
  }

  /** One order of the morning queue; orders still under way are collected in st.inbound. */
  function InboundStep(m: Setup, st: State, queued: Inbound): State {
    var slip := SlipOf(m, st, queued);
    var po := queued.(daysUntilArrival := queued.daysUntilArrival + slip.days - 1, delay := queued.delay + slip.days);
    var moved := st.(cursor := st.cursor + slip.draws, totals := Counted(st.totals, slip));
    if po.daysUntilArrival > 0 then moved.(inbound := moved.inbound + [po])
    else if po.sku in st.products then Deliver(m, moved, po)
    else Arrive(moved, po, 0)
  }

  function InboundRun(m: Setup, st: State, queue: seq<Inbound>): State
    decreases |queue|
  {
    if queue == [] then st else InboundRun(m, InboundStep(m, st, queue[0]), queue[1..])
  }

  function InboundMorning(m: Setup, st: State): State {
    InboundRun(m, st.(inbound := []), st.inbound)
  }

  lemma DeliveryWithinOrder(quantity: int, ratio: real)
    requires quantity >= 0 && ratio <= 1.0
    ensures 0 <= DeliveredQty(quantity, ratio) <= quantity
  {
    hide RoundedShare;
    RoundedShareAtMost(quantity, ratio);
  }

  /** The half-up rounded 0.7/0.3 blend of two whole-cent costs lies between them. */
  lemma BlendBetween(cost: int, unitCost: int, low: int, high: int)
    requires low <= cost <= high && low <= unitCost <= high
    ensures low <= Blend(cost, unitCost) <= high
  {
    HalfUpBetween(cost as real * 0.7 + unitCost as real * 0.3, low, high);
  }
}
