/** Competitor drift and the day's customer orders. */
module Demand {
  import opened Numbers
  import opened Rng
  import opened Ids
  import opened Market
  import Events

  function DriftProduct(events: seq<Event>, sku: Sku): real {
    if events == [] then 1.0
    else
      var last := events[|events| - 1];
      var rest := DriftProduct(events[..|events| - 1], sku);
      if last.kind.PriceWar? && last.sku == sku then Times(rest, Events.PriceWarDrift(last)) else rest
  }

  function Pressure(events: seq<Event>, sku: Sku): real {
    MaxReal(0.55, MinReal(1.0, DriftProduct(events, sku)))
  }

  function DriftTarget(p: Product, c: Competitor, undercut: Unit, move: Unit): real {
    if undercut < c.aggression * 0.12 then Times(p.price as real, Uniform(0.90, 0.98, move))
    else Times(c.price as real, Uniform(0.97, 1.03, move))
  }

  function EvolvedPrice(p: Product, target: real, pressure: real): int {
    var pressed := if pressure < 1.0 then target * pressure else target;
    var floor := HalfEven(p.cost as real * 1.02);
    var cap := HalfEven(p.price as real * 1.35);
    HalfEven(MinReal(MaxReal(pressed, floor as real), cap as real))
  }

  /** A rival's drifted price never exceeds 135% of our price and, where that leaves room, never falls below 102% of
      our cost; both limits are rounded to cents like the price itself. */
  lemma DriftStaysNear(p: Product, target: real, pressure: real)
    ensures var (floor, cap) := (HalfEven(p.cost as real * 1.02), HalfEven(p.price as real * 1.35));
            EvolvedPrice(p, target, pressure) <= cap
            && (floor <= cap ==> floor <= EvolvedPrice(p, target, pressure))
  {
    var (floor, cap) := (HalfEven(p.cost as real * 1.02), HalfEven(p.price as real * 1.35));
    var pressed := if pressure < 1.0 then target * pressure else target;
    var kept := MinReal(MaxReal(pressed, floor as real), cap as real);
    HalfEvenAtMost(kept, cap);
    if floor <= cap { HalfEvenAtLeast(kept, floor); }
  }

  /** Competitors from position i on each take one drift step, in order. */
  function EvolvedFrom(m: Setup, st: State, i: nat): State
    decreases |st.competitors| - i
  {
    if i >= |st.competitors| then st
    else
      var c := st.competitors[i];
      if c.sku in st.products then
        var p := st.products[c.sku];
        var target := DriftTarget(p, c, m.draws(st.cursor), m.draws(st.cursor + 1));
        var price := EvolvedPrice(p, target, Pressure(st.events, c.sku));
        EvolvedFrom(m, st.(competitors := st.competitors[i := c.(price := price)], cursor := st.cursor + 2), i + 1)
      else
        EvolvedFrom(m, st, i + 1)
  }

  function RolledForward(products: map<Sku, Product>): map<Sku, Product> {
    map sku | sku in products ::
      products[sku].(adBoost := MaxReal(0.2, products[sku].nextAdBoost), nextAdBoost := 1.0)
  }

  /** What a product sells on average: its base demand under events, advertising and its rating. */
  function Attraction(p: Product): real {
    var base := Times(Times(p.baseDemand as real, p.demandMultiplier), MaxReal(0.2, p.adBoost));
    Times(base, 0.4 + (p.rating / 5.0) * 0.8)
  }

  function RawDemand(p: Product, u: Unit): int { Max(0, Truncate(Times(Attraction(p), Uniform(0.7, 1.3, u)))) }

  function RivalPrices(competitors: seq<Competitor>, sku: Sku): seq<int> {
    if competitors == [] then []
    else
      var last := competitors[|competitors| - 1];
      var rest := RivalPrices(competitors[..|competitors| - 1], sku);
      if last.sku == sku then rest + [last.price] else rest
  }

  function PriceFactor(competitors: seq<Competitor>, sku: Sku, price: int): real {
    var rivals := RivalPrices(competitors, sku);
    if rivals == [] || price <= 0 then 1.0
    else
      var average := Sum(rivals) as real / |rivals| as real;
      MaxReal(0.65, MinReal(1.35, average / price as real))
  }

  function Seasoned(raw: real, factor: real, seasonal: real): nat {
    Max(0, HalfEven(Times(Times(raw, factor), seasonal)))
  }

  /** What a customer is willing to pay: our price give or take ten percent. */
  function Ceiling(price: int, u: Unit): int { HalfEven(Times(price as real, Uniform(0.9, 1.1, u))) }

  function DemandOf(m: Setup, st: State, sku: Sku): nat
    requires sku in st.products
  {
    var p := st.products[sku];
    var raw := RawDemand(p, m.draws(st.cursor)) as real;
    var seasonal := m.seasonalDemand(st.day, p.category);
    Seasoned(raw, PriceFactor(st.competitors, sku, p.price), seasonal)
  }

  datatype Batch = Batch(st: State, orders: seq<Order>)

  function NextOrder(m: Setup, b: Batch, sku: Sku): Batch
    requires sku in b.st.products
  {
    var number := b.st.nextOrder + 1;
    var ceiling := Ceiling(b.st.products[sku].price, m.draws(b.st.cursor));
    var quantity := RandInt(1, 3, m.draws(b.st.cursor + 1));
    var order := Order(OrderId(number), sku, quantity, ceiling);
    Batch(b.st.(nextOrder := number, cursor := b.st.cursor + 2,
                history := b.st.history.(orderIds := b.st.history.orderIds + [order.orderId])),
          b.orders + [order])
  }

  function OrdersFor(m: Setup, b: Batch, sku: Sku, count: nat): Batch
    requires sku in b.st.products
    decreases count
  {
    if count == 0 then b else OrdersFor(m, NextOrder(m, b, sku), sku, count - 1)
  }

  function OrdersRun(m: Setup, b: Batch, skus: seq<Sku>): Batch
    decreases |skus|
  {
    if skus == [] then b
    else if skus[0] in b.st.products then
      var drawn := b.(st := b.st.(cursor := b.st.cursor + 1));
      OrdersRun(m, OrdersFor(m, drawn, skus[0], DemandOf(m, b.st, skus[0])), skus[1..])
    else OrdersRun(m, b, skus[1..])
  }

  function Shuffling(m: Setup, b: Batch): Batch {
    var top := if b.orders == [] then 0 else |b.orders| - 1;
    Batch(b.st.(cursor := b.st.cursor + top), Shuffled(b.orders, top, m.draws, b.st.cursor))
  }

  function Generated(m: Setup, st: State): Batch {
    Shuffling(m, OrdersRun(m, Batch(st.(products := RolledForward(st.products)), []), m.catalog))
  }
}
