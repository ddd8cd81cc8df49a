/** How demand answers to what a run does: to prices, ratings, advertising, events and rivals. */
module DemandLaws {
  import opened Numbers
  import opened Rng
  import opened Market
  import opened Events
  import opened Demand

  lemma TruncateKeepsOrder(x: real, y: real)
    requires x <= y
    ensures Max(0, Truncate(x)) <= Max(0, Truncate(y)) && Max(0, HalfEven(x)) <= Max(0, HalfEven(y))
  {
  }

  lemma TimesNotNegative(a: real, b: real)
    requires a >= 0.0 && b >= 0.0
    ensures Times(a, b) >= 0.0
  {
  }

  lemma BothKeepOrder(a: real, b: real, c: real, d: real)
    requires 0.0 <= a <= c && 0.0 <= b <= d
    ensures 0.0 <= Times(a, b) <= Times(c, d)
  {
    TimesNotNegative(a, b);
    TimesKeepsOrder(a, c, b);
    TimesKeepsOrder(b, d, c);
    hide Times;
  }

  /** The same product, sold no dearer, rated, advertised and favoured by events no less. */
  predicate NoWorse(p: Product, q: Product) {
    && q.category == p.category
    && 0 <= p.baseDemand <= q.baseDemand
    && 0.0 <= p.demandMultiplier <= q.demandMultiplier
    && p.adBoost <= q.adBoost
    && 0.0 <= p.rating <= q.rating
    && 0 < q.price <= p.price
  }

  lemma AttractionResponds(p: Product, q: Product)
    requires NoWorse(p, q)
    ensures 0.0 <= Attraction(p) <= Attraction(q)
  {
    hide Times;
    BothKeepOrder(p.baseDemand as real, p.demandMultiplier, q.baseDemand as real, q.demandMultiplier);
    var (a, b) := (Times(p.baseDemand as real, p.demandMultiplier), Times(q.baseDemand as real, q.demandMultiplier));
    BothKeepOrder(a, MaxReal(0.2, p.adBoost), b, MaxReal(0.2, q.adBoost));
    var (c, d) := (Times(a, MaxReal(0.2, p.adBoost)), Times(b, MaxReal(0.2, q.adBoost)));
    BothKeepOrder(c, 0.4 + (p.rating / 5.0) * 0.8, d, 0.4 + (q.rating / 5.0) * 0.8);
  }

  lemma RawDemandResponds(p: Product, q: Product, u: Unit)
    requires NoWorse(p, q)
    ensures 0 <= RawDemand(p, u) <= RawDemand(q, u)
  {
    AttractionResponds(p, q);
    UniformBetween(0.7, 1.3, u);
    TimesKeepsOrder(Attraction(p), Attraction(q), Uniform(0.7, 1.3, u));
    hide Times, Attraction, Uniform;
    TruncateKeepsOrder(Times(Attraction(p), Uniform(0.7, 1.3, u)), Times(Attraction(q), Uniform(0.7, 1.3, u)));
    hide Truncate;
  }

  predicate PricesNotNegative(competitors: seq<Competitor>) { forall c <- competitors :: c.price >= 0 }

  lemma {:induction false} RivalsNotNegative(competitors: seq<Competitor>, sku: Sku)
    requires PricesNotNegative(competitors)
    ensures Sum(RivalPrices(competitors, sku)) >= 0
  {
    if competitors != [] {
      var front := competitors[..|competitors| - 1];
      assert forall c <- front :: c in competitors;
      RivalsNotNegative(front, sku);
      SumAppend(RivalPrices(front, sku), competitors[|competitors| - 1].price);
      assert competitors[|competitors| - 1] in competitors;
    }
  }

  lemma QuotientFalls(x: real, low: int, high: int)
    requires x >= 0.0 && 0 < low <= high
    ensures x / high as real <= x / low as real
  {
    var (a, b) := (x / low as real, x / high as real);
    assert a * low as real == x == b * high as real;
    TimesKeepsOrder(low as real, high as real, b);
    Compared(b, a, low as real);
  }

  lemma PriceFactorResponds(competitors: seq<Competitor>, sku: Sku, low: int, high: int)
    requires PricesNotNegative(competitors) && 0 < low <= high
    ensures 0.65 <= PriceFactor(competitors, sku, high) <= PriceFactor(competitors, sku, low) <= 1.35
  {
    RivalsNotNegative(competitors, sku);
    var rivals := RivalPrices(competitors, sku);
    if rivals != [] { QuotientFalls(Sum(rivals) as real / |rivals| as real, low, high); }
  }

  /** Main result: on the same draws a product never gets fewer orders for being cheaper, better rated, better
      advertised or more favoured by events. */
  lemma DemandResponds(m: Setup, st: State, better: State, sku: Sku)
    requires sku in st.products && sku in better.products && NoWorse(st.products[sku], better.products[sku])
    requires better.competitors == st.competitors && PricesNotNegative(st.competitors)
    requires better.day == st.day && better.cursor == st.cursor
    requires m.seasonalDemand(st.day, st.products[sku].category) >= 0.0
    ensures DemandOf(m, st, sku) <= DemandOf(m, better, sku)
  {
    var (p, q) := (st.products[sku], better.products[sku]);
    var season := m.seasonalDemand(st.day, p.category);
    RawDemandResponds(p, q, m.draws(st.cursor));
    PriceFactorResponds(st.competitors, sku, q.price, p.price);
    hide RawDemand, PriceFactor, Times, NoWorse;
    var (a, b) := (RawDemand(p, m.draws(st.cursor)) as real, RawDemand(q, m.draws(st.cursor)) as real);
    var (f, g) := (PriceFactor(st.competitors, sku, p.price), PriceFactor(st.competitors, sku, q.price));
    BothKeepOrder(a, f, b, g);
    TimesKeepsOrder(Times(a, f), Times(b, g), season);
    TruncateKeepsOrder(Times(Times(a, f), season), Times(Times(b, g), season));
    hide HalfEven;
  }

  /** Raw demand is the whole part of base demand under the cached multiplier, the boost, from 40% of it unrated to 120%
      at five stars, and noise of 30% either way. */
  lemma RawDemandExactly(p: Product, u: Unit)
    ensures var x := p.baseDemand as real * p.demandMultiplier * MaxReal(0.2, p.adBoost) * (0.4 + 0.16 * p.rating)
                     * (0.7 + 0.6 * u);
            if x >= 0.0 then RawDemand(p, u) as real <= x < RawDemand(p, u) as real + 1.0 else RawDemand(p, u) == 0
  {
    assert Uniform(0.7, 1.3, u) == 0.7 + 0.6 * u;
    assert 0.4 + (p.rating / 5.0) * 0.8 == 0.4 + 0.16 * p.rating;
    hide Uniform;
  }

  /** Only rivals with the same product count, each by its own price. */
  lemma {:induction false} RivalsCount(before: seq<Competitor>, c: Competitor, after: seq<Competitor>, sku: Sku)
    ensures RivalPrices(before + [c] + after, sku)
            == RivalPrices(before, sku) + (if c.sku == sku then [c.price] else []) + RivalPrices(after, sku)
    decreases |after|
  {
    var all := before + [c] + after;
    if after == [] {
      assert all[..|all| - 1] == before;
    } else {
      assert all[..|all| - 1] == before + [c] + after[..|after| - 1];
      RivalsCount(before, c, after[..|after| - 1], sku);
    }
  }

  /** The ratio of the average to the price, within 35% either way. */
  predicate RatioWithin(average: real, price: real, factor: real) {
    && (average <= 0.65 * price ==> factor == 0.65)
    && (average >= 1.35 * price ==> factor == 1.35)
    && (0.65 * price <= average <= 1.35 * price ==> factor * price == average)
  }

  /** Rivals' average price over ours decides; without rivals nothing does. */
  lemma PriceFactorExactly(competitors: seq<Competitor>, sku: Sku, price: int)
    requires price > 0
    ensures var (rivals, factor) := (RivalPrices(competitors, sku), PriceFactor(competitors, sku, price));
            if rivals == [] then factor == 1.0
            else RatioWithin(Sum(rivals) as real / |rivals| as real, price as real, factor)
  {
    var rivals := RivalPrices(competitors, sku);
    if rivals != [] {
      RatioKept(Sum(rivals) as real / |rivals| as real, price as real);
      hide RivalPrices, RatioWithin;
    }
  }

  lemma RatioKept(average: real, price: real)
    requires price > 0.0
    ensures RatioWithin(average, price, MaxReal(0.65, MinReal(1.35, average / price)))
  {
    var ratio := average / price;
    QuotientTimes(average, price);
    BoundTimes(price);
    hide Times;
    RatioClamped(ratio, price);
    if 0.65 * price <= average <= 1.35 * price { assert ratio * price == average; }
  }

  lemma QuotientTimes(average: real, price: real)
    requires price > 0.0
    ensures Times(average / price, price) == average == (average / price) * price
  {
  }

  lemma BoundTimes(price: real)
    ensures Times(0.65, price) == 0.65 * price && Times(1.35, price) == 1.35 * price
  {
  }

  lemma RatioClamped(ratio: real, price: real)
    requires price > 0.0
    ensures var factor := MaxReal(0.65, MinReal(1.35, ratio));
            && (Times(ratio, price) <= Times(0.65, price) ==> factor == 0.65)
            && (Times(ratio, price) >= Times(1.35, price) ==> factor == 1.35)
            && (Times(0.65, price) <= Times(ratio, price) <= Times(1.35, price) ==> factor == ratio)
  {
    Compared(ratio, 0.65, price);
    Compared(ratio, 1.35, price);
    Compared(0.65, ratio, price);
    Compared(1.35, ratio, price);
    hide Times;
  }

  /** A product's orders are raw demand under the price factor and the season, to the nearest whole one. */
  lemma SeasonedNear(raw: real, factor: real, seasonal: real)
    ensures var x := raw * factor * seasonal; x >= 0.0 ==> Near(Seasoned(raw, factor, seasonal), x)
  {
    HalfEvenNear(raw * factor * seasonal);
  }

  /** A spike raises demand by twice its severity, at most to 3.5 times; a crash takes three quarters of its severity
      away, at most down to a quarter; no other event touches it, and a mild spike and crash never go the wrong way. */
  lemma FactorByKind(e: Event)
    requires e.severity >= 0.0
    ensures match e.kind
            case DemandSpike =>
              DemandFactor(e) == if e.severity <= 1.25 then 1.0 + 2.0 * e.severity else 3.5
            case DemandCrash =>
              DemandFactor(e) == if e.severity <= 1.0 then 1.0 - 0.75 * e.severity else 0.25
            case _ => DemandFactor(e) == 1.0
  {
  }

  /** While one event alone shapes a product's demand, its cached multiplier is above one exactly for a spike and below
      one exactly for a crash. */
  lemma SpikesRaiseCrashesLower(events: seq<Event>, sku: Sku, e: Event)
    requires e.severity > 0.0 && e.sku == sku && e in events
    requires forall other <- events ::
               other.sku == sku && other != e ==> !other.kind.DemandSpike? && !other.kind.DemandCrash?
    requires multiset(events)[e] == 1
    ensures e.kind.DemandSpike? <==> MultiplierFor(events, sku) > 1.0
    ensures e.kind.DemandCrash? <==> MultiplierFor(events, sku) < 1.0
  {
    if e.kind.DemandSpike? || e.kind.DemandCrash? {
      OnlyShaper(events, sku, e);
      assert [e][..0] == [];
      assert Compound([e]) == Scaled(Compound([]), e);
      FactorByKind(e);
    } else {
      NoShaper(events, sku);
    }
  }

  lemma {:induction false} NoShaper(events: seq<Event>, sku: Sku)
    requires forall e <- events :: !Shapes(e, sku)
    ensures Shaping(events, sku) == []
  {
    if events != [] {
      assert events[|events| - 1] in events;
      NoShaper(events[..|events| - 1], sku);
    }
  }

  lemma {:induction false} OnlyShaper(events: seq<Event>, sku: Sku, e: Event)
    requires Shapes(e, sku) && multiset(events)[e] == 1
    requires forall other <- events :: other != e ==> !Shapes(other, sku)
    ensures Shaping(events, sku) == [e]
  {
    var (front, last) := (events[..|events| - 1], events[|events| - 1]);
    assert events == front + [last];
    if last == e {
      assert e !in multiset(front);
      NoShaper(front, sku);
    } else {
      OnlyShaper(front, sku, e);
    }
  }

  /** A rival that undercuts aims 2% to 10% below our price; any other stays within 3% of its own. */
  lemma DriftFollows(p: Product, c: Competitor, undercut: Unit, move: Unit)
    requires p.price >= 0 && c.price >= 0
    ensures var target := DriftTarget(p, c, undercut, move);
            if undercut < c.aggression * 0.12 then 0.90 * p.price as real <= target <= 0.98 * p.price as real
            else 0.97 * c.price as real <= target <= 1.03 * c.price as real
  {
    UniformBetween(0.90, 0.98, move);
    UniformBetween(0.97, 1.03, move);
    hide Uniform;
    PartBetween(p.price as real, 0.90, Uniform(0.90, 0.98, move), 0.98);
    PartBetween(c.price as real, 0.97, Uniform(0.97, 1.03, move), 1.03);
    hide Times;
  }

  lemma PartBetween(amount: real, low: real, share: real, high: real)
    requires amount >= 0.0 && low <= share <= high
    ensures low * amount <= Times(amount, share) <= high * amount
  {
    TimesKeepsOrder(low, share, amount);
    TimesKeepsOrder(share, high, amount);
  }

  /** Is a price war on over the product? */
  predicate AtWar(events: seq<Event>, sku: Sku) { exists e <- events :: e.kind.PriceWar? && e.sku == sku }

  lemma {:induction false} DriftProductBetween(events: seq<Event>, sku: Sku)
    ensures 0.0 <= DriftProduct(events, sku) <= 1.0
    ensures if AtWar(events, sku) then DriftProduct(events, sku) <= 0.98 else DriftProduct(events, sku) == 1.0
  {
    if events != [] {
      var (front, last) := (events[..|events| - 1], events[|events| - 1]);
      assert events == front + [last] && last in events;
      DriftProductBetween(front, sku);
      assert AtWar(events, sku) <==> AtWar(front, sku) || (last.kind.PriceWar? && last.sku == sku);
      WarPresses(DriftProduct(front, sku), last);
      hide AtWar, Times, PriceWarDrift;
    }
  }

  lemma WarPresses(pressure: real, e: Event)
    requires 0.0 <= pressure <= 1.0
    ensures 0.0 <= Times(pressure, PriceWarDrift(e)) <= 0.98
  {
    var share := PriceWarDrift(e);
    assert 0.70 <= share <= 0.98;
    BothKeepOrder(pressure, share, 1.0, 0.98);
    hide PriceWarDrift;
  }

  /** Rivals' prices are pressed by 2% to 45% while a price war is on over the product, and not at all otherwise. */
  lemma WarsPress(events: seq<Event>, sku: Sku)
    ensures if AtWar(events, sku) then 0.55 <= Pressure(events, sku) <= 0.98 else Pressure(events, sku) == 1.0
  {
    DriftProductBetween(events, sku);
  }

  /** One war presses by 18% a unit of severity, but from 2% up to 30%. */
  lemma OneWarPresses(e: Event)
    requires e.kind.PriceWar?
    ensures Pressure([e], e.sku) == MaxReal(0.70, MinReal(0.98, 1.0 - 0.18 * e.severity))
  {
    assert [e][..0] == [];
    assert DriftProduct([], e.sku) == 1.0;
  }

  /** Between its floor and its cap a rival's price is its pressed target, to half a cent. */
  lemma EvolvesToTarget(p: Product, target: real, pressure: real)
    requires pressure <= 1.0
    requires HalfEven(p.cost as real * 1.02) as real <= target * pressure <= HalfEven(p.price as real * 1.35) as real
    ensures Near(EvolvedPrice(p, target, pressure), target * pressure)
  {
    HalfEvenNear(target * pressure);
    hide HalfEven;
  }

  /** How many of the orders are for the product. */
  function OrdersOf(orders: seq<Order>, sku: Sku): nat {
    if orders == [] then 0
    else OrdersOf(orders[..|orders| - 1], sku) + if orders[|orders| - 1].sku == sku then 1 else 0
  }

  /** Every order is at a ceiling within a tenth of the product's price, to half a cent. */
  predicate Willing(products: map<Sku, Product>, orders: seq<Order>) {
    forall order <- orders ::
      && order.sku in products
      && (products[order.sku].price >= 0 ==>
            0.9 * products[order.sku].price as real - 0.5 <= order.maxPrice as real
            <= 1.1 * products[order.sku].price as real + 0.5)
  }

  lemma CeilingNear(price: int, u: Unit)
    requires price >= 0
    ensures 0.9 * price as real - 0.5 <= Ceiling(price, u) as real <= 1.1 * price as real + 0.5
  {
    UniformBetween(0.9, 1.1, u);
    hide Uniform;
    PartBetween(price as real, 0.9, Uniform(0.9, 1.1, u), 1.1);
    hide Times, HalfEven;
    HalfEvenNear(Times(price as real, Uniform(0.9, 1.1, u)));
  }

  /** An order wants one, two or three units as one draw has it, at the ceiling another draw sets around the price. */
  lemma OrderAsDrawn(m: Setup, b: Batch, sku: Sku)
    requires sku in b.st.products
    ensures var next := NextOrder(m, b, sku);
            && |next.orders| == |b.orders| + 1 && next.orders[..|b.orders|] == b.orders
            && (var order := next.orders[|b.orders|];
                && order.sku == sku && DrawnAs(1, 3, m.draws(b.st.cursor + 1), order.quantity)
                && NearShare(order.maxPrice, b.st.products[sku].price, 0.9 + 0.2 * m.draws(b.st.cursor)))
  {
    var share: real := 0.9 + 0.2 * m.draws(b.st.cursor);
    assert Uniform(0.9, 1.1, m.draws(b.st.cursor)) == share;
    HalfEvenNear(Times(b.st.products[sku].price as real, share));
    RandIntExactly(1, 3, m.draws(b.st.cursor + 1), RandInt(1, 3, m.draws(b.st.cursor + 1)));
    hide HalfEven, RandInt, DrawnAs;
  }

  /** The state differs from another at most in the draws taken and the orders numbered. */
  predicate SameMarket(st: State, r: State) {
    && r == st.(cursor := r.cursor, nextOrder := r.nextOrder,
                history := st.history.(orderIds := r.history.orderIds))
  }

  lemma {:induction false} OrdersForOne(m: Setup, b: Batch, sku: Sku, count: nat, other: Sku)
    requires sku in b.st.products && Willing(b.st.products, b.orders)
    ensures var r := OrdersFor(m, b, sku, count);
            && SameMarket(b.st, r.st) && Willing(b.st.products, r.orders)
            && OrdersOf(r.orders, other) == OrdersOf(b.orders, other) + if other == sku then count else 0
    decreases count
  {
    if count > 0 {
      var next := NextOrder(m, b, sku);
      if b.st.products[sku].price >= 0 { CeilingNear(b.st.products[sku].price, m.draws(b.st.cursor)); }
      assert next.orders[..|b.orders|] == b.orders;
      hide Ceiling, RandInt;
      OrdersForOne(m, next, sku, count - 1, other);
    }
  }

  lemma {:induction false} OrdersRunEach(m: Setup, b: Batch, skus: seq<Sku>, other: Sku) returns (draw: nat)
    requires Willing(b.st.products, b.orders) && Distinct(skus)
    ensures var r := OrdersRun(m, b, skus);
            && SameMarket(b.st, r.st) && Willing(b.st.products, r.orders)
            && OrdersOf(r.orders, other)
               == OrdersOf(b.orders, other)
                  + if other in skus && other in b.st.products then DemandOf(m, b.st.(cursor := draw), other) else 0
    decreases |skus|
  {
    hide DemandOf, OrdersFor, Willing;
    draw := 0;
    if skus != [] {
      assert skus == [skus[0]] + skus[1..] && Distinct(skus[1..]);
      if skus[0] in b.st.products {
        var drawn := b.(st := b.st.(cursor := b.st.cursor + 1));
        var count := DemandOf(m, b.st, skus[0]);
        OrdersForOne(m, drawn, skus[0], count, other);
        var next := OrdersFor(m, drawn, skus[0], count);
        draw := OrdersRunEach(m, next, skus[1..], other);
        if other == skus[0] { draw := b.st.cursor; }
        else { SameDemand(m, b.st, next.st, draw, other); }
        assert other == skus[0] ==> b.st.(cursor := draw) == b.st;
      } else {
        draw := OrdersRunEach(m, b, skus[1..], other);
      }
    }
  }

  lemma SameDemand(m: Setup, st: State, r: State, cursor: nat, sku: Sku)
    requires SameMarket(st, r)
    ensures sku in st.products ==> DemandOf(m, st.(cursor := cursor), sku) == DemandOf(m, r.(cursor := cursor), sku)
  {
  }

  lemma {:induction false} OrdersOfBoth(first: seq<Order>, rest: seq<Order>, sku: Sku)
    ensures OrdersOf(first + rest, sku) == OrdersOf(first, sku) + OrdersOf(rest, sku)
    decreases |rest|
  {
    if rest == [] {
      assert first + rest == first;
    } else {
      assert (first + rest)[..|first + rest| - 1] == first + rest[..|rest| - 1];
      OrdersOfBoth(first, rest[..|rest| - 1], sku);
    }
  }

  lemma OneLess(front: seq<Order>, last: Order, before: seq<Order>, after: seq<Order>)
    requires multiset(front + [last]) == multiset(before + [last] + after)
    ensures multiset(front) == multiset(before + after)
  {
    assert multiset(front + [last]) - multiset{last} == multiset(front);
    assert multiset(before + [last] + after) - multiset{last} == multiset(before + after);
  }

  /** How many orders are for a product does not depend on their order. */
  lemma {:induction false} OrdersOfAnyOrder(xs: seq<Order>, ys: seq<Order>, sku: Sku)
    requires multiset(xs) == multiset(ys)
    ensures OrdersOf(xs, sku) == OrdersOf(ys, sku)
    decreases |xs|
  {
    if xs == [] {
      assert |multiset(ys)| == 0;
    } else {
      var (front, last) := (xs[..|xs| - 1], xs[|xs| - 1]);
      assert xs == front + [last] && last in multiset(ys);
      var i :| 0 <= i < |ys| && ys[i] == last;
      var (before, after) := (ys[..i], ys[i + 1..]);
      assert ys == before + [last] + after;
      OneLess(front, last, before, after);
      OrdersOfAnyOrder(front, before + after, sku);
      OrdersWithin(before, last, after, sku);
    }
  }

  lemma OrdersWithin(before: seq<Order>, order: Order, after: seq<Order>, sku: Sku)
    ensures OrdersOf(before + [order] + after, sku)
            == OrdersOf(before + after, sku) + if order.sku == sku then 1 else 0
  {
    OrdersOfBoth(before, after, sku);
    OrdersOfBoth(before + [order], after, sku);
    assert (before + [order])[..|before|] == before;
  }

  /** Main result: a day brings each listed product exactly the orders its demand calls for, on one draw of the stream
      and after yesterday's advertising took effect, and all at ceilings near its price. */
  lemma DayDemand(m: Setup, st: State, sku: Sku)
    requires Distinct(m.catalog)
    ensures var (b, rolled) := (Generated(m, st), st.(products := RolledForward(st.products)));
            && Willing(rolled.products, b.orders)
            && exists draw: nat ::
                 OrdersOf(b.orders, sku)
                 == if sku in m.catalog && sku in rolled.products then DemandOf(m, rolled.(cursor := draw), sku) else 0
  {
    var start := Batch(st.(products := RolledForward(st.products)), []);
    hide DemandOf, OrdersRun, RolledForward, Willing;
    NobodyWilling(start.st.products);
    var draw := OrdersRunEach(m, start, m.catalog, sku);
    var run := OrdersRun(m, start, m.catalog);
    var shuffled := Shuffling(m, run);
    OrdersOfAnyOrder(run.orders, shuffled.orders, sku);
    StillWilling(start.st.products, run.orders, shuffled.orders);
  }

  lemma NobodyWilling(products: map<Sku, Product>)
    ensures Willing(products, [])
  {
  }

  lemma StillWilling(products: map<Sku, Product>, orders: seq<Order>, shuffled: seq<Order>)
    requires Willing(products, orders) && multiset(shuffled) == multiset(orders)
    ensures Willing(products, shuffled)
  {
    forall order <- shuffled ensures order in orders { assert order in multiset(shuffled); }
  }
}
