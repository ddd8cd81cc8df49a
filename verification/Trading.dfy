/** The evening: overhead, booking of the morning's refunds, the agent's actions in order, then the books. */
module Trading {
  import opened Numbers
  import opened Rng
  import opened Ids
  import opened Market
  import opened ReturnsDesk

  datatype Mode = Proactive | Minimal | Standard

  /** An agent decision after its values have been read; the lists keep the order they were written in. */
  datatype Plan = Plan(
    acceptAll: bool,
    acceptOrders: set<string>,
    acceptSkus: set<Sku>,
    rejectSkus: set<Sku>,
    prices: seq<PriceChange>,
    restocks: seq<Purchase>,
    supplies: seq<Supply>,
    adverts: seq<Advert>,
    service: seq<Service>)

  datatype PriceChange = PriceChange(sku: Sku, candidate: Option<int>)

  datatype Purchase = Purchase(sku: Sku, quantity: int)

  datatype Supply = Supply(sku: Sku, quantity: int, supplier: Option<string>)

  datatype Advert = Advert(sku: Sku, spend: Option<int>)

  datatype Service = Service(sku: Sku, mode: Mode)

  datatype Results = Results(
    received: int,
    fulfilled: int,
    rejected: int,
    stockouts: int,
    revenue: int,
    costs: int,
    profit: int,
    adSpend: int,
    adAttributed: int,
    supplierOrders: int,
    tickets: int,
    fulfillmentFees: int,
    processingFees: int,
    fixedCost: int,
    returnsProcessed: int,
    refundsPaid: int,
    salvage: int)

  datatype Evening = Evening(st: State, res: Results)

  datatype Action =
    | SetPrice(change: PriceChange)
    | Restock(purchase: Purchase)
    | Procure(supply: Supply)
    | Advertise(advert: Advert)
    | Serve(service: Service)
    | Sell(order: Order, accepted: bool)

  function NoResults(received: int): Results {
    Results(received, 0, 0, 0, 0, 0, 0, 0, 0, 0, 0, 0, 0, 0, 0, 0, 0)
  }

  function Charge(x: Evening, amount: int): Evening {
    Evening(x.st.(capital := x.st.capital - amount), x.res.(costs := x.res.costs + amount))
  }

  function Overhead(m: Setup, x: Evening): Evening {
    var amount := Min(m.overhead, Max(x.st.capital, 0));
    if amount > 0 then
      var charged := Charge(x, amount);
      charged.(res := charged.res.(fixedCost := charged.res.fixedCost + amount))
    else x
  }

  function Booked(x: Evening, adj: Adjustments): Evening {
    x.(res := x.res.(
         returnsProcessed := x.res.returnsProcessed + adj.processed,
         refundsPaid := x.res.refundsPaid + adj.refunds,
         salvage := x.res.salvage + adj.salvage,
         revenue := x.res.revenue - adj.refunds + adj.salvage))
  }

  function PriceSet(x: Evening, change: PriceChange): Evening {
    if change.sku in x.st.products && change.candidate.Some? && change.candidate.value > 0 then
      var p := x.st.products[change.sku];
      x.(st := x.st.(products := x.st.products[change.sku := p.(price := change.candidate.value)]))
    else x
  }

  function Restocked(m: Setup, x: Evening, purchase: Purchase): Evening {
    if purchase.sku in x.st.products && purchase.quantity > 0 then
      var p := x.st.products[purchase.sku];
      var quantity := Min(purchase.quantity, m.maxOrderQty);
      var cost := p.cost * quantity;
      if cost <= x.st.capital then
        var bought := x.st.products[purchase.sku := p.(stock := p.stock + quantity)];
        var recorded := x.st.history.(restocks := x.st.history.restocks + [Delivery(purchase.sku, quantity)]);
        Charge(x.(st := x.st.(products := bought, history := recorded)), cost)
      else x
    else x
  }

  /** Cheaper, then quicker, then more reliable. */
  predicate Beats(a: Offer, b: Offer) {
    || a.unitCost < b.unitCost
    || (a.unitCost == b.unitCost && a.leadTime < b.leadTime)
    || (a.unitCost == b.unitCost && a.leadTime == b.leadTime && a.reliability > b.reliability)
  }

  /** Better than every offer before it: ties go to the earliest. */
  predicate FirstBest(offers: seq<Offer>, i: nat)
    requires i < |offers|
  {
    forall j :: 0 <= j < i ==> Beats(offers[i], offers[j])
  }

  function Preferred(offers: seq<Offer>): (best: Offer)
    requires offers != []
    ensures best in offers
    ensures forall offer <- offers :: !Beats(offer, best)
    ensures exists i :: 0 <= i < |offers| && FirstBest(offers, i) && offers[i] == best
  {
    var last := offers[|offers| - 1];
    if |offers| == 1 then last
    else
      var best := Preferred(offers[..|offers| - 1]);
      assert offers == offers[..|offers| - 1] + [last];
      assert Beats(last, best) ==> forall j :: 0 <= j < |offers| - 1 ==> Beats(last, offers[j]) by {
        assert forall j :: 0 <= j < |offers| - 1 ==> offers[j] == offers[..|offers| - 1][j] && !Beats(offers[j], best);
      }
      assert forall i :: 0 <= i < |offers| - 1 && FirstBest(offers[..|offers| - 1], i) ==> FirstBest(offers, i);
      if Beats(last, best) then last else best
  }

  function Named(offers: seq<Offer>, supplierId: string): Option<Offer> {
    if offers == [] then None
    else if offers[0].supplierId == supplierId then Some(offers[0])
    else Named(offers[1..], supplierId)
  }

  function SelectSupplier(m: Setup, sku: Sku, supplier: Option<string>): Option<Offer> {
    var offers := SuppliersOf(m, sku);
    if offers == [] then None
    else
      var named := if supplier.Some? && supplier.value != "" then Named(offers, supplier.value) else None;
      if named.Some? then named else Some(Preferred(offers))
  }

  lemma NamedIsOffered(offers: seq<Offer>, supplierId: string)
    ensures Named(offers, supplierId).Some? ==> Named(offers, supplierId).value in offers
  {
  }

  lemma SelectedIsOffered(m: Setup, sku: Sku, supplier: Option<string>)
    ensures var offer := SelectSupplier(m, sku, supplier); offer.Some? ==> offer.value in SuppliersOf(m, sku)
  {
    if supplier.Some? { NamedIsOffered(SuppliersOf(m, sku), supplier.value); }
  }

  function OpenOrder(st: State, sku: Sku, quantity: int, offer: Offer): State {
    var key := Key(st.day, |st.inbound| + 1);
    var po := Inbound(PurchaseId(key), offer.supplierId, sku, quantity, offer.unitCost, offer.reliability,
                      offer.leadTime, offer.lane, 0, st.day, offer.leadTime);
    st.(inbound := st.inbound + [po],
        history := st.history.(purchaseKeys := st.history.purchaseKeys + [key],
                               purchaseIds := st.history.purchaseIds + [po.poId]))
  }

  function Supplied(m: Setup, x: Evening, supply: Supply): Evening {
    var wanted := Min(supply.quantity, m.maxOrderQty);
    var offer := SelectSupplier(m, supply.sku, supply.supplier);
    if supply.sku !in x.st.products || wanted <= 0 || offer.None? then x
    else
      var quantity := Max(wanted, offer.value.minOrderQty);
      var total := offer.value.unitCost * quantity;
      if total > x.st.capital then x
      else
        var charged := Charge(x.(st := OpenOrder(x.st, supply.sku, quantity, offer.value)), total);
        charged.(res := charged.res.(supplierOrders := charged.res.supplierOrders + 1))
  }

  function Advertised(x: Evening, advert: Advert): Evening {
    if advert.sku in x.st.products && advert.spend.Some? && 0 < advert.spend.value <= x.st.capital then
      var spend := advert.spend.value;
      var p := x.st.products[advert.sku];
      var boost := MinReal(1.0, spend as real / 22000.0);
      var charged := Charge(x, spend);
      Evening(
        charged.st.(products := x.st.products[advert.sku := p.(nextAdBoost := MaxReal(p.nextAdBoost, 1.0 + boost))],
                    totals := x.st.totals.(adSpend := x.st.totals.adSpend + spend)),
        charged.res.(adSpend := charged.res.adSpend + spend))
    else x
  }

  function ResolveRatio(mode: Mode): real {
    match mode case Proactive => 0.6 case Minimal => 0.1 case Standard => 0.3
  }

  function TicketCost(mode: Mode): int {
    match mode case Proactive => 75 case Minimal => 15 case Standard => 40
  }

  function RatingDelta(mode: Mode): real {
    match mode case Proactive => 0.08 case Minimal => -0.02 case Standard => 0.03
  }

  function TicketsWanted(backlog: int, mode: Mode): nat { Max(0, RoundedShare(backlog, ResolveRatio(mode))) }

  function TicketsResolved(capital: int, backlog: int, mode: Mode): int {
    var wanted := TicketsWanted(backlog, mode);
    if TicketCost(mode) * wanted <= capital then wanted
    else if capital > 0 then capital / TicketCost(mode)
    else 0
  }

  function Served(x: Evening, service: Service): Evening {
    var backlog := BacklogOf(x.st.backlog, service.sku);
    var resolved := TicketsResolved(x.st.capital, backlog, service.mode);
    if service.sku in x.st.products && backlog > 0 && resolved > 0 then
      var p := x.st.products[service.sku];
      var rated := p.(rating := MaxReal(1.0, MinReal(5.0, p.rating + RatingDelta(service.mode))));
      var charged := Charge(x, TicketCost(service.mode) * resolved);
      Evening(
        charged.st.(backlog := x.st.backlog[service.sku := Max(0, backlog - resolved)],
                    products := x.st.products[service.sku := rated]),
        charged.res.(tickets := charged.res.tickets + resolved))
    else x
  }

  function Complaints(st: State, sku: Sku, count: int): State {
    st.(backlog := st.backlog[sku := BacklogOf(st.backlog, sku) + count])
  }

  /** A lost customer complains with the given probability. */
  function Lost(m: Setup, x: Evening, sku: Sku, chance: real): Evening {
    var drawn := x.st.(cursor := x.st.cursor + 1);
    Evening(if m.draws(x.st.cursor) < chance then Complaints(drawn, sku, 1) else drawn,
            x.res.(rejected := x.res.rejected + 1))
  }

  function ProcessingFee(m: Setup, revenue: int): int { HalfUp(revenue as real * m.processingRate) }

  function Fees(m: Setup, price: int, quantity: int): int {
    m.fulfillmentFee * quantity + ProcessingFee(m, price * quantity)
  }

  function ReturnOdds(m: Setup, day: nat, p: Product, quantity: int): real {
    var penalty := MaxReal(0.0, 4.4 - p.rating) * 0.018 + Max(0, quantity - 1) as real * 0.012;
    var odds := Times(ProfileFor(m, p.category).base + penalty, m.seasonalReturn(day, p.category));
    MaxReal(0.008, MinReal(0.30, odds))
  }

  /** A return drawn from the stream at the cursor: its fate, then its resolution date. */
  function DrawnReturn(m: Setup, cursor: nat, key: Key, order: Order, category: string, revenue: int): Return {
    var profile := ProfileFor(m, category);
    var restockable := m.draws(cursor) < profile.restockProb;
    var rate := if restockable then Uniform(profile.recoveryLow, profile.recoveryHigh, m.draws(cursor + 1)) else 0.0;
    Return(ReturnId(key), order.orderId, order.sku, order.quantity, revenue,
           RandInt(2, 10, m.draws(cursor + if restockable then 2 else 1)), restockable, rate,
           false, revenue, 0, 0, 0, 0, 0, None)
  }

  /** Flag a sold order for a later return. */
  function Flagged(m: Setup, st: State, order: Order, p: Product, revenue: int): State {
    if m.draws(st.cursor) < ReturnOdds(m, st.day, p, order.quantity) then
      var key := Key(st.day, |st.openReturns| + 1);
      var r := DrawnReturn(m, st.cursor + 1, key, order, p.category, revenue);
      st.(cursor := st.cursor + (if r.restockable then 4 else 3),
          openReturns := st.openReturns + [r],
          history := st.history.(refundsFlagged := st.history.refundsFlagged + revenue,
                                 returnsFlagged := st.history.returnsFlagged + 1,
                                 returnKeys := st.history.returnKeys + [key],
                                 returnIds := st.history.returnIds + [r.returnId]))
    else st.(cursor := st.cursor + 1)
  }

  function Attributed(p: Product, revenue: int): int {
    if p.adBoost > 1.0 then HalfUp(revenue as real * MinReal(0.5, p.adBoost - 1.0)) else 0
  }

  function FeesCharged(m: Setup, x: Evening, price: int, quantity: int): Evening {
    var fees := Fees(m, price, quantity);
    if fees > 0 then
      var charged := Charge(x, fees);
      charged.(res := charged.res.(
                 fulfillmentFees := charged.res.fulfillmentFees + m.fulfillmentFee * quantity,
                 processingFees := charged.res.processingFees + ProcessingFee(m, price * quantity)))
    else x
  }

  /** Goods leave, revenue comes in, fees go out. */
  function PaidFor(m: Setup, x: Evening, order: Order, p: Product): Evening {
    var revenue := p.price * order.quantity;
    var sold := p.(stock := p.stock - order.quantity);
    var paid := Evening(
      x.st.(products := x.st.products[order.sku := sold], capital := x.st.capital + revenue,
            history := x.st.history.(sales := x.st.history.sales + [Sale(order, p.price)])),
      x.res.(revenue := x.res.revenue + revenue, fulfilled := x.res.fulfilled + 1,
             adAttributed := x.res.adAttributed + Attributed(p, revenue)));
    FeesCharged(m, paid, p.price, order.quantity)
  }

  function Fulfilled(m: Setup, x: Evening, order: Order, p: Product): Evening {
    var paid := PaidFor(m, x, order, p);
    paid.(st := Flagged(m, paid.st, order, p, p.price * order.quantity))
  }

  function Sold(m: Setup, x: Evening, order: Order, accepted: bool): Evening {
    if order.sku !in x.st.products then x
    else
      var p := x.st.products[order.sku];
      if !accepted then Lost(m, x, order.sku, 0.05)
      else if p.price > order.maxPrice then Lost(m, x, order.sku, 0.15)
      else if p.stock < order.quantity then
        Evening(Complaints(x.st, order.sku, 2), x.res.(stockouts := x.res.stockouts + 1))
      else Fulfilled(m, x, order, p)
  }

  function Perform(m: Setup, x: Evening, a: Action): Evening {
    match a
    case SetPrice(change) => PriceSet(x, change)
    case Restock(purchase) => Restocked(m, x, purchase)
    case Procure(supply) => Supplied(m, x, supply)
    case Advertise(advert) => Advertised(x, advert)
    case Serve(service) => Served(x, service)
    case Sell(order, accepted) => Sold(m, x, order, accepted)
  }

  function PerformAll(m: Setup, x: Evening, actions: seq<Action>): Evening
    decreases |actions|
  {
    if actions == [] then x else PerformAll(m, Perform(m, x, actions[0]), actions[1..])
  }

  lemma {:induction false} PerformInTwo(m: Setup, x: Evening, first: seq<Action>, rest: seq<Action>)
    ensures PerformAll(m, x, first + rest) == PerformAll(m, PerformAll(m, x, first), rest)
    decreases |first|
  {
    if first == [] {
      assert first + rest == rest;
    } else {
      assert (first + rest)[1..] == first[1..] + rest;
      PerformInTwo(m, Perform(m, x, first[0]), first[1..], rest);
    }
  }

  predicate Accepts(plan: Plan, order: Order) {
    && (plan.acceptAll || order.orderId in plan.acceptOrders || order.sku in plan.acceptSkus)
    && order.sku !in plan.rejectSkus
  }

  function Sales(plan: Plan, orders: seq<Order>): seq<Action> {
    seq(|orders|, i requires 0 <= i < |orders| => Sell(orders[i], Accepts(plan, orders[i])))
  }

  function PriceActions(changes: seq<PriceChange>): seq<Action> {
    seq(|changes|, i requires 0 <= i < |changes| => SetPrice(changes[i]))
  }

  function RestockActions(purchases: seq<Purchase>): seq<Action> {
    seq(|purchases|, i requires 0 <= i < |purchases| => Restock(purchases[i]))
  }

  function SupplyActions(supplies: seq<Supply>): seq<Action> {
    seq(|supplies|, i requires 0 <= i < |supplies| => Procure(supplies[i]))
  }

  function AdvertActions(adverts: seq<Advert>): seq<Action> {
    seq(|adverts|, i requires 0 <= i < |adverts| => Advertise(adverts[i]))
  }

  function ServiceActions(service: seq<Service>): seq<Action> {
    seq(|service|, i requires 0 <= i < |service| => Serve(service[i]))
  }

  /** The agent's own actions in processing order: prices, restocks, supplier orders, adverts, service. */
  function OwnActions(plan: Plan): seq<Action> {
    PriceActions(plan.prices) + RestockActions(plan.restocks) + SupplyActions(plan.supplies)
    + AdvertActions(plan.adverts) + ServiceActions(plan.service)
  }

  /** Everything the agent decided, then every customer order. */
  function Actions(plan: Plan, orders: seq<Order>): seq<Action> {
    OwnActions(plan) + Sales(plan, orders)
  }

  /** Ratings slip where a large backlog is left standing. */
  function Decayed(st: State): State {
    st.(products := map sku | sku in st.products ::
          if BacklogOf(st.backlog, sku) > 25
          then st.products[sku].(rating := MaxReal(1.0, st.products[sku].rating - 0.04))
          else st.products[sku])
  }

  function BooksClosed(x: Evening): Evening {
    var res := x.res.(profit := x.res.revenue - x.res.costs);
    Evening(
      x.st.(series := Series(x.st.series.revenue + [res.revenue], x.st.series.costs + [res.costs],
                             x.st.series.profit + [res.profit], x.st.series.adSpend + [res.adSpend],
                             x.st.series.adAttributed + [res.adAttributed]),
            totals := x.st.totals.(revenue := x.st.totals.revenue + res.revenue,
                                   costs := x.st.totals.costs + res.costs,
                                   fulfilled := x.st.totals.fulfilled + res.fulfilled,
                                   stockouts := x.st.totals.stockouts + res.stockouts)),
      res)
  }

  function Opened(m: Setup, st: State, received: int, adj: Adjustments): Evening {
    Booked(Overhead(m, Evening(st, NoResults(received))), adj)
  }

  function Applied(m: Setup, st: State, plan: Plan, orders: seq<Order>, adj: Adjustments): Evening {
    var done := PerformAll(m, Opened(m, st, |orders|, adj), Actions(plan, orders));
    BooksClosed(done.(st := Decayed(done.st)))
  }
}
