/** Entities of the market simulator: the catalogue, suppliers, queues, cumulative totals and configuration.
    Fields grouped under "history" are read by no branch; they only record what a run did. */
module Market {
  import opened Numbers
  import opened Rng
  import opened Ids

  type Sku = string

  datatype Product = Product(
    category: string,
    cost: int,
    price: int,
    stock: int,
    baseDemand: int,
    demandMultiplier: real,
    rating: real,
    adBoost: real,
    nextAdBoost: real)

  datatype Competitor = Competitor(sku: Sku, price: int, aggression: real)

  datatype EventKind = SupplyShock | PriceWar | DemandSpike | DemandCrash | ReviewBomb

  datatype Event = Event(kind: EventKind, sku: Sku, severity: real, daysRemaining: int)

  datatype Offer = Offer(
    supplierId: string,
    unitCost: int,
    leadTime: int,
    reliability: real,
    minOrderQty: int,
    lane: string)

  /** A supplier order under way. History: the day it was placed and the quoted lead time. */
  datatype Inbound = Inbound(
    poId: string,
    supplierId: string,
    sku: Sku,
    quantity: int,
    unitCost: int,
    reliability: real,
    daysUntilArrival: int,
    lane: string,
    delay: int,
    placedOn: int,
    leadTime: int)

  /** A customer return. History: the amount first flagged, the refunds paid so far, and what reconciling its units
      did and how often: units put back and written off, what the salvage brought, and the product appraised for it. */
  datatype Return = Return(
    returnId: string,
    orderId: string,
    sku: Sku,
    quantity: int,
    refund: int,
    daysLeft: int,
    restockable: bool,
    recoveryRate: real,
    reconciled: bool,
    flagged: int,
    paid: int,
    recovered: int,
    damaged: int,
    reconciliations: nat,
    salvaged: int,
    appraised: Option<Product>)

  datatype Order = Order(orderId: string, sku: Sku, quantity: int, maxPrice: int)

  datatype Totals = Totals(
    revenue: int,
    costs: int,
    fulfilled: int,
    stockouts: int,
    adSpend: int,
    returnsProcessed: int,
    refundsPaid: int,
    salvage: int,
    delayEvents: int,
    delayDays: int)

  const NoTotals := Totals(0, 0, 0, 0, 0, 0, 0, 0, 0, 0)

  datatype Series = Series(
    revenue: seq<int>,
    costs: seq<int>,
    profit: seq<int>,
    adSpend: seq<int>,
    adAttributed: seq<int>)

  const NoSeries := Series([], [], [], [], [])

  datatype Arrival = Arrival(po: Inbound, day: int, delivered: int)

  datatype Delivery = Delivery(sku: Sku, units: int)

  /** A fulfilled order and the price it was sold at. */
  datatype Sale = Sale(order: Order, price: int)

  /** Everything a run ever flagged, closed, received, restocked, sold or numbered. */
  datatype History = History(
    refundsFlagged: int,
    returnsFlagged: int,
    closedReturns: seq<Return>,
    arrivals: seq<Arrival>,
    restocks: seq<Delivery>,
    sales: seq<Sale>,
    purchaseKeys: seq<Key>,
    purchaseIds: seq<string>,
    returnKeys: seq<Key>,
    returnIds: seq<string>,
    orderIds: seq<string>)

  const NoHistory := History(0, 0, [], [], [], [], [], [], [], [], [])

  datatype ReturnProfile = ReturnProfile(
    base: real,
    restockProb: real,
    recoveryLow: real,
    recoveryHigh: real,
    salvage: real)

  /** What does not change during a run: the random stream, the catalogue in its insertion order, the supplier
      quotes and the realism configuration. Seasonal factors are pure functions of day and category. */
  datatype Setup = Setup(
    draws: Stream,
    catalog: seq<Sku>,
    suppliers: map<Sku, seq<Offer>>,
    fulfillmentFee: int,
    processingRate: real,
    overhead: int,
    maxOrderQty: int,
    delayRisk: map<string, real>,
    shockRisk: real,
    maxRisk: real,
    delayMin: int,
    delayMax: int,
    maxDelay: int,
    returnProfiles: map<string, ReturnProfile>,
    defaultProfile: ReturnProfile,
    seasonalDemand: (int, string) -> real,
    seasonalReturn: (int, string) -> real)

  datatype State = State(
    day: nat,
    capital: int,
    startingCapital: int,
    startingInventory: int,
    products: map<Sku, Product>,
    backlog: map<Sku, int>,
    competitors: seq<Competitor>,
    events: seq<Event>,
    inbound: seq<Inbound>,
    openReturns: seq<Return>,
    nextOrder: nat,
    totals: Totals,
    series: Series,
    cursor: nat,
    history: History)

  function ProfileFor(m: Setup, category: string): ReturnProfile {
    if category in m.returnProfiles then m.returnProfiles[category] else m.defaultProfile
  }

  function SuppliersOf(m: Setup, sku: Sku): seq<Offer> {
    if sku in m.suppliers then m.suppliers[sku] else []
  }

  function BacklogOf(backlog: map<Sku, int>, sku: Sku): int {
    if sku in backlog then backlog[sku] else 0
  }

  function Profit(st: State): int { st.totals.revenue - st.totals.costs }

  function InventoryOf(catalog: seq<Sku>, products: map<Sku, Product>): int {
    if catalog == [] then 0
    else
      var sku := catalog[|catalog| - 1];
      InventoryOf(catalog[..|catalog| - 1], products)
      + (if sku in products then products[sku].cost * products[sku].stock else 0)
  }

  function Exposure(open: seq<Return>): int {
    if open == [] then 0 else Exposure(open[..|open| - 1]) + open[|open| - 1].refund
  }

  function Equity(m: Setup, st: State): int {
    st.capital + InventoryOf(m.catalog, st.products) - Exposure(st.openReturns)
  }

  function StartingEquity(st: State): int { st.startingCapital + st.startingInventory }

  function EquityProfit(m: Setup, st: State): int { Equity(m, st) - StartingEquity(st) }

  /** A state before the first day: full books, empty queues, a consistent opening stock. */
  predicate Opening(m: Setup, st: State) {
    && st.day == 0 && st.nextOrder == 0
    && st.capital == st.startingCapital
    && st.startingInventory == InventoryOf(m.catalog, st.products)
    && st.events == [] && st.inbound == [] && st.openReturns == []
    && st.totals == NoTotals && st.series == NoSeries && st.history == NoHistory
    && (forall sku <- m.catalog :: sku in st.products)
    && (forall sku <- st.products.Keys ::
          && st.products[sku].price > 0
          && st.products[sku].stock >= 0
          && st.products[sku].demandMultiplier == 1.0)
  }
}
