/** Morning refunds: each due return is refunded as far as cash allows, and its units are reconciled once. */
module ReturnsDesk {
  import opened Numbers
  import opened Market

  /** What the refund pass did, handed to the evening's books. */
  datatype Adjustments = Adjustments(processed: int, refunds: int, salvage: int)

  datatype Morning = Morning(st: State, adj: Adjustments)

  function Affordable(due: int, capital: int): int {
    Min(due, Max(capital, 0))
  }

  function Portion(quantity: int, rate: real): int { Max(0, RoundedShare(quantity, rate)) }

  function RecoveredUnits(r: Return): int {
    if r.restockable then Portion(r.quantity, r.recoveryRate) else 0
  }

  function DamagedUnits(r: Return): int {
    Max(0, r.quantity - RecoveredUnits(r))
  }

  /** What the damaged units are worth, before a worthless lot is passed over. */
  function Appraised(m: Setup, p: Product, units: int): int {
    HalfUp((p.cost * units) as real * ProfileFor(m, p.category).salvage)
  }

  function SalvageValue(m: Setup, p: Product, units: int): int {
    if units > 0 then Max(0, Appraised(m, p, units)) else 0
  }

  function PutBack(p: Product, units: int): Product {
    if units > 0 then p.(stock := p.stock + units) else p
  }

  function Refund(x: Morning, amount: int): Morning {
    if amount > 0 then
      Morning(
        x.st.(capital := x.st.capital - amount,
              totals := x.st.totals.(refundsPaid := x.st.totals.refundsPaid + amount)),
        x.adj.(refunds := x.adj.refunds + amount))
    else x
  }

  /** Restock what came back whole and sell the rest for salvage. */
  function Reconcile(m: Setup, x: Morning, r: Return): Morning {
    var counted := x.st.(totals := x.st.totals.(returnsProcessed := x.st.totals.returnsProcessed + 1));
    var adj := x.adj.(processed := x.adj.processed + 1);
    if r.sku in counted.products then
      var p := counted.products[r.sku];
      var value := SalvageValue(m, p, DamagedUnits(r));
      Morning(
        counted.(products := counted.products[r.sku := PutBack(p, RecoveredUnits(r))],
                 capital := counted.capital + value,
                 totals := counted.totals.(salvage := counted.totals.salvage + value)),
        adj.(salvage := adj.salvage + value))
    else
      Morning(counted, adj)
  }

  /** What the units a return does not bring back are sold for. */
  function SalvageOf(m: Setup, products: map<Sku, Product>, r: Return): int {
    if r.sku in products then SalvageValue(m, products[r.sku], DamagedUnits(r)) else 0
  }

  function Reconciled(m: Setup, products: map<Sku, Product>, r: Return): Return {
    var counted := r.(reconciled := true, reconciliations := r.reconciliations + 1);
    if r.sku in products then
      counted.(recovered := r.recovered + RecoveredUnits(r), damaged := r.damaged + DamagedUnits(r),
               salvaged := r.salvaged + SalvageOf(m, products, r), appraised := Some(products[r.sku]))
    else counted
  }

  function Requeue(st: State, r: Return): State {
    st.(openReturns := st.openReturns + [r])
  }

  function Close(st: State, r: Return): State {
    st.(history := st.history.(closedReturns := st.history.closedReturns + [r]))
  }

  /** Pay what cash allows of a due return and, the first time, reconcile its units. */
  function Settle(m: Setup, x: Morning, due: Return): Morning {
    var refunded := Refund(x, Affordable(due.refund, x.st.capital));
    if due.reconciled then refunded else Reconcile(m, refunded, due)
  }

  /** The return's own record of being settled with the given payment. */
  function Settled(m: Setup, products: map<Sku, Product>, due: Return, amount: int): Return {
    var paid := due.(paid := due.paid + Max(0, amount));
    if due.reconciled then paid else Reconciled(m, products, paid)
  }

  /** One return of the morning queue; returns still open are collected in st.openReturns. */
  function ReturnStep(m: Setup, x: Morning, queued: Return): Morning {
    var due := queued.(daysLeft := queued.daysLeft - 1);
    if due.daysLeft > 0 then x.(st := Requeue(x.st, due))
    else
      var amount := Affordable(due.refund, x.st.capital);
      var (settled, r) := (Settle(m, x, due), Settled(m, x.st.products, due, amount));
      if due.refund > amount then
        settled.(st := Requeue(settled.st, r.(refund := due.refund - amount, daysLeft := 1)))
      else settled.(st := Close(settled.st, r))
  }

  function ReturnRun(m: Setup, x: Morning, queue: seq<Return>): Morning
    decreases |queue|
  {
    if queue == [] then x else ReturnRun(m, ReturnStep(m, x, queue[0]), queue[1..])
  }

  function ReturnMorning(m: Setup, st: State): Morning {
    ReturnRun(m, Morning(st.(openReturns := []), Adjustments(0, 0, 0)), st.openReturns)
  }

  /** Reconciling moves one product's stock and the salvage cash, counts the return once, and leaves the rest alone. */
  lemma ReconcileFrame(m: Setup, x: Morning, r: Return)
    ensures var y := Reconcile(m, x, r);
            && y.st == x.st.(products := y.st.products, capital := y.st.capital,
                             totals := x.st.totals.(returnsProcessed := x.st.totals.returnsProcessed + 1,
                                                    salvage := y.st.totals.salvage))
            && y.adj == x.adj.(processed := x.adj.processed + 1, salvage := y.adj.salvage)
            && y.st.capital - x.st.capital == y.adj.salvage - x.adj.salvage == y.st.totals.salvage - x.st.totals.salvage
            && y.st.capital >= x.st.capital
            && y.adj.salvage - x.adj.salvage == SalvageOf(m, x.st.products, r)
            && y.st.products.Keys == x.st.products.Keys
            && forall sku <- x.st.products.Keys ::
                 y.st.products[sku] == x.st.products[sku].(stock := y.st.products[sku].stock)
  {
    hide RecoveredUnits, DamagedUnits, Appraised;
  }

  /** Settling a return moves the cash it reports, counts it once, and never takes cash below zero. */
  lemma SettleFrame(m: Setup, x: Morning, due: Return)
    ensures var y := Settle(m, x, due);
            var (amount, counted) := (Affordable(due.refund, x.st.capital), if due.reconciled then 0 else 1);
            && y.st == x.st.(products := y.st.products, capital := y.st.capital,
                             totals := x.st.totals.(returnsProcessed := x.st.totals.returnsProcessed + counted,
                                                    refundsPaid := x.st.totals.refundsPaid + Max(0, amount),
                                                    salvage := y.st.totals.salvage))
            && y.adj == x.adj.(processed := x.adj.processed + counted, refunds := x.adj.refunds + Max(0, amount),
                               salvage := y.adj.salvage)
            && y.st.capital == x.st.capital - Max(0, amount) + (y.adj.salvage - x.adj.salvage)
            && y.st.totals.salvage - x.st.totals.salvage == y.adj.salvage - x.adj.salvage >= 0
            && y.adj.salvage - x.adj.salvage == (if due.reconciled then 0 else SalvageOf(m, x.st.products, due))
            && (x.st.capital >= 0 ==> y.st.capital >= 0)
            && y.st.products.Keys == x.st.products.Keys
            && forall sku <- x.st.products.Keys ::
                 y.st.products[sku] == x.st.products[sku].(stock := y.st.products[sku].stock)
  {
    hide Reconcile;
    ReconcileFrame(m, Refund(x, Affordable(due.refund, x.st.capital)), due);
  }

  /** A recovery rate of at most one splits every returned unit into recovered or damaged. */
  lemma UnitsSplit(r: Return)
    requires r.quantity >= 0 && r.recoveryRate <= 1.0
    ensures RecoveredUnits(r) >= 0 && DamagedUnits(r) >= 0
    ensures RecoveredUnits(r) + DamagedUnits(r) == r.quantity
  {
    hide RoundedShare;
    RoundedShareAtMost(r.quantity, r.recoveryRate);
  }
}
