/** The returns pipeline: every refund flagged is paid or still owed, and every return is reconciled once. */
module Liabilities {
  import opened Numbers
  import opened Rng
  import opened Ids
  import opened Market
  import opened SupplyChain
  import opened ReturnsDesk
  import opened Trading
  import opened DayCycle
  import opened Numbering

  /** What the pipeline's books read of a state, with the given returns still open. */
  datatype Pipeline = Pipeline(
    flagged: int,
    flags: int,
    ids: multiset<string>,
    paid: int,
    processed: int,
    salvage: int,
    open: seq<Return>,
    closed: seq<Return>,
    skus: set<Sku>)

  function ViewOf(st: State, open: seq<Return>): Pipeline {
    Pipeline(st.history.refundsFlagged, st.history.returnsFlagged, multiset(st.history.returnIds),
             st.totals.refundsPaid, st.totals.returnsProcessed, st.totals.salvage, open, st.history.closedReturns,
             st.products.Keys)
  }

  function Pending(r: Return): int { if r.reconciled then 0 else 1 }

  function Unreconciled(open: seq<Return>): int {
    if open == [] then 0 else Unreconciled(open[..|open| - 1]) + Pending(open[|open| - 1])
  }

  function IdsOf(open: seq<Return>): multiset<string> {
    if open == [] then multiset{} else IdsOf(open[..|open| - 1]) + multiset{open[|open| - 1].returnId}
  }

  /** What the salvage of the given returns brought. */
  function Salvaged(rs: seq<Return>): int {
    if rs == [] then 0 else Salvaged(rs[..|rs| - 1]) + rs[|rs| - 1].salvaged
  }

  predicate Split(r: Return) {
    r.recovered >= 0 && r.damaged >= 0 && r.recovered + r.damaged == r.quantity
  }

  predicate SaneProfile(p: ReturnProfile) { p.recoveryLow <= 1.0 && p.recoveryHigh <= 1.0 }

  /** No configured recovery rate brings back more than was sold. */
  predicate SaneProfiles(m: Setup) {
    && SaneProfile(m.defaultProfile)
    && forall category <- m.returnProfiles.Keys :: SaneProfile(m.returnProfiles[category])
  }

  /** Reconciled once, and salvaged for the value its damaged units had on the product as it then stood. */
  predicate SalvagedOnce(m: Setup, r: Return) {
    r.reconciliations == 1 && r.appraised.Some? && r.salvaged == SalvageValue(m, r.appraised.value, r.damaged)
  }

  /** An open return: what it still owes and has paid make up what was flagged; its units are untouched until
      they are reconciled, and then, with sane profiles, split without loss. */
  predicate OpenSound(m: Setup, r: Return, skus: set<Sku>) {
    && r.sku in skus && r.quantity >= 1
    && (SaneProfiles(m) ==> r.recoveryRate <= 1.0)
    && r.refund >= 0 && r.refund + r.paid == r.flagged
    && (if r.reconciled then SalvagedOnce(m, r) && (SaneProfiles(m) ==> Split(r))
        else r.reconciliations == 0 && r.recovered == r.damaged == r.paid == r.salvaged == 0)
  }

  /** A closed return was refunded in full, and reconciled and salvaged exactly once. */
  predicate ClosedSound(m: Setup, r: Return) {
    r.paid == r.flagged && SalvagedOnce(m, r) && (SaneProfiles(m) ==> Split(r))
  }

  /** The books of the pipeline: refunds, returns and identifiers flagged, and all salvage ever paid, are accounted for
      by the open and the closed returns, and each of those is sound. */
  predicate Accounted(m: Setup, v: Pipeline) {
    && v.flagged == v.paid + Exposure(v.open)
    && v.flags == v.processed + Unreconciled(v.open)
    && v.ids == IdsOf(v.open) + IdsOf(v.closed)
    && v.salvage == Salvaged(v.open) + Salvaged(v.closed)
    && (forall r <- v.open :: OpenSound(m, r, v.skus))
    && (forall r <- v.closed :: ClosedSound(m, r))
  }

  predicate Priced(products: map<Sku, Product>) {
    forall sku <- products.Keys :: products[sku].price > 0
  }

  lemma {:induction false} AmountsAround(before: seq<Return>, r: Return, after: seq<Return>)
    ensures Exposure(before + [r] + after) == Exposure(before) + r.refund + Exposure(after)
    ensures Unreconciled(before + [r] + after) == Unreconciled(before) + Pending(r) + Unreconciled(after)
    ensures Salvaged(before + [r] + after) == Salvaged(before) + r.salvaged + Salvaged(after)
  {
    hide Pending;
    var all := before + [r] + after;
    if after == [] {
      assert all[..|all| - 1] == before;
    } else {
      assert all[..|all| - 1] == before + [r] + after[..|after| - 1];
      AmountsAround(before, r, after[..|after| - 1]);
    }
  }

  lemma IdsLast(front: seq<Return>, last: Return)
    ensures IdsOf(front + [last]) == IdsOf(front) + multiset{last.returnId}
  {
    assert (front + [last])[..|front|] == front;
  }

  lemma {:induction false} IdsAround(before: seq<Return>, r: Return, after: seq<Return>)
    ensures IdsOf(before + [r] + after) == IdsOf(before) + multiset{r.returnId} + IdsOf(after)
  {
    NoIds();
    hide IdsOf;
    if after == [] {
      assert before + [r] + after == before + [r];
      IdsLast(before, r);
    } else {
      var (front, last) := (after[..|after| - 1], after[|after| - 1]);
      assert after == front + [last] && before + [r] + after == (before + [r] + front) + [last];
      IdsAround(before, r, front);
      IdsLast(before + [r] + front, last);
      IdsLast(front, last);
    }
  }

  lemma SumsAround(before: seq<Return>, r: Return, after: seq<Return>)
    ensures Exposure(before + [r] + after) == Exposure(before) + r.refund + Exposure(after)
    ensures Unreconciled(before + [r] + after) == Unreconciled(before) + Pending(r) + Unreconciled(after)
    ensures IdsOf(before + [r] + after) == IdsOf(before) + multiset{r.returnId} + IdsOf(after)
    ensures Salvaged(before + [r] + after) == Salvaged(before) + r.salvaged + Salvaged(after)
  {
    hide Exposure, Unreconciled, IdsOf, Salvaged, Pending;
    AmountsAround(before, r, after);
    IdsAround(before, r, after);
  }

  lemma SumsJoin(before: seq<Return>, after: seq<Return>)
    ensures Exposure(before + after) == Exposure(before) + Exposure(after)
    ensures Unreconciled(before + after) == Unreconciled(before) + Unreconciled(after)
    ensures IdsOf(before + after) == IdsOf(before) + IdsOf(after)
    ensures Salvaged(before + after) == Salvaged(before) + Salvaged(after)
  {
    hide Exposure, Unreconciled, IdsOf, Salvaged, Pending;
    NoIds();
    if after == [] {
      assert before + after == before;
    } else {
      assert before + after == before + [after[0]] + after[1..] && after == [] + [after[0]] + after[1..];
      SumsAround(before, after[0], after[1..]);
      SumsAround([], after[0], after[1..]);
    }
  }

  /** The queued return stays open as r. */
  function Kept(v: Pipeline, before: seq<Return>, queued: Return, r: Return, rest: seq<Return>): Pipeline {
    v.(open := before + [r] + rest, paid := v.paid + queued.refund - r.refund,
       processed := v.processed + Pending(queued) - Pending(r), salvage := v.salvage + r.salvaged - queued.salvaged)
  }

  /** The queued return is closed as r. */
  function Done(v: Pipeline, before: seq<Return>, queued: Return, r: Return, rest: seq<Return>): Pipeline {
    v.(open := before + rest, closed := v.closed + [r], paid := v.paid + queued.refund,
       processed := v.processed + Pending(queued), salvage := v.salvage + r.salvaged - queued.salvaged)
  }

  /** A new return is flagged. */
  function Raised(v: Pipeline, r: Return): Pipeline {
    v.(flagged := v.flagged + r.refund, flags := v.flags + 1, ids := v.ids + multiset{r.returnId}, open := v.open + [r])
  }

  lemma KeptAccounted(m: Setup, v: Pipeline, before: seq<Return>, queued: Return, r: Return, rest: seq<Return>)
    requires Accounted(m, v) && v.open == before + [queued] + rest
    requires OpenSound(m, r, v.skus) && r.returnId == queued.returnId
    ensures Accounted(m, Kept(v, before, queued, r, rest))
  {
    hide OpenSound, ClosedSound, Exposure, Unreconciled, IdsOf, Salvaged;
    SumsAround(before, queued, rest);
    SumsAround(before, r, rest);
    forall s <- before + [r] + rest ensures OpenSound(m, s, v.skus) {
      if s != r { assert s in v.open; }
    }
  }

  lemma DoneAccounted(m: Setup, v: Pipeline, before: seq<Return>, queued: Return, r: Return, rest: seq<Return>)
    requires Accounted(m, v) && v.open == before + [queued] + rest
    requires ClosedSound(m, r) && r.returnId == queued.returnId
    ensures Accounted(m, Done(v, before, queued, r, rest))
  {
    hide OpenSound, ClosedSound, Exposure, Unreconciled, IdsOf, Salvaged;
    SumsAround(before, queued, rest);
    SumsJoin(before, rest);
    SumsAround(v.closed, r, []);
    assert v.closed + [r] + [] == v.closed + [r];
    NoIds();
    assert forall s <- before + rest :: s in v.open;
  }

  lemma NoIds()
    ensures IdsOf([]) == multiset{} && Exposure([]) == 0 && Unreconciled([]) == 0 && Salvaged([]) == 0
  {
  }

  lemma RaisedAccounted(m: Setup, v: Pipeline, r: Return)
    requires Accounted(m, v) && OpenSound(m, r, v.skus) && !r.reconciled
    ensures Accounted(m, Raised(v, r))
  {
    hide OpenSound, ClosedSound, Exposure, Unreconciled, IdsOf, Salvaged;
    UnreconciledUnsold(m, r, v.skus);
    SumsAround(v.open, r, []);
    NoIds();
    assert v.open + [r] + [] == v.open + [r];
    forall s <- v.open + [r] ensures OpenSound(m, s, v.skus) {
      if s != r { assert s in v.open; }
    }
  }

  lemma UnreconciledUnsold(m: Setup, r: Return, skus: set<Sku>)
    requires OpenSound(m, r, skus) && !r.reconciled
    ensures r.salvaged == 0
  {
  }

  lemma SettledRecord(m: Setup, products: map<Sku, Product>, due: Return, amount: int)
    ensures var r := Settled(m, products, due, amount);
            && r.reconciled && r.refund == due.refund
            && r.salvaged - due.salvaged == if due.reconciled then 0 else SalvageOf(m, products, due)
  {
    hide RecoveredUnits, DamagedUnits, SalvageValue;
    SameDamage(due, due.(paid := due.paid + Max(0, amount)));
  }

  lemma SameDamage(a: Return, b: Return)
    requires a.restockable == b.restockable && a.quantity == b.quantity && a.recoveryRate == b.recoveryRate
    ensures DamagedUnits(a) == DamagedUnits(b) && RecoveredUnits(a) == RecoveredUnits(b)
  {
  }

  lemma DueView(m: Setup, x: Morning, queued: Return, rest: seq<Return>)
    requires queued.daysLeft <= 1 && queued.refund >= 0
    ensures var y := ReturnStep(m, x, queued).st;
            var (v, w) := (ViewOf(x.st, x.st.openReturns + [queued] + rest), ViewOf(y, y.openReturns + rest));
            var (amount, before) := (Affordable(queued.refund, x.st.capital), x.st.openReturns);
            var r := Settled(m, x.st.products, queued.(daysLeft := queued.daysLeft - 1), amount);
            && 0 <= amount <= queued.refund
            && w == (if amount < queued.refund
                     then Kept(v, before, queued, r.(refund := queued.refund - amount, daysLeft := 1), rest)
                     else Done(v, before, queued, r, rest))
  {
    var due := queued.(daysLeft := queued.daysLeft - 1);
    SettleFrame(m, x, due);
    SettledRecord(m, x.st.products, due, Affordable(queued.refund, x.st.capital));
    hide Settle, Settled;
  }

  lemma WaitingView(m: Setup, x: Morning, queued: Return, rest: seq<Return>)
    requires queued.daysLeft > 1
    ensures var y := ReturnStep(m, x, queued).st;
            ViewOf(y, y.openReturns + rest)
            == Kept(ViewOf(x.st, x.st.openReturns + [queued] + rest), x.st.openReturns, queued,
                    queued.(daysLeft := queued.daysLeft - 1), rest)
  {
    hide Reconcile;
  }

  /** One return of the morning queue stays open or is closed, under its own identifier. */
  lemma StepOutcome(m: Setup, x: Morning, queued: Return, rest: seq<Return>) returns (kept: bool, r: Return)
    requires OpenSound(m, queued, x.st.products.Keys)
    ensures r.returnId == queued.returnId
    ensures var y := ReturnStep(m, x, queued).st;
            var v := ViewOf(x.st, x.st.openReturns + [queued] + rest);
            ViewOf(y, y.openReturns + rest)
            == if kept then Kept(v, x.st.openReturns, queued, r, rest) else Done(v, x.st.openReturns, queued, r, rest)
    ensures if kept then OpenSound(m, r, x.st.products.Keys) else ClosedSound(m, r)
  {
    hide ReturnStep, SaneProfiles, ViewOf, Kept, Done;
    if queued.daysLeft > 1 {
      WaitingView(m, x, queued, rest);
      return true, queued.(daysLeft := queued.daysLeft - 1);
    }
    DueView(m, x, queued, rest);
    var amount := Affordable(queued.refund, x.st.capital);
    SettledSound(m, x.st.products, queued, amount);
    kept := amount < queued.refund;
    r := Settled(m, x.st.products, queued.(daysLeft := queued.daysLeft - 1), amount);
    if kept { r := r.(refund := queued.refund - amount, daysLeft := 1); }
  }

  lemma SettledSound(m: Setup, products: map<Sku, Product>, queued: Return, amount: int)
    requires OpenSound(m, queued, products.Keys) && 0 <= amount <= queued.refund
    ensures var r := Settled(m, products, queued.(daysLeft := queued.daysLeft - 1), amount);
            && r.returnId == queued.returnId
            && OpenSound(m, r.(refund := queued.refund - amount, daysLeft := 1), products.Keys)
            && (amount == queued.refund ==> ClosedSound(m, r))
  {
    hide RecoveredUnits, DamagedUnits, SaneProfiles, SalvageValue;
    if SaneProfiles(m) {
      UnitsSplit(queued.(daysLeft := queued.daysLeft - 1, paid := queued.paid + amount));
    }
  }

  lemma StepKeepsAccounts(m: Setup, x: Morning, queue: seq<Return>)
    requires queue != [] && Accounted(m, ViewOf(x.st, x.st.openReturns + queue))
    ensures var y := ReturnStep(m, x, queue[0]).st; Accounted(m, ViewOf(y, y.openReturns + queue[1..]))
  {
    var v := ViewOf(x.st, x.st.openReturns + queue);
    assert v.open == x.st.openReturns + [queue[0]] + queue[1..];
    assert queue[0] in v.open;
    assert OpenSound(m, queue[0], v.skus);
    hide ReturnStep, Accounted, OpenSound, ClosedSound, Kept, Done;
    var kept, r := StepOutcome(m, x, queue[0], queue[1..]);
    if kept {
      KeptAccounted(m, v, x.st.openReturns, queue[0], r, queue[1..]);
    } else {
      DoneAccounted(m, v, x.st.openReturns, queue[0], r, queue[1..]);
    }
  }

  lemma {:induction false} RefundsKeepAccounts(m: Setup, x: Morning, queue: seq<Return>)
    requires Accounted(m, ViewOf(x.st, x.st.openReturns + queue))
    ensures var y := ReturnRun(m, x, queue).st; Accounted(m, ViewOf(y, y.openReturns))
    decreases |queue|
  {
    hide ReturnStep, Accounted, ViewOf;
    if queue == [] {
      assert x.st.openReturns + queue == x.st.openReturns;
    } else {
      StepKeepsAccounts(m, x, queue);
      RefundsKeepAccounts(m, ReturnStep(m, x, queue[0]), queue[1..]);
    }
  }

  function Candidate(m: Setup, st: State, order: Order, p: Product, revenue: int): Return {
    DrawnReturn(m, st.cursor + 1, Key(st.day, |st.openReturns| + 1), order, p.category, revenue)
  }

  lemma FlaggedCases(m: Setup, st: State, order: Order, p: Product, revenue: int)
    ensures var (r, raised) := (Flagged(m, st, order, p, revenue), Candidate(m, st, order, p, revenue));
            || r == st.(cursor := r.cursor)
            || r == st.(cursor := r.cursor, openReturns := st.openReturns + [raised],
                        history := st.history.(refundsFlagged := st.history.refundsFlagged + revenue,
                                               returnsFlagged := st.history.returnsFlagged + 1,
                                               returnKeys := r.history.returnKeys,
                                               returnIds := st.history.returnIds + [raised.returnId]))
  {
    hide ReturnOdds, DrawnReturn;
  }

  lemma FlaggingOutcome(m: Setup, st: State, order: Order, p: Product, revenue: int)
    ensures var r := Flagged(m, st, order, p, revenue);
            var (v, w) := (ViewOf(st, st.openReturns), ViewOf(r, r.openReturns));
            r.products == st.products && (w == v || w == Raised(v, Candidate(m, st, order, p, revenue)))
  {
    FlaggedCases(m, st, order, p, revenue);
    var raised := Candidate(m, st, order, p, revenue);
    CandidateRefund(m, st, order, p, revenue);
    hide Flagged, Candidate;
    assert multiset(st.history.returnIds + [raised.returnId])
           == multiset(st.history.returnIds) + multiset{raised.returnId};
  }

  lemma CandidateRefund(m: Setup, st: State, order: Order, p: Product, revenue: int)
    ensures Candidate(m, st, order, p, revenue).refund == revenue
  {
    hide ReturnId, RandInt, Uniform;
  }

  lemma CandidateSound(m: Setup, st: State, order: Order, p: Product, revenue: int)
    requires order.sku in st.products && order.quantity >= 1 && revenue >= 0
    ensures var r := Candidate(m, st, order, p, revenue); OpenSound(m, r, st.products.Keys) && !r.reconciled
  {
    hide ReturnId, RandInt, Uniform, SaneProfiles;
    DrawnRateSane(m, st.cursor + 1, p.category);
  }

  lemma DrawnRateSane(m: Setup, cursor: nat, category: string)
    ensures var profile := ProfileFor(m, category);
            SaneProfiles(m) ==> Uniform(profile.recoveryLow, profile.recoveryHigh, m.draws(cursor + 1)) <= 1.0
  {
    hide Uniform;
    var profile := ProfileFor(m, category);
    if SaneProfiles(m) { UniformAtMost(profile.recoveryLow, profile.recoveryHigh, m.draws(cursor + 1), 1.0); }
  }

  predicate SamePipeline(before: State, after: State) {
    ViewOf(after, after.openReturns) == ViewOf(before, before.openReturns)
  }

  lemma OtherActionsKeepAccounts(m: Setup, x: Evening, a: Action)
    requires !a.Sell? && Priced(x.st.products)
    ensures SamePipeline(x.st, Perform(m, x, a).st) && Priced(Perform(m, x, a).st.products)
  {
    hide SelectSupplier, TicketsResolved;
  }

  lemma PaymentKeepsPipeline(m: Setup, x: Evening, order: Order, p: Product)
    requires Priced(x.st.products) && order.sku in x.st.products && p == x.st.products[order.sku]
    ensures var y := PaidFor(m, x, order, p).st; SamePipeline(x.st, y) && Priced(y.products)
  {
    hide Fees, Attributed;
  }

  lemma SaleKeepsAccounts(m: Setup, x: Evening, order: Order, accepted: bool)
    requires Accounted(m, ViewOf(x.st, x.st.openReturns)) && Priced(x.st.products) && order.quantity >= 1
    ensures var y := Sold(m, x, order, accepted).st;
            Accounted(m, ViewOf(y, y.openReturns)) && Priced(y.products)
  {
    hide Flagged, PaidFor, Accounted, OpenSound, Raised, Candidate;
    if order.sku in x.st.products {
      var p := x.st.products[order.sku];
      var paid := PaidFor(m, x, order, p).st;
      PaymentKeepsPipeline(m, x, order, p);
      FlaggingOutcome(m, paid, order, p, p.price * order.quantity);
      CandidateSound(m, paid, order, p, p.price * order.quantity);
      RaisedAccounted(m, ViewOf(paid, paid.openReturns), Candidate(m, paid, order, p, p.price * order.quantity));
    }
  }

  lemma {:induction false} TradingKeepsAccounts(m: Setup, x: Evening, actions: seq<Action>)
    requires Accounted(m, ViewOf(x.st, x.st.openReturns)) && Priced(x.st.products)
    requires forall a <- actions :: a.Sell? ==> a.order.quantity >= 1
    ensures var y := PerformAll(m, x, actions).st;
            Accounted(m, ViewOf(y, y.openReturns)) && Priced(y.products)
    decreases |actions|
  {
    if actions != [] {
      var (a, y) := (actions[0], Perform(m, x, actions[0]));
      if a.Sell? {
        assert y == Sold(m, x, a.order, a.accepted);
        SaleKeepsAccounts(m, x, a.order, a.accepted);
      } else {
        OtherActionsKeepAccounts(m, x, a);
      }
      hide Perform, Accounted, ViewOf;
      assert forall b <- actions[1..] :: b in actions;
      TradingKeepsAccounts(m, y, actions[1..]);
    }
  }

  lemma MorningKeepsAccounts(m: Setup, st: State)
    requires Accounted(m, ViewOf(st, st.openReturns)) && Priced(st.products)
    ensures var r := MorningOf(m, st).st; Accounted(m, ViewOf(r, r.openReturns)) && Priced(r.products)
  {
    hide InboundRun, ReturnRun, Accounted;
    var dawn := st.(day := st.day + 1);
    InboundFrame(m, dawn.(inbound := []), dawn.inbound);
    var landed := InboundMorning(m, dawn);
    assert [] + landed.openReturns == landed.openReturns;
    assert ViewOf(landed.(openReturns := []), landed.openReturns) == ViewOf(st, st.openReturns);
    RefundsKeepAccounts(m, Morning(landed.(openReturns := []), Adjustments(0, 0, 0)), landed.openReturns);
    MorningFrame(m, st);
  }

  lemma DayKeepsAccounts(m: Setup, st: State, plan: Plan)
    requires m.catalog != [] && Accounted(m, ViewOf(st, st.openReturns)) && Priced(st.products)
    ensures var r := RunDay(m, st, plan).st; Accounted(m, ViewOf(r, r.openReturns)) && Priced(r.products)
  {
    hide MorningOf, Prepared, RunDay, PerformAll, Accounted, Actions;
    MorningKeepsAccounts(m, st);
    MarketOpens(m, st);
    var d := Prepared(m, st);
    SalesAreUnits(plan, d.orders, d.st.products);
    TradingKeepsAccounts(m, Opened(m, d.st, |d.orders|, d.adj), Actions(plan, d.orders));
    EveningCloses(m, st, plan);
  }

  lemma SalesAreUnits(plan: Plan, orders: seq<Order>, products: map<Sku, Product>)
    requires Sellable(products, orders)
    ensures forall a <- Actions(plan, orders) :: a.Sell? ==> a.order.quantity >= 1
  {
    forall a <- Actions(plan, orders) | a.Sell? ensures a.order in orders {
    }
  }

  /** Main result: after every day of every run, refunds flagged equal refunds paid plus refunds still owed, returns
      flagged equal returns processed plus those not yet reconciled, each by its own identifier, and each closed
      return was refunded in full and reconciled exactly once; with sane profiles its units were split without loss. */
  lemma {:induction false} RunKeepsAccounts(m: Setup, st: State, plans: seq<Plan>, days: nat)
    requires m.catalog != [] && Opening(m, st) && days <= |plans|
    ensures var r := StateAfter(m, st, plans, days); Accounted(m, ViewOf(r, r.openReturns)) && Priced(r.products)
    decreases days
  {
    hide RunDay;
    if days > 0 {
      hide Accounted, ViewOf;
      RunKeepsAccounts(m, st, plans, days - 1);
      DayKeepsAccounts(m, StateAfter(m, st, plans, days - 1), plans[days - 1]);
      NextDay(m, st, plans, days - 1);
    }
  }

  predicate FlaggedAs(rs: seq<Return>, id: string) { exists r <- rs :: r.returnId == id }

  lemma {:induction false} FlaggedCounted(rs: seq<Return>, id: string)
    ensures IdsOf(rs)[id] > 0 <==> FlaggedAs(rs, id)
  {
    if rs != [] {
      var (front, last) := (rs[..|rs| - 1], rs[|rs| - 1]);
      FlaggedCounted(front, id);
      assert rs == front + [last];
      if FlaggedAs(front, id) {
        var r :| r in front && r.returnId == id;
        assert r in rs;
      }
      assert last in rs;
    }
  }

  /** Main result: every return ever flagged is, under its own identifier, either still open or closed, never both,
      never twice, and never lost. */
  lemma EveryReturnOnce(m: Setup, st: State, plans: seq<Plan>, days: nat, id: string)
    requires m.catalog != [] && Opening(m, st) && days <= |plans|
    ensures var r := StateAfter(m, st, plans, days);
            && IdsOf(r.openReturns)[id] + IdsOf(r.history.closedReturns)[id]
               == (if id in r.history.returnIds then 1 else 0)
            && (id in r.history.returnIds <==> FlaggedAs(r.openReturns, id) || FlaggedAs(r.history.closedReturns, id))
            && !(FlaggedAs(r.openReturns, id) && FlaggedAs(r.history.closedReturns, id))
  {
    hide StateAfter;
    RunKeepsAccounts(m, st, plans, days);
    IdentifiersUnique(m, st, plans, days);
    var r := StateAfter(m, st, plans, days);
    DistinctOnce(r.history.returnIds, id);
    FlaggedCounted(r.openReturns, id);
    FlaggedCounted(r.history.closedReturns, id);
    assert multiset(r.history.returnIds)[id] == IdsOf(r.openReturns)[id] + IdsOf(r.history.closedReturns)[id];
  }
}
