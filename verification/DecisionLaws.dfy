/** What the keys of a decision object do, said of the object itself. */
module DecisionLaws {
  import opened Numbers
  import opened Market
  import opened Trading
  import opened DayCycle
  import opened Json
  import opened Decisions
  import opened Obedience

  /** The values that count as false. */
  const Falsy: seq<Json> := [Null, Bool(false), Int(0), Float(0.0), Str(""), List([]), Obj([]), Keyed([])]

  lemma TruthyExactly(j: Json)
    ensures Truthy(j) <==> j !in Falsy
  {
    assert Falsy[0] == Null && Falsy[1] == Bool(false) && Falsy[2] == Int(0) && Falsy[3] == Float(0.0);
    assert Falsy[4] == Str("") && Falsy[5] == List([]) && Falsy[6] == Obj([]) && Falsy[7] == Keyed([]);
  }

  /** The object's own accept-all flag counts as true. */
  ghost predicate Ticked(d: seq<Field>) { exists j :: Field("accept_all_orders", j) in d && j !in Falsy }

  /** A list stands under the key, and the text is that of one of its items. */
  ghost predicate Names(rd: Reader, d: seq<Field>, key: string, text: string) {
    text != "" && exists items, k :: Field(key, List(items)) in d && 0 <= k < |items| && rd.text(items[k]) == text
  }

  /** The flag, the id or the product asks for the order, and no list rejects its product. */
  ghost predicate AskedFor(rd: Reader, d: seq<Field>, order: Order) {
    && (Ticked(d) || Names(rd, d, "accept_orders", order.orderId) || Names(rd, d, "accept_skus", order.sku))
    && !Names(rd, d, "reject_skus", order.sku)
  }

  lemma NamedText(rd: Reader, d: seq<Field>, key: string, text: string)
    requires DistinctKeys(d)
    ensures text in TextSet(rd, Get(d, key, List([]))) <==> Names(rd, d, key, text)
  {
    hide Lookup;
    var j := Get(d, key, List([]));
    GetFrom(d, key, List([]));
    if text in TextSet(rd, j) {
      var k :| 0 <= k < |j.items| && rd.text(j.items[k]) == text;
      assert Field(key, List(j.items)) in d;
    }
    if Names(rd, d, key, text) {
      var items, k :| Field(key, List(items)) in d && 0 <= k < |items| && rd.text(items[k]) == text;
      GetIn(d, key, List(items), List([]));
    }
  }

  lemma TickedFlag(d: seq<Field>)
    requires DistinctKeys(d)
    ensures Truthy(Get(d, "accept_all_orders", Bool(false))) <==> Ticked(d)
  {
    hide Lookup, Truthy;
    var key := "accept_all_orders";
    TruthyExactly(Bool(false));
    assert Falsy[1] == Bool(false);
    TruthyExactly(Get(d, key, Bool(false)));
    GetFrom(d, key, Bool(false));
    if j :| Field(key, j) in d && j !in Falsy { GetIn(d, key, j, Bool(false)); }
  }

  /** The plan takes this text from the lists that name it. */
  ghost predicate TextRead(rd: Reader, d: seq<Field>, text: string) {
    var plan := ReadPlan(rd, Obj(d));
    && (plan.acceptAll <==> Ticked(d))
    && (text in plan.acceptOrders <==> Names(rd, d, "accept_orders", text))
    && (text in plan.acceptSkus <==> Names(rd, d, "accept_skus", text))
    && (text in plan.rejectSkus <==> Names(rd, d, "reject_skus", text))
  }

  /** Which texts the plan takes from which list. */
  lemma PlanNames(rd: Reader, d: seq<Field>, text: string)
    requires DistinctKeys(d)
    ensures TextRead(rd, d, text)
  {
    hide Get, TextSet, Names, Ticked, PriceChanges, Purchases, Supplies, Adverts, Services, DistinctKeys;
    TickedFlag(d);
    NamedText(rd, d, "accept_orders", text);
    NamedText(rd, d, "accept_skus", text);
    NamedText(rd, d, "reject_skus", text);
  }

  /** Main result: an order is accepted exactly when the flag, its id or its product asks for it and no list rejects its
      product, each looked up under its own key. */
  lemma AcceptedAsWritten(rd: Reader, d: seq<Field>, orders: seq<Order>, i: nat)
    requires DistinctKeys(d) && i < |orders|
    ensures var sales := Sales(ReadPlan(rd, Obj(d)), orders);
            && |sales| == |orders| && sales[i].Sell? && sales[i].order == orders[i]
            && (sales[i].accepted <==> AskedFor(rd, d, orders[i]))
  {
    hide ReadPlan, Names, Ticked, DistinctKeys;
    PlanNames(rd, d, orders[i].orderId);
    PlanNames(rd, d, orders[i].sku);
  }

  /** Main result: a day sells only what the decision object asks for, and all of it as far as prices and stock go. */
  lemma DaySellsAsWritten(m: Setup, st: State, rd: Reader, d: seq<Field>)
    requires m.catalog != [] && DistinctKeys(d)
    ensures var desk := Prepared(m, st);
            var evening := RunDay(m, st, ReadPlan(rd, Obj(d))).st;
            var n := |desk.st.history.sales|;
            && n <= |evening.history.sales|
            && evening.history.sales[..n] == desk.st.history.sales
            && (forall s <- evening.history.sales[n..] :: s.order in desk.orders && AskedFor(rd, d, s.order))
            && (forall order <- desk.orders :: order.sku in evening.products && AskedFor(rd, d, order) ==>
                  || Sale(order, evening.products[order.sku].price) in evening.history.sales[n..]
                  || evening.products[order.sku].price > order.maxPrice
                  || evening.products[order.sku].stock < order.quantity)
  {
    hide ReadPlan, Names, Ticked, DistinctKeys, Prepared, RunDay;
    DayObeys(m, st, ReadPlan(rd, Obj(d)));
    forall text: string ensures TextRead(rd, d, text) { PlanNames(rd, d, text); }
    var (desk, evening) := (Prepared(m, st), RunDay(m, st, ReadPlan(rd, Obj(d))).st);
    var sold := evening.history.sales[|desk.st.history.sales|..];
    forall s <- sold ensures s.order in desk.orders && AskedFor(rd, d, s.order) {
      assert Allowed(ReadPlan(rd, Obj(d)), desk.orders, s, evening);
      assert TextRead(rd, d, s.order.orderId) && TextRead(rd, d, s.order.sku);
    }
    forall order <- desk.orders | order.sku in evening.products && AskedFor(rd, d, order)
      ensures || Sale(order, evening.products[order.sku].price) in sold
              || evening.products[order.sku].price > order.maxPrice
              || evening.products[order.sku].stock < order.quantity
    {
      assert Honoured(ReadPlan(rd, Obj(d)), order, sold, evening);
      assert TextRead(rd, d, order.orderId) && TextRead(rd, d, order.sku);
    }
  }

  /** No object stands under the key. */
  ghost predicate NoSection(d: seq<Field>, key: string) { forall fs :: Field(key, Obj(fs)) !in d }

  lemma SectionFields(d: seq<Field>, key: string)
    requires DistinctKeys(d)
    ensures forall fs :: Field(key, Obj(fs)) in d ==> FieldsOf(Get(d, key, Obj([]))) == fs
    ensures NoSection(d, key) ==> FieldsOf(Get(d, key, Obj([]))) == []
  {
    hide Lookup, DistinctKeys;
    GetFrom(d, key, Obj([]));
    forall fs | Field(key, Obj(fs)) in d ensures FieldsOf(Get(d, key, Obj([]))) == fs {
      GetIn(d, key, Obj(fs), Obj([]));
    }
    var j := Get(d, key, Obj([]));
    if NoSection(d, key) && j.Obj? { assert Field(key, Obj(j.fields)) !in d; }
  }

  predicate PricesFrom(rd: Reader, fs: seq<Field>, prices: seq<PriceChange>) {
    |prices| == |fs| && forall k :: 0 <= k < |fs| ==> prices[k] == PriceChange(fs[k].key, rd.cents(fs[k].value))
  }

  predicate RestocksFrom(rd: Reader, fs: seq<Field>, restocks: seq<Purchase>) {
    && |restocks| == |fs|
    && forall k :: 0 <= k < |fs| ==>
         restocks[k].sku == fs[k].key && Read(rd, fs[k].value, restocks[k].quantity)
  }

  predicate AdvertsFrom(rd: Reader, fs: seq<Field>, adverts: seq<Advert>) {
    |adverts| == |fs| && forall k :: 0 <= k < |fs| ==> adverts[k] == Advert(fs[k].key, rd.cents(fs[k].value))
  }

  predicate ServiceFrom(rd: Reader, fs: seq<Field>, service: seq<Service>) {
    && |service| == |fs|
    && forall k :: 0 <= k < |fs| ==> service[k] == Service(rd.text(Str(fs[k].key)), rd.mode(fs[k].value))
  }

  /** A quantity is what int() gives, or zero where it raises. */
  predicate Read(rd: Reader, j: Json, quantity: int) {
    (rd.whole(j) == Some(quantity)) || (rd.whole(j).None? && quantity == 0)
  }

  /** Main result: every section acts on what stands under its own key, entry by entry in the order written, and on
      nothing where no object stands there. */
  lemma SectionsAsWritten(rd: Reader, d: seq<Field>, fs: seq<Field>)
    requires DistinctKeys(d)
    ensures var plan := ReadPlan(rd, Obj(d));
            && (Field("price_changes", Obj(fs)) in d ==> PricesFrom(rd, fs, plan.prices))
            && (Field("restock", Obj(fs)) in d ==> RestocksFrom(rd, fs, plan.restocks))
            && (Field("ad_budget_shift", Obj(fs)) in d ==> AdvertsFrom(rd, fs, plan.adverts))
            && (Field("customer_ops", Obj(fs)) in d ==> ServiceFrom(rd, fs, plan.service))
            && (NoSection(d, "price_changes") ==> plan.prices == [])
            && (NoSection(d, "restock") ==> plan.restocks == [])
            && (NoSection(d, "ad_budget_shift") ==> plan.adverts == [])
            && (NoSection(d, "customer_ops") ==> plan.service == [])
  {
    hide Get, FieldsOf, TextSet, Truthy, Supplies, DistinctKeys, NoSection;
    SectionFields(d, "price_changes");
    SectionFields(d, "restock");
    SectionFields(d, "ad_budget_shift");
    SectionFields(d, "customer_ops");
    assert FieldsOf(Obj(d)) == d by { DecisionFields(Obj(d)); }
  }

  /** A supplier request as its object writes it; keys left out mean no product, no units and no named supplier. */
  ghost predicate SupplyFrom(rd: Reader, fs: seq<Field>, supply: Supply) {
    && (forall j :: Field("sku", j) in fs ==> supply.sku == rd.text(j))
    && (forall j :: Field("quantity", j) in fs ==> Read(rd, j, supply.quantity))
    && (forall j :: Field("supplier_id", j) in fs ==>
          supply.supplier == if j in Falsy then None else Some(rd.text(j)))
    && (!Has(fs, "sku") ==> supply.sku == rd.text(Str("")))
    && (!Has(fs, "quantity") ==> Read(rd, Int(0), supply.quantity))
    && (!Has(fs, "supplier_id") ==> supply.supplier.None?)
  }

  lemma SupplyAsWritten(rd: Reader, fs: seq<Field>)
    requires DistinctKeys(fs)
    ensures SupplyFrom(rd, fs, SupplyRequest(rd, fs))
  {
    hide Lookup, DistinctKeys;
    TruthyExactly(Get(fs, "supplier_id", Null));
    forall key, j, default | Field(key, j) in fs ensures Get(fs, key, default) == j && Has(fs, key) {
      GetIn(fs, key, j, default);
    }
  }

  /** How many of the items are objects. */
  function Objects(items: seq<Json>): nat {
    if items == [] then 0 else Objects(items[..|items| - 1]) + if items[|items| - 1].Obj? then 1 else 0
  }

  /** In a list every object is a request, in the order written; anything else in it is passed over. */
  ghost predicate SuppliesFrom(rd: Reader, items: seq<Json>, supplies: seq<Supply>) {
    && |supplies| == Objects(items)
    && forall k :: 0 <= k < |items| && items[k].Obj? ==>
         Objects(items[..k]) < |supplies| && SupplyFrom(rd, items[k].fields, supplies[Objects(items[..k])])
  }

  lemma {:induction false} SupplyListEnds(rd: Reader, items: seq<Json>, last: Json)
    ensures SupplyList(rd, items + [last])
            == SupplyList(rd, items) + if last.Obj? then [SupplyRequest(rd, last.fields)] else []
    decreases |items|
  {
    var all := items + [last];
    if items != [] {
      assert all[1..] == items[1..] + [last];
      SupplyListEnds(rd, items[1..], last);
    } else {
      assert all[1..] == [];
    }
  }

  lemma {:induction false} ListAsWritten(rd: Reader, items: seq<Json>)
    requires forall k :: 0 <= k < |items| && items[k].Obj? ==> DistinctKeys(items[k].fields)
    ensures SuppliesFrom(rd, items, SupplyList(rd, items))
    decreases |items|
  {
    hide SupplyRequest, SupplyFrom, DistinctKeys;
    if items != [] {
      var (front, last) := (items[..|items| - 1], items[|items| - 1]);
      assert items == front + [last];
      ListAsWritten(rd, front);
      SupplyListEnds(rd, front, last);
      if last.Obj? { SupplyAsWritten(rd, last.fields); }
      assert forall k :: 0 <= k < |front| ==> items[..k] == front[..k];
    }
  }

  /** Supplier orders: an object asks product by product, without naming a supplier; a list asks request by request. */
  lemma SuppliesAsWritten(rd: Reader, d: seq<Field>, j: Json)
    requires DistinctKeys(d) && Field("supplier_orders", j) in d && WellFormed(j)
    ensures var supplies := ReadPlan(rd, Obj(d)).supplies;
            && (j.List? ==> SuppliesFrom(rd, j.items, supplies))
            && (j.Obj? ==>
                  && |supplies| == |j.fields|
                  && forall k :: 0 <= k < |j.fields| ==>
                       && supplies[k].sku == rd.text(Str(j.fields[k].key)) && supplies[k].supplier.None?
                       && Read(rd, j.fields[k].value, supplies[k].quantity))
            && (!j.List? && !j.Obj? ==> supplies == [])
  {
    hide TextSet, DistinctKeys, SuppliesFrom, SupplyList, Get, PriceChanges, Purchases, Adverts, Services;
    GetIn(d, "supplier_orders", j, Obj([]));
    if j.List? {
      ItemsDistinct(j.items);
      ListAsWritten(rd, j.items);
    }
  }

  lemma ItemsDistinct(items: seq<Json>)
    requires WellFormed(List(items))
    ensures forall k :: 0 <= k < |items| && items[k].Obj? ==> DistinctKeys(items[k].fields)
  {
    forall k | 0 <= k < |items| && items[k].Obj? ensures DistinctKeys(items[k].fields) {
      assert WellFormed(items[k]);
    }
  }

  lemma NoSupplies(rd: Reader, d: seq<Field>)
    requires !Has(d, "supplier_orders")
    ensures ReadPlan(rd, Obj(d)).supplies == []
  {
  }

  /** The two objects differ at most under this key. */
  ghost predicate SameBut(d: seq<Field>, e: seq<Field>, key: string) {
    forall other :: other != key ==> Lookup(d, other) == Lookup(e, other)
  }

  lemma SameGet(d: seq<Field>, e: seq<Field>, key: string, other: string, default: Json)
    requires SameBut(d, e, key) && other != key
    ensures Get(d, other, default) == Get(e, other, default)
  {
    assert Lookup(d, other) == Lookup(e, other);
  }

  lemma ListsApart(rd: Reader, d: seq<Field>, e: seq<Field>, key: string)
    requires SameBut(d, e, key)
    ensures var (p, q) := (ReadPlan(rd, Obj(d)), ReadPlan(rd, Obj(e)));
            && (key != "accept_all_orders" ==> q.acceptAll == p.acceptAll)
            && (key != "accept_orders" ==> q.acceptOrders == p.acceptOrders)
            && (key != "accept_skus" ==> q.acceptSkus == p.acceptSkus)
            && (key != "reject_skus" ==> q.rejectSkus == p.rejectSkus)
  {
    hide SameBut, Get, TextSet, PriceChanges, Purchases, Supplies, Adverts, Services, Truthy;
    if key != "accept_all_orders" { SameGet(d, e, key, "accept_all_orders", Bool(false)); }
    if key != "accept_orders" { SameGet(d, e, key, "accept_orders", List([])); }
    if key != "accept_skus" { SameGet(d, e, key, "accept_skus", List([])); }
    if key != "reject_skus" { SameGet(d, e, key, "reject_skus", List([])); }
  }

  lemma SectionsApart(rd: Reader, d: seq<Field>, e: seq<Field>, key: string)
    requires SameBut(d, e, key)
    ensures var (p, q) := (ReadPlan(rd, Obj(d)), ReadPlan(rd, Obj(e)));
            && (key != "price_changes" ==> q.prices == p.prices)
            && (key != "restock" ==> q.restocks == p.restocks)
            && (key != "supplier_orders" ==> q.supplies == p.supplies)
            && (key != "ad_budget_shift" ==> q.adverts == p.adverts)
            && (key != "customer_ops" ==> q.service == p.service)
  {
    hide SameBut, Get, FieldsOf, TextSet, PriceChanges, Purchases, Supplies, Adverts, Services, Truthy;
    DecisionFields(Obj(d));
    DecisionFields(Obj(e));
    if key != "price_changes" { SameGet(d, e, key, "price_changes", Obj([])); }
    if key != "restock" { SameGet(d, e, key, "restock", Obj([])); }
    if key != "supplier_orders" { SameGet(d, e, key, "supplier_orders", Obj([])); }
    if key != "ad_budget_shift" { SameGet(d, e, key, "ad_budget_shift", Obj([])); }
    if key != "customer_ops" { SameGet(d, e, key, "customer_ops", Obj([])); }
  }

  /** Main result: changing what stands under one key changes only what that key is for. */
  lemma KeysApart(rd: Reader, d: seq<Field>, e: seq<Field>, key: string)
    requires SameBut(d, e, key)
    ensures var (p, q) := (ReadPlan(rd, Obj(d)), ReadPlan(rd, Obj(e)));
            && (key == "accept_all_orders" ==> q == p.(acceptAll := q.acceptAll))
            && (key == "accept_orders" ==> q == p.(acceptOrders := q.acceptOrders))
            && (key == "accept_skus" ==> q == p.(acceptSkus := q.acceptSkus))
            && (key == "reject_skus" ==> q == p.(rejectSkus := q.rejectSkus))
            && (key == "price_changes" ==> q == p.(prices := q.prices))
            && (key == "restock" ==> q == p.(restocks := q.restocks))
            && (key == "supplier_orders" ==> q == p.(supplies := q.supplies))
            && (key == "ad_budget_shift" ==> q == p.(adverts := q.adverts))
            && (key == "customer_ops" ==> q == p.(service := q.service))
            && (key !in DecisionKeys ==> q == p)
  {
    hide SameBut, ReadPlan;
    ListsApart(rd, d, e, key);
    SectionsApart(rd, d, e, key);
    KeysDiffer();
  }

  const DecisionKeys: seq<string> :=
    [ "accept_all_orders", "accept_orders", "accept_skus", "reject_skus", "price_changes", "restock",
      "supplier_orders", "ad_budget_shift", "customer_ops" ]

  lemma KeysDiffer()
    ensures Distinct(DecisionKeys)
    ensures forall i :: 0 <= i < 9 ==> DecisionKeys[i] in DecisionKeys
  {
    var s := DecisionKeys;
    assert |s[0]| == 17 && |s[1]| == 13 && |s[2]| == 11 && |s[3]| == 11 && |s[4]| == 13;
    assert |s[5]| == 7 && |s[6]| == 15 && |s[7]| == 15 && |s[8]| == 12;
    assert s[1][0] == 'a' && s[2][0] == 'a' && s[3][0] == 'r' && s[4][0] == 'p' && s[6][0] == 's' && s[7][0] == 'a';
  }
}
