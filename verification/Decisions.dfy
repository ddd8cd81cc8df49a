/** Reading an agent's decision object, and the cut-down copy that is saved for replay. */
module Decisions {
  import opened Numbers
  import opened Trading
  import opened Json

  /** Conversions of single values: cents of a money value, int(), str() stripped, and the service mode. */
  datatype Reader = Reader(
    cents: Json -> Option<int>,
    whole: Json -> Option<int>,
    text: Json -> string,
    mode: Json -> Mode)

  function WholeOrZero(rd: Reader, j: Json): int {
    var n := rd.whole(j);
    if n.Some? then n.value else 0
  }

  function FieldsOf(j: Json): seq<Field> { if j.Obj? then j.fields else [] }

  /** The non-empty stripped texts of a list; anything else counts as no list. */
  function TextSet(rd: Reader, j: Json): set<string> {
    if j.List? then set i | 0 <= i < |j.items| && rd.text(j.items[i]) != "" :: rd.text(j.items[i]) else {}
  }

  function PriceChanges(rd: Reader, fields: seq<Field>): seq<PriceChange> {
    seq(|fields|, i requires 0 <= i < |fields| => PriceChange(fields[i].key, rd.cents(fields[i].value)))
  }

  function Purchases(rd: Reader, fields: seq<Field>): seq<Purchase> {
    seq(|fields|, i requires 0 <= i < |fields| => Purchase(fields[i].key, WholeOrZero(rd, fields[i].value)))
  }

  function Adverts(rd: Reader, fields: seq<Field>): seq<Advert> {
    seq(|fields|, i requires 0 <= i < |fields| => Advert(fields[i].key, rd.cents(fields[i].value)))
  }

  function Services(rd: Reader, fields: seq<Field>): seq<Service> {
    seq(|fields|, i requires 0 <= i < |fields| => Service(rd.text(Str(fields[i].key)), rd.mode(fields[i].value)))
  }

  function SupplyRequest(rd: Reader, fields: seq<Field>): Supply {
    var supplier := Get(fields, "supplier_id", Null);
    Supply(rd.text(Get(fields, "sku", Str(""))), WholeOrZero(rd, Get(fields, "quantity", Int(0))),
           if Truthy(supplier) then Some(rd.text(supplier)) else None)
  }

  function SupplyList(rd: Reader, items: seq<Json>): seq<Supply> {
    if items == [] then []
    else
      (if items[0].Obj? then [SupplyRequest(rd, items[0].fields)] else []) + SupplyList(rd, items[1..])
  }

  /** Supplier orders come as a list of requests or as an object from product to quantity. */
  function Supplies(rd: Reader, j: Json): seq<Supply> {
    match j
    case Obj(fields) =>
      seq(|fields|, i requires 0 <= i < |fields| =>
        Supply(rd.text(Str(fields[i].key)), WholeOrZero(rd, fields[i].value), None))
    case List(items) => SupplyList(rd, items)
    case _ => []
  }

  /** What applying a decision reads from it. */
  function ReadPlan(rd: Reader, decision: Json): Plan {
    var d := FieldsOf(decision);
    Plan(
      Truthy(Get(d, "accept_all_orders", Bool(false))),
      TextSet(rd, Get(d, "accept_orders", List([]))),
      TextSet(rd, Get(d, "accept_skus", List([]))),
      TextSet(rd, Get(d, "reject_skus", List([]))),
      PriceChanges(rd, FieldsOf(Get(d, "price_changes", Obj([])))),
      Purchases(rd, FieldsOf(Get(d, "restock", Obj([])))),
      Supplies(rd, Get(d, "supplier_orders", Obj([]))),
      Adverts(rd, FieldsOf(Get(d, "ad_budget_shift", Obj([])))),
      Services(rd, FieldsOf(Get(d, "customer_ops", Obj([])))))
  }

  /** The actionable part of a decision: the nine values that are saved. */
  datatype Actionable = Actionable(
    acceptAll: bool,
    acceptSkus: seq<Json>,
    rejectSkus: seq<Json>,
    acceptOrders: seq<Json>,
    prices: Json,
    restock: Json,
    supplies: Json,
    adverts: Json,
    service: Json)

  function Letters(s: string): seq<Json> { seq(|s|, i requires 0 <= i < |s| => Str([s[i]])) }

  function KeysIn(fields: seq<Field>): seq<Json> {
    seq(|fields|, i requires 0 <= i < |fields| => Str(fields[i].key))
  }

  /** Can Python iterate over the value? */
  predicate Iterable(j: Json) { j.List? || j.Str? || j.Obj? }

  /** What iterating gives: items, single letters, or keys. */
  function ItemsOf(j: Json): seq<Json> {
    match j
    case List(items) => items
    case Str(s) => Letters(s)
    case Obj(fields) => KeysIn(fields)
    case _ => []
  }

  /** A two-element iterable whose first element can be a key. */
  predicate IsPair(j: Json) {
    Iterable(j) && |ItemsOf(j)| == 2 && !ItemsOf(j)[0].List? && !ItemsOf(j)[0].Obj?
  }

  /** list(x or []) raises for a truthy value that is not iterable. */
  predicate Listable(j: Json) { !Truthy(j) || Iterable(j) }

  /** dict(x or {}) raises unless x is falsy, a dictionary, or iterates over pairs. */
  predicate Dictable(j: Json) {
    !Truthy(j) || j.Obj? || j.Keyed?
    || (Iterable(j) && forall i :: 0 <= i < |ItemsOf(j)| ==> IsPair(ItemsOf(j)[i]))
  }

  /** dict(x or {}) where it does not raise. */
  function DictOf(j: Json): Json {
    if !Truthy(j) then Obj([])
    else if Iterable(j) && !j.Obj? then Keyed(ItemsOf(j))
    else if j.Obj? || j.Keyed? then j
    else Obj([])
  }

  /** The value itself unless it is falsy. */
  function OrNoList(j: Json): Json { if Truthy(j) then j else List([]) }

  function ActionableOf(d: seq<Field>): Actionable {
    Actionable(
      Truthy(Get(d, "accept_all_orders", Bool(false))),
      ItemsOf(Get(d, "accept_skus", List([]))),
      ItemsOf(Get(d, "reject_skus", List([]))),
      ItemsOf(Get(d, "accept_orders", List([]))),
      DictOf(Get(d, "price_changes", Obj([]))),
      DictOf(Get(d, "restock", Obj([]))),
      OrNoList(Get(d, "supplier_orders", List([]))),
      DictOf(Get(d, "ad_budget_shift", Obj([]))),
      DictOf(Get(d, "customer_ops", Obj([]))))
  }

  function Written(a: Actionable): seq<Field> {
    [ Field("accept_all_orders", Bool(a.acceptAll)),
      Field("accept_skus", List(a.acceptSkus)),
      Field("reject_skus", List(a.rejectSkus)),
      Field("accept_orders", List(a.acceptOrders)),
      Field("price_changes", a.prices),
      Field("restock", a.restock),
      Field("supplier_orders", a.supplies),
      Field("ad_budget_shift", a.adverts),
      Field("customer_ops", a.service) ]
  }

  /** Cutting the decision down raises nothing: its lists can be iterated and its dictionaries built. */
  predicate Cuttable(decision: Json) {
    decision.Obj? ==>
      var d := decision.fields;
      && Listable(Get(d, "accept_skus", List([])))
      && Listable(Get(d, "reject_skus", List([])))
      && Listable(Get(d, "accept_orders", List([])))
      && Dictable(Get(d, "price_changes", Obj([])))
      && Dictable(Get(d, "restock", Obj([])))
      && Dictable(Get(d, "ad_budget_shift", Obj([])))
      && Dictable(Get(d, "customer_ops", Obj([])))
  }

  /** The copy of a decision that is saved for replay, or None where making it raises. */
  function TrySanitize(decision: Json): Option<Json> {
    if Cuttable(decision) then Some(Sanitize(decision)) else None
  }

  /** The copy itself, for decisions that can be cut down. */
  function Sanitize(decision: Json): Json {
    if decision.Obj? then Obj(Written(ActionableOf(decision.fields))) else Obj([])
  }

  predicate ListShaped(j: Json) { j.List? || !Truthy(j) }

  predicate ObjShaped(j: Json) { j.Obj? || !Truthy(j) }

  /** The shapes on which sanitising and applying agree; supplier orders and the accept-all flag may be anything. */
  predicate WellTyped(decision: Json) {
    && decision.Obj?
    && (var d := decision.fields;
        && ListShaped(Get(d, "accept_skus", List([])))
        && ListShaped(Get(d, "reject_skus", List([])))
        && ListShaped(Get(d, "accept_orders", List([])))
        && Get(d, "price_changes", Obj([])).Obj?
        && Get(d, "restock", Obj([])).Obj?
        && ObjShaped(Get(d, "ad_budget_shift", Obj([])))
        && ObjShaped(Get(d, "customer_ops", Obj([]))))
  }

  /** The plan in the nine saved values. */
  function PlanOf(rd: Reader, a: Actionable): Plan {
    Plan(
      a.acceptAll,
      TextSet(rd, List(a.acceptOrders)),
      TextSet(rd, List(a.acceptSkus)),
      TextSet(rd, List(a.rejectSkus)),
      PriceChanges(rd, FieldsOf(a.prices)),
      Purchases(rd, FieldsOf(a.restock)),
      Supplies(rd, a.supplies),
      Adverts(rd, FieldsOf(a.adverts)),
      Services(rd, FieldsOf(a.service)))
  }

  lemma NineKeysDistinct(a: Actionable)
    ensures DistinctKeys(Written(a))
  {
    var s := Written(a);
    assert |s[0].key| == 17 && |s[1].key| == 11 && |s[2].key| == 11 && |s[3].key| == 13 && |s[4].key| == 13;
    assert |s[5].key| == 7 && |s[6].key| == 15 && |s[7].key| == 15 && |s[8].key| == 12;
    assert s[1].key[0] == 'a' && s[2].key[0] == 'r' && s[3].key[0] == 'a' && s[4].key[0] == 'p';
    assert s[6].key[0] == 's' && s[7].key[0] == 'a';
  }

  lemma GetAt(s: seq<Field>, i: nat, default: Json)
    requires i < |s| && DistinctKeys(s)
    ensures Get(s, s[i].key, default) == s[i].value
  {
    LookupAt(s, i);
  }

  /** Values that cutting down again leaves alone. */
  predicate Normal(a: Actionable) {
    && OrNoList(a.supplies) == a.supplies
    && DictOf(a.prices) == a.prices && DictOf(a.restock) == a.restock
    && DictOf(a.adverts) == a.adverts && DictOf(a.service) == a.service
    && Dictable(a.prices) && Dictable(a.restock) && Dictable(a.adverts) && Dictable(a.service)
  }

  /** What was written is read back by name, value by value. */
  lemma ReadBack(a: Actionable)
    requires Normal(a)
    ensures ActionableOf(Written(a)) == a && Cuttable(Obj(Written(a)))
    ensures a.prices.Obj? && a.restock.Obj? && a.adverts.Obj? && a.service.Obj? ==> WellTyped(Obj(Written(a)))
  {
    hide Get, DistinctKeys, DictOf, Dictable, OrNoList;
    NineKeysDistinct(a);
    var s := Written(a);
    GetAt(s, 0, Bool(false));
    GetAt(s, 1, List([]));
    GetAt(s, 2, List([]));
    GetAt(s, 3, List([]));
    GetAt(s, 4, Obj([]));
    GetAt(s, 5, Obj([]));
    GetAt(s, 6, List([]));
    GetAt(s, 7, Obj([]));
    GetAt(s, 8, Obj([]));
  }

  lemma DictNormal(j: Json)
    requires Dictable(j) || !Iterable(j)
    ensures DictOf(DictOf(j)) == DictOf(j) && Dictable(DictOf(j))
  {
    if Iterable(j) && Truthy(j) { assert j.Obj? || ItemsOf(j) != []; }
  }

  lemma ActionableNormal(decision: Json)
    requires decision.Obj? && Cuttable(decision)
    ensures Normal(ActionableOf(decision.fields))
  {
    hide Get, DictOf, Dictable, OrNoList;
    var d := decision.fields;
    DictNormal(Get(d, "price_changes", Obj([])));
    DictNormal(Get(d, "restock", Obj([])));
    DictNormal(Get(d, "ad_budget_shift", Obj([])));
    DictNormal(Get(d, "customer_ops", Obj([])));
    ListNormal(Get(d, "supplier_orders", List([])));
  }

  lemma ListNormal(j: Json)
    ensures OrNoList(OrNoList(j)) == OrNoList(j)
  {
  }

  lemma ReadsShaped(rd: Reader, j: Json)
    ensures ListShaped(j) ==> TextSet(rd, List(ItemsOf(j))) == TextSet(rd, j)
    ensures ObjShaped(j) ==> FieldsOf(DictOf(j)) == FieldsOf(j) && DictOf(j).Obj?
    ensures j.Obj? ==> ObjShaped(j)
  {
  }

  lemma ReadsSupplies(rd: Reader, d: seq<Field>)
    ensures Supplies(rd, Get(d, "supplier_orders", Obj([])))
            == Supplies(rd, OrNoList(Get(d, "supplier_orders", List([]))))
  {
    hide Lookup;
  }

  /** Applying a well-typed decision reads only its actionable part. */
  lemma PlanReadsActionable(rd: Reader, decision: Json)
    requires WellTyped(decision)
    ensures ReadPlan(rd, decision) == PlanOf(rd, ActionableOf(decision.fields))
  {
    hide Get, TextSet, DictOf, ItemsOf, FieldsOf, OrNoList, Supplies, ListShaped, ObjShaped;
    var d := decision.fields;
    assert FieldsOf(decision) == d by { DecisionFields(decision); }
    ReadsSupplies(rd, d);
    ReadsShaped(rd, Get(d, "accept_skus", List([])));
    ReadsShaped(rd, Get(d, "reject_skus", List([])));
    ReadsShaped(rd, Get(d, "accept_orders", List([])));
    ReadsShaped(rd, Get(d, "price_changes", Obj([])));
    ReadsShaped(rd, Get(d, "restock", Obj([])));
    ReadsShaped(rd, Get(d, "ad_budget_shift", Obj([])));
    ReadsShaped(rd, Get(d, "customer_ops", Obj([])));
  }

  lemma DecisionFields(decision: Json)
    requires decision.Obj?
    ensures FieldsOf(decision) == decision.fields
  {
  }

  /** Well-typed shapes can be cut down, and stay well typed. */
  lemma WellTypedCuts(rd: Reader, decision: Json)
    requires WellTyped(decision)
    ensures Cuttable(decision)
    ensures var a := ActionableOf(decision.fields);
            a.prices.Obj? && a.restock.Obj? && a.adverts.Obj? && a.service.Obj?
  {
    hide Get, DictOf;
    var d := decision.fields;
    ReadsShaped(rd, Get(d, "price_changes", Obj([])));
    ReadsShaped(rd, Get(d, "restock", Obj([])));
    ReadsShaped(rd, Get(d, "ad_budget_shift", Obj([])));
    ReadsShaped(rd, Get(d, "customer_ops", Obj([])));
  }

  /** Main result: cutting down a well-typed decision raises nothing, and applying the saved copy does exactly what
      applying the original does. */
  lemma SanitizePreservesPlan(rd: Reader, decision: Json)
    requires WellTyped(decision)
    ensures TrySanitize(decision) == Some(Sanitize(decision)) && WellTyped(Sanitize(decision))
    ensures ReadPlan(rd, Sanitize(decision)) == ReadPlan(rd, decision)
  {
    var a := ActionableOf(decision.fields);
    hide ActionableOf, Written, WellTyped, ReadPlan, Cuttable, Normal;
    WellTypedCuts(rd, decision);
    ActionableNormal(decision);
    ReadBack(a);
    PlanReadsActionable(rd, decision);
    PlanReadsActionable(rd, Sanitize(decision));
  }

  /** Saving a saved decision raises nothing and changes nothing, so a replay's own record equals the one it replays;
      this fails exactly for a decision that is no dictionary, whose copy is empty but copied again has nine entries. */
  lemma SanitizeIdempotent(decision: Json)
    requires TrySanitize(decision).Some?
    ensures TrySanitize(TrySanitize(decision).value) == TrySanitize(decision) <==> decision.Obj?
  {
    hide ActionableOf, WellTyped, Cuttable, Normal;
    if decision.Obj? {
      hide Written;
      ActionableNormal(decision);
      ReadBack(ActionableOf(decision.fields));
    } else {
      assert |Sanitize(Obj([])).fields| == 9;
    }
  }
}
