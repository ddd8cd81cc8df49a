/** JSON values as Python loads them, with Python's truth test and equality. */
module Json {
  import opened Numbers

  /** Keyed is the dictionary Python builds from a list of pairs, kept as that list; no file holds one. */
  datatype Json =
    | Null
    | Bool(b: bool)
    | Int(i: int)
    | Float(r: real)
    | Str(s: string)
    | List(items: seq<Json>)
    | Obj(fields: seq<Field>)
    | Keyed(pairs: seq<Json>)

  /** Objects keep their fields in insertion order. */
  datatype Field = Field(key: string, value: Json)

  function Lookup(fields: seq<Field>, key: string): (found: Option<Json>)
    ensures found.Some? ==> exists i :: 0 <= i < |fields| && fields[i].key == key && fields[i].value == found.value
    ensures found.None? <==> forall i :: 0 <= i < |fields| ==> fields[i].key != key
  {
    if fields == [] then None
    else if fields[0].key == key then Some(fields[0].value)
    else Lookup(fields[1..], key)
  }

  predicate Has(fields: seq<Field>, key: string) { Lookup(fields, key).Some? }

  /** dict.get with a default. */
  function Get(fields: seq<Field>, key: string, default: Json): Json {
    var found := Lookup(fields, key);
    if found.Some? then found.value else default
  }

  predicate Truthy(j: Json) {
    match j
    case Null => false
    case Bool(b) => b
    case Int(i) => i != 0
    case Float(r) => r != 0.0
    case Str(s) => s != ""
    case List(items) => items != []
    case Obj(fields) => fields != []
    case Keyed(pairs) => pairs != []
  }

  predicate Numeric(j: Json) { j.Bool? || j.Int? || j.Float? }

  function AsReal(j: Json): real
    requires Numeric(j)
  {
    match j
    case Bool(b) => if b then 1.0 else 0.0
    case Int(i) => i as real
    case Float(r) => r
  }

  /** A value as a file can hold it; objects never repeat a key. */
  predicate WellFormed(j: Json)
    decreases j
  {
    match j
    case List(items) => forall i :: 0 <= i < |items| ==> WellFormed(items[i])
    case Obj(fields) =>
      && DistinctKeys(fields)
      && (forall i :: 0 <= i < |fields| ==> WellFormed(fields[i].value))
    case Keyed(_) => false
    case _ => true
  }

  /** Python's ==: numbers compare by value whatever their type, objects ignore field order. */
  predicate Equal(a: Json, b: Json)
    decreases a
  {
    if Numeric(a) && Numeric(b) then AsReal(a) == AsReal(b)
    else
      match (a, b)
      case (Null, Null) => true
      case (Str(s), Str(t)) => s == t
      case (List(xs), List(ys)) => |xs| == |ys| && forall i :: 0 <= i < |xs| ==> Equal(xs[i], ys[i])
      case (Obj(fs), Obj(gs)) =>
        && |fs| == |gs|
        && forall i :: 0 <= i < |fs| ==> Has(gs, fs[i].key) && Equal(fs[i].value, Lookup(gs, fs[i].key).value)
      case _ => false
  }

  lemma LookupAt(fields: seq<Field>, i: nat)
    requires i < |fields| && DistinctKeys(fields)
    ensures Lookup(fields, fields[i].key) == Some(fields[i].value)
  {
  }

  lemma GetIn(d: seq<Field>, key: string, j: Json, default: Json)
    requires DistinctKeys(d) && Field(key, j) in d
    ensures Get(d, key, default) == j && Has(d, key)
  {
    var i :| 0 <= i < |d| && d[i] == Field(key, j);
    LookupAt(d, i);
  }

  lemma GetFrom(d: seq<Field>, key: string, default: Json)
    ensures Field(key, Get(d, key, default)) in d || Get(d, key, default) == default
    ensures (forall i :: 0 <= i < |d| ==> d[i].key != key) ==> Get(d, key, default) == default
  {
    var found := Lookup(d, key);
    if found.Some? {
      var i :| 0 <= i < |d| && d[i].key == key && d[i].value == found.value;
      assert d[i] == Field(key, found.value);
    }
  }

  lemma {:induction false} FirstFound(fields: seq<Field>, i: nat)
    requires i < |fields| && forall j :: 0 <= j < i ==> fields[j].key != fields[i].key
    ensures Get(fields, fields[i].key, Null) == fields[i].value
    decreases |fields|
  {
    if i > 0 { FirstFound(fields[1..], i - 1); }
  }

  lemma {:induction false} EqualReflexive(a: Json)
    requires WellFormed(a)
    ensures Equal(a, a)
    decreases a
  {
    match a
    case List(items) =>
      forall i | 0 <= i < |items| ensures Equal(items[i], items[i]) { EqualReflexive(items[i]); }
    case Obj(fields) =>
      forall i | 0 <= i < |fields|
        ensures Has(fields, fields[i].key) && Equal(fields[i].value, Lookup(fields, fields[i].key).value)
      {
        LookupAt(fields, i);
        EqualReflexive(fields[i].value);
      }
    case _ =>
  }

  predicate DistinctKeys(fields: seq<Field>) {
    forall i, k :: 0 <= i < k < |fields| ==> fields[i].key != fields[k].key
  }

  function Keys(fields: seq<Field>): set<string> {
    set i | 0 <= i < |fields| :: fields[i].key
  }

  lemma {:induction false} KeysCounted(fields: seq<Field>)
    requires DistinctKeys(fields)
    ensures |Keys(fields)| == |fields|
  {
    if fields != [] {
      var front := fields[..|fields| - 1];
      var last := fields[|fields| - 1].key;
      KeysCounted(front);
      assert Keys(fields) == Keys(front) + {last} && last !in Keys(front);
    }
  }

  /** As many distinct keys on both sides, and none missing on the right: none is missing on the left. */
  lemma KeysMatch(fs: seq<Field>, gs: seq<Field>)
    requires |fs| == |gs| && DistinctKeys(fs) && DistinctKeys(gs)
    requires forall i :: 0 <= i < |fs| ==> Has(gs, fs[i].key)
    ensures forall i :: 0 <= i < |gs| ==> Has(fs, gs[i].key)
  {
    KeysCounted(fs);
    KeysCounted(gs);
    assert Keys(fs) <= Keys(gs);
    assert |Keys(gs) - Keys(fs)| == |Keys(gs)| - |Keys(fs)|;
    forall i | 0 <= i < |gs| ensures Has(fs, gs[i].key) {
      assert gs[i].key in Keys(gs) - (Keys(gs) - Keys(fs));
    }
  }

  lemma {:induction false} EqualSymmetric(a: Json, b: Json)
    requires WellFormed(a) && WellFormed(b) && Equal(a, b)
    ensures Equal(b, a)
    decreases a
  {
    match (a, b)
    case (List(xs), List(ys)) =>
      forall i | 0 <= i < |xs| ensures Equal(ys[i], xs[i]) { EqualSymmetric(xs[i], ys[i]); }
    case (Obj(fs), Obj(gs)) =>
      KeysMatch(fs, gs);
      forall i | 0 <= i < |gs|
        ensures Equal(gs[i].value, Lookup(fs, gs[i].key).value)
      {
        var k :| 0 <= k < |fs| && fs[k].key == gs[i].key;
        LookupAt(fs, k);
        LookupAt(gs, i);
        EqualSymmetric(fs[k].value, gs[i].value);
      }
    case _ =>
  }
}
