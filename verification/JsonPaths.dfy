/** JSON values seen path by path, which is what equality comes down to. */
module JsonPaths {
  import opened Json

  datatype Step = Item(index: int) | Entry(key: string)

  /** What can be seen of a value without going into it. */
  datatype Shape =
    | Missing
    | Nothing
    | Number(r: real)
    | Text(s: string)
    | ListOf(length: nat)
    | ObjectOf(keys: set<string>)

  function ShapeOf(j: Json): Shape {
    match j
    case Null => Nothing
    case Bool(b) => Number(if b then 1.0 else 0.0)
    case Int(i) => Number(i as real)
    case Float(r) => Number(r)
    case Str(s) => Text(s)
    case List(items) => ListOf(|items|)
    case Obj(fields) => ObjectOf(Keys(fields))
    case Keyed(_) => Missing
  }

  /** What stands at the end of a path into a value. */
  function Found(j: Json, path: seq<Step>): Shape
    decreases |path|
  {
    if path == [] then ShapeOf(j)
    else
      match (j, path[0])
      case (List(items), Item(i)) => if 0 <= i < |items| then Found(items[i], path[1..]) else Missing
      case (Obj(fields), Entry(key)) =>
        if Has(fields, key) then Found(Lookup(fields, key).value, path[1..]) else Missing
      case _ => Missing
  }

  /** Every path finds the same in both. */
  ghost predicate SameEverywhere(a: Json, b: Json) { forall path :: Found(a, path) == Found(b, path) }

  lemma KeysHad(fields: seq<Field>)
    ensures forall key :: key in Keys(fields) <==> Has(fields, key)
  {
    forall key ensures key in Keys(fields) <==> Has(fields, key) {
      if Has(fields, key) {
        var i :| 0 <= i < |fields| && fields[i].key == key;
      }
    }
  }

  lemma ValueWellFormed(fields: seq<Field>, key: string)
    requires WellFormed(Obj(fields)) && Has(fields, key)
    ensures WellFormed(Lookup(fields, key).value)
    ensures exists i :: 0 <= i < |fields| && fields[i] == Field(key, Lookup(fields, key).value)
  {
    var i :| 0 <= i < |fields| && fields[i].key == key && fields[i].value == Lookup(fields, key).value;
    assert WellFormed(fields[i].value);
    assert fields[i] == Field(key, fields[i].value);
  }

  lemma SameKeys(fs: seq<Field>, gs: seq<Field>)
    requires DistinctKeys(fs) && DistinctKeys(gs) && |fs| == |gs|
    requires forall i :: 0 <= i < |fs| ==> Has(gs, fs[i].key)
    ensures Keys(fs) == Keys(gs)
  {
    KeysMatch(fs, gs);
    KeysHad(fs);
    KeysHad(gs);
  }

  lemma {:induction false} EqualAlong(a: Json, b: Json, path: seq<Step>)
    requires WellFormed(a) && WellFormed(b) && Equal(a, b)
    ensures Found(a, path) == Found(b, path)
    decreases |path|
  {
    match (a, b)
    case (Obj(fs), Obj(gs)) =>
      SameKeys(fs, gs);
      if path != [] && path[0].Entry? { EntryAlong(fs, gs, path); }
    case (List(xs), List(ys)) =>
      if path != [] && path[0].Item? && 0 <= path[0].index < |xs| {
        EqualAlong(xs[path[0].index], ys[path[0].index], path[1..]);
      }
    case _ =>
  }

  lemma {:induction false} EntryAlong(fs: seq<Field>, gs: seq<Field>, path: seq<Step>)
    requires WellFormed(Obj(fs)) && WellFormed(Obj(gs)) && Equal(Obj(fs), Obj(gs)) && Keys(fs) == Keys(gs)
    requires path != [] && path[0].Entry?
    ensures Found(Obj(fs), path) == Found(Obj(gs), path)
    decreases |path|, 0
  {
    var key := path[0].key;
    KeysHad(fs);
    KeysHad(gs);
    if Has(fs, key) {
      ValueWellFormed(fs, key);
      ValueWellFormed(gs, key);
      EqualAlong(Lookup(fs, key).value, Lookup(gs, key).value, path[1..]);
    }
  }

  lemma {:induction false} AlongEqual(a: Json, b: Json)
    requires WellFormed(a) && WellFormed(b) && SameEverywhere(a, b)
    ensures Equal(a, b)
    decreases a
  {
    assert ShapeOf(a) == ShapeOf(b) by { assert Found(a, []) == Found(b, []); }
    match (a, b)
    case (List(xs), List(ys)) =>
      forall i | 0 <= i < |xs| ensures Equal(xs[i], ys[i]) {
        forall path ensures Found(xs[i], path) == Found(ys[i], path) {
          assert Found(a, [Item(i)] + path) == Found(b, [Item(i)] + path);
          assert ([Item(i)] + path)[1..] == path;
        }
        AlongEqual(xs[i], ys[i]);
      }
    case (Obj(fs), Obj(gs)) =>
      KeysCounted(fs);
      KeysCounted(gs);
      KeysHad(fs);
      KeysHad(gs);
      forall i | 0 <= i < |fs|
        ensures Has(gs, fs[i].key) && Equal(fs[i].value, Lookup(gs, fs[i].key).value)
      {
        var key := fs[i].key;
        assert key in Keys(fs);
        LookupAt(fs, i);
        ValueWellFormed(gs, key);
        forall path ensures Found(fs[i].value, path) == Found(Lookup(gs, key).value, path) {
          assert Found(a, [Entry(key)] + path) == Found(b, [Entry(key)] + path);
          assert ([Entry(key)] + path)[1..] == path;
        }
        AlongEqual(fs[i].value, Lookup(gs, key).value);
      }
    case _ =>
  }

  /** Main result: Python's equality holds of two values exactly when every path finds the same in both, numbers
      counting by value and the order of an object's entries not at all. */
  lemma EqualExactly(a: Json, b: Json)
    requires WellFormed(a) && WellFormed(b)
    ensures Equal(a, b) <==> SameEverywhere(a, b)
  {
    if Equal(a, b) {
      assert SameEverywhere(a, b) by {
        forall path ensures Found(a, path) == Found(b, path) { EqualAlong(a, b, path); }
      }
    }
    hide Equal, SameEverywhere, WellFormed;
    if SameEverywhere(a, b) { AlongEqual(a, b); }
  }
}
