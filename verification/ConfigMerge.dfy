/** Layered configuration: the recursive merge of nested mappings and its laws, path by path. */
module ConfigMerge {
  import opened Numbers

  /** A configuration value: a mapping, or anything else. */
  datatype Tree = Leaf(value: string) | Node(children: map<string, Tree>)

  /** Mappings on both sides merge key by key; everywhere else the overlay's value replaces the base's. */
  function Merge(base: Tree, overlay: Tree): Tree
    decreases overlay
  {
    if base.Node? && overlay.Node? then
      Node(map k | k in base.children.Keys + overlay.children.Keys ::
        if k !in overlay.children then base.children[k]
        else if k in base.children then Merge(base.children[k], overlay.children[k])
        else overlay.children[k])
    else overlay
  }

  /** The value at a path of keys. */
  function Get(t: Tree, path: seq<string>): Option<Tree>
    decreases |path|
  {
    if path == [] then Some(t)
    else if t.Node? && path[0] in t.children then Get(t.children[path[0]], path[1..])
    else None
  }

  /** A value that is not a mapping sits on the way to the path. */
  predicate Blocked(t: Tree, path: seq<string>)
    decreases |path|
  {
    path != [] && (t.Leaf? || (path[0] in t.children && Blocked(t.children[path[0]], path[1..])))
  }

  /** Main result: every path of a merge is decided by the same path of the two layers. The overlay's value is there
      if it has one, merged into the base's; a path the overlay cuts short is gone; all others are the base's. */
  lemma {:induction false} MergedAt(base: Tree, overlay: Tree, path: seq<string>)
    ensures Get(Merge(base, overlay), path)
            == match Get(overlay, path)
               case Some(t) => Some(if Get(base, path).Some? then Merge(Get(base, path).value, t) else t)
               case None => if Blocked(overlay, path) then None else Get(base, path)
    decreases |path|
  {
    if path != [] && base.Node? && overlay.Node? {
      var k := path[0];
      if k in base.children && k in overlay.children {
        MergedAt(base.children[k], overlay.children[k], path[1..]);
      } else if k in overlay.children {
        OwnPaths(overlay.children[k], path[1..]);
      }
    } else if path != [] {
      OwnPaths(overlay, path);
    }
  }

  lemma {:induction false} OwnPaths(t: Tree, path: seq<string>)
    ensures Blocked(t, path) ==> Get(t, path).None?
    decreases |path|
  {
    if path != [] && t.Node? && path[0] in t.children { OwnPaths(t.children[path[0]], path[1..]); }
  }

  /** Built-in defaults, then the file, then the programmatic override: the last layer that sets a plain value at a
      path wins, and later layers that say nothing about the path do not disturb it. */
  lemma LaterLayersWin(defaults: Tree, file: Tree, overriding: Tree, path: seq<string>, value: string)
    ensures var all := Merge(Merge(defaults, file), overriding);
            var silent := (layer: Tree) => Get(layer, path).None? && !Blocked(layer, path);
            && (Get(overriding, path) == Some(Leaf(value)) ==> Get(all, path) == Some(Leaf(value)))
            && (silent(overriding) && Get(file, path) == Some(Leaf(value)) ==> Get(all, path) == Some(Leaf(value)))
            && (silent(overriding) && silent(file) ==> Get(all, path) == Get(defaults, path))
  {
    MergedAt(Merge(defaults, file), overriding, path);
    MergedAt(defaults, file, path);
  }

  lemma {:induction false} MergeIdempotent(t: Tree)
    ensures Merge(t, t) == t
  {
    if t.Node? {
      forall k <- t.children.Keys ensures Merge(t.children[k], t.children[k]) == t.children[k] {
        MergeIdempotent(t.children[k]);
      }
      assert Merge(t, t).children == t.children;
    }
  }

  /** Everything the base has, the overlay decides anyway. */
  predicate Absorbed(base: Tree, overlay: Tree)
    decreases overlay
  {
    base.Node? && overlay.Node? ==>
      forall k <- base.children.Keys :: k in overlay.children && Absorbed(base.children[k], overlay.children[k])
  }

  lemma {:induction false} AbsorbedExactly(base: Tree, overlay: Tree)
    ensures Merge(base, overlay) == overlay <==> Absorbed(base, overlay)
    decreases overlay
  {
    if base.Node? && overlay.Node? {
      var merged := Merge(base, overlay);
      forall k | k in base.children && k in overlay.children
        ensures merged.children[k] == overlay.children[k] <==> Absorbed(base.children[k], overlay.children[k])
      {
        AbsorbedExactly(base.children[k], overlay.children[k]);
      }
      if Absorbed(base, overlay) { assert merged.children == overlay.children; }
      assert forall k <- base.children.Keys :: k in merged.children;
    }
  }

  /** Applying the same overlay again changes nothing. */
  lemma {:induction false} OverlayAgain(base: Tree, overlay: Tree)
    ensures Merge(Merge(base, overlay), overlay) == Merge(base, overlay)
    decreases overlay
  {
    if base.Node? && overlay.Node? {
      var once := Merge(base, overlay);
      forall k <- overlay.children.Keys
        ensures Merge(once.children[k], overlay.children[k]) == once.children[k]
      {
        if k in base.children { OverlayAgain(base.children[k], overlay.children[k]); }
        else { MergeIdempotent(overlay.children[k]); }
      }
      assert Merge(once, overlay).children == once.children;
    } else {
      MergeIdempotent(overlay);
    }
  }

  /** A plain middle value that the top layer turns back into a mapping must not uncover any of the bottom layer. */
  predicate Layerable(a: Tree, b: Tree, c: Tree)
    decreases c
  {
    if c.Leaf? then true
    else if b.Leaf? then Absorbed(a, c)
    else
      a.Node? ==>
        forall k <- c.children.Keys :: k in a.children && k in b.children ==>
          Layerable(a.children[k], b.children[k], c.children[k])
  }

  /** Main result: the merge is associative for exactly the triples of layers in which no plain middle value hides
      something of the bottom layer that the top layer's mapping does not decide itself. */
  lemma {:induction false} AssociativeExactly(a: Tree, b: Tree, c: Tree)
    ensures Merge(Merge(a, b), c) == Merge(a, Merge(b, c)) <==> Layerable(a, b, c)
    decreases c
  {
    if c.Node? && b.Leaf? {
      AbsorbedExactly(a, c);
    } else if c.Node? && a.Node? {
      var (left, right) := (Merge(Merge(a, b), c), Merge(a, Merge(b, c)));
      forall k | k in c.children && k in a.children && k in b.children
        ensures left.children[k] == right.children[k]
                <==> Layerable(a.children[k], b.children[k], c.children[k])
      {
        AssociativeExactly(a.children[k], b.children[k], c.children[k]);
      }
      assert left.children.Keys == right.children.Keys;
      forall k <- left.children.Keys | !(k in c.children && k in a.children && k in b.children)
        ensures left.children[k] == right.children[k]
      {
      }
      if Layerable(a, b, c) { assert left.children == right.children; }
    }
  }

  /** No plain value of the middle layer sits between mappings of the outer two. */
  predicate NothingBetween(a: Tree, b: Tree, c: Tree)
    decreases c
  {
    && (a.Node? && c.Node? ==> b.Node?)
    && (a.Node? && b.Node? && c.Node? ==>
          forall k <- c.children.Keys :: k in a.children && k in b.children ==>
            NothingBetween(a.children[k], b.children[k], c.children[k]))
  }

  lemma {:induction false} NothingBetweenAssociates(a: Tree, b: Tree, c: Tree)
    requires NothingBetween(a, b, c)
    ensures Layerable(a, b, c)
    ensures Merge(Merge(a, b), c) == Merge(a, Merge(b, c))
    decreases c
  {
    if a.Node? && b.Node? && c.Node? {
      forall k | k in c.children && k in a.children && k in b.children
        ensures Layerable(a.children[k], b.children[k], c.children[k])
      {
        NothingBetweenAssociates(a.children[k], b.children[k], c.children[k]);
      }
    }
    AssociativeExactly(a, b, c);
  }

  /** Grouping the layers the other way can bring back a bottom value that a plain middle value had replaced. */
  lemma MiddleValueMatters()
    ensures var a := Node(map["limits" := Node(map["low" := Leaf("1")])]);
            var b := Node(map["limits" := Leaf("off")]);
            var c := Node(map["limits" := Node(map["high" := Leaf("9")])]);
            && Get(Merge(Merge(a, b), c), ["limits", "low"]) == None
            && Get(Merge(a, Merge(b, c)), ["limits", "low"]) == Some(Leaf("1"))
  {
    var (low, high) := (Node(map["low" := Leaf("1")]), Node(map["high" := Leaf("9")]));
    var a := Node(map["limits" := low]);
    var b := Node(map["limits" := Leaf("off")]);
    var c := Node(map["limits" := high]);
    assert Get(a, ["limits", "low"]) == Get(low, ["low"]) == Some(Leaf("1"));
    assert Get(b, ["limits", "low"]) == None && Blocked(b, ["limits", "low"]);
    assert Get(c, ["limits", "low"]) == Get(high, ["low"]) == None && !Blocked(c, ["limits", "low"]);
    MergedAt(Merge(a, b), c, ["limits", "low"]);
    MergedAt(a, b, ["limits", "low"]);
    MergedAt(a, Merge(b, c), ["limits", "low"]);
    assert Merge(b, c).children["limits"] == high;
  }
}
