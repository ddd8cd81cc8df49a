/** The merge as the source's key loop, and the cached, layered parameters built with it. */
module Settings {
  import opened Numbers
  import opened ConfigMerge

  /** What the merge holds at one key. */
  function MergedValue(base: map<string, Tree>, overlay: map<string, Tree>, k: string): Tree
    requires k in base || k in overlay
  {
    if k !in overlay then base[k] else if k in base then Merge(base[k], overlay[k]) else overlay[k]
  }

  lemma MergeByKey(base: map<string, Tree>, overlay: map<string, Tree>)
    ensures var merged := Merge(Node(base), Node(overlay));
            && merged.Node? && merged.children.Keys == base.Keys + overlay.Keys
            && forall k <- merged.children.Keys :: merged.children[k] == MergedValue(base, overlay, k)
  {
  }

  /** Copy the base, then write the overlay's keys into the copy one by one, merging where both hold mappings. */
  method DeepMerge(base: map<string, Tree>, overlay: map<string, Tree>) returns (result: map<string, Tree>)
    ensures Node(result) == Merge(Node(base), Node(overlay))
    decreases Node(overlay), 1
  {
    hide MergedValue;
    MergeByKey(base, overlay);
    ghost var merged := Merge(Node(base), Node(overlay)).children;
    hide Merge, Halfway;
    result := base;
    var todo := overlay.Keys;
    HalfwayEnds(base, merged, todo, result);
    while todo != {}
      invariant todo <= overlay.Keys
      invariant Halfway(base, merged, todo, result)
      decreases |todo|
    {
      SomeElement(todo);
      var k :| k in todo;
      var value := MergeAtKey(base, overlay, k);
      HalfwayNext(base, merged, todo, result, k);
      result := result[k := value];
      todo := todo - {k};
    }
    HalfwayEnds(base, merged, todo, result);
  }

  /** The keys still to do hold the base's values, the others the merge's. */
  ghost predicate Halfway(base: map<string, Tree>, merged: map<string, Tree>, todo: set<string>,
                          result: map<string, Tree>)
  {
    && result.Keys <= merged.Keys
    && (forall k <- merged.Keys :: k in result || k in todo)
    && (forall k <- result.Keys ::
          if k in todo then k in base && result[k] == base[k] else result[k] == merged[k])
  }

  lemma HalfwayNext(base: map<string, Tree>, merged: map<string, Tree>, todo: set<string>,
                    result: map<string, Tree>, k: string)
    requires Halfway(base, merged, todo, result) && k in merged
    ensures Halfway(base, merged, todo - {k}, result[k := merged[k]])
  {
  }

  lemma HalfwayEnds(base: map<string, Tree>, merged: map<string, Tree>, todo: set<string>, result: map<string, Tree>)
    ensures todo == {} && Halfway(base, merged, todo, result) ==> result == merged
    ensures result == base && base.Keys + todo == merged.Keys && (forall k <- base.Keys - todo :: base[k] == merged[k])
            ==> Halfway(base, merged, todo, result)
  {
  }

  method MergeAtKey(base: map<string, Tree>, overlay: map<string, Tree>, k: string) returns (value: Tree)
    requires k in overlay
    ensures value == MergedValue(base, overlay, k)
    decreases Node(overlay), 0
  {
    if overlay[k].Node? && k in base && base[k].Node? {
      var inner := DeepMerge(base[k].children, overlay[k].children);
      value := Node(inner);
    } else {
      value := overlay[k];
    }
  }

  /** Defaults under the file under the override; values that do not validate give the defaults. */
  function Layered(defaults: map<string, Tree>, validate: Tree -> Option<Tree>, file: map<string, Tree>,
                   override: Option<map<string, Tree>>): Tree
  {
    var base := Merge(Node(defaults), Node(file));
    var merged := if override.Some? then Merge(base, Node(override.value)) else base;
    var checked := validate(merged);
    if checked.Some? then checked.value else Node(defaults)
  }

  /** A path a layer says nothing about. */
  predicate Silent(layer: map<string, Tree>, path: seq<string>) {
    Get(Node(layer), path).None? && !Blocked(Node(layer), path)
  }

  /** Main result: where validation changes nothing, the override decides a path, then the file, then the defaults;
      where it refuses, the defaults are all there is. */
  lemma LayersDecide(defaults: map<string, Tree>, validate: Tree -> Option<Tree>, file: map<string, Tree>,
                     override: Option<map<string, Tree>>, path: seq<string>, value: string)
    ensures var (all, top) := (Layered(defaults, validate, file, override),
                               if override.Some? then override.value else map[]);
            && ((forall t :: validate(t).None?) ==> all == Node(defaults))
            && ((forall t :: validate(t) == Some(t)) && path != [] ==>
                  && (Get(Node(top), path) == Some(Leaf(value)) ==> Get(all, path) == Some(Leaf(value)))
                  && (Silent(top, path) && Get(Node(file), path) == Some(Leaf(value)) ==>
                        Get(all, path) == Some(Leaf(value)))
                  && (Silent(top, path) && Silent(file, path) ==> Get(all, path) == Get(Node(defaults), path)))
  {
    hide Merge, Get, Blocked;
    var base := Merge(Node(defaults), Node(file));
    MergedAt(Node(defaults), Node(file), path);
    if override.Some? {
      LaterLayersWin(Node(defaults), Node(file), Node(override.value), path, value);
    } else {
      NothingThere(path);
    }
    LeafWins(value);
  }

  lemma NothingThere(path: seq<string>)
    ensures path != [] ==> Get(Node(map[]), path).None?
  {
  }

  lemma LeafWins(value: string)
    ensures forall base :: Merge(base, Leaf(value)) == Leaf(value)
  {
  }

  class ModelConfig {
    const defaults: map<string, Tree>
    const validate: Tree -> Option<Tree>
    var cached: Option<Tree>

    constructor (defaults: map<string, Tree>, validate: Tree -> Option<Tree>)
      ensures this.defaults == defaults && this.validate == validate && cached == None
    {
      this.defaults := defaults;
      this.validate := validate;
      cached := None;
    }

    /** The cache answers only plain calls, but whatever is computed, overrides included, is what it keeps. */
    method GetModelParams(forceReload: bool, override: Option<map<string, Tree>>, file: map<string, Tree>)
      returns (params: Tree)
      modifies this
      ensures cached == Some(params)
      ensures params == if old(cached).Some? && !forceReload && override == None then old(cached).value
                        else Layered(defaults, validate, file, override)
    {
      if cached.Some? && !forceReload && override == None { return cached.value; }
      var merged := DeepMerge(defaults, file);
      if override.Some? && override.value != map[] {
        merged := DeepMerge(merged, override.value);
      } else if override.Some? {
        EmptyOverlay(Node(merged));
      }
      var checked := validate(Node(merged));
      params := if checked.Some? then checked.value else Node(defaults);
      cached := Some(params);
    }

    lemma EmptyOverlay(base: Tree)
      requires base.Node?
      ensures Merge(base, Node(map[])) == base
    {
      assert Merge(base, Node(map[])).children == base.children;
    }
  }
}
