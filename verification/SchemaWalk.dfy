/** The walk itself, and its proof that the explicit stack decides exactly the tree predicate. */
module SchemaWalk {
  import opened Wrappers
  import opened SchemaPolicy

  // ---- required names ----------------------------------------------------------------------------

  function SetOf(names: seq<string>): set<string> {
    set name | name in names
  }

  lemma {:induction false} DistinctNames(names: seq<string>)
    requires Distinct(names)
    ensures multiset(names) == multiset(SetOf(names)) && |SetOf(names)| == |names|
  {
    if names != [] {
      var last := |names| - 1;
      DistinctNames(names[..last]);
      assert names == names[..last] + [names[last]];
      assert SetOf(names) == SetOf(names[..last]) + {names[last]};
    }
  }

  lemma RepeatedName(names: seq<string>, i: nat, j: nat)
    requires i < j < |names| && names[i] == names[j]
    ensures 2 <= multiset(names)[names[i]]
  {
    assert names == names[..j] + names[j..];
    assert names[i] in names[..j] && names[i] in names[j..];
  }

  /** As many distinct names as keys, all of them keys, is the same as requiring each key once. */
  lemma RequiresEachOnce(names: seq<string>, keys: seq<string>)
    requires Distinct(keys)
    ensures multiset(names) == multiset(keys) <==>
              |names| == |keys| && (forall k :: 0 <= k < |names| ==> names[k] in keys) && Distinct(names)
  {
    DistinctNames(keys);
    if multiset(names) == multiset(keys) {
      assert |multiset(names)| == |multiset(keys)|;
      forall k | 0 <= k < |names|
        ensures names[k] in keys
      {
        assert names[k] in multiset(keys);
      }
      forall i, j | 0 <= i < j < |names|
        ensures names[i] != names[j]
      {
        if names[i] == names[j] {
          RepeatedName(names, i, j);
        }
      }
    }
    if |names| == |keys| && (forall k :: 0 <= k < |names| ==> names[k] in keys) && Distinct(names) {
      DistinctNames(names);
      assert SetOf(names) <= SetOf(keys);
      SameSize(SetOf(names), SetOf(keys));
    }
  }

  lemma SameSize(a: set<string>, b: set<string>)
    requires a <= b && |a| == |b|
    ensures a == b
  {
    assert |b - a| == 0;
  }

  /** A strict object lists as many names as it has properties, all of them its own. */
  lemma StrictIsCounted(items: seq<Value>, keys: seq<string>)
    requires Distinct(keys) && forall k :: 0 <= k < |items| ==> items[k].Str?
    requires multiset(Texts(items)) == multiset(keys)
    ensures |items| == |keys| && forall k :: 0 <= k < |items| ==> items[k].text in keys
  {
    RequiresEachOnce(Texts(items), keys);
    assert forall k :: 0 <= k < |items| ==> Texts(items)[k] == items[k].text;
  }

  method ObjectSchema(value: Value) returns (ok: bool)
    requires Distinct(PropertyNames(value))
    ensures ok <==> StrictObject(value) && |PropertyNames(value)| <= NODES_MAX
  {
    var properties, required := Get(value, "properties"), Get(value, "required");
    if properties.None? || !properties.value.Obj? || required.None? || !required.value.Arr? {
      return false;
    }
    var keys, items := Keys(properties.value.fields), required.value.items;
    var named := true;
    for k := 0 to |items|
      invariant named <==> forall j :: 0 <= j < k ==> items[j].Str? && items[j].text in keys
    {
      named := named && items[k].Str? && items[k].text in keys;
    }
    if NODES_MAX < |keys| || NODES_MAX < |items|
       || Get(value, "additionalProperties") != Some(Bool(false))
       || |keys| != |items| || !named
    {
      if StrictObject(value) {
        StrictIsCounted(items, keys);
      }
      return false;
    }
    RequiresEachOnce(Texts(items), keys);
    var names: set<string> := {};
    for k := 0 to |items|
      invariant names == SetOf(Texts(items)[..k]) && Distinct(Texts(items)[..k])
    {
      if items[k].text in names {
        ghost var j :| 0 <= j < k && Texts(items)[j] == items[k].text;
        assert Texts(items)[k] == Texts(items)[j];
        return false;
      }
      assert Texts(items)[..k + 1] == Texts(items)[..k] + [items[k].text];
      names := names + {items[k].text};
    }
    assert Texts(items)[..|items|] == Texts(items);
    return true;
  }

  method ChildrenOf(value: Value) returns (children: Option<seq<Value>>)
    ensures children.Some? <==> ChildrenOk(value) && |Kids(value)| <= NODES_MAX
    ensures children.Some? ==> children.value == Kids(value)
  {
    var properties, items, anyOf := Get(value, "properties"), Get(value, "items"), Get(value, "anyOf");
    if properties.Some? && !properties.value.Obj? {
      return None;
    }
    if anyOf.Some? && !anyOf.value.Arr? {
      return None;
    }
    var count := (if properties.Some? then |properties.value.fields| else 0)
                 + (if anyOf.Some? then |anyOf.value.items| else 0) + (if items.Some? then 1 else 0);
    if NODES_MAX < count {
      return None;
    }
    var found: seq<Value> := [];
    if properties.Some? {
      found := found + Values(properties.value.fields);
    }
    if items.Some? {
      found := found + [items.value];
    }
    if anyOf.Some? {
      if anyOf.value.items == [] {
        return None;
      }
      found := found + anyOf.value.items;
    }
    return Some(found);
  }

  // ---- running totals ----------------------------------------------------------------------------

  /** The provider's ceilings, counted as the walk goes. */
  class Counts {
    var properties: nat
    var enums: nat
    var stringChars: nat

    constructor ()
      ensures properties == enums == stringChars == 0
    {
      properties, enums, stringChars := 0, 0, 0;
    }

    predicate Bounded()
      reads this
    {
      properties <= PROPERTIES_MAX && enums <= ENUMS_MAX && stringChars <= STRING_CHARS_MAX
    }

    method ObserveNames(names: seq<string>) returns (ok: bool)
      requires Bounded()
      modifies this
      ensures ok <==>
              old(properties) + |names| <= PROPERTIES_MAX && old(stringChars) + Lengths(names) <= STRING_CHARS_MAX
      ensures ok ==> Bounded() && properties == old(properties) + |names| && enums == old(enums)
                     && stringChars == old(stringChars) + Lengths(names)
    {
      if PROPERTIES_MAX < properties + |names| {
        return false;
      }
      properties := properties + |names|;
      for k := 0 to |names|
        invariant stringChars == old(stringChars) + Lengths(names[..k]) <= STRING_CHARS_MAX
        invariant properties == old(properties) + |names| && enums == old(enums)
      {
        assert names[..k + 1][..k] == names[..k];
        if STRING_CHARS_MAX < stringChars + |names[k]| {
          LengthsGrow(names, k + 1);
          return false;
        }
        stringChars := stringChars + |names[k]|;
      }
      assert names[..|names|] == names;
      return true;
    }

    method ObserveValues(schema: Value, values: seq<Value>) returns (ok: bool)
      requires Bounded() && values == EnumValues(schema)
      modifies this
      ensures ok <==> EnumOk(schema) && old(enums) + |values| <= ENUMS_MAX
                      && old(stringChars) + TextLengths(values) <= STRING_CHARS_MAX
      ensures ok ==> Bounded() && properties == old(properties) && enums == old(enums) + |values|
                     && stringChars == old(stringChars) + TextLengths(values)
    {
      if ENUMS_MAX < enums + |values| {
        return false;
      }
      enums := enums + |values|;
      var enumChars: nat := 0;
      for k := 0 to |values|
        invariant enumChars == TextLengths(values[..k])
        invariant stringChars == old(stringChars) + TextLengths(values[..k]) <= STRING_CHARS_MAX
        invariant properties == old(properties) && enums == old(enums) + |values|
        invariant Distinct(values[..k]) && forall j :: 0 <= j < k ==> Compatible(schema, values[j])
      {
        assert values[..k + 1][..k] == values[..k];
        if !Compatible(schema, values[k]) || values[k] in values[..k] {
          return false;
        }
        var chars := TextLength(values[k]);
        if STRING_CHARS_MAX < enumChars + chars || STRING_CHARS_MAX < stringChars + chars {
          TextLengthsGrow(values, k + 1);
          return false;
        }
        enumChars := enumChars + chars;
        stringChars := stringChars + chars;
      }
      assert values[..|values|] == values;
      return !(LARGE_ENUM_VALUES < |values| && LARGE_ENUM_CHARS_MAX < enumChars);
    }

    /** Counts one schema; refuses it when a total would pass its ceiling or its enum is not allowed. */
    method Observe(schema: Value) returns (ok: bool)
      requires Bounded()
      modifies this
      ensures ok <==> EnumOk(schema)
                      && old(properties) + PropertyCount(schema) <= PROPERTIES_MAX
                      && old(enums) + EnumCount(schema) <= ENUMS_MAX
                      && old(stringChars) + CharCount(schema) <= STRING_CHARS_MAX
      ensures ok ==> Bounded() && properties == old(properties) + PropertyCount(schema)
                     && enums == old(enums) + EnumCount(schema) && stringChars == old(stringChars) + CharCount(schema)
    {
      ok := ObserveNames(PropertyNames(schema));
      if ok {
        ok := ObserveValues(schema, EnumValues(schema));
      }
    }
  }

  lemma {:induction false} LengthsGrow(names: seq<string>, upto: nat)
    requires upto <= |names|
    ensures Lengths(names[..upto]) <= Lengths(names)
    decreases |names| - upto
  {
    if upto == |names| {
      assert names[..upto] == names;
    } else {
      assert names[..upto + 1][..upto] == names[..upto];
      LengthsGrow(names, upto + 1);
    }
  }

  lemma {:induction false} TextLengthsGrow(values: seq<Value>, upto: nat)
    requires upto <= |values|
    ensures TextLengths(values[..upto]) <= TextLengths(values)
    decreases |values| - upto
  {
    if upto == |values| {
      assert values[..upto] == values;
    } else {
      assert values[..upto + 1][..upto] == values[..upto];
      TextLengthsGrow(values, upto + 1);
    }
  }

  // ---- the stack ---------------------------------------------------------------------------------

  datatype Entry = Entry(value: Value, depth: nat)

  /** A stack entry with the tree it stands for. */
  datatype Plot = Plot(tree: Tree, depth: nat)

  /** Whether a tree's branches are everywhere the children `kids` gives. */
  predicate Grown(kids: Value -> seq<Value>, tree: Tree)
    decreases tree
  {
    && |tree.kids| == |kids(tree.value)|
    && forall k :: 0 <= k < |tree.kids| ==> tree.kids[k].value == kids(tree.value)[k] && Grown(kids, tree.kids[k])
  }

  lemma {:induction false} TreeIsGrown(value: Value)
    ensures TreeOf(value).value == value && Grown(Kids, TreeOf(value))
    decreases Weight(value), 0, 0
  {
    KidsAreLighter(value);
    TreesAreGrown(Kids(value));
  }

  lemma {:induction false} TreesAreGrown(values: seq<Value>)
    ensures forall k :: 0 <= k < |values| ==> TreesOf(values)[k].value == values[k] && Grown(Kids, TreesOf(values)[k])
    decreases Weights(values), 1, |values|
  {
    if values != [] {
      TreeIsGrown(values[0]);
      TreesAreGrown(values[1..]);
    }
  }

  function PlotTotal(f: Value -> nat, plots: seq<Plot>): nat {
    if plots == [] then 0 else PlotTotal(f, plots[..|plots| - 1]) + Total(f, plots[|plots| - 1].tree)
  }

  predicate PlotsOk(ok: Value -> bool, plots: seq<Plot>) {
    forall k :: 0 <= k < |plots| ==> All(ok, plots[k].tree)
  }

  predicate PlotsWithin(plots: seq<Plot>) {
    forall k :: 0 <= k < |plots| ==> Within(plots[k].tree, DEPTH_MAX - plots[k].depth)
  }

  predicate PlotsGrown(kids: Value -> seq<Value>, plots: seq<Plot>) {
    forall k :: 0 <= k < |plots| ==> Grown(kids, plots[k].tree)
  }

  function Planted(plots: seq<Plot>, trees: seq<Tree>, depth: nat): seq<Plot> {
    plots + seq(|trees|, k requires 0 <= k < |trees| => Plot(trees[k], depth))
  }

  /** What is left of the plots when the top one gives way to its branches. */
  function Descended(plots: seq<Plot>): seq<Plot>
    requires plots != []
  {
    var top := plots[|plots| - 1];
    Planted(plots[..|plots| - 1], top.tree.kids, top.depth + 1)
  }

  lemma {:induction false} TotalsSplitLast(f: Value -> nat, trees: seq<Tree>)
    requires trees != []
    ensures Totals(f, trees) == Totals(f, trees[..|trees| - 1]) + Total(f, trees[|trees| - 1])
  {
    if |trees| == 1 {
      assert trees[..0] == [];
    } else {
      TotalsSplitLast(f, trees[1..]);
      assert trees[1..][..|trees| - 2] == trees[..|trees| - 1][1..];
    }
  }

  lemma {:induction false} PlantingTotals(f: Value -> nat, plots: seq<Plot>, trees: seq<Tree>, depth: nat)
    ensures PlotTotal(f, Planted(plots, trees, depth)) == PlotTotal(f, plots) + Totals(f, trees)
    decreases |trees|
  {
    var planted := Planted(plots, trees, depth);
    if trees == [] {
      assert planted == plots;
    } else {
      PlantingTotals(f, plots, trees[..|trees| - 1], depth);
      TotalsSplitLast(f, trees);
      assert planted[..|planted| - 1] == Planted(plots, trees[..|trees| - 1], depth);
    }
  }

  lemma TopTotal(f: Value -> nat, plots: seq<Plot>)
    requires plots != []
    ensures var top := plots[|plots| - 1].tree;
            PlotTotal(f, plots) == PlotTotal(f, plots[..|plots| - 1]) + f(top.value) + Totals(f, top.kids)
  {}

  /** Descending takes the top schema's own share off a total. */
  lemma DescendTotal(f: Value -> nat, plots: seq<Plot>, below: seq<Plot>, top: Plot, next: seq<Plot>)
    requires plots != [] && below == plots[..|plots| - 1] && top == plots[|plots| - 1]
    requires next == Planted(below, top.tree.kids, top.depth + 1)
    ensures PlotTotal(f, plots) == f(top.tree.value) + PlotTotal(f, next)
  {
    TopTotal(f, plots);
    PlantingTotals(f, below, top.tree.kids, top.depth + 1);
  }

  /** Descending splits a rule over all plots into the top schema's own and the rest. */
  lemma DescendRules(ok: Value -> bool, plots: seq<Plot>)
    requires plots != []
    ensures PlotsOk(ok, plots) <==> ok(plots[|plots| - 1].tree.value) && PlotsOk(ok, Descended(plots))
  {
    var top, next, n := plots[|plots| - 1], Descended(plots), |plots| - 1;
    assert forall k :: 0 <= k < n ==> next[k] == plots[k];
    assert forall k :: 0 <= k < |top.tree.kids| ==> next[n + k].tree == top.tree.kids[k];
  }

  lemma DescendWithin(plots: seq<Plot>)
    requires plots != []
    ensures PlotsWithin(plots) <==> plots[|plots| - 1].depth <= DEPTH_MAX && PlotsWithin(Descended(plots))
  {
    var top, next, n := plots[|plots| - 1], Descended(plots), |plots| - 1;
    assert forall k :: 0 <= k < n ==> next[k] == plots[k];
    assert forall k :: 0 <= k < |top.tree.kids| ==> next[n + k] == Plot(top.tree.kids[k], top.depth + 1);
  }

  lemma DescendGrown(kids: Value -> seq<Value>, plots: seq<Plot>)
    requires plots != [] && PlotsGrown(kids, plots)
    ensures PlotsGrown(kids, Descended(plots))
  {
    var top, next, n := plots[|plots| - 1], Descended(plots), |plots| - 1;
    assert forall k :: 0 <= k < n ==> next[k] == plots[k];
    assert forall k :: 0 <= k < |top.tree.kids| ==> next[n + k].tree == top.tree.kids[k];
  }

  /** Each plot holds at least one schema. */
  lemma {:induction false} PlotsCount(plots: seq<Plot>)
    ensures |plots| <= PlotTotal(One, plots)
  {
    if plots != [] {
      PlotsCount(plots[..|plots| - 1]);
    }
  }

  /** Whether the stack is what the plots stand for. */
  predicate Matches(pending: seq<Entry>, plots: seq<Plot>) {
    |pending| == |plots|
    && forall k :: 0 <= k < |plots| ==> pending[k] == Entry(plots[k].tree.value, plots[k].depth)
  }

  /**
    What the walk checks of one schema, as values: the reasoning about the stack holds for any rules,
    and never looks inside them.
   */
  datatype Rules = Rules(
    ok: Value -> bool,
    once: Value -> bool,
    kids: Value -> seq<Value>,
    properties: Value -> nat,
    enums: Value -> nat,
    chars: Value -> nat)

  function PolicyRules(): Rules {
    Rules(LocalOk, KeysOnce, Kids, PropertyCount, EnumCount, CharCount)
  }

  /** How much of each total is left to count, and whether what is left obeys the rules. */
  ghost predicate Left(r: Rules, tree: Tree, visited: nat, properties: nat, enums: nat, chars: nat, plots: seq<Plot>) {
    && Total(One, tree) == visited + PlotTotal(One, plots)
    && Total(r.properties, tree) == properties + PlotTotal(r.properties, plots)
    && Total(r.enums, tree) == enums + PlotTotal(r.enums, plots)
    && Total(r.chars, tree) == chars + PlotTotal(r.chars, plots)
    && (All(r.ok, tree) <==> PlotsOk(r.ok, plots))
    && (Within(tree, DEPTH_MAX) <==> PlotsWithin(plots))
    && PlotsOk(r.once, plots) && PlotsGrown(r.kids, plots)
  }

  /** What visiting the top schema leaves, when its own rules hold. */
  lemma Visit(r: Rules, tree: Tree, visited: nat, properties: nat, enums: nat, chars: nat, plots: seq<Plot>)
    requires plots != [] && Left(r, tree, visited, properties, enums, chars, plots)
    ensures var top := plots[|plots| - 1];
            var value := top.tree.value;
            && r.once(value) && Grown(r.kids, top.tree)
            && (r.ok(value) && top.depth <= DEPTH_MAX ==>
                  Left(r, tree, visited + 1, properties + r.properties(value), enums + r.enums(value),
                       chars + r.chars(value), Descended(plots)))
            && (All(r.ok, tree) ==> r.ok(value))
            && (Within(tree, DEPTH_MAX) ==> top.depth <= DEPTH_MAX)
            && visited + 1 + |Descended(plots)| <= Total(One, tree)
            && properties + r.properties(value) <= Total(r.properties, tree)
            && enums + r.enums(value) <= Total(r.enums, tree)
            && chars + r.chars(value) <= Total(r.chars, tree)
            && PlotTotal(One, Descended(plots)) < PlotTotal(One, plots)
  {
    var below, top, next := plots[..|plots| - 1], plots[|plots| - 1], Descended(plots);
    DescendTotal(One, plots, below, top, next);
    DescendTotal(r.properties, plots, below, top, next);
    DescendTotal(r.enums, plots, below, top, next);
    DescendTotal(r.chars, plots, below, top, next);
    DescendRules(r.ok, plots);
    DescendRules(r.once, plots);
    DescendWithin(plots);
    DescendGrown(r.kids, plots);
    PlotsCount(Descended(plots));
  }

  lemma Start(r: Rules, tree: Tree)
    requires All(r.once, tree) && Grown(r.kids, tree)
    ensures Left(r, tree, 0, 0, 0, 0, [Plot(tree, 0)])
  {
    var plots := [Plot(tree, 0)];
    assert plots[..0] == [];
    OneTotal(One, plots);
    OneTotal(r.properties, plots);
    OneTotal(r.enums, plots);
    OneTotal(r.chars, plots);
  }

  lemma OneTotal(f: Value -> nat, plots: seq<Plot>)
    requires |plots| == 1
    ensures PlotTotal(f, plots) == Total(f, plots[0].tree)
  {
    assert PlotTotal(f, plots[..0]) == 0;
  }

  lemma PropertiesAreKids(value: Value)
    ensures |PropertyNames(value)| <= |Kids(value)|
  {}

  /** The rules are the policy's; said so that only the policy's own functions bring it up. */
  ghost predicate ArePolicy(r: Rules) {
    && (forall v {:trigger LocalOk(v)} :: r.ok(v) <==> LocalOk(v))
    && (forall v {:trigger KeysOnce(v)} :: r.once(v) <==> KeysOnce(v))
    && (forall v {:trigger Kids(v)} :: r.kids(v) == Kids(v))
    && (forall v {:trigger PropertyCount(v)} :: r.properties(v) == PropertyCount(v))
    && (forall v {:trigger EnumCount(v)} :: r.enums(v) == EnumCount(v))
    && (forall v {:trigger CharCount(v)} :: r.chars(v) == CharCount(v))
  }

  /** Checks one schema's own rules in the walk's order, counting it, and gives its children. */
  method CheckNode(value: Value, counts: Counts) returns (children: Option<seq<Value>>)
    requires counts.Bounded() && KeysOnce(value)
    modifies counts
    ensures children.Some? <==>
              && LocalOk(value) && |Kids(value)| <= NODES_MAX
              && old(counts.properties) + PropertyCount(value) <= PROPERTIES_MAX
              && old(counts.enums) + EnumCount(value) <= ENUMS_MAX
              && old(counts.stringChars) + CharCount(value) <= STRING_CHARS_MAX
    ensures children.Some? ==>
              && children.value == Kids(value) && counts.Bounded()
              && counts.properties == old(counts.properties) + PropertyCount(value)
              && counts.enums == old(counts.enums) + EnumCount(value)
              && counts.stringChars == old(counts.stringChars) + CharCount(value)
  {
    PropertiesAreKids(value);
    if !value.Obj? || !TypesOk(value) {
      return None;
    }
    var counted := counts.Observe(value);
    if !counted || !KeysOk(value) {
      return None;
    }
    if NeedsObject(value) {
      var strict := ObjectSchema(value);
      if !strict {
        return None;
      }
    }
    children := ChildrenOf(value);
  }

  /** The same check, said in terms of the rules. */
  method CheckRules(value: Value, counts: Counts, ghost r: Rules) returns (children: Option<seq<Value>>)
    requires ArePolicy(r) && counts.Bounded() && r.once(value)
    modifies counts
    ensures children.Some? <==>
              && r.ok(value) && |r.kids(value)| <= NODES_MAX
              && old(counts.properties) + r.properties(value) <= PROPERTIES_MAX
              && old(counts.enums) + r.enums(value) <= ENUMS_MAX
              && old(counts.stringChars) + r.chars(value) <= STRING_CHARS_MAX
    ensures children.Some? ==>
              && children.value == r.kids(value) && counts.Bounded()
              && counts.properties == old(counts.properties) + r.properties(value)
              && counts.enums == old(counts.enums) + r.enums(value)
              && counts.stringChars == old(counts.stringChars) + r.chars(value)
  {
    assert KeysOnce(value);
    children := CheckNode(value, counts);
  }

  /** What the walk decides about a tree. */
  predicate Fits(r: Rules, tree: Tree) {
    && All(r.ok, tree) && Within(tree, DEPTH_MAX)
    && Total(One, tree) <= NODES_MAX && Total(r.properties, tree) <= PROPERTIES_MAX
    && Total(r.enums, tree) <= ENUMS_MAX && Total(r.chars, tree) <= STRING_CHARS_MAX
  }

  /** Whether the walk goes on past the top schema, with `below` schemas under it on the stack. */
  predicate GoesOn(r: Rules, visited: nat, properties: nat, enums: nat, chars: nat, top: Plot, below: nat) {
    var value := top.tree.value;
    && visited + 1 <= NODES_MAX && top.depth <= DEPTH_MAX
    && r.ok(value) && |r.kids(value)| <= NODES_MAX
    && properties + r.properties(value) <= PROPERTIES_MAX
    && enums + r.enums(value) <= ENUMS_MAX
    && chars + r.chars(value) <= STRING_CHARS_MAX
    && below + |r.kids(value)| <= NODES_MAX
  }

  /** Going on leaves less to check; not going on means the tree does not fit. */
  lemma GoingOnDecides(r: Rules, tree: Tree, visited: nat, properties: nat, enums: nat, chars: nat, plots: seq<Plot>)
    requires plots != [] && Left(r, tree, visited, properties, enums, chars, plots)
    ensures var top := plots[|plots| - 1];
            var value := top.tree.value;
            && r.once(value)
            && (GoesOn(r, visited, properties, enums, chars, top, |plots| - 1) ==>
                  && Left(r, tree, visited + 1, properties + r.properties(value), enums + r.enums(value),
                          chars + r.chars(value), Descended(plots))
                  && PlotTotal(One, Descended(plots)) < PlotTotal(One, plots))
            && (!GoesOn(r, visited, properties, enums, chars, top, |plots| - 1) ==> !Fits(r, tree))
  {
    Visit(r, tree, visited, properties, enums, chars, plots);
    TopKids(r, plots);
  }

  lemma TopKids(r: Rules, plots: seq<Plot>)
    requires plots != [] && PlotsGrown(r.kids, plots)
    ensures |Descended(plots)| == |plots| - 1 + |r.kids(plots[|plots| - 1].tree.value)|
    ensures Grown(r.kids, plots[|plots| - 1].tree)
  {}

  lemma NothingLeft(r: Rules, tree: Tree, visited: nat, properties: nat, enums: nat, chars: nat)
    requires Left(r, tree, visited, properties, enums, chars, [])
    requires visited <= NODES_MAX && properties <= PROPERTIES_MAX && enums <= ENUMS_MAX && chars <= STRING_CHARS_MAX
    ensures Fits(r, tree)
  {}

  /** One turn of the walk: takes the top schema, and either refuses or leaves its children in its place. */
  method Take(pending: seq<Entry>, visited: nat, counts: Counts, ghost r: Rules, ghost top: Plot)
    returns (next: Option<seq<Entry>>)
    requires pending != [] && pending[|pending| - 1] == Entry(top.tree.value, top.depth)
    requires ArePolicy(r) && counts.Bounded() && r.once(top.tree.value)
    modifies counts
    ensures next.Some?
         <==> GoesOn(r, visited, old(counts.properties), old(counts.enums), old(counts.stringChars), top, |pending| - 1)
    ensures next.Some? ==>
              && next.value == Pushed(pending[..|pending| - 1], r.kids(top.tree.value), top.depth + 1)
              && counts.Bounded()
              && counts.properties == old(counts.properties) + r.properties(top.tree.value)
              && counts.enums == old(counts.enums) + r.enums(top.tree.value)
              && counts.stringChars == old(counts.stringChars) + r.chars(top.tree.value)
  {
    var entry, rest := pending[|pending| - 1], pending[..|pending| - 1];
    if NODES_MAX < visited + 1 || DEPTH_MAX < entry.depth {
      return None;
    }
    var children := CheckRules(entry.value, counts, r);
    if children.None? {
      return None;
    }
    if NODES_MAX < |rest| + |children.value| {
      return None;
    }
    return Some(Pushed(rest, children.value, entry.depth + 1));
  }

  /** The walk over one tree, when all of it is left to check. */
  method Walk(root: Value, ghost r: Rules, ghost tree: Tree) returns (ok: bool)
    requires ArePolicy(r) && tree.value == root && Left(r, tree, 0, 0, 0, 0, [Plot(tree, 0)])
    ensures ok <==> Fits(r, tree)
  {
    var pending := [Entry(root, 0)];
    var visited: nat := 0;
    var counts := new Counts();
    ghost var plots := [Plot(tree, 0)];
    while pending != []
      invariant counts.Bounded() && visited <= NODES_MAX && fresh(counts)
      invariant Matches(pending, plots)
      invariant Left(r, tree, visited, counts.properties, counts.enums, counts.stringChars, plots)
      decreases PlotTotal(One, plots)
    {
      GoingOnDecides(r, tree, visited, counts.properties, counts.enums, counts.stringChars, plots);
      TopKids(r, plots);
      Descends(r, pending, plots);
      var next := Take(pending, visited, counts, r, plots[|plots| - 1]);
      if next.None? {
        return false;
      }
      pending, visited, plots := next.value, visited + 1, Descended(plots);
    }
    assert plots == [];
    NothingLeft(r, tree, visited, counts.properties, counts.enums, counts.stringChars);
    return true;
  }

  /** Pushes children in order, one level down. */
  function Pushed(stack: seq<Entry>, children: seq<Value>, depth: nat): seq<Entry> {
    stack + seq(|children|, k requires 0 <= k < |children| => Entry(children[k], depth))
  }

  lemma Descends(r: Rules, pending: seq<Entry>, plots: seq<Plot>)
    requires plots != [] && Matches(pending, plots) && Grown(r.kids, plots[|plots| - 1].tree)
    ensures var top := pending[|pending| - 1];
            Matches(Pushed(pending[..|pending| - 1], r.kids(top.value), top.depth + 1), Descended(plots))
  {}

  lemma StartPolicy(root: Value)
    requires All(KeysOnce, TreeOf(root))
    ensures ArePolicy(PolicyRules()) && TreeOf(root).value == root
    ensures Left(PolicyRules(), TreeOf(root), 0, 0, 0, 0, [Plot(TreeOf(root), 0)])
    ensures RootOk(root) ==> (Fits(PolicyRules(), TreeOf(root)) <==> Accepts(root))
  {
    TreeIsGrown(root);
    Start(PolicyRules(), TreeOf(root));
  }

  /**
    The bounded walk. It accepts exactly the schemas the tree predicate accepts: every bound on the
    way — on the nodes visited, on the depth, on the stack and on one node's children — refuses only
    a tree that is itself too large, and the walk always ends.
   */
  method Schema(root: Value, sized: bool) returns (ok: bool)
    requires All(KeysOnce, TreeOf(root))
    ensures ok <==> sized && Accepts(root)
  {
    if !sized || !RootOk(root) {
      return false;
    }
    StartPolicy(root);
    ok := Walk(root, PolicyRules(), TreeOf(root));
  }
}
