/** The strict function-schema policy: a bounded walk over a schema tree with an explicit stack. */
module SchemaPolicy {
  import opened Wrappers

  const NODES_MAX: nat := 16_384
  const DEPTH_MAX: nat := 9
  const PROPERTIES_MAX: nat := 5_000
  const ENUMS_MAX: nat := 1_000
  const STRING_CHARS_MAX: nat := 120_000
  const LARGE_ENUM_VALUES: nat := 250
  const LARGE_ENUM_CHARS_MAX: nat := 15_000

  datatype Value =
    | Null
    | Bool(value: bool)
    | Number(isInteger: bool, digits: string)
    | Str(text: string)
    | Arr(items: seq<Value>)
    | Obj(fields: seq<Field>)

  datatype Field = Field(key: string, value: Value)

  function Lookup(fields: seq<Field>, key: string): Option<Value> {
    if fields == [] then None
    else if fields[0].key == key then Some(fields[0].value)
    else Lookup(fields[1..], key)
  }

  function Get(value: Value, key: string): Option<Value> {
    if value.Obj? then Lookup(value.fields, key) else None
  }

  function Keys(fields: seq<Field>): seq<string> {
    seq(|fields|, k requires 0 <= k < |fields| => fields[k].key)
  }

  function Values(fields: seq<Field>): seq<Value> {
    seq(|fields|, k requires 0 <= k < |fields| => fields[k].value)
  }

  // ---- the rules of one node -------------------------------------------------------------------

  predicate KnownType(value: Value) {
    value.Str? && value.text in ["object", "array", "string", "number", "integer", "boolean", "null"]
  }

  predicate IncludesType(value: Value, name: string) {
    var kind := Get(value, "type");
    kind.Some? && (kind.value == Str(name) || (kind.value.Arr? && Str(name) in kind.value.items))
  }

  predicate KindOk(value: Value) {
    match Get(value, "type")
    case None => Get(value, "anyOf").Some?
    case Some(Str(text)) => KnownType(Str(text))
    case Some(Arr(items)) =>
      0 < |items| <= 7 && (forall k :: 0 <= k < |items| ==> KnownType(items[k])) && Distinct(items)
    case Some(_) => false
  }

  predicate IsText(value: Option<Value>) {
    value.None? || value.value.Str?
  }

  predicate TypesOk(value: Value) {
    && KindOk(value)
    && IsText(Get(value, "title")) && IsText(Get(value, "description"))
    && (Get(value, "enum").Some? ==> Get(value, "enum").value.Arr? && Get(value, "enum").value.items != [])
    && (Get(value, "properties").Some? ==> IncludesType(value, "object"))
    && (Get(value, "required").Some? ==> IncludesType(value, "object"))
    && (Get(value, "additionalProperties").Some? ==> IncludesType(value, "object"))
    && (IncludesType(value, "array") <==> Get(value, "items").Some?)
  }

  predicate KnownKey(key: string) {
    key in ["type", "description", "title", "properties", "required", "additionalProperties", "items", "anyOf", "enum"]
  }

  predicate KeysOk(value: Value) {
    value.Obj? && forall k :: 0 <= k < |value.fields| ==> KnownKey(value.fields[k].key)
  }

  predicate NeedsObject(value: Value) {
    IncludesType(value, "object") || Get(value, "properties").Some?
  }

  /** The names an object schema requires, when they are all strings. */
  function Texts(items: seq<Value>): seq<string>
    requires forall k :: 0 <= k < |items| ==> items[k].Str?
  {
    seq(|items|, k requires 0 <= k < |items| => items[k].text)
  }

  /** A strict object: closed, and requiring exactly its properties, each once. */
  predicate StrictObject(value: Value) {
    var properties, required := Get(value, "properties"), Get(value, "required");
    && properties.Some? && properties.value.Obj?
    && required.Some? && required.value.Arr?
    && Get(value, "additionalProperties") == Some(Bool(false))
    && (forall k :: 0 <= k < |required.value.items| ==> required.value.items[k].Str?)
    && multiset(Texts(required.value.items)) == multiset(Keys(properties.value.fields))
  }

  predicate ChildrenOk(value: Value) {
    && (Get(value, "properties").Some? ==> Get(value, "properties").value.Obj?)
    && (Get(value, "anyOf").Some? ==> Get(value, "anyOf").value.Arr? && Get(value, "anyOf").value.items != [])
  }

  /** The schemas directly inside a schema: its properties, then its items, then its alternatives. */
  function Kids(value: Value): seq<Value> {
    var properties, items, anyOf := Get(value, "properties"), Get(value, "items"), Get(value, "anyOf");
    (if properties.Some? && properties.value.Obj? then Values(properties.value.fields) else [])
    + (if items.Some? then [items.value] else [])
    + (if anyOf.Some? && anyOf.value.Arr? then anyOf.value.items else [])
  }

  // ---- what one node counts --------------------------------------------------------------------

  function Lengths(names: seq<string>): nat {
    if names == [] then 0 else Lengths(names[..|names| - 1]) + |names[|names| - 1]|
  }

  function TextLength(value: Value): nat {
    if value.Str? then |value.text| else 0
  }

  function TextLengths(values: seq<Value>): nat {
    if values == [] then 0 else TextLengths(values[..|values| - 1]) + TextLength(values[|values| - 1])
  }

  function PropertyNames(value: Value): seq<string> {
    var properties := Get(value, "properties");
    if properties.Some? && properties.value.Obj? then Keys(properties.value.fields) else []
  }

  function EnumValues(value: Value): seq<Value> {
    var values := Get(value, "enum");
    if values.Some? && values.value.Arr? then values.value.items else []
  }

  function PropertyCount(value: Value): nat { |PropertyNames(value)| }
  function EnumCount(value: Value): nat { |EnumValues(value)| }
  function CharCount(value: Value): nat { Lengths(PropertyNames(value)) + TextLengths(EnumValues(value)) }
  function One(value: Value): nat { 1 }

  predicate Compatible(schema: Value, value: Value) {
    match value
    case Null => IncludesType(schema, "null")
    case Bool(_) => IncludesType(schema, "boolean")
    case Str(_) => IncludesType(schema, "string")
    case Number(isInteger, _) => IncludesType(schema, "number") || (isInteger && IncludesType(schema, "integer"))
    case _ => false
  }

  predicate EnumOk(schema: Value) {
    var values := EnumValues(schema);
    && Distinct(values)
    && (forall k :: 0 <= k < |values| ==> Compatible(schema, values[k]))
    && (LARGE_ENUM_VALUES < |values| ==> TextLengths(values) <= LARGE_ENUM_CHARS_MAX)
  }

  /** Every rule a node must satisfy on its own. */
  predicate LocalOk(value: Value) {
    KeysOk(value) && TypesOk(value) && EnumOk(value) && (NeedsObject(value) ==> StrictObject(value))
      && ChildrenOk(value)
  }

  // ---- how large a value is --------------------------------------------------------------------

  function Weight(value: Value): nat
    decreases value
  {
    match value
    case Arr(items) => 1 + Weights(items)
    case Obj(fields) => 1 + FieldWeights(fields)
    case _ => 1
  }

  function Weights(items: seq<Value>): nat
    decreases items
  {
    if items == [] then 0 else Weight(items[0]) + Weights(items[1..])
  }

  function FieldWeights(fields: seq<Field>): nat
    decreases fields
  {
    if fields == [] then 0 else Weight(fields[0].value) + FieldWeights(fields[1..])
  }

  function FoundWeight(found: Option<Value>): nat {
    if found.Some? then Weight(found.value) else 0
  }

  lemma {:induction false} WeightsConcat(a: seq<Value>, b: seq<Value>)
    ensures Weights(a + b) == Weights(a) + Weights(b)
  {
    if a == [] {
      assert a + b == b;
    } else {
      WeightsConcat(a[1..], b);
      assert (a + b)[1..] == a[1..] + b;
    }
  }

  lemma {:induction false} ThreeFields(fields: seq<Field>, x: string, y: string, z: string)
    requires x != y && y != z && x != z
    ensures FoundWeight(Lookup(fields, x)) + FoundWeight(Lookup(fields, y)) + FoundWeight(Lookup(fields, z))
            <= FieldWeights(fields)
  {
    if fields != [] {
      ThreeFields(fields[1..], x, y, z);
    }
  }

  lemma {:induction false} ValuesWeigh(fields: seq<Field>)
    ensures Weights(Values(fields)) == FieldWeights(fields)
  {
    if fields != [] {
      ValuesWeigh(fields[1..]);
      assert Values(fields)[1..] == Values(fields[1..]);
    }
  }

  lemma KidsAreLighter(value: Value)
    ensures Weights(Kids(value)) < Weight(value)
  {
    if value.Obj? {
      var properties, items, anyOf := Get(value, "properties"), Get(value, "items"), Get(value, "anyOf");
      DistinctKeys();
      ThreeFields(value.fields, "properties", "items", "anyOf");
      var a := if properties.Some? && properties.value.Obj? then Values(properties.value.fields) else [];
      var b := if items.Some? then [items.value] else [];
      var c := if anyOf.Some? && anyOf.value.Arr? then anyOf.value.items else [];
      if properties.Some? && properties.value.Obj? {
        ValuesWeigh(properties.value.fields);
      }
      WeightsConcat(a + b, c);
      WeightsConcat(a, b);
    } else {
      assert Kids(value) == [];
    }
  }

  lemma DistinctKeys()
    ensures "properties" != "items" && "items" != "anyOf" && "properties" != "anyOf"
  {
    assert |"properties"| != |"items"| && |"properties"| != |"anyOf"|;
    assert "items"[0] != "anyOf"[0];
  }

  // ---- the tree ------------------------------------------------------------------------------------

  /** A schema and the trees of the schemas directly inside it. */
  datatype Tree = Tree(value: Value, kids: seq<Tree>)

  function TreeOf(value: Value): Tree
    decreases Weight(value), 0, 0
  {
    KidsAreLighter(value);
    Tree(value, TreesOf(Kids(value)))
  }

  function TreesOf(values: seq<Value>): (trees: seq<Tree>)
    ensures |trees| == |values|
    decreases Weights(values), 1, |values|
  {
    if values == [] then [] else [TreeOf(values[0])] + TreesOf(values[1..])
  }

  /** The sum of `f` over every schema of a tree. */
  function Total(f: Value -> nat, tree: Tree): nat
    decreases tree
  {
    f(tree.value) + Totals(f, tree.kids)
  }

  function Totals(f: Value -> nat, trees: seq<Tree>): nat
    decreases trees
  {
    if trees == [] then 0 else Total(f, trees[0]) + Totals(f, trees[1..])
  }

  /** Whether every schema of a tree satisfies `ok`. */
  predicate All(ok: Value -> bool, tree: Tree)
    decreases tree
  {
    ok(tree.value) && forall k :: 0 <= k < |tree.kids| ==> All(ok, tree.kids[k])
  }

  /** Whether no schema lies more than `depth` levels below the tree's root. */
  predicate Within(tree: Tree, depth: int)
    decreases tree
  {
    0 <= depth && forall k :: 0 <= k < |tree.kids| ==> Within(tree.kids[k], depth - 1)
  }

  predicate RootOk(root: Value) {
    Get(root, "type") == Some(Str("object")) && Get(root, "anyOf").None?
  }

  /** What the policy accepts, as a property of the whole tree. */
  predicate Accepts(root: Value) {
    var tree := TreeOf(root);
    && RootOk(root) && All(LocalOk, tree) && Within(tree, DEPTH_MAX)
    && Total(One, tree) <= NODES_MAX
    && Total(PropertyCount, tree) <= PROPERTIES_MAX
    && Total(EnumCount, tree) <= ENUMS_MAX
    && Total(CharCount, tree) <= STRING_CHARS_MAX
  }

  /** JSON objects never repeat a key; this says so of a schema's properties. */
  predicate KeysOnce(value: Value) {
    Distinct(PropertyNames(value))
  }
}
