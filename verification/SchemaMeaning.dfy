/** What the schema policy accepts, said of the JSON itself: every place in it, and the rules at each. */
module SchemaMeaning {
  import opened Wrappers
  import opened SchemaPolicy

  // ---- the members of an object ------------------------------------------------------------------------

  /** `value` is an object whose first member of this name is `child`. */
  predicate Has(value: Value, key: string, child: Value) {
    value.Obj? && exists k :: 0 <= k < |value.fields| && FirstAt(value.fields, k, key) && value.fields[k].value == child
  }

  predicate FirstAt(fields: seq<Field>, k: nat, key: string)
    requires k < |fields|
  {
    fields[k].key == key && forall j :: 0 <= j < k ==> fields[j].key != key
  }

  predicate Names(value: Value, key: string) {
    value.Obj? && exists k :: 0 <= k < |value.fields| && value.fields[k].key == key
  }

  lemma {:induction false} LookupIsFirst(fields: seq<Field>, key: string)
    ensures match Lookup(fields, key)
            case Some(child) => exists k :: 0 <= k < |fields| && FirstAt(fields, k, key) && fields[k].value == child
            case None => forall k :: 0 <= k < |fields| ==> fields[k].key != key
  {
    if fields != [] {
      if fields[0].key == key {
        assert FirstAt(fields, 0, key);
      } else {
        LookupIsFirst(fields[1..], key);
        assert forall k :: 1 <= k < |fields| ==> fields[k] == fields[1..][k - 1];
        if Lookup(fields[1..], key).Some? {
          var k :| 0 <= k < |fields| - 1 && FirstAt(fields[1..], k, key)
                   && fields[1..][k].value == Lookup(fields, key).value;
          assert FirstAt(fields, k + 1, key);
        }
      }
    }
  }

  /** Looking a name up finds its first member, and nothing exactly when there is none. */
  lemma GetIsTheMember(value: Value, key: string)
    ensures match Get(value, key)
            case Some(found) => Names(value, key) && forall child :: Has(value, key, child) <==> child == found
            case None => !Names(value, key) && forall child :: !Has(value, key, child)
  {
    if value.Obj? {
      LookupIsFirst(value.fields, key);
      if Get(value, key).Some? {
        forall child ensures Has(value, key, child) <==> child == Get(value, key).value {
          FirstIsOne(value.fields, key, child);
        }
      }
    }
  }

  lemma FirstIsOne(fields: seq<Field>, key: string, child: Value)
    requires Lookup(fields, key).Some?
    ensures (exists k :: 0 <= k < |fields| && FirstAt(fields, k, key) && fields[k].value == child)
            <==> child == Lookup(fields, key).value
  {
    LookupIsFirst(fields, key);
    var i :| 0 <= i < |fields| && FirstAt(fields, i, key) && fields[i].value == Lookup(fields, key).value;
    assert forall k :: 0 <= k < |fields| && FirstAt(fields, k, key) ==> k == i;
  }

  // ---- places ------------------------------------------------------------------------------------------

  /** A place directly inside a schema: a property, the items, or an alternative. */
  datatype Place = Property(k: nat) | Items | Alternative(k: nat)

  /** `child` is the schema at this place. */
  predicate Inside(value: Value, place: Place, child: Value) {
    match place
    case Items => Has(value, "items", child)
    case Property(k) =>
      && Get(value, "properties").Some? && Get(value, "properties").value.Obj?
      && k < |Get(value, "properties").value.fields| && Get(value, "properties").value.fields[k].value == child
    case Alternative(k) =>
      && Get(value, "anyOf").Some? && Get(value, "anyOf").value.Arr?
      && k < |Get(value, "anyOf").value.items| && Get(value, "anyOf").value.items[k] == child
  }

  function PropertiesIn(value: Value): nat {
    match Get(value, "properties")
    case Some(Obj(fields)) => |fields|
    case _ => 0
  }

  function AlternativesIn(value: Value): nat {
    match Get(value, "anyOf")
    case Some(Arr(items)) => |items|
    case _ => 0
  }

  /** Where among its children the walk takes the schema at a place. */
  function Rank(value: Value, place: Place): nat {
    match place
    case Property(k) => k
    case Items => PropertiesIn(value)
    case Alternative(k) => PropertiesIn(value) + (if Names(value, "items") then 1 else 0) + k
  }

  function PlaceOf(value: Value, rank: nat): Place {
    var properties, items := PropertiesIn(value), if Names(value, "items") then 1 else 0;
    if rank < properties then Property(rank)
    else if rank < properties + items then Items
    else Alternative(rank - properties - items)
  }

  /** The children the walk takes are the schemas directly inside, each at its rank, and no others. */
  lemma KidsAreInside(value: Value)
    ensures forall place, child :: Inside(value, place, child) ==>
              Rank(value, place) < |Kids(value)| && Kids(value)[Rank(value, place)] == child
    ensures forall k :: 0 <= k < |Kids(value)| ==>
              Inside(value, PlaceOf(value, k), Kids(value)[k]) && Rank(value, PlaceOf(value, k)) == k
  {
    GetIsTheMember(value, "items");
  }

  /** A child is directly inside exactly when the walk takes it. */
  lemma KidsExactly(value: Value, child: Value)
    ensures child in Kids(value) <==> exists place :: Inside(value, place, child)
  {
    KidsAreInside(value);
    if child in Kids(value) {
      var k :| 0 <= k < |Kids(value)| && Kids(value)[k] == child;
      assert Inside(value, PlaceOf(value, k), child);
    }
  }

  /** `value` is reached from `root` by a path of places. */
  ghost predicate Reaches(root: Value, path: seq<Place>, value: Value)
    decreases |path|
  {
    if path == [] then value == root
    else exists child :: Inside(root, path[0], child) && Reaches(child, path[1..], value)
  }

  lemma TreesAreOfKids(values: seq<Value>)
    ensures forall k :: 0 <= k < |values| ==> TreesOf(values)[k] == TreeOf(values[k])
    decreases |values|
  {
    if values != [] {
      TreesAreOfKids(values[1..]);
    }
  }

  lemma KidTrees(value: Value)
    ensures |TreeOf(value).kids| == |Kids(value)| && TreeOf(value).value == value
    ensures forall k :: 0 <= k < |Kids(value)| ==> TreeOf(value).kids[k] == TreeOf(Kids(value)[k])
  {
    TreesAreOfKids(Kids(value));
  }

  ghost predicate Passes(checked: (Value, int) -> bool) {
    forall v, d, place, child :: checked(v, d) && Inside(v, place, child) ==> checked(child, d - 1)
  }

  /** What passes from a schema to each one directly inside it, a level deeper, passes along any path. */
  lemma {:induction false} PathInduction(
      checked: (Value, int) -> bool, root: Value, depth: int, path: seq<Place>, value: Value)
    requires checked(root, depth) && Reaches(root, path, value) && Passes(checked)
    ensures checked(value, depth - |path|)
    decreases |path|
  {
    if path != [] {
      var child :| Inside(root, path[0], child) && Reaches(child, path[1..], value);
      PathInduction(checked, child, depth - 1, path[1..], value);
    }
  }

  /** That a tree is checked, as a property of its root and the depth left to it. */
  function Checked(ok: Value -> bool): (Value, int) -> bool {
    (v: Value, d: int) => All(ok, TreeOf(v)) && Within(TreeOf(v), d)
  }

  lemma CheckedPassesOn(ok: Value -> bool, v: Value, d: int, place: Place, child: Value)
    requires Checked(ok)(v, d) && Inside(v, place, child)
    ensures Checked(ok)(child, d - 1)
  {
    InsideIsChecked(ok, v, d, place, child);
  }

  lemma CheckedPasses(ok: Value -> bool)
    ensures Passes(Checked(ok))
  {
    forall v, d, place, child | Checked(ok)(v, d) && Inside(v, place, child) ensures Checked(ok)(child, d - 1) {
      CheckedPassesOn(ok, v, d, place, child);
    }
  }

  /** What holds of a whole tree holds at every place in it, within the depth. */
  lemma EveryPlaceIsChecked(ok: Value -> bool, root: Value, depth: int, path: seq<Place>, value: Value)
    requires Checked(ok)(root, depth) && Reaches(root, path, value)
    ensures ok(value) && |path| <= depth
  {
    CheckedPasses(ok);
    PathInduction(Checked(ok), root, depth, path, value);
    CheckedAtTop(ok, value, depth - |path|);
  }

  lemma CheckedAtTop(ok: Value -> bool, v: Value, d: int)
    requires Checked(ok)(v, d)
    ensures ok(v) && 0 <= d
  {
    TopIsChecked(ok, v, d);
  }

  lemma TopIsChecked(ok: Value -> bool, root: Value, depth: int)
    requires All(ok, TreeOf(root)) && Within(TreeOf(root), depth)
    ensures ok(root) && 0 <= depth
  {}

  lemma InsideIsChecked(ok: Value -> bool, root: Value, depth: int, place: Place, child: Value)
    requires All(ok, TreeOf(root)) && Within(TreeOf(root), depth) && Inside(root, place, child)
    ensures All(ok, TreeOf(child)) && Within(TreeOf(child), depth - 1)
  {
    KidTrees(root);
    KidsAreInside(root);
    assert TreeOf(root).kids[Rank(root, place)] == TreeOf(child);
  }

  ghost predicate Everywhere(ok: Value -> bool, root: Value, depth: int) {
    forall path, value :: Reaches(root, path, value) ==> ok(value) && |path| <= depth
  }

  lemma EverywhereBelow(ok: Value -> bool, root: Value, depth: int, place: Place, child: Value)
    requires Everywhere(ok, root, depth) && Inside(root, place, child)
    ensures Everywhere(ok, child, depth - 1)
  {
    forall path, value | Reaches(child, path, value)
      ensures ok(value) && |path| <= depth - 1
    {
      var longer := [place] + path;
      assert longer[0] == place && longer[1..] == path;
      assert Reaches(root, longer, value);
    }
  }

  lemma {:induction false} CheckedEverywhere(ok: Value -> bool, root: Value, depth: int)
    requires Everywhere(ok, root, depth)
    ensures All(ok, TreeOf(root)) && Within(TreeOf(root), depth)
    decreases Weight(root)
  {
    assert Reaches(root, [], root);
    KidTrees(root);
    KidsAreInside(root);
    KidsAreLighter(root);
    forall k | 0 <= k < |Kids(root)|
      ensures All(ok, TreeOf(Kids(root)[k])) && Within(TreeOf(Kids(root)[k]), depth - 1)
    {
      EverywhereBelow(ok, root, depth, PlaceOf(root, k), Kids(root)[k]);
      OneIsLighter(Kids(root), k);
      CheckedEverywhere(ok, Kids(root)[k], depth - 1);
    }
  }

  lemma {:induction false} OneIsLighter(values: seq<Value>, k: nat)
    requires k < |values|
    ensures Weight(values[k]) <= Weights(values)
  {
    if k != 0 {
      OneIsLighter(values[1..], k - 1);
    }
  }

  // ---- the rules at one place ----------------------------------------------------------------------------

  /** The schema names this type, alone or in a list. */
  ghost predicate Declares(value: Value, name: string) {
    Has(value, "type", Str(name)) || exists items :: Has(value, "type", Arr(items)) && Str(name) in items
  }

  const TYPES: set<string> := {"object", "array", "string", "number", "integer", "boolean", "null"}

  predicate NamesAType(value: Value) {
    value.Str? && value.text in TYPES
  }

  /** The type is one name, or up to seven different ones; it may be absent beside alternatives. */
  ghost predicate TypeRule(value: Value) {
    && (!Names(value, "type") ==> Names(value, "anyOf"))
    && (forall kind :: Has(value, "type", kind) ==>
          || NamesAType(kind)
          || (&& kind.Arr? && 1 <= |kind.items| <= 7 && (forall item <- kind.items :: NamesAType(item))
              && forall i, j :: 0 <= i < j < |kind.items| ==> kind.items[i] != kind.items[j]))
  }

  /** An object is closed, and requires each of its properties by name, exactly once. */
  ghost predicate ObjectRule(value: Value) {
    Declares(value, "object") || Names(value, "properties") ==>
      && Has(value, "additionalProperties", Bool(false))
      && exists fields, required :: Has(value, "properties", Obj(fields)) && Has(value, "required", Arr(required))
                                    && RequiresExactly(fields, required)
  }

  predicate RequiresExactly(fields: seq<Field>, required: seq<Value>) {
    (forall k :: 0 <= k < |required| ==> required[k].Str?)
    && multiset(Texts(required)) == multiset(Keys(fields))
  }

  /** Only an object has members of its own, and an array and nothing else has items. */
  ghost predicate ShapeRule(value: Value) {
    && (Names(value, "properties") || Names(value, "required") || Names(value, "additionalProperties") ==>
          Declares(value, "object"))
    && (Declares(value, "array") <==> Names(value, "items"))
    && (forall text :: Has(value, "title", text) ==> text.Str?)
    && (forall text :: Has(value, "description", text) ==> text.Str?)
    && (forall choices :: Has(value, "anyOf", choices) ==> choices.Arr? && choices.items != [])
  }

  /** An enumerated value is a plain one of a declared type. */
  ghost predicate Fits(schema: Value, value: Value) {
    || (value == Null && Declares(schema, "null"))
    || (value.Bool? && Declares(schema, "boolean"))
    || (value.Str? && Declares(schema, "string"))
    || (value.Number? && (Declares(schema, "number") || (value.isInteger && Declares(schema, "integer"))))
  }

  /** An enumeration is not empty, has no value twice, and only values of the declared types. */
  ghost predicate EnumRule(value: Value) {
    forall values :: Has(value, "enum", values) ==>
      && values.Arr? && values.items != []
      && (forall i, j :: 0 <= i < j < |values.items| ==> values.items[i] != values.items[j])
      && (forall item <- values.items :: Fits(value, item))
      && (250 < |values.items| ==> TextLengths(values.items) <= 15_000)
  }

  const KEYS: set<string> :=
    {"type", "description", "title", "properties", "required", "additionalProperties", "items", "anyOf", "enum"}

  /** Every rule of one schema, said of its members. No other name may appear in it, so no reference. */
  ghost predicate Strict(value: Value) {
    && value.Obj? && (forall k :: 0 <= k < |value.fields| ==> value.fields[k].key in KEYS)
    && TypeRule(value) && ShapeRule(value) && ObjectRule(value) && EnumRule(value)
  }

  lemma DeclaresIsIncludes(value: Value, name: string)
    ensures Declares(value, name) <==> IncludesType(value, name)
  {
    GetIsTheMember(value, "type");
  }

  lemma KindIsTypeRule(value: Value)
    ensures KindOk(value) <==> TypeRule(value)
  {
    GetIsTheMember(value, "type");
    GetIsTheMember(value, "anyOf");
    match Get(value, "type")
    case Some(kind) => OneKind(kind);
    case None =>
  }

  lemma KnownIsNamed(value: Value)
    ensures KnownType(value) <==> NamesAType(value)
  {}

  /** The kind of type a schema gives: the rule on it, said two ways. */
  lemma OneKind(kind: Value)
    ensures (match kind
             case Str(text) => KnownType(Str(text))
             case Arr(items) =>
               0 < |items| <= 7 && (forall k :: 0 <= k < |items| ==> KnownType(items[k])) && Distinct(items)
             case _ => false)
            <==>
            || NamesAType(kind)
            || (&& kind.Arr? && 1 <= |kind.items| <= 7 && (forall item <- kind.items :: NamesAType(item))
                && forall i, j :: 0 <= i < j < |kind.items| ==> kind.items[i] != kind.items[j])
  {
    KnownIsNamed(kind);
    if kind.Arr? {
      forall k | 0 <= k < |kind.items| ensures KnownType(kind.items[k]) <==> NamesAType(kind.items[k]) {
        KnownIsNamed(kind.items[k]);
      }
    }
  }

  lemma StrictIsObjectRule(value: Value)
    ensures (NeedsObject(value) ==> StrictObject(value)) <==> ObjectRule(value)
  {
    DeclaresIsIncludes(value, "object");
    GetIsTheMember(value, "properties");
    GetIsTheMember(value, "required");
    GetIsTheMember(value, "additionalProperties");
    if StrictObject(value) {
      assert RequiresExactly(Get(value, "properties").value.fields, Get(value, "required").value.items);
    }
  }

  lemma FitsIsCompatible(schema: Value, value: Value)
    ensures Fits(schema, value) <==> Compatible(schema, value)
  {
    DeclaresIsIncludes(schema, "null");
    DeclaresIsIncludes(schema, "boolean");
    DeclaresIsIncludes(schema, "string");
    DeclaresIsIncludes(schema, "number");
    DeclaresIsIncludes(schema, "integer");
  }

  predicate EnumIsList(value: Value) {
    Get(value, "enum").Some? ==> Get(value, "enum").value.Arr? && Get(value, "enum").value.items != []
  }

  lemma EnumIsEnumRule(value: Value)
    ensures EnumIsList(value) && EnumOk(value) <==> EnumRule(value)
  {
    GetIsTheMember(value, "enum");
    if EnumIsList(value) && Get(value, "enum").Some? {
      var items := Get(value, "enum").value.items;
      forall item | item in items ensures Fits(value, item) <==> Compatible(value, item) {
        FitsIsCompatible(value, item);
      }
    }
  }

  lemma ShapeIsShapeRule(value: Value)
    ensures ShapeRule(value) <==>
            && IsText(Get(value, "title")) && IsText(Get(value, "description"))
            && (Get(value, "properties").Some? ==> IncludesType(value, "object"))
            && (Get(value, "required").Some? ==> IncludesType(value, "object"))
            && (Get(value, "additionalProperties").Some? ==> IncludesType(value, "object"))
            && (IncludesType(value, "array") <==> Get(value, "items").Some?)
            && (Get(value, "anyOf").Some? ==> Get(value, "anyOf").value.Arr? && Get(value, "anyOf").value.items != [])
  {
    TextIsText(value, "title");
    TextIsText(value, "description");
    NamedIsThere(value, "properties");
    NamedIsThere(value, "required");
    NamedIsThere(value, "additionalProperties");
    NamedIsThere(value, "items");
    ChoicesAreChoices(value);
    DeclaresIsIncludes(value, "object");
    DeclaresIsIncludes(value, "array");
  }

  lemma TextIsText(value: Value, key: string)
    ensures IsText(Get(value, key)) <==> forall text :: Has(value, key, text) ==> text.Str?
  {
    GetIsTheMember(value, key);
  }

  lemma NamedIsThere(value: Value, key: string)
    ensures Names(value, key) <==> Get(value, key).Some?
  {
    GetIsTheMember(value, key);
  }

  lemma ChoicesAreChoices(value: Value)
    ensures (Get(value, "anyOf").Some? ==> Get(value, "anyOf").value.Arr? && Get(value, "anyOf").value.items != [])
            <==> forall choices :: Has(value, "anyOf", choices) ==> choices.Arr? && choices.items != []
  {
    GetIsTheMember(value, "anyOf");
  }

  /** The rules the walk checks at one node are exactly these. */
  lemma LocalIsStrict(value: Value)
    ensures LocalOk(value) <==> Strict(value)
  {
    KindIsTypeRule(value);
    ShapeIsShapeRule(value);
    StrictIsObjectRule(value);
    EnumIsEnumRule(value);
    if ObjectRule(value) {
      GetIsTheMember(value, "properties");
    }
  }

  /** What one schema adds to the totals: its property names and its enumerated values. */
  lemma NodesCount(value: Value)
    ensures forall fields :: Has(value, "properties", Obj(fields)) ==>
              PropertyCount(value) == |fields| && PropertyNames(value) == Keys(fields)
    ensures forall values :: Has(value, "enum", Arr(values)) ==>
              EnumCount(value) == |values| && EnumValues(value) == values
    ensures !Names(value, "properties") ==> PropertyCount(value) == 0 && PropertyNames(value) == []
    ensures !Names(value, "enum") ==> EnumCount(value) == 0 && EnumValues(value) == []
    ensures CharCount(value) == Lengths(PropertyNames(value)) + TextLengths(EnumValues(value))
  {
    GetIsTheMember(value, "properties");
    GetIsTheMember(value, "enum");
  }

  // ---- what is accepted ----------------------------------------------------------------------------------

  ghost predicate WithinCeilings(root: Value) {
    var tree := TreeOf(root);
    && Total(One, tree) <= 16_384 && Total(PropertyCount, tree) <= 5_000
    && Total(EnumCount, tree) <= 1_000 && Total(CharCount, tree) <= 120_000
  }

  /** Every schema reached from `root` obeys the rules, and none lies more than nine places down. */
  ghost predicate StrictInside(root: Value) {
    forall path, value :: Reaches(root, path, value) ==> Strict(value) && |path| <= 9
  }

  /**
    A schema is accepted exactly when its root is a plain object schema, every schema reached from it
    by properties, items and alternatives obeys the rules and lies at most nine places down, and the
    totals are within their ceilings.
   */
  lemma AcceptsExactly(root: Value)
    ensures Accepts(root) <==>
            && Has(root, "type", Str("object")) && !Names(root, "anyOf")
            && StrictInside(root) && WithinCeilings(root)
  {
    RootIsPlain(root);
    StrictEverywhere(root);
    assert Accepts(root) <==> RootOk(root) && Checked(LocalOk)(root, 9) && WithinCeilings(root);
  }

  lemma RootIsPlain(root: Value)
    ensures RootOk(root) <==> Has(root, "type", Str("object")) && !Names(root, "anyOf")
  {
    GetIsTheMember(root, "type");
    GetIsTheMember(root, "anyOf");
  }

  lemma StrictEverywhere(root: Value)
    ensures Checked(LocalOk)(root, 9) <==> StrictInside(root)
  {
    if Checked(LocalOk)(root, 9) {
      PathsAreStrict(root);
    }
    if StrictInside(root) {
      StrictPassesTheWalk(root);
    }
  }

  lemma PathsAreStrict(root: Value)
    requires Checked(LocalOk)(root, 9)
    ensures StrictInside(root)
  {
    forall path, value | Reaches(root, path, value) ensures Strict(value) && |path| <= 9 {
      EveryPlaceIsChecked(LocalOk, root, 9, path, value);
      LocalIsStrict(value);
    }
  }

  lemma StrictPassesTheWalk(root: Value)
    requires StrictInside(root)
    ensures Checked(LocalOk)(root, 9)
  {
    forall path, value | Reaches(root, path, value) ensures LocalOk(value) && |path| <= 9 {
      LocalIsStrict(value);
    }
    CheckedEverywhere(LocalOk, root, 9);
  }
}
