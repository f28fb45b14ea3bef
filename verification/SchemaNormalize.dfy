/**
 The rewriting of a caller's schema into the strict form that model providers accept: objects are
 closed and require all their keys, and optional values become nullable.
 */
module SchemaNormalize {
  import opened Json
  import opened SchemaValidity
  import opened KeyOrder

  const OPTION_KEYWORDS: seq<string> := ["anyOf", "oneOf", "allOf"]

  function WithNull(t: Json): Json {
    match t
    case Arr(names) => if Str("null") in names then t else Arr(names + [Str("null")])
    case _ => if t == Str("null") then t else Arr([t, Str("null")])
  }

  predicate IsObjectNode(m: Fields) {
    Get(m, "type") == Str("object") || "properties" in m
  }

  predicate IsArrayNode(m: Fields) {
    !IsObjectNode(m) && Get(m, "type") == Str("array")
  }

  function KeyList(props: Fields): Json {
    var keys := SortedKeys(props.Keys);
    Arr(seq(|keys|, i requires 0 <= i < |keys| => Str(keys[i])))
  }

  /** The node after the keywords of an object node have been rewritten, around given children. */
  function Closed(m: Fields, props: Fields, nullable: bool): Fields {
    m["type" := if nullable then WithNull(Str("object")) else Str("object")]
     ["additionalProperties" := Bool(false)]
     ["required" := KeyList(props)]
     ["properties" := Obj(props)]
  }

  /** The normalised form of a schema node. */
  function Normal(node: Json, nullable: bool): Json
    decreases node, 0
  {
    if !node.Obj? then node
    else
      var m := node.fields;
      if IsObjectNode(m) then
        if "properties" in m && m["properties"].Obj? then
          Obj(Closed(m, NormalProperties(m["properties"]), nullable))
        else node
      else if IsArrayNode(m) then
        var m1 := if nullable then m["type" := WithNull(Str("array"))] else m;
        if "items" in m then Obj(m1["items" := Normal(m["items"], false)]) else Obj(m1)
      else
        var m1 := map k | k in m :: if k in OPTION_KEYWORDS then NormalOptions(m[k]) else m[k];
        if nullable && "type" in m then Obj(m1["type" := WithNull(m["type"])]) else Obj(m1)
  }

  function NormalProperties(props: Json): (r: Fields)
    requires props.Obj?
    ensures r.Keys == props.fields.Keys
    decreases props, 1
  {
    map k | k in props.fields :: Normal(props.fields[k], true)
  }

  function NormalOptions(options: Json): Json
    decreases options, 1
  {
    if options.Arr?
    then Arr(seq(|options.items|, i requires 0 <= i < |options.items| => Normal(options.items[i], false)))
    else options
  }

  // ---------------------------------------------------------------- meaning

  predicate AdmitsObjects(m: Fields) {
    "type" in m ==> TypeAllows(m["type"], Obj(map[]))
  }

  predicate RequiresDeclared(m: Fields) {
    "required" in m ==> m["required"].Arr? && HasRequired(m["required"].items, PropertyNames(m))
  }

  /**
   The schemas whose strict form means no more than they do, read along the nodes that are visited:
   a node with properties admits objects and requires declared names only, and alternatives of which
   exactly one must hold are in strict form already or exclude each other.
   */
  ghost predicate Faithful(extra: Extra, node: Json)
    decreases node, 0
  {
    node.Obj? ==>
      var m := node.fields;
      if IsObjectNode(m) then
        "properties" in m && m["properties"].Obj? ==>
          && AdmitsObjects(m)
          && RequiresDeclared(m)
          && forall k | k in m["properties"].fields :: Faithful(extra, m["properties"].fields[k])
      else if IsArrayNode(m) then
        "items" in m ==> Faithful(extra, m["items"])
      else
        && (forall k | k in m && k in OPTION_KEYWORDS :: FaithfulOptions(extra, m[k]))
        && ("oneOf" in m ==> OptionsInForm(m["oneOf"]) || ExclusiveOptions(extra, m["oneOf"]))
  }

  ghost predicate FaithfulOptions(extra: Extra, options: Json)
    decreases options, 1
  {
    options.Arr? ==> forall i :: 0 <= i < |options.items| ==> Faithful(extra, options.items[i])
  }

  /** No two of the alternatives accept the value. */
  predicate ExclusiveAt(extra: Extra, options: Json, v: Json) {
    options.Arr? ==>
      forall i, j :: 0 <= i < j < |options.items| ==>
        !Valid(extra, options.items[i], v) || !Valid(extra, options.items[j], v)
  }

  /** The caller's alternatives exclude each other on values without nulls. */
  ghost predicate ExclusiveOptions(extra: Extra, options: Json) {
    forall v :: NullFree(v) ==> ExclusiveAt(extra, options, v)
  }

  /**
   Soundness of the strict form: a value without nulls that a provider produced for the strict form
   is valid for the caller's own schema.
   */
  lemma {:induction false} NormalIsSound(extra: Extra, node: Json, nullable: bool, v: Json)
    requires Faithful(extra, node) && NullFree(v)
    requires Valid(extra, Normal(node, nullable), v)
    ensures Valid(extra, node, v)
    decreases node, 2
  {
    if node.Obj? {
      var m := node.fields;
      if IsObjectNode(m) {
        if "properties" in m && m["properties"].Obj? {
          ObjectIsSound(extra, m, nullable, v);
        }
      } else if IsArrayNode(m) {
        ArrayIsSound(extra, m, nullable, v);
      } else {
        OptionsAreSound(extra, m, nullable, v);
      }
    }
  }

  lemma {:induction false} ObjectIsSound(extra: Extra, m: Fields, nullable: bool, v: Json)
    requires "properties" in m && m["properties"].Obj?
    requires Faithful(extra, Obj(m)) && NullFree(v)
    requires Valid(extra, Normal(Obj(m), nullable), v)
    ensures Valid(extra, Obj(m), v)
    decreases Obj(m), 1
  {
    var props := m["properties"].fields;
    var strict := NormalProperties(m["properties"]);
    var n := Closed(m, strict, nullable);
    assert Normal(Obj(m), nullable) == Obj(n);
    StrictObject(extra, m, strict, nullable, v);
    forall k | k in props && k in v.fields ensures Valid(extra, props[k], v.fields[k]) {
      NormalIsSound(extra, props[k], true, v.fields[k]);
    }
    ClosedJudgement(extra, m, n, v);
  }

  /** Whether the caller's object node accepts what the closed node `n` accepts. */
  lemma ClosedJudgement(extra: Extra, m: Fields, n: Fields, v: Json)
    requires "properties" in m && m["properties"].Obj?
    requires Agree(m, n, {"type", "properties", "required", "additionalProperties"})
    requires v.Obj? && v.fields.Keys == m["properties"].fields.Keys
    requires PropertiesHold(extra, m["properties"], v) && Valid(extra, Obj(n), v)
    ensures Valid(extra, Obj(m), v) <==>
            AdmitsObjects(m) && RequiresDeclared(m)
  {
    RestHolds(extra, m, n, {"type", "properties", "required", "additionalProperties"}, v);
    if "type" in m { ObjectType(m["type"], v); }
  }

  /** The two nodes have the same keywords outside `changed`, which names structural ones. */
  ghost predicate Agree(m: Fields, n: Fields, changed: set<string>) {
    && changed <= STRUCTURAL
    && forall k :: k !in changed ==> (k in m <==> k in n) && (k in m ==> n[k] == m[k])
  }

  /** The keywords two nodes share judge a value alike. */
  lemma RestHolds(extra: Extra, m: Fields, n: Fields, changed: set<string>, v: Json)
    requires Agree(m, n, changed) && Valid(extra, Obj(n), v)
    ensures "items" !in changed && "items" in m ==> ItemsHold(extra, m["items"], v)
    ensures "allOf" !in changed && "allOf" in m ==> AllHold(extra, m["allOf"], v)
    ensures "anyOf" !in changed && "anyOf" in m ==> AnyHolds(extra, m["anyOf"], v)
    ensures "oneOf" !in changed && "oneOf" in m ==> OneHolds(extra, m["oneOf"], v)
    ensures OthersHold(extra, m, v)
  {
    assert OthersHold(extra, n, v);
  }

  lemma ObjectType(t: Json, v: Json)
    requires v.Obj?
    ensures TypeAllows(t, v) == TypeAllows(t, Obj(map[]))
  {
    assert forall name :: HasType(name, Obj(map[])) == HasType(name, v);
  }

  /** A value without nulls that fits a closed node is an object with exactly the declared keys. */
  lemma StrictObject(extra: Extra, m: Fields, props: Fields, nullable: bool, v: Json)
    requires Valid(extra, Obj(Closed(m, props, nullable)), v) && !v.Null?
    ensures v.Obj? && v.fields.Keys == props.Keys
    ensures forall k | k in props :: Valid(extra, props[k], v.fields[k])
  {
    var n := Closed(m, props, nullable);
    assert TypeAllows(n["type"], v);
    assert v.Obj?;
    RequiresAll(props, v.fields.Keys);
    assert AdditionalHold(extra, PropertyNames(n), n["additionalProperties"], v);
    assert n["additionalProperties"] == Bool(false) && PropertyNames(n) == props.Keys;
    assert PropertiesHold(extra, n["properties"], v);
  }

  /** The list of all keys requires all of them. */
  lemma RequiresAll(props: Fields, keys: set<string>)
    requires HasRequired(KeyList(props).items, keys)
    ensures props.Keys <= keys
  {
    var names := SortedKeys(props.Keys);
    forall k | k in props ensures k in keys {
      assert k in names;
      var i :| 0 <= i < |names| && names[i] == k;
      assert KeyList(props).items[i] == Str(k);
    }
  }

  lemma {:induction false} ArrayIsSound(extra: Extra, m: Fields, nullable: bool, v: Json)
    requires IsArrayNode(m)
    requires Faithful(extra, Obj(m)) && NullFree(v)
    requires Valid(extra, Normal(Obj(m), nullable), v)
    ensures Valid(extra, Obj(m), v)
    decreases Obj(m), 1
  {
    var n := Normal(Obj(m), nullable).fields;
    if "items" in m && v.Arr? {
      assert ItemsHold(extra, n["items"], v);
      forall i | 0 <= i < |v.items| ensures Valid(extra, m["items"], v.items[i]) {
        NormalIsSound(extra, m["items"], false, v.items[i]);
      }
    }
    assert Agree(m, n, {"type", "items"});
    RestHolds(extra, m, n, {"type", "items"}, v);
  }

  lemma {:induction false} OptionsAreSound(extra: Extra, m: Fields, nullable: bool, v: Json)
    requires !IsObjectNode(m) && !IsArrayNode(m)
    requires Faithful(extra, Obj(m)) && NullFree(v)
    requires Valid(extra, Normal(Obj(m), nullable), v)
    ensures Valid(extra, Obj(m), v)
    decreases Obj(m), 1
  {
    var n := Normal(Obj(m), nullable).fields;
    OptionNode(m, nullable);
    OptionsJudgement(extra, m, n, nullable, v);
    if "oneOf" in m {
      assert OneHolds(extra, NormalOptions(m["oneOf"]), v);
      if OptionsInForm(m["oneOf"]) {
        OptionsFixed(m["oneOf"]);
      } else {
        AnyIsSound(extra, m["oneOf"], v);
        assert ExclusiveAt(extra, m["oneOf"], v);
      }
    }
  }

  /** Only exclusive alternatives can make a node with faithful alternatives reject the value. */
  lemma {:induction false} OptionsJudgement(extra: Extra, m: Fields, n: Fields, nullable: bool, v: Json)
    requires Agree(m, n, {"type", "anyOf", "allOf", "oneOf"}) && n.Keys == m.Keys
    requires "type" in m ==> n["type"] == if nullable then WithNull(m["type"]) else m["type"]
    requires forall k | k in m && k in OPTION_KEYWORDS :: n[k] == NormalOptions(m[k]) && FaithfulOptions(extra, m[k])
    requires NullFree(v) && Valid(extra, Obj(n), v)
    requires !IsObjectNode(m)
    ensures Valid(extra, Obj(m), v) <==> ("oneOf" in m ==> OneHolds(extra, m["oneOf"], v))
    decreases Obj(m), 0
  {
    RestHolds(extra, m, n, {"type", "anyOf", "allOf", "oneOf"}, v);
    if "type" in m && nullable { NullableType(m["type"], v); }
    if "anyOf" in m { AnyIsSound(extra, m["anyOf"], v); }
    if "allOf" in m { AllIsSound(extra, m["allOf"], v); }
  }

  /** What normalising does to a node of alternatives. */
  lemma OptionNode(m: Fields, nullable: bool)
    requires !IsObjectNode(m) && !IsArrayNode(m)
    ensures var n := Normal(Obj(m), nullable).fields;
            && n.Keys == m.Keys && !IsObjectNode(n) && !IsArrayNode(n)
            && Agree(m, n, {"type", "anyOf", "allOf", "oneOf"})
            && ("type" in m ==> n["type"] == if nullable then WithNull(m["type"]) else m["type"])
            && forall k | k in m && k in OPTION_KEYWORDS :: n[k] == NormalOptions(m[k])
  {
  }

  lemma {:induction false} AnyIsSound(extra: Extra, options: Json, v: Json)
    requires FaithfulOptions(extra, options) && NullFree(v)
    requires AnyHolds(extra, NormalOptions(options), v)
    ensures AnyHolds(extra, options, v)
    decreases options, 3
  {
    var strict := NormalOptions(options).items;
    var i :| 0 <= i < |strict| && Valid(extra, strict[i], v);
    NormalIsSound(extra, options.items[i], false, v);
  }

  lemma {:induction false} AllIsSound(extra: Extra, options: Json, v: Json)
    requires FaithfulOptions(extra, options) && NullFree(v)
    requires AllHold(extra, NormalOptions(options), v)
    ensures AllHold(extra, options, v)
    decreases options, 3
  {
    var strict := NormalOptions(options).items;
    forall i | 0 <= i < |options.items| ensures Valid(extra, options.items[i], v) {
      assert Valid(extra, strict[i], v);
      NormalIsSound(extra, options.items[i], false, v);
    }
  }

  lemma NullableType(t: Json, v: Json)
    requires TypeAllows(WithNull(t), v) && !v.Null?
    ensures TypeAllows(t, v)
  {
    var names := WithNull(t);
    if t.Arr? && Str("null") !in t.items {
      var i :| 0 <= i < |names.items| && names.items[i].Str? && HasType(names.items[i].s, v);
      assert names.items[i] == t.items[i];
    }
  }

  // ---------------------------------------------------------------- nulls

  /** The schemas whose object nodes meet the guard and that offer no choice, along the nodes that are visited. */
  predicate Guarded(node: Json)
    decreases node, 0
  {
    node.Obj? ==>
      var m := node.fields;
      if IsObjectNode(m) then
        "properties" in m && m["properties"].Obj? ==>
          && AdmitsObjects(m) && RequiresDeclared(m)
          && forall k | k in m["properties"].fields :: Guarded(m["properties"].fields[k])
      else if IsArrayNode(m) then
        "items" in m ==> Guarded(m["items"])
      else
        "anyOf" !in m && "oneOf" !in m && ("allOf" in m ==> GuardedOptions(m["allOf"]))
  }

  predicate GuardedOptions(options: Json)
    decreases options, 1
  {
    options.Arr? ==> forall i :: 0 <= i < |options.items| ==> Guarded(options.items[i])
  }

  /** A null stands only where the caller's own node accepts it. */
  predicate NullsFit(extra: Extra, node: Json, v: Json)
    decreases node, 0
  {
    && (v.Null? ==> Valid(extra, node, Null))
    && (node.Obj? ==>
          var m := node.fields;
          if IsObjectNode(m) then
            "properties" in m && m["properties"].Obj? && v.Obj? ==>
              forall k | k in m["properties"].fields && k in v.fields ::
                NullsFit(extra, m["properties"].fields[k], v.fields[k])
          else if IsArrayNode(m) then
            "items" in m && v.Arr? ==> forall i :: 0 <= i < |v.items| ==> NullsFit(extra, m["items"], v.items[i])
          else
            "allOf" in m ==> NullsFitAll(extra, m["allOf"], v))
  }

  predicate NullsFitAll(extra: Extra, options: Json, v: Json)
    decreases options, 1
  {
    options.Arr? ==> forall i :: 0 <= i < |options.items| ==> NullsFit(extra, options.items[i], v)
  }

  /**
   With nulls soundness has an exact condition: a value that a provider produced for the strict form is
   valid for the caller's own schema if and only if a null stands only where that schema accepts one.
   */
  lemma {:induction false} NullsDecide(extra: Extra, node: Json, nullable: bool, v: Json)
    requires Guarded(node) && Valid(extra, Normal(node, nullable), v)
    ensures Valid(extra, node, v) <==> NullsFit(extra, node, v)
    decreases node, 2
  {
    if node.Obj? {
      var m := node.fields;
      if IsObjectNode(m) {
        if "properties" in m && m["properties"].Obj? && !v.Null? { NullsInObject(extra, m, nullable, v); }
      } else if IsArrayNode(m) {
        NullsInArray(extra, m, nullable, v);
      } else {
        NullsInAll(extra, m, nullable, v);
      }
    }
  }

  lemma {:induction false} NullsInObject(extra: Extra, m: Fields, nullable: bool, v: Json)
    requires "properties" in m && m["properties"].Obj? && !v.Null?
    requires Guarded(Obj(m)) && Valid(extra, Normal(Obj(m), nullable), v)
    ensures Valid(extra, Obj(m), v) <==> NullsFit(extra, Obj(m), v)
    decreases Obj(m), 1
  {
    var props := m["properties"].fields;
    var strict := NormalProperties(m["properties"]);
    var n := Closed(m, strict, nullable);
    StrictObject(extra, m, strict, nullable, v);
    forall k | k in props && k in v.fields
      ensures Valid(extra, props[k], v.fields[k]) <==> NullsFit(extra, props[k], v.fields[k])
    {
      NullsDecide(extra, props[k], true, v.fields[k]);
    }
    assert PropertiesHold(extra, m["properties"], v) <==> NullsFit(extra, Obj(m), v);
    if PropertiesHold(extra, m["properties"], v) { ClosedJudgement(extra, m, n, v); }
  }

  lemma {:induction false} NullsInArray(extra: Extra, m: Fields, nullable: bool, v: Json)
    requires IsArrayNode(m)
    requires Guarded(Obj(m)) && Valid(extra, Normal(Obj(m), nullable), v)
    ensures Valid(extra, Obj(m), v) <==> NullsFit(extra, Obj(m), v)
    decreases Obj(m), 1
  {
    var n := Normal(Obj(m), nullable).fields;
    if "items" in m && v.Arr? {
      assert ItemsHold(extra, n["items"], v);
      forall i | 0 <= i < |v.items|
        ensures Valid(extra, m["items"], v.items[i]) <==> NullsFit(extra, m["items"], v.items[i])
      {
        NullsDecide(extra, m["items"], false, v.items[i]);
      }
    }
    assert Agree(m, n, {"type", "items"});
    RestHolds(extra, m, n, {"type", "items"}, v);
    if nullable && !v.Null? { NullableType(m["type"], v); }
  }

  lemma {:induction false} NullsInAll(extra: Extra, m: Fields, nullable: bool, v: Json)
    requires !IsObjectNode(m) && !IsArrayNode(m)
    requires Guarded(Obj(m)) && Valid(extra, Normal(Obj(m), nullable), v)
    ensures Valid(extra, Obj(m), v) <==> NullsFit(extra, Obj(m), v)
    decreases Obj(m), 1
  {
    var n := Normal(Obj(m), nullable).fields;
    OptionNode(m, nullable);
    RestHolds(extra, m, n, {"type", "anyOf", "allOf", "oneOf"}, v);
    if "allOf" in m {
      assert OPTION_KEYWORDS[2] == "allOf";
      AllNulls(extra, m["allOf"], v);
    }
    if "type" in m && nullable && !v.Null? { NullableType(m["type"], v); }
  }

  lemma {:induction false} AllNulls(extra: Extra, options: Json, v: Json)
    requires GuardedOptions(options) && AllHold(extra, NormalOptions(options), v)
    ensures AllHold(extra, options, v) <==> NullsFitAll(extra, options, v)
    decreases options, 3
  {
    var strict := NormalOptions(options).items;
    forall i | 0 <= i < |options.items|
      ensures Valid(extra, options.items[i], v) <==> NullsFit(extra, options.items[i], v)
    {
      assert Valid(extra, strict[i], v);
      NullsDecide(extra, options.items[i], false, v);
    }
  }

  // ---------------------------------------------------------------- what the strict form admits

  /**
   The value has, at every closed object, exactly the declared keys; of alternatives, some valid one is
   filled in this way.
   */
  predicate Fills(extra: Extra, node: Json, v: Json)
    decreases node, 0
  {
    node.Obj? ==>
      var m := node.fields;
      if IsObjectNode(m) then
        "properties" in m && m["properties"].Obj? ==>
          && v.Obj? && v.fields.Keys == m["properties"].fields.Keys
          && forall k | k in m["properties"].fields && k in v.fields ::
               Fills(extra, m["properties"].fields[k], v.fields[k])
      else if IsArrayNode(m) then
        "items" in m && v.Arr? ==> forall i :: 0 <= i < |v.items| ==> Fills(extra, m["items"], v.items[i])
      else
        && ("anyOf" in m ==> FillsAny(extra, m["anyOf"], v))
        && ("allOf" in m ==> FillsAll(extra, m["allOf"], v))
        && ("oneOf" in m ==> OptionsInForm(m["oneOf"]))
  }

  predicate FillsAny(extra: Extra, options: Json, v: Json)
    decreases options, 1
  {
    options.Arr? ==>
      exists i :: 0 <= i < |options.items| && Valid(extra, options.items[i], v) && Fills(extra, options.items[i], v)
  }

  predicate FillsAll(extra: Extra, options: Json, v: Json)
    decreases options, 1
  {
    options.Arr? ==> forall i :: 0 <= i < |options.items| ==> Fills(extra, options.items[i], v)
  }

  /** The strict form loses nothing else: every valid value that fills the closed objects stays valid. */
  lemma {:induction false} NormalIsComplete(extra: Extra, node: Json, nullable: bool, v: Json)
    requires Valid(extra, node, v) && Fills(extra, node, v)
    ensures Valid(extra, Normal(node, nullable), v)
    decreases node, 2
  {
    if node.Obj? {
      var m := node.fields;
      if IsObjectNode(m) {
        if "properties" in m && m["properties"].Obj? { ObjectIsComplete(extra, m, nullable, v); }
      } else if IsArrayNode(m) {
        ArrayIsComplete(extra, m, nullable, v);
      } else {
        OptionNode(m, nullable);
        OptionsComplete(extra, m, Normal(node, nullable).fields, nullable, v);
      }
    }
  }

  lemma {:induction false} ObjectIsComplete(extra: Extra, m: Fields, nullable: bool, v: Json)
    requires "properties" in m && m["properties"].Obj?
    requires Valid(extra, Obj(m), v) && Fills(extra, Obj(m), v)
    ensures Valid(extra, Normal(Obj(m), nullable), v)
    decreases Obj(m), 1
  {
    var props := m["properties"].fields;
    var strict := NormalProperties(m["properties"]);
    var n := Closed(m, strict, nullable);
    forall k | k in strict && k in v.fields ensures Valid(extra, strict[k], v.fields[k]) {
      NormalIsComplete(extra, props[k], true, v.fields[k]);
    }
    assert Agree(n, m, {"type", "properties", "required", "additionalProperties"});
    ClosedFixed(m, strict, nullable);
    FilledClosed(extra, m, n, strict, nullable, v);
  }

  /** A closed node accepts the objects that fill it, when it keeps the other keywords of a valid node. */
  lemma FilledClosed(extra: Extra, m: Fields, n: Fields, strict: Fields, nullable: bool, v: Json)
    requires Agree(n, m, {"type", "properties", "required", "additionalProperties"})
    requires IsClosed(n, strict, nullable)
    requires v.Obj? && v.fields.Keys == strict.Keys && PropertiesHold(extra, Obj(strict), v)
    requires Valid(extra, Obj(m), v)
    ensures Valid(extra, Obj(n), v)
  {
    RestHolds(extra, n, m, {"type", "properties", "required", "additionalProperties"}, v);
    RequiresKeys(strict);
    ObjectOrNull(nullable, v);
  }

  lemma ObjectOrNull(nullable: bool, v: Json)
    requires v.Obj? || (nullable && v.Null?)
    ensures TypeAllows(if nullable then Arr([Str("object"), Str("null")]) else Str("object"), v)
  {
    var names := [Str("object"), Str("null")];
    assert names[0].s == "object" && names[1].s == "null";
  }

  lemma {:induction false} ArrayIsComplete(extra: Extra, m: Fields, nullable: bool, v: Json)
    requires IsArrayNode(m) && Valid(extra, Obj(m), v) && Fills(extra, Obj(m), v)
    ensures Valid(extra, Normal(Obj(m), nullable), v)
    decreases Obj(m), 1
  {
    var n := Normal(Obj(m), nullable).fields;
    if "items" in m && v.Arr? {
      forall i | 0 <= i < |v.items| ensures Valid(extra, n["items"], v.items[i]) {
        NormalIsComplete(extra, m["items"], false, v.items[i]);
      }
    }
    assert Agree(n, m, {"type", "items"});
    RestHolds(extra, n, m, {"type", "items"}, v);
    WithNullAdmits(m["type"], v);
  }

  /** Adding null to a type adds exactly the null value. */
  lemma WithNullAdmits(t: Json, v: Json)
    requires t.Str? || t.Arr?
    ensures TypeAllows(WithNull(t), v) <==> TypeAllows(t, v) || v.Null?
  {
    var u := WithNull(t);
    if TypeAllows(u, v) && !v.Null? { NullableType(t, v); }
    if t.Str? && t != Str("null") {
      assert u.items[0] == t && u.items[1] == Str("null");
    } else if t.Arr? {
      if TypeAllows(t, v) {
        var i :| 0 <= i < |t.items| && t.items[i].Str? && HasType(t.items[i].s, v);
        assert u.items[i] == t.items[i];
      }
      assert Str("null") in u.items by { assert u != t ==> u.items[|t.items|] == Str("null"); }
    }
  }

  lemma {:induction false} OptionsComplete(extra: Extra, m: Fields, n: Fields, nullable: bool, v: Json)
    requires Agree(n, m, {"type", "anyOf", "allOf", "oneOf"}) && n.Keys == m.Keys
    requires "type" in m ==> n["type"] == if nullable then WithNull(m["type"]) else m["type"]
    requires forall k | k in m && k in OPTION_KEYWORDS :: n[k] == NormalOptions(m[k])
    requires "anyOf" in m ==> FillsAny(extra, m["anyOf"], v)
    requires "allOf" in m ==> FillsAll(extra, m["allOf"], v)
    requires "oneOf" in m ==> OptionsInForm(m["oneOf"])
    requires Valid(extra, Obj(m), v) && !IsObjectNode(m)
    ensures Valid(extra, Obj(n), v)
    decreases Obj(m), 0
  {
    RestHolds(extra, n, m, {"type", "anyOf", "allOf", "oneOf"}, v);
    if "type" in m { WithNullAdmits(m["type"], v); }
    if "anyOf" in m { AnyIsComplete(extra, m["anyOf"], v); }
    if "allOf" in m { AllIsComplete(extra, m["allOf"], v); }
    if "oneOf" in m { OptionsFixed(m["oneOf"]); }
  }

  lemma {:induction false} AnyIsComplete(extra: Extra, options: Json, v: Json)
    requires AnyHolds(extra, options, v) && FillsAny(extra, options, v)
    ensures AnyHolds(extra, NormalOptions(options), v)
    decreases options, 3
  {
    var i :| 0 <= i < |options.items| && Valid(extra, options.items[i], v) && Fills(extra, options.items[i], v);
    NormalIsComplete(extra, options.items[i], false, v);
    assert Valid(extra, NormalOptions(options).items[i], v);
  }

  lemma {:induction false} AllIsComplete(extra: Extra, options: Json, v: Json)
    requires AllHold(extra, options, v) && FillsAll(extra, options, v)
    ensures AllHold(extra, NormalOptions(options), v)
    decreases options, 3
  {
    forall i | 0 <= i < |options.items| ensures Valid(extra, NormalOptions(options).items[i], v) {
      NormalIsComplete(extra, options.items[i], false, v);
    }
  }

  /**
   On the values without nulls that fill the closed objects, a faithful schema and its strict form mean
   the same.
   */
  lemma NormalPreservesMeaning(extra: Extra, schema: Json, v: Json)
    requires Faithful(extra, schema) && NullFree(v)
    requires Valid(extra, schema, v) ==> Fills(extra, schema, v)
    ensures Valid(extra, Normal(schema, false), v) <==> Valid(extra, schema, v)
  {
    if Valid(extra, schema, v) { NormalIsComplete(extra, schema, false, v); }
    if Valid(extra, Normal(schema, false), v) { NormalIsSound(extra, schema, false, v); }
  }

  /** The alternatives of a node accept the value. */
  predicate AlternativesHold(extra: Extra, n: Fields, v: Json) {
    && ("allOf" in n ==> AllHold(extra, n["allOf"], v))
    && ("anyOf" in n ==> AnyHolds(extra, n["anyOf"], v))
    && ("oneOf" in n ==> OneHolds(extra, n["oneOf"], v))
  }

  /**
   An optional value may be null: the strict form of a property accepts null if and only if its
   alternatives do, which are not made nullable, and no keyword outside the structural ones objects.  An
   object that declares no properties is left as it is and rejects null.
   */
  lemma NullAccepted(extra: Extra, m: Fields)
    requires "required" in m ==> m["required"].Arr?
    ensures var n := Normal(Obj(m), true);
            && n.Obj?
            && (Valid(extra, n, Null) <==>
                && (IsObjectNode(m) ==> "properties" in m && m["properties"].Obj?)
                && AlternativesHold(extra, n.fields, Null) && OthersHold(extra, m, Null))
  {
    var n := Normal(Obj(m), true).fields;
    if IsObjectNode(m) && !("properties" in m && m["properties"].Obj?) {
      OpenObjectRejectsNull(extra, m);
    } else {
      if IsObjectNode(m) { NullableObject(m); } else { NullableOther(m); }
      NullFits(extra, n, m);
    }
  }

  /** An object that declares no properties stays as it is, also where its value is optional. */
  lemma OpenObjectRejectsNull(extra: Extra, m: Fields)
    requires IsObjectNode(m) && !("properties" in m && m["properties"].Obj?)
    ensures Normal(Obj(m), true) == Obj(m) && !Valid(extra, Obj(m), Null)
  {
    if "properties" in m {
      assert !PropertiesHold(extra, m["properties"], Null);
    } else {
      assert "type" in m && m["type"] == Str("object");
      assert !TypeAllows(Str("object"), Null);
    }
  }

  lemma NullableOther(m: Fields)
    requires !IsObjectNode(m)
    ensures var n := Normal(Obj(m), true).fields;
            && ("type" in n ==> TypeAllows(n["type"], Null))
            && "properties" !in n && n.Keys == m.Keys
            && Agree(n, m, {"type", "items", "anyOf", "allOf", "oneOf"})
  {
    if "type" in m { WithNullTakesNull(m["type"]); }
    if !IsArrayNode(m) { OptionNode(m, true); }
  }

  lemma WithNullTakesNull(t: Json)
    ensures TypeAllows(WithNull(t), Null)
  {
    if t.Str? || t.Arr? { WithNullAdmits(t, Null); } else { assert WithNull(t).items[1] == Str("null"); }
  }

  lemma NullableObject(m: Fields)
    requires "properties" in m && m["properties"].Obj?
    ensures var n := Normal(Obj(m), true).fields;
            && IsClosed(n, NormalProperties(m["properties"]), true)
            && Agree(n, m, {"type", "properties", "required", "additionalProperties"})
            && TypeAllows(n["type"], Null)
  {
    ClosedFixed(m, NormalProperties(m["properties"]), true);
    ObjectOrNull(true, Null);
  }

  /** Only the type, the alternatives and the keywords that look at every value can reject null. */
  lemma NullFits(extra: Extra, n: Fields, m: Fields)
    requires "type" in n ==> TypeAllows(n["type"], Null)
    requires "properties" in n ==> n["properties"].Obj?
    requires "required" in n ==> n["required"].Arr?
    requires forall k | k !in STRUCTURAL :: (k in n <==> k in m) && (k in n ==> n[k] == m[k])
    ensures Valid(extra, Obj(n), Null) <==> AlternativesHold(extra, n, Null) && OthersHold(extra, m, Null)
  {
    assert OthersHold(extra, n, Null) == OthersHold(extra, m, Null);
  }

  /** A typed optional value with an alternative is not nullable: the alternative rejects null. */
  lemma AlternativeRejectsNull(extra: Extra)
    ensures var m := map["type" := Str("string"), "anyOf" := Arr([Obj(map["type" := Str("string")])])];
            var n := Normal(Obj(m), true);
            n.Obj? && Get(n.fields, "type") == Arr([Str("string"), Str("null")]) && !Valid(extra, n, Null)
  {
    var option := Obj(map["type" := Str("string")]);
    var m := map["type" := Str("string"), "anyOf" := Arr([option])];
    OptionNode(m, true);
    var n := Normal(Obj(m), true).fields;
    assert OPTION_KEYWORDS[0] == "anyOf";
    assert n["anyOf"] == NormalOptions(m["anyOf"]);
    assert Normal(option, false) == option;
    assert !Valid(extra, option, Null);
  }

  // ---------------------------------------------------------------- strict form

  predicate HasNull(t: Json) {
    t == Str("null") || (t.Arr? && Str("null") in t.items)
  }

  /** The schemas already in strict form. */
  predicate InForm(node: Json, nullable: bool)
    decreases node, 0
  {
    node.Obj? ==>
      var m := node.fields;
      if IsObjectNode(m) then
        "properties" in m && m["properties"].Obj? ==>
          var props := m["properties"].fields;
          && IsClosed(m, props, nullable)
          && forall k | k in props :: InForm(props[k], true)
      else if IsArrayNode(m) then
        !nullable && ("items" in m ==> InForm(m["items"], false))
      else
        && (forall k | k in m && k in OPTION_KEYWORDS :: OptionsInForm(m[k]))
        && (nullable && "type" in m ==> HasNull(m["type"]))
  }

  predicate OptionsInForm(options: Json)
    decreases options, 1
  {
    options.Arr? ==> forall i :: 0 <= i < |options.items| ==> InForm(options.items[i], false)
  }

  /** Normalising changes exactly the schemas that are not in strict form. */
  lemma {:induction false} FixedIffInForm(node: Json, nullable: bool)
    ensures Normal(node, nullable) == node <==> InForm(node, nullable)
    decreases node, 2
  {
    if node.Obj? {
      var m := node.fields;
      if IsObjectNode(m) {
        if "properties" in m && m["properties"].Obj? { FixedObject(m, nullable); }
      } else if IsArrayNode(m) {
        if "items" in m { FixedIffInForm(m["items"], false); }
        var n := Normal(node, nullable).fields;
        if nullable { assert n["type"] != m["type"]; }
        else if "items" in m && InForm(m["items"], false) { assert n == m; }
        else if "items" in m { assert n["items"] != m["items"]; }
      } else {
        FixedOptionNode(m, nullable);
      }
    }
  }

  lemma {:induction false} FixedObject(m: Fields, nullable: bool)
    requires "properties" in m && m["properties"].Obj?
    ensures Normal(Obj(m), nullable) == Obj(m) <==> InForm(Obj(m), nullable)
    decreases Obj(m), 1
  {
    var props := m["properties"].fields;
    var strict := NormalProperties(m["properties"]);
    forall k | k in props ensures strict[k] == props[k] <==> InForm(props[k], true) {
      FixedIffInForm(props[k], true);
    }
    ClosedFixed(m, strict, nullable);
    assert strict.Keys == props.Keys;
    assert strict == props <==> forall k | k in props :: strict[k] == props[k];
  }

  /** The node has the keywords that closing writes. */
  predicate IsClosed(n: Fields, props: Fields, nullable: bool) {
    && Get(n, "type") == (if nullable then Arr([Str("object"), Str("null")]) else Str("object"))
    && Get(n, "additionalProperties") == Bool(false)
    && Get(n, "required") == KeyList(props)
    && Get(n, "properties") == Obj(props)
  }

  lemma ClosedFixed(m: Fields, props: Fields, nullable: bool)
    ensures IsClosed(Closed(m, props, nullable), props, nullable)
    ensures Closed(m, props, nullable) == m <==> IsClosed(m, props, nullable)
  {
  }

  lemma {:induction false} FixedOptionNode(m: Fields, nullable: bool)
    requires !IsObjectNode(m) && !IsArrayNode(m)
    ensures Normal(Obj(m), nullable) == Obj(m) <==> InForm(Obj(m), nullable)
    decreases Obj(m), 1
  {
    var n := Normal(Obj(m), nullable).fields;
    forall k | k in m && k in OPTION_KEYWORDS
      ensures NormalOptions(m[k]) == m[k] <==> OptionsInForm(m[k])
    {
      OptionsFixed(m[k]);
    }
    if InForm(Obj(m), nullable) {
      assert n == m;
    } else if n == m {
      assert forall k | k in m && k in OPTION_KEYWORDS :: n[k] == NormalOptions(m[k]);
      assert false;
    }
  }

  lemma {:induction false} OptionsFixed(options: Json)
    ensures NormalOptions(options) == options <==> OptionsInForm(options)
    decreases options, 3
  {
    if options.Arr? {
      var strict := NormalOptions(options).items;
      forall i | 0 <= i < |options.items|
        ensures strict[i] == options.items[i] <==> InForm(options.items[i], false)
      {
        FixedIffInForm(options.items[i], false);
      }
      if OptionsInForm(options) { assert strict == options.items; }
    }
  }

  // ---------------------------------------------------------------- idempotence

  /**
   The schemas that a second normalisation leaves alone.  Only one branch can fail: a nullable array
   loses its plain type, so the second pass takes it for a node of alternatives.
   */
  predicate Stable(node: Json, nullable: bool)
    decreases node, 0
  {
    node.Obj? ==>
      var m := node.fields;
      if IsObjectNode(m) then
        "properties" in m && m["properties"].Obj? ==>
          forall k | k in m["properties"].fields :: Stable(m["properties"].fields[k], true)
      else if IsArrayNode(m) then
        if nullable then forall k | k in m && k in OPTION_KEYWORDS :: OptionsInForm(m[k])
        else "items" in m ==> Stable(m["items"], false)
      else
        forall k | k in m && k in OPTION_KEYWORDS :: StableOptions(m[k])
  }

  predicate StableOptions(options: Json)
    decreases options, 1
  {
    options.Arr? ==> forall i :: 0 <= i < |options.items| ==> Stable(options.items[i], false)
  }

  /** Normalising is idempotent on exactly the stable schemas. */
  lemma {:induction false} IdempotentIffStable(node: Json, nullable: bool)
    ensures Normal(Normal(node, nullable), nullable) == Normal(node, nullable) <==> Stable(node, nullable)
    decreases node, 2
  {
    if node.Obj? {
      var m := node.fields;
      if IsObjectNode(m) {
        if "properties" in m && m["properties"].Obj? { IdempotentObject(m, nullable); }
      } else if IsArrayNode(m) {
        IdempotentArray(m, nullable);
      } else {
        IdempotentOptionNode(m, nullable);
      }
    }
  }

  lemma {:induction false} IdempotentObject(m: Fields, nullable: bool)
    requires "properties" in m && m["properties"].Obj?
    ensures Normal(Normal(Obj(m), nullable), nullable) == Normal(Obj(m), nullable)
            <==> Stable(Obj(m), nullable)
    decreases Obj(m), 1
  {
    CloseTwice(m, nullable);
    PropertiesSettle(m["properties"]);
  }

  lemma {:induction false} PropertiesSettle(props: Json)
    requires props.Obj?
    ensures var once := NormalProperties(props);
            NormalProperties(Obj(once)) == once <==> forall k | k in props.fields :: Stable(props.fields[k], true)
    decreases props, 3
  {
    var once := NormalProperties(props);
    var twice := NormalProperties(Obj(once));
    forall k | k in props.fields ensures twice[k] == once[k] <==> Stable(props.fields[k], true) {
      IdempotentIffStable(props.fields[k], true);
    }
    assert twice == once <==> forall k | k in props.fields :: twice[k] == once[k];
  }

  lemma CloseTwice(m: Fields, nullable: bool)
    requires "properties" in m && m["properties"].Obj?
    ensures var once := NormalProperties(m["properties"]);
            Normal(Normal(Obj(m), nullable), nullable) == Normal(Obj(m), nullable)
            <==> NormalProperties(Obj(once)) == once
  {
    var once := NormalProperties(m["properties"]);
    ClosedFixed(m, once, nullable);
    CloseAgain(Closed(m, once, nullable), once, nullable);
  }

  /** Closing a closed node again changes its properties only. */
  lemma CloseAgain(n: Fields, once: Fields, nullable: bool)
    requires IsClosed(n, once, nullable)
    ensures Normal(Obj(n), nullable) == Obj(n) <==> NormalProperties(Obj(once)) == once
  {
    ClosedFixed(n, NormalProperties(Obj(once)), nullable);
  }

  lemma {:induction false} IdempotentArray(m: Fields, nullable: bool)
    requires IsArrayNode(m)
    ensures Normal(Normal(Obj(m), nullable), nullable) == Normal(Obj(m), nullable)
            <==> Stable(Obj(m), nullable)
    decreases Obj(m), 1
  {
    var n := Normal(Obj(m), nullable).fields;
    if nullable {
      FixedOptionNode(n, true);
      assert HasNull(n["type"]);
      assert forall k | k in OPTION_KEYWORDS :: k in m <==> k in n;
      assert forall k | k in m && k in OPTION_KEYWORDS :: n[k] == m[k];
    } else if "items" in m {
      IdempotentIffStable(m["items"], false);
      var n2 := Normal(Obj(n), false).fields;
      if Stable(m["items"], false) { assert n2 == n; } else { assert n2["items"] != n["items"]; }
    }
  }

  lemma {:induction false} IdempotentOptionNode(m: Fields, nullable: bool)
    requires !IsObjectNode(m) && !IsArrayNode(m)
    ensures Normal(Normal(Obj(m), nullable), nullable) == Normal(Obj(m), nullable)
            <==> Stable(Obj(m), nullable)
    decreases Obj(m), 1
  {
    var n := Normal(Obj(m), nullable).fields;
    assert !IsObjectNode(n) && !IsArrayNode(n);
    FixedOptionNode(n, nullable);
    forall k | k in m && k in OPTION_KEYWORDS ensures OptionsInForm(n[k]) <==> StableOptions(m[k]) {
      assert n[k] == NormalOptions(m[k]);
      StableOptionsSettle(m[k]);
    }
    if nullable && "type" in m { assert HasNull(n["type"]); }
  }

  lemma {:induction false} StableOptionsSettle(options: Json)
    ensures OptionsInForm(NormalOptions(options)) <==> StableOptions(options)
    decreases options, 3
  {
    if options.Arr? {
      var once := NormalOptions(options).items;
      forall i | 0 <= i < |options.items|
        ensures InForm(once[i], false) <==> Stable(options.items[i], false)
      {
        IdempotentIffStable(options.items[i], false);
        FixedIffInForm(once[i], false);
      }
    }
  }

  /** No visited node of type exactly "array" also offers alternatives. */
  predicate PlainArrays(node: Json)
    decreases node, 0
  {
    node.Obj? ==>
      var m := node.fields;
      if IsObjectNode(m) then
        "properties" in m && m["properties"].Obj? ==>
          forall k | k in m["properties"].fields :: PlainArrays(m["properties"].fields[k])
      else if IsArrayNode(m) then
        && (forall k | k in OPTION_KEYWORDS :: k !in m)
        && ("items" in m ==> PlainArrays(m["items"]))
      else
        forall k | k in m && k in OPTION_KEYWORDS :: PlainOptions(m[k])
  }

  predicate PlainOptions(options: Json)
    decreases options, 1
  {
    options.Arr? ==> forall i :: 0 <= i < |options.items| ==> PlainArrays(options.items[i])
  }

  lemma {:induction false} PlainIsStable(node: Json, nullable: bool)
    requires PlainArrays(node)
    ensures Stable(node, nullable)
    decreases node, 0
  {
    if node.Obj? {
      var m := node.fields;
      if IsObjectNode(m) {
        if "properties" in m && m["properties"].Obj? {
          forall k | k in m["properties"].fields ensures Stable(m["properties"].fields[k], true) {
            PlainIsStable(m["properties"].fields[k], true);
          }
        }
      } else if IsArrayNode(m) {
        if "items" in m { PlainIsStable(m["items"], false); }
      } else {
        forall k | k in m && k in OPTION_KEYWORDS ensures StableOptions(m[k]) {
          if m[k].Arr? {
            forall i | 0 <= i < |m[k].items| ensures Stable(m[k].items[i], false) {
              PlainIsStable(m[k].items[i], false);
            }
          }
        }
      }
    }
  }

  /** `normalize_for_model` is idempotent when no array node offers alternatives. */
  lemma NormalIdempotent(schema: Json)
    requires PlainArrays(schema)
    ensures Normal(Normal(schema, false), false) == Normal(schema, false)
  {
    PlainIsStable(schema, false);
    IdempotentIffStable(schema, false);
  }

  // ---------------------------------------------------------------- the false cases

  /**
   At an object node the guard is exact: a value that fits the strict form, and whose properties fit
   the declared ones, fits the caller's node if and only if the node admits objects and requires
   declared names only.
   */
  lemma ObjectGuardExact(extra: Extra, m: Fields, nullable: bool, v: Json)
    requires "properties" in m && m["properties"].Obj? && !v.Null?
    requires Valid(extra, Normal(Obj(m), nullable), v)
    requires PropertiesHold(extra, m["properties"], v)
    ensures Valid(extra, Obj(m), v) <==> AdmitsObjects(m) && RequiresDeclared(m)
  {
    var strict := NormalProperties(m["properties"]);
    var n := Closed(m, strict, nullable);
    StrictObject(extra, m, strict, nullable, v);
    ClosedJudgement(extra, m, n, v);
  }

  /** Both halves of the guard are needed: closing forces the type, and drops undeclared required names. */
  lemma ObjectGuardNeeded(extra: Extra)
    ensures var typed := Obj(map["type" := Str("string"), "properties" := Obj(map[])]);
            var requiring := Obj(map["properties" := Obj(map[]), "required" := Arr([Str("a")])]);
            var v := Obj(map[]);
            && NullFree(v)
            && Valid(extra, Normal(typed, false), v) && !Valid(extra, typed, v)
            && Valid(extra, Normal(requiring, false), v) && !Valid(extra, requiring, v)
  {
    var m := map["type" := Str("string"), "properties" := Obj(map[])];
    var n := map["properties" := Obj(map[]), "required" := Arr([Str("a")])];
    assert NormalProperties(Obj(map[])) == map[];
    ClosedAccepts(extra, m, map[], Obj(map[]));
    ClosedAccepts(extra, n, map[], Obj(map[]));
    assert !TypeAllows(Str("string"), Obj(map[]));
    assert n["required"].items[0] == Str("a");
  }

  /**
   At a node whose alternatives are faithful the guard is exact as well: a value without nulls that fits
   the strict form fits the node if and only if no two of the exclusive alternatives accept it.
   */
  lemma ExclusiveGuardExact(extra: Extra, m: Fields, nullable: bool, v: Json)
    requires !IsObjectNode(m) && !IsArrayNode(m) && "oneOf" in m
    requires forall k | k in m && k in OPTION_KEYWORDS :: FaithfulOptions(extra, m[k])
    requires NullFree(v) && Valid(extra, Normal(Obj(m), nullable), v)
    ensures Valid(extra, Obj(m), v) <==> ExclusiveAt(extra, m["oneOf"], v)
  {
    var n := Normal(Obj(m), nullable).fields;
    OptionNode(m, nullable);
    OptionsJudgement(extra, m, n, nullable, v);
    assert OneHolds(extra, NormalOptions(m["oneOf"]), v);
    AnyIsSound(extra, m["oneOf"], v);
  }

  /** A schema that declares one property and says nothing else. */
  function DeclaresOnly(k: string): Json {
    Obj(map["properties" := Obj(map[k := Bool(true)])])
  }

  /** Exclusive alternatives: closing the objects can make them exclusive when they were not. */
  lemma ExclusiveAlternativesUnsound(extra: Extra)
    ensures var s := Obj(map["oneOf" := Arr([DeclaresOnly("a"), DeclaresOnly("b")])]);
            var v := Obj(map["a" := Bool(true)]);
            NullFree(v) && Valid(extra, Normal(s, false), v) && !Valid(extra, s, v)
  {
    SingleStrict(extra, "a");
    SingleStrict(extra, "b");
    OneSurvives(extra, DeclaresOnly("a"), DeclaresOnly("b"), Obj(map["a" := Bool(true)]));
  }

  /** Two exclusive alternatives that both hold, of which one survives closing. */
  lemma OneSurvives(extra: Extra, left: Json, right: Json, v: Json)
    requires Valid(extra, left, v) && Valid(extra, right, v)
    requires Valid(extra, Normal(left, false), v) != Valid(extra, Normal(right, false), v)
    ensures var s := Obj(map["oneOf" := Arr([left, right])]);
            Valid(extra, Normal(s, false), v) && !Valid(extra, s, v)
  {
    var options := Arr([left, right]);
    var strict := Arr([Normal(left, false), Normal(right, false)]);
    assert NormalOptions(options) == strict;
    OneOfOnly(extra, options, v);
    OneOfOnly(extra, strict, v);
    OneOfTwo(extra, left, right, v);
    OneOfTwo(extra, Normal(left, false), Normal(right, false), v);
  }

  lemma OneOfOnly(extra: Extra, options: Json, v: Json)
    ensures Valid(extra, Obj(map["oneOf" := options]), v) == OneHolds(extra, options, v)
    ensures Normal(Obj(map["oneOf" := options]), false) == Obj(map["oneOf" := NormalOptions(options)])
  {
    var m := map["oneOf" := options];
    OptionNode(m, false);
    assert Normal(Obj(m), false).fields == map["oneOf" := NormalOptions(options)];
  }

  lemma SingleStrict(extra: Extra, k: string)
    ensures Valid(extra, Normal(DeclaresOnly(k), false), Obj(map["a" := Bool(true)])) <==> k == "a"
    ensures Valid(extra, DeclaresOnly(k), Obj(map["a" := Bool(true)]))
  {
    var v := Obj(map["a" := Bool(true)]);
    var props := map[k := Bool(true)];
    var m := DeclaresOnly(k).fields;
    assert Valid(extra, DeclaresOnly(k), v);
    assert NormalProperties(m["properties"]) == props;
    if k == "a" {
      ClosedAccepts(extra, m, props, v);
    } else if Valid(extra, Normal(DeclaresOnly(k), false), v) {
      StrictObject(extra, m, props, false, v);
    }
  }

  /** Closing a node without alternatives and annotations admits the objects with exactly its keys. */
  lemma ClosedAccepts(extra: Extra, m: Fields, props: Fields, v: Json)
    requires m.Keys <= {"type", "properties", "required", "additionalProperties"}
    requires v.Obj? && v.fields.Keys == props.Keys
    requires PropertiesHold(extra, Obj(props), v)
    ensures Valid(extra, Obj(Closed(m, props, false)), v)
  {
    var n := Closed(m, props, false);
    ClosedFixed(m, props, false);
    assert n.Keys == {"type", "properties", "required", "additionalProperties"};
    RequiresKeys(props);
    assert AdditionalHold(extra, PropertyNames(n), n["additionalProperties"], v);
  }

  lemma RequiresKeys(props: Fields)
    ensures HasRequired(KeyList(props).items, props.Keys)
  {
    var keys := SortedKeys(props.Keys);
    assert forall i :: 0 <= i < |keys| ==> keys[i] in keys;
  }

  /** A schema with an optional array that offers one alternative. */
  function MixedArray(option: Json): Json {
    Obj(map["properties" := Obj(map["a" := Obj(map["type" := Str("array"), "anyOf" := Arr([option])])])])
  }

  /** An optional array that offers an alternative outside strict form changes on a second pass. */
  lemma MixedArrayNotIdempotent(option: Json)
    requires !InForm(option, false)
    ensures var s := MixedArray(option);
            Normal(Normal(s, false), false) != Normal(s, false)
  {
    var options := Arr([option]);
    var m := map["type" := Str("array"), "anyOf" := options];
    var top := MixedArray(option).fields;
    assert options.items[0] == option;
    assert OPTION_KEYWORDS[0] == "anyOf" && !OptionsInForm(m["anyOf"]);
    assert !Stable(Obj(m), true);
    assert top["properties"].fields["a"] == Obj(m);
    IdempotentIffStable(Obj(top), false);
  }

  /** Such a schema: the alternative is an object that is not closed. */
  lemma MixedArrayExample()
    ensures var s := MixedArray(DeclaresOnly("b"));
            Normal(Normal(s, false), false) != Normal(s, false)
  {
    assert !InForm(DeclaresOnly("b"), false);
    MixedArrayNotIdempotent(DeclaresOnly("b"));
  }

  // ---------------------------------------------------------------- the procedure

  /** `normalize_for_model`: the argument is copied, so the caller's schema is untouched. */
  method NormalizeForModel(schema: Json) returns (normalized: Json)
    ensures normalized == Normal(schema, false)
  {
    normalized := NormalizeNode(schema, false);
  }

  /** `_normalize_node`, which rewrites the keywords of a node one after the other. */
  method NormalizeNode(node: Json, nullable: bool) returns (r: Json)
    ensures r == Normal(node, nullable)
    decreases node, 2
  {
    if !node.Obj? {
      return node;
    }
    var m := node.fields;
    if Get(m, "type") == Str("object") || "properties" in m {
      if "properties" in m && m["properties"].Obj? {
        var children := NormalizeChildren(m["properties"]);
        m := m["type" := if nullable then WithNull(Str("object")) else Str("object")];
        m := m["additionalProperties" := Bool(false)];
        m := m["required" := KeyList(children)];
        m := m["properties" := Obj(children)];
      }
      return Obj(m);
    }
    if Get(m, "type") == Str("array") {
      if nullable {
        m := m["type" := WithNull(Str("array"))];
      }
      if "items" in m {
        var items := NormalizeNode(m["items"], false);
        m := m["items" := items];
      }
      return Obj(m);
    }
    var k := 0;
    while k < |OPTION_KEYWORDS|
      invariant 0 <= k <= |OPTION_KEYWORDS|
      invariant m.Keys == node.fields.Keys
      invariant forall name | name in m ::
        m[name] == if name in OPTION_KEYWORDS[..k] then NormalOptions(node.fields[name]) else node.fields[name]
    {
      var keyword := OPTION_KEYWORDS[k];
      if keyword in m && m[keyword].Arr? {
        assert keyword !in OPTION_KEYWORDS[..k];
        var options := NormalizeOptions(m[keyword]);
        m := m[keyword := options];
      }
      k := k + 1;
    }
    assert OPTION_KEYWORDS[..k] == OPTION_KEYWORDS;
    if nullable && "type" in m {
      m := m["type" := WithNull(m["type"])];
    }
    r := Obj(m);
    assert m == Normal(node, nullable).fields;
  }

  method NormalizeChildren(props: Json) returns (children: Fields)
    requires props.Obj?
    ensures children == NormalProperties(props)
    decreases props, 3
  {
    children := props.fields;
    var pending := props.fields.Keys;
    while pending != {}
      invariant pending <= props.fields.Keys == children.Keys
      invariant forall k | k in children ::
        children[k] == if k in pending then props.fields[k] else Normal(props.fields[k], true)
      decreases pending
    {
      var k :| k in pending;
      var child := NormalizeNode(children[k], true);
      children := children[k := child];
      pending := pending - {k};
    }
  }

  method NormalizeOptions(options: Json) returns (r: Json)
    requires options.Arr?
    ensures r == NormalOptions(options)
    decreases options, 3
  {
    var items := options.items;
    var i := 0;
    while i < |items|
      invariant 0 <= i <= |items| == |options.items|
      invariant forall j :: 0 <= j < |items| ==>
        items[j] == if j < i then Normal(options.items[j], false) else options.items[j]
    {
      var option := NormalizeNode(items[i], false);
      items := items[i := option];
      i := i + 1;
    }
    r := Arr(items);
    assert items == NormalOptions(options).items;
  }
}
