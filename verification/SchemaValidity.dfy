/**
 What it means for a value to be valid for a schema: the structural keywords of JSON Schema
 (draft 2020-12) that the service itself writes or rewrites.  Every other keyword is left to
 `extra`, an arbitrary judgement of the keyword's own value and the instance.
 */
module SchemaValidity {
  import opened Json

  /** Judges a keyword outside the structural ones: `extra(keyword, its value, instance)`. */
  type Extra = (string, Json, Json) -> bool

  const STRUCTURAL: set<string> :=
    {"type", "properties", "required", "additionalProperties", "items", "anyOf", "allOf", "oneOf"}

  /** Section 6.1.1 of JSON Schema Validation: does the instance have the named type? */
  predicate HasType(name: string, v: Json) {
    match v
    case Null => name == "null"
    case Bool(_) => name == "boolean"
    case Num(n) => name == "number" || (name == "integer" && n.Floor as real == n)
    case Str(_) => name == "string"
    case Arr(_) => name == "array"
    case Obj(_) => name == "object"
  }

  /** The value of `type` is one name or a list of names. */
  predicate TypeAllows(t: Json, v: Json) {
    match t
    case Str(name) => HasType(name, v)
    case Arr(names) => exists i :: 0 <= i < |names| && names[i].Str? && HasType(names[i].s, v)
    case _ => false
  }

  /** The names a `properties` keyword declares. */
  function PropertyNames(m: Fields): set<string> {
    if "properties" in m && m["properties"].Obj? then m["properties"].fields.Keys else {}
  }

  /** Section 6.5.3 of JSON Schema Validation: every listed name is a key of the instance. */
  predicate HasRequired(names: seq<Json>, keys: set<string>) {
    forall i :: 0 <= i < |names| ==> names[i].Str? && names[i].s in keys
  }

  /** A malformed keyword or a schema that is neither an object nor a boolean accepts nothing. */
  predicate Valid(extra: Extra, s: Json, v: Json)
    decreases s, 0
  {
    match s
    case Bool(b) => b
    case Obj(m) =>
      && ("type" in m ==> TypeAllows(m["type"], v))
      && ("properties" in m ==> PropertiesHold(extra, m["properties"], v))
      && ("required" in m ==>
            m["required"].Arr? && (v.Obj? ==> HasRequired(m["required"].items, v.fields.Keys)))
      && ("additionalProperties" in m ==>
            AdditionalHold(extra, PropertyNames(m), m["additionalProperties"], v))
      && ("items" in m ==> ItemsHold(extra, m["items"], v))
      && ("allOf" in m ==> AllHold(extra, m["allOf"], v))
      && ("anyOf" in m ==> AnyHolds(extra, m["anyOf"], v))
      && ("oneOf" in m ==> OneHolds(extra, m["oneOf"], v))
      && OthersHold(extra, m, v)
    case _ => false
  }

  /** Section 10.3.2.1 of JSON Schema Core: each declared property that is present is valid. */
  predicate PropertiesHold(extra: Extra, props: Json, v: Json)
    decreases props, 1
  {
    && props.Obj?
    && (v.Obj? ==> forall k | k in props.fields && k in v.fields :: Valid(extra, props.fields[k], v.fields[k]))
  }

  /** Section 10.3.2.3 of JSON Schema Core: each undeclared property is valid for the subschema. */
  predicate AdditionalHold(extra: Extra, names: set<string>, sub: Json, v: Json)
    decreases sub, 1
  {
    v.Obj? ==> forall k | k in v.fields && k !in names :: Valid(extra, sub, v.fields[k])
  }

  /** Section 10.3.1.2 of JSON Schema Core. */
  predicate ItemsHold(extra: Extra, sub: Json, v: Json)
    decreases sub, 1
  {
    v.Arr? ==> forall i :: 0 <= i < |v.items| ==> Valid(extra, sub, v.items[i])
  }

  /** Sections 10.2.1.1 to 10.2.1.3 of JSON Schema Core. */
  predicate AllHold(extra: Extra, options: Json, v: Json)
    decreases options, 1
  {
    options.Arr? && forall i :: 0 <= i < |options.items| ==> Valid(extra, options.items[i], v)
  }

  predicate AnyHolds(extra: Extra, options: Json, v: Json)
    decreases options, 1
  {
    options.Arr? && exists i :: 0 <= i < |options.items| && Valid(extra, options.items[i], v)
  }

  predicate OneHolds(extra: Extra, options: Json, v: Json)
    decreases options, 2
  {
    && AnyHolds(extra, options, v)
    && (forall i, j :: 0 <= i < j < |options.items| ==>
          !Valid(extra, options.items[i], v) || !Valid(extra, options.items[j], v))
  }

  predicate OthersHold(extra: Extra, m: Fields, v: Json) {
    forall k | k in m && k !in STRUCTURAL :: extra(k, m[k], v)
  }

  // ---------------------------------------------------------------- readings

  /** Of two alternatives both must hold for allOf, and at least one for anyOf. */
  lemma TwoOptions(extra: Extra, left: Json, right: Json, v: Json)
    ensures AllHold(extra, Arr([left, right]), v) <==> Valid(extra, left, v) && Valid(extra, right, v)
    ensures AnyHolds(extra, Arr([left, right]), v) <==> Valid(extra, left, v) || Valid(extra, right, v)
  {
    var options := [left, right];
    assert options[0] == left && options[1] == right;
  }

  /** Of two exclusive alternatives exactly one must hold. */
  lemma OneOfTwo(extra: Extra, left: Json, right: Json, v: Json)
    ensures OneHolds(extra, Arr([left, right]), v) <==> (Valid(extra, left, v) != Valid(extra, right, v))
  {
    var options := [left, right];
    assert options[0] == left && options[1] == right;
  }

  /** A value has exactly one basic type, and an integer is a number without a fraction. */
  lemma TypesExactly(v: Json, z: int)
    ensures v.Null? <==> HasType("null", v)
    ensures v.Bool? <==> HasType("boolean", v)
    ensures v.Num? <==> HasType("number", v)
    ensures v.Str? <==> HasType("string", v)
    ensures v.Arr? <==> HasType("array", v)
    ensures v.Obj? <==> HasType("object", v)
    ensures HasType("integer", v) <==> v.Num? && v.n == v.n.Floor as real
    ensures HasType("integer", Num(z as real)) && !HasType("integer", Num(z as real + 0.5))
  {
  }

  // ---------------------------------------------------------------- validity and shape

  /**
   Where the schema looks at two values that differ, its keywords outside the structural ones judge
   them alike.
   */
  predicate JudgedAlike(extra: Extra, s: Json, a: Json, b: Json)
    decreases s, 0
  {
    s.Obj? && a != b ==>
      var m := s.fields;
      && OthersHold(extra, m, a) == OthersHold(extra, m, b)
      && ("properties" in m ==> PropertiesAlike(extra, m["properties"], a, b))
      && ("additionalProperties" in m ==>
            AdditionalAlike(extra, PropertyNames(m), m["additionalProperties"], a, b))
      && ("items" in m ==> ItemsAlike(extra, m["items"], a, b))
      && ("allOf" in m ==> OptionsAlike(extra, m["allOf"], a, b))
      && ("anyOf" in m ==> OptionsAlike(extra, m["anyOf"], a, b))
      && ("oneOf" in m ==> OptionsAlike(extra, m["oneOf"], a, b))
  }

  predicate PropertiesAlike(extra: Extra, props: Json, a: Json, b: Json)
    decreases props, 1
  {
    props.Obj? && a.Obj? && b.Obj? ==>
      forall k | k in props.fields && k in a.fields && k in b.fields ::
        JudgedAlike(extra, props.fields[k], a.fields[k], b.fields[k])
  }

  predicate AdditionalAlike(extra: Extra, names: set<string>, sub: Json, a: Json, b: Json)
    decreases sub, 1
  {
    a.Obj? && b.Obj? ==>
      forall k | k in a.fields && k in b.fields && k !in names :: JudgedAlike(extra, sub, a.fields[k], b.fields[k])
  }

  predicate ItemsAlike(extra: Extra, sub: Json, a: Json, b: Json)
    decreases sub, 1
  {
    a.Arr? && b.Arr? ==>
      forall i :: 0 <= i < |a.items| && i < |b.items| ==> JudgedAlike(extra, sub, a.items[i], b.items[i])
  }

  predicate OptionsAlike(extra: Extra, options: Json, a: Json, b: Json)
    decreases options, 1
  {
    options.Arr? ==> forall i :: 0 <= i < |options.items| ==> JudgedAlike(extra, options.items[i], a, b)
  }

  /** Beyond the judgements of the other keywords, validity depends on the shape of the value only. */
  lemma {:induction false} ValidityIsShape(extra: Extra, s: Json, a: Json, b: Json)
    requires SameShape(a, b) && JudgedAlike(extra, s, a, b)
    ensures Valid(extra, s, a) == Valid(extra, s, b)
    decreases s, 1
  {
    if s.Obj? && a != b {
      var m := s.fields;
      TypeIsShape(if "type" in m then m["type"] else Null, a, b);
      MembersAreShape(extra, m, a, b);
      AlternativesAreShape(extra, m, a, b);
      SameJudgement(extra, m, a, b);
    }
  }

  /** A node each of whose keywords still accepts what takes the place of a value. */
  lemma KeptJudgement(extra: Extra, m: Fields, a: Json, b: Json)
    requires Valid(extra, Obj(m), a)
    requires b.Obj? ==> a.Obj? && a.fields.Keys == b.fields.Keys
    requires "type" in m && TypeAllows(m["type"], a) ==> TypeAllows(m["type"], b)
    requires "properties" in m && PropertiesHold(extra, m["properties"], a) ==>
               PropertiesHold(extra, m["properties"], b)
    requires "additionalProperties" in m && AdditionalHold(extra, PropertyNames(m), m["additionalProperties"], a) ==>
               AdditionalHold(extra, PropertyNames(m), m["additionalProperties"], b)
    requires "items" in m && ItemsHold(extra, m["items"], a) ==> ItemsHold(extra, m["items"], b)
    requires "allOf" in m && AllHold(extra, m["allOf"], a) ==> AllHold(extra, m["allOf"], b)
    requires "anyOf" in m && AnyHolds(extra, m["anyOf"], a) ==> AnyHolds(extra, m["anyOf"], b)
    requires "oneOf" in m && OneHolds(extra, m["oneOf"], a) ==> OneHolds(extra, m["oneOf"], b)
    requires OthersHold(extra, m, a) ==> OthersHold(extra, m, b)
    ensures Valid(extra, Obj(m), b)
  {
  }

  /** A node whose keywords judge two objects, or two other values, alike. */
  lemma SameJudgement(extra: Extra, m: Fields, a: Json, b: Json)
    requires a.Obj? == b.Obj? && (a.Obj? ==> a.fields.Keys == b.fields.Keys)
    requires "type" in m ==> TypeAllows(m["type"], a) == TypeAllows(m["type"], b)
    requires "properties" in m ==>
               PropertiesHold(extra, m["properties"], a) == PropertiesHold(extra, m["properties"], b)
    requires "additionalProperties" in m ==>
               AdditionalHold(extra, PropertyNames(m), m["additionalProperties"], a)
               == AdditionalHold(extra, PropertyNames(m), m["additionalProperties"], b)
    requires "items" in m ==> ItemsHold(extra, m["items"], a) == ItemsHold(extra, m["items"], b)
    requires "allOf" in m ==> AllHold(extra, m["allOf"], a) == AllHold(extra, m["allOf"], b)
    requires "anyOf" in m ==> AnyHolds(extra, m["anyOf"], a) == AnyHolds(extra, m["anyOf"], b)
    requires "oneOf" in m ==> OneHolds(extra, m["oneOf"], a) == OneHolds(extra, m["oneOf"], b)
    requires OthersHold(extra, m, a) == OthersHold(extra, m, b)
    ensures Valid(extra, Obj(m), a) == Valid(extra, Obj(m), b)
  {
    if Valid(extra, Obj(m), a) { KeptJudgement(extra, m, a, b); }
    if Valid(extra, Obj(m), b) { KeptJudgement(extra, m, b, a); }
  }

  lemma {:induction false} MembersAreShape(extra: Extra, m: Fields, a: Json, b: Json)
    requires SameShape(a, b) && JudgedAlike(extra, Obj(m), a, b) && a != b
    ensures "properties" in m ==> PropertiesHold(extra, m["properties"], a) == PropertiesHold(extra, m["properties"], b)
    ensures "additionalProperties" in m ==>
              AdditionalHold(extra, PropertyNames(m), m["additionalProperties"], a)
              == AdditionalHold(extra, PropertyNames(m), m["additionalProperties"], b)
    ensures "items" in m ==> ItemsHold(extra, m["items"], a) == ItemsHold(extra, m["items"], b)
    decreases Obj(m), 0
  {
    if "properties" in m { PropertiesAreShape(extra, m["properties"], a, b); }
    if "additionalProperties" in m { AdditionalIsShape(extra, PropertyNames(m), m["additionalProperties"], a, b); }
    if "items" in m { ItemsAreShape(extra, m["items"], a, b); }
  }

  lemma {:induction false} AlternativesAreShape(extra: Extra, m: Fields, a: Json, b: Json)
    requires SameShape(a, b) && JudgedAlike(extra, Obj(m), a, b) && a != b
    ensures "allOf" in m ==> AllHold(extra, m["allOf"], a) == AllHold(extra, m["allOf"], b)
    ensures "anyOf" in m ==> AnyHolds(extra, m["anyOf"], a) == AnyHolds(extra, m["anyOf"], b)
    ensures "oneOf" in m ==> OneHolds(extra, m["oneOf"], a) == OneHolds(extra, m["oneOf"], b)
    decreases Obj(m), 0
  {
    if "allOf" in m { OptionsAreShape(extra, m["allOf"], a, b); }
    if "anyOf" in m { OptionsAreShape(extra, m["anyOf"], a, b); }
    if "oneOf" in m { OptionsAreShape(extra, m["oneOf"], a, b); }
  }

  lemma TypeIsShape(t: Json, a: Json, b: Json)
    requires SameShape(a, b)
    ensures TypeAllows(t, a) == TypeAllows(t, b)
  {
    assert forall name :: HasType(name, a) == HasType(name, b);
  }

  lemma {:induction false} PropertiesAreShape(extra: Extra, props: Json, a: Json, b: Json)
    requires SameShape(a, b) && PropertiesAlike(extra, props, a, b)
    ensures PropertiesHold(extra, props, a) == PropertiesHold(extra, props, b)
    decreases props, 2
  {
    if props.Obj? && a.Obj? {
      forall k | k in props.fields && k in a.fields
        ensures Valid(extra, props.fields[k], a.fields[k]) == Valid(extra, props.fields[k], b.fields[k])
      {
        ValidityIsShape(extra, props.fields[k], a.fields[k], b.fields[k]);
      }
    }
  }

  lemma {:induction false} AdditionalIsShape(extra: Extra, names: set<string>, sub: Json, a: Json, b: Json)
    requires SameShape(a, b) && AdditionalAlike(extra, names, sub, a, b)
    ensures AdditionalHold(extra, names, sub, a) == AdditionalHold(extra, names, sub, b)
    decreases sub, 2
  {
    if a.Obj? {
      forall k | k in a.fields && k !in names
        ensures Valid(extra, sub, a.fields[k]) == Valid(extra, sub, b.fields[k])
      {
        ValidityIsShape(extra, sub, a.fields[k], b.fields[k]);
      }
    }
  }

  lemma {:induction false} ItemsAreShape(extra: Extra, sub: Json, a: Json, b: Json)
    requires SameShape(a, b) && ItemsAlike(extra, sub, a, b)
    ensures ItemsHold(extra, sub, a) == ItemsHold(extra, sub, b)
    decreases sub, 2
  {
    if a.Arr? {
      forall i | 0 <= i < |a.items| ensures Valid(extra, sub, a.items[i]) == Valid(extra, sub, b.items[i]) {
        ValidityIsShape(extra, sub, a.items[i], b.items[i]);
      }
    }
  }

  lemma {:induction false} OptionsAreShape(extra: Extra, options: Json, a: Json, b: Json)
    requires SameShape(a, b) && OptionsAlike(extra, options, a, b)
    ensures AllHold(extra, options, a) == AllHold(extra, options, b)
    ensures AnyHolds(extra, options, a) == AnyHolds(extra, options, b)
    ensures OneHolds(extra, options, a) == OneHolds(extra, options, b)
    decreases options, 2
  {
    if options.Arr? {
      forall i | 0 <= i < |options.items|
        ensures Valid(extra, options.items[i], a) == Valid(extra, options.items[i], b)
      {
        ValidityIsShape(extra, options.items[i], a, b);
      }
    }
  }

  // ---------------------------------------------------------------- exactly when shape decides

  /** The schema offers no choice between alternatives. */
  predicate NoChoices(s: Json)
    decreases s, 0
  {
    s.Obj? ==>
      var m := s.fields;
      && "anyOf" !in m && "oneOf" !in m
      && ("allOf" in m ==> NoChoicesAmong(m["allOf"]))
      && ("properties" in m && m["properties"].Obj? ==>
            forall k | k in m["properties"].fields :: NoChoices(m["properties"].fields[k]))
      && ("additionalProperties" in m ==> NoChoices(m["additionalProperties"]))
      && ("items" in m ==> NoChoices(m["items"]))
  }

  predicate NoChoicesAmong(options: Json)
    decreases options, 1
  {
    options.Arr? ==> forall i :: 0 <= i < |options.items| ==> NoChoices(options.items[i])
  }

  /**
   Without choices, what takes the place of a valid value of the same shape is valid if and only if,
   wherever it differs, the keywords outside the structural ones accept it as they accepted the value.
   */
  lemma ValidExactlyIfAlike(extra: Extra, s: Json, a: Json, b: Json)
    requires NoChoices(s) && SameShape(a, b) && Valid(extra, s, a)
    ensures Valid(extra, s, b) <==> JudgedAlike(extra, s, a, b)
  {
    if Valid(extra, s, b) { BothValidAlike(extra, s, a, b); }
    if JudgedAlike(extra, s, a, b) { ValidityIsShape(extra, s, a, b); }
  }

  lemma {:induction false} BothValidAlike(extra: Extra, s: Json, a: Json, b: Json)
    requires NoChoices(s) && Valid(extra, s, a) && Valid(extra, s, b)
    ensures JudgedAlike(extra, s, a, b)
    decreases s, 1
  {
    if s.Obj? {
      var m := s.fields;
      if "allOf" in m { BothAllAlike(extra, m["allOf"], a, b); }
      BothMembersAlike(extra, m, a, b);
    }
  }

  lemma {:induction false} BothAllAlike(extra: Extra, options: Json, a: Json, b: Json)
    requires NoChoicesAmong(options) && AllHold(extra, options, a) && AllHold(extra, options, b)
    ensures OptionsAlike(extra, options, a, b)
    decreases options, 2
  {
    forall i | 0 <= i < |options.items| ensures JudgedAlike(extra, options.items[i], a, b) {
      BothValidAlike(extra, options.items[i], a, b);
    }
  }

  lemma {:induction false} BothMembersAlike(extra: Extra, m: Fields, a: Json, b: Json)
    requires NoChoices(Obj(m)) && Valid(extra, Obj(m), a) && Valid(extra, Obj(m), b)
    ensures "properties" in m ==> PropertiesAlike(extra, m["properties"], a, b)
    ensures "additionalProperties" in m ==> AdditionalAlike(extra, PropertyNames(m), m["additionalProperties"], a, b)
    ensures "items" in m ==> ItemsAlike(extra, m["items"], a, b)
    decreases Obj(m), 0
  {
    if "properties" in m && a.Obj? && b.Obj? {
      var props := m["properties"].fields;
      forall k | k in props && k in a.fields && k in b.fields
        ensures JudgedAlike(extra, props[k], a.fields[k], b.fields[k])
      {
        BothValidAlike(extra, props[k], a.fields[k], b.fields[k]);
      }
    }
    if "additionalProperties" in m && a.Obj? && b.Obj? {
      forall k | k in a.fields && k in b.fields && k !in PropertyNames(m)
        ensures JudgedAlike(extra, m["additionalProperties"], a.fields[k], b.fields[k])
      {
        BothValidAlike(extra, m["additionalProperties"], a.fields[k], b.fields[k]);
      }
    }
    if "items" in m && a.Arr? && b.Arr? {
      forall i | 0 <= i < |a.items| && i < |b.items|
        ensures JudgedAlike(extra, m["items"], a.items[i], b.items[i])
      {
        BothValidAlike(extra, m["items"], a.items[i], b.items[i]);
      }
    }
  }
}
