/**
 What rewriting does to validity.  Values are rewritten after they have been validated, so a returned
 value is valid only as far as the keywords of its schema accept the new text of its strings.
 */
module RewrittenValidity {
  import opened Text
  import opened Json
  import opened SchemaValidity
  import opened ValueNormalize

  // ---------------------------------------------------------------- keywords that do not notice

  /**
   At every node that the hints reach, the keywords outside the structural ones judge a value as they
   judge its rewriting.  Where the hints are silent the schema may carry any keyword.
   */
  ghost predicate BlindToRewriting(extra: Extra, s: Json, hints: Json, digits: Digits)
    decreases s, 0
  {
    s.Obj? && !Silent(hints) ==>
      var m := s.fields;
      && (forall v :: OthersHold(extra, m, v) == OthersHold(extra, m, NormalValue(v, hints, digits)))
      && ("properties" in m && m["properties"].Obj? ==>
            forall k | k in m["properties"].fields ::
              BlindToRewriting(extra, m["properties"].fields[k], HintsAt(hints, k), digits))
      && ("additionalProperties" in m ==>
            forall k :: k !in PropertyNames(m) ==>
              BlindToRewriting(extra, m["additionalProperties"], HintsAt(hints, k), digits))
      && ("items" in m ==> BlindToRewriting(extra, m["items"], ItemHints(hints), digits))
      && ("allOf" in m ==> OptionsBlind(extra, m["allOf"], hints, digits))
      && ("anyOf" in m ==> OptionsBlind(extra, m["anyOf"], hints, digits))
      && ("oneOf" in m ==> OptionsBlind(extra, m["oneOf"], hints, digits))
  }

  ghost predicate OptionsBlind(extra: Extra, options: Json, hints: Json, digits: Digits)
    decreases options, 1
  {
    options.Arr? ==> forall i :: 0 <= i < |options.items| ==> BlindToRewriting(extra, options.items[i], hints, digits)
  }

  lemma {:induction false} RewrittenIsAlike(extra: Extra, s: Json, value: Json, hints: Json, digits: Digits)
    requires BlindToRewriting(extra, s, hints, digits)
    ensures JudgedAlike(extra, s, value, NormalValue(value, hints, digits))
    decreases s, 1
  {
    var r := NormalValue(value, hints, digits);
    if Silent(hints) {
      SilentKeeps(value, hints, digits);
    } else if s.Obj? {
      var m := s.fields;
      NormalValueKeepsShape(value, hints, digits);
      MembersAreAlike(extra, m, value, hints, digits);
      forall k | k in {"allOf", "anyOf", "oneOf"} && k in m ensures OptionsAlike(extra, m[k], value, r) {
        OptionsAreAlike(extra, m[k], value, hints, digits);
      }
    }
  }

  lemma {:induction false} MembersAreAlike(extra: Extra, m: Fields, value: Json, hints: Json, digits: Digits)
    requires BlindToRewriting(extra, Obj(m), hints, digits) && !Silent(hints)
    ensures var r := NormalValue(value, hints, digits);
            && ("properties" in m ==> PropertiesAlike(extra, m["properties"], value, r))
            && ("additionalProperties" in m ==>
                  AdditionalAlike(extra, PropertyNames(m), m["additionalProperties"], value, r))
            && ("items" in m ==> ItemsAlike(extra, m["items"], value, r))
    decreases Obj(m), 0
  {
    NormalMembers(value, hints, digits);
    if "properties" in m && m["properties"].Obj? && value.Obj? {
      var props := m["properties"].fields;
      forall k | k in props && k in value.fields
        ensures JudgedAlike(extra, props[k], value.fields[k], NormalValue(value.fields[k], HintsAt(hints, k), digits))
      {
        RewrittenIsAlike(extra, props[k], value.fields[k], HintsAt(hints, k), digits);
      }
    }
    if "additionalProperties" in m && value.Obj? {
      var sub := m["additionalProperties"];
      forall k | k in value.fields && k !in PropertyNames(m)
        ensures JudgedAlike(extra, sub, value.fields[k], NormalValue(value.fields[k], HintsAt(hints, k), digits))
      {
        RewrittenIsAlike(extra, sub, value.fields[k], HintsAt(hints, k), digits);
      }
    }
    if "items" in m && value.Arr? {
      forall i | 0 <= i < |value.items|
        ensures JudgedAlike(extra, m["items"], value.items[i], NormalValue(value.items[i], ItemHints(hints), digits))
      {
        RewrittenIsAlike(extra, m["items"], value.items[i], ItemHints(hints), digits);
      }
    }
  }

  lemma {:induction false} OptionsAreAlike(extra: Extra, options: Json, value: Json, hints: Json, digits: Digits)
    requires OptionsBlind(extra, options, hints, digits)
    ensures OptionsAlike(extra, options, value, NormalValue(value, hints, digits))
    decreases options, 2
  {
    if options.Arr? {
      forall i | 0 <= i < |options.items|
        ensures JudgedAlike(extra, options.items[i], value, NormalValue(value, hints, digits))
      {
        RewrittenIsAlike(extra, options.items[i], value, hints, digits);
      }
    }
  }

  /**
   Rewriting keeps a value valid, or invalid, for every schema none of whose keywords notices it.
   */
  lemma NormalValueKeepsValidity(extra: Extra, s: Json, value: Json, hints: Json, digits: Digits)
    requires BlindToRewriting(extra, s, hints, digits)
    ensures Valid(extra, s, NormalValue(value, hints, digits)) == Valid(extra, s, value)
  {
    NormalValueKeepsShape(value, hints, digits);
    RewrittenIsAlike(extra, s, value, hints, digits);
    ValidityIsShape(extra, s, value, NormalValue(value, hints, digits));
  }

  // ---------------------------------------------------------------- keywords that stay satisfied

  /** Every valid value is still valid once it is rewritten. */
  ghost predicate RewritingSafe(extra: Extra, s: Json, hints: Json, digits: Digits) {
    forall v :: Valid(extra, s, v) ==> Valid(extra, s, NormalValue(v, hints, digits))
  }

  /**
   The schema is closed under rewriting: at every node that the hints reach, the keywords outside the
   structural ones accept the rewriting of what the node accepts.  Exclusive alternatives must judge a
   value as they judge its rewriting.
   */
  ghost predicate KeptByRewriting(extra: Extra, s: Json, hints: Json, digits: Digits)
    decreases s, 0
  {
    s.Obj? && !Silent(hints) ==>
      var m := s.fields;
      && (forall v :: Valid(extra, s, v) ==> OthersHold(extra, m, NormalValue(v, hints, digits)))
      && ("properties" in m && m["properties"].Obj? ==>
            forall k | k in m["properties"].fields ::
              KeptByRewriting(extra, m["properties"].fields[k], HintsAt(hints, k), digits))
      && ("additionalProperties" in m ==>
            forall k :: k !in PropertyNames(m) ==>
              KeptByRewriting(extra, m["additionalProperties"], HintsAt(hints, k), digits))
      && ("items" in m ==> KeptByRewriting(extra, m["items"], ItemHints(hints), digits))
      && ("allOf" in m ==> OptionsKept(extra, m["allOf"], hints, digits))
      && ("anyOf" in m ==> OptionsKept(extra, m["anyOf"], hints, digits))
      && ("oneOf" in m ==> OptionsBlind(extra, m["oneOf"], hints, digits))
  }

  ghost predicate OptionsKept(extra: Extra, options: Json, hints: Json, digits: Digits)
    decreases options, 1
  {
    options.Arr? ==> forall i :: 0 <= i < |options.items| ==> KeptByRewriting(extra, options.items[i], hints, digits)
  }

  /** A valid value stays valid when it is rewritten, for every schema that is closed under rewriting. */
  lemma {:induction false} RewritingKeepsValid(extra: Extra, s: Json, value: Json, hints: Json, digits: Digits)
    requires KeptByRewriting(extra, s, hints, digits) && Valid(extra, s, value)
    ensures Valid(extra, s, NormalValue(value, hints, digits))
    decreases s, 1
  {
    if Silent(hints) {
      SilentKeeps(value, hints, digits);
    } else if s.Obj? {
      var m, r := s.fields, NormalValue(value, hints, digits);
      NormalValueKeepsShape(value, hints, digits);
      TypeIsShape(if "type" in m then m["type"] else Null, value, r);
      MembersKept(extra, m, value, hints, digits);
      AlternativesKept(extra, m, value, hints, digits);
      KeptJudgement(extra, m, value, r);
    }
  }

  lemma {:induction false} MembersKept(extra: Extra, m: Fields, value: Json, hints: Json, digits: Digits)
    requires KeptByRewriting(extra, Obj(m), hints, digits) && !Silent(hints) && Valid(extra, Obj(m), value)
    ensures var r := NormalValue(value, hints, digits);
            && ("properties" in m ==> PropertiesHold(extra, m["properties"], r))
            && ("additionalProperties" in m ==>
                  AdditionalHold(extra, PropertyNames(m), m["additionalProperties"], r))
            && ("items" in m ==> ItemsHold(extra, m["items"], r))
    decreases Obj(m), 0
  {
    NormalMembers(value, hints, digits);
    if "properties" in m && value.Obj? {
      var props := m["properties"].fields;
      forall k | k in props && k in value.fields
        ensures Valid(extra, props[k], NormalValue(value.fields[k], HintsAt(hints, k), digits))
      {
        RewritingKeepsValid(extra, props[k], value.fields[k], HintsAt(hints, k), digits);
      }
    }
    if "additionalProperties" in m && value.Obj? {
      var sub := m["additionalProperties"];
      forall k | k in value.fields && k !in PropertyNames(m)
        ensures Valid(extra, sub, NormalValue(value.fields[k], HintsAt(hints, k), digits))
      {
        RewritingKeepsValid(extra, sub, value.fields[k], HintsAt(hints, k), digits);
      }
    }
    if "items" in m && value.Arr? {
      forall i | 0 <= i < |value.items|
        ensures Valid(extra, m["items"], NormalValue(value.items[i], ItemHints(hints), digits))
      {
        RewritingKeepsValid(extra, m["items"], value.items[i], ItemHints(hints), digits);
      }
    }
  }

  lemma {:induction false} AlternativesKept(extra: Extra, m: Fields, value: Json, hints: Json, digits: Digits)
    requires KeptByRewriting(extra, Obj(m), hints, digits) && !Silent(hints) && Valid(extra, Obj(m), value)
    ensures var r := NormalValue(value, hints, digits);
            && ("allOf" in m ==> AllHold(extra, m["allOf"], r))
            && ("anyOf" in m ==> AnyHolds(extra, m["anyOf"], r))
            && ("oneOf" in m ==> OneHolds(extra, m["oneOf"], r))
    decreases Obj(m), 0
  {
    if "allOf" in m {
      var options := m["allOf"].items;
      forall i | 0 <= i < |options| ensures Valid(extra, options[i], NormalValue(value, hints, digits)) {
        RewritingKeepsValid(extra, options[i], value, hints, digits);
      }
    }
    if "anyOf" in m {
      var options := m["anyOf"].items;
      var i :| 0 <= i < |options| && Valid(extra, options[i], value);
      RewritingKeepsValid(extra, options[i], value, hints, digits);
    }
    if "oneOf" in m {
      NormalValueKeepsShape(value, hints, digits);
      OptionsAreAlike(extra, m["oneOf"], value, hints, digits);
      OptionsAreShape(extra, m["oneOf"], value, NormalValue(value, hints, digits));
    }
  }

  // ---------------------------------------------------------------- exactly

  /** Some value that the node accepts has x under the key. */
  ghost predicate Occurs(extra: Extra, m: Fields, k: string, x: Json) {
    exists v :: Valid(extra, Obj(m), v) && v.Obj? && k in v.fields && v.fields[k] == x
  }

  ghost predicate OccursInList(extra: Extra, m: Fields, x: Json) {
    exists v, i :: Valid(extra, Obj(m), v) && v.Arr? && 0 <= i < |v.items| && v.items[i] == x
  }

  /** No node offers alternatives, and each value that a node accepts occurs in one that its parent accepts. */
  ghost predicate Inhabited(extra: Extra, s: Json)
    decreases s
  {
    s.Obj? ==>
      var m := s.fields;
      && "allOf" !in m && "anyOf" !in m && "oneOf" !in m
      && ("properties" in m && m["properties"].Obj? ==>
            forall k | k in m["properties"].fields ::
              && Inhabited(extra, m["properties"].fields[k])
              && forall x :: Valid(extra, m["properties"].fields[k], x) ==> Occurs(extra, m, k, x))
      && ("additionalProperties" in m ==>
            && Inhabited(extra, m["additionalProperties"])
            && forall k, x :: k !in PropertyNames(m) && Valid(extra, m["additionalProperties"], x) ==>
                 Occurs(extra, m, k, x))
      && ("items" in m ==>
            && Inhabited(extra, m["items"])
            && forall x :: Valid(extra, m["items"], x) ==> OccursInList(extra, m, x))
  }

  /**
   Closure is exact: of a schema without alternatives whose nodes are all inhabited, every valid value
   stays valid when it is rewritten if and only if the schema is closed under rewriting.
   */
  lemma RewritingSafeExactly(extra: Extra, s: Json, hints: Json, digits: Digits)
    requires Inhabited(extra, s)
    ensures RewritingSafe(extra, s, hints, digits) <==> KeptByRewriting(extra, s, hints, digits)
  {
    if KeptByRewriting(extra, s, hints, digits) {
      forall v | Valid(extra, s, v) ensures Valid(extra, s, NormalValue(v, hints, digits)) {
        RewritingKeepsValid(extra, s, v, hints, digits);
      }
    }
    if RewritingSafe(extra, s, hints, digits) { SafeIsKept(extra, s, hints, digits); }
  }

  lemma {:induction false} SafeIsKept(extra: Extra, s: Json, hints: Json, digits: Digits)
    requires Inhabited(extra, s) && RewritingSafe(extra, s, hints, digits)
    ensures KeptByRewriting(extra, s, hints, digits)
    decreases s
  {
    if s.Obj? && !Silent(hints) {
      var m := s.fields;
      if "properties" in m && m["properties"].Obj? {
        var props := m["properties"].fields;
        forall k | k in props ensures KeptByRewriting(extra, props[k], HintsAt(hints, k), digits) {
          PropertySafe(extra, m, k, hints, digits);
          SafeIsKept(extra, props[k], HintsAt(hints, k), digits);
        }
      }
      if "additionalProperties" in m {
        var sub := m["additionalProperties"];
        forall k | k !in PropertyNames(m) ensures KeptByRewriting(extra, sub, HintsAt(hints, k), digits) {
          AdditionalSafe(extra, m, k, hints, digits);
          SafeIsKept(extra, sub, HintsAt(hints, k), digits);
        }
      }
      if "items" in m {
        ItemsSafe(extra, m, hints, digits);
        SafeIsKept(extra, m["items"], ItemHints(hints), digits);
      }
    }
  }

  lemma PropertySafe(extra: Extra, m: Fields, k: string, hints: Json, digits: Digits)
    requires Inhabited(extra, Obj(m)) && RewritingSafe(extra, Obj(m), hints, digits)
    requires "properties" in m && m["properties"].Obj? && k in m["properties"].fields
    ensures RewritingSafe(extra, m["properties"].fields[k], HintsAt(hints, k), digits)
  {
    var sub := m["properties"].fields[k];
    forall x | Valid(extra, sub, x) ensures Valid(extra, sub, NormalValue(x, HintsAt(hints, k), digits)) {
      assert Occurs(extra, m, k, x);
      var v :| Valid(extra, Obj(m), v) && v.Obj? && k in v.fields && v.fields[k] == x;
      NormalMembers(v, hints, digits);
      assert PropertiesHold(extra, m["properties"], NormalValue(v, hints, digits));
    }
  }

  lemma AdditionalSafe(extra: Extra, m: Fields, k: string, hints: Json, digits: Digits)
    requires Inhabited(extra, Obj(m)) && RewritingSafe(extra, Obj(m), hints, digits)
    requires "additionalProperties" in m && k !in PropertyNames(m)
    ensures RewritingSafe(extra, m["additionalProperties"], HintsAt(hints, k), digits)
  {
    var sub := m["additionalProperties"];
    forall x | Valid(extra, sub, x) ensures Valid(extra, sub, NormalValue(x, HintsAt(hints, k), digits)) {
      assert Occurs(extra, m, k, x);
      var v :| Valid(extra, Obj(m), v) && v.Obj? && k in v.fields && v.fields[k] == x;
      NormalMembers(v, hints, digits);
      assert AdditionalHold(extra, PropertyNames(m), sub, NormalValue(v, hints, digits));
    }
  }

  lemma ItemsSafe(extra: Extra, m: Fields, hints: Json, digits: Digits)
    requires Inhabited(extra, Obj(m)) && RewritingSafe(extra, Obj(m), hints, digits)
    requires "items" in m
    ensures RewritingSafe(extra, m["items"], ItemHints(hints), digits)
  {
    var sub := m["items"];
    forall x | Valid(extra, sub, x) ensures Valid(extra, sub, NormalValue(x, ItemHints(hints), digits)) {
      assert OccursInList(extra, m, x);
      var v, i :| Valid(extra, Obj(m), v) && v.Arr? && 0 <= i < |v.items| && v.items[i] == x;
      NormalMembers(v, hints, digits);
      assert ItemsHold(extra, sub, NormalValue(v, hints, digits));
    }
  }

  /** The structural keywords of the node accept every string. */
  predicate TakesStrings(m: Fields) {
    && "allOf" !in m && "anyOf" !in m && "oneOf" !in m
    && ("type" in m ==> TypeAllows(m["type"], Str("")))
    && ("properties" in m ==> m["properties"].Obj?)
    && ("required" in m ==> m["required"].Arr?)
  }

  lemma StringJudgement(extra: Extra, m: Fields, text: string)
    requires TakesStrings(m)
    ensures Valid(extra, Obj(m), Str(text)) <==> OthersHold(extra, m, Str(text))
  {
    TypeIsShape(if "type" in m then m["type"] else Null, Str(""), Str(text));
  }

  /**
   At a node of strings, every valid value stays valid when it is rewritten if and only if each text that
   the keywords outside the structural ones accept is still accepted after its hints were applied.
   */
  lemma StringsSafeExactly(extra: Extra, m: Fields, digits: Digits)
    requires Get(m, "type") == Str("string") && TakesStrings(m)
    ensures RewritingSafe(extra, Obj(m), Obj(m), digits) <==>
            forall text: string ::
              OthersHold(extra, m, Str(text)) ==> OthersHold(extra, m, Str(NormalString(text, m, digits)))
  {
    forall text: string
      ensures Valid(extra, Obj(m), Str(text)) == OthersHold(extra, m, Str(text))
      ensures NormalValue(Str(text), Obj(m), digits) == Str(NormalString(text, m, digits))
    {
      StringJudgement(extra, m, text);
    }
    if RewritingSafe(extra, Obj(m), Obj(m), digits) {
      forall text: string | OthersHold(extra, m, Str(text))
        ensures OthersHold(extra, m, Str(NormalString(text, m, digits)))
      {
        assert Valid(extra, Obj(m), NormalValue(Str(text), Obj(m), digits));
      }
    } else {
      var v :| Valid(extra, Obj(m), v) && !Valid(extra, Obj(m), NormalValue(v, Obj(m), digits));
      assert v.Str? by { assert TypeAllows(m["type"], v); }
    }
  }

  /**
   For one value: without choices between alternatives, a valid value is still valid once it is rewritten
   if and only if the other keywords accept it wherever it was changed.
   */
  lemma RewrittenValueExactly(extra: Extra, s: Json, value: Json, hints: Json, digits: Digits)
    requires NoChoices(s) && Valid(extra, s, value)
    ensures var r := NormalValue(value, hints, digits);
            Valid(extra, s, r) <==> JudgedAlike(extra, s, value, r)
  {
    NormalValueKeepsShape(value, hints, digits);
    ValidExactlyIfAlike(extra, s, value, NormalValue(value, hints, digits));
  }

  // ---------------------------------------------------------------- two patterns

  /** A schema of objects with one property. */
  function ObjectOf(k: string, sub: Json): Json {
    Obj(map["properties" := Obj(map[k := sub])])
  }

  /** A keyword that reads text can be broken: keeping the digits of "+1" loses its required plus sign. */
  lemma RewritingBreaksPattern(extra: Extra, digits: Digits)
    requires DigitTable(digits)
    requires forall text :: extra("pattern", Str("^[+]"), Str(text)) <==> text != "" && text[0] == '+'
    requires forall v :: extra("x-normalize", Str("digits"), v)
    ensures var s := ObjectOf("phone", Obj(map["x-normalize" := Str("digits"), "pattern" := Str("^[+]")]));
            var v := Obj(map["phone" := Str("+1")]);
            Valid(extra, s, v) && !Valid(extra, s, NormalValue(v, s, digits))
  {
    var m := map["x-normalize" := Str("digits"), "pattern" := Str("^[+]")];
    var r := KeepDigits("+1", digits);
    assert r != "" ==> r[0] in r && '+' !in r;
    assert extra("pattern", m["pattern"], Str("+1"));
    OnlyOthers(extra, m, Str("+1"));
    OnlyOthers(extra, m, Str(r));
    OneHint("+1", m, digits);
    assert !OthersHold(extra, m, Str(r)) by { assert "pattern" in m && !extra("pattern", m["pattern"], Str(r)); }
    OneProperty(extra, "phone", Obj(m), Str("+1"), digits);
    OneProperty(extra, "phone", Obj(m), Str(r), digits);
  }

  lemma OneProperty(extra: Extra, k: string, sub: Json, v: Json, digits: Digits)
    ensures Valid(extra, ObjectOf(k, sub), Obj(map[k := v])) <==> Valid(extra, sub, v)
    ensures NormalValue(Obj(map[k := v]), ObjectOf(k, sub), digits) == Obj(map[k := NormalValue(v, sub, digits)])
  {
    var m := map["properties" := Obj(map[k := sub])];
    var props := m["properties"].fields;
    assert forall key :: key in props <==> key == k;
    assert props[k] == sub && Obj(map[k := v]).fields[k] == v;
    assert OthersHold(extra, m, Obj(map[k := v]));
    assert NormalValue(Obj(map[k := v]), ObjectOf(k, sub), digits).fields == map[k := NormalValue(v, sub, digits)];
  }

  /** A pattern that the hint respects: numbers written in plain digits stay as they are. */
  lemma RewritingKeepsPattern(extra: Extra, digits: Digits)
    requires DigitTable(digits)
    requires forall text: string ::
               extra("pattern", Str("^[0-9]*$"), Str(text)) <==> forall c | c in text :: '0' <= c <= '9'
    ensures var s := ObjectOf("phone", Obj(map["x-normalize" := Str("digits"), "pattern" := Str("^[0-9]*$")]));
            RewritingSafe(extra, s, s, digits)
  {
    var m := map["x-normalize" := Str("digits"), "pattern" := Str("^[0-9]*$")];
    var s := ObjectOf("phone", Obj(m));
    assert HintsAt(s, "phone") == Obj(m);
    forall v | Valid(extra, Obj(m), v) ensures NormalValue(v, Obj(m), digits) == v {
      OnlyOthers(extra, m, v);
      if v.Str? {
        assert extra("pattern", m["pattern"], v);
        OneHint(v.s, m, digits);
        KeepDigitsFixed(v.s, digits);
      }
    }
    assert KeptByRewriting(extra, Obj(m), Obj(m), digits);
    KeptProperty(extra, "phone", Obj(m), digits);
    forall v | Valid(extra, s, v) ensures Valid(extra, s, NormalValue(v, s, digits)) {
      RewritingKeepsValid(extra, s, v, s, digits);
    }
  }

  /** Every value that the property accepts occurs in an object that has nothing else. */
  lemma PropertyInhabited(extra: Extra, k: string, sub: Json, digits: Digits)
    requires Inhabited(extra, sub)
    ensures Inhabited(extra, ObjectOf(k, sub))
  {
    var m := map["properties" := Obj(map[k := sub])];
    forall x | Valid(extra, sub, x) ensures Occurs(extra, m, k, x) {
      OneProperty(extra, k, sub, x, digits);
      assert Obj(map[k := x]).fields[k] == x;
    }
  }

  lemma KeptProperty(extra: Extra, k: string, sub: Json, digits: Digits)
    requires KeptByRewriting(extra, sub, sub, digits)
    ensures KeptByRewriting(extra, ObjectOf(k, sub), ObjectOf(k, sub), digits)
  {
    var m := map["properties" := Obj(map[k := sub])];
    assert HintsAt(Obj(m), k) == sub;
    assert forall v :: OthersHold(extra, m, v);
  }

  lemma OnlyOthers(extra: Extra, m: Fields, v: Json)
    requires m.Keys !! STRUCTURAL
    ensures Valid(extra, Obj(m), v) <==> OthersHold(extra, m, v)
  {
  }

  lemma OneHint(text: string, m: Fields, digits: Digits)
    requires "format" !in m && "x-normalize" in m && m["x-normalize"].Str?
    ensures NormalValue(Str(text), Obj(m), digits) == Str(ApplyHint(text, m["x-normalize"], digits))
  {
    var hint := m["x-normalize"];
    assert [hint][1..] == [];
    assert ApplyHints(text, [hint], digits) == ApplyHints(ApplyHint(text, hint, digits), [hint][1..], digits);
  }
}
