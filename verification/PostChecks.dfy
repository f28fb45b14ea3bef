/** The declarative checks that a caller may run over extracted data. */
module PostChecks {
  import opened Wrappers
  import opened Text
  import opened Json
  import opened JsonPointer
  import opened ValueNormalize

  datatype Detail =
    | Sums(addends: seq<real>, sum: real, total: real, tolerance: Json)
    | Failed(reason: Reason)

  /** One evaluated check; `index` is the element of the scope it was evaluated on. */
  datatype Outcome = Outcome(op: Json, passed: bool, index: Option<nat>, detail: Detail)

  // ---------------------------------------------------------------- evaluation

  function Numeric(r: Resolution): Result<real, Reason> {
    if r.Err? then Err(r.error)
    else if r.value.Num? then Ok(r.value.n)
    else Err(NotNumeric(r.value))
  }

  /** The addends in order, or the first reason why one is missing. */
  function Addends(data: Json, pointers: seq<Json>, digits: Digits): Result<seq<real>, Reason> {
    if pointers == [] then Ok([])
    else
      var first := Numeric(Resolve(data, pointers[0], digits));
      if first.Err? then Err(first.error)
      else
        var rest := Addends(data, pointers[1..], digits);
        if rest.Err? then rest else Ok([first.value] + rest.value)
  }

  function Sum(xs: seq<real>): real {
    if xs == [] then 0.0 else xs[0] + Sum(xs[1..])
  }

  function Abs(x: real): real {
    if x < 0.0 then -x else x
  }

  /** A boolean is an integer here: `isinstance(True, int | float)` holds. */
  function Tolerance(check: Fields): Option<real> {
    match ToleranceGiven(check)
    case Bool(b) => Some(if b then 1.0 else 0.0)
    case Num(n) => Some(n)
    case _ => None
  }

  /** `check.get("tolerance", 0)`. */
  function ToleranceGiven(check: Fields): Json {
    if "tolerance" in check then check["tolerance"] else Num(0.0)
  }

  function SumEquals(data: Json, check: Fields, index: Option<nat>, digits: Digits): Outcome {
    var op := Str("sum_equals");
    var addends, total, tolerance := Get(check, "addends"), Get(check, "total"), Tolerance(check);
    if !addends.Arr? || addends.items == [] then Outcome(op, false, index, Failed(BadAddends))
    else if !total.Str? then Outcome(op, false, index, Failed(BadTotal))
    else if tolerance.None? then Outcome(op, false, index, Failed(BadTolerance))
    else
      var values := Addends(data, addends.items, digits);
      if values.Err? then Outcome(op, false, index, Failed(values.error))
      else
        var expected := Numeric(Resolve(data, total, digits));
        if expected.Err? then Outcome(op, false, index, Failed(expected.error))
        else
          var sum := Sum(values.value);
          Outcome(op, Abs(sum - expected.value) <= tolerance.value, index,
                  Sums(values.value, sum, expected.value, ToleranceGiven(check)))
  }

  /** `_evaluate_check`: one outcome, or one for each element of the scope. */
  function EvaluateCheck(data: Json, check: Json, digits: Digits): seq<Outcome> {
    if !check.Obj? then [Outcome(Str("unknown"), false, None, Failed(NotAnObject))]
    else
      var m := check.fields;
      var op, scope := Get(m, "op"), Get(m, "scope");
      if op != Str("sum_equals")
      then [Outcome(if op.Null? then Str("unknown") else op, false, None, Failed(UnsupportedOp(op)))]
      else if scope.Null? then [SumEquals(data, m, None, digits)]
      else
        var elements := Resolve(data, scope, digits);
        if elements.Err? then [Outcome(op, false, None, Failed(elements.error))]
        else if !elements.value.Arr? then [Outcome(op, false, None, Failed(ScopeNotArray))]
        else
          var xs := elements.value.items;
          seq(|xs|, i requires 0 <= i < |xs| => SumEquals(xs[i], m, Some(i), digits))
  }

  function Evaluate(data: Json, checks: seq<Json>, digits: Digits): seq<Outcome> {
    if checks == [] then []
    else EvaluateCheck(data, checks[0], digits) + Evaluate(data, checks[1..], digits)
  }

  /** `evaluate_post_checks`. */
  method EvaluatePostChecks(data: Json, checks: seq<Json>, digits: Digits) returns (results: seq<Outcome>)
    ensures results == Evaluate(data, checks, digits)
  {
    results := [];
    var i := 0;
    while i < |checks|
      invariant 0 <= i <= |checks|
      invariant results == Evaluate(data, checks[..i], digits)
    {
      EvaluateNext(data, checks[..i], checks[i], digits);
      assert checks[..i] + [checks[i]] == checks[..i + 1];
      results := results + EvaluateCheck(data, checks[i], digits);
      i := i + 1;
    }
    assert checks[..i] == checks;
  }

  lemma {:induction false} EvaluateNext(data: Json, checks: seq<Json>, check: Json, digits: Digits)
    ensures Evaluate(data, checks + [check], digits)
            == Evaluate(data, checks, digits) + EvaluateCheck(data, check, digits)
  {
    EvaluateCons(data, checks + [check], digits);
    if checks == [] {
      assert Evaluate(data, (checks + [check])[1..], digits) == [];
    } else {
      EvaluateCons(data, checks, digits);
      EvaluateNext(data, checks[1..], check, digits);
      assert (checks + [check])[1..] == checks[1..] + [check];
    }
  }

  lemma EvaluateCons(data: Json, checks: seq<Json>, digits: Digits)
    requires checks != []
    ensures Evaluate(data, checks, digits)
            == EvaluateCheck(data, checks[0], digits) + Evaluate(data, checks[1..], digits)
  {
  }

  // ---------------------------------------------------------------- what a check means

  /** Resolving gives a number. */
  predicate NamesNumber(data: Json, pointer: Json, digits: Digits) {
    var r := Resolve(data, pointer, digits);
    r.Ok? && r.value.Num?
  }

  function NumberAt(data: Json, pointer: Json, digits: Digits): real
    requires NamesNumber(data, pointer, digits)
  {
    Resolve(data, pointer, digits).value.n
  }

  predicate NameNumbers(data: Json, pointers: seq<Json>, digits: Digits) {
    forall i :: 0 <= i < |pointers| ==> NamesNumber(data, pointers[i], digits)
  }

  function Mapped<A, B>(f: A -> B, xs: seq<A>): seq<B> {
    seq(|xs|, i requires 0 <= i < |xs| => f(xs[i]))
  }

  lemma MappedCons<A, B>(f: A -> B, xs: seq<A>)
    requires xs != []
    ensures Mapped(f, xs) == [f(xs[0])] + Mapped(f, xs[1..])
  {
  }

  function NumberOf(data: Json, digits: Digits): Json -> real {
    pointer => if NamesNumber(data, pointer, digits) then NumberAt(data, pointer, digits) else 0.0
  }

  function NumbersAt(data: Json, pointers: seq<Json>, digits: Digits): seq<real>
    requires NameNumbers(data, pointers, digits)
  {
    Mapped(NumberOf(data, digits), pointers)
  }

  /** The addends are known exactly when every part resolves to a number, and then they are those numbers. */
  lemma {:induction false} AddendsMeaning(data: Json, pointers: seq<Json>, digits: Digits)
    ensures Addends(data, pointers, digits).Ok? <==> NameNumbers(data, pointers, digits)
    ensures NameNumbers(data, pointers, digits) ==>
              Addends(data, pointers, digits) == Ok(NumbersAt(data, pointers, digits))
  {
    if pointers != [] {
      var rest := pointers[1..];
      AddendsMeaning(data, rest, digits);
      NameNumbersCons(data, pointers, digits);
      if NameNumbers(data, pointers, digits) { NumbersAtCons(data, pointers, digits); }
    } else {
      assert NumbersAt(data, pointers, digits) == [];
    }
  }

  lemma NameNumbersCons(data: Json, pointers: seq<Json>, digits: Digits)
    requires pointers != []
    ensures NameNumbers(data, pointers, digits) <==>
            NamesNumber(data, pointers[0], digits) && NameNumbers(data, pointers[1..], digits)
  {
    var rest := pointers[1..];
    assert forall i :: 0 <= i < |rest| ==> rest[i] == pointers[i + 1];
    assert forall i :: 1 <= i < |pointers| ==> pointers[i] == rest[i - 1];
  }

  lemma NumbersAtCons(data: Json, pointers: seq<Json>, digits: Digits)
    requires pointers != [] && NameNumbers(data, pointers, digits) && NameNumbers(data, pointers[1..], digits)
    ensures NumbersAt(data, pointers, digits)
            == [NumberAt(data, pointers[0], digits)] + NumbersAt(data, pointers[1..], digits)
  {
    MappedCons(NumberOf(data, digits), pointers);
  }

  /** The values of the addends are the numbers that the pointers lead to, one for each. */
  lemma AddendsExactly(data: Json, pointers: seq<Json>, values: seq<real>, digits: Digits)
    ensures Addends(data, pointers, digits) == Ok(values) <==>
            && |values| == |pointers|
            && forall i :: 0 <= i < |pointers| ==> Resolve(data, pointers[i], digits) == Ok(Num(values[i]))
  {
    AddendsMeaning(data, pointers, digits);
    if |values| == |pointers|
       && forall i :: 0 <= i < |pointers| ==> Resolve(data, pointers[i], digits) == Ok(Num(values[i]))
    {
      assert NameNumbers(data, pointers, digits);
      assert NumbersAt(data, pointers, digits) == values;
    }
  }

  /** The first addend that is no number says why there are none. */
  lemma {:induction false} AddendsStop(data: Json, before: seq<Json>, pointer: Json, after: seq<Json>, digits: Digits)
    requires NameNumbers(data, before, digits) && !NamesNumber(data, pointer, digits)
    ensures Addends(data, before + [pointer] + after, digits) ==
            match Resolve(data, pointer, digits)
            case Err(reason) => Err(reason)
            case Ok(v) => Err(NotNumeric(v))
  {
    var all := before + [pointer] + after;
    if before == [] {
      assert all[0] == pointer;
    } else {
      NameNumbersCons(data, before, digits);
      assert all[0] == before[0] && all[1..] == before[1..] + [pointer] + after;
      AddendsStop(data, before[1..], pointer, after, digits);
    }
  }

  /** A check that can be evaluated on the data. */
  predicate Evaluable(data: Json, check: Fields, digits: Digits) {
    var addends := Get(check, "addends");
    && addends.Arr? && addends.items != [] && NameNumbers(data, addends.items, digits)
    && Get(check, "total").Str? && NamesNumber(data, Get(check, "total"), digits)
    && Tolerance(check).Some?
  }

  /** The sum of the numbers the addends name is within the tolerance of the number the total names. */
  predicate Balanced(data: Json, check: Fields, digits: Digits)
    requires Evaluable(data, check, digits)
  {
    var sum := Sum(NumbersAt(data, Get(check, "addends").items, digits));
    Abs(sum - NumberAt(data, Get(check, "total"), digits)) <= Tolerance(check).value
  }

  /** A check passes exactly when it can be evaluated and balances. */
  lemma SumEqualsMeaning(data: Json, check: Fields, index: Option<nat>, digits: Digits)
    ensures var o := SumEquals(data, check, index, digits);
            && o.index == index
            && (o.detail.Sums? <==> Evaluable(data, check, digits))
            && (o.passed <==> Evaluable(data, check, digits) && Balanced(data, check, digits))
  {
    var addends := Get(check, "addends");
    if addends.Arr? { AddendsMeaning(data, addends.items, digits); }
  }

  /** What the tolerance of a check amounts to: absent is none, and a truth value is a number. */
  predicate Tolerates(check: Fields, t: real) {
    if "tolerance" !in check then t == 0.0
    else
      || check["tolerance"] == Num(t)
      || (check["tolerance"] == Bool(true) && t == 1.0)
      || (check["tolerance"] == Bool(false) && t == 0.0)
  }

  lemma ToleranceExactly(check: Fields, t: real)
    ensures Tolerance(check) == Some(t) <==> Tolerates(check, t)
  {
  }

  /**
   In plain arithmetic: a check that can be evaluated passes if and only if the sum of its addends lies
   between the total less and the total plus the tolerance.
   */
  lemma PassesExactly(data: Json, check: Fields, index: Option<nat>, t: real, digits: Digits)
    requires Evaluable(data, check, digits) && Tolerates(check, t)
    ensures var o := SumEquals(data, check, index, digits);
            var sum := Sum(NumbersAt(data, Get(check, "addends").items, digits));
            var total := NumberAt(data, Get(check, "total"), digits);
            && (o.passed <==> total - t <= sum <= total + t)
            && o.detail == Sums(NumbersAt(data, Get(check, "addends").items, digits), sum, total, ToleranceGiven(check))
  {
    ToleranceExactly(check, t);
    SumEqualsMeaning(data, check, index, digits);
    AddendsMeaning(data, Get(check, "addends").items, digits);
  }

  /** A sum adds its parts: nothing for none, the number itself for one, and both sums for two lists. */
  lemma {:induction false} SumAppend(a: seq<real>, b: seq<real>)
    ensures Sum(a + b) == Sum(a) + Sum(b)
    ensures |a| == 1 ==> Sum(a) == a[0]
    ensures a == [] ==> Sum(a) == 0.0
  {
    if a == [] {
      assert a + b == b;
    } else {
      assert (a + b)[1..] == a[1..] + b;
      SumAppend(a[1..], b);
    }
  }

  /** A check that cannot be evaluated says why: the addends, the total, the tolerance, then the first part. */
  lemma FailureReasons(data: Json, check: Fields, index: Option<nat>, digits: Digits)
    ensures var o := SumEquals(data, check, index, digits);
            var addends, total := Get(check, "addends"), Get(check, "total");
            && o.op == Str("sum_equals")
            && (o.detail == Failed(BadAddends) <== !addends.Arr? || addends.items == [])
            && (addends.Arr? && addends.items != [] ==>
                  && (!total.Str? ==> o.detail == Failed(BadTotal))
                  && (total.Str? && (forall t :: !Tolerates(check, t)) ==> o.detail == Failed(BadTolerance)))
  {
    if Tolerance(check).Some? { ToleranceExactly(check, Tolerance(check).value); }
  }

  /**
   What is no sum check fails once: a check that is no object, an operation other than sum_equals, and a
   scope that does not lead to a list.  Without a scope there is one outcome, that of the whole data.
   */
  lemma CheckDispatch(data: Json, check: Json, digits: Digits)
    ensures var outcomes := EvaluateCheck(data, check, digits);
            if !check.Obj? then outcomes == [Outcome(Str("unknown"), false, None, Failed(NotAnObject))]
            else
              var m := check.fields;
              var op, scope := Get(m, "op"), Get(m, "scope");
              if op != Str("sum_equals") then
                && |outcomes| == 1 && !outcomes[0].passed && outcomes[0].detail == Failed(UnsupportedOp(op))
                && outcomes[0].op == if op == Null then Str("unknown") else op
              else if scope == Null then outcomes == [SumEquals(data, m, None, digits)]
              else
                var elements := Resolve(data, scope, digits);
                match elements
                case Err(reason) => outcomes == [Outcome(op, false, None, Failed(reason))]
                case Ok(Arr(xs)) => |outcomes| == |xs|
                case Ok(_) => outcomes == [Outcome(op, false, None, Failed(ScopeNotArray))]
  {
  }

  // ---------------------------------------------------------------- scope

  /** A pointer written relative to the value that `prefix` names. */
  function Prefixed(pointer: Json, prefix: string): Json {
    if pointer.Str? then Str(prefix + pointer.s) else pointer
  }

  /** The unscoped check whose pointers are prefixed. */
  function Unscoped(m: Fields, prefix: string): Fields {
    var addends := Get(m, "addends");
    m["scope" := Null]
     ["addends" := if addends.Arr?
                   then Arr(seq(|addends.items|, i requires 0 <= i < |addends.items| =>
                                Prefixed(addends.items[i], prefix)))
                   else addends]
     ["total" := Prefixed(Get(m, "total"), prefix)]
  }

  predicate WellFormedPointer(pointer: Json) {
    pointer.Str? ==> WellFormed(pointer.s)
  }

  predicate WellFormedCheck(m: Fields) {
    && WellFormedPointer(Get(m, "total"))
    && (Get(m, "addends").Arr? ==>
          forall i :: 0 <= i < |Get(m, "addends").items| ==> WellFormedPointer(Get(m, "addends").items[i]))
  }

  lemma {:induction false} AddendsPrefixed(data: Json, element: Json, prefix: string,
                                           pointers: seq<Json>, prefixed: seq<Json>, digits: Digits)
    requires WellFormed(prefix) && Resolve(data, Str(prefix), digits) == Ok(element)
    requires |prefixed| == |pointers|
    requires forall i :: 0 <= i < |pointers| ==>
               WellFormedPointer(pointers[i]) && prefixed[i] == Prefixed(pointers[i], prefix)
    ensures Addends(data, prefixed, digits) == Addends(element, pointers, digits)
  {
    if pointers != [] {
      if pointers[0].Str? { ResolveAppend(data, prefix, pointers[0].s, digits); }
      AddendsPrefixed(data, element, prefix, pointers[1..], prefixed[1..], digits);
    }
  }

  /** Evaluating a check on an element is evaluating it from the root with prefixed pointers. */
  lemma SumEqualsPrefixed(data: Json, element: Json, prefix: string, m: Fields, index: Option<nat>,
                          digits: Digits)
    requires WellFormed(prefix) && Resolve(data, Str(prefix), digits) == Ok(element)
    requires WellFormedCheck(m)
    ensures SumEquals(element, m, index, digits)
            == SumEquals(data, Unscoped(m, prefix), None, digits).(index := index)
  {
    var u := Unscoped(m, prefix);
    UnscopedKeywords(m, prefix);
    var addends, total := Get(m, "addends"), Get(m, "total");
    if addends.Arr? {
      AddendsPrefixed(data, element, prefix, addends.items, Get(u, "addends").items, digits);
    }
    if total.Str? { ResolveAppend(data, prefix, total.s, digits); }
  }

  lemma UnscopedKeywords(m: Fields, prefix: string)
    ensures var u := Unscoped(m, prefix);
            && Get(u, "op") == Get(m, "op") && Get(u, "scope") == Null
            && ToleranceGiven(u) == ToleranceGiven(m)
            && Get(u, "total") == Prefixed(Get(m, "total"), prefix)
            && (Get(m, "addends").Arr? <==> Get(u, "addends").Arr?)
            && (Get(m, "addends").Arr? ==>
                  && |Get(u, "addends").items| == |Get(m, "addends").items|
                  && forall i :: 0 <= i < |Get(m, "addends").items| ==>
                       Get(u, "addends").items[i] == Prefixed(Get(m, "addends").items[i], prefix))
  {
  }

  /**
   A scoped check yields one outcome for each element of the scope, in order, and each is the outcome
   of the unscoped check whose pointers start at that element.
   */
  lemma ScopedCheck(data: Json, m: Fields, digits: Digits)
    requires DigitTable(digits)
    requires Get(m, "op") == Str("sum_equals") && Get(m, "scope").Str?
    requires WellFormed(m["scope"].s) && WellFormedCheck(m)
    requires Resolve(data, m["scope"], digits).Ok? && Resolve(data, m["scope"], digits).value.Arr?
    ensures var xs := Resolve(data, m["scope"], digits).value.items;
            var outcomes := EvaluateCheck(data, Obj(m), digits);
            |outcomes| == |xs| &&
            forall i :: 0 <= i < |xs| ==>
              var alone := EvaluateCheck(data, Obj(Unscoped(m, Below(m["scope"].s, i))), digits);
              |alone| == 1 && outcomes[i] == alone[0].(index := Some(i))
  {
    var s := m["scope"].s;
    var xs := Resolve(data, m["scope"], digits).value.items;
    var outcomes := EvaluateCheck(data, Obj(m), digits);
    forall i | 0 <= i < |xs|
      ensures EvaluateCheck(data, Obj(Unscoped(m, Below(s, i))), digits)
              == [SumEquals(data, Unscoped(m, Below(s, i)), None, digits)]
      ensures outcomes[i]
              == SumEquals(data, Unscoped(m, Below(s, i)), None, digits).(index := Some(i))
    {
      ResolveElement(data, s, i, digits);
      UnscopedKeywords(m, Below(s, i));
      SumEqualsPrefixed(data, xs[i], Below(s, i), m, Some(i), digits);
    }
  }

  // ---------------------------------------------------------------- shape

  /** The same outcome, except that a reason may quote a string with other text. */
  predicate SameOutcome(a: Outcome, b: Outcome) {
    && a.op == b.op && a.passed == b.passed && a.index == b.index
    && (a.detail == b.detail
        || (a.detail.Failed? && b.detail.Failed? && SameReason(a.detail.reason, b.detail.reason)))
  }

  predicate SameReason(a: Reason, b: Reason) {
    a == b || (a.NotNumeric? && b.NotNumeric? && SameShape(a.value, b.value))
  }

  predicate SameOutcomes(a: seq<Outcome>, b: seq<Outcome>) {
    |a| == |b| && forall i :: 0 <= i < |a| ==> SameOutcome(a[i], b[i])
  }

  predicate SameNumbers<T(==)>(a: Result<T, Reason>, b: Result<T, Reason>) {
    a == b || (a.Err? && b.Err? && SameReason(a.error, b.error))
  }

  lemma NumericShape(a: Json, b: Json, pointer: Json, digits: Digits)
    requires SameShape(a, b)
    ensures SameNumbers(Numeric(Resolve(a, pointer, digits)), Numeric(Resolve(b, pointer, digits)))
  {
    ResolveShape(a, b, pointer, digits);
  }

  lemma {:induction false} AddendsShape(a: Json, b: Json, pointers: seq<Json>, digits: Digits)
    requires SameShape(a, b)
    ensures SameNumbers(Addends(a, pointers, digits), Addends(b, pointers, digits))
  {
    if pointers != [] {
      NumericShape(a, b, pointers[0], digits);
      AddendsShape(a, b, pointers[1..], digits);
    }
  }

  lemma SumEqualsShape(a: Json, b: Json, check: Fields, index: Option<nat>, digits: Digits)
    requires SameShape(a, b)
    ensures SameOutcome(SumEquals(a, check, index, digits), SumEquals(b, check, index, digits))
  {
    var addends := Get(check, "addends");
    if addends.Arr? { AddendsShape(a, b, addends.items, digits); }
    NumericShape(a, b, Get(check, "total"), digits);
  }

  lemma EvaluateCheckShape(a: Json, b: Json, check: Json, digits: Digits)
    requires SameShape(a, b)
    ensures SameOutcomes(EvaluateCheck(a, check, digits), EvaluateCheck(b, check, digits))
  {
    if check.Obj? {
      var m := check.fields;
      var scope := Get(m, "scope");
      SumEqualsShape(a, b, m, None, digits);
      ResolveShape(a, b, scope, digits);
      var x, y := Resolve(a, scope, digits), Resolve(b, scope, digits);
      if x.Ok? && x.value.Arr? {
        forall i | 0 <= i < |x.value.items|
          ensures SameOutcome(SumEquals(x.value.items[i], m, Some(i), digits),
                              SumEquals(y.value.items[i], m, Some(i), digits))
        {
          SumEqualsShape(x.value.items[i], y.value.items[i], m, Some(i), digits);
        }
      }
    }
  }

  lemma {:induction false} EvaluateShape(a: Json, b: Json, checks: seq<Json>, digits: Digits)
    requires SameShape(a, b)
    ensures SameOutcomes(Evaluate(a, checks, digits), Evaluate(b, checks, digits))
  {
    if checks != [] {
      EvaluateCheckShape(a, b, checks[0], digits);
      EvaluateShape(a, b, checks[1..], digits);
    }
  }

  /**
   Rewriting values before the checks changes no check: same number of outcomes, in the same order,
   with the same verdicts and the same numbers.
   */
  lemma ChecksIgnoreNormalization(data: Json, schema: Json, checks: seq<Json>, digits: Digits)
    ensures SameOutcomes(Evaluate(data, checks, digits),
                         Evaluate(NormalValue(data, schema, digits), checks, digits))
  {
    NormalValueKeepsShape(data, schema, digits);
    EvaluateShape(data, NormalValue(data, schema, digits), checks, digits);
  }
}
