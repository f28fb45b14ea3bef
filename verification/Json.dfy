/**
 JSON values.  Schemas, model output and check definitions are all values of this type, as they are
 all plain dictionaries and lists in the service.
 */
module Json {
  datatype Json =
    | Null
    | Bool(b: bool)
    | Num(n: real)
    | Str(s: string)
    | Arr(items: seq<Json>)
    | Obj(fields: map<string, Json>)

  type Fields = map<string, Json>

  /** `mapping.get(key)`. */
  function Get(m: Fields, key: string): Json {
    if key in m then m[key] else Null
  }

  /** Truth value of a JSON value in a Python condition. */
  predicate Truthy(v: Json) {
    match v
    case Null => false
    case Bool(b) => b
    case Num(n) => n != 0.0
    case Str(s) => s != ""
    case Arr(xs) => xs != []
    case Obj(m) => m != map[]
  }

  /** What counts as false: null, false, zero, and everything empty. */
  lemma TruthyExactly(v: Json)
    ensures !Truthy(v) <==> v in {Null, Bool(false), Num(0.0), Str(""), Arr([]), Obj(map[])}
  {
  }

  // ---------------------------------------------------------------- equality

  /** Booleans are integers in Python: True is 1 and False is 0. */
  function AsNumbers(v: Json): Json {
    match v
    case Bool(b) => Num(if b then 1.0 else 0.0)
    case Arr(xs) => Arr(seq(|xs|, i requires 0 <= i < |xs| => AsNumbers(xs[i])))
    case Obj(m) => Obj(map k | k in m :: AsNumbers(m[k]))
    case _ => v
  }

  /** `a == b` in Python: equality once booleans are read as numbers. */
  predicate PyEq(a: Json, b: Json) {
    AsNumbers(a) == AsNumbers(b)
  }

  /** The structural reading of Python equality, case by case. */
  lemma PyEqStructural(a: Json, b: Json)
    ensures PyEq(a, b) <==>
            match (AsScalar(a), AsScalar(b))
            case (Arr(xs), Arr(ys)) =>
              |xs| == |ys| && forall i :: 0 <= i < |xs| ==> PyEq(xs[i], ys[i])
            case (Obj(m), Obj(n)) =>
              m.Keys == n.Keys && forall k | k in m :: PyEq(m[k], n[k])
            case (x, y) => x == y
  {
    match (a, b)
    case (Arr(xs), Arr(ys)) =>
      if PyEq(a, b) {
        forall i | 0 <= i < |xs| ensures PyEq(xs[i], ys[i]) {
          assert AsNumbers(a).items[i] == AsNumbers(b).items[i];
        }
      }
    case (Obj(m), Obj(n)) =>
      assert AsNumbers(a).fields.Keys == m.Keys && AsNumbers(b).fields.Keys == n.Keys;
      if PyEq(a, b) {
        forall k | k in m ensures PyEq(m[k], n[k]) {
          assert AsNumbers(a).fields[k] == AsNumbers(b).fields[k];
        }
      }
    case _ =>
  }

  /** True equals one and False equals zero; other scalars equal themselves only. */
  lemma PyEqScalars(b: bool, n: real, s: string, v: Json)
    ensures PyEq(Bool(b), Num(n)) <==> n == if b then 1.0 else 0.0
    ensures PyEq(Str(s), v) <==> v == Str(s)
    ensures PyEq(Null, v) <==> v == Null
  {
  }

  function AsScalar(v: Json): Json {
    if v.Bool? then Num(if v.b then 1.0 else 0.0) else v
  }

  // ---------------------------------------------------------------- shape

  /**
   Two values have the same shape when they differ at most in the text of their strings: same keys,
   same list lengths, and the same value wherever it is not a string.
   */
  predicate SameShape(a: Json, b: Json) {
    match a
    case Str(_) => b.Str?
    case Arr(xs) => b.Arr? && |xs| == |b.items| && forall i :: 0 <= i < |xs| ==> SameShape(xs[i], b.items[i])
    case Obj(m) => b.Obj? && m.Keys == b.fields.Keys && forall k | k in m :: SameShape(m[k], b.fields[k])
    case _ => a == b
  }

  lemma {:induction false} SameShapeReflexive(a: Json)
    ensures SameShape(a, a)
  {
    match a
    case Arr(xs) => forall i | 0 <= i < |xs| ensures SameShape(xs[i], xs[i]) { SameShapeReflexive(xs[i]); }
    case Obj(m) => forall k | k in m ensures SameShape(m[k], m[k]) { SameShapeReflexive(m[k]); }
    case _ =>
  }

  /** No null anywhere inside the value. */
  predicate NullFree(v: Json) {
    match v
    case Null => false
    case Arr(xs) => forall i :: 0 <= i < |xs| ==> NullFree(xs[i])
    case Obj(m) => forall k | k in m :: NullFree(m[k])
    case _ => true
  }
}
