/** The order in which Python's `sorted` lists the keys of a dictionary. */
module KeyOrder {

  /** Lexicographic order on strings by character. */
  predicate Leq(a: string, b: string) {
    a == [] || (b != [] && (a[0] < b[0] || (a[0] == b[0] && Leq(a[1..], b[1..]))))
  }

  /** A string comes before its extensions. */
  lemma {:induction false} LeqPrefix(p: string, x: string)
    ensures Leq(p, p + x)
  {
    if p != [] {
      LeqPrefix(p[1..], x);
      assert (p + x)[1..] == p[1..] + x;
    }
  }

  /** The first different character decides. */
  lemma {:induction false} LeqExactly(p: string, c: char, x: string, d: char, y: string)
    requires c < d
    ensures Leq(p + ([c] + x), p + ([d] + y)) && !Leq(p + ([d] + y), p + ([c] + x))
  {
    var lower, upper := [c] + x, [d] + y;
    if p == [] {
      assert p + lower == lower && p + upper == upper;
    } else {
      LeqExactly(p[1..], c, x, d, y);
      assert (p + lower)[1..] == p[1..] + lower && (p + upper)[1..] == p[1..] + upper;
    }
  }

  lemma LeqTotal(a: string, b: string)
    ensures Leq(a, b) || Leq(b, a)
  {
  }

  lemma LeqAntisymmetric(a: string, b: string)
    requires Leq(a, b) && Leq(b, a)
    ensures a == b
  {
    if a != [] {
      LeqAntisymmetric(a[1..], b[1..]);
      assert a == [a[0]] + a[1..] && b == [b[0]] + b[1..];
    }
  }

  lemma LeqTransitive(a: string, b: string, c: string)
    requires Leq(a, b) && Leq(b, c)
    ensures Leq(a, c)
  {
    if a != [] && a[0] == b[0] == c[0] {
      LeqTransitive(a[1..], b[1..], c[1..]);
    }
  }

  predicate IsLeast(k: string, keys: set<string>) {
    k in keys && forall x | x in keys :: Leq(k, x)
  }

  lemma {:induction false} LeastExists(keys: set<string>)
    requires keys != {}
    ensures exists k :: IsLeast(k, keys)
  {
    var x :| x in keys;
    var rest := keys - {x};
    assert keys == rest + {x};
    LeqTotal(x, x);
    if rest == {} {
      assert IsLeast(x, keys);
    } else {
      LeastExists(rest);
      var k :| IsLeast(k, rest);
      LeqTotal(x, k);
      if Leq(k, x) {
        assert IsLeast(k, keys);
      } else {
        forall y | y in keys ensures Leq(x, y) {
          if y != x { LeqTransitive(x, k, y); }
        }
        assert IsLeast(x, keys);
      }
    }
  }

  function Least(keys: set<string>): (k: string)
    requires keys != {}
    ensures IsLeast(k, keys)
  {
    LeastExists(keys);
    LeastUnique(keys);
    var k :| IsLeast(k, keys);
    k
  }

  lemma LeastUnique(keys: set<string>)
    ensures forall x, y :: IsLeast(x, keys) && IsLeast(y, keys) ==> x == y
  {
    forall x, y | IsLeast(x, keys) && IsLeast(y, keys) ensures x == y { LeqAntisymmetric(x, y); }
  }

  /** `sorted(keys)`: every key once, in ascending order. */
  function SortedKeys(keys: set<string>): (r: seq<string>)
    ensures forall k :: k in r <==> k in keys
    ensures |r| == |keys|
    ensures forall i, j :: 0 <= i < j < |r| ==> Leq(r[i], r[j])
  {
    if keys == {} then []
    else
      var k := Least(keys);
      var rest := SortedKeys(keys - {k});
      PrependLeast(k, rest, keys);
      [k] + rest
  }

  lemma PrependLeast(k: string, rest: seq<string>, keys: set<string>)
    requires IsLeast(k, keys)
    requires forall x :: x in rest <==> x in keys - {k}
    requires forall i, j :: 0 <= i < j < |rest| ==> Leq(rest[i], rest[j])
    ensures forall x :: x in [k] + rest <==> x in keys
    ensures forall i, j :: 0 <= i < j < |[k] + rest| ==> Leq(([k] + rest)[i], ([k] + rest)[j])
  {
    assert forall i :: 0 <= i < |rest| ==> rest[i] in rest;
  }
}
