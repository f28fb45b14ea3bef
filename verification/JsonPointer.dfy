/** JSON Pointer (RFC 6901) as the service evaluates it. */
module JsonPointer {
  import opened Wrappers
  import opened Text
  import opened Json

  /** Why a pointer does not resolve, or a check cannot be evaluated. */
  datatype Reason =
    | NotAString
    | InvalidPointer
    | MissingKey(key: string)
    | InvalidIndex(token: string)
    | OutOfRange
    | NotIndexable
    | NotNumeric(value: Json)
    | BadAddends
    | BadTotal
    | BadTolerance
    | ScopeNotArray
    | UnsupportedOp(op: Json)
    | NotAnObject

  type Resolution = Result<Json, Reason>

  // ---------------------------------------------------------------- tokens

  /** `text.replace(xy, z)` for a two-character pattern. */
  function Replace(s: string, x: char, y: char, z: char): string
    decreases |s|
  {
    if s == [] then []
    else if |s| >= 2 && s[0] == x && s[1] == y then [z] + Replace(s[2..], x, y, z)
    else [s[0]] + Replace(s[1..], x, y, z)
  }

  /** `raw.replace("~1", "/").replace("~0", "~")`. */
  function Unescape(raw: string): string {
    Replace(Replace(raw, '~', '1', '/'), '~', '0', '~')
  }

  /** Section 3 of RFC 6901: how a key is written inside a pointer. */
  function Escape(token: string): string {
    if token == [] then []
    else (match token[0] case '~' => "~0" case '/' => "~1" case c => [c]) + Escape(token[1..])
  }

  /** The reference tokens, escaped and joined. */
  function Render(tokens: seq<string>): string {
    if tokens == [] then "" else "/" + Escape(tokens[0]) + Render(tokens[1..])
  }

  predicate WellFormed(pointer: string) {
    pointer == "" || pointer[0] == '/'
  }

  /** The reference tokens written in a well-formed JSON Pointer. */
  function Tokens(pointer: string): seq<string> {
    UnescapeAll(RawTokens(pointer))
  }

  function RawTokens(pointer: string): seq<string> {
    if pointer == "" then [] else Split(pointer, '/')[1..]
  }

  function UnescapeAll(raw: seq<string>): seq<string> {
    seq(|raw|, i requires 0 <= i < |raw| => Unescape(raw[i]))
  }

  // ---------------------------------------------------------------- evaluation

  /** One step into a value: a key of an object or an index of an array. */
  function Step(current: Json, token: string, digits: Digits): Resolution {
    match current
    case Obj(m) => if token in m then Ok(m[token]) else Err(MissingKey(token))
    case Arr(xs) =>
      var position := ParseInt(token, digits);
      if position.None? then Err(InvalidIndex(token))
      else if position.value < 0 || position.value >= |xs| then Err(OutOfRange)
      else Ok(xs[position.value])
    case _ => Err(NotIndexable)
  }

  /** Walking the reference tokens directly. */
  function Walk(data: Json, tokens: seq<string>, digits: Digits): Resolution
    decreases |tokens|
  {
    if tokens == [] then Ok(data)
    else
      var next := Step(data, tokens[0], digits);
      if next.Err? then next else Walk(next.value, tokens[1..], digits)
  }

  function Resolve(data: Json, pointer: Json, digits: Digits): Resolution {
    if !pointer.Str? then Err(NotAString)
    else if !WellFormed(pointer.s) then Err(InvalidPointer)
    else Walk(data, Tokens(pointer.s), digits)
  }

  /** `_resolve_pointer`. */
  method ResolvePointer(data: Json, pointer: Json, digits: Digits) returns (r: Resolution)
    ensures r == Resolve(data, pointer, digits)
  {
    if !pointer.Str? {
      return Err(NotAString);
    }
    if pointer.s == "" {
      return Ok(data);
    }
    if pointer.s[0] != '/' {
      return Err(InvalidPointer);
    }
    var raw := RawTokens(pointer.s);
    ghost var tokens := Tokens(pointer.s);
    var current := data;
    var i := 0;
    while i < |raw|
      invariant 0 <= i <= |raw| == |tokens|
      invariant Walk(current, tokens[i..], digits) == Walk(data, tokens, digits)
    {
      var token := Unescape(raw[i]);
      assert token == tokens[i] && tokens[i..][1..] == tokens[i + 1..];
      if current.Obj? {
        if token !in current.fields {
          return Err(MissingKey(token));
        }
        current := current.fields[token];
      } else if current.Arr? {
        var position := ParseInt(token, digits);
        if position.None? {
          return Err(InvalidIndex(token));
        }
        if position.value < 0 || position.value >= |current.items| {
          return Err(OutOfRange);
        }
        current := current.items[position.value];
      } else {
        return Err(NotIndexable);
      }
      i := i + 1;
    }
    r := Ok(current);
  }

  // ---------------------------------------------------------------- round trip

  /** Replacing "~1" first turns an escaped token into the token with only "~" still escaped. */
  function EscapeTilde(token: string): string {
    if token == [] then [] else (if token[0] == '~' then "~0" else [token[0]]) + EscapeTilde(token[1..])
  }

  lemma ReplaceStep(a: string, rest: string, x: char, y: char, z: char)
    ensures a == [x, y] ==> Replace(a + rest, x, y, z) == [z] + Replace(rest, x, y, z)
    ensures |a| == 1 && a[0] != x ==> Replace(a + rest, x, y, z) == a + Replace(rest, x, y, z)
    ensures |a| == 2 && a[0] == x && a[1] != y && a[1] != x ==>
              Replace(a + rest, x, y, z) == a + Replace(rest, x, y, z)
  {
    if |a| == 1 {
      assert (a + rest)[1..] == rest;
    } else if |a| == 2 {
      assert (a + rest)[2..] == rest;
      assert (a + rest)[1..] == [a[1]] + rest;
      assert ([a[1]] + rest)[1..] == rest;
      if a[0] == x && a[1] != y && a[1] != x {
        assert Replace([a[1]] + rest, x, y, z) == [a[1]] + Replace(rest, x, y, z);
        assert [a[0]] + ([a[1]] + Replace(rest, x, y, z)) == a + Replace(rest, x, y, z);
      }
    }
  }

  /** Nothing is replaced where the pattern does not occur, as in a tilde that escapes nothing. */
  lemma {:induction false} ReplaceNone(s: string, x: char, y: char, z: char)
    requires forall i :: 0 <= i < |s| - 1 ==> !(s[i] == x && s[i + 1] == y)
    ensures Replace(s, x, y, z) == s
    decreases |s|
  {
    if s != [] {
      var rest := s[1..];
      forall i | 0 <= i < |rest| - 1 ensures !(rest[i] == x && rest[i + 1] == y) {
        assert rest[i] == s[i + 1] && rest[i + 1] == s[i + 2];
      }
      ReplaceNone(rest, x, y, z);
      assert s == [s[0]] + rest;
    }
  }

  lemma {:induction false} FirstReplacement(token: string)
    ensures Replace(Escape(token), '~', '1', '/') == EscapeTilde(token)
  {
    if token != [] {
      FirstReplacement(token[1..]);
      ReplaceStep(match token[0] case '~' => "~0" case '/' => "~1" case c => [c], Escape(token[1..]), '~', '1', '/');
    }
  }

  lemma {:induction false} SecondReplacement(token: string)
    ensures Replace(EscapeTilde(token), '~', '0', '~') == token
  {
    if token != [] {
      SecondReplacement(token[1..]);
      ReplaceStep(if token[0] == '~' then "~0" else [token[0]], EscapeTilde(token[1..]), '~', '0', '~');
    }
  }

  /** Section 4 of RFC 6901: "~1" before "~0" undoes escaping, for every string. */
  lemma UnescapeEscape(token: string)
    ensures Unescape(Escape(token)) == token
  {
    FirstReplacement(token);
    SecondReplacement(token);
  }

  /** The other order of replacement does not. */
  lemma OtherOrderFails()
    ensures Replace(Replace(Escape("~1"), '~', '0', '~'), '~', '1', '/') != "~1"
  {
    assert Escape("1") == "1" by { assert "1"[1..] == ""; }
    assert Escape("~1") == "~01" by { assert "~1"[1..] == "1"; }
    ReplaceStep("~0", "1", '~', '0', '~');
    ReplaceStep("1", "", '~', '0', '~');
    assert "~0" + "1" == "~01" && "1" + "" == "1";
    assert Replace("~01", '~', '0', '~') == "~1";
    ReplaceStep("~1", "", '~', '1', '/');
    assert "~1" + "" == "~1";
  }

  lemma {:induction false} EscapeHasNoSlash(token: string)
    ensures '/' !in Escape(token)
  {
    if token != [] { EscapeHasNoSlash(token[1..]); }
  }

  lemma RawTokensAppend(s: string, p: string)
    requires WellFormed(s) && WellFormed(p)
    ensures RawTokens(s + p) == RawTokens(s) + RawTokens(p)
  {
    if p == "" {
      assert s + p == s;
    } else if s == "" {
      assert s + p == p;
    } else {
      var q := p[1..];
      assert p == "" + ['/'] + q && s + p == s + ['/'] + q;
      SplitAtSeparator("", '/', q);
      SplitAtSeparator(s, '/', q);
      var l, r := Split(s, '/'), Split(q, '/');
      assert (l + r)[1..] == l[1..] + r && ([""] + r)[1..] == r;
    }
  }

  lemma TokensAppend(s: string, p: string)
    requires WellFormed(s) && WellFormed(p)
    ensures WellFormed(s + p) && Tokens(s + p) == Tokens(s) + Tokens(p)
  {
    RawTokensAppend(s, p);
    UnescapeAllAppend(RawTokens(s), RawTokens(p));
  }

  lemma UnescapeAllAppend(a: seq<string>, b: seq<string>)
    ensures UnescapeAll(a + b) == UnescapeAll(a) + UnescapeAll(b)
  {
  }

  lemma TokensSingle(token: string)
    ensures Tokens("/" + Escape(token)) == [token]
  {
    EscapeHasNoSlash(token);
    var raw := Escape(token);
    assert "/" + raw == "" + ['/'] + raw;
    SplitAtSeparator("", '/', raw);
    SplitNone(raw, '/');
    assert RawTokens("/" + raw) == [raw];
    UnescapeEscape(token);
  }

  lemma {:induction false} TokensRender(tokens: seq<string>)
    ensures WellFormed(Render(tokens)) && Tokens(Render(tokens)) == tokens
  {
    if tokens != [] {
      var head := "/" + Escape(tokens[0]);
      TokensRender(tokens[1..]);
      TokensSingle(tokens[0]);
      TokensAppend(head, Render(tokens[1..]));
    }
  }

  /**
   Resolving the rendered pointer is walking the tokens, for every value and every tokens, including
   empty keys and keys with '~' and '/'.
   */
  lemma RenderRoundTrip(data: Json, tokens: seq<string>, digits: Digits)
    ensures Resolve(data, Str(Render(tokens)), digits) == Walk(data, tokens, digits)
  {
    TokensRender(tokens);
  }

  /** A place inside a value: object keys and array indices. */
  datatype Place = Key(key: string) | Index(index: nat)

  function TokenOf(place: Place): string {
    match place
    case Key(k) => k
    case Index(i) => Decimal(i)
  }

  function At(data: Json, path: seq<Place>): Option<Json> {
    if path == [] then Some(data)
    else
      match (data, path[0])
      case (Obj(m), Key(k)) => if k in m then At(m[k], path[1..]) else None
      case (Arr(xs), Index(i)) => if i < |xs| then At(xs[i], path[1..]) else None
      case _ => None
  }

  function TokensOf(path: seq<Place>): seq<string> {
    if path == [] then [] else [TokenOf(path[0])] + TokensOf(path[1..])
  }

  /** Every place inside a value is reached by a JSON Pointer, with indices written in decimal. */
  lemma {:induction false} PlaceRoundTrip(data: Json, path: seq<Place>, digits: Digits)
    requires DigitTable(digits) && At(data, path).Some?
    ensures Resolve(data, Str(Render(TokensOf(path))), digits) == Ok(At(data, path).value)
  {
    RenderRoundTrip(data, TokensOf(path), digits);
    WalkPlaces(data, path, digits);
  }

  lemma {:induction false} WalkPlaces(data: Json, path: seq<Place>, digits: Digits)
    requires DigitTable(digits) && At(data, path).Some?
    ensures Walk(data, TokensOf(path), digits) == Ok(At(data, path).value)
    decreases |path|
  {
    if path != [] {
      var tokens := TokensOf(path);
      assert tokens[1..] == TokensOf(path[1..]);
      if path[0].Index? { ParseDecimal(path[0].index, digits); }
      WalkPlaces(Step(data, tokens[0], digits).value, path[1..], digits);
    }
  }

  /** The token leads to the place: a key as it is, an index in any spelling of the integer. */
  predicate LeadsTo(token: string, place: Place, digits: Digits) {
    match place
    case Key(k) => token == k
    case Index(i) => ParseInt(token, digits) == Some(i)
  }

  predicate LeadAlong(tokens: seq<string>, path: seq<Place>, digits: Digits) {
    |tokens| == |path| && forall i :: 0 <= i < |path| ==> LeadsTo(tokens[i], path[i], digits)
  }

  /** Walking arrives exactly at the places inside the value that the tokens lead to. */
  lemma {:induction false} WalkExactly(data: Json, tokens: seq<string>, v: Json, digits: Digits)
    ensures Walk(data, tokens, digits) == Ok(v) <==>
            exists path :: LeadAlong(tokens, path, digits) && At(data, path) == Some(v)
    decreases |tokens|
  {
    if Walk(data, tokens, digits) == Ok(v) {
      var path := PathWalked(data, tokens, v, digits);
      assert LeadAlong(tokens, path, digits);
    }
    if path :| LeadAlong(tokens, path, digits) && At(data, path) == Some(v) {
      WalkLed(data, tokens, path, digits);
    }
  }

  lemma {:induction false} PathWalked(data: Json, tokens: seq<string>, v: Json, digits: Digits)
    returns (path: seq<Place>)
    requires Walk(data, tokens, digits) == Ok(v)
    ensures LeadAlong(tokens, path, digits) && At(data, path) == Some(v)
    decreases |tokens|
  {
    if tokens == [] {
      path := [];
    } else {
      var rest := PathWalked(Step(data, tokens[0], digits).value, tokens[1..], v, digits);
      var first := if data.Obj? then Key(tokens[0]) else Index(ParseInt(tokens[0], digits).value);
      path := [first] + rest;
      assert path[1..] == rest;
      forall i | 0 <= i < |path| ensures LeadsTo(tokens[i], path[i], digits) {
        if i > 0 { assert tokens[i] == tokens[1..][i - 1] && path[i] == rest[i - 1]; }
      }
    }
  }

  lemma {:induction false} WalkLed(data: Json, tokens: seq<string>, path: seq<Place>, digits: Digits)
    requires LeadAlong(tokens, path, digits) && At(data, path).Some?
    ensures Walk(data, tokens, digits) == Ok(At(data, path).value)
    decreases |tokens|
  {
    if path != [] {
      assert LeadsTo(tokens[0], path[0], digits);
      forall i | 0 <= i < |path[1..]| ensures LeadsTo(tokens[1..][i], path[1..][i], digits) {
        assert LeadsTo(tokens[i + 1], path[i + 1], digits);
      }
      WalkLed(Step(data, tokens[0], digits).value, tokens[1..], path[1..], digits);
    }
  }

  /** A JSON Pointer that is no string, or does not start with a slash, resolves nowhere. */
  lemma Malformed(data: Json, pointer: Json, digits: Digits)
    ensures !pointer.Str? ==> Resolve(data, pointer, digits) == Err(NotAString)
    ensures pointer.Str? && pointer.s != "" && !StartsWith(pointer.s, "/") ==>
              Resolve(data, pointer, digits) == Err(InvalidPointer)
    ensures Resolve(data, Str(""), digits) == Ok(data)
  {
    if pointer.Str? && pointer.s != "" { assert pointer.s[..1] == [pointer.s[0]]; }
  }

  /** Where walking stops short, the first step that is not possible says why. */
  lemma WalkStops(data: Json, before: seq<string>, token: string, after: seq<string>, digits: Digits)
    requires Walk(data, before, digits).Ok?
    ensures var here := Walk(data, before, digits).value;
            var r := Walk(data, before + [token] + after, digits);
            match here
            case Obj(m) => token !in m ==> r == Err(MissingKey(token))
            case Arr(xs) =>
              var position := ParseInt(token, digits);
              if position.None? then r == Err(InvalidIndex(token))
              else !(0 <= position.value < |xs|) ==> r == Err(OutOfRange)
            case _ => r == Err(NotIndexable)
  {
    assert before + [token] + after == before + ([token] + after);
    WalkAppend(data, before, [token] + after, digits);
  }

  // ---------------------------------------------------------------- concatenation

  lemma {:induction false} WalkAppend(data: Json, a: seq<string>, b: seq<string>, digits: Digits)
    ensures Walk(data, a + b, digits) ==
            var first := Walk(data, a, digits);
            if first.Err? then first else Walk(first.value, b, digits)
    decreases |a|
  {
    if a == [] {
      assert a + b == b;
    } else {
      assert (a + b)[1..] == a[1..] + b;
      var next := Step(data, a[0], digits);
      if next.Ok? { WalkAppend(next.value, a[1..], b, digits); }
    }
  }

  /** Resolving `s + p` is resolving `p` inside the result of `s`. */
  lemma ResolveAppend(data: Json, s: string, p: string, digits: Digits)
    requires WellFormed(s) && WellFormed(p)
    ensures Resolve(data, Str(s + p), digits) ==
            var first := Resolve(data, Str(s), digits);
            if first.Err? then first else Resolve(first.value, Str(p), digits)
  {
    TokensAppend(s, p);
    WalkAppend(data, Tokens(s), Tokens(p), digits);
  }

  /** The JSON Pointer to the i-th element below `s`. */
  function Below(s: string, i: nat): string {
    s + ("/" + Decimal(i))
  }

  /** It leads to that element of the array that `s` leads to. */
  lemma ResolveElement(data: Json, s: string, i: nat, digits: Digits)
    requires DigitTable(digits) && WellFormed(s)
    requires Resolve(data, Str(s), digits).Ok? && Resolve(data, Str(s), digits).value.Arr?
    requires i < |Resolve(data, Str(s), digits).value.items|
    ensures WellFormed(Below(s, i))
    ensures Resolve(data, Str(Below(s, i)), digits) == Ok(Resolve(data, Str(s), digits).value.items[i])
  {
    ResolveAppend(data, s, "/" + Decimal(i), digits);
    ResolveIndex(Resolve(data, Str(s), digits).value, i, digits);
  }

  lemma ResolveIndex(element: Json, i: nat, digits: Digits)
    requires DigitTable(digits) && element.Arr? && i < |element.items|
    ensures Resolve(element, Str("/" + Decimal(i)), digits) == Ok(element.items[i])
  {
    DecimalNeedsNoEscape(Decimal(i));
    TokensSingle(Decimal(i));
    ParseDecimal(i, digits);
    assert Walk(element, [Decimal(i)], digits) == Ok(element.items[i]);
  }

  lemma {:induction false} DecimalNeedsNoEscape(s: string)
    requires forall c | c in s :: '0' <= c <= '9'
    ensures Escape(s) == s
  {
    if s != [] {
      assert s[0] in s;
      assert s == [s[0]] + s[1..];
      assert forall c | c in s[1..] :: c in s;
      DecimalNeedsNoEscape(s[1..]);
    }
  }

  // ---------------------------------------------------------------- shape

  /** Outcomes of resolving a pointer in two values of the same shape. */
  predicate SameResolution(a: Resolution, b: Resolution) {
    match a
    case Err(reason) => b == a
    case Ok(v) => b.Ok? && SameShape(v, b.value)
  }

  lemma {:induction false} WalkShape(a: Json, b: Json, tokens: seq<string>, digits: Digits)
    requires SameShape(a, b)
    ensures SameResolution(Walk(a, tokens, digits), Walk(b, tokens, digits))
    decreases |tokens|
  {
    if tokens != [] {
      var x, y := Step(a, tokens[0], digits), Step(b, tokens[0], digits);
      assert SameResolution(x, y);
      if x.Ok? { WalkShape(x.value, y.value, tokens[1..], digits); }
    }
  }

  /** A pointer resolves alike in two values of the same shape. */
  lemma ResolveShape(a: Json, b: Json, pointer: Json, digits: Digits)
    requires SameShape(a, b)
    ensures SameResolution(Resolve(a, pointer, digits), Resolve(b, pointer, digits))
  {
    if pointer.Str? && WellFormed(pointer.s) { WalkShape(a, b, Tokens(pointer.s), digits); }
  }
}
