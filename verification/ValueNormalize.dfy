/**
 Opt-in rewriting of validated output: dates to ISO form, digits only, collapsed white space, as
 hinted by the schema.
 */
module ValueNormalize {
  import opened Wrappers
  import opened Text
  import opened Json

  // ---------------------------------------------------------------- hints

  /** `re.sub(r"\D", "", value)`. */
  function KeepDigits(s: string, digits: Digits): (r: string)
    ensures forall c | c in r :: c in digits
  {
    if s == [] then []
    else (if s[0] in digits then [s[0]] else []) + KeepDigits(s[1..], digits)
  }

  /** `re.sub(r"\s+", " ", value)`. */
  function CollapseRuns(s: string): string
    decreases |s|
  {
    if s == [] then []
    else if IsSpace(s[0]) then [' '] + CollapseRuns(StripLeft(s))
    else [s[0]] + CollapseRuns(s[1..])
  }

  function Collapse(s: string): string {
    Strip(CollapseRuns(s))
  }

  function ApplyHint(s: string, hint: Json, digits: Digits): string {
    if hint == Str("digits") then KeepDigits(s, digits)
    else if hint == Str("collapse-whitespace") then Collapse(s)
    else s
  }

  function ApplyHints(s: string, hints: seq<Json>, digits: Digits): string
    decreases |hints|
  {
    if hints == [] then s else ApplyHints(ApplyHint(s, hints[0], digits), hints[1..], digits)
  }

  // ---------------------------------------------------------------- dates

  datatype DateParts = DateParts(day: string, month: string, year: string)

  /** Where the run of one or two digits before a dot ends, if it is followed by a dot. */
  function DotAfter(s: string, digits: Digits): Option<nat> {
    if |s| >= 2 && s[0] in digits && s[1] == '.' then Some(1)
    else if |s| >= 3 && s[0] in digits && s[1] in digits && s[2] == '.' then Some(2)
    else None
  }

  /** The regular expression `^(\d{1,2})\.(\d{1,2})\.(\d{4})\.?$` on a stripped string. */
  function MatchDate(s: string, digits: Digits): Option<DateParts> {
    var d := DotAfter(s, digits);
    if d.None? then None
    else
      var s1 := s[d.value + 1..];
      var m := DotAfter(s1, digits);
      if m.None? then None
      else
        var y := s1[m.value + 1..];
        if |y| >= 4 && (forall i :: 0 <= i < 4 ==> y[i] in digits) && (|y| == 4 || y[4..] == ".")
        then Some(DateParts(s[..d.value], s1[..m.value], y[..4]))
        else None
  }

  /** `int(text)` for a run of digits. */
  function DigitsValue(s: string, digits: Digits): nat {
    if s == [] || s[|s| - 1] !in digits then 0
    else 10 * DigitsValue(s[..|s| - 1], digits) + digits[s[|s| - 1]]
  }

  /** The format specification `0<width>d`. */
  function Padded(n: nat, width: nat): string {
    var s := Decimal(n);
    seq(if |s| < width then width - |s| else 0, _ => '0') + s
  }

  function NormalizeDate(s: string, digits: Digits): string {
    var m := MatchDate(Strip(s), digits);
    if m.None? then s
    else
      Padded(DigitsValue(m.value.year, digits), 4) + "-"
      + Padded(DigitsValue(m.value.month, digits), 2) + "-"
      + Padded(DigitsValue(m.value.day, digits), 2)
  }

  // ---------------------------------------------------------------- values

  function HintList(hints: Json): seq<Json> {
    match hints
    case Str(_) => [hints]
    case Arr(xs) => xs
    case _ => []
  }

  function NormalString(s: string, m: Fields, digits: Digits): string {
    var dated := if Get(m, "format") == Str("date") then NormalizeDate(s, digits) else s;
    ApplyHints(dated, HintList(Get(m, "x-normalize")), digits)
  }

  /** The value with every hinted string rewritten. */
  function NormalValue(value: Json, schema: Json, digits: Digits): Json {
    if !schema.Obj? then value
    else
      var m := schema.fields;
      match value
      case Obj(fields) =>
        var props := Get(m, "properties");
        if !props.Obj? then value
        else Obj(map k | k in fields ::
          if k in props.fields then NormalValue(fields[k], props.fields[k], digits) else fields[k])
      case Arr(xs) =>
        var items := Get(m, "items");
        if !items.Obj? then value
        else Arr(seq(|xs|, i requires 0 <= i < |xs| => NormalValue(xs[i], items, digits)))
      case Str(s) => Str(NormalString(s, m, digits))
      case _ => value
  }

  // ---------------------------------------------------------------- shape

  /** Only the text of strings changes. */
  lemma {:induction false} NormalValueKeepsShape(value: Json, schema: Json, digits: Digits)
    ensures SameShape(value, NormalValue(value, schema, digits))
    decreases value
  {
    SameShapeReflexive(value);
    if schema.Obj? {
      match value
      case Obj(fields) =>
        var props := Get(schema.fields, "properties");
        if props.Obj? {
          forall k | k in fields && k in props.fields
            ensures SameShape(fields[k], NormalValue(fields[k], props.fields[k], digits))
          {
            NormalValueKeepsShape(fields[k], props.fields[k], digits);
          }
        }
      case Arr(xs) =>
        var items := Get(schema.fields, "items");
        if items.Obj? {
          forall i | 0 <= i < |xs| ensures SameShape(xs[i], NormalValue(xs[i], items, digits)) {
            NormalValueKeepsShape(xs[i], items, digits);
          }
        }
      case _ =>
    }
  }

  // ---------------------------------------------------------------- digits

  lemma {:induction false} KeepDigitsFixed(s: string, digits: Digits)
    requires forall c | c in s :: c in digits
    ensures KeepDigits(s, digits) == s
  {
    if s != [] {
      assert s[0] in s;
      assert s == [s[0]] + s[1..];
      KeepDigitsFixed(s[1..], digits);
    }
  }

  lemma {:induction false} CollapseRunsFixed(s: string)
    requires forall c | c in s :: !IsSpace(c)
    ensures CollapseRuns(s) == s
  {
    if s != [] {
      assert s[0] in s;
      assert s == [s[0]] + s[1..];
      CollapseRunsFixed(s[1..]);
    }
  }

  /** A string of digits is left alone by every hint. */
  lemma DigitsFixed(s: string, hint: Json, digits: Digits)
    requires DigitTable(digits) && forall c | c in s :: c in digits
    ensures ApplyHint(s, hint, digits) == s
  {
    KeepDigitsFixed(s, digits);
    CollapseRunsFixed(s);
    if s != [] { assert s[0] in s && s[|s| - 1] in s; }
    StripId(s);
  }

  // ---------------------------------------------------------------- white space

  lemma CollapseLeft(s: string)
    ensures StripLeft(CollapseRuns(s)) == CollapseRuns(StripLeft(s))
  {
    if s != [] && IsSpace(s[0]) {
      var t := StripLeft(s);
      assert CollapseRuns(s)[1..] == CollapseRuns(t);
      assert t != [] ==> CollapseRuns(t)[0] == t[0];
    }
  }

  lemma {:induction false} StripRightAppend(p: string, t: string)
    requires t != [] && exists i :: 0 <= i < |t| && !IsSpace(t[i])
    ensures StripRight(p + t) == p + StripRight(t)
    decreases |t|
  {
    if IsSpace(t[|t| - 1]) {
      var front := t[..|t| - 1];
      assert (p + t)[..|p + t| - 1] == p + front;
      StripRightAppend(p, front);
    }
  }

  lemma {:induction false} CollapseRight(s: string)
    ensures StripRight(CollapseRuns(s)) == CollapseRuns(StripRight(s))
    decreases |s|
  {
    if s != [] {
      if IsSpace(s[0]) {
        CollapseRightSpace(s);
      } else {
        var t := s[1..];
        CollapseRight(t);
        assert s == [s[0]] + t;
        PushRight(s[0], t);
        PushRight(s[0], CollapseRuns(t));
        assert ([s[0]] + StripRight(t))[1..] == StripRight(t);
      }
    }
  }

  lemma PushRight(c: char, t: string)
    requires !IsSpace(c)
    ensures StripRight([c] + t) == [c] + StripRight(t)
    decreases |t|
  {
    if t != [] && IsSpace(t[|t| - 1]) {
      assert ([c] + t)[..|[c] + t| - 1] == [c] + t[..|t| - 1];
      PushRight(c, t[..|t| - 1]);
    } else if t == [] {
      assert [c] + t == [c];
    }
  }

  lemma {:induction false} CollapseRightSpace(s: string)
    requires s != [] && IsSpace(s[0])
    ensures StripRight(CollapseRuns(s)) == CollapseRuns(StripRight(s))
    decreases |s|, 0
  {
    var t := StripLeft(s);
    var p := StripLeftPrefix(s);
    if t == [] {
      StripRightSpaces(s);
      StripRightSpaces(" ");
      assert CollapseRuns(s) == " ";
    } else {
      CollapseRight(t);
      StripRightAppend(p, t);
      StripRightAppend(" ", CollapseRuns(t));
      assert t[0] == CollapseRuns(t)[0];
      StripLeftSpaces(p, StripRight(t));
      assert p != [];
    }
  }

  /** Stripping and collapsing commute. */
  lemma CollapseStripped(s: string)
    ensures Collapse(s) == CollapseRuns(Strip(s))
  {
    CollapseLeft(s);
    CollapseRight(StripLeft(s));
  }

  lemma {:induction false} CollapseRunsIdempotent(s: string)
    ensures CollapseRuns(CollapseRuns(s)) == CollapseRuns(s)
    decreases |s|
  {
    if s != [] {
      if IsSpace(s[0]) {
        var t := StripLeft(s);
        CollapseRunsIdempotent(t);
        CollapseLeft(t);
        assert StripLeft(t) == t;
        assert StripLeft([' '] + CollapseRuns(t)) == StripLeft(CollapseRuns(t)) by {
          assert ([' '] + CollapseRuns(t))[1..] == CollapseRuns(t);
        }
      } else {
        CollapseRunsIdempotent(s[1..]);
        assert CollapseRuns(s)[1..] == CollapseRuns(s[1..]);
      }
    }
  }

  lemma CollapseIdempotent(s: string)
    ensures Collapse(Collapse(s)) == Collapse(s)
  {
    CollapseStripped(CollapseRuns(s));
    CollapseRunsIdempotent(s);
    CollapseStripped(Collapse(s));
    StripIdempotent(CollapseRuns(s));
  }

  /** Where collapsing leaves no white space there was none. */
  lemma {:induction false} CollapseWithoutSpace(s: string)
    requires forall c | c in CollapseRuns(s) :: !IsSpace(c)
    ensures CollapseRuns(s) == s
    decreases |s|
  {
    if s != [] {
      var r := CollapseRuns(s);
      assert r[0] in r;
      assert r[1..] == CollapseRuns(s[1..]) by { assert !IsSpace(s[0]); }
      CollapseWithoutSpace(s[1..]);
    }
  }

  // ---------------------------------------------------------------- dates are not matched twice

  /** The date pattern does not match the stripped string. */
  predicate Undated(s: string, digits: Digits) {
    MatchDate(Strip(s), digits).None?
  }

  predicate IsDateText(s: string, digits: Digits) {
    forall i :: 0 <= i < |s| ==> s[i] in digits || s[i] == '.'
  }

  lemma DotAfterText(s: string, digits: Digits)
    requires DotAfter(s, digits).Some? && IsDateText(s[DotAfter(s, digits).value + 1..], digits)
    ensures IsDateText(s, digits) && s[DotAfter(s, digits).value] == '.'
  {
    var i := DotAfter(s, digits).value + 1;
    forall k | 0 <= k < |s| ensures s[k] in digits || s[k] == '.' {
      if k >= i { assert s[i..][k - i] == s[k]; }
    }
  }

  /** A matching string holds digits and dots only, and at least one dot. */
  lemma MatchDateCharacters(s: string, digits: Digits)
    requires MatchDate(s, digits).Some?
    ensures forall c | c in s :: c in digits || c == '.'
    ensures '.' in s
  {
    var s1 := s[DotAfter(s, digits).value + 1..];
    var y := s1[DotAfter(s1, digits).value + 1..];
    forall k | 0 <= k < |y| ensures y[k] in digits || y[k] == '.' {
      if k >= 4 { assert y[4..][k - 4] == y[k]; }
    }
    DotAfterText(s1, digits);
    DotAfterText(s, digits);
  }

  /** A date in ISO form is not matched again. */
  lemma IsoUndated(s: string, digits: Digits)
    requires DigitTable(digits)
    ensures Undated(NormalizeDate(s, digits), digits)
  {
    var r := NormalizeDate(s, digits);
    if MatchDate(Strip(s), digits).Some? {
      var m := MatchDate(Strip(s), digits).value;
      var y := Padded(DigitsValue(m.year, digits), 4);
      assert r[|y|] == '-';
      StripKeeps(r, '-');
      if MatchDate(Strip(r), digits).Some? { MatchDateCharacters(Strip(r), digits); }
    }
  }

  lemma HintKeepsUndated(s: string, hint: Json, digits: Digits)
    requires DigitTable(digits) && Undated(s, digits)
    ensures Undated(ApplyHint(s, hint, digits), digits)
  {
    var r := ApplyHint(s, hint, digits);
    if MatchDate(Strip(r), digits).Some? {
      MatchDateCharacters(Strip(r), digits);
      StripKeeps(r, '.');
      if hint == Str("collapse-whitespace") {
        StripIdempotent(CollapseRuns(s));
        CollapseStripped(s);
        assert forall c | c in Strip(r) :: !IsSpace(c);
        CollapseWithoutSpace(Strip(s));
      }
    }
  }

  lemma {:induction false} HintsKeepUndated(s: string, hints: seq<Json>, digits: Digits)
    requires DigitTable(digits) && Undated(s, digits)
    ensures Undated(ApplyHints(s, hints, digits), digits)
    decreases |hints|
  {
    if hints != [] {
      HintKeepsUndated(s, hints[0], digits);
      HintsKeepUndated(ApplyHint(s, hints[0], digits), hints[1..], digits);
    }
  }

  // ---------------------------------------------------------------- what a date becomes

  predicate AllDigits(s: string, digits: Digits) {
    forall i :: 0 <= i < |s| ==> s[i] in digits
  }

  predicate IsDate(p: DateParts, digits: Digits) {
    && 1 <= |p.day| <= 2 && AllDigits(p.day, digits)
    && 1 <= |p.month| <= 2 && AllDigits(p.month, digits)
    && |p.year| == 4 && AllDigits(p.year, digits)
  }

  /** The pattern matches exactly day, month and year with dots between them and perhaps one after. */
  lemma MatchDateExactly(s: string, p: DateParts, digits: Digits)
    requires DigitTable(digits)
    ensures MatchDate(s, digits) == Some(p) <==>
            IsDate(p, digits) && (s == p.day + "." + p.month + "." + p.year
                                  || s == p.day + "." + p.month + "." + p.year + ".")
  {
    if IsDate(p, digits) {
      if s == p.day + "." + p.month + "." + p.year { MatchParts(s, p, "", digits); }
      if s == p.day + "." + p.month + "." + p.year + "." { MatchParts(s, p, ".", digits); }
    }
    if MatchDate(s, digits) == Some(p) { PartsMatched(s, p, digits); }
  }

  lemma DotAfterDigits(part: string, rest: string, digits: Digits)
    requires DigitTable(digits) && 1 <= |part| <= 2 && AllDigits(part, digits)
    ensures DotAfter(part + "." + rest, digits) == Some(|part|)
    ensures (part + "." + rest)[|part| + 1..] == rest && (part + "." + rest)[..|part|] == part
  {
    var s := part + "." + rest;
    assert s[0] == part[0] && s[|part|] == '.';
    if |part| == 2 { assert s[1] == part[1]; }
  }

  lemma MatchParts(s: string, p: DateParts, dot: string, digits: Digits)
    requires DigitTable(digits) && IsDate(p, digits) && (dot == "" || dot == ".")
    requires s == p.day + "." + p.month + "." + p.year + dot
    ensures MatchDate(s, digits) == Some(p)
  {
    var tail := p.year + dot;
    var rest := p.month + "." + tail;
    assert s == p.day + "." + rest;
    DotAfterDigits(p.day, rest, digits);
    DotAfterDigits(p.month, tail, digits);
    YearTail(p.year, dot, digits);
  }

  lemma YearTail(year: string, dot: string, digits: Digits)
    requires |year| == 4 && AllDigits(year, digits)
    ensures (year + dot)[..4] == year && (year + dot)[4..] == dot
    ensures forall i :: 0 <= i < 4 ==> (year + dot)[i] in digits
  {
    assert forall i :: 0 <= i < 4 ==> (year + dot)[i] == year[i];
  }

  lemma DotAfterSplits(s: string, digits: Digits)
    requires DotAfter(s, digits).Some?
    ensures var i := DotAfter(s, digits).value;
            && 1 <= i <= 2 && AllDigits(s[..i], digits) && s == s[..i] + ("." + s[i + 1..])
  {
    var i := DotAfter(s, digits).value;
    assert s[i] == '.';
  }

  lemma PartsMatched(s: string, p: DateParts, digits: Digits)
    requires MatchDate(s, digits) == Some(p)
    ensures IsDate(p, digits)
    ensures s == p.day + "." + p.month + "." + p.year || s == p.day + "." + p.month + "." + p.year + "."
  {
    var s1 := s[DotAfter(s, digits).value + 1..];
    var y := s1[DotAfter(s1, digits).value + 1..];
    DotAfterSplits(s, digits);
    DotAfterSplits(s1, digits);
    var dot := y[4..];
    assert dot == "" || dot == ".";
    JoinParts(p.day, p.month, p.year, dot);
    assert y == p.year + dot;
  }

  lemma JoinParts(day: string, month: string, year: string, dot: string)
    ensures day + ("." + (month + ("." + (year + dot)))) == day + "." + month + "." + year + dot
  {
  }

  lemma {:induction false} DigitsValueDecimal(n: nat, digits: Digits)
    requires DigitTable(digits)
    ensures DigitsValue(Decimal(n), digits) == n
  {
    if n >= 10 {
      DigitsValueDecimal(n / 10, digits);
      DigitsValueSnoc(Decimal(n / 10), Digit(n % 10), digits);
    } else {
      DigitsValueSnoc("", Digit(n), digits);
      assert "" + [Digit(n)] == Decimal(n);
    }
  }

  lemma DigitsValueSnoc(s: string, c: char, digits: Digits)
    requires c in digits
    ensures DigitsValue(s + [c], digits) == 10 * DigitsValue(s, digits) + digits[c]
  {
    assert (s + [c])[..|s|] == s;
  }

  lemma {:induction false} LeadingZeros(zeros: string, s: string, digits: Digits)
    requires DigitTable(digits) && forall c | c in zeros :: c == '0'
    requires AllDigits(s, digits)
    ensures DigitsValue(zeros + s, digits) == DigitsValue(s, digits)
    decreases |zeros| + |s|
  {
    if s != [] {
      var front, last := s[..|s| - 1], s[|s| - 1];
      LeadingZeros(zeros, front, digits);
      DigitsValueSnoc(zeros + front, last, digits);
      assert zeros + front + [last] == zeros + s;
    } else if zeros != [] {
      var front, last := zeros[..|zeros| - 1], zeros[|zeros| - 1];
      assert last in zeros;
      assert forall c | c in front :: c in zeros;
      LeadingZeros(front, s, digits);
      DigitsValueSnoc(front, last, digits);
      assert front + [last] == zeros + s && front + s == front;
    } else {
      assert zeros + s == s;
    }
  }

  lemma DecimalLength(n: nat)
    requires n < 10000
    ensures |Decimal(n)| == if n < 10 then 1 else if n < 100 then 2 else if n < 1000 then 3 else 4
  {
    if n >= 10 { assert |Decimal(n)| == |Decimal(n / 10)| + 1; }
    if n >= 100 { assert |Decimal(n / 10)| == |Decimal(n / 10 / 10)| + 1; }
    if n >= 1000 { assert |Decimal(n / 10 / 10)| == |Decimal(n / 10 / 10 / 10)| + 1; }
  }

  /** A padded number has the asked width, and reading it gives the number back. */
  lemma PaddedValue(n: nat, width: nat, digits: Digits)
    requires DigitTable(digits) && n < 10000 && |Decimal(n)| <= width
    ensures |Padded(n, width)| == width && AllDigits(Padded(n, width), digits)
    ensures DigitsValue(Padded(n, width), digits) == n
  {
    var s := Decimal(n);
    var zeros := seq(if |s| < width then width - |s| else 0, _ => '0');
    assert forall i :: 0 <= i < |s| ==> s[i] in s;
    LeadingZeros(zeros, s, digits);
    DigitsValueDecimal(n, digits);
  }

  /** How a day or month may be written. */
  predicate Writes(text: string, n: nat) {
    text == Decimal(n) || text == Padded(n, 2)
  }

  /** A date written day first, with or without padding and a final dot, becomes year-month-day. */
  lemma DateBecomesIso(day: nat, month: nat, year: nat, d: string, m: string, dot: string, digits: Digits)
    requires DigitTable(digits) && day < 100 && month < 100 && year < 10000
    requires Writes(d, day) && Writes(m, month) && (dot == "" || dot == ".")
    ensures NormalizeDate(d + "." + m + "." + Padded(year, 4) + dot, digits)
            == Padded(year, 4) + "-" + Padded(month, 2) + "-" + Padded(day, 2)
  {
    var p := DateParts(d, m, Padded(year, 4));
    WrittenNumber(d, day, digits);
    WrittenNumber(m, month, digits);
    DecimalLength(year);
    PaddedValue(year, 4, digits);
    var s := d + "." + m + "." + Padded(year, 4) + dot;
    MatchParts(s, p, dot, digits);
    MatchDateCharacters(s, digits);
    assert s[0] in s && s[|s| - 1] in s;
    StripId(s);
  }

  lemma WrittenNumber(text: string, n: nat, digits: Digits)
    requires DigitTable(digits) && n < 100 && Writes(text, n)
    ensures 1 <= |text| <= 2 && AllDigits(text, digits) && DigitsValue(text, digits) == n
  {
    DecimalLength(n);
    PaddedValue(n, 2, digits);
    PaddedValue(n, |Decimal(n)|, digits);
    assert Padded(n, |Decimal(n)|) == Decimal(n);
  }

  /** What is no date stays as it is, and white space around a date does not matter. */
  lemma OnlyDatesChange(s: string, left: string, right: string, digits: Digits)
    requires DigitTable(digits) && Spaces(left) && Spaces(right)
    ensures MatchDate(Strip(s), digits).None? ==> NormalizeDate(s, digits) == s
    ensures MatchDate(s, digits).Some? ==> NormalizeDate(left + s + right, digits) == NormalizeDate(s, digits)
  {
    if MatchDate(s, digits).Some? {
      MatchDateCharacters(s, digits);
      assert s[0] in s && s[|s| - 1] in s;
      StripSurrounded(left, s, right);
      StripId(s);
    }
  }

  // ---------------------------------------------------------------- which hints apply

  /** The two hints that are known; every other one leaves a string alone. */
  lemma HintExactly(s: string, hint: Json, digits: Digits)
    ensures hint == Str("digits") ==> ApplyHint(s, hint, digits) == KeepDigits(s, digits)
    ensures hint == Str("collapse-whitespace") ==> ApplyHint(s, hint, digits) == Collapse(s)
    ensures hint != Str("digits") && hint != Str("collapse-whitespace") ==> ApplyHint(s, hint, digits) == s
  {
  }

  /** The date comes before the hints: it is rewritten as by the schema without its format. */
  lemma DateFirst(s: string, m: Fields, digits: Digits)
    ensures Get(m, "format") == Str("date") ==>
              NormalString(s, m, digits) == NormalString(NormalizeDate(s, digits), m - {"format"}, digits)
    ensures Get(m, "format") != Str("date") ==> NormalString(s, m, digits) == NormalString(s, m - {"format"}, digits)
  {
    assert Get(m - {"format"}, "x-normalize") == Get(m, "x-normalize");
  }

  /** Hints apply from the first to the last; one hint alone may stand without a list; no hint changes nothing. */
  lemma HintsInOrder(s: string, m: Fields, hints: seq<Json>, hint: Json, digits: Digits)
    requires "format" !in m
    ensures NormalString(s, m["x-normalize" := Arr(hints + [hint])], digits)
            == ApplyHint(NormalString(s, m["x-normalize" := Arr(hints)], digits), hint, digits)
    ensures hint.Str? ==> NormalString(s, m["x-normalize" := hint], digits) == ApplyHint(s, hint, digits)
    ensures NormalString(s, m["x-normalize" := Arr([])], digits) == s
    ensures !Get(m, "x-normalize").Str? && !Get(m, "x-normalize").Arr? ==> NormalString(s, m, digits) == s
  {
    HintsSnoc(s, hints, hint, digits);
    HintsSnoc(s, [], hint, digits);
    assert [] + [hint] == [hint];
  }

  lemma {:induction false} HintsSnoc(s: string, hints: seq<Json>, hint: Json, digits: Digits)
    ensures ApplyHints(s, hints + [hint], digits) == ApplyHint(ApplyHints(s, hints, digits), hint, digits)
    decreases |hints|
  {
    if hints == [] {
      assert hints + [hint] == [hint] && [hint][1..] == [];
    } else {
      assert (hints + [hint])[1..] == hints[1..] + [hint];
      HintsSnoc(ApplyHint(s, hints[0], digits), hints[1..], hint, digits);
    }
  }

  // ---------------------------------------------------------------- what hints keep

  /** Only digits are kept, and all of them, in order. */
  lemma {:induction false} KeepDigitsAppend(a: string, b: string, digits: Digits)
    ensures KeepDigits(a + b, digits) == KeepDigits(a, digits) + KeepDigits(b, digits)
  {
    if a == [] {
      assert a + b == b;
    } else {
      assert (a + b)[1..] == a[1..] + b;
      KeepDigitsAppend(a[1..], b, digits);
    }
  }

  lemma {:induction false} NonSpaceCollapse(s: string)
    ensures NonSpace(CollapseRuns(s)) == NonSpace(s)
    decreases |s|
  {
    if s != [] {
      if IsSpace(s[0]) {
        var t := StripLeft(s);
        NonSpaceCollapse(t);
        NonSpaceStripLeft(s);
        assert ([' '] + CollapseRuns(t))[1..] == CollapseRuns(t);
      } else {
        NonSpaceCollapse(s[1..]);
        assert ([s[0]] + CollapseRuns(s[1..]))[1..] == CollapseRuns(s[1..]);
      }
    }
  }

  /** Every white space is one plain space with other characters on both sides. */
  predicate SingleSpaced(s: string) {
    forall i :: 0 <= i < |s| && IsSpace(s[i]) ==> s[i] == ' ' && 0 < i < |s| - 1 && !IsSpace(s[i + 1])
  }

  lemma {:induction false} CollapseSpaces(s: string)
    ensures forall i :: 0 <= i < |CollapseRuns(s)| && IsSpace(CollapseRuns(s)[i]) ==>
              CollapseRuns(s)[i] == ' ' && (i + 1 < |CollapseRuns(s)| ==> !IsSpace(CollapseRuns(s)[i + 1]))
    decreases |s|
  {
    if s != [] {
      var t := if IsSpace(s[0]) then StripLeft(s) else s[1..];
      CollapseSpaces(t);
      var r := CollapseRuns(s);
      assert forall i :: 1 <= i < |r| ==> r[i] == CollapseRuns(t)[i - 1];
    }
  }

  /** Collapsing white space keeps all other characters, and leaves single spaces between them. */
  lemma CollapseMeaning(s: string)
    ensures SingleSpaced(Collapse(s)) && NonSpace(Collapse(s)) == NonSpace(s)
  {
    CollapseStripped(s);
    CollapseSpaces(Strip(s));
    StripIdempotent(CollapseRuns(s));
    NonSpaceCollapse(Strip(s));
    NonSpaceStripRight(StripLeft(s));
    NonSpaceStripLeft(s);
  }

  // ---------------------------------------------------------------- hints settle

  lemma HintIdempotent(s: string, hint: Json, digits: Digits)
    requires DigitTable(digits)
    ensures ApplyHint(ApplyHint(s, hint, digits), hint, digits) == ApplyHint(s, hint, digits)
  {
    if hint == Str("digits") { DigitsFixed(KeepDigits(s, digits), hint, digits); }
    CollapseIdempotent(s);
  }

  /** A string that one hint leaves alone is still left alone after another hint. */
  lemma HintKeepsFixed(s: string, fixed: Json, hint: Json, digits: Digits)
    requires DigitTable(digits) && ApplyHint(s, fixed, digits) == s
    ensures ApplyHint(ApplyHint(s, hint, digits), fixed, digits) == ApplyHint(s, hint, digits)
  {
    if hint == Str("digits") {
      DigitsFixed(KeepDigits(s, digits), fixed, digits);
    } else if fixed == Str("digits") {
      assert forall c | c in s :: c in digits;
      DigitsFixed(s, hint, digits);
    } else {
      CollapseIdempotent(s);
    }
  }

  lemma {:induction false} HintsKeepFixed(s: string, fixed: Json, hints: seq<Json>, digits: Digits)
    requires DigitTable(digits) && ApplyHint(s, fixed, digits) == s
    ensures ApplyHint(ApplyHints(s, hints, digits), fixed, digits) == ApplyHints(s, hints, digits)
    decreases |hints|
  {
    if hints != [] {
      HintKeepsFixed(s, fixed, hints[0], digits);
      HintsKeepFixed(ApplyHint(s, hints[0], digits), fixed, hints[1..], digits);
    }
  }

  /** Every hint of a list leaves the result of the whole list alone. */
  lemma {:induction false} HintsSettle(s: string, hints: seq<Json>, digits: Digits)
    requires DigitTable(digits)
    ensures forall i :: 0 <= i < |hints| ==>
              ApplyHint(ApplyHints(s, hints, digits), hints[i], digits) == ApplyHints(s, hints, digits)
    decreases |hints|
  {
    if hints != [] {
      HintIdempotent(s, hints[0], digits);
      HintsKeepFixed(ApplyHint(s, hints[0], digits), hints[0], hints[1..], digits);
      HintsSettle(ApplyHint(s, hints[0], digits), hints[1..], digits);
      assert forall i :: 1 <= i < |hints| ==> hints[i] == hints[1..][i - 1];
    }
  }

  lemma {:induction false} HintsFixed(s: string, hints: seq<Json>, digits: Digits)
    requires forall i :: 0 <= i < |hints| ==> ApplyHint(s, hints[i], digits) == s
    ensures ApplyHints(s, hints, digits) == s
    decreases |hints|
  {
    if hints != [] {
      assert forall i :: 0 <= i < |hints[1..]| ==> hints[1..][i] == hints[i + 1];
      HintsFixed(s, hints[1..], digits);
    }
  }

  /** Rewriting a string twice is rewriting it once, for any date format and any list of hints. */
  lemma NormalStringIdempotent(s: string, m: Fields, digits: Digits)
    requires DigitTable(digits)
    ensures NormalString(NormalString(s, m, digits), m, digits) == NormalString(s, m, digits)
  {
    var hints := HintList(Get(m, "x-normalize"));
    var dated := if Get(m, "format") == Str("date") then NormalizeDate(s, digits) else s;
    var r := ApplyHints(dated, hints, digits);
    if Get(m, "format") == Str("date") {
      IsoUndated(s, digits);
      HintsKeepUndated(dated, hints, digits);
      assert NormalizeDate(r, digits) == r;
    }
    HintsSettle(dated, hints, digits);
    HintsFixed(r, hints, digits);
  }

  /** `normalize_values` is idempotent for every value, schema and hint. */
  lemma {:induction false} NormalValueIdempotent(value: Json, schema: Json, digits: Digits)
    requires DigitTable(digits)
    ensures NormalValue(NormalValue(value, schema, digits), schema, digits) == NormalValue(value, schema, digits)
    decreases value
  {
    if schema.Obj? {
      var m := schema.fields;
      var once := NormalValue(value, schema, digits);
      match value
      case Obj(fields) =>
        var props := Get(m, "properties");
        if props.Obj? {
          forall k | k in fields && k in props.fields
            ensures NormalValue(once.fields[k], props.fields[k], digits) == once.fields[k]
          {
            NormalValueIdempotent(fields[k], props.fields[k], digits);
          }
          assert NormalValue(once, schema, digits).fields == once.fields;
        }
      case Arr(xs) =>
        var items := Get(m, "items");
        if items.Obj? {
          forall i | 0 <= i < |xs| ensures NormalValue(once.items[i], items, digits) == once.items[i] {
            NormalValueIdempotent(xs[i], items, digits);
          }
          assert NormalValue(once, schema, digits).items == once.items;
        }
      case Str(s) => NormalStringIdempotent(s, m, digits);
      case _ =>
    }
  }

  // ---------------------------------------------------------------- where nothing is rewritten

  /** The hints for the values at a key, or for the items of a list. */
  function HintsAt(hints: Json, key: string): Json {
    if hints.Obj? && Get(hints.fields, "properties").Obj? then Get(hints.fields["properties"].fields, key) else Null
  }

  function ItemHints(hints: Json): Json {
    if hints.Obj? && Get(hints.fields, "items").Obj? then hints.fields["items"] else Null
  }

  lemma NormalMembers(value: Json, hints: Json, digits: Digits)
    ensures SameShape(value, NormalValue(value, hints, digits))
    ensures value.Obj? ==>
              forall k | k in value.fields ::
                NormalValue(value, hints, digits).fields[k]
                == NormalValue(value.fields[k], HintsAt(hints, k), digits)
    ensures value.Arr? ==>
              forall i :: 0 <= i < |value.items| ==>
                NormalValue(value, hints, digits).items[i]
                == NormalValue(value.items[i], ItemHints(hints), digits)
  {
    NormalValueKeepsShape(value, hints, digits);
  }

  /** The schema hints at no rewriting, here or further down. */
  predicate Silent(hints: Json) {
    hints.Obj? ==>
      var m := hints.fields;
      && Get(m, "format") != Str("date")
      && Idle(HintList(Get(m, "x-normalize")))
      && ("properties" in m && m["properties"].Obj? ==>
            forall k | k in m["properties"].fields :: Silent(m["properties"].fields[k]))
      && ("items" in m ==> Silent(m["items"]))
  }

  predicate Idle(hints: seq<Json>) {
    forall i :: 0 <= i < |hints| ==> hints[i] != Str("digits") && hints[i] != Str("collapse-whitespace")
  }

  lemma {:induction false} SilentKeeps(value: Json, hints: Json, digits: Digits)
    requires Silent(hints)
    ensures NormalValue(value, hints, digits) == value
    decreases value
  {
    NormalMembers(value, hints, digits);
    match value
    case Obj(fields) =>
      forall k | k in fields ensures NormalValue(fields[k], HintsAt(hints, k), digits) == fields[k] {
        SilentKeeps(fields[k], HintsAt(hints, k), digits);
      }
      assert NormalValue(value, hints, digits).fields == fields;
    case Arr(xs) =>
      forall i | 0 <= i < |xs| ensures NormalValue(xs[i], ItemHints(hints), digits) == xs[i] {
        SilentKeeps(xs[i], ItemHints(hints), digits);
      }
      assert NormalValue(value, hints, digits).items == xs;
    case Str(s) =>
      if hints.Obj? { HintsFixed(s, HintList(Get(hints.fields, "x-normalize")), digits); }
    case _ =>
  }

  // ---------------------------------------------------------------- the procedure

  /** `_normalize_node`. */
  method NormalizeValue(value: Json, schema: Json, digits: Digits) returns (r: Json)
    ensures r == NormalValue(value, schema, digits)
    decreases value, 1
  {
    if !schema.Obj? || value.Null? {
      return value;
    }
    var m := schema.fields;
    match value {
      case Obj(fields) =>
        var properties := Get(m, "properties");
        if !properties.Obj? {
          return value;
        }
        var result := fields;
        var pending := properties.fields.Keys;
        while pending != {}
          invariant pending <= properties.fields.Keys && result.Keys == fields.Keys
          invariant forall k | k in fields ::
            result[k] == if k in properties.fields && k !in pending
                         then NormalValue(fields[k], properties.fields[k], digits) else fields[k]
          decreases pending
        {
          var key :| key in pending;
          if key in result {
            assert result[key] == fields[key];
            var child := NormalizeValue(fields[key], properties.fields[key], digits);
            result := result[key := child];
          }
          pending := pending - {key};
        }
        r := Obj(result);
        assert result == NormalValue(value, schema, digits).fields;
      case Arr(xs) =>
        var items := Get(m, "items");
        if !items.Obj? {
          return value;
        }
        var result: seq<Json> := [];
        while |result| < |xs|
          invariant |result| <= |xs|
          invariant forall i :: 0 <= i < |result| ==> result[i] == NormalValue(xs[i], items, digits)
        {
          var item := NormalizeValue(xs[|result|], items, digits);
          result := result + [item];
        }
        r := Arr(result);
        assert result == NormalValue(value, schema, digits).items;
      case Str(s) =>
        var leaf := NormalizeLeaf(s, m, digits);
        r := Str(leaf);
      case _ =>
        r := value;
    }
  }

  lemma NextHint(s: string, hints: seq<Json>, i: nat, digits: Digits)
    requires i < |hints|
    ensures ApplyHints(s, hints[i..], digits) == ApplyHints(ApplyHint(s, hints[i], digits), hints[i + 1..], digits)
  {
    assert hints[i..][0] == hints[i] && hints[i..][1..] == hints[i + 1..];
  }

  /** `_normalize_leaf` on a string. */
  method NormalizeLeaf(value: string, m: Fields, digits: Digits) returns (result: string)
    ensures result == NormalString(value, m, digits)
  {
    result := value;
    if Get(m, "format") == Str("date") {
      result := NormalizeDate(result, digits);
    }
    var hints := HintList(Get(m, "x-normalize"));
    var i := 0;
    while i < |hints|
      invariant 0 <= i <= |hints|
      invariant ApplyHints(result, hints[i..], digits) == NormalString(value, m, digits)
    {
      NextHint(result, hints, i, digits);
      result := ApplyHint(result, hints[i], digits);
      i := i + 1;
    }
  }
}
