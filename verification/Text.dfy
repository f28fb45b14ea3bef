/**
 The string operations of the host language that the service relies on: white space and line
 breaks, stripping, splitting, joining, decimal rendering and integer parsing.
 */
module Text {
  import opened Wrappers

  /** The characters that `str.strip` and the regular expression class `\s` treat as white space. */
  predicate IsSpace(c: char) {
    || '\U{0009}' <= c <= '\U{000D}'
    || '\U{001C}' <= c <= '\U{0020}'
    || c == '\U{0085}' || c == '\U{00A0}' || c == '\U{1680}'
    || '\U{2000}' <= c <= '\U{200A}'
    || c == '\U{2028}' || c == '\U{2029}' || c == '\U{202F}' || c == '\U{205F}' || c == '\U{3000}'
  }

  /** The characters that end a line for `str.splitlines`. */
  predicate IsLineBreak(c: char) {
    || '\U{000A}' <= c <= '\U{000D}'
    || '\U{001C}' <= c <= '\U{001E}'
    || c == '\U{0085}' || c == '\U{2028}' || c == '\U{2029}'
  }

  // ---------------------------------------------------------------- stripping

  function StripLeft(s: string): (r: string)
    ensures |r| <= |s|
    ensures r == [] || !IsSpace(r[0])
  {
    if s != [] && IsSpace(s[0]) then StripLeft(s[1..]) else s
  }

  function StripRight(s: string): (r: string)
    ensures |r| <= |s| && r == s[..|r|]
    ensures r == [] || !IsSpace(r[|r| - 1])
  {
    if s != [] && IsSpace(s[|s| - 1]) then StripRight(s[..|s| - 1]) else s
  }

  function Strip(s: string): string {
    StripRight(StripLeft(s))
  }

  predicate StartsWith(s: string, prefix: string) {
    |prefix| <= |s| && s[..|prefix|] == prefix
  }

  /** `str.strip(c)` for one character. */
  function StripChar(s: string, c: char): string {
    if s != [] && s[0] == c then StripChar(s[1..], c)
    else if s != [] && s[|s| - 1] == c then StripChar(s[..|s| - 1], c)
    else s
  }

  /** Stripping twice is stripping once. */
  lemma StripIdempotent(s: string)
    ensures Strip(Strip(s)) == Strip(s)
    ensures Strip(s) == [] || (!IsSpace(Strip(s)[0]) && !IsSpace(Strip(s)[|Strip(s)| - 1]))
  {
    var l := StripLeft(s);
    var r := StripRight(l);
    assert r == [] || r[0] == l[0];
  }

  /** Stripping leaves a string with no outer white space alone. */
  lemma StripId(s: string)
    requires s == [] || (!IsSpace(s[0]) && !IsSpace(s[|s| - 1]))
    ensures Strip(s) == s
  {
  }

  /** The characters of the stripped string are those of the original that are not outer white space. */
  lemma StripKeeps(s: string, c: char)
    ensures c in Strip(s) ==> c in s
    ensures c in s && !IsSpace(c) ==> c in Strip(s)
  {
    StripLeftKeeps(s, c);
    StripRightKeeps(StripLeft(s), c);
  }

  lemma StripLeftKeeps(s: string, c: char)
    ensures c in StripLeft(s) ==> c in s
    ensures c in s && !IsSpace(c) ==> c in StripLeft(s)
  {
    if s != [] && IsSpace(s[0]) {
      assert s == [s[0]] + s[1..];
      StripLeftKeeps(s[1..], c);
    }
  }

  lemma StripRightKeeps(s: string, c: char)
    ensures c in StripRight(s) ==> c in s
    ensures c in s && !IsSpace(c) ==> c in StripRight(s)
  {
    if s != [] && IsSpace(s[|s| - 1]) {
      assert s == s[..|s| - 1] + [s[|s| - 1]];
      StripRightKeeps(s[..|s| - 1], c);
    }
  }

  lemma StripLeftPrefix(s: string) returns (p: string)
    ensures s == p + StripLeft(s) && forall c | c in p :: IsSpace(c)
  {
    if s != [] && IsSpace(s[0]) {
      var q := StripLeftPrefix(s[1..]);
      p := [s[0]] + q;
    } else {
      p := [];
    }
  }

  lemma {:induction false} StripRightSpaces(p: string)
    requires forall c | c in p :: IsSpace(c)
    ensures StripRight(p) == []
  {
    if p != [] {
      assert p[|p| - 1] in p;
      StripRightSpaces(p[..|p| - 1]);
    }
  }

  lemma {:induction false} StripLeftSpaces(p: string, t: string)
    requires forall c | c in p :: IsSpace(c)
    requires t == [] || !IsSpace(t[0])
    ensures StripLeft(p + t) == t
  {
    if p != [] {
      assert p[0] in p;
      assert (p + t)[1..] == p[1..] + t;
      StripLeftSpaces(p[1..], t);
    } else {
      assert p + t == t;
    }
  }

  predicate Spaces(s: string) {
    forall c | c in s :: IsSpace(c)
  }

  /** Stripping takes away white space on both sides, and all of it. */
  lemma StripMeaning(s: string) returns (left: string, right: string)
    ensures s == left + Strip(s) + right && Spaces(left) && Spaces(right)
    ensures Strip(s) == [] || (!IsSpace(Strip(s)[0]) && !IsSpace(Strip(s)[|Strip(s)| - 1]))
  {
    left := StripLeftPrefix(s);
    right := StripRightSuffix(StripLeft(s));
    StripIdempotent(s);
  }

  lemma StripRightSuffix(s: string) returns (q: string)
    ensures s == StripRight(s) + q && Spaces(q)
  {
    if s != [] && IsSpace(s[|s| - 1]) {
      var p := StripRightSuffix(s[..|s| - 1]);
      q := p + [s[|s| - 1]];
    } else {
      q := [];
    }
  }

  /** A text without outer white space is what remains of it in any surrounding white space. */
  lemma StripSurrounded(left: string, t: string, right: string)
    requires Spaces(left) && Spaces(right)
    requires t == [] || (!IsSpace(t[0]) && !IsSpace(t[|t| - 1]))
    ensures Strip(left + t + right) == t
  {
    if t == [] {
      assert left + t + right == (left + right) + [];
      StripLeftSpaces(left + right, []);
    } else {
      assert left + t + right == left + (t + right);
      StripLeftSpaces(left, t + right);
      StripRightTrailing(t, right);
    }
  }

  lemma {:induction false} StripRightTrailing(t: string, right: string)
    requires t != [] && !IsSpace(t[|t| - 1]) && Spaces(right)
    ensures StripRight(t + right) == t
    decreases |right|
  {
    if right == [] {
      assert t + right == t;
    } else {
      assert right[|right| - 1] in right;
      assert (t + right)[..|t + right| - 1] == t + right[..|right| - 1];
      StripRightTrailing(t, right[..|right| - 1]);
    }
  }

  /** After stripping, a text starts with the first character that is not white space. */
  lemma StripStarts(left: string, c: char, rest: string)
    requires Spaces(left) && !IsSpace(c)
    ensures StartsWith(Strip(left + [c] + rest), [c])
  {
    var t := [c] + rest;
    assert left + [c] + rest == left + t;
    StripLeftSpaces(left, t);
    StripRightKeeps(t, c);
    assert t[0] == c && c in t;
  }

  // ---------------------------------------------------------------- text without white space

  /** The characters of a string that are not white space, in order. */
  function NonSpace(s: string): string {
    if s == [] then [] else (if IsSpace(s[0]) then [] else [s[0]]) + NonSpace(s[1..])
  }

  lemma {:induction false} NonSpaceAppend(a: string, b: string)
    ensures NonSpace(a + b) == NonSpace(a) + NonSpace(b)
  {
    if a == [] {
      assert a + b == b;
    } else {
      assert (a + b)[1..] == a[1..] + b;
      NonSpaceAppend(a[1..], b);
    }
  }

  lemma {:induction false} NonSpaceStripLeft(s: string)
    ensures NonSpace(StripLeft(s)) == NonSpace(s)
  {
    if s != [] && IsSpace(s[0]) { NonSpaceStripLeft(s[1..]); }
  }

  lemma {:induction false} NonSpaceStripRight(s: string)
    ensures NonSpace(StripRight(s)) == NonSpace(s)
  {
    if s != [] && IsSpace(s[|s| - 1]) {
      var front, last := s[..|s| - 1], s[|s| - 1];
      assert s == front + [last];
      NonSpaceAppend(front, [last]);
      assert NonSpace([last]) == [];
      NonSpaceStripRight(front);
    }
  }

  lemma NonSpaceStrip(s: string)
    ensures NonSpace(Strip(s)) == NonSpace(s)
  {
    NonSpaceStripLeft(s);
    NonSpaceStripRight(StripLeft(s));
  }

  // ---------------------------------------------------------------- which characters

  /** Every line break is white space. */
  lemma BreaksAreSpaces(c: char)
    ensures IsLineBreak(c) ==> IsSpace(c)
  {
  }

  /** White space within ASCII: the blank, tab, line and page breaks, and the four separators. */
  lemma AsciiSpaces(c: char)
    requires c < '\U{0080}'
    ensures IsSpace(c) <==> c in " \t\n\r\U{000B}\U{000C}\U{001C}\U{001D}\U{001E}\U{001F}"
    ensures IsLineBreak(c) <==> c in "\n\r\U{000B}\U{000C}\U{001C}\U{001D}\U{001E}"
  {
  }

  // ---------------------------------------------------------------- splitting

  /** `str.split` at one character. */
  function Split(s: string, c: char): (parts: seq<string>)
    ensures |parts| >= 1
  {
    if s == [] then [""]
    else
      var rest := Split(s[1..], c);
      if s[0] == c then [""] + rest else ExtendHead(s[0], rest)
  }

  lemma {:induction false} SplitNone(s: string, c: char)
    requires c !in s
    ensures Split(s, c) == [s]
  {
    if s != [] {
      SplitNone(s[1..], c);
      assert [s[0]] + s[1..] == s;
    }
  }

  /** Splitting is a homomorphism at every separator. */
  lemma {:induction false} SplitAtSeparator(a: string, c: char, b: string)
    ensures Split(a + [c] + b, c) == Split(a, c) + Split(b, c)
  {
    if a == [] {
      assert a + [c] + b == [c] + b;
      SplitCons(c, b, c);
    } else {
      var h, t := a[0], a[1..];
      assert a == [h] + t && a + [c] + b == [h] + (t + [c] + b);
      SplitAtSeparator(t, c, b);
      SplitCons(h, t, c);
      SplitCons(h, t + [c] + b, c);
      AppendAfterHead(h, Split(t, c), Split(b, c));
    }
  }

  lemma SplitCons(h: char, t: string, c: char)
    ensures Split([h] + t, c) == if h == c then [""] + Split(t, c) else ExtendHead(h, Split(t, c))
  {
    assert ([h] + t)[1..] == t;
  }

  function ExtendHead(h: char, parts: seq<string>): seq<string>
    requires |parts| >= 1
  {
    [[h] + parts[0]] + parts[1..]
  }

  lemma AppendAfterHead(h: char, l: seq<string>, r: seq<string>)
    requires |l| >= 1
    ensures ExtendHead(h, l + r) == ExtendHead(h, l) + r
    ensures [""] + (l + r) == [""] + l + r
  {
    assert (l + r)[1..] == l[1..] + r;
  }

  // ---------------------------------------------------------------- lines

  /** Index of the first line break, or the length if there is none. */
  function FirstBreak(s: string): (i: nat)
    ensures i <= |s|
    ensures forall j :: 0 <= j < i ==> !IsLineBreak(s[j])
    ensures i < |s| ==> IsLineBreak(s[i])
  {
    if s == [] || IsLineBreak(s[0]) then 0 else 1 + FirstBreak(s[1..])
  }

  /** A carriage return followed by a line feed is one break. */
  function BreakWidth(s: string, i: nat): (w: nat)
    requires i < |s|
    ensures 1 <= w && i + w <= |s|
  {
    if s[i] == '\r' && i + 1 < |s| && s[i + 1] == '\n' then 2 else 1
  }

  /** `str.splitlines()`. */
  function SplitLines(s: string): seq<string>
    decreases |s|
  {
    if s == [] then []
    else
      var i := FirstBreak(s);
      if i == |s| then [s] else [s[..i]] + SplitLines(s[i + BreakWidth(s, i)..])
  }

  /** `"\n".join(lines)`. */
  function JoinLines(lines: seq<string>): string {
    if lines == [] then ""
    else if |lines| == 1 then lines[0]
    else lines[0] + "\n" + JoinLines(lines[1..])
  }

  predicate BreakFree(s: string) {
    forall i :: 0 <= i < |s| ==> !IsLineBreak(s[i])
  }

  lemma FirstBreakUnique(s: string, i: nat)
    requires i <= |s|
    requires forall j :: 0 <= j < i ==> !IsLineBreak(s[j])
    requires i < |s| ==> IsLineBreak(s[i])
    ensures FirstBreak(s) == i
  {
    var k := FirstBreak(s);
    if k < i { assert false; }
    if i < k { assert false; }
  }

  /** No line that `splitlines` returns holds a line break. */
  lemma {:induction false} SplitLinesBreakFree(s: string)
    ensures forall k :: 0 <= k < |SplitLines(s)| ==> BreakFree(SplitLines(s)[k])
    decreases |s|
  {
    if s != [] && FirstBreak(s) < |s| {
      SplitLinesBreakFree(s[FirstBreak(s) + BreakWidth(s, FirstBreak(s))..]);
    }
  }

  /** A line break that ends a line, before the given text. */
  predicate EndsLine(br: string, rest: string) {
    br == "\r\n" || (|br| == 1 && IsLineBreak(br[0]) && !(br == "\r" && StartsWith(rest, "\n")))
  }

  /** The first line ends at the first break, and a carriage return with a line feed is one break. */
  lemma SplitLinesFirst(line: string, br: string, rest: string)
    requires BreakFree(line) && EndsLine(br, rest)
    ensures SplitLines(line + br + rest) == [line] + SplitLines(rest)
  {
    var s := line + br + rest;
    var i := |line|;
    assert s[i] == br[0];
    FirstBreakUnique(s, i);
    assert s[..i] == line && s[i + |br|..] == rest;
    if |br| == 1 && rest != [] { assert s[i + 1] == rest[0] && rest[..1] == [rest[0]]; }
    if |br| == 2 { assert s[i + 1] == '\n'; }
  }

  /** A text without breaks is one line, unless it is empty. */
  lemma SplitLinesOnly(line: string)
    requires BreakFree(line)
    ensures SplitLines(line) == if line == "" then [] else [line]
  {
    FirstBreakUnique(line, |line|);
  }

  /** Joining puts one line feed between lines. */
  lemma {:induction false} JoinAppend(a: seq<string>, b: seq<string>)
    requires a != [] && b != []
    ensures JoinLines(a + b) == JoinLines(a) + "\n" + JoinLines(b)
    ensures |a| == 1 ==> JoinLines(a) == a[0]
  {
    assert (a + b)[1..] == a[1..] + b;
    if |a| == 1 {
      assert a[1..] + b == b;
    } else {
      JoinAppend(a[1..], b);
      var rest, tail := JoinLines(a[1..]), JoinLines(b);
      assert a[0] + "\n" + (rest + "\n" + tail) == (a[0] + "\n" + rest) + "\n" + tail;
    }
  }

  /** Joining lines and splitting the text again gives the same lines, when the last is not empty. */
  lemma {:induction false} SplitJoinLines(lines: seq<string>)
    requires forall k :: 0 <= k < |lines| ==> BreakFree(lines[k])
    requires lines != [] ==> lines[|lines| - 1] != ""
    ensures SplitLines(JoinLines(lines)) == lines
  {
    var s := JoinLines(lines);
    if |lines| == 1 {
      FirstBreakUnique(s, |s|);
    } else if |lines| > 1 {
      var i := |lines[0]|;
      FirstBreakUnique(s, i);
      assert s[i] == '\n' && s[i + 1..] == JoinLines(lines[1..]);
      assert s[..i] == lines[0];
      SplitJoinLines(lines[1..]);
    }
  }

  // ---------------------------------------------------------------- numbers

  /**
   The decimal digits the host language knows, with their values.  Beyond the ASCII digits the table
   is left open; it holds no white space and none of the characters the parsers below look for.
   */
  type Digits = map<char, nat>

  predicate DigitTable(digits: Digits) {
    && (forall c | c in digits :: digits[c] < 10 && !IsSpace(c) && c !in "+-_./")
    && (forall c | '0' <= c <= '9' :: c in digits && digits[c] == c as int - '0' as int)
  }

  function Digit(d: nat): (c: char)
    requires d < 10
    ensures '0' <= c <= '9'
  {
    ('0' as int + d) as char
  }

  /** Decimal rendering without leading zeros. */
  function Decimal(n: nat): (s: string)
    ensures |s| >= 1
    ensures forall c | c in s :: '0' <= c <= '9'
  {
    if n < 10 then [Digit(n)] else Decimal(n / 10) + [Digit(n % 10)]
  }

  /** The digits part of `int(text)`: digits, with single underscores allowed between them. */
  function Magnitude(s: string, digits: Digits): Option<nat>
    decreases |s|
  {
    if s == [] || s[|s| - 1] !in digits then None
    else
      var front, value := s[..|s| - 1], digits[s[|s| - 1]];
      if front == [] then Some(value)
      else
        var high := Magnitude(if front[|front| - 1] == '_' then front[..|front| - 1] else front, digits);
        if high.None? then None else Some(10 * high.value + value)
  }

  /** `int(text)`; None stands for ValueError. */
  function ParseInt(text: string, digits: Digits): Option<int> {
    var s := Strip(text);
    if s == [] then None
    else if s[0] == '-' then
      var m := Magnitude(s[1..], digits);
      if m.None? then None else Some(0 - m.value)
    else
      var m := Magnitude(if s[0] == '+' then s[1..] else s, digits);
      if m.None? then None else Some(m.value)
  }

  lemma {:induction false} MagnitudeDecimal(n: nat, digits: Digits)
    requires DigitTable(digits)
    ensures Magnitude(Decimal(n), digits) == Some(n)
  {
    if n < 10 {
      DigitKnown(n, digits);
    } else {
      var q, r := n / 10, n % 10;
      MagnitudeDecimal(q, digits);
      DigitKnown(r, digits);
      DecimalEnds(q);
      MagnitudeSnoc(Decimal(q), Digit(r), digits);
      assert Decimal(n) == Decimal(q) + [Digit(r)];
    }
  }

  lemma DigitKnown(d: nat, digits: Digits)
    requires DigitTable(digits) && d < 10
    ensures Digit(d) in digits && digits[Digit(d)] == d
  {
  }

  lemma DecimalEnds(n: nat)
    ensures var s := Decimal(n);
            s[|s| - 1] != '_'
  {
    var s := Decimal(n);
    assert s[|s| - 1] in s;
  }

  lemma MagnitudeSnoc(front: string, last: char, digits: Digits)
    requires front != [] && front[|front| - 1] != '_' && last in digits
    ensures Magnitude(front + [last], digits) ==
            var high := Magnitude(front, digits);
            if high.None? then None else Some(10 * high.value + digits[last])
  {
    var s := front + [last];
    assert s[..|s| - 1] == front && s[|s| - 1] == last;
  }

  /** Integer parsing inverts decimal rendering. */
  lemma ParseDecimal(n: nat, digits: Digits)
    requires DigitTable(digits)
    ensures ParseInt(Decimal(n), digits) == Some(n)
  {
    var s := Decimal(n);
    assert s[0] in s && s[|s| - 1] in s;
    StripId(s);
    MagnitudeDecimal(n, digits);
  }

  /** Digits with single underscores between them. */
  predicate Grouped(s: string, digits: Digits) {
    && s != [] && s[0] in digits && s[|s| - 1] in digits
    && forall i :: 0 <= i < |s| - 1 ==> s[i] in digits || (s[i] == '_' && s[i + 1] in digits)
  }

  /** Exactly the grouped digits are read. */
  lemma {:induction false} MagnitudeExactly(s: string, digits: Digits)
    requires DigitTable(digits)
    ensures Magnitude(s, digits).Some? <==> Grouped(s, digits)
    decreases |s|
  {
    if s != [] && s[|s| - 1] in digits && |s| > 1 {
      var front := s[..|s| - 1];
      var high := if front[|front| - 1] == '_' then front[..|front| - 1] else front;
      MagnitudeExactly(high, digits);
      if Grouped(s, digits) { GroupedFront(s, high, digits); }
      if Grouped(high, digits) { GroupedLonger(s, high, digits); }
    }
  }

  lemma GroupedFront(s: string, high: string, digits: Digits)
    requires DigitTable(digits) && |s| > 1 && Grouped(s, digits)
    requires high == if s[|s| - 2] == '_' then s[..|s| - 2] else s[..|s| - 1]
    ensures Grouped(high, digits)
  {
    assert '_' !in digits;
    assert s[|s| - 2] != '_' ==> s[|s| - 2] in digits;
    if s[|s| - 2] == '_' { assert |s| >= 3 && s[|s| - 3] in digits; }
    forall i | 0 <= i < |high| - 1 ensures high[i] in digits || (high[i] == '_' && high[i + 1] in digits) {
      assert high[i] == s[i] && high[i + 1] == s[i + 1];
    }
  }

  lemma GroupedLonger(s: string, high: string, digits: Digits)
    requires DigitTable(digits) && |s| > 1 && s[|s| - 1] in digits && Grouped(high, digits)
    requires high == if s[|s| - 2] == '_' then s[..|s| - 2] else s[..|s| - 1]
    ensures Grouped(s, digits)
  {
    assert forall i :: 0 <= i < |high| ==> high[i] == s[i];
    forall i | 0 <= i < |s| - 1 ensures s[i] in digits || (s[i] == '_' && s[i + 1] in digits) {
      if i < |high| - 1 { assert high[i] == s[i] && high[i + 1] == s[i + 1]; }
      if i == |high| - 1 { assert high[|high| - 1] in digits; }
    }
  }

  /** An underscore between digits does not count. */
  lemma MagnitudeUnderscore(front: string, last: char, digits: Digits)
    requires DigitTable(digits) && front != [] && front[|front| - 1] in digits && last in digits
    ensures Magnitude(front + "_" + [last], digits) == Magnitude(front + [last], digits)
  {
    var s := front + "_" + [last];
    assert s[..|s| - 1] == front + "_" && (front + "_")[..|front|] == front;
    MagnitudeSnoc(front, last, digits);
  }

  function Unsigned(s: string): string {
    if s != [] && (s[0] == '-' || s[0] == '+') then s[1..] else s
  }

  predicate IsSign(sign: string) {
    sign == "" || sign == "+" || sign == "-"
  }

  lemma ParseStripped(text: string, sign: string, s: string, digits: Digits)
    requires Strip(text) == sign + s && IsSign(sign) && s != []
    requires sign == "" ==> s[0] != '-' && s[0] != '+'
    ensures var value := Magnitude(s, digits);
            value.Some? ==> ParseInt(text, digits) == Some(if sign == "-" then 0 - value.value else value.value)
  {
    var t := Strip(text);
    if sign == "" { assert t == s; } else { assert t[0] == sign[0] && t[1..] == s; }
  }

  /** Grouped digits, with an optional sign and any white space around, are an integer. */
  lemma ParseIntExactly(text: string, sign: string, s: string, digits: Digits)
    requires DigitTable(digits)
    requires Strip(text) == sign + s && IsSign(sign) && Grouped(s, digits)
    ensures var value := Magnitude(s, digits);
            && value.Some?
            && ParseInt(text, digits) == Some(if sign == "-" then 0 - value.value else value.value)
  {
    MagnitudeExactly(s, digits);
    ParseStripped(text, sign, s, digits);
  }

  /** Nothing else is an integer. */
  lemma ParseIntOnly(text: string, digits: Digits)
    requires DigitTable(digits) && ParseInt(text, digits).Some?
    ensures Grouped(Unsigned(Strip(text)), digits)
  {
    MagnitudeExactly(Unsigned(Strip(text)), digits);
  }
}
