/** Assembly of a streamed chat completion from server-sent event lines. */
module Streaming {
  import opened Wrappers
  import opened Text
  import opened Json

  datatype LineKind = Data | Done | Comment | Blank

  /** A JSON text parser: `json.loads`, with None for ValueError. */
  type Parser = string -> Option<Json>

  /** The fields of an assembly. */
  datatype Assembly = Assembly(
    content: string,
    model: Option<Json>,
    provider: Option<Json>,
    usage: Option<Fields>,
    finishReason: Option<Json>,
    choiceError: Option<Json>)

  const EMPTY := Assembly("", None, None, None, None, None)

  /** Raised when a chunk reports a provider-side error. */
  datatype StreamError = ProviderError

  // ---------------------------------------------------------------- lines

  function Classify(line: string): LineKind {
    var stripped := Strip(line);
    if stripped == "" then Blank
    else if StartsWith(stripped, ":") then Comment
    else if StartsWith(stripped, "data:") then
      if Strip(stripped[5..]) == "[DONE]" then Done else Data
    else Comment
  }

  /** The JSON object on a data line, if there is one. */
  function Payload(line: string, parse: Parser): Option<Fields> {
    if Classify(line) != Data then None
    else
      var data := parse(Strip(Strip(line)[5..]));
      if data.Some? && data.value.Obj? then Some(data.value.fields) else None
  }

  /** What the elements before the first at which to stop give, in order. */
  function Until<L, C>(stop: L -> bool, give: L -> seq<C>, elements: seq<L>): seq<C> {
    if elements == [] || stop(elements[0]) then []
    else give(elements[0]) + Until(stop, give, elements[1..])
  }

  predicate IsDone(line: string) {
    Classify(line) == Done
  }

  function Delivered(parse: Parser): string -> seq<Fields> {
    line => match Payload(line, parse) case Some(fields) => [fields] case None => []
  }

  /** The chunks that a stream delivers: the objects on its data lines before the first end marker. */
  function Chunks(lines: seq<string>, parse: Parser): seq<Fields> {
    Until(IsDone, Delivered(parse), lines)
  }

  /** The kinds of lines, by the text that remains after stripping. */
  lemma ClassifyExactly(line: string)
    ensures Classify(line) == Blank <==> Spaces(line)
    ensures Classify(line) == Done <==>
              exists text :: Strip(line) == "data:" + text && Strip(text) == "[DONE]"
    ensures Classify(line) == Data <==>
              exists text :: Strip(line) == "data:" + text && Strip(text) != "[DONE]"
  {
    var stripped := Strip(line);
    BlankExactly(line);
    if StartsWith(stripped, "data:") {
      assert stripped == "data:" + stripped[5..];
      assert stripped[0] == 'd' by { assert stripped[..5][0] == stripped[0]; }
    }
    forall text | stripped == "data:" + text ensures stripped[..5] == "data:" && stripped[5..] == text {
    }
  }

  lemma BlankExactly(line: string)
    ensures Strip(line) == "" <==> Spaces(line)
  {
    var left, right := StripMeaning(line);
    if Spaces(line) {
      StripSurrounded(line, "", "");
      assert line + "" + "" == line;
    }
  }

  /** What a data line delivers: the text after the field name, parsed, if that gives an object. */
  lemma PayloadMeaning(line: string, text: string, parse: Parser)
    requires Strip(line) == "data:" + text && Strip(text) != "[DONE]"
    ensures forall fields :: Payload(line, parse) == Some(fields) <==> parse(Strip(text)) == Some(Obj(fields))
  {
    ClassifyExactly(line);
    assert Strip(line)[5..] == text;
  }

  // ---------------------------------------------------------------- chunks

  /** The first choice of a chunk, if it is an object. */
  function Choice(chunk: Fields): Option<Fields> {
    var choices := Get(chunk, "choices");
    if choices.Arr? && choices.items != [] && choices.items[0].Obj? then Some(choices.items[0].fields) else None
  }

  function ErrorOf(chunk: Fields): Option<Json> {
    var choice := Choice(chunk);
    if choice.Some? && Truthy(Get(choice.value, "error")) then Some(choice.value["error"]) else None
  }

  function PieceOf(chunk: Fields): string {
    var choice := Choice(chunk);
    if choice.None? || ErrorOf(chunk).Some? then ""
    else
      var delta := Get(choice.value, "delta");
      if delta.Obj? && Get(delta.fields, "content").Str? then delta.fields["content"].s else ""
  }

  function ModelOf(chunk: Fields): Option<Json> {
    if Truthy(Get(chunk, "model")) then Some(chunk["model"]) else None
  }

  function ProviderOf(chunk: Fields): Option<Json> {
    if !Get(chunk, "provider").Null? then Some(chunk["provider"]) else None
  }

  function UsageOf(chunk: Fields): Option<Fields> {
    if Get(chunk, "usage").Obj? then Some(chunk["usage"].fields) else None
  }

  function FinishOf(chunk: Fields): Option<Json> {
    var choice := Choice(chunk);
    if choice.Some? && ErrorOf(chunk).None? && !Get(choice.value, "finish_reason").Null?
    then Some(choice.value["finish_reason"]) else None
  }

  /** The first choice of the chunk is an object with these fields. */
  ghost predicate FirstChoice(chunk: Fields, choice: Fields) {
    exists others :: Get(chunk, "choices") == Arr([Obj(choice)] + others)
  }

  lemma ChoiceExactly(chunk: Fields, choice: Fields)
    ensures Choice(chunk) == Some(choice) <==> FirstChoice(chunk, choice)
  {
    var choices := Get(chunk, "choices");
    if Choice(chunk) == Some(choice) {
      assert choices.items == [Obj(choice)] + choices.items[1..];
    }
  }

  /** A chunk reports an error in its first choice, and a piece of content in the delta of that choice. */
  lemma PieceExactly(chunk: Fields, choice: Fields)
    requires FirstChoice(chunk, choice)
    ensures ErrorOf(chunk).Some? <==> Truthy(Get(choice, "error"))
    ensures ErrorOf(chunk).Some? ==> ErrorOf(chunk).value == Get(choice, "error") && PieceOf(chunk) == ""
    ensures forall piece :: piece != "" && ErrorOf(chunk).None? ==> (PieceOf(chunk) == piece <==> Delta(choice, piece))
    ensures forall v :: FinishOf(chunk) == Some(v) <==>
              !Truthy(Get(choice, "error")) && Get(choice, "finish_reason") == v && v != Null
  {
    ChoiceExactly(chunk, choice);
  }

  /** The choice adds the piece to the content. */
  predicate Delta(choice: Fields, piece: string) {
    var delta := Get(choice, "delta");
    delta.Obj? && Get(delta.fields, "content") == Str(piece)
  }

  /** Without a first choice that is an object there is no error, no content and no finish reason. */
  lemma NoChoiceNoPiece(chunk: Fields)
    requires forall choice :: !FirstChoice(chunk, choice)
    ensures ErrorOf(chunk).None? && PieceOf(chunk) == "" && FinishOf(chunk).None?
  {
    if Choice(chunk).Some? { ChoiceExactly(chunk, Choice(chunk).value); }
  }

  /** The model is taken if it counts as true, the provider if it is not null, the usage if it is an object. */
  lemma FieldsExactly(chunk: Fields)
    ensures forall v :: ModelOf(chunk) == Some(v) <==> Get(chunk, "model") == v && Truthy(v)
    ensures forall v :: ProviderOf(chunk) == Some(v) <==> Get(chunk, "provider") == v && v != Null
    ensures forall u :: UsageOf(chunk) == Some(u) <==> Get(chunk, "usage") == Obj(u)
  {
  }

  function Or<T>(newer: Option<T>, older: Option<T>): Option<T> {
    if newer.Some? then newer else older
  }

  /** The assembly after a chunk. */
  function Applied(a: Assembly, chunk: Fields): Assembly {
    Assembly(a.content + PieceOf(chunk), Or(ModelOf(chunk), a.model), Or(ProviderOf(chunk), a.provider),
             Or(UsageOf(chunk), a.usage), Or(FinishOf(chunk), a.finishReason),
             Or(ErrorOf(chunk), a.choiceError))
  }

  /** Chunks are applied in order; the first that reports an error ends the stream. */
  function Assembled(a: Assembly, chunks: seq<Fields>): Result<Assembly, StreamError>
    decreases |chunks|
  {
    if chunks == [] then Ok(a)
    else
      var next := Applied(a, chunks[0]);
      if next.choiceError.Some? then Err(ProviderError) else Assembled(next, chunks[1..])
  }

  // ---------------------------------------------------------------- the procedure

  class StreamAssembly {
    var content: string
    var model: Option<Json>
    var provider: Option<Json>
    var usage: Option<Fields>
    var finishReason: Option<Json>
    var choiceError: Option<Json>

    constructor ()
      ensures State() == EMPTY
    {
      content, model, provider := "", None, None;
      usage, finishReason, choiceError := None, None, None;
    }

    function State(): Assembly
      reads this
    {
      Assembly(content, model, provider, usage, finishReason, choiceError)
    }

    /** `_apply_chunk`. */
    method ApplyChunk(chunk: Fields)
      modifies this
      ensures State() == Applied(old(State()), chunk)
    {
      if Truthy(Get(chunk, "model")) {
        model := Some(chunk["model"]);
      }
      if !Get(chunk, "provider").Null? {
        provider := Some(chunk["provider"]);
      }
      var u := Get(chunk, "usage");
      if u.Obj? {
        usage := Some(u.fields);
      }
      ApplyChoice(chunk);
    }

    /** The part of `_apply_chunk` that reads the first choice. */
    method ApplyChoice(chunk: Fields)
      modifies `content, `finishReason, `choiceError
      ensures content == old(content) + PieceOf(chunk)
      ensures finishReason == Or(FinishOf(chunk), old(finishReason))
      ensures choiceError == Or(ErrorOf(chunk), old(choiceError))
    {
      var choices := Get(chunk, "choices");
      if !choices.Arr? || choices.items == [] {
        return;
      }
      var choice := choices.items[0];
      if !choice.Obj? {
        return;
      }
      if Truthy(Get(choice.fields, "error")) {
        choiceError := Some(choice.fields["error"]);
        return;
      }
      var delta := Get(choice.fields, "delta");
      if delta.Obj? {
        var piece := Get(delta.fields, "content");
        if piece.Str? {
          content := content + piece.s;
        }
      }
      var reason := Get(choice.fields, "finish_reason");
      if !reason.Null? {
        finishReason := Some(reason);
      }
    }
  }

  /** `consume_completion_stream`. */
  method ConsumeCompletionStream(lines: seq<string>, parse: Parser) returns (r: Result<Assembly, StreamError>)
    ensures r == Assembled(EMPTY, Chunks(lines, parse))
  {
    var assembly := new StreamAssembly();
    var i := 0;
    while i < |lines|
      invariant 0 <= i <= |lines|
      invariant assembly.choiceError.None?
      invariant Assembled(assembly.State(), Chunks(lines[i..], parse)) == Assembled(EMPTY, Chunks(lines, parse))
    {
      var line := lines[i];
      var kind := Classify(line);
      NextLine(assembly.State(), lines, i, parse);
      i := i + 1;
      if kind == Blank || kind == Comment {
        continue;
      }
      if kind == Done {
        break;
      }
      var chunk := Payload(line, parse);
      if chunk.None? {
        continue;
      }
      assembly.ApplyChunk(chunk.value);
      if assembly.choiceError.Some? {
        return Err(ProviderError);
      }
    }
    r := Ok(assembly.State());
  }

  /** How the next line decides what becomes of an assembly. */
  lemma NextLine(a: Assembly, lines: seq<string>, i: nat, parse: Parser)
    requires i < |lines|
    ensures Assembled(a, Chunks(lines[i..], parse)) ==
            if Classify(lines[i]) == Done then Ok(a)
            else if Payload(lines[i], parse).None? then Assembled(a, Chunks(lines[i + 1..], parse))
            else
              var next := Applied(a, Payload(lines[i], parse).value);
              if next.choiceError.Some? then Err(ProviderError)
              else Assembled(next, Chunks(lines[i + 1..], parse))
  {
    var rest := Chunks(lines[i + 1..], parse);
    assert lines[i..][0] == lines[i] && lines[i..][1..] == lines[i + 1..];
    var first := Payload(lines[i], parse);
    if !IsDone(lines[i]) {
      assert Delivered(parse)(lines[i]) == if first.Some? then [first.value] else [];
      if first.Some? { assert ([first.value] + rest)[1..] == rest; } else { assert [] + rest == rest; }
    }
  }

  // ---------------------------------------------------------------- what a stream means

  function Contents(chunks: seq<Fields>): string {
    if chunks == [] then "" else PieceOf(chunks[0]) + Contents(chunks[1..])
  }

  /** The value carried by the last chunk that carries one. */
  function Last<T>(carried: Fields -> Option<T>, chunks: seq<Fields>): Option<T> {
    if chunks == [] then None
    else Or(Last(carried, chunks[1..]), carried(chunks[0]))
  }

  /** The last value is the one of the last chunk that carries any. */
  lemma {:induction false} LastExactly<T>(carried: Fields -> Option<T>, chunks: seq<Fields>)
    ensures Last(carried, chunks).None? <==> forall i :: 0 <= i < |chunks| ==> carried(chunks[i]).None?
    ensures Last(carried, chunks).Some? ==>
              exists i :: 0 <= i < |chunks| && carried(chunks[i]) == Last(carried, chunks)
                          && forall j :: i < j < |chunks| ==> carried(chunks[j]).None?
  {
    if chunks != [] {
      var rest := chunks[1..];
      LastExactly(carried, rest);
      if Last(carried, rest).Some? {
        var i :| 0 <= i < |rest| && carried(rest[i]) == Last(carried, rest)
                 && forall j :: i < j < |rest| ==> carried(rest[j]).None?;
        assert chunks[i + 1] == rest[i];
        assert forall j :: i + 1 < j < |chunks| ==> chunks[j] == rest[j - 1];
      } else {
        assert forall j :: 0 < j < |chunks| ==> chunks[j] == rest[j - 1];
      }
    }
  }

  /** The content grows at its end. */
  lemma {:induction false} ContentsAppend(a: seq<Fields>, b: seq<Fields>)
    ensures Contents(a + b) == Contents(a) + Contents(b)
    ensures |a| == 1 ==> Contents(a) == PieceOf(a[0])
  {
    if a == [] {
      assert a + b == b;
    } else {
      assert (a + b)[1..] == a[1..] + b;
      ContentsAppend(a[1..], b);
    }
  }

  predicate HasError(chunks: seq<Fields>) {
    exists i :: 0 <= i < |chunks| && ErrorOf(chunks[i]).Some?
  }

  lemma {:induction false} AssembledFrom(a: Assembly, chunks: seq<Fields>)
    requires a.choiceError.None?
    ensures Assembled(a, chunks) ==
            if HasError(chunks) then Err(ProviderError)
            else Ok(Assembly(a.content + Contents(chunks),
                             Or(Last(ModelOf, chunks), a.model), Or(Last(ProviderOf, chunks), a.provider),
                             Or(Last(UsageOf, chunks), a.usage), Or(Last(FinishOf, chunks), a.finishReason), None))
    decreases |chunks|
  {
    if chunks == [] {
      assert a.content + "" == a.content;
    } else {
      var next := Applied(a, chunks[0]);
      if ErrorOf(chunks[0]).None? {
        AssembledFrom(next, chunks[1..]);
        ErrorAfterHead(chunks);
        var piece, rest := PieceOf(chunks[0]), Contents(chunks[1..]);
        assert a.content + piece + rest == a.content + (piece + rest);
      } else {
        assert HasError(chunks);
      }
    }
  }

  lemma ErrorAfterHead(chunks: seq<Fields>)
    requires chunks != [] && ErrorOf(chunks[0]).None?
    ensures HasError(chunks) <==> HasError(chunks[1..])
  {
    if HasError(chunks) {
      var i :| 0 <= i < |chunks| && ErrorOf(chunks[i]).Some?;
      assert chunks[1..][i - 1] == chunks[i];
    }
    if HasError(chunks[1..]) {
      var i :| 0 <= i < |chunks[1..]| && ErrorOf(chunks[1..][i]).Some?;
      assert chunks[i + 1] == chunks[1..][i];
    }
  }

  /**
   A stream is rejected exactly when a chunk before the end marker reports an error; otherwise the
   content is the delta contents in order, each other field is the last one reported, and no error
   is carried.
   */
  lemma StreamMeaning(lines: seq<string>, parse: Parser)
    ensures var chunks := Chunks(lines, parse);
            Assembled(EMPTY, chunks) ==
            if HasError(chunks) then Err(ProviderError)
            else Ok(Assembly(Contents(chunks), Last(ModelOf, chunks), Last(ProviderOf, chunks),
                             Last(UsageOf, chunks), Last(FinishOf, chunks), None))
  {
    AssembledFrom(EMPTY, Chunks(lines, parse));
    assert "" + Contents(Chunks(lines, parse)) == Contents(Chunks(lines, parse));
  }

  /** Lines that carry no chunk: blank lines, comments, other fields, and data that is no JSON object. */
  predicate Silent(line: string, parse: Parser) {
    Classify(line) != Done && Payload(line, parse).None?
  }

  lemma {:induction false} UntilAppend<L, C>(stop: L -> bool, give: L -> seq<C>, a: seq<L>, b: seq<L>)
    requires forall i :: 0 <= i < |a| ==> !stop(a[i])
    ensures Until(stop, give, a + b) == Until(stop, give, a) + Until(stop, give, b)
  {
    if a == [] {
      assert a + b == b;
    } else {
      assert (a + b)[1..] == a[1..] + b;
      UntilAppend(stop, give, a[1..], b);
    }
  }

  lemma {:induction false} UntilSilent<L, C>(stop: L -> bool, give: L -> seq<C>, before: seq<L>, noise: seq<L>,
                                             after: seq<L>)
    requires forall i :: 0 <= i < |noise| ==> !stop(noise[i]) && give(noise[i]) == []
    ensures Until(stop, give, before + noise + after) == Until(stop, give, before + after)
    decreases |before| + |noise|
  {
    if before != [] {
      var tail := before[1..];
      assert (before + noise + after)[1..] == tail + noise + after && (before + after)[1..] == tail + after;
      UntilSilent(stop, give, tail, noise, after);
    } else if noise != [] {
      var rest := noise[1..];
      assert before + noise + after == noise + after && before + after == after;
      assert (noise + after)[1..] == before + rest + after;
      UntilSilent(stop, give, before, rest, after);
    } else {
      assert before + noise + after == before + after;
    }
  }

  lemma {:induction false} UntilStopped<L, C>(stop: L -> bool, give: L -> seq<C>, before: seq<L>, last: L,
                                              after: seq<L>)
    requires stop(last)
    ensures Until(stop, give, before + [last] + after) == Until(stop, give, before)
  {
    var all := before + [last] + after;
    if before == [] {
      assert all[0] == last;
    } else if !stop(before[0]) {
      assert all[0] == before[0] && all[1..] == before[1..] + [last] + after;
      UntilStopped(stop, give, before[1..], last, after);
    }
  }

  /** Silent lines may be inserted or removed anywhere. */
  lemma SilentLinesIgnored(before: seq<string>, noise: seq<string>, after: seq<string>, parse: Parser)
    requires forall i :: 0 <= i < |noise| ==> Silent(noise[i], parse)
    ensures Chunks(before + noise + after, parse) == Chunks(before + after, parse)
  {
    forall i | 0 <= i < |noise| ensures !IsDone(noise[i]) && Delivered(parse)(noise[i]) == [] {
      assert Silent(noise[i], parse);
    }
    UntilSilent(IsDone, Delivered(parse), before, noise, after);
  }

  /** Nothing after the first end marker matters. */
  lemma NothingAfterDone(before: seq<string>, done: string, after: seq<string>, parse: Parser)
    requires Classify(done) == Done
    ensures Chunks(before + [done] + after, parse) == Chunks(before, parse)
  {
    UntilStopped(IsDone, Delivered(parse), before, done, after);
  }

  /** Before the end marker the chunks of two streams follow one another. */
  lemma ChunksAppend(before: seq<string>, after: seq<string>, parse: Parser)
    requires forall i :: 0 <= i < |before| ==> Classify(before[i]) != Done
    ensures Chunks(before + after, parse) == Chunks(before, parse) + Chunks(after, parse)
  {
    UntilAppend(IsDone, Delivered(parse), before, after);
  }

  /** A line alone delivers the object it carries, if any. */
  lemma ChunksOfLine(line: string, parse: Parser)
    ensures var fields := Payload(line, parse);
            Chunks([line], parse) == if fields.Some? then [fields.value] else []
  {
    var give := Delivered(parse);
    assert Until(IsDone, give, [line][1..]) == [];
    if !IsDone(line) { assert Chunks([line], parse) == give(line) + []; }
  }

  /** A comment line, such as the keepalive of the provider, may stand anywhere. */
  lemma KeepaliveIgnored(before: seq<string>, left: string, text: string, after: seq<string>, parse: Parser)
    requires Spaces(left)
    ensures Chunks(before + [left + ":" + text] + after, parse) == Chunks(before + after, parse)
  {
    var line := left + ":" + text;
    assert ":" == [':'];
    StripStarts(left, ':', text);
    assert Strip(line)[..1] == ":";
    assert !StartsWith(Strip(line), "data:") by { assert Strip(line)[0] == ':'; }
    assert Silent(line, parse);
    SilentLinesIgnored(before, [line], after, parse);
  }
}
