/**
 Whole runs of a chunked parse: from a planned document, through any schedule of its chunk tasks and
 the conversation about its summary, to the document that is returned or the error that is raised.
 */
module ChunkedRun {
  import opened Wrappers
  import opened Text
  import opened Json
  import opened SchemaValidity
  import opened SchemaNormalize
  import opened ValueNormalize
  import opened Client
  import opened Service
  import opened TableScan
  import opened ChunkScheduler
  import opened ChunkPlanning
  import opened ChunkMerge
  import opened ChunkPipeline
  import opened ChunkedParse

  // ---------------------------------------------------------------- reading completions

  /** Repair and parsing of the text that a model returned. */
  type TextParser = string -> Option<Json>

  /** `_repair_and_validate`. */
  function ReadObject(x: Validator, parse: TextParser, schema: Json, content: string): Option<Json> {
    var data := parse(content);
    if data.Some? && x.formed(schema) && Valid(x.extra, schema, data.value) && data.value.Obj? then data else None
  }

  /** The rows of a chunk, read from its validated result. */
  function ReadRows(x: Validator, parse: TextParser, location: RowArrayLocation, content: string): Option<Rows> {
    var data := ReadObject(x, parse, ChunkSchema(location), content);
    if data.None? then None
    else
      ChunkResultRows(x.extra, location, data.value);
      Some(data.value.fields[location.propertyName].items)
  }

  /** Rows that were read come from a result that fits the chunk schema. */
  lemma ReadRowsFit(x: Validator, parse: TextParser, location: RowArrayLocation, content: string, index: int)
    requires ReadRows(x, parse, location, content).Some?
    ensures FromValidResult(x.extra, location,
                            ChunkOutcome(index, ReadRows(x, parse, location, content), None))
  {
    var data := ReadObject(x, parse, ChunkSchema(location), content).value;
    ChunkResultRows(x.extra, location, data);
    assert data.fields == map[location.propertyName := data.fields[location.propertyName]];
  }

  /** Rows are read exactly from the text of an object that has valid rows under their name and nothing else. */
  lemma ReadRowsExactly(x: Validator, parse: TextParser, location: RowArrayLocation, content: string, rows: Rows)
    ensures ReadRows(x, parse, location, content) == Some(rows) <==>
            && parse(content) == Some(Obj(map[location.propertyName := Arr(rows)]))
            && x.formed(ChunkSchema(location)) && AllValid(x.extra, location.itemSchema, rows)
  {
    var name := location.propertyName;
    var data := parse(content);
    if data.Some? {
      ChunkSchemaExactly(x.extra, location, data.value);
      if data.value.Obj? && data.value.fields.Keys == {name} && data.value.fields[name].Arr? {
        assert data.value.fields == map[name := data.value.fields[name]];
      }
    }
  }

  /** A summary is read exactly from the text of an object with all the other properties, each valid. */
  lemma ReadSummaryExactly(x: Validator, parse: TextParser, schema: Json, plan: ChunkPlan, content: string, v: Json)
    requires PlanFor(schema, plan) && plan.summarySchema.Some?
    ensures SummaryAcceptor(x, parse, plan)(content) == Some(v) <==>
            && parse(content) == Some(v) && x.formed(plan.summarySchema.value)
            && v.Obj? && v.fields.Keys == Properties(schema).Keys - {plan.location.propertyName}
            && forall k | k in v.fields ::
                 k in Properties(schema) && Valid(x.extra, Properties(schema)[k], v.fields[k])
  {
    SummarySchemaExactly(x.extra, schema, plan.location.propertyName, v);
  }

  function RowsAcceptor(x: Validator, parse: TextParser, location: RowArrayLocation): Acceptor<Rows> {
    content => ReadRows(x, parse, location, content)
  }

  function SummaryAcceptor(x: Validator, parse: TextParser, plan: ChunkPlan): Acceptor<Json> {
    content => if plan.summarySchema.None? then None
               else ReadObject(x, parse, plan.summarySchema.value, content)
  }

  /** There is a conversation about the summary exactly when the plan has a schema for it. */
  ghost predicate SummaryAsked(x: Validator, parse: TextParser, plan: ChunkPlan, summary: SummaryTalk) {
    && (summary.Some? <==> plan.summarySchema.Some?)
    && SummaryKept(SummaryAcceptor(x, parse, plan), summary)
  }

  /** The conversation about the summary, from the world w on. */
  function TalkWith(x: Validator, parse: TextParser, plan: ChunkPlan, complete: Completer, w: World): SummaryTalk {
    if plan.summarySchema.None? then None
    else Some(CompleteAndValidate(complete, w, SummaryAcceptor(x, parse, plan)))
  }

  function WorldAfter(w: World, summary: SummaryTalk): World {
    if summary.None? then w else summary.value.w
  }

  /** A client that records usage holds such a conversation. */
  lemma TalkIsAsked(x: Validator, parse: TextParser, plan: ChunkPlan, complete: Completer, w: World)
    requires RecordsUsage(complete)
    ensures var talk := TalkWith(x, parse, plan, complete, w);
            && SummaryAsked(x, parse, plan, talk)
            && WorldAfter(w, talk).records == w.records + SummaryRecords(talk)
  {
    ValidationUsage(complete, w, SummaryAcceptor(x, parse, plan));
  }

  // ---------------------------------------------------------------- the procedure

  predicate SummaryMissing(summary: SummaryTalk) {
    summary.Some? && summary.value.result.Err?
  }

  function SummaryData(summary: SummaryTalk): Option<Json> {
    if summary.Some? && summary.value.result.Ok? then Some(summary.value.result.value.data) else None
  }

  function OutcomesOf(chunks: seq<DocumentChunk>, gathered: seq<Outcome<Rows>>): seq<ChunkOutcome>
    requires |gathered| == |chunks|
  {
    seq(|chunks|, i requires 0 <= i < |chunks| => OutcomeOf(chunks[i], gathered[i]))
  }

  /** What `_run_chunked_parse` comes to, given what the tasks and the summary came to. */
  function ChunkedResult(x: Validator, digits: Digits, request: ParseRequest, plan: ChunkPlan,
                         gathered: seq<Outcome<Rows>>, summary: SummaryTalk): ParseResult
    requires |gathered| == |plan.chunks|
  {
    if SummaryMissing(summary) then Err(SummaryFailed(summary.value.result.error))
    else FinishedParse(x, digits, request, plan, OutcomesOf(plan.chunks, gathered),
                       Successes(gathered) + SummarySuccess(summary), SummaryData(summary))
  }

  /** `_run_chunked_parse` after the tasks have been gathered. */
  method RunChunkedParse(x: Validator, digits: Digits, request: ParseRequest, plan: ChunkPlan,
                         gathered: seq<Outcome<Rows>>, summary: SummaryTalk) returns (r: ParseResult)
    requires |gathered| == |plan.chunks|
    ensures r == ChunkedResult(x, digits, request, plan, gathered, summary)
  {
    var outcomes, results := CollectOutcomes(plan.chunks, gathered);
    assert outcomes == OutcomesOf(plan.chunks, gathered);
    var data := None;
    if summary.Some? {
      if summary.value.result.Err? {
        return Err(SummaryFailed(summary.value.result.error));
      }
      data := Some(summary.value.result.value.data);
      results := results + [summary.value.result.value.completion];
    }
    assert results == Successes(gathered) + SummarySuccess(summary);
    r := FinishParse(x, digits, request, plan, outcomes, results, data);
  }

  // ---------------------------------------------------------------- which result

  /** What the theorems use of a plan for a schema. */
  ghost predicate PlanFor(schema: Json, plan: ChunkPlan) {
    && Located(schema) == Some(plan.location)
    && plan.chunkSchema == ChunkSchema(plan.location)
    && plan.summarySchema == SummarySchema(schema, plan.location.propertyName)
    && forall i :: 0 <= i < |plan.chunks| ==> plan.chunks[i].index == i
  }

  lemma PlannedIsPlanFor(lines: seq<string>, schema: Json, config: ChunkingConfig, plan: ChunkPlan)
    requires config.rowsPerChunk > 0 && Planned(lines, schema, config) == Some(plan)
    ensures PlanFor(schema, plan)
  {
    ChunksPartition(Dominant(PIPE_TABLES, lines).value, config.rowsPerChunk);
  }

  /** The successful results hold the rows that were read from their completions. */
  predicate RowsWereRead(accept: Acceptor<Rows>, gathered: seq<Outcome<Rows>>) {
    forall i :: 0 <= i < |gathered| && gathered[i].Ok? ==>
      accept(gathered[i].value.completion.content) == Some(gathered[i].value.data)
  }

  predicate AllSucceed<T>(gathered: seq<Outcome<T>>) {
    forall i :: 0 <= i < |gathered| ==> gathered[i].Ok?
  }

  /** The top level of the schema admits objects and requires declared names only. */
  predicate TopLevelFits(schema: Json) {
    schema.Obj? && AdmitsObjects(schema.fields) && RequiresDeclared(schema.fields)
  }

  /** The chunks that failed are listed, and no others. */
  ghost predicate ListsFailed(failed: seq<int>, gathered: seq<Outcome<Rows>>) {
    forall x :: x in failed <==> 0 <= x < |gathered| && gathered[x].Err?
  }

  lemma FailedAreListed(plan: ChunkPlan, gathered: seq<Outcome<Rows>>)
    requires |gathered| == |plan.chunks|
    requires forall i :: 0 <= i < |plan.chunks| ==> plan.chunks[i].index == i
    ensures var failed := FailedIndices(Sorted(OutcomesOf(plan.chunks, gathered)));
            ListsFailed(failed, gathered) && (failed == [] <==> AllSucceed(gathered))
  {
    var outcomes := OutcomesOf(plan.chunks, gathered);
    var failed := FailedIndices(Sorted(outcomes));
    FailedExactly(outcomes);
    assert forall i :: 0 <= i < |outcomes| ==>
             outcomes[i].index == i && (outcomes[i].rows.None? <==> gathered[i].Err?);
    assert ListsFailed(failed, gathered);
    if failed != [] { assert failed[0] in failed && gathered[failed[0]].Err?; }
    if i :| 0 <= i < |gathered| && gathered[i].Err? { assert i in failed; }
  }

  /** The rows of the chunks that failed, in order. */
  function RangesAt(chunks: seq<DocumentChunk>, failed: seq<int>): seq<(nat, nat)>
    requires forall j :: 0 <= j < |failed| ==> 0 <= failed[j] < |chunks|
  {
    seq(|failed|, j requires 0 <= j < |failed| => (chunks[failed[j]].startRow, chunks[failed[j]].endRow))
  }

  /** Each chunk that failed once, in ascending order. */
  ghost predicate FailedInOrder(failed: seq<int>, gathered: seq<Outcome<Rows>>) {
    && ListsFailed(failed, gathered)
    && (forall j :: 0 <= j < |failed| ==> 0 <= failed[j] < |gathered|)
    && (forall i, j :: 0 <= i < j < |failed| ==> failed[i] < failed[j])
  }

  /** The error about failed chunks names each of them once, in order, with the range of its rows. */
  lemma FailureReport(x: Validator, digits: Digits, request: ParseRequest, plan: ChunkPlan,
                      gathered: seq<Outcome<Rows>>, summary: SummaryTalk)
    requires |gathered| == |plan.chunks|
    requires forall i :: 0 <= i < |plan.chunks| ==> plan.chunks[i].index == i
    ensures var r := ChunkedResult(x, digits, request, plan, gathered, summary);
            r.Err? && r.error.RowRangesFailed? ==>
              FailedInOrder(r.error.failed, gathered) && r.error.ranges == RangesAt(plan.chunks, r.error.failed)
  {
    FailuresInOrder(plan, gathered);
    FailureIs(x, digits, request, plan, gathered, summary);
  }

  lemma FailureIs(x: Validator, digits: Digits, request: ParseRequest, plan: ChunkPlan,
                  gathered: seq<Outcome<Rows>>, summary: SummaryTalk)
    requires |gathered| == |plan.chunks|
    ensures var r := ChunkedResult(x, digits, request, plan, gathered, summary);
            var failed := FailedIndices(Sorted(OutcomesOf(plan.chunks, gathered)));
            r.Err? && r.error.RowRangesFailed? ==> r.error == RowRangesFailed(failed, FailedRanges(plan.chunks, failed))
  {
  }

  lemma FailuresInOrder(plan: ChunkPlan, gathered: seq<Outcome<Rows>>)
    requires |gathered| == |plan.chunks|
    requires forall i :: 0 <= i < |plan.chunks| ==> plan.chunks[i].index == i
    ensures var failed := FailedIndices(Sorted(OutcomesOf(plan.chunks, gathered)));
            FailedInOrder(failed, gathered) && FailedRanges(plan.chunks, failed) == RangesAt(plan.chunks, failed)
  {
    var outcomes := OutcomesOf(plan.chunks, gathered);
    FailedAreListed(plan, gathered);
    SortedFixed(outcomes);
    var failed := FailedIndices(outcomes);
    FailedSuffix(plan.chunks, gathered, 0);
    assert outcomes[0..] == outcomes && plan.chunks[0..] == plan.chunks;
    RangesFound(plan.chunks, failed, 0, failed);
  }

  /** The failed chunks from position i on, in order. */
  predicate AscendingFrom(failed: seq<int>, i: int, n: int) {
    && (forall j :: 0 <= j < |failed| ==> i <= failed[j] < n)
    && (forall j, k :: 0 <= j < k < |failed| ==> failed[j] < failed[k])
  }

  lemma {:induction false} FailedSuffix(chunks: seq<DocumentChunk>, gathered: seq<Outcome<Rows>>, i: nat)
    requires |gathered| == |chunks| && i <= |chunks|
    requires forall j :: 0 <= j < |chunks| ==> chunks[j].index == j
    ensures AscendingFrom(FailedIndices(OutcomesOf(chunks, gathered)[i..]), i, |chunks|)
    decreases |chunks| - i
  {
    var outcomes := OutcomesOf(chunks, gathered);
    if i < |chunks| {
      FailedSuffix(chunks, gathered, i + 1);
      assert outcomes[i..][0] == outcomes[i] && outcomes[i..][1..] == outcomes[i + 1..];
    }
  }

  /** Looking for the failed chunks one after the other finds their ranges in the order of an ascending list. */
  lemma {:induction false} RangesFound(chunks: seq<DocumentChunk>, failed: seq<int>, i: nat, left: seq<int>)
    requires i <= |chunks| && AscendingFrom(failed, 0, |chunks|) && AscendingFrom(left, i, |chunks|)
    requires forall x :: i <= x ==> (x in failed <==> x in left)
    requires forall j :: 0 <= j < |chunks| ==> chunks[j].index == j
    ensures FailedRanges(chunks[i..], failed) == RangesAt(chunks, left)
    decreases |chunks| - i
  {
    if i < |chunks| {
      assert chunks[i..][0] == chunks[i] && chunks[i..][1..] == chunks[i + 1..];
      if i in failed {
        assert i in left;
        assert left[0] == i;
        assert forall x :: i + 1 <= x ==> (x in left <==> x in left[1..]);
        RangesFound(chunks, failed, i + 1, left[1..]);
        assert RangesAt(chunks, left) == [(chunks[i].startRow, chunks[i].endRow)] + RangesAt(chunks, left[1..]);
      } else {
        assert i !in left;
        RangesFound(chunks, failed, i + 1, left);
      }
    } else {
      assert left == [];
    }
  }

  lemma SummaryFitsWhenRead(x: Validator, parse: TextParser, schema: Json, plan: ChunkPlan, summary: SummaryTalk)
    requires PlanFor(schema, plan) && SummaryAsked(x, parse, plan, summary) && !SummaryMissing(summary)
    ensures SummaryFits(x.extra, schema, plan.location.propertyName, SummaryData(summary))
  {
    if summary.Some? { assert OnlyLastUsable(SummaryAcceptor(x, parse, plan), summary.value); }
  }

  lemma OutcomesFit(x: Validator, parse: TextParser, plan: ChunkPlan, gathered: seq<Outcome<Rows>>)
    requires |gathered| == |plan.chunks|
    requires RowsWereRead(RowsAcceptor(x, parse, plan.location), gathered)
    ensures forall i :: 0 <= i < |gathered| ==>
              FromValidResult(x.extra, plan.location, OutcomesOf(plan.chunks, gathered)[i])
  {
    forall i | 0 <= i < |gathered| && gathered[i].Ok?
      ensures FromValidResult(x.extra, plan.location, OutcomesOf(plan.chunks, gathered)[i])
    {
      ReadRowsFit(x, parse, plan.location, gathered[i].value.completion.content, plan.chunks[i].index);
    }
  }

  /**
   Which result a chunked parse of a schema that can be split has, in the order of the checks: a missing
   summary, failed chunks where partial results are not allowed, a malformed schema, a top level that
   cannot hold the assembled object, or else a document.
   */
  lemma ParseDecided(x: Validator, parse: TextParser, digits: Digits, request: ParseRequest, plan: ChunkPlan,
                     gathered: seq<Outcome<Rows>>, summary: SummaryTalk)
    requires PlanFor(request.schema, plan) && |gathered| == |plan.chunks|
    requires SplitSchema(x.extra, request.schema)
    requires PlainRows(x.extra, Properties(request.schema)[plan.location.propertyName])
    requires RowsWereRead(RowsAcceptor(x, parse, plan.location), gathered)
    requires SummaryAsked(x, parse, plan, summary)
    ensures Decided(x, request, gathered, summary, ChunkedResult(x, digits, request, plan, gathered, summary))
  {
    FailedAreListed(plan, gathered);
    if !SummaryMissing(summary) {
      SummaryFitsWhenRead(x, parse, request.schema, plan, summary);
      OutcomesFit(x, parse, plan, gathered);
      if request.allowPartial || AllSucceed(gathered) {
        SplitParseRejects(x, digits, request, plan, OutcomesOf(plan.chunks, gathered),
                          Successes(gathered) + SummarySuccess(summary), SummaryData(summary));
      }
    }
  }

  ghost predicate Decided(x: Validator, request: ParseRequest, gathered: seq<Outcome<Rows>>,
                          summary: SummaryTalk, r: ParseResult)
  {
    if SummaryMissing(summary) then r == Err(SummaryFailed(summary.value.result.error))
    else if !request.allowPartial && !AllSucceed(gathered) then
      r.Err? && r.error.RowRangesFailed? && ListsFailed(r.error.failed, gathered)
    else if !x.formed(request.schema) then r == Err(SchemaMalformed)
    else if !TopLevelFits(request.schema) then r == Err(OutputRejected)
    else r.Ok? && ListsFailed(r.value.failedChunks, gathered)
  }

  /** The assembled rows and summary, with their values rewritten. */
  function DocumentData(digits: Digits, request: ParseRequest, plan: ChunkPlan, gathered: seq<Outcome<Rows>>,
                        summary: SummaryTalk): Json
    requires |gathered| == |plan.chunks|
  {
    NormalValue(Assembled(plan, OutcomesOf(plan.chunks, gathered), SummaryData(summary)), request.schema, digits)
  }

  /** A document holds that data and reports the aggregated usage of the chunks that succeeded and the summary. */
  lemma ReportedDocument(x: Validator, digits: Digits, request: ParseRequest, plan: ChunkPlan,
                      gathered: seq<Outcome<Rows>>, summary: SummaryTalk)
    requires |gathered| == |plan.chunks|
    ensures var r := ChunkedResult(x, digits, request, plan, gathered, summary);
            r.Ok? ==>
              && r.value.data == DocumentData(digits, request, plan, gathered, summary)
              && r.value.usage == AggregateUsage(Successes(gathered) + SummarySuccess(summary), request.model)
  {
    var r := ChunkedResult(x, digits, request, plan, gathered, summary);
    if r.Ok? {
      DocumentExactly(x, digits, request, plan, OutcomesOf(plan.chunks, gathered),
                      Successes(gathered) + SummarySuccess(summary), SummaryData(summary), r.value);
    }
  }

  /** A parse with one successful chunk gives a document exactly if the required name is declared. */
  lemma OneChunkDecided(x: Validator, digits: Digits, name: string, chunk: DocumentChunk, c: Completion)
    requires chunk.index == 0 && x.formed(ChunkSchema(RowArrayLocation("rows", ROW)))
    ensures var location, row := RowArrayLocation("rows", ROW), Obj(map[]);
            var parse: TextParser := _ => Some(Obj(map["rows" := Arr([row])]));
            var plan := ChunkPlan(location, ChunkSchema(location), None, "", [chunk], 1);
            var request := ParseRequest(RowsAnd(name), [], false, c.model);
            var gathered: seq<Outcome<Rows>> := [Ok(Accepted([row], c))];
            && PlanFor(request.schema, plan)
            && RowsWereRead(RowsAcceptor(x, parse, location), gathered)
            && SummaryAsked(x, parse, plan, None)
            && var r := ChunkedResult(x, digits, request, plan, gathered, None);
               if !x.formed(request.schema) then r == Err(SchemaMalformed)
               else if name == "rows" then r.Ok?
               else r == Err(OutputRejected)
  {
    var location, row := RowArrayLocation("rows", ROW), Obj(map[]);
    var parse: TextParser := _ => Some(Obj(map["rows" := Arr([row])]));
    var plan := ChunkPlan(location, ChunkSchema(location), None, "", [chunk], 1);
    var request := ParseRequest(RowsAnd(name), [], false, c.model);
    var gathered: seq<Outcome<Rows>> := [Ok(Accepted([row], c))];
    RowsAndIsSplit(x.extra, name);
    RowIsValid(x.extra);
    ParseDecided(x, parse, digits, request, plan, gathered, None);
  }

  // ---------------------------------------------------------------- whole runs

  /** What each chunk task comes to when it runs alone. */
  function AloneResults(script: Script, accept: Acceptor<Rows>, n: nat): seq<Outcome<Rows>> {
    seq(n, i requires 0 <= i < n => Final(script, accept, i, Waiting))
  }

  lemma AloneWereRead(script: Script, accept: Acceptor<Rows>, n: nat)
    ensures RowsWereRead(accept, AloneResults(script, accept, n))
  {
    forall i | 0 <= i < n && Final(script, accept, i, Waiting).Ok?
      ensures accept(Final(script, accept, i, Waiting).value.completion.content)
              == Some(Final(script, accept, i, Waiting).value.data)
    {
      FinalAccepted(script, accept, i, Waiting);
    }
  }

  /** A schedule of the chunk tasks that cannot be extended. */
  ghost predicate RunsOut<T>(script: Script, accept: Acceptor<T>, capacity: nat, n: nat, moves: seq<Move>) {
    && capacity > 0
    && Schedules(script, accept, Initial<T>(n, capacity), moves)
    && Exhausted(After(script, accept, Initial<T>(n, capacity), moves))
  }

  /** Every task has finished with its result. */
  predicate Gathered<T(==)>(q: Pool<T>, results: seq<Outcome<T>>) {
    (forall i :: 0 <= i < |q.tasks| ==> q.tasks[i].Finished?) && ResultsOf(q.tasks) == results
  }

  /** Every schedule that cannot be extended gathers the same results. */
  lemma RunGathers(script: Script, accept: Acceptor<Rows>, capacity: nat, n: nat, moves: seq<Move>)
    requires RunsOut(script, accept, capacity, n, moves)
    ensures Gathered(After(script, accept, Initial<Rows>(n, capacity), moves), AloneResults(script, accept, n))
  {
    ScheduleIndependence(script, accept, capacity, n, moves);
  }

  /** After every schedule that cannot be extended, the reported usage accounts for the whole tracker. */
  lemma RunAccounts(script: Script, accept: Acceptor<Rows>, capacity: nat, n: nat, moves: seq<Move>,
                    acceptSummary: Acceptor<Json>, summary: SummaryTalk, model: string)
    requires RunsOut(script, accept, capacity, n, moves) && SummaryKept(acceptSummary, summary)
    ensures var q := After(script, accept, Initial<Rows>(n, capacity), moves);
            AccountsFor(AggregateUsage(Successes(AloneResults(script, accept, n)) + SummarySuccess(summary), model),
                        q.tracker + SummaryRecords(summary), q.rejected + SummaryRejected(acceptSummary, summary))
  {
    var q := After(script, accept, Initial<Rows>(n, capacity), moves);
    RunGathers(script, accept, capacity, n, moves);
    ParseUsageConserved(script, accept, capacity, n, moves, acceptSummary, summary);
    AggregateReports(Successes(ResultsOf(q.tasks)) + SummarySuccess(summary), model,
                     q.tracker + SummaryRecords(summary), q.rejected + SummaryRejected(acceptSummary, summary));
  }

  /**
   Whole runs.  For every planned document, every capacity and every schedule of the chunk tasks that
   cannot be extended: the tasks come to the results they have alone, whatever the schedule; the parse is a
   document exactly when the summary is there, no chunk failed or partial results are allowed, and the
   top level of the schema admits objects and requires declared names only; and the usage it reports, with
   that of the completions that validation rejected, is all that the tracker gained.
   */
  lemma WholeRun(x: Validator, parse: TextParser, digits: Digits, markdown: string, request: ParseRequest,
                 config: ChunkingConfig, plan: ChunkPlan, script: Script, capacity: nat, moves: seq<Move>,
                 summary: SummaryTalk)
    requires config.rowsPerChunk > 0 && Planned(SplitLines(markdown), request.schema, config) == Some(plan)
    requires SplitSchema(x.extra, request.schema)
    requires PlainRows(x.extra, Properties(request.schema)[plan.location.propertyName])
    requires var accept := RowsAcceptor(x, parse, plan.location);
             RunsOut(script, accept, capacity, |plan.chunks|, moves)
    requires SummaryAsked(x, parse, plan, summary)
    ensures var accept := RowsAcceptor(x, parse, plan.location);
            var alone := AloneResults(script, accept, |plan.chunks|);
            var r := ChunkedResult(x, digits, request, plan, alone, summary);
            var q := After(script, accept, Initial<Rows>(|plan.chunks|, capacity), moves);
            && Gathered(q, alone)
            && Decided(x, request, alone, summary, r)
            && (r.Ok? ==> r.value.data == DocumentData(digits, request, plan, alone, summary))
            && (r.Ok? ==>
                  AccountsFor(r.value.usage, q.tracker + SummaryRecords(summary),
                              q.rejected + SummaryRejected(SummaryAcceptor(x, parse, plan), summary)))
  {
    var accept := RowsAcceptor(x, parse, plan.location);
    var alone := AloneResults(script, accept, |plan.chunks|);
    PlannedIsPlanFor(SplitLines(markdown), request.schema, config, plan);
    AloneWereRead(script, accept, |plan.chunks|);
    ParseDecided(x, parse, digits, request, plan, alone, summary);
    ReportedDocument(x, digits, request, plan, alone, summary);
    RunGathers(script, accept, capacity, |plan.chunks|, moves);
    RunAccounts(script, accept, capacity, |plan.chunks|, moves,
                SummaryAcceptor(x, parse, plan), summary, request.model);
  }

  /**
   The same for the completion client.  The summary is asked for in a world whose tracker holds what the
   tasks left in it; what the tracker holds in the end is the reported usage and that of the rejected
   completions.
   */
  lemma WholeRunOfClient(x: Validator, parse: TextParser, digits: Digits, markdown: string, request: ParseRequest,
                         config: ChunkingConfig, plan: ChunkPlan, script: Script, capacity: nat, moves: seq<Move>,
                         env: Environment, cfg: Settings, w: World)
    requires ValidEnvironment(env) && ValidSettings(cfg)
    requires config.rowsPerChunk > 0 && Planned(SplitLines(markdown), request.schema, config) == Some(plan)
    requires SplitSchema(x.extra, request.schema)
    requires PlainRows(x.extra, Properties(request.schema)[plan.location.propertyName])
    requires var accept := RowsAcceptor(x, parse, plan.location);
             && RunsOut(script, accept, capacity, |plan.chunks|, moves)
             && w.records == After(script, accept, Initial<Rows>(|plan.chunks|, capacity), moves).tracker
    ensures var accept := RowsAcceptor(x, parse, plan.location);
            var alone := AloneResults(script, accept, |plan.chunks|);
            var talk := TalkWith(x, parse, plan, ClientCompleter(env, cfg), w);
            var r := ChunkedResult(x, digits, request, plan, alone, talk);
            var q := After(script, accept, Initial<Rows>(|plan.chunks|, capacity), moves);
            && Decided(x, request, alone, talk, r)
            && (r.Ok? ==>
                  AccountsFor(r.value.usage, WorldAfter(w, talk).records,
                              q.rejected + SummaryRejected(SummaryAcceptor(x, parse, plan), talk)))
  {
    var talk := TalkWith(x, parse, plan, ClientCompleter(env, cfg), w);
    ClientKeepsPromises(env, cfg);
    TalkIsAsked(x, parse, plan, ClientCompleter(env, cfg), w);
    WholeRun(x, parse, digits, markdown, request, config, plan, script, capacity, moves, talk);
  }

  /**
   When every chunk is read row by row, the document that a whole run assembles holds the extracted rows
   of the table in order, less exactly one row for each chunk start that equals the row before it.
   */
  lemma WholeRunRows(markdown: string, schema: Json, config: ChunkingConfig, plan: ChunkPlan,
                     f: string -> Json, gathered: seq<Outcome<Rows>>, summary: Option<Json>)
    requires config.rowsPerChunk > 0 && Planned(SplitLines(markdown), schema, config) == Some(plan)
    requires |gathered| == |plan.chunks|
    requires forall i :: 0 <= i < |gathered| ==>
               && gathered[i].Ok?
               && gathered[i].value.data == MapRows(f, RowsOf(PIPE_TABLES, plan.chunks[i].markdown))
    ensures Rescan(PIPE_TABLES, markdown).Some?
    ensures var rows := MapRows(f, Rescan(PIPE_TABLES, markdown).value.dataLines);
            var assembled := Assembled(plan, OutcomesOf(plan.chunks, gathered), summary);
            && plan.location.propertyName in assembled.fields
            && assembled.fields[plan.location.propertyName] == Arr(WithoutRepeats(rows, config.rowsPerChunk, 0))
  {
    ExtractionEndToEnd(markdown, f, config.rowsPerChunk);
    OutcomesExtracted(plan.chunks, f, gathered);
  }

  /** Each property of the document is the assembled one, rewritten as its part of the schema hints. */
  lemma DocumentMembers(digits: Digits, request: ParseRequest, plan: ChunkPlan, gathered: seq<Outcome<Rows>>,
                        summary: SummaryTalk)
    requires |gathered| == |plan.chunks|
    ensures var assembled := Assembled(plan, OutcomesOf(plan.chunks, gathered), SummaryData(summary));
            var data := DocumentData(digits, request, plan, gathered, summary);
            && assembled.Obj? && data.Obj? && data.fields.Keys == assembled.fields.Keys
            && forall k | k in assembled.fields ::
                 data.fields[k] == NormalValue(assembled.fields[k], HintsAt(request.schema, k), digits)
  {
    NormalMembers(Assembled(plan, OutcomesOf(plan.chunks, gathered), SummaryData(summary)), request.schema, digits);
  }

  /** Where the summary is an object, the document holds its values under their names. */
  lemma DocumentSummary(digits: Digits, request: ParseRequest, plan: ChunkPlan, gathered: seq<Outcome<Rows>>,
                        summary: SummaryTalk, k: string)
    requires |gathered| == |plan.chunks| && SummaryData(summary).Some? && SummaryData(summary).value.Obj?
    requires k in SummaryData(summary).value.fields && k != plan.location.propertyName
    ensures var data := DocumentData(digits, request, plan, gathered, summary);
            && data.Obj? && k in data.fields
            && data.fields[k] == NormalValue(SummaryData(summary).value.fields[k], HintsAt(request.schema, k), digits)
  {
    var merged := Pairwise(Sorted(OutcomesOf(plan.chunks, gathered)), None);
    AssembledFields(plan.location, merged, SummaryData(summary).value);
    DocumentMembers(digits, request, plan, gathered, summary);
  }

  /** The document that is returned then holds those rows, each rewritten as the schema of its property hints. */
  lemma WholeRunDocument(x: Validator, digits: Digits, markdown: string, request: ParseRequest, config: ChunkingConfig,
                         plan: ChunkPlan, f: string -> Json, gathered: seq<Outcome<Rows>>, summary: SummaryTalk)
    requires config.rowsPerChunk > 0 && Planned(SplitLines(markdown), request.schema, config) == Some(plan)
    requires |gathered| == |plan.chunks|
    requires forall i :: 0 <= i < |gathered| ==>
               && gathered[i].Ok?
               && gathered[i].value.data == MapRows(f, RowsOf(PIPE_TABLES, plan.chunks[i].markdown))
    ensures Rescan(PIPE_TABLES, markdown).Some?
    ensures var r := ChunkedResult(x, digits, request, plan, gathered, summary);
            var rows := MapRows(f, Rescan(PIPE_TABLES, markdown).value.dataLines);
            var kept, name := WithoutRepeats(rows, config.rowsPerChunk, 0), plan.location.propertyName;
            r.Ok? ==>
              && r.value.data.Obj? && name in r.value.data.fields
              && r.value.data.fields[name] == NormalValue(Arr(kept), HintsAt(request.schema, name), digits)
  {
    WholeRunRows(markdown, request.schema, config, plan, f, gathered, SummaryData(summary));
    ReportedDocument(x, digits, request, plan, gathered, summary);
    DocumentMembers(digits, request, plan, gathered, summary);
  }

  lemma OutcomesExtracted(chunks: seq<DocumentChunk>, f: string -> Json, gathered: seq<Outcome<Rows>>)
    requires |gathered| == |chunks|
    requires forall i :: 0 <= i < |gathered| ==>
               && gathered[i].Ok?
               && gathered[i].value.data == MapRows(f, RowsOf(PIPE_TABLES, chunks[i].markdown))
    ensures OutcomesOf(chunks, gathered) == Extracted(PIPE_TABLES, f, chunks)
  {
  }
}
