# Document parsing: chunked tables, the completion client, and the schema layer

A document-parsing service turns a document into Markdown, asks a language model for JSON that fits the
caller's schema, and returns validated data. This project models three parts of it and proves what they
promise.

* **Chunked tables.** `TableScan` finds the dominant pipe table. `ChunkPlanning` splits its rows into
  ranges and the caller's schema into a row schema and a summary schema. `ChunkScheduler` runs the chunk
  tasks under a semaphore. `ChunkMerge` orders the outcomes, drops repeated boundary rows and lists the
  failed chunks. `ChunkPipeline`, `ChunkedParse` and `ChunkedRun` put the parts together: what comes back
  end to end, why the assembled object fits the original schema, where every usage record goes, and which
  result a whole run has under every schedule.
* **The completion client.** `Client` models the native phase, the fallback phase, retries, backoff and
  the shared deadline as an object whose environment decides how long each request takes and what it
  answers. `Service` adds the validation retry and the second try of a chunk.
* **The schema layer and streams.** `SchemaNormalize` rewrites a schema into the strict form that
  providers accept, `ValueNormalize` rewrites hinted strings, `RewrittenValidity` says what that does to
  validity, `JsonPointer` and `PostChecks` evaluate
  checks over data, and `Streaming` assembles a streamed completion.

`Json` holds the values (a schema is a JSON value like any other, as in the program), `SchemaValidity`
says what it means to be valid for a schema, `Text` holds the string operations of the host language,
`KeyOrder` the order in which keys are sorted, and `Wrappers` the optional value and the result.

## Conventions

* A loop or an object that changes state is a method or a class, proved equal to a specification
  function; the promises are lemmas about that function.
* `SchemaValidity.Valid` interprets `type`, `properties`, `required`, `additionalProperties`, `items`,
  `anyOf`, `allOf` and `oneOf`. Every other keyword is judged by a parameter `extra`, an arbitrary
  function of the keyword, its value and the instance, so results hold for every reading of those
  keywords (`enum`, `pattern`, `format` and so on). Where a result needs something of those keywords, it
  says what and at which nodes of the schema. Which schemas are well formed is a parameter as well.
* Equality of rows is Python's: it reads booleans as the numbers 0 and 1.
* The environment of the client gives, for the n-th request ever issued, its duration, its answer and
  the fraction of the nominal backoff that follows. A request lasts at most its timeout, a sleep lasts
  its argument, and nothing else takes time.
* Which characters beyond ASCII are decimal digits is a parameter, a table of digits with their values.
* The text that a model returns is turned into data by a parameter (repair, parsing and validation).

## Findings

* The strict form of a schema is sound for the schemas that `SchemaNormalize.Faithful` describes, and two
  kinds of node can break it. A node that declares properties is forced to type `object` and to require
  exactly those, whatever it says itself; at such a node the guard is exact (`ObjectGuardExact`) and both
  its halves are needed (`ObjectGuardNeeded`). Exclusive alternatives can become exclusive only through
  closing (`ExclusiveAlternativesUnsound`); where the alternatives are faithful, a value is wrongly
  accepted exactly when two of them accept it (`ExclusiveGuardExact`). Where a value does hold nulls, it is
  wrongly accepted exactly when a null stands where the caller's own node rejects it (`NullsDecide`).
* An optional property that has a type and also offers alternatives is given the type null, but its
  alternatives are not made nullable: it accepts null exactly when they do (`NullAccepted`,
  `AlternativeRejectsNull`). An optional property of type object that declares no properties is not made
  nullable at all (`NullAccepted`, `OpenObjectRejectsNull`).
* Values are rewritten after they are validated, so a returned document can be invalid for the schema it
  was validated against (`RewritingBreaksPattern`). What decides is whether the schema is closed under
  rewriting: at every node that the hints reach, the other keywords accept the rewriting of what the node
  accepts (`KeptByRewriting`). Closure is enough for every schema (`RewritingKeepsValid`), and it is
  necessary as well where nodes offer no alternatives and accept nothing in vain (`RewritingSafeExactly`).
  For a node of strings it says that each accepted text stays accepted once its hints are applied
  (`StringsSafeExactly`).
* Normalising a schema twice changes it exactly when a nullable node of type `array` also offers
  alternatives that are not yet in strict form (`IdempotentIffStable`, `MixedArrayNotIdempotent`, `MixedArrayExample`).
* A chunked parse of a schema whose top level requires an undeclared name, or does not admit objects, is
  always rejected at the end, however good the chunks are (`SplitParseRejects`, `UndeclaredNameRejected`).

## Model

| member | source | states |
|---|---|---|
| TableScan.PipeLineExactly | apps/api/src/api/capabilities/document_parsing/chunking.py:173-174 | A table line is one whose first character that is not white space is a bar |
| TableScan.DelimiterRowExactly | apps/api/src/api/capabilities/document_parsing/chunking.py:177-184 | A row of cells between bars, with any white space around it, is a delimiter line exactly when no cell is blank and every cell holds dashes, colons and blanks only |
| TableScan.CollectTables | apps/api/src/api/capabilities/document_parsing/chunking.py:188-211 | The scan collects, in order, exactly the maximal runs of at least two pipe lines whose second line is a delimiter, with a line between one block and the next |
| TableScan.FindDominantTable | apps/api/src/api/capabilities/document_parsing/chunking.py:187-215 | The result is the first table with the most data rows, and there is none exactly when the document has no table |
| TableScan.DominantUnique | apps/api/src/api/capabilities/document_parsing/chunking.py:213-215 | The dominant table is unique, so the declarative meaning determines the result |
| ChunkPlanning.LocateRowArray | apps/api/src/api/capabilities/document_parsing/chunking.py:40-61 | A location is found exactly when one property is an array of objects, and it names that property and its item schema |
| ChunkPlanning.PlanChunks | apps/api/src/api/capabilities/document_parsing/chunking.py:85-96 | The planning loop produces the chunks of the table from row 0 on |
| ChunkPlanning.BuildChunkPlan | apps/api/src/api/capabilities/document_parsing/chunking.py:64-145 | There is a plan exactly when the schema has one row array and the document has a table with at least as many rows as the threshold |
| ChunkPlanning.PlannedExactly | apps/api/src/api/capabilities/document_parsing/chunking.py:69-145 | When there is a plan, it counts the rows of the table, holds its chunks and its summary text, and a schema for the rows and for the summary |
| ChunkPlanning.RowArrayExactly | apps/api/src/api/capabilities/document_parsing/chunking.py:49-57 | A row array is a list whose items are what normalisation treats as objects |
| ChunkPlanning.SummaryExactly | apps/api/src/api/capabilities/document_parsing/chunking.py:124-136 | The summary text is the text of the first chunk with what stands before and after the table around it on lines of its own, and nothing but white space of that is lost |
| ChunkPlanning.ChunksPartition | apps/api/src/api/capabilities/document_parsing/chunking.py:86-96 | Chunks are numbered in order, start at multiples of the chunk size, hold between one and that many rows, and cover all rows without gap or overlap |
| ChunkPlanning.ChunkRoundTrip | apps/api/src/api/capabilities/document_parsing/chunking.py:86-96 | Scanning the text of any range of rows finds one table with the original header and delimiter lines and exactly those rows |
| ChunkPlanning.ChunksRebuildTable | apps/api/src/api/capabilities/document_parsing/chunking.py:85-96 | Scanning all chunk texts in order finds the rows of the table again |
| ChunkPlanning.PlanRoundTrip | apps/api/src/api/capabilities/document_parsing/chunking.py:33-37 | For every planned document the re-detected row count of each chunk is the length of its range, and the chunks together rebuild the dominant table |
| Text.SplitLinesFirst | apps/api/src/api/capabilities/document_parsing/chunking.py:81 | A line ends at the first line break, and a carriage return with a line feed is one break |
| Text.StripSurrounded | apps/api/src/api/capabilities/document_parsing/chunking.py:82-83 | Stripping leaves the text between the white space on both sides |
| ChunkMerge.MergeChunkRows | apps/api/src/api/capabilities/document_parsing/chunking.py:148-160 | The accumulating loop computes the pairwise meaning: each successful outcome loses its first row exactly when it equals the last row of the closest successful outcome with rows before it |
| Json.PyEqStructural | apps/api/src/api/capabilities/document_parsing/chunking.py:157 | Rows are compared deeply: lists item by item, objects key by key in any order, and the truth values as the numbers 0 and 1 |
| Json.PyEqScalars | apps/api/src/api/capabilities/document_parsing/chunking.py:157 | True equals one, false equals zero, and other scalars equal themselves only |
| ChunkMerge.AccumulatedLast | apps/api/src/api/capabilities/document_parsing/chunking.py:157-159 | The last accumulated row equals the last raw row of the closest successful outcome with rows, even after a one-row outcome that was dropped whole |
| ChunkMerge.MergeIgnoresOrder | apps/api/src/api/capabilities/document_parsing/chunking.py:149 | Merged rows and failed indices do not depend on the order in which outcomes with distinct indices arrive |
| ChunkMerge.MergeDropsFew | apps/api/src/api/capabilities/document_parsing/chunking.py:152-159 | At most one row is dropped for each outcome with rows after the first |
| ChunkMerge.FailedAscending | apps/api/src/api/capabilities/document_parsing/chunking.py:153-155 | The failed indices are exactly those of the outcomes without rows, in ascending order |
| ChunkPipeline.ExtractionEndToEnd | apps/api/src/api/capabilities/document_parsing/chunking.py:148-160 | For every document with a table, chunk size and row-wise extractor, merging the chunks gives the extracted rows in order, less exactly one row for each chunk start that equals the row before it |
| ChunkPipeline.LosslessExactly | apps/api/src/api/capabilities/document_parsing/chunking.py:157-158 | The merge is lossless exactly when no chunk boundary has equal neighbours, and otherwise loses one row for each such boundary |
| ChunkPipeline.ChunkResultRows | apps/api/src/api/capabilities/document_parsing/service.py:365-371 | A result valid for the chunk schema is an object with the rows and nothing else, so reading the row property cannot fail |
| ChunkPipeline.ChunkSchemaExactly | apps/api/src/api/capabilities/document_parsing/chunking.py:98-109 | Exactly the objects with a list of valid rows under the row property and nothing else fit the chunk schema |
| ChunkPipeline.SummarySchemaExactly | apps/api/src/api/capabilities/document_parsing/chunking.py:111-122 | Exactly the objects with all the other declared properties, each valid, and nothing else fit the summary schema |
| ChunkPipeline.AssembledFields | apps/api/src/api/capabilities/document_parsing/chunking.py:163-170 | The assembled object has the merged rows under their name and the summary under every other |
| ChunkPipeline.AssembledExactly | apps/api/src/api/capabilities/document_parsing/chunking.py:163-170 | With a valid summary, the assembled object fits the original schema if and only if the row property accepts the merged rows, the top level admits objects, and it requires declared names only |
| ChunkPipeline.SplitValidationComposes | apps/api/src/api/capabilities/document_parsing/chunking.py:98-122 | With valid parts, any set of failed chunks and after boundary rows are dropped, the assembled object fits the original schema if and only if the top level admits objects and requires declared names only |
| ChunkScheduler.TaskIsChunk | apps/api/src/api/capabilities/document_parsing/service.py:329-389 | A chunk task that runs alone comes to what the chunk procedure returns, for every client |
| ChunkScheduler.WaitingIsChunk | apps/api/src/api/capabilities/document_parsing/service.py:345-389 | A waiting task comes to what the procedure returns with both tries |
| ChunkScheduler.MoveConsistent | apps/api/src/api/capabilities/document_parsing/service.py:237-254 | Every move keeps free permits plus running tasks equal to the capacity, also when a task fails, and uses up one of the moves that are left |
| ChunkScheduler.Progress | apps/api/src/api/capabilities/document_parsing/service.py:237-254 | As long as a task is unfinished some move is possible, so no schedule gets stuck |
| ChunkScheduler.ScheduleIndependence | apps/api/src/api/capabilities/document_parsing/service.py:237-266 | Every schedule keeps at most the capacity of tasks running and has at most five moves per task; when it cannot be extended every task has the result it has alone, in plan order |
| ChunkedParse.CollectOutcomes | apps/api/src/api/capabilities/document_parsing/service.py:256-266 | One outcome for each planned chunk in plan order, and the completions of exactly the successful ones |
| ChunkedParse.OutcomeExactly | apps/api/src/api/capabilities/document_parsing/service.py:258-266 | An outcome has the index of its chunk, and either the rows of the success or the message of the error |
| ChunkedParse.UsageConserved | apps/api/src/api/capabilities/document_parsing/service.py:237-266 | After every schedule the tracker holds, in some order, exactly the records of the accepted results and of the rejected completions, and the same records for every schedule |
| ChunkedParse.ParseUsageConserved | apps/api/src/api/capabilities/document_parsing/service.py:256-287 | Over a whole chunked parse, with or without a summary, the tracked records are, in some order, those of the results that are aggregated and those of the completions rejected by validation |
| ChunkedParse.AggregateReports | apps/api/src/api/capabilities/document_parsing/service.py:436-452 | The aggregated prompt, completion and total tokens and the aggregated cost, each with those of the rejected completions, are the sums over the tracked records in whatever order, and the cost is absent exactly when all costs are |
| ChunkedParse.AggregateExactly | apps/api/src/api/capabilities/document_parsing/service.py:436-452 | Each aggregated token count adds up that field of the completions themselves, and the model is the requested one |
| ChunkedParse.CostExactly | apps/api/src/api/capabilities/document_parsing/service.py:440-445 | The aggregated cost is the sum of the costs that are known, if there are any |
| ChunkedParse.FinishParse | apps/api/src/api/capabilities/document_parsing/service.py:289-327 | Merging, assembling, the partial-result rule, final validation, value rewriting and checks happen in this order with these outcomes |
| ChunkedParse.DocumentExactly | apps/api/src/api/capabilities/document_parsing/service.py:289-327 | The data of a document is the assembled data with its values rewritten, which a second rewriting leaves alone; its checks are those of this data, and its failed chunks and usage are the collected ones |
| ChunkedParse.ParsedDocumentFits | apps/api/src/api/capabilities/document_parsing/service.py:310-327 | A returned document fits the caller's schema if the schema is closed under rewriting, its checks are those of the data before rewriting, and it lists failed chunks only if partial results are allowed |
| ChunkedParse.SplitParseRejects | apps/api/src/api/capabilities/document_parsing/service.py:289-312 | For a schema that can be split, the final validation rejects the assembled data if and only if the schema is well formed and its top level does not admit objects or requires an undeclared name |
| ChunkedParse.UndeclaredNameRejected | apps/api/src/api/capabilities/document_parsing/service.py:310 | A schema that requires an undeclared name: a chunk result that fits the chunk schema still ends in rejection |
| ChunkedRun.RunChunkedParse | apps/api/src/api/capabilities/document_parsing/service.py:256-327 | The procedure after the tasks collects the outcomes, raises when the summary is missing, and otherwise finishes with the outcomes, completions and summary data in plan order |
| ChunkedRun.ReadRowsExactly | apps/api/src/api/capabilities/document_parsing/service.py:362-378 | Rows are read exactly from the text of an object that has valid rows under their name and nothing else, if the chunk schema is well formed |
| ChunkedRun.ReadSummaryExactly | apps/api/src/api/capabilities/document_parsing/service.py:268-287 | A summary is read exactly from the text of an object with all the other properties, each valid |
| ChunkedRun.ReadRowsFit | apps/api/src/api/capabilities/document_parsing/service.py:365-371 | Rows that are read from a repaired and validated completion come from a result that fits the chunk schema |
| ChunkedRun.FailedAreListed | apps/api/src/api/capabilities/document_parsing/service.py:289-306 | The failed list holds exactly the numbers of the chunks whose tasks failed, and is empty exactly when all succeeded |
| ChunkedRun.FailureReport | apps/api/src/api/capabilities/document_parsing/service.py:298-308 | The error about failed chunks names each of them once, in ascending order, with the range of its rows |
| ChunkedRun.ParseDecided | apps/api/src/api/capabilities/document_parsing/service.py:256-327 | Which result a parse has, decided in this order: missing summary, failed chunks where partial results are not allowed, a malformed schema, a top level that does not admit the assembled object, or else a document that lists exactly the failed chunks |
| ChunkedRun.OneChunkDecided | apps/api/src/api/capabilities/document_parsing/service.py:256-327 | With one successful chunk, a schema that requires its row property gives a document, and one that requires any other name gives a rejection |
| ChunkedRun.WholeRun | apps/api/src/api/capabilities/document_parsing/service.py:216-327 | For every planned document, capacity and complete schedule the tasks come to the results they have alone, the parse has the decided result, a document holds the assembled data with its values rewritten, and the usage it reports with that of rejected completions is all that the tracker gained |
| ChunkedRun.WholeRunOfClient | apps/api/src/api/capabilities/document_parsing/service.py:268-315 | When the completion client is asked for the summary after the tasks, the records in its tracker in the end are accounted for by the reported usage and the rejected completions |
| ChunkedRun.WholeRunRows | apps/api/src/api/capabilities/document_parsing/service.py:256-290 | When every chunk is read row by row, the assembled object holds the extracted rows of the table in order, less one for each chunk start equal to the row before it |
| ChunkedRun.WholeRunDocument | apps/api/src/api/capabilities/document_parsing/service.py:289-313 | The document that is returned holds those rows, each rewritten as the schema hints |
| ChunkedRun.DocumentSummary | apps/api/src/api/capabilities/document_parsing/service.py:289-313 | The document holds every value of the summary under its name, rewritten as the schema hints |
| Client.OpenRouterClient.AttemptOnce | apps/api/src/api/platform/openrouter/client.py:229-291 | One request is logged, the clock advances by at most the timeout, and the outcome is classified as success, retryable or terminal |
| Client.OpenRouterClient.PostPayload | apps/api/src/api/platform/openrouter/client.py:147-227 | The retry loop ends in the world and with the outcome of the specified phase |
| Client.OpenRouterClient.CompleteRequest | apps/api/src/api/platform/openrouter/client.py:42-74 | A call ends in the world and with the outcome of the two specified phases under one deadline |
| Client.PostPolicy | apps/api/src/api/platform/openrouter/client.py:158-208 | A phase goes on exactly after retryable results, reports what its last request came to, gives up on a retryable result only when retries, time or room for the backoff run out, and sends nothing only at the deadline |
| Client.ResultExactly | apps/api/src/api/platform/openrouter/client.py:229-291 | A request succeeds exactly when it is answered in time, and may be tried again exactly when it ran out of time, the network failed or its status is one of the eight that pass |
| Client.PostPace | apps/api/src/api/platform/openrouter/client.py:158-207 | Where the time of a phase goes: each request is sent when the sleep before it is over and takes its duration up to its timeout; the sleep after the j-th is a fraction of backoff * 2^j, all of which would have fitted |
| Client.FallbackExactly | apps/api/src/api/platform/openrouter/client.py:42-74 | Native requests come first; fallback requests follow exactly when the last native one was rejected and time is left; what the last request came to is reported |
| Client.RejectionExactly | apps/api/src/api/platform/openrouter/client.py:452-455 | A rejection is recognised exactly when one of the five markers stands somewhere in the lower-cased message |
| Client.LowerExactly | apps/api/src/api/platform/openrouter/client.py:453 | Lower case changes capital letters only, each to the small letter in its place |
| Client.PostNumbers | apps/api/src/api/platform/openrouter/client.py:157-207 | A phase numbers its requests consecutively, sends at most maxRetries + 1, and its result or error carries the number of the last |
| Client.CompleteNumbers | apps/api/src/api/platform/openrouter/client.py:44-74 | A call numbers its requests start, start + 1, ... across retries and the switch to the fallback, sends between 1 and 2 * (maxRetries + 1), native ones first, and returns the number of the last |
| Client.CompleteTime | apps/api/src/api/platform/openrouter/client.py:43-74 | No request is sent at or after the deadline, in either phase, and the call ends by it |
| Client.CompleteSleep | apps/api/src/api/platform/openrouter/client.py:417-421 | A call sleeps at most 2 * backoff * (2^maxRetries - 1) |
| Client.CompleteRecords | apps/api/src/api/platform/openrouter/client.py:210-227 | A call that returns adds exactly one record, with the model, each token count and the cost of its completion; one that raises adds none |
| Service.CompleteAndValidateRequest | apps/api/src/api/capabilities/document_parsing/service.py:180-214 | A rejected completion is asked for once more with the next attempt number, and the outcome is that of the specified conversation |
| Service.RunChunkRequest | apps/api/src/api/capabilities/document_parsing/service.py:362-389 | A chunk is tried at most twice and raises the last error |
| Service.ClientKeepsPromises | apps/api/src/api/platform/openrouter/client.py:42-74 | The client keeps the three promises the service relies on: numbering, time budget and usage records |
| Service.ValidationNumbers | apps/api/src/api/capabilities/document_parsing/service.py:185-214 | Across both calls of any client that numbers its requests, they are numbered 1, 2, ..., n, with n at most twice the limit of one call |
| Service.ClientValidationBounds | apps/api/src/api/capabilities/document_parsing/service.py:185-214 | With the completion client the requests of a validated completion are numbered 1, 2, ..., n, with n at most 4 * (maxRetries + 1), and it ends within twice the time budget |
| Service.ValidationTime | apps/api/src/api/capabilities/document_parsing/service.py:185-206 | A validated completion ends within two time budgets |
| Service.ChunkTriesBounds | apps/api/src/api/capabilities/document_parsing/service.py:362-389 | Both tries of a chunk send at most four times the request limit of a call and end within four time budgets |
| Service.ValidationPolicy | apps/api/src/api/capabilities/document_parsing/service.py:185-214 | A validated completion asks from attempt 1, and once more from the next attempt number exactly when the first content was not accepted; the last reply decides what is returned or raised |
| Service.ChunkPolicy | apps/api/src/api/capabilities/document_parsing/service.py:362-389 | A second try of a chunk starts where a failed first one ended, and decides |
| Service.ValidationUsage | apps/api/src/api/capabilities/document_parsing/service.py:185-214 | The tracker gains one record for each call that returned; only the last reply can be usable, and it is exactly when the conversation succeeds |
| Service.ChunkUsage | apps/api/src/api/capabilities/document_parsing/service.py:362-389 | The same accounting holds for the tries of a chunk |
| SchemaNormalize.NormalizeForModel | apps/api/src/api/platform/schema/normalize.py:7-10 | The rewriting procedure computes the strict form |
| SchemaNormalize.NormalizeNode | apps/api/src/api/platform/schema/normalize.py:13-41 | The recursive procedure with its loops over properties and alternatives computes the strict form of a node |
| SchemaNormalize.NormalIsSound | apps/api/src/api/platform/schema/normalize.py:7-49 | For every faithful schema, also with alternatives that exclude each other, a value without nulls that is valid for the strict form is valid for the schema |
| SchemaNormalize.NullsDecide | apps/api/src/api/platform/schema/normalize.py:7-49 | Along guarded nodes without choices, any value that is valid for the strict form, nulls included, is valid for the schema if and only if each null stands where the schema itself accepts one |
| SchemaNormalize.NormalIsComplete | apps/api/src/api/platform/schema/normalize.py:7-49 | Every valid value that has exactly the declared keys at each closed object stays valid for the strict form |
| SchemaNormalize.NormalPreservesMeaning | apps/api/src/api/platform/schema/normalize.py:7-49 | On values without nulls that fill the closed objects, a faithful schema and its strict form mean the same |
| SchemaNormalize.NullAccepted | apps/api/src/api/platform/schema/normalize.py:18-49 | The strict form of an optional property accepts null if and only if it is not an object without declared properties, its alternatives accept null, and no keyword outside the structural ones objects |
| SchemaNormalize.OpenObjectRejectsNull | apps/api/src/api/platform/schema/normalize.py:18-26 | An optional object that declares no properties is left as it is and rejects null |
| SchemaNormalize.AlternativeRejectsNull | apps/api/src/api/platform/schema/normalize.py:34-41 | An optional string with one alternative is given the type null and still rejects null |
| SchemaNormalize.WithNullAdmits | apps/api/src/api/platform/schema/normalize.py:44-49 | Adding null to a type adds exactly the null value |
| SchemaNormalize.ObjectGuardExact | apps/api/src/api/platform/schema/normalize.py:18-26 | At an object node, a value that fits the strict form and whose properties fit the declared ones fits the node if and only if the node admits objects and requires declared names only |
| SchemaNormalize.ObjectGuardNeeded | apps/api/src/api/platform/schema/normalize.py:21-23 | A node of type string with properties, and a node that requires an undeclared name, each accept a value in strict form that they reject themselves |
| SchemaNormalize.ExclusiveGuardExact | apps/api/src/api/platform/schema/normalize.py:34-38 | At a node with faithful alternatives, a value without nulls that fits the strict form fits the node if and only if no two of its exclusive alternatives accept it |
| SchemaNormalize.ExclusiveAlternativesUnsound | apps/api/src/api/platform/schema/normalize.py:34-38 | With exclusive alternatives the strict form accepts a value that the schema rejects |
| SchemaNormalize.FixedIffInForm | apps/api/src/api/platform/schema/normalize.py:13-41 | Normalising leaves alone exactly the schemas in strict form |
| SchemaNormalize.IdempotentIffStable | apps/api/src/api/platform/schema/normalize.py:13-41 | Normalising twice is normalising once if and only if no nullable array node offers alternatives outside strict form |
| SchemaNormalize.NormalIdempotent | apps/api/src/api/platform/schema/normalize.py:7-41 | Normalising is idempotent when no array node offers alternatives |
| SchemaNormalize.MixedArrayNotIdempotent | apps/api/src/api/platform/schema/normalize.py:28-41 | A schema with an optional array that offers an alternative outside strict form changes on a second pass |
| SchemaNormalize.MixedArrayExample | apps/api/src/api/platform/schema/normalize.py:28-41 | Such a schema: the alternative is an object that is not closed |
| SchemaValidity.ValidityIsShape | apps/api/src/api/platform/schema/validate.py:15-29 | Two values of the same shape are judged alike by a schema whose other keywords judge them alike wherever it looks at them |
| SchemaValidity.ValidExactlyIfAlike | apps/api/src/api/platform/schema/validate.py:15-29 | Without choices between alternatives, what takes the place of a valid value of the same shape is valid if and only if the other keywords accept it wherever it differs |
| SchemaValidity.TwoOptions | apps/api/src/api/platform/schema/validate.py:15-29 | Of two alternatives both must hold for allOf and at least one for anyOf |
| SchemaValidity.OneOfTwo | apps/api/src/api/platform/schema/validate.py:15-29 | Of two exclusive alternatives exactly one must hold |
| ValueNormalize.NormalizeValue | apps/api/src/api/platform/schema/postprocess.py:22-42 | The recursive procedure rewrites exactly the hinted strings as specified |
| ValueNormalize.NormalizeLeaf | apps/api/src/api/platform/schema/postprocess.py:45-63 | The date format is applied first and the hints follow in order |
| ValueNormalize.NormalValueKeepsShape | apps/api/src/api/platform/schema/postprocess.py:22-63 | Rewriting changes only the text of strings: keys, list lengths and other values stay |
| RewrittenValidity.RewritingKeepsValid | apps/api/src/api/capabilities/document_parsing/service.py:310-313 | Every valid value stays valid when it is rewritten, for every schema that is closed under rewriting; exclusive alternatives must judge a value as its rewriting |
| RewrittenValidity.RewritingSafeExactly | apps/api/src/api/capabilities/document_parsing/service.py:310-313 | For a schema without alternatives in which each accepted value occurs in one its parent accepts, every valid value stays valid when it is rewritten if and only if the schema is closed under rewriting |
| RewrittenValidity.StringsSafeExactly | apps/api/src/api/platform/schema/postprocess.py:45-63 | At a node of strings every valid value stays valid when it is rewritten if and only if each accepted text is still accepted after its hints were applied |
| RewrittenValidity.RewrittenValueExactly | apps/api/src/api/capabilities/document_parsing/service.py:310-313 | Without choices, one valid value is still valid after rewriting if and only if the other keywords accept it wherever it was changed |
| RewrittenValidity.NormalValueKeepsValidity | apps/api/src/api/platform/schema/postprocess.py:11-42 | Rewriting keeps a value valid, or invalid, for every schema whose keywords judge a value as its rewriting at the nodes that the hints reach |
| RewrittenValidity.RewritingBreaksPattern | apps/api/src/api/capabilities/document_parsing/service.py:310-313 | A document that fits a schema with a pattern and a hint no longer fits it after rewriting |
| RewrittenValidity.RewritingKeepsPattern | apps/api/src/api/capabilities/document_parsing/service.py:310-313 | A schema with a hint and a pattern that the hint respects keeps all its documents valid |
| ValueNormalize.NormalValueIdempotent | apps/api/src/api/platform/schema/postprocess.py:11-79 | Rewriting values is idempotent for every value, schema and hint list |
| ValueNormalize.HintsSettle | apps/api/src/api/platform/schema/postprocess.py:54-60 | Every hint of a list leaves the result of the whole list alone, in any order of the hints |
| ValueNormalize.MatchDateExactly | apps/api/src/api/platform/schema/postprocess.py:7 | The date pattern matches exactly one or two digits, a dot, one or two digits, a dot, four digits, and perhaps a dot |
| ValueNormalize.DateBecomesIso | apps/api/src/api/platform/schema/postprocess.py:66-71 | A day-first date, padded or not, with or without a final dot, becomes year-month-day |
| ValueNormalize.OnlyDatesChange | apps/api/src/api/platform/schema/postprocess.py:66-71 | What the date pattern does not match stays as it is, and white space around a date does not matter |
| ValueNormalize.DateFirst | apps/api/src/api/platform/schema/postprocess.py:49-51 | A string with the date format is rewritten as a date and then as by the schema without the format |
| ValueNormalize.HintsInOrder | apps/api/src/api/platform/schema/postprocess.py:53-60 | Hints apply from the first to the last, one hint may stand without a list, and without hints nothing changes |
| ValueNormalize.IsoUndated | apps/api/src/api/platform/schema/postprocess.py:66-71 | A rewritten date is not matched by the date pattern again |
| ValueNormalize.CollapseMeaning | apps/api/src/api/platform/schema/postprocess.py:77-78 | Collapsing keeps all other characters in order and leaves single plain spaces between them |
| ValueNormalize.KeepDigitsAppend | apps/api/src/api/platform/schema/postprocess.py:75-76 | Keeping digits works piece by piece, so it keeps every digit in order |
| JsonPointer.ResolvePointer | apps/api/src/api/platform/schema/validate.py:110-137 | The evaluation loop walks the reference tokens and raises at the first step that fails |
| JsonPointer.UnescapeEscape | apps/api/src/api/platform/schema/validate.py:120 | Replacing "~1" and then "~0" undoes escaping for every string |
| JsonPointer.OtherOrderFails | apps/api/src/api/platform/schema/validate.py:120 | The other order of replacement does not undo escaping |
| JsonPointer.ReplaceNone | apps/api/src/api/platform/schema/validate.py:120 | A text in which the escape does not occur stays as it is |
| JsonPointer.RenderRoundTrip | apps/api/src/api/platform/schema/validate.py:110-137 | Resolving the rendered pointer is walking the tokens, for every value and all tokens |
| JsonPointer.PlaceRoundTrip | apps/api/src/api/platform/schema/validate.py:121-136 | Every place inside a value is reached by a JSON Pointer, with array indices in decimal |
| JsonPointer.WalkExactly | apps/api/src/api/platform/schema/validate.py:119-136 | Walking tokens arrives at a value if and only if the tokens lead, key by key and index by index, to a place inside the data that holds it |
| JsonPointer.WalkStops | apps/api/src/api/platform/schema/validate.py:121-136 | Where walking stops short, the first step that is not possible gives the reason: a missing key, no index, an index out of range, or nothing to index |
| JsonPointer.Malformed | apps/api/src/api/platform/schema/validate.py:111-116 | What is no string, or is not empty and does not start with a slash, resolves nowhere |
| JsonPointer.ResolveAppend | apps/api/src/api/platform/schema/validate.py:110-137 | Resolving the concatenation of two well-formed pointers is resolving the second inside the result of the first, errors included |
| Text.ParseIntExactly | apps/api/src/api/platform/schema/validate.py:127 | Digits grouped by single underscores, with an optional sign and any white space around, are an integer |
| Text.ParseIntOnly | apps/api/src/api/platform/schema/validate.py:127 | Nothing else is an integer |
| PostChecks.EvaluatePostChecks | apps/api/src/api/platform/schema/validate.py:32-36 | The outcomes of the checks follow one another in order |
| PostChecks.SumEqualsMeaning | apps/api/src/api/platform/schema/validate.py:65-97 | A check passes exactly when every part resolves to a number, the tolerance is a number, and the sum is within it of the total |
| PostChecks.PassesExactly | apps/api/src/api/platform/schema/validate.py:82-95 | A check that can be evaluated passes if and only if the sum lies between the total less and the total plus the tolerance, and reports those numbers |
| PostChecks.AddendsExactly | apps/api/src/api/platform/schema/validate.py:84 | The values of the addends are the numbers that the JSON Pointers lead to, one for each |
| PostChecks.AddendsStop | apps/api/src/api/platform/schema/validate.py:84 | The first addend that is no number says why there is no sum |
| PostChecks.SumAppend | apps/api/src/api/platform/schema/validate.py:86 | A sum adds its parts |
| PostChecks.FailureReasons | apps/api/src/api/platform/schema/validate.py:73-82 | A check that cannot be evaluated says why: first its addends, then its total, then its tolerance |
| PostChecks.CheckDispatch | apps/api/src/api/platform/schema/validate.py:39-62 | What is no sum check fails once, with its reason, and a check without scope has one outcome, that of the whole data |
| PostChecks.ScopedCheck | apps/api/src/api/platform/schema/validate.py:48-62 | A scoped check yields one outcome for each element in index order, each equal to the unscoped check with pointers prefixed by the scope and the index |
| PostChecks.ChecksIgnoreNormalization | apps/api/src/api/capabilities/document_parsing/service.py:166-175 | Rewriting values before the checks gives the same number of outcomes with the same verdicts, indices and numbers |
| Streaming.ClassifyExactly | apps/api/src/api/platform/openrouter/streaming.py:25-36 | A line is blank, the end marker or data exactly by the text that remains after stripping |
| Streaming.PayloadMeaning | apps/api/src/api/platform/openrouter/streaming.py:63-69 | A data line delivers the object that the text after the field name parses to |
| Streaming.PieceExactly | apps/api/src/api/platform/openrouter/streaming.py:82-97 | The first choice reports an error, or adds the text content of its delta, or gives a finish reason |
| Streaming.FieldsExactly | apps/api/src/api/platform/openrouter/streaming.py:73-79 | The model is taken if it counts as true, the provider if it is not null, and the usage if it is an object |
| Json.TruthyExactly | apps/api/src/api/platform/openrouter/streaming.py:73-86 | What counts as false is null, false, zero and everything empty |
| Streaming.StreamAssembly.ApplyChunk | apps/api/src/api/platform/openrouter/streaming.py:72-97 | A chunk appends its piece of content, replaces the other fields it carries, and leaves the rest |
| Streaming.ConsumeCompletionStream | apps/api/src/api/platform/openrouter/streaming.py:39-60 | The loop over lines assembles the chunks on data lines before the first end marker |
| Streaming.StreamMeaning | apps/api/src/api/platform/openrouter/streaming.py:39-60 | A stream is rejected exactly when a chunk before the end marker reports an error; otherwise the content is the pieces in order, each other field is the last one reported, and no error is carried |
| Streaming.LastExactly | apps/api/src/api/platform/openrouter/streaming.py:73-97 | The last value reported is that of the last chunk that carries one |
| Streaming.ContentsAppend | apps/api/src/api/platform/openrouter/streaming.py:94 | The content grows at its end, by the piece of each chunk |
| Streaming.ChunksAppend | apps/api/src/api/platform/openrouter/streaming.py:47-57 | Before the end marker the chunks of two streams follow one another |
| Streaming.SilentLinesIgnored | apps/api/src/api/platform/openrouter/streaming.py:25-36 | Lines without a chunk may be inserted or removed anywhere |
| Streaming.KeepaliveIgnored | apps/api/src/api/platform/openrouter/streaming.py:29-31 | A comment line, such as the keepalive of the provider, may stand anywhere |
| Streaming.NothingAfterDone | apps/api/src/api/platform/openrouter/streaming.py:52-53 | Nothing after the first end marker matters |

## Left out

- Transport, TLS, real clocks and random numbers: replaced by the environment of the client.
- Sleeps and requests that overrun: a sleep is taken to last its argument and a timed-out request its timeout.
- The waits inside a completion call of a chunk task: a call is one move of a schedule, at the time it ends, and its result is given for its task and position rather than depending on the requests of other tasks in between.
- Client disconnects and task cancellation: chunk tasks are taken to run without cancellation.
- JSON text parsing and repair, and which schemas are well formed: parameters; a completion for a malformed schema is rejected like any other.
- `$ref`, `prefixItems`, `patternProperties`, `unevaluatedProperties` and conditional keywords: their meaning depends on other keywords or on the root, which `extra` does not see.
- Floating point: times, costs and sums are reals, so NaN, rounding and overflow are absent, and the difference between the numbers 1 and 1.0 is not seen.
- Aliasing inside a schema: the copy of the schema that the program rewrites in place is modelled as a value whose keywords are reassigned.
- The order of keys in a dictionary: objects are maps, so the `required` list of the summary schema is sorted rather than in insertion order, which validity does not see.
- The text of error reasons: a reason is a kind with the key, token or value it quotes, without the text of the JSON Pointer; an absent check operation has the label of an unknown one.
- The rendering of a non-string `model` or `provider` of a stream chunk as text: the carried value is kept as it is.
- How a completion is made from the assembled stream (integer tokens, decimal cost, default model): the environment answers with a completion.
- The content of prompts, and logging.
- Document extraction, upload intake, authentication, settings and error envelopes: foreign calls and single-pass guards that would only add easy members.
- Case folding of letters outside ASCII in provider messages: no such letter folds to a letter of the markers that are looked for.
