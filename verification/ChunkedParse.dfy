/**
 A chunked parse after its tasks have finished: outcomes in plan order, merged and validated data,
 and the usage that is reported.
 */
module ChunkedParse {
  import opened Wrappers
  import opened Text
  import opened Json
  import opened SchemaValidity
  import opened SchemaNormalize
  import opened ValueNormalize
  import opened RewrittenValidity
  import opened Client
  import opened Service
  import opened ChunkScheduler
  import opened ChunkPlanning
  import opened ChunkMerge
  import opened ChunkPipeline
  import Checks = PostChecks

  // ---------------------------------------------------------------- collecting outcomes

  type Rows = seq<Json>

  function ErrorText(e: ServiceError): string {
    match e
    case Upstream(error) => error.message
    case SchemaRejected => "Model output did not match the requested schema"
  }

  function OutcomeOf(chunk: DocumentChunk, result: Outcome<Rows>): ChunkOutcome {
    match result
    case Ok(accepted) => ChunkOutcome(chunk.index, Some(accepted.data), None)
    case Err(e) => ChunkOutcome(chunk.index, None, Some(ErrorText(e)))
  }

  /** An outcome has the index of its chunk, and the rows of a success or the message of an error. */
  lemma OutcomeExactly(chunk: DocumentChunk, result: Outcome<Rows>)
    ensures var o := OutcomeOf(chunk, result);
            && o.index == chunk.index && (o.rows.Some? <==> result.Ok?) && (o.error.Some? <==> result.Err?)
            && (result.Ok? ==> o.rows == Some(result.value.data))
            && (result.Err? && result.error.Upstream? ==> o.error == Some(result.error.error.message))
  {
  }

  function SuccessOf<T>(r: Outcome<T>): seq<Completion> {
    if r.Ok? then [r.value.completion] else []
  }

  /** The completions of the successful results, in order. */
  function Successes<T>(results: seq<Outcome<T>>): seq<Completion> {
    if results == [] then [] else SuccessOf(results[0]) + Successes(results[1..])
  }

  lemma {:induction false} SuccessesNext<T>(results: seq<Outcome<T>>, r: Outcome<T>)
    ensures Successes(results + [r]) == Successes(results) + SuccessOf(r)
  {
    if results == [] {
      assert results + [r] == [r] && [r][1..] == [];
    } else {
      var head, tail := SuccessOf(results[0]), results[1..];
      SuccessesNext(tail, r);
      assert (results + [r])[0] == results[0] && (results + [r])[1..] == tail + [r];
      assert head + (Successes(tail) + SuccessOf(r)) == head + Successes(tail) + SuccessOf(r);
    }
  }

  /** The loop of `_run_chunked_parse` over the gathered results. */
  method CollectOutcomes(chunks: seq<DocumentChunk>, gathered: seq<Outcome<Rows>>)
    returns (outcomes: seq<ChunkOutcome>, results: seq<Completion>)
    requires |gathered| == |chunks|
    ensures |outcomes| == |chunks|
    ensures forall i :: 0 <= i < |chunks| ==> outcomes[i] == OutcomeOf(chunks[i], gathered[i])
    ensures results == Successes(gathered)
  {
    outcomes, results := [], [];
    while |outcomes| < |chunks|
      invariant |outcomes| <= |chunks|
      invariant forall i :: 0 <= i < |outcomes| ==> outcomes[i] == OutcomeOf(chunks[i], gathered[i])
      invariant results == Successes(gathered[..|outcomes|])
    {
      var i := |outcomes|;
      SuccessesNext(gathered[..i], gathered[i]);
      assert gathered[..i] + [gathered[i]] == gathered[..i + 1];
      match gathered[i] {
        case Err(e) =>
          outcomes := outcomes + [ChunkOutcome(chunks[i].index, None, Some(ErrorText(e)))];
        case Ok(accepted) =>
          outcomes := outcomes + [ChunkOutcome(chunks[i].index, Some(accepted.data), None)];
          results := results + [accepted.completion];
      }
    }
    assert gathered[..|chunks|] == gathered;
  }

  // ---------------------------------------------------------------- usage

  datatype UsageSummary = UsageSummary(
    model: string, promptTokens: int, completionTokens: int, totalTokens: int, cost: Option<real>)

  function RecordsFor(results: seq<Completion>): seq<UsageRecord> {
    seq(|results|, i requires 0 <= i < |results| => RecordOf(results[i]))
  }

  function Sum(tokens: UsageRecord -> int, records: seq<UsageRecord>): int {
    if records == [] then 0 else tokens(records[0]) + Sum(tokens, records[1..])
  }

  function CostOf(u: UsageRecord): real {
    if u.cost.Some? then u.cost.value else 0.0
  }

  /** The sum of the costs that are present. */
  function CostSum(records: seq<UsageRecord>): real {
    if records == [] then 0.0 else CostOf(records[0]) + CostSum(records[1..])
  }

  const PROMPT: UsageRecord -> int := (u: UsageRecord) => u.promptTokens
  const COMPLETION: UsageRecord -> int := (u: UsageRecord) => u.completionTokens
  const TOTAL: UsageRecord -> int := (u: UsageRecord) => u.totalTokens

  /** `_aggregate_usage`. */
  function AggregateUsage(results: seq<Completion>, model: string): (u: UsageSummary)
    ensures u.cost.None? <==> forall i :: 0 <= i < |results| ==> results[i].cost.None?
    ensures u.cost.Some? ==> u.cost.value == CostSum(RecordsFor(results))
  {
    var records := RecordsFor(results);
    UsageSummary(
      model, Sum(PROMPT, records), Sum(COMPLETION, records), Sum(TOTAL, records),
      if forall i :: 0 <= i < |results| ==> results[i].cost.None? then None else Some(CostSum(records)))
  }

  lemma {:induction false} SumAppend(tokens: UsageRecord -> int, a: seq<UsageRecord>, b: seq<UsageRecord>)
    ensures Sum(tokens, a + b) == Sum(tokens, a) + Sum(tokens, b)
    ensures CostSum(a + b) == CostSum(a) + CostSum(b)
  {
    if a == [] {
      assert a + b == b;
    } else {
      assert (a + b)[1..] == a[1..] + b;
      SumAppend(tokens, a[1..], b);
    }
  }

  /** Sums do not depend on the order of the records. */
  lemma {:induction false} SumPermuted(tokens: UsageRecord -> int, a: seq<UsageRecord>, b: seq<UsageRecord>)
    requires multiset(a) == multiset(b)
    ensures Sum(tokens, a) == Sum(tokens, b) && CostSum(a) == CostSum(b)
  {
    if a == [] {
      assert |b| == |multiset(b)| == 0;
    } else {
      var i := Occurrence(a, b);
      SumPermuted(tokens, a[1..], b[..i] + b[i + 1..]);
      SumAppend(tokens, b[..i], b[i + 1..]);
      SumAppend(tokens, b[..i], [b[i]] + b[i + 1..]);
      assert b == b[..i] + ([b[i]] + b[i + 1..]);
    }
  }

  /** Where the first record of one order stands in another order. */
  lemma Occurrence<X>(a: seq<X>, b: seq<X>) returns (i: nat)
    requires a != [] && multiset(a) == multiset(b)
    ensures i < |b| && b[i] == a[0] && multiset(a[1..]) == multiset(b[..i] + b[i + 1..])
  {
    assert a[0] in multiset(b);
    i :| 0 <= i < |b| && b[i] == a[0];
    Without(a, 0);
    Without(b, i);
    assert a[..0] + a[1..] == a[1..];
  }

  lemma Without<X>(s: seq<X>, i: nat)
    requires i < |s|
    ensures multiset(s[..i] + s[i + 1..]) == multiset(s) - multiset{s[i]}
  {
    assert s == s[..i] + ([s[i]] + s[i + 1..]);
    assert multiset(s) == multiset(s[..i]) + (multiset{s[i]} + multiset(s[i + 1..]));
  }

  // ---------------------------------------------------------------- usage of the chunk tasks

  /** A bag of records for each task. */
  type Bag<!T> = (nat, Task<T>) -> multiset<UsageRecord>

  /** The records of the tasks from position i on. */
  function Gather<T>(bag: Bag<T>, tasks: seq<Task<T>>, i: nat): multiset<UsageRecord>
    decreases |tasks| - i
  {
    if i >= |tasks| then multiset{} else bag(i, tasks[i]) + Gather(bag, tasks, i + 1)
  }

  lemma {:induction false} GatherUpdate<T>(bag: Bag<T>, tasks: seq<Task<T>>, i: nat, j: nat, t: Task<T>)
    requires j < |tasks|
    ensures if i <= j then Gather(bag, tasks[j := t], i) + bag(j, tasks[j]) == Gather(bag, tasks, i) + bag(j, t)
            else Gather(bag, tasks[j := t], i) == Gather(bag, tasks, i)
    decreases |tasks| - i
  {
    if i < |tasks| {
      GatherUpdate(bag, tasks, i + 1, j, t);
      var after, before := Gather(bag, tasks[j := t], i + 1), Gather(bag, tasks, i + 1);
      if i < j {
        AddToBoth(bag(i, tasks[i]), after, bag(j, tasks[j]), before, bag(j, t));
      } else if i == j {
        assert bag(j, t) + after + bag(j, tasks[j]) == bag(j, tasks[j]) + before + bag(j, t);
      }
    }
  }

  lemma AddToBoth<X>(x: multiset<X>, a: multiset<X>, b: multiset<X>, c: multiset<X>, d: multiset<X>)
    requires a + b == c + d
    ensures (x + a) + b == (x + c) + d
  {
    assert (x + a) + b == x + (a + b);
  }

  function AcceptedBag<T>(): Bag<T> {
    (i: nat, t: Task<T>) =>
      if t.Finished? && t.result.Ok? then multiset{RecordOf(t.result.value.completion)} else multiset{}
  }

  function FutureBag<T>(script: Script, accept: Acceptor<T>): Bag<T> {
    (i: nat, t: Task<T>) => Future(script, accept, i, t)
  }

  /** Every record in the tracker belongs to an accepted result or to a rejected completion. */
  ghost predicate Accounted<T>(p: Pool<T>) {
    multiset(p.tracker) == Gather(AcceptedBag<T>(), p.tasks, 0) + multiset(p.rejected)
  }

  /** What the tracker holds and what the tasks will still add. */
  function Foreseen<T>(script: Script, accept: Acceptor<T>, p: Pool<T>): multiset<UsageRecord> {
    multiset(p.tracker) + Gather(FutureBag(script, accept), p.tasks, 0)
  }

  lemma MoveAccounts<T>(script: Script, accept: Acceptor<T>, p: Pool<T>, move: Move)
    requires Enabled(p, move) && Accounted(p)
    ensures Accounted(Moved(script, accept, p, move))
  {
    var q := Moved(script, accept, p, move);
    var bag := AcceptedBag<T>();
    AcceptedMove(p, move.i, q.tasks[move.i]);
    assert q.tasks == p.tasks[move.i := q.tasks[move.i]];
    match move
    case Acquire(i) =>
      assert bag(i, q.tasks[i]) == multiset{};
    case Ask(i) =>
      var reply := script(i, p.tasks[i].calls);
      CallAccounts(p.tasks[i], reply, accept, i);
      Balance(multiset(p.rejected), Gather(bag, p.tasks, 0), bag(i, q.tasks[i]),
              multiset(RejectedBy(accept, reply)));
  }

  /** A task that has not finished has nothing accepted yet. */
  lemma AcceptedMove<T>(p: Pool<T>, i: nat, t: Task<T>)
    requires i < |p.tasks| && !p.tasks[i].Finished?
    ensures var bag := AcceptedBag<T>();
            Gather(bag, p.tasks[i := t], 0) == Gather(bag, p.tasks, 0) + bag(i, t)
  {
    var bag := AcceptedBag<T>();
    GatherUpdate(bag, p.tasks, 0, i, t);
    var after := Gather(bag, p.tasks[i := t], 0);
    assert bag(i, p.tasks[i]) == multiset{} && after + multiset{} == after;
  }

  lemma Balance<X>(rejected: multiset<X>, accepted: multiset<X>, a: multiset<X>, r: multiset<X>)
    ensures (accepted + rejected) + (a + r) == (accepted + a) + (rejected + r)
  {
  }

  /** The record of a call belongs to the result it brings, or to a rejected completion. */
  lemma CallAccounts<T>(t: Task<T>, reply: Answered, accept: Acceptor<T>, i: nat)
    requires t.Running?
    ensures multiset(RecordsOf(reply))
            == AcceptedBag<T>()(i, Advance(t, reply, accept)) + multiset(RejectedBy(accept, reply))
  {
  }

  /** No move changes what the tracker will hold in the end. */
  lemma MoveForeseen<T>(script: Script, accept: Acceptor<T>, p: Pool<T>, move: Move)
    requires Enabled(p, move)
    ensures Foreseen(script, accept, Moved(script, accept, p, move)) == Foreseen(script, accept, p)
  {
    var q := Moved(script, accept, p, move);
    var bag := FutureBag(script, accept);
    GatherUpdate(bag, p.tasks, 0, move.i, q.tasks[move.i]);
    var more := if move.Ask? then RecordsOf(script(move.i, p.tasks[move.i].calls)) else [];
    assert bag(move.i, p.tasks[move.i]) == multiset(more) + bag(move.i, q.tasks[move.i]);
    assert q.tracker == p.tracker + more;
    Foreseeable(multiset(p.tracker), multiset(more), bag(move.i, q.tasks[move.i]),
                Gather(bag, p.tasks, 0), Gather(bag, q.tasks, 0));
  }

  lemma Foreseeable<X>(tracked: multiset<X>, more: multiset<X>, left: multiset<X>,
                       before: multiset<X>, after: multiset<X>)
    requires after + (more + left) == before + left
    ensures (tracked + more) + after == tracked + before
  {
    assert after + (more + left) == (after + more) + left;
    assert after + more == ((after + more) + left) - left == before;
    assert (tracked + more) + after == tracked + (after + more);
  }

  lemma {:induction false} ScheduleAccounts<T>(script: Script, accept: Acceptor<T>, p: Pool<T>, moves: seq<Move>)
    requires Schedules(script, accept, p, moves) && Accounted(p)
    ensures var q := After(script, accept, p, moves);
            Accounted(q) && Foreseen(script, accept, q) == Foreseen(script, accept, p)
    decreases |moves|
  {
    if moves != [] {
      MoveAccounts(script, accept, p, moves[0]);
      MoveForeseen(script, accept, p, moves[0]);
      ScheduleAccounts(script, accept, Moved(script, accept, p, moves[0]), moves[1..]);
    }
  }

  lemma {:induction false} NothingGathered<T>(bag: Bag<T>, tasks: seq<Task<T>>, i: nat)
    requires forall j :: 0 <= j < |tasks| ==> bag(j, tasks[j]) == multiset{}
    ensures Gather(bag, tasks, i) == multiset{}
    decreases |tasks| - i
  {
    if i < |tasks| { NothingGathered(bag, tasks, i + 1); }
  }

  function ResultsOf<T>(tasks: seq<Task<T>>): seq<Outcome<T>>
    requires forall i :: 0 <= i < |tasks| ==> tasks[i].Finished?
  {
    seq(|tasks|, i requires 0 <= i < |tasks| => tasks[i].result)
  }

  lemma {:induction false} AcceptedIsSuccesses<T>(tasks: seq<Task<T>>, i: nat)
    requires i <= |tasks| && forall j :: 0 <= j < |tasks| ==> tasks[j].Finished?
    ensures Gather(AcceptedBag<T>(), tasks, i) == multiset(RecordsFor(Successes(ResultsOf(tasks)[i..])))
    decreases |tasks| - i
  {
    var results := ResultsOf(tasks);
    if i < |tasks| {
      AcceptedIsSuccesses(tasks, i + 1);
      assert results[i..][0] == results[i] && results[i..][1..] == results[i + 1..];
      RecordsForAppend(SuccessOf(results[i]), Successes(results[i + 1..]));
      if results[i].Ok? {
        assert RecordsFor(SuccessOf(results[i])) == [RecordOf(results[i].value.completion)];
      }
    } else {
      assert results[i..] == [];
    }
  }

  lemma RecordsForAppend(a: seq<Completion>, b: seq<Completion>)
    ensures RecordsFor(a + b) == RecordsFor(a) + RecordsFor(b)
  {
  }

  /**
   Usage conservation for the chunk tasks, record by record: after every schedule that cannot be
   extended, the tracker holds, in some order, exactly the records of the accepted results and of the
   rejected completions, and the same records whatever the schedule.
   */
  lemma UsageConserved<T>(script: Script, accept: Acceptor<T>, capacity: nat, n: nat, moves: seq<Move>)
    requires capacity > 0 && Schedules(script, accept, Initial<T>(n, capacity), moves)
    requires Exhausted(After(script, accept, Initial<T>(n, capacity), moves))
    ensures var q := After(script, accept, Initial<T>(n, capacity), moves);
            && (forall i :: 0 <= i < |q.tasks| ==> q.tasks[i].Finished?)
            && multiset(q.tracker) == multiset(RecordsFor(Successes(ResultsOf(q.tasks)))) + multiset(q.rejected)
            && multiset(q.tracker) == Foreseen(script, accept, Initial<T>(n, capacity))
  {
    var p := Initial<T>(n, capacity);
    var q := After(script, accept, p, moves);
    ScheduleIndependence(script, accept, capacity, n, moves);
    NothingGathered(AcceptedBag<T>(), p.tasks, 0);
    ScheduleAccounts(script, accept, p, moves);
    AcceptedIsSuccesses(q.tasks, 0);
    assert ResultsOf(q.tasks)[0..] == ResultsOf(q.tasks);
    NothingGathered(FutureBag(script, accept), q.tasks, 0);
  }

  // ---------------------------------------------------------------- usage of the whole parse

  function RejectedRecords<T>(accept: Acceptor<T>, replies: seq<Answered>): seq<UsageRecord> {
    if replies == [] then [] else RejectedBy(accept, replies[0]) + RejectedRecords(accept, replies[1..])
  }

  /** The records of a conversation are those of its rejected completions, then that of its result. */
  lemma {:induction false} RepliesSplit<T>(accept: Acceptor<T>, replies: seq<Answered>)
    requires replies != [] && forall i :: 0 <= i < |replies| - 1 ==> Unusable(accept, replies[i])
    ensures var last := replies[|replies| - 1];
            Records(replies) == RejectedRecords(accept, replies)
                                + (if Unusable(accept, last) then [] else RecordsOf(last))
  {
    assert Records([]) == [] && RejectedRecords(accept, []) == [];
    if |replies| > 1 { RepliesSplit(accept, replies[1..]); }
  }

  /** The conversation about the summary, when there is one. */
  type SummaryTalk = Option<Exchange<Json>>

  function SummaryRecords(summary: SummaryTalk): seq<UsageRecord> {
    if summary.None? then [] else Records(summary.value.replies)
  }

  function SummaryRejected(accept: Acceptor<Json>, summary: SummaryTalk): seq<UsageRecord> {
    if summary.None? then [] else RejectedRecords(accept, summary.value.replies)
  }

  function SummarySuccess(summary: SummaryTalk): seq<Completion> {
    if summary.None? then [] else SuccessOf(summary.value.result)
  }

  ghost predicate SummaryKept(accept: Acceptor<Json>, summary: SummaryTalk) {
    summary.Some? ==> OnlyLastUsable(accept, summary.value)
  }

  lemma SummarySplit(accept: Acceptor<Json>, summary: SummaryTalk)
    requires SummaryKept(accept, summary)
    ensures SummaryRecords(summary) == SummaryRejected(accept, summary) + RecordsFor(SummarySuccess(summary))
  {
    if summary.Some? {
      RepliesSplit(accept, summary.value.replies);
      if summary.value.result.Ok? {
        assert RecordsFor(SummarySuccess(summary)) == [RecordOf(summary.value.result.value.completion)];
      }
    }
  }

  /**
   Usage conservation for a whole chunked parse, record by record: the chunk tasks under any schedule,
   then the summary, if the plan has one.
   */
  lemma ParseUsageConserved<T>(script: Script, accept: Acceptor<T>, capacity: nat, n: nat, moves: seq<Move>,
                               acceptSummary: Acceptor<Json>, summary: SummaryTalk)
    requires capacity > 0 && Schedules(script, accept, Initial<T>(n, capacity), moves)
    requires Exhausted(After(script, accept, Initial<T>(n, capacity), moves))
    requires SummaryKept(acceptSummary, summary)
    ensures var q := After(script, accept, Initial<T>(n, capacity), moves);
            && (forall i :: 0 <= i < |q.tasks| ==> q.tasks[i].Finished?)
            && multiset(q.tracker + SummaryRecords(summary))
               == multiset(RecordsFor(Successes(ResultsOf(q.tasks)) + SummarySuccess(summary)))
                  + multiset(q.rejected + SummaryRejected(acceptSummary, summary))
  {
    var q := After(script, accept, Initial<T>(n, capacity), moves);
    UsageConserved(script, accept, capacity, n, moves);
    SummarySplit(acceptSummary, summary);
    RecordsForAppend(Successes(ResultsOf(q.tasks)), SummarySuccess(summary));
  }

  /** The usage summary accounts for the tracked records except the rejected ones, field by field. */
  predicate AccountsFor(u: UsageSummary, tracked: seq<UsageRecord>, rejected: seq<UsageRecord>) {
    && Sum(PROMPT, tracked) == u.promptTokens + Sum(PROMPT, rejected)
    && Sum(COMPLETION, tracked) == u.completionTokens + Sum(COMPLETION, rejected)
    && Sum(TOTAL, tracked) == u.totalTokens + Sum(TOTAL, rejected)
    && CostSum(tracked) == (if u.cost.Some? then u.cost.value else 0.0) + CostSum(rejected)
  }

  /**
   When the records of some results and of rejected completions are together the tracked ones, in any
   order, the aggregated usage of the results accounts for them, and its cost is absent exactly when all
   costs of the results are.
   */
  lemma AggregateReports(results: seq<Completion>, model: string, tracked: seq<UsageRecord>, rejected: seq<UsageRecord>)
    requires multiset(tracked) == multiset(RecordsFor(results)) + multiset(rejected)
    ensures AccountsFor(AggregateUsage(results, model), tracked, rejected)
    ensures AggregateUsage(results, model).cost.None? <==> forall u :: u in RecordsFor(results) ==> u.cost.None?
  {
    var records := RecordsFor(results);
    assert multiset(records + rejected) == multiset(tracked);
    forall tokens: UsageRecord -> int
      ensures Sum(tokens, tracked) == Sum(tokens, records) + Sum(tokens, rejected)
      ensures CostSum(tracked) == CostSum(records) + CostSum(rejected)
    {
      SumPermuted(tokens, tracked, records + rejected);
      SumAppend(tokens, records, rejected);
    }
    assert Sum(PROMPT, tracked) == Sum(PROMPT, records) + Sum(PROMPT, rejected);
    if forall i :: 0 <= i < |results| ==> results[i].cost.None? { NoCost(results); }
    forall i | 0 <= i < |results| && results[i].cost.Some?
      ensures records[i] in records && records[i].cost.Some?
    {
    }
  }

  /** The sum of a count over results. */
  function CountAll(count: Completion -> int, results: seq<Completion>): int {
    if results == [] then 0 else count(results[0]) + CountAll(count, results[1..])
  }

  /** The costs that are known, in order. */
  function KnownCosts(results: seq<Completion>): seq<real> {
    if results == [] then []
    else (match results[0].cost case Some(cost) => [cost] case None => []) + KnownCosts(results[1..])
  }

  /** The aggregated cost is the sum of the known ones, if there are any. */
  lemma {:induction false} CostExactly(results: seq<Completion>, model: string)
    ensures AggregateUsage(results, model).cost
            == if KnownCosts(results) == [] then None else Some(Checks.Sum(KnownCosts(results)))
  {
    CostIsSum(results);
    if KnownCosts(results) == [] { NothingKnown(results); }
    if forall i :: 0 <= i < |results| ==> results[i].cost.None? { NoneKnown(results); }
  }

  lemma {:induction false} CostIsSum(results: seq<Completion>)
    ensures CostSum(RecordsFor(results)) == Checks.Sum(KnownCosts(results))
  {
    if results != [] {
      var rest := results[1..];
      assert RecordsFor(results)[1..] == RecordsFor(rest);
      CostIsSum(rest);
      if results[0].cost.Some? {
        Checks.SumAppend([results[0].cost.value], KnownCosts(rest));
      } else {
        assert [] + KnownCosts(rest) == KnownCosts(rest);
      }
    }
  }

  lemma {:induction false} NothingKnown(results: seq<Completion>)
    requires KnownCosts(results) == []
    ensures forall i :: 0 <= i < |results| ==> results[i].cost.None?
  {
    if results != [] {
      NothingKnown(results[1..]);
      assert forall i :: 1 <= i < |results| ==> results[i] == results[1..][i - 1];
    }
  }

  lemma {:induction false} NoneKnown(results: seq<Completion>)
    requires forall i :: 0 <= i < |results| ==> results[i].cost.None?
    ensures KnownCosts(results) == []
  {
    if results != [] { NoneKnown(results[1..]); }
  }

  /** The aggregated usage adds up each field of the completions themselves. */
  lemma AggregateExactly(results: seq<Completion>, model: string)
    ensures var u := AggregateUsage(results, model);
            && u.model == model
            && u.promptTokens == CountAll((c: Completion) => c.promptTokens, results)
            && u.completionTokens == CountAll((c: Completion) => c.completionTokens, results)
            && u.totalTokens == CountAll((c: Completion) => c.totalTokens, results)
  {
    SumIsCount(PROMPT, (c: Completion) => c.promptTokens, results);
    SumIsCount(COMPLETION, (c: Completion) => c.completionTokens, results);
    SumIsCount(TOTAL, (c: Completion) => c.totalTokens, results);
  }

  lemma {:induction false} SumIsCount(tokens: UsageRecord -> int, count: Completion -> int, results: seq<Completion>)
    requires forall c :: tokens(RecordOf(c)) == count(c)
    ensures Sum(tokens, RecordsFor(results)) == CountAll(count, results)
  {
    if results != [] {
      assert RecordsFor(results)[1..] == RecordsFor(results[1..]);
      SumIsCount(tokens, count, results[1..]);
    }
  }

  lemma {:induction false} NoCost(results: seq<Completion>)
    requires forall i :: 0 <= i < |results| ==> results[i].cost.None?
    ensures CostSum(RecordsFor(results)) == 0.0
  {
    if results != [] {
      NoCost(results[1..]);
      assert RecordsFor(results)[1..] == RecordsFor(results[1..]);
    }
  }

  // ---------------------------------------------------------------- the document

  /** The validator: which schemas are well formed, and how keywords outside the structural ones judge. */
  datatype Validator = Validator(formed: Json -> bool, extra: Extra)

  /** What the caller and the settings ask of a parse. */
  datatype ParseRequest = ParseRequest(schema: Json, checks: seq<Json>, allowPartial: bool, model: string)

  datatype ParseError =
    | SummaryFailed(error: ServiceError)
    | RowRangesFailed(failed: seq<int>, ranges: seq<(nat, nat)>)
    | SchemaMalformed
    | OutputRejected

  datatype ParsedDocument = ParsedDocument(
    data: Json, checks: seq<Checks.Outcome>, failedChunks: seq<int>, usage: UsageSummary)

  type ParseResult = Result<ParsedDocument, ParseError>

  function FailedRanges(chunks: seq<DocumentChunk>, failed: seq<int>): seq<(nat, nat)> {
    if chunks == [] then []
    else (if chunks[0].index in failed then [(chunks[0].startRow, chunks[0].endRow)] else [])
         + FailedRanges(chunks[1..], failed)
  }

  function Assembled(plan: ChunkPlan, outcomes: seq<ChunkOutcome>, summary: Option<Json>): Json {
    Assemble(plan.location, Pairwise(Sorted(outcomes), None), summary)
  }

  /** What a chunked parse comes to once all completions are in. */
  function FinishedParse(x: Validator, digits: Digits, request: ParseRequest, plan: ChunkPlan,
                         outcomes: seq<ChunkOutcome>, results: seq<Completion>, summary: Option<Json>): ParseResult
  {
    var failed := FailedIndices(Sorted(outcomes));
    var assembled := Assembled(plan, outcomes, summary);
    if failed != [] && !request.allowPartial then Err(RowRangesFailed(failed, FailedRanges(plan.chunks, failed)))
    else if !x.formed(request.schema) then Err(SchemaMalformed)
    else if !Valid(x.extra, request.schema, assembled) then Err(OutputRejected)
    else
      var data := NormalValue(assembled, request.schema, digits);
      Ok(ParsedDocument(data, Checks.Evaluate(data, request.checks, digits), failed,
                        AggregateUsage(results, request.model)))
  }

  method FinishParse(x: Validator, digits: Digits, request: ParseRequest, plan: ChunkPlan,
                     outcomes: seq<ChunkOutcome>, results: seq<Completion>, summary: Option<Json>)
    returns (r: ParseResult)
    ensures r == FinishedParse(x, digits, request, plan, outcomes, results, summary)
  {
    var merged, failed := MergeChunkRows(outcomes);
    var assembled := Assemble(plan.location, merged, summary);
    if failed != [] && !request.allowPartial {
      return Err(RowRangesFailed(failed, FailedRanges(plan.chunks, failed)));
    }
    if !x.formed(request.schema) {
      return Err(SchemaMalformed);
    }
    if !Valid(x.extra, request.schema, assembled) {
      return Err(OutputRejected);
    }
    var data := NormalizeValue(assembled, request.schema, digits);
    var usage := AggregateUsage(results, request.model);
    var outcome := Checks.EvaluatePostChecks(data, request.checks, digits);
    return Ok(ParsedDocument(data, outcome, failed, usage));
  }

  /**
   A document that is returned fits the caller's schema if that is closed under rewriting, its checks are
   those of the data before values were rewritten, and it lists failed chunks only where partial results
   are allowed.
   */
  lemma ParsedDocumentFits(x: Validator, digits: Digits, request: ParseRequest, plan: ChunkPlan,
                           outcomes: seq<ChunkOutcome>, results: seq<Completion>, summary: Option<Json>,
                           d: ParsedDocument)
    requires FinishedParse(x, digits, request, plan, outcomes, results, summary) == Ok(d)
    ensures KeptByRewriting(x.extra, request.schema, request.schema, digits) ==>
              Valid(x.extra, request.schema, d.data)
    ensures Checks.SameOutcomes(
              Checks.Evaluate(Assembled(plan, outcomes, summary), request.checks, digits), d.checks)
    ensures d.failedChunks != [] ==> request.allowPartial
  {
    var assembled := Assembled(plan, outcomes, summary);
    if KeptByRewriting(x.extra, request.schema, request.schema, digits) {
      RewritingKeepsValid(x.extra, request.schema, assembled, request.schema, digits);
    }
    Checks.ChecksIgnoreNormalization(assembled, request.schema, request.checks, digits);
  }

  /**
   What a document is: the assembled data with its values rewritten, which a second rewriting leaves alone,
   with the checks of that data, the failed chunks, and the aggregated usage of the results.
   */
  lemma DocumentExactly(x: Validator, digits: Digits, request: ParseRequest, plan: ChunkPlan,
                        outcomes: seq<ChunkOutcome>, results: seq<Completion>, summary: Option<Json>,
                        d: ParsedDocument)
    requires FinishedParse(x, digits, request, plan, outcomes, results, summary) == Ok(d)
    ensures d.data == NormalValue(Assembled(plan, outcomes, summary), request.schema, digits)
    ensures DigitTable(digits) ==> NormalValue(d.data, request.schema, digits) == d.data
    ensures d.checks == Checks.Evaluate(d.data, request.checks, digits)
    ensures d.failedChunks == FailedIndices(Sorted(outcomes))
    ensures d.usage == AggregateUsage(results, request.model)
  {
    if DigitTable(digits) {
      NormalValueIdempotent(Assembled(plan, outcomes, summary), request.schema, digits);
    }
  }

  /**
   For a schema that can be split, the final validation of a chunked parse rejects the document if and
   only if the schema is well formed and its top level does not admit objects or requires an undeclared
   name.
   */
  lemma SplitParseRejects(x: Validator, digits: Digits, request: ParseRequest, plan: ChunkPlan,
                          outcomes: seq<ChunkOutcome>, results: seq<Completion>, summary: Option<Json>)
    requires SplitSchema(x.extra, request.schema) && Located(request.schema) == Some(plan.location)
    requires PlainRows(x.extra, Properties(request.schema)[plan.location.propertyName])
    requires forall i :: 0 <= i < |outcomes| ==> FromValidResult(x.extra, plan.location, outcomes[i])
    requires SummaryFits(x.extra, request.schema, plan.location.propertyName, summary)
    requires FailedIndices(Sorted(outcomes)) == [] || request.allowPartial
    ensures FinishedParse(x, digits, request, plan, outcomes, results, summary) == Err(OutputRejected)
            <==> x.formed(request.schema)
                 && !(AdmitsObjects(request.schema.fields) && RequiresDeclared(request.schema.fields))
  {
    SplitValidationComposes(x.extra, request.schema, plan.location, outcomes, summary);
  }

  /** A schema of objects with a list of rows, which requires another name. */
  function RowsAnd(required: string): Json {
    Obj(map["properties" := Obj(map["rows" := Obj(map["type" := Str("array"), "items" := ROW])]),
            "required" := Arr([Str(required)])])
  }

  const ROW: Json := Obj(map["type" := Str("object")])

  lemma RowsAndIsSplit(extra: Extra, name: string)
    ensures var s := RowsAnd(name);
            && SplitSchema(extra, s) && Located(s) == Some(RowArrayLocation("rows", ROW))
            && SummarySchema(s, "rows") == None && PlainRows(extra, Properties(s)["rows"])
            && AdmitsObjects(s.fields) && (RequiresDeclared(s.fields) <==> name == "rows")
  {
    var s := RowsAnd(name);
    var m := s.fields;
    assert RowArrays(s) == {"rows"} by { assert IsRowArray(m["properties"].fields["rows"]); }
    assert OtherProperties(s, "rows") == map[];
    assert m["required"].items[0] == Str(name) && PropertyNames(m) == {"rows"};
  }

  /** Such a schema with an undeclared name: however good the chunk result is, the parse is rejected. */
  lemma UndeclaredNameRejected(x: Validator, digits: Digits, request: ParseRequest, plan: ChunkPlan)
    requires request.schema == RowsAnd("ghost") && plan.location == RowArrayLocation("rows", ROW)
    ensures var outcomes := [ChunkOutcome(0, Some([Obj(map[])]), None)];
            && Located(request.schema) == Some(plan.location)
            && SummaryFits(x.extra, request.schema, "rows", None)
            && FromValidResult(x.extra, plan.location, outcomes[0])
            && FinishedParse(x, digits, request, plan, outcomes, [], None)
               == Err(if x.formed(request.schema) then OutputRejected else SchemaMalformed)
  {
    var outcomes := [ChunkOutcome(0, Some([Obj(map[])]), None)];
    RowsAndIsSplit(x.extra, "ghost");
    RowIsValid(x.extra);
    SplitParseRejects(x, digits, request, plan, outcomes, [], None);
  }

  lemma RowIsValid(extra: Extra)
    ensures FromValidResult(extra, RowArrayLocation("rows", ROW), ChunkOutcome(0, Some([Obj(map[])]), None))
  {
  }
}
