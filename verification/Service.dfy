/**
 Completion with validation: a completion whose content is rejected is asked for once more, and a
 chunk is tried twice.
 */
module Service {
  import opened Wrappers
  import opened Client

  /** Repair and validation of a completion's content; None stands for SchemaError. */
  type Acceptor<T> = string -> Option<T>

  datatype ServiceError = Upstream(error: UpstreamError) | SchemaRejected

  datatype Accepted<T> = Accepted(data: T, completion: Completion)

  type Outcome<T> = Result<Accepted<T>, ServiceError>

  /** A conversation with the client: the world after it, what every call gave, the outcome. */
  datatype Exchange<T> = Exchange(w: World, replies: seq<Answered>, result: Outcome<T>)

  /** What the service knows of its client: a call from a world, with the first attempt number. */
  type Completer = (World, int) -> (World, Answered)

  function ClientCompleter(env: Environment, cfg: Settings): Completer {
    (w, attempt) => Complete(env, cfg, w, attempt)
  }

  // ---------------------------------------------------------------- validation retry

  /** `_complete_and_validate`. */
  function CompleteAndValidate<T>(complete: Completer, w: World, accept: Acceptor<T>): Exchange<T> {
    var (w1, r1) := complete(w, 1);
    if r1.Err? then Exchange(w1, [r1], Err(Upstream(r1.error)))
    else
      var data := accept(r1.value.content);
      if data.Some? then Exchange(w1, [r1], Ok(Accepted(data.value, r1.value)))
      else
        var (w2, r2) := complete(w1, r1.value.attempt + 1);
        Exchange(w2, [r1, r2], Judge(r2, accept))
  }

  /** The outcome of a call after which there is no further retry. */
  function Judge<T>(reply: Answered, accept: Acceptor<T>): Outcome<T> {
    if reply.Err? then Err(Upstream(reply.error))
    else
      var data := accept(reply.value.content);
      if data.Some? then Ok(Accepted(data.value, reply.value)) else Err(SchemaRejected)
  }

  /** Asks again until a try succeeds or none is left; the last error is the one that is raised. */
  function Retry<T>(ask: World -> Exchange<T>, w: World, tries: nat): Exchange<T>
    requires tries > 0
    decreases tries
  {
    var first := ask(w);
    if first.result.Ok? || tries == 1 then first
    else
      var rest := Retry(ask, first.w, tries - 1);
      rest.(replies := first.replies + rest.replies)
  }

  /** `_run_chunk` with a number of tries. */
  function RunChunk<T>(complete: Completer, w: World, accept: Acceptor<T>, tries: nat): Exchange<T>
    requires tries > 0
  {
    Retry(u => CompleteAndValidate(complete, u, accept), w, tries)
  }

  const CHUNK_TRIES: nat := 2

  method CompleteAndValidateRequest<T>(client: OpenRouterClient, accept: Acceptor<T>)
    returns (r: Outcome<T>)
    modifies client, client.tracker
    ensures var e := CompleteAndValidate(ClientCompleter(client.env, client.settings), old(client.State()), accept);
            client.State() == e.w && r == e.result
  {
    var answer := client.CompleteRequest(1);
    if answer.Err? {
      return Err(Upstream(answer.error));
    }
    var result := answer.value;
    var data := accept(result.content);
    if data.None? {
      var retry := client.CompleteRequest(result.attempt + 1);
      if retry.Err? {
        return Err(Upstream(retry.error));
      }
      data := accept(retry.value.content);
      if data.None? {
        return Err(SchemaRejected);
      }
      result := retry.value;
    }
    return Ok(Accepted(data.value, result));
  }

  method RunChunkRequest<T>(client: OpenRouterClient, accept: Acceptor<T>)
    returns (r: Outcome<T>)
    modifies client, client.tracker
    ensures var e := RunChunk(ClientCompleter(client.env, client.settings), old(client.State()), accept, CHUNK_TRIES);
            client.State() == e.w && r == e.result
  {
    var attempt := 0;
    while true
      invariant 0 <= attempt < CHUNK_TRIES
      invariant var complete := ClientCompleter(client.env, client.settings);
                var e := RunChunk(complete, client.State(), accept, CHUNK_TRIES - attempt);
                var whole := RunChunk(complete, old(client.State()), accept, CHUNK_TRIES);
                e.w == whole.w && e.result == whole.result
      decreases CHUNK_TRIES - attempt
    {
      r := CompleteAndValidateRequest(client, accept);
      if r.Ok? {
        return;
      }
      attempt := attempt + 1;
      if attempt == CHUNK_TRIES {
        return;
      }
    }
  }

  // ---------------------------------------------------------------- numbering, requests, time

  /** Calls number their requests consecutively, send at most `limit`, and report the last number. */
  ghost predicate NumbersRequests(complete: Completer, limit: nat) {
    forall w: World, attempt: int :: NumbersCall(w, complete(w, attempt), if attempt > 1 then attempt else 1, limit)
  }

  /** Calls end within a time budget. */
  ghost predicate EndsWithin(complete: Completer, budget: real) {
    forall w: World, attempt: int :: w.clock <= complete(w, attempt).0.clock <= w.clock + budget
  }

  /** A call that returns records its completion and one that raises records nothing. */
  ghost predicate RecordsUsage(complete: Completer) {
    forall w: World, attempt: int :: complete(w, attempt).0.records == w.records + RecordsOf(complete(w, attempt).1)
  }

  /** The client keeps all three promises. */
  lemma ClientKeepsPromises(env: Environment, cfg: Settings)
    requires ValidEnvironment(env) && ValidSettings(cfg)
    ensures NumbersRequests(ClientCompleter(env, cfg), 2 * (cfg.maxRetries + 1))
    ensures EndsWithin(ClientCompleter(env, cfg), cfg.totalTimeout)
    ensures RecordsUsage(ClientCompleter(env, cfg))
  {
    var complete := ClientCompleter(env, cfg);
    forall w: World, attempt: int
      ensures NumbersCall(w, complete(w, attempt), if attempt > 1 then attempt else 1, 2 * (cfg.maxRetries + 1))
      ensures w.clock <= complete(w, attempt).0.clock <= w.clock + cfg.totalTimeout
      ensures complete(w, attempt).0.records == w.records + RecordsOf(complete(w, attempt).1)
    {
      CompleteNumbers(env, cfg, w, attempt);
      CompleteTime(env, cfg, w, attempt);
      CompleteRecords(env, cfg, w, attempt);
    }
  }

  /**
   Across retries, the switch to the fallback and the validation retry, the requests are numbered
   1, 2, ..., n without gap or repeat, with n at most twice the limit of one call.
   */
  lemma ValidationNumbers<T>(complete: Completer, w: World, accept: Acceptor<T>, limit: nat)
    requires NumbersRequests(complete, limit)
    ensures var w1 := CompleteAndValidate(complete, w, accept).w;
            && w.issued <= w1.issued
            && Numbered(NewIssues(w, w1), 1)
            && 1 <= |NewIssues(w, w1)| <= 2 * limit
  {
    var (w1, r1) := complete(w, 1);
    assert NumbersCall(w, complete(w, 1), 1, limit);
    if r1.Ok? && accept(r1.value.content).None? {
      var next := r1.value.attempt + 1;
      assert NumbersCall(w1, complete(w1, next), next, limit);
      NumberedAppend(w, w1, complete(w1, next).0, 1);
    }
  }

  /** A validated completion ends within two budgets. */
  lemma ValidationTime<T>(complete: Completer, w: World, accept: Acceptor<T>, budget: real)
    requires EndsWithin(complete, budget)
    ensures w.clock <= CompleteAndValidate(complete, w, accept).w.clock <= w.clock + 2.0 * budget
  {
    assert w.clock <= complete(w, 1).0.clock <= w.clock + budget;
  }

  /**
   A validated completion of the client numbers its requests 1, 2, ..., n with n at most
   4 * (maxRetries + 1), and ends within twice its time budget.
   */
  lemma ClientValidationBounds<T>(env: Environment, cfg: Settings, w: World, accept: Acceptor<T>)
    requires ValidEnvironment(env) && ValidSettings(cfg)
    ensures var w1 := CompleteAndValidate(ClientCompleter(env, cfg), w, accept).w;
            && w.issued <= w1.issued
            && Numbered(NewIssues(w, w1), 1)
            && 1 <= |NewIssues(w, w1)| <= 4 * (cfg.maxRetries + 1)
            && w.clock <= w1.clock <= w.clock + 2.0 * cfg.totalTimeout
  {
    ClientKeepsPromises(env, cfg);
    ValidationNumbers(ClientCompleter(env, cfg), w, accept, 2 * (cfg.maxRetries + 1));
    ValidationTime(ClientCompleter(env, cfg), w, accept, cfg.totalTimeout);
  }

  /**
   Both tries of a chunk together send at most four times the request limit of one call, and end
   within four budgets of one call.
   */
  lemma ChunkTriesBounds<T>(complete: Completer, w: World, accept: Acceptor<T>, limit: nat, budget: real)
    requires NumbersRequests(complete, limit) && EndsWithin(complete, budget)
    ensures var w1 := RunChunk(complete, w, accept, CHUNK_TRIES).w;
            && w.issued <= w1.issued
            && |w1.issued| - |w.issued| <= 4 * limit
            && w.clock <= w1.clock <= w.clock + 4.0 * budget
  {
    var first := CompleteAndValidate(complete, w, accept);
    ValidationNumbers(complete, w, accept, limit);
    ValidationTime(complete, w, accept, budget);
    if first.result.Err? {
      ValidationNumbers(complete, first.w, accept, limit);
      ValidationTime(complete, first.w, accept, budget);
      assert RunChunk(complete, w, accept, CHUNK_TRIES).w == CompleteAndValidate(complete, first.w, accept).w;
    }
  }

  // ---------------------------------------------------------------- who is asked, and what is raised

  /**
   A validated completion asks once from attempt 1, and once more, from the next attempt number, exactly
   when the first call returned content that was not accepted.  It gives the data of the last reply, or
   raises its error or a rejection.
   */
  lemma ValidationPolicy<T>(complete: Completer, w: World, accept: Acceptor<T>)
    ensures var e, first := CompleteAndValidate(complete, w, accept), complete(w, 1);
            var again := first.1.Ok? && accept(first.1.value.content).None?;
            && e.replies == [first.1] + (if again then [complete(first.0, first.1.value.attempt + 1).1] else [])
            && e.w == (if again then complete(first.0, first.1.value.attempt + 1).0 else first.0)
            && Answers(e.result, e.replies[|e.replies| - 1], accept)
  {
  }

  /** The outcome that the last reply gives. */
  predicate Answers<T(==)>(r: Outcome<T>, reply: Answered, accept: Acceptor<T>) {
    match reply
    case Err(error) => r == Err(Upstream(error))
    case Ok(c) =>
      match accept(c.content)
      case None => r == Err(SchemaRejected)
      case Some(data) => r == Ok(Accepted(data, c))
  }

  /** A chunk is tried twice: the second try starts where a failed first one ended, and decides. */
  lemma ChunkPolicy<T>(complete: Completer, w: World, accept: Acceptor<T>)
    ensures var e, first := RunChunk(complete, w, accept, CHUNK_TRIES), CompleteAndValidate(complete, w, accept);
            if first.result.Ok? then e == first
            else
              var second := CompleteAndValidate(complete, first.w, accept);
              e == Exchange(second.w, first.replies + second.replies, second.result)
  {
    var ask := (u: World) => CompleteAndValidate(complete, u, accept);
    TwoTries(ask, w);
    RunChunkIsRetry(complete, w, accept, ask);
  }

  lemma RunChunkIsRetry<T>(complete: Completer, w: World, accept: Acceptor<T>, ask: World -> Exchange<T>)
    requires forall u :: ask(u) == CompleteAndValidate(complete, u, accept)
    ensures RunChunk(complete, w, accept, CHUNK_TRIES) == Retry(ask, w, CHUNK_TRIES)
  {
    SameRetry(u => CompleteAndValidate(complete, u, accept), ask, w, CHUNK_TRIES);
  }

  lemma {:induction false} SameRetry<T>(a: World -> Exchange<T>, b: World -> Exchange<T>, w: World, tries: nat)
    requires tries > 0 && forall u :: a(u) == b(u)
    ensures Retry(a, w, tries) == Retry(b, w, tries)
    decreases tries
  {
    if a(w).result.Err? && tries > 1 { SameRetry(a, b, a(w).w, tries - 1); }
  }

  lemma TwoTries<T>(ask: World -> Exchange<T>, w: World)
    ensures var first := ask(w);
            Retry(ask, w, 2) == if first.result.Ok? then first
                                else var second := ask(first.w);
                                     second.(replies := first.replies + second.replies)
  {
    assert Retry(ask, ask(w).w, 1) == ask(ask(w).w);
  }

  // ---------------------------------------------------------------- usage

  /** The records that the replies of some calls add, in order. */
  function Records(replies: seq<Answered>): seq<UsageRecord> {
    if replies == [] then [] else RecordsOf(replies[0]) + Records(replies[1..])
  }

  lemma {:induction false} RecordsAppend(a: seq<Answered>, b: seq<Answered>)
    ensures Records(a + b) == Records(a) + Records(b)
  {
    if a == [] {
      assert a + b == b;
    } else {
      assert (a + b)[1..] == a[1..] + b;
      RecordsAppend(a[1..], b);
    }
  }

  /** A call that raised, or whose completion validation rejected. */
  predicate Unusable<T>(accept: Acceptor<T>, reply: Answered) {
    reply.Ok? ==> accept(reply.value.content).None?
  }

  /** Only the last reply can be usable, and it is exactly when the conversation succeeds. */
  ghost predicate OnlyLastUsable<T>(accept: Acceptor<T>, e: Exchange<T>) {
    && e.replies != []
    && (forall i :: 0 <= i < |e.replies| - 1 ==> Unusable(accept, e.replies[i]))
    && (e.result.Ok? <==> !Unusable(accept, e.replies[|e.replies| - 1]))
    && (e.result.Ok? ==>
          && e.replies[|e.replies| - 1] == Ok(e.result.value.completion)
          && accept(e.result.value.completion.content) == Some(e.result.value.data))
  }

  /**
   The tracker gains one record for each call that returned, in order; the last belongs to the reported
   result and all the others to completions that validation rejected.
   */
  lemma ValidationUsage<T>(complete: Completer, w: World, accept: Acceptor<T>)
    requires RecordsUsage(complete)
    ensures var e := CompleteAndValidate(complete, w, accept);
            e.w.records == w.records + Records(e.replies) && OnlyLastUsable(accept, e)
  {
    var (w1, r1) := complete(w, 1);
    RecordsOfTwo(r1, r1);
    if r1.Ok? { RecordsOfTwo(r1, complete(w1, r1.value.attempt + 1).1); }
  }

  lemma RecordsOfTwo(a: Answered, b: Answered)
    ensures Records([a]) == RecordsOf(a) && Records([a, b]) == RecordsOf(a) + RecordsOf(b)
  {
    assert [a][1..] == [] && [a, b][1..] == [b] && [b][1..] == [];
  }

  /** The same accounting for the tries of a chunk. */
  lemma ChunkUsage<T>(complete: Completer, w: World, accept: Acceptor<T>, tries: nat)
    requires RecordsUsage(complete) && tries > 0
    ensures var e := RunChunk(complete, w, accept, tries);
            e.w.records == w.records + Records(e.replies) && OnlyLastUsable(accept, e)
  {
    forall u ensures Accountable(accept, u, CompleteAndValidate(complete, u, accept)) {
      ValidationUsage(complete, u, accept);
    }
    RetryUsage(u => CompleteAndValidate(complete, u, accept), w, accept, tries);
  }

  /** A conversation whose records are accounted for. */
  ghost predicate Accountable<T>(accept: Acceptor<T>, w: World, e: Exchange<T>) {
    e.w.records == w.records + Records(e.replies) && OnlyLastUsable(accept, e)
  }

  lemma {:induction false} RetryUsage<T>(ask: World -> Exchange<T>, w: World, accept: Acceptor<T>, tries: nat)
    requires forall u :: Accountable(accept, u, ask(u))
    requires tries > 0
    ensures Accountable(accept, w, Retry(ask, w, tries))
    decreases tries
  {
    var first := ask(w);
    assert Accountable(accept, w, first);
    if first.result.Err? && tries > 1 {
      RetryUsage(ask, first.w, accept, tries - 1);
      TryAgain(accept, w, first, Retry(ask, first.w, tries - 1));
    }
  }

  lemma TryAgain<T>(accept: Acceptor<T>, w: World, first: Exchange<T>, rest: Exchange<T>)
    requires Accountable(accept, w, first) && first.result.Err? && Accountable(accept, first.w, rest)
    ensures Accountable(accept, w, rest.(replies := first.replies + rest.replies))
  {
    RecordsAppend(first.replies, rest.replies);
  }
}
