/**
 The completion client: bounded retries with exponential backoff under one deadline, shared by a
 native structured phase and a fallback phase.

 The network, the clock and the random source are an environment that decides, for the n-th request
 ever issued, how long it takes, what it answers, and which fraction of the nominal backoff follows.
 A request takes at most its timeout, a sleep takes its argument, and nothing else takes time.
 */
module Client {
  import opened Wrappers

  // ---------------------------------------------------------------- entities

  datatype Settings = Settings(attemptTimeout: real, totalTimeout: real, maxRetries: nat, backoff: real)

  predicate ValidSettings(cfg: Settings) {
    cfg.attemptTimeout > 0.0 && cfg.totalTimeout > 0.0 && cfg.backoff >= 0.0
  }

  datatype Completion = Completion(
    content: string, model: string,
    promptTokens: int, completionTokens: int, totalTokens: int, cost: Option<real>,
    attempt: int)

  datatype UsageRecord = UsageRecord(
    model: string, promptTokens: int, completionTokens: int, totalTokens: int, cost: Option<real>)

  function RecordOf(c: Completion): UsageRecord {
    UsageRecord(c.model, c.promptTokens, c.completionTokens, c.totalTokens, c.cost)
  }

  /** What the provider does with one request. */
  datatype Reply =
    | Answer(completion: Completion)
    | TimedOut
    | NetworkFailure
    | Status(code: int, message: string)
    | Broken(message: string)

  datatype Environment = Environment(reply: nat -> Reply, duration: nat -> real, jitter: nat -> real)

  ghost predicate ValidEnvironment(env: Environment) {
    forall i :: env.duration(i) >= 0.0 && 0.0 <= env.jitter(i) <= 1.0
  }

  datatype UpstreamError = UpstreamError(message: string, attempt: Option<int>)

  /** A request that was sent: its attempt number, its mode, and when. */
  datatype Issue = Issue(attempt: int, native: bool, at: real)

  datatype World = World(clock: real, issued: seq<Issue>, slept: seq<real>, records: seq<UsageRecord>)

  datatype AttemptResult =
    | Succeeded(completion: Completion)
    | Retryable(error: UpstreamError)
    | Terminal(error: UpstreamError)

  type Answered = Result<Completion, UpstreamError>

  // ---------------------------------------------------------------- one attempt

  const RETRYABLE_STATUS_CODES: set<int> := {408, 409, 425, 429, 500, 502, 503, 504}

  function Min(a: real, b: real): real {
    if a <= b then a else b
  }

  function ResultOf(reply: Reply, number: int): AttemptResult {
    match reply
    case Answer(c) => Succeeded(c.(attempt := number))
    case TimedOut => Retryable(UpstreamError("OpenRouter attempt exceeded its time budget", Some(number)))
    case NetworkFailure => Retryable(UpstreamError("OpenRouter request failed", Some(number)))
    case Status(code, message) =>
      var error := UpstreamError(message, Some(number));
      if code in RETRYABLE_STATUS_CODES then Retryable(error) else Terminal(error)
    case Broken(message) => Terminal(UpstreamError(message, Some(number)))
  }

  /** `_attempt`: one request under `wait_for`. */
  function Attempt(env: Environment, w: World, native: bool, number: int, timeout: real): (World, AttemptResult) {
    var n := |w.issued|;
    var w1 := w.(issued := w.issued + [Issue(number, native, w.clock)],
                 clock := w.clock + Min(env.duration(n), timeout));
    (w1, ResultOf(if env.duration(n) >= timeout then TimedOut else env.reply(n), number))
  }

  // ---------------------------------------------------------------- retries

  function Pow2(n: nat): (p: nat)
    ensures p >= 1
  {
    if n == 0 then 1 else 2 * Pow2(n - 1)
  }

  /** The longest backoff after the attempt at `offset`. */
  function Nominal(cfg: Settings, offset: nat): real {
    cfg.backoff * Pow2(offset) as real
  }

  /** `random.uniform(0, nominal)`, drawn as a fraction of the interval. */
  function Uniform(nominal: real, fraction: real): real {
    fraction * nominal
  }

  /** `backoff_with_jitter`; None when the nominal backoff does not fit the remaining time. */
  function Backoff(cfg: Settings, offset: nat, remaining: real, jitter: real): Option<real> {
    if Nominal(cfg, offset) >= remaining then None else Some(Uniform(Nominal(cfg, offset), jitter))
  }

  function Sleep(w: World, seconds: real): World {
    w.(clock := w.clock + seconds, slept := w.slept + [seconds])
  }

  function Recorded(w: World, c: Completion): World {
    w.(records := w.records + [RecordOf(c)])
  }

  /** One turn of the retry loop either ends the phase or leads to the next turn after a sleep. */
  datatype Turn = Stop(w: World, r: Answered) | Again(w: World, error: UpstreamError)

  function TakeTurn(env: Environment, cfg: Settings, w: World, native: bool, start: int, offset: nat,
                    deadline: real, last: Option<UpstreamError>): Turn
  {
    var number := start + offset;
    var remaining := deadline - w.clock;
    if remaining <= 0.0 then
      Stop(w, Err(if last.Some? then last.value
                  else UpstreamError("OpenRouter request exceeded its total time budget", Some(number))))
    else
      var (w1, r) := Attempt(env, w, native, number, Min(cfg.attemptTimeout, remaining));
      Settle(cfg, w1, r, offset, deadline, env.jitter(|w.issued|))
  }

  /** What follows an attempt: the usage record, an error, or a sleep before the next turn. */
  function Settle(cfg: Settings, w: World, result: AttemptResult, offset: nat, deadline: real, jitter: real): Turn {
    match result
    case Succeeded(c) => Stop(Recorded(w, c), Ok(c))
    case Terminal(error) => Stop(w, Err(error))
    case Retryable(error) =>
      var backoff := if offset < cfg.maxRetries then Backoff(cfg, offset, deadline - w.clock, jitter) else None;
      if backoff.None? then Stop(w, Err(error)) else Again(Sleep(w, backoff.value), error)
  }

  /** The turns of a phase: from a world, at a retry offset, after the last error. */
  type Turns = (World, nat, Option<UpstreamError>) -> Turn

  /** No turn at the last offset or later asks for another. */
  ghost predicate Bounded(take: Turns, last: nat) {
    forall w: World, offset: nat, error: Option<UpstreamError> :: take(w, offset, error).Again? ==> offset < last
  }

  /** The retry loop from a given offset on. */
  function Loop(take: Turns, maxRetries: nat, w: World, offset: nat, last: Option<UpstreamError>): (World, Answered)
    requires offset <= maxRetries && Bounded(take, maxRetries)
    decreases maxRetries - offset
  {
    var turn := take(w, offset, last);
    if turn.Stop? then (turn.w, turn.r) else Loop(take, maxRetries, turn.w, offset + 1, Some(turn.error))
  }

  function ClientTurns(env: Environment, cfg: Settings, native: bool, start: int, deadline: real): (take: Turns)
    ensures Bounded(take, cfg.maxRetries)
  {
    (w: World, offset: nat, last: Option<UpstreamError>) => TakeTurn(env, cfg, w, native, start, offset, deadline, last)
  }

  /** `_post_payload`. */
  function Post(env: Environment, cfg: Settings, w: World, native: bool, start: int, deadline: real)
    : (World, Answered)
  {
    Loop(ClientTurns(env, cfg, native, start, deadline), cfg.maxRetries, w, 0, None)
  }

  // ---------------------------------------------------------------- native and fallback

  const MARKERS: seq<string> :=
    ["schema", "response_format", "structured", "require_parameters", "unsupported"]

  function Lower(s: string): string {
    seq(|s|, i requires 0 <= i < |s| => if 'A' <= s[i] <= 'Z' then (s[i] as int + 32) as char else s[i])
  }

  predicate Contains(s: string, part: string) {
    part <= s || (s != [] && Contains(s[1..], part))
  }

  predicate IsNativeSchemaRejection(error: UpstreamError) {
    exists k :: 0 <= k < |MARKERS| && Contains(Lower(error.message), MARKERS[k])
  }

  /** The number of the first fallback request. */
  function FallbackAttempt(error: UpstreamError, start: int): int {
    (if error.attempt.Some? && error.attempt.value != 0 then error.attempt.value else start) + 1
  }

  /** One phase of a call: from a world, in a mode, from an attempt number on, until a deadline. */
  type Phase = (World, bool, int, real) -> (World, Answered)

  /** The native phase and, after a schema rejection, the fallback phase under the same deadline. */
  function BothPhases(phase: Phase, w: World, attempt: int, deadline: real): (World, Answered) {
    var start := if attempt > 1 then attempt else 1;
    var (w1, r) := phase(w, true, start, deadline);
    if r.Ok? || !IsNativeSchemaRejection(r.error) then (w1, r)
    else phase(w1, false, FallbackAttempt(r.error, start), deadline)
  }

  function ClientPhase(env: Environment, cfg: Settings): Phase {
    (w, native, start, deadline) => Post(env, cfg, w, native, start, deadline)
  }

  /** `complete`. */
  function Complete(env: Environment, cfg: Settings, w: World, attempt: int): (World, Answered) {
    BothPhases(ClientPhase(env, cfg), w, attempt, w.clock + cfg.totalTimeout)
  }

  /** The loop takes one turn and stops with it, or goes on after it. */
  lemma NextTurn(env: Environment, cfg: Settings, native: bool, start: int, deadline: real, w: World, offset: nat,
                 last: Option<UpstreamError>)
    requires offset <= cfg.maxRetries
    ensures var take := ClientTurns(env, cfg, native, start, deadline);
            var turn := TakeTurn(env, cfg, w, native, start, offset, deadline, last);
            && (turn.Again? ==> offset < cfg.maxRetries)
            && Loop(take, cfg.maxRetries, w, offset, last)
               == if turn.Stop? then (turn.w, turn.r)
                  else Loop(take, cfg.maxRetries, turn.w, offset + 1, Some(turn.error))
  {
    var take := ClientTurns(env, cfg, native, start, deadline);
    assert take(w, offset, last) == TakeTurn(env, cfg, w, native, start, offset, deadline, last);
  }

  // ---------------------------------------------------------------- the client object

  class UsageTracker {
    var records: seq<UsageRecord>

    constructor ()
      ensures records == []
    {
      records := [];
    }

    method Record(usage: UsageRecord)
      modifies this
      ensures records == old(records) + [usage]
    {
      records := records + [usage];
    }
  }

  class OpenRouterClient {
    const settings: Settings
    const env: Environment
    const tracker: UsageTracker
    var clock: real
    var issued: seq<Issue>
    var slept: seq<real>

    constructor (settings: Settings, env: Environment, tracker: UsageTracker, now: real)
      ensures this.settings == settings && this.env == env && this.tracker == tracker
      ensures State() == World(now, [], [], tracker.records)
    {
      this.settings, this.env, this.tracker := settings, env, tracker;
      clock, issued, slept := now, [], [];
    }

    function State(): World
      reads this, tracker
    {
      World(clock, issued, slept, tracker.records)
    }

    method AttemptOnce(native: bool, number: int, timeout: real) returns (r: AttemptResult)
      modifies this
      ensures (State(), r) == Attempt(env, old(State()), native, number, timeout)
    {
      var n := |issued|;
      issued := issued + [Issue(number, native, clock)];
      if env.duration(n) >= timeout {
        clock := clock + timeout;
        return ResultOf(TimedOut, number);
      }
      clock := clock + env.duration(n);
      r := ResultOf(env.reply(n), number);
    }

    /** Records the usage of a success, or sleeps before a retry; no outcome means another turn. */
    method SettleAttempt(result: AttemptResult, retryOffset: nat, deadline: real, jitter: real)
      returns (outcome: Option<Answered>)
      modifies this, tracker
      ensures var turn := Settle(settings, old(State()), result, retryOffset, deadline, jitter);
              && State() == turn.w
              && outcome == (if turn.Stop? then Some(turn.r) else None)
              && (turn.Again? ==> result == Retryable(turn.error) && retryOffset < settings.maxRetries)
    {
      match result {
        case Retryable(error) =>
          var remaining := deadline - clock;
          var backoff: Option<real> := None;
          if retryOffset < settings.maxRetries {
            backoff := Backoff(settings, retryOffset, remaining, jitter);
          }
          if backoff.None? {
            return Some(Err(error));
          }
          clock, slept := clock + backoff.value, slept + [backoff.value];
          return None;
        case Terminal(error) =>
          return Some(Err(error));
        case Succeeded(completion) =>
          tracker.Record(RecordOf(completion));
          return Some(Ok(completion));
      }
    }

    /** The body of the retry loop; no outcome means another turn after the error. */
    method TurnOnce(native: bool, start: int, retryOffset: nat, deadline: real, lastError: Option<UpstreamError>)
      returns (outcome: Option<Answered>, error: Option<UpstreamError>)
      modifies this, tracker
      ensures var turn := TakeTurn(env, settings, old(State()), native, start, retryOffset, deadline, lastError);
              && State() == turn.w
              && outcome == (if turn.Stop? then Some(turn.r) else None)
              && (turn.Again? ==> error == Some(turn.error))
    {
      error := None;
      var number := start + retryOffset;
      var remaining := deadline - clock;
      if remaining <= 0.0 {
        if lastError.Some? {
          return Some(Err(lastError.value)), None;
        }
        return Some(Err(UpstreamError("OpenRouter request exceeded its total time budget", Some(number)))), None;
      }
      var jitter := env.jitter(|issued|);
      ghost var turn := TakeTurn(env, settings, State(), native, start, retryOffset, deadline, lastError);
      var result := AttemptOnce(native, number, Min(settings.attemptTimeout, remaining));
      assert turn == Settle(settings, State(), result, retryOffset, deadline, jitter);
      outcome := SettleAttempt(result, retryOffset, deadline, jitter);
      if outcome.None? {
        error := Some(result.error);
      }
    }

    method PostPayload(native: bool, start: int, deadline: real) returns (r: Answered)
      modifies this, tracker
      ensures (State(), r) == Post(env, settings, old(State()), native, start, deadline)
    {
      ghost var take := ClientTurns(env, settings, native, start, deadline);
      var lastError: Option<UpstreamError> := None;
      var retryOffset: nat := 0;
      while true
        invariant retryOffset <= settings.maxRetries
        invariant Loop(take, settings.maxRetries, State(), retryOffset, lastError)
               == Loop(take, settings.maxRetries, old(State()), 0, None)
        decreases settings.maxRetries - retryOffset
      {
        NextTurn(env, settings, native, start, deadline, State(), retryOffset, lastError);
        var outcome, error := TurnOnce(native, start, retryOffset, deadline, lastError);
        if outcome.Some? {
          return outcome.value;
        }
        lastError := error;
        retryOffset := retryOffset + 1;
      }
    }

    method CompleteRequest(attempt: int) returns (r: Answered)
      modifies this, tracker
      ensures (State(), r) == Complete(env, settings, old(State()), attempt)
    {
      var deadline := clock + settings.totalTimeout;
      var start := if attempt > 1 then attempt else 1;
      r := PostPayload(true, start, deadline);
      if r.Ok? || !IsNativeSchemaRejection(r.error) {
        return;
      }
      r := PostPayload(false, FallbackAttempt(r.error, start), deadline);
    }
  }

  // ---------------------------------------------------------------- attempt numbers

  /** The requests issued between two worlds. */
  function NewIssues(w: World, w1: World): seq<Issue>
    requires w.issued <= w1.issued
  {
    w1.issued[|w.issued|..]
  }

  /** The attempt numbers are first, first + 1, ... without gap or repeat. */
  predicate Numbered(issues: seq<Issue>, first: int) {
    forall j :: 0 <= j < |issues| ==> issues[j].attempt == first + j
  }

  lemma NumberedAppend(w: World, w1: World, w2: World, first: int)
    requires w.issued <= w1.issued <= w2.issued
    requires Numbered(NewIssues(w, w1), first) && Numbered(NewIssues(w1, w2), first + |NewIssues(w, w1)|)
    ensures NewIssues(w, w2) == NewIssues(w, w1) + NewIssues(w1, w2)
    ensures Numbered(NewIssues(w, w2), first)
  {
  }

  /** A turn sends one request exactly when it starts before the deadline, with the number due. */
  predicate NumbersTurn(turn: Turn, w: World, native: bool, start: int, offset: nat, deadline: real,
                        last: Option<UpstreamError>)
  {
    && w.issued <= turn.w.issued
    && NewIssues(w, turn.w) == (if w.clock < deadline then [Issue(start + offset, native, w.clock)] else [])
    && (turn.Again? ==> w.clock < deadline && turn.error.attempt == Some(start + offset))
    && (turn.Stop? && turn.r.Ok? ==> w.clock < deadline && turn.r.value.attempt == start + offset)
    && (turn.Stop? && turn.r.Err? && w.clock < deadline ==> turn.r.error.attempt == Some(start + offset))
    && (w.clock >= deadline ==> turn.Stop? && turn.w == w && turn.r.Err?)
    && (turn.Stop? && w.clock >= deadline && last.Some? ==> turn.r == Err(last.value))
  }

  /** A phase numbers its requests consecutively, and reports the number of the last one. */
  predicate NumbersPhase(w: World, after: (World, Answered), native: bool, start: int, limit: int, deadline: real) {
    && w.issued <= after.0.issued
    && var sent := NewIssues(w, after.0);
       && |sent| <= limit
       && (w.clock < deadline ==> sent != [])
       && Numbered(sent, start)
       && (forall j :: 0 <= j < |sent| ==> sent[j].native == native)
       && (after.1.Ok? ==> sent != [] && after.1.value.attempt == start + |sent| - 1)
       && (after.1.Err? && sent != [] ==> after.1.error.attempt == Some(start + |sent| - 1))
  }

  lemma {:induction false} LoopNumbers(take: Turns, max: nat, w: World, native: bool, start: int, offset: nat,
                                       deadline: real, last: Option<UpstreamError>)
    requires offset <= max && Bounded(take, max)
    requires forall u: World, o: nat, l: Option<UpstreamError> ::
               NumbersTurn(take(u, o, l), u, native, start, o, deadline, l)
    requires last.Some? ==> last.value.attempt == Some(start + offset - 1)
    ensures var after := Loop(take, max, w, offset, last);
            && NumbersPhase(w, after, native, start + offset, max - offset + 1, deadline)
            && (after.1.Err? && w.clock >= deadline && last.Some? ==> after.1 == Err(last.value))
    decreases max - offset
  {
    var turn := take(w, offset, last);
    assert NumbersTurn(turn, w, native, start, offset, deadline, last);
    if turn.Again? {
      LoopNumbers(take, max, turn.w, native, start, offset + 1, deadline, Some(turn.error));
      var after := Loop(take, max, turn.w, offset + 1, Some(turn.error));
      NumberedAppend(w, turn.w, after.0, start + offset);
    }
  }

  lemma PostNumbers(env: Environment, cfg: Settings, w: World, native: bool, start: int, deadline: real)
    ensures NumbersPhase(w, Post(env, cfg, w, native, start, deadline), native, start, cfg.maxRetries + 1, deadline)
  {
    var take := ClientTurns(env, cfg, native, start, deadline);
    forall u: World, o: nat, l: Option<UpstreamError>
      ensures NumbersTurn(take(u, o, l), u, native, start, o, deadline, l)
    {
      ClientTurn(env, cfg, u, native, start, o, deadline, l);
    }
    LoopNumbers(take, cfg.maxRetries, w, native, start, 0, deadline, None);
  }

  /** The numbering of a whole call. */
  predicate NumbersCall(w: World, after: (World, Answered), start: int, limit: int) {
    && w.issued <= after.0.issued
    && var sent := NewIssues(w, after.0);
       && 1 <= |sent| <= limit
       && Numbered(sent, start)
       && (forall i, j :: 0 <= i < j < |sent| && sent[j].native ==> sent[i].native)
       && (after.1.Ok? ==> after.1.value.attempt == start + |sent| - 1)
  }

  lemma PhasesNumber(phase: Phase, limit: int, w: World, attempt: int, deadline: real)
    requires forall u: World, native, start ::
               NumbersPhase(u, phase(u, native, start, deadline), native, start, limit, deadline)
    requires w.clock < deadline && limit >= 1
    ensures NumbersCall(w, BothPhases(phase, w, attempt, deadline), if attempt > 1 then attempt else 1, 2 * limit)
  {
    var start := if attempt > 1 then attempt else 1;
    var (w1, r) := phase(w, true, start, deadline);
    assert NumbersPhase(w, phase(w, true, start, deadline), true, start, limit, deadline);
    if r.Err? && IsNativeSchemaRejection(r.error) {
      var next := FallbackAttempt(r.error, start);
      var after := phase(w1, false, next, deadline);
      assert NumbersPhase(w1, after, false, next, limit, deadline);
      assert next == start + |NewIssues(w, w1)|;
      NumberedAppend(w, w1, after.0, start);
    }
  }

  /**
   A call numbers its requests start, start + 1, ... across retries and the switch to the fallback,
   sends at least one and at most 2 * (maxRetries + 1), and returns the number of the last.
   */
  lemma CompleteNumbers(env: Environment, cfg: Settings, w: World, attempt: int)
    requires ValidSettings(cfg)
    ensures NumbersCall(w, Complete(env, cfg, w, attempt), if attempt > 1 then attempt else 1, 2 * (cfg.maxRetries + 1))
  {
    var deadline := w.clock + cfg.totalTimeout;
    forall u: World, native: bool, start: int
      ensures NumbersPhase(u, ClientPhase(env, cfg)(u, native, start, deadline), native, start,
                           cfg.maxRetries + 1, deadline)
    {
      PostNumbers(env, cfg, u, native, start, deadline);
    }
    PhasesNumber(ClientPhase(env, cfg), cfg.maxRetries + 1, w, attempt, deadline);
  }

  // ---------------------------------------------------------------- when a phase retries and stops

  /** What the n-th request ever issued came to, under the timeout it was given. */
  function ResultFor(env: Environment, cfg: Settings, issue: Issue, n: nat, deadline: real): AttemptResult {
    ResultOf(if env.duration(n) >= Min(cfg.attemptTimeout, deadline - issue.at) then TimedOut else env.reply(n),
             issue.attempt)
  }

  /** The result a phase reports for the result of its last request. */
  predicate Reports(r: Answered, last: AttemptResult) {
    match last
    case Succeeded(c) => r == Ok(c)
    case Terminal(error) => r == Err(error)
    case Retryable(error) => r == Err(error)
  }

  /** The retries are used up, the time is over, or the nominal backoff does not fit what is left of it. */
  predicate GivesUp(cfg: Settings, offset: nat, now: real, deadline: real) {
    offset >= cfg.maxRetries || now >= deadline || Nominal(cfg, offset) >= deadline - now
  }

  /** Judges a request: its position in the log and the issue itself. */
  type Verdicts = (nat, Issue) -> AttemptResult

  function ClientVerdicts(env: Environment, cfg: Settings, deadline: real): Verdicts {
    (n: nat, issue: Issue) => ResultFor(env, cfg, issue, n, deadline)
  }

  /** The requests before the last came to something retryable, and the last one is reported. */
  predicate Follows(judge: Verdicts, sent: seq<Issue>, first: nat, r: Answered) {
    && (forall j :: 0 <= j < |sent| - 1 ==> judge(first + j, sent[j]).Retryable?)
    && (sent != [] ==> Reports(r, judge(first + |sent| - 1, sent[|sent| - 1])))
  }

  lemma FollowsStep(judge: Verdicts, issue: Issue, rest: seq<Issue>, first: nat, r: Answered)
    requires judge(first, issue).Retryable? && Follows(judge, rest, first + 1, r)
    requires rest == [] ==> Reports(r, judge(first, issue))
    ensures Follows(judge, [issue] + rest, first, r)
  {
    var sent := [issue] + rest;
    forall j | 0 <= j < |sent| - 1 ensures judge(first + j, sent[j]).Retryable? {
      if j > 0 { assert sent[j] == rest[j - 1] && first + j == first + 1 + (j - 1); }
    }
    if rest != [] { assert sent[|sent| - 1] == rest[|rest| - 1]; }
  }

  /** A turn before the deadline goes on after a retryable result only, and stops when it has to. */
  predicate TurnFollows(turn: Turn, cfg: Settings, result: AttemptResult, offset: nat, deadline: real) {
    && (turn.Again? ==> result == Retryable(turn.error))
    && (turn.Stop? ==> Reports(turn.r, result))
    && (turn.Stop? && result.Retryable? ==> GivesUp(cfg, offset, turn.w.clock, deadline))
  }

  /** How the requests of a phase follow from one another, and how it ends. */
  predicate FollowsPhase(judge: Verdicts, cfg: Settings, w: World, after: (World, Answered), offset: nat,
                         deadline: real)
  {
    && w.issued <= after.0.issued
    && var sent := NewIssues(w, after.0);
       && (sent == [] <==> w.clock >= deadline)
       && (sent == [] ==> after.0 == w)
       && Follows(judge, sent, |w.issued|, after.1)
       && (sent != [] && judge(|w.issued| + |sent| - 1, sent[|sent| - 1]).Retryable? ==>
             GivesUp(cfg, offset + |sent| - 1, after.0.clock, deadline))
  }

  lemma FollowsTurn(judge: Verdicts, cfg: Settings, w: World, w1: World, issue: Issue, after: (World, Answered),
                    offset: nat, deadline: real)
    requires w.issued <= w1.issued && NewIssues(w, w1) == [issue] && w.clock < deadline
    requires judge(|w.issued|, issue).Retryable?
    requires FollowsPhase(judge, cfg, w1, after, offset + 1, deadline)
    requires NewIssues(w1, after.0) == [] ==> Reports(after.1, judge(|w.issued|, issue))
    ensures FollowsPhase(judge, cfg, w, after, offset, deadline)
  {
    var rest := NewIssues(w1, after.0);
    assert |w1.issued| == |w.issued| + 1;
    assert NewIssues(w, after.0) == [issue] + rest;
    FollowsStep(judge, issue, rest, |w.issued|, after.1);
  }

  lemma {:induction false} LoopFollows(take: Turns, judge: Verdicts, cfg: Settings, w: World, native: bool, start: int,
                                       offset: nat, deadline: real, last: Option<UpstreamError>)
    requires offset <= cfg.maxRetries && Bounded(take, cfg.maxRetries)
    requires forall u: World, o: nat, l: Option<UpstreamError> ::
               NumbersTurn(take(u, o, l), u, native, start, o, deadline, l)
    requires forall u: World, o: nat, l: Option<UpstreamError> :: u.clock < deadline ==>
               TurnFollows(take(u, o, l), cfg, judge(|u.issued|, Issue(start + o, native, u.clock)), o, deadline)
    ensures var after := Loop(take, cfg.maxRetries, w, offset, last);
            && FollowsPhase(judge, cfg, w, after, offset, deadline)
            && (w.clock >= deadline && last.Some? ==> after.1 == Err(last.value))
    decreases cfg.maxRetries - offset
  {
    var turn := take(w, offset, last);
    assert NumbersTurn(turn, w, native, start, offset, deadline, last);
    if w.clock < deadline {
      var issue := Issue(start + offset, native, w.clock);
      assert TurnFollows(turn, cfg, judge(|w.issued|, issue), offset, deadline);
      if turn.Again? {
        LoopFollows(take, judge, cfg, turn.w, native, start, offset + 1, deadline, Some(turn.error));
        var after := Loop(take, cfg.maxRetries, turn.w, offset + 1, Some(turn.error));
        FollowsTurn(judge, cfg, w, turn.w, issue, after, offset, deadline);
      }
    }
  }

  lemma ClientTurn(env: Environment, cfg: Settings, w: World, native: bool, start: int,
                   offset: nat, deadline: real, last: Option<UpstreamError>)
    ensures var turn := TakeTurn(env, cfg, w, native, start, offset, deadline, last);
            && NumbersTurn(turn, w, native, start, offset, deadline, last)
            && (w.clock < deadline ==>
                  var result := ResultFor(env, cfg, Issue(start + offset, native, w.clock), |w.issued|, deadline);
                  TurnFollows(turn, cfg, result, offset, deadline))
  {
  }

  /**
   A phase goes on after a request exactly as long as the request came to something retryable, and
   reports what its last request came to.  After a retryable result it stops only when it has to give
   up; it sends nothing only when the deadline has come.
   */
  lemma PostPolicy(env: Environment, cfg: Settings, w: World, native: bool, start: int, deadline: real)
    ensures FollowsPhase(ClientVerdicts(env, cfg, deadline), cfg, w,
                         Post(env, cfg, w, native, start, deadline), 0, deadline)
  {
    var take := ClientTurns(env, cfg, native, start, deadline);
    var judge := ClientVerdicts(env, cfg, deadline);
    forall u: World, o: nat, l: Option<UpstreamError>
      ensures NumbersTurn(take(u, o, l), u, native, start, o, deadline, l)
      ensures u.clock < deadline ==>
                TurnFollows(take(u, o, l), cfg, judge(|u.issued|, Issue(start + o, native, u.clock)), o, deadline)
    {
      ClientTurn(env, cfg, u, native, start, o, deadline, l);
    }
    LoopFollows(take, judge, cfg, w, native, start, 0, deadline, None);
  }

  // ---------------------------------------------------------------- what a request comes to

  /** The request takes its timeout or longer: the limit of an attempt, or what is left of the time. */
  predicate RunsOver(env: Environment, cfg: Settings, issue: Issue, n: nat, deadline: real) {
    env.duration(n) >= cfg.attemptTimeout || env.duration(n) >= deadline - issue.at
  }

  predicate RetryableStatus(code: int) {
    || code == 408 || code == 409 || code == 425 || code == 429
    || code == 500 || code == 502 || code == 503 || code == 504
  }

  /**
   A request succeeds exactly when it is answered in time; it may be tried again exactly when it ran out
   of time, the network failed, or the status is one of those that pass; an error keeps the message of the
   provider, and every result has the number of its request.
   */
  lemma ResultExactly(env: Environment, cfg: Settings, issue: Issue, n: nat, deadline: real)
    ensures var result, late := ResultFor(env, cfg, issue, n, deadline), RunsOver(env, cfg, issue, n, deadline);
            && (result.Succeeded? <==> !late && env.reply(n).Answer?)
            && (result.Succeeded? ==> result.completion == env.reply(n).completion.(attempt := issue.attempt))
            && (result.Retryable? <==>
                  late || env.reply(n).TimedOut? || env.reply(n).NetworkFailure?
                  || (env.reply(n).Status? && RetryableStatus(env.reply(n).code)))
            && (!result.Succeeded? ==> result.error.attempt == Some(issue.attempt))
            && (!late && (env.reply(n).Status? || env.reply(n).Broken?) ==>
                  !result.Succeeded? && result.error.message == env.reply(n).message)
  {
  }

  // ---------------------------------------------------------------- when a call falls back

  /** Exactly the messages with one of the markers somewhere, in letters of either case. */
  lemma RejectionExactly(error: UpstreamError)
    ensures IsNativeSchemaRejection(error) <==>
            exists i, marker ::
              && marker in {"schema", "response_format", "structured", "require_parameters", "unsupported"}
              && OccursAt(Lower(error.message), marker, i)
  {
    var text := Lower(error.message);
    if IsNativeSchemaRejection(error) {
      var k :| 0 <= k < |MARKERS| && Contains(text, MARKERS[k]);
      var i := ContainsAt(text, MARKERS[k]);
      assert OccursAt(text, MARKERS[k], i);
    }
    if i, marker :| marker in {"schema", "response_format", "structured", "require_parameters", "unsupported"}
                    && OccursAt(text, marker, i)
    {
      var k := if marker == "schema" then 0 else if marker == "response_format" then 1
               else if marker == "structured" then 2 else if marker == "require_parameters" then 3 else 4;
      assert MARKERS[k] == marker;
      AtContains(text, marker, i);
    }
  }

  predicate OccursAt(s: string, part: string, i: int) {
    0 <= i <= |s| - |part| && s[i..i + |part|] == part
  }

  lemma ContainsAt(s: string, part: string) returns (i: nat)
    requires Contains(s, part)
    ensures OccursAt(s, part, i)
  {
    if part <= s {
      i := 0;
    } else {
      var j := ContainsAt(s[1..], part);
      i := j + 1;
      assert s[1..][j..j + |part|] == s[i..i + |part|];
    }
  }

  lemma {:induction false} AtContains(s: string, part: string, i: nat)
    requires OccursAt(s, part, i)
    ensures Contains(s, part)
    decreases i
  {
    if i > 0 {
      assert s[1..][i - 1..i - 1 + |part|] == s[i..i + |part|];
      if !(part <= s) && s != [] { AtContains(s[1..], part, i - 1); }
      if s == [] { assert part <= s; }
    }
  }

  /** Lower case changes the capital letters only, each to the small letter in its place. */
  lemma LowerExactly(s: string, i: nat)
    requires i < |s|
    ensures |Lower(s)| == |s|
    ensures if 'A' <= s[i] <= 'Z' then Lower(s)[i] as int - 'a' as int == s[i] as int - 'A' as int
            else Lower(s)[i] == s[i]
  {
  }

  /** The result is an error by which the provider rejects native structured output. */
  predicate Rejected(result: AttemptResult) {
    !result.Succeeded? && IsNativeSchemaRejection(result.error)
  }

  /**
   How the two phases of a call join: the native requests come first; fallback requests follow exactly
   when the last native one was rejected and there is time left; the last request of all is reported.
   */
  ghost predicate JoinsPhases(judge: Verdicts, w: World, after: (World, Answered), deadline: real) {
    && w.issued <= after.0.issued
    && exists k :: JoinsAt(judge, NewIssues(w, after.0), |w.issued|, after, deadline, k)
  }

  /** The first k requests are the native ones. */
  predicate JoinsAt(judge: Verdicts, sent: seq<Issue>, first: nat, after: (World, Answered), deadline: real, k: nat) {
    && 0 < k <= |sent|
    && (forall j :: 0 <= j < |sent| ==> (sent[j].native <==> j < k))
    && var rejected := Rejected(judge(first + k - 1, sent[k - 1]));
       && (k < |sent| ==> rejected)
       && (k == |sent| && rejected ==> after.0.clock >= deadline)
       && (k < |sent| || !rejected ==> Reports(after.1, judge(first + |sent| - 1, sent[|sent| - 1])))
  }

  /** A request without native structured output is sent exactly after a rejection, if time is left. */
  lemma FallbackExactly(env: Environment, cfg: Settings, w: World, attempt: int)
    requires ValidSettings(cfg)
    ensures var deadline := w.clock + cfg.totalTimeout;
            JoinsPhases(ClientVerdicts(env, cfg, deadline), w, Complete(env, cfg, w, attempt), deadline)
  {
    var deadline := w.clock + cfg.totalTimeout;
    AllKept(env, cfg, deadline);
    PhasesJoin(ClientPhase(env, cfg), ClientVerdicts(env, cfg, deadline), cfg, w, attempt, deadline);
  }

  ghost predicate KeepsPhases(judge: Verdicts, cfg: Settings, phase: Phase, deadline: real) {
    forall u: World, native: bool, start: int ::
      PhaseKept(judge, cfg, u, phase(u, native, start, deadline), native, start, deadline)
  }

  lemma AllKept(env: Environment, cfg: Settings, deadline: real)
    ensures KeepsPhases(ClientVerdicts(env, cfg, deadline), cfg, ClientPhase(env, cfg), deadline)
  {
    forall u: World, native: bool, start: int
      ensures PhaseKept(ClientVerdicts(env, cfg, deadline), cfg, u, ClientPhase(env, cfg)(u, native, start, deadline),
                        native, start, deadline)
    {
      PostKept(env, cfg, u, native, start, deadline);
    }
  }

  predicate PhaseKept(judge: Verdicts, cfg: Settings, w: World, after: (World, Answered), native: bool, start: int,
                      deadline: real)
  {
    && FollowsPhase(judge, cfg, w, after, 0, deadline)
    && NumbersPhase(w, after, native, start, cfg.maxRetries + 1, deadline)
  }

  lemma PostKept(env: Environment, cfg: Settings, w: World, native: bool, start: int, deadline: real)
    ensures PhaseKept(ClientVerdicts(env, cfg, deadline), cfg, w, ClientPhase(env, cfg)(w, native, start, deadline),
                      native, start, deadline)
  {
    PostPolicy(env, cfg, w, native, start, deadline);
    PostNumbers(env, cfg, w, native, start, deadline);
  }

  lemma PhasesJoin(phase: Phase, judge: Verdicts, cfg: Settings, w: World, attempt: int, deadline: real)
    requires KeepsPhases(judge, cfg, phase, deadline)
    requires w.clock < deadline
    ensures JoinsPhases(judge, w, BothPhases(phase, w, attempt, deadline), deadline)
  {
    var start := if attempt > 1 then attempt else 1;
    var one := phase(w, true, start, deadline);
    assert PhaseKept(judge, cfg, w, one, true, start, deadline);
    var sent := NewIssues(w, one.0);
    var last := judge(|w.issued| + |sent| - 1, sent[|sent| - 1]);
    assert one.1.Err? && IsNativeSchemaRejection(one.1.error) <==> Rejected(last);
    if Rejected(last) {
      var next := FallbackAttempt(one.1.error, start);
      var two := phase(one.0, false, next, deadline);
      assert PhaseKept(judge, cfg, one.0, two, false, next, deadline);
      TwoPhases(judge, w, one.0, two, deadline);
    } else {
      assert JoinsAt(judge, sent, |w.issued|, one, deadline, |sent|);
    }
  }

  lemma TwoPhases(judge: Verdicts, w: World, w1: World, after: (World, Answered), deadline: real)
    requires w.issued <= w1.issued <= after.0.issued && NewIssues(w, w1) != []
    requires forall j :: 0 <= j < |NewIssues(w, w1)| ==> NewIssues(w, w1)[j].native
    requires forall j :: 0 <= j < |NewIssues(w1, after.0)| ==> !NewIssues(w1, after.0)[j].native
    requires var n := |w1.issued|;
             && Rejected(judge(n - 1, w1.issued[n - 1]))
             && (NewIssues(w1, after.0) == [] ==> after.0.clock >= deadline)
             && Follows(judge, NewIssues(w1, after.0), n, after.1)
    ensures JoinsPhases(judge, w, after, deadline)
  {
    var one, two, all := NewIssues(w, w1), NewIssues(w1, after.0), NewIssues(w, after.0);
    assert all == one + two;
    var k := |one|;
    assert all[k - 1] == w1.issued[|w1.issued| - 1] && |w.issued| + k == |w1.issued|;
    assert forall j :: 0 <= j < |all| ==> (all[j].native <==> j < k);
    if two != [] { assert all[|all| - 1] == two[|two| - 1]; }
    assert JoinsAt(judge, all, |w.issued|, after, deadline, k);
  }

  // ---------------------------------------------------------------- time

  /** No request before `from` nor at or after the deadline. */
  predicate IssuedWithin(issues: seq<Issue>, from: real, deadline: real) {
    forall j :: 0 <= j < |issues| ==> from <= issues[j].at < deadline
  }

  /** Time only passes up to the deadline, and requests are sent before it. */
  predicate Timely(w: World, w1: World, deadline: real) {
    && w.issued <= w1.issued
    && w.clock <= w1.clock <= deadline
    && IssuedWithin(NewIssues(w, w1), w.clock, deadline)
  }

  lemma TimelyAppend(w: World, w1: World, w2: World, deadline: real)
    requires Timely(w, w1, deadline) && Timely(w1, w2, deadline)
    ensures Timely(w, w2, deadline)
  {
    assert NewIssues(w, w2) == NewIssues(w, w1) + NewIssues(w1, w2);
  }

  lemma {:induction false} LoopTime(take: Turns, max: nat, w: World, offset: nat, deadline: real,
                                    last: Option<UpstreamError>)
    requires offset <= max && Bounded(take, max) && w.clock <= deadline
    requires forall u: World, o: nat, l: Option<UpstreamError> ::
               u.clock <= deadline ==> Timely(u, take(u, o, l).w, deadline)
    ensures Timely(w, Loop(take, max, w, offset, last).0, deadline)
    decreases max - offset
  {
    var turn := take(w, offset, last);
    if turn.Again? {
      LoopTime(take, max, turn.w, offset + 1, deadline, Some(turn.error));
      TimelyAppend(w, turn.w, Loop(take, max, turn.w, offset + 1, Some(turn.error)).0, deadline);
    }
  }

  lemma TurnTime(env: Environment, cfg: Settings, w: World, native: bool, start: int,
                 offset: nat, deadline: real, last: Option<UpstreamError>)
    requires ValidEnvironment(env) && ValidSettings(cfg) && w.clock <= deadline
    ensures Timely(w, TakeTurn(env, cfg, w, native, start, offset, deadline, last).w, deadline)
  {
    var n := |w.issued|;
    assert env.duration(n) >= 0.0 && 0.0 <= env.jitter(n) <= 1.0;
    var remaining := deadline - w.clock;
    if remaining > 0.0 {
      var (w1, r) := Attempt(env, w, native, start + offset, Min(cfg.attemptTimeout, remaining));
      SettleTime(cfg, w1, r, offset, deadline, env.jitter(n));
    }
  }

  lemma SettleTime(cfg: Settings, w: World, result: AttemptResult, offset: nat, deadline: real, jitter: real)
    requires cfg.backoff >= 0.0 && 0.0 <= jitter <= 1.0 && w.clock <= deadline
    ensures var turn := Settle(cfg, w, result, offset, deadline, jitter);
            turn.w.issued == w.issued && w.clock <= turn.w.clock <= deadline
  {
    JitterBound(cfg, offset, jitter);
  }

  lemma JitterBound(cfg: Settings, offset: nat, jitter: real)
    requires cfg.backoff >= 0.0 && 0.0 <= jitter <= 1.0
    ensures 0.0 <= Uniform(Nominal(cfg, offset), jitter) <= Nominal(cfg, offset)
  {
    ProductSign(cfg.backoff, Pow2(offset) as real);
    ProductSign(jitter, Nominal(cfg, offset));
    ProductSign(1.0 - jitter, Nominal(cfg, offset));
  }

  lemma ProductSign(a: real, b: real)
    requires a >= 0.0 && b >= 0.0
    ensures a * b >= 0.0
  {
  }

  lemma PostTime(env: Environment, cfg: Settings, w: World, native: bool, start: int, deadline: real)
    requires ValidEnvironment(env) && ValidSettings(cfg) && w.clock <= deadline
    ensures Timely(w, Post(env, cfg, w, native, start, deadline).0, deadline)
  {
    var take := ClientTurns(env, cfg, native, start, deadline);
    forall u: World, o: nat, l: Option<UpstreamError> | u.clock <= deadline
      ensures Timely(u, take(u, o, l).w, deadline)
    {
      TurnTime(env, cfg, u, native, start, o, deadline, l);
    }
    LoopTime(take, cfg.maxRetries, w, 0, deadline, None);
  }

  /** A call ends by its deadline, and sends no request at or after it, in either phase. */
  lemma CompleteTime(env: Environment, cfg: Settings, w: World, attempt: int)
    requires ValidEnvironment(env) && ValidSettings(cfg)
    ensures Timely(w, Complete(env, cfg, w, attempt).0, w.clock + cfg.totalTimeout)
  {
    var deadline := w.clock + cfg.totalTimeout;
    forall u: World, native: bool, start: int | u.clock <= deadline
      ensures Timely(u, ClientPhase(env, cfg)(u, native, start, deadline).0, deadline)
    {
      PostTime(env, cfg, u, native, start, deadline);
    }
    PhasesTime(ClientPhase(env, cfg), w, attempt, deadline);
  }

  lemma PhasesTime(phase: Phase, w: World, attempt: int, deadline: real)
    requires forall u: World, native, start ::
               u.clock <= deadline ==> Timely(u, phase(u, native, start, deadline).0, deadline)
    requires w.clock <= deadline
    ensures Timely(w, BothPhases(phase, w, attempt, deadline).0, deadline)
  {
    var start := if attempt > 1 then attempt else 1;
    var (w1, r) := phase(w, true, start, deadline);
    assert Timely(w, phase(w, true, start, deadline).0, deadline);
    if r.Err? {
      TimelyAppend(w, w1, phase(w1, false, FallbackAttempt(r.error, start), deadline).0, deadline);
    }
  }

  // ---------------------------------------------------------------- where the time goes

  /** How long a request takes, for its position in the log, and the sleep after it, which has to fit. */
  datatype Pace = Pace(took: (nat, Issue) -> real, nap: (nat, nat) -> real, fits: (nat, Issue, nat) -> bool)

  function ClientPace(env: Environment, cfg: Settings, deadline: real): Pace {
    Pace((n: nat, issue: Issue) => Taken(env, cfg, issue, n, deadline),
         (n: nat, offset: nat) => env.jitter(n) * (cfg.backoff * Pow2(offset) as real),
         (n: nat, issue: Issue, offset: nat) =>
           offset < cfg.maxRetries
           && issue.at + Taken(env, cfg, issue, n, deadline) + cfg.backoff * Pow2(offset) as real < deadline)
  }

  /** The duration of the request, its limit, or the time that is left: whichever is shortest. */
  function Taken(env: Environment, cfg: Settings, issue: Issue, n: nat, deadline: real): real {
    Min(env.duration(n), Min(cfg.attemptTimeout, deadline - issue.at))
  }

  /** The requests follow one another after their durations and the sleeps between them. */
  predicate Paced(pace: Pace, sent: seq<Issue>, naps: seq<real>, first: nat, offset: nat, from: real, to: real) {
    && (|naps| == |sent| || |naps| == |sent| - 1)
    && NapsPaced(pace, naps, first, offset)
    && (forall j :: 0 <= j < |naps| ==> pace.fits(first + j, sent[j], offset + j))
    && (if sent == [] then to == from else sent[0].at == from && IssuesPaced(pace, sent, naps, first))
    && (sent != [] ==>
          var last := |sent| - 1;
          to == sent[last].at + pace.took(first + last, sent[last]) + (if |naps| == |sent| then naps[last] else 0.0))
  }

  predicate NapsPaced(pace: Pace, naps: seq<real>, first: nat, offset: nat) {
    forall j :: 0 <= j < |naps| ==> naps[j] == pace.nap(first + j, offset + j)
  }

  predicate IssuesPaced(pace: Pace, sent: seq<Issue>, naps: seq<real>, first: nat)
    requires |naps| >= |sent| - 1
  {
    forall j :: 0 <= j < |sent| - 1 ==> sent[j + 1].at == sent[j].at + pace.took(first + j, sent[j]) + naps[j]
  }

  /** A turn before the deadline takes as long as its request and, before another turn, its sleep. */
  predicate PacesTurn(pace: Pace, turn: Turn, w: World, issue: Issue, offset: nat) {
    var nap := pace.nap(|w.issued|, offset);
    && (turn.Again? ==> pace.fits(|w.issued|, issue, offset))
    && turn.w.slept == w.slept + (if turn.Again? then [nap] else [])
    && turn.w.clock == w.clock + pace.took(|w.issued|, issue) + (if turn.Again? then nap else 0.0)
  }

  ghost predicate PacesPhase(pace: Pace, w: World, after: World, offset: nat) {
    && w.issued <= after.issued && w.slept <= after.slept
    && Paced(pace, NewIssues(w, after), after.slept[|w.slept|..], |w.issued|, offset, w.clock, after.clock)
  }

  lemma PacedStep(pace: Pace, issue: Issue, nap: real, sent: seq<Issue>, naps: seq<real>,
                  first: nat, offset: nat, from: real, to: real)
    requires issue.at == from && nap == pace.nap(first, offset) && pace.fits(first, issue, offset)
    requires Paced(pace, sent, naps, first + 1, offset + 1, from + pace.took(first, issue) + nap, to)
    ensures Paced(pace, [issue] + sent, [nap] + naps, first, offset, from, to)
  {
    NapsStep(pace, nap, naps, first, offset);
    forall j | 0 <= j < |[nap] + naps| ensures pace.fits(first + j, ([issue] + sent)[j], offset + j) {
      if j > 0 { assert pace.fits(first + 1 + (j - 1), sent[j - 1], offset + 1 + (j - 1)); }
    }
    if sent != [] {
      IssuesStep(pace, issue, nap, sent, naps, first);
      var all := [issue] + sent;
      assert all[|all| - 1] == sent[|sent| - 1];
    }
  }

  lemma NapsStep(pace: Pace, nap: real, naps: seq<real>, first: nat, offset: nat)
    requires nap == pace.nap(first, offset) && NapsPaced(pace, naps, first + 1, offset + 1)
    ensures NapsPaced(pace, [nap] + naps, first, offset)
  {
    var all := [nap] + naps;
    forall j | 0 <= j < |all| ensures all[j] == pace.nap(first + j, offset + j) {
      if j > 0 { assert naps[j - 1] == pace.nap(first + 1 + (j - 1), offset + 1 + (j - 1)); }
    }
  }

  lemma IssuesStep(pace: Pace, issue: Issue, nap: real, sent: seq<Issue>, naps: seq<real>, first: nat)
    requires sent != [] && |naps| >= |sent| - 1 && IssuesPaced(pace, sent, naps, first + 1)
    requires sent[0].at == issue.at + pace.took(first, issue) + nap
    ensures IssuesPaced(pace, [issue] + sent, [nap] + naps, first)
  {
    var all, sleeps := [issue] + sent, [nap] + naps;
    forall j | 0 <= j < |all| - 1
      ensures all[j + 1].at == all[j].at + pace.took(first + j, all[j]) + sleeps[j]
    {
      if j > 0 {
        assert sent[j].at == sent[j - 1].at + pace.took(first + 1 + (j - 1), sent[j - 1]) + naps[j - 1];
      }
    }
  }

  lemma {:induction false} LoopPace(take: Turns, pace: Pace, max: nat, w: World, native: bool, start: int, offset: nat,
                                    deadline: real, last: Option<UpstreamError>)
    requires offset <= max && Bounded(take, max)
    requires forall u: World, o: nat, l: Option<UpstreamError> ::
               NumbersTurn(take(u, o, l), u, native, start, o, deadline, l)
    requires forall u: World, o: nat, l: Option<UpstreamError> :: u.clock < deadline ==>
               PacesTurn(pace, take(u, o, l), u, Issue(start + o, native, u.clock), o)
    ensures PacesPhase(pace, w, Loop(take, max, w, offset, last).0, offset)
    decreases max - offset
  {
    var turn := take(w, offset, last);
    assert NumbersTurn(turn, w, native, start, offset, deadline, last);
    if w.clock < deadline {
      var issue := Issue(start + offset, native, w.clock);
      assert PacesTurn(pace, turn, w, issue, offset);
      if turn.Again? {
        LoopPace(take, pace, max, turn.w, native, start, offset + 1, deadline, Some(turn.error));
        TurnPaces(pace, w, turn, issue, Loop(take, max, turn.w, offset + 1, Some(turn.error)).0, offset);
      }
    }
  }

  lemma TurnPaces(pace: Pace, w: World, turn: Turn, issue: Issue, after: World, offset: nat)
    requires turn.Again? && w.issued <= turn.w.issued && NewIssues(w, turn.w) == [issue] && issue.at == w.clock
    requires PacesTurn(pace, turn, w, issue, offset) && PacesPhase(pace, turn.w, after, offset + 1)
    ensures PacesPhase(pace, w, after, offset)
  {
    var nap := pace.nap(|w.issued|, offset);
    var sent, naps := NewIssues(turn.w, after), after.slept[|turn.w.slept|..];
    Extends(w.issued, issue, turn.w.issued, after.issued);
    Extends(w.slept, nap, turn.w.slept, after.slept);
    PacedStep(pace, issue, nap, sent, naps, |w.issued|, offset, w.clock, after.clock);
  }

  lemma Extends<X>(a: seq<X>, x: X, b: seq<X>, c: seq<X>)
    requires a <= b <= c && b[|a|..] == [x]
    ensures b == a + [x] && |b| == |a| + 1 && c[|a|..] == [x] + c[|b|..]
  {
    assert |b[|a|..]| == 1;
    assert b == a + b[|a|..];
  }

  /**
   Where the time of a phase goes: each request is sent as soon as the sleep before it is over, takes its
   duration up to its timeout, and the sleep after the j-th one is a fraction of backoff * 2^j, which all of
   it would have fitted the time that was left.
   */
  lemma PostPace(env: Environment, cfg: Settings, w: World, native: bool, start: int, deadline: real)
    ensures PacesPhase(ClientPace(env, cfg, deadline), w, Post(env, cfg, w, native, start, deadline).0, 0)
  {
    var take := ClientTurns(env, cfg, native, start, deadline);
    var pace := ClientPace(env, cfg, deadline);
    forall u: World, o: nat, l: Option<UpstreamError>
      ensures NumbersTurn(take(u, o, l), u, native, start, o, deadline, l)
      ensures u.clock < deadline ==> PacesTurn(pace, take(u, o, l), u, Issue(start + o, native, u.clock), o)
    {
      ClientTurn(env, cfg, u, native, start, o, deadline, l);
      TurnPace(env, cfg, u, native, start, o, deadline, l);
    }
    LoopPace(take, pace, cfg.maxRetries, w, native, start, 0, deadline, None);
  }

  lemma TurnPace(env: Environment, cfg: Settings, w: World, native: bool, start: int,
                 offset: nat, deadline: real, last: Option<UpstreamError>)
    ensures w.clock < deadline ==>
              PacesTurn(ClientPace(env, cfg, deadline), TakeTurn(env, cfg, w, native, start, offset, deadline, last), w,
                        Issue(start + offset, native, w.clock), offset)
  {
    var remaining := deadline - w.clock;
    if remaining > 0.0 {
      var (w1, r) := Attempt(env, w, native, start + offset, Min(cfg.attemptTimeout, remaining));
      SettlePace(cfg, w1, r, offset, deadline, env.jitter(|w.issued|));
    }
  }

  lemma SettlePace(cfg: Settings, w: World, result: AttemptResult, offset: nat, deadline: real, jitter: real)
    ensures var turn := Settle(cfg, w, result, offset, deadline, jitter);
            var nominal := cfg.backoff * Pow2(offset) as real;
            if turn.Stop? then turn.w.clock == w.clock && turn.w.slept == w.slept
            else
              && turn.w.clock == w.clock + jitter * nominal && turn.w.slept == w.slept + [jitter * nominal]
              && offset < cfg.maxRetries && w.clock + nominal < deadline
  {
  }

  // ---------------------------------------------------------------- sleep

  function Total(xs: seq<real>): real {
    if xs == [] then 0.0 else Total(xs[..|xs| - 1]) + xs[|xs| - 1]
  }

  /** A turn sleeps at most its nominal backoff, and only before another turn. */
  predicate SleepsTurn(turn: Turn, cfg: Settings, w: World, offset: nat) {
    if turn.Stop? then turn.w.slept == w.slept
    else Total(turn.w.slept) <= Total(w.slept) + Nominal(cfg, offset)
  }

  lemma {:induction false} LoopSleep(take: Turns, cfg: Settings, w: World, offset: nat, last: Option<UpstreamError>)
    requires offset <= cfg.maxRetries && Bounded(take, cfg.maxRetries) && cfg.backoff >= 0.0
    requires forall u: World, o: nat, l: Option<UpstreamError> :: SleepsTurn(take(u, o, l), cfg, u, o)
    ensures Total(Loop(take, cfg.maxRetries, w, offset, last).0.slept)
            <= Total(w.slept) + (Nominal(cfg, cfg.maxRetries) - Nominal(cfg, offset))
    decreases cfg.maxRetries - offset
  {
    NominalGrows(cfg, offset, cfg.maxRetries);
    var turn := take(w, offset, last);
    assert SleepsTurn(turn, cfg, w, offset);
    if turn.Again? {
      NominalDoubles(cfg, offset);
      LoopSleep(take, cfg, turn.w, offset + 1, Some(turn.error));
    }
  }

  lemma TurnSleep(env: Environment, cfg: Settings, w: World, native: bool, start: int,
                  offset: nat, deadline: real, last: Option<UpstreamError>)
    requires ValidEnvironment(env) && ValidSettings(cfg)
    ensures SleepsTurn(TakeTurn(env, cfg, w, native, start, offset, deadline, last), cfg, w, offset)
  {
    var n := |w.issued|;
    assert 0.0 <= env.jitter(n) <= 1.0;
    var remaining := deadline - w.clock;
    if remaining > 0.0 {
      var (w1, r) := Attempt(env, w, native, start + offset, Min(cfg.attemptTimeout, remaining));
      SettleSleep(cfg, w1, r, offset, deadline, env.jitter(n));
    }
  }

  lemma SettleSleep(cfg: Settings, w: World, result: AttemptResult, offset: nat, deadline: real, jitter: real)
    requires cfg.backoff >= 0.0 && 0.0 <= jitter <= 1.0
    ensures SleepsTurn(Settle(cfg, w, result, offset, deadline, jitter), cfg, w, offset)
  {
    var turn := Settle(cfg, w, result, offset, deadline, jitter);
    JitterBound(cfg, offset, jitter);
    if turn.Again? { assert turn.w.slept[..|turn.w.slept| - 1] == w.slept; }
  }

  lemma NominalDoubles(cfg: Settings, offset: nat)
    ensures Nominal(cfg, offset + 1) == Nominal(cfg, offset) + Nominal(cfg, offset)
  {
    assert Pow2(offset + 1) as real == Pow2(offset) as real + Pow2(offset) as real;
  }

  lemma {:induction false} NominalGrows(cfg: Settings, a: nat, b: nat)
    requires cfg.backoff >= 0.0 && a <= b
    ensures 0.0 <= Nominal(cfg, a) <= Nominal(cfg, b)
    decreases b
  {
    ProductSign(cfg.backoff, Pow2(a) as real);
    if a < b {
      NominalGrows(cfg, a, b - 1);
      NominalDoubles(cfg, b - 1);
    }
  }

  /** The longest a phase can sleep: backoff * (2^maxRetries - 1). */
  function SleepBudget(cfg: Settings): real {
    cfg.backoff * (Pow2(cfg.maxRetries) - 1) as real
  }

  lemma PostSleep(env: Environment, cfg: Settings, w: World, native: bool, start: int, deadline: real)
    requires ValidEnvironment(env) && ValidSettings(cfg)
    ensures Total(Post(env, cfg, w, native, start, deadline).0.slept) <= Total(w.slept) + SleepBudget(cfg)
  {
    var take := ClientTurns(env, cfg, native, start, deadline);
    forall u: World, o: nat, l: Option<UpstreamError> ensures SleepsTurn(take(u, o, l), cfg, u, o) {
      TurnSleep(env, cfg, u, native, start, o, deadline, l);
    }
    LoopSleep(take, cfg, w, 0, None);
    BudgetIsNominal(cfg);
  }

  lemma BudgetIsNominal(cfg: Settings)
    ensures SleepBudget(cfg) == Nominal(cfg, cfg.maxRetries) - Nominal(cfg, 0)
  {
    assert (Pow2(cfg.maxRetries) - 1) as real == Pow2(cfg.maxRetries) as real - 1.0;
  }

  /** A call sleeps at most 2 * backoff * (2^maxRetries - 1). */
  lemma CompleteSleep(env: Environment, cfg: Settings, w: World, attempt: int)
    requires ValidEnvironment(env) && ValidSettings(cfg)
    ensures Total(Complete(env, cfg, w, attempt).0.slept) - Total(w.slept) <= 2.0 * SleepBudget(cfg)
  {
    var deadline := w.clock + cfg.totalTimeout;
    forall u: World, native: bool, start: int
      ensures Total(ClientPhase(env, cfg)(u, native, start, deadline).0.slept) <= Total(u.slept) + SleepBudget(cfg)
    {
      PostSleep(env, cfg, u, native, start, deadline);
    }
    ProductSign(cfg.backoff, (Pow2(cfg.maxRetries) - 1) as real);
    PhasesSleep(ClientPhase(env, cfg), SleepBudget(cfg), w, attempt, deadline);
  }

  lemma PhasesSleep(phase: Phase, budget: real, w: World, attempt: int, deadline: real)
    requires forall u: World, native, start ::
               Total(phase(u, native, start, deadline).0.slept) <= Total(u.slept) + budget
    requires budget >= 0.0
    ensures Total(BothPhases(phase, w, attempt, deadline).0.slept) <= Total(w.slept) + budget + budget
  {
  }

  // ---------------------------------------------------------------- usage

  function RecordsOf(r: Answered): seq<UsageRecord> {
    if r.Ok? then [RecordOf(r.value)] else []
  }

  /** A turn records the completion it stops with, and nothing else. */
  predicate RecordsTurn(turn: Turn, w: World) {
    turn.w.records == w.records + (if turn.Stop? then RecordsOf(turn.r) else [])
  }

  lemma {:induction false} LoopRecords(take: Turns, max: nat, w: World, offset: nat, last: Option<UpstreamError>)
    requires offset <= max && Bounded(take, max)
    requires forall u: World, o: nat, l: Option<UpstreamError> :: RecordsTurn(take(u, o, l), u)
    ensures var after := Loop(take, max, w, offset, last);
            after.0.records == w.records + RecordsOf(after.1)
    decreases max - offset
  {
    var turn := take(w, offset, last);
    assert RecordsTurn(turn, w);
    if turn.Again? {
      assert turn.w.records == w.records;
      LoopRecords(take, max, turn.w, offset + 1, Some(turn.error));
    }
  }

  lemma PostRecords(env: Environment, cfg: Settings, w: World, native: bool, start: int, deadline: real)
    ensures var after := Post(env, cfg, w, native, start, deadline);
            after.0.records == w.records + RecordsOf(after.1)
  {
    var take := ClientTurns(env, cfg, native, start, deadline);
    forall u: World, o: nat, l: Option<UpstreamError> ensures RecordsTurn(take(u, o, l), u) {
      var turn := TakeTurn(env, cfg, u, native, start, o, deadline, l);
      assert RecordsTurn(turn, u);
    }
    LoopRecords(take, cfg.maxRetries, w, 0, None);
  }

  /** The record has the model, the tokens and the cost of the completion, each in its place. */
  predicate Keeps(u: UsageRecord, c: Completion) {
    && u.model == c.model && u.cost == c.cost
    && u.promptTokens == c.promptTokens && u.completionTokens == c.completionTokens && u.totalTokens == c.totalTokens
  }

  /** A call that returns adds exactly the record of its completion; one that raises adds none. */
  lemma CompleteRecords(env: Environment, cfg: Settings, w: World, attempt: int)
    ensures var after := Complete(env, cfg, w, attempt);
            after.0.records == w.records + RecordsOf(after.1)
    ensures var after := Complete(env, cfg, w, attempt);
            after.1.Ok? ==> Keeps(after.0.records[|after.0.records| - 1], after.1.value)
  {
    var deadline := w.clock + cfg.totalTimeout;
    forall u: World, native: bool, start: int
      ensures var after := ClientPhase(env, cfg)(u, native, start, deadline);
              after.0.records == u.records + RecordsOf(after.1)
    {
      PostRecords(env, cfg, u, native, start, deadline);
    }
    PhasesRecord(ClientPhase(env, cfg), w, attempt, deadline);
  }

  lemma PhasesRecord(phase: Phase, w: World, attempt: int, deadline: real)
    requires forall u: World, native, start ::
               var after := phase(u, native, start, deadline); after.0.records == u.records + RecordsOf(after.1)
    ensures var after := BothPhases(phase, w, attempt, deadline);
            after.0.records == w.records + RecordsOf(after.1)
  {
    var start := if attempt > 1 then attempt else 1;
    var (w1, r) := phase(w, true, start, deadline);
    if r.Err? { assert w1.records == w.records; }
  }
}
