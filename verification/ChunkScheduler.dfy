/**
 The chunk tasks of one document, run concurrently under a semaphore.  A schedule picks which task
 moves next; a task moves by acquiring a permit or by one completion call with its validation.  A
 call is one move although it waits inside, at each request and each backoff: in between it changes
 neither permits nor the tracker, so a schedule orders the calls by when they end.
 */
module ChunkScheduler {
  import opened Wrappers
  import opened Client
  import opened Service

  /** What the k-th completion call of the i-th task gives. */
  type Script = (nat, nat) -> Answered

  datatype Task<T> =
    | Waiting
    | Running(moreTries: nat, repairing: bool, calls: nat)
    | Finished(result: Outcome<T>)

  // ---------------------------------------------------------------- one task

  /** The state after acquiring a permit. */
  function Started<T>(): Task<T> {
    Running(CHUNK_TRIES - 1, false, 0)
  }

  /** The state after a try has failed. */
  function FailedTry<T>(t: Task<T>, error: ServiceError): Task<T>
    requires t.Running?
  {
    if t.moreTries > 0 then Running(t.moreTries - 1, false, t.calls + 1) else Finished(Err(error))
  }

  /** One completion call of a running task, with the validation of its answer. */
  function Advance<T>(t: Task<T>, reply: Answered, accept: Acceptor<T>): Task<T>
    requires t.Running?
  {
    var judged := Judge(reply, accept);
    if judged.Ok? then Finished(judged)
    else if reply.Ok? && !t.repairing then Running(t.moreTries, true, t.calls + 1)
    else FailedTry(t, judged.error)
  }

  /** An upper bound on the moves a task still makes. */
  function Moves<T>(t: Task<T>): nat {
    match t
    case Waiting => 1 + 2 * CHUNK_TRIES
    case Running(more, repairing, _) => 2 * more + (if repairing then 1 else 2)
    case Finished(_) => 0
  }

  /** What a task comes to when it runs on alone. */
  function Final<T>(script: Script, accept: Acceptor<T>, i: nat, t: Task<T>): Outcome<T>
    decreases Moves(t)
  {
    match t
    case Waiting => Final(script, accept, i, Started())
    case Running(_, _, calls) => Final(script, accept, i, Advance(t, script(i, calls), accept))
    case Finished(result) => result
  }

  /** The records that the calls a task still makes will add to the tracker. */
  function Future<T>(script: Script, accept: Acceptor<T>, i: nat, t: Task<T>): multiset<UsageRecord>
    decreases Moves(t)
  {
    match t
    case Waiting => Future(script, accept, i, Started())
    case Running(_, _, calls) =>
      multiset(RecordsOf(script(i, calls))) + Future(script, accept, i, Advance(t, script(i, calls), accept))
    case Finished(_) => multiset{}
  }

  /** Data that a task comes to was accepted by validation. */
  lemma {:induction false} FinalAccepted<T>(script: Script, accept: Acceptor<T>, i: nat, t: Task<T>)
    requires !t.Finished?
    ensures var r := Final(script, accept, i, t);
            r.Ok? ==> accept(r.value.completion.content) == Some(r.value.data)
    decreases Moves(t)
  {
    match t
    case Waiting => FinalAccepted(script, accept, i, Started());
    case Running(_, _, calls) =>
      var next := Advance(t, script(i, calls), accept);
      if !next.Finished? { FinalAccepted(script, accept, i, next); }
  }

  // ---------------------------------------------------------------- a task is a chunk

  /** The calls of task i from `calls` on give these replies. */
  predicate Scripted(script: Script, i: nat, calls: nat, replies: seq<Answered>) {
    forall j :: 0 <= j < |replies| ==> script(i, calls + j) == replies[j]
  }

  /**
   A task that runs alone comes to what the chunk procedure returns, whatever client answers it: the
   moves of a task are those of the procedure, cut at its calls.
   */
  lemma {:induction false} TaskIsChunk<T>(script: Script, complete: Completer, w: World, accept: Acceptor<T>,
                                          i: nat, tries: nat, calls: nat)
    requires tries > 0
    requires Scripted(script, i, calls, RunChunk(complete, w, accept, tries).replies)
    ensures Final(script, accept, i, Running(tries - 1, false, calls)) == RunChunk(complete, w, accept, tries).result
    decreases tries
  {
    var first := CompleteAndValidate(complete, w, accept);
    var whole := RunChunk(complete, w, accept, tries);
    assert first.replies <= whole.replies;
    assert Scripted(script, i, calls, first.replies);
    TryIsValidation(script, complete, w, accept, i, tries, calls);
    if first.result.Err? && tries > 1 {
      var rest := RunChunk(complete, first.w, accept, tries - 1);
      assert whole.replies == first.replies + rest.replies;
      forall j | 0 <= j < |rest.replies| ensures script(i, calls + |first.replies| + j) == rest.replies[j] {
        assert rest.replies[j] == whole.replies[|first.replies| + j];
      }
      TaskIsChunk(script, complete, first.w, accept, i, tries - 1, calls + |first.replies|);
    }
  }

  /** A task that waits comes to what the procedure returns with all the tries of a chunk. */
  lemma WaitingIsChunk<T>(script: Script, complete: Completer, w: World, accept: Acceptor<T>, i: nat)
    requires Scripted(script, i, 0, RunChunk(complete, w, accept, CHUNK_TRIES).replies)
    ensures Final(script, accept, i, Waiting) == RunChunk(complete, w, accept, CHUNK_TRIES).result
  {
    TaskIsChunk(script, complete, w, accept, i, CHUNK_TRIES, 0);
  }

  /** One try of a task is one validated completion. */
  lemma TryIsValidation<T>(script: Script, complete: Completer, w: World, accept: Acceptor<T>,
                           i: nat, tries: nat, calls: nat)
    requires tries > 0
    requires Scripted(script, i, calls, CompleteAndValidate(complete, w, accept).replies)
    ensures var e := CompleteAndValidate(complete, w, accept);
            Final(script, accept, i, Running(tries - 1, false, calls)) ==
            if e.result.Ok? || tries == 1 then e.result
            else Final(script, accept, i, Running(tries - 2, false, calls + |e.replies|))
  {
    var e := CompleteAndValidate(complete, w, accept);
    assert script(i, calls + 0) == e.replies[0];
    var t: Task<T> := Running(tries - 1, false, calls);
    var next := Advance(t, e.replies[0], accept);
    assert Final(script, accept, i, t) == Final(script, accept, i, next);
    if |e.replies| == 2 {
      assert script(i, calls + 1) == e.replies[1];
      assert next == Running(tries - 1, true, calls + 1);
      var last := Advance(next, e.replies[1], accept);
      assert Final(script, accept, i, next) == Final(script, accept, i, last);
    }
  }

  // ---------------------------------------------------------------- all tasks

  /** The tasks, the free permits, the tracker, and the records of completions that were rejected. */
  datatype Pool<T> = Pool(
    tasks: seq<Task<T>>, permits: int, tracker: seq<UsageRecord>, rejected: seq<UsageRecord>)

  /** Task i acquires a permit, or makes one call. */
  datatype Move = Acquire(i: nat) | Ask(i: nat)

  function Initial<T>(n: nat, capacity: nat): Pool<T> {
    Pool(seq(n, _ => Waiting), capacity, [], [])
  }

  predicate Enabled<T>(p: Pool<T>, move: Move) {
    && move.i < |p.tasks|
    && match move
       case Acquire(i) => p.tasks[i].Waiting? && p.permits > 0
       case Ask(i) => p.tasks[i].Running?
  }

  function RejectedBy<T>(accept: Acceptor<T>, reply: Answered): seq<UsageRecord> {
    if Unusable(accept, reply) then RecordsOf(reply) else []
  }

  /** A task gives its permit back when it finishes, whether it succeeded or failed. */
  function Moved<T>(script: Script, accept: Acceptor<T>, p: Pool<T>, move: Move): Pool<T>
    requires Enabled(p, move)
  {
    match move
    case Acquire(i) => p.(tasks := p.tasks[i := Started()], permits := p.permits - 1)
    case Ask(i) =>
      var reply := script(i, p.tasks[i].calls);
      var next := Advance(p.tasks[i], reply, accept);
      Pool(p.tasks[i := next], p.permits + (if next.Finished? then 1 else 0),
           p.tracker + RecordsOf(reply), p.rejected + RejectedBy(accept, reply))
  }

  /** A schedule: moves that are enabled one after the other. */
  predicate Schedules<T>(script: Script, accept: Acceptor<T>, p: Pool<T>, moves: seq<Move>)
    decreases |moves|
  {
    moves == [] || (Enabled(p, moves[0]) && Schedules(script, accept, Moved(script, accept, p, moves[0]), moves[1..]))
  }

  function After<T>(script: Script, accept: Acceptor<T>, p: Pool<T>, moves: seq<Move>): Pool<T>
    requires Schedules(script, accept, p, moves)
    decreases |moves|
  {
    if moves == [] then p else After(script, accept, Moved(script, accept, p, moves[0]), moves[1..])
  }

  // ---------------------------------------------------------------- sums over tasks

  /** The sum of a weight over the tasks from position i on. */
  function Weigh<T>(weight: (nat, Task<T>) -> int, tasks: seq<Task<T>>, i: nat): int
    decreases |tasks| - i
  {
    if i >= |tasks| then 0 else weight(i, tasks[i]) + Weigh(weight, tasks, i + 1)
  }

  lemma {:induction false} WeighUpdate<T>(weight: (nat, Task<T>) -> int, tasks: seq<Task<T>>, i: nat, j: nat,
                                          t: Task<T>)
    requires j < |tasks|
    ensures Weigh(weight, tasks[j := t], i)
            == Weigh(weight, tasks, i) + (if i <= j then weight(j, t) - weight(j, tasks[j]) else 0)
    decreases |tasks| - i
  {
    if i < |tasks| { WeighUpdate(weight, tasks, i + 1, j, t); }
  }

  function IsRunning<T>(i: nat, t: Task<T>): int {
    if t.Running? then 1 else 0
  }

  function MovesOf<T>(i: nat, t: Task<T>): int {
    Moves(t)
  }

  // ---------------------------------------------------------------- invariants of every schedule

  /** Permits and running tasks add up to the capacity, and no task strays from its own course. */
  ghost predicate Consistent<T>(script: Script, accept: Acceptor<T>, capacity: nat, p: Pool<T>) {
    && p.permits >= 0
    && p.permits + Weigh(IsRunning, p.tasks, 0) == capacity
    && forall i :: 0 <= i < |p.tasks| ==>
         Final(script, accept, i, p.tasks[i]) == Final(script, accept, i, Waiting)
  }

  lemma InitialConsistent<T>(script: Script, accept: Acceptor<T>, capacity: nat, n: nat)
    ensures Consistent(script, accept, capacity, Initial<T>(n, capacity))
  {
    NothingWeighs(IsRunning<T>, n, 0);
  }

  lemma {:induction false} NothingWeighs<T>(weight: (nat, Task<T>) -> int, n: nat, i: nat)
    requires forall k :: weight(k, Waiting) == 0
    ensures Weigh(weight, seq(n, _ => Waiting), i) == 0
    decreases n - i
  {
    if i < n { NothingWeighs(weight, n, i + 1); }
  }

  lemma MoveConsistent<T>(script: Script, accept: Acceptor<T>, capacity: nat, p: Pool<T>, move: Move)
    requires Consistent(script, accept, capacity, p) && Enabled(p, move)
    ensures Consistent(script, accept, capacity, Moved(script, accept, p, move))
    ensures Weigh(MovesOf, Moved(script, accept, p, move).tasks, 0) < Weigh(MovesOf, p.tasks, 0)
  {
    var next := Moved(script, accept, p, move).tasks[move.i];
    WeighUpdate(IsRunning<T>, p.tasks, 0, move.i, next);
    WeighUpdate(MovesOf<T>, p.tasks, 0, move.i, next);
  }

  lemma {:induction false} WeighNonNegative<T>(weight: (nat, Task<T>) -> int, tasks: seq<Task<T>>, i: nat)
    requires forall k, t :: weight(k, t) >= 0
    ensures Weigh(weight, tasks, i) >= 0
    ensures Weigh(weight, tasks, i) == 0 ==> forall j :: i <= j < |tasks| ==> weight(j, tasks[j]) == 0
    decreases |tasks| - i
  {
    if i < |tasks| { WeighNonNegative(weight, tasks, i + 1); }
  }

  /** Every schedule keeps the invariant, and is no longer than the moves the tasks have left. */
  lemma {:induction false} ScheduleConsistent<T>(script: Script, accept: Acceptor<T>, capacity: nat,
                                                 p: Pool<T>, moves: seq<Move>)
    requires Consistent(script, accept, capacity, p) && Schedules(script, accept, p, moves)
    ensures var q := After(script, accept, p, moves);
            && Consistent(script, accept, capacity, q) && |q.tasks| == |p.tasks|
            && |moves| + Weigh(MovesOf, q.tasks, 0) <= Weigh(MovesOf, p.tasks, 0)
    decreases |moves|
  {
    if moves != [] {
      MoveConsistent(script, accept, capacity, p, moves[0]);
      ScheduleConsistent(script, accept, capacity, Moved(script, accept, p, moves[0]), moves[1..]);
    }
  }

  lemma {:induction false} InitialMoves<T>(n: nat, i: nat)
    requires i <= n
    ensures Weigh(MovesOf<T>, seq(n, _ => Waiting), i) == (1 + 2 * CHUNK_TRIES) * (n - i)
    decreases n - i
  {
    if i < n { InitialMoves<T>(n, i + 1); }
  }

  /** Whatever is not finished can be scheduled, as long as there is at least one permit. */
  lemma Progress<T>(script: Script, accept: Acceptor<T>, capacity: nat, p: Pool<T>)
    requires Consistent(script, accept, capacity, p) && capacity > 0
    requires exists i :: 0 <= i < |p.tasks| && !p.tasks[i].Finished?
    ensures exists move :: Enabled(p, move)
  {
    var i :| 0 <= i < |p.tasks| && !p.tasks[i].Finished?;
    WeighNonNegative(IsRunning<T>, p.tasks, 0);
    if Weigh(IsRunning, p.tasks, 0) == 0 {
      assert IsRunning(i, p.tasks[i]) == 0;
      assert Enabled(p, Acquire(i));
    } else {
      var j := SomeRunning(p.tasks, 0);
      assert Enabled(p, Ask(j));
    }
  }

  lemma SomeRunning<T>(tasks: seq<Task<T>>, i: nat) returns (j: nat)
    requires Weigh(IsRunning<T>, tasks, i) != 0
    ensures j < |tasks| && tasks[j].Running?
    decreases |tasks| - i
  {
    if tasks[i].Running? {
      j := i;
    } else {
      j := SomeRunning(tasks, i + 1);
    }
  }

  /** The schedule cannot be extended. */
  ghost predicate Exhausted<T>(p: Pool<T>) {
    forall move :: !Enabled(p, move)
  }

  /**
   Schedule independence.  Every schedule of n chunk tasks keeps at most `capacity` of them running,
   with permits and running tasks adding up to it, and has at most 5 * n moves.  A schedule that cannot
   be extended has finished every task, each with the result it has when it runs alone.
   */
  lemma ScheduleIndependence<T>(script: Script, accept: Acceptor<T>, capacity: nat, n: nat, moves: seq<Move>)
    requires capacity > 0 && Schedules(script, accept, Initial<T>(n, capacity), moves)
    ensures var q := After(script, accept, Initial<T>(n, capacity), moves);
            && |q.tasks| == n && |moves| <= 5 * n
            && 0 <= Weigh(IsRunning, q.tasks, 0) <= capacity
            && q.permits + Weigh(IsRunning, q.tasks, 0) == capacity
            && (Exhausted(q) ==> forall i :: 0 <= i < n ==>
                  q.tasks[i] == Finished(Final(script, accept, i, Waiting)))
  {
    var p := Initial<T>(n, capacity);
    InitialConsistent(script, accept, capacity, n);
    ScheduleConsistent(script, accept, capacity, p, moves);
    InitialMoves<T>(n, 0);
    var q := After(script, accept, p, moves);
    WeighNonNegative(MovesOf<T>, q.tasks, 0);
    WeighNonNegative(IsRunning<T>, q.tasks, 0);
    if Exhausted(q) && exists i :: 0 <= i < |q.tasks| && !q.tasks[i].Finished? {
      Progress(script, accept, capacity, q);
    }
  }
}
