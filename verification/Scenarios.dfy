/** Short runs of one worker or one scheduler, to build examples from. */
module Scenarios {
  import opened Basics
  import opened Statuses
  import opened Retry
  import opened Rows
  import opened Protocol
  import opened Guarantees

  ghost predicate Gets(c: Config, s: State, s': State) {
    exists xs :: Ran(c, s, xs, s')
  }

  lemma Onwards(c: Config, s: State, s1: State, s2: State)
    requires Gets(c, s, s1) && Gets(c, s1, s2)
    ensures Gets(c, s, s2)
  {
    var xs :| Ran(c, s, xs, s1);
    var ys :| Ran(c, s1, ys, s2);
    Concat(c, s, xs, ys);
    assert Ran(c, s, xs + ys, s2);
  }

  lemma OneStep(c: Config, s: State, x: Action)
    requires Enabled(c, s, x)
    ensures Gets(c, s, Apply(c, s, x))
  {
    Further(c, s, [], s, x);
    var xs := [] + [x];
    assert Ran(c, s, xs, Apply(c, s, x));
  }

  lemma TwoSteps(c: Config, s: State, x: Action, y: Action)
    requires Enabled(c, s, x) && Enabled(c, Apply(c, s, x), y)
    ensures Gets(c, s, Apply(c, Apply(c, s, x), y))
  {
    OneStep(c, s, x);
    OneStep(c, Apply(c, s, x), y);
    Onwards(c, s, Apply(c, s, x), Apply(c, Apply(c, s, x), y));
  }

  // ---- A creator ----

  lemma SubmitsOne(c: Config, u: ActorId, p: CreateTaskParams) returns (s': State)
    requires u !in c.schedulers && Accepted(p) && p.runAt <= 0 && p.idempotencyKey == None
    ensures Gets(c, Init(0), s')
    ensures s' == Init(0).(rows := map[0 := NewRow(p, 0)], stream := [Entry(0, 0)], jobs := map[u := CountingSubmitted(0)])
  {
    var s := Init(0);
    TwoSteps(c, s, Submit(u, 0, p), Advance(u));
    s' := Apply(c, Apply(c, s, Submit(u, 0, p)), Advance(u));
  }

  lemma GetsIsReachable(c: Config, s: State)
    requires Gets(c, Init(0), s)
    ensures Reachable(c, s)
  {
    var xs :| Ran(c, Init(0), xs, s);
    assert Valid(c, Init(0), xs) && RunFrom(c, Init(0), xs) == s;
  }

  lemma Waits(c: Config, s: State, t: int)
    requires t >= s.now
    ensures Gets(c, s, s.(now := t))
  {
    OneStep(c, s, Wait(t));
  }

  // ---- A worker ----

  lemma Receives(c: Config, s: State, a: ActorId, id: TaskId) returns (s': State)
    requires a !in s.jobs && a !in c.schedulers && s.delivered < |s.stream| && s.stream[s.delivered].task == id
    requires Matches(s, id, Pending)
    ensures Gets(c, s, s')
    ensures s' == s.(delivered := s.delivered + 1, pel := s.pel[s.delivered := s.now],
                     jobs := s.jobs[a := Claiming(Message(s.delivered, id))])
  {
    TwoSteps(c, s, Deliver(a), Advance(a));
    s' := Apply(c, Apply(c, s, Deliver(a)), Advance(a));
  }

  lemma Starts(c: Config, s: State, a: ActorId, m: Message) returns (s': State)
    requires a in s.jobs && s.jobs[a] == Claiming(m) && Matches(s, m.task, Pending)
    ensures Gets(c, s, s')
    ensures s' == s.(rows := s.rows[m.task := Moved(s.rows[m.task], Running, Some(c.consumer(a)), s.now)],
                     counters := s'.counters, jobs := s.jobs[a := Executing(m)])
  {
    TwoSteps(c, s, Advance(a), Advance(a));
    s' := Apply(c, Apply(c, s, Advance(a)), Advance(a));
  }

  lemma Fails(c: Config, s: State, a: ActorId, m: Message) returns (s': State)
    requires a in s.jobs && s.jobs[a] == Executing(m) && Matches(s, m.task, Running)
    ensures Gets(c, s, s')
    ensures
      var r := s.rows[m.task];
      s' == s.(rows := s.rows[m.task := MarkedFailed(r, "", s.now)],
               jobs := s.jobs[a := Finalizing(m.task, r.retryCount, r.maxRetries, "", false, Worker(m))])
  {
    TwoSteps(c, s, Finish(a, Fault("", false)), Advance(a));
    s' := Apply(c, Apply(c, s, Finish(a, Fault("", false))), Advance(a));
  }

  lemma Finalizes(c: Config, s: State, a: ActorId, m: Message) returns (s': State)
    requires a in s.jobs && Matches(s, m.task, Failed) && s.rows[m.task].retryCount < s.rows[m.task].maxRetries
    requires
      var r := s.rows[m.task];
      s.jobs[a] == Finalizing(m.task, r.retryCount, r.maxRetries, "", false, Worker(m))
    ensures Gets(c, s, s')
    ensures
      var d := DecideFailure(s.now, s.rows[m.task].retryCount, s.rows[m.task].maxRetries);
      && s'.rows == s.rows[m.task := Completed(s.rows[m.task], d, "", s.now)]
      && s' == s.(rows := s'.rows, jobs := s.jobs[a := CountingOutcome(m.task, false, "", d.retryCount, m)])
  {
    TwoSteps(c, s, Advance(a), Advance(a));
    s' := Apply(c, Apply(c, s, Advance(a)), Advance(a));
  }

  /** The run changed nothing but the task id and the job of the worker a. */
  ghost predicate OnlyTask(s: State, s': State, a: ActorId, id: TaskId) {
    && id in s.rows && id in s'.rows && s'.rows.Keys == s.rows.Keys
    && s'.now == s.now && s'.zset == s.zset && s'.ticks == s.ticks && s'.stream == s.stream && s'.dead == s.dead
    && (forall b :: b != a ==> (b in s'.jobs <==> b in s.jobs) && (b in s.jobs ==> s'.jobs[b] == s.jobs[b]))
  }

  predicate FailedOnce(r: Row, r': Row, now: int) {
    && SameTask(r, r') && r'.status == Retrying && r'.retryCount == r.retryCount + 1
    && r'.nextRetryAt == Some(Stored(now + BackoffDelay(r'.retryCount)))
  }

  lemma FinalizedRow(r: Row, text: string, now: int)
    requires r.retryCount < r.maxRetries
    ensures
      var marked := MarkedFailed(r, text, now);
      FailedOnce(r, Completed(marked, DecideFailure(now, marked.retryCount, marked.maxRetries), text, now), now)
  {}

  lemma RunsTask(c: Config, s: State, a: ActorId, id: TaskId) returns (s': State)
    requires a !in s.jobs && a !in c.schedulers && s.delivered < |s.stream| && s.stream[s.delivered].task == id
    requires Matches(s, id, Pending)
    ensures Gets(c, s, s') && OnlyTask(s, s', a, id)
    ensures Matches(s', id, Running) && s'.rows[id].startedAt == Some(s.now) && SameTask(s.rows[id], s'.rows[id])
    ensures s'.rows[id].retryCount == s.rows[id].retryCount
    ensures a in s'.jobs && s'.jobs[a] == Executing(Message(s.delivered, id)) && s'.delivered == s.delivered + 1
    ensures s.delivered in s'.pel
  {
    var s1 := Receives(c, s, a, id);
    s' := Starts(c, s1, a, Message(s.delivered, id));
    Onwards(c, s, s1, s');
  }

  lemma FailsTask(c: Config, s: State, a: ActorId, m: Message) returns (s': State)
    requires a in s.jobs && s.jobs[a] == Executing(m) && Matches(s, m.task, Running)
    requires s.rows[m.task].retryCount < s.rows[m.task].maxRetries
    ensures Gets(c, s, s') && OnlyTask(s, s', a, m.task)
    ensures FailedOnce(s.rows[m.task], s'.rows[m.task], s.now) && s'.delivered == s.delivered && s'.pel == s.pel
  {
    var s1 := Fails(c, s, a, m);
    s' := Finalizes(c, s1, a, m);
    Onwards(c, s, s1, s');
    FinalizedRow(s.rows[m.task], "", s.now);
    assert s'.rows.Keys == s.rows.Keys;
  }

  /** A worker takes the next message, runs its pending task and fails. */
  lemma RunsAndFails(c: Config, s: State, a: ActorId, id: TaskId) returns (s': State)
    requires a !in s.jobs && a !in c.schedulers && s.delivered < |s.stream| && s.stream[s.delivered].task == id
    requires Matches(s, id, Pending) && s.rows[id].retryCount < s.rows[id].maxRetries
    ensures Gets(c, s, s') && OnlyTask(s, s', a, id)
    ensures FailedOnce(s.rows[id], s'.rows[id], s.now) && s'.delivered == s.delivered + 1 && s.delivered in s'.pel
  {
    var s1 := RunsTask(c, s, a, id);
    s' := FailsTask(c, s1, a, Message(s.delivered, id));
    Onwards(c, s, s1, s');
  }

  // ---- A scheduler ----

  predicate Resting(c: Config, s: State, a: ActorId) {
    a in c.schedulers && a !in s.jobs && (a in s.ticks ==> s.ticks[a].phase == Idle)
  }

  function WithTick(s: State, a: ActorId, phase: Phase, t: int, todo: seq<TaskId>): State {
    s.(ticks := s.ticks[a := Tick(t, phase, todo)])
  }

  lemma Retick(s: State, a: ActorId, p: Phase, t: int, todo: seq<TaskId>, p': Phase, todo': seq<TaskId>)
    ensures WithTick(WithTick(s, a, p, t, todo), a, p', t, todo') == WithTick(s, a, p', t, todo')
  {}

  lemma ScanNone(rank: TaskId -> (int, int), limit: nat)
    ensures IsScan({}, rank, limit, [])
  {}

  lemma ScanOne(id: TaskId, rank: TaskId -> (int, int), limit: nat)
    requires limit > 0
    ensures IsScan({id}, rank, limit, [id])
  {}

  lemma ScanStep(c: Config, s: State, a: ActorId, t: int, phase: Phase, found: seq<TaskId>)
    requires a !in s.jobs && a in s.ticks && s.ticks[a] == Tick(t, phase, []) && ScanResult(c, s, s.ticks[a], found)
    ensures Gets(c, s, WithTick(s, a, AfterScan(phase), t, found))
  {
    OneStep(c, s, Scan(a, found));
  }

  lemma StartsTick(c: Config, s: State, a: ActorId, found: seq<TaskId>) returns (s': State)
    requires Resting(c, s, a) && IsScan(ExpiredTasks(s.rows, s.now), StartedRank(s.rows), c.scanLimit, found)
    ensures Gets(c, s, s') && s' == WithTick(s, a, RecoveringExpired, s.now, found)
  {
    OneStep(c, s, StartTick(a));
    var s1 := WithTick(s, a, ScanningExpired, s.now, []);
    assert Apply(c, s, StartTick(a)) == s1;
    ScanStep(c, s1, a, s.now, ScanningExpired, found);
    s' := WithTick(s, a, RecoveringExpired, s.now, found);
    Retick(s, a, ScanningExpired, s.now, [], RecoveringExpired, found);
    Onwards(c, s, s1, s');
  }

  lemma EndsPhase(c: Config, s: State, a: ActorId, t: int, phase: Phase, next: Phase)
    requires a !in s.jobs && a in s.ticks && s.ticks[a] == Tick(t, phase, [])
    requires
      || (phase == RecoveringExpired && next == ScanningZSet)
      || (phase == DispatchingZSet && next == ScanningRetrying)
      || (phase == DispatchingRetrying && next == Idle)
    ensures Gets(c, s, WithTick(s, a, next, t, []))
  {
    OneStep(c, s, EndPhase(a));
  }

  lemma ScansZSet(c: Config, s: State, a: ActorId, t: int) returns (s': State)
    requires a !in s.jobs && a in s.ticks && s.ticks[a] == Tick(t, RecoveringExpired, []) && s.zset == map[]
    ensures Gets(c, s, s') && s' == WithTick(s, a, DispatchingZSet, t, [])
  {
    EndsPhase(c, s, a, t, RecoveringExpired, ScanningZSet);
    var s1 := WithTick(s, a, ScanningZSet, t, []);
    assert DueMembers(s.zset, t) == {};
    ScanNone(ScoreRank(s.zset), c.scanLimit);
    ScanStep(c, s1, a, t, ScanningZSet, []);
    s' := WithTick(s, a, DispatchingZSet, t, []);
    Retick(s, a, ScanningZSet, t, [], DispatchingZSet, []);
    Onwards(c, s, s1, s');
  }

  lemma ScansRetrying(c: Config, s: State, a: ActorId, t: int, found: seq<TaskId>) returns (s': State)
    requires a !in s.jobs && a in s.ticks && s.ticks[a] == Tick(t, DispatchingZSet, [])
    requires IsScan(DueRetryingTasks(s.rows, t), RetryRank(s.rows), c.scanLimit, found)
    ensures Gets(c, s, s') && s' == WithTick(s, a, DispatchingRetrying, t, found)
  {
    EndsPhase(c, s, a, t, DispatchingZSet, ScanningRetrying);
    var s1 := WithTick(s, a, ScanningRetrying, t, []);
    ScanStep(c, s1, a, t, ScanningRetrying, found);
    s' := WithTick(s, a, DispatchingRetrying, t, found);
    Retick(s, a, ScanningRetrying, t, [], DispatchingRetrying, found);
    Onwards(c, s, s1, s');
  }

  lemma OnlyRetryDue(rows: map<TaskId, Row>, now: int, id: TaskId)
    requires rows.Keys == {id} && IsDueRetrying(rows[id], now)
    ensures ExpiredTasks(rows, now) == {} && DueRetryingTasks(rows, now) == {id}
  {}

  /** The ZSET pass of a tick with an empty ZSET, and then its retry scan. */
  lemma GoesOn(c: Config, s: State, a: ActorId, t: int, found: seq<TaskId>) returns (s': State)
    requires a !in s.jobs && a in s.ticks && s.ticks[a] == Tick(t, RecoveringExpired, []) && s.zset == map[]
    requires IsScan(DueRetryingTasks(s.rows, t), RetryRank(s.rows), c.scanLimit, found)
    ensures Gets(c, s, s') && s' == WithTick(s, a, DispatchingRetrying, t, found)
  {
    var s1 := ScansZSet(c, s, a, t);
    s' := ScansRetrying(c, s1, a, t, found);
    Onwards(c, s, s1, s');
    Retick(s, a, DispatchingZSet, t, [], DispatchingRetrying, found);
  }

  /** A tick gets as far as its retry scan, which finds the only task. */
  lemma FindsRetry(c: Config, s: State, a: ActorId, id: TaskId) returns (s': State)
    requires Resting(c, s, a) && c.scanLimit > 0
    requires s.zset == map[] && s.rows.Keys == {id} && IsDueRetrying(s.rows[id], s.now)
    ensures Gets(c, s, s') && s' == WithTick(s, a, DispatchingRetrying, s.now, [id])
  {
    OnlyRetryDue(s.rows, s.now, id);
    ScanNone(StartedRank(s.rows), c.scanLimit);
    ScanOne(id, RetryRank(s.rows), c.scanLimit);
    var s1 := StartsTick(c, s, a, []);
    s' := GoesOn(c, s1, a, s.now, [id]);
    Onwards(c, s, s1, s');
    Retick(s, a, RecoveringExpired, s.now, [], DispatchingRetrying, [id]);
  }

  lemma TakesRetry(c: Config, s: State, a: ActorId, id: TaskId) returns (s': State)
    requires a !in s.jobs && a in s.ticks && s.ticks[a].phase == DispatchingRetrying && s.ticks[a].todo == [id]
    ensures Gets(c, s, s')
    ensures s' == s.(ticks := s'.ticks, jobs := s.jobs[a := Dispatching(id, Retrying)])
    ensures a in s'.ticks && s'.ticks - {a} == s.ticks - {a}
  {
    OneStep(c, s, Take(a));
    s' := Apply(c, s, Take(a));
  }

  lemma DispatchesRetry(c: Config, s: State, a: ActorId, id: TaskId) returns (s': State)
    requires a in s.jobs && s.jobs[a] == Dispatching(id, Retrying) && Matches(s, id, Retrying)
    ensures Gets(c, s, s')
    ensures s' == s.(rows := s.rows[id := Moved(s.rows[id], Pending, None, s.now)],
                     stream := s.stream + [Entry(id, s.rows[id].retryCount)], jobs := s.jobs - {a})
  {
    TwoSteps(c, s, Advance(a), Advance(a));
    s' := Apply(c, Apply(c, s, Advance(a)), Advance(a));
  }

  /** A tick finds an expired run and takes it up. */
  lemma FindsExpired(c: Config, s: State, a: ActorId, id: TaskId) returns (s': State)
    requires Resting(c, s, a) && c.scanLimit > 0 && ExpiredTasks(s.rows, s.now) == {id}
    ensures Gets(c, s, s') && a in s'.jobs && s'.jobs[a].Recovering? && s'.jobs[a].task == id
    ensures s' == WithTick(s, a, RecoveringExpired, s.now, []).(jobs := s.jobs[a := s'.jobs[a]])
  {
    ScanOne(id, StartedRank(s.rows), c.scanLimit);
    var s1 := StartsTick(c, s, a, [id]);
    s' := TakesExpired(c, s1, a, s.now, id);
    Onwards(c, s, s1, s');
    Retick(s, a, RecoveringExpired, s.now, [id], RecoveringExpired, []);
  }

  lemma TakesExpired(c: Config, s: State, a: ActorId, t: int, id: TaskId) returns (s': State)
    requires a !in s.jobs && a in s.ticks && s.ticks[a] == Tick(t, RecoveringExpired, [id])
    ensures Gets(c, s, s') && a in s'.jobs && s'.jobs[a].Recovering? && s'.jobs[a].task == id
    ensures s' == WithTick(s, a, RecoveringExpired, t, []).(jobs := s.jobs[a := s'.jobs[a]])
  {
    assert [id][1..] == [];
    OneStep(c, s, Take(a));
    s' := Apply(c, s, Take(a));
  }

  lemma Marks(c: Config, s: State, a: ActorId, id: TaskId) returns (s': State)
    requires a in s.jobs && s.jobs[a].Recovering? && s.jobs[a].task == id && Matches(s, id, Running)
    ensures Gets(c, s, s')
    ensures
      var r, text := s.rows[id], s.jobs[a].failure;
      s' == s.(rows := s.rows[id := MarkedFailed(r, text, s.now)],
               jobs := s.jobs[a := Finalizing(id, r.retryCount, r.maxRetries, text, false, Scheduler)])
  {
    OneStep(c, s, Advance(a));
    s' := Apply(c, s, Advance(a));
  }

  lemma Completes(c: Config, s: State, a: ActorId, id: TaskId) returns (s': State)
    requires a in s.jobs && a in s.ticks && Matches(s, id, Failed) && s.rows[id].retryCount < s.rows[id].maxRetries
    requires s.jobs[a].Finalizing?
    requires s.jobs[a] == Finalizing(id, s.rows[id].retryCount, s.rows[id].maxRetries, s.jobs[a].failure, false, Scheduler)
    ensures Gets(c, s, s')
    ensures
      var d := DecideFailure(s.ticks[a].now, s.rows[id].retryCount, s.rows[id].maxRetries);
      s' == s.(rows := s.rows[id := Completed(s.rows[id], d, s.jobs[a].failure, s.now)], jobs := s.jobs - {a})
  {
    TwoSteps(c, s, Advance(a), Advance(a));
    s' := Apply(c, Apply(c, s, Advance(a)), Advance(a));
  }

  /** A tick with nothing more to do ends. */
  lemma EndsTick(c: Config, s: State, a: ActorId, t: int) returns (s': State)
    requires a !in s.jobs && a in s.ticks && s.ticks[a] == Tick(t, RecoveringExpired, [])
    requires s.zset == map[] && DueRetryingTasks(s.rows, t) == {}
    ensures Gets(c, s, s') && s' == WithTick(s, a, Idle, t, [])
  {
    ScanNone(RetryRank(s.rows), c.scanLimit);
    var s1 := GoesOn(c, s, a, t, []);
    EndsPhase(c, s1, a, t, DispatchingRetrying, Idle);
    s' := WithTick(s, a, Idle, t, []);
    Retick(s, a, DispatchingRetrying, t, [], Idle, []);
    Onwards(c, s, s1, s');
  }
}
