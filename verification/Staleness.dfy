/**
 Exactly when retries and timeout recovery keep their times: with at most one scheduler.  With two of them, one can
 act on a scan that the other has long made stale.
*/
module Staleness {
  import opened Basics
  import opened Statuses
  import opened Retry
  import opened Rows
  import opened Protocol
  import opened Safety
  import opened Guarantees
  import opened Deadlines
  import opened Scenarios

  /** The scheduler's action x makes a retry pending although its next_retry_at has not come. */
  ghost predicate DispatchesEarly(c: Config, s: State, x: Action, id: TaskId) {
    && Enabled(c, s, x) && ActorOf(x).Some? && x.actor in c.schedulers
    && Matches(s, id, Retrying) && s.rows[id].nextRetryAt.Some? && s.now < s.rows[id].nextRetryAt.value
    && Matches(Apply(c, s, x), id, Pending)
  }

  /** The scheduler's action x fails a run although its timeout has not passed. */
  ghost predicate RecoversEarly(c: Config, s: State, x: Action, id: TaskId) {
    && Enabled(c, s, x) && ActorOf(x).Some? && x.actor in c.schedulers
    && Matches(s, id, Running) && !IsExpired(s.rows[id], s.now)
    && Matches(Apply(c, s, x), id, Failed)
  }

  /** Two schedulers that can find something. */
  ghost predicate TwoSchedulers(c: Config) {
    c.scanLimit > 0 && exists a, b :: a in c.schedulers && b in c.schedulers && a != b
  }

  // ---- Without two schedulers ----

  /** A job that a scan led to. */
  predicate FromScan(j: Job) {
    j.Inspecting? || j.Dispatching? || j.Recovering?
  }

  predicate NothingScanned(s: State) {
    forall a :: a in s.jobs ==> !FromScan(s.jobs[a])
  }

  lemma StepNothingScanned(c: Config, s: State, x: Action)
    requires c.scanLimit == 0 && TicksOk(c, s) && NothingScanned(s) && Enabled(c, s, x)
    ensures NothingScanned(Apply(c, s, x))
  {
    StepOthers(c, s, x);
    if ActorOf(x).Some? && x.actor in s.ticks { assert TickOk(c, s, s.ticks[x.actor]); }
    if x.Advance? { NextNotScanned(c, s, x.actor); }
    else if !x.Wait? && !x.Take? { OtherNotScanned(c, s, x); }
  }

  lemma NextNotScanned(c: Config, s: State, a: ActorId)
    requires a in s.jobs && !FromScan(s.jobs[a])
    ensures NextJob(c, s, a).Some? ==> !FromScan(NextJob(c, s, a).value)
  {}

  lemma OtherNotScanned(c: Config, s: State, x: Action)
    requires Enabled(c, s, x) && !x.Advance? && !x.Wait? && !x.Take?
    requires x.actor in s.jobs ==> !FromScan(s.jobs[x.actor])
    ensures x.actor in DoOther(c, s, x).jobs ==> !FromScan(DoOther(c, s, x).jobs[x.actor])
  {}

  lemma {:induction false} RunNothingScanned(c: Config, now: int, xs: seq<Action>)
    requires c.scanLimit == 0 && Valid(c, Init(now), xs)
    ensures NothingScanned(RunFrom(c, Init(now), xs))
    decreases |xs|
  {
    if xs != [] {
      var init := xs[..|xs| - 1];
      RunNothingScanned(c, now, init);
      InitInv(c, now);
      RunKeepsInv(c, Init(now), init);
      StepNothingScanned(c, RunFrom(c, Init(now), init), xs[|xs| - 1]);
    }
  }

  lemma ScanBehind(c: Config, s: State, a: ActorId)
    requires Reachable(c, s) && a in s.jobs && FromScan(s.jobs[a])
    ensures c.scanLimit > 0
  {
    if c.scanLimit == 0 {
      var now: int, xs: seq<Action> :| Valid(c, Init(now), xs) && RunFrom(c, Init(now), xs) == s;
      RunNothingScanned(c, now, xs);
    }
  }

  lemma OnlyOne(c: Config, a: ActorId)
    requires a in c.schedulers && c.scanLimit > 0 && !TwoSchedulers(c)
    ensures c.schedulers == {a}
  {
    forall b | b in c.schedulers ensures b == a {}
  }

  lemma EarlyRetryNeedsTwo(c: Config, s: State, x: Action, id: TaskId)
    requires Reachable(c, s) && DispatchesEarly(c, s, x, id)
    ensures TwoSchedulers(c)
  {
    ReachableKeepsInv(c, s);
    LeavesRetrying(c, s, x, id);
    ScanBehind(c, s, x.actor);
    if !TwoSchedulers(c) {
      OnlyOne(c, x.actor);
      RetriedOnTime(c, s, x, x.actor, id);
    }
  }

  lemma FailedByScheduler(c: Config, s: State, x: Action, id: TaskId)
    requires Rooted(c, s) && RecoversEarly(c, s, x, id)
    ensures x.actor in s.jobs && s.jobs[x.actor].Recovering? && s.jobs[x.actor].task == id
  {
    if x.Advance? {
      assert JobOk(s, s.jobs[x.actor]);
    } else {
      OtherRows(c, s, x);
    }
  }

  lemma EarlyRecoveryNeedsTwo(c: Config, s: State, x: Action, id: TaskId)
    requires Reachable(c, s) && RecoversEarly(c, s, x, id)
    ensures TwoSchedulers(c)
  {
    ReachableKeepsInv(c, s);
    FailedByScheduler(c, s, x, id);
    ScanBehind(c, s, x.actor);
    if !TwoSchedulers(c) {
      OnlyOne(c, x.actor);
      RecoveredOnTime(c, s, x.actor, id);
    }
  }

  // ---- With two schedulers ----

  /** Who plays in the two examples. */
  datatype Cast = Cast(slow: ActorId, quick: ActorId, creator: ActorId, first: ActorId, second: ActorId)

  ghost predicate Fits(c: Config, k: Cast) {
    && c.scanLimit > 0
    && k.slow in c.schedulers && k.quick in c.schedulers && k.slow != k.quick
    && k.creator !in c.schedulers && k.first !in c.schedulers && k.second !in c.schedulers
    && k.creator != k.first && k.creator != k.second && k.first != k.second
  }

  lemma SomeCast(c: Config) returns (k: Cast)
    requires TwoSchedulers(c)
    ensures Fits(c, k)
  {
    var a, b :| a in c.schedulers && b in c.schedulers && a != b;
    var u := FreshActor(c.schedulers);
    var v := FreshActor(c.schedulers + {u});
    var w := FreshActor(c.schedulers + {u, v});
    k := Cast(a, b, u, v, w);
  }

  const EXAMPLE := CreateTaskParams("echo", None, None, 0, 60, 5)

  /** Nobody but the creator and the first worker has a job yet. */
  ghost predicate Early(s: State, k: Cast) {
    s.zset == map[] && s.ticks == map[] && s.stream == [Entry(0, 0)] && s.delivered == 1
    && forall a :: a in s.jobs ==> a == k.creator || a == k.first
  }

  /** A task whose first attempt has failed, and whose retry is due. */
  lemma OneDueRetry(c: Config, k: Cast) returns (s: State)
    requires Fits(c, k)
    ensures Gets(c, Init(0), s) && Early(s, k)
    ensures s.rows.Keys == {0} && IsDueRetrying(s.rows[0], s.now) && s.rows[0].retryCount == 1 && s.rows[0].maxRetries == 5
  {
    var s1 := SubmitsOne(c, k.creator, EXAMPLE);
    var s2 := RunsAndFails(c, s1, k.first, 0);
    Onwards(c, Init(0), s1, s2);
    s := s2.(now := 60 * SECOND);
    Waits(c, s2, s.now);
    Onwards(c, Init(0), s2, s);
  }

  /** Both schedulers find it. */
  lemma BothFind(c: Config, s: State, k: Cast) returns (s': State)
    requires Fits(c, k) && Early(s, k) && s.rows.Keys == {0} && IsDueRetrying(s.rows[0], s.now)
    ensures Gets(c, s, s')
    ensures s' == WithTick(WithTick(s, k.slow, DispatchingRetrying, s.now, [0]), k.quick, DispatchingRetrying, s.now, [0])
  {
    var s1 := FindsRetry(c, s, k.slow, 0);
    s' := FindsRetry(c, s1, k.quick, 0);
    Onwards(c, s, s1, s');
  }

  /** One of them dispatches it. */
  lemma OneDispatches(c: Config, s: State, k: Cast) returns (s': State)
    requires k.slow != k.quick && k.slow in s.ticks && k.quick !in s.jobs && k.quick in s.ticks
    requires s.ticks[k.quick].phase == DispatchingRetrying && s.ticks[k.quick].todo == [0] && Matches(s, 0, Retrying)
    ensures Gets(c, s, s') && s'.now == s.now && s'.rows == s.rows[0 := Moved(s.rows[0], Pending, None, s.now)]
    ensures s'.stream == s.stream + [Entry(0, s.rows[0].retryCount)] && s'.delivered == s.delivered
    ensures k.slow in s'.ticks && s'.ticks[k.slow] == s.ticks[k.slow] && s'.jobs == s.jobs
  {
    var s1 := TakesRetry(c, s, k.quick, 0);
    assert k.slow in s.ticks - {k.quick} && k.slow in s1.ticks - {k.quick};
    s' := DispatchesRetry(c, s1, k.quick, 0);
    Onwards(c, s, s1, s');
    assert s'.jobs == s.jobs;
  }

  /** It fails again, and then the other one takes it up too. */
  lemma OneStaleRetry(c: Config, k: Cast) returns (s: State)
    requires Fits(c, k)
    ensures Gets(c, Init(0), s) && k.slow in s.jobs && s.jobs[k.slow] == Dispatching(0, Retrying)
    ensures Matches(s, 0, Retrying) && s.rows[0].nextRetryAt.Some? && s.now < s.rows[0].nextRetryAt.value
  {
    var z := Init(0);
    var s1 := OneDueRetry(c, k);
    var s2 := BothFind(c, s1, k);
    Onwards(c, z, s1, s2);
    s1 := OneDispatches(c, s2, k);
    Onwards(c, z, s2, s1);
    s2 := RunsAndFails(c, s1, k.second, 0);
    Onwards(c, z, s1, s2);
    s := TakesRetry(c, s2, k.slow, 0);
    Onwards(c, z, s2, s);
  }

  lemma StaleDispatch(c: Config, s: State, a: ActorId)
    requires a in c.schedulers && a in s.jobs && s.jobs[a] == Dispatching(0, Retrying) && Matches(s, 0, Retrying)
    requires s.rows[0].nextRetryAt.Some? && s.now < s.rows[0].nextRetryAt.value
    ensures DispatchesEarly(c, s, Advance(a), 0)
  {}

  lemma EarlyRetry(c: Config)
    requires TwoSchedulers(c)
    ensures exists s, x, id :: Reachable(c, s) && DispatchesEarly(c, s, x, id)
  {
    var k := SomeCast(c);
    var s := OneStaleRetry(c, k);
    GetsIsReachable(c, s);
    StaleDispatch(c, s, k.slow);
  }

  /** Some run dispatches a retry before its next_retry_at if and only if there are two schedulers: both find the
      task, one dispatches it, it fails again, and then the other one dispatches it too. */
  lemma EarlyRetryExactlyWithTwo(c: Config)
    ensures (exists s, x, id :: Reachable(c, s) && DispatchesEarly(c, s, x, id)) <==> TwoSchedulers(c)
  {
    if s, x, id :| Reachable(c, s) && DispatchesEarly(c, s, x, id) { EarlyRetryNeedsTwo(c, s, x, id); }
    if TwoSchedulers(c) { EarlyRetry(c); }
  }

  // ---- The same for timeout recovery ----

  /** A run whose timeout has passed. */
  lemma OneExpiredRun(c: Config, k: Cast) returns (s: State)
    requires Fits(c, k)
    ensures Gets(c, Init(0), s) && Early(s, k)
    ensures s.rows.Keys == {0} && IsExpired(s.rows[0], s.now)
    ensures s.rows[0].retryCount == 0 && s.rows[0].maxRetries == 5 && s.rows[0].timeoutSeconds == 60
  {
    var s1 := SubmitsOne(c, k.creator, EXAMPLE);
    var s2 := RunsTask(c, s1, k.first, 0);
    Onwards(c, Init(0), s1, s2);
    s := s2.(now := 60 * SECOND);
    Waits(c, s2, s.now);
    Onwards(c, Init(0), s2, s);
  }

  predicate Recovers(s: State, a: ActorId) {
    && a in s.jobs && s.jobs[a].Recovering? && s.jobs[a].task == 0
    && a in s.ticks && s.ticks[a] == Tick(s.now, RecoveringExpired, [])
  }

  /** Both schedulers find it. */
  lemma BothFindExpired(c: Config, s: State, k: Cast) returns (s': State)
    requires Fits(c, k) && Early(s, k) && s.rows.Keys == {0} && IsExpired(s.rows[0], s.now)
    ensures Gets(c, s, s') && Recovers(s', k.slow) && Recovers(s', k.quick) && k.second !in s'.jobs
    ensures s' == s.(ticks := s'.ticks, jobs := s'.jobs)
  {
    assert ExpiredTasks(s.rows, s.now) == {0};
    var s1 := FindsExpired(c, s, k.slow, 0);
    s' := FindsExpired(c, s1, k.quick, 0);
    Onwards(c, s, s1, s');
  }

  /** One of them fails it. */
  lemma FailsExpired(c: Config, s: State, a: ActorId) returns (s': State)
    requires Recovers(s, a) && Matches(s, 0, Running) && s.rows[0].retryCount < s.rows[0].maxRetries
    ensures Gets(c, s, s') && s'.rows.Keys == s.rows.Keys && FailedOnce(s.rows[0], s'.rows[0], s.now)
    ensures s' == s.(rows := s'.rows, jobs := s.jobs - {a})
  {
    var s1 := Marks(c, s, a, 0);
    s' := Completes(c, s1, a, 0);
    Onwards(c, s, s1, s');
    FinalizedRow(s.rows[0], s.jobs[a].failure, s.now);
    assert s'.jobs == s.jobs - {a};
    assert s'.rows.Keys == s.rows.Keys;
  }

  /** Its tick ends, and a second later the retry is due. */
  lemma RetryComesDue(c: Config, s: State, a: ActorId) returns (s': State)
    requires a !in s.jobs && a in s.ticks && s.ticks[a] == Tick(s.now, RecoveringExpired, []) && s.zset == map[]
    requires s.rows.Keys == {0} && s.rows[0].status == Retrying && s.rows[0].nextRetryAt == Some(Stored(s.now + SECOND))
    ensures Gets(c, s, s') && s' == WithTick(s, a, Idle, s.now, []).(now := s.now + SECOND)
    ensures IsDueRetrying(s'.rows[0], s'.now)
  {
    StoredInstant(s.now + SECOND);
    assert DueRetryingTasks(s.rows, s.now) == {};
    var s1 := EndsTick(c, s, a, s.now);
    s' := s1.(now := s.now + SECOND);
    Waits(c, s1, s'.now);
    Onwards(c, s, s1, s');
  }

  /** Both: one of them fails the run, and a second later the retry is due. */
  lemma FailsThenComesDue(c: Config, s: State, a: ActorId) returns (s': State)
    requires Recovers(s, a) && Matches(s, 0, Running) && s.rows.Keys == {0} && s.zset == map[]
    requires s.rows[0].retryCount == 0 && s.rows[0].maxRetries == 5
    ensures Gets(c, s, s')
    ensures s' == WithTick(s, a, Idle, s.now, []).(rows := s'.rows, jobs := s.jobs - {a}, now := s.now + SECOND)
    ensures s'.rows.Keys == {0} && IsDueRetrying(s'.rows[0], s'.now) && SameTask(s.rows[0], s'.rows[0])
  {
    var s1 := FailsExpired(c, s, a);
    assert BackoffDelay(1) == SECOND by { assert Pow2(0) == 1; }
    s' := RetryComesDue(c, s1, a);
    Onwards(c, s, s1, s');
  }

  lemma OneExpiredRunFoundTwice(c: Config, k: Cast) returns (s: State)
    requires Fits(c, k)
    ensures Gets(c, Init(0), s) && Recovers(s, k.slow) && Recovers(s, k.quick)
    ensures s.rows.Keys == {0} && s.rows[0].status == Running
    ensures s.rows[0].retryCount == 0 && s.rows[0].maxRetries == 5 && s.rows[0].timeoutSeconds == 60
    ensures s.zset == map[] && s.delivered == |s.stream| && k.second !in s.jobs
  {
    var s1 := OneExpiredRun(c, k);
    s := BothFindExpired(c, s1, k);
    Onwards(c, Init(0), s1, s);
  }

  lemma OneRecovers(c: Config, k: Cast) returns (s: State)
    requires Fits(c, k)
    ensures Gets(c, Init(0), s) && Resting(c, s, k.quick) && k.slow in s.ticks && k.second !in s.jobs
    ensures s.rows.Keys == {0} && IsDueRetrying(s.rows[0], s.now) && s.rows[0].timeoutSeconds == 60
    ensures s.zset == map[] && s.delivered == |s.stream|
    ensures k.slow in s.jobs && s.jobs[k.slow].Recovering? && s.jobs[k.slow].task == 0
  {
    var s1 := OneExpiredRunFoundTwice(c, k);
    s := FailsThenComesDue(c, s1, k.quick);
    Onwards(c, Init(0), s1, s);
  }

  lemma RunsAgain(c: Config, s: State, k: Cast) returns (s': State)
    requires Fits(c, k) && Resting(c, s, k.quick) && k.slow in s.ticks && k.second !in s.jobs
    requires s.rows.Keys == {0} && IsDueRetrying(s.rows[0], s.now) && s.rows[0].timeoutSeconds == 60
    requires s.zset == map[] && s.delivered == |s.stream| && k.slow in s.jobs
    ensures Gets(c, s, s') && Matches(s', 0, Running) && !IsExpired(s'.rows[0], s'.now)
    ensures k.slow in s'.jobs && s'.jobs[k.slow] == s.jobs[k.slow]
  {
    var s1 := FindsRetry(c, s, k.quick, 0);
    var s2 := OneDispatches(c, s1, k);
    Onwards(c, s, s1, s2);
    s' := RunsTask(c, s2, k.second, 0);
    Onwards(c, s, s2, s');
  }

  lemma StaleRecovery(c: Config, s: State, a: ActorId)
    requires a in c.schedulers && a in s.jobs && s.jobs[a].Recovering? && s.jobs[a].task == 0
    requires Matches(s, 0, Running) && !IsExpired(s.rows[0], s.now)
    ensures RecoversEarly(c, s, Advance(a), 0)
  {}

  lemma EarlyRecovery(c: Config)
    requires TwoSchedulers(c)
    ensures exists s, x, id :: Reachable(c, s) && RecoversEarly(c, s, x, id)
  {
    var k := SomeCast(c);
    var s1 := OneRecovers(c, k);
    var s := RunsAgain(c, s1, k);
    Onwards(c, Init(0), s1, s);
    GetsIsReachable(c, s);
    StaleRecovery(c, s, k.slow);
  }

  /** Some run fails a run that has not exceeded its timeout if and only if there are two schedulers: both find an
      expired run, one fails it, it is retried and runs again, and then the other one fails the new run. */
  lemma EarlyRecoveryExactlyWithTwo(c: Config)
    ensures (exists s, x, id :: Reachable(c, s) && RecoversEarly(c, s, x, id)) <==> TwoSchedulers(c)
  {
    if s, x, id :| Reachable(c, s) && RecoversEarly(c, s, x, id) { EarlyRecoveryNeedsTwo(c, s, x, id); }
    if TwoSchedulers(c) { EarlyRecovery(c); }
  }
}
