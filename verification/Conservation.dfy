/** The metrics registry agrees with the tasks table, up to what is in flight and what was cut off. */
module Conservation {
  import opened Basics
  import opened Statuses
  import opened Rows
  import opened Protocol
  import opened Safety
  import opened Guarantees

  // ---- What a job still has to count ----

  function OfWorker(owner: Owner): int {
    if owner.Worker? then 1 else 0
  }

  /** After TaskStarted, before TaskSucceeded or TaskFailed. */
  function InFlight(j: Job): int {
    match j
    case Executing(_) => 1
    case Succeeding(_) => 1
    case CountingSuccess(_) => 1
    case Failing(_, _, _) => 1
    case Finalizing(_, _, _, _, _, owner) => OfWorker(owner)
    case Completing(_, _, _, owner) => OfWorker(owner)
    case CountingOutcome(_, _, _, _, _) => 1
    case Burying(_, _, _, owner) => OfWorker(owner)
    case CountingFailure(_) => 1
    case _ => 0
  }

  /** After TaskRetried or TaskDead, before TaskFailed. */
  function Between(j: Job): int {
    match j
    case Burying(_, _, _, owner) => OfWorker(owner)
    case CountingFailure(_) => 1
    case _ => 0
  }

  function UncountedSuccess(j: Job): int {
    if j.CountingSuccess? then 1 else 0
  }

  function UncountedRetry(j: Job): int {
    if j.CountingOutcome? && !j.died then 1 else 0
  }

  function UncountedDeath(j: Job): int {
    if j.CountingOutcome? && j.died then 1 else 0
  }

  function RetriesOf(r: Row): int { r.retryCount }

  function SuccessOf(r: Row): int { if r.status == Success then 1 else 0 }

  function DeathOf(r: Row): int { if r.status == Dead then 1 else 0 }

  // ---- What a run cut off, and what the scheduler did without counting ----

  datatype Tally = Tally(
    attempts: int,            // attempts that ended in flight
    between: int,             // ... of them between the two failure counters
    successes: int,           // success writes whose counter was cut off
    retries: int,             // retry writes whose counter was cut off
    deaths: int,              // dead writes whose counter was cut off
    schedulerRetries: int,    // retry writes by timeout recovery
    schedulerDeaths: int)     // dead writes by timeout recovery

  function Ended(s: State, s': State, x: Action, weight: Job -> int): int {
    if ActorOf(x).Some? && x.actor in s.jobs && x.actor !in s'.jobs then weight(s.jobs[x.actor]) else 0
  }

  function SchedulerWrote(s: State, x: Action, outcome: Status): int {
    if x.Advance? && x.actor in s.jobs && s.jobs[x.actor].Completing? && s.jobs[x.actor].owner.Scheduler?
       && Matches(s, s.jobs[x.actor].task, Failed) && s.jobs[x.actor].decision.status == outcome
    then 1 else 0
  }

  function Add(t: Tally, s: State, s': State, x: Action): Tally {
    Tally(t.attempts + Ended(s, s', x, InFlight),
          t.between + Ended(s, s', x, Between),
          t.successes + Ended(s, s', x, UncountedSuccess),
          t.retries + Ended(s, s', x, UncountedRetry),
          t.deaths + Ended(s, s', x, UncountedDeath),
          t.schedulerRetries + SchedulerWrote(s, x, Retrying),
          t.schedulerDeaths + SchedulerWrote(s, x, Dead))
  }

  ghost function TallyOf(c: Config, s: State, xs: seq<Action>): Tally
    requires Valid(c, s, xs)
    decreases |xs|
  {
    if xs == [] then Tally(0, 0, 0, 0, 0, 0, 0)
    else
      var init := xs[..|xs| - 1];
      Add(TallyOf(c, s, init), RunFrom(c, s, init), RunFrom(c, s, xs), xs[|xs| - 1])
  }

  // ---- The balance ----

  ghost predicate AttemptsBalance(s: State, t: Tally) {
    && s.counters.started == s.counters.succeeded + s.counters.failed + Sum(s.jobs, InFlight) + t.attempts
    && s.counters.retried + s.counters.dead == s.counters.failed + Sum(s.jobs, Between) + t.between
  }

  ghost predicate SuccessBalance(s: State, t: Tally) {
    Sum(s.rows, SuccessOf) == s.counters.succeeded + Sum(s.jobs, UncountedSuccess) + t.successes
  }

  ghost predicate RetryBalance(s: State, t: Tally) {
    && Sum(s.rows, RetriesOf) == s.counters.retried + Sum(s.jobs, UncountedRetry) + t.retries + t.schedulerRetries
    && Sum(s.rows, DeathOf) == s.counters.dead + Sum(s.jobs, UncountedDeath) + t.deaths + t.schedulerDeaths
  }

  // ---- One step, as differences ----

  function WeightAt(jobs: map<ActorId, Job>, a: ActorId, weight: Job -> int): int {
    if a in jobs then weight(jobs[a]) else 0
  }

  lemma OnlyTheActorsJob(c: Config, s: State, x: Action, s': State)
    requires Enabled(c, s, x) && s' == Apply(c, s, x)
    ensures if x.Wait? then s'.jobs == s.jobs else s'.jobs - {x.actor} == s.jobs - {x.actor}
  {
    StepJobsBut(c, s, x, s');
  }

  lemma JobsSum(c: Config, s: State, x: Action, weight: Job -> int)
    requires Enabled(c, s, x)
    ensures
      var s' := Apply(c, s, x);
      Sum(s'.jobs, weight) == Sum(s.jobs, weight) +
        if x.Wait? then 0 else WeightAt(s'.jobs, x.actor, weight) - WeightAt(s.jobs, x.actor, weight)
  {
    var s' := Apply(c, s, x);
    OnlyTheActorsJob(c, s, x, s');
    if !x.Wait? { SumLocal(s.jobs, s'.jobs, x.actor, weight); }
  }

  /** What one action does to the sum over the rows. */
  function RowDelta(c: Config, s: State, x: Action, weight: Row -> int): int {
    if x.Advance? && x.actor in s.jobs && RowWrite(c, s, x.actor).Some? && TaskOf(s.jobs[x.actor]) in s.rows
    then weight(RowWrite(c, s, x.actor).value) - weight(s.rows[TaskOf(s.jobs[x.actor])])
    else 0
  }

  lemma RowsSum(c: Config, s: State, x: Action, weight: Row -> int)
    requires Rooted(c, s) && Enabled(c, s, x)
    requires forall p, now :: weight(NewRow(p, now)) == 0
    ensures Sum(Apply(c, s, x).rows, weight) == Sum(s.rows, weight) + RowDelta(c, s, x, weight)
  {
    var s' := Apply(c, s, x);
    if x.Advance? {
      assert JobOk(s, s.jobs[x.actor]);
      var id := TaskOf(s.jobs[x.actor]);
      assert s'.rows - {id} == s.rows - {id};
      SumLocal(s.rows, s'.rows, id, weight);
    } else {
      OtherRows(c, s, x);
      if s'.rows != s.rows {
        assert s'.rows - {x.task} == s.rows - {x.task};
        SumLocal(s.rows, s'.rows, x.task, weight);
      }
    }
  }

  lemma OtherWeights(c: Config, s: State, x: Action)
    requires Enabled(c, s, x) && !x.Advance? && !x.Wait?
    ensures
      var s' := DoOther(c, s, x);
      && WeightAt(s'.jobs, x.actor, InFlight) == WeightAt(s.jobs, x.actor, InFlight) - Ended(s, s', x, InFlight)
      && WeightAt(s'.jobs, x.actor, Between) == WeightAt(s.jobs, x.actor, Between) - Ended(s, s', x, Between)
  {}

  lemma OtherUncounted(c: Config, s: State, x: Action)
    requires Enabled(c, s, x) && !x.Advance? && !x.Wait?
    ensures
      var s' := DoOther(c, s, x);
      && WeightAt(s'.jobs, x.actor, UncountedSuccess)
           == WeightAt(s.jobs, x.actor, UncountedSuccess) - Ended(s, s', x, UncountedSuccess)
      && WeightAt(s'.jobs, x.actor, UncountedRetry)
           == WeightAt(s.jobs, x.actor, UncountedRetry) - Ended(s, s', x, UncountedRetry)
      && WeightAt(s'.jobs, x.actor, UncountedDeath)
           == WeightAt(s.jobs, x.actor, UncountedDeath) - Ended(s, s', x, UncountedDeath)
  {}

  lemma AdvanceAttempts(c: Config, s: State, a: ActorId)
    requires a in s.jobs
    ensures
      var s' := DoAdvance(c, s, a);
      var x := Advance(a);
      && s'.counters.started - s.counters.started
           == s'.counters.succeeded - s.counters.succeeded + s'.counters.failed - s.counters.failed
              + WeightAt(s'.jobs, a, InFlight) - WeightAt(s.jobs, a, InFlight) + Ended(s, s', x, InFlight)
  {}

  lemma AdvanceBetween(c: Config, s: State, a: ActorId)
    requires a in s.jobs
    ensures
      var s' := DoAdvance(c, s, a);
      var x := Advance(a);
      && s'.counters.retried + s'.counters.dead - s.counters.retried - s.counters.dead
           == s'.counters.failed - s.counters.failed
              + WeightAt(s'.jobs, a, Between) - WeightAt(s.jobs, a, Between) + Ended(s, s', x, Between)
  {}

  lemma StepAttempts(c: Config, s: State, x: Action, t: Tally)
    requires Enabled(c, s, x) && AttemptsBalance(s, t)
    ensures AttemptsBalance(Apply(c, s, x), Add(t, s, Apply(c, s, x), x))
  {
    JobsSum(c, s, x, InFlight);
    JobsSum(c, s, x, Between);
    if x.Advance? {
      AdvanceAttempts(c, s, x.actor);
      AdvanceBetween(c, s, x.actor);
    } else {
      OtherStores(c, s, x);
      if !x.Wait? { OtherWeights(c, s, x); }
    }
  }

  lemma AdvanceSuccess(c: Config, s: State, a: ActorId)
    requires a in s.jobs && JobOk(s, s.jobs[a])
    ensures
      var s' := DoAdvance(c, s, a);
      var x := Advance(a);
      RowDelta(c, s, x, SuccessOf)
        == s'.counters.succeeded - s.counters.succeeded
           + WeightAt(s'.jobs, a, UncountedSuccess) - WeightAt(s.jobs, a, UncountedSuccess) + Ended(s, s', x, UncountedSuccess)
  {}

  lemma StepSuccess(c: Config, s: State, x: Action, t: Tally)
    requires Rooted(c, s) && Enabled(c, s, x) && SuccessBalance(s, t)
    ensures SuccessBalance(Apply(c, s, x), Add(t, s, Apply(c, s, x), x))
  {
    JobsSum(c, s, x, UncountedSuccess);
    RowsSum(c, s, x, SuccessOf);
    if x.Advance? {
      AdvanceSuccess(c, s, x.actor);
    } else {
      OtherStores(c, s, x);
      if !x.Wait? { OtherUncounted(c, s, x); }
    }
  }

  lemma AdvanceRetry(c: Config, s: State, a: ActorId)
    requires a in s.jobs && JobOk(s, s.jobs[a])
    ensures
      var s' := DoAdvance(c, s, a);
      var x := Advance(a);
      RowDelta(c, s, x, RetriesOf)
        == s'.counters.retried - s.counters.retried + SchedulerWrote(s, x, Retrying)
           + WeightAt(s'.jobs, a, UncountedRetry) - WeightAt(s.jobs, a, UncountedRetry) + Ended(s, s', x, UncountedRetry)
  {}

  lemma AdvanceDeath(c: Config, s: State, a: ActorId)
    requires a in s.jobs && JobOk(s, s.jobs[a])
    ensures
      var s' := DoAdvance(c, s, a);
      var x := Advance(a);
      RowDelta(c, s, x, DeathOf)
        == s'.counters.dead - s.counters.dead + SchedulerWrote(s, x, Dead)
           + WeightAt(s'.jobs, a, UncountedDeath) - WeightAt(s.jobs, a, UncountedDeath) + Ended(s, s', x, UncountedDeath)
  {}

  lemma StepRetry(c: Config, s: State, x: Action, t: Tally)
    requires Rooted(c, s) && Enabled(c, s, x) && RetryBalance(s, t)
    ensures RetryBalance(Apply(c, s, x), Add(t, s, Apply(c, s, x), x))
  {
    JobsSum(c, s, x, UncountedRetry);
    JobsSum(c, s, x, UncountedDeath);
    RowsSum(c, s, x, RetriesOf);
    RowsSum(c, s, x, DeathOf);
    if x.Advance? {
      AdvanceRetry(c, s, x.actor);
      AdvanceDeath(c, s, x.actor);
    } else {
      OtherStores(c, s, x);
      if !x.Wait? { OtherUncounted(c, s, x); }
    }
  }

  // ---- Over a run ----

  /** In every state of every run, whatever crashed: started attempts are succeeded, failed, in flight
      or cut off; retried and dead ones are the failed ones, up to the handlers between the two
      increments; success rows, retry counts and dead rows are what was counted, what is still to be
      counted, what was cut off, and what timeout recovery wrote. */
  lemma {:induction false} MetricsAreConserved(c: Config, now: int, xs: seq<Action>)
    requires Valid(c, Init(now), xs)
    ensures
      var s := RunFrom(c, Init(now), xs);
      var t := TallyOf(c, Init(now), xs);
      AttemptsBalance(s, t) && SuccessBalance(s, t) && RetryBalance(s, t)
    decreases |xs|
  {
    if xs != [] {
      var init := xs[..|xs| - 1];
      var s := RunFrom(c, Init(now), init);
      var t := TallyOf(c, Init(now), init);
      MetricsAreConserved(c, now, init);
      InitInv(c, now);
      RunKeepsInv(c, Init(now), init);
      StepAttempts(c, s, xs[|xs| - 1], t);
      StepSuccess(c, s, xs[|xs| - 1], t);
      StepRetry(c, s, xs[|xs| - 1], t);
    }
  }

  predicate NoAbort(xs: seq<Action>) {
    forall i :: 0 <= i < |xs| ==> !xs[i].Abort?
  }

  lemma OnlyAbortCutsCounters(c: Config, s: State, x: Action)
    requires Enabled(c, s, x) && !x.Abort?
    ensures
      var s' := Apply(c, s, x);
      && Ended(s, s', x, Between) == 0
      && Ended(s, s', x, UncountedSuccess) == 0
      && Ended(s, s', x, UncountedRetry) == 0
      && Ended(s, s', x, UncountedDeath) == 0
  {}

  lemma {:induction false} TallyWithoutAborts(c: Config, s: State, xs: seq<Action>)
    requires Valid(c, s, xs)
    ensures var t := TallyOf(c, s, xs); t.attempts >= 0 && t.successes >= 0
    ensures NoAbort(xs) ==>
      var t := TallyOf(c, s, xs);
      t.between == 0 && t.successes == 0 && t.retries == 0 && t.deaths == 0
    decreases |xs|
  {
    if xs != [] {
      var init := xs[..|xs| - 1];
      TallyWithoutAborts(c, s, init);
      if NoAbort(xs) {
        assert NoAbort(init);
        OnlyAbortCutsCounters(c, RunFrom(c, s, init), xs[|xs| - 1]);
      }
    }
  }

  /** The success counter never exceeds the success rows. */
  lemma SucceededIsCovered(c: Config, now: int, xs: seq<Action>)
    requires Valid(c, Init(now), xs)
    ensures var s := RunFrom(c, Init(now), xs); s.counters.succeeded <= Sum(s.rows, SuccessOf)
  {
    var s := RunFrom(c, Init(now), xs);
    MetricsAreConserved(c, now, xs);
    TallyWithoutAborts(c, Init(now), xs);
    SumNonNegative(s.jobs, UncountedSuccess);
  }

  /** When no actor is cut off, the retries counted, the scheduler's retries and the ones about to be
      counted add up to the retry counts of all rows; likewise for the dead ones. */
  lemma RetriesAreCounted(c: Config, now: int, xs: seq<Action>)
    requires Valid(c, Init(now), xs) && NoAbort(xs)
    ensures
      var s := RunFrom(c, Init(now), xs);
      var t := TallyOf(c, Init(now), xs);
      && Sum(s.rows, RetriesOf) == s.counters.retried + t.schedulerRetries + Sum(s.jobs, UncountedRetry)
      && Sum(s.rows, DeathOf) == s.counters.dead + t.schedulerDeaths + Sum(s.jobs, UncountedDeath)
      && Sum(s.rows, SuccessOf) == s.counters.succeeded + Sum(s.jobs, UncountedSuccess)
      && s.counters.retried + s.counters.dead == s.counters.failed + Sum(s.jobs, Between)
  {
    MetricsAreConserved(c, now, xs);
    TallyWithoutAborts(c, Init(now), xs);
  }
}
