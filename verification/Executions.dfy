/** No task ends without its handler's word for it. */
module Executions {
  import opened Basics
  import opened Statuses
  import opened Rows
  import opened Protocol
  import opened Safety
  import opened Guarantees

  /** What the handlers that ran the task in xs answered, in order. */
  ghost function Answered(c: Config, s: State, xs: seq<Action>, id: TaskId): seq<Outcome>
    requires Valid(c, s, xs)
    decreases |xs|
  {
    if xs == [] then []
    else
      var init, x := xs[..|xs| - 1], xs[|xs| - 1];
      Answered(c, s, init, id) +
      (if x.Finish? && RunFrom(c, s, init).jobs[x.actor].message.task == id then [x.outcome] else [])
  }

  predicate Fatal(outcome: Outcome) {
    outcome.Fault? && outcome.nonRetryable
  }

  /** Some answer to a run of the task said so. */
  ghost predicate Heard(c: Config, s: State, xs: seq<Action>, id: TaskId, fatal: bool)
    requires Valid(c, s, xs)
  {
    exists outcome :: outcome in Answered(c, s, xs, id) && (if fatal then Fatal(outcome) else outcome == Done)
  }

  /** A handler starts only on the worker's own claim of a pending task, or on taking over a running one by a recovered
      message. */
  lemma StartsAreClaimed(c: Config, s: State, a: ActorId, m: Message)
    requires a in s.jobs && NextJob(c, s, a) == Some(Starting(m))
    ensures
      || (&& s.jobs[a] == Claiming(m) && Matches(s, m.task, Pending)
          && var s' := DoAdvance(c, s, a);
             Matches(s', m.task, Running) && s'.rows[m.task].workerId == Some(c.consumer(a)))
      || (s.jobs[a] == Received(m, true) && Matches(s, m.task, Running))
  {}

  // ---- Success ----

  predicate ClaimsSuccess(s: State, id: TaskId) {
    Matches(s, id, Success) || exists a :: a in s.jobs && s.jobs[a].Succeeding? && s.jobs[a].message.task == id
  }

  predicate Answers(s: State, x: Action, id: TaskId, fatal: bool) {
    && x.Finish? && x.actor in s.jobs && s.jobs[x.actor].Executing? && s.jobs[x.actor].message.task == id
    && (if fatal then Fatal(x.outcome) else x.outcome == Done)
  }

  lemma NewSuccessRow(c: Config, s: State, x: Action, s': State, id: TaskId)
    requires Rooted(c, s) && Enabled(c, s, x) && s' == Apply(c, s, x) && Matches(s', id, Success) && !Matches(s, id, Success)
    ensures ClaimsSuccess(s, id)
  {
    if x.Advance? {
      assert s.jobs[x.actor].Succeeding?;
    } else {
      OtherRows(c, s, x);
    }
  }

  lemma NewSuccessJob(c: Config, s: State, x: Action, s': State, id: TaskId)
    requires Enabled(c, s, x) && s' == Apply(c, s, x) && !x.Wait?
    requires x.actor in s'.jobs && s'.jobs[x.actor].Succeeding? && s'.jobs[x.actor].message.task == id
    ensures Answers(s, x, id, false)
  {}

  lemma SuccessJobs(c: Config, s: State, x: Action, s': State, id: TaskId, a: ActorId)
    requires Enabled(c, s, x) && s' == Apply(c, s, x)
    requires a in s'.jobs && s'.jobs[a].Succeeding? && s'.jobs[a].message.task == id
    ensures Answers(s, x, id, false) || (a in s.jobs && s.jobs[a] == s'.jobs[a])
  {
    if Some(a) == ActorOf(x) { NewSuccessJob(c, s, x, s', id); } else { OthersJob(c, s, x, s', a); }
  }

  lemma OthersJob(c: Config, s: State, x: Action, s': State, a: ActorId)
    requires Enabled(c, s, x) && s' == Apply(c, s, x) && a in s'.jobs && Some(a) != ActorOf(x)
    ensures a in s.jobs && s.jobs[a] == s'.jobs[a]
  {
    StepOthers(c, s, x);
  }

  lemma NewSuccess(c: Config, s: State, x: Action, s': State, id: TaskId)
    requires Rooted(c, s) && Enabled(c, s, x) && s' == Apply(c, s, x) && ClaimsSuccess(s', id)
    ensures ClaimsSuccess(s, id) || Answers(s, x, id, false)
  {
    if Matches(s', id, Success) {
      if !Matches(s, id, Success) { NewSuccessRow(c, s, x, s', id); }
    } else {
      var a :| a in s'.jobs && s'.jobs[a].Succeeding? && s'.jobs[a].message.task == id;
      SuccessJobs(c, s, x, s', id, a);
    }
  }

  // ---- Death with retries left ----

  /** The job carries a non-retryable answer. */
  predicate CarriesFatal(j: Job, id: TaskId, maxRetries: int) {
    match j
    case Failing(m, _, nonRetryable) => nonRetryable && m.task == id
    case Finalizing(t, _, _, _, nonRetryable, _) => nonRetryable && t == id
    case Completing(t, d, _, _) => t == id && d.status == Dead && d.retryCount < maxRetries
    case _ => false
  }

  predicate DiesEarly(s: State, id: TaskId)
    requires id in s.rows
  {
    || (s.rows[id].status == Dead && s.rows[id].retryCount < s.rows[id].maxRetries)
    || exists a :: a in s.jobs && CarriesFatal(s.jobs[a], id, s.rows[id].maxRetries)
  }

  lemma NewDeadRow(c: Config, s: State, x: Action, s': State, id: TaskId)
    requires Rooted(c, s) && Enabled(c, s, x) && s' == Apply(c, s, x) && id in s.rows && id in s'.rows
    requires Matches(s', id, Dead) && !Matches(s, id, Dead) && s'.rows[id].retryCount < s'.rows[id].maxRetries
    ensures DiesEarly(s, id)
  {
    if x.Advance? {
      assert s.jobs[x.actor].Completing?;
      assert CarriesFatal(s.jobs[x.actor], id, s.rows[id].maxRetries);
    } else {
      OtherRows(c, s, x);
    }
  }

  lemma NextFatal(c: Config, s: State, a: ActorId, id: TaskId)
    requires a in s.jobs && JobOk(s, s.jobs[a]) && RowsOk(s) && id in s.rows && NextJob(c, s, a).Some?
    requires CarriesFatal(NextJob(c, s, a).value, id, s.rows[id].maxRetries)
    ensures CarriesFatal(s.jobs[a], id, s.rows[id].maxRetries)
  {
    assert RowShape(s.rows[id]);
  }

  lemma OtherFatal(c: Config, s: State, x: Action, id: TaskId, maxRetries: int)
    requires Enabled(c, s, x) && !x.Advance? && !x.Wait? && x.actor in DoOther(c, s, x).jobs
    requires CarriesFatal(DoOther(c, s, x).jobs[x.actor], id, maxRetries)
    ensures Answers(s, x, id, true)
  {}

  lemma FatalJobs(c: Config, s: State, x: Action, s': State, id: TaskId, a: ActorId, maxRetries: int)
    requires JobsOk(s) && RowsOk(s) && Enabled(c, s, x) && s' == Apply(c, s, x)
    requires id in s.rows && s.rows[id].maxRetries == maxRetries
    requires a in s'.jobs && CarriesFatal(s'.jobs[a], id, maxRetries)
    ensures Answers(s, x, id, true) || (a in s.jobs && CarriesFatal(s.jobs[a], id, maxRetries))
  {
    if Some(a) != ActorOf(x) { OthersJob(c, s, x, s', a); }
    else if x.Advance? { NextFatal(c, s, a, id); }
    else { OtherFatal(c, s, x, id, maxRetries); }
  }

  lemma NewDeath(c: Config, s: State, x: Action, s': State, id: TaskId)
    requires Rooted(c, s) && Enabled(c, s, x) && s' == Apply(c, s, x) && id in s.rows && id in s'.rows
    requires SameTask(s.rows[id], s'.rows[id]) && RowStep(s.rows[id], s'.rows[id]) && DiesEarly(s', id)
    ensures DiesEarly(s, id) || Answers(s, x, id, true)
  {
    if Matches(s', id, Dead) && s'.rows[id].retryCount < s'.rows[id].maxRetries {
      if !Matches(s, id, Dead) { NewDeadRow(c, s, x, s', id); }
    } else {
      var a :| a in s'.jobs && CarriesFatal(s'.jobs[a], id, s'.rows[id].maxRetries);
      FatalJobs(c, s, x, s', id, a, s.rows[id].maxRetries);
    }
  }

  lemma SubmittedJobIsNew(c: Config, s: State, x: Action, s': State)
    requires Enabled(c, s, x) && s' == Apply(c, s, x) && x.Submit? && x.actor in s'.jobs
    ensures s'.jobs[x.actor].ZAdding? || s'.jobs[x.actor].Publishing?
  {}

  /** A task that was just inserted is pending or scheduled, and no job is about its end. */
  lemma Inserted(c: Config, s: State, x: Action, s': State, id: TaskId)
    requires RowsOk(s) && JobsOk(s) && Enabled(c, s, x) && s' == Apply(c, s, x) && id !in s.rows && id in s'.rows
    ensures x.Submit? && (s'.rows[id].status == Scheduled || s'.rows[id].status == Pending)
  {
    if x.Advance? {
      assert JobOk(s, s.jobs[x.actor]);
      AdvanceWrites(c, s, x.actor);
    } else {
      OtherRows(c, s, x);
    }
  }

  lemma NobodyCarries(c: Config, s: State, x: Action, s': State, id: TaskId, a: ActorId)
    requires JobsOk(s) && Enabled(c, s, x) && s' == Apply(c, s, x) && id !in s.rows && x.Submit? && a in s'.jobs
    ensures !(s'.jobs[a].Succeeding? && s'.jobs[a].message.task == id)
    ensures forall maxRetries :: !CarriesFatal(s'.jobs[a], id, maxRetries)
  {
    if Some(a) == ActorOf(x) {
      SubmittedJobIsNew(c, s, x, s');
    } else {
      OthersJob(c, s, x, s', a);
      assert JobOk(s, s.jobs[a]);
    }
  }

  lemma NewTaskHasNoEnd(c: Config, s: State, x: Action, s': State, id: TaskId)
    requires RowsOk(s) && JobsOk(s) && Enabled(c, s, x) && s' == Apply(c, s, x) && id !in s.rows && id in s'.rows
    ensures !DiesEarly(s', id) && !ClaimsSuccess(s', id)
  {
    Inserted(c, s, x, s', id);
    forall a | a in s'.jobs
      ensures !CarriesFatal(s'.jobs[a], id, s'.rows[id].maxRetries)
      ensures !(s'.jobs[a].Succeeding? && s'.jobs[a].message.task == id)
    {
      NobodyCarries(c, s, x, s', id, a);
    }
  }

  // ---- Over a run ----

  lemma HeardStays(c: Config, s: State, xs: seq<Action>, id: TaskId, fatal: bool)
    requires Valid(c, s, xs) && xs != []
    ensures Heard(c, s, xs[..|xs| - 1], id, fatal) ==> Heard(c, s, xs, id, fatal)
    ensures Answers(RunFrom(c, s, xs[..|xs| - 1]), xs[|xs| - 1], id, fatal) ==> Heard(c, s, xs, id, fatal)
  {
    var init, x := xs[..|xs| - 1], xs[|xs| - 1];
    if Heard(c, s, init, id, fatal) {
      var outcome :| outcome in Answered(c, s, init, id) && (if fatal then Fatal(outcome) else outcome == Done);
      assert outcome in Answered(c, s, xs, id);
    }
    if Answers(RunFrom(c, s, init), x, id, fatal) { assert x.outcome in Answered(c, s, xs, id); }
  }

  /** A row is success only if a handler that ran the task answered without an error, and dead with retries left only
      if one answered with a non-retryable error. */
  lemma {:induction false} EndsAreAnswered(c: Config, now: int, xs: seq<Action>, id: TaskId)
    requires Valid(c, Init(now), xs) && id in RunFrom(c, Init(now), xs).rows
    ensures ClaimsSuccess(RunFrom(c, Init(now), xs), id) ==> Heard(c, Init(now), xs, id, false)
    ensures DiesEarly(RunFrom(c, Init(now), xs), id) ==> Heard(c, Init(now), xs, id, true)
    decreases |xs|
  {
    var init, x := xs[..|xs| - 1], xs[|xs| - 1];
    var s, s' := RunFrom(c, Init(now), init), RunFrom(c, Init(now), xs);
    InitInv(c, now);
    RunKeepsInv(c, Init(now), init);
    if id in s.rows {
      EndsAreAnswered(c, now, init, id);
      HeardStays(c, Init(now), xs, id, false);
      HeardStays(c, Init(now), xs, id, true);
      RowChange(c, s, x, s', id);
      if ClaimsSuccess(s', id) { NewSuccess(c, s, x, s', id); }
      if DiesEarly(s', id) { NewDeath(c, s, x, s', id); }
    } else {
      NewTaskHasNoEnd(c, s, x, s', id);
    }
  }

  lemma RowChange(c: Config, s: State, x: Action, s': State, id: TaskId)
    requires Rooted(c, s) && Enabled(c, s, x) && s' == Apply(c, s, x) && id in s.rows
    ensures id in s'.rows && SameTask(s.rows[id], s'.rows[id]) && RowStep(s.rows[id], s'.rows[id])
  {
    StepFrame(c, s, x);
  }
}
