/** What each write leaves in the columns of a row, and which action of the run that was. */
module Columns {
  import opened Basics
  import opened Statuses
  import opened Retry
  import opened Rows
  import opened Protocol
  import opened Safety
  import opened Guarantees
  import opened Deadlines

  /** The job of the action's actor, for an actor that goes on. */
  predicate By(s: State, x: Action, id: TaskId) {
    x.Advance? && x.actor in s.jobs && TaskOf(s.jobs[x.actor]) == id
  }

  /** The columns of r that only a claim, a failure or an end may change are those of q. */
  predicate SameRun(q: Row, r: Row) {
    r.workerId == q.workerId && r.startedAt == q.startedAt
  }

  /** Row r of task id is what the action x of state s has written: a new row is what was submitted; a running one is its
      claimer's, from now on; an ended one ended now. */
  predicate Writes(c: Config, s: State, x: Action, id: TaskId, r: Row) {
    if id !in s.rows then x.Submit? && x.task == id && AsSubmitted(r, x.params, s.now)
    else
      var q := s.rows[id];
      && By(s, x, id) && r.updatedAt == s.now && SameTask(q, r)
      && var j := s.jobs[x.actor];
         match r.status
         case Pending => j == Dispatching(id, q.status) && r.nextRetryAt == None && SameRun(q, r)
         case Running =>
           && q.status == Pending && j.Claiming?
           && r.workerId == Some(c.consumer(x.actor)) && r.startedAt == Some(s.now)
         case Success => q.status == Running && j.Succeeding? && r.finishedAt == Some(s.now) && SameRun(q, r)
         case Failed => q.status == Running && (j.Failing? || j.Recovering?) && r.lastError == Some(j.failure) && SameRun(q, r)
         case Retrying =>
           && q.status == Failed && j.Completing? && SameRun(q, r)
           && r.retryCount == q.retryCount + 1 && r.lastError == Some(j.failure)
           && j.decision.nextRetryAt.Some? && r.nextRetryAt.Some?
           && r.nextRetryAt.value <= j.decision.nextRetryAt.value < r.nextRetryAt.value + MICROSECOND
         case Dead =>
           && q.status == Failed && j.Completing? && SameRun(q, r)
           && r.retryCount == q.retryCount && r.lastError == Some(j.failure)
           && r.finishedAt == Some(s.now)
         case Scheduled => false
  }

  lemma AdvanceColumns(c: Config, s: State, a: ActorId, id: TaskId)
    requires RowsOk(s) && a in s.jobs && JobOk(s, s.jobs[a]) && id in s.rows
    requires id in NextRows(c, s, a) && NextRows(c, s, a)[id] != s.rows[id]
    ensures Writes(c, s, Advance(a), id, NextRows(c, s, a)[id])
  {
    assert RowShape(s.rows[id]);
    if s.jobs[a].Completing? && s.jobs[a].decision.nextRetryAt.Some? {
      StoredInstant(s.jobs[a].decision.nextRetryAt.value);
    }
  }

  lemma StepColumns(c: Config, s: State, x: Action, s': State, id: TaskId)
    requires Rooted(c, s) && Enabled(c, s, x) && s' == Apply(c, s, x)
    requires id in s'.rows && (id !in s.rows || s'.rows[id] != s.rows[id])
    ensures Writes(c, s, x, id, s'.rows[id])
  {
    if x.Advance? {
      AdvanceWrites(c, s, x.actor);
      AdvanceColumns(c, s, x.actor, id);
    } else {
      OtherRows(c, s, x);
      NewRowIsAsSubmitted(x.params, s.now);
    }
  }

  /** Every row is as some action of the run wrote it. */
  lemma {:induction false} LastWrite(c: Config, now: int, xs: seq<Action>, id: TaskId) returns (i: nat, s: State)
    requires Valid(c, Init(now), xs) && id in RunFrom(c, Init(now), xs).rows
    ensures i < |xs| && Ran(c, Init(now), xs[..i], s) && Enabled(c, s, xs[i])
    ensures Writes(c, s, xs[i], id, RunFrom(c, Init(now), xs).rows[id])
    decreases |xs|
  {
    var n := |xs| - 1;
    var s', before := RunFrom(c, Init(now), xs), RunFrom(c, Init(now), xs[..n]);
    if id in before.rows && s'.rows[id] == before.rows[id] {
      i, s := LastWrite(c, now, xs[..n], id);
      assert xs[..n][..i] == xs[..i];
    } else {
      i, s := n, before;
      InitInv(c, now);
      RunKeepsInv(c, Init(now), xs[..n]);
      StepColumns(c, before, xs[n], s', id);
    }
  }

  /** Every task was created by one submission of the run. */
  lemma {:induction false} SomebodyCreated(c: Config, now: int, xs: seq<Action>, id: TaskId) returns (i: nat)
    requires Valid(c, Init(now), xs) && id in RunFrom(c, Init(now), xs).rows
    ensures Creates(c, Init(now), xs, i, id)
    decreases |xs|
  {
    var n := |xs| - 1;
    var s', before := RunFrom(c, Init(now), xs), RunFrom(c, Init(now), xs[..n]);
    if id in before.rows {
      i := SomebodyCreated(c, now, xs[..n], id);
      assert xs[..n][..i] == xs[..i];
    } else {
      i := n;
      InitInv(c, now);
      RunKeepsInv(c, Init(now), xs[..n]);
      StepColumns(c, before, xs[n], s', id);
    }
  }

  /** A running task is in the name of the worker whose claim it was, and runs since that claim. */
  lemma RunningIsItsClaimers(c: Config, now: int, xs: seq<Action>, id: TaskId) returns (i: nat, s: State, a: ActorId)
    requires Valid(c, Init(now), xs) && Matches(RunFrom(c, Init(now), xs), id, Running)
    ensures i < |xs| && Ran(c, Init(now), xs[..i], s) && xs[i] == Advance(a)
    ensures a in s.jobs && s.jobs[a].Claiming? && s.jobs[a].message.task == id && Matches(s, id, Pending)
    ensures
      var r := RunFrom(c, Init(now), xs).rows[id];
      r.workerId == Some(c.consumer(a)) && r.startedAt == Some(s.now) && r.updatedAt == s.now
  {
    i, s := LastWrite(c, now, xs, id);
    a := xs[i].actor;
    InitInv(c, now);
    RunKeepsInv(c, Init(now), xs[..i]);
  }

  /** A task that is over ended at the instant of the write that ended it, and was not touched since. */
  lemma EndedWhenItEnded(c: Config, now: int, xs: seq<Action>, id: TaskId) returns (i: nat, s: State, a: ActorId)
    requires Valid(c, Init(now), xs) && id in RunFrom(c, Init(now), xs).rows
    requires RunFrom(c, Init(now), xs).rows[id].status.IsTerminal()
    ensures i < |xs| && Ran(c, Init(now), xs[..i], s) && xs[i] == Advance(a) && a in s.jobs
    ensures id in s.rows && !s.rows[id].status.IsTerminal()
    ensures
      var r := RunFrom(c, Init(now), xs).rows[id];
      && r.finishedAt == Some(s.now) && r.updatedAt == s.now
      && (if r.status == Success then s.jobs[a].Succeeding? else s.jobs[a].Completing?)
  {
    i, s := LastWrite(c, now, xs, id);
    a := xs[i].actor;
  }

  // ---- What was submitted ----

  /** The i-th action is the submission that created the task. */
  ghost predicate Creates(c: Config, s: State, xs: seq<Action>, i: int, id: TaskId) {
    && 0 <= i < |xs| && xs[i].Submit? && xs[i].task == id && Valid(c, s, xs[..i]) && Enabled(c, RunFrom(c, s, xs[..i]), xs[i])
    && id !in RunFrom(c, s, xs[..i]).rows && id in Apply(c, RunFrom(c, s, xs[..i]), xs[i]).rows
  }

  /** The task is, and stays, what the submission that created it asked for. */
  lemma StaysAsSubmitted(c: Config, now: int, xs: seq<Action>, i: nat, id: TaskId)
    requires Valid(c, Init(now), xs) && Creates(c, Init(now), xs, i, id)
    ensures id in RunFrom(c, Init(now), xs).rows
    ensures
      var r, p := RunFrom(c, Init(now), xs).rows[id], xs[i].params;
      && r.taskType == p.taskType && r.traceId == p.traceId && r.idempotencyKey == p.idempotencyKey
      && r.timeoutSeconds == p.timeoutSeconds && r.maxRetries == p.maxRetries
      && r.runAt <= p.runAt < r.runAt + MICROSECOND && UnixSeconds(r.runAt) == UnixSeconds(p.runAt)
      && r.createdAt == RunFrom(c, Init(now), xs[..i]).now
  {
    var before := SplitRun(c, Init(now), xs, i);
    var s1 := Apply(c, before, xs[i]);
    InitInv(c, now);
    RunKeepsInv(c, Init(now), xs[..i]);
    StepColumns(c, before, xs[i], s1, id);
    StepInv(c, before, xs[i]);
    RunKeepsTasks(c, s1, xs[i + 1..], id);
  }

  /** A delayed task is not dispatched a second or more before the instant it was submitted for, with any number of
      schedulers. */
  lemma DispatchedAsSubmitted(c: Config, now: int, xs: seq<Action>, i: nat, x: Action, id: TaskId)
    requires Valid(c, Init(now), xs) && Creates(c, Init(now), xs, i, id)
    requires
      var s := RunFrom(c, Init(now), xs);
      Enabled(c, s, x) && Matches(s, id, Scheduled) && id in Apply(c, s, x).rows && Apply(c, s, x).rows[id] != s.rows[id]
    ensures xs[i].params.runAt < RunFrom(c, Init(now), xs).now + SECOND
  {
    StaysAsSubmitted(c, now, xs, i, id);
    var s := RunFrom(c, Init(now), xs);
    RunIsZSetTimely(c, now, xs);
    DispatchesDueMember(c, s, x, id);
    WholeSeconds(xs[i].params.runAt);
    WholeSeconds(s.now);
  }
}
