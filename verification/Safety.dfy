/** Invariants of the protocol, kept by every action of every actor. */
module Safety {
  import opened Basics
  import opened Statuses
  import opened Retry
  import opened Rows
  import opened Protocol

  // ---- What a job relies on ----

  predicate MessageOk(s: State, m: Message) {
    && m.entry < s.delivered && m.entry < |s.stream|
    && s.stream[m.entry].task == m.task
    && m.task in s.rows
  }

  /** Attempt k of the row was opened: the row became pending for it. */
  predicate Opened(r: Row, k: int) {
    0 <= k && r.status != Scheduled && (k < r.retryCount || (k == r.retryCount && r.status != Retrying))
  }

  /** Attempt k of the row is over. */
  predicate AttemptOver(r: Row, k: int) {
    r.status.IsTerminal() || r.retryCount > k
  }

  predicate Closed(s: State, m: Message) {
    MessageOk(s, m) && AttemptOver(s.rows[m.task], s.stream[m.entry].attempt)
  }

  predicate OwnerOk(s: State, id: TaskId, owner: Owner) {
    owner.Worker? ==> MessageOk(s, owner.message) && owner.message.task == id
  }

  predicate DecisionOk(r: Row, d: FailureDecision) {
    || (d.status == Retrying && d.retryCount == r.retryCount + 1 <= r.maxRetries && d.nextRetryAt.Some?)
    || (d.status == Dead && d.retryCount == r.retryCount && d.nextRetryAt.None?)
  }

  predicate IsDead(s: State, id: TaskId, failure: string, retryCount: int) {
    Matches(s, id, Dead) && s.rows[id].lastError == Some(failure) && s.rows[id].retryCount == retryCount
  }

  predicate JobOk(s: State, j: Job) {
    match j
    case ZAdding(id, runAt) => id in s.rows && s.rows[id].runAt == runAt
    case Publishing(id, k, _) => id in s.rows && Opened(s.rows[id], k)
    case CountingSubmitted(id) => id in s.rows
    case Inspecting(id) => id in s.rows
    case Dispatching(id, from) => id in s.rows && (from == Scheduled || from == Retrying)
    case Removing(id) => id in s.rows && s.rows[id].status != Scheduled
    case Recovering(id, _) => id in s.rows
    case Received(m, _) => MessageOk(s, m)
    case Claiming(m) => MessageOk(s, m)
    case Starting(m) => MessageOk(s, m)
    case Executing(m) => MessageOk(s, m)
    case Succeeding(m) => MessageOk(s, m)
    case CountingSuccess(m) => MessageOk(s, m) && s.rows[m.task].status == Success
    case Failing(m, _, _) => MessageOk(s, m)
    case Finalizing(id, n, max, failure, nonRetryable, owner) =>
      && Matches(s, id, Failed) && OwnerOk(s, id, owner)
      && s.rows[id].retryCount == n && s.rows[id].maxRetries == max && s.rows[id].lastError == Some(failure)
      && (nonRetryable ==> owner.Worker?)
    case Completing(id, d, failure, owner) =>
      && Matches(s, id, Failed) && OwnerOk(s, id, owner)
      && DecisionOk(s.rows[id], d) && s.rows[id].lastError == Some(failure)
    case CountingOutcome(id, died, failure, n, m) =>
      Closed(s, m) && m.task == id && (died ==> IsDead(s, id, failure, n))
    case Burying(id, failure, n, owner) =>
      IsDead(s, id, failure, n) && OwnerOk(s, id, owner) && (owner.Worker? ==> Closed(s, owner.message))
    case CountingFailure(m) => Closed(s, m)
    case Acking(m) => Closed(s, m)
  }

  predicate EntryOk(s: State, e: Entry) {
    e.task in s.rows && Opened(s.rows[e.task], e.attempt)
  }

  predicate TickOk(c: Config, s: State, t: Tick) {
    && t.now <= s.now
    && |t.todo| <= c.scanLimit
    && Distinct(t.todo)
    && (forall id :: id in t.todo ==> id in s.rows)
    && (!Processing(t.phase) ==> t.todo == [])
  }

  predicate OfScheduler(j: Job) {
    match j
    case Inspecting(_) => true
    case Dispatching(_, _) => true
    case Removing(_) => true
    case Recovering(_, _) => true
    case Publishing(_, _, origin) => origin != Created
    case Finalizing(_, _, _, _, _, owner) => owner.Scheduler?
    case Completing(_, _, _, owner) => owner.Scheduler?
    case Burying(_, _, _, owner) => owner.Scheduler?
    case _ => false
  }

  // ---- The invariants ----

  predicate RowsOk(s: State) {
    forall id :: id in s.rows ==> RowShape(s.rows[id])
  }

  predicate JobsOk(s: State) {
    forall a :: a in s.jobs ==> JobOk(s, s.jobs[a])
  }

  predicate StreamOk(s: State) {
    && s.delivered <= |s.stream|
    && (forall i :: 0 <= i < |s.stream| ==> EntryOk(s, s.stream[i]))
    && (forall i :: i in s.pel ==> i < s.delivered)
  }

  predicate ZSetOk(s: State) {
    forall id :: id in s.zset ==> id in s.rows && s.zset[id] == UnixSeconds(s.rows[id].runAt)
  }

  predicate TicksOk(c: Config, s: State) {
    && (forall a :: a in s.ticks ==> a in c.schedulers && TickOk(c, s, s.ticks[a]))
    && (forall a :: a in s.jobs ==> (a in c.schedulers <==> OfScheduler(s.jobs[a])))
    && (forall a :: a in s.jobs && a in c.schedulers ==> a in s.ticks)
  }

  function Held(j: Job): set<TaskId> {
    match j
    case Finalizing(id, _, _, _, _, _) => {id}
    case Completing(id, _, _, _) => {id}
    case _ => {}
  }

  /** At most one actor stands between a task's MarkFailed and its CompleteFailure. */
  predicate OneFinalizer(s: State) {
    forall a, b :: a in s.jobs && b in s.jobs && a != b ==> Held(s.jobs[a]) !! Held(s.jobs[b])
  }

  predicate Rooted(c: Config, s: State) {
    RowsOk(s) && JobsOk(s) && StreamOk(s) && ZSetOk(s) && TicksOk(c, s) && OneFinalizer(s)
  }

  // ---- One step ----

  /** Rows only take protocol writes, streams only grow. */
  predicate Frame(s: State, s': State) {
    && s.now <= s'.now
    && s.delivered <= s'.delivered
    && s.stream <= s'.stream
    && (forall id :: id in s.rows ==> id in s'.rows && RowStep(s.rows[id], s'.rows[id]))
  }

  /** The step wrote one row, by one of the protocol's writes. */
  predicate Wrote(s: State, s': State, id: TaskId) {
    && id in s.rows
    && id in s'.rows
    && s'.rows == s.rows[id := s'.rows[id]]
    && RowStep(s.rows[id], s'.rows[id])
    && RowShape(s'.rows[id])
  }

  predicate WroteAtMost(s: State, s': State, id: TaskId) {
    s'.rows == s.rows || Wrote(s, s', id)
  }

  lemma AdvanceWrites(c: Config, s: State, a: ActorId)
    requires RowsOk(s) && a in s.jobs && JobOk(s, s.jobs[a])
    ensures WroteAtMost(s, DoAdvance(c, s, a), TaskOf(s.jobs[a]))
  {}

  lemma AdvanceFrame(c: Config, s: State, a: ActorId)
    requires RowsOk(s) && a in s.jobs && JobOk(s, s.jobs[a])
    ensures Frame(s, DoAdvance(c, s, a)) && RowsOk(DoAdvance(c, s, a))
  {
    AdvanceWrites(c, s, a);
  }

  predicate Inserts(s: State, s': State, x: Action) {
    && x.Submit?
    && x.task !in s.rows
    && Accepted(x.params)
    && s'.rows == s.rows[x.task := NewRow(x.params, s.now)]
  }

  lemma OtherRows(c: Config, s: State, x: Action)
    requires Enabled(c, s, x) && !x.Advance?
    ensures
      var s' := DoOther(c, s, x);
      && (s'.rows == s.rows || Inserts(s, s', x))
      && s.now <= s'.now && s.delivered <= s'.delivered && s'.stream == s.stream
  {}

  lemma OtherStores(c: Config, s: State, x: Action)
    requires Enabled(c, s, x) && !x.Advance?
    ensures
      var s' := DoOther(c, s, x);
      s'.stream == s.stream && s'.zset == s.zset && s'.dead == s.dead && s'.counters == s.counters
  {}

  lemma StepFrame(c: Config, s: State, x: Action)
    requires RowsOk(s) && JobsOk(s) && Enabled(c, s, x)
    ensures Frame(s, Apply(c, s, x)) && RowsOk(Apply(c, s, x))
  {
    if x.Advance? {
      AdvanceFrame(c, s, x.actor);
    } else {
      OtherRows(c, s, x);
    }
  }

  // ---- Jobs of the other actors ----

  lemma JobStable(s: State, s': State, j: Job)
    requires RowsOk(s) && Frame(s, s') && JobOk(s, j)
    requires forall id :: id in Held(j) ==> s'.rows[id] == s.rows[id]
    ensures JobOk(s', j)
  {
    assert s.rows[TaskOf(j)] == s.rows[TaskOf(j)];
  }

  /** An action changes no job but its actor's. */
  predicate OthersKept(s: State, s': State, x: Action) {
    && (forall b :: b in s.jobs && Some(b) != ActorOf(x) ==> b in s'.jobs && s'.jobs[b] == s.jobs[b])
    && (forall b :: b in s'.jobs && Some(b) != ActorOf(x) ==> b in s.jobs)
  }

  /** At most the actor's own job differs. */
  predicate JobsBut(jobs: map<ActorId, Job>, jobs': map<ActorId, Job>, a: ActorId) {
    jobs' == jobs || jobs' == jobs - {a} || (a in jobs' && jobs' == jobs[a := jobs'[a]])
  }

  lemma OtherJobs(c: Config, s: State, x: Action)
    requires Enabled(c, s, x) && !x.Advance?
    ensures if x.Wait? then DoOther(c, s, x).jobs == s.jobs else JobsBut(s.jobs, DoOther(c, s, x).jobs, x.actor)
  {}

  lemma StepJobsBut(c: Config, s: State, x: Action, s': State)
    requires Enabled(c, s, x) && s' == Apply(c, s, x)
    ensures if x.Wait? then s'.jobs == s.jobs else JobsBut(s.jobs, s'.jobs, x.actor)
  {
    if !x.Advance? { OtherJobs(c, s, x); }
  }

  lemma StepOthers(c: Config, s: State, x: Action)
    requires Enabled(c, s, x)
    ensures OthersKept(s, Apply(c, s, x), x)
  {
    StepJobsBut(c, s, x, Apply(c, s, x));
  }

  /** While a job stands between MarkFailed and CompleteFailure, nobody else writes its row. */
  lemma HeldFrozen(c: Config, s: State, x: Action, b: ActorId, id: TaskId)
    requires Rooted(c, s) && Enabled(c, s, x)
    requires b in s.jobs && Some(b) != ActorOf(x) && id in Held(s.jobs[b])
    ensures id in s.rows && id in Apply(c, s, x).rows && Apply(c, s, x).rows[id] == s.rows[id]
  {
    assert JobOk(s, s.jobs[b]);
    if x.Advance? { AdvanceSpares(c, s, x.actor, b, id); } else { OtherRows(c, s, x); }
  }

  lemma AdvanceSpares(c: Config, s: State, a: ActorId, b: ActorId, id: TaskId)
    requires RowsOk(s) && JobsOk(s) && OneFinalizer(s) && a in s.jobs && b in s.jobs && a != b && id in Held(s.jobs[b])
    ensures id in s.rows && id in NextRows(c, s, a) && NextRows(c, s, a)[id] == s.rows[id]
  {
    assert JobOk(s, s.jobs[b]) && JobOk(s, s.jobs[a]);
    AdvanceWrites(c, s, a);
    assert Held(s.jobs[b]) !! Held(s.jobs[a]);
  }

  predicate OnFailurePath(j: Job) {
    j.Recovering? || j.Failing? || j.Finalizing? || j.Completing? || j.CountingOutcome? || j.Burying?
  }

  predicate OnWorkerPath(j: Job) {
    || j.Received? || j.Claiming? || j.Starting? || j.Executing?
    || j.Succeeding? || j.CountingSuccess? || j.CountingFailure? || j.Acking?
  }

  lemma DecideOk(r: Row, now: int, nonRetryable: bool)
    requires RowShape(r)
    ensures DecisionOk(r, Decide(now, r.retryCount, r.maxRetries, nonRetryable))
  {}

  lemma AdvanceFinalizer(c: Config, s: State, a: ActorId)
    requires RowsOk(s) && a in s.jobs && JobOk(s, s.jobs[a])
    requires s.jobs[a].Finalizing? && Frame(s, DoAdvance(c, s, a))
    ensures JobOk(DoAdvance(c, s, a), NextJob(c, s, a).value)
  {
    var j := s.jobs[a];
    DecideOk(s.rows[j.task], DecisionTime(s, a, j.owner), j.nonRetryable);
  }

  lemma AdvanceCompleter(c: Config, s: State, a: ActorId)
    requires RowsOk(s) && StreamOk(s) && a in s.jobs && JobOk(s, s.jobs[a])
    requires s.jobs[a].Completing? && Frame(s, DoAdvance(c, s, a))
    ensures var n := NextJob(c, s, a); n.Some? ==> JobOk(DoAdvance(c, s, a), n.value)
  {
    var j := s.jobs[a];
    if j.owner.Worker? { assert EntryOk(s, s.stream[j.owner.message.entry]); }
  }

  lemma AdvanceMarker(c: Config, s: State, a: ActorId)
    requires RowsOk(s) && a in s.jobs && JobOk(s, s.jobs[a])
    requires (s.jobs[a].Recovering? || s.jobs[a].Failing?) && Frame(s, DoAdvance(c, s, a))
    ensures var n := NextJob(c, s, a); n.Some? ==> JobOk(DoAdvance(c, s, a), n.value)
  {}

  lemma AdvanceRecorder(c: Config, s: State, a: ActorId)
    requires a in s.jobs && JobOk(s, s.jobs[a])
    requires (s.jobs[a].CountingOutcome? || s.jobs[a].Burying?) && Frame(s, DoAdvance(c, s, a))
    ensures var n := NextJob(c, s, a); n.Some? ==> JobOk(DoAdvance(c, s, a), n.value)
  {}

  lemma AdvanceFailureJob(c: Config, s: State, a: ActorId)
    requires RowsOk(s) && StreamOk(s) && a in s.jobs && JobOk(s, s.jobs[a])
    requires OnFailurePath(s.jobs[a]) && Frame(s, DoAdvance(c, s, a))
    ensures var n := NextJob(c, s, a); n.Some? ==> JobOk(DoAdvance(c, s, a), n.value)
  {
    if s.jobs[a].Finalizing? { AdvanceFinalizer(c, s, a); }
    else if s.jobs[a].Completing? { AdvanceCompleter(c, s, a); }
    else if s.jobs[a].Recovering? || s.jobs[a].Failing? { AdvanceMarker(c, s, a); }
    else { AdvanceRecorder(c, s, a); }
  }

  lemma AdvanceWorkerJob(c: Config, s: State, a: ActorId)
    requires a in s.jobs && JobOk(s, s.jobs[a])
    requires OnWorkerPath(s.jobs[a]) && Frame(s, DoAdvance(c, s, a))
    ensures var n := NextJob(c, s, a); n.Some? ==> JobOk(DoAdvance(c, s, a), n.value)
  {}

  lemma AdvanceDispatchJob(c: Config, s: State, a: ActorId)
    requires RowsOk(s) && a in s.jobs && JobOk(s, s.jobs[a])
    requires !OnWorkerPath(s.jobs[a]) && !OnFailurePath(s.jobs[a]) && Frame(s, DoAdvance(c, s, a))
    ensures var n := NextJob(c, s, a); n.Some? ==> JobOk(DoAdvance(c, s, a), n.value)
  {
    assert RowShape(s.rows[TaskOf(s.jobs[a])]);
  }

  lemma AdvanceJob(c: Config, s: State, a: ActorId)
    requires RowsOk(s) && StreamOk(s) && a in s.jobs && JobOk(s, s.jobs[a])
    requires Frame(s, DoAdvance(c, s, a))
    ensures var n := NextJob(c, s, a); n.Some? ==> JobOk(DoAdvance(c, s, a), n.value)
  {
    if OnFailurePath(s.jobs[a]) { AdvanceFailureJob(c, s, a); }
    else if OnWorkerPath(s.jobs[a]) { AdvanceWorkerJob(c, s, a); }
    else { AdvanceDispatchJob(c, s, a); }
  }

  lemma TakeJob(c: Config, s: State, a: ActorId)
    requires TicksOk(c, s) && Enabled(c, s, Take(a))
    ensures JobOk(DoTake(s, a), DoTake(s, a).jobs[a])
  {
    assert TickOk(c, s, s.ticks[a]);
    assert s.ticks[a].todo[0] in s.ticks[a].todo;
  }

  lemma DeliveredJob(c: Config, s: State, x: Action)
    requires StreamOk(s) && Enabled(c, s, x) && (x.Deliver? || x.Reclaim?)
    ensures var s' := DoOther(c, s, x); JobOk(s', s'.jobs[x.actor])
  {
    assert EntryOk(s, s.stream[if x.Deliver? then s.delivered else x.entry]);
  }

  lemma HandlerJob(c: Config, s: State, x: Action)
    requires Enabled(c, s, x) && (x.Finish? || x.BuryFails?) && JobOk(s, s.jobs[x.actor])
    ensures var s' := DoOther(c, s, x); x.actor in s'.jobs ==> JobOk(s', s'.jobs[x.actor])
  {}

  lemma SubmittedJob(c: Config, s: State, x: Action)
    requires Enabled(c, s, x) && x.Submit?
    ensures var s' := DoOther(c, s, x); x.actor in s'.jobs ==> JobOk(s', s'.jobs[x.actor])
  {}

  lemma ActorUnchanged(c: Config, s: State, x: Action)
    requires Enabled(c, s, x) && !x.Wait?
    requires x.StartTick? || x.Scan? || x.EndPhase? || x.StopTick? || x.Abort?
    ensures x.actor !in DoOther(c, s, x).jobs
  {}

  lemma OtherJob(c: Config, s: State, x: Action)
    requires Rooted(c, s) && Enabled(c, s, x) && !x.Advance? && !x.Wait?
    ensures var s' := DoOther(c, s, x); x.actor in s'.jobs ==> JobOk(s', s'.jobs[x.actor])
  {
    if x.Take? { TakeJob(c, s, x.actor); }
    else if x.Deliver? || x.Reclaim? { DeliveredJob(c, s, x); }
    else if x.Finish? || x.BuryFails? { HandlerJob(c, s, x); }
    else if x.Submit? { SubmittedJob(c, s, x); }
    else { ActorUnchanged(c, s, x); }
  }

  lemma StepJobs(c: Config, s: State, x: Action)
    requires Rooted(c, s) && Enabled(c, s, x)
    ensures JobsOk(Apply(c, s, x))
  {
    var s' := Apply(c, s, x);
    StepFrame(c, s, x);
    StepOthers(c, s, x);
    forall b | b in s'.jobs
      ensures JobOk(s', s'.jobs[b])
    {
      if Some(b) != ActorOf(x) {
        forall id | id in Held(s.jobs[b]) ensures s'.rows[id] == s.rows[id] { HeldFrozen(c, s, x, b, id); }
        JobStable(s, s', s.jobs[b]);
      } else if x.Advance? {
        AdvanceJob(c, s, b);
      } else {
        OtherJob(c, s, x);
      }
    }
  }

  // ---- The other invariants ----

  lemma AdvanceStream(c: Config, s: State, a: ActorId)
    requires StreamOk(s) && a in s.jobs && JobOk(s, s.jobs[a])
    requires Frame(s, DoAdvance(c, s, a))
    ensures StreamOk(DoAdvance(c, s, a))
  {
    var s' := DoAdvance(c, s, a);
    forall i | 0 <= i < |s'.stream|
      ensures EntryOk(s', s'.stream[i])
    {
      if i < |s.stream| { assert EntryOk(s, s.stream[i]); }
    }
  }

  lemma OtherStream(c: Config, s: State, x: Action)
    requires StreamOk(s) && Enabled(c, s, x) && !x.Advance?
    requires Frame(s, DoOther(c, s, x)) && DoOther(c, s, x).stream == s.stream
    ensures StreamOk(DoOther(c, s, x))
  {
    var s' := DoOther(c, s, x);
    forall i | 0 <= i < |s'.stream|
      ensures EntryOk(s', s'.stream[i])
    {
      assert EntryOk(s, s.stream[i]);
    }
  }

  lemma StepStream(c: Config, s: State, x: Action)
    requires Rooted(c, s) && Enabled(c, s, x) && Frame(s, Apply(c, s, x))
    ensures StreamOk(Apply(c, s, x))
  {
    if x.Advance? {
      AdvanceStream(c, s, x.actor);
    } else {
      OtherRows(c, s, x);
      OtherStream(c, s, x);
    }
  }

  lemma AdvanceZSet(c: Config, s: State, a: ActorId)
    requires ZSetOk(s) && a in s.jobs && JobOk(s, s.jobs[a]) && Frame(s, DoAdvance(c, s, a))
    ensures ZSetOk(DoAdvance(c, s, a))
  {}

  lemma SameZSet(s: State, s': State)
    requires ZSetOk(s) && Frame(s, s') && s'.zset == s.zset
    ensures ZSetOk(s')
  {}

  lemma StepZSet(c: Config, s: State, x: Action)
    requires Rooted(c, s) && Enabled(c, s, x) && Frame(s, Apply(c, s, x))
    ensures ZSetOk(Apply(c, s, x))
  {
    if x.Advance? {
      AdvanceZSet(c, s, x.actor);
    } else {
      OtherStores(c, s, x);
      SameZSet(s, Apply(c, s, x));
    }
  }

  lemma ScannedRows(c: Config, s: State, a: ActorId, found: seq<TaskId>)
    requires Rooted(c, s) && Enabled(c, s, Scan(a, found))
    ensures forall id :: id in found ==> id in s.rows
    ensures Distinct(found) && |found| <= c.scanLimit
  {}

  lemma TickStable(c: Config, s: State, s': State, t: Tick)
    requires Frame(s, s') && TickOk(c, s, t)
    ensures TickOk(c, s', t)
  {}

  lemma OthersTicks(c: Config, s: State, x: Action)
    requires Enabled(c, s, x) && !x.Advance? && !x.Wait?
    ensures
      var s' := DoOther(c, s, x);
      && (forall b :: b in s.ticks && b != x.actor ==> b in s'.ticks && s'.ticks[b] == s.ticks[b])
      && (forall b :: b in s'.ticks && b != x.actor ==> b in s.ticks)
      && (x.actor in s.ticks ==> x.actor in s'.ticks)
  {}

  lemma ScannedTick(c: Config, s: State, x: Action)
    requires Enabled(c, s, x) && x.Scan? && TickOk(c, s, s.ticks[x.actor])
    requires Distinct(x.found) && |x.found| <= c.scanLimit && forall id :: id in x.found ==> id in s.rows
    ensures var s' := DoOther(c, s, x); TickOk(c, s', s'.ticks[x.actor])
  {}

  lemma OtherTick(c: Config, s: State, x: Action)
    requires Enabled(c, s, x) && !x.Advance? && !x.Wait? && !x.Scan?
    requires x.actor in s.ticks ==> TickOk(c, DoOther(c, s, x), s.ticks[x.actor])
    requires x.actor in DoOther(c, s, x).ticks
    ensures var s' := DoOther(c, s, x); TickOk(c, s', s'.ticks[x.actor])
  {}

  lemma ActorsTick(c: Config, s: State, x: Action)
    requires Rooted(c, s) && Enabled(c, s, x) && !x.Advance? && !x.Wait? && Frame(s, DoOther(c, s, x))
    requires x.actor in DoOther(c, s, x).ticks
    ensures var s' := DoOther(c, s, x); x.actor in c.schedulers && TickOk(c, s', s'.ticks[x.actor])
  {
    if x.actor in s.ticks { TickStable(c, s, DoOther(c, s, x), s.ticks[x.actor]); }
    if x.Scan? {
      ScannedRows(c, s, x.actor, x.found);
      ScannedTick(c, s, x);
    } else {
      OtherTick(c, s, x);
    }
  }

  lemma AdvanceRole(c: Config, s: State, a: ActorId)
    requires a in s.jobs && JobOk(s, s.jobs[a])
    ensures var n := NextJob(c, s, a); n.Some? ==> (OfScheduler(n.value) <==> OfScheduler(s.jobs[a]))
  {}

  lemma OtherRole(c: Config, s: State, x: Action)
    requires TicksOk(c, s) && Enabled(c, s, x) && !x.Advance? && !x.Wait?
    ensures
      var s' := DoOther(c, s, x);
      x.actor in s'.jobs ==> (x.actor in c.schedulers <==> OfScheduler(s'.jobs[x.actor]))
  {}

  lemma StepTicks(c: Config, s: State, x: Action)
    requires Rooted(c, s) && Enabled(c, s, x) && Frame(s, Apply(c, s, x))
    ensures TicksOk(c, Apply(c, s, x))
  {
    StepOthers(c, s, x);
    if x.Advance? {
      AdvanceTicks(c, s, x.actor);
    } else {
      OtherTicks(c, s, x);
    }
    TicksKept(c, s, Apply(c, s, x), x);
  }

  lemma AdvanceTicks(c: Config, s: State, a: ActorId)
    requires Rooted(c, s) && a in s.jobs
    ensures
      var s' := DoAdvance(c, s, a);
      && s'.ticks == s.ticks
      && (a in s'.jobs ==> (a in c.schedulers <==> OfScheduler(s'.jobs[a])) && (a in c.schedulers ==> a in s'.ticks))
  {
    AdvanceRole(c, s, a);
  }

  lemma OtherTicks(c: Config, s: State, x: Action)
    requires Rooted(c, s) && Enabled(c, s, x) && !x.Advance? && Frame(s, DoOther(c, s, x))
    ensures
      var s' := DoOther(c, s, x);
      if x.Wait? then s'.ticks == s.ticks
      else
        && (forall b :: b in s.ticks ==> b in s'.ticks)
        && (forall b :: b in s'.ticks && b != x.actor ==> b in s.ticks && s'.ticks[b] == s.ticks[b])
        && (x.actor in s'.ticks ==> x.actor in c.schedulers && TickOk(c, s', s'.ticks[x.actor]))
        && (x.actor in s'.jobs ==> (x.actor in c.schedulers <==> OfScheduler(s'.jobs[x.actor])))
        && (x.actor in s'.jobs && x.actor in c.schedulers ==> x.actor in s'.ticks)
  {
    if !x.Wait? {
      OthersTicks(c, s, x);
      if x.actor in DoOther(c, s, x).ticks { ActorsTick(c, s, x); }
      OtherRole(c, s, x);
    }
  }

  lemma TicksKept(c: Config, s: State, s': State, x: Action)
    requires TicksOk(c, s) && OthersKept(s, s', x) && Frame(s, s')
    requires forall b :: b in s.ticks ==> b in s'.ticks
    requires forall b :: b in s'.ticks && Some(b) != ActorOf(x) ==> b in s.ticks && s'.ticks[b] == s.ticks[b]
    requires ActorOf(x).Some? && x.actor in s'.ticks ==>
      s'.ticks == s.ticks || (x.actor in c.schedulers && TickOk(c, s', s'.ticks[x.actor]))
    requires ActorOf(x).Some? && x.actor in s'.jobs ==>
      && (x.actor in c.schedulers <==> OfScheduler(s'.jobs[x.actor]))
      && (x.actor in c.schedulers ==> x.actor in s'.ticks)
    ensures TicksOk(c, s')
  {
    forall b | b in s'.ticks ensures b in c.schedulers && TickOk(c, s', s'.ticks[b]) {
      if b in s.ticks && s'.ticks[b] == s.ticks[b] { TickStable(c, s, s', s.ticks[b]); }
    }
  }

  /** An actor comes to hold a task only by its own MarkFailed, so the row was running. */
  lemma NewHold(c: Config, s: State, x: Action, id: TaskId)
    requires Rooted(c, s) && Enabled(c, s, x) && !x.Wait? && x.actor in Apply(c, s, x).jobs
    requires id in Held(Apply(c, s, x).jobs[x.actor])
    ensures (x.actor in s.jobs && id in Held(s.jobs[x.actor])) || Matches(s, id, Running)
  {
    if x.Advance? { AdvanceHold(c, s, x.actor, id); } else { OtherHold(c, s, x); }
  }

  lemma AdvanceHold(c: Config, s: State, a: ActorId, id: TaskId)
    requires a in s.jobs && JobOk(s, s.jobs[a]) && NextJob(c, s, a).Some? && id in Held(NextJob(c, s, a).value)
    ensures id in Held(s.jobs[a]) || Matches(s, id, Running)
  {}

  /** After any other action the actor's job, if it has one, holds no task. */
  lemma OtherHold(c: Config, s: State, x: Action)
    requires Enabled(c, s, x) && !x.Advance? && !x.Wait? && x.actor in DoOther(c, s, x).jobs
    ensures Held(DoOther(c, s, x).jobs[x.actor]) == {}
  {}

  lemma StepOneFinalizer(c: Config, s: State, x: Action)
    requires Rooted(c, s) && Enabled(c, s, x)
    ensures OneFinalizer(Apply(c, s, x))
  {
    var s' := Apply(c, s, x);
    StepOthers(c, s, x);
    forall a, b, id | a in s'.jobs && b in s'.jobs && a != b && id in Held(s'.jobs[a])
      ensures id !in Held(s'.jobs[b])
    {
      if id in Held(s'.jobs[b]) {
        var (me, other) := if Some(a) == ActorOf(x) then (a, b) else (b, a);
        assert JobOk(s, s.jobs[other]);
        if Some(me) == ActorOf(x) { NewHold(c, s, x, id); }
        assert false;
      }
    }
  }

  lemma StepRooted(c: Config, s: State, x: Action)
    requires Rooted(c, s) && Enabled(c, s, x)
    ensures Rooted(c, Apply(c, s, x))
  {
    StepFrame(c, s, x);
    StepJobs(c, s, x);
    StepStream(c, s, x);
    StepZSet(c, s, x);
    StepTicks(c, s, x);
    StepOneFinalizer(c, s, x);
  }
}
