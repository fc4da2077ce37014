/**
 Timing.  The scheduler acts on what its scan saw a while ago.  With a single scheduler and one
 monotone clock, what it saw is still good enough when it acts; with several schedulers only the
 ZSET keeps such a promise.
*/
module Deadlines {
  import opened Basics
  import opened Statuses
  import opened Retry
  import opened Rows
  import opened Protocol
  import opened Safety
  import opened Guarantees

  // ---- The ZSET, with any number of schedulers ----

  /** The member's score is due at the tick's instant. */
  predicate ScoreDue(s: State, t: Tick, id: TaskId) {
    id in s.rows && UnixSeconds(s.rows[id].runAt) <= UnixSeconds(t.now)
  }

  predicate ZSetTimely(s: State) {
    && (forall a, id :: a in s.ticks && s.ticks[a].phase == DispatchingZSet && id in s.ticks[a].todo ==>
          ScoreDue(s, s.ticks[a], id))
    && (forall a :: a in s.jobs && (s.jobs[a].Inspecting? || (s.jobs[a].Dispatching? && s.jobs[a].from == Scheduled)) ==>
          a in s.ticks && ScoreDue(s, s.ticks[a], s.jobs[a].task))
  }

  lemma ScoreDueStable(s: State, s': State, t: Tick, id: TaskId)
    requires Frame(s, s') && ScoreDue(s, t, id)
    ensures ScoreDue(s', t, id)
  {}

  lemma ScannedZSetTimely(c: Config, s: State, a: ActorId, found: seq<TaskId>)
    requires Rooted(c, s) && Enabled(c, s, Scan(a, found))
    ensures
      var t := DoScan(s, a, found).ticks[a];
      t.phase == DispatchingZSet ==> forall id :: id in t.todo ==> ScoreDue(s, t, id)
  {}

  lemma TakenZSetTimely(c: Config, s: State, a: ActorId)
    requires ZSetTimely(s) && Enabled(c, s, Take(a))
    ensures
      var s' := DoTake(s, a);
      && (s'.ticks[a].phase == DispatchingZSet ==> forall id :: id in s'.ticks[a].todo ==> ScoreDue(s', s'.ticks[a], id))
      && (s'.jobs[a].Inspecting? ==> ScoreDue(s', s'.ticks[a], s'.jobs[a].task))
      && (s'.jobs[a].Dispatching? ==> s'.jobs[a].from == Retrying)
  {
    var todo := s.ticks[a].todo;
    assert todo[0] in todo && forall id :: id in todo[1..] ==> id in todo;
  }

  /** The actor's tick and job, after an action other than Advance. */
  predicate ActorZSetTimely(s: State, a: ActorId) {
    && (a in s.ticks && s.ticks[a].phase == DispatchingZSet ==>
          forall id :: id in s.ticks[a].todo ==> ScoreDue(s, s.ticks[a], id))
    && (a in s.jobs && s.jobs[a].Inspecting? ==> a in s.ticks && ScoreDue(s, s.ticks[a], s.jobs[a].task))
    && (a in s.jobs && s.jobs[a].Dispatching? ==> s.jobs[a].from == Retrying)
  }

  lemma QuietZSetTimely(c: Config, s: State, x: Action, s': State)
    requires Enabled(c, s, x) && s' == Apply(c, s, x) && !x.Advance? && !x.Wait? && !x.Take? && !x.Scan?
    ensures x.actor in s'.jobs ==> !s'.jobs[x.actor].Inspecting? && !s'.jobs[x.actor].Dispatching?
    ensures x.actor in s'.ticks && s'.ticks[x.actor].phase == DispatchingZSet ==>
              x.actor in s.ticks && s'.ticks[x.actor] == s.ticks[x.actor]
  {}

  lemma OtherZSetTimely(c: Config, s: State, x: Action, s': State)
    requires Rooted(c, s) && ZSetTimely(s) && Enabled(c, s, x) && s' == Apply(c, s, x) && Frame(s, s')
    requires !x.Advance? && !x.Wait?
    ensures ActorZSetTimely(s', x.actor)
  {
    if x.Take? { TakenZSetTimely(c, s, x.actor); }
    else if x.Scan? { ScannedZSetTimely(c, s, x.actor, x.found); }
    else { QuietZSetTimely(c, s, x, s'); }
  }

  lemma OtherTicksKept(c: Config, s: State, x: Action, b: ActorId)
    requires Enabled(c, s, x) && b in Apply(c, s, x).ticks && (x.Advance? || Some(b) != ActorOf(x))
    ensures b in s.ticks && Apply(c, s, x).ticks[b] == s.ticks[b]
  {}

  lemma AdvanceZSetTimely(c: Config, s: State, a: ActorId)
    requires ZSetTimely(s) && a in s.jobs
    requires NextJob(c, s, a).Some?
    ensures
      var j := NextJob(c, s, a).value;
      j.Inspecting? || (j.Dispatching? && j.from == Scheduled) ==> a in s.ticks && ScoreDue(s, s.ticks[a], j.task)
  {}

  lemma StepZSetTimely(c: Config, s: State, x: Action)
    requires Rooted(c, s) && ZSetTimely(s) && Enabled(c, s, x)
    ensures ZSetTimely(Apply(c, s, x))
  {
    var s' := Apply(c, s, x);
    StepFrame(c, s, x);
    StepOthers(c, s, x);
    forall a, id | a in s'.ticks && s'.ticks[a].phase == DispatchingZSet && id in s'.ticks[a].todo
      ensures ScoreDue(s', s'.ticks[a], id)
    {
      if x.Advance? || Some(a) != ActorOf(x) {
        OtherTicksKept(c, s, x, a);
        ScoreDueStable(s, s', s.ticks[a], id);
      } else {
        OtherZSetTimely(c, s, x, s');
      }
    }
    forall a | a in s'.jobs && (s'.jobs[a].Inspecting? || (s'.jobs[a].Dispatching? && s'.jobs[a].from == Scheduled))
      ensures a in s'.ticks && ScoreDue(s', s'.ticks[a], s'.jobs[a].task)
    {
      DispatcherTimely(c, s, x, a);
    }
  }

  lemma DispatcherTimely(c: Config, s: State, x: Action, a: ActorId)
    requires Rooted(c, s) && ZSetTimely(s) && Enabled(c, s, x)
    requires Frame(s, Apply(c, s, x)) && OthersKept(s, Apply(c, s, x), x) && a in Apply(c, s, x).jobs
    requires var j := Apply(c, s, x).jobs[a]; j.Inspecting? || (j.Dispatching? && j.from == Scheduled)
    ensures var s' := Apply(c, s, x); a in s'.ticks && ScoreDue(s', s'.ticks[a], s'.jobs[a].task)
  {
    var s' := Apply(c, s, x);
    if Some(a) == ActorOf(x) && !x.Advance? {
      OtherZSetTimely(c, s, x, s');
    } else {
      if x.Advance? && x.actor == a { AdvanceZSetTimely(c, s, a); }
      assert a in s.ticks;
      OtherTicksStay(c, s, x, a);
      ScoreDueStable(s, s', s.ticks[a], s'.jobs[a].task);
    }
  }

  lemma OtherTicksStay(c: Config, s: State, x: Action, b: ActorId)
    requires Enabled(c, s, x) && b in s.ticks && (x.Advance? || Some(b) != ActorOf(x))
    ensures b in Apply(c, s, x).ticks && Apply(c, s, x).ticks[b] == s.ticks[b]
  {}

  lemma DispatchesDueMember(c: Config, s: State, x: Action, id: TaskId)
    requires Rooted(c, s) && ZSetTimely(s) && Enabled(c, s, x)
    requires Matches(s, id, Scheduled) && id in Apply(c, s, x).rows && Apply(c, s, x).rows[id] != s.rows[id]
    ensures UnixSeconds(s.rows[id].runAt) <= UnixSeconds(s.now) && s.rows[id].runAt < s.now + SECOND
  {
    if x.Advance? {
      assert JobOk(s, s.jobs[x.actor]);
      assert s.jobs[x.actor] == Dispatching(id, Scheduled);
      assert TickOk(c, s, s.ticks[x.actor]);
    } else {
      OtherRows(c, s, x);
    }
  }

  // ---- Retries and timeouts, with one scheduler ----

  /** A row that was expired at the instant now, and what other actors may have made of it since. */
  predicate RecoverGate(r: Row, now: int) {
    r.status != Scheduled && r.status != Pending && (r.status == Running ==> IsExpired(r, now))
  }

  predicate JobTimely(s: State, t: Tick, j: Job) {
    match j
    case Recovering(id, _) => t.phase == RecoveringExpired && id in s.rows && RecoverGate(s.rows[id], t.now)
    case Inspecting(_) => t.phase == DispatchingZSet
    case Dispatching(id, from) =>
      if from == Retrying
      then t.phase == DispatchingRetrying && id in s.rows && IsDueRetrying(s.rows[id], t.now) && id !in t.todo
      else t.phase == DispatchingZSet
    case _ => true
  }

  predicate TodoTimely(s: State, t: Tick) {
    && (t.phase == RecoveringExpired ==> forall id :: id in t.todo ==> id in s.rows && RecoverGate(s.rows[id], t.now))
    && (t.phase == DispatchingRetrying ==> forall id :: id in t.todo ==> id in s.rows && IsDueRetrying(s.rows[id], t.now))
  }

  predicate Timely(s: State, sched: ActorId) {
    && (sched in s.ticks ==> TodoTimely(s, s.ticks[sched]))
    && (sched in s.ticks && sched in s.jobs ==> JobTimely(s, s.ticks[sched], s.jobs[sched]))
  }

  /** Only the scheduler's retry dispatch takes a task out of the retrying status. */
  lemma LeavesRetrying(c: Config, s: State, x: Action, id: TaskId)
    requires Rooted(c, s) && Enabled(c, s, x) && Matches(s, id, Retrying)
    requires id in Apply(c, s, x).rows && Apply(c, s, x).rows[id] != s.rows[id]
    ensures x.Advance? && x.actor in c.schedulers && s.jobs[x.actor] == Dispatching(id, Retrying)
  {
    if x.Advance? {
      assert JobOk(s, s.jobs[x.actor]);
    } else {
      OtherRows(c, s, x);
    }
  }

  lemma GateStable(r: Row, r': Row, now: int)
    requires RowStep(r, r') && RecoverGate(r, now) && (r.status == Retrying ==> r' == r)
    ensures RecoverGate(r', now)
  {}

  lemma RetriesStay(c: Config, s: State, x: Action, s': State, id: TaskId)
    requires Rooted(c, s) && Enabled(c, s, x) && s' == Apply(c, s, x) && id in s.rows
    ensures id in s'.rows && RowStep(s.rows[id], s'.rows[id])
    ensures
      || s.rows[id].status != Retrying || s'.rows[id] == s.rows[id]
      || (x.Advance? && x.actor in c.schedulers && s.jobs[x.actor] == Dispatching(id, Retrying))
  {
    StepFrame(c, s, x);
    if s.rows[id].status == Retrying && s'.rows[id] != s.rows[id] { LeavesRetrying(c, s, x, id); }
  }

  /** Whoever acts, the todo list of a tick stays good, but for the task being dispatched. */
  lemma TodoStable(c: Config, s: State, x: Action, s': State, sched: ActorId)
    requires Rooted(c, s) && c.schedulers == {sched} && Timely(s, sched) && sched in s.ticks
    requires Enabled(c, s, x) && s' == Apply(c, s, x)
    ensures TodoTimely(s', s.ticks[sched])
  {
    var t := s.ticks[sched];
    forall id | id in t.todo && t.phase == RecoveringExpired ensures id in s'.rows && RecoverGate(s'.rows[id], t.now) {
      RetriesStay(c, s, x, s', id);
      GateStable(s.rows[id], s'.rows[id], t.now);
    }
    forall id | id in t.todo && t.phase == DispatchingRetrying ensures id in s'.rows && IsDueRetrying(s'.rows[id], t.now) {
      RetriesStay(c, s, x, s', id);
    }
  }

  /** So does the task its current job is about, until that job writes it. */
  lemma JobTimelyStable(c: Config, s: State, x: Action, s': State, sched: ActorId)
    requires Rooted(c, s) && c.schedulers == {sched} && Timely(s, sched) && Enabled(c, s, x) && s' == Apply(c, s, x)
    requires sched in s.ticks && sched in s.jobs && Some(sched) != ActorOf(x)
    ensures JobTimely(s', s.ticks[sched], s.jobs[sched])
  {
    var t := s.ticks[sched];
    match s.jobs[sched]
    case Recovering(id, _) =>
      RetriesStay(c, s, x, s', id);
      GateStable(s.rows[id], s'.rows[id], t.now);
    case Dispatching(id, from) =>
      if from == Retrying { RetriesStay(c, s, x, s', id); }
    case _ =>
  }

  lemma AdvanceTimely(c: Config, s: State, sched: ActorId)
    requires Rooted(c, s) && Timely(s, sched) && sched in s.ticks && sched in s.jobs
    ensures
      var n := NextJob(c, s, sched);
      n.Some? ==> JobTimely(DoAdvance(c, s, sched), s.ticks[sched], n.value)
  {}

  lemma OwnTick(c: Config, s: State, x: Action)
    requires Rooted(c, s) && Enabled(c, s, x) && !x.Advance? && !x.Wait? && x.actor in c.schedulers
    requires x.actor in s.ticks ==> TodoTimely(s, s.ticks[x.actor])
    requires x.actor in s.jobs && x.actor in s.ticks ==> JobTimely(s, s.ticks[x.actor], s.jobs[x.actor])
    ensures
      var s' := DoOther(c, s, x);
      && (x.actor in s'.ticks ==> TodoTimely(s', s'.ticks[x.actor]))
      && (x.actor in s'.ticks && x.actor in s'.jobs ==> JobTimely(s', s'.ticks[x.actor], s'.jobs[x.actor]))
  {
    if x.Take? { OwnTake(c, s, x.actor); }
  }

  lemma OwnTake(c: Config, s: State, a: ActorId)
    requires Rooted(c, s) && Enabled(c, s, Take(a)) && TodoTimely(s, s.ticks[a])
    ensures
      var s' := DoTake(s, a);
      TodoTimely(s', s'.ticks[a]) && JobTimely(s', s'.ticks[a], s'.jobs[a])
  {
    var todo := s.ticks[a].todo;
    assert TickOk(c, s, s.ticks[a]);
    assert todo[0] in todo && forall id :: id in todo[1..] ==> id in todo;
  }

  lemma StepTimely(c: Config, s: State, x: Action, sched: ActorId)
    requires Rooted(c, s) && c.schedulers == {sched} && Timely(s, sched) && Enabled(c, s, x)
    ensures Timely(Apply(c, s, x), sched)
  {
    var s' := Apply(c, s, x);
    if Some(sched) == ActorOf(x) && !x.Advance? {
      OwnTick(c, s, x);
    } else {
      StepOthers(c, s, x);
      if sched in s'.ticks {
        OtherTicksKept(c, s, x, sched);
        TodoStable(c, s, x, s', sched);
        if sched in s.jobs {
          if x.Advance? && x.actor == sched { AdvanceTimely(c, s, sched); } else { JobTimelyStable(c, s, x, s', sched); }
        }
      }
    }
  }

  lemma DispatchesDueRetry(c: Config, s: State, x: Action, sched: ActorId, id: TaskId)
    requires Rooted(c, s) && c.schedulers == {sched} && Timely(s, sched) && Enabled(c, s, x)
    requires Matches(s, id, Retrying) && id in Apply(c, s, x).rows && Apply(c, s, x).rows[id] != s.rows[id]
    ensures s.rows[id].nextRetryAt.Some? && sched in s.ticks
    ensures s.rows[id].nextRetryAt.value <= s.ticks[sched].now <= s.now
  {
    LeavesRetrying(c, s, x, id);
    assert TickOk(c, s, s.ticks[sched]);
  }

  // ---- Spacing of the failure decisions of a task ----

  predicate Decides(s: State, x: Action, id: TaskId) {
    x.Advance? && x.actor in s.jobs && s.jobs[x.actor].Finalizing? && s.jobs[x.actor].task == id
  }

  function Decision(s: State, x: Action, id: TaskId): seq<int> {
    if Decides(s, x, id) then [DecisionTime(s, x.actor, s.jobs[x.actor].owner)] else []
  }

  /** The instants of the failure decisions taken for id, by whichever worker or scheduler. */
  ghost function Decisions(c: Config, s: State, xs: seq<Action>, id: TaskId): seq<int>
    requires Valid(c, s, xs)
    decreases |xs|
  {
    if xs == [] then []
    else
      var init := xs[..|xs| - 1];
      Decisions(c, s, init, id) + Decision(RunFrom(c, s, init), xs[|xs| - 1], id)
  }

  /** Between one decision and the next, the backoff delay of the first has passed, but for what the column leaves out
      of the instant. */
  predicate Spaced(ds: seq<int>) {
    forall i :: 0 <= i < |ds| - 1 ==> ds[i] + BackoffDelay(i + 1) < ds[i + 1] + MICROSECOND
  }

  /** The scheduler has seen the delay of the latest decision pass. */
  predicate Waited(s: State, sched: ActorId, ds: seq<int>) {
    ds != [] ==> sched in s.ticks && ds[|ds| - 1] + BackoffDelay(|ds|) < s.ticks[sched].now + MICROSECOND
  }

  predicate RowPaced(s: State, sched: ActorId, ds: seq<int>, r: Row) {
    match r.status
    case Scheduled => ds == []
    case Failed => (|ds| == r.retryCount && Waited(s, sched, ds)) || |ds| == r.retryCount + 1
    case Retrying => |ds| == r.retryCount && ds != [] && r.nextRetryAt == Some(Stored(ds[|ds| - 1] + BackoffDelay(|ds|)))
    case Dead => |ds| == r.retryCount + 1
    case _ => |ds| == r.retryCount && Waited(s, sched, ds)
  }

  predicate JobPaced(s: State, sched: ActorId, ds: seq<int>, id: TaskId, j: Job) {
    match j
    case Finalizing(t, n, _, _, _, _) => t == id ==> |ds| == n && Waited(s, sched, ds)
    case Completing(t, d, _, _) =>
      t == id ==>
        && (d.status == Retrying ==>
              |ds| == d.retryCount && ds != [] && d.nextRetryAt == Some(ds[|ds| - 1] + BackoffDelay(|ds|)))
        && (d.status == Dead ==> |ds| == d.retryCount + 1)
    case _ => true
  }

  predicate Paced(s: State, sched: ActorId, ds: seq<int>, id: TaskId) {
    && Spaced(ds)
    && (if id in s.rows then RowPaced(s, sched, ds, s.rows[id]) else ds == [])
    && (forall a :: a in s.jobs ==> JobPaced(s, sched, ds, id, s.jobs[a]))
  }

  lemma OwnTickAdvances(c: Config, s: State, x: Action)
    requires Enabled(c, s, x) && !x.Advance? && !x.Wait? && x.actor in s.ticks && s.ticks[x.actor].now <= s.now
    ensures x.actor in DoOther(c, s, x).ticks && s.ticks[x.actor].now <= DoOther(c, s, x).ticks[x.actor].now
  {}

  lemma TickAdvances(c: Config, s: State, x: Action, sched: ActorId)
    requires Rooted(c, s) && Enabled(c, s, x) && sched in s.ticks
    ensures sched in Apply(c, s, x).ticks && s.ticks[sched].now <= Apply(c, s, x).ticks[sched].now
  {
    assert TickOk(c, s, s.ticks[sched]);
    if x.Advance? || Some(sched) != ActorOf(x) { OtherTicksStay(c, s, x, sched); } else { OwnTickAdvances(c, s, x); }
  }

  lemma WaitedStays(c: Config, s: State, x: Action, sched: ActorId, ds: seq<int>)
    requires Rooted(c, s) && Enabled(c, s, x) && Waited(s, sched, ds)
    ensures Waited(Apply(c, s, x), sched, ds)
  {
    if ds != [] { TickAdvances(c, s, x, sched); }
  }

  lemma JobPacedStays(c: Config, s: State, x: Action, sched: ActorId, ds: seq<int>, id: TaskId, j: Job)
    requires Rooted(c, s) && Enabled(c, s, x) && JobPaced(s, sched, ds, id, j)
    ensures JobPaced(Apply(c, s, x), sched, ds, id, j)
  {
    if j.Finalizing? && j.task == id { WaitedStays(c, s, x, sched, ds); }
  }

  /** The row part, when no decision is taken for id. */
  lemma RowPacedStays(c: Config, s: State, x: Action, s': State, sched: ActorId, ds: seq<int>, id: TaskId)
    requires Rooted(c, s) && c.schedulers == {sched} && Timely(s, sched) && Enabled(c, s, x) && s' == Apply(c, s, x)
    requires Paced(s, sched, ds, id) && id in s.rows && id in s'.rows
    ensures RowPaced(s', sched, ds, s'.rows[id])
  {
    StepFrame(c, s, x);
    if Waited(s, sched, ds) { WaitedStays(c, s, x, sched, ds); }
    if s'.rows[id] != s.rows[id] {
      match s.rows[id].status
      case Retrying =>
        DispatchesDueRetry(c, s, x, sched, id);
        TickAdvances(c, s, x, sched);
      case Failed => FailedRowPaced(c, s, x, sched, ds, id);
      case _ =>
    }
  }

  lemma FailedRowPaced(c: Config, s: State, x: Action, sched: ActorId, ds: seq<int>, id: TaskId)
    requires Rooted(c, s) && Enabled(c, s, x) && Paced(s, sched, ds, id) && Matches(s, id, Failed)
    requires Frame(s, Apply(c, s, x)) && Apply(c, s, x).rows[id] != s.rows[id]
    ensures RowPaced(Apply(c, s, x), sched, ds, Apply(c, s, x).rows[id])
  {
    if x.Advance? { CompletedRowPaced(c, s, x.actor, sched, ds, id); } else { OtherRows(c, s, x); }
  }

  lemma CompletedRowPaced(c: Config, s: State, a: ActorId, sched: ActorId, ds: seq<int>, id: TaskId)
    requires a in s.jobs && JobOk(s, s.jobs[a]) && JobPaced(s, sched, ds, id, s.jobs[a]) && Matches(s, id, Failed)
    requires id in NextRows(c, s, a) && NextRows(c, s, a)[id] != s.rows[id]
    ensures RowPaced(DoAdvance(c, s, a), sched, ds, NextRows(c, s, a)[id])
  {
    assert s.jobs[a].Completing? && s.jobs[a].task == id;
  }

  /** The acting job, when no decision is taken for id. */
  lemma ActorPaced(c: Config, s: State, x: Action, sched: ActorId, ds: seq<int>, id: TaskId)
    requires Rooted(c, s) && Enabled(c, s, x) && Paced(s, sched, ds, id) && !x.Wait? && !Decides(s, x, id)
    requires x.actor in Apply(c, s, x).jobs
    ensures JobPaced(s, sched, ds, id, Apply(c, s, x).jobs[x.actor])
  {
    if x.Advance? { AdvancePaced(c, s, x.actor, sched, ds, id); } else { OnlyAdvanceFinalizes(c, s, x); }
  }

  lemma OnlyAdvanceFinalizes(c: Config, s: State, x: Action)
    requires Enabled(c, s, x) && !x.Advance? && !x.Wait? && x.actor in DoOther(c, s, x).jobs
    ensures
      var j := DoOther(c, s, x).jobs[x.actor];
      j.Finalizing? || j.Completing? ==> x.actor in s.jobs && s.jobs[x.actor] == j
  {}

  lemma AdvancePaced(c: Config, s: State, a: ActorId, sched: ActorId, ds: seq<int>, id: TaskId)
    requires a in s.jobs && NextJob(c, s, a).Some? && !Decides(s, Advance(a), id)
    requires Matches(s, id, Running) ==> |ds| == s.rows[id].retryCount && Waited(s, sched, ds)
    ensures JobPaced(s, sched, ds, id, NextJob(c, s, a).value)
  {}

  lemma QuietStep(c: Config, s: State, x: Action, sched: ActorId, ds: seq<int>, id: TaskId)
    requires Rooted(c, s) && c.schedulers == {sched} && Timely(s, sched) && Enabled(c, s, x)
    requires Paced(s, sched, ds, id) && !Decides(s, x, id)
    ensures Paced(Apply(c, s, x), sched, ds, id)
  {
    var s' := Apply(c, s, x);
    StepOthers(c, s, x);
    if id in s.rows {
      StepFrame(c, s, x);
      RowPacedStays(c, s, x, s', sched, ds, id);
    } else if id in s'.rows {
      NewRowPaced(c, s, x, sched, id);
    }
    forall a | a in s'.jobs ensures JobPaced(s', sched, ds, id, s'.jobs[a]) {
      if Some(a) == ActorOf(x) { ActorPaced(c, s, x, sched, ds, id); }
      JobPacedStays(c, s, x, sched, ds, id, s'.jobs[a]);
    }
  }

  lemma NewRowPaced(c: Config, s: State, x: Action, sched: ActorId, id: TaskId)
    requires Rooted(c, s) && Enabled(c, s, x) && id !in s.rows && id in Apply(c, s, x).rows
    ensures RowPaced(Apply(c, s, x), sched, [], Apply(c, s, x).rows[id])
  {
    if x.Advance? { AdvanceWrites(c, s, x.actor); } else { OtherRows(c, s, x); }
  }

  /** Whoever decides, the scheduler's latest tick is not after the instant it decides at. */
  lemma DecidedAfterTick(c: Config, s: State, a: ActorId, sched: ActorId)
    requires Rooted(c, s) && c.schedulers == {sched} && a in s.jobs && s.jobs[a].Finalizing? && sched in s.ticks
    ensures s.ticks[sched].now <= DecisionTime(s, a, s.jobs[a].owner)
  {
    assert TickOk(c, s, s.ticks[sched]);
    assert a in c.schedulers <==> OfScheduler(s.jobs[a]);
  }

  lemma DecidingStep(c: Config, s: State, x: Action, sched: ActorId, ds: seq<int>, id: TaskId)
    requires Rooted(c, s) && c.schedulers == {sched} && Enabled(c, s, x)
    requires Paced(s, sched, ds, id) && Decides(s, x, id)
    ensures Paced(Apply(c, s, x), sched, ds + Decision(s, x, id), id)
  {
    var s' := Apply(c, s, x);
    var a := x.actor;
    var j := s.jobs[a];
    var d := DecisionTime(s, a, j.owner);
    var ds' := ds + [d];
    assert JobOk(s, j) && JobPaced(s, sched, ds, id, j);
    assert RowShape(s.rows[id]);
    if ds != [] { DecidedAfterTick(c, s, a, sched); }
    SpacedAppend(ds, d);
    StepOthers(c, s, x);
    forall b | b in s'.jobs ensures JobPaced(s', sched, ds', id, s'.jobs[b]) {
      if b == a { DecidedJob(c, s, a, sched, ds, d, id); } else { assert Held(s.jobs[b]) !! Held(j); }
    }
  }

  lemma SpacedAppend(ds: seq<int>, d: int)
    requires Spaced(ds) && (ds != [] ==> ds[|ds| - 1] + BackoffDelay(|ds|) < d + MICROSECOND)
    ensures Spaced(ds + [d])
  {}

  lemma DecidedJob(c: Config, s: State, a: ActorId, sched: ActorId, ds: seq<int>, d: int, id: TaskId)
    requires a in s.jobs && s.jobs[a].Finalizing? && JobOk(s, s.jobs[a]) && RowsOk(s)
    requires s.jobs[a].task == id && |ds| == s.jobs[a].retryCount && d == DecisionTime(s, a, s.jobs[a].owner)
    ensures JobPaced(s, sched, ds + [d], id, NextJob(c, s, a).value)
  {
    assert RowShape(s.rows[id]);
  }

  lemma StepPaced(c: Config, s: State, x: Action, sched: ActorId, ds: seq<int>, id: TaskId)
    requires Rooted(c, s) && c.schedulers == {sched} && Timely(s, sched) && Enabled(c, s, x)
    requires Paced(s, sched, ds, id)
    ensures Paced(Apply(c, s, x), sched, ds + Decision(s, x, id), id)
  {
    if Decides(s, x, id) {
      DecidingStep(c, s, x, sched, ds, id);
    } else {
      QuietStep(c, s, x, sched, ds, id);
      assert ds + [] == ds;
    }
  }

  /** Over any run with one scheduler, everything it acts on is still due, and the decisions of every
      task are spaced by its backoff delays. */
  lemma {:induction false} RunIsPaced(c: Config, now: int, xs: seq<Action>, sched: ActorId, id: TaskId)
    requires c.schedulers == {sched} && Valid(c, Init(now), xs)
    ensures Inv(c, RunFrom(c, Init(now), xs)) && Timely(RunFrom(c, Init(now), xs), sched)
    ensures Paced(RunFrom(c, Init(now), xs), sched, Decisions(c, Init(now), xs, id), id)
    decreases |xs|
  {
    if xs == [] {
      InitInv(c, now);
    } else {
      var init := xs[..|xs| - 1];
      var s := RunFrom(c, Init(now), init);
      RunIsPaced(c, now, init, sched, id);
      StepInv(c, s, xs[|xs| - 1]);
      StepTimely(c, s, xs[|xs| - 1], sched);
      StepPaced(c, s, xs[|xs| - 1], sched, Decisions(c, Init(now), init, id), id);
    }
  }

  lemma {:induction false} RunIsZSetTimely(c: Config, now: int, xs: seq<Action>)
    requires Valid(c, Init(now), xs)
    ensures Inv(c, RunFrom(c, Init(now), xs)) && ZSetTimely(RunFrom(c, Init(now), xs))
    decreases |xs|
  {
    InitInv(c, now);
    if xs != [] {
      var init := xs[..|xs| - 1];
      var s := RunFrom(c, Init(now), init);
      RunIsZSetTimely(c, now, init);
      StepInv(c, s, xs[|xs| - 1]);
      StepZSetTimely(c, s, xs[|xs| - 1]);
    }
  }

  // ---- The guarantees ----

  /** A delayed task leaves the scheduled status less than a second before its run_at, at the earliest. */
  lemma DispatchedOnTime(c: Config, s: State, x: Action, id: TaskId)
    requires Reachable(c, s) && Enabled(c, s, x)
    requires Matches(s, id, Scheduled) && id in Apply(c, s, x).rows && Apply(c, s, x).rows[id] != s.rows[id]
    ensures s.rows[id].runAt < s.now + SECOND
  {
    var now: int, xs: seq<Action> :| Valid(c, Init(now), xs) && RunFrom(c, Init(now), xs) == s;
    RunIsZSetTimely(c, now, xs);
    DispatchesDueMember(c, s, x, id);
  }

  lemma ReachableIsTimely(c: Config, s: State, sched: ActorId, id: TaskId)
    requires Reachable(c, s) && c.schedulers == {sched}
    ensures Rooted(c, s) && Timely(s, sched)
  {
    var now: int, xs: seq<Action> :| Valid(c, Init(now), xs) && RunFrom(c, Init(now), xs) == s;
    RunIsPaced(c, now, xs, sched, id);
  }

  /** With one scheduler, no retry is dispatched before its next_retry_at. */
  lemma RetriedOnTime(c: Config, s: State, x: Action, sched: ActorId, id: TaskId)
    requires Reachable(c, s) && c.schedulers == {sched} && Enabled(c, s, x)
    requires Matches(s, id, Retrying) && id in Apply(c, s, x).rows && Apply(c, s, x).rows[id] != s.rows[id]
    ensures s.rows[id].nextRetryAt.Some? && s.rows[id].nextRetryAt.value <= s.now
  {
    ReachableIsTimely(c, s, sched, id);
    DispatchesDueRetry(c, s, x, sched, id);
  }

  /** With one scheduler, timeout recovery never fails a run that has not exceeded its timeout. */
  lemma RecoveredOnTime(c: Config, s: State, sched: ActorId, id: TaskId)
    requires Reachable(c, s) && c.schedulers == {sched}
    requires sched in s.jobs && s.jobs[sched].Recovering? && s.jobs[sched].task == id && Matches(s, id, Running)
    ensures IsExpired(s.rows[id], s.now)
  {
    ReachableIsTimely(c, s, sched, id);
    assert TickOk(c, s, s.ticks[sched]);
  }

  lemma {:induction false} SpacedSum(ds: seq<int>)
    requires ds != [] && Spaced(ds)
    ensures ds[0] + TotalBackoff(|ds| - 1) <= ds[|ds| - 1] + (|ds| - 1) * (MICROSECOND - 1)
    decreases |ds|
  {
    if |ds| > 1 { SpacedSum(ds[..|ds| - 1]); }
  }

  /** From the first failure decision of a task to its n-th, at least the first n - 1 backoff delays pass, but for less
      than a microsecond each. */
  lemma BackoffIsWaited(c: Config, now: int, xs: seq<Action>, sched: ActorId, id: TaskId)
    requires c.schedulers == {sched} && Valid(c, Init(now), xs)
    ensures
      var ds := Decisions(c, Init(now), xs, id);
      ds != [] ==> ds[0] + TotalBackoff(|ds| - 1) <= ds[|ds| - 1] + (|ds| - 1) * (MICROSECOND - 1)
  {
    RunIsPaced(c, now, xs, sched, id);
    var ds := Decisions(c, Init(now), xs, id);
    if ds != [] { SpacedSum(ds); }
  }
}
