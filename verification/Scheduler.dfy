/** internal/scheduler/scheduler.go: one tick, among any number of workers and creators. */
module Schedulers {
  import opened Basics
  import opened Statuses
  import opened Retry
  import opened Rows
  import opened Protocol
  import opened Guarantees
  import opened Stores
  import opened Queues
  import opened Clusters
  import opened Passes

  datatype ScheduleError = Command | Unsupported(status: Status)

  // ---- What a pass does when nobody interferes and nothing fails ----

  /** The dispatch of one task: if it still has status from, it becomes pending and gets one message. */
  function Dispatched(s: State, id: TaskId, from: Status): State {
    if Matches(s, id, from)
    then s.(rows := s.rows[id := Moved(s.rows[id], Pending, None, s.now)],
            stream := s.stream + [Entry(id, s.rows[id].retryCount)])
    else s
  }

  function WithoutJob(s: State, me: ActorId): State {
    s.(jobs := s.jobs - {me})
  }

  lemma DispatchEffect(c: Config, s: State, me: ActorId, id: TaskId, from: Status)
    requires me in s.jobs && s.jobs[me] == Dispatching(id, from) && (from == Scheduled || from == Retrying)
    ensures
      var s1 := DoAdvance(c, s, me);
      var after := if Matches(s, id, from) then DoAdvance(c, s1, me) else s1;
      && (me in after.jobs <==> from == Scheduled)
      && WithoutJob(after, me) == WithoutJob(Dispatched(s, id, from), me)
  {}

  /** The member and the job are gone. */
  function Removed(s: State, me: ActorId, id: TaskId): State {
    WithoutJob(s, me).(zset := s.zset - {id})
  }

  lemma RemoveEffect(c: Config, s: State, me: ActorId, id: TaskId)
    requires me in s.jobs && s.jobs[me] == Removing(id)
    ensures DoAdvance(c, s, me) == Removed(s, me, id)
  {}

  lemma InspectEffect(c: Config, s: State, me: ActorId, id: TaskId)
    requires me in s.jobs && s.jobs[me] == Inspecting(id)
    ensures
      var s1 := DoAdvance(c, s, me);
      && Removed(s1, me, id) == Removed(s, me, id)
      && Removed(Dispatched(s1, id, Scheduled), me, id) == Removed(Dispatched(s, id, Scheduled), me, id)
      && (!Matches(s, id, Scheduled) ==> Dispatched(s, id, Scheduled) == s)
      && s1.rows == s.rows
  {}

  /** One message for each of ids that has status from, in order. */
  function MessagesFor(rows: map<TaskId, Row>, from: Status, ids: seq<TaskId>): seq<Entry> {
    if ids == [] then []
    else
      var id := ids[|ids| - 1];
      MessagesFor(rows, from, ids[..|ids| - 1]) +
      (if id in rows && rows[id].status == from then [Entry(id, rows[id].retryCount)] else [])
  }

  /** Exactly those of ids that had status from became pending. */
  ghost predicate PassedRows(rows: map<TaskId, Row>, rows': map<TaskId, Row>, from: Status, ids: seq<TaskId>, now: int) {
    && rows'.Keys == rows.Keys
    && forall id :: id in rows ==>
         rows'[id] == if id in ids && rows[id].status == from then Moved(rows[id], Pending, None, now) else rows[id]
  }

  /** From s to s', exactly those of ids that had status from became pending and got one message each. */
  ghost predicate Passed(s: State, s': State, from: Status, ids: seq<TaskId>) {
    && PassedRows(s.rows, s'.rows, from, ids, s.now)
    && s'.stream == s.stream + MessagesFor(s.rows, from, ids)
    && Elsewhere(s, s')
  }

  /** What a dispatch does not touch. */
  predicate Elsewhere(s: State, s': State) {
    && s'.now == s.now && s'.delivered == s.delivered && s'.pel == s.pel && s'.dead == s.dead
    && s'.counters == s.counters && s'.jobs == s.jobs && s'.lost == s.lost && s'.unburied == s.unburied
  }

  lemma PassedRowsNext(rows: map<TaskId, Row>, rows1: map<TaskId, Row>, from: Status, ids: seq<TaskId>, now: int, id: TaskId)
    requires PassedRows(rows, rows1, from, ids, now) && id !in ids
    ensures
      var hit := id in rows1 && rows1[id].status == from;
      && (hit <==> id in rows && rows[id].status == from)
      && (hit ==> rows1[id] == rows[id])
      && PassedRows(rows, if hit then rows1[id := Moved(rows1[id], Pending, None, now)] else rows1, from, ids + [id], now)
  {}

  lemma MessagesNext(rows: map<TaskId, Row>, from: Status, ids: seq<TaskId>, id: TaskId, before: seq<Entry>)
    ensures before + MessagesFor(rows, from, ids + [id]) ==
      before + MessagesFor(rows, from, ids) + if id in rows && rows[id].status == from then [Entry(id, rows[id].retryCount)] else []
  {
    assert (ids + [id])[..|ids|] == ids;
  }

  lemma PassedNext(s: State, s1: State, s2: State, from: Status, ids: seq<TaskId>, id: TaskId)
    requires Passed(s, s1, from, ids) && id !in ids
    requires s2.rows == Dispatched(s1, id, from).rows && s2.stream == Dispatched(s1, id, from).stream && Elsewhere(s1, s2)
    ensures Passed(s, s2, from, ids + [id])
  {
    PassedRowsNext(s.rows, s1.rows, from, ids, s.now, id);
    MessagesNext(s.rows, from, ids, id, s.stream);
  }

  /** What the ZSET pass of a tick that started in s has done once it has worked through ids. */
  ghost predicate ZSetPassed(s: State, s': State, ids: seq<TaskId>) {
    Passed(s, s', Scheduled, ids) && s'.zset == s.zset - (set id | id in ids)
  }

  lemma TakenAndDispatched(s: State, me: ActorId, id: TaskId)
    requires me !in s.jobs && me in s.ticks && s.ticks[me].todo != []
    ensures
      var s' := Removed(Dispatched(DoTake(s, me), id, Scheduled), me, id);
      && s'.rows == Dispatched(s, id, Scheduled).rows && s'.stream == Dispatched(s, id, Scheduled).stream
      && Elsewhere(s, s') && s'.zset == s.zset - {id}
  {
    assert DoTake(s, me).jobs - {me} == s.jobs;
  }

  lemma WithoutNext(zset: map<TaskId, int>, ids: seq<TaskId>, id: TaskId)
    ensures zset - (set x | x in ids) - {id} == zset - (set x | x in ids + [id])
  {}

  lemma ZSetPassedNext(s: State, s1: State, s2: State, me: ActorId, ids: seq<TaskId>, id: TaskId)
    requires ZSetPassed(s, s1, ids) && id !in ids && me !in s1.jobs
    requires me in s1.ticks && s1.ticks[me].todo != []
    requires s2 == Removed(Dispatched(DoTake(s1, me), id, Scheduled), me, id)
    ensures ZSetPassed(s, s2, ids + [id])
  {
    TakenAndDispatched(s1, me, id);
    WithoutNext(s.zset, ids, id);
    PassedNext(s, s1, s2, Scheduled, ids, id);
  }

  lemma RetriesPassedNext(s: State, s1: State, s2: State, me: ActorId, ids: seq<TaskId>, id: TaskId)
    requires Passed(s, s1, Retrying, ids) && s1.zset == s.zset && id !in ids && me !in s1.jobs
    requires me in s1.ticks && s1.ticks[me].todo != []
    requires s2 == WithoutJob(Dispatched(DoTake(s1, me), id, Retrying), me)
    ensures Passed(s, s2, Retrying, ids + [id]) && s2.zset == s.zset
  {
    assert DoTake(s1, me).jobs - {me} == s1.jobs;
    PassedNext(s, s1, s2, Retrying, ids, id);
  }

  lemma TakesExpired(s: State, me: ActorId, now: int, expired: Task, rest: seq<TaskId>)
    requires me in s.ticks && s.ticks[me] == Protocol.Tick.Tick(now, RecoveringExpired, [expired.id] + rest)
    requires expired.id in s.rows && SameTask(expired.row, s.rows[expired.id])
    ensures
      var s' := DoTake(s, me);
      && me in s'.ticks && s'.ticks[me] == Protocol.Tick.Tick(now, RecoveringExpired, rest)
      && me in s'.jobs && s'.jobs[me] ==
           Recovering(expired.id, "running timeout recovery: task exceeded timeout_seconds=" + Decimal(expired.row.timeoutSeconds))
  {}

  /** One turn of a loop over found. */
  lemma Turn(found: seq<TaskId>, i: nat)
    requires Distinct(found) && i < |found|
    ensures found[i..] == [found[i]] + found[i + 1..] && found[..i + 1] == found[..i] + [found[i]]
    ensures found[i] !in found[..i]
  {}

  lemma NoJob(s: State, me: ActorId)
    requires me !in s.jobs
    ensures WithoutJob(s, me) == s
  {
    assert s.jobs - {me} == s.jobs;
  }

  lemma {:induction false} NoFaultMeansFaultless(xs: seq<Action>, me: ActorId)
    requires Faults(xs, me) == 0
    ensures Faultless(xs, me)
    decreases |xs|
  {
    if xs != [] { NoFaultMeansFaultless(xs[..|xs| - 1], me); }
  }

  lemma TickingIsScheduler(c: Config, s: State, me: ActorId)
    requires Reachable(c, s) && me in s.ticks
    ensures me in c.schedulers
  {
    ReachableKeepsInv(c, s);
  }

  /** A pass of me between s and s', with or without interference. */
  lemma PassAchieved(c: Config, s: State, xs: seq<Action>, s': State, me: ActorId, p: Phase)
    requires Reachable(c, s) && Ran(c, s, xs, s') && Faults(xs, me) == 0
    requires me in s.ticks && p !in ScansBehind(s.ticks[me].phase)
    requires me !in s'.jobs && me in s'.ticks && p in ScansBehind(s'.ticks[me].phase) && s'.ticks[me].phase != AfterScan(p)
    ensures PassDone(c, s, xs, me, p)
  {
    NoFaultMeansFaultless(xs, me);
    TickingIsScheduler(c, s, me);
    PassesAchieve(c, s, xs, me, p);
  }

  /** All three passes of a tick of me that began after s and is over in s'. */
  lemma TickAchieved(c: Config, s: State, xs: seq<Action>, s': State, me: ActorId)
    requires Reachable(c, s) && Ran(c, s, xs, s') && Faults(xs, me) == 0 && me in c.schedulers && StartTick(me) in xs
    requires me !in s'.jobs && me in s'.ticks && s'.ticks[me].phase == Idle
    ensures TickDone(c, s, xs, me)
  {
    NoFaultMeansFaultless(xs, me);
    TicksAchieve(c, s, xs, me, ScanningExpired);
    TicksAchieve(c, s, xs, me, ScanningZSet);
    TicksAchieve(c, s, xs, me, ScanningRetrying);
  }

  ghost predicate TickDone(c: Config, s: State, xs: seq<Action>, me: ActorId)
    requires Valid(c, s, xs)
  {
    PassDone(c, s, xs, me, ScanningExpired) && PassDone(c, s, xs, me, ScanningZSet) && PassDone(c, s, xs, me, ScanningRetrying)
  }

  class Scheduler {
    const cluster: Cluster
    const batchSize: nat

    constructor (cluster: Cluster, batchSize: nat)
      requires batchSize == cluster.config.scanLimit
      ensures this.cluster == cluster && this.batchSize == batchSize
    {
      this.cluster, this.batchSize := cluster, batchSize;
    }

    /** A run in which nothing of me failed unnoticed, and me ran no handler. */
    twostate predicate Done(me: ActorId, xs: seq<Action>)
      requires old(cluster.Valid())
      reads cluster.Repr()
    {
      && cluster.Valid() && Ran(cluster.config, old(cluster.View()), xs, cluster.View())
      && Faults(xs, me) == cluster.outages - old(cluster.outages) && Answers(xs, me) == []
    }

    /** The same, with the tick of me as it was. */
    twostate predicate Handled(me: ActorId, xs: seq<Action>)
      requires old(cluster.Valid())
      reads cluster.Repr()
    {
      && Done(me, xs)
      && (me in cluster.ticks <==> me in old(cluster.ticks))
      && (me in cluster.ticks ==> cluster.ticks[me] == old(cluster.ticks)[me])
    }

    /** scheduleTask for a task that can be dispatched: row first, then publish; a lost race is no error. */
    method DispatchTask(me: ActorId, due: Task) returns (failure: Option<ScheduleError>, ghost xs: seq<Action>)
      requires cluster.Valid() && (due.row.status == Scheduled || due.row.status == Retrying)
      requires me in cluster.jobs && cluster.jobs[me] == Dispatching(due.id, due.row.status)
      modifies cluster.Repr()
      ensures Handled(me, xs)
      ensures failure.Some? ==> failure == Some(Command) && me !in cluster.jobs && cluster.outages > old(cluster.outages)
      ensures failure.None? ==>
        if due.row.status == Scheduled then me in cluster.jobs && cluster.jobs[me] == Removing(due.id)
        else me !in cluster.jobs
      ensures cluster.calm ==>
        && failure.None?
        && WithoutJob(cluster.View(), me) == WithoutJob(Dispatched(old(cluster.View()), due.id, due.row.status), me)
    {
      ghost var start := cluster.View();
      DispatchEffect(cluster.config, start, me, due.id, due.row.status);
      var moved;
      moved, xs := cluster.Transition(me, due.id, due.row.status, Pending, None);
      if moved == Err(Store(NotFound)) {
        return None, xs;
      }
      if moved.Err? {
        return Some(Command), xs;
      }
      ghost var s1 := cluster.View();
      assert Labels(s1.rows, due.id, moved.value.taskType, TraceOf(moved.value));
      var ok, ys := cluster.PublishTask(me, TaskMessage(due.id, moved.value.taskType, TraceOf(moved.value)));
      RanThen(cluster.config, start, xs, s1, ys, cluster.View(), me);
      failure, xs := if ok then None else Some(Command), xs + ys;
    }

    /** Makes a scheduled or retrying task pending and publishes it. */
    method ScheduleTask(me: ActorId, due: Task) returns (failure: Option<ScheduleError>, ghost xs: seq<Action>)
      requires cluster.Valid()
      requires due.row.status == Scheduled || due.row.status == Retrying ==>
        me in cluster.jobs && cluster.jobs[me] == Dispatching(due.id, due.row.status)
      modifies cluster.Repr()
      ensures Handled(me, xs)
      ensures due.row.status != Scheduled && due.row.status != Retrying ==>
        failure == Some(Unsupported(due.row.status)) && cluster.View() == old(cluster.View())
      ensures failure.Some? && (due.row.status == Scheduled || due.row.status == Retrying) ==>
        failure == Some(Command) && me !in cluster.jobs && cluster.outages > old(cluster.outages)
      ensures failure.None? ==>
        if due.row.status == Scheduled then me in cluster.jobs && cluster.jobs[me] == Removing(due.id)
        else me !in cluster.jobs
      ensures cluster.calm && (due.row.status == Scheduled || due.row.status == Retrying) ==>
        && failure.None?
        && WithoutJob(cluster.View(), me) == WithoutJob(Dispatched(old(cluster.View()), due.id, due.row.status), me)
    {
      if due.row.status != Scheduled && due.row.status != Retrying {
        return Some(Unsupported(due.row.status)), [];
      }
      failure, xs := DispatchTask(me, due);
    }

    method Remove(me: ActorId, id: TaskId) returns (failure: Option<ScheduleError>, ghost xs: seq<Action>)
      requires cluster.Valid() && me in cluster.jobs && cluster.jobs[me] == Removing(id)
      modifies cluster.Repr()
      ensures Handled(me, xs) && me !in cluster.jobs
      ensures failure.Some? ==> cluster.outages > old(cluster.outages)
      ensures failure.None? ==> id !in cluster.scheduled.members
      ensures cluster.calm ==> failure.None? && cluster.View() == Removed(old(cluster.View()), me, id)
    {
      RemoveEffect(cluster.config, cluster.View(), me, id);
      var ok;
      ok, xs := cluster.Remove(me, id);
      failure := if ok then None else Some(Command);
    }

    /** The end of ScheduleZSetTask, for a task that still waits. */
    method ScheduleMember(me: ActorId, due: Task) returns (failure: Option<ScheduleError>, ghost xs: seq<Action>)
      requires cluster.Valid() && due.row.status == Scheduled
      requires me in cluster.jobs && cluster.jobs[me] == Dispatching(due.id, Scheduled)
      modifies cluster.Repr()
      ensures Handled(me, xs) && me !in cluster.jobs
      ensures failure.Some? ==> cluster.outages > old(cluster.outages)
      ensures failure.None? ==> due.id !in cluster.scheduled.members
      ensures cluster.calm ==>
        failure.None? && cluster.View() == Removed(Dispatched(old(cluster.View()), due.id, Scheduled), me, due.id)
    {
      ghost var start := cluster.View();
      failure, xs := ScheduleTask(me, due);
      if failure.Some? {
        return;
      }
      ghost var s1 := cluster.View();
      ghost var ys;
      failure, ys := Remove(me, due.id);
      RanThen(cluster.config, start, xs, s1, ys, cluster.View(), me);
      xs := xs + ys;
    }

    /** A member of the ZSET: dispatched if its task still waits for it, removed in any case. */
    method ScheduleZSetTask(me: ActorId, id: TaskId) returns (failure: Option<ScheduleError>, ghost xs: seq<Action>)
      requires cluster.Valid() && me in cluster.jobs && cluster.jobs[me] == Inspecting(id)
      modifies cluster.Repr()
      ensures Handled(me, xs) && me !in cluster.jobs
      ensures failure.Some? ==> cluster.outages > old(cluster.outages)
      ensures failure.None? ==> id !in cluster.scheduled.members
      ensures cluster.calm ==>
        failure.None? && cluster.View() == Removed(Dispatched(old(cluster.View()), id, Scheduled), me, id)
    {
      ghost var start := cluster.View();
      InspectEffect(cluster.config, start, me, id);
      var due;
      due, xs := cluster.Get(me, id);
      if due.Err? && due.error == Unavailable {
        return Some(Command), xs;
      }
      ghost var s1 := cluster.View();
      ghost var ys;
      if due.Ok? && due.value.status == Scheduled {
        failure, ys := ScheduleMember(me, Task(id, due.value));
      } else {
        failure, ys := Remove(me, id);
      }
      RanThen(cluster.config, start, xs, s1, ys, cluster.View(), me);
      xs := xs + ys;
    }

    /** The task, as it was read some time ago, is the stored one but for its mutable columns. */
    ghost predicate StillRead(task: Task)
      reads cluster.store
    {
      task.id in cluster.store.rows && SameTask(task.row, cluster.store.rows[task.id])
    }

    /** Fails a run whose timeout has passed, with the tick's instant as the instant of the decision. */
    method RecoverRunningTask(me: ActorId, now: int, expired: Task)
      returns (failure: Option<ScheduleError>, ghost xs: seq<Action>)
      requires cluster.Valid() && me in cluster.ticks && cluster.ticks[me].now == now
      requires me in cluster.jobs && cluster.jobs[me] ==
        Recovering(expired.id, "running timeout recovery: task exceeded timeout_seconds=" + Decimal(expired.row.timeoutSeconds))
      requires StillRead(expired)
      modifies cluster.Repr()
      ensures Handled(me, xs) && me !in cluster.jobs
      ensures failure.Some? ==> cluster.outages > old(cluster.outages)
    {
      ghost var start := cluster.View();
      var text := RecoveryFailure(expired.row.timeoutSeconds);
      var marked;
      marked, xs := cluster.MarkFailed(me, expired.id, text);
      if marked.Err? {
        return if marked.error == Store(NotFound) then None else Some(Command), xs;
      }
      ghost var s1 := cluster.View();
      ghost var ys;
      RunKeepsTasks(cluster.config, start, xs, expired.id);
      failure, ys := Finalize(me, now, expired, marked.value, text);
      RanThen(cluster.config, start, xs, s1, ys, cluster.View(), me);
      xs := xs + ys;
    }

    /** The rest of RecoverRunningTask, once the row is failed. */
    method Finalize(me: ActorId, now: int, expired: Task, marked: Row, text: string)
      returns (failure: Option<ScheduleError>, ghost xs: seq<Action>)
      requires cluster.Valid() && me in cluster.ticks && cluster.ticks[me].now == now
      requires me in cluster.jobs
      requires cluster.jobs[me] == AfterFailing(marked, expired.id, text, false, Owner.Scheduler)
      requires StillRead(expired)
      modifies cluster.Repr()
      ensures Handled(me, xs) && me !in cluster.jobs
      ensures failure.Some? ==> cluster.outages > old(cluster.outages)
    {
      ghost var start := cluster.View();
      xs := cluster.Decided(me);
      var decision := DecideFailure(now, marked.retryCount, marked.maxRetries);
      ghost var s1 := cluster.View();
      ghost var ys;
      RunKeepsTasks(cluster.config, start, xs, expired.id);
      failure, ys := Complete(me, expired, decision, text);
      RanThen(cluster.config, start, xs, s1, ys, cluster.View(), me);
      xs := xs + ys;
    }

    /** The end of RecoverRunningTask, once the failure is decided. */
    method Complete(me: ActorId, expired: Task, decision: FailureDecision, text: string)
      returns (failure: Option<ScheduleError>, ghost xs: seq<Action>)
      requires cluster.Valid() && me in cluster.jobs
      requires cluster.jobs[me] == Completing(expired.id, decision, text, Owner.Scheduler)
      requires decision.status == Retrying || decision.status == Dead
      requires StillRead(expired)
      modifies cluster.Repr()
      ensures Handled(me, xs) && me !in cluster.jobs
      ensures failure.Some? ==> cluster.outages > old(cluster.outages)
    {
      ghost var start := cluster.View();
      var final;
      final, xs := cluster.CompleteFailure(me, expired.id, decision, text);
      if final.Err? {
        return if final.error == Store(NotFound) then None else Some(Command), xs;
      }
      failure := None;
      if final.value.status == Dead && cluster.config.schedulerBuries {
        ghost var s1 := cluster.View();
        RunKeepsTasks(cluster.config, start, xs, expired.id);
        var ok, ys := cluster.PublishDead(me,
          DeadTaskMessage(expired.id, expired.row.taskType, TraceOf(expired.row), text, final.value.retryCount));
        RanThen(cluster.config, start, xs, s1, ys, cluster.View(), me);
        xs := xs + ys;
      }
    }

    /** The tick of me is at the tail of its loop in this phase, with nothing under way. */
    ghost predicate At(me: ActorId, now: int, phase: Phase, todo: seq<TaskId>)
      reads cluster
    {
      me !in cluster.jobs && me in cluster.ticks && cluster.ticks[me] == Protocol.Tick.Tick(now, phase, todo)
    }

    /** One turn of the loop of scheduleDueZSetTasks; an error is only logged. */
    method ScheduleNextMember(me: ActorId, now: int, id: TaskId, ghost rest: seq<TaskId>)
      returns (ghost xs: seq<Action>)
      requires cluster.Valid() && At(me, now, DispatchingZSet, [id] + rest)
      modifies cluster.Repr()
      ensures Done(me, xs) && At(me, now, DispatchingZSet, rest)
      ensures cluster.calm ==>
        cluster.View() == Removed(Dispatched(DoTake(old(cluster.View()), me), id, Scheduled), me, id)
    {
      ghost var start := cluster.View();
      xs := cluster.Take(me);
      ghost var s1 := cluster.View();
      var failure, ys := ScheduleZSetTask(me, id);
      RanThen(cluster.config, start, xs, s1, ys, cluster.View(), me);
      xs := xs + ys;
    }

    /** The loop of scheduleDueZSetTasks. */
    method ScheduleMembers(me: ActorId, now: int, found: seq<TaskId>) returns (ghost xs: seq<Action>)
      requires cluster.Valid() && At(me, now, DispatchingZSet, found) && Distinct(found)
      modifies cluster.Repr()
      ensures Done(me, xs) && At(me, now, DispatchingZSet, [])
      ensures cluster.calm ==> ZSetPassed(old(cluster.View()), cluster.View(), found)
    {
      ghost var start := cluster.View();
      xs := [];
      for i := 0 to |found|
        invariant Done(me, xs) && At(me, now, DispatchingZSet, found[i..])
        invariant cluster.calm ==> ZSetPassed(start, cluster.View(), found[..i])
      {
        ghost var s1 := cluster.View();
        Turn(found, i);
        ghost var ys := ScheduleNextMember(me, now, found[i], found[i + 1..]);
        RanThen(cluster.config, start, xs, s1, ys, cluster.View(), me);
        xs := xs + ys;
        if cluster.calm { ZSetPassedNext(start, s1, cluster.View(), me, found[..i], found[i]); }
      }
      assert found[..|found|] == found;
    }

    method ScheduleFoundMembers(me: ActorId, now: int, found: seq<TaskId>) returns (ghost xs: seq<Action>)
      requires cluster.Valid() && At(me, now, DispatchingZSet, found) && Distinct(found)
      modifies cluster.Repr()
      ensures Done(me, xs) && At(me, now, ScanningRetrying, [])
      ensures cluster.calm ==> ZSetPassed(old(cluster.View()), cluster.View(), found)
    {
      ghost var start := cluster.View();
      xs := ScheduleMembers(me, now, found);
      ghost var s1 := cluster.View();
      ghost var ys := cluster.EndPhase(me);
      RanThen(cluster.config, start, xs, s1, ys, cluster.View(), me);
      xs := xs + ys;
    }

    method RunZSetPass(me: ActorId, now: int)
      returns (failed: bool, ghost ids: seq<TaskId>, ghost xs: seq<Action>)
      requires cluster.Valid() && At(me, now, ScanningZSet, []) && batchSize == cluster.config.scanLimit
      modifies cluster.Repr()
      ensures Done(me, xs)
      ensures failed ==> cluster.outages > old(cluster.outages)
      ensures At(me, now, if failed then Idle else ScanningRetrying, [])
      ensures cluster.calm ==>
        && !failed
        && IsScan(DueMembers(old(cluster.View()).zset, now), ScoreRank(old(cluster.View()).zset), batchSize, ids)
        && ZSetPassed(old(cluster.View()), cluster.View(), ids)
    {
      ghost var start := cluster.View();
      var up, found;
      up, found, xs := cluster.DueTaskIDs(me, now, batchSize);
      failed, ids := !up, found;
      if up {
        ghost var s1 := cluster.View();
        ghost var ys := ScheduleFoundMembers(me, now, found);
        RanThen(cluster.config, start, xs, s1, ys, cluster.View(), me);
        xs := xs + ys;
      }
    }

    /** scheduleDueZSetTasks.  Among everybody else, and if none of its own commands fails, every member its scan found
        is dispatched and gone from the ZSET.  Left to itself it does exactly that: it removes as many of the due
        members as the batch allows, and makes each of those tasks that still waits pending, with one message. */
    method ScheduleDueZSetTasks(me: ActorId, now: int)
      returns (failed: bool, ghost ids: seq<TaskId>, ghost xs: seq<Action>)
      requires cluster.Valid() && At(me, now, ScanningZSet, []) && batchSize == cluster.config.scanLimit
      requires Reachable(cluster.config, cluster.View())
      modifies cluster.Repr()
      ensures Done(me, xs)
      ensures failed ==> cluster.outages > old(cluster.outages)
      ensures At(me, now, if failed then Idle else ScanningRetrying, [])
      ensures cluster.outages == old(cluster.outages) ==>
        PassDone(cluster.config, old(cluster.View()), xs, me, ScanningZSet)
      ensures cluster.calm ==>
        && !failed
        && IsScan(DueMembers(old(cluster.View()).zset, now), ScoreRank(old(cluster.View()).zset), batchSize, ids)
        && ZSetPassed(old(cluster.View()), cluster.View(), ids)
    {
      ghost var start := cluster.View();
      failed, ids, xs := RunZSetPass(me, now);
      if cluster.outages == old(cluster.outages) {
        PassAchieved(cluster.config, start, xs, cluster.View(), me, ScanningZSet);
      }
    }

    /** One turn of the last loop of a tick; an error is only logged. */
    method ScheduleNextRetry(me: ActorId, now: int, due: Task, ghost rest: seq<TaskId>) returns (ghost xs: seq<Action>)
      requires cluster.Valid() && At(me, now, DispatchingRetrying, [due.id] + rest) && due.row.status == Retrying
      modifies cluster.Repr()
      ensures Done(me, xs) && At(me, now, DispatchingRetrying, rest)
      ensures cluster.calm ==>
        cluster.View() == WithoutJob(Dispatched(DoTake(old(cluster.View()), me), due.id, Retrying), me)
    {
      ghost var start := cluster.View();
      xs := cluster.Take(me);
      ghost var s1 := cluster.View();
      var failure, ys := ScheduleTask(me, due);
      RanThen(cluster.config, start, xs, s1, ys, cluster.View(), me);
      xs := xs + ys;
      NoJob(cluster.View(), me);
    }

    method ScheduleRetries(me: ActorId, now: int, found: seq<Task>, ghost ids: seq<TaskId>)
      returns (ghost xs: seq<Action>)
      requires cluster.Valid() && At(me, now, DispatchingRetrying, ids) && Distinct(ids) && |found| == |ids|
      requires forall i :: 0 <= i < |ids| ==> found[i].id == ids[i] && found[i].row.status == Retrying
      modifies cluster.Repr()
      ensures Done(me, xs) && At(me, now, DispatchingRetrying, [])
      ensures cluster.calm ==>
        Passed(old(cluster.View()), cluster.View(), Retrying, ids) && cluster.View().zset == old(cluster.View()).zset
    {
      ghost var start := cluster.View();
      xs := [];
      for i := 0 to |found|
        invariant Done(me, xs) && At(me, now, DispatchingRetrying, ids[i..])
        invariant cluster.calm ==>
          Passed(start, cluster.View(), Retrying, ids[..i]) && cluster.View().zset == start.zset
      {
        ghost var s1 := cluster.View();
        Turn(ids, i);
        ghost var ys := ScheduleNextRetry(me, now, found[i], ids[i + 1..]);
        RanThen(cluster.config, start, xs, s1, ys, cluster.View(), me);
        xs := xs + ys;
        if cluster.calm { RetriesPassedNext(start, s1, cluster.View(), me, ids[..i], ids[i]); }
      }
      assert ids[..|ids|] == ids;
    }

    method ScheduleFoundRetries(me: ActorId, now: int, found: seq<Task>, ghost ids: seq<TaskId>)
      returns (ghost xs: seq<Action>)
      requires cluster.Valid() && At(me, now, DispatchingRetrying, ids) && Distinct(ids) && |found| == |ids|
      requires forall i :: 0 <= i < |ids| ==> found[i].id == ids[i] && found[i].row.status == Retrying
      modifies cluster.Repr()
      ensures Done(me, xs) && At(me, now, Idle, [])
      ensures cluster.calm ==>
        Passed(old(cluster.View()), cluster.View(), Retrying, ids) && cluster.View().zset == old(cluster.View()).zset
    {
      ghost var start := cluster.View();
      xs := ScheduleRetries(me, now, found, ids);
      ghost var s1 := cluster.View();
      ghost var ys := cluster.EndPhase(me);
      RanThen(cluster.config, start, xs, s1, ys, cluster.View(), me);
      xs := xs + ys;
    }

    method RunRetryPass(me: ActorId, now: int)
      returns (failed: bool, ghost ids: seq<TaskId>, ghost xs: seq<Action>)
      requires cluster.Valid() && At(me, now, ScanningRetrying, []) && batchSize == cluster.config.scanLimit
      modifies cluster.Repr()
      ensures Done(me, xs)
      ensures failed ==> cluster.outages > old(cluster.outages)
      ensures At(me, now, Idle, [])
      ensures cluster.calm ==>
        && !failed
        && IsScan(DueRetryingTasks(old(cluster.View()).rows, now), RetryRank(old(cluster.View()).rows), batchSize, ids)
        && Passed(old(cluster.View()), cluster.View(), Retrying, ids)
        && cluster.View().zset == old(cluster.View()).zset
    {
      ghost var start := cluster.View();
      var up, found;
      up, found, ids, xs := cluster.DueRetrying(me, now, batchSize);
      failed := !up;
      if up {
        ghost var s1 := cluster.View();
        ghost var ys := ScheduleFoundRetries(me, now, found, ids);
        RanThen(cluster.config, start, xs, s1, ys, cluster.View(), me);
        xs := xs + ys;
      }
    }

    /** The last part of a tick.  Among everybody else, and if none of its own commands fails, every retry its scan
        found is dispatched.  Left to itself it makes exactly those pending, with one message each. */
    method ScheduleDueRetries(me: ActorId, now: int)
      returns (failed: bool, ghost ids: seq<TaskId>, ghost xs: seq<Action>)
      requires cluster.Valid() && At(me, now, ScanningRetrying, []) && batchSize == cluster.config.scanLimit
      requires Reachable(cluster.config, cluster.View())
      modifies cluster.Repr()
      ensures Done(me, xs)
      ensures failed ==> cluster.outages > old(cluster.outages)
      ensures At(me, now, Idle, [])
      ensures cluster.outages == old(cluster.outages) ==>
        PassDone(cluster.config, old(cluster.View()), xs, me, ScanningRetrying)
      ensures cluster.calm ==>
        && !failed
        && IsScan(DueRetryingTasks(old(cluster.View()).rows, now), RetryRank(old(cluster.View()).rows), batchSize, ids)
        && Passed(old(cluster.View()), cluster.View(), Retrying, ids)
        && cluster.View().zset == old(cluster.View()).zset
    {
      ghost var start := cluster.View();
      failed, ids, xs := RunRetryPass(me, now);
      if cluster.outages == old(cluster.outages) {
        PassAchieved(cluster.config, start, xs, cluster.View(), me, ScanningRetrying);
      }
    }

    /** One turn of the loop of recoverExpiredRunning; an error is only logged. */
    method RecoverNext(me: ActorId, now: int, expired: Task, ghost rest: seq<TaskId>) returns (ghost xs: seq<Action>)
      requires cluster.Valid() && At(me, now, RecoveringExpired, [expired.id] + rest)
      requires StillRead(expired)
      modifies cluster.Repr()
      ensures Done(me, xs) && At(me, now, RecoveringExpired, rest)
    {
      ghost var start := cluster.View();
      xs := cluster.Take(me);
      ghost var s1 := cluster.View();
      TakesExpired(start, me, now, expired, rest);
      var failure, ys := RecoverRunningTask(me, now, expired);
      RanThen(cluster.config, start, xs, s1, ys, cluster.View(), me);
      xs := xs + ys;
    }

    method RecoverFound(me: ActorId, now: int, found: seq<Task>, ghost ids: seq<TaskId>) returns (ghost xs: seq<Action>)
      requires cluster.Valid() && At(me, now, RecoveringExpired, ids)
      requires Reachable(cluster.config, cluster.View())
      requires ids == Ids(found) && AsStored(cluster.store.rows, found)
      modifies cluster.Repr()
      ensures Done(me, xs) && At(me, now, RecoveringExpired, [])
    {
      ghost var start := cluster.View();
      xs := [];
      for i := 0 to |found|
        invariant Done(me, xs) && At(me, now, RecoveringExpired, ids[i..])
      {
        ghost var s1 := cluster.View();
        assert ids[i..] == [found[i].id] + ids[i + 1..];
        ReadStaysTrue(cluster.config, start, [], start, xs, s1, ids[i]);
        ghost var ys := RecoverNext(me, now, found[i], ids[i + 1..]);
        RanThen(cluster.config, start, xs, s1, ys, cluster.View(), me);
        xs := xs + ys;
      }
    }

    method RecoverAllFound(me: ActorId, now: int, found: seq<Task>, ghost ids: seq<TaskId>)
      returns (ghost xs: seq<Action>)
      requires cluster.Valid() && At(me, now, RecoveringExpired, ids)
      requires Reachable(cluster.config, cluster.View())
      requires ids == Ids(found) && AsStored(cluster.store.rows, found)
      modifies cluster.Repr()
      ensures Done(me, xs) && At(me, now, ScanningZSet, [])
    {
      ghost var start := cluster.View();
      xs := RecoverFound(me, now, found, ids);
      ghost var s1 := cluster.View();
      ghost var ys := cluster.EndPhase(me);
      RanThen(cluster.config, start, xs, s1, ys, cluster.View(), me);
      xs := xs + ys;
    }

    method RunRecoveryPass(me: ActorId, now: int) returns (failed: bool, ghost xs: seq<Action>)
      requires cluster.Valid() && At(me, now, ScanningExpired, []) && batchSize == cluster.config.scanLimit
      requires Reachable(cluster.config, cluster.View())
      modifies cluster.Repr()
      ensures Done(me, xs)
      ensures failed ==> cluster.outages > old(cluster.outages)
      ensures At(me, now, if failed then Idle else ScanningZSet, [])
    {
      ghost var start := cluster.View();
      var up, found;
      ghost var ids;
      up, found, ids, xs := cluster.ExpiredRunning(me, now, batchSize);
      failed := !up;
      if up {
        ghost var s1 := cluster.View();
        ReachableFrom(cluster.config, start, xs);
        ghost var ys := RecoverAllFound(me, now, found, ids);
        RanThen(cluster.config, start, xs, s1, ys, cluster.View(), me);
        xs := xs + ys;
      }
    }

    /** recoverExpiredRunning.  Among everybody else, and if none of its own commands fails, every run its scan found
        is over afterwards. */
    method RecoverExpiredRunning(me: ActorId, now: int) returns (failed: bool, ghost xs: seq<Action>)
      requires cluster.Valid() && At(me, now, ScanningExpired, []) && batchSize == cluster.config.scanLimit
      requires Reachable(cluster.config, cluster.View())
      modifies cluster.Repr()
      ensures Done(me, xs)
      ensures failed ==> cluster.outages > old(cluster.outages)
      ensures At(me, now, if failed then Idle else ScanningZSet, [])
      ensures cluster.outages == old(cluster.outages) ==>
        PassDone(cluster.config, old(cluster.View()), xs, me, ScanningExpired)
    {
      ghost var start := cluster.View();
      failed, xs := RunRecoveryPass(me, now);
      if cluster.outages == old(cluster.outages) {
        PassAchieved(cluster.config, start, xs, cluster.View(), me, ScanningExpired);
      }
    }

    /** The parts of a tick after the recovery of expired runs. */
    method Dispatch(me: ActorId, now: int) returns (failed: bool, ghost xs: seq<Action>)
      requires cluster.Valid() && At(me, now, ScanningZSet, []) && batchSize == cluster.config.scanLimit
      requires Reachable(cluster.config, cluster.View())
      modifies cluster.Repr()
      ensures Done(me, xs)
      ensures failed ==> cluster.outages > old(cluster.outages)
      ensures At(me, now, Idle, [])
    {
      ghost var start := cluster.View();
      ghost var ids;
      failed, ids, xs := ScheduleDueZSetTasks(me, now);
      if !failed {
        ghost var s1 := cluster.View();
        ghost var ys;
        ReachableFrom(cluster.config, start, xs);
        failed, ids, ys := ScheduleDueRetries(me, now);
        RanThen(cluster.config, start, xs, s1, ys, cluster.View(), me);
        xs := xs + ys;
      }
    }

    /** One tick.  Whatever the other actors do meanwhile, it reads one instant, and takes the actions of its three
        scans and loops in their order; it gives the rest up only when a scan fails, and the step a task is at only
        when one of its commands does.  If none does, whatever its scans found is settled: the expired runs are over,
        the due members are dispatched, published and gone from the ZSET, the due retries are dispatched and published. */
    method Tick(me: ActorId) returns (failed: bool, ghost xs: seq<Action>)
      requires cluster.Valid() && me in cluster.config.schedulers && me !in cluster.jobs
      requires me in cluster.ticks ==> cluster.ticks[me].phase == Idle
      requires batchSize == cluster.config.scanLimit && Reachable(cluster.config, cluster.View())
      modifies cluster.Repr()
      ensures Done(me, xs) && StartTick(me) in xs
      ensures failed ==> cluster.outages > old(cluster.outages)
      ensures me !in cluster.jobs && me in cluster.ticks && cluster.ticks[me].phase == Idle
      ensures cluster.outages == old(cluster.outages) ==> TickDone(cluster.config, old(cluster.View()), xs, me)
    {
      ghost var start := cluster.View();
      var now;
      now, xs := cluster.StartTick(me);
      ghost var s1 := cluster.View();
      ReachableFrom(cluster.config, start, xs);
      ghost var ys;
      failed, ys := RecoverAndDispatch(me, now);
      RanThen(cluster.config, start, xs, s1, ys, cluster.View(), me);
      xs := xs + ys;
      if cluster.outages == old(cluster.outages) { TickAchieved(cluster.config, start, xs, cluster.View(), me); }
    }

    method RecoverAndDispatch(me: ActorId, now: int) returns (failed: bool, ghost xs: seq<Action>)
      requires cluster.Valid() && At(me, now, ScanningExpired, []) && batchSize == cluster.config.scanLimit
      requires Reachable(cluster.config, cluster.View())
      modifies cluster.Repr()
      ensures Done(me, xs)
      ensures failed ==> cluster.outages > old(cluster.outages)
      ensures At(me, now, Idle, [])
    {
      ghost var start := cluster.View();
      failed, xs := RecoverExpiredRunning(me, now);
      if !failed {
        ghost var s1 := cluster.View();
        ghost var ys;
        ReachableFrom(cluster.config, start, xs);
        failed, ys := Dispatch(me, now);
        RanThen(cluster.config, start, xs, s1, ys, cluster.View(), me);
        xs := xs + ys;
      }
    }
  }
}
