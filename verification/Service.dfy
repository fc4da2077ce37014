/** internal/task/service.go: submission, by any number of creators at once. */
module Services {
  import opened Basics
  import opened Statuses
  import opened Rows
  import opened Protocol
  import opened Guarantees
  import opened Origins
  import opened Stores
  import opened Queues
  import opened Metrics
  import opened Clusters

  // ---- Trace ids ----

  // unicode.IsSpace
  predicate IsSpace(c: char) {
    || '\t' <= c <= '\r' || c == ' ' || c == '\U{85}' || c == '\U{A0}' || c == '\U{1680}'
    || '\U{2000}' <= c <= '\U{200A}' || c == '\U{2028}' || c == '\U{2029}' || c == '\U{202F}'
    || c == '\U{205F}' || c == '\U{3000}'
  }

  // strings.TrimSpace
  function TrimSpace(s: string): string {
    if s == "" then ""
    else if IsSpace(s[0]) then TrimSpace(s[1..])
    else if IsSpace(s[|s| - 1]) then TrimSpace(s[..|s| - 1])
    else s
  }

  predicate AllSpace(s: string) {
    forall i :: 0 <= i < |s| ==> IsSpace(s[i])
  }

  lemma SpaceJoined(s: string, t: string)
    requires AllSpace(s) && AllSpace(t)
    ensures AllSpace(s + t)
  {
    forall i | 0 <= i < |s + t| ensures IsSpace((s + t)[i]) {
      assert (s + t)[i] == if i < |s| then s[i] else t[i - |s|];
    }
  }

  /** Only the space around s goes, and all of it. */
  lemma {:induction false} TrimSpaceTrims(s: string) returns (before: string, after: string)
    ensures s == before + TrimSpace(s) + after && AllSpace(before) && AllSpace(after)
    ensures TrimSpace(s) != "" ==>
      !IsSpace(TrimSpace(s)[0]) && !IsSpace(TrimSpace(s)[|TrimSpace(s)| - 1])
    decreases |s|
  {
    before, after := "", "";
    if s == "" {
    } else if IsSpace(s[0]) {
      before, after := TrimSpaceTrims(s[1..]);
      SpaceJoined([s[0]], before);
      before := [s[0]] + before;
    } else if IsSpace(s[|s| - 1]) {
      before, after := TrimSpaceTrims(s[..|s| - 1]);
      SpaceJoined(after, [s[|s| - 1]]);
      after := after + [s[|s| - 1]];
    }
  }

  /** The trace id a submission is stored with. */
  function TraceIdFor(given: Option<string>, generated: string): string {
    if given.None? || TrimSpace(given.value) == "" then generated else TrimSpace(given.value)
  }

  /** Exactly a blank text is trimmed to nothing. */
  lemma BlankIsTrimmedAway(s: string)
    ensures TrimSpace(s) == "" <==> AllSpace(s)
  {
    var before, after := TrimSpaceTrims(s);
    if TrimSpace(s) != "" { assert s[|before|] == TrimSpace(s)[0]; }
  }

  /** A given trace id that is not blank is kept, trimmed; otherwise the generated one is taken. */
  lemma TraceIdIsGivenOrGenerated(given: Option<string>, generated: string)
    ensures TraceIdFor(given, generated) ==
      if given.Some? && !AllSpace(given.value) then TrimSpace(given.value) else generated
  {
    if given.Some? { BlankIsTrimmedAway(given.value); }
  }

  // ---- Idempotent submission ----

  /** As long as the table exists, one idempotency key names one task. */
  lemma OneTaskForEachKey(c: Config, s: State, xs: seq<Action>, first: TaskId, second: TaskId)
    requires Reachable(c, s) && Valid(c, s, xs)
    requires first in s.rows && second in RunFrom(c, s, xs).rows && s.rows[first].idempotencyKey.Some?
    ensures RunFrom(c, s, xs).rows[second].idempotencyKey == s.rows[first].idempotencyKey <==> first == second
  {
    ReachableKeepsInv(c, s);
    RunKeepsInv(c, s, xs);
    RunKeepsTasks(c, s, xs, first);
  }

  /** The task is stored as it was submitted, and its first step is queued: its message is in the stream, or it is in the
      ZSET for as long as it is scheduled. */
  predicate Queued(s: State, task: Task) {
    && task.id in s.rows && SameTask(task.row, s.rows[task.id])
    && (task.row.status == Pending ==> Entry(task.id, 0) in s.stream)
    && (task.row.status == Scheduled ==> Backed(s, task.id))
  }

  lemma StaysQueued(c: Config, s: State, xs: seq<Action>, s': State, task: Task)
    requires Reachable(c, s) && Ran(c, s, xs, s') && Queued(s, task)
    ensures Queued(s', task)
  {
    ReachableKeepsInv(c, s);
    RunKeepsTasks(c, s, xs, task.id);
    RunGrows(c, s, xs);
    if task.row.status == Scheduled { RunBacked(c, s, xs, task.id); }
  }

  lemma ClockGoesOn(c: Config, s: State, xs: seq<Action>, s': State)
    requires Reachable(c, s) && Ran(c, s, xs, s')
    ensures s.now <= s'.now
  {
    ReachableKeepsInv(c, s);
    RunGrows(c, s, xs);
  }

  /** A submission that was stored is of a task that was not there. */
  lemma SubmittedIsNew(c: Config, s: State, xs: seq<Action>, s': State, me: ActorId, id: TaskId, p: CreateTaskParams)
    requires Reachable(c, s) && Ran(c, s, xs, s') && Submits(xs, me, id, p)
    ensures id !in s.rows
  {
    var before := Last(c, s, xs);
    ReachableKeepsInv(c, s);
    if id in s.rows { RunKeepsTasks(c, s, xs[..|xs| - 1], id); }
  }

  class Service {
    const cluster: Cluster

    constructor (cluster: Cluster)
      ensures this.cluster == cluster
    {
      this.cluster := cluster;
    }

    /** Stores the task and then publishes or schedules it, unless its key was taken; the flag of the result says
        whether the task is new.  Whatever the other actors do meanwhile, a new task is returned only when the
        creator has taken every action it owed: its next step is in a queue, and it was counted.  For a taken key the
        creator returns the stored row and does nothing. */
    method Create(me: ActorId, id: TaskId, params: CreateTaskParams, generated: string)
      returns (r: Result<(Task, bool), Failure>, ghost xs: seq<Action>)
      requires cluster.Valid() && me !in cluster.jobs && me !in cluster.config.schedulers && params.taskType != ""
      requires Reachable(cluster.config, cluster.View())
      modifies cluster.Repr()
      ensures cluster.Valid() && Ran(cluster.config, old(cluster.View()), xs, cluster.View())
      ensures me !in cluster.jobs && Answers(xs, me) == []
      ensures Faults(xs, me) <= cluster.outages - old(cluster.outages)
      ensures r == Err(Unavailable) <==> cluster.outages > old(cluster.outages)
      ensures r.Ok? ==> r.value.0.row.idempotencyKey == params.idempotencyKey
      ensures r.Ok? && !r.value.1 ==>
        && params.idempotencyKey.Some? && Leaves(xs, me)
        && r.value.0.id in cluster.store.rows && cluster.store.rows[r.value.0.id] == r.value.0.row
      ensures r.Ok? && r.value.1 ==>
        var q := r.value.0.row;
        && r.value.0.id == id && id !in old(cluster.store.rows)
        && q.taskType == params.taskType && q.timeoutSeconds == params.timeoutSeconds && q.maxRetries == params.maxRetries
        && q.traceId == Some(if params.traceId.Some? && !AllSpace(params.traceId.value)
                             then TrimSpace(params.traceId.value) else generated)
        && q.runAt <= params.runAt < q.runAt + MICROSECOND && q.retryCount == 0
        && old(cluster.now) <= q.createdAt <= cluster.now
        && q.status == (if params.runAt > q.createdAt then Scheduled else Pending)
        && Queued(cluster.View(), r.value.0)
        && old(cluster.metrics.View()).submitted < cluster.metrics.View().submitted
    {
      ghost var start := cluster.View();
      var p := params.(traceId := Some(TraceIdFor(params.traceId, generated)));
      var created;
      created, xs := cluster.Create(me, id, p);
      if created.Err? {
        return Err(created.error), xs;
      }
      var task := created.value.0;
      if !created.value.1 {
        return created, xs;
      }
      ghost var s1 := cluster.View();
      SubmittedIsNew(cluster.config, start, xs, s1, me, id, p);
      NewRowIsAsSubmitted(p, cluster.now);
      TraceIdIsGivenOrGenerated(params.traceId, generated);
      ClockGoesOn(cluster.config, start, xs, s1);
      ReachableFrom(cluster.config, start, xs);
      RunCounts(cluster.config, start, xs);
      var ok, ys := Enqueue(me, task);
      ClockGoesOn(cluster.config, s1, ys, cluster.View());
      RanThen(cluster.config, start, xs, s1, ys, cluster.View(), me);
      r, xs := if ok then created else Err(Unavailable), xs + ys;
    }

    /** The rest of Create, for a task that is new. */
    method Enqueue(me: ActorId, task: Task) returns (ok: bool, ghost xs: seq<Action>)
      requires cluster.Valid() && me in cluster.jobs && (task.row.status == Scheduled || task.row.status == Pending)
      requires cluster.jobs[me] == AfterSubmit(task.id, task.row)
      requires task.id in cluster.store.rows && cluster.store.rows[task.id] == task.row
      requires Reachable(cluster.config, cluster.View())
      modifies cluster.Repr()
      ensures cluster.Valid() && Ran(cluster.config, old(cluster.View()), xs, cluster.View())
      ensures me !in cluster.jobs && Answers(xs, me) == []
      ensures Faults(xs, me) == cluster.outages - old(cluster.outages) == (if ok then 0 else 1)
      ensures ok ==> Queued(cluster.View(), task)
      ensures ok ==> old(cluster.metrics.View()).submitted < cluster.metrics.View().submitted
    {
      ghost var start := cluster.View();
      if task.row.status != Pending {
        ok, xs := cluster.ScheduleTask(me, task.id, task.row.runAt);
      } else {
        ok, xs := cluster.PublishTask(me, TaskMessage(task.id, task.row.taskType, TraceOf(task.row)));
      }
      if ok {
        ghost var s1 := cluster.View();
        ReachableKeepsInv(cluster.config, start);
        RunKeepsTasks(cluster.config, start, xs, task.id);
        ReachableFrom(cluster.config, start, xs);
        RunCounts(cluster.config, start, xs);
        ghost var ys := cluster.Count(me, SubmittedTotal, 0);
        StaysQueued(cluster.config, s1, ys, cluster.View(), task);
        RanThen(cluster.config, start, xs, s1, ys, cluster.View(), me);
        xs := xs + ys;
      }
    }
  }
}
