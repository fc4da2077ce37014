/** internal/task/store.go: the tasks table and the statements the program runs on it. */
module Stores {
  import opened Basics
  import opened Statuses
  import opened Retry
  import opened Rows
  import opened Protocol

  datatype StoreError = NotFound | InvalidTransition(from: Status, to: Status) | ConstraintViolated

  /** A row as the program holds it after a scan. */
  datatype Task = Task(id: TaskId, row: Row)

  datatype Snapshot = Snapshot(queueBacklog: nat, runningTasks: nat)

  // The first FILTER of MetricsSnapshot.
  predicate InBacklog(r: Row, now: int) {
    || r.status == Pending
    || (r.status == Scheduled && r.runAt <= now)
    || IsDueRetrying(r, now)
  }

  lemma BacklogSplits(rows: map<TaskId, Row>, now: int)
    ensures
      var pending := set id | id in rows && rows[id].status == Pending;
      var scheduled := set id | id in rows && rows[id].status == Scheduled && rows[id].runAt <= now;
      var retrying := set id | id in rows && rows[id].status == Retrying && rows[id].nextRetryAt.Some?
                                          && rows[id].nextRetryAt.value <= now;
      |set id | id in rows && InBacklog(rows[id], now)| == |pending| + |scheduled| + |retrying|
  {
    var pending := set id | id in rows && rows[id].status == Pending;
    var scheduled := set id | id in rows && rows[id].status == Scheduled && rows[id].runAt <= now;
    var retrying := set id | id in rows && rows[id].status == Retrying && rows[id].nextRetryAt.Some?
                                        && rows[id].nextRetryAt.value <= now;
    assert (set id | id in rows && InBacklog(rows[id], now)) == pending + scheduled + retrying;
  }

  function Tasks(rows: map<TaskId, Row>, ids: seq<TaskId>): seq<Task>
    requires forall i :: 0 <= i < |ids| ==> ids[i] in rows
  {
    seq(|ids|, i requires 0 <= i < |ids| => Task(ids[i], rows[ids[i]]))
  }

  function Ids(tasks: seq<Task>): seq<TaskId> {
    seq(|tasks|, i requires 0 <= i < |tasks| => tasks[i].id)
  }

  /** Each of tasks is a row as it is stored. */
  predicate AsStored(rows: map<TaskId, Row>, tasks: seq<Task>) {
    forall i :: 0 <= i < |tasks| ==> tasks[i].id in rows && tasks[i].row == rows[tasks[i].id]
  }

  lemma ScannedTasks(rows: map<TaskId, Row>, ids: seq<TaskId>)
    requires forall i :: 0 <= i < |ids| ==> ids[i] in rows
    ensures Ids(Tasks(rows, ids)) == ids && AsStored(rows, Tasks(rows, ids))
  {}

  /** A scan leaves something out only if it is full. */
  lemma LeftOut(due: set<TaskId>, rank: TaskId -> (int, int), limit: nat, found: seq<TaskId>)
    requires IsScan(due, rank, limit, found)
    ensures |found| == limit || forall id :: id in due ==> id in found
  {
    if id :| id in due && id !in found {
      DistinctSize(found);
      SubsetSize((set x | x in found), due - {id});
    }
  }

  /** ORDER BY rank LIMIT limit. */
  method OrderByLimit(due: set<TaskId>, rank: TaskId -> (int, int), limit: nat) returns (found: seq<TaskId>)
    ensures IsScan(due, rank, limit, found)
  {
    found := [];
    var left := due;
    while |found| < limit && left != {}
      invariant left <= due
      invariant |found| + |left| == |due| && |found| <= limit
      invariant Distinct(found)
      invariant forall id :: id in due ==> (id in left <==> id !in found)
      invariant forall i :: 0 <= i < |found| ==> found[i] in due
      invariant forall i, j :: 0 <= i < j < |found| ==> Before(rank(found[i]), rank(found[j]))
      invariant forall id, i :: id in left && 0 <= i < |found| ==> Before(rank(found[i]), rank(id))
      decreases |left|
    {
      var next := Smallest(left, rank);
      found := found + [next];
      left := left - {next};
    }
  }

  method Smallest(ids: set<TaskId>, rank: TaskId -> (int, int)) returns (best: TaskId)
    requires ids != {}
    ensures best in ids && forall id :: id in ids ==> Before(rank(best), rank(id))
  {
    best :| best in ids;
    var left := ids - {best};
    while left != {}
      invariant left <= ids && best in ids
      invariant forall id :: id in ids && id !in left ==> Before(rank(best), rank(id))
      decreases |left|
    {
      var id :| id in left;
      if !Before(rank(best), rank(id)) { best := id; }
      left := left - {id};
    }
  }

  // ---- The scans, in columns ----

  lemma RetriesAreDue(rows: map<TaskId, Row>, now: int, limit: nat, tasks: seq<Task>)
    requires IsScan(DueRetryingTasks(rows, now), RetryRank(rows), limit, Ids(tasks)) && AsStored(rows, tasks)
    ensures |tasks| <= limit
    ensures forall i :: 0 <= i < |tasks| ==>
      var r := tasks[i].row;
      r.status == Retrying && r.nextRetryAt.Some? && r.nextRetryAt.value <= now
  {
    forall i | 0 <= i < |tasks| ensures tasks[i].id in DueRetryingTasks(rows, now) {
      assert Ids(tasks)[i] in DueRetryingTasks(rows, now);
    }
  }

  lemma RetriesInOrder(rows: map<TaskId, Row>, now: int, limit: nat, tasks: seq<Task>)
    requires IsScan(DueRetryingTasks(rows, now), RetryRank(rows), limit, Ids(tasks)) && AsStored(rows, tasks)
    requires forall i :: 0 <= i < |tasks| ==> tasks[i].row.nextRetryAt.Some?
    ensures forall i, j :: 0 <= i < j < |tasks| ==>
      var r, q := tasks[i].row, tasks[j].row;
      || r.nextRetryAt.value < q.nextRetryAt.value
      || (r.nextRetryAt.value == q.nextRetryAt.value && r.createdAt <= q.createdAt)
  {
    forall i, j | 0 <= i < j < |tasks| ensures Before(RetryRank(rows)(tasks[i].id), RetryRank(rows)(tasks[j].id)) {
      assert Before(RetryRank(rows)(Ids(tasks)[i]), RetryRank(rows)(Ids(tasks)[j]));
    }
  }

  lemma RetriesLeftOut(rows: map<TaskId, Row>, now: int, limit: nat, tasks: seq<Task>)
    requires IsScan(DueRetryingTasks(rows, now), RetryRank(rows), limit, Ids(tasks)) && AsStored(rows, tasks)
    requires forall i :: 0 <= i < |tasks| ==> tasks[i].row.nextRetryAt.Some?
    ensures forall id ::
      && id in rows && rows[id].status == Retrying && rows[id].nextRetryAt.Some? && rows[id].nextRetryAt.value <= now
      && id !in Ids(tasks) ==>
        |tasks| == limit && forall i :: 0 <= i < |tasks| ==>
          var r, q := tasks[i].row, rows[id];
          || r.nextRetryAt.value < q.nextRetryAt.value
          || (r.nextRetryAt.value == q.nextRetryAt.value && r.createdAt <= q.createdAt)
  {
    LeftOut(DueRetryingTasks(rows, now), RetryRank(rows), limit, Ids(tasks));
    forall id, i | id in DueRetryingTasks(rows, now) && id !in Ids(tasks) && 0 <= i < |tasks|
      ensures Before(RetryRank(rows)(tasks[i].id), RetryRank(rows)(id))
    {
      assert Before(RetryRank(rows)(Ids(tasks)[i]), RetryRank(rows)(id));
    }
  }

  lemma ExpiredAreDue(rows: map<TaskId, Row>, now: int, limit: nat, tasks: seq<Task>)
    requires IsScan(ExpiredTasks(rows, now), StartedRank(rows), limit, Ids(tasks)) && AsStored(rows, tasks)
    ensures |tasks| <= limit
    ensures forall i :: 0 <= i < |tasks| ==>
      var r := tasks[i].row;
      r.status == Running && r.startedAt.Some? && r.startedAt.value + r.timeoutSeconds * SECOND <= now
  {
    forall i | 0 <= i < |tasks| ensures tasks[i].id in ExpiredTasks(rows, now) {
      assert Ids(tasks)[i] in ExpiredTasks(rows, now);
    }
  }

  lemma ExpiredInOrder(rows: map<TaskId, Row>, now: int, limit: nat, tasks: seq<Task>)
    requires IsScan(ExpiredTasks(rows, now), StartedRank(rows), limit, Ids(tasks)) && AsStored(rows, tasks)
    requires forall i :: 0 <= i < |tasks| ==> tasks[i].row.startedAt.Some?
    ensures forall i, j :: 0 <= i < j < |tasks| ==>
      var r, q := tasks[i].row, tasks[j].row;
      || r.startedAt.value < q.startedAt.value
      || (r.startedAt.value == q.startedAt.value && r.createdAt <= q.createdAt)
  {
    forall i, j | 0 <= i < j < |tasks| ensures Before(StartedRank(rows)(tasks[i].id), StartedRank(rows)(tasks[j].id)) {
      assert Before(StartedRank(rows)(Ids(tasks)[i]), StartedRank(rows)(Ids(tasks)[j]));
    }
  }

  lemma ExpiredLeftOut(rows: map<TaskId, Row>, now: int, limit: nat, tasks: seq<Task>)
    requires IsScan(ExpiredTasks(rows, now), StartedRank(rows), limit, Ids(tasks)) && AsStored(rows, tasks)
    requires forall i :: 0 <= i < |tasks| ==> tasks[i].row.startedAt.Some?
    ensures forall id ::
      && id in rows && rows[id].status == Running && rows[id].startedAt.Some?
      && rows[id].startedAt.value + rows[id].timeoutSeconds * SECOND <= now && id !in Ids(tasks) ==>
        |tasks| == limit && forall i :: 0 <= i < |tasks| ==>
          var r, q := tasks[i].row, rows[id];
          || r.startedAt.value < q.startedAt.value
          || (r.startedAt.value == q.startedAt.value && r.createdAt <= q.createdAt)
  {
    LeftOut(ExpiredTasks(rows, now), StartedRank(rows), limit, Ids(tasks));
    forall id, i | id in ExpiredTasks(rows, now) && id !in Ids(tasks) && 0 <= i < |tasks|
      ensures Before(StartedRank(rows)(tasks[i].id), StartedRank(rows)(id))
    {
      assert Before(StartedRank(rows)(Ids(tasks)[i]), StartedRank(rows)(id));
    }
  }

  class Store {
    var rows: map<TaskId, Row>

    constructor ()
      ensures rows == map[]
    {
      rows := map[];
    }

    /** The INSERT ... ON CONFLICT DO NOTHING; the flag is NewlyCreated. */
    method Create(id: TaskId, p: CreateTaskParams, now: int) returns (r: Result<(Task, bool), StoreError>)
      modifies this
      ensures
        var taken := p.idempotencyKey.Some? && exists t :: t in old(rows) && old(rows)[t].idempotencyKey == p.idempotencyKey;
        && (r.Err? <==> p.timeoutSeconds <= 0 || p.maxRetries < 0 || (!taken && id in old(rows)))
        && (r.Ok? ==> (r.value.1 <==> !taken))
      ensures r.Err? ==> rows == old(rows) && r.error == ConstraintViolated
      ensures r.Ok? && r.value.1 ==> r.value.0.id == id && rows == old(rows)[id := r.value.0.row]
      ensures r.Ok? && r.value.1 ==>
        var n := r.value.0.row;
        && n.taskType == p.taskType && n.traceId == p.traceId && n.idempotencyKey == p.idempotencyKey
        && n.timeoutSeconds == p.timeoutSeconds && n.maxRetries == p.maxRetries
        && n.runAt <= p.runAt < n.runAt + MICROSECOND && n.status == (if p.runAt > now then Scheduled else Pending)
        && n.retryCount == 0 && n.createdAt == now == n.updatedAt
        && n.nextRetryAt == n.startedAt == n.finishedAt == None && n.lastError == n.workerId == None
      ensures r.Ok? && r.value.1 ==> r.value.0.row == NewRow(p, now)
      ensures r.Ok? && !r.value.1 ==>
        && rows == old(rows)
        && r.value.0.id in rows && rows[r.value.0.id] == r.value.0.row
        && r.value.0.row.idempotencyKey == p.idempotencyKey
    {
      if !Insertable(p) {
        return Err(ConstraintViolated);
      }
      if KeyTaken(rows, p.idempotencyKey) {
        var taken :| taken in rows && rows[taken].idempotencyKey == p.idempotencyKey;
        return Ok((Task(taken, rows[taken]), false));
      }
      if id in rows {
        return Err(ConstraintViolated);
      }
      NewRowIsAsSubmitted(p, now);
      rows := rows[id := NewRow(p, now)];
      r := Ok((Task(id, rows[id]), true));
    }

    method Get(id: TaskId) returns (r: Result<Row, StoreError>)
      ensures r == if id in rows then Ok(rows[id]) else Err(NotFound)
    {
      r := if id in rows then Ok(rows[id]) else Err(NotFound);
    }

    method Transition(id: TaskId, from: Status, to: Status, worker: Option<string>, now: int)
      returns (r: Result<Row, StoreError>)
      modifies this
      ensures r.Ok? <==> CanTransition(from, to) && id in old(rows) && old(rows)[id].status == from
      ensures r.Ok? ==> rows == old(rows)[id := r.value] && r.value == Moved(old(rows)[id], to, worker, now)
      ensures r.Ok? ==>
        var o := old(rows)[id];
        match to
        case Pending => r.value == o.(status := Pending, nextRetryAt := None, updatedAt := now)
        case Running => r.value == o.(status := Running, workerId := worker, startedAt := Some(now), updatedAt := now)
        case Success => r.value == o.(status := Success, finishedAt := Some(now), updatedAt := now)
        case Dead => r.value == o.(status := Dead, finishedAt := Some(now), updatedAt := now)
        case _ => r.value == o.(status := to, updatedAt := now)
      ensures r.Err? ==> rows == old(rows)
      ensures r.Err? ==> r.error == if CanTransition(from, to) then NotFound else InvalidTransition(from, to)
    {
      if !CanTransition(from, to) {
        return Err(InvalidTransition(from, to));
      }
      if id !in rows || rows[id].status != from {
        return Err(NotFound);
      }
      rows := rows[id := Moved(rows[id], to, worker, now)];
      r := Ok(rows[id]);
    }

    method MarkFailed(id: TaskId, failure: string, now: int) returns (r: Result<Row, StoreError>)
      modifies this
      ensures r.Ok? <==> id in old(rows) && old(rows)[id].status == Running
      ensures r.Ok? ==> rows == old(rows)[id := r.value] && r.value == MarkedFailed(old(rows)[id], failure, now)
      ensures r.Ok? ==> r.value == old(rows)[id].(status := Failed, lastError := Some(failure), updatedAt := now)
      ensures r.Err? ==> rows == old(rows) && r.error == NotFound
    {
      if id !in rows || rows[id].status != Running {
        return Err(NotFound);
      }
      rows := rows[id := MarkedFailed(rows[id], failure, now)];
      r := Ok(rows[id]);
    }

    method CompleteFailure(id: TaskId, d: FailureDecision, failure: string, now: int)
      returns (r: Result<Row, StoreError>)
      modifies this
      ensures r.Ok? <==>
        (d.status == Retrying || d.status == Dead) && id in old(rows) && old(rows)[id].status == Failed
      ensures r.Ok? ==> rows == old(rows)[id := r.value] && r.value == Completed(old(rows)[id], d, failure, now)
      ensures r.Ok? ==>
        var o, n := old(rows)[id], r.value;
        && n == o.(status := d.status, retryCount := d.retryCount, lastError := Some(failure), updatedAt := now,
                   nextRetryAt := n.nextRetryAt, finishedAt := n.finishedAt)
        && n.finishedAt == (if d.status == Dead then Some(now) else o.finishedAt)
        && (n.nextRetryAt.Some? <==> d.nextRetryAt.Some?)
        && (n.nextRetryAt.Some? ==>
              n.nextRetryAt.value <= d.nextRetryAt.value < n.nextRetryAt.value + MICROSECOND)
      ensures r.Err? ==> rows == old(rows)
      ensures r.Err? ==>
        r.error == if d.status == Retrying || d.status == Dead then NotFound else InvalidTransition(Failed, d.status)
    {
      if d.status != Retrying && d.status != Dead {
        return Err(InvalidTransition(Failed, d.status));
      }
      if id !in rows || rows[id].status != Failed {
        return Err(NotFound);
      }
      if d.nextRetryAt.Some? { StoredInstant(d.nextRetryAt.value); }
      rows := rows[id := Completed(rows[id], d, failure, now)];
      r := Ok(rows[id]);
    }

    method ScanRows(ids: seq<TaskId>) returns (tasks: seq<Task>)
      requires forall i :: 0 <= i < |ids| ==> ids[i] in rows
      ensures tasks == Tasks(rows, ids)
    {
      tasks := [];
      for i := 0 to |ids|
        invariant tasks == Tasks(rows, ids[..i])
      {
        tasks := tasks + [Task(ids[i], rows[ids[i]])];
        assert ids[..i + 1] == ids[..i] + [ids[i]];
      }
      assert ids[..|ids|] == ids;
    }

    /** The oldest retries that are due, at most limit of them. */
    method DueRetrying(now: int, limit: nat) returns (tasks: seq<Task>)
      ensures IsScan(DueRetryingTasks(rows, now), RetryRank(rows), limit, Ids(tasks)) && AsStored(rows, tasks)
      ensures |tasks| <= limit
      ensures forall i :: 0 <= i < |tasks| ==>
        var r := tasks[i].row;
        r.status == Retrying && r.nextRetryAt.Some? && r.nextRetryAt.value <= now
      ensures forall i, j :: 0 <= i < j < |tasks| ==>
        var r, q := tasks[i].row, tasks[j].row;
        || r.nextRetryAt.value < q.nextRetryAt.value
        || (r.nextRetryAt.value == q.nextRetryAt.value && r.createdAt <= q.createdAt)
      ensures forall id ::
        && id in rows && rows[id].status == Retrying && rows[id].nextRetryAt.Some? && rows[id].nextRetryAt.value <= now
        && id !in Ids(tasks) ==>
          |tasks| == limit && forall i :: 0 <= i < |tasks| ==>
            var r, q := tasks[i].row, rows[id];
            || r.nextRetryAt.value < q.nextRetryAt.value
            || (r.nextRetryAt.value == q.nextRetryAt.value && r.createdAt <= q.createdAt)
    {
      var due := set id | id in rows && IsDueRetrying(rows[id], now);
      var found := OrderByLimit(due, RetryRank(rows), limit);
      tasks := ScanRows(found);
      ScannedTasks(rows, found);
      RetriesAreDue(rows, now, limit, tasks);
      RetriesInOrder(rows, now, limit, tasks);
      RetriesLeftOut(rows, now, limit, tasks);
    }

    /** The longest running tasks whose timeout has passed, at most limit of them. */
    method ExpiredRunning(now: int, limit: nat) returns (tasks: seq<Task>)
      ensures IsScan(ExpiredTasks(rows, now), StartedRank(rows), limit, Ids(tasks)) && AsStored(rows, tasks)
      ensures |tasks| <= limit
      ensures forall i :: 0 <= i < |tasks| ==>
        var r := tasks[i].row;
        r.status == Running && r.startedAt.Some? && r.startedAt.value + r.timeoutSeconds * SECOND <= now
      ensures forall i, j :: 0 <= i < j < |tasks| ==>
        var r, q := tasks[i].row, tasks[j].row;
        || r.startedAt.value < q.startedAt.value
        || (r.startedAt.value == q.startedAt.value && r.createdAt <= q.createdAt)
      ensures forall id ::
        && id in rows && rows[id].status == Running && rows[id].startedAt.Some?
        && rows[id].startedAt.value + rows[id].timeoutSeconds * SECOND <= now && id !in Ids(tasks) ==>
          |tasks| == limit && forall i :: 0 <= i < |tasks| ==>
            var r, q := tasks[i].row, rows[id];
            || r.startedAt.value < q.startedAt.value
            || (r.startedAt.value == q.startedAt.value && r.createdAt <= q.createdAt)
    {
      var due := set id | id in rows && IsExpired(rows[id], now);
      var found := OrderByLimit(due, StartedRank(rows), limit);
      tasks := ScanRows(found);
      ScannedTasks(rows, found);
      ExpiredAreDue(rows, now, limit, tasks);
      ExpiredInOrder(rows, now, limit, tasks);
      ExpiredLeftOut(rows, now, limit, tasks);
    }

    /** The gauges of the metrics page. */
    method MetricsSnapshot(now: int) returns (snapshot: Snapshot)
      ensures snapshot.queueBacklog ==
        |set id | id in rows && rows[id].status == Pending| +
        |set id | id in rows && rows[id].status == Scheduled && rows[id].runAt <= now| +
        |set id | id in rows && rows[id].status == Retrying && rows[id].nextRetryAt.Some? && rows[id].nextRetryAt.value <= now|
      ensures snapshot.runningTasks == |set id | id in rows && rows[id].status == Running|
    {
      var backlog := set id | id in rows && InBacklog(rows[id], now);
      var running := set id | id in rows && rows[id].status == Running;
      BacklogSplits(rows, now);
      snapshot := Snapshot(|backlog|, |running|);
    }
  }
}
