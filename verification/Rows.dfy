/** internal/task/store.go: a row of the tasks table, and what each statement writes into it. */
module Rows {
  import opened Basics
  import opened Statuses
  import opened Retry

  // Generated identifiers; the program prints them as "task_" and 32 hexadecimal digits.
  type TaskId = nat

  datatype Row = Row(
    taskType: string,
    traceId: Option<string>,
    idempotencyKey: Option<string>,
    status: Status,
    runAt: int,
    timeoutSeconds: int,
    maxRetries: int,
    retryCount: int,
    nextRetryAt: Option<int>,
    lastError: Option<string>,
    workerId: Option<string>,
    startedAt: Option<int>,
    finishedAt: Option<int>,
    createdAt: int,
    updatedAt: int)

  datatype CreateTaskParams = CreateTaskParams(
    taskType: string,
    traceId: Option<string>,
    idempotencyKey: Option<string>,
    runAt: int,
    timeoutSeconds: int,
    maxRetries: int)

  // The CHECK constraints of the tasks table; an INSERT that breaks one is refused.
  predicate Insertable(p: CreateTaskParams) {
    p.timeoutSeconds > 0 && p.maxRetries >= 0
  }

  /** What reaches Create: validateCreateTaskRequest refuses a blank task type, which no consumer could read back. */
  predicate Accepted(p: CreateTaskParams) {
    Insertable(p) && p.taskType != ""
  }

  // What a timestamptz column keeps of an instant.
  function Stored(t: int): int {
    t - t % MICROSECOND
  }

  /** The column is at most a microsecond early, and in the same second. */
  lemma StoredInstant(t: int)
    ensures Stored(t) <= t < Stored(t) + MICROSECOND
    ensures UnixSeconds(Stored(t)) == UnixSeconds(t)
  {}

  // The INSERT of Create.
  function NewRow(p: CreateTaskParams, now: int): Row {
    Row(p.taskType, p.traceId, p.idempotencyKey, if p.runAt > now then Scheduled else Pending, Stored(p.runAt),
        p.timeoutSeconds, p.maxRetries, 0, None, None, None, None, None, now, now)
  }

  /** The row is a new one, made of p at the instant now: what was submitted, and nothing else. */
  predicate AsSubmitted(r: Row, p: CreateTaskParams, now: int) {
    && r.taskType == p.taskType && r.traceId == p.traceId && r.idempotencyKey == p.idempotencyKey
    && r.timeoutSeconds == p.timeoutSeconds && r.maxRetries == p.maxRetries
    && r.runAt <= p.runAt < r.runAt + MICROSECOND && UnixSeconds(r.runAt) == UnixSeconds(p.runAt)
    && (r.status == Scheduled <==> p.runAt > now) && (r.status == Pending <==> p.runAt <= now)
    && r.retryCount == 0 && r.createdAt == now && r.updatedAt == now
    && r.nextRetryAt == None && r.lastError == None && r.workerId == None && r.startedAt == None && r.finishedAt == None
  }

  lemma NewRowIsAsSubmitted(p: CreateTaskParams, now: int)
    ensures AsSubmitted(NewRow(p, now), p, now)
  {
    StoredInstant(p.runAt);
  }

  // derefString
  function TraceOf(r: Row): (trace: string)
    ensures match r.traceId case Some(t) => trace == t case None => trace == ""
  {
    if r.traceId.Some? then r.traceId.value else ""
  }

  // The SET clause of Transition.
  function Moved(r: Row, to: Status, worker: Option<string>, now: int): Row {
    r.(status := to,
       workerId := if to == Running then worker else r.workerId,
       startedAt := if to == Running then Some(now) else r.startedAt,
       nextRetryAt := if to == Pending then None else r.nextRetryAt,
       finishedAt := if to == Success || to == Dead then Some(now) else r.finishedAt,
       updatedAt := now)
  }

  // The SET clause of MarkFailed.
  function MarkedFailed(r: Row, failure: string, now: int): Row {
    r.(status := Failed, lastError := Some(failure), updatedAt := now)
  }

  // The SET clause of CompleteFailure.
  function Completed(r: Row, d: FailureDecision, failure: string, now: int): Row {
    r.(status := d.status,
       retryCount := d.retryCount,
       nextRetryAt := if d.nextRetryAt.Some? then Some(Stored(d.nextRetryAt.value)) else None,
       lastError := Some(failure),
       finishedAt := if d.status == Dead then Some(now) else r.finishedAt,
       updatedAt := now)
  }

  // The WHERE clause of DueRetrying.
  predicate IsDueRetrying(r: Row, now: int) {
    r.status == Retrying && r.nextRetryAt.Some? && r.nextRetryAt.value <= now
  }

  // The WHERE clause of ExpiredRunning.
  predicate IsExpired(r: Row, now: int) {
    r.status == Running && r.startedAt.Some? && r.startedAt.value + r.timeoutSeconds * SECOND <= now
  }

  /** Which columns are set in which status; it includes the CHECK constraints of the table. */
  predicate RowShape(r: Row) {
    && (r.finishedAt.Some? <==> r.status.IsTerminal())
    && (r.nextRetryAt.Some? <==> r.status == Retrying)
    && (r.status == Running ==> r.startedAt.Some? && r.workerId.Some?)
    && (r.status == Failed || r.status == Dead ==> r.lastError.Some?)
    && (r.status == Scheduled ==> r.retryCount == 0)
    && (r.status == Retrying ==> r.retryCount >= 1)
    && 0 <= r.retryCount <= r.maxRetries
    && r.timeoutSeconds > 0
    && r.taskType != ""
  }

  /** Everything but the mutable columns. */
  predicate SameTask(r: Row, r': Row) {
    && r'.taskType == r.taskType
    && r'.traceId == r.traceId
    && r'.idempotencyKey == r.idempotencyKey
    && r'.runAt == r.runAt
    && r'.timeoutSeconds == r.timeoutSeconds
    && r'.maxRetries == r.maxRetries
    && r'.createdAt == r.createdAt
  }

  /** The only ways a row changes: one write of the protocol, or none. */
  predicate RowStep(r: Row, r': Row) {
    || r' == r
    || (&& SameTask(r, r')
        && match r.status
           case Scheduled => r'.status == Pending && r'.retryCount == r.retryCount
           case Pending => r'.status == Running && r'.retryCount == r.retryCount
           case Running => (r'.status == Success || r'.status == Failed) && r'.retryCount == r.retryCount
           case Failed =>
             || (r'.status == Retrying && r'.retryCount == r.retryCount + 1)
             || (r'.status == Dead && r'.retryCount == r.retryCount)
           case Retrying => r'.status == Pending && r'.retryCount == r.retryCount
           case _ => false)
  }
}
