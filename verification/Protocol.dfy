/**
 The task lifecycle protocol: API creators, scheduler ticks and worker goroutines over one tasks
 table, one stream with its consumer group, one scheduled ZSET, one dead stream and one metrics
 registry.  Every action is one SQL statement, one Redis command, one metrics call or one local
 decision, so any sequence of enabled actions is an interleaving of the program.

 An actor's program counter and locals are its Job.  Abort ends a job at any point: a crash, a
 command that failed, or (when the effect happened first) a reply that was lost.
*/
module Protocol {
  import opened Basics
  import opened Statuses
  import opened Retry
  import opened Rows

  type ActorId = nat

  /** A stream entry; attempt is the row's retry_count when the row became pending for it. */
  datatype Entry = Entry(task: TaskId, attempt: int)

  datatype DeadEntry = DeadEntry(task: TaskId, failure: string, retryCount: int)

  /** What a worker holds of a delivered entry: its position in the stream and its task. */
  datatype Message = Message(entry: nat, task: TaskId)

  datatype Origin = Created | FromZSet | FromRetry

  datatype Owner = Worker(message: Message) | Scheduler

  /** An actor's next command, with the locals it needs. */
  datatype Job =
    | ZAdding(task: TaskId, runAt: int)                          // Service.Create: owes ZADD
    | Publishing(task: TaskId, attempt: int, origin: Origin)     // row is pending: owes XADD
    | CountingSubmitted(task: TaskId)                            // owes TaskSubmitted
    | Inspecting(task: TaskId)                                   // scheduleZSetTask: owes Get
    | Dispatching(task: TaskId, from: Status)                    // scheduleTask: owes Transition
    | Removing(task: TaskId)                                     // scheduleZSetTask: owes ZREM
    | Recovering(task: TaskId, failure: string)                  // recoverRunningTask: owes MarkFailed
    | Received(message: Message, recovered: bool)                // handleMessage: owes Get
    | Claiming(message: Message)                                 // owes Transition to running
    | Starting(message: Message)                                 // owes TaskStarted
    | Executing(message: Message)                                // the handler runs
    | Succeeding(message: Message)                               // owes Transition to success
    | CountingSuccess(message: Message)                          // owes TaskSucceeded
    | Failing(message: Message, failure: string, nonRetryable: bool)   // owes MarkFailed
    | Finalizing(task: TaskId, retryCount: int, maxRetries: int, failure: string, nonRetryable: bool, owner: Owner)
                                                                 // MarkFailed done: owes the decision
    | Completing(task: TaskId, decision: FailureDecision, failure: string, owner: Owner)
                                                                 // owes CompleteFailure
    | CountingOutcome(task: TaskId, died: bool, failure: string, retryCount: int, message: Message)
                                                                 // owes TaskRetried or TaskDead
    | Burying(task: TaskId, failure: string, retryCount: int, owner: Owner)   // owes PublishDead
    | CountingFailure(message: Message)                          // owes TaskFailed
    | Acking(message: Message)                                   // owes XACK

  datatype Phase =
    | Idle
    | ScanningExpired | RecoveringExpired
    | ScanningZSet | DispatchingZSet
    | ScanningRetrying | DispatchingRetrying

  /** A scheduler between jobs: the instant its latest tick read, and what is left of its scan. */
  datatype Tick = Tick(now: int, phase: Phase, todo: seq<TaskId>)

  datatype Counters = Counters(submitted: nat, started: nat, succeeded: nat, failed: nat, retried: nat, dead: nat)

  datatype State = State(
    now: int,
    rows: map<TaskId, Row>,
    zset: map<TaskId, int>,
    stream: seq<Entry>,
    delivered: nat,           // entries below it were delivered to the group
    pel: map<nat, int>,       // the pending entries list: un-acked entry to its latest delivery time
    dead: seq<DeadEntry>,
    counters: Counters,
    jobs: map<ActorId, Job>,
    ticks: map<ActorId, Tick>,
    lost: set<TaskId>,        // a job that owed the task's next step was aborted
    unburied: set<TaskId>)    // a dead-letter write of the task failed or was aborted

  datatype Config = Config(
    schedulers: set<ActorId>,
    scanLimit: nat,
    minIdle: nat,
    recovers: bool,           // pending recovery is on: its idle time, batch and interval are positive
    consumer: ActorId -> string,
    workerBuries: bool,       // the worker has a dead publisher
    schedulerBuries: bool)    // so has the scheduler

  /** What executeWithTimeout returns. */
  datatype Outcome = Done | Fault(failure: string, nonRetryable: bool)

  datatype Action =
    | Wait(t: int)
    | Submit(actor: ActorId, task: TaskId, params: CreateTaskParams)
    | StartTick(actor: ActorId)
    | Scan(actor: ActorId, found: seq<TaskId>)
    | Take(actor: ActorId)
    | EndPhase(actor: ActorId)
    | StopTick(actor: ActorId)
    | Deliver(actor: ActorId)
    | Reclaim(actor: ActorId, entry: nat)
    | Finish(actor: ActorId, outcome: Outcome)
    | Advance(actor: ActorId)
    | BuryFails(actor: ActorId)
    | Abort(actor: ActorId)

  function Init(now: int): State {
    State(now, map[], map[], [], 0, map[], [], Counters(0, 0, 0, 0, 0, 0), map[], map[], {}, {})
  }

  // ---- Guards ----

  predicate Matches(s: State, id: TaskId, status: Status) {
    id in s.rows && s.rows[id].status == status
  }

  predicate KeyTaken(rows: map<TaskId, Row>, key: Option<string>) {
    key.Some? && exists id :: id in rows && rows[id].idempotencyKey == key
  }

  predicate Ticking(s: State, a: ActorId) {
    a in s.ticks && a !in s.jobs
  }

  predicate Distinct(ids: seq<TaskId>) {
    forall i, j :: 0 <= i < j < |ids| ==> ids[i] != ids[j]
  }

  predicate Before(x: (int, int), y: (int, int)) {
    x.0 < y.0 || (x.0 == y.0 && x.1 <= y.1)
  }

  /** What ORDER BY rank LIMIT limit returns of the set due. */
  ghost predicate IsScan(due: set<TaskId>, rank: TaskId -> (int, int), limit: nat, found: seq<TaskId>) {
    && Distinct(found)
    && |found| == (if |due| < limit then |due| else limit)
    && (forall i :: 0 <= i < |found| ==> found[i] in due)
    && (forall i, j :: 0 <= i < j < |found| ==> Before(rank(found[i]), rank(found[j])))
    && (forall id, i :: id in due && id !in found && 0 <= i < |found| ==> Before(rank(found[i]), rank(id)))
  }

  function ExpiredTasks(rows: map<TaskId, Row>, now: int): set<TaskId> {
    set id | id in rows && IsExpired(rows[id], now)
  }

  function StartedRank(rows: map<TaskId, Row>): TaskId -> (int, int) {
    (id: TaskId) => if id in rows && rows[id].startedAt.Some? then (rows[id].startedAt.value, rows[id].createdAt) else (0, 0)
  }

  function DueRetryingTasks(rows: map<TaskId, Row>, now: int): set<TaskId> {
    set id | id in rows && IsDueRetrying(rows[id], now)
  }

  function RetryRank(rows: map<TaskId, Row>): TaskId -> (int, int) {
    (id: TaskId) => if id in rows && rows[id].nextRetryAt.Some? then (rows[id].nextRetryAt.value, rows[id].createdAt) else (0, 0)
  }

  function DueMembers(zset: map<TaskId, int>, now: int): set<TaskId> {
    set id | id in zset && zset[id] <= UnixSeconds(now)
  }

  function ScoreRank(zset: map<TaskId, int>): TaskId -> (int, int) {
    (id: TaskId) => if id in zset then (zset[id], id) else (0, 0)
  }

  /** The result a tick's scan may have in state s. */
  ghost predicate ScanResult(c: Config, s: State, t: Tick, found: seq<TaskId>) {
    match t.phase
    case ScanningExpired => IsScan(ExpiredTasks(s.rows, t.now), StartedRank(s.rows), c.scanLimit, found)
    case ScanningZSet => IsScan(DueMembers(s.zset, t.now), ScoreRank(s.zset), c.scanLimit, found)
    case ScanningRetrying => IsScan(DueRetryingTasks(s.rows, t.now), RetryRank(s.rows), c.scanLimit, found)
    case _ => false
  }

  predicate IsScanning(p: Phase) {
    p == ScanningExpired || p == ScanningZSet || p == ScanningRetrying
  }

  predicate Processing(p: Phase) {
    p == RecoveringExpired || p == DispatchingZSet || p == DispatchingRetrying
  }

  ghost predicate Enabled(c: Config, s: State, x: Action) {
    match x
    case Wait(t) => t >= s.now
    case Submit(a, id, p) => a !in s.jobs && a !in c.schedulers && id !in s.rows && Accepted(p)
    case StartTick(a) => a in c.schedulers && a !in s.jobs && (a in s.ticks ==> s.ticks[a].phase == Idle)
    case Scan(a, found) => Ticking(s, a) && ScanResult(c, s, s.ticks[a], found)
    case Take(a) => Ticking(s, a) && Processing(s.ticks[a].phase) && s.ticks[a].todo != []
    case EndPhase(a) => Ticking(s, a) && Processing(s.ticks[a].phase) && s.ticks[a].todo == []
    case StopTick(a) => Ticking(s, a)
    case Deliver(a) => a !in s.jobs && a !in c.schedulers && s.delivered < |s.stream|
    case Reclaim(a, e) =>
      && c.recovers && a !in s.jobs && a !in c.schedulers
      && e in s.pel && e < |s.stream| && s.pel[e] + c.minIdle <= s.now
    case Finish(a, _) => a in s.jobs && s.jobs[a].Executing?
    case Advance(a) => a in s.jobs && !s.jobs[a].Executing?
    case BuryFails(a) => a in s.jobs && s.jobs[a].Burying?
    case Abort(a) => a in s.jobs
  }

  // ---- Effects ----

  function Go(s: State, a: ActorId, j: Job): State {
    s.(jobs := s.jobs[a := j])
  }

  function Stop(s: State, a: ActorId): State {
    s.(jobs := s.jobs - {a})
  }

  function Put(s: State, id: TaskId, r: Row): State {
    s.(rows := s.rows[id := r])
  }

  // The instant a failure decision is taken at: a worker reads the clock, the scheduler uses its tick's.
  function DecisionTime(s: State, a: ActorId, owner: Owner): int {
    if owner.Scheduler? && a in s.ticks then s.ticks[a].now else s.now
  }

  function Decide(now: int, retryCount: int, maxRetries: int, nonRetryable: bool): FailureDecision {
    if nonRetryable then FailureDecision(Dead, retryCount, None)
    else DecideFailure(now, retryCount, maxRetries)
  }

  function RecoveryFailure(timeoutSeconds: int): string {
    "running timeout recovery: task exceeded timeout_seconds=" + Decimal(timeoutSeconds)
  }

  function DoSubmit(s: State, a: ActorId, id: TaskId, p: CreateTaskParams): State {
    if KeyTaken(s.rows, p.idempotencyKey) then s   // ON CONFLICT DO NOTHING: Create returns the stored row
    else
      var r := NewRow(p, s.now);
      var s1 := Put(s, id, r);
      if r.status == Scheduled then Go(s1, a, ZAdding(id, r.runAt))
      else Go(s1, a, Publishing(id, 0, Created))
  }

  function AfterHandler(m: Message, outcome: Outcome): Job {
    match outcome
    case Done => Succeeding(m)
    case Fault(failure, nonRetryable) => Failing(m, failure, nonRetryable)
  }

  function AfterScan(p: Phase): Phase {
    match p
    case ScanningExpired => RecoveringExpired
    case ScanningZSet => DispatchingZSet
    case ScanningRetrying => DispatchingRetrying
    case _ => p
  }

  function DoScan(s: State, a: ActorId, found: seq<TaskId>): State
    requires a in s.ticks
  {
    var t := s.ticks[a];
    s.(ticks := s.ticks[a := Tick(t.now, AfterScan(t.phase), found)])
  }

  /** What a tick does for a task its scan found. */
  function TakenJob(rows: map<TaskId, Row>, p: Phase, id: TaskId): Job {
    match p
    case RecoveringExpired =>
      Recovering(id, RecoveryFailure(if id in rows then rows[id].timeoutSeconds else 0))
    case DispatchingZSet => Inspecting(id)
    case _ => Dispatching(id, Retrying)
  }

  function DoTake(s: State, a: ActorId): State
    requires a in s.ticks && s.ticks[a].todo != []
  {
    var t := s.ticks[a];
    Go(s.(ticks := s.ticks[a := t.(todo := t.todo[1..])]), a, TakenJob(s.rows, t.phase, t.todo[0]))
  }

  function DoEndPhase(s: State, a: ActorId): State
    requires a in s.ticks
  {
    var t := s.ticks[a];
    var next := match t.phase
      case RecoveringExpired => ScanningZSet
      case DispatchingZSet => ScanningRetrying
      case _ => Idle;
    s.(ticks := s.ticks[a := t.(phase := next, todo := [])])
  }

  /** The task a job is about. */
  function TaskOf(j: Job): TaskId {
    match j
    case ZAdding(id, _) => id
    case Publishing(id, _, _) => id
    case CountingSubmitted(id) => id
    case Inspecting(id) => id
    case Dispatching(id, _) => id
    case Removing(id) => id
    case Recovering(id, _) => id
    case Finalizing(id, _, _, _, _, _) => id
    case Completing(id, _, _, _) => id
    case CountingOutcome(id, _, _, _, _) => id
    case Burying(id, _, _, _) => id
    case _ => j.message.task
  }

  // ---- Advance: the command a job owes, one table for each store it may touch ----

  /** The row the job's conditional UPDATE writes, if its WHERE clause matches. */
  function RowWrite(c: Config, s: State, a: ActorId): Option<Row>
    requires a in s.jobs
  {
    match s.jobs[a]
    case Dispatching(id, from) =>
      if Matches(s, id, from) then Some(Moved(s.rows[id], Pending, None, s.now)) else None
    case Recovering(id, failure) =>
      if Matches(s, id, Running) then Some(MarkedFailed(s.rows[id], failure, s.now)) else None
    case Claiming(m) =>
      if Matches(s, m.task, Pending) then Some(Moved(s.rows[m.task], Running, Some(c.consumer(a)), s.now)) else None
    case Succeeding(m) =>
      if Matches(s, m.task, Running) then Some(Moved(s.rows[m.task], Success, Some(c.consumer(a)), s.now)) else None
    case Failing(m, failure, _) =>
      if Matches(s, m.task, Running) then Some(MarkedFailed(s.rows[m.task], failure, s.now)) else None
    case Completing(id, d, failure, _) =>
      if Matches(s, id, Failed) then Some(Completed(s.rows[id], d, failure, s.now)) else None
    case _ => None
  }

  function NextRows(c: Config, s: State, a: ActorId): map<TaskId, Row>
    requires a in s.jobs
  {
    match RowWrite(c, s, a)
    case None => s.rows
    case Some(r) => s.rows[TaskOf(s.jobs[a]) := r]
  }

  function NextZSet(zset: map<TaskId, int>, j: Job): map<TaskId, int> {
    match j
    case ZAdding(id, runAt) => zset[id := UnixSeconds(runAt)]
    case Removing(id) => zset - {id}
    case _ => zset
  }

  function NextStream(stream: seq<Entry>, j: Job): seq<Entry> {
    match j
    case Publishing(id, k, _) => stream + [Entry(id, k)]
    case _ => stream
  }

  function NextPel(pel: map<nat, int>, j: Job): map<nat, int> {
    match j
    case Acking(m) => pel - {m.entry}
    case _ => pel
  }

  function NextDead(dead: seq<DeadEntry>, j: Job): seq<DeadEntry> {
    match j
    case Burying(id, failure, n, _) => dead + [DeadEntry(id, failure, n)]
    case _ => dead
  }

  function NextCounters(n: Counters, j: Job): Counters {
    match j
    case CountingSubmitted(_) => n.(submitted := n.submitted + 1)
    case Starting(_) => n.(started := n.started + 1)
    case CountingSuccess(_) => n.(succeeded := n.succeeded + 1)
    case CountingOutcome(_, died, _, _, _) =>
      if died then n.(dead := n.dead + 1) else n.(retried := n.retried + 1)
    case CountingFailure(_) => n.(failed := n.failed + 1)
    case _ => n
  }

  function AfterFailing(r: Row, id: TaskId, failure: string, nonRetryable: bool, owner: Owner): Job {
    Finalizing(id, r.retryCount, r.maxRetries, failure, nonRetryable, owner)
  }

  function AfterBurial(owner: Owner): Option<Job> {
    match owner
    case Worker(m) => Some(CountingFailure(m))
    case Scheduler => None
  }

  /** What the actor does next; None when its work on the task is over. */
  function NextJob(c: Config, s: State, a: ActorId): Option<Job>
    requires a in s.jobs
  {
    var hit := RowWrite(c, s, a).Some?;
    match s.jobs[a]
    case ZAdding(id, _) => Some(CountingSubmitted(id))
    case Publishing(id, _, origin) =>
      (match origin
       case Created => Some(CountingSubmitted(id))
       case FromZSet => Some(Removing(id))
       case FromRetry => None)
    case CountingSubmitted(_) => None
    case Inspecting(id) => Some(if Matches(s, id, Scheduled) then Dispatching(id, Scheduled) else Removing(id))
    case Dispatching(id, from) =>
      if hit then Some(Publishing(id, s.rows[id].retryCount, if from == Retrying then FromRetry else FromZSet))
      else if from == Retrying then None
      else Some(Removing(id))
    case Removing(_) => None
    case Recovering(id, failure) =>
      if hit then Some(AfterFailing(s.rows[id], id, failure, false, Scheduler)) else None
    case Received(m, recovered) =>
      if m.task !in s.rows then None
      else if s.rows[m.task].status.IsTerminal() then Some(Acking(m))
      else if recovered && s.rows[m.task].status == Running then Some(Starting(m))
      else Some(Claiming(m))
    case Claiming(m) => if hit then Some(Starting(m)) else None
    case Starting(m) => Some(Executing(m))
    case Executing(m) => Some(Executing(m))
    case Succeeding(m) => if hit then Some(CountingSuccess(m)) else None
    case CountingSuccess(m) => Some(Acking(m))
    case Failing(m, failure, non) =>
      if hit then Some(AfterFailing(s.rows[m.task], m.task, failure, non, Worker(m))) else None
    case Finalizing(id, n, max, failure, non, owner) =>
      Some(Completing(id, Decide(DecisionTime(s, a, owner), n, max, non), failure, owner))
    case Completing(id, d, failure, owner) =>
      if !hit then None
      else
        (match owner
         case Worker(m) => Some(CountingOutcome(id, d.status == Dead, failure, d.retryCount, m))
         case Scheduler =>
           if d.status == Dead && c.schedulerBuries then Some(Burying(id, failure, d.retryCount, owner)) else None)
    case CountingOutcome(id, died, failure, n, m) =>
      Some(if died && c.workerBuries then Burying(id, failure, n, Worker(m)) else CountingFailure(m))
    case Burying(_, _, _, owner) => AfterBurial(owner)
    case CountingFailure(m) => Some(Acking(m))
    case Acking(_) => None
  }

  function WithJob(jobs: map<ActorId, Job>, a: ActorId, j: Option<Job>): map<ActorId, Job> {
    match j
    case None => jobs - {a}
    case Some(job) => jobs[a := job]
  }

  function DoAdvance(c: Config, s: State, a: ActorId): State
    requires a in s.jobs
  {
    var j := s.jobs[a];
    State(s.now, NextRows(c, s, a), NextZSet(s.zset, j), NextStream(s.stream, j), s.delivered, NextPel(s.pel, j),
          NextDead(s.dead, j), NextCounters(s.counters, j), WithJob(s.jobs, a, NextJob(c, s, a)), s.ticks,
          s.lost, s.unburied)
  }

  /** The task whose next step only this job will take. */
  function Owed(j: Job): set<TaskId> {
    match j
    case ZAdding(id, _) => {id}
    case Publishing(id, _, _) => {id}
    case Finalizing(id, _, _, _, _, _) => {id}
    case Completing(id, _, _, _) => {id}
    case _ => {}
  }

  /** The task whose dead-letter record only this job will write. */
  function OwedBurial(j: Job): set<TaskId> {
    match j
    case CountingOutcome(id, died, _, _, _) => if died then {id} else {}
    case Burying(id, _, _, _) => {id}
    case _ => {}
  }

  /** Every action but Advance: the clock, new work, scheduler ticks, the handler, and faults. */
  function DoOther(c: Config, s: State, x: Action): State
    requires Enabled(c, s, x) && !x.Advance?
  {
    match x
    case Wait(t) => s.(now := t)
    case Submit(a, id, p) => DoSubmit(s, a, id, p)
    case StartTick(a) => s.(ticks := s.ticks[a := Tick(s.now, ScanningExpired, [])])
    case Scan(a, found) => DoScan(s, a, found)
    case Take(a) => DoTake(s, a)
    case EndPhase(a) => DoEndPhase(s, a)
    case StopTick(a) => s.(ticks := s.ticks[a := s.ticks[a].(phase := Idle, todo := [])])
    case Deliver(a) =>
      Go(s.(delivered := s.delivered + 1, pel := s.pel[s.delivered := s.now]), a,
         Received(Message(s.delivered, s.stream[s.delivered].task), false))
    case Reclaim(a, e) =>
      Go(s.(pel := s.pel[e := s.now]), a, Received(Message(e, s.stream[e].task), true))
    case Finish(a, outcome) => Go(s, a, AfterHandler(s.jobs[a].message, outcome))
    case BuryFails(a) =>
      s.(unburied := s.unburied + OwedBurial(s.jobs[a]),
         jobs := WithJob(s.jobs, a, AfterBurial(s.jobs[a].owner)))
    case Abort(a) =>
      Stop(s.(lost := s.lost + Owed(s.jobs[a]), unburied := s.unburied + OwedBurial(s.jobs[a])), a)
  }

  /** The actor whose job an action may change. */
  function ActorOf(x: Action): Option<ActorId> {
    if x.Wait? then None else Some(x.actor)
  }

  /** A command of me failed, or its goroutine died. */
  predicate FaultOf(x: Action, me: ActorId) {
    (x.Abort? || x.BuryFails? || x.StopTick?) && x.actor == me
  }

  function Apply(c: Config, s: State, x: Action): State
    requires Enabled(c, s, x)
  {
    if x.Advance? then DoAdvance(c, s, x.actor) else DoOther(c, s, x)
  }

  // ---- Runs ----

  /** Every action of xs is enabled where it is taken. */
  ghost predicate Valid(c: Config, s: State, xs: seq<Action>)
    decreases |xs|, 0
  {
    xs == [] ||
    (var init := xs[..|xs| - 1];
     Valid(c, s, init) && Enabled(c, RunFrom(c, s, init), xs[|xs| - 1]))
  }

  /** The state after xs. */
  ghost function RunFrom(c: Config, s: State, xs: seq<Action>): State
    requires Valid(c, s, xs)
    decreases |xs|, 1
  {
    if xs == [] then s
    else Apply(c, RunFrom(c, s, xs[..|xs| - 1]), xs[|xs| - 1])
  }

  /** xs is a run from s to s'. */
  ghost predicate Ran(c: Config, s: State, xs: seq<Action>, s': State) {
    Valid(c, s, xs) && RunFrom(c, s, xs) == s'
  }

  lemma Extend(c: Config, s: State, xs: seq<Action>, x: Action)
    requires Valid(c, s, xs) && Enabled(c, RunFrom(c, s, xs), x)
    ensures Valid(c, s, xs + [x])
    ensures RunFrom(c, s, xs + [x]) == Apply(c, RunFrom(c, s, xs), x)
  {
    assert (xs + [x])[..|xs + [x]| - 1] == xs;
  }

  lemma Further(c: Config, s: State, xs: seq<Action>, s1: State, x: Action)
    requires Ran(c, s, xs, s1) && Enabled(c, s1, x)
    ensures Ran(c, s, xs + [x], Apply(c, s1, x))
  {
    Extend(c, s, xs, x);
  }

  lemma Last(c: Config, s: State, xs: seq<Action>) returns (before: State)
    requires Valid(c, s, xs) && xs != []
    ensures Ran(c, s, xs[..|xs| - 1], before) && Enabled(c, before, xs[|xs| - 1])
    ensures RunFrom(c, s, xs) == Apply(c, before, xs[|xs| - 1])
  {
    before := RunFrom(c, s, xs[..|xs| - 1]);
  }

  lemma {:induction false} Joined(c: Config, s: State, xs: seq<Action>, s1: State, ys: seq<Action>, s2: State)
    requires Ran(c, s, xs, s1) && Ran(c, s1, ys, s2)
    ensures Ran(c, s, xs + ys, s2)
    decreases |ys|
  {
    if ys == [] {
      assert xs + ys == xs;
    } else {
      var before := Last(c, s1, ys);
      Joined(c, s, xs, s1, ys[..|ys| - 1], before);
      Further(c, s, xs + ys[..|ys| - 1], before, ys[|ys| - 1]);
      assert xs + ys == xs + ys[..|ys| - 1] + [ys[|ys| - 1]];
    }
  }

  lemma Concat(c: Config, s: State, xs: seq<Action>, ys: seq<Action>)
    requires Valid(c, s, xs) && Valid(c, RunFrom(c, s, xs), ys)
    ensures Valid(c, s, xs + ys)
    ensures RunFrom(c, s, xs + ys) == RunFrom(c, RunFrom(c, s, xs), ys)
  {
    Joined(c, s, xs, RunFrom(c, s, xs), ys, RunFrom(c, RunFrom(c, s, xs), ys));
  }

  lemma {:induction false} Prefix(c: Config, s: State, xs: seq<Action>, i: nat)
    requires Valid(c, s, xs) && i <= |xs|
    ensures Valid(c, s, xs[..i])
    decreases |xs|
  {
    if i == |xs| {
      assert xs[..i] == xs;
    } else {
      Prefix(c, s, xs[..|xs| - 1], i);
      assert xs[..|xs| - 1][..i] == xs[..i];
    }
  }

  lemma InitParts(xs: seq<Action>, i: nat)
    requires i < |xs| - 1
    ensures var init := xs[..|xs| - 1];
      init[..i] == xs[..i] && init[i] == xs[i] && xs[i + 1..] == init[i + 1..] + [xs[|xs| - 1]]
  {}

  lemma NoActions(c: Config, s: State)
    ensures Ran(c, s, [], s)
  {}

  /** A run is its first i actions, the next one, and the rest. */
  lemma {:induction false} SplitRun(c: Config, s: State, xs: seq<Action>, i: nat) returns (before: State)
    requires Valid(c, s, xs) && i < |xs|
    ensures Ran(c, s, xs[..i], before) && Enabled(c, before, xs[i])
    ensures Ran(c, Apply(c, before, xs[i]), xs[i + 1..], RunFrom(c, s, xs))
    decreases |xs|
  {
    var last := |xs| - 1;
    var end := Last(c, s, xs);
    if i == last {
      before := end;
      NoActions(c, Apply(c, before, xs[i]));
      assert xs[i + 1..] == [];
    } else {
      before := SplitRun(c, s, xs[..last], i);
      InitParts(xs, i);
      Further(c, Apply(c, before, xs[i]), xs[..last][i + 1..], end, xs[last]);
    }
  }

  /** There is always one more actor. */
  lemma {:induction false} FreshActor(taken: set<ActorId>) returns (a: ActorId)
    ensures a !in taken && forall b :: b in taken ==> b < a
    decreases |taken|
  {
    if taken == {} {
      a := 0;
    } else {
      var b :| b in taken;
      var rest := FreshActor(taken - {b});
      a := if rest > b then rest else b + 1;
      forall x | x in taken ensures x < a { if x != b { assert x in taken - {b}; } }
    }
  }
}
