/**
 The shared stores behind one process, seen by one actor: every command is preceded by whatever the
 other actors do meanwhile, and may fail.  The ghost fields say which state of the protocol the
 stores are in, so each command's contract says that it is the protocol action the actor's job owes.
*/
module Clusters {
  import opened Basics
  import opened Statuses
  import opened Retry
  import opened Rows
  import opened Protocol
  import opened Guarantees
  import opened Stores
  import opened Queues
  import opened Metrics

  datatype Failure = Unavailable | Store(error: StoreError)

  /** How many commands of me failed in xs. */
  function Faults(xs: seq<Action>, me: ActorId): nat {
    if xs == [] then 0
    else Faults(xs[..|xs| - 1], me) +
         (if FaultOf(xs[|xs| - 1], me) then 1 else 0)
  }

  /** None of it is an action of me. */
  predicate Leaves(xs: seq<Action>, me: ActorId) {
    forall i :: 0 <= i < |xs| ==> ActorOf(xs[i]) != Some(me)
  }

  /** The last action of xs is the submission of me, and its only one. */
  predicate Submits(xs: seq<Action>, me: ActorId, id: TaskId, p: CreateTaskParams) {
    xs != [] && xs[|xs| - 1] == Submit(me, id, p) && Leaves(xs[..|xs| - 1], me)
  }

  /** What the handlers run by me answered in xs. */
  function Answers(xs: seq<Action>, me: ActorId): seq<Outcome> {
    if xs == [] then []
    else Answers(xs[..|xs| - 1], me) +
         (var x := xs[|xs| - 1]; if x.Finish? && x.actor == me then [x.outcome] else [])
  }

  lemma {:induction false} OwnConcat(xs: seq<Action>, ys: seq<Action>, me: ActorId)
    ensures Faults(xs + ys, me) == Faults(xs, me) + Faults(ys, me)
    ensures Answers(xs + ys, me) == Answers(xs, me) + Answers(ys, me)
    decreases |ys|
  {
    if ys == [] {
      assert xs + ys == xs;
    } else {
      assert (xs + ys)[..|xs + ys| - 1] == xs + ys[..|ys| - 1];
      OwnConcat(xs, ys[..|ys| - 1], me);
    }
  }

  lemma RanThen(c: Config, s: State, xs: seq<Action>, s1: State, ys: seq<Action>, s2: State, me: ActorId)
    requires Ran(c, s, xs, s1) && Ran(c, s1, ys, s2)
    ensures Ran(c, s, xs + ys, s2)
    ensures Faults(xs + ys, me) == Faults(xs, me) + Faults(ys, me)
    ensures Answers(xs + ys, me) == Answers(xs, me) + Answers(ys, me)
  {
    Concat(c, s, xs, ys);
    OwnConcat(xs, ys, me);
  }

  lemma RanStep(c: Config, s: State, xs: seq<Action>, s1: State, x: Action, me: ActorId)
    requires Ran(c, s, xs, s1) && Enabled(c, s1, x)
    ensures Ran(c, s, xs + [x], Apply(c, s1, x))
    ensures Faults(xs + [x], me) == Faults(xs, me) + if FaultOf(x, me) then 1 else 0
    ensures Answers(xs + [x], me) == Answers(xs, me) + if x.Finish? && x.actor == me then [x.outcome] else []
  {
    Extend(c, s, xs, x);
    assert (xs + [x])[..|xs + [x]| - 1] == xs;
  }

  // ---- What messages and dead letters say of their tasks ----

  /** Type and trace id are the task's; the trace id is empty if the task has none. */
  predicate Labels(rows: map<TaskId, Row>, id: TaskId, taskType: string, traceId: string) {
    && id in rows && taskType == rows[id].taskType
    && match rows[id].traceId case Some(t) => traceId == t case None => traceId == ""
  }

  /** Every message and every dead letter carries the type and the trace id its task is stored with. */
  predicate Labelled(rows: map<TaskId, Row>, messages: seq<TaskMessage>, letters: seq<DeadTaskMessage>) {
    && (forall i :: 0 <= i < |messages| ==> Labels(rows, messages[i].id, messages[i].taskType, messages[i].traceId))
    && (forall i :: 0 <= i < |letters| ==> Labels(rows, letters[i].id, letters[i].taskType, letters[i].traceId))
  }

  lemma LabelsStay(rows: map<TaskId, Row>, rows': map<TaskId, Row>, messages: seq<TaskMessage>, letters: seq<DeadTaskMessage>)
    requires Labelled(rows, messages, letters)
    requires forall id :: id in rows ==> id in rows' && SameTask(rows[id], rows'[id])
    ensures Labelled(rows', messages, letters)
  {}

  /** A row that was read stays true, but for its mutable columns, whatever happens next. */
  lemma ReadStaysTrue(c: Config, s: State, xs: seq<Action>, s1: State, ys: seq<Action>, s2: State, id: TaskId)
    requires Ran(c, s, xs, s1) && Ran(c, s1, ys, s2) && id in s1.rows
    ensures id in s2.rows && SameTask(s1.rows[id], s2.rows[id])
  {
    RunKeepsTasks(c, s1, ys, id);
  }

  // ---- What an action does, for the commands that need to know ----

  /** A conditional UPDATE touches the table only. */
  lemma RowOnly(c: Config, s: State, a: ActorId)
    requires a in s.jobs
    requires var j := s.jobs[a];
      j.Dispatching? || j.Recovering? || j.Claiming? || j.Succeeding? || j.Failing? || j.Completing?
    ensures DoAdvance(c, s, a).(jobs := s.jobs) == s.(rows := NextRows(c, s, a))
  {}

  /** The job of a is to call Transition with these arguments. */
  ghost predicate Asks(c: Config, j: Job, a: ActorId, id: TaskId, from: Status, to: Status, worker: Option<string>) {
    && TaskOf(j) == id
    && (j.Claiming? || j.Succeeding? || j.Dispatching?)
    && (j.Claiming? ==> from == Pending && to == Running && worker == Some(c.consumer(a)))
    && (j.Succeeding? ==> from == Running && to == Success && worker == Some(c.consumer(a)))
    && (j.Dispatching? ==> from == j.from && to == Pending && worker == None && (from == Scheduled || from == Retrying))
  }

  function AfterTransition(j: Job, id: TaskId, from: Status, retryCount: int): Job
    requires j.Claiming? || j.Succeeding? || j.Dispatching?
  {
    if j.Claiming? then Starting(j.message)
    else if j.Succeeding? then CountingSuccess(j.message)
    else Publishing(id, retryCount, if from == Retrying then FromRetry else FromZSet)
  }

  /** What the conditional UPDATE answers is the action the job owes. */
  lemma TransitionEffect(c: Config, s: State, a: ActorId, id: TaskId, from: Status, to: Status, worker: Option<string>,
                         rows: map<TaskId, Row>, r: Result<Row, StoreError>)
    requires a in s.jobs && Asks(c, s.jobs[a], a, id, from, to, worker)
    requires if Matches(s, id, from)
             then r == Result.Ok(Moved(s.rows[id], to, worker, s.now)) && rows == s.rows[id := r.value]
             else r.Err? && rows == s.rows
    ensures CanTransition(from, to)
    ensures DoAdvance(c, s, a).(jobs := s.jobs) == s.(rows := rows)
    ensures NextJob(c, s, a) ==
      if r.Ok? then Some(AfterTransition(s.jobs[a], id, from, r.value.retryCount))
      else if s.jobs[a].Dispatching? && from == Scheduled then Some(Removing(id))
      else None
  {
    RowOnly(c, s, a);
  }

  function FailureOwner(j: Job): Owner
    requires j.Failing? || j.Recovering?
  {
    if j.Failing? then Worker(j.message) else Scheduler
  }

  lemma MarkEffect(c: Config, s: State, a: ActorId, id: TaskId, failure: string)
    requires a in s.jobs && TaskOf(s.jobs[a]) == id && (s.jobs[a].Failing? || s.jobs[a].Recovering?)
    requires s.jobs[a].failure == failure
    ensures Matches(s, id, Running) ==>
      && NextRows(c, s, a) == s.rows[id := MarkedFailed(s.rows[id], failure, s.now)]
      && NextJob(c, s, a) == Some(AfterFailing(s.rows[id], id, failure, s.jobs[a].Failing? && s.jobs[a].nonRetryable,
                                               FailureOwner(s.jobs[a])))
    ensures !Matches(s, id, Running) ==> NextRows(c, s, a) == s.rows && NextJob(c, s, a) == None
  {}

  function AfterComplete(c: Config, id: TaskId, d: FailureDecision, failure: string, owner: Owner): Option<Job> {
    match owner
    case Worker(m) => Some(CountingOutcome(id, d.status == Dead, failure, d.retryCount, m))
    case Scheduler =>
      if d.status == Dead && c.schedulerBuries then Some(Burying(id, failure, d.retryCount, owner)) else None
  }

  lemma CompleteEffect(c: Config, s: State, a: ActorId)
    requires a in s.jobs && s.jobs[a].Completing?
    ensures
      var j := s.jobs[a];
      if Matches(s, j.task, Failed)
      then NextRows(c, s, a) == s.rows[j.task := Completed(s.rows[j.task], j.decision, j.failure, s.now)]
           && NextJob(c, s, a) == AfterComplete(c, j.task, j.decision, j.failure, j.owner)
      else NextRows(c, s, a) == s.rows && NextJob(c, s, a) == None
  {}

  /** The counter a job is about to add to. */
  predicate Counts(j: Job, c: Counter) {
    match c
    case SubmittedTotal => j.CountingSubmitted?
    case StartedTotal => j.Starting?
    case SucceededTotal => j.CountingSuccess?
    case FailedTotal => j.CountingFailure?
    case RetriedTotal => j.CountingOutcome? && !j.died
    case DeadTotal => j.CountingOutcome? && j.died
  }

  function AfterCount(c: Config, j: Job, n: Counter): Option<Job>
    requires Counts(j, n)
  {
    match n
    case SubmittedTotal => None
    case StartedTotal => Some(Executing(j.message))
    case SucceededTotal => Some(Acking(j.message))
    case FailedTotal => Some(Acking(j.message))
    case RetriedTotal => Some(CountingFailure(j.message))
    case DeadTotal =>
      Some(if c.workerBuries then Burying(j.task, j.failure, j.retryCount, Worker(j.message))
           else CountingFailure(j.message))
  }

  function Counted(n: Counters, c: Counter): Counters {
    match c
    case SubmittedTotal => n.(submitted := n.submitted + 1)
    case StartedTotal => n.(started := n.started + 1)
    case SucceededTotal => n.(succeeded := n.succeeded + 1)
    case FailedTotal => n.(failed := n.failed + 1)
    case RetriedTotal => n.(retried := n.retried + 1)
    case DeadTotal => n.(dead := n.dead + 1)
  }

  lemma CountEffect(c: Config, s: State, a: ActorId, n: Counter)
    requires a in s.jobs && Counts(s.jobs[a], n)
    ensures DoAdvance(c, s, a).(jobs := s.jobs) == s.(counters := Counted(s.counters, n))
    ensures NextJob(c, s, a) == AfterCount(c, s.jobs[a], n)
  {}

  /** The job of a creator whose task is new. */
  function AfterSubmit(id: TaskId, r: Row): Job {
    if r.status == Scheduled then ZAdding(id, r.runAt) else Publishing(id, 0, Created)
  }

  lemma SubmitEffect(c: Config, s: State, a: ActorId, id: TaskId, p: CreateTaskParams)
    requires Enabled(c, s, Submit(a, id, p)) && !KeyTaken(s.rows, p.idempotencyKey)
    ensures Apply(c, s, Submit(a, id, p)) ==
      s.(rows := s.rows[id := NewRow(p, s.now)], jobs := s.jobs[a := AfterSubmit(id, NewRow(p, s.now))])
  {}

  class Cluster {
    const config: Config
    const store: Store
    const stream: TaskStream
    const scheduled: ScheduledQueue
    const dead: DeadStream
    const metrics: Registry
    var now: int
    ghost var jobs: map<ActorId, Job>
    ghost var ticks: map<ActorId, Tick>
    ghost var lost: set<TaskId>
    ghost var unburied: set<TaskId>
    ghost var outages: nat          // commands that failed
    ghost var begun: map<ActorId, int>   // the instant a worker counted its run as started
    ghost const calm: bool          // nobody else acts and nothing fails

    ghost function Repr(): set<object> {
      {this, store, stream, scheduled, dead, metrics}
    }

    ghost predicate Valid()
      reads store, stream, dead, metrics
    {
      stream.Valid() && metrics.Valid() && Labelled(store.rows, stream.entries, dead.entries)
    }

    ghost function View(): State
      requires Valid()
      reads this, store, stream, scheduled, dead, metrics
    {
      State(now, store.rows, scheduled.members, stream.Log(), stream.delivered, stream.pel,
            dead.Log(), metrics.View(), jobs, ticks, lost, unburied)
    }

    constructor (config: Config, ghost calm: bool, now: int)
      ensures Valid() && View() == Init(now) && fresh(Repr())
      ensures this.config == config && this.calm == calm && outages == 0
    {
      this.config, this.calm, this.now := config, calm, now;
      store := new Store();
      stream := new TaskStream();
      scheduled := new ScheduledQueue();
      dead := new DeadStream();
      metrics := new Registry();
      jobs, ticks, lost, unburied, outages, begun := map[], map[], {}, {}, 0, map[];
    }

    /** The others do not touch when the run of me began. */
    twostate predicate SameBegun(me: ActorId)
      reads this
    {
      (me in begun <==> me in old(begun)) && (me in begun ==> begun[me] == old(begun)[me])
    }

    /** Time passes: the other actors run and the clock moves.  Callers know no more than this contract,
        so they are verified against any interference; the body is the case where there is none. */
    method Pause(me: ActorId) returns (ghost xs: seq<Action>)
      requires Valid()
      modifies Repr()
      ensures Valid() && Ran(config, old(View()), xs, View()) && Leaves(xs, me)
      ensures Faults(xs, me) == 0 && Answers(xs, me) == []
      ensures SameBegun(me)
      ensures me in jobs <==> me in old(jobs)
      ensures me in jobs ==> jobs[me] == old(jobs)[me]
      ensures me in ticks <==> me in old(ticks)
      ensures me in ticks ==> ticks[me] == old(ticks)[me]
      ensures outages == old(outages)
      ensures calm ==> xs == [] && View() == old(View())
    {
      xs := [];
    }

    /** Before a command: a pause, and then the command goes through or fails. */
    method Await(me: ActorId) returns (up: bool, ghost xs: seq<Action>)
      requires Valid()
      modifies Repr()
      ensures Valid() && Ran(config, old(View()), xs, View()) && Leaves(xs, me)
      ensures Faults(xs, me) == 0 && Answers(xs, me) == []
      ensures SameBegun(me)
      ensures me in jobs <==> me in old(jobs)
      ensures me in jobs ==> jobs[me] == old(jobs)[me]
      ensures me in ticks <==> me in old(ticks)
      ensures me in ticks ==> ticks[me] == old(ticks)[me]
      ensures outages == old(outages) + if up then 0 else 1
      ensures calm ==> up && xs == [] && View() == old(View())
    {
      up := true;
      xs := Pause(me);
    }

    /** The actor's goroutine ends here with an error. */
    ghost method GiveUp(me: ActorId, xs: seq<Action>, s: State) returns (ys: seq<Action>)
      requires Valid() && Ran(config, s, xs, View()) && me in jobs
      modifies this`jobs, this`lost, this`unburied
      ensures Valid() && Ran(config, s, ys, View())
      ensures Faults(ys, me) == Faults(xs, me) + 1 && Answers(ys, me) == Answers(xs, me)
      ensures me !in jobs
    {
      ghost var before := View();
      lost, unburied := lost + Owed(jobs[me]), unburied + OwedBurial(jobs[me]);
      jobs := jobs - {me};
      RanStep(config, s, xs, before, Abort(me), me);
      assert View() == Apply(config, before, Abort(me));
      ys := xs + [Abort(me)];
    }

    /** The command of me has had its effect on the stores: me goes on to its next job. */
    ghost method Commit(me: ActorId, xs: seq<Action>, start: State, before: State) returns (ys: seq<Action>)
      requires Valid() && Ran(config, start, xs, before)
      requires me in before.jobs && !before.jobs[me].Executing? && jobs == before.jobs
      requires View() == DoAdvance(config, before, me).(jobs := before.jobs)
      modifies this`jobs
      ensures Valid() && Ran(config, start, ys, View())
      ensures Faults(ys, me) == Faults(xs, me) && Answers(ys, me) == Answers(xs, me)
      ensures jobs == WithJob(before.jobs, me, NextJob(config, before, me))
    {
      jobs := WithJob(jobs, me, NextJob(config, before, me));
      assert View() == Apply(config, before, Advance(me));
      RanStep(config, start, xs, before, Advance(me), me);
      ys := xs + [Advance(me)];
    }

    /** What every command of me guarantees: a run in which me takes the one action its job owes, or
        gives up because the command failed. */
    twostate predicate Did(me: ActorId, xs: seq<Action>, failed: bool)
      requires old(Valid()) && old(me in jobs)
      reads this, store, stream, scheduled, dead, metrics
    {
      && Valid() && Ran(config, old(View()), xs, View())
      && Faults(xs, me) == outages - old(outages) == (if failed then 1 else 0)
      && Answers(xs, me) == []
      && (failed ==> me !in jobs)
      && (me in ticks <==> me in old(ticks)) && (me in ticks ==> ticks[me] == old(ticks)[me])
      && (calm ==> !failed && View() == DoAdvance(config, old(View()), me))
    }

    /** The same before a command of a job, which ends here when the command fails. */
    method Attempt(me: ActorId) returns (up: bool, ghost xs: seq<Action>)
      requires Valid() && me in jobs
      modifies Repr()
      ensures Valid() && Ran(config, old(View()), xs, View())
      ensures Faults(xs, me) == outages - old(outages) == (if up then 0 else 1) && Answers(xs, me) == []
      ensures if up then me in jobs && jobs[me] == old(jobs)[me] else me !in jobs
      ensures SameBegun(me)
      ensures (me in ticks <==> me in old(ticks)) && (me in ticks ==> ticks[me] == old(ticks)[me])
      ensures calm ==> up && View() == old(View())
    {
      ghost var start := View();
      up, xs := Await(me);
      if !up {
        xs := GiveUp(me, xs, start);
      }
    }

    /** The statement itself. */
    method Insert(id: TaskId, p: CreateTaskParams) returns (r: Result<(Task, bool), StoreError>)
      requires Valid()
      modifies store
      ensures Valid() && (r.Err? ==> r.error == ConstraintViolated)
      ensures
        if r.Ok? && r.value.1
        then id !in old(store.rows) && Insertable(p) && !KeyTaken(old(store.rows), p.idempotencyKey)
             && View() == old(View()).(rows := old(store.rows)[id := NewRow(p, now)]) && r.value.0 == Task(id, NewRow(p, now))
        else View() == old(View())
      ensures r.Ok? ==>
        var task := r.value.0;
        && task.id in store.rows && store.rows[task.id] == task.row && task.row.idempotencyKey == p.idempotencyKey
        && (!r.value.1 ==> p.idempotencyKey.Some?)
    {
      ghost var before := View();
      r := store.Create(id, p, now);
      LabelsStay(before.rows, store.rows, stream.entries, dead.entries);
      assert View() == before.(rows := store.rows);
    }

    /** INSERT ... ON CONFLICT DO NOTHING. */
    method Create(me: ActorId, id: TaskId, p: CreateTaskParams)
      returns (r: Result<(Task, bool), Failure>, ghost xs: seq<Action>)
      requires Valid() && me !in jobs && me !in config.schedulers && p.taskType != ""
      modifies Repr()
      ensures Valid() && Ran(config, old(View()), xs, View()) && Answers(xs, me) == []
      ensures Faults(xs, me) <= outages - old(outages) == (if r == Err(Unavailable) then 1 else 0)
      ensures r.Err? ==> me !in jobs && (r == Err(Unavailable) || r == Err(Store(ConstraintViolated)))
      ensures if r.Ok? && r.value.1 then Submits(xs, me, id, p) else Leaves(xs, me)
      ensures r.Ok? ==>
        var task := r.value.0;
        && task.id in store.rows && store.rows[task.id] == task.row
        && task.row.idempotencyKey == p.idempotencyKey
        && (!r.value.1 ==> me !in jobs && p.idempotencyKey.Some?)
        && (r.value.1 ==>
              && task == Task(id, NewRow(p, now))
              && me in jobs
              && jobs[me] == AfterSubmit(id, task.row))
    {
      ghost var start := View();
      var up;
      up, xs := Await(me);
      if !up {
        return Err(Unavailable), xs;
      }
      ghost var before := View();
      var created := Insert(id, p);
      if created.Err? {
        return Err(Store(created.error)), xs;
      }
      r := Ok(created.value);
      if created.value.1 {
        xs := Submitted(me, id, p, xs, start, before);
      }
    }

    /** The INSERT of me has created a row. */
    ghost method Submitted(me: ActorId, id: TaskId, p: CreateTaskParams, xs: seq<Action>, start: State, before: State)
      returns (ys: seq<Action>)
      requires Valid() && Ran(config, start, xs, before)
      requires Enabled(config, before, Submit(me, id, p)) && !KeyTaken(before.rows, p.idempotencyKey)
      requires View() == before.(rows := before.rows[id := NewRow(p, before.now)])
      modifies this`jobs
      ensures Valid() && Ran(config, start, ys, View())
      ensures Faults(ys, me) == Faults(xs, me) && Answers(ys, me) == Answers(xs, me)
      ensures ys == xs + [Submit(me, id, p)]
      ensures jobs == before.jobs[me := AfterSubmit(id, NewRow(p, before.now))]
    {
      SubmitEffect(config, before, me, id, p);
      jobs := jobs[me := AfterSubmit(id, NewRow(p, before.now))];
      ys := Note(me, xs, start, before, Submit(me, id, p));
    }

    /** SELECT ... WHERE id. */
    method Get(me: ActorId, id: TaskId) returns (r: Result<Row, Failure>, ghost xs: seq<Action>)
      requires Valid() && me in jobs && TaskOf(jobs[me]) == id && (jobs[me].Received? || jobs[me].Inspecting?)
      modifies Repr()
      ensures Did(me, xs, r == Err(Unavailable))
      ensures r != Err(Unavailable) ==> r == if id in store.rows then Ok(store.rows[id]) else Err(Store(NotFound))
      ensures r != Err(Unavailable) && old(jobs)[me].Received? ==>
        var j := old(jobs)[me];
        if r.Err? then me !in jobs
        else
          me in jobs && jobs[me] ==
            if r.value.status.IsTerminal() then Acking(j.message)
            else if j.recovered && r.value.status == Running then Starting(j.message)
            else Claiming(j.message)
      ensures r != Err(Unavailable) && old(jobs)[me].Inspecting? ==>
        me in jobs && jobs[me] == if r.Ok? && r.value.status == Scheduled then Dispatching(id, Scheduled) else Removing(id)
    {
      ghost var start := View();
      var up: bool;
      up, xs := Attempt(me);
      if !up {
        return Err(Unavailable), xs;
      }
      ghost var before := View();
      var found := store.Get(id);
      r := if found.Ok? then Ok(found.value) else Err(Store(found.error));
      xs := Commit(me, xs, start, before);
    }

    /** The statement itself, which the stores take as the action the job owes. */
    method Update(me: ActorId, id: TaskId, from: Status, to: Status, worker: Option<string>)
      returns (r: Result<Row, StoreError>)
      requires Valid() && me in jobs && Asks(config, jobs[me], me, id, from, to, worker)
      modifies store
      ensures Valid() && View() == DoAdvance(config, old(View()), me).(jobs := jobs)
      ensures r.Err? ==> r.error == NotFound
      ensures r.Ok? ==> id in store.rows && r.value == store.rows[id] && r.value.status == to
      ensures NextJob(config, old(View()), me) ==
        if r.Ok? then Some(AfterTransition(jobs[me], id, from, r.value.retryCount))
        else if jobs[me].Dispatching? && from == Scheduled then Some(Removing(id))
        else None
    {
      ghost var before := View();
      r := store.Transition(id, from, to, worker, now);
      LabelsStay(before.rows, store.rows, stream.entries, dead.entries);
      assert View() == before.(rows := store.rows);
      TransitionEffect(config, before, me, id, from, to, worker, store.rows, r);
    }

    /** The statement, and what me goes on to. */
    method UpdateAndGoOn(me: ActorId, id: TaskId, from: Status, to: Status, worker: Option<string>,
                         ghost xs: seq<Action>, ghost start: State)
      returns (r: Result<Row, Failure>, ghost ys: seq<Action>)
      requires Valid() && Ran(config, start, xs, View())
      requires me in jobs && Asks(config, jobs[me], me, id, from, to, worker)
      modifies store, this`jobs
      ensures Valid() && Ran(config, start, ys, View()) && View() == DoAdvance(config, old(View()), me)
      ensures Faults(ys, me) == Faults(xs, me) && Answers(ys, me) == Answers(xs, me)
      ensures r.Err? ==> r == Err(Store(NotFound))
      ensures r.Ok? ==> id in store.rows && r.value == store.rows[id] && r.value.status == to
      ensures r.Ok? ==> me in jobs && jobs[me] == AfterTransition(old(jobs)[me], id, from, r.value.retryCount)
      ensures r.Err? ==>
        if old(jobs)[me].Dispatching? && from == Scheduled then me in jobs && jobs[me] == Removing(id) else me !in jobs
    {
      ghost var before := View();
      var done := Update(me, id, from, to, worker);
      r := if done.Ok? then Ok(done.value) else Err(Store(NotFound));
      ys := Commit(me, xs, start, before);
      assert View() == DoAdvance(config, before, me);
    }

    /** UPDATE ... WHERE id AND status = from. */
    method Transition(me: ActorId, id: TaskId, from: Status, to: Status, worker: Option<string>)
      returns (r: Result<Row, Failure>, ghost xs: seq<Action>)
      requires Valid() && me in jobs && Asks(config, jobs[me], me, id, from, to, worker)
      modifies Repr()
      ensures SameBegun(me)
      ensures Did(me, xs, r == Err(Unavailable))
      ensures r.Err? ==> r == Err(Unavailable) || r == Err(Store(NotFound))
      ensures r.Ok? ==> id in store.rows && r.value == store.rows[id] && r.value.status == to
      ensures r.Ok? ==> me in jobs && jobs[me] == AfterTransition(old(jobs)[me], id, from, r.value.retryCount)
      ensures r == Err(Store(NotFound)) ==>
        if old(jobs)[me].Dispatching? && from == Scheduled then me in jobs && jobs[me] == Removing(id) else me !in jobs
    {
      ghost var start := View();
      var up: bool;
      up, xs := Attempt(me);
      if !up {
        return Err(Unavailable), xs;
      }
      r, xs := UpdateAndGoOn(me, id, from, to, worker, xs, start);
    }

    /** The statement itself, as for Transition. */
    method Mark(me: ActorId, id: TaskId, failure: string) returns (r: Result<Row, StoreError>)
      requires Valid() && me in jobs && TaskOf(jobs[me]) == id && (jobs[me].Failing? || jobs[me].Recovering?)
      requires jobs[me].failure == failure
      modifies store
      ensures Valid() && View() == DoAdvance(config, old(View()), me).(jobs := jobs)
      ensures r.Err? ==> r.error == NotFound
      ensures NextJob(config, old(View()), me) ==
        if r.Ok?
        then Some(AfterFailing(r.value, id, failure, jobs[me].Failing? && jobs[me].nonRetryable, FailureOwner(jobs[me])))
        else None
    {
      ghost var before := View();
      MarkEffect(config, before, me, id, failure);
      RowOnly(config, before, me);
      r := store.MarkFailed(id, failure, now);
      LabelsStay(before.rows, store.rows, stream.entries, dead.entries);
      assert View() == before.(rows := store.rows);
    }

    /** UPDATE ... SET status = 'failed' WHERE id AND status = 'running'. */
    method MarkFailed(me: ActorId, id: TaskId, failure: string) returns (r: Result<Row, Failure>, ghost xs: seq<Action>)
      requires Valid() && me in jobs && TaskOf(jobs[me]) == id && (jobs[me].Failing? || jobs[me].Recovering?)
      requires jobs[me].failure == failure
      modifies Repr()
      ensures SameBegun(me)
      ensures Did(me, xs, r == Err(Unavailable))
      ensures r.Err? ==> (r == Err(Unavailable) || r == Err(Store(NotFound))) && me !in jobs
      ensures r.Ok? ==>
        var j := old(jobs)[me];
        me in jobs &&
        jobs[me] == AfterFailing(r.value, id, failure, j.Failing? && j.nonRetryable, FailureOwner(j))
    {
      ghost var start := View();
      var up: bool;
      up, xs := Attempt(me);
      if !up {
        return Err(Unavailable), xs;
      }
      ghost var before := View();
      assert before.jobs[me] == start.jobs[me];
      var done := Mark(me, id, failure);
      r := if done.Ok? then Ok(done.value) else Err(Store(NotFound));
      xs := Commit(me, xs, start, before);
    }

    /** The statement itself, as for Transition. */
    method Complete(me: ActorId, id: TaskId, d: FailureDecision, failure: string) returns (r: Result<Row, StoreError>)
      requires Valid() && me in jobs && jobs[me].Completing?
      requires jobs[me].task == id && jobs[me].decision == d && jobs[me].failure == failure
      requires d.status == Retrying || d.status == Dead
      modifies store
      ensures Valid() && View() == DoAdvance(config, old(View()), me).(jobs := jobs)
      ensures r.Err? ==> r.error == NotFound
      ensures r.Ok? ==> id in store.rows && r.value == store.rows[id]
      ensures r.Ok? ==> r.value.status == d.status && r.value.retryCount == d.retryCount
      ensures NextJob(config, old(View()), me) ==
        if r.Ok? then AfterComplete(config, id, d, failure, jobs[me].owner) else None
    {
      ghost var before := View();
      CompleteEffect(config, before, me);
      RowOnly(config, before, me);
      r := store.CompleteFailure(id, d, failure, now);
      LabelsStay(before.rows, store.rows, stream.entries, dead.entries);
      assert View() == before.(rows := store.rows);
    }

    /** UPDATE ... SET status = decision WHERE id AND status = 'failed'. */
    method CompleteFailure(me: ActorId, id: TaskId, d: FailureDecision, failure: string)
      returns (r: Result<Row, Failure>, ghost xs: seq<Action>)
      requires Valid() && me in jobs && jobs[me].Completing?
      requires jobs[me].task == id && jobs[me].decision == d && jobs[me].failure == failure
      requires d.status == Retrying || d.status == Dead
      modifies Repr()
      ensures SameBegun(me)
      ensures Did(me, xs, r == Err(Unavailable))
      ensures r.Err? ==> (r == Err(Unavailable) || r == Err(Store(NotFound))) && me !in jobs
      ensures r.Ok? ==> id in store.rows && r.value == store.rows[id]
      ensures r.Ok? ==> r.value.status == d.status && r.value.retryCount == d.retryCount
      ensures r.Ok? ==>
        match AfterComplete(config, id, d, failure, old(jobs)[me].owner)
        case Some(j) => me in jobs && jobs[me] == j
        case None => me !in jobs
    {
      ghost var start := View();
      var up: bool;
      up, xs := Attempt(me);
      if !up {
        return Err(Unavailable), xs;
      }
      ghost var before := View();
      assert before.jobs[me] == start.jobs[me];
      var done := Complete(me, id, d, failure);
      r := if done.Ok? then Ok(done.value) else Err(Store(NotFound));
      xs := Commit(me, xs, start, before);
    }

    /** XADD to the task stream, of a message with the type and the trace id of its task. */
    method PublishTask(me: ActorId, m: TaskMessage) returns (ok: bool, ghost xs: seq<Action>)
      requires Valid() && me in jobs && jobs[me].Publishing? && jobs[me].task == m.id
      requires Labels(store.rows, m.id, m.taskType, m.traceId)
      modifies Repr()
      ensures Did(me, xs, !ok)
      ensures ok ==> m in stream.entries && Entry(m.id, old(jobs)[me].attempt) in stream.Log()
      ensures ok ==>
        match old(jobs)[me].origin
        case Created => me in jobs && jobs[me] == CountingSubmitted(m.id)
        case FromZSet => me in jobs && jobs[me] == Removing(m.id)
        case FromRetry => me !in jobs
    {
      ghost var start := View();
      ok, xs := Attempt(me);
      if !ok {
        return;
      }
      ghost var before := View();
      RunKeepsTasks(config, start, xs, m.id);
      stream.PublishTask(m, jobs[me].attempt);
      xs := Commit(me, xs, start, before);
    }

    /** XADD to the dead stream; a failure is only logged, so me goes on in any case. */
    method PublishDead(me: ActorId, m: DeadTaskMessage) returns (ok: bool, ghost xs: seq<Action>)
      requires Valid() && me in jobs && jobs[me].Burying?
      requires jobs[me].task == m.id && jobs[me].failure == m.lastError && jobs[me].retryCount == m.retryCount
      requires Labels(store.rows, m.id, m.taskType, m.traceId)
      modifies Repr()
      ensures SameBegun(me)
      ensures Valid() && Ran(config, old(View()), xs, View())
      ensures Faults(xs, me) == outages - old(outages) == (if ok then 0 else 1) && Answers(xs, me) == []
      ensures (me in ticks <==> me in old(ticks)) && (me in ticks ==> ticks[me] == old(ticks)[me])
      ensures
        match old(jobs)[me].owner
        case Worker(w) => me in jobs && jobs[me] == CountingFailure(w)
        case Scheduler => me !in jobs
      ensures ok ==> m in dead.entries
      ensures calm ==> ok && View() == DoAdvance(config, old(View()), me)
    {
      ghost var start := View();
      ok, xs := Await(me);
      ghost var before := View();
      RunKeepsTasks(config, start, xs, m.id);
      if ok {
        dead.PublishDead(m);
        xs := Commit(me, xs, start, before);
      } else {
        xs := LeaveUnburied(me, xs, start);
      }
    }

    /** The dead-letter write of me has failed. */
    ghost method LeaveUnburied(me: ActorId, xs: seq<Action>, start: State) returns (ys: seq<Action>)
      requires Valid() && Ran(config, start, xs, View()) && me in jobs && jobs[me].Burying?
      modifies this`jobs, this`unburied
      ensures Valid() && Ran(config, start, ys, View())
      ensures Faults(ys, me) == Faults(xs, me) + 1 && Answers(ys, me) == Answers(xs, me)
      ensures jobs == WithJob(old(jobs), me, AfterBurial(old(jobs)[me].owner))
    {
      ghost var before := View();
      unburied := unburied + OwedBurial(jobs[me]);
      jobs := WithJob(jobs, me, AfterBurial(jobs[me].owner));
      ys := Note(me, xs, start, before, BuryFails(me));
    }

    /** XACK. */
    method Ack(me: ActorId, e: nat) returns (ok: bool, ghost xs: seq<Action>)
      requires Valid() && me in jobs && jobs[me].Acking? && jobs[me].message.entry == e
      modifies Repr()
      ensures Did(me, xs, !ok) && me !in jobs
      ensures ok ==> e !in stream.pel
    {
      ghost var start := View();
      ok, xs := Attempt(me);
      if !ok {
        return;
      }
      ghost var before := View();
      stream.Ack(e);
      xs := Commit(me, xs, start, before);
    }

    /** ZREM. */
    method Remove(me: ActorId, id: TaskId) returns (ok: bool, ghost xs: seq<Action>)
      requires Valid() && me in jobs && jobs[me] == Removing(id)
      modifies Repr()
      ensures Did(me, xs, !ok) && me !in jobs
      ensures ok ==> id !in scheduled.members
    {
      ghost var start := View();
      ok, xs := Attempt(me);
      if !ok {
        return;
      }
      ghost var before := View();
      scheduled.Remove(id);
      xs := Commit(me, xs, start, before);
    }

    /** ZADD. */
    method ScheduleTask(me: ActorId, id: TaskId, runAt: int) returns (ok: bool, ghost xs: seq<Action>)
      requires Valid() && me in jobs && jobs[me] == ZAdding(id, runAt)
      modifies Repr()
      ensures Did(me, xs, !ok)
      ensures ok ==> id in scheduled.members && me in jobs && jobs[me] == CountingSubmitted(id)
    {
      ghost var start := View();
      ok, xs := Attempt(me);
      if !ok {
        return;
      }
      ghost var before := View();
      scheduled.ScheduleTask(id, runAt);
      xs := Commit(me, xs, start, before);
    }

    /** The interval a counter is observed with: of a start, the time since the task was created; of an end, the time
        since the start. */
    ghost predicate Lasted(me: ActorId, c: Counter, duration: int)
      requires me in jobs
      reads this, store
    {
      match c
      case StartedTotal => TaskOf(jobs[me]) in store.rows && duration == now - store.rows[TaskOf(jobs[me])].createdAt
      case SucceededTotal => me in begun && duration == now - begun[me]
      case FailedTotal => me in begun && duration == now - begun[me]
      case _ => true
    }

    /** The call itself. */
    method CallFor(me: ActorId, c: Counter, duration: int)
      requires Valid() && me in jobs && Counts(jobs[me], c)
      modifies metrics
      ensures Valid() && View() == DoAdvance(config, old(View()), me).(jobs := jobs)
      ensures NextJob(config, old(View()), me) == AfterCount(config, jobs[me], c)
      ensures c == SubmittedTotal ==> metrics.View().submitted == old(metrics.View()).submitted + 1
    {
      ghost var before := View();
      CountEffect(config, before, me, c);
      Call(c, duration);
      assert View() == before.(counters := metrics.View());
    }

    /** A call of the metrics registry; it cannot fail. */
    method Count(me: ActorId, c: Counter, duration: int) returns (ghost xs: seq<Action>)
      requires Valid() && me in jobs && Counts(jobs[me], c) && Lasted(me, c, duration)
      modifies Repr()
      ensures Did(me, xs, false)
      ensures if c == StartedTotal then me in begun && begun[me] == now else SameBegun(me)
      ensures c == SubmittedTotal ==> old(metrics.View()).submitted < metrics.View().submitted
      ensures
        match AfterCount(config, old(jobs)[me], c)
        case Some(j) => me in jobs && jobs[me] == j
        case None => me !in jobs
    {
      ghost var start := View();
      xs := Pause(me);
      ghost var before := View();
      RunCounts(config, start, xs);
      CallFor(me, c, duration);
      xs := Commit(me, xs, start, before);
      if c == StartedTotal { begun := begun[me := now]; }
    }

    method Call(c: Counter, duration: int)
      requires metrics.Valid()
      modifies metrics
      ensures metrics.Valid() && metrics.View() == Counted(old(metrics.View()), c)
      ensures
        var d := if duration > 0 then duration else 0;
        var was := old(metrics.summaries);
        && metrics.summaries.Keys == was.Keys
        && metrics.summaries[WaitDuration].sum == was[WaitDuration].sum + (if c == StartedTotal then d else 0)
        && metrics.summaries[ExecutionDuration].sum ==
             was[ExecutionDuration].sum + (if c == SucceededTotal || c == FailedTotal then d else 0)
    {
      match c {
        case SubmittedTotal => metrics.TaskSubmitted();
        case StartedTotal => metrics.TaskStarted(duration);
        case SucceededTotal => metrics.TaskSucceeded(duration);
        case FailedTotal => metrics.TaskFailed(duration);
        case RetriedTotal => metrics.TaskRetried();
        case DeadTotal => metrics.TaskDead();
      }
    }

    /** time.Now, read by a worker for its failure decision. */
    method Now(me: ActorId) returns (t: int, ghost xs: seq<Action>)
      requires Valid() && me in jobs && jobs[me].Finalizing? && jobs[me].owner.Worker?
      modifies Repr()
      ensures SameBegun(me)
      ensures Did(me, xs, false) && t == now
      ensures
        var j := old(jobs)[me];
        me in jobs && jobs[me] ==
          Completing(j.task, Decide(t, j.retryCount, j.maxRetries, j.nonRetryable), j.failure, j.owner)
    {
      ghost var start := View();
      xs := Pause(me);
      ghost var before := View();
      t := now;
      xs := Commit(me, xs, start, before);
    }

    /** The handler runs and answers. */
    method Finish(me: ActorId, outcome: Outcome) returns (ghost xs: seq<Action>)
      requires Valid() && me in jobs && jobs[me].Executing?
      modifies Repr()
      ensures SameBegun(me)
      ensures Valid() && Ran(config, old(View()), xs, View())
      ensures Faults(xs, me) == 0 && outages == old(outages) && Answers(xs, me) == [outcome]
      ensures me in jobs && jobs[me] == AfterHandler(old(jobs)[me].message, outcome)
    {
      ghost var start := View();
      xs := Pause(me);
      ghost var before := View();
      jobs := jobs[me := AfterHandler(jobs[me].message, outcome)];
      assert View() == Apply(config, before, Action.Finish(me, outcome));
      RanStep(config, start, xs, before, Action.Finish(me, outcome), me);
      xs := xs + [Action.Finish(me, outcome)];
    }

    // ---- A scheduler's tick ----

    /** An action of me on its tick, its jobs or nothing else. */
    ghost method Note(me: ActorId, xs: seq<Action>, start: State, before: State, x: Action) returns (ys: seq<Action>)
      requires Valid() && Ran(config, start, xs, before) && Enabled(config, before, x)
      requires ActorOf(x) == Some(me) && !x.Finish? && View() == Apply(config, before, x)
      ensures Ran(config, start, ys, View()) && Answers(ys, me) == Answers(xs, me)
      ensures Faults(ys, me) == Faults(xs, me) + if FaultOf(x, me) then 1 else 0
      ensures ys == xs + [x]
    {
      RanStep(config, start, xs, before, x, me);
      ys := xs + [x];
    }

    /** The tick reads its instant. */
    method StartTick(me: ActorId) returns (t: int, ghost xs: seq<Action>)
      requires Valid() && me in config.schedulers && me !in jobs && (me in ticks ==> ticks[me].phase == Idle)
      modifies Repr()
      ensures Valid() && Ran(config, old(View()), xs, View()) && Answers(xs, me) == []
      ensures Faults(xs, me) == 0 && outages == old(outages)
      ensures me !in jobs && me in ticks && ticks[me] == Tick(t, ScanningExpired, [])
      ensures Action.StartTick(me) in xs
      ensures calm ==> View() == old(View()).(ticks := old(ticks)[me := Tick(old(now), ScanningExpired, [])])
    {
      ghost var start := View();
      xs := Pause(me);
      ghost var before := View();
      t := now;
      ticks := ticks[me := Tick(t, ScanningExpired, [])];
      xs := Note(me, xs, start, before, Action.StartTick(me));
    }

    /** A scan of me has found ids, or has failed. */
    ghost method EndScan(me: ActorId, up: bool, ids: seq<TaskId>, xs: seq<Action>, start: State)
      returns (ys: seq<Action>)
      requires Valid() && Ran(config, start, xs, View())
      requires me !in jobs && me in ticks && (up ==> ScanResult(config, View(), ticks[me], ids))
      modifies this`ticks
      ensures Valid() && Ran(config, start, ys, View()) && Answers(ys, me) == Answers(xs, me)
      ensures Faults(ys, me) == Faults(xs, me) + if up then 0 else 1
      ensures
        var t := old(ticks)[me];
        && View() == old(View()).(ticks := ticks)
        && ticks == old(ticks)[me := if up then Tick(t.now, AfterScan(t.phase), ids) else Tick(t.now, Idle, [])]
    {
      ghost var before := View();
      ghost var x := if up then Action.Scan(me, ids) else Action.StopTick(me);
      ticks := Apply(config, before, x).ticks;
      ys := Note(me, xs, start, before, x);
    }

    /** What the scan of a tick guarantees. */
    twostate predicate Scanned(me: ActorId, xs: seq<Action>, up: bool, phase: Phase, ids: seq<TaskId>)
      requires old(Valid()) && old(me in ticks)
      reads this, store, stream, scheduled, dead, metrics
    {
      && Valid() && Ran(config, old(View()), xs, View()) && Answers(xs, me) == []
      && Faults(xs, me) == outages - old(outages) == (if up then 0 else 1)
      && me !in jobs && me in ticks
      && ticks[me] == (if up then Tick(old(ticks)[me].now, phase, ids) else Tick(old(ticks)[me].now, Idle, []))
      && (calm ==> up && View() == old(View()).(ticks := old(ticks)[me := ticks[me]]))
    }

    /** SELECT ... WHERE status = 'running' and the timeout has passed. */
    method ExpiredRunning(me: ActorId, t: int, limit: nat)
      returns (up: bool, tasks: seq<Task>, ghost ids: seq<TaskId>, ghost xs: seq<Action>)
      requires Valid() && me !in jobs && me in ticks && ticks[me] == Tick(t, ScanningExpired, []) && limit == config.scanLimit
      modifies Repr()
      ensures Scanned(me, xs, up, RecoveringExpired, ids)
      ensures up ==> IsScan(ExpiredTasks(store.rows, t), StartedRank(store.rows), limit, ids)
      ensures up ==> ids == Ids(tasks) && AsStored(store.rows, tasks)
    {
      ghost var start := View();
      up, xs := Await(me);
      tasks, ids := [], [];
      if up {
        tasks := store.ExpiredRunning(t, limit);
        ids := Ids(tasks);
      }
      xs := EndScan(me, up, ids, xs, start);
    }

    /** SELECT ... WHERE status = 'retrying' and next_retry_at has come. */
    method DueRetrying(me: ActorId, t: int, limit: nat)
      returns (up: bool, tasks: seq<Task>, ghost ids: seq<TaskId>, ghost xs: seq<Action>)
      requires Valid() && me !in jobs && me in ticks && ticks[me] == Tick(t, ScanningRetrying, []) && limit == config.scanLimit
      modifies Repr()
      ensures Scanned(me, xs, up, DispatchingRetrying, ids)
      ensures up ==> IsScan(DueRetryingTasks(store.rows, t), RetryRank(store.rows), limit, ids)
      ensures up ==> ids == Ids(tasks) && AsStored(store.rows, tasks)
    {
      ghost var start := View();
      up, xs := Await(me);
      tasks, ids := [], [];
      if up {
        tasks := store.DueRetrying(t, limit);
        ids := Ids(tasks);
      }
      xs := EndScan(me, up, ids, xs, start);
    }

    /** ZRANGE BYSCORE. */
    method DueTaskIDs(me: ActorId, t: int, limit: nat) returns (up: bool, ids: seq<TaskId>, ghost xs: seq<Action>)
      requires Valid() && me !in jobs && me in ticks && ticks[me] == Tick(t, ScanningZSet, []) && limit == config.scanLimit
      modifies Repr()
      ensures Scanned(me, xs, up, DispatchingZSet, ids)
      ensures up ==> IsScan(DueMembers(scheduled.members, t), ScoreRank(scheduled.members), limit, ids)
    {
      ghost var start := View();
      up, xs := Await(me);
      ids := [];
      if up {
        ids := scheduled.DueTaskIDs(t, limit);
      }
      xs := EndScan(me, up, ids, xs, start);
    }

    /** The loop of a tick takes up the next task its scan found. */
    ghost method Take(me: ActorId) returns (xs: seq<Action>)
      requires Valid() && me !in jobs && me in ticks && Processing(ticks[me].phase) && ticks[me].todo != []
      modifies this`jobs, this`ticks
      ensures Valid() && Ran(config, old(View()), xs, View()) && Faults(xs, me) == 0 && Answers(xs, me) == []
      ensures View() == DoTake(old(View()), me)
    {
      ghost var before := View();
      ghost var after := DoTake(before, me);
      ticks, jobs := after.ticks, after.jobs;
      assert View() == before.(ticks := after.ticks, jobs := after.jobs) == after;
      xs := Note(me, [], before, before, Action.Take(me));
    }

    /** The loop of a tick is over. */
    ghost method EndPhase(me: ActorId) returns (xs: seq<Action>)
      requires Valid() && me !in jobs && me in ticks && Processing(ticks[me].phase) && ticks[me].todo == []
      modifies this`ticks
      ensures Valid() && Ran(config, old(View()), xs, View()) && Faults(xs, me) == 0 && Answers(xs, me) == []
      ensures View() == DoEndPhase(old(View()), me)
    {
      ghost var before := View();
      ticks := DoEndPhase(before, me).ticks;
      xs := Note(me, [], before, before, Action.EndPhase(me));
    }

    /** The scheduler's failure decision; its instant is the tick's. */
    ghost method Decided(me: ActorId) returns (xs: seq<Action>)
      requires Valid() && me in jobs && jobs[me].Finalizing? && jobs[me].owner.Scheduler? && me in ticks
      modifies this`jobs
      ensures Did(me, xs, false) && outages == old(outages) && ticks == old(ticks)
      ensures
        var j := old(jobs)[me];
        me in jobs && jobs[me] ==
          Completing(j.task, Decide(ticks[me].now, j.retryCount, j.maxRetries, j.nonRetryable), j.failure, j.owner)
    {
      ghost var before := View();
      xs := Commit(me, [], before, before);
    }
  }
}
