/** Every kind of stranded task does occur, whatever the configuration. */
module Losses {
  import opened Basics
  import opened Statuses
  import opened Rows
  import opened Protocol
  import opened Delivery
  import opened Guarantees
  import opened Scenarios
  import opened Burials
  import opened DeadLetters
  import opened Carriers
  import opened Stranded

  /** Some run strands a task in this status. */
  ghost predicate Strands(c: Config, status: Status) {
    exists s, id :: Reachable(c, s) && Matches(s, id, status) && !CanGoOn(c, s, id)
  }

  lemma Aborts(c: Config, s: State, a: ActorId) returns (s': State)
    requires a in s.jobs
    ensures Gets(c, s, s') && s' == s.(jobs := s.jobs - {a}, lost := s'.lost, unburied := s'.unburied)
    ensures s'.lost == s.lost + Owed(s.jobs[a])
  {
    OneStep(c, s, Abort(a));
    s' := Apply(c, s, Abort(a));
  }

  lemma SubmitsOnly(c: Config, u: ActorId, p: CreateTaskParams) returns (s': State)
    requires u !in c.schedulers && Accepted(p) && p.idempotencyKey == None
    ensures Gets(c, Init(0), s')
    ensures
      var r := NewRow(p, 0);
      s' == Init(0).(rows := map[0 := r],
                     jobs := map[u := if r.status == Scheduled then ZAdding(0, r.runAt) else Publishing(0, 0, Created)])
  {
    OneStep(c, Init(0), Submit(u, 0, p));
    s' := Apply(c, Init(0), Submit(u, 0, p));
  }

  /** A creator whose ZADD fails leaves a scheduled row that is never dispatched. */
  lemma FailedZAddStrands(c: Config)
    ensures Strands(c, Scheduled)
  {
    var u := FreshActor(c.schedulers);
    var s1 := SubmitsOnly(c, u, CreateTaskParams("echo", None, None, 60 * SECOND, 60, 5));
    var s := Aborts(c, s1, u);
    Onwards(c, Init(0), s1, s);
    GetsIsReachable(c, s);
    assert Matches(s, 0, Scheduled) && !CanGoOn(c, s, 0);
  }

  /** A creator whose publish fails leaves a pending row that is never run. */
  lemma FailedPublishStrands(c: Config)
    ensures Strands(c, Pending)
  {
    var u := FreshActor(c.schedulers);
    var s1 := SubmitsOnly(c, u, CreateTaskParams("echo", None, None, 0, 60, 5));
    var s := Aborts(c, s1, u);
    Onwards(c, Init(0), s1, s);
    GetsIsReachable(c, s);
    assert Matches(s, 0, Pending) && !CanGoOn(c, s, 0);
  }

  /** A worker has failed its run, and nobody else but the creator has a job. */
  lemma FailedRun(c: Config, u: ActorId, w: ActorId, maxRetries: nat) returns (s: State)
    requires u !in c.schedulers && w !in c.schedulers && u != w
    ensures Gets(c, Init(0), s) && Matches(s, 0, Failed) && s.dead == [] && w in s.jobs
    ensures s.jobs[w] == Finalizing(0, 0, maxRetries, "", false, Worker(Message(0, 0)))
    ensures forall b :: b in s.jobs && b != w ==> s.jobs[b] == CountingSubmitted(0)
  {
    var s1 := SubmitsOne(c, u, CreateTaskParams("echo", None, None, 0, 60, maxRetries));
    var s2 := RunsTask(c, s1, w, 0);
    Onwards(c, Init(0), s1, s2);
    s := Fails(c, s2, w, Message(0, 0));
    Onwards(c, Init(0), s2, s);
  }

  /** A worker that dies between its MarkFailed and its CompleteFailure leaves a failed row for ever. */
  lemma AbandonedFailureStrands(c: Config)
    ensures Strands(c, Failed)
  {
    var u := FreshActor(c.schedulers);
    var w := FreshActor(c.schedulers + {u});
    var s1 := FailedRun(c, u, w, 5);
    var s := Aborts(c, s1, w);
    Onwards(c, Init(0), s1, s);
    GetsIsReachable(c, s);
    assert Matches(s, 0, Failed) && !CanGoOn(c, s, 0);
  }

  /** A worker's last attempt has failed, and it owes the counter and the dead letter. */
  lemma DeadRun(c: Config, u: ActorId, w: ActorId) returns (s: State)
    requires u !in c.schedulers && w !in c.schedulers && u != w
    ensures Gets(c, Init(0), s) && Matches(s, 0, Dead) && s.dead == [] && w in s.jobs
    ensures forall b :: b in s.jobs && b != w ==> s.jobs[b] == CountingSubmitted(0)
  {
    var s1 := FailedRun(c, u, w, 0);
    s := Dies(c, s1, w);
    Onwards(c, Init(0), s1, s);
  }

  lemma Dies(c: Config, s: State, a: ActorId) returns (s': State)
    requires a in s.jobs && s.jobs[a].Finalizing? && s.jobs[a].retryCount == s.jobs[a].maxRetries
    requires Matches(s, s.jobs[a].task, Failed) && s.jobs[a].owner.Worker?
    ensures Gets(c, s, s') && Matches(s', s.jobs[a].task, Dead) && s'.dead == s.dead
    ensures a in s'.jobs && forall b :: b in s'.jobs && b != a ==> b in s.jobs && s'.jobs[b] == s.jobs[b]
  {
    TwoSteps(c, s, Advance(a), Advance(a));
    s' := Apply(c, Apply(c, s, Advance(a)), Advance(a));
  }

  /** In every configuration a worker that dies before its dead letter leaves a dead row without one for ever. */
  lemma DeadLettersGetLost(c: Config)
    ensures exists s, id :: Reachable(c, s) && Matches(s, id, Dead) && !CanBeRecorded(c, s, id)
  {
    var u := FreshActor(c.schedulers);
    var w := FreshActor(c.schedulers + {u});
    var s1 := DeadRun(c, u, w);
    var s := Aborts(c, s1, w);
    Onwards(c, Init(0), s1, s);
    GetsIsReachable(c, s);
    RecordedExactlyIfOwed(c, s, 0);
    assert !Recorded(s, 0) && !SomebodyBuries(c, s, 0);
  }

  /** Without pending recovery a worker that dies before its claim leaves a row that is never run, although no step that
      was owed was cut off: the message is still pending, for nobody. */
  lemma DeadWorkerStrands(c: Config)
    requires !c.recovers
    ensures exists s, id :: Reachable(c, s) && id in s.rows && s.lost == {} && !CanGoOn(c, s, id)
  {
    var u := FreshActor(c.schedulers);
    var w := FreshActor(c.schedulers + {u});
    var s1 := SubmitsOne(c, u, CreateTaskParams("echo", None, None, 0, 60, 5));
    OneStep(c, s1, Deliver(w));
    var s2 := Apply(c, s1, Deliver(w));
    Onwards(c, Init(0), s1, s2);
    var s := Aborts(c, s2, w);
    Onwards(c, Init(0), s2, s);
    GetsIsReachable(c, s);
    assert Matches(s, 0, Pending) && !CanGoOn(c, s, 0);
  }

  /** Only the loss of an owed step strands a task, if and only if there is pending recovery. */
  lemma OnlyLossesStrandExactlyWithRecovery(c: Config)
    ensures c.recovers <==> forall s, id :: Reachable(c, s) && id in s.rows && id !in s.lost ==> CanGoOn(c, s, id)
  {
    if c.recovers {
      forall s, id | Reachable(c, s) && id in s.rows && id !in s.lost ensures CanGoOn(c, s, id) {
        ReachableKeepsInv(c, s);
        WillGoOn(c, s, id);
      }
    } else {
      DeadWorkerStrands(c);
    }
  }

  /** A recorded loss need not strand its task: a pending row is run by any un-acked message of it, also by one of an
      earlier attempt whose worker died before its XACK. */
  lemma LostCanGoOn(c: Config)
    requires c.schedulers != {} && c.scanLimit > 0 && c.recovers
    ensures exists s, id :: Reachable(c, s) && id in s.lost && Matches(s, id, Pending) && CanGoOn(c, s, id)
  {
    var a :| a in c.schedulers;
    var u := FreshActor(c.schedulers);
    var w := FreshActor(c.schedulers + {u});
    var s1 := DueRetry(c, a, u, w);
    var s2 := TakesTheRetry(c, s1, a);
    Onwards(c, Init(0), s1, s2);
    var s := Aborts(c, s2, a);
    Onwards(c, Init(0), s2, s);
    GetsIsReachable(c, s);
    assert s.stream[0].task == 0 && Unacked(s, 0);
    assert HasAnyMessage(c, s, 0);
  }

  lemma DueRetry(c: Config, a: ActorId, u: ActorId, w: ActorId) returns (s: State)
    requires a in c.schedulers && u !in c.schedulers && w !in c.schedulers && u != w
    ensures Gets(c, Init(0), s) && s.rows.Keys == {0} && IsDueRetrying(s.rows[0], s.now)
    ensures s.zset == map[] && s.ticks == map[] && a !in s.jobs && s.stream == [Entry(0, 0)] && 0 in s.pel
  {
    var s1 := SubmitsOne(c, u, CreateTaskParams("echo", None, None, 0, 60, 5));
    var s2 := RunsAndFails(c, s1, w, 0);
    Onwards(c, Init(0), s1, s2);
    s := s2.(now := 60 * SECOND);
    Waits(c, s2, s.now);
    Onwards(c, Init(0), s2, s);
  }

  lemma TakesTheRetry(c: Config, s: State, a: ActorId) returns (s': State)
    requires a in c.schedulers && c.scanLimit > 0 && s.rows.Keys == {0} && IsDueRetrying(s.rows[0], s.now)
    requires s.zset == map[] && s.ticks == map[] && a !in s.jobs
    ensures Gets(c, s, s') && Matches(s', 0, Pending) && s'.stream == s.stream && s'.pel == s.pel
    ensures a in s'.jobs && s'.jobs[a].Publishing? && s'.jobs[a].task == 0
  {
    var s1 := FindsRetry(c, s, a, 0);
    var s2 := TakesRetry(c, s1, a, 0);
    Onwards(c, s, s1, s2);
    OneStep(c, s2, Advance(a));
    s' := Apply(c, s2, Advance(a));
    Onwards(c, s, s2, s');
  }
}
