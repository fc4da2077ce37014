/** The promises of the task queue, over every reachable state and every run. */
module Theorems {
  import opened Basics
  import opened Statuses
  import opened Rows
  import opened Protocol
  import opened Safety
  import opened Delivery
  import opened DeadLetters
  import opened Guarantees
  import opened Histories
  import opened Carriers
  import opened Stranded

  /** No task is orphaned: unless an action that owed its next step was cut short, something will take that step. */
  lemma NoTaskIsOrphaned(c: Config, s: State, id: TaskId)
    requires Reachable(c, s) && id in s.rows && !s.rows[id].status.IsTerminal() && id !in s.lost
    ensures
      var r := s.rows[id];
      || (r.status == Scheduled && id in s.zset)
      || (r.status == Pending && HasMessage(s, Entry(id, r.retryCount)))
      || (r.status == Running && WillExpire(r))
      || (r.status == Retrying && WillBeDue(r))
      || exists a :: a in s.jobs && id in Owed(s.jobs[a])
  {
    ReachableKeepsInv(c, s);
    WhoAttends(s, id);
  }

  lemma WhoAttends(s: State, id: TaskId)
    requires id in s.rows && Attended(s, id) && !s.rows[id].status.IsTerminal()
    ensures
      var r := s.rows[id];
      || (r.status == Scheduled && id in s.zset)
      || (r.status == Pending && HasMessage(s, Entry(id, r.retryCount)))
      || (r.status == Running && WillExpire(r))
      || (r.status == Retrying && WillBeDue(r))
      || exists a :: a in s.jobs && id in Owed(s.jobs[a])
  {
    var r := s.rows[id];
    if r.status == Pending && !HasMessage(s, Entry(id, r.retryCount)) {
      var a :| a in s.jobs && Entry(id, r.retryCount) in Owes(s.jobs[a]);
      assert id in Owed(s.jobs[a]);
    } else if r.status == Failed {
      var a :| a in s.jobs && id in Held(s.jobs[a]);
      assert id in Owed(s.jobs[a]);
    }
  }

  /** An acked message belongs to an attempt that is over, so the message of a pending row's attempt is not acked. */
  lemma AckClosesTheAttempt(c: Config, s: State, i: nat)
    requires Reachable(c, s) && i < s.delivered
    ensures i < |s.stream| && s.stream[i].task in s.rows
    ensures i !in s.pel ==> AttemptOver(s.rows[s.stream[i].task], s.stream[i].attempt)
    ensures
      var r := s.rows[s.stream[i].task];
      r.status == Pending && r.retryCount == s.stream[i].attempt ==> i in s.pel
  {
    ReachableKeepsInv(c, s);
    assert EntryOk(s, s.stream[i]);
  }

  /** Between a MarkFailed and its CompleteFailure the actor is alone with the task: the row is failed, with the
      retry_count the actor read, so the CompleteFailure matches it and adds to that very count. */
  lemma FinalizationIsExclusive(c: Config, s: State, a: ActorId, id: TaskId)
    requires Reachable(c, s) && a in s.jobs && id in Held(s.jobs[a])
    ensures forall b :: b in s.jobs && b != a ==> id !in Held(s.jobs[b])
    ensures Matches(s, id, Failed)
    ensures s.jobs[a].Finalizing? ==> s.jobs[a].retryCount == s.rows[id].retryCount
    ensures s.jobs[a].Completing? ==>
      var r := RowWrite(c, s, a);
      && r.Some?
      && (|| (r.value.status == Retrying && r.value.retryCount == s.rows[id].retryCount + 1)
          || (r.value.status == Dead && r.value.retryCount == s.rows[id].retryCount))
  {
    ReachableKeepsInv(c, s);
    assert JobOk(s, s.jobs[a]);
  }

  /** While an actor stands between a MarkFailed and its CompleteFailure, no action of another changes the row. */
  lemma NobodyElseFinalizes(c: Config, s: State, x: Action, a: ActorId, id: TaskId)
    requires Reachable(c, s) && a in s.jobs && id in Held(s.jobs[a]) && id in s.rows
    requires Enabled(c, s, x) && ActorOf(x) != Some(a)
    ensures var s' := Apply(c, s, x); id in s'.rows && s'.rows[id] == s.rows[id] && a in s'.jobs && s'.jobs[a] == s.jobs[a]
  {
    ReachableKeepsInv(c, s);
    HeldFrozen(c, s, x, a, id);
    StepOthers(c, s, x);
  }

  /** A dead-letter record names a dead row with the same error and retry_count, no other record does, and neither
      the record nor the row ever changes again. */
  lemma DeadLettersAgreeForEver(c: Config, s: State, xs: seq<Action>, i: nat)
    requires Reachable(c, s) && Valid(c, s, xs) && i < |s.dead|
    ensures
      var s' := RunFrom(c, s, xs);
      var d := s.dead[i];
      && i < |s'.dead| && s'.dead[i] == d
      && (forall j :: 0 <= j < |s'.dead| && j != i ==> s'.dead[j].task != d.task)
      && d.task in s.rows && d.task in s'.rows && s'.rows[d.task] == s.rows[d.task]
      && IsDead(s', d.task, d.failure, d.retryCount)
  {
    ReachableKeepsInv(c, s);
    RunKeepsInv(c, s, xs);
    RunGrows(c, s, xs);
    assert IsDead(s, s.dead[i].task, s.dead[i].failure, s.dead[i].retryCount);
    TerminalRowsAreFrozen(c, s, xs, s.dead[i].task);
  }

  /** Every dead row has its record, unless somebody still owes it, or its writing was cut short. */
  lemma DeadRowsAreRecorded(c: Config, s: State, id: TaskId)
    requires Reachable(c, s) && c.workerBuries && c.schedulerBuries && Matches(s, id, Dead)
    ensures Recorded(s, id) || BurialOwed(s, id) || id in s.unburied
  {
    ReachableKeepsInv(c, s);
  }

  /** The same for each owner by itself: if the worker, or the scheduler, that turned the row dead has a dead publisher,
      its record is written, owed or cut off ever after. */
  lemma {:induction false} DeathIsRecorded(c: Config, s: State, x: Action, ys: seq<Action>, id: TaskId)
    requires Reachable(c, s) && Enabled(c, s, x) && Valid(c, Apply(c, s, x), ys)
    requires Matches(Apply(c, s, x), id, Dead) && !Matches(s, id, Dead)
    ensures x.Advance? && s.jobs[x.actor].Completing?
    ensures HasPublisher(c, s.jobs[x.actor].owner) ==> BurialAssured(c, RunFrom(c, Apply(c, s, x), ys), id)
    decreases |ys|
  {
    ReachableKeepsInv(c, s);
    DeathIsOwned(c, s, x, Apply(c, s, x), id);
    if ys != [] && HasPublisher(c, s.jobs[x.actor].owner) {
      var init := ys[..|ys| - 1];
      DeathIsRecorded(c, s, x, init, id);
      StepInv(c, s, x);
      RunKeepsInv(c, Apply(c, s, x), init);
      AssuredStays(c, RunFrom(c, Apply(c, s, x), init), ys[|ys| - 1], RunFrom(c, Apply(c, s, x), ys), id);
    }
  }

  /** Which columns are set follows from the status, so the NOT NULL filters of the two scans hide no row: a running
      row is found from the end of its timeout on, and a retrying one from its next_retry_at on, and not before. */
  lemma ScansHideNothing(c: Config, s: State, id: TaskId, t: int)
    requires Reachable(c, s) && id in s.rows
    ensures RowShape(s.rows[id])
    ensures
      var r := s.rows[id];
      && (r.status == Running ==>
            r.startedAt.Some? && (id in ExpiredTasks(s.rows, t) <==> r.startedAt.value + r.timeoutSeconds * SECOND <= t))
      && (r.status == Retrying ==>
            r.nextRetryAt.Some? && (id in DueRetryingTasks(s.rows, t) <==> r.nextRetryAt.value <= t))
  {
    ReachableKeepsInv(c, s);
  }

  /** The ZSET scan is exact up to a second: a member whose run_at has come is due, and none is due a full second
      early. */
  lemma ZSetScanIsExact(c: Config, s: State, id: TaskId, now: int)
    requires Reachable(c, s) && id in s.zset
    ensures id in s.rows
    ensures s.rows[id].runAt <= now ==> id in DueMembers(s.zset, now)
    ensures id in DueMembers(s.zset, now) ==> s.rows[id].runAt < now + SECOND
  {
    ReachableKeepsInv(c, s);
  }

  /** What the backlog gauge counts at an instant is there to be taken up: a pending task's message, or the actor that
      owes it; a due delayed task's ZSET member, or its creator; a due retry by the scan.  Steps cut off are the exception. */
  lemma BacklogCanBeFound(c: Config, s: State, id: TaskId, now: int)
    requires Reachable(c, s) && id in s.rows && id !in s.lost
    ensures
      var r := s.rows[id];
      && (r.status == Pending ==>
            HasMessage(s, Entry(id, r.retryCount)) || exists a :: a in s.jobs && Entry(id, r.retryCount) in Owes(s.jobs[a]))
      && (r.status == Scheduled && r.runAt <= now ==>
            id in DueMembers(s.zset, now) || exists a :: a in s.jobs && s.jobs[a].ZAdding? && s.jobs[a].task == id)
      && (r.status == Retrying && r.nextRetryAt.Some? && r.nextRetryAt.value <= now <==> id in DueRetryingTasks(s.rows, now))
  {
    ReachableKeepsInv(c, s);
    assert Attended(s, id);
    if s.rows[id].status == Scheduled && id in s.zset { ZSetScanIsExact(c, s, id, now); }
  }

  /** The stream never holds two messages for one attempt, nor more than retry_count + 1 for one task. */
  lemma OneMessageForEachAttempt(c: Config, s: State, id: TaskId)
    requires Reachable(c, s) && id in s.rows
    ensures forall i, j :: 0 <= i < j < |s.stream| ==> s.stream[i] != s.stream[j]
    ensures Messages(s.stream, id) <= s.rows[id].retryCount + 1 <= s.rows[id].maxRetries + 1
  {
    ReachableKeepsInv(c, s);
    MessagesAreBounded(c, s, id);
  }

  // ---- What the program does not promise ----

  /** Some run takes the row out of failed. */
  ghost predicate CanLeaveFailed(c: Config, s: State, id: TaskId) {
    exists xs :: Valid(c, s, xs) && id in RunFrom(c, s, xs).rows && RunFrom(c, s, xs).rows[id].status != Failed
  }

  /** The holder's next two actions at most bring the row out of failed. */
  lemma HolderFinishes(c: Config, s: State, a: ActorId, id: TaskId) returns (xs: seq<Action>)
    requires Inv(c, s) && a in s.jobs && id in Held(s.jobs[a])
    ensures Valid(c, s, xs) && id in RunFrom(c, s, xs).rows && RunFrom(c, s, xs).rows[id].status != Failed
    decreases s.jobs[a].Finalizing?
  {
    assert JobOk(s, s.jobs[a]);
    var x := Advance(a);
    var s1 := Apply(c, s, x);
    Extend(c, s, [], x);
    StepInv(c, s, x);
    HolderActs(c, s, a, id);
    xs := [] + [x];
    if s.jobs[a].Finalizing? {
      var ys := HolderFinishes(c, s1, a, id);
      Concat(c, s, xs, ys);
      xs := xs + ys;
    }
  }

  /** A failed row is ever finalized exactly if some actor is between its MarkFailed and its CompleteFailure: no scan
      picks it up after a crash there. */
  lemma FailedIsFinalizedOnlyByItsHolder(c: Config, s: State, id: TaskId)
    requires Reachable(c, s) && Matches(s, id, Failed)
    ensures CanLeaveFailed(c, s, id) <==> SomebodyHolds(s, id)
  {
    ReachableKeepsInv(c, s);
    if SomebodyHolds(s, id) {
      var a :| a in s.jobs && id in Held(s.jobs[a]);
      var xs := HolderFinishes(c, s, a, id);
    } else {
      forall xs | Valid(c, s, xs)
        ensures id in RunFrom(c, s, xs).rows && RunFrom(c, s, xs).rows[id].status == Failed
      {
        StrandedForEver(c, s, xs, id);
      }
    }
  }
}
