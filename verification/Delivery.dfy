/** At-least-once delivery: who still owes a task its next step, and what an ack means. */
module Delivery {
  import opened Basics
  import opened Statuses
  import opened Rows
  import opened Protocol
  import opened Safety

  // ---- An ack closes its attempt ----

  /** Every acked message belongs to an attempt that is over. */
  predicate AckCloses(s: State) {
    forall i :: 0 <= i < s.delivered && i < |s.stream| && i !in s.pel ==>
      s.stream[i].task in s.rows && AttemptOver(s.rows[s.stream[i].task], s.stream[i].attempt)
  }

  lemma AdvancePel(c: Config, s: State, a: ActorId, i: nat)
    requires a in s.jobs && i in s.pel && i !in DoAdvance(c, s, a).pel
    ensures s.jobs[a].Acking? && s.jobs[a].message.entry == i
  {}

  lemma OtherPel(c: Config, s: State, x: Action, i: nat)
    requires Enabled(c, s, x) && !x.Advance? && 0 <= i < DoOther(c, s, x).delivered && i !in DoOther(c, s, x).pel
    ensures i < s.delivered && i !in s.pel
  {}

  lemma OverStable(r: Row, r': Row, k: int)
    requires RowStep(r, r') && AttemptOver(r, k)
    ensures AttemptOver(r', k)
  {}

  lemma StepAckCloses(c: Config, s: State, x: Action)
    requires Rooted(c, s) && AckCloses(s) && Enabled(c, s, x)
    ensures AckCloses(Apply(c, s, x))
  {
    var s' := Apply(c, s, x);
    StepFrame(c, s, x);
    forall i | 0 <= i < s'.delivered && i < |s'.stream| && i !in s'.pel
      ensures s'.stream[i].task in s'.rows && AttemptOver(s'.rows[s'.stream[i].task], s'.stream[i].attempt)
    {
      AckedEntry(c, s, x, i);
      OverStable(s.rows[s.stream[i].task], s'.rows[s.stream[i].task], s.stream[i].attempt);
    }
  }

  lemma AckedEntry(c: Config, s: State, x: Action, i: nat)
    requires Rooted(c, s) && AckCloses(s) && Enabled(c, s, x)
    requires i < Apply(c, s, x).delivered && i !in Apply(c, s, x).pel
    ensures i < |s.stream| && s.stream[i].task in s.rows
    ensures AttemptOver(s.rows[s.stream[i].task], s.stream[i].attempt)
  {
    if x.Advance? {
      assert JobOk(s, s.jobs[x.actor]);
      if i in s.pel { AdvancePel(c, s, x.actor, i); }
    } else {
      OtherPel(c, s, x, i);
    }
  }

  // ---- One message for each attempt ----

  /** The stream entry a job is about to append. */
  function Owes(j: Job): set<Entry> {
    match j
    case Publishing(id, k, _) => {Entry(id, k)}
    case _ => {}
  }

  predicate OneMessage(s: State) {
    && (forall i, j :: 0 <= i < j < |s.stream| ==> s.stream[i] != s.stream[j])
    && (forall a, i :: a in s.jobs && 0 <= i < |s.stream| ==> s.stream[i] !in Owes(s.jobs[a]))
    && (forall a, b :: a in s.jobs && b in s.jobs && a != b ==> Owes(s.jobs[a]) !! Owes(s.jobs[b]))
  }

  lemma AdvanceDebt(c: Config, s: State, a: ActorId, e: Entry)
    requires a in s.jobs && JobOk(s, s.jobs[a]) && NextJob(c, s, a).Some? && e in Owes(NextJob(c, s, a).value)
    ensures e.task in s.rows && !Opened(s.rows[e.task], e.attempt)
  {}

  lemma OtherDebt(c: Config, s: State, x: Action, e: Entry)
    requires Enabled(c, s, x) && !x.Advance? && !x.Wait? && x.actor in DoOther(c, s, x).jobs
    requires e in Owes(DoOther(c, s, x).jobs[x.actor])
    ensures x.Submit? && e.task !in s.rows
  {}

  /** A job comes to owe an entry only by opening a new attempt. */
  lemma NewDebt(c: Config, s: State, x: Action, e: Entry)
    requires Rooted(c, s) && Enabled(c, s, x) && !x.Wait? && x.actor in Apply(c, s, x).jobs
    requires e in Owes(Apply(c, s, x).jobs[x.actor])
    ensures
      || (x.Submit? && e.task !in s.rows)
      || (e.task in s.rows && !Opened(s.rows[e.task], e.attempt))
  {
    if x.Advance? { AdvanceDebt(c, s, x.actor, e); } else { OtherDebt(c, s, x, e); }
  }

  lemma StreamGrowth(c: Config, s: State, x: Action)
    requires Enabled(c, s, x)
    ensures
      var s' := Apply(c, s, x);
      || s'.stream == s.stream
      || (x.Advance? && exists e :: e in Owes(s.jobs[x.actor]) && s'.stream == s.stream + [e])
  {
    if x.Advance? {
      var j := s.jobs[x.actor];
      if j.Publishing? { assert Entry(j.task, j.attempt) in Owes(j); }
    } else {
      OtherStores(c, s, x);
    }
  }

  lemma FreshDebt(c: Config, s: State, x: Action, e: Entry, b: ActorId)
    requires Rooted(c, s) && Enabled(c, s, x) && !x.Wait? && x.actor in Apply(c, s, x).jobs
    requires e in Owes(Apply(c, s, x).jobs[x.actor])
    ensures e !in s.stream
    ensures b in s.jobs ==> e !in Owes(s.jobs[b])
  {
    NewDebt(c, s, x, e);
    if b in s.jobs { assert JobOk(s, s.jobs[b]); }
  }

  lemma DebtNotPublished(c: Config, s: State, x: Action, a: ActorId, i: nat)
    requires Rooted(c, s) && OneMessage(s) && Enabled(c, s, x)
    requires a in Apply(c, s, x).jobs && i < |Apply(c, s, x).stream|
    ensures Apply(c, s, x).stream[i] !in Owes(Apply(c, s, x).jobs[a])
  {
    var s' := Apply(c, s, x);
    StreamGrowth(c, s, x);
    StepOthers(c, s, x);
    var e := s'.stream[i];
    if e in Owes(s'.jobs[a]) {
      if Some(a) == ActorOf(x) {
        FreshDebt(c, s, x, e, a);
      }
    }
  }

  lemma DebtsApart(c: Config, s: State, x: Action, a: ActorId, b: ActorId)
    requires Rooted(c, s) && OneMessage(s) && Enabled(c, s, x)
    requires a in Apply(c, s, x).jobs && b in Apply(c, s, x).jobs && a != b && Some(b) != ActorOf(x)
    ensures Owes(Apply(c, s, x).jobs[a]) !! Owes(Apply(c, s, x).jobs[b])
  {
    var s' := Apply(c, s, x);
    StepOthers(c, s, x);
    if Some(a) == ActorOf(x) {
      forall e | e in Owes(s'.jobs[a]) ensures e !in Owes(s'.jobs[b]) { FreshDebt(c, s, x, e, b); }
    }
  }

  lemma StepOneMessage(c: Config, s: State, x: Action)
    requires Rooted(c, s) && OneMessage(s) && Enabled(c, s, x)
    ensures OneMessage(Apply(c, s, x))
  {
    var s' := Apply(c, s, x);
    StreamGrowth(c, s, x);
    forall a, i | a in s'.jobs && 0 <= i < |s'.stream| ensures s'.stream[i] !in Owes(s'.jobs[a]) {
      DebtNotPublished(c, s, x, a, i);
    }
    forall a, b | a in s'.jobs && b in s'.jobs && a != b ensures Owes(s'.jobs[a]) !! Owes(s'.jobs[b]) {
      if Some(b) != ActorOf(x) { DebtsApart(c, s, x, a, b); } else { DebtsApart(c, s, x, b, a); }
    }
  }

  // ---- No task is orphaned ----

  predicate Unacked(s: State, i: nat) {
    i >= s.delivered || i in s.pel
  }

  /** From some instant on, the expiry scan selects the row. */
  predicate WillExpire(r: Row) {
    r.startedAt.Some? && IsExpired(r, r.startedAt.value + r.timeoutSeconds * SECOND)
  }

  /** From some instant on, the retry scan selects the row. */
  predicate WillBeDue(r: Row) {
    r.nextRetryAt.Some? && IsDueRetrying(r, r.nextRetryAt.value)
  }

  predicate HasMessage(s: State, e: Entry) {
    exists i :: 0 <= i < |s.stream| && s.stream[i] == e && Unacked(s, i)
  }

  /** A store entry, a scan or a running actor will give the task its next step. */
  predicate Attended(s: State, id: TaskId)
    requires id in s.rows
  {
    var r := s.rows[id];
    match r.status
    case Scheduled => id in s.zset || exists a :: a in s.jobs && s.jobs[a].ZAdding? && id in Owed(s.jobs[a])
    case Pending =>
      HasMessage(s, Entry(id, r.retryCount)) || exists a :: a in s.jobs && Entry(id, r.retryCount) in Owes(s.jobs[a])
    case Running => WillExpire(r)
    case Failed => exists a :: a in s.jobs && id in Held(s.jobs[a])
    case Retrying => WillBeDue(r)
    case _ => true
  }

  predicate NoOrphan(s: State) {
    forall id :: id in s.rows && id !in s.lost ==> Attended(s, id)
  }

  /** The action cuts off the actor that owed the task its next step. */
  predicate CutsOff(s: State, x: Action, id: TaskId) {
    x.Abort? && x.actor in s.jobs && id in Owed(s.jobs[x.actor])
  }

  lemma LostGrows(c: Config, s: State, x: Action, s': State)
    requires Enabled(c, s, x) && s' == Apply(c, s, x)
    ensures s.lost <= s'.lost
    ensures forall id :: CutsOff(s, x, id) ==> id in s'.lost
  {}

  lemma ActsOrStays(c: Config, s: State, x: Action, s': State, a: ActorId)
    requires Enabled(c, s, x) && s' == Apply(c, s, x) && a in s.jobs && !s.jobs[a].Executing? && !s.jobs[a].Burying?
    ensures x == Advance(a) || x == Abort(a) || (a in s'.jobs && s'.jobs[a] == s.jobs[a])
  {}

  lemma ZSetLoss(c: Config, s: State, x: Action, s': State, id: TaskId)
    requires JobsOk(s) && Enabled(c, s, x) && s' == Apply(c, s, x) && id in s.zset && id !in s'.zset
    ensures !Matches(s, id, Scheduled)
  {
    if x.Advance? { assert JobOk(s, s.jobs[x.actor]); }
  }

  lemma ZAdded(c: Config, s: State, a: ActorId)
    requires a in s.jobs && s.jobs[a].ZAdding?
    ensures s.jobs[a].task in DoAdvance(c, s, a).zset
  {}

  lemma ScheduledStays(c: Config, s: State, x: Action, s': State, id: TaskId)
    requires JobsOk(s) && Enabled(c, s, x) && s' == Apply(c, s, x) && !CutsOff(s, x, id)
    requires Matches(s, id, Scheduled) && Attended(s, id) && id in s'.rows && s'.rows[id] == s.rows[id]
    ensures Attended(s', id)
  {
    if id in s.zset {
      if id !in s'.zset { ZSetLoss(c, s, x, s', id); }
    } else {
      var a :| a in s.jobs && s.jobs[a].ZAdding? && id in Owed(s.jobs[a]);
      ActsOrStays(c, s, x, s', a);
      if x == Advance(a) { ZAdded(c, s, a); }
    }
  }

  /** What is acked was handed out and owed its ack. */
  lemma AckedNow(c: Config, s: State, x: Action, s': State, i: nat)
    requires Rooted(c, s) && Enabled(c, s, x) && s' == Apply(c, s, x)
    requires i < |s.stream| && Unacked(s, i) && !Unacked(s', i)
    ensures s.stream[i].task in s.rows && AttemptOver(s.rows[s.stream[i].task], s.stream[i].attempt)
  {
    if x.Advance? {
      assert JobOk(s, s.jobs[x.actor]);
      if i in s.pel { AdvancePel(c, s, x.actor, i); }
    } else {
      OtherPel(c, s, x, i);
    }
  }

  lemma StreamKept(c: Config, s: State, x: Action, s': State)
    requires Enabled(c, s, x) && s' == Apply(c, s, x)
    ensures s.stream <= s'.stream
  {
    StreamGrowth(c, s, x);
  }

  lemma KeepsMessage(c: Config, s: State, x: Action, s': State, e: Entry)
    requires Rooted(c, s) && Enabled(c, s, x) && s' == Apply(c, s, x) && HasMessage(s, e)
    requires Matches(s, e.task, Pending) && s.rows[e.task].retryCount == e.attempt
    ensures HasMessage(s', e)
  {
    var i :| 0 <= i < |s.stream| && s.stream[i] == e && Unacked(s, i);
    StreamKept(c, s, x, s');
    assert s'.stream[i] == e;
    if !Unacked(s', i) { AckedNow(c, s, x, s', i); }
  }

  lemma PendingStays(c: Config, s: State, x: Action, s': State, id: TaskId)
    requires Rooted(c, s) && Enabled(c, s, x) && s' == Apply(c, s, x) && !CutsOff(s, x, id)
    requires Matches(s, id, Pending) && Attended(s, id) && id in s'.rows && s'.rows[id] == s.rows[id]
    ensures Attended(s', id)
  {
    var e := Entry(id, s.rows[id].retryCount);
    if HasMessage(s, e) {
      KeepsMessage(c, s, x, s', e);
    } else {
      var a :| a in s.jobs && e in Owes(s.jobs[a]);
      ActsOrStays(c, s, x, s', a);
      if x == Advance(a) { Published(c, s, a, e); }
    }
  }

  lemma Published(c: Config, s: State, a: ActorId, e: Entry)
    requires StreamOk(s) && a in s.jobs && e in Owes(s.jobs[a])
    ensures HasMessage(DoAdvance(c, s, a), e)
  {
    var s' := DoAdvance(c, s, a);
    assert s'.stream[|s.stream|] == e && Unacked(s', |s.stream|);
  }

  lemma FailedStays(c: Config, s: State, x: Action, s': State, id: TaskId)
    requires JobsOk(s) && Enabled(c, s, x) && s' == Apply(c, s, x) && !CutsOff(s, x, id)
    requires Matches(s, id, Failed) && Attended(s, id) && id in s'.rows && s'.rows[id] == s.rows[id]
    ensures Attended(s', id)
  {
    var a :| a in s.jobs && id in Held(s.jobs[a]);
    ActsOrStays(c, s, x, s', a);
    if x == Advance(a) { HolderActs(c, s, a, id); }
  }

  lemma HolderActs(c: Config, s: State, a: ActorId, id: TaskId)
    requires a in s.jobs && JobOk(s, s.jobs[a]) && id in Held(s.jobs[a])
    ensures
      var s' := DoAdvance(c, s, a);
      || (a in s'.jobs && id in Held(s'.jobs[a]))
      || (id in s'.rows && s'.rows[id].status != Failed)
  {}

  /** A write leaves the task with somebody to attend to it. */
  lemma WriteAttends(c: Config, s: State, x: Action, id: TaskId)
    requires Rooted(c, s) && Enabled(c, s, x) && id in Apply(c, s, x).rows
    requires id !in s.rows || s.rows[id] != Apply(c, s, x).rows[id]
    ensures Attended(Apply(c, s, x), id)
  {
    if x.Advance? {
      AdvanceAttends(c, s, x.actor, id);
    } else {
      OtherRows(c, s, x);
      SubmitAttends(c, s, x);
    }
  }

  lemma SubmitAttends(c: Config, s: State, x: Action)
    requires Enabled(c, s, x) && x.Submit? && !KeyTaken(s.rows, x.params.idempotencyKey)
    ensures Attended(DoOther(c, s, x), x.task)
  {
    var s' := DoOther(c, s, x);
    var j := s'.jobs[x.actor];
    assert Entry(x.task, 0) in Owes(j) || x.task in Owed(j);
  }

  lemma DispatchAttends(c: Config, s: State, a: ActorId)
    requires a in s.jobs && s.jobs[a].Dispatching? && RowWrite(c, s, a).Some?
    ensures Attended(DoAdvance(c, s, a), s.jobs[a].task)
  {
    var s' := DoAdvance(c, s, a);
    assert Entry(s.jobs[a].task, s.rows[s.jobs[a].task].retryCount) in Owes(s'.jobs[a]);
  }

  lemma MarkAttends(c: Config, s: State, a: ActorId)
    requires a in s.jobs && (s.jobs[a].Recovering? || s.jobs[a].Failing?) && RowWrite(c, s, a).Some?
    ensures Attended(DoAdvance(c, s, a), TaskOf(s.jobs[a]))
  {
    var s' := DoAdvance(c, s, a);
    assert TaskOf(s.jobs[a]) in Held(s'.jobs[a]);
  }

  lemma OutcomeAttends(c: Config, s: State, a: ActorId)
    requires RowsOk(s) && a in s.jobs && JobOk(s, s.jobs[a]) && RowWrite(c, s, a).Some?
    requires s.jobs[a].Claiming? || s.jobs[a].Succeeding? || s.jobs[a].Completing?
    ensures Attended(DoAdvance(c, s, a), TaskOf(s.jobs[a]))
  {
    assert RowShape(s.rows[TaskOf(s.jobs[a])]);
  }

  lemma AdvanceAttends(c: Config, s: State, a: ActorId, id: TaskId)
    requires Rooted(c, s) && a in s.jobs && id in s.rows
    requires id in NextRows(c, s, a) && s.rows[id] != NextRows(c, s, a)[id]
    ensures Attended(DoAdvance(c, s, a), id)
  {
    var j := s.jobs[a];
    assert JobOk(s, j);
    assert id == TaskOf(j) && RowWrite(c, s, a).Some?;
    if j.Dispatching? { DispatchAttends(c, s, a); }
    else if j.Recovering? || j.Failing? { MarkAttends(c, s, a); }
    else { OutcomeAttends(c, s, a); }
  }

  /** Whatever happens, a task stays attended to, unless the action cuts off the actor that owed its next step. */
  lemma StaysAttended(c: Config, s: State, x: Action, s': State, id: TaskId)
    requires Rooted(c, s) && Enabled(c, s, x) && s' == Apply(c, s, x) && !CutsOff(s, x, id)
    requires id in s.rows && Attended(s, id) && id in s'.rows
    ensures Attended(s', id)
  {
    if s'.rows[id] != s.rows[id] { WriteAttends(c, s, x, id); }
    else if Matches(s, id, Scheduled) { ScheduledStays(c, s, x, s', id); }
    else if Matches(s, id, Pending) { PendingStays(c, s, x, s', id); }
    else if Matches(s, id, Failed) { FailedStays(c, s, x, s', id); }
  }

  lemma StepNoOrphan(c: Config, s: State, x: Action)
    requires Rooted(c, s) && NoOrphan(s) && Enabled(c, s, x)
    ensures NoOrphan(Apply(c, s, x))
  {
    var s' := Apply(c, s, x);
    LostGrows(c, s, x, s');
    forall id | id in s'.rows && id !in s'.lost
      ensures Attended(s', id)
    {
      if id in s.rows { StaysAttended(c, s, x, s', id); } else { WriteAttends(c, s, x, id); }
    }
  }
}
