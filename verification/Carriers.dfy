/** What can still carry a task on: a store entry or an actor. */
module Carriers {
  import opened Basics
  import opened Statuses
  import opened Rows
  import opened Protocol
  import opened Safety
  import opened Delivery

  /** The entry can still be handed to somebody: by a read, or by a claim if there is any pending recovery. */
  predicate Open(c: Config, s: State, i: nat) {
    s.delivered <= i || (c.recovers && i in s.pel)
  }

  predicate HasAnyMessage(c: Config, s: State, id: TaskId) {
    exists i :: 0 <= i < |s.stream| && s.stream[i].task == id && Open(c, s, i)
  }

  /** The job brings a message of the task into the stream, or holds one it may still claim the task with. */
  predicate OnItsWay(j: Job, id: TaskId) {
    (j.Publishing? || j.Received? || j.Claiming?) && TaskOf(j) == id
  }

  /** The message a worker's job is about. */
  function MessageOf(j: Job): Option<Message> {
    match j
    case Finalizing(_, _, _, _, _, owner) => if owner.Worker? then Some(owner.message) else None
    case Completing(_, _, _, owner) => if owner.Worker? then Some(owner.message) else None
    case Burying(_, _, _, owner) => if owner.Worker? then Some(owner.message) else None
    case CountingOutcome(_, _, _, _, m) => Some(m)
    case Failing(m, _, _) => Some(m)
    case _ => if OnWorkerPath(j) then Some(j.message) else None
  }

  /** Some goroutine is at work on the entry. */
  predicate HandledBy(j: Job, e: nat) {
    MessageOf(j).Some? && MessageOf(j).value.entry == e
  }

  predicate SomebodyAdds(s: State, id: TaskId) {
    exists a :: a in s.jobs && s.jobs[a].ZAdding? && s.jobs[a].task == id
  }

  predicate SomebodyHolds(s: State, id: TaskId) {
    exists a :: a in s.jobs && id in Held(s.jobs[a])
  }

  predicate SomebodyBrings(s: State, id: TaskId) {
    exists a :: a in s.jobs && OnItsWay(s.jobs[a], id)
  }

  /** A scheduled task needs its ZSET member or its creator; a pending one a message that can still be handed out, of
      whatever attempt, or an actor that publishes or holds one; a failed one the actor that finalizes it; the scans find
      the others. */
  predicate CanGoOn(c: Config, s: State, id: TaskId)
    requires id in s.rows
  {
    match s.rows[id].status
    case Scheduled => id in s.zset || SomebodyAdds(s, id)
    case Pending => HasAnyMessage(c, s, id) || SomebodyBrings(s, id)
    case Failed => SomebodyHolds(s, id)
    case _ => true
  }

  lemma WillGoOn(c: Config, s: State, id: TaskId)
    requires c.recovers && id in s.rows && Attended(s, id)
    ensures CanGoOn(c, s, id)
  {
    if Matches(s, id, Pending) {
      var e := Entry(id, s.rows[id].retryCount);
      if HasMessage(s, e) {
        var i :| 0 <= i < |s.stream| && s.stream[i] == e && Unacked(s, i);
        assert s.stream[i].task == id && Open(c, s, i);
      } else {
        var a :| a in s.jobs && e in Owes(s.jobs[a]);
        assert OnItsWay(s.jobs[a], id);
      }
    }
  }

  // ---- Without pending recovery and without faults, what can go on stays so ----

  /** The action is no fault of anybody. */
  predicate Sane(x: Action) {
    !x.Abort? && !x.BuryFails? && !x.StopTick?
  }

  lemma WrittenGoesOn(c: Config, s: State, x: Action, s': State, id: TaskId)
    requires Rooted(c, s) && Enabled(c, s, x) && s' == Apply(c, s, x)
    requires id in s.rows && id in s'.rows && s'.rows[id] != s.rows[id]
    ensures CanGoOn(c, s', id)
  {
    WriteAttends(c, s, x, id);
    if x.Advance? { AdvanceGoesOn(c, s, x.actor, id); } else { OtherRows(c, s, x); }
  }

  lemma AdvanceGoesOn(c: Config, s: State, a: ActorId, id: TaskId)
    requires a in s.jobs && JobOk(s, s.jobs[a]) && id in s.rows
    requires id in NextRows(c, s, a) && NextRows(c, s, a)[id] != s.rows[id]
    ensures NextRows(c, s, a)[id].status != Scheduled
    ensures NextRows(c, s, a)[id].status == Pending ==> SomebodyBrings(DoAdvance(c, s, a), id)
  {
    if s.jobs[a].Dispatching? { assert OnItsWay(DoAdvance(c, s, a).jobs[a], id); }
  }

  lemma MessageGoesOn(c: Config, s: State, x: Action, s': State, id: TaskId)
    requires !c.recovers && Enabled(c, s, x) && s' == Apply(c, s, x) && HasAnyMessage(c, s, id)
    ensures HasAnyMessage(c, s', id) || SomebodyBrings(s', id)
  {
    var i :| 0 <= i < |s.stream| && s.stream[i].task == id && Open(c, s, i);
    StreamKept(c, s, x, s');
    assert s'.stream[i].task == id;
    if !Open(c, s', i) { OpenIsDelivered(c, s, x, s', i); }
  }

  lemma OpenIsDelivered(c: Config, s: State, x: Action, s': State, i: nat)
    requires !c.recovers && Enabled(c, s, x) && s' == Apply(c, s, x) && i < |s.stream| && Open(c, s, i) && !Open(c, s', i)
    ensures SomebodyBrings(s', s.stream[i].task)
  {
    assert x.Deliver? && OnItsWay(s'.jobs[x.actor], s.stream[i].task);
  }

  lemma BringerGoesOn(c: Config, s: State, a: ActorId, id: TaskId)
    requires StreamOk(s) && a in s.jobs && OnItsWay(s.jobs[a], id) && Matches(s, id, Pending)
    ensures
      var s' := DoAdvance(c, s, a);
      || (id in s'.rows && s'.rows[id] != s.rows[id])
      || HasAnyMessage(c, s', id)
      || (a in s'.jobs && OnItsWay(s'.jobs[a], id))
  {
    if s.jobs[a].Publishing? {
      var s' := DoAdvance(c, s, a);
      assert s'.stream[|s.stream|].task == id && Open(c, s', |s.stream|);
    }
  }

  lemma BringerStays(c: Config, s: State, x: Action, s': State, id: TaskId)
    requires StreamOk(s) && Enabled(c, s, x) && Sane(x) && s' == Apply(c, s, x) && Matches(s, id, Pending)
    requires id in s'.rows && s'.rows[id] == s.rows[id] && SomebodyBrings(s, id)
    ensures HasAnyMessage(c, s', id) || SomebodyBrings(s', id)
  {
    var a :| a in s.jobs && OnItsWay(s.jobs[a], id);
    ActsOrStays(c, s, x, s', a);
    if x == Advance(a) { BringerGoesOn(c, s, a, id); }
  }

  lemma PendingGoesOn(c: Config, s: State, x: Action, s': State, id: TaskId)
    requires !c.recovers && StreamOk(s) && Enabled(c, s, x) && Sane(x) && s' == Apply(c, s, x)
    requires Matches(s, id, Pending) && CanGoOn(c, s, id) && id in s'.rows && s'.rows[id] == s.rows[id]
    ensures CanGoOn(c, s', id)
  {
    if HasAnyMessage(c, s, id) {
      MessageGoesOn(c, s, x, s', id);
    } else {
      BringerStays(c, s, x, s', id);
    }
  }

  lemma StaysOn(c: Config, s: State, x: Action, s': State, id: TaskId)
    requires !c.recovers && Rooted(c, s) && Enabled(c, s, x) && Sane(x) && s' == Apply(c, s, x)
    requires id in s.rows && CanGoOn(c, s, id) && id in s'.rows
    ensures CanGoOn(c, s', id)
  {
    if s'.rows[id] != s.rows[id] { WrittenGoesOn(c, s, x, s', id); }
    else if Matches(s, id, Scheduled) { ScheduledStays(c, s, x, s', id); }
    else if Matches(s, id, Pending) { PendingGoesOn(c, s, x, s', id); }
    else if Matches(s, id, Failed) { FailedStays(c, s, x, s', id); }
  }
}
