/**
 Which tasks can still be finished.  A cut-off publish, ZADD or finalization strands its task unless something else
 can still take it on; what that is can be read from the stores and the actors.
*/
module Stranded {
  import opened Basics
  import opened Statuses
  import opened Rows
  import opened Protocol
  import opened Safety
  import opened Delivery
  import opened Guarantees
  import opened Origins
  import opened Carriers
  import opened Draining

  // ---- A stranded task stays stranded ----

  lemma NoNewMember(c: Config, s: State, x: Action, s': State, id: TaskId)
    requires Rooted(c, s) && OriginsOk(s) && Enabled(c, s, x) && s' == Apply(c, s, x)
    requires Matches(s, id, Scheduled) && !CanGoOn(c, s, id)
    ensures Matches(s', id, Scheduled) && s'.rows[id] == s.rows[id] && id !in s'.zset
  {
    if !Matches(s', id, Scheduled) { LeavesScheduled(c, s, x, s', id); }
    if id in s'.zset { ZSetGrowth(c, s, x, s', id); }
    StepFrame(c, s, x);
  }

  lemma ScheduledStaysStranded(c: Config, s: State, x: Action, s': State, id: TaskId)
    requires Rooted(c, s) && OriginsOk(s) && Enabled(c, s, x) && s' == Apply(c, s, x)
    requires Matches(s, id, Scheduled) && !CanGoOn(c, s, id)
    ensures id in s'.rows && s'.rows[id] == s.rows[id] && !CanGoOn(c, s', id)
  {
    NoNewMember(c, s, x, s', id);
    StepOthers(c, s, x);
    forall a | a in s'.jobs ensures !(s'.jobs[a].ZAdding? && s'.jobs[a].task == id) {
      if Some(a) == ActorOf(x) && id in Creating(s'.jobs[a]) { NewCreator(c, s, x, s', id); }
    }
  }

  /** Only a worker's claim takes a task out of the pending status. */
  lemma LeavesPending(c: Config, s: State, x: Action, s': State, id: TaskId)
    requires Rooted(c, s) && Enabled(c, s, x) && s' == Apply(c, s, x)
    requires Matches(s, id, Pending) && (id !in s'.rows || s'.rows[id] != s.rows[id])
    ensures x.Advance? && s.jobs[x.actor].Claiming? && s.jobs[x.actor].message.task == id
  {
    if x.Advance? {
      assert JobOk(s, s.jobs[x.actor]);
    } else {
      OtherRows(c, s, x);
    }
  }

  lemma NoNewlyOpen(c: Config, s: State, x: Action, s': State, i: nat)
    requires Enabled(c, s, x) && s' == Apply(c, s, x) && i < |s.stream| && Open(c, s', i)
    ensures Open(c, s, i)
  {}

  lemma NewMessage(c: Config, s: State, x: Action, s': State, i: nat)
    requires Enabled(c, s, x) && s' == Apply(c, s, x) && |s.stream| <= i < |s'.stream|
    ensures x.Advance? && OnItsWay(s.jobs[x.actor], s'.stream[i].task)
  {
    StreamGrowth(c, s, x);
  }

  lemma NoNewMessage(c: Config, s: State, x: Action, s': State, id: TaskId)
    requires Enabled(c, s, x) && s' == Apply(c, s, x) && !HasAnyMessage(c, s, id) && !SomebodyBrings(s, id)
    ensures !HasAnyMessage(c, s', id)
  {
    StreamKept(c, s, x, s');
    forall i | 0 <= i < |s'.stream| && s'.stream[i].task == id ensures !Open(c, s', i) {
      if i >= |s.stream| {
        NewMessage(c, s, x, s', i);
      } else {
        assert s.stream[i].task == id;
        if Open(c, s', i) { NoNewlyOpen(c, s, x, s', i); }
      }
    }
  }

  /** A job comes to bring a message of a pending task only from such a job or from an un-acked message. */
  lemma NewBringer(c: Config, s: State, x: Action, s': State, id: TaskId)
    requires Rooted(c, s) && Enabled(c, s, x) && s' == Apply(c, s, x) && !x.Wait? && Matches(s, id, Pending)
    requires x.actor in s'.jobs && OnItsWay(s'.jobs[x.actor], id)
    ensures SomebodyBrings(s, id) || HasAnyMessage(c, s, id)
  {
    if x.Advance? { AdvanceBringer(c, s, x.actor, id); } else { OtherBringer(c, s, x, id); }
  }

  lemma AdvanceBringer(c: Config, s: State, a: ActorId, id: TaskId)
    requires a in s.jobs && JobOk(s, s.jobs[a]) && Matches(s, id, Pending)
    requires NextJob(c, s, a).Some? && OnItsWay(NextJob(c, s, a).value, id)
    ensures OnItsWay(s.jobs[a], id)
  {}

  lemma OtherBringer(c: Config, s: State, x: Action, id: TaskId)
    requires Enabled(c, s, x) && !x.Advance? && !x.Wait? && id in s.rows && JobsOk(s)
    requires x.actor in DoOther(c, s, x).jobs && OnItsWay(DoOther(c, s, x).jobs[x.actor], id)
    ensures HasAnyMessage(c, s, id)
  {
    if x.Deliver? {
      assert s.stream[s.delivered].task == id && Open(c, s, s.delivered);
    } else if x.Reclaim? {
      assert s.stream[x.entry].task == id && Open(c, s, x.entry);
    }
  }

  lemma PendingStaysStranded(c: Config, s: State, x: Action, s': State, id: TaskId)
    requires Rooted(c, s) && Enabled(c, s, x) && s' == Apply(c, s, x)
    requires Matches(s, id, Pending) && !CanGoOn(c, s, id)
    ensures id in s'.rows && s'.rows[id] == s.rows[id] && !CanGoOn(c, s', id)
  {
    if id !in s'.rows || s'.rows[id] != s.rows[id] { LeavesPending(c, s, x, s', id); }
    NoNewMessage(c, s, x, s', id);
    StepOthers(c, s, x);
    forall a | a in s'.jobs ensures !OnItsWay(s'.jobs[a], id) {
      if Some(a) == ActorOf(x) && OnItsWay(s'.jobs[a], id) { NewBringer(c, s, x, s', id); }
    }
  }

  lemma AbandonedRow(c: Config, s: State, a: ActorId, id: TaskId)
    requires a in s.jobs && JobOk(s, s.jobs[a]) && Matches(s, id, Failed) && id !in Held(s.jobs[a])
    ensures id in NextRows(c, s, a) && NextRows(c, s, a)[id] == s.rows[id]
  {}

  lemma FailedStaysStranded(c: Config, s: State, x: Action, s': State, id: TaskId)
    requires Rooted(c, s) && Enabled(c, s, x) && s' == Apply(c, s, x)
    requires Matches(s, id, Failed) && !CanGoOn(c, s, id)
    ensures id in s'.rows && s'.rows[id] == s.rows[id] && !CanGoOn(c, s', id)
  {
    StepOthers(c, s, x);
    forall a | a in s'.jobs ensures id !in Held(s'.jobs[a]) {
      if Some(a) == ActorOf(x) && id in Held(s'.jobs[a]) { NewHold(c, s, x, id); }
    }
    if x.Advance? { AbandonedRow(c, s, x.actor, id); } else { OtherRows(c, s, x); }
  }

  lemma StaysStranded(c: Config, s: State, x: Action, s': State, id: TaskId)
    requires Rooted(c, s) && OriginsOk(s) && Enabled(c, s, x) && s' == Apply(c, s, x)
    requires id in s.rows && !CanGoOn(c, s, id)
    ensures id in s'.rows && s'.rows[id] == s.rows[id] && !CanGoOn(c, s', id)
  {
    if Matches(s, id, Scheduled) { ScheduledStaysStranded(c, s, x, s', id); }
    else if Matches(s, id, Pending) { PendingStaysStranded(c, s, x, s', id); }
    else { FailedStaysStranded(c, s, x, s', id); }
  }

  /** A stranded row never changes again, whatever happens: no scan, no message and no actor covers it. */
  lemma {:induction false} StrandedForEver(c: Config, s: State, xs: seq<Action>, id: TaskId)
    requires Reachable(c, s) && Valid(c, s, xs) && id in s.rows && !CanGoOn(c, s, id)
    ensures var s' := RunFrom(c, s, xs); id in s'.rows && s'.rows[id] == s.rows[id] && !CanGoOn(c, s', id)
    decreases |xs|
  {
    if xs != [] {
      var init := xs[..|xs| - 1];
      StrandedForEver(c, s, init, id);
      ReachableFrom(c, s, init);
      var s1 := RunFrom(c, s, init);
      ReachableKeepsInv(c, s1);
      ReachableOrigins(c, s1);
      StaysStranded(c, s1, xs[|xs| - 1], RunFrom(c, s, xs), id);
    }
  }

  predicate LeftPending(s: State, e: nat) {
    e in s.pel && e < s.delivered && forall a :: a in s.jobs ==> !HandledBy(s.jobs[a], e)
  }

  lemma NextHandler(c: Config, s: State, a: ActorId, e: nat)
    requires a in s.jobs && NextJob(c, s, a).Some? && HandledBy(NextJob(c, s, a).value, e)
    ensures HandledBy(s.jobs[a], e)
  {}

  lemma OtherTends(c: Config, s: State, x: Action, e: nat)
    requires Enabled(c, s, x) && !x.Advance? && !x.Wait? && !x.Deliver? && !x.Reclaim?
    requires x.actor in DoOther(c, s, x).jobs && HandledBy(DoOther(c, s, x).jobs[x.actor], e)
    ensures x.actor in s.jobs && HandledBy(s.jobs[x.actor], e)
  {}

  lemma DeliveredIsLater(c: Config, s: State, a: ActorId, e: nat)
    requires Enabled(c, s, Deliver(a)) && e < s.delivered
    ensures a in DoOther(c, s, Deliver(a)).jobs && !HandledBy(DoOther(c, s, Deliver(a)).jobs[a], e)
  {}

  lemma StepLeavesPending(c: Config, s: State, x: Action, s': State, e: nat)
    requires !c.recovers && Enabled(c, s, x) && s' == Apply(c, s, x) && LeftPending(s, e)
    ensures LeftPending(s', e)
  {
    StepOthers(c, s, x);
    forall a | a in s'.jobs ensures !HandledBy(s'.jobs[a], e) {
      if Some(a) == ActorOf(x) && HandledBy(s'.jobs[a], e) {
        if x.Advance? { NextHandler(c, s, a, e); }
        else if x.Deliver? { DeliveredIsLater(c, s, a, e); }
        else { OtherTends(c, s, x, e); }
      }
    }
  }

  /** Without pending recovery an entry that nobody is at work on stays un-acked for ever. */
  lemma {:induction false} LeftPendingForEver(c: Config, s: State, xs: seq<Action>, e: nat)
    requires !c.recovers && Valid(c, s, xs) && LeftPending(s, e)
    ensures LeftPending(RunFrom(c, s, xs), e)
    decreases |xs|
  {
    if xs != [] {
      var init := xs[..|xs| - 1];
      LeftPendingForEver(c, s, init, e);
      StepLeavesPending(c, RunFrom(c, s, init), xs[|xs| - 1], RunFrom(c, s, xs), e);
    }
  }

  /** The goroutine has yet to write the row. */
  predicate BeforeItsWrite(j: Job) {
    j.Received? || j.Claiming? || j.Starting? || j.Executing? || j.Succeeding? || j.Failing?
  }

  /** The entry is pending for an abandoned row, and whoever is at work on it has yet to write that row. */
  predicate Unackable(c: Config, s: State, id: TaskId, e: nat) {
    && Matches(s, id, Failed) && !CanGoOn(c, s, id)
    && e in s.pel && e < s.delivered && e < |s.stream| && s.stream[e].task == id
    && forall a :: a in s.jobs && HandledBy(s.jobs[a], e) ==> BeforeItsWrite(s.jobs[a])
  }

  lemma AdvanceUnackable(c: Config, s: State, a: ActorId, id: TaskId, e: nat)
    requires a in s.jobs && JobOk(s, s.jobs[a]) && Unackable(c, s, id, e)
    ensures e in NextPel(s.pel, s.jobs[a])
    ensures NextJob(c, s, a).Some? && HandledBy(NextJob(c, s, a).value, e) ==> BeforeItsWrite(NextJob(c, s, a).value)
  {}

  lemma OtherUnackable(c: Config, s: State, x: Action, e: nat)
    requires Enabled(c, s, x) && !x.Advance? && !x.Wait? && e in s.pel
    ensures e in DoOther(c, s, x).pel
    ensures
      var jobs := DoOther(c, s, x).jobs;
      x.actor in jobs && HandledBy(jobs[x.actor], e) ==>
        || BeforeItsWrite(jobs[x.actor])
        || (x.actor in s.jobs && HandledBy(s.jobs[x.actor], e) && !BeforeItsWrite(s.jobs[x.actor]))
  {}

  lemma StaysUnackable(c: Config, s: State, x: Action, s': State, id: TaskId, e: nat)
    requires Rooted(c, s) && Enabled(c, s, x) && s' == Apply(c, s, x) && Unackable(c, s, id, e)
    ensures Unackable(c, s', id, e)
  {
    FailedStaysStranded(c, s, x, s', id);
    StreamKept(c, s, x, s');
    StepFrame(c, s, x);
    StepOthers(c, s, x);
    if x.Advance? { AdvanceUnackable(c, s, x.actor, id, e); } else if !x.Wait? { OtherUnackable(c, s, x, e); }
  }

  /** No message of a row that was abandoned while it was being finalized is ever acked: all recoveries get it again. */
  lemma {:induction false} UnackableForEver(c: Config, s: State, xs: seq<Action>, id: TaskId, e: nat)
    requires Reachable(c, s) && Valid(c, s, xs) && Unackable(c, s, id, e)
    ensures Unackable(c, RunFrom(c, s, xs), id, e)
    decreases |xs|
  {
    if xs != [] {
      var init := xs[..|xs| - 1];
      UnackableForEver(c, s, init, id, e);
      ReachableFrom(c, s, init);
      ReachableKeepsInv(c, RunFrom(c, s, init));
      StaysUnackable(c, RunFrom(c, s, init), xs[|xs| - 1], RunFrom(c, s, xs), id, e);
    }
  }

  // ---- A pending task that can go on is brought to run ----

  /** Of the rows only id's was touched; no message was acked, and the actors at work on other tasks were left alone. */
  predicate Gentle(s: State, s': State, id: TaskId) {
    && s'.rows.Keys == s.rows.Keys && (forall i :: i in s.rows && i != id ==> s'.rows[i] == s.rows[i])
    && s'.zset == s.zset && s.stream <= s'.stream
    && (forall i :: 0 <= i < |s.stream| && Unacked(s, i) ==> Unacked(s', i))
    && (forall b :: b in s.jobs && TaskOf(s.jobs[b]) != id ==> b in s'.jobs && s'.jobs[b] == s.jobs[b])
  }

  lemma GentleThen(s: State, s1: State, s2: State, id: TaskId)
    requires Gentle(s, s1, id) && Gentle(s1, s2, id)
    ensures Gentle(s, s2, id)
  {}

  lemma OwnerIsOnTask(j: Job, id: TaskId)
    ensures id in Owed(j) || id in Held(j) || OnItsWay(j, id) ==> TaskOf(j) == id
    ensures forall k :: Entry(id, k) in Owes(j) ==> TaskOf(j) == id
  {}

  lemma GentleKeepsMessages(c: Config, s: State, s': State, id: TaskId, other: TaskId, k: int)
    requires c.recovers && Gentle(s, s', id)
    ensures HasMessage(s, Entry(other, k)) ==> HasMessage(s', Entry(other, k))
    ensures HasAnyMessage(c, s, other) ==> HasAnyMessage(c, s', other)
  {
    if HasMessage(s, Entry(other, k)) {
      var i :| 0 <= i < |s.stream| && s.stream[i] == Entry(other, k) && Unacked(s, i);
      assert s'.stream[i] == Entry(other, k) && Unacked(s', i);
    }
    if HasAnyMessage(c, s, other) {
      var i :| 0 <= i < |s.stream| && s.stream[i].task == other && Open(c, s, i);
      assert s'.stream[i].task == other && Unacked(s, i) && Unacked(s', i) && Open(c, s', i);
    }
  }

  lemma GentleKeeps(c: Config, s: State, s': State, id: TaskId, other: TaskId)
    requires c.recovers && Gentle(s, s', id) && other in s.rows && other != id
    ensures CanGoOn(c, s, other) ==> CanGoOn(c, s', other)
    ensures Attended(s, other) ==> Attended(s', other)
  {
    GentleKeepsMessages(c, s, s', id, other, s.rows[other].retryCount);
    forall b | b in s.jobs ensures OnItsWay(s.jobs[b], other) || other in Held(s.jobs[b]) || other in Owed(s.jobs[b])
      ==> b in s'.jobs && s'.jobs[b] == s.jobs[b]
    {
      OwnerIsOnTask(s.jobs[b], other);
    }
  }

  lemma Claims(c: Config, o: Oracle, s: State, a: ActorId, id: TaskId) returns (s': State)
    requires a in s.jobs && s.jobs[a].Claiming? && s.jobs[a].message.task == id && Matches(s, id, Pending)
    ensures Leads(c, o, s, s') && Gentle(s, s', id) && Matches(s', id, Running)
  {
    Stays(c, o, s);
    Then(c, o, s, s, Advance(a));
    s' := DoAdvance(c, s, a);
  }

  lemma Looks(c: Config, o: Oracle, s: State, a: ActorId, id: TaskId) returns (s': State)
    requires a in s.jobs && s.jobs[a].Received? && s.jobs[a].message.task == id && Matches(s, id, Pending)
    ensures Leads(c, o, s, s') && Gentle(s, s', id) && Matches(s', id, Pending)
    ensures a in s'.jobs && s'.jobs[a].Claiming? && s'.jobs[a].message.task == id
  {
    Stays(c, o, s);
    Then(c, o, s, s, Advance(a));
    s' := DoAdvance(c, s, a);
  }

  lemma LooksAndClaims(c: Config, o: Oracle, s: State, a: ActorId, id: TaskId) returns (s': State)
    requires a in s.jobs && (s.jobs[a].Received? || s.jobs[a].Claiming?) && s.jobs[a].message.task == id
    requires Matches(s, id, Pending)
    ensures Leads(c, o, s, s') && Gentle(s, s', id) && Matches(s', id, Running)
  {
    if s.jobs[a].Claiming? {
      s' := Claims(c, o, s, a, id);
    } else {
      var s1 := Looks(c, o, s, a, id);
      s' := Claims(c, o, s1, a, id);
      Onwards(c, o, s, s1, s');
      GentleThen(s, s1, s', id);
    }
  }

  lemma Publishes(c: Config, o: Oracle, s: State, a: ActorId, id: TaskId) returns (s': State)
    requires StreamOk(s) && a in s.jobs && s.jobs[a].Publishing? && s.jobs[a].task == id && Matches(s, id, Pending)
    ensures Leads(c, o, s, s') && Gentle(s, s', id) && Matches(s', id, Pending) && HasAnyMessage(c, s', id)
  {
    Stays(c, o, s);
    Then(c, o, s, s, Advance(a));
    s' := DoAdvance(c, s, a);
    assert s'.stream[|s.stream|].task == id && Open(c, s', |s.stream|);
  }

  /** The fresh actor a was handed entry i, at t. */
  predicate HandedTo(s: State, s': State, a: ActorId, i: nat, recovered: bool, t: int) {
    && i < |s.stream| && (s.delivered == i || i in s.pel) && a !in s.jobs
    && s' == s.(now := t, delivered := if s.delivered == i then i + 1 else s.delivered, pel := s.pel[i := t],
                jobs := s.jobs[a := Received(Message(i, s.stream[i].task), recovered)])
  }

  lemma HandedGently(s: State, s': State, a: ActorId, i: nat, recovered: bool, t: int, id: TaskId)
    requires HandedTo(s, s', a, i, recovered, t)
    ensures Gentle(s, s', id)
  {}

  lemma ReclaimHands(c: Config, s: State, a: ActorId, i: nat)
    requires Enabled(c, s, Reclaim(a, i)) && s.delivered != i
    ensures HandedTo(s, Apply(c, s, Reclaim(a, i)), a, i, true, s.now)
  {}

  lemma DeliverHands(c: Config, s: State, a: ActorId)
    requires Enabled(c, s, Deliver(a))
    ensures HandedTo(s, Apply(c, s, Deliver(a)), a, s.delivered, false, s.now)
  {}

  lemma Reclaims(c: Config, o: Oracle, s: State, i: nat) returns (a: ActorId, s': State)
    requires c.recovers && i in s.pel && i < |s.stream| && i < s.delivered
    ensures Leads(c, o, s, s') && Gentle(s, s', s.stream[i].task) && s'.rows == s.rows
    ensures a in s'.jobs && s'.jobs[a].Received? && s'.jobs[a].message.task == s.stream[i].task
  {
    a := FreshActor(c.schedulers + s.jobs.Keys);
    var late := s.pel[i] + c.minIdle;
    var t := if late > s.now then late else s.now;
    Stays(c, o, s);
    var w := WaitsUntil(c, o, s, s, t);
    Then(c, o, s, w, Reclaim(a, i));
    s' := Apply(c, w, Reclaim(a, i));
    ReclaimHands(c, w, a, i);
    HandedGently(s, s', a, i, true, t, s.stream[i].task);
  }

  lemma WaitsUntil(c: Config, o: Oracle, s: State, s1: State, t: int) returns (w: State)
    requires Leads(c, o, s, s1) && t >= s1.now
    ensures Leads(c, o, s, w) && w == s1.(now := t)
  {
    Then(c, o, s, s1, Wait(t));
    w := Apply(c, s1, Wait(t));
  }

  lemma DeliversOne(c: Config, o: Oracle, s: State, id: TaskId) returns (a: ActorId, s': State)
    requires s.delivered < |s.stream|
    ensures Leads(c, o, s, s') && Gentle(s, s', id) && s'.rows == s.rows && s'.stream == s.stream
    ensures s'.delivered == s.delivered + 1
    ensures a in s'.jobs && s'.jobs[a].Received? && s'.jobs[a].message.task == s.stream[s.delivered].task
  {
    a := FreshActor(c.schedulers + s.jobs.Keys);
    Stays(c, o, s);
    Then(c, o, s, s, Deliver(a));
    s' := Apply(c, s, Deliver(a));
    DeliverHands(c, s, a);
    HandedGently(s, s', a, s.delivered, false, s.now, id);
  }

  lemma {:induction false} DeliversUpTo(c: Config, o: Oracle, s: State, i: nat) returns (a: ActorId, s': State)
    requires s.delivered <= i < |s.stream|
    ensures Leads(c, o, s, s') && Gentle(s, s', s.stream[i].task) && s'.rows == s.rows
    ensures a in s'.jobs && s'.jobs[a].Received? && s'.jobs[a].message.task == s.stream[i].task
    decreases i - s.delivered
  {
    var id := s.stream[i].task;
    if s.delivered == i {
      a, s' := DeliversOne(c, o, s, id);
    } else {
      var _, s1 := DeliversOne(c, o, s, id);
      a, s' := DeliversUpTo(c, o, s1, i);
      Onwards(c, o, s, s1, s');
      GentleThen(s, s1, s', id);
    }
  }

  lemma MessageBrings(c: Config, o: Oracle, s: State, id: TaskId) returns (s': State)
    requires StreamOk(s) && Matches(s, id, Pending) && HasAnyMessage(c, s, id)
    ensures Leads(c, o, s, s') && Gentle(s, s', id) && Matches(s', id, Running)
  {
    var i: int :| 0 <= i < |s.stream| && s.stream[i].task == id && Open(c, s, i);
    var a, s1;
    if i < s.delivered { a, s1 := Reclaims(c, o, s, i); } else { a, s1 := DeliversUpTo(c, o, s, i); }
    s' := LooksAndClaims(c, o, s1, a, id);
    Onwards(c, o, s, s1, s');
    GentleThen(s, s1, s', id);
  }

  lemma LeadsKeepsInv(c: Config, o: Oracle, s: State, s': State)
    requires Inv(c, s) && Leads(c, o, s, s')
    ensures Inv(c, s')
  {
    var xs :| Valid(c, s, xs) && FriendlyRun(c, o, s, xs) && RunFrom(c, s, xs) == s';
    RunKeepsInv(c, s, xs);
  }

  lemma Rescued(c: Config, o: Oracle, s: State, id: TaskId) returns (s': State)
    requires Inv(c, s) && Matches(s, id, Pending) && CanGoOn(c, s, id)
    ensures Leads(c, o, s, s') && Gentle(s, s', id) && Matches(s', id, Running)
  {
    if HasAnyMessage(c, s, id) {
      s' := MessageBrings(c, o, s, id);
    } else {
      var a :| a in s.jobs && OnItsWay(s.jobs[a], id);
      if s.jobs[a].Publishing? {
        var s1 := Publishes(c, o, s, a, id);
        LeadsKeepsInv(c, o, s, s1);
        s' := MessageBrings(c, o, s1, id);
        Onwards(c, o, s, s1, s');
        GentleThen(s, s1, s', id);
      } else {
        s' := LooksAndClaims(c, o, s, a, id);
      }
    }
  }

  // ---- Exactly when a run can be drained ----

  function Unattended(s: State): set<TaskId> {
    set id | id in s.rows && !Attended(s, id)
  }

  lemma UnattendedIsPending(c: Config, s: State, id: TaskId)
    requires RowsOk(s) && id in Unattended(s) && CanGoOn(c, s, id)
    ensures Matches(s, id, Pending)
  {
    assert RowShape(s.rows[id]);
  }

  lemma RescueHelps(c: Config, s: State, s': State, id: TaskId)
    requires c.recovers && Inv(c, s') && id in Unattended(s) && Gentle(s, s', id) && Matches(s', id, Running)
    requires forall i :: i in s.rows ==> CanGoOn(c, s, i)
    ensures forall i :: i in s'.rows ==> CanGoOn(c, s', i)
    ensures Unattended(s') <= Unattended(s) - {id}
  {
    assert RowShape(s'.rows[id]);
    forall i | i in s'.rows ensures CanGoOn(c, s', i) && (i in Unattended(s') ==> i in Unattended(s) - {id}) {
      if i != id { GentleKeeps(c, s, s', id, i); }
    }
  }

  lemma {:induction false} AllRescued(c: Config, o: Oracle, s: State) returns (s': State)
    requires Inv(c, s) && forall id :: id in s.rows ==> CanGoOn(c, s, id)
    ensures Leads(c, o, s, s') && Sound(c, s')
    decreases |Unattended(s)|
  {
    if !c.recovers {
      Stays(c, o, s);
      s' := s;
    } else if id :| id in Unattended(s) {
      UnattendedIsPending(c, s, id);
      var s1 := Rescued(c, o, s, id);
      LeadsKeepsInv(c, o, s, s1);
      RescueHelps(c, s, s1, id);
      SmallerSet(Unattended(s1), Unattended(s), id);
      s' := AllRescued(c, o, s1);
      Onwards(c, o, s, s1, s');
    } else {
      Stays(c, o, s);
      s' := s;
      forall id | id in s.rows ensures Attended(s, id) { assert id !in Unattended(s); }
    }
  }

  lemma {:induction false} SmallerSet(small: set<TaskId>, big: set<TaskId>, id: TaskId)
    requires small <= big - {id} && id in big
    ensures |small| < |big|
    decreases |small|
  {
    if x :| x in small {
      SmallerSet(small - {x}, big - {x}, id);
    }
  }

  /** A reachable state can be drained, whatever the handlers answer, if and only if every task in it can go on. */
  lemma DrainsExactlyIfAllCanGoOn(c: Config, o: Oracle, s: State)
    requires c.schedulers != {} && c.scanLimit > 0 && Reachable(c, s)
    ensures (exists s' :: Leads(c, o, s, s') && Drained(c, s')) <==> forall id :: id in s.rows ==> CanGoOn(c, s, id)
  {
    if forall id :: id in s.rows ==> CanGoOn(c, s, id) {
      ReachableKeepsInv(c, s);
      var s1 := AllRescued(c, o, s);
      var s' := Drains(c, o, s1);
      Onwards(c, o, s, s1, s');
    } else {
      var id :| id in s.rows && !CanGoOn(c, s, id);
      forall s' | Leads(c, o, s, s') ensures !Drained(c, s') {
        var xs :| Valid(c, s, xs) && FriendlyRun(c, o, s, xs) && RunFrom(c, s, xs) == s';
        StrandedForEver(c, s, xs, id);
      }
    }
  }
}
