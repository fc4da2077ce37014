/**
 What a tick achieves among everybody else.  Whatever the workers, the creators and the other schedulers do, and whatever
 fails for them: if no command of the scheduler itself fails, every task its scans found has been dealt with when
 its tick is over.
*/
module Passes {
  import opened Basics
  import opened Statuses
  import opened Rows
  import opened Protocol
  import opened Safety
  import opened Delivery
  import opened Guarantees
  import opened Origins

  // ---- Every attempt that was opened is published ----

  predicate Owing(s: State, e: Entry) {
    exists a :: a in s.jobs && e in Owes(s.jobs[a])
  }

  /** The message of an opened attempt is in the stream, or an actor owes it, or it was cut off. */
  ghost predicate Published(s: State) {
    forall id, k :: id in s.rows && Opened(s.rows[id], k) ==> Entry(id, k) in s.stream || Owing(s, Entry(id, k)) || id in s.lost
  }

  lemma Appends(c: Config, s: State, a: ActorId, e: Entry)
    requires a in s.jobs && e in Owes(s.jobs[a])
    ensures e in DoAdvance(c, s, a).stream
  {
    assert DoAdvance(c, s, a).stream[|s.stream|] == e;
  }

  lemma DebtIsPaid(c: Config, s: State, x: Action, s': State, e: Entry)
    requires Enabled(c, s, x) && s' == Apply(c, s, x) && Owing(s, e)
    ensures e in s'.stream || Owing(s', e) || e.task in s'.lost
  {
    var a :| a in s.jobs && e in Owes(s.jobs[a]);
    ActsOrStays(c, s, x, s', a);
    LostGrows(c, s, x, s');
    if x == Advance(a) { Appends(c, s, a, e); }
    if x == Abort(a) { assert CutsOff(s, x, e.task); }
  }

  lemma NewlyOpened(c: Config, s: State, x: Action, s': State, id: TaskId, k: int)
    requires Rooted(c, s) && Enabled(c, s, x) && s' == Apply(c, s, x)
    requires id in s'.rows && Opened(s'.rows[id], k) && !(id in s.rows && Opened(s.rows[id], k))
    ensures !x.Wait? && x.actor in s'.jobs && Entry(id, k) in Owes(s'.jobs[x.actor])
  {
    if x.Advance? { AdvanceOpens(c, s, x.actor, id, k); } else { SubmitOpens(c, s, x, id, k); }
  }

  lemma AdvanceOpens(c: Config, s: State, a: ActorId, id: TaskId, k: int)
    requires RowsOk(s) && a in s.jobs && JobOk(s, s.jobs[a])
    requires id in NextRows(c, s, a) && Opened(NextRows(c, s, a)[id], k) && !(id in s.rows && Opened(s.rows[id], k))
    ensures NextJob(c, s, a).Some? && Entry(id, k) in Owes(NextJob(c, s, a).value)
  {
    AdvanceWrites(c, s, a);
    assert RowShape(s.rows[id]);
  }

  lemma SubmitOpens(c: Config, s: State, x: Action, id: TaskId, k: int)
    requires Enabled(c, s, x) && !x.Advance?
    requires id in DoOther(c, s, x).rows && Opened(DoOther(c, s, x).rows[id], k) && !(id in s.rows && Opened(s.rows[id], k))
    ensures var s' := DoOther(c, s, x); !x.Wait? && x.actor in s'.jobs && Entry(id, k) in Owes(s'.jobs[x.actor])
  {
    OtherRows(c, s, x);
  }

  lemma StepPublished(c: Config, s: State, x: Action)
    requires Rooted(c, s) && Published(s) && Enabled(c, s, x)
    ensures Published(Apply(c, s, x))
  {
    var s' := Apply(c, s, x);
    StreamKept(c, s, x, s');
    LostGrows(c, s, x, s');
    forall id, k | id in s'.rows && Opened(s'.rows[id], k)
      ensures Entry(id, k) in s'.stream || Owing(s', Entry(id, k)) || id in s'.lost
    {
      if id in s.rows && Opened(s.rows[id], k) {
        if Owing(s, Entry(id, k)) { DebtIsPaid(c, s, x, s', Entry(id, k)); }
      } else {
        NewlyOpened(c, s, x, s', id, k);
      }
    }
  }

  lemma {:induction false} RunKeepsPublished(c: Config, now: int, xs: seq<Action>)
    requires Valid(c, Init(now), xs)
    ensures Published(RunFrom(c, Init(now), xs))
    decreases |xs|
  {
    if xs != [] {
      var init := xs[..|xs| - 1];
      RunKeepsPublished(c, now, init);
      InitInv(c, now);
      RunKeepsInv(c, Init(now), init);
      StepPublished(c, RunFrom(c, Init(now), init), xs[|xs| - 1]);
    }
  }

  /** Every attempt that was opened is published, will be by the actor that opened it, or was cut off there. */
  lemma OpenedIsPublished(c: Config, s: State, id: TaskId, k: int)
    requires Reachable(c, s) && id in s.rows && Opened(s.rows[id], k)
    ensures Entry(id, k) in s.stream || Owing(s, Entry(id, k)) || id in s.lost
  {
    var now: int, xs: seq<Action> :| Valid(c, Init(now), xs) && RunFrom(c, Init(now), xs) == s;
    RunKeepsPublished(c, now, xs);
  }

  // ---- The work of a pass ----

  predicate NoCreator(s: State, id: TaskId) {
    forall a :: a in s.jobs ==> id !in Creating(s.jobs[a])
  }

  /** The row has come at least as far as when a scan in phase p found it with retry_count k. */
  predicate Reached(p: Phase, r: Row, k: int) {
    match p
    case ScanningExpired =>
      || r.retryCount > k
      || (r.retryCount == k && (r.status == Running || r.status == Failed || r.status.IsTerminal()))
    case ScanningRetrying => r.retryCount >= k && r.status != Scheduled
    case _ => true
  }

  /** It has come further: that run is over, that attempt was opened, the task waits for no dispatch. */
  predicate Beyond(p: Phase, r: Row, k: int) {
    match p
    case ScanningExpired => r.retryCount > k || (r.retryCount == k && (r.status == Failed || r.status.IsTerminal()))
    case ScanningRetrying => Opened(r, k)
    case _ => r.status != Scheduled
  }

  predicate Dealt(s: State, p: Phase, id: TaskId, k: int) {
    && id in s.rows && Beyond(p, s.rows[id], k)
    && (p == ScanningZSet ==> id !in s.zset && NoCreator(s, id))
  }

  /** The job is the work of a pass on the task. */
  predicate OnPass(j: Job, p: Phase, id: TaskId) {
    match p
    case ScanningExpired => j.Recovering? && j.task == id
    case ScanningRetrying => j == Dispatching(id, Retrying)
    case _ =>
      || j == Inspecting(id) || j == Dispatching(id, Scheduled) || j == Removing(id)
      || (j.Publishing? && j.task == id && j.origin == FromZSet)
  }

  /** The tick of me has still to do with the task. */
  predicate InWork(s: State, me: ActorId, p: Phase, id: TaskId) {
    && me in s.ticks && s.ticks[me].phase == AfterScan(p)
    && (id in s.ticks[me].todo || (me in s.jobs && OnPass(s.jobs[me], p, id)))
  }

  predicate Pledged(s: State, me: ActorId, p: Phase, id: TaskId, k: int) {
    && id in s.rows && Reached(p, s.rows[id], k) && (p == ScanningZSet ==> NoCreator(s, id))
    && (Dealt(s, p, id, k) || InWork(s, me, p, id))
  }

  lemma RowGoesOn(p: Phase, r: Row, r': Row, k: int)
    requires IsScanning(p) && RowStep(r, r') && RowShape(r)
    ensures Reached(p, r, k) ==> Reached(p, r', k)
    ensures Beyond(p, r, k) ==> Beyond(p, r', k)
  {}

  lemma NoCreatorStays(c: Config, s: State, x: Action, s': State, id: TaskId)
    requires Enabled(c, s, x) && s' == Apply(c, s, x) && id in s.rows && NoCreator(s, id)
    ensures NoCreator(s', id)
    ensures id !in s.zset ==> id !in s'.zset
  {
    StepOthers(c, s, x);
    forall a | a in s'.jobs ensures id !in Creating(s'.jobs[a]) {
      if Some(a) == ActorOf(x) && id in Creating(s'.jobs[a]) { NewCreator(c, s, x, s', id); }
    }
    if id !in s.zset && id in s'.zset { ZSetGrowth(c, s, x, s', id); }
  }

  lemma DealtStays(c: Config, s: State, x: Action, s': State, p: Phase, id: TaskId, k: int)
    requires IsScanning(p) && Rooted(c, s) && Enabled(c, s, x) && s' == Apply(c, s, x) && Dealt(s, p, id, k)
    ensures Dealt(s', p, id, k)
  {
    StepFrame(c, s, x);
    assert RowShape(s.rows[id]);
    RowGoesOn(p, s.rows[id], s'.rows[id], k);
    if p == ScanningZSet { NoCreatorStays(c, s, x, s', id); }
  }

  // ---- One action of the scheduler itself ----

  lemma OthersLeaveTick(c: Config, s: State, x: Action, s': State, me: ActorId)
    requires Enabled(c, s, x) && s' == Apply(c, s, x) && ActorOf(x) != Some(me)
    ensures me in s.ticks ==> me in s'.ticks && s'.ticks[me] == s.ticks[me]
    ensures me in s.jobs ==> me in s'.jobs && s'.jobs[me] == s.jobs[me]
  {}

  lemma AdvanceRecovers(c: Config, s: State, me: ActorId, id: TaskId, k: int)
    requires me in s.jobs && OnPass(s.jobs[me], ScanningExpired, id) && id in s.rows && Reached(ScanningExpired, s.rows[id], k)
    ensures id in NextRows(c, s, me) && Beyond(ScanningExpired, NextRows(c, s, me)[id], k)
  {}

  lemma AdvanceDispatches(c: Config, s: State, me: ActorId, id: TaskId, k: int)
    requires me in s.jobs && OnPass(s.jobs[me], ScanningRetrying, id) && id in s.rows && Reached(ScanningRetrying, s.rows[id], k)
    requires k >= 0
    ensures id in NextRows(c, s, me) && Beyond(ScanningRetrying, NextRows(c, s, me)[id], k)
  {}

  lemma AdvanceMember(c: Config, s: State, me: ActorId, id: TaskId)
    requires me in s.jobs && JobOk(s, s.jobs[me]) && OnPass(s.jobs[me], ScanningZSet, id)
    ensures
      var n := NextJob(c, s, me);
      if s.jobs[me].Removing? then s.rows[id].status != Scheduled && id !in NextZSet(s.zset, s.jobs[me])
      else n.Some? && OnPass(n.value, ScanningZSet, id)
  {}

  lemma AdvancePledged(c: Config, s: State, s': State, me: ActorId, p: Phase, id: TaskId, k: int)
    requires IsScanning(p) && k >= 0 && Rooted(c, s) && me in s.jobs && s' == DoAdvance(c, s, me)
    requires id in s.rows && Reached(p, s.rows[id], k) && OnPass(s.jobs[me], p, id) && (p == ScanningZSet ==> NoCreator(s', id))
    ensures Dealt(s', p, id, k) || (me in s'.jobs && OnPass(s'.jobs[me], p, id))
  {
    assert JobOk(s, s.jobs[me]);
    if p == ScanningExpired {
      AdvanceRecovers(c, s, me, id, k);
    } else if p == ScanningRetrying {
      AdvanceDispatches(c, s, me, id, k);
    } else {
      AdvanceMember(c, s, me, id);
      RemovingWritesNoRow(c, s, me);
    }
  }

  lemma RemovingWritesNoRow(c: Config, s: State, me: ActorId)
    requires me in s.jobs
    ensures s.jobs[me].Removing? ==> NextRows(c, s, me) == s.rows
  {}

  /** Between its commands a scheduler only starts a tick, scans, takes up a task, or ends a phase. */
  lemma OwnActions(c: Config, s: State, x: Action, me: ActorId)
    requires TicksOk(c, s) && Enabled(c, s, x) && !x.Advance? && ActorOf(x) == Some(me) && !FaultOf(x, me) && me in c.schedulers
    ensures me !in s.jobs && (x.StartTick? || x.Scan? || x.Take? || x.EndPhase?)
  {}

  lemma OwnPass(c: Config, s: State, x: Action, s': State, me: ActorId, p: Phase, id: TaskId)
    requires IsScanning(p) && Enabled(c, s, x) && s' == Apply(c, s, x) && me !in s.jobs && InWork(s, me, p, id)
    requires (x.StartTick? || x.Scan? || x.Take? || x.EndPhase?) && x.actor == me
    ensures InWork(s', me, p, id)
  {
    if x.Take? { assert s.ticks[me].todo == [s.ticks[me].todo[0]] + s.ticks[me].todo[1..]; }
  }

  lemma StillInWork(c: Config, s: State, x: Action, s': State, me: ActorId, p: Phase, id: TaskId, k: int)
    requires IsScanning(p) && k >= 0 && Rooted(c, s) && Enabled(c, s, x) && s' == Apply(c, s, x)
    requires me in c.schedulers && !FaultOf(x, me) && id in s.rows && Reached(p, s.rows[id], k) && InWork(s, me, p, id)
    requires p == ScanningZSet ==> NoCreator(s', id)
    ensures Dealt(s', p, id, k) || InWork(s', me, p, id)
  {
    if ActorOf(x) != Some(me) {
      OthersLeaveTick(c, s, x, s', me);
    } else if x.Advance? {
      if id !in s.ticks[me].todo { AdvancePledged(c, s, s', me, p, id, k); }
    } else {
      OwnActions(c, s, x, me);
      OwnPass(c, s, x, s', me, p, id);
    }
  }

  lemma StepPledged(c: Config, s: State, x: Action, me: ActorId, p: Phase, id: TaskId, k: int)
    requires IsScanning(p) && k >= 0 && Rooted(c, s) && Enabled(c, s, x) && me in c.schedulers && !FaultOf(x, me)
    requires Pledged(s, me, p, id, k)
    ensures Pledged(Apply(c, s, x), me, p, id, k)
  {
    var s' := Apply(c, s, x);
    StepFrame(c, s, x);
    assert RowShape(s.rows[id]);
    RowGoesOn(p, s.rows[id], s'.rows[id], k);
    if p == ScanningZSet { NoCreatorStays(c, s, x, s', id); }
    if Dealt(s, p, id, k) { DealtStays(c, s, x, s', p, id, k); } else { StillInWork(c, s, x, s', me, p, id, k); }
  }

  predicate Faultless(xs: seq<Action>, me: ActorId) {
    forall i :: 0 <= i < |xs| ==> !FaultOf(xs[i], me)
  }

  lemma FaultlessPart(xs: seq<Action>, me: ActorId, i: nat, j: nat)
    requires Faultless(xs, me) && i <= j <= |xs|
    ensures Faultless(xs[i..j], me)
  {}

  lemma {:induction false} RunPledged(c: Config, s: State, xs: seq<Action>, me: ActorId, p: Phase, id: TaskId, k: int)
    requires IsScanning(p) && k >= 0 && Inv(c, s) && Valid(c, s, xs) && me in c.schedulers && Faultless(xs, me)
    requires Pledged(s, me, p, id, k)
    ensures Pledged(RunFrom(c, s, xs), me, p, id, k)
    decreases |xs|
  {
    if xs != [] {
      var init := xs[..|xs| - 1];
      FaultlessPart(xs, me, 0, |xs| - 1);
      RunPledged(c, s, init, me, p, id, k);
      RunKeepsInv(c, s, init);
      StepPledged(c, RunFrom(c, s, init), xs[|xs| - 1], me, p, id, k);
    }
  }

  // ---- The outcome of a tick ----

  /** Some other scheduler's debt apart, and unless it was cut off, the message is in the stream. */
  predicate Sent(c: Config, s: State, me: ActorId, e: Entry) {
    || e in s.stream || e.task in s.lost
    || exists a :: a in c.schedulers && a != me && a in s.jobs && e in Owes(s.jobs[a])
  }

  /** What has become of a task that a scan in phase p found in before: a run is over, a member is dispatched and gone
      from the ZSET, a retry is dispatched; and what was dispatched is published. */
  predicate Settled(c: Config, before: State, after: State, me: ActorId, p: Phase, id: TaskId) {
    && id in before.rows && Dealt(after, p, id, before.rows[id].retryCount)
    && (p == ScanningZSet ==> Sent(c, after, me, Entry(id, 0)))
    && (p == ScanningRetrying ==> Sent(c, after, me, Entry(id, before.rows[id].retryCount)))
  }

  /** The i-th action of the run is a scan of me, in phase p of its tick. */
  ghost predicate ScanAt(c: Config, s: State, xs: seq<Action>, me: ActorId, i: int, p: Phase) {
    && 0 <= i < |xs| && xs[i].Scan? && xs[i].actor == me && Valid(c, s, xs[..i])
    && me in RunFrom(c, s, xs[..i]).ticks && RunFrom(c, s, xs[..i]).ticks[me].phase == p
  }

  /** A scan's result, at the state it was taken in, is pledged once it is the tick's list. */
  lemma ScanPledges(c: Config, s: State, me: ActorId, found: seq<TaskId>, id: TaskId)
    requires Rooted(c, s) && CreatorsOk(s) && Enabled(c, s, Scan(me, found)) && id in found
    ensures
      var p := s.ticks[me].phase;
      && IsScanning(p) && id in s.rows && s.rows[id].retryCount >= 0
      && Pledged(DoScan(s, me, found), me, p, id, s.rows[id].retryCount)
      && RowShape(s.rows[id]) && (p == ScanningRetrying ==> s.rows[id].status == Retrying)
  {
    ScannedRows(c, s, me, found);
    assert RowShape(s.rows[id]);
  }

  /** A debt of an attempt after the first, or of a task without a creator, is a scheduler's. */
  lemma DebtorSchedules(c: Config, s: State, a: ActorId, e: Entry)
    requires TicksOk(c, s) && CreatorsOk(s) && a in s.jobs && e in Owes(s.jobs[a])
    requires e.attempt > 0 || NoCreator(s, e.task)
    ensures a in c.schedulers
  {
    assert OfScheduler(s.jobs[a]) || e.task in Creating(s.jobs[a]);
  }

  lemma Debtor(c: Config, s: State, me: ActorId, e: Entry)
    requires Reachable(c, s) && me !in s.jobs && e.task in s.rows && Opened(s.rows[e.task], e.attempt)
    requires e.attempt > 0 || NoCreator(s, e.task)
    ensures Sent(c, s, me, e)
  {
    OpenedIsPublished(c, s, e.task, e.attempt);
    if Owing(s, e) {
      var a :| a in s.jobs && e in Owes(s.jobs[a]);
      ReachableKeepsInv(c, s);
      ReachableOrigins(c, s);
      DebtorSchedules(c, s, a, e);
    }
  }

  lemma SettledAtTheEnd(c: Config, before: State, s: State, me: ActorId, p: Phase, id: TaskId)
    requires IsScanning(p) && Reachable(c, s) && me !in s.jobs && (me in s.ticks ==> s.ticks[me].phase != AfterScan(p))
    requires id in before.rows && RowShape(before.rows[id]) && Pledged(s, me, p, id, before.rows[id].retryCount)
    requires p == ScanningRetrying ==> before.rows[id].status == Retrying
    ensures Settled(c, before, s, me, p, id)
  {
    ReachableKeepsInv(c, s);
    assert RowShape(s.rows[id]);
    if p == ScanningZSet { Debtor(c, s, me, Entry(id, 0)); }
    if p == ScanningRetrying { Debtor(c, s, me, Entry(id, before.rows[id].retryCount)); }
  }

  lemma ScannedThenPledged(c: Config, before: State, s1: State, me: ActorId, found: seq<TaskId>, id: TaskId)
    requires Reachable(c, before) && Enabled(c, before, Scan(me, found)) && s1 == Apply(c, before, Scan(me, found))
    requires id in found
    ensures
      var p := before.ticks[me].phase;
      && IsScanning(p) && Inv(c, s1) && id in before.rows && RowShape(before.rows[id])
      && Pledged(s1, me, p, id, before.rows[id].retryCount)
      && (p == ScanningRetrying ==> before.rows[id].status == Retrying)
  {
    ReachableKeepsInv(c, before);
    ReachableOrigins(c, before);
    ScanPledges(c, before, me, found, id);
    StepInv(c, before, Scan(me, found));
  }

  /** The run after the scan, and its end. */
  lemma PledgeIsKept(c: Config, before: State, s1: State, ys: seq<Action>, s': State, me: ActorId, p: Phase, id: TaskId)
    requires IsScanning(p) && Inv(c, s1) && Ran(c, s1, ys, s') && Reachable(c, s') && me in c.schedulers && Faultless(ys, me)
    requires id in before.rows && RowShape(before.rows[id]) && Pledged(s1, me, p, id, before.rows[id].retryCount)
    requires p == ScanningRetrying ==> before.rows[id].status == Retrying
    requires me !in s'.jobs && (me in s'.ticks ==> s'.ticks[me].phase != AfterScan(p))
    ensures Settled(c, before, s', me, p, id)
  {
    RunPledged(c, s1, ys, me, p, id, before.rows[id].retryCount);
    SettledAtTheEnd(c, before, s', me, p, id);
  }

  lemma RanReachable(c: Config, s: State, xs: seq<Action>, s': State)
    requires Reachable(c, s) && Ran(c, s, xs, s')
    ensures Reachable(c, s')
  {
    ReachableFrom(c, s, xs);
  }

  /** The state after the scan. */
  lemma AfterTheScan(c: Config, s: State, xs: seq<Action>, s': State, me: ActorId, i: nat, before: State, id: TaskId)
    returns (s1: State)
    requires Reachable(c, before) && Ran(c, s, xs, s') && i < |xs| && Ran(c, s, xs[..i], before)
    requires xs[i].Scan? && xs[i].actor == me && id in xs[i].found && me in before.ticks
    ensures Ran(c, s1, xs[i + 1..], s')
    ensures
      var p := before.ticks[me].phase;
      && IsScanning(p) && Inv(c, s1) && id in before.rows && RowShape(before.rows[id])
      && Pledged(s1, me, p, id, before.rows[id].retryCount)
      && (p == ScanningRetrying ==> before.rows[id].status == Retrying)
  {
    var split := SplitRun(c, s, xs, i);
    s1 := Apply(c, before, xs[i]);
    ScannedThenPledged(c, before, s1, me, xs[i].found, id);
  }

  /** When a scheduler without a fault of its own has left the loop after a scan, everything the scan found is settled. */
  lemma ScanIsSettled(c: Config, s: State, xs: seq<Action>, s': State, me: ActorId, i: nat, before: State, id: TaskId)
    requires Reachable(c, s) && Ran(c, s, xs, s') && me in c.schedulers && Faultless(xs, me)
    requires i < |xs| && Ran(c, s, xs[..i], before) && xs[i].Scan? && xs[i].actor == me && id in xs[i].found
    requires me in before.ticks && me !in s'.jobs
    requires me in s'.ticks ==> s'.ticks[me].phase != AfterScan(before.ticks[me].phase)
    ensures Settled(c, before, s', me, before.ticks[me].phase, id)
  {
    RanReachable(c, s, xs[..i], before);
    RanReachable(c, s, xs, s');
    var s1 := AfterTheScan(c, s, xs, s', me, i, before, id);
    FaultlessPart(xs, me, i + 1, |xs|);
    PledgeIsKept(c, before, s1, xs[i + 1..], s', me, before.ticks[me].phase, id);
  }

  // ---- Its scans ----

  /** The scans a tick has behind it in phase p. */
  function ScansBehind(p: Phase): set<Phase> {
    match p
    case ScanningExpired => {}
    case RecoveringExpired => {ScanningExpired}
    case ScanningZSet => {ScanningExpired}
    case DispatchingZSet => {ScanningExpired, ScanningZSet}
    case ScanningRetrying => {ScanningExpired, ScanningZSet}
    case _ => {ScanningExpired, ScanningZSet, ScanningRetrying}
  }

  ghost predicate HasScan(c: Config, s: State, xs: seq<Action>, me: ActorId, p: Phase) {
    exists i :: ScanAt(c, s, xs, me, i, p)
  }

  lemma OldScan(c: Config, s: State, xs: seq<Action>, x: Action, me: ActorId, p: Phase)
    requires HasScan(c, s, xs, me, p)
    ensures HasScan(c, s, xs + [x], me, p)
  {
    var i :| ScanAt(c, s, xs, me, i, p);
    assert (xs + [x])[..i] == xs[..i] && (xs + [x])[i] == xs[i];
    assert ScanAt(c, s, xs + [x], me, i, p);
  }

  lemma NewScan(c: Config, s: State, xs: seq<Action>, s1: State, me: ActorId, found: seq<TaskId>)
    requires Ran(c, s, xs, s1) && Enabled(c, s1, Scan(me, found))
    ensures HasScan(c, s, xs + [Scan(me, found)], me, s1.ticks[me].phase)
  {
    var ys := xs + [Scan(me, found)];
    assert ys[..|xs|] == xs;
    assert ScanAt(c, s, ys, me, |xs|, s1.ticks[me].phase);
  }

  /** How an action of me moves the phase of its tick. */
  function NextPhase(x: Action, p: Phase): Phase {
    match x
    case StartTick(_) => ScanningExpired
    case Scan(_, _) => AfterScan(p)
    case EndPhase(_) =>
      if p == RecoveringExpired then ScanningZSet else if p == DispatchingZSet then ScanningRetrying else Idle
    case _ => p
  }

  lemma OwnPhase(c: Config, s: State, x: Action, me: ActorId)
    requires Enabled(c, s, x) && !x.Advance? && ActorOf(x) == Some(me) && !FaultOf(x, me) && me in s.ticks
    ensures
      var s' := DoOther(c, s, x);
      me in s'.ticks && s'.ticks[me].phase == NextPhase(x, s.ticks[me].phase)
  {}

  lemma ScansAdd(x: Action, p: Phase)
    requires (x.EndPhase? ==> p == RecoveringExpired || p == DispatchingZSet || p == DispatchingRetrying)
    requires x.Scan? ==> IsScanning(p)
    ensures ScansBehind(NextPhase(x, p)) <= ScansBehind(p) + if x.Scan? then {p} else {}
  {}

  lemma OthersLeavePhase(c: Config, s: State, x: Action, me: ActorId)
    requires Enabled(c, s, x) && me in s.ticks && (x.Advance? || ActorOf(x) != Some(me))
    ensures me in Apply(c, s, x).ticks && Apply(c, s, x).ticks[me] == s.ticks[me]
  {}

  lemma PhaseMoves(c: Config, s: State, x: Action, s': State, me: ActorId)
    requires Enabled(c, s, x) && s' == Apply(c, s, x) && !FaultOf(x, me) && me in s.ticks
    ensures me in s'.ticks
    ensures
      var p, p' := s.ticks[me].phase, s'.ticks[me].phase;
      ScansBehind(p') <= ScansBehind(p) + if x.Scan? && x.actor == me then {p} else {}
  {
    if x.Advance? || ActorOf(x) != Some(me) {
      OthersLeavePhase(c, s, x, me);
    } else {
      OwnPhase(c, s, x, me);
      ScansAdd(x, s.ticks[me].phase);
    }
  }

  lemma StartsNothingBehind(c: Config, s: State, me: ActorId)
    requires Enabled(c, s, StartTick(me))
    ensures var s' := Apply(c, s, StartTick(me)); me in s'.ticks && ScansBehind(s'.ticks[me].phase) == {}
  {}

  /** A tick that was started in the run has made the scans behind it in the run. */
  lemma {:induction false} TickHasScanned(c: Config, s: State, xs: seq<Action>, me: ActorId, p: Phase)
    requires Valid(c, s, xs) && Faultless(xs, me) && StartTick(me) in xs
    ensures me in RunFrom(c, s, xs).ticks
    ensures p in ScansBehind(RunFrom(c, s, xs).ticks[me].phase) ==> HasScan(c, s, xs, me, p)
    decreases |xs|
  {
    var init, x := xs[..|xs| - 1], xs[|xs| - 1];
    var s1 := RunFrom(c, s, init);
    assert xs == init + [x];
    if x == StartTick(me) {
      StartsNothingBehind(c, s1, me);
    } else {
      FaultlessPart(xs, me, 0, |xs| - 1);
      assert StartTick(me) in init;
      TickHasScanned(c, s, init, me, p);
      PhaseMoves(c, s1, x, RunFrom(c, s, xs), me);
      if p in ScansBehind(s1.ticks[me].phase) {
        OldScan(c, s, init, x, me, p);
      } else if x.Scan? && x.actor == me {
        NewScan(c, s, init, s1, me, x.found);
      }
    }
  }

  /** So has a pass that the run has completed. */
  lemma {:induction false} PassHasScanned(c: Config, s: State, xs: seq<Action>, me: ActorId, p: Phase)
    requires Valid(c, s, xs) && Faultless(xs, me) && me in s.ticks && p !in ScansBehind(s.ticks[me].phase)
    ensures me in RunFrom(c, s, xs).ticks
    ensures p in ScansBehind(RunFrom(c, s, xs).ticks[me].phase) ==> HasScan(c, s, xs, me, p)
    decreases |xs|
  {
    if xs != [] {
      var init, x := xs[..|xs| - 1], xs[|xs| - 1];
      var s1 := RunFrom(c, s, init);
      assert xs == init + [x];
      FaultlessPart(xs, me, 0, |xs| - 1);
      PassHasScanned(c, s, init, me, p);
      PhaseMoves(c, s1, x, RunFrom(c, s, xs), me);
      if p in ScansBehind(s1.ticks[me].phase) {
        OldScan(c, s, init, x, me, p);
      } else if x.Scan? && x.actor == me {
        NewScan(c, s, init, s1, me, x.found);
      }
    }
  }

  /** The scheduler made the scan of phase p in the run, and what it found there is settled. */
  ghost predicate PassDone(c: Config, s: State, xs: seq<Action>, me: ActorId, p: Phase)
    requires Valid(c, s, xs)
  {
    && HasScan(c, s, xs, me, p)
    && forall i, id :: ScanAt(c, s, xs, me, i, p) && id in xs[i].found ==>
         Settled(c, RunFrom(c, s, xs[..i]), RunFrom(c, s, xs), me, p, id)
  }

  lemma ScansAreSettled(c: Config, s: State, xs: seq<Action>, me: ActorId, p: Phase)
    requires Reachable(c, s) && Valid(c, s, xs) && me in c.schedulers && Faultless(xs, me) && HasScan(c, s, xs, me, p)
    requires var s' := RunFrom(c, s, xs); me !in s'.jobs && (me in s'.ticks ==> s'.ticks[me].phase != AfterScan(p))
    ensures PassDone(c, s, xs, me, p)
  {
    forall i, id | ScanAt(c, s, xs, me, i, p) && id in xs[i].found
      ensures Settled(c, RunFrom(c, s, xs[..i]), RunFrom(c, s, xs), me, p, id)
    {
      ScanIsSettled(c, s, xs, RunFrom(c, s, xs), me, i, RunFrom(c, s, xs[..i]), id);
    }
  }

  /** Whatever everybody else does, and whatever fails for them: a scheduler that meets no fault of its own on the way
      from before a scan to behind the loop after it has settled everything the scan found. */
  lemma PassesAchieve(c: Config, s: State, xs: seq<Action>, me: ActorId, p: Phase)
    requires Reachable(c, s) && Valid(c, s, xs) && me in c.schedulers && Faultless(xs, me)
    requires me in s.ticks && p !in ScansBehind(s.ticks[me].phase)
    requires
      var s' := RunFrom(c, s, xs);
      me !in s'.jobs && me in s'.ticks && p in ScansBehind(s'.ticks[me].phase) && s'.ticks[me].phase != AfterScan(p)
    ensures PassDone(c, s, xs, me, p)
  {
    PassHasScanned(c, s, xs, me, p);
    ScansAreSettled(c, s, xs, me, p);
  }

  /** A scheduler that starts a tick, meets no fault of its own and is at rest again has made its three scans and
      settled everything they found. */
  lemma TicksAchieve(c: Config, s: State, xs: seq<Action>, me: ActorId, p: Phase)
    requires Reachable(c, s) && Valid(c, s, xs) && me in c.schedulers && Faultless(xs, me) && StartTick(me) in xs
    requires var s' := RunFrom(c, s, xs); me !in s'.jobs && me in s'.ticks && s'.ticks[me].phase == Idle
    requires IsScanning(p)
    ensures PassDone(c, s, xs, me, p)
  {
    TickHasScanned(c, s, xs, me, p);
    ScansAreSettled(c, s, xs, me, p);
  }

  /** With a single scheduler: a member that a scan of a tick without a fault of its own found, and whose publish nobody
      cut off, is no longer scheduled after the tick, is out of the ZSET, and has its first message in the stream. */
  lemma SettledMemberIsSent(c: Config, s: State, xs: seq<Action>, me: ActorId, i: nat, id: TaskId)
    requires Reachable(c, s) && Valid(c, s, xs) && c.schedulers == {me} && Faultless(xs, me) && StartTick(me) in xs
    requires var s' := RunFrom(c, s, xs); me !in s'.jobs && me in s'.ticks && s'.ticks[me].phase == Idle
    requires ScanAt(c, s, xs, me, i, ScanningZSet) && id in xs[i].found && id !in RunFrom(c, s, xs).lost
    ensures
      var s' := RunFrom(c, s, xs);
      id in s'.rows && s'.rows[id].status != Scheduled && id !in s'.zset && Entry(id, 0) in s'.stream
  {
    TicksAchieve(c, s, xs, me, ScanningZSet);
    assert Settled(c, RunFrom(c, s, xs[..i]), RunFrom(c, s, xs), me, ScanningZSet, id);
  }
}
