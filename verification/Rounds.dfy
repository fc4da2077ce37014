/**
 Draining in any order.  A round is any stretch of a run, from rest to rest, without faults and submissions, in which some
 scheduler starts a tick late enough and every message that can be handed out is handed out.  However its actions are
 interleaved, it brings the tasks nearer to their end, so a bounded number of rounds drains every run that can be drained.
*/
module Rounds {
  import opened Basics
  import opened Statuses
  import opened Rows
  import opened Protocol
  import opened Safety
  import opened Delivery
  import opened Guarantees
  import opened Histories
  import opened Carriers
  import opened Draining
  import opened Deadlines
  import opened Passes
  import opened Progress

  predicate Peaceful(xs: seq<Action>) {
    forall i :: 0 <= i < |xs| ==> Sane(xs[i]) && !xs[i].Submit?
  }

  /** In s the action hands entry i to somebody. */
  predicate Takes(s: State, x: Action, i: nat) {
    (x.Deliver? && s.delivered == i) || (x.Reclaim? && x.entry == i)
  }

  /** So does the k-th action of the run. */
  ghost predicate HandsOut(c: Config, s: State, xs: seq<Action>, k: int, i: nat) {
    0 <= k < |xs| && Valid(c, s, xs[..k]) && Takes(RunFrom(c, s, xs[..k]), xs[k], i)
  }

  /** The k-th action starts a tick of me, at an instant at which everything that waited in s for one is due. */
  ghost predicate StartsLate(c: Config, s: State, xs: seq<Action>, me: ActorId, k: int) {
    0 <= k < |xs| && xs[k] == StartTick(me) && Valid(c, s, xs[..k]) && AllDue(s, RunFrom(c, s, xs[..k]).now)
  }

  ghost predicate Round(c: Config, s: State, xs: seq<Action>, s': State) {
    && Ran(c, s, xs, s') && Quiet(s) && Quiet(s') && Peaceful(xs)
    && (exists me, k :: me in c.schedulers && StartsLate(c, s, xs, me, k))
    && (forall i: nat :: i < |s.stream| && Open(c, s, i) ==> exists k :: HandsOut(c, s, xs, k, i))
  }

  // ---- What no peaceful run undoes ----

  predicate NoAdder(s: State) {
    forall a :: a in s.jobs ==> !s.jobs[a].ZAdding?
  }

  predicate Falls(r: Row, r': Row) {
    r' == r || (SameTask(r, r') && Potential(r') < Potential(r))
  }

  /** The tasks are the same, each row is as it was or nearer to its end, and the ZSET has nothing new. */
  predicate Later(s: State, s': State) {
    && s'.rows.Keys == s.rows.Keys && s'.zset.Keys <= s.zset.Keys
    && forall id :: id in s.rows ==> Falls(s.rows[id], s'.rows[id])
  }

  lemma AdvancePeace(c: Config, s: State, a: ActorId)
    requires RowsOk(s) && NoAdder(s) && a in s.jobs && JobOk(s, s.jobs[a])
    ensures NextRows(c, s, a).Keys == s.rows.Keys && NextZSet(s.zset, s.jobs[a]).Keys <= s.zset.Keys
    ensures NextJob(c, s, a).Some? ==> !NextJob(c, s, a).value.ZAdding?
  {
    AdvanceWrites(c, s, a);
  }

  lemma OtherPeace(c: Config, s: State, x: Action)
    requires Enabled(c, s, x) && !x.Advance? && !x.Submit?
    ensures var s' := DoOther(c, s, x); s'.rows == s.rows && s'.zset == s.zset
    ensures var s' := DoOther(c, s, x); !x.Wait? && x.actor in s'.jobs ==> !s'.jobs[x.actor].ZAdding? || x.actor in s.jobs
  {}

  lemma StepPeace(c: Config, s: State, x: Action, s': State)
    requires Rooted(c, s) && NoAdder(s) && Enabled(c, s, x) && !x.Submit? && s' == Apply(c, s, x)
    ensures Later(s, s') && NoAdder(s')
  {
    StepOthers(c, s, x);
    if x.Advance? {
      assert JobOk(s, s.jobs[x.actor]);
      AdvancePeace(c, s, x.actor);
    } else {
      OtherPeace(c, s, x);
    }
    StepFrame(c, s, x);
    forall id | id in s.rows ensures Falls(s.rows[id], s'.rows[id]) { RowFalls(c, s, x, s', id); }
  }

  lemma LaterTwice(s: State, b: State, s': State)
    requires Later(s, b) && Later(b, s')
    ensures Later(s, s')
  {}

  lemma StepInPeace(c: Config, s: State, x: Action, s': State)
    requires Inv(c, s) && NoAdder(s) && Enabled(c, s, x) && !x.Submit? && s' == Apply(c, s, x)
    ensures Inv(c, s') && Later(s, s') && NoAdder(s')
  {
    StepInv(c, s, x);
    StepPeace(c, s, x, s');
  }

  lemma {:induction false} RunPeace(c: Config, s: State, xs: seq<Action>, s': State)
    requires Inv(c, s) && NoAdder(s) && Ran(c, s, xs, s') && Peaceful(xs)
    ensures Inv(c, s') && Later(s, s') && NoAdder(s')
    decreases |xs|
  {
    if xs != [] {
      var before := Last(c, s, xs);
      RunPeace(c, s, xs[..|xs| - 1], before);
      StepInPeace(c, before, xs[|xs| - 1], s');
      LaterTwice(s, before, s');
    }
  }

  /** A run from its k-th state on. */
  lemma Suffix(c: Config, s: State, xs: seq<Action>, s': State, k: nat) returns (before: State)
    requires Ran(c, s, xs, s') && k < |xs|
    ensures Ran(c, s, xs[..k], before) && Enabled(c, before, xs[k])
    ensures Ran(c, Apply(c, before, xs[k]), xs[k + 1..], s') && Ran(c, before, xs[k..], s')
  {
    before := SplitRun(c, s, xs, k);
    NoActions(c, before);
    Further(c, before, [], before, xs[k]);
    Joined(c, before, [] + [xs[k]], Apply(c, before, xs[k]), xs[k + 1..], s');
    assert [] + [xs[k]] + xs[k + 1..] == xs[k..];
  }

  // ---- Progress ----

  predicate Progressed(s: State, s': State) {
    || (exists id :: id in s.rows && Lowered(s', id, s.rows[id]))
    || (exists id :: id in s.zset && id !in s'.zset)
  }

  lemma ProgressedLater(s: State, b: State, s': State)
    requires Later(s, b) && Later(b, s') && (Progressed(s, b) || Progressed(b, s'))
    ensures Progressed(s, s')
  {
    if id :| id in s.rows && Lowered(b, id, s.rows[id]) {
      assert Lowered(s', id, s.rows[id]);
    } else if id :| id in b.rows && Lowered(s', id, b.rows[id]) {
      assert Lowered(s', id, s.rows[id]);
    }
  }

  // ---- A message that is handed out ----

  lemma HandedOut(c: Config, s: State, x: Action, i: nat)
    requires Enabled(c, s, x) && i < |s.stream| && Takes(s, x, i)
    ensures
      var s1 := Apply(c, s, x);
      && s1.rows == s.rows && x.actor in s1.jobs && s1.jobs[x.actor].Received?
      && s1.jobs[x.actor].message == Message(i, s.stream[i].task)
  {}

  lemma HandedOutIsWritten(c: Config, s: State, x: Action, ys: seq<Action>, s': State, i: nat, id: TaskId)
    requires Reachable(c, s) && NoAdder(s) && Enabled(c, s, x) && Ran(c, Apply(c, s, x), ys, s') && Peaceful(ys) && Quiet(s')
    requires i < |s.stream| && Takes(s, x, i)
    requires Matches(s, id, Pending) && s.stream[i].task == id
    ensures Lowered(s', id, s.rows[id])
  {
    HandedOut(c, s, x, i);
    StepReachable(c, s, x);
    HandlingMovesOn(c, Apply(c, s, x), ys, x.actor, id);
  }

  lemma HandOut(c: Config, s: State, xs: seq<Action>, s': State, k: nat, i: nat) returns (b: State)
    requires Reachable(c, s) && NoAdder(s) && Ran(c, s, xs, s') && Peaceful(xs) && HandsOut(c, s, xs, k, i)
    ensures Ran(c, s, xs[..k], b) && Enabled(c, b, xs[k]) && Ran(c, Apply(c, b, xs[k]), xs[k + 1..], s')
    ensures Takes(b, xs[k], i)
    ensures Reachable(c, b) && NoAdder(b) && Later(s, b) && Later(b, s') && s.stream <= b.stream
  {
    b := Suffix(c, s, xs, s', k);
    ReachableKeepsInv(c, s);
    RunPeace(c, s, xs[..k], b);
    RunGrows(c, s, xs[..k]);
    ReachableFrom(c, s, xs[..k]);
    RunPeace(c, b, xs[k..], s');
  }

  /** Whoever gets a message of a pending task, the task is written before the round is over. */
  lemma MessageProgresses(c: Config, s: State, xs: seq<Action>, s': State, k: nat, i: nat, id: TaskId)
    requires Reachable(c, s) && NoAdder(s) && Ran(c, s, xs, s') && Peaceful(xs) && Quiet(s')
    requires Matches(s, id, Pending) && i < |s.stream| && s.stream[i].task == id && HandsOut(c, s, xs, k, i)
    ensures Progressed(s, s')
  {
    var b := HandOut(c, s, xs, s', k, i);
    if b.rows[id] == s.rows[id] {
      HandedOutIsWritten(c, b, xs[k], xs[k + 1..], s', i, id);
      assert Progressed(b, s');
    } else {
      assert Progressed(s, b);
    }
    ProgressedLater(s, b, s');
  }

  lemma StepReachable(c: Config, s: State, x: Action)
    requires Reachable(c, s) && Enabled(c, s, x)
    ensures Reachable(c, Apply(c, s, x))
  {
    NoActions(c, s);
    Further(c, s, [], s, x);
    ReachableFrom(c, s, [] + [x]);
  }

  // ---- A tick that comes late enough ----

  lemma {:induction false} TickIsLater(c: Config, s: State, xs: seq<Action>, s': State, me: ActorId)
    requires Inv(c, s) && Ran(c, s, xs, s') && xs != [] && xs[0] == StartTick(me)
    ensures me in s'.ticks && s.now <= s'.ticks[me].now
    decreases |xs|
  {
    var n := |xs| - 1;
    var before := Last(c, s, xs);
    if n > 0 {
      TickIsLater(c, s, xs[..n], before, me);
      RunKeepsInv(c, s, xs[..n]);
      TickAdvances(c, before, xs[n], me);
    }
  }

  /** The state b is that of a scan, in phase p, of a tick begun at t or later; what it found is settled in s'. */
  ghost predicate ScanIn(c: Config, s: State, b: State, s': State, me: ActorId, p: Phase, t: int, found: seq<TaskId>) {
    && ZSetOk(b) && Later(s, b) && Later(b, s')
    && me in b.ticks && b.ticks[me].phase == p && t <= b.ticks[me].now && ScanResult(c, b, b.ticks[me], found)
    && forall id :: id in found ==> Settled(c, b, s', me, p, id)
  }

  lemma LateScan(c: Config, s: State, xs: seq<Action>, s': State, me: ActorId, k: nat, p: Phase)
    returns (b: State, found: seq<TaskId>)
    requires Reachable(c, s) && NoAdder(s) && Ran(c, s, xs, s') && Peaceful(xs) && Quiet(s') && IsScanning(p)
    requires me in c.schedulers && StartsLate(c, s, xs, me, k)
    ensures ScanIn(c, s, b, s', me, p, RunFrom(c, s, xs[..k]).now, found)
  {
    var s1 := Suffix(c, s, xs, s', k);
    ReachableKeepsInv(c, s);
    RunPeace(c, s, xs[..k], s1);
    ReachableFrom(c, s, xs[..k]);
    b, found := ScanOfTick(c, s1, xs[k..], s', me, p);
    LaterTwice(s, s1, b);
  }

  lemma ScanOfTick(c: Config, s: State, ys: seq<Action>, s': State, me: ActorId, p: Phase)
    returns (b: State, found: seq<TaskId>)
    requires Reachable(c, s) && Inv(c, s) && NoAdder(s) && Ran(c, s, ys, s') && Peaceful(ys) && Quiet(s') && IsScanning(p)
    requires me in c.schedulers && ys != [] && ys[0] == StartTick(me)
    ensures ScanIn(c, s, b, s', me, p, s.now, found)
  {
    var i: nat;
    i, b, found := SomeScan(c, s, ys, s', me, p);
    TickIsLater(c, s, ys[..i], b, me);
    RunPeace(c, s, ys[..i], b);
    RunPeace(c, b, ys[i..], s');
  }

  lemma SomeScan(c: Config, s: State, ys: seq<Action>, s': State, me: ActorId, p: Phase)
    returns (i: nat, b: State, found: seq<TaskId>)
    requires Reachable(c, s) && Inv(c, s) && Ran(c, s, ys, s') && Peaceful(ys) && Quiet(s') && IsScanning(p)
    requires me in c.schedulers && ys != [] && ys[0] == StartTick(me)
    ensures 0 < i < |ys| && Ran(c, s, ys[..i], b) && Ran(c, b, ys[i..], s')
    ensures me in b.ticks && b.ticks[me].phase == p && ScanResult(c, b, b.ticks[me], found)
    ensures forall id :: id in found ==> Settled(c, b, s', me, p, id)
  {
    TickIsLater(c, s, ys, s', me);
    TicksAchieve(c, s, ys, me, p);
    i :| ScanAt(c, s, ys, me, i, p);
    b := Suffix(c, s, ys, s', i);
    found := ys[i].found;
  }

  /** What a scan found is written, or gone from the ZSET, when it is settled. */
  lemma FoundProgresses(c: Config, b: State, s': State, me: ActorId, p: Phase, id: TaskId)
    requires Later(b, s') && Settled(c, b, s', me, p, id)
    requires p == ScanningExpired ==> Matches(b, id, Running)
    requires p == ScanningRetrying ==> Matches(b, id, Retrying)
    requires p == ScanningExpired || p == ScanningRetrying || (p == ScanningZSet && id in b.zset)
    ensures Progressed(b, s')
  {
    if p != ScanningZSet { assert Lowered(s', id, b.rows[id]); }
  }

  lemma ExpiredProgress(c: Config, s: State, b: State, s': State, me: ActorId, t: int, found: seq<TaskId>, id: TaskId)
    requires ScanIn(c, s, b, s', me, ScanningExpired, t, found) && c.scanLimit > 0 && AllDue(s, t) && Matches(s, id, Running)
    ensures Progressed(s, s')
  {
    if b.rows[id] == s.rows[id] {
      assert id in ExpiredTasks(b.rows, b.ticks[me].now);
      assert found[0] in found && found[0] in ExpiredTasks(b.rows, b.ticks[me].now);
      FoundProgresses(c, b, s', me, ScanningExpired, found[0]);
    } else {
      assert Progressed(s, b);
    }
    ProgressedLater(s, b, s');
  }

  lemma RetryProgress(c: Config, s: State, b: State, s': State, me: ActorId, t: int, found: seq<TaskId>, id: TaskId)
    requires ScanIn(c, s, b, s', me, ScanningRetrying, t, found) && c.scanLimit > 0
    requires AllDue(s, t) && Matches(s, id, Retrying)
    ensures Progressed(s, s')
  {
    if b.rows[id] == s.rows[id] {
      assert id in DueRetryingTasks(b.rows, b.ticks[me].now);
      assert found[0] in found && found[0] in DueRetryingTasks(b.rows, b.ticks[me].now);
      FoundProgresses(c, b, s', me, ScanningRetrying, found[0]);
    } else {
      assert Progressed(s, b);
    }
    ProgressedLater(s, b, s');
  }

  lemma SameScore(s: State, b: State, id: TaskId)
    requires ZSetOk(s) && ZSetOk(b) && Later(s, b) && id in s.zset && id in b.zset
    ensures b.zset[id] == s.zset[id]
  {
    assert Falls(s.rows[id], b.rows[id]);
  }

  lemma MemberProgress(c: Config, s: State, b: State, s': State, me: ActorId, t: int, found: seq<TaskId>, id: TaskId)
    requires ScanIn(c, s, b, s', me, ScanningZSet, t, found) && c.scanLimit > 0 && AllDue(s, t) && ZSetOk(s) && id in s.zset
    ensures Progressed(s, s')
  {
    if id in b.zset {
      SameScore(s, b, id);
      assert id in DueMembers(b.zset, b.ticks[me].now);
      assert found[0] in found && found[0] in b.zset;
      FoundProgresses(c, b, s', me, ScanningZSet, found[0]);
      ProgressedLater(s, b, s');
    }
  }

  // ---- A round ----

  /** Every task is over, and the ZSET is empty. */
  predicate Over(s: State) {
    (forall id :: id in s.rows ==> s.rows[id].status.IsTerminal()) && s.zset == map[]
  }

  predicate AllGoOn(c: Config, s: State) {
    forall id :: id in s.rows ==> CanGoOn(c, s, id)
  }

  lemma WaitingProgresses(c: Config, s: State, xs: seq<Action>, s': State)
    requires Reachable(c, s) && Round(c, s, xs, s') && c.scanLimit > 0
    requires s.zset != map[] || exists id :: id in s.rows && (s.rows[id].status == Running || s.rows[id].status == Retrying)
    ensures Progressed(s, s')
  {
    ReachableKeepsInv(c, s);
    var me, k :| me in c.schedulers && StartsLate(c, s, xs, me, k);
    var t := RunFrom(c, s, xs[..k]).now;
    if s.zset != map[] {
      var id :| id in s.zset;
      var b, found := LateScan(c, s, xs, s', me, k, ScanningZSet);
      MemberProgress(c, s, b, s', me, t, found, id);
    } else {
      var id :| id in s.rows && (s.rows[id].status == Running || s.rows[id].status == Retrying);
      if s.rows[id].status == Running {
        var b, found := LateScan(c, s, xs, s', me, k, ScanningExpired);
        ExpiredProgress(c, s, b, s', me, t, found, id);
      } else {
        var b, found := LateScan(c, s, xs, s', me, k, ScanningRetrying);
        RetryProgress(c, s, b, s', me, t, found, id);
      }
    }
  }

  lemma RoundProgresses(c: Config, s: State, xs: seq<Action>, s': State)
    requires Reachable(c, s) && Round(c, s, xs, s') && c.scanLimit > 0 && AllGoOn(c, s) && !Over(s)
    ensures Progressed(s, s')
  {
    if s.zset != map[] || exists id :: id in s.rows && (s.rows[id].status == Running || s.rows[id].status == Retrying) {
      WaitingProgresses(c, s, xs, s');
    } else {
      var id :| id in s.rows && !s.rows[id].status.IsTerminal();
      assert CanGoOn(c, s, id);
      assert Matches(s, id, Pending) && HasAnyMessage(c, s, id);
      var i: int :| 0 <= i < |s.stream| && s.stream[i].task == id && Open(c, s, i);
      var k :| HandsOut(c, s, xs, k, i);
      MessageProgresses(c, s, xs, s', k, i, id);
    }
  }

  // ---- After a round every task can still go on ----

  /** The row is pending as it was in s, a message or an actor can bring it to run, and of the workers that have a message
      of it none is past its claim. */
  predicate Untouched(c: Config, s: State, s1: State, id: TaskId) {
    && Matches(s, id, Pending) && id in s1.rows && s1.rows[id] == s.rows[id]
    && (HasAnyMessage(c, s1, id) || SomebodyBrings(s1, id))
    && forall a :: a in s1.jobs && BusyWith(s1.jobs[a], id) ==> s1.jobs[a].Received? || s1.jobs[a].Claiming?
  }

  /** The job is a worker's, on a message of the task. */
  predicate BusyWith(j: Job, id: TaskId) {
    MessageOf(j).Some? && MessageOf(j).value.task == id
  }

  lemma AdvanceBusy(c: Config, s: State, a: ActorId, id: TaskId)
    requires a in s.jobs && Matches(s, id, Pending) && NextJob(c, s, a).Some? && BusyWith(NextJob(c, s, a).value, id)
    requires BusyWith(s.jobs[a], id) ==> s.jobs[a].Received? || s.jobs[a].Claiming?
    requires id in NextRows(c, s, a) && NextRows(c, s, a)[id] == s.rows[id]
    ensures NextJob(c, s, a).value.Claiming?
  {}

  lemma OtherBusy(c: Config, s: State, x: Action, id: TaskId)
    requires Enabled(c, s, x) && !x.Advance? && !x.Wait? && Sane(x)
    requires x.actor in DoOther(c, s, x).jobs && BusyWith(DoOther(c, s, x).jobs[x.actor], id)
    requires x.actor in s.jobs && BusyWith(s.jobs[x.actor], id) ==> s.jobs[x.actor].Received? || s.jobs[x.actor].Claiming?
    ensures DoOther(c, s, x).jobs[x.actor].Received?
  {}

  lemma NoneGetsBusy(c: Config, s: State, s1: State, x: Action, s2: State, id: TaskId, a: ActorId)
    requires Enabled(c, s1, x) && Sane(x) && s2 == Apply(c, s1, x) && Untouched(c, s, s1, id)
    requires id in s2.rows && s2.rows[id] == s1.rows[id] && a in s2.jobs && BusyWith(s2.jobs[a], id)
    ensures s2.jobs[a].Received? || s2.jobs[a].Claiming?
  {
    if Some(a) != ActorOf(x) { StepOthers(c, s1, x); }
    else if x.Advance? { AdvanceBusy(c, s1, a, id); }
    else { OtherBusy(c, s1, x, id); }
  }

  lemma StaysOpen(c: Config, s: State, x: Action, s': State, i: nat)
    requires c.recovers && Enabled(c, s, x) && s' == Apply(c, s, x) && i < |s.stream| && Open(c, s, i)
    ensures Open(c, s', i) || (x.Advance? && s.jobs[x.actor].Acking? && s.jobs[x.actor].message.entry == i)
  {}

  lemma MessageStaysOpen(c: Config, s: State, s1: State, x: Action, s2: State, id: TaskId)
    requires c.recovers && Rooted(c, s1) && Enabled(c, s1, x) && s2 == Apply(c, s1, x) && Untouched(c, s, s1, id)
    requires HasAnyMessage(c, s1, id)
    ensures HasAnyMessage(c, s2, id)
  {
    var i :| 0 <= i < |s1.stream| && s1.stream[i].task == id && Open(c, s1, i);
    StreamKept(c, s1, x, s2);
    assert s2.stream[i].task == id;
    StaysOpen(c, s1, x, s2, i);
    if !Open(c, s2, i) {
      assert false;
    }
  }

  lemma StepUntouched(c: Config, s: State, s1: State, x: Action, s2: State, id: TaskId)
    requires c.recovers && Rooted(c, s1) && Enabled(c, s1, x) && Sane(x) && s2 == Apply(c, s1, x) && Untouched(c, s, s1, id)
    requires id in s2.rows
    ensures Attended(s2, id) || Untouched(c, s, s2, id)
  {
    if s2.rows[id] != s1.rows[id] {
      WriteAttends(c, s1, x, id);
    } else {
      forall a | a in s2.jobs && BusyWith(s2.jobs[a], id) ensures s2.jobs[a].Received? || s2.jobs[a].Claiming? {
        NoneGetsBusy(c, s, s1, x, s2, id, a);
      }
      if HasAnyMessage(c, s1, id) { MessageStaysOpen(c, s, s1, x, s2, id); } else { BringerStays(c, s1, x, s2, id); }
    }
  }

  /** What a round keeps of a task that could go on before it. */
  predicate Kept(c: Config, s: State, s1: State, id: TaskId)
    requires id in s1.rows
  {
    if c.recovers then Attended(s1, id) || Untouched(c, s, s1, id) else CanGoOn(c, s1, id)
  }

  lemma StepKept(c: Config, s: State, s1: State, x: Action, s2: State, id: TaskId)
    requires Rooted(c, s1) && Enabled(c, s1, x) && Sane(x) && s2 == Apply(c, s1, x)
    requires id in s1.rows && id in s2.rows && Kept(c, s, s1, id)
    ensures Kept(c, s, s2, id)
  {
    if !c.recovers { StaysOn(c, s1, x, s2, id); }
    else if Attended(s1, id) { StaysAttended(c, s1, x, s2, id); }
    else { StepUntouched(c, s, s1, x, s2, id); }
  }

  lemma {:induction false} RunKept(c: Config, s: State, xs: seq<Action>, s1: State, id: TaskId)
    requires Inv(c, s) && Ran(c, s, xs, s1) && Peaceful(xs) && id in s.rows && Kept(c, s, s, id)
    ensures id in s1.rows && Kept(c, s, s1, id)
    decreases |xs|
  {
    RunKeepsTasks(c, s, xs, id);
    if xs != [] {
      var before := Last(c, s, xs);
      RunKept(c, s, xs[..|xs| - 1], before, id);
      RunKeepsInv(c, s, xs[..|xs| - 1]);
      StepKept(c, s, before, xs[|xs| - 1], s1, id);
    }
  }

  lemma KeptAtRest(c: Config, s: State, id: TaskId)
    requires RowsOk(s) && Quiet(s) && id in s.rows && CanGoOn(c, s, id)
    ensures Kept(c, s, s, id)
  {
    assert RowShape(s.rows[id]);
  }

  lemma RoundKeepsGoing(c: Config, s: State, xs: seq<Action>, s': State)
    requires Reachable(c, s) && Round(c, s, xs, s') && AllGoOn(c, s)
    ensures AllGoOn(c, s')
  {
    ReachableKeepsInv(c, s);
    RunPeace(c, s, xs, s');
    forall id | id in s'.rows ensures CanGoOn(c, s', id) {
      KeptAtRest(c, s, id);
      RunKept(c, s, xs, s', id);
      if c.recovers && Attended(s', id) { WillGoOn(c, s', id); }
    }
  }

  // ---- Rounds ----

  ghost function Distance(s: State): int {
    RowsLeft(s) + |s.zset|
  }

  lemma {:induction false} KeysShrink(m: map<TaskId, int>, m': map<TaskId, int>)
    requires m'.Keys <= m.Keys
    ensures |m'| <= |m| && (m'.Keys != m.Keys ==> |m'| < |m|)
    decreases |m|
  {
    if id :| id in m {
      DropSize(m, id);
      DropSize(m', id);
      KeysShrink(m - {id}, m' - {id});
      assert m.Keys == (m - {id}).Keys + {id};
      assert id in m' ==> m'.Keys == (m' - {id}).Keys + {id};
    } else {
      assert m' == map[];
    }
  }

  lemma DistanceFalls(s: State, s': State)
    requires Later(s, s')
    ensures Distance(s') <= Distance(s) && (Progressed(s, s') ==> Distance(s') < Distance(s))
  {
    KeysShrink(s.zset, s'.zset);
    forall id | id in s.rows ensures Potential(s'.rows[id]) <= Potential(s.rows[id]) {
      assert Falls(s.rows[id], s'.rows[id]);
    }
    SumFalls(s.rows, s'.rows, Potential);
  }

  /** A round leads from each state to the next one, in any order. */
  ghost predicate Rounds(c: Config, ss: seq<State>) {
    ss != [] && forall i :: 0 <= i < |ss| - 1 ==> RoundTo(c, ss[i], ss[i + 1])
  }

  ghost predicate RoundTo(c: Config, s: State, s': State) {
    exists xs :: Round(c, s, xs, s')
  }

  lemma OneRound(c: Config, s: State, xs: seq<Action>, s': State)
    requires Reachable(c, s) && Round(c, s, xs, s') && AllGoOn(c, s) && c.scanLimit > 0
    ensures Reachable(c, s') && AllGoOn(c, s')
    ensures Distance(s') <= Distance(s) && (!Over(s) ==> Distance(s') < Distance(s)) && (Over(s) ==> Over(s'))
  {
    ReachableKeepsInv(c, s);
    ReachableFrom(c, s, xs);
    RunPeace(c, s, xs, s');
    RoundKeepsGoing(c, s, xs, s');
    DistanceFalls(s, s');
    if Over(s) {
      forall id | id in s.rows ensures s'.rows[id].status.IsTerminal() { TerminalRowsAreFrozen(c, s, xs, id); }
    } else {
      RoundProgresses(c, s, xs, s');
    }
  }

  lemma {:induction false} RoundsCount(c: Config, ss: seq<State>)
    requires Rounds(c, ss) && Reachable(c, ss[0]) && AllGoOn(c, ss[0]) && c.scanLimit > 0
    ensures
      var s, s' := ss[0], ss[|ss| - 1];
      Reachable(c, s') && AllGoOn(c, s') && (Over(s') || Distance(s') <= Distance(s) - (|ss| - 1))
    decreases |ss|
  {
    var n := |ss| - 1;
    if n > 0 {
      RoundsCount(c, ss[..n]);
      assert RoundTo(c, ss[n - 1], ss[n]);
      var xs :| Round(c, ss[n - 1], xs, ss[n]);
      OneRound(c, ss[n - 1], xs, ss[n]);
    }
  }

  /** As many rounds as the distance of the first state says finish every task, whatever happens in which order, if every
      task can go on at the start. */
  lemma RoundsFinish(c: Config, ss: seq<State>)
    requires Rounds(c, ss) && Reachable(c, ss[0]) && AllGoOn(c, ss[0]) && c.scanLimit > 0 && |ss| > Distance(ss[0])
    ensures Over(ss[|ss| - 1]) && Reachable(c, ss[|ss| - 1])
  {
    RoundsCount(c, ss);
    if !Over(ss[|ss| - 1]) {
      ReachableKeepsInv(c, ss[|ss| - 1]);
      NoDistance(ss[|ss| - 1]);
    }
  }

  lemma NoDistance(s: State)
    requires RowsOk(s) && Distance(s) <= 0
    ensures Over(s)
  {
    RowsLeftIsNatural(s);
    forall id | id in s.rows ensures s.rows[id].status.IsTerminal() {
      assert RowShape(s.rows[id]);
      AllPotentials(s, id);
    }
  }

  lemma AllPotentials(s: State, id: TaskId)
    requires RowsOk(s) && id in s.rows
    ensures Potential(s.rows[id]) <= RowsLeft(s)
  {
    forall i | i in s.rows ensures Potential(s.rows[i]) >= 0 { assert RowShape(s.rows[i]); }
    SumNonNegative(s.rows, Potential);
  }

  // ---- The last round ----

  /** Nothing is left to publish. */
  predicate Winding(s: State) {
    Over(s) && forall a :: a in s.jobs ==> !s.jobs[a].ZAdding? && !s.jobs[a].Publishing?
  }

  lemma AdvanceWinds(c: Config, s: State, a: ActorId)
    requires Over(s) && a in s.jobs && JobOk(s, s.jobs[a]) && !s.jobs[a].ZAdding? && !s.jobs[a].Publishing?
    ensures NextStream(s.stream, s.jobs[a]) == s.stream && NextRows(c, s, a) == s.rows && NextZSet(s.zset, s.jobs[a]) == s.zset
    ensures var n := NextJob(c, s, a); n.Some? ==> !n.value.ZAdding? && !n.value.Publishing?
  {}

  lemma OtherWinds(c: Config, s: State, x: Action)
    requires Enabled(c, s, x) && !x.Advance? && !x.Submit?
    ensures var s' := DoOther(c, s, x); s'.stream == s.stream && s'.rows == s.rows && s'.zset == s.zset
    ensures
      var s' := DoOther(c, s, x);
      !x.Wait? && x.actor in s'.jobs && (s'.jobs[x.actor].ZAdding? || s'.jobs[x.actor].Publishing?) ==>
        x.actor in s.jobs && s.jobs[x.actor] == s'.jobs[x.actor]
  {}

  lemma StepWinds(c: Config, s: State, x: Action, s': State)
    requires JobsOk(s) && Winding(s) && Enabled(c, s, x) && !x.Submit? && s' == Apply(c, s, x)
    ensures Winding(s') && s'.stream == s.stream && s'.rows == s.rows
  {
    if x.Advance? { AdvanceWinds(c, s, x.actor); } else { OtherWinds(c, s, x); }
    StepOthers(c, s, x);
    forall a | a in s'.jobs ensures !s'.jobs[a].ZAdding? && !s'.jobs[a].Publishing? {
      if Some(a) != ActorOf(x) { assert s'.jobs[a] == s.jobs[a]; }
    }
  }

  lemma {:induction false} RunWinds(c: Config, s: State, xs: seq<Action>, s': State)
    requires Inv(c, s) && Winding(s) && Ran(c, s, xs, s') && Peaceful(xs)
    ensures Winding(s') && s'.stream == s.stream && s'.rows == s.rows
    decreases |xs|
  {
    if xs != [] {
      var before := Last(c, s, xs);
      RunWinds(c, s, xs[..|xs| - 1], before);
      RunKeepsInv(c, s, xs[..|xs| - 1]);
      StepWinds(c, before, xs[|xs| - 1], s');
    }
  }

  /** The entry is acked, or a is about to ack it. */
  predicate AckedBy(s: State, a: ActorId, i: nat) {
    && i < s.delivered
    && (i in s.pel ==> a in s.jobs && (s.jobs[a].Received? || s.jobs[a].Acking?) && s.jobs[a].message.entry == i)
  }

  lemma AckerAdvances(c: Config, s: State, a: ActorId, i: nat)
    requires Over(s) && a in s.jobs && JobOk(s, s.jobs[a]) && (s.jobs[a].Received? || s.jobs[a].Acking?)
    requires s.jobs[a].message.entry == i && i < s.delivered
    ensures AckedBy(DoAdvance(c, s, a), a, i)
  {}

  lemma StaysOutOfPel(c: Config, s: State, x: Action, s': State, i: nat)
    requires Enabled(c, s, x) && s' == Apply(c, s, x) && i < s.delivered && i !in s.pel
    ensures i !in s'.pel && i < s'.delivered
  {}

  lemma StepAcked(c: Config, s: State, x: Action, s': State, a: ActorId, i: nat)
    requires JobsOk(s) && Over(s) && Enabled(c, s, x) && Sane(x) && s' == Apply(c, s, x) && AckedBy(s, a, i)
    ensures AckedBy(s', a, i)
  {
    if i !in s.pel {
      StaysOutOfPel(c, s, x, s', i);
    } else {
      ActsOrStays(c, s, x, s', a);
      if x == Advance(a) { AckerAdvances(c, s, a, i); } else { DeliveredGrows(c, s, x, s'); }
    }
  }

  lemma DeliveredGrows(c: Config, s: State, x: Action, s': State)
    requires Enabled(c, s, x) && s' == Apply(c, s, x)
    ensures s.delivered <= s'.delivered
  {}

  lemma {:induction false} RunAcked(c: Config, s: State, xs: seq<Action>, s': State, a: ActorId, i: nat)
    requires Inv(c, s) && Winding(s) && Ran(c, s, xs, s') && Peaceful(xs) && AckedBy(s, a, i)
    ensures AckedBy(s', a, i)
    decreases |xs|
  {
    if xs != [] {
      var before := Last(c, s, xs);
      RunAcked(c, s, xs[..|xs| - 1], before, a, i);
      RunKeepsInv(c, s, xs[..|xs| - 1]);
      RunWinds(c, s, xs[..|xs| - 1], before);
      StepAcked(c, before, xs[|xs| - 1], s', a, i);
    }
  }

  lemma HandedOutIsAcked(c: Config, s: State, x: Action, i: nat)
    requires StreamOk(s) && Enabled(c, s, x) && i < |s.stream|
    requires Takes(s, x, i)
    ensures AckedBy(Apply(c, s, x), x.actor, i)
  {}

  /** It was delivered, and if un-acked entries come back it was acked. */
  predicate EntryOver(c: Config, s: State, i: nat) {
    i < s.delivered && (c.recovers ==> i !in s.pel)
  }

  lemma EntryIsAcked(c: Config, s: State, xs: seq<Action>, s': State, i: nat)
    requires Reachable(c, s) && Winding(s) && Round(c, s, xs, s') && i < |s.stream|
    ensures EntryOver(c, s', i)
  {
    ReachableKeepsInv(c, s);
    if Open(c, s, i) {
      var k :| HandsOut(c, s, xs, k, i);
      OpenIsAcked(c, s, xs, s', k, i);
    } else {
      RunGrows(c, s, xs);
      if c.recovers { RunAcked(c, s, xs, s', 0, i); }
    }
  }

  lemma OpenIsAcked(c: Config, s: State, xs: seq<Action>, s': State, k: nat, i: nat)
    requires Reachable(c, s) && Inv(c, s) && Winding(s) && Ran(c, s, xs, s') && Peaceful(xs) && Quiet(s')
    requires i < |s.stream| && HandsOut(c, s, xs, k, i)
    ensures i < s'.delivered && i !in s'.pel
  {
    var b := HandOut(c, s, xs, s', k, i);
    RunWinds(c, s, xs[..k], b);
    AckedAfterwards(c, b, xs[k], Apply(c, b, xs[k]), xs[k + 1..], s', i);
  }

  lemma AckedAfterwards(c: Config, s: State, x: Action, s1: State, ys: seq<Action>, s': State, i: nat)
    requires Reachable(c, s) && Winding(s) && Enabled(c, s, x) && s1 == Apply(c, s, x) && !x.Submit?
    requires Ran(c, s1, ys, s') && Peaceful(ys) && Quiet(s')
    requires i < |s.stream| && Takes(s, x, i)
    ensures i < s'.delivered && i !in s'.pel
  {
    ReachableKeepsInv(c, s);
    HandedOutIsAcked(c, s, x, i);
    StepInv(c, s, x);
    StepWinds(c, s, x, s1);
    RunAcked(c, s1, ys, s', x.actor, i);
  }

  /** One more round, and nothing is left. */
  lemma LastRoundDrains(c: Config, s: State, xs: seq<Action>, s': State)
    requires Reachable(c, s) && Round(c, s, xs, s') && Over(s)
    ensures Drained(c, s')
  {
    ReachableKeepsInv(c, s);
    RunWinds(c, s, xs, s');
    RunKeepsInv(c, s, xs);
    forall i | 0 <= i < |s.stream| ensures EntryOver(c, s', i) {
      EntryIsAcked(c, s, xs, s', i);
    }
    NothingLeft(c, s');
  }

  lemma NothingLeft(c: Config, s: State)
    requires StreamOk(s) && Quiet(s) && Over(s)
    requires forall i :: 0 <= i < |s.stream| ==> EntryOver(c, s, i)
    ensures Drained(c, s)
  {
    assert |s.stream| > 0 ==> EntryOver(c, s, |s.stream| - 1);
    assert c.recovers ==> forall e :: e in s.pel ==> !EntryOver(c, s, e);
  }

  /** A bounded number of rounds, whatever happens in which order, drains every run that can be drained. */
  lemma RoundsDrain(c: Config, ss: seq<State>)
    requires Rounds(c, ss) && Reachable(c, ss[0]) && AllGoOn(c, ss[0]) && c.scanLimit > 0 && |ss| > Distance(ss[0]) + 1
    ensures Drained(c, ss[|ss| - 1])
  {
    var n := |ss| - 1;
    DistanceIsNatural(c, ss[0]);
    RoundsFinish(c, ss[..n]);
    assert RoundTo(c, ss[n - 1], ss[n]);
    OneMoreDrains(c, ss[n - 1], ss[n]);
  }

  lemma OneMoreDrains(c: Config, s: State, s': State)
    requires Reachable(c, s) && RoundTo(c, s, s') && Over(s)
    ensures Drained(c, s')
  {
    var xs :| Round(c, s, xs, s');
    LastRoundDrains(c, s, xs, s');
  }

  lemma DistanceIsNatural(c: Config, s: State)
    requires Reachable(c, s)
    ensures Distance(s) >= 0
  {
    ReachableKeepsInv(c, s);
    RowsLeftIsNatural(s);
  }
}
