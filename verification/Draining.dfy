/**
 Liveness.  From any reachable state in which no task was orphaned by a fault, with any number of
 actors in the middle of their work, the protocol can run to the end: every row terminal, the ZSET
 empty, every message acked.  It does so whatever the handlers answer, using only the program's own
 actions: the actors go on, messages are delivered or claimed, and scheduler ticks come late enough.
*/
module Draining {
  import opened Basics
  import opened Statuses
  import opened Rows
  import opened Protocol
  import opened Safety
  import opened Delivery
  import opened Guarantees
  import opened Histories
  import opened Scans
  import opened Carriers

  /** What the handler run by an actor answers; it may depend on anything. */
  type Oracle = (State, ActorId) -> Outcome

  /** Neither a fault nor new work, and handlers answer as the oracle says. */
  predicate Friendly(o: Oracle, s: State, x: Action) {
    && Sane(x) && !x.Submit?
    && (x.Finish? ==> x.outcome == o(s, x.actor))
  }

  ghost predicate FriendlyRun(c: Config, o: Oracle, s: State, xs: seq<Action>)
    requires Valid(c, s, xs)
    decreases |xs|
  {
    xs == [] ||
    (var init := xs[..|xs| - 1];
     FriendlyRun(c, o, s, init) && Friendly(o, RunFrom(c, s, init), xs[|xs| - 1]))
  }

  ghost predicate Leads(c: Config, o: Oracle, s: State, s': State) {
    exists xs :: Valid(c, s, xs) && FriendlyRun(c, o, s, xs) && RunFrom(c, s, xs) == s'
  }

  lemma Stays(c: Config, o: Oracle, s: State)
    ensures Leads(c, o, s, s)
  {
    var xs: seq<Action> := [];
    assert Valid(c, s, xs) && FriendlyRun(c, o, s, xs) && RunFrom(c, s, xs) == s;
  }

  lemma Then(c: Config, o: Oracle, s: State, s1: State, x: Action)
    requires Leads(c, o, s, s1) && Enabled(c, s1, x) && Friendly(o, s1, x)
    ensures Leads(c, o, s, Apply(c, s1, x))
  {
    var xs :| Valid(c, s, xs) && FriendlyRun(c, o, s, xs) && RunFrom(c, s, xs) == s1;
    Extend(c, s, xs, x);
    assert (xs + [x])[..|xs + [x]| - 1] == xs;
    assert FriendlyRun(c, o, s, xs + [x]);
  }

  lemma {:induction false} FriendlyConcat(c: Config, o: Oracle, s: State, xs: seq<Action>, ys: seq<Action>)
    requires Valid(c, s, xs) && FriendlyRun(c, o, s, xs)
    requires Valid(c, RunFrom(c, s, xs), ys) && FriendlyRun(c, o, RunFrom(c, s, xs), ys)
    ensures Leads(c, o, s, RunFrom(c, RunFrom(c, s, xs), ys))
    decreases |ys|
  {
    if ys == [] {
    } else {
      var init := ys[..|ys| - 1];
      FriendlyConcat(c, o, s, xs, init);
      Then(c, o, s, RunFrom(c, RunFrom(c, s, xs), init), ys[|ys| - 1]);
    }
  }

  lemma Onwards(c: Config, o: Oracle, s: State, s1: State, s2: State)
    requires Leads(c, o, s, s1) && Leads(c, o, s1, s2)
    ensures Leads(c, o, s, s2)
  {
    var xs :| Valid(c, s, xs) && FriendlyRun(c, o, s, xs) && RunFrom(c, s, xs) == s1;
    var ys :| Valid(c, s1, ys) && FriendlyRun(c, o, s1, ys) && RunFrom(c, s1, ys) == s2;
    FriendlyConcat(c, o, s, xs, ys);
  }

  /** Somebody attends to the task; without pending recovery it takes more than an un-acked message for that. */
  predicate Served(c: Config, s: State, id: TaskId)
    requires id in s.rows
  {
    if c.recovers then Attended(s, id) else CanGoOn(c, s, id)
  }

  /** Where draining may start from, and stays: somebody attends to every task. */
  ghost predicate Sound(c: Config, s: State) {
    Inv(c, s) && forall id :: id in s.rows ==> Served(c, s, id)
  }

  lemma SameTasks(c: Config, o: Oracle, s: State, x: Action, s': State)
    requires JobsOk(s) && RowsOk(s) && Enabled(c, s, x) && Friendly(o, s, x) && s' == Apply(c, s, x)
    ensures s'.rows.Keys == s.rows.Keys && s'.lost == s.lost
  {
    if x.Advance? {
      assert JobOk(s, s.jobs[x.actor]);
      AdvanceWrites(c, s, x.actor);
    } else {
      OtherRows(c, s, x);
    }
  }

  lemma StepSound(c: Config, o: Oracle, s: State, x: Action)
    requires Sound(c, s) && Enabled(c, s, x) && Friendly(o, s, x)
    ensures Sound(c, Apply(c, s, x))
  {
    var s' := Apply(c, s, x);
    StepInv(c, s, x);
    SameTasks(c, o, s, x, s');
    forall id | id in s'.rows ensures Served(c, s', id) {
      if c.recovers { StaysAttended(c, s, x, s', id); } else { StaysOn(c, s, x, s', id); }
    }
  }

  lemma {:induction false} FriendlyRunKeepsSound(c: Config, o: Oracle, s: State, xs: seq<Action>)
    requires Sound(c, s) && Valid(c, s, xs) && FriendlyRun(c, o, s, xs)
    ensures Sound(c, RunFrom(c, s, xs))
    decreases |xs|
  {
    if xs != [] {
      var init := xs[..|xs| - 1];
      FriendlyRunKeepsSound(c, o, s, init);
      StepSound(c, o, RunFrom(c, s, init), xs[|xs| - 1]);
    }
  }

  lemma StaysSound(c: Config, o: Oracle, s: State, s': State)
    requires Sound(c, s) && Leads(c, o, s, s')
    ensures Sound(c, s')
  {
    var xs :| Valid(c, s, xs) && FriendlyRun(c, o, s, xs) && RunFrom(c, s, xs) == s';
    FriendlyRunKeepsSound(c, o, s, xs);
  }

  // ---- The measure ----

  /** Commands a job still has before it, if nothing goes wrong. */
  function Steps(j: Job): int {
    match j
    case ZAdding(_, _) => 2
    case Publishing(_, _, _) => 6
    case CountingSubmitted(_) => 1
    case Inspecting(_) => 8
    case Dispatching(_, _) => 7
    case Removing(_) => 5
    case Recovering(_, _) => 16
    case Received(_, _) => 20
    case Claiming(_) => 19
    case Starting(_) => 18
    case Executing(_) => 17
    case Succeeding(_) => 16
    case CountingSuccess(_) => 11
    case Failing(_, _, _) => 16
    case Finalizing(_, _, _, _, _, _) => 15
    case Completing(_, _, _, _) => 14
    case CountingOutcome(_, _, _, _, _) => 13
    case Burying(_, _, _, _) => 12
    case CountingFailure(_) => 11
    case Acking(_) => 10
  }

  /** The store entries a job will add. */
  function Additions(j: Job): int {
    if j.ZAdding? || j.Publishing? then 1 else 0
  }

  /** The same for what is left of a tick. */
  function TickWork(limit: nat, t: Tick): int {
    match t.phase
    case Idle => 0
    case DispatchingRetrying => 1 + 30 * |t.todo|
    case ScanningRetrying => 2 + 30 * limit
    case DispatchingZSet => 3 + 30 * limit + 30 * |t.todo|
    case ScanningZSet => 4 + 60 * limit
    case RecoveringExpired => 5 + 60 * limit + 30 * |t.todo|
    case ScanningExpired => 6 + 90 * limit
  }

  function TickSteps(limit: nat): Tick -> int {
    (t: Tick) => TickWork(limit, t)
  }

  ghost function RowsLeft(s: State): int {
    Sum(s.rows, Potential)
  }

  ghost function EntriesLeft(s: State): int {
    |s.stream| - s.delivered + |s.pel| + |s.zset| + Sum(s.jobs, Additions)
  }

  ghost function WorkLeft(c: Config, s: State): int {
    Sum(s.jobs, Steps) + Sum(s.ticks, TickSteps(c.scanLimit))
  }

  lemma RowsLeftIsNatural(s: State)
    requires RowsOk(s)
    ensures RowsLeft(s) >= 0
  {
    forall id | id in s.rows ensures Potential(s.rows[id]) >= 0 { assert RowShape(s.rows[id]); }
    SumNonNegative(s.rows, Potential);
  }

  lemma EntriesLeftIsNatural(s: State)
    requires StreamOk(s)
    ensures EntriesLeft(s) >= 0
  {
    SumNonNegative(s.jobs, Additions);
  }

  lemma WorkLeftIsNatural(c: Config, s: State)
    ensures WorkLeft(c, s) >= 0
  {
    SumNonNegative(s.jobs, Steps);
    SumNonNegative(s.ticks, TickSteps(c.scanLimit));
  }

  lemma MeasureIsNatural(c: Config, s: State)
    requires Rooted(c, s)
    ensures RowsLeft(s) >= 0 && EntriesLeft(s) >= 0 && WorkLeft(c, s) >= 0
  {
    RowsLeftIsNatural(s);
    EntriesLeftIsNatural(s);
    WorkLeftIsNatural(c, s);
  }

  /** Row potential first, then entries, then work in progress. */
  ghost predicate Less(c: Config, s': State, s: State) {
    || RowsLeft(s') < RowsLeft(s)
    || (RowsLeft(s') == RowsLeft(s)
        && (EntriesLeft(s') < EntriesLeft(s)
            || (EntriesLeft(s') == EntriesLeft(s) && WorkLeft(c, s') < WorkLeft(c, s))))
  }

  // ---- An actor with a job goes on ----

  lemma PutSize<K, V>(m: map<K, V>, k: K, v: V)
    ensures |m[k := v]| == |m| + if k in m then 0 else 1
  {
    var rest := m - {k};
    assert m[k := v].Keys == m.Keys + {k};
  }

  lemma DropSize<K, V>(m: map<K, V>, k: K)
    ensures |m - {k}| == |m| - if k in m then 1 else 0
  {
    assert (m - {k}).Keys == m.Keys - {k};
  }

  function StepsAt(jobs: map<ActorId, Job>, a: ActorId): int {
    if a in jobs then Steps(jobs[a]) else 0
  }

  function AdditionsAt(jobs: map<ActorId, Job>, a: ActorId): int {
    if a in jobs then Additions(jobs[a]) else 0
  }

  function TickWorkAt(limit: nat, ticks: map<ActorId, Tick>, a: ActorId): int {
    if a in ticks then TickWork(limit, ticks[a]) else 0
  }

  /** Only actor a's job and tick differ. */
  predicate Local(s: State, s': State, a: ActorId) {
    s'.jobs - {a} == s.jobs - {a} && s'.ticks - {a} == s.ticks - {a}
  }

  lemma WorkChange(c: Config, s: State, s': State, a: ActorId)
    requires Local(s, s', a)
    ensures WorkLeft(c, s') == WorkLeft(c, s)
      + StepsAt(s'.jobs, a) - StepsAt(s.jobs, a)
      + TickWorkAt(c.scanLimit, s'.ticks, a) - TickWorkAt(c.scanLimit, s.ticks, a)
  {
    SumLocal(s.jobs, s'.jobs, a, Steps);
    SumLocal(s.ticks, s'.ticks, a, TickSteps(c.scanLimit));
  }

  function StoredEntries(s: State): int {
    |s.stream| - s.delivered + |s.pel| + |s.zset|
  }

  lemma EntriesChange(s: State, s': State, a: ActorId)
    requires Local(s, s', a)
    ensures EntriesLeft(s') == EntriesLeft(s)
      + StoredEntries(s') - StoredEntries(s) + AdditionsAt(s'.jobs, a) - AdditionsAt(s.jobs, a)
  {
    SumLocal(s.jobs, s'.jobs, a, Additions);
  }

  /** A step of a that writes no row, adds no entries and spends work. */
  predicate Spends(c: Config, s: State, s': State, a: ActorId) {
    && Local(s, s', a) && s'.rows == s.rows
    && StoredEntries(s') + AdditionsAt(s'.jobs, a) <= StoredEntries(s) + AdditionsAt(s.jobs, a)
    && StepsAt(s'.jobs, a) + TickWorkAt(c.scanLimit, s'.ticks, a)
         < StepsAt(s.jobs, a) + TickWorkAt(c.scanLimit, s.ticks, a)
  }

  lemma SpendingLess(c: Config, s: State, s': State, a: ActorId)
    requires Spends(c, s, s', a)
    ensures Less(c, s', s)
  {
    WorkChange(c, s, s', a);
    EntriesChange(s, s', a);
  }

  lemma WritingLowersRows(c: Config, s: State, a: ActorId)
    requires Rooted(c, s) && a in s.jobs && RowWrite(c, s, a).Some?
    ensures RowsLeft(DoAdvance(c, s, a)) < RowsLeft(s)
  {
    var s' := DoAdvance(c, s, a);
    var id := TaskOf(s.jobs[a]);
    assert JobOk(s, s.jobs[a]);
    AdvanceWrites(c, s, a);
    WriteChanges(c, s, a);
    WriteLowersPotential(s.rows[id], s'.rows[id]);
    assert s'.rows - {id} == s.rows - {id};
    SumLocal(s.rows, s'.rows, id, Potential);
  }

  lemma WriteChanges(c: Config, s: State, a: ActorId)
    requires a in s.jobs && JobOk(s, s.jobs[a]) && RowWrite(c, s, a).Some?
    ensures TaskOf(s.jobs[a]) in s.rows && RowWrite(c, s, a).value.status != s.rows[TaskOf(s.jobs[a])].status
  {}

  lemma QuietZSet(zset: map<TaskId, int>, j: Job)
    ensures |NextZSet(zset, j)| <= |zset| + if j.ZAdding? then 1 else 0
  {
    if j.ZAdding? {
      PutSize(zset, j.task, UnixSeconds(j.runAt));
    } else if j.Removing? {
      DropSize(zset, j.task);
    }
  }

  lemma QuietPel(pel: map<nat, int>, j: Job)
    ensures |NextPel(pel, j)| <= |pel|
  {
    if j.Acking? { DropSize(pel, j.message.entry); }
  }

  /** What a job adds to the stores, its additions included. */
  lemma QuietStores(s: State, j: Job)
    ensures |NextStream(s.stream, j)| + |NextPel(s.pel, j)| + |NextZSet(s.zset, j)|
         <= |s.stream| + |s.pel| + |s.zset| + Additions(j)
  {
    QuietZSet(s.zset, j);
    QuietPel(s.pel, j);
  }

  lemma QuietSteps(c: Config, s: State, a: ActorId)
    requires a in s.jobs && RowWrite(c, s, a).None? && !s.jobs[a].Executing?
    ensures var n := NextJob(c, s, a); n.Some? ==> Steps(n.value) < Steps(s.jobs[a]) && Additions(n.value) == 0
    ensures Steps(s.jobs[a]) > 0
  {}

  lemma AdvanceIsLocal(c: Config, s: State, a: ActorId)
    requires a in s.jobs
    ensures
      var s', n := DoAdvance(c, s, a), NextJob(c, s, a);
      && Local(s, s', a) && s'.ticks == s.ticks && s'.delivered == s.delivered
      && s'.stream == NextStream(s.stream, s.jobs[a]) && s'.pel == NextPel(s.pel, s.jobs[a])
      && s'.zset == NextZSet(s.zset, s.jobs[a])
      && StepsAt(s'.jobs, a) == (if n.Some? then Steps(n.value) else 0)
      && AdditionsAt(s'.jobs, a) == (if n.Some? then Additions(n.value) else 0)
  {}

  lemma QuietRows(c: Config, s: State, a: ActorId)
    requires a in s.jobs && RowWrite(c, s, a).None?
    ensures DoAdvance(c, s, a).rows == s.rows
  {}

  lemma QuietSpends(c: Config, s: State, a: ActorId)
    requires a in s.jobs && RowWrite(c, s, a).None? && !s.jobs[a].Executing?
    ensures Spends(c, s, DoAdvance(c, s, a), a)
  {
    AdvanceIsLocal(c, s, a);
    QuietRows(c, s, a);
    QuietStores(s, s.jobs[a]);
    QuietSteps(c, s, a);
  }

  lemma AdvanceLess(c: Config, s: State, a: ActorId)
    requires Rooted(c, s) && a in s.jobs && !s.jobs[a].Executing?
    ensures Less(c, DoAdvance(c, s, a), s)
  {
    if RowWrite(c, s, a).Some? {
      WritingLowersRows(c, s, a);
    } else {
      QuietSpends(c, s, a);
      SpendingLess(c, s, DoAdvance(c, s, a), a);
    }
  }

  lemma FinishSpends(c: Config, s: State, a: ActorId, outcome: Outcome)
    requires a in s.jobs && s.jobs[a].Executing?
    ensures Spends(c, s, Go(s, a, AfterHandler(s.jobs[a].message, outcome)), a)
  {}

  lemma ActorGoesOn(c: Config, o: Oracle, s: State, a: ActorId) returns (x: Action)
    requires Rooted(c, s) && a in s.jobs
    ensures Enabled(c, s, x) && Friendly(o, s, x) && Less(c, Apply(c, s, x), s)
    ensures x.Advance? || x.Finish?
  {
    if s.jobs[a].Executing? {
      x := Finish(a, o(s, a));
      FinishSpends(c, s, a, o(s, a));
      SpendingLess(c, s, Apply(c, s, x), a);
    } else {
      x := Advance(a);
      AdvanceLess(c, s, a);
    }
  }

  // ---- A tick goes on ----

  function Due(s: State, p: Phase, t: int): set<TaskId> {
    match p
    case ScanningExpired => ExpiredTasks(s.rows, t)
    case ScanningZSet => DueMembers(s.zset, t)
    case _ => DueRetryingTasks(s.rows, t)
  }

  /** The scan a tick is about to do has a result, empty only if nothing is due. */
  lemma ScanFinds(c: Config, s: State, t: Tick) returns (found: seq<TaskId>)
    requires IsScanning(t.phase)
    ensures ScanResult(c, s, t, found)
    ensures Due(s, t.phase, t.now) == {} ==> found == []
    ensures Due(s, t.phase, t.now) != {} && c.scanLimit > 0 ==> found != [] && found[0] in Due(s, t.phase, t.now)
  {
    match t.phase
    case ScanningExpired => found := ScanExists(ExpiredTasks(s.rows, t.now), StartedRank(s.rows), c.scanLimit);
    case ScanningZSet => found := ScanExists(DueMembers(s.zset, t.now), ScoreRank(s.zset), c.scanLimit);
    case _ => found := ScanExists(DueRetryingTasks(s.rows, t.now), RetryRank(s.rows), c.scanLimit);
  }

  lemma ScanSpends(c: Config, s: State, a: ActorId, found: seq<TaskId>)
    requires a in s.ticks && |found| <= c.scanLimit && !Processing(s.ticks[a].phase) && s.ticks[a].phase != Idle
    ensures Spends(c, s, DoScan(s, a, found), a)
  {}

  lemma TakenJobIsShort(rows: map<TaskId, Row>, p: Phase, id: TaskId)
    ensures Steps(TakenJob(rows, p, id)) <= 16 && Additions(TakenJob(rows, p, id)) == 0
  {}

  lemma TakeIsLocal(s: State, a: ActorId)
    requires Ticking(s, a) && s.ticks[a].todo != []
    ensures
      var s', t := DoTake(s, a), s.ticks[a];
      && Local(s, s', a) && s'.rows == s.rows && StoredEntries(s') == StoredEntries(s)
      && a in s'.jobs && s'.jobs[a] == TakenJob(s.rows, t.phase, t.todo[0])
      && a in s'.ticks && s'.ticks[a] == t.(todo := t.todo[1..])
  {}

  lemma TakeSpends(c: Config, s: State, a: ActorId)
    requires Ticking(s, a) && Processing(s.ticks[a].phase) && s.ticks[a].todo != []
    ensures Spends(c, s, DoTake(s, a), a)
  {
    var t := s.ticks[a];
    TakenJobIsShort(s.rows, t.phase, t.todo[0]);
    TakeIsLocal(s, a);
  }

  lemma EndPhaseSpends(c: Config, s: State, a: ActorId)
    requires a in s.ticks && Processing(s.ticks[a].phase) && s.ticks[a].todo == []
    ensures Spends(c, s, DoEndPhase(s, a), a)
  {}

  lemma TickGoesOn(c: Config, o: Oracle, s: State, a: ActorId) returns (x: Action)
    requires Rooted(c, s) && Ticking(s, a) && s.ticks[a].phase != Idle
    ensures Enabled(c, s, x) && Friendly(o, s, x) && Less(c, Apply(c, s, x), s)
    ensures x.Scan? || x.Take? || x.EndPhase?
  {
    if !Processing(s.ticks[a].phase) {
      var found := ScanFinds(c, s, s.ticks[a]);
      x := Scan(a, found);
      ScannedRows(c, s, a, found);
      ScanSpends(c, s, a, found);
    } else if s.ticks[a].todo != [] {
      x := Take(a);
      TakeSpends(c, s, a);
    } else {
      x := EndPhase(a);
      EndPhaseSpends(c, s, a);
    }
    SpendingLess(c, s, Apply(c, s, x), a);
  }

  // ---- When nobody works and no tick runs ----

  predicate Quiet(s: State) {
    s.jobs == map[] && forall a :: a in s.ticks ==> s.ticks[a].phase == Idle
  }

  /** Nothing is left to do: every task is over and every message delivered; and acked, if un-acked ones come back. */
  predicate Drained(c: Config, s: State) {
    && Quiet(s)
    && (forall id :: id in s.rows ==> s.rows[id].status.IsTerminal())
    && s.zset == map[]
    && s.delivered == |s.stream| && (c.recovers ==> s.pel == map[])
  }

  predicate MessagesLeft(c: Config, s: State) {
    s.delivered < |s.stream| || (c.recovers && s.pel != map[])
  }

  /** Some row was written, or no row but an entry is gone. */
  ghost predicate Nearer(s': State, s: State) {
    RowsLeft(s') < RowsLeft(s) || (RowsLeft(s') == RowsLeft(s) && EntriesLeft(s') < EntriesLeft(s))
  }

  /** A worker goroutine with a message, everything else as in s. */
  predicate Holding(s: State, s1: State, a: ActorId, j: Job) {
    && s1.rows == s.rows && s1.zset == s.zset && s1.ticks == s.ticks
    && StoredEntries(s1) == StoredEntries(s)
    && s.jobs == map[] && s1.jobs == map[a := j]
  }

  lemma Delivered(c: Config, o: Oracle, s: State, a: ActorId) returns (s1: State)
    requires StreamOk(s) && s.jobs == map[] && a !in c.schedulers && s.delivered < |s.stream|
    ensures Leads(c, o, s, s1)
    ensures a in s1.jobs && s1.jobs[a].Received? && Holding(s, s1, a, s1.jobs[a])
    ensures s1.jobs[a].message.entry in s1.pel
  {
    Stays(c, o, s);
    Then(c, o, s, s, Deliver(a));
    s1 := Apply(c, s, Deliver(a));
    PutSize(s.pel, s.delivered, s.now);
  }

  lemma Reclaimed(c: Config, o: Oracle, s: State, a: ActorId) returns (s1: State)
    requires c.recovers && StreamOk(s) && s.jobs == map[] && a !in c.schedulers && s.pel != map[]
    ensures Leads(c, o, s, s1)
    ensures a in s1.jobs && s1.jobs[a].Received? && Holding(s, s1, a, s1.jobs[a])
    ensures s1.jobs[a].message.entry in s1.pel
  {
    var e :| e in s.pel;
    var late := s.pel[e] + c.minIdle;
    var t := if late > s.now then late else s.now;
    var w := s.(now := t);
    Stays(c, o, s);
    Then(c, o, s, s, Wait(t));
    assert w == Apply(c, s, Wait(t));
    Then(c, o, s, w, Reclaim(a, e));
    s1 := Apply(c, w, Reclaim(a, e));
    PutSize(s.pel, e, t);
  }

  lemma MessageTaken(c: Config, o: Oracle, s: State) returns (a: ActorId, s1: State)
    requires StreamOk(s) && s.jobs == map[] && MessagesLeft(c, s)
    ensures Leads(c, o, s, s1)
    ensures a in s1.jobs && s1.jobs[a].Received? && Holding(s, s1, a, s1.jobs[a])
    ensures s1.jobs[a].message.entry in s1.pel
  {
    a := FreshActor(c.schedulers);
    if s.delivered < |s.stream| { s1 := Delivered(c, o, s, a); } else { s1 := Reclaimed(c, o, s, a); }
  }

  lemma Acked(c: Config, s: State, s2: State, a: ActorId)
    requires a in s2.jobs && s2.jobs[a].Acking? && Holding(s, s2, a, s2.jobs[a]) && s2.jobs[a].message.entry in s2.pel
    ensures Nearer(DoAdvance(c, s2, a), s)
  {
    var s3 := DoAdvance(c, s2, a);
    DropSize(s2.pel, s2.jobs[a].message.entry);
    EntriesChange(s, s3, a);
  }

  /** Get and then, on a pending row, the claim; on a terminal one, the ack. */
  lemma Looked(c: Config, s: State, s1: State, a: ActorId)
    requires a in s1.jobs && s1.jobs[a].Received? && Holding(s, s1, a, s1.jobs[a])
    requires s1.jobs[a].message.task in s.rows
    requires var r := s.rows[s1.jobs[a].message.task]; r.status == Pending || r.status.IsTerminal()
    ensures
      var s2 := DoAdvance(c, s1, a);
      && a in s2.jobs && Holding(s, s2, a, s2.jobs[a]) && s2.pel == s1.pel
      && (s2.jobs[a] == Acking(s1.jobs[a].message) || (s2.jobs[a].Claiming? && RowWrite(c, s2, a).Some?))
  {}

  lemma HeldMessage(c: Config, s: State, a: ActorId)
    requires Sound(c, s) && a in s.jobs && s.jobs[a].Received?
    ensures MessageOk(s, s.jobs[a].message)
  {
    assert JobOk(s, s.jobs[a]);
  }

  /** When every row is pending or over, any message left is worth handling. */
  lemma MessageHandled(c: Config, o: Oracle, s: State) returns (s': State)
    requires Sound(c, s) && s.jobs == map[] && MessagesLeft(c, s)
    requires forall id :: id in s.rows ==> s.rows[id].status == Pending || s.rows[id].status.IsTerminal()
    ensures Leads(c, o, s, s') && Nearer(s', s)
  {
    var a, s1 := MessageTaken(c, o, s);
    StaysSound(c, o, s, s1);
    HeldMessage(c, s1, a);
    Looked(c, s, s1, a);
    var s2 := DoAdvance(c, s1, a);
    Then(c, o, s, s1, Advance(a));
    StaysSound(c, o, s, s2);
    s' := DoAdvance(c, s2, a);
    Then(c, o, s, s2, Advance(a));
    if s2.jobs[a].Acking? {
      Acked(c, s, s2, a);
    } else {
      WritingLowersRows(c, s2, a);
    }
  }

  // ---- A tick that comes late enough ----

  lemma {:induction false} Latest(m: map<TaskId, int>, floor: int) returns (t: int)
    ensures t >= floor && forall id :: id in m ==> m[id] <= t
    decreases |m|
  {
    if m == map[] {
      t := floor;
    } else {
      var id :| id in m;
      DropSize(m, id);
      var rest := Latest(m - {id}, floor);
      t := if m[id] > rest then m[id] else rest;
      forall x | x in m ensures m[x] <= t { if x != id { assert x in m - {id}; } }
    }
  }

  function Deadline(r: Row, now: int): int {
    if r.status == Running && r.startedAt.Some? then r.startedAt.value + r.timeoutSeconds * SECOND
    else if r.status == Retrying && r.nextRetryAt.Some? then r.nextRetryAt.value
    else now
  }

  predicate AllDue(s: State, t: int) {
    && t >= s.now
    && (forall id :: id in s.rows && s.rows[id].status == Running ==> IsExpired(s.rows[id], t))
    && (forall id :: id in s.rows && s.rows[id].status == Retrying ==> IsDueRetrying(s.rows[id], t))
    && (forall id :: id in s.zset ==> s.zset[id] <= UnixSeconds(t))
  }

  lemma LateEnough(s: State) returns (t: int)
    requires RowsOk(s)
    ensures AllDue(s, t)
  {
    var deadlines := map id | id in s.rows :: Deadline(s.rows[id], s.now);
    var scores := map id | id in s.zset :: s.zset[id] * SECOND;
    var t0 := Latest(deadlines, s.now);
    t := Latest(scores, t0);
    forall id | id in s.rows && s.rows[id].status == Running ensures IsExpired(s.rows[id], t) {
      assert RowShape(s.rows[id]) && deadlines[id] <= t;
    }
    forall id | id in s.rows && s.rows[id].status == Retrying ensures IsDueRetrying(s.rows[id], t) {
      assert RowShape(s.rows[id]) && deadlines[id] <= t;
    }
    forall id | id in s.zset ensures s.zset[id] <= UnixSeconds(t) {
      assert scores[id] <= t;
    }
  }

  /** s with scheduler a in a tick that began at t. */
  function InTick(s: State, a: ActorId, t: int, phase: Phase, todo: seq<TaskId>): State {
    s.(now := t, ticks := s.ticks[a := Tick(t, phase, todo)])
  }

  lemma TickStarted(c: Config, o: Oracle, s: State, a: ActorId, t: int)
    requires Quiet(s) && a in c.schedulers && t >= s.now
    ensures Leads(c, o, s, InTick(s, a, t, ScanningExpired, []))
  {
    var w := s.(now := t);
    Stays(c, o, s);
    Then(c, o, s, s, Wait(t));
    assert w == Apply(c, s, Wait(t));
    Then(c, o, s, w, StartTick(a));
    assert Apply(c, w, StartTick(a)) == InTick(s, a, t, ScanningExpired, []);
  }

  function NextScan(p: Phase): Phase {
    if p == ScanningExpired then ScanningZSet else ScanningRetrying
  }

  function Work(p: Phase): Phase {
    match p
    case ScanningExpired => RecoveringExpired
    case ScanningZSet => DispatchingZSet
    case _ => DispatchingRetrying
  }

  lemma Scanned(c: Config, o: Oracle, s: State, a: ActorId, t: int, p: Phase, found: seq<TaskId>)
    requires s.jobs == map[] && IsScanning(p) && Leads(c, o, s, InTick(s, a, t, p, []))
    requires ScanResult(c, InTick(s, a, t, p, []), Tick(t, p, []), found)
    ensures Leads(c, o, s, InTick(s, a, t, Work(p), found))
  {
    var s1 := InTick(s, a, t, p, []);
    assert s1.ticks[a] == Tick(t, p, []);
    Then(c, o, s, s1, Scan(a, found));
    ScannedState(s, a, t, p, found);
  }

  lemma ScannedState(s: State, a: ActorId, t: int, p: Phase, found: seq<TaskId>)
    requires IsScanning(p)
    ensures DoScan(InTick(s, a, t, p, []), a, found) == InTick(s, a, t, Work(p), found)
  {}

  lemma PhaseEnded(c: Config, o: Oracle, s: State, a: ActorId, t: int, p: Phase)
    requires s.jobs == map[] && (p == ScanningExpired || p == ScanningZSet)
    requires Leads(c, o, s, InTick(s, a, t, Work(p), []))
    ensures Leads(c, o, s, InTick(s, a, t, NextScan(p), []))
  {
    var s1 := InTick(s, a, t, Work(p), []);
    Then(c, o, s, s1, EndPhase(a));
    EndedPhase(s, a, t, p);
  }

  lemma EndedPhase(s: State, a: ActorId, t: int, p: Phase)
    requires p == ScanningExpired || p == ScanningZSet
    ensures DoEndPhase(InTick(s, a, t, Work(p), []), a) == InTick(s, a, t, NextScan(p), [])
  {}

  lemma PhaseSkipped(c: Config, o: Oracle, s: State, a: ActorId, t: int, p: Phase)
    requires s.jobs == map[] && (p == ScanningExpired || p == ScanningZSet) && Due(s, p, t) == {}
    requires Leads(c, o, s, InTick(s, a, t, p, []))
    ensures Leads(c, o, s, InTick(s, a, t, NextScan(p), []))
  {
    var found := ScanFinds(c, InTick(s, a, t, p, []), Tick(t, p, []));
    Scanned(c, o, s, a, t, p, found);
    PhaseEnded(c, o, s, a, t, p);
  }

  /** The scheduler is busy with one of the due tasks; rows and stores are as they were. */
  predicate Busy(s: State, s1: State, a: ActorId, j: Job) {
    && s1.rows == s.rows && s1.zset == s.zset && s1.stream == s.stream
    && s1.delivered == s.delivered && s1.pel == s.pel
    && s.jobs == map[] && s1.jobs == map[a := j] && s1.ticks - {a} == s.ticks - {a}
  }

  lemma Taken(c: Config, o: Oracle, s: State, a: ActorId, t: int, p: Phase, found: seq<TaskId>) returns (s1: State)
    requires s.jobs == map[] && IsScanning(p) && found != []
    requires Leads(c, o, s, InTick(s, a, t, Work(p), found))
    ensures Leads(c, o, s, s1) && Busy(s, s1, a, TakenJob(s.rows, Work(p), found[0]))
  {
    var w := InTick(s, a, t, Work(p), found);
    Then(c, o, s, w, Take(a));
    s1 := DoTake(w, a);
  }

  lemma FirstTaken(c: Config, o: Oracle, s: State, a: ActorId, t: int, p: Phase) returns (id: TaskId, s1: State)
    requires s.jobs == map[] && IsScanning(p) && c.scanLimit > 0 && Due(s, p, t) != {}
    requires Leads(c, o, s, InTick(s, a, t, p, []))
    ensures id in Due(s, p, t) && Leads(c, o, s, s1) && Busy(s, s1, a, TakenJob(s.rows, Work(p), id))
  {
    var found := ScanFinds(c, InTick(s, a, t, p, []), Tick(t, p, []));
    Scanned(c, o, s, a, t, p, found);
    id := found[0];
    s1 := Taken(c, o, s, a, t, p, found);
  }

  // ---- The task taken first gets nearer to its end ----

  lemma RowTaken(c: Config, o: Oracle, s: State, s1: State, a: ActorId, j: Job) returns (s': State)
    requires Sound(c, s) && Leads(c, o, s, s1) && Busy(s, s1, a, j) && !j.Executing?
    requires RowWrite(c, s1, a).Some?
    ensures Leads(c, o, s, s') && Nearer(s', s)
  {
    StaysSound(c, o, s, s1);
    Then(c, o, s, s1, Advance(a));
    s' := DoAdvance(c, s1, a);
    WritingLowersRows(c, s1, a);
  }

  lemma MemberRemoved(c: Config, o: Oracle, s: State, s1: State, a: ActorId, id: TaskId) returns (s': State)
    requires Leads(c, o, s, s1) && Busy(s, s1, a, Removing(id)) && id in s.zset
    ensures Leads(c, o, s, s') && Nearer(s', s)
  {
    Then(c, o, s, s1, Advance(a));
    s' := DoAdvance(c, s1, a);
    DropSize(s.zset, id);
    EntriesChange(s, s', a);
  }

  lemma MemberTaken(c: Config, o: Oracle, s: State, s1: State, a: ActorId, id: TaskId) returns (s': State)
    requires Sound(c, s) && Leads(c, o, s, s1) && Busy(s, s1, a, Inspecting(id)) && id in s.zset
    ensures Leads(c, o, s, s') && Nearer(s', s)
  {
    Then(c, o, s, s1, Advance(a));
    var s2 := DoAdvance(c, s1, a);
    Inspected(c, s, s1, a, id);
    if s2.jobs[a].Removing? {
      s' := MemberRemoved(c, o, s, s2, a, id);
    } else {
      s' := RowTaken(c, o, s, s2, a, s2.jobs[a]);
    }
  }

  lemma Inspected(c: Config, s: State, s1: State, a: ActorId, id: TaskId)
    requires Busy(s, s1, a, Inspecting(id))
    ensures
      var s2 := DoAdvance(c, s1, a);
      && a in s2.jobs && Busy(s, s2, a, s2.jobs[a])
      && (s2.jobs[a] == Removing(id) || (s2.jobs[a] == Dispatching(id, Scheduled) && RowWrite(c, s2, a).Some?))
  {}

  lemma RecoveryHits(c: Config, s: State, s1: State, a: ActorId, id: TaskId, t: int)
    requires Busy(s, s1, a, TakenJob(s.rows, RecoveringExpired, id)) && id in ExpiredTasks(s.rows, t)
    ensures RowWrite(c, s1, a).Some?
  {}

  lemma ExpiredHelps(c: Config, o: Oracle, s: State, a: ActorId, t: int) returns (s': State)
    requires Sound(c, s) && s.jobs == map[] && c.scanLimit > 0 && Due(s, ScanningExpired, t) != {}
    requires Leads(c, o, s, InTick(s, a, t, ScanningExpired, []))
    ensures Leads(c, o, s, s') && Nearer(s', s)
  {
    var id, s1 := FirstTaken(c, o, s, a, t, ScanningExpired);
    RecoveryHits(c, s, s1, a, id, t);
    s' := RowTaken(c, o, s, s1, a, TakenJob(s.rows, RecoveringExpired, id));
  }

  lemma MemberHelps(c: Config, o: Oracle, s: State, a: ActorId, t: int) returns (s': State)
    requires Sound(c, s) && s.jobs == map[] && c.scanLimit > 0 && Due(s, ScanningZSet, t) != {}
    requires Leads(c, o, s, InTick(s, a, t, ScanningZSet, []))
    ensures Leads(c, o, s, s') && Nearer(s', s)
  {
    var id, s1 := FirstTaken(c, o, s, a, t, ScanningZSet);
    s' := MemberTaken(c, o, s, s1, a, id);
  }

  lemma RetryHelps(c: Config, o: Oracle, s: State, a: ActorId, t: int) returns (s': State)
    requires Sound(c, s) && s.jobs == map[] && c.scanLimit > 0 && Due(s, ScanningRetrying, t) != {}
    requires Leads(c, o, s, InTick(s, a, t, ScanningRetrying, []))
    ensures Leads(c, o, s, s') && Nearer(s', s)
  {
    var id, s1 := FirstTaken(c, o, s, a, t, ScanningRetrying);
    s' := RowTaken(c, o, s, s1, a, Dispatching(id, Retrying));
  }

  /** A late tick makes progress whenever a row waits for it or the ZSET has members. */
  lemma TickHelps(c: Config, o: Oracle, s: State) returns (s': State)
    requires Sound(c, s) && Quiet(s) && c.schedulers != {} && c.scanLimit > 0
    requires s.zset != map[] || exists id :: id in s.rows && (s.rows[id].status == Running || s.rows[id].status == Retrying)
    ensures Leads(c, o, s, s') && Nearer(s', s)
  {
    var a :| a in c.schedulers;
    var t := LateEnough(s);
    SomethingDue(s, t);
    TickStarted(c, o, s, a, t);
    if Due(s, ScanningExpired, t) != {} {
      s' := ExpiredHelps(c, o, s, a, t);
    } else {
      PhaseSkipped(c, o, s, a, t, ScanningExpired);
      if Due(s, ScanningZSet, t) != {} {
        s' := MemberHelps(c, o, s, a, t);
      } else {
        PhaseSkipped(c, o, s, a, t, ScanningZSet);
        s' := RetryHelps(c, o, s, a, t);
      }
    }
  }

  lemma SomethingDue(s: State, t: int)
    requires AllDue(s, t)
    requires s.zset != map[] || exists id :: id in s.rows && (s.rows[id].status == Running || s.rows[id].status == Retrying)
    ensures Due(s, ScanningExpired, t) != {} || Due(s, ScanningZSet, t) != {} || Due(s, ScanningRetrying, t) != {}
  {
    if s.zset != map[] {
      var id :| id in s.zset;
      assert id in Due(s, ScanningZSet, t);
    } else {
      var id :| id in s.rows && (s.rows[id].status == Running || s.rows[id].status == Retrying);
      assert id in Due(s, ScanningExpired, t) || id in Due(s, ScanningRetrying, t);
    }
  }

  // ---- To the end ----

  lemma QuietProgress(c: Config, o: Oracle, s: State) returns (s': State)
    requires Sound(c, s) && Quiet(s) && c.schedulers != {} && c.scanLimit > 0 && !Drained(c, s)
    ensures Leads(c, o, s, s') && Nearer(s', s)
  {
    if s.zset != map[] || exists id :: id in s.rows && (s.rows[id].status == Running || s.rows[id].status == Retrying) {
      s' := TickHelps(c, o, s);
    } else {
      forall id | id in s.rows ensures s.rows[id].status == Pending || s.rows[id].status.IsTerminal() {
        assert Served(c, s, id);
      }
      MessageLeft(c, s);
      s' := MessageHandled(c, o, s);
    }
  }

  lemma MessageLeft(c: Config, s: State)
    requires Sound(c, s) && Quiet(s) && !Drained(c, s) && s.zset == map[]
    requires forall id :: id in s.rows ==> s.rows[id].status == Pending || s.rows[id].status.IsTerminal()
    ensures MessagesLeft(c, s)
  {
    if id :| id in s.rows && s.rows[id].status == Pending {
      assert Served(c, s, id);
      assert if c.recovers then HasMessage(s, Entry(id, s.rows[id].retryCount)) else HasAnyMessage(c, s, id);
    }
  }

  lemma Progress(c: Config, o: Oracle, s: State) returns (s': State)
    requires Sound(c, s) && c.schedulers != {} && c.scanLimit > 0 && !Drained(c, s)
    ensures Leads(c, o, s, s') && Less(c, s', s)
  {
    Stays(c, o, s);
    if a :| a in s.jobs {
      var x := ActorGoesOn(c, o, s, a);
      Then(c, o, s, s, x);
      s' := Apply(c, s, x);
    } else if a :| a in s.ticks && s.ticks[a].phase != Idle {
      var x := TickGoesOn(c, o, s, a);
      Then(c, o, s, s, x);
      s' := Apply(c, s, x);
    } else {
      assert s.jobs == map[];
      s' := QuietProgress(c, o, s);
    }
  }

  /** From every sound state there is a friendly run to a drained one, whatever the handlers answer. */
  lemma {:induction false} Drains(c: Config, o: Oracle, s: State) returns (s': State)
    requires Sound(c, s) && c.schedulers != {} && c.scanLimit > 0
    ensures Leads(c, o, s, s') && Drained(c, s')
    decreases RowsLeft(s), EntriesLeft(s), WorkLeft(c, s)
  {
    MeasureIsNatural(c, s);
    if Drained(c, s) {
      Stays(c, o, s);
      s' := s;
    } else {
      var s1 := Progress(c, o, s);
      StaysSound(c, o, s, s1);
      MeasureIsNatural(c, s1);
      s' := Drains(c, o, s1);
      Onwards(c, o, s, s1, s');
    }
  }

  /** With pending recovery every run in which no task was orphaned can be continued to the end of all its work,
      whatever the handlers answer. */
  lemma EveryRunCanBeDrained(c: Config, o: Oracle, s: State)
    requires c.schedulers != {} && c.scanLimit > 0 && c.recovers
    requires Reachable(c, s) && s.lost == {}
    ensures exists s' :: Leads(c, o, s, s') && Drained(c, s')
  {
    ReachableKeepsInv(c, s);
    var s' := Drains(c, o, s);
  }
}
