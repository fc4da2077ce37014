/** Where a delayed task comes from: its creator's ZADD, and then the ZSET until it is dispatched. */
module Origins {
  import opened Basics
  import opened Statuses
  import opened Rows
  import opened Protocol
  import opened Safety
  import opened Delivery
  import opened Guarantees

  /** The task whose creator is still at work. */
  function Creating(j: Job): set<TaskId> {
    match j
    case ZAdding(id, _) => {id}
    case Publishing(id, _, origin) => if origin == Created then {id} else {}
    case _ => {}
  }

  /** A creator's task is in no ZSET yet, has no second creator, and if it is delayed it still waits. */
  predicate CreatorsOk(s: State) {
    && (forall a, id :: a in s.jobs && id in Creating(s.jobs[a]) ==> id !in s.zset)
    && (forall a, b :: a in s.jobs && b in s.jobs && a != b ==> Creating(s.jobs[a]) !! Creating(s.jobs[b]))
    && (forall a :: a in s.jobs && s.jobs[a].ZAdding? ==> Matches(s, s.jobs[a].task, Scheduled))
    && (forall a :: a in s.jobs && s.jobs[a].Publishing? && s.jobs[a].origin == Created ==> s.jobs[a].attempt == 0)
  }

  /** As long as it is scheduled the task is in the ZSET. */
  predicate Backed(s: State, id: TaskId) {
    Matches(s, id, Scheduled) ==> id in s.zset
  }

  /** A job that will dispatch a delayed task. */
  predicate OfZSet(j: Job) {
    j.Inspecting? || (j.Dispatching? && j.from == Scheduled)
  }

  /** What a tick took from the ZSET is still there, or was dispatched. */
  predicate MembersOk(s: State) {
    && (forall a, id :: a in s.ticks && s.ticks[a].phase == DispatchingZSet && id in s.ticks[a].todo ==> Backed(s, id))
    && (forall a :: a in s.jobs && OfZSet(s.jobs[a]) ==> Backed(s, s.jobs[a].task))
  }

  predicate OriginsOk(s: State) {
    CreatorsOk(s) && MembersOk(s)
  }

  // ---- Effects of one step, store by store ----

  lemma ZSetGrowth(c: Config, s: State, x: Action, s': State, id: TaskId)
    requires Enabled(c, s, x) && s' == Apply(c, s, x) && id in s'.zset && id !in s.zset
    ensures x.Advance? && s.jobs[x.actor].ZAdding? && s.jobs[x.actor].task == id
  {}

  lemma NewCreator(c: Config, s: State, x: Action, s': State, id: TaskId)
    requires Enabled(c, s, x) && s' == Apply(c, s, x) && !x.Wait? && x.actor in s'.jobs && id in Creating(s'.jobs[x.actor])
    ensures x.Submit? && id == x.task && id !in s.rows && s'.zset == s.zset
    ensures s'.jobs[x.actor].ZAdding? ==> Matches(s', id, Scheduled)
    ensures s'.jobs[x.actor].Publishing? ==> s'.jobs[x.actor].attempt == 0
  {
    if x.Advance? { AdvanceCreator(c, s, x.actor, id); } else { OtherCreator(c, s, x, id); }
  }

  lemma AdvanceCreator(c: Config, s: State, a: ActorId, id: TaskId)
    requires a in s.jobs && NextJob(c, s, a).Some?
    ensures id !in Creating(NextJob(c, s, a).value)
  {}

  lemma OtherCreator(c: Config, s: State, x: Action, id: TaskId)
    requires Enabled(c, s, x) && !x.Advance? && !x.Wait? && x.actor in DoOther(c, s, x).jobs
    requires id in Creating(DoOther(c, s, x).jobs[x.actor])
    ensures
      var s' := DoOther(c, s, x);
      && x.Submit? && id == x.task && id !in s.rows && s'.zset == s.zset
      && (s'.jobs[x.actor].ZAdding? ==> Matches(s', id, Scheduled))
      && (s'.jobs[x.actor].Publishing? ==> s'.jobs[x.actor].attempt == 0)
  {}

  /** Only a tick's dispatch takes a task out of the scheduled status. */
  lemma LeavesScheduled(c: Config, s: State, x: Action, s': State, id: TaskId)
    requires Rooted(c, s) && Enabled(c, s, x) && s' == Apply(c, s, x)
    requires Matches(s, id, Scheduled) && !Matches(s', id, Scheduled)
    ensures x.Advance? && s.jobs[x.actor] == Dispatching(id, Scheduled)
  {
    if x.Advance? {
      assert JobOk(s, s.jobs[x.actor]);
    } else {
      OtherRows(c, s, x);
    }
  }

  lemma BackedStays(c: Config, s: State, x: Action, s': State, id: TaskId)
    requires JobsOk(s) && Enabled(c, s, x) && s' == Apply(c, s, x) && Frame(s, s')
    requires id in s.rows && Backed(s, id)
    ensures Backed(s', id)
  {
    if id in s.zset && id !in s'.zset { ZSetLoss(c, s, x, s', id); }
    StillBacked(s, s', id);
  }

  lemma StillBacked(s: State, s': State, id: TaskId)
    requires Frame(s, s') && id in s.rows && Backed(s, id) && (id in s.zset && id !in s'.zset ==> !Matches(s, id, Scheduled))
    ensures Backed(s', id)
  {}

  lemma {:induction false} RunBacked(c: Config, s: State, xs: seq<Action>, id: TaskId)
    requires Inv(c, s) && Valid(c, s, xs) && id in s.rows && Backed(s, id)
    ensures Backed(RunFrom(c, s, xs), id)
    decreases |xs|
  {
    if xs != [] {
      var init := xs[..|xs| - 1];
      RunBacked(c, s, init, id);
      RunKeepsInv(c, s, init);
      RunKeepsTasks(c, s, init, id);
      StepFrame(c, RunFrom(c, s, init), xs[|xs| - 1]);
      BackedStays(c, RunFrom(c, s, init), xs[|xs| - 1], RunFrom(c, s, xs), id);
    }
  }

  // ---- Creators ----

  lemma StepCreators(c: Config, s: State, x: Action)
    requires Rooted(c, s) && OriginsOk(s) && Enabled(c, s, x)
    ensures CreatorsOk(Apply(c, s, x))
  {
    var s' := Apply(c, s, x);
    StepOthers(c, s, x);
    forall a, id | a in s'.jobs && id in Creating(s'.jobs[a]) ensures id !in s'.zset { CreatorOutside(c, s, x, s', a, id); }
    forall a, b, id | a in s'.jobs && b in s'.jobs && a != b && id in Creating(s'.jobs[a])
      ensures id !in Creating(s'.jobs[b])
    {
      OneCreator(c, s, x, s', a, b, id);
    }
    forall a | a in s'.jobs && s'.jobs[a].ZAdding? ensures Matches(s', s'.jobs[a].task, Scheduled) {
      CreatorWaits(c, s, x, s', a);
    }
    forall a | a in s'.jobs && s'.jobs[a].Publishing? && s'.jobs[a].origin == Created ensures s'.jobs[a].attempt == 0 {
      if Some(a) == ActorOf(x) { NewCreator(c, s, x, s', s'.jobs[a].task); }
    }
  }

  lemma CreatorOutside(c: Config, s: State, x: Action, s': State, a: ActorId, id: TaskId)
    requires Rooted(c, s) && CreatorsOk(s) && Enabled(c, s, x) && s' == Apply(c, s, x) && OthersKept(s, s', x)
    requires a in s'.jobs && id in Creating(s'.jobs[a])
    ensures id !in s'.zset
  {
    if Some(a) == ActorOf(x) {
      NewCreator(c, s, x, s', id);
    } else if id in s'.zset {
      ZSetGrowth(c, s, x, s', id);
    }
  }

  lemma OneCreator(c: Config, s: State, x: Action, s': State, a: ActorId, b: ActorId, id: TaskId)
    requires Rooted(c, s) && CreatorsOk(s) && Enabled(c, s, x) && s' == Apply(c, s, x) && OthersKept(s, s', x)
    requires a in s'.jobs && b in s'.jobs && a != b && id in Creating(s'.jobs[a])
    ensures id !in Creating(s'.jobs[b])
  {
    if a in s.jobs { assert JobOk(s, s.jobs[a]); }
    if b in s.jobs { assert JobOk(s, s.jobs[b]); }
    if Some(a) == ActorOf(x) {
      NewCreator(c, s, x, s', id);
    } else if Some(b) == ActorOf(x) && id in Creating(s'.jobs[b]) {
      NewCreator(c, s, x, s', id);
    }
  }

  lemma CreatorWaits(c: Config, s: State, x: Action, s': State, a: ActorId)
    requires Rooted(c, s) && OriginsOk(s) && Enabled(c, s, x) && s' == Apply(c, s, x) && OthersKept(s, s', x)
    requires a in s'.jobs && s'.jobs[a].ZAdding?
    ensures Matches(s', s'.jobs[a].task, Scheduled)
  {
    var id := s'.jobs[a].task;
    if Some(a) == ActorOf(x) {
      NewCreator(c, s, x, s', id);
    } else if !Matches(s', id, Scheduled) {
      LeavesScheduled(c, s, x, s', id);
    }
  }

  // ---- Members ----

  lemma ScannedMembers(c: Config, s: State, a: ActorId, found: seq<TaskId>)
    requires Enabled(c, s, Scan(a, found)) && s.ticks[a].phase == ScanningZSet
    ensures forall id :: id in found ==> id in s.zset
  {}

  /** The ZSET work of an actor's own tick after its own action comes from its scan or from its list. */
  lemma OwnMembers(c: Config, s: State, x: Action, s': State, id: TaskId)
    requires Enabled(c, s, x) && s' == Apply(c, s, x) && !x.Advance? && !x.Wait?
    requires x.actor in s'.ticks && s'.ticks[x.actor].phase == DispatchingZSet && id in s'.ticks[x.actor].todo
    ensures
      || id in s.zset
      || (x.actor in s.ticks && s.ticks[x.actor].phase == DispatchingZSet && id in s.ticks[x.actor].todo)
  {
    if x.Scan? { ScannedMembers(c, s, x.actor, x.found); }
  }

  lemma OwnZSetJob(c: Config, s: State, x: Action, s': State)
    requires Enabled(c, s, x) && s' == Apply(c, s, x) && !x.Advance? && !x.Wait?
    requires x.actor in s'.jobs && OfZSet(s'.jobs[x.actor])
    ensures x.actor in s.ticks && s.ticks[x.actor].phase == DispatchingZSet && s'.jobs[x.actor].task in s.ticks[x.actor].todo
  {}

  lemma NextZSetJob(c: Config, s: State, a: ActorId)
    requires a in s.jobs && NextJob(c, s, a).Some? && OfZSet(NextJob(c, s, a).value)
    ensures OfZSet(s.jobs[a]) && NextJob(c, s, a).value.task == s.jobs[a].task
  {}

  lemma StepMembers(c: Config, s: State, x: Action)
    requires Rooted(c, s) && MembersOk(s) && Enabled(c, s, x)
    ensures MembersOk(Apply(c, s, x))
  {
    var s' := Apply(c, s, x);
    StepFrame(c, s, x);
    StepOthers(c, s, x);
    forall a, id | a in s'.ticks && s'.ticks[a].phase == DispatchingZSet && id in s'.ticks[a].todo ensures Backed(s', id) {
      MemberStays(c, s, x, s', a, id);
    }
    forall a | a in s'.jobs && OfZSet(s'.jobs[a]) ensures Backed(s', s'.jobs[a].task) { ZSetJobStays(c, s, x, s', a); }
  }

  lemma TickOrigin(c: Config, s: State, x: Action, s': State, a: ActorId)
    requires Enabled(c, s, x) && s' == Apply(c, s, x) && a in s'.ticks && (x.Advance? || Some(a) != ActorOf(x))
    ensures a in s.ticks && s'.ticks[a] == s.ticks[a]
  {}

  lemma MemberStays(c: Config, s: State, x: Action, s': State, a: ActorId, id: TaskId)
    requires Rooted(c, s) && MembersOk(s) && Enabled(c, s, x) && s' == Apply(c, s, x) && Frame(s, s')
    requires a in s'.ticks && s'.ticks[a].phase == DispatchingZSet && id in s'.ticks[a].todo
    ensures Backed(s', id)
  {
    if x.Advance? || Some(a) != ActorOf(x) {
      TickOrigin(c, s, x, s', a);
      assert TickOk(c, s, s.ticks[a]);
    } else {
      OwnMembers(c, s, x, s', id);
      if id !in s.zset { assert TickOk(c, s, s.ticks[a]); }
    }
    BackedStays(c, s, x, s', id);
  }

  lemma ZSetJobStays(c: Config, s: State, x: Action, s': State, a: ActorId)
    requires Rooted(c, s) && MembersOk(s) && Enabled(c, s, x) && s' == Apply(c, s, x) && Frame(s, s') && OthersKept(s, s', x)
    requires a in s'.jobs && OfZSet(s'.jobs[a])
    ensures Backed(s', s'.jobs[a].task)
  {
    var id := s'.jobs[a].task;
    if Some(a) != ActorOf(x) {
      assert JobOk(s, s.jobs[a]);
    } else if x.Advance? {
      NextZSetJob(c, s, a);
      assert JobOk(s, s.jobs[a]);
    } else {
      OwnZSetJob(c, s, x, s');
      assert TickOk(c, s, s.ticks[a]);
    }
    BackedStays(c, s, x, s', id);
  }

  lemma {:induction false} RunKeepsOrigins(c: Config, s: State, xs: seq<Action>)
    requires Inv(c, s) && OriginsOk(s) && Valid(c, s, xs)
    ensures OriginsOk(RunFrom(c, s, xs))
    decreases |xs|
  {
    if xs != [] {
      var init := xs[..|xs| - 1];
      RunKeepsOrigins(c, s, init);
      RunKeepsInv(c, s, init);
      StepCreators(c, RunFrom(c, s, init), xs[|xs| - 1]);
      StepMembers(c, RunFrom(c, s, init), xs[|xs| - 1]);
    }
  }

  lemma ReachableOrigins(c: Config, s: State)
    requires Reachable(c, s)
    ensures OriginsOk(s)
  {
    var now: int, xs: seq<Action> :| Valid(c, Init(now), xs) && RunFrom(c, Init(now), xs) == s;
    InitInv(c, now);
    RunKeepsOrigins(c, Init(now), xs);
  }
}
