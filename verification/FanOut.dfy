/**
 Worker.Run: one main loop, a semaphore, a wait group and the handler goroutines it spawns.
 Every action is one channel operation, one consumer call, one goroutine step, or something that
 happens around the worker (cancellation, another consumer).
*/
module FanOut {
  import opened Basics

  type EntryId = nat
  type GoroutineId = nat

  datatype Main =
    | Starting                                          // owes EnsureGroup
    | Top                                               // the select at the head of the loop
    | Reclaiming                                        // owes ClaimPending
    | Reading                                           // owes ReadBatch
    | Handing(batch: seq<EntryId>, recovered: bool)     // owes acquireSlot for the head of the batch
    | Spawning(batch: seq<EntryId>, recovered: bool)    // holds a slot for the head of the batch
    | Pausing                                           // wait after an error
    | Waiting                                           // the deferred wg.Wait
    | Returned
    | FailedToStart

  /** A goroutine gives its slot back before it leaves the wait group. */
  datatype Goroutine = Handling(entry: EntryId) | Released(entry: EntryId)

  datatype Settings = Settings(concurrency: nat, pendingMinIdle: int, pendingClaimBatch: int, pendingRecoveryTick: int)

  datatype State = State(
    main: Main,
    cancelled: bool,
    slots: nat,                               // tokens in the semaphore channel
    group: nat,                               // the wait group's counter
    goroutines: map<GoroutineId, Goroutine>,
    read: set<EntryId>,                       // returned to the main loop by ReadBatch or ClaimPending
    spawned: set<EntryId>,
    acked: set<EntryId>,
    foreign: set<EntryId>,                    // claimed at some time by another consumer
    lastRecovery: Option<int>,
    recoveries: seq<int>)                     // the instants at which ClaimPending was decided on

  datatype Action =
    | Cancel
    | EnsureGroup(ok: bool)
    | Loop(now: int)
    | Claimed(batch: seq<EntryId>)
    | ClaimFailed(canceled: bool)
    | Read(batch: seq<EntryId>)
    | ReadNothing
    | ReadFailed(canceled: bool)
    | Acquire
    | AcquireCancelled(canceled: bool)
    | Spawn(g: GoroutineId)
    | BatchDone
    | Resume
    | Ack(g: GoroutineId)
    | Release(g: GoroutineId)
    | Leave(g: GoroutineId)
    | GroupDone
    | ForeignClaim(entry: EntryId)
    | ForeignAck(entry: EntryId)

  function Init(): State {
    State(Starting, false, 0, 0, map[], {}, {}, {}, {}, None, [])
  }

  // shouldRecoverPending
  predicate ShouldRecover(c: Settings, s: State, now: int) {
    && c.pendingMinIdle > 0 && c.pendingClaimBatch > 0 && c.pendingRecoveryTick > 0
    && (s.lastRecovery.None? || now - s.lastRecovery.value >= c.pendingRecoveryTick)
  }

  predicate Enabled(c: Settings, s: State, x: Action) {
    match x
    case Cancel => true
    case EnsureGroup(_) => s.main == Starting
    case Loop(_) => s.main == Top
    case Claimed(batch) => s.main == Reclaiming && forall e :: e in batch ==> e !in s.acked
    case ClaimFailed(canceled) => s.main == Reclaiming && (canceled ==> s.cancelled)
    case Read(batch) => s.main == Reading && batch != [] && forall e :: e in batch ==> e !in s.read && e !in s.acked
    case ReadNothing => s.main == Reading
    case ReadFailed(canceled) => s.main == Reading && (canceled ==> s.cancelled)
    case Acquire => s.main.Handing? && s.main.batch != [] && s.slots < c.concurrency
    case AcquireCancelled(_) => s.main.Handing? && s.main.batch != [] && s.cancelled
    case Spawn(g) => s.main.Spawning? && s.main.batch != [] && g !in s.goroutines
    case BatchDone => s.main.Handing? && s.main.batch == []
    case Resume => s.main == Pausing
    case Ack(g) => g in s.goroutines && s.goroutines[g].Handling?
    case Release(g) => g in s.goroutines && s.goroutines[g].Handling? && s.slots > 0
    case Leave(g) => g in s.goroutines && s.goroutines[g].Released? && s.group > 0
    case GroupDone => s.main == Waiting && s.group == 0
    case ForeignClaim(_) => true
    case ForeignAck(e) => e in s.foreign
  }

  function Apply(c: Settings, s: State, x: Action): State
    requires Enabled(c, s, x)
  {
    match x
    case Cancel => s.(cancelled := true)
    case EnsureGroup(ok) => s.(main := if ok then Top else FailedToStart)
    case Loop(now) =>
      if s.cancelled then s.(main := Waiting)
      else if ShouldRecover(c, s, now)
      then s.(main := Reclaiming, lastRecovery := Some(now), recoveries := s.recoveries + [now])
      else s.(main := Reading)
    case Claimed(batch) => s.(main := Handing(batch, true), read := s.read + set e | e in batch)
    case ClaimFailed(canceled) => s.(main := if canceled then Waiting else Pausing)
    case Read(batch) => s.(main := Handing(batch, false), read := s.read + set e | e in batch)
    case ReadNothing => s.(main := Top)
    case ReadFailed(canceled) => s.(main := if canceled then Waiting else Pausing)
    case Acquire => s.(main := Spawning(s.main.batch, s.main.recovered), slots := s.slots + 1)
    case AcquireCancelled(canceled) =>
      // recoverPending hands ctx.Err() to Run, which only recognizes context.Canceled
      s.(main := if s.main.recovered && !canceled then Pausing else Waiting)
    case Spawn(g) =>
      var e := s.main.batch[0];
      s.(main := Handing(s.main.batch[1..], s.main.recovered), group := s.group + 1,
         goroutines := s.goroutines[g := Handling(e)], spawned := s.spawned + {e})
    case BatchDone => s.(main := if s.main.recovered then Reading else Top)
    case Resume => s.(main := Top)
    case Ack(g) => s.(acked := s.acked + {s.goroutines[g].entry})
    case Release(g) =>
      s.(slots := s.slots - 1, goroutines := s.goroutines[g := Released(s.goroutines[g].entry)])
    case Leave(g) => s.(group := s.group - 1, goroutines := s.goroutines - {g})
    case GroupDone => s.(main := Returned)
    case ForeignClaim(e) => s.(foreign := s.foreign + {e})
    case ForeignAck(e) => s.(acked := s.acked + {e})
  }

  // ---- Invariants ----

  function UsesSlot(g: Goroutine): int {
    if g.Handling? then 1 else 0
  }

  function One(g: Goroutine): int { 1 }

  /** Handler goroutines running now. */
  ghost function Handlers(s: State): int {
    Sum(s.goroutines, UsesSlot)
  }

  function Reserved(m: Main): int {
    if m.Spawning? then 1 else 0
  }

  ghost predicate SlotsOk(c: Settings, s: State) {
    && s.slots <= c.concurrency
    && s.slots == Handlers(s) + Reserved(s.main)
    && s.group == Sum(s.goroutines, One)
  }

  predicate EntriesOk(s: State) {
    && (forall g :: g in s.goroutines ==> s.goroutines[g].entry in s.spawned)
    && (forall e :: e in s.acked ==> e in s.spawned || e in s.foreign)
    && s.spawned <= s.read
    && (s.main.Handing? || s.main.Spawning? ==> forall e :: e in s.main.batch ==> e in s.read)
    && (s.main.Spawning? ==> s.main.batch != [])
  }

  predicate Stopped(m: Main) {
    m == Waiting || m == Returned
  }

  /** Until the worker is cancelled, every message it was given is spawned or still in its batch. */
  predicate NothingDropped(s: State) {
    (!s.cancelled ==> !Stopped(s.main)) &&
    (!s.cancelled ==>
       forall e :: e in s.read ==> e in s.spawned || ((s.main.Handing? || s.main.Spawning?) && e in s.main.batch))
  }

  predicate ReturnOk(s: State) {
    s.main == Returned ==> s.group == 0
  }

  predicate RecoveriesOk(c: Settings, s: State) {
    && (forall i :: 0 <= i < |s.recoveries| - 1 ==> s.recoveries[i] + c.pendingRecoveryTick <= s.recoveries[i + 1])
    && (if s.recoveries == [] then s.lastRecovery == None
        else s.lastRecovery == Some(s.recoveries[|s.recoveries| - 1]))
  }

  ghost predicate Inv(c: Settings, s: State) {
    SlotsOk(c, s) && EntriesOk(s) && NothingDropped(s) && ReturnOk(s) && RecoveriesOk(c, s)
  }

  function ActsOn(x: Action): Option<GoroutineId> {
    match x
    case Spawn(g) => Some(g)
    case Release(g) => Some(g)
    case Leave(g) => Some(g)
    case _ => None
  }

  lemma StepSlots(c: Settings, s: State, x: Action)
    requires SlotsOk(c, s) && Enabled(c, s, x)
    ensures SlotsOk(c, Apply(c, s, x))
  {
    var s' := Apply(c, s, x);
    match ActsOn(x)
    case Some(g) =>
      assert s'.goroutines - {g} == s.goroutines - {g};
      SumLocal(s.goroutines, s'.goroutines, g, UsesSlot);
      SumLocal(s.goroutines, s'.goroutines, g, One);
    case None =>
      assert s'.goroutines == s.goroutines;
  }

  lemma StepEntries(c: Settings, s: State, x: Action)
    requires EntriesOk(s) && Enabled(c, s, x)
    ensures EntriesOk(Apply(c, s, x))
  {
    if x.Spawn? { assert forall e :: e in s.main.batch[1..] ==> e in s.main.batch; }
  }

  lemma StepNothingDropped(c: Settings, s: State, x: Action)
    requires EntriesOk(s) && NothingDropped(s) && Enabled(c, s, x)
    ensures NothingDropped(Apply(c, s, x))
  {
    if x.Spawn? {
      assert s.main.batch == [s.main.batch[0]] + s.main.batch[1..];
    }
  }

  lemma GoroutinesAreCounted(s: State)
    ensures s.goroutines != map[] ==> Sum(s.goroutines, One) >= 1
  {
    if g :| g in s.goroutines {
      SumNonNegative(s.goroutines, One);
      assert One(s.goroutines[g]) == 1;
    }
  }

  lemma NoGroupNoGoroutines(s: State)
    requires s.group == Sum(s.goroutines, One) && s.group == 0
    ensures s.goroutines == map[] && Handlers(s) == 0
  {
    GoroutinesAreCounted(s);
  }

  lemma StepInv(c: Settings, s: State, x: Action)
    requires Inv(c, s) && Enabled(c, s, x)
    ensures Inv(c, Apply(c, s, x))
  {
    StepSlots(c, s, x);
    StepEntries(c, s, x);
    StepNothingDropped(c, s, x);
    if s.main == Returned { NoGroupNoGoroutines(s); }
  }

  ghost predicate Reaches(c: Settings, xs: seq<Action>, s: State)
    decreases |xs|
  {
    if xs == [] then s == Init()
    else
      var x := xs[|xs| - 1];
      exists s0 :: Reaches(c, xs[..|xs| - 1], s0) && Enabled(c, s0, x) && s == Apply(c, s0, x)
  }

  lemma ReachesNext(c: Settings, xs: seq<Action>, s: State, x: Action)
    requires Reaches(c, xs, s) && Enabled(c, s, x)
    ensures Reaches(c, xs + [x], Apply(c, s, x))
  {
    var ys := xs + [x];
    assert ys[..|ys| - 1] == xs && ys[|ys| - 1] == x;
    assert Reaches(c, ys[..|ys| - 1], s) && Enabled(c, s, ys[|ys| - 1]);
  }

  lemma {:induction false} ReachableInv(c: Settings, xs: seq<Action>, s: State)
    requires Reaches(c, xs, s)
    ensures Inv(c, s)
    decreases |xs|
  {
    if xs != [] {
      var x := xs[|xs| - 1];
      var s0 :| Reaches(c, xs[..|xs| - 1], s0) && Enabled(c, s0, x) && s == Apply(c, s0, x);
      ReachableInv(c, xs[..|xs| - 1], s0);
      StepInv(c, s0, x);
    }
  }

  /** In every interleaving: handlers never exceed the limit, the semaphore holds exactly the running
      handlers and the slot the main loop has reserved, and once Run has returned nothing is running
      and every slot is free. */
  lemma FanOutIsBounded(c: Settings, xs: seq<Action>, s: State)
    requires Reaches(c, xs, s)
    ensures 0 <= Handlers(s) <= c.concurrency
    ensures s.slots == Handlers(s) + Reserved(s.main)
    ensures s.main == Returned ==> s.goroutines == map[] && s.slots == 0
  {
    ReachableInv(c, xs, s);
    SumNonNegative(s.goroutines, UsesSlot);
    if s.main == Returned { NoGroupNoGoroutines(s); }
  }

  /** While fewer handlers run than may, the next message of a batch is never held up. */
  lemma SlotIsThere(c: Settings, xs: seq<Action>, s: State)
    requires Reaches(c, xs, s) && s.main.Handing? && s.main.batch != [] && Handlers(s) < c.concurrency
    ensures Enabled(c, s, Acquire)
  {
    ReachableInv(c, xs, s);
  }

  /** A message given to the worker but not spawned is never acked by it, so shutdown leaves it in the
      pending list; and before cancellation no message is left out. */
  lemma UnspawnedIsUnacked(c: Settings, xs: seq<Action>, s: State, e: EntryId)
    requires Reaches(c, xs, s) && e in s.read && e !in s.spawned
    ensures e !in s.foreign ==> e !in s.acked
    ensures !s.cancelled ==> (s.main.Handing? || s.main.Spawning?) && e in s.main.batch
  {
    ReachableInv(c, xs, s);
  }

  /** Pending messages are reclaimed at most once in every recovery interval. */
  lemma RecoveriesAreSpaced(c: Settings, xs: seq<Action>, s: State, i: nat)
    requires Reaches(c, xs, s) && i + 1 < |s.recoveries|
    ensures s.recoveries[i] + c.pendingRecoveryTick <= s.recoveries[i + 1]
  {
    ReachableInv(c, xs, s);
  }

  predicate RecoveryIsOn(c: Settings) {
    c.pendingMinIdle > 0 && c.pendingClaimBatch > 0 && c.pendingRecoveryTick > 0
  }

  lemma Before(c: Settings, xs: seq<Action>, s: State) returns (s0: State)
    requires Reaches(c, xs, s) && xs != []
    ensures Reaches(c, xs[..|xs| - 1], s0) && Enabled(c, s0, xs[|xs| - 1]) && s == Apply(c, s0, xs[|xs| - 1])
  {
    s0 :| Reaches(c, xs[..|xs| - 1], s0) && Enabled(c, s0, xs[|xs| - 1]) && s == Apply(c, s0, xs[|xs| - 1]);
  }

  lemma {:induction false} CancelledByCancel(c: Settings, xs: seq<Action>, s: State)
    requires Reaches(c, xs, s)
    ensures s.cancelled <==> Cancel in xs
    decreases |xs|
  {
    if xs != [] {
      var s0 := Before(c, xs, s);
      CancelledByCancel(c, xs[..|xs| - 1], s0);
      assert xs == xs[..|xs| - 1] + [xs[|xs| - 1]];
    }
  }

  /** A turn of a worker that was not cancelled recovers pending messages if and only if recovery is on and it is the
      first turn, or a recovery interval has passed since the latest recovery. */
  lemma TurnRecovers(c: Settings, xs: seq<Action>, s: State, now: int)
    requires Reaches(c, xs, s) && s.main == Top && Cancel !in xs
    ensures
      var s' := Apply(c, s, Loop(now));
      var n := |s.recoveries|;
      if RecoveryIsOn(c) && (n == 0 || now - s.recoveries[n - 1] >= c.pendingRecoveryTick)
      then s'.recoveries == s.recoveries + [now] && s'.main == Reclaiming
      else s'.recoveries == s.recoveries && s'.main == Reading
  {
    ReachableInv(c, xs, s);
    CancelledByCancel(c, xs, s);
  }

  /** The turn at xs[i] was not cancelled. */
  predicate OpenTurn(xs: seq<Action>, i: nat) {
    i < |xs| && xs[i].Loop? && Cancel !in xs[..i]
  }

  lemma OpenTurnBefore(xs: seq<Action>, i: nat)
    requires OpenTurn(xs, i) && i < |xs| - 1
    ensures OpenTurn(xs[..|xs| - 1], i)
  {
    assert xs[..|xs| - 1][..i] == xs[..i];
  }

  predicate KeptUpAt(c: Settings, s: State, now: int) {
    exists j :: 0 <= j < |s.recoveries| && now - s.recoveries[j] < c.pendingRecoveryTick
  }

  lemma TurnKeepsUp(c: Settings, xs: seq<Action>, s: State, now: int)
    requires Reaches(c, xs, s) && RecoveryIsOn(c) && s.main == Top && Cancel !in xs
    ensures KeptUpAt(c, Apply(c, s, Loop(now)), now)
  {
    TurnRecovers(c, xs, s, now);
    var after := Apply(c, s, Loop(now)).recoveries;
    assert now - after[|after| - 1] < c.pendingRecoveryTick;
  }

  /** With recovery on, every turn lies less than an interval after the latest recovery before it, if it did not recover
      itself. */
  lemma {:induction false} RecoveriesKeepUp(c: Settings, xs: seq<Action>, s: State, i: nat) returns (s1: State)
    requires Reaches(c, xs, s) && RecoveryIsOn(c) && OpenTurn(xs, i)
    ensures Reaches(c, xs[..i + 1], s1) && KeptUpAt(c, s1, xs[i].now) && s1.recoveries <= s.recoveries
    decreases |xs|
  {
    var n := |xs| - 1;
    var s0 := Before(c, xs, s);
    if i == n {
      TurnKeepsUp(c, xs[..n], s0, xs[n].now);
      s1 := s;
      assert xs[..i + 1] == xs;
    } else {
      OpenTurnBefore(xs, i);
      s1 := RecoveriesKeepUp(c, xs[..n], s0, i);
      assert xs[..n][..i + 1] == xs[..i + 1];
    }
  }

  /** With recovery off there is none. */
  lemma {:induction false} NoRecoveries(c: Settings, xs: seq<Action>, s: State)
    requires Reaches(c, xs, s) && !RecoveryIsOn(c)
    ensures s.recoveries == []
    decreases |xs|
  {
    if xs != [] {
      var s0 := Before(c, xs, s);
      NoRecoveries(c, xs[..|xs| - 1], s0);
    }
  }

  /** How often the worker has called ClaimPending. */
  function ClaimCalls(xs: seq<Action>): nat {
    if xs == [] then 0
    else
      var x := xs[|xs| - 1];
      ClaimCalls(xs[..|xs| - 1]) + if x.Claimed? || x.ClaimFailed? then 1 else 0
  }

  /** Each recovery is one call of ClaimPending, and there are no others. */
  lemma {:induction false} RecoveriesAreClaims(c: Settings, xs: seq<Action>, s: State)
    requires Reaches(c, xs, s)
    ensures ClaimCalls(xs) + (if s.main == Reclaiming then 1 else 0) == |s.recoveries|
    decreases |xs|
  {
    if xs != [] {
      var s0 := Before(c, xs, s);
      RecoveriesAreClaims(c, xs[..|xs| - 1], s0);
    }
  }

  /** A goroutine never blocks on its way out, and the wait group's counter never goes below zero. */
  lemma GoroutinesGetOut(c: Settings, xs: seq<Action>, s: State, g: GoroutineId)
    requires Reaches(c, xs, s) && g in s.goroutines
    ensures Enabled(c, s, if s.goroutines[g].Handling? then Release(g) else Leave(g))
  {
    ReachableInv(c, xs, s);
    SumNonNegative(s.goroutines, UsesSlot);
    SumNonNegative(s.goroutines, One);
    assert UsesSlot(s.goroutines[g]) == 1 || s.goroutines[g].Released?;
    assert One(s.goroutines[g]) == 1;
  }
}
