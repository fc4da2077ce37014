/**
 internal/worker/worker.go: Run and what it calls, with the semaphore, the wait group and
 lastPendingRecovery as fields.  Every method is verified against any behaviour of the handler
 goroutines, of the other consumers and of whoever cancels the context.
*/
module Runners {
  import opened Basics
  import opened FanOut

  /** What ReadBatch and ClaimPending return; canceled says whether the error wraps context.Canceled. */
  datatype Reply = Messages(batch: seq<EntryId>) | NoMessages | Failed(canceled: bool)

  datatype Recovery = Recovered | Canceled | Error

  function AfterSpawn(s: State, g: GoroutineId, entry: EntryId, rest: seq<EntryId>): State
    requires s.main.Spawning?
  {
    State(Handing(rest, s.main.recovered), s.cancelled, s.slots, s.group + 1, s.goroutines[g := Handling(entry)], s.read,
          s.spawned + {entry}, s.acked, s.foreign, s.lastRecovery, s.recoveries)
  }

  lemma SpawnEffect(c: Settings, s: State, g: GoroutineId, entry: EntryId, rest: seq<EntryId>)
    requires s.main.Spawning? && s.main.batch == [entry] + rest && g !in s.goroutines
    ensures Enabled(c, s, Spawn(g))
    ensures Apply(c, s, Spawn(g)) == AfterSpawn(s, g, entry, rest)
  {
    assert s.main.batch[1..] == rest;
  }

  /** Between batches, and before cancellation, everything that was read has been spawned. */
  lemma AllSpawned(c: Settings, xs: seq<Action>, s: State)
    requires Reaches(c, xs, s) && !s.cancelled && !s.main.Handing? && !s.main.Spawning?
    ensures s.read <= s.spawned
  {
    ReachableInv(c, xs, s);
  }

  class Runner {
    const settings: Settings
    var cancelled: bool
    var slots: nat
    var group: nat
    var goroutines: map<GoroutineId, Goroutine>
    var lastPendingRecovery: Option<int>
    ghost var main: Main
    ghost var read: set<EntryId>
    ghost var spawned: set<EntryId>
    ghost var acked: set<EntryId>
    ghost var foreign: set<EntryId>
    ghost var recoveries: seq<int>
    ghost var history: seq<Action>
    var spawns: nat                 // goroutines spawned so far

    ghost function View(): State
      reads this
    {
      State(main, cancelled, slots, group, goroutines, read, spawned, acked, foreign, lastPendingRecovery, recoveries)
    }

    ghost predicate Valid()
      reads this
    {
      Reaches(settings, history, View()) && forall g :: g in goroutines ==> g < spawns
    }

    constructor (settings: Settings)
      ensures Valid() && View() == Init() && this.settings == settings
    {
      this.settings := settings;
      cancelled, slots, group, goroutines, lastPendingRecovery := false, 0, 0, map[], None;
      main, read, spawned, acked, foreign, recoveries := Starting, {}, {}, {}, {}, [];
      history, spawns := [], 0;
    }

    /** The fields have taken action x. */
    ghost method Note(before: State, x: Action)
      requires Reaches(settings, history, before) && Enabled(settings, before, x) && View() == Apply(settings, before, x)
      modifies this`history
      ensures history == old(history) + [x] && Reaches(settings, history, View())
    {
      ReachesNext(settings, history, before, x);
      history := history + [x];
    }

    /** The part of the state only the main loop writes. */
    twostate predicate MainUntouched()
      reads this
    {
      && main == old(main) && read == old(read) && spawned == old(spawned) && spawns == old(spawns)
      && lastPendingRecovery == old(lastPendingRecovery) && recoveries == old(recoveries)
      && old(history) <= history && (old(cancelled) ==> cancelled)
    }

    /** Time passes: goroutines handle, ack and leave, others claim, and somebody may cancel the context.  Callers
        know no more than this contract; the body is the case where nothing happens. */
    method Pause()
      requires Valid()
      modifies this
      ensures Valid() && MainUntouched()
    {
    }

    method Cancel()
      requires Valid()
      modifies this
      ensures Valid() && MainUntouched() && cancelled
      ensures goroutines == old(goroutines) && slots == old(slots) && group == old(group)
    {
      ghost var before := View();
      cancelled := true;
      Note(before, Action.Cancel);
    }

    /** The select on ctx.Done; the context is done at the latest when last says so. */
    method Done(last: bool) returns (done: bool)
      requires Valid()
      modifies this
      ensures Valid() && MainUntouched() && done == cancelled && (last ==> done)
    {
      Pause();
      if last { Cancel(); }
      done := cancelled;
    }

    method EnsureGroup() returns (ok: bool)
      requires Valid() && main == Starting
      modifies this
      ensures Valid() && main == (if ok then Top else FailedToStart) && old(history) <= history
    {
      Pause();
      ok := true;
      ghost var before := View();
      main := Top;
      Note(before, Action.EnsureGroup(true));
    }

    // shouldRecoverPending
    method ShouldRecoverPending(now: int) returns (due: bool)
      modifies `lastPendingRecovery
      ensures due == ShouldRecover(settings, old(View()), now)
      ensures due <==>
        && settings.pendingMinIdle > 0 && settings.pendingClaimBatch > 0 && settings.pendingRecoveryTick > 0
        && (old(lastPendingRecovery).None? || now - old(lastPendingRecovery).value >= settings.pendingRecoveryTick)
      ensures lastPendingRecovery == if due then Some(now) else old(lastPendingRecovery)
    {
      if settings.pendingMinIdle <= 0 || settings.pendingClaimBatch <= 0 || settings.pendingRecoveryTick <= 0 {
        return false;
      }
      if lastPendingRecovery.None? || now - lastPendingRecovery.value >= settings.pendingRecoveryTick {
        lastPendingRecovery := Some(now);
        return true;
      }
      due := false;
    }

    /** The head of the loop once the context was found open: recover pending messages, or read. */
    method Choose(now: int) returns (recover: bool)
      requires Valid() && main == Top && !cancelled
      modifies this
      ensures Valid() && main == (if recover then Reclaiming else Reading) && history == old(history) + [Loop(now)]
      ensures recover == ShouldRecover(settings, old(View()), now)
    {
      ghost var before := View();
      recover := ShouldRecoverPending(now);
      main := if recover then Reclaiming else Reading;
      if recover { recoveries := recoveries + [now]; }
      Note(before, Loop(now));
    }

    /** XREADGROUP or XPENDING with XCLAIM, as main asks for; the body is the case of a failure. */
    method Consume() returns (reply: Reply)
      requires Valid() && (main == Reading || main == Reclaiming)
      modifies this
      ensures Valid() && spawned == old(spawned) && old(history) <= history
      ensures
        match reply
        case Messages(batch) => main == Handing(batch, old(main) == Reclaiming) && (old(main) == Reading ==> batch != [])
        case NoMessages => main == if old(main) == Reading then Top else Handing([], true)
        case Failed(canceled) => main == (if canceled then Waiting else Pausing) && (canceled ==> cancelled)
    {
      Pause();
      ghost var before := View();
      ghost var x := if main == Reading then ReadFailed(false) else ClaimFailed(false);
      main := Pausing;
      Note(before, x);
      reply := Failed(false);
    }

    /** acquireSlot: blocks until the channel takes a token or the context is done. */
    method AcquireSlot() returns (acquired: bool)
      requires Valid() && main.Handing? && main.batch != []
      modifies this
      ensures Valid() && spawned == old(spawned) && read == old(read) && old(history) <= history
      ensures if acquired then main == Spawning(old(main).batch, old(main).recovered) else main == old(main) && cancelled
    {
      Pause();
      if slots < settings.concurrency {
        ghost var before := View();
        slots := slots + 1;
        main := Spawning(main.batch, main.recovered);
        Note(before, Acquire);
        return true;
      }
      Cancel();
      acquired := false;
    }

    /** spawnHandle: the goroutine joins the wait group and takes over the slot. */
    method SpawnHandle(entry: EntryId, ghost rest: seq<EntryId>)
      requires Valid() && main.Spawning? && main.batch == [entry] + rest
      modifies this
      ensures Valid() && main == Handing(rest, old(main).recovered) && read == old(read) && old(history) <= history
      ensures spawned == old(spawned) + {entry}
    {
      ghost var before := View();
      var g := spawns;
      group := group + 1;
      goroutines := goroutines[g := Handling(entry)];
      main, spawned, spawns := Handing(rest, main.recovered), spawned + {entry}, spawns + 1;
      NoteSpawn(before, g, entry, rest);
    }

    ghost method NoteSpawn(before: State, g: GoroutineId, entry: EntryId, rest: seq<EntryId>)
      requires Reaches(settings, history, before) && before.main.Spawning? && before.main.batch == [entry] + rest
      requires g !in before.goroutines && View() == AfterSpawn(before, g, entry, rest)
      modifies this`history
      ensures Reaches(settings, history, View()) && old(history) <= history
    {
      SpawnEffect(settings, before, g, entry, rest);
      Note(before, Spawn(g));
    }

    /** The loop over a batch; false when the context is done before a slot is free. */
    method SpawnAll(batch: seq<EntryId>, ghost recovered: bool) returns (all: bool)
      requires Valid() && main == Handing(batch, recovered)
      modifies this
      ensures Valid() && read == old(read) && old(history) <= history
      ensures all ==> main == Handing([], recovered) && spawned == old(spawned) + set e | e in batch
      ensures !all ==> main.Handing? && main.recovered == recovered && main.batch != [] && cancelled
    {
      for i := 0 to |batch|
        invariant Valid() && read == old(read) && old(history) <= history && main == Handing(batch[i..], recovered)
        invariant spawned == old(spawned) + set e | e in batch[..i]
      {
        assert batch[i..] == [batch[i]] + batch[i + 1..];
        var acquired := AcquireSlot();
        if !acquired {
          return false;
        }
        SpawnHandle(batch[i], batch[i + 1..]);
        assert batch[..i + 1] == batch[..i] + [batch[i]];
      }
      all := true;
      assert batch[..|batch|] == batch;
    }

    /** ctx.Err, once the context is done: it was cancelled, or its deadline passed. */
    method ContextError() returns (canceled: bool)
      requires cancelled
    {
      canceled := true;
    }

    /** The main loop gives up on the rest of a batch. */
    ghost method Abandon(canceled: bool)
      requires Valid() && main.Handing? && main.batch != [] && cancelled
      modifies this`main, this`history
      ensures Valid() && main == (if old(main).recovered && !canceled then Pausing else Waiting) && old(history) <= history
    {
      ghost var before := View();
      main := if main.recovered && !canceled then Pausing else Waiting;
      Note(before, AcquireCancelled(canceled));
    }

    ghost method EndBatch()
      requires Valid() && main.Handing? && main.batch == []
      modifies this`main, this`history
      ensures Valid() && main == (if old(main).recovered then Reading else Top) && old(history) <= history
    {
      ghost var before := View();
      main := if main.recovered then Reading else Top;
      Note(before, BatchDone);
    }

    method RecoverPending() returns (r: Recovery)
      requires Valid() && main == Reclaiming
      modifies this
      ensures Valid() && old(history) <= history
      ensures r == Recovered && !cancelled ==> read <= spawned
      ensures r == Canceled ==> cancelled
      ensures main == match r case Recovered => Reading case Canceled => Waiting case Error => Pausing
    {
      var reply := Consume();
      match reply {
        case Failed(canceled) =>
          return if canceled then Canceled else Error;
        case NoMessages =>
          EndBatch();
          r := Recovered;
        case Messages(batch) =>
          var all := SpawnAll(batch, true);
          if !all {
            var canceled := ContextError();
            Abandon(canceled);
            return if canceled then Canceled else Error;
          }
          EndBatch();
          r := Recovered;
      }
      if !cancelled { AllSpawned(settings, history, View()); }
    }

    /** wait, after an error was logged. */
    method Wait()
      requires Valid() && main == Pausing
      modifies this
      ensures Valid() && main == Top && old(history) <= history
    {
      Pause();
      ghost var before := View();
      main := Top;
      Note(before, Resume);
    }

    method ReadAndSpawn() returns (stopped: bool)
      requires Valid() && main == Reading
      modifies this
      ensures Valid() && main == (if stopped then Waiting else Top) && old(history) <= history
      ensures stopped ==> cancelled
    {
      var reply := Consume();
      match reply {
        case NoMessages =>
          return false;
        case Failed(canceled) =>
          if !canceled { Wait(); }
          return canceled;
        case Messages(batch) =>
          var all := SpawnAll(batch, false);
          if all { EndBatch(); } else { Abandon(true); }
          return !all;
      }
    }

    /** With recovery on, pending messages were recovered at now or less than an interval before; with recovery off they
        never are. */
    ghost predicate KeptUp(now: int)
      reads this
    {
      if settings.pendingMinIdle > 0 && settings.pendingClaimBatch > 0 && settings.pendingRecoveryTick > 0
      then exists j :: 0 <= j < |recoveries| && now - recoveries[j] < settings.pendingRecoveryTick
      else recoveries == []
    }

    /** One turn of the main loop; at the turn called last the context is done.  It stops only for that, and if it
        does not stop it has polled, and has spawned whatever it was given. */
    method Turn(now: int, last: bool) returns (stopped: bool)
      requires Valid() && main == Top
      modifies this
      ensures Valid() && main == (if stopped then Waiting else Top) && old(history) <= history
      ensures (last ==> stopped) && (stopped ==> cancelled)
      ensures !stopped ==> Loop(now) in history[|old(history)|..]
      ensures !stopped ==> KeptUp(now)
      ensures !stopped && !cancelled ==> read <= spawned
    {
      stopped := Done(last);
      if stopped {
        Stop();
        return;
      }
      ghost var k, open := |history|, history;
      CancelledByCancel(settings, history, View());
      var recover := Choose(now);
      assert history[k] == Loop(now) && history[..k] == open;
      if recover {
        var r := RecoverPending();
        if r == Canceled {
          return true;
        }
        if r == Error {
          Wait();
          Polled(k, now);
          return false;
        }
      }
      stopped := ReadAndSpawn();
      if !stopped { Polled(k, now); }
    }

    /** What is known between two turns. */
    lemma Polled(k: nat, now: int)
      requires Valid() && main == Top && k < |history| && history[k] == Loop(now) && Action.Cancel !in history[..k]
      ensures KeptUp(now)
      ensures forall start: nat :: start <= k ==> Loop(now) in history[start..]
      ensures !cancelled ==> read <= spawned
    {
      if !cancelled { AllSpawned(settings, history, View()); }
      if RecoveryIsOn(settings) {
        var s1 := RecoveriesKeepUp(settings, history, View(), k);
        var j :| 0 <= j < |s1.recoveries| && now - s1.recoveries[j] < settings.pendingRecoveryTick;
        assert recoveries[j] == s1.recoveries[j];
      } else {
        NoRecoveries(settings, history, View());
      }
      forall start: nat | start <= k ensures Loop(now) in history[start..] { assert history[start..][k - start] == Loop(now); }
    }

    ghost method Stop()
      requires Valid() && main == Top && cancelled
      modifies this`main, this`history
      ensures Valid() && main == Waiting && old(history) <= history
    {
      ghost var before := View();
      main := Waiting;
      Note(before, Loop(0));
    }

    /** wg.Wait: every goroutine gives its slot back and leaves. */
    method WaitForGroup()
      requires Valid() && main == Waiting
      modifies this
      ensures Valid() && main == Returned && read == old(read) && spawned == old(spawned) && cancelled == old(cancelled)
    {
      while goroutines != map[]
        invariant Valid() && main == Waiting && read == old(read) && spawned == old(spawned) && cancelled == old(cancelled)
        decreases goroutines.Keys
      {
        var g :| g in goroutines;
        if goroutines[g].Handling? { ReleaseSlot(g); }
        LeaveGroup(g);
      }
      Return();
    }

    ghost method Return()
      requires Valid() && main == Waiting && goroutines == map[]
      modifies this`main, this`history
      ensures Valid() && main == Returned
    {
      ghost var before := View();
      ReachableInv(settings, history, before);
      main := Returned;
      Note(before, GroupDone);
    }

    /** The deferred receive from the semaphore channel. */
    method ReleaseSlot(g: GoroutineId)
      requires Valid() && g in goroutines && goroutines[g].Handling?
      modifies this`slots, this`goroutines, this`history
      ensures Valid() && goroutines == old(goroutines)[g := Released(old(goroutines)[g].entry)] && slots + 1 == old(slots)
    {
      ghost var before := View();
      GoroutinesGetOut(settings, history, before, g);
      slots := slots - 1;
      goroutines := goroutines[g := Released(goroutines[g].entry)];
      Note(before, Release(g));
    }

    /** The deferred wg.Done. */
    method LeaveGroup(g: GoroutineId)
      requires Valid() && g in goroutines && goroutines[g].Released?
      modifies this`group, this`goroutines, this`history
      ensures Valid() && goroutines == old(goroutines) - {g} && group + 1 == old(group)
    {
      ghost var before := View();
      GoroutinesGetOut(settings, history, before, g);
      group := group - 1;
      goroutines := goroutines - {g};
      Note(before, Leave(g));
    }

    /** Run, with the readings of the clock at its turns; the context is done when they are used up, at the latest.
        When it returns after a start no handler runs and every slot is free, and every message it was given and
        did not hand to a goroutine is still pending, unless another consumer has claimed it. */
    method Run(clock: seq<int>) returns (started: bool)
      requires Valid() && main == Starting
      modifies this
      ensures Valid() && main == if started then Returned else FailedToStart
      ensures started ==> cancelled && goroutines == map[] && slots == 0 && group == 0
      ensures started ==> forall e :: e in read && e !in spawned && e !in foreign ==> e !in acked
    {
      started := EnsureGroup();
      if !started {
        return;
      }
      var stopped, i := false, 0;
      while !stopped
        invariant Valid() && main == (if stopped then Waiting else Top) && (stopped ==> cancelled)
        invariant i <= |clock| || stopped
        decreases |clock| - i, !stopped
      {
        stopped := Turn(if i < |clock| then clock[i] else 0, i >= |clock|);
        i := i + 1;
      }
      WaitForGroup();
      ReachableInv(settings, history, View());
      FanOutIsBounded(settings, history, View());
    }
  }
}
