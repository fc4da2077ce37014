/** A batch read or claimed is a run of single deliveries to the goroutines it is spawned to. */
module Batches {
  import opened Basics
  import opened Protocol
  import opened Queues

  /** One fresh goroutine for each entry. */
  ghost predicate Fresh(c: Config, s: State, actors: seq<ActorId>) {
    && (forall i :: 0 <= i < |actors| ==> actors[i] !in s.jobs && actors[i] !in c.schedulers)
    && (forall i, j :: 0 <= i < j < |actors| ==> actors[i] != actors[j])
  }

  predicate InStream(s: State, ids: seq<nat>) {
    forall i :: 0 <= i < |ids| ==> ids[i] < |s.stream|
  }

  /** The jobs once actors[i] has entry ids[i]. */
  function WithHandlers(s: State, actors: seq<ActorId>, ids: seq<nat>, recovered: bool): map<ActorId, Job>
    requires |ids| == |actors| && InStream(s, ids)
    decreases |actors|
  {
    if actors == [] then s.jobs
    else
      var n := |actors| - 1;
      WithHandlers(s, actors[..n], ids[..n], recovered)
        [actors[n] := Received(Message(ids[n], s.stream[ids[n]].task), recovered)]
  }

  /** The entries ids are pending since now, and actors[i] has entry ids[i]. */
  function Spawned(s: State, actors: seq<ActorId>, ids: seq<nat>, recovered: bool, delivered: nat): State
    requires |ids| == |actors| && InStream(s, ids)
  {
    s.(delivered := delivered, pel := Handed(s.pel, ids, s.now), jobs := WithHandlers(s, actors, ids, recovered))
  }

  lemma {:induction false} HandlersHave(s: State, actors: seq<ActorId>, ids: seq<nat>, recovered: bool)
    requires |ids| == |actors| && InStream(s, ids)
    requires forall i, j :: 0 <= i < j < |actors| ==> actors[i] != actors[j]
    ensures
      var jobs := WithHandlers(s, actors, ids, recovered);
      && (forall i :: 0 <= i < |actors| ==>
            actors[i] in jobs && jobs[actors[i]] == Received(Message(ids[i], s.stream[ids[i]].task), recovered))
      && (forall a :: a !in actors ==> (a in jobs <==> a in s.jobs) && (a in jobs ==> jobs[a] == s.jobs[a]))
    decreases |actors|
  {
    if actors != [] {
      var n := |actors| - 1;
      HandlersHave(s, actors[..n], ids[..n], recovered);
      assert actors == actors[..n] + [actors[n]];
    }
  }

  lemma LastIsIdle(s: State, actors: seq<ActorId>, ids: seq<nat>, recovered: bool)
    requires |ids| == |actors| > 0 && InStream(s, ids)
    requires forall i, j :: 0 <= i < j < |actors| ==> actors[i] != actors[j]
    requires actors[|actors| - 1] !in s.jobs
    ensures actors[|actors| - 1] !in WithHandlers(s, actors[..|actors| - 1], ids[..|ids| - 1], recovered)
  {
    HandlersHave(s, actors[..|actors| - 1], ids[..|ids| - 1], recovered);
  }

  lemma WithoutHandlers(s: State, actors: seq<ActorId>, ids: seq<nat>, recovered: bool)
    requires |ids| == |actors| && InStream(s, ids)
    requires forall i, j :: 0 <= i < j < |actors| ==> actors[i] != actors[j]
    requires forall i :: 0 <= i < |actors| ==> actors[i] !in s.jobs
    ensures WithHandlers(s, actors, ids, recovered) - (set a | a in actors) == s.jobs
  {
    HandlersHave(s, actors, ids, recovered);
  }

  lemma SpawnedNext(s: State, actors: seq<ActorId>, ids: seq<nat>, recovered: bool, delivered: nat, was: State, now: State)
    requires |ids| == |actors| > 0 && InStream(s, ids)
    requires
      var n := |actors| - 1;
      && was == Spawned(s, actors[..n], ids[..n], recovered, was.delivered)
      && now == was.(delivered := delivered, pel := was.pel[ids[n] := s.now],
                     jobs := was.jobs[actors[n] := Received(Message(ids[n], s.stream[ids[n]].task), recovered)])
    ensures now == Spawned(s, actors, ids, recovered, delivered)
  {
    var n := |actors| - 1;
    assert ids == ids[..n] + [ids[n]];
    HandedNext(s.pel, ids[..n], ids[n], s.now);
  }

  lemma NoneSpawned(s: State, recovered: bool)
    ensures Spawned(s, [], [], recovered, s.delivered) == s
  {
    assert Handed(s.pel, [], s.now) == s.pel;
  }

  lemma OneMoreDelivered(c: Config, s: State, actors: seq<ActorId>, ids: seq<nat>, was: State) returns (s': State)
    requires Fresh(c, s, actors) && |ids| == |actors| > 0 && InStream(s, ids)
    requires
      var n := |actors| - 1;
      was == Spawned(s, actors[..n], ids[..n], false, s.delivered + n) && ids[n] == s.delivered + n
    ensures Enabled(c, was, Deliver(actors[|actors| - 1])) && s' == Apply(c, was, Deliver(actors[|actors| - 1]))
    ensures s' == Spawned(s, actors, ids, false, s.delivered + |actors|)
  {
    var n := |actors| - 1;
    LastIsIdle(s, actors, ids, false);
    s' := DeliveredNow(c, was, actors[n]);
    SpawnedNext(s, actors, ids, false, s.delivered + |actors|, was, s');
  }

  lemma DeliveredNow(c: Config, s: State, a: ActorId) returns (s': State)
    requires Enabled(c, s, Deliver(a))
    ensures s' == Apply(c, s, Deliver(a))
    ensures s' == s.(delivered := s.delivered + 1, pel := s.pel[s.delivered := s.now],
                     jobs := s.jobs[a := Received(Message(s.delivered, s.stream[s.delivered].task), false)])
  {
    s' := Apply(c, s, Deliver(a));
  }

  /** What XREADGROUP delivers at once is as many single deliveries. */
  lemma {:induction false} BatchIsDelivered(c: Config, s: State, actors: seq<ActorId>, ids: seq<nat>)
    returns (xs: seq<Action>, s': State)
    requires Fresh(c, s, actors) && ids == Range(s.delivered, |actors|) && s.delivered + |actors| <= |s.stream|
    ensures Ran(c, s, xs, s') && s' == Spawned(s, actors, ids, false, s.delivered + |actors|)
    decreases |actors|
  {
    if actors == [] {
      xs, s' := [], s;
      NoneSpawned(s, false);
    } else {
      var n := |actors| - 1;
      assert ids[..n] == Range(s.delivered, n);
      var xs1, s1 := BatchIsDelivered(c, s, actors[..n], ids[..n]);
      s' := OneMoreDelivered(c, s, actors, ids, s1);
      Further(c, s, xs1, s1, Deliver(actors[n]));
      xs := xs1 + [Deliver(actors[n])];
    }
  }

  lemma OneMoreReclaimed(c: Config, s: State, actors: seq<ActorId>, ids: seq<nat>, was: State) returns (s': State)
    requires c.recovers && Fresh(c, s, actors) && |ids| == |actors| > 0 && InStream(s, ids)
    requires
      var n := |actors| - 1;
      && was == Spawned(s, actors[..n], ids[..n], true, s.delivered)
      && ids[n] !in ids[..n] && IdleFor(s.pel, ids[n], c.minIdle, s.now)
    ensures var x := Reclaim(actors[|actors| - 1], ids[|ids| - 1]); Enabled(c, was, x) && s' == Apply(c, was, x)
    ensures s' == Spawned(s, actors, ids, true, s.delivered)
  {
    var n := |actors| - 1;
    LastIsIdle(s, actors, ids, true);
    assert ids[n] in was.pel && was.pel[ids[n]] == s.pel[ids[n]];
    s' := ReclaimedNow(c, was, actors[n], ids[n]);
    SpawnedNext(s, actors, ids, true, s.delivered, was, s');
  }

  lemma ReclaimedNow(c: Config, s: State, a: ActorId, e: nat) returns (s': State)
    requires Enabled(c, s, Reclaim(a, e))
    ensures s' == Apply(c, s, Reclaim(a, e))
    ensures s' == s.(pel := s.pel[e := s.now], jobs := s.jobs[a := Received(Message(e, s.stream[e].task), true)])
  {
    s' := Apply(c, s, Reclaim(a, e));
  }

  /** What XCLAIM takes over at once is as many single claims. */
  lemma {:induction false} BatchIsReclaimed(c: Config, s: State, actors: seq<ActorId>, ids: seq<nat>)
    returns (xs: seq<Action>, s': State)
    requires c.recovers && Fresh(c, s, actors) && |ids| == |actors| && InStream(s, ids)
    requires forall i :: 0 <= i < |ids| ==> IdleFor(s.pel, ids[i], c.minIdle, s.now)
    requires forall i, j :: 0 <= i < j < |ids| ==> ids[i] < ids[j]
    ensures Ran(c, s, xs, s') && s' == Spawned(s, actors, ids, true, s.delivered)
    decreases |actors|
  {
    if actors == [] {
      xs, s' := [], s;
      NoneSpawned(s, true);
    } else {
      var n := |actors| - 1;
      var xs1, s1 := BatchIsReclaimed(c, s, actors[..n], ids[..n]);
      s' := OneMoreReclaimed(c, s, actors, ids, s1);
      Further(c, s, xs1, s1, Reclaim(actors[n], ids[n]));
      xs := xs1 + [Reclaim(actors[n], ids[n])];
    }
  }

  /** Goroutines that never come to be: the batch was refused, and its entries stay pending. */
  lemma {:induction false} BatchIsDropped(c: Config, s: State, actors: seq<ActorId>) returns (xs: seq<Action>, s': State)
    requires forall i :: 0 <= i < |actors| ==> actors[i] in s.jobs && s.jobs[actors[i]].Received?
    requires forall i, j :: 0 <= i < j < |actors| ==> actors[i] != actors[j]
    ensures Ran(c, s, xs, s') && s' == s.(jobs := s.jobs - (set a | a in actors))
    decreases |actors|
  {
    if actors == [] {
      xs, s' := [], s;
      assert s.jobs - (set a | a in actors) == s.jobs;
    } else {
      var n := |actors| - 1;
      var s1;
      xs, s1 := BatchIsDropped(c, s, actors[..n]);
      s' := Apply(c, s1, Abort(actors[n]));
      Further(c, s, xs, s1, Abort(actors[n]));
      xs := xs + [Abort(actors[n])];
      assert actors == actors[..n] + [actors[n]];
      assert s.jobs - (set a | a in actors) == s1.jobs - {actors[n]};
    }
  }

  /** The stream and its group are those of s. */
  ghost predicate Mirrors(q: TaskStream, s: State)
    reads q
  {
    q.Valid() && q.Log() == s.stream && q.delivered == s.delivered && q.pel == s.pel
  }

  /** What is returned is with its goroutines; what was refused is with nobody. */
  ghost predicate Handled(s: State, s': State, actors: seq<ActorId>, r: Result<seq<StreamMessage>, ReadError>, recovered: bool) {
    match r
    case Ok(ms) =>
      && |ms| <= |actors|
      && (forall i :: 0 <= i < |ms| ==>
            ms[i].recovered == recovered && actors[i] in s'.jobs
            && s'.jobs[actors[i]] == Received(Message(ms[i].redisId, ms[i].task.id), recovered))
      && (forall a :: a !in actors[..|ms|] ==> (a in s'.jobs <==> a in s.jobs) && (a in s'.jobs ==> s'.jobs[a] == s.jobs[a]))
    case Err(_) => s'.jobs == s.jobs
  }

  /** Only the entries' delivery and the jobs change. */
  predicate SameElse(s: State, s': State) {
    s' == s.(delivered := s'.delivered, pel := s'.pel, jobs := s'.jobs)
  }

  /** Spawns what was read, or drops it if it was refused. */
  lemma Settle(c: Config, s: State, actors: seq<ActorId>, ids: seq<nat>, recovered: bool, delivered: nat,
               entries: seq<TaskMessage>, r: Result<seq<StreamMessage>, ReadError>, xs: seq<Action>, s1: State)
    returns (ys: seq<Action>, s': State)
    requires Fresh(c, s, actors) && |ids| == |actors| && InStream(s, ids)
    requires |entries| == |s.stream| && forall i :: 0 <= i < |entries| ==> s.stream[i].task == entries[i].id
    requires Ran(c, s, xs, s1) && s1 == Spawned(s, actors, ids, recovered, delivered)
    requires r == Parsed(Delivered(entries, ids, recovered)) || (actors == [] && r.Err?)
    ensures Ran(c, s, ys, s') && s' == s1.(jobs := s'.jobs) && Handled(s, s', actors, r, recovered)
  {
    HandlersHave(s, actors, ids, recovered);
    if r.Ok? {
      ys, s' := xs, s1;
      assert actors[..|r.value|] == actors;
    } else {
      var dropped;
      dropped, s' := BatchIsDropped(c, s1, actors);
      ys := xs + dropped;
      Joined(c, s, xs, s1, dropped, s');
      WithoutHandlers(s, actors, ids, recovered);
    }
  }

  /** A turn of the main loop: the batch is read, and every message is spawned to a goroutine of its own. */
  method ReadAndSpawn(q: TaskStream, count: int, now: int,
    ghost c: Config, ghost s: State, ghost pool: seq<ActorId>)
    returns (r: Result<seq<StreamMessage>, ReadError>, ghost xs: seq<Action>, ghost s': State)
    requires Mirrors(q, s) && now == s.now && Fresh(c, s, pool)
    requires |pool| == if count <= 0 then 1 else count
    modifies q
    ensures Ran(c, s, xs, s') && Mirrors(q, s') && SameElse(s, s') && Handled(s, s', pool, r, false)
  {
    ghost var k := if q.grouped then q.Deliverable(if count <= 0 then 1 else count) else 0;
    ghost var ids, actors, log := Range(s.delivered, k), pool[..k], q.Log();
    r := q.ReadBatch(count, now);
    assert q.Log() == log;
    ghost var s1;
    xs, s1 := BatchIsDelivered(c, s, actors, ids);
    xs, s' := Settle(c, s, actors, ids, false, s.delivered + k, q.entries, r, xs, s1);
    InPool(s, s', pool, k, r, false);
  }

  /** recoverPending: what others left pending is taken over, and every message spawned. */
  method ClaimAndSpawn(q: TaskStream, minIdle: nat, count: nat, now: int,
    ghost c: Config, ghost s: State, ghost pool: seq<ActorId>)
    returns (r: Result<seq<StreamMessage>, ReadError>, ghost xs: seq<Action>, ghost s': State)
    requires Mirrors(q, s) && now == s.now && c.recovers && minIdle == c.minIdle && Fresh(c, s, pool) && |pool| == count
    modifies q
    ensures Ran(c, s, xs, s') && Mirrors(q, s') && SameElse(s, s') && Handled(s, s', pool, r, true)
  {
    ghost var log := q.Log();
    ghost var ids;
    r, ids := q.ClaimPending(minIdle, count, now);
    assert q.Log() == log;
    ghost var k := |ids|;
    ghost var s1;
    xs, s1 := BatchIsReclaimed(c, s, pool[..k], ids);
    xs, s' := Settle(c, s, pool[..k], ids, true, s.delivered, q.entries, r, xs, s1);
    InPool(s, s', pool, k, r, true);
  }

  lemma InPool(s: State, s': State, pool: seq<ActorId>, k: nat, r: Result<seq<StreamMessage>, ReadError>, recovered: bool)
    requires k <= |pool| && Handled(s, s', pool[..k], r, recovered)
    ensures Handled(s, s', pool, r, recovered)
  {
    if r.Ok? { assert pool[..k][..|r.value|] == pool[..|r.value|]; }
  }
}
