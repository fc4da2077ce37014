/** What holds in every state of every run, whatever the interleaving, the handlers and the faults. */
module Guarantees {
  import opened Rows
  import opened Protocol
  import opened Safety
  import opened Delivery
  import opened DeadLetters

  /** The partial unique index on idempotency_key. */
  predicate KeysUnique(s: State) {
    forall i, j :: i in s.rows && j in s.rows && i != j && s.rows[i].idempotencyKey.Some? ==>
      s.rows[i].idempotencyKey != s.rows[j].idempotencyKey
  }

  lemma StepKeys(c: Config, s: State, x: Action)
    requires Rooted(c, s) && KeysUnique(s) && Enabled(c, s, x)
    ensures KeysUnique(Apply(c, s, x))
  {
    if x.Advance? {
      AdvanceWrites(c, s, x.actor);
    } else {
      OtherRows(c, s, x);
      if x.Submit? { assert DoOther(c, s, x) == DoSubmit(s, x.actor, x.task, x.params); }
    }
  }

  ghost predicate Inv(c: Config, s: State) {
    && Rooted(c, s)
    && AckCloses(s)
    && OneMessage(s)
    && NoOrphan(s)
    && RecordsOk(s)
    && AllBuried(c, s)
    && KeysUnique(s)
  }

  lemma StepInv(c: Config, s: State, x: Action)
    requires Inv(c, s) && Enabled(c, s, x)
    ensures Inv(c, Apply(c, s, x))
  {
    StepRooted(c, s, x);
    StepAckCloses(c, s, x);
    StepOneMessage(c, s, x);
    StepNoOrphan(c, s, x);
    StepRecords(c, s, x);
    StepAllBuried(c, s, x);
    StepKeys(c, s, x);
  }

  lemma {:induction false} RunKeepsInv(c: Config, s: State, xs: seq<Action>)
    requires Inv(c, s) && Valid(c, s, xs)
    ensures Inv(c, RunFrom(c, s, xs))
    decreases |xs|
  {
    if xs != [] {
      var init := xs[..|xs| - 1];
      RunKeepsInv(c, s, init);
      StepInv(c, RunFrom(c, s, init), xs[|xs| - 1]);
    }
  }

  lemma InitInv(c: Config, now: int)
    ensures Inv(c, Init(now))
  {}

  /** Some run leads to s, whatever was submitted, whatever the handlers answered and whatever failed. */
  ghost predicate Reachable(c: Config, s: State) {
    exists now: int, xs: seq<Action> :: Valid(c, Init(now), xs) && RunFrom(c, Init(now), xs) == s
  }

  lemma ReachableKeepsInv(c: Config, s: State)
    requires Reachable(c, s)
    ensures Inv(c, s)
  {
    var now: int, xs: seq<Action> :| Valid(c, Init(now), xs) && RunFrom(c, Init(now), xs) == s;
    InitInv(c, now);
    RunKeepsInv(c, Init(now), xs);
  }

  lemma ReachableFrom(c: Config, s: State, xs: seq<Action>)
    requires Reachable(c, s) && Valid(c, s, xs)
    ensures Reachable(c, RunFrom(c, s, xs))
  {
    var now: int, ys: seq<Action> :| Valid(c, Init(now), ys) && RunFrom(c, Init(now), ys) == s;
    Concat(c, Init(now), ys, xs);
  }

  /** Rows are never deleted, and what a task was submitted with never changes. */
  lemma {:induction false} RunKeepsTasks(c: Config, s: State, xs: seq<Action>, id: TaskId)
    requires Valid(c, s, xs) && id in s.rows
    ensures id in RunFrom(c, s, xs).rows && SameTask(s.rows[id], RunFrom(c, s, xs).rows[id])
    decreases |xs|
  {
    if xs != [] {
      RunKeepsTasks(c, s, xs[..|xs| - 1], id);
      StepKeepsTask(c, RunFrom(c, s, xs[..|xs| - 1]), xs[|xs| - 1], RunFrom(c, s, xs), id);
    }
  }

  lemma StepKeepsTask(c: Config, s: State, x: Action, s': State, id: TaskId)
    requires Enabled(c, s, x) && s' == Apply(c, s, x) && id in s.rows
    ensures id in s'.rows && SameTask(s.rows[id], s'.rows[id])
  {
    if x.Advance? { AdvanceKeepsTask(c, s, x.actor, id); } else { OtherRows(c, s, x); }
  }

  lemma AdvanceKeepsTask(c: Config, s: State, a: ActorId, id: TaskId)
    requires a in s.jobs && id in s.rows
    ensures id in NextRows(c, s, a) && SameTask(s.rows[id], NextRows(c, s, a)[id])
  {}

  /** Streams only grow, and the clock goes on. */
  lemma {:induction false} RunGrows(c: Config, s: State, xs: seq<Action>)
    requires Inv(c, s) && Valid(c, s, xs)
    ensures s.delivered <= RunFrom(c, s, xs).delivered && s.stream <= RunFrom(c, s, xs).stream
    ensures s.dead <= RunFrom(c, s, xs).dead && s.now <= RunFrom(c, s, xs).now
    decreases |xs|
  {
    if xs != [] {
      var init := xs[..|xs| - 1];
      RunGrows(c, s, init);
      RunKeepsInv(c, s, init);
      StepFrame(c, RunFrom(c, s, init), xs[|xs| - 1]);
      DeadGrowth(c, RunFrom(c, s, init), xs[|xs| - 1]);
    }
  }

  /** No submission is counted back. */
  lemma {:induction false} RunCounts(c: Config, s: State, xs: seq<Action>)
    requires Valid(c, s, xs)
    ensures s.counters.submitted <= RunFrom(c, s, xs).counters.submitted
    decreases |xs|
  {
    if xs != [] {
      RunCounts(c, s, xs[..|xs| - 1]);
      var before := Last(c, s, xs);
      StepCounts(c, before, xs[|xs| - 1]);
    }
  }

  lemma StepCounts(c: Config, s: State, x: Action)
    requires Enabled(c, s, x)
    ensures s.counters.submitted <= Apply(c, s, x).counters.submitted
  {}

  /** A message somebody held, once acked, belongs to an attempt that is over. */
  lemma AckedIsOver(c: Config, s: State, xs: seq<Action>, m: Message)
    requires Inv(c, s) && Valid(c, s, xs) && MessageOk(s, m) && m.entry !in RunFrom(c, s, xs).pel
    ensures Closed(RunFrom(c, s, xs), m)
  {
    RunKeepsInv(c, s, xs);
    RunGrows(c, s, xs);
    assert RunFrom(c, s, xs).stream[m.entry] == s.stream[m.entry];
  }
}
