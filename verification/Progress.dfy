/**
 Progress that does not depend on the order of things: whatever everybody else does meanwhile, a task a worker or a tick
 has taken up, and has let go of without a fault of its own, has been written.  Each write lowers the task's potential.
*/
module Progress {
  import opened Basics
  import opened Statuses
  import opened Rows
  import opened Protocol
  import opened Safety
  import opened Guarantees
  import opened Histories
  import opened Passes

  // ---- Handling a message ----

  /** The worker's job will write the row as it is now. */
  predicate AboutToWrite(j: Job, r: Row, id: TaskId) {
    match r.status
    case Pending => (j.Received? || j.Claiming?) && j.message.task == id
    case Running =>
      && ((j.Received? && j.recovered) || j.Starting? || j.Executing? || j.Succeeding? || j.Failing?)
      && j.message.task == id
    case _ => false
  }

  predicate Lowered(s: State, id: TaskId, was: Row) {
    id in s.rows && Potential(s.rows[id]) < Potential(was)
  }

  /** Somebody has written the row since it was was, or a is going to. */
  predicate Moves(s: State, a: ActorId, id: TaskId, was: Row) {
    || Lowered(s, id, was)
    || (id in s.rows && s.rows[id] == was && a in s.jobs && AboutToWrite(s.jobs[a], was, id))
  }

  lemma RowFalls(c: Config, s: State, x: Action, s': State, id: TaskId)
    requires RowsOk(s) && JobsOk(s) && Enabled(c, s, x) && s' == Apply(c, s, x) && id in s.rows
    ensures id in s'.rows && (s'.rows[id] == s.rows[id] || Potential(s'.rows[id]) < Potential(s.rows[id]))
  {
    StepFrame(c, s, x);
    if s'.rows[id] != s.rows[id] { WriteLowersPotential(s.rows[id], s'.rows[id]); }
  }

  /** The worker's own next action keeps it about to write, or writes. */
  lemma OwnStepMoves(c: Config, s: State, x: Action, s': State, a: ActorId, id: TaskId)
    requires Enabled(c, s, x) && s' == Apply(c, s, x) && ActorOf(x) == Some(a) && !FaultOf(x, a)
    requires id in s.rows && id in s'.rows && a in s.jobs && AboutToWrite(s.jobs[a], s.rows[id], id)
    ensures s'.rows[id] != s.rows[id] || (a in s'.jobs && AboutToWrite(s'.jobs[a], s.rows[id], id))
  {}

  lemma StepMoves(c: Config, s: State, x: Action, s': State, a: ActorId, id: TaskId, was: Row)
    requires RowsOk(s) && JobsOk(s) && Enabled(c, s, x) && s' == Apply(c, s, x) && !FaultOf(x, a) && Moves(s, a, id, was)
    ensures Moves(s', a, id, was)
  {
    RowFalls(c, s, x, s', id);
    if !Lowered(s, id, was) {
      if ActorOf(x) == Some(a) { OwnStepMoves(c, s, x, s', a, id); } else { StepOthers(c, s, x); }
    }
  }

  /** A worker that has a pending task's message, or a running task's recovered one, and is done with it without a fault
      of its own: the task has been written, by it or by somebody who was faster. */
  lemma {:induction false} HandlingMovesOn(c: Config, s: State, xs: seq<Action>, a: ActorId, id: TaskId)
    requires Reachable(c, s) && Valid(c, s, xs) && Faultless(xs, a)
    requires id in s.rows && a in s.jobs && AboutToWrite(s.jobs[a], s.rows[id], id)
    ensures Moves(RunFrom(c, s, xs), a, id, s.rows[id])
    ensures a !in RunFrom(c, s, xs).jobs ==> Lowered(RunFrom(c, s, xs), id, s.rows[id])
    decreases |xs|
  {
    if xs != [] {
      var init := xs[..|xs| - 1];
      FaultlessPart(xs, a, 0, |xs| - 1);
      HandlingMovesOn(c, s, init, a, id);
      ReachableFrom(c, s, init);
      ReachableKeepsInv(c, RunFrom(c, s, init));
      StepMoves(c, RunFrom(c, s, init), xs[|xs| - 1], RunFrom(c, s, xs), a, id, s.rows[id]);
    }
  }

  // ---- A tick's loops ----

  lemma {:induction false} RowsFallOrStay(c: Config, s: State, xs: seq<Action>, id: TaskId)
    requires Inv(c, s) && Valid(c, s, xs) && id in s.rows
    ensures
      var s' := RunFrom(c, s, xs);
      id in s'.rows && (s'.rows[id] == s.rows[id] || Potential(s'.rows[id]) < Potential(s.rows[id]))
    decreases |xs|
  {
    if xs != [] {
      var init := xs[..|xs| - 1];
      RowsFallOrStay(c, s, init, id);
      RunKeepsInv(c, s, init);
      RowFalls(c, RunFrom(c, s, init), xs[|xs| - 1], RunFrom(c, s, xs), id);
    }
  }

  lemma FoundIsWaiting(c: Config, s: State, a: ActorId, found: seq<TaskId>, id: TaskId)
    requires Rooted(c, s) && Enabled(c, s, Scan(a, found)) && id in found
    ensures id in s.rows
    ensures
      match s.ticks[a].phase
      case ScanningExpired => s.rows[id].status == Running
      case ScanningRetrying => s.rows[id].status == Retrying
      case _ => true
  {
    ScannedRows(c, s, a, found);
  }

  /** Every expired run, every due retry and every scheduled member that a settled scan found has been written since. */
  lemma PassesMoveOn(c: Config, s: State, xs: seq<Action>, me: ActorId, p: Phase, i: nat, id: TaskId)
    requires Reachable(c, s) && Valid(c, s, xs) && IsScanning(p) && PassDone(c, s, xs, me, p)
    requires ScanAt(c, s, xs, me, i, p) && id in xs[i].found
    ensures var before := RunFrom(c, s, xs[..i]);
      id in before.rows && (p != ScanningZSet || before.rows[id].status == Scheduled ==>
                              Lowered(RunFrom(c, s, xs), id, before.rows[id]))
  {
    var before := SplitRun(c, s, xs, i);
    ReachableFrom(c, s, xs[..i]);
    ReachableKeepsInv(c, before);
    FoundIsWaiting(c, before, me, xs[i].found, id);
    var next := Apply(c, before, xs[i]);
    StepInv(c, before, xs[i]);
    RowsFallOrStay(c, next, xs[i + 1..], id);
    assert next.rows == before.rows;
    assert Settled(c, before, RunFrom(c, s, xs), me, p, id);
  }
}
