/** The statuses a task goes through over a whole run. */
module Histories {
  import opened Basics
  import opened Statuses
  import opened Rows
  import opened Protocol
  import opened Safety
  import opened Guarantees

  /** The status left by each write to the row of id, in order: its creation and every change. */
  ghost function History(c: Config, s: State, xs: seq<Action>, id: TaskId): seq<Status>
    requires Valid(c, s, xs)
    decreases |xs|
  {
    if xs == [] then []
    else
      var init := xs[..|xs| - 1];
      var before := RunFrom(c, s, init).rows;
      var after := RunFrom(c, s, xs).rows;
      History(c, s, init, id) +
      (if id in after && (id !in before || after[id] != before[id]) then [after[id].status] else [])
  }

  // ---- The words of the README's lifecycle ----

  const FAILED_ATTEMPT := [Pending, Running, Failed, Retrying]

  function FailedAttempts(n: nat): seq<Status> {
    if n == 0 then [] else FailedAttempts(n - 1) + FAILED_ATTEMPT
  }

  function LastAttempt(s: Status): seq<Status> {
    match s
    case Scheduled => []
    case Pending => [Pending]
    case Running => [Pending, Running]
    case Success => [Pending, Running, Success]
    case Failed => [Pending, Running, Failed]
    case Retrying => []
    case Dead => [Pending, Running, Failed, Dead]
  }

  /** scheduled? (pending running failed retrying)^n, then the attempt that s is part of. */
  function Word(delayed: bool, n: nat, s: Status): seq<Status> {
    (if delayed then [Scheduled] else []) + FailedAttempts(n) + LastAttempt(s)
  }

  ghost predicate IsWord(h: seq<Status>, r: Row) {
    r.retryCount >= 0 && exists delayed :: h == Word(delayed, r.retryCount, r.status) && (r.status == Scheduled ==> delayed)
  }

  lemma NextLetter(s: Status, s': Status)
    requires match s
      case Scheduled => s' == Pending
      case Pending => s' == Running
      case Running => s' == Success || s' == Failed
      case Failed => s' == Dead
      case Retrying => s' == Pending
      case _ => false
    ensures LastAttempt(s) + [s'] == LastAttempt(s')
  {}

  lemma WordGrows(delayed: bool, n: nat, s: Status, s': Status)
    ensures LastAttempt(s) + [s'] == LastAttempt(s') ==> Word(delayed, n, s) + [s'] == Word(delayed, n, s')
    ensures s == Failed && s' == Retrying ==> Word(delayed, n, s) + [s'] == Word(delayed, n + 1, s')
  {
    var start := if delayed then [Scheduled] else [];
    assert start + FailedAttempts(n) + LastAttempt(s) + [s'] == start + FailedAttempts(n) + (LastAttempt(s) + [s']);
    if s == Failed && s' == Retrying {
      assert LastAttempt(s) + [s'] == FAILED_ATTEMPT;
      assert start + FailedAttempts(n + 1) + [] == start + FailedAttempts(n) + FAILED_ATTEMPT;
    }
  }

  lemma NextWord(h: seq<Status>, r: Row, r': Row)
    requires RowShape(r) && RowStep(r, r') && r' != r && IsWord(h, r)
    ensures IsWord(h + [r'.status], r')
  {
    var delayed :| h == Word(delayed, r.retryCount, r.status) && (r.status == Scheduled ==> delayed);
    WordGrows(delayed, r.retryCount, r.status, r'.status);
    if r'.status != Retrying { NextLetter(r.status, r'.status); }
    assert h + [r'.status] == Word(delayed, r'.retryCount, r'.status);
  }

  lemma StepWord(c: Config, s: State, x: Action, s': State, h: seq<Status>, id: TaskId)
    requires RowsOk(s) && JobsOk(s) && Enabled(c, s, x) && s' == Apply(c, s, x)
    requires id in s.rows && IsWord(h, s.rows[id])
    ensures id in s'.rows && IsWord(h + if s'.rows[id] == s.rows[id] then [] else [s'.rows[id].status], s'.rows[id])
  {
    StepFrame(c, s, x);
    if s'.rows[id] == s.rows[id] { assert h + [] == h; } else { NextWord(h, s.rows[id], s'.rows[id]); }
  }

  lemma FirstWord(p: CreateTaskParams, now: int)
    ensures IsWord([NewRow(p, now).status], NewRow(p, now))
  {
    var s := NewRow(p, now).status;
    assert [s] == Word(s == Scheduled, 0, s);
  }

  lemma NewRowWord(c: Config, s: State, x: Action, id: TaskId)
    requires Rooted(c, s) && Enabled(c, s, x) && id !in s.rows && id in Apply(c, s, x).rows
    ensures IsWord([Apply(c, s, x).rows[id].status], Apply(c, s, x).rows[id])
  {
    if x.Advance? {
      AdvanceWrites(c, s, x.actor);
    } else {
      OtherRows(c, s, x);
      FirstWord(x.params, s.now);
    }
  }

  lemma {:induction false} NoRowNoHistory(c: Config, s: State, xs: seq<Action>, id: TaskId)
    requires Inv(c, s) && Valid(c, s, xs) && id !in RunFrom(c, s, xs).rows
    ensures History(c, s, xs, id) == []
    decreases |xs|
  {
    if xs != [] {
      var init := xs[..|xs| - 1];
      RunKeepsInv(c, s, init);
      StepFrame(c, RunFrom(c, s, init), xs[|xs| - 1]);
      NoRowNoHistory(c, s, init, id);
    }
  }

  /** Over any run, the writes to a task spell a word of the lifecycle, and the word is determined by
      the row: its retry_count failed attempts in full, then the attempt its status is part of. */
  lemma {:induction false} HistoryIsWord(c: Config, now: int, xs: seq<Action>, id: TaskId)
    requires Valid(c, Init(now), xs) && id in RunFrom(c, Init(now), xs).rows
    ensures IsWord(History(c, Init(now), xs, id), RunFrom(c, Init(now), xs).rows[id])
    decreases |xs|
  {
    InitInv(c, now);
    var init := xs[..|xs| - 1];
    var x := xs[|xs| - 1];
    var s := RunFrom(c, Init(now), init);
    RunKeepsInv(c, Init(now), init);
    if id in s.rows {
      HistoryIsWord(c, now, init, id);
      StepWord(c, s, x, Apply(c, s, x), History(c, Init(now), init, id), id);
    } else {
      NoRowNoHistory(c, Init(now), init, id);
      NewRowWord(c, s, x, id);
      assert [] + [Apply(c, s, x).rows[id].status] == [Apply(c, s, x).rows[id].status];
    }
  }

  // ---- What the word says ----

  function Count(h: seq<Status>, s: Status): nat {
    multiset(h)[s]
  }

  lemma {:induction false} FailedAttemptsCounts(n: nat)
    ensures |FailedAttempts(n)| == 4 * n
    ensures Count(FailedAttempts(n), Pending) == n && Count(FailedAttempts(n), Running) == n
    ensures Count(FailedAttempts(n), Failed) == n && Count(FailedAttempts(n), Retrying) == n
  {
    if n > 0 {
      FailedAttemptsCounts(n - 1);
    }
  }

  predicate FollowsTable(h: seq<Status>) {
    forall i :: 0 <= i < |h| - 1 ==> CanTransition(h[i], h[i + 1])
  }

  /** The table alone bounds nothing: it allows histories of any length. */
  lemma {:induction false} TableAloneBoundsNothing(n: nat)
    ensures exists h :: |h| == 2 * n && FollowsTable(h) && (h != [] ==> h[0] == Running && h[|h| - 1] == Retrying)
  {
    if n == 0 {
      var h: seq<Status> := [];
      assert |h| == 2 * n && FollowsTable(h);
    } else {
      TableAloneBoundsNothing(n - 1);
      var h :| |h| == 2 * (n - 1) && FollowsTable(h) && (h != [] ==> h[0] == Running && h[|h| - 1] == Retrying);
      JoinFollowsTable(h, [Running, Retrying]);
      assert |h + [Running, Retrying]| == 2 * n;
    }
  }

  lemma JoinFollowsTable(h: seq<Status>, t: seq<Status>)
    requires FollowsTable(h) && FollowsTable(t) && (h != [] && t != [] ==> CanTransition(h[|h| - 1], t[0]))
    ensures FollowsTable(h + t)
  {
    forall i | 0 <= i < |h + t| - 1 ensures CanTransition((h + t)[i], (h + t)[i + 1]) {
      if i < |h| - 1 {
        assert CanTransition(h[i], h[i + 1]);
      } else if i >= |h| {
        assert CanTransition(t[i - |h|], t[i - |h| + 1]);
      }
    }
  }

  lemma {:induction false} FailedAttemptsFollowTable(n: nat)
    ensures
      var h := FailedAttempts(n);
      FollowsTable(h) && (if n == 0 then h == [] else h != [] && h[0] == Pending && h[|h| - 1] == Retrying)
  {
    if n > 0 {
      FailedAttemptsFollowTable(n - 1);
      JoinFollowsTable(FailedAttempts(n - 1), FAILED_ATTEMPT);
    }
  }

  lemma WordFollowsTable(delayed: bool, n: nat, s: Status)
    ensures FollowsTable(Word(delayed, n, s))
  {
    FailedAttemptsFollowTable(n);
    var first: seq<Status> := if delayed then [Scheduled] else [];
    JoinFollowsTable(first, FailedAttempts(n));
    JoinFollowsTable(first + FailedAttempts(n), LastAttempt(s));
  }

  lemma WordEnds(delayed: bool, n: nat, s: Status)
    requires (s == Scheduled ==> delayed && n == 0) && (s == Retrying ==> n > 0)
    ensures var h := Word(delayed, n, s); h != [] && h[|h| - 1] == s
  {
    FailedAttemptsFollowTable(n);
  }

  lemma WordsFollowTable(h: seq<Status>, r: Row)
    requires IsWord(h, r) && RowShape(r)
    ensures FollowsTable(h) && h != [] && h[|h| - 1] == r.status
  {
    var delayed :| h == Word(delayed, r.retryCount, r.status) && (r.status == Scheduled ==> delayed);
    WordFollowsTable(delayed, r.retryCount, r.status);
    WordEnds(delayed, r.retryCount, r.status);
  }

  /** Some write of the protocol takes a row from the one status to the other. */
  ghost predicate Taken(from: Status, to: Status) {
    exists r, r' :: RowShape(r) && RowShape(r') && RowStep(r, r') && r' != r && r.status == from && r'.status == to
  }

  function SomeRow(status: Status, retryCount: nat): Row {
    Row("echo", None, None, status, 0, 60, 5, retryCount, if status == Retrying then Some(0) else None, Some(""), Some(""),
        Some(0), if status.IsTerminal() then Some(0) else None, 0, 0)
  }

  predicate Unused(from: Status, to: Status) {
    (from == Running && (to == Retrying || to == Dead)) || (from == Retrying && to == Running)
  }

  lemma StepIsUsedEdge(r: Row, r': Row)
    requires RowShape(r) && RowShape(r') && RowStep(r, r') && r' != r
    ensures CanTransition(r.status, r'.status) && !Unused(r.status, r'.status)
  {}

  lemma UsedEdgeIsTaken(from: Status, to: Status)
    requires CanTransition(from, to) && !Unused(from, to)
    ensures Taken(from, to)
  {
    var k := if from == Retrying then 1 else 0;
    var r, r' := SomeRow(from, k), SomeRow(to, if to == Retrying then 1 else k);
    assert RowStep(r, r');
  }

  /** The declared table allows exactly the writes of the protocol, and three edges nothing takes. */
  lemma TableIsTakenAndThree(from: Status, to: Status)
    ensures CanTransition(from, to) <==> Taken(from, to) || Unused(from, to)
    ensures !(Taken(from, to) && Unused(from, to))
  {
    if r, r' :| RowShape(r) && RowShape(r') && RowStep(r, r') && r' != r && r.status == from && r'.status == to {
      StepIsUsedEdge(r, r');
    }
    if CanTransition(from, to) && !Unused(from, to) { UsedEdgeIsTaken(from, to); }
  }

  /** Every write to a task follows an edge of the declared table, although MarkFailed and
      CompleteFailure never consult it. */
  lemma HistoryFollowsTable(c: Config, now: int, xs: seq<Action>, id: TaskId)
    requires Valid(c, Init(now), xs) && id in RunFrom(c, Init(now), xs).rows
    ensures
      var h := History(c, Init(now), xs, id);
      FollowsTable(h) && h != [] && h[|h| - 1] == RunFrom(c, Init(now), xs).rows[id].status
  {
    HistoryIsWord(c, now, xs, id);
    InitInv(c, now);
    RunKeepsInv(c, Init(now), xs);
    WordsFollowTable(History(c, Init(now), xs, id), RunFrom(c, Init(now), xs).rows[id]);
  }

  lemma WordCounts(delayed: bool, n: nat, s: Status)
    ensures Count(Word(delayed, n, s), Retrying) == n
    ensures Count(Word(delayed, n, s), Running) <= n + 1
    ensures |Word(delayed, n, s)| <= 4 * n + 5
  {
    FailedAttemptsCounts(n);
    var first: seq<Status> := if delayed then [Scheduled] else [];
    assert multiset(Word(delayed, n, s)) == multiset(first) + multiset(FailedAttempts(n)) + multiset(LastAttempt(s));
    LastAttemptCounts(s);
  }

  lemma LastAttemptCounts(s: Status)
    ensures Count(LastAttempt(s), Retrying) == 0 && Count(LastAttempt(s), Running) <= 1 && |LastAttempt(s)| <= 4
  {}

  /** The failed-to-retrying writes number retry_count, at most max_retries + 1 claims turn the task
      running, and it is written at most 4 * max_retries + 4 times after its creation. */
  lemma HistoryFacts(c: Config, now: int, xs: seq<Action>, id: TaskId)
    requires Valid(c, Init(now), xs) && id in RunFrom(c, Init(now), xs).rows
    ensures
      var h := History(c, Init(now), xs, id);
      var r := RunFrom(c, Init(now), xs).rows[id];
      && Count(h, Retrying) == r.retryCount <= r.maxRetries
      && Count(h, Running) <= r.maxRetries + 1
      && |h| <= 4 * r.maxRetries + 5
  {
    var h := History(c, Init(now), xs, id);
    var r := RunFrom(c, Init(now), xs).rows[id];
    HistoryIsWord(c, now, xs, id);
    InitInv(c, now);
    RunKeepsInv(c, Init(now), xs);
    assert RowShape(r);
    var delayed :| h == Word(delayed, r.retryCount, r.status) && (r.status == Scheduled ==> delayed);
    WordCounts(delayed, r.retryCount, r.status);
  }

  // ---- The potential of a row ----

  function Rank(s: Status): nat {
    match s
    case Scheduled => 4
    case Retrying => 4
    case Pending => 3
    case Running => 2
    case Failed => 1
    case _ => 0
  }

  function Potential(r: Row): int {
    4 * (r.maxRetries - r.retryCount) + Rank(r.status)
  }

  lemma WriteLowersPotential(r: Row, r': Row)
    requires RowShape(r) && RowStep(r, r') && r' != r
    ensures Potential(r') < Potential(r)
  {}

  /** From any state on, a row is written at most as often as its potential. */
  lemma {:induction false} WritesAreBounded(c: Config, s: State, xs: seq<Action>, id: TaskId)
    requires Inv(c, s) && Valid(c, s, xs) && id in s.rows
    ensures id in RunFrom(c, s, xs).rows
    ensures |History(c, s, xs, id)| + Potential(RunFrom(c, s, xs).rows[id]) <= Potential(s.rows[id])
    decreases |xs|
  {
    if xs != [] {
      var init := xs[..|xs| - 1];
      WritesAreBounded(c, s, init, id);
      RunKeepsInv(c, s, init);
      var s1 := RunFrom(c, s, init);
      StepFrame(c, s1, xs[|xs| - 1]);
      var r' := Apply(c, s1, xs[|xs| - 1]).rows[id];
      if r' != s1.rows[id] { WriteLowersPotential(s1.rows[id], r'); }
    }
  }

  /** A terminal row never changes again. */
  lemma {:induction false} TerminalRowsAreFrozen(c: Config, s: State, xs: seq<Action>, id: TaskId)
    requires Inv(c, s) && Valid(c, s, xs) && id in s.rows && s.rows[id].status.IsTerminal()
    ensures id in RunFrom(c, s, xs).rows && RunFrom(c, s, xs).rows[id] == s.rows[id]
    decreases |xs|
  {
    if xs != [] {
      var init := xs[..|xs| - 1];
      TerminalRowsAreFrozen(c, s, init, id);
      RunKeepsInv(c, s, init);
      StepFrame(c, RunFrom(c, s, init), xs[|xs| - 1]);
    }
  }

  // ---- Messages ----

  /** How many entries of the stream are about id. */
  function Messages(stream: seq<Entry>, id: TaskId): nat {
    if stream == [] then 0
    else Messages(stream[..|stream| - 1], id) + (if stream[|stream| - 1].task == id then 1 else 0)
  }

  function AttemptsBelow(n: nat): (ks: set<int>)
    ensures |ks| == n && forall k :: k in ks <==> 0 <= k < n
  {
    if n == 0 then {} else AttemptsBelow(n - 1) + {n - 1}
  }

  lemma {:induction false} DistinctAttempts(stream: seq<Entry>, id: TaskId, allowed: set<int>)
    requires forall i, j :: 0 <= i < j < |stream| ==> stream[i] != stream[j]
    requires forall i :: 0 <= i < |stream| && stream[i].task == id ==> stream[i].attempt in allowed
    ensures Messages(stream, id) <= |allowed|
    decreases |stream|
  {
    if stream != [] {
      var init := stream[..|stream| - 1];
      var e := stream[|stream| - 1];
      if e.task == id {
        forall i | 0 <= i < |init| && init[i].task == id ensures init[i].attempt in allowed - {e.attempt} {
          assert stream[i] != e;
        }
        DistinctAttempts(init, id, allowed - {e.attempt});
      } else {
        DistinctAttempts(init, id, allowed);
      }
    }
  }

  /** A task has at most one message for each attempt, so at most retry_count + 1 in all. */
  lemma MessagesAreBounded(c: Config, s: State, id: TaskId)
    requires Inv(c, s) && id in s.rows
    ensures Messages(s.stream, id) <= s.rows[id].retryCount + 1
  {
    var n := s.rows[id].retryCount;
    assert RowShape(s.rows[id]);
    forall i | 0 <= i < |s.stream| && s.stream[i].task == id ensures s.stream[i].attempt in AttemptsBelow(n + 1) {
      assert EntryOk(s, s.stream[i]);
    }
    DistinctAttempts(s.stream, id, AttemptsBelow(n + 1));
  }
}
