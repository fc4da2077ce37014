/** ORDER BY ... LIMIT over a finite set always has a result. */
module Scans {
  import opened Protocol
  import opened Rows

  lemma {:induction false} First(due: set<TaskId>, rank: TaskId -> (int, int)) returns (m: TaskId)
    requires due != {}
    ensures m in due && forall id :: id in due ==> Before(rank(m), rank(id))
    decreases |due|
  {
    var x :| x in due;
    m := x;
    if due != {x} {
      assert due - {x} != {};
      var rest := First(due - {x}, rank);
      m := if Before(rank(x), rank(rest)) then x else rest;
      forall id | id in due ensures Before(rank(m), rank(id)) {
        if id != x { assert id in due - {x}; }
      }
    }
  }

  lemma Prepend(due: set<TaskId>, rank: TaskId -> (int, int), limit: nat, m: TaskId, rest: seq<TaskId>)
    requires m in due && limit > 0 && forall id :: id in due ==> Before(rank(m), rank(id))
    requires IsScan(due - {m}, rank, limit - 1, rest)
    ensures IsScan(due, rank, limit, [m] + rest)
  {
    var found := [m] + rest;
    forall i | 0 <= i < |found| ensures found[i] in due && (i > 0 ==> found[i] != m) {
      if i > 0 { assert found[i] == rest[i - 1]; }
    }
    forall i, j | 0 <= i < j < |found| ensures found[i] != found[j] && Before(rank(found[i]), rank(found[j])) {
      if i > 0 { assert found[i] == rest[i - 1] && found[j] == rest[j - 1]; }
    }
    forall id, i | id in due && id !in found && 0 <= i < |found| ensures Before(rank(found[i]), rank(id)) {
      assert id != found[0];
      if i > 0 { assert found[i] == rest[i - 1] && id !in rest; }
    }
  }

  /** There is always such a result, and it is empty only if nothing is due. */
  lemma {:induction false} ScanExists(due: set<TaskId>, rank: TaskId -> (int, int), limit: nat)
    returns (found: seq<TaskId>)
    ensures IsScan(due, rank, limit, found)
    ensures limit > 0 && due != {} ==> found != [] && found[0] in due
    decreases limit
  {
    if due == {} || limit == 0 {
      found := [];
    } else {
      var m := First(due, rank);
      var rest := ScanExists(due - {m}, rank, limit - 1);
      Prepend(due, rank, limit, m, rest);
      found := [m] + rest;
    }
  }
}
