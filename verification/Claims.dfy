/**
 Repeated claims.  Each recovery claims the first idle entries of the stream, at most a batch of them, and what it claims is
 not idle for a while.  Entries that nobody acks come back to the front, so the later ones get their turn only if the
 recoveries within one idle time can claim more than all those before them.
*/
module Claims {
  import opened Basics
  import opened Queues

  predicate Sorted(ids: seq<nat>) {
    forall i, j :: 0 <= i < j < |ids| ==> ids[i] < ids[j]
  }

  function Ids(ids: seq<nat>): set<nat> {
    set x | x in ids
  }

  lemma IdsSize(ids: seq<nat>)
    requires Sorted(ids)
    ensures |Ids(ids)| == |ids|
  {
    DistinctSize(ids);
  }

  lemma Product(n: int, t: int)
    ensures (n + 1) * t == n * t + t
  {}

  lemma {:induction false} Products(m: int, n: int, t: nat)
    requires m <= n
    ensures m * t <= n * t
    decreases n - m
  {
    if m < n {
      Products(m, n - 1, t);
      Product(n - 1, t);
    }
  }

  // ---- One claim ----

  /** The pending entries before e. */
  function Before(pel: map<nat, int>, e: nat): set<nat> {
    set x | x in pel && x < e
  }

  function IdleBefore(pel: map<nat, int>, minIdle: nat, now: int, e: nat): set<nat> {
    set x | x in Before(pel, e) && IdleFor(pel, x, minIdle, now)
  }

  /** An entry is claimed if and only if it is idle and the idle entries before it do not fill the batch. */
  lemma ClaimedExactlyWithinBatch(pel: map<nat, int>, minIdle: nat, now: int, count: nat, ids: seq<nat>, e: nat)
    requires IsPendingScan(pel, minIdle, now, count, ids)
    ensures e in ids <==> IdleFor(pel, e, minIdle, now) && |IdleBefore(pel, minIdle, now, e)| < count
  {
    if e in ids {
      var j :| 0 <= j < |ids| && ids[j] == e;
      forall x | x in IdleBefore(pel, minIdle, now, e) ensures x in Ids(ids[..j]) {
        if x !in ids { assert false; }
      }
      IdsSize(ids[..j]);
      SubsetSize(IdleBefore(pel, minIdle, now, e), Ids(ids[..j]));
    } else if IdleFor(pel, e, minIdle, now) {
      forall x | x in Ids(ids) ensures x in IdleBefore(pel, minIdle, now, e) {}
      IdsSize(ids);
      SubsetSize(Ids(ids), IdleBefore(pel, minIdle, now, e));
    }
  }

  // ---- Claims in a row ----

  /** The pending entries list at a recovery's instant, and what the recovery claimed. */
  datatype Recovery = Recovery(pel: map<nat, int>, now: int, ids: seq<nat>)

  ghost predicate Scans(rs: seq<Recovery>, minIdle: nat, count: nat) {
    forall i :: 0 <= i < |rs| ==> IsPendingScan(rs[i].pel, minIdle, rs[i].now, count, rs[i].ids)
  }

  /** Between two recoveries entries are acked, claimed by others and delivered: deliveries only become later. */
  predicate Follows(r: Recovery, r': Recovery) {
    && r.now <= r'.now
    && forall x :: x in r'.pel ==>
         r'.pel[x] >= if x in r.pel && x !in r.ids then r.pel[x] else r.now
  }

  ghost predicate InARow(rs: seq<Recovery>, minIdle: nat, count: nat) {
    Scans(rs, minIdle, count) && forall i :: 0 <= i < |rs| - 1 ==> Follows(rs[i], rs[i + 1])
  }

  /** All that the recoveries claimed. */
  function Claimed(rs: seq<Recovery>): set<nat> {
    if rs == [] then {} else Claimed(rs[..|rs| - 1]) + Ids(rs[|rs| - 1].ids)
  }

  lemma {:induction false} TimesGrow(rs: seq<Recovery>, minIdle: nat, count: nat)
    requires rs != [] && InARow(rs, minIdle, count)
    ensures rs[0].now <= rs[|rs| - 1].now
    decreases |rs|
  {
    var n := |rs| - 1;
    if n > 0 {
      assert Follows(rs[n - 1], rs[n]);
      TimesGrow(rs[..n], minIdle, count);
    }
  }

  lemma ClaimedNext(rs: seq<Recovery>, n: nat)
    requires n < |rs|
    ensures Claimed(rs[..n + 1]) == Claimed(rs[..n]) + Ids(rs[n].ids)
  {
    assert rs[..n + 1][..n] == rs[..n] && rs[..n + 1][n] == rs[n];
  }

  /** What is pending after some recoveries, and was claimed by one of them or was not there at the first, is recent. */
  lemma {:induction false} StillRecent(rs: seq<Recovery>, minIdle: nat, count: nat, n: nat, x: nat)
    requires n < |rs| && InARow(rs, minIdle, count) && x in rs[n].pel
    requires x in Claimed(rs[..n]) || x !in rs[0].pel
    ensures rs[n].pel[x] >= rs[0].now
  {
    if n > 0 {
      assert Follows(rs[n - 1], rs[n]);
      ClaimedNext(rs, n - 1);
      TimesGrow(rs[..n], minIdle, count);
      if x in rs[n - 1].pel && x !in rs[n - 1].ids { StillRecent(rs, minIdle, count, n - 1, x); }
    }
  }

  /** Within one idle time nothing is claimed twice, and only what was there at the first recovery. */
  lemma NothingTwice(rs: seq<Recovery>, minIdle: nat, count: nat, n: nat, x: nat)
    requires n < |rs| && InARow(rs, minIdle, count) && rs[n].now < rs[0].now + minIdle && x in rs[n].ids
    ensures x !in Claimed(rs[..n]) && x in rs[0].pel
  {
    if x in Claimed(rs[..n]) || x !in rs[0].pel { StillRecent(rs, minIdle, count, n, x); }
  }

  predicate Waiting(rs: seq<Recovery>, minIdle: nat, e: nat) {
    forall i :: 0 <= i < |rs| ==> IdleFor(rs[i].pel, e, minIdle, rs[i].now)
  }

  /** A recovery passes over an idle entry only for a full batch of entries before it. */
  lemma PassedOver(r: Recovery, minIdle: nat, count: nat, e: nat)
    requires IsPendingScan(r.pel, minIdle, r.now, count, r.ids) && IdleFor(r.pel, e, minIdle, r.now) && e !in r.ids
    ensures |Ids(r.ids)| == count && forall x :: x in r.ids ==> x < e
  {
    IdsSize(r.ids);
  }

  lemma UnionSize(a: set<nat>, b: set<nat>)
    ensures |a + b| <= |a| + |b| && (a !! b ==> |a + b| == |a| + |b|)
  {
    assert a + b == a + (b - a) && a !! (b - a);
    SubsetSize(b - a, b);
  }

  /** As long as an idle entry is passed over, each recovery claims a full batch of other entries before it. */
  lemma {:induction false} FullBatches(rs: seq<Recovery>, minIdle: nat, count: nat, n: nat, e: nat)
    requires n <= |rs| && InARow(rs, minIdle, count) && Waiting(rs, minIdle, e)
    requires forall i :: 0 <= i < n ==> e !in rs[i].ids && rs[i].now < rs[0].now + minIdle
    ensures |Claimed(rs[..n])| == n * count && (n > 0 ==> Claimed(rs[..n]) <= Before(rs[0].pel, e))
  {
    if n > 0 {
      FullBatches(rs, minIdle, count, n - 1, e);
      ClaimedNext(rs, n - 1);
      PassedOver(rs[n - 1], minIdle, count, e);
      forall x | x in Ids(rs[n - 1].ids) ensures x !in Claimed(rs[..n - 1]) && x in Before(rs[0].pel, e) {
        NothingTwice(rs, minIdle, count, n - 1, x);
      }
      UnionSize(Claimed(rs[..n - 1]), Ids(rs[n - 1].ids));
      Product(n - 1, count);
    }
  }

  /** Whatever others ack, claim and deliver meanwhile: an entry that stays idle is claimed by one of the recoveries
      within an idle time, if these can claim more than the entries pending before it at the first of them. */
  lemma ClaimedInTime(rs: seq<Recovery>, minIdle: nat, count: nat, e: nat)
    requires InARow(rs, minIdle, count) && rs != [] && Waiting(rs, minIdle, e)
    requires rs[|rs| - 1].now < rs[0].now + minIdle && |Before(rs[0].pel, e)| < |rs| * count
    ensures exists i :: 0 <= i < |rs| && e in rs[i].ids
  {
    if forall i :: 0 <= i < |rs| ==> e !in rs[i].ids {
      forall i | 0 <= i < |rs| ensures rs[i].now <= rs[|rs| - 1].now { TimesGrow(rs[i..], minIdle, count); }
      FullBatches(rs, minIdle, count, |rs|, e);
      assert rs[..|rs|] == rs;
      SubsetSize(Claimed(rs), Before(rs[0].pel, e));
    }
  }

  // ---- Exactly when a regular sequence of claims gets to an entry ----

  /** Recoveries of one worker every tick, while nobody acks or claims any entry up to e; all of these are idle at the
      first one. */
  ghost predicate Regular(rs: seq<Recovery>, minIdle: nat, count: nat, tick: nat, e: nat) {
    && rs != [] && InARow(rs, minIdle, count)
    && (forall i :: 0 <= i < |rs| ==> rs[i].now == rs[0].now + i * tick)
    && (forall i, x :: 0 <= i < |rs| && x <= e ==> (x in rs[i].pel <==> x in rs[0].pel))
    && (forall i, x :: 0 <= i < |rs| - 1 && x <= e && x in rs[0].pel ==>
          rs[i + 1].pel[x] == if x in rs[i].ids then rs[i].now else rs[i].pel[x])
    && (forall x :: x <= e && x in rs[0].pel ==> IdleFor(rs[0].pel, x, minIdle, rs[0].now))
  }

  lemma {:induction false} LastClaim(rs: seq<Recovery>, minIdle: nat, count: nat, tick: nat, e: nat, j: nat, x: nat)
    requires Regular(rs, minIdle, count, tick, e) && j < |rs| && x <= e && x in rs[0].pel
    ensures x in rs[j].pel
    ensures rs[j].pel[x] == rs[0].pel[x] || exists i :: 0 <= i < j && x in rs[i].ids && rs[j].pel[x] == rs[i].now
  {
    if j > 0 {
      LastClaim(rs, minIdle, count, tick, e, j - 1, x);
      assert rs[j - 1 + 1].pel[x] == if x in rs[j - 1].ids then rs[j - 1].now else rs[j - 1].pel[x];
    }
  }

  lemma {:induction false} InClaimed(rs: seq<Recovery>, i: nat, x: nat)
    requires i < |rs| && x in rs[i].ids
    ensures x in Claimed(rs)
  {
    if i < |rs| - 1 { InClaimed(rs[..|rs| - 1], i, x); }
  }

  lemma {:induction false} ClaimedSize(rs: seq<Recovery>, minIdle: nat, count: nat)
    requires Scans(rs, minIdle, count)
    ensures |Claimed(rs)| <= |rs| * count
  {
    if rs != [] {
      var n := |rs| - 1;
      ClaimedSize(rs[..n], minIdle, count);
      assert IsPendingScan(rs[n].pel, minIdle, rs[n].now, count, rs[n].ids);
      IdsSize(rs[n].ids);
      UnionSize(Claimed(rs[..n]), Ids(rs[n].ids));
      Product(n, count);
    }
  }

  lemma Apart(j: int, k: int, tick: int)
    ensures (j - k) * tick == j * tick - k * tick
  {}

  /** What is not idle at a recovery was claimed by one of the recoveries within the idle time before it. */
  lemma NotIdleIsClaimed(rs: seq<Recovery>, minIdle: nat, count: nat, tick: nat, e: nat, k: nat, j: nat, x: nat)
    requires Regular(rs, minIdle, count, tick, e) && 0 < minIdle <= k * tick && j < |rs|
    requires x <= e && x in rs[0].pel && !IdleFor(rs[j].pel, x, minIdle, rs[j].now)
    ensures x in Claimed(rs[if j < k then 0 else j - k + 1..j])
  {
    LastClaim(rs, minIdle, count, tick, e, j, x);
    var from := if j < k then 0 else j - k + 1;
    Products(0, j, tick);
    var i :| 0 <= i < j && x in rs[i].ids && rs[j].pel[x] == rs[i].now;
    if i < from { Products(i, j - k, tick); Apart(j, k, tick); }
    InClaimed(rs[from..j], i - from, x);
  }

  /** Too many entries before it: the entry is passed over every time. */
  lemma NeverTheTurn(rs: seq<Recovery>, minIdle: nat, count: nat, tick: nat, e: nat, k: nat, j: nat)
    requires Regular(rs, minIdle, count, tick, e) && 0 < minIdle <= k * tick && j < |rs|
    requires |Before(rs[0].pel, e)| >= k * count
    ensures e !in rs[j].ids
  {
    var window := rs[if j < k then 0 else j - k + 1..j];
    var idle := IdleBefore(rs[j].pel, minIdle, rs[j].now, e);
    forall x | x in Before(rs[0].pel, e) ensures x in idle + Claimed(window) {
      if x !in idle { NotIdleIsClaimed(rs, minIdle, count, tick, e, k, j, x); }
    }
    SubsetSize(Before(rs[0].pel, e), idle + Claimed(window));
    UnionSize(idle, Claimed(window));
    ClaimedSize(window, minIdle, count);
    WindowIsShort(|window|, k, count);
    ClaimedExactlyWithinBatch(rs[j].pel, minIdle, rs[j].now, count, rs[j].ids, e);
  }

  lemma WindowIsShort(n: nat, k: nat, count: nat)
    requires n < k
    ensures n * count + count <= k * count
  {
    Product(n, count);
    Products(n + 1, k, count);
  }

  /** If k recoveries fit into one idle time, an entry behind entries that are never acked gets its turn if and only if
      there are fewer of these than k batches hold. */
  lemma TurnComesExactly(rs: seq<Recovery>, minIdle: nat, count: nat, tick: nat, e: nat, k: nat)
    requires Regular(rs, minIdle, count, tick, e) && e in rs[0].pel
    requires 0 < k <= |rs| && (k - 1) * tick < minIdle <= k * tick
    ensures (exists i :: 0 <= i < |rs| && e in rs[i].ids) <==> |Before(rs[0].pel, e)| < k * count
  {
    if |Before(rs[0].pel, e)| >= k * count {
      forall j | 0 <= j < |rs| ensures e !in rs[j].ids { NeverTheTurn(rs, minIdle, count, tick, e, k, j); }
    } else if forall i :: 0 <= i < |rs| ==> e !in rs[i].ids {
      var first := rs[..k];
      forall i | 0 <= i < k ensures IdleFor(first[i].pel, e, minIdle, first[i].now) {
        LastClaim(rs, minIdle, count, tick, e, i, e);
        Products(0, i, tick);
      }
      ClaimedInTime(first, minIdle, count, e);
    }
  }
}
