/** Rounds exist: from rest the program can always go through one, so what holds of all rounds is not said of nothing. */
module Playing {
  import opened Basics
  import opened Protocol
  import opened Safety
  import opened Guarantees
  import opened Carriers
  import opened Draining
  import opened Stranded
  import opened Rounds

  // ---- To rest ----

  /** The entry can be handed out, and nobody is at work on it. */
  predicate Untended(c: Config, s: State, i: nat) {
    Open(c, s, i) && forall a :: a in s.jobs ==> !HandledBy(s.jobs[a], i)
  }

  lemma StaysOpenUntended(c: Config, s: State, x: Action, s': State, i: nat)
    requires Enabled(c, s, x) && !x.Deliver? && !x.Reclaim? && s' == Apply(c, s, x) && Untended(c, s, i)
    ensures Open(c, s', i) && s'.delivered == s.delivered
  {}

  lemma StepUntended(c: Config, s: State, x: Action, s': State, i: nat)
    requires Enabled(c, s, x) && !x.Deliver? && !x.Reclaim? && s' == Apply(c, s, x) && Untended(c, s, i)
    ensures Untended(c, s', i)
  {
    StaysOpenUntended(c, s, x, s', i);
    StepOthers(c, s, x);
    forall a | a in s'.jobs ensures !HandledBy(s'.jobs[a], i) {
      if Some(a) == ActorOf(x) && HandledBy(s'.jobs[a], i) {
        if x.Advance? { NextHandler(c, s, a, i); } else { OtherTends(c, s, x, i); }
      }
    }
  }

  /** What is done from s to s' hands out no message. */
  ghost predicate HandsNothing(c: Config, s: State, s': State) {
    s'.delivered == s.delivered && forall i :: Untended(c, s, i) ==> Untended(c, s', i)
  }

  lemma NothingTwice(c: Config, s: State, s1: State, s': State)
    requires HandsNothing(c, s, s1) && HandsNothing(c, s1, s')
    ensures HandsNothing(c, s, s')
  {}

  lemma Continue(c: Config, s: State, xs: seq<Action>, s1: State, ys: seq<Action>, s': State)
    requires Ran(c, s, xs, s1) && Ran(c, s1, ys, s') && Peaceful(xs) && Peaceful(ys)
    ensures Ran(c, s, xs + ys, s') && Peaceful(xs + ys)
  {
    Joined(c, s, xs, s1, ys, s');
  }

  /** One action as a run. */
  lemma OneAction(c: Config, s: State, x: Action, s1: State)
    requires Reachable(c, s) && Enabled(c, s, x) && s1 == Apply(c, s, x)
    ensures Ran(c, s, [x], s1) && Reachable(c, s1)
  {
    NoActions(c, s);
    Further(c, s, [], s, x);
    assert [] + [x] == [x];
    ReachableFrom(c, s, [x]);
  }

  lemma QuietAction(c: Config, s: State, x: Action) returns (s1: State)
    requires Reachable(c, s) && Enabled(c, s, x) && !x.Deliver? && !x.Reclaim?
    ensures s1 == Apply(c, s, x) && Ran(c, s, [x], s1) && Reachable(c, s1) && HandsNothing(c, s, s1)
  {
    s1 := Apply(c, s, x);
    OneAction(c, s, x, s1);
    SameDelivered(c, s, x, s1);
    forall i | Untended(c, s, i) ensures Untended(c, s1, i) { StepUntended(c, s, x, s1, i); }
  }

  lemma SameDelivered(c: Config, s: State, x: Action, s': State)
    requires Enabled(c, s, x) && !x.Deliver? && s' == Apply(c, s, x)
    ensures s'.delivered == s.delivered
  {}

  lemma GoesOn(c: Config, o: Oracle, s: State) returns (x: Action)
    requires Reachable(c, s) && !Quiet(s)
    ensures Enabled(c, s, x) && Less(c, Apply(c, s, x), s) && Peaceful([x]) && !x.Deliver? && !x.Reclaim?
  {
    ReachableKeepsInv(c, s);
    if a :| a in s.jobs { x := ActorGoesOn(c, o, s, a); } else { x := SomeTickGoesOn(c, o, s); }
  }

  lemma SomeTickGoesOn(c: Config, o: Oracle, s: State) returns (x: Action)
    requires Rooted(c, s) && !Quiet(s) && s.jobs == map[]
    ensures Enabled(c, s, x) && Friendly(o, s, x) && Less(c, Apply(c, s, x), s) && (x.Scan? || x.Take? || x.EndPhase?)
  {
    var a :| a in s.ticks && s.ticks[a].phase != Idle;
    x := TickGoesOn(c, o, s, a);
  }

  lemma StepsOn(c: Config, o: Oracle, s: State) returns (x: Action, s1: State)
    requires Reachable(c, s) && !Quiet(s)
    ensures Ran(c, s, [x], s1) && Peaceful([x]) && Reachable(c, s1) && HandsNothing(c, s, s1) && Less(c, s1, s)
  {
    x := GoesOn(c, o, s);
    s1 := QuietAction(c, s, x);
  }

  lemma ReachableMeasure(c: Config, s: State)
    requires Reachable(c, s)
    ensures RowsLeft(s) >= 0 && EntriesLeft(s) >= 0 && WorkLeft(c, s) >= 0
  {
    ReachableKeepsInv(c, s);
    MeasureIsNatural(c, s);
  }

  /** Jobs and ticks under way can be brought to their end, and no message is handed out for that. */
  lemma {:induction false} ToRest(c: Config, o: Oracle, s: State) returns (xs: seq<Action>, s': State)
    requires Reachable(c, s)
    ensures Ran(c, s, xs, s') && Peaceful(xs) && Reachable(c, s') && Quiet(s') && HandsNothing(c, s, s')
    decreases RowsLeft(s), EntriesLeft(s), WorkLeft(c, s)
  {
    ReachableMeasure(c, s);
    if Quiet(s) {
      xs, s' := [], s;
      NoActions(c, s);
    } else {
      var x, s1 := StepsOn(c, o, s);
      ReachableMeasure(c, s1);
      var ys;
      ys, s' := ToRest(c, o, s1);
      NothingTwice(c, s, s1, s');
      Continue(c, s, [x], s1, ys, s');
      xs := [x] + ys;
    }
  }

  // ---- A late tick ----

  lemma StartsTickAt(c: Config, s: State, me: ActorId, t: int) returns (s1: State)
    requires Reachable(c, s) && Quiet(s) && me in c.schedulers && t >= s.now
    ensures Ran(c, s, [Wait(t)] + [StartTick(me)], s1) && Reachable(c, s1) && HandsNothing(c, s, s1)
    ensures Ran(c, s, [Wait(t)], s.(now := t))
  {
    var w := QuietAction(c, s, Wait(t));
    s1 := QuietAction(c, w, StartTick(me));
    NothingTwice(c, s, w, s1);
    Joined(c, s, [Wait(t)], w, [StartTick(me)], s1);
  }

  lemma LateTick(c: Config, o: Oracle, s: State) returns (xs: seq<Action>, s': State)
    requires Reachable(c, s) && Quiet(s) && c.schedulers != {}
    ensures Ran(c, s, xs, s') && Peaceful(xs) && Reachable(c, s') && Quiet(s') && HandsNothing(c, s, s')
    ensures exists me, k :: me in c.schedulers && StartsLate(c, s, xs, me, k)
  {
    var me :| me in c.schedulers;
    var t := LateInstant(c, s);
    xs, s' := TickAt(c, o, s, me, t);
    SecondStarts(c, s, xs, t, me);
  }

  lemma LateInstant(c: Config, s: State) returns (t: int)
    requires Reachable(c, s)
    ensures AllDue(s, t)
  {
    ReachableKeepsInv(c, s);
    t := LateEnough(s);
  }

  lemma TickAt(c: Config, o: Oracle, s: State, me: ActorId, t: int) returns (xs: seq<Action>, s': State)
    requires Reachable(c, s) && Quiet(s) && me in c.schedulers && t >= s.now
    ensures Ran(c, s, xs, s') && Peaceful(xs) && Reachable(c, s') && Quiet(s') && HandsNothing(c, s, s')
    ensures |xs| > 1 && xs[..1] == [Wait(t)] && Ran(c, s, xs[..1], s.(now := t)) && xs[1] == StartTick(me)
  {
    var s1 := StartsTickAt(c, s, me, t);
    var ys;
    ys, s' := ToRest(c, o, s1);
    NothingTwice(c, s, s1, s');
    xs := [Wait(t)] + [StartTick(me)] + ys;
    Continue(c, s, [Wait(t)] + [StartTick(me)], s1, ys, s');
    assert xs[..1] == [Wait(t)];
  }

  lemma SecondStarts(c: Config, s: State, xs: seq<Action>, t: int, me: ActorId)
    requires |xs| > 1 && xs[..1] == [Wait(t)] && Ran(c, s, xs[..1], s.(now := t)) && xs[1] == StartTick(me) && AllDue(s, t)
    ensures StartsLate(c, s, xs, me, 1)
  {}

  // ---- One message ----

  /** Entry i is handed out and handled. */
  ghost predicate Hands(c: Config, s: State, xs: seq<Action>, s': State, k: nat, i: nat) {
    && Ran(c, s, xs, s') && Peaceful(xs) && Reachable(c, s') && Quiet(s') && s.delivered <= s'.delivered && i < s'.delivered
    && HandsOut(c, s, xs, k, i) && forall j :: Open(c, s, j) && j != i ==> Open(c, s', j)
  }

  lemma Deliveries(c: Config, s: State, a: ActorId) returns (s1: State)
    requires Reachable(c, s) && Quiet(s) && Enabled(c, s, Deliver(a))
    ensures Ran(c, s, [Deliver(a)], s1) && Reachable(c, s1) && s1.delivered == s.delivered + 1
    ensures forall i :: Open(c, s, i) && i != s.delivered ==> Untended(c, s1, i)
  {
    s1 := Apply(c, s, Deliver(a));
    OneAction(c, s, Deliver(a), s1);
  }

  lemma Read(c: Config, o: Oracle, s: State) returns (xs: seq<Action>, s': State)
    requires Reachable(c, s) && Quiet(s) && s.delivered < |s.stream|
    ensures Hands(c, s, xs, s', 0, s.delivered)
  {
    var a := FreshActor(c.schedulers + s.jobs.Keys);
    var s1 := Deliveries(c, s, a);
    var ys;
    ys, s' := ToRest(c, o, s1);
    xs := [Deliver(a)] + ys;
    Continue(c, s, [Deliver(a)], s1, ys, s');
    NoActions(c, s);
    assert xs[..0] == [];
    assert HandsOut(c, s, xs, 0, s.delivered);
  }

  lemma Reclamations(c: Config, s: State, a: ActorId, t: int, i: nat) returns (s1: State)
    requires c.recovers && Reachable(c, s) && Quiet(s) && a !in c.schedulers
    requires i in s.pel && i < s.delivered && i < |s.stream| && t >= s.now && t >= s.pel[i] + c.minIdle
    ensures Ran(c, s, [Wait(t)] + [Reclaim(a, i)], s1) && Reachable(c, s1) && s1.delivered == s.delivered
    ensures Ran(c, s, [Wait(t)], s.(now := t))
    ensures forall j :: Open(c, s, j) && j != i ==> Untended(c, s1, j)
  {
    var w := QuietAction(c, s, Wait(t));
    s1 := Apply(c, w, Reclaim(a, i));
    OneAction(c, w, Reclaim(a, i), s1);
    Joined(c, s, [Wait(t)], w, [Reclaim(a, i)], s1);
  }

  lemma ClaimedLate(c: Config, o: Oracle, s: State, i: nat) returns (xs: seq<Action>, s': State)
    requires c.recovers && Reachable(c, s) && Quiet(s) && i in s.pel && i < s.delivered && i < |s.stream|
    ensures Hands(c, s, xs, s', 1, i)
  {
    var a := FreshActor(c.schedulers + s.jobs.Keys);
    var t := if s.pel[i] + c.minIdle > s.now then s.pel[i] + c.minIdle else s.now;
    var s1 := Reclamations(c, s, a, t, i);
    var ys;
    ys, s' := ToRest(c, o, s1);
    xs := [Wait(t)] + [Reclaim(a, i)] + ys;
    Continue(c, s, [Wait(t)] + [Reclaim(a, i)], s1, ys, s');
    assert xs[..1] == [Wait(t)];
    SecondHandsOut(c, s, xs, a, i);
  }

  lemma SecondHandsOut(c: Config, s: State, xs: seq<Action>, a: ActorId, i: nat)
    requires |xs| > 1 && Valid(c, s, xs[..1]) && xs[1] == Reclaim(a, i)
    ensures HandsOut(c, s, xs, 1, i)
  {}

  // ---- All messages ----

  lemma HandsOutLater(c: Config, s: State, xs: seq<Action>, s1: State, ys: seq<Action>, k: nat, i: nat)
    requires Ran(c, s, xs, s1) && Valid(c, s1, ys) && HandsOut(c, s1, ys, k, i)
    ensures HandsOut(c, s, xs + ys, |xs| + k, i)
  {
    Joined(c, s, xs, s1, ys[..k], RunFrom(c, s1, ys[..k]));
    assert (xs + ys)[..|xs| + k] == xs + ys[..k];
  }

  lemma HandsOutStill(c: Config, s: State, xs: seq<Action>, ys: seq<Action>, k: nat, i: nat)
    requires HandsOut(c, s, xs, k, i)
    ensures HandsOut(c, s, xs + ys, k, i)
  {
    assert (xs + ys)[..k] == xs[..k];
  }

  /** The first n entries that were open in s were handed out, and the others still are open. */
  ghost predicate HandedUpTo(c: Config, s: State, xs: seq<Action>, s1: State, n: nat) {
    && Ran(c, s, xs, s1) && Peaceful(xs) && Reachable(c, s1) && Quiet(s1) && n <= s1.delivered
    && (forall i: nat :: i < n && Open(c, s, i) ==> exists k: nat :: HandsOut(c, s, xs, k, i))
    && (forall i: nat :: n <= i && Open(c, s, i) ==> Open(c, s1, i))
  }

  lemma HandsOne(c: Config, o: Oracle, s: State, n: nat) returns (xs: seq<Action>, s': State, k: nat)
    requires Reachable(c, s) && Quiet(s) && Open(c, s, n) && n <= s.delivered && n < |s.stream|
    ensures Hands(c, s, xs, s', k, n)
  {
    if s.delivered == n { xs, s' := Read(c, o, s); k := 0; } else { xs, s' := ClaimedLate(c, o, s, n); k := 1; }
  }

  lemma HandsMore(c: Config, s: State, xs: seq<Action>, s1: State, n: nat, ys: seq<Action>, s2: State, k: nat)
    requires HandedUpTo(c, s, xs, s1, n) && Hands(c, s1, ys, s2, k, n)
    ensures HandedUpTo(c, s, xs + ys, s2, n + 1)
  {
    Joined(c, s, xs, s1, ys, s2);
    HandsOutLater(c, s, xs, s1, ys, k, n);
    forall i: nat | i < n && Open(c, s, i) ensures exists k: nat :: HandsOut(c, s, xs + ys, k, i) {
      var j: nat :| HandsOut(c, s, xs, j, i);
      HandsOutStill(c, s, xs, ys, j, i);
    }
  }

  lemma HandsNext(c: Config, o: Oracle, s: State, xs: seq<Action>, s1: State, n: nat)
    returns (zs: seq<Action>, s2: State)
    requires HandedUpTo(c, s, xs, s1, n) && n < |s1.stream|
    ensures HandedUpTo(c, s, zs, s2, n + 1) && xs <= zs
  {
    if Open(c, s1, n) {
      var ys, k;
      ys, s2, k := HandsOne(c, o, s1, n);
      HandsMore(c, s, xs, s1, n, ys, s2, k);
      zs := xs + ys;
    } else {
      zs, s2 := xs, s1;
    }
  }

  lemma HandsAll(c: Config, o: Oracle, s: State, xs: seq<Action>, s1: State, n: nat)
    returns (zs: seq<Action>, s2: State)
    requires Reachable(c, s) && HandedUpTo(c, s, xs, s1, 0) && n <= |s.stream|
    ensures HandedUpTo(c, s, zs, s2, n) && xs <= zs
  {
    zs, s2 := xs, s1;
    for i := 0 to n
      invariant HandedUpTo(c, s, zs, s2, i) && xs <= zs
    {
      ReachableKeepsInv(c, s);
      RunGrows(c, s, zs);
      zs, s2 := HandsNext(c, o, s, zs, s2, i);
    }
  }

  lemma StartsStill(c: Config, s: State, xs: seq<Action>, zs: seq<Action>, me: ActorId, k: nat)
    requires StartsLate(c, s, xs, me, k) && xs <= zs
    ensures StartsLate(c, s, zs, me, k)
  {
    assert zs[..k] == xs[..k];
  }

  /** From rest there is always a round. */
  lemma RoundExists(c: Config, o: Oracle, s: State)
    requires Reachable(c, s) && Quiet(s) && c.schedulers != {}
    ensures exists s' :: RoundTo(c, s, s')
  {
    var xs, s1 := LateTick(c, o, s);
    forall i: nat | Open(c, s, i) ensures Open(c, s1, i) { assert Untended(c, s, i); }
    var zs, s2 := HandsAll(c, o, s, xs, s1, |s.stream|);
    var me, k :| me in c.schedulers && StartsLate(c, s, xs, me, k);
    StartsStill(c, s, xs, zs, me, k);
    IsRound(c, s, zs, s2);
  }

  lemma IsRound(c: Config, s: State, xs: seq<Action>, s': State)
    requires Quiet(s) && HandedUpTo(c, s, xs, s', |s.stream|)
    requires exists me, k :: me in c.schedulers && StartsLate(c, s, xs, me, k)
    ensures RoundTo(c, s, s')
  {
    assert Round(c, s, xs, s');
  }
}
