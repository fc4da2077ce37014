/** Exactly which dead rows get their dead letter. */
module Burials {
  import opened Basics
  import opened Statuses
  import opened Rows
  import opened Protocol
  import opened Safety
  import opened DeadLetters
  import opened Guarantees
  import opened Histories

  /** Some run writes the record. */
  ghost predicate CanBeRecorded(c: Config, s: State, id: TaskId) {
    exists xs :: Valid(c, s, xs) && Recorded(RunFrom(c, s, xs), id)
  }

  // ---- A record that nobody owes is never written ----

  lemma NewBurier(c: Config, s: State, x: Action, s': State, id: TaskId)
    requires Rooted(c, s) && Enabled(c, s, x) && s' == Apply(c, s, x) && !x.Wait? && Matches(s, id, Dead)
    requires x.actor in s'.jobs && Buries(c, s'.jobs[x.actor], id)
    ensures SomebodyBuries(c, s, id)
  {
    if x.Advance? { AdvanceBurier(c, s, x.actor, id); } else { OtherBurialDebt(c, s, x); }
  }

  lemma AdvanceBurier(c: Config, s: State, a: ActorId, id: TaskId)
    requires a in s.jobs && JobOk(s, s.jobs[a]) && Matches(s, id, Dead)
    requires NextJob(c, s, a).Some? && Buries(c, NextJob(c, s, a).value, id)
    ensures Buries(c, s.jobs[a], id)
  {}

  lemma NoNewRecord(c: Config, s: State, x: Action, s': State, id: TaskId)
    requires Rooted(c, s) && Enabled(c, s, x) && s' == Apply(c, s, x) && !Recorded(s, id) && !SomebodyBuries(c, s, id)
    ensures !Recorded(s', id)
  {
    DeadGrowth(c, s, x);
    forall i | 0 <= i < |s'.dead| ensures s'.dead[i].task != id {
      if i < |s.dead| { assert s'.dead[i] == s.dead[i]; }
    }
  }

  lemma StaysUnrecorded(c: Config, s: State, x: Action, s': State, id: TaskId)
    requires Rooted(c, s) && Enabled(c, s, x) && s' == Apply(c, s, x) && Matches(s, id, Dead)
    requires !Recorded(s, id) && !SomebodyBuries(c, s, id)
    ensures Matches(s', id, Dead) && !Recorded(s', id) && !SomebodyBuries(c, s', id)
  {
    StepFrame(c, s, x);
    NoNewRecord(c, s, x, s', id);
    StepOthers(c, s, x);
    forall a | a in s'.jobs ensures !Buries(c, s'.jobs[a], id) {
      if Some(a) == ActorOf(x) && Buries(c, s'.jobs[a], id) { NewBurier(c, s, x, s', id); }
    }
  }

  lemma {:induction false} UnrecordedForEver(c: Config, s: State, xs: seq<Action>, id: TaskId)
    requires Reachable(c, s) && Valid(c, s, xs) && Matches(s, id, Dead) && !Recorded(s, id) && !SomebodyBuries(c, s, id)
    ensures var s' := RunFrom(c, s, xs); Matches(s', id, Dead) && !Recorded(s', id) && !SomebodyBuries(c, s', id)
    decreases |xs|
  {
    if xs != [] {
      var init := xs[..|xs| - 1];
      UnrecordedForEver(c, s, init, id);
      ReachableFrom(c, s, init);
      ReachableKeepsInv(c, RunFrom(c, s, init));
      StaysUnrecorded(c, RunFrom(c, s, init), xs[|xs| - 1], RunFrom(c, s, xs), id);
    }
  }

  // ---- One that somebody owes can be ----

  lemma BuriesNow(c: Config, s: State, a: ActorId, id: TaskId)
    requires a in s.jobs && s.jobs[a].Burying? && s.jobs[a].task == id
    ensures Recorded(DoAdvance(c, s, a), id)
  {
    assert DoAdvance(c, s, a).dead[|s.dead|].task == id;
  }

  lemma BuriesSoon(c: Config, s: State, a: ActorId, id: TaskId) returns (xs: seq<Action>)
    requires a in s.jobs && Buries(c, s.jobs[a], id)
    ensures Valid(c, s, xs) && Recorded(RunFrom(c, s, xs), id)
  {
    var x := Advance(a);
    NoActions(c, s);
    Further(c, s, [], s, x);
    xs := [] + [x];
    if s.jobs[a].Burying? {
      BuriesNow(c, s, a, id);
    } else {
      var s1 := DoAdvance(c, s, a);
      Further(c, s, xs, s1, x);
      BuriesNow(c, s1, a, id);
      xs := xs + [x];
    }
  }

  /** A dead row of a reachable state can still get its record if and only if it has it, or an actor with a dead publisher
      owes it. */
  lemma RecordedExactlyIfOwed(c: Config, s: State, id: TaskId)
    requires Reachable(c, s) && Matches(s, id, Dead)
    ensures CanBeRecorded(c, s, id) <==> Recorded(s, id) || SomebodyBuries(c, s, id)
  {
    if Recorded(s, id) {
      NoActions(c, s);
    } else if SomebodyBuries(c, s, id) {
      var a :| a in s.jobs && Buries(c, s.jobs[a], id);
      var xs := BuriesSoon(c, s, a, id);
    } else {
      forall xs | Valid(c, s, xs) ensures !Recorded(RunFrom(c, s, xs), id) { UnrecordedForEver(c, s, xs, id); }
    }
  }
}
