/** The dead stream agrees with the tasks table. */
module DeadLetters {
  import opened Basics
  import opened Statuses
  import opened Rows
  import opened Protocol
  import opened Safety

  predicate Recorded(s: State, id: TaskId) {
    exists i :: 0 <= i < |s.dead| && s.dead[i].task == id
  }

  predicate BurialOwed(s: State, id: TaskId) {
    exists a :: a in s.jobs && id in OwedBurial(s.jobs[a])
  }

  /** Each task has at most one record, and it repeats the dead row. */
  predicate RecordsTrue(s: State) {
    && (forall i :: 0 <= i < |s.dead| ==> IsDead(s, s.dead[i].task, s.dead[i].failure, s.dead[i].retryCount))
    && (forall i, j :: 0 <= i < j < |s.dead| ==> s.dead[i].task != s.dead[j].task)
  }

  /** At most one actor owes a task its record, and only while there is none. */
  predicate RecordsOwedOnce(s: State) {
    && (forall a, i :: a in s.jobs && 0 <= i < |s.dead| ==> s.dead[i].task !in OwedBurial(s.jobs[a]))
    && (forall a, b :: a in s.jobs && b in s.jobs && a != b ==> OwedBurial(s.jobs[a]) !! OwedBurial(s.jobs[b]))
  }

  predicate RecordsOk(s: State) {
    RecordsTrue(s) && RecordsOwedOnce(s)
  }

  /** Each dead row has its record, an actor that owes it, a recorded fault, or nobody configured to write it. */
  ghost predicate AllBuried(c: Config, s: State) {
    c.workerBuries && c.schedulerBuries ==>
      forall id :: Matches(s, id, Dead) ==> Recorded(s, id) || BurialOwed(s, id) || id in s.unburied
  }

  // ---- Records ----

  lemma DeadGrowth(c: Config, s: State, x: Action)
    requires Rooted(c, s) && Enabled(c, s, x)
    ensures
      var s' := Apply(c, s, x);
      || s'.dead == s.dead
      || (&& x.Advance? && s.jobs[x.actor].Burying?
          && |s'.dead| == |s.dead| + 1 && s'.dead[..|s.dead|] == s.dead
          && s'.dead[|s.dead|].task in OwedBurial(s.jobs[x.actor])
          && (x.actor in s'.jobs ==> OwedBurial(s'.jobs[x.actor]) == {})
          && IsDead(s, s'.dead[|s.dead|].task, s'.dead[|s.dead|].failure, s'.dead[|s.dead|].retryCount))
  {
    if x.Advance? {
      assert JobOk(s, s.jobs[x.actor]);
    } else {
      OtherStores(c, s, x);
    }
  }

  lemma AdvanceBurialDebt(c: Config, s: State, a: ActorId, id: TaskId)
    requires a in s.jobs && JobOk(s, s.jobs[a]) && NextJob(c, s, a).Some? && id in OwedBurial(NextJob(c, s, a).value)
    ensures id in OwedBurial(s.jobs[a]) || Matches(s, id, Failed)
  {}

  lemma OtherBurialDebt(c: Config, s: State, x: Action)
    requires Enabled(c, s, x) && !x.Advance? && !x.Wait? && x.actor in DoOther(c, s, x).jobs
    ensures OwedBurial(DoOther(c, s, x).jobs[x.actor]) == {}
  {}

  /** An actor comes to owe a record only by turning a failed row dead. */
  lemma NewBurialDebt(c: Config, s: State, x: Action, id: TaskId)
    requires Rooted(c, s) && Enabled(c, s, x) && !x.Wait? && x.actor in Apply(c, s, x).jobs
    requires id in OwedBurial(Apply(c, s, x).jobs[x.actor])
    ensures (x.actor in s.jobs && id in OwedBurial(s.jobs[x.actor])) || Matches(s, id, Failed)
  {
    if x.Advance? {
      AdvanceBurialDebt(c, s, x.actor, id);
    } else {
      OtherBurialDebt(c, s, x);
    }
  }

  lemma OwedIsDead(s: State, j: Job, id: TaskId)
    requires JobOk(s, j) && id in OwedBurial(j)
    ensures Matches(s, id, Dead)
  {}

  lemma DebtsDisjoint(c: Config, s: State, x: Action, a: ActorId, b: ActorId, id: TaskId)
    requires Rooted(c, s) && RecordsOk(s) && Enabled(c, s, x)
    requires a in Apply(c, s, x).jobs && b in Apply(c, s, x).jobs && a != b && Some(b) != ActorOf(x)
    requires id in Apply(c, s, x).rows && id in OwedBurial(Apply(c, s, x).jobs[a])
    ensures id !in OwedBurial(Apply(c, s, x).jobs[b])
  {
    var s' := Apply(c, s, x);
    StepOthers(c, s, x);
    if Some(a) == ActorOf(x) { NewBurialDebt(c, s, x, id); }
    if id in OwedBurial(s'.jobs[b]) { OwedIsDead(s, s.jobs[b], id); }
  }

  lemma DebtUnrecorded(c: Config, s: State, x: Action, a: ActorId, i: nat)
    requires Rooted(c, s) && RecordsOk(s) && Enabled(c, s, x)
    requires a in Apply(c, s, x).jobs && i < |Apply(c, s, x).dead|
    ensures Apply(c, s, x).dead[i].task !in OwedBurial(Apply(c, s, x).jobs[a])
  {
    var s' := Apply(c, s, x);
    var id := s'.dead[i].task;
    DeadGrowth(c, s, x);
    StepOthers(c, s, x);
    if i < |s.dead| {
      assert s'.dead[i] == s.dead[i];
      assert IsDead(s, s.dead[i].task, s.dead[i].failure, s.dead[i].retryCount);
    }
    if id in OwedBurial(s'.jobs[a]) && Some(a) == ActorOf(x) { NewBurialDebt(c, s, x, id); }
  }

  lemma RecordsKept(s: State, s': State)
    requires RecordsTrue(s) && Frame(s, s')
    requires s'.dead == s.dead || (|s'.dead| == |s.dead| + 1 && s'.dead[..|s.dead|] == s.dead)
    requires |s'.dead| > |s.dead| ==>
      var d := s'.dead[|s.dead|];
      && IsDead(s, d.task, d.failure, d.retryCount)
      && forall i :: 0 <= i < |s.dead| ==> s.dead[i].task != d.task
    ensures RecordsTrue(s')
  {
    forall i | 0 <= i < |s'.dead|
      ensures i < |s.dead| ==> s'.dead[i] == s.dead[i]
      ensures IsDead(s', s'.dead[i].task, s'.dead[i].failure, s'.dead[i].retryCount)
    {
      if i < |s.dead| { assert s'.dead[i] == s.dead[i]; }
    }
  }

  lemma StepRecordsTrue(c: Config, s: State, x: Action)
    requires Rooted(c, s) && RecordsOk(s) && Enabled(c, s, x)
    ensures RecordsTrue(Apply(c, s, x))
  {
    StepFrame(c, s, x);
    DeadGrowth(c, s, x);
    RecordsKept(s, Apply(c, s, x));
  }

  lemma StepRecordsOwedOnce(c: Config, s: State, x: Action)
    requires Rooted(c, s) && RecordsOk(s) && Enabled(c, s, x)
    ensures RecordsOwedOnce(Apply(c, s, x))
  {
    var s' := Apply(c, s, x);
    StepRooted(c, s, x);
    forall a, i | a in s'.jobs && 0 <= i < |s'.dead| ensures s'.dead[i].task !in OwedBurial(s'.jobs[a]) {
      DebtUnrecorded(c, s, x, a, i);
    }
    forall a, b, id | a in s'.jobs && b in s'.jobs && a != b && id in OwedBurial(s'.jobs[a])
      ensures id !in OwedBurial(s'.jobs[b])
    {
      OwedIsDead(s', s'.jobs[a], id);
      if Some(b) != ActorOf(x) {
        DebtsDisjoint(c, s, x, a, b, id);
      } else if id in OwedBurial(s'.jobs[b]) {
        DebtsDisjoint(c, s, x, b, a, id);
      }
    }
  }

  lemma StepRecords(c: Config, s: State, x: Action)
    requires Rooted(c, s) && RecordsOk(s) && Enabled(c, s, x)
    ensures RecordsOk(Apply(c, s, x))
  {
    StepRecordsTrue(c, s, x);
    StepRecordsOwedOnce(c, s, x);
  }

  // ---- Every dead row is recorded ----

  lemma UnburiedGrows(c: Config, s: State, x: Action)
    requires Enabled(c, s, x)
    ensures s.unburied <= Apply(c, s, x).unburied
    ensures x.Abort? || x.BuryFails? ==> OwedBurial(s.jobs[x.actor]) <= Apply(c, s, x).unburied
  {}

  lemma DebtSettled(c: Config, s: State, a: ActorId, id: TaskId)
    requires c.workerBuries && a in s.jobs && id in OwedBurial(s.jobs[a])
    ensures
      var s' := DoAdvance(c, s, a);
      Recorded(s', id) || (a in s'.jobs && id in OwedBurial(s'.jobs[a]))
  {
    var s' := DoAdvance(c, s, a);
    if s.jobs[a].Burying? { assert s'.dead[|s.dead|].task == id; }
  }

  lemma DebtStays(c: Config, s: State, x: Action, id: TaskId, a: ActorId)
    requires Enabled(c, s, x) && c.workerBuries && a in s.jobs && id in OwedBurial(s.jobs[a])
    ensures var s' := Apply(c, s, x); Recorded(s', id) || BurialOwed(s', id) || id in s'.unburied
  {
    StepOthers(c, s, x);
    if Some(a) == ActorOf(x) {
      UnburiedGrows(c, s, x);
      if x.Advance? { DebtSettled(c, s, a, id); }
    }
  }

  lemma TurnsDead(c: Config, s: State, x: Action, id: TaskId)
    requires Rooted(c, s) && Enabled(c, s, x) && c.schedulerBuries
    requires Matches(Apply(c, s, x), id, Dead) && !Matches(s, id, Dead)
    ensures BurialOwed(Apply(c, s, x), id)
  {
    if x.Advance? {
      AdvanceTurnsDead(c, s, x.actor, id);
    } else {
      OtherRows(c, s, x);
    }
  }

  lemma AdvanceTurnsDead(c: Config, s: State, a: ActorId, id: TaskId)
    requires a in s.jobs && JobOk(s, s.jobs[a]) && c.schedulerBuries
    requires id in NextRows(c, s, a) && NextRows(c, s, a)[id].status == Dead && !Matches(s, id, Dead)
    ensures BurialOwed(DoAdvance(c, s, a), id)
  {
    assert s.jobs[a].Completing?;
    assert id in OwedBurial(NextJob(c, s, a).value);
    assert DoAdvance(c, s, a).jobs[a] == NextJob(c, s, a).value;
  }

  lemma StepAllBuried(c: Config, s: State, x: Action)
    requires Rooted(c, s) && AllBuried(c, s) && Enabled(c, s, x)
    ensures AllBuried(c, Apply(c, s, x))
  {
    var s' := Apply(c, s, x);
    DeadGrowth(c, s, x);
    UnburiedGrows(c, s, x);
    if c.workerBuries && c.schedulerBuries {
      forall id | Matches(s', id, Dead)
        ensures Recorded(s', id) || BurialOwed(s', id) || id in s'.unburied
      {
        if !Matches(s, id, Dead) {
          TurnsDead(c, s, x, id);
        } else if Recorded(s, id) {
          var i :| 0 <= i < |s.dead| && s.dead[i].task == id;
          assert s'.dead[i].task == id;
        } else if BurialOwed(s, id) {
          var a :| a in s.jobs && id in OwedBurial(s.jobs[a]);
          DebtStays(c, s, x, id, a);
        }
      }
    }
  }

  // ---- The same for each owner by itself ----

  /** The actor owes the record and has a dead publisher. */
  predicate Buries(c: Config, j: Job, id: TaskId) {
    id in OwedBurial(j) && (j.Burying? || c.workerBuries)
  }

  predicate SomebodyBuries(c: Config, s: State, id: TaskId) {
    exists a :: a in s.jobs && Buries(c, s.jobs[a], id)
  }

  /** The record is written, or was cut off, or an actor with a dead publisher owes it. */
  predicate BurialAssured(c: Config, s: State, id: TaskId) {
    Recorded(s, id) || id in s.unburied || SomebodyBuries(c, s, id)
  }

  predicate HasPublisher(c: Config, owner: Owner) {
    if owner.Worker? then c.workerBuries else c.schedulerBuries
  }

  lemma RecordStays(c: Config, s: State, x: Action, s': State, id: TaskId)
    requires Rooted(c, s) && Enabled(c, s, x) && s' == Apply(c, s, x)
    ensures Recorded(s, id) ==> Recorded(s', id)
    ensures id in s.unburied ==> id in s'.unburied
  {
    DeadGrowth(c, s, x);
    UnburiedGrows(c, s, x);
    if Recorded(s, id) {
      var i :| 0 <= i < |s.dead| && s.dead[i].task == id;
      assert s'.dead[i].task == id;
    }
  }

  lemma OwnersDebtSettled(c: Config, s: State, a: ActorId, id: TaskId)
    requires a in s.jobs && Buries(c, s.jobs[a], id)
    ensures BurialAssured(c, DoAdvance(c, s, a), id)
  {
    var s' := DoAdvance(c, s, a);
    if s.jobs[a].Burying? {
      assert s'.dead[|s.dead|].task == id;
    } else {
      assert a in s'.jobs && Buries(c, s'.jobs[a], id);
    }
  }

  lemma AssuredStays(c: Config, s: State, x: Action, s': State, id: TaskId)
    requires Rooted(c, s) && Enabled(c, s, x) && s' == Apply(c, s, x) && BurialAssured(c, s, id)
    ensures BurialAssured(c, s', id)
  {
    RecordStays(c, s, x, s', id);
    if !Recorded(s, id) && id !in s.unburied {
      var a :| a in s.jobs && Buries(c, s.jobs[a], id);
      if Some(a) != ActorOf(x) {
        StepOthers(c, s, x);
      } else if x.Advance? {
        OwnersDebtSettled(c, s, a, id);
      } else {
        UnburiedGrows(c, s, x);
      }
    }
  }

  /** A row turns dead only by a CompleteFailure; its owner then owes the record, if it has a publisher. */
  lemma DeathIsOwned(c: Config, s: State, x: Action, s': State, id: TaskId)
    requires Rooted(c, s) && Enabled(c, s, x) && s' == Apply(c, s, x) && Matches(s', id, Dead) && !Matches(s, id, Dead)
    ensures x.Advance? && s.jobs[x.actor].Completing? && s.jobs[x.actor].task == id
    ensures HasPublisher(c, s.jobs[x.actor].owner) ==> BurialAssured(c, s', id)
  {
    if x.Advance? {
      CompletingKills(c, s, x.actor, id);
    } else {
      OtherRows(c, s, x);
    }
  }

  lemma CompletingKills(c: Config, s: State, a: ActorId, id: TaskId)
    requires a in s.jobs && JobOk(s, s.jobs[a])
    requires id in NextRows(c, s, a) && NextRows(c, s, a)[id].status == Dead && !Matches(s, id, Dead)
    ensures s.jobs[a].Completing? && s.jobs[a].task == id
    ensures HasPublisher(c, s.jobs[a].owner) ==> BurialAssured(c, DoAdvance(c, s, a), id)
  {
    assert s.jobs[a].Completing?;
    if HasPublisher(c, s.jobs[a].owner) {
      assert id in OwedBurial(NextJob(c, s, a).value);
      assert Buries(c, DoAdvance(c, s, a).jobs[a], id);
    }
  }
}
