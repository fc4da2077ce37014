/** internal/task/status.go: the declared state machine of a task. */
module Statuses {

  datatype Status = Scheduled | Pending | Running | Success | Failed | Retrying | Dead {
    predicate IsTerminal() {
      this == Success || this == Dead
    }
  }

  const VALID_TRANSITIONS: map<Status, set<Status>> := map[
    Scheduled := {Pending},
    Pending := {Running},
    Running := {Success, Failed, Retrying, Dead},
    Failed := {Retrying, Dead},
    Retrying := {Pending, Running}
  ]

  predicate CanTransition(from: Status, to: Status) {
    from in VALID_TRANSITIONS && to in VALID_TRANSITIONS[from]
  }

  /** Terminal statuses are exactly the ones the table gives no way out of. */
  lemma TerminalIsAbsorbing(s: Status)
    ensures s.IsTerminal() <==> forall to :: !CanTransition(s, to)
  {
    if !s.IsTerminal() {
      var to := match s
        case Scheduled => Pending
        case Pending => Running
        case Running => Success
        case Failed => Dead
        case _ => Pending;
      assert CanTransition(s, to);
    }
  }
}
