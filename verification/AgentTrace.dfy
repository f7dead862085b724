/**
 What one agent run may do to the outside, in which order: the grammar of its effects, and what that grammar
 says about the positions of a trace. `AgentHandle` (`src/agent.rs`) is proved to stay within it.
 */
module AgentTrace {
  import opened Effects

  datatype Role = Standard | Decision | Diagnosis | Research(freshLaunch: bool) | Editor(attempt: int, builtIn: bool)

  predicate RoleCall(e: Event) {
    e.Asked? && (|| e.call.StoreDecision? || e.call.FailDecision? || e.call.ReadHealth? || e.call.StoreDiagnosis?
                 || e.call.SetHealth?
                 || e.call.ConfirmSession? || e.call.FinishResearch? || e.call.FailResearch?
                 || e.call.BindSession? || e.call.FinishEditor? || e.call.RejectEditor?)
  }

  predicate FinishCall(e: Event) {
    e.Asked? && e.call.FinishRun?
  }

  predicate Ending(e: Event) {
    e.Exited? || e.Terminated?
  }

  // ---------------------------------------------------------------- the grammar

  datatype Phase = Live | Ended | RoleDone | Done(status: Status) | Free(status: Status) | Bad

  function Next(role: Role, p: Phase, e: Event): Phase {
    match p
    case Live => if Ending(e) then Ended else Bad
    case Ended =>
      if RoleCall(e) && !role.Standard? then Ended
      else if e == Handled && !role.Standard? then RoleDone
      else if FinishCall(e) && role.Standard? then (if e.ok then Done(e.call.status) else Ended)
      else Bad
    case RoleDone => if FinishCall(e) then (if e.ok then Done(e.call.status) else RoleDone) else Bad
    case Done(s) => if e == Released then Free(s) else if CleanupEvent(e) then p else Bad
    case Free(s) => if CleanupEvent(e) then p else Bad
    case Bad => Bad
  }

  function Step(role: Role): (Phase, Event) -> Phase {
    (p, e) => Next(role, p, e)
  }

  function PhaseAfter(role: Role, trace: seq<Event>): Phase {
    After(Step(role), Live, trace)
  }

  function Rank(): Phase -> nat {
    (p: Phase) =>
      match p
      case Live => 0
      case Ended => 1
      case RoleDone => 2
      case Done(_) => 3
      case Free(_) => 4
      case Bad => 5
  }

  lemma PhasesClimb(role: Role)
    ensures Climbs(Step(role), Rank())
  {
  }

  // ---------------------------------------------------------------- what the grammar means

  /** The phase in which the event at `k` was met. */
  lemma MetAt(role: Role, trace: seq<Event>, k: nat) returns (p: Phase)
    requires PhaseAfter(role, trace) != Bad && k < |trace|
    ensures p == PhaseAfter(role, trace[..k]) && Next(role, p, trace[k]) != Bad
    ensures k == 0 ==> p == Live
    ensures Rank()(Next(role, p, trace[k])) == Rank()(PhaseAfter(role, trace[..k + 1]))
  {
    PhasesClimb(role);
    Met(Step(role), Live, Rank(), trace, k);
    p := PhaseAfter(role, trace[..k]);
  }

  /** Nothing is asked of the store before the process has ended, and it ends once. */
  lemma NothingBeforeTheEnd(role: Role, trace: seq<Event>, k: nat)
    requires PhaseAfter(role, trace) != Bad && k < |trace|
    ensures Ending(trace[k]) <==> k == 0
  {
    var p := MetAt(role, trace, k);
    if k > 0 {
      var first := MetAt(role, trace, 0);
      MetInOrder(Step(role), Live, Rank(), trace, 0, k);
    }
  }

  /** Once the role's handler is marked, the role has no further effect and is not marked again. */
  lemma HandledIsLast(role: Role, trace: seq<Event>, j: nat, k: nat)
    requires PhaseAfter(role, trace) != Bad && j < k < |trace| && trace[j] == Handled
    ensures !RoleCall(trace[k]) && trace[k] != Handled
  {
    var p := MetAt(role, trace, j);
    var q := MetAt(role, trace, k);
    MetInOrder(Step(role), Live, Rank(), trace, j, k);
  }

  /** The run is finished once: after that only its cleanup goes on. */
  lemma FinishedOnce(role: Role, trace: seq<Event>, j: nat, k: nat)
    requires PhaseAfter(role, trace) != Bad && j < k < |trace| && FinishCall(trace[j]) && trace[j].ok
    ensures CleanupEvent(trace[k])
  {
    var p := MetAt(role, trace, j);
    var q := MetAt(role, trace, k);
    MetInOrder(Step(role), Live, Rank(), trace, j, k);
  }

  /** Cleanup and release come only after a successful finish. */
  lemma CleanupNeedsFinish(role: Role, trace: seq<Event>, k: nat) returns (j: nat)
    requires PhaseAfter(role, trace) != Bad && k < |trace| && CleanupEvent(trace[k])
    ensures j < k && FinishCall(trace[j]) && trace[j].ok
  {
    var p := MetAt(role, trace, k);
    j := ReachedBy(Step(role), Live, Rank(), trace[..k], 3);
    PrefixOf(role, trace, j, k);
  }

  /** Except for a standard run, a run is finished only after its handler is marked. */
  lemma FinishNeedsHandler(role: Role, trace: seq<Event>, k: nat) returns (j: nat)
    requires PhaseAfter(role, trace) != Bad && k < |trace| && FinishCall(trace[k]) && !role.Standard?
    ensures j < k && trace[j] == Handled
  {
    var p := MetAt(role, trace, k);
    j := ReachedBy(Step(role), Live, Rank(), trace[..k], 2);
    PrefixOf(role, trace, j, k);
  }

  lemma PrefixOf(role: Role, trace: seq<Event>, j: nat, k: nat)
    requires PhaseAfter(role, trace) != Bad && j < k < |trace|
    ensures trace[..k][..j] == trace[..j] && Next(role, PhaseAfter(role, trace[..j]), trace[j]) != Bad
  {
    var p := MetAt(role, trace, j);
    assert trace[..k][..j] == trace[..j];
  }
}
