/**
 What the agent's code asks of the outside: its calls, the traces that record them, plans of calls that stop at
 the first failure, and traces read by a grammar whose phases only climb.
 */
module Effects {

  datatype Status = Completed | Failed | TimedOut

  /** A call to the store or to the private directory of a run. */
  datatype Call =
    // the persistence of a role
    | StoreDecision | FailDecision
    | ReadHealth | StoreDiagnosis(valid: bool) | SetHealth(actionPending: bool)
    | ConfirmSession | FinishResearch | FailResearch(clearSession: bool)
    | BindSession | FinishEditor(ready: bool) | RejectEditor
    | FinishRun(status: Status)
    // the finalization of a launch that failed
    | FailEditorLaunch | RecordAuthority | FailResearchLaunch(clearSession: bool) | FailDecisionLaunch
    | FailBeforeGate(retry: bool) | FinishAfterMarkerPolicy | FinishAfterMarker
    | RecordMarkerEvidence | FinishPendingMarker
    // the cleanup of the private directory
    | Revalidate | CleanTemp | MarkCleaned

  /**
   A trace records every call with its success, how the process ended, when the persistence of a role was
   marked as done, and when the launch authority was released.
   */
  datatype Event = Asked(call: Call, ok: bool) | Exited(success: bool) | Terminated | Handled | Released

  predicate CleanupEvent(e: Event) {
    e == Released || (e.Asked? && (e.call.Revalidate? || e.call.CleanTemp? || e.call.MarkCleaned?))
  }

  // ---------------------------------------------------------------- plans

  /** What is asked of a plan: its calls in order, up to the first that fails. */
  function Performed(plan: seq<Event>): seq<Event> {
    if plan == [] then []
    else if plan[0].Asked? && !plan[0].ok then [plan[0]]
    else [plan[0]] + Performed(plan[1..])
  }

  predicate Succeeds(plan: seq<Event>) {
    forall e :: e in plan && e.Asked? ==> e.ok
  }

  lemma SucceedsSplits(a: seq<Event>, b: seq<Event>)
    ensures Succeeds(a + b) <==> Succeeds(a) && Succeeds(b)
  {
    assert forall e :: e in a || e in b ==> e in a + b;
  }

  lemma {:induction false} PerformedJoins(a: seq<Event>, b: seq<Event>)
    ensures Performed(a + b) == if Succeeds(a) then a + Performed(b) else Performed(a)
  {
    if a == [] {
      assert a + b == b;
    } else {
      var rest := a[1..];
      assert a + b == [a[0]] + (rest + b) && (a + b)[1..] == rest + b && a == [a[0]] + rest;
      SucceedsSplits([a[0]], rest);
      PerformedJoins(rest, b);
    }
  }

  lemma PerformedOne(e: Event)
    ensures Performed([e]) == [e] && (Succeeds([e]) <==> !e.Asked? || e.ok)
  {
    assert [e][1..] == [];
  }

  /** A call that a role or a cleanup may have to make, and what it answers. */
  datatype Ask = Ask(due: bool, call: Call, ok: bool)

  function Due(ask: Ask): seq<Event> {
    if ask.due then [Asked(ask.call, ask.ok)] else []
  }

  predicate Passes(ask: Ask) {
    ask.due ==> ask.ok
  }

  function PlanOf(first: Ask, second: Ask, third: Ask): seq<Event> {
    Due(first) + Due(second) + Due(third)
  }

  lemma PlanStops(first: Ask, second: Ask, third: Ask)
    ensures Succeeds(PlanOf(first, second, third)) <==> Passes(first) && Passes(second) && Passes(third)
    ensures Performed(PlanOf(first, second, third))
            == if !Passes(first) then Due(first)
               else if !Passes(second) then Due(first) + Due(second)
               else PlanOf(first, second, third)
  {
    DueStops(first);
    DueStops(second);
    DueStops(third);
    SucceedsSplits(Due(first), Due(second));
    SucceedsSplits(Due(first) + Due(second), Due(third));
    PerformedJoins(Due(first), Due(second));
    PerformedJoins(Due(first) + Due(second), Due(third));
  }

  /** What is asked of a plan, event by event. */
  lemma InPlan(first: Ask, second: Ask, third: Ask, e: Event)
    ensures e in Performed(PlanOf(first, second, third))
            <==> || e in Due(first)
                 || (Passes(first) && e in Due(second))
                 || (Passes(first) && Passes(second) && e in Due(third))
  {
    PlanStops(first, second, third);
  }

  lemma DueStops(ask: Ask)
    ensures Performed(Due(ask)) == Due(ask) && (Succeeds(Due(ask)) <==> Passes(ask))
  {
    if ask.due {
      PerformedOne(Asked(ask.call, ask.ok));
    }
  }

  lemma Appended(t: seq<Event>, a: seq<Event>, b: seq<Event>, c: seq<Event>)
    ensures (t + a) + b == t + (a + b) && ((t + a) + b) + c == t + (a + b + c)
  {
  }

  // ---------------------------------------------------------------- grammars

  /** The phase in which a trace leaves a grammar. */
  function After<P>(step: (P, Event) -> P, start: P, trace: seq<Event>): P {
    if trace == [] then start else step(After(step, start, trace[..|trace| - 1]), trace[|trace| - 1])
  }

  lemma AfterSnoc<P>(step: (P, Event) -> P, start: P, trace: seq<Event>, e: Event)
    ensures After(step, start, trace + [e]) == step(After(step, start, trace), e)
  {
    assert (trace + [e])[..|trace + [e]| - 1] == trace;
  }

  /** No event takes a grammar back. */
  ghost predicate Climbs<P(!new)>(step: (P, Event) -> P, rank: P -> nat) {
    forall p, e :: rank(p) <= rank(step(p, e))
  }

  lemma {:induction false} PrefixIsLower<P(!new)>(step: (P, Event) -> P, start: P, rank: P -> nat, trace: seq<Event>,
                                                  k: nat)
    requires Climbs(step, rank) && k <= |trace|
    ensures rank(After(step, start, trace[..k])) <= rank(After(step, start, trace))
    decreases |trace|
  {
    if k == |trace| {
      assert trace[..k] == trace;
    } else {
      var front := trace[..|trace| - 1];
      assert front[..k] == trace[..k];
      PrefixIsLower(step, start, rank, front, k);
    }
  }

  /** The phases before and after the event at `k`. */
  lemma Met<P(!new)>(step: (P, Event) -> P, start: P, rank: P -> nat, trace: seq<Event>, k: nat)
    requires Climbs(step, rank) && k < |trace|
    ensures After(step, start, trace[..k + 1]) == step(After(step, start, trace[..k]), trace[k])
    ensures rank(After(step, start, trace[..k])) <= rank(After(step, start, trace[..k + 1]))
    ensures rank(After(step, start, trace[..k + 1])) <= rank(After(step, start, trace))
  {
    PrefixIsLower(step, start, rank, trace, k + 1);
    assert trace[..k + 1] == trace[..k] + [trace[k]];
    AfterSnoc(step, start, trace[..k], trace[k]);
  }

  lemma MetInOrder<P(!new)>(step: (P, Event) -> P, start: P, rank: P -> nat, trace: seq<Event>, j: nat, k: nat)
    requires Climbs(step, rank) && j < k < |trace|
    ensures rank(After(step, start, trace[..j + 1])) <= rank(After(step, start, trace[..k]))
  {
    PrefixIsLower(step, start, rank, trace[..k], j + 1);
    assert trace[..k][..j + 1] == trace[..j + 1];
  }

  /** A trace that has climbed to a rank has an event that took it there. */
  lemma {:induction false} ReachedBy<P(!new)>(step: (P, Event) -> P, start: P, rank: P -> nat, trace: seq<Event>,
                                              bound: nat) returns (j: nat)
    requires Climbs(step, rank) && rank(start) < bound <= rank(After(step, start, trace))
    ensures j < |trace|
    ensures rank(After(step, start, trace[..j])) < bound <= rank(step(After(step, start, trace[..j]), trace[j]))
  {
    var front := trace[..|trace| - 1];
    if rank(After(step, start, front)) < bound {
      j := |trace| - 1;
    } else {
      j := ReachedBy(step, start, rank, front, bound);
      assert front[..j] == trace[..j];
    }
  }
}
