/**
 What holds over every run of exactly-tracked submission (`submit_accepted_intent_inner` in `src/campaign.rs`): at
 most one add for each row, by the one call that won it, and none once a row is settled or quarantined.
 */
module Submission {
  import opened Wrappers
  import opened SubmissionSteps

  // ---------------------------------------------------------------- what every run keeps

  lemma {:induction false} HistoryKeepsSafe(h: History, n: nat)
    requires IsHistory(h) && n <= |h.events| && Safe(h.worlds[0])
    ensures Safe(h.worlds[n])
  {
    if n > 0 {
      HistoryKeepsSafe(h, n - 1);
      EventKeepsSafe(h.worlds[n - 1], h.events[n - 1]);
      assert StepAt(h, n - 1);
    }
  }

  lemma RunIsSafe(h: History, n: nat)
    requires IsRun(h) && n <= |h.events|
    ensures Safe(h.worlds[n])
  {
    HistoryKeepsSafe(h, n);
  }

  /** The event is a `pueue add` for the experiment that takes effect, whether or not it reports success. */
  predicate AddsTask(w: World, event: Event, x: ExperimentId) {
    && event.Step? && event.id in w.dispatchers
    && var d := w.dispatchers[event.id];
       d.call.experiment == x && x in w.experiments && d.phase.Add? && (event.answer.ok || event.answer.tookEffect)
  }

  /** How many tasks the first `n` events add for an experiment, counted on the events themselves. */
  function AddsBefore(h: History, n: nat, x: ExperimentId): nat
    requires |h.worlds| == |h.events| + 1 && n <= |h.events|
  {
    if n == 0 then 0
    else AddsBefore(h, n - 1, x) + if AddsTask(h.worlds[n - 1], h.events[n - 1], x) then 1 else 0
  }

  function AddsOf(w: World, x: ExperimentId): nat {
    if x in w.experiments then w.experiments[x].adds else 0
  }

  lemma EventCountsAdds(w: World, event: Event, x: ExperimentId)
    ensures AddsOf(Next(w, event), x) == AddsOf(w, x) + if AddsTask(w, event, x) then 1 else 0
  {
    if event.Step? && event.id in w.dispatchers {
      var d := w.dispatchers[event.id];
      if d.call.experiment in w.experiments {
        ActCountsAdds(d, w.experiments[d.call.experiment], LockFree(w, d.call.project), event.answer);
      }
    }
  }

  lemma ActCountsAdds(d: Dispatcher, e: Experiment, lockFree: bool, a: Answer)
    ensures Act(d, e, lockFree, a).1.adds == e.adds + if d.phase.Add? && (a.ok || a.tookEffect) then 1 else 0
  {
  }

  lemma {:induction false} HistoryCountsAdds(h: History, n: nat, x: ExperimentId)
    requires IsHistory(h) && n <= |h.events|
    ensures AddsOf(h.worlds[n], x) == AddsOf(h.worlds[0], x) + AddsBefore(h, n, x)
  {
    if n > 0 {
      HistoryCountsAdds(h, n - 1, x);
      EventCountsAdds(h.worlds[n - 1], h.events[n - 1], x);
      assert StepAt(h, n - 1);
    }
  }

  /**
   Whatever any number of dispatchers, crashes, restarts and half-failed calls do, a run adds at most one task
   for an experiment: none while it is reserved or has failed before its add, and exactly one when it is
   accepted, whose id is then in the later listing once, in the row's group; a code change is accepted only after
   its candidate's boundary has held twice.
   */
  lemma AtMostOneAdd(h: History, n: nat, x: ExperimentId)
    requires IsRun(h) && n <= |h.events|
    ensures AddsBefore(h, n, x) <= 1
    ensures x in h.worlds[n].experiments ==>
              var e := h.worlds[n].experiments[x];
              && (e.status.Reserved? || e.status.FailedBeforeAdd? ==> AddsBefore(h, n, x) == 0)
              && (e.status.Accepted? || e.status.Finished? ==>
                    && AddsBefore(h, n, x) == 1
                    && e.evidence.Some? && ListedOnce(e.evidence.value)
                    && e.evidence.value.task == e.status.task && e.evidence.value.group == e.group
                    && (e.codeChange ==> e.evidence.value.boundaries == 2))
  {
    RunIsSafe(h, n);
    HistoryCountsAdds(h, n, x);
    if x in h.worlds[n].experiments {
      assert RowOk(h.worlds[n].experiments[x]);
    }
  }

  /** Only the one call that won the step from Reserved to Submitting ever adds. */
  lemma OnlyTheWinnerAdds(h: History, n: nat, x: ExperimentId, other: DispatcherId)
    requires IsRun(h) && n < |h.events| && AddsTask(h.worlds[n], h.events[n], x)
    ensures var w := h.worlds[n]; var id := h.events[n].id;
            w.dispatchers[id].won && w.dispatchers[id].locked
            && (other in w.dispatchers && other != id && w.dispatchers[other].won
                ==> w.dispatchers[other].call.experiment != x)
  {
    RunIsSafe(h, n);
    var w, id := h.worlds[n], h.events[n].id;
    assert Rowed(w, w.dispatchers[id]);
    if other in w.dispatchers && other != id {
      assert Apart(w.dispatchers[id], w.dispatchers[other]);
    }
  }

  /**
   A call that returns after winning the step leaves its row settled, unless the write that was to settle it
   failed; it never defers, and it reports a submission only with the evidence of one.
   */
  lemma WinnerSettlesItsRow(h: History, n: nat, id: DispatcherId)
    requires IsRun(h) && n <= |h.events| && id in h.worlds[n].dispatchers
    requires h.worlds[n].dispatchers[id].won && h.worlds[n].dispatchers[id].phase.Returned?
    ensures var w := h.worlds[n]; var d := w.dispatchers[id];
            && d.call.experiment in w.experiments && d.phase.verdict != Deferred
            && var e := w.experiments[d.call.experiment];
               && (InFlight(e.status) ==> d.storeFailed)
               && (d.phase.verdict == Submitted ==> e.adds == 1 && e.evidence.Some? && ListedOnce(e.evidence.value))
  {
    RunIsSafe(h, n);
    var w := h.worlds[n];
    assert Rowed(w, w.dispatchers[id]);
    assert RowOk(w.experiments[w.dispatchers[id].call.experiment]);
  }

  /** After the winning step the exit for a missing policy cannot be taken, nor the one that forgets the win. */
  lemma MissingPolicyExitIsDead(h: History, n: nat, id: DispatcherId, a: Answer)
    requires IsRun(h) && n <= |h.events|
    requires id in h.worlds[n].dispatchers && h.worlds[n].dispatchers[id].phase.Reverify?
    ensures var d := h.worlds[n].dispatchers[id];
            Recheck(d, a) == Goto(d, if !d.locals.verified || a.ok then Add else FailUnreverified)
  {
    RunIsSafe(h, n);
    assert Rowed(h.worlds[n], h.worlds[n].dispatchers[id]);
  }

  // ---------------------------------------------------------------- quarantine

  predicate ArmedFor(w: World, id: DispatcherId, x: ExperimentId) {
    id in w.dispatchers && w.dispatchers[id].call.experiment == x && Armed(w.dispatchers[id].phase)
  }

  /** The row has left Reserved and no call that won it can still reach its add. */
  ghost predicate Frozen(w: World, x: ExperimentId) {
    x in w.experiments && !w.experiments[x].status.Reserved? && forall id :: !ArmedFor(w, id, x)
  }

  /** Nothing returns to Reserved. */
  lemma ActLeavesReserved(d: Dispatcher, e: Experiment, lockFree: bool, a: Answer)
    requires !e.status.Reserved?
    ensures !Act(d, e, lockFree, a).1.status.Reserved?
  {
  }

  /** Only the winning step arms a call, and it needs a reserved row. */
  lemma ActArms(d: Dispatcher, e: Experiment, lockFree: bool, a: Answer)
    requires !e.status.Reserved? && !Armed(d.phase)
    ensures !Armed(Act(d, e, lockFree, a).0.phase)
  {
    match StageOf(d.phase)
    case Authorizing => AuthorizingArmsNone(d, a);
    case Deciding => DecidingArmsNone(d, e, a);
    case _ =>
  }

  lemma AuthorizingArmsNone(d: Dispatcher, a: Answer)
    ensures !Armed(DispatchAuthority(d, a).phase)
  {
  }

  lemma DecidingArmsNone(d: Dispatcher, e: Experiment, a: Answer)
    ensures !Armed(Decide(d, e.codeChange, a).phase)
  {
  }

  lemma StepKeepsFrozen(w: World, id: DispatcherId, a: Answer, x: ExperimentId)
    requires Safe(w) && Frozen(w, x)
    ensures Frozen(Next(w, Step(id, a)), x)
  {
    if id in w.dispatchers {
      var d := w.dispatchers[id];
      assert Rowed(w, d) && !ArmedFor(w, id, x);
      var e := w.experiments[d.call.experiment];
      var lockFree := LockFree(w, d.call.project);
      assert RowOk(e);
      ActKeeps(d, e, lockFree, a);
      if d.call.experiment == x {
        ActLeavesReserved(d, e, lockFree, a);
        ActArms(d, e, lockFree, a);
      }
      forall i
        ensures !ArmedFor(Next(w, Step(id, a)), i, x)
      {
        assert !ArmedFor(w, i, x);
      }
    }
  }

  lemma EventKeepsFrozen(w: World, event: Event, x: ExperimentId)
    requires Safe(w) && Frozen(w, x)
    ensures Frozen(Next(w, event), x) && !AddsTask(w, event, x)
  {
    if event.Step? {
      StepKeepsFrozen(w, event.id, event.answer, x);
      assert !ArmedFor(w, event.id, x);
    } else {
      forall i
        ensures !ArmedFor(Next(w, event), i, x)
      {
        assert !ArmedFor(w, i, x);
      }
    }
  }

  lemma {:induction false} FrozenNeverAdds(h: History, n: nat, x: ExperimentId)
    requires IsHistory(h) && n <= |h.events| && Safe(h.worlds[0]) && Frozen(h.worlds[0], x)
    ensures Frozen(h.worlds[n], x) && AddsBefore(h, n, x) == 0
  {
    if n > 0 {
      FrozenNeverAdds(h, n - 1, x);
      HistoryKeepsSafe(h, n - 1);
      EventKeepsFrozen(h.worlds[n - 1], h.events[n - 1], x);
      assert StepAt(h, n - 1);
    }
  }

  lemma SettledIsFrozen(w: World, x: ExperimentId)
    requires Safe(w) && x in w.experiments
    requires !w.experiments[x].status.Reserved? && !Addable(w.experiments[x].status)
    ensures Frozen(w, x)
  {
    forall id
      ensures !ArmedFor(w, id, x)
    {
      if id in w.dispatchers {
        assert Rowed(w, w.dispatchers[id]);
      }
    }
  }

  /** A row whose add is unknown, or whose task was not identified, or that is settled, is never added again. */
  lemma QuarantineIsFinal(h: History, n: nat, x: ExperimentId)
    requires IsHistory(h) && n <= |h.events| && Safe(h.worlds[0]) && x in h.worlds[0].experiments
    requires !h.worlds[0].experiments[x].status.Reserved? && !Addable(h.worlds[0].experiments[x].status)
    ensures AddsBefore(h, n, x) == 0
  {
    SettledIsFrozen(h.worlds[0], x);
    FrozenNeverAdds(h, n, x);
  }
}
