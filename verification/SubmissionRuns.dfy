/**
 Which runs of exactly-tracked submission exist: when a continuation of a world still adds a task for an experiment.
 */
module SubmissionRuns {
  import opened Wrappers
  import opened Submission
  import opened SubmissionSteps

  const YES := Answer(true, true, true, NotCheckpoint, 0, [], "")

  lemma VerifiedAct(d: Dispatcher, e: Experiment, lockFree: bool)
    requires Guarded(d) && d.phase.Reverify?
    ensures Act(d, e, lockFree, YES) == (Goto(d, Add), e)
  {
  }

  lemma VerifiedGoesToAdd(w: World, id: DispatcherId, x: ExperimentId)
    requires ArmedFor(w, id, x) && w.dispatchers[id].phase.Reverify? && Rowed(w, w.dispatchers[id])
    ensures var after := Next(w, Step(id, YES));
            ArmedFor(after, id, x) && after.dispatchers[id].phase.Add? && after.experiments == w.experiments
  {
    VerifiedAct(w.dispatchers[id], w.experiments[x], LockFree(w, w.dispatchers[id].call.project));
  }

  lemma AddAdds(w: World, id: DispatcherId, x: ExperimentId)
    requires ArmedFor(w, id, x) && w.dispatchers[id].phase.Add? && x in w.experiments
    ensures AddsTask(w, Step(id, YES), x)
    ensures var after := Next(w, Step(id, YES));
            x in after.experiments && after.experiments[x].status == w.experiments[x].status
  {
  }

  function Begun(w: World): History {
    History([w], [])
  }

  function Last(h: History): World
    requires h.worlds != []
  {
    h.worlds[|h.worlds| - 1]
  }

  function Extended(h: History, event: Event): History
    requires h.worlds != []
  {
    History(h.worlds + [Next(Last(h), event)], h.events + [event])
  }

  lemma {:induction false} AddsOfPrefix(h: History, event: Event, n: nat, x: ExperimentId)
    requires |h.worlds| == |h.events| + 1 && n <= |h.events|
    ensures AddsBefore(Extended(h, event), n, x) == AddsBefore(h, n, x)
  {
    if n > 0 {
      AddsOfPrefix(h, event, n - 1, x);
    }
  }

  lemma ExtendedIsHistory(h: History, event: Event, x: ExperimentId)
    requires IsHistory(h)
    ensures IsHistory(Extended(h, event)) && Last(Extended(h, event)) == Next(Last(h), event)
    ensures Extended(h, event).worlds[0] == h.worlds[0]
    ensures AllAdds(Extended(h, event), x) == AllAdds(h, x) + if AddsTask(Last(h), event, x) then 1 else 0
  {
    forall i: nat
      ensures StepAt(Extended(h, event), i)
    {
      assert StepAt(h, i);
    }
    AddsOfPrefix(h, event, |h.events|, x);
  }

  function AllAdds(h: History, x: ExperimentId): nat
    requires |h.worlds| == |h.events| + 1
  {
    AddsBefore(h, |h.events|, x)
  }

  /** A continuation of the world that adds one task for the experiment. */
  ghost predicate AddsOnce(w: World, h: History, x: ExperimentId) {
    IsHistory(h) && h.worlds[0] == w && AllAdds(h, x) == 1
  }

  /** An armed call adds with its next one or two steps when they succeed. */
  lemma ArmedCanAdd(w: World, id: DispatcherId, x: ExperimentId) returns (h: History)
    requires ArmedFor(w, id, x) && Rowed(w, w.dispatchers[id])
    ensures AddsOnce(w, h, x) && x in w.experiments && x in Last(h).experiments
    ensures Last(h).experiments[x].status == w.experiments[x].status
  {
    var step := Step(id, YES);
    h := Begun(w);
    if w.dispatchers[id].phase.Reverify? {
      VerifiedGoesToAdd(w, id, x);
      ExtendedIsHistory(h, step, x);
      h := Extended(h, step);
    }
    AddAdds(Last(h), id, x);
    ExtendedIsHistory(h, step, x);
    h := Extended(h, step);
  }

  /**
   The start of a daemon takes no lock, so it may quarantine a row as interrupted while the winner is still
   armed; the one add then comes after the quarantine, and the row stays quarantined.
   */
  lemma RecoveryMayPrecedeTheAdd(w: World, id: DispatcherId, x: ExperimentId) returns (h: History)
    requires Safe(w) && ArmedFor(w, id, x)
    ensures var recovered := Next(w, RecoverBoundaries);
            && x in recovered.experiments && recovered.experiments[x].status == Unreconciled(AddInterrupted)
            && AddsOf(recovered, x) == 0 && AddsOnce(recovered, h, x)
            && x in Last(h).experiments && Last(h).experiments[x].status == Unreconciled(AddInterrupted)
  {
    assert Rowed(w, w.dispatchers[id]);
    EventKeepsSafe(w, RecoverBoundaries);
    assert Rowed(Next(w, RecoverBoundaries), w.dispatchers[id]);
    h := ArmedCanAdd(Next(w, RecoverBoundaries), id, x);
  }

  // ---------------------------------------------------------------- calls whose every step succeeds

  const NO_LOCALS := Locals(Reserved, None, false, false, "", 0, [], 0)

  /** A call that has been started with its project's lock and has had no failure so far. */
  function Runner(call: Call, phase: Phase, locals: Locals, won: bool): Dispatcher {
    Dispatcher(call, phase, !Ended(phase), locals, won, false)
  }

  /** The history leads from the world to this call and row, and adds this many tasks for it. */
  ghost predicate LeadsTo(w: World, h: History, id: DispatcherId, d: Dispatcher, e: Experiment, adds: nat) {
    var x := d.call.experiment;
    && IsHistory(h) && h.worlds[0] == w && AllAdds(h, x) == adds
    && id in Last(h).dispatchers && Last(h).dispatchers[id] == d
    && x in Last(h).experiments && Last(h).experiments[x] == e
  }

  lemma RunnerSteps(w: World, h: History, id: DispatcherId, d: Dispatcher, e: Experiment, adds: nat, a: Answer,
                    d': Dispatcher, e': Experiment) returns (longer: History)
    requires LeadsTo(w, h, id, d, e, adds) && d'.call == d.call
    requires Act(d, e, true, a) == (d', e') && Act(d, e, false, a) == (d', e')
    ensures LeadsTo(w, longer, id, d', e', adds + if d.phase.Add? && (a.ok || a.tookEffect) then 1 else 0)
  {
    ExtendedIsHistory(h, Step(id, a), d.call.experiment);
    longer := Extended(h, Step(id, a));
  }

  /** The call that a plain dispatch of the row makes. */
  function PlainCall(x: ExperimentId, e: Experiment): Call {
    Call(x, e.project, e.codeChange, false, false)
  }

  /** What the call has read at its start. */
  function Having(status: Status): Locals {
    NO_LOCALS.(current := status)
  }

  lemma RunnerOpens(w: World, h: History, id: DispatcherId, call: Call, e: Experiment)
    returns (longer: History)
    requires LeadsTo(w, h, id, Runner(call, ReadCurrent, NO_LOCALS, false), e, 0) && !call.checkpointRequired
    ensures LeadsTo(w, longer, id, Runner(call, MatchStatus, Having(e.status), false), e, 0)
  {
    var locals := Having(e.status);
    var d0, d1 := Runner(call, ReadCurrent, NO_LOCALS, false), Runner(call, Validate, locals, false);
    var d2, d3 := Runner(call, ReadAuthority, locals, false), Runner(call, MatchStatus, locals, false);
    longer := RunnerSteps(w, h, id, d0, e, 0, YES, d1, e);
    longer := RunnerSteps(w, longer, id, d1, e, 0, YES, d2, e);
    longer := RunnerSteps(w, longer, id, d2, e, 0, YES, d3, e);
  }

  lemma WinSucceeds(call: Call, e: Experiment, lockFree: bool)
    requires e.status.Reserved?
    ensures Act(Runner(call, BeginSubmitting, Having(Reserved), false), e, lockFree, YES)
            == (Runner(call, Reverify, Having(Reserved), true), e.(status := Submitting))
  {
  }

  lemma RunnerWins(w: World, h: History, id: DispatcherId, call: Call, e: Experiment)
    returns (longer: History)
    requires LeadsTo(w, h, id, Runner(call, MatchStatus, Having(Reserved), false), e, 0) && e.status.Reserved?
    requires call.candidate == e.codeChange
    ensures LeadsTo(w, longer, id, Runner(call, Reverify, Having(Reserved), true), e.(status := Submitting), 0)
  {
    var d0, d1 := Runner(call, MatchStatus, Having(Reserved), false), Runner(call, Prepare, Having(Reserved), false);
    var d2 := Runner(call, BeginSubmitting, Having(Reserved), false);
    var d3 := Runner(call, Reverify, Having(Reserved), true);
    WinSucceeds(call, e, true);
    WinSucceeds(call, e, false);
    longer := RunnerSteps(w, h, id, d0, e, 0, YES, d1, e);
    longer := RunnerSteps(w, longer, id, d1, e, 0, YES, d2, e);
    longer := RunnerSteps(w, longer, id, d2, e, 0, YES, d3, e.(status := Submitting));
  }

  lemma RunnerAdds(w: World, h: History, id: DispatcherId, call: Call, e: Experiment)
    returns (longer: History)
    requires LeadsTo(w, h, id, Runner(call, Reverify, Having(Reserved), true), e, 0)
    ensures LeadsTo(w, longer, id, Runner(call, FirstBoundary, Having(Reserved), true), e.(adds := e.adds + 1), 1)
  {
    var d0, d1 := Runner(call, Reverify, Having(Reserved), true), Runner(call, Add, Having(Reserved), true);
    var d2 := Runner(call, FirstBoundary, Having(Reserved), true);
    longer := RunnerSteps(w, h, id, d0, e, 0, YES, d1, e);
    longer := RunnerSteps(w, longer, id, d1, e, 0, YES, d2, e.(adds := e.adds + 1));
  }

  /** The list that has the added task alone. */
  function Listing(e: Experiment): seq<Task> {
    [Task(0, e.group, "", true)]
  }

  function Checked(call: Call, e: Experiment, boundaries: nat): Locals {
    Having(Reserved).(listing := Listing(e), boundaries := if call.candidate then boundaries else 0)
  }

  lemma ListingMatches(call: Call, e: Experiment, boundaries: nat)
    ensures TaskMatches(Checked(call, e, boundaries), e.group)
  {
    assert Listing(e)[1..] == [];
    assert IdMatches(Listing(e), 0) == [Listing(e)[0]];
  }

  lemma RunnerLists(w: World, h: History, id: DispatcherId, call: Call, e: Experiment)
    returns (longer: History)
    requires LeadsTo(w, h, id, Runner(call, FirstBoundary, Having(Reserved), true), e, 1)
    ensures LeadsTo(w, longer, id, Runner(call, MatchTask, Checked(call, e, 1), true), e, 1)
  {
    var held := Having(Reserved).(boundaries := if call.candidate then 1 else 0);
    var d0, d1 := Runner(call, FirstBoundary, Having(Reserved), true), Runner(call, ReadTasks, held, true);
    var d2 := Runner(call, MatchTask, Checked(call, e, 1), true);
    longer := RunnerSteps(w, h, id, d0, e, 1, YES, d1, e);
    longer := RunnerSteps(w, longer, id, d1, e, 1, YES.(tasks := Listing(e)), d2, e);
  }

  lemma MatchSucceeds(call: Call, e: Experiment, lockFree: bool)
    ensures Act(Runner(call, MatchTask, Checked(call, e, 1), true), e, lockFree, YES)
            == (Runner(call, SecondBoundary, Checked(call, e, 1), true), e)
  {
    ListingMatches(call, e, 1);
  }

  lemma BoundarySucceeds(call: Call, e: Experiment, lockFree: bool)
    ensures Act(Runner(call, SecondBoundary, Checked(call, e, 1), true), e, lockFree, YES)
            == (Runner(call, Accept, Checked(call, e, 2), true), e)
  {
  }

  lemma RunnerChecks(w: World, h: History, id: DispatcherId, call: Call, e: Experiment)
    returns (longer: History)
    requires LeadsTo(w, h, id, Runner(call, MatchTask, Checked(call, e, 1), true), e, 1)
    ensures LeadsTo(w, longer, id, Runner(call, Accept, Checked(call, e, 2), true), e, 1)
  {
    var d0 := Runner(call, MatchTask, Checked(call, e, 1), true);
    var d1 := Runner(call, SecondBoundary, Checked(call, e, 1), true);
    var d2 := Runner(call, Accept, Checked(call, e, 2), true);
    forall lockFree
      ensures Act(d0, e, lockFree, YES) == (d1, e) && Act(d1, e, lockFree, YES) == (d2, e)
    {
      MatchSucceeds(call, e, lockFree);
      BoundarySucceeds(call, e, lockFree);
    }
    longer := RunnerSteps(w, h, id, d0, e, 1, YES, d1, e);
    longer := RunnerSteps(w, longer, id, d1, e, 1, YES, d2, e);
  }

  lemma AcceptSucceeds(call: Call, e: Experiment, lockFree: bool)
    requires e.status.Submitting?
    ensures var locals := Checked(call, e, 2);
            Act(Runner(call, Accept, locals, true), e, lockFree, YES)
            == (Runner(call, ReadBack, locals, true),
                e.(status := Accepted(0), evidence := Some(AcceptEvidence(locals, e.group))))
  {
  }

  lemma ReadBackSucceeds(call: Call, e: Experiment, locals: Locals, won: bool, lockFree: bool)
    ensures Act(Runner(call, ReadBack, locals, won), e, lockFree, YES)
            == (Runner(call, Returned(Submitted), locals, won), e)
  {
  }

  lemma RunnerAccepts(w: World, h: History, id: DispatcherId, call: Call, e: Experiment)
    returns (longer: History)
    requires LeadsTo(w, h, id, Runner(call, Accept, Checked(call, e, 2), true), e, 1) && e.status.Submitting?
    ensures var evidence := AcceptEvidence(Checked(call, e, 2), e.group);
            LeadsTo(w, longer, id, Runner(call, Returned(Submitted), Checked(call, e, 2), true),
                    e.(status := Accepted(0), evidence := Some(evidence)), 1)
  {
    var locals := Checked(call, e, 2);
    var accepted := e.(status := Accepted(0), evidence := Some(AcceptEvidence(locals, e.group)));
    var d0, d1 := Runner(call, Accept, locals, true), Runner(call, ReadBack, locals, true);
    longer := RunnerSteps(w, h, id, d0, e, 1, YES, d1, accepted);
    var d2 := Runner(call, Returned(Submitted), locals, true);
    forall lockFree
      ensures Act(d0, e, lockFree, YES) == (d1, accepted) && Act(d1, accepted, lockFree, YES) == (d2, accepted)
    {
      AcceptSucceeds(call, e, lockFree);
      ReadBackSucceeds(call, accepted, locals, true, lockFree);
    }
    longer := RunnerSteps(w, longer, id, d1, accepted, 1, YES, d2, accepted);
  }

  lemma FreshFrom(ids: set<DispatcherId>, n: nat) returns (id: DispatcherId)
    ensures id >= n && id !in ids
    decreases |ids|
  {
    if n !in ids {
      id := n;
    } else {
      id := FreshFrom(ids - {n}, n + 1);
    }
  }

  lemma CrashFreesTheLock(w: World, holder: DispatcherId, project: ProjectId)
    requires Safe(w) && holder in w.dispatchers && w.dispatchers[holder].locked
    requires w.dispatchers[holder].call.project == project
    ensures LockFree(Next(w, Crash(holder)), project)
  {
    forall id | id in w.dispatchers && id != holder && w.dispatchers[id].locked
      ensures w.dispatchers[id].call.project != project
    {
      assert Apart(w.dispatchers[id], w.dispatchers[holder]);
    }
  }

  /** The holder of a project's lock may crash, which changes no row. */
  lemma LockCanBeFreed(w: World, project: ProjectId, x: ExperimentId) returns (h: History)
    requires Safe(w)
    ensures IsHistory(h) && h.worlds[0] == w && AllAdds(h, x) == 0
    ensures LockFree(Last(h), project) && Last(h).experiments == w.experiments
  {
    h := Begun(w);
    if holder :| holder in w.dispatchers && w.dispatchers[holder].locked
                 && w.dispatchers[holder].call.project == project {
      CrashFreesTheLock(w, holder, project);
      ExtendedIsHistory(h, Crash(holder), x);
      h := Extended(h, Crash(holder));
    }
  }

  lemma RunnerStarts(w: World, x: ExperimentId, candidate: bool, policy: bool) returns (h: History, id: DispatcherId)
    requires Safe(w) && x in w.experiments
    ensures var e := w.experiments[x];
            LeadsTo(w, h, id, Runner(Call(x, e.project, candidate, false, policy), ReadCurrent, NO_LOCALS, false), e, 0)
  {
    var e := w.experiments[x];
    h := LockCanBeFreed(w, e.project, x);
    id := FreshFrom(Last(h).dispatchers.Keys, 0);
    var start := Event.Start(id, x, candidate, false, policy, true);
    ExtendedIsHistory(h, start, x);
    h := Extended(h, start);
  }

  /** A call on the route of its row comes to the choice by the row's status. */
  lemma RunnerMatches(w: World, x: ExperimentId) returns (h: History, id: DispatcherId)
    requires Safe(w) && x in w.experiments
    ensures var e := w.experiments[x];
            LeadsTo(w, h, id, Runner(PlainCall(x, e), MatchStatus, Having(e.status), false), e, 0)
  {
    h, id := RunnerStarts(w, x, w.experiments[x].codeChange, false);
    h := RunnerOpens(w, h, id, PlainCall(x, w.experiments[x]), w.experiments[x]);
  }

  /** From any safe world a reserved row can be won. */
  lemma ReservedCanBeWon(w: World, x: ExperimentId) returns (h: History, id: DispatcherId)
    requires Safe(w) && x in w.experiments && w.experiments[x].status.Reserved?
    ensures var e := w.experiments[x];
            LeadsTo(w, h, id, Runner(PlainCall(x, e), Reverify, Having(Reserved), true), e.(status := Submitting), 0)
  {
    h, id := RunnerMatches(w, x);
    h := RunnerWins(w, h, id, PlainCall(x, w.experiments[x]), w.experiments[x]);
  }

  lemma ReservedCanBeAdded(w: World, x: ExperimentId) returns (h: History, id: DispatcherId)
    requires Safe(w) && x in w.experiments && w.experiments[x].status.Reserved?
    ensures var e := w.experiments[x];
            LeadsTo(w, h, id, Runner(PlainCall(x, e), FirstBoundary, Having(Reserved), true),
                    e.(status := Submitting, adds := e.adds + 1), 1)
  {
    var e := w.experiments[x];
    h, id := ReservedCanBeWon(w, x);
    h := RunnerAdds(w, h, id, PlainCall(x, e), e.(status := Submitting));
  }

  /** The row is accepted with one task, and the call has returned with the submission. */
  ghost predicate EndsAccepted(w: World, h: History, id: DispatcherId, x: ExperimentId) {
    && IsHistory(h) && h.worlds[0] == w && AllAdds(h, x) == 1
    && id in Last(h).dispatchers && Last(h).dispatchers[id].call.experiment == x
    && Last(h).dispatchers[id].phase == Returned(Submitted) && Last(h).dispatchers[id].won
    && x in Last(h).experiments && Last(h).experiments[x].status.Accepted? && Last(h).experiments[x].evidence.Some?
  }

  /** From any safe world a reserved row can be accepted, by a call that returns with the submission. */
  lemma ReservedCanBeAccepted(w: World, x: ExperimentId) returns (h: History, id: DispatcherId)
    requires Safe(w) && x in w.experiments && w.experiments[x].status.Reserved?
    ensures EndsAccepted(w, h, id, x)
  {
    var e := w.experiments[x];
    var added := e.(status := Submitting, adds := e.adds + 1);
    h, id := ReservedCanBeAdded(w, x);
    h := RunnerLists(w, h, id, PlainCall(x, e), added);
    h := RunnerChecks(w, h, id, PlainCall(x, e), added);
    h := RunnerAccepts(w, h, id, PlainCall(x, e), added);
  }

  /** A call that finds a row submitting, whose winner is gone, quarantines it as interrupted. */
  lemma SubmittingIsQuarantined(w: World, x: ExperimentId) returns (h: History, id: DispatcherId)
    requires Safe(w) && x in w.experiments && w.experiments[x].status.Submitting?
    ensures var e := w.experiments[x];
            LeadsTo(w, h, id, Runner(PlainCall(x, e), Returned(Error), Having(Submitting), false),
                    e.(status := Unreconciled(AddInterrupted)), 0)
  {
    var e := w.experiments[x];
    var call := PlainCall(x, e);
    h, id := RunnerMatches(w, x);
    var d0 := Runner(call, MatchStatus, Having(Submitting), false);
    var d1 := Runner(call, MarkInterrupted, Having(Submitting), false);
    var d2 := Runner(call, Returned(Error), Having(Submitting), false);
    h := RunnerSteps(w, h, id, d0, e, 0, YES, d1, e);
    h := RunnerSteps(w, h, id, d1, e, 0, YES, d2, e.(status := Unreconciled(AddInterrupted)));
  }

  /** A call that finds a quarantined row fails and leaves it. */
  lemma QuarantinedIsRefused(w: World, x: ExperimentId) returns (h: History, id: DispatcherId)
    requires Safe(w) && x in w.experiments && w.experiments[x].status.Unreconciled?
    ensures var e := w.experiments[x];
            LeadsTo(w, h, id, Runner(PlainCall(x, e), Returned(Error), Having(e.status), false), e, 0)
  {
    var e := w.experiments[x];
    h, id := RunnerMatches(w, x);
    var d0 := Runner(PlainCall(x, e), MatchStatus, Having(e.status), false);
    h := RunnerSteps(w, h, id, d0, e, 0, YES, Runner(PlainCall(x, e), Returned(Error), Having(e.status), false), e);
  }

  lemma SettledGoesToReadBack(call: Call, e: Experiment, lockFree: bool)
    requires e.status.Accepted? || e.status.FailedBeforeAdd? || e.status.Finished?
    requires call.candidate == e.codeChange
    ensures Act(Runner(call, MatchStatus, Having(e.status), false), e, lockFree, YES)
            == (Runner(call, ReadBack, Having(e.status), false), e)
    ensures Act(Runner(call, ReadBack, Having(e.status), false), e, lockFree, YES)
            == (Runner(call, Returned(Submitted), Having(e.status), false), e)
  {
  }

  /** A call that finds a row settled reports it once more and leaves it. */
  lemma SettledIsReadBack(w: World, x: ExperimentId) returns (h: History, id: DispatcherId)
    requires Safe(w) && x in w.experiments
    requires var s := w.experiments[x].status; s.Accepted? || s.FailedBeforeAdd? || s.Finished?
    ensures var e := w.experiments[x];
            LeadsTo(w, h, id, Runner(PlainCall(x, e), Returned(Submitted), Having(e.status), false), e, 0)
  {
    var e := w.experiments[x];
    var call := PlainCall(x, e);
    h, id := RunnerMatches(w, x);
    SettledGoesToReadBack(call, e, true);
    SettledGoesToReadBack(call, e, false);
    h := RunnerSteps(w, h, id, Runner(call, MatchStatus, Having(e.status), false), e, 0, YES,
                     Runner(call, ReadBack, Having(e.status), false), e);
    h := RunnerSteps(w, h, id, Runner(call, ReadBack, Having(e.status), false), e, 0, YES,
                     Runner(call, Returned(Submitted), Having(e.status), false), e);
  }

  // ---------------------------------------------------------------- calls under a checkpoint

  /** The call that a ready checkpoint makes, with its execution policy. */
  function CheckpointCall(x: ExperimentId, e: Experiment): Call {
    Call(x, e.project, false, false, true)
  }

  const READY := YES.(claim := Ready)

  function Authorized(status: Status, verified: bool, won: bool): Locals {
    Having(status).(authority := Some(status), verified := verified, checkpointWon := won)
  }

  lemma CheckpointAuthorizes(w: World, x: ExperimentId) returns (h: History, id: DispatcherId)
    requires Safe(w) && x in w.experiments
    ensures var e := w.experiments[x];
            LeadsTo(w, h, id, Runner(CheckpointCall(x, e), CheckAuthority, Authorized(e.status, false, false), false),
                    e, 0)
  {
    var e := w.experiments[x];
    var call := CheckpointCall(x, e);
    h, id := RunnerStarts(w, x, false, true);
    var d0 := Runner(call, ReadCurrent, NO_LOCALS, false);
    var d1, d2 := Runner(call, Validate, Having(e.status), false), Runner(call, ReadAuthority, Having(e.status), false);
    var d3 := Runner(call, CheckAuthority, Authorized(e.status, false, false), false);
    h := RunnerSteps(w, h, id, d0, e, 0, YES, d1, e);
    h := RunnerSteps(w, h, id, d1, e, 0, YES, d2, e);
    h := RunnerSteps(w, h, id, d2, e, 0, READY, d3, e);
  }

  /** A checkpoint whose files do not verify is failed before its add. */
  lemma UnverifiedIsFailed(w: World, x: ExperimentId) returns (h: History, id: DispatcherId)
    requires Safe(w) && x in w.experiments && w.experiments[x].status.Reserved?
    ensures var e := w.experiments[x];
            LeadsTo(w, h, id,
                    Runner(CheckpointCall(x, e), Returned(Error), Authorized(Reserved, false, false), false),
                    e.(status := FailedBeforeAdd), 0)
  {
    var e := w.experiments[x];
    var call, locals := CheckpointCall(x, e), Authorized(Reserved, false, false);
    h, id := CheckpointAuthorizes(w, x);
    var d0, d1 := Runner(call, CheckAuthority, locals, false), Runner(call, FailUnverified, locals, false);
    h := RunnerSteps(w, h, id, d0, e, 0, YES.(ok := false), d1, e);
    var d2 := Runner(call, Returned(Error), locals, false);
    h := RunnerSteps(w, h, id, d1, e, 0, YES, d2, e.(status := FailedBeforeAdd));
  }

  /** A checkpoint whose files verify wins its reserved row, if the row is what it expects. */
  lemma CheckpointCanBeWon(w: World, x: ExperimentId) returns (h: History, id: DispatcherId)
    requires Safe(w) && x in w.experiments && w.experiments[x].status.Reserved? && !w.experiments[x].codeChange
    ensures var e := w.experiments[x];
            LeadsTo(w, h, id, Runner(CheckpointCall(x, e), Reverify, Authorized(Reserved, true, true), true),
                    e.(status := Submitting), 0)
  {
    var e := w.experiments[x];
    var call, locals := CheckpointCall(x, e), Authorized(Reserved, true, false);
    h, id := CheckpointAuthorizes(w, x);
    var d0 := Runner(call, CheckAuthority, Authorized(Reserved, false, false), false);
    var d1, d2 := Runner(call, MatchStatus, locals, false), Runner(call, Prepare, locals, false);
    h := RunnerSteps(w, h, id, d0, e, 0, YES, d1, e);
    h := RunnerSteps(w, h, id, d1, e, 0, YES, d2, e);
    h := CheckpointBegins(w, h, id, call, e);
  }

  lemma CheckpointBegins(w: World, h: History, id: DispatcherId, call: Call, e: Experiment) returns (longer: History)
    requires LeadsTo(w, h, id, Runner(call, Prepare, Authorized(Reserved, true, false), false), e, 0)
    requires e.status.Reserved?
    ensures LeadsTo(w, longer, id, Runner(call, Reverify, Authorized(Reserved, true, true), true),
                    e.(status := Submitting), 0)
  {
    var locals := Authorized(Reserved, true, false);
    var d0, d1 := Runner(call, Prepare, locals, false), Runner(call, BeginSubmitting, locals, false);
    var d2 := Runner(call, Reverify, Authorized(Reserved, true, true), true);
    longer := RunnerSteps(w, h, id, d0, e, 0, YES, d1, e);
    longer := RunnerSteps(w, longer, id, d1, e, 0, READY, d2, e.(status := Submitting));
  }

  /** A won checkpoint whose files do not verify a second time is failed before its add. */
  lemma UnreverifiedIsFailed(w: World, x: ExperimentId) returns (h: History, id: DispatcherId)
    requires Safe(w) && x in w.experiments && w.experiments[x].status.Reserved? && !w.experiments[x].codeChange
    ensures var e := w.experiments[x];
            LeadsTo(w, h, id, Runner(CheckpointCall(x, e), Returned(Error), Authorized(Reserved, true, true), true),
                    e.(status := FailedBeforeAdd), 0)
  {
    var e := w.experiments[x];
    var call, locals := CheckpointCall(x, e), Authorized(Reserved, true, true);
    var won, failed := e.(status := Submitting), e.(status := FailedBeforeAdd);
    h, id := CheckpointCanBeWon(w, x);
    var d0, d1 := Runner(call, Reverify, locals, true), Runner(call, FailUnreverified, locals, true);
    h := RunnerSteps(w, h, id, d0, won, 0, YES.(ok := false), d1, won);
    h := RunnerSteps(w, h, id, d1, won, 0, YES, Runner(call, Returned(Error), locals, true), failed);
  }

  /** And one whose files verify again is added. */
  lemma CheckpointCanBeAdded(w: World, x: ExperimentId) returns (h: History, id: DispatcherId)
    requires Safe(w) && x in w.experiments && w.experiments[x].status.Reserved? && !w.experiments[x].codeChange
    ensures AddsOnce(w, h, x)
  {
    var e := w.experiments[x];
    var call, locals := CheckpointCall(x, e), Authorized(Reserved, true, true);
    var won := e.(status := Submitting);
    h, id := CheckpointCanBeWon(w, x);
    var d0, d1 := Runner(call, Reverify, locals, true), Runner(call, Add, locals, true);
    var d2 := Runner(call, FirstBoundary, locals, true);
    h := RunnerSteps(w, h, id, d0, won, 0, YES, d1, won);
    h := RunnerSteps(w, h, id, d1, won, 0, YES, d2, won.(adds := won.adds + 1));
  }

  /** Some continuation adds a task for the experiment. */
  ghost predicate CanBeAdded(w: World, x: ExperimentId) {
    exists h :: AddsOnce(w, h, x)
  }

  ghost predicate SomeoneIsArmed(w: World, x: ExperimentId) {
    exists id :: ArmedFor(w, id, x)
  }

  /** A task can still be added for a row exactly when it is reserved, or a call that won it is armed. */
  lemma AddStillPossibleExactly(w: World, x: ExperimentId)
    requires Safe(w) && x in w.experiments
    ensures CanBeAdded(w, x) <==> w.experiments[x].status.Reserved? || SomeoneIsArmed(w, x)
  {
    if w.experiments[x].status.Reserved? {
      var h, id := ReservedCanBeAdded(w, x);
      assert AddsOnce(w, h, x);
    } else if id :| ArmedFor(w, id, x) {
      assert Rowed(w, w.dispatchers[id]);
      var h := ArmedCanAdd(w, id, x);
    } else {
      forall h | IsHistory(h) && h.worlds[0] == w
        ensures AllAdds(h, x) == 0
      {
        FrozenNeverAdds(h, |h.events|, x);
      }
    }
  }

  /** An armed call is reachable from the empty world, so the recovery above can happen. */
  lemma ArmedIsReachable() returns (h: History, id: DispatcherId)
    ensures IsRun(h) && ArmedFor(Last(h), id, "e")
    ensures "e" in Last(h).experiments && Last(h).experiments["e"].status == Submitting
  {
    var create := Create("e", "p", "g", false);
    var created := Next(EMPTY, create);
    EventKeepsSafe(EMPTY, create);
    var more;
    more, id := ReservedCanBeWon(created, "e");
    h := History([EMPTY] + more.worlds, [create] + more.events);
    forall i: nat
      ensures StepAt(h, i)
    {
      assert i > 0 ==> StepAt(more, i - 1);
    }
  }
}
