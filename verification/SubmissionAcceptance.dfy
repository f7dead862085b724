/**
 When a submission is accepted: the answers that a call was given in a run decide it, and nothing else does.
 */
module SubmissionAcceptance {
  import opened Wrappers
  import opened Submission
  import opened SubmissionSteps

  // ---------------------------------------------------------------- what a call was told

  /** The answers that a call was given when it prepared, added, checked and read back. */
  datatype Told = Told(prepared: Option<Answer>, added: Option<Answer>, first: Option<Answer>, listed: Option<Answer>,
                       second: Option<Answer>, readBack: Option<Answer>)

  const NOTHING_TOLD := Told(None, None, None, None, None, None)

  function Tell(told: Told, phase: Phase, a: Answer): Told {
    match phase
    case Prepare => told.(prepared := Some(a))
    case Add => told.(added := Some(a))
    case FirstBoundary => told.(first := Some(a))
    case ReadTasks => told.(listed := Some(a))
    case SecondBoundary => told.(second := Some(a))
    case ReadBack => told.(readBack := Some(a))
    case _ => told
  }

  predicate Steps(w: World, event: Event, id: DispatcherId) {
    event.Step? && event.id == id && id in w.dispatchers && w.dispatchers[id].call.experiment in w.experiments
  }

  /** What the first `n` events of a run have told a call. */
  function ToldBy(h: History, n: nat, id: DispatcherId): Told
    requires |h.worlds| == |h.events| + 1 && n <= |h.events|
  {
    if n == 0 then NOTHING_TOLD
    else if Steps(h.worlds[n - 1], h.events[n - 1], id) then
      Tell(ToldBy(h, n - 1, id), h.worlds[n - 1].dispatchers[id].phase, h.events[n - 1].answer)
    else ToldBy(h, n - 1, id)
  }

  predicate Interrupts(w: World, event: Event, id: DispatcherId) {
    event.RecoverBoundaries? && id in w.dispatchers && AfterWin(w.dispatchers[id].phase)
  }

  /** A daemon has started while the call had won its row and had not settled it. */
  predicate InterruptedBy(h: History, n: nat, id: DispatcherId)
    requires |h.worlds| == |h.events| + 1 && n <= |h.events|
  {
    n > 0 && (InterruptedBy(h, n - 1, id) || Interrupts(h.worlds[n - 1], h.events[n - 1], id))
  }

  predicate Ok(answer: Option<Answer>) {
    answer.Some? && answer.value.ok
  }

  /** The task stands in the list at this place alone, in this group, with this command and a signature. */
  predicate StandsAt(listing: seq<Task>, i: nat, id: int, group: string, command: string) {
    && i < |listing|
    && listing[i].id == id && listing[i].group == group && listing[i].command == command && listing[i].signed
    && forall j :: 0 <= j < |listing| && j != i ==> listing[j].id != id
  }

  ghost predicate StandsOnce(listing: seq<Task>, id: int, group: string, command: string) {
    exists i: nat :: StandsAt(listing, i, id, group, command)
  }

  /** The add reported an id, which the list read afterwards has once as it should be, and both boundaries held. */
  ghost predicate Confirmed(told: Told, group: string, candidate: bool) {
    && Ok(told.prepared) && Ok(told.added) && Ok(told.listed)
    && StandsOnce(told.listed.value.tasks, told.added.value.task, group, told.prepared.value.command)
    && (candidate ==> Ok(told.first) && Ok(told.second))
  }

  // ---------------------------------------------------------------- the filter is exact

  lemma {:induction false} MatchesOnce(listing: seq<Task>, id: int, i: nat)
    requires i < |listing| && listing[i].id == id
    requires forall j :: 0 <= j < |listing| && j != i ==> listing[j].id != id
    ensures IdMatches(listing, id) == [listing[i]]
  {
    if i == 0 {
      forall j | 0 <= j < |listing[1..]|
        ensures listing[1..][j].id != id
      {
        assert listing[1..][j] == listing[j + 1];
      }
      NoneMatches(listing[1..], id);
    } else {
      assert listing[0].id != id;
      assert listing[1..][i - 1] == listing[i];
      MatchesOnce(listing[1..], id, i - 1);
    }
  }

  lemma {:induction false} NoneMatches(listing: seq<Task>, id: int)
    requires forall j :: 0 <= j < |listing| ==> listing[j].id != id
    ensures IdMatches(listing, id) == []
  {
    if listing != [] {
      NoneMatches(listing[1..], id);
    }
  }

  /** The filter accepts a list exactly when the task stands in it once, as it should be. */
  lemma MatchesExactly(locals: Locals, group: string)
    ensures TaskMatches(locals, group) <==> StandsOnce(locals.listing, locals.task, group, locals.expected)
  {
    if TaskMatches(locals, group) {
      var i := OneMatchIsListedOnce(locals.listing, locals.task);
      assert StandsAt(locals.listing, i, locals.task, group, locals.expected);
    }
    if i: nat :| StandsAt(locals.listing, i, locals.task, group, locals.expected) {
      MatchesOnce(locals.listing, locals.task, i);
    }
  }

  // ---------------------------------------------------------------- what a call knows from its answers

  /** Before its add a call has been told nothing that counts, but what it prepared. */
  predicate Early(d: Dispatcher, told: Told) {
    && told.added.None? && told.first.None? && told.listed.None? && told.second.None?
    && (d.phase.BeginSubmitting? || Armed(d.phase) ==>
          Ok(told.prepared) && d.locals.expected == told.prepared.value.command)
  }

  /** After its add, what it keeps is what it was told. */
  predicate Late(d: Dispatcher, told: Told) {
    && Ok(told.prepared) && d.locals.expected == told.prepared.value.command
    && Ok(told.added) && d.locals.task == told.added.value.task
    && (!d.phase.FirstBoundary? && d.call.candidate ==> Ok(told.first))
    && (!d.phase.FirstBoundary? && !d.phase.ReadTasks? ==>
          Ok(told.listed) && d.locals.listing == told.listed.value.tasks)
    && (d.phase.Accept? && d.call.candidate ==> Ok(told.second))
  }

  predicate Checking(phase: Phase) {
    phase.FirstBoundary? || phase.ReadTasks? || phase.MatchTask? || phase.SecondBoundary? || phase.Accept?
  }

  /** How a row that was won and not accepted is left. */
  function Unaccepted(told: Told, interrupted: bool): Status {
    if interrupted then Unreconciled(AddInterrupted)
    else if told.added.None? then FailedBeforeAdd
    else if told.added.value.ok then Unreconciled(AddIdentity)
    else Unreconciled(AddUnknown)
  }

  ghost predicate KnowsAnswers(d: Dispatcher, e: Experiment, told: Told, interrupted: bool) {
    && (!d.won && !Ended(d.phase) ==> Early(d, told))
    && (Armed(d.phase) ==> Early(d, told))
    && (Checking(d.phase) ==> Late(d, told))
    && (d.phase.Accept? ==> Confirmed(told, e.group, d.call.candidate))
    && (d.phase.FailUnreverified? ==> told.added.None?)
    && (d.phase.MarkAddUnknown? ==> told.added.Some? && !told.added.value.ok)
    && (d.phase.MarkIdentity? ==> Ok(told.added) && !Confirmed(told, e.group, d.call.candidate))
    && (d.phase.MarkNotAccepted? ==> d.storeFailed || interrupted)
  }

  /** The row's evidence is what the call was told. */
  predicate Evidenced(e: Experiment, told: Told) {
    e.evidence.Some? && Ok(told.added) && Ok(told.prepared) && Ok(told.listed)
    && e.evidence.value.task == told.added.value.task && e.evidence.value.command == told.prepared.value.command
    && e.evidence.value.listing == told.listed.value.tasks && e.evidence.value.group == e.group
  }

  /** Until the winner settles its row, the row is submitting, unless a daemon has started. */
  ghost predicate KnowsRow(d: Dispatcher, e: Experiment, told: Told, interrupted: bool) {
    && (AfterWin(d.phase) && !d.storeFailed ==>
          e.evidence.None? && e.status == if interrupted then Unreconciled(AddInterrupted) else Submitting)
    && (!d.won ==> !interrupted)
    && (d.won && d.phase.ReadBack? && !d.storeFailed ==>
          Evidenced(e, told) && !interrupted && Confirmed(told, e.group, d.call.candidate))
    && (d.won && d.phase.Returned? && !d.storeFailed ==>
          && (e.evidence.Some? <==> !interrupted && Confirmed(told, e.group, d.call.candidate))
          && (e.evidence.Some? ==> Evidenced(e, told)))
    && (d.won && d.phase.Returned? && !d.storeFailed ==>
          (d.phase.verdict == Submitted <==> e.evidence.Some? && Ok(told.readBack)))
    && (d.won && d.phase.Returned? && !d.storeFailed && e.evidence.None? ==> e.status == Unaccepted(told, interrupted))
  }

  ghost predicate Knows(d: Dispatcher, e: Experiment, told: Told, interrupted: bool) {
    KnowsAnswers(d, e, told, interrupted) && KnowsRow(d, e, told, interrupted)
  }

  // ---------------------------------------------------------------- every step keeps it

  /** The call has not won its row, and may still win it only by what it was told. */
  predicate Unwon(d: Dispatcher, told: Told) {
    !d.won && !AfterWin(d.phase) && (Ended(d.phase) || Early(d, told))
  }

  lemma UnwonKnows(d: Dispatcher, e: Experiment, told: Told)
    requires Unwon(d, told)
    ensures Knows(d, e, told, false)
  {
  }

  lemma OpeningStays(d: Dispatcher, e: Experiment, lockFree: bool, a: Answer, told: Told)
    requires Placed(d) && StageOf(d.phase).Opening? && Early(d, told)
    ensures var after := Act(d, e, lockFree, a);
            after.1 == e && Unwon(after.0, Tell(told, d.phase, a))
  {
  }

  lemma OpeningKnows(d: Dispatcher, e: Experiment, lockFree: bool, a: Answer, told: Told, interrupted: bool)
    requires RowOk(e) && CallOk(d, e) && Knows(d, e, told, interrupted) && StageOf(d.phase).Opening?
    ensures var after := Act(d, e, lockFree, a);
            Knows(after.0, after.1, Tell(told, d.phase, a), interrupted)
  {
    OpeningStays(d, e, lockFree, a, told);
    UnwonKnows(Act(d, e, lockFree, a).0, e, Tell(told, d.phase, a));
  }

  lemma ClaimingStays(d: Dispatcher, e: Experiment, lockFree: bool, a: Answer, told: Told)
    requires Placed(d) && StageOf(d.phase).Claiming? && Early(d, told)
    ensures var after := Act(d, e, lockFree, a);
            after.1 == e && Unwon(after.0, Tell(told, d.phase, a))
  {
  }

  lemma ClaimingKnows(d: Dispatcher, e: Experiment, lockFree: bool, a: Answer, told: Told, interrupted: bool)
    requires RowOk(e) && CallOk(d, e) && Knows(d, e, told, interrupted) && StageOf(d.phase).Claiming?
    ensures var after := Act(d, e, lockFree, a);
            Knows(after.0, after.1, Tell(told, d.phase, a), interrupted)
  {
    ClaimingStays(d, e, lockFree, a, told);
    UnwonKnows(Act(d, e, lockFree, a).0, e, Tell(told, d.phase, a));
  }

  lemma AuthorizingStays(d: Dispatcher, e: Experiment, lockFree: bool, a: Answer, told: Told)
    requires Placed(d) && StageOf(d.phase).Authorizing? && Early(d, told)
    ensures var after := Act(d, e, lockFree, a);
            after.1 == e && Unwon(after.0, Tell(told, d.phase, a))
  {
  }

  lemma AuthorizingKnows(d: Dispatcher, e: Experiment, lockFree: bool, a: Answer, told: Told, interrupted: bool)
    requires RowOk(e) && CallOk(d, e) && Knows(d, e, told, interrupted) && StageOf(d.phase).Authorizing?
    ensures var after := Act(d, e, lockFree, a);
            Knows(after.0, after.1, Tell(told, d.phase, a), interrupted)
  {
    AuthorizingStays(d, e, lockFree, a, told);
    UnwonKnows(Act(d, e, lockFree, a).0, e, Tell(told, d.phase, a));
  }

  lemma DecidingStays(d: Dispatcher, e: Experiment, lockFree: bool, a: Answer, told: Told)
    requires Placed(d) && StageOf(d.phase).Deciding? && Early(d, told)
    ensures var after := Act(d, e, lockFree, a);
            after.1 == e && Unwon(after.0, Tell(told, d.phase, a))
  {
  }

  lemma DecidingKnows(d: Dispatcher, e: Experiment, lockFree: bool, a: Answer, told: Told, interrupted: bool)
    requires RowOk(e) && CallOk(d, e) && Knows(d, e, told, interrupted) && StageOf(d.phase).Deciding?
    ensures var after := Act(d, e, lockFree, a);
            Knows(after.0, after.1, Tell(told, d.phase, a), interrupted)
  {
    DecidingStays(d, e, lockFree, a, told);
    UnwonKnows(Act(d, e, lockFree, a).0, e, Tell(told, d.phase, a));
  }

  lemma WinningKnows(d: Dispatcher, e: Experiment, lockFree: bool, a: Answer, told: Told, interrupted: bool)
    requires RowOk(e) && CallOk(d, e) && Knows(d, e, told, interrupted) && StageOf(d.phase).Winning?
    ensures var after := Act(d, e, lockFree, a);
            Knows(after.0, after.1, Tell(told, d.phase, a), interrupted)
  {
  }

  lemma AddingKnows(d: Dispatcher, e: Experiment, lockFree: bool, a: Answer, told: Told, interrupted: bool)
    requires RowOk(e) && CallOk(d, e) && Knows(d, e, told, interrupted) && StageOf(d.phase).Adding?
    ensures var after := Act(d, e, lockFree, a);
            Knows(after.0, after.1, Tell(told, d.phase, a), interrupted)
  {
  }

  lemma ListingKnows(d: Dispatcher, e: Experiment, lockFree: bool, a: Answer, told: Told, interrupted: bool)
    requires RowOk(e) && CallOk(d, e) && Knows(d, e, told, interrupted) && d.phase.ReadTasks?
    ensures var after := Act(d, e, lockFree, a);
            Knows(after.0, after.1, Tell(told, d.phase, a), interrupted)
  {
  }

  lemma MatchingKnows(d: Dispatcher, e: Experiment, lockFree: bool, a: Answer, told: Told, interrupted: bool)
    requires RowOk(e) && CallOk(d, e) && Knows(d, e, told, interrupted) && d.phase.MatchTask?
    ensures var after := Act(d, e, lockFree, a);
            Knows(after.0, after.1, Tell(told, d.phase, a), interrupted)
  {
    MatchesExactly(d.locals, e.group);
  }

  lemma BoundaryKnows(d: Dispatcher, e: Experiment, lockFree: bool, a: Answer, told: Told, interrupted: bool)
    requires RowOk(e) && CallOk(d, e) && Knows(d, e, told, interrupted) && d.phase.SecondBoundary?
    ensures var after := Act(d, e, lockFree, a);
            Knows(after.0, after.1, Tell(told, d.phase, a), interrupted)
  {
    MatchesExactly(d.locals, e.group);
  }

  lemma AcceptingKnows(d: Dispatcher, e: Experiment, lockFree: bool, a: Answer, told: Told, interrupted: bool)
    requires RowOk(e) && CallOk(d, e) && Knows(d, e, told, interrupted) && StageOf(d.phase).Accepting?
    ensures var after := Act(d, e, lockFree, a);
            Knows(after.0, after.1, Tell(told, d.phase, a), interrupted)
  {
  }

  lemma MarkingKnows(d: Dispatcher, e: Experiment, lockFree: bool, a: Answer, told: Told, interrupted: bool)
    requires RowOk(e) && CallOk(d, e) && Knows(d, e, told, interrupted) && StageOf(d.phase).Marking?
    ensures var after := Act(d, e, lockFree, a);
            Knows(after.0, after.1, Tell(told, d.phase, a), interrupted)
  {
  }

  lemma EndingKnows(d: Dispatcher, e: Experiment, lockFree: bool, a: Answer, told: Told, interrupted: bool)
    requires RowOk(e) && CallOk(d, e) && Knows(d, e, told, interrupted) && StageOf(d.phase).Ending?
    ensures var after := Act(d, e, lockFree, a);
            Knows(after.0, after.1, Tell(told, d.phase, a), interrupted)
  {
  }

  lemma ActKnows(d: Dispatcher, e: Experiment, lockFree: bool, a: Answer, told: Told, interrupted: bool)
    requires RowOk(e) && CallOk(d, e) && Knows(d, e, told, interrupted)
    ensures var after := Act(d, e, lockFree, a);
            Knows(after.0, after.1, Tell(told, d.phase, a), interrupted)
  {
    match StageOf(d.phase)
    case Opening => OpeningKnows(d, e, lockFree, a, told, interrupted);
    case Claiming => ClaimingKnows(d, e, lockFree, a, told, interrupted);
    case Authorizing => AuthorizingKnows(d, e, lockFree, a, told, interrupted);
    case Deciding => DecidingKnows(d, e, lockFree, a, told, interrupted);
    case Winning => WinningKnows(d, e, lockFree, a, told, interrupted);
    case Adding => AddingKnows(d, e, lockFree, a, told, interrupted);
    case Checking =>
      if d.phase.ReadTasks? {
        ListingKnows(d, e, lockFree, a, told, interrupted);
      } else if d.phase.MatchTask? {
        MatchingKnows(d, e, lockFree, a, told, interrupted);
      } else {
        BoundaryKnows(d, e, lockFree, a, told, interrupted);
      }
    case Accepting => AcceptingKnows(d, e, lockFree, a, told, interrupted);
    case Marking => MarkingKnows(d, e, lockFree, a, told, interrupted);
    case Ending => EndingKnows(d, e, lockFree, a, told, interrupted);
  }

  /** The call has won its row, settled it and returned. */
  predicate Done(d: Dispatcher) {
    d.won && d.phase.Returned? && !d.storeFailed
  }

  /** What other calls and the daemon do to a row takes nothing from what its own call knows. */
  lemma RowMayMove(d: Dispatcher, e: Experiment, after: Experiment, told: Told, interrupted: bool)
    requires Placed(d) && Knows(d, e, told, interrupted) && after.group == e.group
    requires d.won ==> after.evidence == e.evidence
    requires AfterWin(d.phase) || Done(d) ==> after.status == e.status
    ensures Knows(d, after, told, interrupted)
  {
  }

  lemma OtherActMoves(d: Dispatcher, other: Dispatcher, e: Experiment, lockFree: bool, a: Answer)
    requires RowOk(e) && CallOk(d, e) && CallOk(other, e)
    requires d.call.experiment == other.call.experiment && Apart(d, other)
    ensures var after := Act(other, e, lockFree, a).1;
            && after.group == e.group && (d.won ==> after.evidence == e.evidence)
            && (AfterWin(d.phase) || Done(d) ==> after.status == e.status)
  {
    ActMoves(other, e, lockFree, a);
  }

  ghost predicate KnowsIn(w: World, id: DispatcherId, told: Told, interrupted: bool) {
    if id in w.dispatchers then
      w.dispatchers[id].call.experiment in w.experiments
      && Knows(w.dispatchers[id], w.experiments[w.dispatchers[id].call.experiment], told, interrupted)
    else told == NOTHING_TOLD && !interrupted
  }

  lemma OwnStepKnows(w: World, id: DispatcherId, a: Answer, told: Told, interrupted: bool)
    requires Safe(w) && id in w.dispatchers && KnowsIn(w, id, told, interrupted)
    ensures KnowsIn(Next(w, Step(id, a)), id, Tell(told, w.dispatchers[id].phase, a), interrupted)
  {
    var d := w.dispatchers[id];
    var e := w.experiments[d.call.experiment];
    assert Rowed(w, d) && RowOk(e);
    ActKnows(d, e, LockFree(w, d.call.project), a, told, interrupted);
    ActKeeps(d, e, LockFree(w, d.call.project), a);
  }

  lemma OtherStepKnows(w: World, id: DispatcherId, other: DispatcherId, a: Answer, told: Told, interrupted: bool)
    requires Safe(w) && id != other && KnowsIn(w, id, told, interrupted)
    ensures KnowsIn(Next(w, Step(other, a)), id, told, interrupted)
  {
    if id in w.dispatchers && other in w.dispatchers {
      var d, d2 := w.dispatchers[id], w.dispatchers[other];
      assert Rowed(w, d) && Rowed(w, d2) && Apart(d, d2);
      if d.call.experiment == d2.call.experiment {
        var e := w.experiments[d.call.experiment];
        assert RowOk(e);
        OtherActMoves(d, d2, e, LockFree(w, d2.call.project), a);
        RowMayMove(d, e, Act(d2, e, LockFree(w, d2.call.project), a).1, told, interrupted);
      }
    }
  }

  lemma CrashKnows(w: World, id: DispatcherId, crashed: DispatcherId, told: Told, interrupted: bool)
    requires Safe(w) && KnowsIn(w, id, told, interrupted)
    ensures KnowsIn(Next(w, Crash(crashed)), id, told, interrupted)
  {
    if id in w.dispatchers && id == crashed {
      CrashedKnows(w.dispatchers[id], w.experiments[w.dispatchers[id].call.experiment], told, interrupted);
    }
  }

  lemma CrashedKnows(d: Dispatcher, e: Experiment, told: Told, interrupted: bool)
    requires Knows(d, e, told, interrupted)
    ensures Knows(Goto(d, Crashed), e, told, interrupted)
  {
  }

  lemma StartKnows(w: World, event: Event, id: DispatcherId, told: Told, interrupted: bool)
    requires Safe(w) && event.Start? && KnowsIn(w, id, told, interrupted)
    ensures KnowsIn(Next(w, event), id, told, interrupted)
  {
  }

  /** A daemon's start interrupts the winner that has not settled its row, and touches no other. */
  lemma RecoverKnows(w: World, id: DispatcherId, told: Told, interrupted: bool)
    requires Safe(w) && KnowsIn(w, id, told, interrupted)
    ensures KnowsIn(Next(w, RecoverBoundaries), id, told, interrupted || Interrupts(w, RecoverBoundaries, id))
  {
    if id in w.dispatchers {
      var d := w.dispatchers[id];
      assert Rowed(w, d);
      RecoveredKnows(d, w.experiments[d.call.experiment], told, interrupted);
    }
  }

  lemma RecoveredKnows(d: Dispatcher, e: Experiment, told: Told, interrupted: bool)
    requires Placed(d) && Knows(d, e, told, interrupted)
    ensures Knows(d, Interrupted(e), told, interrupted || AfterWin(d.phase))
  {
  }

  lemma SettledKnows(w: World, event: Event, id: DispatcherId, told: Told, interrupted: bool)
    requires Safe(w) && (event.Quarantine? || event.FinishRun? || event.Create?) && KnowsIn(w, id, told, interrupted)
    ensures KnowsIn(Next(w, event), id, told, interrupted)
  {
    if id in w.dispatchers {
      var d := w.dispatchers[id];
      var e := w.experiments[d.call.experiment];
      assert Rowed(w, d);
      var after := Next(w, event).experiments[d.call.experiment];
      SettlingLeaves(d, e, after, told, interrupted);
    }
  }

  lemma SettlingLeaves(d: Dispatcher, e: Experiment, after: Experiment, told: Told, interrupted: bool)
    requires CallOk(d, e) && Knows(d, e, told, interrupted)
    requires after == e || (e.status.Accepted? && after == e.(status := after.status))
    ensures Knows(d, after, told, interrupted)
  {
  }

  lemma EventKnows(w: World, event: Event, id: DispatcherId, told: Told, interrupted: bool)
    requires Safe(w) && KnowsIn(w, id, told, interrupted)
    ensures KnowsIn(Next(w, event), id,
                    if Steps(w, event, id) then Tell(told, w.dispatchers[id].phase, event.answer) else told,
                    interrupted || Interrupts(w, event, id))
  {
    match event
    case Step(other, a) =>
      if other != id {
        OtherStepKnows(w, id, other, a, told, interrupted);
      } else if id in w.dispatchers {
        OwnStepKnows(w, id, a, told, interrupted);
      }
    case Crash(other) => CrashKnows(w, id, other, told, interrupted);
    case Start(_, _, _, _, _, _) => StartKnows(w, event, id, told, interrupted);
    case RecoverBoundaries => RecoverKnows(w, id, told, interrupted);
    case Create(_, _, _, _) | Quarantine(_) | FinishRun(_, _) => SettledKnows(w, event, id, told, interrupted);
  }

  lemma {:induction false} RunKnows(h: History, n: nat, id: DispatcherId)
    requires IsRun(h) && n <= |h.events|
    ensures KnowsIn(h.worlds[n], id, ToldBy(h, n, id), InterruptedBy(h, n, id))
  {
    if n > 0 {
      RunKnows(h, n - 1, id);
      RunIsSafe(h, n - 1);
      EventKnows(h.worlds[n - 1], h.events[n - 1], id, ToldBy(h, n - 1, id), InterruptedBy(h, n - 1, id));
      assert StepAt(h, n - 1);
    }
  }

  /**
   A call that won its row and returned, with every store write successful, leaves it accepted exactly when its add
   reported an id, the list read afterwards had the task once in the row's group, with the prepared command and a
   signature, the boundaries of a candidate held, and no daemon started in between. It reports the submission exactly
   when it could then read the row back. A row that is not accepted tells by its status how far the call came.
   */
  lemma AcceptedExactly(h: History, n: nat, id: DispatcherId)
    requires IsRun(h) && n <= |h.events| && id in h.worlds[n].dispatchers
    requires var d := h.worlds[n].dispatchers[id]; d.won && d.phase.Returned? && !d.storeFailed
    ensures var w := h.worlds[n]; var d := w.dispatchers[id];
            && d.call.experiment in w.experiments
            && var e, told := w.experiments[d.call.experiment], ToldBy(h, n, id);
               && (e.evidence.Some? <==> Confirmed(told, e.group, d.call.candidate) && !InterruptedBy(h, n, id))
               && (e.evidence.Some? ==> Evidenced(e, told))
               && (e.evidence.None? ==> e.status == Unaccepted(told, InterruptedBy(h, n, id)))
               && (d.phase.verdict == Submitted <==> e.evidence.Some? && Ok(told.readBack))
  {
    RunKnows(h, n, id);
  }
}
