/**
 The handle of one running agent (`AgentHandle` in `src/agent.rs`): its process, the persistence of its role,
 the finish of its run and the cleanup of its private directory, with every call outside answered freely.
 */
module AgentHandle {
  import opened Wrappers
  import opened AgentTrace
  import opened Effects

  /** How far the role's own persistence has come; a decision is prepared before it is stored. */
  datatype Handler = NoHandler | Pending | Prepared(valid: bool) | Persisted

  datatype DecisionAnswers = DecisionAnswers(outputValid: bool, storeOk: bool, failOk: bool)

  datatype DiagnosisAnswers = DiagnosisAnswers(outputValid: bool, readOk: bool, storeOk: bool, setOk: bool)

  datatype Session = OwnSession | BadOutput | UnsafeProbe

  /** An error of the database itself is told apart from a refusal. */
  datatype Write = Stored | Refused | DatabaseDown

  datatype ResearchAnswers = ResearchAnswers(session: Session, confirm: Write, answerValid: bool, finish: Write,
                                             failOk: bool)

  datatype EditorOutput = ReadyOutput | CannotApply | InvalidOutput
  datatype SessionProof = SameSession | OtherSession | Unproven

  datatype EditorAnswers = EditorAnswers(output: EditorOutput, session: SessionProof, bindOk: bool, finishOk: bool,
                                         rejectOk: bool)

  datatype CleanupAnswers = CleanupAnswers(checkBefore: bool, cleanOk: bool, checkAfter: bool, markOk: bool)

  datatype Answers = Answers(decision: DecisionAnswers, diagnosis: DiagnosisAnswers, research: ResearchAnswers,
                             editor: EditorAnswers, finishOk: bool, cleanup: CleanupAnswers)

  datatype Observation = StillRunning | Exit(success: bool) | ReapFailed(lost: bool) | Lost | Unknown

  /** What a completed run rests on. */
  predicate Proven(role: Role, trace: seq<Event>) {
    match role
    case Diagnosis =>
      Asked(StoreDiagnosis(true), true) in trace && Asked(SetHealth(true), true) in trace
    case Research(_) => Asked(ConfirmSession, true) in trace && Asked(FinishResearch, true) in trace
    case Standard | Decision | Editor(_, _) => true
  }

  // ---------------------------------------------------------------- what each role asks for

  function DecisionAsk(valid: bool, a: DecisionAnswers): Ask {
    if valid then Ask(true, StoreDecision, a.storeOk) else Ask(true, FailDecision, a.failOk)
  }

  predicate DiagnosisValid(outcome: Option<Status>, a: DiagnosisAnswers) {
    outcome == Some(Completed) && a.outputValid
  }

  /** An invalid diagnosis counts the attempt on the row that is there, and makes the experiment suspicious. */
  function DiagnosisPlan(valid: bool, a: DiagnosisAnswers): seq<Event> {
    PlanOf(Ask(!valid, ReadHealth, a.readOk), Ask(true, StoreDiagnosis(valid), a.storeOk),
           Ask(true, SetHealth(valid), a.setOk))
  }

  /** A first attempt of the built-in agent has to prove its session. */
  predicate Proving(role: Role)
    requires role.Editor?
  {
    role.attempt == 1 && role.builtIn
  }

  /** The editor's result stands only with a ready output and, where it is due, a proven session. */
  predicate EditorReady(role: Role, outcome: Option<Status>, a: EditorAnswers)
    requires role.Editor?
  {
    outcome == Some(Completed) && a.output.ReadyOutput? && !(Proving(role) && a.session.Unproven?)
  }

  /** Another attempt would not help. */
  predicate Hopeless(role: Role, outcome: Option<Status>, a: EditorAnswers)
    requires role.Editor?
  {
    || (outcome == Some(Completed) && a.output.CannotApply?)
    || (Proving(role) && a.session.Unproven?)
    || role.attempt >= 2
  }

  function EditorPlan(role: Role, outcome: Option<Status>, a: EditorAnswers): seq<Event>
    requires role.Editor?
  {
    var ready := EditorReady(role, outcome, a);
    PlanOf(Ask(Proving(role) && a.session.OtherSession?, BindSession, a.bindOk),
           Ask(true, FinishEditor(ready), a.finishOk),
           Ask(!ready && Hopeless(role, outcome, a), RejectEditor, a.rejectOk))
  }

  lemma EditorAsks(role: Role, outcome: Option<Status>, a: EditorAnswers, e: Event)
    requires role.Editor?
    ensures var bind := Proving(role) && a.session.OtherSession?;
            var ready := EditorReady(role, outcome, a);
            e in Performed(EditorPlan(role, outcome, a))
            <==> || (bind && e == Asked(BindSession, a.bindOk))
                 || ((bind ==> a.bindOk) && e == Asked(FinishEditor(ready), a.finishOk))
                 || ((bind ==> a.bindOk) && a.finishOk && !ready && Hopeless(role, outcome, a)
                     && e == Asked(RejectEditor, a.rejectOk))
  {
    var ready := EditorReady(role, outcome, a);
    InPlan(Ask(Proving(role) && a.session.OtherSession?, BindSession, a.bindOk),
           Ask(true, FinishEditor(ready), a.finishOk),
           Ask(!ready && Hopeless(role, outcome, a), RejectEditor, a.rejectOk), e);
  }

  /** Another attempt would not help: nothing can be applied, no session was proven, or it was the last one. */
  predicate LastChance(role: Role, outcome: Option<Status>, a: EditorAnswers)
    requires role.Editor?
  {
    || (outcome == Some(Completed) && a.output.CannotApply?)
    || (role.attempt == 1 && role.builtIn && a.session.Unproven?)
    || role.attempt >= 2
  }

  /** A session is bound exactly on a first built-in attempt that has proven another one than the reserved. */
  lemma BoundExactly(role: Role, outcome: Option<Status>, a: EditorAnswers, ok: bool)
    requires role.Editor?
    ensures Asked(BindSession, ok) in Performed(EditorPlan(role, outcome, a))
            <==> role.attempt == 1 && role.builtIn && a.session.OtherSession? && ok == a.bindOk
  {
    EditorAsks(role, outcome, a, Asked(BindSession, ok));
  }

  /**
   Unless binding fails, an editor's result is finished as ready exactly for a completed run with a ready output,
   whose session on a first built-in attempt is the same or was bound.
   */
  lemma ReadyExactly(role: Role, outcome: Option<Status>, a: EditorAnswers, ok: bool)
    requires role.Editor?
    ensures var asked := Performed(EditorPlan(role, outcome, a));
            Asked(FinishEditor(true), ok) in asked <==>
              && outcome == Some(Completed) && a.output.ReadyOutput? && ok == a.finishOk
              && (role.attempt == 1 && role.builtIn ==>
                    a.session.SameSession? || Asked(BindSession, true) in asked)
  {
    EditorAsks(role, outcome, a, Asked(FinishEditor(true), ok));
    BoundExactly(role, outcome, a, true);
  }

  /**
   An editor is rejected exactly when its result was finished as not ready, with success, and another attempt would
   not help. So it is always rejected on a first built-in attempt that has not proven its session, once its result
   is finished.
   */
  lemma RejectedExactly(role: Role, outcome: Option<Status>, a: EditorAnswers)
    requires role.Editor?
    ensures var asked := Performed(EditorPlan(role, outcome, a));
            && (Asked(RejectEditor, a.rejectOk) in asked
                <==> Asked(FinishEditor(false), true) in asked && LastChance(role, outcome, a))
            && (role.attempt == 1 && role.builtIn && a.session.Unproven? && a.finishOk ==>
                  Asked(RejectEditor, a.rejectOk) in asked)
  {
    EditorAsks(role, outcome, a, Asked(RejectEditor, a.rejectOk));
    EditorAsks(role, outcome, a, Asked(FinishEditor(false), true));
  }

  predicate Confirms(outcome: Option<Status>, a: ResearchAnswers) {
    outcome == Some(Completed) && a.session.OwnSession?
  }

  predicate Finishes(outcome: Option<Status>, a: ResearchAnswers) {
    Confirms(outcome, a) && a.confirm.Stored? && a.answerValid
  }

  /** The database itself failed, so that nothing is decided about the review. */
  predicate Undecided(outcome: Option<Status>, a: ResearchAnswers) {
    (Confirms(outcome, a) && a.confirm.DatabaseDown?) || (Finishes(outcome, a) && a.finish.DatabaseDown?)
  }

  predicate ReviewStored(outcome: Option<Status>, a: ResearchAnswers) {
    Finishes(outcome, a) && a.finish.Stored?
  }

  /** A review is stored, or failed, or left undecided. */
  function ResearchCalls(role: Role, outcome: Option<Status>, a: ResearchAnswers): seq<Event>
    requires role.Research?
  {
    PlanOf(Ask(Confirms(outcome, a), ConfirmSession, a.confirm.Stored?),
           Ask(Finishes(outcome, a), FinishResearch, a.finish.Stored?),
           Ask(!Undecided(outcome, a) && !ReviewStored(outcome, a), FailResearch(role.freshLaunch), a.failOk))
  }

  lemma ResearchAsks(role: Role, outcome: Option<Status>, a: ResearchAnswers, e: Event)
    requires role.Research?
    ensures e in ResearchCalls(role, outcome, a)
            <==> || (Confirms(outcome, a) && e == Asked(ConfirmSession, a.confirm.Stored?))
                 || (Finishes(outcome, a) && e == Asked(FinishResearch, a.finish.Stored?))
                 || (!Undecided(outcome, a) && !ReviewStored(outcome, a)
                     && e == Asked(FailResearch(role.freshLaunch), a.failOk))
  {
  }

  /**
   A review's session is confirmed exactly for a completed run with its own session, and its review is finished
   exactly when that was stored and the answer is valid.
   */
  lemma ReviewedExactly(role: Role, outcome: Option<Status>, a: ResearchAnswers, ok: bool)
    requires role.Research?
    ensures Asked(ConfirmSession, ok) in ResearchCalls(role, outcome, a)
            <==> outcome == Some(Completed) && a.session.OwnSession? && ok == a.confirm.Stored?
    ensures Asked(FinishResearch, ok) in ResearchCalls(role, outcome, a)
            <==> Asked(ConfirmSession, true) in ResearchCalls(role, outcome, a) && a.answerValid
                 && ok == a.finish.Stored?
  {
    ResearchAsks(role, outcome, a, Asked(ConfirmSession, ok));
    ResearchAsks(role, outcome, a, Asked(ConfirmSession, true));
    ResearchAsks(role, outcome, a, Asked(FinishResearch, ok));
  }

  /** A review is failed exactly when it is not stored, unless the database itself failed on the way. */
  lemma FailedReviewExactly(role: Role, outcome: Option<Status>, a: ResearchAnswers, clear: bool, ok: bool)
    requires role.Research?
    ensures var asked := ResearchCalls(role, outcome, a);
            Asked(FailResearch(clear), ok) in asked <==>
              && clear == role.freshLaunch && ok == a.failOk
              && !(Asked(ConfirmSession, false) in asked && a.confirm.DatabaseDown?)
              && !(Asked(FinishResearch, false) in asked && a.finish.DatabaseDown?)
              && Asked(FinishResearch, true) !in asked
  {
    ResearchAsks(role, outcome, a, Asked(FailResearch(clear), ok));
    ResearchAsks(role, outcome, a, Asked(ConfirmSession, false));
    ResearchAsks(role, outcome, a, Asked(FinishResearch, false));
    ResearchAsks(role, outcome, a, Asked(FinishResearch, true));
  }

  /** The private directory is emptied while it is retained; a research run checks it before and after. */
  function TempPlan(role: Role, a: CleanupAnswers): seq<Event> {
    PlanOf(Ask(role.Research?, Revalidate, a.checkBefore), Ask(true, CleanTemp, a.cleanOk),
           Ask(role.Research?, Revalidate, a.checkAfter))
  }

  /** The decision that is stored is the one prepared first. */
  function DecisionValid(handler: Handler, outcome: Option<Status>, a: DecisionAnswers): bool {
    if handler.Prepared? then handler.valid else outcome == Some(Completed) && a.outputValid
  }

  /** The role's persistence succeeds on these answers. */
  predicate RoleSucceeds(role: Role, handler: Handler, outcome: Option<Status>, a: Answers) {
    handler.Persisted? ||
    match role
    case Standard => true
    case Decision => if DecisionValid(handler, outcome, a.decision) then a.decision.storeOk else a.decision.failOk
    case Diagnosis => Succeeds(DiagnosisPlan(DiagnosisValid(outcome, a.diagnosis), a.diagnosis))
    case Research(_) => !Undecided(outcome, a.research) && (ReviewStored(outcome, a.research) || a.research.failOk)
    case Editor(_, _) => Succeeds(EditorPlan(role, outcome, a.editor))
  }

  /** The status with which the run is finished once its role has been persisted. */
  function FinalStatus(role: Role, status: Status, a: Answers): Status {
    match role
    case Diagnosis => if status == Completed && a.diagnosis.outputValid then Completed else Failed
    case Research(_) => if status == Completed && !ReviewStored(Some(status), a.research) then Failed else status
    case Standard | Decision | Editor(_, _) => status
  }

  /** One pass over what is left to do succeeds, from the handler to the release. */
  predicate Finalizable(role: Role, handler: Handler, outcome: Option<Status>, persisted: Option<Status>,
                        retained: bool, a: Answers)
  {
    && outcome.Some?
    && (persisted.Some? || (RoleSucceeds(role, handler, outcome, a) && a.finishOk))
    && Cleanable(role, retained, a.cleanup)
  }

  predicate Cleanable(role: Role, retained: bool, a: CleanupAnswers) {
    (retained ==> TempEmptied(role, a)) && (role.Research? ==> a.markOk)
  }

  predicate TempEmptied(role: Role, a: CleanupAnswers) {
    a.cleanOk && (role.Research? ==> a.checkBefore && a.checkAfter)
  }

  /** How the process ends in one call of the daemon, and with which outcome; None when it does not. */
  function Ends(deadline: bool, terminated: bool, seen: Observation): Option<(Status, Event)> {
    if deadline then (if terminated then Some((TimedOut, Terminated)) else None)
    else if seen.Exit? then Some((if seen.success then Completed else Failed, Exited(seen.success)))
    else None
  }

  predicate LosesProcess(deadline: bool, seen: Observation) {
    !deadline && (seen.Lost? || seen == ReapFailed(true))
  }

  function Mark(ok: bool): seq<Event> {
    if ok then [Handled] else []
  }

  /** The state was updated for a valid diagnosis. */
  predicate HealthSet(trace: seq<Event>) {
    Asked(SetHealth(true), true) in trace
  }

  /** The review of the run was stored. */
  predicate ReviewFinished(trace: seq<Event>) {
    Asked(FinishResearch, true) in trace
  }

  predicate AsksStore(trace: seq<Event>) {
    Asked(StoreDecision, true) in trace || Asked(StoreDecision, false) in trace
  }

  predicate AsksFail(trace: seq<Event>) {
    Asked(FailDecision, true) in trace || Asked(FailDecision, false) in trace
  }

  /** A decision run asks for nothing but what was decided first, and its handler is marked after that succeeded. */
  predicate DecisionKept(handler: Handler, decided: Option<bool>, trace: seq<Event>) {
    && (decided.None? <==> handler.Pending?)
    && (handler.Prepared? ==> decided == Some(handler.valid))
    && (AsksStore(trace) ==> decided == Some(true)) && (AsksFail(trace) ==> decided == Some(false))
    && (handler.Persisted? && decided == Some(true) ==> Asked(StoreDecision, true) in trace)
    && (handler.Persisted? && decided == Some(false) ==> Asked(FailDecision, true) in trace)
  }

  /** What a trace says of the roles. */
  predicate SameForRoles(a: seq<Event>, b: seq<Event>) {
    && (HealthSet(a) <==> HealthSet(b)) && (ReviewFinished(a) <==> ReviewFinished(b))
    && (AsksStore(a) <==> AsksStore(b)) && (AsksFail(a) <==> AsksFail(b))
    && (Asked(StoreDecision, true) in a <==> Asked(StoreDecision, true) in b)
    && (Asked(FailDecision, true) in a <==> Asked(FailDecision, true) in b)
  }

  lemma CleanupIsNoRole(trace: seq<Event>, added: seq<Event>)
    requires forall e :: e in added ==> !RoleCall(e)
    ensures SameForRoles(trace, trace + added)
  {
  }

  lemma TempPlanIsNoRole(role: Role, a: CleanupAnswers)
    ensures forall e :: e in Performed(TempPlan(role, a)) ==> !RoleCall(e)
  {
    forall e | e in Performed(TempPlan(role, a))
      ensures !RoleCall(e)
    {
      InPlan(Ask(role.Research?, Revalidate, a.checkBefore), Ask(true, CleanTemp, a.cleanOk),
             Ask(role.Research?, Revalidate, a.checkAfter), e);
    }
  }

  lemma DiagnosisSetsHealth(valid: bool, a: DiagnosisAnswers)
    ensures HealthSet(Performed(DiagnosisPlan(valid, a))) <==> valid && Succeeds(DiagnosisPlan(valid, a))
  {
    var read, store := Ask(!valid, ReadHealth, a.readOk), Ask(true, StoreDiagnosis(valid), a.storeOk);
    var health := Ask(true, SetHealth(valid), a.setOk);
    PlanStops(read, store, health);
    InPlan(read, store, health, Asked(SetHealth(true), true));
  }

  class AgentHandle {
    const role: Role
    var outcome: Option<Status>
    var persisted: Option<Status>
    var lost: bool
    var retained: bool
    var handler: Handler
    ghost var trace: seq<Event>
    /** Whether the decision that was prepared first was a valid one of a completed run. */
    ghost var decided: Option<bool>

    /** The phase that the fields stand for. */
    ghost function Phase(): Phase
      reads this
    {
      if persisted.Some? then (if retained then Done(persisted.value) else Free(persisted.value))
      else if handler.Persisted? then RoleDone
      else if outcome.Some? then Ended
      else Live
    }

    ghost predicate Valid()
      reads this
    {
      && PhaseAfter(role, trace) == Phase()
      && (role.Standard? <==> handler.NoHandler?)
      && (handler.Prepared? ==> role.Decision?)
      && (outcome.None? ==> persisted.None? && !handler.Persisted? && !handler.Prepared? && trace == [])
      && (lost ==> outcome.None?)
      && (persisted.Some? ==>
            && outcome == persisted && (role.Standard? || handler.Persisted?)
            && Asked(FinishRun(persisted.value), true) in trace)
      && (!retained ==> persisted.Some? && Asked(CleanTemp, true) in trace)
      && (!retained && role.Research? ==> Asked(MarkCleaned, true) in trace)
      && (outcome == Some(Completed) ==> Exited(true) in trace)
      && (outcome == Some(TimedOut) ==> Terminated in trace)
      && (handler.Persisted? ==>
            && (outcome == Some(Completed) ==> Proven(role, trace))
            && (role.Diagnosis? ==> outcome != Some(TimedOut)))
    }

    /**
     A diagnosis run is decided as completed exactly by the state update for a valid diagnosis, a research run by the
     stored review; a decision run stores or fails what it decided first.
     */
    ghost predicate Settled()
      reads this
    {
      && (role.Diagnosis? ==> (HealthSet(trace) <==> handler.Persisted? && outcome == Some(Completed)))
      && (role.Research? ==> (ReviewFinished(trace) <==> handler.Persisted? && outcome == Some(Completed)))
      && (role.Decision? ==> DecisionKept(handler, decided, trace))
    }

    /**
     What a finished run rests on: a diagnosis is completed exactly when its state update for a valid diagnosis
     succeeded, a research run exactly when its review was stored; a decision was stored exactly when it was decided
     first as a valid one, and failed exactly otherwise.
     */
    ghost predicate Justified()
      reads this
    {
      persisted.Some? ==>
        && (role.Diagnosis? ==> (persisted == Some(Completed) <==> HealthSet(trace)))
        && (role.Research? ==> (persisted == Some(Completed) <==> ReviewFinished(trace)))
        && (role.Decision? ==>
              && decided.Some?
              && (Asked(StoreDecision, true) in trace <==> decided.value)
              && (Asked(FailDecision, true) in trace <==> !decided.value))
    }

    /** What no call undoes, and what no call does to a handle that lost its process. */
    twostate predicate Onward()
      reads this
    {
      && old(trace) <= trace
      && (old(persisted).Some? ==> persisted == old(persisted))
      && (old(handler).Persisted? ==> handler.Persisted? && outcome == old(outcome))
      && (old(outcome).Some? ==>
            || outcome == old(outcome)
            || (outcome == Some(Failed) && handler.Persisted? && (role.Diagnosis? || role.Research?)))
      && (old(decided).Some? ==> decided == old(decided))
      && (old(!retained) ==> !retained)
      && (old(lost) ==> lost && trace == old(trace))
    }

    constructor (role: Role)
      ensures Valid() && Settled() && this.role == role && !lost && outcome.None? && trace == []
    {
      this.role := role;
      outcome, persisted, lost, retained, trace, decided := None, None, false, true, [], None;
      handler := if role.Standard? then NoHandler else Pending;
    }

    ghost method Note(e: Event)
      modifies this`trace
      ensures trace == old(trace) + [e]
      ensures PhaseAfter(role, trace) == Next(role, PhaseAfter(role, old(trace)), e)
      ensures e in trace && forall x :: x in old(trace) ==> x in trace
    {
      AfterSnoc(Step(role), Live, trace, e);
      trace := trace + [e];
    }

    /** The call is one of the role's pending handler, or of the cleanup of a finished run. */
    predicate Admits(call: Call)
      reads this
    {
      (RolePending() && RoleCall(Asked(call, true))) || (persisted.Some? && CleanupEvent(Asked(call, true)))
    }

    method AskFor(ask: Ask) returns (ok: bool)
      requires Valid() && (ask.due ==> Admits(ask.call))
      modifies this`trace
      ensures Valid() && trace == old(trace) + Due(ask) && ok == Passes(ask)
    {
      if ask.due {
        Note(Asked(ask.call, ask.ok));
      }
      ok := Passes(ask);
    }

    /** Three calls in order, up to the first that fails. */
    method AskInTurn(first: Ask, second: Ask, third: Ask) returns (ok: bool)
      requires Valid() && (first.due ==> Admits(first.call))
      requires (second.due ==> Admits(second.call)) && (third.due ==> Admits(third.call))
      modifies this`trace
      ensures Valid() && trace == old(trace) + Performed(PlanOf(first, second, third))
      ensures ok == Succeeds(PlanOf(first, second, third))
    {
      PlanStops(first, second, third);
      Appended(trace, Due(first), Due(second), Due(third));
      ok := AskFor(first);
      if ok {
        ok := AskFor(second);
        if ok {
          ok := AskFor(third);
        }
      }
    }

    /** The role's handler has an outcome to persist and has not persisted it. */
    predicate RolePending()
      reads this
    {
      outcome.Some? && persisted.None? && !role.Standard? && !handler.Persisted?
    }

    /** The handler is marked, with the status that its run is to be finished with. */
    method MarkHandled(status: Status)
      requires Valid() && RolePending() && (status == outcome.value || status == Failed)
      requires status == Completed ==> Proven(role, trace)
      requires role.Diagnosis? ==> status != TimedOut
      modifies this`trace, this`outcome, this`handler
      ensures Valid() && trace == old(trace) + [Handled] && outcome == Some(status) && handler.Persisted?
      ensures persisted.None? && retained == old(retained) && lost == old(lost)
    {
      ghost var before := trace;
      Note(Handled);
      assert Proven(role, before) ==> Proven(role, trace);
      outcome, handler := Some(status), Persisted;
    }

    // -------------------------------------------------------------- the roles

    method PersistDecision(a: DecisionAnswers) returns (ok: bool)
      requires Valid() && Settled() && outcome.Some? && persisted.None?
      modifies this
      ensures Valid() && Settled() && Onward()
      ensures persisted.None? && retained == old(retained) && outcome == old(outcome)
      ensures !role.Decision? || old(handler.Persisted?) ==> ok && unchanged(this)
      ensures role.Decision? && !old(handler.Persisted?) ==>
                && decided == Some(if old(decided).Some? then old(decided).value
                                   else outcome == Some(Completed) && a.outputValid)
                && trace == old(trace) + [if decided.value then Asked(StoreDecision, a.storeOk)
                                          else Asked(FailDecision, a.failOk)] + Mark(ok)
                && (ok <==> if decided.value then a.storeOk else a.failOk) && (ok <==> handler.Persisted?)
                && (!ok ==> handler == Prepared(decided.value))
    {
      if !role.Decision? || handler.Persisted? {
        return true;
      }
      if handler.Pending? {
        handler := Prepared(outcome == Some(Completed) && a.outputValid);
        decided := Some(handler.valid);
      }
      ok := AskFor(DecisionAsk(handler.valid, a));
      if ok {
        MarkHandled(outcome.value);
      }
    }

    method PersistDiagnosis(a: DiagnosisAnswers) returns (ok: bool)
      requires Valid() && Settled() && outcome.Some? && persisted.None?
      modifies this
      ensures Valid() && Settled() && Onward() && persisted.None? && retained == old(retained)
      ensures !role.Diagnosis? || old(handler.Persisted?) ==> ok && unchanged(this)
      ensures role.Diagnosis? && !old(handler.Persisted?) ==>
                var valid := DiagnosisValid(old(outcome), a);
                && trace == old(trace) + Performed(DiagnosisPlan(valid, a)) + Mark(ok)
                && (ok <==> Succeeds(DiagnosisPlan(valid, a))) && (ok <==> handler.Persisted?)
                && outcome == if ok && !valid then Some(Failed) else old(outcome)
    {
      if !role.Diagnosis? || handler.Persisted? {
        return true;
      }
      var valid := outcome == Some(Completed) && a.outputValid;
      ok := AskDiagnosis(valid, a);
      if ok {
        MarkHandled(if valid then outcome.value else Failed);
      }
    }

    method AskDiagnosis(valid: bool, a: DiagnosisAnswers) returns (ok: bool)
      requires Valid() && RolePending() && role.Diagnosis?
      modifies this`trace
      ensures Valid() && trace == old(trace) + Performed(DiagnosisPlan(valid, a))
      ensures ok == Succeeds(DiagnosisPlan(valid, a))
      ensures HealthSet(trace) <==> old(HealthSet(trace)) || (valid && ok)
      ensures valid && ok ==> Proven(role, trace)
    {
      var read, store := Ask(!valid, ReadHealth, a.readOk), Ask(true, StoreDiagnosis(valid), a.storeOk);
      var health := Ask(true, SetHealth(valid), a.setOk);
      PlanStops(read, store, health);
      DiagnosisSetsHealth(valid, a);
      ok := AskInTurn(read, store, health);
    }

    method PersistResearch(a: ResearchAnswers) returns (ok: bool)
      requires Valid() && Settled() && outcome.Some? && persisted.None?
      modifies this
      ensures Valid() && Settled() && Onward() && persisted.None? && retained == old(retained)
      ensures !role.Research? || old(handler.Persisted?) ==> ok && unchanged(this)
      ensures role.Research? && !old(handler.Persisted?) ==>
                && trace == old(trace) + ResearchCalls(role, old(outcome), a) + Mark(ok)
                && (ok <==> !Undecided(old(outcome), a) && (ReviewStored(old(outcome), a) || a.failOk))
                && (ok <==> handler.Persisted?)
                && outcome == if ok && old(outcome) == Some(Completed) && !ReviewStored(old(outcome), a)
                              then Some(Failed) else old(outcome)
    {
      if !role.Research? || handler.Persisted? {
        return true;
      }
      ok := AskResearch(a);
      if ok {
        var stored := ReviewStored(outcome, a);
        MarkHandled(if outcome == Some(Completed) && !stored then Failed else outcome.value);
      }
    }

    /** The session is confirmed and the review finished; a refusal fails it, a failing database leaves it. */
    method AskResearch(a: ResearchAnswers) returns (ok: bool)
      requires Valid() && RolePending() && role.Research?
      modifies this`trace
      ensures Valid() && trace == old(trace) + ResearchCalls(role, outcome, a)
      ensures ok <==> !Undecided(outcome, a) && (ReviewStored(outcome, a) || a.failOk)
      ensures ReviewStored(outcome, a) ==> Proven(role, trace)
    {
      var confirm := Ask(Confirms(outcome, a), ConfirmSession, a.confirm.Stored?);
      var finish := Ask(Finishes(outcome, a), FinishResearch, a.finish.Stored?);
      Appended(trace, Due(confirm), Due(finish), []);
      var _ := AskFor(confirm);
      if confirm.due && a.confirm.DatabaseDown? {
        return false;
      }
      var _ := AskFor(finish);
      if finish.due && a.finish.DatabaseDown? {
        return false;
      }
      if finish.due && a.finish.Stored? {
        return true;
      }
      var fail := Ask(true, FailResearch(role.freshLaunch), a.failOk);
      Appended(old(trace), Due(confirm), Due(finish), Due(fail));
      ok := AskFor(fail);
    }

    method PersistEditor(a: EditorAnswers) returns (ok: bool)
      requires Valid() && Settled() && outcome.Some? && persisted.None?
      modifies this
      ensures Valid() && Settled() && Onward()
      ensures persisted.None? && retained == old(retained) && outcome == old(outcome)
      ensures !role.Editor? || old(handler.Persisted?) ==> ok && unchanged(this)
      ensures role.Editor? && !old(handler.Persisted?) ==>
                && trace == old(trace) + Performed(EditorPlan(role, outcome, a)) + Mark(ok)
                && (ok <==> Succeeds(EditorPlan(role, outcome, a))) && (ok <==> handler.Persisted?)
    {
      if !role.Editor? || handler.Persisted? {
        return true;
      }
      var ready := EditorReady(role, outcome, a);
      ok := AskInTurn(Ask(Proving(role) && a.session.OtherSession?, BindSession, a.bindOk),
                      Ask(true, FinishEditor(ready), a.finishOk),
                      Ask(!ready && Hopeless(role, outcome, a), RejectEditor, a.rejectOk));
      if ok {
        MarkHandled(outcome.value);
      }
    }

    // -------------------------------------------------------------- the end of the run

    /** The role's handler, whichever it is; each of the four returns at once for another role. */
    method PersistRole(a: Answers) returns (ok: bool)
      requires Valid() && Settled() && outcome.Some? && persisted.None?
      modifies this
      ensures Valid() && Settled() && Onward() && persisted.None? && retained == old(retained)
      ensures ok ==> role.Standard? || handler.Persisted?
      ensures ok <==> RoleSucceeds(role, old(handler), old(outcome), a)
      ensures outcome == if ok && !old(handler.Persisted?) then Some(FinalStatus(role, old(outcome.value), a))
                         else old(outcome)
    {
      ok := PersistDecision(a.decision);
      if ok {
        ok := PersistDiagnosis(a.diagnosis);
      }
      if ok {
        ok := PersistResearch(a.research);
      }
      if ok {
        ok := PersistEditor(a.editor);
      }
    }

    method PersistTerminal(a: Answers) returns (result: Result<Status, ()>)
      requires Valid() && Settled()
      modifies this
      ensures Valid() && Settled() && Onward() && retained == old(retained) && lost == old(lost)
      ensures result.Ok? ==> persisted == Some(result.value)
      ensures result.Ok? <==> old(persisted).Some?
                              || (old(outcome).Some? && RoleSucceeds(role, old(handler), old(outcome), a) && a.finishOk)
      ensures result.Ok? && old(persisted).None? && !old(handler.Persisted?) ==>
                result.value == FinalStatus(role, old(outcome.value), a)
      ensures old(persisted).Some? || old(outcome).None? ==> unchanged(this)
    {
      if persisted.Some? {
        return Ok(persisted.value);
      }
      if outcome.None? {
        return Err(());
      }
      var ok := PersistRole(a);
      if !ok {
        return Err(());
      }
      ok := FinishTheRun(a.finishOk);
      result := if ok then Ok(persisted.value) else Err(());
    }

    method FinishTheRun(finishOk: bool) returns (ok: bool)
      requires Valid() && Settled() && outcome.Some? && persisted.None? && (role.Standard? || handler.Persisted?)
      modifies this`trace, this`persisted
      ensures Valid() && Settled() && trace == old(trace) + [Asked(FinishRun(outcome.value), finishOk)]
      ensures ok == finishOk && persisted == if ok then outcome else None
    {
      Note(Asked(FinishRun(outcome.value), finishOk));
      ok := finishOk;
      if ok {
        persisted := outcome;
      }
    }

    method EmptyTemp(a: CleanupAnswers) returns (ok: bool)
      requires Valid() && Settled() && persisted.Some?
      modifies this`trace
      ensures Valid() && Settled() && trace == old(trace) + Performed(TempPlan(role, a))
      ensures ok == TempEmptied(role, a) && (ok ==> Asked(CleanTemp, true) in trace) && Onward()
    {
      var check, clean := Ask(role.Research?, Revalidate, a.checkBefore), Ask(true, CleanTemp, a.cleanOk);
      var checkAgain := Ask(role.Research?, Revalidate, a.checkAfter);
      PlanStops(check, clean, checkAgain);
      TempPlanIsNoRole(role, a);
      CleanupIsNoRole(trace, Performed(TempPlan(role, a)));
      ok := AskInTurn(check, clean, checkAgain);
    }

    method RetryCleanup(a: CleanupAnswers) returns (result: Result<Status, ()>)
      requires Valid() && Settled()
      modifies this
      ensures Valid() && Settled() && Onward()
      ensures persisted == old(persisted) && outcome == old(outcome) && lost == old(lost)
      ensures result.Ok? ==> persisted == Some(result.value) && !retained
      ensures result.Ok? <==> persisted.Some? && Cleanable(role, old(retained), a)
      ensures persisted.None? ==> unchanged(this)
    {
      if persisted.None? {
        return Err(());
      }
      if retained {
        var ok := EmptyTemp(a);
        if !ok {
          return Err(());
        }
      }
      var released := MarkAndRelease(a.markOk);
      result := if released then Ok(persisted.value) else Err(());
    }

    /** The authority is released last, for a research run after its cleanup is recorded. */
    method MarkAndRelease(markOk: bool) returns (ok: bool)
      requires Valid() && Settled() && persisted.Some? && Asked(CleanTemp, true) in trace
      modifies this`trace, this`retained
      ensures Valid() && Settled() && Onward()
      ensures ok == (role.Research? ==> markOk) && retained == (old(retained) && !ok)
      ensures trace == old(trace) + Due(Ask(role.Research?, MarkCleaned, markOk)) + if ok then [Released] else []
    {
      CleanupIsNoRole(trace, Due(Ask(role.Research?, MarkCleaned, markOk)));
      ok := AskFor(Ask(role.Research?, MarkCleaned, markOk));
      if ok {
        CleanupIsNoRole(trace, [Released]);
        Note(Released);
        retained := false;
      }
    }

    method Finalize(a: Answers) returns (result: Result<Status, ()>)
      requires Valid() && Settled()
      modifies this
      ensures Valid() && Settled() && Onward() && lost == old(lost)
      ensures result.Ok? ==> persisted == Some(result.value) && !retained
      ensures result.Ok? <==> Finalizable(role, old(handler), old(outcome), old(persisted), old(retained), a)
      ensures old(outcome).None? ==> unchanged(this)
    {
      result := PersistTerminal(a);
      if result.Ok? {
        result := RetryCleanup(a.cleanup);
      }
    }

    // -------------------------------------------------------------- the calls of the daemon

    predicate CleanupPending()
      reads this
    {
      persisted.Some? && retained
    }

    /** The first outcome is kept. */
    method StoreOutcome(status: Status, event: Event, a: Answers) returns (result: Result<Status, ()>)
      requires Valid() && Settled() && !lost && outcome.None? && Ending(event)
      requires status == Completed ==> event == Exited(true)
      requires status == TimedOut ==> event == Terminated
      modifies this
      ensures Valid() && Settled() && Onward() && !lost
      ensures EndedAs(status, event)
      ensures result.Ok? ==> persisted == Some(result.value) && !retained
      ensures result.Ok? <==> Finalizable(role, old(handler), Some(status), None, true, a)
    {
      KeepOutcome(status, event);
      result := Finalize(a);
    }

    method KeepOutcome(status: Status, event: Event)
      requires Valid() && Settled() && !lost && outcome.None? && Ending(event)
      requires status == Completed ==> event == Exited(true)
      requires status == TimedOut ==> event == Terminated
      modifies this`trace, this`outcome
      ensures Valid() && Settled() && trace == [event] && outcome == Some(status)
    {
      Note(event);
      outcome := Some(status);
    }

    /** The process ended this way first, and its outcome is kept, or failed by a diagnosis or research handler. */
    ghost predicate EndedAs(status: Status, event: Event)
      reads this
    {
      && trace != [] && trace[0] == event
      && (|| outcome == Some(status)
          || (outcome == Some(Failed) && handler.Persisted? && (role.Diagnosis? || role.Research?)))
    }

    /** What any call of the daemon does with the process when it has not ended before. */
    twostate predicate Observed(ends: Option<(Status, Event)>, loses: bool)
      reads this
    {
      !old(lost) && old(outcome).None? ==>
        && (ends.None? ==> outcome.None? && trace == old(trace) && lost == loses)
        && (ends.Some? ==> EndedAs(ends.value.0, ends.value.1) && !lost)
    }

    /** A call succeeds in finishing the run exactly when everything that is left to do succeeds. */
    twostate predicate FinishesExactly(finished: bool, ends: Option<(Status, Event)>, a: Answers)
      reads this
    {
      finished <==>
        && !old(lost)
        && (if old(outcome).Some?
            then Finalizable(role, old(handler), old(outcome), old(persisted), old(retained), a)
            else ends.Some? && Finalizable(role, old(handler), Some(ends.value.0), None, true, a))
    }

    /**
     The daemon's poll. `deadline` says whether the deadline has passed, `terminated` whether the process group
     could be ended, and `seen` what is observed of the process otherwise.
     */
    method Poll(deadline: bool, terminated: bool, seen: Observation, a: Answers)
      returns (result: Result<Option<Status>, ()>)
      requires Valid() && Settled()
      modifies this
      ensures Valid() && Settled() && Onward()
      ensures Observed(Ends(deadline, terminated, seen), LosesProcess(deadline, seen))
      ensures FinishesExactly(result.Ok? && result.value.Some?, Ends(deadline, terminated, seen), a)
      ensures result.Ok? && result.value.Some? ==> persisted == result.value && !retained
      ensures result == Ok(None)
              <==> (persisted.Some? && retained)
                   || (!old(lost) && old(outcome).None? && !deadline && seen.StillRunning?)
      ensures lost ==> result.Err?
    {
      if lost {
        return Err(());
      }
      var finished;
      if outcome.Some? {
        finished := Finalize(a);
      } else if deadline {
        if !terminated {
          return Err(());
        }
        finished := StoreOutcome(TimedOut, Terminated, a);
      } else {
        match seen {
          case StillRunning =>
            return Ok(None);
          case Exit(success) =>
            finished := StoreOutcome(if success then Completed else Failed, Exited(success), a);
          case ReapFailed(nowLost) =>
            lost := nowLost;
            return Err(());
          case Lost =>
            lost := true;
            return Err(());
          case Unknown =>
            return Err(());
        }
      }
      result := if finished.Ok? then Ok(Some(finished.value)) else if CleanupPending() then Ok(None) else Err(());
    }

    /** The wait for the end of the process; `StillRunning` says that its deadline came first. */
    method Wait(terminated: bool, seen: Observation, a: Answers) returns (result: Result<Status, ()>)
      requires Valid() && Settled()
      modifies this
      ensures Valid() && Settled() && Onward()
      ensures Observed(Ends(seen.StillRunning?, terminated, seen), LosesProcess(false, seen))
      ensures FinishesExactly(result.Ok?, Ends(seen.StillRunning?, terminated, seen), a)
      ensures result.Ok? ==> persisted == Some(result.value) && !retained
    {
      if lost {
        return Err(());
      }
      if outcome.Some? {
        result := Finalize(a);
        return;
      }
      match seen {
        case StillRunning =>
          result := TimeoutNow(terminated, a);
        case Exit(success) =>
          result := StoreOutcome(if success then Completed else Failed, Exited(success), a);
        case Lost =>
          lost := true;
          result := Err(());
        case ReapFailed(nowLost) =>
          lost := nowLost;
          result := Err(());
        case Unknown =>
          result := Err(());
      }
    }

    /** The shutdown's time-out, with or without a deadline of its own. */
    method TimeoutNow(terminated: bool, a: Answers) returns (result: Result<Status, ()>)
      requires Valid() && Settled()
      modifies this
      ensures Valid() && Settled() && Onward() && Observed(Ends(true, terminated, StillRunning), false)
      ensures FinishesExactly(result.Ok?, Ends(true, terminated, StillRunning), a)
      ensures result.Ok? ==> persisted == Some(result.value) && !retained
    {
      if lost {
        return Err(());
      }
      if outcome.Some? {
        result := Finalize(a);
      } else if terminated {
        result := StoreOutcome(TimedOut, Terminated, a);
      } else {
        result := Err(());
      }
    }

    /** The shutdown's time-out under a deadline, which first opens a store that keeps to it. */
    method TimeoutNowBefore(terminated: bool, storeOpens: bool, a: Answers) returns (result: Result<Status, ()>)
      requires Valid() && Settled()
      modifies this
      ensures Valid() && Settled() && Onward() && Observed(Ends(true, terminated, StillRunning), false)
      ensures if storeOpens then FinishesExactly(result.Ok?, Ends(true, terminated, StillRunning), a) else result.Err?
      ensures result.Ok? ==> persisted == Some(result.value) && !retained
    {
      if lost {
        return Err(());
      }
      if outcome.None? {
        if !terminated {
          return Err(());
        }
        KeepOutcome(TimedOut, Terminated);
      }
      if !storeOpens {
        return Err(());
      }
      result := Finalize(a);
    }

    /** Any one call of the daemon. */
    method Perform(call: HandleCall) returns (reported: Option<Status>)
      requires Valid() && Settled()
      modifies this
      ensures Valid() && Settled() && Onward()
      ensures reported.Some? ==> persisted == reported && !retained
    {
      match call {
        case PollCall(deadline, terminated, seen, a) =>
          var r := Poll(deadline, terminated, seen, a);
          reported := if r.Ok? then r.value else None;
        case WaitCall(terminated, seen, a) =>
          var r := Wait(terminated, seen, a);
          reported := if r.Ok? then Some(r.value) else None;
        case TimeoutCall(terminated, a) =>
          var r := TimeoutNow(terminated, a);
          reported := if r.Ok? then Some(r.value) else None;
        case TimeoutBeforeCall(terminated, storeOpens, a) =>
          var r := TimeoutNowBefore(terminated, storeOpens, a);
          reported := if r.Ok? then Some(r.value) else None;
      }
    }

    /**
     Over any calls in any order, every status that is reported is the one that was persisted, and a diagnosis run
     is completed exactly when its state was updated for a valid diagnosis.
     */
    method PerformAll(calls: seq<HandleCall>) returns (reported: seq<Option<Status>>)
      requires Valid() && Settled()
      modifies this
      ensures Valid() && Settled() && Onward() && |reported| == |calls|
      ensures forall i :: 0 <= i < |reported| && reported[i].Some? ==> reported[i] == persisted && !retained
      ensures lost ==> persisted.None? && retained && trace == []
      ensures Justified()
    {
      reported := [];
      for k := 0 to |calls|
        invariant Valid() && Settled() && Onward() && |reported| == k
        invariant forall i :: 0 <= i < |reported| && reported[i].Some? ==> reported[i] == persisted && !retained
      {
        var r := Perform(calls[k]);
        reported := reported + [r];
      }
    }
  }

  datatype HandleCall =
    | PollCall(deadline: bool, terminated: bool, seen: Observation, a: Answers)
    | WaitCall(terminated: bool, seen: Observation, a: Answers)
    | TimeoutCall(terminated: bool, a: Answers)
    | TimeoutBeforeCall(terminated: bool, storeOpens: bool, a: Answers)

  // ---------------------------------------------------------------- what retries come to

  /** Nothing outside fails; what the run itself produced may be anything. */
  predicate NothingFails(a: Answers) {
    && a.finishOk && a.decision.storeOk && a.decision.failOk
    && a.diagnosis.readOk && a.diagnosis.storeOk && a.diagnosis.setOk
    && !a.research.confirm.DatabaseDown? && !a.research.finish.DatabaseDown? && a.research.failOk
    && a.editor.bindOk && a.editor.finishOk && a.editor.rejectOk
    && a.cleanup.checkBefore && a.cleanup.cleanOk && a.cleanup.checkAfter && a.cleanup.markOk
  }

  /** One call in which nothing fails finishes any run whose process has ended, wherever earlier calls stopped. */
  lemma OneGoodCallFinishes(role: Role, handler: Handler, outcome: Status, persisted: Option<Status>, retained: bool,
                            a: Answers)
    requires NothingFails(a)
    ensures Finalizable(role, handler, Some(outcome), persisted, retained, a)
  {
    match role {
      case Diagnosis =>
        var valid := DiagnosisValid(Some(outcome), a.diagnosis);
        PlanStops(Ask(!valid, ReadHealth, true), Ask(true, StoreDiagnosis(valid), true),
                  Ask(true, SetHealth(valid), true));
      case Editor(_, _) => EditorPlanSucceeds(role, Some(outcome), a.editor);
      case _ =>
    }
  }

  lemma EditorPlanSucceeds(role: Role, outcome: Option<Status>, a: EditorAnswers)
    requires role.Editor? && a.bindOk && a.finishOk && a.rejectOk
    ensures Succeeds(EditorPlan(role, outcome, a))
  {
    var ready := EditorReady(role, outcome, a);
    PlanStops(Ask(Proving(role) && a.session.OtherSession?, BindSession, true), Ask(true, FinishEditor(ready), true),
              Ask(!ready && Hopeless(role, outcome, a), RejectEditor, true));
  }

  /** A valid diagnosis is stored, and its state cannot be set. */
  method DiagnosisInterrupted() returns (h: AgentHandle)
    ensures fresh(h) && h.Valid() && h.Settled() && h.role == Diagnosis
    ensures h.outcome == Some(Completed) && h.persisted.None? && h.handler.Pending?
    ensures Exited(true) in h.trace && Asked(StoreDiagnosis(true), true) in h.trace
  {
    h := new AgentHandle(Diagnosis);
    h.KeepOutcome(Completed, Exited(true));
    PlanStops(Ask(false, ReadHealth, true), Ask(true, StoreDiagnosis(true), true), Ask(true, SetHealth(true), false));
    var ok := h.PersistDiagnosis(DiagnosisAnswers(true, true, true, false));
    assert Asked(StoreDiagnosis(true), true) in h.trace;
  }

  /** The next call cannot read the diagnosis any more. */
  method DiagnosisUndone() returns (h: AgentHandle)
    ensures fresh(h) && h.Valid() && h.Settled() && h.role == Diagnosis
    ensures h.outcome == Some(Failed) && h.persisted.None? && h.handler.Persisted?
    ensures Exited(true) in h.trace
    ensures Asked(StoreDiagnosis(true), true) in h.trace && Asked(StoreDiagnosis(false), true) in h.trace
  {
    h := DiagnosisInterrupted();
    PlanStops(Ask(true, ReadHealth, true), Ask(true, StoreDiagnosis(false), true), Ask(true, SetHealth(false), true));
    var ok := h.PersistDiagnosis(DiagnosisAnswers(false, true, true, true));
    assert Asked(StoreDiagnosis(false), true) in h.trace;
  }

  /**
   A retry can undo a diagnosis: the run that exited with success is finished as failed, and two diagnoses have
   been stored. `PerformAll` says that the update of the state is what decides.
   */
  method ValidDiagnosisCanStillFail() returns (h: AgentHandle)
    ensures h.Valid() && h.role == Diagnosis && h.persisted == Some(Failed)
    ensures Exited(true) in h.trace
    ensures Asked(StoreDiagnosis(true), true) in h.trace && Asked(StoreDiagnosis(false), true) in h.trace
    ensures !HealthSet(h.trace)
  {
    h := DiagnosisUndone();
    var finished := h.FinishTheRun(true);
  }
}
