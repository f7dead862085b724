/**
 The cleanup of a launch that failed after its run was bound (`BoundFinalizationIntent` and
 `BoundCleanupHandle` in `src/agent.rs`): how the run is to be finalized, and a handle that retries termination,
 finalization, cleanup and release until all of them have been done.
 */
module BoundCleanup {
  import opened Wrappers
  import opened Effects

  // ---------------------------------------------------------------- the intent

  datatype ViolationStage =
    | AtStartup | AtPreBinding | AtRunBoundPreMarker | AtNativeGate | AtPostMarker | AtDispatched | AtFinalized

  datatype Violation = Violation(code: string, stage: ViolationStage)

  datatype AppError = PolicyError(violation: Violation) | OtherError(text: string)

  datatype RetryPolicy = RetryPolicy(attempts: nat, delay: nat)

  datatype Resolution = ByPolicy(violation: Violation) | ByRetry(policy: RetryPolicy)

  datatype Intent =
    | PreMarker(resolution: Resolution)
    | PostMarkerPolicy(violation: Violation)
    | PostMarkerExecutionUnknown
    | PendingMarkerPolicy(violation: Violation)

  predicate AfterMarker(stage: ViolationStage) {
    stage.AtPostMarker? || stage.AtDispatched? || stage.AtFinalized?
  }

  function IntentFor(source: AppError, retry: RetryPolicy): Intent {
    match source
    case PolicyError(violation) =>
      if AfterMarker(violation.stage) then PostMarkerPolicy(violation) else PreMarker(ByPolicy(violation))
    case OtherError(_) => PreMarker(ByRetry(retry))
  }

  function SpawnIntentFor(source: AppError, retry: RetryPolicy): Intent {
    if source.PolicyError? && AfterMarker(source.violation.stage) then PendingMarkerPolicy(source.violation)
    else IntentFor(source, retry)
  }

  predicate IsPostMarker(intent: Intent) {
    !intent.PreMarker?
  }

  /** Only a failure without a policy violation may be retried. */
  predicate MayRetry(intent: Intent) {
    intent.PreMarker? && intent.resolution.ByRetry?
  }

  /** The last call of a finalization; a pending marker's evidence is recorded before it. */
  function FinalCall(intent: Intent): Call {
    match intent
    case PreMarker(resolution) => FailBeforeGate(resolution.ByRetry?)
    case PostMarkerPolicy(_) => FinishAfterMarkerPolicy
    case PostMarkerExecutionUnknown => FinishAfterMarker
    case PendingMarkerPolicy(_) => FinishPendingMarker
  }

  predicate BeforeMarker(violation: Violation) {
    violation.stage in {AtStartup, AtPreBinding, AtRunBoundPreMarker, AtNativeGate}
  }

  /**
   How a failed launch is finalized: a violation from the marker on is recorded as one after the marker, any other
   failure before the gate, where only a failure without a violation may be retried. While the spawn itself is
   pending, a violation from the marker on is recorded with the marker's evidence.
   */
  lemma FinalCallMeans(source: AppError, retry: RetryPolicy)
    ensures FinalCall(IntentFor(source, retry))
            == if source.PolicyError? && !BeforeMarker(source.violation) then FinishAfterMarkerPolicy
               else FailBeforeGate(source.OtherError?)
    ensures FinalCall(SpawnIntentFor(source, retry))
            == if source.PolicyError? && !BeforeMarker(source.violation) then FinishPendingMarker
               else FailBeforeGate(source.OtherError?)
    ensures FinalCall(PostMarkerExecutionUnknown) == FinishAfterMarker
  {
  }

  /** The run counts as launched exactly when its failure is a violation from the marker on. */
  lemma PostMarkerMeans(source: AppError, retry: RetryPolicy)
    ensures IsPostMarker(IntentFor(source, retry)) <==> source.PolicyError? && !BeforeMarker(source.violation)
    ensures IsPostMarker(SpawnIntentFor(source, retry)) <==> source.PolicyError? && !BeforeMarker(source.violation)
    ensures MayRetry(IntentFor(source, retry)) <==> source.OtherError?
    ensures MayRetry(SpawnIntentFor(source, retry)) <==> source.OtherError?
    ensures IsPostMarker(PostMarkerExecutionUnknown) && !MayRetry(PostMarkerExecutionUnknown)
  {
  }

  // ---------------------------------------------------------------- the grammar

  datatype Kind = LiveChild | RetainedTemp | PendingFinalization | PendingMarker

  /** These kinds own the private directory. */
  predicate Owns(kind: Kind) {
    kind.LiveChild? || kind.RetainedTemp?
  }

  predicate FinalizationCall(e: Event) {
    e.Asked? && (|| e.call.FailEditorLaunch? || e.call.RecordAuthority? || e.call.FailResearchLaunch?
                 || e.call.FailDecisionLaunch? || e.call.RecordMarkerEvidence? || IsFinal(e))
  }

  predicate IsFinal(e: Event) {
    e.Asked? && (|| e.call.FailBeforeGate? || e.call.FinishAfterMarkerPolicy? || e.call.FinishAfterMarker?
                 || e.call.FinishPendingMarker?)
  }

  datatype Phase = Alive | Open | Settled | Free | Bad

  function Next(owns: bool, p: Phase, e: Event): Phase {
    match p
    case Alive => if e == Terminated then Open else Bad
    case Open =>
      if owns && IsFinal(e) && e.ok then Settled
      else if FinalizationCall(e) then Open
      else if !owns && e.Asked? && e.call.MarkCleaned? then Open
      else Bad
    case Settled => if e == Released then Free else if CleanupEvent(e) then Settled else Bad
    case Free => if CleanupEvent(e) then Free else Bad
    case Bad => Bad
  }

  function Step(owns: bool): (Phase, Event) -> Phase {
    (p, e) => Next(owns, p, e)
  }

  function Rank(): Phase -> nat {
    (p: Phase) => match p case Alive => 0 case Open => 1 case Settled => 2 case Free => 3 case Bad => 4
  }

  lemma PhasesClimb(owns: bool)
    ensures Climbs(Step(owns), Rank())
  {
  }

  lemma MetAt(owns: bool, start: Phase, trace: seq<Event>, k: nat) returns (p: Phase)
    requires After(Step(owns), start, trace) != Bad && k < |trace|
    ensures p == After(Step(owns), start, trace[..k]) && Next(owns, p, trace[k]) != Bad
    ensures k == 0 ==> p == start
    ensures Next(owns, p, trace[k]) == After(Step(owns), start, trace[..k + 1])
  {
    PhasesClimb(owns);
    Met(Step(owns), start, Rank(), trace, k);
    p := After(Step(owns), start, trace[..k]);
  }

  /** A live child is terminated first, and once. */
  lemma TerminatedFirst(trace: seq<Event>, k: nat)
    requires After(Step(true), Alive, trace) != Bad && k < |trace|
    ensures trace[k] == Terminated <==> k == 0
  {
    var p := MetAt(true, Alive, trace, k);
    if k > 0 {
      var first := MetAt(true, Alive, trace, 0);
      MetInOrder(Step(true), Alive, Rank(), trace, 0, k);
    }
  }

  /** A run that owns its directory is finalized once: after a final call that succeeds only its cleanup goes on. */
  lemma FinalizedOnce(start: Phase, trace: seq<Event>, j: nat, k: nat)
    requires After(Step(true), start, trace) != Bad && j < k < |trace| && IsFinal(trace[j]) && trace[j].ok
    ensures CleanupEvent(trace[k])
  {
    var p := MetAt(true, start, trace, j);
    var q := MetAt(true, start, trace, k);
    MetInOrder(Step(true), start, Rank(), trace, j, k);
  }

  /** Its directory is cleaned, and released, only after a final call has succeeded. */
  lemma CleanupNeedsFinalization(start: Phase, trace: seq<Event>, k: nat) returns (j: nat)
    requires start.Alive? || start.Open?
    requires After(Step(true), start, trace) != Bad && k < |trace| && CleanupEvent(trace[k])
    ensures j < k && IsFinal(trace[j]) && trace[j].ok
  {
    var p := MetAt(true, start, trace, k);
    j := ReachedBy(Step(true), start, Rank(), trace[..k], 2);
    var q := MetAt(true, start, trace, j);
    assert trace[..k][..j] == trace[..j];
  }

  /** All of these calls have succeeded. */
  ghost predicate AllDone(needs: set<Call>, trace: seq<Event>) {
    forall c :: c in needs ==> Asked(c, true) in trace
  }

  /** Every final call is the given one, and is asked for only after the calls that it needs have succeeded. */
  ghost predicate InOrder(needs: set<Call>, final: Call, trace: seq<Event>) {
    trace == []
    || (var front, last := trace[..|trace| - 1], trace[|trace| - 1];
        InOrder(needs, final, front) && (IsFinal(last) ==> last.call == final && AllDone(needs, front)))
  }

  lemma {:induction false} FinalComesAfterItsNeeds(needs: set<Call>, final: Call, trace: seq<Event>, k: nat)
    requires InOrder(needs, final, trace) && k < |trace| && IsFinal(trace[k])
    ensures trace[k].call == final && forall c :: c in needs ==> Asked(c, true) in trace[..k]
  {
    var front := trace[..|trace| - 1];
    if k < |front| {
      FinalComesAfterItsNeeds(needs, final, front, k);
      assert front[..k] == trace[..k];
    }
  }

  // ---------------------------------------------------------------- the handle

  datatype Research = Research(freshLaunch: bool, hasIdentity: bool)

  datatype RetryAnswers = RetryAnswers(terminateOk: bool, editorOk: bool, storeOpens: bool, authorityOk: bool,
                                       researchOk: bool, decisionOk: bool, evidenceOk: bool, finalOk: bool,
                                       checkBefore: bool, cleanOk: bool, checkAfter: bool, markOk: bool)

  class BoundCleanupHandle {
    const kind: Kind
    const intent: Intent
    const decisionFailure: bool
    const research: Option<Research>
    const identity: bool
    var editorFailure: bool
    var terminated: bool
    var finalized: bool
    var retained: bool
    var researchPersisted: bool
    var authorityPersisted: bool
    ghost const editorOwed: bool
    ghost const researchOwed: bool
    ghost const start: Phase
    ghost var trace: seq<Event>

    ghost function Phase(): Phase
      reads this
    {
      if !Owns(kind) then Open
      else if !retained then Free
      else if finalized then Settled
      else if terminated then Open
      else Alive
    }

    /** What has to succeed before the final call is asked for. */
    ghost function Needs(): set<Call> {
      (if editorOwed then {FailEditorLaunch} else {})
      + (if identity then {RecordAuthority} else {})
      + (if research.Some? && researchOwed then {FailResearchLaunch(research.value.freshLaunch)} else {})
      + (if decisionFailure then {FailDecisionLaunch} else {})
      + (if intent.PendingMarkerPolicy? then {RecordMarkerEvidence} else {})
    }

    ghost predicate Valid()
      reads this
    {
      && After(Step(Owns(kind)), start, trace) == Phase()
      && InOrder(Needs(), FinalCall(intent), trace)
      && (start.Open? || (start.Alive? && kind.LiveChild?)) && identity == Identified(research)
      && (!Owns(kind) || kind.RetainedTemp? ==> terminated)
      && (!Owns(kind) ==> retained && !finalized)
      && (!retained ==> finalized) && (finalized ==> terminated)
      && (finalized ==> !editorFailure && Asked(FinalCall(intent), true) in trace)
      && (finalized && research.Some? ==> researchPersisted && authorityPersisted == identity)
      && (editorFailure ==> editorOwed)
      && (editorOwed && !editorFailure ==> Asked(FailEditorLaunch, true) in trace)
      && (authorityPersisted ==> identity && Asked(RecordAuthority, true) in trace)
      && (researchPersisted ==> research.Some?)
      && (researchPersisted && researchOwed ==> Asked(FailResearchLaunch(research.value.freshLaunch), true) in trace)
      && (!retained ==> Asked(CleanTemp, true) in trace && (identity ==> Asked(MarkCleaned, true) in trace))
    }

    /** Once a final call has been asked for, everything that it needs has been done. */
    lemma NeedsAreDone()
      requires Valid() && Asked(FinalCall(intent), true) in trace
      ensures AllDone(Needs(), trace)
    {
      var k :| 0 <= k < |trace| && trace[k] == Asked(FinalCall(intent), true);
      FinalComesAfterItsNeeds(Needs(), FinalCall(intent), trace, k);
      forall c | c in Needs()
        ensures Asked(c, true) in trace
      {
        assert Asked(c, true) in trace[..k];
      }
    }

    /** What a retry never undoes. */
    twostate predicate Onward()
      reads this
    {
      && old(trace) <= trace
      && (old(terminated) ==> terminated) && (old(finalized) ==> finalized) && (old(!retained) ==> !retained)
      && (old(!editorFailure) ==> !editorFailure)
      && (old(researchPersisted) ==> researchPersisted) && (old(authorityPersisted) ==> authorityPersisted)
    }

    /** A handle takes over what is still owed; a review that has been failed already is not owed. */
    constructor (kind: Kind, intent: Intent, decisionFailure: bool, research: Option<Research>,
                 researchPersisted: bool, editorFailure: bool, terminated: bool)
      requires researchPersisted ==> research.Some?
      ensures Valid() && trace == [] && retained && !finalized
      ensures this.kind == kind && this.intent == intent && this.decisionFailure == decisionFailure
      ensures this.research == research && this.editorFailure == editorFailure == editorOwed
      ensures this.researchPersisted == researchPersisted == !researchOwed && !authorityPersisted
      ensures this.terminated == (kind.LiveChild? ==> terminated)
    {
      this.kind, this.intent, this.decisionFailure, this.research := kind, intent, decisionFailure, research;
      identity := Identified(research);
      this.editorFailure, editorOwed := editorFailure, editorFailure;
      this.researchPersisted, researchOwed := researchPersisted, !researchPersisted;
      this.terminated, finalized, retained := kind.LiveChild? ==> terminated, false, true;
      authorityPersisted, trace := false, [];
      start := if kind.LiveChild? && !terminated then Alive else Open;
    }

    ghost method Note(e: Event)
      modifies this`trace
      ensures trace == old(trace) + [e]
      ensures After(Step(Owns(kind)), start, trace)
              == Next(Owns(kind), After(Step(Owns(kind)), start, old(trace)), e)
      ensures e in trace && forall x :: x in old(trace) ==> x in trace
      ensures InOrder(Needs(), FinalCall(intent), trace)
              <==> InOrder(Needs(), FinalCall(intent), old(trace))
                   && (IsFinal(e) ==> e.call == FinalCall(intent) && AllDone(Needs(), old(trace)))
    {
      AfterSnoc(Step(Owns(kind)), start, trace, e);
      trace := trace + [e];
      assert trace[..|trace| - 1] == old(trace);
    }

    /** Finalization goes on while it is not done; a kind that owns nothing is finalized by every retry. */
    predicate NeedsFinalization()
      reads this
    {
      !Owns(kind) || !finalized
    }

    /** The call may be made now: one before the final call, or of the cleanup of a finalized run. */
    ghost predicate Admits(call: Call)
      reads this
    {
      var e := Asked(call, true);
      if Owns(kind) && finalized then CleanupEvent(e)
      else terminated && ((FinalizationCall(e) && !IsFinal(e)) || (!Owns(kind) && call.MarkCleaned?))
    }

    method AskFor(ask: Ask) returns (ok: bool)
      requires Valid() && (ask.due ==> Admits(ask.call))
      modifies this`trace
      ensures Valid() && trace == old(trace) + Due(ask) && ok == Passes(ask)
      ensures forall x :: x in old(trace) ==> x in trace
      ensures ask.due ==> Asked(ask.call, ask.ok) in trace
    {
      if ask.due {
        Note(Asked(ask.call, ask.ok));
      }
      ok := Passes(ask);
    }

    // -------------------------------------------------------------- the retry

    method PersistEditorFailure(a: RetryAnswers) returns (ok: bool)
      requires Valid() && terminated
      modifies this`trace, this`editorFailure
      ensures Valid() && old(trace) <= trace && ok == PersistsEditor(old(editorFailure), a)
      ensures editorFailure == (old(editorFailure) && !ok)
    {
      if !editorFailure {
        return true;
      }
      ok := AskFor(Ask(true, FailEditorLaunch, a.editorOk));
      if ok {
        editorFailure := false;
      }
    }

    method PersistAuthority(a: RetryAnswers) returns (ok: bool)
      requires Valid() && terminated && NeedsFinalization()
      modifies this`trace, this`authorityPersisted
      ensures Valid() && old(trace) <= trace
      ensures ok == (identity && !old(authorityPersisted) ==> a.authorityOk)
      ensures authorityPersisted == (if ok then identity else old(authorityPersisted))
    {
      if !identity || authorityPersisted {
        return true;
      }
      ok := AskFor(Ask(true, RecordAuthority, a.authorityOk));
      authorityPersisted := ok;
    }

    method PersistReviewFailure(a: RetryAnswers) returns (ok: bool)
      requires Valid() && terminated && NeedsFinalization()
      modifies this`trace, this`researchPersisted
      ensures Valid() && old(trace) <= trace
      ensures ok == (research.Some? && !old(researchPersisted) ==> a.researchOk)
      ensures researchPersisted == (if ok then research.Some? else old(researchPersisted))
    {
      if research.None? || researchPersisted {
        return true;
      }
      ok := AskFor(Ask(true, FailResearchLaunch(research.value.freshLaunch), a.researchOk));
      researchPersisted := ok;
    }

    /** The recovery authority is recorded before the review is failed. */
    method PersistResearchFailure(a: RetryAnswers) returns (ok: bool)
      requires Valid() && terminated && NeedsFinalization()
      modifies this`trace, this`authorityPersisted, this`researchPersisted
      ensures Valid() && old(trace) <= trace
      ensures ok == PersistsResearch(research, old(authorityPersisted), old(researchPersisted), a)
      ensures ok ==> authorityPersisted == identity && researchPersisted == research.Some?
      ensures old(authorityPersisted) ==> authorityPersisted
      ensures old(researchPersisted) ==> researchPersisted
    {
      ok := PersistAuthority(a);
      if ok {
        ok := PersistReviewFailure(a);
      }
    }

    /** What the final call waits for, but for the evidence of a marker. */
    ghost predicate RoleFailed()
      reads this
    {
      && !editorFailure && authorityPersisted == identity && researchPersisted == research.Some?
      && (decisionFailure ==> Asked(FailDecisionLaunch, true) in trace)
    }

    lemma NothingIsOwed()
      requires Valid() && RoleFailed()
      requires intent.PendingMarkerPolicy? ==> Asked(RecordMarkerEvidence, true) in trace
      ensures AllDone(Needs(), trace)
    {
    }

    method FinalizeIntent(a: RetryAnswers) returns (ok: bool)
      requires Valid() && terminated && NeedsFinalization() && RoleFailed()
      modifies this`trace, this`finalized
      ensures Valid() && old(trace) <= trace && finalized == (Owns(kind) && ok)
      ensures ok == FinalizesIntent(intent, a)
      ensures ok ==> Asked(FinalCall(intent), true) in trace
    {
      ok := AskFor(Ask(intent.PendingMarkerPolicy?, RecordMarkerEvidence, a.evidenceOk));
      if ok {
        ok := AskFinal(a.finalOk);
      }
    }

    /** The final call; once it has succeeded, a run that owns its directory is finalized. */
    method AskFinal(finalOk: bool) returns (ok: bool)
      requires Valid() && terminated && NeedsFinalization() && RoleFailed()
      requires intent.PendingMarkerPolicy? ==> Asked(RecordMarkerEvidence, true) in trace
      modifies this`trace, this`finalized
      ensures Valid() && trace == old(trace) + [Asked(FinalCall(intent), finalOk)]
      ensures ok == finalOk && finalized == (Owns(kind) && ok)
    {
      NothingIsOwed();
      Note(Asked(FinalCall(intent), finalOk));
      ok := finalOk;
      finalized := Owns(kind) && ok;
    }

    /** The decision's failure carries no mark of its own, so every finalization asks for it again. */
    method PersistDecisionFailure(a: RetryAnswers) returns (ok: bool)
      requires Valid() && terminated && NeedsFinalization()
      modifies this`trace
      ensures Valid() && old(trace) <= trace && ok == PersistsDecision(decisionFailure, a)
      ensures ok && decisionFailure ==> Asked(FailDecisionLaunch, true) in trace
    {
      ok := AskFor(Ask(decisionFailure, FailDecisionLaunch, a.decisionOk));
    }

    /** The run is failed for its role. */
    method PersistRoleFailure(a: RetryAnswers) returns (ok: bool)
      requires Valid() && terminated && NeedsFinalization() && !editorFailure
      modifies this`trace, this`authorityPersisted, this`researchPersisted
      ensures Valid() && old(trace) <= trace
      ensures ok == (PersistsResearch(research, old(authorityPersisted), old(researchPersisted), a)
                     && PersistsDecision(decisionFailure, a))
      ensures ok ==> RoleFailed()
      ensures old(authorityPersisted) ==> authorityPersisted
      ensures old(researchPersisted) ==> researchPersisted
    {
      ok := PersistResearchFailure(a);
      if ok {
        ok := PersistDecisionFailure(a);
      }
    }

    method RetryFinalization(a: RetryAnswers) returns (ok: bool)
      requires Valid() && terminated && NeedsFinalization() && !editorFailure
      modifies this`trace, this`authorityPersisted, this`researchPersisted, this`finalized
      ensures Valid() && old(trace) <= trace && finalized == (Owns(kind) && ok)
      ensures ok == Finalizes(intent, decisionFailure, research, old(authorityPersisted), old(researchPersisted), a)
      ensures ok ==> authorityPersisted == identity && Asked(FinalCall(intent), true) in trace
      ensures old(authorityPersisted) ==> authorityPersisted
      ensures old(researchPersisted) ==> researchPersisted
    {
      if !a.storeOpens {
        return false;
      }
      ok := PersistRoleFailure(a);
      if ok {
        ok := FinalizeIntent(a);
      }
    }

    /** Whatever is left of the finalization is done, and nothing when it is complete. */
    method EnsureFinalized(a: RetryAnswers) returns (ok: bool)
      requires Valid() && terminated && !editorFailure
      modifies this`trace, this`authorityPersisted, this`researchPersisted, this`finalized
      ensures Valid() && old(trace) <= trace && finalized == (old(finalized) || (Owns(kind) && ok))
      ensures ok == FinalizesRest(kind, intent, decisionFailure, research, old(finalized), old(authorityPersisted),
                                  old(researchPersisted), a)
      ensures ok ==> (Owns(kind) ==> finalized) && authorityPersisted == identity
      ensures ok ==> Asked(FinalCall(intent), true) in trace
      ensures old(authorityPersisted) ==> authorityPersisted
      ensures old(researchPersisted) ==> researchPersisted
    {
      ok := true;
      if NeedsFinalization() {
        ok := RetryFinalization(a);
      }
    }

    /** The directory is emptied while it is retained; a research run checks it before and after. */
    method EmptyTemp(a: RetryAnswers) returns (ok: bool)
      requires Valid() && finalized && retained
      modifies this`trace
      ensures Valid() && old(trace) <= trace && ok == TempEmptied(research.Some?, a)
      ensures ok ==> Asked(CleanTemp, true) in trace
    {
      ok := AskFor(Ask(research.Some?, Revalidate, a.checkBefore));
      if ok {
        ok := AskFor(Ask(true, CleanTemp, a.cleanOk));
      }
      if ok {
        ok := AskFor(Ask(research.Some?, Revalidate, a.checkAfter));
      }
    }

    method RetryCleanup(a: RetryAnswers) returns (ok: bool)
      requires Valid() && terminated && (Owns(kind) ==> finalized) && authorityPersisted == identity
      modifies this`trace, this`retained
      ensures Valid() && old(trace) <= trace && ok == Cleans(kind, research, old(retained), a)
      ensures retained == (old(retained) && !(ok && Owns(kind)))
    {
      ok := true;
      if Owns(kind) && retained {
        ok := EmptyTemp(a);
      }
      if ok {
        ok := AskFor(Ask(identity, MarkCleaned, a.markOk));
      }
      if ok && Owns(kind) && retained {
        Note(Released);
        retained := false;
      }
    }

    method FinalizeAndClean(a: RetryAnswers) returns (ok: bool)
      requires Valid() && terminated && !editorFailure
      modifies this`trace, this`authorityPersisted, this`researchPersisted, this`finalized, this`retained
      ensures Valid() && Onward()
      ensures ok == (Cleans(kind, research, old(retained), a)
                     && FinalizesRest(kind, intent, decisionFailure, research, old(finalized),
                                      old(authorityPersisted), old(researchPersisted), a))
      ensures ok && Owns(kind) ==> finalized && !retained
      ensures ok ==> Asked(FinalCall(intent), true) in trace
    {
      ok := EnsureFinalized(a);
      if ok {
        ghost var before := trace;
        ok := RetryCleanup(a);
        assert forall x :: x in before ==> x in trace;
      }
    }

    method RetryFinalizationAndCleanup(a: RetryAnswers) returns (ok: bool)
      requires Valid() && terminated
      modifies this
      ensures Valid() && Onward()
      ensures ok == (PersistsEditor(old(editorFailure), a) && Cleans(kind, research, old(retained), a)
                     && FinalizesRest(kind, intent, decisionFailure, research, old(finalized),
                                      old(authorityPersisted), old(researchPersisted), a))
      ensures ok && Owns(kind) ==> finalized && !retained
      ensures ok ==> !editorFailure && Asked(FinalCall(intent), true) in trace && AllDone(Needs(), trace)
    {
      ok := PersistEditorFailure(a);
      if ok {
        ok := FinalizeAndClean(a);
      }
      if ok {
        NeedsAreDone();
      }
    }

    /** The daemon's retry: a live child is terminated first. */
    method Retry(a: RetryAnswers) returns (ok: bool)
      requires Valid()
      modifies this
      ensures Valid() && Onward()
      ensures ok == ((old(terminated) || a.terminateOk)
                     && PersistsEditor(old(editorFailure), a) && Cleans(kind, research, old(retained), a)
                     && FinalizesRest(kind, intent, decisionFailure, research, old(finalized),
                                      old(authorityPersisted), old(researchPersisted), a))
      ensures ok && Owns(kind) ==> finalized && !retained
      ensures ok ==> !editorFailure && Asked(FinalCall(intent), true) in trace && AllDone(Needs(), trace)
      ensures !old(terminated) && !a.terminateOk ==> unchanged(this)
      ensures !old(terminated) && terminated ==> Terminated in trace
    {
      if !terminated {
        if !a.terminateOk {
          return false;
        }
        EndChild();
      }
      ghost var before := trace;
      ok := RetryFinalizationAndCleanup(a);
      assert before <= trace;
    }

    method EndChild()
      requires Valid() && !terminated
      modifies this`trace, this`terminated
      ensures Valid() && terminated && trace == old(trace) + [Terminated]
    {
      Note(Terminated);
      terminated := true;
    }

    /** Any number of retries; the daemon drops the handle after the first that succeeds. */
    method RetryAll(answers: seq<RetryAnswers>) returns (done: bool)
      requires Valid()
      modifies this
      ensures Valid() && Onward()
      ensures done ==> !editorFailure && Asked(FinalCall(intent), true) in trace && AllDone(Needs(), trace)
      ensures done && Owns(kind) ==> finalized && !retained
      ensures (exists k :: 0 <= k < |answers| && NothingFails(answers[k])) ==> done
    {
      done := false;
      for k := 0 to |answers|
        invariant Valid() && Onward() && !done
        invariant forall i :: 0 <= i < k ==> !NothingFails(answers[i])
      {
        if NothingFails(answers[k]) {
          NothingFailsRecovers(kind, intent, decisionFailure, research, editorFailure, finalized, retained,
                               authorityPersisted, researchPersisted, answers[k]);
        }
        done := Retry(answers[k]);
        if done {
          return;
        }
      }
    }
  }

  predicate TempEmptied(research: bool, a: RetryAnswers) {
    a.cleanOk && (research ==> a.checkBefore && a.checkAfter)
  }

  predicate PersistsResearch(research: Option<Research>, authorityPersisted: bool, researchPersisted: bool,
                          a: RetryAnswers)
  {
    && (Identified(research) && !authorityPersisted ==> a.authorityOk)
    && (research.Some? && !researchPersisted ==> a.researchOk)
  }

  predicate PersistsDecision(decision: bool, a: RetryAnswers) {
    decision ==> a.decisionOk
  }

  predicate FinalizesIntent(intent: Intent, a: RetryAnswers) {
    (intent.PendingMarkerPolicy? ==> a.evidenceOk) && a.finalOk
  }

  predicate Finalizes(intent: Intent, decision: bool, research: Option<Research>, authorityPersisted: bool,
                      researchPersisted: bool, a: RetryAnswers)
  {
    && a.storeOpens && PersistsResearch(research, authorityPersisted, researchPersisted, a)
    && PersistsDecision(decision, a) && FinalizesIntent(intent, a)
  }

  predicate Cleans(kind: Kind, research: Option<Research>, retained: bool, a: RetryAnswers) {
    && (Owns(kind) && retained ==> TempEmptied(research.Some?, a))
    && (Identified(research) ==> a.markOk)
  }

  predicate FinalizesRest(kind: Kind, intent: Intent, decision: bool, research: Option<Research>, finalized: bool,
                          authorityPersisted: bool, researchPersisted: bool, a: RetryAnswers)
  {
    !Owns(kind) || !finalized ==> Finalizes(intent, decision, research, authorityPersisted, researchPersisted, a)
  }

  predicate PersistsEditor(editorFailure: bool, a: RetryAnswers) {
    editorFailure ==> a.editorOk
  }

  lemma NothingFailsRecovers(kind: Kind, intent: Intent, decision: bool, research: Option<Research>, editor: bool,
                             finalized: bool, retained: bool, authority: bool, review: bool, a: RetryAnswers)
    requires NothingFails(a)
    ensures PersistsEditor(editor, a) && Cleans(kind, research, retained, a) && a.terminateOk
    ensures FinalizesRest(kind, intent, decision, research, finalized, authority, review, a)
  {
  }

  predicate Identified(research: Option<Research>) {
    research.Some? && research.value.hasIdentity
  }

  predicate NothingFails(a: RetryAnswers) {
    a == RetryAnswers(true, true, true, true, true, true, true, true, true, true, true, true)
  }
}
