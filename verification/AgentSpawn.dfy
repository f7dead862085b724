/**
 The failure exits of a launch (`spawn_with_role` and the `resolve_*` helpers in `src/agent.rs`): whatever step
 fails after the run is inserted, what the error says about the run and what it hands over to be cleaned up.
 */
module AgentSpawn {
  import opened Wrappers
  import opened AgentTrace
  import opened BoundCleanup
  import opened Effects

  datatype Stage = PreBinding | RunBoundPreMarker(resolved: bool) | PostMarker(resolved: bool)

  datatype SpawnResult = Spawned | Failed(stage: Stage, cleanup: Option<BoundCleanupHandle>)

  /** How far a launch came before it ended. */
  datatype Reached = NotInserted | Inserted | Bound | TempHeld | ChildLive | MarkerAuthorized

  /**
   What the steps of a launch answer, each with its error if it fails. `utf8` says whether the program's path is
   text, and `early` whether all other checks before the insertion pass.
   */
  datatype Launch = Launch(early: bool, utf8: bool, inserted: bool,
                           bind: Option<AppError>, projectRoot: Option<AppError>, serviceRoot: Option<AppError>,
                           temp: Option<AppError>, identity: Option<AppError>, authority: Option<AppError>,
                           schema: Option<AppError>, target: Option<AppError>, command: Option<AppError>,
                           environment: Option<AppError>, lineage: Option<AppError>, spawn: Option<AppError>,
                           running: Option<AppError>, gate: Option<AppError>, current: Option<AppError>,
                           marker: Option<AppError>, dispatched: Option<AppError>)

  /** What the resolution of a failure answers. */
  datatype Resolve = Resolve(decisionOk: bool, researchOk: bool, editorOk: bool, finalOk: bool, retry: RetryAnswers,
                             terminated: bool, uncertain: bool)

  function StageFor(intent: Intent, resolved: bool): Stage {
    if IsPostMarker(intent) then PostMarker(resolved) else RunBoundPreMarker(resolved)
  }

  predicate Resolved(stage: Stage) {
    !stage.PreBinding? && stage.resolved
  }

  /** The first of the steps that failed. */
  function FirstOf(first: Option<AppError>, second: Option<AppError>): Option<AppError> {
    if first.Some? then first else second
  }

  // ---------------------------------------------------------------- the resolutions

  /** `resolve_bound_failure`: the run is finalized at once and nothing is handed over. */
  function ResolveBound(source: AppError, finalOk: bool): Stage {
    if source.PolicyError? && AfterMarker(source.violation.stage) then PostMarker(finalOk)
    else RunBoundPreMarker(finalOk)
  }

  lemma BoundStageIsTheIntents(source: AppError, retry: RetryPolicy, finalOk: bool)
    ensures ResolveBound(source, finalOk) == StageFor(IntentFor(source, retry), finalOk)
  {
  }

  /** What a role owes when its launch has failed: its own failure, and the authority of an identified directory. */
  function Owed(decision: bool, research: Option<Research>, editor: bool): set<Call> {
    (if decision then {FailDecisionLaunch} else {})
    + (if research.Some? then {FailResearchLaunch(research.value.freshLaunch)} else {})
    + (if research.Some? && research.value.hasIdentity then {RecordAuthority} else {})
    + (if editor then {FailEditorLaunch} else {})
  }

  /** Everything owed has succeeded already, or is owed by the handle that is handed over, which owes nothing else. */
  ghost predicate Covered(owed: set<Call>, asked: seq<Event>, error: SpawnResult) {
    && (forall c :: c in owed ==>
          Asked(c, true) in asked || (error.Failed? && error.cleanup.Some? && c in error.cleanup.value.Needs()))
    && (error.Failed? && error.cleanup.Some? ==>
          forall c :: c in error.cleanup.value.Needs() ==> c in owed || c == RecordMarkerEvidence)
  }

  /** Nothing that has succeeded is owed again. */
  ghost predicate OwesTheRest(asked: seq<Event>, error: SpawnResult) {
    error.Failed? && error.cleanup.Some? ==>
      forall c :: c in error.cleanup.value.Needs() ==> Asked(c, true) !in asked
  }

  /** The handle that is handed over finishes the run in this way. */
  ghost predicate HandsOverAs(error: SpawnResult, intent: Intent, owns: bool)
    reads if error.Failed? && error.cleanup.Some? then {error.cleanup.value} else {}
  {
    error.Failed? && error.cleanup.Some? ==>
      error.cleanup.value.Valid() && error.cleanup.value.intent == intent && Owns(error.cleanup.value.kind) == owns
  }

  /** A failed bind did not give the decision's attempt to this run, so only the run itself is handed over. */
  method ResolveUnownedDecisionBind(source: AppError, retry: RetryPolicy, r: Resolve) returns (error: SpawnResult)
    ensures error.Failed? && error.stage == StageFor(IntentFor(source, retry), r.finalOk)
    ensures error.cleanup.Some? <==> !r.finalOk
    ensures error.cleanup.Some? ==> HandsOver(error.cleanup.value, PendingFinalization, IntentFor(source, retry))
    ensures Covered({}, [], error)
  {
    BoundStageIsTheIntents(source, retry, r.finalOk);
    var stage := ResolveBound(source, r.finalOk);
    if stage.resolved {
      return SpawnResult.Failed(stage, None);
    }
    var h := new BoundCleanupHandle(PendingFinalization, IntentFor(source, retry), false, None, false, false, true);
    error := SpawnResult.Failed(stage, Some(h));
  }

  /** The handle is ready for its first retry, with this kind and intent. */
  ghost predicate HandsOver(h: BoundCleanupHandle, kind: Kind, intent: Intent)
    reads h
  {
    h.Valid() && h.kind == kind && h.intent == intent && h.retained
  }

  /** Nothing but the run itself is owed, so that a failed finalization is handed over to nobody. */
  predicate OwesOnlyTheRun(research: Option<Research>, editor: bool) {
    research.None? && !editor
  }

  /** The role's failure is persisted before the run is finalized. */
  predicate RolePersisted(decision: bool, research: Option<Research>, editor: bool, r: Resolve) {
    (decision ==> r.decisionOk) && (research.Some? ==> r.researchOk) && (editor ==> r.editorOk)
  }

  /** A run has one role, and before its directory exists no identity of it. */
  predicate OneRole(decision: bool, research: Option<Research>, editor: bool) {
    && (research.Some? ==> !research.value.hasIdentity && !decision && !editor)
    && !(decision && editor)
  }

  /** The calls that the role's failure takes before the directory exists, up to the first that fails. */
  function RoleCalls(decision: bool, research: Option<Research>, editor: bool, r: Resolve): seq<Event> {
    PlanOf(Ask(decision, FailDecisionLaunch, r.decisionOk),
           Ask(research.Some?, FailResearchLaunch(research.Some? && research.value.freshLaunch), r.researchOk),
           Ask(editor, FailEditorLaunch, r.editorOk))
  }

  /** The directory does not exist yet, so no authority is owed; a failure that cannot be written is handed over. */
  method ResolveBoundRole(decision: bool, research: Option<Research>, editor: bool, source: AppError,
                          retry: RetryPolicy, r: Resolve)
    returns (error: SpawnResult, ghost asked: seq<Event>)
    ensures error.Failed?
    ensures error.stage == StageFor(IntentFor(source, retry), RolePersisted(decision, research, editor, r) && r.finalOk)
    ensures error.cleanup.None?
            <==> RolePersisted(decision, research, editor, r) && (r.finalOk || OwesOnlyTheRun(research, editor))
    ensures HandsOverAs(error, IntentFor(source, retry), false)
    ensures error.cleanup.Some? ==> error.cleanup.value.decisionFailure == (decision && !r.decisionOk)
    ensures asked == Performed(RoleCalls(decision, research, editor, r))
    ensures OneRole(decision, research, editor) ==>
              Covered(Owed(decision, research, editor), asked, error) && OwesTheRest(asked, error)
  {
    var intent := IntentFor(source, retry);
    BoundStageIsTheIntents(source, retry, r.finalOk);
    asked := Performed(RoleCalls(decision, research, editor, r));
    if OneRole(decision, research, editor) {
      RoleCallsMeet(decision, research, editor, r);
    }
    if decision && !r.decisionOk {
      var h := new BoundCleanupHandle(PendingMarker, intent, true, None, false, false, true);
      return SpawnResult.Failed(StageFor(intent, false), Some(h)), asked;
    }
    if research.Some? && !r.researchOk {
      var h := new BoundCleanupHandle(PendingFinalization, intent, false, research, false, false, true);
      return SpawnResult.Failed(StageFor(intent, false), Some(h)), asked;
    }
    if editor && !r.editorOk {
      var h := new BoundCleanupHandle(PendingFinalization, intent, false, None, false, true, true);
      return SpawnResult.Failed(StageFor(intent, false), Some(h)), asked;
    }
    var stage := ResolveBound(source, r.finalOk);
    if !stage.resolved && (editor || research.Some?) {
      var h := new BoundCleanupHandle(PendingFinalization, intent, false, research, research.Some?, false, true);
      return SpawnResult.Failed(stage, Some(h)), asked;
    }
    error := SpawnResult.Failed(stage, None);
  }

  /** The role's one call is in its plan, with its answer. */
  lemma RoleCallsMeet(decision: bool, research: Option<Research>, editor: bool, r: Resolve)
    requires OneRole(decision, research, editor)
    ensures forall c :: c in Owed(decision, research, editor) ==>
              (Asked(c, true) in Performed(RoleCalls(decision, research, editor, r))
               <==> RolePersisted(decision, research, editor, r))
  {
    var first := Ask(decision, FailDecisionLaunch, r.decisionOk);
    var second := Ask(research.Some?, FailResearchLaunch(research.Some? && research.value.freshLaunch), r.researchOk);
    var third := Ask(editor, FailEditorLaunch, r.editorOk);
    forall c | c in Owed(decision, research, editor)
      ensures Asked(c, true) in Performed(RoleCalls(decision, research, editor, r))
              <==> RolePersisted(decision, research, editor, r)
    {
      InPlan(first, second, third, Asked(c, true));
    }
  }

  /** Everything that a new handle owes succeeds; without a deadline the store needs no other connection. */
  predicate RecoversAtOnce(kind: Kind, intent: Intent, decision: bool, research: Option<Research>, editor: bool,
                           a: RetryAnswers)
  {
    var a := a.(storeOpens := true);
    && PersistsEditor(editor, a) && Cleans(kind, research, true, a)
    && FinalizesRest(kind, intent, decision, research, false, false, false, a)
  }

  /** The private directory is held: what its handle cannot finish at once is handed over with the handle. */
  method ResolveRetainedTemp(decision: bool, research: Option<Research>, editor: bool, intent: Intent, r: Resolve)
    returns (error: SpawnResult, ghost asked: seq<Event>)
    ensures error.Failed? && error.stage == StageFor(intent, Resolved(error.stage))
    ensures Resolved(error.stage) <==> RecoversAtOnce(RetainedTemp, intent, decision, research, editor, r.retry)
    ensures error.cleanup.None? <==> Resolved(error.stage)
    ensures HandsOverAs(error, intent, true)
    ensures error.cleanup.Some? ==> error.cleanup.value.kind == RetainedTemp
    ensures Resolved(error.stage) ==> Asked(FinalCall(intent), true) in asked
    ensures Covered(Owed(decision, research, editor), asked, error)
  {
    var h := new BoundCleanupHandle(RetainedTemp, intent, decision, research, false, editor, true);
    HandleOwes(h, decision, research, editor);
    var ok := h.RetryFinalizationAndCleanup(r.retry.(storeOpens := true));
    error := if ok then SpawnResult.Failed(StageFor(intent, true), None)
             else SpawnResult.Failed(StageFor(intent, false), Some(h));
    asked := h.trace;
  }

  /** What a new handle needs covers what the role owes. */
  lemma HandleOwes(h: BoundCleanupHandle, decision: bool, research: Option<Research>, editor: bool)
    requires h.Valid() && h.decisionFailure == decision && h.research == research
    requires h.editorOwed == editor && h.researchOwed
    ensures Owed(decision, research, editor) <= h.Needs()
    ensures forall c :: c in h.Needs() ==> c in Owed(decision, research, editor) || c == RecordMarkerEvidence
  {
  }

  /** Without a recorded authority nothing is tried now: the handle is handed over as it is. */
  method ResolveRecoveryAuthority(decision: bool, research: Option<Research>, source: AppError, retry: RetryPolicy)
    returns (error: SpawnResult)
    ensures error.Failed? && error.stage == RunBoundPreMarker(false) && error.cleanup.Some?
    ensures HandsOver(error.cleanup.value, RetainedTemp, IntentFor(source, retry))
    ensures HandsOverAs(error, IntentFor(source, retry), true)
    ensures Covered(Owed(decision, research, false), [], error)
  {
    var h := new BoundCleanupHandle(RetainedTemp, IntentFor(source, retry), decision, research, false, false, true);
    HandleOwes(h, decision, research, false);
    error := SpawnResult.Failed(RunBoundPreMarker(false), Some(h));
  }

  /** The child is live: it is ended and cleaned up now, unless its end is uncertain. */
  method ResolveLiveChild(decision: bool, research: Option<Research>, editor: bool, intent: Intent, r: Resolve)
    returns (error: SpawnResult, ghost asked: seq<Event>)
    ensures error.Failed? && error.stage == StageFor(intent, Resolved(error.stage))
    ensures Resolved(error.stage)
            <==> && !r.uncertain && (r.terminated || r.retry.terminateOk)
                 && RecoversAtOnce(LiveChild, intent, decision, research, editor, r.retry)
    ensures error.cleanup.None? <==> Resolved(error.stage)
    ensures HandsOverAs(error, intent, true)
    ensures error.cleanup.Some? ==>
              error.cleanup.value.kind == LiveChild
              && (error.cleanup.value.terminated ==> r.terminated || (!r.uncertain && Terminated in asked))
    ensures Resolved(error.stage) ==>
              Asked(FinalCall(intent), true) in asked && (r.terminated || Terminated in asked)
    ensures Covered(Owed(decision, research, editor), asked, error)
  {
    var h := new BoundCleanupHandle(LiveChild, intent, decision, research, false, editor, r.terminated);
    HandleOwes(h, decision, research, editor);
    if r.uncertain {
      return SpawnResult.Failed(StageFor(intent, false), Some(h)), [];
    }
    var ok := h.Retry(r.retry.(storeOpens := true));
    error := if ok then SpawnResult.Failed(StageFor(intent, true), None)
             else SpawnResult.Failed(StageFor(intent, false), Some(h));
    asked := h.trace;
  }

  // ---------------------------------------------------------------- the launch

  function ResearchOf(role: Role, hasIdentity: bool): Option<Research> {
    if role.Research? then Some(Research.Research(role.freshLaunch, hasIdentity)) else None
  }

  /** Only a custom editor's command is made of the program's path and the configured arguments. */
  predicate CustomEditor(role: Role) {
    role.Editor? && !role.builtIn
  }

  function SchemaError(role: Role, l: Launch): Option<AppError> {
    if role.Standard? then None else l.schema
  }

  function CommandError(role: Role, l: Launch): Option<AppError> {
    if CustomEditor(role) then None else l.command
  }

  /** What a launch of the role owes from this point on. */
  function OwedAt(role: Role, reached: Reached, identified: bool): set<Call> {
    match reached
    case NotInserted => {}
    case Inserted => if role.Editor? then {FailEditorLaunch} else {}
    case _ =>
      match role
      case Decision => {FailDecisionLaunch}
      case Research(freshLaunch) => {FailResearchLaunch(freshLaunch)} + if identified then {RecordAuthority} else {}
      case Editor(_, _) => {FailEditorLaunch}
      case Standard | Diagnosis => {}
  }

  lemma RoleOwes(role: Role, reached: Reached, identified: bool)
    requires !reached.NotInserted? && !reached.Inserted?
    ensures OwedAt(role, reached, identified)
            == Owed(role.Decision?, ResearchOf(role, identified), role.Editor?)
  {
  }

  /**
   One step of a launch: where it stands, whether it fails, and the intent that its failure has. A recovery authority
   that cannot be recorded is reported as before the marker, whatever its error.
   */
  datatype Step = Step(reached: Reached, failed: bool, intent: Intent, beforeMarker: bool)

  function StageOf(step: Step, resolved: bool): Stage {
    if step.beforeMarker then RunBoundPreMarker(resolved) else StageFor(step.intent, resolved)
  }

  function StepFor(reached: Reached, error: Option<AppError>, retry: RetryPolicy): Step {
    Step(reached, error.Some?, if error.Some? then IntentFor(error.value, retry) else PostMarkerExecutionUnknown, false)
  }

  function SpawnStep(error: Option<AppError>, retry: RetryPolicy): Step {
    Step(TempHeld, error.Some?, if error.Some? then SpawnIntentFor(error.value, retry) else PostMarkerExecutionUnknown,
         false)
  }

  function AuthorityStep(error: Option<AppError>, retry: RetryPolicy): Step {
    StepFor(TempHeld, error, retry).(beforeMarker := true)
  }

  /** The steps after the insertion, in their order. */
  function Steps(role: Role, retry: RetryPolicy, l: Launch): seq<Step> {
    BindSteps(role, retry, l) + RootSteps(retry, l) + RecoverySteps(role, retry, l)
    + PrepareSteps(role, retry, l) + ReleaseSteps(retry, l)
  }

  function BindSteps(role: Role, retry: RetryPolicy, l: Launch): seq<Step> {
    if role.Standard? || role.Diagnosis? then [] else [StepFor(Inserted, l.bind, retry)]
  }

  function RootSteps(retry: RetryPolicy, l: Launch): seq<Step> {
    [StepFor(Bound, l.projectRoot, retry), StepFor(Bound, l.serviceRoot, retry), StepFor(Bound, l.temp, retry)]
  }

  function RecoverySteps(role: Role, retry: RetryPolicy, l: Launch): seq<Step> {
    if role.Research? then [StepFor(TempHeld, l.identity, retry), AuthorityStep(l.authority, retry)] else []
  }

  function PrepareSteps(role: Role, retry: RetryPolicy, l: Launch): seq<Step> {
    (if role.Standard? then [] else [StepFor(TempHeld, l.schema, retry)])
    + [StepFor(TempHeld, l.target, retry)]
    + (if role.Editor? && !role.builtIn then [] else [StepFor(TempHeld, l.command, retry)])
    + [StepFor(TempHeld, l.environment, retry), StepFor(TempHeld, l.lineage, retry), SpawnStep(l.spawn, retry)]
  }

  function ReleaseSteps(retry: RetryPolicy, l: Launch): seq<Step> {
    [StepFor(ChildLive, l.running, retry), StepFor(ChildLive, l.gate, retry), StepFor(ChildLive, l.current, retry),
     StepFor(ChildLive, l.marker, retry), Step(MarkerAuthorized, l.dispatched.Some?, PostMarkerExecutionUnknown, false)]
  }

  /** The first of them that fails. */
  function FirstFailure(steps: seq<Step>): Option<Step> {
    if steps == [] then None
    else if steps[0].failed then Some(steps[0])
    else FirstFailure(steps[1..])
  }

  lemma {:induction false} FirstOfTwo(a: seq<Step>, b: seq<Step>)
    ensures FirstFailure(a + b) == if FirstFailure(a).Some? then FirstFailure(a) else FirstFailure(b)
  {
    if a == [] {
      assert a + b == b;
    } else {
      assert (a + b)[1..] == a[1..] + b;
      FirstOfTwo(a[1..], b);
    }
  }

  /** A failure stands for the first of these steps that fails, and hands over its intent with everything owed. */
  ghost predicate EndsAt(error: SpawnResult, steps: seq<Step>, owns: bool)
    reads if error.Failed? && error.cleanup.Some? then {error.cleanup.value} else {}
  {
    && (error.Failed? <==> FirstFailure(steps).Some?)
    && (error.Failed? ==>
          && error.stage == StageOf(FirstFailure(steps).value, Resolved(error.stage))
          && HandsOverAs(error, FirstFailure(steps).value.intent, owns))
  }

  lemma OneStep(a: Step)
    ensures FirstFailure([a]) == if a.failed then Some(a) else None
    ensures FirstFailure([]) == None
  {
    assert [a][1..] == [];
  }

  lemma FirstOfTwoSteps(a: Step, b: Step)
    ensures FirstFailure([a, b]) == if a.failed then Some(a) else if b.failed then Some(b) else None
  {
    OneStep(a);
    OneStep(b);
    FirstOfTwo([a], [b]);
    assert [a] + [b] == [a, b];
  }

  lemma FirstOfThree(a: Step, b: Step, c: Step)
    ensures FirstFailure([a, b, c])
            == if a.failed then Some(a) else if b.failed then Some(b) else if c.failed then Some(c) else None
  {
    OneStep(a);
    FirstOfTwoSteps(b, c);
    FirstOfTwo([a], [b, c]);
    assert [a] + [b, c] == [a, b, c];
  }

  /** The bind of a role's own row; a research run and an editor hand nothing of it over. */
  method BindRole(role: Role, retry: RetryPolicy, l: Launch, r: Resolve)
    returns (error: SpawnResult, ghost asked: seq<Event>)
    ensures EndsAt(error, BindSteps(role, retry, l), false)
    ensures error.Failed? ==> !error.stage.PreBinding?
    ensures error.Failed? && error.cleanup.None? && !Resolved(error.stage) ==> role.Research? && !r.finalOk
    ensures error.Failed? && role.Research? && !r.finalOk ==> error.cleanup.None? && !Resolved(error.stage)
    ensures error.Failed? && error.cleanup.Some? ==> error.cleanup.value.Valid() && !Resolved(error.stage)
    ensures error.Failed? ==> Covered(OwedAt(role, Inserted, false), asked, error)
  {
    asked := [];
    assert FirstFailure([]).None?;
    if l.bind.None? {
      return Spawned, [];
    }
    match role
    case Standard | Diagnosis => error := Spawned;
    case Research(_) => error, asked := ResolveBoundRole(false, None, false, l.bind.value, retry, r);
    case Editor(_, _) => error, asked := ResolveBoundRole(false, None, true, l.bind.value, retry, r);
    case Decision => error := ResolveUnownedDecisionBind(l.bind.value, retry, r);
  }

  /** The roots and the directory itself. */
  method HoldTemp(role: Role, retry: RetryPolicy, l: Launch, r: Resolve)
    returns (error: SpawnResult, ghost asked: seq<Event>)
    ensures EndsAt(error, RootSteps(retry, l), false)
    ensures error.Failed? ==>
              && !error.stage.PreBinding?
              && (error.cleanup.None? <==> Resolved(error.stage) || LeavesTheRun(role, Bound, r))
              && Covered(OwedAt(role, Bound, false), asked, error)
  {
    asked := [];
    FirstOfThree(RootSteps(retry, l)[0], RootSteps(retry, l)[1], RootSteps(retry, l)[2]);
    var root := FirstOf(l.projectRoot, FirstOf(l.serviceRoot, l.temp));
    if root.None? {
      return Spawned, [];
    }
    RoleOwes(role, Bound, false);
    error, asked := ResolveBoundRole(role.Decision?, ResearchOf(role, false), role.Editor?, root.value, retry, r);
  }

  /** The steps of a research run that make its directory recoverable. */
  method RecordRecovery(role: Role, retry: RetryPolicy, l: Launch, r: Resolve)
    returns (error: SpawnResult, ghost asked: seq<Event>)
    ensures EndsAt(error, RecoverySteps(role, retry, l), true)
    ensures error.Failed? ==> !error.stage.PreBinding? && (error.cleanup.None? <==> Resolved(error.stage))
    ensures error.Failed? ==> Covered(OwedAt(role, TempHeld, l.identity.None?), asked, error)
  {
    asked := [];
    assert FirstFailure([]).None?;
    if role.Research? {
      FirstOfTwoSteps(StepFor(TempHeld, l.identity, retry), AuthorityStep(l.authority, retry));
    }
    if role.Research? && l.identity.Some? {
      RoleOwes(role, TempHeld, false);
      error, asked := ResolveRetainedTemp(false, ResearchOf(role, false), false, IntentFor(l.identity.value, retry), r);
    } else if role.Research? && l.authority.Some? {
      RoleOwes(role, TempHeld, true);
      error := ResolveRecoveryAuthority(false, ResearchOf(role, true), l.authority.value, retry);
    } else {
      error := Spawned;
    }
  }

  lemma PrepareFirst(role: Role, retry: RetryPolicy, l: Launch)
    ensures var failed := FirstOf(SchemaError(role, l), FirstOf(l.target, FirstOf(CommandError(role, l),
                                  FirstOf(l.environment, l.lineage))));
            FirstFailure(PrepareSteps(role, retry, l))
            == if failed.Some? then Some(StepFor(TempHeld, failed, retry))
               else if l.spawn.Some? then Some(SpawnStep(l.spawn, retry)) else None
  {
    var schema := if role.Standard? then [] else [StepFor(TempHeld, l.schema, retry)];
    var target := [StepFor(TempHeld, l.target, retry)];
    var command := if role.Editor? && !role.builtIn then [] else [StepFor(TempHeld, l.command, retry)];
    var last := [StepFor(TempHeld, l.environment, retry), StepFor(TempHeld, l.lineage, retry),
                 SpawnStep(l.spawn, retry)];
    FirstOfThree(last[0], last[1], last[2]);
    FirstOfTwo(schema + target + command, last);
    FirstOfTwo(schema + target, command);
    FirstOfTwo(schema, target);
    OneStep(StepFor(TempHeld, l.schema, retry));
    OneStep(StepFor(TempHeld, l.target, retry));
    OneStep(StepFor(TempHeld, l.command, retry));
  }

  /**
   The steps that run while the private directory is held and no child is live. A custom editor whose path is
   not text would leave with the stage of a launch that never bound.
   */
  method PrepareChild(role: Role, retry: RetryPolicy, l: Launch, r: Resolve)
    returns (error: SpawnResult, ghost asked: seq<Event>)
    ensures l.utf8 ==> EndsAt(error, RecoverySteps(role, retry, l) + PrepareSteps(role, retry, l), true)
    ensures error.Failed? && error.stage.PreBinding? ==> CustomEditor(role) && !l.utf8
    ensures error.Failed? && !error.stage.PreBinding? ==> (error.cleanup.None? <==> Resolved(error.stage))
    ensures error.Failed? && !error.stage.PreBinding? ==>
              Covered(OwedAt(role, TempHeld, l.identity.None?), asked, error)
  {
    FirstOfTwo(RecoverySteps(role, retry, l), PrepareSteps(role, retry, l));
    PrepareFirst(role, retry, l);
    error, asked := RecordRecovery(role, retry, l, r);
    if error.Failed? {
      return;
    }
    var research := ResearchOf(role, true);
    var failed := FirstOf(SchemaError(role, l), l.target);
    if failed.None? && CustomEditor(role) && !l.utf8 {
      return SpawnResult.Failed(PreBinding, None), [];
    }
    failed := FirstOf(failed, FirstOf(CommandError(role, l), FirstOf(l.environment, l.lineage)));
    RoleOwes(role, TempHeld, true);
    if failed.Some? {
      error, asked := ResolveRetainedTemp(role.Decision?, research, role.Editor?, IntentFor(failed.value, retry), r);
    } else if l.spawn.Some? {
      error, asked :=
        ResolveRetainedTemp(role.Decision?, research, role.Editor?, SpawnIntentFor(l.spawn.value, retry), r);
    } else {
      error := Spawned;
    }
  }

  lemma ReleaseFirst(retry: RetryPolicy, l: Launch)
    ensures var failed := FirstOf(l.running, FirstOf(l.gate, FirstOf(l.current, l.marker)));
            FirstFailure(ReleaseSteps(retry, l))
            == if failed.Some? then Some(StepFor(ChildLive, failed, retry))
               else if l.dispatched.Some? then Some(Step(MarkerAuthorized, true, PostMarkerExecutionUnknown, false))
               else None
  {
    var steps := ReleaseSteps(retry, l);
    FirstOfThree(steps[0], steps[1], steps[2]);
    FirstOfTwoSteps(steps[3], steps[4]);
    FirstOfTwo(steps[..3], steps[3..]);
    assert steps == steps[..3] + steps[3..];
    assert steps[..3] == [steps[0], steps[1], steps[2]] && steps[3..] == [steps[3], steps[4]];
  }

  /** The steps with a live child; only after its marker is authorized may its execution be unknown. */
  method ReleaseChild(role: Role, retry: RetryPolicy, l: Launch, r: Resolve)
    returns (error: SpawnResult, authorized: bool, ghost asked: seq<Event>)
    ensures EndsAt(error, ReleaseSteps(retry, l), true)
    ensures error.Failed? ==> !error.stage.PreBinding? && (error.cleanup.None? <==> Resolved(error.stage))
    ensures error.Failed? && error.cleanup.Some? ==> error.cleanup.value.Valid()
    ensures authorized <==> l.running.None? && l.gate.None? && l.current.None? && l.marker.None?
    ensures authorized && error.Failed? ==> error.stage.PostMarker?
    ensures authorized && error.Failed? && error.cleanup.Some? ==>
              error.cleanup.value.intent == PostMarkerExecutionUnknown && !MayRetry(error.cleanup.value.intent)
    ensures error.Failed? ==> Covered(OwedAt(role, ChildLive, true), asked, error)
  {
    asked := [];
    ReleaseFirst(retry, l);
    RoleOwes(role, ChildLive, true);
    var failed := FirstOf(l.running, FirstOf(l.gate, FirstOf(l.current, l.marker)));
    authorized := failed.None?;
    if failed.Some? {
      error, asked := ResolveLiveChild(role.Decision?, ResearchOf(role, true), role.Editor?,
                                       IntentFor(failed.value, retry), r);
    } else if l.dispatched.Some? {
      error, asked :=
        ResolveLiveChild(role.Decision?, ResearchOf(role, true), role.Editor?, PostMarkerExecutionUnknown, r);
    } else {
      error := Spawned;
    }
  }

  /** The exits before the child that leave an unresolved run to nobody. */
  predicate LeavesTheRun(role: Role, reached: Reached, r: Resolve) {
    !r.finalOk &&
    match reached
    case Inserted => role.Research?
    case Bound => role.Standard? || role.Diagnosis? || (role.Decision? && r.decisionOk)
    case _ => false
  }

  /** How far a launch comes: to its first step that fails, or past its marker. */
  function ReachedBy(role: Role, retry: RetryPolicy, l: Launch): Reached {
    if !l.early || !l.utf8 || !l.inserted then NotInserted
    else
      var first := FirstFailure(Steps(role, retry, l));
      if first.Some? then first.value.reached else MarkerAuthorized
  }

  /** The launch fails exactly at its first failing step, and everything owed there is done or handed over. */
  ghost predicate LaunchEnds(role: Role, retry: RetryPolicy, l: Launch, result: SpawnResult, reached: Reached,
                             asked: seq<Event>)
    reads if result.Failed? && result.cleanup.Some? then {result.cleanup.value} else {}
  {
    && reached == ReachedBy(role, retry, l)
    && (!reached.NotInserted? ==>
          EndsAt(result, Steps(role, retry, l), !reached.Inserted? && !reached.Bound?)
          && (result.Failed? ==> Covered(OwedAt(role, reached, TempIdentified(l, reached)), asked, result)))
  }

  predicate TempIdentified(l: Launch, reached: Reached) {
    reached.ChildLive? || reached.MarkerAuthorized? || (reached.TempHeld? && l.identity.None?)
  }

  lemma StepsInParts(role: Role, retry: RetryPolicy, l: Launch)
    ensures var bind := FirstFailure(BindSteps(role, retry, l) + RootSteps(retry, l));
            FirstFailure(Steps(role, retry, l))
            == if bind.Some? then bind
               else FirstFailure((RecoverySteps(role, retry, l) + PrepareSteps(role, retry, l))
                                 + ReleaseSteps(retry, l))
  {
    var bind := BindSteps(role, retry, l) + RootSteps(retry, l);
    var rest := (RecoverySteps(role, retry, l) + PrepareSteps(role, retry, l)) + ReleaseSteps(retry, l);
    FirstOfTwo(bind, rest);
    assert Steps(role, retry, l) == bind + rest;
  }

  lemma PartsReach(role: Role, retry: RetryPolicy, l: Launch)
    ensures var bind := FirstFailure(BindSteps(role, retry, l)); bind.Some? ==> bind.value.reached == Inserted
    ensures var root := FirstFailure(RootSteps(retry, l)); root.Some? ==> root.value.reached == Bound
    ensures var prepare := FirstFailure(RecoverySteps(role, retry, l) + PrepareSteps(role, retry, l));
            prepare.Some? ==> prepare.value.reached == TempHeld
  {
    OneStep(StepFor(Inserted, l.bind, retry));
    FirstOfThree(RootSteps(retry, l)[0], RootSteps(retry, l)[1], RootSteps(retry, l)[2]);
    FirstOfTwo(RecoverySteps(role, retry, l), PrepareSteps(role, retry, l));
    FirstOfTwoSteps(StepFor(TempHeld, l.identity, retry), AuthorityStep(l.authority, retry));
    PrepareFirst(role, retry, l);
  }

  method BindAndHold(role: Role, retry: RetryPolicy, l: Launch, r: Resolve)
    returns (error: SpawnResult, reached: Reached, ghost asked: seq<Event>)
    ensures EndsAt(error, BindSteps(role, retry, l) + RootSteps(retry, l), false)
    ensures error.Failed? ==>
              && reached == FirstFailure(BindSteps(role, retry, l) + RootSteps(retry, l)).value.reached
              && (reached.Inserted? || reached.Bound?) && !error.stage.PreBinding?
              && (error.cleanup.None? <==> Resolved(error.stage) || LeavesTheRun(role, reached, r))
              && Covered(OwedAt(role, reached, TempIdentified(l, reached)), asked, error)
  {
    FirstOfTwo(BindSteps(role, retry, l), RootSteps(retry, l));
    PartsReach(role, retry, l);
    reached := Inserted;
    error, asked := BindRole(role, retry, l, r);
    if error.Failed? {
      return;
    }
    reached := Bound;
    error, asked := HoldTemp(role, retry, l, r);
  }

  method PrepareAndRelease(role: Role, retry: RetryPolicy, l: Launch, r: Resolve)
    returns (error: SpawnResult, reached: Reached, ghost asked: seq<Event>)
    requires l.utf8
    ensures EndsAt(error, (RecoverySteps(role, retry, l) + PrepareSteps(role, retry, l)) + ReleaseSteps(retry, l), true)
    ensures !reached.NotInserted? && !reached.Inserted? && !reached.Bound?
    ensures error.Failed? ==>
              && reached == FirstFailure((RecoverySteps(role, retry, l) + PrepareSteps(role, retry, l))
                                         + ReleaseSteps(retry, l)).value.reached
              && !error.stage.PreBinding? && (error.cleanup.None? <==> Resolved(error.stage))
              && Covered(OwedAt(role, reached, TempIdentified(l, reached)), asked, error)
    ensures error.Spawned? ==> reached.MarkerAuthorized?
    ensures error.Failed? && reached.MarkerAuthorized? ==>
              error.stage.PostMarker?
              && (error.cleanup.Some? ==> error.cleanup.value.intent == PostMarkerExecutionUnknown)
  {
    FirstOfTwo(RecoverySteps(role, retry, l) + PrepareSteps(role, retry, l), ReleaseSteps(retry, l));
    PartsReach(role, retry, l);
    reached := TempHeld;
    error, asked := PrepareChild(role, retry, l, r);
    if error.Failed? {
      return;
    }
    var authorized;
    ReleaseFirst(retry, l);
    error, authorized, asked := ReleaseChild(role, retry, l, r);
    reached := if authorized then MarkerAuthorized else ChildLive;
  }

  method Spawn(role: Role, retry: RetryPolicy, l: Launch, r: Resolve)
    returns (result: SpawnResult, reached: Reached, ghost asked: seq<Event>)
    ensures result == SpawnResult.Failed(PreBinding, None) <==> reached.NotInserted?
    ensures result.Failed? && result.stage.PreBinding? ==> reached.NotInserted?
    ensures result.Failed? && !reached.NotInserted? ==>
              (result.cleanup.None? <==> Resolved(result.stage) || LeavesTheRun(role, reached, r))
    ensures result.Failed? && result.cleanup.Some? ==> result.cleanup.value.Valid()
    ensures result.Failed? && reached.MarkerAuthorized? ==>
              result.stage.PostMarker?
              && (result.cleanup.Some? ==> result.cleanup.value.intent == PostMarkerExecutionUnknown)
    ensures LaunchEnds(role, retry, l, result, reached, asked)
  {
    asked := [];
    if !l.early || !l.utf8 || !l.inserted {
      return SpawnResult.Failed(PreBinding, None), NotInserted, [];
    }
    StepsInParts(role, retry, l);
    result, reached, asked := BindAndHold(role, retry, l, r);
    if result.Failed? {
      return;
    }
    result, reached, asked := PrepareAndRelease(role, retry, l, r);
  }
}
