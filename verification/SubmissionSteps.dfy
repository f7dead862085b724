/**
 Exactly-tracked submission (`submit_accepted_intent_inner` in `src/campaign.rs`, and the store transitions
 that it uses in `src/db/campaigns.rs`), as small steps of any number of dispatchers over one durable store.

 Between two steps of a dispatcher any other dispatcher, the daemon or the reconciler may act, and any
 dispatcher may crash. Every call outside the process answers through an `Answer` that nothing constrains:
 each check may fail, a store write may fail with or without having taken effect, and `pueue add` may report
 an error after it has added the task.
 */
module SubmissionSteps {
  import opened Wrappers

  type ExperimentId = string
  type DispatcherId = nat
  type ProjectId = string

  // ---------------------------------------------------------------- the durable store

  /** The failure codes with which an experiment is quarantined. */
  datatype Reason = AddInterrupted | AddUnknown | AddIdentity | LostIdentity

  /**
   The status of an experiment. Its failure code tells a checkpoint that failed before its add from a run
   that failed, so these are two cases here.
   */
  datatype Status =
    | Reserved
    | Submitting
    | Accepted(task: int)
    | Unreconciled(reason: Reason)
    | FailedBeforeAdd
    | Finished(task: int, outcome: RunOutcome)

  datatype RunOutcome = Succeeded | Failed | Cancelled

  datatype Task = Task(id: int, group: string, command: string, signed: bool)

  /**
   What an acceptance rests on: the id that the add returned, the task list read afterwards, and how often the
   candidate's boundary held after the add.
   */
  datatype Evidence = Evidence(task: int, group: string, command: string, listing: seq<Task>, boundaries: nat)

  /**
   One row, with two observations that the store does not hold: how many tasks were ever added for it, and
   the evidence of its acceptance.
   */
  datatype Experiment = Experiment(project: ProjectId, group: string, codeChange: bool, status: Status,
                                   adds: nat, evidence: Option<Evidence>)

  /** A transition inside one transaction: the row afterwards, and whether the call succeeds. */
  datatype Transition = Transition(after: Experiment, accepted: bool)

  /** `begin_submitting_or_defer` and `begin_checkpoint_submitting_or_defer`: None stands for a deferral. */
  function Begin(e: Experiment, checkpoint: bool, active: bool, exact: bool): Option<Transition> {
    if checkpoint && !active then None
    else if !e.status.Reserved? || !exact then Some(Transition(e, false))
    else if !active then None
    else Some(Transition(e.(status := Submitting), true))
  }

  /** `mark_unreconciled`, which accepts a repetition with the same reason. */
  function MarkUnreconciled(e: Experiment, reason: Reason): Transition {
    if e.status == Unreconciled(reason) then Transition(e, true)
    else if e.status.Submitting? then Transition(e.(status := Unreconciled(reason)), true)
    else Transition(e, false)
  }

  /** `mark_accepted`, which accepts a repetition with the same task. */
  function MarkAccepted(e: Experiment, evidence: Evidence): Transition {
    if e.status == Accepted(evidence.task) then Transition(e, true)
    else if e.status.Submitting? then
      Transition(e.(status := Accepted(evidence.task), evidence := Some(evidence)), true)
    else Transition(e, false)
  }

  /** `fail_checkpoint_before_add`, which accepts a repetition. */
  function FailBeforeAdd(e: Experiment): Transition {
    if e.status.FailedBeforeAdd? then Transition(e, true)
    else if e.status.Reserved? || e.status.Submitting? then Transition(e.(status := FailedBeforeAdd), true)
    else Transition(e, false)
  }

  // ---------------------------------------------------------------- a dispatcher

  datatype Verdict = Submitted | Deferred | Error

  datatype Phase =
    | ReadCurrent | Validate | AcquireLock | ReadAuthority | CheckAuthority | FailUnverified
    | MarkInterrupted | MatchStatus | Prepare | BeginSubmitting
    | Reverify | FailUnreverified | Add | MarkAddUnknown
    | FirstBoundary | ReadTasks | MatchTask | SecondBoundary | Accept | MarkNotAccepted | MarkIdentity
    | ReadBack
    | Returned(verdict: Verdict)
    | Crashed

  /** What a call is given. */
  datatype Call = Call(experiment: ExperimentId, project: ProjectId, candidate: bool, checkpointRequired: bool,
                       policy: bool)

  /**
   The locals of one call. `current` is the status that it read before it took the lock, and `authority` the
   status that the checkpoint authority recorded under the lock.
   */
  datatype Locals = Locals(current: Status, authority: Option<Status>, verified: bool, checkpointWon: bool,
                           expected: string, task: int, listing: seq<Task>, boundaries: nat)

  /** `won` and `storeFailed` are observations; the program does not read them. */
  datatype Dispatcher = Dispatcher(call: Call, phase: Phase, locked: bool, locals: Locals,
                                   won: bool, storeFailed: bool)

  /** What one call answers; a step uses the fields that belong to its call. */
  datatype Answer = Answer(ok: bool, tookEffect: bool, active: bool, claim: Claim,
                           task: int, tasks: seq<Task>, command: string)

  datatype Claim = NotCheckpoint | Blocked | Ready

  function Goto(d: Dispatcher, phase: Phase): Dispatcher {
    d.(phase := phase, locked := d.locked && !Ended(phase))
  }

  predicate Ended(phase: Phase) {
    phase.Returned? || phase.Crashed?
  }

  function With(d: Dispatcher, locals: Locals, phase: Phase): Dispatcher {
    d.(phase := phase, locals := locals)
  }

  function Fail(d: Dispatcher): Dispatcher {
    Goto(d, Returned(Error))
  }

  /** A store write under failure: it may fail, and a failed one may have been committed all the same. */
  function Written(e: Experiment, t: Transition, a: Answer): Experiment {
    if a.ok || a.tookEffect then t.after else e
  }

  predicate Seen(t: Transition, a: Answer) {
    a.ok && t.accepted
  }

  function Noted(d: Dispatcher, a: Answer): Dispatcher {
    if a.ok then d else d.(storeFailed := true)
  }

  /** The task list names the task once, in the expected group and with the expected command. */
  predicate ListedOnce(evidence: Evidence) {
    exists i :: 0 <= i < |evidence.listing|
      && evidence.listing[i].id == evidence.task
      && evidence.listing[i].group == evidence.group
      && evidence.listing[i].command == evidence.command
      && evidence.listing[i].signed
      && forall j :: 0 <= j < |evidence.listing| && j != i ==> evidence.listing[j].id != evidence.task
  }

  function IdMatches(listing: seq<Task>, id: int): seq<Task> {
    if listing == [] then []
    else (if listing[0].id == id then [listing[0]] else []) + IdMatches(listing[1..], id)
  }

  /** The checks between the task list and the acceptance. */
  predicate TaskMatches(locals: Locals, group: string) {
    var matches := IdMatches(locals.listing, locals.task);
    |matches| == 1 && matches[0].group == group && matches[0].command == locals.expected && matches[0].signed
  }

  function AcceptEvidence(locals: Locals, group: string): Evidence {
    Evidence(locals.task, group, locals.expected, locals.listing, locals.boundaries)
  }

  /** The stages of a call. */
  datatype Stage =
    | Opening | Claiming | Authorizing | Deciding | Winning | Adding | Checking | Accepting | Marking | Ending

  function StageOf(phase: Phase): Stage {
    match phase
    case ReadCurrent | Validate | AcquireLock => Opening
    case ReadAuthority => Claiming
    case CheckAuthority => Authorizing
    case MatchStatus | Prepare => Deciding
    case BeginSubmitting => Winning
    case Reverify | Add | FirstBoundary => Adding
    case ReadTasks | MatchTask | SecondBoundary => Checking
    case Accept => Accepting
    case FailUnverified | FailUnreverified | MarkInterrupted | MarkAddUnknown | MarkNotAccepted | MarkIdentity =>
      Marking
    case ReadBack | Returned(_) | Crashed => Ending
  }

  /** One step of a call: its locals and the row of its experiment afterwards. */
  function Act(d: Dispatcher, e: Experiment, lockFree: bool, a: Answer): (Dispatcher, Experiment) {
    match StageOf(d.phase)
    case Opening => (Open(d, e.status, lockFree, a), e)
    case Claiming => (ChooseAuthority(d, e.status, a), e)
    case Authorizing => (DispatchAuthority(d, a), e)
    case Deciding => (Decide(d, e.codeChange, a), e)
    case Winning => Win(d, e, a)
    case Adding => (AddStep(d, a), Added(d, e, a))
    case Checking => (Check(d, e.group, a), e)
    case Accepting => AcceptTask(d, e, a)
    case Marking => (Fail(Noted(d, a)), Written(e, Mark(d.phase, e), a))
    case Ending => (if d.phase.ReadBack? then Goto(d, Returned(if a.ok then Submitted else Error)) else d, e)
  }

  function Open(d: Dispatcher, status: Status, lockFree: bool, a: Answer): Dispatcher {
    if !a.ok then Fail(d)
    else match d.phase
      case ReadCurrent => With(d, d.locals.(current := status), Validate)
      case Validate => Goto(d, if d.locked then ReadAuthority else AcquireLock)
      case _ => if lockFree then Goto(d.(locked := true), ReadAuthority) else Fail(d)
  }

  function Decide(d: Dispatcher, codeChange: bool, a: Answer): Dispatcher {
    if d.phase.MatchStatus? then DispatchStatus(d, codeChange, a)
    else if a.ok then With(d, d.locals.(expected := a.command), BeginSubmitting)
    else Fail(d)
  }

  /** The add itself: a failed one may have added the task all the same. */
  function Added(d: Dispatcher, e: Experiment, a: Answer): Experiment {
    if d.phase.Add? && (a.ok || a.tookEffect) then e.(adds := e.adds + 1) else e
  }

  function AddStep(d: Dispatcher, a: Answer): Dispatcher {
    match d.phase
    case Reverify => Recheck(d, a)
    case Add => if a.ok then With(d, d.locals.(task := a.task), FirstBoundary) else Goto(d, MarkAddUnknown)
    case _ => Boundary(d, ReadTasks, a)
  }

  /** Where a candidate's boundary is verified again. */
  function Boundary(d: Dispatcher, next: Phase, a: Answer): Dispatcher {
    if !d.call.candidate then Goto(d, next)
    else if a.ok then With(d, d.locals.(boundaries := d.locals.boundaries + 1), next)
    else Goto(d, MarkIdentity)
  }

  function Check(d: Dispatcher, group: string, a: Answer): Dispatcher {
    match d.phase
    case ReadTasks => if a.ok then With(d, d.locals.(listing := a.tasks), MatchTask) else Goto(d, MarkIdentity)
    case MatchTask => Goto(d, if TaskMatches(d.locals, group) then SecondBoundary else MarkIdentity)
    case _ => Boundary(d, Accept, a)
  }

  function AcceptTask(d: Dispatcher, e: Experiment, a: Answer): (Dispatcher, Experiment) {
    var t := MarkAccepted(e, AcceptEvidence(d.locals, e.group));
    (Goto(Noted(d, a), if Seen(t, a) then ReadBack else MarkNotAccepted), Written(e, t, a))
  }

  /** The write with which a failing call leaves its row. */
  function Mark(phase: Phase, e: Experiment): Transition {
    match phase
    case FailUnverified | FailUnreverified => FailBeforeAdd(e)
    case MarkInterrupted => MarkUnreconciled(e, AddInterrupted)
    case MarkIdentity => MarkUnreconciled(e, AddIdentity)
    case _ => MarkUnreconciled(e, AddUnknown)
  }

  /** The checkpoint claim on the experiment, read under the lock together with the present status. */
  function ChooseAuthority(d: Dispatcher, status: Status, a: Answer): Dispatcher {
    if !a.ok then Fail(d)
    else match a.claim
      case NotCheckpoint => if d.call.checkpointRequired then Fail(d) else Goto(d, MatchStatus)
      case Blocked => Goto(d, Returned(Deferred))
      case Ready =>
        if d.call.candidate then Fail(d) else With(d, d.locals.(authority := Some(status)), CheckAuthority)
  }

  /** The arms on the status that the authority recorded; `a.ok` is the verification of the prepared files. */
  function DispatchAuthority(d: Dispatcher, a: Answer): Dispatcher {
    if d.locals.authority.None? then Fail(d)
    else match d.locals.authority.value
      case Reserved =>
        if !d.locals.current.Reserved? || !d.call.policy then Fail(d)
        else if !a.ok then Goto(d, FailUnverified)
        else With(d, d.locals.(verified := true), MatchStatus)
      case Submitting => Goto(d, MarkInterrupted)
      case Unreconciled(_) => Fail(d)
      case Accepted(_) | FailedBeforeAdd | Finished(_, _) => Goto(d, ReadBack)
  }

  /** The arms on the status read at the start; `a.ok` stands for every check of roots and outputs. */
  function DispatchStatus(d: Dispatcher, codeChange: bool, a: Answer): Dispatcher {
    if d.call.candidate != codeChange then Fail(d)
    else match d.locals.current
      case Submitting => Goto(d, MarkInterrupted)
      case Unreconciled(_) => Fail(d)
      case Reserved => if a.ok then Goto(d, Prepare) else Fail(d)
      case Accepted(_) | FailedBeforeAdd | Finished(_, _) =>
        if d.call.candidate && !a.ok then Fail(d) else Goto(d, ReadBack)
  }

  /** The durable step that only one call can take; `a.claim` says whether the row is what the route expects. */
  function Win(d: Dispatcher, e: Experiment, a: Answer): (Dispatcher, Experiment) {
    var checkpoint := d.locals.authority.Some?;
    match Begin(e, checkpoint, a.active, a.claim.Ready? == checkpoint)
    case None => (if a.ok then Goto(d, Returned(Deferred)) else Fail(Noted(d, a)), e)
    case Some(t) =>
      (if Seen(t, a) then With(d, d.locals.(checkpointWon := checkpoint), Reverify).(won := true)
       else Fail(Noted(d, a)),
       Written(e, t, a))
  }

  /** A verified checkpoint is verified once more; the exit without a policy is kept as the source has it. */
  function Recheck(d: Dispatcher, a: Answer): Dispatcher {
    if !d.locals.verified then Goto(d, Add)
    else if !d.call.policy then Fail(d)
    else if a.ok then Goto(d, Add)
    else if d.locals.checkpointWon then Goto(d, FailUnreverified)
    else Fail(d)
  }

  // ---------------------------------------------------------------- the world

  datatype World = World(experiments: map<ExperimentId, Experiment>, dispatchers: map<DispatcherId, Dispatcher>)

  datatype Event =
    | Step(id: DispatcherId, answer: Answer)
    | Crash(id: DispatcherId)
    | Start(id: DispatcherId, experiment: ExperimentId, candidate: bool, checkpointRequired: bool,
            policy: bool, admitted: bool)
    | Create(experiment: ExperimentId, project: ProjectId, group: string, codeChange: bool)
    | RecoverBoundaries
    | Quarantine(experiment: ExperimentId)
    | FinishRun(experiment: ExperimentId, outcome: RunOutcome)

  predicate LockFree(w: World, project: ProjectId) {
    forall id :: id in w.dispatchers && w.dispatchers[id].locked ==> w.dispatchers[id].call.project != project
  }

  /** A fresh call; with an admission passed in, it holds the lock from the start. */
  function NewDispatcher(call: Call, admitted: bool): Dispatcher {
    Dispatcher(call, ReadCurrent, admitted, Locals(Reserved, None, false, false, "", 0, [], 0), false, false)
  }

  /** `recover_submission_boundaries`, at the start of a daemon; it takes no lock. */
  function Interrupted(e: Experiment): Experiment {
    if e.status.Submitting? then e.(status := Unreconciled(AddInterrupted)) else e
  }

  /** `quarantine_accepted_identity`. */
  function Quarantined(e: Experiment): Experiment {
    if e.status.Accepted? then e.(status := Unreconciled(LostIdentity)) else e
  }

  /** `project_terminal_submission`. */
  function RunFinished(e: Experiment, outcome: RunOutcome): Experiment {
    if e.status.Accepted? then e.(status := Finished(e.status.task, outcome)) else e
  }

  /** One event; an event that is not possible in a world leaves it as it is. */
  function Next(w: World, event: Event): World {
    match event
    case Step(id, answer) =>
      if id !in w.dispatchers || w.dispatchers[id].call.experiment !in w.experiments then w
      else
        var d := w.dispatchers[id];
        var x := d.call.experiment;
        var (d', e') := Act(d, w.experiments[x], LockFree(w, d.call.project), answer);
        World(w.experiments[x := e'], w.dispatchers[id := d'])
    case Crash(id) =>
      if id !in w.dispatchers then w else w.(dispatchers := w.dispatchers[id := Goto(w.dispatchers[id], Crashed)])
    case Start(id, experiment, candidate, checkpointRequired, policy, admitted) =>
      if id in w.dispatchers || experiment !in w.experiments then w
      else
        var project := w.experiments[experiment].project;
        if admitted && !LockFree(w, project) then w
        else
          w.(dispatchers := w.dispatchers[
               id := NewDispatcher(Call(experiment, project, candidate, checkpointRequired, policy), admitted)])
    case Create(experiment, project, group, codeChange) =>
      if experiment in w.experiments then w
      else
        w.(experiments := w.experiments[experiment := Experiment(project, group, codeChange, Reserved, 0, None)])
    case RecoverBoundaries =>
      w.(experiments := map id | id in w.experiments :: Interrupted(w.experiments[id]))
    case Quarantine(experiment) =>
      if experiment !in w.experiments then w
      else w.(experiments := w.experiments[experiment := Quarantined(w.experiments[experiment])])
    case FinishRun(experiment, outcome) =>
      if experiment !in w.experiments then w
      else w.(experiments := w.experiments[experiment := RunFinished(w.experiments[experiment], outcome)])
  }

  /** The events of a run, and the world before each of them and after the last. */
  datatype History = History(worlds: seq<World>, events: seq<Event>)

  predicate StepAt(h: History, i: nat)
    requires |h.worlds| == |h.events| + 1
  {
    i < |h.events| ==> h.worlds[i + 1] == Next(h.worlds[i], h.events[i])
  }

  ghost predicate IsHistory(h: History) {
    |h.worlds| == |h.events| + 1 && forall i: nat :: StepAt(h, i)
  }

  const EMPTY := World(map[], map[])

  /** Any events in any order, from the empty world on. */
  ghost predicate IsRun(h: History) {
    IsHistory(h) && h.worlds[0] == EMPTY
  }

  // ---------------------------------------------------------------- the invariant

  /** What one row promises. */
  predicate RowOk(e: Experiment) {
    && e.adds <= 1
    && (e.status.Reserved? || e.status.FailedBeforeAdd? ==> e.adds == 0)
    && (e.status.Accepted? || e.status.Finished? ==> e.evidence.Some? && e.evidence.value.task == e.status.task)
    && (e.evidence.Some? ==>
          && e.adds == 1 && e.evidence.value.group == e.group && ListedOnce(e.evidence.value)
          && (e.codeChange ==> e.evidence.value.boundaries == 2))
  }

  /** The call may still reach `pueue add`. */
  predicate Armed(phase: Phase) {
    phase.Reverify? || phase.Add?
  }

  /** The call's add has returned an id. */
  predicate HasTask(phase: Phase) {
    phase.FirstBoundary? || phase.ReadTasks? || phase.MatchTask? || phase.SecondBoundary? || phase.Accept?
    || phase.MarkNotAccepted? || phase.MarkIdentity?
  }

  /** These phases are reached only through the winning step. */
  predicate AfterWin(phase: Phase) {
    Armed(phase) || HasTask(phase) || phase.FailUnreverified? || phase.MarkAddUnknown?
  }

  predicate BeforeLock(phase: Phase) {
    phase.ReadCurrent? || phase.Validate? || phase.AcquireLock?
  }

  /** A task may still be added for a row in this status. */
  predicate Addable(status: Status) {
    status.Submitting? || status == Unreconciled(AddInterrupted)
  }

  predicate InFlight(status: Status) {
    status.Reserved? || status.Submitting?
  }

  /** The lock is held from the admission to the end, and the winning phases are the winner's. */
  predicate Placed(d: Dispatcher) {
    && (Ended(d.phase) ==> !d.locked)
    && (!BeforeLock(d.phase) && !Ended(d.phase) ==> d.locked)
    && (d.won ==> AfterWin(d.phase) || d.phase.ReadBack? || Ended(d.phase))
    && (AfterWin(d.phase) ==> d.won)
    && (d.phase == Returned(Deferred) ==> !d.won)
  }

  /** The exit without a policy, and the exit without a won checkpoint, cannot be taken. */
  predicate Guarded(d: Dispatcher) {
    && (d.locals.verified ==> d.call.policy && d.locals.authority.Some?)
    && (d.phase.Reverify? && d.locals.verified ==> d.locals.checkpointWon)
  }

  /** What a winner knows about its row. */
  predicate WonRow(d: Dispatcher, e: Experiment) {
    && (d.won ==> !e.status.Reserved?)
    && (Armed(d.phase) || d.phase.FailUnreverified? ==> e.adds == 0 && Addable(e.status))
    && (HasTask(d.phase) ==> e.adds == 1)
    && (d.phase.SecondBoundary? || d.phase.Accept? ==> TaskMatches(d.locals, e.group))
  }

  /** Past the choice of its route, a candidate's call is on a code change and counts its boundaries. */
  predicate Routed(d: Dispatcher, e: Experiment) {
    && (AfterWin(d.phase) || d.phase.Prepare? || d.phase.BeginSubmitting? ==> d.call.candidate == e.codeChange)
    && (!HasTask(d.phase) && !d.phase.ReadBack? && !Ended(d.phase) ==> d.locals.boundaries == 0)
    && (d.phase.FirstBoundary? ==> d.locals.boundaries == 0)
    && (e.codeChange ==>
          && (d.phase.ReadTasks? || d.phase.MatchTask? || d.phase.SecondBoundary? ==> d.locals.boundaries == 1)
          && (d.phase.Accept? ==> d.locals.boundaries == 2))
  }

  /** What a finished winner leaves behind. */
  predicate EndRow(d: Dispatcher, e: Experiment) {
    && (d.won && (d.phase.Returned? || d.phase.ReadBack?) && !d.storeFailed ==> !InFlight(e.status))
    && (d.won && (d.phase == Returned(Submitted) || d.phase.ReadBack?) ==> e.evidence.Some?)
  }

  /** Under the lock, a row that was reserved stays reserved until the holder moves it. */
  predicate ReservedRow(d: Dispatcher, e: Experiment) {
    && (d.phase.FailUnverified? ==> e.status.Reserved?)
    && (d.phase.CheckAuthority? && d.locals.authority == Some(Reserved) ==> e.status.Reserved?)
  }

  predicate CallOk(d: Dispatcher, e: Experiment) {
    d.call.project == e.project && Placed(d) && Guarded(d) && WonRow(d, e) && EndRow(d, e) && ReservedRow(d, e)
    && Routed(d, e)
  }

  /** Two calls never both hold one project's lock, and never both win one experiment. */
  predicate Apart(a: Dispatcher, b: Dispatcher) {
    && !(a.locked && b.locked && a.call.project == b.call.project)
    && !(a.won && b.won && a.call.experiment == b.call.experiment)
  }

  predicate RowsOk(w: World) {
    forall x :: x in w.experiments ==> RowOk(w.experiments[x])
  }

  predicate CallsOk(w: World) {
    forall i :: i in w.dispatchers ==> Rowed(w, w.dispatchers[i])
  }

  predicate Rowed(w: World, d: Dispatcher) {
    d.call.experiment in w.experiments && CallOk(d, w.experiments[d.call.experiment])
  }

  predicate AllApart(w: World) {
    forall i, j :: i in w.dispatchers && j in w.dispatchers && i != j ==> Apart(w.dispatchers[i], w.dispatchers[j])
  }

  predicate Safe(w: World) {
    RowsOk(w) && CallsOk(w) && AllApart(w)
  }

  // ---------------------------------------------------------------- every step keeps it

  lemma {:induction false} OneMatchIsListedOnce(listing: seq<Task>, id: int) returns (i: nat)
    requires |IdMatches(listing, id)| == 1
    ensures i < |listing| && listing[i] == IdMatches(listing, id)[0] && listing[i].id == id
    ensures forall j :: 0 <= j < |listing| && j != i ==> listing[j].id != id
  {
    if listing[0].id == id {
      i := 0;
      NoMatches(listing[1..], id);
      assert forall j :: 1 <= j < |listing| ==> listing[j] == listing[1..][j - 1];
    } else {
      var k := OneMatchIsListedOnce(listing[1..], id);
      i := k + 1;
      assert forall j :: 1 <= j < |listing| ==> listing[j] == listing[1..][j - 1];
    }
  }

  lemma {:induction false} NoMatches(listing: seq<Task>, id: int)
    requires IdMatches(listing, id) == []
    ensures forall j :: 0 <= j < |listing| ==> listing[j].id != id
  {
    if listing != [] {
      NoMatches(listing[1..], id);
      assert forall j :: 1 <= j < |listing| ==> listing[j] == listing[1..][j - 1];
    }
  }

  lemma MatchedIsListedOnce(locals: Locals, group: string)
    requires TaskMatches(locals, group)
    ensures ListedOnce(AcceptEvidence(locals, group))
  {
    var i := OneMatchIsListedOnce(locals.listing, locals.task);
    assert AcceptEvidence(locals, group).listing[i].id == locals.task;
  }

  /** What one step keeps for its own call: a free lock is taken, and only a reserved row is won. */
  predicate Kept(d: Dispatcher, e: Experiment, lockFree: bool, after: (Dispatcher, Experiment)) {
    && after.0.call == d.call && after.1.project == e.project
    && RowOk(after.1) && CallOk(after.0, after.1)
    && (after.0.locked ==> d.locked || lockFree)
    && (after.0.won ==> d.won || (e.status.Reserved? && d.locked))
  }

  lemma OpeningKeeps(d: Dispatcher, e: Experiment, lockFree: bool, a: Answer)
    requires RowOk(e) && CallOk(d, e) && StageOf(d.phase) == Opening
    ensures Kept(d, e, lockFree, Act(d, e, lockFree, a))
  {
  }

  lemma ClaimingKeeps(d: Dispatcher, e: Experiment, lockFree: bool, a: Answer)
    requires RowOk(e) && CallOk(d, e) && StageOf(d.phase) == Claiming
    ensures Kept(d, e, lockFree, Act(d, e, lockFree, a))
  {
  }

  lemma AuthorizingKeeps(d: Dispatcher, e: Experiment, lockFree: bool, a: Answer)
    requires RowOk(e) && CallOk(d, e) && StageOf(d.phase) == Authorizing
    ensures Kept(d, e, lockFree, Act(d, e, lockFree, a))
  {
  }

  lemma DecidingKeeps(d: Dispatcher, e: Experiment, lockFree: bool, a: Answer)
    requires RowOk(e) && CallOk(d, e) && StageOf(d.phase) == Deciding
    ensures Kept(d, e, lockFree, Act(d, e, lockFree, a))
  {
  }

  lemma WinningKeeps(d: Dispatcher, e: Experiment, lockFree: bool, a: Answer)
    requires RowOk(e) && CallOk(d, e) && StageOf(d.phase) == Winning
    ensures Kept(d, e, lockFree, Act(d, e, lockFree, a))
  {
    var begun := Begin(e, d.locals.authority.Some?, a.active, a.claim.Ready? == d.locals.authority.Some?);
    if begun.Some? {
      assert begun.value.after == e || begun.value.after == e.(status := Submitting);
    }
  }

  lemma AddingKeeps(d: Dispatcher, e: Experiment, lockFree: bool, a: Answer)
    requires RowOk(e) && CallOk(d, e) && StageOf(d.phase) == Adding
    ensures Kept(d, e, lockFree, Act(d, e, lockFree, a))
  {
  }

  lemma CheckingKeeps(d: Dispatcher, e: Experiment, lockFree: bool, a: Answer)
    requires RowOk(e) && CallOk(d, e) && StageOf(d.phase) == Checking
    ensures Kept(d, e, lockFree, Act(d, e, lockFree, a))
  {
    match d.phase {
      case ReadTasks =>
      case MatchTask =>
      case _ =>
    }
  }

  lemma AcceptingKeeps(d: Dispatcher, e: Experiment, lockFree: bool, a: Answer)
    requires RowOk(e) && CallOk(d, e) && StageOf(d.phase) == Accepting
    ensures Kept(d, e, lockFree, Act(d, e, lockFree, a))
  {
    MatchedIsListedOnce(d.locals, e.group);
  }

  lemma MarkingKeeps(d: Dispatcher, e: Experiment, lockFree: bool, a: Answer)
    requires RowOk(e) && CallOk(d, e) && StageOf(d.phase) == Marking
    ensures Kept(d, e, lockFree, Act(d, e, lockFree, a))
  {
  }

  lemma EndingKeeps(d: Dispatcher, e: Experiment, lockFree: bool, a: Answer)
    requires RowOk(e) && CallOk(d, e) && StageOf(d.phase) == Ending
    ensures Kept(d, e, lockFree, Act(d, e, lockFree, a))
  {
  }

  lemma ActKeeps(d: Dispatcher, e: Experiment, lockFree: bool, a: Answer)
    requires RowOk(e) && CallOk(d, e)
    ensures Kept(d, e, lockFree, Act(d, e, lockFree, a))
  {
    match StageOf(d.phase)
    case Opening => OpeningKeeps(d, e, lockFree, a);
    case Claiming => ClaimingKeeps(d, e, lockFree, a);
    case Authorizing => AuthorizingKeeps(d, e, lockFree, a);
    case Deciding => DecidingKeeps(d, e, lockFree, a);
    case Winning => WinningKeeps(d, e, lockFree, a);
    case Adding => AddingKeeps(d, e, lockFree, a);
    case Checking => CheckingKeeps(d, e, lockFree, a);
    case Accepting => AcceptingKeeps(d, e, lockFree, a);
    case Marking => MarkingKeeps(d, e, lockFree, a);
    case Ending => EndingKeeps(d, e, lockFree, a);
  }

  /** What a step may do to its row: only its add, its win or its settling write changes anything. */
  predicate Moves(d: Dispatcher, e: Experiment, after: Experiment) {
    || after == e
    || (Armed(d.phase) && after == e.(adds := e.adds + 1))
    || (e.status.Reserved? && d.locked && after == e.(status := after.status) && !after.status.Reserved?)
    || (d.won && after == e.(status := after.status, evidence := after.evidence) && !after.status.Reserved?)
    || (e.status.Submitting? && d.locked && after == e.(status := Unreconciled(AddInterrupted)))
  }

  lemma ActMoves(d: Dispatcher, e: Experiment, lockFree: bool, a: Answer)
    requires RowOk(e) && CallOk(d, e)
    ensures Moves(d, e, Act(d, e, lockFree, a).1)
  {
  }

  lemma MovesKeepOthers(d: Dispatcher, other: Dispatcher, e: Experiment, after: Experiment)
    requires RowOk(e) && CallOk(d, e) && CallOk(other, e)
    requires d.call.experiment == other.call.experiment && Apart(d, other) && Moves(d, e, after)
    ensures CallOk(other, after)
  {
  }

  /** A step keeps the promises of every other call on the same row. */
  lemma ActKeepsOthers(d: Dispatcher, other: Dispatcher, e: Experiment, lockFree: bool, a: Answer)
    requires RowOk(e) && CallOk(d, e) && CallOk(other, e)
    requires d.call.experiment == other.call.experiment && Apart(d, other)
    ensures CallOk(other, Act(d, e, lockFree, a).1)
  {
    ActMoves(d, e, lockFree, a);
    MovesKeepOthers(d, other, e, Act(d, e, lockFree, a).1);
  }

  lemma ActKeepsApart(d: Dispatcher, other: Dispatcher, e: Experiment, x: Experiment, lockFree: bool, a: Answer)
    requires RowOk(e) && CallOk(d, e) && CallOk(other, x) && Apart(d, other)
    requires d.call.experiment == other.call.experiment ==> e == x
    requires lockFree && other.locked ==> other.call.project != d.call.project
    ensures Apart(Act(d, e, lockFree, a).0, other)
  {
    ActKeeps(d, e, lockFree, a);
  }

  // ---------------------------------------------------------------- every event keeps it

  lemma StepKeepsOwn(w: World, id: DispatcherId, a: Answer)
    requires Safe(w) && id in w.dispatchers
    ensures var after := Next(w, Step(id, a));
            RowsOk(after) && id in after.dispatchers && Rowed(after, after.dispatchers[id])
  {
    var d := w.dispatchers[id];
    assert Rowed(w, d);
    assert RowOk(w.experiments[d.call.experiment]);
    ActKeeps(d, w.experiments[d.call.experiment], LockFree(w, d.call.project), a);
  }

  lemma StepKeepsSafe(w: World, id: DispatcherId, a: Answer)
    requires Safe(w)
    ensures Safe(Next(w, Step(id, a)))
  {
    if id in w.dispatchers {
      var d := w.dispatchers[id];
      var after := Next(w, Step(id, a));
      assert Rowed(w, d);
      StepKeepsOwn(w, id, a);
      forall i | i in w.dispatchers && i != id
        ensures Apart(after.dispatchers[id], w.dispatchers[i]) && Rowed(after, w.dispatchers[i])
      {
        StepKeepsOther(w, id, i, a);
      }
    }
  }

  lemma StepKeepsOther(w: World, id: DispatcherId, i: DispatcherId, a: Answer)
    requires Safe(w) && id in w.dispatchers && i in w.dispatchers && i != id
    requires w.dispatchers[id].call.experiment in w.experiments
    ensures var d := w.dispatchers[id];
            Apart(Act(d, w.experiments[d.call.experiment], LockFree(w, d.call.project), a).0, w.dispatchers[i])
    ensures Rowed(Next(w, Step(id, a)), w.dispatchers[i])
  {
    var d, other := w.dispatchers[id], w.dispatchers[i];
    assert Rowed(w, d) && Rowed(w, other) && Apart(d, other);
    var e, x := w.experiments[d.call.experiment], w.experiments[other.call.experiment];
    var lockFree := LockFree(w, d.call.project);
    assert RowOk(e);
    ActKeepsApart(d, other, e, x, lockFree, a);
    if d.call.experiment == other.call.experiment {
      ActKeepsOthers(d, other, e, lockFree, a);
    }
  }

  /** What the daemon's start, a quarantine and a finished run may do to a row. */
  predicate Settled(e: Experiment, after: Experiment) {
    && after == e.(status := after.status)
    && (|| after.status == e.status
        || (e.status.Submitting? && after.status == Unreconciled(AddInterrupted))
        || (e.status.Accepted? && after.status == Unreconciled(LostIdentity))
        || (e.status.Accepted? && after.status.Finished? && after.status.task == e.status.task))
  }

  lemma SettledKeepsCall(d: Dispatcher, e: Experiment, after: Experiment)
    requires CallOk(d, e) && Settled(e, after)
    ensures CallOk(d, after)
  {
  }

  lemma SettledKeepsSafe(w: World, after: World)
    requires Safe(w) && after.dispatchers == w.dispatchers && after.experiments.Keys == w.experiments.Keys
    requires forall x :: x in w.experiments ==> Settled(w.experiments[x], after.experiments[x])
    ensures Safe(after)
  {
    forall x | x in after.experiments
      ensures RowOk(after.experiments[x])
    {
      assert RowOk(w.experiments[x]) && Settled(w.experiments[x], after.experiments[x]);
    }
    forall i | i in after.dispatchers
      ensures Rowed(after, after.dispatchers[i])
    {
      var d := w.dispatchers[i];
      assert Rowed(w, d);
      SettledKeepsCall(d, w.experiments[d.call.experiment], after.experiments[d.call.experiment]);
    }
  }

  lemma CreateKeepsSafe(w: World, x: ExperimentId, e: Experiment)
    requires Safe(w) && x !in w.experiments && RowOk(e)
    ensures Safe(w.(experiments := w.experiments[x := e]))
  {
    var after := w.(experiments := w.experiments[x := e]);
    forall i | i in after.dispatchers
      ensures Rowed(after, after.dispatchers[i])
    {
      assert Rowed(w, w.dispatchers[i]);
    }
  }

  lemma CrashKeepsSafe(w: World, id: DispatcherId)
    requires Safe(w)
    ensures Safe(Next(w, Crash(id)))
  {
    if id in w.dispatchers {
      var after := Next(w, Crash(id));
      CrashKeepsCall(w, w.dispatchers[id]);
      forall i | i in w.dispatchers
        ensures Rowed(after, after.dispatchers[i])
      {
        assert Rowed(w, w.dispatchers[i]);
      }
      forall i, j | i in w.dispatchers && j in w.dispatchers && i != j
        ensures Apart(after.dispatchers[i], after.dispatchers[j])
      {
        assert Apart(w.dispatchers[i], w.dispatchers[j]);
      }
    }
  }

  lemma CrashKeepsCall(w: World, d: Dispatcher)
    requires Rowed(w, d)
    ensures Rowed(w, Goto(d, Crashed))
  {
  }

  lemma StartKeepsSafe(w: World, id: DispatcherId, call: Call, admitted: bool)
    requires Safe(w) && id !in w.dispatchers && call.experiment in w.experiments
    requires call.project == w.experiments[call.experiment].project
    requires admitted ==> LockFree(w, call.project)
    ensures Safe(w.(dispatchers := w.dispatchers[id := NewDispatcher(call, admitted)]))
  {
    var d := NewDispatcher(call, admitted);
    var after := w.(dispatchers := w.dispatchers[id := d]);
    assert Rowed(after, d);
    forall i | i in w.dispatchers
      ensures Rowed(after, w.dispatchers[i])
      ensures Apart(d, w.dispatchers[i]) && Apart(w.dispatchers[i], d)
    {
      assert Rowed(w, w.dispatchers[i]);
    }
  }

  lemma StartEventKeepsSafe(w: World, event: Event)
    requires Safe(w) && event.Start?
    ensures Safe(Next(w, event))
  {
    var x := event.experiment;
    if event.id !in w.dispatchers && x in w.experiments {
      var project := w.experiments[x].project;
      if event.admitted ==> LockFree(w, project) {
        StartKeepsSafe(w, event.id, Call(x, project, event.candidate, event.checkpointRequired, event.policy),
                       event.admitted);
      }
    }
  }

  lemma CreateEventKeepsSafe(w: World, event: Event)
    requires Safe(w) && event.Create?
    ensures Safe(Next(w, event))
  {
    var x := event.experiment;
    if x !in w.experiments {
      CreateKeepsSafe(w, x, Experiment(event.project, event.group, event.codeChange, Reserved, 0, None));
    }
  }

  lemma SettlingEventKeepsSafe(w: World, event: Event)
    requires Safe(w) && (event.RecoverBoundaries? || event.Quarantine? || event.FinishRun?)
    ensures Safe(Next(w, event))
  {
    SettledKeepsSafe(w, Next(w, event));
  }

  lemma EventKeepsSafe(w: World, event: Event)
    requires Safe(w)
    ensures Safe(Next(w, event))
  {
    match event
    case Step(id, answer) => StepKeepsSafe(w, id, answer);
    case Crash(id) => CrashKeepsSafe(w, id);
    case Start(_, _, _, _, _, _) => StartEventKeepsSafe(w, event);
    case Create(_, _, _, _) => CreateEventKeepsSafe(w, event);
    case RecoverBoundaries | Quarantine(_) | FinishRun(_, _) => SettlingEventKeepsSafe(w, event);
  }
}
