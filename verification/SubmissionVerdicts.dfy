/**
 How a submission call ends: what it hears up to its winning step decides whether it wins, defers, reports a settled
 row, marks its row or fails, and what each step writes to the row.
 */
module SubmissionVerdicts {
  import opened Wrappers
  import opened Submission
  import opened SubmissionSteps

  // ---------------------------------------------------------------- what is written to a row

  /** The status that a step leaves: a write counts when it succeeds or has taken effect all the same. */
  function StatusAfter(phase: Phase, d: Dispatcher, status: Status, a: Answer): Status {
    if !a.ok && !a.tookEffect then status
    else match phase
      case BeginSubmitting =>
        if status.Reserved? && a.active && (a.claim.Ready? <==> d.locals.authority.Some?) then Submitting else status
      case Accept => if status.Submitting? then Status.Accepted(d.locals.task) else status
      case FailUnverified | FailUnreverified => if InFlight(status) then FailedBeforeAdd else status
      case MarkInterrupted => if status.Submitting? then Unreconciled(AddInterrupted) else status
      case MarkIdentity => if status.Submitting? then Unreconciled(AddIdentity) else status
      case MarkAddUnknown | MarkNotAccepted => if status.Submitting? then Unreconciled(AddUnknown) else status
      case _ => status
  }

  /** A step counts its add, writes the evidence of an acceptance and the status, and nothing else. */
  lemma StepWrites(d: Dispatcher, e: Experiment, lockFree: bool, a: Answer)
    ensures var after := Act(d, e, lockFree, a).1;
            && after == e.(status := after.status, adds := after.adds, evidence := after.evidence)
            && after.status == StatusAfter(d.phase, d, e.status, a)
            && after.adds == e.adds + (if d.phase.Add? && (a.ok || a.tookEffect) then 1 else 0)
            && after.evidence
               == if d.phase.Accept? && e.status.Submitting? && (a.ok || a.tookEffect)
                  then Some(Evidence(d.locals.task, e.group, d.locals.expected, d.locals.listing, d.locals.boundaries))
                  else e.evidence
  {
  }

  /** The store accepts a settling write exactly when the row has the asked status afterwards, also by repetition. */
  lemma WritesReachTheirStatus(e: Experiment, reason: Reason, evidence: Evidence)
    ensures MarkUnreconciled(e, reason).accepted <==> MarkUnreconciled(e, reason).after.status == Unreconciled(reason)
    ensures MarkUnreconciled(e, reason).accepted <==> e.status.Submitting? || e.status == Unreconciled(reason)
    ensures MarkAccepted(e, evidence).accepted
            <==> MarkAccepted(e, evidence).after.status == Status.Accepted(evidence.task)
    ensures MarkAccepted(e, evidence).accepted <==> e.status.Submitting? || e.status == Status.Accepted(evidence.task)
    ensures FailBeforeAdd(e).accepted <==> FailBeforeAdd(e).after.status.FailedBeforeAdd?
    ensures FailBeforeAdd(e).accepted <==> InFlight(e.status) || e.status.FailedBeforeAdd?
  {
  }

  /** What else can happen to a row. */
  lemma EventWrites(w: World, event: Event, x: ExperimentId)
    requires x in w.experiments && !event.Step?
    ensures x in Next(w, event).experiments
    ensures var e, after := w.experiments[x], Next(w, event).experiments[x];
            && after == e.(status := after.status)
            && after.status
               == if event.RecoverBoundaries? && e.status.Submitting? then Unreconciled(AddInterrupted)
                  else if event == Quarantine(x) && e.status.Accepted? then Unreconciled(LostIdentity)
                  else if event.FinishRun? && event.experiment == x && e.status.Accepted?
                  then Finished(e.status.task, event.outcome)
                  else e.status
  {
  }

  // ---------------------------------------------------------------- what a call hears

  /** What a step hears: the status of its row, whether the lock is free, and the parts of its answer. */
  datatype Word = Word(status: Status, lockFree: bool, ok: bool, active: bool, claim: Claim)

  function WordOf(e: Experiment, lockFree: bool, a: Answer): Word {
    Word(e.status, lockFree, a.ok, a.active, a.claim)
  }

  datatype Heard = Heard(read: Option<Word>, validated: Option<Word>, acquired: Option<Word>, claimed: Option<Word>,
                         verified: Option<Word>, checked: Option<Word>, prepared: Option<Word>, begun: Option<Word>,
                         interrupted: Option<Word>, failed: Option<Word>, readBack: Option<Word>)

  const NOTHING_HEARD := Heard(None, None, None, None, None, None, None, None, None, None, None)

  function Hear(heard: Heard, phase: Phase, word: Word): Heard {
    match phase
    case ReadCurrent => heard.(read := Some(word))
    case Validate => heard.(validated := Some(word))
    case AcquireLock => heard.(acquired := Some(word))
    case ReadAuthority => heard.(claimed := Some(word))
    case CheckAuthority => heard.(verified := Some(word))
    case MatchStatus => heard.(checked := Some(word))
    case Prepare => heard.(prepared := Some(word))
    case BeginSubmitting => heard.(begun := Some(word))
    case MarkInterrupted => heard.(interrupted := Some(word))
    case FailUnverified => heard.(failed := Some(word))
    case ReadBack => heard.(readBack := Some(word))
    case _ => heard
  }

  predicate Ok(word: Option<Word>) {
    word.Some? && word.value.ok
  }

  // ---------------------------------------------------------------- what follows from it

  predicate Settled(status: Status) {
    status.Accepted? || status.FailedBeforeAdd? || status.Finished?
  }

  /** The row was read and valid, and the lock was held, or free and taken. */
  predicate Opened(h: Heard) {
    Ok(h.read) && Ok(h.validated) && (h.acquired.None? || (Ok(h.acquired) && h.acquired.value.lockFree))
  }

  predicate Claimed(h: Heard, claim: Claim) {
    Opened(h) && Ok(h.claimed) && h.claimed.value.claim == claim
  }

  /** The call is for a ready checkpoint, or for a row without one. */
  predicate OnCheckpoint(call: Call, h: Heard) {
    Claimed(h, Ready) && !call.candidate
  }

  predicate OnPlainRow(call: Call, h: Heard) {
    Claimed(h, NotCheckpoint) && !call.checkpointRequired
  }

  /** The checkpoint's row was reserved both times, and its files are to be verified under the policy. */
  predicate MayVerify(call: Call, h: Heard) {
    OnCheckpoint(call, h) && h.claimed.value.status.Reserved? && h.read.value.status.Reserved? && call.policy
  }

  /** The call goes by the status that it read at its start, on the kind of row that it is for. */
  predicate Matched(call: Call, codeChange: bool, h: Heard) {
    (OnPlainRow(call, h) || (MayVerify(call, h) && Ok(h.verified))) && call.candidate == codeChange
  }

  predicate ReadyToBegin(call: Call, codeChange: bool, h: Heard) {
    Matched(call, codeChange, h) && h.read.value.status.Reserved? && Ok(h.checked) && Ok(h.prepared)
  }

  /** The row is what the route of the call expects, when it is asked for the winning step. */
  predicate Expected(call: Call, h: Heard) {
    && h.begun.Some? && h.begun.value.status.Reserved?
    && (h.begun.value.claim.Ready? <==> OnCheckpoint(call, h))
  }

  predicate Wins(call: Call, codeChange: bool, h: Heard) {
    ReadyToBegin(call, codeChange, h) && Ok(h.begun) && Expected(call, h) && h.begun.value.active
  }

  /** The checkpoint is blocked, or the campaign is not active at the winning step. */
  predicate Defers(call: Call, codeChange: bool, h: Heard) {
    || Claimed(h, Blocked)
    || (&& ReadyToBegin(call, codeChange, h) && Ok(h.begun) && !h.begun.value.active
        && (OnCheckpoint(call, h) || Expected(call, h)))
  }

  /** The row was settled when it was read: a checkpoint's under the lock, any other before it. */
  predicate FindsSettled(call: Call, codeChange: bool, h: Heard) {
    || (OnCheckpoint(call, h) && Settled(h.claimed.value.status))
    || (&& Matched(call, codeChange, h) && Settled(h.read.value.status)
        && (call.candidate ==> Ok(h.checked)))
  }

  predicate FindsSubmitting(call: Call, codeChange: bool, h: Heard) {
    || (OnCheckpoint(call, h) && h.claimed.value.status.Submitting?)
    || (Matched(call, codeChange, h) && h.read.value.status.Submitting?)
  }

  predicate FindsUnverified(call: Call, h: Heard) {
    MayVerify(call, h) && h.verified.Some? && !h.verified.value.ok
  }

  // ---------------------------------------------------------------- a call follows it

  /** Before it has won or ended, a call is where what it has heard leads. */
  predicate PhaseFollows(d: Dispatcher, codeChange: bool, h: Heard) {
    match d.phase
    case ReadCurrent => h == NOTHING_HEARD
    case Validate => Ok(h.read) && h.acquired.None?
    case AcquireLock => Ok(h.read) && Ok(h.validated)
    case ReadAuthority => Opened(h)
    case CheckAuthority => OnCheckpoint(d.call, h) && d.locals.authority == Some(h.claimed.value.status)
    case MatchStatus => OnPlainRow(d.call, h) || (MayVerify(d.call, h) && Ok(h.verified))
    case Prepare => Matched(d.call, codeChange, h) && h.read.value.status.Reserved? && Ok(h.checked)
    case BeginSubmitting => ReadyToBegin(d.call, codeChange, h)
    case MarkInterrupted => FindsSubmitting(d.call, codeChange, h)
    case FailUnverified => FindsUnverified(d.call, h)
    case ReadBack => d.won || FindsSettled(d.call, codeChange, h)
    case _ => true
  }

  predicate LocalsFollow(d: Dispatcher, h: Heard) {
    && (|| d.phase.Validate? || d.phase.AcquireLock? || d.phase.ReadAuthority? || d.phase.CheckAuthority?
        || d.phase.MatchStatus? ==>
          h.read.Some? && d.locals.current == h.read.value.status)
    && (BeforeLock(d.phase) || d.phase.ReadAuthority? ==> d.locals.authority.None?)
    && (d.phase.MatchStatus? || d.phase.Prepare? || d.phase.BeginSubmitting? ==>
          (d.locals.authority.Some? <==> OnCheckpoint(d.call, h)))
  }

  /** How a call that has not won returns, and which call marks its row. */
  predicate EndFollows(d: Dispatcher, codeChange: bool, h: Heard) {
    && (d.phase.Returned? && !d.won ==>
          && !Wins(d.call, codeChange, h)
          && (d.phase.verdict == Deferred <==> Defers(d.call, codeChange, h))
          && (d.phase.verdict == Submitted <==> FindsSettled(d.call, codeChange, h) && Ok(h.readBack)))
    && (d.phase.Returned? ==>
          && (h.interrupted.Some? <==> FindsSubmitting(d.call, codeChange, h))
          && (h.failed.Some? <==> FindsUnverified(d.call, h)))
    && (!Ended(d.phase) ==> h.interrupted.None? && h.failed.None?)
  }

  predicate Follows(d: Dispatcher, codeChange: bool, h: Heard) {
    && (d.won ==> Wins(d.call, codeChange, h))
    && PhaseFollows(d, codeChange, h) && LocalsFollow(d, h) && EndFollows(d, codeChange, h)
  }

  lemma ReadingFollows(d: Dispatcher, e: Experiment, lockFree: bool, a: Answer, h: Heard)
    requires !d.won && Follows(d, e.codeChange, h) && d.phase.ReadCurrent?
    ensures var after, heard := Act(d, e, lockFree, a).0, Hear(h, d.phase, WordOf(e, lockFree, a));
            Follows(after, e.codeChange, heard)
  {
  }

  lemma ValidatingFollows(d: Dispatcher, e: Experiment, lockFree: bool, a: Answer, h: Heard)
    requires !d.won && Follows(d, e.codeChange, h) && d.phase.Validate?
    ensures var after, heard := Act(d, e, lockFree, a).0, Hear(h, d.phase, WordOf(e, lockFree, a));
            Follows(after, e.codeChange, heard)
  {
  }

  lemma LockingFollows(d: Dispatcher, e: Experiment, lockFree: bool, a: Answer, h: Heard)
    requires !d.won && Follows(d, e.codeChange, h) && d.phase.AcquireLock?
    ensures var after, heard := Act(d, e, lockFree, a).0, Hear(h, d.phase, WordOf(e, lockFree, a));
            Follows(after, e.codeChange, heard)
  {
  }

  lemma ClaimingFollows(d: Dispatcher, e: Experiment, lockFree: bool, a: Answer, h: Heard)
    requires !d.won && Follows(d, e.codeChange, h) && d.phase.ReadAuthority?
    ensures var after, heard := ChooseAuthority(d, e.status, a), Hear(h, d.phase, WordOf(e, lockFree, a));
            Follows(after, e.codeChange, heard)
  {
  }

  lemma VerifyingFollows(d: Dispatcher, e: Experiment, lockFree: bool, a: Answer, h: Heard)
    requires !d.won && Follows(d, e.codeChange, h) && d.phase.CheckAuthority? && d.locals.authority == Some(Reserved)
    ensures var after, heard := DispatchAuthority(d, a), Hear(h, d.phase, WordOf(e, lockFree, a));
            Follows(after, e.codeChange, heard)
  {
  }

  lemma NotVerifyingFollows(d: Dispatcher, e: Experiment, lockFree: bool, a: Answer, h: Heard)
    requires !d.won && Follows(d, e.codeChange, h) && d.phase.CheckAuthority? && d.locals.authority != Some(Reserved)
    ensures var after, heard := DispatchAuthority(d, a), Hear(h, d.phase, WordOf(e, lockFree, a));
            Follows(after, e.codeChange, heard)
  {
  }

  lemma AuthorizingFollows(d: Dispatcher, e: Experiment, lockFree: bool, a: Answer, h: Heard)
    requires !d.won && Follows(d, e.codeChange, h) && d.phase.CheckAuthority?
    ensures var after, heard := DispatchAuthority(d, a), Hear(h, d.phase, WordOf(e, lockFree, a));
            Follows(after, e.codeChange, heard)
  {
    if d.locals.authority == Some(Reserved) {
      VerifyingFollows(d, e, lockFree, a, h);
    } else {
      NotVerifyingFollows(d, e, lockFree, a, h);
    }
  }

  lemma ReservedFollows(d: Dispatcher, e: Experiment, lockFree: bool, a: Answer, h: Heard)
    requires !d.won && Follows(d, e.codeChange, h) && d.phase.MatchStatus? && d.locals.current.Reserved?
    ensures var after, heard := DispatchStatus(d, e.codeChange, a), Hear(h, d.phase, WordOf(e, lockFree, a));
            Follows(after, e.codeChange, heard)
  {
  }

  lemma NotReservedFollows(d: Dispatcher, e: Experiment, lockFree: bool, a: Answer, h: Heard)
    requires !d.won && Follows(d, e.codeChange, h) && d.phase.MatchStatus? && !d.locals.current.Reserved?
    ensures var after, heard := DispatchStatus(d, e.codeChange, a), Hear(h, d.phase, WordOf(e, lockFree, a));
            Follows(after, e.codeChange, heard)
  {
  }

  lemma MatchingFollows(d: Dispatcher, e: Experiment, lockFree: bool, a: Answer, h: Heard)
    requires !d.won && Follows(d, e.codeChange, h) && d.phase.MatchStatus?
    ensures var after, heard := DispatchStatus(d, e.codeChange, a), Hear(h, d.phase, WordOf(e, lockFree, a));
            Follows(after, e.codeChange, heard)
  {
    if d.locals.current.Reserved? {
      ReservedFollows(d, e, lockFree, a, h);
    } else {
      NotReservedFollows(d, e, lockFree, a, h);
    }
  }

  lemma PreparingFollows(d: Dispatcher, e: Experiment, lockFree: bool, a: Answer, h: Heard)
    requires !d.won && Follows(d, e.codeChange, h) && d.phase.Prepare?
    ensures var after, heard := Act(d, e, lockFree, a).0, Hear(h, d.phase, WordOf(e, lockFree, a));
            Follows(after, e.codeChange, heard)
  {
  }

  lemma ActiveFollows(d: Dispatcher, e: Experiment, lockFree: bool, a: Answer, h: Heard)
    requires !d.won && Follows(d, e.codeChange, h) && d.phase.BeginSubmitting? && a.active
    ensures var after, heard := Win(d, e, a).0, Hear(h, d.phase, WordOf(e, lockFree, a));
            Follows(after, e.codeChange, heard)
  {
  }

  lemma InactiveFollows(d: Dispatcher, e: Experiment, lockFree: bool, a: Answer, h: Heard)
    requires !d.won && Follows(d, e.codeChange, h) && d.phase.BeginSubmitting? && !a.active
    ensures var after, heard := Win(d, e, a).0, Hear(h, d.phase, WordOf(e, lockFree, a));
            Follows(after, e.codeChange, heard)
  {
  }

  lemma WinningFollows(d: Dispatcher, e: Experiment, lockFree: bool, a: Answer, h: Heard)
    requires !d.won && Follows(d, e.codeChange, h) && d.phase.BeginSubmitting?
    ensures var after, heard := Win(d, e, a).0, Hear(h, d.phase, WordOf(e, lockFree, a));
            Follows(after, e.codeChange, heard)
  {
    if a.active {
      ActiveFollows(d, e, lockFree, a, h);
    } else {
      InactiveFollows(d, e, lockFree, a, h);
    }
  }

  lemma MarkingFollows(d: Dispatcher, e: Experiment, lockFree: bool, a: Answer, h: Heard)
    requires !d.won && Follows(d, e.codeChange, h) && (d.phase.MarkInterrupted? || d.phase.FailUnverified?)
    ensures var after, heard := Act(d, e, lockFree, a).0, Hear(h, d.phase, WordOf(e, lockFree, a));
            Follows(after, e.codeChange, heard)
  {
  }

  lemma EndingFollows(d: Dispatcher, e: Experiment, lockFree: bool, a: Answer, h: Heard)
    requires Placed(d) && Follows(d, e.codeChange, h) && (StageOf(d.phase).Ending?)
    ensures var after, heard := Act(d, e, lockFree, a).0, Hear(h, d.phase, WordOf(e, lockFree, a));
            Follows(after, e.codeChange, heard)
  {
  }

  lemma WinnerFollows(d: Dispatcher, codeChange: bool, h: Heard)
    requires d.won && Wins(d.call, codeChange, h) && h.interrupted.None? && h.failed.None?
    requires AfterWin(d.phase) || d.phase.ReadBack? || d.phase.Returned?
    ensures Follows(d, codeChange, h)
  {
  }

  predicate GoesOn(d: Dispatcher, after: Dispatcher) {
    && after.won == d.won && after.call == d.call
    && (AfterWin(after.phase) || after.phase.ReadBack? || after.phase.Returned?)
  }

  lemma AddingGoesOn(d: Dispatcher, e: Experiment, lockFree: bool, a: Answer)
    requires StageOf(d.phase).Adding?
    ensures GoesOn(d, Act(d, e, lockFree, a).0)
  {
  }

  lemma CheckingGoesOn(d: Dispatcher, e: Experiment, lockFree: bool, a: Answer)
    requires StageOf(d.phase).Checking? || StageOf(d.phase).Accepting?
    ensures GoesOn(d, Act(d, e, lockFree, a).0)
  {
  }

  lemma MarkingGoesOn(d: Dispatcher, e: Experiment, lockFree: bool, a: Answer)
    requires StageOf(d.phase).Marking?
    ensures GoesOn(d, Act(d, e, lockFree, a).0)
  {
  }

  lemma WonFollows(d: Dispatcher, e: Experiment, lockFree: bool, a: Answer, h: Heard)
    requires Placed(d) && Follows(d, e.codeChange, h) && AfterWin(d.phase)
    ensures Follows(Act(d, e, lockFree, a).0, e.codeChange, Hear(h, d.phase, WordOf(e, lockFree, a)))
  {
    match StageOf(d.phase) {
      case Adding => AddingGoesOn(d, e, lockFree, a);
      case Checking | Accepting => CheckingGoesOn(d, e, lockFree, a);
      case _ => MarkingGoesOn(d, e, lockFree, a);
    }
    WinnerFollows(Act(d, e, lockFree, a).0, e.codeChange, h);
  }

  lemma ActFollows(d: Dispatcher, e: Experiment, lockFree: bool, a: Answer, h: Heard)
    requires Placed(d) && Follows(d, e.codeChange, h)
    ensures Follows(Act(d, e, lockFree, a).0, e.codeChange, Hear(h, d.phase, WordOf(e, lockFree, a)))
  {
    if AfterWin(d.phase) {
      WonFollows(d, e, lockFree, a, h);
    } else {
      match d.phase
      case ReadCurrent => ReadingFollows(d, e, lockFree, a, h);
      case Validate => ValidatingFollows(d, e, lockFree, a, h);
      case AcquireLock => LockingFollows(d, e, lockFree, a, h);
      case ReadAuthority => ClaimingFollows(d, e, lockFree, a, h);
      case CheckAuthority => AuthorizingFollows(d, e, lockFree, a, h);
      case MatchStatus => MatchingFollows(d, e, lockFree, a, h);
      case Prepare => PreparingFollows(d, e, lockFree, a, h);
      case BeginSubmitting => WinningFollows(d, e, lockFree, a, h);
      case MarkInterrupted | FailUnverified => MarkingFollows(d, e, lockFree, a, h);
      case ReadBack | Returned(_) | Crashed => EndingFollows(d, e, lockFree, a, h);
      case _ =>
    }
  }

  // ---------------------------------------------------------------- over every run

  predicate Steps(w: World, event: Event, id: DispatcherId) {
    event.Step? && event.id == id && id in w.dispatchers && w.dispatchers[id].call.experiment in w.experiments
  }

  /** What the first `n` events of a run let a call hear. */
  function HeardBy(h: History, n: nat, id: DispatcherId): Heard
    requires |h.worlds| == |h.events| + 1 && n <= |h.events|
  {
    if n == 0 then NOTHING_HEARD
    else
      var w, event := h.worlds[n - 1], h.events[n - 1];
      if Steps(w, event, id) then
        var d := w.dispatchers[id];
        Hear(HeardBy(h, n - 1, id), d.phase,
             WordOf(w.experiments[d.call.experiment], LockFree(w, d.call.project), event.answer))
      else HeardBy(h, n - 1, id)
  }

  predicate FollowsIn(w: World, id: DispatcherId, h: Heard) {
    if id in w.dispatchers then
      w.dispatchers[id].call.experiment in w.experiments
      && Follows(w.dispatchers[id], w.experiments[w.dispatchers[id].call.experiment].codeChange, h)
    else h == NOTHING_HEARD
  }

  lemma StepFollows(w: World, id: DispatcherId, a: Answer, h: Heard)
    requires Safe(w) && id in w.dispatchers && FollowsIn(w, id, h)
    ensures var d := w.dispatchers[id];
            var word := WordOf(w.experiments[d.call.experiment], LockFree(w, d.call.project), a);
            FollowsIn(Next(w, Step(id, a)), id, Hear(h, d.phase, word))
  {
    var d := w.dispatchers[id];
    var e, lockFree := w.experiments[d.call.experiment], LockFree(w, d.call.project);
    assert Rowed(w, d) && RowOk(e);
    ActFollows(d, e, lockFree, a, h);
    ActKeeps(d, e, lockFree, a);
    StepWrites(d, e, lockFree, a);
  }

  lemma StepKeepsKind(w: World, other: DispatcherId, a: Answer, x: ExperimentId)
    requires Safe(w) && x in w.experiments
    ensures x in Next(w, Step(other, a)).experiments
    ensures Next(w, Step(other, a)).experiments[x].codeChange == w.experiments[x].codeChange
  {
    if other in w.dispatchers {
      var d := w.dispatchers[other];
      assert Rowed(w, d);
      StepWrites(d, w.experiments[d.call.experiment], LockFree(w, d.call.project), a);
    }
  }

  /** The call is where it was or has crashed, and its row is of the same kind. */
  predicate LeavesCall(w: World, after: World, id: DispatcherId)
    requires id in w.dispatchers && w.dispatchers[id].call.experiment in w.experiments
  {
    var d := w.dispatchers[id];
    && id in after.dispatchers && after.dispatchers[id] in {d, Goto(d, Crashed)}
    && d.call.experiment in after.experiments
    && after.experiments[d.call.experiment].codeChange == w.experiments[d.call.experiment].codeChange
  }

  lemma OthersLeaveTheCall(w: World, event: Event, id: DispatcherId)
    requires Safe(w) && id in w.dispatchers && w.dispatchers[id].call.experiment in w.experiments
    requires !Steps(w, event, id)
    ensures LeavesCall(w, Next(w, event), id)
  {
    if event.Step? {
      StepKeepsKind(w, event.id, event.answer, w.dispatchers[id].call.experiment);
    } else {
      EventWrites(w, event, w.dispatchers[id].call.experiment);
    }
  }

  lemma LeftCallFollows(w: World, after: World, id: DispatcherId, h: Heard)
    requires id in w.dispatchers && FollowsIn(w, id, h) && LeavesCall(w, after, id)
    ensures FollowsIn(after, id, h)
  {
  }

  lemma EventFollows(w: World, event: Event, id: DispatcherId, h: Heard)
    requires Safe(w) && FollowsIn(w, id, h) && !Steps(w, event, id)
    ensures FollowsIn(Next(w, event), id, h)
  {
    if id in w.dispatchers {
      OthersLeaveTheCall(w, event, id);
      LeftCallFollows(w, Next(w, event), id, h);
    }
  }

  lemma {:induction false} RunFollows(h: History, n: nat, id: DispatcherId)
    requires IsRun(h) && n <= |h.events|
    ensures FollowsIn(h.worlds[n], id, HeardBy(h, n, id))
  {
    if n > 0 {
      RunFollows(h, n - 1, id);
      RunIsSafe(h, n - 1);
      assert StepAt(h, n - 1);
      var w, event := h.worlds[n - 1], h.events[n - 1];
      if Steps(w, event, id) {
        StepFollows(w, id, event.answer, HeardBy(h, n - 1, id));
      } else {
        EventFollows(w, event, id, HeardBy(h, n - 1, id));
      }
    }
  }

  /**
   A call that has returned has won its row, deferred, reported a settled row or failed, marked the row as interrupted
   or failed it before its add, exactly as what it heard up to its winning step says.
   */
  lemma ReturnsExactly(h: History, n: nat, id: DispatcherId)
    requires IsRun(h) && n <= |h.events| && id in h.worlds[n].dispatchers && h.worlds[n].dispatchers[id].phase.Returned?
    ensures var w, heard := h.worlds[n], HeardBy(h, n, id);
            var d := w.dispatchers[id];
            && d.call.experiment in w.experiments
            && var codeChange := w.experiments[d.call.experiment].codeChange;
               && (d.won <==> Wins(d.call, codeChange, heard))
               && (!d.won ==>
                     && (d.phase.verdict == Deferred <==> Defers(d.call, codeChange, heard))
                     && (d.phase.verdict == Submitted
                         <==> FindsSettled(d.call, codeChange, heard) && Ok(heard.readBack)))
               && (heard.interrupted.Some? <==> FindsSubmitting(d.call, codeChange, heard))
               && (heard.failed.Some? <==> FindsUnverified(d.call, heard))
  {
    RunFollows(h, n, id);
  }
}
