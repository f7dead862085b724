/**
 The recovery evidence of one research owner that a daemon found at its start (`src/daemon.rs`): which
 observations may replace the evidence, and what has to hold before the owner is retired.
 */
module OwnerLifecycle {
  import opened Wrappers

  // ---------------------------------------------------------------- the evidence

  /** The store keeps these as text; `Other` stands for any text that is not one of the named ones. */
  datatype Status = Starting | Running | Completed | Failed | TimedOut | Cancelled | OtherStatus(text: string)

  datatype Gate = GatePending | ReleaseRequested | Released | GateFailed | OtherGate(text: string)

  datatype Review =
    | Pending | ReviewRunning | Ready | RetryWait | Blocked | ReviewCompleted | Discarded
    | OtherReview(text: string)

  /** The fields of an authority that never change, compared one by one. */
  datatype Lineage = Lineage(version: nat, run: int, review: string, campaign: string, experiment: string,
                             attempt: int, generation: int, freshLaunch: bool, session: string, identity: string)

  datatype Authority = Authority(lineage: Lineage, sessionConfirmed: bool, cleanupComplete: bool)

  datatype Origin = Origin(status: Status, gate: Gate, policyCode: Option<string>, failureStage: Option<string>)

  datatype Owner = Owner(project: string, review: string, pid: Option<int>, logPath: Option<string>,
                         status: Status, gate: Gate, reviewState: Review,
                         failureCode: Option<string>, policyCode: Option<string>, failureStage: Option<string>,
                         notes: Option<string>, markerAbsent: bool, authority: Option<Authority>,
                         original: Origin)

  /** An owner as the startup snapshot takes it. */
  predicate AtStartup(o: Owner) {
    o.original == Origin(o.status, o.gate, o.policyCode, o.failureStage)
  }

  // ---------------------------------------------------------------- which observation may follow

  predicate Terminal(s: Status) {
    s.Completed? || s.Failed? || s.TimedOut? || s.Cancelled?
  }

  predicate StatusAllowed(a: Status, b: Status) {
    a == b || (a.Starting? && (b.Running? || Terminal(b))) || (a.Running? && Terminal(b))
  }

  predicate GateAllowed(a: Gate, b: Gate) {
    || a == b
    || (a.GatePending? && (b.ReleaseRequested? || b.Released? || b.GateFailed?))
    || (a.ReleaseRequested? && (b.Released? || b.GateFailed?))
  }

  predicate ReviewAllowed(a: Review, b: Review) {
    || a == b
    || (a.Pending? && b.ReviewRunning?)
    || (a.ReviewRunning? && (b.Ready? || b.RetryWait? || b.Blocked? || b.ReviewCompleted? || b.Discarded?))
    || (a.Ready? && (b.ReviewCompleted? || b.Discarded?))
    || (a.RetryWait? && (b.Blocked? || b.ReviewCompleted? || b.Discarded?))
    || (a.Blocked? && (b.ReviewCompleted? || b.Discarded?))
  }

  /** A code never changes once it is set, and is first set only beside a review that has ended or waits. */
  predicate CodeAllowed(a: Option<string>, b: Option<string>, review: Review) {
    && (a.Some? ==> a == b)
    && (a.None? && b.Some? ==> review.RetryWait? || review.Blocked? || review.ReviewCompleted? || review.Discarded?)
  }

  predicate SafePreExec(o: Owner) {
    o.markerAbsent && o.pid.None? && o.status.Starting? && o.gate.GatePending?
    && o.policyCode.None? && o.failureStage.None?
  }

  predicate InitiallySafePreExec(o: Owner) {
    o.markerAbsent && o.pid.None? && o.original.status.Starting? && o.original.gate.GatePending?
    && o.original.policyCode.None? && o.original.failureStage.None?
  }

  predicate LifecycleAllowed(original: Owner, current: Owner) {
    && original.pid == current.pid && original.logPath == current.logPath
    && !(original.pid.None? && SafePreExec(current) && !InitiallySafePreExec(original))
    && StatusAllowed(original.status, current.status)
    && GateAllowed(original.gate, current.gate)
    && ReviewAllowed(original.reviewState, current.reviewState)
    && CodeAllowed(original.failureCode, current.failureCode, current.reviewState)
    && CodeAllowed(original.policyCode, current.policyCode, current.reviewState)
    && CodeAllowed(original.failureStage, current.failureStage, current.reviewState)
  }

  predicate SafetyUnchanged(original: Owner, current: Owner) {
    && original.authority.Some? && current.authority.Some?
    && original.authority.value.lineage == current.authority.value.lineage
    && original.project == current.project && original.review == current.review
    && original.pid == current.pid && original.logPath == current.logPath
  }

  predicate AuthorityProgress(original: Owner, current: Owner) {
    && original.authority.Some? && current.authority.Some?
    && (original.authority.value.sessionConfirmed ==> current.authority.value.sessionConfirmed)
    && (original.authority.value.cleanupComplete ==> current.authority.value.cleanupComplete)
  }

  predicate Accepted(original: Owner, current: Owner) {
    SafetyUnchanged(original, current) && AuthorityProgress(original, current) && LifecycleAllowed(original, current)
  }

  /** The accepted observation, with the startup evidence put back over it. */
  function Refreshed(original: Owner, current: Owner): Owner {
    current.(project := original.project, review := original.review, pid := original.pid,
             logPath := original.logPath, markerAbsent := original.markerAbsent, original := original.original)
  }

  // ---------------------------------------------------------------- one poll of one owner

  datatype Read = ReadFailed | NoOwner | Found(owner: Owner)
  datatype ProjectAnswer = ProjectFailed | ProjectMissing | ProjectFound
  datatype LockAnswer = LockFailed | LockBusy | LockHeld
  datatype RetireAnswer = RetireFailed | NotRetired | Retired

  /** What the calls of one poll of one owner answer. */
  datatype Answer = Answer(read: Read, markFails: bool, processQuiescent: bool, project: ProjectAnswer, config: bool,
                           policy: bool, lock: LockAnswer, markerAbsent: bool, cleanupOpened: bool,
                           retire: RetireAnswer)

  /**
   What the poll does: the entry that is left (None when it is removed), whether the owner was marked for
   recovery, whether its retirement was asked for, whether an error was noted, and whether the pass stops.
   */
  datatype Outcome = Outcome(entry: Option<Owner>, marked: bool, retireAsked: bool, error: bool, stop: bool)

  function Keep(o: Owner): Outcome {
    Outcome(Some(o), false, false, false, false)
  }

  function Note(o: Owner): Outcome {
    Outcome(Some(o), false, false, true, false)
  }

  function Mark(o: Owner, a: Answer): Outcome {
    Outcome(Some(o), true, false, a.markFails, false)
  }

  predicate Quiescent(o: Owner, a: Answer) {
    Terminal(o.status) || if o.pid.Some? then a.processQuiescent else SafePreExec(o)
  }

  /** The store passes the marker evidence of the entry through to what it reads. */
  function Observed(o: Owner, read: Owner): Owner {
    read.(markerAbsent := o.markerAbsent)
  }

  function PollOwner(o: Owner, runner: bool, a: Answer): Outcome {
    match a.read
    case ReadFailed => Note(o)
    case NoOwner => Outcome(None, false, false, false, false)
    case Found(read) =>
      if !Accepted(o, Observed(o, read)) then Mark(o, a)
      else
        var p := Refreshed(o, Observed(o, read));
        if Quiescent(p, a) then Recover(p, runner, a) else Keep(p)
  }

  /** The rest of the poll, for an owner whose process is gone or never started. */
  function Recover(o: Owner, runner: bool, a: Answer): Outcome {
    if a.project.ProjectFailed? then Note(o)
    else if a.project.ProjectMissing? || !a.config then Mark(o, a)
    else if !runner then Note(o).(stop := true)
    else if !a.policy then Mark(o, a)
    else if a.lock.LockFailed? then Note(o)
    else if a.lock.LockBusy? then Keep(o)
    else if o.pid.None? && (o.logPath.None? || !a.markerAbsent) then Mark(o, a)
    else if o.authority.Some? && !o.authority.value.cleanupComplete && !a.cleanupOpened then Mark(o, a)
    else Outcome(if a.retire.Retired? then None else Some(o), false, true, a.retire.RetireFailed?, false)
  }

  // ---------------------------------------------------------------- what a retirement rests on

  /** A retirement is asked for exactly with this evidence. */
  lemma RetirementExactly(o: Owner, runner: bool, a: Answer)
    ensures PollOwner(o, runner, a).retireAsked <==>
              && a.read.Found? && Accepted(o, Observed(o, a.read.owner))
              && var c := Observed(o, a.read.owner);
                 && (|| Terminal(c.status)
                     || (c.pid.Some? && a.processQuiescent)
                     || (c.pid.None? && SafePreExec(c) && InitiallySafePreExec(o)))
                 && a.project.ProjectFound? && a.config && runner && a.policy && a.lock.LockHeld?
                 && (c.pid.None? ==> c.logPath.Some? && a.markerAbsent)
                 && (c.authority.value.cleanupComplete || a.cleanupOpened)
  {
    if a.read.Found? && Accepted(o, Observed(o, a.read.owner)) {
      var c := Observed(o, a.read.owner);
      assert Refreshed(o, c).(original := c.original) == c;
    }
  }

  // ---------------------------------------------------------------- how a poll ends

  /** An observation has replaced the evidence, and the process is gone or was never started. */
  predicate Gone(o: Owner, a: Answer) {
    && a.read.Found? && Accepted(o, Observed(o, a.read.owner))
    && var c := a.read.owner;
       || c.status.Completed? || c.status.Failed? || c.status.TimedOut? || c.status.Cancelled?
       || (c.pid.Some? && a.processQuiescent)
       || (&& c.pid.None? && o.markerAbsent && o.pid.None?
           && c.status.Starting? && c.gate.GatePending? && c.policyCode.None? && c.failureStage.None?
           && o.original.status.Starting? && o.original.gate.GatePending?
           && o.original.policyCode.None? && o.original.failureStage.None?)
  }

  /** The project may be recovered now: it is there, its policy holds, and its lock is this daemon's. */
  predicate Entered(o: Owner, runner: bool, a: Answer) {
    Gone(o, a) && a.project.ProjectFound? && a.config && runner && a.policy && a.lock.LockHeld?
  }

  lemma GoneGoesOn(o: Owner, runner: bool, a: Answer)
    requires Gone(o, a)
    ensures var p := Refreshed(o, Observed(o, a.read.owner));
            PollOwner(o, runner, a) == Recover(p, runner, a)
            && p.pid == a.read.owner.pid && p.logPath == a.read.owner.logPath && p.authority == a.read.owner.authority
  {
    assert Accepted(o, Observed(o, a.read.owner));
  }

  lemma RecoverEnds(o: Owner, runner: bool, a: Answer)
    ensures Recover(o, runner, a).entry.None? <==> Recover(o, runner, a).retireAsked && a.retire.Retired?
    ensures Recover(o, runner, a).entry.Some? ==> Recover(o, runner, a).entry.value == o
  {
  }

  /** An owner leaves the map exactly when it is not in the store any more, or is retired. */
  lemma LeavesExactly(o: Owner, runner: bool, a: Answer)
    ensures PollOwner(o, runner, a).entry.None?
            <==> a.read.NoOwner? || (PollOwner(o, runner, a).retireAsked && a.retire.Retired?)
  {
    if a.read.Found? {
      RecoverEnds(Refreshed(o, Observed(o, a.read.owner)), runner, a);
    }
  }

  /** The pass stops exactly when a project could be recovered and there is no runner to do it. */
  lemma StopsExactly(o: Owner, runner: bool, a: Answer)
    ensures PollOwner(o, runner, a).stop <==> Gone(o, a) && a.project.ProjectFound? && a.config && !runner
  {
    if Gone(o, a) {
      GoneGoesOn(o, runner, a);
    }
  }

  /**
   An owner is marked for recovery exactly when its evidence has changed, its project, configuration or policy is
   missing, or, under the lock, its start or its cleanup cannot be proved.
   */
  lemma MarkedExactly(o: Owner, runner: bool, a: Answer)
    ensures PollOwner(o, runner, a).marked <==>
              || (a.read.Found? && !Accepted(o, Observed(o, a.read.owner)))
              || (Gone(o, a) && (a.project.ProjectMissing? || (a.project.ProjectFound? && !a.config)))
              || (Gone(o, a) && a.project.ProjectFound? && a.config && runner && !a.policy)
              || (Entered(o, runner, a)
                  && (|| (a.read.owner.pid.None? && (a.read.owner.logPath.None? || !a.markerAbsent))
                      || (!a.read.owner.authority.value.cleanupComplete && !a.cleanupOpened)))
  {
    if Gone(o, a) {
      GoneGoesOn(o, runner, a);
    }
  }

  /** An error is noted exactly when a call failed that decides nothing, or there is no runner. */
  lemma ErrorExactly(o: Owner, runner: bool, a: Answer)
    ensures PollOwner(o, runner, a).error <==>
              || a.read.ReadFailed?
              || (PollOwner(o, runner, a).marked && a.markFails)
              || (Gone(o, a) && a.project.ProjectFailed?)
              || PollOwner(o, runner, a).stop
              || (Gone(o, a) && a.project.ProjectFound? && a.config && runner && a.policy && a.lock.LockFailed?)
              || (PollOwner(o, runner, a).retireAsked && a.retire.RetireFailed?)
  {
    if Gone(o, a) {
      GoneGoesOn(o, runner, a);
    }
  }

  /** What is left of an owner that stays: its snapshot's evidence, with the state that was read if it is accepted. */
  lemma EntryExactly(o: Owner, runner: bool, a: Answer)
    requires PollOwner(o, runner, a).entry.Some?
    ensures var later := PollOwner(o, runner, a).entry.value;
            && (!(a.read.Found? && Accepted(o, Observed(o, a.read.owner))) ==> later == o)
            && (a.read.Found? && Accepted(o, Observed(o, a.read.owner)) ==>
                  && Tracked(later) == Tracked(a.read.owner)
                  && later.project == o.project && later.review == o.review && later.pid == o.pid
                  && later.logPath == o.logPath && later.markerAbsent == o.markerAbsent
                  && later.original == o.original)
  {
    if a.read.Found? {
      var p := Refreshed(o, Observed(o, a.read.owner));
      RecoverEnds(p, runner, a);
      RefreshedKeeps(o, Observed(o, a.read.owner));
    }
  }

  lemma RefreshedKeeps(o: Owner, current: Owner)
    ensures var p := Refreshed(o, current);
            && Tracked(p) == Tracked(current)
            && p.project == o.project && p.review == o.review && p.pid == o.pid && p.logPath == o.logPath
            && p.markerAbsent == o.markerAbsent && p.original == o.original
  {
  }

  // ---------------------------------------------------------------- chains of accepted polls

  /** What never changes after the startup snapshot. */
  predicate Pinned(first: Owner, later: Owner) {
    && first.project == later.project && first.review == later.review && first.pid == later.pid
    && first.logPath == later.logPath && first.markerAbsent == later.markerAbsent && first.original == later.original
    && (first.authority.Some? <==> later.authority.Some?)
    && (first.authority.Some? ==> first.authority.value.lineage == later.authority.value.lineage)
  }

  function StatusRank(s: Status): nat {
    if Terminal(s) then 2 else if s.Running? then 1 else 0
  }

  function GateRank(g: Gate): nat {
    if g.Released? || g.GateFailed? then 2 else if g.ReleaseRequested? then 1 else 0
  }

  function ReviewRank(r: Review): nat {
    match r
    case ReviewRunning => 1
    case Ready | RetryWait => 2
    case Blocked => 3
    case ReviewCompleted | Discarded => 4
    case Pending | OtherReview(_) => 0
  }

  /** Nothing that has been reached is lost. */
  predicate Reached(first: Owner, later: Owner) {
    && StatusRank(first.status) <= StatusRank(later.status)
    && GateRank(first.gate) <= GateRank(later.gate)
    && ReviewRank(first.reviewState) <= ReviewRank(later.reviewState)
    && (first.failureCode.Some? ==> later.failureCode == first.failureCode)
    && (first.policyCode.Some? ==> later.policyCode == first.policyCode)
    && (first.failureStage.Some? ==> later.failureStage == first.failureStage)
    && (first.authority.Some? ==> AuthorityProgress(first, later))
  }

  predicate Descends(first: Owner, later: Owner) {
    Pinned(first, later) && Reached(first, later)
  }

  /** The fields that a poll may change and that are compared along a chain. */
  function Tracked(o: Owner)
    : (Status, Gate, Review, Option<string>, Option<string>, Option<string>, Option<Authority>)
  {
    (o.status, o.gate, o.reviewState, o.failureCode, o.policyCode, o.failureStage, o.authority)
  }

  function One(b: bool): nat {
    if b then 1 else 0
  }

  /** How far an owner has come. */
  function Progress(o: Owner): (n: nat)
    ensures n <= 13
  {
    StatusRank(o.status) + GateRank(o.gate) + ReviewRank(o.reviewState)
    + One(o.failureCode.Some?) + One(o.policyCode.Some?) + One(o.failureStage.Some?)
    + if o.authority.None? then 0
      else One(o.authority.value.sessionConfirmed) + One(o.authority.value.cleanupComplete)
  }

  /** A status, a gate or a review state other than the named ones never changes. */
  predicate Named(o: Owner) {
    !o.status.OtherStatus? && !o.gate.OtherGate? && !o.reviewState.OtherReview?
  }

  /**
   Between named states the allowed transitions are those that climb, where a pending review can only start, and a
   ready one is never blocked.
   */
  lemma AllowedIsClimbing(a: Owner, b: Owner)
    requires Named(a) && Named(b)
    ensures StatusAllowed(a.status, b.status)
            <==> a.status == b.status || StatusRank(a.status) < StatusRank(b.status)
    ensures GateAllowed(a.gate, b.gate) <==> a.gate == b.gate || GateRank(a.gate) < GateRank(b.gate)
    ensures ReviewAllowed(a.reviewState, b.reviewState) <==>
              || a.reviewState == b.reviewState
              || (&& ReviewRank(a.reviewState) < ReviewRank(b.reviewState)
                  && (a.reviewState.Pending? ==> b.reviewState.ReviewRunning?)
                  && !(a.reviewState.Ready? && b.reviewState.Blocked?))
  {
  }

  /** A code is kept, or first set beside a review that waits to be retried, is blocked or has ended. */
  lemma CodeIsKeptOrFirstSet(a: Option<string>, b: Option<string>, review: Review)
    ensures CodeAllowed(a, b, review) <==> a == b || (a.None? && ReviewRank(review) >= 2 && !review.Ready?)
  {
  }

  lemma OtherStatesStay(a: Owner, b: Owner)
    requires Accepted(a, b)
    ensures a.status.OtherStatus? || b.status.OtherStatus? ==> a.status == b.status
    ensures a.gate.OtherGate? || b.gate.OtherGate? ==> a.gate == b.gate
    ensures a.reviewState.OtherReview? || b.reviewState.OtherReview? ==> a.reviewState == b.reviewState
  {
  }

  predicate Climbs(a: Owner, b: Owner) {
    && (a.status == b.status || StatusRank(a.status) < StatusRank(b.status))
    && (a.gate == b.gate || GateRank(a.gate) < GateRank(b.gate))
    && (|| a.reviewState == b.reviewState
        || (&& ReviewRank(a.reviewState) < ReviewRank(b.reviewState)
            && (a.reviewState.Pending? ==> b.reviewState.ReviewRunning?)
            && !(a.reviewState.Ready? && b.reviewState.Blocked?)))
  }

  /**
   An observation of named states is accepted exactly when it is about the same run under the same authority, its
   states have climbed, every code is kept or may be set now, and it does not look as if the process was never
   started unless it already looked so at the snapshot.
   */
  lemma AcceptedExactly(a: Owner, b: Owner)
    requires Named(a) && Named(b)
    ensures Accepted(a, b) <==>
              && a.project == b.project && a.review == b.review && a.pid == b.pid && a.logPath == b.logPath
              && a.authority.Some? && b.authority.Some?
              && a.authority.value.lineage == b.authority.value.lineage
              && (a.authority.value.sessionConfirmed ==> b.authority.value.sessionConfirmed)
              && (a.authority.value.cleanupComplete ==> b.authority.value.cleanupComplete)
              && Climbs(a, b)
              && CodeAllowed(a.failureCode, b.failureCode, b.reviewState)
              && CodeAllowed(a.policyCode, b.policyCode, b.reviewState)
              && CodeAllowed(a.failureStage, b.failureStage, b.reviewState)
              && (&& b.markerAbsent && b.pid.None? && b.status.Starting? && b.gate.GatePending?
                  && b.policyCode.None? && b.failureStage.None?
                  ==>
                    && a.markerAbsent && a.original.status.Starting? && a.original.gate.GatePending?
                    && a.original.policyCode.None? && a.original.failureStage.None?)
  {
    AllowedIsClimbing(a, b);
  }

  lemma AllowedRaises(a: Owner, b: Owner)
    requires Accepted(a, b)
    ensures Reached(a, b) && Progress(a) <= Progress(b)
    ensures Tracked(a) != Tracked(b) ==> Progress(a) < Progress(b)
  {
    assert a.authority == b.authority || Tracked(a) != Tracked(b);
  }

  lemma DescendsIsTransitive(a: Owner, b: Owner, c: Owner)
    requires Descends(a, b) && Descends(b, c)
    ensures Descends(a, c)
  {
  }

  /** A poll leaves the evidence as it was, or refreshed by an accepted observation. */
  lemma EntryIsKeptOrRefreshed(o: Owner, runner: bool, a: Answer)
    requires PollOwner(o, runner, a).entry.Some?
    ensures var later := PollOwner(o, runner, a).entry.value;
            || later == o
            || (a.read.Found? && Accepted(o, Observed(o, a.read.owner))
                && later == Refreshed(o, Observed(o, a.read.owner)))
  {
  }

  lemma RefreshedDescends(o: Owner, current: Owner)
    requires Accepted(o, current) && current.markerAbsent == o.markerAbsent
    ensures Descends(o, Refreshed(o, current)) && Tracked(Refreshed(o, current)) == Tracked(current)
    ensures Progress(Refreshed(o, current)) == Progress(current)
  {
    AllowedRaises(o, current);
  }

  /** A poll leaves an owner that stays pinned to its snapshot, and any tracked change is progress. */
  lemma PollKeepsEvidence(o: Owner, runner: bool, a: Answer)
    requires PollOwner(o, runner, a).entry.Some?
    ensures var later := PollOwner(o, runner, a).entry.value;
            Descends(o, later) && Progress(o) + One(Tracked(o) != Tracked(later)) <= Progress(later)
  {
    EntryIsKeptOrRefreshed(o, runner, a);
    if PollOwner(o, runner, a).entry.value != o {
      var current := Observed(o, a.read.owner);
      RefreshedDescends(o, current);
      AllowedRaises(o, current);
    }
  }

  /** An owner after `n` changes, each of one field. */
  function Stage(n: nat): Owner {
    var lineage := Lineage(1, 1, "review", "campaign", "experiment", 1, 1, true, "session", "identity");
    Owner("project", "review", Some(1), None,
          if n < 1 then Starting else if n < 2 then Running else Completed,
          if n < 3 then GatePending else if n < 4 then ReleaseRequested else Released,
          if n < 5 then Pending else if n < 6 then ReviewRunning else if n < 7 then RetryWait
          else if n < 8 then Blocked else ReviewCompleted,
          if n < 9 then None else Some("failure"),
          if n < 10 then None else Some("policy"),
          if n < 11 then None else Some("stage"),
          None, false, Some(Authority(lineage, n >= 12, n >= 13)), Origin(Starting, GatePending, None, None))
  }

  /** The bound of thirteen changes is reached. */
  lemma ThirteenChangesAreAccepted(n: nat)
    requires n < 13
    ensures Accepted(Stage(n), Stage(n + 1)) && Tracked(Stage(n)) != Tracked(Stage(n + 1))
    ensures AtStartup(Stage(0)) && Progress(Stage(n)) == n
  {
  }
}
