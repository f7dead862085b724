/**
 The dispatch of a batch (`run_with_inner` in `src/batches.rs`): first as a loop, then as the steps of workers over
 one stored batch. Whoever recovers, claims or dispatches holds the project's admission lock, so one worker acts at
 a time; it may crash between any two calls, each call may fail, and a record whose call failed may have been
 committed all the same. A claim that is committed although its call failed is a claim followed by a crash.
 */
module BatchDispatch {
  import opened Wrappers
  import opened Batches

  // ---------------------------------------------------------------- the calls for one job

  /**
   What the calls for one job answer: whether its arguments are valid and its submission is inserted, the task of
   its add or the error, the clock, whether the record is committed and its call succeeds, and whether the
   submission is marked.
   */
  datatype JobAnswer = JobAnswer(valid: bool, inserted: bool, submission: string, added: Result<int, string>,
                                 clock: Option<int>, recorded: bool, tookEffect: bool, marked: bool)

  const ADD_FAILED := "pueue add failed"

  /** What the store makes of the record of one add. */
  function Record(b: Batch, k: nat, token: string, a: JobAnswer): Result<Batch, ()>
    requires k < |b.jobs|
  {
    if a.clock.None? then Err(())
    else match a.added
      case Ok(task) => RecordAccepted(b, k, token, a.clock.value, task, a.submission)
      case Err(error) => RecordFailed(b, k, token, a.clock.value, if error == "" then ADD_FAILED else error)
  }

  /** The record is in the store afterwards. */
  predicate Commits(b: Batch, k: nat, token: string, a: JobAnswer)
    requires k < |b.jobs|
  {
    Record(b, k, token, a).Ok? && (a.recorded || a.tookEffect)
  }

  function Stored(b: Batch, k: nat, token: string, a: JobAnswer): Batch
    requires k < |b.jobs|
  {
    if Commits(b, k, token, a) then Record(b, k, token, a).value else b
  }

  /**
   The store takes the result of the add of a job in dispatch from a worker whose lease is alive, if the clock is
   read and no invalid task is reported. The job is then decided as the add went; an empty error gets a text.
   */
  lemma RecordExactly(b: Batch, k: nat, token: string, a: JobAnswer)
    requires Consistent(b) && k < |b.jobs| && b.jobs[k].Dispatching?
    ensures var r := Record(b, k, token, a);
            && (r.Ok? <==> a.clock.Some? && HeldBy(b, token, a.clock.value) && (a.added.Ok? ==> a.added.value >= 0))
            && (r.Ok? && a.added.Ok? ==> r.value.jobs[k] == Accepted(a.added.value, a.submission))
            && (r.Ok? && a.added.Err? ==>
                  r.value.jobs[k] == Failed(if a.added.error == "" then "pueue add failed" else a.added.error))
  {
    if a.clock.Some? {
      match a.added
      case Ok(task) => AcceptExactly(b, k, token, a.clock.value, task, a.submission);
      case Err(error) => FailExactly(b, k, token, a.clock.value, if error == "" then ADD_FAILED else error);
    }
  }

  /** The positions of the dispatching jobs, in order. */
  function DispatchJobs(jobs: seq<Job>): seq<nat> {
    if jobs == [] then []
    else
      DispatchJobs(jobs[..|jobs| - 1]) + if jobs[|jobs| - 1].Dispatching? then [|jobs| - 1] else []
  }

  /** A list without repetition of exactly the dispatching jobs. */
  predicate Lists(todo: seq<nat>, jobs: seq<Job>) {
    && (forall i, j :: 0 <= i < j < |todo| ==> todo[i] != todo[j])
    && (forall i :: 0 <= i < |todo| ==> todo[i] < |jobs|)
    && (forall k: nat :: k < |jobs| ==> (jobs[k].Dispatching? <==> k in todo))
  }

  lemma {:induction false} DispatchJobsLists(jobs: seq<Job>)
    ensures Lists(DispatchJobs(jobs), jobs)
  {
    if jobs != [] {
      var n := |jobs| - 1;
      var before := DispatchJobs(jobs[..n]);
      DispatchJobsLists(jobs[..n]);
      forall k: nat | k < |jobs|
        ensures jobs[k].Dispatching? <==> k in DispatchJobs(jobs)
      {
        assert k < n ==> jobs[..n][k] == jobs[k];
        assert n !in before;
      }
    }
  }

  // ---------------------------------------------------------------- workers

  /** Where the worker that holds the lock is, with the dispatched jobs that it has not finished. */
  datatype Worker =
    | Idle
    | Preparing(token: string, todo: seq<nat>)
    | Adding(token: string, todo: seq<nat>)
    | Recording(token: string, todo: seq<nat>, submission: string, added: Result<int, string>)
    | Marking(token: string, todo: seq<nat>)

  datatype World = World(batch: Batch, worker: Worker)

  datatype Event =
    | RecoverExpired(now: int)
    | ClaimBatch(lease: Lease)
    | Step(answer: JobAnswer)
    | Crash

  /** The loop goes on with its next job, or is over. */
  function Continued(token: string, todo: seq<nat>): Worker {
    if todo == [] then Idle else Preparing(token, todo)
  }

  /** One call of the worker. */
  function Act(w: World, a: JobAnswer): World {
    match w.worker
    case Idle => w
    case Preparing(token, todo) =>
      w.(worker := if a.valid && a.inserted then Adding(token, todo) else Idle)
    case Adding(token, todo) => w.(worker := Recording(token, todo, a.submission, a.added))
    case Recording(token, todo, submission, added) =>
      if todo == [] || todo[0] >= |w.batch.jobs| then w.(worker := Idle)
      else
        var answer := a.(submission := submission, added := added);
        var goesOn := Record(w.batch, todo[0], token, answer).Ok? && a.recorded && added.Ok?;
        World(Stored(w.batch, todo[0], token, answer), if goesOn then Marking(token, todo[1..]) else Idle)
    case Marking(token, todo) => w.(worker := if a.marked then Continued(token, todo) else Idle)
  }

  /** One event; recovery and claim need the lock. */
  function Next(w: World, event: Event): World {
    match event
    case RecoverExpired(now) => if w.worker.Idle? then World(Recover(w.batch, now), Idle) else w
    case ClaimBatch(lease) =>
      if w.worker.Idle? && Claimable(w.batch) then
        var claimed := Claim(w.batch, lease);
        World(claimed, Continued(lease.token, DispatchJobs(claimed.jobs)))
      else w
    case Step(answer) => Act(w, answer)
    case Crash => w.(worker := Idle)
  }

  /** Any events in any order; every point of a run is a run. */
  function After(w: World, events: seq<Event>): World {
    if events == [] then w else Next(After(w, events[..|events| - 1]), events[|events| - 1])
  }

  function Fresh(n: nat): World {
    World(Created(n), Idle)
  }

  /** The step calls `pueue add` for the job. */
  predicate Adds(w: World, event: Event, k: nat) {
    event.Step? && w.worker.Adding? && w.worker.todo != [] && w.worker.todo[0] == k
  }

  /** The job has been added by the worker at work, and this add is not recorded yet. */
  predicate InFlight(w: World, k: nat) {
    w.worker.Recording? && w.worker.todo != [] && w.worker.todo[0] == k && k < |w.batch.jobs|
  }

  /** The worker ends without the add of the job in the store: it crashes, or the record does not take effect. */
  predicate Loses(w: World, event: Event, k: nat) {
    && InFlight(w, k)
    && (|| event.Crash?
        || (event.Step?
            && !Commits(w.batch, k, w.worker.token,
                        event.answer.(submission := w.worker.submission, added := w.worker.added))))
  }

  /** How often a run calls `pueue add` for the job. */
  function AddsIn(w: World, events: seq<Event>, k: nat): nat {
    if events == [] then 0
    else
      var before := events[..|events| - 1];
      AddsIn(w, before, k) + if Adds(After(w, before), events[|events| - 1], k) then 1 else 0
  }

  /** How many of these adds are never recorded. */
  function LostIn(w: World, events: seq<Event>, k: nat): nat {
    if events == [] then 0
    else
      var before := events[..|events| - 1];
      LostIn(w, before, k) + if Loses(After(w, before), events[|events| - 1], k) then 1 else 0
  }

  predicate Decided(w: World, k: nat) {
    k < |w.batch.jobs| && (w.batch.jobs[k].Accepted? || w.batch.jobs[k].Failed?)
  }

  // ---------------------------------------------------------------- what every run keeps

  predicate HoldsLease(b: Batch, token: string) {
    b.lease.Some? && b.lease.value.token == token
  }

  /** The worker at work holds the lease, and its list is what the store has as dispatching. */
  predicate WorkerOk(w: World) {
    match w.worker
    case Idle => true
    case Preparing(token, todo) => todo != [] && Lists(todo, w.batch.jobs) && HoldsLease(w.batch, token)
    case Adding(token, todo) => todo != [] && Lists(todo, w.batch.jobs) && HoldsLease(w.batch, token)
    case Recording(token, todo, _, _) => todo != [] && Lists(todo, w.batch.jobs) && HoldsLease(w.batch, token)
    case Marking(token, todo) =>
      Lists(todo, w.batch.jobs) && (todo != [] ==> HoldsLease(w.batch, token))
  }

  predicate Sound(w: World) {
    w.batch.jobs != [] && Consistent(w.batch) && WorkerOk(w)
  }

  lemma ListsOne(jobs: seq<Job>, todo: seq<nat>, job: Job)
    requires todo != [] && Lists(todo, jobs) && !job.Dispatching?
    ensures Lists(todo[1..], jobs[todo[0] := job])
  {
  }

  lemma RecordKeepsSound(w: World, a: JobAnswer)
    requires Sound(w) && w.worker.Recording?
    ensures Sound(Act(w, a))
  {
    var k, token := w.worker.todo[0], w.worker.token;
    var answer := a.(submission := w.worker.submission, added := w.worker.added);
    if Commits(w.batch, k, token, answer) {
      match answer.added
      case Ok(task) =>
        AcceptKeeps(w.batch, k, token, a.clock.value, task, answer.submission);
        ListsOne(w.batch.jobs, w.worker.todo, Accepted(task, answer.submission));
        StillLeased(Act(w, a), token, w.worker.todo[1..]);
      case Err(error) =>
        FailKeeps(w.batch, k, token, a.clock.value, if error == "" then ADD_FAILED else error);
    }
  }

  lemma StillLeased(w: World, token: string, todo: seq<nat>)
    requires Consistent(w.batch) && Lists(todo, w.batch.jobs)
    ensures todo != [] ==> w.batch.lease.Some?
  {
    if todo != [] {
      assert KindOf(w.batch.jobs[todo[0]]) == DispatchingKind;
    }
  }

  lemma ClaimIsSound(w: World, lease: Lease)
    requires Sound(w) && w.worker.Idle? && Claimable(w.batch)
    ensures Sound(Next(w, ClaimBatch(lease)))
  {
    ClaimKeeps(w.batch, lease);
    DispatchJobsLists(Claim(w.batch, lease).jobs);
  }

  lemma NextKeepsSound(w: World, event: Event)
    requires Sound(w)
    ensures Sound(Next(w, event))
  {
    match event
    case RecoverExpired(now) => RecoverKeeps(w.batch, now);
    case ClaimBatch(lease) =>
      if w.worker.Idle? && Claimable(w.batch) {
        ClaimIsSound(w, lease);
      }
    case Step(answer) =>
      if w.worker.Recording? {
        RecordKeepsSound(w, answer);
      }
    case Crash =>
  }

  lemma {:induction false} RunIsSound(w: World, events: seq<Event>)
    requires Sound(w)
    ensures Sound(After(w, events))
  {
    if events != [] {
      RunIsSound(w, events[..|events| - 1]);
      NextKeepsSound(After(w, events[..|events| - 1]), events[|events| - 1]);
    }
  }

  // ---------------------------------------------------------------- how often a job is added

  function One(b: bool): nat {
    if b then 1 else 0
  }

  lemma LastOfTwo(first: seq<Event>, second: seq<Event>)
    requires second != []
    ensures var whole := first + second;
            && whole[..|whole| - 1] == first + second[..|second| - 1]
            && whole[|whole| - 1] == second[|second| - 1]
  {
  }

  lemma {:induction false} AfterInTwo(w: World, first: seq<Event>, second: seq<Event>)
    ensures After(w, first + second) == After(After(w, first), second)
  {
    if second == [] {
      assert first + second == first;
    } else {
      AfterInTwo(w, first, second[..|second| - 1]);
      LastOfTwo(first, second);
    }
  }

  lemma {:induction false} AddsInTwo(w: World, first: seq<Event>, second: seq<Event>, k: nat)
    ensures AddsIn(w, first + second, k) == AddsIn(w, first, k) + AddsIn(After(w, first), second, k)
  {
    if second == [] {
      assert first + second == first;
    } else {
      AddsInTwo(w, first, second[..|second| - 1], k);
      AfterInTwo(w, first, second[..|second| - 1]);
      LastOfTwo(first, second);
    }
  }

  lemma RunsInTwo(w: World, first: seq<Event>, second: seq<Event>, k: nat)
    ensures After(w, first + second) == After(After(w, first), second)
    ensures AddsIn(w, first + second, k) == AddsIn(w, first, k) + AddsIn(After(w, first), second, k)
  {
    AfterInTwo(w, first, second);
    AddsInTwo(w, first, second, k);
  }

  lemma OneEvent(w: World, event: Event, k: nat)
    ensures After(w, [event]) == Next(w, event) && AddsIn(w, [event], k) == One(Adds(w, event, k))
  {
    assert [event][..0] == [];
    assert After(w, []) == w && AddsIn(w, [], k) == 0;
  }

  lemma OneMoreEvent(w: World, event: Event, events: seq<Event>, k: nat)
    ensures After(w, [event] + events) == After(Next(w, event), events)
    ensures AddsIn(w, [event] + events, k) == One(Adds(w, event, k)) + AddsIn(Next(w, event), events, k)
  {
    OneEvent(w, event, k);
    RunsInTwo(w, [event], events, k);
  }

  lemma DecidedStays(w: World, event: Event, k: nat)
    requires Sound(w) && Decided(w, k)
    ensures Decided(Next(w, event), k) && Next(w, event).batch.jobs[k] == w.batch.jobs[k]
  {
  }

  lemma {:induction false} RunKeepsNumber(w: World, events: seq<Event>)
    requires Sound(w)
    ensures |After(w, events).batch.jobs| == |w.batch.jobs|
  {
    if events != [] {
      var before := events[..|events| - 1];
      RunKeepsNumber(w, before);
      RunIsSound(w, before);
      NextKeepsNumber(After(w, before), events[|events| - 1]);
    }
  }

  lemma NextKeepsNumber(w: World, event: Event)
    requires Sound(w)
    ensures |Next(w, event).batch.jobs| == |w.batch.jobs|
  {
  }

  /** A job becomes decided only by the record of the add in flight. */
  lemma DecidedOnlyByRecord(w: World, event: Event, k: nat)
    requires Sound(w) && k < |w.batch.jobs| && !Decided(w, k) && Decided(Next(w, event), k)
    ensures InFlight(w, k) && event.Step? && !Loses(w, event, k)
  {
  }

  lemma InFlightIsOpen(w: World, k: nat)
    requires Sound(w) && InFlight(w, k)
    ensures w.batch.jobs[k].Dispatching? && !Decided(w, k)
  {
    assert w.worker.todo[0] in w.worker.todo;
  }

  lemma CommitDecides(w: World, event: Event, k: nat)
    requires Sound(w) && InFlight(w, k) && event.Step? && !Loses(w, event, k)
    ensures Decided(Next(w, event), k)
  {
    InFlightIsOpen(w, k);
  }

  lemma EventCounts(w: World, event: Event, k: nat)
    requires Sound(w) && k < |w.batch.jobs|
    ensures var next := Next(w, event);
            One(Adds(w, event, k)) + One(Decided(w, k)) + One(InFlight(w, k))
            == One(Loses(w, event, k)) + One(Decided(next, k)) + One(InFlight(next, k))
  {
    var next := Next(w, event);
    NextKeepsSound(w, event);
    if InFlight(w, k) {
      InFlightIsOpen(w, k);
      if event.Step? && !Loses(w, event, k) {
        CommitDecides(w, event, k);
      }
    }
    if InFlight(next, k) {
      InFlightIsOpen(next, k);
    }
    if Decided(w, k) {
      DecidedStays(w, event, k);
    } else if Decided(next, k) {
      DecidedOnlyByRecord(w, event, k);
    }
  }

  /**
   Every add of a job is accounted for, at every point of every run: it is the one in the store, or in flight, or
   lost with a worker that ended before its record took effect.
   */
  lemma {:induction false} AddsAreAccountedFor(n: nat, events: seq<Event>, k: nat)
    requires k < n
    ensures var w := After(Fresh(n), events);
            AddsIn(Fresh(n), events, k) == LostIn(Fresh(n), events, k) + One(Decided(w, k)) + One(InFlight(w, k))
  {
    FreshIsSound(n);
    if events != [] {
      var before := events[..|events| - 1];
      AddsAreAccountedFor(n, before, k);
      RunIsSound(Fresh(n), before);
      RunKeepsNumber(Fresh(n), before);
      EventCounts(After(Fresh(n), before), events[|events| - 1], k);
    }
  }

  lemma FreshIsSound(n: nat)
    requires n > 0
    ensures Sound(Fresh(n)) && |Fresh(n).batch.jobs| == n
  {
    CreatedIsConsistent(n);
  }

  /** Without a lost add there is at most one, and with lost ones at most one more than those. */
  lemma AtMostOneMoreThanLost(n: nat, events: seq<Event>, k: nat)
    requires k < n
    ensures AddsIn(Fresh(n), events, k) <= 1 + LostIn(Fresh(n), events, k)
    ensures AddsIn(Fresh(n), events, k) == 1 + LostIn(Fresh(n), events, k)
            <==> Decided(After(Fresh(n), events), k) || InFlight(After(Fresh(n), events), k)
  {
    AddsAreAccountedFor(n, events, k);
    FreshIsSound(n);
    RunIsSound(Fresh(n), events);
    var w := After(Fresh(n), events);
    if InFlight(w, k) {
      InFlightIsOpen(w, k);
    }
  }

  // ---------------------------------------------------------------- the dispatch loop

  function AcceptedJob(a: JobAnswer): Job
    requires a.added.Ok?
  {
    Accepted(a.added.value, a.submission)
  }

  /** The first jobs of the list are accepted with the tasks of their adds, and every other job is as it was. */
  predicate AcceptedUpTo(before: seq<Job>, after: seq<Job>, done: seq<nat>, answers: nat -> JobAnswer) {
    && |after| == |before|
    && (forall k :: 0 <= k < |before| && k in done ==>
          answers(k).added.Ok? && after[k] == AcceptedJob(answers(k)))
    && (forall k :: 0 <= k < |before| && k !in done ==> after[k] == before[k])
  }

  /** The last job has failed, those before it are accepted, and the dispatching ones that are left are pending. */
  predicate FailedAt(before: seq<Job>, after: seq<Job>, done: seq<nat>, last: nat, answers: nat -> JobAnswer) {
    && |after| == |before| && last < |before| && answers(last).added.Err? && after[last].Failed?
    && (forall k :: 0 <= k < |before| && k != last && k in done ==>
          answers(k).added.Ok? && after[k] == AcceptedJob(answers(k)))
    && (forall k :: 0 <= k < |before| && k != last && k !in done ==>
          after[k] == if before[k].Dispatching? then Pending else before[k])
  }

  lemma RecordGoesOn(before: seq<Job>, b: Batch, done: seq<nat>, k: nat, token: string, answers: nat -> JobAnswer)
    requires k < |before| && k !in done && AcceptedUpTo(before, b.jobs, done, answers) && before[k].Dispatching?
    requires Record(b, k, token, answers(k)).Ok?
    ensures var after := Record(b, k, token, answers(k)).value.jobs;
            if answers(k).added.Ok? then AcceptedUpTo(before, after, done + [k], answers)
            else FailedAt(before, after, done, k, answers)
  {
  }

  /** The calls for one job; once the worker has ended they are none. */
  function JobCalls(a: JobAnswer): seq<Event> {
    [Step(a)] + ([Step(a)] + ([Step(a)] + [Step(a)]))
  }

  /** What they lead to. */
  function JobDone(w: World, a: JobAnswer): World
    requires w.worker.Preparing? && w.worker.todo != [] && w.worker.todo[0] < |w.batch.jobs|
  {
    var k, token := w.worker.todo[0], w.worker.token;
    if !a.valid || !a.inserted then w.(worker := Idle)
    else
      World(Stored(w.batch, k, token, a),
            if Record(w.batch, k, token, a).Ok? && a.recorded && a.added.Ok? && a.marked
            then Continued(token, w.worker.todo[1..]) else Idle)
  }

  lemma JobIsARun(w: World, a: JobAnswer, k: nat)
    requires w.worker.Preparing? && w.worker.todo != [] && w.worker.todo[0] < |w.batch.jobs|
    ensures After(w, JobCalls(a)) == JobDone(w, a)
    ensures AddsIn(w, JobCalls(a), k) == One(a.valid && a.inserted && w.worker.todo[0] == k)
  {
    var one := Next(w, Step(a));
    var two := Next(one, Step(a));
    var three := Next(two, Step(a));
    OneEvent(three, Step(a), k);
    OneMoreEvent(two, Step(a), [Step(a)], k);
    OneMoreEvent(one, Step(a), [Step(a)] + [Step(a)], k);
    OneMoreEvent(w, Step(a), [Step(a)] + ([Step(a)] + [Step(a)]), k);
  }

  /** The events lead from one world to the other, and add the listed jobs once and no other. */
  ghost predicate Tracks(start: World, events: seq<Event>, w: World, adds: seq<nat>) {
    After(start, events) == w && forall k: nat :: AddsIn(start, events, k) == One(k in adds)
  }

  lemma JobTracks(start: World, events: seq<Event>, w: World, adds: seq<nat>, a: JobAnswer)
    requires w.worker.Preparing? && w.worker.todo != [] && w.worker.todo[0] < |w.batch.jobs|
    requires Tracks(start, events, w, adds) && w.worker.todo[0] !in adds
    ensures Tracks(start, events + JobCalls(a), JobDone(w, a),
                   if a.valid && a.inserted then adds + [w.worker.todo[0]] else adds)
  {
    forall k: nat
      ensures After(start, events + JobCalls(a)) == JobDone(w, a)
      ensures AddsIn(start, events + JobCalls(a), k)
              == One(k in if a.valid && a.inserted then adds + [w.worker.todo[0]] else adds)
    {
      RunsInTwo(start, events, JobCalls(a), k);
      JobIsARun(w, a, k);
      assert AddsIn(start, events, k) == One(k in adds);
    }
    JobIsARun(w, a, 0);
    RunsInTwo(start, events, JobCalls(a), 0);
  }

  /** The calls after these adds have succeeded. */
  predicate Clean(adds: seq<nat>, answers: nat -> JobAnswer) {
    forall k :: k in adds ==> answers(k).recorded && answers(k).marked
  }

  /**
   How a dispatch ends. When it goes well, every job is added and accepted, or the last add failed and is recorded so.
   With an error the last add may be stored or not; it is lost exactly when its record does not take effect.
   */
  predicate Ended(before: seq<Job>, result: Batch, ok: bool, token: string, todo: seq<nat>, adds: seq<nat>,
                  answers: nat -> JobAnswer) {
    || (AcceptedUpTo(before, result.jobs, adds, answers) && (ok <==> adds == todo && Clean(adds, answers)))
    || (&& adds != [] && FailedAt(before, result.jobs, adds, adds[|adds| - 1], answers)
        && (ok <==> answers(adds[|adds| - 1]).recorded))
    || (&& adds != [] && !ok && AcceptedUpTo(before, result.jobs, adds[..|adds| - 1], answers)
        && adds[|adds| - 1] < |before| && !Commits(result, adds[|adds| - 1], token, answers(adds[|adds| - 1])))
  }

  lemma RecordEnds(before: seq<Job>, b: Batch, token: string, todo: seq<nat>, i: nat, answers: nat -> JobAnswer)
    requires i < |todo| && Lists(todo, before) && AcceptedUpTo(before, b.jobs, todo[..i], answers)
    ensures var k, done := todo[i], todo[..i] + [todo[i]];
            var result := Stored(b, k, token, answers(k));
            if Record(b, k, token, answers(k)).Ok? && answers(k).recorded && answers(k).added.Ok?
            then AcceptedUpTo(before, result.jobs, done, answers)
            else Ended(before, result, Record(b, k, token, answers(k)).Ok? && answers(k).recorded, token, todo, done,
                       answers)
  {
    var k, done := todo[i], todo[..i] + [todo[i]];
    assert done[..|done| - 1] == todo[..i];
    if Commits(b, k, token, answers(k)) {
      RecordGoesOn(before, b, todo[..i], k, token, answers);
      if answers(k).added.Err? {
        StillFailedAt(before, Stored(b, k, token, answers(k)).jobs, todo[..i], k, answers);
      }
    }
  }

  lemma StillFailedAt(before: seq<Job>, after: seq<Job>, done: seq<nat>, last: nat, answers: nat -> JobAnswer)
    requires FailedAt(before, after, done, last, answers)
    ensures FailedAt(before, after, done + [last], last, answers)
  {
  }

  /** What a dispatch promises at its end. */
  ghost predicate Over(claimed: Batch, token: string, answers: nat -> JobAnswer,
                       result: Batch, ok: bool, adds: seq<nat>, events: seq<Event>) {
    var todo := DispatchJobs(claimed.jobs);
    && adds <= todo
    && Ended(claimed.jobs, result, ok, token, todo, adds, answers)
    && Tracks(World(claimed, Continued(token, todo)), events, World(result, Idle), adds)
  }

  /** And before its next job. */
  ghost predicate Going(claimed: Batch, token: string, answers: nat -> JobAnswer,
                        result: Batch, adds: seq<nat>, events: seq<Event>) {
    var todo := DispatchJobs(claimed.jobs);
    && adds <= todo
    && AcceptedUpTo(claimed.jobs, result.jobs, adds, answers) && Clean(adds, answers)
    && Tracks(World(claimed, Continued(token, todo)), events,
              World(result, Continued(token, todo[|adds|..])), adds)
  }

  lemma StopsBefore(claimed: Batch, token: string, answers: nat -> JobAnswer,
                    result: Batch, adds: seq<nat>, events: seq<Event>, k: nat)
    requires Going(claimed, token, answers, result, adds, events)
    requires adds + [k] <= DispatchJobs(claimed.jobs)
    requires !answers(k).valid || !answers(k).inserted
    ensures Over(claimed, token, answers, result, false, adds, events + JobCalls(answers(k)))
  {
    var todo := DispatchJobs(claimed.jobs);
    DispatchJobsLists(claimed.jobs);
    JobTracks(World(claimed, Continued(token, todo)), events, World(result, Continued(token, todo[|adds|..])), adds,
              answers(k));
  }

  lemma JobIsTracked(claimed: Batch, token: string, answers: nat -> JobAnswer,
                     result: Batch, adds: seq<nat>, events: seq<Event>, k: nat)
    requires Going(claimed, token, answers, result, adds, events)
    requires adds + [k] <= DispatchJobs(claimed.jobs) && k < |result.jobs|
    requires answers(k).valid && answers(k).inserted
    ensures var todo, a := DispatchJobs(claimed.jobs), answers(k);
            Tracks(World(claimed, Continued(token, todo)), events + JobCalls(a),
                   World(Stored(result, k, token, a),
                         if Record(result, k, token, a).Ok? && a.recorded && a.added.Ok? && a.marked
                         then Continued(token, todo[|adds| + 1..]) else Idle),
                   adds + [k])
  {
    var todo := DispatchJobs(claimed.jobs);
    DispatchJobsLists(claimed.jobs);
    JobTracks(World(claimed, Continued(token, todo)), events, World(result, Continued(token, todo[|adds|..])), adds,
              answers(k));
    assert todo[|adds|..][1..] == todo[|adds| + 1..];
  }

  lemma JobEnds(claimed: Batch, token: string, answers: nat -> JobAnswer,
                result: Batch, adds: seq<nat>, events: seq<Event>, k: nat)
    requires Going(claimed, token, answers, result, adds, events)
    requires adds + [k] <= DispatchJobs(claimed.jobs) && k < |result.jobs|
    requires answers(k).valid && answers(k).inserted
    ensures var a := answers(k);
            var stored, well := Stored(result, k, token, a), Record(result, k, token, a).Ok? && a.recorded;
            if well && a.added.Ok? && a.marked
            then Going(claimed, token, answers, stored, adds + [k], events + JobCalls(a))
            else Over(claimed, token, answers, stored, well && a.added.Err?, adds + [k], events + JobCalls(a))
  {
    var todo := DispatchJobs(claimed.jobs);
    DispatchJobsLists(claimed.jobs);
    assert todo[..|adds|] == adds && todo[|adds|] == k;
    RecordEnds(claimed.jobs, result, token, todo, |adds|, answers);
    JobIsTracked(claimed, token, answers, result, adds, events, k);
  }

  lemma NextIsThere(claimed: Batch, token: string, answers: nat -> JobAnswer,
                    result: Batch, i: nat, events: seq<Event>)
    requires i < |DispatchJobs(claimed.jobs)|
    requires Going(claimed, token, answers, result, DispatchJobs(claimed.jobs)[..i], events)
    ensures var todo := DispatchJobs(claimed.jobs);
            todo[..i] + [todo[i]] == todo[..i + 1] && todo[i] < |result.jobs|
  {
    DispatchJobsLists(claimed.jobs);
  }

  /**
   The dispatch of a claimed batch, job by job. The events are those of a worker that ends with it, so what holds of
   every run holds of every dispatch.
   */
  method Dispatch(claimed: Batch, token: string, answers: nat -> JobAnswer)
    returns (result: Batch, ok: bool, adds: seq<nat>, ghost events: seq<Event>)
    ensures adds <= DispatchJobs(claimed.jobs)
    ensures Ended(claimed.jobs, result, ok, token, DispatchJobs(claimed.jobs), adds, answers)
    ensures Tracks(World(claimed, Continued(token, DispatchJobs(claimed.jobs))), events, World(result, Idle), adds)
  {
    var todo := DispatchJobs(claimed.jobs);
    result, ok, adds, events := claimed, true, [], [];
    var i := 0;
    while i < |todo|
      invariant i <= |todo| && adds == todo[..i]
      invariant Going(claimed, token, answers, result, adds, events)
    {
      var k, a := todo[i], answers(todo[i]);
      NextIsThere(claimed, token, answers, result, i, events);
      if !a.valid || !a.inserted {
        StopsBefore(claimed, token, answers, result, adds, events, k);
        return result, false, adds, events + JobCalls(a);
      }
      JobEnds(claimed, token, answers, result, adds, events, k);
      var recorded := Record(result, k, token, a);
      result, adds, events := Stored(result, k, token, a), adds + [k], events + JobCalls(a);
      if recorded.Err? || !a.recorded {
        return result, false, adds, events;
      }
      if a.added.Err? {
        return result, true, adds, events;
      }
      if !a.marked {
        return result, false, adds, events;
      }
      i := i + 1;
    }
  }

  // ---------------------------------------------------------------- when a job can be added again

  /** No call for the job is left: its result is stored, or its batch has failed. */
  predicate Closed(w: World, k: nat) {
    Decided(w, k) || w.batch.status.AllFailed?
  }

  lemma ClosedStays(w: World, event: Event, k: nat)
    requires Sound(w) && Closed(w, k)
    ensures Closed(Next(w, event), k) && !Adds(w, event, k)
  {
    if Decided(w, k) {
      DecidedStays(w, event, k);
    }
  }

  lemma {:induction false} ClosedForEver(w: World, events: seq<Event>, k: nat)
    requires Sound(w) && Closed(w, k)
    ensures Closed(After(w, events), k) && AddsIn(w, events, k) == 0
  {
    if events != [] {
      var before := events[..|events| - 1];
      ClosedForEver(w, before, k);
      RunIsSound(w, before);
      ClosedStays(After(w, before), events[|events| - 1], k);
    }
  }

  /** All calls succeed, and the lease is still held. */
  function Succeeds(lease: Lease): JobAnswer {
    JobAnswer(true, true, "s", Ok(1), Some(lease.until - 1), true, true, true)
  }

  /** In these events every add answers with a task. */
  predicate EveryAddSucceeds(events: seq<Event>) {
    forall i :: 0 <= i < |events| && events[i].Step? ==> events[i].answer.added.Ok?
  }

  lemma RecordSucceeds(w: World)
    requires Sound(w) && w.worker.Recording? && w.worker.added == Ok(1)
    ensures Act(w, Succeeds(w.batch.lease.value)).worker == Marking(w.worker.token, w.worker.todo[1..])
  {
  }

  /** The four calls for one job that is not the last. */
  lemma OneJobSucceeds(w: World, k: nat)
    requires Sound(w) && w.worker.Preparing? && |w.worker.todo| > 1
    ensures var step := Step(Succeeds(w.batch.lease.value));
            After(w, [step, step, step, step]).worker == Preparing(w.worker.token, w.worker.todo[1..])
            && AddsIn(w, [step, step, step, step], k) == One(w.worker.todo[0] == k)
  {
    var step := Step(Succeeds(w.batch.lease.value));
    var adding := Next(w, step);
    var recording := Next(adding, step);
    var marking := Next(recording, step);
    RecordSucceeds(recording);
    OneEvent(marking, step, k);
    OneMoreEvent(recording, step, [step], k);
    OneMoreEvent(adding, step, [step, step], k);
    OneMoreEvent(w, step, [step, step, step], k);
    assert [step] + [step, step, step] == [step, step, step, step];
    assert [step] + [step, step] == [step, step, step];
    assert [step] + [step] == [step, step];
  }

  lemma AddIsReached(w: World, k: nat)
    requires Sound(w) && w.worker.Preparing? && w.worker.todo[0] == k
    ensures var step := Step(Succeeds(w.batch.lease.value));
            InFlight(After(w, [step, step]), k) && AddsIn(w, [step, step], k) == 1
  {
    var step := Step(Succeeds(w.batch.lease.value));
    OneEvent(Next(w, step), step, k);
    OneMoreEvent(w, step, [step], k);
    assert [step] + [step] == [step, step];
  }

  /** The continuation goes on from a world, adds the job once, and stops with this add in flight. */
  predicate AddsOnce(w: World, events: seq<Event>, k: nat) {
    AddsIn(w, events, k) == 1 && InFlight(After(w, events), k) && EveryAddSucceeds(events)
  }

  lemma {:induction false} WorkerReaches(w: World, k: nat, m: nat) returns (events: seq<Event>)
    requires Sound(w) && w.worker.Preparing? && m < |w.worker.todo| && w.worker.todo[m] == k
    ensures AddsOnce(w, events, k)
    decreases m
  {
    var step := Step(Succeeds(w.batch.lease.value));
    if m == 0 {
      AddIsReached(w, k);
      events := [step, step];
    } else {
      OneJobSucceeds(w, k);
      var job := [step, step, step, step];
      RunIsSound(w, job);
      var rest := WorkerReaches(After(w, job), k, m - 1);
      RunsInTwo(w, job, rest, k);
      events := job + rest;
    }
  }

  /** Once a lease has expired, an undecided job is pending and its batch can be claimed, unless the batch failed. */
  lemma LeftJobIsClaimable(b: Batch, k: nat, now: int)
    requires b.jobs != [] && Consistent(b) && k < |b.jobs| && !b.status.AllFailed?
    requires b.jobs[k].Pending? || b.jobs[k].Dispatching?
    requires b.lease.Some? ==> b.lease.value.until <= now
    ensures Claimable(Recover(b, now)) && Recover(b, now).jobs[k].Pending?
  {
  }

  /** The lease that the next worker takes. */
  const NEXT_LEASE := Lease("next", 1)

  /** The worker that holds the lock crashes, and the lease runs out. */
  function Abandoned(w: World): World {
    Next(Next(w, Crash), RecoverExpired(LeaseEnd(w.batch)))
  }

  function LeaseEnd(b: Batch): int {
    if b.lease.Some? then b.lease.value.until else 0
  }

  lemma AbandonedIsClaimable(w: World, k: nat)
    requires Sound(w) && k < |w.batch.jobs| && !Closed(w, k)
    ensures var left := Abandoned(w);
            && left.worker.Idle? && Claimable(left.batch) && k < |left.batch.jobs| && left.batch.jobs[k].Pending?
  {
    LeftJobIsClaimable(w.batch, k, LeaseEnd(w.batch));
  }

  lemma AbandoningIsARun(w: World, more: seq<Event>, k: nat) returns (events: seq<Event>)
    requires EveryAddSucceeds(more)
    ensures After(w, events) == After(Abandoned(w), more) && AddsIn(w, events, k) == AddsIn(Abandoned(w), more, k)
    ensures EveryAddSucceeds(events)
  {
    var recover := RecoverExpired(LeaseEnd(w.batch));
    OneMoreEvent(Next(w, Crash), recover, more, k);
    OneMoreEvent(w, Crash, [recover] + more, k);
    events := [Crash] + ([recover] + more);
  }

  /** The next worker has the job before it. */
  predicate HasNext(w: World, k: nat) {
    w.worker.Preparing? && k in w.worker.todo
  }

  lemma NextClaims(w: World, k: nat) returns (events: seq<Event>)
    requires w.worker.Idle? && Claimable(w.batch) && k < |w.batch.jobs| && w.batch.jobs[k].Pending?
    ensures HasNext(After(w, events), k) && AddsIn(w, events, k) == 0 && EveryAddSucceeds(events)
  {
    var claimed := Claim(w.batch, NEXT_LEASE);
    DispatchJobsLists(claimed.jobs);
    assert claimed.jobs[k].Dispatching?;
    OneEvent(w, ClaimBatch(NEXT_LEASE), k);
    events := [ClaimBatch(NEXT_LEASE)];
  }

  lemma NextWorkerHasIt(w: World, k: nat) returns (events: seq<Event>)
    requires Sound(w) && k < |w.batch.jobs| && !Closed(w, k)
    ensures HasNext(After(w, events), k) && AddsIn(w, events, k) == 0 && EveryAddSucceeds(events)
  {
    AbandonedIsClaimable(w, k);
    var claim := NextClaims(Abandoned(w), k);
    events := AbandoningIsARun(w, claim, k);
  }

  lemma OpenCanBeAdded(w: World, k: nat) returns (events: seq<Event>)
    requires Sound(w) && k < |w.batch.jobs| && !Closed(w, k)
    ensures AddsOnce(w, events, k)
  {
    var first := NextWorkerHasIt(w, k);
    RunIsSound(w, first);
    var next := After(w, first);
    var m :| 0 <= m < |next.worker.todo| && next.worker.todo[m] == k;
    var second := WorkerReaches(next, k, m);
    RunsInTwo(w, first, second, k);
    events := first + second;
  }

  /** Some continuation adds the job. */
  ghost predicate CanBeAdded(w: World, k: nat) {
    exists more :: AddsIn(w, more, k) > 0
  }

  /**
   At any point of any run: some continuation adds the job exactly when the job is undecided and its batch has not
   failed.
   */
  lemma AddStillPossibleExactly(n: nat, events: seq<Event>, k: nat)
    requires k < n
    ensures var w := After(Fresh(n), events);
            CanBeAdded(w, k) <==> !Decided(w, k) && !w.batch.status.AllFailed?
  {
    var w := After(Fresh(n), events);
    FreshIsSound(n);
    RunIsSound(Fresh(n), events);
    RunKeepsNumber(Fresh(n), events);
    if Closed(w, k) {
      forall more
        ensures AddsIn(w, more, k) == 0
      {
        ClosedForEver(w, more, k);
      }
    } else {
      var more := OpenCanBeAdded(w, k);
      assert AddsIn(w, more, k) > 0;
    }
  }

  /**
   A job that has been added can be added again exactly when its last add is not in the store, lost or still in
   flight, and its batch has not failed.
   */
  lemma AddedAgainExactly(n: nat, events: seq<Event>, k: nat)
    requires k < n && AddsIn(Fresh(n), events, k) > 0
    ensures var w := After(Fresh(n), events);
            CanBeAdded(w, k)
            <==> AddsIn(Fresh(n), events, k) == LostIn(Fresh(n), events, k) + One(InFlight(w, k))
                 && !w.batch.status.AllFailed?
  {
    AddStillPossibleExactly(n, events, k);
    AddsAreAccountedFor(n, events, k);
  }

  /** There is no bound: any job of any batch can be added any number of times, each time with a task. */
  lemma {:induction false} AnyNumberOfAdds(n: nat, k: nat, adds: nat) returns (events: seq<Event>)
    requires k < n && adds > 0
    ensures AddsIn(Fresh(n), events, k) == adds && EveryAddSucceeds(events)
    ensures InFlight(After(Fresh(n), events), k)
  {
    FreshIsSound(n);
    var before: seq<Event> := [];
    if adds == 1 {
      CreatedIsOpen(n, k);
    } else {
      before := AnyNumberOfAdds(n, k, adds - 1);
      RunIsSound(Fresh(n), before);
      InFlightIsOpen(After(Fresh(n), before), k);
    }
    RunKeepsNumber(Fresh(n), before);
    var more := OpenCanBeAdded(After(Fresh(n), before), k);
    RunsInTwo(Fresh(n), before, more, k);
    events := before + more;
  }

  lemma CreatedIsOpen(n: nat, k: nat)
    requires k < n
    ensures !Closed(Fresh(n), k)
  {
    assert Created(n).jobs[k] == Pending;
  }

  // ---------------------------------------------------------------- a first failure

  /** What the worker is told when its first add fails. */
  const FAILING := JobAnswer(true, true, "s", Err("error"), Some(0), true, true, true)

  lemma {:induction false} FirstIsFirst(jobs: seq<Job>)
    requires jobs != [] && jobs[0].Dispatching?
    ensures DispatchJobs(jobs) != [] && DispatchJobs(jobs)[0] == 0
  {
    if |jobs| > 1 {
      FirstIsFirst(jobs[..|jobs| - 1]);
    } else {
      assert DispatchJobs(jobs[..0]) == [];
    }
  }

  /** The claim of a new batch. */
  function FirstClaim(n: nat): World {
    Next(Fresh(n), ClaimBatch(NEXT_LEASE))
  }

  lemma FirstClaimDispatches(n: nat)
    requires n > 1
    ensures var w := FirstClaim(n);
            && Sound(w) && w.batch == Claim(Created(n), NEXT_LEASE) && |w.batch.jobs| == n
            && w.worker.Preparing? && w.worker.todo[0] == 0 && w.worker.token == "next"
  {
    assert KindOf(Created(n).jobs[0]) == PendingKind;
    FreshIsSound(n);
    NextKeepsSound(Fresh(n), ClaimBatch(NEXT_LEASE));
    FirstIsFirst(FirstClaim(n).batch.jobs);
  }

  /** The three calls for its first job. */
  function FailingCalls(): seq<Event> {
    [Step(FAILING)] + ([Step(FAILING)] + [Step(FAILING)])
  }

  lemma FirstAddFails(n: nat)
    requires n > 1
    ensures var w := FirstClaim(n);
            w.batch.jobs != [] && After(w, FailingCalls()) == World(Stored(w.batch, 0, "next", FAILING), Idle)
  {
    var step, w := Step(FAILING), FirstClaim(n);
    FirstClaimDispatches(n);
    OneEvent(Next(Next(w, step), step), step, 0);
    OneMoreEvent(Next(w, step), step, [step], 0);
    OneMoreEvent(w, step, [step] + [step], 0);
  }

  lemma FirstFailureSticksIt(n: nat)
    requires n > 1
    ensures var w := FirstClaim(n);
            w.batch.jobs != [] && Stuck(Stored(w.batch, 0, "next", FAILING))
  {
    FirstClaimDispatches(n);
    FirstClaimHasNoAccepted(n);
    FailureSticks(FirstClaim(n).batch);
  }

  lemma FirstClaimHasNoAccepted(n: nat)
    requires n > 1
    ensures !Has(FirstClaim(n).batch.jobs, AcceptedKind) && FirstClaim(n).batch.jobs[0].Dispatching?
  {
    FirstClaimDispatches(n);
    ReplacedHas(Created(n).jobs, PendingKind, Dispatching, AcceptedKind);
    assert !Has(Created(n).jobs, AcceptedKind);
  }

  lemma FailureSticks(b: Batch)
    requires Consistent(b) && |b.jobs| > 1 && b.jobs[0].Dispatching? && !Has(b.jobs, AcceptedKind)
    requires b.lease == Some(NEXT_LEASE) && b.status.InDispatch?
    ensures Stuck(Stored(b, 0, "next", FAILING))
  {
    EarlyFailureSticks(b, 0, "next", 0, "error");
  }

  /** The claim and those calls. */
  function FailingRun(): seq<Event> {
    [ClaimBatch(NEXT_LEASE)] + FailingCalls()
  }

  lemma FailingRunLeadsTo(n: nat)
    requires n > 1
    ensures After(Fresh(n), FailingRun()) == After(FirstClaim(n), FailingCalls())
  {
    OneMoreEvent(Fresh(n), ClaimBatch(NEXT_LEASE), FailingCalls(), 0);
  }

  lemma FailedWorldIsStuck(n: nat)
    requires n > 1
    ensures var w := After(FirstClaim(n), FailingCalls());
            Sound(w) && Stuck(w.batch) && |w.batch.jobs| == n
  {
    FirstClaimDispatches(n);
    FirstAddFails(n);
    FirstFailureSticksIt(n);
    RunIsSound(FirstClaim(n), FailingCalls());
    RunKeepsNumber(FirstClaim(n), FailingCalls());
  }

  lemma OthersGoBack(n: nat, k: nat)
    requires 0 < k < n
    ensures var w := After(FirstClaim(n), FailingCalls());
            k < |w.batch.jobs| && w.batch.jobs[k].Pending?
  {
    FirstAddFails(n);
    FirstClaimDispatches(n);
    FailureGivesBack(FirstClaim(n).batch, k);
  }

  lemma FailureGivesBack(b: Batch, k: nat)
    requires 0 < k < |b.jobs| && b.jobs[0].Dispatching? && b.jobs[k].Dispatching?
    requires b.lease == Some(NEXT_LEASE) && b.status.InDispatch?
    ensures var after := Stored(b, 0, "next", FAILING);
            k < |after.jobs| && after.jobs[k].Pending?
  {
  }

  lemma StuckIsNeverAdded(w: World, k: nat, more: seq<Event>)
    requires Sound(w) && Stuck(w.batch)
    ensures AddsIn(w, more, k) == 0
  {
    ClosedForEver(w, more, k);
  }

  /** When the first add of a batch of several jobs fails, the others stay pending and are never added. */
  lemma FirstFailureSticks(n: nat, k: nat, more: seq<Event>)
    requires 0 < k < n
    ensures var w := After(Fresh(n), FailingRun());
            k < |w.batch.jobs| && Stuck(w.batch) && w.batch.jobs[k].Pending? && AddsIn(w, more, k) == 0
  {
    FailingRunLeadsTo(n);
    FailedWorldIsStuck(n);
    OthersGoBack(n, k);
    StuckIsNeverAdded(After(FirstClaim(n), FailingCalls()), k, more);
  }
}
