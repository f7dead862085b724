/**
 Batch dispatch (`src/batches.rs`, with the leases of `src/db/repositories.rs`): the status derived from the
 jobs, the claim of a batch, the dispatch loop that stops at the first failure, and what leases recover.
 */
module Batches {
  import opened Wrappers

  datatype Job = Pending | Dispatching | Accepted(task: int, submission: string) | Failed(error: string)

  datatype Status = AllPending | InDispatch | SomeAccepted | Partial | Completed | AllFailed

  datatype Lease = Lease(token: string, until: int)

  datatype Batch = Batch(jobs: seq<Job>, status: Status, lease: Option<Lease>)

  datatype Kind = PendingKind | DispatchingKind | AcceptedKind | FailedKind

  function KindOf(job: Job): Kind {
    match job
    case Pending => PendingKind
    case Dispatching => DispatchingKind
    case Accepted(_, _) => AcceptedKind
    case Failed(_) => FailedKind
  }

  predicate Has(jobs: seq<Job>, kind: Kind) {
    exists i :: 0 <= i < |jobs| && KindOf(jobs[i]) == kind
  }

  predicate All(jobs: seq<Job>, kind: Kind) {
    forall i :: 0 <= i < |jobs| ==> KindOf(jobs[i]) == kind
  }

  // ---------------------------------------------------------------- the derived status

  function Derive(jobs: seq<Job>): Status {
    if All(jobs, AcceptedKind) then Completed
    else if Has(jobs, FailedKind) then (if Has(jobs, AcceptedKind) then Partial else AllFailed)
    else if Has(jobs, AcceptedKind) then SomeAccepted
    else if Has(jobs, DispatchingKind) then InDispatch
    else AllPending
  }

  function KindsOf(jobs: seq<Job>): set<Kind> {
    set job | job in jobs :: KindOf(job)
  }

  lemma KindsAreSome(jobs: seq<Job>, kind: Kind)
    ensures kind in KindsOf(jobs) <==> Has(jobs, kind)
  {
    if kind in KindsOf(jobs) {
      var job :| job in jobs && KindOf(job) == kind;
    }
  }

  lemma AllAreAccepted(jobs: seq<Job>)
    ensures All(jobs, AcceptedKind)
            <==> forall kind :: kind in KindsOf(jobs) ==> kind == AcceptedKind
  {
    forall i | 0 <= i < |jobs|
      ensures KindOf(jobs[i]) in KindsOf(jobs)
    {
    }
  }

  /** The status depends only on which kinds of job there are. */
  lemma KindsDetermineTheStatus(a: seq<Job>, b: seq<Job>)
    requires KindsOf(a) == KindsOf(b)
    ensures Derive(a) == Derive(b)
  {
    forall kind: Kind
      ensures Has(a, kind) == Has(b, kind)
    {
      KindsAreSome(a, kind);
      KindsAreSome(b, kind);
    }
    AllAreAccepted(a);
    AllAreAccepted(b);
  }

  /** Every status names exactly one set of circumstances, and together they are all of them. */
  lemma StatusMeans(jobs: seq<Job>)
    ensures Derive(jobs) == Completed <==> KindsOf(jobs) <= {AcceptedKind}
    ensures Derive(jobs) == AllFailed <==> FailedKind in KindsOf(jobs) && AcceptedKind !in KindsOf(jobs)
    ensures Derive(jobs) == Partial <==> FailedKind in KindsOf(jobs) && AcceptedKind in KindsOf(jobs)
    ensures Derive(jobs) == SomeAccepted
            <==> FailedKind !in KindsOf(jobs) && AcceptedKind in KindsOf(jobs) && KindsOf(jobs) != {AcceptedKind}
    ensures Derive(jobs) == InDispatch
            <==> DispatchingKind in KindsOf(jobs) && KindsOf(jobs) <= {DispatchingKind, PendingKind}
    ensures Derive(jobs) == AllPending <==> KindsOf(jobs) == {PendingKind}
  {
    forall kind: Kind
      ensures kind in KindsOf(jobs) <==> Has(jobs, kind)
    {
      KindsAreSome(jobs, kind);
    }
    AllAreAccepted(jobs);
    if KindsOf(jobs) == {} {
      assert AcceptedKind !in KindsOf(jobs);
    }
  }

  // ---------------------------------------------------------------- the counts

  function Number(jobs: seq<Job>, kind: Kind): nat {
    if jobs == [] then 0
    else Number(jobs[..|jobs| - 1], kind) + if KindOf(jobs[|jobs| - 1]) == kind then 1 else 0
  }

  datatype Counts = Counts(accepted: nat, failed: nat, pending: nat)

  method BatchCounts(jobs: seq<Job>) returns (counts: Counts)
    ensures counts.accepted == Number(jobs, AcceptedKind) && counts.failed == Number(jobs, FailedKind)
    ensures counts.pending == Number(jobs, PendingKind) + Number(jobs, DispatchingKind)
    ensures counts.accepted + counts.failed + counts.pending == |jobs|
  {
    counts := Counts(0, 0, 0);
    for k := 0 to |jobs|
      invariant counts.accepted == Number(jobs[..k], AcceptedKind) && counts.failed == Number(jobs[..k], FailedKind)
      invariant counts.pending == Number(jobs[..k], PendingKind) + Number(jobs[..k], DispatchingKind)
      invariant counts.accepted + counts.failed + counts.pending == k
    {
      assert jobs[..k + 1][..k] == jobs[..k];
      match jobs[k]
      case Accepted(_, _) => counts := counts.(accepted := counts.accepted + 1);
      case Failed(_) => counts := counts.(failed := counts.failed + 1);
      case Pending | Dispatching => counts := counts.(pending := counts.pending + 1);
    }
    assert jobs[..|jobs|] == jobs;
  }

  // ---------------------------------------------------------------- the store

  /** The jobs in which one kind has been replaced by a job. */
  function Replaced(jobs: seq<Job>, kind: Kind, job: Job): (r: seq<Job>)
    ensures |r| == |jobs|
    ensures forall i :: 0 <= i < |jobs| ==> r[i] == if KindOf(jobs[i]) == kind then job else jobs[i]
  {
    if jobs == [] then []
    else
      Replaced(jobs[..|jobs| - 1], kind, job)
      + [if KindOf(jobs[|jobs| - 1]) == kind then job else jobs[|jobs| - 1]]
  }

  /** `claim`: a batch without a lease, in a status that may be claimed, with a pending job. */
  predicate Claimable(b: Batch) {
    b.lease.None? && (b.status.AllPending? || b.status.SomeAccepted? || b.status.Partial?) && Has(b.jobs, PendingKind)
  }

  function Claim(b: Batch, lease: Lease): Batch
    requires Claimable(b)
  {
    Batch(Replaced(b.jobs, PendingKind, Dispatching), InDispatch, Some(lease))
  }

  predicate Leased(b: Batch, token: string, now: int) {
    && (b.status.InDispatch? || b.status.SomeAccepted?)
    && b.lease.Some? && b.lease.value.until > now && b.lease.value.token == token
  }

  /** `record_job_result` for an accepted job. */
  function RecordAccepted(b: Batch, k: nat, token: string, now: int, task: int, submission: string): Result<Batch, ()>
    requires k < |b.jobs|
  {
    if task < 0 then Err(())
    else if b.jobs[k].Accepted? then (if b.jobs[k] == Accepted(task, submission) then Ok(b) else Err(()))
    else if !b.jobs[k].Dispatching? || !Leased(b, token, now) then Err(())
    else
      var jobs := b.jobs[k := Accepted(task, submission)];
      var derived := Derive(jobs);
      var open := Has(jobs, PendingKind) || Has(jobs, DispatchingKind);
      var status := if derived.Partial? && open then SomeAccepted else derived;
      Ok(Batch(jobs, status, if status.SomeAccepted? || status.InDispatch? then b.lease else None))
  }

  /** `record_job_result` for a failed job: the other dispatching jobs go back, and the lease is given up. */
  function RecordFailed(b: Batch, k: nat, token: string, now: int, error: string): Result<Batch, ()>
    requires k < |b.jobs|
  {
    if error == "" || b.jobs[k].Accepted? then Err(())
    else if b.jobs[k].Failed? then (if b.jobs[k].error == error then Ok(b) else Err(()))
    else if !b.jobs[k].Dispatching? || !Leased(b, token, now) then Err(())
    else
      var jobs := Replaced(b.jobs[k := Failed(error)], DispatchingKind, Pending);
      Ok(Batch(jobs, Derive(jobs), None))
  }

  /** `recover_expired`, for one batch. */
  function Recover(b: Batch, now: int): Batch {
    if b.lease.Some? && b.lease.value.until <= now && (b.status.InDispatch? || b.status.SomeAccepted?) then
      var jobs := Replaced(b.jobs, DispatchingKind, Pending);
      Batch(jobs, Derive(jobs), None)
    else b
  }

  datatype Operation =
    | ClaimIt(lease: Lease)
    | Accept(k: nat, token: string, now: int, task: int, submission: string)
    | Fail(k: nat, token: string, now: int, error: string)
    | RecoverIt(now: int)

  /** An operation that the store refuses leaves the batch as it is. */
  function Apply(b: Batch, op: Operation): Batch {
    match op
    case ClaimIt(lease) => if Claimable(b) then Claim(b, lease) else b
    case Accept(k, token, now, task, submission) =>
      if k < |b.jobs| && RecordAccepted(b, k, token, now, task, submission).Ok?
      then RecordAccepted(b, k, token, now, task, submission).value else b
    case Fail(k, token, now, error) =>
      if k < |b.jobs| && RecordFailed(b, k, token, now, error).Ok?
      then RecordFailed(b, k, token, now, error).value else b
    case RecoverIt(now) => Recover(b, now)
  }

  function Run(b: Batch, ops: seq<Operation>): Batch {
    if ops == [] then b else Apply(Run(b, ops[..|ops| - 1]), ops[|ops| - 1])
  }

  /** A new batch. */
  function Created(n: nat): Batch {
    var jobs := seq(n, _ => Pending);
    Batch(jobs, AllPending, None)
  }

  // ---------------------------------------------------------------- what every run keeps

  /** Only a leased batch has dispatching jobs, and only it has a status that is not the derived one. */
  predicate Consistent(b: Batch) {
    && (b.lease.None? ==> !Has(b.jobs, DispatchingKind) && b.status == Derive(b.jobs))
    && (b.lease.Some? ==> Has(b.jobs, DispatchingKind) && !Has(b.jobs, PendingKind)
                          && (b.status.InDispatch? || b.status.SomeAccepted?)
                          && (Has(b.jobs, FailedKind) ==> Has(b.jobs, AcceptedKind)))
  }

  /** What has been decided about a job stays. */
  predicate Keeps(before: seq<Job>, after: seq<Job>) {
    |after| == |before|
    && forall i :: 0 <= i < |before| && (before[i].Accepted? || before[i].Failed?) ==> after[i] == before[i]
  }

  lemma ReplacedHas(jobs: seq<Job>, kind: Kind, job: Job, other: Kind)
    requires kind != KindOf(job)
    ensures Has(Replaced(jobs, kind, job), other)
            <==> if other == kind then false
                 else Has(jobs, other) || (other == KindOf(job) && Has(jobs, kind))
  {
    var r := Replaced(jobs, kind, job);
    if i :| 0 <= i < |jobs| && KindOf(jobs[i]) == other && other != kind {
      assert KindOf(r[i]) == other;
    }
    if i :| 0 <= i < |jobs| && KindOf(jobs[i]) == kind {
      assert KindOf(r[i]) == KindOf(job);
    }
  }

  lemma HasAfterUpdate(jobs: seq<Job>, k: nat, job: Job, other: Kind)
    requires k < |jobs| && KindOf(jobs[k]) == DispatchingKind && KindOf(job) != DispatchingKind
    ensures other != DispatchingKind ==> (Has(jobs[k := job], other) <==> Has(jobs, other) || other == KindOf(job))
    ensures Has(jobs[k := job], DispatchingKind) ==> Has(jobs, DispatchingKind)
  {
    assert KindOf(jobs[k := job][k]) == KindOf(job);
    if i :| 0 <= i < |jobs| && KindOf(jobs[i]) == other && other != DispatchingKind {
      assert KindOf(jobs[k := job][i]) == other;
    }
  }

  lemma SomeKindOrEmpty(jobs: seq<Job>)
    requires jobs != []
    ensures Has(jobs, PendingKind) || Has(jobs, DispatchingKind) || Has(jobs, AcceptedKind) || Has(jobs, FailedKind)
    ensures All(jobs, AcceptedKind)
            <==> !Has(jobs, PendingKind) && !Has(jobs, DispatchingKind) && !Has(jobs, FailedKind)
  {
    var kind := KindOf(jobs[0]);
    assert Has(jobs, kind);
  }

  lemma ClaimKeeps(b: Batch, lease: Lease)
    requires Consistent(b) && Claimable(b)
    ensures Consistent(Claim(b, lease)) && Keeps(b.jobs, Claim(b, lease).jobs)
  {
    ReplacedHas(b.jobs, PendingKind, Dispatching, DispatchingKind);
    ReplacedHas(b.jobs, PendingKind, Dispatching, PendingKind);
    ReplacedHas(b.jobs, PendingKind, Dispatching, FailedKind);
    ReplacedHas(b.jobs, PendingKind, Dispatching, AcceptedKind);
  }

  lemma AcceptKeeps(b: Batch, k: nat, token: string, now: int, task: int, submission: string)
    requires Consistent(b) && k < |b.jobs| && RecordAccepted(b, k, token, now, task, submission).Ok?
    ensures var after := RecordAccepted(b, k, token, now, task, submission).value;
            Consistent(after) && Keeps(b.jobs, after.jobs)
  {
    if b.jobs[k].Dispatching? {
      var job := Accepted(task, submission);
      HasAfterUpdate(b.jobs, k, job, PendingKind);
      HasAfterUpdate(b.jobs, k, job, AcceptedKind);
      HasAfterUpdate(b.jobs, k, job, FailedKind);
      SomeKindOrEmpty(b.jobs[k := job]);
    }
  }

  lemma FailKeeps(b: Batch, k: nat, token: string, now: int, error: string)
    requires Consistent(b) && k < |b.jobs| && RecordFailed(b, k, token, now, error).Ok?
    ensures var after := RecordFailed(b, k, token, now, error).value;
            Consistent(after) && Keeps(b.jobs, after.jobs)
  {
    if b.jobs[k].Dispatching? {
      ReplacedHas(b.jobs[k := Failed(error)], DispatchingKind, Pending, DispatchingKind);
    }
  }

  lemma RecoverKeeps(b: Batch, now: int)
    requires Consistent(b)
    ensures Consistent(Recover(b, now)) && Keeps(b.jobs, Recover(b, now).jobs)
  {
    ReplacedHas(b.jobs, DispatchingKind, Pending, DispatchingKind);
  }

  lemma ApplyKeeps(b: Batch, op: Operation)
    requires Consistent(b)
    ensures Consistent(Apply(b, op)) && Keeps(b.jobs, Apply(b, op).jobs)
  {
    match op
    case ClaimIt(lease) =>
      if Claimable(b) {
        ClaimKeeps(b, lease);
      }
    case Accept(k, token, now, task, submission) =>
      if k < |b.jobs| && RecordAccepted(b, k, token, now, task, submission).Ok? {
        AcceptKeeps(b, k, token, now, task, submission);
      }
    case Fail(k, token, now, error) =>
      if k < |b.jobs| && RecordFailed(b, k, token, now, error).Ok? {
        FailKeeps(b, k, token, now, error);
      }
    case RecoverIt(now) => RecoverKeeps(b, now);
  }

  /** Over any operations a job that is accepted or failed stays so, and the status stays consistent. */
  lemma {:induction false} RunKeeps(b: Batch, ops: seq<Operation>)
    requires Consistent(b)
    ensures Consistent(Run(b, ops)) && Keeps(b.jobs, Run(b, ops).jobs)
  {
    if ops != [] {
      RunKeeps(b, ops[..|ops| - 1]);
      ApplyKeeps(Run(b, ops[..|ops| - 1]), ops[|ops| - 1]);
    }
  }

  lemma CreatedIsConsistent(n: nat)
    requires n > 0
    ensures Consistent(Created(n))
  {
    assert KindOf(Created(n).jobs[0]) == PendingKind;
  }

  // ---------------------------------------------------------------- what each operation does

  /** The batch is leased under the token, and the lease has not run out. */
  predicate HeldBy(b: Batch, token: string, now: int) {
    b.lease.Some? && b.lease.value.token == token && now < b.lease.value.until
  }

  /** The jobs of one kind are now all this job, and the others are as they were. */
  predicate Turned(before: seq<Job>, after: seq<Job>, kind: Kind, job: Job) {
    && |after| == |before|
    && forall i :: 0 <= i < |before| ==> after[i] == if KindOf(before[i]) == kind then job else before[i]
  }

  /**
   The store takes an accepted job for a valid task, either again or from the holder of the lease while the job
   is in dispatch. It changes no other job, and the lease lasts as long as there is a job in dispatch.
   */
  lemma AcceptExactly(b: Batch, k: nat, token: string, now: int, task: int, submission: string)
    requires Consistent(b) && k < |b.jobs|
    ensures var r := RecordAccepted(b, k, token, now, task, submission);
            && (r.Ok? <==> task >= 0 && (b.jobs[k] == Accepted(task, submission)
                                         || (b.jobs[k].Dispatching? && HeldBy(b, token, now))))
            && (r.Ok? && b.jobs[k].Accepted? ==> r.value == b)
            && (r.Ok? && b.jobs[k].Dispatching? ==>
                  && r.value.jobs == b.jobs[k := Accepted(task, submission)]
                  && r.value.lease == (if Has(r.value.jobs, DispatchingKind) then b.lease else None)
                  && (r.value.lease.Some? ==> r.value.status.SomeAccepted?))
  {
    if b.jobs[k].Dispatching? {
      assert KindOf(b.jobs[k]) == DispatchingKind;
      HasAfterUpdate(b.jobs, k, Accepted(task, submission), AcceptedKind);
      HasAfterUpdate(b.jobs, k, Accepted(task, submission), PendingKind);
      SomeKindOrEmpty(b.jobs[k := Accepted(task, submission)]);
    }
  }

  /**
   The store takes a failed job with an error, either again or from the holder of the lease while the job is in
   dispatch. Every other job in dispatch is pending again, and the lease is given up.
   */
  lemma FailExactly(b: Batch, k: nat, token: string, now: int, error: string)
    requires Consistent(b) && k < |b.jobs|
    ensures var r := RecordFailed(b, k, token, now, error);
            && (r.Ok? <==> error != "" && (b.jobs[k] == Failed(error)
                                           || (b.jobs[k].Dispatching? && HeldBy(b, token, now))))
            && (r.Ok? && b.jobs[k].Failed? ==> r.value == b)
            && (r.Ok? && b.jobs[k].Dispatching? ==>
                  && r.value.lease.None?
                  && Turned(b.jobs[k := Failed(error)], r.value.jobs, DispatchingKind, Pending))
  {
    if b.jobs[k].Dispatching? {
      assert KindOf(b.jobs[k]) == DispatchingKind;
    }
  }

  /** Recovery takes the jobs in dispatch back from a lease that has run out, and changes nothing else. */
  lemma RecoverExactly(b: Batch, now: int)
    requires Consistent(b)
    ensures b.lease.Some? && b.lease.value.until <= now ==>
              Recover(b, now).lease.None? && Turned(b.jobs, Recover(b, now).jobs, DispatchingKind, Pending)
    ensures b.lease.None? || now < b.lease.value.until ==> Recover(b, now) == b
  {
  }

  /** A claim takes every pending job into dispatch under the lease. */
  lemma ClaimExactly(b: Batch, lease: Lease)
    requires Claimable(b)
    ensures Claim(b, lease).lease == Some(lease) && Claim(b, lease).status.InDispatch?
    ensures Turned(b.jobs, Claim(b, lease).jobs, PendingKind, Dispatching)
  {
  }

  /** A batch whose pending jobs no worker can ever claim. */
  predicate Stuck(b: Batch) {
    b.lease.None? && Has(b.jobs, PendingKind) && b.status.AllFailed?
  }

  /** An unleased batch with pending jobs can be claimed, unless some job failed and none was accepted. */
  lemma ClaimableExactly(n: nat, ops: seq<Operation>)
    requires n > 0
    ensures var b := Run(Created(n), ops);
            b.lease.None? && Has(b.jobs, PendingKind) ==>
              (Claimable(b) <==> Has(b.jobs, FailedKind) ==> Has(b.jobs, AcceptedKind))
  {
    CreatedIsConsistent(n);
    RunKeeps(Created(n), ops);
    var b := Run(Created(n), ops);
    if b.lease.None? && Has(b.jobs, PendingKind) {
      SomeKindOrEmpty(b.jobs);
    }
  }

  /** A stuck batch stays stuck: a first job that fails leaves the others pending for ever. */
  lemma {:induction false} StuckForEver(b: Batch, ops: seq<Operation>)
    requires Consistent(b) && Stuck(b)
    ensures Run(b, ops) == b
  {
    if ops != [] {
      StuckForEver(b, ops[..|ops| - 1]);
    }
  }

  /** A failure before anything was accepted leaves the other jobs pending for ever. */
  lemma EarlyFailureSticks(b: Batch, k: nat, token: string, now: int, error: string)
    requires Consistent(b) && k < |b.jobs| && b.jobs[k].Dispatching? && |b.jobs| > 1
    requires !Has(b.jobs, AcceptedKind) && RecordFailed(b, k, token, now, error).Ok?
    ensures Stuck(RecordFailed(b, k, token, now, error).value)
  {
    var after := RecordFailed(b, k, token, now, error).value;
    var other := if k == 0 then 1 else 0;
    assert KindOf(b.jobs[other]) == DispatchingKind;
    assert KindOf(after.jobs[other]) == PendingKind && KindOf(after.jobs[k]) == FailedKind;
    ReplacedHas(b.jobs[k := Failed(error)], DispatchingKind, Pending, AcceptedKind);
    HasAfterUpdate(b.jobs, k, Failed(error), AcceptedKind);
  }
}
