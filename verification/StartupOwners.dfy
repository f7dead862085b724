/**
 The owners that a daemon preserved at its start (`poll_startup_research_owners_at` in `src/daemon.rs`): the
 map of their evidence and the cursor, one polling pass, and what every run of passes keeps.
 */
module StartupOwners {
  import opened Wrappers
  import opened OwnerLifecycle
  import opened OwnerRounds

  type World = RunId -> Answer

  /** What a poll of one owner of the map comes to. */
  type Poller = (RunId, Owner) -> Outcome

  function Polls(runner: bool, world: World): Poller {
    (id: RunId, o: Owner) => PollOwner(o, runner, world(id))
  }

  /** The map after a poll of `id`: a kept entry is written back, and a dropped one is removed. */
  function Put(owners: map<RunId, Owner>, id: RunId, entry: Option<Owner>): map<RunId, Owner> {
    if entry.Some? then owners[id := entry.value] else owners - {id}
  }

  /** A pass over the selected owners; it stops early when an owner needs a runner that there is not. */
  function PassOver(owners: map<RunId, Owner>, ids: seq<RunId>, poll: Poller): map<RunId, Owner>
  {
    if ids == [] || ids[0] !in owners then owners
    else
      var out := poll(ids[0], owners[ids[0]]);
      var after := Put(owners, ids[0], out.entry);
      if out.stop then after else PassOver(after, ids[1..], poll)
  }

  /** The pass notes an error. */
  predicate PassErrs(owners: map<RunId, Owner>, ids: seq<RunId>, poll: Poller) {
    if ids == [] || ids[0] !in owners then false
    else
      var out := poll(ids[0], owners[ids[0]]);
      out.error || (!out.stop && PassErrs(Put(owners, ids[0], out.entry), ids[1..], poll))
  }

  datatype State = State(owners: map<RunId, Owner>, cursor: nat)

  ghost function AfterPass(s: State, limit: nat, runner: bool, world: World): State {
    State(PassOver(s.owners, Selected(Order(s.owners.Keys), s.cursor, limit), Polls(runner, world)),
          NextCursor(|s.owners.Keys|, s.cursor, limit))
  }

  lemma PutKeepsOthers(owners: map<RunId, Owner>, id: RunId, entry: Option<Owner>, other: RunId)
    requires other != id
    ensures other in Put(owners, id, entry) <==> other in owners
    ensures other in owners ==> Put(owners, id, entry)[other] == owners[other]
  {
  }

  lemma PassSteps(owners: map<RunId, Owner>, ids: seq<RunId>, k: nat, poll: Poller)
    requires k < |ids| && ids[k] in owners
    ensures var out := poll(ids[k], owners[ids[k]]);
            var after := Put(owners, ids[k], out.entry);
            && PassOver(owners, ids[k..], poll)
               == (if out.stop then after else PassOver(after, ids[k + 1..], poll))
            && (PassErrs(owners, ids[k..], poll)
                <==> out.error || (!out.stop && PassErrs(after, ids[k + 1..], poll)))
  {
    assert ids[k..][1..] == ids[k + 1..];
  }

  predicate AllIn(ids: seq<RunId>, k: nat, owners: map<RunId, Owner>) {
    forall i :: k <= i < |ids| ==> ids[i] in owners
  }

  lemma PutKeepsRest(owners: map<RunId, Owner>, ids: seq<RunId>, k: nat, entry: Option<Owner>)
    requires Distinct(ids) && k < |ids| && AllIn(ids, k, owners)
    ensures AllIn(ids, k + 1, Put(owners, ids[k], entry))
    ensures Put(owners, ids[k], entry).Keys <= owners.Keys
    ensures |Put(owners, ids[k], entry)| == |owners| - if entry.Some? then 0 else 1
  {
    forall i | k < i < |ids|
      ensures ids[i] in Put(owners, ids[k], entry)
    {
      PutKeepsOthers(owners, ids[k], entry, ids[i]);
    }
    if entry.Some? {
      assert owners[ids[k] := entry.value].Keys == owners.Keys;
    } else {
      assert (owners - {ids[k]}).Keys == owners.Keys - {ids[k]};
    }
  }

  class Daemon {
    var owners: map<RunId, Owner>
    var cursor: nat
    const limit: nat
    const runner: bool

    constructor (owners: map<RunId, Owner>, limit: nat, runner: bool)
      ensures this.owners == owners && cursor == 0 && this.limit == limit && this.runner == runner
    {
      this.owners := owners;
      cursor := 0;
      this.limit := limit;
      this.runner := runner;
    }

    function Value(): State
      reads this
    {
      State(owners, cursor)
    }

    /** The owners of one batch, in its order; the batch was cloned from the map before the pass. */
    method PollBatch(batch: seq<RunId>, poll: Poller) returns (retired: nat, failed: bool)
      requires Distinct(batch) && forall id :: id in batch ==> id in owners
      modifies this`owners
      ensures owners == PassOver(old(owners), batch, poll)
      ensures owners.Keys <= old(owners.Keys)
      ensures retired + |owners| == |old(owners)|
      ensures failed <==> PassErrs(old(owners), batch, poll)
    {
      retired, failed := 0, false;
      var k, stopped := 0, false;
      while k < |batch| && !stopped
        invariant k <= |batch| && owners.Keys <= old(owners.Keys)
        invariant AllIn(batch, k, owners)
        invariant PassOver(old(owners), batch, poll)
                  == if stopped then owners else PassOver(owners, batch[k..], poll)
        invariant PassErrs(old(owners), batch, poll)
                  <==> failed || (!stopped && PassErrs(owners, batch[k..], poll))
        invariant retired + |owners| == |old(owners)|
      {
        var out := poll(batch[k], owners[batch[k]]);
        PassSteps(owners, batch, k, poll);
        PutKeepsRest(owners, batch, k, out.entry);
        owners := Put(owners, batch[k], out.entry);
        if out.entry.None? {
          retired := retired + 1;
        }
        failed := failed || out.error;
        stopped := out.stop;
        k := k + 1;
      }
    }

    /**
     One pass. `Ok` carries the number of owners that left the map, and any error that was noted makes the
     pass fail after it has gone over the rest.
     */
    method Poll(world: World) returns (result: Result<nat, ()>)
      modifies this
      ensures Value() == AfterPass(old(Value()), limit, runner, world)
      ensures owners.Keys <= old(owners.Keys)
      ensures result.Err?
              <==> PassErrs(old(owners), Selected(Order(old(owners.Keys)), old(cursor), limit), Polls(runner, world))
      ensures result.Ok? ==> result.value == |old(owners)| - |owners|
    {
      var batch, next := SelectBatch(owners.Keys, cursor, limit);
      cursor := next;
      var retired, failed := PollBatch(batch, Polls(runner, world));
      result := if failed then Err(()) else Ok(retired);
    }
  }

  // ---------------------------------------------------------------- one pass, owner by owner

  /** The owner is polled: it is selected, and the pass has not stopped before it. */
  predicate Polled(owners: map<RunId, Owner>, ids: seq<RunId>, poll: Poller, id: RunId) {
    if ids == [] || ids[0] !in owners then false
    else if ids[0] == id then true
    else
      var out := poll(ids[0], owners[ids[0]]);
      !out.stop && Polled(Put(owners, ids[0], out.entry), ids[1..], poll, id)
  }

  function EntryOf(owners: map<RunId, Owner>, id: RunId): Option<Owner> {
    if id in owners then Some(owners[id]) else None
  }

  /** A pass does to a polled owner exactly what its own poll does, and nothing to any other. */
  lemma {:induction false} PassIsPointwise(owners: map<RunId, Owner>, ids: seq<RunId>, poll: Poller,
                                           id: RunId)
    requires Distinct(ids)
    ensures Polled(owners, ids, poll, id) ==> id in owners && id in ids
    ensures EntryOf(PassOver(owners, ids, poll), id)
            == if Polled(owners, ids, poll, id) then poll(id, owners[id]).entry
               else EntryOf(owners, id)
  {
    if ids != [] && ids[0] in owners {
      var out := poll(ids[0], owners[ids[0]]);
      var after := Put(owners, ids[0], out.entry);
      assert Distinct(ids[1..]) && ids == [ids[0]] + ids[1..];
      if ids[0] == id {
        NotPolledAgain(after, ids[1..], poll, id);
        PassIsPointwise(after, ids[1..], poll, id);
      } else {
        PutKeepsOthers(owners, ids[0], out.entry, id);
        PassIsPointwise(after, ids[1..], poll, id);
      }
    }
  }

  lemma {:induction false} NotPolledAgain(owners: map<RunId, Owner>, ids: seq<RunId>, poll: Poller,
                                          id: RunId)
    requires id !in ids
    ensures !Polled(owners, ids, poll, id)
  {
    if ids != [] && ids[0] in owners {
      var out := poll(ids[0], owners[ids[0]]);
      NotPolledAgain(Put(owners, ids[0], out.entry), ids[1..], poll, id);
    }
  }

  /** With a runner a pass never stops early, so every selected owner is polled. */
  lemma {:induction false} SelectedIsPolled(owners: map<RunId, Owner>, ids: seq<RunId>, world: World, id: RunId)
    requires Distinct(ids) && id in ids && forall x :: x in ids ==> x in owners
    ensures Polled(owners, ids, Polls(true, world), id)
  {
    if ids[0] != id {
      var out := Polls(true, world)(ids[0], owners[ids[0]]);
      NeverStops(owners[ids[0]], world(ids[0]));
      assert ids == [ids[0]] + ids[1..];
      forall x | x in ids[1..]
        ensures x in Put(owners, ids[0], out.entry)
      {
        PutKeepsOthers(owners, ids[0], out.entry, x);
      }
      SelectedIsPolled(Put(owners, ids[0], out.entry), ids[1..], world, id);
    }
  }

  /** The pass goes on after this place of its batch. */
  predicate GoesPast(owners: map<RunId, Owner>, ids: seq<RunId>, poll: Poller, j: nat)
    requires j < |ids| && ids[j] in owners
  {
    !poll(ids[j], owners[ids[j]]).stop
  }

  predicate AllThere(owners: map<RunId, Owner>, ids: seq<RunId>) {
    forall j :: 0 <= j < |ids| ==> ids[j] in owners
  }

  lemma RestIsThere(owners: map<RunId, Owner>, ids: seq<RunId>, entry: Option<Owner>)
    requires Distinct(ids) && ids != [] && AllThere(owners, ids)
    ensures Distinct(ids[1..]) && AllThere(Put(owners, ids[0], entry), ids[1..])
    ensures forall j :: 1 <= j < |ids| ==> Put(owners, ids[0], entry)[ids[j]] == owners[ids[j]]
  {
    forall j | 1 <= j < |ids|
      ensures ids[j] in Put(owners, ids[0], entry) && Put(owners, ids[0], entry)[ids[j]] == owners[ids[j]]
    {
      PutKeepsOthers(owners, ids[0], entry, ids[j]);
    }
  }

  /** An owner of the batch is polled exactly when no poll before it stops the pass. */
  lemma {:induction false} PolledExactly(owners: map<RunId, Owner>, ids: seq<RunId>, poll: Poller, i: nat)
    requires Distinct(ids) && AllThere(owners, ids) && i < |ids|
    ensures Polled(owners, ids, poll, ids[i]) <==> forall j: nat :: j < i ==> GoesPast(owners, ids, poll, j)
    decreases i
  {
    if i > 0 {
      var out := poll(ids[0], owners[ids[0]]);
      var after, rest := Put(owners, ids[0], out.entry), ids[1..];
      RestIsThere(owners, ids, out.entry);
      PolledExactly(after, rest, poll, i - 1);
      assert ids[i] != ids[0] && rest[i - 1] == ids[i];
      PastFirst(owners, ids, poll, i);
    }
  }

  lemma PastFirst(owners: map<RunId, Owner>, ids: seq<RunId>, poll: Poller, i: nat)
    requires Distinct(ids) && AllThere(owners, ids) && 0 < i < |ids|
    requires var after := Put(owners, ids[0], poll(ids[0], owners[ids[0]]).entry);
             AllThere(after, ids[1..]) && forall j :: 1 <= j < |ids| ==> after[ids[j]] == owners[ids[j]]
    ensures var after := Put(owners, ids[0], poll(ids[0], owners[ids[0]]).entry);
            (forall j: nat :: j < i ==> GoesPast(owners, ids, poll, j))
            <==> !poll(ids[0], owners[ids[0]]).stop
                 && forall j: nat :: j < i - 1 ==> GoesPast(after, ids[1..], poll, j)
  {
    var after := Put(owners, ids[0], poll(ids[0], owners[ids[0]]).entry);
    forall j: nat | j < i - 1
      ensures GoesPast(after, ids[1..], poll, j) <==> GoesPast(owners, ids, poll, j + 1)
    {
      assert ids[1..][j] == ids[j + 1];
    }
    if (forall j: nat :: j < i - 1 ==> GoesPast(after, ids[1..], poll, j)) && GoesPast(owners, ids, poll, 0) {
      forall j: nat | j < i
        ensures GoesPast(owners, ids, poll, j)
      {
        if j > 0 {
          assert GoesPast(after, ids[1..], poll, j - 1);
        }
      }
    }
    if forall j: nat :: j < i ==> GoesPast(owners, ids, poll, j) {
      assert GoesPast(owners, ids, poll, 0);
      forall j: nat | j < i - 1
        ensures GoesPast(after, ids[1..], poll, j)
      {
        assert GoesPast(owners, ids, poll, j + 1);
      }
    }
  }

  predicate ErrsAt(owners: map<RunId, Owner>, ids: seq<RunId>, poll: Poller, i: nat) {
    i < |ids| && ids[i] in owners && Polled(owners, ids, poll, ids[i]) && poll(ids[i], owners[ids[i]]).error
  }

  /** A pass fails exactly when the poll of some owner that it polls notes an error. */
  lemma {:induction false} PassErrsExactly(owners: map<RunId, Owner>, ids: seq<RunId>, poll: Poller)
    requires Distinct(ids) && AllThere(owners, ids)
    ensures PassErrs(owners, ids, poll) <==> exists i: nat :: ErrsAt(owners, ids, poll, i)
  {
    if ids != [] {
      var out := poll(ids[0], owners[ids[0]]);
      var after, rest := Put(owners, ids[0], out.entry), ids[1..];
      RestIsThere(owners, ids, out.entry);
      PassErrsExactly(after, rest, poll);
      forall i: nat | 0 < i < |ids|
        ensures ErrsAt(owners, ids, poll, i) <==> !out.stop && ErrsAt(after, rest, poll, i - 1)
      {
        assert rest[i - 1] == ids[i] && ids[i] != ids[0];
      }
      ErrsFirst(owners, ids, poll);
      if i: nat :| ErrsAt(after, rest, poll, i) {
        assert ErrsAt(owners, ids, poll, i + 1) <==> !out.stop && ErrsAt(after, rest, poll, i);
      }
    }
  }

  lemma ErrsFirst(owners: map<RunId, Owner>, ids: seq<RunId>, poll: Poller)
    requires ids != [] && ids[0] in owners
    ensures ErrsAt(owners, ids, poll, 0) <==> poll(ids[0], owners[ids[0]]).error
  {
  }

  lemma NeverStops(o: Owner, a: Answer)
    ensures !PollOwner(o, true, a).stop
  {
    if a.read.Found? {
      RecoveryNeverStops(Refreshed(o, Observed(o, a.read.owner)), a);
    }
  }

  lemma RecoveryNeverStops(o: Owner, a: Answer)
    ensures !Recover(o, true, a).stop
  {
  }

  // ---------------------------------------------------------------- runs of passes

  /** A run of passes: the state before each of them and after the last, and what the world answered. */
  datatype History = History(states: seq<State>, worlds: seq<World>, limit: nat, runner: bool)

  ghost predicate PassAt(h: History, i: nat)
    requires |h.states| == |h.worlds| + 1
  {
    i < |h.worlds| ==> h.states[i + 1] == AfterPass(h.states[i], h.limit, h.runner, h.worlds[i])
  }

  ghost predicate IsHistory(h: History) {
    |h.states| == |h.worlds| + 1 && forall i: nat :: PassAt(h, i)
  }

  predicate Changed(before: Option<Owner>, after: Option<Owner>) {
    before.Some? && after.Some? && Tracked(before.value) != Tracked(after.value)
  }

  /** How many of the first `n` passes change a tracked field of one owner. */
  function Changes(h: History, n: nat, id: RunId): nat
    requires n < |h.states|
  {
    if n == 0 then 0
    else
      Changes(h, n - 1, id)
      + One(Changed(EntryOf(h.states[n - 1].owners, id), EntryOf(h.states[n].owners, id)))
  }

  lemma PassKeepsEvidence(s: State, limit: nat, runner: bool, world: World, id: RunId)
    requires id in AfterPass(s, limit, runner, world).owners
    ensures id in s.owners
    ensures var later := AfterPass(s, limit, runner, world).owners[id];
            && Descends(s.owners[id], later)
            && Progress(s.owners[id]) + One(Tracked(s.owners[id]) != Tracked(later)) <= Progress(later)
  {
    var batch := Selected(Order(s.owners.Keys), s.cursor, limit);
    SelectedAreDistinct(Order(s.owners.Keys), s.cursor, limit);
    PassIsPointwise(s.owners, batch, Polls(runner, world), id);
    if Polled(s.owners, batch, Polls(runner, world), id) {
      PollKeepsEvidence(s.owners[id], runner, world(id));
    }
  }

  /** One pass of a run, for an owner that is there afterwards. */
  lemma LastPassKeepsEvidence(h: History, n: nat, id: RunId)
    requires IsHistory(h) && 0 < n <= |h.worlds| && id in h.states[n].owners
    ensures id in h.states[n - 1].owners
    ensures var before, after := h.states[n - 1].owners[id], h.states[n].owners[id];
            && Descends(before, after)
            && Progress(before) + Changes(h, n, id) <= Progress(after) + Changes(h, n - 1, id)
  {
    assert PassAt(h, n - 1);
    PassKeepsEvidence(h.states[n - 1], h.limit, h.runner, h.worlds[n - 1], id);
  }

  /** Along every run an owner stays pinned to its snapshot and never loses what it has reached. */
  lemma {:induction false} RunKeepsEvidence(h: History, n: nat, id: RunId)
    requires IsHistory(h) && n <= |h.worlds| && id in h.states[n].owners
    ensures id in h.states[0].owners
    ensures var first, later := h.states[0].owners[id], h.states[n].owners[id];
            Descends(first, later) && Progress(first) + Changes(h, n, id) <= Progress(later)
  {
    if n > 0 {
      LastPassKeepsEvidence(h, n, id);
      RunKeepsEvidence(h, n - 1, id);
      DescendsIsTransitive(h.states[0].owners[id], h.states[n - 1].owners[id], h.states[n].owners[id]);
    }
  }

  /** No run changes the tracked fields of an owner that stays more than thirteen times. */
  lemma AtMostThirteenChanges(h: History, n: nat, id: RunId)
    requires IsHistory(h) && n <= |h.worlds| && id in h.states[n].owners
    ensures Changes(h, n, id) <= 13
  {
    RunKeepsEvidence(h, n, id);
  }

  // ---------------------------------------------------------------- retirement, over every run

  /** The pass asks the store to retire the owner. */
  ghost predicate AsksRetirement(s: State, limit: nat, runner: bool, world: World, id: RunId) {
    && Polled(s.owners, Selected(Order(s.owners.Keys), s.cursor, limit), Polls(runner, world), id)
    && id in s.owners && PollOwner(s.owners[id], runner, world(id)).retireAsked
  }

  /** Whatever is retired is the run that the snapshot pinned, under the same authority. */
  lemma RetiredIsTheSnapshot(h: History, n: nat, id: RunId)
    requires IsHistory(h) && n < |h.worlds| && AsksRetirement(h.states[n], h.limit, h.runner, h.worlds[n], id)
    ensures id in h.states[0].owners && h.worlds[n](id).read.Found?
    ensures var first, read := h.states[0].owners[id], h.worlds[n](id).read.owner;
            && read.project == first.project && read.review == first.review && read.pid == first.pid
            && read.logPath == first.logPath
            && first.authority.Some? && read.authority.Some?
            && first.authority.value.lineage == read.authority.value.lineage
  {
    RunKeepsEvidence(h, n, id);
    RetirementExactly(h.states[n].owners[id], h.runner, h.worlds[n](id));
  }

  /**
   An owner without a process id whose run has not ended is retired only if the snapshot found it before its
   start, without a code, without its marker, and the marker is absent again in this pass.
   */
  lemma PidlessRetirement(h: History, n: nat, id: RunId)
    requires IsHistory(h) && n < |h.worlds| && AsksRetirement(h.states[n], h.limit, h.runner, h.worlds[n], id)
    requires forall x :: x in h.states[0].owners ==> AtStartup(h.states[0].owners[x])
    requires var read := h.worlds[n](id).read;
             read.Found? && read.owner.pid.None? && !Terminal(read.owner.status)
    ensures id in h.states[0].owners && h.worlds[n](id).markerAbsent
    ensures var first := h.states[0].owners[id];
            && first.status.Starting? && first.gate.GatePending? && first.policyCode.None? && first.failureStage.None?
            && first.markerAbsent && first.pid.None?
  {
    RunKeepsEvidence(h, n, id);
    RetirementExactly(h.states[n].owners[id], h.runner, h.worlds[n](id));
  }

  /** A pass drops an owner exactly when it polls it and the store has it no more, or retires it. */
  lemma PassDropsExactly(s: State, limit: nat, runner: bool, world: World, id: RunId)
    requires id in s.owners
    ensures id !in AfterPass(s, limit, runner, world).owners
            <==> && Polled(s.owners, Selected(Order(s.owners.Keys), s.cursor, limit), Polls(runner, world), id)
                 && (|| world(id).read.NoOwner?
                     || (AsksRetirement(s, limit, runner, world, id) && world(id).retire.Retired?))
  {
    var batch := Selected(Order(s.owners.Keys), s.cursor, limit);
    SelectedAreDistinct(Order(s.owners.Keys), s.cursor, limit);
    PassIsPointwise(s.owners, batch, Polls(runner, world), id);
    LeavesExactly(s.owners[id], runner, world(id));
  }

  /** In every run an owner leaves the map only in such a pass. */
  lemma LeavesOnlyRetired(h: History, n: nat, id: RunId)
    requires IsHistory(h) && n < |h.worlds| && id in h.states[n].owners
    ensures id !in h.states[n + 1].owners
            <==> && PolledAt(h, n, id)
                 && (|| h.worlds[n](id).read.NoOwner?
                     || (AsksRetirement(h.states[n], h.limit, h.runner, h.worlds[n], id)
                         && h.worlds[n](id).retire.Retired?))
  {
    assert PassAt(h, n);
    PassDropsExactly(h.states[n], h.limit, h.runner, h.worlds[n], id);
  }

  // ---------------------------------------------------------------- fairness

  ghost function TickOf(s: State): Tick {
    Tick(Order(s.owners.Keys), s.cursor)
  }

  /** What a run of states is, seen through `see`. */
  function Seen<S>(states: seq<S>, see: S -> Tick): seq<Tick> {
    seq(|states|, k requires 0 <= k < |states| => see(states[k]))
  }

  predicate SeenLeadsOn<S>(states: seq<S>, see: S -> Tick, limit: nat, i: nat) {
    i + 1 < |states| ==> Succeeds(see(states[i]), see(states[i + 1]), limit)
  }

  lemma SeenIsARun<S>(states: seq<S>, see: S -> Tick, limit: nat)
    requires forall i: nat :: SeenLeadsOn(states, see, limit, i)
    ensures IsRun(Seen(states, see), limit)
  {
    forall i: nat
      ensures OwnerRounds.StepAt(Seen(states, see), limit, i)
    {
      assert SeenLeadsOn(states, see, limit, i);
    }
  }

  /** The ticks of the first `n` passes. */
  ghost function Ticks(h: History, n: nat): seq<Tick>
    requires n < |h.states|
  {
    Seen(h.states[..n], TickOf)
  }

  lemma TickIsState(h: History, n: nat, k: nat)
    requires k < n < |h.states|
    ensures Ticks(h, n)[k] == TickOf(h.states[k])
  {
  }

  lemma {:induction false} StaysBefore(h: History, n: nat, k: nat, id: RunId)
    requires IsHistory(h) && k <= n <= |h.worlds| && id in h.states[n].owners
    ensures id in h.states[k].owners
    decreases n
  {
    if k < n {
      LastPassKeepsEvidence(h, n, id);
      StaysBefore(h, n - 1, k, id);
    }
  }

  lemma PassLeadsOn(s: State, next: State, limit: nat, runner: bool, world: World)
    requires next == AfterPass(s, limit, runner, world)
    ensures Succeeds(TickOf(s), TickOf(next), limit)
  {
    PassShrinks(s, limit, runner, world);
  }

  lemma StateLeadsOn(h: History, i: nat)
    requires IsHistory(h) && i < |h.worlds|
    ensures Succeeds(TickOf(h.states[i]), TickOf(h.states[i + 1]), h.limit)
  {
    assert PassAt(h, i);
    PassLeadsOn(h.states[i], h.states[i + 1], h.limit, h.runner, h.worlds[i]);
  }

  lemma TicksAreARun(h: History, n: nat)
    requires IsHistory(h) && n <= |h.worlds|
    ensures IsRun(Ticks(h, n), h.limit)
  {
    forall i: nat
      ensures SeenLeadsOn(h.states[..n], TickOf, h.limit, i)
    {
      if i + 1 < n {
        StateLeadsOn(h, i);
      }
    }
    SeenIsARun(h.states[..n], TickOf, h.limit);
  }

  lemma TickHasSurvivor(h: History, n: nat, k: nat, id: RunId)
    requires IsHistory(h) && k < n <= |h.worlds| && id in h.states[n].owners
    ensures id in Ticks(h, n)[k].ids
  {
    TickIsState(h, n, k);
    StaysBefore(h, n, k, id);
  }

  lemma SurvivorStaysInTicks(h: History, n: nat, id: RunId)
    requires IsHistory(h) && n <= |h.worlds| && id in h.states[n].owners
    ensures Survives(Ticks(h, n), id)
  {
    forall k | 0 <= k < n
      ensures id in Ticks(h, n)[k].ids
    {
      TickHasSurvivor(h, n, k, id);
    }
  }

  lemma PassShrinks(s: State, limit: nat, runner: bool, world: World)
    ensures Succeeds(TickOf(s), TickOf(AfterPass(s, limit, runner, world)), limit)
  {
    forall id | id in AfterPass(s, limit, runner, world).owners
      ensures id in s.owners
    {
      PassKeepsEvidence(s, limit, runner, world, id);
    }
    FewerOrSame(AfterPass(s, limit, runner, world).owners.Keys, s.owners.Keys);
  }

  lemma FewerOrSame(a: set<RunId>, b: set<RunId>)
    requires a <= b
    ensures a == b || |a| < |b|
  {
    assert b == a + (b - a);
  }

  /**
   With a runner, an owner that stays is polled within `n` times the passes that go over `n` owners, whatever
   leaves the map meanwhile.
   */
  lemma SurvivorIsPolled(h: History, n: nat, id: RunId)
    requires IsHistory(h) && h.runner && 0 < n <= |h.worlds| && id in h.states[n].owners
    requires var m := |h.states[0].owners|; m > 0 ==> n >= AllRounds(m, Rounds(h.limit, m))
    ensures PolledWithin(h, n, id)
  {
    StaysBefore(h, n, 0, id);
    TicksAreARun(h, n);
    SurvivorStaysInTicks(h, n, id);
    TickIsState(h, n, 0);
    assert |h.states[0].owners| == |h.states[0].owners.Keys|;
    var run := Ticks(h, n);
    SurvivorIsSelected(run, h.limit, id);
    var k :| 0 <= k < |run| && SelectedAt(run[k], h.limit, id);
    TickIsState(h, n, k);
    SelectedHasPolled(h, k, id);
  }

  lemma SelectedHasPolled(h: History, k: nat, id: RunId)
    requires IsHistory(h) && h.runner && k < |h.worlds| && SelectedAt(TickOf(h.states[k]), h.limit, id)
    ensures PolledAt(h, k, id)
  {
    var now := h.states[k];
    SelectedAreDistinct(Order(now.owners.Keys), now.cursor, h.limit);
    SelectedIsPolled(now.owners, Selected(Order(now.owners.Keys), now.cursor, h.limit), h.worlds[k], id);
  }

  ghost predicate PolledAt(h: History, k: nat, id: RunId)
    requires k < |h.states| && k < |h.worlds|
  {
    var now := h.states[k];
    Polled(now.owners, Selected(Order(now.owners.Keys), now.cursor, h.limit), Polls(h.runner, h.worlds[k]), id)
  }

  ghost predicate PolledWithin(h: History, n: nat, id: RunId)
    requires n <= |h.worlds| < |h.states|
  {
    exists k :: 0 <= k < n && PolledAt(h, k, id)
  }
}
