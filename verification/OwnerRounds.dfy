/**
 The round-robin selection of startup owners (`poll_startup_research_owners_at` in `src/daemon.rs`): the
 ascending order of the run ids, the owners that one tick selects, and how long a surviving owner can wait.
 */
module OwnerRounds {
  /** A 64-bit row id. */
  type RunId = id: int | -0x8000_0000_0000_0000 <= id < 0x8000_0000_0000_0000

  // ---------------------------------------------------------------- the order of the keys

  predicate Ascending(ids: seq<RunId>) {
    forall i, j :: 0 <= i < j < |ids| ==> ids[i] < ids[j]
  }

  /** `ids` lists exactly `keys`, in ascending order. */
  ghost predicate Lists(ids: seq<RunId>, keys: set<RunId>) {
    Ascending(ids) && |ids| == |keys| && forall id :: id in ids <==> id in keys
  }

  /** Where `id` belongs in an ascending list. */
  function Insert(ids: seq<RunId>, id: RunId): (r: seq<RunId>)
    requires Ascending(ids) && id !in ids
    ensures Ascending(r) && |r| == |ids| + 1 && forall x :: x in r <==> x == id || x in ids
  {
    if ids == [] || ids[|ids| - 1] < id then ids + [id]
    else
      var last := ids[|ids| - 1];
      var front := Insert(ids[..|ids| - 1], id);
      var rest := ids[..|ids| - 1];
      assert ids == rest + [last] && last in ids;
      assert forall x :: x in rest ==> x < last;
      assert forall j :: 0 <= j < |front| ==> front[j] in front;
      front + [last]
  }

  /** The keys of an ordered map, in its order. */
  method KeysInOrder(keys: set<RunId>) returns (ids: seq<RunId>)
    ensures Lists(ids, keys)
  {
    ids := [];
    var rest := keys;
    while rest != {}
      invariant rest <= keys && Lists(ids, keys - rest)
      decreases rest
    {
      var id :| id in rest;
      ids := Insert(ids, id);
      assert keys - (rest - {id}) == (keys - rest) + {id};
      rest := rest - {id};
    }
    assert keys - rest == keys;
  }

  lemma {:induction false} ListIsUnique(a: seq<RunId>, b: seq<RunId>)
    requires Ascending(a) && Ascending(b) && |a| == |b| && forall id :: id in a <==> id in b
    ensures a == b
  {
    if a != [] {
      LastIsLast(a, b);
      LastIsLast(b, a);
      var a', b' := a[..|a| - 1], b[..|b| - 1];
      forall id
        ensures id in a' <==> id in b'
      {
        FrontHas(a, id);
        FrontHas(b, id);
      }
      ListIsUnique(a', b');
      assert a == a' + [a[|a| - 1]] && b == b' + [b[|b| - 1]];
    }
  }

  lemma LastIsLast(a: seq<RunId>, b: seq<RunId>)
    requires Ascending(a) && Ascending(b) && a != [] && b != [] && forall id :: id in a <==> id in b
    ensures a[|a| - 1] <= b[|b| - 1]
  {
    assert a[|a| - 1] in b;
  }

  lemma FrontHas(a: seq<RunId>, id: RunId)
    requires Ascending(a) && a != []
    ensures id in a[..|a| - 1] <==> id in a && id != a[|a| - 1]
  {
    assert a == a[..|a| - 1] + [a[|a| - 1]];
  }

  ghost function Order(keys: set<RunId>): (ids: seq<RunId>)
    ensures Lists(ids, keys)
    decreases keys
  {
    if keys == {} then []
    else
      var id :| id in keys;
      Insert(Order(keys - {id}), id)
  }

  // ---------------------------------------------------------------- one tick

  function BatchSize(limit: nat, n: nat): nat
    requires n > 0
  {
    var atLeastOne := if limit > 1 then limit else 1;
    if atLeastOne < n then atLeastOne else n
  }

  /** The owners that a tick selects: `count` places from the cursor on, around the end of the list. */
  function SelectedFrom(ids: seq<RunId>, start: nat, count: nat): seq<RunId>
    requires 0 < |ids|
  {
    if count == 0 then [] else SelectedFrom(ids, start, count - 1) + [ids[(start + count - 1) % |ids|]]
  }

  lemma {:induction false} SelectedFromAt(ids: seq<RunId>, start: nat, count: nat)
    requires 0 < |ids|
    ensures |SelectedFrom(ids, start, count)| == count
    ensures forall k :: 0 <= k < count ==> SelectedFrom(ids, start, count)[k] == ids[(start + k) % |ids|]
  {
    if count > 0 {
      SelectedFromAt(ids, start, count - 1);
    }
  }

  function Selected(ids: seq<RunId>, cursor: nat, limit: nat): seq<RunId> {
    if ids == [] then [] else SelectedFrom(ids, cursor % |ids|, BatchSize(limit, |ids|))
  }

  function NextCursor(n: nat, cursor: nat, limit: nat): nat {
    if n == 0 then 0 else (cursor % n + BatchSize(limit, n)) % n
  }

  lemma ModIsInjective(n: nat, start: nat, i: nat, j: nat)
    requires n > 0 && start < n && i < j < n
    ensures (start + i) % n != (start + j) % n
  {
    var a := if start + i < n then start + i else start + i - n;
    var b := if start + j < n then start + j else start + j - n;
    SmallMod(start + i, n);
    SmallMod(start + j, n);
    assert a != b;
  }

  lemma SmallMod(x: nat, n: nat)
    requires n > 0 && x < n + n
    ensures x % n == if x < n then x else x - n
  {
  }

  predicate Distinct(ids: seq<RunId>) {
    forall i, j :: 0 <= i < j < |ids| ==> ids[i] != ids[j]
  }

  lemma {:induction false} SelectionIsDistinct(ids: seq<RunId>, start: nat, count: nat)
    requires 0 < |ids| && Ascending(ids) && start < |ids| && count <= |ids|
    ensures Distinct(SelectedFrom(ids, start, count))
    ensures forall id :: id in SelectedFrom(ids, start, count) ==> id in ids
  {
    if count > 0 {
      var front := SelectedFrom(ids, start, count - 1);
      SelectionIsDistinct(ids, start, count - 1);
      SelectedFromAt(ids, start, count - 1);
      forall k | 0 <= k < count - 1
        ensures front[k] != ids[(start + count - 1) % |ids|]
      {
        ModIsInjective(|ids|, start, k, count - 1);
      }
    }
  }

  /** A tick never selects an owner twice. */
  lemma SelectedAreDistinct(ids: seq<RunId>, cursor: nat, limit: nat)
    requires Ascending(ids)
    ensures var s := Selected(ids, cursor, limit);
            && Distinct(s)
            && (forall id :: id in s ==> id in ids)
            && |s| == if ids == [] then 0 else BatchSize(limit, |ids|)
  {
    if ids != [] {
      SelectionIsDistinct(ids, cursor % |ids|, BatchSize(limit, |ids|));
      SelectedFromAt(ids, cursor % |ids|, BatchSize(limit, |ids|));
    }
  }

  /** The selection of one tick, and where the cursor goes. */
  method SelectFrom(ids: seq<RunId>, cursor: nat, limit: nat) returns (batch: seq<RunId>, next: nat)
    requires Ascending(ids)
    ensures batch == Selected(ids, cursor, limit) && next == NextCursor(|ids|, cursor, limit)
    ensures Distinct(batch) && forall id :: id in batch ==> id in ids
  {
    SelectedAreDistinct(ids, cursor, limit);
    if ids == [] {
      return [], 0;
    }
    var start := cursor % |ids|;
    batch := SelectedFrom(ids, start, BatchSize(limit, |ids|));
    next := (start + |batch|) % |ids|;
  }

  /** The same, from the keys of the map. */
  method SelectBatch(keys: set<RunId>, cursor: nat, limit: nat) returns (batch: seq<RunId>, next: nat)
    ensures batch == Selected(Order(keys), cursor, limit) && next == NextCursor(|keys|, cursor, limit)
    ensures Distinct(batch) && forall id :: id in batch ==> id in keys
  {
    var ids := KeysInOrder(keys);
    ListIsUnique(ids, Order(keys));
    batch, next := SelectFrom(ids, cursor, limit);
  }

  // ---------------------------------------------------------------- how long an owner waits

  /** How many ticks it takes to reach a place `dist` steps ahead, while nothing is removed. */
  function Needed(dist: nat, c: nat): nat
    requires c > 0
  {
    if dist < c then 1 else 1 + Needed(dist - c, c)
  }

  lemma {:induction false} NeededGrows(near: nat, far: nat, c: nat)
    requires c > 0 && near <= far
    ensures 1 <= Needed(near, c) <= Needed(far, c)
  {
    if near >= c {
      NeededGrows(near - c, far - c, c);
    }
  }

  /** How many ticks pass over a list of `n` owners. */
  function Rounds(limit: nat, n: nat): nat
    requires n > 0
  {
    Needed(n - 1, BatchSize(limit, n))
  }

  /** Fewer owners never take more ticks. */
  lemma RoundsShrink(limit: nat, m: nat, n: nat)
    requires 0 < m <= n
    ensures Rounds(limit, m) <= Rounds(limit, n)
  {
    var c, d := BatchSize(limit, m), BatchSize(limit, n);
    if c == d {
      NeededGrows(m - 1, n - 1, c);
    } else {
      NeededGrows(0, n - 1, d);
    }
  }

  /** `rounds` ticks for every owner. */
  function AllRounds(n: nat, rounds: nat): nat {
    if n == 0 then 0 else AllRounds(n - 1, rounds) + rounds
  }

  lemma {:induction false} AllRoundsGrow(m: nat, n: nat, rounds: nat)
    requires m <= n
    ensures AllRounds(m, rounds) <= AllRounds(n, rounds)
  {
    if m < n {
      AllRoundsGrow(m, n - 1, rounds);
    }
  }

  /** In closed form: `n` times `n` over the batch size, rounded up. */
  lemma AllRoundsAre(limit: nat, n: nat)
    requires n > 0
    ensures Rounds(limit, n) == (n + BatchSize(limit, n) - 1) / BatchSize(limit, n)
    ensures AllRounds(n, Rounds(limit, n)) == n * Rounds(limit, n)
  {
    var c := BatchSize(limit, n);
    NeededIsQuotient(n - 1, c);
    DivStep(n - 1, c);
    AllRoundsIsProduct(n, Rounds(limit, n));
  }

  lemma {:induction false} NeededIsQuotient(dist: nat, c: nat)
    requires c > 0
    ensures Needed(dist, c) == dist / c + 1
  {
    if dist >= c {
      NeededIsQuotient(dist - c, c);
      DivStep(dist - c, c);
    } else {
      Quotient(dist, c, 0);
    }
  }

  lemma {:induction false} AllRoundsIsProduct(n: nat, rounds: nat)
    ensures AllRounds(n, rounds) == n * rounds
  {
    if n > 0 {
      AllRoundsIsProduct(n - 1, rounds);
      assert n * rounds == (n - 1) * rounds + rounds;
    }
  }

  lemma Quotient(x: nat, c: nat, q: nat)
    requires c > 0 && c * q <= x < c * q + c
    ensures x / c == q
  {
    var p := x / c;
    assert c * p <= x < c * p + c by {
      assert x == c * p + x % c;
    }
    assert c * (p + 1) == c * p + c && c * (q + 1) == c * q + c;
    Cancel(c, q, p + 1);
    Cancel(c, p, q + 1);
  }

  lemma DivStep(x: nat, c: nat)
    requires c > 0
    ensures (x + c) / c == x / c + 1
  {
    var q := x / c;
    assert c * q <= x < c * q + c by {
      assert x == c * q + x % c;
    }
    assert c * (q + 1) == c * q + c;
    Quotient(x + c, c, q + 1);
  }

  lemma Cancel(c: nat, a: int, b: int)
    requires c * a < c * b
    ensures a < b
  {
    assert c * (b - a) == c * b - c * a;
  }

  // ---------------------------------------------------------------- runs of ticks

  /** The ordered owners and the cursor before a tick. */
  datatype Tick = Tick(ids: seq<RunId>, cursor: nat)

  /** The cursor moves as the code moves it; owners may leave and none is added. */
  predicate Succeeds(t: Tick, next: Tick, limit: nat) {
    (next.ids == t.ids || |next.ids| < |t.ids|) && next.cursor == NextCursor(|t.ids|, t.cursor, limit)
  }

  predicate StepAt(run: seq<Tick>, limit: nat, i: nat) {
    i + 1 < |run| ==> Succeeds(run[i], run[i + 1], limit)
  }

  ghost predicate IsRun(run: seq<Tick>, limit: nat) {
    forall i: nat :: StepAt(run, limit, i)
  }

  predicate Survives(run: seq<Tick>, id: RunId) {
    forall i :: 0 <= i < |run| ==> id in run[i].ids
  }

  predicate SelectedAt(t: Tick, limit: nat, id: RunId) {
    id in Selected(t.ids, t.cursor, limit)
  }

  /** The place that the scan reaches `dist` steps after the cursor. */
  function Ahead(t: Tick, dist: nat): RunId
    requires t.ids != []
  {
    t.ids[(t.cursor % |t.ids| + dist) % |t.ids|]
  }

  lemma Position(t: Tick, id: RunId) returns (dist: nat)
    requires id in t.ids
    ensures dist < |t.ids| && Ahead(t, dist) == id
  {
    var i :| 0 <= i < |t.ids| && t.ids[i] == id;
    dist := Distance(t.cursor % |t.ids|, i, |t.ids|);
  }

  /** How far a place is ahead of another, around the end of the list. */
  lemma Distance(start: nat, i: nat, n: nat) returns (dist: nat)
    requires start < n && i < n
    ensures dist < n && (start + dist) % n == i
  {
    dist := if start <= i then i - start else i + n - start;
    SmallMod(start + dist, n);
  }

  lemma NearIsSelected(t: Tick, limit: nat, dist: nat)
    requires t.ids != [] && dist < BatchSize(limit, |t.ids|)
    ensures SelectedAt(t, limit, Ahead(t, dist))
  {
    SelectedFromAt(t.ids, t.cursor % |t.ids|, BatchSize(limit, |t.ids|));
    assert Selected(t.ids, t.cursor, limit)[dist] == Ahead(t, dist);
  }

  /** Without a removal, a tick brings every place that it does not reach nearer by the batch size. */
  lemma FarComesNearer(t: Tick, next: Tick, limit: nat, dist: nat)
    requires t.ids != [] && Succeeds(t, next, limit) && next.ids == t.ids
    requires BatchSize(limit, |t.ids|) <= dist < |t.ids|
    ensures Ahead(next, dist - BatchSize(limit, |t.ids|)) == Ahead(t, dist)
  {
    var n, c, start := |t.ids|, BatchSize(limit, |t.ids|), t.cursor % |t.ids|;
    SmallMod(start + c, n);
    SmallMod(next.cursor, n);
    SmallMod(start + dist, n);
    SmallMod(next.cursor + (dist - c), n);
  }

  lemma RestIsRun(run: seq<Tick>, limit: nat)
    requires |run| > 1 && IsRun(run, limit)
    ensures IsRun(run[1..], limit) && Succeeds(run[0], run[1], limit)
  {
    var rest := run[1..];
    forall i: nat
      ensures StepAt(rest, limit, i)
    {
      assert StepAt(run, limit, i + 1);
    }
    assert StepAt(run, limit, 0);
  }

  predicate Unchanged(run: seq<Tick>) {
    forall i :: 0 <= i < |run| ==> run[i].ids == run[0].ids
  }

  lemma {:induction false} Quiet(run: seq<Tick>, limit: nat, id: RunId, dist: nat) returns (k: nat)
    requires run != [] && IsRun(run, limit) && run[0].ids != [] && Unchanged(run)
    requires dist < |run[0].ids| && Ahead(run[0], dist) == id
    requires |run| >= Needed(dist, BatchSize(limit, |run[0].ids|))
    ensures k < |run| && k < Needed(dist, BatchSize(limit, |run[0].ids|)) && SelectedAt(run[k], limit, id)
    decreases |run|
  {
    var c := BatchSize(limit, |run[0].ids|);
    if dist < c {
      NearIsSelected(run[0], limit, dist);
      k := 0;
    } else {
      RestIsRun(run, limit);
      FarComesNearer(run[0], run[1], limit, dist);
      k := Quiet(run[1..], limit, id, dist - c);
      k := k + 1;
    }
  }

  ghost predicate SelectedWithin(run: seq<Tick>, limit: nat, id: RunId, bound: nat) {
    exists k :: 0 <= k < |run| && k < bound && SelectedAt(run[k], limit, id)
  }

  /** The list is gone over once per `Rounds` ticks while nothing is removed. */
  lemma QuietRoundsSelectEveryone(run: seq<Tick>, limit: nat, id: RunId)
    requires run != [] && IsRun(run, limit) && id in run[0].ids && Unchanged(run)
    requires |run| >= Rounds(limit, |run[0].ids|)
    ensures SelectedWithin(run, limit, id, Rounds(limit, |run[0].ids|))
  {
    var dist := Position(run[0], id);
    NeededGrows(dist, |run[0].ids| - 1, BatchSize(limit, |run[0].ids|));
    var k := Quiet(run, limit, id, dist);
  }

  lemma {:induction false} WaitsAtMost(run: seq<Tick>, limit: nat, id: RunId, rounds: nat, dist: nat)
    returns (k: nat)
    requires run != [] && IsRun(run, limit) && Survives(run, id)
    requires dist < |run[0].ids| && Ahead(run[0], dist) == id
    requires Rounds(limit, |run[0].ids|) <= rounds
    requires |run| >= AllRounds(|run[0].ids| - 1, rounds) + Needed(dist, BatchSize(limit, |run[0].ids|))
    ensures k < |run| && SelectedAt(run[k], limit, id)
    ensures k < AllRounds(|run[0].ids| - 1, rounds) + Needed(dist, BatchSize(limit, |run[0].ids|))
    decreases |run|
  {
    var n, c := |run[0].ids|, BatchSize(limit, |run[0].ids|);
    if dist < c {
      NearIsSelected(run[0], limit, dist);
      k := 0;
    } else {
      NeededGrows(0, dist - c, c);
      RestIsRun(run, limit);
      assert id in run[1].ids;
      var d := dist - c;
      if run[1].ids == run[0].ids {
        FarComesNearer(run[0], run[1], limit, dist);
      } else {
        d := AfterRemoval(run[0], run[1], limit, id, rounds);
      }
      k := WaitsAtMost(run[1..], limit, id, rounds, d);
      k := k + 1;
    }
  }

  /** A removal may move the cursor past an owner, and costs it at most one more round. */
  lemma AfterRemoval(t: Tick, next: Tick, limit: nat, id: RunId, rounds: nat) returns (dist: nat)
    requires id in next.ids && |next.ids| < |t.ids| && Rounds(limit, |t.ids|) <= rounds
    ensures dist < |next.ids| && Ahead(next, dist) == id && Rounds(limit, |next.ids|) <= rounds
    ensures AllRounds(|next.ids| - 1, rounds) + Needed(dist, BatchSize(limit, |next.ids|))
            <= AllRounds(|t.ids| - 1, rounds)
  {
    var n, m := |t.ids|, |next.ids|;
    dist := Position(next, id);
    RoundsShrink(limit, m, n);
    NeededGrows(dist, m - 1, BatchSize(limit, m));
    AllRoundsGrow(m, n - 1, rounds);
  }

  /** Whatever leaves the list meanwhile, an owner that stays is selected within `n` rounds. */
  lemma SurvivorIsSelected(run: seq<Tick>, limit: nat, id: RunId)
    requires run != [] && IsRun(run, limit) && Survives(run, id) && run[0].ids != []
    requires |run| >= AllRounds(|run[0].ids|, Rounds(limit, |run[0].ids|))
    ensures SelectedWithin(run, limit, id, AllRounds(|run[0].ids|, Rounds(limit, |run[0].ids|)))
  {
    var n, rounds := |run[0].ids|, Rounds(limit, |run[0].ids|);
    var dist := Position(run[0], id);
    NeededGrows(dist, n - 1, BatchSize(limit, n));
    var k := WaitsAtMost(run, limit, id, rounds, dist);
  }
}
