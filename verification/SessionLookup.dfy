/**
 The two searches that share the walk (`src/codex_session.rs`): the newest session of a project, and the one
 file that holds a given session.
 */
module SessionLookup {
  import opened RustText
  import opened SessionNames
  import opened SessionWalk
  import opened Wrappers

  const MAX_SESSION_STORE_ENTRIES := 4096

  /** What opening one of the stores below the Codex home gives; a missing store is skipped. */
  datatype Store = Present(items: seq<Item>) | NotFound | NotADirectory | Unreadable

  /** The entries of all stores, in the order in which one budget is spent on them. */
  function AllEvents(stores: seq<Store>): seq<Event> {
    if stores == [] then []
    else AllEvents(stores[..|stores| - 1]) + StoreEvents(stores[|stores| - 1])
  }

  function StoreEvents(store: Store): seq<Event> {
    if store.Present? then Flatten(store.items, 0) else []
  }

  predicate Usable(store: Store) {
    store.Present? || store.NotFound?
  }

  predicate AllUsable(stores: seq<Store>) {
    forall i :: 0 <= i < |stores| ==> Usable(stores[i])
  }

  /** Every store was looked at from end to end, within both bounds and without an obstacle. */
  predicate Traversed(stores: seq<Store>, limit: nat, strict: bool) {
    AllUsable(stores) && Clear(AllEvents(stores), strict) && |AllEvents(stores)| <= limit
  }

  function Files(stores: seq<Store>): seq<Item> {
    Leaves(AllEvents(stores))
  }

  lemma AllEventsSnoc(stores: seq<Store>, i: nat)
    requires i < |stores|
    ensures AllEvents(stores[..i + 1]) == AllEvents(stores[..i]) + StoreEvents(stores[i])
  {
    assert stores[..i + 1][..i] == stores[..i];
  }

  lemma {:induction false} AllEventsPrefix(stores: seq<Store>, i: nat)
    requires i <= |stores|
    ensures AllEvents(stores[..i]) <= AllEvents(stores)
    decreases |stores| - i
  {
    if i == |stores| {
      assert stores[..i] == stores;
    } else {
      AllEventsSnoc(stores, i);
      AllEventsPrefix(stores, i + 1);
    }
  }

  lemma ReplayPrefixFails<S>(first: seq<Event>, all: seq<Event>, remaining: nat, strict: bool,
                             visit: (S, Item) -> Verdict<S>, state: S)
    requires first <= all
    requires !Replay(first, remaining, strict, visit, state).outcome.Done?
    ensures Replay(all, remaining, strict, visit, state) == Replay(first, remaining, strict, visit, state)
  {
    ReplayAppend(first, all[|first|..], remaining, strict, visit, state);
    assert all == first + all[|first|..];
  }

  // ================================================================ the newest session of a project

  /** A file that proves a session: its identifier, its time, and the working directory that it names. */
  datatype Session = Session(id: string, modified: nat, cwd: Cwd)

  /** How a search recognises the session that an entry proves; the lemmas hold for any such test. */
  type Recognizer = Item -> Option<Session>

  /** The checks that an entry must pass before its identifier is remembered. */
  function ValidSession(item: Item): Option<Session> {
    if !item.Opened? || !item.file.regular || item.name.None? then None
    else
      var id := FilenameSessionId(item.name.value);
      if id.None? || item.file.modified.None? || item.file.record.None? then None
      else
        var record := item.file.record.value;
        if record.kind != "session_meta" || NormalizeMetadataId(record.id) != id || record.cwd.Relative? then None
        else Some(Session(id.value, item.file.modified.value, record.cwd))
  }

  predicate HasId(valid: Recognizer, item: Item, id: string) {
    valid(item).Some? && valid(item).value.id == id
  }

  /** A valid session whose working directory lies in the project. */
  predicate Owns(valid: Recognizer, item: Item, id: string, modified: nat) {
    valid(item) == Some(Session(id, modified, InsideProject))
  }

  ghost predicate OwnedIn(valid: Recognizer, bag: multiset<Item>, id: string, modified: nat) {
    exists item :: item in bag && Owns(valid, item, id, modified)
  }

  /** The captured variables `seen_ids` and `candidates`; a candidate is kept as its time. */
  datatype LatestState = LatestState(seen: set<string>, candidates: map<string, nat>)

  const NOTHING_SEEN := LatestState({}, map[])

  predicate Candidate(state: LatestState, id: string, modified: nat) {
    id in state.candidates && state.candidates[id] == modified
  }

  function Remember(state: LatestState, session: Option<Session>): Verdict<LatestState> {
    match session
    case None => Continue(state)
    case Some(Session(id, modified, cwd)) =>
      if id in state.seen then Refuse(state)
      else
        var seen := state.seen + {id};
        if !cwd.InsideProject? then Continue(LatestState(seen, state.candidates))
        else
          var candidates := state.candidates[id := modified];
          if id in state.candidates then Refuse(LatestState(seen, candidates))
          else Continue(LatestState(seen, candidates))
  }

  /** The callback of `resolve_latest_owned_session_unix`. */
  function VisitLatest(valid: Recognizer): (LatestState, Item) -> Verdict<LatestState> {
    (state, item) => Remember(state, valid(item))
  }

  /** Two entries prove one session: two different entries, or one entry that occurs twice. */
  ghost predicate Pair(bag: multiset<Item>, test: Item -> bool) {
    exists a, b :: a in bag && b in bag && test(a) && test(b) && (a != b || bag[a] >= 2)
  }

  function IdTest(valid: Recognizer, id: string): Item -> bool {
    item => HasId(valid, item, id)
  }

  ghost predicate SomeDuplicate(valid: Recognizer, bag: multiset<Item>) {
    exists id :: Pair(bag, IdTest(valid, id))
  }

  /** No two entries prove one session, and none proves a session that was seen before. */
  predicate Fresh(valid: Recognizer, leaves: seq<Item>, seen: set<string>) {
    leaves == []
    || (match valid(leaves[0])
        case None => Fresh(valid, leaves[1..], seen)
        case Some(session) => session.id !in seen && Fresh(valid, leaves[1..], seen + {session.id}))
  }

  lemma PairCons(first: Item, rest: multiset<Item>, test: Item -> bool)
    ensures Pair(multiset{first} + rest, test) <==>
            Pair(rest, test) || (test(first) && exists b :: b in rest && test(b))
  {
    var bag := multiset{first} + rest;
    if Pair(bag, test) {
      var a, b :| a in bag && b in bag && test(a) && test(b) && (a != b || bag[a] >= 2);
      if a == first {
        assert b in rest;
      } else if b == first {
        assert a in rest;
      } else {
        assert a in rest && b in rest && (a != b || rest[a] >= 2);
      }
    }
    if test(first) && exists b :: b in rest && test(b) {
      var b :| b in rest && test(b);
      assert first in bag && b in bag && (first != b || bag[first] >= 2);
    }
    if Pair(rest, test) {
      var a, b :| a in rest && b in rest && test(a) && test(b) && (a != b || rest[a] >= 2);
      assert a in bag && b in bag && (a != b || bag[a] >= 2);
    }
  }

  ghost predicate SomeSeen(valid: Recognizer, bag: multiset<Item>, seen: set<string>) {
    exists item, id :: item in bag && HasId(valid, item, id) && id in seen
  }

  lemma {:induction false} FreshMeans(valid: Recognizer, leaves: seq<Item>, seen: set<string>)
    ensures Fresh(valid, leaves, seen) <==>
            !SomeDuplicate(valid, multiset(leaves)) && !SomeSeen(valid, multiset(leaves), seen)
  {
    if leaves != [] {
      var first, rest := leaves[0], multiset(leaves[1..]);
      assert leaves == [first] + leaves[1..];
      assert multiset(leaves) == multiset{first} + rest;
      FreshMeans(valid, leaves[1..], if valid(first).Some? then seen + {valid(first).value.id} else seen);
      DuplicatesCons(valid, first, rest);
      SeenCons(valid, first, rest, seen);
    }
  }

  lemma DuplicatesCons(valid: Recognizer, first: Item, rest: multiset<Item>)
    ensures SomeDuplicate(valid, multiset{first} + rest) <==>
            SomeDuplicate(valid, rest)
            || (valid(first).Some? && SomeSeen(valid, rest, {valid(first).value.id}))
  {
    forall id ensures Pair(multiset{first} + rest, IdTest(valid, id)) <==>
                      Pair(rest, IdTest(valid, id))
                      || (HasId(valid, first, id) && exists b :: b in rest && HasId(valid, b, id)) {
      PairCons(first, rest, IdTest(valid, id));
      assert forall item :: IdTest(valid, id)(item) <==> HasId(valid, item, id);
    }
    if valid(first).Some? {
      assert HasId(valid, first, valid(first).value.id);
    }
  }

  lemma SeenCons(valid: Recognizer, first: Item, rest: multiset<Item>, seen: set<string>)
    ensures valid(first).None? ==>
              (SomeSeen(valid, multiset{first} + rest, seen) <==> SomeSeen(valid, rest, seen))
    ensures valid(first).Some? ==>
              (SomeSeen(valid, multiset{first} + rest, seen) <==>
               valid(first).value.id in seen || SomeSeen(valid, rest, seen))
    ensures valid(first).Some? ==>
              (SomeSeen(valid, rest, seen + {valid(first).value.id}) <==>
               SomeSeen(valid, rest, seen) || SomeSeen(valid, rest, {valid(first).value.id}))
  {
    if valid(first).Some? {
      assert HasId(valid, first, valid(first).value.id) && first in multiset{first} + rest;
    }
  }

  /** What the callback has gathered after a list of entries. */
  ghost predicate Gathered(valid: Recognizer, leaves: seq<Item>, before: LatestState, after: LatestState) {
    forall id, m :: Candidate(after, id, m) <==> Candidate(before, id, m) || OwnedIn(valid, multiset(leaves), id, m)
  }

  lemma OwnedCons(valid: Recognizer, first: Item, rest: multiset<Item>, id: string, m: nat)
    ensures OwnedIn(valid, multiset{first} + rest, id, m) <==> Owns(valid, first, id, m) || OwnedIn(valid, rest, id, m)
  {
    assert first in multiset{first} + rest;
  }

  lemma {:induction false} LatestGathers(valid: Recognizer, leaves: seq<Item>, state: LatestState)
    requires state.candidates.Keys <= state.seen
    ensures Visit(leaves, VisitLatest(valid), state).Some? <==> Fresh(valid, leaves, state.seen)
    ensures Visit(leaves, VisitLatest(valid), state).Some? ==>
              var after := Visit(leaves, VisitLatest(valid), state).value;
              after.candidates.Keys <= after.seen && Gathered(valid, leaves, state, after)
  {
    if leaves != [] {
      var first := leaves[0];
      var verdict := VisitLatest(valid)(state, first);
      if verdict.Continue? {
        LatestGathers(valid, leaves[1..], verdict.state);
        if Visit(leaves, VisitLatest(valid), state).Some? {
          var after := Visit(leaves, VisitLatest(valid), state).value;
          assert leaves == [first] + leaves[1..];
          assert multiset(leaves) == multiset{first} + multiset(leaves[1..]);
          forall id, m ensures Candidate(after, id, m) <==>
                               Candidate(state, id, m) || OwnedIn(valid, multiset(leaves), id, m) {
            OwnedCons(valid, first, multiset(leaves[1..]), id, m);
          }
        }
      }
    }
  }

  /** In every state that a walk can reach, only the first duplicate check can refuse an entry. */
  lemma SecondCheckNeverRefuses(valid: Recognizer, leaves: seq<Item>, item: Item)
    requires Visit(leaves, VisitLatest(valid), NOTHING_SEEN).Some?
    ensures VisitLatest(valid)(Visit(leaves, VisitLatest(valid), NOTHING_SEEN).value, item).Refuse? <==>
            valid(item).Some? && valid(item).value.id in Visit(leaves, VisitLatest(valid), NOTHING_SEEN).value.seen
  {
    LatestGathers(valid, leaves, NOTHING_SEEN);
  }

  /** `(modified, id)` is not newer than `(modified', id')`. */
  predicate NotNewer(modified: nat, id: string, modified': nat, id': string) {
    modified < modified' || (modified == modified' && LexLeq(id, id'))
  }

  ghost predicate NewestAt(valid: Recognizer, bag: multiset<Item>, id: string, m: nat) {
    OwnedIn(valid, bag, id, m)
    && forall id', m' :: OwnedIn(valid, bag, id', m') ==> NotNewer(m', id', m, id)
  }

  ghost predicate Newest(valid: Recognizer, bag: multiset<Item>, id: string) {
    exists m :: NewestAt(valid, bag, id, m)
  }

  datatype Refusal = RootChanged | SessionNotOwned | SessionMissing

  /**
   The answer as a property of the bag of entries alone: refused on any obstacle, on too many entries and on
   two valid entries for one session; otherwise the greatest (time, identifier) among the owned sessions.
   */
  ghost predicate LatestAnswer(valid: Recognizer, rootKnown: bool, homeOpen: bool, stores: seq<Store>,
                               answer: Result<string, Refusal>)
  {
    var bag := multiset(Files(stores));
    if !rootKnown then answer == Err(RootChanged)
    else if !homeOpen || !Traversed(stores, MAX_SESSION_STORE_ENTRIES, false) || SomeDuplicate(valid, bag)
      then answer == Err(SessionNotOwned)
    else if forall id, m :: !OwnedIn(valid, bag, id, m) then answer == Err(SessionMissing)
    else answer.Ok? && Newest(valid, bag, answer.value)
  }

  /** `max_by` over the candidates, of which no two have one identifier. */
  method NewestCandidate(candidates: map<string, nat>) returns (newest: Option<string>)
    ensures newest.None? <==> candidates == map[]
    ensures newest.Some? ==>
              newest.value in candidates
              && forall id :: id in candidates ==>
                   NotNewer(candidates[id], id, candidates[newest.value], newest.value)
  {
    newest := None;
    var left := candidates.Keys;
    while left != {}
      invariant left <= candidates.Keys
      invariant newest.None? <==> left == candidates.Keys
      invariant newest.Some? ==>
                  newest.value in candidates.Keys - left
                  && forall id :: id in candidates.Keys - left ==>
                       NotNewer(candidates[id], id, candidates[newest.value], newest.value)
      decreases left
    {
      var id :| id in left;
      if newest.None? {
        LexTotal(id, id);
        newest := Some(id);
      } else if NotNewer(candidates[newest.value], newest.value, candidates[id], id) {
        forall other | other in candidates.Keys - left
          ensures NotNewer(candidates[other], other, candidates[id], id)
        {
          if candidates[other] == candidates[newest.value] == candidates[id] {
            LexTransitive(other, newest.value, id);
          }
        }
        LexTotal(id, id);
        newest := Some(id);
      } else {
        LexTotal(id, newest.value);
      }
      left := left - {id};
    }
    if newest.None? {
      assert candidates.Keys == {};
    }
  }

  /** The walk over all stores with the callback of the latest search. */
  function LatestRun(valid: Recognizer, events: seq<Event>): Run<LatestState> {
    Replay(events, MAX_SESSION_STORE_ENTRIES, false, VisitLatest(valid), NOTHING_SEEN)
  }

  /** `resolve_latest_owned_session_unix`. */
  method ResolveLatestOwnedSession(rootKnown: bool, homeOpen: bool, stores: seq<Store>)
    returns (answer: Result<string, Refusal>)
    ensures LatestAnswer(ValidSession, rootKnown, homeOpen, stores, answer)
    ensures AnswersNewestFile(stores, answer)
  {
    if !rootKnown {
      return Err(RootChanged);
    }
    if !homeOpen {
      return Err(SessionNotOwned);
    }
    answer := SearchLatest(ValidSession, stores);
    LatestAnswersNewestFile(true, true, stores, answer);
  }

  method SearchLatest(valid: Recognizer, stores: seq<Store>) returns (answer: Result<string, Refusal>)
    ensures LatestAnswer(valid, true, true, stores, answer)
  {
    var gathered := WalkStores(valid, stores);
    if gathered.None? {
      return Err(SessionNotOwned);
    }
    var newest := NewestCandidate(gathered.value.candidates);
    if newest.None? {
      NoneIsMissing(valid, stores, gathered.value);
      return Err(SessionMissing);
    }
    FoundIsNewest(valid, stores, gathered.value, newest.value);
    answer := Ok(newest.value);
  }

  /** The loop over the stores; None stands for the early return. */
  method WalkStores(valid: Recognizer, stores: seq<Store>) returns (gathered: Option<LatestState>)
    ensures gathered.None? ==> LatestAnswer(valid, true, true, stores, Err(SessionNotOwned))
    ensures gathered.Some? ==> Finished(valid, stores, gathered.value)
  {
    var remaining: nat := MAX_SESSION_STORE_ENTRIES;
    var state := NOTHING_SEEN;
    for i := 0 to |stores|
      invariant WalkedUpTo(valid, stores, i, remaining, state)
    {
      var store := stores[i];
      if store.NotFound? {
        MissingIsSkipped(valid, stores, i, remaining, state);
      } else if !store.Present? {
        UnusableIsRefused(valid, stores, i);
        return None;
      } else {
        var outcome;
        ghost var before := Run(Done, remaining, state);
        outcome, remaining, state := WalkSessionDirectory(store.items, 0, remaining, false, VisitLatest(valid), state);
        StoreIsWalked(valid, stores, i, before.remaining, before.state);
        if outcome != Done {
          FailedWalkIsRefused(valid, stores, i + 1);
          return None;
        }
      }
    }
    FinishedWalkGathers(valid, stores, remaining, state);
    gathered := Some(state);
  }

  ghost predicate WalkedUpTo(valid: Recognizer, stores: seq<Store>, i: nat, remaining: nat, state: LatestState) {
    i <= |stores| && AllUsable(stores[..i])
    && LatestRun(valid, AllEvents(stores[..i])) == Run(Done, remaining, state)
  }

  lemma MissingIsSkipped(valid: Recognizer, stores: seq<Store>, i: nat, remaining: nat, state: LatestState)
    requires WalkedUpTo(valid, stores, i, remaining, state) && i < |stores| && stores[i].NotFound?
    ensures WalkedUpTo(valid, stores, i + 1, remaining, state)
  {
    AllEventsSnoc(stores, i);
    assert AllEvents(stores[..i + 1]) == AllEvents(stores[..i]);
  }

  lemma StoreIsWalked(valid: Recognizer, stores: seq<Store>, i: nat, remaining: nat, state: LatestState)
    requires WalkedUpTo(valid, stores, i, remaining, state) && i < |stores| && stores[i].Present?
    ensures LatestRun(valid, AllEvents(stores[..i + 1]))
         == Replay(Flatten(stores[i].items, 0), remaining, false, VisitLatest(valid), state)
    ensures AllUsable(stores[..i + 1])
  {
    AllEventsSnoc(stores, i);
    LatestRunOnward(valid, AllEvents(stores[..i]), StoreEvents(stores[i]));
    UsableOnward(stores, i);
  }

  lemma UsableOnward(stores: seq<Store>, i: nat)
    requires i < |stores| && AllUsable(stores[..i]) && Usable(stores[i])
    ensures AllUsable(stores[..i + 1])
  {
    assert stores[..i + 1][..i] == stores[..i];
    AllUsableSnoc(stores[..i + 1]);
  }

  lemma LatestRunOnward(valid: Recognizer, first: seq<Event>, second: seq<Event>)
    requires LatestRun(valid, first).outcome.Done?
    ensures LatestRun(valid, first + second)
         == Replay(second, LatestRun(valid, first).remaining, false, VisitLatest(valid), LatestRun(valid, first).state)
  {
    ReplayAppend(first, second, MAX_SESSION_STORE_ENTRIES, false, VisitLatest(valid), NOTHING_SEEN);
  }

  lemma UnusableIsRefused(valid: Recognizer, stores: seq<Store>, i: nat)
    requires i < |stores| && !Usable(stores[i])
    ensures LatestAnswer(valid, true, true, stores, Err(SessionNotOwned))
  {
  }

  lemma FailedWalkIsRefused(valid: Recognizer, stores: seq<Store>, n: nat)
    requires n <= |stores| && !LatestRun(valid, AllEvents(stores[..n])).outcome.Done?
    ensures LatestAnswer(valid, true, true, stores, Err(SessionNotOwned))
  {
    AllEventsPrefix(stores, n);
    ReplayPrefixFails(AllEvents(stores[..n]), AllEvents(stores), MAX_SESSION_STORE_ENTRIES, false,
                      VisitLatest(valid), NOTHING_SEEN);
    WalkSucceedsExactly(AllEvents(stores), MAX_SESSION_STORE_ENTRIES, false, VisitLatest(valid), NOTHING_SEEN);
    LatestGathers(valid, Files(stores), NOTHING_SEEN);
    FreshMeans(valid, Files(stores), {});
  }

  /** The walk over all stores is finished, and the callback holds `state`. */
  ghost predicate Finished(valid: Recognizer, stores: seq<Store>, state: LatestState) {
    && Traversed(stores, MAX_SESSION_STORE_ENTRIES, false)
    && !SomeDuplicate(valid, multiset(Files(stores)))
    && Gathered(valid, Files(stores), NOTHING_SEEN, state)
  }

  lemma NoneIsMissing(valid: Recognizer, stores: seq<Store>, state: LatestState)
    requires Finished(valid, stores, state) && state.candidates == map[]
    ensures LatestAnswer(valid, true, true, stores, Err(SessionMissing))
  {
    forall id, m ensures !OwnedIn(valid, multiset(Files(stores)), id, m) {
      assert !Candidate(state, id, m);
    }
  }

  lemma FinishedWalkGathers(valid: Recognizer, stores: seq<Store>, remaining: nat, state: LatestState)
    requires WalkedUpTo(valid, stores, |stores|, remaining, state)
    ensures Finished(valid, stores, state)
  {
    assert stores[..|stores|] == stores;
    WalkSucceedsExactly(AllEvents(stores), MAX_SESSION_STORE_ENTRIES, false, VisitLatest(valid), NOTHING_SEEN);
    LatestGathers(valid, Files(stores), NOTHING_SEEN);
    FreshMeans(valid, Files(stores), {});
  }

  lemma FoundIsNewest(valid: Recognizer, stores: seq<Store>, state: LatestState, id: string)
    requires Finished(valid, stores, state) && id in state.candidates
    requires forall other :: other in state.candidates ==>
               NotNewer(state.candidates[other], other, state.candidates[id], id)
    ensures LatestAnswer(valid, true, true, stores, Ok(id))
  {
    var m := state.candidates[id];
    assert Candidate(state, id, m);
    forall id', m' | OwnedIn(valid, multiset(Files(stores)), id', m') ensures NotNewer(m', id', m, id) {
      assert Candidate(state, id', m');
    }
    assert NewestAt(valid, multiset(Files(stores)), id, m);
  }

  // ---------------------------------------------------------------- the entries of the stores

  /** The entry stands in one of the stores, at any depth. */
  predicate InStores(stores: seq<Store>, item: Item) {
    exists i :: 0 <= i < |stores| && stores[i].Present? && Listed(stores[i].items, item)
  }

  lemma {:induction false} LeafOfStore(stores: seq<Store>, item: Item)
    ensures Leaf(item) in AllEvents(stores) <==> InStores(stores, item)
  {
    if stores != [] {
      var last := |stores| - 1;
      LeafOfStore(stores[..last], item);
      if stores[last].Present? {
        LeavesAreListed(stores[last].items, 0, item);
      }
      if i :| 0 <= i < |stores| && stores[i].Present? && Listed(stores[i].items, item) {
        assert i < last ==> stores[..last][i] == stores[i];
      }
      if i :| 0 <= i < last && stores[..last][i].Present? && Listed(stores[..last][i].items, item) {
        assert stores[i] == stores[..last][i];
      }
    }
  }

  /** Both searches look at exactly the entries of the stores. */
  lemma FilesAreTheEntries(stores: seq<Store>, item: Item)
    ensures item in Files(stores) <==> InStores(stores, item)
  {
    LeafIn(AllEvents(stores), item);
    LeafOfStore(stores, item);
  }

  // ---------------------------------------------------------------- on the fields of the entries

  /**
   An entry proves a session: a regular file that could be opened, whose name carries the identifier, whose time is
   known, and whose first record is a session's, of this identifier and with an absolute working directory.
   */
  predicate ProvesSession(item: Item, id: string, modified: nat, cwd: Cwd) {
    && item.Opened? && item.file.regular
    && item.name.Some? && FilenameSessionId(item.name.value) == Some(id)
    && item.file.modified == Some(modified)
    && item.file.record.Some? && item.file.record.value.kind == "session_meta"
    && NormalizeMetadataId(item.file.record.value.id) == Some(id)
    && item.file.record.value.cwd == cwd && cwd != Relative
  }

  /** An entry is taken as a session exactly when it proves it. */
  lemma SessionExactly(item: Item, id: string, modified: nat, cwd: Cwd)
    ensures ValidSession(item) == Some(Session(id, modified, cwd)) <==> ProvesSession(item, id, modified, cwd)
  {
  }

  /** The entry proves a session in the project that no other session in the project is newer than. */
  ghost predicate NewestFile(stores: seq<Store>, item: Item, id: string, modified: nat) {
    && item in Files(stores) && ProvesSession(item, id, modified, InsideProject)
    && forall other, id', m': nat :: other in Files(stores) && ProvesSession(other, id', m', InsideProject) ==>
         m' < modified || (m' == modified && Before(id', id))
  }

  /** What is answered is the session of the newest file, and nothing is missing while a file proves a session. */
  ghost predicate AnswersNewestFile(stores: seq<Store>, answer: Result<string, Refusal>) {
    && (answer.Ok? ==> exists item, modified :: NewestFile(stores, item, answer.value, modified))
    && (answer == Err(SessionMissing) ==>
          forall item, id, m :: item in Files(stores) ==> !ProvesSession(item, id, m, InsideProject))
  }

  lemma LatestIsNewestFile(stores: seq<Store>, id: string)
    requires LatestAnswer(ValidSession, true, true, stores, Ok(id))
    ensures exists item, modified :: NewestFile(stores, item, id, modified)
  {
    var bag := multiset(Files(stores));
    var m :| NewestAt(ValidSession, bag, id, m);
    var item :| item in bag && Owns(ValidSession, item, id, m);
    SessionExactly(item, id, m, InsideProject);
    forall other, id', m': nat | other in Files(stores) && ProvesSession(other, id', m', InsideProject)
      ensures m' < m || (m' == m && Before(id', id))
    {
      SessionExactly(other, id', m', InsideProject);
      assert other in bag;
      assert OwnedIn(ValidSession, bag, id', m');
      LexMeans(id', id);
    }
    assert NewestFile(stores, item, id, m);
  }

  lemma MissingMeansNoFile(stores: seq<Store>, item: Item, id: string, m: nat)
    requires LatestAnswer(ValidSession, true, true, stores, Err(SessionMissing)) && item in Files(stores)
    ensures !ProvesSession(item, id, m, InsideProject)
  {
    SessionExactly(item, id, m, InsideProject);
    if ProvesSession(item, id, m, InsideProject) {
      assert item in multiset(Files(stores));
      assert OwnedIn(ValidSession, multiset(Files(stores)), id, m);
    }
  }

  lemma LatestAnswersNewestFile(rootKnown: bool, homeOpen: bool, stores: seq<Store>, answer: Result<string, Refusal>)
    requires LatestAnswer(ValidSession, rootKnown, homeOpen, stores, answer)
    ensures AnswersNewestFile(stores, answer)
  {
    if answer.Ok? {
      LatestIsNewestFile(stores, answer.value);
    } else if answer == Err(SessionMissing) {
      forall item, id, m | item in Files(stores)
        ensures !ProvesSession(item, id, m, InsideProject)
      {
        MissingMeansNoFile(stores, item, id, m);
      }
    }
  }

  // ---------------------------------------------------------------- the order of enumeration does not matter

  predicate SameStore(a: Store, b: Store) {
    if a.Present? then b.Present? && Reordered(a.items, b.items) else a == b
  }

  predicate SameStores(a: seq<Store>, b: seq<Store>) {
    |a| == |b| && forall i :: 0 <= i < |a| ==> SameStore(a[i], b[i])
  }

  lemma AllUsableSnoc(stores: seq<Store>)
    requires stores != []
    ensures AllUsable(stores) <==> AllUsable(stores[..|stores| - 1]) && Usable(stores[|stores| - 1])
  {
  }

  lemma SameStoreSameEvents(a: Store, b: Store)
    requires SameStore(a, b)
    ensures multiset(StoreEvents(a)) == multiset(StoreEvents(b)) && (Usable(a) <==> Usable(b))
  {
    if a.Present? {
      ReorderedEvents(a.items, b.items, 0);
    }
  }

  lemma {:induction false} SameStoresSameEvents(a: seq<Store>, b: seq<Store>)
    requires SameStores(a, b)
    ensures multiset(AllEvents(a)) == multiset(AllEvents(b))
    ensures AllUsable(a) <==> AllUsable(b)
  {
    if a != [] {
      var last := |a| - 1;
      SameStoresSameEvents(a[..last], b[..last]);
      SameStoreSameEvents(a[last], b[last]);
      AllUsableSnoc(a);
      AllUsableSnoc(b);
    }
  }

  lemma SameBagSameTraversal(a: seq<Store>, b: seq<Store>, limit: nat, strict: bool)
    requires multiset(AllEvents(a)) == multiset(AllEvents(b))
    requires AllUsable(a) <==> AllUsable(b)
    ensures Traversed(a, limit, strict) <==> Traversed(b, limit, strict)
  {
    assert forall e :: e in AllEvents(a) <==> e in multiset(AllEvents(a));
    assert forall e :: e in AllEvents(b) <==> e in multiset(AllEvents(b));
    assert |AllEvents(a)| == |multiset(AllEvents(a))|;
    assert |AllEvents(b)| == |multiset(AllEvents(b))|;
  }

  lemma NewestIsUnique(valid: Recognizer, bag: multiset<Item>, a: string, b: string)
    requires Newest(valid, bag, a) && Newest(valid, bag, b)
    ensures a == b
  {
    var ma :| NewestAt(valid, bag, a, ma);
    var mb :| NewestAt(valid, bag, b, mb);
    assert NotNewer(ma, a, mb, b) && NotNewer(mb, b, ma, a);
    LexAntisymmetric(a, b);
  }

  /** Reordering the listings at any level of any store gives the same session or the same refusal. */
  lemma LatestIgnoresOrder(valid: Recognizer, rootKnown: bool, homeOpen: bool, a: seq<Store>, b: seq<Store>,
                           answerA: Result<string, Refusal>, answerB: Result<string, Refusal>)
    requires SameStores(a, b)
    requires LatestAnswer(valid, rootKnown, homeOpen, a, answerA)
    requires LatestAnswer(valid, rootKnown, homeOpen, b, answerB)
    ensures answerA == answerB
  {
    SameStoresSameEvents(a, b);
    SameBagSameTraversal(a, b, MAX_SESSION_STORE_ENTRIES, false);
    SameEventsSameLeaves(AllEvents(a), AllEvents(b));
    if answerA.Ok? && answerB.Ok? {
      NewestIsUnique(valid, multiset(Files(a)), answerA.value, answerB.value);
    }
  }

  // ================================================================ the file of one session

  datatype Reason =
    | HomeUnreadable | StoreNotDirectory | StoreUnreadable | TraversalLimit | WalkUnreadable
    | NotRegular | Ambiguous

  datatype LookupError = Missing | Unsafe(reason: Reason)

  /** The captured variables `matched_path` and `callback_failure`. */
  datatype MatchState = MatchState(matched: Option<FileInfo>, failure: Option<Reason>)

  const NOTHING_MATCHED := MatchState(None, None)

  /** Which entries a lookup takes for the session; the lemmas hold for any such test. */
  type Matcher = Item -> bool

  /** `entry.to_str().is_some_and(|name| name.ends_with(&suffix))`. */
  function NamedFor(id: string): Matcher {
    (item: Item) => !item.ListingFailure? && item.name.Some? && EndsWith(item.name.value, ExactSuffix(id))
  }

  predicate IsRegular(item: Item) {
    item.Opened? && item.file.regular
  }

  /** The callback of `locate_metadata_with_limit_typed`. */
  function VisitExact(matches: Matcher): (MatchState, Item) -> Verdict<MatchState> {
    (state: MatchState, item: Item) =>
      if !matches(item) then Continue(state)
      else if !IsRegular(item) then Refuse(state.(failure := Some(NotRegular)))
      else if state.matched.Some? then Refuse(MatchState(Some(item.file), Some(Ambiguous)))
      else Continue(MatchState(Some(item.file), state.failure))
  }

  /** The entries that are taken for the session. */
  function Matching(leaves: seq<Item>, matches: Matcher): seq<Item> {
    if leaves == [] then []
    else (if matches(leaves[0]) then [leaves[0]] else []) + Matching(leaves[1..], matches)
  }

  lemma {:induction false} MatchingIsIn(leaves: seq<Item>, matches: Matcher, item: Item)
    ensures item in Matching(leaves, matches) <==> item in leaves && matches(item)
  {
    if leaves != [] {
      MatchingIsIn(leaves[1..], matches, item);
      assert leaves == [leaves[0]] + leaves[1..];
    }
  }

  predicate AtMostOneRegular(found: seq<Item>) {
    |found| == 0 || (|found| == 1 && IsRegular(found[0]))
  }

  lemma {:induction false} ExactGathers(leaves: seq<Item>, matches: Matcher, state: MatchState)
    ensures Visit(leaves, VisitExact(matches), state).Some? <==>
            AtMostOneRegular(Matching(leaves, matches)) && (state.matched.Some? ==> Matching(leaves, matches) == [])
    ensures Visit(leaves, VisitExact(matches), state).Some? ==>
              Visit(leaves, VisitExact(matches), state).value.matched
              == if Matching(leaves, matches) == [] then state.matched else Some(Matching(leaves, matches)[0].file)
  {
    if leaves != [] {
      var verdict := VisitExact(matches)(state, leaves[0]);
      if verdict.Continue? {
        ExactGathers(leaves[1..], matches, verdict.state);
      }
    }
  }

  /** The lookup gives an answer at all: it has traversed everything and found no more than one regular file. */
  predicate Answerable(homeOpen: bool, stores: seq<Store>, matches: Matcher, limit: nat, strict: bool) {
    homeOpen && Traversed(stores, limit, strict) && AtMostOneRegular(Matching(Files(stores), matches))
  }

  /**
   Complete and fail-closed: a file is returned exactly when everything was traversed and this file alone, a
   regular one, matches; it is missing exactly when everything was traversed and no entry matches; in every
   other case the answer is an error that is neither.
   */
  predicate ExactAnswer(homeOpen: bool, stores: seq<Store>, matches: Matcher, limit: nat, strict: bool,
                        answer: Result<FileInfo, LookupError>)
  {
    if !Answerable(homeOpen, stores, matches, limit, strict) then answer.Err? && answer.error.Unsafe?
    else if Matching(Files(stores), matches) == [] then answer == Err(Missing)
    else answer == Ok(Matching(Files(stores), matches)[0].file)
  }

  function ExactRun(matches: Matcher, events: seq<Event>, limit: nat, strict: bool): Run<MatchState> {
    Replay(events, limit, strict, VisitExact(matches), NOTHING_MATCHED)
  }

  ghost predicate ScannedUpTo(matches: Matcher, stores: seq<Store>, limit: nat, strict: bool,
                              i: nat, remaining: nat, state: MatchState)
  {
    i <= |stores| && AllUsable(stores[..i])
    && ExactRun(matches, AllEvents(stores[..i]), limit, strict) == Run(Done, remaining, state)
  }

  /** `locate_metadata_with_limit_typed`. */
  method LocateMetadata(homeOpen: bool, stores: seq<Store>, matches: Matcher, limit: nat, strict: bool)
    returns (answer: Result<FileInfo, LookupError>)
    ensures ExactAnswer(homeOpen, stores, matches, limit, strict, answer)
  {
    var remaining, state := limit, NOTHING_MATCHED;
    if !homeOpen {
      return Err(Unsafe(HomeUnreadable));
    }
    for i := 0 to |stores|
      invariant ScannedUpTo(matches, stores, limit, strict, i, remaining, state)
    {
      var store := stores[i];
      if store.NotFound? {
        ScanSkips(matches, stores, limit, strict, i, remaining, state);
      } else if store.NotADirectory? {
        assert !Usable(stores[i]);
        return Err(Unsafe(StoreNotDirectory));
      } else if store.Unreadable? {
        assert !Usable(stores[i]);
        return Err(Unsafe(StoreUnreadable));
      } else {
        var outcome;
        ghost var before := Run(Done, remaining, state);
        outcome, remaining, state :=
          WalkSessionDirectory(store.items, 0, remaining, strict, VisitExact(matches), state);
        StoreIsScanned(matches, stores, limit, strict, i, before.remaining, before.state);
        if outcome != Done {
          FailedScanIsUnsafe(matches, stores, limit, strict, i + 1);
          var reason := match outcome
            case Limit => TraversalLimit
            case Callback => (if state.failure.Some? then state.failure.value else WalkUnreadable)
            case _ => WalkUnreadable;
          return Err(Unsafe(reason));
        }
      }
    }
    FinishedScanAnswers(matches, stores, limit, strict, remaining, state);
    answer := if state.matched.Some? then Ok(state.matched.value) else Err(Missing);
  }

  lemma ScanSkips(matches: Matcher, stores: seq<Store>, limit: nat, strict: bool,
                  i: nat, remaining: nat, state: MatchState)
    requires ScannedUpTo(matches, stores, limit, strict, i, remaining, state) && i < |stores| && stores[i].NotFound?
    ensures ScannedUpTo(matches, stores, limit, strict, i + 1, remaining, state)
  {
    AllEventsSnoc(stores, i);
    assert AllEvents(stores[..i + 1]) == AllEvents(stores[..i]);
  }

  lemma StoreIsScanned(matches: Matcher, stores: seq<Store>, limit: nat, strict: bool,
                       i: nat, remaining: nat, state: MatchState)
    requires ScannedUpTo(matches, stores, limit, strict, i, remaining, state) && i < |stores| && stores[i].Present?
    ensures ExactRun(matches, AllEvents(stores[..i + 1]), limit, strict)
         == Replay(Flatten(stores[i].items, 0), remaining, strict, VisitExact(matches), state)
    ensures AllUsable(stores[..i + 1])
  {
    AllEventsSnoc(stores, i);
    ExactRunOnward(matches, AllEvents(stores[..i]), StoreEvents(stores[i]), limit, strict);
    UsableOnward(stores, i);
  }

  lemma ExactRunOnward(matches: Matcher, first: seq<Event>, second: seq<Event>, limit: nat, strict: bool)
    requires ExactRun(matches, first, limit, strict).outcome.Done?
    ensures ExactRun(matches, first + second, limit, strict)
         == Replay(second, ExactRun(matches, first, limit, strict).remaining, strict, VisitExact(matches),
                   ExactRun(matches, first, limit, strict).state)
  {
    ReplayAppend(first, second, limit, strict, VisitExact(matches), NOTHING_MATCHED);
  }

  lemma FailedScanIsUnsafe(matches: Matcher, stores: seq<Store>, limit: nat, strict: bool, n: nat)
    requires n <= |stores| && !ExactRun(matches, AllEvents(stores[..n]), limit, strict).outcome.Done?
    ensures !Answerable(true, stores, matches, limit, strict)
  {
    AllEventsPrefix(stores, n);
    ReplayPrefixFails(AllEvents(stores[..n]), AllEvents(stores), limit, strict, VisitExact(matches), NOTHING_MATCHED);
    WalkSucceedsExactly(AllEvents(stores), limit, strict, VisitExact(matches), NOTHING_MATCHED);
    ExactGathers(Files(stores), matches, NOTHING_MATCHED);
  }

  lemma FinishedScanAnswers(matches: Matcher, stores: seq<Store>, limit: nat, strict: bool,
                            remaining: nat, state: MatchState)
    requires ScannedUpTo(matches, stores, limit, strict, |stores|, remaining, state)
    ensures Answerable(true, stores, matches, limit, strict)
    ensures state.matched == if Matching(Files(stores), matches) == [] then None
                             else Some(Matching(Files(stores), matches)[0].file)
  {
    assert stores[..|stores|] == stores;
    WalkSucceedsExactly(AllEvents(stores), limit, strict, VisitExact(matches), NOTHING_MATCHED);
    ExactGathers(Files(stores), matches, NOTHING_MATCHED);
  }

  /** Whatever the strict lookup knows for certain, the lenient one answers in the same way. */
  lemma LenientAgreesWithStrict(homeOpen: bool, stores: seq<Store>, matches: Matcher, limit: nat,
                                strict: Result<FileInfo, LookupError>, lenient: Result<FileInfo, LookupError>)
    requires ExactAnswer(homeOpen, stores, matches, limit, true, strict)
    requires ExactAnswer(homeOpen, stores, matches, limit, false, lenient)
    requires strict.Ok? || strict.error.Missing?
    ensures lenient == strict
  {
    forall event | event in AllEvents(stores) ensures Obstacle(event, false).None? {
      assert Obstacle(event, true).None?;
    }
  }

  // ---------------------------------------------------------------- the two searches on one store

  /** `verify_metadata_ownership`, when the project root is known. */
  predicate Verifies(file: FileInfo, id: string) {
    && file.record.Some?
    && file.record.value.kind == "session_meta"
    && NormalizeMetadataId(file.record.value.id) == Some(id)
    && file.record.value.cwd.InsideProject?
  }

  /** The strict lookup found exactly one file for the identifier, and it is this one. */
  predicate FoundOnly(homeOpen: bool, stores: seq<Store>, id: string, file: FileInfo) {
    && Answerable(homeOpen, stores, NamedFor(id), MAX_SESSION_STORE_ENTRIES, true)
    && Matching(Files(stores), NamedFor(id)) != [] && Matching(Files(stores), NamedFor(id))[0].file == file
  }

  predicate FoundNone(homeOpen: bool, stores: seq<Store>, id: string) {
    && Answerable(homeOpen, stores, NamedFor(id), MAX_SESSION_STORE_ENTRIES, true)
    && Matching(Files(stores), NamedFor(id)) == []
  }

  /** The first record of the file is a session's, of this identifier and inside the project. */
  predicate RecordsSession(file: FileInfo, id: string) {
    file.record.Some?
    && var record := file.record.value;
       record.kind == "session_meta" && NormalizeMetadataId(record.id) == Some(id) && record.cwd == InsideProject
  }

  ghost predicate ProvesOwner(rootKnown: bool, homeOpen: bool, stores: seq<Store>, requested: string, id: string) {
    NormalizeSessionId(requested) == Some(id) && rootKnown
    && exists file :: FoundOnly(homeOpen, stores, id, file) && RecordsSession(file, id)
  }

  /**
   `probe_owned_session_unix`. A session is missing only when the stores were searched to the end without it, and
   owned only when its one file verifies; everything else is an error.
   */
  method ProbeOwnedSession(rootKnown: bool, homeOpen: bool, stores: seq<Store>, requested: string)
    returns (answer: Result<Option<string>, ()>)
    ensures answer == Ok(None)
            <==> NormalizeSessionId(requested).Some?
                 && FoundNone(homeOpen, stores, NormalizeSessionId(requested).value)
    ensures forall id :: answer == Ok(Some(id)) <==> ProvesOwner(rootKnown, homeOpen, stores, requested, id)
  {
    var normalized := NormalizeSessionId(requested);
    if normalized.None? {
      return Err(());
    }
    var id := normalized.value;
    var found := LocateMetadata(homeOpen, stores, NamedFor(id), MAX_SESSION_STORE_ENTRIES, true);
    if found.Ok? {
      assert FoundOnly(homeOpen, stores, id, found.value);
      answer := if rootKnown && Verifies(found.value, id) then Ok(Some(id)) else Err(());
    } else {
      answer := if found.error.Missing? then Ok(None) else Err(());
    }
  }

  /**
   What the latest search found under an unpadded name, the exact lookup for it never reports missing, in
   either mode; and when that lookup returns a file, the file proves the session.
   */
  lemma LatestIsNeverMissing(stores: seq<Store>, id: string, item: Item, modified: nat, limit: nat, strict: bool,
                             exact: Result<FileInfo, LookupError>)
    requires item in Files(stores) && Owns(ValidSession, item, id, modified)
    requires Unpadded(item.name.value)
    requires ExactAnswer(true, stores, NamedFor(id), limit, strict, exact)
    ensures exact != Err(Missing)
    ensures exact.Ok? ==> exact.value == item.file && RecordsSession(exact.value, id)
  {
    CarriedIdIsExactUnlessPadded(item.name.value, id);
    assert NamedFor(id)(item);
    MatchingIsIn(Files(stores), NamedFor(id), item);
  }

  /** The name of the entry carries the identifier, as the latest search reads it. */
  predicate CarriesId(item: Item, id: string) {
    !item.ListingFailure? && item.name.Some? && FilenameSessionId(item.name.value) == Some(id)
  }

  lemma CarriersMatchUnlessPadded(item: Item, id: string)
    requires CanonicalUuid(id)
    ensures NamedFor(id)(item) <==> CarriesId(item, id) && Unpadded(item.name.value)
  {
    if CarriesId(item, id) {
      CarriedIdIsExactUnlessPadded(item.name.value, id);
    } else if NamedFor(id)(item) {
      ExactNameCarriesId(item.name.value, id);
    }
  }

  ghost predicate AllPadded(stores: seq<Store>, id: string) {
    forall item :: item in Files(stores) && CarriesId(item, id) ==> !Unpadded(item.name.value)
  }

  /**
   What the latest search answers is missing for the lenient exact lookup exactly when every entry whose name
   carries its identifier is padded.
   */
  lemma MissingExactlyUnderPaddedNames(stores: seq<Store>, id: string, exact: Result<FileInfo, LookupError>)
    requires LatestAnswer(ValidSession, true, true, stores, Ok(id))
    requires ExactAnswer(true, stores, NamedFor(id), MAX_SESSION_STORE_ENTRIES, false, exact)
    ensures exact == Err(Missing) <==> AllPadded(stores, id)
  {
    LatestIdIsCanonical(stores, id);
    forall item | item in Files(stores)
      ensures NamedFor(id)(item) <==> CarriesId(item, id) && Unpadded(item.name.value)
    {
      CarriersMatchUnlessPadded(item, id);
    }
    NothingMatchesExactly(Files(stores), NamedFor(id));
  }

  lemma LatestIdIsCanonical(stores: seq<Store>, id: string)
    requires LatestAnswer(ValidSession, true, true, stores, Ok(id))
    ensures CanonicalUuid(id)
  {
    var bag := multiset(Files(stores));
    var m :| NewestAt(ValidSession, bag, id, m);
    var item :| item in bag && Owns(ValidSession, item, id, m);
    CarriedIdIsExactUnlessPadded(item.name.value, id);
  }

  lemma NothingMatchesExactly(items: seq<Item>, matches: Matcher)
    ensures Matching(items, matches) == [] <==> forall item :: item in items ==> !matches(item)
  {
    forall item | item in items && matches(item)
      ensures Matching(items, matches) != []
    {
      MatchingIsIn(items, matches, item);
    }
    var found := Matching(items, matches);
    if found != [] {
      MatchingIsIn(items, matches, found[0]);
    }
  }

  /** A store that holds one file, whose name ends in a space before the extension. */
  function PaddedStore(id: string): seq<Store> {
    [Present([PaddedFile(id)])]
  }

  function PaddedFile(id: string): Item {
    Opened(Some("-" + id + " " + EXTENSION),
           FileInfo(true, Some(0), Some(Record("session_meta", id, InsideProject))))
  }

  /** Under a padded name the two searches disagree: the session is found as the newest, and then is missing. */
  lemma PaddedNameIsFoundAndMissing(id: string, latest: Result<string, Refusal>, exact: Result<FileInfo, LookupError>)
    requires CanonicalUuid(id)
    requires LatestAnswer(ValidSession, true, true, PaddedStore(id), latest)
    requires ExactAnswer(true, PaddedStore(id), NamedFor(id), MAX_SESSION_STORE_ENTRIES, true, exact)
    ensures latest == Ok(id) && exact == Err(Missing)
  {
    var item := PaddedFile(id);
    PaddedNameCarriesId(id);
    MetadataKeepsUuid(id);
    assert Owns(ValidSession, item, id, 0);
    OneFileStore(item);
    CarriedIdIsExactUnlessPadded(item.name.value, id);
    assert !NamedFor(id)(item);
    OneFileIsNewest(ValidSession, item, id);
    assert Matching([item], NamedFor(id)) == [];
  }

  lemma OneFileStore(item: Item)
    requires item.Opened?
    ensures AllEvents([Present([item])]) == [Leaf(item)] && Files([Present([item])]) == [item]
    ensures AllUsable([Present([item])])
  {
    var stores := [Present([item])];
    AllEventsSnoc(stores, 0);
    assert stores[..1] == stores && stores[..0] == [];
    FlattenCons(item, [], 0);
    assert [item] + [] == [item];
    assert Leaves([Leaf(item)]) == [item];
  }

  lemma OneFileIsNewest(valid: Recognizer, item: Item, id: string)
    requires Owns(valid, item, id, 0)
    ensures !SomeDuplicate(valid, multiset([item])) && OwnedIn(valid, multiset([item]), id, 0)
    ensures forall other :: Newest(valid, multiset([item]), other) ==> other == id
  {
    assert item in multiset([item]);
  }

  lemma PaddedNameCarriesId(id: string)
    requires CanonicalUuid(id)
    ensures FilenameSessionId("-" + id + " " + EXTENSION) == Some(id)
    ensures EndsWith("-" + id + " " + EXTENSION, EXTENSION) && !Unpadded("-" + id + " " + EXTENSION)
  {
    var name, stem := "-" + id + " " + EXTENSION, "-" + id + " ";
    assert name == stem + EXTENSION;
    assert Stem(name) == stem;
    var text := stem[1..];
    assert text == id + [' '];
    UuidEndsAreNotBlank(id);
    assert text[0] == id[0];
    assert text[..|text| - 1] == id;
    assert TrimStart(IsWhitespace, text) == text;
    assert TrimEnd(IsWhitespace, text) == TrimEnd(IsWhitespace, id) == id;
    assert NormalizeSessionId(text) == Some(id);
  }
}
