/**
 The recursive, bounded walk over a Codex session store (`src/codex_session.rs`), and what it means on the
 flat list of the store's entries.

 A directory is the finite sequence of what its listing yields. Opening, reading the metadata of an entry
 and reading the next entry can each fail; which of them fail is part of the tree.
 */
module SessionWalk {
  import opened Wrappers

  const MAX_SESSION_STORE_DEPTH := 32

  /** The first record of a file; `cwd` is the working directory that it names, seen from the project. */
  datatype Cwd = Relative | Unresolvable | OutsideProject | InsideProject

  datatype Record = Record(kind: string, id: string, cwd: Cwd)

  /** `modified` is None for a time before the epoch; `record` is None for an unreadable or malformed file. */
  datatype FileInfo = FileInfo(regular: bool, modified: Option<nat>, record: Option<Record>)

  /** One result of a listing; a name is None when it is not Unicode. */
  datatype Item =
    | Opened(name: Option<string>, file: FileInfo)
    | Unopenable(name: Option<string>)
    | Unstattable(name: Option<string>)
    | Directory(name: Option<string>, children: seq<Item>)
    | ListingFailure

  // ---------------------------------------------------------------- the flat view

  datatype Event = Leaf(item: Item) | Enter(depth: nat) | Fault

  /** The entries of a listing in pre-order; a directory stands before its own entries. */
  function Flatten(items: seq<Item>, depth: nat): seq<Event>
    decreases items, 0
  {
    if items == [] then [] else Events(items[0], depth) + Flatten(items[1..], depth)
  }

  function Events(item: Item, depth: nat): seq<Event>
    decreases item, 1
  {
    match item
    case Directory(_, children) => [Enter(depth)] + Flatten(children, depth + 1)
    case ListingFailure => [Fault]
    case _ => [Leaf(item)]
  }

  datatype Outcome = Done | Io | Limit | Callback

  /** How a walk ended, what is left of the budget, and the state of the callback. */
  datatype Run<S> = Run(outcome: Outcome, remaining: nat, state: S)

  datatype Verdict<S> = Continue(state: S) | Refuse(state: S)

  /** Whether looking at this entry ends the walk before any callback. */
  function Obstacle(event: Event, strict: bool): Option<Outcome> {
    match event
    case Fault => Some(Io)
    case Enter(depth) => if depth == MAX_SESSION_STORE_DEPTH then Some(Limit) else None
    case Leaf(item) => if item.Unstattable? || (item.Unopenable? && strict) then Some(Io) else None
  }

  /** One pass over the flat list, which knows nothing about trees. */
  function Replay<S>(events: seq<Event>, remaining: nat, strict: bool,
                     visit: (S, Item) -> Verdict<S>, state: S): Run<S>
  {
    if events == [] then Run(Done, remaining, state)
    else if events[0].Fault? then Run(Io, remaining, state)
    else if remaining == 0 then Run(Limit, remaining, state)
    else if Obstacle(events[0], strict).Some? then Run(Obstacle(events[0], strict).value, remaining - 1, state)
    else if events[0].Enter? then Replay(events[1..], remaining - 1, strict, visit, state)
    else
      match visit(state, events[0].item)
      case Refuse(after) => Run(Callback, remaining - 1, after)
      case Continue(after) => Replay(events[1..], remaining - 1, strict, visit, after)
  }

  function Onward<S>(run: Run<S>, events: seq<Event>, strict: bool, visit: (S, Item) -> Verdict<S>): Run<S> {
    if run.outcome.Done? then Replay(events, run.remaining, strict, visit, run.state) else run
  }

  lemma {:induction false} ReplayAppend<S>(first: seq<Event>, second: seq<Event>, remaining: nat, strict: bool,
                                           visit: (S, Item) -> Verdict<S>, state: S)
    ensures Replay(first + second, remaining, strict, visit, state)
         == Onward(Replay(first, remaining, strict, visit, state), second, strict, visit)
  {
    if first == [] {
      assert first + second == second;
    } else {
      var event, rest := first[0], first[1..];
      assert (first + second)[1..] == rest + second;
      if !event.Fault? && remaining > 0 && Obstacle(event, strict).None? {
        if event.Enter? {
          ReplayAppend(rest, second, remaining - 1, strict, visit, state);
        } else {
          var verdict := visit(state, event.item);
          if verdict.Continue? {
            ReplayAppend(rest, second, remaining - 1, strict, visit, verdict.state);
          }
        }
      }
    }
  }

  // ---------------------------------------------------------------- the walk

  /** `walk_session_directory`: the budget and the state of the callback are shared by the whole tree. */
  method WalkSessionDirectory<S>(items: seq<Item>, depth: nat, remainingEntries: nat, strictOpenErrors: bool,
                                 callback: (S, Item) -> Verdict<S>, captured: S)
    returns (outcome: Outcome, remaining: nat, state: S)
    ensures Run(outcome, remaining, state)
         == Replay(Flatten(items, depth), remainingEntries, strictOpenErrors, callback, captured)
    decreases items
  {
    remaining, state := remainingEntries, captured;
    var i := 0;
    while i < |items|
      invariant 0 <= i <= |items|
      invariant Replay(Flatten(items, depth), remainingEntries, strictOpenErrors, callback, captured)
             == Replay(Flatten(items[i..], depth), remaining, strictOpenErrors, callback, state)
    {
      var item := items[i];
      assert items[i..][1..] == items[i + 1..];
      ReplayAppend(Events(item, depth), Flatten(items[i + 1..], depth), remaining, strictOpenErrors, callback, state);
      if item.ListingFailure? {
        return Io, remaining, state;
      }
      if remaining == 0 {
        return Limit, remaining, state;
      }
      ghost var before := remaining;
      remaining := remaining - 1;
      if item.Unstattable? || (item.Unopenable? && strictOpenErrors) {
        return Io, remaining, state;
      }
      if item.Directory? {
        if depth == MAX_SESSION_STORE_DEPTH {
          return Limit, remaining, state;
        }
        assert Events(item, depth)[1..] == Flatten(item.children, depth + 1);
        outcome, remaining, state :=
          WalkSessionDirectory(item.children, depth + 1, remaining, strictOpenErrors, callback, state);
        if outcome != Done {
          return;
        }
      } else {
        assert Events(item, depth)[1..] == [];
        var verdict := callback(state, item);
        state := verdict.state;
        if verdict.Refuse? {
          return Callback, remaining, state;
        }
      }
      i := i + 1;
    }
    outcome := Done;
  }

  // ---------------------------------------------------------------- when the walk succeeds

  /** The non-directory entries, in the order of the walk. */
  function Leaves(events: seq<Event>): seq<Item> {
    if events == [] then []
    else (if events[0].Leaf? then [events[0].item] else []) + Leaves(events[1..])
  }

  predicate Clear(events: seq<Event>, strict: bool) {
    forall event :: event in events ==> Obstacle(event, strict).None?
  }

  /** The callback on each entry in turn; None as soon as it refuses one. */
  function Visit<S>(leaves: seq<Item>, visit: (S, Item) -> Verdict<S>, state: S): Option<S> {
    if leaves == [] then Some(state)
    else
      match visit(state, leaves[0])
      case Refuse(_) => None
      case Continue(after) => Visit(leaves[1..], visit, after)
  }

  lemma ClearCons(events: seq<Event>, strict: bool)
    requires events != []
    ensures Clear(events, strict) <==> Obstacle(events[0], strict).None? && Clear(events[1..], strict)
  {
    assert events == [events[0]] + events[1..];
  }

  /** What the first entry contributes to the calls of the callback. */
  lemma VisitCons<S>(events: seq<Event>, visit: (S, Item) -> Verdict<S>, state: S)
    requires events != [] && !events[0].Fault?
    ensures Visit(Leaves(events), visit, state)
            == if events[0].Enter? then Visit(Leaves(events[1..]), visit, state)
               else
                 match visit(state, events[0].item)
                 case Refuse(_) => None
                 case Continue(after) => Visit(Leaves(events[1..]), visit, after)
  {
    if events[0].Enter? {
      assert Leaves(events) == Leaves(events[1..]);
    } else {
      assert Leaves(events) == [events[0].item] + Leaves(events[1..]);
      assert Leaves(events)[1..] == Leaves(events[1..]);
    }
  }

  /** The walk gets through: no obstacle, within the budget, and every callback accepts. */
  predicate GetsThrough<S>(events: seq<Event>, remaining: nat, strict: bool,
                           visit: (S, Item) -> Verdict<S>, state: S)
  {
    Clear(events, strict) && |events| <= remaining && Visit(Leaves(events), visit, state).Some?
  }

  lemma GetsThroughCons<S>(events: seq<Event>, remaining: nat, strict: bool,
                           visit: (S, Item) -> Verdict<S>, state: S)
    requires events != []
    ensures GetsThrough(events, remaining, strict, visit, state)
            <==> && Obstacle(events[0], strict).None? && remaining > 0
                 && (if events[0].Enter? then GetsThrough(events[1..], remaining - 1, strict, visit, state)
                     else visit(state, events[0].item).Continue?
                          && GetsThrough(events[1..], remaining - 1, strict, visit,
                                         visit(state, events[0].item).state))
  {
    ClearCons(events, strict);
    if !events[0].Fault? {
      VisitCons(events, visit, state);
    }
  }

  /** The run of a walk that gets through: the budget is lowered by the number of entries. */
  function FullRun<S>(events: seq<Event>, remaining: nat, visit: (S, Item) -> Verdict<S>, state: S): Option<Run<S>> {
    var visited := Visit(Leaves(events), visit, state);
    if |events| <= remaining && visited.Some? then Some(Run(Done, remaining - |events|, visited.value)) else None
  }

  lemma FullRunCons<S>(events: seq<Event>, remaining: nat, visit: (S, Item) -> Verdict<S>, state: S)
    requires events != [] && !events[0].Fault? && remaining > 0
    ensures FullRun(events, remaining, visit, state)
            == if events[0].Enter? then FullRun(events[1..], remaining - 1, visit, state)
               else
                 match visit(state, events[0].item)
                 case Refuse(_) => None
                 case Continue(after) => FullRun(events[1..], remaining - 1, visit, after)
  {
    VisitCons(events, visit, state);
  }

  lemma {:induction false} ReplayGetsThrough<S>(events: seq<Event>, remaining: nat, strict: bool,
                                                visit: (S, Item) -> Verdict<S>, state: S)
    ensures Replay(events, remaining, strict, visit, state).outcome.Done?
            <==> GetsThrough(events, remaining, strict, visit, state)
    ensures Replay(events, remaining, strict, visit, state).outcome.Done? ==>
              FullRun(events, remaining, visit, state) == Some(Replay(events, remaining, strict, visit, state))
  {
    if events != [] {
      var event, rest := events[0], events[1..];
      GetsThroughCons(events, remaining, strict, visit, state);
      if Obstacle(event, strict).None? && remaining > 0 {
        FullRunCons(events, remaining, visit, state);
        if event.Enter? {
          ReplayGetsThrough(rest, remaining - 1, strict, visit, state);
        } else {
          var verdict := visit(state, event.item);
          if verdict.Continue? {
            ReplayGetsThrough(rest, remaining - 1, strict, visit, verdict.state);
          }
        }
      }
    }
  }

  /**
   The walk succeeds exactly when no entry is an obstacle, the entries fit the budget and the callback accepts
   the non-directory entries one after the other; it then has called the callback once for each of these, and
   has lowered the budget by the number of entries.
   */
  lemma WalkSucceedsExactly<S>(events: seq<Event>, remaining: nat, strict: bool,
                               visit: (S, Item) -> Verdict<S>, state: S)
    ensures Replay(events, remaining, strict, visit, state).outcome.Done? <==>
            Clear(events, strict) && |events| <= remaining && Visit(Leaves(events), visit, state).Some?
    ensures Replay(events, remaining, strict, visit, state).outcome.Done? ==>
              Replay(events, remaining, strict, visit, state)
              == Run(Done, remaining - |events|, Visit(Leaves(events), visit, state).value)
  {
    ReplayGetsThrough(events, remaining, strict, visit, state);
  }

  ghost predicate Accepts<S(!new)>(visit: (S, Item) -> Verdict<S>) {
    forall state, item :: visit(state, item).Continue?
  }

  lemma {:induction false} AcceptedAll<S(!new)>(leaves: seq<Item>, visit: (S, Item) -> Verdict<S>, state: S)
    requires Accepts(visit)
    ensures Visit(leaves, visit, state).Some?
  {
    if leaves != [] {
      assert visit(state, leaves[0]).Continue?;
      AcceptedAll(leaves[1..], visit, visit(state, leaves[0]).state);
    }
  }

  /** When everything opens and no callback refuses, only the two bounds can stop the walk. */
  lemma OnlyTheBoundsStop<S(!new)>(events: seq<Event>, remaining: nat, strict: bool,
                                   visit: (S, Item) -> Verdict<S>, state: S)
    requires Accepts(visit)
    requires forall event :: event in events && Obstacle(event, strict).Some? ==> event.Enter?
    ensures Replay(events, remaining, strict, visit, state).outcome.Done? <==>
            |events| <= remaining && Enter(MAX_SESSION_STORE_DEPTH) !in events
  {
    AcceptedAll(Leaves(events), visit, state);
    WalkSucceedsExactly(events, remaining, strict, visit, state);
    if Enter(MAX_SESSION_STORE_DEPTH) in events {
      assert Obstacle(Enter(MAX_SESSION_STORE_DEPTH), strict).Some?;
    }
  }

  // ---------------------------------------------------------------- the entries are those of the tree

  /** The entry stands in the listing or in a directory below it. */
  predicate Listed(items: seq<Item>, item: Item)
    decreases items, 0
  {
    items != [] && (Holds(items[0], item) || Listed(items[1..], item))
  }

  predicate Holds(entry: Item, item: Item)
    decreases entry, 1
  {
    match entry
    case Directory(_, children) => Listed(children, item)
    case ListingFailure => false
    case _ => entry == item
  }

  lemma {:induction false} LeafIn(events: seq<Event>, item: Item)
    ensures item in Leaves(events) <==> Leaf(item) in events
  {
    if events != [] {
      LeafIn(events[1..], item);
      assert events == [events[0]] + events[1..];
    }
  }

  /** The callback is called on the entries of the tree, and on nothing else. */
  lemma {:induction false} LeavesAreListed(items: seq<Item>, depth: nat, item: Item)
    ensures Leaf(item) in Flatten(items, depth) <==> Listed(items, item)
    decreases items, 0
  {
    if items != [] {
      EventsHold(items[0], depth, item);
      LeavesAreListed(items[1..], depth, item);
    }
  }

  lemma {:induction false} EventsHold(entry: Item, depth: nat, item: Item)
    ensures Leaf(item) in Events(entry, depth) <==> Holds(entry, item)
    decreases entry, 1
  {
    if entry.Directory? {
      LeavesAreListed(entry.children, depth + 1, item);
    }
  }

  // ---------------------------------------------------------------- the order of listings

  /** The same listing in another order, at this level and at every level below. */
  predicate Reordered(a: seq<Item>, b: seq<Item>)
    decreases a, 0
  {
    |a| == |b|
    && (a == [] || exists j :: 0 <= j < |b| && SameItem(a[0], b[j]) && Reordered(a[1..], b[..j] + b[j + 1..]))
  }

  predicate SameItem(a: Item, b: Item)
    decreases a, 1
  {
    if a.Directory? then b.Directory? && a.name == b.name && Reordered(a.children, b.children) else a == b
  }

  lemma FlattenCons(item: Item, rest: seq<Item>, depth: nat)
    ensures Flatten([item] + rest, depth) == Events(item, depth) + Flatten(rest, depth)
  {
    assert ([item] + rest)[1..] == rest;
  }

  lemma ConcatAssociates<T>(x: seq<T>, y: seq<T>, z: seq<T>)
    ensures x + (y + z) == (x + y) + z
  {
  }

  lemma {:induction false} FlattenAppend(a: seq<Item>, b: seq<Item>, depth: nat)
    ensures Flatten(a + b, depth) == Flatten(a, depth) + Flatten(b, depth)
  {
    if a == [] {
      assert a + b == b;
    } else {
      FlattenAppend(a[1..], b, depth);
      FlattenPrepend(a[0], a[1..], b, depth);
      ConcatAssociates([a[0]], a[1..], b);
      assert a == [a[0]] + a[1..];
    }
  }

  lemma FlattenPrepend(item: Item, rest: seq<Item>, b: seq<Item>, depth: nat)
    requires Flatten(rest + b, depth) == Flatten(rest, depth) + Flatten(b, depth)
    ensures Flatten([item] + (rest + b), depth) == Flatten([item] + rest, depth) + Flatten(b, depth)
  {
    FlattenCons(item, rest, depth);
    FlattenCons(item, rest + b, depth);
    ConcatAssociates(Events(item, depth), Flatten(rest, depth), Flatten(b, depth));
  }

  lemma FlattenExtract(b: seq<Item>, j: nat, depth: nat)
    requires j < |b|
    ensures multiset(Flatten(b, depth))
         == multiset(Events(b[j], depth)) + multiset(Flatten(b[..j] + b[j + 1..], depth))
  {
    FlattenAppend(b[..j], b[j + 1..], depth);
    FlattenAppend(b[..j], [b[j]] + b[j + 1..], depth);
    FlattenCons(b[j], b[j + 1..], depth);
    assert b == b[..j] + ([b[j]] + b[j + 1..]);
  }

  /** Reordering listings permutes the flat list. */
  lemma {:induction false} ReorderedEvents(a: seq<Item>, b: seq<Item>, depth: nat)
    requires Reordered(a, b)
    ensures multiset(Flatten(a, depth)) == multiset(Flatten(b, depth))
    decreases a, 0
  {
    if a != [] {
      var j :| 0 <= j < |b| && SameItem(a[0], b[j]) && Reordered(a[1..], b[..j] + b[j + 1..]);
      SameItemEvents(a[0], b[j], depth);
      ReorderedEvents(a[1..], b[..j] + b[j + 1..], depth);
      FlattenExtract(b, j, depth);
      FlattenCons(a[0], a[1..], depth);
      assert a == [a[0]] + a[1..];
    }
  }

  lemma {:induction false} SameItemEvents(a: Item, b: Item, depth: nat)
    requires SameItem(a, b)
    ensures multiset(Events(a, depth)) == multiset(Events(b, depth))
    decreases a, 1
  {
    if a.Directory? {
      ReorderedEvents(a.children, b.children, depth + 1);
    }
  }

  function LeafBag(events: seq<Event>): multiset<Item> {
    multiset(Leaves(events))
  }

  lemma {:induction false} LeafCount(events: seq<Event>, item: Item)
    ensures LeafBag(events)[item] == multiset(events)[Leaf(item)]
  {
    if events != [] {
      LeafCount(events[1..], item);
      assert events == [events[0]] + events[1..];
    }
  }

  /** The entries that reach the callback are, as a bag, fixed by the bag of all entries. */
  lemma SameEventsSameLeaves(a: seq<Event>, b: seq<Event>)
    requires multiset(a) == multiset(b)
    ensures LeafBag(a) == LeafBag(b)
  {
    forall item ensures LeafBag(a)[item] == LeafBag(b)[item] {
      LeafCount(a, item);
      LeafCount(b, item);
    }
  }
}
