/**
 The handles that a daemon retains (`src/daemon.rs`): the polling passes with `swap_remove`, the join of the
 shutdown attempts, and the shutdown drain. A handle stands for itself; the answers of its calls are given.
 */
module RetainedHandles {
  import opened Wrappers

  // ---------------------------------------------------------------- swap_remove

  function SwapRemove<T>(s: seq<T>, i: nat): seq<T>
    requires i < |s|
  {
    s[i := s[|s| - 1]][..|s| - 1]
  }

  lemma SwapRemoveTakesOne<T>(s: seq<T>, i: nat)
    requires i < |s|
    ensures SwapRemove(s, i)[..i] == s[..i]
    ensures multiset(SwapRemove(s, i)[i..]) + multiset{s[i]} == multiset(s[i..])
  {
    var last := s[|s| - 1];
    if i == |s| - 1 {
      assert s[i..] == [last] && SwapRemove(s, i)[i..] == [];
    } else {
      var middle := s[i + 1..|s| - 1];
      assert s[i..] == [s[i]] + middle + [last];
      assert SwapRemove(s, i)[i..] == [last] + middle;
    }
  }

  // ---------------------------------------------------------------- one pass

  /** What one call on a handle answers; a failure may be a kept one that nobody reports. */
  datatype Answer<E> = Finished | Unfinished | Failed(error: E)

  /** The handles whose call did not finish, in their order. */
  function Rest<H, E>(handles: seq<H>, poll: H -> Answer<E>): seq<H> {
    if handles == [] then []
    else
      var front := Rest(handles[..|handles| - 1], poll);
      var h := handles[|handles| - 1];
      if poll(h).Finished? then front else front + [h]
  }

  /** The error of the first call that failed. */
  function FirstError<H, E>(calls: seq<H>, poll: H -> Answer<E>): Option<E> {
    if calls == [] then None
    else
      var first := FirstError(calls[..|calls| - 1], poll);
      var h := calls[|calls| - 1];
      if first.None? && poll(h).Failed? then Some(poll(h).error) else first
  }

  lemma CallOneMore<H, E>(calls: seq<H>, poll: H -> Answer<E>, h: H)
    ensures Rest(calls + [h], poll) == Rest(calls, poll) + if poll(h).Finished? then [] else [h]
    ensures FirstError(calls + [h], poll)
            == if FirstError(calls, poll).None? && poll(h).Failed? then Some(poll(h).error)
               else FirstError(calls, poll)
  {
    assert (calls + [h])[..|calls|] == calls;
  }

  lemma {:induction false} FirstErrorMeans<H, E>(calls: seq<H>, poll: H -> Answer<E>)
    ensures FirstError(calls, poll).None? <==> forall i :: 0 <= i < |calls| ==> !poll(calls[i]).Failed?
    ensures FirstError(calls, poll).Some? ==>
              exists i :: 0 <= i < |calls| && poll(calls[i]) == Failed(FirstError(calls, poll).value)
                          && forall j :: 0 <= j < i ==> !poll(calls[j]).Failed?
  {
    if calls != [] {
      FirstErrorMeans(calls[..|calls| - 1], poll);
      assert calls == calls[..|calls| - 1] + [calls[|calls| - 1]];
    }
  }

  /** Which handles are left does not depend on the order of the calls. */
  lemma {:induction false} RestIsAFilter<H, E>(calls: seq<H>, poll: H -> Answer<E>, h: H)
    ensures multiset(Rest(calls, poll))[h] == if poll(h).Finished? then 0 else multiset(calls)[h]
  {
    if calls != [] {
      var front := calls[..|calls| - 1];
      assert calls == front + [calls[|calls| - 1]];
      RestIsAFilter(front, poll, h);
    }
  }

  lemma RestIsWithin<H, E>(calls: seq<H>, handles: seq<H>, poll: H -> Answer<E>)
    requires multiset(calls) == multiset(handles)
    ensures multiset(Rest(calls, poll)) <= multiset(Rest(handles, poll))
  {
    forall h | h in multiset(Rest(calls, poll))
      ensures multiset(Rest(calls, poll))[h] <= multiset(Rest(handles, poll))[h]
    {
      RestIsAFilter(calls, poll, h);
      RestIsAFilter(handles, poll, h);
    }
  }

  lemma RestIgnoresOrder<H, E>(calls: seq<H>, handles: seq<H>, poll: H -> Answer<E>)
    requires multiset(calls) == multiset(handles)
    ensures multiset(Rest(calls, poll)) == multiset(Rest(handles, poll))
  {
    var a, b := multiset(Rest(calls, poll)), multiset(Rest(handles, poll));
    assert a <= b by {
      RestIsWithin(calls, handles, poll);
    }
    assert b <= a by {
      RestIsWithin(handles, calls, poll);
    }
  }

  /** The pass has called each handle up to `index` and those it removed, and none of the others. */
  ghost predicate Passed<H, E>(before: seq<H>, handles: seq<H>, index: nat, calls: seq<H>, poll: H -> Answer<E>)
  {
    && index <= |handles|
    && multiset(calls) + multiset(handles[index..]) == multiset(before)
    && multiset(handles[..index]) == multiset(Rest(calls, poll))
  }

  lemma PassKeeps<H, E>(before: seq<H>, handles: seq<H>, index: nat, calls: seq<H>, poll: H -> Answer<E>)
    requires Passed(before, handles, index, calls, poll) && index < |handles|
    requires !poll(handles[index]).Finished?
    ensures Passed(before, handles, index + 1, calls + [handles[index]], poll)
  {
    var h := handles[index];
    CallOneMore(calls, poll, h);
    assert handles[..index + 1] == handles[..index] + [h];
    assert handles[index..] == [h] + handles[index + 1..];
  }

  lemma PassRemoves<H, E>(before: seq<H>, handles: seq<H>, index: nat, calls: seq<H>, poll: H -> Answer<E>)
    requires Passed(before, handles, index, calls, poll) && index < |handles|
    requires poll(handles[index]).Finished?
    ensures Passed(before, SwapRemove(handles, index), index, calls + [handles[index]], poll)
  {
    CallOneMore(calls, poll, handles[index]);
    SwapRemoveTakesOne(handles, index);
  }

  lemma PassEnds<H, E>(before: seq<H>, handles: seq<H>, calls: seq<H>, poll: H -> Answer<E>)
    requires Passed(before, handles, |handles|, calls, poll)
    ensures multiset(calls) == multiset(before) && multiset(handles) == multiset(Rest(before, poll))
  {
    assert handles[..|handles|] == handles && handles[|handles|..] == [];
    RestIgnoresOrder(calls, before, poll);
  }

  /** A pass reports the first error of its calls, or else how many handles finished. */
  function PassResult<H, E>(calls: seq<H>, poll: H -> Answer<E>, finished: int): Result<int, E> {
    match FirstError(calls, poll)
    case Some(error) => Err(error)
    case None => Ok(finished)
  }

  /** What the loop of a pass keeps: besides its calls, the count and the first error. */
  ghost predicate InPass<H, E>(before: seq<H>, handles: seq<H>, index: nat, calls: seq<H>, poll: H -> Answer<E>,
                               finished: int, firstError: Option<E>)
  {
    && Passed(before, handles, index, calls, poll)
    && firstError == FirstError(calls, poll) && finished + |handles| == |before|
  }

  lemma OneCall<H, E>(before: seq<H>, handles: seq<H>, index: nat, calls: seq<H>, poll: H -> Answer<E>,
                      finished: int, firstError: Option<E>)
    requires InPass(before, handles, index, calls, poll, finished, firstError) && index < |handles|
    ensures var h := handles[index];
            match poll(h)
            case Finished =>
              InPass(before, SwapRemove(handles, index), index, calls + [h], poll, finished + 1, firstError)
            case Unfinished => InPass(before, handles, index + 1, calls + [h], poll, finished, firstError)
            case Failed(error) =>
              InPass(before, handles, index + 1, calls + [h], poll, finished,
                     if firstError.Some? then firstError else Some(error))
  {
    CallOneMore(calls, poll, handles[index]);
    if poll(handles[index]).Finished? {
      PassRemoves(before, handles, index, calls, poll);
    } else {
      PassKeeps(before, handles, index, calls, poll);
    }
  }

  lemma PassIsOver<H, E>(before: seq<H>, handles: seq<H>, calls: seq<H>, poll: H -> Answer<E>,
                         finished: int, firstError: Option<E>)
    requires InPass(before, handles, |handles|, calls, poll, finished, firstError)
    ensures multiset(calls) == multiset(before) && multiset(handles) == multiset(Rest(before, poll))
    ensures PassResult(calls, poll, |before| - |handles|)
            == if firstError.Some? then Err(firstError.value) else Ok(finished)
  {
    PassEnds(before, handles, calls, poll);
  }

  /** The pass over the agents, and over the cleanups with their own answers. */
  method PollAll<H(==), E>(handles: seq<H>, poll: H -> Answer<E>)
    returns (left: seq<H>, result: Result<int, E>, ghost calls: seq<H>)
    ensures multiset(calls) == multiset(handles)
    ensures multiset(left) == multiset(Rest(handles, poll))
    ensures result == PassResult(calls, poll, |handles| - |left|)
  {
    left, calls := handles, [];
    var finished, index, firstError := 0, 0, None;
    while index < |left|
      invariant index <= |left| && InPass(handles, left, index, calls, poll, finished, firstError)
      decreases |left| - index
    {
      var h := left[index];
      OneCall(handles, left, index, calls, poll, finished, firstError);
      calls := calls + [h];
      match poll(h) {
        case Finished =>
          left := SwapRemove(left, index);
          finished := finished + 1;
        case Unfinished =>
          index := index + 1;
        case Failed(error) =>
          if firstError.None? {
            firstError := Some(error);
          }
          index := index + 1;
      }
    }
    PassIsOver(handles, left, calls, poll, finished, firstError);
    result := if firstError.Some? then Err(firstError.value) else Ok(finished);
  }

  function CleanupAnswer<E>(retry: Result<(), E>, pending: bool): Answer<E> {
    match retry
    case Ok(_) => Finished
    case Err(error) => if pending then Unfinished else Failed(error)
  }

  function CleanupPoll<C, E>(retry: C -> Result<(), E>, pending: C -> bool): C -> Answer<E> {
    (c: C) => CleanupAnswer(retry(c), pending(c))
  }

  /** The first report among the calls, in their order. */
  ghost predicate FirstReport<H, E>(calls: seq<H>, report: H -> Option<E>, error: E) {
    exists i :: 0 <= i < |calls| && report(calls[i]) == Some(error) && forall j :: 0 <= j < i ==> report(calls[j]).None?
  }

  ghost predicate Quiet<H, E>(handles: seq<H>, report: H -> Option<E>) {
    forall h :: h in handles ==> report(h).None?
  }

  function AgentReport<A, E>(poll: A -> Answer<E>): A -> Option<E> {
    (a: A) => if poll(a).Failed? then Some(poll(a).error) else None
  }

  function CleanupReport<C, E>(retry: C -> Result<(), E>, pending: C -> bool): C -> Option<E> {
    (c: C) => if retry(c).Err? && !pending(c) then Some(retry(c).error) else None
  }

  lemma SameMembers<T>(a: seq<T>, b: seq<T>)
    requires multiset(a) == multiset(b)
    ensures forall x :: x in a ==> x in b
  {
    forall x | x in a
      ensures x in b
    {
      assert x in multiset(b);
    }
  }

  /** The handles that are left are the unfinished ones, each as often as it was there. */
  ghost predicate KeepsUnfinished<H>(left: seq<H>, handles: seq<H>, finished: H -> bool) {
    && (forall h :: h in left ==> h in handles)
    && (forall h :: h in handles ==> multiset(left)[h] == if finished(h) then 0 else multiset(handles)[h])
  }

  /**
   What a pass does: it calls every handle once, keeps exactly those that did not finish, and answers their number,
   or the first report of its calls if there is one.
   */
  ghost predicate PassAnswers<H, E>(handles: seq<H>, left: seq<H>, calls: seq<H>, result: Result<int, E>,
                                    finished: H -> bool, report: H -> Option<E>) {
    && multiset(calls) == multiset(handles) && KeepsUnfinished(left, handles, finished)
    && (result.Ok? <==> Quiet(handles, report))
    && (result.Ok? ==> result.value == |handles| - |left|)
    && (result.Err? ==> FirstReport(calls, report, result.error))
  }

  lemma PassIsAnswered<H, E>(handles: seq<H>, left: seq<H>, calls: seq<H>, poll: H -> Answer<E>,
                             finished: H -> bool, report: H -> Option<E>)
    requires multiset(calls) == multiset(handles) && multiset(left) == multiset(Rest(handles, poll))
    requires forall h :: h in handles ==> finished(h) == poll(h).Finished?
    requires forall h :: h in handles ==> report(h) == if poll(h).Failed? then Some(poll(h).error) else None
    ensures PassAnswers(handles, left, calls, PassResult(calls, poll, |handles| - |left|), finished, report)
  {
    FirstErrorMeans(calls, poll);
    SameMembers(calls, handles);
    SameMembers(handles, calls);
    RestIsUnfinished(left, handles, poll, finished);
  }

  lemma RestIsUnfinished<H, E>(left: seq<H>, handles: seq<H>, poll: H -> Answer<E>, finished: H -> bool)
    requires multiset(left) == multiset(Rest(handles, poll))
    requires forall h :: h in handles ==> finished(h) == poll(h).Finished?
    ensures KeepsUnfinished(left, handles, finished)
  {
    forall h | h in left
      ensures h in handles
    {
      RestIsAFilter(handles, poll, h);
      assert multiset(left)[h] > 0 && multiset(handles)[h] > 0;
    }
    forall h | h in handles
      ensures multiset(left)[h] == if finished(h) then 0 else multiset(handles)[h]
    {
      RestIsAFilter(handles, poll, h);
    }
  }

  // ---------------------------------------------------------------- what a sequence is made of

  /** The parts that `pick` takes out of a sequence, in its order. */
  function Picked<T, U>(s: seq<T>, pick: T -> Option<U>): seq<U> {
    if s == [] then []
    else Picked(s[..|s| - 1], pick) + AsSeq(pick(s[|s| - 1]))
  }

  function AsSeq<U>(u: Option<U>): seq<U> {
    if u.Some? then [u.value] else []
  }

  lemma {:induction false} PickedJoins<T, U>(a: seq<T>, b: seq<T>, pick: T -> Option<U>)
    ensures Picked(a + b, pick) == Picked(a, pick) + Picked(b, pick)
  {
    if b == [] {
      assert a + b == a;
    } else {
      assert (a + b)[..|a + b| - 1] == a + b[..|b| - 1];
      PickedJoins(a, b[..|b| - 1], pick);
    }
  }

  function Without<T>(s: seq<T>, k: nat): seq<T>
    requires k < |s|
  {
    s[..k] + s[k + 1..]
  }

  lemma WithoutTakesOne<T>(s: seq<T>, k: nat)
    requires k < |s|
    ensures multiset(Without(s, k)) == multiset(s) - multiset{s[k]}
  {
    assert s == s[..k] + [s[k]] + s[k + 1..];
  }

  lemma PickedSnoc<T, U>(a: seq<T>, x: T, pick: T -> Option<U>)
    ensures Picked(a + [x], pick) == Picked(a, pick) + AsSeq(pick(x))
  {
    assert (a + [x])[..|a + [x]| - 1] == a;
  }

  lemma PickedMiddle<T, U>(a: seq<T>, x: T, b: seq<T>, pick: T -> Option<U>)
    ensures Picked((a + [x]) + b, pick) == (Picked(a, pick) + AsSeq(pick(x))) + Picked(b, pick)
  {
    PickedJoins(a + [x], b, pick);
    PickedSnoc(a, x, pick);
  }

  lemma TakenFromTheMiddle<U>(p: seq<U>, o: seq<U>, q: seq<U>)
    ensures multiset((p + o) + q) == multiset(p + q) + multiset(o)
  {
  }

  lemma PickedTaken<T, U>(a: seq<T>, x: T, b: seq<T>, pick: T -> Option<U>)
    ensures multiset(Picked((a + [x]) + b, pick)) == multiset(Picked(a + b, pick)) + multiset(AsSeq(pick(x)))
  {
    PickedMiddle(a, x, b, pick);
    PickedJoins(a, b, pick);
    TakenFromTheMiddle(Picked(a, pick), AsSeq(pick(x)), Picked(b, pick));
  }

  lemma SplitAt<T>(s: seq<T>, k: nat)
    requires k < |s|
    ensures s == (s[..k] + [s[k]]) + s[k + 1..]
  {
  }

  lemma PickedWithout<T, U>(s: seq<T>, k: nat, pick: T -> Option<U>)
    requires k < |s|
    ensures multiset(Picked(s, pick)) == multiset(Picked(Without(s, k), pick)) + multiset(AsSeq(pick(s[k])))
  {
    SplitAt(s, k);
    PickedTaken(s[..k], s[k], s[k + 1..], pick);
  }

  lemma {:induction false} PickedIgnoresOrder<T, U>(a: seq<T>, b: seq<T>, pick: T -> Option<U>)
    requires multiset(a) == multiset(b)
    ensures multiset(Picked(a, pick)) == multiset(Picked(b, pick))
  {
    if a == [] {
      assert |b| == |multiset(b)|;
    } else {
      assert a[0] in multiset(b);
      var k :| 0 <= k < |b| && b[k] == a[0];
      WithoutTakesOne(a, 0);
      WithoutTakesOne(b, k);
      PickedIgnoresOrder(Without(a, 0), Without(b, k), pick);
      PickedWithout(a, 0, pick);
      PickedWithout(b, k, pick);
    }
  }

  // ---------------------------------------------------------------- the join of the attempts

  /** A future that is ready from one pass on. */
  datatype Future<T> = Future(output: T, readyAt: nat)

  /** No future of the sequence is ready before this pass. */
  predicate Waiting<T>(futures: seq<Future<T>>, pass: nat) {
    forall i :: 0 <= i < |futures| ==> pass <= futures[i].readyAt
  }

  predicate ReadyBy<T>(futures: seq<Future<T>>, pass: int) {
    forall i :: 0 <= i < |futures| ==> futures[i].readyAt <= pass
  }

  /** The futures are in the order of the passes at which they became ready. */
  predicate InOrder<T>(futures: seq<Future<T>>) {
    forall i, j :: 0 <= i < j < |futures| ==> futures[i].readyAt <= futures[j].readyAt
  }

  /** Every pass takes out the futures that have become ready, and leaves the others. */
  method JoinPass<T(==)>(futures: seq<Future<T>>, pass: nat) returns (left: seq<Future<T>>, done: seq<Future<T>>)
    requires Waiting(futures, pass)
    ensures multiset(left) + multiset(done) == multiset(futures)
    ensures Waiting(left, pass + 1) && Waiting(done, pass) && ReadyBy(done, pass)
    ensures forall bound :: ReadyBy(futures, bound) ==> ReadyBy(left, bound)
  {
    left, done := futures, [];
    var index := 0;
    while index < |left|
      invariant index <= |left| && multiset(left) + multiset(done) == multiset(futures)
      invariant Waiting(left, pass) && Waiting(left[..index], pass + 1) && Waiting(done, pass) && ReadyBy(done, pass)
      invariant forall bound :: ReadyBy(futures, bound) ==> ReadyBy(left, bound)
      decreases |left| - index
    {
      var f := left[index];
      if f.readyAt <= pass {
        done := done + [f];
        SwapRemoveTakesOne(left, index);
        SwapRemoveIsWithin(left, index);
        SwapRemoveKeepsPasses(left, index);
        left := SwapRemove(left, index);
      } else {
        index := index + 1;
      }
    }
    assert left[..index] == left;
  }

  lemma BagSplits<T>(s: seq<T>, i: nat)
    requires i <= |s|
    ensures multiset(s) == multiset(s[..i]) + multiset(s[i..])
  {
    assert s == s[..i] + s[i..];
  }

  lemma SwapRemoveIsWithin<T>(s: seq<T>, i: nat)
    requires i < |s|
    ensures multiset(SwapRemove(s, i)) + multiset{s[i]} == multiset(s)
  {
    SwapRemoveTakesOne(s, i);
    BagSplits(s, i);
    BagSplits(SwapRemove(s, i), i);
  }

  lemma SwapRemoveKeepsPasses<T>(s: seq<Future<T>>, i: nat)
    requires i < |s|
    ensures forall pass :: Waiting(s, pass) ==> Waiting(SwapRemove(s, i), pass)
    ensures forall bound :: ReadyBy(s, bound) ==> ReadyBy(SwapRemove(s, i), bound)
  {
  }

  /** What holds between two passes of a join. */
  ghost predicate Joining<T>(futures: seq<Future<T>>, left: seq<Future<T>>, order: seq<Future<T>>, pass: nat) {
    && multiset(left) + multiset(order) == multiset(futures)
    && Waiting(left, pass) && InOrder(order) && ReadyBy(order, pass - 1)
  }

  lemma JoinGoesOn<T>(futures: seq<Future<T>>, before: seq<Future<T>>, order: seq<Future<T>>, pass: nat,
                      left: seq<Future<T>>, done: seq<Future<T>>)
    requires Joining(futures, before, order, pass) && multiset(left) + multiset(done) == multiset(before)
    requires Waiting(left, pass + 1) && Waiting(done, pass) && ReadyBy(done, pass)
    ensures Joining(futures, left, order + done, pass + 1)
  {
  }

  function OutputOf<T>(): Future<T> -> Option<T> {
    (f: Future<T>) => Some(f.output)
  }

  function Outputs<T>(futures: seq<Future<T>>): seq<T> {
    Picked(futures, OutputOf())
  }

  /** Every output is returned once, in the order in which the futures became ready. */
  method Join<T(==)>(futures: seq<Future<T>>) returns (completed: seq<T>, ghost order: seq<Future<T>>)
    ensures multiset(completed) == multiset(Outputs(futures))
    ensures completed == Outputs(order) && multiset(order) == multiset(futures) && InOrder(order)
  {
    var left, pass: nat := futures, 0;
    ghost var bound: int := LastReady(futures);
    completed, order := [], [];
    while left != []
      invariant Joining(futures, left, order, pass) && completed == Outputs(order) && ReadyBy(left, bound)
      decreases bound - pass
    {
      var before := left;
      var done;
      left, done := JoinPass(left, pass);
      JoinGoesOn(futures, before, order, pass, left, done);
      PickedJoins(order, done, OutputOf());
      completed := completed + Outputs(done);
      order := order + done;
      assert before[0].readyAt >= pass;
      pass := pass + 1;
    }
    PickedIgnoresOrder(order, futures, OutputOf());
  }

  ghost function LastReady<T>(futures: seq<Future<T>>): (bound: nat)
    ensures ReadyBy(futures, bound)
  {
    if futures == [] then 0
    else
      var rest := LastReady(futures[1..]);
      if rest < futures[0].readyAt then futures[0].readyAt else rest
  }

  // ---------------------------------------------------------------- one round of a drain

  /** An attempt owns its handle and gives it back with its result. */
  datatype Attempt<A, C, E> =
    | CleanupAttempt(cleanup: C, result: Result<(), E>)
    | AgentAttempt(agent: A, result: Result<(), E>)

  function Mapped<T, U>(s: seq<T>, f: T -> U): seq<U> {
    if s == [] then [] else Mapped(s[..|s| - 1], f) + [f(s[|s| - 1])]
  }

  /** What is put in everywhere can be picked out again. */
  lemma {:induction false} PickedBack<T, U>(s: seq<T>, f: T -> U, pick: U -> Option<T>)
    requires forall x :: x in s ==> pick(f(x)) == Some(x)
    ensures Picked(Mapped(s, f), pick) == s
  {
    if s != [] {
      var front, last := s[..|s| - 1], s[|s| - 1];
      PickedBack(front, f, pick);
      PickedSnoc(Mapped(front, f), f(last), pick);
    }
  }

  lemma {:induction false} NothingPicked<T, U, V>(s: seq<T>, f: T -> U, pick: U -> Option<V>)
    requires forall x :: x in s ==> pick(f(x)) == None
    ensures Picked(Mapped(s, f), pick) == []
  {
    if s != [] {
      var front, last := s[..|s| - 1], s[|s| - 1];
      NothingPicked(front, f, pick);
      PickedSnoc(Mapped(front, f), f(last), pick);
    }
  }

  function TryAgent<A, C, E>(t: A -> Result<(), E>): A -> Attempt<A, C, E> {
    (a: A) => AgentAttempt(a, t(a))
  }

  function TryCleanup<A, C, E>(t: C -> Result<(), E>): C -> Attempt<A, C, E> {
    (c: C) => CleanupAttempt(c, t(c))
  }

  function AgentOf<A, C, E>(): Attempt<A, C, E> -> Option<A> {
    (x: Attempt<A, C, E>) => if x.AgentAttempt? then Some(x.agent) else None
  }

  function CleanupOf<A, C, E>(): Attempt<A, C, E> -> Option<C> {
    (x: Attempt<A, C, E>) => if x.CleanupAttempt? then Some(x.cleanup) else None
  }

  /** The attempts of one round, the cleanups first. */
  function Attempts<A, C, E>(cleanups: seq<C>, agents: seq<A>, tryCleanup: C -> Result<(), E>,
                             tryAgent: A -> Result<(), E>): seq<Attempt<A, C, E>>
  {
    Mapped(cleanups, TryCleanup<A, C, E>(tryCleanup)) + Mapped(agents, TryAgent<A, C, E>(tryAgent))
  }

  /** The attempts of a round own every handle once. */
  lemma AttemptsOwnAll<A, C, E>(cleanups: seq<C>, agents: seq<A>, tryCleanup: C -> Result<(), E>,
                                tryAgent: A -> Result<(), E>)
    ensures var attempts := Attempts(cleanups, agents, tryCleanup, tryAgent);
            Picked(attempts, AgentOf()) == agents && Picked(attempts, CleanupOf()) == cleanups
  {
    var first := Mapped(cleanups, TryCleanup<A, C, E>(tryCleanup));
    var second := Mapped(agents, TryAgent<A, C, E>(tryAgent));
    PickedJoins(first, second, AgentOf());
    PickedJoins(first, second, CleanupOf());
    PickedBack(cleanups, TryCleanup<A, C, E>(tryCleanup), CleanupOf());
    PickedBack(agents, TryAgent<A, C, E>(tryAgent), AgentOf());
    NothingPicked(cleanups, TryCleanup<A, C, E>(tryCleanup), AgentOf());
    NothingPicked(agents, TryAgent<A, C, E>(tryAgent), CleanupOf());
  }

  /** The handle of an attempt that ended in the given way. */
  function Ended<A, C, E, H>(handle: Attempt<A, C, E> -> Option<H>, ok: bool): Attempt<A, C, E> -> Option<H> {
    (x: Attempt<A, C, E>) => if x.result.Ok? == ok then handle(x) else None
  }

  lemma {:induction false} EveryAttemptEnds<A, C, E, H>(joined: seq<Attempt<A, C, E>>,
                                                        handle: Attempt<A, C, E> -> Option<H>)
    ensures multiset(Picked(joined, Ended(handle, false))) + multiset(Picked(joined, Ended(handle, true)))
            == multiset(Picked(joined, handle))
  {
    if joined != [] {
      EveryAttemptEnds(joined[..|joined| - 1], handle);
    }
  }

  /** The first error among the results, in the order of completion. */
  function FirstFailure<A, C, E>(joined: seq<Attempt<A, C, E>>): Option<E> {
    if joined == [] then None
    else
      var first := FirstFailure(joined[..|joined| - 1]);
      var last := joined[|joined| - 1].result;
      if first.None? && last.Err? then Some(last.error) else first
  }

  function At<T>(readyAt: T -> nat): T -> Future<T> {
    (x: T) => Future(x, readyAt(x))
  }

  lemma FuturesKeepOutputs<T>(s: seq<T>, readyAt: T -> nat)
    ensures Outputs(Mapped(s, At(readyAt))) == s
  {
    PickedBack(s, At(readyAt), OutputOf());
  }

  lemma {:induction false} MappedHas<T, U>(s: seq<T>, f: T -> U, y: U)
    requires y in Mapped(s, f)
    ensures exists x :: x in s && f(x) == y
  {
    var front, last := s[..|s| - 1], s[|s| - 1];
    assert s == front + [last];
    if f(last) != y {
      MappedHas(front, f, y);
    }
  }

  /** An attempt carries what its own call answered. */
  ghost predicate Honest<A, C, E>(x: Attempt<A, C, E>, tryCleanup: C -> Result<(), E>, tryAgent: A -> Result<(), E>) {
    match x
    case AgentAttempt(a, result) => result == tryAgent(a)
    case CleanupAttempt(c, result) => result == tryCleanup(c)
  }

  lemma AttemptsAreHonest<A, C, E>(cleanups: seq<C>, agents: seq<A>, tryCleanup: C -> Result<(), E>,
                                   tryAgent: A -> Result<(), E>, x: Attempt<A, C, E>)
    requires x in Attempts(cleanups, agents, tryCleanup, tryAgent)
    ensures Honest(x, tryCleanup, tryAgent)
  {
    if x in Mapped(cleanups, TryCleanup<A, C, E>(tryCleanup)) {
      MappedHas(cleanups, TryCleanup<A, C, E>(tryCleanup), x);
    } else {
      MappedHas(agents, TryAgent<A, C, E>(tryAgent), x);
    }
  }

  lemma {:induction false} PickedFrom<T, U>(s: seq<T>, pick: T -> Option<U>, u: U) returns (x: T)
    requires u in Picked(s, pick)
    ensures x in s && pick(x) == Some(u)
  {
    var front, last := s[..|s| - 1], s[|s| - 1];
    assert s == front + [last];
    if pick(last) == Some(u) {
      x := last;
    } else {
      x := PickedFrom(front, pick, u);
    }
  }

  /** What the joined attempts of a round say about the handles of one kind. */
  lemma EndedAsTried<A, C, E, H>(joined: seq<Attempt<A, C, E>>, handle: Attempt<A, C, E> -> Option<H>, ok: bool,
                                 tryCleanup: C -> Result<(), E>, tryAgent: A -> Result<(), E>, h: H)
    returns (x: Attempt<A, C, E>)
    requires forall y :: y in joined ==> Honest(y, tryCleanup, tryAgent)
    requires h in Picked(joined, Ended(handle, ok))
    ensures Honest(x, tryCleanup, tryAgent) && x.result.Ok? == ok && handle(x) == Some(h)
  {
    x := PickedFrom(joined, Ended(handle, ok), h);
  }

  /** The handles of the joined attempts, by kind and by how they ended. */
  ghost predicate Settled<A, C, E>(joined: seq<Attempt<A, C, E>>, agents: seq<A>, cleanups: seq<C>,
                                   doneCleanups: seq<C>, doneAgents: seq<A>)
  {
    && agents == Picked(joined, Ended(AgentOf(), false)) && doneAgents == Picked(joined, Ended(AgentOf(), true))
    && cleanups == Picked(joined, Ended(CleanupOf(), false))
    && doneCleanups == Picked(joined, Ended(CleanupOf(), true))
  }

  lemma SettleOne<A, C, E>(joined: seq<Attempt<A, C, E>>, x: Attempt<A, C, E>, ok: bool)
    ensures FirstFailure(joined + [x])
            == if FirstFailure(joined).None? && x.result.Err? then Some(x.result.error) else FirstFailure(joined)
    ensures Picked(joined + [x], Ended(AgentOf(), ok)) == Picked(joined, Ended(AgentOf(), ok))
            + if x.AgentAttempt? && x.result.Ok? == ok then [x.agent] else []
    ensures Picked(joined + [x], Ended(CleanupOf(), ok)) == Picked(joined, Ended(CleanupOf(), ok))
            + if x.CleanupAttempt? && x.result.Ok? == ok then [x.cleanup] else []
  {
    assert (joined + [x])[..|joined|] == joined;
    PickedSnoc(joined, x, Ended(AgentOf(), ok));
    PickedSnoc(joined, x, Ended(CleanupOf(), ok));
  }

  /** The first failure of a round is told by a handle that comes back. */
  ghost predicate ToldBy<A, C, E>(agents: seq<A>, cleanups: seq<C>, tryAgent: A -> Result<(), E>,
                                  tryCleanup: C -> Result<(), E>, error: E) {
    (exists a :: a in agents && tryAgent(a) == Err(error)) || (exists c :: c in cleanups && tryCleanup(c) == Err(error))
  }

  lemma {:induction false} FailureIsAnAttempt<A, C, E>(joined: seq<Attempt<A, C, E>>)
    returns (x: Attempt<A, C, E>)
    requires FirstFailure(joined).Some?
    ensures x in joined && x.result == Err(FirstFailure(joined).value)
  {
    var front, last := joined[..|joined| - 1], joined[|joined| - 1];
    assert joined == front + [last];
    if FirstFailure(front).Some? {
      x := FailureIsAnAttempt(front);
    } else {
      x := last;
    }
  }

  lemma {:induction false} PickedHas<T, U>(s: seq<T>, x: T, pick: T -> Option<U>)
    requires x in s && pick(x).Some?
    ensures pick(x).value in Picked(s, pick)
  {
    var front, last := s[..|s| - 1], s[|s| - 1];
    assert s == front + [last];
    if x in front {
      PickedHas(front, x, pick);
    }
  }

  lemma FirstFailureIsTold<A, C, E>(joined: seq<Attempt<A, C, E>>, agents: seq<A>, cleanups: seq<C>,
                                    tryCleanup: C -> Result<(), E>, tryAgent: A -> Result<(), E>)
    requires agents == Picked(joined, Ended(AgentOf(), false)) && cleanups == Picked(joined, Ended(CleanupOf(), false))
    requires forall x :: x in joined ==> Honest(x, tryCleanup, tryAgent)
    ensures FirstFailure(joined).Some? ==> ToldBy(agents, cleanups, tryAgent, tryCleanup, FirstFailure(joined).value)
  {
    if FirstFailure(joined).Some? {
      var x := FailureIsAnAttempt(joined);
      match x
      case AgentAttempt(agent, _) => PickedHas(joined, x, Ended(AgentOf(), false));
      case CleanupAttempt(cleanup, _) => PickedHas(joined, x, Ended(CleanupOf(), false));
    }
  }

  // ---------------------------------------------------------------- the daemon

  class Daemon<A(==), C(==), E(==)> {
    var agents: seq<A>
    var cleanups: seq<C>

    constructor (agents: seq<A>, cleanups: seq<C>)
      ensures this.agents == agents && this.cleanups == cleanups
    {
      this.agents := agents;
      this.cleanups := cleanups;
    }

    method PollAgents(poll: A -> Answer<E>) returns (result: Result<int, E>, ghost calls: seq<A>)
      modifies this
      ensures cleanups == old(cleanups)
      ensures PassAnswers(old(agents), agents, calls, result, (a: A) => poll(a).Finished?, AgentReport(poll))
    {
      var left;
      left, result, calls := PollAll(agents, poll);
      PassIsAnswered(agents, left, calls, poll, (a: A) => poll(a).Finished?, AgentReport(poll));
      agents := left;
    }

    /** A cleanup that fails but stays pending is kept without an error. */
    method PollCleanups(retry: C -> Result<(), E>, pending: C -> bool)
      returns (result: Result<int, E>, ghost calls: seq<C>)
      modifies this
      ensures agents == old(agents)
      ensures PassAnswers(old(cleanups), cleanups, calls, result, (c: C) => retry(c).Ok?,
                          CleanupReport(retry, pending))
    {
      var left;
      left, result, calls := PollAll(cleanups, CleanupPoll(retry, pending));
      PassIsAnswered(cleanups, left, calls, CleanupPoll(retry, pending), (c: C) => retry(c).Ok?,
                     CleanupReport(retry, pending));
      cleanups := left;
    }

    /**
     Both polling passes run whatever the startup owners answered, and the first error of the three is
     reported; the count is that of the startup owners and of the agents.
     */
    method PollRetained(startup: Result<int, E>, pollAgent: A -> Answer<E>, retry: C -> Result<(), E>,
                        pending: C -> bool)
      returns (result: Result<int, E>, ghost agentCalls: seq<A>, ghost agentResult: Result<int, E>,
               ghost cleanupCalls: seq<C>, ghost cleanupResult: Result<int, E>)
      modifies this
      ensures PassAnswers(old(agents), agents, agentCalls, agentResult, (a: A) => pollAgent(a).Finished?,
                          AgentReport(pollAgent))
      ensures PassAnswers(old(cleanups), cleanups, cleanupCalls, cleanupResult, (c: C) => retry(c).Ok?,
                          CleanupReport(retry, pending))
      ensures result.Ok? <==> startup.Ok? && agentResult.Ok? && cleanupResult.Ok?
      ensures result.Ok? ==> result.value == startup.value + agentResult.value
      ensures result.Err? ==>
                result == if startup.Err? then startup else if agentResult.Err? then agentResult else cleanupResult
    {
      var polled, retried;
      polled, agentCalls := PollAgents(pollAgent);
      retried, cleanupCalls := PollCleanups(retry, pending);
      agentResult, cleanupResult := polled, retried;
      result := if startup.Err? then startup
                else if polled.Err? then polled
                else if retried.Err? then retried
                else Ok(startup.value + polled.value);
    }

    /** One round of a drain: every handle is tried once, and only those whose try failed come back. */
    method DrainRound(tryCleanup: C -> Result<(), E>, tryAgent: A -> Result<(), E>, readyAt: Attempt<A, C, E> -> nat)
      returns (finished: nat, firstError: Option<E>, ghost doneCleanups: seq<C>, ghost doneAgents: seq<A>)
      modifies this
      ensures multiset(cleanups) + multiset(doneCleanups) == multiset(old(cleanups))
      ensures multiset(agents) + multiset(doneAgents) == multiset(old(agents))
      ensures finished == |doneCleanups| + |doneAgents|
      ensures forall a :: a in agents ==> tryAgent(a).Err?
      ensures forall a :: a in doneAgents ==> tryAgent(a).Ok?
      ensures forall c :: c in cleanups ==> tryCleanup(c).Err?
      ensures forall c :: c in doneCleanups ==> tryCleanup(c).Ok?
      ensures firstError.None? ==> agents == [] && cleanups == []
      ensures firstError.Some? ==> ToldBy(agents, cleanups, tryAgent, tryCleanup, firstError.value)
    {
      var attempts := Attempts(cleanups, agents, tryCleanup, tryAgent);
      var joined, _ := Join(Mapped(attempts, At(readyAt)));
      FuturesKeepOutputs(attempts, readyAt);
      AttemptsOwnAll(cleanups, agents, tryCleanup, tryAgent);
      PickedIgnoresOrder(joined, attempts, AgentOf());
      PickedIgnoresOrder(joined, attempts, CleanupOf());
      forall x | x in joined
        ensures Honest(x, tryCleanup, tryAgent)
      {
        assert x in multiset(attempts);
        AttemptsAreHonest(cleanups, agents, tryCleanup, tryAgent, x);
      }
      finished, firstError, doneCleanups, doneAgents := Settle(joined);
      FirstFailureIsTold(joined, agents, cleanups, tryCleanup, tryAgent);
      EveryAttemptEnds(joined, AgentOf());
      EveryAttemptEnds(joined, CleanupOf());
      forall a | a in agents ensures tryAgent(a).Err? {
        var _ := EndedAsTried(joined, AgentOf(), false, tryCleanup, tryAgent, a);
      }
      forall a | a in doneAgents ensures tryAgent(a).Ok? {
        var _ := EndedAsTried(joined, AgentOf(), true, tryCleanup, tryAgent, a);
      }
      forall c | c in cleanups ensures tryCleanup(c).Err? {
        var _ := EndedAsTried(joined, CleanupOf(), false, tryCleanup, tryAgent, c);
      }
      forall c | c in doneCleanups ensures tryCleanup(c).Ok? {
        var _ := EndedAsTried(joined, CleanupOf(), true, tryCleanup, tryAgent, c);
      }
    }

    /** The loop over the joined attempts. */
    method Settle(joined: seq<Attempt<A, C, E>>)
      returns (finished: nat, firstError: Option<E>, ghost doneCleanups: seq<C>, ghost doneAgents: seq<A>)
      modifies this
      ensures Settled(joined, agents, cleanups, doneCleanups, doneAgents)
      ensures finished == |doneCleanups| + |doneAgents| && firstError == FirstFailure(joined)
      ensures firstError.None? ==> agents == [] && cleanups == []
    {
      agents, cleanups := [], [];
      finished, firstError, doneCleanups, doneAgents := 0, None, [], [];
      for k := 0 to |joined|
        invariant Settled(joined[..k], agents, cleanups, doneCleanups, doneAgents)
        invariant finished == |doneCleanups| + |doneAgents| && firstError == FirstFailure(joined[..k])
        invariant firstError.None? ==> agents == [] && cleanups == []
      {
        assert joined[..k + 1] == joined[..k] + [joined[k]];
        SettleOne(joined[..k], joined[k], true);
        SettleOne(joined[..k], joined[k], false);
        match joined[k] {
          case CleanupAttempt(cleanup, Ok(_)) =>
            doneCleanups := doneCleanups + [cleanup];
            finished := finished + 1;
          case CleanupAttempt(cleanup, Err(error)) =>
            cleanups := cleanups + [cleanup];
            if firstError.None? {
              firstError := Some(error);
            }
          case AgentAttempt(agent, Ok(_)) =>
            doneAgents := doneAgents + [agent];
            finished := finished + 1;
          case AgentAttempt(agent, Err(error)) =>
            agents := agents + [agent];
            if firstError.None? {
              firstError := Some(error);
            }
        }
      }
      assert joined[..|joined|] == joined;
    }

    /**
     The shutdown drain. In round `r` a try answers `tryAgent(r, ..)` or `tryCleanup(r, ..)`, the clock may fail
     before the round, and from round `deadline` on the deadline has passed. It goes on until nothing is left, the
     clock fails or the deadline has passed, and each handle is tried in every round until its try succeeds.
     */
    method Drain(tryCleanup: (nat, C) -> Result<(), E>, tryAgent: (nat, A) -> Result<(), E>,
                 readyAt: (nat, Attempt<A, C, E>) -> nat, clock: nat -> Option<E>, deadline: nat, timeout: E)
      returns (result: Result<nat, E>, ghost doneCleanups: seq<C>, ghost doneAgents: seq<A>, ghost rounds: nat)
      modifies this
      ensures Drained(old(agents), agents, doneAgents, tryAgent, rounds)
      ensures Drained(old(cleanups), cleanups, doneCleanups, tryCleanup, rounds)
      ensures forall r :: 0 <= r < rounds ==> clock(r).None?
      ensures result.Ok? <==> rounds > 0 && agents == [] && cleanups == []
      ensures result.Ok? ==> result.value == |old(agents)| + |old(cleanups)|
      ensures result.Ok? && rounds > 1 ==>
                LastsTill(doneAgents, tryAgent, rounds - 1) || LastsTill(doneCleanups, tryCleanup, rounds - 1)
      ensures result.Err? ==>
                || (rounds <= deadline && clock(rounds) == Some(result.error))
                || (rounds == deadline + 1 && ToldBy(agents, cleanups, InRound(tryAgent, deadline),
                                                     InRound(tryCleanup, deadline), result.error))
    {
      var finished, round := 0, 0;
      doneCleanups, doneAgents, rounds := [], [], 0;
      while true
        invariant Drained(old(agents), agents, doneAgents, tryAgent, round)
        invariant Drained(old(cleanups), cleanups, doneCleanups, tryCleanup, round)
        invariant forall r :: 0 <= r < round ==> clock(r).None?
        invariant finished == |doneCleanups| + |doneAgents| && rounds == round <= deadline
        invariant round > 0 ==> agents != [] || cleanups != []
        decreases deadline - round
      {
        if clock(round).Some? {
          return Err(clock(round).value), doneCleanups, doneAgents, rounds;
        }
        ghost var agentsBefore, cleanupsBefore := agents, cleanups;
        var count, firstError;
        ghost var cs, ags;
        count, firstError, cs, ags := DrainRound(InRound(tryCleanup, round), InRound(tryAgent, round),
                                                 (x: Attempt<A, C, E>) => readyAt(round, x));
        DrainedOnce(old(agents), agentsBefore, doneAgents, agents, ags, tryAgent, round);
        DrainedOnce(old(cleanups), cleanupsBefore, doneCleanups, cleanups, cs, tryCleanup, round);
        finished, rounds := finished + count, round + 1;
        doneCleanups, doneAgents := doneCleanups + cs, doneAgents + ags;
        if cleanups == [] && agents == [] {
          return Ok(finished), doneCleanups, doneAgents, rounds;
        }
        if round == deadline {
          return Err(if firstError.Some? then firstError.value else timeout), doneCleanups, doneAgents, rounds;
        }
        round := round + 1;
      }
    }
  }

  function InRound<H, E>(attempt: (nat, H) -> Result<(), E>, round: nat): H -> Result<(), E> {
    (h: H) => attempt(round, h)
  }

  /** Every one of the first tries fails. */
  ghost predicate FailsIn<H, E>(attempt: (nat, H) -> Result<(), E>, h: H, rounds: nat) {
    forall r: nat :: r < rounds ==> attempt(r, h).Err?
  }

  /**
   The handles that are left and those that are done are the ones there were; the former have failed in all the
   rounds so far, and the latter have not.
   */
  ghost predicate Drained<H, E>(before: seq<H>, left: seq<H>, done: seq<H>, attempt: (nat, H) -> Result<(), E>,
                                rounds: nat) {
    && multiset(left) + multiset(done) == multiset(before)
    && (forall h :: h in left ==> FailsIn(attempt, h, rounds))
    && (forall h :: h in done ==> !FailsIn(attempt, h, rounds))
  }

  /** One of the handles that are done has failed in all these rounds. */
  ghost predicate LastsTill<H, E>(done: seq<H>, attempt: (nat, H) -> Result<(), E>, rounds: nat) {
    exists h :: h in done && FailsIn(attempt, h, rounds)
  }

  lemma FailsOnceMore<H, E>(attempt: (nat, H) -> Result<(), E>, h: H, round: nat)
    ensures FailsIn(attempt, h, round + 1) <==> FailsIn(attempt, h, round) && attempt(round, h).Err?
  {
  }

  lemma DrainedOnce<H, E>(all: seq<H>, before: seq<H>, done: seq<H>, left: seq<H>, ended: seq<H>,
                          attempt: (nat, H) -> Result<(), E>, round: nat)
    requires Drained(all, before, done, attempt, round)
    requires multiset(left) + multiset(ended) == multiset(before)
    requires forall h :: h in left ==> InRound(attempt, round)(h).Err?
    requires forall h :: h in ended ==> InRound(attempt, round)(h).Ok?
    ensures Drained(all, left, done + ended, attempt, round + 1)
    ensures before != [] && left == [] ==> LastsTill(done + ended, attempt, round)
    ensures left == [] ==> |done + ended| == |all|
  {
    forall h | h in left
      ensures FailsIn(attempt, h, round + 1)
    {
      assert h in multiset(before);
      FailsOnceMore(attempt, h, round);
    }
    forall h | h in done + ended
      ensures !FailsIn(attempt, h, round + 1)
    {
      FailsOnceMore(attempt, h, round);
    }
    assert multiset(done + ended) == multiset(done) + multiset(ended);
    if left == [] {
      NothingLeft(all, done + ended);
      if before != [] {
        assert before[0] in multiset(before);
        assert before[0] in done + ended && FailsIn(attempt, before[0], round);
      }
    }
  }

  lemma NothingLeft<H>(before: seq<H>, done: seq<H>)
    requires multiset(done) == multiset(before)
    ensures |done| == |before|
  {
    assert |multiset(done)| == |done| && |multiset(before)| == |before|;
  }
}
