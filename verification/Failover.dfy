/** Bounded ordered failover of supervisor attempts: only a format-invalid
    result leads on, along a route whose authorization is consumed before the
    next dispatch. Every outside party is an arbitrary oracle. */
module Failover {
  import opened Prelude

  type Digest = nat

  /** A request with the profile of the adapter it is paired with. */
  datatype Request = Request(id: Digest, logical: nat, physical: nat, profile: nat, context: nat, adapterProfile: nat)

  datatype Diagnostic = Syntax | Shape | OtherDiagnostic

  datatype Result = Accepted | Blocked | Uncertain | Invalid(diagnostic: Diagnostic)

  predicate FormatInvalid(r: Result) {
    r.Invalid? && !r.diagnostic.OtherDiagnostic?
  }

  datatype Authorization = Authorization(source: Digest, target: Digest, preparable: bool)

  /** How the outside behaves around one request: `authorize` is the route that
      leads to it, and `None` or false is a raised error. */
  datatype Surroundings = Surroundings(
    authorize: Option<Authorization>,
    reserves: bool,
    consumes: bool,
    checkpointsDispatch: bool,
    dispatch: Option<Result>,
    checkpointsResult: bool)

  type World = nat -> Surroundings

  datatype Action = Consumed(index: nat) | Dispatched(index: nat)

  datatype Outcome = Raised | Returned(result: Option<Result>, attempted: seq<nat>, exhausted: bool)

  datatype Run = Run(outcome: Outcome, trace: seq<Action>)

  /** The coordinates that the next request must have. */
  datatype Expected = Expected(logical: nat, physical: nat, profile: Option<nat>)

  const FirstExpected := Expected(1, 0, None)

  /** `require_next`. */
  function RequireNext(e: Expected, r: Request, context: nat): Option<Expected> {
    if r.logical != e.logical || r.physical != e.physical || r.profile != r.adapterProfile
        || r.context != context then None
    else if e.profile.Some? && e.physical != 0 && r.profile != e.profile.value then None
    else if e.physical == 2 then Some(Expected(e.logical + 1, 0, None))
    else Some(Expected(e.logical, e.physical + 1, Some(r.profile)))
  }

  // ------------------------------------------------------------- specification

  /** Whether request `i` may be dispatched on this authorization. */
  predicate Admitted(requests: seq<Request>, world: World, i: nat, pending: Option<Authorization>)
    requires i < |requests|
  {
    && world(i).reserves
    && (pending.Some? ==>
        pending.value.target == requests[i].id && pending.value.source != requests[i].id && world(i).consumes)
  }

  function Actions(i: nat, pending: Option<Authorization>): seq<Action> {
    if pending.Some? then [Consumed(i)] else []
  }

  /** The route from request `i` to the next, as the running loop checks it. */
  predicate RouteValid(requests: seq<Request>, world: World, i: nat)
    requires i + 1 < |requests|
  {
    && world(i + 1).authorize.Some?
    && world(i + 1).authorize.value.source == requests[i].id
        && world(i + 1).authorize.value.target == requests[i + 1].id
    && world(i + 1).authorize.value.preparable
  }

  /** What one turn of the loop leads to, with the actions it took. */
  datatype Turn = Stop(outcome: Outcome, trace: seq<Action>)
      | Go(next: Expected, pending: Option<Authorization>, attempted: seq<nat>, trace: seq<Action>)

  function Attempt(requests: seq<Request>, world: World, i: nat, e: Expected, pending: Option<Authorization>,
          attempted: seq<nat>): Turn
    requires i < |requests|
  {
    var r, next := requests[i], RequireNext(e, requests[i], requests[0].context);
    if next.None? || !Admitted(requests, world, i, pending) then Stop(Raised, [])
    else if !world(i).checkpointsDispatch then Stop(Raised, Actions(i, pending))
    else
      var done, now := Actions(i, pending) + [Dispatched(i)], attempted + [r.profile];
      if world(i).dispatch.None? || !world(i).checkpointsResult then Stop(Raised, done)
      else if !FormatInvalid(world(i).dispatch.value) then
          Stop(Returned(Some(world(i).dispatch.value), now, false), done)
      else if r.physical == 2 then
          Stop(Returned(if i + 1 < |requests| then world(i).dispatch else None, now, true), done)
      else if i + 1 == |requests| then Go(next.value, None, now, done)
      else if !RouteValid(requests, world, i) then Stop(Raised, done)
      else Go(next.value, world(i + 1).authorize, now, done)
  }

  /** The loop from request `i` on. */
  function Loop(requests: seq<Request>, world: World, i: nat, e: Expected, pending: Option<Authorization>,
          attempted: seq<nat>): Run
    decreases |requests| - i
  {
    if i >= |requests| then Run(Returned(None, attempted, true), [])
    else
      match Attempt(requests, world, i, e, pending, attempted)
      case Stop(outcome, trace) => Run(outcome, trace)
      case Go(next, route, now, trace) =>
        var rest := Loop(requests, world, i + 1, next, route, now);
        Run(rest.outcome, trace + rest.trace)
  }

  /** The coordinates after the first `n` requests. */
  function After(requests: seq<Request>, n: nat): Option<Expected>
    requires n <= |requests|
  {
    if n == 0 then Some(FirstExpected)
    else
      var e := After(requests, n - 1);
      if e.None? then None else RequireNext(e.value, requests[n - 1], requests[0].context)
  }

  function Profiles(requests: seq<Request>, n: nat): seq<nat>
    requires n <= |requests|
  {
    if n == 0 then [] else Profiles(requests, n - 1) + [requests[n - 1].profile]
  }

  /** A call that resumes after `n` format-invalid results, the last of them `last`. */
  function Resume(requests: seq<Request>, world: World, n: nat, last: Result): Run {
    if requests == [] || n >= |requests| || (n > 0 && !FormatInvalid(last)) || After(requests, n).None? then
        Run(Raised, [])
    else if n == 0 then Loop(requests, world, 0, FirstExpected, None, [])
    else if requests[n - 1].physical == 2 then Run(Returned(Some(last), Profiles(requests, n), true), [])
    else if world(n).authorize.None? || !world(n).authorize.value.preparable then Run(Raised, [])
    else Loop(requests, world, n, After(requests, n).value, world(n).authorize, Profiles(requests, n))
  }

  // ----------------------------------------------------------------- the method

  method DispatchOrdered(requests: seq<Request>, world: World, n: nat, last: Result) returns (run: Run)
    ensures run == Resume(requests, world, n, last)
  {
    if requests == [] || n >= |requests| || (n > 0 && !FormatInvalid(last)) {
      return Run(Raised, []);
    }
    var expected, attempted: seq<nat> := FirstExpected, [];
    for i := 0 to n
      invariant After(requests, i) == Some(expected) && attempted == Profiles(requests, i)
    {
      var next := RequireNext(expected, requests[i], requests[0].context);
      if next.None? {
        AfterFails(requests, i + 1, n);
        return Run(Raised, []);
      }
      expected, attempted := next.value, attempted + [requests[i].profile];
    }
    var pending: Option<Authorization> := None;
    if n > 0 {
      if requests[n - 1].physical == 2 {
        return Run(Returned(Some(last), attempted, true), []);
      }
      pending := world(n).authorize;
      if pending.None? || !pending.value.preparable {
        return Run(Raised, []);
      }
    }
    run := Attempts(requests, world, n, expected, pending, attempted);
  }

  lemma {:induction false} AfterFails(requests: seq<Request>, m: nat, n: nat)
    requires m <= n <= |requests| && After(requests, m).None?
    ensures After(requests, n).None?
    decreases n
  {
    if m < n {
      AfterFails(requests, m, n - 1);
    }
  }

  method Attempts(requests: seq<Request>, world: World, start: nat, first: Expected,
          authorization: Option<Authorization>, before: seq<nat>)
    returns (run: Run)
    ensures run == Loop(requests, world, start, first, authorization, before)
  {
    var i, expected, pending, attempted, trace: seq<Action> := start, first, authorization, before, [];
    while i < |requests|
      invariant var whole, rest := Loop(requests, world, start, first, authorization, before),
          Loop(requests, world, i, expected, pending, attempted);
        whole == Run(rest.outcome, trace + rest.trace)
    {
      var turn := OneAttempt(requests, world, i, expected, pending, attempted);
      if turn.Stop? {
        return Run(turn.outcome, trace + turn.trace);
      }
      ghost var rest := Loop(requests, world, i + 1, turn.next, turn.pending, turn.attempted);
      assert trace + (turn.trace + rest.trace) == (trace + turn.trace) + rest.trace;
      i, expected, pending, attempted, trace := i + 1, turn.next, turn.pending, turn.attempted, trace + turn.trace;
    }
    assert trace + [] == trace;
    run := Run(Returned(None, attempted, true), trace);
  }

  method OneAttempt(requests: seq<Request>, world: World, i: nat, e: Expected, pending: Option<Authorization>,
          attempted: seq<nat>)
    returns (turn: Turn)
    requires i < |requests|
    ensures turn == Attempt(requests, world, i, e, pending, attempted)
  {
    var r, trace: seq<Action> := requests[i], [];
    var next := RequireNext(e, r, requests[0].context);
    if next.None? {
      return Stop(Raised, trace);
    }
    var now := attempted + [r.profile];
    if !world(i).reserves {
      return Stop(Raised, trace);
    }
    if pending.Some? {
      if pending.value.target != r.id || pending.value.source == r.id || !world(i).consumes {
        return Stop(Raised, trace);
      }
      trace := [Consumed(i)];
    }
    if !world(i).checkpointsDispatch {
      return Stop(Raised, trace);
    }
    trace := trace + [Dispatched(i)];
    if world(i).dispatch.None? || !world(i).checkpointsResult {
      return Stop(Raised, trace);
    }
    var result := world(i).dispatch.value;
    if !FormatInvalid(result) {
      return Stop(Returned(Some(result), now, false), trace);
    }
    if r.physical == 2 {
      return Stop(Returned(if i + 1 < |requests| then Some(result) else None, now, true), trace);
    }
    var route: Option<Authorization> := None;
    if i + 1 < |requests| {
      if !RouteValid(requests, world, i) {
        return Stop(Raised, trace);
      }
      route := world(i + 1).authorize;
    }
    turn := Go(next.value, route, now, trace);
  }

  // ------------------------------------------------------------------ the bound

  /** The coordinates expected at index `i` of the one logical position. */
  predicate AtIndex(e: Expected, i: nat, profile: nat) {
    i <= 2 && e.logical == 1 && e.physical == i && (i > 0 ==> e.profile == Some(profile))
  }

  function Indices(trace: seq<Action>): seq<nat> {
    if trace == [] then [] else (if trace[0].Dispatched? then [trace[0].index] else []) + Indices(trace[1..])
  }

  function From(n: nat, count: nat): seq<nat> {
    seq(count, i => n + i)
  }

  /** Every dispatch but the very first comes right after its authorization is consumed. */
  ghost predicate Authorized(trace: seq<Action>) {
    forall p :: 0 <= p < |trace| ==> AuthorizedAt(trace, p)
  }

  ghost predicate AuthorizedAt(trace: seq<Action>, p: nat)
    requires p < |trace|
  {
    trace[p].Dispatched? && trace[p].index > 0 ==> p > 0 && trace[p - 1] == Consumed(trace[p].index)
  }

  /** Dispatches go to coordinates (1, index), all on the profile of the first request. */
  ghost predicate Placed(requests: seq<Request>, trace: seq<Action>) {
    forall p :: 0 <= p < |trace| && trace[p].Dispatched? ==>
      && trace[p].index < |requests|
      && var r := requests[trace[p].index];
      r.logical == 1 && r.physical == trace[p].index && r.profile == requests[0].profile
  }

  /** `count` dispatches at consecutive indices from `n`, each authorized and in its place. */
  ghost predicate Ordered(requests: seq<Request>, trace: seq<Action>, n: nat, count: nat) {
    Indices(trace) == From(n, count) && Authorized(trace) && Placed(requests, trace)
  }

  lemma {:induction false} IndicesOfConcat(a: seq<Action>, b: seq<Action>)
    ensures Indices(a + b) == Indices(a) + Indices(b)
  {
    if a == [] {
      assert a + b == b;
    } else {
      var head := if a[0].Dispatched? then [a[0].index] else [];
      IndicesOfConcat(a[1..], b);
      assert (a + b)[1..] == a[1..] + b;
      assert Indices(a + b) == head + Indices(a[1..] + b);
      assert head + (Indices(a[1..]) + Indices(b)) == (head + Indices(a[1..])) + Indices(b);
    }
  }

  lemma OrderedConcat(requests: seq<Request>, a: seq<Action>, b: seq<Action>, n: nat, c: nat, d: nat)
    requires Ordered(requests, a, n, c) && Ordered(requests, b, n + c, d)
    ensures Ordered(requests, a + b, n, c + d)
  {
    IndicesOfConcat(a, b);
    assert From(n, c + d) == From(n, c) + From(n + c, d);
    var trace := a + b;
    forall p | 0 <= p < |trace| ensures AuthorizedAt(trace, p) {
      if p >= |a| {
        assert AuthorizedAt(b, p - |a|);
      } else {
        assert AuthorizedAt(a, p);
      }
    }
  }

  lemma TurnIsOrdered(requests: seq<Request>, i: nat, pending: Option<Authorization>)
    requires i < |requests| && requests[i].logical == 1 && requests[i].physical == i
    requires requests[i].profile == requests[0].profile
    requires i > 0 ==> pending.Some?
    ensures Ordered(requests, Actions(i, pending) + [Dispatched(i)], i, 1)
    ensures Ordered(requests, Actions(i, pending), i, 0)
  {
    var trace := Actions(i, pending) + [Dispatched(i)];
    IndicesOfConcat(Actions(i, pending), [Dispatched(i)]);
    assert Indices([Dispatched(i)]) == [i] == From(i, 1);
    assert Indices(Actions(i, pending)) == [] == From(i, 0);
  }

  /** One turn of the loop dispatches at most once, at its own index. */
  lemma AttemptIsOrdered(requests: seq<Request>, world: World, i: nat, e: Expected, pending: Option<Authorization>,
          attempted: seq<nat>)
    returns (count: nat)
    requires i < |requests| && AtIndex(e, i, requests[0].profile) && (i > 0 ==> pending.Some?)
    ensures var turn := Attempt(requests, world, i, e, pending, attempted);
      && count <= 1 && Ordered(requests, turn.trace, i, count)
      && (turn.Go? ==>
          count == 1 && i < 2 && AtIndex(turn.next, i + 1, requests[0].profile)
          && (i + 1 < |requests| ==> turn.pending.Some?))
  {
    count := 0;
    assert Indices([]) == From(i, 0);
    if RequireNext(e, requests[i], requests[0].context).Some? {
      TurnIsOrdered(requests, i, pending);
      count := if Admitted(requests, world, i, pending) && world(i).checkpointsDispatch then 1 else 0;
    }
  }

  /** From index `i` at most `3 - i` dispatches follow, in order. */
  lemma {:induction false} LoopIsBounded(requests: seq<Request>, world: World, i: nat, e: Expected,
          pending: Option<Authorization>, attempted: seq<nat>)
    returns (count: nat)
    requires i < |requests| && AtIndex(e, i, requests[0].profile) && (i > 0 ==> pending.Some?)
    ensures count <= 3 - i && Ordered(requests, Loop(requests, world, i, e, pending, attempted).trace, i, count)
    decreases |requests| - i
  {
    var turn := Attempt(requests, world, i, e, pending, attempted);
    count := AttemptIsOrdered(requests, world, i, e, pending, attempted);
    if turn.Go? {
      if i + 1 < |requests| {
        var more := LoopIsBounded(requests, world, i + 1, turn.next, turn.pending, turn.attempted);
        OrderedConcat(requests, turn.trace,
            Loop(requests, world, i + 1, turn.next, turn.pending, turn.attempted).trace, i, 1, more);
        count := 1 + more;
      } else {
        assert turn.trace + [] == turn.trace;
      }
    }
  }

  lemma {:induction false} AfterAt(requests: seq<Request>, n: nat)
    requires n <= |requests| && n <= 2 && After(requests, n).Some?
    ensures AtIndex(After(requests, n).value, n, if requests == [] then 0 else requests[0].profile)
  {
    if n > 0 {
      AfterAt(requests, n - 1);
    }
  }

  /** One call that resumes after `n` results: at most `3 - n` dispatches. */
  lemma ResumeIsBounded(requests: seq<Request>, world: World, n: nat, last: Result) returns (count: nat)
    requires n <= 3
    ensures count <= 3 - n && Ordered(requests, Resume(requests, world, n, last).trace, n, count)
  {
    count := 0;
    assert Indices([]) == From(n, 0);
    if requests != [] && n < |requests| && After(requests, n).Some? {
      if n == 3 {
        AfterAt(requests, 2);
      } else {
        AfterAt(requests, n);
        if (n == 0 || FormatInvalid(last))
            && (n == 0 || (requests[n - 1].physical != 2 && world(n).authorize.Some?
            && world(n).authorize.value.preparable))
        {
          count := LoopIsBounded(requests, world, n, After(requests, n).value,
              if n == 0 then None else world(n).authorize, Profiles(requests, n));
        }
      }
    }
  }

  // ------------------------------------------------------------- whole histories

  /** A call of the failover: how its surroundings behave, how many format-invalid
      results it is told of and the last of them, and the dispatch claims that other
      processes, or a checkpoint that raised after its write, leave behind. */
  datatype Call = Call(world: World, results: nat, last: Result, claims: set<nat>)

  /** The surroundings under the one-shot claims: the checkpoint before a dispatch
      inserts the claim of its attempt, and raises when there is one. */
  function Guard(world: World, claimed: set<nat>, oneShot: bool): World {
    (i: nat) => world(i).(checkpointsDispatch := world(i).checkpointsDispatch && (oneShot ==> i !in claimed))
  }

  ghost function RunOf(requests: seq<Request>, call: Call, claimed: set<nat>, oneShot: bool): Run {
    Resume(requests, Guard(call.world, claimed, oneShot), call.results, call.last)
  }

  ghost function ClaimedAfter(requests: seq<Request>, call: Call, claimed: set<nat>, oneShot: bool): set<nat> {
    claimed + Elements(Indices(RunOf(requests, call, claimed, oneShot).trace)) + call.claims
  }

  /** The trace of a call and of all calls after it, whatever became of each. */
  ghost function History(requests: seq<Request>, calls: seq<Call>, claimed: set<nat>, oneShot: bool): seq<Action> {
    if calls == [] then []
    else
      RunOf(requests, calls[0], claimed, oneShot).trace
      + History(requests, calls[1..], ClaimedAfter(requests, calls[0], claimed, oneShot), oneShot)
  }

  /** No call is told of more results than there were dispatches before it. In
      particular a call may follow any error, told of the results so far. */
  ghost predicate Truthful(requests: seq<Request>, calls: seq<Call>, claimed: set<nat>, oneShot: bool, done: nat) {
    calls != [] ==>
      && calls[0].results <= done
      && Truthful(requests, calls[1..], ClaimedAfter(requests, calls[0], claimed, oneShot), oneShot,
            done + |Indices(RunOf(requests, calls[0], claimed, oneShot).trace)|)
  }

  /** A call whose first attempt is claimed already dispatches nothing. */
  lemma ClaimStops(requests: seq<Request>, world: World, n: nat, last: Result, done: nat)
    requires n < |requests| && !world(n).checkpointsDispatch
    ensures Ordered(requests, Resume(requests, world, n, last).trace, done, 0)
  {
    assert Indices([]) == From(done, 0) && Indices([Consumed(n)]) == [] + Indices([]);
  }

  lemma NothingIsOrdered(requests: seq<Request>, n: nat)
    ensures Ordered(requests, [], n, 0)
  {
    assert Indices([]) == From(n, 0);
  }

  lemma FromElements(n: nat, count: nat)
    ensures forall i :: n <= i < n + count ==> i in Elements(From(n, count))
  {
    forall i | n <= i < n + count ensures i in Elements(From(n, count)) {
      assert From(n, count)[i - n] == i;
    }
  }

  /** One call after `done` dispatches goes on from there or dispatches nothing. */
  lemma CallIsBounded(requests: seq<Request>, call: Call, claimed: set<nat>, done: nat) returns (count: nat)
    requires done <= 3 && call.results <= done
    requires forall i :: 0 <= i < done ==> i in claimed
    ensures count <= 3 - done && Ordered(requests, RunOf(requests, call, claimed, true).trace, done, count)
    ensures forall i :: 0 <= i < done + count ==> i in ClaimedAfter(requests, call, claimed, true)
  {
    var world := Guard(call.world, claimed, true);
    if call.results == done {
      count := ResumeIsBounded(requests, world, done, call.last);
    } else if call.results < |requests| {
      ClaimStops(requests, world, call.results, call.last, done);
      count := 0;
    } else {
      NothingIsOrdered(requests, done);
      count := 0;
    }
    FromElements(done, count);
  }

  lemma {:induction false} HistoryIsBounded(requests: seq<Request>, calls: seq<Call>, claimed: set<nat>, done: nat)
    returns (count: nat, trace: seq<Action>)
    requires done <= 3 && Truthful(requests, calls, claimed, true, done)
    requires forall i :: 0 <= i < done ==> i in claimed
    ensures trace == History(requests, calls, claimed, true)
    ensures count <= 3 - done && Ordered(requests, trace, done, count)
    decreases |calls|
  {
    if calls == [] {
      NothingIsOrdered(requests, done);
      return 0, [];
    }
    var first, head, claimed' := FirstCallIsBounded(requests, calls, claimed, done);
    var more, rest := HistoryIsBounded(requests, calls[1..], claimed', done + first);
    OrderedConcat(requests, head, rest, done, first, more);
    count, trace := first + more, head + rest;
  }

  lemma FirstCallIsBounded(requests: seq<Request>, calls: seq<Call>, claimed: set<nat>, done: nat)
    returns (count: nat, trace: seq<Action>, claimed': set<nat>)
    requires done <= 3 && calls != [] && Truthful(requests, calls, claimed, true, done)
    requires forall i :: 0 <= i < done ==> i in claimed
    ensures count <= 3 - done && Ordered(requests, trace, done, count)
    ensures forall i :: 0 <= i < done + count ==> i in claimed'
    ensures Truthful(requests, calls[1..], claimed', true, done + count)
    ensures History(requests, calls, claimed, true) == trace + History(requests, calls[1..], claimed', true)
  {
    count := CallIsBounded(requests, calls[0], claimed, done);
    trace, claimed' := RunOf(requests, calls[0], claimed, true).trace, ClaimedAfter(requests, calls[0], claimed, true);
    assert |Indices(trace)| == count;
  }

  /** Over a call and all calls after it, each told of no more results than there
      were dispatches, one-shot claims leave at most three dispatches, at (1, 0),
      (1, 1), (1, 2) on one profile, each once, each after the first only right
      after its authorization is consumed. */
  lemma AtMostThreeDispatches(requests: seq<Request>, calls: seq<Call>)
    requires Truthful(requests, calls, {}, true, 0)
    ensures var trace := History(requests, calls, {}, true);
      && |Indices(trace)| <= 3 && Indices(trace) == From(0, |Indices(trace)|)
      && Authorized(trace) && Placed(requests, trace)
  {
    var count, _ := HistoryIsBounded(requests, calls, {}, 0);
  }

  // ------------------------------------------------------- what the claims are for

  /** Every dispatch of the loop is at an index from `i` on whose claim was granted,
      at each at most once. */
  ghost predicate Granted(world: World, indices: seq<nat>, i: nat) {
    && (forall k :: 0 <= k < |indices| ==> indices[k] >= i && world(indices[k]).checkpointsDispatch)
    && Distinct(indices)
  }

  lemma {:induction false} LoopIsGranted(requests: seq<Request>, world: World, i: nat, e: Expected,
          pending: Option<Authorization>, attempted: seq<nat>)
    ensures Granted(world, Indices(Loop(requests, world, i, e, pending, attempted).trace), i)
    decreases |requests| - i
  {
    if i < |requests| {
      var turn := Attempt(requests, world, i, e, pending, attempted);
      AttemptIsGranted(requests, world, i, e, pending, attempted);
      if turn.Go? {
        var rest := Loop(requests, world, i + 1, turn.next, turn.pending, turn.attempted).trace;
        LoopIsGranted(requests, world, i + 1, turn.next, turn.pending, turn.attempted);
        GrantedConcat(world, i, turn.trace, rest);
      }
    }
  }

  lemma GrantedConcat(world: World, i: nat, a: seq<Action>, b: seq<Action>)
    requires Indices(a) == [] || (Indices(a) == [i] && world(i).checkpointsDispatch)
    requires Granted(world, Indices(b), i + 1)
    ensures Granted(world, Indices(a + b), i)
  {
    IndicesOfConcat(a, b);
  }

  lemma AttemptIsGranted(requests: seq<Request>, world: World, i: nat, e: Expected, pending: Option<Authorization>,
          attempted: seq<nat>)
    requires i < |requests|
    ensures var indices := Indices(Attempt(requests, world, i, e, pending, attempted).trace);
      indices == [] || (indices == [i] && world(i).checkpointsDispatch)
  {
    IndicesOfConcat(Actions(i, pending), [Dispatched(i)]);
    assert Indices([]) == [] && Indices([Consumed(i)]) == [] + Indices([])
        && Indices([Dispatched(i)]) == [i] + Indices([]);
  }

  lemma CallIsGranted(requests: seq<Request>, call: Call, claimed: set<nat>)
    ensures var indices := Indices(RunOf(requests, call, claimed, true).trace);
      Distinct(indices) && forall k :: 0 <= k < |indices| ==> indices[k] !in claimed
  {
    var world, n := Guard(call.world, claimed, true), call.results;
    assert Indices([]) == [];
    if n < |requests| && After(requests, n).Some? {
      LoopIsGranted(requests, world, n, After(requests, n).value, if n == 0 then None else world(n).authorize,
          Profiles(requests, n));
    }
  }

  /** With one-shot claims no request is dispatched twice, whatever the calls are told. */
  lemma {:induction false} NoRequestTwice(requests: seq<Request>, calls: seq<Call>, claimed: set<nat>)
    ensures var indices := Indices(History(requests, calls, claimed, true));
      Distinct(indices) && forall k :: 0 <= k < |indices| ==> indices[k] !in claimed
    decreases |calls|
  {
    if calls != [] {
      var claimed' := ClaimedAfter(requests, calls[0], claimed, true);
      CallIsGranted(requests, calls[0], claimed);
      NoRequestTwice(requests, calls[1..], claimed');
      var a, b := RunOf(requests, calls[0], claimed, true).trace, History(requests, calls[1..], claimed', true);
      IndicesOfConcat(a, b);
      DistinctConcat(Indices(a), Indices(b));
    }
  }

  lemma DistinctConcat(a: seq<nat>, b: seq<nat>)
    requires Distinct(a) && Distinct(b) && forall k :: 0 <= k < |b| ==> b[k] !in Elements(a)
    ensures Distinct(a + b)
  {
    forall i, j | 0 <= i < j < |a + b| ensures (a + b)[i] != (a + b)[j] {
      if i < |a| <= j {
        assert a[i] in Elements(a);
      }
    }
  }

  /** Without them a request whose dispatch raises is dispatched as often as it is
      resumed, although every call is told the truth. */
  lemma WithoutClaimsUnbounded(k: nat) returns (requests: seq<Request>, calls: seq<Call>)
    ensures |calls| == k && forall claimed, done ::
      Truthful(requests, calls, claimed, false, done)
          && Indices(History(requests, calls, claimed, false)) == seq(k, _ => 0)
  {
    var world: World := i => Surroundings(None, true, true, true, None, true);
    requests := [Request(1, 1, 0, 5, 9, 5)];
    calls := seq(k, _ => Call(world, 0, Accepted, {}));
    RaisedAgain(requests, world, calls);
  }

  lemma {:induction false} RaisedAgain(requests: seq<Request>, world: World, calls: seq<Call>)
    requires requests == [Request(1, 1, 0, 5, 9, 5)] && world(0) == Surroundings(None, true, true, true, None, true)
    requires forall j :: 0 <= j < |calls| ==> calls[j] == Call(world, 0, Accepted, {})
    ensures forall claimed, done ::
      && Truthful(requests, calls, claimed, false, done)
      && Indices(History(requests, calls, claimed, false)) == seq(|calls|, _ => 0)
    decreases |calls|
  {
    if calls != [] {
      RaisedAgain(requests, world, calls[1..]);
    }
    forall claimed, done ensures
      && Truthful(requests, calls, claimed, false, done)
      && Indices(History(requests, calls, claimed, false)) == seq(|calls|, _ => 0)
    {
      if calls != [] {
        RaisedOnce(requests, calls[0], claimed);
        var claimed' := ClaimedAfter(requests, calls[0], claimed, false);
        IndicesOfConcat([Dispatched(0)], History(requests, calls[1..], claimed', false));
      }
    }
  }

  lemma RaisedOnce(requests: seq<Request>, call: Call, claimed: set<nat>)
    requires requests == [Request(1, 1, 0, 5, 9, 5)] && call.results == 0
    requires call.world(0) == Surroundings(None, true, true, true, None, true)
    ensures RunOf(requests, call, claimed, false).trace == [Dispatched(0)] && Indices([Dispatched(0)]) == [0]
  {
    assert Indices([]) == [] && Indices([Dispatched(0)]) == [0] + Indices([]);
  }

  // ------------------------------------------------------------------ resumption

  /** The loop gets from index `i` to index `n` on format-invalid results alone. */
  ghost predicate Reaches(requests: seq<Request>, world: World, i: nat, n: nat) {
    && n <= |requests|
    && forall k :: i <= k < n ==> Passes(requests, world, k)
  }

  /** Request `k` is admitted, dispatched, and its format-invalid result recorded. */
  ghost predicate Passes(requests: seq<Request>, world: World, k: nat) {
    && k < |requests|
    && (k > 0 ==> RouteValid(requests, world, k - 1))
    && Admitted(requests, world, k, if k == 0 then None else world(k).authorize)
    && world(k).checkpointsDispatch && world(k).dispatch.Some? && world(k).checkpointsResult
        && FormatInvalid(world(k).dispatch.value)
  }

  /** What the loop has done by index `k`. */
  function TraceTo(k: nat): seq<Action> {
    if k == 0 then []
    else TraceTo(k - 1) + Actions(k - 1, if k == 1 then None else Some(Authorization(0, 0, true))) + [Dispatched(k - 1)]
  }

  /** The state in which the uninterrupted loop arrives at index `k`. */
  function LoopAt(requests: seq<Request>, world: World, k: nat): Run
    requires k < |requests| && After(requests, k).Some?
  {
    Loop(requests, world, k, After(requests, k).value, if k == 0 then None else world(k).authorize,
        Profiles(requests, k))
  }

  /** One turn of the uninterrupted loop, from an index it passes to the next. */
  lemma LoopPasses(requests: seq<Request>, world: World, k: nat)
    requires k + 1 < |requests| && Passes(requests, world, k) && After(requests, k + 1).Some?
    requires requests[k].physical != 2 && RouteValid(requests, world, k)
    ensures LoopAt(requests, world, k).outcome == LoopAt(requests, world, k + 1).outcome
    ensures TraceTo(k) + LoopAt(requests, world, k).trace == TraceTo(k + 1) + LoopAt(requests, world, k + 1).trace
  {
    var pending := if k == 0 then None else world(k).authorize;
    var done, rest := Actions(k, pending) + [Dispatched(k)], LoopAt(requests, world, k + 1).trace;
    LoopUnfolds(requests, world, k, pending, done);
    TraceGrows(k, pending);
    Regroup(TraceTo(k), TraceTo(k + 1), done, rest);
  }

  lemma Regroup(t: seq<Action>, t': seq<Action>, done: seq<Action>, rest: seq<Action>)
    requires t' == t + done
    ensures t + (done + rest) == t' + rest
  {
  }

  lemma LoopUnfolds(requests: seq<Request>, world: World, k: nat, pending: Option<Authorization>, done: seq<Action>)
    requires k + 1 < |requests| && Passes(requests, world, k) && After(requests, k + 1).Some?
    requires requests[k].physical != 2 && RouteValid(requests, world, k)
    requires pending == (if k == 0 then None else world(k).authorize) && done == Actions(k, pending) + [Dispatched(k)]
    ensures LoopAt(requests, world, k)
        == Run(LoopAt(requests, world, k + 1).outcome, done + LoopAt(requests, world, k + 1).trace)
  {
    AttemptPasses(requests, world, k, pending, done);
  }

  lemma TraceGrows(k: nat, pending: Option<Authorization>)
    requires pending.Some? <==> k > 0
    ensures TraceTo(k + 1) == TraceTo(k) + (Actions(k, pending) + [Dispatched(k)])
  {
  }

  lemma AttemptPasses(requests: seq<Request>, world: World, k: nat, pending: Option<Authorization>, done: seq<Action>)
    requires k + 1 < |requests| && Passes(requests, world, k) && After(requests, k + 1).Some?
    requires requests[k].physical != 2 && RouteValid(requests, world, k)
    requires pending == (if k == 0 then None else world(k).authorize) && done == Actions(k, pending) + [Dispatched(k)]
    ensures Attempt(requests, world, k, After(requests, k).value, pending, Profiles(requests, k))
         == Go(After(requests, k + 1).value, world(k + 1).authorize, Profiles(requests, k + 1), done)
  {
  }

  /** The uninterrupted run is what it did before index `k`, then the loop from `k`. */
  lemma {:induction false} RunReaches(requests: seq<Request>, world: World, k: nat)
    requires k < |requests| && Reaches(requests, world, 0, k) && After(requests, k).Some?
    requires (forall j :: 0 <= j < k ==> requests[j].physical != 2) && (k > 0 ==> RouteValid(requests, world, k - 1))
    ensures var whole := Resume(requests, world, 0, Accepted);
      whole.outcome == LoopAt(requests, world, k).outcome
          && whole.trace == TraceTo(k) + LoopAt(requests, world, k).trace
    decreases k
  {
    if k > 0 {
      assert Passes(requests, world, k - 1);
      RunReaches(requests, world, k - 1);
      LoopPasses(requests, world, k - 1);
    } else {
      assert TraceTo(0) + LoopAt(requests, world, 0).trace == LoopAt(requests, world, 0).trace;
    }
  }

  /** The route to index `n`, if it is needed and there is one, names request `n - 1`. */
  predicate SourceNamed(requests: seq<Request>, world: World, n: nat)
    requires 0 < n <= |requests|
  {
    requests[n - 1].physical == 2 || world(n).authorize.None? || world(n).authorize.value.source == requests[n - 1].id
  }

  /** With a route that names its source, the resumed call ends as the whole run
      does and does exactly the rest of it; otherwise the whole run ends in an
      error without another action. */
  ghost predicate Agrees(requests: seq<Request>, world: World, n: nat, whole: Run, resumed: Run)
    requires 0 < n <= |requests|
  {
    && (SourceNamed(requests, world, n) ==>
        whole.outcome == resumed.outcome && whole.trace == TraceTo(n) + resumed.trace)
    && (!SourceNamed(requests, world, n) ==> whole.outcome.Raised? && whole.trace == TraceTo(n))
  }

  /** Resuming after `n` format-invalid results ends as the uninterrupted run does,
      and does exactly the rest of it, provided that the route names its source:
      the resuming call does not check that, the running loop does. */
  lemma ResumeAgrees(requests: seq<Request>, world: World, n: nat, last: Result)
    requires 0 < n < |requests| && Reaches(requests, world, 0, n) && After(requests, n).Some?
    requires world(n - 1).dispatch == Some(last)
    requires forall j :: 0 <= j < n - 1 ==> requests[j].physical != 2
    ensures Agrees(requests, world, n, Resume(requests, world, 0, Accepted), Resume(requests, world, n, last))
  {
    if requests[n - 1].physical != 2 && RouteValid(requests, world, n - 1) {
      ResumeFollows(requests, world, n, last);
    } else {
      ResumeStops(requests, world, n, last);
    }
  }

  lemma ResumeFollows(requests: seq<Request>, world: World, n: nat, last: Result)
    requires 0 < n < |requests| && Reaches(requests, world, 0, n) && After(requests, n).Some?
    requires world(n - 1).dispatch == Some(last) && forall j :: 0 <= j < n ==> requests[j].physical != 2
    requires RouteValid(requests, world, n - 1)
    ensures Agrees(requests, world, n, Resume(requests, world, 0, Accepted), Resume(requests, world, n, last))
  {
    assert Passes(requests, world, n - 1);
    RunReaches(requests, world, n);
    ResumedRun(requests, world, n, last);
  }

  lemma ResumeStops(requests: seq<Request>, world: World, n: nat, last: Result)
    requires 0 < n < |requests| && Reaches(requests, world, 0, n) && After(requests, n).Some?
    requires world(n - 1).dispatch == Some(last) && forall j :: 0 <= j < n - 1 ==> requests[j].physical != 2
    requires requests[n - 1].physical == 2 || !RouteValid(requests, world, n - 1)
    ensures Agrees(requests, world, n, Resume(requests, world, 0, Accepted), Resume(requests, world, n, last))
  {
    WholeStops(requests, world, n, last);
    ResumedRun(requests, world, n, last);
    Stopped(requests, world, n, last, Resume(requests, world, 0, Accepted), Resume(requests, world, n, last));
  }

  lemma WholeStops(requests: seq<Request>, world: World, n: nat, last: Result)
    requires 0 < n < |requests| && Reaches(requests, world, 0, n) && After(requests, n).Some?
    requires world(n - 1).dispatch == Some(last) && forall j :: 0 <= j < n - 1 ==> requests[j].physical != 2
    requires requests[n - 1].physical == 2 || !RouteValid(requests, world, n - 1)
    ensures FormatInvalid(last)
    ensures Resume(requests, world, 0, Accepted) == Run(StopOutcome(requests, n, last), TraceTo(n))
  {
    assert Passes(requests, world, n - 1);
    RunReaches(requests, world, n - 1);
    StopsAfter(requests, world, n - 1);
  }

  /** How a run ends that cannot go past the format-invalid result `n - 1`. */
  function StopOutcome(requests: seq<Request>, n: nat, last: Result): Outcome
    requires 0 < n <= |requests|
  {
    if requests[n - 1].physical == 2 then Returned(Some(last), Profiles(requests, n), true) else Raised
  }

  /** Both calls stop at index `n` for the same reason, if the route names its source. */
  lemma Stopped(requests: seq<Request>, world: World, n: nat, last: Result, whole: Run, resumed: Run)
    requires 0 < n < |requests| && whole == Run(StopOutcome(requests, n, last), TraceTo(n))
    requires if requests[n - 1].physical == 2 then resumed == Run(Returned(Some(last), Profiles(requests, n), true), [])
             else SourceNamed(requests, world, n) ==> resumed == Run(Raised, [])
    ensures Agrees(requests, world, n, whole, resumed)
  {
    assert TraceTo(n) + [] == TraceTo(n);
  }

  /** What a resumed call does, by the route it finds. */
  lemma ResumedRun(requests: seq<Request>, world: World, n: nat, last: Result)
    requires 0 < n < |requests| && After(requests, n).Some? && FormatInvalid(last)
    ensures var resumed := Resume(requests, world, n, last);
      if requests[n - 1].physical == 2 then resumed == Run(Returned(Some(last), Profiles(requests, n), true), [])
      else if RouteValid(requests, world, n - 1) then resumed == LoopAt(requests, world, n)
      else SourceNamed(requests, world, n) ==> resumed == Run(Raised, [])
  {
  }

  /** The loop stops after index `k` when the position is used up or the route is bad. */
  lemma StopsAfter(requests: seq<Request>, world: World, k: nat)
    requires k + 1 < |requests| && Passes(requests, world, k) && After(requests, k + 1).Some?
    requires requests[k].physical == 2 || !RouteValid(requests, world, k)
    ensures LoopAt(requests, world, k).outcome
         == if requests[k].physical == 2 then Returned(world(k).dispatch, Profiles(requests, k + 1), true) else Raised
    ensures TraceTo(k) + LoopAt(requests, world, k).trace == TraceTo(k + 1)
  {
    var pending := if k == 0 then None else world(k).authorize;
    var done := Actions(k, pending) + [Dispatched(k)];
    assert LoopAt(requests, world, k).trace == done;
    assert TraceTo(k + 1) == TraceTo(k) + done;
  }

  /** The resumed call gets as far as consuming its route. */
  predicate FirstTurnActs(requests: seq<Request>, world: World, n: nat)
    requires 0 < n < |requests| && After(requests, n).Some?
  {
    && world(n).authorize.Some? && world(n).authorize.value.preparable
    && RequireNext(After(requests, n).value, requests[n], requests[0].context).Some?
    && Admitted(requests, world, n, world(n).authorize)
  }

  /** The resumed call ends as the whole run does and does exactly the rest of it. */
  ghost predicate Continues(n: nat, whole: Run, resumed: Run) {
    whole.outcome == resumed.outcome && whole.trace == TraceTo(n) + resumed.trace
  }

  /** A resumed call acts at all exactly when its first turn consumes the route. */
  lemma ActsExactly(requests: seq<Request>, world: World, n: nat, last: Result)
    requires 0 < n < |requests| && After(requests, n).Some? && FormatInvalid(last) && requests[n - 1].physical != 2
    ensures var resumed := Resume(requests, world, n, last);
      if FirstTurnActs(requests, world, n) then resumed.trace != [] else resumed == Run(Raised, [])
  {
    var e, pending := After(requests, n).value, world(n).authorize;
    if FirstTurnActs(requests, world, n) {
      var turn := Attempt(requests, world, n, e, pending, Profiles(requests, n));
      assert turn.trace != [] && turn.trace[0] == Consumed(n);
    }
  }

  /** Resuming agrees with the uninterrupted run exactly when the route names its
      source or the resumed call is refused before it consumes the route. */
  lemma ResumeAgreesExactly(requests: seq<Request>, world: World, n: nat, last: Result)
    requires 0 < n < |requests| && Reaches(requests, world, 0, n) && After(requests, n).Some?
    requires world(n - 1).dispatch == Some(last) && forall j :: 0 <= j < n - 1 ==> requests[j].physical != 2
    ensures Continues(n, Resume(requests, world, 0, Accepted), Resume(requests, world, n, last))
       <==> SourceNamed(requests, world, n) || !FirstTurnActs(requests, world, n)
  {
    var whole, resumed := Resume(requests, world, 0, Accepted), Resume(requests, world, n, last);
    assert Passes(requests, world, n - 1);
    ResumeAgrees(requests, world, n, last);
    if !SourceNamed(requests, world, n) {
      ActsExactly(requests, world, n, last);
      RefusedRun(n, whole, resumed);
    }
  }

  /** After a run that ended at index `n`, a call continues it only by doing nothing. */
  lemma RefusedRun(n: nat, whole: Run, resumed: Run)
    requires whole == Run(Raised, TraceTo(n)) && (resumed.trace != [] || resumed == Run(Raised, []))
    ensures Continues(n, whole, resumed) <==> resumed.trace == []
  {
    assert |TraceTo(n) + resumed.trace| == |TraceTo(n)| + |resumed.trace|;
  }

  /** Two requests and a route that names some other source: the uninterrupted run
      refuses it, the resumed one dispatches on it. */
  lemma ResumeIgnoresSource() returns (requests: seq<Request>, world: World)
    ensures |requests| == 2 && Reaches(requests, world, 0, 1) && !SourceNamed(requests, world, 1)
    ensures world(0).dispatch == Some(Invalid(Syntax)) && Resume(requests, world, 0, Accepted).outcome.Raised?
    ensures Resume(requests, world, 1, Invalid(Syntax)).outcome == Returned(Some(Accepted), [5, 5], false)
  {
    requests := [Request(1, 1, 0, 5, 9, 5), Request(2, 1, 1, 5, 9, 5)];
    var route := Some(Authorization(7, 2, true));
    world := i => Surroundings(route, true, true, true, if i == 0 then Some(Invalid(Syntax)) else Some(Accepted), true);
    assert Passes(requests, world, 0);
    assert After(requests, 0) == Some(FirstExpected);
    assert After(requests, 1) == Some(Expected(1, 1, Some(5)));
    assert Profiles(requests, 0) == [] && Profiles(requests, 1) == [5];
    assert Attempt(requests, world, 0, FirstExpected, None, []).outcome.Raised?;
    assert Attempt(requests, world, 1, Expected(1, 1, Some(5)), route, [5]).outcome
        == Returned(Some(Accepted), [5, 5], false);
  }
}
