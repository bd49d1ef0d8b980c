/** How often the broker can be asked to mutate: counting dispatches over whole
    runs, with and without the exclusive lease. */
module CanaryDispatch {
  import opened Prelude
  import opened CanaryPolicy
  import opened CanaryLedger
  import opened CanarySteps
  import opened CanaryHydration
  import opened CanaryRuns

  // --------------------------------------------------------------- counting

  /** How many dispatches in `events` carry an authorization selected by `p`. */
  ghost function Count(events: seq<Event>, p: Authorization -> bool): nat {
    if events == [] then 0
    else Count(events[..|events| - 1], p) +
         (if events[|events| - 1].Dispatched? && p(events[|events| - 1].authorization) then 1 else 0)
  }

  ghost function DispatchesOf(events: seq<Event>, a: Authorization): nat {
    Count(events, (b: Authorization) => b == a)
  }

  ghost function DispatchesAt(events: seq<Event>, head: Digest): nat {
    Count(events, (b: Authorization) => b.head == head)
  }

  ghost function Dispatches(events: seq<Event>): nat {
    Count(events, (b: Authorization) => true)
  }

  lemma {:induction false} CountConcat(a: seq<Event>, b: seq<Event>, p: Authorization -> bool)
    ensures Count(a + b, p) == Count(a, p) + Count(b, p)
  {
    if b == [] {
      assert a + b == a;
    } else {
      var init := b[..|b| - 1];
      CountConcat(a, init, p);
      assert (a + b)[..|a + b| - 1] == a + init;
    }
  }

  lemma {:induction false} CountNone(events: seq<Event>, p: Authorization -> bool)
    requires forall e :: e in events && e.Dispatched? ==> !p(e.authorization)
    ensures Count(events, p) == 0
  {
    if events != [] {
      CountNone(events[..|events| - 1], p);
    }
  }

  lemma {:induction false} CountWithin(events: seq<Event>, p: Authorization -> bool, q: Authorization -> bool,
          r: Authorization -> bool)
    requires forall e :: e in events && e.Dispatched? && p(e.authorization) ==> q(e.authorization) || r(e.authorization)
    ensures Count(events, p) <= Count(events, q) + Count(events, r)
  {
    if events != [] {
      CountWithin(events[..|events| - 1], p, q, r);
      assert events[|events| - 1] in events;
    }
  }

  // ------------------------------------------------------- what one call does

  ghost predicate Granted(events: seq<Event>, a: Authorization) {
    LeaseAsked(a, true) in events
  }

  /** The owner-host calls of one public call. At most one dispatch: either for
      a record reserved under a granted lease, or for a retry it consumes. */
  datatype Effect = Quiet | First(i: nat) | Second(i: nat)

  ghost predicate HasEffect(policy: Policy, st: LedgerState, st': LedgerState, events: seq<Event>, effect: Effect) {
    match effect
    case Quiet => forall e :: e in events ==> !e.Dispatched?
    case First(i) =>
      && i == |st.records| < |st'.records|
      && events == [LeaseAsked(st'.records[i].authorization, true), Dispatched(st'.records[i].authorization)]
      && AtLiveHead(policy, st, st'.records[i].authorization)
    case Second(i) =>
      && i < |st.records| <= |st'.records| && !st.records[i].retryUsed && st'.records[i].retryUsed
      && st.records[i].state.RetryAllowed? && st'.records[i].authorization == st.records[i].authorization
      && (events == [Dispatched(st.records[i].authorization)]
          || events == [LeaseAsked(st.records[i].authorization, true), Dispatched(st.records[i].authorization)])
      && AtLiveHead(policy, st, st.records[i].authorization)
  }

  ghost predicate AtLiveHead(policy: Policy, st: LedgerState, a: Authorization) {
    st.chain != [] && a.head == Head(st.chain).Digest() && |st.chain| <= policy.budget.totalCalls
  }

  /** A record that is not preserved after the call was so before, or its lease was granted in it. */
  ghost predicate LeaseRecorded(st: LedgerState, st': LedgerState, events: seq<Event>) {
    forall i :: 0 <= i < |st'.records| && !st'.records[i].state.PreservedForOwner? ==>
      (i < |st.records| && !st.records[i].state.PreservedForOwner?) || Granted(events, st'.records[i].authorization)
  }

  lemma ReadbackLocal(st: LedgerState, i: nat, a: Authorization, allowRetry: bool, readback: Option<Readback>)
    requires st.chain != [] && Head(st.chain).policy.Valid() && Head(st.chain).Valid() && i < |st.records|
    ensures var o := ReadbackStep(st, i, a, allowRetry, readback);
      && |o.state.records| == |st.records| && o.events == []
      && o.state.records[i].authorization == st.records[i].authorization
      && o.state.records[i].retryUsed == st.records[i].retryUsed
      && o.state.records == st.records[i := o.state.records[i]]
  {
  }

  lemma ReservedEffect(policy: Policy, st: LedgerState, r: Record, answers: Answers) returns (effect: Effect)
    requires st.chain != [] && Head(st.chain).policy.Valid() && Head(st.chain).Valid()
    requires AtLiveHead(policy, st, r.authorization)
    ensures var o := ReservedStep(st, r, answers);
      HasEffect(policy, st, o.state, o.events, effect) && LeaseRecorded(st, o.state, o.events)
  {
    var reserved := st.(records := st.records + [r]);
    if answers.lease {
      ReadbackLocal(reserved, |st.records|, r.authorization, !answers.dispatch.Accepted?, answers.readback);
      effect := First(|st.records|);
    } else {
      effect := Quiet;
    }
  }

  lemma BeginEffect(policy: Policy, context: Context, st: LedgerState, request: Request, purpose: Purpose,
          answers: Answers)
    returns (effect: Effect)
    requires policy.Valid() && ValidChain(policy, st.chain)
    ensures var o := BeginStep(policy, context, st, request, purpose, answers);
      HasEffect(policy, st, o.state, o.events, effect) && LeaseRecorded(st, o.state, o.events)
  {
    var r := BeginReserves(policy, context, st, request, purpose, answers);
    effect := Quiet;
    var o := BeginStep(policy, context, st, request, purpose, answers);
    if o.state != st || o.events != [] {
      effect := ReservedEffect(policy, st, r, answers);
    }
  }

  lemma ReconcileEffect(policy: Policy, context: Context, st: LedgerState, claim: Digest, answers: Answers)
    requires policy.Valid() && ValidChain(policy, st.chain)
    ensures var o := ReconcileStep(policy, context, st, claim, answers);
      HasEffect(policy, st, o.state, o.events, Quiet) && LeaseRecorded(st, o.state, o.events)
  {
    var o := ReconcileStep(policy, context, st, claim, answers);
    if o.state != st {
      var i := Lookup(st.records, claim).value;
      ReadbackLocal(st, i, st.records[i].authorization, true, answers.readback);
    }
  }

  lemma RedispatchEffect(policy: Policy, st: LedgerState, i: nat, answers: Answers) returns (effect: Effect)
    requires st.chain != [] && Head(st.chain).policy.Valid() && Head(st.chain).Valid() && i < |st.records|
    requires st.records[i].state.RetryAllowed? && AtLiveHead(policy, st, st.records[i].authorization)
    ensures var o := RedispatchStep(st, i, answers);
      HasEffect(policy, st, o.state, o.events, effect) && LeaseRecorded(st, o.state, o.events)
  {
    var r := st.records[i];
    effect := Quiet;
    if !r.retryUsed && (st.hydrated ==> answers.lease) {
      ReadbackLocal(WithRecord(st, i, r.RetryConsumed()), i, r.authorization, !answers.dispatch.Accepted?,
          answers.readback);
      effect := Second(i);
    }
  }

  lemma RetryEffect(policy: Policy, context: Context, st: LedgerState, claim: Digest, answers: Answers)
    returns (effect: Effect)
    requires policy.Valid() && ValidChain(policy, st.chain)
    ensures var o := RetryStep(policy, context, st, claim, answers);
      HasEffect(policy, st, o.state, o.events, effect) && LeaseRecorded(st, o.state, o.events)
  {
    var o := RetryStep(policy, context, st, claim, answers);
    effect := Quiet;
    if o.state != st || o.events != [] {
      var i := Lookup(st.records, claim).value;
      CurrentAuthorization(policy, context, st, st.records[i]);
      effect := RedispatchEffect(policy, st, i, answers);
    }
  }

  /** Every move has one of the three effects. */
  lemma MoveEffect(policy: Policy, st: LedgerState, move: Move) returns (effect: Effect)
    requires policy.Valid() && Inv(policy, st) && Possible(move)
    ensures var t := After(policy, st, move);
      HasEffect(policy, st, t.state, t.events, effect) && LeaseRecorded(st, t.state, t.events)
  {
    match move
    case Public(context, call, answers) => effect := CallEffect(policy, context, st, call, answers);
    case Restart => effect := Quiet; SealThenRebuild(policy, st);
  }

  lemma CallEffect(policy: Policy, context: Context, st: LedgerState, call: Call, answers: Answers)
    returns (effect: Effect)
    requires policy.Valid() && Inv(policy, st) && Possible(Public(context, call, answers))
    ensures var t := After(policy, st, Public(context, call, answers));
      HasEffect(policy, st, t.state, t.events, effect) && LeaseRecorded(st, t.state, t.events)
  {
    effect := Quiet;
    match call {
      case Begin(request, purpose) => effect := BeginEffect(policy, context, st, request, purpose, answers);
      case Reconcile(claim) => ReconcileEffect(policy, context, st, claim, answers);
      case Retry(claim) => effect := RetryEffect(policy, context, st, claim, answers);
    }
  }

  // ---------------------------------------------------------- whole runs

  /** The dispatch of `a` belongs to a record, at a head that budget remained for. */
  ghost predicate Known(policy: Policy, st: LedgerState, a: Authorization) {
    && (exists i :: 0 <= i < |st.records| && st.records[i].authorization == a)
    && (exists j :: 0 <= j < |st.chain| && j < policy.budget.totalCalls && a.head == st.chain[j].Digest())
  }

  ghost function Allowance(r: Record): nat {
    if r.retryUsed then 2 else 1
  }

  /** The account a run keeps of its dispatches. */
  ghost predicate Accounted(policy: Policy, st: LedgerState, events: seq<Event>) {
    && (forall e :: e in events && e.Dispatched? ==>
        Known(policy, st, e.authorization) && Granted(events, e.authorization))
    && (forall i :: 0 <= i < |st.records| ==>
        DispatchesOf(events, st.records[i].authorization) <= Allowance(st.records[i]))
    && (forall i :: 0 <= i < |st.records| && !st.records[i].state.PreservedForOwner? ==>
        Granted(events, st.records[i].authorization))
  }

  lemma KnownPersists(policy: Policy, st: LedgerState, st': LedgerState, a: Authorization)
    requires Known(policy, st, a) && Evolves(st, st')
    ensures Known(policy, st', a)
  {
    var i :| 0 <= i < |st.records| && st.records[i].authorization == a;
    assert RecordEvolves(st.chain, st.records[i], st'.records[i]);
    var j :| 0 <= j < |st.chain| && j < policy.budget.totalCalls && a.head == st.chain[j].Digest();
    assert st'.chain[j] == st.chain[j];
  }

  lemma KnownAtLiveHead(policy: Policy, st: LedgerState, st': LedgerState, i: nat)
    requires Evolves(st, st') && i < |st'.records| && AtLiveHead(policy, st, st'.records[i].authorization)
    ensures Known(policy, st', st'.records[i].authorization)
  {
    assert st'.chain[|st.chain| - 1] == Head(st.chain);
  }

  /** A record that the earlier state did not have was never dispatched before. */
  lemma NewcomerUndispatched(policy: Policy, st: LedgerState, events: seq<Event>, st': LedgerState, i: nat)
    requires Accounted(policy, st, events) && Evolves(st, st') && UniqueDeliveries(st'.records)
    requires |st.records| <= i < |st'.records|
    ensures DispatchesOf(events, st'.records[i].authorization) == 0
  {
    var a := st'.records[i].authorization;
    forall e | e in events && e.Dispatched? ensures e.authorization != a {
      assert Known(policy, st, e.authorization);
      var k :| 0 <= k < |st.records| && st.records[k].authorization == e.authorization;
      assert RecordEvolves(st.chain, st.records[k], st'.records[k]);
      assert Apart(st'.records[k], st'.records[i]);
    }
    CountNone(events, (b: Authorization) => b == a);
  }

  /** How many dispatches of one record's authorization a move adds. */
  lemma AddedDispatches(policy: Policy, st: LedgerState, st': LedgerState, events: seq<Event>, effect: Effect, i: nat)
    requires HasEffect(policy, st, st', events, effect) && Evolves(st, st') && UniqueDeliveries(st'.records)
    requires i < |st'.records|
    ensures DispatchesOf(events, st'.records[i].authorization) == if !effect.Quiet? && effect.i == i then 1 else 0
  {
    var p := (b: Authorization) => b == st'.records[i].authorization;
    if effect.Quiet? {
      CountNone(events, p);
    } else {
      var a := st'.records[effect.i].authorization;
      assert i != effect.i ==> st'.records[i].authorization != a by {
        assert i < effect.i ==> Apart(st'.records[i], st'.records[effect.i]);
        assert effect.i < i ==> Apart(st'.records[effect.i], st'.records[i]);
      }
      assert events[..|events| - 1] == [] || events[..|events| - 1] == [LeaseAsked(a, true)];
      CountNone(events[..|events| - 1], p);
    }
  }

  lemma AllowanceKept(policy: Policy, st: LedgerState, past: seq<Event>, st': LedgerState, events: seq<Event>,
          effect: Effect, i: nat)
    requires Accounted(policy, st, past) && HasEffect(policy, st, st', events, effect) && Evolves(st, st')
    requires UniqueDeliveries(st'.records)
    requires i < |st'.records|
    ensures DispatchesOf(past + events, st'.records[i].authorization) <= Allowance(st'.records[i])
  {
    var a := st'.records[i].authorization;
    CountConcat(past, events, (b: Authorization) => b == a);
    AddedDispatches(policy, st, st', events, effect, i);
    if i < |st.records| {
      assert RecordEvolves(st.chain, st.records[i], st'.records[i]);
    } else {
      NewcomerUndispatched(policy, st, past, st', i);
    }
  }

  lemma DispatchesKnown(policy: Policy, st: LedgerState, past: seq<Event>, st': LedgerState, events: seq<Event>,
          effect: Effect, e: Event)
    requires Accounted(policy, st, past) && HasEffect(policy, st, st', events, effect) && Evolves(st, st')
    requires e in past + events && e.Dispatched?
    ensures Known(policy, st', e.authorization) && Granted(past + events, e.authorization)
  {
    if e in past {
      KnownPersists(policy, st, st', e.authorization);
    } else {
      KnownAtLiveHead(policy, st, st', effect.i);
      if effect.Second? {
        assert Granted(past, st.records[effect.i].authorization);
      }
    }
  }

  lemma AccountKeptBy(policy: Policy, st: LedgerState, past: seq<Event>, st': LedgerState, events: seq<Event>,
          effect: Effect)
    requires Accounted(policy, st, past) && HasEffect(policy, st, st', events, effect) && LeaseRecorded(st, st', events)
    requires Evolves(st, st') && UniqueDeliveries(st'.records)
    ensures Accounted(policy, st', past + events)
  {
    forall e | e in past + events && e.Dispatched?
        ensures Known(policy, st', e.authorization) && Granted(past + events, e.authorization)
    {
      DispatchesKnown(policy, st, past, st', events, effect, e);
    }
    forall i | 0 <= i < |st'.records|
        ensures DispatchesOf(past + events, st'.records[i].authorization) <= Allowance(st'.records[i])
    {
      AllowanceKept(policy, st, past, st', events, effect, i);
    }
    forall i | 0 <= i < |st'.records| && !st'.records[i].state.PreservedForOwner?
        ensures Granted(past + events, st'.records[i].authorization)
    {
      if i < |st.records| {
        assert RecordEvolves(st.chain, st.records[i], st'.records[i]);
      }
    }
  }

  /** One move keeps the account. */
  lemma AccountKept(policy: Policy, st: LedgerState, past: seq<Event>, move: Move)
    requires policy.Valid() && Inv(policy, st) && Possible(move) && Accounted(policy, st, past)
    ensures Accounted(policy, After(policy, st, move).state, past + After(policy, st, move).events)
  {
    var effect := MoveEffect(policy, st, move);
    var t := After(policy, st, move);
    AccountKeptBy(policy, st, past, t.state, t.events, effect);
  }

  lemma {:induction false} RunAccounted(policy: Policy, moves: seq<Move>)
    requires policy.Valid() && AllPossible(moves)
    ensures var t := Run(policy, Fresh(policy), moves); Accounted(policy, t.state, t.events)
    decreases |moves|
  {
    if moves != [] {
      var init := moves[..|moves| - 1];
      RunAccounted(policy, init);
      var t := Run(policy, Fresh(policy), init);
      AccountKept(policy, t.state, t.events, moves[|moves| - 1]);
    }
  }

  /** The lease answers one claim per consumption key. */
  ghost predicate Exclusive(events: seq<Event>) {
    forall a, b :: Granted(events, a) && Granted(events, b) && a.ConsumptionKey() == b.ConsumptionKey() ==>
        a.Claim() == b.Claim()
  }

  /** Under an exclusive lease no chain head sees more than two dispatches. */
  lemma TwoPerHead(policy: Policy, st: LedgerState, events: seq<Event>, head: Digest)
    requires AllShaped(policy, st.records) && Accounted(policy, st, events) && Exclusive(events)
    ensures DispatchesAt(events, head) <= 2
  {
    if e :| e in events && e.Dispatched? && e.authorization.head == head {
      var a := e.authorization;
      forall f | f in events && f.Dispatched? && f.authorization.head == head ensures f.authorization == a {
        SameKeyAtHead(policy, st, a, f.authorization);
      }
      CountWithin(events, (b: Authorization) => b.head == head, (b: Authorization) => b == a,
          (b: Authorization) => false);
      CountNone(events, (b: Authorization) => false);
      assert Known(policy, st, a);
      var i :| 0 <= i < |st.records| && st.records[i].authorization == a;
      assert DispatchesOf(events, a) <= 2;
    } else {
      CountNone(events, (b: Authorization) => b.head == head);
    }
  }

  /** Two dispatches at one head compete for the same consumption key. */
  lemma SameKeyAtHead(policy: Policy, st: LedgerState, a: Authorization, b: Authorization)
    requires AllShaped(policy, st.records) && Known(policy, st, a) && Known(policy, st, b) && a.head == b.head
    ensures a.ConsumptionKey() == b.ConsumptionKey()
    ensures a.Claim() == b.Claim() ==> a == b
  {
    var i :| 0 <= i < |st.records| && st.records[i].authorization == a;
    var k :| 0 <= k < |st.records| && st.records[k].authorization == b;
    assert Shaped(policy, st.records[i]) && Shaped(policy, st.records[k]);
  }

  ghost predicate InFirst(chain: seq<Receipt>, n: nat, head: Digest) {
    exists j :: 0 <= j < |chain| && j < n && head == chain[j].Digest()
  }

  lemma {:induction false} DispatchesInFirst(chain: seq<Receipt>, events: seq<Event>, n: nat)
    requires forall head :: DispatchesAt(events, head) <= 2
    ensures Count(events, (b: Authorization) => InFirst(chain, n, b.head)) <= 2 * n
  {
    if n == 0 || n > |chain| {
      if n == 0 {
        CountNone(events, (b: Authorization) => InFirst(chain, n, b.head));
      } else {
        DispatchesInFirst(chain, events, n - 1);
        CountWithin(events, (b: Authorization) => InFirst(chain, n, b.head),
            (b: Authorization) => InFirst(chain, n - 1, b.head), (b: Authorization) => false);
        CountNone(events, (b: Authorization) => false);
      }
    } else {
      var head := chain[n - 1].Digest();
      DispatchesInFirst(chain, events, n - 1);
      CountWithin(events, (b: Authorization) => InFirst(chain, n, b.head),
          (b: Authorization) => InFirst(chain, n - 1, b.head), (b: Authorization) => b.head == head);
      assert DispatchesAt(events, head) <= 2;
    }
  }

  /** With an exclusive lease, a whole run with any number of restarts makes at
      most two dispatches per chain head and at most twice the total budget. */
  lemma DispatchBound(policy: Policy, moves: seq<Move>)
    requires policy.Valid() && AllPossible(moves)
    requires Exclusive(Run(policy, Fresh(policy), moves).events)
    ensures var events := Run(policy, Fresh(policy), moves).events;
      && (forall head :: DispatchesAt(events, head) <= 2)
      && Dispatches(events) <= 2 * policy.budget.totalCalls
  {
    RunAccounted(policy, moves);
    var t := Run(policy, Fresh(policy), moves);
    forall head ensures DispatchesAt(t.events, head) <= 2 {
      TwoPerHead(policy, t.state, t.events, head);
    }
    var n := policy.budget.totalCalls;
    DispatchesInFirst(t.state.chain, t.events, n);
    CountWithin(t.events, (b: Authorization) => true, (b: Authorization) => InFirst(t.state.chain, n, b.head),
        (b: Authorization) => false);
    CountNone(t.events, (b: Authorization) => false);
  }

  // ------------------------------------------------------------- left behind

  /** A move never dispatches a verified, preserved or superseded record. */
  lemma FinalNotDispatched(policy: Policy, st: LedgerState, move: Move, i: nat)
    requires policy.Valid() && Inv(policy, st) && Possible(move) && i < |st.records|
    requires st.records[i].state.Verified? || st.records[i].state.PreservedForOwner?
        || Superseded(st.chain, st.records[i])
    ensures Dispatched(st.records[i].authorization) !in After(policy, st, move).events
  {
    var effect := MoveEffect(policy, st, move);
    var t := After(policy, st, move);
    assert RecordEvolves(st.chain, st.records[i], t.state.records[i]);
    AddedDispatches(policy, st, t.state, t.events, effect, i);
    CountPositive(t.events, st.records[i].authorization);
  }

  lemma {:induction false} CountPositive(events: seq<Event>, a: Authorization)
    ensures Dispatched(a) in events ==> DispatchesOf(events, a) > 0
  {
    if events != [] {
      CountPositive(events[..|events| - 1], a);
    }
  }

  /** Once the chain has moved past its head, an unverified record is never
      dispatched again and never verified, whatever the rest of the run does;
      the same holds of verified and preserved records. */
  lemma {:induction false} LeftBehindForGood(policy: Policy, st: LedgerState, moves: seq<Move>, i: nat)
    requires policy.Valid() && Inv(policy, st) && AllPossible(moves) && i < |st.records|
    requires st.records[i].state.Verified? || st.records[i].state.PreservedForOwner?
        || Superseded(st.chain, st.records[i])
    ensures var t := Run(policy, st, moves);
      i < |t.state.records| && t.state.records[i] == st.records[i]
          && Dispatched(st.records[i].authorization) !in t.events
    decreases |moves|
  {
    FinalRecordsStay(policy, st, moves, i);
    if moves != [] {
      var init := moves[..|moves| - 1];
      LeftBehindForGood(policy, st, init, i);
      var t := Run(policy, st, init);
      if Superseded(st.chain, st.records[i]) {
        assert AnchoredRecord(st.chain, st.records, i);
        StaysSuperseded(policy, st.chain, st.records, st.records[i], t.state.chain, t.state.chain);
      }
      FinalNotDispatched(policy, t.state, moves[|moves| - 1], i);
    }
  }
}
