/** The mutable ledger and the orchestrator that steps it. Each public method
    performs exactly the transition of `CanarySteps` and keeps the invariant. */
module CanaryExecution {
  import opened Prelude
  import opened CanaryPolicy
  import opened CanaryLedger
  import opened CanarySteps
  import opened CanaryHydration

  datatype UpdateResult = Unfit | HalfDone | Updated

  /** A verified state needs a receipt that extends the record's head; no other
      state may carry one. */
  predicate CanaryFits(r: Record, state: TransitionState, canary: Option<Receipt>) {
    if state.Verified? then canary.Some? && canary.value.predecessor == Some(r.authorization.head) else canary.None?
  }

  class Ledger {
    const policy: Policy
    var chain: seq<Receipt>
    var records: seq<Record>
    var hydrated: bool

    ghost function State(): LedgerState
      reads this
    {
      LedgerState(chain, records, hydrated)
    }

    ghost predicate Valid()
      reads this
    {
      policy.Valid() && Inv(policy, State())
    }

    constructor (policy: Policy)
      requires policy.Valid()
      ensures Valid() && this.policy == policy && State() == Fresh(policy)
    {
      this.policy := policy;
      chain, records, hydrated := [GenesisReceipt(policy)], [], false;
    }

    constructor Restored(policy: Policy, st: LedgerState)
      requires policy.Valid() && Inv(policy, st)
      ensures Valid() && this.policy == policy && State() == st
    {
      this.policy := policy;
      chain, records, hydrated := st.chain, st.records, st.hydrated;
    }

    /** `reserve`: `None`, without effect, when the claim already names another
        transition or no execution receipt can be built for the new one. */
    method Reserve(authorization: Authorization, request: Request, purpose: Purpose, predecessor: Option<Digest>,
            preState: Option<Digest>)
      returns (reserved: Option<(nat, bool)>)
      modifies this`records
      ensures var existing, r := Lookup(old(records), authorization.Claim()),
          NewRecord(authorization, request, purpose, predecessor, preState);
        if existing.Some? then
          records == old(records) &&
          reserved == if SameDelivery(records[existing.value], request, purpose) then Some((existing.value, false))
              else None
        else if !r.receipt.Valid() then
          records == old(records) && reserved.None?
        else
          records == old(records) + [r] && reserved == Some((|old(records)|, true))
    {
      var existing := Lookup(records, authorization.Claim());
      if existing.Some? {
        var e := records[existing.value];
        if e.request != request || e.purpose != purpose {
          return None;
        }
        return Some((existing.value, false));
      }
      var r := NewRecord(authorization, request, purpose, predecessor, preState);
      if !r.receipt.Valid() {
        return None;
      }
      records := records + [r];
      reserved := Some((|records| - 1, true));
    }

    /** `update`: refused, without effect, when the canary receipt does not fit
        the new state. When the new execution receipt cannot be built, which
        happens last, the chain and the other fields have already changed. */
    method Update(i: nat, state: TransitionState, readback: Option<Digest>, canary: Option<Receipt>)
      returns (update: UpdateResult)
      requires i < |records|
      modifies this`chain, this`records
      ensures update.Unfit? <==> !CanaryFits(old(records[i]), state, canary)
      ensures update.Unfit? ==> chain == old(chain) && records == old(records)
      ensures !update.Unfit? ==> chain == if state.Verified? then old(chain) + [canary.value] else old(chain)
      ensures update.Updated? ==> records == old(records)[i := old(records[i]).Updated(state, readback, canary)]
      ensures update.HalfDone? ==> records == old(records)[i := old(records[i]).(state := state, canary := canary)]
      ensures update.Updated? <==>
        CanaryFits(old(records[i]), state, canary) && old(records[i]).Updated(state, readback, canary).receipt.Valid()
    {
      var r := records[i];
      if !CanaryFits(r, state, canary) {
        return Unfit;
      }
      if state.Verified? {
        chain := chain + [canary.value];
      }
      r := r.(state := state, canary := canary);
      records := records[i := r];
      var receipt := r.ReceiptWith(readback);
      if !receipt.Valid() {
        return HalfDone;
      }
      records := records[i := r.(receipt := receipt)];
      update := Updated;
    }

    /** `consume_retry`: the single retry of an absent transition. */
    method ConsumeRetry(i: nat) returns (ok: bool)
      requires i < |records|
      modifies this`records
      ensures ok <==> old(records[i]).state.RetryAllowed? && !old(records[i]).retryUsed
      ensures records == if ok then old(records)[i := old(records[i]).RetryConsumed()] else old(records)
    {
      var r := records[i];
      if !r.state.RetryAllowed? || r.retryUsed {
        return false;
      }
      r := r.(retryUsed := true, state := Claimed);
      records := records[i := r.(receipt := r.ReceiptWith(None))];
      ok := true;
    }

    /** `sealed_state` followed by a restart rebuilds this ledger exactly when
        nothing in it is superseded. */
    method SealedState() returns (sealed: Sealed)
      requires Valid()
      ensures sealed == Seal(policy, State())
      ensures Hydratable(policy, sealed) <==> NoneSuperseded(State())
      ensures Rebuild(policy, sealed) == State().(hydrated := true)
    {
      sealed := Seal(policy, LedgerState(chain, records, hydrated));
      RestartExactlyWhenNoneSuperseded(policy, State());
    }

    /** `hydrate`: a fresh, valid ledger for exactly the hydratable snapshots. */
    static method FromSnapshot(policy: Policy, sealed: Sealed) returns (ledger: Ledger?)
      requires policy.Valid()
      ensures ledger != null <==> Hydratable(policy, sealed)
      ensures ledger != null ==>
          fresh(ledger) && ledger.Valid() && ledger.policy == policy && ledger.State() == Rebuild(policy, sealed)
    {
      var st := CanaryHydration.Hydrate(policy, sealed);
      if st.None? {
        return null;
      }
      ledger := new Ledger.Restored(policy, st.value);
    }
  }

  class Orchestrator {
    const policy: Policy
    const context: Context
    const ledger: Ledger

    ghost predicate Valid()
      reads this, ledger
    {
      ledger.policy == policy && ledger.Valid()
    }

    constructor Bound(policy: Policy, context: Context, ledger: Ledger)
      requires ledger.policy == policy && ledger.Valid()
      ensures Valid() && this.policy == policy && this.context == context && this.ledger == ledger
    {
      this.policy, this.context, this.ledger := policy, context, ledger;
    }

    /** Construction fails unless the ledger carries this policy and the selected
        prior receipt is the ledger's live head. */
    static method Create(policy: Policy, context: Context, prior: Option<Digest>, ledger: Ledger)
      returns (o: Orchestrator?)
      requires ledger.Valid()
      ensures o != null <==> ledger.policy.Digest() == policy.Digest() && prior == Some(Head(ledger.chain).Digest())
      ensures o != null ==> o.Valid() && o.policy == policy && o.context == context && o.ledger == ledger
    {
      if ledger.policy.Digest() != policy.Digest() || prior != Some(Head(ledger.chain).Digest()) {
        return null;
      }
      o := new Orchestrator.Bound(policy, context, ledger);
    }

    method Decide(request: Request) returns (d: Decision)
      requires Valid()
      ensures d == DecisionFor(policy, context, ledger.State(), request)
    {
      d := AuthorizeCanaryRequest(policy, context, Some(Head(ledger.chain).Digest()), request, ledger.chain);
    }

    /** The effect was applied: one receipt more, or quarantine when it does not fit. */
    method Settle(authorization: Authorization, i: nat, ghost allowRetry: bool, readback: Readback)
      returns (result: CallResult)
      requires Valid() && i < |ledger.records| && Open(ledger.records[i]) && readback.state.Applied?
      requires ledger.records[i].authorization.head == Head(ledger.chain).Digest()
      modifies ledger
      ensures Valid()
      ensures var o := ReadbackStep(old(ledger.State()), i, authorization, allowRetry, Some(readback));
        ledger.State() == o.state && result == o.result
    {
      ReadbackKeeps(policy, ledger.State(), i, authorization, allowRetry, Some(readback));
      assert Shaped(policy, ledger.records[i]);
      var next := Advance(Head(ledger.chain), ledger.records[i].request.operation, readback.digest);
      var update := Unfit;
      if next.Some? {
        update := ledger.Update(i, Verified, Some(readback.digest), next);
      }
      if !update.Updated? {
        var _ := ledger.Update(i, Quarantined, None, None);
        return CallResult(RefusedCall(ReceiptReconciliationFailed), Some(ledger.records[i].receipt), None);
      }
      result := CallResult(Allowed(authorization), Some(ledger.records[i].receipt), next);
    }

    /** `_readback`. */
    method ReadBack(authorization: Authorization, i: nat, allowRetry: bool, readback: Option<Readback>)
      returns (result: CallResult)
      requires Valid() && i < |ledger.records| && Open(ledger.records[i])
      requires ledger.records[i].authorization.head == Head(ledger.chain).Digest()
      modifies ledger
      ensures Valid()
      ensures var o := ReadbackStep(old(ledger.State()), i, authorization, allowRetry, readback);
        ledger.State() == o.state && result == o.result
    {
      ReadbackKeeps(policy, ledger.State(), i, authorization, allowRetry, readback);
      assert Shaped(policy, ledger.records[i]);
      if readback.None? || readback.value.state.Ambiguous? {
        var _ := ledger.Update(i, Quarantined, if readback.Some? then Some(readback.value.digest) else None, None);
        return CallResult(RefusedCall(AmbiguousOutcome), Some(ledger.records[i].receipt), None);
      }
      if readback.value.state.Applied? {
        result := Settle(authorization, i, allowRetry, readback.value);
        return;
      }
      var state := if allowRetry && !ledger.records[i].retryUsed then RetryAllowed else PreservedForOwner;
      var _ := ledger.Update(i, state, Some(readback.value.digest), None);
      result := CallResult(RefusedCall(NotProven), Some(ledger.records[i].receipt), None);
    }

    /** `_dispatch`: dispatching is never proof, so a read-back always follows. */
    method Dispatch(authorization: Authorization, i: nat, answers: Answers)
      returns (result: CallResult, events: seq<Event>)
      requires Valid() && i < |ledger.records| && Open(ledger.records[i])
      requires ledger.records[i].authorization.head == Head(ledger.chain).Digest()
      modifies ledger
      ensures Valid()
      ensures DispatchStep(old(ledger.State()), i, authorization, answers) == Outcome(ledger.State(), result, events)
    {
      events := [Dispatched(authorization)];
      if answers.dispatch.Accepted? {
        result := ReadBack(authorization, i, false, answers.readback);
      } else {
        result := ReadBack(authorization, i, true, answers.readback);
      }
    }

    /** `execute`, `rollback` and `cleanup`. */
    method Begin(request: Request, purpose: Purpose, answers: Answers) returns (result: CallResult, events: seq<Event>)
      requires Valid() && request.paths != []
      modifies ledger
      ensures Valid()
      ensures BeginStep(policy, context, old(ledger.State()), request, purpose, answers)
          == Outcome(ledger.State(), result, events)
    {
      BeginKeeps(policy, context, ledger.State(), request, purpose, answers);
      events := [];
      var matches := Matching(ledger.records, request, purpose);
      if |matches| > 1 {
        return CallResult(RefusedCall(AmbiguousDelivery), None, None), events;
      }
      if |matches| == 1 {
        var prior := ledger.records[matches[0]];
        return CallResult(ReusedReceipt, Some(prior.receipt), prior.canary), events;
      }
      var decision := Decide(request);
      if decision.Denied? {
        return CallResult(RefusedCall(PolicyDenied(decision.denial)), None, None), events;
      }
      AuthorizedFitsBudget(policy, context, Some(Head(ledger.chain).Digest()), request, ledger.chain, External(0));
      result, events := BeginAuthorized(decision.authorization, request, purpose, answers);
    }

    method BeginAuthorized(authorization: Authorization, request: Request, purpose: Purpose, answers: Answers)
      returns (result: CallResult, events: seq<Event>)
      requires Valid() && request.paths != [] && InScope(policy, request)
      requires authorization == AuthorizationFor(policy, request, Head(ledger.chain))
      requires Matching(ledger.records, request, purpose) == []
      modifies ledger
      ensures Valid()
      ensures AuthorizedBegin(old(ledger.State()), authorization, request, purpose, answers)
          == Outcome(ledger.State(), result, events)
    {
      if purpose.Execute? {
        result, events := ReserveThenAsk(authorization, request, purpose, None, None, answers);
      } else {
        result, events := BeginReversal(authorization, request, purpose, answers);
      }
    }

    /** A rollback or cleanup needs the transition it reverses and its pre-state. */
    method BeginReversal(authorization: Authorization, request: Request, purpose: Purpose, answers: Answers)
      returns (result: CallResult, events: seq<Event>)
      requires Valid() && request.paths != [] && InScope(policy, request) && !purpose.Execute?
      requires authorization == AuthorizationFor(policy, request, Head(ledger.chain))
      requires Matching(ledger.records, request, purpose) == []
      modifies ledger
      ensures Valid()
      ensures AuthorizedBegin(old(ledger.State()), authorization, request, purpose, answers)
           == Outcome(ledger.State(), result, events)
    {
      var st := LedgerState(ledger.chain, ledger.records, ledger.hydrated);
      var predecessor := ReversiblePredecessor(st, request);
      ReversalIsFenced(st, authorization, request, purpose, predecessor, answers);
      if predecessor.None? || answers.preState.None? || !answers.preState.value.state.Applied? {
        return CallResult(RefusedCall(NoReversiblePreState), None, None), [];
      }
      var preState := Some(answers.preState.value.digest);
      result, events := ReserveThenAsk(authorization, request, purpose, predecessor, preState, answers);
    }

    method ReserveThenAsk(authorization: Authorization, request: Request, purpose: Purpose, predecessor: Option<Digest>,
            preState: Option<Digest>, answers: Answers)
      returns (result: CallResult, events: seq<Event>)
      requires Valid() && request.paths != [] && InScope(policy, request)
      requires authorization == AuthorizationFor(policy, request, Head(ledger.chain))
      requires Matching(ledger.records, request, purpose) == []
      requires if purpose.Execute? then predecessor.None? && preState.None?
               else predecessor.Some? && preState.Some? && predecessor == ReversiblePredecessor(ledger.State(), request)
      modifies ledger
      ensures Valid()
      ensures FencedStep(old(ledger.State()), NewRecord(authorization, request, purpose, predecessor, preState),
          answers) == Outcome(ledger.State(), result, events)
    {
      NewReservationKeeps(policy, ledger.State(), request, purpose, predecessor, preState);
      var reserved := ledger.Reserve(authorization, request, purpose, predecessor, preState);
      if reserved.None? {
        return CallResult(RefusedCall(FenceConflict), None, None), [];
      }
      var (i, isNew) := reserved.value;
      if !isNew {
        return CallResult(Allowed(authorization), Some(ledger.records[i].receipt), ledger.records[i].canary), [];
      }
      result, events := AskThenDispatch(i, answers);
    }

    /** From a new reservation on: only the owner of the fence dispatches. */
    method AskThenDispatch(i: nat, answers: Answers) returns (result: CallResult, events: seq<Event>)
      requires Valid() && i < |ledger.records| && ledger.records[i].state.Claimed?
      requires ledger.records[i].authorization.head == Head(ledger.chain).Digest()
      modifies ledger
      ensures Valid()
      ensures AskStep(old(ledger.State()), i, answers) == Outcome(ledger.State(), result, events)
    {
      ReservedRecordKeeps(policy, ledger.State(), i, answers);
      var authorization := ledger.records[i].authorization;
      if !answers.lease {
        assert Shaped(policy, ledger.records[i]);
        var _ := ledger.Update(i, PreservedForOwner, None, None);
        return CallResult(RefusedCall(FenceOwnedElsewhere), Some(ledger.records[i].receipt), None),
            [LeaseAsked(authorization, false)];
      }
      result, events := Dispatch(authorization, i, answers);
      events := [LeaseAsked(authorization, true)] + events;
    }

    /** `reconcile`: read back, never redispatch. */
    method Reconcile(claim: Digest, answers: Answers) returns (result: CallResult, events: seq<Event>)
      requires Valid()
      modifies ledger
      ensures Valid()
      ensures ReconcileStep(policy, context, old(ledger.State()), claim, answers)
          == Outcome(ledger.State(), result, events)
    {
      events := [];
      var found := Lookup(ledger.records, claim);
      if found.None? {
        return CallResult(RefusedCall(UnknownTransition), None, None), events;
      }
      var record := ledger.records[found.value];
      var decision := Decide(record.request);
      if decision != Authorized(record.authorization) {
        return CallResult(RefusedCall(EvidenceDrifted), Some(record.receipt), record.canary), events;
      }
      if !record.state.Quarantined? && !record.state.RetryAllowed? {
        return CallResult(Allowed(record.authorization), Some(record.receipt), record.canary), events;
      }
      CurrentAuthorization(policy, context, ledger.State(), record);
      assert ReconcileStep(policy, context, ledger.State(), claim, answers)
          == ReadbackStep(ledger.State(), found.value, record.authorization, true, answers.readback);
      result := ReadBack(record.authorization, found.value, true, answers.readback);
    }

    /** `retry`: once, only after an absent read-back, and after a restart only
        for the proven owner of the fence. */
    method Retry(claim: Digest, answers: Answers) returns (result: CallResult, events: seq<Event>)
      requires Valid()
      modifies ledger
      ensures Valid()
      ensures RetryStep(policy, context, old(ledger.State()), claim, answers) == Outcome(ledger.State(), result, events)
    {
      events := [];
      var found := Lookup(ledger.records, claim);
      if found.None? {
        return CallResult(RefusedCall(UnknownTransition), None, None), events;
      }
      var record := ledger.records[found.value];
      var decision := Decide(record.request);
      if decision != Authorized(record.authorization) {
        return CallResult(RefusedCall(EvidenceDrifted), Some(record.receipt), record.canary), events;
      }
      if !record.state.RetryAllowed? {
        return CallResult(RefusedCall(RetryNeedsAbsentReadback), Some(record.receipt), None), events;
      }
      CurrentAuthorization(policy, context, ledger.State(), record);
      result, events := Redispatch(found.value, answers);
    }

    method Redispatch(i: nat, answers: Answers) returns (result: CallResult, events: seq<Event>)
      requires Valid() && i < |ledger.records| && ledger.records[i].state.RetryAllowed?
      requires ledger.records[i].authorization.head == Head(ledger.chain).Digest()
      modifies ledger
      ensures Valid()
      ensures RedispatchStep(old(ledger.State()), i, answers) == Outcome(ledger.State(), result, events)
    {
      RedispatchKeeps(policy, ledger.State(), i, answers);
      RetryConsumedKeeps(policy, ledger.State(), i);
      assert Shaped(policy, ledger.records[i]);
      var record := ledger.records[i];
      events := [];
      if ledger.hydrated {
        events := [LeaseAsked(record.authorization, answers.lease)];
        if !answers.lease {
          var _ := ledger.Update(i, PreservedForOwner, None, None);
          return CallResult(RefusedCall(RetryFenceUnproven), Some(ledger.records[i].receipt), None), events;
        }
      }
      // A retry-allowed record still has its retry, so consuming it succeeds.
      var consumed := ledger.ConsumeRetry(i);
      assert consumed;
      var dispatched: seq<Event>;
      result, dispatched := Dispatch(record.authorization, i, answers);
      events := events + dispatched;
    }
  }

  /** The ledger with a new reservation still satisfies the invariant. */
  lemma NewReservationKeeps(policy: Policy, st: LedgerState, request: Request, purpose: Purpose,
          predecessor: Option<Digest>, preState: Option<Digest>)
    requires Inv(policy, st) && InScope(policy, request) && request.paths != []
    requires Matching(st.records, request, purpose) == []
    requires if purpose.Execute? then predecessor.None? && preState.None?
             else predecessor.Some? && preState.Some? && predecessor == ReversiblePredecessor(st, request)
    ensures var r := NewRecord(AuthorizationFor(policy, request, Head(st.chain)), request, purpose, predecessor,
        preState);
      r.receipt.Valid() && (Lookup(st.records, r.Claim()).None? ==> Inv(policy, st.(records := st.records + [r])))
  {
    var r := NewRecord(AuthorizationFor(policy, request, Head(st.chain)), request, purpose, predecessor, preState);
    NewRecordShaped(policy, request, purpose, Head(st.chain), predecessor, preState);
    NewRecordAnchored(st, r, request);
    if Lookup(st.records, r.Claim()).None? {
      NotYetDelivered(st.records, r);
      ReserveKeeps(policy, st, r);
    }
  }
}
