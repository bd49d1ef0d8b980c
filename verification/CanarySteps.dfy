/** The effect of each public orchestrator call, for every answer of the lease
    and the broker, and what every call keeps. Each public call is atomic. */
module CanarySteps {
  import opened Prelude
  import opened CanaryPolicy
  import opened CanaryLedger

  datatype Refusal =
    | PolicyDenied(denial: Denial) | AmbiguousDelivery | NoReversiblePreState | FenceConflict | FenceOwnedElsewhere
    | UnknownTransition | EvidenceDrifted | RetryNeedsAbsentReadback | RetryFenceUnproven | RetryExhausted
    | AmbiguousOutcome | ReceiptReconciliationFailed | NotProven

  datatype Verdict = Allowed(authorization: Authorization) | ReusedReceipt | RefusedCall(refusal: Refusal)

  datatype CallResult = CallResult(verdict: Verdict, receipt: Option<ExecutionReceipt>, canary: Option<Receipt>)

  datatype Outcome = Outcome(state: LedgerState, result: CallResult, events: seq<Event>)

  datatype Call = Begin(request: Request, purpose: Purpose) | Reconcile(claim: Digest) | Retry(claim: Digest)

  function Matching(records: seq<Record>, request: Request, purpose: Purpose): seq<nat> {
    Positions(records, (r: Record) => SameDelivery(r, request, purpose))
  }

  predicate AdvancedTo(r: Record, head: Receipt) {
    r.state.Verified? && r.canary == Some(head) && r.receipt.canaryReceipt == Some(head.Digest())
  }

  /** The one record that produced the chain head, if the head is not genesis. */
  function PredecessorIndex(st: LedgerState): (r: Option<nat>)
    requires st.chain != []
    ensures r.Some? ==> r.value < |st.records| && AdvancedTo(st.records[r.value], Head(st.chain))
  {
    var head := Head(st.chain);
    var matches := Positions(st.records, (r: Record) => AdvancedTo(r, head));
    if head.predecessor.None? || |matches| != 1 then None else Some(matches[0])
  }

  /** The receipt digest of the predecessor that `request` exactly reverses. */
  function ReversiblePredecessor(st: LedgerState, request: Request): Option<Digest>
    requires st.chain != []
  {
    var p := PredecessorIndex(st);
    if p.None? then None
    else
      var earlier := st.records[p.value];
      if InverseOf(earlier.request.operation) == Some(request.operation)
         && request.branch == earlier.request.branch && request.paths == earlier.request.paths
      then Some(earlier.receipt.Digest()) else None
  }

  function WithRecord(st: LedgerState, i: nat, r: Record): LedgerState
    requires i < |st.records|
  {
    st.(records := st.records[i := r])
  }

  ghost function DecisionFor(policy: Policy, context: Context, st: LedgerState, request: Request): Decision
    requires policy.Valid() && st.chain != []
  {
    Authorize(policy, context, Some(Head(st.chain).Digest()), request, st.chain)
  }

  ghost function ReadbackStep(st: LedgerState, i: nat, authorization: Authorization, allowRetry: bool,
          readback: Option<Readback>): Outcome
    requires st.chain != [] && Head(st.chain).policy.Valid() && Head(st.chain).Valid() && i < |st.records|
  {
    var r := st.records[i];
    if readback.None? || readback.value.state.Ambiguous? then
      var r' := r.Updated(Quarantined, if readback.Some? then Some(readback.value.digest) else None, None);
      Outcome(WithRecord(st, i, r'), CallResult(RefusedCall(AmbiguousOutcome), Some(r'.receipt), None), [])
    else if readback.value.state.Applied? then
      var next := Advance(Head(st.chain), r.request.operation, readback.value.digest);
      if next.Some? && next.value.predecessor == Some(r.authorization.head) then
        var r' := r.Updated(Verified, Some(readback.value.digest), next);
        Outcome(LedgerState(st.chain + [next.value], st.records[i := r'], st.hydrated),
                CallResult(Allowed(authorization), Some(r'.receipt), next), [])
      else
        var r' := r.Updated(Quarantined, None, None);
        Outcome(WithRecord(st, i, r'), CallResult(RefusedCall(ReceiptReconciliationFailed), Some(r'.receipt), None), [])
    else
      var r' := r.Updated(if allowRetry && !r.retryUsed then RetryAllowed else PreservedForOwner,
          Some(readback.value.digest), None);
      Outcome(WithRecord(st, i, r'), CallResult(RefusedCall(NotProven), Some(r'.receipt), None), [])
  }

  ghost function DispatchStep(st: LedgerState, i: nat, authorization: Authorization, answers: Answers): Outcome
    requires st.chain != [] && Head(st.chain).policy.Valid() && Head(st.chain).Valid() && i < |st.records|
  {
    var o := ReadbackStep(st, i, authorization, !answers.dispatch.Accepted?, answers.readback);
    o.(events := [Dispatched(authorization)])
  }

  ghost function BeginStep(policy: Policy, context: Context, st: LedgerState, request: Request, purpose: Purpose,
          answers: Answers): Outcome
    requires policy.Valid() && ValidChain(policy, st.chain)
  {
    var matches := Matching(st.records, request, purpose);
    if |matches| > 1 then Outcome(st, CallResult(RefusedCall(AmbiguousDelivery), None, None), [])
    else if |matches| == 1 then
      var prior := st.records[matches[0]];
      Outcome(st, CallResult(ReusedReceipt, Some(prior.receipt), prior.canary), [])
    else
      match DecisionFor(policy, context, st, request)
      case Denied(denial) => Outcome(st, CallResult(RefusedCall(PolicyDenied(denial)), None, None), [])
      case Authorized(authorization) => AuthorizedBegin(st, authorization, request, purpose, answers)
  }

  /** From the authorization on: prove the pre-state of a reversal, then reserve. */
  ghost function AuthorizedBegin(st: LedgerState, authorization: Authorization, request: Request, purpose: Purpose,
          answers: Answers): Outcome
    requires st.chain != [] && Head(st.chain).policy.Valid() && Head(st.chain).Valid()
  {
    var reversed := if purpose.Execute? then None else ReversiblePredecessor(st, request);
    if !purpose.Execute? && (reversed.None? || answers.preState.None? || !answers.preState.value.state.Applied?) then
      Outcome(st, CallResult(RefusedCall(NoReversiblePreState), None, None), [])
    else
      FencedStep(st, NewRecord(authorization, request, purpose, reversed,
                               if purpose.Execute? then None else Some(answers.preState.value.digest)), answers)
  }

  /** A rollback or cleanup with its predecessor and pre-state goes to the fence. */
  lemma ReversalIsFenced(st: LedgerState, authorization: Authorization, request: Request, purpose: Purpose,
          predecessor: Option<Digest>, answers: Answers)
    requires st.chain != [] && Head(st.chain).policy.Valid() && Head(st.chain).Valid() && !purpose.Execute?
    requires predecessor == ReversiblePredecessor(st, request)
    ensures AuthorizedBegin(st, authorization, request, purpose, answers) ==
      if predecessor.None? || answers.preState.None? || !answers.preState.value.state.Applied?
      then Outcome(st, CallResult(RefusedCall(NoReversiblePreState), None, None), [])
      else var preState := Some(answers.preState.value.digest);
        FencedStep(st, NewRecord(authorization, request, purpose, predecessor, preState), answers)
  {
  }

  /** Reserve the consumption fence: a claim names one transition only. */
  ghost function FencedStep(st: LedgerState, r: Record, answers: Answers): Outcome
    requires st.chain != [] && Head(st.chain).policy.Valid() && Head(st.chain).Valid()
  {
    var existing := Lookup(st.records, r.Claim());
    if existing.None? then ReservedStep(st, r, answers)
    else
      var e := st.records[existing.value];
      if !SameDelivery(e, r.request, r.purpose) then Outcome(st, CallResult(RefusedCall(FenceConflict), None, None), [])
      else Outcome(st, CallResult(Allowed(r.authorization), Some(e.receipt), e.canary), [])
  }

  ghost function ReservedStep(st: LedgerState, r: Record, answers: Answers): Outcome
    requires st.chain != [] && Head(st.chain).policy.Valid() && Head(st.chain).Valid()
  {
    AskStep(st.(records := st.records + [r]), |st.records|, answers)
  }

  /** From a new reservation on: ask for the fence, then dispatch or preserve. */
  ghost function AskStep(st: LedgerState, i: nat, answers: Answers): Outcome
    requires st.chain != [] && Head(st.chain).policy.Valid() && Head(st.chain).Valid() && i < |st.records|
  {
    var r := st.records[i];
    var asked := [LeaseAsked(r.authorization, answers.lease)];
    if !answers.lease then
      var r' := r.Updated(PreservedForOwner, None, None);
      Outcome(WithRecord(st, i, r'), CallResult(RefusedCall(FenceOwnedElsewhere), Some(r'.receipt), None), asked)
    else
      var o := DispatchStep(st, i, r.authorization, answers);
      o.(events := asked + o.events)
  }

  ghost function ReconcileStep(policy: Policy, context: Context, st: LedgerState, claim: Digest,
          answers: Answers): Outcome
    requires policy.Valid() && ValidChain(policy, st.chain)
  {
    var found := Lookup(st.records, claim);
    if found.None? then Outcome(st, CallResult(RefusedCall(UnknownTransition), None, None), [])
    else
      var r := st.records[found.value];
      if DecisionFor(policy, context, st, r.request) != Authorized(r.authorization) then
        Outcome(st, CallResult(RefusedCall(EvidenceDrifted), Some(r.receipt), r.canary), [])
      else if !r.state.Quarantined? && !r.state.RetryAllowed? then
        Outcome(st, CallResult(Allowed(r.authorization), Some(r.receipt), r.canary), [])
      else
        ReadbackStep(st, found.value, r.authorization, true, answers.readback)
  }

  ghost function RetryStep(policy: Policy, context: Context, st: LedgerState, claim: Digest, answers: Answers): Outcome
    requires policy.Valid() && ValidChain(policy, st.chain)
  {
    var found := Lookup(st.records, claim);
    if found.None? then Outcome(st, CallResult(RefusedCall(UnknownTransition), None, None), [])
    else
      var r := st.records[found.value];
      if DecisionFor(policy, context, st, r.request) != Authorized(r.authorization) then
        Outcome(st, CallResult(RefusedCall(EvidenceDrifted), Some(r.receipt), r.canary), [])
      else if !r.state.RetryAllowed? then
        Outcome(st, CallResult(RefusedCall(RetryNeedsAbsentReadback), Some(r.receipt), None), [])
      else
        RedispatchStep(st, found.value, answers)
  }

  /** Prove the fence after a restart, consume the retry, and dispatch again. */
  ghost function RedispatchStep(st: LedgerState, i: nat, answers: Answers): Outcome
    requires st.chain != [] && Head(st.chain).policy.Valid() && Head(st.chain).Valid() && i < |st.records|
  {
    var r := st.records[i];
    var asked := if st.hydrated then [LeaseAsked(r.authorization, answers.lease)] else [];
    if st.hydrated && !answers.lease then
      var r' := r.Updated(PreservedForOwner, None, None);
      Outcome(WithRecord(st, i, r'), CallResult(RefusedCall(RetryFenceUnproven), Some(r'.receipt), None), asked)
    else if r.retryUsed then
      Outcome(st, CallResult(RefusedCall(RetryExhausted), Some(r.receipt), None), asked)
    else
      var o := DispatchStep(WithRecord(st, i, r.RetryConsumed()), i, r.authorization, answers);
      o.(events := asked + o.events)
  }

  ghost function Step(policy: Policy, context: Context, st: LedgerState, call: Call, answers: Answers): Outcome
    requires policy.Valid() && ValidChain(policy, st.chain)
  {
    match call
    case Begin(request, purpose) => BeginStep(policy, context, st, request, purpose, answers)
    case Reconcile(claim) => ReconcileStep(policy, context, st, claim, answers)
    case Retry(claim) => RetryStep(policy, context, st, claim, answers)
  }

  // ---------------------------------------------------- how a ledger evolves

  /** `r` is bound to a head the chain has moved past. */
  ghost predicate Superseded(chain: seq<Receipt>, r: Record)
    requires chain != []
  {
    !r.state.Verified? && r.authorization.head != Head(chain).Digest()
  }

  /** Verified and preserved records are final, superseded ones are frozen, and
      a consumed retry is never given back. */
  ghost predicate RecordEvolves(chain: seq<Receipt>, r: Record, r': Record)
    requires chain != []
  {
    && SameTransition(r, r')
    && (r.state.Verified? || r.state.PreservedForOwner? || Superseded(chain, r) ==> r' == r)
    && (r.retryUsed ==> r'.retryUsed)
  }

  ghost predicate Evolves(st: LedgerState, st': LedgerState) {
    && st.chain != [] && st.chain <= st'.chain
    && |st.records| <= |st'.records|
    && (forall i :: 0 <= i < |st.records| ==> RecordEvolves(st.chain, st.records[i], st'.records[i]))
  }

  lemma EvolvesOne(st: LedgerState, st': LedgerState, i: nat, r': Record)
    requires st.chain != [] && st.chain <= st'.chain
    requires i < |st.records| && st'.records == st.records[i := r'] && RecordEvolves(st.chain, st.records[i], r')
    ensures Evolves(st, st')
  {
  }

  lemma EvolvesTransitively(policy: Policy, a: LedgerState, b: LedgerState, c: LedgerState)
    requires policy.Valid() && ValidChain(policy, c.chain)
    requires AllAnchored(a.chain, a.records)
    requires Evolves(a, b) && Evolves(b, c)
    ensures Evolves(a, c)
  {
    forall i | 0 <= i < |a.records| ensures RecordEvolves(a.chain, a.records[i], c.records[i]) {
      assert RecordEvolves(a.chain, a.records[i], b.records[i]);
      assert RecordEvolves(b.chain, b.records[i], c.records[i]);
      if Superseded(a.chain, a.records[i]) {
        assert AnchoredRecord(a.chain, a.records, i);
        StaysSuperseded(policy, a.chain, a.records, a.records[i], b.chain, c.chain);
      }
    }
  }

  /** A record bound to a superseded head stays superseded however the chain grows. */
  lemma StaysSuperseded(policy: Policy, chain: seq<Receipt>, records: seq<Record>, r: Record, chain': seq<Receipt>,
          whole: seq<Receipt>)
    requires policy.Valid() && ValidChain(policy, whole)
    requires chain != [] && chain <= chain' <= whole
    requires Superseded(chain, r) && Anchored(chain, records, r)
    ensures Superseded(chain', r)
  {
    var j := SupersededAt(chain, records, r);
    assert whole[j] == chain[j] && whole[|chain'| - 1] == Head(chain');
    HeadsDiffer(policy, whole, j, |chain'| - 1);
  }

  /** A superseded record names a receipt before the head. */
  lemma SupersededAt(chain: seq<Receipt>, records: seq<Record>, r: Record) returns (j: nat)
    requires chain != [] && Superseded(chain, r) && Anchored(chain, records, r)
    ensures j < |chain| - 1 && r.authorization.head == chain[j].Digest()
  {
    var k :| AnchoredAt(chain, records, r, k);
    j := k;
  }

  lemma HeadsDiffer(policy: Policy, chain: seq<Receipt>, i: nat, j: nat)
    requires policy.Valid() && ValidChain(policy, chain) && i < j < |chain|
    ensures chain[i].Digest() != chain[j].Digest()
  {
    if chain[i].Digest() == chain[j].Digest() {
      HeadsNeverRecur(policy, chain, i, j);
    }
  }

  // --------------------------------------------------------- preservation

  ghost predicate Open(r: Record) {
    r.state.Claimed? || r.state.Quarantined? || r.state.RetryAllowed?
  }

  lemma UpdateShaped(policy: Policy, r: Record, state: TransitionState, readback: Option<Digest>)
    requires Shaped(policy, r) && !state.Verified? && !(r.retryUsed && state.RetryAllowed?)
    ensures Shaped(policy, r.Updated(state, readback, None)) && SameTransition(r, r.Updated(state, readback, None))
  {
  }

  lemma UnverifiedUpdateKeeps(policy: Policy, st: LedgerState, i: nat, state: TransitionState, readback: Option<Digest>)
    requires Inv(policy, st) && i < |st.records| && Open(st.records[i])
    requires st.records[i].authorization.head == Head(st.chain).Digest()
    requires !state.Verified? && !(st.records[i].retryUsed && state.RetryAllowed?)
    ensures var st' := WithRecord(st, i, st.records[i].Updated(state, readback, None));
        Inv(policy, st') && Evolves(st, st')
  {
    var r' := st.records[i].Updated(state, readback, None);
    UpdateShaped(policy, st.records[i], state, readback);
    ReplaceKeeps(policy, st, i, r');
    EvolvesOne(st, WithRecord(st, i, r'), i, r');
  }

  /** Reconciliation of one open record keeps the invariant, whatever the broker reads back. */
  lemma ReadbackKeeps(policy: Policy, st: LedgerState, i: nat, authorization: Authorization, allowRetry: bool,
          readback: Option<Readback>)
    requires policy.Valid() && Inv(policy, st) && i < |st.records| && Open(st.records[i])
    requires st.records[i].authorization.head == Head(st.chain).Digest()
    ensures var o := ReadbackStep(st, i, authorization, allowRetry, readback);
        Inv(policy, o.state) && Evolves(st, o.state)
  {
    var r := st.records[i];
    if readback.None? || readback.value.state.Ambiguous? {
      UnverifiedUpdateKeeps(policy, st, i, Quarantined, if readback.Some? then Some(readback.value.digest) else None);
    } else if readback.value.state.Applied? {
      var next := Advance(Head(st.chain), r.request.operation, readback.value.digest);
      if next.Some? && next.value.predecessor == Some(r.authorization.head) {
        var r' := r.Updated(Verified, Some(readback.value.digest), next);
        VerifyKeeps(policy, st, i, next.value, r');
        EvolvesOne(st, LedgerState(st.chain + [next.value], st.records[i := r'], st.hydrated), i, r');
      } else {
        UnverifiedUpdateKeeps(policy, st, i, Quarantined, None);
      }
    } else {
      UnverifiedUpdateKeeps(policy, st, i, if allowRetry
          && !r.retryUsed then RetryAllowed else PreservedForOwner, Some(readback.value.digest));
    }
  }

  lemma NewRecordShaped(policy: Policy, request: Request, purpose: Purpose, head: Receipt, reversed: Option<Digest>,
          preState: Option<Digest>)
    requires InScope(policy, request) && request.paths != []
    requires if purpose.Execute? then reversed.None? && preState.None? else reversed.Some? && preState.Some?
    ensures Shaped(policy, NewRecord(AuthorizationFor(policy, request, head), request, purpose, reversed, preState))
  {
  }

  /** A freshly reserved record is anchored at the live head, and a rollback or
      cleanup names the verified transition that produced that head. */
  lemma NewRecordAnchored(st: LedgerState, r: Record, request: Request)
    requires st.chain != [] && !r.state.Verified? && r.request == request
    requires r.authorization.head == Head(st.chain).Digest()
    requires !r.purpose.Execute? ==>
        r.predecessorTransition.Some? && r.predecessorTransition == ReversiblePredecessor(st, request)
    ensures Anchored(st.chain, st.records, r)
  {
    if !r.purpose.Execute? {
      var p := PredecessorIndex(st).value;
      assert Reverses(r, st.records[p], Head(st.chain));
    }
    assert AnchoredAt(st.chain, st.records, r, |st.chain| - 1);
  }

  lemma ReservedKeeps(policy: Policy, st: LedgerState, r: Record, answers: Answers)
    requires policy.Valid() && Inv(policy, st)
    requires Shaped(policy, r) && r.state.Claimed? && Anchored(st.chain, st.records, r)
    requires r.authorization.head == Head(st.chain).Digest()
    requires forall i :: 0 <= i < |st.records| ==> Apart(st.records[i], r)
    ensures var o := ReservedStep(st, r, answers); Inv(policy, o.state) && Evolves(st, o.state)
  {
    var reserved := st.(records := st.records + [r]);
    ReserveKeeps(policy, st, r);
    EvolvesByAppend(st, r);
    ReservedRecordKeeps(policy, reserved, |st.records|, answers);
    EvolvesTransitively(policy, st, reserved, ReservedStep(st, r, answers).state);
  }

  lemma EvolvesByAppend(st: LedgerState, r: Record)
    requires st.chain != []
    ensures Evolves(st, st.(records := st.records + [r]))
  {
  }

  lemma ReservedRecordKeeps(policy: Policy, reserved: LedgerState, i: nat, answers: Answers)
    requires policy.Valid() && Inv(policy, reserved) && i < |reserved.records| && reserved.records[i].state.Claimed?
    requires reserved.records[i].authorization.head == Head(reserved.chain).Digest()
    ensures var st' := AskStep(reserved, i, answers).state; Inv(policy, st') && Evolves(reserved, st')
  {
    if !answers.lease {
      UnverifiedUpdateKeeps(policy, reserved, i, PreservedForOwner, None);
    } else {
      ReadbackKeeps(policy, reserved, i, reserved.records[i].authorization, !answers.dispatch.Accepted?,
          answers.readback);
    }
  }

  lemma EvolvesToItself(st: LedgerState)
    requires st.chain != []
    ensures Evolves(st, st)
  {
  }

  /** `r` is the record that beginning `request` would reserve now. */
  ghost predicate Reservable(policy: Policy, st: LedgerState, request: Request, purpose: Purpose, r: Record)
    requires st.chain != []
  {
    && r == NewRecord(AuthorizationFor(policy, request, Head(st.chain)), request, purpose, r.predecessorTransition,
        r.preState)
    && InScope(policy, request) && |st.chain| <= policy.budget.totalCalls
    && Matching(st.records, request, purpose) == [] && Lookup(st.records, r.Claim()).None?
    && (purpose.Execute? ==> r.predecessorTransition.None? && r.preState.None?)
    && (!purpose.Execute? ==> r.preState.Some? && r.predecessorTransition.Some?)
    && (!purpose.Execute? ==> r.predecessorTransition == ReversiblePredecessor(st, request))
  }

  /** Beginning either changes nothing and calls nobody, or reserves a record. */
  lemma BeginReserves(policy: Policy, context: Context, st: LedgerState, request: Request, purpose: Purpose,
          answers: Answers)
    returns (r: Record)
    requires policy.Valid() && ValidChain(policy, st.chain)
    ensures var o := BeginStep(policy, context, st, request, purpose, answers);
      || (o.state == st && o.events == [])
      || (Reservable(policy, st, request, purpose, r) && o == ReservedStep(st, r, answers))
  {
    var a := AuthorizationFor(policy, request, Head(st.chain));
    r := NewRecord(a, request, purpose, if purpose.Execute? then None else ReversiblePredecessor(st, request),
                   if purpose.Execute? || answers.preState.None? then None else Some(answers.preState.value.digest));
    if Matching(st.records, request, purpose) == [] && DecisionFor(policy, context, st, request).Authorized? {
      AuthorizedFitsBudget(policy, context, Some(Head(st.chain).Digest()), request, st.chain, External(0));
      assert BeginStep(policy, context, st, request, purpose, answers)
          == AuthorizedBegin(st, a, request, purpose, answers);
      AuthorizedBeginReserves(policy, st, request, purpose, answers, r);
    }
  }

  lemma AuthorizedBeginReserves(policy: Policy, st: LedgerState, request: Request, purpose: Purpose, answers: Answers,
          r: Record)
    requires st.chain != [] && Head(st.chain).policy.Valid() && Head(st.chain).Valid()
    requires InScope(policy, request) && |st.chain| <= policy.budget.totalCalls
    requires Matching(st.records, request, purpose) == []
    requires r == NewRecord(AuthorizationFor(policy, request, Head(st.chain)), request, purpose,
                            if purpose.Execute? then None else ReversiblePredecessor(st, request),
                            if purpose.Execute? || answers.preState.None? then None
                            else Some(answers.preState.value.digest))
    ensures var o := AuthorizedBegin(st, r.authorization, request, purpose, answers);
      || (o.state == st && o.events == [])
      || (Reservable(policy, st, request, purpose, r) && o == ReservedStep(st, r, answers))
  {
  }

  /** Beginning a transition keeps the ledger invariant for every owner-host answer. */
  lemma BeginKeeps(policy: Policy, context: Context, st: LedgerState, request: Request, purpose: Purpose,
          answers: Answers)
    requires policy.Valid() && Inv(policy, st) && request.paths != []
    ensures var o := BeginStep(policy, context, st, request, purpose, answers);
        Inv(policy, o.state) && Evolves(st, o.state)
  {
    EvolvesToItself(st);
    var r := BeginReserves(policy, context, st, request, purpose, answers);
    if Reservable(policy, st, request, purpose, r) {
      NewRecordShaped(policy, request, purpose, Head(st.chain), r.predecessorTransition, r.preState);
      NewRecordAnchored(st, r, request);
      NotYetDelivered(st.records, r);
      ReservedKeeps(policy, st, r, answers);
    }
  }

  lemma NotYetDelivered(records: seq<Record>, r: Record)
    requires Matching(records, r.request, r.purpose) == [] && Lookup(records, r.Claim()).None?
    ensures forall i :: 0 <= i < |records| ==> Apart(records[i], r)
  {
    forall i | 0 <= i < |records| ensures Apart(records[i], r) {
      assert i !in Matching(records, r.request, r.purpose);
      assert !SameDelivery(records[i], r.request, r.purpose);
    }
  }

  /** A record whose re-derived authorization still matches is bound to the live head. */
  lemma CurrentAuthorization(policy: Policy, context: Context, st: LedgerState, r: Record)
    requires policy.Valid() && st.chain != []
    requires DecisionFor(policy, context, st, r.request) == Authorized(r.authorization)
    ensures r.authorization.head == Head(st.chain).Digest() && |st.chain| <= policy.budget.totalCalls
  {
    AuthorizedFitsBudget(policy, context, Some(Head(st.chain).Digest()), r.request, st.chain, External(0));
  }

  /** Reconciling keeps the ledger invariant for every read-back. */
  lemma ReconcileKeeps(policy: Policy, context: Context, st: LedgerState, claim: Digest, answers: Answers)
    requires policy.Valid() && Inv(policy, st)
    ensures var o := ReconcileStep(policy, context, st, claim, answers); Inv(policy, o.state) && Evolves(st, o.state)
  {
    EvolvesToItself(st);
    var o := ReconcileStep(policy, context, st, claim, answers);
    var found := Lookup(st.records, claim);
    if o.state != st {
      var r := st.records[found.value];
      CurrentAuthorization(policy, context, st, r);
      ReadbackKeeps(policy, st, found.value, r.authorization, true, answers.readback);
      assert o == ReadbackStep(st, found.value, r.authorization, true, answers.readback);
    }
  }

  lemma RetryConsumedKeeps(policy: Policy, st: LedgerState, i: nat)
    requires Inv(policy, st) && i < |st.records| && st.records[i].state.RetryAllowed?
    requires st.records[i].authorization.head == Head(st.chain).Digest()
    ensures var st' := WithRecord(st, i, st.records[i].RetryConsumed()); Inv(policy, st') && Evolves(st, st')
  {
    var r' := st.records[i].RetryConsumed();
    assert Shaped(policy, st.records[i]);
    ReplaceKeeps(policy, st, i, r');
    EvolvesOne(st, WithRecord(st, i, r'), i, r');
  }

  lemma RedispatchKeeps(policy: Policy, st: LedgerState, i: nat, answers: Answers)
    requires policy.Valid() && Inv(policy, st) && i < |st.records| && st.records[i].state.RetryAllowed?
    requires st.records[i].authorization.head == Head(st.chain).Digest()
    ensures var o := RedispatchStep(st, i, answers); Inv(policy, o.state) && Evolves(st, o.state)
  {
    EvolvesToItself(st);
    var r, o := st.records[i], RedispatchStep(st, i, answers);
    if st.hydrated && !answers.lease {
      UnverifiedUpdateKeeps(policy, st, i, PreservedForOwner, None);
    } else if !r.retryUsed {
      RetryConsumedKeeps(policy, st, i);
      var consumed := WithRecord(st, i, r.RetryConsumed());
      ReadbackKeeps(policy, consumed, i, r.authorization, !answers.dispatch.Accepted?, answers.readback);
      EvolvesTransitively(policy, st, consumed, o.state);
    }
  }

  /** Retrying keeps the ledger invariant for every owner-host answer. */
  lemma RetryKeeps(policy: Policy, context: Context, st: LedgerState, claim: Digest, answers: Answers)
    requires policy.Valid() && Inv(policy, st)
    ensures var o := RetryStep(policy, context, st, claim, answers); Inv(policy, o.state) && Evolves(st, o.state)
  {
    EvolvesToItself(st);
    var o := RetryStep(policy, context, st, claim, answers);
    if o.state != st {
      var i := Lookup(st.records, claim).value;
      CurrentAuthorization(policy, context, st, st.records[i]);
      RedispatchKeeps(policy, st, i, answers);
    }
  }

  /** A request, as its constructor leaves it, names at least one path. */
  predicate WellFormed(call: Call) {
    call.Begin? ==> call.request.paths != []
  }

  /** Every public call keeps the ledger invariant and only evolves the ledger. */
  lemma StepKeeps(policy: Policy, context: Context, st: LedgerState, call: Call, answers: Answers)
    requires policy.Valid() && Inv(policy, st) && WellFormed(call)
    ensures var o := Step(policy, context, st, call, answers); Inv(policy, o.state) && Evolves(st, o.state)
  {
    match call
    case Begin(request, purpose) => BeginKeeps(policy, context, st, request, purpose, answers);
    case Reconcile(claim) => ReconcileKeeps(policy, context, st, claim, answers);
    case Retry(claim) => RetryKeeps(policy, context, st, claim, answers);
  }
}
