/** The coordinator's ledger as a value: its records, its inductive invariant,
    and the effect of every public orchestrator call on it. The dictionary of
    records keyed by claim digest is the sequence of its values in insertion
    order; `UniqueDeliveries` says that the keys are distinct. */
module CanaryLedger {
  import opened Prelude
  import opened CanaryPolicy

  datatype ReadbackState = Applied | Absent | Ambiguous

  datatype Readback = Readback(state: ReadbackState, digest: Digest)

  datatype DispatchAnswer = Accepted | Refused | Raised

  /** Everything the owner host may answer during one public call. `None` is an
      exception or a malformed value; a lease that raises answers `false`. */
  datatype Answers = Answers(
    preState: Option<Readback>,
    lease: bool,
    dispatch: DispatchAnswer,
    readback: Option<Readback>)

  /** What a public call does to the owner host. */
  datatype Event =
    | LeaseAsked(authorization: Authorization, granted: bool)
    | Dispatched(authorization: Authorization)

  datatype Record = Record(
    authorization: Authorization,
    request: Request,
    purpose: Purpose,
    state: TransitionState,
    receipt: ExecutionReceipt,
    canary: Option<Receipt>,
    retryUsed: bool,
    predecessorTransition: Option<Digest>,
    preState: Option<Digest>)
  {
    function Claim(): Digest {
      authorization.Claim()
    }

    /** The execution receipt for this record's current fields. */
    function ReceiptWith(readback: Option<Digest>): ExecutionReceipt {
      ExecutionReceipt(
        authorization.policyDigest, authorization.contractDigest, Claim(), authorization.requestDigest,
        authorization.head, purpose, state, readback,
        if canary.Some? then Some(canary.value.Digest()) else None,
        predecessorTransition, preState, retryUsed)
    }

    /** The record after `update`. */
    function Updated(newState: TransitionState, readback: Option<Digest>, newCanary: Option<Receipt>): Record {
      var r := this.(state := newState, canary := newCanary);
      r.(receipt := r.ReceiptWith(readback))
    }

    /** The record after a successful `consume_retry`. */
    function RetryConsumed(): Record {
      var r := this.(retryUsed := true, state := Claimed);
      r.(receipt := r.ReceiptWith(None))
    }
  }

  function NewRecord(authorization: Authorization, request: Request, purpose: Purpose, predecessor: Option<Digest>,
          preState: Option<Digest>): Record
  {
    var r := Record(authorization, request, purpose, Claimed,
                    ExecutionReceipt(authorization.policyDigest, authorization.contractDigest, authorization.Claim(),
                                     authorization.requestDigest, authorization.head, purpose, Claimed, None, None,
                                     predecessor, preState, false),
                    None, false, predecessor, preState);
    r
  }

  datatype LedgerState = LedgerState(chain: seq<Receipt>, records: seq<Record>, hydrated: bool)

  /** The only reversible operation is branch creation. */
  function InverseOf(operation: Operation): Option<Operation> {
    if operation.CreateBranch? then Some(DeleteBranch) else None
  }

  function Lookup(records: seq<Record>, claim: Digest): (r: Option<nat>)
    ensures r.Some? ==> r.value < |records| && records[r.value].Claim() == claim
    ensures r.None? ==> forall i :: 0 <= i < |records| ==> records[i].Claim() != claim
  {
    var found := Positions(records, (record: Record) => record.Claim() == claim);
    if found == [] then None else Some(found[0])
  }

  // ------------------------------------------------------------- invariant

  /** A record agrees with its authorization and with its receipt. */
  predicate Consistent(policy: Policy, r: Record) {
    && r.authorization == Authorization(policy.Digest(), policy.contractDigest, r.request.Digest(),
        r.authorization.head)
    && r.request.paths != []
    && r.receipt == r.ReceiptWith(r.receipt.semanticReadback)
    && r.receipt.Valid()
    && (r.state.Verified? <==> r.canary.Some?)
  }

  /** A consistent record whose request the policy allows. */
  ghost predicate Shaped(policy: Policy, r: Record) {
    Consistent(policy, r) && InScope(policy, r.request)
  }

  /** `earlier` is the verified, reversible transition that produced `receipt`, and `r` exactly reverses it. */
  ghost predicate Reverses(r: Record, earlier: Record, receipt: Receipt) {
    && earlier.state.Verified? && earlier.canary == Some(receipt)
    && r.predecessorTransition == Some(earlier.receipt.Digest())
    && InverseOf(earlier.request.operation) == Some(r.request.operation)
    && r.request.branch == earlier.request.branch
    && r.request.paths == earlier.request.paths
  }

  /** `r` was bound to the j-th receipt; when verified it produced the next one. */
  ghost predicate AnchoredAt(chain: seq<Receipt>, records: seq<Record>, r: Record, j: int) {
    && 0 <= j < |chain|
    && r.authorization.head == chain[j].Digest()
    && (r.state.Verified? ==>
          && j + 1 < |chain|
          && r.canary == Some(chain[j + 1])
          && r.receipt.semanticReadback == Some(chain[j + 1].readback)
          && r.request.operation in chain[j].counts
          && chain[j + 1].counts == chain[j].counts[r.request.operation := chain[j].counts[r.request.operation] + 1])
    && (!r.purpose.Execute? ==> exists i :: 0 <= i < |records| && Reverses(r, records[i], chain[j]))
  }

  ghost predicate Anchored(chain: seq<Receipt>, records: seq<Record>, r: Record) {
    exists j :: AnchoredAt(chain, records, r, j)
  }

  ghost predicate AllShaped(policy: Policy, records: seq<Record>) {
    forall i :: 0 <= i < |records| ==> Shaped(policy, records[i])
  }

  ghost predicate AllAnchored(chain: seq<Receipt>, records: seq<Record>) {
    forall i :: 0 <= i < |records| ==> AnchoredRecord(chain, records, i)
  }

  ghost predicate AnchoredRecord(chain: seq<Receipt>, records: seq<Record>, i: int) {
    0 <= i < |records| && Anchored(chain, records, records[i])
  }

  predicate SameDelivery(r: Record, request: Request, purpose: Purpose) {
    r.request == request && r.purpose == purpose
  }

  /** Claim digests are keys, and no (request, purpose) pair is delivered twice. */
  ghost predicate UniqueDeliveries(records: seq<Record>) {
    forall i, j :: 0 <= i < j < |records| ==> Apart(records[i], records[j])
  }

  ghost predicate Apart(a: Record, b: Record) {
    a.Claim() != b.Claim() && !SameDelivery(b, a.request, a.purpose)
  }

  ghost predicate Covered(records: seq<Record>, receipt: Receipt) {
    exists i :: 0 <= i < |records| && Verifies(records[i], receipt)
  }

  ghost predicate Verifies(r: Record, receipt: Receipt) {
    r.state.Verified? && r.canary == Some(receipt)
  }

  /** Every non-genesis receipt has a verified record, and no receipt has two. */
  ghost predicate Bijection(chain: seq<Receipt>, records: seq<Record>) {
    && (forall c :: 0 < c < |chain| ==> Covered(records, chain[c]))
    && (forall i, j :: 0 <= i < j < |records| ==> NotSameReceipt(records[i], records[j]))
  }

  ghost predicate NotSameReceipt(a: Record, b: Record) {
    a.state.Verified? && b.state.Verified? ==> a.canary != b.canary
  }

  ghost predicate Inv(policy: Policy, st: LedgerState) {
    && ValidChain(policy, st.chain)
    && AllShaped(policy, st.records)
    && AllAnchored(st.chain, st.records)
    && UniqueDeliveries(st.records)
    && Bijection(st.chain, st.records)
  }

  /** The ledger of a newly constructed coordinator. */
  function Fresh(policy: Policy): (st: LedgerState)
    requires policy.Valid()
    ensures Inv(policy, st)
  {
    LedgerState([GenesisReceipt(policy)], [], false)
  }

  ghost predicate VerifiedPersist(records: seq<Record>, records': seq<Record>) {
    && |records| <= |records'|
    && forall i :: 0 <= i < |records| && records[i].state.Verified? ==> records'[i] == records[i]
  }

  lemma AnchoredPersists(chain: seq<Receipt>, records: seq<Record>, chain': seq<Receipt>, records': seq<Record>,
          r: Record)
    requires Anchored(chain, records, r)
    requires chain <= chain' && VerifiedPersist(records, records')
    ensures Anchored(chain', records', r)
  {
    var j :| AnchoredAt(chain, records, r, j);
    assert chain'[j] == chain[j];
    if !r.purpose.Execute? {
      var i :| 0 <= i < |records| && Reverses(r, records[i], chain[j]);
      assert Reverses(r, records'[i], chain'[j]);
    }
    assert AnchoredAt(chain', records', r, j);
  }

  lemma AllAnchoredPersist(chain: seq<Receipt>, records: seq<Record>, chain': seq<Receipt>, records': seq<Record>)
    requires AllAnchored(chain, records)
    requires chain <= chain' && VerifiedPersist(records, records')
    ensures forall i :: 0 <= i < |records| ==> Anchored(chain', records', records[i])
  {
    forall i | 0 <= i < |records| ensures Anchored(chain', records', records[i]) {
      assert AnchoredRecord(chain, records, i);
      AnchoredPersists(chain, records, chain', records', records[i]);
    }
  }

  /** Without new verified records the bijection stays as it was. */
  lemma BijectionPersists(chain: seq<Receipt>, records: seq<Record>, records': seq<Record>)
    requires Bijection(chain, records) && VerifiedPersist(records, records')
    requires forall i :: 0 <= i < |records'| && records'[i].state.Verified? ==>
        i < |records| && records[i].state.Verified?
    ensures Bijection(chain, records')
  {
    forall c | 0 < c < |chain| ensures Covered(records', chain[c]) {
      assert Covered(records, chain[c]);
      var i :| 0 <= i < |records| && Verifies(records[i], chain[c]);
      assert Verifies(records'[i], chain[c]);
    }
  }

  /** Reserving a fresh, anchored record keeps the invariant. */
  lemma ReserveKeeps(policy: Policy, st: LedgerState, r: Record)
    requires Inv(policy, st)
    requires Shaped(policy, r) && !r.state.Verified? && Anchored(st.chain, st.records, r)
    requires forall i :: 0 <= i < |st.records| ==> Apart(st.records[i], r)
    ensures Inv(policy, st.(records := st.records + [r]))
  {
    AnchoredAfterAppend(st.chain, st.records, r);
    BijectionPersists(st.chain, st.records, st.records + [r]);
    UniqueAfterAppend(st.records, r);
  }

  lemma AnchoredAfterAppend(chain: seq<Receipt>, records: seq<Record>, r: Record)
    requires AllAnchored(chain, records) && Anchored(chain, records, r)
    ensures AllAnchored(chain, records + [r])
  {
    AllAnchoredPersist(chain, records, chain, records + [r]);
    AnchoredPersists(chain, records, chain, records + [r], r);
  }

  lemma UniqueAfterAppend(records: seq<Record>, r: Record)
    requires UniqueDeliveries(records)
    requires forall i :: 0 <= i < |records| ==> Apart(records[i], r)
    ensures UniqueDeliveries(records + [r])
  {
  }

  /** `r'` is the same delivery as `r`: only state, receipt, canary receipt and retry flag may differ. */
  ghost predicate SameTransition(r: Record, r': Record) {
    && r'.authorization == r.authorization && r'.request == r.request && r'.purpose == r.purpose
    && r'.predecessorTransition == r.predecessorTransition && r'.preState == r.preState
  }

  /** Moving an unverified record to another unverified state keeps the invariant. */
  lemma ReplaceKeeps(policy: Policy, st: LedgerState, i: nat, r': Record)
    requires Inv(policy, st)
    requires i < |st.records| && !st.records[i].state.Verified?
    requires SameTransition(st.records[i], r') && Shaped(policy, r') && !r'.state.Verified?
    ensures Inv(policy, st.(records := st.records[i := r']))
  {
    AnchoredAfterReplace(st.chain, st.records, i, r');
    BijectionPersists(st.chain, st.records, st.records[i := r']);
    UniqueAfterReplace(st.records, i, r');
  }

  lemma AnchoredAfterReplace(chain: seq<Receipt>, records: seq<Record>, i: nat, r': Record)
    requires AllAnchored(chain, records) && i < |records| && !records[i].state.Verified?
    requires SameTransition(records[i], r') && !r'.state.Verified?
    ensures AllAnchored(chain, records[i := r'])
  {
    var records' := records[i := r'];
    AllAnchoredPersist(chain, records, chain, records');
    var j :| AnchoredAt(chain, records', records[i], j);
    if !r'.purpose.Execute? {
      var e :| 0 <= e < |records'| && Reverses(records[i], records'[e], chain[j]);
      assert Reverses(r', records'[e], chain[j]);
    }
    assert AnchoredAt(chain, records', r', j);
  }

  lemma UniqueAfterReplace(records: seq<Record>, i: nat, r': Record)
    requires UniqueDeliveries(records) && i < |records| && SameTransition(records[i], r')
    ensures UniqueDeliveries(records[i := r'])
  {
    var records' := records[i := r'];
    assert forall k :: 0 <= k < |records| ==> SameTransition(records[k], records'[k]);
  }

  /** Verifying a record bound to the live head extends chain and records together. */
  lemma VerifyKeeps(policy: Policy, st: LedgerState, i: nat, next: Receipt, r': Record)
    requires policy.Valid() && Inv(policy, st)
    requires i < |st.records| && !st.records[i].state.Verified?
    requires st.records[i].authorization.head == Head(st.chain).Digest()
    requires Advance(Head(st.chain), st.records[i].request.operation, next.readback) == Some(next)
    requires r' == st.records[i].Updated(Verified, Some(next.readback), Some(next))
    ensures Inv(policy, LedgerState(st.chain + [next], st.records[i := r'], st.hydrated))
  {
    ExtendedChain(policy, st.chain, next);
    VerifiedKeeps(policy, st, i, next, r');
  }

  /** The same for a receipt of which only its place and its counts are known. */
  lemma VerifiedKeeps(policy: Policy, st: LedgerState, i: nat, next: Receipt, r': Record)
    requires policy.Valid() && Inv(policy, st) && ValidChain(policy, st.chain + [next])
    requires i < |st.records| && !st.records[i].state.Verified?
    requires st.records[i].authorization.head == Head(st.chain).Digest()
    requires st.records[i].request.operation in Head(st.chain).counts
    requires var operation := st.records[i].request.operation;
      next.counts == Head(st.chain).counts[operation := Head(st.chain).counts[operation] + 1]
    requires r' == st.records[i].Updated(Verified, Some(next.readback), Some(next))
    ensures Inv(policy, LedgerState(st.chain + [next], st.records[i := r'], st.hydrated))
  {
    assert Shaped(policy, r') by { assert Shaped(policy, st.records[i]); }
    AnchoredAfterVerify(policy, st.chain, st.records, i, next, r');
    UniqueAfterReplace(st.records, i, r');
    BijectionAfterVerify(policy, st.chain, st.records, i, next, r');
  }

  lemma AnchoredAfterVerify(policy: Policy, chain: seq<Receipt>, records: seq<Record>, i: nat, next: Receipt,
          r': Record)
    requires policy.Valid() && ValidChain(policy, chain) && ValidChain(policy, chain + [next])
    requires AllAnchored(chain, records)
    requires i < |records| && !records[i].state.Verified?
    requires records[i].authorization.head == Head(chain).Digest()
    requires records[i].request.operation in Head(chain).counts
    requires next.counts
        == Head(chain).counts[records[i].request.operation := Head(chain).counts[records[i].request.operation] + 1]
    requires r' == records[i].Updated(Verified, Some(next.readback), Some(next))
    ensures AllAnchored(chain + [next], records[i := r'])
  {
    var chain', records' := chain + [next], records[i := r'];
    AllAnchoredPersist(chain, records, chain', records');
    AnchoredAtHead(policy, chain', records', records[i], |chain| - 1);
    AnchoredOnceVerified(chain', records', records[i], |chain| - 1, next);
  }

  /** A record is anchored at the one receipt whose digest it names. */
  lemma AnchoredAtHead(policy: Policy, chain: seq<Receipt>, records: seq<Record>, r: Record, h: nat)
    requires policy.Valid() && ValidChain(policy, chain) && Anchored(chain, records, r)
    requires h < |chain| && r.authorization.head == chain[h].Digest()
    ensures AnchoredAt(chain, records, r, h)
  {
    var j :| AnchoredAt(chain, records, r, j);
    HeadsNeverRecur(policy, chain, j, h);
  }

  lemma AnchoredOnceVerified(chain: seq<Receipt>, records: seq<Record>, r: Record, j: int, next: Receipt)
    requires AnchoredAt(chain, records, r, j) && !r.state.Verified? && j + 1 < |chain| && next == chain[j + 1]
    requires r.request.operation in chain[j].counts
    requires next.counts == chain[j].counts[r.request.operation := chain[j].counts[r.request.operation] + 1]
    ensures Anchored(chain, records, r.Updated(Verified, Some(next.readback), Some(next)))
  {
    var r' := r.Updated(Verified, Some(next.readback), Some(next));
    if !r'.purpose.Execute? {
      var e :| 0 <= e < |records| && Reverses(r, records[e], chain[j]);
      assert Reverses(r', records[e], chain[j]);
    }
    assert AnchoredAt(chain, records, r', j);
  }

  lemma BijectionAfterVerify(policy: Policy, chain: seq<Receipt>, records: seq<Record>, i: nat, next: Receipt,
          r': Record)
    requires policy.Valid() && ValidChain(policy, chain + [next])
    requires AllAnchored(chain, records) && Bijection(chain, records)
    requires i < |records| && !records[i].state.Verified? && r'.state.Verified? && r'.canary == Some(next)
    ensures Bijection(chain + [next], records[i := r'])
  {
    var chain', records' := chain + [next], records[i := r'];
    forall c | 0 < c < |chain'| ensures Covered(records', chain'[c]) {
      if c < |chain| {
        assert Covered(records, chain[c]);
        var k :| 0 <= k < |records| && Verifies(records[k], chain[c]);
        assert Verifies(records'[k], chain'[c]);
      } else {
        assert Verifies(records'[i], chain'[c]);
      }
    }
    forall k | 0 <= k < |records| && records[k].state.Verified? ensures records[k].canary != Some(next) {
      assert AnchoredRecord(chain, records, k);
      OldCanaryIsNotNew(policy, chain, records, k, next);
    }
  }

  lemma OldCanaryIsNotNew(policy: Policy, chain: seq<Receipt>, records: seq<Record>, k: nat, next: Receipt)
    requires policy.Valid() && ValidChain(policy, chain + [next])
    requires k < |records| && records[k].state.Verified? && Anchored(chain, records, records[k])
    ensures records[k].canary != Some(next)
  {
    var j :| AnchoredAt(chain, records, records[k], j);
    var chain' := chain + [next];
    assert chain'[j + 1] == chain[j + 1];
    if chain'[j + 1].Digest() == chain'[|chain|].Digest() {
      HeadsNeverRecur(policy, chain', j + 1, |chain|);
    }
  }
}
