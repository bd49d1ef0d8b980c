/** Stopping and restarting the coordinator: the sealed snapshot, the validator
    that rebuilds a ledger from one, and the exact condition under which a
    restart succeeds. */
module CanaryHydration {
  import opened Prelude
  import opened CanaryPolicy
  import opened CanaryLedger
  import opened CanarySteps

  datatype ReceiptPayload = ReceiptPayload(
    policyDigest: Digest,
    contractDigest: Digest,
    baseSha: Token,
    candidateSha: Token,
    target: Target,
    leafNumber: nat,
    requestedOperations: seq<Operation>,
    counts: map<Operation, int>,
    totalCalls: int,
    result: CanaryResult,
    readback: Digest,
    predecessor: Option<Digest>,
    digest: Digest)

  datatype RecordPayload = RecordPayload(
    authorization: Authorization,
    request: Request,
    purpose: Purpose,
    state: TransitionState,
    receipt: ExecutionReceipt,
    receiptDigest: Digest,
    canaryDigest: Option<Digest>,
    retryUsed: bool,
    predecessorTransition: Option<Digest>,
    preState: Option<Digest>)

  datatype Sealed = Sealed(
    policyDigest: Digest,
    contractDigest: Digest,
    candidateSha: Token,
    chain: seq<ReceiptPayload>,
    records: seq<RecordPayload>)

  // ----------------------------------------------------------------- seal

  function SealReceipt(r: Receipt): ReceiptPayload
    requires r.Valid()
  {
    ReceiptPayload(r.policy.Digest(), r.policy.contractDigest, r.policy.baseSha, r.policy.candidateSha, r.policy.target,
                   r.policy.leafNumber, r.policy.requestedOperations, r.counts,
                       Total(r.policy.requestedOperations, r.counts),
                   r.result, r.readback, r.predecessor, r.Digest())
  }

  function SealRecord(r: Record): RecordPayload {
    RecordPayload(r.authorization, r.request, r.purpose, r.state, r.receipt, r.receipt.Digest(),
                  if r.canary.Some? then Some(r.canary.value.Digest()) else None,
                  r.retryUsed, r.predecessorTransition, r.preState)
  }

  /** `sealed_state`. */
  function Seal(policy: Policy, st: LedgerState): Sealed
    requires forall i :: 0 <= i < |st.chain| ==> st.chain[i].Valid()
  {
    Sealed(policy.Digest(), policy.contractDigest, policy.candidateSha,
           seq(|st.chain|, i requires 0 <= i < |st.chain| => SealReceipt(st.chain[i])),
           seq(|st.records|, i requires 0 <= i < |st.records| => SealRecord(st.records[i])))
  }

  // -------------------------------------------------------------- rebuild

  function RebuildReceipt(policy: Policy, p: ReceiptPayload): Receipt {
    Receipt(policy, p.result, p.counts, p.readback, p.predecessor)
  }

  /** The checks of `_hydrate_canary_receipt`. */
  predicate ReceiptAgrees(policy: Policy, p: ReceiptPayload) {
    && p.policyDigest == policy.Digest() && p.contractDigest == policy.contractDigest
    && p.baseSha == policy.baseSha && p.candidateSha == policy.candidateSha
    && p.target == policy.target && p.leafNumber == policy.leafNumber
    && p.requestedOperations == policy.requestedOperations
    && p.counts.Keys == Elements(policy.requestedOperations)
    && (forall operation :: operation in p.counts ==> p.counts[operation] >= 0)
    && p.totalCalls == Total(policy.requestedOperations, p.counts)
    && RebuildReceipt(policy, p).Valid()
    && p.digest == RebuildReceipt(policy, p).Digest()
  }

  function FindByDigest(chain: seq<Receipt>, digest: Digest): (r: Option<Receipt>)
    ensures r.Some? ==> r.value in chain && r.value.Digest() == digest
    ensures r.None? ==> forall i :: 0 <= i < |chain| ==> chain[i].Digest() != digest
  {
    if chain == [] then None
    else
      var last := chain[|chain| - 1];
      if last.Digest() == digest then Some(last) else FindByDigest(chain[..|chain| - 1], digest)
  }

  function RebuildRecord(chain: seq<Receipt>, p: RecordPayload): Record {
    Record(p.authorization, p.request, p.purpose, p.state, p.receipt,
           if p.canaryDigest.None? then None else FindByDigest(chain, p.canaryDigest.value),
           p.retryUsed, p.predecessorTransition, p.preState)
  }

  function RebuildChain(policy: Policy, payloads: seq<ReceiptPayload>): (r: seq<Receipt>)
    ensures |r| == |payloads|
    ensures forall i :: 0 <= i < |r| ==> r[i] == RebuildReceipt(policy, payloads[i])
  {
    seq(|payloads|, i requires 0 <= i < |payloads| => RebuildReceipt(policy, payloads[i]))
  }

  function RebuildRecords(chain: seq<Receipt>, payloads: seq<RecordPayload>): (r: seq<Record>)
    ensures |r| == |payloads|
    ensures forall i :: 0 <= i < |r| ==> r[i] == RebuildRecord(chain, payloads[i])
  {
    seq(|payloads|, i requires 0 <= i < |payloads| => RebuildRecord(chain, payloads[i]))
  }

  function Rebuild(policy: Policy, sealed: Sealed): LedgerState {
    var chain := RebuildChain(policy, sealed.chain);
    LedgerState(chain, RebuildRecords(chain, sealed.records), true)
  }

  /** The redundant parts of a snapshot agree with what they repeat. */
  ghost predicate Agrees(policy: Policy, sealed: Sealed) {
    && sealed.policyDigest == policy.Digest()
    && sealed.contractDigest == policy.contractDigest
    && sealed.candidateSha == policy.candidateSha
    && (forall i :: 0 <= i < |sealed.chain| ==> ReceiptAgrees(policy, sealed.chain[i]))
    && (forall i :: 0 <= i < |sealed.records| ==> sealed.records[i].receiptDigest == sealed.records[i].receipt.Digest())
  }

  /** No unverified record is bound to a head the chain has moved past. */
  ghost predicate NoneSuperseded(st: LedgerState)
    requires st.chain != []
  {
    forall i :: 0 <= i < |st.records| ==> !Superseded(st.chain, st.records[i])
  }

  /** What hydration decides: an agreeing snapshot of a ledger that satisfies
      the whole invariant and holds no superseded record. */
  ghost predicate Hydratable(policy: Policy, sealed: Sealed) {
    var st := Rebuild(policy, sealed);
    Agrees(policy, sealed) && Inv(policy, st) && NoneSuperseded(st)
  }

  // ------------------------------------------------------------ record checks

  /** A rebuilt record hangs on the chain as `_hydrate_record` demands. */
  ghost predicate Bound(chain: seq<Receipt>, r: Record)
    requires chain != []
  {
    && FindByDigest(chain, r.authorization.head).Some?
    && (r.state.Verified? ==>
        r.canary.Some? && r.canary.value in chain && r.canary.value.predecessor == Some(r.authorization.head))
    && (!r.state.Verified? ==> r.authorization.head == Head(chain).Digest())
  }

  /** The checks of `_hydrate_record`, in the order of the source. */
  predicate RecordAdmitted(policy: Policy, chain: seq<Receipt>, p: RecordPayload)
    requires chain != []
  {
    var receipt, authorization := p.receipt, p.authorization;
    var canary := if p.canaryDigest.None? then None else FindByDigest(chain, p.canaryDigest.value);
    && p.request.paths != []
    && authorization.policyDigest == policy.Digest() && authorization.contractDigest == policy.contractDigest
    && authorization.requestDigest == p.request.Digest()
    && FindByDigest(chain, authorization.head).Some?
    && receipt.Valid() && p.receiptDigest == receipt.Digest()
    && receipt.policyDigest == authorization.policyDigest && receipt.contractDigest == authorization.contractDigest
    && receipt.claimDigest == authorization.Claim() && receipt.requestDigest == authorization.requestDigest
    && receipt.head == authorization.head
    && receipt.purpose == p.purpose && receipt.state == p.state
    && receipt.retryUsed == p.retryUsed
    && receipt.predecessorTransition == p.predecessorTransition
    && receipt.preState == p.preState
    && (if p.state.Verified? then
          canary.Some? && receipt.canaryReceipt == p.canaryDigest
              && canary.value.predecessor == Some(authorization.head)
        else
          canary.None? && receipt.canaryReceipt.None?)
    && (!p.state.Verified? ==> authorization.head == Head(chain).Digest())
  }

  lemma AdmittedRecord(policy: Policy, chain: seq<Receipt>, p: RecordPayload)
    requires chain != []
    ensures var r := RebuildRecord(chain, p);
      RecordAdmitted(policy, chain, p) <==>
          p.receiptDigest == p.receipt.Digest() && Consistent(policy, r) && Bound(chain, r)
  {
  }

  /** In a ledger that satisfies the invariant, the unsuperseded records are the bound ones. */
  lemma InvariantBinds(policy: Policy, st: LedgerState, i: nat)
    requires Inv(policy, st) && i < |st.records|
    ensures Consistent(policy, st.records[i])
    ensures !Superseded(st.chain, st.records[i]) <==> Bound(st.chain, st.records[i])
  {
    var r := st.records[i];
    assert Shaped(policy, r);
    assert AnchoredRecord(st.chain, st.records, i);
    var j :| AnchoredAt(st.chain, st.records, r, j);
    if r.state.Verified? {
      ChainLinks(policy, st.chain, j + 1);
      AnchoredIsBound(st.chain, st.records, r, j);
    } else {
      OpenIsBoundAtHead(st.chain, st.records, r, j);
    }
  }

  lemma ChainLinks(policy: Policy, chain: seq<Receipt>, c: int)
    requires ValidChain(policy, chain) && 0 < c < |chain|
    ensures chain[c].predecessor == Some(chain[c - 1].Digest())
  {
    assert Linked(policy, chain, c);
  }

  lemma AnchoredIsBound(chain: seq<Receipt>, records: seq<Record>, r: Record, j: int)
    requires AnchoredAt(chain, records, r, j) && r.state.Verified?
    requires chain[j + 1].predecessor == Some(chain[j].Digest())
    ensures Bound(chain, r) && !Superseded(chain, r)
  {
  }

  lemma OpenIsBoundAtHead(chain: seq<Receipt>, records: seq<Record>, r: Record, j: int)
    requires AnchoredAt(chain, records, r, j) && !r.state.Verified?
    ensures !Superseded(chain, r) <==> Bound(chain, r)
  {
  }

  // -------------------------------------------------------- policy and reversal

  /** `_require_hydrated_policy_authorization`. */
  predicate AuthorizedAt(policy: Policy, r: Record, predecessor: Receipt) {
    && InScope(policy, r.request)
    && r.authorization == AuthorizationFor(policy, r.request, predecessor)
    && (r.purpose.Execute? ==> r.predecessorTransition.None? && r.preState.None?)
  }

  /** A rollback or cleanup reverses the first verified record that carries `predecessor`. */
  predicate ReversalHolds(records: seq<Record>, r: Record, predecessor: Receipt) {
    r.purpose.Execute? ||
    var found := Positions(records, (e: Record) => e.state.Verified? && e.canary == Some(predecessor));
    found != [] &&
    var earlier := records[found[0]];
    && r.predecessorTransition == Some(earlier.receipt.Digest())
    && r.preState.Some?
    && InverseOf(earlier.request.operation) == Some(r.request.operation)
    && r.request.branch == earlier.request.branch
    && r.request.paths == earlier.request.paths
  }

  lemma ReversalFound(records: seq<Record>, r: Record, predecessor: Receipt)
    requires ReversalHolds(records, r, predecessor) && !r.purpose.Execute?
    ensures exists i :: 0 <= i < |records| && Reverses(r, records[i], predecessor)
  {
    var found := Positions(records, (e: Record) => e.state.Verified? && e.canary == Some(predecessor));
    assert Reverses(r, records[found[0]], predecessor);
  }

  lemma ReversalComplete(policy: Policy, chain: seq<Receipt>, records: seq<Record>, r: Record, predecessor: Receipt,
          i: nat)
    requires Bijection(chain, records) && Consistent(policy, r)
    requires i < |records| && Reverses(r, records[i], predecessor)
    ensures ReversalHolds(records, r, predecessor)
  {
    var p := (e: Record) => e.state.Verified? && e.canary == Some(predecessor);
    forall k | 0 <= k < |records| && p(records[k]) ensures k == i {
      assert k < i ==> NotSameReceipt(records[k], records[i]);
      assert i < k ==> NotSameReceipt(records[i], records[k]);
    }
    OnlyPosition(records, p, i);
  }

  // --------------------------------------------------------------- bijection

  /** The operation whose count rose between two receipts, when exactly one rose by one. */
  function RaisedOperation(policy: Policy, before: map<Operation, int>, after: map<Operation, int>): Option<Operation>
    requires forall operation :: operation in policy.requestedOperations ==> operation in before && operation in after
  {
    var differences := Differences(policy.requestedOperations, before, after);
    var changed := Positions(differences, d => d == 1);
    if |changed| != 1 || exists i :: 0 <= i < |differences| && differences[i] != 0 && differences[i] != 1 then None
    else Some(policy.requestedOperations[changed[0]])
  }

  lemma RaisedIsTheOneCall(policy: Policy, before: map<Operation, int>, operation: Operation)
    requires Distinct(policy.requestedOperations) && operation in policy.requestedOperations
    requires before.Keys == Elements(policy.requestedOperations)
    ensures RaisedOperation(policy, before, before[operation := before[operation] + 1]) == Some(operation)
  {
    var operations, after := policy.requestedOperations, before[operation := before[operation] + 1];
    var k :| 0 <= k < |operations| && operations[k] == operation;
    var differences := Differences(operations, before, after);
    assert forall i :: 0 <= i < |differences| && i != k ==> differences[i] == 0;
    OnlyPosition(differences, d => d == 1, k);
  }

  /** The operation of the one call between two count tables. */
  lemma RaisedBetween(policy: Policy, before: map<Operation, int>, after: map<Operation, int>)
    requires Distinct(policy.requestedOperations) && before.Keys == Elements(policy.requestedOperations)
    requires OneCallMore(policy.requestedOperations, before, after)
    ensures after.Keys == before.Keys
    ensures var raised := RaisedOperation(policy, before, after);
      raised.Some? && raised.value in before && after == before[raised.value := before[raised.value] + 1]
  {
    var operation :| operation in policy.requestedOperations && operation in before
        && after == before[operation := before[operation] + 1];
    RaisedIsTheOneCall(policy, before, operation);
  }

  predicate Candidate(r: Record, previous: Receipt, receipt: Receipt, operation: Operation) {
    && r.state.Verified? && r.canary == Some(receipt)
    && r.authorization.head == previous.Digest()
    && r.request.operation == operation
    && r.receipt.canaryReceipt == Some(receipt.Digest())
    && r.receipt.semanticReadback == Some(receipt.readback)
  }

  /** Everything the bijection check has to establish. */
  ghost predicate Sound(policy: Policy, chain: seq<Receipt>, records: seq<Record>) {
    && AllShaped(policy, records)
    && AllAnchored(chain, records)
    && Bijection(chain, records)
  }

  /** A verified record of a sound ledger sits next to the receipt it produced. */
  lemma VerifiedPosition(policy: Policy, chain: seq<Receipt>, records: seq<Record>, i: nat)
    requires policy.Valid() && ValidChain(policy, chain) && AllAnchored(chain, records)
    requires i < |records| && records[i].state.Verified?
    ensures records[i].canary.Some?
    ensures records[i].canary.value.counts.Keys == Elements(policy.requestedOperations)
    ensures var c := Total(policy.requestedOperations, records[i].canary.value.counts);
      0 < c < |chain| && records[i].canary == Some(chain[c]) && AnchoredAt(chain, records, records[i], c - 1)
  {
    assert AnchoredRecord(chain, records, i);
    var j :| AnchoredAt(chain, records, records[i], j);
    CallsAreCounted(policy, chain, j + 1);
  }

  lemma OnlyVerifier(chain: seq<Receipt>, records: seq<Record>, i: nat, k: nat)
    requires Bijection(chain, records) && i < |records| && k < |records|
    requires records[i].state.Verified? && records[k].state.Verified? && records[i].canary == records[k].canary
    ensures i == k
  {
    assert i < k ==> NotSameReceipt(records[i], records[k]);
    assert k < i ==> NotSameReceipt(records[k], records[i]);
  }

  lemma VerifierOf(policy: Policy, chain: seq<Receipt>, records: seq<Record>, c: int) returns (i: nat)
    requires policy.Valid() && ValidChain(policy, chain) && AllAnchored(chain, records) && Bijection(chain, records)
    requires 0 < c < |chain|
    ensures i < |records| && Verifies(records[i], chain[c]) && AnchoredAt(chain, records, records[i], c - 1)
  {
    assert Covered(records, chain[c]);
    i :| 0 <= i < |records| && Verifies(records[i], chain[c]);
    CallsAreCounted(policy, chain, c);
    VerifiedPosition(policy, chain, records, i);
  }

  lemma VerifierIsCandidate(policy: Policy, chain: seq<Receipt>, records: seq<Record>, c: int, r: Record)
    requires Distinct(policy.requestedOperations) && 0 < c < |chain|
    requires chain[c - 1].counts.Keys == Elements(policy.requestedOperations)
    requires Consistent(policy, r) && r.state.Verified? && AnchoredAt(chain, records, r, c - 1)
    ensures chain[c].counts.Keys == Elements(policy.requestedOperations)
    ensures RaisedOperation(policy, chain[c - 1].counts, chain[c].counts) == Some(r.request.operation)
    ensures Candidate(r, chain[c - 1], chain[c], r.request.operation)
  {
    RaisedIsTheOneCall(policy, chain[c - 1].counts, r.request.operation);
  }

  /** In a sound ledger the record that verifies the c-th receipt is its only candidate. */
  lemma SoundCandidate(policy: Policy, chain: seq<Receipt>, records: seq<Record>, c: int, operation: Operation)
    returns (i: nat)
    requires policy.Valid() && ValidChain(policy, chain) && Sound(policy, chain, records)
    requires 0 < c < |chain|
    requires RaisedOperation(policy, chain[c - 1].counts, chain[c].counts) == Some(operation)
    ensures i < |records|
    ensures Candidates(records, chain[c - 1], chain[c], operation) == [i]
    ensures Upheld(policy, records, i, chain[c - 1])
  {
    i := VerifierOf(policy, chain, records, c);
    assert Shaped(policy, records[i]);
    VerifierIsCandidate(policy, chain, records, c, records[i]);
    var previous, receipt := chain[c - 1], chain[c];
    var p := (r: Record) => Candidate(r, previous, receipt, operation);
    forall k | 0 <= k < |records| && p(records[k]) ensures k == i {
      OnlyVerifier(chain, records, i, k);
    }
    OnlyPosition(records, p, i);
    assert Candidates(records, previous, receipt, operation) == Positions(records, p);
    SoundRecordAt(policy, chain, records, i, c - 1);
  }

  /** A sound ledger has one verified record per non-genesis receipt. */
  lemma SoundCount(policy: Policy, chain: seq<Receipt>, records: seq<Record>)
    requires policy.Valid() && ValidChain(policy, chain) && AllAnchored(chain, records) && Bijection(chain, records)
    ensures |Positions(records, (r: Record) => r.state.Verified?)| == |chain| - 1
  {
    var verified := Positions(records, (r: Record) => r.state.Verified?);
    var position := map i | i in Elements(verified) :: PositionOf(policy, records[i]);
    forall i | i in position ensures 0 < position[i] < |chain| && records[i].canary == Some(chain[position[i]]) {
      VerifiedPosition(policy, chain, records, i);
    }
    forall c | 0 < c < |chain| ensures c in position.Values {
      var i := VerifierOf(policy, chain, records, c);
      CallsAreCounted(policy, chain, c);
      assert i in position && position[i] == c;
    }
    SamePosition(chain, records, position);
    InjectiveCardinality(position);
    DistinctCardinality(verified);
    assert position.Keys == Elements(verified);
    assert position.Values == UpTo(|chain| - 1);
  }

  lemma SamePosition(chain: seq<Receipt>, records: seq<Record>, position: map<nat, int>)
    requires Bijection(chain, records)
    requires forall i :: i in position ==> i < |records| && records[i].state.Verified?
    requires forall i :: i in position ==> 0 < position[i] < |chain| && records[i].canary == Some(chain[position[i]])
    ensures forall x, y :: x in position && y in position && position[x] == position[y] ==> x == y
  {
    forall x, y | x in position && y in position && position[x] == position[y] ensures x == y {
      OnlyVerifier(chain, records, x, y);
    }
  }

  ghost function PositionOf(policy: Policy, r: Record): int {
    if r.canary.Some? && r.canary.value.counts.Keys == Elements(policy.requestedOperations)
    then Total(policy.requestedOperations, r.canary.value.counts) else 0
  }

  // --------------------------------------------------------------- the checks

  /** `records[i]` is the one candidate for the c-th receipt. */
  ghost predicate Matched(policy: Policy, chain: seq<Receipt>, records: seq<Record>, i: nat, c: int) {
    && 0 < c < |chain| && i < |records|
    && Candidate(records[i], chain[c - 1], chain[c], records[i].request.operation)
    && records[i].request.operation in chain[c - 1].counts
    && chain[c].counts
        == chain[c - 1].counts[records[i].request.operation := chain[c - 1].counts[records[i].request.operation] + 1]
  }

  /** The matches of the receipts 1, 2, ... found so far. */
  ghost predicate AllMatched(policy: Policy, chain: seq<Receipt>, records: seq<Record>, at: seq<nat>) {
    forall k :: 0 <= k < |at| ==> MatchedAt(policy, chain, records, at, k)
  }

  ghost predicate MatchedAt(policy: Policy, chain: seq<Receipt>, records: seq<Record>, at: seq<nat>, k: int) {
    0 <= k < |at| && Matched(policy, chain, records, at[k], k + 1)
  }

  lemma RaisedByReceipt(policy: Policy, previous: Receipt, receipt: Receipt)
    requires policy.Valid() && previous.policy == policy && previous.Valid() && Follows(policy, previous, receipt)
    ensures var raised := RaisedOperation(policy, previous.counts, receipt.counts);
      raised.Some? && raised.value in previous.counts
          && receipt.counts == previous.counts[raised.value := previous.counts[raised.value] + 1]
  {
    RaisedBetween(policy, previous.counts, receipt.counts);
  }

  /** The positions of the candidates for `receipt`. */
  function Candidates(records: seq<Record>, previous: Receipt, receipt: Receipt, operation: Operation): seq<nat> {
    Positions(records, (r: Record) => Candidate(r, previous, receipt, operation))
  }

  /** The first loop's body: the one candidate for the c-th receipt, if it passes. */
  method MatchReceipt(policy: Policy, chain: seq<Receipt>, records: seq<Record>, c: int) returns (found: Option<nat>)
    requires policy.Valid() && ValidChain(policy, chain) && 0 < c < |chain|
    ensures found.Some? ==> Matched(policy, chain, records, found.value, c)
    ensures Sound(policy, chain, records) ==> found.Some?
  {
    CountsRaised(policy, chain, c);
    var raised := RaisedOperation(policy, chain[c - 1].counts, chain[c].counts);
    if raised.None? {
      return None;
    }
    var candidates := Candidates(records, chain[c - 1], chain[c], raised.value);
    SoundHasOneCandidate(policy, chain, records, c, raised.value);
    if |candidates| != 1 {
      return None;
    }
    var record := records[candidates[0]];
    if !AuthorizedAt(policy, record, chain[c - 1]) || !ReversalHolds(records, record, chain[c - 1]) {
      return None;
    }
    CandidateIsMatch(policy, chain, records, c, raised.value, candidates[0]);
    found := Some(candidates[0]);
  }

  lemma CountsRaised(policy: Policy, chain: seq<Receipt>, c: int)
    requires policy.Valid() && ValidChain(policy, chain) && 0 < c < |chain|
    ensures forall operation :: operation in policy.requestedOperations ==>
      operation in chain[c - 1].counts && operation in chain[c].counts
    ensures RaisedOperation(policy, chain[c - 1].counts, chain[c].counts).Some?
  {
    assert Linked(policy, chain, c);
    RaisedByReceipt(policy, chain[c - 1], chain[c]);
  }

  lemma CandidateIsMatch(policy: Policy, chain: seq<Receipt>, records: seq<Record>, c: int, operation: Operation,
          i: nat)
    requires policy.Valid() && ValidChain(policy, chain) && 0 < c < |chain| && i < |records|
    requires Candidate(records[i], chain[c - 1], chain[c], operation)
    requires RaisedOperation(policy, chain[c - 1].counts, chain[c].counts) == Some(operation)
    ensures Matched(policy, chain, records, i, c)
  {
    assert Linked(policy, chain, c);
    RaisedByReceipt(policy, chain[c - 1], chain[c]);
  }

  lemma SoundHasOneCandidate(policy: Policy, chain: seq<Receipt>, records: seq<Record>, c: int, operation: Operation)
    requires policy.Valid() && ValidChain(policy, chain) && 0 < c < |chain|
    requires RaisedOperation(policy, chain[c - 1].counts, chain[c].counts) == Some(operation)
    ensures Sound(policy, chain, records) ==>
      var candidates := Candidates(records, chain[c - 1], chain[c], operation);
      |candidates| == 1 && Upheld(policy, records, candidates[0], chain[c - 1])
  {
    if Sound(policy, chain, records) {
      var i := SoundCandidate(policy, chain, records, c, operation);
    }
  }

  /** A record passes the policy and reversal checks against its predecessor. */
  ghost predicate Upheld(policy: Policy, records: seq<Record>, i: int, predecessor: Receipt) {
    && 0 <= i < |records|
    && AuthorizedAt(policy, records[i], predecessor) && ReversalHolds(records, records[i], predecessor)
  }

  lemma SoundRecordAt(policy: Policy, chain: seq<Receipt>, records: seq<Record>, i: nat, j: int)
    requires Sound(policy, chain, records)
    requires i < |records| && AnchoredAt(chain, records, records[i], j)
    ensures Upheld(policy, records, i, chain[j])
  {
    SoundRecord(policy, chain, records, i, j);
  }

  /** Every record of a sound ledger passes the policy and reversal checks. */
  lemma SoundRecord(policy: Policy, chain: seq<Receipt>, records: seq<Record>, i: nat, j: int)
    requires Sound(policy, chain, records)
    requires i < |records| && AnchoredAt(chain, records, records[i], j)
    ensures AuthorizedAt(policy, records[i], chain[j]) && ReversalHolds(records, records[i], chain[j])
  {
    assert Shaped(policy, records[i]);
    if !records[i].purpose.Execute? {
      var e :| 0 <= e < |records| && Reverses(records[i], records[e], chain[j]);
      ReversalComplete(policy, chain, records, records[i], chain[j], e);
    }
  }

  /** The second loop's test of one record. */
  predicate RecordPasses(policy: Policy, chain: seq<Receipt>, records: seq<Record>, i: nat)
    requires i < |records|
  {
    var predecessor := FindByDigest(chain, records[i].authorization.head);
    && predecessor.Some?
    && AuthorizedAt(policy, records[i], predecessor.value)
    && ReversalHolds(records, records[i], predecessor.value)
  }

  lemma SoundPasses(policy: Policy, chain: seq<Receipt>, records: seq<Record>, i: nat)
    requires Sound(policy, chain, records) && i < |records|
    ensures RecordPasses(policy, chain, records, i)
  {
    assert AnchoredRecord(chain, records, i);
    var j :| AnchoredAt(chain, records, records[i], j);
    SoundRecord(policy, chain, records, i, j);
  }

  lemma MatchedApart(policy: Policy, chain: seq<Receipt>, records: seq<Record>, i: nat, c: int, k: nat, d: int)
    requires policy.Valid() && ValidChain(policy, chain)
    requires Matched(policy, chain, records, i, c) && Matched(policy, chain, records, k, d)
    requires records[i].canary == records[k].canary
    ensures c == d
  {
    HeadsNeverRecur(policy, chain, c, d);
  }

  lemma ClaimIsKey(records: seq<Record>, i: nat, k: nat)
    requires UniqueDeliveries(records) && i < |records| && k < |records| && records[i].Claim() == records[k].Claim()
    ensures i == k
  {
  }

  lemma OtherReceiptOtherClaim(policy: Policy, chain: seq<Receipt>, records: seq<Record>, i: nat, c: int, k: nat,
          d: int)
    requires policy.Valid() && ValidChain(policy, chain) && UniqueDeliveries(records)
    requires Matched(policy, chain, records, i, c) && Matched(policy, chain, records, k, d) && c != d
    ensures records[i].Claim() != records[k].Claim()
  {
    if records[i].Claim() == records[k].Claim() {
      ClaimIsKey(records, i, k);
      MatchedApart(policy, chain, records, i, c, k, d);
    }
  }

  /** A new match never repeats a claim, so that part of the source's test cannot fail. */
  lemma MatchIsNew(policy: Policy, chain: seq<Receipt>, records: seq<Record>, at: seq<nat>, i: nat)
    requires policy.Valid() && ValidChain(policy, chain) && UniqueDeliveries(records)
    requires AllMatched(policy, chain, records, at)
    requires Matched(policy, chain, records, i, |at| + 1)
    ensures forall k :: 0 <= k < |at| ==> at[k] < |records| && records[at[k]].Claim() != records[i].Claim()
  {
    forall k | 0 <= k < |at| ensures at[k] < |records| && records[at[k]].Claim() != records[i].Claim() {
      assert MatchedAt(policy, chain, records, at, k);
      OtherReceiptOtherClaim(policy, chain, records, at[k], k + 1, i, |at| + 1);
    }
  }

  lemma MatchAppended(policy: Policy, chain: seq<Receipt>, records: seq<Record>, at: seq<nat>, i: nat)
    requires AllMatched(policy, chain, records, at) && Matched(policy, chain, records, i, |at| + 1)
    ensures AllMatched(policy, chain, records, at + [i])
  {
    forall k | 0 <= k < |at + [i]| ensures MatchedAt(policy, chain, records, at + [i], k) {
      assert k < |at| ==> MatchedAt(policy, chain, records, at, k);
    }
  }

  /** When every receipt has its match and there are no more verified records
      than matches, every verified record is a match. */
  lemma EveryVerifiedIsMatched(policy: Policy, chain: seq<Receipt>, records: seq<Record>, at: seq<nat>)
    requires policy.Valid() && ValidChain(policy, chain)
    requires |at| == |chain| - 1 == |Positions(records, (r: Record) => r.state.Verified?)|
    requires AllMatched(policy, chain, records, at)
    ensures forall i :: 0 <= i < |records| && records[i].state.Verified? ==> i in at
  {
    var verified := Positions(records, (r: Record) => r.state.Verified?);
    MatchesAreDistinct(policy, chain, records, at);
    forall k | 0 <= k < |at| ensures at[k] in verified {
      assert MatchedAt(policy, chain, records, at, k);
    }
    SameElements(at, verified);
  }

  lemma SameElements(a: seq<nat>, b: seq<nat>)
    requires Distinct(a) && Distinct(b) && |a| == |b|
    requires forall k :: 0 <= k < |a| ==> a[k] in b
    ensures forall x :: x in b ==> x in a
  {
    DistinctCardinality(a);
    DistinctCardinality(b);
    SubsetOfSameSize(Elements(a), Elements(b));
    assert forall x :: x in b ==> x in Elements(b);
  }

  lemma MatchesAreDistinct(policy: Policy, chain: seq<Receipt>, records: seq<Record>, at: seq<nat>)
    requires policy.Valid() && ValidChain(policy, chain) && AllMatched(policy, chain, records, at)
    ensures Distinct(at)
  {
    forall k, l | 0 <= k < l < |at| ensures at[k] != at[l] {
      assert MatchedAt(policy, chain, records, at, k) && MatchedAt(policy, chain, records, at, l);
      MatchesOfTwo(policy, chain, records, at, k, l);
    }
  }

  lemma MatchesOfTwo(policy: Policy, chain: seq<Receipt>, records: seq<Record>, at: seq<nat>, k: nat, l: nat)
    requires policy.Valid() && ValidChain(policy, chain) && k < l < |at|
    requires MatchedAt(policy, chain, records, at, k) && MatchedAt(policy, chain, records, at, l)
    ensures at[k] != at[l]
  {
    if at[k] == at[l] {
      MatchedApart(policy, chain, records, at[k], k + 1, at[l], l + 1);
    }
  }

  lemma PassedIsAnchored(policy: Policy, chain: seq<Receipt>, records: seq<Record>, i: nat, at: seq<nat>)
    requires i < |records| && RecordPasses(policy, chain, records, i)
    requires AllMatched(policy, chain, records, at)
    requires records[i].state.Verified? ==> i in at
    ensures Anchored(chain, records, records[i])
  {
    var r := records[i];
    var predecessor := FindByDigest(chain, r.authorization.head).value;
    var j: nat;
    if r.state.Verified? {
      j :| 0 <= j < |at| && at[j] == i;
      assert MatchedAt(policy, chain, records, at, j);
    } else {
      j :| 0 <= j < |chain| && chain[j] == predecessor;
    }
    assert chain[j] == predecessor;
    if !r.purpose.Execute? {
      ReversalFound(records, r, predecessor);
    }
    assert AnchoredAt(chain, records, r, j);
  }

  /** What the loops have seen amounts to the invariant. */
  lemma ChecksAreSound(policy: Policy, chain: seq<Receipt>, records: seq<Record>, at: seq<nat>)
    requires policy.Valid() && ValidChain(policy, chain)
    requires forall i :: 0 <= i < |records| ==> Consistent(policy, records[i])
    requires |at| == |chain| - 1 == |Positions(records, (r: Record) => r.state.Verified?)|
    requires AllMatched(policy, chain, records, at)
    requires forall i :: 0 <= i < |records| ==> RecordPasses(policy, chain, records, i)
    ensures Sound(policy, chain, records)
  {
    EveryVerifiedIsMatched(policy, chain, records, at);
    forall i | 0 <= i < |records| ensures Shaped(policy, records[i]) && AnchoredRecord(chain, records, i) {
      assert RecordPasses(policy, chain, records, i);
      PassedIsAnchored(policy, chain, records, i, at);
    }
    MatchesAreABijection(policy, chain, records, at);
  }

  lemma MatchesAreABijection(policy: Policy, chain: seq<Receipt>, records: seq<Record>, at: seq<nat>)
    requires policy.Valid() && ValidChain(policy, chain) && |at| == |chain| - 1
    requires AllMatched(policy, chain, records, at)
    requires forall i :: 0 <= i < |records| && records[i].state.Verified? ==> i in at
    ensures Bijection(chain, records)
  {
    forall c | 0 < c < |chain| ensures Covered(records, chain[c]) {
      MatchCovers(policy, chain, records, at, c);
    }
    forall i, l | 0 <= i < l < |records| ensures NotSameReceipt(records[i], records[l]) {
      MatchesDiffer(policy, chain, records, at, i, l);
    }
  }

  lemma MatchCovers(policy: Policy, chain: seq<Receipt>, records: seq<Record>, at: seq<nat>, c: nat)
    requires |at| == |chain| - 1 && AllMatched(policy, chain, records, at) && 0 < c < |chain|
    ensures Covered(records, chain[c])
  {
    assert MatchedAt(policy, chain, records, at, c - 1);
    assert Verifies(records[at[c - 1]], chain[c]);
  }

  lemma MatchesDiffer(policy: Policy, chain: seq<Receipt>, records: seq<Record>, at: seq<nat>, i: nat, l: nat)
    requires policy.Valid() && ValidChain(policy, chain) && AllMatched(policy, chain, records, at) && i < l < |records|
    requires records[i].state.Verified? ==> i in at
    requires records[l].state.Verified? ==> l in at
    ensures NotSameReceipt(records[i], records[l])
  {
    if records[i].state.Verified? && records[l].state.Verified? && records[i].canary == records[l].canary {
      var c := MatchOf(policy, chain, records, at, i);
      var d := MatchOf(policy, chain, records, at, l);
      MatchedApart(policy, chain, records, i, c, l, d);
    }
  }

  lemma MatchOf(policy: Policy, chain: seq<Receipt>, records: seq<Record>, at: seq<nat>, i: nat) returns (c: int)
    requires AllMatched(policy, chain, records, at) && i in at
    ensures 1 <= c <= |at| && at[c - 1] == i && Matched(policy, chain, records, i, c)
  {
    var k :| 0 <= k < |at| && at[k] == i;
    assert MatchedAt(policy, chain, records, at, k);
    c := k + 1;
  }

  ghost function Claims(records: seq<Record>, at: seq<nat>): (r: set<Digest>)
    ensures forall d :: d in r ==> exists k :: 0 <= k < |at| && at[k] < |records| && records[at[k]].Claim() == d
    ensures forall k :: 0 <= k < |at| && at[k] < |records| ==> records[at[k]].Claim() in r
  {
    set k | 0 <= k < |at| && at[k] < |records| :: records[at[k]].Claim()
  }

  lemma ClaimsGrow(records: seq<Record>, at: seq<nat>, i: nat)
    requires i < |records|
    ensures Claims(records, at) + {records[i].Claim()} <= Claims(records, at + [i])
  {
    var at' := at + [i];
    forall d | d in Claims(records, at) ensures d in Claims(records, at') {
      var k :| 0 <= k < |at| && at[k] < |records| && records[at[k]].Claim() == d;
      assert at'[k] == at[k];
    }
    assert at'[|at|] == i;
  }

  /** The first loop: a match for every non-genesis receipt, each with a new claim. */
  method MatchChain(policy: Policy, chain: seq<Receipt>, records: seq<Record>)
    returns (ok: bool, matched: set<Digest>, ghost at: seq<nat>)
    requires policy.Valid() && ValidChain(policy, chain) && UniqueDeliveries(records)
    ensures ok ==> AllMatched(policy, chain, records, at) && |at| == |matched| == |chain| - 1
    ensures Sound(policy, chain, records) ==> ok
  {
    matched, at := {}, [];
    for c := 1 to |chain|
      invariant MatchedSoFar(policy, chain, records, at, matched, c)
    {
      var found := MatchReceipt(policy, chain, records, c);
      if found.Some? {
        OneMoreMatch(policy, chain, records, at, matched, c, found.value);
      }
      if found.None? || records[found.value].Claim() in matched {
        return false, matched, at;
      }
      matched := matched + {records[found.value].Claim()};
      at := at + [found.value];
    }
    ok := true;
  }

  ghost predicate MatchedSoFar(policy: Policy, chain: seq<Receipt>, records: seq<Record>, at: seq<nat>,
          matched: set<Digest>, c: int)
  {
    |at| == |matched| == c - 1 && AllMatched(policy, chain, records, at) && matched <= Claims(records, at)
  }

  lemma OneMoreMatch(policy: Policy, chain: seq<Receipt>, records: seq<Record>, at: seq<nat>, matched: set<Digest>,
          c: int, i: nat)
    requires policy.Valid() && ValidChain(policy, chain) && UniqueDeliveries(records)
    requires MatchedSoFar(policy, chain, records, at, matched, c) && Matched(policy, chain, records, i, c)
    ensures records[i].Claim() !in matched
    ensures MatchedSoFar(policy, chain, records, at + [i], matched + {records[i].Claim()}, c + 1)
  {
    MatchIsNew(policy, chain, records, at, i);
    MatchAppended(policy, chain, records, at, i);
    ClaimsGrow(records, at, i);
  }

  /** The second loop: every record passes the policy and reversal checks. */
  method CheckRecords(policy: Policy, chain: seq<Receipt>, records: seq<Record>) returns (ok: bool)
    ensures ok <==> forall i :: 0 <= i < |records| ==> RecordPasses(policy, chain, records, i)
  {
    for i := 0 to |records|
      invariant forall k :: 0 <= k < i ==> RecordPasses(policy, chain, records, k)
    {
      if !RecordPasses(policy, chain, records, i) {
        return false;
      }
    }
    ok := true;
  }

  /** `_require_verified_record_bijection`: the two loops accept exactly the sound ledgers. */
  method RequireBijection(policy: Policy, chain: seq<Receipt>, records: seq<Record>) returns (ok: bool)
    requires policy.Valid() && ValidChain(policy, chain) && UniqueDeliveries(records)
    requires forall i :: 0 <= i < |records| ==> Consistent(policy, records[i])
    ensures ok <==> Sound(policy, chain, records)
  {
    if Sound(policy, chain, records) {
      SoundCount(policy, chain, records);
      forall i | 0 <= i < |records| ensures RecordPasses(policy, chain, records, i) {
        SoundPasses(policy, chain, records, i);
      }
    }
    var verified := Positions(records, (r: Record) => r.state.Verified?);
    if |verified| != |chain| - 1 {
      return false;
    }
    var complete, matched, at := MatchChain(policy, chain, records);
    var pass := CheckRecords(policy, chain, records);
    ok := complete && |matched| == |verified| && pass;
    if ok {
      ChecksAreSound(policy, chain, records, at);
    }
  }

  // --------------------------------------------------------------- hydration

  /** One sealed record against those already rebuilt: it must validate, and
      repeat neither a claim nor a delivery. */
  method AdmitRecord(policy: Policy, chain: seq<Receipt>, built: seq<Record>, payload: RecordPayload)
    returns (record: Option<Record>)
    requires chain != []
    ensures record.Some? ==> record.value == RebuildRecord(chain, payload)
    ensures record.Some? <==>
        RecordAdmitted(policy, chain, payload) && forall k :: 0 <= k < |built| ==>
        Apart(built[k], RebuildRecord(chain, payload))
  {
    if !RecordAdmitted(policy, chain, payload) {
      return None;
    }
    var r := RebuildRecord(chain, payload);
    var sameClaim, sameDelivery := Lookup(built, r.Claim()), Matching(built, r.request, r.purpose);
    if sameClaim.Some? {
      assert !Apart(built[sameClaim.value], r);
      return None;
    }
    if sameDelivery != [] {
      assert !Apart(built[sameDelivery[0]], r);
      return None;
    }
    NotYetDelivered(built, r);
    record := Some(r);
  }

  /** The loop over the sealed records. */
  method HydrateRecords(policy: Policy, chain: seq<Receipt>, payloads: seq<RecordPayload>)
    returns (records: Option<seq<Record>>)
    requires chain != []
    ensures records.Some? ==> records.value == RebuildRecords(chain, payloads)
    ensures records.Some? <==>
        AdmittedTo(policy, chain, payloads, |payloads|) && UniqueDeliveries(RebuildRecords(chain, payloads))
  {
    ghost var all := RebuildRecords(chain, payloads);
    var built: seq<Record> := [];
    for i := 0 to |payloads|
      invariant |built| == i && built == all[..i]
      invariant AdmittedTo(policy, chain, payloads, i)
      invariant UniqueDeliveries(built)
    {
      var record := AdmitRecord(policy, chain, built, payloads[i]);
      if record.None? {
        RefusedForGood(policy, chain, payloads, all, i);
        return None;
      }
      UniqueAfterAppend(built, record.value);
      built := built + [record.value];
    }
    assert all[..|payloads|] == all;
    records := Some(built);
  }

  ghost predicate AdmittedTo(policy: Policy, chain: seq<Receipt>, payloads: seq<RecordPayload>, n: nat)
    requires chain != [] && n <= |payloads|
  {
    forall i :: 0 <= i < n ==> RecordAdmitted(policy, chain, payloads[i])
  }

  /** A record that is refused against the earlier ones spoils the whole snapshot. */
  lemma RefusedForGood(policy: Policy, chain: seq<Receipt>, payloads: seq<RecordPayload>, all: seq<Record>, i: nat)
    requires chain != [] && i < |payloads| && all == RebuildRecords(chain, payloads)
    requires !(RecordAdmitted(policy, chain, payloads[i]) && forall k :: 0 <= k < i ==>
        Apart(all[..i][k], RebuildRecord(chain, payloads[i])))
    ensures !(AdmittedTo(policy, chain, payloads, |payloads|) && UniqueDeliveries(all))
  {
    if UniqueDeliveries(all) {
      forall k | 0 <= k < i ensures Apart(all[..i][k], RebuildRecord(chain, payloads[i])) {
        assert Apart(all[k], all[i]);
      }
    }
  }

  /** The chain part of `hydrate`. */
  method HydrateChain(policy: Policy, payloads: seq<ReceiptPayload>) returns (chain: Option<seq<Receipt>>)
    requires policy.Valid()
    ensures chain.Some? ==> chain.value == RebuildChain(policy, payloads)
    ensures chain.Some? <==>
      && (forall i :: 0 <= i < |payloads| ==> ReceiptAgrees(policy, payloads[i]))
      && ValidChain(policy, RebuildChain(policy, payloads))
  {
    if exists i :: 0 <= i < |payloads| && !ReceiptAgrees(policy, payloads[i]) {
      return None;
    }
    var rebuilt := RebuildChain(policy, payloads);
    var head := ValidateReceiptChain(policy, rebuilt);
    if head.Some? {
      DigestsAreKeys(policy, rebuilt);
    }
    if head.None? || |Elements(Digests(rebuilt))| != |rebuilt| {
      return None;
    }
    chain := Some(rebuilt);
  }

  /** The final checks of `hydrate`: the bijection and the head's predecessor. */
  method RequireLedger(policy: Policy, st: LedgerState) returns (ok: bool)
    requires policy.Valid() && ValidChain(policy, st.chain) && UniqueDeliveries(st.records)
    requires forall i :: 0 <= i < |st.records| ==> Consistent(policy, st.records[i])
    ensures ok <==> Sound(policy, st.chain, st.records)
  {
    ok := RequireBijection(policy, st.chain, st.records);
    if ok {
      PredecessorExists(policy, st);
    }
    ok := ok && (Head(st.chain).predecessor.Some? ==> PredecessorIndex(st).Some?);
  }

  /** `hydrate` accepts a snapshot exactly when it is hydratable, and then
      rebuilds the ledger the snapshot describes. */
  method Hydrate(policy: Policy, sealed: Sealed) returns (ledger: Option<LedgerState>)
    requires policy.Valid()
    ensures ledger.Some? <==> Hydratable(policy, sealed)
    ensures ledger.Some? ==> ledger.value == Rebuild(policy, sealed)
  {
    if sealed.policyDigest != policy.Digest() || sealed.contractDigest != policy.contractDigest
        || sealed.candidateSha != policy.candidateSha
    {
      return None;
    }
    var chain := HydrateChain(policy, sealed.chain);
    if chain.None? {
      return None;
    }
    HydratableRecords(policy, sealed);
    var records := HydrateRecords(policy, chain.value, sealed.records);
    if records.None? {
      return None;
    }
    var st := LedgerState(chain.value, records.value, true);
    AdmittedAreConsistent(policy, chain.value, sealed.records);
    var ok := RequireLedger(policy, st);
    ledger := if ok then Some(st) else None;
  }

  lemma AdmittedAreConsistent(policy: Policy, chain: seq<Receipt>, payloads: seq<RecordPayload>)
    requires chain != []
    requires forall i :: 0 <= i < |payloads| ==> RecordAdmitted(policy, chain, payloads[i])
    ensures forall i :: 0 <= i < |payloads| ==> Consistent(policy, RebuildRecords(chain, payloads)[i])
  {
    forall i | 0 <= i < |payloads| ensures Consistent(policy, RebuildRecords(chain, payloads)[i]) {
      AdmittedRecord(policy, chain, payloads[i]);
    }
  }

  function Digests(chain: seq<Receipt>): seq<Digest> {
    seq(|chain|, i requires 0 <= i < |chain| => chain[i].Digest())
  }

  /** The digests of a valid chain are distinct keys. */
  lemma DigestsAreKeys(policy: Policy, chain: seq<Receipt>)
    requires policy.Valid() && ValidChain(policy, chain)
    ensures |Elements(Digests(chain))| == |chain|
  {
    var digests := Digests(chain);
    forall i, j | 0 <= i < j < |digests| ensures digests[i] != digests[j] {
      if chain[i].Digest() == chain[j].Digest() {
        HeadsNeverRecur(policy, chain, i, j);
      }
    }
    DistinctCardinality(digests);
  }

  /** A head that is not genesis has exactly one record that produced it. */
  lemma PredecessorExists(policy: Policy, st: LedgerState)
    requires policy.Valid() && ValidChain(policy, st.chain) && Sound(policy, st.chain, st.records)
    ensures Head(st.chain).predecessor.Some? ==> PredecessorIndex(st).Some?
  {
    if Head(st.chain).predecessor.Some? {
      var head := Head(st.chain);
      assert |st.chain| > 1;
      var i := VerifierOf(policy, st.chain, st.records, |st.chain| - 1);
      assert Shaped(policy, st.records[i]);
      AdvancedOnce(st.chain, st.records, i, head);
    }
  }

  lemma AdvancedOnce(chain: seq<Receipt>, records: seq<Record>, i: nat, head: Receipt)
    requires Bijection(chain, records) && i < |records|
    requires records[i].state.Verified? && records[i].canary == Some(head) && AdvancedTo(records[i], head)
    ensures Positions(records, (r: Record) => AdvancedTo(r, head)) == [i]
  {
    var p := (r: Record) => AdvancedTo(r, head);
    forall k | 0 <= k < |records| && p(records[k]) ensures k == i {
      OnlyVerifier(chain, records, i, k);
    }
    OnlyPosition(records, p, i);
  }

  /** On an agreeing snapshot with a valid chain, the record-wise and the global
      checks together are the invariant without superseded records. */
  lemma HydratableRecords(policy: Policy, sealed: Sealed)
    requires policy.Valid() && Framed(policy, sealed)
    ensures Hydratable(policy, sealed) <==> Passes(policy, sealed)
  {
    if Hydratable(policy, sealed) {
      HydratablePasses(policy, sealed);
    }
    if Passes(policy, sealed) {
      PassedIsHydratable(policy, sealed);
    }
  }

  /** The snapshot names the policy, and its chain agrees and is valid. */
  ghost predicate Framed(policy: Policy, sealed: Sealed) {
    && sealed.policyDigest == policy.Digest()
    && sealed.contractDigest == policy.contractDigest
    && sealed.candidateSha == policy.candidateSha
    && (forall i :: 0 <= i < |sealed.chain| ==> ReceiptAgrees(policy, sealed.chain[i]))
    && ValidChain(policy, RebuildChain(policy, sealed.chain))
  }

  /** Every record is admitted, and together they pass the global checks. */
  ghost predicate Passes(policy: Policy, sealed: Sealed) {
    var st := Rebuild(policy, sealed);
    && st.chain != []
    && AdmittedTo(policy, st.chain, sealed.records, |sealed.records|)
    && UniqueDeliveries(st.records)
    && Sound(policy, st.chain, st.records)
  }

  lemma HydratablePasses(policy: Policy, sealed: Sealed)
    requires Hydratable(policy, sealed)
    ensures Passes(policy, sealed)
  {
    var st := Rebuild(policy, sealed);
    forall i | 0 <= i < |sealed.records| ensures RecordAdmitted(policy, st.chain, sealed.records[i]) {
      InvariantBinds(policy, st, i);
      assert !Superseded(st.chain, st.records[i]);
      AdmittedRecord(policy, st.chain, sealed.records[i]);
    }
  }

  lemma PassedIsHydratable(policy: Policy, sealed: Sealed)
    requires policy.Valid() && Framed(policy, sealed) && Passes(policy, sealed)
    ensures Hydratable(policy, sealed)
  {
    var st := Rebuild(policy, sealed);
    assert Inv(policy, st);
    forall i | 0 <= i < |sealed.records|
      ensures sealed.records[i].receiptDigest == sealed.records[i].receipt.Digest()
      ensures !Superseded(st.chain, st.records[i])
    {
      AdmittedRecord(policy, st.chain, sealed.records[i]);
      InvariantBinds(policy, st, i);
    }
  }

  // ---------------------------------------------------------------- restart

  /** A snapshot of a ledger that satisfies the invariant rebuilds to that ledger. */
  lemma SealThenRebuild(policy: Policy, st: LedgerState)
    requires policy.Valid() && Inv(policy, st)
    ensures Agrees(policy, Seal(policy, st))
    ensures Rebuild(policy, Seal(policy, st)) == st.(hydrated := true)
  {
    var sealed := Seal(policy, st);
    var chain := RebuildChain(policy, sealed.chain);
    assert chain == st.chain;
    var records := RebuildRecords(chain, sealed.records);
    forall i | 0 <= i < |st.records| ensures records[i] == st.records[i] {
      RecordRebuilds(policy, st, i);
    }
    assert records == st.records;
  }

  lemma RecordRebuilds(policy: Policy, st: LedgerState, i: nat)
    requires Inv(policy, st) && i < |st.records|
    ensures RebuildRecord(st.chain, SealRecord(st.records[i])) == st.records[i]
  {
    var r := st.records[i];
    if r.canary.Some? {
      CanaryInChain(policy, st, i);
      FoundAgain(st.chain, r.canary.value);
    }
  }

  lemma CanaryInChain(policy: Policy, st: LedgerState, i: nat)
    requires Inv(policy, st) && i < |st.records| && st.records[i].canary.Some?
    ensures st.records[i].canary.value in st.chain
  {
    assert Shaped(policy, st.records[i]);
    assert AnchoredRecord(st.chain, st.records, i);
    var j :| AnchoredAt(st.chain, st.records, st.records[i], j);
    assert st.chain[j + 1] in st.chain;
  }

  lemma FoundAgain(chain: seq<Receipt>, receipt: Receipt)
    requires receipt in chain
    ensures FindByDigest(chain, receipt.Digest()) == Some(receipt)
  {
    var j :| 0 <= j < |chain| && chain[j] == receipt;
    assert chain[j].Digest() == receipt.Digest();
  }

  /** A restart from the latest snapshot succeeds exactly when no unverified
      record is bound to a superseded chain head, and then rebuilds the ledger. */
  lemma RestartExactlyWhenNoneSuperseded(policy: Policy, st: LedgerState)
    requires policy.Valid() && Inv(policy, st)
    ensures Hydratable(policy, Seal(policy, st)) <==> NoneSuperseded(st)
    ensures Rebuild(policy, Seal(policy, st)) == st.(hydrated := true)
  {
    SealThenRebuild(policy, st);
  }
}
