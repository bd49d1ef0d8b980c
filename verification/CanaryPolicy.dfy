/** The mutation-free authorization contract: evidence and its digests,
    budgets, receipts, the receipt chain and the authorization decision.

    A digest is the constructor applied to the material it covers, so equal
    digests mean equal material. */
module CanaryPolicy {
  import opened Prelude

  type Token = string

  datatype Operation =
    | CreateBranch | UpdateBranch | CreatePullRequest | Comment | RequestReview
    | MarkReady | MergePullRequest | CloseIssue | DeleteBranch

  datatype CanaryResult = Genesis | Pass | DeniedResult | RolledBack | OwnerInputRequired

  datatype Purpose = Execute | Rollback | Cleanup

  datatype TransitionState = Claimed | Verified | Quarantined | RetryAllowed | PreservedForOwner

  datatype Digest =
    | External(id: nat)
    | OfPolicy(policy: Policy)
    | OfGenesis(policyDigest: Digest, contractDigest: Digest)
    | OfRequest(request: Request)
    | OfConsumptionKey(policyDigest: Digest, contractDigest: Digest, head: Digest)
    | OfClaim(consumptionKey: Digest, requestDigest: Digest)
    | OfReceipt(receipt: Receipt)
    | OfExecution(execution: ExecutionReceipt)

  datatype Budget = Budget(perOperation: map<Operation, int>, totalCalls: int)
  {
    function LimitFor(operation: Operation): int {
      if operation in perOperation then perOperation[operation] else 0
    }
  }

  datatype Target = Target(repository: Token, baselineSha: Token, leafNumber: nat)

  datatype RollbackPlan = RollbackPlan(rollbackTrigger: Token, killSwitch: Token, semanticReadback: Token)

  datatype Policy = Policy(
    baseSha: Token,
    candidateSha: Token,
    contractDigest: Digest,
    phase: int,
    leafNumber: nat,
    target: Target,
    targetPolicyIdentity: Digest,
    branch: Token,
    allowedPaths: seq<Token>,
    requestedOperations: seq<Operation>,
    budget: Budget,
    rollback: RollbackPlan)
  {
    /** What constructing the policy checks. */
    predicate Valid() {
      && baseSha != candidateSha
      && phase == 4
      && allowedPaths != [] && Distinct(allowedPaths)
      && requestedOperations != [] && Distinct(requestedOperations)
      && budget.totalCalls >= 1
      && budget.perOperation.Keys == Elements(requestedOperations)
      && (forall operation :: operation in budget.perOperation ==> budget.perOperation[operation] > 0)
      && Total(requestedOperations, budget.perOperation) >= budget.totalCalls
    }

    function Digest(): Digest {
      OfPolicy(this)
    }

    function Selected(): Selection {
      Selection(phase, leafNumber, baseSha, candidateSha, contractDigest, target, targetPolicyIdentity, Digest(),
          branch)
    }
  }

  /** The identities a standing authority must repeat exactly. */
  datatype Selection = Selection(
    phase: int,
    leafNumber: nat,
    baseSha: Token,
    candidateSha: Token,
    contractDigest: Digest,
    target: Target,
    targetPolicyIdentity: Digest,
    policyDigest: Digest,
    branch: Token)

  /** Standing authority, and what the target repository's policy allows. */
  datatype Context = Context(
    roundletEnabled: bool,
    readOnlyValidationAllowed: bool,
    targetMutationAllowed: bool,
    killSwitchActive: bool,
    selection: Selection,
    targetPolicyCurrent: bool,
    mappingAvailable: bool,
    targetPolicyEnabled: bool,
    targetSwitches: set<Operation>)

  datatype Request = Request(operation: Operation, branch: Token, paths: seq<Token>)
  {
    function Digest(): Digest {
      OfRequest(this)
    }
  }

  datatype Authorization = Authorization(policyDigest: Digest, contractDigest: Digest, requestDigest: Digest,
      head: Digest)
  {
    function ConsumptionKey(): Digest {
      OfConsumptionKey(policyDigest, contractDigest, head)
    }

    function Claim(): Digest {
      OfClaim(ConsumptionKey(), requestDigest)
    }
  }

  datatype Receipt = Receipt(
    policy: Policy,
    result: CanaryResult,
    counts: map<Operation, int>,
    readback: Digest,
    predecessor: Option<Digest>)
  {
    /** What constructing a receipt checks. */
    predicate Valid() {
      && counts.Keys == Elements(policy.requestedOperations)
      && (forall operation :: operation in counts ==> 0 <= counts[operation] <= policy.budget.LimitFor(operation))
      && Total(policy.requestedOperations, counts) <= policy.budget.totalCalls
      && (result.Genesis? ==>
            && predecessor.None?
            && (forall operation :: operation in counts ==> counts[operation] == 0)
            && readback == OfGenesis(policy.Digest(), policy.contractDigest))
      && (!result.Genesis? ==> predecessor.Some?)
    }

    function Digest(): Digest {
      OfReceipt(this)
    }
  }

  datatype ExecutionReceipt = ExecutionReceipt(
    policyDigest: Digest,
    contractDigest: Digest,
    claimDigest: Digest,
    requestDigest: Digest,
    head: Digest,
    purpose: Purpose,
    state: TransitionState,
    semanticReadback: Option<Digest>,
    canaryReceipt: Option<Digest>,
    predecessorTransition: Option<Digest>,
    preState: Option<Digest>,
    retryUsed: bool)
  {
    /** What constructing an execution receipt checks. */
    predicate Valid() {
      && (if purpose.Execute? then predecessorTransition.None? && preState.None?
          else predecessorTransition.Some? && preState.Some?)
      && !(retryUsed && state.RetryAllowed?)
      && (if state.Verified? then semanticReadback.Some? && canaryReceipt.Some? else canaryReceipt.None?)
    }

    function Digest(): Digest {
      OfExecution(this)
    }
  }

  // ---------------------------------------------------------------- counts

  function Total(operations: seq<Operation>, counts: map<Operation, int>): int
    requires forall operation :: operation in operations ==> operation in counts
  {
    if operations == [] then 0 else counts[operations[0]] + Total(operations[1..], counts)
  }

  function Differences(operations: seq<Operation>, before: map<Operation, int>,
          after: map<Operation, int>): (r: seq<int>)
    requires forall operation :: operation in operations ==> operation in before && operation in after
    ensures |r| == |operations|
    ensures forall i :: 0 <= i < |r| ==> r[i] == after[operations[i]] - before[operations[i]]
  {
    seq(|operations|, i requires 0 <= i < |operations| => after[operations[i]] - before[operations[i]])
  }

  function Sum(s: seq<int>): int {
    if s == [] then 0 else s[0] + Sum(s[1..])
  }

  /** After is before with exactly one call of one requested operation more. */
  ghost predicate OneCallMore(operations: seq<Operation>, before: map<Operation, int>, after: map<Operation, int>) {
    exists operation ::
        operation in operations && operation in before && after == before[operation := before[operation] + 1]
  }

  lemma {:induction false} TotalUnchanged(operations: seq<Operation>, before: map<Operation, int>,
          after: map<Operation, int>)
    requires forall operation :: operation in operations ==>
        operation in before && operation in after && before[operation] == after[operation]
    ensures Total(operations, before) == Total(operations, after)
  {
    if operations != [] {
      TotalUnchanged(operations[1..], before, after);
    }
  }

  lemma {:induction false} TotalOneMore(operations: seq<Operation>, before: map<Operation, int>, operation: Operation)
    requires forall other :: other in operations ==> other in before
    requires Distinct(operations) && operation in operations
    ensures Total(operations, before[operation := before[operation] + 1]) == Total(operations, before) + 1
  {
    var after := before[operation := before[operation] + 1];
    if operations[0] == operation {
      assert forall other :: other in operations[1..] ==> other != operation;
      TotalUnchanged(operations[1..], before, after);
    } else {
      TotalOneMore(operations[1..], before, operation);
    }
  }

  lemma {:induction false} TotalZero(operations: seq<Operation>, counts: map<Operation, int>)
    requires forall operation :: operation in operations ==> operation in counts && counts[operation] == 0
    ensures Total(operations, counts) == 0
  {
    if operations != [] {
      TotalZero(operations[1..], counts);
    }
  }

  lemma {:induction false} SumOfUnit(s: seq<int>, k: nat)
    requires k < |s| && s[k] == 1
    requires forall i :: 0 <= i < |s| && i != k ==> s[i] == 0
    ensures Sum(s) == 1
  {
    if k == 0 {
      SumOfZeros(s[1..]);
    } else {
      SumOfUnit(s[1..], k - 1);
    }
  }

  lemma {:induction false} SumOfZeros(s: seq<int>)
    requires forall i :: 0 <= i < |s| ==> s[i] == 0
    ensures Sum(s) == 0
  {
    if s != [] {
      SumOfZeros(s[1..]);
    }
  }

  lemma {:induction false} SumAtLeast(s: seq<int>, k: nat)
    requires k < |s|
    requires forall i :: 0 <= i < |s| ==> s[i] >= 0
    ensures Sum(s) >= s[k]
    ensures forall j :: k < j < |s| ==> Sum(s) >= s[k] + s[j]
  {
    if k > 0 {
      SumAtLeast(s[1..], k - 1);
      forall j | k < j < |s| ensures Sum(s) >= s[k] + s[j] {
        assert s[1..][j - 1] == s[j];
      }
    } else {
      forall j | 0 < j < |s| ensures Sum(s) >= s[0] + s[j] {
        SumAtLeast(s[1..], j - 1);
      }
      if |s| > 1 {
        SumAtLeast(s[1..], 0);
      }
    }
  }

  /** The arithmetic test of `validate_canary_receipt_chain` on two count tables. */
  predicate DifferencesAccepted(differences: seq<int>) {
    && (forall i :: 0 <= i < |differences| ==> differences[i] >= 0)
    && Sum(differences) == 1
    && |Positions(differences, d => d == 1)| == 1
  }

  /** The arithmetic test decides exactly "one call of one operation more". */
  lemma DifferencesDecideOneCall(operations: seq<Operation>, before: map<Operation, int>, after: map<Operation, int>)
    requires Distinct(operations)
    requires before.Keys == Elements(operations) && after.Keys == Elements(operations)
    ensures DifferencesAccepted(Differences(operations, before, after)) <==> OneCallMore(operations, before, after)
  {
    if DifferencesAccepted(Differences(operations, before, after)) {
      AcceptedIsOneCall(operations, before, after);
    }
    if OneCallMore(operations, before, after) {
      OneCallIsAccepted(operations, before, after);
    }
  }

  lemma AcceptedIsOneCall(operations: seq<Operation>, before: map<Operation, int>, after: map<Operation, int>)
    requires Distinct(operations)
    requires before.Keys == Elements(operations) && after.Keys == Elements(operations)
    requires DifferencesAccepted(Differences(operations, before, after))
    ensures OneCallMore(operations, before, after)
  {
    var d := Differences(operations, before, after);
    var k := OneDifference(d);
    assert after == before[operations[k] := before[operations[k]] + 1];
  }

  /** Accepted differences are a single one among zeros. */
  lemma OneDifference(d: seq<int>) returns (k: nat)
    requires DifferencesAccepted(d)
    ensures k < |d| && d[k] == 1 && forall i :: 0 <= i < |d| && i != k ==> d[i] == 0
  {
    SolePosition(d, x => x == 1);
    k := Positions(d, x => x == 1)[0];
    forall i | 0 <= i < |d| && i != k ensures d[i] == 0 {
      if i < k { SumAtLeast(d, i); } else { SumAtLeast(d, k); }
    }
  }

  lemma OneCallIsAccepted(operations: seq<Operation>, before: map<Operation, int>, after: map<Operation, int>)
    requires Distinct(operations)
    requires before.Keys == Elements(operations) && after.Keys == Elements(operations)
    requires OneCallMore(operations, before, after)
    ensures DifferencesAccepted(Differences(operations, before, after))
  {
    var d := Differences(operations, before, after);
    var operation :|
      operation in operations && operation in before && after == before[operation := before[operation] + 1];
    var k :| 0 <= k < |operations| && operations[k] == operation;
    assert forall i :: 0 <= i < |d| && i != k ==> d[i] == 0;
    UnitIsAccepted(d, k);
  }

  lemma UnitIsAccepted(d: seq<int>, k: nat)
    requires k < |d| && d[k] == 1 && forall i :: 0 <= i < |d| && i != k ==> d[i] == 0
    ensures DifferencesAccepted(d)
  {
    SumOfUnit(d, k);
    OnlyPosition(d, x => x == 1, k);
  }

  // ----------------------------------------------------------------- chain

  ghost predicate Follows(policy: Policy, previous: Receipt, next: Receipt) {
    && next.result.Pass?
    && next.predecessor == Some(previous.Digest())
    && OneCallMore(policy.requestedOperations, previous.counts, next.counts)
  }

  /** A genesis-to-head chain: every receipt is well formed, names its
      predecessor and records exactly one more call. */
  ghost predicate ValidChain(policy: Policy, chain: seq<Receipt>) {
    && chain != []
    && (forall i :: 0 <= i < |chain| ==> chain[i].policy == policy && chain[i].Valid())
    && chain[0].result.Genesis?
    && (forall i :: 0 < i < |chain| ==> Linked(policy, chain, i))
  }

  ghost predicate Linked(policy: Policy, chain: seq<Receipt>, i: int) {
    0 < i < |chain| && Follows(policy, chain[i - 1], chain[i])
  }

  function Head(chain: seq<Receipt>): Receipt
    requires chain != []
  {
    chain[|chain| - 1]
  }

  function GenesisReceipt(policy: Policy): (r: Receipt)
    requires policy.Valid()
    ensures r.Valid() && ValidChain(policy, [r])
  {
    var r := Receipt(policy, Genesis, map operation | operation in policy.requestedOperations :: 0,
                     OfGenesis(policy.Digest(), policy.contractDigest), None);
    assert r.Valid() by {
      TotalZero(policy.requestedOperations, r.counts);
    }
    r
  }

  /** `advance_canary_receipt`; `None` is the raised policy error. */
  function Advance(predecessor: Receipt, operation: Operation, readback: Digest): (r: Option<Receipt>)
    requires predecessor.policy.Valid() && predecessor.Valid()
    ensures r.Some? ==> r.value.Valid() && Follows(predecessor.policy, predecessor, r.value)
    ensures r.Some? ==> r.value.policy == predecessor.policy && r.value.readback == readback
    ensures r.Some? ==>
        operation in predecessor.counts && r.value.counts
        == predecessor.counts[operation := predecessor.counts[operation] + 1]
  {
    var policy := predecessor.policy;
    if (!predecessor.result.Genesis? && !predecessor.result.Pass?) || operation !in policy.requestedOperations then None
    else if predecessor.counts[operation] >= policy.budget.LimitFor(operation)
         || Total(policy.requestedOperations, predecessor.counts) >= policy.budget.totalCalls then None
    else
      var counts := predecessor.counts[operation := predecessor.counts[operation] + 1];
      assert Total(policy.requestedOperations, counts) == Total(policy.requestedOperations, predecessor.counts) + 1 by {
        TotalOneMore(policy.requestedOperations, predecessor.counts, operation);
      }
      Some(Receipt(policy, Pass, counts, readback, Some(predecessor.Digest())))
  }

  /** One iteration's comparison of a receipt with its predecessor. */
  method CheckLink(policy: Policy, previous: Receipt, receipt: Receipt) returns (linked: bool)
    requires Distinct(policy.requestedOperations)
    requires previous.counts.Keys == Elements(policy.requestedOperations)
    requires receipt.counts.Keys == Elements(policy.requestedOperations)
    ensures linked <==> Follows(policy, previous, receipt)
  {
    DifferencesDecideOneCall(policy.requestedOperations, previous.counts, receipt.counts);
    var differences := Differences(policy.requestedOperations, previous.counts, receipt.counts);
    linked := receipt.result.Pass? && receipt.predecessor == Some(previous.Digest())
        && DifferencesAccepted(differences);
  }

  /** `validate_canary_receipt_chain`: the loop accepts exactly the valid chains. */
  method ValidateReceiptChain(policy: Policy, chain: seq<Receipt>) returns (head: Option<Receipt>)
    requires policy.Valid()
    requires forall i :: 0 <= i < |chain| ==> chain[i].Valid()
    ensures head.Some? <==> ValidChain(policy, chain)
    ensures head.Some? ==> head.value == Head(chain)
  {
    if chain == [] {
      return None;
    }
    var previous: Option<Receipt> := None;
    for i := 0 to |chain|
      invariant i == 0 <==> previous.None?
      invariant i > 0 ==> previous.value == chain[i - 1] && previous.value.policy == policy
      invariant forall k :: 0 <= k < i ==> Joins(policy, chain, k)
    {
      var joins := CheckReceipt(policy, previous, chain[i]);
      if !joins {
        assert !Joins(policy, chain, i);
        JoinedIsValid(policy, chain);
        return None;
      }
      previous := Some(chain[i]);
    }
    JoinedIsValid(policy, chain);
    head := previous;
  }

  /** The i-th receipt takes its place in the chain. */
  ghost predicate Joins(policy: Policy, chain: seq<Receipt>, i: int) {
    && 0 <= i < |chain| && chain[i].policy == policy
    && (i == 0 ==> chain[i].result.Genesis?)
    && (i > 0 ==> Linked(policy, chain, i))
  }

  lemma JoinedIsValid(policy: Policy, chain: seq<Receipt>)
    requires chain != [] && forall i :: 0 <= i < |chain| ==> chain[i].Valid()
    ensures ValidChain(policy, chain) <==> forall i :: 0 <= i < |chain| ==> Joins(policy, chain, i)
  {
    if forall i :: 0 <= i < |chain| ==> Joins(policy, chain, i) {
      forall i | 0 < i < |chain| ensures Linked(policy, chain, i) {
        assert Joins(policy, chain, i);
      }
      assert Joins(policy, chain, 0);
      forall i | 0 <= i < |chain| ensures chain[i].policy == policy {
        assert Joins(policy, chain, i);
      }
    }
  }

  /** The loop's body: the first receipt is genesis, every other one follows. */
  method CheckReceipt(policy: Policy, previous: Option<Receipt>, receipt: Receipt) returns (joins: bool)
    requires policy.Valid() && receipt.Valid()
    requires previous.Some? ==> previous.value.policy == policy && previous.value.Valid()
    ensures joins <==>
      && receipt.policy == policy
      && (previous.None? ==> receipt.result.Genesis?)
      && (previous.Some? ==> Follows(policy, previous.value, receipt))
  {
    if receipt.policy.Digest() != policy.Digest() {
      return false;
    }
    if previous.None? {
      joins := receipt.result.Genesis? && receipt.predecessor.None?;
    } else {
      joins := CheckLink(policy, previous.value, receipt);
    }
  }

  lemma FollowingTotal(operations: seq<Operation>, before: map<Operation, int>, after: map<Operation, int>)
    requires Distinct(operations) && OneCallMore(operations, before, after)
    requires before.Keys == Elements(operations)
    ensures after.Keys == before.Keys && Total(operations, after) == Total(operations, before) + 1
  {
    var operation :| operation in operations && operation in before
        && after == before[operation := before[operation] + 1];
    TotalOneMore(operations, before, operation);
  }

  /** The i-th receipt of a valid chain accounts for exactly i calls. */
  lemma {:induction false} CallsAreCounted(policy: Policy, chain: seq<Receipt>, i: nat)
    requires policy.Valid() && ValidChain(policy, chain) && i < |chain|
    ensures Total(policy.requestedOperations, chain[i].counts) == i
  {
    if i == 0 {
      TotalZero(policy.requestedOperations, chain[0].counts);
    } else {
      CallsAreCounted(policy, chain, i - 1);
      assert Linked(policy, chain, i);
      FollowingTotal(policy.requestedOperations, chain[i - 1].counts, chain[i].counts);
    }
  }

  /** A chain head never recurs: equal digests sit at equal positions. */
  lemma HeadsNeverRecur(policy: Policy, chain: seq<Receipt>, i: nat, j: nat)
    requires policy.Valid() && ValidChain(policy, chain)
    requires i < |chain| && j < |chain| && chain[i].Digest() == chain[j].Digest()
    ensures i == j
  {
    CallsAreCounted(policy, chain, i);
    CallsAreCounted(policy, chain, j);
  }

  /** A chain is never longer than the total budget allows, and no operation exceeds its own limit. */
  lemma ChainWithinBudget(policy: Policy, chain: seq<Receipt>)
    requires policy.Valid() && ValidChain(policy, chain)
    ensures |chain| - 1 <= policy.budget.totalCalls
    ensures forall i, operation :: 0 <= i < |chain| && operation in chain[i].counts ==>
        chain[i].counts[operation] <= policy.budget.LimitFor(operation)
  {
    CallsAreCounted(policy, chain, |chain| - 1);
  }

  // --------------------------------------------------------- authorization

  datatype Denial =
    | AuthorityDisabled | KillSwitch | StaleBinding | StaleTargetPolicy
    | OutsideVocabulary | OutsideBranch | OutsidePaths | ChainUnavailable | InvalidChain | HeadConflict
    | MappingUnavailable | TargetDenies | BudgetExhausted

  datatype Decision = Authorized(authorization: Authorization) | Denied(denial: Denial)

  predicate InScope(policy: Policy, request: Request) {
    && request.operation in policy.requestedOperations
    && request.branch == policy.branch
    && forall path :: path in request.paths ==> path in policy.allowedPaths
  }

  function AuthorizationFor(policy: Policy, request: Request, head: Receipt): Authorization {
    Authorization(policy.Digest(), policy.contractDigest, request.Digest(), head.Digest())
  }

  /** `authorize_canary_request`, with the selected prior receipt digest passed in. */
  ghost function Authorize(policy: Policy, context: Context, prior: Option<Digest>, request: Request,
          chain: seq<Receipt>): Decision
    requires policy.Valid()
  {
    if !context.roundletEnabled || !context.readOnlyValidationAllowed || !context.targetMutationAllowed then
        Denied(AuthorityDisabled)
    else if context.killSwitchActive then Denied(KillSwitch)
    else if context.selection != policy.Selected() then Denied(StaleBinding)
    else if !context.targetPolicyCurrent then Denied(StaleTargetPolicy)
    else if request.operation !in policy.requestedOperations then Denied(OutsideVocabulary)
    else if request.branch != policy.branch then Denied(OutsideBranch)
    else if exists path :: path in request.paths && path !in policy.allowedPaths then Denied(OutsidePaths)
    else if prior.None? then Denied(ChainUnavailable)
    else if !ValidChain(policy, chain) then Denied(InvalidChain)
    else
      var head := Head(chain);
      if head.Digest() != prior.value then Denied(HeadConflict)
      else if !context.mappingAvailable then Denied(MappingUnavailable)
      else if !context.targetPolicyEnabled || request.operation !in context.targetSwitches then Denied(TargetDenies)
      else if head.counts[request.operation] >= policy.budget.LimitFor(request.operation)
           || Total(policy.requestedOperations, head.counts) >= policy.budget.totalCalls then Denied(BudgetExhausted)
      else Authorized(AuthorizationFor(policy, request, head))
  }

  /** The decision as the source computes it: the chain is re-validated by the
      loop, and every call count comes from its last receipt. */
  method AuthorizeCanaryRequest(policy: Policy, context: Context, prior: Option<Digest>, request: Request,
          chain: seq<Receipt>)
    returns (d: Decision)
    requires policy.Valid()
    requires forall i :: 0 <= i < |chain| ==> chain[i].Valid()
    ensures d == Authorize(policy, context, prior, request, chain)
  {
    if !context.roundletEnabled || !context.readOnlyValidationAllowed || !context.targetMutationAllowed {
      return Denied(AuthorityDisabled);
    }
    if context.killSwitchActive {
      return Denied(KillSwitch);
    }
    if context.selection != policy.Selected() {
      return Denied(StaleBinding);
    }
    if !context.targetPolicyCurrent {
      return Denied(StaleTargetPolicy);
    }
    if request.operation !in policy.requestedOperations {
      return Denied(OutsideVocabulary);
    }
    if request.branch != policy.branch {
      return Denied(OutsideBranch);
    }
    if exists path :: path in request.paths && path !in policy.allowedPaths {
      return Denied(OutsidePaths);
    }
    if prior.None? {
      return Denied(ChainUnavailable);
    }
    var head := ValidateReceiptChain(policy, chain);
    if head.None? {
      return Denied(InvalidChain);
    }
    if head.value.Digest() != prior.value {
      return Denied(HeadConflict);
    }
    if !context.mappingAvailable {
      return Denied(MappingUnavailable);
    }
    if !context.targetPolicyEnabled || request.operation !in context.targetSwitches {
      return Denied(TargetDenies);
    }
    var counts := head.value.counts;
    if counts[request.operation] >= policy.budget.LimitFor(request.operation)
       || Total(policy.requestedOperations, counts) >= policy.budget.totalCalls {
      return Denied(BudgetExhausted);
    }
    d := Authorized(AuthorizationFor(policy, request, head.value));
  }

  /** An authorized request is in scope, is bound to the live head, and one
      more verified call of it always fits the budget. */
  lemma AuthorizedFitsBudget(policy: Policy, context: Context, prior: Option<Digest>, request: Request,
          chain: seq<Receipt>, readback: Digest)
    requires policy.Valid()
    requires Authorize(policy, context, prior, request, chain).Authorized?
    ensures InScope(policy, request) && ValidChain(policy, chain)
    ensures Authorize(policy, context, prior, request, chain).authorization
        == AuthorizationFor(policy, request, Head(chain))
    ensures |chain| <= policy.budget.totalCalls
    ensures Advance(Head(chain), request.operation, readback).Some?
    ensures ValidChain(policy, chain + [Advance(Head(chain), request.operation, readback).value])
  {
    CallsAreCounted(policy, chain, |chain| - 1);
    assert |chain| > 1 ==> Linked(policy, chain, |chain| - 1);
    ExtendedChain(policy, chain, Advance(Head(chain), request.operation, readback).value);
  }

  lemma ExtendedChain(policy: Policy, chain: seq<Receipt>, next: Receipt)
    requires ValidChain(policy, chain)
    requires next.Valid() && next.policy == policy && Follows(policy, Head(chain), next)
    ensures ValidChain(policy, chain + [next])
  {
    var extended := chain + [next];
    forall i | 0 < i < |extended| ensures Linked(policy, extended, i) {
      if i < |chain| {
        assert Linked(policy, chain, i);
      }
    }
  }
}
