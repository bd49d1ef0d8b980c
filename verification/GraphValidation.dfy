/** Deterministic validation of one proposed change to the dependency graph,
    the baseline it replaces, and the snapshot an accepted change leads to.
    A digest is the value it covers. */
module GraphValidation {
  import opened Prelude
  import opened GraphCycles
  import opened GraphOrdering

  /** Commit hashes, digests of outside material and other opaque identities. */
  type Atom = nat
  type TaskId = nat
  type SnapshotId = nat
  type AttemptId = nat
  type ProposalId = nat
  type VersionId = nat

  datatype EdgeKind = Explicit | PolicyDerived | SemanticInferred

  datatype Direction = DependsOn | Blocks

  datatype Confidence = High | Medium | Low

  datatype Disposition = AutoActivate | OwnerReview | Reject

  datatype OwnerRoute = NotRequired | ToOwner | OtherRoute

  datatype Binding = Binding(candidate: Atom, policy: Atom, configuration: Atom, validator: Atom)
  {
    predicate Binds(subset: Subset) {
      subset.candidate == candidate && subset.policy == policy && subset.configuration == configuration
    }
  }

  datatype Member = Member(id: Id, fingerprint: Atom, content: Atom)

  /** `{member.member_id: member.member_fingerprint}`, looked up. */
  function FingerprintOf(members: seq<Member>, id: Id): Option<Atom> {
    if members == [] then None
    else
      var last := members[|members| - 1];
      if last.id == id then Some(last.fingerprint) else FingerprintOf(members[..|members| - 1], id)
  }

  datatype Subset = Subset(
    snapshotId: SnapshotId,
    taskId: TaskId,
    source: Atom,
    candidate: Atom,
    policy: Atom,
    configuration: Atom,
    boundary: Atom,
    members: seq<Member>)
  {
    /** What constructing an affected subset checks, including its normal form. */
    predicate Valid() {
      && members != []
      && (forall i, j :: 0 <= i < j < |members| ==> members[i].id < members[j].id)
      && (forall i, j :: 0 <= i < j < |members| ==> members[i].fingerprint != members[j].fingerprint)
    }

    function Ids(): set<Id> {
      set m | m in members :: m.id
    }

    function Fingerprint(id: Id): Option<Atom> {
      FingerprintOf(members, id)
    }
  }

  /** A source or policy fact, and the content of a proposed edge. */
  datatype Relation = Relation(
    kind: EdgeKind,
    direction: Direction,
    subject: Id,
    target: Id,
    rationale: Atom,
    confidence: Confidence,
    conflicts: Atom)
  {
    /** Subject depends on target, whichever way the relation was phrased. */
    function Canonical(): Pair {
      if direction.DependsOn? then Pair(subject, target) else Pair(target, subject)
    }
  }

  datatype Provenance = Provenance(
    relation: Relation,
    candidate: Atom,
    policy: Atom,
    configuration: Atom,
    source: Atom,
    subjectFingerprint: Option<Atom>,
    targetFingerprint: Option<Atom>)

  datatype ProposedEdge = ProposedEdge(relation: Relation, trusted: Option<Relation>)
  {
    predicate Valid() {
      relation.subject != relation.target && (relation.kind.SemanticInferred? ==> trusted.None?)
    }
  }

  datatype Proposal = Proposal(id: ProposalId, attemptId: AttemptId, disposition: Disposition, ownerRoute: OwnerRoute,
      edges: seq<ProposedEdge>)
  {
    predicate Valid() {
      edges != [] && forall i :: 0 <= i < |edges| ==> edges[i].Valid()
    }

    function Ids(): set<Id> {
      (set e | e in edges :: e.relation.subject) + (set e | e in edges :: e.relation.target)
    }
  }

  datatype GraphEdge = GraphEdge(subject: Id, target: Id, kind: EdgeKind, proposalId: ProposalId,
      provenance: Provenance)

  datatype GraphMember = GraphMember(taskId: TaskId, snapshotId: SnapshotId, member: Member)

  datatype Snapshot = Snapshot(
    version: Option<VersionId>,
    binding: Option<Binding>,
    members: seq<GraphMember>,
    edges: seq<GraphEdge>,
    proposalIds: seq<ProposalId>)

  const Empty := Snapshot(None, None, [], [], [])

  function KindRank(kind: EdgeKind): nat {
    match kind case Explicit => 0 case PolicyDerived => 1 case SemanticInferred => 2
  }

  function EdgeKey(e: GraphEdge): Key {
    Key(e.subject, e.target, KindRank(e.kind))
  }

  function PairKey(e: GraphEdge): Key {
    Key(e.subject, e.target, 0)
  }

  function MemberKey(m: GraphMember): Key {
    Key(m.member.id, 0, 0)
  }

  function EdgePair(e: GraphEdge): Pair {
    Pair(e.subject, e.target)
  }

  function Pairs(edges: seq<GraphEdge>): (r: seq<Pair>)
    ensures |r| == |edges|
    ensures forall i :: 0 <= i < |r| ==> r[i] == EdgePair(edges[i])
  {
    seq(|edges|, i requires 0 <= i < |edges| => EdgePair(edges[i]))
  }

  function CanonicalPairs(edges: seq<ProposedEdge>): (r: seq<Pair>)
    ensures |r| == |edges|
    ensures forall i :: 0 <= i < |r| ==> r[i] == edges[i].relation.Canonical()
  {
    seq(|edges|, i requires 0 <= i < |edges| => edges[i].relation.Canonical())
  }

  function ProposalsOf(edges: seq<GraphEdge>): (r: seq<ProposalId>)
    ensures |r| == |edges|
    ensures forall i :: 0 <= i < |r| ==> r[i] == edges[i].proposalId
  {
    seq(|edges|, i requires 0 <= i < |edges| => edges[i].proposalId)
  }

  // -------------------------------------------------------------- baseline

  function ReplacedIds(active: Snapshot, subset: Subset): set<Id> {
    set m | m in active.members && m.taskId == subset.taskId :: m.member.id
  }

  /** What survives of the active graph when one task's subgraph is replaced. */
  function Baseline(active: Snapshot, subset: Subset, binding: Binding): Snapshot {
    if active.binding != Some(binding) then Empty
    else
      var replaced := ReplacedIds(active, subset);
      var edges := Filter(active.edges, (e: GraphEdge) => e.subject !in replaced && e.target !in replaced);
      Snapshot(None, None, Filter(active.members, (m: GraphMember) => m.member.id !in replaced), edges,
          DistinctSorted(ProposalsOf(edges)))
  }

  /** The active graph as input to validation: another binding starts afresh. */
  function CurrentFor(active: Snapshot, binding: Binding): Snapshot {
    if active.binding.Some? && active.binding != Some(binding) then Empty else active
  }

  lemma BaselineOfCurrent(active: Snapshot, subset: Subset, binding: Binding)
    ensures Baseline(CurrentFor(active, binding), subset, binding) == Baseline(active, subset, binding)
  {
  }

  // ------------------------------------------------------------ validation

  datatype Reason =
    | GraphValid | SubsetIncomplete | DuplicateEdge | CycleDetected | ProposalRejected | OwnerDecisionRequired
    | InvalidDisposition | KindNotVerifiable | ProvenanceIdentityUnavailable | ProvenanceUnavailable

  datatype GraphDecision = Accepted | PendingOwner | Rejected

  datatype Validation = Validation(decision: GraphDecision, reason: Reason, edges: seq<GraphEdge>)

  datatype Proof = Proven(edges: seq<GraphEdge>) | Unproven(reason: Reason)

  /** `proofs.get(relation_digest)`: the last provenance recorded for a relation. */
  function FindProof(provenance: seq<Provenance>, relation: Relation): (r: Option<Provenance>)
    ensures r.Some? ==> r.value in provenance && r.value.relation == relation
  {
    if provenance == [] then None
    else
      var last := provenance[|provenance| - 1];
      if last.relation == relation then Some(last) else FindProof(provenance[..|provenance| - 1], relation)
  }

  /** The provenance that trusted evidence for this relation must carry. */
  function ExpectedProvenance(subset: Subset, binding: Binding, relation: Relation): Provenance {
    Provenance(relation, binding.candidate, binding.policy, binding.configuration,
               if relation.kind.Explicit? then subset.source else binding.policy,
               subset.Fingerprint(relation.subject), subset.Fingerprint(relation.target))
  }

  function ProveEdge(e: ProposedEdge, proposalId: ProposalId, subset: Subset, binding: Binding,
          provenance: seq<Provenance>): Proof
  {
    if e.relation.kind.SemanticInferred? then Unproven(KindNotVerifiable)
    else if e.trusted.None? then Unproven(ProvenanceIdentityUnavailable)
    else
      var proof := FindProof(provenance, e.trusted.value);
      if proof != Some(ExpectedProvenance(subset, binding, e.relation)) then Unproven(ProvenanceUnavailable)
      else
        var pair := e.relation.Canonical();
        Proven([GraphEdge(pair.subject, pair.target, e.relation.kind, proposalId, proof.value)])
  }

  /** The canonical edges in proposal order, or the first reason against them. */
  function ProveEdges(edges: seq<ProposedEdge>, proposalId: ProposalId, subset: Subset, binding: Binding,
          provenance: seq<Provenance>): Proof
  {
    if edges == [] then Proven([])
    else
      match ProveEdges(edges[..|edges| - 1], proposalId, subset, binding, provenance)
      case Unproven(reason) => Unproven(reason)
      case Proven(done) =>
        match ProveEdge(edges[|edges| - 1], proposalId, subset, binding, provenance)
        case Unproven(reason) => Unproven(reason)
        case Proven(more) => Proven(done + more)
  }

  predicate Share(a: seq<Pair>, b: seq<Pair>) {
    exists i :: 0 <= i < |a| && a[i] in b
  }

  predicate AnySemantic(edges: seq<ProposedEdge>) {
    exists i :: 0 <= i < |edges| && edges[i].relation.kind.SemanticInferred?
  }

  /** The verdict of `DependencyGraphValidator.validate`, for a bound subset. */
  ghost function Judge(proposal: Proposal, subset: Subset, binding: Binding, active: Snapshot,
          provenance: seq<Provenance>): Validation
  {
    JudgeAgainst(Baseline(CurrentFor(active, binding), subset, binding), proposal, subset, binding, provenance)
  }

  ghost function JudgeAgainst(prior: Snapshot, proposal: Proposal, subset: Subset, binding: Binding,
          provenance: seq<Provenance>): Validation
  {
    var pairs := CanonicalPairs(proposal.edges);
    if proposal.Ids() != subset.Ids() then Validation(Rejected, SubsetIncomplete, [])
    else if !Distinct(pairs) || Share(pairs, Pairs(prior.edges)) then Validation(Rejected, DuplicateEdge, [])
    else if Cyclic(Pairs(prior.edges) + pairs) then Validation(Rejected, CycleDetected, [])
    else if proposal.disposition.Reject? then Validation(Rejected, ProposalRejected, [])
    else if proposal.disposition.OwnerReview? || AnySemantic(proposal.edges) then
        Validation(PendingOwner, OwnerDecisionRequired, [])
    else if !proposal.disposition.AutoActivate? || !proposal.ownerRoute.NotRequired? then
        Validation(Rejected, InvalidDisposition, [])
    else
      match ProveEdges(proposal.edges, proposal.id, subset, binding, provenance)
      case Unproven(reason) => Validation(Rejected, reason, [])
      case Proven(canonical) => JudgeProven(prior, canonical)
  }

  /** The final checks, repeated on the edges that carry provenance. */
  ghost function JudgeProven(prior: Snapshot, canonical: seq<GraphEdge>): Validation {
    if !Distinct(Pairs(canonical)) || Share(Pairs(canonical), Pairs(prior.edges)) then
        Validation(Rejected, DuplicateEdge, [])
    else if Cyclic(Pairs(prior.edges) + Pairs(canonical)) then Validation(Rejected, CycleDetected, [])
    else Validation(Accepted, GraphValid, SortBy(canonical, EdgeKey))
  }

  method CollectPairs(edges: seq<ProposedEdge>) returns (pairs: seq<Pair>)
    ensures pairs == CanonicalPairs(edges)
  {
    pairs := [];
    for i := 0 to |edges|
      invariant |pairs| == i && forall k :: 0 <= k < i ==> pairs[k] == edges[k].relation.Canonical()
    {
      pairs := pairs + [edges[i].relation.Canonical()];
    }
  }

  method CollectProven(edges: seq<ProposedEdge>, proposalId: ProposalId, subset: Subset, binding: Binding,
          provenance: seq<Provenance>)
    returns (proof: Proof)
    ensures proof == ProveEdges(edges, proposalId, subset, binding, provenance)
  {
    var canonical: seq<GraphEdge> := [];
    for i := 0 to |edges|
      invariant ProveEdges(edges[..i], proposalId, subset, binding, provenance) == Proven(canonical)
    {
      assert edges[..i + 1][..i] == edges[..i];
      var one := ProveEdge(edges[i], proposalId, subset, binding, provenance);
      if one.Unproven? {
        FailureStays(edges, i + 1, proposalId, subset, binding, provenance);
        return one;
      }
      canonical := canonical + one.edges;
    }
    assert edges[..|edges|] == edges;
    proof := Proven(canonical);
  }

  /** The first failing edge decides. */
  lemma {:induction false} FailureStays(edges: seq<ProposedEdge>, n: nat, proposalId: ProposalId, subset: Subset,
          binding: Binding, provenance: seq<Provenance>)
    requires n <= |edges| && ProveEdges(edges[..n], proposalId, subset, binding, provenance).Unproven?
    ensures ProveEdges(edges, proposalId, subset, binding, provenance)
        == ProveEdges(edges[..n], proposalId, subset, binding, provenance)
    decreases |edges| - n
  {
    if n == |edges| {
      assert edges[..n] == edges;
    } else {
      assert edges[..n + 1][..n] == edges[..n];
      FailureStays(edges, n + 1, proposalId, subset, binding, provenance);
    }
  }

  /** `validate`, as the source's loops compute it; it raises on a subset of
      another binding. */
  method Validate(proposal: Proposal, subset: Subset, binding: Binding, active: Snapshot, provenance: seq<Provenance>)
    returns (v: Option<Validation>)
    ensures v == if binding.Binds(subset) then Some(Judge(proposal, subset, binding, active, provenance)) else None
  {
    if !binding.Binds(subset) {
      return None;
    }
    var verdict := Verdict(proposal, subset, binding, active, provenance);
    v := Some(verdict);
  }

  method Verdict(proposal: Proposal, subset: Subset, binding: Binding, active: Snapshot, provenance: seq<Provenance>)
    returns (v: Validation)
    ensures v == Judge(proposal, subset, binding, active, provenance)
  {
    if proposal.Ids() != subset.Ids() {
      return Validation(Rejected, SubsetIncomplete, []);
    }
    var prior := Baseline(CurrentFor(active, binding), subset, binding);
    var pairs := CollectPairs(proposal.edges);
    if !Distinct(pairs) || Share(pairs, Pairs(prior.edges)) {
      return Validation(Rejected, DuplicateEdge, []);
    }
    var structural := HasCycle(Pairs(prior.edges) + pairs);
    if structural {
      return Validation(Rejected, CycleDetected, []);
    }
    if proposal.disposition.Reject? {
      return Validation(Rejected, ProposalRejected, []);
    }
    if proposal.disposition.OwnerReview? || AnySemantic(proposal.edges) {
      return Validation(PendingOwner, OwnerDecisionRequired, []);
    }
    if !proposal.disposition.AutoActivate? || !proposal.ownerRoute.NotRequired? {
      return Validation(Rejected, InvalidDisposition, []);
    }
    var proof := CollectProven(proposal.edges, proposal.id, subset, binding, provenance);
    if proof.Unproven? {
      return Validation(Rejected, proof.reason, []);
    }
    v := FinalChecks(prior, proof.edges);
  }

  method FinalChecks(prior: Snapshot, canonical: seq<GraphEdge>) returns (v: Validation)
    ensures v == JudgeProven(prior, canonical)
  {
    if !Distinct(Pairs(canonical)) || Share(Pairs(canonical), Pairs(prior.edges)) {
      return Validation(Rejected, DuplicateEdge, []);
    }
    var cycle := HasCycle(Pairs(prior.edges) + Pairs(canonical));
    if cycle {
      return Validation(Rejected, CycleDetected, []);
    }
    v := Validation(Accepted, GraphValid, SortBy(canonical, EdgeKey));
  }

  // ----------------------------------------------- what acceptance guarantees

  /** Cyclicity depends on which edges there are, not on their order or number. */
  lemma FewerEdgesFewerCycles(a: seq<Pair>, b: seq<Pair>)
    requires forall e :: e in a ==> e in b
    ensures Cyclic(a) ==> Cyclic(b)
  {
    if Cyclic(a) {
      var x :| Reaches(a, x, x);
      var p :| WalkBetween(a, p, x, x);
      forall i | 0 <= i < |p| - 1 ensures StepAt(b, p, i) {
        assert StepAt(a, p, i);
      }
      assert WalkBetween(b, p, x, x);
      assert Reaches(b, x, x);
    }
  }

  /** Edge sets in which no ordered pair occurs twice. */
  ghost predicate PairsDistinct(edges: seq<GraphEdge>) {
    Distinct(Pairs(edges))
  }

  /** What an accepted change adds to its baseline. */
  ghost predicate FitsBaseline(prior: Snapshot, edges: seq<GraphEdge>, proposalId: ProposalId, ids: set<Id>) {
    && edges != []
    && Ascending(edges, EdgeKey) && PairsDistinct(edges)
    && (forall e :: e in edges ==> e.proposalId == proposalId && e.subject in ids && e.target in ids)
    && !Share(Pairs(edges), Pairs(prior.edges))
    && !Cyclic(Pairs(prior.edges) + Pairs(edges))
  }

  /** An accepted proposal covers its subset, and its proven edges pass the final checks. */
  lemma AcceptedMeans(proposal: Proposal, subset: Subset, binding: Binding, active: Snapshot,
          provenance: seq<Provenance>)
    requires Judge(proposal, subset, binding, active, provenance).decision.Accepted?
    ensures proposal.Ids() == subset.Ids()
    ensures var proof := ProveEdges(proposal.edges, proposal.id, subset, binding, provenance);
      proof.Proven? && Judge(proposal, subset, binding, active, provenance)
          == JudgeProven(Baseline(active, subset, binding), proof.edges)
  {
    BaselineOfCurrent(active, subset, binding);
  }

  /** Proven edges are the canonical pairs of the proposal, under its identifier. */
  lemma {:induction false} ProvenShape(edges: seq<ProposedEdge>, proposalId: ProposalId, subset: Subset,
          binding: Binding, provenance: seq<Provenance>)
    ensures var r := ProveEdges(edges, proposalId, subset, binding, provenance);
      r.Proven? ==> Pairs(r.edges) == CanonicalPairs(edges) && forall e :: e in r.edges ==> e.proposalId == proposalId
  {
    var r := ProveEdges(edges, proposalId, subset, binding, provenance);
    if edges != [] && r.Proven? {
      var init, last := edges[..|edges| - 1], edges[|edges| - 1];
      ProvenShape(init, proposalId, subset, binding, provenance);
      var done, one := ProveEdges(init, proposalId, subset, binding, provenance).edges,
          ProveEdge(last, proposalId, subset, binding, provenance).edges;
      AppendedPairs(init, last, done, one[0]);
    }
  }

  lemma AppendedPairs(init: seq<ProposedEdge>, last: ProposedEdge, done: seq<GraphEdge>, e: GraphEdge)
    requires Pairs(done) == CanonicalPairs(init) && EdgePair(e) == last.relation.Canonical()
    ensures Pairs(done + [e]) == CanonicalPairs(init + [last])
  {
    assert |done| == |Pairs(done)| == |init|;
    forall i | 0 <= i < |done| + 1 ensures Pairs(done + [e])[i] == CanonicalPairs(init + [last])[i] {
      if i < |done| {
        assert Pairs(done)[i] == CanonicalPairs(init)[i];
      }
    }
  }

  /** What an accepted proposal adds fits the baseline it was judged against. */
  lemma AcceptedFits(proposal: Proposal, subset: Subset, binding: Binding, active: Snapshot,
          provenance: seq<Provenance>)
    requires proposal.Valid() && Judge(proposal, subset, binding, active, provenance).decision.Accepted?
    ensures FitsBaseline(Baseline(active, subset, binding),
        Judge(proposal, subset, binding, active, provenance).edges, proposal.id, subset.Ids())
  {
    AcceptedMeans(proposal, subset, binding, active, provenance);
    var prior := Baseline(active, subset, binding);
    var canonical := ProveEdges(proposal.edges, proposal.id, subset, binding, provenance).edges;
    ProvenShape(proposal.edges, proposal.id, subset, binding, provenance);
    ProvenEndpoints(proposal, canonical);
    assert |Pairs(canonical)| == |proposal.edges|;
    SortedFits(prior, canonical, proposal.id, subset.Ids());
  }

  lemma ProvenEndpoints(proposal: Proposal, canonical: seq<GraphEdge>)
    requires Pairs(canonical) == CanonicalPairs(proposal.edges)
    ensures forall e :: e in canonical ==> e.subject in proposal.Ids() && e.target in proposal.Ids()
  {
    forall e | e in canonical ensures e.subject in proposal.Ids() && e.target in proposal.Ids() {
      var i :| 0 <= i < |canonical| && canonical[i] == e;
      assert Pairs(canonical)[i] == proposal.edges[i].relation.Canonical();
      assert proposal.edges[i] in proposal.edges;
    }
  }

  lemma SortedFits(prior: Snapshot, canonical: seq<GraphEdge>, proposalId: ProposalId, ids: set<Id>)
    requires canonical != [] && PairsDistinct(canonical) && !Share(Pairs(canonical), Pairs(prior.edges))
    requires forall e :: e in canonical ==> e.proposalId == proposalId && e.subject in ids && e.target in ids
    requires !Cyclic(Pairs(prior.edges) + Pairs(canonical))
    ensures FitsBaseline(prior, SortBy(canonical, EdgeKey), proposalId, ids)
  {
    var edges := SortBy(canonical, EdgeKey);
    SortMembers(canonical, EdgeKey);
    EdgeKeysDistinct(canonical);
    SortAscends(canonical, EdgeKey);
    SamePairs(edges, canonical);
    DistinctAfterSort(edges, canonical);
    StillDisjoint(Pairs(edges), Pairs(canonical), Pairs(prior.edges));
    FewerEdgesFewerCycles(Pairs(prior.edges) + Pairs(edges), Pairs(prior.edges) + Pairs(canonical));
  }

  lemma StillDisjoint(a: seq<Pair>, b: seq<Pair>, c: seq<Pair>)
    requires !Share(b, c) && forall p :: p in a ==> p in b
    ensures !Share(a, c)
  {
    forall i | 0 <= i < |a| ensures a[i] !in c {
      assert a[i] in b;
      var j :| 0 <= j < |b| && b[j] == a[i];
    }
  }

  lemma EdgeKeysDistinct(edges: seq<GraphEdge>)
    requires PairsDistinct(edges)
    ensures KeysDistinct(edges, EdgeKey) && KeysDistinct(edges, PairKey)
  {
    forall i, j | 0 <= i < j < |edges|
        ensures EdgeKey(edges[i]) != EdgeKey(edges[j]) && PairKey(edges[i]) != PairKey(edges[j])
    {
      assert Pairs(edges)[i] != Pairs(edges)[j];
    }
  }

  lemma SamePairs(a: seq<GraphEdge>, b: seq<GraphEdge>)
    requires forall e :: e in a ==> e in b
    ensures forall p :: p in Pairs(a) ==> p in Pairs(b)
  {
    forall p | p in Pairs(a) ensures p in Pairs(b) {
      var i :| 0 <= i < |a| && Pairs(a)[i] == p;
      assert a[i] in b;
      var j :| 0 <= j < |b| && b[j] == a[i];
      assert Pairs(b)[j] == p;
    }
  }

  lemma DistinctAfterSort(a: seq<GraphEdge>, b: seq<GraphEdge>)
    requires PairsDistinct(b) && Ascending(a, EdgeKey) && forall e :: e in a ==> e in b
    ensures PairsDistinct(a)
  {
    forall i, j | 0 <= i < j < |a| ensures Pairs(a)[i] != Pairs(a)[j] {
      assert Less(EdgeKey(a[i]), EdgeKey(a[j]));
      assert a[i] in b && a[j] in b;
      var k :| 0 <= k < |b| && b[k] == a[i];
      var l :| 0 <= l < |b| && b[l] == a[j];
      assert k < l ==> Pairs(b)[k] != Pairs(b)[l];
      assert l < k ==> Pairs(b)[l] != Pairs(b)[k];
    }
  }
}
