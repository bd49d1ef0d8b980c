/** A smallest run of the graph store that activates a version: the theorems
    about versions that were ever current speak of something. */
module GraphWitness {
  import opened Prelude
  import opened GraphCycles
  import opened GraphOrdering
  import opened GraphValidation
  import opened GraphStore
  import opened GraphReplay
  import opened GraphRuns

  const SampleBinding := Binding(0, 0, 0, 0)
  const SampleSubset := Subset(0, 0, 5, 0, 0, 0, 0, [Member(1, 10, 0), Member(2, 20, 0)])
  const SampleRelation := Relation(Explicit, DependsOn, 1, 2, 0, High, 0)
  const SampleProposal := Proposal(7, 3, AutoActivate, NotRequired,
      [ProposedEdge(SampleRelation, Some(SampleRelation))])
  const SampleAttempt := Attempt(SampleSubset, [SampleRelation], true, true, true, false)
  const SampleReview := Review(map[3 := SampleAttempt], map[7 := SampleProposal])
  const SampleEdge := GraphEdge(1, 2, Explicit, 7, ExpectedProvenance(SampleSubset, SampleBinding, SampleRelation))

  /** One edge between two members closes no cycle. */
  lemma OneEdgeIsAcyclic(pairs: seq<Pair>)
    requires pairs == [Pair(1, 2)]
    ensures !Cyclic(pairs)
  {
    forall a, p ensures !WalkBetween(pairs, p, a, a) {
      if Walk(pairs, p) {
        assert StepAt(pairs, p, 0);
        assert |p| > 2 ==> !StepAt(pairs, p, 1);
      }
    }
  }

  lemma ReviewIsValid()
    ensures SampleReview.Valid() && Extends(Initial.review, SampleReview)
  {
    assert SampleProposal.edges[0].Valid();
  }

  lemma IdsMatch()
    ensures SampleProposal.Ids() == SampleSubset.Ids()
  {
    assert SampleSubset.members[0].id == 1 && SampleSubset.members[1].id == 2;
    assert SampleSubset.members[0] in SampleSubset.members && SampleSubset.members[1] in SampleSubset.members;
    assert SampleProposal.edges[0] in SampleProposal.edges;
    assert SampleSubset.Ids() == {1, 2};
    assert SampleProposal.Ids() == {1, 2};
  }

  lemma EdgeIsProven()
    ensures ProveEdges(SampleProposal.edges, 7, SampleSubset, SampleBinding, Trusted(SampleAttempt, SampleBinding))
        == Proven([SampleEdge])
  {
    var provenance := Trusted(SampleAttempt, SampleBinding);
    assert provenance == [ExpectedProvenance(SampleSubset, SampleBinding, SampleRelation)];
    assert FindProof(provenance, SampleRelation) == Some(provenance[0]);
    assert SampleProposal.edges[..0] == [];
    assert ProveEdges([], 7, SampleSubset, SampleBinding, provenance) == Proven([]);
    assert [] + [SampleEdge] == [SampleEdge];
  }

  lemma VerdictIsAccepted()
    ensures Judge(SampleProposal, SampleSubset, SampleBinding, Empty, Trusted(SampleAttempt, SampleBinding))
        == Validation(Accepted, GraphValid, [SampleEdge])
  {
    var pairs := CanonicalPairs(SampleProposal.edges);
    assert pairs == [Pair(1, 2)] == Pairs([SampleEdge]);
    assert Pairs(Empty.edges) == [] && [] + pairs == pairs;
    OneEdgeIsAcyclic(pairs);
    IdsMatch();
    EdgeIsProven();
    assert Ascending([SampleEdge], EdgeKey);
    SortOfAscending([SampleEdge], EdgeKey);
    assert !AnySemantic(SampleProposal.edges);
    assert Baseline(CurrentFor(Empty, SampleBinding), SampleSubset, SampleBinding) == Empty;
  }

  lemma NextIsDefined(members: seq<GraphMember>, ids: seq<ProposalId>)
    requires members == NewMembers(SampleSubset) && ids == [7]
    ensures NextSnapshot(Empty, SampleSubset, [SampleEdge], 7, SampleBinding)
        == Some(Snapshot(None, None, members, [SampleEdge], ids))
  {
    assert Ascending(members, MemberKey) && Ascending([SampleEdge], EdgeKey) && Ascending(ids, NatKey);
    SortOfAscending(members, MemberKey);
    SortOfAscending([SampleEdge], EdgeKey);
    SortOfAscending(ids, NatKey);
    IdsDistinct(members);
    FirstSnapshot(Empty, SampleSubset, [SampleEdge], 7, members, ids);
  }

  /** The snapshot after a first change consists of the change alone. */
  lemma FirstSnapshot(base: Snapshot, subset: Subset, edges: seq<GraphEdge>, p: ProposalId, members: seq<GraphMember>,
          ids: seq<ProposalId>)
    requires base == Empty && members == NewMembers(subset) && SortBy(members, MemberKey) == members
    requires Distinct(MemberIds(members))
    requires SortBy(edges, EdgeKey) == edges && ids == [p] && SortBy(ids, NatKey) == ids
    ensures NextFrom(base, subset, edges, p) == Some(Snapshot(None, None, members, edges, ids))
  {
    var replaced := ReplacedIds(base, subset);
    var kept := Filter(base.members, (m: GraphMember) => m.member.id !in replaced);
    NothingBefore(kept, members);
    NothingBefore(base.edges, edges);
    NothingBefore(base.proposalIds, [p]);
    IdIsDistinct(ids);
  }

  lemma NothingBefore<T>(a: seq<T>, b: seq<T>)
    requires a == []
    ensures a + b == b
  {
  }

  lemma IdIsDistinct(ids: seq<ProposalId>)
    requires |ids| == 1
    ensures Distinct(ids)
  {
  }

  lemma RunOfTwo(s: System, a: Event, b: Event)
    ensures Run(s, [a, b]) == After(After(s, a), b)
  {
    assert [a, b][..1] == [a] && [a][..0] == [];
    assert Run(s, []) == s && Run(s, [a]) == After(s, a);
  }

  /** The values above admit, accept and store the change. */
  ghost predicate Ready(review: Review, proposal: Proposal, binding: Binding, attempt: Attempt, validation: Validation,
          next: Snapshot)
  {
    && Admitted(review, proposal, binding) && attempt == review.attempts[proposal.attemptId]
    && validation == Judge(proposal, attempt.subset, binding, Empty, Trusted(attempt, binding))
        && validation.decision.Accepted?
    && NextSnapshot(Empty, attempt.subset, validation.edges, proposal.id, binding) == Some(next)
    && Storable(next)
  }

  ghost predicate Storable(next: Snapshot) {
    next.edges != [] && Distinct(Fingerprints(next.members)) && Distinct(Pairs(next.edges))
  }

  lemma FirstIsStorable(members: seq<GraphMember>, ids: seq<ProposalId>)
    requires members == NewMembers(SampleSubset)
    ensures Storable(Snapshot(None, None, members, [SampleEdge], ids))
  {
    assert Fingerprints(members) == [10, 20];
    assert Pairs([SampleEdge]) == [Pair(1, 2)];
  }

  lemma SampleIsReady() returns (r: Review, p: Proposal, b: Binding, a: Attempt, validation: Validation, next: Snapshot)
    ensures Extends(Initial.review, r) && Ready(r, p, b, a, validation, next)
  {
    var members, ids: seq<ProposalId> := NewMembers(SampleSubset), [7];
    r, p, b, a := SampleReview, SampleProposal, SampleBinding, SampleAttempt;
    validation, next := Validation(Accepted, GraphValid, [SampleEdge]),
        Snapshot(None, None, members, [SampleEdge], ids);
    ReviewIsValid();
    VerdictIsAccepted();
    NextIsDefined(members, ids);
    FirstIsStorable(members, ids);
    AllTogether(r, p, b, a, validation, next);
  }

  lemma AllTogether(review: Review, proposal: Proposal, binding: Binding, attempt: Attempt, validation: Validation,
          next: Snapshot)
    requires Admitted(review, proposal, binding) && attempt == review.attempts[proposal.attemptId]
    requires Judge(proposal, attempt.subset, binding, Empty, Trusted(attempt, binding)) == validation
    requires validation.decision.Accepted?
    requires NextSnapshot(Empty, attempt.subset, validation.edges, proposal.id, binding) == Some(next) && Storable(next)
    ensures Ready(review, proposal, binding, attempt, validation, next)
  {
  }

  lemma ActivateDecides(review: Review, proposal: Proposal, binding: Binding, v: VersionId, attempt: Attempt,
          validation: Validation, next: Snapshot)
    requires Ready(review, proposal, binding, attempt, validation, next)
    ensures Activate(review, EmptyDb, proposal, binding, v, true)
        == Decide(EmptyDb, attempt.subset, validation, Empty, proposal, binding, v)
  {
  }

  lemma DecideAccepts(subset: Subset, validation: Validation, proposal: Proposal, binding: Binding, v: VersionId,
          next: Snapshot)
    requires validation.decision.Accepted?
    requires NextSnapshot(Empty, subset, validation.edges, proposal.id, binding) == Some(next)
    requires Storable(next)
    ensures var o := Decide(EmptyDb, subset, validation, Empty, proposal, binding, v);
      o.Done? && o.db.current == Some(v) && v in o.db.versions && o.db.versions[v].edges == next.edges
  {
  }

  /** Version `v` is current and holds an edge. */
  ghost predicate HoldsEdge(s: System, v: VersionId) {
    s.db.current == Some(v) && v in s.db.versions && s.db.versions[v].edges != []
  }

  /** There is a run whose current version holds an edge. */
  lemma SomeVersionBecomesCurrent()
    ensures exists events, v :: HoldsEdge(Run(Initial, events), v)
  {
    var r, p, b, a, validation, next := SampleIsReady();
    var events := CurrentAfterActivation(r, p, b, 100, a, validation, next);
  }

  lemma CurrentAfterActivation(review: Review, proposal: Proposal, binding: Binding, v: VersionId, attempt: Attempt,
          validation: Validation, next: Snapshot)
    returns (events: seq<Event>)
    requires Extends(Initial.review, review) && Ready(review, proposal, binding, attempt, validation, next)
    ensures HoldsEdge(Run(Initial, events), v)
  {
    events := [ReviewGrows(review), Activates(proposal, binding, v, true)];
    RunOfTwo(Initial, ReviewGrows(review), Activates(proposal, binding, v, true));
    ActivateDecides(review, proposal, binding, v, attempt, validation, next);
    DecideAccepts(attempt.subset, validation, proposal, binding, v, next);
  }
}
