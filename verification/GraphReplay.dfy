/** Whole runs of activations over arbitrary proposals and changing bindings:
    the replay reader accepts exactly what activation stored, and every version
    ever stored is a healthy graph. */
module GraphReplay {
  import opened Prelude
  import opened GraphCycles
  import opened GraphOrdering
  import opened GraphValidation
  import opened GraphStore

  // ------------------------------------------------------------ healthy graphs

  /** Unique members in order, at most one edge per ordered pair, in order,
      every endpoint among the members, and no cycle. */
  ghost predicate Healthy(members: seq<GraphMember>, edges: seq<GraphEdge>) {
    && Ascending(members, MemberKey)
    && Ascending(edges, EdgeKey) && PairsDistinct(edges)
    && (forall e :: e in edges ==> HasMember(members, e.subject) && HasMember(members, e.target))
    && !Cyclic(Pairs(edges))
  }

  ghost predicate HasMember(members: seq<GraphMember>, id: Id) {
    exists m :: m in members && m.member.id == id
  }

  lemma KeptMembers(active: Snapshot, subset: Subset, binding: Binding)
    ensures var base := Baseline(active, subset, binding);
      Filter(base.members, (m: GraphMember) => m.member.id !in ReplacedIds(base, subset)) == base.members
  {
    var base := Baseline(active, subset, binding);
    assert ReplacedIds(base, subset) == {};
    FilterAll(base.members, (m: GraphMember) => m.member.id !in ReplacedIds(base, subset));
  }

  lemma {:induction false} FilterAll<T(!new)>(s: seq<T>, p: T -> bool)
    requires forall x :: x in s ==> p(x)
    ensures Filter(s, p) == s
  {
    if s != [] {
      FilterAll(s[..|s| - 1], p);
      assert s == s[..|s| - 1] + [s[|s| - 1]];
    }
  }

  /** The baseline of a healthy graph is healthy. */
  lemma BaselineHealthy(active: Snapshot, subset: Subset, binding: Binding)
    requires Healthy(active.members, active.edges)
    ensures var base := Baseline(active, subset, binding); Healthy(base.members, base.edges)
  {
    var base := Baseline(active, subset, binding);
    if active.binding != Some(binding) {
      EmptyIsHealthy();
    } else {
      var replaced := ReplacedIds(active, subset);
      FilterAscends(active.members, (m: GraphMember) => m.member.id !in replaced, MemberKey);
      FilterAscends(active.edges, (e: GraphEdge) => e.subject !in replaced && e.target !in replaced, EdgeKey);
      DistinctAfterSort(base.edges, active.edges);
      SamePairs(base.edges, active.edges);
      FewerEdgesFewerCycles(Pairs(base.edges), Pairs(active.edges));
      forall e | e in base.edges ensures HasMember(base.members, e.subject) && HasMember(base.members, e.target) {
        assert HasMember(active.members, e.subject) && HasMember(active.members, e.target);
        MemberSurvives(active, subset, binding, e.subject);
        MemberSurvives(active, subset, binding, e.target);
      }
    }
  }

  lemma MemberSurvives(active: Snapshot, subset: Subset, binding: Binding, id: Id)
    requires active.binding == Some(binding) && HasMember(active.members, id) && id !in ReplacedIds(active, subset)
    ensures HasMember(Baseline(active, subset, binding).members, id)
  {
    var m :| m in active.members && m.member.id == id;
    assert m in Baseline(active, subset, binding).members;
  }

  lemma EmptyIsHealthy()
    ensures Healthy([], [])
  {
    assert Pairs([]) == [];
    forall p ensures !Walk([], p) {
      NoWalk(p);
    }
  }

  lemma NoWalk(p: seq<Id>)
    ensures !Walk([], p)
  {
    assert !StepAt([], p, 0);
  }

  /** Members of the next snapshot: exactly the kept and the new ones, in order. */
  lemma NextMembers(active: Snapshot, subset: Subset, edges: seq<GraphEdge>, p: ProposalId, binding: Binding)
    requires NextSnapshot(active, subset, edges, p, binding).Some?
    ensures var members := NextSnapshot(active, subset, edges, p, binding).value.members;
      && Ascending(members, MemberKey)
      && forall m :: m in members <==> m in Baseline(active, subset, binding).members || m in NewMembers(subset)
  {
    var base := Baseline(active, subset, binding);
    KeptMembers(active, subset, binding);
    var raw := base.members + NewMembers(subset);
    var members := SortBy(raw, MemberKey);
    SortMembers(raw, MemberKey);
    assert Elements(raw) == Elements(members);
    RawDistinct(raw, members);
    SortAscends(raw, MemberKey);
  }

  /** Distinct identifiers after sorting were distinct before. */
  lemma RawDistinct(raw: seq<GraphMember>, sorted: seq<GraphMember>)
    requires |raw| == |sorted| && Elements(raw) == Elements(sorted) && Distinct(MemberIds(sorted))
    ensures KeysDistinct(raw, MemberKey)
  {
    SameIds(raw, sorted);
    SameIds(sorted, raw);
    DistinctRearranged(MemberIds(sorted), MemberIds(raw));
    forall i, j | 0 <= i < j < |raw| ensures MemberKey(raw[i]) != MemberKey(raw[j]) {
      assert MemberIds(raw)[i] != MemberIds(raw)[j];
    }
  }

  lemma SameIds(a: seq<GraphMember>, b: seq<GraphMember>)
    requires Elements(a) <= Elements(b)
    ensures Elements(MemberIds(a)) <= Elements(MemberIds(b))
  {
    forall x | x in Elements(MemberIds(a)) ensures x in Elements(MemberIds(b)) {
      var i :| 0 <= i < |a| && MemberIds(a)[i] == x;
      assert a[i] in Elements(a);
      var j :| 0 <= j < |b| && b[j] == a[i];
      assert MemberIds(b)[j] == x;
    }
  }

  /** Edges of the next snapshot: the baseline's and the new ones, in order. */
  lemma NextEdges(prior: Snapshot, edges: seq<GraphEdge>, p: ProposalId, ids: set<Id>)
    requires PairsDistinct(prior.edges) && FitsBaseline(prior, edges, p, ids)
    ensures var all := SortBy(prior.edges + edges, EdgeKey);
      && Ascending(all, EdgeKey) && PairsDistinct(all) && !Cyclic(Pairs(all))
      && forall e :: e in all <==> e in prior.edges || e in edges
  {
    var raw := prior.edges + edges;
    var all := SortBy(raw, EdgeKey);
    SortMembers(raw, EdgeKey);
    assert PairsDistinct(raw) by {
      forall i, j | 0 <= i < j < |raw| ensures Pairs(raw)[i] != Pairs(raw)[j] {
        ConcatPairs(prior.edges, edges, i, j);
      }
    }
    EdgeKeysDistinct(raw);
    SortAscends(raw, EdgeKey);
    DistinctAfterSort(all, raw);
    SamePairs(all, raw);
    assert Pairs(raw) == Pairs(prior.edges) + Pairs(edges);
    FewerEdgesFewerCycles(Pairs(all), Pairs(raw));
  }

  lemma ConcatPairs(a: seq<GraphEdge>, b: seq<GraphEdge>, i: nat, j: nat)
    requires PairsDistinct(a) && PairsDistinct(b) && !Share(Pairs(b), Pairs(a)) && i < j < |a + b|
    ensures EdgePair((a + b)[i]) != EdgePair((a + b)[j])
  {
    if j < |a| {
      assert Pairs(a)[i] != Pairs(a)[j];
    } else if i >= |a| {
      assert Pairs(b)[i - |a|] != Pairs(b)[j - |a|];
    } else {
      assert Pairs(b)[j - |a|] !in Pairs(a);
      assert Pairs(a)[i] in Pairs(a);
    }
  }

  /** An accepted change on a healthy graph leads to a healthy graph. */
  lemma NextHealthy(active: Snapshot, subset: Subset, edges: seq<GraphEdge>, p: ProposalId, binding: Binding)
    requires Healthy(active.members, active.edges)
    requires FitsBaseline(Baseline(active, subset, binding), edges, p, subset.Ids())
    requires NextSnapshot(active, subset, edges, p, binding).Some?
    ensures var s := NextSnapshot(active, subset, edges, p, binding).value; Healthy(s.members, s.edges)
  {
    var base := Baseline(active, subset, binding);
    BaselineHealthy(active, subset, binding);
    NextMembers(active, subset, edges, p, binding);
    NextEdges(base, edges, p, subset.Ids());
    var s := NextSnapshot(active, subset, edges, p, binding).value;
    forall e | e in s.edges ensures HasMember(s.members, e.subject) && HasMember(s.members, e.target) {
      EndpointsStay(base, subset, edges, p, s.members, e);
    }
  }

  lemma EndpointsStay(base: Snapshot, subset: Subset, edges: seq<GraphEdge>, p: ProposalId, members: seq<GraphMember>,
          e: GraphEdge)
    requires Healthy(base.members, base.edges) && FitsBaseline(base, edges, p, subset.Ids())
    requires forall m :: m in members <==> m in base.members || m in NewMembers(subset)
    requires e in base.edges || e in edges
    ensures HasMember(members, e.subject) && HasMember(members, e.target)
  {
    if e in base.edges {
      var a :| a in base.members && a.member.id == e.subject;
      var b :| b in base.members && b.member.id == e.target;
      assert a in members && b in members;
    } else {
      NewHas(subset, members, e.subject);
      NewHas(subset, members, e.target);
    }
  }

  lemma NewHas(subset: Subset, members: seq<GraphMember>, id: Id)
    requires id in subset.Ids() && forall m :: m in NewMembers(subset) ==> m in members
    ensures HasMember(members, id)
  {
    var i :| 0 <= i < |subset.members| && subset.members[i].id == id;
    assert NewMembers(subset)[i] in NewMembers(subset);
  }

  // -------------------------------------------------------------- proposal ids

  /** The proposal identifiers of the next snapshot are those of its edges. */
  lemma NextProposals(active: Snapshot, subset: Subset, edges: seq<GraphEdge>, p: ProposalId, binding: Binding)
    requires NextSnapshot(active, subset, edges, p, binding).Some?
    requires edges != [] && forall e :: e in edges ==> e.proposalId == p
    ensures var s := NextSnapshot(active, subset, edges, p, binding).value;
        DistinctSorted(ProposalsOf(s.edges)) == s.proposalIds
  {
    var base := Baseline(active, subset, binding);
    var s := NextSnapshot(active, subset, edges, p, binding).value;
    BaselineProposals(active, subset, binding);
    SortMembers(base.edges + edges, EdgeKey);
    ProposalsAgree(base.edges, edges, s.edges, base.proposalIds, s.proposalIds, p);
  }

  lemma BaselineProposals(active: Snapshot, subset: Subset, binding: Binding)
    ensures var base := Baseline(active, subset, binding); base.proposalIds == DistinctSorted(ProposalsOf(base.edges))
  {
    assert ProposalsOf([]) == [];
  }

  lemma ProposalsAgree(before: seq<GraphEdge>, edges: seq<GraphEdge>, all: seq<GraphEdge>, known: seq<ProposalId>,
          ids: seq<ProposalId>, p: ProposalId)
    requires known == DistinctSorted(ProposalsOf(before)) && ids == SortBy(known + [p], NatKey) && Distinct(ids)
    requires edges != [] && (forall e :: e in edges ==> e.proposalId == p) && forall e :: e in all <==>
        e in before || e in edges
    ensures DistinctSorted(ProposalsOf(all)) == ids
  {
    SortMembers(known + [p], NatKey);
    NumbersAscend(known + [p], ids);
    forall x ensures x in DistinctSorted(ProposalsOf(all)) <==> x in ids {
      ProposalIn(all, x);
      ProposalIn(before, x);
      assert edges[0] in edges;
    }
    SameNumbers(DistinctSorted(ProposalsOf(all)), ids);
  }

  lemma ProposalIn(edges: seq<GraphEdge>, x: ProposalId)
    ensures x in ProposalsOf(edges) <==> exists e :: e in edges && e.proposalId == x
  {
    if x in ProposalsOf(edges) {
      var i :| 0 <= i < |edges| && ProposalsOf(edges)[i] == x;
      assert edges[i] in edges;
    }
    if e :| e in edges && e.proposalId == x {
      var i :| 0 <= i < |edges| && edges[i] == e;
      assert ProposalsOf(edges)[i] == x;
    }
  }

  lemma NumbersAscend(raw: seq<nat>, sorted: seq<nat>)
    requires sorted == SortBy(raw, NatKey) && Distinct(sorted)
    ensures forall i, j :: 0 <= i < j < |sorted| ==> sorted[i] < sorted[j]
  {
    SortMembers(raw, NatKey);
    assert Elements(raw) == Elements(sorted);
    DistinctRearranged(sorted, raw);
    SortAscends(raw, NatKey);
    assert forall i, j :: 0 <= i < j < |sorted| ==> Less(NatKey(sorted[i]), NatKey(sorted[j]));
  }

  // ------------------------------------------------------------ store invariant

  /** The snapshot a version row stands for. */
  ghost function Stored(db: Db, v: VersionId): Snapshot
    requires v in db.versions
  {
    var row := db.versions[v];
    Snapshot(Some(v), Some(row.binding), row.members, row.edges, row.proposalSet)
  }

  /** The snapshot a version row was built on. */
  ghost function PriorOf(db: Db, row: VersionRow): Snapshot {
    if row.predecessor.Some? && row.predecessor.value in db.versions then Stored(db, row.predecessor.value) else Empty
  }

  /** Review rows that an accepted decision relies on never change. */
  ghost predicate Evidence(review: Review, d: DecisionRow, p: ProposalId, binding: Binding) {
    && d.attemptId in review.attempts && p in review.proposals
    && var attempt := review.attempts[d.attemptId];
    && attempt.accepted && attempt.authenticated && attempt.lineageIntact
    && review.proposals[p].attemptId == d.attemptId && review.proposals[p].id == p && review.proposals[p].Valid()
    && d.subset == attempt.subset && d.binding == binding && binding.Binds(attempt.subset)
  }

  /** The verdict that replaying decision `p` on `prior` reaches. */
  ghost function Replayed(review: Review, d: DecisionRow, p: ProposalId, binding: Binding, prior: Snapshot): Validation
    requires Evidence(review, d, p, binding)
  {
    var attempt := review.attempts[d.attemptId];
    Judge(review.proposals[p], attempt.subset, binding, prior, Trusted(attempt, binding))
  }

  /** Version `v` is what decision `p` derives from `prior`. */
  ghost predicate Derived(review: Review, db: Db, v: VersionId, p: ProposalId, prior: Snapshot)
    requires v in db.versions
  {
    var row := db.versions[v];
    && p in db.decisions && Deciders(db, v) == {p}
    && var d := db.decisions[p];
    && d.decision.Accepted? && d.reason.GraphValid?
    && Evidence(review, d, p, row.binding)
    && (forall e :: e in prior.edges ==> e.proposalId != p)
    && var replay := Replayed(review, d, p, row.binding, prior);
    && replay.decision.Accepted?
    && NextSnapshot(prior, d.subset, replay.edges, p, row.binding)
        == Some(Snapshot(None, None, row.members, row.edges, row.proposalSet))
    && row.graph == GraphDigest(row.members, row.edges)
    && d.digest == DecisionDigest(replay, review.proposals[p], d.subset, row.binding, Some(v), row.predecessor,
        Some(row.graph))
  }

  /** The k-th version: healthy, and derived from an earlier version of the same binding or from nothing. */
  ghost predicate VersionOk(review: Review, db: Db, k: int) {
    && 0 <= k < |db.log| && db.log[k] in db.versions
    && var v := db.log[k];
    var row := db.versions[v];
    && Healthy(row.members, row.edges)
    && (forall e :: e in row.edges ==> e.proposalId in db.decisions)
    && (row.predecessor.Some? ==> Earlier(db, k, row))
    && exists p :: Derived(review, db, v, p, PriorOf(db, row))
  }

  ghost predicate Earlier(db: Db, k: int, row: VersionRow)
    requires row.predecessor.Some?
  {
    && row.predecessor.value in db.versions
    && db.versions[row.predecessor.value].binding == row.binding
    && exists j :: 0 <= j < k && j < |db.log| && db.log[j] == row.predecessor.value
  }

  ghost predicate VersionsOk(review: Review, db: Db) {
    forall k :: 0 <= k < |db.log| ==> VersionOk(review, db, k)
  }

  /** The tables agree on which versions there are. */
  ghost predicate Tables(db: Db) {
    && Distinct(db.log) && Elements(db.log) == db.versions.Keys
    && (forall p :: p in db.decisions && db.decisions[p].version.Some? ==> db.decisions[p].version.value in db.versions)
    && (db.current.Some? ==> db.current.value in db.versions)
  }

  ghost predicate DbInv(review: Review, db: Db) {
    Tables(db) && VersionsOk(review, db)
  }

  // ------------------------------------------------------------------- replay

  /** Reading a healthy row back yields exactly what was written. */
  lemma ReadsBack(db: Db, v: VersionId)
    requires v in db.versions
    requires var row := db.versions[v];
      Healthy(row.members, row.edges) && row.graph == GraphDigest(row.members, row.edges)
      && DistinctSorted(ProposalsOf(row.edges)) == row.proposalSet
    ensures ReadVersion(db, v) == Some(Stored(db, v))
    ensures DigestOf(db.versions[v].members, db.versions[v].edges) == db.versions[v].graph
  {
    var row := db.versions[v];
    SortOfAscending(row.members, MemberKey);
    SortOfAscending(row.edges, EdgeKey);
    OrderedByPair(row.edges);
    IdsDistinct(row.members);
  }

  lemma OrderedByPair(edges: seq<GraphEdge>)
    requires Ascending(edges, EdgeKey) && PairsDistinct(edges)
    ensures SortBy(edges, PairKey) == edges
  {
    EdgeKeysDistinct(edges);
    AscendingByCoarserKey(edges, EdgeKey, PairKey);
    SortOfAscending(edges, PairKey);
  }

  lemma IdsDistinct(members: seq<GraphMember>)
    requires Ascending(members, MemberKey)
    ensures Distinct(MemberIds(members))
  {
    forall i, j | 0 <= i < j < |members| ensures MemberIds(members)[i] != MemberIds(members)[j] {
      assert Less(MemberKey(members[i]), MemberKey(members[j]));
    }
  }

  /** The edges that carry the proposal's identifier are exactly its own. */
  lemma OwnEdges(prior: Snapshot, edges: seq<GraphEdge>, p: ProposalId, ids: set<Id>, all: seq<GraphEdge>)
    requires FitsBaseline(prior, edges, p, ids)
    requires forall e :: e in prior.edges ==> e.proposalId != p
    requires Ascending(all, EdgeKey) && forall e :: e in all <==> e in prior.edges || e in edges
    ensures Filter(all, (e: GraphEdge) => e.proposalId == p) == edges
  {
    var own := Filter(all, (e: GraphEdge) => e.proposalId == p);
    FilterAscends(all, (e: GraphEdge) => e.proposalId == p, EdgeKey);
    AscendingIsUnique(own, edges, EdgeKey);
  }

  lemma BaselineEdges(active: Snapshot, subset: Subset, binding: Binding)
    ensures forall e :: e in Baseline(active, subset, binding).edges ==> e in active.edges
  {
  }

  /** A derived version replays: its own edges, digest and snapshot come out again. */
  lemma DerivedReplays(review: Review, db: Db, v: VersionId, p: ProposalId, prior: Snapshot)
    requires v in db.versions && Derived(review, db, v, p, prior)
    requires Healthy(prior.members, prior.edges)
    ensures var row := db.versions[v];
        DistinctSorted(ProposalsOf(row.edges)) == row.proposalSet && Healthy(row.members, row.edges)
    ensures Replays(review, db, v, p, prior, Stored(db, v))
  {
    var row, d := db.versions[v], db.decisions[p];
    var replay := Replayed(review, d, p, row.binding, prior);
    var attempt := review.attempts[d.attemptId];
    var base := Baseline(prior, d.subset, row.binding);
    AcceptedFits(review.proposals[p], d.subset, row.binding, prior, Trusted(attempt, row.binding));
    NextHealthy(prior, d.subset, replay.edges, p, row.binding);
    NextProposals(prior, d.subset, replay.edges, p, row.binding);
    BaselineHealthy(prior, d.subset, row.binding);
    NextEdges(base, replay.edges, p, d.subset.Ids());
    BaselineEdges(prior, d.subset, row.binding);
    OwnEdges(base, replay.edges, p, d.subset.Ids(), row.edges);
    SortOfAscending(row.members, MemberKey);
    SortOfAscending(row.edges, EdgeKey);
  }

  lemma ReplayConfirms(review: Review, db: Db, v: VersionId, prior: Snapshot, s: Snapshot, p: ProposalId)
    requires v in db.versions && s.binding.Some?
    requires p in db.decisions && Deciders(db, v) == {p} && Replays(review, db, v, p, prior, s)
    ensures Confirmed(review, db, v, prior, s)
  {
    assert p in Deciders(db, v);
  }

  /** The snapshot that the recursive reader hands to the replay of version `v`. */
  ghost predicate Leads(review: Review, db: Db, v: VersionId, seen: set<VersionId>, prior: Snapshot)
    requires v in db.versions
  {
    var row := db.versions[v];
    if row.predecessor.None? then prior == Empty
    else Verify(review, db, row.predecessor.value, seen + {v}) == Some(prior) && prior.binding == Some(row.binding)
  }

  lemma VerifyUnfolds(review: Review, db: Db, v: VersionId, seen: set<VersionId>, prior: Snapshot, s: Snapshot)
    requires v in db.versions && v !in seen && ReadVersion(db, v) == Some(s)
    requires s.binding == Some(db.versions[v].binding)
    requires Leads(review, db, v, seen, prior) && Confirmed(review, db, v, prior, s)
    ensures Verify(review, db, v, seen) == Some(s)
  {
  }

  lemma DerivedVerifies(review: Review, db: Db, v: VersionId, seen: set<VersionId>, prior: Snapshot, p: ProposalId)
    requires v in db.versions && v !in seen && Derived(review, db, v, p, prior) && Healthy(prior.members, prior.edges)
    requires Leads(review, db, v, seen, prior)
    ensures Verify(review, db, v, seen) == Some(Stored(db, v))
  {
    DerivedReplays(review, db, v, p, prior);
    ReadsBack(db, v);
    ReplayConfirms(review, db, v, prior, Stored(db, v), p);
    VerifyUnfolds(review, db, v, seen, prior, Stored(db, v));
  }

  /** What the invariant says about the k-th version, unpacked. */
  lemma VersionFacts(review: Review, db: Db, k: nat) returns (p: ProposalId, j: int)
    requires DbInv(review, db) && k < |db.log|
    ensures db.log[k] in db.versions
    ensures var v := db.log[k];
      var row := db.versions[v];
      && Healthy(row.members, row.edges)
      && Derived(review, db, v, p, PriorOf(db, row))
      && (row.predecessor.Some? ==>
            && 0 <= j < k && db.log[j] == row.predecessor.value && row.predecessor.value in db.versions
            && db.versions[row.predecessor.value].binding == row.binding)
  {
    assert VersionOk(review, db, k);
    var row := db.versions[db.log[k]];
    p :| Derived(review, db, db.log[k], p, PriorOf(db, row));
    j := 0;
    if row.predecessor.Some? {
      j :| 0 <= j < k && j < |db.log| && db.log[j] == row.predecessor.value;
    }
  }

  /** Where the predecessor of the k-th version stands in the log. */
  lemma PredecessorOf(review: Review, db: Db, k: nat) returns (j: int)
    requires DbInv(review, db) && k < |db.log|
    ensures db.log[k] in db.versions
    ensures var row := db.versions[db.log[k]];
      row.predecessor.Some? ==> 0 <= j < k && db.log[j] == row.predecessor.value && row.predecessor.value in db.versions
  {
    var _, i := VersionFacts(review, db, k);
    j := i;
  }

  /** A version verifies once its predecessor does. */
  lemma VersionVerifies(review: Review, db: Db, k: nat, seen: set<VersionId>)
    requires DbInv(review, db) && k < |db.log| && db.log[k] !in seen && db.log[k] in db.versions
    requires var row := db.versions[db.log[k]];
      row.predecessor.Some? ==>
        && row.predecessor.value in db.versions
        && Verify(review, db, row.predecessor.value, seen + {db.log[k]}) == Some(Stored(db, row.predecessor.value))
    ensures Verify(review, db, db.log[k], seen) == Some(Stored(db, db.log[k]))
  {
    var p, j := VersionFacts(review, db, k);
    var row := db.versions[db.log[k]];
    if row.predecessor.Some? {
      var _, _ := VersionFacts(review, db, j);
    } else {
      EmptyIsHealthy();
    }
    DerivedVerifies(review, db, db.log[k], seen, PriorOf(db, row), p);
  }

  /** Every stored version verifies, whatever unrelated versions were seen on the way. */
  lemma {:induction false} EveryVersionVerifies(review: Review, db: Db, k: nat, seen: set<VersionId>)
    requires DbInv(review, db) && k < |db.log|
    requires forall j :: 0 <= j <= k ==> db.log[j] !in seen
    ensures db.log[k] in db.versions && Verify(review, db, db.log[k], seen) == Some(Stored(db, db.log[k]))
    decreases k
  {
    var j := PredecessorOf(review, db, k);
    if db.versions[db.log[k]].predecessor.Some? {
      EveryVersionVerifies(review, db, j, seen + {db.log[k]});
    }
    VersionVerifies(review, db, k, seen);
  }

  /** In every state of the store the reader accepts the current version and
      returns exactly what activation stored. */
  lemma CurrentIsReadable(review: Review, db: Db)
    requires DbInv(review, db)
    ensures ReadCurrent(review, db) == Some(if db.current.None? then Empty else Stored(db, db.current.value))
  {
    if db.current.Some? {
      assert db.current.value in Elements(db.log);
      var k :| 0 <= k < |db.log| && db.log[k] == db.current.value;
      EveryVersionVerifies(review, db, k, {});
    }
  }

  // ------------------------------------------------------------- preservation

  /** The review tables only grow: accepted evidence stays as it is, except that
      an attempt may later be superseded. */
  ghost predicate Extends(review: Review, review': Review) {
    && review'.Valid()
    && (forall p :: p in review.proposals ==> p in review'.proposals && review'.proposals[p] == review.proposals[p])
    && (forall a ::
        a in review.attempts && review.attempts[a].accepted && review.attempts[a].authenticated
        && review.attempts[a].lineageIntact ==>
          a in review'.attempts && review'.attempts[a]
              == review.attempts[a].(superseded := review'.attempts[a].superseded))
  }

  lemma DerivedPersists(review: Review, db: Db, review': Review, db': Db, v: VersionId, p: ProposalId, prior: Snapshot)
    requires v in db.versions && Derived(review, db, v, p, prior)
    requires v in db'.versions && db'.versions[v] == db.versions[v]
    requires p in db'.decisions && db'.decisions[p] == db.decisions[p] && Deciders(db', v) == Deciders(db, v)
    requires review' == review || Extends(review, review')
    ensures Derived(review', db', v, p, prior)
  {
    if Extends(review, review') {
      var d := db.decisions[p];
      var a, a' := review.attempts[d.attemptId], review'.attempts[d.attemptId];
      assert Trusted(a', d.binding) == Trusted(a, d.binding);
    }
  }

  /** The parts of the store that a later state keeps. */
  ghost predicate Grows(db: Db, db': Db) {
    && db.log <= db'.log
    && (forall v :: v in db.versions ==>
        v in db'.versions && db'.versions[v] == db.versions[v] && Deciders(db', v) == Deciders(db, v))
    && (forall p :: p in db.decisions ==> p in db'.decisions && db'.decisions[p] == db.decisions[p])
  }

  lemma VersionPersists(review: Review, db: Db, review': Review, db': Db, k: nat)
    requires DbInv(review, db) && k < |db.log| && Grows(db, db')
    requires review' == review || Extends(review, review')
    ensures VersionOk(review', db', k)
  {
    assert VersionOk(review, db, k);
    var p, j := VersionFacts(review, db, k);
    var v := db.log[k];
    var row := db.versions[v];
    assert db'.log[k] == v;
    if row.predecessor.Some? {
      assert db'.log[j] == row.predecessor.value;
      assert Earlier(db', k, row);
    }
    assert PriorOf(db', row) == PriorOf(db, row);
    DerivedPersists(review, db, review', db', v, p, PriorOf(db, row));
  }

  /** Growth of the review tables keeps the store invariant. */
  lemma ReviewGrowthKeeps(review: Review, db: Db, review': Review)
    requires DbInv(review, db) && Extends(review, review')
    ensures DbInv(review', db)
  {
    forall k | 0 <= k < |db.log| ensures VersionOk(review', db, k) {
      VersionPersists(review, db, review', db, k);
    }
  }

  /** A verdict that stores no version keeps the store invariant. */
  lemma UnacceptedKeeps(review: Review, db: Db, p: ProposalId, d: DecisionRow)
    requires DbInv(review, db) && p !in db.decisions && d.version.None?
    ensures DbInv(review, db.(decisions := db.decisions[p := d]))
  {
    var db' := db.(decisions := db.decisions[p := d]);
    forall v | v in db.versions ensures Deciders(db', v) == Deciders(db, v) {
    }
    forall k | 0 <= k < |db.log| ensures VersionOk(review, db', k) {
      VersionPersists(review, db, review, db', k);
    }
  }

  /** Validation against a graph of another binding is validation against none. */
  lemma OtherBindingIsEmpty(proposal: Proposal, subset: Subset, binding: Binding, active: Snapshot,
          provenance: seq<Provenance>, edges: seq<GraphEdge>)
    requires active.binding != Some(binding)
    ensures Judge(proposal, subset, binding, active, provenance) == Judge(proposal, subset, binding, Empty, provenance)
    ensures NextSnapshot(active, subset, edges, proposal.id, binding)
        == NextSnapshot(Empty, subset, edges, proposal.id, binding)
  {
    assert CurrentFor(active, binding) == Empty || active.binding.None?;
    assert Baseline(CurrentFor(active, binding), subset, binding) == Empty
        == Baseline(CurrentFor(Empty, binding), subset, binding);
  }

  ghost function NewRow(active: Snapshot, s: Snapshot, binding: Binding): VersionRow {
    VersionRow(if active.binding == Some(binding) then active.version else None, binding, s.proposalIds,
        DigestOf(s.members, s.edges), s.members, s.edges)
  }

  ghost function NewDecision(proposal: Proposal, subset: Subset, binding: Binding, validation: Validation,
          row: VersionRow, v: VersionId): DecisionRow
  {
    DecisionRow(proposal.attemptId, subset, binding, validation.decision, validation.reason,
                DecisionDigest(validation, proposal, subset, binding, Some(v), row.predecessor, Some(row.graph)),
                    Some(v))
  }

  ghost function WithVersion(db: Db, v: VersionId, row: VersionRow, p: ProposalId, d: DecisionRow): Db {
    Db(db.versions[v := row], db.log + [v], db.decisions[p := d], Some(v))
  }

  lemma NewVersionGrows(db: Db, v: VersionId, row: VersionRow, p: ProposalId, d: DecisionRow)
    requires v !in db.versions && p !in db.decisions && d.version == Some(v)
    ensures Grows(db, WithVersion(db, v, row, p, d))
  {
    var db' := WithVersion(db, v, row, p, d);
    forall u | u in db.versions ensures Deciders(db', u) == Deciders(db, u) {
    }
  }

  /** The state that an activation finds: the stored current version, or nothing. */
  ghost predicate ActiveIn(db: Db, active: Snapshot) {
    active == if db.current.Some? && db.current.value in db.versions then Stored(db, db.current.value) else Empty
  }

  /** The new version is derived from the state it was activated in. */
  lemma NewVersionDerived(review: Review, db: Db, proposal: Proposal, binding: Binding, active: Snapshot, v: VersionId,
          validation: Validation, next: Snapshot, row: VersionRow, d: DecisionRow)
    requires review.Valid() && DbInv(review, db) && Admitted(review, proposal, binding)
    requires ActiveIn(db, active) && Accepts(review, proposal, binding, active, validation, next)
    requires proposal.id !in db.decisions && v !in db.versions
    requires forall e :: e in active.edges ==> e.proposalId in db.decisions
    requires validation.reason.GraphValid? && next == Snapshot(None, None, next.members, next.edges, next.proposalIds)
    requires row == NewRow(active, next, binding) && row.graph == GraphDigest(next.members, next.edges)
    requires d == NewDecision(proposal, review.attempts[proposal.attemptId].subset, binding, validation, row, v)
    ensures var db' := WithVersion(db, v, row, proposal.id, d); Derived(review, db', v, proposal.id, PriorOf(db', row))
  {
    var p, attempt := proposal.id, review.attempts[proposal.attemptId];
    var db' := WithVersion(db, v, row, p, d);
    NewVersionDecider(review, db, v, row, p, d);
    PriorIs(db, active, v, row, p, d);
    DerivedOn(review, db', v, proposal, binding, active, PriorOf(db', row), validation, next, db.decisions.Keys);
  }

  lemma PriorIs(db: Db, active: Snapshot, v: VersionId, row: VersionRow, p: ProposalId, d: DecisionRow)
    requires ActiveIn(db, active) && v !in db.versions
    requires row.predecessor == if active.binding == Some(row.binding) then active.version else None
    ensures PriorOf(WithVersion(db, v, row, p, d), row) == if active.binding == Some(row.binding) then active else Empty
  {
  }

  lemma DerivedOn(review: Review, db': Db, v: VersionId, proposal: Proposal, binding: Binding, active: Snapshot,
          prior: Snapshot, validation: Validation, next: Snapshot, decided: set<ProposalId>)
    requires review.Valid() && Admitted(review, proposal, binding)
    requires Accepts(review, proposal, binding, active, validation, next)
    requires prior == if active.binding == Some(binding) then active else Empty
    requires proposal.id !in decided && forall e :: e in active.edges ==> e.proposalId in decided
    requires validation.reason.GraphValid? && next == Snapshot(None, None, next.members, next.edges, next.proposalIds)
    requires v in db'.versions && proposal.id in db'.decisions && Deciders(db', v) == {proposal.id}
    requires var row := db'.versions[v];
      && row == VersionRow(row.predecessor, binding, next.proposalIds, GraphDigest(next.members, next.edges),
          next.members, next.edges)
      && db'.decisions[proposal.id] == NewDecision(proposal, review.attempts[proposal.attemptId].subset, binding,
          validation, row, v)
    ensures Derived(review, db', v, proposal.id, prior)
  {
    if active.binding != Some(binding) {
      AcceptsOnEmpty(review, proposal, binding, active, validation, next);
    }
    DerivedFrom(review, db', v, proposal, binding, prior, validation, next);
  }

  lemma AcceptsOnEmpty(review: Review, proposal: Proposal, binding: Binding, active: Snapshot, validation: Validation,
          next: Snapshot)
    requires Accepts(review, proposal, binding, active, validation, next) && active.binding != Some(binding)
    ensures Accepts(review, proposal, binding, Empty, validation, next)
  {
    var attempt := review.attempts[proposal.attemptId];
    OtherBindingIsEmpty(proposal, attempt.subset, binding, active, Trusted(attempt, binding), validation.edges);
  }

  lemma DerivedFrom(review: Review, db': Db, v: VersionId, proposal: Proposal, binding: Binding, prior: Snapshot,
          validation: Validation, next: Snapshot)
    requires review.Valid() && Admitted(review, proposal, binding)
    requires Accepts(review, proposal, binding, prior, validation, next)
    requires forall e :: e in prior.edges ==> e.proposalId != proposal.id
    requires validation.reason.GraphValid? && next == Snapshot(None, None, next.members, next.edges, next.proposalIds)
    requires v in db'.versions && proposal.id in db'.decisions && Deciders(db', v) == {proposal.id}
    requires var row := db'.versions[v];
      && row == VersionRow(row.predecessor, binding, next.proposalIds, GraphDigest(next.members, next.edges),
          next.members, next.edges)
      && db'.decisions[proposal.id] == NewDecision(proposal, review.attempts[proposal.attemptId].subset, binding,
          validation, row, v)
    ensures Derived(review, db', v, proposal.id, prior)
  {
    var row, d := db'.versions[v], db'.decisions[proposal.id];
    assert Evidence(review, d, proposal.id, row.binding);
    assert Replayed(review, d, proposal.id, row.binding, prior) == validation;
  }

  lemma ActiveIsHealthy(review: Review, db: Db, active: Snapshot)
    requires DbInv(review, db) && ActiveIn(db, active)
    ensures Healthy(active.members, active.edges) && forall e :: e in active.edges ==> e.proposalId in db.decisions
  {
    if db.current.Some? {
      assert db.current.value in Elements(db.log);
      var k :| 0 <= k < |db.log| && db.log[k] == db.current.value;
      assert VersionOk(review, db, k);
    } else {
      EmptyIsHealthy();
    }
  }

  /** Everything an accepted activation computes, as the store sees it. */
  ghost predicate Accepts(review: Review, proposal: Proposal, binding: Binding, active: Snapshot,
          validation: Validation, next: Snapshot)
  {
    && proposal.attemptId in review.attempts
    && var attempt := review.attempts[proposal.attemptId];
    && validation == Judge(proposal, attempt.subset, binding, active, Trusted(attempt, binding))
    && validation.decision.Accepted?
    && NextSnapshot(active, attempt.subset, validation.edges, proposal.id, binding) == Some(next)
  }

  /** What an accepted activation computes is healthy, in canonical form, and
      introduces edges of its own proposal only. */
  lemma AcceptedResult(review: Review, proposal: Proposal, binding: Binding, active: Snapshot, validation: Validation,
          next: Snapshot, decided: set<ProposalId>)
    requires proposal.Valid() && Accepts(review, proposal, binding, active, validation, next)
    requires Healthy(active.members, active.edges) && forall e :: e in active.edges ==> e.proposalId in decided
    ensures Healthy(next.members, next.edges)
    ensures DigestOf(next.members, next.edges) == GraphDigest(next.members, next.edges)
    ensures forall e :: e in next.edges ==> e.proposalId in decided + {proposal.id}
    ensures validation.reason.GraphValid? && next == Snapshot(None, None, next.members, next.edges, next.proposalIds)
  {
    var attempt := review.attempts[proposal.attemptId];
    AcceptedAdds(proposal, attempt.subset, binding, active, Trusted(attempt, binding), validation);
    NextInOrder(active, attempt.subset, validation.edges, proposal.id, binding, next, decided);
  }

  lemma AcceptedAdds(proposal: Proposal, subset: Subset, binding: Binding, active: Snapshot,
          provenance: seq<Provenance>, validation: Validation)
    requires proposal.Valid() && validation == Judge(proposal, subset, binding, active, provenance)
    requires validation.decision.Accepted?
    ensures validation.reason.GraphValid?
    ensures FitsBaseline(Baseline(active, subset, binding), validation.edges, proposal.id, subset.Ids())
  {
    AcceptedMeans(proposal, subset, binding, active, provenance);
    AcceptedFits(proposal, subset, binding, active, provenance);
  }

  lemma NextInOrder(active: Snapshot, subset: Subset, edges: seq<GraphEdge>, p: ProposalId, binding: Binding,
          next: Snapshot, decided: set<ProposalId>)
    requires FitsBaseline(Baseline(active, subset, binding), edges, p, subset.Ids())
    requires NextSnapshot(active, subset, edges, p, binding) == Some(next)
    requires Healthy(active.members, active.edges) && forall e :: e in active.edges ==> e.proposalId in decided
    ensures Healthy(next.members, next.edges)
    ensures DigestOf(next.members, next.edges) == GraphDigest(next.members, next.edges)
    ensures forall e :: e in next.edges ==> e.proposalId in decided + {p}
    ensures next == Snapshot(None, None, next.members, next.edges, next.proposalIds)
  {
    NextHealthy(active, subset, edges, p, binding);
    NewEdgesDecided(active, subset, edges, p, binding, decided);
    SortOfAscending(next.members, MemberKey);
    SortOfAscending(next.edges, EdgeKey);
  }

  /** Appending a version that is in order keeps the store invariant. */
  lemma AppendKeeps(review: Review, db: Db, v: VersionId, row: VersionRow, p: ProposalId, d: DecisionRow, db': Db)
    requires DbInv(review, db) && v !in db.versions && p !in db.decisions && d.version == Some(v)
    requires db' == WithVersion(db, v, row, p, d) && VersionOk(review, db', |db.log|)
    ensures DbInv(review, db')
  {
    OldVersionsOk(review, db, v, row, p, d);
    AllOk(review, db', |db.log|);
    TablesAgree(review, db, v, row, p, d);
    Assembled(review, db');
  }

  lemma AllOk(review: Review, db: Db, n: nat)
    requires forall k :: 0 <= k < n ==> VersionOk(review, db, k)
    requires VersionOk(review, db, n) && |db.log| == n + 1
    ensures VersionsOk(review, db)
  {
    forall k | 0 <= k < |db.log| ensures VersionOk(review, db, k) {
      if k == n {
      } else {
        assert 0 <= k < n;
      }
    }
  }

  lemma TablesAgree(review: Review, db: Db, v: VersionId, row: VersionRow, p: ProposalId, d: DecisionRow)
    requires Tables(db) && v !in db.versions && p !in db.decisions && d.version == Some(v)
    ensures Tables(WithVersion(db, v, row, p, d))
  {
    NewLog(db.log, v);
  }

  lemma Assembled(review: Review, db: Db)
    requires Tables(db) && VersionsOk(review, db)
    ensures DbInv(review, db)
  {
  }

  lemma OldVersionsOk(review: Review, db: Db, v: VersionId, row: VersionRow, p: ProposalId, d: DecisionRow)
    requires DbInv(review, db) && v !in db.versions && p !in db.decisions && d.version == Some(v)
    ensures forall k :: 0 <= k < |db.log| ==> VersionOk(review, WithVersion(db, v, row, p, d), k)
  {
    var db' := WithVersion(db, v, row, p, d);
    NewVersionGrows(db, v, row, p, d);
    forall k | 0 <= k < |db.log| ensures VersionOk(review, db', k) {
      VersionPersists(review, db, review, db', k);
    }
  }

  /** An accepted activation keeps the store invariant. */
  lemma AcceptedKeeps(review: Review, db: Db, proposal: Proposal, binding: Binding, active: Snapshot, v: VersionId,
          validation: Validation, next: Snapshot, row: VersionRow, d: DecisionRow)
    requires review.Valid() && DbInv(review, db) && Admitted(review, proposal, binding)
    requires ActiveIn(db, active) && Accepts(review, proposal, binding, active, validation, next)
    requires proposal.id !in db.decisions && v !in db.versions
    requires row == NewRow(active, next, binding)
    requires d == NewDecision(proposal, review.attempts[proposal.attemptId].subset, binding, validation, row, v)
    ensures DbInv(review, WithVersion(db, v, row, proposal.id, d))
  {
    ActiveIsHealthy(review, db, active);
    AcceptedResult(review, proposal, binding, active, validation, next, db.decisions.Keys);
    NewVersionDerived(review, db, proposal, binding, active, v, validation, next, row, d);
    NewVersionOk(review, db, binding, active, v, row, proposal.id, WithVersion(db, v, row, proposal.id, d));
    AppendKeeps(review, db, v, row, proposal.id, d, WithVersion(db, v, row, proposal.id, d));
  }

  lemma NewLog(log: seq<VersionId>, v: VersionId)
    requires Distinct(log) && v !in Elements(log)
    ensures Distinct(log + [v]) && Elements(log + [v]) == Elements(log) + {v}
  {
  }

  lemma NewVersionOk(review: Review, db: Db, binding: Binding, active: Snapshot, v: VersionId, row: VersionRow,
          p: ProposalId, db': Db)
    requires DbInv(review, db) && ActiveIn(db, active) && v !in db.versions && p !in db.decisions
    requires row.binding == binding && row.predecessor == if active.binding == Some(binding) then active.version
        else None
    requires p in db'.decisions && db' == WithVersion(db, v, row, p, db'.decisions[p])
    requires Healthy(row.members, row.edges) && Derived(review, db', v, p, PriorOf(db', row))
    requires forall e :: e in row.edges ==> e.proposalId in db.decisions.Keys + {p}
    ensures VersionOk(review, db', |db.log|)
  {
    if row.predecessor.Some? {
      assert db.current.value in Elements(db.log);
      var j :| 0 <= j < |db.log| && db.log[j] == db.current.value;
      assert db'.log[j] == db.log[j];
      assert Earlier(db', |db.log|, row);
    }
  }

  /** Every activation, of any proposal under any binding, keeps the store invariant. */
  lemma ActivationKeeps(review: Review, db: Db, proposal: Proposal, binding: Binding, version: VersionId,
          scopeOpen: bool)
    requires review.Valid() && DbInv(review, db)
    ensures var o := Activate(review, db, proposal, binding, version, scopeOpen); o.Done? ==> DbInv(review, o.db)
  {
    var o := Activate(review, db, proposal, binding, version, scopeOpen);
    CurrentIsReadable(review, db);
    if o.Done? && proposal.id !in db.decisions {
      var attempt := review.attempts[proposal.attemptId];
      var active := ReadCurrent(review, db).value;
      var validation := Judge(proposal, attempt.subset, binding, active, Trusted(attempt, binding));
      DecisionKeeps(review, db, proposal, binding, version, active, validation);
    }
  }

  lemma DecisionKeeps(review: Review, db: Db, proposal: Proposal, binding: Binding, version: VersionId,
          active: Snapshot, validation: Validation)
    requires review.Valid() && DbInv(review, db) && Admitted(review, proposal, binding)
    requires ActiveIn(db, active) && proposal.id !in db.decisions
    requires var attempt := review.attempts[proposal.attemptId];
      validation == Judge(proposal, attempt.subset, binding, active, Trusted(attempt, binding))
    ensures var o := Decide(db, review.attempts[proposal.attemptId].subset, validation, active, proposal, binding,
        version);
      o.Done? ==> DbInv(review, o.db)
  {
    var subset := review.attempts[proposal.attemptId].subset;
    var o := Decide(db, subset, validation, active, proposal, binding, version);
    if o.Done? {
      if validation.decision.Accepted? {
        var next := NextSnapshot(active, subset, validation.edges, proposal.id, binding).value;
        var row := NewRow(active, next, binding);
        AcceptedKeeps(review, db, proposal, binding, active, version, validation, next, row,
            NewDecision(proposal, subset, binding, validation, row, version));
      } else {
        UnacceptedKeeps(review, db, proposal.id, o.db.decisions[proposal.id]);
      }
    }
  }

  lemma NewVersionDecider(review: Review, db: Db, v: VersionId, row: VersionRow, p: ProposalId, d: DecisionRow)
    requires DbInv(review, db) && v !in db.versions && p !in db.decisions && d.version == Some(v)
    ensures Deciders(WithVersion(db, v, row, p, d), v) == {p}
  {
  }

  lemma NewEdgesDecided(active: Snapshot, subset: Subset, edges: seq<GraphEdge>, p: ProposalId, binding: Binding,
          decided: set<ProposalId>)
    requires Healthy(active.members, active.edges)
    requires FitsBaseline(Baseline(active, subset, binding), edges, p, subset.Ids())
    requires forall e :: e in active.edges ==> e.proposalId in decided
    requires NextSnapshot(active, subset, edges, p, binding).Some?
    ensures forall e :: e in NextSnapshot(active, subset, edges, p, binding).value.edges ==>
        e.proposalId in decided + {p}
  {
    BaselineHealthy(active, subset, binding);
    NextEdges(Baseline(active, subset, binding), edges, p, subset.Ids());
    BaselineEdges(active, subset, binding);
  }
}
