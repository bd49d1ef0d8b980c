/** The versioned graph store: activation of a durably accepted proposal, and
    the reader that re-derives every accepted version by replaying it. Tables
    are maps; each transaction is one step. */
module GraphStore {
  import opened Prelude
  import opened GraphCycles
  import opened GraphOrdering
  import opened GraphValidation

  /** A dependency-review attempt with the subset and the trusted relations that
      its preparation transaction wrote. */
  datatype Attempt = Attempt(
    subset: Subset,
    relations: seq<Relation>,
    accepted: bool,
    authenticated: bool,
    lineageIntact: bool,
    superseded: bool)

  /** The dependency-review tables that activation only reads. */
  datatype Review = Review(attempts: map<AttemptId, Attempt>, proposals: map<ProposalId, Proposal>)
  {
    ghost predicate Valid() {
      && (forall a :: a in attempts ==> attempts[a].subset.Valid())
      && (forall p :: p in proposals ==> proposals[p].Valid() && proposals[p].id == p)
    }
  }

  datatype GraphDigest = GraphDigest(members: seq<GraphMember>, edges: seq<GraphEdge>)

  datatype VersionRow = VersionRow(
    predecessor: Option<VersionId>,
    binding: Binding,
    proposalSet: seq<ProposalId>,
    graph: GraphDigest,
    members: seq<GraphMember>,
    edges: seq<GraphEdge>)

  /** Seals a verdict to its exact transition. */
  datatype DecisionDigest = DecisionDigest(
    validation: Validation,
    proposal: Proposal,
    subset: Subset,
    binding: Binding,
    version: Option<VersionId>,
    predecessor: Option<VersionId>,
    graph: Option<GraphDigest>)

  datatype DecisionRow = DecisionRow(
    attemptId: AttemptId,
    subset: Subset,
    binding: Binding,
    decision: GraphDecision,
    reason: Reason,
    digest: DecisionDigest,
    version: Option<VersionId>)

  /** `log` holds the version identifiers in insertion order. */
  datatype Db = Db(versions: map<VersionId, VersionRow>, log: seq<VersionId>, decisions: map<ProposalId, DecisionRow>,
      current: Option<VersionId>)

  const EmptyDb := Db(map[], [], map[], None)

  // ------------------------------------------------------------- snapshots

  /** Provenance rows as written for the attempt's relations. */
  function Trusted(attempt: Attempt, binding: Binding): seq<Provenance> {
    seq(|attempt.relations|, i requires 0 <= i < |attempt.relations| =>
        ExpectedProvenance(attempt.subset, binding, attempt.relations[i]))
  }

  function NewMembers(subset: Subset): (r: seq<GraphMember>)
    ensures |r| == |subset.members|
    ensures forall i :: 0 <= i < |r| ==> r[i] == GraphMember(subset.taskId, subset.snapshotId, subset.members[i])
  {
    seq(|subset.members|, i requires 0 <= i < |subset.members| =>
        GraphMember(subset.taskId, subset.snapshotId, subset.members[i]))
  }

  function MemberIds(members: seq<GraphMember>): (r: seq<Id>)
    ensures |r| == |members|
    ensures forall i :: 0 <= i < |r| ==> r[i] == members[i].member.id
  {
    seq(|members|, i requires 0 <= i < |members| => members[i].member.id)
  }

  function Fingerprints(members: seq<GraphMember>): seq<Atom> {
    seq(|members|, i requires 0 <= i < |members| => members[i].member.fingerprint)
  }

  /** The snapshot after an accepted change; `None` when constructing it raises
      because a member or proposal identifier would occur twice. */
  function NextSnapshot(active: Snapshot, subset: Subset, edges: seq<GraphEdge>, proposalId: ProposalId,
          binding: Binding): Option<Snapshot>
  {
    NextFrom(Baseline(active, subset, binding), subset, edges, proposalId)
  }

  function NextFrom(base: Snapshot, subset: Subset, edges: seq<GraphEdge>, proposalId: ProposalId): Option<Snapshot> {
    var replaced := ReplacedIds(base, subset);
    var kept := Filter(base.members, (m: GraphMember) => m.member.id !in replaced);
    var members := SortBy(kept + NewMembers(subset), MemberKey);
    var ids := SortBy(base.proposalIds + [proposalId], NatKey);
    if Distinct(MemberIds(members)) && Distinct(ids)
    then Some(Snapshot(None, None, members, SortBy(base.edges + edges, EdgeKey), ids))
    else None
  }

  function DigestOf(members: seq<GraphMember>, edges: seq<GraphEdge>): GraphDigest {
    GraphDigest(SortBy(members, MemberKey), SortBy(edges, EdgeKey))
  }

  // ---------------------------------------------------------------- reader

  /** `_read_version`: the stored snapshot, when its digests and shape still hold. */
  ghost function ReadVersion(db: Db, v: VersionId): Option<Snapshot> {
    if v !in db.versions then None
    else
      var row := db.versions[v];
      var members, edges := SortBy(row.members, MemberKey), SortBy(row.edges, PairKey);
      var s := Snapshot(Some(v), Some(row.binding), members, edges, DistinctSorted(ProposalsOf(edges)));
      if !Distinct(MemberIds(members)) || s.proposalIds != row.proposalSet || DigestOf(members, edges) != row.graph
          || Cyclic(Pairs(edges))
      then None else Some(s)
  }

  function Deciders(db: Db, v: VersionId): set<ProposalId> {
    set p | p in db.decisions && db.decisions[p].version == Some(v)
  }

  /** Replaying decision `p` on `prior` reproduces the snapshot `s` of version `v`. */
  ghost predicate Replays(review: Review, db: Db, v: VersionId, p: ProposalId, prior: Snapshot, s: Snapshot)
    requires v in db.versions && p in db.decisions && s.binding.Some?
  {
    var d, binding := db.decisions[p], s.binding.value;
    && d.decision.Accepted? && d.reason.GraphValid?
    && d.attemptId in review.attempts && p in review.proposals
    && var attempt, proposal := review.attempts[d.attemptId], review.proposals[p];
    && attempt.lineageIntact && attempt.authenticated
    && proposal.attemptId == d.attemptId && attempt.accepted
    && d.subset == attempt.subset && d.binding == binding
    && binding.Binds(attempt.subset)
    && var own := Filter(s.edges, (e: GraphEdge) => e.proposalId == p);
    var replay := Judge(proposal, attempt.subset, binding, prior, Trusted(attempt, binding));
    && replay.decision.Accepted? && replay.edges == own
    && d.digest == DecisionDigest(replay, proposal, attempt.subset, binding, Some(v), db.versions[v].predecessor,
        Some(DigestOf(s.members, s.edges)))
    && NextSnapshot(prior, attempt.subset, own, p, binding)
        == Some(Snapshot(None, None, s.members, s.edges, s.proposalIds))
  }

  /** Exactly one decision produced version `v`, and it replays. */
  ghost predicate Confirmed(review: Review, db: Db, v: VersionId, prior: Snapshot, s: Snapshot)
    requires v in db.versions && s.binding.Some?
  {
    |Deciders(db, v)| == 1 && exists p :: p in Deciders(db, v) && Replays(review, db, v, p, prior, s)
  }

  /** `_verify_accepted_version`. */
  ghost function Verify(review: Review, db: Db, v: VersionId, seen: set<VersionId>): Option<Snapshot>
    decreases |db.versions.Keys - seen|
  {
    if v in seen then None
    else
      var s := ReadVersion(db, v);
      if s.None? then None
      else
        assert db.versions.Keys - (seen + {v}) < db.versions.Keys - seen by {
          assert v in db.versions.Keys - seen;
        }
        assert |db.versions.Keys - (seen + {v})| < |db.versions.Keys - seen| by {
          SmallerRemainder(db.versions.Keys, seen, v);
        }
        var predecessor := db.versions[v].predecessor;
        var prior := if predecessor.None? then Some(Empty) else Verify(review, db, predecessor.value, seen + {v});
        if prior.None? || (predecessor.Some? && prior.value.binding != s.value.binding) then None
        else if Confirmed(review, db, v, prior.value, s.value) then s else None
  }

  lemma SmallerRemainder(all: set<VersionId>, seen: set<VersionId>, v: VersionId)
    requires v in all && v !in seen
    ensures |all - (seen + {v})| < |all - seen|
  {
    assert all - seen == (all - (seen + {v})) + {v};
  }

  ghost function ReadCurrent(review: Review, db: Db): Option<Snapshot> {
    if db.current.None? then Some(Empty) else Verify(review, db, db.current.value, {})
  }

  // ------------------------------------------------------------ activation

  datatype Activation = Activation(decision: GraphDecision, reason: Reason, digest: DecisionDigest,
      version: Option<VersionId>)

  datatype Outcome = Failed | Done(db: Db, activation: Activation)

  /** The review evidence that every activation demands. */
  predicate Admitted(review: Review, proposal: Proposal, binding: Binding) {
    && proposal.attemptId in review.attempts
    && proposal.id in review.proposals && review.proposals[proposal.id] == proposal
    && var attempt := review.attempts[proposal.attemptId];
    attempt.accepted && binding.Binds(attempt.subset) && attempt.authenticated && attempt.lineageIntact
        && !attempt.superseded
  }

  /** `activate`: `Failed` is a raised error with the transaction rolled back. */
  ghost function Activate(review: Review, db: Db, proposal: Proposal, binding: Binding, version: VersionId,
          scopeOpen: bool): Outcome
  {
    if !Admitted(review, proposal, binding) then Failed
    else
      var active := ReadCurrent(review, db);
      if active.None? then Failed
      else if proposal.id in db.decisions then Repeat(review, db, proposal, binding, version)
      else if !scopeOpen then Failed
      else
        var attempt := review.attempts[proposal.attemptId];
        Decide(db, attempt.subset, Judge(proposal, attempt.subset, binding, active.value, Trusted(attempt, binding)),
            active.value, proposal, binding, version)
  }

  /** A proposal that was decided before keeps its decision. */
  function Repeat(review: Review, db: Db, proposal: Proposal, binding: Binding, version: VersionId): Outcome
    requires Admitted(review, proposal, binding) && proposal.id in db.decisions
  {
    var d := db.decisions[proposal.id];
    if d.attemptId != proposal.attemptId || d.subset != review.attempts[proposal.attemptId].subset
        || d.binding != binding then Failed
    else if d.decision.Accepted? && d.version != Some(version) then Failed
    else if !d.decision.Accepted? && d.version.Some? then Failed
    else Done(db, Activation(d.decision, d.reason, d.digest, d.version))
  }

  /** Write the verdict, and for an accepted change the new current version. */
  function Decide(db: Db, subset: Subset, validation: Validation, active: Snapshot, proposal: Proposal,
          binding: Binding, version: VersionId): Outcome
  {
    if exists q :: q in db.decisions && db.decisions[q].attemptId == proposal.attemptId then Failed
    else if !validation.decision.Accepted? then
      var digest := DecisionDigest(validation, proposal, subset, binding, None, None, None);
      var row := DecisionRow(proposal.attemptId, subset, binding, validation.decision, validation.reason, digest, None);
      Done(db.(decisions := db.decisions[proposal.id := row]),
          Activation(validation.decision, validation.reason, digest, None))
    else
      var next := NextSnapshot(active, subset, validation.edges, proposal.id, binding);
      if next.None? || version in db.versions || !Distinct(Fingerprints(next.value.members))
          || !Distinct(Pairs(next.value.edges)) then Failed
      else
        var s, predecessor := next.value, if active.binding == Some(binding) then active.version else None;
        var graph := DigestOf(s.members, s.edges);
        var digest := DecisionDigest(validation, proposal, subset, binding, Some(version), predecessor, Some(graph));
        var row := DecisionRow(proposal.attemptId, subset, binding, validation.decision, validation.reason, digest,
            Some(version));
        Done(Db(db.versions[version := VersionRow(predecessor, binding, s.proposalIds, graph, s.members, s.edges)],
                db.log + [version], db.decisions[proposal.id := row], Some(version)),
             Activation(validation.decision, validation.reason, digest, Some(version)))
  }

  // ------------------------------------------------------------ imperative

  method LoadVersion(db: Db, v: VersionId) returns (s: Option<Snapshot>)
    ensures s == ReadVersion(db, v)
  {
    if v !in db.versions {
      return None;
    }
    var row := db.versions[v];
    var members, edges := SortBy(row.members, MemberKey), SortBy(row.edges, PairKey);
    var ids := DistinctSorted(ProposalsOf(edges));
    var cycle := HasCycle(Pairs(edges));
    if !Distinct(MemberIds(members)) || ids != row.proposalSet || DigestOf(members, edges) != row.graph || cycle {
      return None;
    }
    s := Some(Snapshot(Some(v), Some(row.binding), members, edges, ids));
  }

  method Replay(review: Review, db: Db, v: VersionId, p: ProposalId, prior: Snapshot, s: Snapshot) returns (ok: bool)
    requires v in db.versions && p in db.decisions && s.binding.Some?
    ensures ok <==> Replays(review, db, v, p, prior, s)
  {
    var d, binding := db.decisions[p], s.binding.value;
    if !d.decision.Accepted? || !d.reason.GraphValid? || d.attemptId !in review.attempts || p !in review.proposals {
      return false;
    }
    var attempt, proposal := review.attempts[d.attemptId], review.proposals[p];
    if !attempt.lineageIntact || !attempt.authenticated || proposal.attemptId != d.attemptId || !attempt.accepted
       || d.subset != attempt.subset || d.binding != binding {
      return false;
    }
    var own := Filter(s.edges, (e: GraphEdge) => e.proposalId == p);
    var replay := Validate(proposal, attempt.subset, binding, prior, Trusted(attempt, binding));
    if replay.None? || !replay.value.decision.Accepted? || replay.value.edges != own {
      return false;
    }
    var digest := DecisionDigest(replay.value, proposal, attempt.subset, binding, Some(v), db.versions[v].predecessor,
        Some(DigestOf(s.members, s.edges)));
    if d.digest != digest {
      return false;
    }
    ok := NextSnapshot(prior, attempt.subset, own, p, binding)
        == Some(Snapshot(None, None, s.members, s.edges, s.proposalIds));
  }

  /** The recursive reader terminates on every table, whatever it holds. */
  method VerifyVersion(review: Review, db: Db, v: VersionId, seen: set<VersionId>) returns (s: Option<Snapshot>)
    ensures s == Verify(review, db, v, seen)
    decreases |db.versions.Keys - seen|
  {
    if v in seen {
      return None;
    }
    s := LoadVersion(db, v);
    if s.None? {
      return None;
    }
    SmallerRemainder(db.versions.Keys, seen, v);
    var predecessor := db.versions[v].predecessor;
    var prior := Some(Empty);
    if predecessor.Some? {
      prior := VerifyVersion(review, db, predecessor.value, seen + {v});
    }
    if prior.None? || (predecessor.Some? && prior.value.binding != s.value.binding) {
      return None;
    }
    var ok := Confirm(review, db, v, prior.value, s.value);
    if !ok {
      return None;
    }
  }

  /** The one decision that produced the version is found and replayed. */
  method Confirm(review: Review, db: Db, v: VersionId, prior: Snapshot, s: Snapshot) returns (ok: bool)
    requires v in db.versions && s.binding.Some?
    ensures ok <==> Confirmed(review, db, v, prior, s)
  {
    var deciders := Deciders(db, v);
    if |deciders| != 1 {
      return false;
    }
    var p :| p in deciders;
    OnlyElement(deciders, p);
    ok := Replay(review, db, v, p, prior, s);
  }

  lemma OnlyElement(s: set<ProposalId>, p: ProposalId)
    requires |s| == 1 && p in s
    ensures s == {p}
  {
    SubsetOfSameSize({p}, s);
  }

  method LoadCurrent(review: Review, db: Db) returns (s: Option<Snapshot>)
    ensures s == ReadCurrent(review, db)
  {
    if db.current.None? {
      return Some(Empty);
    }
    s := VerifyVersion(review, db, db.current.value, {});
  }

  /** One activation transaction up to its commit or rollback. */
  method Transact(review: Review, db: Db, proposal: Proposal, binding: Binding, version: VersionId, scopeOpen: bool)
    returns (outcome: Outcome)
    ensures outcome == Activate(review, db, proposal, binding, version, scopeOpen)
  {
    if !Admitted(review, proposal, binding) {
      return Failed;
    }
    var active := LoadCurrent(review, db);
    if active.None? {
      return Failed;
    }
    if proposal.id in db.decisions {
      outcome := Repeat(review, db, proposal, binding, version);
      return;
    }
    var attempt := review.attempts[proposal.attemptId];
    var validation := Validate(proposal, attempt.subset, binding, active.value, Trusted(attempt, binding));
    if validation.None? || !scopeOpen {
      return Failed;
    }
    outcome := Decide(db, attempt.subset, validation.value, active.value, proposal, binding, version);
  }

  class Store {
    var db: Db

    constructor ()
      ensures db == EmptyDb
    {
      db := EmptyDb;
    }

    method ActivateProposal(review: Review, proposal: Proposal, binding: Binding, version: VersionId, scopeOpen: bool)
      returns (result: Option<Activation>)
      modifies this
      ensures var o := Activate(review, old(db), proposal, binding, version, scopeOpen);
        if o.Failed? then db == old(db) && result == None else db == o.db && result == Some(o.activation)
    {
      var outcome := Transact(review, db, proposal, binding, version, scopeOpen);
      if outcome.Failed? {
        return None;
      }
      db := outcome.db;
      result := Some(outcome.activation);
    }
  }
}
