/** Whole runs of the graph store: review evidence grows, proposals are
    activated under changing bindings, in any order and any number. */
module GraphRuns {
  import opened Prelude
  import opened GraphCycles
  import opened GraphOrdering
  import opened GraphValidation
  import opened GraphStore
  import opened GraphReplay

  datatype System = System(review: Review, db: Db)

  const Initial := System(Review(map[], map[]), EmptyDb)

  datatype Event =
    | ReviewGrows(review: Review)
    | Activates(proposal: Proposal, binding: Binding, version: VersionId, scopeOpen: bool)

  /** A failed activation is rolled back; review tables change only by growing. */
  ghost function After(s: System, event: Event): System {
    match event
    case ReviewGrows(review) => if Extends(s.review, review) then System(review, s.db) else s
    case Activates(proposal, binding, version, scopeOpen) =>
      var o := Activate(s.review, s.db, proposal, binding, version, scopeOpen);
      if o.Failed? then s else System(s.review, o.db)
  }

  ghost function Run(s: System, events: seq<Event>): System {
    if events == [] then s else After(Run(s, events[..|events| - 1]), events[|events| - 1])
  }

  ghost predicate SystemInv(s: System) {
    s.review.Valid() && DbInv(s.review, s.db)
  }

  /** No version row is ever rewritten or dropped. */
  ghost predicate KeepsVersions(a: Db, b: Db) {
    forall v :: v in a.versions ==> v in b.versions && b.versions[v] == a.versions[v]
  }

  lemma InitialInv()
    ensures SystemInv(Initial)
  {
  }

  lemma AfterKeeps(s: System, event: Event)
    requires SystemInv(s)
    ensures SystemInv(After(s, event))
  {
    match event
    case ReviewGrows(review) =>
      if Extends(s.review, review) {
        ReviewGrowthKeeps(s.review, s.db, review);
      }
    case Activates(proposal, binding, version, scopeOpen) =>
      ActivationKeeps(s.review, s.db, proposal, binding, version, scopeOpen);
  }

  lemma AfterKeepsVersions(s: System, event: Event)
    ensures KeepsVersions(s.db, After(s, event).db)
  {
  }

  lemma {:induction false} RunKeeps(s: System, events: seq<Event>)
    requires SystemInv(s)
    ensures SystemInv(Run(s, events)) && KeepsVersions(s.db, Run(s, events).db)
  {
    if events != [] {
      var init := Run(s, events[..|events| - 1]);
      RunKeeps(s, events[..|events| - 1]);
      AfterKeeps(init, events[|events| - 1]);
      AfterKeepsVersions(init, events[|events| - 1]);
    }
  }

  /** After every run the reader, replaying every accepted decision along the
      predecessor chain, accepts the current version and returns exactly the
      members, edges and proposal identifiers that activation stored. */
  lemma EveryRunReplays(events: seq<Event>)
    ensures var s := Run(Initial, events);
      && (s.db.current.Some? ==> s.db.current.value in s.db.versions)
      && ReadCurrent(s.review, s.db) == Some(if s.db.current.None? then Empty else Stored(s.db, s.db.current.value))
  {
    InitialInv();
    RunKeeps(Initial, events);
    var s := Run(Initial, events);
    CurrentIsReadable(s.review, s.db);
  }

  lemma StoredIsHealthy(s: System, v: VersionId)
    requires SystemInv(s) && v in s.db.versions
    ensures Healthy(s.db.versions[v].members, s.db.versions[v].edges)
  {
    assert v in Elements(s.db.log);
    var k :| 0 <= k < |s.db.log| && s.db.log[k] == v;
    assert VersionOk(s.review, s.db, k);
  }

  /** Every version that was current at any point of any run is acyclic, names
      each member and each ordered pair once, has all edge endpoints among its
      members, and is still stored unchanged at the end of the run. */
  lemma EveryCurrentVersionIsHealthy(before: seq<Event>, after: seq<Event>)
    ensures var s, t := Run(Initial, before), Run(Run(Initial, before), after);
      s.db.current.Some? ==>
        && var v := s.db.current.value;
        && v in s.db.versions && v in t.db.versions && t.db.versions[v] == s.db.versions[v]
        && Healthy(s.db.versions[v].members, s.db.versions[v].edges)
  {
    InitialInv();
    RunKeeps(Initial, before);
    var s := Run(Initial, before);
    RunKeeps(s, after);
    if s.db.current.Some? {
      StoredIsHealthy(s, s.db.current.value);
    }
  }

  // ------------------------------------------------------ what one change does

  /** `e` does not touch the members that the replaced task had. */
  predicate Untouched(active: Snapshot, subset: Subset, e: GraphEdge) {
    e.subject !in ReplacedIds(active, subset) && e.target !in ReplacedIds(active, subset)
  }

  /** The edges of an accepted version: the proposal's own proven edges inside
      its subset and, while the binding is unchanged, every edge of the active
      graph that touches none of the task's old members. */
  lemma AcceptedVersionEdges(s: System, proposal: Proposal, binding: Binding, version: VersionId, active: Snapshot)
    requires SystemInv(s) && proposal.id !in s.db.decisions && ReadCurrent(s.review, s.db) == Some(active)
    requires var o := Activate(s.review, s.db, proposal, binding, version, true);
      o.Done? && o.activation.decision.Accepted?
    ensures var o := Activate(s.review, s.db, proposal, binding, version, true);
      && o.db.current == Some(version) && version in o.db.versions && version !in s.db.versions
      && proposal.attemptId in s.review.attempts
      && var subset := s.review.attempts[proposal.attemptId].subset;
      forall e :: e in o.db.versions[version].edges <==>
        || (active.binding == Some(binding) && e in active.edges && Untouched(active, subset, e))
        || (e in o.activation.digest.validation.edges && e.proposalId == proposal.id && e.subject in subset.Ids()
            && e.target in subset.Ids())
  {
    var o := Activate(s.review, s.db, proposal, binding, version, true);
    var attempt := s.review.attempts[proposal.attemptId];
    var validation := Judge(proposal, attempt.subset, binding, active, Trusted(attempt, binding));
    AcceptedAdds(proposal, attempt.subset, binding, active, Trusted(attempt, binding), validation);
    var next := NextSnapshot(active, attempt.subset, validation.edges, proposal.id, binding).value;
    SplitEdges(active, attempt.subset, validation.edges, proposal.id, binding, next);
  }

  lemma SplitEdges(active: Snapshot, subset: Subset, edges: seq<GraphEdge>, p: ProposalId, binding: Binding,
          next: Snapshot)
    requires FitsBaseline(Baseline(active, subset, binding), edges, p, subset.Ids())
    requires NextSnapshot(active, subset, edges, p, binding) == Some(next)
    ensures forall e :: e in next.edges <==>
      || (active.binding == Some(binding) && e in active.edges && Untouched(active, subset, e))
      || (e in edges && e.proposalId == p && e.subject in subset.Ids() && e.target in subset.Ids())
  {
    SortMembers(Baseline(active, subset, binding).edges + edges, EdgeKey);
  }

  /** What was just decided is what a repetition finds. */
  lemma DecidedIsFound(review: Review, db: Db, validation: Validation, active: Snapshot, proposal: Proposal,
          binding: Binding, version: VersionId, o: Outcome)
    requires Admitted(review, proposal, binding) && o.Done?
    requires o == Decide(db, review.attempts[proposal.attemptId].subset, validation, active, proposal, binding, version)
    ensures proposal.id in o.db.decisions && Repeat(review, o.db, proposal, binding, version) == o
  {
  }

  lemma DecidedAgain(review: Review, db: Db, proposal: Proposal, binding: Binding, version: VersionId, scopeOpen: bool)
    requires DbInv(review, db) && Admitted(review, proposal, binding) && proposal.id in db.decisions
    ensures Activate(review, db, proposal, binding, version, scopeOpen)
        == Repeat(review, db, proposal, binding, version)
  {
    CurrentIsReadable(review, db);
  }

  lemma OutcomeIsRecorded(review: Review, db: Db, proposal: Proposal, binding: Binding, version: VersionId,
          scopeOpen: bool, o: Outcome)
    requires o == Activate(review, db, proposal, binding, version, scopeOpen) && o.Done?
    ensures Admitted(review, proposal, binding) && proposal.id in o.db.decisions
    ensures Repeat(review, o.db, proposal, binding, version) == o
  {
    if proposal.id !in db.decisions {
      var active := ReadCurrent(review, db).value;
      var attempt := review.attempts[proposal.attemptId];
      var validation := Judge(proposal, attempt.subset, binding, active, Trusted(attempt, binding));
      DecidedIsFound(review, db, validation, active, proposal, binding, version, o);
    }
  }

  /** Activating a decided proposal again, in the same way, changes nothing and
      reports the same decision, whether or not its scope is still open. */
  lemma ActivationIsIdempotent(s: System, proposal: Proposal, binding: Binding, version: VersionId, scopeOpen: bool,
          scopeOpenLater: bool, o: Outcome)
    requires SystemInv(s) && o == Activate(s.review, s.db, proposal, binding, version, scopeOpen) && o.Done?
    ensures Activate(s.review, o.db, proposal, binding, version, scopeOpenLater) == o
  {
    ActivationKeeps(s.review, s.db, proposal, binding, version, scopeOpen);
    OutcomeIsRecorded(s.review, s.db, proposal, binding, version, scopeOpen, o);
    DecidedAgain(s.review, o.db, proposal, binding, version, scopeOpenLater);
  }
}
