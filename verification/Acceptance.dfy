/** The three acceptance layers of a diff review (the review row, its provider
    attempt and the accepted-provider row), moved in lockstep by every
    transaction and staled when verification evidence grows. */
module Acceptance {
  import opened Prelude

  type ReviewId = nat
  type ProviderId = nat

  datatype Kind = Test | Build

  datatype Verification = Verification(kind: Kind, outcome: nat, evidence: nat, justification: nat)

  type Rows = map<nat, Verification>

  datatype Target = Target(task: nat, candidate: nat)

  /** The digest over a candidate's verification rows. */
  datatype Snapshot = Snapshot(target: Target, rows: Rows)

  datatype Verdict = Pass | Findings

  datatype Artifact = Artifact(verdict: Verdict, followUps: seq<nat>, digest: nat)

  datatype ReviewState = Dispatched | Recorded | Accepted

  datatype Review = Review(
    provider: ProviderId,
    target: Target,
    epoch: nat,
    round: nat,
    verification: Snapshot,
    state: ReviewState,
    acceptedAs: Option<ReviewId>,
    artifact: Option<Artifact>)

  datatype ProviderState = Turned | Completed | Granted | Ambiguous | Blocked | Invalidated

  /** The recovery outcome of an attempt, by its blocker. */
  datatype Outcome =
    | IdentityDrift
    | RevalidationRequired
    | EvidenceUnverified
    | TurnAmbiguous
    | LeaseExpired
    | SessionInvalidated
    | PartialReview
    | TurnFailed(code: nat)
    | AccountingBlocked(code: nat)
    | ScopeStopped

  /** A supervisor attempt; `pointer` is the review its output belongs to, and
      `outcome` is the row of `provider_recovery_outcomes`, written once. */
  datatype Provider = Provider(
    state: ProviderState,
    acceptedAs: Option<ReviewId>,
    pointer: Option<ReviewId>,
    evidence: Option<nat>,
    output: Option<nat>,
    outcome: Option<Outcome>)

  const TurnedAttempt := Provider(Turned, None, None, None, None, None)

  datatype AcceptedRow = AcceptedRow(attempt: ProviderId, evidence: nat)

  datatype Db = Db(
    verifications: map<Target, Rows>,
    reviews: map<ReviewId, Review>,
    providers: map<ProviderId, Provider>,
    accepted: map<ReviewId, AcceptedRow>)

  const EmptyDb := Db(map[], map[], map[], map[])

  // ------------------------------------------------------------------ snapshots

  function RowsOf(verifications: map<Target, Rows>, target: Target): Rows {
    if target in verifications then verifications[target] else map[]
  }

  predicate BothKinds(rows: Rows) {
    (exists v :: v in rows && rows[v].kind.Test?) && (exists v :: v in rows && rows[v].kind.Build?)
  }

  /** `_verification_snapshot_connection`; `None` when it raises. */
  function SnapshotOf(verifications: map<Target, Rows>, target: Target): Option<Snapshot> {
    if BothKinds(RowsOf(verifications, target)) then Some(Snapshot(target, RowsOf(verifications, target))) else None
  }

  // --------------------------------------------------------------- transactions

  function Ungranted(p: Provider): Provider {
    if p.state.Granted? then p.(state := Invalidated, acceptedAs := None) else p
  }

  function Unaccepted(r: Review): Review {
    if r.state.Accepted? then r.(state := Recorded, acceptedAs := None) else r
  }

  /** `DELETE FROM accepted_provider_reviews WHERE attempt_id = ?`. */
  function WithoutAttempt(accepted: map<ReviewId, AcceptedRow>, p: ProviderId): map<ReviewId, AcceptedRow> {
    map i | i in accepted && accepted[i].attempt != p :: accepted[i]
  }

  /** `_stale_diff_review_acceptance_connection`. */
  function Stale(db: Db, id: ReviewId): Db
    requires id in db.reviews
  {
    var p := db.reviews[id].provider;
    Db(db.verifications, db.reviews[id := Unaccepted(db.reviews[id])],
       if p in db.providers then db.providers[p := Ungranted(db.providers[p])]
       else db.providers, WithoutAttempt(db.accepted, p))
  }

  /** `start_diff_review`: the provider turn is recorded, then the review row. */
  function Start(db: Db, id: ReviewId, review: Review): Option<Db> {
    if id in db.reviews || (exists i :: i in db.reviews && db.reviews[i].provider == review.provider) then None
    else if review.provider in db.providers && !db.providers[review.provider].state.Turned? then None
    else if review != Review(review.provider, review.target, review.epoch, review.round, review.verification,
        Dispatched, None, None) then None
    else
      var providers := if review.provider in db.providers then db.providers
          else db.providers[review.provider := TurnedAttempt];
      Some(db.(reviews := db.reviews[id := review], providers := providers))
  }

  /** `record_completed_output`. */
  function Complete(db: Db, p: ProviderId, pointer: ReviewId, evidence: nat, output: nat): Option<Db> {
    if p !in db.providers then None
    else
      var row := db.providers[p];
      if row.output.Some? && row.output != Some(output) then None
      else if row.state.Completed? && (row.pointer, row.evidence) != (Some(pointer), Some(evidence)) then None
      else if !row.state.Completed? && !row.state.Turned? then None
      else
        var row' := row.(state := Completed, pointer := Some(pointer), evidence := Some(evidence),
            output := Some(output));
        Some(db.(providers := db.providers[p := row']))
  }

  /** The artifact of a review is written once. */
  function RecordArtifact(db: Db, id: ReviewId, artifact: Artifact): Option<Db> {
    if id !in db.reviews then None
    else if db.reviews[id].artifact.None? then
        Some(db.(reviews := db.reviews[id := db.reviews[id].(artifact := Some(artifact), state := Recorded)]))
    else if db.reviews[id].artifact == Some(artifact) then Some(db)
    else None
  }

  predicate RoundTaken(db: Db, id: ReviewId)
    requires id in db.reviews
  {
    var r := db.reviews[id];
    exists i :: i in db.reviews && i != id && db.reviews[i].state.Accepted?
                && db.reviews[i].target.task == r.target.task && db.reviews[i].epoch == r.epoch
                    && db.reviews[i].round == r.round
  }

  predicate OtherIdentity(accepted: map<ReviewId, AcceptedRow>, id: ReviewId, p: ProviderId) {
    exists i :: i in accepted && i != id && accepted[i].attempt == p
  }

  /** `_accept_diff_pass`; `None` is a rolled-back transaction. */
  function Accept(db: Db, id: ReviewId, followUps: seq<nat>): Option<Db> {
    if id !in db.reviews then None
    else
      var r := db.reviews[id];
      if SnapshotOf(db.verifications, r.target) != Some(r.verification) then None
      else if r.artifact.None? || !r.artifact.value.verdict.Pass? || r.artifact.value.followUps != followUps then None
      else if RoundTaken(db, id) then None
      else if r.provider !in db.providers || db.providers[r.provider].evidence.None? then None
      else
        var p := db.providers[r.provider];
        if p.pointer != Some(id) || p.output != Some(r.artifact.value.digest) then Some(Stale(db, id))
        else
          var granted := if p.state.Completed? then p.(state := Granted, acceptedAs := Some(id)) else p;
          if !granted.state.Granted? || granted.acceptedAs != Some(id) then None
          else
            var row := AcceptedRow(r.provider, p.evidence.value);
            if id in db.accepted && db.accepted[id] != row then None
            else if OtherIdentity(db.accepted, id, r.provider) then None
            else if r.state.Dispatched? || (r.acceptedAs.Some? && r.acceptedAs != Some(id)) then None
            else Some(Db(db.verifications, db.reviews[id := r.(state := Accepted, acceptedAs := Some(id))],
                         db.providers[r.provider := granted], db.accepted[id := row]))
  }

  /** Accepted reviews of the target whose digest is not the snapshot. */
  function Outdated(reviews: map<ReviewId, Review>, target: Target, snapshot: Snapshot): set<ReviewId> {
    set i | i in reviews && reviews[i].target == target && reviews[i].state.Accepted?
        && reviews[i].verification != snapshot
  }

  function ProvidersOf(reviews: map<ReviewId, Review>, ids: set<ReviewId>): set<ProviderId> {
    set i | i in ids && i in reviews :: reviews[i].provider
  }

  function StaleAll(db: Db, ids: set<ReviewId>): Db {
    var gone := ProvidersOf(db.reviews, ids);
    Db(db.verifications,
       map i | i in db.reviews :: if i in ids then Unaccepted(db.reviews[i]) else db.reviews[i],
       map p | p in db.providers :: if p in gone then Ungranted(db.providers[p]) else db.providers[p],
       map i | i in db.accepted && db.accepted[i].attempt !in gone :: db.accepted[i])
  }

  /** `record_candidate_verification`: evidence only grows, and reviews of older
      evidence lose their acceptance in the same transaction. */
  function Verify(db: Db, target: Target, id: nat, v: Verification): Option<Db> {
    var rows := RowsOf(db.verifications, target);
    if id in rows && rows[id] != v then None
    else
      var db' := db.(verifications := db.verifications[target := rows[id := v]]);
      var snapshot := SnapshotOf(db'.verifications, target);
      Some(if snapshot.None? then db' else StaleAll(db', Outdated(db'.reviews, target, snapshot.value)))
  }

  /** What recovery decides: the blocker to record and the state to move to, if any. */
  datatype Decision = Decision(blocker: Option<Outcome>, next: Option<ProviderState>)

  /** `_recovery_outcome`; `None` when it raises. A recorded outcome of a settled
      attempt is decided again. */
  function MatchingDecision(row: Provider, verified: Option<nat>, expired: bool): Option<Decision> {
    if row.state.Granted? then
      Some(if row.pointer.Some? then Decision(Some(RevalidationRequired), Some(Invalidated)) else Decision(None, None))
    else if (row.state.Completed? || row.state.Ambiguous?) && row.evidence.Some? then
      Some(if verified == row.evidence then Decision(None, if row.state.Ambiguous? then Some(Completed) else None)
           else Decision(Some(EvidenceUnverified), if row.state.Completed? then Some(Ambiguous) else None))
    else
      match row.state
      case Blocked => if row.outcome.Some? then Some(Decision(row.outcome, None)) else None
      case Ambiguous => Some(Decision(OutcomeOr(row.outcome, TurnAmbiguous), None))
      case Invalidated => Some(Decision(OutcomeOr(row.outcome, SessionInvalidated), None))
      case Turned => Some(if expired then Decision(Some(LeaseExpired), Some(Invalidated))
                          else Decision(Some(TurnAmbiguous), Some(Ambiguous)))
      case _ => None
  }

  function OutcomeOr(outcome: Option<Outcome>, otherwise: Outcome): Option<Outcome> {
    if outcome.Some? then outcome else Some(otherwise)
  }

  /** The decision of `recover_attempt`: `matches` tells whether the context is the
      persisted one, `verified` is the completion evidence presented, `expired`
      tells whether the lease of the turn has run out. */
  function RecoveryDecision(row: Provider, matches: bool, verified: Option<nat>, expired: bool): Option<Decision> {
    if matches then MatchingDecision(row, verified, expired) else Some(Decision(Some(IdentityDrift), Some(Ambiguous)))
  }

  /** `_stale_unvalidated_diff_review`. */
  function RecoverStale(db: Db, p: ProviderId): Db
    requires p in db.providers
  {
    Db(db.verifications, UnacceptedOf(db.reviews, p), db.providers[p := Ungranted(db.providers[p])],
       WithoutAttempt(db.accepted, p))
  }

  function UnacceptedOf(reviews: map<ReviewId, Review>, p: ProviderId): map<ReviewId, Review> {
    map i | i in reviews :: if reviews[i].provider == p then Unaccepted(reviews[i]) else reviews[i]
  }

  /** Recovery of an accepted attempt stales its acceptance first. */
  function Released(db: Db, p: ProviderId): Db
    requires p in db.providers
    ensures p in Released(db, p).providers
  {
    if db.providers[p].state.Granted? && db.providers[p].pointer.Some? then RecoverStale(db, p) else db
  }

  /** `_persist_recovery_outcome` refuses any other value than the recorded one. */
  predicate Conflicts(row: Provider, decision: Decision) {
    decision.blocker.Some? && row.outcome.Some? && row.outcome != decision.blocker
  }

  function Decided(row: Provider, decision: Decision): Provider {
    row.(state := if decision.next.Some? then decision.next.value else row.state,
         outcome := if decision.blocker.Some? then decision.blocker else row.outcome)
  }

  /** One recovery decision in one transaction; `None` is a rollback. */
  function Settle(db: Db, p: ProviderId, decision: Decision): Option<Db> {
    if p !in db.providers || Conflicts(db.providers[p], decision) then None
    else
      var mid := Released(db, p);
      Some(mid.(providers := mid.providers[p := Decided(mid.providers[p], decision)]))
  }

  /** `recover_attempt`. */
  function Recover(db: Db, p: ProviderId, matches: bool, verified: Option<nat>, expired: bool): Option<Db> {
    if p !in db.providers then None
    else
      var decision := RecoveryDecision(db.providers[p], matches, verified, expired);
      if decision.None? then None else Settle(db, p, decision.value)
  }

  /** `invalidate_supervisor_attempt`. */
  function Invalidate(db: Db, p: ProviderId): Option<Db> {
    if p !in db.providers then None
    else if db.providers[p].state.Granted? then Some(db)
    else Settle(db, p, Decision(Some(PartialReview), Some(Invalidated)))
  }

  datatype Failure = InvalidOutput | Terminal(code: nat) | Accounting(code: nat) | ScopeDenied

  /** How an unsettled turn fails: `record_invalid_output`,
      `record_supervisor_terminal_failure`, `record_supervisor_accounting_blocker`
      and `record_supervisor_scope_denial`. */
  function FailureDecision(failure: Failure): Decision {
    match failure
    case InvalidOutput => Decision(None, Some(Ambiguous))
    case Terminal(code) => Decision(Some(TurnFailed(code)), Some(Invalidated))
    case Accounting(code) => Decision(Some(AccountingBlocked(code)), Some(Blocked))
    case ScopeDenied => Decision(Some(ScopeStopped), Some(Blocked))
  }

  /** A replay of the same failure changes nothing and is left out. */
  function Fail(db: Db, p: ProviderId, failure: Failure): Option<Db> {
    if p !in db.providers || !db.providers[p].state.Turned? then None else Settle(db, p, FailureDecision(failure))
  }

  // ------------------------------------------------------------------ invariant

  function Get<K, V>(m: map<K, V>, k: K): Option<V> {
    if k in m then Some(m[k]) else None
  }

  /** One review row with its provider attempt, its accepted row and the current
      snapshot: accepted in all three layers on current evidence, or in none. */
  ghost predicate InStep(id: ReviewId, r: Review, p: Option<Provider>, a: Option<AcceptedRow>, now: Option<Snapshot>) {
    if r.state.Accepted? then
      && r.acceptedAs == Some(id) && p.Some? && p.value.state.Granted? && p.value.acceptedAs == Some(id)
      && p.value.pointer == Some(id) && p.value.evidence.Some?
          && a == Some(AcceptedRow(r.provider, p.value.evidence.value))
      && r.artifact.Some? && r.artifact.value.verdict.Pass? && p.value.output == Some(r.artifact.value.digest)
      && now == Some(r.verification)
    else r.acceptedAs.None? && a.None? && (p.Some? ==> p.value.acceptedAs != Some(id))
  }

  ghost predicate StepOf(db: Db, id: ReviewId) {
    && id in db.reviews
    && InStep(id, db.reviews[id], Get(db.providers, db.reviews[id].provider), Get(db.accepted, id),
        SnapshotOf(db.verifications, db.reviews[id].target))
  }

  ghost predicate Lockstep(db: Db) {
    forall i :: i in db.reviews ==> StepOf(db, i)
  }

  /** An accepted row is one for a review, and names that review's attempt. */
  ghost predicate RowsNamed(db: Db) {
    forall i :: i in db.accepted ==> i in db.reviews && db.accepted[i].attempt == db.reviews[i].provider
  }

  /** Only an accepted attempt names a review, and it is that review's attempt;
      evidence comes with completion, so such an attempt is past its turn and is
      never blocked. */
  ghost predicate ProviderOk(reviews: map<ReviewId, Review>, p: ProviderId, row: Provider) {
    && EvidenceOk(row)
    && (row.state.Granted? ==>
          row.acceptedAs.Some? && row.acceptedAs.value in reviews && reviews[row.acceptedAs.value].provider == p)
    && (!row.state.Granted? ==> row.acceptedAs.None?)
  }

  predicate EvidenceOk(row: Provider) {
    row.evidence.Some? ==> !row.state.Turned? && !row.state.Blocked?
  }

  ghost predicate ProvidersOk(db: Db) {
    forall p :: p in db.providers ==> ProviderOk(db.reviews, p, db.providers[p])
  }

  /** Each attempt belongs to one review. */
  ghost predicate OwnProviders(reviews: map<ReviewId, Review>) {
    forall i, j :: i in reviews && j in reviews && i != j ==> reviews[i].provider != reviews[j].provider
  }

  ghost predicate SameRound(a: Review, b: Review) {
    a.target.task == b.target.task && a.epoch == b.epoch && a.round == b.round
  }

  /** Each round of each epoch of a task has at most one accepted review. */
  ghost predicate RoundsOk(reviews: map<ReviewId, Review>) {
    forall i, j ::
        i in reviews && j in reviews && i != j && reviews[i].state.Accepted? && reviews[j].state.Accepted? ==>
      !SameRound(reviews[i], reviews[j])
  }

  /** A digest was taken from rows that are all still there. */
  ghost predicate FromPast(verifications: map<Target, Rows>, r: Review) {
    && r.verification.target == r.target && Within(r.verification.rows, RowsOf(verifications, r.target))
  }

  ghost predicate Within(a: Rows, b: Rows) {
    forall v :: v in a ==> v in b && b[v] == a[v]
  }

  ghost predicate AllFromPast(db: Db) {
    forall i :: i in db.reviews ==> FromPast(db.verifications, db.reviews[i])
  }

  ghost predicate Inv(db: Db) {
    Lockstep(db) && RowsNamed(db) && ProvidersOk(db) && OwnProviders(db.reviews) && RoundsOk(db.reviews)
        && AllFromPast(db)
  }

  // ------------------------------------------------------- one row changes

  lemma OwnProvidersKept(reviews: map<ReviewId, Review>, id: ReviewId, r: Review)
    requires OwnProviders(reviews) && forall i :: i in reviews && i != id ==> reviews[i].provider != r.provider
    ensures OwnProviders(reviews[id := r])
  {
  }

  lemma RoundsKept(reviews: map<ReviewId, Review>, id: ReviewId, r: Review)
    requires RoundsOk(reviews)
    requires r.state.Accepted? ==> forall j :: j in reviews && j != id && reviews[j].state.Accepted? ==>
        !SameRound(r, reviews[j])
    ensures RoundsOk(reviews[id := r])
  {
    var reviews' := reviews[id := r];
    forall i, j | i in reviews' && j in reviews' && i != j && reviews'[i].state.Accepted? && reviews'[j].state.Accepted?
      ensures !SameRound(reviews'[i], reviews'[j])
    {
      assert i != id && j != id ==> !SameRound(reviews[i], reviews[j]);
    }
  }

  lemma ProvidersKept(reviews: map<ReviewId, Review>, providers: map<ProviderId, Provider>, id: ReviewId, r: Review)
    requires forall p :: p in providers ==> ProviderOk(reviews, p, providers[p])
    requires id in reviews ==> reviews[id].provider == r.provider
    ensures forall p :: p in providers ==> ProviderOk(reviews[id := r], p, providers[p])
  {
  }

  /** What a change to one review row leaves of the invariant. */
  lemma ReviewRowKept(db: Db, id: ReviewId, r: Review, db': Db)
    requires RowsNamed(db) && ProvidersOk(db) && OwnProviders(db.reviews) && RoundsOk(db.reviews) && AllFromPast(db)
    requires db' == db.(reviews := db.reviews[id := r])
    requires if id in db.reviews then db.reviews[id].provider == r.provider else forall i :: i in db.reviews ==>
        db.reviews[i].provider != r.provider
    requires FromPast(db.verifications, r)
    requires r.state.Accepted? ==> forall j :: j in db.reviews && j != id && db.reviews[j].state.Accepted? ==>
        !SameRound(r, db.reviews[j])
    ensures RowsNamed(db') && ProvidersOk(db') && OwnProviders(db'.reviews) && RoundsOk(db'.reviews) && AllFromPast(db')
  {
    OwnProvidersKept(db.reviews, id, r);
    RoundsKept(db.reviews, id, r);
    ProvidersKept(db.reviews, db.providers, id, r);
  }

  /** Every review but one sees the same attempt, accepted row and snapshot. */
  lemma OthersInStep(db: Db, db': Db, id: ReviewId)
    requires Lockstep(db) && id in db'.reviews && StepOf(db', id)
    requires forall i :: i in db'.reviews && i != id ==> i in db.reviews && Unmoved(db, db', i)
    ensures Lockstep(db')
  {
    forall i | i in db'.reviews ensures StepOf(db', i) {
      if i != id {
        assert StepOf(db, i);
      }
    }
  }

  ghost predicate Unmoved(db: Db, db': Db, i: ReviewId)
    requires i in db.reviews && i in db'.reviews
  {
    var r := db.reviews[i];
    && db'.reviews[i] == r && Get(db'.accepted, i) == Get(db.accepted, i)
    && Get(db'.providers, r.provider) == Get(db.providers, r.provider)
    && SnapshotOf(db'.verifications, r.target) == SnapshotOf(db.verifications, r.target)
  }

  // ------------------------------------------------------------- preservation

  lemma StartKeeps(db: Db, id: ReviewId, review: Review, db': Db)
    requires Inv(db) && Start(db, id, review) == Some(db') && FromPast(db.verifications, review)
    ensures Inv(db')
  {
    var mid := db.(providers := db'.providers);
    assert ProvidersOk(mid);
    ReviewRowKept(mid, id, review, db');
    StartSteps(db, id, review, db');
  }

  lemma StartSteps(db: Db, id: ReviewId, review: Review, db': Db)
    requires Inv(db) && Start(db, id, review) == Some(db')
    ensures Lockstep(db')
  {
    if review.provider in db.providers {
      assert ProviderOk(db.reviews, review.provider, db.providers[review.provider]);
    }
    OthersInStep(db, db', id);
  }

  lemma CompleteKeeps(db: Db, p: ProviderId, pointer: ReviewId, evidence: nat, output: nat, db': Db)
    requires Inv(db) && Complete(db, p, pointer, evidence, output) == Some(db')
    ensures Inv(db')
  {
    UngrantedMoves(db, p, db'.providers[p]);
  }

  /** An attempt that is not accepted may change in any way that keeps it so. */
  lemma UngrantedMoves(db: Db, p: ProviderId, row: Provider)
    requires Inv(db) && p in db.providers && !db.providers[p].state.Granted? && !row.state.Granted?
    requires row.acceptedAs == db.providers[p].acceptedAs && EvidenceOk(row)
    ensures Inv(db.(providers := db.providers[p := row]))
  {
    var db' := db.(providers := db.providers[p := row]);
    assert ProviderOk(db.reviews, p, db.providers[p]);
    forall i | i in db'.reviews ensures StepOf(db', i) {
      assert StepOf(db, i);
    }
    forall q | q in db'.providers ensures ProviderOk(db'.reviews, q, db'.providers[q]) {
      assert ProviderOk(db.reviews, q, db.providers[q]);
    }
  }

  lemma RecordKeeps(db: Db, id: ReviewId, artifact: Artifact, db': Db)
    requires Inv(db) && RecordArtifact(db, id, artifact) == Some(db')
    ensures Inv(db')
  {
    assert StepOf(db, id) && FromPast(db.verifications, db.reviews[id]);
    if db' != db {
      ReviewRowKept(db, id, db'.reviews[id], db');
      OthersInStep(db, db', id);
    }
  }

  lemma AcceptKeeps(db: Db, id: ReviewId, followUps: seq<nat>, db': Db)
    requires Inv(db) && Accept(db, id, followUps) == Some(db')
    ensures Inv(db')
  {
    var r := db.reviews[id];
    var p := db.providers[r.provider];
    assert FromPast(db.verifications, r) && StepOf(db, id);
    if p.pointer != Some(id) || p.output != Some(r.artifact.value.digest) {
      StaleKeeps(db, id);
    } else {
      AcceptSteps(db, id, followUps, db');
      var mid := db.(providers := db'.providers, accepted := db'.accepted);
      GrantKept(db, r.provider, db'.providers[r.provider], db'.providers);
      assert RowsNamed(mid);
      ReviewRowKept(mid, id, db'.reviews[id], db');
    }
  }

  lemma GrantKept(db: Db, p: ProviderId, row: Provider, providers: map<ProviderId, Provider>)
    requires ProvidersOk(db) && ProviderOk(db.reviews, p, row) && providers == db.providers[p := row]
    ensures forall q :: q in providers ==> ProviderOk(db.reviews, q, providers[q])
  {
  }

  lemma AcceptSteps(db: Db, id: ReviewId, followUps: seq<nat>, db': Db)
    requires Inv(db) && Accept(db, id, followUps) == Some(db')
    requires var r := db.reviews[id];
        db.providers[r.provider].pointer == Some(id) && db.providers[r.provider].output == Some(r.artifact.value.digest)
    ensures Lockstep(db')
  {
    OthersInStep(db, db', id);
  }

  lemma StaleKeeps(db: Db, id: ReviewId)
    requires Inv(db) && id in db.reviews
    ensures Inv(Stale(db, id))
  {
    StaleOne(db, id);
    StaleAllKeeps(db, {id});
  }

  /** Staling one review is staling a set of one. */
  lemma StaleOne(db: Db, id: ReviewId)
    requires id in db.reviews
    ensures Stale(db, id) == StaleAll(db, {id})
  {
    var gone := ProvidersOf(db.reviews, {id});
    assert gone == {db.reviews[id].provider};
  }

  lemma StaleAllKeeps(db: Db, ids: set<ReviewId>)
    requires Inv(db)
    ensures Inv(StaleAll(db, ids))
  {
    var db' := StaleAll(db, ids);
    forall i | i in db.reviews ensures NearStep(db, i) && (i in ids || OnCurrent(db, i)) {
      assert StepOf(db, i);
    }
    StaleAllSteps(db, ids, db');
    StaleAllRest(db, ids, db');
  }

  /** In lockstep, whatever became of the evidence. */
  ghost predicate NearStep(db: Db, i: ReviewId) {
    && i in db.reviews
    && InStep(i, db.reviews[i], Get(db.providers, db.reviews[i].provider), Get(db.accepted, i),
        Some(db.reviews[i].verification))
  }

  ghost predicate OnCurrent(db: Db, i: ReviewId) {
    i in db.reviews && (db.reviews[i].state.Accepted? ==>
        SnapshotOf(db.verifications, db.reviews[i].target) == Some(db.reviews[i].verification))
  }

  /** Staling at least every review of older evidence restores lockstep. */
  lemma StaleAllSteps(db: Db, ids: set<ReviewId>, db': Db)
    requires RowsNamed(db) && OwnProviders(db.reviews) && db' == StaleAll(db, ids)
    requires forall i :: i in db.reviews ==> NearStep(db, i) && (i in ids || OnCurrent(db, i))
    ensures Lockstep(db')
  {
    var gone := ProvidersOf(db.reviews, ids);
    forall i | i in db'.reviews ensures StepOf(db', i) {
      var r := db.reviews[i];
      assert NearStep(db, i);
      assert r.provider in gone <==> i in ids;
      assert i in db.accepted ==> db.accepted[i].attempt == r.provider;
    }
  }

  lemma StaleAllRest(db: Db, ids: set<ReviewId>, db': Db)
    requires RowsNamed(db) && ProvidersOk(db) && OwnProviders(db.reviews) && RoundsOk(db.reviews)
    requires AllFromPast(db) && db' == StaleAll(db, ids)
    ensures RowsNamed(db') && ProvidersOk(db') && OwnProviders(db'.reviews) && RoundsOk(db'.reviews) && AllFromPast(db')
  {
    StaleReviews(db, ids, db'.reviews);
    forall p | p in db'.providers ensures ProviderOk(db'.reviews, p, db'.providers[p]) {
      assert ProviderOk(db.reviews, p, db.providers[p]);
    }
    forall i | i in db'.reviews ensures FromPast(db'.verifications, db'.reviews[i]) {
      assert FromPast(db.verifications, db.reviews[i]);
    }
  }

  lemma StaleReviews(db: Db, ids: set<ReviewId>, reviews: map<ReviewId, Review>)
    requires OwnProviders(db.reviews) && RoundsOk(db.reviews) && reviews == StaleAll(db, ids).reviews
    ensures OwnProviders(reviews) && RoundsOk(reviews)
  {
    forall i, j | i in reviews && j in reviews && i != j && reviews[i].state.Accepted? && reviews[j].state.Accepted?
      ensures !SameRound(reviews[i], reviews[j])
    {
      assert !SameRound(db.reviews[i], db.reviews[j]);
    }
  }

  lemma MoreKinds(a: Rows, b: Rows)
    requires Within(a, b) && BothKinds(a)
    ensures BothKinds(b)
  {
    var t :| t in a && a[t].kind.Test?;
    var u :| u in a && a[u].kind.Build?;
    assert t in b && u in b;
  }

  /** Evidence of one candidate grows by one row. */
  ghost predicate GrowsBy(db: Db, target: Target, id: nat, v: Verification, db': Db) {
    && (id in RowsOf(db.verifications, target) ==> RowsOf(db.verifications, target)[id] == v)
    && db' == db.(verifications := db.verifications[target := RowsOf(db.verifications, target)[id := v]])
  }

  lemma GrowthKeepsPast(db: Db, target: Target, id: nat, v: Verification, db': Db)
    requires AllFromPast(db) && GrowsBy(db, target, id, v, db')
    ensures AllFromPast(db')
  {
    forall i | i in db'.reviews ensures FromPast(db'.verifications, db'.reviews[i]) {
      assert FromPast(db.verifications, db.reviews[i]);
    }
  }

  /** After growth, every review is in step or is of older evidence. */
  lemma GrowthOutdates(db: Db, target: Target, id: nat, v: Verification, db': Db, i: ReviewId)
    requires Inv(db) && GrowsBy(db, target, id, v, db') && i in db.reviews
    ensures NearStep(db', i)
    ensures OnCurrent(db', i) || (SnapshotOf(db'.verifications, target).Some?
        && i in Outdated(db'.reviews, target, SnapshotOf(db'.verifications, target).value))
  {
    var r := db.reviews[i];
    assert StepOf(db, i);
    if r.state.Accepted? && r.target == target {
      MoreKinds(RowsOf(db.verifications, target), RowsOf(db'.verifications, target));
    }
  }

  lemma VerifyKeeps(db: Db, target: Target, id: nat, v: Verification, db': Db)
    requires Inv(db) && Verify(db, target, id, v) == Some(db')
    ensures Inv(db')
  {
    var mid := db.(verifications := db.verifications[target := RowsOf(db.verifications, target)[id := v]]);
    GrowthKeepsPast(db, target, id, v, mid);
    var snapshot := SnapshotOf(mid.verifications, target);
    var ids := if snapshot.None? then {} else Outdated(mid.reviews, target, snapshot.value);
    forall i | i in mid.reviews ensures NearStep(mid, i) && (i in ids || OnCurrent(mid, i)) {
      GrowthOutdates(db, target, id, v, mid, i);
    }
    if snapshot.Some? {
      StaleAllSteps(mid, ids, db');
      StaleAllRest(mid, ids, db');
    } else {
      forall i | i in mid.reviews ensures StepOf(mid, i) {
        assert NearStep(mid, i) && OnCurrent(mid, i);
      }
    }
  }

  /** An accepted attempt belongs to an accepted review and points to it. */
  lemma GrantedPoints(db: Db, p: ProviderId) returns (id: ReviewId)
    requires Inv(db) && p in db.providers && db.providers[p].state.Granted?
    ensures id in db.reviews && db.reviews[id].provider == p && db.reviews[id].state.Accepted?
    ensures db.providers[p].pointer == Some(id)
  {
    assert ProviderOk(db.reviews, p, db.providers[p]);
    id := db.providers[p].acceptedAs.value;
    assert StepOf(db, id);
  }

  /** For the attempt of an accepted review the three statements stale that review. */
  lemma RecoverStaleIsStale(db: Db, p: ProviderId, id: ReviewId)
    requires OwnProviders(db.reviews) && p in db.providers && id in db.reviews && db.reviews[id].provider == p
    ensures RecoverStale(db, p) == Stale(db, id)
  {
    assert UnacceptedOf(db.reviews, p) == db.reviews[id := Unaccepted(db.reviews[id])];
  }

  lemma ReleasedKeeps(db: Db, p: ProviderId)
    requires Inv(db) && p in db.providers
    ensures Inv(Released(db, p)) && !Released(db, p).providers[p].state.Granted?
    ensures Released(db, p).providers[p].evidence == db.providers[p].evidence
  {
    if db.providers[p].state.Granted? {
      var id := GrantedPoints(db, p);
      RecoverStaleIsStale(db, p, id);
      StaleKeeps(db, id);
    }
  }

  lemma SettleKeeps(db: Db, p: ProviderId, decision: Decision, db': Db)
    requires Inv(db) && Settle(db, p, decision) == Some(db')
    requires decision.next.Some? ==> !decision.next.value.Granted? && !decision.next.value.Turned?
    requires decision.next == Some(Blocked) ==> db.providers[p].evidence.None?
    ensures Inv(db')
  {
    ReleasedKeeps(db, p);
    var mid := Released(db, p);
    assert ProviderOk(mid.reviews, p, mid.providers[p]);
    UngrantedMoves(mid, p, Decided(mid.providers[p], decision));
  }

  lemma RecoverKeeps(db: Db, p: ProviderId, matches: bool, verified: Option<nat>, expired: bool, db': Db)
    requires Inv(db) && Recover(db, p, matches, verified, expired) == Some(db')
    ensures Inv(db')
  {
    SettleKeeps(db, p, RecoveryDecision(db.providers[p], matches, verified, expired).value, db');
  }

  lemma InvalidateKeeps(db: Db, p: ProviderId, db': Db)
    requires Inv(db) && Invalidate(db, p) == Some(db')
    ensures Inv(db')
  {
    if !db.providers[p].state.Granted? {
      SettleKeeps(db, p, Decision(Some(PartialReview), Some(Invalidated)), db');
    }
  }

  lemma FailKeeps(db: Db, p: ProviderId, failure: Failure, db': Db)
    requires Inv(db) && Fail(db, p, failure) == Some(db')
    ensures Inv(db')
  {
    assert ProviderOk(db.reviews, p, db.providers[p]);
    SettleKeeps(db, p, FailureDecision(failure), db');
  }

  // ---------------------------------------------------------------- the tables

  /** Attempts staled so far in one transaction. */
  ghost function StaledRows(accepted: map<ReviewId, AcceptedRow>, gone: set<ProviderId>): map<ReviewId, AcceptedRow> {
    map i | i in accepted && accepted[i].attempt !in gone :: accepted[i]
  }

  ghost function StaledProviders(providers: map<ProviderId, Provider>, gone: set<ProviderId>): map<ProviderId, Provider>
  {
    map p | p in providers :: if p in gone then Ungranted(providers[p]) else providers[p]
  }

  lemma StaleOneMore(accepted: map<ReviewId, AcceptedRow>, providers: map<ProviderId, Provider>, gone: set<ProviderId>,
          p: ProviderId)
    ensures WithoutAttempt(StaledRows(accepted, gone), p) == StaledRows(accepted, gone + {p})
    ensures StaledProviders(providers, gone + {p})
         == if p in providers then
             StaledProviders(providers, gone)[p := Ungranted(StaledProviders(providers, gone)[p])]
             else StaledProviders(providers, gone)
  {
  }

  class ReviewStore {
    var verifications: map<Target, Rows>
    var reviews: map<ReviewId, Review>
    var providers: map<ProviderId, Provider>
    var accepted: map<ReviewId, AcceptedRow>

    ghost function View(): Db
      reads this
    {
      Db(verifications, reviews, providers, accepted)
    }

    constructor ()
      ensures View() == EmptyDb
    {
      verifications, reviews, providers, accepted := map[], map[], map[], map[];
    }

    /** One attempt loses its acceptance in two of the layers. */
    method StaleAttempt(p: ProviderId)
      modifies this`providers, this`accepted
      ensures accepted == WithoutAttempt(old(accepted), p)
      ensures providers == if p in old(providers) then old(providers)[p := Ungranted(old(providers)[p])]
          else old(providers)
    {
      accepted := WithoutAttempt(accepted, p);
      if p in providers {
        providers := providers[p := Ungranted(providers[p])];
      }
    }

    method StaleAcceptance(id: ReviewId)
      modifies this
      ensures View() == if id in old(reviews) then Stale(old(View()), id) else old(View())
    {
      if id in reviews {
        StaleAttempt(reviews[id].provider);
        reviews := reviews[id := Unaccepted(reviews[id])];
      }
    }

    /** `record_candidate_verification`; `standing` tells whether control, lease,
        task state and candidate evidence still hold. */
    method RecordVerification(target: Target, id: nat, v: Verification, standing: bool) returns (ok: bool)
      modifies this
      ensures var o := Verify(old(View()), target, id, v);
        ok == (standing && o.Some?) && View() == if ok then o.value else old(View())
    {
      if !standing {
        return false;
      }
      var rows: Rows := RowsOf(verifications, target);
      if id in rows && rows[id] != v {
        return false;
      }
      var grown: Rows := rows[id := v];
      verifications := verifications[target := grown];
      var snapshot := SnapshotOf(verifications, target);
      if snapshot.Some? {
        StaleOutdated(Outdated(reviews, target, snapshot.value));
      }
      ok := true;
    }

    /** The loop over stale attempts, then one update of their reviews. */
    method StaleOutdated(ids: set<ReviewId>)
      requires ids <= reviews.Keys
      modifies this`providers, this`accepted, this`reviews
      ensures View() == StaleAll(old(View()), ids)
    {
      var remaining := ids;
      ghost var gone: set<ProviderId> := {};
      assert StaledRows(accepted, {}) == accepted && StaledProviders(providers, {}) == providers;
      while remaining != {}
        invariant remaining <= ids && gone == ProvidersOf(reviews, ids - remaining) && reviews == old(reviews)
        invariant accepted == StaledRows(old(accepted), gone) && providers == StaledProviders(old(providers), gone)
        decreases remaining
      {
        var i :| i in remaining;
        StaleOneMore(old(accepted), old(providers), gone, reviews[i].provider);
        StaleAttempt(reviews[i].provider);
        remaining := remaining - {i};
        gone := gone + {reviews[i].provider};
        assert ids - remaining == ids - (remaining + {i}) + {i};
      }
      assert ids - remaining == ids;
      reviews := map i | i in reviews :: if i in ids then Unaccepted(reviews[i]) else reviews[i];
    }

    /** `_accept_diff_pass`; `standing` tells whether lease, task state, scope and
        dispatch authentication still hold, `recordable` whether the runtime
        columns of an accepted row and the follow-up items agree with what is stored. */
    method AcceptPass(id: ReviewId, followUps: seq<nat>, standing: bool, recordable: bool) returns (ok: bool)
      modifies this
      ensures var o := if standing then Accept(old(View()), id, followUps) else None;
        var granted := o.Some? && id in o.value.reviews && o.value.reviews[id].state.Accepted?;
        && View() == (if o.Some? && (granted ==> recordable) then o.value else old(View()))
        && (ok <==> granted && recordable)
    {
      if !standing || id !in reviews {
        return false;
      }
      var r := reviews[id];
      if SnapshotOf(verifications, r.target) != Some(r.verification) {
        return false;
      }
      if r.artifact.None? || !r.artifact.value.verdict.Pass? || r.artifact.value.followUps != followUps {
        return false;
      }
      if exists i :: i in reviews && i != id && reviews[i].state.Accepted?
                     && reviews[i].target.task == r.target.task && reviews[i].epoch == r.epoch
                         && reviews[i].round == r.round {
        return false;
      }
      if r.provider !in providers || providers[r.provider].evidence.None? {
        return false;
      }
      var p := providers[r.provider];
      if p.pointer != Some(id) || p.output != Some(r.artifact.value.digest) {
        StaleAcceptance(id);
        return false;
      }
      if p.state.Completed? {
        p := p.(state := Granted, acceptedAs := Some(id));
      }
      if !p.state.Granted? || p.acceptedAs != Some(id) {
        return false;
      }
      var row := AcceptedRow(r.provider, p.evidence.value);
      if (id in accepted && accepted[id] != row) || OtherIdentity(accepted, id, r.provider) {
        return false;
      }
      if r.state.Dispatched? || (r.acceptedAs.Some? && r.acceptedAs != Some(id)) || !recordable {
        return false;
      }
      providers := providers[r.provider := p];
      accepted := accepted[id := row];
      reviews := reviews[id := r.(state := Accepted, acceptedAs := Some(id))];
      ok := true;
    }

    /** `recover_attempt`: a decision that conflicts with the recorded outcome raises,
        so nothing of its transaction stays. */
    method RecoverAttempt(p: ProviderId, matches: bool, verified: Option<nat>, expired: bool) returns (ok: bool)
      modifies this
      ensures var o := Recover(old(View()), p, matches, verified, expired);
        ok == o.Some? && View() == if ok then o.value else old(View())
    {
      if p !in providers {
        return false;
      }
      var decision := RecoveryDecision(providers[p], matches, verified, expired);
      if decision.None? || Conflicts(providers[p], decision.value) {
        return false;
      }
      if providers[p].state.Granted? && providers[p].pointer.Some? {
        StaleAttempt(p);
        reviews := UnacceptedOf(reviews, p);
      }
      providers := providers[p := Decided(providers[p], decision.value)];
      ok := true;
    }
  }
}
