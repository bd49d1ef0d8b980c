/** Whole runs of the review transactions: lockstep of the three acceptance
    layers, and when an acceptance that was lost can come back. */
module AcceptanceRuns {
  import opened Prelude
  import opened Acceptance

  datatype Event =
    | Starts(id: ReviewId, review: Review)
    | Completes(p: ProviderId, pointer: ReviewId, evidence: nat, output: nat)
    | Records(id: ReviewId, artifact: Artifact)
    | Accepts(id: ReviewId, followUps: seq<nat>)
    | Verifies(target: Target, verification: nat, v: Verification)
    | Stales(id: ReviewId)
    | Recovers(p: ProviderId, matches: bool, verified: Option<nat>, expired: bool)
    | Invalidates(p: ProviderId)
    | Fails(p: ProviderId, failure: Failure)

  /** Recovery with a context that is not the persisted one. */
  function Drifts(p: ProviderId): Event {
    Recovers(p, false, None, false)
  }

  /** Recovery that presents completion evidence. */
  function Verified(p: ProviderId, evidence: Option<nat>): Event {
    Recovers(p, true, evidence, false)
  }

  /** The digest of a new review was read from an earlier state of the tables. */
  ghost function Step(db: Db, e: Event): Option<Db> {
    match e
    case Starts(id, review) => if FromPast(db.verifications, review) then Start(db, id, review) else None
    case Completes(p, pointer, evidence, output) => Complete(db, p, pointer, evidence, output)
    case Records(id, artifact) => RecordArtifact(db, id, artifact)
    case Accepts(id, followUps) => Accept(db, id, followUps)
    case Verifies(target, verification, v) => Verify(db, target, verification, v)
    case Stales(id) => if id in db.reviews then Some(Stale(db, id)) else None
    case Recovers(p, matches, verified, expired) => Recover(db, p, matches, verified, expired)
    case Invalidates(p) => Invalidate(db, p)
    case Fails(p, failure) => Fail(db, p, failure)
  }

  /** A raised error rolls its transaction back. */
  ghost function Next(db: Db, e: Event): Db {
    var db' := Step(db, e);
    if db'.Some? then db'.value else db
  }

  ghost function Run(db: Db, events: seq<Event>): Db {
    if events == [] then db else Next(Run(db, events[..|events| - 1]), events[|events| - 1])
  }

  lemma StepKeeps(db: Db, e: Event, db': Db)
    requires Inv(db) && Step(db, e) == Some(db')
    ensures Inv(db')
  {
    match e
    case Starts(id, review) => StartKeeps(db, id, review, db');
    case Completes(p, pointer, evidence, output) => CompleteKeeps(db, p, pointer, evidence, output, db');
    case Records(id, artifact) => RecordKeeps(db, id, artifact, db');
    case Accepts(id, followUps) => AcceptKeeps(db, id, followUps, db');
    case Verifies(target, verification, v) => VerifyKeeps(db, target, verification, v, db');
    case Stales(id) => StaleKeeps(db, id);
    case Recovers(p, matches, verified, expired) => RecoverKeeps(db, p, matches, verified, expired, db');
    case Invalidates(p) => InvalidateKeeps(db, p, db');
    case Fails(p, failure) => FailKeeps(db, p, failure, db');
  }

  lemma NextKeeps(db: Db, e: Event)
    requires Inv(db)
    ensures Inv(Next(db, e))
  {
    if Step(db, e).Some? {
      StepKeeps(db, e, Step(db, e).value);
    }
  }

  lemma {:induction false} RunKeeps(db: Db, events: seq<Event>)
    requires Inv(db)
    ensures Inv(Run(db, events))
  {
    if events != [] {
      RunKeeps(db, events[..|events| - 1]);
      NextKeeps(Run(db, events[..|events| - 1]), events[|events| - 1]);
    }
  }

  /** After every run the three layers agree on every review: it is accepted in
      all of them, and then on the current evidence and a recorded PASS, or in none. */
  lemma LayersAgree(events: seq<Event>, id: ReviewId)
    requires id in Run(EmptyDb, events).reviews
    ensures var db := Run(EmptyDb, events);
      var r := db.reviews[id];
      && (r.state.Accepted? <==> id in db.accepted)
      && (r.state.Accepted? <==> r.provider in db.providers && db.providers[r.provider].state.Granted?)
      && (r.state.Accepted? ==> db.accepted[id].attempt == r.provider && db.providers[r.provider].acceptedAs == Some(id)
                                && r.artifact.Some? && r.artifact.value.verdict.Pass?
                                && SnapshotOf(db.verifications, r.target) == Some(r.verification))
  {
    RunKeeps(EmptyDb, events);
    var db := Run(EmptyDb, events);
    var r := db.reviews[id];
    assert StepOf(db, id);
    if r.provider in db.providers {
      assert ProviderOk(db.reviews, r.provider, db.providers[r.provider]);
    }
  }

  /** After every run each round of each epoch of a task has at most one accepted review. */
  lemma OneAcceptedPerRound(events: seq<Event>, i: ReviewId, j: ReviewId)
    requires var db := Run(EmptyDb, events);
      && i in db.reviews && j in db.reviews && SameRound(db.reviews[i], db.reviews[j])
      && i in db.accepted && j in db.accepted
    ensures i == j
  {
    RunKeeps(EmptyDb, events);
    var db := Run(EmptyDb, events);
    assert StepOf(db, i) && StepOf(db, j);
  }

  // ----------------------------------------------------------- evidence grows

  /** Reviews keep what they were started with, and evidence only grows. */
  ghost predicate Later(db: Db, db': Db) {
    && (forall i :: i in db.reviews ==> i in db'.reviews && SameOrigin(db.reviews[i], db'.reviews[i]))
    && (forall t :: Within(RowsOf(db.verifications, t), RowsOf(db'.verifications, t)))
  }

  ghost predicate SameOrigin(a: Review, b: Review) {
    b.provider == a.provider && b.target == a.target && b.epoch == a.epoch && b.round == a.round
        && b.verification == a.verification
  }

  lemma StepIsLater(db: Db, e: Event, db': Db)
    requires Step(db, e) == Some(db')
    ensures Later(db, db')
  {
    match e
    case Accepts(id, followUps) => AcceptIsLater(db, id, followUps, db');
    case Verifies(target, verification, v) => VerifyIsLater(db, target, verification, v, db');
    case Recovers(p, matches, verified, expired) => RecoverIsLater(db, p, matches, verified, expired, db');
    case Invalidates(p) => InvalidateKeepsReviews(db, p);
    case Fails(p, failure) => FailKeepsReviews(db, p, failure);
    case _ =>
  }

  lemma RecoverIsLater(db: Db, p: ProviderId, matches: bool, verified: Option<nat>, expired: bool, db': Db)
    requires Recover(db, p, matches, verified, expired) == Some(db')
    ensures Later(db, db')
  {
  }

  lemma AcceptIsLater(db: Db, id: ReviewId, followUps: seq<nat>, db': Db)
    requires Accept(db, id, followUps) == Some(db')
    ensures Later(db, db')
  {
  }

  lemma VerifyIsLater(db: Db, target: Target, verification: nat, v: Verification, db': Db)
    requires Verify(db, target, verification, v) == Some(db')
    ensures Later(db, db')
  {
  }

  lemma LaterIsTransitive(a: Db, b: Db, c: Db)
    requires Later(a, b) && Later(b, c)
    ensures Later(a, c)
  {
    forall t ensures Within(RowsOf(a.verifications, t), RowsOf(c.verifications, t)) {
      assert Within(RowsOf(a.verifications, t), RowsOf(b.verifications, t));
      assert Within(RowsOf(b.verifications, t), RowsOf(c.verifications, t));
    }
  }

  lemma {:induction false} RunIsLater(db: Db, events: seq<Event>)
    ensures Later(db, Run(db, events))
  {
    if events != [] {
      var before := Run(db, events[..|events| - 1]);
      RunIsLater(db, events[..|events| - 1]);
      if Step(before, events[|events| - 1]).Some? {
        StepIsLater(before, events[|events| - 1], Step(before, events[|events| - 1]).value);
        LaterIsTransitive(db, before, Step(before, events[|events| - 1]).value);
      }
    }
  }

  /** Once evidence has grown past the digest of a review, the review is not
      accepted and never will be, whatever is replayed, verified or recovered. */
  lemma OutgrownForGood(db: Db, events: seq<Event>, id: ReviewId)
    requires Inv(db) && id in db.reviews
    requires db.reviews[id].verification.rows != RowsOf(db.verifications, db.reviews[id].target)
    ensures id in Run(db, events).reviews && !Run(db, events).reviews[id].state.Accepted?
    ensures id !in Run(db, events).accepted
  {
    RunKeeps(db, events);
    RunIsLater(db, events);
    var db' := Run(db, events);
    var r := db.reviews[id];
    assert FromPast(db.verifications, r);
    var extra :| extra in RowsOf(db.verifications, r.target) && extra !in r.verification.rows;
    assert Within(RowsOf(db.verifications, r.target), RowsOf(db'.verifications, r.target));
    assert extra in RowsOf(db'.verifications, r.target);
    assert StepOf(db', id);
  }

  // --------------------------------------------------- losing an acceptance

  /** The attempt of the review can no longer be accepted as it is. */
  ghost predicate Spent(db: Db, id: ReviewId) {
    && id in db.reviews && db.reviews[id].provider in db.providers
    && SpentRow(db.providers[db.reviews[id].provider])
  }

  /** Whatever takes an acceptance away leaves the attempt spent. */
  lemma LosingAcceptanceSpends(db: Db, e: Event, id: ReviewId, db': Db)
    requires Inv(db) && id in db.reviews && db.reviews[id].state.Accepted?
    requires db' == Next(db, e) && !(id in db'.reviews && db'.reviews[id].state.Accepted?)
    ensures Spent(db', id)
  {
    match e
    case Verifies(target, verification, v) => VerifySpends(db, target, verification, v, id);
    case Stales(i) =>
      if i in db.reviews {
        StaleSpends(db, i, id, Stale(db, i));
      }
    case Recovers(p, matches, verified, expired) =>
      if Recover(db, p, matches, verified, expired).Some? {
        RecoverSpends(db, p, RecoveryDecision(db.providers[p], matches, verified, expired).value, id, db');
      }
    case Accepts(i, followUps) => AcceptTakesNothing(db, i, followUps, id);
    case _ => OthersTakeNothing(db, e, id, db');
  }

  lemma StaleSpends(db: Db, i: ReviewId, id: ReviewId, db': Db)
    requires Inv(db) && id in db.reviews && db.reviews[id].state.Accepted? && i in db.reviews && db' == Stale(db, i)
    ensures id in db'.reviews && (db'.reviews[id].state.Accepted? || Spent(db', id))
  {
    assert StepOf(db, id);
  }

  lemma RecoverSpends(db: Db, p: ProviderId, decision: Decision, id: ReviewId, db': Db)
    requires Inv(db) && id in db.reviews && db.reviews[id].state.Accepted? && Settle(db, p, decision) == Some(db')
    requires db.providers[p].state.Granted? && db.providers[p].pointer.Some? ==>
        decision.next == Some(Ambiguous) || decision.next == Some(Invalidated)
    ensures id in db'.reviews && (db'.reviews[id].state.Accepted? || Spent(db', id))
  {
    SettledReview(db, p, decision, id, db');
    assert StepOf(db, id);
  }

  /** Settling an attempt touches no review of another one. */
  lemma SettledReview(db: Db, p: ProviderId, decision: Decision, id: ReviewId, db': Db)
    requires id in db.reviews && Settle(db, p, decision) == Some(db')
    ensures id in db'.reviews && db'.reviews[id].provider == db.reviews[id].provider
    ensures db.reviews[id].provider != p ==> db'.reviews[id] == db.reviews[id]
    ensures p in db'.providers && db'.providers[p] == Decided(Released(db, p).providers[p], decision)
  {
  }

  /** No other step takes an acceptance away; an accepted attempt is not invalidated
      as a partial review. */
  lemma OthersTakeNothing(db: Db, e: Event, id: ReviewId, db': Db)
    requires Inv(db) && id in db.reviews && db.reviews[id].state.Accepted? && db' == Next(db, e)
    requires e.Starts? || e.Completes? || e.Records? || e.Invalidates? || e.Fails?
    ensures id in db'.reviews && db'.reviews[id] == db.reviews[id]
  {
    assert StepOf(db, id);
    match e
    case Records(i, artifact) =>
    case Invalidates(p) => InvalidateKeepsReviews(db, p);
    case Fails(p, failure) => FailKeepsReviews(db, p, failure);
    case _ =>
  }

  lemma InvalidateKeepsReviews(db: Db, p: ProviderId)
    ensures var o := Invalidate(db, p); o.Some? ==> o.value.reviews == db.reviews
  {
  }

  lemma FailKeepsReviews(db: Db, p: ProviderId, failure: Failure)
    ensures var o := Fail(db, p, failure); o.Some? ==> o.value.reviews == db.reviews
  {
  }

  lemma VerifySpends(db: Db, target: Target, verification: nat, v: Verification, id: ReviewId)
    requires Inv(db) && id in db.reviews && db.reviews[id].state.Accepted?
    ensures var o := Verify(db, target, verification, v);
      o.Some? ==> id in o.value.reviews && (o.value.reviews[id].state.Accepted? || Spent(o.value, id))
  {
    var mid := db.(verifications := db.verifications[target := RowsOf(db.verifications, target)[verification := v]]);
    var snapshot := SnapshotOf(mid.verifications, target);
    if snapshot.Some? {
      OutdatedSpends(db, mid, Outdated(mid.reviews, target, snapshot.value), id);
    }
  }

  lemma OutdatedSpends(db: Db, mid: Db, ids: set<ReviewId>, id: ReviewId)
    requires Inv(db) && id in db.reviews && db.reviews[id].state.Accepted?
    requires mid == db.(verifications := mid.verifications)
    ensures id in ids ==> Spent(StaleAll(mid, ids), id)
    ensures id !in ids ==> StaleAll(mid, ids).reviews[id] == db.reviews[id]
  {
    assert StepOf(db, id);
    if id in ids {
      assert db.reviews[id].provider in ProvidersOf(mid.reviews, ids);
    }
  }

  /** Accepting one review, or refusing to, takes no acceptance from another. */
  lemma AcceptTakesNothing(db: Db, i: ReviewId, followUps: seq<nat>, id: ReviewId)
    requires Inv(db) && id in db.reviews && db.reviews[id].state.Accepted?
    ensures var o := Accept(db, i, followUps); o.Some? ==> id in o.value.reviews && o.value.reviews[id].state.Accepted?
  {
    assert StepOf(db, id);
  }

  predicate SpentRow(row: Provider) {
    row.state.Ambiguous? || row.state.Blocked? || row.state.Invalidated?
  }

  /** The attempt is spent and carries this completion evidence. */
  predicate SpentWith(providers: map<ProviderId, Provider>, p: ProviderId, evidence: Option<nat>) {
    p in providers && SpentRow(providers[p]) && providers[p].evidence == evidence
  }

  /** The event presents the completion evidence of the attempt. */
  predicate Reverifies(e: Event, p: ProviderId, evidence: Option<nat>) {
    e.Recovers? && e.p == p && e.matches && evidence.Some? && e.verified == evidence
  }

  lemma SpentThroughAccept(db: Db, i: ReviewId, followUps: seq<nat>, p: ProviderId, evidence: Option<nat>)
    requires SpentWith(db.providers, p, evidence)
    ensures var o := Accept(db, i, followUps); o.Some? ==> SpentWith(o.value.providers, p, evidence)
  {
  }

  lemma SpentThroughVerify(db: Db, target: Target, verification: nat, v: Verification, p: ProviderId,
          evidence: Option<nat>)
    requires SpentWith(db.providers, p, evidence)
    ensures var o := Verify(db, target, verification, v); o.Some? ==> SpentWith(o.value.providers, p, evidence)
  {
  }

  lemma SpentThroughSettle(db: Db, q: ProviderId, decision: Decision, p: ProviderId, evidence: Option<nat>)
    requires SpentWith(db.providers, p, evidence)
    requires q == p && decision.next.Some? ==> !decision.next.value.Completed? && !decision.next.value.Granted?
    requires decision.next != Some(Turned)
    ensures var o := Settle(db, q, decision); o.Some? ==> SpentWith(o.value.providers, p, evidence)
  {
  }

  lemma SpentNext(db: Db, e: Event, p: ProviderId, evidence: Option<nat>)
    requires SpentWith(db.providers, p, evidence) && !Reverifies(e, p, evidence)
    ensures SpentWith(Next(db, e).providers, p, evidence)
  {
    match e
    case Accepts(i, followUps) => SpentThroughAccept(db, i, followUps, p, evidence);
    case Verifies(target, verification, v) => SpentThroughVerify(db, target, verification, v, p, evidence);
    case Recovers(q, matches, verified, expired) =>
      if Recover(db, q, matches, verified, expired).Some? {
        SpentThroughSettle(db, q, RecoveryDecision(db.providers[q], matches, verified, expired).value, p, evidence);
      }
    case Invalidates(q) => SpentThroughSettle(db, q, Decision(Some(PartialReview), Some(Invalidated)), p, evidence);
    case Fails(q, failure) => SpentThroughSettle(db, q, FailureDecision(failure), p, evidence);
    case _ =>
  }

  lemma {:induction false} SpentRun(db: Db, events: seq<Event>, p: ProviderId, evidence: Option<nat>)
    requires SpentWith(db.providers, p, evidence)
    requires forall k :: 0 <= k < |events| ==> !Reverifies(events[k], p, evidence)
    ensures SpentWith(Run(db, events).providers, p, evidence)
  {
    if events != [] {
      SpentRun(db, events[..|events| - 1], p, evidence);
      SpentNext(Run(db, events[..|events| - 1]), events[|events| - 1], p, evidence);
    }
  }

  /** An acceptance that was lost stays lost for as long as no recovery presents
      the completion evidence of its attempt again. */
  lemma LostStaysLost(db: Db, events: seq<Event>, id: ReviewId, db': Db)
    requires Inv(db) && Spent(db, id) && db' == Run(db, events)
    requires var p := db.reviews[id].provider;
      forall k :: 0 <= k < |events| ==> !Reverifies(events[k], p, db.providers[p].evidence)
    ensures id in db'.reviews && !db'.reviews[id].state.Accepted? && id !in db'.accepted
  {
    RunKeeps(db, events);
    RunIsLater(db, events);
    SpentRun(db, events, db.reviews[id].provider, db.providers[db.reviews[id].provider].evidence);
    assert StepOf(db', id);
  }

  /** Recovery with another context may record its outcome on this attempt. */
  predicate MayDrift(row: Provider) {
    row.outcome.None? || row.outcome == Some(IdentityDrift)
  }

  /** Such a recovery does bring it back: staled through a drifted context, which
      the recorded outcome must allow, the attempt is ambiguous, its evidence is
      verified again, and an exact replay of the PASS is accepted, since the
      evidence has not grown. */
  lemma ReverificationRevives(db: Db, id: ReviewId, p: ProviderId, staled: Db, again: Db, revived: Db)
    requires Inv(db) && id in db.reviews && db.reviews[id].state.Accepted? && p == db.reviews[id].provider
    requires p in db.providers && MayDrift(db.providers[p])
    requires staled == Next(db, Drifts(p)) && again == Next(staled, Verified(p, db.providers[p].evidence))
    requires db.reviews[id].artifact.Some?
    requires revived == Next(again, Accepts(id, db.reviews[id].artifact.value.followUps))
    ensures id in staled.reviews && !staled.reviews[id].state.Accepted?
    ensures id in revived.reviews && revived.reviews[id].state.Accepted?
  {
    assert StepOf(db, id);
    DriftedAmbiguous(db, id, p, staled);
    ReverifiedCompletes(staled, p, again);
    NoRival(db, id, again);
    AcceptSucceeds(again, id, p);
  }

  lemma ReverifiedCompletes(staled: Db, p: ProviderId, again: Db)
    requires p in staled.providers && staled.providers[p].evidence.Some?
    requires staled.providers[p].state.Ambiguous? || staled.providers[p].state.Completed?
    requires again == Next(staled, Verified(p, staled.providers[p].evidence))
    ensures again == staled.(providers := staled.providers[p := staled.providers[p].(state := Completed)])
  {
  }

  lemma AcceptSucceeds(db: Db, id: ReviewId, p: ProviderId)
    requires id in db.reviews && db.reviews[id].provider == p && p in db.providers
    requires var r, row := db.reviews[id], db.providers[p];
      && r.state.Recorded? && r.acceptedAs.None? && r.artifact.Some? && r.artifact.value.verdict.Pass?
      && SnapshotOf(db.verifications, r.target) == Some(r.verification)
      && row.state.Completed? && row.pointer == Some(id) && row.evidence.Some?
          && row.output == Some(r.artifact.value.digest)
    requires !RoundTaken(db, id) && !OtherIdentity(db.accepted, id, p) && id !in db.accepted
    ensures var revived := Next(db, Accepts(id, db.reviews[id].artifact.value.followUps));
      && id in revived.reviews && revived.reviews[id].state.Accepted? && revived.reviews[id].provider == p
      && p in revived.providers && revived.providers[p].outcome == db.providers[p].outcome
  {
  }

  lemma DriftedAmbiguous(db: Db, id: ReviewId, p: ProviderId, staled: Db)
    requires Inv(db) && id in db.reviews && db.reviews[id].state.Accepted? && p == db.reviews[id].provider
    requires p in db.providers && MayDrift(db.providers[p]) && staled == Next(db, Drifts(p))
    ensures id in staled.reviews && staled.reviews[id] == db.reviews[id].(state := Recorded, acceptedAs := None)
    ensures p in staled.providers && staled.providers[p]
        == db.providers[p].(state := Ambiguous, acceptedAs := None, outcome := Some(IdentityDrift))
    ensures staled.verifications == db.verifications
    ensures forall i :: i in staled.accepted ==> i in db.accepted && i != id && staled.accepted[i] == db.accepted[i]
    ensures forall i :: i in staled.reviews && i != id ==> i in db.reviews && staled.reviews[i] == db.reviews[i]
  {
    assert StepOf(db, id);
    var mid := Stale(db, id);
    RecoverStaleIsStale(db, p, id);
    DriftSettles(db, p, mid, staled);
    StaledAlone(db, id, p, mid);
  }

  lemma DriftSettles(db: Db, p: ProviderId, mid: Db, staled: Db)
    requires p in db.providers && MayDrift(db.providers[p]) && p in mid.providers && mid == Released(db, p)
    requires staled == Next(db, Drifts(p))
    ensures staled == mid.(providers := mid.providers[p :=
        mid.providers[p].(state := Ambiguous, outcome := Some(IdentityDrift))])
  {
  }

  lemma StaledAlone(db: Db, id: ReviewId, p: ProviderId, mid: Db)
    requires Inv(db) && id in db.reviews && db.reviews[id].state.Accepted? && p == db.reviews[id].provider
    requires mid == Stale(db, id)
    ensures p in db.providers && p in mid.providers
    ensures mid.providers[p] == db.providers[p].(state := Invalidated, acceptedAs := None)
    ensures id in mid.reviews && mid.reviews[id] == db.reviews[id].(state := Recorded, acceptedAs := None)
    ensures mid.verifications == db.verifications
    ensures forall i :: i in mid.accepted ==> i in db.accepted && i != id && mid.accepted[i] == db.accepted[i]
    ensures forall i :: i in mid.reviews && i != id ==> i in db.reviews && mid.reviews[i] == db.reviews[i]
  {
    assert StepOf(db, id);
  }

  /** No other accepted review of the round, no other accepted row of the attempt. */
  lemma NoRival(db: Db, id: ReviewId, again: Db)
    requires Inv(db) && id in db.reviews && db.reviews[id].state.Accepted?
    requires id in again.reviews && again.reviews[id] == db.reviews[id].(state := Recorded, acceptedAs := None)
    requires forall i :: i in again.accepted ==> i in db.accepted && i != id && again.accepted[i] == db.accepted[i]
    requires forall i :: i in again.reviews && i != id ==> i in db.reviews && again.reviews[i] == db.reviews[i]
    ensures !RoundTaken(again, id) && !OtherIdentity(again.accepted, id, db.reviews[id].provider)
    ensures id !in again.accepted
  {
    forall i | i in again.reviews && i != id && again.reviews[i].state.Accepted?
        ensures !SameRound(again.reviews[i], again.reviews[id])
    {
      assert !SameRound(db.reviews[i], db.reviews[id]);
    }
    forall i | i in again.accepted ensures again.accepted[i].attempt != db.reviews[id].provider {
      assert i in db.reviews && db.accepted[i].attempt == db.reviews[i].provider;
    }
  }

  /** Recording evidence touches the acceptance of no other candidate. */
  lemma VerifyLeavesOthers(db: Db, target: Target, verification: nat, v: Verification, db': Db, id: ReviewId)
    requires Inv(db) && Verify(db, target, verification, v) == Some(db') && id in db.reviews
    requires db.reviews[id].target != target
    ensures id in db'.reviews && db'.reviews[id] == db.reviews[id] && Get(db'.accepted, id) == Get(db.accepted, id)
    ensures Get(db'.providers, db.reviews[id].provider) == Get(db.providers, db.reviews[id].provider)
  {
    var mid := db.(verifications := db.verifications[target := RowsOf(db.verifications, target)[verification := v]]);
    var snapshot := SnapshotOf(mid.verifications, target);
    if snapshot.Some? {
      OutsidersStay(db, mid, Outdated(mid.reviews, target, snapshot.value), id);
    }
  }

  /** Staling some reviews touches no other review, nor its attempt or acceptance. */
  lemma OutsidersStay(db: Db, mid: Db, ids: set<ReviewId>, id: ReviewId)
    requires Inv(db) && id in db.reviews && mid == db.(verifications := mid.verifications)
    requires id !in ids && forall i :: i in ids ==> i in db.reviews
    ensures var o := StaleAll(mid, ids);
      && id in o.reviews && o.reviews[id] == db.reviews[id] && Get(o.accepted, id) == Get(db.accepted, id)
      && Get(o.providers, db.reviews[id].provider) == Get(db.providers, db.reviews[id].provider)
  {
    assert db.reviews[id].provider !in ProvidersOf(mid.reviews, ids);
    if id in db.accepted {
      assert db.accepted[id].attempt == db.reviews[id].provider;
    }
  }
}
