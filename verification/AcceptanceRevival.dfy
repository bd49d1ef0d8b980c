/** When an acceptance that was lost can come back: exactly as long as the
    verification evidence has not grown past the digest of the review and no
    recovery has closed its attempt. A recovery outcome is written once, so what
    the first recovery decides about an invalidated attempt is final. */
module AcceptanceRevival {
  import opened Prelude
  import opened Acceptance
  import opened AcceptanceRuns

  /** Everything that acceptance rests on, whoever holds it now: a recorded PASS
      whose attempt is complete, points to it and carries its output, and a
      digest over both kinds of verification. */
  ghost predicate Earned(db: Db, id: ReviewId) {
    && id in db.reviews && db.reviews[id].provider in db.providers
    && EarnedRows(id, db.reviews[id], db.providers[db.reviews[id].provider])
  }

  predicate EarnedRows(id: ReviewId, r: Review, p: Provider) {
    && !r.state.Dispatched? && r.artifact.Some? && r.artifact.value.verdict.Pass?
    && !p.state.Turned? && p.pointer == Some(id) && p.evidence.Some? && p.output == Some(r.artifact.value.digest)
    && BothKinds(r.verification.rows)
  }

  /** Earned, and taken away. */
  ghost predicate Lost(db: Db, id: ReviewId) {
    Earned(db, id) && !db.reviews[id].state.Accepted?
  }

  lemma AcceptedIsEarned(db: Db, id: ReviewId)
    requires Inv(db) && id in db.reviews && db.reviews[id].state.Accepted?
    ensures Earned(db, id)
  {
    assert StepOf(db, id);
  }

  // ------------------------------------------------------ what was earned stays

  lemma EarnedThroughStaling(db: Db, ids: set<ReviewId>, id: ReviewId)
    requires Earned(db, id)
    ensures Earned(StaleAll(db, ids), id)
  {
  }

  lemma EarnedThroughVerify(db: Db, target: Target, verification: nat, v: Verification, id: ReviewId, db': Db)
    requires Earned(db, id) && Verify(db, target, verification, v) == Some(db')
    ensures Earned(db', id)
  {
    var mid := db.(verifications := db.verifications[target := RowsOf(db.verifications, target)[verification := v]]);
    var snapshot := SnapshotOf(mid.verifications, target);
    if snapshot.Some? {
      EarnedThroughStaling(mid, Outdated(mid.reviews, target, snapshot.value), id);
    }
  }

  lemma EarnedThroughAccept(db: Db, i: ReviewId, followUps: seq<nat>, id: ReviewId, db': Db)
    requires Earned(db, id) && Accept(db, i, followUps) == Some(db')
    ensures Earned(db', id)
  {
  }

  lemma EarnedThroughSettle(db: Db, p: ProviderId, decision: Decision, id: ReviewId, db': Db)
    requires Earned(db, id) && Settle(db, p, decision) == Some(db') && decision.next != Some(Turned)
    ensures Earned(db', id)
  {
  }

  lemma EarnedThroughInvalidate(db: Db, p: ProviderId, id: ReviewId, db': Db)
    requires Earned(db, id) && Invalidate(db, p) == Some(db')
    ensures Earned(db', id)
  {
    if !db.providers[p].state.Granted? {
      EarnedThroughSettle(db, p, Decision(Some(PartialReview), Some(Invalidated)), id, db');
    }
  }

  lemma EarnedThroughStart(db: Db, i: ReviewId, review: Review, id: ReviewId, db': Db)
    requires Earned(db, id) && Start(db, i, review) == Some(db')
    ensures Earned(db', id)
  {
  }

  lemma EarnedNext(db: Db, e: Event, id: ReviewId)
    requires Earned(db, id)
    ensures Earned(Next(db, e), id)
  {
    var o := Step(db, e);
    if o.Some? {
      match e
      case Starts(i, review) => EarnedThroughStart(db, i, review, id, o.value);
      case Accepts(i, followUps) => EarnedThroughAccept(db, i, followUps, id, o.value);
      case Verifies(target, verification, v) => EarnedThroughVerify(db, target, verification, v, id, o.value);
      case Recovers(p, matches, verified, expired) =>
        EarnedThroughSettle(db, p, RecoveryDecision(db.providers[p], matches, verified, expired).value, id, o.value);
      case Invalidates(p) => EarnedThroughInvalidate(db, p, id, o.value);
      case Fails(p, failure) => EarnedThroughSettle(db, p, FailureDecision(failure), id, o.value);
      case Stales(i) => StaleOne(db, i); EarnedThroughStaling(db, {i}, id);
      case _ =>
    }
  }

  lemma {:induction false} EarnedForGood(db: Db, events: seq<Event>, id: ReviewId)
    requires Earned(db, id)
    ensures Earned(Run(db, events), id)
  {
    if events != [] {
      EarnedForGood(db, events[..|events| - 1], id);
      EarnedNext(Run(db, events[..|events| - 1]), events[|events| - 1], id);
    }
  }

  /** Whatever step takes an acceptance away leaves the review lost. */
  lemma LosingIsLost(db: Db, e: Event, id: ReviewId)
    requires Inv(db) && id in db.reviews && db.reviews[id].state.Accepted?
    requires !(id in Next(db, e).reviews && Next(db, e).reviews[id].state.Accepted?)
    ensures Lost(Next(db, e), id)
  {
    AcceptedIsEarned(db, id);
    EarnedNext(db, e, id);
  }

  // ------------------------------------------------------------- closed attempts

  /** Invalidated, with an outcome on record that no drifted context may replace. */
  predicate Closed(row: Provider) {
    row.state.Invalidated? && !MayDrift(row)
  }

  /** The attempt of the review is closed. */
  predicate AttemptClosed(db: Db, id: ReviewId) {
    id in db.reviews && ClosedIn(db.providers, db.reviews[id].provider)
  }

  predicate ClosedIn(providers: map<ProviderId, Provider>, p: ProviderId) {
    p in providers && Closed(providers[p])
  }

  lemma ClosedThroughAccept(db: Db, i: ReviewId, followUps: seq<nat>, p: ProviderId)
    requires ClosedIn(db.providers, p)
    ensures var o := Accept(db, i, followUps); o.Some? ==> ClosedIn(o.value.providers, p)
  {
  }

  lemma ClosedThroughVerify(db: Db, target: Target, verification: nat, v: Verification, p: ProviderId)
    requires ClosedIn(db.providers, p)
    ensures var o := Verify(db, target, verification, v); o.Some? ==> ClosedIn(o.value.providers, p)
  {
  }

  /** Whatever is decided about it, a closed attempt stays as it is. */
  lemma ClosedThroughSettle(db: Db, q: ProviderId, decision: Decision, p: ProviderId)
    requires ClosedIn(db.providers, p)
    requires q == p ==>
        decision.next.None? || decision.next == Some(Invalidated) || Conflicts(db.providers[p], decision)
    ensures var o := Settle(db, q, decision); o.Some? ==> ClosedIn(o.value.providers, p)
  {
  }

  lemma ClosedThroughRecover(db: Db, q: ProviderId, matches: bool, verified: Option<nat>, expired: bool, p: ProviderId)
    requires ClosedIn(db.providers, p)
    ensures var o := Recover(db, q, matches, verified, expired); o.Some? ==> ClosedIn(o.value.providers, p)
  {
    if Recover(db, q, matches, verified, expired).Some? {
      ClosedThroughSettle(db, q, RecoveryDecision(db.providers[q], matches, verified, expired).value, p);
    }
  }

  lemma ClosedNext(db: Db, e: Event, p: ProviderId)
    requires ClosedIn(db.providers, p)
    ensures ClosedIn(Next(db, e).providers, p)
  {
    match e
    case Accepts(i, followUps) => ClosedThroughAccept(db, i, followUps, p);
    case Verifies(target, verification, v) => ClosedThroughVerify(db, target, verification, v, p);
    case Recovers(q, matches, verified, expired) => ClosedThroughRecover(db, q, matches, verified, expired, p);
    case Invalidates(q) => ClosedThroughSettle(db, q, Decision(Some(PartialReview), Some(Invalidated)), p);
    case Fails(q, failure) =>
      if q != p {
        ClosedThroughSettle(db, q, FailureDecision(failure), p);
      }
    case _ =>
  }

  lemma {:induction false} ClosedForGood(db: Db, events: seq<Event>, p: ProviderId)
    requires ClosedIn(db.providers, p)
    ensures ClosedIn(Run(db, events).providers, p)
  {
    if events != [] {
      ClosedForGood(db, events[..|events| - 1], p);
      ClosedNext(Run(db, events[..|events| - 1]), events[|events| - 1], p);
    }
  }

  // ------------------------------------------------------------- the exact condition

  /** The review is accepted after these events. */
  ghost predicate AcceptedAfter(db: Db, events: seq<Event>, id: ReviewId) {
    id in Run(db, events).reviews && Run(db, events).reviews[id].state.Accepted?
  }

  /** Some continuation accepts the review. */
  ghost predicate Revivable(db: Db, id: ReviewId) {
    exists events :: AcceptedAfter(db, events, id)
  }

  /** The digest covers exactly the evidence recorded now. */
  predicate Current(db: Db, id: ReviewId)
    requires id in db.reviews
  {
    db.reviews[id].verification.rows == RowsOf(db.verifications, db.reviews[id].target)
  }

  /** Staling one review changes nothing about another. */
  lemma StaleLeavesOthers(db: Db, rival: ReviewId, id: ReviewId)
    requires Inv(db) && rival in db.reviews && id in db.reviews && rival != id
    ensures var db' := Stale(db, rival);
      id in db'.reviews && db'.reviews[id] == db.reviews[id] && db'.verifications == db.verifications
      && Get(db'.providers, db.reviews[id].provider) == Get(db.providers, db.reviews[id].provider)
  {
    assert db.reviews[rival].provider != db.reviews[id].provider;
  }

  /** With the one rival of its round staled, no other accepted review is in the way. */
  lemma RivalStaled(db: Db, rival: ReviewId, id: ReviewId)
    requires Inv(db) && Lost(db, id) && rival in db.reviews && rival != id && db.reviews[rival].state.Accepted?
    requires SameRound(db.reviews[rival], db.reviews[id])
    ensures var db' := Stale(db, rival); Inv(db') && Lost(db', id) && !RoundTaken(db', id)
  {
    StaleKeeps(db, rival);
    StaleLeavesOthers(db, rival, id);
    RivalWasTheOnlyOne(db, rival, id, Stale(db, rival));
  }

  lemma RivalWasTheOnlyOne(db: Db, rival: ReviewId, id: ReviewId, db': Db)
    requires RoundsOk(db.reviews) && id in db.reviews && rival in db.reviews && rival != id
    requires db.reviews[rival].state.Accepted? && SameRound(db.reviews[rival], db.reviews[id])
    requires db' == Stale(db, rival)
    ensures !RoundTaken(db', id)
  {
    forall i | i in db'.reviews && i != id && db'.reviews[i].state.Accepted?
      ensures !SameRound(db'.reviews[i], db'.reviews[id])
    {
      assert i != rival && db'.reviews[i] == db.reviews[i];
      assert !SameRound(db.reviews[i], db.reviews[rival]);
    }
  }

  lemma LostIsUngranted(db: Db, id: ReviewId)
    requires Inv(db) && Lost(db, id)
    ensures var p := db.providers[db.reviews[id].provider];
      !p.state.Granted? && p.acceptedAs.None? && db.reviews[id].acceptedAs.None? && id !in db.accepted
    ensures !OtherIdentity(db.accepted, id, db.reviews[id].provider)
  {
    var p := db.reviews[id].provider;
    assert StepOf(db, id);
    assert ProviderOk(db.reviews, p, db.providers[p]);
    forall i | i in db.accepted && i != id ensures db.accepted[i].attempt != p {
      assert i in db.reviews && db.accepted[i].attempt == db.reviews[i].provider;
    }
  }

  /** With its round free, its evidence current and its attempt complete or
      ambiguous, a lost review is accepted again. */
  lemma UnspentRevives(db: Db, id: ReviewId, p: ProviderId)
    requires Inv(db) && Lost(db, id) && !RoundTaken(db, id) && Current(db, id) && p == db.reviews[id].provider
    requires db.providers[p].state.Ambiguous? || db.providers[p].state.Completed?
    ensures Revivable(db, id)
  {
    var e, f := Verified(p, db.providers[p].evidence), Accepts(id, db.reviews[id].artifact.value.followUps);
    RunOfTwo(db, e, f);
    LostIsUngranted(db, id);
    var again := Next(db, e);
    ReverifiedCompletes(db, p, again);
    assert FromPast(db.verifications, db.reviews[id]);
    AcceptSucceeds(again, id, p);
    assert AcceptedAfter(db, [e, f], id);
  }

  lemma RunOfTwo(db: Db, e: Event, f: Event)
    ensures Run(db, [e, f]) == Next(Next(db, e), f)
  {
    assert [e, f][..1] == [e] && [e][..0] == [];
    assert Run(db, []) == db && Run(db, [e]) == Next(db, e);
  }

  /** A drifted context makes an invalidated attempt ambiguous. */
  lemma DriftReopens(db: Db, id: ReviewId, p: ProviderId, db': Db)
    requires Inv(db) && Lost(db, id) && p == db.reviews[id].provider && MayDrift(db.providers[p])
    requires db' == Next(db, Drifts(p))
    ensures db' == db.(providers := db.providers[p :=
        db.providers[p].(state := Ambiguous, outcome := Some(IdentityDrift))])
  {
    LostIsUngranted(db, id);
  }

  lemma DriftedIsReady(db: Db, id: ReviewId, p: ProviderId, db': Db)
    requires Inv(db) && Lost(db, id) && !RoundTaken(db, id) && Current(db, id) && p == db.reviews[id].provider
    requires MayDrift(db.providers[p]) && db' == Next(db, Drifts(p))
    ensures Inv(db') && Lost(db', id) && !RoundTaken(db', id) && Current(db', id)
    ensures db'.reviews[id].provider == p && db'.providers[p].state.Ambiguous?
  {
    NextKeeps(db, Drifts(p));
    DriftReopens(db, id, p, db');
  }

  /** A run may begin with one more event. */
  lemma {:induction false} RunAfterFirst(db: Db, e: Event, events: seq<Event>)
    ensures Run(db, [e] + events) == Run(Next(db, e), events)
    decreases |events|
  {
    var all := [e] + events;
    if events == [] {
      assert all == [e] && [e][..0] == [];
      assert Run(db, []) == db;
    } else {
      var init := events[..|events| - 1];
      RunAfterFirst(db, e, init);
      assert all[..|all| - 1] == [e] + init;
    }
  }

  /** An acceptance that was earned once can be had again, in some continuation,
      exactly while the evidence has not grown past its digest and the attempt is
      not closed: whatever took it away, and whoever won the round in the meantime. */
  lemma RevivableExactly(db: Db, id: ReviewId)
    requires Inv(db) && Earned(db, id)
    ensures Revivable(db, id) <==> Current(db, id) && !Closed(db.providers[db.reviews[id].provider])
  {
    if !Current(db, id) {
      forall events ensures !AcceptedAfter(db, events, id) {
        OutgrownForGood(db, events, id);
      }
    } else if AttemptClosed(db, id) {
      forall events ensures !AcceptedAfter(db, events, id) {
        ClosedIsLost(db, events, id);
      }
    } else if db.reviews[id].state.Accepted? {
      assert AcceptedAfter(db, [], id);
    } else {
      CurrentRevives(db, id);
    }
  }

  /** A review whose attempt is closed is not accepted and never will be. */
  lemma ClosedIsLost(db: Db, events: seq<Event>, id: ReviewId)
    requires Inv(db) && AttemptClosed(db, id)
    ensures !AcceptedAfter(db, events, id)
  {
    RunKeeps(db, events);
    RunIsLater(db, events);
    ClosedForGood(db, events, db.reviews[id].provider);
    var db' := Run(db, events);
    assert SameOrigin(db.reviews[id], db'.reviews[id]);
    assert StepOf(db', id);
  }

  lemma CurrentRevives(db: Db, id: ReviewId)
    requires Inv(db) && Lost(db, id) && Current(db, id) && !AttemptClosed(db, id)
    ensures Revivable(db, id)
  {
    if RoundTaken(db, id) {
      var freed := RoundIsFreed(db, id);
      FreeRoundIsRevivable(freed, id);
    } else {
      FreeRoundIsRevivable(db, id);
    }
  }

  /** Staling the one rival frees the round. */
  lemma RoundIsFreed(db: Db, id: ReviewId) returns (db': Db)
    requires Inv(db) && Lost(db, id) && Current(db, id) && !AttemptClosed(db, id) && RoundTaken(db, id)
    ensures Inv(db') && Lost(db', id) && !RoundTaken(db', id) && Current(db', id) && !AttemptClosed(db', id)
    ensures Revivable(db', id) ==> Revivable(db, id)
  {
    var rival := RivalOf(db, id);
    db' := Stale(db, rival);
    RivalStaled(db, rival, id);
    StaleLeavesOthers(db, rival, id);
    if Revivable(db', id) {
      RevivableAfterStaling(db, rival, id);
    }
  }

  lemma RevivableAfterStaling(db: Db, rival: ReviewId, id: ReviewId)
    requires rival in db.reviews && Revivable(Stale(db, rival), id)
    ensures Revivable(db, id)
  {
    assert Next(db, Stales(rival)) == Stale(db, rival);
    RevivableBefore(db, Stales(rival), id);
  }

  lemma RivalOf(db: Db, id: ReviewId) returns (rival: ReviewId)
    requires id in db.reviews && RoundTaken(db, id)
    ensures rival in db.reviews && rival != id && db.reviews[rival].state.Accepted?
    ensures SameRound(db.reviews[rival], db.reviews[id])
  {
    rival :| rival in db.reviews && rival != id && db.reviews[rival].state.Accepted?
        && SameRound(db.reviews[rival], db.reviews[id]);
  }

  lemma FreeRoundIsRevivable(db: Db, id: ReviewId)
    requires Inv(db) && Lost(db, id) && !RoundTaken(db, id) && Current(db, id) && !AttemptClosed(db, id)
    ensures Revivable(db, id)
  {
    var p := db.reviews[id].provider;
    LostIsUngranted(db, id);
    assert ProviderOk(db.reviews, p, db.providers[p]);
    if db.providers[p].state.Invalidated? {
      DriftedIsReady(db, id, p, Next(db, Drifts(p)));
      UnspentRevives(Next(db, Drifts(p)), id, p);
      RevivableBefore(db, Drifts(p), id);
    } else {
      UnspentRevives(db, id, p);
    }
  }

  lemma RevivableBefore(db: Db, e: Event, id: ReviewId)
    requires Revivable(Next(db, e), id)
    ensures Revivable(db, id)
  {
    var events :| AcceptedAfter(Next(db, e), events, id);
    RunAfterFirst(db, e, events);
    assert AcceptedAfter(db, [e] + events, id);
  }

  /** The first recovery under the persisted context closes the attempt of a review
      that is accepted or was staled: it is never accepted again, although its
      evidence is as current as before. */
  lemma MatchingRecoveryCloses(db: Db, id: ReviewId, verified: Option<nat>, expired: bool, db': Db)
    requires Inv(db) && Earned(db, id)
    requires var row := db.providers[db.reviews[id].provider];
      (row.state.Granted? || row.state.Invalidated?) && row.outcome.None?
    requires db' == Next(db, Recovers(db.reviews[id].provider, true, verified, expired))
    ensures Lost(db', id) && (Current(db', id) <==> Current(db, id)) && !Revivable(db', id)
  {
    var p := db.reviews[id].provider;
    if db.providers[p].state.Granted? {
      var _ := GrantedPoints(db, p);
    }
    var decision := DecisionIsFinal(db.providers[p], verified, expired);
    RecoverySettles(db, p, true, verified, expired, decision);
    RecoveryCloses(db, id, p, decision, db');
    RevivableExactly(db', id);
  }

  /** With no outcome on record, the decision is against the attempt. */
  lemma DecisionIsFinal(row: Provider, verified: Option<nat>, expired: bool) returns (decision: Decision)
    requires row.outcome.None? && ((row.state.Granted? && row.pointer.Some?) || row.state.Invalidated?)
    ensures RecoveryDecision(row, true, verified, expired) == Some(decision)
    ensures decision.blocker.Some? && decision.blocker.value != IdentityDrift
    ensures if decision.next.None? then row.state.Invalidated? else decision.next == Some(Invalidated)
  {
    decision := RecoveryDecision(row, true, verified, expired).value;
  }

  lemma RecoverySettles(db: Db, p: ProviderId, matches: bool, verified: Option<nat>, expired: bool, decision: Decision)
    requires p in db.providers && RecoveryDecision(db.providers[p], matches, verified, expired) == Some(decision)
    requires !Conflicts(db.providers[p], decision)
    ensures Settle(db, p, decision) == Some(Next(db, Recovers(p, matches, verified, expired)))
  {
  }

  lemma RecoveryCloses(db: Db, id: ReviewId, p: ProviderId, decision: Decision, db': Db)
    requires id in db.reviews && p == db.reviews[id].provider && Settle(db, p, decision) == Some(db')
    requires Inv(db) && Earned(db, id) && decision.blocker.Some? && decision.blocker.value != IdentityDrift
    requires if decision.next.None? then db.providers[p].state.Invalidated? else decision.next == Some(Invalidated)
    ensures Inv(db') && Lost(db', id) && (Current(db', id) <==> Current(db, id))
    ensures db'.reviews[id].provider == p && Closed(db'.providers[p])
  {
    SettleKeeps(db, p, decision, db');
    EarnedThroughSettle(db, p, decision, id, db');
    SettledReview(db, p, decision, id, db');
    assert StepOf(db', id);
  }

  /** Over whole runs: once accepted, a review is at every later point accepted or
      lost, and can be accepted again exactly while its evidence is current and its
      attempt is not closed. */
  lemma OnceAcceptedRevivableExactly(before: seq<Event>, after: seq<Event>, id: ReviewId)
    requires AcceptedAfter(EmptyDb, before, id)
    ensures var db := Run(Run(EmptyDb, before), after);
      && Earned(db, id) && (db.reviews[id].state.Accepted? || Lost(db, id))
      && (Revivable(db, id) <==> Current(db, id) && !Closed(db.providers[db.reviews[id].provider]))
  {
    RunKeeps(EmptyDb, before);
    var first := Run(EmptyDb, before);
    RunKeeps(first, after);
    AcceptedIsEarned(first, id);
    EarnedForGood(first, after, id);
    RevivableExactly(Run(first, after), id);
  }
}
