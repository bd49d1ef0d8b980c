/** A run that accepts a review, loses the acceptance and gets it back, and one that
    loses it for good although the evidence stays as it was. */
module AcceptanceWitness {
  import opened Prelude
  import opened Acceptance
  import opened AcceptanceRuns
  import opened AcceptanceRevival

  const SampleTarget := Target(0, 0)
  const TestRun := Verification(Test, 0, 0, 0)
  const BuildRun := Verification(Build, 0, 0, 0)
  const FullEvidence: Rows := map[1 := TestRun, 2 := BuildRun]
  const TestEvidence: Rows := map[1 := TestRun]
  const PassArtifact := Artifact(Pass, [], 5)
  const StartedReview := Review(9, SampleTarget, 1, 1, Snapshot(SampleTarget, FullEvidence), Dispatched, None, None)

  const CompletedAttempt := Provider(Completed, None, Some(7), Some(3), Some(5), None)

  lemma RunOneMore(db: Db, events: seq<Event>, e: Event)
    ensures Run(db, events + [e]) == Next(Run(db, events), e)
  {
    assert (events + [e])[..|events|] == events;
  }

  /** Nothing is staled where nothing is accepted. */
  lemma VerifyBeforeReviews(rows: Rows, db: Db, verification: nat, v: Verification)
    requires db.reviews == map[] && db.providers == map[] && db.accepted == map[]
    requires RowsOf(db.verifications, SampleTarget) == rows && verification !in rows
    ensures Next(db, Verifies(SampleTarget, verification, v))
        == db.(verifications := db.verifications[SampleTarget := rows[verification := v]])
  {
  }

  lemma EvidenceIsRecorded() returns (events: seq<Event>)
    ensures Run(EmptyDb, events) == Db(map[SampleTarget := FullEvidence], map[], map[], map[])
  {
    var first, second := Verifies(SampleTarget, 1, TestRun), Verifies(SampleTarget, 2, BuildRun);
    RunOneMore(EmptyDb, [], first);
    RunOneMore(EmptyDb, [first], second);
    assert [] + [first] == [first] && [first] + [second] == [first, second];
    VerifyBeforeReviews(map[], EmptyDb, 1, TestRun);
    var none: Rows := map[];
    assert none[1 := TestRun] == TestEvidence;
    var db := Db(map[SampleTarget := TestEvidence], map[], map[], map[]);
    assert Run(EmptyDb, [first]) == db;
    VerifyBeforeReviews(TestEvidence, db, 2, BuildRun);
    assert TestEvidence[2 := BuildRun] == FullEvidence;
    assert db.verifications[SampleTarget := FullEvidence] == map[SampleTarget := FullEvidence];
    events := [first, second];
  }

  /** Started, completed and recorded, ready to be accepted. */
  lemma ReviewIsRecorded(db: Db, events: seq<Event>) returns (events': seq<Event>, db': Db)
    requires db == Run(EmptyDb, events) && db == Db(map[SampleTarget := FullEvidence], map[], map[], map[])
    ensures db' == Run(EmptyDb, events')
    ensures db' == Db(db.verifications, map[7 := StartedReview.(state := Recorded, artifact := Some(PassArtifact))],
        map[9 := CompletedAttempt], map[])
  {
    var e, f, g := Starts(7, StartedReview), Completes(9, 7, 3, 5), Records(7, PassArtifact);
    RunOneMore(EmptyDb, events, e);
    RunOneMore(EmptyDb, events + [e], f);
    RunOneMore(EmptyDb, events + [e] + [f], g);
    events' := events + [e] + [f] + [g];
    var a := Next(db, e);
    assert FromPast(db.verifications, StartedReview);
    assert a == Db(db.verifications, map[7 := StartedReview], map[9 := TurnedAttempt], map[]);
    var b := Next(a, f);
    assert b == a.(providers := map[9 := CompletedAttempt]);
    db' := Next(b, g);
  }

  /** Some run ends with an accepted review. */
  lemma SomeReviewIsAccepted() returns (events: seq<Event>)
    ensures var db := Run(EmptyDb, events);
      && 7 in db.reviews && db.reviews[7].state.Accepted? && db.reviews[7].provider == 9
      && 9 in db.providers && db.providers[9].outcome.None?
  {
    var before := EvidenceIsRecorded();
    var recorded, db := ReviewIsRecorded(Run(EmptyDb, before), before);
    assert RowsOf(db.verifications, SampleTarget) == FullEvidence;
    assert FullEvidence[1].kind.Test? && FullEvidence[2].kind.Build?;
    AcceptSucceeds(db, 7, 9);
    RunOneMore(EmptyDb, recorded, Accepts(7, []));
    events := recorded + [Accepts(7, [])];
  }

  /** Some run accepts a review, takes the acceptance away, and accepts it again. */
  lemma SomeAcceptanceIsRevived() returns (before: seq<Event>, between: seq<Event>, after: seq<Event>)
    ensures var first, lost, again := Run(EmptyDb, before), Run(EmptyDb, before + between),
        Run(EmptyDb, before + between + after);
      && 7 in first.reviews && first.reviews[7].state.Accepted?
      && 7 in lost.reviews && !lost.reviews[7].state.Accepted?
      && 7 in again.reviews && again.reviews[7].state.Accepted?
  {
    before := SomeReviewIsAccepted();
    var db := Run(EmptyDb, before);
    assert Inv(EmptyDb);
    RunKeeps(EmptyDb, before);
    assert StepOf(db, 7);
    var e, f := Drifts(9), Verified(9, db.providers[9].evidence);
    var g := Accepts(7, db.reviews[7].artifact.value.followUps);
    between, after := [e], [f, g];
    RunOneMore(EmptyDb, before, e);
    RunOneMore(EmptyDb, before + [e], f);
    RunOneMore(EmptyDb, before + [e] + [f], g);
    assert before + between + after == before + [e] + [f] + [g];
    ReverificationRevives(db, 7, 9, Next(db, e), Next(Next(db, e), f), Next(Next(Next(db, e), f), g));
  }

  /** Some run accepts a review and recovers its attempt under the persisted context:
      the evidence is current, and yet no continuation accepts the review again. */
  lemma SomeAcceptanceIsGone() returns (events: seq<Event>)
    ensures var db := Run(EmptyDb, events); Lost(db, 7) && Current(db, 7) && !Revivable(db, 7)
  {
    var before := SomeReviewIsAccepted();
    var db := Run(EmptyDb, before);
    assert Inv(EmptyDb);
    RunKeeps(EmptyDb, before);
    AcceptedIsEarned(db, 7);
    AcceptedIsCurrent(db, 7, 9);
    events := before + [Recovers(9, true, None, false)];
    RunOneMore(EmptyDb, before, Recovers(9, true, None, false));
    MatchingRecoveryCloses(db, 7, None, false, Run(EmptyDb, events));
  }

  lemma AcceptedIsCurrent(db: Db, id: ReviewId, p: ProviderId)
    requires Inv(db) && id in db.reviews && db.reviews[id].state.Accepted? && db.reviews[id].provider == p
    ensures Current(db, id) && p in db.providers && db.providers[p].state.Granted?
  {
    assert StepOf(db, id);
  }
}
