/** A run, under an exclusive lease, after which the coordinator cannot be
    restarted: a request refused by the lease stays behind at the genesis head
    while the owner of that head is verified. */
module CanaryStranded {
  import opened Prelude
  import opened CanaryPolicy
  import opened CanaryLedger
  import opened CanarySteps
  import opened CanaryHydration
  import opened CanaryRuns
  import opened CanaryDispatch

  const SamplePolicy := Policy(
    "base", "candidate", External(0), 4, 1, Target("owner/repo", "baseline", 1), External(1), "branch",
    ["a", "b"], [Comment], Budget(map[Comment := 2], 2), RollbackPlan("trigger", "switch", "readback"))

  const Standing := Context(true, true, true, false, SamplePolicy.Selected(), true, true, true, {Comment})

  const OwnerRequest := Request(Comment, "branch", ["a"])
  const RivalRequest := Request(Comment, "branch", ["b"])

  /** The owner's dispatch is lost, the rival is refused the fence, and the owner reconciles as applied. */
  const LostDispatch := Answers(None, true, Raised, None)
  const RefusedFence := Answers(None, false, Raised, None)
  const AppliedLater := Answers(None, false, Raised, Some(Readback(Applied, External(2))))

  lemma SampleIsValid()
    ensures SamplePolicy.Valid()
  {
    assert Elements(SamplePolicy.requestedOperations) == {Comment};
    assert Total([Comment], map[Comment := 2]) == 2 by {
      assert [Comment][1..] == [];
    }
  }

  lemma GenesisAuthorizes(request: Request)
    requires SamplePolicy.Valid() && (request == OwnerRequest || request == RivalRequest)
    ensures Authorize(SamplePolicy, Standing, Some(GenesisReceipt(SamplePolicy).Digest()), request,
        [GenesisReceipt(SamplePolicy)])
            == Authorized(AuthorizationFor(SamplePolicy, request, GenesisReceipt(SamplePolicy)))
  {
    var genesis := GenesisReceipt(SamplePolicy);
    TotalZero(SamplePolicy.requestedOperations, genesis.counts);
    assert forall path :: path in request.paths ==> path == "a" || path == "b";
    assert SamplePolicy.allowedPaths[0] == "a" && SamplePolicy.allowedPaths[1] == "b";
  }

  // The states between the moves.

  ghost function Genesis(): Receipt
    requires SamplePolicy.Valid()
  {
    GenesisReceipt(SamplePolicy)
  }

  ghost function For(request: Request): Authorization
    requires SamplePolicy.Valid()
  {
    AuthorizationFor(SamplePolicy, request, Genesis())
  }

  ghost function Quarantine(): Record
    requires SamplePolicy.Valid()
  {
    NewRecord(For(OwnerRequest), OwnerRequest, Execute, None, None).Updated(Quarantined, None, None)
  }

  ghost function Preserved(): Record
    requires SamplePolicy.Valid()
  {
    NewRecord(For(RivalRequest), RivalRequest, Execute, None, None).Updated(PreservedForOwner, None, None)
  }

  lemma ExecuteReserves(policy: Policy, context: Context, st: LedgerState, request: Request, a: Authorization,
          answers: Answers)
    requires policy.Valid() && ValidChain(policy, st.chain)
    requires DecisionFor(policy, context, st, request) == Authorized(a)
    requires Matching(st.records, request, Execute) == [] && Lookup(st.records, a.Claim()).None?
    ensures BeginStep(policy, context, st, request, Execute, answers)
        == ReservedStep(st, NewRecord(a, request, Execute, None, None), answers)
  {
  }

  lemma OwnerIsQuarantined() returns (m: Move)
    requires SamplePolicy.Valid()
    ensures Moves(SamplePolicy, Fresh(SamplePolicy), m, LedgerState([Genesis()], [Quarantine()], false),
                  [LeaseAsked(For(OwnerRequest), true), Dispatched(For(OwnerRequest))])
  {
    m := Public(Standing, Begin(OwnerRequest, Execute), LostDispatch);
    GenesisAuthorizes(OwnerRequest);
    var st := Fresh(SamplePolicy);
    ExecuteReserves(SamplePolicy, Standing, st, OwnerRequest, For(OwnerRequest), LostDispatch);
    assert st.records + [NewRecord(For(OwnerRequest), OwnerRequest, Execute, None, None)]
        == [NewRecord(For(OwnerRequest), OwnerRequest, Execute, None, None)];
  }

  lemma RivalIsPreserved(st: LedgerState) returns (m: Move)
    requires SamplePolicy.Valid() && st == LedgerState([Genesis()], [Quarantine()], false) && Inv(SamplePolicy, st)
    ensures Moves(SamplePolicy, st, m, LedgerState([Genesis()], [Quarantine(), Preserved()], false),
        [LeaseAsked(For(RivalRequest), false)])
  {
    m := Public(Standing, Begin(RivalRequest, Execute), RefusedFence);
    GenesisAuthorizes(RivalRequest);
    assert OwnerRequest.paths[0] != RivalRequest.paths[0];
    NoPosition(st.records, (r: Record) => SameDelivery(r, RivalRequest, Execute));
    NoPosition(st.records, (r: Record) => r.Claim() == For(RivalRequest).Claim());
    ExecuteReserves(SamplePolicy, Standing, st, RivalRequest, For(RivalRequest), RefusedFence);
    var r := NewRecord(For(RivalRequest), RivalRequest, Execute, None, None);
    assert (st.records + [r])[1 := Preserved()] == [Quarantine(), Preserved()];
  }

  lemma OwnerIsVerified(st: LedgerState) returns (m: Move, st': LedgerState)
    requires SamplePolicy.Valid() && st == LedgerState([Genesis()], [Quarantine(), Preserved()], false)
    requires Inv(SamplePolicy, st)
    ensures Moves(SamplePolicy, st, m, st', [])
    ensures |st'.chain| == 2 && [Genesis()] <= st'.chain && |st'.records| == 2 && st'.records[1] == Preserved()
  {
    m := Public(Standing, Reconcile(For(OwnerRequest).Claim()), AppliedLater);
    GenesisAuthorizes(OwnerRequest);
    AuthorizedFitsBudget(SamplePolicy, Standing, Some(Genesis().Digest()), OwnerRequest, [Genesis()], External(2));
    ClaimOfOwner(st);
    assert Lookup(st.records, For(OwnerRequest).Claim()) == Some(0);
    assert ReconcileStep(SamplePolicy, Standing, st, For(OwnerRequest).Claim(), AppliedLater)
           == ReadbackStep(st, 0, For(OwnerRequest), true, AppliedLater.readback);
    st' := After(SamplePolicy, st, m).state;
  }

  lemma ClaimOfOwner(st: LedgerState)
    requires SamplePolicy.Valid() && st == LedgerState([Genesis()], [Quarantine(), Preserved()], false)
    ensures Positions(st.records, (r: Record) => r.Claim() == For(OwnerRequest).Claim()) == [0]
  {
    assert OwnerRequest.paths[0] != RivalRequest.paths[0];
    OnlyPosition(st.records, (r: Record) => r.Claim() == For(OwnerRequest).Claim(), 0);
  }

  /** One move from `st` leads to `st'` with these owner-host calls. */
  ghost predicate Moves(policy: Policy, st: LedgerState, m: Move, st': LedgerState, events: seq<Event>) {
    policy.Valid() && Inv(policy, st) && Possible(m) && After(policy, st, m) == Trace(st', events)
  }

  /** A run from a fresh ledger leads to `st` with these owner-host calls. */
  ghost predicate Reaches(policy: Policy, moves: seq<Move>, st: LedgerState, events: seq<Event>) {
    policy.Valid() && AllPossible(moves) && Run(policy, Fresh(policy), moves) == Trace(st, events)
  }

  lemma ReachesByMove(policy: Policy, moves: seq<Move>, st: LedgerState, events: seq<Event>, m: Move, st': LedgerState,
          more: seq<Event>)
    requires Reaches(policy, moves, st, events) && Moves(policy, st, m, st', more)
    ensures Reaches(policy, moves + [m], st', events + more)
  {
    assert (moves + [m])[..|moves|] == moves;
  }

  lemma ReachedIsInvariant(policy: Policy, moves: seq<Move>, st: LedgerState, events: seq<Event>)
    requires Reaches(policy, moves, st, events)
    ensures Inv(policy, st)
  {
  }

  lemma OneGrantIsExclusive(a: Authorization, b: Authorization)
    ensures Exclusive([LeaseAsked(a, true), Dispatched(a), LeaseAsked(b, false)])
  {
  }

  lemma RivalIsRefused() returns (moves: seq<Move>)
    requires SamplePolicy.Valid()
    ensures Reaches(SamplePolicy, moves, LedgerState([Genesis()], [Quarantine(), Preserved()], false),
                    [LeaseAsked(For(OwnerRequest), true), Dispatched(For(OwnerRequest)),
                        LeaseAsked(For(RivalRequest), false)])
  {
    var st0 := Fresh(SamplePolicy);
    assert Reaches(SamplePolicy, [], st0, []);
    var first, second := [LeaseAsked(For(OwnerRequest), true), Dispatched(For(OwnerRequest))],
        [LeaseAsked(For(RivalRequest), false)];
    var m0 := OwnerIsQuarantined();
    var st1 := LedgerState([Genesis()], [Quarantine()], false);
    ReachesByMove(SamplePolicy, [], st0, [], m0, st1, first);
    ReachedIsInvariant(SamplePolicy, [] + [m0], st1, [] + first);
    var m1 := RivalIsPreserved(st1);
    moves := [] + [m0] + [m1];
    ReachesByMove(SamplePolicy, [] + [m0], st1, [] + first, m1,
        LedgerState([Genesis()], [Quarantine(), Preserved()], false), second);
    assert [] + first + second == [LeaseAsked(For(OwnerRequest), true), Dispatched(For(OwnerRequest)),
        LeaseAsked(For(RivalRequest), false)];
  }

  /** Three moves strand the rival: its record is unverified and superseded. */
  lemma RunStrandsRival() returns (moves: seq<Move>, st: LedgerState, events: seq<Event>)
    requires SamplePolicy.Valid()
    ensures Reaches(SamplePolicy, moves, st, events) && Inv(SamplePolicy, st)
    ensures |st.records| == 2 && Superseded(st.chain, st.records[1]) && Exclusive(events)
  {
    events := [LeaseAsked(For(OwnerRequest), true), Dispatched(For(OwnerRequest)),
        LeaseAsked(For(RivalRequest), false)];
    OneGrantIsExclusive(For(OwnerRequest), For(RivalRequest));
    var before := RivalIsRefused();
    var st2 := LedgerState([Genesis()], [Quarantine(), Preserved()], false);
    ReachedIsInvariant(SamplePolicy, before, st2, events);
    var m;
    m, st := OwnerIsVerified(st2);
    moves := before + [m];
    ReachesByMove(SamplePolicy, before, st2, events, m, st, []);
    assert events + [] == events;
    ReachedIsInvariant(SamplePolicy, moves, st, events);
    LeftAtGenesis(st);
  }

  lemma LeftAtGenesis(st: LedgerState)
    requires SamplePolicy.Valid() && ValidChain(SamplePolicy, st.chain) && |st.chain| == 2
    requires [Genesis()] <= st.chain
    ensures Superseded(st.chain, Preserved())
  {
    if Genesis().Digest() == Head(st.chain).Digest() {
      HeadsNeverRecur(SamplePolicy, st.chain, 0, 1);
    }
  }

  /** The round trip through a snapshot is not total on reachable ledgers, even
      with an exclusive lease. */
  lemma RestartCanBeRefused()
    ensures exists policy, moves, st, events ::
      Reaches(policy, moves, st, events) && Inv(policy, st) && Exclusive(events)
          && !Hydratable(policy, Seal(policy, st))
  {
    SampleIsValid();
    var moves, st, events := RunStrandsRival();
    RestartExactlyWhenNoneSuperseded(SamplePolicy, st);
    assert !NoneSuperseded(st);
  }
}
