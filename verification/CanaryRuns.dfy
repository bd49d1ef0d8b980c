/** Whole runs of the coordinator: any sequence of public calls and restarts,
    under any standing authority and against any lease and broker. */
module CanaryRuns {
  import opened Prelude
  import opened CanaryPolicy
  import opened CanaryLedger
  import opened CanarySteps
  import opened CanaryHydration

  /** One public call, or a restart from the latest snapshot. A restart that
      hydration refuses leaves the old ledger in place. */
  datatype Move = Public(context: Context, call: Call, answers: Answers) | Restart

  predicate Possible(move: Move) {
    move.Public? ==> WellFormed(move.call)
  }

  predicate AllPossible(moves: seq<Move>) {
    forall i :: 0 <= i < |moves| ==> Possible(moves[i])
  }

  datatype Trace = Trace(state: LedgerState, events: seq<Event>)

  ghost function After(policy: Policy, st: LedgerState, move: Move): (t: Trace)
    requires policy.Valid() && Inv(policy, st) && Possible(move)
    ensures Inv(policy, t.state) && Evolves(st, t.state)
  {
    match move
    case Public(context, call, answers) =>
      var o := Step(policy, context, st, call, answers);
      assert Inv(policy, o.state) && Evolves(st, o.state) by {
        StepKeeps(policy, context, st, call, answers);
      }
      Trace(o.state, o.events)
    case Restart =>
      assert Rebuild(policy, Seal(policy, st)) == st.(hydrated := true) by {
        SealThenRebuild(policy, st);
      }
      assert Evolves(st, st) by { EvolvesToItself(st); }
      if Hydratable(policy, Seal(policy, st)) then Trace(Rebuild(policy, Seal(policy, st)), []) else Trace(st, [])
  }

  /** Every run keeps the ledger invariant and only evolves the ledger. */
  ghost function Run(policy: Policy, st: LedgerState, moves: seq<Move>): (t: Trace)
    requires policy.Valid() && Inv(policy, st) && AllPossible(moves)
    ensures Inv(policy, t.state) && Evolves(st, t.state)
    decreases |moves|
  {
    if moves == [] then
      assert Evolves(st, st) by { EvolvesToItself(st); }
      Trace(st, [])
    else
      var t := Run(policy, st, moves[..|moves| - 1]);
      var u := After(policy, t.state, moves[|moves| - 1]);
      assert Evolves(st, u.state) by {
        EvolvesTransitively(policy, st, t.state, u.state);
      }
      Trace(u.state, t.events + u.events)
  }

  /** In every run from a fresh ledger the chain validates, non-genesis receipts
      and verified records correspond one to one, each record is bound to the
      receipt it extends, and no count exceeds its budget. */
  lemma EveryRunIsAccounted(policy: Policy, moves: seq<Move>)
    requires policy.Valid() && AllPossible(moves)
    ensures var st := Run(policy, Fresh(policy), moves).state;
      && Inv(policy, st)
      && |st.chain| - 1 <= policy.budget.totalCalls
      && |Positions(st.records, (r: Record) => r.state.Verified?)| == |st.chain| - 1
      && forall operation :: operation in Head(st.chain).counts ==>
          Head(st.chain).counts[operation] <= policy.budget.LimitFor(operation)
  {
    var st := Run(policy, Fresh(policy), moves).state;
    ChainWithinBudget(policy, st.chain);
    SoundCount(policy, st.chain, st.records);
  }

  // --------------------------------------------------------------- finality

  /** Over any run: verified and preserved records never change again, and a
      record left behind by the chain is frozen for good. */
  lemma FinalRecordsStay(policy: Policy, st: LedgerState, moves: seq<Move>, i: nat)
    requires policy.Valid() && Inv(policy, st) && AllPossible(moves) && i < |st.records|
    requires st.records[i].state.Verified? || st.records[i].state.PreservedForOwner?
        || Superseded(st.chain, st.records[i])
    ensures var st' := Run(policy, st, moves).state; i < |st'.records| && st'.records[i] == st.records[i]
  {
    var st' := Run(policy, st, moves).state;
    assert RecordEvolves(st.chain, st.records[i], st'.records[i]);
  }

  /** A delivery that was begun is never begun again: repeating it changes
      nothing, reaches neither lease nor broker, and returns the retained receipt. */
  lemma RepeatedDeliveryConverges(policy: Policy, st: LedgerState, moves: seq<Move>, i: nat, context: Context,
          answers: Answers)
    requires policy.Valid() && Inv(policy, st) && AllPossible(moves) && i < |st.records|
    ensures var st' := Run(policy, st, moves).state;
      var r := st.records[i];
      && i < |st'.records|
      && BeginStep(policy, context, st', r.request, r.purpose, answers) ==
         Outcome(st', CallResult(ReusedReceipt, Some(st'.records[i].receipt), st'.records[i].canary), [])
  {
    var st', r := Run(policy, st, moves).state, st.records[i];
    assert RecordEvolves(st.chain, r, st'.records[i]);
    var p := (other: Record) => SameDelivery(other, r.request, r.purpose);
    forall k | 0 <= k < |st'.records| && p(st'.records[k]) ensures k == i {
      SameDeliveryIsSame(st'.records, i, k);
    }
    OnlyPosition(st'.records, p, i);
    assert Matching(st'.records, r.request, r.purpose) == [i];
  }

  lemma SameDeliveryIsSame(records: seq<Record>, i: nat, k: nat)
    requires UniqueDeliveries(records) && i < |records| && k < |records|
    requires SameDelivery(records[k], records[i].request, records[i].purpose)
    ensures i == k
  {
  }

  // ------------------------------------------------------------ reversals

  /** A verified rollback or cleanup deletes exactly the branch whose creation,
      with the same paths, is the verified ordinary execution right before it. */
  lemma ReversalFollowsCreation(policy: Policy, st: LedgerState, i: nat)
    requires policy.Valid() && Inv(policy, st) && i < |st.records|
    requires st.records[i].state.Verified? && !st.records[i].purpose.Execute?
    ensures st.records[i].request.operation.DeleteBranch?
    ensures exists e, c :: 0 <= e < |st.records| && 1 < c < |st.chain| && IsReversalOf(st, i, e, c)
  {
    assert AnchoredRecord(st.chain, st.records, i);
    var j :| AnchoredAt(st.chain, st.records, st.records[i], j);
    var e :| 0 <= e < |st.records| && Reverses(st.records[i], st.records[e], st.chain[j]);
    ReversalAt(policy, st, i, e, j);
  }

  lemma ReversalAt(policy: Policy, st: LedgerState, i: nat, e: nat, j: nat)
    requires policy.Valid() && Inv(policy, st) && i < |st.records| && e < |st.records| && j + 1 < |st.chain|
    requires st.records[i].state.Verified? && !st.records[i].purpose.Execute?
    requires AnchoredAt(st.chain, st.records, st.records[i], j) && Reverses(st.records[i], st.records[e], st.chain[j])
    ensures st.records[i].request.operation.DeleteBranch? && 1 < j + 1 && IsReversalOf(st, i, e, j + 1)
  {
    VerifiedPosition(policy, st.chain, st.records, e);
    CreationIsOrdinary(policy, st, e);
    CallsAreCounted(policy, st.chain, j);
  }

  ghost predicate IsReversalOf(st: LedgerState, i: nat, e: nat, c: nat)
    requires i < |st.records| && e < |st.records| && 1 < c < |st.chain|
  {
    var later, earlier := st.records[i], st.records[e];
    && later.canary == Some(st.chain[c]) && earlier.canary == Some(st.chain[c - 1])
    && earlier.state.Verified? && earlier.purpose.Execute? && earlier.request.operation.CreateBranch?
    && later.request.branch == earlier.request.branch && later.request.paths == earlier.request.paths
    && later.predecessorTransition == Some(earlier.receipt.Digest())
  }

  /** Branch creation is never itself a rollback or a cleanup. */
  lemma CreationIsOrdinary(policy: Policy, st: LedgerState, e: nat)
    requires Inv(policy, st) && e < |st.records| && st.records[e].request.operation.CreateBranch?
    ensures st.records[e].purpose.Execute?
  {
    assert AnchoredRecord(st.chain, st.records, e);
  }
}
