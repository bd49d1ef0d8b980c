# Roundwright: a verified model of its hard core

Roundwright coordinates automated work on a repository. Its risky steps are
guarded by small state machines: a policy-bounded mutation coordinator with a
receipt chain (the canary), a versioned dependency graph that is re-derived on
every read, the selection of runnable work from that graph, the repair and
acceptance transactions of candidate review, and two loops over external
providers that must survive a crash at any point. This project models those
machines in Dafny and proves what every step, every run and every restart keeps.

Conventions of the model:

- A digest is the value it covers, an injective constructor (or, for inventory
  items, any injective function), so "same digest" means "same content" and a
  receipt chain can neither loop nor return to an earlier head.
- The broker, the lease, the adapter, providers, clocks and stores that can fail
  are parameters: every theorem holds for all their answers, errors included.
- SQL tables are maps, each `BEGIN IMMEDIATE` block is one step, and a raised
  error is a rolled-back step. Each public call of the canary orchestrator is one
  step too.
- Identifiers that the source sorts as strings are their ranks, natural numbers.
- Code that updates state in place is a class or a method with loops, proved equal
  to a specification function; the theorems are about those functions and their runs.

Files: `Prelude`; `CanaryPolicy`, `CanaryLedger`, `CanarySteps`, `CanaryHydration`,
`CanaryRuns`, `CanaryDispatch`, `CanaryStranded`, `CanaryExecution`; `GraphCycles`,
`GraphOrdering`, `GraphValidation`, `GraphStore`, `GraphReplay`, `GraphRuns`,
`GraphWitness`; `Selection`, `SelectionLaws`; `SourceScan`, `SourceNormalize`; `RepairRoutes`;
`Acceptance`, `AcceptanceRuns`, `AcceptanceRevival`, `AcceptanceWitness`; `ToolExchange`;
`Failover`.

Six properties that one might expect turn out not to hold of the code as it is;
each has a lemma that shows it and a lemma with the exact condition, a test on the
state or the input before the call:

- A restart from the latest snapshot is refused on some reachable ledgers, even
  with an exclusive lease (`CanaryStranded.RestartCanBeRefused`); it succeeds
  exactly when no unverified record is bound to a superseded head
  (`CanaryHydration.RestartExactlyWhenNoneSuperseded`).
- The label `dependency-blocked` depends on the order of the edges
  (`SelectionLaws.LabelDependsOnEdgeOrder`); `SelectionLaws.LabelIsStableExactly`
  says when it does not.
- An acceptance that was taken away can come back (a whole run in
  `AcceptanceWitness.SomeAcceptanceIsRevived`), but not always while its evidence
  stays current (`AcceptanceWitness.SomeAcceptanceIsGone`). Whatever takes it away
  leaves the review lost (`AcceptanceRevival.LosingIsLost`). A recovery outcome is
  written once, so a lost review can be accepted again exactly while its digest covers
  the evidence recorded by then and its attempt is not invalidated with an outcome
  other than identity drift (`AcceptanceRevival.RevivableExactly`, and over whole runs
  `AcceptanceRevival.OnceAcceptedRevivableExactly`), even when another review has won
  the round meanwhile. Recovery under the persisted context closes any accepted or
  staled attempt without an outcome (`AcceptanceRevival.MatchingRecoveryCloses`).
- A resumed failover does not check that its route names the request it leads
  from (`Failover.ResumeIgnoresSource`); it agrees with the uninterrupted run exactly
  when the route does name it, or the resumed call is refused before it consumes the
  route (`Failover.ResumeAgreesExactly`).
- The failover loop by itself does not bound its dispatches: a request whose dispatch
  raises is dispatched again by every call that resumes it, though each is told the
  truth (`Failover.WithoutClaimsUnbounded`). With the one-shot claim before each
  dispatch there are at most three (`Failover.AtMostThreeDispatches`), and no request
  is dispatched twice whatever the calls are told (`Failover.NoRequestTwice`).
- The claim on a repair route is not always freed (`RepairRoutes.CrashAbandons`): it
  can be freed exactly while the process that made it is still there to do so
  (`RepairRoutes.FreeableExactly`).

## Model

| member | source | states |
|---|---|---|
| CanaryPolicy.DifferencesDecideOneCall | src/roundwright/canary_policy.py:563-576 | the test on the list of count differences holds exactly when one requested operation rose by one and no other count changed |
| CanaryPolicy.ValidateReceiptChain | src/roundwright/canary_policy.py:549-578 | the loop returns a head exactly for valid genesis-to-head chains, and it is the last receipt |
| CanaryPolicy.CallsAreCounted | src/roundwright/canary_policy.py:461-578 | in a valid chain the total of the i-th receipt's counts is i |
| CanaryPolicy.HeadsNeverRecur | src/roundwright/canary_policy.py:461-578 | two positions of a valid chain with the same digest are the same position |
| CanaryPolicy.ChainWithinBudget | src/roundwright/canary_policy.py:181-202 | a valid chain has at most `total_calls` calls and no operation exceeds its own limit |
| CanaryPolicy.AuthorizeCanaryRequest | src/roundwright/canary_policy.py:414-457 | the request check returns exactly the specified authorization or the first applicable refusal, an absent prior digest and an unavailable operation mapping included |
| CanaryPolicy.AuthorizedFitsBudget | src/roundwright/canary_policy.py:439-457 | an authorized request can always be followed by one more receipt within every limit |
| CanaryPolicy.ExtendedChain | src/roundwright/canary_policy.py:529-546 | advancing the head of a valid chain gives a valid chain |
| CanaryLedger.ReserveKeeps | src/roundwright/canary_execution.py:318-344 | a reservation of a new delivery at the live head keeps the ledger invariant |
| CanaryLedger.ReplaceKeeps | src/roundwright/canary_execution.py:346-379 | changing the state of an unverified record keeps the ledger invariant |
| CanaryLedger.VerifyKeeps | src/roundwright/canary_execution.py:346-379 | verifying a record at the live head extends chain and records together: bijection, anchors and uniqueness stay |
| CanarySteps.StepKeeps | src/roundwright/canary_execution.py:714-888 | every public call, for every lease and broker answer, keeps the invariant, and records only evolve as their state machine allows |
| CanaryRuns.Run | src/roundwright/canary_execution.py:404-481 | any sequence of calls and restarts keeps the invariant and only evolves the ledger |
| CanaryRuns.EveryRunIsAccounted | src/roundwright/canary_execution.py:346-379 | from a fresh ledger, after every run: valid chain, verified records and non-genesis receipts in bijection, each bound to its predecessor and to the operation whose count rose, all counts within budget |
| CanaryRuns.FinalRecordsStay | src/roundwright/canary_execution.py:801-840 | verified, preserved and superseded records never change again in any run |
| CanaryRuns.RepeatedDeliveryConverges | src/roundwright/canary_execution.py:730-742 | a (request, purpose) pair begun once is never begun again in any later state: nothing changes, nothing is asked, the retained receipt is returned |
| CanaryRuns.ReversalFollowsCreation | src/roundwright/canary_execution.py:551-588 | every verified rollback or cleanup deletes the branch created, with the same paths, by the verified execution right before it, so no reversal follows a reversal |
| CanaryDispatch.TwoPerHead | src/roundwright/canary_execution.py:790-850 | with one claim granted per consumption key, at most two dispatches at each chain head |
| CanaryDispatch.DispatchBound | src/roundwright/canary_execution.py:381-402 | over a whole run with restarts: at most two dispatches per head and at most 2 x `total_calls` |
| CanaryDispatch.LeftBehindForGood | src/roundwright/canary_execution.py:814-850 | once the chain has moved past its head, a record is never dispatched or verified again |
| CanaryHydration.RequireBijection | src/roundwright/canary_execution.py:516-588 | the two loops of the bijection check accept exactly the ledgers that satisfy bijection, anchoring, authorization and reversal |
| CanaryHydration.HydrateRecords | src/roundwright/canary_execution.py:614-667 | the record loop succeeds exactly when every record is admitted and no delivery repeats, and rebuilds all records in order |
| CanaryHydration.HydrateChain | src/roundwright/canary_execution.py:484-513 | the chain part succeeds exactly when every receipt agrees with its payload and the chain validates |
| CanaryHydration.Hydrate | src/roundwright/canary_execution.py:440-481 | `hydrate` accepts a snapshot exactly when the ledger it describes satisfies the whole invariant and holds no superseded record, and returns that ledger |
| CanaryHydration.SealThenRebuild | src/roundwright/canary_execution.py:404-437 | sealing and rebuilding gives the same ledger back |
| CanaryHydration.RestartExactlyWhenNoneSuperseded | src/roundwright/canary_execution.py:661-662 | for every ledger with the invariant, the round trip succeeds exactly when no unverified record is bound to a superseded head |
| CanaryStranded.RestartCanBeRefused | src/roundwright/canary_execution.py:661-662 | some run with an exclusive lease reaches a ledger whose restart is refused |
| CanaryExecution.Ledger.Reserve | src/roundwright/canary_execution.py:318-344 | the mutable ledger after a reservation, or the existing record, a conflict, or an unbuildable receipt |
| CanaryExecution.Ledger.Update | src/roundwright/canary_execution.py:346-379 | the mutable ledger after a state update; unchanged when the receipt does not fit; half done, with the chain already extended, when the new execution receipt is invalid |
| CanaryExecution.Ledger.ConsumeRetry | src/roundwright/canary_execution.py:381-402 | a retry allowance is consumed at most once |
| CanaryExecution.Ledger.SealedState | src/roundwright/canary_execution.py:404-437 | the snapshot of the current ledger |
| CanaryExecution.Ledger.FromSnapshot | src/roundwright/canary_execution.py:440-481 | a new ledger object exactly for hydratable snapshots |
| CanaryExecution.Orchestrator.Begin | src/roundwright/canary_execution.py:730-799 | `_begin` keeps the invariant and leaves exactly the specified state, result and events |
| CanaryExecution.Orchestrator.ReadBack | src/roundwright/canary_execution.py:852-888 | `_readback` likewise, for every readback or failure to read |
| CanaryExecution.Orchestrator.Reconcile | src/roundwright/canary_execution.py:801-812 | `reconcile` likewise |
| CanaryExecution.Orchestrator.Retry | src/roundwright/canary_execution.py:814-840 | `retry` likewise |
| GraphCycles.Search.Visit | src/roundwright/dependency_graph.py:598-607 | the recursive visit terminates; a hit means a cycle, no hit extends a topological order by everything reachable |
| GraphCycles.HasCycle | src/roundwright/dependency_graph.py:590-609 | true exactly when the edges contain a non-empty closed path |
| GraphCycles.OrderedIsAcyclic | src/roundwright/dependency_graph.py:590-609 | a topological order of all members excludes every cycle |
| GraphValidation.Validate | src/roundwright/dependency_graph.py:295-356 | the validator's loops compute exactly the specified verdict, or raise exactly when the subset belongs to another binding |
| GraphValidation.AcceptedFits | src/roundwright/dependency_graph.py:318-356 | accepted edges cover only the subset, repeat no pair of the baseline or of themselves, and close no cycle with it |
| GraphValidation.ProvenShape | src/roundwright/dependency_graph.py:331-347 | proven edges are the canonical pairs of the proposal, in order, under its identifier |
| GraphStore.VerifyVersion | src/roundwright/dependency_graph.py:511-564 | the recursive reader terminates on every table and equals its specification |
| GraphStore.Transact | src/roundwright/dependency_graph.py:380-462 | one activation transaction equals its specification: drift, replay, verdict, stored version |
| GraphStore.Store.ActivateProposal | src/roundwright/dependency_graph.py:380-462 | the store after an activation, unchanged when it fails |
| GraphReplay.NextHealthy | src/roundwright/dependency_graph.py:566-581 | replacing one task's subgraph in a healthy graph by accepted edges gives a healthy graph |
| GraphReplay.NextProposals | src/roundwright/dependency_graph.py:566-572 | the proposal identifiers of the next snapshot are those of its edges |
| GraphReplay.ReadsBack | src/roundwright/dependency_graph.py:497-509 | reading a healthy version row returns exactly what was written |
| GraphReplay.DerivedReplays | src/roundwright/dependency_graph.py:511-564 | replaying the decision of a derived version reproduces its own edges, digest, members and snapshot |
| GraphReplay.EveryVersionVerifies | src/roundwright/dependency_graph.py:511-564 | under the store invariant every version verifies along its predecessor chain |
| GraphReplay.CurrentIsReadable | src/roundwright/dependency_graph.py:479-484 | the reader accepts the current version and returns exactly what was stored |
| GraphReplay.ActivationKeeps | src/roundwright/dependency_graph.py:380-462 | every activation, of any proposal under any binding, keeps the store invariant |
| GraphRuns.EveryRunReplays | src/roundwright/dependency_graph.py:497-581 | after every run of activations the replay reader accepts and returns what activation stored |
| GraphRuns.EveryCurrentVersionIsHealthy | src/roundwright/dependency_graph.py:436-446 | every version ever current is acyclic, names members and pairs once, has its endpoints among its members, and stays stored unchanged |
| GraphRuns.AcceptedVersionEdges | src/roundwright/dependency_graph.py:566-581 | an accepted version holds exactly its own edges and, while the binding is unchanged, every active edge that touches none of the task's old members |
| GraphRuns.ActivationIsIdempotent | src/roundwright/dependency_graph.py:408-425 | activating again in the same way changes nothing and reports the same decision |
| GraphWitness.SomeVersionBecomesCurrent | src/roundwright/dependency_graph.py:380-462 | some run stores a version with an edge and makes it current |
| Selection.SelectRunnable | src/roundwright/configured_source.py:797-850 | the result holds the content behind the inventory and graph digests, one decision for each item in order with exactly the declared blockers, and exactly the eligible identifiers, ascending |
| Selection.UnblockedMeansEligible | src/roundwright/configured_source.py:808-847 | an item has no blocker exactly when it is unambiguous, uniquely membered, not held by owner or graph, and the subject of no edge |
| Selection.EdgeBody | src/roundwright/configured_source.py:837-846 | one edge adds to every item of its subject exactly what the declared rule says |
| SelectionLaws.SelectionIgnoresOrder | src/roundwright/configured_source.py:797-850 | the runnable sequence is the same for every order of items and edges |
| SelectionLaws.LabelDependsOnEdgeOrder | src/roundwright/configured_source.py:843-845 | two orders of the same edges give one item different labels |
| SelectionLaws.LabelIsStableExactly | src/roundwright/configured_source.py:843-845 | the label is the same for all orders exactly when a dependency is held anyway or no dependency has edges |
| SelectionLaws.AcyclicNeverDeadlocks | src/roundwright/configured_source.py:797-850 | a matching inventory over an acyclic graph always has an eligible item |
| SelectionLaws.AcceptedGraphNeverDeadlocks | src/roundwright/dependency_graph.py:318-319 | after every run of activations, selection over the served graph and an exactly matching inventory is never empty |
| SourceScan.ScanSource | src/roundwright/configured_source.py:742-766 | at most `max_pages` reads, no cursor asked for twice, and success exactly when some number of good pages ends the source within bounds without a repeated item |
| SourceScan.ScanAll | src/roundwright/configured_source.py:737-768 | all sources in turn, exactly when each delivers from where the one before it stopped; total reads within the pages allowed |
| SourceScan.ScanIsDetermined | src/roundwright/configured_source.py:737-768 | the answers determine the observations |
| SourceNormalize.Normalize | src/roundwright/configured_source.py:771-794 | one item for each combination of mechanical identity, member and content, in order, with its sorted sources, ambiguous exactly when it is not determined |
| SourceNormalize.NormalizeObservations | src/roundwright/configured_source.py:771-794 | the same from the observations of the sources: every scanned item becomes a record, the digests of all observations are kept, and the sources of all items add up to the scanned items |
| SourceNormalize.AmbiguousMeansUndetermined | src/roundwright/configured_source.py:783-788 | the set sizes taken over a group decide whether mechanical identity, member and content determine each other |
| SourceNormalize.NormalizationConserves | src/roundwright/configured_source.py:771-794 | the lengths of all source lists add up to the number of records |
| SourceNormalize.NormalizationIgnoresOrder | src/roundwright/configured_source.py:771-794 | the items depend only on the multiset of records |
| SourceNormalize.NormalizedIsValidInventory | src/roundwright/configured_source.py:688-706 | normalized items always have distinct identifiers |
| RepairRoutes.NextKeeps | src/roundwright/candidate_review.py:403-455 | every step of every process, and every crash, keeps the invariant of routes, attempts and claims |
| RepairRoutes.RoutesAndAttemptsAgree | src/roundwright/candidate_review.py:1246-1266 | after every interleaving an attempt names a route exactly when the route records it, and no two attempts share a route |
| RepairRoutes.ConsumedOnceForAll | src/roundwright/candidate_review.py:1261-1266 | a consumed route keeps its consumer in every continuation |
| RepairRoutes.ClaimsOfOthersStay | src/roundwright/candidate_review.py:1306-1322 | whatever any other process does, a process that holds a claim keeps it |
| RepairRoutes.CrashAbandons | src/roundwright/candidate_review.py:411-455 | a process that stops while it holds a claim leaves the claim behind |
| RepairRoutes.AbandonedClaimStays | src/roundwright/candidate_review.py:1269-1322 | a claim left by a stopped process is never freed or consumed |
| RepairRoutes.FreeableExactly | src/roundwright/candidate_review.py:1269-1322 | some continuation frees a claim exactly when the process that made it has not stopped |
| RepairRoutes.RepairStore.FindLatest | src/roundwright/candidate_review.py:1232-1243 | the newest unconsumed route of the task, or none exactly when there is none |
| RepairRoutes.RepairStore.ClaimParent | src/roundwright/candidate_review.py:1269-1303 | the claim transaction on the tables, refused without standing (lease and task state) |
| RepairRoutes.RepairStore.Dispatch | src/roundwright/candidate_review.py:425-447 | the transaction that inserts the attempt and consumes its route, or rolls back, also without standing |
| RepairRoutes.RepairStore.Release | src/roundwright/candidate_review.py:1306-1322 | only a claim with the caller's own token is cleared, and only with standing |
| Acceptance.ReviewStore.RecordVerification | src/roundwright/candidate_review.py:571-602 | evidence grows, and the loop stales exactly the accepted reviews of older evidence in all layers; nothing changes without standing (control, lease, task state and candidate) |
| Acceptance.ReviewStore.AcceptPass | src/roundwright/candidate_review.py:1436-1509 | the acceptance transaction, its refusals, among them missing standing and an unrecordable dispatch, and its staling of mismatched output |
| Acceptance.ReviewStore.RecoverAttempt | src/roundwright/provider_recovery.py:1522-1558 | the recovery transaction: the decision for every state of the attempt, the staling of an accepted one, and the outcome that is written once or conflicts and rolls everything back |
| Acceptance.AcceptKeeps | src/roundwright/candidate_review.py:1436-1509 | acceptance keeps the layers in lockstep and one review per round |
| Acceptance.VerifyKeeps | src/roundwright/candidate_review.py:571-602 | recording evidence keeps the layers in lockstep on current evidence |
| Acceptance.StaleKeeps | src/roundwright/candidate_review.py:1183-1186 | staling keeps the layers in lockstep |
| Acceptance.RecoverKeeps | src/roundwright/provider_recovery.py:1522-1558 | recovery, for every context, evidence and lease, keeps the layers in lockstep |
| AcceptanceRuns.LayersAgree | src/roundwright/candidate_review.py:1436-1509 | after every run the review row, the provider attempt and the accepted row agree, and acceptance rests on a recorded PASS and the current snapshot |
| AcceptanceRuns.OneAcceptedPerRound | src/roundwright/candidate_review.py:1464-1469 | after every run at most one accepted review for each task, epoch and round |
| AcceptanceRuns.OutgrownForGood | src/roundwright/candidate_review.py:1645-1650 | once evidence has grown past its digest a review is not accepted and never will be |
| AcceptanceRuns.LosingAcceptanceSpends | src/roundwright/provider_recovery.py:1749-1754 | whatever takes an acceptance away leaves the attempt ambiguous, blocked or invalidated |
| AcceptanceRuns.LostStaysLost | src/roundwright/provider_recovery.py:1688-1696 | an acceptance taken away stays lost in every run in which no recovery presents the attempt's completion evidence |
| AcceptanceRuns.ReverificationRevives | src/roundwright/provider_recovery.py:1522-1550 | with no outcome on record but identity drift, recovery under a drifted context followed by verified recovery and an exact replay accepts the review again |
| AcceptanceRevival.LosingIsLost | src/roundwright/candidate_review.py:586-601 | every step that takes an acceptance away leaves the review lost: recorded with its PASS, pointed to by its complete attempt, with a digest over both kinds of evidence |
| AcceptanceRevival.ClosedForGood | src/roundwright/provider_recovery.py:1785-1799 | in every run an attempt that is invalidated with an outcome other than identity drift stays so |
| AcceptanceRevival.MatchingRecoveryCloses | src/roundwright/provider_recovery.py:1683-1708 | recovery under the persisted context of an accepted or invalidated attempt that has no outcome on record leaves the review lost for good, with its evidence as current as before |
| AcceptanceRevival.RevivableExactly | src/roundwright/provider_recovery.py:1522-1550 | some continuation accepts a once accepted review exactly when its digest covers exactly the evidence recorded now and its attempt is not invalidated with an outcome other than identity drift |
| AcceptanceRevival.OnceAcceptedRevivableExactly | src/roundwright/candidate_review.py:1436-1509 | over whole runs from empty tables: once accepted, a review is later accepted or lost, and can be accepted again exactly while its evidence is current and its attempt is not closed |
| AcceptanceRuns.VerifyLeavesOthers | src/roundwright/candidate_review.py:586-601 | recording evidence of one candidate touches the acceptance of no other |
| AcceptanceWitness.SomeAcceptanceIsRevived | src/roundwright/provider_recovery.py:1522-1548 | one run from empty tables accepts a review, takes the acceptance away and accepts it again |
| AcceptanceWitness.SomeAcceptanceIsGone | src/roundwright/provider_recovery.py:1540-1550 | one run from empty tables after which a once accepted review has current evidence and yet is accepted in no continuation |
| ToolExchange.CodingStore.RecordSubmission | src/roundwright/coding_worker_state.py:112-128 | the transitions of a submission row, and every conflict |
| ToolExchange.FinalSubmissionStays | src/roundwright/coding_worker_state.py:112-128 | a submitted or uncertain submission is never changed by any later record |
| ToolExchange.CodingStore.ClaimEffect | src/roundwright/coding_worker_state.py:72-94 | permission for an effect at most once for each sequence |
| ToolExchange.CodingStore.Append | src/roundwright/coding_worker_state.py:129-141 | a tool event is written once, and a repetition with other content conflicts |
| ToolExchange.CodingStore.Perform | src/roundwright/worker_toolbox.py:1080-1147 | the tool callback: refused while reconciliation is due; each effect claimed before it is performed, performed once, and logged; a replayed claim logs an ambiguous event and performs nothing |
| ToolExchange.CodingStore.ConsumeSteps | src/roundwright/codex_worker.py:628-665 | at most 32 rounds with intents 1, 2, ...; wherever the process stops after a handover that is not settled, the store asks for reconciliation; an answer only after nothing but smooth rounds, and, with no submission or event on record before, whenever there are such rounds |
| ToolExchange.CodingStore.Dispatch | src/roundwright/codex_worker.py:507-620 | refused while reconciliation is due; dispatch claim, session and turn are recorded in this order before the first read; how every failure of the prologue ends; a response only when the prologue runs and the exchange answers, and then always if no submission or event was on record |
| ToolExchange.StoppedWhileExposed | src/roundwright/coding_worker_state.py:95-111 | stopping after a handover and before its settlement leaves reconciliation required |
| ToolExchange.UnclaimedIsUnperformed | src/roundwright/coding_worker_state.py:72-94 | in an ordered trace an effect whose claim is not in the store was never performed |
| ToolExchange.GuardedNext | src/roundwright/codex_worker.py:641-663 | inside the bracket of intent and settlement every next action keeps every exposed handover visible in the store |
| Failover.DispatchOrdered | src/roundwright/codex_supervisor.py:482-633 | the failover loop with its resume prologue equals its specification |
| Failover.AtMostThreeDispatches | src/roundwright/codex_supervisor.py:502-633 | over a call and all calls after it, whatever became of each, told of no more results than there were dispatches, under one-shot claims: at most three dispatches, at (1,0), (1,1), (1,2) on one profile, each once, each after the first right after its authorization is consumed |
| Failover.NoRequestTwice | src/roundwright/supervisor_shadow.py:1009-1022 | under one-shot claims no request is dispatched twice, whatever number of results the calls are told of |
| Failover.WithoutClaimsUnbounded | src/roundwright/codex_supervisor.py:597-604 | without claims, for every k, k truthful calls that dispatch the same request k times |
| Failover.ResumeAgrees | src/roundwright/codex_supervisor.py:518-533 | resuming after n format-invalid results ends as the uninterrupted run and does exactly the rest of it, when the route names its source; otherwise the uninterrupted run raises there |
| Failover.ResumeAgreesExactly | src/roundwright/codex_supervisor.py:518-533 | the resumed call ends as the uninterrupted run and does exactly the rest of it if and only if the route names its source or the resumed call is refused before it consumes the route |
| Failover.ResumeIgnoresSource | src/roundwright/codex_supervisor.py:525-530 | two requests and a route on which the uninterrupted run raises and the resumed one dispatches |

## Left out

- SHA-256, JSON canonical forms, token, path and digest patterns, and type checks: digests are injective values and tokens are abstract.
- SQLite mechanics, migrations, connections and error normalization; uniqueness that the schema enforces appears as a failing step.
- Threads and the lock of the canary ledger: public calls are atomic, and nothing is claimed for finely interleaved `reconcile` calls.
- Object identity of canary transition records: records are values found by position, so an update through a stale reference is not modelled.
- The dependency-review store: attempts, proposals, lineage and authentication are read-only tables that only grow; the trusted relations of an attempt are part of its row.
- `GraphRuns.Event`: a review table that loses or rewrites accepted evidence is excluded, since the source only appends to it.
- GraphValidation.Validate: the order of members and edges is given by ranks of their identifiers; subset, owner route and disposition fields that no branch reads are omitted.
- SourceNormalize.Normalize: visits groups in any order, because the final sort makes the result independent of it.
- RepairRoutes.NextKeeps: lease, task-state and provider-preparation checks are one arbitrary outcome per step (the parameter `standing` of the store methods), and a claim token is assumed never to repeat.
- Acceptance.AcceptKeeps: scope, lease, task-state and native-dispatch checks are the parameters `standing` and `recordable` of the store methods; runtime columns are omitted.
- AcceptanceRevival.RevivableExactly: a continuation is one in which the checks from outside the review tables still hold (lease, task state, open scope, fresh health authorization, live candidate); once one of them fails for good, nothing is accepted any more.
- ToolExchange.CodingStore.Dispatch: the rows are those of one implementation attempt; feedback budgets, the planning path without tools and the classification of a response are omitted, and an error raised in the exchange is the adapter's own or not, by the script.
- Failover.AtMostThreeDispatches: a call that is told of more results than there were dispatches is not bounded by three, only by `Failover.NoRequestTwice`; each request stands for its own attempt, so claims are kept by its index.
- Failover: reservation recovery, release and abandonment of routes are folded into whether a reservation or consumption succeeds.
- Credential, authority and capability sealing, endpoint identities, configuration loading, coding tools, the command line and the continuous-integration scripts: equality checks or I/O that would add only easy members.
