# Cortex: routing, metering and durability, verified

A Dafny model of the parts of Cortex whose correctness spans many calls: credit metering and the tables under it, the smart-routing attempt loop, the durability protocol of Work runs, response revisions, conversation trimming and the generation-budget ladder. Database tables are maps or sequences held in classes, each database function is one atomic method, and every method is proved equal to a step function on plain values. The results are lemmas about those steps: about every run, every interleaving and every behaviour of the outside world.

`dafny verify dfyconfig.toml` checks everything.

| part | files |
|---|---|
| vocabulary | `Prelude.dfy`, `Sequences.dfy` |
| credit metering | `UsageTables.dfy`, `Metering.dfy`, `MeteringProperties.dfy`, `MeteringRuns.dfy`, `MeteringOutcomes.dfy`, `UsageStore.dfy` |
| other billing tables | `CreditLedger.dfy`, `Reconciliation.dfy`, `SettledLedger.dfy`, `Subscriptions.dfy`, `UsagePeriods.dfy`, `UsagePeriodWrites.dfy` |
| smart routing | `Routing.dfy`, `TierDecider.dfy`, `FallbackManager.dfy`, `ModelRegistry.dfy`, `ModelSelector.dfy`, `SmartRouter.dfy`, `ResponseValidator.dfy` |
| the attempt loop | `AttemptLoop.dfy`, `AttemptLoopProperties.dfy`, `AttemptLoopReach.dfy`, `AttemptLoopEnding.dfy`, `TargetPlan.dfy`, `SmartRun.dfy`, `PlanCoverage.dfy`, `LostAnswers.dfy`, `RoutingTrace.dfy` |
| Work runs | `WorkEvents.dfy`, `WorkApprovals.dfy`, `WorkApprovalWrites.dfy`, `WorkLeases.dfy` |
| responses and requests | `ResponseRevisions.dfy`, `Conversation.dfy`, `GenerationPolicy.dfy`, `GenerationOutcomes.dfy` |

How the larger parts are argued:

- **Metering.** `Consistent` says that every counter is the sum of what the reservations say it should be. Each service operation is a step that keeps it, so the errors for inconsistent counters cannot occur, and the class methods, which write counters and rows separately as the source does, are proved equal to the steps.
- **Attempt loop.** `Lawful` describes, without loop variables, which records a run may leave. The loop is proved to end and to leave only lawful records, whatever authoriser, providers, validator and clock do; all results about runs are proved about every lawful record.
- **Work runs and revisions.** A world holds the tables together with what callers carry between transactions (a reader's cursor, a regeneration read before its insert). Every interleaving of steps is covered.

Findings, each with its exact condition:

- A run that had a usable answer returns an error exactly when a later attempt failed with no attempt, no time or no other model of the tier left; only running out of candidates falls back on the earlier answer (`LostAnswers.UsableAnswerIsLostIff`, `LostAnswers.UsableAnswerCanBeLost`). With the real validator some behaviour of the outside world loses an answer exactly if two attempts are allowed and two models within reach (`LostAnswers.SettingCanLoseIff`, `LostAnswers.RealSettingCanLoseIff`).
- The climb through the tiers comes to an end exactly when the configured order, from the starting tier on, repeats no earlier tier (`ModelRegistry.ClimbEndsIff`). A run in which everybody is denied ends exactly then, or if the climb passes a tier without candidates (`AttemptLoopEnding.LoopEndsIff`).
- Approvals and tool calls stay coupled exactly while every step is safe: no report of progress against a pending approval, no second approval for a call whose earlier one is resolved (`WorkApprovals.CoupledThroughoutIff`, `WorkApprovals.ReportCanBreakTheCoupling`, `WorkApprovals.SecondAskCanBreakTheCoupling`). The service issues both without a look at the approvals.
- Reopening an expired approval wipes a completion time its call had before, as a call has whose approval was reopened after the tool had run (`WorkApprovals.SweepThenReopenRestoresIff`, `WorkApprovals.ReopenedCallCanBeFinished`, `WorkApprovals.SweepCanLoseACompletion`).
- Step-by-step trimming keeps what trimming the whole history keeps, exactly until the cut reaches a system message added in mid-conversation; that one takes the head and stays (`Conversation.TrimmingIsExactIff`, `Conversation.HeadStays`, `Conversation.SystemAddIsPromoted`).
- "Reasoning on" is ignored exactly by a provider without rules of its own whose default mode, or for want of one whose wanted effort, says no (`GenerationPolicy.SwitchIsHonoured`, `GenerationPolicy.OnCanBeIgnored`).
- An accepted ledger replay is answered with its own line exactly when account and period agree, which the replay check does not compare (`CreditLedger.ReplayConfirmsItselfIff`, `CreditLedger.ReplayCanConfirmAnother`). Neither caller can bring this about: both pass their reservation's own account and period (`CreditLedger.CallersAreConfirmedThemselves`).
- The same ledger write twice is refused the second time exactly when its provider cost has more than eight decimals, which a cut item's cost can have (`CreditLedger.IdenticalReplayIsConfirmedIff`, `CreditLedger.IdenticalReplayCanBeRefused`).
- A plan made without the runtime messages covers every run with them exactly when no attempt is allowed or each tier from the run's own up to below the first empty one is a configured one in which the plan turned nobody away or somebody fits the run; otherwise some run invokes a model outside the plan (`PlanCoverage.RequestIsCoveredIff`, `PlanCoverage.PlanCanMissAModel`). With a cost ceiling the condition is that whoever is in the running for the run is so for the plan (`PlanCoverage.PlanCoversRunsIff`).

## Model

| member | source | states |
|---|---|---|
| `UsageStore.NormalizeQuantities` | db/billing_repository.py:108-135 | the loop over the meters refuses exactly the mappings with an unknown meter or a bad amount, and otherwise keeps exactly the positive amounts |
| `Metering.NormalizedIsIdempotent` | db/billing_repository.py:108-135 | a mapping already normal passes unchanged, so normalising twice is normalising once |
| `UsageStore.Store.ReserveUsageQuantities` | db/billing_repository.py:816-848 | succeeds exactly when every counter exists; then each counter holds exactly its amount more and no other counter moves |
| `UsageStore.Store.SettleUsageQuantities` | db/billing_repository.py:851-898 | succeeds exactly when nothing exceeds the request and every counter still holds what was reserved; then reserved amounts leave and successful ones become used |
| `UsageStore.Store.ReleaseUsageQuantities` | db/billing_repository.py:901-935 | succeeds exactly when every counter still holds the amounts, which then leave the reserved side and are used by nobody |
| `UsageStore.Store.UpdateRequestedQuantities` | db/billing_repository.py:1069-1101 | only a row still reserved is enlarged; otherwise nothing is written |
| `UsageStore.Store.SettleUsageReservation` | db/billing_repository.py:1104-1157 | every outcome of a row settlement: unknown, too much, confirmed, conflicting, wrong state, or written once |
| `UsageStore.Store.ReleaseUsageReservation` | db/billing_repository.py:1160-1196 | a released row only confirms, a terminal row is refused, a reserved row is released |
| `UsageStore.Store.ExpireUsageReservation` | db/billing_repository.py:1199-1225 | exactly the reserved rows expire, anything else leaves the table as it was |
| `UsageStore.Store.TouchUsageReservationActivity` | db/billing_repository.py:1042-1066 | a heartbeat refreshes exactly the reserved rows named and counts them |
| `UsageStore.Store.ReserveUsage` | server/billing/metering_service.py:217-295 | the statements of a reservation, counters first and row second, amount to the atomic reserve step, errors included |
| `UsageStore.Store.SettleUsage` | server/billing/metering_service.py:323-392 | the statements of a settlement amount to the atomic settle step, errors included |
| `UsageStore.Store.SettleUsageWithSupplement` | server/billing/metering_service.py:395-538 | enlarging first and settling second amounts to one atomic step that bills at most what is reserved |
| `UsageStore.Store.SupplementUsageReservation` | server/billing/metering_service.py:541-588 | counter and row are enlarged by the same amount, within what the allowance has left, or not at all |
| `UsageStore.Store.ReleaseUsage` | server/billing/metering_service.py:591-628 | the statements of a release amount to the atomic release step, errors included |
| `UsageStore.Store.ExpireStaleReservations` | server/billing/metering_service.py:631-677 | the loop over a batch equals expiring its rows one by one in order, stopping at the first failure |
| `MeteringProperties.AgreementHolds` | server/billing/metering_service.py:309-320 | while counters agree with rows, the counters of a reserved row exist and hold at least what it reserved |
| `MeteringProperties.SettleKeepsAgreement` | server/billing/metering_service.py:323-392 | settling keeps every counter equal to the sum over the rows, and its "inconsistent counters" error never occurs |
| `MeteringProperties.ReleaseKeepsAgreement` | server/billing/metering_service.py:591-628 | releasing keeps the sums, and its "inconsistent counters" error never occurs |
| `MeteringProperties.ExpireKeepsAgreement` | server/billing/metering_service.py:631-677 | expiring any batch keeps the sums, and a batch of distinct stale rows is expired completely |
| `MeteringProperties.SupplementKeepsAgreement` | server/billing/metering_service.py:541-588 | enlarging keeps the sums; the configuration error means that the meter was never reserved |
| `MeteringProperties.SettleWithSupplementKeepsAgreement` | server/billing/metering_service.py:395-538 | the combined step keeps the sums, and billed plus unbilled is exactly the actual usage |
| `MeteringRuns.CountersAlwaysAgree` | db/billing_repository.py:816-935 | under every interleaving of reserve, supplement, settle, release, expire and touch, each used and reserved counter is the sum over the settled and reserved rows, and no row settles more than it requested |
| `MeteringProperties.AgreementIsNonnegative` | db/billing_repository.py:816-935 | agreeing counters are never negative |
| `MeteringRuns.TerminalRowsAreFinal` | db/billing_repository.py:1042-1225 | settled, released and expired rows are never written again by any later operation, touches included |
| `MeteringRuns.SettlementIsIdempotent` | server/billing/metering_service.py:323-392 | a settlement repeated after any run confirms if its non-zero amounts are the same, conflicts otherwise, and writes nothing |
| `MeteringRuns.ReleaseIsIdempotent` | server/billing/metering_service.py:591-628 | a release repeated after any run confirms and writes nothing |
| `MeteringRuns.AllowanceIsNeverExceeded` | server/billing/metering_service.py:217-295 | while no operation is granted more than a limit for a counter, used plus reserved never exceeds it and used never shrinks |
| `MeteringOutcomes.ReserveNew` | server/billing/metering_service.py:217-295 | a new request is answered, in this order, with a refusal of its quantities, of its configuration or of its amount, and granted exactly if the allowance has room |
| `MeteringOutcomes.ReserveAgain` | server/billing/metering_service.py:217-295 | the same request again is answered with its row and writes nothing; another one under its id conflicts |
| `MeteringOutcomes.ReserveWrites` | server/billing/metering_service.py:217-295 | a granted request is the one new row, with its account, period and amounts and nothing settled |
| `MeteringOutcomes.SettleAnswers` | server/billing/metering_service.py:323-392 | every answer to a settlement, by what the row is and what it reserved |
| `MeteringOutcomes.SettleWrites` | server/billing/metering_service.py:323-392 | the settled row holds the amounts and the time, and no other row is touched |
| `MeteringOutcomes.SettledBill` | server/billing/metering_service.py:395-538 | usage that the reservation covers or the allowance has room for is billed in full; of other usage exactly what was reserved is billed and nothing supplemented |
| `MeteringOutcomes.SettledBillWrites` | server/billing/metering_service.py:395-538 | the row is enlarged by what was supplemented and settled for what is billed; no other row is touched |
| `MeteringOutcomes.SettledBillOtherwise` | server/billing/metering_service.py:410-432 | a settled row is only read, its bill compared with the usage; unknown and closed rows are refused |
| `MeteringOutcomes.SupplementOutcome` | server/billing/metering_service.py:541-588 | true exactly if the row holds the target afterwards, which takes room in the allowance; only then is it written |
| `MeteringOutcomes.ReleaseOutcome` | server/billing/metering_service.py:591-628 | a reserved row is given back with reason and time; a released one confirms, any other is refused |
| `MeteringOutcomes.ExpireOutcome` | server/billing/metering_service.py:631-677 | a batch of stale rows is closed row by row and no other row is touched |
| `MeteringOutcomes.TouchOutcome` | db/billing_repository.py:1042-1066 | a heartbeat writes the activity time of the rows named that are still reserved, and nothing else |
| `MeteringOutcomes.CountersOutOfStep` | server/billing/metering_service.py:191-320 | whatever ends a reservation raises and writes nothing exactly if one of its counters is missing, negative or no longer holds what was reserved |
| `UsageTables.RowChangeKeepsAgreement` | db/billing_repository.py:816-935 | a row change keeps the sums when every counter moves by exactly that row's change of contribution |
| `CreditLedger.Ledger.CreateCreditTransaction` | db/billing_repository.py:1228-1371 | a line is written once, its cost rounded to the column; a replay returns the recorded line if the item is the same as stored and is refused otherwise |
| `CreditLedger.LedgerAfter` | db/billing_repository.py:1319-1371 | over any writes a recorded line never changes, and a new line is the first valid write for its key, as stored |
| `CreditLedger.ReplayChangesNothing` | db/billing_repository.py:1319-1371 | once the keys are recorded, replays in any order and multiplicity change nothing |
| `CreditLedger.DeliveryOrderIsIrrelevant` | db/billing_repository.py:1319-1371 | writes that agree per key leave the same ledger in every order and multiplicity |
| `CreditLedger.WritesCommuteIff` | db/billing_repository.py:1319-1371 | two writes commute unless both are valid, new, for one key and stored differently |
| `CreditLedger.IdenticalReplayIsConfirmedIff` | db/billing_repository.py:1364-1370 | the very same write again is confirmed exactly when its cost has no more than the eight decimals the column keeps, and is refused as recorded differently otherwise |
| `CreditLedger.IdenticalReplayCanBeRefused` | server/billing/enforcement_service.py:807-818 | a third of a cent, as cutting an item leaves it, is refused the second time |
| `CreditLedger.RoundedIsNearest` | db/migrations/20260729_add_unified_ai_credits.sql:23 | the stored cost is the nearest with eight decimals, the greater of two equally near |
| `CreditLedger.AnswerIff` | db/billing_repository.py:1260-1371 | a write is invalid exactly for an unknown type or anything negative; it contradicts exactly when a recorded item says otherwise; a new one is stored as it is, its cost rounded |
| `CreditLedger.ReplayConfirmsItselfIff` | db/billing_repository.py:1336-1371 | an accepted replay is answered with its own line exactly when account and period agree, which the comparison leaves out |
| `CreditLedger.ReplayCanConfirmAnother` | db/billing_repository.py:1336-1371 | one item written for two accounts: the second write is answered with the first account's line |
| `CreditLedger.CallersAreConfirmedThemselves` | server/billing/enforcement_service.py:771-781 | accepted writes that bear their reservation's own account and period, as both callers' do, are answered with their own line as stored |
| `Reconciliation.ReconcileTransactionItems` | server/billing/enforcement_service.py:786-868 | the loop, research first, cuts each item to what is left of the bill and books the rest of the cost as an adjustment |
| `Reconciliation.LinesAddUp` | server/billing/enforcement_service.py:786-868 | the lines' credits sum to the bill, or to the usage where that is less, and no provider cost is lost |
| `Reconciliation.PartsAreTheWhole` | server/billing/enforcement_service.py:806-846 | input, output and fixed credits of a reconciled line are its total, which is at most the calculated one |
| `Reconciliation.ResearchIsBilledFirst` | server/billing/enforcement_service.py:799-803 | items are billed research first, and within each kind in the order given |
| `Reconciliation.LinesInBillingOrder` | server/billing/enforcement_service.py:803-868 | every item has its line, cut with input before output and its cost in proportion; none is billed anything before all earlier ones are billed in full |
| `Reconciliation.SettledLinesSumToTheBill` | server/billing/enforcement_service.py:753-768 | settling an active reservation leaves ledger lines that sum to exactly what it was settled for |
| `SettledLedger.DueLinesAreHeld` | server/billing/enforcement_service.py:763-781 | after the writes due, with any repetitions and among writes for other reservations, the ledger holds each line once under its number |
| `SettledLedger.RecordedCreditsAreTheBill` | server/billing/enforcement_service.py:747-781 | the credits of the rows recorded for a reservation sum to exactly what it was settled for, whatever is replayed |
| `Subscriptions.SubscriptionTable.UpsertSubscriptionSnapshot` | db/billing_repository.py:324-392 | every outcome of a delivery: another account, another live subscription, an older snapshot, or the row written; a refusal writes nothing |
| `Subscriptions.BlockedIff` | db/migrations/20260718_add_b2c_billing_foundation.sql:52-54 | a snapshot is blocked exactly when it and another subscription of the account are in one of the six live statuses |
| `Subscriptions.TakenSnapshotIsTheRow` | db/billing_repository.py:324-392 | a snapshot taken is the row, dated with the clock, under the id the row had or the new one; a stale one writes nothing |
| `Subscriptions.AccountNeverChanges` | db/billing_repository.py:324-392 | whatever is delivered, a subscription keeps its account and row id |
| `Subscriptions.OneLivePerAccountAlways` | db/migrations/20260718_add_b2c_billing_foundation.sql:52-54 | no account ever has two live subscriptions |
| `Subscriptions.StreamStoresTheWinner` | db/billing_repository.py:324-392 | after any stream of timestamped snapshots the row is the latest one, and no other row has moved |
| `Subscriptions.DeliveryOrderDoesNotMatter` | db/billing_repository.py:324-392 | with one snapshot per event time, every order and duplication of the deliveries stores the snapshot with the greatest event time |
| `Subscriptions.EqualTimesGoToTheLastDelivered` | db/billing_repository.py:347-356 | two deliveries depend on their order exactly when they differ and bear the same event time |
| `Subscriptions.TableStoresTheWinner` | db/billing_repository.py:324-392 | whatever timestamped snapshots are delivered for whichever accounts, a row holds the latest of what it held and of its own deliveries that neither the index nor another owner turned away |
| `Subscriptions.InterleavedStreamStoresTheWinner` | db/billing_repository.py:324-392 | while no other subscription of the account is or goes live, nothing is turned away: the row holds the latest of what it held and all that was delivered for it |
| `Subscriptions.InterleavingDoesNotMatter` | db/billing_repository.py:324-392 | then order, multiplicity and what arrives in between do not matter to the stored snapshot |
| `UsagePeriods.PeriodStore.CreateUsagePeriod` | db/billing_repository.py:548-579 | succeeds exactly for a valid period whose slot is free |
| `UsagePeriods.PeriodStore.GetOrCreateUsagePeriod` | db/billing_repository.py:582-671 | succeeds exactly when the slot is free or holds the same definition, and then that row is active |
| `UsagePeriods.PeriodStore.SynchronizeUsagePeriod` | db/billing_repository.py:674-732 | a provider period is rewritten in the row of its slot, whatever it said before; a grant period must match |
| `UsagePeriods.PeriodStore.CloseUsagePeriod` | db/billing_repository.py:735-743 | closes the period if there is one and changes nothing else |
| `UsagePeriods.PeriodStore.CloseGrantUsagePeriods` | db/billing_repository.py:535-545 | the loop closes exactly the grant's periods and changes nothing else of them |
| `UsagePeriods.PeriodStore.CreateSubscriptionGrant` | db/billing_repository.py:457-502 | a grant is issued exactly for a known account without an open grant and with a plan and dates the table admits; elapsed grants are retired first |
| `UsagePeriods.PeriodStore.RevokeCurrentSubscriptionGrant` | db/billing_repository.py:505-532 | revokes the account's one active grant, if any |
| `UsagePeriodWrites.RevokeWrites` | db/billing_repository.py:505-532 | after a revocation the account has no active grant; the one there was is revoked with its moment, every other and all periods are as they were |
| `UsagePeriodWrites.RevokeThenIssue` | server/billing/grant_service.py:106-126 | right after a revocation a grant with a valid plan and dates is issued, and is the only active one |
| `UsagePeriodWrites.IssueWrites` | db/billing_repository.py:457-502 | an issue ends the grants that are over and adds the new one exactly if none is left and the table admits it |
| `UsagePeriodWrites.CreateWrites` | db/billing_repository.py:548-579 | an admitted period whose place is free is inserted; otherwise nothing changes |
| `UsagePeriodWrites.GetOrCreateWrites` | db/billing_repository.py:582-671 | the place holds the period, open, exactly if it was free or held the same one; every other row is as it was |
| `UsagePeriodWrites.SynchronizeWrites` | db/billing_repository.py:674-732 | a provider period takes its place whoever had it, a grant period only from the same definition |
| `UsagePeriodWrites.CloseWrites` | db/billing_repository.py:735-743 | the named period is closed and nothing else changes |
| `UsagePeriodWrites.CloseGrantWrites` | db/billing_repository.py:535-545 | no period of the grant stays open, and a period of another keeps its status |
| `UsagePeriods.UniquenessAlways` | db/billing_repository.py:417-732 | in every reachable state at most one period per slot and one active grant per account |
| `UsagePeriods.SlotKeepsItsRowAndUsage` | db/billing_repository.py:674-732 | under all period and grant steps a slot keeps its row id, and the usage read through it is what metering wrote: no second allowance |
| `TierDecider.TierIsMonotone` | orchestrator/tier_decider.py:8-103 | for every threshold setting, larger estimates and more requirement flags never lower the tier |
| `TierDecider.TierIff` | orchestrator/tier_decider.py:8-103 | which requests get which tier, whatever rule comes first |
| `TierDecider.ReasonsTell` | orchestrator/tier_decider.py:8-103 | the reason given with each tier; code and logs are never given as marks of the strong tier |
| `SmartRouter.ApplyRuntimeMessageFeatures` | orchestrator/smart_router.py:134-170 | the loop's totals make prompt plus context at least the total over all runtime messages |
| `SmartRouter.RaisedNoFurther` | orchestrator/smart_router.py:134-175 | the estimates rise to what the messages ask for and not beyond |
| `SmartRouter.ModeDecides` | orchestrator/smart_router.py:359-364 | "cheap" and "strong" fix the tier, otherwise the needs of the request decide |
| `SmartRouter.RoutingNeverUnderestimates` | orchestrator/smart_router.py:134-170 | the routed features cover the whole payload and only ever ask for more |
| `SmartRouter.RoutingNeverLowersTheTier` | orchestrator/smart_router.py:327-357 | folding in messages and format constraints never lowers the tier decided |
| `SmartRouter.SelectedHoldThePayload` | orchestrator/model_selector.py:22-45 | in a tier with one model large enough, every selected model holds the payload plus the buffer |
| `SmartRouter.FirstUsableTier` | orchestrator/smart_router.py:56-68 | the loop over the allowed models finds the first that is known, enabled and in a tier with candidates |
| `SmartRouter.StartsOnTheFirstUsable` | orchestrator/smart_router.py:56-68 | with the chosen tier empty the run starts on the tier of the first allowed model that is of use |
| `SmartRouter.RouteOncePlan` | orchestrator/smart_router.py:32-90 | planning fails exactly when the chosen tier is empty and no allowed model is usable; otherwise tier, features and ranking are the routed ones |
| `FallbackManager.InTimeDecisions` | orchestrator/fallback_manager.py:47-79 | while there are attempts and time: retry, escalation, stop and error, each with exactly when it comes |
| `FallbackManager.LateDecisions` | orchestrator/fallback_manager.py:26-45 | out of attempts the run stops; out of time it has one recovery, exactly after a first attempt that erred, was cut or was too short, with somebody left in the tier |
| `ModelRegistry.NextTier` | orchestrator/model_registry.py:277-284 | raises exactly for an unknown tier and answers none exactly at the top |
| `ModelRegistry.NextTierClimbs` | orchestrator/model_registry.py:277-284 | where the order rises from a tier, stepping up moves exactly one place, and the order rises from there too |
| `ModelRegistry.ClimbEndsIff` | orchestrator/model_registry.py:277-284 | stepping up from a tier comes to the top exactly when nothing from its first position on repeats an earlier tier |
| `ModelRegistry.GetCandidates` | orchestrator/model_registry.py:286-341 | the loop collects exactly the eligible models, in registry order |
| `ModelRegistry.CandidateIff` | orchestrator/model_registry.py:286-341 | who is a candidate, constraint by constraint; without a list of its own a request is bound by the registry's |
| `ModelRegistry.FindModel` | orchestrator/model_registry.py:343-353 | finds a model answering to the name or an alias, if there is one |
| `ModelRegistry.CandidatesNoDuplicates` | orchestrator/model_registry.py:286-341 | with unique keys no tier lists a model twice |
| `ModelSelector.SelectRaisesIff` | orchestrator/model_selector.py:16-45 | selection raises exactly when no candidate is enabled |
| `ModelSelector.SelectIsTheSortedSurvivors` | orchestrator/model_selector.py:16-67 | the result is the surviving candidates as a multiset, in rank order, ties in registry order |
| `ModelSelector.SelectedInOrder` | orchestrator/model_selector.py:47-67 | the more reliable first; for code the better coder by the list, then by tags; then who lacks less, costs less, is preferred, has the larger context |
| `ModelSelector.CostIsTokensAtTheirPrices` | orchestrator/model_selector.py:69-81 | the estimate is the tokens at their prices, an answer taken for half the prompt or, for demanding requests, four fifths |
| `ModelSelector.SelectedExactlyWhenSurviving` | orchestrator/model_selector.py:16-45 | who is selected, stated without the filters: context and cost tests bind exactly when somebody passes them |
| `ModelSelector.SelectedCandidatesFit` | orchestrator/model_selector.py:22-45 | one candidate large enough is all it takes for every selected one to be large enough |
| `ModelSelector.CostCeilingBindsWhenMet` | orchestrator/model_selector.py:22-45 | all selected models are within the ceiling exactly when one survivor is |
| `ResponseValidator.StrictnessOnlyRejectsIff` | orchestrator/response_validator.py:12-48 | asking for more only ever rejects more, exactly when demanding requests have the higher length limit or simple ones have none |
| `ResponseValidator.VerdictIff` | orchestrator/response_validator.py:12-48 | each verdict with exactly the responses that get it |
| `AttemptLoop.RunAttemptLoop` | orchestrator/core.py:1148-1349 | the loop ends for every authoriser, provider and clock, and its record and ending obey the step-by-step rules |
| `AttemptLoop.ConsultNext` | orchestrator/core.py:1239-1333 | taking the front candidate, denied or invoked, adds one lawful entry and leaves the loop values in agreement with the record |
| `AttemptLoop.Climb` | orchestrator/core.py:1222-1237 | with the ranking used up the run moves to a strictly higher tier, ends, or raises |
| `AttemptLoop.LoadTier` | orchestrator/core.py:1324-1333 | an empty next tier aborts the run with the selection error |
| `AttemptLoopReach.InvokableIff` | orchestrator/core.py:1222-1266 | the candidates some run consults, and those some run invokes, are exactly those ranked in the tiers from the initial one up to below the first empty one, if any attempt is allowed |
| `AttemptLoopEnding.LoopEndsIff` | orchestrator/core.py:1222-1266 | with nobody admitted, the lengths of runs are bounded exactly when the order from the initial tier on repeats no earlier tier or a tier the climb passes has no candidates |
| `AttemptLoopEnding.DeniedRunOfAnyLength` | orchestrator/core.py:1222-1266 | where the climb always comes to another tier with candidates there is a lawful run of denials of every length |
| `AttemptLoopEnding.RunFitsThePlan` | orchestrator/core.py:1222-1333 | no run consults more candidates than the plan lists |
| `AttemptLoopProperties.AttemptsAreNumbered` | orchestrator/core.py:1222-1336 | at most `max_attempts` providers are invoked, and the recorded attempts are numbered 1, 2, 3 and so on |
| `AttemptLoopProperties.EntriesClimb` | orchestrator/core.py:1222-1333 | each later candidate stands further down its tier's ranking or in a strictly higher tier |
| `AttemptLoopProperties.EntriesAreRanked` | orchestrator/core.py:1239-1266 | every candidate consulted stands in the recorded tier's ranking and is invoked exactly if authorised |
| `AttemptLoopProperties.NoModelTwice` | orchestrator/core.py:1222-1333 | no model is consulted twice in a run |
| `AttemptLoopProperties.ValidatedIsTheLastAttempt` | orchestrator/core.py:1296-1298 | a validated response is the last attempt's and the only valid one |
| `AttemptLoopProperties.ExhaustedReturnsTheEarliestUsable` | orchestrator/core.py:1337-1349 | when candidates run out the earliest non-error response is returned, and an error only if every attempt was one |
| `AttemptLoopProperties.LatencyBudgetStopsTheRun` | orchestrator/core.py:1300-1333 | past the latency budget at most one more provider is invoked, and only after the first attempt |
| `AttemptLoopProperties.AfterAnAttempt` | orchestrator/core.py:1283-1333 | where a run goes after an attempt in time: up from too short or ill-formed answers, on in the tier after errors, and after refused or cut ones up only from the last of the tier |
| `AttemptLoopProperties.AfterALateAttempt` | orchestrator/core.py:1283-1333 | out of time a run goes on only after its first attempt and only to the next candidate of the tier |
| `AttemptLoopProperties.AfterADenial` | orchestrator/core.py:1222-1266 | behind a denied candidate comes the next of its tier, or the first of the tier above |
| `AttemptLoopProperties.AnswersNameTheirPredecessor` | orchestrator/core.py:1262-1282 | every answer bears its number and, after the first, the model that answered just before |
| `AttemptLoopProperties.GivesUpOnlyAtTheEnd` | orchestrator/core.py:1335-1349 | a run gives up only when its last candidate was the last of the top tier; without any attempt it was denied by all or was allowed none |
| `AttemptLoopProperties.RaisesForItsTiers` | orchestrator/core.py:1222-1240 | a run raises exactly for an unknown tier or an empty one above |
| `TargetPlan.PlanSmartTargets` | orchestrator/core.py:920-975 | the loop over the fallback tiers yields the distinct keys of all rankings, and fails exactly for an unknown tier |
| `TargetPlan.PlanIsExact` | orchestrator/core.py:940-975 | the plan lists each model once, and exactly the models some tier ranks |
| `TargetPlan.FallbackOrder` | orchestrator/core.py:951-962 | after the initial tier come the lower ones, nearest first, and then the higher ones upwards |
| `TargetPlan.PlannedInOrder` | orchestrator/core.py:950-969 | the models are gone through tier by tier in that order, each in the order of its ranking |
| `TargetPlan.PlanCoversEveryRunOf` | orchestrator/core.py:940-975 | every model a run consults is in any plan that ranks what the run ranks in the tiers it can reach |
| `TargetPlan.PlanCoversIff` | orchestrator/core.py:940-975 | a plan lists all that runs can consult, and all that they can invoke, exactly when no attempt is allowed or it ranks what the run ranks in every tier within reach |
| `ModelSelector.LargerPayloadSelectsFewerIff` | orchestrator/model_selector.py:22-31 | without a cost ceiling the selection for a larger payload lies within that for a smaller one exactly when the smaller turns nobody away or somebody fits the larger |
| `ModelSelector.LargerPayloadCanBringBack` | orchestrator/model_selector.py:22-31 | two models and two payloads for which it does not |
| `PlanCoverage.PlanCoversRunsIff` | orchestrator/core.py:940-975 | for any two payloads, with a cost ceiling or without, the plan for one covers every run with the other exactly when, in every tier within reach, whoever is in the running for the run is so for the plan |
| `PlanCoverage.PlanCoversLargerRunsIff` | orchestrator/core.py:940-975 | without a ceiling and for a payload no smaller than planned this is: in every tier within reach the plan turned nobody away or somebody fits the run |
| `PlanCoverage.RequestIsCoveredIff` | orchestrator/core.py:943-950 | so it is for one request planned without its runtime messages and run with them |
| `PlanCoverage.PlanCanMissAModel` | orchestrator/core.py:1184-1194 | a concrete registry, request and messages: the run invokes a model that is not in the plan |
| `Sequences.DistinctKeepsFirstOccurrences` | orchestrator/core.py:962-975 | the seen-set pass keeps the order of first occurrence |
| `SmartRun.SettingOfIsWellBehaved` | orchestrator/core.py:1168-1210 | registry, selector and validator meet what the loop needs, given unique keys and distinct tiers |
| `SmartRun.ConstrainedProviders` | orchestrator/core.py:840-870 | only providers both routable and asked for stay, and a preference for any other is dropped |
| `SmartRun.PolicyOfARun` | orchestrator/core.py:1202-1214 | the registry's attempts, the request's time if it sets one, and always leave to go up |
| `SmartRun.EligibleIffPermitted` | orchestrator/core.py:840-870 | restricting to routable providers leaves exactly the models the original request permits |
| `SmartRun.EntriesArePermitted` | orchestrator/core.py:1168-1333 | every candidate consulted is enabled, selectable, of the recorded tier and within all constraints |
| `SmartRun.RunSmart` | orchestrator/core.py:1148-1349 | one smart run end to end: only permitted and authorised models, none twice, at most `max_attempts`, and no error reported as valid |
| `RoutingTrace.RoutingMetadata.UpdateForAttempt` | orchestrator/core.py:1076-1146 | an attempt is appended, settles its pending plan entry if it has one, and the three slots show the first three models selected |
| `RoutingTrace.PlanStatusesTellTheRun` | orchestrator/core.py:1107-1141 | a plan entry is pending exactly when its model was never invoked, and otherwise has the status of its one attempt |
| `RoutingTrace.TraceMatchesAttempts` | orchestrator/core.py:1095-1141 | attempts and selections match the invocations one to one, numbered in order |
| `RoutingTrace.RecordTells` | orchestrator/core.py:1076-1146 | a record says of an attempt what it was, calls it a success for a valid answer only, and settles the first pending entry of its model |
| `LostAnswers.FailureEndsTheRunIff` | orchestrator/fallback_manager.py:26-53 | a failing attempt after the first ends the run with its error exactly when no attempt, no time or no other model of the tier is left |
| `LostAnswers.UsableAnswerIsLostIff` | orchestrator/core.py:1300-1349 | a run that had a usable answer returns an error exactly when a later attempt failed with no attempt, no time or no other model of the tier left |
| `LostAnswers.SettingCanLoseIff` | orchestrator/core.py:1300-1349 | some world, with a clock that does not go back, makes a run lose a usable answer exactly when two attempts are allowed and somewhere within reach a usable answer can be judged such that the run goes on to another candidate |
| `LostAnswers.RealSettingCanLoseIff` | orchestrator/core.py:1300-1349 | with the real validator and any time at all: exactly when two attempts are allowed and the initial tier ranks two models, or one and the next tier up somebody |
| `LostAnswers.OneAttemptLosesNothing` | orchestrator/core.py:1300-1349 | with one attempt no environment can lose an answer |
| `LostAnswers.ValidatorJudgesErrors` | orchestrator/response_validator.py:18-22 | the real validator judges errors by their cause and does not look at the stamps, as the results on lost answers ask |
| `LostAnswers.UsableAnswerCanBeLost` | orchestrator/core.py:1335-1349 | a concrete run of two attempts whose usable first answer is lost |
| `WorkEvents.EventStore.AppendWorkEvent` | db/work_repository.py:347-393 | every outcome of an append: unknown run, duplicate returned unchanged, index violation for an empty provider id, or the next number |
| `WorkEvents.EventStore.ListWorkEventsAfterSequence` | db/work_repository.py:396-419 | the filtered, sorted, limited query is one contiguous stretch of the owner's history |
| `WorkEvents.NewRunKeepsSound` | db/migrations/20260820_add_cortex_work_mode.sql:57 | a new run starts with an empty history and number 1, and every history there was stays readable as before |
| `WorkEvents.NextNumberIsFree` | db/work_repository.py:373-385 | the number an append uses is never taken |
| `WorkEvents.AppendExtendsHistory` | db/work_repository.py:347-393 | an append adds one event at the end of its run's history and touches no other history |
| `WorkEvents.AppendIff` | db/work_repository.py:347-393 | an event is new unless the run is unknown or has one with that provider id |
| `WorkEvents.OnlyOwnersRead` | db/work_repository.py:396-419 | the owner reads exactly the rows of the run, anybody else nothing |
| `WorkEvents.AppendKeepsSound` | db/work_repository.py:347-393 | numbers stay gap-free up to the next one, and provider ids stay unique |
| `WorkEvents.ReaderMissesAndRepeatsNothing` | db/work_repository.py:396-419 | under any interleaving of new runs, appends and polls with any limits, a cursor reader has seen a beginning of the history, each event once and in order |
| `WorkEvents.PollsReachTheEnd` | db/work_repository.py:396-419 | polls that together allow enough room bring the reader to the end, however the room is divided |
| `WorkApprovals.ApprovalStore.CreateWorkToolCall` | db/work_repository.py:817-856 | a repeated provider call id returns the call already there; otherwise the new call is stored |
| `WorkApprovals.ApprovalStore.CreateToolCallAndApproval` | db/work_repository.py:780-814 | call and approval are stored together, or the call already there gets a further approval |
| `WorkApprovals.ApprovalStore.DecideApproval` | db/work_repository.py:927-948 | every outcome of a decision: not the user's, already resolved, or both rows written |
| `WorkApprovals.ApprovalStore.ExpirePendingApprovalsForRun` | db/work_repository.py:951-1001 | the loop claims exactly the stale approvals, each once, oldest request first, with their calls |
| `WorkApprovals.ApprovalStore.ReopenExpiredApproval` | db/work_repository.py:1004-1029 | takes effect exactly on an approval expired by nobody |
| `WorkApprovals.ApprovalStore.ReopenApproval` | db/work_repository.py:1032-1055 | takes effect exactly on that user's own decision |
| `WorkApprovalWrites.DecisionWrites` | db/work_repository.py:927-948 | a decision is written with its time and user; its call runs exactly if it was approved and is refused otherwise, and no other row is touched |
| `WorkApprovalWrites.CallFollowsItsClaim` | db/work_repository.py:927-1055 | over every legal run: while an approval's last claim stands and no report and no new question has written its call, the call runs if a user approved it and is refused if it was denied or expired |
| `WorkApprovalWrites.SweepWrites` | db/work_repository.py:951-1001 | a sweep closes, by nobody, the approvals that wait too long, and refuses their calls with the time |
| `WorkApprovalWrites.ReopenWrites` | db/work_repository.py:1004-1055 | a reopened approval is as if nobody had decided and its call waits again; only the clock's claim takes the completion time with it |
| `WorkApprovalWrites.OpenWrites` | db/work_repository.py:817-856 | a new call is stored as given, unless the run has one with that provider id |
| `WorkApprovalWrites.AskWrites` | db/work_repository.py:859-886 | asking stores a pending approval of this moment and makes the call wait for it |
| `WorkApprovalWrites.ReportWrites` | db/work_repository.py:889-907 | a report reaches exactly the run's call with the provider id, and what ends a call leaves the time |
| `WorkApprovals.ReportKeepsCouplingIff` | db/work_repository.py:889-907 | a progress report keeps approvals and calls coupled exactly when it says of each reported call what its approval says |
| `WorkApprovals.ReportCanBreakTheCoupling` | server/work/service.py:1053-1061 | a concrete run: a call reported finished while its approval is pending |
| `WorkApprovals.AlwaysCoupled` | db/work_repository.py:780-1055 | in every reachable state an approval is pending exactly when its tool call awaits approval |
| `WorkApprovals.CoupledThroughoutIff` | db/work_repository.py:780-1055 | any run at all, progress reports and repeated asking included: the coupling holds all along exactly when every step was safe by what a caller can look up first |
| `WorkApprovals.ReopenKeepsCouplingIff` | db/work_repository.py:1004-1055 | a reopen keeps the coupling exactly when no other approval shares the call |
| `WorkApprovals.SweepKeepsCouplingIff` | db/work_repository.py:951-1001 | a sweep keeps the coupling exactly when no call has a stale approval beside one it leaves alone |
| `WorkApprovals.SecondAskCanBreakTheCoupling` | server/work/service.py:1153-1170 | a concrete run: an approved, running call is asked about again |
| `WorkApprovals.SweepCanLoseACompletion` | db/work_repository.py:984-1029 | a concrete state in which expiring and reopening loses when the call finished |
| `WorkApprovals.ReopenedCallCanBeFinished` | server/routes/work.py:437-453 | a legal run that leads to that state: approved, reported finished, and reopened because confirming raised |
| `WorkApprovals.ReopenOnlyUndoesItsOwnClaim` | db/work_repository.py:1004-1055 | over all runs a user reopen takes effect exactly where that user made that decision last, the automatic one exactly where the clock did |
| `WorkApprovals.ClaimsAreRecorded` | db/work_repository.py:927-1055 | a row always says who claimed the approval last and when |
| `WorkApprovals.UserClaimThenReopenRestoresIff` | db/work_repository.py:1032-1055 | a decision and its own reopen restore both rows to the letter exactly when the call awaited approval |
| `WorkApprovals.SweepThenReopenRestoresIff` | db/work_repository.py:951-1029 | coupled or not, a sweep and the reopening of all it expired restore every row exactly when each approval was undecided and its call awaited approval without a completion time |
| `WorkApprovals.AskKeepsCouplingIff` | db/work_repository.py:859-886 | asking again about a call keeps the coupling exactly when its earlier approvals are all pending |
| `WorkApprovals.DecideKeepsCouplingIff` | db/work_repository.py:927-948 | a decision keeps the coupling exactly when it decides and no other approval shares the call |
| `WorkLeases.LeaseTable.ClaimSyncLease` | db/work_repository.py:1103-1135 | a claim wins exactly when there is no row, an expired one or the owner's own |
| `WorkLeases.ClaimLasts` | db/work_repository.py:1103-1135 | a claim that wins keeps everybody else out for its seconds, five at least, and no longer |
| `WorkLeases.ReleaseFreesTheOwnLease` | db/work_repository.py:1138-1145 | after a release anybody can claim the run exactly if the lease was the owner's own or could be claimed anyway; no other run is affected |
| `WorkLeases.TenuresNeverOverlap` | db/work_repository.py:1103-1145 | on a shared clock a different owner wins only after the earlier tenure ended by expiry, renewal or release |
| `WorkLeases.WinsIffNobodyElseHolds` | db/work_repository.py:1103-1145 | a claim wins exactly when the tenure of every other owner is over |
| `WorkLeases.RowHasAWinner` | db/work_repository.py:1103-1145 | every row was written by a winning claim that nothing has closed |
| `ResponseRevisions.InsertKeepsSound` | db/repository.py:1190-1295 | an insert with a first revision, or with one read as the next of its own family, accepted or refused, keeps families flat, gap-free, in time order and in one hand |
| `ResponseRevisions.ResponseStore.ResolveRegeneration` | db/repository.py:2567-2635 | root and next revision of an owned grouped response, or none exactly when there is no such response |
| `ResponseRevisions.RegenerationIsTheNext` | db/repository.py:2567-2635 | a regeneration goes to the root of the row named, one revision further than any of the response |
| `ResponseRevisions.ResponseStore.GetCompareAnalysisSources` | db/repository.py:2638-2727 | the loop with its seen-set returns exactly one row per family, the greatest revision, oldest slot first |
| `ResponseRevisions.SourcesAreTheLatest` | db/repository.py:2638-2727 | the sources are the user's rows of the group above which no revision of the same response stands |
| `ResponseRevisions.ResponseStore.DeleteLlmHistoryEntry` | db/repository.py:3442-3518 | the statements amount to one deletion step of the whole family |
| `ResponseRevisions.LatestIsTheFamilySize` | db/repository.py:2615-2625 | the greatest revision of a family is its number of rows |
| `ResponseRevisions.OnlyTheNextRevisionIsAdmitted` | db/migrations/20260727_add_cortex_analysis_runs.sql:32-36 | of racing regenerations the index admits exactly the next revision |
| `ResponseRevisions.FirstSeenAreLatest` | db/repository.py:2692-2702 | in creation order the first row seen of each family is its latest revision |
| `ResponseRevisions.DeleteRemovesExactlyTheFamily` | db/repository.py:3442-3518 | the family, its responses, decisions and attempts go, every other row stays, and analyses go exactly with the last request of their group |
| `ResponseRevisions.AnalysesGoWithTheirGroup` | db/repository.py:3442-3518 | analyses go exactly when the user has no row of the group left |
| `ResponseRevisions.FamiliesAlwaysSound` | db/repository.py:2567-2635 | with reads, inserts and deletions interleaved in any way, families stay flat and gap-free, belong to one user and group, and nothing dangles |
| `Conversation.ConversationManager.AddUser` | context/conversation_manager.py:60-73 | blank text adds nothing; otherwise the stripped message is added and the history trimmed |
| `Conversation.ConversationManager.AddAssistant` | context/conversation_manager.py:75-88 | as for a user message |
| `Conversation.ConversationManager.AddSystem` | context/conversation_manager.py:90-106 | as for a user message, at the current position |
| `Conversation.ConversationManager.PopLastUser` | context/conversation_manager.py:117-135 | the search removes the last user message wherever it stands, and none exactly when there is none |
| `Conversation.ResetStartsOver` | context/conversation_manager.py:137-151 | after a reset that keeps the prompt, every later run goes as if nothing had been said before |
| `Conversation.ConversationManager.AutoTrim` | context/conversation_manager.py:193-220 | the slices keep the leading system message and the last `max_messages` of the rest |
| `Conversation.TrimKeepsTheLatest` | context/conversation_manager.py:193-220 | position by position: the leading system message and the latest messages that fit |
| `Conversation.SaidLast` | context/conversation_manager.py:60-106 | what is said, if it is not blank, is the latest message, stripped and by its speaker |
| `Conversation.StripsOnlySpace` | context/conversation_manager.py:60-73 | nothing but space is stripped, and only at the ends |
| `Conversation.TrimmingIsExact` | context/conversation_manager.py:60-135 | step-by-step trimming equals trimming all that was said, with a prompt or among users and assistants |
| `Conversation.TrimmingIsExactIff` | context/conversation_manager.py:60-220 | after any adds step-by-step trimming equals trimming all that was said exactly when that starts with a system message or the cut has never reached a later one |
| `Conversation.HeadStays` | context/conversation_manager.py:117-220 | a leading system message, prompt or promoted, survives every later add and pop |
| `Conversation.SystemAddIsPromoted` | context/conversation_manager.py:90-106 | a concrete history in which a system message takes the head and trimming no longer agrees |
| `Conversation.HistoryIsBounded` | context/conversation_manager.py:60-220 | over all adds, pops and resets at most `max_messages` messages follow a leading system message |
| `Conversation.PopUndoesAddIff` | context/conversation_manager.py:117-135 | popping takes back the user message just added exactly when there was room for it |
| `GenerationPolicy.ResolveReasoning` | orchestrator/generation_policy.py:225-304 | the provider branches, reassigning mode and effort, compute the normalised mode and the fitted effort or raise |
| `GenerationPolicy.FitEffort` | orchestrator/generation_policy.py:289-302 | filtering the effort order twice and taking the last finds the greatest configured effort below the one wanted |
| `GenerationPolicy.EffortIsSupported` | orchestrator/generation_policy.py:225-304 | the effort sent is a configured one or none, an explicit request is never altered, a default is only lowered and by no more than needed |
| `GenerationPolicy.SwitchIsHonoured` | orchestrator/generation_policy.py:225-304 | "off" always sends a mode that says no; "on" does so exactly for a provider without rules of its own whose default mode, or for want of one whose wanted effort, says no |
| `GenerationPolicy.OnCanBeIgnored` | orchestrator/generation_policy.py:286-287 | concrete models asked to reason and told "none" or "off" |
| `GenerationOutcomes.ModeSent` | orchestrator/generation_policy.py:258-287 | the mode sent, for every provider and setting of the switch |
| `GenerationOutcomes.EffortInTheProvidersTerms` | orchestrator/generation_policy.py:258-287 | the effort in the provider's terms |
| `GenerationOutcomes.ReasoningRefusedIff` | orchestrator/generation_policy.py:225-304 | reasoning controls are refused exactly for an unknown switch or effort, a model that cannot, a mode it does not have, or an effort none of its own will do for |
| `GenerationPolicy.CeilingIsGrantedOrCut` | orchestrator/generation_policy.py:363-378 | the effective ceiling respects model, operation and context; a custom ceiling is granted in full or refused |
| `GenerationOutcomes.CeilingIsTheGreatest` | orchestrator/generation_policy.py:363-378 | the ceiling granted is the greatest that neither the request nor the model, the operator or the context forbids |
| `GenerationOutcomes.WantedCeiling` | orchestrator/generation_policy.py:323-361 | which profile and ceiling a request means |
| `GenerationOutcomes.ReasoningAskedFor` | orchestrator/generation_policy.py:225-262 | the reasoning a request asks for, with "auto" and the profile's effort where it says nothing |
| `GenerationOutcomes.ResolveRefusals` | orchestrator/generation_policy.py:323-378 | each refusal with exactly the requests that get it |
| `GenerationOutcomes.RetryIsTheNext` | orchestrator/generation_policy.py:46-55 | a named profile is retried with the next one, an automatic choice with the smaller one that gives more |
| `GenerationPolicy.HigherDefaultResolvesIff` | orchestrator/generation_policy.py:225-304 | a higher default effort resolves exactly when Claude Opus 5 does not refuse it, and never to a lower effort |
| `GenerationPolicy.RetryClimbs` | orchestrator/generation_policy.py:46-55 | a retry asks for strictly more, never gets less, and resolves exactly when Claude Opus 5 does not refuse the next default effort |
| `GenerationPolicy.LadderClimbsAndEnds` | orchestrator/generation_policy.py:215-222 | from any start at most three retries follow, each asking for strictly more and none getting less |

## Left out

- Text: lower-casing, alias spelling, markdown and Unicode whitespace are outside the model; names arrive normalised, and `Conversation.Strip` knows blank, tab, newline and carriage return.
- Costs are real numbers: rounding to six places in plan texts and binary floating point in the ranking are not modelled.
- A step that raises keeps in the model what it had written by then; the source's callers roll that back, which is not part of this model.
- Meters, stale rows and families are visited in an arbitrary order where the source sorts or locks them first; the results do not depend on it. Row locks are not modelled: each function is one atomic step.
- UsageStore.Store.SupplementUsageReservation: the source's lookup of an unreserved meter fails with a `StopIteration`; the model answers with the configuration error.
- UsageStore.Store.ReserveUsage: with several meters the source checks configuration and allowance meter by meter, the model all configurations first, so which of the two errors is raised may differ.
- UsageStore.Store.SettleUsageReservation: checks that a quantity is an integer and not a boolean fall to the types.
- Subscriptions.TableStoresTheWinner: a snapshot without an event time is part of the upsert but not of the stream results.
- UsagePeriods.PeriodStore.CreateUsagePeriod: foreign keys to accounts, subscriptions and grants are not modelled; the partial indexes on periods and active grants are taken as invariants, and other updates of grants do not exist in the model.
- UsagePeriods.PeriodStore.CreateSubscriptionGrant: who granted and why, and the constraint that both are given, are left out.
- Reconciliation.ReconcileTransactionItems: token counts, cache credits and metadata of a line are carried along unseen.
- CreditLedger.Ledger.CreateCreditTransaction: costs are real numbers, rounded where the column rounds them; its upper limit and those of the integer columns are not modelled.
- AttemptLoop.RunAttemptLoop: provider calls, circuit breakers, API keys and streaming are one arbitrary function of the invocation's number and model; the clock is an arbitrary function of the invocation's number. Orders that go back from the initial tier on are excluded there; `AttemptLoopEnding.LoopEndsIff` says what happens with them.
- ModelRegistry.GetCandidates: entries of `allowed_models` are provider and model pairs; the source drops entries without a colon when it parses them.
- ResponseValidator.StrictnessOnlyRejectsIff: refusal and JSON detection by regular expressions are inputs.
- RoutingTrace.RoutingMetadata.UpdateForAttempt: explanations in prose, latencies, billing classes and the three slots before the first attempt are left out; the metadata dictionary is a record.
- WorkEvents.EventStore.ListWorkEventsAfterSequence: the limit is a natural number; PostgreSQL refuses a negative one. Events are never deleted by the functions modelled, and a run's first number is the column default 1.
- WorkApprovals.AlwaysCoupled: holds for one approval per tool call, decisions that decide and progress reports on calls that do not await approval; the service does not see to all of that, and `CoupledThroughoutIff` says exactly which runs stay coupled.
- WorkApprovals.ApprovalStore.DecideApproval: a decision is one of the four values the check constraint admits.
- WorkLeases.TenuresNeverOverlap: needs one non-decreasing clock, while the source reads each process's own.
- ResponseRevisions.FamiliesAlwaysSound: request rows are removed only by the entry deletion; clearing a whole history, deleting sessions and users, and columns that older schemas lack are left out. Row ids are never reused, and creation times do not go back.
- ResponseRevisions.ResponseStore.DeleteLlmHistoryEntry: the lookup of a row by its hashed history id is a parameter.
- GenerationPolicy.RetryClimbs: what the automatic policy picks for a model and an input is a parameter, and so are the model-name tests; unknown models fail before the model starts.
- Plan limits and wallet balances beyond the per-meter allowance, price lookup, YAML and environment loading, HTTP routes, logging, research, attachments, prompt optimisation, history listing, reports and the command line are not part of this model.
