# Agent Symphony: the durable ledger and the protocols around it

Agent Symphony coordinates coding agents that work on GitHub issues. Everything
it must not forget is in one ledger, committed by a single state owner: operator
receipts, effects (intents of external work), attempts, tombstones, reviewer
proofs. Slow work runs outside the owner, under generation fences, behind a
per-attempt lock, and leaves immutable completion markers. This project models
that ledger and the concurrent and crash-prone code around it, and proves what
they keep over every run. `dafny verify dfyconfig.toml` checks it.

## How the model is laid out

The owner applies each command to a private copy of the ledger and commits the
copy whole or drops it, so a transition is a function from a `State` to a
`Reply`. `StateOwner.Proposed` is what a command would persist, `Step` adds the
part of the commit gate that speaks of receipts and effect keys, and `IsRun` is
a run from a new ledger, under whatever worker profile, with any number of
restarts of the owner in it. The loops that edit the copy in place are methods
of `CandidateLedger.Candidate`, each proved to compute the function it stands
for. The components that live behind a mutex or on disk are classes whose
methods are their atomic sections, and state machines over those sections.

| module | what it models |
|---|---|
| `OwnerState`, `Receipts` | the ledger, its vocabulary, and one pass over the receipt list at a time |
| `AttemptEffects` | recording and invalidating attempts, beginning and finishing runtime effects, pruning |
| `ReconciliationEffects` | reconciliation effects: begin, authorize, launch, prove dead, seal, finish, supersede, resolve |
| `OperatorMutations` | claims, the begin of an operator mutation in all its branches, the recovery workflow |
| `StateOwner` | the 27 commands, coalesced begins, stamping, the gate, runs |
| `LedgerInvariant`, `LedgerRuns` | the receipt-list invariant: per operation, per commit, over runs |
| `ReceiptSteps`, `EffectSteps` | how one commit may change one receipt and one effect, for every command |
| `ClaimsAndCapacity`, `ClaimRuns`, `RecoveryTrace`, `OwnerRuns`, `EffectDates`, `ReviewerAuthenticity`, `EffectExclusion`, `GenerationFence` | what follows from those over runs |
| `CandidateLedger` | the loops of the owner over its private copy |
| `RuntimeCoordinator`, `OperatorService` | the lock with cancellation; key reservations, drain and coalesced save |
| `BootIdentity`, `LegacyReviewerBoot` | the two-boot release of legacy reviewer quarantines |
| `EffectMarkers` | completion markers, their startup sweep, outcome files, crashes between any two steps |
| `TmuxWords`, `RuntimeLifecycle` | the canonical word parser; attempt numbers and the lifecycle planner |

## Where the code falls short of the plain statement

The model keeps the code as it is. For each of these a lemma gives an input on
which the plain statement fails, or the exact condition under which it holds, or
both.

- Supersession closes a claim but leaves its admission on the completed receipt
  (`operator_mutations_v2.go:705-722`). A begin keeps the ledger if and only if
  it strands no such claim, and the gate refuses the others. Begins that consume
  their own claim strand none, since all claims on an attempt have one action;
  the service makes no others.
- Append looks for references before the new receipt is listed
  (`operator_mutations_v2.go:929-945`), so it can delete the effect that the new
  receipt names: exactly when the evicted receipt was the last to name it. The
  gate then refuses the commit.
- Finishing a Stop that is already completed is accepted by the transition and
  answers recoveries that still await their terminal update
  (`operator_mutations_v2.go:605-613`). Such a receipt is bound to the wrong
  effect, so the gate refuses the commit (`state_owner.go:3844-3848`); that is
  what the order of the recovery workflow rests on.
- Starting the owner stamps every claim with the new epoch
  (`state_owner.go:1371-1375`), so the epoch captured by a claim is the one it is
  begun under exactly when the owner did not start in between; its generations
  and manifest are kept throughout.
- Boot identities carry no order: `laterThan` is symmetric
  (`boot_identity.go:36-38`). What the release needs, and gets, is two different
  boots, in the order in which the reconciliations ran.

The finish of a reconciliation effect does not ask whether the effect is still
pending (`reconciliation_effects_v2.go:794-814`), so an invalidated one can
complete. The theorems on fences and on reviewer results cover that case.

A sweep that finds nothing to remove syncs nothing
(`reconciliation_markers_v2.go:287-289`), so a removal that an earlier process
left unsynced can still be undone by a crash of the machine; the next sweep
meets the marker again. The model keeps this difference between the death of the
process and a crash of the machine.

## Model

| member | source | states |
|---|---|---|
| `LedgerRuns.LedgerHoldsThroughout` | cmd/agent-symphony/operator_mutations_v2.go:31-261 | over every run of disciplined commands from a new ledger, with no help from the commit gate: request IDs are unique, there are at most 128 receipts, claims on one attempt share one action and are equal, every receipt is bound as its phase demands, and no completed receipt holds an admission |
| `LedgerInvariant.DisciplinedStepKeepsLedger` | cmd/agent-symphony/operator_mutations_v2.go:263-545 | one commit of any of the 27 kinds of command keeps that ledger invariant, provided the command begins reserved actions only the way the service does |
| `LedgerInvariant.UnclaimedBeginKeepsLedgerIff` | cmd/agent-symphony/operator_mutations_v2.go:705-722 | a begin that holds no claim keeps the invariant if and only if it strands no claim: supersession closes a claim on the attempt without clearing its admission, unless the full list evicts that very receipt |
| `LedgerInvariant.StrandedClaimWitness` | cmd/agent-symphony/operator_mutations_v2.go:705-722 | a ledger that passes the gate and an accepted begin for which that fails: an attempt reserved for a dismissal and abandoned without a reservation; no step commits it |
| `LedgerInvariant.StrandingIsRefused` | cmd/agent-symphony/state_owner.go:2590-2593 | from a ledger that passes the gate, no step commits a begin that strands a claim |
| `LedgerInvariant.ClaimedBeginKeepsLedger` | cmd/agent-symphony/operator_mutations_v2.go:276-305 | a begin that consumes its own claim keeps the invariant, coalesced followers included, because every claim on the attempt has its action |
| `LedgerInvariant.ServiceBeginStrandsNothing` | cmd/agent-symphony/operator_service_v2.go:175-221 | the service begins the reserved actions only in ways that strand no claim |
| `LedgerInvariant.ReserveKeepsLedger` | cmd/agent-symphony/operator_mutations_v2.go:31-98 | a reservation keeps the invariant |
| `LedgerInvariant.BeginWorkRecords` | cmd/agent-symphony/operator_mutations_v2.go:305-545 | whatever branch it takes, an accepted begin appends exactly one receipt, of its own request, after closing the other workflows of its attempt or leaving them alone |
| `LedgerInvariant.AdvanceKeepsLedger` | cmd/agent-symphony/operator_mutations_v2.go:619-667 | advancing a recovery unbinds every receipt of its class and the stamp binds each of them to the new effect, so the invariant is kept |
| `LedgerInvariant.CompensationKeepsLedger` | cmd/agent-symphony/state_owner.go:3070-3114 | completing a handoff compensation keeps every receipt bound, given that receipts without an effect wait on a tombstone |
| `LedgerRuns.CompensationStaysBound` | cmd/agent-symphony/state_owner.go:3847-3858 | a receipt that waits for a compensation without an effect always waits on a dismissal whose tombstone has none either |
| `ReceiptSteps.ProposalTraces` | cmd/agent-symphony/state_owner.go:1290-1636 | every receipt of the ledger a command proposes is a new one, which only a reservation or a begin adds, or the committed receipt of the same request, unchanged or changed in one of seven named ways |
| `ClaimsAndCapacity.ExactlyOneLeader` | cmd/agent-symphony/operator_mutations_v2.go:144-166 | every nonempty class of equal claims has exactly one leader |
| `ClaimsAndCapacity.LeadsMeansFirst` | cmd/agent-symphony/operator_mutations_v2.go:159-166 | a receipt leads its class if and only if it is the first of it on the list |
| `ClaimsAndCapacity.FailCompletesExactlyItsClass` | cmd/agent-symphony/operator_mutations_v2.go:114-142 | failing a claim completes every claim on its attempt, each under its own request and the new revision and without its admission, and changes no other receipt |
| `ClaimsAndCapacity.AbortRemovesOnlyItsClaim` | cmd/agent-symphony/operator_mutations_v2.go:100-112 | giving up a claim takes exactly the receipt of that request off the list, which was a claim of that request, and does nothing if there was none |
| `ClaimsAndCapacity.ReservationJoinsOrCaptures` | cmd/agent-symphony/operator_mutations_v2.go:31-98 | a new claim equals the claim already held on the attempt, under the same action, or captures the present epoch, generations, manifest and observation of the owner |
| `ClaimsAndCapacity.CollectedClaimsAreFresh` | cmd/agent-symphony/operator_mutations_v2.go:193-220 | after a collection an observation-sensitive claim in its scope has seen exactly what was collected, or was answered with a conflict because it had lost its ground |
| `ClaimRuns.ClaimKeepsItsGround` | cmd/agent-symphony/operator_mutations_v2.go:46-97 | over any run in which a request keeps its claim, generations and manifest of the claim do not change, and its epoch is the same if and only if the owner did not start in between |
| `ClaimRuns.BeginCarriesItsClaim` | cmd/agent-symphony/operator_mutations_v2.go:276-305 | a begin accepted from a claim acts on the manifest and under the generations captured when the claim was created, whatever refreshes came between, and under its epoch if and only if the owner did not start in between; an effect it creates has the present epoch, the issue generation of the claim, and its attempt generation, or the next one if it is runtime work |
| `ClaimRuns.ClaimsAreGrounded` | cmd/agent-symphony/operator_mutations_v2.go:66-97 | over every run a claim that captured a manifest captured an attempt generation above zero |
| `ClaimsAndCapacity.ClaimedBeginNeedsNoRoom` | cmd/agent-symphony/operator_mutations_v2.go:301-305 | a request that holds a claim can record its begin and those of all its followers without eviction: the joined begin is accepted and the request IDs on the list are the same before and after |
| `ClaimsAndCapacity.ClaimLeavesRoom` | cmd/agent-symphony/operator_mutations_v2.go:929-945 | the place of a held claim suffices for whatever receipt its begin appends |
| `ClaimsAndCapacity.AppendKeepsWaiting` | cmd/agent-symphony/operator_mutations_v2.go:929-945 | append never evicts a waiting receipt, evicts only from a full list, and keeps the order of the others |
| `ClaimsAndCapacity.AppendRefusedIff` | cmd/agent-symphony/operator_mutations_v2.go:929-945 | append is refused if and only if the list is full of waiting receipts |
| `ClaimsAndCapacity.AppendKeepsNamedEffects` | cmd/agent-symphony/operator_mutations_v2.go:929-945 | append deletes no effect that a remaining receipt or tombstone names, except that it deletes the effect the appended receipt itself names if and only if the evicted receipt was the last to name it |
| `ClaimsAndCapacity.LostEffectWitness` | cmd/agent-symphony/operator_mutations_v2.go:905-916 | a ledger that passes the gate, full of claims but for one completed recovery, and a second request to recover that attempt: it is answered with the completed retry, which the append of that answer deletes; no step commits it |
| `ClaimsAndCapacity.LostEffectIsRefused` | cmd/agent-symphony/state_owner.go:3844-3848 | the commit gate refuses every begin whose append deletes the effect that its own receipt names |
| `ClaimsAndCapacity.SupersedeKeepsNamedEffects` | cmd/agent-symphony/operator_mutations_v2.go:705-722 | supersession deletes exactly the effects whose last reference it took away |
| `CandidateLedger.Candidate.RestampClaims` | cmd/agent-symphony/state_owner.go:1371-1375 | the loop gives every claim the new owner epoch and touches nothing else |
| `CandidateLedger.Candidate.MatchingAdmissions` | cmd/agent-symphony/operator_mutations_v2.go:144-157 | the loop returns the class of the claim in list order |
| `CandidateLedger.Candidate.IsLeader` | cmd/agent-symphony/operator_mutations_v2.go:159-166 | the early-exit loop decides leadership |
| `CandidateLedger.Candidate.FailAdmissions` | cmd/agent-symphony/operator_mutations_v2.go:127-141 | the loop fails exactly the class |
| `CandidateLedger.Candidate.ReconcileAdmissions` | cmd/agent-symphony/operator_mutations_v2.go:193-220 | the loop treats every claim by the observation, although it edits the list it walks |
| `CandidateLedger.Candidate.AdvanceRecoverReceipts` | cmd/agent-symphony/operator_mutations_v2.go:669-680 | the loop moves exactly the recoveries that wait in that phase on that effect, and reports whether there was one |
| `CandidateLedger.Candidate.CompleteReceipts` | cmd/agent-symphony/operator_mutations_v2.go:682-691 | the loop answers exactly the waiting receipts of the effect |
| `CandidateLedger.Candidate.FailReceipts` | cmd/agent-symphony/operator_mutations_v2.go:693-703 | the loop fails exactly the waiting receipts of the effect |
| `CandidateLedger.Candidate.DeleteRequest` | cmd/agent-symphony/state_owner.go:1570-1570 | the deletion keeps every other receipt in order |
| `CandidateLedger.Candidate.AppendOperatorReceipt` | cmd/agent-symphony/operator_mutations_v2.go:929-945 | the in-place append with its eviction computes the append of the ledger, and changes nothing when it is refused |
| `CandidateLedger.Candidate.CloseOthers` | cmd/agent-symphony/operator_mutations_v2.go:705-714 | the first loop closes exactly the other workflows of the attempt and collects exactly their effects |
| `CandidateLedger.Candidate.SupersedePendingWorkflows` | cmd/agent-symphony/operator_mutations_v2.go:705-722 | both loops together compute the supersession of the ledger, whatever order the second one visits its map in |
| `RecoveryTrace.RecoverySucceedsInOrder` | cmd/agent-symphony/operator_mutations_v2.go:605-691 | a recovery that began with a Stop reports success only after that Stop, then a terminal-failure update, then a retry update have completed, in that order, each update begun by a commit after the one that completed the work before it |
| `RecoveryTrace.AdvancesUnderPresent` | cmd/agent-symphony/operator_mutations_v2.go:619-667 | the update that a recovery turns to works under the attempt generation at which the recovery advanced |
| `EffectDates.UpdateFollowsStop` | cmd/agent-symphony/reconciliation_effects_v2.go:314-417 | over every run an update that is pending under a generation some Stop of its attempt had opened was begun after that Stop had completed |
| `EffectDates.UpdateFollowsUpdate` | cmd/agent-symphony/reconciliation_effects_v2.go:314-417 | over every run an update that is pending after another of its attempt completed was begun after that completion |
| `EffectDates.DatesHold` | cmd/agent-symphony/state_owner.go:1692-1802 | in every reachable ledger an effect works under a generation its attempt has reached, and what is pending beside a Stop was begun under an earlier one |
| `RecoveryTrace.RecoveryOnlyRises` | cmd/agent-symphony/operator_mutations_v2.go:669-680 | over every run the phase rank of a recovery never falls, and its receipt stays a recovery until it is answered |
| `RecoveryTrace.NextPhase` | cmd/agent-symphony/operator_mutations_v2.go:619-680 | on the way to success no phase is skipped, and the effect that is pending in a phase is the one that is completed in the next |
| `RecoveryTrace.PhaseWorks` | cmd/agent-symphony/operator_mutations_v2.go:1055-1087 | in every committed ledger the effect of a recovery is of the kind and in the state its phase demands |
| `RecoveryTrace.FinishSkipsAheadIff` | cmd/agent-symphony/operator_mutations_v2.go:605-613 | finishing a Stop answers a recovery before its updates were begun if and only if that Stop was already completed and the recovery still awaits its update: the repeated finish is accepted by the transition |
| `RecoveryTrace.RepeatedFinishWitness` | cmd/agent-symphony/operator_mutations_v2.go:605-613 | a ledger that passes the gate in which this happens |
| `RecoveryTrace.SkippingIsRefused` | cmd/agent-symphony/state_owner.go:3844-3848 | the commit gate refuses every such finish |
| `ReviewerAuthenticity.VerdictIsAuthentic` | cmd/agent-symphony/reconciliation_effects_v2.go:794-830 | over every run a run-observe reviewer completes as clean or findings only if its process group was bound, then exactly that result was sealed with exit code 0 and no signal from the same group, then it was finished with it |
| `ReviewerAuthenticity.GroupWasBound` | cmd/agent-symphony/reconciliation_effects_v2.go:570-641 | the group of a launched effect was bound by an earlier commit of one of the three commands that prove it |
| `ReviewerAuthenticity.ResultWasSealed` | cmd/agent-symphony/reconciliation_effects_v2.go:649-680 | a sealed result was sealed by an earlier commit whose terminal belonged to the group of the effect |
| `ReviewerAuthenticity.GroupAndSealAreWrittenOnce` | cmd/agent-symphony/reconciliation_effects_v2.go:570-680 | the group of an effect never changes once bound, nor its sealed result while it has not completed |
| `EffectExclusion.ReviewersExcludeMutations` | cmd/agent-symphony/reconciliation_effects_v2.go:314-417 | in every reachable ledger no issue has a pending run-observe reviewer together with a pending GitHub mutation other than machine status, and no attempt has two pending reconciliation effects |
| `EffectSteps.NewReconciliationAdmitted` | cmd/agent-symphony/reconciliation_effects_v2.go:993-1000 | a begun reconciliation effect is alone on its attempt and meets no reviewer or mutation that excludes it |
| `EffectSteps.ProposalSteps` | cmd/agent-symphony/state_owner.go:1290-1636 | in every proposed ledger each known effect keeps its intent and takes a permitted step, and at most one effect is new, under the revision of that commit and a generation its attempt has reached; a commit that creates an effect completes none |
| `OwnerRuns.EffectLives` | cmd/agent-symphony/state_owner.go:2559-2594 | an effect present at two points of a run was present throughout, with one intent; its group and its result, once there, are the same |
| `OwnerRuns.NeverReborn` | cmd/agent-symphony/state_owner.go:2559-2570 | an effect identifier that was used never comes back |
| `GenerationFence.FenceHolds` | cmd/agent-symphony/reconciliation_effects_v2.go:961-983 | once an attempt has passed the generation of an attempt-scoped effect or is tombstoned, then at every later commit finishing or superseding that effect leaves every attempt record as it is |
| `GenerationFence.FinishIsFenced` | cmd/agent-symphony/reconciliation_effects_v2.go:794-814 | a finish of such an effect is refused, or repeats the recorded result and changes nothing |
| `GenerationFence.SupersessionIsFenced` | cmd/agent-symphony/reconciliation_effects_v2.go:682-768 | a supersession of such an effect changes no attempt |
| `GenerationFence.RuntimeFinishIsFenced` | cmd/agent-symphony/state_owner.go:1804-1958 | a runtime finish of such an effect changes no attempt |
| `GenerationFence.CompletedAbsorbs` | cmd/agent-symphony/reconciliation_effects_v2.go:794-814 | a completed effect absorbs: over every run a later finish commits nothing and is answered only if it brings the very result the effect completed with |
| `GenerationFence.PassedStays` | cmd/agent-symphony/reconciliation_effects_v2.go:961-983 | what an attempt has passed it has passed for good |
| `RuntimeCoordinator.Coordinator.TryAcquire` | cmd/agent-symphony/runtime_effects.go:345-378 | one round of the admission loop under the mutex: the run is admitted if and only if the coordinator runs and the key is free, and otherwise the caller gets the run to wait for |
| `RuntimeCoordinator.Coordinator.ReleaseKey` | cmd/agent-symphony/runtime_effects.go:407-413 | the section takes the run out of the map and closes its channel if and only if the run still holds its key |
| `RuntimeCoordinator.Coordinator.Cancel` | cmd/agent-symphony/runtime_effects.go:414-414 | after its section a release cancels its run and keeps the lock consistent |
| `RuntimeCoordinator.Coordinator.CancelOlder` | cmd/agent-symphony/runtime_effects.go:417-424 | exactly the older run of the attempt is cancelled |
| `RuntimeCoordinator.Coordinator.CancelEffect` | cmd/agent-symphony/runtime_effects.go:434-442 | exactly the runs of the effect are cancelled, in any map order |
| `RuntimeCoordinator.Coordinator.CancelInvalidated` | cmd/agent-symphony/runtime_effects.go:444-491 | exactly the runs that the snapshot revokes are cancelled, in any map order |
| `RuntimeCoordinator.Coordinator.BeginShutdown` | cmd/agent-symphony/runtime_effects.go:380-390 | the first section stops admission, cancels every active run and returns exactly the channels to wait for |
| `RuntimeCoordinator.OneHolderPerKey` | cmd/agent-symphony/runtime_effects.go:345-378 | under every interleaving two runs whose channels are open hold different keys |
| `RuntimeCoordinator.ClosedExactlyOnLeaving` | cmd/agent-symphony/runtime_effects.go:407-415 | a step closes a channel exactly when it takes the run out of the map, a run that left never returns, and no channel is closed twice |
| `RuntimeCoordinator.RepeatedReleaseIsHarmless` | cmd/agent-symphony/runtime_effects.go:407-415 | releasing again changes nothing, and a release never frees the key of another run |
| `RuntimeCoordinator.ShutdownLeavesNothing` | cmd/agent-symphony/runtime_effects.go:380-400 | when all channels a shutdown waits for are closed, no run is active then or ever after |
| `RuntimeCoordinator.SnapshotRevokesExactly` | cmd/agent-symphony/runtime_effects.go:444-491 | after a snapshot every uncancelled run admitted at or before its revision is current in it, with a pending unrevoked effect if it names one; no run admitted later is cancelled, nor a current run whose reviewer passes the further checks |
| `OperatorService.OperatorMutationService.StartReserved` | cmd/agent-symphony/operator_service_v2.go:1307-1337 | a worker starts, holding its key, if and only if the service is open and the key is free |
| `OperatorService.OperatorMutationService.Reserve` | cmd/agent-symphony/operator_service_v2.go:1339-1357 | the key is reserved if and only if the service is open and the key is free |
| `OperatorService.OperatorMutationService.ReserveSuccessor` | cmd/agent-symphony/operator_service_v2.go:967-982 | a successor key is reserved if and only if the current key is held and the next one is free, also after closing |
| `OperatorService.OperatorMutationService.Release` | cmd/agent-symphony/operator_service_v2.go:1388-1396 | the key is given up and its signal closed |
| `OperatorService.OperatorMutationService.EnterPerform` | cmd/agent-symphony/operator_service_v2.go:105-119 | a request is let in if and only if the service is not closing |
| `OperatorService.OperatorMutationService.EnterCollect` | cmd/agent-symphony/operator_service_v2.go:741-752 | a collection is refused only when the service has stopped |
| `OperatorService.OperatorMutationService.ScheduleCacheSave` | cmd/agent-symphony/operator_service_v2.go:791-804 | a schedule marks the save pending and starts a saver if and only if none runs |
| `OperatorService.OperatorMutationService.SaverTurn` | cmd/agent-symphony/operator_service_v2.go:804-817 | a turn of the saver takes the pending mark and saves, or retires if there is none |
| `OperatorService.KeysAreExclusive` | cmd/agent-symphony/operator_service_v2.go:1339-1396 | under every interleaving a key is held by one task, the two maps have one domain, and a release signal is closed once, exactly when its key is given up |
| `OperatorService.NoSaveIsLost` | cmd/agent-symphony/operator_service_v2.go:791-818 | at most one saver runs; a request that no save has started after is still marked pending, and a pending mark has a saver that will look again |
| `OperatorService.CoveredMeansSaved` | cmd/agent-symphony/operator_service_v2.go:791-818 | a request counts as served only after a save that started later than it |
| `OperatorService.LateKeysDescend` | cmd/agent-symphony/operator_service_v2.go:967-982 | every key held after closing descends through successor steps from one held when closing began |
| `OperatorService.DrainLeavesNothing` | cmd/agent-symphony/operator_service_v2.go:1409-1435 | when the wait of the shutdown returns no key is held, no saver is left and every requested save has started |
| `OperatorService.DrainedStaysIdle` | cmd/agent-symphony/operator_service_v2.go:1409-1435 | from then on the service stays idle, whatever sections are entered |
| `OperatorService.AdmittedWorkCollects` | cmd/agent-symphony/operator_service_v2.go:741-776 | work that was let in can always collect, also while the service drains: the refusal of a collection is never met, and a collection ends before the work it runs in |
| `BootIdentity.ParseHostBootIdentity` | cmd/agent-symphony/boot_identity.go:12-30 | the scan accepts exactly the known sources with a canonical UUID, lower-cased, and a parsed identity is valid if and only if it is not the empty one |
| `BootIdentity.IsValid` | cmd/agent-symphony/boot_identity.go:32-34 | the check by parsing again decides validity |
| `BootIdentity.RebootIsSymmetricAndIrreflexive` | cmd/agent-symphony/boot_identity.go:36-38 | the relation between two boots is symmetric and never relates a boot to itself; two valid boots of one source are related or equal |
| `LegacyReviewerBoot.LegacyQuarantines.Reconcile` | cmd/agent-symphony/legacy_reviewer_boot.go:105-138 | although it edits the maps it iterates over, the loop computes one and the same ledger in every order |
| `LegacyReviewerBoot.LegacyQuarantines.CollectEvidence` | cmd/agent-symphony/legacy_reviewer_boot.go:76-103 | the four loops collect exactly the evidence of the issue, in any map order |
| `LegacyReviewerBoot.LegacyQuarantines.Admit` | cmd/agent-symphony/legacy_reviewer_boot.go:59-66 | an admission quarantines the issue and drops its baseline |
| `LegacyReviewerBoot.LiftedAfterTwoBoots` | cmd/agent-symphony/legacy_reviewer_boot.go:105-138 | over every run a quarantine is lifted only if an earlier reconciliation recorded the same evidence at a valid boot of the same source with another UUID, and nothing was admitted for the issue in between |
| `LegacyReviewerBoot.BaselineWasBound` | cmd/agent-symphony/legacy_reviewer_boot.go:111-136 | a baseline with a boot was recorded by an earlier reconciliation, with no admission since |
| `LegacyReviewerBoot.ReleasesWereBound` | cmd/agent-symphony/legacy_reviewer_boot.go:121-130 | every released record was in the evidence of an issue when that was lifted, or is the same manifest at a later generation as one that was |
| `LegacyReviewerBoot.ReconcileIsIdempotent` | cmd/agent-symphony/legacy_reviewer_boot.go:105-138 | reconciling twice with one boot is reconciling once |
| `LegacyReviewerBoot.ReconcileKeepsProvenanceIff` | cmd/agent-symphony/legacy_reviewer_boot.go:140-152 | reconciling keeps the validity of the provenance if and only if no issue that stays quarantined has an empty diagnostic |
| `LegacyReviewerBoot.EvidenceNamesItsIssue` | cmd/agent-symphony/legacy_reviewer_boot.go:76-103 | evidence of different issues is disjoint, and the historical evidence is part of the whole |
| `EffectMarkers.MarkerStore.Write` | cmd/agent-symphony/reconciliation_markers_v2.go:37-90 | a marker is linked once and never replaced: writing succeeds if and only if there was none or one with the same result, and the directory is synced either way |
| `EffectMarkers.MarkerStore.Remove` | cmd/agent-symphony/reconciliation_markers_v2.go:204-225 | the marker is gone and its removal synced |
| `EffectMarkers.MarkerStore.ReclaimOrphans` | cmd/agent-symphony/reconciliation_markers_v2.go:227-296 | exactly the markers of effects that are not pending, and all temporary files, are removed, and the directory is synced if anything was |
| `EffectMarkers.PendingMarkerStays` | cmd/agent-symphony/production_cycle_v2.go:70-160 | no step but a crash removes the marker of a pending effect, and a crash removes none that is durable |
| `EffectMarkers.DurableMarkerStays` | cmd/agent-symphony/reconciliation_markers_v2.go:204-296 | through any crashes a durable marker of an effect that stays pending stays, with its result |
| `EffectMarkers.OneResultPerEffect` | cmd/agent-symphony/reconciliation_markers_v2.go:37-90 | over a whole history with any crashes no two different results are ever durably installed for one effect |
| `EffectMarkers.RecordedAfterInstalled` | cmd/agent-symphony/handoff_outcomes_v2.go:84-116 | an executor has its result recorded only when the marker that proves it is durable |
| `EffectMarkers.SweptMarkersArePending` | cmd/agent-symphony/production_cycle_v2.go:70-160 | a finished sweep leaves markers only for effects that were pending when it reclaimed, and synced so if it removed any; admission starts only then |
| `EffectMarkers.OutcomeRemovedAfterCompletion` | cmd/agent-symphony/handoff_outcomes_v2.go:118-142 | an outcome file is removed only for an effect whose request names that very file and that was recorded as completed before |
| `EffectMarkers.CrashKeepsDurableOutcome` | cmd/agent-symphony/handoff_outcomes_v2.go:118-142 | a crash never loses an outcome file that was durable |
| `TmuxWords.ParseCanonicalTmuxWords` | cmd/agent-symphony/host.go:2068-2103 | the nested loops end, accept a text if and only if it is the encoding of some encodable word list, and return the only such list |
| `TmuxWords.TmuxCommandString` | internal/runtime/implementation_identity.go:406-418 | the loop encodes exactly the nonempty lists of words without a zero character |
| `TmuxWords.EncodedReadsBack` | cmd/agent-symphony/host.go:2068-2100 | reading the encoding of any nonempty word list gives that list back |
| `TmuxWords.EncodingIsInjective` | internal/runtime/implementation_identity.go:406-418 | no two word lists have one encoding |
| `TmuxWords.TrailingSpaceIsRefused` | cmd/agent-symphony/host.go:2093-2103 | no text that ends in a space is accepted, whatever comes before the space |
| `RuntimeLifecycle.FirstUnreservedAttempt` | cmd/agent-symphony/production_cycle_v2.go:1432-1445 | the loop ends and returns the least free number at or above the proposal; the wrapping increment makes it zero when there is none |
| `RuntimeLifecycle.FirstFree` | cmd/agent-symphony/production_cycle_v2.go:1432-1445 | the number returned has no generation, record or tombstone and every number between it and the proposal has one |
| `RuntimeLifecycle.SearchIsShort` | cmd/agent-symphony/production_cycle_v2.go:1432-1445 | the search passes over no more numbers than are reserved for the issue, so it finds one unless the proposal is that close to the largest |
| `RuntimeLifecycle.CurrentPreparingReplacement` | cmd/agent-symphony/production_cycle_v2.go:1400-1416 | in any map order the loop finds the one replacement that is being prepared, none, or fails exactly if there are two |
| `RuntimeLifecycle.PlanRuntimeLifecycle` | cmd/agent-symphony/production_cycle_v2.go:1255-1398 | the planner fails on a batch that names an issue twice; otherwise, in any order of the observations, it fails if and only if some issue fails, and else returns exactly the entries of the issues, at most one each, ascending |
| `RuntimeLifecycle.PlanIssues` | cmd/agent-symphony/production_cycle_v2.go:1280-1398 | the same over a batch whose bodies are collected |
| `RuntimeLifecycle.CollectBodies` | cmd/agent-symphony/production_cycle_v2.go:1259-1266 | the loop refuses a batch if and only if it names an issue twice, and else maps every issue it names to its body |
| `RuntimeLifecycle.AscendingIsUnique` | cmd/agent-symphony/production_cycle_v2.go:1255-1398 | the entries alone determine the plan, so the iteration order does not show |
| `RuntimeLifecycle.PlansRespectReservations` | cmd/agent-symphony/production_cycle_v2.go:1280-1398 | an attempt is prepared if and only if nothing has taken its number, any other entry is for an attempt the owner holds, and none has a pending effect or a tombstone |
| `RuntimeLifecycle.FreshNumberIsLeast` | cmd/agent-symphony/production_cycle_v2.go:1432-1445 | between the proposal of the scheduler and the number a plan prepares every number is taken |

## Left out

Scope of the ledger model:

- One repository: an issue is a number and an attempt is a pair of numbers.
- Digests are modelled by what they digest, which is what injectivity means; the
  digest text of a runtime request is an uninterpreted string.
- Runs start from a new ledger, and the trace of the boot protocol without
  baselines and releases. What a start of the owner does besides raising its
  epoch is modelled by what it may leave: any worker profile, quarantines and
  reviewer proofs, dispatch marks on pending mutations, Stops recorded in their
  attempts. Its migrations of tombstones written by earlier versions are not.
- Guards on parts of the ledger that no property here reads (manifest fields,
  worker confinement, projected operator status, most field-by-field request
  validation) are Boolean inputs named `external`, `valid`, `statusAllows` and
  the like; every theorem holds for all their values.
- Commands outside the model (governance phases, pull-request recoveries, machine
  status admission, worker seals, start gates and others) are one command that
  may replace observations, raise issue generations, drop, invalidate or dispatch
  effects and forget proofs. It cannot touch receipts, attempts or tombstones.
- The generic commands `recordEffect`, `completeEffect` and `recordControlReceipt`,
  which production code does not send.
- The gate is modelled as far as it speaks of receipts and effect keys; the rest
  of the validation only refuses more.
- Outcomes of finished reconciliation effects are modelled where they change
  attempts, effects, proofs or receipts; what they write into the records of
  machine statuses, control repairs, governance and recoveries is not.
- A reviewer superseded by a Stop or a cleanup is bound by its effect identifier; the pane and
  broker certificates are opaque.
- Updates of the private copy of the ledger are modelled on values, except for
  the loops in `CandidateLedger`: the copy is committed or dropped whole, so
  aliasing within it is not visible.

Members that state less than one might look for:

- LedgerRuns.LedgerHoldsThroughout: ranges over disciplined commands, that is, reserved actions are begun as the service begins them and a pending launch is never invalidated without a cleanup; what undisciplined begins do is stated exactly by LedgerInvariant.UnclaimedBeginKeepsLedgerIff.
- ReviewerAuthenticity.GroupAndSealAreWrittenOnce: a completed reviewer is excepted for the sealed result, because supersession clears it.
- OperatorService.NoSaveIsLost: a safety statement; that a scheduled saver is eventually run by the scheduler is not stated.
- RuntimeCoordinator.ShutdownLeavesNothing: takes the closing of the awaited channels as given, which is when the shutdown returns without error; waiting itself, and the retry after a wait in `acquireKey`, appear as separate rounds.
- RuntimeCoordinator.SnapshotRevokesExactly: a current run may still be cancelled when its reviewer effect fails the further checks of a snapshot.
- EffectMarkers.OneResultPerEffect: takes a verification not to overlap an executor of the same effect; a synchronous or watching resume of the service verifies without the reservation that otherwise keeps them apart.
- EffectMarkers.SweptMarkersArePending: speaks of effects pending when the sweep reclaimed; an operator may conclude one before the sweep returns.
- EffectMarkers.CrashKeepsDurableOutcome: after a removal that was not yet synced a crash may bring the outcome file back.
- RuntimeLifecycle.PlanRuntimeLifecycle: the decisions of the scheduler are an input.

Not modelled at all:

- tmux, git, `ps`, signals, sandbox probes and host provisioning: foreign
  commands whose behaviour is not in the code.
- HTTP, websocket, dashboard, control socket and command line: input and output.
- File modes, owners, symbolic links and path resolution; a directory is a map
  with link, remove and sync, and a linked marker is whole because its content is
  synced before it is linked.
- JSON, clone functions, redaction and the texts of diagnostics, apart from the
  diagnostics that predicates compare.
- The boundary environment filter (`host.go`, `internal/github/security.go`): a
  conjunction of name tests, which would only add easy members.
- Plan-review watchers of the service: their cancel map follows the key
  reservations that are modelled.
- Clocks and contexts: a cancelled wait is a round that is not granted.
