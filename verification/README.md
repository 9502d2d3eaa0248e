# OpenRails in Dafny

A model of the parts of OpenRails whose correctness depends on histories, interleavings or encodings, with proofs of
what those parts promise. Each module follows one source file or one object of it; what the source updates in place
is a class whose methods are proved against functions, and the properties are lemmas about those functions.

- **Agent kernel** (`KernelTypes`, `Policy`, `KernelOps`, `AgentKernel`, `KernelSafety`, `KernelLifecycle`,
  `KernelFrames`, `KernelHistory`, `KernelStanding`, `KernelGuards`, `KernelCommands`, `KernelSpending`, `KernelJobs`,
  `KernelRegistry`, `KernelPayments`, `KernelCases`, `KernelExposure`, `KernelWitness`, `KernelScenario`,
  `KernelNecessity`): sixteen operations on a draft state, the policy evaluator, when each operation is accepted, and
  what holds over every run. `AgentKernel.Draft` runs the operations in place; its contract is one transition of the
  kernel, and `KernelStore` makes it the operation that the store serialises. What is computed outside a transaction
  (the chain verifier's observation, a plugin's verdict, an identity answer, a worker's candidate job) is an arbitrary
  input; hashes, stable identifiers and signature recovery are parameters of the environment.
- **Stores and locks** (`SerialStore`, `KernelStore`, `NonceEngine`): the promise-tail mutex and the per-key lock as
  state machines cut at each `await`, over every interleaving.
- **Canonical text** (`CanonicalValues`, `Canonical`, `JsonReader`, `TypedData`, `Metadata`): sorting, printing, reading
  back and hashing.
- **Stream gateway** (`TerminationQueue`, `StateStore`, `Gateway`, `GatewayBalance`, `GatewaySweep`, `StreamGateway`,
  `ProviderPool`, `Timer`): log handling with duplicates, crashes and restarts, the expiry queue, the workflow index,
  the provider rotation and the drift-compensated timer.
- **SDK codecs and scans** (`Base64Url`, `Utf8`, `Hex`, `KnownAnswers`, `CompactLink`, `LinkRoundTrip`, `LinkLayout`,
  `LinkCodec`, `IntentBinary`, `LogScan`): the compact link, the 200-byte intent and the backward log scan.
- **Rate limiter** (`RateLimiter`).

`dafny verify dfyconfig.toml` checks the whole project.

Where the code differs from what one might expect of it, the model follows the code:

- A Pact that awaits signatures reserves nothing and signing does not check limits again, so two Pacts can together
  exceed a Path's exposure (`KernelWitness.OverlappingPactsAddUp`). The signature that accepts a Pact keeps the limit
  exactly when what is reserved and the Pact fit together before the call (`KernelWitness.AcceptanceKeepsLimit`). Over
  runs the bound needs three conditions (`KernelExposure.ReservedExposureBounded`); for each there is a run that breaks
  it at one step, only there, and ends beyond the limit (`KernelNecessity`). Those runs exist in every environment in
  which parties can sign; `KernelScenario.StagedEnv` is one for any way of signing.
- A Gaia case disputes a Pact in any status and a plugin's approval completes one in any status, so `completed`,
  `disputed` and `rectification_required` do not imply an opening (`KernelNecessity.CompletedWithoutOpening`); `active`,
  `performing` and `settled` do. A Pact is in one of those three statuses without an opening exactly when a Gaia case
  was accepted on it before its opening (`KernelCases.UnopenedExactlyAfterEarlyCase`).
- A resolved Gaia case can be resolved again; the last ruling stands (`KernelCases.CasesStandAsRuled`).
- A withdrawal handled before its paycard is provisioned is lost (`GatewayBalance.EarlyFlushIsLost`). The stored
  balance is what all of a paycard's logs say exactly when those since it was provisioned leave nothing anyway or those
  before moved nothing (`GatewayBalance.BalanceTellsAllLogs`).
- A link whose address is forty zeros without `0x` serialises but cannot be read back; a string that starts with a
  byte order mark loses it (`LinkRoundTrip.LinksComeBack`).
- A log whose block lookup fails is not handled again before the gateway restarts (`Gateway.FailedLookupIsDropped`).
- The timer's first tick comes two intervals after `start`, not one (`Timer.Slot`).

Modelling assumptions: amounts are natural numbers and clocks do not run backwards (in the rate limiter and the timer,
over reals); the order of object keys is a total order; strings are well-formed Unicode; the provider and the registry
answer consistently during one scan; a file store's save is atomic, so a failed load or save leaves the stored state
alone.

## Model

| member | source | states |
|---|---|---|
| KernelSafety.ExecutingPactsAreAuthorised | agent-kernel/src/runtime.ts:139-158 | In every reachable state an active, performing or settled Pact was opened by the recorded transaction on the chain and vault of its terms, under the Paycard and metadata it was prepared with, between the payer, recipient and residual recipient of its terms, with their allocation, velocity and lifespan, not terminated and with a positive balance; its authority and, where required, its counterparty signed its terms hash, and its terms still hash to it |
| KernelSafety.SettlementsAreOfThePact | agent-kernel/src/runtime.ts:160-173 | In every reachable state each recorded settlement was observed on the Pact's chain and vault, from its Paycard to its recipient, after an opening, and no transaction is on record twice |
| KernelSafety.OpenedPactsStayOpened | agent-kernel/src/runtime.ts:725-808 | Between any two states of a run a Pact keeps its terms, hash and signatures; once opened it never returns to a status before the opening, nor changes its Paycard, nonce or opening observation, and its settlements only grow |
| KernelSafety.StepSound | agent-kernel/src/runtime.ts:362-1072 | Each of the sixteen operations keeps the invariant of every stored Pact and keeps what earlier states said of it |
| KernelLifecycle.StepAdvances | agent-kernel/src/runtime.ts:692-1072 | Every operation leaves a Pact alone or moves it along one edge of that operation's life cycle, counting one revision |
| KernelLifecycle.RevisionCountsChanges | agent-kernel/src/runtime.ts:587-1072 | Over every run a Pact's revision is the number of states it has been in, the first of them awaiting signatures, each reached from the last along an edge |
| KernelHistory.ActivationsFormChain | agent-kernel/src/runtime.ts:449-491 | The activations of a Path are revisions 1, 2, ..., each naming the hash of the one before, under one Workspace, owner and authority; the stored Path is the newest |
| KernelHistory.PactsNameTheirRevision | agent-kernel/src/runtime.ts:611-685 | Every stored Pact names, by revision and by hash, a link of its Path's chain |
| KernelHistory.PaidOnlyAtOwnRevision | agent-kernel/src/runtime.ts:118-137 | Every accepted preparation, a repeated one included, and every accepted opening happens while the Workspace and the Agent are active and the Path is active, inside its window, still at the exact revision and hash the Pact was created under, and lists the Pact's Agent, action, asset and counterparty |
| KernelHistory.BoundOnlyByPaying | agent-kernel/src/runtime.ts:725-808 | No other call, accepted or refused, touches what a Pact's payment was prepared or opened with |
| KernelStanding.PactsSayWhatWasAgreed | agent-kernel/src/runtime.ts:611-685 | Over every run a stored Pact says what its stored Proposal says, who pays whom, in what, how much, how fast and how long, on the configured chain and vault; its free-form terms and policies are those of one creating call of the run, and its decision hash covers what the evaluator saw at that call |
| KernelStanding.PactsRespectTheirPath | agent-kernel/src/evaluator.ts:59-118 | Over every run a stored Pact lies within the signed revision of the Path that it names: its Workspace, Agent, action and rank, asset, counterparty, evidence plugin, allocation, velocity and duration |
| KernelGuards.EligibleExactly | agent-kernel/src/runtime.ts:118-137 | In a reachable state a Pact may execute exactly while its Agent is active, its Path has not been revised since its creation and the Path's window is open; the other checks cannot fail there |
| KernelGuards.PreparationAcceptedExactly | agent-kernel/src/runtime.ts:725-749 | A payment is prepared exactly for a signed, not yet opened Pact that may execute, at timestamps and nonces that are not negative |
| KernelGuards.OpeningAcceptedExactly | agent-kernel/src/runtime.ts:750-808 | A payment is opened exactly when the Pact may execute, is prepared under the ids of the call, and every observed field is the one agreed or prepared, with status 0 and a positive balance |
| KernelGuards.SettlementAcceptedExactly | agent-kernel/src/runtime.ts:1037-1057 | A settlement is recorded exactly for an opened Pact and a positive amount observed to be paid by that transaction from its Paycard to its recipient on its chain and vault |
| KernelGuards.SignatureAcceptedExactly | agent-kernel/src/runtime.ts:692-723 | A signature is accepted exactly from the authority or the counterparty, as that party's recorded one again, or as its first, verified, while the Pact awaits signatures |
| KernelGuards.CheckpointAcceptedExactly | agent-kernel/src/runtime.ts:840-870 | A checkpoint is accepted exactly when it names its Pact's Workspace, Path, terms, counterparty and Paycard, is the next of an active, performing or disputed one, and is signed in time by the acting party or the Agent's operator |
| KernelGuards.VerificationAcceptedExactly | agent-kernel/src/runtime.ts:872-888 | A verdict is taken exactly from the plugin version and code the Pact names, while that is active and installed in the Workspace |
| KernelGuards.ClaimAcceptedExactly | agent-kernel/src/runtime.ts:902-933 | A Gaia case is opened exactly on a claim that one party of the Pact signed against the other, in time, naming its Workspace, Path and Paycard, whatever the Pact's status |
| KernelGuards.CallsMovePacts | agent-kernel/src/runtime.ts:692-1072 | Over every run an accepted call moves its Pact to the status its operation gives, counting one revision, or leaves it where nothing changes; it touches no other Pact, and a refused call touches none |
| KernelGuards.ActivationAcceptedExactly | agent-kernel/src/runtime.ts:449-491 | A Path is activated exactly when it is proper, signed by its Workspace's authority for an active owner, lists active Agents of the Workspace and is the first of its identifier or follows its last activation |
| KernelGuards.RegistrationAcceptedExactly | agent-kernel/src/runtime.ts:362-420 | A Workspace or an Agent is registered exactly when it is new, at a positive revision and signed by its authority |
| KernelCommands.CommandsAcceptedExactly | agent-kernel/src/runtime.ts:175-201 | Over every run the status, plugin and Gaia calls are accepted exactly on a command that the authority of the stored active Workspace signed, at its revision, with the next nonce, before it expires, at most 30 seconds before it is issued, for at most 15 minutes, naming the operation and the hash of exactly what is done, on the Workspace's own Agent, plugin installation or case |
| KernelCommands.AcceptedCommandsAreSigned | agent-kernel/src/runtime.ts:196-199 | Every command that a run accepted for a Workspace was signed by the authority of the Workspace as stored, at its revision |
| KernelSpending.SpentIsPaid | agent-kernel/src/evaluator.ts:45-53 | Over every run the evaluator's spending of a Path's period is the sum of the allocations observed by the run's accepted openings of its Pacts in the last periodSeconds, clocks being in milliseconds |
| KernelSpending.AllowedExactly | agent-kernel/src/evaluator.ts:59-145 | Over every run a Proposal is allowed exactly under written-out conditions on Workspace, Agent, action, Path, lists, amounts and identity, with room left by what the signed, unsettled Pacts allocate, by their number and by what the openings of the period allocated |
| KernelSpending.CreationAcceptedExactly | agent-kernel/src/runtime.ts:587-640 | Over every run a Pact is created exactly from a stored, allowed Proposal with a counterparty and an Agent of its Workspace, with its evidence plugin ready; it then fits the Path's period together with the openings the run accepted |
| KernelHistory.CommandsNeverReplay | agent-kernel/src/runtime.ts:175-201 | The accepted signed commands of a Workspace carry the nonces 0, 1, 2, ... in order, so none is accepted twice |
| KernelJobs.EveryProposalHasOneJob | agent-kernel/src/runtime.ts:493-585 | Every stored Proposal has exactly one job, and no committed state holds a running job |
| KernelJobs.ResubmissionIsIdempotent | agent-kernel/src/runtime.ts:493-527 | Resubmitting a stored Proposal changes nothing and answers with its job; a different Proposal under its idempotency key is refused |
| KernelJobs.EvaluatedAtMostOnce | agent-kernel/src/runtime.ts:529-585 | However workers interleave, a job is evaluated at most once |
| KernelJobs.JobsTellDecisions | agent-kernel/src/runtime.ts:533-584 | Over every run a job is queued until its one evaluation and then completed or blocked as its Proposal was allowed or not |
| KernelJobs.SubmissionAcceptedExactly | agent-kernel/src/runtime.ts:493-512 | Over every run a Proposal is accepted exactly when it is payable and new, or the one recorded for its idempotency key |
| KernelRegistry.EvidencePolicyStays | agent-kernel/src/runtime.ts:810-838 | Over every run the plugin a Pact was created with stays installed under the digest the Pact names, so no verification is refused because an installed digest changed |
| KernelRegistry.DigestsNeverChange | agent-kernel/src/runtime.ts:824-835 | Between any two states a plugin version keeps its code digest |
| KernelRegistry.AgentsObeyCommands | agent-kernel/src/runtime.ts:422-447 | Over every run an Agent is as registered, with the status of its last accepted command and one revision for each |
| KernelRegistry.AssignmentsFollowActivations | agent-kernel/src/runtime.ts:484-487 | Over every run an Agent is assigned a Path exactly when it was registered so or an accepted activation listed it |
| KernelPayments.AwaitsExactlyWhileUnsigned | agent-kernel/src/runtime.ts:692-723 | Over every run a Pact that is not completed, disputed or up for rectification awaits signatures exactly while the authority's, or a required counterparty's, is missing |
| KernelPayments.SigningOrderIrrelevant | agent-kernel/src/runtime.ts:692-723 | Whichever party signs first, the Pact ends up accepted with one revision more, also when the second signature is no longer taken |
| KernelPayments.PaymentFollowsProtocol | agent-kernel/src/runtime.ts:725-808 | Over every run the accepted calls that pay for a Pact are preparations, then at most one opening, of what the last of them prepared, then settlements, and the payment on record is what they tell |
| KernelPayments.TransactionsSettleOnce | agent-kernel/src/runtime.ts:1052-1071 | Every settled transaction is on record exactly once, by an observation of an accepted call |
| KernelCases.CheckpointsAreNumbered | agent-kernel/src/runtime.ts:840-870 | Over every run the checkpoints accepted for a Pact carry the indices 1, 2, 3, ... each exactly once |
| KernelCases.CasesStandAsRuled | agent-kernel/src/runtime.ts:945-1009 | Over every run a Gaia case is open exactly until a resolver's first accepted ruling and stands as the last one left it |
| KernelCases.UnopenedExactlyAfterEarlyCase | agent-kernel/src/runtime.ts:872-942 | Over every run a Pact is completed, disputed or up for rectification without an opening exactly when a Gaia case was accepted on it in a status before the opening |
| KernelCases.CompletesUnopened | agent-kernel/src/runtime.ts:872-900 | An accepted verification completes a Pact without an opening exactly when the Pact has none, the verdict approves and the checkpoint completes, all of which can be seen before the call |
| KernelExposure.ReservedExposureBounded | agent-kernel/src/evaluator.ts:104-118 | In every run that does not lower limits, creates a Pact only while none on its Path awaits signatures and takes none out of settled, reserved allocations and their number stay within the Path's limits |
| KernelExposure.DisciplinedRunsAreBounded | agent-kernel/src/evaluator.ts:22-43 | The inductive form: Pacts awaiting signatures are counted too |
| KernelWitness.PendingPactIsInvisible | agent-kernel/src/evaluator.ts:22-36 | In every reachable state, creating a Pact changes no decision of the evaluator, in either direction: until it is signed it is invisible |
| KernelWitness.OverlappingPactsAddUp | agent-kernel/src/runtime.ts:692-723 | In every reachable state two Pacts that are each allowed can be created and then signed, each with a signature that need verify over its own terms by its own authority only, and the exposure becomes the sum of both and what was there |
| KernelWitness.AcceptanceKeepsLimit | agent-kernel/src/evaluator.ts:104-118 | In every reachable state the signature that accepts a Pact keeps the exposure limit exactly when what is reserved and the Pact's allocation fit together before the call |
| KernelNecessity.SignatureConditionNeeded | agent-kernel/src/runtime.ts:692-723 | Where every party can sign, a run that is disciplined except that one Pact is created while another awaits signatures ends beyond the exposure limit |
| KernelNecessity.LimitConditionNeeded | agent-kernel/src/runtime.ts:449-491 | The same for a run whose only lapse is a Path revision that lowers the limit below what is reserved |
| KernelNecessity.SettledConditionNeeded | agent-kernel/src/runtime.ts:911-942 | The same for a run whose only lapse is a Gaia case that takes a settled Pact back into dispute |
| KernelNecessity.ActivePactReached | agent-kernel/src/runtime.ts:587-808 | A disciplined run creates, signs, prepares and opens a Pact: the guards can all be met |
| KernelNecessity.CompletedWithoutOpening | agent-kernel/src/runtime.ts:872-942 | A run ends with a completed Pact that has no opening: disputed while it awaits signatures, then delivered on and approved |
| Policy.EvaluateProposal | agent-kernel/src/evaluator.ts:59-145 | The reasons reported are exactly those that apply, and the result is ALLOW exactly when none does, which `KernelSpending.AllowedExactly` writes out |
| Policy.CounterpartyReasons | agent-kernel/src/evaluator.ts:120-141 | The counterparty list and every required identity requirement are enforced, an empty list meaning any |
| Policy.LimitReasons | agent-kernel/src/evaluator.ts:113-118 | A limit reason is reported exactly when that limit is exceeded |
| Policy.Attenuation | agent-kernel/src/evaluator.ts:22-145 | What is allowed under a narrower Path, its period no shorter, in a state with at least the reserved Pacts and logged events is allowed under the wider Path in the quieter state |
| AgentKernel.Draft.ActivatePath | agent-kernel/src/runtime.ts:449-491 | The Path is stored with its hash and each listed Agent is assigned once, or nothing changes |
| AgentKernel.Draft.AssignAgents | agent-kernel/src/runtime.ts:484-487 | Each authorised Agent that is known gets the Path once, however often it is listed |
| AgentKernel.Draft.RunJob | agent-kernel/src/runtime.ts:533-584 | One evaluation of a job that is still queued, with the result the evaluator gives |
| AgentKernel.Draft.CreatePact | agent-kernel/src/runtime.ts:587-685 | A Pact is added exactly when the evaluator allows its Proposal in the same draft; the Pact binds the stored Path and plugin |
| AgentKernel.Draft.Perform | agent-kernel/src/runtime.ts:362-1072 | Whatever the operation, the lookups, throws, loops and updates of its method on the draft are exactly one transition of the kernel that the results over runs are about |
| SerialStore.TransactionsAreSerial | agent-kernel/src/store.ts:47-67 | Under every interleaving at most one call is between its awaits, calls commit in call order, the stored state is the one they produce one after another, and each answers what it answers alone; a call that throws leaves the state alone |
| SerialStore.CallsAsMade | agent-kernel/src/store.ts:53-66 | The calls are the operations handed in, in that order, and a call counts as broken only when its load or save rejected |
| SerialStore.NothingBlocks | agent-kernel/src/store.ts:53-66 | While a call has not settled, a segment of it or of an earlier call can run, so a throwing call blocks nobody |
| SerialStore.SegmentsTerminate | agent-kernel/src/store.ts:53-66 | Every segment uses up work, so calls settle once no more arrive |
| SerialStore.SerializedStore.Transact | agent-kernel/src/store.ts:53-57 | A call takes the tail promise as its predecessor and becomes the tail |
| SerialStore.SerializedStore.Operate | agent-kernel/src/store.ts:58-65 | The operation runs on the call's own draft; when it throws the lock is released |
| SerialStore.SerializedStore.Save | agent-kernel/src/store.ts:61-61 | The draft becomes the stored state in one step |
| KernelStore.StoredStateIsReachable | agent-kernel/src/store.ts:47-79 | Whatever the interleaving of kernel calls, the stored state is that of a run of the committed calls in call order, so every result about runs holds of it |
| KernelStore.Kernel.Transact | agent-kernel/src/store.ts:53-67 | A call operates on a clone of the stored state and replaces it by the transition's result, or throws and leaves it |
| KernelStore.TransactionsPerform | agent-kernel/src/store.ts:53-67 | What every kernel call hands to the store is an operation that performs its transition or throws where that changes nothing, so the store's serial order applies to it |
| Canonical.CanonicalJsonDecidesEquality | agent-kernel/src/canonical.ts:4-33 | Two values have the same canonical text exactly when they are equal up to object key order at every depth |
| Canonical.PrintPrefix | agent-kernel/src/canonical.ts:30-33 | A printed value is recognised in front of whatever delimiter follows, which makes the text injective |
| Canonical.NormalizeDecides | agent-kernel/src/canonical.ts:18-28 | Two values normalise alike exactly when they are equal up to key order |
| JsonReader.CanonicalTextReadsBack | agent-kernel/src/canonical.ts:4-33 | Canonical text is JSON text (RFC 8259) of the value: read back it is the value up to key order, with keys in order at every depth; exactly values JSON cannot hold have none |
| TypedData.HashDecidesEquality | agent-kernel/src/canonical.ts:40-42 | With a collision-free digest the canonical hash decides the same equality |
| TypedData.TermFieldsAre | agent-kernel/src/typedData.ts:95-121 | What is hashed of a Pact are these twenty-three fields under version openrails-pact-terms-v1 |
| TypedData.PaymentFieldsAre | agent-kernel/src/types.ts:164-175 | The payment terms inside are these nine fields |
| TypedData.TermsHashBinds | agent-kernel/src/typedData.ts:95-129 | Equal terms hashes mean equal terms, up to key order inside the two free-form objects, and the other way round |
| TypedData.TermsHashNamesPact | agent-kernel/src/typedData.ts:95-129 | Over every run a terms hash names one Pact for good: whatever happens in between, two stored Pacts share a hash exactly when they are the same Pact |
| Metadata.NormalizeValue | sdk/src/metadata.ts:23-34 | The loop over sorted keys yields the value without its undefined fields, sorted at every depth |
| Metadata.MetadataJsonDecidesEquality | sdk/src/metadata.ts:23-38 | Metadata has the same canonical text exactly when it says the same, undefined fields dropped and key order aside |
| JsonReader.MetadataTextReadsBack | sdk/src/metadata.ts:23-38 | Metadata text reads back as what the metadata says, undefined fields dropped, keys in order |
| Metadata.ToldSays | sdk/src/metadata.ts:23-34 | An object says exactly its fields that are not undefined, an array each element, undefined ones as null, and everything else itself |
| NonceEngine.NoncesAreConsecutive | sdk/src/nonce.ts:103-138 | Under every interleaving the calls on a key return, in call order, the numbers that follow the adapter's initial value without a gap or a repeat |
| NonceEngine.NoLockForIdleKey | sdk/src/nonce.ts:103-121 | The lock table has an entry for exactly the keys on which a call has not settled |
| NonceEngine.OtherKeysUntouched | sdk/src/nonce.ts:103-121 | An event on one key changes nothing that calls on another key depend on |
| NonceEngine.NothingBlocks | sdk/src/nonce.ts:103-121 | While a call on a key has not settled, an event of that key alone can go on |
| NonceEngine.EventsTerminate | sdk/src/nonce.ts:103-121 | Every event but a new call uses up work, so calls settle once no more arrive |
| NonceEngine.KeysSeparateLanes | sdk/src/nonce.ts:99-101 | Two calls share a key exactly when their accounts differ at most in case and their channels are equal |
| NonceEngine.Engine.NextNonce | sdk/src/nonce.ts:103-112 | A call awaits the promise in the lock table, if there is one, and puts its own there |
| NonceEngine.Engine.Release | sdk/src/nonce.ts:115-120 | The lock entry goes unless a later call has replaced it |
| Gateway.EachLogAtMostOnce | stream-gateway/index.ts:264-301 | Under every interleaving of live and backfilled handlers, duplicates, failed lookups, crashes and restarts, each log takes effect at most once |
| Gateway.RedeliveredAfterRestart | stream-gateway/index.ts:264-301 | After a restart a log delivered again takes effect exactly when its event was not on record: what was awaited or had failed when the process died is not lost |
| Gateway.FailedLookupIsDropped | stream-gateway/index.ts:270-282 | A log whose block lookup fails changes nothing, and delivering it again does nothing before a restart |
| GatewayBalance.BalanceFollowsLogs | stream-gateway/index.ts:354-416 | A tracked stream's balance is max(0, allocation - sum of withdrawals) of the logs applied since it was provisioned, or 0 after a reclaim; it has terminated exactly when it was reclaimed or drained |
| GatewayBalance.OrderIrrelevant | stream-gateway/index.ts:384-416 | Two gateways that, since a paycard was last provisioned with the same allocation, applied the same logs to it in any order agree on its balance and on termination |
| GatewayBalance.TerminatedWhenEmpty | stream-gateway/index.ts:384-416 | For a positive allocation a stream has terminated exactly when its balance is zero |
| GatewayBalance.EarlyFlushIsLost | stream-gateway/index.ts:384-386 | A withdrawal handled before its paycard is provisioned is lost: the same two logs leave different balances |
| GatewayBalance.BalanceTellsAllLogs | stream-gateway/index.ts:354-416 | Over every run the stored balance is max(0, allocation - the sum of all applied withdrawals), or 0 after any reclaim, exactly when the logs since provisioning already reach the allocation or reclaim, or those before it withdrew and reclaimed nothing |
| GatewayBalance.StreamsTellTheirOrigin | stream-gateway/index.ts:354-401 | Over every run a tracked stream carries allocation, velocity, genesis, lifespan and metadata hash of the log that last provisioned it, and as last checkpoint that genesis or the block time of the last withdrawal since |
| GatewaySweep.SweepMatchesScan | stream-gateway/index.ts:449-466 | In every run that provisions each Paycard once, restarts included, a sweep flips exactly the streams of positive lifespan that the naive expiry scan finds, once each, in expiry order and ties in schedule order |
| GatewaySweep.SweepLeavesNoneBehind | stream-gateway/state-store.ts:190-201 | After a sweep no expired stream of positive lifespan is still active |
| GatewaySweep.RunConsistent | stream-gateway/index.ts:149-155 | The queue lists every active stream of positive lifespan once, at its expiry, also when rebuilt on start |
| GatewaySweep.RunInOrder | stream-gateway/state-store.ts:239-254 | At every instant the queue keeps the order in which entries were scheduled |
| StreamGateway.Projection.HandleLog | stream-gateway/index.ts:264-280 | Up to its await a handler claims a log that neither this process nor the event table has seen |
| StreamGateway.Projection.Resume | stream-gateway/index.ts:282-298 | After its await a handler records the event and applies it to the store and the queue |
| StreamGateway.Projection.SweepExpired | stream-gateway/index.ts:449-466 | The sweep over the store and queue objects computes the described state |
| StreamGateway.RescheduleActive | stream-gateway/index.ts:149-155 | Start rebuilds the queue from the active streams, in store order |
| StreamGateway.Projection.OnSettlementFlushed | stream-gateway/index.ts:384-401 | The balance drops by the withdrawal, to no less than zero, and the stream terminates at zero |
| TerminationQueue.StreamTerminationQueue.Schedule | stream-gateway/state-store.ts:239-254 | The binary search inserts an entry behind every entry that expires no later |
| TerminationQueue.StreamTerminationQueue.CheckExpired | stream-gateway/state-store.ts:260-268 | Exactly the entries due are removed and returned, in queue order |
| TerminationQueue.InsertedAt | stream-gateway/state-store.ts:239-254 | Insertion puts an entry last among those that expire with it and leaves the others in their order |
| TerminationQueue.SweptAt | stream-gateway/state-store.ts:260-268 | A sweep takes exactly the instants up to now and leaves the others as they were |
| StateStore.MemoryStateStore.Set | stream-gateway/state-store.ts:106-117 | Upserting keeps the workflow index in agreement with the store |
| StateStore.MemoryStateStore.Delete | stream-gateway/state-store.ts:125-133 | Deleting keeps the workflow index in agreement with the store |
| StateStore.MemoryStateStore.BindWorkflow | stream-gateway/state-store.ts:136-151 | Rebinding moves the stream to exactly one entry of the index |
| StateStore.MemoryStateStore.GetByWorkflow | stream-gateway/state-store.ts:170-179 | For a non-empty workflow the result is exactly what a scan over all streams finds, each once |
| StateStore.IndexIsScan | stream-gateway/state-store.ts:170-179 | What the index lists and what a full scan finds are the same streams, each as often |
| StateStore.MemoryStateStore.GetExpired | stream-gateway/state-store.ts:190-201 | The naive scan the sweep is compared with |
| ProviderPool.EachHealthyProviderOnce | stream-gateway/provider-pool.ts:69-88 | As many calls in a row as there are healthy providers return each of them exactly once and never an unhealthy one |
| ProviderPool.CallsFollowRound | stream-gateway/provider-pool.ts:69-88 | Calls follow the round from the cursor |
| ProviderPool.ResetStartsOver | stream-gateway/provider-pool.ts:80-88 | When no provider is healthy all become so, and the calls return the first, the second and so on |
| ProviderPool.HealthyBelowThreeFailures | stream-gateway/provider-pool.ts:151-170 | In every run a provider is healthy exactly when fewer than three probes have failed since one succeeded or the pool was reset |
| ProviderPool.RpcProviderPool.GetProvider | stream-gateway/provider-pool.ts:69-88 | The loop finds the first healthy provider from the cursor, or resets the pool |
| ProviderPool.RpcProviderPool.Probe | stream-gateway/provider-pool.ts:151-170 | A probe's outcome updates the failure count and the health flag |
| Timer.Drive | stream-gateway/timer.ts:45-96 | Left to the event loop, tick k fires at its slot plus L(k), where L(k+1) = max(0, L(k) + callback - interval) + jitter |
| Timer.LatenessStaysBounded | stream-gateway/timer.ts:73-95 | While callback time plus the jitter bound fits in the interval, lateness never exceeds that bound |
| Timer.NeverEarly | stream-gateway/timer.ts:73-95 | No tick fires before its slot |
| RateLimiter.GrantedExactlyWithinBudget | server/rate-limiter.ts:24-57 | A request is granted exactly when every window that ends with it stays within maxTokens, if positive, and refillRate tokens for every second of the window |
| RateLimiter.GrantsWithinBudget | server/rate-limiter.ts:24-57 | No window of any run grants more than maxTokens and refillRate tokens for every second of it |
| RateLimiter.KeysAreIndependent | server/rate-limiter.ts:79-101 | The answer to a request depends on the times of its own key's requests alone |
| RateLimiter.Limiter.Handle | server/rate-limiter.ts:85-101 | The middleware's per-key buckets give the answer of the run of all requests so far |
| RateLimiter.TokenBucket.Consume | server/rate-limiter.ts:37-57 | The bucket gains refillRate tokens a second up to maxTokens and, if a whole token is there, gives one |
| LogScan.RecoverPaycards | sdk/src/wallet.ts:239-333 | For every chunk size the chunked backward scan returns, newest first, logs that parsed, in range, of the requested metadata hash up to case and with a registered payer, no Paycard twice, each the newest of its Paycard; a Paycard with such a log is missing only when `limit` newer ones are returned; options out of range are refused |
| LogScan.ScanBackwards | sdk/src/wallet.ts:282-330 | The chunk loop ends, and refines the single pass |
| LogScan.DistinctLogs | sdk/src/wallet.ts:296-308 | The single pass finds each Paycard with a parsed log of the requested metadata and a registered payer once, and no other |
| LogScan.FoundFirst | sdk/src/wallet.ts:296-308 | A found log is the newest eligible one of its Paycard, in scan order |
| LinkRoundTrip.LinksComeBack | sdk/src/links.ts:56-164 | Every link that serialises comes back in canonical form exactly when no address is forty zeros without 0x and the envelope token is more than a byte order mark; otherwise reading refuses it |
| LinkRoundTrip.CanonicalLinksComeBackEqual | sdk/src/links.ts:70-164 | A link in canonical form comes back equal |
| LinkRoundTrip.ParsedBytesAreComplete | sdk/src/links.ts:349-412 | Bytes that parse have nothing missing at their end, and nothing may follow them |
| LinkRoundTrip.FormsAreNeverConfused | sdk/src/links.ts:56-63 | A compact token always has the prefix and a legacy token never does |
| LinkRoundTrip.AddressSurvives | sdk/src/links.ts:418-423 | A non-zero address passes validation again after the round trip exactly when it was not written as forty bare zeros |
| LinkLayout.TokenLayout | sdk/src/links.ts:70-96 | The token of a link is orc1, its profile and the base64url of chain, vault, token and metadata hash at fixed positions, then a request's fields or a claim's mode, envelope and hint in their order |
| LinkLayout.SerializesExactly | sdk/src/links.ts:412-453 | A link has a token exactly when its addresses are valid and not zero, its hashes are 32 bytes of hex, its chain is positive, a claim has an envelope and everything fits its place |
| LinkLayout.AcceptedTokensAreLinks | sdk/src/links.ts:98-164 | A token that is read starts with orc1 and its profile, f for a request and c for a claim, and holds a valid link of that kind |
| LinkCodec.SerializeLink | sdk/src/links.ts:70-96 | The writer object produces the token the format describes, or throws the first error |
| LinkCodec.DeserializeLink | sdk/src/links.ts:98-164 | The reader object reads what the format describes, never past the end |
| LinkCodec.CompactWriter.WriteUint64 | sdk/src/links.ts:318-323 | The shift loop writes eight bytes, most significant first |
| LinkCodec.CompactWriter.WriteString | sdk/src/links.ts:337-342 | A string is its UTF-8 length in two bytes and its bytes, or too long |
| LinkCodec.CompactReader.ReadUint64 | sdk/src/links.ts:375-383 | The loop reads eight bytes, most significant first, or refuses a short payload |
| LinkCodec.CompactReader.ReadString | sdk/src/links.ts:393-398 | The reader takes exactly the length announced |
| LinkCodec.ParseHex | sdk/src/links.ts:288-298 | The loop fills the bytes that the hex digits denote |
| Base64Url.TokenRoundTrip | sdk/src/serialization.ts:49-61 | Decoding restores the stripped padding and the alphabet exactly, and so the bytes; a token holds URL-safe characters only |
| Utf8.TextRoundTrip | sdk/src/links.ts:337-398 | Decoding encoded text gives it back, less one leading byte order mark |
| KnownAnswers.Base64Vectors | sdk/src/serialization.ts:49-61 | The published test vectors of base64 come out |
| KnownAnswers.Utf8Vectors | sdk/src/links.ts:337-342 | Characters of one to four bytes are written as UTF-8 writes them |
| Hex.AddressRoundTrip | sdk/src/links.ts:329-331 | Written as twenty bytes and read back, an address is the checksummed one |
| Hex.HexRoundTrip | sdk/src/links.ts:288-302 | A value of n bytes comes back in lower case with its 0x |
| IntentBinary.IntentRoundTrip | experiments/compact-url/serializer.ts:103-168 | Every intent that fits the layout comes back through its 200 bytes in canonical form |
| IntentBinary.FieldsStandAt | experiments/compact-url/serializer.ts:88-136 | The ten fields stand at the documented positions of the 200 bytes |
| IntentBinary.Serialize | experiments/compact-url/serializer.ts:103-136 | The writes at ten fixed offsets fill the buffer with the layout |
| IntentBinary.PaddedHexBytes | experiments/compact-url/serializer.ts:116-119 | The padded hex text of an amount is its bytes, most significant first |

## Left out

- Identifier, semver, address and hash format checks of the kernel, and ISO timestamp parsing: one reading settles them.
- The kernel's write-only records (events, decisions, blocked actions, verification decisions, rectification
  obligations, signed Workspace and Agent artifacts) and the read-only queries, audit bundle and preparation helpers.
- The resolution summary and rectification terms that a Gaia command's payload hash also covers, and the evidence,
  claim hash and remedy of checkpoints and cases.
- Events that a checkpoint's verdict names by decision: one kind of event stands for all three.
- `pause_path` and `revoke_path`: named in the types, implemented by no operation.
- Collisions of idempotency keys that contain a colon, and of the truncated identifiers that `stableId` derives; job
  identifiers of different Proposals are taken to differ.
- EIP-712 encoding, ECDSA, keccak and SHA-256, signature recovery and the contracts: parameters or library code.
- PostgreSQL and JSON file input and output, HTTP servers, webhooks, the command line and the user interfaces.
- The two equal texts that `localeCompare` may consider equal, the enumeration order of integer-like keys, `-0`, sparse
  arrays, `toJSON` and a `__proto__` key.
- Exactly-once handling of logs across a crash: an event recorded before a crash is never applied, so only
  at-most-once holds; malformed lines and corrupt snapshots of the durable store.
- The display-only accrual projection of the gateway, its event history queries, its parser, and the payer and recipient
  that a tracked stream also carries.
- The format checks of the log scan's addresses and metadata hash, and the topics by which the provider filters.
- Object identity in the stream store: handlers mutate the stored object and put it back, which the model does in one
  replacement per handler.
- `selectChannel`, `currentNonce` and adapters that return stale values.
- ICAP addresses, which ethers also accepts, and numbers beyond 2^53 in tokens not written by the serialiser.
- Characters outside the base64 alphabet in a token are skipped, as Node does; the browser fallbacks are not modelled.
- The legacy link's JSON parsing and the URL around a link's token.
- IntentBinary.Serialize: requires values that fit the layout; what the buffer holds for others is not modelled.
- RateLimiter.GrantedExactlyWithinBudget: requires a refill rate that is not negative and a clock that does not run
  backwards, which the source does not check; floating-point rounding is not modelled.
- GatewaySweep.SweepMatchesScan: requires that each Paycard is provisioned by one log, which the chain guarantees and
  the gateway does not check.
- `subscribe`, `close` and the scheduling of probes in the provider pool; exceptions thrown by a timer callback.
