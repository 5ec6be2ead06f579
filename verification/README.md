# Verified model of the trusted control plane

This project models the durable control plane of the repository in Dafny and proves what every run keeps
under crashes, lost replies, retries and competing controllers: the campaign store and its rules, one-use
evaluation, the hidden task catalog with its importer, and the durable stores beside them.
`dafny verify dfyconfig.toml` checks everything.

## The parts

- **Campaign store.** `LockProtocol` is the two-lock protocol as interleaved steps of any number of
  controllers over one directory, `LockProgress` its schedules that get somewhere. `CampaignModel` and
  `CampaignRules` are the state and its transition rules, `CampaignHistory` and `CampaignLaws` what they force
  on whole histories. `CampaignReader` and `CampaignWriter` are the validating reader and the writing
  operations, `CampaignAdmission` says exactly when each commits, `CampaignStore` is the store object, and
  `CampaignSchedules` puts the lock protocol and the store together.
- **One-use evaluation.** `Ledger` is the request ledger with its transactions and object, `LedgerAnswers` says
  exactly what each transaction does and answers, `LedgerRuns` what holds over interleaved controllers.
  `BrokerModel` is one request's evaluation as steps over four stores, each store call being committed,
  committed with its reply lost, or not committed. `BrokerAgreement` and `BrokerReleases` prove what the stores
  agree on, `BrokerFailures` how a failed evaluation is settled, `BrokerStranding` and `BrokerResumption` what
  becomes of a release whose cleanup was cut short, and `BrokerWitness` gives concrete runs. `BrokerLedger` shows that the ledger steps used there are those of
  `Ledger`, `BrokerStores` that the preparation and release steps are those of `PreparationStore` and
  `PrivacyStore`.
- **Hidden catalog.** `CatalogEstimates` is the arithmetic and `CatalogShapes` what its estimates mean,
  `CatalogModel` the state, its check and the two operations, `CatalogChecks` the agreement of guards and check,
  `CatalogAdmission` exactly what is allocated and committed. `CatalogRuns`, `CatalogCounts`, `CatalogEvidence`
  and `CatalogFreshness` are the results over runs, `CatalogImport` and `CatalogGenesis` where a catalog comes
  from, `CatalogWitness` two concrete catalogs, `CatalogStore` the object and its loops, `ValidationQuotas` the
  bucket quotas.
- **Durable stores.** `PreparationStore`, `PrivacyStore`, `ArtifactRegistry` and `WorklistScan`; beside the first
  three, `PreparationAnswers`, `PrivacyAnswers` and `RegistryAnswers` say exactly what they accept and serve.
- `Common` holds options, sequences without repeats, and sums over maps.

## Assumptions

- Hashes, commitments and keyed digests are injective: a value stands for its own hash, or for a name that no
  other value has. Signature, termination and recovery authorities are predicates or given sets; clocks,
  nonces, tokens and panel draws are inputs.
- Claim and lock tokens are never drawn twice. `claim` does not check this (src/broker/ledger.ts:396), so it is
  a stated condition of the run lemmas.
- Each `transact` call is one atomic step. A lost reply is modelled; a torn write is not.
- Probabilities, rewards and costs are reals. Rounding to twelve decimals is modelled, floating point is not.
- Panel selection fits its contract: the right number of distinct eligible tasks, each drawn for a bucket it
  has. The contract is the predicate `CatalogModel.Fits`.

## What the code does not do

Each item is a lemma; the code is modelled as it is.

- The transition rules accept a step that lowers holdout capacity without a decision. Conservation is exact
  for the store's own operations, and for the bare rules exactly when no such step occurs.
- The write path does not look up ledger pointers, availability, decision and seal hashes. A repeated one is
  committed and makes the history unreadable from then on.
- With two live drivers, a takeover that read an issued record without a release may outlive the failure of
  that record and complete the ledger under it. No other takeover can. `BrokerWitness` has the run.
- `orphan` and `abandon` are two calls. A driver lost between them strands the release. Unless it is completed
  already, some later run completes it, although it is orphaned, if and only if a live controller other than
  the owner of the claim is left, or the owner is live and the record is still the one it took the claim over
  under, or its driver is still on its way with a copy at most one advance behind the record. `BrokerWitness`
  has a run that completes it, and runs that strand it for good: an owner whose own advance outdated its
  claim, and a driver two advances behind.
- An admissible fresh validation under an experiment that a repair already cites is refused only by the closing
  check. `CatalogWitness` has the run.
- The initial catalog is stored without a check. With a seed estimate off the twelve-decimal grid it is stored
  and then refuses every operation; imported seeds are always on the grid. `CatalogWitness` has the seeds.
- The hash of an import covers its commitments, and those cover the inventory and the rows as listed. Relisted
  under new commitments the import has the same seeds and another hash; relisted under the old ones it is
  refused. `CatalogImport` has the pair.

## Model

| member | source | states |
|---|---|---|
| LockProtocol.StepKeepsInv | src/campaign/store.ts:573-669 | One step of any controller, at any point of the protocol, keeps the invariant: the primary lock, the guard, and what each controller has read agree with the directory |
| LockProtocol.FrameKeepsOther | src/campaign/store.ts:2007-2115 | A controller suspended anywhere keeps every fact it relies on while another controller takes a step |
| LockProtocol.RunKeepsInv | src/campaign/store.ts:573-669 | The invariant holds along every schedule of any number of controllers, with any of them stopping at any point |
| LockProtocol.GuardExclusive | src/campaign/store.ts:2090-2103 | Two controllers are never inside the guarded section together |
| LockProtocol.CommitExtendsHead | src/campaign/store.ts:1965-2005 | A commit adds exactly one state file, whose revision and previous hash extend the head as it is at that moment; the link always writes it, and no other step writes anything |
| LockProtocol.NoFork | src/campaign/store.ts:1965-2005 | After every schedule the directory is one chain: no revision was written twice, and every file names the one before it |
| LockProtocol.HistoryUnique | src/campaign/store.ts:1447-1503 | A directory has at most one history, whichever reader lists it |
| LockProtocol.HistoryOnlyGrows | src/campaign/store.ts:1447-1503 | What any reader has seen stays a prefix of what every later reader sees |
| LockProtocol.LostLockStaysLost | src/campaign/store.ts:2039-2088 | A lock that left its path never returns to it |
| LockProtocol.QuarantinedOwnerIsHarmless | src/campaign/store.ts:573-669 | An owner whose lock was quarantined never commits again and never unlinks the lock of its successor, whatever the schedule |
| LockProtocol.CheckedCommitIsUndisturbed | src/campaign/store.ts:1987-2005 | Between the ownership check under the guard and the rename of the state file no other controller touches the lock or the guard |
| LockProtocol.RecoveryMovesTheAuthorizedLock | src/campaign/store.ts:573-669 | Recovery renames away exactly the lock that the recovery authority was shown |
| LockProgress.CommitLands | src/campaign/store.ts:1987-2005 | A controller past the ownership check always links the file it checked, on top of the history as it stands |
| LockProgress.FreeControllerCommits | src/campaign/store.ts:573-669 | From every reachable directory with free locks an idle controller has a schedule that commits what it proposes and leaves the locks free again, whatever the others were doing |
| LockProgress.RecoveryCommits | src/campaign/store.ts:573-669 | From every reachable directory with a lock left behind an idle controller has a schedule that quarantines exactly that lock, commits, and leaves the locks free |
| CampaignHistory.HeadHashDeterminesHistory | src/campaign/store.ts:1447-1535 | Two accepted histories with the same head hash are the same history |
| CampaignHistory.ExperimentFate | src/campaign/invariants.ts:140-204 | In every accepted history each number below the next one is sealed once, interrupted once or in flight, exactly one of the three; no other number is any of them |
| CampaignHistory.MovementIsDecided | src/campaign/invariants.ts:206-291 | Champions move exactly at the steps whose sealed decision says so: a promotion to the experiment it decided, a certification of the active champion by a later experiment, each under the seal of that step |
| CampaignHistory.ActiveChampionWasPromoted | src/campaign/invariants.ts:206-291 | Certified number, active number and last sealed number stay ordered, and an active champion other than the baseline was promoted by a validation decision whose seal it carries |
| CampaignHistory.CertifiedChampionWasPromotedFirst | src/campaign/invariants.ts:471-487 | A certified champion was promoted earlier in the history and certified by a strictly later shadow experiment |
| CampaignHistory.CertificationsNeverOutnumberPromotions | src/campaign/invariants.ts:206-291 | Certifications never outnumber promotions, and an uncertified active champion leaves one to spare |
| CampaignHistory.SealNeverReplenishes | src/campaign/invariants.ts:346-396 | No accepted transition both seals a decision and replenishes the holdout |
| CampaignHistory.HoldoutConservation | src/campaign/invariants.ts:445-466 | Within one generation the holdout loses at least what decisions consumed, and exactly that if and only if no step dropped capacity unsealed |
| CampaignHistory.UnsealedDropIsAccepted | src/campaign/invariants.ts:346-396 | The rules alone accept a step that drops a fresh set without a decision, from any accepted history that has one |
| CampaignHistory.AcceptedAppend | src/campaign/invariants.ts:580-616 | A history extended by one state is accepted exactly when the new state passes the schema and the transition rules |
| CampaignLaws.HistorySucceeds | src/campaign/invariants.ts:140-487 | Across any two documents of an accepted history the identity and policies are the same, three limits are fixed and four only grow, and usages, champions, numbers, epochs, bound pointers and times only move forward |
| CampaignLaws.HistoryLinks | src/campaign/store.ts:1447-1535 | Every document carries its index and the hash of the one before it, and stays within its limits |
| CampaignLaws.HistoryCounts | src/campaign/invariants.ts:140-466 | The run epoch counts the resumptions, the holdout generation the replenishments, the next number the experiments issued |
| CampaignLaws.StopsAreRequested | src/campaign/invariants.ts:90-139 | A running campaign is stopped only through a request, whose time and reason the stop still carries |
| CampaignLaws.DocumentShape | src/schemas/registry.ts:604-758 | Every document has the fields of its status and of a resumption exactly when due, names only numbers issued before, with the newest in flight, and has a last decision, about the last sealed experiment, exactly when one was sealed |
| CampaignLaws.SealsInFlightOnly | src/campaign/invariants.ts:398-487 | A step seals the experiment that was in flight, with a decision about it and another head, or keeps the head and the decision |
| CampaignLaws.ValuesNeverReturn | src/campaign/store.ts:1536-1637 | Under each of fifteen labels a value once carried and given up is never carried again |
| CampaignReader.ConsumedWasCarried | src/campaign/store.ts:1536-1637 | A hash consumed under a label is carried by some document of the history |
| CampaignReader.ValidAppend | src/campaign/store.ts:1509-1637 | An extended history validates again exactly when the step is accepted, its rebuilt attestations verify, and it consumes only new hashes |
| CampaignReader.LedgersStayBound | src/campaign/invariants.ts:398-426 | Mandatory ledger pointers, once bound, survive every accepted step |
| CampaignWriter.ReaderRebuildsWhatWriterVerified | src/campaign/store.ts:1639-1805 | From the previous and the next state alone the reader rebuilds exactly the attestations that the writing operation verified |
| CampaignWriter.WriteUsesNewHashes | src/campaign/store.ts:1536-1637 | A committed write consumes only new hashes exactly when the hashes its caller supplied unchecked are new |
| CampaignWriter.WriterAgreesWithReader | src/campaign/store.ts:682-1434 | A committed write leaves a history that validates again if and only if the unchecked inputs are new and a pre-validation decision verifies with a null availability hash |
| CampaignAdmission.CommitsExactly | src/campaign/store.ts:682-1434 | Each of the twelve operations, on a valid history, commits if and only if it names the head and the head admits it: its own condition on status, flight, budget, holdout, champions, pointers, used hashes, times and verified attestations, spelled out operation by operation |
| CampaignAdmission.AllocateExactly | src/campaign/store.ts:682-730 | An experiment is issued if and only if the campaign runs with nothing in flight, all seven usages are below their limits, and there is a set or slice for its kind; it then is the next number |
| CampaignAdmission.SealExactly | src/campaign/store.ts:924-1085 | A decision is sealed if and only if it is about the experiment in flight, its stage can afford it, its disposition and champions agree, and both attestations verify |
| CampaignAdmission.RepeatedCall | src/campaign/store.ts:1087-1434 | Repeated as it was, a committed pause, resumption, stop, acknowledgement or archive answers that nothing changed, and any other operation that the head has moved |
| CampaignAdmission.StopRepeatedLater | src/campaign/store.ts:1160-1250 | A stop request is answered so even after its acknowledgement |
| CampaignAdmission.AnswersExactly | src/campaign/store.ts:1087-1434 | A call is told that nothing changed if and only if what it asks for is already so and a document written over the expected head shows it, with the same arguments; it is told of a conflict exactly where it is so otherwise, or is not so and the head is another one |
| CampaignStore.CampaignStateStore.ConsumeAll | src/campaign/store.ts:1536-1637 | One document is refused exactly when it repeats a value already seen under its label; otherwise each label set grows by exactly its value |
| CampaignStore.CampaignStateStore.AssertHistoryWideUniqueness | src/campaign/store.ts:1536-1637 | The scan over all documents accepts exactly the histories without reuse under any label |
| CampaignStore.CampaignStateStore.ValidateHistory | src/campaign/store.ts:1509-1535 | Reading accepts exactly the valid histories |
| CampaignStore.CampaignStateStore.Initialize | src/campaign/store.ts:543-562 | Initialization creates the first state only in an empty directory and only if it is acceptable; otherwise nothing changes |
| CampaignStore.CampaignStateStore.Perform | src/campaign/store.ts:671-1434 | Every other operation appends the one state its specification gives, or changes nothing; it commits exactly on a valid history whose head it names and which admits it, and reports no change exactly where an equal call has had its effect |
| CampaignStore.WritesNeverDropUnsealed | src/campaign/store.ts:835-901 | A committed write spends holdout capacity only through the decision that consumes it |
| CampaignStore.StoreHoldoutConservation | src/campaign/store.ts:1001-1058 | For histories built by the store, within one generation starting fresh sets minus remaining equals the validation seals, and likewise shadow slices |
| CampaignStore.WellSuppliedStaysReadable | src/campaign/store.ts:682-1434 | After any calls, retries and refusals among them, the history validates again if and only if every call that committed supplied new hashes and a decision that also verifies without an unrecorded availability hash |
| CampaignStore.RepeatedInputEndsTheCampaign | src/campaign/store.ts:1505-1535 | One committed call that repeats an unchecked hash makes the history unreadable, and no later call changes it again |
| CampaignStore.NumbersAreIssuedWithinBudget | src/campaign/store.ts:697-740 | Whatever the calls, every number was issued by a running campaign with nothing in flight and all seven usages below their limits |
| CampaignSchedules.ScheduleIsSerial | src/campaign/store.ts:1965-2115 | Every schedule of any number of controllers that perform store operations under the lock protocol leaves a chain that is the history of some sequence of store calls made one after another |
| CampaignSchedules.ScheduleConservesHoldout | src/campaign/store.ts:1001-1058 | Over every such schedule, within one generation fresh sets minus remaining equals the validation seals, and likewise shadow slices |
| Ledger.FindByToken | src/broker/ledger.ts:230-260 | The token lookup finds the one record carrying the token, or none carries it |
| Ledger.ClaimValid | src/broker/ledger.ts:352-417 | Claiming with a token never used keeps the accounting and the order of records |
| Ledger.RecoverValid | src/broker/ledger.ts:536-614 | Recovery keeps the accounting: one authorization, one epoch, one revision |
| Ledger.BindValid | src/broker/ledger.ts:617-664 | Binding keeps the accounting: a disposition belongs to one record for good |
| Ledger.CompleteValid | src/broker/ledger.ts:666-702 | Completing keeps the accounting and is terminal |
| Ledger.ConsumeValid | src/broker/ledger.ts:704-740 | Consuming a failure keeps the accounting and is terminal |
| Ledger.DurableOneUseRequestLedger.ClaimRequest | src/broker/ledger.ts:352-417 | The stored state and the answer are those of one claim transaction; a conflict is answered exactly for a known id under another hash, and an outcome only to the request it belongs to |
| Ledger.DurableOneUseRequestLedger.InspectRequest | src/broker/ledger.ts:419-470 | Inspection changes nothing and answers from the record; a conflict exactly for a known id under another hash, an outcome only to its own request |
| Ledger.DurableOneUseRequestLedger.BeginRecovery | src/broker/ledger.ts:472-535 | The first recovery transaction changes nothing and returns the record it saw; it refuses a live record of another request |
| Ledger.DurableOneUseRequestLedger.FinishRecovery | src/broker/ledger.ts:536-614 | The second recovery transaction commits only over the observed record and an unused authorization, and answers a foreign request hash as conflicting |
| Ledger.DurableOneUseRequestLedger.BindDispositionAttestation | src/broker/ledger.ts:617-664 | The stored state and the answer are those of one binding transaction |
| Ledger.DurableOneUseRequestLedger.CompleteRequest | src/broker/ledger.ts:666-702 | The stored state and the answer are those of one completing transaction |
| Ledger.DurableOneUseRequestLedger.ConsumeRequestFailure | src/broker/ledger.ts:704-740 | The stored state and the answer are those of one consuming transaction |
| LedgerAnswers.ClaimExactly | src/broker/ledger.ts:352-417 | A claim is acquired exactly for a new id, and stored in flight, unbound, in its first epoch |
| LedgerAnswers.StandingExactly | src/broker/ledger.ts:352-470 | Under its own hash a record is told to be in flight, completed or consumed exactly when it is |
| LedgerAnswers.RecoverExactly | src/broker/ledger.ts:536-614 | A recovery commits exactly over the record observed, in flight under its hash, with an authorization and a token never used; it then holds the claim one epoch on |
| LedgerAnswers.AttachedExactly | src/broker/ledger.ts:290-318 | An authorization counts exactly when it was given for this observation, by another owner |
| LedgerAnswers.BindExactly | src/broker/ledger.ts:617-664 | A disposition is bound exactly to its holder, unbound, if no record has it; otherwise the answer says whether it is this one |
| LedgerAnswers.CompleteExactly | src/broker/ledger.ts:666-702 | A claim is completed exactly by its holder with an envelope for this request and its bound disposition |
| LedgerAnswers.ConsumeExactly | src/broker/ledger.ts:704-740 | A claim is consumed by its holder, and once consumed acknowledges that failure alone |
| LedgerAnswers.StrangersAreRefused | src/broker/ledger.ts:617-740 | Under any other token or hash nothing is bound, completed or consumed |
| LedgerRuns.LedgerAccounting | src/broker/ledger.ts:230-242 | After every run the revision is the sum over records of epoch, bound disposition and terminal outcome; used authorizations number the recoveries; used dispositions are exactly the bound ones, one owner each |
| LedgerRuns.TerminalIsFinal | src/broker/ledger.ts:666-740 | A completed or consumed record never changes again |
| LedgerRuns.RecoveryHasNoABA | src/broker/ledger.ts:481-614 | If the second transaction of a recovery commits, the record did not change in any field since the observation, whatever other controllers did in between |
| LedgerRuns.TokenGoneStaysGone | src/broker/ledger.ts:583-613 | A token that left the ledger never comes back |
| LedgerRuns.RecoveryKillsOldToken | src/broker/ledger.ts:629-740 | After a recovery every operation with the old token fails, for ever |
| BrokerAgreement.StepKeepsLocal | src/broker/service.ts:706-1387 | One step of one controller, with any outcome of its store call, keeps what that controller and the stores guarantee and disturbs others only in the stated ways |
| BrokerAgreement.TakeoverKeeps | src/broker/service.ts:706-860 | A takeover keeps the agreement unless it revives a failed record |
| BrokerAgreement.CheckpointKeeps | src/broker/service.ts:553-590 | Creating the checkpoint keeps the agreement, acknowledged or not |
| BrokerAgreement.CompletingKeeps | src/broker/service.ts:1826-1854 | Completing the ledger record keeps the agreement, acknowledged or not |
| BrokerAgreement.CaughtKeeps | src/broker/service.ts:1857-1948 | Entering the catch block keeps the agreement: nothing is given up while a completion is in doubt |
| BrokerAgreement.ConsumingFailureKeeps | src/broker/service.ts:2163-2199 | A claim is consumed only after its recovery record failed |
| BrokerAgreement.RunKeepsInv | src/broker/service.ts:1389-2205 | The protocol invariant holds along every run of any number of controllers without a reviving takeover |
| BrokerAgreement.CrossStoreAgreement | src/broker/service.ts:1389-2205 | Over those runs a completed ledger record has an issued or completed recovery record with the same envelope, a consumed one has a failed record or none, and hidden tasks run at most once |
| BrokerAgreement.RevivalBreaksAgreement | src/broker/service.ts:706-860 | From any reachable state where a takeover read an issued record without a release that has meanwhile failed, three acknowledged steps break the agreement |
| BrokerAgreement.OneLiveDriverAgreement | src/broker/service.ts:1389-2205 | With one live driver per request the agreement holds over every run, without further condition |
| BrokerAgreement.OrphansOnlyInFlight | src/broker/service.ts:1857-1948 | Only the driver that holds the claim in flight orphans a release; no step orphans once the ledger record is completed |
| BrokerReleases.CompletedReleaseIsNeverOrphaned | src/broker/service.ts:1857-1948 | Over every run that never strands a release, a completed result never names an orphaned one |
| BrokerReleases.StrandingIsAnInterruption | src/broker/service.ts:1217-1297 | A release is stranded only when its driver is terminated or loses a reply between orphaning and abandoning |
| BrokerStranding.RunKeepsPrep | src/broker/service.ts:706-1387 | Along every run the recovery record and the preparation agree: a prepared record has its preparation in any state, a consumed, finalized or abandoned one has it consumed, finalized or abandoned with the same hashes; the first driver of a request, once it has orphaned, is past completing anything; and a claim taken over remembers the record as it is or an earlier revision of it, and its owner looks up the record as it is |
| BrokerStranding.StrandedRecord | src/broker/service.ts:1217-1297 | In every such state a stranded release belongs to an open record that is prepared or finalized for it, an issued one finalized for it, or a claim already completed under its name; a failed, consumed or abandoned record is never stranded |
| BrokerResumption.GivesUp | src/broker/service.ts:1857-2205 | Past the checkpoint any driver whose calls stop committing returns to idle and leaves every store as it was |
| BrokerResumption.FromCourse | src/broker/service.ts:592-636 | An owner on its way with a copy that is the stored record, or the one just before it, completes: an advance that finds its own result in place counts as done |
| BrokerResumption.StrandedReleaseIsCompleted | src/broker/service.ts:706-1216 | From every such stranded state, open or issued, whoever can complete it (another controller, an owner that may come back, an owner on course) has a run that completes the ledger record under the orphaned release |
| BrokerResumption.NobodyCompletes | src/broker/ledger.ts:505-535 | With no live controller but an owner that is past its result or off course, and whose claim was taken over under an earlier record or by nobody, no run ever completes the request |
| BrokerResumption.StrandedReleaseCompletesExactly | src/broker/service.ts:706-1297 | After every run that strands a release, some continuation ends with that release in a completed result if and only if the ledger record is completed already, or a live controller is left that does not own the claim, or the live owner took the claim over under the record as it now stands or is still on course |
| BrokerResumption.FailedRecordIsSettled | src/broker/service.ts:786-803 | Whoever takes over a claim whose record failed spends the claim under that record's own failure code |
| BrokerFailures.FailureIsSettled | src/broker/service.ts:1856-2204 | Whatever an evaluation or a recovery had reached when its error was caught, once its calls are acknowledged its release is withdrawn and the preparation abandoned, or the preparation consumed, the record fails and the claim is spent, all under that error |
| BrokerFailures.CleanUpRecovering | src/broker/service.ts:1208-1388 | The recovery path cleans up so from the copy of the record it took over |
| BrokerWitness.AgreementCanFail | src/broker/service.ts:706-860 | A run of three controllers from the initial state ends with a completed ledger record under a failed recovery record |
| BrokerWitness.OrphanedReleaseCanComplete | src/broker/service.ts:1217-1297 | A run from the initial state ends with a completed result that names an orphaned release |
| BrokerWitness.OwnerCannotComeBack | src/broker/ledger.ts:505-535 | A run ends with a stranded release whose recovered owner is the only live controller and whose record that owner itself has advanced; no continuation completes it |
| BrokerWitness.TwoBehindIsOffCourse | src/broker/service.ts:592-636 | A run ends with a stranded release under a live driver that has failed at nothing yet but holds a copy two advances behind; no continuation completes it |
| BrokerWitness.OneBehindIsOnCourse | src/broker/service.ts:592-636 | A run ends with the same driver one advance behind, not able to come back either, and a continuation completes the release |
| BrokerWitness.EvaluationCompletes | src/broker/service.ts:1389-1856 | A run without a fault completes the ledger and the recovery record under one release, with the hidden tasks run once and nothing orphaned |
| BrokerLedger.ClaimRefines | src/broker/ledger.ts:352-417 | The claim step of the broker model is the ledger claim seen at one request |
| BrokerLedger.ObserveRefines | src/broker/ledger.ts:481-523 | The first transaction of a recovery answers with the token exactly where the broker model lets the owner return, under the record it recovered, and otherwise with what settled the claim or the record seen |
| BrokerLedger.NobodySucceedsItself | src/broker/ledger.ts:290-318 | An authorization attached to an observed record makes another controller the successor, as the takeover of the broker model asks |
| BrokerLedger.ReturnRefines | src/broker/service.ts:706-716 | The takeover step of the broker model, where the ledger answers the owner with its token, leaves the claim as it is and goes on under that token |
| BrokerLedger.RecoverRefines | src/broker/ledger.ts:536-614 | The takeover by another controller is the second ledger transaction seen at one request: it happens over the observed record and remembers the recovery record |
| BrokerLedger.BindRefines | src/broker/ledger.ts:617-664 | The binding step of the broker model is the ledger binding seen at one request |
| BrokerLedger.CompleteRefines | src/broker/ledger.ts:666-702 | The completing step of the broker model is the ledger completion seen at one request |
| BrokerLedger.ConsumeRefines | src/broker/ledger.ts:704-740 | The consuming step of the broker model is the ledger consumption seen at one request |
| BrokerLedger.OtherRequestsDoNotInterfere | src/broker/ledger.ts:352-417 | Transactions on other requests leave the view of this one alone |
| BrokerStores.PrepareRefines | src/cloud/mounted-volume-behavioral-preparation-store.ts:635-693 | Preparing leaves a preparation exactly where the broker model sees none |
| BrokerStores.FinalizeRefines | src/cloud/mounted-volume-behavioral-preparation-store.ts:786-889 | A finalization moves the preparation as the broker step does, unless another request used its source result, authorization or release, and is acknowledged exactly when the record then says so |
| BrokerStores.ConsumeRefines | src/cloud/mounted-volume-behavioral-preparation-store.ts:1000-1103 | A consumption moves the preparation as the broker step does, and its receipt says consumed exactly when the record does |
| BrokerStores.AbandonRefines | src/cloud/mounted-volume-behavioral-preparation-store.ts:890-999 | An abandonment moves the preparation as the broker step does |
| BrokerStores.OtherPreparationsDoNotInterfere | src/cloud/mounted-volume-behavioral-preparation-store.ts:635-1103 | Operations on other requests leave the view of this one alone |
| BrokerStores.CommitRefines | src/cloud/mounted-volume-behavioral-privacy-store.ts:734-862 | An acknowledged commit adds exactly its release to the committed ones of its request; nothing else changes |
| BrokerStores.OrphanRefines | src/cloud/mounted-volume-behavioral-privacy-store.ts:864-935 | An acknowledged orphaning adds exactly a committed release to the orphaned ones of its request; nothing else changes |
| PreparationStore.AssertObservations | src/cloud/mounted-volume-behavioral-preparation-store.ts:306-329 | The observation loop accepts exactly twelve tasks with one candidate and one champion observation each |
| PreparationStore.AssertState | src/cloud/mounted-volume-behavioral-preparation-store.ts:462-521 | The state loop accepts exactly the states whose records are well formed, clash nowhere, and weigh 1, 2, 2 or 3 to the revision |
| PreparationStore.OperationKeeps | src/cloud/mounted-volume-behavioral-preparation-store.ts:635-1103 | Every operation preserves the state check, and only a prepared record carries its observations |
| PreparationStore.OperationTouchesOne | src/cloud/mounted-volume-behavioral-preparation-store.ts:635-1103 | A committed operation replaces one record and touches no other |
| PreparationStore.OperationMoves | src/cloud/mounted-volume-behavioral-preparation-store.ts:786-1103 | A committed operation creates a prepared record or moves one record forward; what was prepared never changes |
| PreparationStore.CommittedOnce | src/cloud/mounted-volume-behavioral-preparation-store.ts:635-693 | An operation committed with a lost reply changes nothing when retried after any other operations |
| PreparationStore.MountedVolumeBehavioralPreparationStore.Perform | src/cloud/mounted-volume-behavioral-preparation-store.ts:635-1103 | A write tried twice moves the state exactly as one attempt, whether or not the lost attempt had committed |
| PreparationAnswers.PrepareExactly | src/cloud/mounted-volume-behavioral-preparation-store.ts:635-693 | A preparation is new exactly when its observations are matched pairs, its request has none and there is room; it is stored whole |
| PreparationAnswers.PreparedAgainExactly | src/cloud/mounted-volume-behavioral-preparation-store.ts:635-693 | Prepared again it is acknowledged exactly while the record holds that very preparation |
| PreparationAnswers.FinalizeExactly | src/cloud/mounted-volume-behavioral-preparation-store.ts:786-889 | A finalization moves exactly the prepared record it names by every field, unless its source result, authorization or release was used; the record then names them and holds no observations |
| PreparationAnswers.AbandonExactly | src/cloud/mounted-volume-behavioral-preparation-store.ts:890-999 | An abandonment moves exactly the record finalized with what the orphan withdraws, and keeps the orphan |
| PreparationAnswers.ConsumeExactly | src/cloud/mounted-volume-behavioral-preparation-store.ts:1000-1103 | A consumption moves exactly a prepared record and forgets what it held |
| PreparationAnswers.RecordExactly | src/cloud/mounted-volume-behavioral-preparation-store.ts:368-461 | A record passes its check exactly when it is one of four: prepared with its matched pairs alone, consumed and empty, finalized or abandoned under the hash of all that it holds |
| PrivacyStore.AssertState | src/cloud/mounted-volume-behavioral-privacy-store.ts:411-501 | The state loop accepts exactly the states whose four owner indexes, ledger prefixes and revision are those recomputed from the ordered commits |
| PrivacyStore.CommitKeeps | src/cloud/mounted-volume-behavioral-privacy-store.ts:734-862 | A commit keeps the whole state check |
| PrivacyStore.OrphanKeeps | src/cloud/mounted-volume-behavioral-privacy-store.ts:864-935 | Orphaning keeps the whole state check and refunds nothing: ledger, order and all four indexes stay |
| PrivacyStore.NextPrefixes | src/cloud/mounted-volume-behavioral-privacy-store.ts:510-537 | The hashes of a new commit are those of consecutive ledger prefixes |
| PrivacyStore.RunKeepsState | src/cloud/mounted-volume-behavioral-privacy-store.ts:411-501 | After any commits and orphans from genesis the state passes the check and the revision counts acknowledged commits and orphans |
| PrivacyStore.NothingIsRefunded | src/cloud/mounted-volume-behavioral-privacy-store.ts:734-935 | No run refunds a release, frees a request or release key, or moves a first orphan time |
| PrivacyStore.PublishedOnce | src/cloud/mounted-volume-behavioral-privacy-store.ts:734-862 | A committed release retried after any other operations changes nothing and returns the historical receipt |
| PrivacyStore.WithdrawnOnce | src/cloud/mounted-volume-behavioral-privacy-store.ts:864-935 | An orphaning retried after any other operations changes nothing and returns the first orphan time |
| PrivacyStore.ResolveIsLinearSearch | src/cloud/mounted-volume-behavioral-privacy-store.ts:621-647 | The index lookup finds exactly what a linear search over the commits finds |
| PrivacyStore.ResolveServesLive | src/cloud/mounted-volume-behavioral-privacy-store.ts:621-647 | A lookup succeeds exactly when a commit that was not withdrawn holds a document with this purpose and hash, and returns such a document |
| PrivacyStore.WithdrawnStaysDark | src/cloud/mounted-volume-behavioral-privacy-store.ts:621-647 | Once a withdrawal is acknowledged, no later state serves any document of that commit |
| PrivacyStore.InspectExact | src/cloud/mounted-volume-behavioral-privacy-store.ts:649-732 | Inspection finds a commit exactly when one carries all five hashes, reports absence exactly when none carries any, and otherwise a conflict |
| PrivacyStore.DocumentOwnedOnce | src/cloud/mounted-volume-behavioral-privacy-store.ts:411-501 | No document hash belongs to two commits |
| PrivacyStore.MountedVolumeBehavioralPrivacyArtifactStore.Perform | src/cloud/mounted-volume-behavioral-privacy-store.ts:734-935 | A write tried twice moves the state exactly as one attempt |
| PrivacyStore.MountedVolumeBehavioralPrivacyArtifactStore.ResolveByContentHash | src/cloud/mounted-volume-behavioral-privacy-store.ts:621-647 | The store answers exactly with a document, of this purpose and hash, of a commit that was not withdrawn, and as the linear search does |
| PrivacyAnswers.CommitExactly | src/cloud/mounted-volume-behavioral-privacy-store.ts:734-862 | A new commit is acknowledged exactly when its documents are in order, it extends the ledger it was made over by one valid entry, and no commit has its keys or documents; it is stored as given |
| PrivacyAnswers.RetryExactly | src/cloud/mounted-volume-behavioral-privacy-store.ts:734-800 | A commit under a known authorization is acknowledged exactly when every field is the stored one, and writes nothing |
| PrivacyAnswers.OrphanExactly | src/cloud/mounted-volume-behavioral-privacy-store.ts:864-935 | A withdrawal is acknowledged exactly when it names a commit by its keys and is not dated before its release document or an earlier withdrawal; the first time stands |
| PrivacyAnswers.LedgerExactly | src/cloud/mounted-volume-behavioral-privacy-store.ts:188-227 | A ledger is valid exactly when it stays within its own maximum, counts what it lists, and its releases, of five tasks or more, share no request, window or task |
| PrivacyAnswers.DocumentsExactly | src/cloud/mounted-volume-behavioral-privacy-store.ts:317-350 | Documents are in order exactly when they are four of different purposes and hashes, with the release document of this release, it and the evidence coming from this source |
| PrivacyAnswers.StateReads | src/cloud/mounted-volume-behavioral-privacy-store.ts:366-501 | In an accepted state the revision counts commits and withdrawals, every commit is one entry of the ledger with its documents in order, and none is withdrawn before its release |
| WorklistScan.AssertTaskFreeDocument | src/cloud/mounted-volume-artifact-registry.ts:286-317 | The explicit-stack scan terminates and accepts exactly the documents that are clean at every depth and have at most a million nodes |
| WorklistScan.PushFields | src/cloud/mounted-volume-artifact-registry.ts:304-315 | The entry loop refuses exactly on a forbidden key and otherwise pushes every value |
| WorklistScan.CleanEverywhere | src/cloud/mounted-volume-artifact-registry.ts:286-317 | Clean means that no node at any path offends |
| WorklistScan.RejectionSpreads | src/cloud/mounted-volume-artifact-registry.ts:286-317 | A document rejected on its own is rejected inside every larger document |
| WorklistScan.SpellingHidesNothing | src/cloud/mounted-volume-artifact-registry.ts:306-313 | A sensitive key stays forbidden however it is capitalised or hyphenated, and any key with a null character is |
| ArtifactRegistry.AssertState | src/cloud/mounted-volume-artifact-registry.ts:483-529 | The two loops accept exactly the states whose entries are well formed and whose owner index matches them both ways |
| ArtifactRegistry.OwnersInvertEntries | src/cloud/mounted-volume-artifact-registry.ts:508-528 | An accepted owner index is the inverse of the entry table |
| ArtifactRegistry.PublishKeeps | src/cloud/mounted-volume-artifact-registry.ts:1256-1327 | A publication keeps the state check and every earlier entry, and writes its whole batch in one revision or nothing |
| ArtifactRegistry.PublishedOnce | src/cloud/mounted-volume-artifact-registry.ts:1257-1280 | A published batch is answered for ever with the entries first written, and the retry writes nothing |
| ArtifactRegistry.MountedVolumeTrustedArtifactRegistry.CaptureBatch | src/cloud/mounted-volume-artifact-registry.ts:1214-1244 | The capture loop accepts exactly batches of one to sixteen publications with sizes in bounds, distinct locators and distinct objects |
| ArtifactRegistry.MountedVolumeTrustedArtifactRegistry.PublishCaptured | src/cloud/mounted-volume-artifact-registry.ts:1211-1328 | The state and receipts after a publication are those of the batch specification |
| ArtifactRegistry.FillTables | src/cloud/mounted-volume-artifact-registry.ts:1282-1317 | The write loop stops exactly at an object somebody owns and otherwise fills both tables |
| RegistryAnswers.PublishExactly | src/cloud/mounted-volume-artifact-registry.ts:1214-1317 | A batch is written exactly when it has one to sixteen documents in bounds under different locators and objects, all of it is new, and it fits |
| RegistryAnswers.PublishedAsGiven | src/cloud/mounted-volume-artifact-registry.ts:1282-1317 | Then each of its documents is there as given, the receipts say so, and everything else is as it was |
| RegistryAnswers.RepublishExactly | src/cloud/mounted-volume-artifact-registry.ts:1257-1280 | A batch that writes nothing is acknowledged exactly when all of it is there already, with the entries that are there |
| RegistryAnswers.StateExactly | src/cloud/mounted-volume-artifact-registry.ts:483-529 | A state passes its check exactly when it has room, every entry stands under its own locator over an object of that namespace and purpose in bounds, and the owner table is the inverse of the entry table |
| CatalogEstimates.RoundingStaysWithin | src/broker/catalog.ts:1948-1950 | Rounding to the twelve-decimal grid never leaves an interval with integer ends |
| CatalogEstimates.CostIsUnit | src/broker/catalog.ts:1938-1946 | The cost signal of an arm lies in the unit interval and its clamp does nothing |
| CatalogEstimates.AddOutcomeKeepsBounds | src/broker/catalog.ts:1952-1997 | Folding in any outcome keeps every accumulator inside the bounds that the validation demands, rounding included |
| CatalogEstimates.ClampsNeverBind | src/broker/catalog.ts:869-920 | On valid inputs no clamp of an estimate binds: each is its formula rounded, and the result is valid |
| CatalogEstimates.PosteriorNearRate | src/broker/catalog.ts:862-867 | A failure posterior lies within 4/(4+n) plus half a grid step of the observed failure rate |
| CatalogEstimates.GridSeedReproduces | src/broker/catalog.ts:1008-1016 | Estimates given on the grid reproduce from the empty evidence |
| CatalogEstimates.ReproducedSeedIsOnGrid | src/broker/catalog.ts:1008-1016 | Estimates that reproduce from the empty evidence were given on the grid |
| CatalogShapes.EstimatesFollowEvidence | src/broker/catalog.ts:862-905 | Each adaptive rate lies within 4/(4+n) plus half a grid step of its own evidence: champion failures, failures of both arms, discrimination over matched pairs, cost over all runs |
| CatalogShapes.UncertaintyFollowsRate | src/broker/catalog.ts:884-900 | Uncertainty follows twice the distance of the recent failure rate from its nearer end, and underexposure fades with the runs |
| CatalogShapes.UncertaintyShape | src/broker/catalog.ts:884 | Empirical uncertainty is zero at the rates zero and one, symmetric, and greatest at one half |
| CatalogShapes.ImpossibleShape | src/broker/catalog.ts:901-908 | A task is thought impossible on its seed alone up to six runs and on evidence alone from twenty-four |
| CatalogShapes.CostShape | src/broker/catalog.ts:1938-1946 | A free arm costs nothing; a dollar, ten minutes and a hundred thousand tokens each reach half of their share |
| CatalogShapes.SeedsComeFromTheirRows | src/broker/catalog-import.ts:325-385 | The baseline and champion estimates of a seed come from its baseline row and the leaderboard estimate from its leaderboard row, by Laplace's rule, one half without a row |
| CatalogShapes.BuildExactly | src/broker/catalog-import.ts:176-325 | An import is built exactly from an inventory of this pin with 89 unit-cost tasks of different names and revisions and observation sets of the right kind whose rows name its tasks once each with possible counts, all under their own hashes; otherwise the first part that fails is named |
| CatalogImport.SeedsIgnoreOrder | src/broker/catalog-import.ts:325-385 | Permuting the inventory tasks or the observation rows changes neither what the task and row checks accept nor any seed |
| CatalogImport.BuildIgnoresOrder | src/broker/catalog-import.ts:309-413 | Permuted inputs whose commitments are as true of them as before are accepted with the same seeds or rejected with the same error |
| CatalogImport.OldCommitmentHoldsTasks | src/broker/catalog-import.ts:176-221 | Under its old commitment an accepted inventory stays accepted only as listed; any other listing is rejected |
| CatalogImport.OldCommitmentHoldsRows | src/broker/catalog-import.ts:223-273 | Under its old commitment an accepted observation set stays accepted only as listed; any other listing is rejected |
| CatalogImport.HashFollowsOrder | src/broker/catalog-import.ts:290-413 | Of two accepted imports with permuted inputs the hashes agree if and only if the tasks and both sets of rows are listed alike |
| CatalogImport.OrderShowsInTheHash | src/broker/catalog-import.ts:290-299 | A concrete pair: two listings of the same 89 tasks are both accepted and have different hashes, and the second is rejected under the commitment of the first |
| CatalogImport.ImportClampsNeverBind | src/broker/catalog-import.ts:275-288 | On accepted inputs no clamp of the importer binds |
| CatalogImport.SpreadIsUnit | src/broker/catalog-import.ts:280-284 | The cap on the uncertainty estimate never binds |
| CatalogImport.ImportedPosteriorNearRate | src/broker/catalog-import.ts:275-278 | The imported failure posterior lies within 1/(n+2) of the observed failure rate |
| CatalogImport.ImportReproduces | src/broker/catalog-import.ts:340-385 | Every seed of an accepted import reproduces from the empty evidence |
| CatalogImport.AssertInventoryTasks | src/broker/catalog-import.ts:195-216 | The inventory loop accepts exactly tasks with unit costs and distinct names and revisions |
| CatalogImport.StratumSizes | src/broker/catalog-import.ts:335-339 | The counting loop computes the size of every stratum and the largest one |
| CatalogChecks.AllocationPassesCheck | src/broker/catalog.ts:2204-2294 | The check that closes an allocation accepts what the guards admitted if and only if the request does not give an experiment that a repair cites a second discovery panel |
| CatalogChecks.CommitPassesCheck | src/broker/catalog.ts:2352-2390 | The check that closes a commit accepts everything the guards admitted |
| CatalogChecks.SecondRepeatsFirst | src/broker/catalog.ts:1532-1546 | The second repair rebuilds the cells of the first exactly, arm order included |
| CatalogChecks.OthersArePrior | src/broker/catalog.ts:1503-1529 | An admitted repair finds on its panel no other repair, or one first screen, committed and of another candidate |
| CatalogChecks.AlternationCounts | src/broker/catalog.ts:1719-1740 | Alternating cells are balanced between the two orders |
| CatalogChecks.UpdatedAt | src/broker/catalog.ts:1952-2016 | The growing outcome map holds exactly the tasks of the outcomes, each moved by one of them |
| CatalogRuns.AllocateRefusedExactly | src/broker/catalog.ts:2156-2294 | The operation refuses an admitted request exactly in that case, and then changes nothing |
| CatalogRuns.CommitSucceedsExactly | src/broker/catalog.ts:2300-2394 | An update is newly committed exactly when its guards admit it |
| CatalogAdmission.RepairSourceExactly | src/broker/catalog.ts:1486-1546 | A repair finds its panel exactly when one reported validation panel of the earlier experiment it cites, of its protocol and champion, has no screen yet or one first screen, reported and of another candidate |
| CatalogAdmission.AllocatesExactly | src/broker/catalog.ts:2117-2294 | A new allocation is acknowledged exactly when its identifiers are unused, its stage admits it, it names a champion, and it gives no cited experiment a second discovery |
| CatalogAdmission.RepeatsExactly | src/broker/catalog.ts:2138-2175 | A recorded request is answered with its own panel, and only under its own id and claim; one whose id or claim another record has conflicts, and the state stays |
| CatalogAdmission.AnswersOwnPanel | src/broker/catalog.ts:2117-2294 | Whatever panel is answered, the catalog then holds it for exactly this request, id and claim |
| CatalogAdmission.AllocationRecords | src/broker/catalog.ts:2204-2275 | The record is the request's own, sealed now until its deadline under the nonce, with that disposition |
| CatalogAdmission.AllocationExposes | src/broker/catalog.ts:1742-1785 | Every task of the panel is exposed once more by this experiment, and nothing else of any task moves |
| CatalogAdmission.AllocationSpends | src/broker/catalog.ts:2204-2275 | Only the slice a shadow panel takes is spent, by it; the carry moves with a validation draw only |
| CatalogAdmission.CommitsExactly | src/broker/catalog.ts:2300-2394 | An update is newly committed exactly when it is signed, reports one allocation in full, cell by cell with different digests, and nothing was reported for it before |
| CatalogAdmission.CommitRepeatsExactly | src/broker/catalog.ts:2300-2350 | An update is told it was committed already exactly when this very binding was; it conflicts exactly when its id has another binding, or its request was reported under another id |
| CatalogAdmission.CommitRecords | src/broker/catalog.ts:2352-2390 | It is then recorded as it is, and nothing changes but the tasks it reports |
| CatalogRuns.RunExtends | src/broker/catalog.ts:2117-2394 | Along every run the state check holds and no allocation, commitment or task identity is rewritten or lost |
| CatalogRuns.AllocatedOnce | src/broker/catalog.ts:2157-2169 | An allocation repeated under the same claim after any other steps returns the same panel and changes nothing |
| CatalogRuns.CommittedOnce | src/broker/catalog.ts:2325-2341 | A committed update repeated after any other steps is acknowledged and counted once |
| CatalogRuns.RepairsAreBounded | src/broker/catalog.ts:1376-1403 | A panel has at most two repairs; two are a committed first screen and a second of another candidate on the same cells, revisions, strata, buckets and orders |
| CatalogRuns.SecondFollowsCommittedFirst | src/broker/catalog.ts:1503-1529 | The second repair is admitted only over a ledger where the outcome of the first is already committed |
| CatalogCounts.RunConserves | src/broker/catalog.ts:1952-2016 | Over every run the candidate count of a hidden task equals the committed panels holding it, champion and matched counts those that are not repairs, and candidate counts add up to the committed task counts |
| CatalogCounts.CommitConserves | src/broker/catalog.ts:2352-2390 | One commit counts its panel once for every task in it |
| CatalogCounts.RunExposes | src/broker/catalog.ts:1742-1785 | Over every run the exposure total of a hidden task rises by one for every panel that drew it |
| CatalogCounts.SuccessCoolsDown | src/broker/catalog.ts:1998-2011 | A demonstrated success outside the shadow stage cools it down through two more experiments, and nothing shortens a cooldown |
| CatalogEvidence.OutcomeReflects | src/broker/catalog.ts:1952-1990 | Folding one outcome in counts a failure exactly for an arm that did not pass, and moves each sum by its term up to half a grid step |
| CatalogEvidence.RunReflects | src/broker/catalog.ts:1952-2016 | Over every run from a catalog without evidence a task's failures are, arm by arm, its newly committed outcomes that did not pass, and its reward, discrimination and cost sums lie within half a grid step an outcome, and an arm for cost, of the exact sums |
| CatalogFreshness.NoTaskTwicePositive | src/broker/catalog.ts:1742-1785 | Along every run whose draws honour the selectors, no task is in two validation or shadow panels |
| CatalogFreshness.ReservedStaysDark | src/broker/catalog.ts:1656-1705 | No task of a repair or validation panel is reserved for shadow panels |
| CatalogGenesis.GenesisPassesOnGrid | src/broker/catalog.ts:1406-1439 | The unchecked initial state passes the first check if and only if every adaptive seed estimate lies on the grid |
| CatalogGenesis.RejectedCatalogIsStuck | src/broker/catalog.ts:2111-2156 | A catalog that fails the check refuses every operation and never changes |
| CatalogGenesis.OneThirdIsOffGrid | src/broker/catalog.ts:858-860 | One third is a valid estimate off the grid |
| CatalogGenesis.EveryRunFromGenesis | src/broker/catalog.ts:1406-1439 | From a checked genesis every run stays checked, conserves its evidence and reuses no positive panel |
| CatalogGenesis.ImportedCatalogPasses | src/broker/catalog-import.ts:309-413 | Every accepted import founds a catalog that passes its check |
| CatalogWitness.OffGridSticks | src/broker/catalog.ts:2095-2156 | 89 valid seeds with one estimate off the grid found a catalog that fails its check and that no run changes |
| CatalogWitness.OneThirdSticks | src/broker/catalog.ts:2095-2156 | The same with the estimate one third |
| CatalogWitness.FreshValidationRefusedExactly | src/broker/catalog.ts:2156-2294 | In every sound catalog an admissible fresh validation, under its policy, admitted by the screens, with an eligible draw and new identifiers, passes the remaining guards; the closing check refuses it if and only if a repair cites its experiment |
| CatalogWitness.RepeatedDiscoveryHappens | src/broker/catalog.ts:2117-2394 | From every sound catalog without allocations and with two dozen spare tasks, a validation, its commit and a repair lead to a request that passes every guard and is refused by the closing check |
| CatalogWitness.PlainGenesisMeetsIt | src/broker/catalog.ts:2095-2394 | 89 concrete seeds on the grid found such a catalog |
| CatalogStore.DurableTrustedHiddenCatalog.Initialize | src/broker/catalog.ts:2095-2115 | The first call stores the prepared state unchecked; later calls report whether the stored state passes |
| CatalogStore.DurableTrustedHiddenCatalog.AllocateAndConsume | src/broker/catalog.ts:2117-2296 | A sound state is only extended, and it changes exactly for an admitted request, whose conditions are spelled out in CatalogAdmission; a panel is only answered to the request, id and claim it is recorded for |
| CatalogStore.DurableTrustedHiddenCatalog.CommitOutcomes | src/broker/catalog.ts:2300-2394 | The stored state and the reply are those of one commit transaction, a sound state is only extended, and a task that mirrors exact evidence mirrors that evidence with the outcomes newly committed |
| CatalogStore.ApplyOutcomeUpdate | src/broker/catalog.ts:1952-2016 | The outcome loop and the rebuilding of the table compute the specified map, whose evidence counts failures and sums as the outcomes have them |
| CatalogStore.CountArms | src/broker/catalog.ts:1086-1108 | The cell loop counts the two orders |
| CatalogStore.ScanAllocations | src/broker/catalog.ts:1235-1302 | The record loop accepts exactly ledgers without a repeated request, claim or lease whose repairs number the repair epoch |
| ValidationQuotas.QuotasNeverFail | src/evaluation/selection.ts:63-94 | From a valid carry a quota allocation never fails: twelve slots, none negative, and a valid carry again |
| ValidationQuotas.SharesStayFair | src/evaluation/selection.ts:63-94 | Over any number of panels a bucket gets its exact share up to the first and last carry, each under one task |

## Left out

- Files, directories, synchronization, streams, Git, HTTP, the command line and the dashboard; the lock protocol
  keeps exclusive creation, rename and unlink as its only file steps.
- Digest, signature and canonical JSON internals, schema registries, text patterns and timestamp parsing.
- Lock liveness: retries, timeouts, an abandoned recovery guard, and a failure between creating a lock file and
  writing it. Only safety is claimed.
- Two concurrent evaluations of one request inside one controller; each controller runs one.
- The source-result hash and the orphan receipts of the broker are folded into the values they hash, and the
  retry of raw destruction is one step.
- The scan of released artifacts for hidden task identifiers (src/cloud/mounted-volume-behavioral-privacy-store.ts:485)
  is string search; the links between the four documents of a release, beyond source, release and content
  hashes, are taken as part of the documents.
- Panel scoring and ranking; the quota arithmetic is modelled and the selected tasks are a draw.
- Which of two repairs of one hypothesis with equal experiment ordinals sorts last depends on the record order
  and is an input of an allocation.
- Writing the object bytes of a registry publication happens before the transaction and is not modelled; nor is
  the argument limit that spreading a very long array into the scan's stack would meet.
- The replay ledger, the online-error store, the catalog material registry, the diagnostic publisher and the
  correctness-gate records repeat patterns proved here.
- AssertInventoryTasks: covers the per-task loop; the header and the commitment of the inventory are checked in
  the specification of the import only.
- ScanAllocations: covers the counting and collision part of the record loop; the cell and disposition checks of
  the same loop are part of the state predicate only.
- BrokerAgreement.CrossStoreAgreement: does not cover runs with a reviving takeover, because the agreement is
  false there, as RevivalBreaksAgreement shows.
- BrokerReleases.CompletedReleaseIsNeverOrphaned: does not cover runs that strand a release, because the claim is
  false there, as StrandedReleaseCompletesExactly shows.
