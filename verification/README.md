# Verified model of the underlay transaction service

Aria Underlay is a service that brings the configuration of network switches to a wanted state. This project
models its three cores in Dafny and proves what they promise.

1. **The transaction protocol of one endpoint, with crash recovery.** An apply takes the lock of its endpoint,
   refuses to start while the device has an unresolved journal record, and drives Prepare, Commit, Verify, final
   confirmation and Rollback, storing a phase in a durable journal around every remote call. Recovery, the
   confirmed-commit watcher and manual resolution work on the same journal under the same locks. The strategies are
   those of NETCONF: candidate configuration (section 8.3 of RFC 6241), confirmed commit (section 8.4) and
   rollback-on-error (section 8.5). Above the protocol are scope locks, idempotency cells and endpoint locks.
2. **The configuration algebra.** Normalising, comparing, applying to the recorded state, auditing it against the
   device, staging, validating and planning requests, restricting a request to the endpoints to retry, and the wire form.
3. **Log retention.** Which records of the operation log stay, and where the rest goes.

The adapter, the file system and time are surroundings that may answer anything. A journal write succeeds, fails with
nothing written, or fails after the rename has already put the new content in place. Tasks may be dropped and the
process may restart between any two steps.

## Reading order

| files | content |
|---|---|
| `TxPhases`, `Strategies`, `Journal` | phases, the allowed relation and its closure, strategies, journal records |
| `ApplyMachine`, `ApplyOutcomes` | one apply as a machine with one access for each step; what is true at each step, and what the replies decide |
| `RecoveryOps`, `Interleaving`, `Isolation`, `ProtocolRuns`, `RunReasons` | any number of applies, recoveries and manual resolutions at once; invariants; whole runs; the reason for every stored phase |
| `ApplyCoordinator`, `RecoveryPass`, `RecoveryCoordinator` | the coordinators as they are written, with fields, loops and early returns, proved against the machine and against a specification of the pass |
| `Idempotency`, `IdempotentAnswers`, `Locks`, `LockProtocol`, `EndpointLocks` | requests with a key and their answers, lock order and deadlock |
| `Ordering`, `Text`, `ConfigModel`, `Normalize`, `Objects`, `Diff`, `DiffLoops`, `DiffContents`, `Convergence`, `ChangePlan`, `Dependencies` | the algebra of one device |
| `Sameness`, `RawStates` | what normalising forgets, and the change set in terms of states as they are written |
| `Drift`, `Spellings`, `PortSpellings` | the audit, and recorded states that spell names otherwise |
| `Intents`, `Faults`, `Validation`, `DomainPlan`, `Compensation`, `Wire`, `WireCodes`, `Mapper`, `PlannedStates`, `PlannedParts`, `Clashes`, `Conflicts`, `Exceptions` | requests for a whole domain, and the inputs that show the exceptions |
| `Retention` | the operation log |

## Promises that do not hold, and when exactly they do

- *Stored phases follow the closure of the allowed relation.* They do not when the write of RollingBack fails after its
  rename: memory keeps the old phase, and Failed is then stored over RollingBack
  (`ApplyMachine.StoredPhaseCanSkipRollback`). That is the only exception (`ApplyMachine.StoredPhaseMoves`,
  `Isolation.PhaseMovesForward`). The rank still rises, so a transaction changes phase at most ten times and the three
  final phases are never left (`ProtocolRuns.AtMostTenPhaseChanges`).
- *Failed means that Prepare was never sent.* It does not when one of five journal writes fails; the device may even hold
  the committed change (`ApplyMachine.FailedCanHideACommit`). An apply that sent Prepare reports Failed exactly when one of
  those writes failed (`ApplyMachine.OutcomeAfterPrepare`).
- *Comparing, applying and comparing again leaves nothing to do.* This holds from every canonical state exactly when the
  normalised request does not want and drop one object at once, directly or through the ACL or process it belongs to
  (`Convergence.ConvergesExactlyWhenSeparate`). Validation does not guarantee it
  (`Clashes.ValidRequestsCanClash`): it compares raw names for each member, while spelling and the merge of members into
  one endpoint come later. `Clashes.PlannedIsSeparateExactlyWhenNoClash` says which valid requests are affected.
- *After a request has been carried out and recorded, an audit finds nothing new.* It holds for every canonical record
  (`PortSpellings.CanonicalRecordNeverDrifts`), and states recorded from change sets are canonical
  (`Convergence.EveryRecordedStateIsCanonical`). A state recorded directly from a desired state, as recovery does for a
  record without a change set, need not be (`Exceptions.PlannedRecordCanBeSpelledOtherwise`). From any record the audit
  has a finding about an interface exactly when another spelling of its name is recorded and the request drops the
  interface, or rewrites it and that spelling sorts after the normal name
  (`PortSpellings.InterfaceDriftsExactlyWhenShadowed`). Valid requests do both
  (`Exceptions.LaterSpellingStandsInTheWay`, `Exceptions.AnySpellingOutlivesADrop`), and such an entry never leaves the
  record (`PortSpellings.OtherSpellingNeverLeaves`). `Spellings.AuditFindsExactlyTheOverruled` is the condition for all
  audited objects.
- *The staged plan means the same as the change set.* Exactly when no operation removes what another one writes
  (`ChangePlan.PlanMeansChangeSetExactlyWhenConflictFree`). A request never meets such a state exactly when it is safe
  (`Conflicts.PlanAlwaysAgreesExactlyWhenSafe`); a valid request need not be (`Exceptions.ValidRequestCanConflict`).
- *Once a record of an idempotency key is stored, no other payload reaches the device under that key.* It does not hold
  after a write that failed although it reached the store, until the next restart or the next successful write
  (`Idempotency.LandedRecordLetsAnotherPayloadRun`, `Idempotency.RecordStopsRunsExactlyWhenNotLanded`).
- *Rollback takes away what was created and restores what was there.* A newly configured interface is "restored" as well
  (`ChangePlan.RollbackFitsTheObject`, `Exceptions.NewInterfaceIsRestored`).

## Model

| member | source | states |
|---|---|---|
| `ProtocolRuns.RunsAreIsolated` | src/api/apply_coordinator.rs:202-215 | In every state of every run, with any interleaving, write outcome, dropped task and crash: a device is named by at most one record that needs recovery; a call goes out only while no other unresolved record names the device; no record has two workers, so recovery never acts on a record a live apply drives. |
| `ProtocolRuns.DiscardOnlyWithoutCommit` | src/tx/recovery.rs:51-66 | In every state of every run, recovery discards prepared changes only of transactions for which Commit was never sent. |
| `ProtocolRuns.AtMostTenPhaseChanges` | src/tx/phase_transition.rs:18-58 | Over any number of crashes and recoveries a transaction changes its stored phase at most ten times and never leaves RolledBack, Failed or ForceResolved. |
| `ProtocolRuns.CallsAreAnnouncedAndAlone` | src/api/apply_coordinator.rs:761-772 | When a call of an apply goes out, the journal holds the phase that announces it and nothing else unresolved names the device. |
| `ProtocolRuns.RecoveryIsAnnounced` | src/api/recovery_coordinator.rs:142-146 | Recovery talks to devices only while the journal holds Recovering. |
| `ProtocolRuns.OneWorkerPerRecord` | src/api/recovery_coordinator.rs:117-131 | Two tasks never work on one record under its locks. |
| `ProtocolRuns.ApplyEndsInAgreement` | src/api/apply_coordinator.rs:548-614 | In any interleaving, an apply none of whose writes failed ends with a result that agrees with the stored phase, and a stored commit has its evidence. |
| `ProtocolRuns.StepKeepsHistory` | src/api/recovery_coordinator.rs:105-207 | Every action of every task keeps isolation, the announcement of every call on record, and that discarded transactions had no commit. |
| `Isolation.StepKeepsInv` | src/api/apply_coordinator.rs:1015-1038 | Every action of every task, every dropped task and every crash keeps one unresolved transaction for each device and what each task knows about its record. |
| `Isolation.OnlyTheHolderWrites` | src/api/recovery_coordinator.rs:117-131 | A record is written only by the task that holds the locks of all its devices, and its devices never change. |
| `Isolation.PhaseMovesForward` | src/tx/phase_transition.rs:18-58 | A stored phase change is outside the allowed relation exactly when an apply whose write of RollingBack had failed after its rename now stores Failed. |
| `ApplyMachine.CommittedNeedsEvidence` | src/api/apply_coordinator.rs:616-715 | Committed is stored only after prepared, committed as the strategy demands, verified and, for a confirmed commit, confirmed, in that order and with nothing else asked; no write need have succeeded. |
| `ApplyMachine.OutcomeAfterPrepare` | src/api/apply.rs:108-133 | A finished apply that sent Prepare reports Failed exactly when one of five journal writes failed; without failed writes it ends Committed, RolledBack or InDoubt. |
| `ApplyMachine.ResultAgreesWithJournal` | src/api/apply_coordinator.rs:295-614 | When every journal write succeeds, result and stored phase say the same, Failed means that nothing was sent, and no record means that nothing was written. |
| `ApplyMachine.StoredPhaseMoves` | src/api/apply_coordinator.rs:969-976 | Each stored phase follows the allowed relation except exactly when RollingBack had landed although its write failed and Failed is stored over it. |
| `ApplyMachine.StoredPhaseCanSkipRollback` | src/api/apply_coordinator.rs:969-976 | A reachable apply stores Failed over RollingBack, which the closure of the relation does not allow. |
| `ApplyMachine.FailedCanHideACommit` | src/api/apply_coordinator.rs:829-830 | A reachable apply ends Failed, with Failed stored and no rollback sent, although the device reported the commit. |
| `ApplyMachine.ApplyEnds` | src/api/apply_coordinator.rs:194-293 | Every apply ends after at most 25 accesses, whatever the surroundings do. |
| `ApplyMachine.StepKeepsInv` | src/api/apply_coordinator.rs:717-1013 | Every step keeps what is true at its point of an apply: memory, stored phase, answers and writes so far. |
| `ApplyMachine.CallIsAnnounced` | src/api/apply_coordinator.rs:891-893 | At the point of a call the stored phase is the one that announces it. |
| `ApplyOutcomes.RollbackAnswerDecides` | src/api/apply_coordinator.rs:962-1013 | An apply that sent Rollback ends rolled back exactly when the device answered that it had rolled back or that nothing had changed, and in doubt otherwise; that phase is stored, or RollingBack is left if a write failed. |
| `ApplyOutcomes.RolledBackNeedsEvidence` | src/api/apply_coordinator.rs:978-1010 | An apply ends rolled back, or leaves RolledBack stored, only if the device answered so. |
| `ApplyOutcomes.RollsBackExactlyOnABadReply` | src/api/apply_coordinator.rs:616-715 | Without failed writes Rollback is sent exactly when a reply was not the one demanded, right after the first such reply; otherwise every call of the strategy was sent and answered as demanded. |
| `RunReasons.EveryPhaseHasAReason` | src/api/recovery_coordinator.rs:105-207 | In every run of any number of tasks, with dropped tasks, failed writes and crashes: a phase a record did not have at the start it got at a step with a reason. An apply stores Committed on the replies that prove it and RolledBack on the device's word; recovery takes up only unresolved records not in doubt and stores Committed or RolledBack exactly as all devices reported when it asked them; an operator resolves only records in doubt. |
| `RunReasons.ChangeHasAReason` | src/api/apply_coordinator.rs:548-614 | Every single change of a record, and every new record, has one of those reasons. |
| `RunReasons.RecoverySettles` | src/api/recovery_coordinator.rs:117-175 | In any reachable situation, a recovery that holds the locks of a record that is due and is left to itself stores Recovering, then the phase the devices report, changes no other record and gives the locks back. |
| `RunReasons.ReadTakesUpExactlyTheDue` | src/api/recovery_coordinator.rs:132-141 | Under the locks a recovery takes up exactly a record that is unresolved, not in doubt and meets its gate, and a manual resolution exactly one in doubt; anything else is left and the locks are given back. |
| `TxPhases.AllowedExactly` | src/tx/phase_transition.rs:18-58 | The followers of every phase, listed; a phase needs recovery exactly when it has followers and is not Committed. |
| `TxPhases.CanReachIsTheClosure` | src/tx/phase_transition.rs:18-58 | The closed form of reachability is exactly the closure of the allowed relation. |
| `TxPhases.RisingHistoryChangesAtMostTenTimes` | src/tx/phase_transition.rs:18-58 | A history whose changes raise the rank changes at most ten times. |
| `TxPhases.AllowedHistoryChangesAtMostTenTimes` | src/tx/phase_transition.rs:18-58 | A history of allowed changes has at most ten of them and stays at a final phase. |
| `TxPhases.TenChangesHappen` | src/tx/phase_transition.rs:18-58 | The bound of ten is reached. |
| `RecoveryOps.RecoveryIsAllOrNothing` | src/api/recovery_ops.rs:12-33 | A record with devices is recovered to a phase exactly when every device is; any failure or mix gives doubt. |
| `RecoveryOps.RecoveryFollowsTheReports` | src/api/recovery_coordinator.rs:285-445 | A record is recovered as committed exactly when every device reported it confirmed, verified or committed and the shadow is stored, and as rolled back exactly when every device reported that. |
| `RecoveryOps.ResolutionByPhase` | src/tx/recovery.rs:51-66 | By the phase found: a record with devices is stored Committed exactly when a commit may have been sent, every device is managed and says it holds the change, and the shadows are stored; RolledBack exactly when every device says it holds nothing, for which "no change" counts only before a commit was sent; InDoubt otherwise. |
| `RecoveryPass.PassFollowsTheReports` | src/api/recovery_coordinator.rs:105-207 | After a pass every candidate that was due has the phase its devices report, and every other record is as it was. |
| `RecoveryOps.RecoveryIgnoresDeviceOrder` | src/api/recovery_coordinator.rs:209-283 | The recovered phase is Committed, RolledBack or InDoubt and does not depend on the order of devices. |
| `RecoveryOps.DiscardNeverCommits` | src/tx/recovery.rs:51-66 | Recovery from Started, Preparing or Prepared never ends Committed. |
| `RecoveryOps.MergedIsUnanimous` | src/api/recovery_ops.rs:28-33 | Merging gives a phase other than doubt exactly when all verdicts are that phase. |
| `ApplyCoordinator.EndpointApply.ApplySingleEndpoint` | src/api/apply_coordinator.rs:194-293 | The result is that of a run of the machine over the same journal; a device with an unresolved record is left alone, and the result is then in doubt; nothing to do is reported exactly for an empty change set; success means Committed is stored on evidence and the stored shadow is the computed change set applied to the previous one with the next revision; that shadow or the old one is all that can be stored, the new one only on success or in doubt; other shadows and records are untouched. If Rollback was sent its answer decides between rolled back and in doubt, in the result and in the journal; the strategy decides between success and success with a warning. |
| `ApplyCoordinator.EndpointApply.FinishSuccessful` | src/api/apply_coordinator.rs:295-546 | Success only with the commit recorded and the shadow stored; otherwise the result is in doubt. |
| `ApplyCoordinator.EndpointApply.StoreShadow` | src/state/shadow.rs:72-85 | The stored shadow is the change set applied to the previous one, with the revision one higher, or 1 for a first shadow; a failed write leaves the old one or that one. |
| `ApplyCoordinator.EndpointApply.FinishFailed` | src/api/apply_coordinator.rs:548-614 | The result of a failed apply is that of the machine, never a success. |
| `ApplyCoordinator.EndpointApply.ApplyChangedEndpoint` | src/api/apply_coordinator.rs:616-715 | The calls follow the machine from the choice of strategy to the last confirmation, or to the recording of the failure. |
| `ApplyCoordinator.EndpointApply.RollbackAfterFailure` | src/api/apply_coordinator.rs:962-1013 | Rollback follows the machine, which ends as the answer decides; the record in memory becomes RollingBack only after the write. |
| `ApplyCoordinator.EndpointApply.PrepareEndpoint` | src/api/apply_coordinator.rs:717-759 | Goes on only if the device reports prepared and that is stored; otherwise the apply is on its way to recording a failure. |
| `ApplyCoordinator.EndpointApply.CommitEndpoint` | src/api/apply_coordinator.rs:761-818 | Committing is stored before the call; goes on only if the status is the one the strategy demands. |
| `ApplyCoordinator.EndpointApply.VerifyEndpoint` | src/api/apply_coordinator.rs:820-882 | Verifying is stored before the call; goes on only if verification passed. |
| `ApplyCoordinator.EndpointApply.FinalConfirmEndpoint` | src/api/apply_coordinator.rs:884-925 | FinalConfirming is stored before the call; goes on only if the device reports committed. |
| `ApplyCoordinator.EndpointApply.ChooseStrategy` | src/api/apply_coordinator.rs:616-715 | Goes on with the strategy the device offers and stores it; refuses exactly when there is none, or it is unsupported, or degraded without leave, or the write failed. |
| `ApplyCoordinator.EndpointApply.Admit` | src/api/apply_coordinator.rs:1015-1038 | An apply is let in exactly if lock, journal and drift check work and no unresolved record names the device; the refusal for that last reason is InDoubt. |
| `ApplyCoordinator.EndpointApply.DryRun` | src/engine/dry_run.rs:34-70 | The plan is the change set against what the device reports; an empty one ends the apply without a transaction. |
| `RecoveryPass.PassLeavesOnlyDoubt` | src/api/recovery_coordinator.rs:105-207 | After a pass over all unresolved records every unresolved record is in doubt, and ended plus pending records are the ones that were unresolved. |
| `RecoveryPass.SecondPassDoesNothing` | src/api/recovery_coordinator.rs:132-140 | A second pass changes no record and ends none, whatever the devices answer. |
| `RecoveryPass.OutcomeSettles` | src/api/recovery_coordinator.rs:141-175 | A record taken up ends committed, rolled back or in doubt, through allowed phase changes. |
| `RecoveryCoordinator.RecoveryCoordinator.RecoverRecords` | src/api/recovery_coordinator.rs:105-207 | The pass gives every record that is due the phase its devices report and leaves all others; it succeeds exactly when every journal write does; the report counts records ended, in doubt and unresolved, over all records or only those taken up; if a write fails, every record is as it was, marked Recovering, or done. Stopped or not, a shadow changes only with a record whose devices agreed on the commit, and a record that alone has a device is stored as committed only with the shadow of that device brought up to date. |
| `RecoveryCoordinator.RecoveryCoordinator.RecoverPending` | src/api/recovery_coordinator.rs:179-207 | Every record that was unresolved and not in doubt has the phase its devices report, and no other record changes, by the phase found. Afterwards unresolved means in doubt, pending equals in doubt, and recovered plus pending is the number that was unresolved. In an isolated journal every device of a newly committed record has the recovered shadow, devices without an agreed commit keep theirs, and a pass over records all in doubt changes no shadow. |
| `RecoveryCoordinator.RecoveryCoordinator.RecoverTimedOut` | src/api/recovery_coordinator.rs:80-103 | The watcher gives exactly the confirmed commits whose time is up the phase their devices report and touches no other record; of those, recovered plus pending is the number taken up, and pending means in doubt. Shadows change as in a full pass. |
| `RecoveryPass.TakenUpIsEndedOrInDoubt` | src/api/recovery_coordinator.rs:179-207 | With any gate, the records taken up are either ended or in doubt, and none is lost. |
| `RecoveryCoordinator.RecoveryCoordinator.RecoverOne` | src/api/recovery_coordinator.rs:141-175 | One record goes through Recovering to Committed exactly when its devices hold the change and the shadows can be stored, to RolledBack exactly when all hold nothing, and to doubt otherwise. It is stored as committed only with the shadow of every device brought up to date; shadows of other devices never change, and none does unless the devices agreed on the commit. |
| `RecoveryCoordinator.RecoverRecord` | src/api/recovery_coordinator.rs:209-445 | The loop over devices gives the merged phase, or fails if any device could not be settled. |
| `RecoveryCoordinator.RecoverWithRetry` | src/api/recovery_coordinator.rs:447-477 | A status is the answer exactly when it is the reply to the first of three attempts that does not fail in transport. |
| `RecoveryCoordinator.ConfirmDevice` | src/api/recovery_coordinator.rs:300-432 | Confirming again, else verifying, else asking the adapter counts the device as committed exactly when one of the three reports it, as rolled back exactly when only that is reported, and as not settled otherwise. |
| `RecoveryCoordinator.RecoveryCoordinator.PersistRecoveredShadow` | src/api/recovery_coordinator.rs:479-498 | Succeeds exactly when every device has a kept desired state and a working store; then every device's shadow holds, object by object, the recorded change set on the previous shadow or the kept desired state, and all other shadows are unchanged. |
| `RecoveryCoordinator.RecoveringTwiceIsSafe` | src/api/recovery_coordinator.rs:479-498 | Storing the shadow of a recovered device again, after a crash before the journal write, leaves its contents. |
| `RecoveryCoordinator.RecoveryCoordinator.ForceResolve` | src/api/admin_ops.rs:108-191 | Succeeds exactly for a transaction in doubt that is authorised and audited and whose writes work; nothing else changes. |
| `Idempotency.RunsAtMostOncePlusLost` | src/api/service.rs:542-587 | Over all interleavings and restarts the coordinator runs for a key at most once more than the number of its runs that failed, were dropped or cut off, or were not stored. |
| `Idempotency.KnownIsForever` | src/api/idempotency.rs:131-160 | Once the record of a key is known it never changes. |
| `Idempotency.KnownStopsRuns` | src/api/service.rs:543-556 | No run starts for a key whose record is known. |
| `IdempotentAnswers.ReusedAnswersRepeatTheRecord` | src/api/service.rs:543-556 | Once the record of a key is known, every reused answer for the key has the body of that record, its own request's request id, trace id and key, reused true, and was asked for with the record's payload. |
| `IdempotentAnswers.ReusedAnswersHaveAnOrigin` | src/api/service.rs:557-587 | Every reused answer repeats a record that was in the store at the start, that an earlier request with this key and payload was answered with after its own run, or that a restart caught being written. |
| `IdempotentAnswers.ReusedAnswersAgree` | src/api/service.rs:129-141 | Any two reused answers for a key have the same body, each with its own request id, trace id and key, and were asked for with the same payload. |
| `IdempotentAnswers.FreshAnswersCarryTheirRun` | src/api/service.rs:557-587 | In every run, an answer that is not reused has the body its own run ended with, its request's request id, trace id and key, and reused false. |
| `IdempotentAnswers.ReusedAnswersCarryARun` | src/api/service.rs:543-556 | In every run, a reused answer has its own request's request id, trace id and key, reused true, and the body that a run for the same key and payload ended with, or that of a record stored before the start. |
| `IdempotentAnswers.KnownKeyIsAnswered` | src/api/service.rs:543-556 | A request that holds the cell of a known key gets the record's body if its payload is that of the record and no answer otherwise; if the key is not known it runs. |
| `Idempotency.RecordStopsRunsExactlyWhenNotLanded` | src/api/service.rs:577-585 | With a record in the store, a request starts another run exactly when the last write of this process failed although it landed. |
| `Idempotency.LandedRecordLetsAnotherPayloadRun` | src/utils/atomic_file.rs:27-44 | In a run from an empty store the first request is answered from its run, its record lands although the write fails, and a request with another payload under the same key runs too. |
| `Idempotency.StepKeepsInv` | src/api/idempotency.rs:131-160 | Every step keeps cell, store, holder and count of runs in agreement, and known records as they are. |
| `LockProtocol.NoDeadlock` | src/tx/domain_lock.rs:28-40 | In no reachable state does a group of tasks wait only for each other. |
| `LockProtocol.SomeoneCanGoOn` | src/tx/endpoint_lock.rs:23-32 | While there are tasks, one of them is not waiting for a held lock. |
| `LockProtocol.WaitsUpwards` | src/tx/endpoint_lock.rs:34-72 | A waiting task holds only locks that come before the one it waits for: scope keys, then the idempotency cell, then endpoints, each sorted. |
| `LockProtocol.GoalsExactly` | src/api/service.rs:529-543 | An apply waits for exactly its scope keys and the cell of its idempotency key, a recovery for exactly the endpoints of its record. |
| `LockProtocol.TryTakesAllOrNone` | src/tx/endpoint_lock.rs:34-85 | An attempt takes the endpoints of all devices when all are free, and nothing otherwise. |
| `LockProtocol.AppliesToOneDomainNeverOverlap` | src/api/service.rs:529-531 | Two applies at work at once are for different trimmed domain ids, whatever their lock scopes. |
| `Locks.ScopeHasOwnDomainOnly` | src/api/service.rs:165-208 | Every scope locks the key of its trimmed domain id and of no other domain. |
| `Locks.ScopeKeysExactly` | src/api/service.rs:165-208 | A request is refused exactly when a part of its keys is missing, blank or has a colon, and otherwise locks its domain key and its region key or pair keys, and no other. |
| `Locks.ScopeHasRegionOrPairs` | src/api/service.rs:165-208 | A region scope locks its region, a switch pair scope every pair. |
| `EndpointLocks.EndpointLockTable.TryAcquireOrdered` | src/tx/endpoint_lock.rs:74-85 | All locks are taken if all are free, and none otherwise. |
| `Convergence.ConvergesExactlyWhenSeparate` | src/engine/diff.rs:71-205 | Diff, apply, diff again is empty from every canonical state exactly when the normalised request does not want and drop one object at once. |
| `Convergence.UnwantedObjectsStayUnlessAsked` | src/engine/diff.rs:219-311 | An object that is not wanted stays exactly unless it, or the ACL or process that carries it, is asked to go and is there as meant. |
| `Convergence.NothingToDo` | src/engine/diff.rs:71-205 | The change set is empty exactly when every wanted object is there as wanted and nothing asked to go is there. |
| `Convergence.RecordedStateStaysCanonical` | src/engine/normalize.rs:213-269 | A change set, whatever it was computed against, keeps a canonical recorded state canonical. |
| `Convergence.EveryRecordedStateIsCanonical` | src/engine/normalize.rs:213-269 | Every state recorded from an empty one by any change sets is a fixed point of normalisation. |
| `PortSpellings.OtherSpellingNeverLeaves` | src/state/drift.rs:112-135 | An interface recorded under another spelling stays in the record through any requests recorded after it; an audit of a device without the interface always has a finding. |
| `PortSpellings.InterfaceDriftsExactlyWhenShadowed` | src/state/drift.rs:82-135 | From a record that agreed with the device, carrying out and recording a request gives the next audit a finding about an interface exactly when another spelling is recorded and the request drops the interface, or rewrites it and the spelling sorts after the normal name. |
| `PortSpellings.CanonicalRecordNeverDrifts` | src/state/drift.rs:82-199 | A canonical record that agreed with the device still does after a request has been carried out and recorded. |
| `Spellings.AuditFindsExactlyTheOverruled` | src/state/drift.rs:82-199 | The same for VLANs, interfaces, ACLs and bindings: a finding exactly when the last entry that stays under another spelling is another object and, where the object was written, sorts after it. |
| `Spellings.RecordingKeepsKeyed` | src/engine/diff.rs:240-308 | Recording any operations keeps every entry under its own key. |
| `Drift.DetectDrift` | src/state/drift.rs:82-199 | An audited object is reported missing exactly when it is only in the record, extra exactly when it is only on the device, and a mismatch exactly when the normal forms differ; each warning is reported; BGP is not audited. |
| `DiffContents.DiffHolds` | src/engine/diff.rs:71-205 | The change set holds exactly the changes of the single comparisons. |
| `DiffContents.DiffWrites` | src/engine/diff.rs:76-101 | An object is written exactly when it is wanted and not already as wanted. |
| `DiffContents.DiffRemoves` | src/engine/diff.rs:141-159 | A key is removed exactly when it is asked to go and holds the object meant; a binding must bind the named ACL. |
| `DiffContents.WritesTellBefore` | src/engine/diff.rs:71-205 | A create says nothing was there and an update says exactly what was. |
| `DiffContents.DiffIsRanked` | src/engine/diff.rs:71-205 | The operations come in the order of the twelve passes. |
| `DiffLoops.ComputeDiff` | src/engine/diff.rs:71-205 | The twelve loops over ordered maps compute the specified change set. Where both states write each object once it is empty exactly when every wanted object is reported, up to what normalising forgets, and nothing asked to go is there. |
| `Sameness.SameExactlyWhenOneForm` | src/engine/normalize.rs:14-116 | Two objects have one normal form exactly when they agree in every field up to empty optional text, spelling of interface names, space around VRF and address, order and repetition of allowed VLANs, and order of rules with different numbers. |
| `RawStates.NothingToDoExactlyInAgreement` | src/engine/diff.rs:71-205 | For states that write each object once, the change set is empty exactly when every wanted object is reported as the same object and nothing asked to go is reported. |
| `RawStates.WritesExactlyWhatIsMissing` | src/engine/diff.rs:76-101 | A wanted object is written exactly when the device does not report the same object. |
| `RawStates.RemovesExactlyWhatIsAsked` | src/engine/diff.rs:141-159 | A reported object is removed exactly when the request asks for it to go, under any spelling; a binding must be the same binding. |
| `RawStates.WritesOnlyWhatIsWanted` | src/engine/diff.rs:76-101 | Whatever is written is the same object as one that is wanted. |
| `RawStates.NoDriftExactlyWhenTheSame` | src/state/drift.rs:82-199 | For states that write each object once, no audited object drifts exactly when each state holds the same audited objects as the other. |
| `Text.TrimIsTheCore` | src/engine/normalize.rs:43-44 | Trimming takes away the white space around a text, all of it and nothing else. |
| `Objects.AppliedActsOnEachObject` | src/engine/diff.rs:240-308 | What is under a key after the operations, cascading removals included, depends only on what was there before. |
| `Objects.ReapplyingChangesNothing` | src/engine/diff.rs:219-311 | Applying any operations a second time leaves the contents. |
| `Objects.FateOfIndependent` | src/engine/diff.rs:240-308 | What independent operations make of an object does not depend on their order. |
| `Objects.ApplyToShadow` | src/engine/diff.rs:219-311 | The loop gives every object the fate the operations give it on the base, or on nothing, under the wanted device id and the given revision and without warnings. |
| `ChangePlan.PlanMeansChangeSetExactlyWhenConflictFree` | src/engine/change_plan.rs:149-181 | From any state, plan and change set lead to the same state exactly when no operation removes what another one writes. |
| `Conflicts.PlanAlwaysAgreesExactlyWhenSafe` | src/engine/change_plan.rs:149-181 | Plan and change set of a request agree for every reported state and every base exactly when no wanted object is dropped or carried by a dropped one, bindings dropped as wanted excepted. |
| `Exceptions.ValidRequestCanConflict` | src/intent/validation.rs:690-724 | A valid request and a reported state whose plan and change set differ from every base. |
| `ChangePlan.StagedIsPermutation` | src/engine/change_plan.rs:154-181 | The five stages together are a rearrangement of the change set. |
| `ChangePlan.SeparateIsConflictFree` | src/engine/change_plan.rs:149-181 | The change set of a request that does not want and drop one object at once has no conflicts, from any state. |
| `ChangePlan.NoStepDanglesExactlyWhenNamesExist` | src/engine/change_plan.rs:154-181 | From a state without dangling references no single step of the plan leaves one exactly when every wanted object names an object that is wanted or there. |
| `ChangePlan.PlanKeepsSupport` | src/engine/change_plan.rs:154-181 | After every step of the plan every reference has its object, when wanted objects name objects that are wanted or there and not asked to go. |
| `ChangePlan.StagedKeepsDependencies` | src/engine/change_plan.rs:154-181 | Every dependency between two operations, unbinding before the removal of an ACL included, is kept by the order. |
| `Dependencies.EdgesAreTheDependencies` | src/engine/change_plan.rs:419-483 | Two operations of a change set are joined by an edge of the list exactly when a binding or neighbour relies on the ACL or process it names, or a removal on the removals of what belongs to the object. |
| `Dependencies.PlanKeepsEdges` | src/engine/change_plan.rs:149-181 | Along every edge of the list the plan has the earlier operation first. |
| `Dependencies.SummariesStandForNothing` | src/engine/change_plan.rs:435-478 | A summary node ("all bindings unbound", "all neighbors removed") appears exactly where the ACL or process is removed and no operation removes a binding of the ACL or a neighbour in the process. |
| `Dependencies.PolicyEdgesExactly` | src/engine/change_plan.rs:445-467 | A neighbour has an edge to a route policy exactly when an operation makes or changes it and it imports or exports by that policy, up to space around the name. |
| `Dependencies.DependencyEdges` | src/engine/change_plan.rs:419-567 | The loop builds the list these results are about, policy edges included. |
| `ChangePlan.BuildStages` | src/engine/change_plan.rs:149-181 | The stages are not empty, in order, and hold all operations of their kind in their order. |
| `ChangePlan.StageFitsTheObject` | src/engine/change_plan.rs:154-181 | Bindings and neighbours are removed in the first stage and made or changed in the last; other objects are removed in the second, made in the third and changed in the fourth, interfaces always in the fourth. |
| `ChangePlan.RollbackOrder` | src/engine/change_plan.rs:569-577 | The rollback order is exactly the plan read backwards. |
| `ChangePlan.RollbackFitsTheObject` | src/engine/change_plan.rs:579-628 | A rollback step names the object its operation changed, and a binding with the ACL that was bound or else is bound now, and takes it away exactly when it was not there before, except that interfaces are always restored. |
| `Exceptions.NewInterfaceIsRestored` | src/engine/change_plan.rs:579-628 | A valid request for an interface that an empty switch does not have gives a rollback step that restores it. |
| `Normalize.RebuildHolds` | src/engine/normalize.rs:118-211 | A rebuilt map has exactly the normalised keys, and under each the last entry in key order. |
| `Normalize.NormalShadowIsCanonical` | src/engine/normalize.rs:213-269 | A normalised state is canonical, and a state is its own normal form exactly when it is canonical. |
| `Normalize.NormalDesiredIsFixed` | src/engine/normalize.rs:118-211 | Normalising a desired state twice is the same as once. |
| `Normalize.CanonicalNameIsFixed` | src/engine/normalize.rs:43-55 | The canonical name of a canonical name is itself. |
| `Normalize.SortPutsInSequence` | src/engine/normalize.rs:57-74 | Sorting puts the rules in sequence and keeps every rule. |
| `Normalize.SortIsStable` | src/engine/normalize.rs:57-74 | Rules with equal sequence numbers keep their order. |
| `Normalize.SortedVlans` | src/engine/normalize.rs:28-37 | Allowed VLANs become ascending and keep their members, each once. |
| `Compensation.PlanOfRestricted` | src/api/apply_compensation.rs:228-336 | The plan of the restricted request is the plan of the whole request cut down to the selected endpoints. |
| `Compensation.RestrictedIsValid` | src/api/apply_compensation.rs:255-277 | A valid request restricted to some of its endpoints is valid exactly when they have a member between them. |
| `Compensation.FilterToEndpoints` | src/api/apply_compensation.rs:228-336 | Succeeds exactly for a non-empty list of endpoints the request has; from a valid request the result is valid exactly when a member is left, and its plan is the plan cut down to those endpoints. The result has the same domain, VLANs and ACLs, exactly the chosen endpoints, their members, and the parts of those members; a single endpoint makes it a stack. |
| `Compensation.SelectRetryable` | src/api/apply_compensation.rs:191-226 | Endpoints that ended failed or rolled back, and no others, or the named ones among them sorted without duplicates; refused when something else is named or nothing is left. |
| `Compensation.SortResults` | src/api/apply_compensation.rs:65-102 | Failed and rolled back results are to retry, those in doubt are for recovery and the others are done, each in their order. |
| `Compensation.InDoubtIsNeverRetried` | src/api/apply_compensation.rs:191-226 | A device in doubt with only one result is never among the endpoints to retry. |
| `DomainPlan.PlanDomain` | src/planner/domain_plan.rs:11-249 | Planning succeeds exactly for valid requests and gives the state of every endpoint in ascending order. |
| `DomainPlan.Spread` | src/planner/domain_plan.rs:81-103 | A loop of the planner changes the state of exactly the endpoint each part is routed to, and fails exactly when a part has none. |
| `PlannedStates.PlanIsFaithful` | src/planner/domain_plan.rs:27-246 | The plan loses no part of the request and makes none up. |
| `PlannedStates.PlannedStateEchoes` | src/adapter_client/mapper.rs:124-180 | The state planned from a valid request, sent out and reported back, is read without error as the same maps and needs no change exactly when no wanted object is asked to go as it is. |
| `PlannedStates.EchoNeedsNothingExactlyWhenUnopposed` | src/engine/diff.rs:71-205 | A device that holds exactly the wanted objects needs no change exactly when none of them is asked to go as it is. |
| `PlannedStates.SeparateIsUnopposed` | src/engine/diff.rs:141-153 | A request that does not want and drop one object at once is unopposed. |
| `PlannedStates.ValidRequestNeverDangles` | src/intent/validation.rs:171-188 | Carrying out the plan of a valid request step by step never leaves a binding without its ACL. |
| `PlannedStates.PlannedBindingsNameAcls` | src/intent/validation.rs:601-606 | In a planned state every wanted binding names an ACL that is wanted and not dropped. |
| `PlannedParts.PlannedPortsNameVlans` | src/intent/validation.rs:741-811 | In a planned, normalised state every VLAN a wanted interface names as access, native or allowed VLAN is wanted and not dropped, and every interface names one. |
| `PlannedParts.PlannedObjectsAreWellFormed` | src/intent/validation.rs:264-585 | Every object of a planned state is well formed: VLAN and ACL numbers in range, rules sound and numbered apart, names not empty, AS numbers not zero, addresses IPv4. |
| `Clashes.PlannedIsSeparateExactlyWhenNoClash` | src/intent/validation.rs:690-724 | A valid request wants and drops one object of an endpoint exactly when two of its parts for that endpoint have one normalised name, or a neighbour is wanted in a dropped process. |
| `Clashes.ValidRequestsCanClash` | src/intent/validation.rs:690-724 | Two valid requests that want and drop one interface: by two spellings, and by two members behind one endpoint. |
| `Exceptions.PlannedRecordCanBeSpelledOtherwise` | src/api/recovery_coordinator.rs:479-498 | The state planned for a valid request, recorded as it is, is keyed but not canonical. |
| `Exceptions.LaterSpellingStandsInTheWay` | src/state/drift.rs:112-135 | From that record a valid request that rewrites the interface by its short name is overruled by the long name. |
| `Exceptions.AnySpellingOutlivesADrop` | src/state/drift.rs:112-135 | From that record a valid request that drops the interface leaves the long name recorded. |
| `Faults.ValidExactlyWithoutFault` | src/intent/validation.rs:60-811 | A request is valid exactly when it has none of the listed faults: in names, endpoint counts, numbers and ranges, addresses, undeclared VLANs, ACLs and members, repeated parts, or parts both wanted and dropped. |
| `Text.Ipv4IsFourNumbers` | src/intent/validation.rs:523-528 | A text is an IPv4 address exactly when it is four numbers below 256, without leading zeros, joined by full stops. |
| `Validation.Validate` | src/intent/validation.rs:60-210 | The checks accept a request exactly when it has none of those faults. |
| `Validation.CheckEach` | src/intent/validation.rs:264-282 | A pass accepts exactly lists whose parts are all well formed and have different keys. |
| `Mapper.EchoTrip` | src/adapter_client/mapper.rs:301-374 | A state whose objects are under their own keys comes back with the same maps exactly when every object is readable, and is refused otherwise. |
| `Mapper.ReadHoldsTheLast` | src/adapter_client/mapper.rs:301-374 | A map read from a report has under each key the last reported object with that key, and nothing else. |
| `Mapper.ReadExactlyWhenEachIs` | src/adapter_client/mapper.rs:301-374 | A list is read exactly when each of its objects can be. |
| `Mapper.ReadShadow` | src/adapter_client/mapper.rs:301-374 | The loops read a report into the state these lemmas speak of, with the reported device id, revision 0 and the given warnings, and refuse it at the first object that cannot be decoded. |
| `WireCodes.WritesTheWireForm` | proto/aria_underlay_adapter.proto:61-104 | Every object is written field by field, with the numbers of the protocol for states, modes, actions, transport protocols, directions and ACL kinds. |
| `WireCodes.VlanIsRead` | src/adapter_client/mapper.rs:301-330 | A wire VLAN is read as a VLAN exactly when it is its wire form and its number is from 1 to 4094. |
| `WireCodes.PortIsRead` | src/adapter_client/mapper.rs:808-888 | A wire interface is read as an interface exactly when it is its wire form. |
| `WireCodes.RuleIsRead` | src/adapter_client/mapper.rs:617-654 | A wire rule is read as a rule exactly when it is its wire form, addresses are not blank and ports are not zero. |
| `WireCodes.AclIsRead` | src/adapter_client/mapper.rs:505-548 | A wire ACL is read as an ACL exactly when it is its wire form, its number is in the range of its kind and its rules are sound; a kind left open is read from the number. |
| `WireCodes.BindingIsRead` | src/adapter_client/mapper.rs:550-564 | A wire binding is read as a binding exactly when it is its wire form, names an interface and an ACL number in range. |
| `WireCodes.ProcessIsRead` | src/adapter_client/mapper.rs:566-588 | A wire process is read as a process exactly when it is its wire form, its VRF is not blank and its AS is not zero. |
| `WireCodes.NeighborIsRead` | src/adapter_client/mapper.rs:590-615 | A wire neighbour is read as a neighbour exactly when it is its wire form, VRF and address are not blank and the AS is not zero. |
| `Wire.AclTrip` | src/adapter_client/mapper.rs:505-548 | An ACL comes back unchanged exactly when its number fits its kind and its rules are readable. |
| `Wire.RulesTrip` | src/adapter_client/mapper.rs:617-654 | Rules come back unchanged exactly when addresses are not blank and ports are not zero. |
| `Wire.BindingTrip` | src/adapter_client/mapper.rs:550-564 | A binding comes back unchanged exactly when its interface is not blank and its ACL number is in range. |
| `Wire.NeighborTrip` | src/adapter_client/mapper.rs:590-615 | A neighbour comes back unchanged exactly when process and address are not blank and the AS is not zero. |
| `Wire.PortTrip` | src/adapter_client/mapper.rs:776-888 | Every interface comes back unchanged. |
| `Retention.KeptIsLongest` | src/telemetry/ops.rs:311-336 | A suffix of the log is within both bounds exactly when it is no longer than what is kept. |
| `Retention.RetainSummaries` | src/telemetry/ops.rs:311-336 | The loop from the newest record back keeps exactly that suffix. |
| `Retention.ReadableExactlyWithoutBrokenLine` | src/telemetry/ops.rs:338-354 | A log can be read exactly when it has no broken line. |
| `Retention.ReadInOrder` | src/telemetry/ops.rs:338-354 | What is read are the records of all record lines, in the order of the file. |
| `Retention.CompactionKeepsTheKept` | src/telemetry/ops.rs:181-230 | After a compaction the file reads as exactly what is kept, within both bounds; it has changed exactly when records were dropped or a file over the byte limit got smaller. |
| `Retention.SecondCompactionDoesNothing` | src/telemetry/ops.rs:181-230 | A second compaction with the same policy reports no change, whatever the file was. |
| `Retention.SummaryLog.Compact` | src/telemetry/ops.rs:181-230 | Fails exactly on a zero bound or a broken line; otherwise the file holds exactly what is kept and the report gives its counts; nothing changes on failure, on a missing file or when nothing is gained, and otherwise the old file is rotated. |
| `Retention.RotateArchives` | src/telemetry/ops.rs:232-258 | The descending loop moves every archive up by one, drops the last and stores the payload as archive 1. |
| `Retention.ArchivesHoldTheNewest` | src/telemetry/ops.rs:232-258 | After any number of rotations with limit n, archives 1 to n hold the last n payloads, newest first. |

## Left out

- The remote transport, its connection pool and the adapters themselves: an adapter is a source of arbitrary answers.
- Serialisation and the file system: stores are maps, reading gives back what was written, and a write has the three outcomes above.
- The lease between processes: one process is modelled, with restarts.
- Product API, identity, authorisation rules, command line tools and daemons: manual resolution only needs "authorised" and "audited".
- Events, metrics, alerts, audit records, report texts and error messages; an error is just a failure.
- The audit log, which repeats the compaction of the operation log.
- The aggregation of results over several endpoints, and the loop over endpoints around the single apply: easy case analysis.
- Write-decision classification, blast radius, route policy evidence and profile checks of the change plan: flat case analysis.
- The domain apply records kept for retries: a map of requests and answers.
- Switch-pair requests, an older and smaller form of domain requests.
- The texts of dependency nodes: a node is a structured value, so two objects never share a node.
- Drift policies and the life cycle states set by an audit: what an audit finds is modelled, not what is done about it.
- The warning put on an answer whose idempotency record could not be stored: a body stands for everything but the annotated fields and the warnings.
- The clock of the confirmed-commit watcher: whether the time of a record is up is an input.
- Garbage collection of journal and idempotency records.
- Waiting times and jitter of lock attempts: an apply that does not get its endpoint tries again holding no endpoint, or gives up.
- Transaction ids are assumed to be fresh, as generated ids are.
- Records without devices in the interleaving: they lock nothing, so two recoveries of one such record could overlap. Recovery of a single such record is modelled.
- Listing the unresolved records is one action in the interleaving: while a task holds an endpoint nobody else writes the records of that device (`Isolation.OnlyTheHolderWrites`), so the order in which the files are read does not matter for the gate.
- Retention.SummaryLog.Compact: does not model failing file operations, nor the overflow of byte counters beyond 64 bits.
