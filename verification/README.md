# Proofs about the Qubicl command line

Dafny models of the operations of the Qubicl command line that must survive a crash, and of the
algorithms beside them that carry a precise promise. Each module models one source file or one of its
operations, and proves what a maintainer relies on when changing it.

| module | models |
|---|---|
| `UpgradeAcceptance`, `UpgradePlan`, `UpgradeSteps`, `ToolPolicy` | what `upgrade --all` reviews, plans and writes |
| `UpgradeProtocol`, `UpgradeSettling`, `UpgradeResumption`, `UpgradeRun` | the journalled run of an accepted upgrade, and its recovery |
| `UpgradeExample` | a concrete host with an upgrade to make, so that those states are not empty |
| `StableJson` | the canonical encoding behind every digest |
| `CleanupPlan` | the cleanup planner and the deletion loop |
| `Backups`, `BackupEncryption` | backup creation and recovery; the encrypted container file |
| `LifecycleOperations`, `ManagedRuntime` | start, stop and restart of a computer; how a container group is observed |
| `ContainerReplacement` | replacement of a computer's reviewed containers |
| `LeaseBridge` | the shared lease of concurrent tool calls |
| `AuditLog`, `Jsonc`, `BrowserProfile`, `PtyFraming`, `ImageAcquisition` | audit pruning, JSONC reading, profile removal, request framing, download estimates |
| `Sorting`, `Wrappers` | stable sorting by a total preorder; options, results and the outcome of an effect |

`dafny verify dfyconfig.toml` checks all of it.

## How crashes are modelled

An operation that survives crashes is a class. Its fields are the world: configuration, journal,
containers, directories. Every awaited effect is a method that may take place, fail without taking place, take
place in part, or take place and then end the process; the field `faulty` says whether it may. An operation
returns at the first effect that does not end well, so its postcondition holds in every state in which the
process can be lost, and recovery starts from nothing but that postcondition. A `faulty` of false gives
the matching liveness statement: what a run without faults reaches. `RecoverEventually` puts both together: any
number of cut recoveries, then one that is not cut.

Concurrency (`LeaseBridge`) is a transition system with one step per stretch between two awaits; its theorems
are about every sequence of enabled steps, and the methods of the class are proved to be those steps.

A digest is represented by the value it identifies. `StableJson.StableIdentifies` is the reason this is sound:
two values have the same canonical text exactly when they are equal up to member order.

## What the proofs found

- An upgrade step of a software recipe that still carries a catalog preset but records no base preset turns
  its preview row from that preset to `custom`, and recovery then refuses the protocol's own state. Recovery
  accepts a step exactly when the recipe keeps its base preset
  (`UpgradeSteps.RecoverableStepIffBasePresetKept`, with an example in `UpgradeSteps.DroppedPresetIsRefused`);
  runs are proved for configurations that do.
- A start of an absent computer whose configured image is not pinned never clears its journal, not even
  without faults, because the last check asks for the pinned bytes
  (`LifecycleOperations.Computer.UnpinnedStartNeverEnds`; the condition in `Recover` is exact).
- If acquisition obtains an absent image of a row that reads `current` and the reference has come to name
  other bytes, the row turns into a repair that nobody accepted, and recovery refuses the protocol's own state
  (`UpgradeSteps.ObtainingAdmittedIffRecordedBytes`, exact condition; `UpgradeExample.OtherBytesAreRefused`, a
  host).
- A replacement by an image that is not pinned cannot be rerun once a cut creation has made one container: the
  check refuses every container that is not a reviewed source (`ContainerReplacement.Docker.Replace`, exact
  condition; `ContainerReplacement.UnpinnedCreationIsStuck`).
- A replacement without reviewed sources is refused when its exact targets are all there but in different
  states (`ContainerReplacement.Docker.KeepUnbound`, exact condition;
  `ContainerReplacement.MixedTargetsAreRefused`).
- A root given with a trailing slash has nothing below it for `pathAtOrBelow`
  (`BrowserProfile.AtOrBelowIffComponents`, exact condition).
- The tool of a bridge call takes effect at most once only if the gateway says `not-started` truthfully
  (`LeaseBridge.ToolRunsAtMostOnce`, `LeaseBridge.UntruthfulReplyRunsTwice`, a run with two).
- Composing acceptances needs no assumption about unique keys: the check of the later acceptance supplies it
  (`UpgradeAcceptance.AdmissionComposes`).

## Model

| member | source | states |
|---|---|---|
| UpgradeAcceptance.SameRuntimeContainersTransitive | packages/cli/src/lifecycle-update.ts:747-764 | agreement of two container lists by immutable identity is transitive |
| UpgradeAcceptance.RowAdmittedTransitive | packages/cli/src/lifecycle-update.ts:709-774 | a row admitted by a row admitted by a first row is admitted by the first: recovery actions never widen along the way |
| UpgradeAcceptance.AdmissionComposes | packages/cli/src/lifecycle-update.ts:709-745 | if acceptance A admits B and B admits C then A admits C |
| UpgradeAcceptance.ChainAdmitsLast | packages/cli/src/lifecycle-update.ts:681-745 | over any chain of recoveries the first acceptance admits the last |
| UpgradeAcceptance.RemainingMutationWasReviewed | packages/cli/src/lifecycle-update.ts:709-774 | after any chain of recoveries every row that still has something to do was reviewed at the start with the same target, action, runtime state and, if it mutates, the same containers |
| UpgradePlan.BuildUpgradeAllPlan | packages/cli/src/lifecycle-update.ts:239-440 | planning fails exactly when the catalog lacks a preset that is followed; the plan made of the pushed rows, consumers and blockers is the specification that re-planning is proved about, and it is blocked exactly when something it would touch is not stable or a recovery is due |
| UpgradePlan.UnblockedIffStable | packages/cli/src/lifecycle-update.ts:374-394 | the sorted blockers are empty if and only if every runtime state can be preserved, a running computer has a running gateway, and no recovery is due |
| UpgradeSteps.SteppedComputerIsCurrent | packages/cli/src/lifecycle-update.ts:1143-1171 | the computer that a step writes keeps its identity, name and resources, and its new row reads `current` and continues the reviewed row |
| UpgradeSteps.SteppedAccessNarrows | packages/cli/src/upgrade.ts:13-28 | it also keeps its other settings, takes on the contract's capabilities and this control protocol, and allows exactly the tools that the new contract offers and that were allowed before |
| ToolPolicy.UpgradesOnlyNarrow | packages/cli/src/upgrade.ts:13-28 | over any sequence of upgrades a tool is allowed exactly if it was at the start and every contract on the way offered it |
| ToolPolicy.UpgradeKeepsRequired | packages/core/src/config.ts:144-149 | a policy that keeps the tools the schema requires still does after an upgrade, whatever the new contract offers |
| UpgradeSteps.RecoverableStepIffBasePresetKept | packages/cli/src/software.ts:76-99 | after a step recovery admits the new row if and only if the recipe keeps its base preset |
| UpgradeSteps.DroppedPresetIsRefused | packages/cli/src/software.ts:76-99 | a concrete computer for which the step's own result is refused |
| UpgradeSteps.ProgressIsAdmitted | packages/cli/src/lifecycle-update.ts:709-774 | a plan whose rows have progressed is admitted by the acceptance of the plan before |
| UpgradeSteps.PlansAreWellFormed | packages/cli/src/lifecycle-update.ts:239-440 | every plan of a valid host has unique row keys and unique container identities |
| UpgradeSteps.ExactTargetsUnique | packages/cli/src/lifecycle-update.ts:915-935 | the exact targets of a plan are deduplicated |
| UpgradeSteps.ReplanAfterGateway | packages/cli/src/lifecycle-update.ts:1096-1127 | re-planning after the gateway step finds both its rows done, every other row as it was, the computer steps left and nothing blocked |
| UpgradeSteps.ReplanAfterComputer | packages/cli/src/lifecycle-update.ts:1143-1171 | re-planning after a computer step finds that row current, every other row as it was, exactly this step gone and nothing blocked |
| UpgradeSteps.QuietIffRecordedBytes | packages/cli/src/docker.ts:2844-2860 | of the drift verdicts alone: obtaining references leaves every one unchanged if and only if newly obtained configured references bring their recorded bytes |
| UpgradeSteps.ReplanAfterAcquisition | packages/cli/src/lifecycle-update.ts:239-440 | with unchanged drift verdicts acquisition changes no row of a fresh plan |
| UpgradeSteps.AdmittedIffCurrentStaysQuiet | packages/cli/src/lifecycle-update.ts:709-774 | for any change of the image store, the acceptance of a plan admits the new plan if and only if no image of a row that read `current` has come to hold other bytes |
| UpgradeSteps.ObtainingAdmittedIffRecordedBytes | packages/cli/src/lifecycle-update.ts:709-774 | after references were obtained that is so if and only if every newly obtained image of a row that read `current` brought its recorded bytes |
| UpgradeProtocol.AcceptedPlanParses | packages/cli/src/lifecycle-command.ts:443-544 | the acceptance of a well-formed plan is read back by the strict journal parser |
| UpgradeProtocol.StepsAreInsideAcceptedPlan | packages/cli/src/lifecycle-command.ts:443-544 | every step of an unblocked plan may be recorded as active step without the parser rejecting it |
| UpgradeProtocol.RollForwardForgetsInterruption | packages/cli/src/lifecycle-command.ts:727-778 | a state transaction rolled forward from wherever it was cut ends as if it had not been cut |
| UpgradeSettling.NextComputerStep | packages/cli/src/lifecycle-update.ts:1082-1094 | when a computer step is next, a fresh plan whose steps are within those left has no gateway step, and doing the step leaves it within the rest |
| UpgradeSettling.ComputerStepSettles | packages/cli/src/lifecycle-update.ts:619-637 | a rolled-forward computer step leaves a state that recovery accepts, with the configuration one step further |
| UpgradeSettling.GatewayStepSettles | packages/cli/src/lifecycle-update.ts:608-618 | the same of the gateway and defaults step |
| UpgradeSettling.ChangeSettles | packages/cli/src/lifecycle-update.ts:570-599 | obtaining references, and building the software images of computers still to be replaced over their tags, leaves a state that recovery accepts |
| UpgradeSettling.AcceptanceSettles | packages/cli/src/lifecycle-command.ts:391-412 | the journal of a fresh acceptance, keeping earlier software builds, starts a run that recovery accepts |
| UpgradeSettling.StartedStaysSettled | packages/cli/src/lifecycle-command.ts:334-341 | recording the start of the next step keeps the state recoverable |
| UpgradeSettling.CompletedStaysSettled | packages/cli/src/lifecycle-command.ts:342-348 | recording its completion keeps the state recoverable |
| UpgradeSettling.PreparedStaysSettled | packages/cli/src/lifecycle-command.ts:366-389 | saving a software build of the base that will be bound keeps the state recoverable |
| UpgradeSettling.UnblockedStates | packages/cli/src/lifecycle-update.ts:821-904 | in an unblocked plan every runtime state can be preserved, and a running computer has a running gateway |
| UpgradeResumption.ReviewExtends | packages/cli/src/lifecycle-update.ts:681-745 | an admitted acceptance extends the chain that began with the operator's review |
| UpgradeResumption.PendingSurvivesCut | packages/cli/src/lifecycle-command.ts:727-778 | a pending state transaction cut again is still one that rolls forward into a recoverable state |
| UpgradeResumption.CutBegins | packages/cli/src/lifecycle-command.ts:334-341 | when a transaction begins behind its start record, the configuration on disk and the one to be written are the last two of the run, and the journal identifies both |
| UpgradeResumption.CutStays | packages/cli/src/lifecycle-command.ts:727-778 | wherever the transaction is cut, the configuration on disk is one of those two |
| UpgradeResumption.ComputerStepCuts | packages/cli/src/lifecycle-command.ts:749-778 | so a computer's transaction may be cut anywhere, with its digest always the checkpoint or the expected one, and still rolls forward |
| UpgradeResumption.ComputerStepPending | packages/cli/src/lifecycle-command.ts:749-778 | a computer step may be cut at any point of its transaction |
| UpgradeResumption.GatewayStepPending | packages/cli/src/lifecycle-command.ts:727-747 | the gateway step may be cut at any point of its transaction |
| UpgradeResumption.StepSubject | packages/cli/src/lifecycle-update.ts:1082-1094 | every computer step key finds its one computer and its one row |
| UpgradeResumption.TargetListed | packages/cli/src/lifecycle-update.ts:915-935 | every row's target is among the exact targets that are acquired |
| UpgradeResumption.ObtainingSettles | packages/cli/src/lifecycle-update.ts:570-599 | acquisition that brings the recorded bytes for current rows keeps the whole state recoverable, at any point of a run |
| UpgradeResumption.IntactBases | packages/cli/src/lifecycle-update.ts:1025-1045 | where recorded recipe bases are intact, no acquired target contradicts a recorded identity, at any point of a run |
| UpgradeResumption.LeftIsReplanned | packages/cli/src/lifecycle-command.ts:248-294 | a fresh plan asks for nothing beyond what the run has left, so with nothing left there is nothing to plan |
| UpgradeResumption.SettledIsRecoverable | packages/cli/src/lifecycle-command.ts:248-294 | in every state the protocol leaves between transactions, each check of recovery passes: journal parses, digest matches, acceptance admits the new plan, no blocker |
| UpgradeResumption.RemainingWorkWasReviewed | packages/cli/src/lifecycle-update.ts:709-774 | at any point of a run, after any recoveries, work that remains was in the operator's first review with the same target, state and containers |
| UpgradeExample.UpgradeToRunExists | packages/cli/src/lifecycle-command.ts:391-412 | a concrete host whose accepted upgrade has a gateway step and a computer step ahead, in a state recovery accepts |
| UpgradeExample.OtherBytesAreRefused | packages/cli/src/lifecycle-update.ts:765-774 | a concrete host on which an acquired exact target of a current row brings other bytes, and recovery refuses the re-plan |
| UpgradeRun.Machine.RecordStepStarted | packages/cli/src/lifecycle-command.ts:334-341 | the start record holds the expected configuration; refused while a step is active; recoverable wherever it is cut |
| UpgradeRun.Machine.RecordStepCompleted | packages/cli/src/lifecycle-command.ts:342-348 | the completion record moves the checkpoint to the configuration on disk and clears the active step |
| UpgradeRun.Machine.CommitStep | packages/cli/src/lifecycle-command.ts:727-778 | the step's transaction either has not begun, is pending and recoverable with the configuration at the checkpoint or the expected digest, or has advanced the run by one step |
| UpgradeRun.Machine.StepComputer | packages/cli/src/lifecycle-update.ts:619-637 | one computer step: at every exit the state is recoverable; on success one step further, at a checkpoint, and only this computer's configuration and runtime changed |
| UpgradeRun.Machine.StepGateway | packages/cli/src/lifecycle-update.ts:608-618 | one gateway step likewise, handing on the replaced gateway's containers |
| UpgradeRun.Machine.AcquireTargets | packages/cli/src/lifecycle-update.ts:570-590 | on success every exact target is local, with the inspected bytes as evidence, and only references were added; without faults it succeeds if and only if no recorded recipe base is contradicted |
| UpgradeRun.Machine.Build | packages/cli/src/software.ts:60-73 | a build gives the computer's tag whatever bytes it made, also when the tag existed, and touches no other reference |
| UpgradeRun.Machine.PrepareUpgradeSoftware | packages/cli/src/lifecycle-command.ts:366-389 | a saved build is reused byte for byte, a new one is saved before it is used, and the result is local |
| UpgradeRun.Machine.PrepareSoftware | packages/cli/src/lifecycle-update.ts:590-599 | every software computer to be replaced has its local build before the first mutation |
| UpgradeRun.Machine.RunStep | packages/cli/src/lifecycle-update.ts:603-643 | one turn of the loop keeps what the next turn needs, including the current gateway containers |
| UpgradeRun.Machine.RunSteps | packages/cli/src/lifecycle-update.ts:600-643 | the loop ends with no accepted step left, and every exit before that is recoverable |
| UpgradeRun.Machine.RecordAccepted | packages/cli/src/lifecycle-command.ts:391-412 | the new acceptance replaces the journal it resumes, keeping its builds; the work left never grows |
| UpgradeRun.Machine.ExecuteUpgradeAll | packages/cli/src/lifecycle-update.ts:554-650 | nothing changes unless the host still shows exactly the reviewed unblocked plan; every exit is recoverable; success leaves nothing to plan and no journal; without faults it succeeds if and only if the review is up to date and no recorded recipe base is contradicted |
| UpgradeRun.Machine.RunAccepted | packages/cli/src/lifecycle-update.ts:570-643 | from the accepted journal to the last step: without faults it gets there if and only if no recorded recipe base is contradicted |
| UpgradeRun.Machine.RecoverTransaction | packages/cli/src/lifecycle-command.ts:727-778 | recovering the pending transaction keeps the state recoverable and ends it unless cut again |
| UpgradeRun.Machine.RecoverPendingUpgradeAll | packages/cli/src/lifecycle-command.ts:248-294 | recovery never makes the remaining work grow and clears the journal only when nothing is left; without faults it succeeds if and only if there is no journal, or no transaction is pending and nothing is left or no recorded recipe base is contradicted |
| UpgradeRun.Machine.UpgradeAll | packages/cli/src/lifecycle-command.ts:70-105 | an accepted upgrade is resumed, otherwise a fresh plan is executed, with nothing changed unless confirmed; the exact condition of success without faults |
| UpgradeRun.Machine.RecoverEventually | packages/cli/src/lifecycle-command.ts:248-294 | after any number of cut recoveries one without faults finishes the accepted upgrade and clears its journal, unless a recorded recipe base no longer names its bytes; work left never grows |
| StableJson.EscapeAllReadable | packages/cli/src/cleanup-plan.ts:415-424 | an escaped string, lone surrogates included, determines the string and where it ends |
| StableJson.DigitsInjective | packages/cli/src/cleanup-plan.ts:415-424 | different integers have different digits |
| StableJson.ItemsReadable | packages/cli/src/cleanup-plan.ts:415-424 | the text of an array determines the number of its items and each of them |
| StableJson.EntriesReadable | packages/cli/src/cleanup-plan.ts:415-424 | the text of an object determines its sorted members |
| StableJson.Readable | packages/cli/src/cleanup-plan.ts:415-424 | unique readability: a canonical text followed by anything determines the value and what follows |
| StableJson.SameHasSameText | packages/cli/src/lifecycle-update.ts:1005-1014 | values equal up to member order, at any depth, have the same canonical text |
| StableJson.StableIdentifies | packages/cli/src/cleanup-plan.ts:411-424 | two values have the same canonical text if and only if they are equal up to member order |
| CleanupPlan.BuildCleanupPlan | packages/cli/src/cleanup-plan.ts:114-142 | planning fails exactly for an inventory that validation refuses, and the pushed and sorted lists are those of the specification below |
| CleanupPlan.EvidenceIgnoresOrder | packages/cli/src/cleanup-plan.ts:312-330 | an item's evidence does not depend on the order of its labels, references or attachments |
| CleanupPlan.DecisionIgnoresOrder | packages/cli/src/cleanup-plan.ts:156-257 | neither does the decision about it, reason and quoted status included |
| CleanupPlan.PlanIgnoresOrder | packages/cli/src/cleanup-plan.ts:114-142 | the whole plan, hence its review digest, is the same for any order of the items, their labels, references and attachments |
| CleanupPlan.RemoveIffDisposable | packages/cli/src/cleanup-plan.ts:156-298 | an item is to be removed if and only if its kind was selected, its ownership is verified and nothing runs, attaches, references or expects it |
| CleanupPlan.CandidatesAreDisposable | packages/cli/src/cleanup-plan.ts:114-142 | the candidates are exactly the disposable items, each with its evidence |
| CleanupPlan.PlanPartitionsInventory | packages/cli/src/cleanup-plan.ts:114-142 | candidates and preserved items together hold every inventory item exactly once |
| CleanupPlan.CandidatesDistinct | packages/cli/src/cleanup-plan.ts:394-404 | no candidate is listed twice |
| CleanupPlan.PickPartitions | packages/cli/src/cleanup-plan.ts:357-385 | removed, preserved and failed partition the reviewed candidates |
| CleanupPlan.Inventoried.Execute | packages/cli/src/cleanup-plan.ts:357-392 | against a world that changes between any two calls: the exact sequence of inventories and removals; every removal directly follows an inventory in which the reviewed candidate has the same evidence, no candidate is removed twice, and the three lists are the outcomes in reviewed order |
| Backups.UnpausedIsRestored | packages/cli/src/backups.ts:364-403 | unpausing the recorded targets that are paused, from any partly paused state, restores the runtime as it was |
| Backups.NoneMeansRestored | packages/cli/src/backups.ts:364-403 | if none of them is paused the runtime is already as it was |
| Backups.NotRunningIsUntouched | packages/cli/src/backups.ts:461-558 | in every state a backup can leave, a container that was not running before it is exactly as it was; `CreateBackup` ensures it at every exit |
| Backups.AllPaused | packages/cli/src/backups.ts:461-558 | a successful pause of the recorded identities pauses every recorded target |
| Backups.Host.ResumeTargets | packages/cli/src/backups.ts:364-403 | success means that every container is as before the backup; without faults it succeeds from every state the operation leaves |
| Backups.Host.Recover | packages/cli/src/backups.ts:425-459 | success means no journal, no staging and the runtime as before; the journal goes only then; without faults it succeeds from every crash point |
| Backups.Host.PauseTargets | packages/cli/src/backups.ts:461-558 | pausing keeps the state recoverable even when only some targets were paused |
| Backups.Host.Capture | packages/cli/src/backups.ts:461-558 | between journal and publication every exit is recoverable, publishes at most this backup and publishes it whole |
| Backups.Host.Finish | packages/cli/src/backups.ts:461-558 | sealing, manifest and publication: a published directory holds one archive of the whole home, matching its checksum and labelled as asked |
| Backups.Host.CreateBackup | packages/cli/src/backups.ts:461-558 | whatever happens, earlier backups and containers that were not running are untouched and the new backup is whole or absent; without faults it succeeds if and only if the flags and the observed runtime allow it, and otherwise publishes nothing |
| Backups.Host.RecoverEventually | packages/cli/src/backups.ts:425-459 | after any number of cut recoveries one that is not cut leaves no journal, no staging and the runtime exactly as before the backup |
| BackupEncryption.MaskedTwice | packages/cli/src/backups.ts:113-178 | the inverse law of the abstract counter mode |
| BackupEncryption.SealedParts | packages/cli/src/backups.ts:113-142 | a container is magic, salt, iv, ciphertext and tag, 52 bytes longer than its plaintext, each at its offset |
| BackupEncryption.OpensIffSealed | packages/cli/src/backups.ts:144-178 | a file opens to a plaintext if and only if it is a sealing of it, under some salt and iv |
| BackupEncryption.WriteAll | packages/cli/src/backups.ts:180-187 | everything is appended whatever the pattern of short writes; it fails only when a write makes no progress |
| BackupEncryption.ReadAll | packages/cli/src/backups.ts:189-196 | the whole range is read whatever the pattern of short reads |
| BackupEncryption.Pump | packages/cli/src/backups.ts:113-178 | the chunked loop writes the cipher of the whole range, independent of where chunks end |
| BackupEncryption.EncryptBackupFile | packages/cli/src/backups.ts:113-142 | success leaves exactly the sealed container of the source; it fails only without progress |
| BackupEncryption.DecryptBackupFile | packages/cli/src/backups.ts:144-178 | success if and only if the file is a valid container, and then the output is its plaintext |
| BackupEncryption.RoundTrip | packages/cli/src/backups.ts:113-178 | decrypting what encryption wrote yields the plaintext, for every plaintext and every pattern of short reads and writes |
| LifecycleOperations.CommandStaysUnderway | packages/cli/src/lifecycle-operations.ts:81-132 | a Docker command applied to any part of its list leaves a group still recorded, at its goal, or stopped half way through a restart |
| LifecycleOperations.CommandReaches | packages/cli/src/lifecycle-operations.ts:81-132 | stopping or restarting all recorded identities reaches the goal from any partial state |
| LifecycleOperations.StartReaches | packages/cli/src/lifecycle-operations.ts:423-441 | unpausing what is paused and then starting what is stopped runs every retained container |
| LifecycleOperations.CompleteObservation | packages/cli/src/docker.ts:2293-2329 | a group observed complete has every expected container, all in the observed status |
| LifecycleOperations.Computer.ClearJournal | packages/cli/src/lifecycle-operations.ts:386-392 | the journal may be cleared only while the complete group is in the desired state with the recorded or pinned containers |
| LifecycleOperations.Computer.Command | packages/cli/src/lifecycle-operations.ts:81-132 | a command may name only identities of the journal and may be applied to a part of them; a restart may be cut between its stop and its start |
| LifecycleOperations.Computer.StartRetained | packages/cli/src/lifecycle-operations.ts:423-441 | from every reachable partial state the retained group is brought to running |
| LifecycleOperations.Computer.AssertRecovered | packages/cli/src/lifecycle-operations.ts:443-461 | passes exactly in the desired state |
| LifecycleOperations.Computer.UnpinnedStartNeverEnds | packages/cli/src/lifecycle-operations.ts:443-461 | an absent start of an unpinned image never passes the last check, whatever runtime is observed |
| LifecycleOperations.Computer.Recover | packages/cli/src/lifecycle-operations.ts:81-132 | the journal is kept or is gone with the desired state observed; without faults recovery succeeds if and only if the runtime was retained or the image is pinned |
| LifecycleOperations.Computer.RecoverRetained | packages/cli/src/lifecycle-operations.ts:394-406 | from every crash state of an operation on retained containers recovery reaches the desired state |
| LifecycleOperations.Computer.RecoverAbsent | packages/cli/src/lifecycle-operations.ts:408-421 | a partly created group is completed if and only if the configured image is pinned |
| LifecycleOperations.Computer.StartComputer | packages/cli/src/lifecycle-operations.ts:134-174 | refused with nothing changed while a journal is pending; success means a complete running group and no journal; without faults it succeeds exactly on a safe group, or an absent one with pinned bytes |
| LifecycleOperations.Computer.Begin | packages/cli/src/lifecycle-operations.ts:272-295 | the journal records exactly the observed containers, and is one that recovery accepts |
| LifecycleOperations.Computer.StopComputer | packages/cli/src/lifecycle-operations.ts:176-195 | success means a complete stopped group and no journal; without faults it succeeds exactly on a complete safe group |
| LifecycleOperations.Computer.RestartComputer | packages/cli/src/lifecycle-operations.ts:197-222 | success means a complete running group and no journal; without faults it succeeds exactly on a complete safe group |
| LifecycleOperations.Computer.RecoverEventually | packages/cli/src/lifecycle-operations.ts:81-132 | after any number of cut recoveries one that is not cut ends every retained operation and every pinned start |
| ContainerReplacement.BeginsTransitional | packages/cli/src/docker.ts:2710-2769 | the unchanged reviewed sources alone pass the transition check |
| ContainerReplacement.CheckAcceptsLeft | packages/cli/src/docker.ts:2725-2759 | of what a replacement may leave behind, the check accepts exactly the inventories where nothing was created yet or the created bytes are pinned |
| ContainerReplacement.UnpinnedCreationIsStuck | packages/cli/src/docker.ts:2748-2757 | a concrete inventory that a cut creation of an unpinned image leaves and every rerun refuses |
| ContainerReplacement.MixedTargetsAreRefused | packages/cli/src/docker.ts:2419-2456 | a concrete group of exact targets in two states that is refused when there are no reviewed sources |
| ContainerReplacement.IdsPartition | packages/cli/src/docker.ts:2710-2769 | the transition check splits the owned inventory into source and target identities, each container exactly once |
| ContainerReplacement.RemovalStaysTransitional | packages/cli/src/docker.ts:2419-2456 | removing any containers keeps an inventory that the check accepts |
| ContainerReplacement.ComposeReplaces | packages/cli/src/docker.ts:2373-2388 | creating the roles from any partial set of targets gives the complete replacement, which the check accepts |
| ContainerReplacement.Docker.InspectTransition | packages/cli/src/docker.ts:2710-2769 | without faults it succeeds if and only if every owned container is an unchanged reviewed source or an exact target, and returns the two groups |
| ContainerReplacement.Docker.RemoveSources | packages/cli/src/docker.ts:2419-2456 | only reviewed source identities are ever removed, at every exit; networks are untouched while any target exists; success leaves targets only; without faults it succeeds if and only if nothing was created yet or the created bytes are pinned |
| ContainerReplacement.Docker.RemoveNetworks | packages/cli/src/docker.ts:2458-2475 | reached only when no target exists; success removes both networks |
| ContainerReplacement.Docker.KeepUnbound | packages/cli/src/docker.ts:2419-2456 | without reviewed sources, on any inventory: nothing is removed but networks, and without faults it succeeds if and only if no expected name is taken and the containers are exact targets, incomplete or in one state |
| ContainerReplacement.Docker.Compose | packages/cli/src/docker.ts:2373-2388 | a cut creation leaves sources gone and containers of the configured bytes only; success is the complete replacement, with or without a pinned image |
| ContainerReplacement.Docker.Replace | packages/cli/src/docker.ts:2373-2388 | removal, creation and its observation together: every exit leaves unchanged sources and containers of the configured bytes only; without faults a rerun succeeds if and only if nothing was created yet, or the image is pinned and targets without sources are in one state; otherwise nothing is touched |
| ContainerReplacement.Docker.ReplaceEventually | packages/cli/src/docker.ts:2373-2456 | rerun after any number of cuts, replacement of reviewed sources by a pinned image converges to the targets only; it fails only in a state that no rerun can leave, and from such a state it changes nothing |
| LeaseBridge.StepKeepsInv | packages/cli/src/mcp.ts:134-171 | every step of any caller, promise or reply keeps single flight and the reply count of every call |
| LeaseBridge.StepKeepsAtMostOnce | packages/cli/src/mcp.ts:134-149 | with a truthful gateway every step keeps at most one effect per call |
| LeaseBridge.BridgeIsSafe | packages/cli/src/mcp.ts:134-171 | in every interleaving: one acquisition in flight, at most two posts per call, the second only after a retriable `not-started`, and the return behind the loop is unreachable |
| LeaseBridge.ToolRunsAtMostOnce | packages/cli/src/mcp.ts:134-149 | in every interleaving with a truthful gateway a call's tool takes effect at most once |
| LeaseBridge.OldReplyKeepsNewerLease | packages/cli/src/mcp.ts:145-148 | a reply clears the shared lease only if the lease still is the proof the call was sent with |
| LeaseBridge.UntruthfulReplyRetriesAnEffect | packages/cli/src/mcp.ts:134-149 | an untruthful `not-started` sends a call whose tool ran into its retry |
| LeaseBridge.UntruthfulReplyRunsTwice | packages/cli/src/mcp.ts:134-149 | a concrete run from the start in which one call takes effect twice: the assumption about the gateway is needed |
| LeaseBridge.TransparentLeaseBridge.EnsureLease | packages/cli/src/mcp.ts:158-171 | the method is the modelled step: it starts an acquisition only if none is in flight |
| LeaseBridge.TransparentLeaseBridge.OnAcquired | packages/cli/src/mcp.ts:160-166 | the `then` handler is the modelled step |
| LeaseBridge.TransparentLeaseBridge.OnSettled | packages/cli/src/mcp.ts:167-169 | the `finally` handler is the modelled step |
| LeaseBridge.TransparentLeaseBridge.OnReply | packages/cli/src/mcp.ts:140-156 | the stretch after a reply is the modelled step; it retries exactly after a first retriable `not-started`, and releases only the lease it held |
| AuditLog.LinesOfText | packages/cli/src/audit-log.ts:23-26 | lines written by a prune are read back unchanged |
| AuditLog.RewrittenIsRenumbered | packages/cli/src/audit-log.ts:92-95 | the rewritten files hold the retained records, renumbered within their file, each exactly once |
| AuditLog.RenumberedKeepsOrder | packages/cli/src/audit-log.ts:35 | renumbering keeps the merge order, for any timestamps and with equal ones |
| AuditLog.RewrittenMerges | packages/cli/src/audit-log.ts:29-36 | merging the rewritten files gives the retained records in their order |
| AuditLog.PruneIsSuffix | packages/cli/src/audit-log.ts:87-95 | the lines merged after a prune are the last `keep` lines merged before |
| AuditLog.AuditFiles.Prune | packages/cli/src/audit-log.ts:87-95 | the pruning loop leaves files whose merged stream is exactly the last `keep` records of the old one |
| Jsonc.StripPreservesLayout | packages/cli/src/devcontainer.ts:30-40 | the comment pass keeps the length and every newline position, and keeps or blanks each character |
| Jsonc.StripIdempotent | packages/cli/src/devcontainer.ts:30-40 | it is idempotent |
| Jsonc.StripKeepsLiterals | packages/cli/src/devcontainer.ts:30-40 | the string literals of its result are those outside comments of its source |
| Jsonc.KeptKeepsLiterals | packages/cli/src/devcontainer.ts:41-59 | the comma pass keeps every string literal |
| Jsonc.StripComments | packages/cli/src/devcontainer.ts:30-40 | the index loop computes the specified blanking |
| Jsonc.DropTrailingCommas | packages/cli/src/devcontainer.ts:41-59 | the index loop drops exactly the commas outside strings whose next non-blank character closes an object or array |
| Jsonc.ParseJsonc | packages/cli/src/devcontainer.ts:29-60 | from source to normalized text the sequence of string literals is preserved |
| BrowserProfile.DecodeLinuxMountPath | packages/cli/src/browser-profile.ts:1104-1123 | the index loop decodes the four octal escapes and refuses any other backslash |
| BrowserProfile.MangledDecodes | packages/cli/src/browser-profile.ts:1104-1123 | every path escaped as the kernel does decodes to itself |
| BrowserProfile.DecodesIffMangled | packages/cli/src/browser-profile.ts:1104-1123 | a field without separators decodes to a path if and only if it is that path escaped |
| BrowserProfile.AtOrBelowIffComponents | packages/cli/src/browser-profile.ts:1136-1138 | on normalized absolute paths the textual test is the component prefix, with its exact behaviour for a root with trailing slash |
| BrowserProfile.TrailingSlashHidesChildren | packages/cli/src/browser-profile.ts:1136-1138 | a concrete pair of paths on which the slash matters |
| BrowserProfile.FileSystem.RemoveContents | packages/cli/src/browser-profile.ts:787-811 | only entries inside the directory go, everything at or below a directory of another device stays, success empties it, and without faults failure has exactly these causes; it terminates |
| BrowserProfile.FileSystem.RemoveChild | packages/cli/src/browser-profile.ts:787-811 | one directory child: emptied and removed, or stopped with the same guarantees |
| BrowserProfile.FileSystem.RemoveProfile | packages/cli/src/browser-profile.ts:348-384 | success removes exactly the profile's subtree and follows no link; nothing is touched when a mount lies at or below it; without faults it succeeds if and only if the profile is removable |
| PtyFraming.FrameContinues | images/computer/pty-helper.py:98-125 | framing may be resumed from its lines and buffer at any cut of the stream |
| PtyFraming.FrameLinesBounded | images/computer/pty-helper.py:98-125 | no handled line is longer than 262144 bytes or holds a newline |
| PtyFraming.FrameDecomposes | images/computer/pty-helper.py:98-125 | the stream is the handled lines, each ended by a newline, then either the oversized segment or the unfinished rest |
| PtyFraming.Helper.OnInput | images/computer/pty-helper.py:98-125 | after each chunk the handled lines, errors and buffer are those of all bytes received so far |
| PtyFraming.Serve | images/computer/pty-helper.py:98-125 | for every chunking of the same bytes the same lines are handled in order, with at most one oversized error |
| PtyFraming.Terminal.WriteAll | images/computer/pty-helper.py:33-39 | everything is written in order or a prefix of it; it fails only when a write makes no progress |
| ImageAcquisition.ConsumersListed | packages/cli/src/image-acquisition.ts:38-106 | a consumer is listed under an exact target, once, if and only if some given target names it so |
| ImageAcquisition.EstimateIgnoresOrder | packages/cli/src/image-acquisition.ts:38-106 | the estimate, including whether it fails, is the same for any order of the targets |
| ImageAcquisition.TotalIsBoundedSum | packages/cli/src/image-acquisition.ts:108-121 | a total is unknown exactly when a value is; otherwise it is the sum, refused exactly above 2^53-1 although every partial sum is checked |
| ImageAcquisition.ValuesAreOfMissingTargets | packages/cli/src/image-acquisition.ts:38-106 | the summed values are those of the distinct missing targets |
| ImageAcquisition.EstimateTotals | packages/cli/src/image-acquisition.ts:38-115 | acceptable targets fail to be estimated exactly when a sum over distinct missing targets is too large; each total is null iff such a size is unknown |
| ImageAcquisition.Deduplicate | packages/cli/src/image-acquisition.ts:38-80 | the collecting loop refuses exactly invalid or contradictory targets and gathers every consumer and request of each reference |
| ImageAcquisition.ComputeTotal | packages/cli/src/image-acquisition.ts:108-115 | the reduction computes the bounded total |
| ImageAcquisition.EstimateImageAcquisition | packages/cli/src/image-acquisition.ts:38-106 | the whole computation is the order-independent estimate above |

## Left out

Assumptions about the environment:

- In the theorems about whole runs, obtaining an absent image of a row that reads `current` brings its recorded bytes; `UpgradeSteps.ObtainingAdmittedIffRecordedBytes` says exactly what happens otherwise.
- UpgradeRun.Machine.RecoverEventually: does not finish where a recorded recipe base names other bytes, which acquisition refuses as the source intends (`UpgradeRun.Machine.AcquireTargets`, exact condition).
- UpgradeRun.Machine.PrepareUpgradeSoftware: the tag of a software build is taken to be configured for its own computer only, and to be no catalog target; the bytes of a build are arbitrary.
- A state transaction is a roll-forward commit: journalled first, its configuration written whole, its runtime replaced only for its own subject. The insides of `transactions.ts` and `state.ts` are not part of this model.
- Removal, pause, start and stop of one container are atomic; a restart may be cut between its stop and its start, a command over several anywhere, a creation by Compose after any part.
- While a backup runs nobody else changes the computer's containers; before a lifecycle operation has its journal anybody may.
- Configuration parsing returns valid configurations unchanged, and a string is a sequence of code units.

Narrower than the source:

- StableJson.StableIdentifies: numbers are safe integers, because no digested document holds another kind; the text of fractions and exponents is not modelled.
- UpgradeSteps.QuietIffRecordedBytes: an image inspection that fails, which the source counts as drift, is not modelled.
- ToolPolicy.UpgradeKeepsRequired: that the names of a policy are unique is not carried through an upgrade; it is a property of the fixed tool lists.
- UpgradePlan.BuildUpgradeAllPlan: the size estimate is the subject of `ImageAcquisition`; capacity, exposure and preview-access checks, development catalog tags and failing drift inspections only end planning or execution before the first mutation and are left out.
- CleanupPlan.DecisionIgnoresOrder: explanations are represented by their reason and the status they quote, not by their wording.
- AuditLog.PruneIsSuffix: for files of fewer than 10^9 lines, the stride between the sequence numbers of two files.
- AuditLog.AuditFiles.Prune: a prune that is cut between two files is not modelled; the source does not make it recoverable. The order of timestamps is any total preorder in place of a locale's.
- BackupEncryption.DecryptBackupFile: the cipher is any stream with an inverse and any tag; that a wrong tag is noticed only after plaintext was written is part of the model, AES, scrypt and file permissions are not.
- PtyFraming.Helper.OnInput: requests are framed, not interpreted; the lines behind a closing request in the same input are still handled, as in the source. The output and wait loop is left out.
- BrowserProfile.FileSystem.RemoveProfile: the tree does not change meanwhile; the mount table is given as paths, of which only the escapes are parsed. Inspection of profiles is left out.
- LeaseBridge.BridgeIsSafe: nothing is claimed about a lease that leaks when a release races an acquisition in flight.
- Jsonc.DropTrailingCommas: `JSON.parse` of the result is not modelled, and the comma pass is not claimed to be idempotent.

Not modelled, because it would only add easy members:

- Backup pruning, restoring and verification, passphrase files, and the inspection of archive contents.
- Runtime migrations, whose steps depend on per-version code.
- Command dispatch, help, prompts, doctor checks, client snippets, gateway exposure commands, Git and devcontainer plumbing beyond JSONC.
- Networking, certificates, health checks and policy synchronisation, which are effects that succeed or fail.
