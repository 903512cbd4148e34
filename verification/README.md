# Verified models of the ZTF orchestrator's guarded state machines

The orchestrator drives actions that cannot be taken back: it deploys clusters, changes
administrator passwords, replaces its own container image, deletes storage containers. Its code
is written so that a crash, a late answer or a second operator never makes it do such a thing
twice, or on uncertain ground. This project models the parts that carry that promise and proves it.

| part | files | form |
|---|---|---|
| Recovery runs | `Recovery*.dfy` | transition system over requests, threads and crashes; the class `RecoveryService` refines it section by section and is driven through whole histories |
| Appliance update worker | `Update*.dfy` | transition system over assignments, saves, host operations, heartbeats and crashes; the class `UpdateService` runs `install`, `rollback`, `process` and the start of the service on it |
| Request spool | `Spool*.dfy` | timed transition system of many writers and one service; the class `SpoolDirectory` |
| Operations store | `Operations*.dfy` | specification functions, histories, and the class `OperationsService` |
| Storage executor | `Storage*.dfy` | class `Client` against an unconstrained server, every call in a ghost trace |
| Credential rotation | `CredentialRotation.dfy` | methods against unconstrained targets, every call in a ghost trace |
| Foundation payload | `FoundationIdentity.dfy`, `FoundationIntent.dfy`, `FoundationPayload.dfy`, `FoundationSoundness.dfy`, `FoundationExample.dfy` | validating and building loops, what an empty error list implies, and an accepted example |
| Foundation telemetry | `FoundationProgress.dfy`, `FoundationNormalize.dfy`, `FoundationCompletion.dfy` | the roll-up loops against functions, and what completion rests on |

`Prelude.dfy` and `Text.dfy` hold what the parts share. `dafny verify dfyconfig.toml` checks
everything.

How the models speak of time and failure: a *history* is a sequence of actions; answers of other
systems are parameters of the actions, or arbitrary values in the methods, so a statement about
every history or every run is a statement about every behaviour of the environment. A section that
the code runs under its lock is one action. Where it writes or submits half way, the lock stays
held between two actions, so that a crash can fall in between; a crash keeps what was stored and
drops threads, collections and locks. Traces record what left the service (submissions, container
stops and starts, HTTP calls) and what was started or recorded on the way.

## Where the code does less than one would expect

Each of these is proved, with the exact condition where there is one.

* **Two threads of one run.** A configuration thread compares only the status name when it wakes
  (`disaster_recovery.py:788`). Stopped, resumed and started again inside one poll, a run has two
  live threads, both record the same step, and the run can be accepted although its last step was
  never submitted (`AcceptedWithoutItsSecondStep` is a whole such history). With one live thread
  at a time the records are a prefix of the snapshot; with any number of threads they are in order
  if and only if every recording found its step to be the next one, under a new job
  (`RecordsInOrderIff`). Password changes are submitted once in any case.
* **Lost jobs.** The id of a job is stored after its submission. With one live thread per run two
  jobs of a run can be unfinished at once only if one of them is lost
  (`TwoUnfinishedJobsMeanALostOne`), and reconciliation sees every unfinished job if and only if
  none is lost (`ReconcileSeesAllButLostJobs`). A job gets lost exactly when the process dies
  between the submission and the save, or when a submission is rejected after a job was queued
  (`LostIff`); after such a crash the same step can be submitted beside the lost job
  (`CrashBeforeSaveLeavesTwoJobs`).
* **Reads from before a reconciliation.** Stop and resume keep the collection mark, and the end of
  a collection does not ask whether the run was reconciled since (`CollectionCountsIff`). So health
  evidence can rest on reads taken before the last reconciliation, although a resume asks for fresh
  health; `ReadsOutliveReconciliationIff` says exactly when.
* **Stale rollback record.** The update worker never clears its rollback record. An install that
  is interrupted while it rechecks readiness is "restored" at the next start to the image an
  earlier install recorded (`RestartRestoresAnEarlierInstallsImage`). Wherever the process died,
  what a restart restores is the interrupted operation's own record if and only if something was
  written to disk after that record was taken (`CrashPointDecidesTheRestore`). Between the record
  and the save that announces the stop this is up to the heartbeat (`CrashPointsOfAnInstall`,
  `HeartbeatDecides`).
* **The 60-second lock.** A published request is safe in every history if and only if the time a
  writer takes to publish and the time the service takes between its two looks add up to at most
  60 seconds (`NeverOverwrittenIff`); keeping only the writer under 60 seconds is not enough.
* **UUID spelling.** The storage executor compares raw texts of virtual disk inventories and rows.
  The dependency check means what it stands for if and only if the server spells UUIDs canonically
  (`DependencyCheckSoundIff`), and an approved default in another spelling is never found
  (`ApprovedTargetFoundIff`).
* **Padding.** The Foundation validator strips white space that the builder does not. Members equal
  the counted CVMs if and only if no compute-only role is padded (`MembersAreCountedIff`). The CVM
  address of a node with a padded role is compared with the subnet but with no other address, and
  becomes a member: `PaddedComputeBecomesMember` is an accepted intent whose member list names one
  address twice. The
  builder raises a key error if and only if platform or LAG type is padded (`TablesFindIff`); concrete
  inputs are in `FoundationExample.dfy`.
* **Unnamed clusters.** Where expected clusters have no names of their own, telemetry completes
  cluster formation by counting records (`UnnamedFormationIff`, `UnnamedClustersAreOnlyCounted`).

## Model

| member | source | states |
|---|---|---|
| RecoveryIntent.CountBootstrap | disaster_recovery.py:141-153 | The counting loop returns the length of the longest prefix of steps that may precede the health gate: every counted step is a bootstrap step, at most one changes the password, and no longer prefix qualifies |
| RecoveryIntent.BootstrapPasswordTestsAgree | disaster_recovery.py:111-153 | For a bootstrap step the password test used while counting and the one that refuses a resume agree |
| RecoveryOwnership.ActiveRunsOwnDisjointHardware | disaster_recovery.py:510-563 | In every reachable state two active runs have different Foundation endpoints and no node in common, for any number of runs |
| RecoveryOwnership.DecideIsOrderly | disaster_recovery.py:527-926 | Every request or thread step keeps a run's snapshot, never returns it to prepared, and makes an inactive run active only by a deployment that passed the guard |
| RecoverySubmissions.DeploymentSubmittedAtMostOnce | disaster_recovery.py:527-563 | Over every history with crashes a run submits its Foundation deployment at most once |
| RecoverySubmissions.PasswordStepSubmittedAtMostOnce | disaster_recovery.py:739-804 | Over every history, however many threads live, no snapshot step that changes the PE administrator password is submitted twice |
| RecoverySubmissions.RunsNeverGoBack | disaster_recovery.py:844-926 | Between any two moments of a history a run keeps its snapshot, does not return to prepared, and stays accepted or closed once it is |
| RecoveryEvidence.EvidenceMatchesStatus | disaster_recovery.py:565-597 | A run past the health gate holds evidence for its own deployment, a run before the gate holds none; stored evidence is exactly the one recorded last and withdrawn by no collection or reconciliation since; every record stands for a job that succeeded with the configuration of the step it names |
| RecoveryPrefix.RecordsAreAPrefix | disaster_recovery.py:739-842 | With one live thread per run, the k-th record has index k, the k-th step's workflow and digest, and a job of its own that succeeded with exactly the k-th step's configuration and was no dry run, submitted or linked |
| RecoveryPrefix.BootstrapIsCompleteAtTheGate | disaster_recovery.py:588-662 | With one live thread per run, a run at or past the health gate has its whole bootstrap prefix recorded |
| RecoveryPrefix.AcceptedRunsAreComplete | disaster_recovery.py:844-853 | With one live thread per run, an accepted run was deployed by a successful Foundation job with the run's own reviewed content, and every snapshot step was run by a successful job of its own with exactly the reviewed configuration, no dry run |
| RecoveryPrefix.ConfigurationFollowsEvidence | disaster_recovery.py:715-778 | With one live thread per run, a step past the bootstrap prefix is submitted only while health evidence stands that no later collection or reconciliation withdrew |
| RecoveryPrefix.RecordKeepsOrderIff | disaster_recovery.py:785-793 | Any one change keeps the records in order if and only if a thread that records with it finds its index to be the next one, under a new job |
| RecoveryPrefix.RecordsInOrderIff | disaster_recovery.py:739-842 | In any history, with any number of threads, the records of a run are an in-order prefix if and only if every recording of it found the next index and a new job |
| RecoveryGrounds.StepsNeedFreshEvidence | disaster_recovery.py:709-778 | In every history what a thread submits is the reviewed configuration and no dry run; a step that is no bootstrap step, or from a configuration thread, is submitted while evidence stands, by a thread started at most 15 minutes after evidence that stood then |
| RecoveryGrounds.RestrictedStepsAreApproved | disaster_recovery.py:639-769 | In every history a step that policy bars is submitted only by a bootstrap thread, as a bootstrap step, under a verified approval that the last bootstrap start granted to this step and no other |
| RecoveryGrounds.LinkedJobsAreVerified | disaster_recovery.py:806-842 | In every history a linked job ran the step's configuration, no dry run, approved where policy bars the step, and was submitted within 15 minutes after evidence that still stands |
| RecoveryGrounds.ThreadsActOnTheirOwnStart | disaster_recovery.py:715-778 | With one live thread per run, a step past the bootstrap prefix is submitted only by a configuration thread, unrestricted, started on fresh evidence, and a bootstrap thread uses the approvals of its own start |
| RecoveryGrounds.EvidenceIsFromTheLastReads | disaster_recovery.py:664-700 | In every history evidence that comes from a collection comes from the one started last for its run |
| RecoveryGrounds.CollectionCountsIff | disaster_recovery.py:686-700 | A passed collection records evidence if and only if it is the last one started for its run and the run awaits health |
| RecoveryGrounds.ReadsOutliveReconciliationIff | disaster_recovery.py:854-926 | Stopped and resumed during its reads, a run takes their result as evidence if and only if the stop left its jobs idle, the resume was allowed and the bootstrap was recorded |
| RecoveryJobs.TwoUnfinishedJobsMeanALostOne | disaster_recovery.py:771-778 | With one live thread per run, of two unfinished jobs of one run at least one is lost: queued for the run and named by no stored record |
| RecoveryJobs.ClosedRunsLeaveOnlyLostJobs | disaster_recovery.py:844-912 | With one live thread per run, a run that was accepted or closed has no unfinished job that is not lost |
| RecoveryJobs.ReconcileSeesAllButLostJobs | disaster_recovery.py:854-860 | With one live thread per run, the two stored jobs are idle if and only if every unfinished job of the run is lost |
| RecoveryJobs.LostIff | disaster_recovery.py:545-776 | In any history a job is lost if and only if the process died between its submission and the save of its id, or its submission was rejected after it was queued |
| RecoveryJobs.CrashBeforeSaveLeavesTwoJobs | disaster_recovery.py:775-778 | After a crash between submission and save a resumable run is resumed, verified, started and submits the same step beside the lost job |
| RecoveryTwoThreads.RestartInsideOnePollLeavesTwoThreads | disaster_recovery.py:867-882 | Stop, reconcile with resume, verify and start, inside one poll of a thread, leave the run with two live threads |
| RecoveryTwoThreads.BothThreadsRecordOneStep | disaster_recovery.py:785-793 | Two threads that both saw a step succeed record it twice, and the records are no prefix any more |
| RecoveryTwoThreads.TwoThreadsAcceptAnUnrunStep | disaster_recovery.py:748-754 | When that was the last step but one, the run goes on to be accepted without another submission |
| RecoveryUnrunStep.AcceptedWithoutItsSecondStep | disaster_recovery.py:739-890 | A concrete history from the empty service ends in an accepted run whose second step was never submitted |
| RecoveryLifecycle.RunsKeepTheirProfile | disaster_recovery.py:227-295 | In every reachable state each run's profile exists, and an open run's snapshot is the current last revision of a profile that is not archived |
| RecoveryLifecycle.BaselinesAreAppendOnly | disaster_recovery.py:352-418 | From any moment on, as long as a profile is not deleted, its revisions only grow and keep their captured content |
| RecoveryLifecycle.UsedBaselinesAreAppendOnly | disaster_recovery.py:352-439 | Once a profile has a run it is never deleted and its revisions only grow and keep their captured content, to the end of any history |
| RecoveryServiceModel.RecoveryService.constructor | disaster_recovery.py:157-171 | A new process is the crash transition of the old one: stored runs whose outcome is uncertain need reconciliation |
| RecoveryServiceModel.RecoveryService.Refreshed | disaster_recovery.py:206-217 | Reading a run settles a finished deployment as the specification says |
| RecoveryServiceModel.RecoveryService.BootstrapComplete | disaster_recovery.py:588-598 | The checking loop answers whether the first steps are recorded in order with existing successful jobs of their workflow |
| RecoveryServiceModel.RecoveryService.FoundationGuard | disaster_recovery.py:510-525 | The guard loops allow a deployment exactly if no other active run and no unfinished Foundation job conflicts with it |
| RecoveryServiceModel.RecoveryService.Deploy | disaster_recovery.py:527-563 | A deployment is the three transitions intent, submission, outcome, in order, or no change; it submits once |
| RecoveryServiceModel.RecoveryService.AttestHealth | disaster_recovery.py:565-586 | Equals the transition that records evidence, or refuses without change |
| RecoveryServiceModel.RecoveryService.CollectBegin | disaster_recovery.py:664-680 | The locked section before the unlocked PE reads: old evidence is dropped and a new collection marked |
| RecoveryServiceModel.RecoveryService.ApprovalsComplete | disaster_recovery.py:639-651 | The approval loop accepts exactly distinct approvals of pending bootstrap steps that cover every step that needs one |
| RecoveryServiceModel.RecoveryService.StartBootstrap | disaster_recovery.py:618-662 | Equals the bootstrap transition, or refuses without change |
| RecoveryServiceModel.RecoveryService.StartConfiguration | disaster_recovery.py:709-737 | Equals the configuration transition, with evidence at most 15 minutes old, or refuses without change |
| RecoveryServiceModel.RecoveryService.ConfigureStep | disaster_recovery.py:742-778 | One pass of the thread up to its wait equals the submitting transition followed by the saving one |
| RecoveryServiceModel.RecoveryService.Accept | disaster_recovery.py:848-853 | Equals the acceptance transition: all steps recorded and all jobs still successful |
| RecoveryServiceModel.RecoveryService.Reconcile | disaster_recovery.py:854-890 | Equals the reconciling transition: closes, or resumes only without a pending password change |
| RecoveryServiceModel.RecoveryService.Serve | disaster_recovery.py:157-926 | Any number of requests, thread turns, crashes and moves of the environment: the object is where its history leads; active runs own disjoint hardware, a run is deployed once, no password change is submitted twice, evidence and records are what they claim, and every event has its ground |
| UpdateSafety.UnlockedMeansSettled | appliance/update_service.py:410-493 | In every history, while maintenance is off in memory or on disk, no container was stopped or started since the last verification and the document does not say that it may be stopped |
| UpdateSafety.OnlyRollbackAfterTarget | appliance/update_service.py:466-493 | From the start of a target until a verification only a rollback starts an image |
| UpdateRecords.StartsAreJustified | appliance/update_service.py:403-493 | In every history a target starts only after its install recorded the running image, a failed install restores exactly what it recorded, a rollback was approved, and each verification follows the start it belongs to |
| UpdateRecords.EffectsAreAnnounced | appliance/update_service.py:443-460 | Whenever a step stops the application the lock, the flag and the record this install took are durable; whenever one starts the target, lock, record and targetStarted are durable for that install |
| UpdateRecords.RestartRestoresTheRecord | appliance/update_service.py:94-106 | A restart starts the retained record; with the durable flag applicationMayBeStopped it is the interrupted install's own |
| UpdateCrashPoint.CrashPointDecidesTheRestore | appliance/update_service.py:94-106 | At every point of every history: the record a restart restores is the interrupted operation's own if and only if a save or heartbeat wrote to disk after that record was taken |
| UpdateCrashPoint.CrashPointsOfAnInstall | appliance/update_service.py:416-460 | Such a write never precedes the record, always precedes the stop, and in between has happened exactly if anything was written since the record |
| UpdateCrashPoint.HeartbeatDecides | appliance/update_service.py:548-553 | From the same point between record and stop, a death before the next heartbeat restores another record and a death after it the install's own |
| UpdateStaleRecord.InstallSucceeds | appliance/update_service.py:410-465 | With good answers an install ends unlocked, verified, with the previous image retained |
| UpdateStaleRecord.InterruptedReadinessRestoresOldRecord | appliance/update_service.py:416-425 | From any idle unlocked worker with a record, an install interrupted in its readiness checks makes the restart start that record's image |
| UpdateStaleRecord.RestartRestoresAnEarlierInstallsImage | appliance/update_service.py:94-106 | A concrete history in which a restart starts an image the interrupted install never recorded |
| UpdateOnce.RequestsAndPlansRunOnce | appliance/update_service.py:495-512 | Over every history each request's body runs at most once and each readiness plan stops the application at most once |
| UpdateServiceModel.UpdateService.Event | appliance/update_service.py:118-131 | A save stores status, state and report in this order, and can raise or die in between |
| UpdateServiceModel.UpdateService.CutOver | appliance/update_service.py:446-465 | From the stop to the verified target: on return the lock is off and durable, on an exception the handler is next |
| UpdateServiceModel.UpdateService.Recover | appliance/update_service.py:466-473 | The handler restores the recorded image without a started target, and changes nothing with one |
| UpdateServiceModel.UpdateService.Install | appliance/update_service.py:410-475 | The whole install is a history of the transition system; it returns only approved, unlocked and saved |
| UpdateServiceModel.UpdateService.RollBack | appliance/update_service.py:477-493 | The whole rollback is such a history; it returns only approved and unlocked |
| UpdateServiceModel.UpdateService.Process | appliance/update_service.py:495-530 | A request with a report, or refused under maintenance, changes nothing; any other is a history that ends idle or dead |
| UpdateServiceModel.UpdateService.Start | appliance/update_service.py:81-106 | The start of the service is such a history |
| UpdateServiceModel.UpdateService.Serve | appliance/update_service.py:548-580 | Any number of requests with deaths and restarts: unlocked means settled, nothing ran twice, every start is accounted for |
| Spool.NeverOverwrittenIff | appliance_updates.py:55-77 | In every history of writers, service and crashes requests are published and taken in strict alternation, if and only if publishing time and service window add up to at most 60 seconds |
| Spool.OneWriterAtATime | appliance_updates.py:61-65 | Within that limit at most one writer in time is between its lock and its request |
| Spool.SlowServiceOverwrites | appliance/update_service.py:576-579 | Beyond it, a history in which a published request is overwritten |
| SpoolDirectoryModel.SpoolDirectory.Submit | appliance_updates.py:61-77 | One writer, with steps of the others in between: refused without change while a lock exists, otherwise the request is in place or the writer has left |
| SpoolDirectoryModel.SpoolDirectory.Turn | appliance/update_service.py:555-580 | One turn of the service loop takes the request that lies there and removes its lock |
| OperationsHistory.RecordsStaySound | cluster_operations.py:208-265 | In every history ids, endpoints and nonempty UUIDs are unique, and every stored observation was collected for the baseline its row has now, however edits and collections overlap |
| OperationsRecords.EditKeepsSound | cluster_operations.py:222-238 | An edit that passes the checks keeps identifiers unique and observations matched |
| OperationsRecords.ReadingKeepsSound | cluster_operations.py:254-262 | Storing a reading changes no other row, no other field and no order; the store stays sound if and only if the row still has the baseline the reading was collected for |
| OperationsHistory.AcceptedEditSawTheStore | cluster_operations.py:222-223 | No lost update: an accepted edit or review is applied to exactly the records its revision was read from |
| OperationsHistory.RevisionOnlyGrows | cluster_operations.py:204-206 | The revision never falls, and equal revisions mean equal records |
| OperationsHistory.ReviewsSurvive | cluster_operations.py:267-345 | No step removes an attention item; only a decision on it changes its reviews, and appends one |
| OperationsHistory.RepeatedSummaryIsQuiet | cluster_operations.py:267-322 | With unique job and run ids a repeated summary changes nothing, in every history |
| OperationsAttention.ReviewsAreKept | cluster_operations.py:295-309 | A summary keeps every item with its reviews, owner and notes, and changes a status only to open |
| OperationsAttention.ReopenedOnlyByNewVersion | cluster_operations.py:301-305 | While all sources of an item carry the version it was reviewed for, its status stays |
| OperationsAttention.OthersUntouched | cluster_operations.py:295-309 | Items that no source names are neither added, removed nor changed by a summary |
| OperationsAttention.SummaryIdempotentIff | cluster_operations.py:295-311 | A second pass over the same sources changes nothing if and only if sources with one id agree |
| OperationsAttention.QuietIffGoodAndFresh | cluster_operations.py:44-61 | An observation asks for no review exactly if it is good, completed and at most 900 seconds old |
| OperationsServiceModel.OperationsService.SaveRecord | cluster_operations.py:208-240 | Equals the edit step; the outcome is the first refusal in the order of the checks |
| OperationsServiceModel.OperationsService.BeginObserve | cluster_operations.py:242-251 | Equals the step that remembers the row and marks it as collecting |
| OperationsServiceModel.OperationsService.EndObserve | cluster_operations.py:254-265 | Stores the reading exactly if the row is still the one it was collected for |
| OperationsServiceModel.OperationsService.Summary | cluster_operations.py:267-312 | The loops compute the folded list; it is stored exactly if it changed and may be written |
| OperationsServiceModel.OperationsService.Review | cluster_operations.py:324-345 | Equals the decision step, with the last hundred reviews kept |
| OperationsServiceModel.OperationsService.Serve | cluster_operations.py:208-345 | Any number of requests and restarts with collections in between: records stay unique, observations match their baselines, the revision never falls and the same revision means the same store |
| StorageExecutor.Client.Execute | cluster_storage_standard.py:207-267 | Against any server every write is justified by the calls before it, and a report is proved by the last inventory |
| StorageExecutor.WritesHappenOnce | cluster_storage_standard.py:228-256 | At most one removal, nothing written after it, and at most one creation per name |
| StorageExecutor.RemovalTargetsApprovedDefault | cluster_storage_standard.py:245-255 | A removal names the approved default, the only default container of the inventory before it |
| StorageExecutor.VerifyReplacements | cluster_storage_standard.py:186-196 | The checking loops accept exactly if each replacement appears once with all its settings |
| StorageIntent.DiscoveredIsUnique | cluster_storage_standard.py:172-183 | In an accepted inventory the discovered default is the only default row, under its name and UUID |
| StorageIntent.DependencyCheckSoundIff | cluster_storage_standard.py:153-160 | A passed dependency check means no dependency if and only if the inventory spells the target's UUID canonically |
| StorageIntent.UpperCaseDependencyIsMissed | cluster_storage_standard.py:156-159 | Every target with a letter has a spelling whose disk passes the check |
| StorageIntent.ApprovedTargetFoundIff | cluster_storage_standard.py:251 | The row of an approved default is found if and only if it spells its UUID canonically |
| CredentialRotation.Execute | credential_rotation.py:162-237 | Every change follows the whole preflight, results are exactly the changes made and verified except possibly the last, a verified result rests on logins with the replacement after its change, a dry run changes nothing, and a full success reports one verified result per target in order |
| CredentialRotation.ChangedOnce | credential_rotation.py:189-229 | No target is changed twice, and each change follows every preflight check |
| FoundationIntent.ValidateIntent | foundation_vm_backend.py:148-340 | The collecting loops find no error exactly for a valid intent |
| FoundationIntent.ValidateNode | foundation_vm_backend.py:243-294 | One node passes exactly if it is valid and its addresses and place are new; what was seen grows by them |
| FoundationPayload.BuildPayload | foundation_vm_backend.py:343-454 | Refuses exactly invalid intents, fails a look-up exactly if a table misses the plain text, and otherwise describes the intent |
| FoundationPayload.GroupNodes | foundation_vm_backend.py:373-402 | The blocks are a stable grouping of the nodes: distinct keys, no empty block, each block its nodes in input order |
| FoundationSoundness.NodeIsInSlot | foundation_vm_backend.py:373-402 | Every input node is in the payload at its own slot |
| FoundationSoundness.SlotHoldsNode | foundation_vm_backend.py:373-402 | Every slot of the payload holds exactly one input node |
| FoundationSoundness.PositionsAreDistinct | foundation_vm_backend.py:281-287 | No block of an accepted payload repeats a position |
| FoundationSoundness.AddressesAreDistinct | foundation_vm_backend.py:267-280 | Without padded compute-only roles all addresses of a payload are distinct |
| FoundationSoundness.MembersAreCountedIff | foundation_vm_backend.py:406 | Cluster members are exactly the counted CVM addresses if and only if no compute-only role is padded |
| FoundationSoundness.EnoughMembers | foundation_vm_backend.py:297-305 | An initialised cluster has at least three members for redundancy factor two and five for three |
| FoundationSoundness.TablesFindIff | foundation_vm_backend.py:425-427 | A valid intent is built if and only if platform and LAG type carry no padding |
| FoundationSoundness.CredentialsResolveUnpadded | foundation_vm_backend.py:376 | An unpadded credential reference is resolved in the payload |
| FoundationExample.PlainPlatformIsBuilt | foundation_vm_backend.py:343-454 | A concrete intent is accepted and its table look-ups succeed |
| FoundationExample.PaddedPlatformIsAcceptedButNotBuilt | foundation_vm_backend.py:160-162 | The same intent with a blank behind its platform is accepted and cannot be built |
| FoundationExample.PaddedComputeBecomesMember | foundation_vm_backend.py:322-406 | An accepted intent of three hyperconverged nodes and one padded compute-only node: the node is not counted, and its CVM address, compared with the subnet only, becomes a member, here a repeated one |
| FoundationIdentity.FreshPairwise | foundation_vm_backend.py:278-287 | Nodes that pass against the seen addresses and places differ pairwise in every address and in their place |
| FoundationNormalize.Normalize | foundation_vm_progress.py:74-197 | The loops over stages, nodes and clusters compute the specified statuses |
| FoundationCompletion.PhaseCompletionHasEvidence | foundation_vm_progress.py:93-140 | Within 64 clusters and 256 nodes a completed phase was reported so, or every configured node has a record that completes it |
| FoundationCompletion.ImagingCompletionHasEvidence | foundation_vm_progress.py:147-163 | Within those limits completed node imaging means a completed record of every configured node |
| FoundationCompletion.NamedFormationIff | foundation_vm_progress.py:172-183 | With names of their own, cluster formation is completed exactly if the last record of every expected cluster is |
| FoundationCompletion.UnnamedFormationIff | foundation_vm_progress.py:178-183 | Without, exactly if as many records as expected clusters are completed |
| FoundationCompletion.UnnamedClustersAreOnlyCounted | foundation_vm_progress.py:178-183 | Two records of one cluster complete two unnamed clusters |
| FoundationCompletion.OverallCompletionHasEvidence | foundation_vm_progress.py:141-192 | Overall completion was reported, or the session has stopped, every configured node (within the limits) has a record that completes it, and so has every expected cluster, by name or by count |

## Left out

- RecoveryPrefix.RecordsAreAPrefix: assumes one live thread per run at every moment, because without it the statement is false (`RecoveryUnrunStep.AcceptedWithoutItsSecondStep`); `RecordsInOrderIff` needs no such assumption.
- RecoveryJobs.TwoUnfinishedJobsMeanALostOne: assumes the same; two live threads of one run both submit, and the run stores only the later job.
- FoundationSoundness.AddressesAreDistinct: speaks of address texts after stripping, because the validator compares texts; two spellings of one IPv6 address are different texts.
- FoundationCompletion.PhaseCompletionHasEvidence: is stated within the display limits, because nodes past them are dropped before the roll-up.
- Recovery: confirmation texts, risk acknowledgements, notes and evidence references are one boolean per request; run ids are positions; event lists, audit entries, update timestamps and the `public` views are not modelled.
- Recovery: YAML text, the reference check and host parsing are abstract; a step file is its parsed value, its digest an injective function of it.
- Recovery: `load` and its corruption checks; storage writes are atomic and do not fail.
- Recovery: `shutdown` is a crash that waits for nothing; approval records themselves (`approvals.py`) are an oracle, asked once per approval and answered by what was checked.
- Update: the content of backups, image archives, disk arithmetic, package cleanup and the Compose environment file; Docker answers are unconstrained.
- Update: a heartbeat copies the document as it is at one moment; an interleaving inside the serialisation of one document is not modelled.
- Update: liveness of recovery; a rollback that fails keeps the maintenance lock.
- Spool: clock jumps; the look at the service status before the lock; symbolic links and oversized requests (a rejected request is taken like a processed one).
- Operations: the PE health checks inside `collect_health`, validation of field formats, and the linked records behind `config_exists`, `pipeline` and recovery profiles; fresh ids are new.
- Operations: the store does not say for which baseline an observation was collected; the model labels each with the baseline of the row as it was when its collection began.
- Storage: the HTTP client, response size limits and the mapping from requested properties to API fields; a row shows its normalised fields.
- Rotation: SSH and Redfish conversations, credential resolution and secrets; the validator is the precondition.
- Foundation: endpoint parsing, address, netmask and subnet arithmetic are oracles; entries of the wrong shape are not modelled; image selection, IPMI tests and the redaction of payloads.
- Foundation: white space is blank, tab, line feed and carriage return, and case is ASCII.
- Telemetry: activity texts, percentages and labels.
- Flask routes, roles, rate limits, the web interface, the scheduler, approvals, upgrade advice, drift views, PC unregistration, PE local users and login titles: interface code, or the same preflight-then-change shape in an easier form.
