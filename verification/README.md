# Verified model of the control plane's protocols

The control plane in `apps/api` deploys static pages, applications and
Cloudflare workers, backs up databases, elects leaders, consumes a job queue
and keeps alerts and DNS records in step with the world. Several actors write
the same rows at once: HTTP requests, queue workers that crash and are
redelivered, stale-recovery sweeps, settings edits. This project models that
behaviour in Dafny and proves what it keeps, step by step and over whole runs,
together with the string and ordering algorithms that have exact
specifications.

`dafny verify dfyconfig.toml` checks everything.

## How it is laid out

| files | what they model |
|---|---|
| `page_rows`, `page_protocol` | the page tables and every step that changes them, as a machine of interleaving actors |
| `page_exclusive`, `page_dedup` | exclusivity, target isolation and runtime preservation; what a skipped sync leaves on the origin |
| `page_limits` | runs in which one hypothesis is dropped and the conclusion fails |
| `page_store`, `page_services` | the store's conditional writes and the services over it, as imperative code that takes steps of the machine |
| `deploy_states`, `deploy_run`, `deploy_sweep` | one application deployment from message to outcome; the sweep that pages over a list it changes |
| `backup_protocol`, `backup_keys`, `backup_service` | database backups: the machine, the stability of the object key, the service |
| `worker_protocol`, `worker_confirm`, `worker_approvals`, `worker_rounds`, `worker_service` | parked worker deployments and their confirmation |
| `job_protocol`, `job_conservation`, `job_consumer` | the queue and its bounded consumers |
| `leader_protocol`, `leader_election`, `leader_elector` | leader election over a session lock |
| `alert_evaluator` | alert reconciliation |
| `txt_values`, `dns_records` | TXT quoting and parsing on bytes; record conversion |
| `text`, `cron_fields`, `host_names`, `version_order` | splitting and reading numbers; cron fields; host names; update ordering |
| `secret_config` | redaction and merging of resource configs |

A protocol has three layers. A `Step` function gives, for each label, one
store call and the change of one actor's program counter and local copies; a
label that is not enabled changes nothing. Lemmas then speak of `Exec` over any
label sequence from an empty world. Last, a class with the tables as fields has
the source's methods, and a ghost field shows that each method takes steps of
the machine and when its history keeps meeting the hypotheses, so that what is
proved of all runs holds of the code's own objects
(`PageStore.PageDatabase.Safe`, `BackupService.BackupTable.KeysAreStable`,
`WorkerService.WorkerTable.ReplacesOnce`).

What comes from outside (build, provider, cluster, clock, randomness, whether a
write succeeds) is a parameter of the step or of the method.

## Hypotheses

They are predicates in the model, never hidden in a step.

- `PageProtocol.NoRunOverlap`: no live page run is overlapped by its own
  redelivery or by stale recovery. A run may take 40 minutes to prepare its
  files and 30 to deploy them
  (`apps/api/internal/service/page_deploy_service.go:31-35`), while a message
  becomes visible again, and a row stale, after 40 minutes.
  `JobConservation.NoConcurrentRedelivery` says when the queue grants it: while
  no job outlives the visibility timeout.
  `PageLimits.OverlapBreaksExclusivity` shows it is needed.
- `PageProtocol.RowWriteOk`: deployment-row writes succeed. Page-status and
  runtime writes may fail.
- `PageProtocol.NoEditOverlap`: settings edits of one page do not overlap.
- A failed enqueue sends nothing (pages, backups, workers).
- `BackupProtocol.NoOverlap`: executions of one backup job do not overlap.
- `WorkerProtocol.NoRunOverlap` for single replacements, `ConfirmsApart`
  (confirmations do not overlap) for approvals that only grow, and `ParksAnew`
  (runs park only for unapproved existing buckets) besides for the bound on
  rounds. That no name is listed twice, and the account of rounds over every run
  (`WorkerRounds.RoundsAccountedFor`), need none.
- `AlertEvaluator.AlertTable.Evaluate` takes rules with distinct names, as the
  built-in rules have, and a table in firing order.
- `DeployRun`: a store write fails exactly when it is made under a context that
  has ended; `MAX_CALLS` bounds the calls of a run, so a context that outlasts
  them never ends too early.

## What the code does not keep

Each is proved, with the exact condition or a concrete run.

- A page worker lost between its sync and the row that records it makes a later
  deployment of an older commit skip its sync and claim files the origin does
  not hold (`PageLimits.LostRecordBreaksDedup`). So does a build turned off
  between two deployments of one commit and folder, with nothing lost at all: the
  lookup never asks whether the last success was built
  (`PageLimits.BuildTurnedOffBreaksDedup`). The exact condition over both is
  `PageDedup.SuccessMatchesOrigin`.
- The guarded settings write checks the stored status but plans on an earlier
  copy, so a target change planned before a first run can be written after that
  run has created resources, although the comments at
  `apps/api/internal/service/page_service.go:356-362` and `:403-406` rule that
  out (`PageLimits.GuardedEditCanStrandResources`). For the account and for the
  region it happens exactly when the plan repoints the column, no deploy runs,
  and the stored row pins it (`PageExclusive.RetargetStrandsExactly`).
- A successful application deployment sets the status to running and then
  writes every column from its own copy
  (`apps/api/internal/service/deploy_service.go:407-408`), the status among
  them: the application ends running if and only if the run found it running or
  its context ended between the two writes (`DeployRun.DecidedByInputs`,
  `DeployRun.Settled`).
- Failures and successes after the build are written under the job's context,
  and the cancellation of a flagged run under the worker's; a run whose context
  ends before that write leaves its row unsettled (`DeployRun.DecidedByInputs`
  says when from the inputs).
- A deployment nobody cancelled can be recorded as cancelled by the user: a time
  limit that ends the context after the build has yielded its image, or before a
  deploy call that fails returns, counts as a cancellation
  (`apps/api/internal/service/deploy_service.go:308-311` and `:387-391`;
  `DeployRun.BuildCounts` and `DeployRun.DeployCounts` in
  `DeployRun.OutcomeDecides`).
- The build is skipped only for a newer deployment of the same application that
  has already succeeded on the commit, since the lookup returns the run's own
  row otherwise (`DeployRun.SkipsBuild`, `DeployRun.NewestAlwaysBuilds`).
- One stale sweep can miss rows (`DeploySweep.ShiftedRowIsMissed`): exactly when
  a stale row lies among those that slip past a full page
  (`DeploySweep.MissesNothingExactly`). It never misses more than it fails.
- Overlapping confirmations can forget an approved bucket
  (`WorkerConfirm.OverlapForgetsApproval`): a step forgets one exactly when it
  persists a copy that lacks it (`WorkerApprovals.ForgetsExactly`). They can also
  ask twice for one bucket although nothing is forgotten
  (`WorkerRounds.OverlapAsksTwice`).
- A message whose payload does not decode is never archived, whatever its read
  count (`JobConservation.GarbledStays`).
- A lock is left behind in the pool, shutting every elector out, by a release
  whose unlock is lost or insufficient, by a failed ping on a live session, by a
  grant whose reply is lost, and by nothing else
  (`LeaderElection.LeaksExactly`, `LeakShutsOut`).
- The cooldown query filters by firing time, so an alert that fired more than
  half an hour ago does not hold its source back after its resolution
  (`AlertEvaluator.LongAlertIsForgotten`), against the comment at
  `apps/api/internal/service/alert_evaluator.go:379`; the exact condition is
  `AlertEvaluator.CooldownKeepsPromise`.
- TXT values with a backslash, or with a quote whose escape is cut by a chunk's
  end, do not come back (`TxtValues.TxtRoundTrips`).
- Merging an unreadable stored config with its redaction loses it
  (`SecretConfig.UneditedViewIsHarmless`).

## Model

| member | source | states |
|---|---|---|
| PageExclusive.PagesAreSafe | apps/api/internal/service/page_deploy_service.go:94-342 | at every point of every run meeting the three hypotheses: one queued or running deployment per page, its page present and deploying; a live run's account and region are the stored ones; no saved runtime identifier is lost, neither from the row nor from the row handed to teardown |
| PageExclusive.StepKeepsInv | apps/api/internal/testsupport/fake_page_store.go:73-235 | each of the 25 kinds of step keeps the ownership invariant behind the three guarantees |
| PageExclusive.RetargetStrandsExactly | apps/api/internal/service/page_service.go:345-418 | in every calm run a settings write takes the account (the region) away from a page whose stored resources pin it if and only if its plan repoints that column, no deploy runs, and the stored row pins it now |
| PageExclusive.RetargetRacedARun | apps/api/internal/service/page_service.go:352-411 | and then, for either column, the resources were saved after the edit read the page: its copy showed none |
| PageRows.PlanTargets | apps/api/internal/service/page_service.go:352-399 | a plan repoints the target exactly when it says so, and only from a copy without pinned resources that is not deploying |
| PageRows.PlanMeans | apps/api/internal/service/page_service.go:229-399 | the checks, made one setting at a time, refuse exactly those requests and plan exactly that page |
| PageRows.LatestSuccessIsLast | apps/api/internal/store/pg/page_store.go:292-302 | the dedup lookup finds the newest success and misses only when there is none |
| PageDedup.SuccessMatchesOrigin | apps/api/internal/service/page_deploy_service.go:226-342 | on pages that keep their target, builds turned on and off at will: a recorded success leaves the origin holding the files of its commit and folder if and only if the run does not build, and it synced, or what was last synced is told by the newest success, or was the same files; a build's output, and a sync nobody recorded, is told by none |
| PageDedup.DedupPreservesMeaning | apps/api/internal/service/page_deploy_service.go:226-240 | with all-or-nothing deploys, no run lost before its record and no build synced, every success leaves the origin holding exactly the files of its commit and folder, synced or skipped |
| PageDedup.StepServes | apps/api/internal/service/page_deploy_service.go:330-342 | every step keeps the relation between the origin, the latest success and the last sync no success tells of, built or not |
| PageLimits.OverlapBreaksExclusivity | apps/api/internal/service/page_deploy_service.go:186-209 | a run with an overlapped redelivery ends with two active deployments of one page |
| PageLimits.LostRecordBreaksDedup | apps/api/internal/service/page_deploy_service.go:230-238 | a run lost after its sync makes a later skip claim files that are not there |
| PageLimits.BuildTurnedOffBreaksDedup | apps/api/internal/service/page_deploy_service.go:230-238 | with nothing lost, turning the build off at one commit and folder makes the next deployment skip its sync over the build's output |
| PageLimits.GuardedEditCanStrandResources | apps/api/internal/service/page_service.go:402-411 | a calm run in which the guarded write changes the region of a page that has a bucket |
| PageStore.PageDatabase.Safe | apps/api/internal/store/pg/page_store.go:63-322 | tables whose history met the hypotheses are exclusive, isolated and keep every saved identifier |
| PageStore.PageDatabase.TryMarkDeploying | apps/api/internal/store/pg/page_store.go:231-247 | a compare-and-set on the page status that only a non-deploying page lets win, writing that column alone |
| PageStore.PageDatabase.UpdateSettings | apps/api/internal/store/pg/page_store.go:63-95 | settings columns only, refused by the guarded form while a deploy runs; runtime and status stay as stored |
| PageStore.PageDatabase.DeleteIfNotDeploying | apps/api/internal/store/pg/page_store.go:107-129 | removes and returns the row exactly when no deploy runs |
| PageStore.PageDatabase.MarkTimedOut | apps/api/internal/store/pg/page_store.go:304-322 | fails a row exactly while it is still running |
| PageStore.PageDatabase.GetLatestSuccess | apps/api/internal/store/pg/page_store.go:292-302 | the scan from the newest row finds the specified lookup's row |
| PageStore.PageDatabase.ListRunning | apps/api/internal/service/page_deploy_service.go:98-101 | running rows, newest first; any left out only when the list is full, and then older than all listed |
| PageStore.PageDatabase.Dedup | apps/api/internal/service/page_deploy_service.go:230-240 | skips exactly when the page does not build, the commit is known, the lookup answered and the latest success has the same commit and folder |
| PageServices.Trigger | apps/api/internal/service/page_deploy_service.go:136-183 | the four ways a trigger ends, each with its condition and its effect on rows, queue and status, and the status put back after each failure |
| PageServices.RunJob | apps/api/internal/service/page_deploy_service.go:186-342 | a run refuses finished or missing rows untouched; otherwise it succeeds if and only if its files were produced and either the sync can be skipped or provisioning and sync succeed; its whole row (inputs, times, the reused or returned provider reference), its whole page (status, and every column saved up to the first failing save) and every origin are what the answers make of them, and nothing else changes |
| PageServices.Provision | apps/api/internal/service/page_deploy_service.go:283-315 | the incremental saves stop at the first failure, succeed together, and leave the stored runtime as the saves up to there make it |
| PageServices.SavedHolds | apps/api/internal/service/page_deploy_service.go:283-315 | no column is lost by saves, each holds what was last saved under it, and the others what they held |
| PageServices.RecoverStale | apps/api/internal/service/page_deploy_service.go:94-132 | exactly the listed rows at least 40 minutes old are failed, exactly their pages are put into error, nothing else changes; a failed listing changes nothing |
| PageServices.OverdueCountsFrom | apps/api/internal/service/page_deploy_service.go:96-112 | a running row is overdue forty minutes after its start or, when it has none, after its creation |
| PageServices.UpdatePage | apps/api/internal/service/page_service.go:345-418 | a request is turned down exactly for another account while a deploy runs or resources exist, any region off CloudFront, or another region while a deploy runs or a bucket exists; otherwise each of account, region, folder and build setting is the request's where it gives one and the stored one elsewhere, and provider, runtime and status stay |
| PageServices.DeletePage | apps/api/internal/service/page_service.go:423-466 | the row goes away exactly when no deploy runs, and teardown gets it exactly when it names resources |
| DeploySweep.DeployTable.RecoverStaleDeployments | apps/api/internal/service/deploy_service.go:74-118 | the nested paging loops over the shifting filter end, and are the specified sweep of both statuses, with the applications of exactly the failed rows in error |
| DeploySweep.DeployTable.ListAll | apps/api/internal/store/pg/deployment_store.go:45-67 | a page of a status filter in table order |
| DeploySweep.StaleCountsFrom | apps/api/internal/service/deploy_service.go:75-92 | a row is stale half an hour after its start or, when it has none, after its creation |
| DeploySweep.NextPage | apps/api/internal/service/deploy_service.go:83-115 | after a page whose stale rows were failed, as many following rows slip past the next offset, and what is left is what the specification sweeps next |
| DeploySweep.SweepListHalves | apps/api/internal/service/deploy_service.go:83-115 | at least half of the stale rows of a status are failed, for any page size and row order |
| DeploySweep.SweepTouchesOnlyStale | apps/api/internal/service/deploy_service.go:88-104 | only building or deploying rows at least 30 minutes old change, and only by failing |
| DeploySweep.SweepHalves | apps/api/internal/service/deploy_service.go:74-118 | a sweep at least halves the stale rows of each status |
| DeploySweep.SweepsDrain | apps/api/internal/service/deploy_service.go:74-118 | repeated sweeps at a fixed clock reach zero stale rows in logarithmically many sweeps |
| DeploySweep.MissesNothingExactly | apps/api/internal/service/deploy_service.go:83-115 | for every table and page size a pass over a status fails every stale row of it if and only if no stale row lies among those that slip past a full page |
| DeploySweep.SweepIsCompleteExactly | apps/api/internal/service/deploy_service.go:74-118 | a sweep leaves no stale row if and only if none slips in either status |
| DeploySweep.OnePageMissesNothing | apps/api/internal/service/deploy_service.go:83-115 | a status that fits one page is swept completely |
| DeploySweep.ShiftedRowIsMissed | apps/api/internal/service/deploy_service.go:77-87 | a stale row that slips past the page boundary and stays |
| DeployRun.Platform.RunDeployJob | apps/api/internal/service/deploy_service.go:179-218 | finished and missing rows untouched, a flagged one cancelled at once; every other run with its application present ends in exactly the outcome its inputs decide, cancelled, failed or succeeded, with the exact conditions for each and for a row left unsettled and its status; its full row and application record, image included; the cluster and the builder asked exactly when they should be; when its context outlasts its calls the row settles and the application is paired with it |
| DeployRun.OutcomeDecides | apps/api/internal/service/deploy_service.go:250-424 | exactly when a run is recorded as succeeded, cancelled or failed, with the application's pairing, over the builder's, registry's, target's and cluster's answers, the flags and the tick at which the context ends |
| DeployRun.Platform.Execute | apps/api/internal/service/deploy_service.go:250-424 | how a run ends and at which call, the whole row and application it leaves, the image each holds (reused, built or configured), what it hands to the cluster and whether it builds, all from its inputs |
| DeployRun.Platform.BuildFromSource | apps/api/internal/service/deploy_service.go:275-325 | a build goes through exactly when it succeeds, its context lives and the application reloads; otherwise which of the four endings it has is a function of the inputs, and the row settles as that, outside the job's context |
| DeployRun.Platform.Judge | apps/api/internal/service/deploy_service.go:280-311 | after a failed build a cancellation counts when it ended the context and no time limit did, or when the row is flagged while the context still lives; between the two checks neither is seen; after a good build any end of the context counts |
| DeployRun.Platform.Deploy | apps/api/internal/service/deploy_service.go:328-408 | the five endings after the build with their conditions, settled exactly when the context is alive at the outcome write |
| DeployRun.Platform.FinalizeCancelled | apps/api/internal/service/deploy_service.go:438-461 | cancelled with a finish time, and the application running exactly when its live phase is, unless the context they are written under is dead |
| DeployRun.Platform.Cancel | apps/api/internal/service/deploy_service.go:527-553 | accepted for deployments in progress; a queued one is cancelled at once, a running one only flagged |
| DeployRun.Platform.CanSkipBuild | apps/api/internal/service/deploy_service.go:257-272 | an image is reused if and only if the build is not forced, the cache allowed, the commit known and the application's newest deployment succeeded on it with an image, and it is that image |
| DeployRun.NewestAlwaysBuilds | apps/api/internal/service/deploy_service.go:257-260 | the deployment a running one can reuse is newer than itself, which makes the run's skip condition speak of newer deployments only |
| BackupKeys.BackupKeyIsStable | apps/api/internal/service/database_service.go:550-811 | over every serial run: running and completed backups have a key, every upload and restore used the key on the row, and a key once set is never changed |
| BackupKeys.OneObjectPerBackup | apps/api/internal/service/database_service.go:786-797 | all uploads and restores of a backup name one object |
| BackupKeys.RunMarkKeeps | apps/api/internal/service/database_service.go:630-645 | choosing a key contradicts no copy anyone holds |
| BackupKeys.OverlapUploadsTwice | apps/api/internal/service/database_service.go:630-645 | two overlapping executions upload to two objects |
| BackupService.BackupTable.KeysAreStable | apps/api/internal/service/database_service.go:550-811 | tables whose history is serial have keys on every live backup, and every transfer used the key on its row |
| BackupService.AwaitReady | apps/api/internal/service/database_service.go:599-625 | the job goes on exactly when one of six polls says running after only not-ready ones, and is cut exactly by a cancellation before that |
| BackupService.BackupTable.TriggerBackup | apps/api/internal/service/database_service.go:506-541 | a pending row and a sent job, or a failed row and nothing sent |
| BackupService.BackupTable.RunDatabaseBackupJob | apps/api/internal/service/database_service.go:550-669 | launched, reconciled, failed and retried each exactly under their condition on the row and the answers: ready after only not-ready polls with no wait cut, storage looked up, mark stored, upload built, job accepted; the row each leaves, the key kept or chosen, and the upload made, exactly; no other row changes |
| BackupService.BackupTable.Launch | apps/api/internal/service/database_service.go:628-668 | mark running with the reused or new key before anything is uploaded, and the endings after that |
| BackupService.BackupTable.ListBackups | apps/api/internal/service/database_service.go:688-737 | both passes reconcile exactly the listed rows, in the answer and in the table, and change no key |
| BackupService.ReconciliationMeans | apps/api/internal/service/database_service.go:694-734 | a list call gives a running backup the outcome of its job with the time, a running restore the outcome of its own, and changes nothing else |
| BackupService.BackupTable.RestoreBackup | apps/api/internal/service/database_service.go:739-811 | starts exactly for a completed backup with no restore under way, downloading the key on the row |
| WorkerConfirm.ConfirmedAtMostOnce | apps/api/internal/service/worker_deploy_service.go:303-363 | however confirmations interleave, crash and revert, a parked deployment gets at most one successful replacement |
| WorkerConfirm.ClaimKeeps | apps/api/internal/store/pg/worker_store.go:312-329 | the compare-and-set hands the row to one caller that nobody else can write beside |
| WorkerConfirm.ConfirmRoundsBounded | apps/api/internal/service/worker_deploy_service.go:231-239 | without overlapping confirmations, and with runs parking only for unapproved existing buckets, there are at most as many replacements as existing buckets |
| WorkerConfirm.UnionMeans | apps/api/internal/service/worker_deploy_service.go:332-343 | the merged list extends the confirmed one, has exactly the union's names, and repeats a name only if the confirmed list did |
| WorkerConfirm.UnionKeepsOrder | apps/api/internal/service/worker_deploy_service.go:337-342 | new names keep their pending order |
| WorkerConfirm.MergeConfirmed | apps/api/internal/service/worker_deploy_service.go:332-342 | the loop with its seen set computes that union |
| WorkerApprovals.ConfirmedStaysDistinct | apps/api/internal/service/worker_deploy_service.go:332-343 | over every run, however confirmations interleave, no approved name is listed twice |
| WorkerApprovals.ApprovalsOnlyGrow | apps/api/internal/service/worker_deploy_service.go:303-347 | while confirmations do not overlap, the list at any point of a run is the beginning of the list at its end |
| WorkerApprovals.ForgetsExactly | apps/api/internal/service/worker_deploy_service.go:332-347 | a step forgets an approval if and only if it stores a claim's list that lacks an approved name, which is not pending either |
| WorkerConfirm.OverlapForgetsApproval | apps/api/internal/service/worker_deploy_service.go:343-347 | a run in which an overlapping confirmation writes an old list back over an approval |
| WorkerRounds.RoundsAccountedFor | apps/api/internal/service/worker_deploy_service.go:303-363 | in every run, whatever overlaps, there are at most as many replacements as existing buckets, existing names dropped by a persist, and replacements whose own persist approved no existing name anew |
| WorkerRounds.OverlapAsksTwice | apps/api/internal/service/worker_deploy_service.go:303-363 | two overlapping confirmations, runs parking only for unapproved buckets: two replacements for one bucket, which stays approved |
| WorkerService.WorkerTable.ReplacesOnce | apps/api/internal/service/worker_deploy_service.go:303-363 | the service's own tables always have one replacement per parked deployment and a list without repeats |
| WorkerService.WorkerTable.ConfirmR2 | apps/api/internal/service/worker_deploy_service.go:303-363 | nothing parked, claim lost, failed or replaced, each exactly under its condition, with the rows and the approved list each leaves, a revert that is lost included |
| WorkerService.WorkerTable.TryClaimNeedsConfirmation | apps/api/internal/store/pg/worker_store.go:312-329 | parked to cancelled, and only then |
| JobConservation.JobsAreConserved | apps/api/cmd/worker/main.go:152-247 | every message is in exactly one of queue, deleted, archived; deleted only after a nil dispatch, archived only after a failing one at read count five or more; slots are the running jobs plus the reader's and at most four; undecodable messages stay |
| JobConservation.NoConcurrentRedelivery | apps/api/cmd/worker/main.go:26 | while no job outlives the visibility timeout, no two jobs work on one message in any process |
| JobConservation.FifthFailureArchives | apps/api/cmd/worker/main.go:228-247 | a job that fails every time is delivered five times, forty minutes apart, and archived at the fifth, not before |
| JobConservation.OutlivedJobIsDeliveredAgain | apps/api/internal/jobs/queue.go:106-125 | a job that outlives the visibility timeout, killed or not, is delivered again |
| JobConservation.StoppedReadsNoMore | apps/api/cmd/worker/main.go:188-200 | a process told to stop takes no more slots and changes nothing else |
| JobConservation.ReadKeeps | apps/api/internal/jobs/queue.go:106-125 | a new delivery starts only when every other live job on the message is overdue |
| JobConservation.StepKeepsBounded | apps/api/cmd/worker/main.go:161-222 | every step keeps the slot count equal to jobs plus the held slot |
| JobConsumer.Consumer.Poll | apps/api/cmd/worker/main.go:189-223 | a message is got exactly when connected, visible and readable; reading hides and counts it in any case; the slot stays taken exactly when a job was started on it |
| JobConsumer.Consumer.ProcessMessage | apps/api/cmd/worker/main.go:228-247 | deletes after success, archives after the fifth failure, otherwise leaves the message, and gives one slot back |
| JobConsumer.Consumer.Read | apps/api/internal/jobs/queue.go:106-125 | a read hides and counts the message even when its payload fails to decode |
| LeaderElection.AtMostOneLeader | apps/api/internal/leader/leader.go:76-139 | over every interleaving at most one elector leads on a live session, it holds the lock, and the flag is up exactly while a connection is kept |
| LeaderElection.LeakShutsOut | apps/api/internal/leader/leader.go:120-139 | while a locked session idles in a pool, no elector becomes a live leader |
| LeaderElection.LeaksExactly | apps/api/internal/leader/leader.go:76-139 | of all steps, exactly a live leader's lost or insufficient unlock, its failed ping, and a grant whose reply is lost leave the lock behind |
| LeaderElection.ReleaseLeaks | apps/api/internal/leader/leader.go:120-131 | a release leaks the lock if and only if its unlock is lost or the lock was taken more than once, and otherwise frees it |
| LeaderElection.FailedPingLeaks | apps/api/internal/leader/leader.go:80-89 | a failed ping on a live session leaks the lock |
| LeaderElection.LeakIsReachable | apps/api/internal/leader/leader.go:76-139 | a run that ends with a leaked lock |
| LeaderElector.Elector.Tick | apps/api/internal/leader/leader.go:76-118 | after a tick an elector leads exactly when its ping passed or its session got the lock, and then alone |
| LeaderElector.Elector.Release | apps/api/internal/leader/leader.go:120-131 | steps down whatever the unlock does, with the exact condition under which the lock is left behind |
| AlertEvaluator.AlertTable.EvaluateRule | apps/api/internal/service/alert_evaluator.go:306-376 | with successful calls: at most one active alert per source, active sources fire, firing sources are active or cooling, a source that keeps firing keeps an existing alert; with any failures: rows change only by being resolved at the present time or by being added, fresh, with what the rule last said of a firing source; no second active alert; a source whose resolution is in sight gets none; a steady table is a fixed point |
| AlertEvaluator.AlertTable.Evaluate | apps/api/internal/service/alert_evaluator.go:301-377 | all rules in turn end reconciled against the table the evaluation began with; whatever fails, rows of evaluated rules are only resolved at the present time or added for what fires, sources in sight of a resolution get no row, and rules not evaluated see no change |
| AlertEvaluator.AlertTable.ResolveOrKeep | apps/api/internal/service/alert_evaluator.go:313-337 | the newest active alert of a firing source is kept, every other active one is resolved at the present time, and what is left of the firing set had none |
| AlertEvaluator.AlertTable.InsertNew | apps/api/internal/service/alert_evaluator.go:339-375 | adds fresh rows, with the firing's message, only for sources with no active alert that are not cooling down; a source with a resolution in sight gets none |
| AlertEvaluator.AlertTable.IsInCooldown | apps/api/internal/service/alert_evaluator.go:380-398 | true exactly when one of the newest two hundred alerts fired in the last half hour is the source's and was resolved in it |
| AlertEvaluator.ResolvedIsHeldBack | apps/api/internal/service/alert_evaluator.go:301-398 | over two evaluations: an alert that fired in the window and was resolved by the first keeps its source from getting a new one in a second less than half an hour later, if the recent alerts can be listed and at most two hundred have fired since |
| AlertEvaluator.FiresAgain | apps/api/internal/service/alert_evaluator.go:339-377 | and no longer: with no resolution of the rule and source in the last half hour a firing source has an active alert |
| AlertEvaluator.CooldownKeepsPromise | apps/api/internal/service/alert_evaluator.go:379-398 | the check answers as its comment promises if and only if nothing of the source was resolved in the last half hour, or an alert of it that also fired in it was, with fewer than two hundred fired since |
| AlertEvaluator.QuietTableKeepsPromise | apps/api/internal/service/alert_evaluator.go:380-398 | with at most two hundred alerts fired in the last half hour, firing times alone decide that |
| AlertEvaluator.LongAlertIsForgotten | apps/api/internal/service/alert_evaluator.go:379-387 | an alert resolved a minute ago that does not hold its source back |
| TxtValues.TxtRoundTrips | apps/api/internal/dns/route53.go:264-321 | an unwrapped value comes back if and only if it has no backslash and no escape starts on the last byte of a chunk; one already wrapped in quotes if and only if it is not a run of closed quoted strings with only blanks between them |
| TxtValues.ReadsStringsExactly | apps/api/internal/dns/route53.go:296-340 | the parser accepts exactly the runs of closed quoted strings with blanks between |
| TxtValues.RereadIs | apps/api/internal/dns/route53.go:267-340 | what any value reads back as after quoting: a backslash is dropped or ruins the text, a cut escape adds a space |
| TxtValues.CleanSurvives | apps/api/internal/dns/route53.go:296-340 | the parser over a chunked clean text yields the text |
| TxtValues.OthersDiffer | apps/api/internal/dns/route53.go:296-340 | over any other text it never does |
| TxtValues.QuoteIsChunked | apps/api/internal/dns/route53.go:274-290 | the quoted text is chunks of at most 255 bytes that concatenate to the escaped value |
| TxtValues.QuoteTXT | apps/api/internal/dns/route53.go:267-291 | the chunking loop computes the specified quoting |
| TxtValues.UnquoteTXT | apps/api/internal/dns/route53.go:296-321 | the segment loop computes the specified parse |
| TxtValues.ParseTXTQuotedSegment | apps/api/internal/dns/route53.go:323-340 | one segment: what is inside, where the parser goes on, always further, and when it refuses |
| DnsRecords.Route53RoundTrips | apps/api/internal/dns/route53.go:169-262 | for every record, there and back is the identity if and only if the record is normalised: name, type, time to live, values or alias, each TXT value surviving quoting |
| DnsRecords.Route53Settles | apps/api/internal/dns/route53.go:169-262 | what any record is shown as after it was sent: whether it is, its name, type in capitals, time to live or five minutes, and its values in order, trimmed and, as texts, reread |
| DnsRecords.NoTtlShown | apps/api/internal/dns/route53.go:211-214 | a record set without a time to live is shown with five minutes |
| DnsRecords.TypesInEitherCase | apps/api/internal/dns/route53.go:223-224 | the four types are supported in either case |
| DnsRecords.CloudflareRoundTrips | apps/api/internal/dns/cloudflare.go:131-171 | the same for Cloudflare and single-valued records |
| DnsRecords.ToValues | apps/api/internal/dns/route53.go:248-255 | the loop over a record's values trims each and quotes those of a TXT record, in order |
| DnsRecords.FromValues | apps/api/internal/dns/route53.go:203-210 | the loop over the provider's values unquotes those of a TXT record, in order |
| DnsRecords.UntrimmedTxt | apps/api/internal/dns/route53.go:246-252 | an untrimmed TXT value comes back if and only if it is one space too long behind a last quote whose escape is cut |
| DnsRecords.CutAtEndAddsSpace | apps/api/internal/dns/route53.go:274-290 | such a value |
| CronFields.FieldRefines | apps/api/internal/service/system_backup_service.go:410-452 | a written field matches exactly the values it denotes |
| CronFields.AtomMatches | apps/api/internal/service/system_backup_service.go:421-452 | the same for one atom, its numbers written with any sign and leading zeros; a step of one after a number denotes that number, a starred step its multiples |
| CronFields.AtomsAreAll | apps/api/internal/service/system_backup_service.go:421-452 | a text matches a value if and only if it is a written atom that stands for it, for every text |
| CronFields.ScheduleRefines | apps/api/internal/service/system_backup_service.go:384-408 | a written schedule, however spaced, runs at exactly the moments all five fields name, weekday seven being Sunday |
| CronFields.MatchField | apps/api/internal/service/system_backup_service.go:412-419 | the loop accepts exactly when some atom does |
| CronFields.ShouldRunNow | apps/api/internal/service/system_backup_service.go:384-395 | five fields, all of which match |
| Text.AtoiReads | apps/api/internal/service/system_backup_service.go:424-443 | a number is read as what it says, however signed and padded, and cut at 64 bits |
| Text.AtoiAccepts | apps/api/internal/service/system_backup_service.go:424-443 | and nothing that is not so written is read |
| SecretConfig.UneditedViewIsHarmless | apps/api/internal/service/resource_service.go:62-126 | merging a stored config with its own redaction gives it back if and only if it is readable |
| SecretConfig.MergeStores | apps/api/internal/service/resource_service.go:95-126 | every key given is stored with exactly the value given, unless it is a secret still masked, which is stored exactly when it was stored before, with its old value; nothing else is stored |
| SecretConfig.SecretsCanBeChanged | apps/api/internal/service/resource_service.go:62-126 | changing any key in the redacted view and saving it is changing that key in the stored config |
| SecretConfig.RedactTwice | apps/api/internal/service/resource_service.go:62-90 | redaction is idempotent |
| SecretConfig.PutIsSeen | apps/api/internal/service/resource_service.go:62-126 | the redacted merge is the redacted input if and only if every secret left masked is stored and not empty |
| SecretConfig.SavesSettle | apps/api/internal/service/resource_service.go:62-126 | saving the view of what a save left changes nothing, exactly when what was saved was readable |
| SecretConfig.MaskNeverIntroduced | apps/api/internal/service/resource_service.go:95-126 | the mask ends up under a secret exactly when it was stored there and left there |
| SecretConfig.ViewShowsNoSecret | apps/api/internal/service/resource_service.go:72-82 | a redacted view holds the mask or nothing under each secret |
| SecretConfig.OnlyCredentialsAreHidden | apps/api/internal/secret/keys.go:4-13 | credentials of any type are masked, other fields shown |
| SecretConfig.RedactResourceConfig | apps/api/internal/service/resource_service.go:62-90 | the loop over the decoded map computes the redaction |
| SecretConfig.MergeSecretConfig | apps/api/internal/service/resource_service.go:95-126 | the restoring and deleting loop computes the merge |
| HostNames.ValidateDomainHost | apps/api/internal/service/domain_service.go:43-69 | accepts exactly hosts of at most 253 characters with valid labels, two of them unless it is localhost |
| HostNames.AcceptedIsNormal | apps/api/internal/service/domain_service.go:36-41 | every accepted host is a fixed point of normalisation |
| HostNames.NormalizeMeans | apps/api/internal/service/domain_service.go:36-41 | white space around any host is dropped, what is left has its case folded, and dots that end it are dropped |
| HostNames.EveryLetterFolds | apps/api/internal/service/domain_service.go:36-41 | all twenty-six capital letters fold |
| HostNames.AnySpellingIsAccepted | apps/api/internal/service/domain_service.go:36-69 | an accepted host is what every spelling of it is normalised to: any ASCII case, white space around, dots behind |
| HostNames.GeneratedIsValid | apps/api/internal/service/domain_service.go:146-165 | a generated host is accepted if and only if its base domain's labels are valid and the whole fits |
| HostNames.ShortBaseAlwaysWorks | apps/api/internal/service/domain_service.go:146-165 | every application name works under a valid base domain of at most 207 characters |
| HostNames.SanitizeName | apps/api/internal/service/domain_service.go:146-155 | the loop over the lower-cased name's bytes keeps letters and digits and puts a hyphen for every other byte |
| HostNames.PrefixMeans | apps/api/internal/service/domain_service.go:146-163 | the generated prefix is what the name leaves once other characters are hyphens and the outer ones are gone, cut to forty characters, or app |
| HostNames.GeneratedLabel | apps/api/internal/service/domain_service.go:394-398 | the generated label is valid whatever the name and the random bytes |
| HostNames.SuffixesCollide | apps/api/internal/service/domain_service.go:394-398 | of the four random bytes two reach the name: suffixes agree exactly when the first two bytes do |
| VersionOrder.UpdateMeans | apps/api/internal/service/version_service.go:194-214 | an update is offered exactly for a higher number or for the release of the same base string |
| VersionOrder.PrintedUpdates | apps/api/internal/service/version_service.go:194-240 | between printed versions of one to three numbers an update is offered exactly for the higher first, then second, then third number, a missing one being zero, and for the release itself from its pre-releases |
| VersionOrder.UnreadableRanksZero | apps/api/internal/service/version_service.go:217-232 | a text that is no number ranks as zero |
| VersionOrder.Asymmetric | apps/api/internal/service/version_service.go:194-240 | no two versions are offered for each other |
| VersionOrder.Transitive | apps/api/internal/service/version_service.go:194-240 | offers compose |
| VersionOrder.Incomparable | apps/api/internal/service/version_service.go:194-240 | neither is offered for the other exactly when the numbers agree and neither releases the other |
| VersionOrder.NoCycle | apps/api/internal/service/version_service.go:194-240 | along any chain of updates no version comes back, and each later one is an update of each earlier one |

## Left out

- Custom domains, DNS validation and certificates of pages, and with them `pageDomainLocked`: more provider calls that may fail, between steps already modelled.
- Log text, notifications, tags and timestamps beyond ordering and ages: nothing reads them back into a decision.
- Liveness of a page after a crash between its deployment row and its status: the page model is about safety; a run left to itself is shown to settle.
- At most one active deployment per Cloudflare worker: a confirmation writes the whole worker row from an old copy, the status included, so it is not kept.
- Cancel flags surviving concurrent writes: every deployment write is a full row from a copy, so they do not.
- The provider's internals and the order of its saves: a run may save any column in any order.
- A page's build settings other than whether it builds.
- The system backup's retention and the other services' create, read, update and delete operations: easy members only.
- DeploySweep.DeployTable.RecoverStaleDeployments: a listing or a write that fails is not modelled; the drain is stated for quiescent sweeps whose calls succeed.
- DeployRun.Platform.RunDeployJob: other writers of the same rows during the run are not modelled.
- BackupProtocol.StepRunMark: a write applied only after its caller has died is not modelled.
- WorkerProtocol.StepConfirmTrigger: the trigger inside a confirmation is one step with its three outcomes; its own row writes are those of the page trigger.
- JobProtocol.StepStop: draining and the forced end of a process are its stop, the ends of its jobs, and its kill.
- DnsRecords.Route53RoundTrips: upper-casing beyond ASCII is left out, which decides no supported type.
- HostNames.AcceptedIsNormal: case folding beyond ASCII is any function that leaves host characters alone.
- SecretConfig.RedactResourceConfig: JSON values other than strings are opaque, so number formatting in a re-encoded config is not compared.
- The version cache and the upgrade runner: no property beyond their fields.
