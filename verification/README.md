# Reefy device services: a verified model

This project models the parts of the Reefy device software whose guarantees hold over
whole runs, and proves those guarantees with Dafny 4.11. The sources are the Python
modules `dataplane.py`, `apply_results.py`, `storage.py`, `artifacts.py` and
`redaction.py` under
`board/reefy/reefy/rootfs-overlay/usr/lib/reefy/reefy/`.
`dafny verify dfyconfig.toml` checks everything.

## What is modelled

**Apply jobs** (`ApplyResults`, `Scheduler`, `SchedulerOvertaking`, `SchedulerAnswers`,
`SchedulerOutcomes`, `Dispatcher`). The result store and the dispatcher are classes with
the fields of the program; the scheduler around them is a step relation over one running
slot, one replaceable pending slot, a condition lock, workers and waiting callers. The
dispatcher's methods are proved to carry out the steps of the relation, and the theorems
are about every run of the relation: one body at a time, submission order, final
outcomes that are those of the bodies, no lost wake-up, and an answer to every accepted
request.

**App projects** (`Services`, `InitServices`, `AppPlan`, `AppProject`, `AppFlags`). The
dependency closure, the depth-first init order over a graph that may have cycles, the
rewriting of Compose files, the fingerprinted init runner, and preparing and starting
one project with required and optional services. How each external command ends is an
arbitrary function of what it is asked to do and of the entry it is issued for, so no
two commands of one deployment are bound to end alike.

**Migration** (`Migration`, `MigrationTrace`, `MigrationWorld`, `MigrationRuns`,
`MigrationPaths`, `MigrationSystem`, `MigrationReports`). The one-time handoff from the
legacy Compose project to one project per app, as a step relation: any command may fail
with any partial effect, apps are reconciled concurrently, the data plane may crash or
the device reboot between any two steps, and a new desired state may be saved between
any two attempts. `MigrationTrace` has the laws on the order of events, `MigrationWorld`
those on files and containers, `MigrationRuns` the theorems over runs, `MigrationPaths`
what an attempt can come to, `MigrationSystem` what is stopped, dropped and offered
back, and `MigrationReports` which apps are reported running or failed.

**Compose output** (`ComposeFailures`, `ComposeLines`, `ComposeMemory`,
`ComposePhrases`, `ComposeRedacted`, `ComposeOutput`). The reader that consumes decoded
output chunk by chunk with bounded memory, against a batch definition on the whole text.

**Storage** (`Alignment`, `LuksSectors`, `VolumeWorld`, `Volumes`, `VolumePasses`,
`VolumeOwners`). Cap arithmetic, the common LUKS sector size, provisioning a batch of
disks, and the per-app volume manager with its boot and reclaim passes, over runs with
reboots and with writes of apps in between. The environment is adversarial: a command
may fail, or take effect and then time out, and an inspection may be unavailable. The
flag `reliable` picks out the runs in which nothing of this happens; there the result is
stated exactly.

**Artifacts** (`BlobDownload`, `Collection`, `Artifacts`, `ArtifactRuns`,
`ArtifactPayload`, `ArtifactProgress`, `ArtifactOverlap`). Downloading one blob, one
garbage collection over the store, and the concurrent protocol of admissions,
activations and collections with its locks, where a process may die at any point: what
is ready is active, what excludes what, and that the locks admit no deadlock.

**Redaction** (`ValueScanner`, `SecretPrefixes`, `PrefixPass`, `Redaction`,
`SecretKeys`, `RedactedValues`). The hand-written scanner for quoted, escaped and
bracketed values, and the pass that hides the values after secret keys.

`Sequences` holds shared vocabulary.

## What was found

Some properties hold only under a condition, which is proved to be the exact one, or are
shown to fail by a concrete case.

- At idle, the last apply begun is not the newest one submitted exactly when a plain
  reconcile was submitted while that newest apply was pending, or no thread could be
  started for it. There is a run of each kind (`SchedulerOvertaking.LastAppliedDiffersIff`,
  `SchedulerOvertaking.NewestApplyMayNeverRun`, `SchedulerOvertaking.NewestApplyMayBeRefused`).
- A rollback all of whose commands succeed can leave a v2 project running beside the
  restored legacy project, when a crashed attempt for an earlier desired state had started
  it. With a legacy Compose file, without which no rollback is clean, it is sure to leave
  none exactly when each v2 project running at the start of the attempt belongs to its
  desired state and has, or gets, a Compose file, and the system project is called
  `reefy-system` (`MigrationPaths.CleanRollbackLeavesNoneIff`,
  `MigrationPaths.CleanRollbackMayLeaveStranger`).
- Removing absent v2 projects spares the system project by one literal name, but a desired
  state may name it otherwise. A committed attempt is sure to leave its system project
  running exactly when that is called `reefy-system`, or there are apps and no legacy
  Compose file, so that no attempt commits
  (`MigrationPaths.SystemSurvivesIffLiteralName`, `MigrationPaths.CommitMayStopSystem`).
- A later collection is sure to remove nothing exactly when no unprotected manifest is
  tied or beaten by three others; four tied ones can lose one. Lease stamps that never tie
  are enough (`Collection.LosesNothingInAnyOrderIff`, `Collection.TiedSurvivorMayBeLost`,
  `Collection.SecondRemovesNothing`).
- Cutting a long line can complete a failure phrase that the line did not contain, so
  the class of the rendered output may be above that of the whole text; it is never
  lower, and is the same exactly when no line, as remembered, shows a higher one
  (`ComposePhrases.TruncationMayAddFailure`, `ComposeMemory.RenderingKeepsFailureIff`).
- A comment in `artifacts.py` calls host activation global, but the activation lock goes
  with the process that took it and the hook does not. Two hooks run at once only if a
  process died under its hook since the boot, and then they can
  (`ArtifactRuns.HooksOverlapOnlyAfterDeath`, `ArtifactRuns.OrphanedHookMayOverlap`,
  `ArtifactOverlap.OverlapIsReachable`).
- The description of `_ensure_volume_lv` says that True means the path is on its
  dedicated volume. That holds except exactly in a call that meets a foreign mount, expects
  no volume, and asks neither for a cap nor for a creation; such a call is answered True
  (`Volumes.VolumeManager.EnsureVolume`).

## Model

The source paths are relative to the root of the repository.

| member | source | states |
|---|---|---|
| `ApplyResults.RankIsPosition` | board/reefy/reefy/rootfs-overlay/usr/lib/reefy/reefy/apply_results.py:191-196 | In the history sorted by update time and id, newest first, the number of newer finished requests is the position. |
| `ApplyResults.ExpiredIsSuffix` | board/reefy/reefy/rootfs-overlay/usr/lib/reefy/reefy/apply_results.py:191-204 | What pruning drops is exactly the part of the sorted history beyond the limit, and as many finished records stay as the limit allows. |
| `ApplyResults.PruneMeaning` | board/reefy/reefy/rootfs-overlay/usr/lib/reefy/reefy/apply_results.py:191-204 | Pruning never touches an unfinished record and changes none that it keeps; every record dropped was updated earlier than every finished one kept, or at the same time with a smaller id; and one is dropped only if as many finished ones as the limit are kept. |
| `ApplyResults.ApplyResultStore.constructor` | board/reefy/reefy/rootfs-overlay/usr/lib/reefy/reefy/apply_results.py:92-109 | A store starts with exactly the readable records of the directory; unreadable ones stay on disk. |
| `ApplyResults.ApplyResultStore.Create` | board/reefy/reefy/rootfs-overlay/usr/lib/reefy/reefy/apply_results.py:134-153 | A record is created, in memory and on disk, exactly when the id is new and the write lands; otherwise nothing changes. |
| `ApplyResults.ApplyResultStore.Update` | board/reefy/reefy/rootfs-overlay/usr/lib/reefy/reefy/apply_results.py:155-173 | The whole new table, with pruning on a final status; it reports whether the write landed, what it kept is on disk as in memory, and what it pruned is off the disk unless the unlink failed. |
| `ApplyResults.ApplyResultStore.Prune` | board/reefy/reefy/rootfs-overlay/usr/lib/reefy/reefy/apply_results.py:191-204 | Memory loses exactly the expired records and the disk those whose unlink worked; at most the limit of finished records is left. |
| `ApplyResults.ApplyResultStore.FailInterrupted` | board/reefy/reefy/rootfs-overlay/usr/lib/reefy/reefy/apply_results.py:180-189 | After a restart every record left is final; those interrupted failed with all else kept, the others are unchanged or expired. |
| `ApplyResults.SortedNewestFirst` | board/reefy/reefy/rootfs-overlay/usr/lib/reefy/reefy/apply_results.py:192-197 | The list holds exactly the finished requests, newest first. |
| `Dispatching.Dispatcher.constructor` | board/reefy/reefy/rootfs-overlay/usr/lib/reefy/reefy/dataplane.py:261-296 | A restart leaves no record queued or running, and an empty scheduler that is an initial state of the step relation. |
| `Dispatching.Dispatcher.Check` | board/reefy/reefy/rootfs-overlay/usr/lib/reefy/reefy/dataplane.py:341-353 | The locked part of a submission up to its record carries out the check step of the relation, whichever state it shows: it sleeps exactly when it waits for idle and a slot is taken, and is accepted exactly when it does not sleep, the id is new and the record is written. |
| `Dispatching.Dispatcher.Enqueue` | board/reefy/reefy/rootfs-overlay/usr/lib/reefy/reefy/dataplane.py:354-376 | Once its record exists, the rest of a submission carries out the submission step of the relation, whichever state it shows; it is refused only if no worker runs and no thread starts. |
| `Dispatching.Dispatcher.Begin` | board/reefy/reefy/rootfs-overlay/usr/lib/reefy/reefy/dataplane.py:378-384 | Marking a job running carries out the begin step of the relation. |
| `Dispatching.Dispatcher.Record` | board/reefy/reefy/rootfs-overlay/usr/lib/reefy/reefy/dataplane.py:415-422 | Recording how a job ended writes exactly that status and that applied flag to its record, if it is kept, and carries out the record step of the relation. |
| `Dispatching.Dispatcher.TakeNext` | board/reefy/reefy/rootfs-overlay/usr/lib/reefy/reefy/dataplane.py:423-430 | Taking the pending job, or leaving both slots empty, carries out the notify-and-take-next step of the relation. |
| `Scheduler.InvKept` | board/reefy/reefy/rootfs-overlay/usr/lib/reefy/reefy/dataplane.py:326-441 | Every step of every thread, in any interleaving, keeps the scheduler invariant. |
| `Scheduler.RunInv` | board/reefy/reefy/rootfs-overlay/usr/lib/reefy/reefy/dataplane.py:326-441 | The invariant holds in every state of every run since a boot. |
| `Scheduler.OneBodyAndLiveRecords` | board/reefy/reefy/rootfs-overlay/usr/lib/reefy/reefy/dataplane.py:326-430 | At most one job body runs; the unfinished records are exactly those of the job being submitted, the pending job and the running job before it records its end. |
| `Scheduler.SubmissionOrder` | board/reefy/reefy/rootfs-overlay/usr/lib/reefy/reefy/dataplane.py:326-430 | Bodies run in submission order; a finished request that was not refused a thread ended superseded exactly when its body never ran; what superseded it is a later submission that did not wait for idle; the newest submission is never superseded. |
| `Scheduler.OutcomeIsFinal` | board/reefy/reefy/rootfs-overlay/usr/lib/reefy/reefy/dataplane.py:378-422 | An outcome never changes in the rest of a run, and the record shows it for as long as it is kept. |
| `Scheduler.FinishedForGood` | board/reefy/reefy/rootfs-overlay/usr/lib/reefy/reefy/dataplane.py:378-422 | A request that was unfinished and no longer is never becomes unfinished again. |
| `Scheduler.LastAppliedIsNewest` | board/reefy/reefy/rootfs-overlay/usr/lib/reefy/reefy/dataplane.py:326-376 | At idle, the last apply begun is the newest one submitted if and only if that one was neither superseded nor refused a thread, and only a plain reconcile can have superseded it. |
| `SchedulerOvertaking.LastAppliedDiffersIff` | board/reefy/reefy/rootfs-overlay/usr/lib/reefy/reefy/dataplane.py:326-376 | At idle, the last apply begun differs from the newest one submitted if and only if some plain reconcile was submitted while that newest apply was pending, or no thread could be started for that newest apply. |
| `SchedulerOvertaking.NewestApplyMayNeverRun` | board/reefy/reefy/rootfs-overlay/usr/lib/reefy/reefy/dataplane.py:370-374 | A concrete run of two applies and a plain reconcile that is idle again with the second apply never begun. |
| `SchedulerOvertaking.NewestApplyMayBeRefused` | board/reefy/reefy/rootfs-overlay/usr/lib/reefy/reefy/dataplane.py:354-369 | A concrete run of one apply for which no thread starts: idle, with no apply ever begun and none superseded. |
| `Scheduler.NoLostWakeUp` | board/reefy/reefy/rootfs-overlay/usr/lib/reefy/reefy/dataplane.py:378-441 | Whenever a caller sleeps on a record that is finished or pruned, a worker is about to notify. |
| `Scheduler.IdleWaitersAreOwedANotify` | board/reefy/reefy/rootfs-overlay/usr/lib/reefy/reefy/dataplane.py:339-342 | A submission that sleeps until the scheduler is idle always has a worker before it, which will notify. |
| `Scheduler.WorkersAdvance` | board/reefy/reefy/rootfs-overlay/usr/lib/reefy/reefy/dataplane.py:378-430 | No other thread pushes an unfinished request back, and each worker step brings it strictly closer to its end, of which it is never more than eight steps away. |
| `Scheduler.WorkersFinish` | board/reefy/reefy/rootfs-overlay/usr/lib/reefy/reefy/dataplane.py:378-430 | However other threads interleave, nine worker steps finish every request unfinished before them. |
| `Scheduler.WaitReturns` | board/reefy/reefy/rootfs-overlay/usr/lib/reefy/reefy/dataplane.py:435-441 | A caller that looks at a finished or pruned record returns at once, with nothing if it was pruned and else with its final outcome. |
| `Scheduler.SleepersAreServed` | board/reefy/reefy/rootfs-overlay/usr/lib/reefy/reefy/dataplane.py:343-441 | While anyone sleeps there is an enabled step of a worker, or one by which the holder of the lock releases it. |
| `SchedulerAnswers.SleepsNoLonger` | board/reefy/reefy/rootfs-overlay/usr/lib/reefy/reefy/dataplane.py:378-441 | A caller sleeps on only while its request is unfinished, or for the one worker step that owes it a notify. |
| `SchedulerAnswers.AcceptedWaitReturns` | board/reefy/reefy/rootfs-overlay/usr/lib/reefy/reefy/dataplane.py:343-441 | Ten worker steps after a caller began to wait for an unfinished request, or once no work is left, in any interleaving: the request is finished and the caller awake for good, and when it looks it returns with the final outcome, or with nothing if the record was pruned. |
| `SchedulerAnswers.RestIsIdle` | board/reefy/reefy/rootfs-overlay/usr/lib/reefy/reefy/dataplane.py:339-441 | Once no work is left both slots are empty, every request is finished, and no submission sleeps. |
| `SchedulerAnswers.IdleWaitersGetThrough` | board/reefy/reefy/rootfs-overlay/usr/lib/reefy/reefy/dataplane.py:339-353 | While nothing more is submitted there are at most twelve worker steps, and until no work is left one of them or the release of the lock is possible; no work left stays so, nobody sleeps any more, and a submission that waited for idle does not wait at its next look: it is accepted if and only if its id is new and its record is written. |
| `Services.ServiceClosure` | board/reefy/reefy/rootfs-overlay/usr/lib/reefy/reefy/dataplane.py:1720-1733 | The result is the set of services reachable from the roots through dependency chains of admissible services; the loop terminates on every graph. |
| `Services.ClosureHoldsRoots` | board/reefy/reefy/rootfs-overlay/usr/lib/reefy/reefy/dataplane.py:1720-1733 | A closure holds its admissible roots, none of the excluded services, and with a service every admissible dependency. |
| `Services.ComposeWithoutServices` | board/reefy/reefy/rootfs-overlay/usr/lib/reefy/reefy/dataplane.py:1735-1758 | The copy is the Compose file without these services and without every reference to them, and well-formed again. |
| `Services.WithoutComposes` | board/reefy/reefy/rootfs-overlay/usr/lib/reefy/reefy/dataplane.py:1735-1758 | Removing two sets of services one after the other is removing their union, dropped `depends_on` keys included. |
| `Services.WithoutMeaning` | board/reefy/reefy/rootfs-overlay/usr/lib/reefy/reefy/dataplane.py:1735-1758 | What is left is the other services, each unchanged but for exactly the removed dependencies, the others in their order, in the same form and with their conditions; without any dependency left the key is gone. |
| `Services.InitSearch.Visit` | board/reefy/reefy/rootfs-overlay/usr/lib/reefy/reefy/dataplane.py:1799-1810 | A visit extends the visited set and the order, restores what is being visited, and leaves a pending service visited or being visited; it terminates on cyclic graphs. |
| `Services.InitSearch.Leave` | board/reefy/reefy/rootfs-overlay/usr/lib/reefy/reefy/dataplane.py:1807-1810 | A service whose dependencies have been seen is appended, keeping every one in the order either after its dependencies or on a cycle with them. |
| `Services.OrderedPendingInitServices` | board/reefy/reefy/rootfs-overlay/usr/lib/reefy/reefy/dataplane.py:1786-1814 | For every graph, the order is a permutation of the pending init services, and a direct pending dependency not placed before its dependent lies on a cycle with it. |
| `Services.AcyclicOrderIsTopological` | board/reefy/reefy/rootfs-overlay/usr/lib/reefy/reefy/dataplane.py:1786-1814 | On an acyclic pending graph the order is topological. |
| `Services.CycleDefeatsEveryOrder` | board/reefy/reefy/rootfs-overlay/usr/lib/reefy/reefy/dataplane.py:1786-1814 | Where a dependency lies on a cycle no order at all can place every dependency first, so the exception cannot be avoided. |
| `Services.WalkDescends` | board/reefy/reefy/rootfs-overlay/usr/lib/reefy/reefy/dataplane.py:1786-1814 | If dependencies always come first, a walk ends no later in the order than it starts. |
| `InitServices.InitRunner.Run` | board/reefy/reefy/rootfs-overlay/usr/lib/reefy/reefy/dataplane.py:1830-1893 | The runs are a prefix of an init order, each with the Compose file that lacks what was completed, skipped or handled before; records, failures and the blocking service are exactly determined by how the runs end; it succeeds if and only if every pending service does or is tolerated. |
| `InitServices.InitRunner.RunOrdered` | board/reefy/reefy/rootfs-overlay/usr/lib/reefy/reefy/dataplane.py:1852-1893 | The loop, over an order already computed and a Compose file already reduced. |
| `InitServices.RunHasNoInitDependency` | board/reefy/reefy/rootfs-overlay/usr/lib/reefy/reefy/dataplane.py:1847-1893 | On an acyclic pending graph, the Compose file of each run holds the service and gives it no direct dependency on an init service. |
| `InitServices.RunCall` | board/reefy/reefy/rootfs-overlay/usr/lib/reefy/reefy/dataplane.py:1760-1893 | One call runs exactly the init services that are due, those not skipped whose recorded fingerprint is missing or that of another definition, unless a failure that is not tolerated ends it, which is exactly when it does not succeed; it records each success and leaves every other record alone. |
| `InitServices.RunCalls` | board/reefy/reefy/rootfs-overlay/usr/lib/reefy/reefy/dataplane.py:1760-1893 | Over any number of calls, a success is never run again as long as the definition of that service stays the same, however the rest of the Compose files changes in between. |
| `AppPlan.AppProjectPlan` | board/reefy/reefy/rootfs-overlay/usr/lib/reefy/reefy/dataplane.py:1895-1960 | A plan exists exactly when the primary service is a required runtime service, and then its parts are the closures and selections that the design names. |
| `AppPlan.PlanPartitions` | board/reefy/reefy/rootfs-overlay/usr/lib/reefy/reefy/dataplane.py:1895-1960 | Whenever a plan exists, completed init services, required services and optional entries partition the services, and no entry repeats. |
| `AppPlan.PlanIsOrdered` | board/reefy/reefy/rootfs-overlay/usr/lib/reefy/reefy/dataplane.py:1925-1951 | No runtime entry of a plan depends on an entry listed with or after it, and every entry belongs to its own services. |
| `AppPlan.RequiredIgnoresOptional` | board/reefy/reefy/rootfs-overlay/usr/lib/reefy/reefy/dataplane.py:1895-1924 | Dropping any services outside the required ones from the Compose file leaves the required ones as they were. |
| `AppProject.OutcomeIgnoresOptional` | board/reefy/reefy/rootfs-overlay/usr/lib/reefy/reefy/dataplane.py:2049-2307 | The overall outcome does not depend on which optional services the Compose file carries. |
| `AppProject.AppProject.Prepare` | board/reefy/reefy/rootfs-overlay/usr/lib/reefy/reefy/dataplane.py:2049-2171 | Preparation succeeds if and only if there is a plan, no required failure stands unforced and the required images can be pulled; a failed pull leaves the required marker, a refusal changes nothing; every failed optional entry has a marker that stands. |
| `AppProject.AppProject.PrepareOptional` | board/reefy/reefy/rootfs-overlay/usr/lib/reefy/reefy/dataplane.py:2106-2156 | An entry is ready if and only if no failure of it stands, every init service it needs is required or ready, and its images can be pulled; each entry has its context, each new failure its marker, and no other marker changes. |
| `AppProject.AppProject.PrepareEntry` | board/reefy/reefy/rootfs-overlay/usr/lib/reefy/reefy/dataplane.py:2109-2156 | The same for one entry, against the entries ready so far. |
| `AppProject.AppProject.Start` | board/reefy/reefy/rootfs-overlay/usr/lib/reefy/reefy/dataplane.py:2173-2307 | It succeeds if and only if every required init service is completed or succeeds and the required services start; the required marker is then gone and else present. After a success the optional services reported failed are exactly those whose marker remains, and exactly those that failed with no later success bringing them up. |
| `AppProject.AppProject.RunInits` | board/reefy/reefy/rootfs-overlay/usr/lib/reefy/reefy/dataplane.py:2184-2197 | The init services left out are the optional ones that are not ready; the optional ones reported failed are exactly the pending ones whose run fails. |
| `AppProject.AppProject.ReportInits` | board/reefy/reefy/rootfs-overlay/usr/lib/reefy/reefy/dataplane.py:2198-2210 | Every optional init failure has a standing marker, and an entry that ran has none. |
| `AppProject.AppProject.ReportStarved` | board/reefy/reefy/rootfs-overlay/usr/lib/reefy/reefy/dataplane.py:2223-2238 | Exactly the optional runtime services that miss an init service fail, with a marker; a marker left belongs to a failure or to a service still to be started. |
| `AppProject.AppProject.StartRuntime` | board/reefy/reefy/rootfs-overlay/usr/lib/reefy/reefy/dataplane.py:2240-2307 | The required services decide; the required marker follows them, and the optional services are then settled as for Start. |
| `AppProject.AppProject.StartOptional` | board/reefy/reefy/rootfs-overlay/usr/lib/reefy/reefy/dataplane.py:2266-2292 | A service ends failed if and only if a failure of it comes after every success that brings it up, and if and only if its marker remains. |
| `AppProject.AppProject.TryStart` | board/reefy/reefy/rootfs-overlay/usr/lib/reefy/reefy/dataplane.py:2266-2292 | One start: a success clears every service it brings up, a failure marks its own, nothing else changes. |
| `AppProject.AppProject.Deploy` | board/reefy/reefy/rootfs-overlay/usr/lib/reefy/reefy/dataplane.py:2309-2321 | Prepare and start together succeed if and only if a condition on the required services alone holds; whatever optional services do, markers and reported failures agree. |
| `AppProject.DeployBoth` | board/reefy/reefy/rootfs-overlay/usr/lib/reefy/reefy/dataplane.py:2049-2307 | Two deployments whose commands agree on the required services succeed or fail together. |
| `AppProject.DeployAgain` | board/reefy/reefy/rootfs-overlay/usr/lib/reefy/reefy/dataplane.py:1981-2000 | After a failed deployment a further one with the same Compose file fails as well, however its commands would end and even if some init services completed meanwhile; after a success no required marker is left. |
| `AppProject.RequiredNotEmpty` | board/reefy/reefy/rootfs-overlay/usr/lib/reefy/reefy/dataplane.py:1913-1919 | The primary service of a plan is among the required services, so a written marker never lists none. |
| `MigrationWorld.FilesKept` | board/reefy/reefy/rootfs-overlay/usr/lib/reefy/reefy/dataplane.py:1173-1458 | Each step keeps the invariant on state files, Compose files and marker, and these only move forward. |
| `MigrationTrace.TraceKept` | board/reefy/reefy/rootfs-overlay/usr/lib/reefy/reefy/dataplane.py:1173-1458 | Each step keeps every law of the trace for the desired state of the attempt, and what each phase has established. |
| `MigrationWorld.ContainersKept` | board/reefy/reefy/rootfs-overlay/usr/lib/reefy/reefy/dataplane.py:1376-1458 | Each step keeps what is known of running legacy services and v2 projects, those of other desired states included, for any partial effect of the commands. |
| `MigrationRuns.RunInv` | board/reefy/reefy/rootfs-overlay/usr/lib/reefy/reefy/dataplane.py:1173-1458 | All of it holds in every state of every run: any number of attempts, each for the desired state saved last, with crashes and reboots at any step, after a reboot with any containers running. |
| `MigrationRuns.FilesMoveForward` | board/reefy/reefy/rootfs-overlay/usr/lib/reefy/reefy/dataplane.py:2769-2800 | Over a run the marker and the v2 state never disappear. |
| `MigrationRuns.LegacyFilesSurviveUntilMarker` | board/reefy/reefy/rootfs-overlay/usr/lib/reefy/reefy/dataplane.py:2769-2800 | From the first v2 state until the marker is written, v1 state and legacy Compose file never change, whatever commands fail and whatever v2 states follow. |
| `MigrationRuns.CommittedForGood` | board/reefy/reefy/rootfs-overlay/usr/lib/reefy/reefy/dataplane.py:909-915 | Once the marker is written no attempt is ever pending again and no v1 state is accepted. |
| `MigrationRuns.MarkerAfterEverything` | board/reefy/reefy/rootfs-overlay/usr/lib/reefy/reefy/dataplane.py:2775-2800 | The marker is written only in an attempt that prepared and started the system project, reconciled every app of its own desired state after its legacy stop, and took the legacy project down if there was one. |
| `MigrationRuns.EveryAttemptIsLawful` | board/reefy/reefy/rootfs-overlay/usr/lib/reefy/reefy/dataplane.py:1173-1374 | At every moment of every attempt, for its own desired state: nothing of the legacy project is stopped, removed or taken down before all preflights succeeded; an app starts only after its own legacy stop; running health is reported only once the outcome is fixed, once an app, and not for one listed as failed. |
| `MigrationRuns.AttemptsEndSettled` | board/reefy/reefy/rootfs-overlay/usr/lib/reefy/reefy/dataplane.py:1206-1458 | An attempt that returns committed with its apps in place, or left everything running as it was, or rolled back, cleanly if and only if the trace shows the legacy `up` and no failed rollback command; of other v2 projects only those run that ran when it began. |
| `MigrationRuns.CommittedRunsWanted` | board/reefy/reefy/rootfs-overlay/usr/lib/reefy/reefy/dataplane.py:1206-1374 | With the usual system name and no other v2 project at the start, a committed attempt leaves exactly the wanted projects running. |
| `MigrationRuns.CleanRollbackRestores` | board/reefy/reefy/rootfs-overlay/usr/lib/reefy/reefy/dataplane.py:1421-1458 | When the legacy `up` and every other command of the rollback succeeded, the whole legacy project is up, and no v2 project runs if the attempt began in a world it can clean up. |
| `MigrationPaths.CleanRollbackLeavesNoneIff` | board/reefy/reefy/rootfs-overlay/usr/lib/reefy/reefy/dataplane.py:1376-1458 | From every reachable state in which an attempt may begin: every clean rollback leaves no v2 project running if and only if there is no legacy Compose file (then none is clean), or each v2 project running at the start belongs to the desired state and has, or gets, a Compose file, and the system project is called `reefy-system`. |
| `MigrationPaths.CleanRollbackMayLeaveStranger` | board/reefy/reefy/rootfs-overlay/usr/lib/reefy/reefy/dataplane.py:1421-1458 | A concrete run: an attempt crashes with the project of an app up, a desired state without that app is saved, and the next attempt rolls back with every command succeeding while that project still runs. |
| `MigrationPaths.CommitMayStopSystem` | board/reefy/reefy/rootfs-overlay/usr/lib/reefy/reefy/dataplane.py:2802-2816 | A concrete run that commits with no system project running, when that has another name. |
| `MigrationPaths.HandoffCanBegin` | board/reefy/reefy/rootfs-overlay/usr/lib/reefy/reefy/dataplane.py:1206-1280 | From every state in which an attempt may begin it can reach its handoff with nothing stopped yet and exactly the Compose files of its own projects written. |
| `MigrationPaths.RollbackCanSucceed` | board/reefy/reefy/rootfs-overlay/usr/lib/reefy/reefy/dataplane.py:1421-1458 | From every handoff failure there is a rollback all of whose commands succeed, and it stops exactly the projects whose Compose files it finds. |
| `MigrationRuns.CommittedAppsReportedOnce` | board/reefy/reefy/rootfs-overlay/usr/lib/reefy/reefy/dataplane.py:1155-1171 | After a commit every app desired running is reported running exactly once. |
| `MigrationRuns.SecondReportForbidden` | board/reefy/reefy/rootfs-overlay/usr/lib/reefy/reefy/dataplane.py:1140-1171 | The laws of the trace exclude a second running report of an app. |
| `MigrationPaths.SystemSurvivesIffLiteralName` | board/reefy/reefy/rootfs-overlay/usr/lib/reefy/reefy/dataplane.py:2802-2816 | From every reachable state in which an attempt may begin: every committed attempt leaves its system project running if and only if the project is called `reefy-system`, or there are apps and no legacy Compose file (then none commits). |
| `MigrationPaths.NeverCommits` | board/reefy/reefy/rootfs-overlay/usr/lib/reefy/reefy/dataplane.py:1206-1374 | Without a legacy Compose file an attempt with apps never commits. |
| `ComposeFailures.Classify` | board/reefy/reefy/rootfs-overlay/usr/lib/reefy/reefy/dataplane.py:4055-4087 | The class is shown by the output unless it is the transient one, and no class of higher priority is shown. |
| `ComposeFailures.CanonicalShows` | board/reefy/reefy/rootfs-overlay/usr/lib/reefy/reefy/dataplane.py:2564-2568 | A canonical phrase that shows its class and no higher one is classified as that class. |
| `ComposeFailures.PartShows` | board/reefy/reefy/rootfs-overlay/usr/lib/reefy/reefy/dataplane.py:4055-4087 | What a part of a text shows, the text shows. |
| `ComposePhrases.DockerPhrasesAreGood` | board/reefy/reefy/rootfs-overlay/usr/lib/reefy/reefy/dataplane.py:4064-4087 | The phrases of the program meet all that the results on output memory ask of a phrase list, scan window included. |
| `ComposePhrases.TruncationMayAddFailure` | board/reefy/reefy/rootfs-overlay/usr/lib/reefy/reefy/dataplane.py:2596-2604 | A concrete line that shows no failure shows one once truncated, so equality of classes needs unaltered lines. |
| `ComposeLines.ReadOn` | board/reefy/reefy/rootfs-overlay/usr/lib/reefy/reefy/dataplane.py:2609-2640 | Reading a text and then another gives the lines and the remainder of reading both at once. |
| `ComposeLines.ReadToBreak` | board/reefy/reefy/rootfs-overlay/usr/lib/reefy/reefy/dataplane.py:2583-2590 | The first break of a text ends its first line. |
| `ComposeLines.LinesRebuildText` | board/reefy/reefy/rootfs-overlay/usr/lib/reefy/reefy/dataplane.py:2609-2640 | The lines, with the breaks that ended them and the remainder, are the text itself. |
| `ComposeLines.LinesInText` | board/reefy/reefy/rootfs-overlay/usr/lib/reefy/reefy/dataplane.py:2609-2640 | Each line stands in the text and holds no break. |
| `ComposeLines.LineBoundary` | board/reefy/reefy/rootfs-overlay/usr/lib/reefy/reefy/dataplane.py:2583-2590 | The position of the first newline or carriage return, or -1 if there is none. |
| `ComposeMemory.ScanSees` | board/reefy/reefy/rootfs-overlay/usr/lib/reefy/reefy/dataplane.py:2570-2581 | A failure shown by the whole text is shown by the text before a chunk or by the scan of that chunk with the last 128 characters. |
| `ComposeMemory.ReplayOk` | board/reefy/reefy/rootfs-overlay/usr/lib/reefy/reefy/dataplane.py:2546-2606 | Whatever was read, in whatever chunks, each recorded signal is honest and every failure the text shows has one at least as high. |
| `ComposeMemory.RenderingHidesNoFailure` | board/reefy/reefy/rootfs-overlay/usr/lib/reefy/reefy/dataplane.py:2600-2606 | The rendering has a failure class at least as high as the whole text, whatever was truncated, redacted or dropped. |
| `ComposeMemory.RenderingKeepsFailureIff` | board/reefy/reefy/rootfs-overlay/usr/lib/reefy/reefy/dataplane.py:2591-2606 | The rendering has exactly the class of the whole text if and only if no line, as it is remembered, shows a higher class. |
| `ComposeMemory.UnalteredRaisesNone` | board/reefy/reefy/rootfs-overlay/usr/lib/reefy/reefy/dataplane.py:2591-2600 | A line that was neither truncated nor redacted never shows a class above that of the text. |
| `ComposeMemory.RenderingIsFaithful` | board/reefy/reefy/rootfs-overlay/usr/lib/reefy/reefy/dataplane.py:2546-2646 | The tail equals the last lines of the batch definition; the rendering never has a lower class than the text, and the same one if and only if no remembered line shows a higher one. |
| `ComposeMemory.MemoryIsBounded` | board/reefy/reefy/rootfs-overlay/usr/lib/reefy/reefy/dataplane.py:2546-2562 | The scan window is the last 128 characters read; at most 200 tail lines of at most 4012 characters and three signals are kept, however much was read. |
| `ComposeOutput.OutputReader.Record` | board/reefy/reefy/rootfs-overlay/usr/lib/reefy/reefy/dataplane.py:2570-2581 | A class is recorded the first time it is seen, with the line it was seen in. |
| `ComposeOutput.OutputReader.ScanFailureSignals` | board/reefy/reefy/rootfs-overlay/usr/lib/reefy/reefy/dataplane.py:2570-2581 | The memory after a chunk is that of the specification, over raw text across chunk borders. |
| `ComposeOutput.OutputReader.Remember` | board/reefy/reefy/rootfs-overlay/usr/lib/reefy/reefy/dataplane.py:2591-2600 | A finished line, cut if it is too long, is redacted before anything is kept: what redaction leaves of it, cut again if need be, joins the tail and is recorded if it is the first to show its class; if nothing is left, nothing is kept. |
| `ComposeOutput.OutputReader.Extend` | board/reefy/reefy/rootfs-overlay/usr/lib/reefy/reefy/dataplane.py:2618-2640 | The unfinished line grows by the segment, of which only what fits the bound is kept. |
| `ComposeOutput.OutputReader.EndLine` | board/reefy/reefy/rootfs-overlay/usr/lib/reefy/reefy/dataplane.py:2618-2646 | Exactly the unfinished line is remembered, and the next one begins empty. |
| `ComposeOutput.OutputReader.TakeLine` | board/reefy/reefy/rootfs-overlay/usr/lib/reefy/reefy/dataplane.py:2616-2640 | Taking a line at a break leaves the total of lines and the remainder unchanged, and less text to read. |
| `ComposeOutput.OutputReader.ReadLines` | board/reefy/reefy/rootfs-overlay/usr/lib/reefy/reefy/dataplane.py:2616-2640 | A chunk adds exactly the lines it completes, and the rest of it to the unfinished line. |
| `ComposeOutput.OutputReader.Consume` | board/reefy/reefy/rootfs-overlay/usr/lib/reefy/reefy/dataplane.py:2609-2646 | The text read grows by the chunk, and after the final one the lines are those of the whole text. |
| `ComposeOutput.OutputReader.RenderedOutput` | board/reefy/reefy/rootfs-overlay/usr/lib/reefy/reefy/dataplane.py:2600-2606 | The output is the signals whose line left the tail, then the tail. |
| `ComposeOutput.ReadAll` | board/reefy/reefy/rootfs-overlay/usr/lib/reefy/reefy/dataplane.py:2546-2646 | A reader fed all chunks holds the lines of their concatenation. |
| `ComposeOutput.ReadOutput` | board/reefy/reefy/rootfs-overlay/usr/lib/reefy/reefy/dataplane.py:2546-2646 | Streaming equals batch: for every split into chunks the tail is that of the whole text, the output never has a lower failure class than the text, and has the same one if and only if no line, as remembered, shows a higher one, which takes an altered line; every line of the tail is a redacted line of the text, in order, and every other line of the output is one as well or the phrase of its failure. |
| `Alignment.MultiplesOfLcm` | board/reefy/reefy/rootfs-overlay/usr/lib/reefy/reefy/storage.py:1101-1103 | The common multiples of sector and extent size are exactly the multiples of their least common multiple. |
| `Alignment.CappedSizeIsGreatest` | board/reefy/reefy/rootfs-overlay/usr/lib/reefy/reefy/storage.py:1084-1106 | The capped size is positive, within the pool and the share, a multiple of sector and extent size, and the greatest such size. |
| `Alignment.CapRejectedIff` | board/reefy/reefy/rootfs-overlay/usr/lib/reefy/reefy/storage.py:1084-1106 | A cap is rejected if and only if an input is out of bounds or the share is below the least common multiple. |
| `Alignment.CapIsMonotone` | board/reefy/reefy/rootfs-overlay/usr/lib/reefy/reefy/storage.py:1084-1106 | A larger pool or percentage never gives a smaller cap, nor a rejected one. |
| `Alignment.CapSurvivesExtentRounding` | board/reefy/reefy/rootfs-overlay/usr/lib/reefy/reefy/storage.py:1166-1183 | Rounding to whole extents leaves a capped size as it is. |
| `LuksSectors.ChooseLuksSectorSize` | board/reefy/reefy/rootfs-overlay/usr/lib/reefy/reefy/storage.py:142-170 | The choice is the largest sector size of 512 to 4096 that fits every disk and the required size, and is missing exactly when there is none. |
| `LuksSectors.ChoiceIsUnique` | board/reefy/reefy/rootfs-overlay/usr/lib/reefy/reefy/storage.py:142-170 | There is only one such choice. |
| `LuksSectors.FitsIffBetween` | board/reefy/reefy/rootfs-overlay/usr/lib/reefy/reefy/storage.py:142-170 | For sane disks a sector size fits if and only if it lies between the largest logical and the smallest physical sector and divides every size. |
| `LuksSectors.PowerDivides` | board/reefy/reefy/rootfs-overlay/usr/lib/reefy/reefy/storage.py:103-105 | Of two powers of two the smaller divides the larger. |
| `LuksSectors.AddingDiskNeverGrows` | board/reefy/reefy/rootfs-overlay/usr/lib/reefy/reefy/storage.py:142-170 | One more disk never makes the common sector size larger, nor possible where it was not. |
| `LuksSectors.LuksStack.Preflight` | board/reefy/reefy/rootfs-overlay/usr/lib/reefy/reefy/storage.py:172-199 | A batch passes with a sector size if and only if its devices are distinct, present and sane and that size is the choice for them. |
| `LuksSectors.LuksStack.ProvisionTarget` | board/reefy/reefy/rootfs-overlay/usr/lib/reefy/reefy/storage.py:258-316 | A target is wiped, formatted with the sector size and opened, in this order, or breaks off at a known place. |
| `LuksSectors.LuksStack.CloseAll` | board/reefy/reefy/rootfs-overlay/usr/lib/reefy/reefy/storage.py:317-330 | Every mapper opened here is closed, last first. |
| `LuksSectors.LuksStack.ProvisionTargets` | board/reefy/reefy/rootfs-overlay/usr/lib/reefy/reefy/storage.py:258-333 | All targets are provisioned in order, or the first failure ends it with exactly the mappers opened so far closed again. |
| `LuksSectors.LuksStack.ProvisionLuksStack` | board/reefy/reefy/rootfs-overlay/usr/lib/reefy/reefy/storage.py:228-333 | Nothing is wiped, formatted or written before the whole batch has passed the preflight; the key comes before the first wipe, and every target gets the one chosen sector size. |
| `VolumeWorld.NearKeeps` | board/reefy/reefy/rootfs-overlay/usr/lib/reefy/reefy/storage.py:1329-1572 | If only one volume and one path changed, and these kept their data and visible files, nothing was destroyed or hidden. |
| `VolumeWorld.KeptTrans` | board/reefy/reefy/rootfs-overlay/usr/lib/reefy/reefy/storage.py:1329-1572 | Keeping everything composes over steps. |
| `Volumes.VolumeManager.RememberOwnedVolume` | board/reefy/reefy/rootfs-overlay/usr/lib/reefy/reefy/storage.py:1052-1082 | Success means that the volume is tagged as managed and as that of the app in the path; no other tag is added, and none to another volume. |
| `Volumes.VolumeManager.PreserveOwnedVolumeFallback` | board/reefy/reefy/rootfs-overlay/usr/lib/reefy/reefy/storage.py:937-992 | Files at the mount point are untouched or lie whole under a new recovery name; it reports success only for an owned volume with containers stopped, leaving an empty mount point. |
| `Volumes.VolumeManager.RemoveNewVolume` | board/reefy/reefy/rootfs-overlay/usr/lib/reefy/reefy/storage.py:1185-1210 | At most this volume goes, and it is reported gone only when the metadata says so. |
| `Volumes.VolumeManager.GiveUpNewVolume` | board/reefy/reefy/rootfs-overlay/usr/lib/reefy/reefy/storage.py:1212-1216 | The caller may fall back only when the new volume is certainly gone and the world is as it was. |
| `Volumes.VolumeManager.CreateVolume` | board/reefy/reefy/rootfs-overlay/usr/lib/reefy/reefy/storage.py:1473-1523 | A new volume is added, formatted and within its cap, or the world is as before, or the volume left over is reported as unavailable. |
| `Volumes.VolumeManager.RemoveMountedNewVolume` | board/reefy/reefy/rootfs-overlay/usr/lib/reefy/reefy/storage.py:1252-1281 | A volume is reported gone only when it is unmounted and off the metadata. |
| `Volumes.VolumeManager.ResolveNewVolumeMountFailure` | board/reefy/reefy/rootfs-overlay/usr/lib/reefy/reefy/storage.py:1283-1306 | After a failed mount the volume is mounted and tagged after all, or gone, or reported unavailable. |
| `Volumes.VolumeManager.TryMount` | board/reefy/reefy/rootfs-overlay/usr/lib/reefy/reefy/storage.py:1524-1533 | A mount that reports success put the own volume at the path, and no volume changed. |
| `Volumes.VolumeManager.MountNewVolume` | board/reefy/reefy/rootfs-overlay/usr/lib/reefy/reefy/storage.py:1524-1567 | A new volume ends mounted and tagged, or gone, or reported unavailable. |
| `Volumes.VolumeManager.MountExistingVolume` | board/reefy/reefy/rootfs-overlay/usr/lib/reefy/reefy/storage.py:1524-1572 | An existing volume is never removed and keeps its data; it ends mounted or is reported unavailable. |
| `Volumes.VolumeManager.CheckMounted` | board/reefy/reefy/rootfs-overlay/usr/lib/reefy/reefy/storage.py:1374-1408 | The own volume only gains tags, and True means that it is within its cap; anything else is left alone, and answered True only if no volume was expected and neither a cap nor a creation asked for. |
| `Volumes.VolumeManager.NewVolume` | board/reefy/reefy/rootfs-overlay/usr/lib/reefy/reefy/storage.py:1455-1523 | It succeeds only with a tagged, formatted, mounted volume within its cap; otherwise the set of volumes is as at entry unless it is reported unavailable. |
| `Volumes.VolumeManager.ExistingVolume` | board/reefy/reefy/rootfs-overlay/usr/lib/reefy/reefy/storage.py:1458-1471 | The set of volumes stays; success means mounted and within the cap. |
| `Volumes.VolumeManager.PrepareUnmounted` | board/reefy/reefy/rootfs-overlay/usr/lib/reefy/reefy/storage.py:1419-1572 | Nothing is destroyed or hidden on any path through the unmounted case, and only this volume and path are touched. |
| `Volumes.VolumeManager.RecoverThenMount` | board/reefy/reefy/rootfs-overlay/usr/lib/reefy/reefy/storage.py:1438-1449 | A non-empty mount point is never mounted over: its files are set aside first or the volume is reported unavailable. |
| `Volumes.VolumeManager.EnsureVolume` | board/reefy/reefy/rootfs-overlay/usr/lib/reefy/reefy/storage.py:1329-1572 | For every behaviour of the environment: no volume that existed is created over, formatted or removed, and no visible file is hidden; files are set aside only where that is asked for, containers are stopped and the app owns the volume; on False or an error other than an unavailable volume the set of volumes is as at entry; where a volume is expected any answer means that the path is on it; True means the own volume mounted, within its percentage of the pool and, if new, tagged as managed and for the app in the path, except exactly in a call that neither expects a volume nor asks for a cap or a creation and meets a foreign mount, where it means that nothing was touched; a reliable environment always answers that call True, and gives exactly the expected result in every other. |
| `Volumes.EffectTrans` | board/reefy/reefy/rootfs-overlay/usr/lib/reefy/reefy/storage.py:1438-1572 | The effect of preparing a volume composes. |
| `Volumes.SetAsideEffect` | board/reefy/reefy/rootfs-overlay/usr/lib/reefy/reefy/storage.py:937-992 | Setting files aside hides and destroys nothing. |
| `Volumes.NewVolumeEffect` | board/reefy/reefy/rootfs-overlay/usr/lib/reefy/reefy/storage.py:1473-1567 | Adding a volume and mounting it at an empty path hides and destroys nothing, and if it is gone again the set of volumes is as before. |
| `VolumePasses.DedicatedVolumeMountStatus` | board/reefy/reefy/rootfs-overlay/usr/lib/reefy/reefy/storage.py:1308-1327 | It is affirmative only when the own volume is mounted at the path. |
| `VolumePasses.PrepareAtBoot` | board/reefy/reefy/rootfs-overlay/usr/lib/reefy/reefy/storage.py:1639-1662 | The turn of one path touches only its volume and path and creates only where that is allowed; a backup path, or one whose volume was there before, is on its own volume unless it is noted as failed. |
| `VolumePasses.BootMount` | board/reefy/reefy/rootfs-overlay/usr/lib/reefy/reefy/storage.py:1574-1668 | Nothing is destroyed or hidden; new volumes belong to managed paths and need an inventory; every path whose volume the inventory lists, and with a thin pool every backup path, is on its own volume or noted as failed; and in a reliable environment every managed path with nothing in its way, or only files that can be set aside, is not noted and on its own volume, whatever became of the others. |
| `VolumePasses.AdoptVolumes` | board/reefy/reefy/rootfs-overlay/usr/lib/reefy/reefy/storage.py:1697-1740 | Only ownership tags of known paths are added, and all of them when the commands succeed. |
| `VolumePasses.ReclaimVolume` | board/reefy/reefy/rootfs-overlay/usr/lib/reefy/reefy/storage.py:1755-1803 | Only this volume and its mounts may go; a reliable environment removes it. |
| `VolumePasses.SweepOrphans` | board/reefy/reefy/rootfs-overlay/usr/lib/reefy/reefy/storage.py:1741-1803 | Only orphans of the given state are unmounted or removed, and all of them when every command succeeds. |
| `VolumePasses.ReclaimDeletedVolumes` | board/reefy/reefy/rootfs-overlay/usr/lib/reefy/reefy/storage.py:1670-1803 | A pass touches no file, and no volume that has an owner in its state or, once known paths are adopted, still lacks Reefy's tags; what it tried and failed to remove still is an orphan by its tags; a pass whose commands all succeed leaves no orphan. |
| `VolumePasses.LiveVolumeSurvives` | board/reefy/reefy/rootfs-overlay/usr/lib/reefy/reefy/storage.py:1574-1803 | Over every run of ensure, boot and reclaim with reboots and writes of apps in between, a volume keeps its tags and every file on it while one of its owners is in every state given to reclaim; `VolumeOwners.AppKeepsItsVolume` says so by the app of a path. |
| `VolumePasses.LostOnlyToReclaim` | board/reefy/reefy/rootfs-overlay/usr/lib/reefy/reefy/storage.py:1574-1803 | A volume gone after such a run was removed by a reclaim pass in whose state it had no owner, and it carried Reefy's tags, if only by the adoption of that pass. |
| `VolumePasses.FilesSurvive` | board/reefy/reefy/rootfs-overlay/usr/lib/reefy/reefy/storage.py:1574-1803 | Over every such run, files in an app directory stay there, no more hidden by a mount than they were, or lie together in the recovery area. |
| `VolumePasses.FailedRemovalStaysEligible` | board/reefy/reefy/rootfs-overlay/usr/lib/reefy/reefy/storage.py:1755-1803 | A volume that a pass tried and failed to remove, the pass that adopted it included, is an orphan for every later state without an owner of it, and a later pass whose commands succeed removes it unless an owner is back in its state. |
| `BlobDownload.Destination.Fetch` | board/reefy/reefy/rootfs-overlay/usr/lib/reefy/reefy/artifacts.py:170-188 | One attempt yields the whole body, or is lost; an oversized body is lost for good, and a whole one is exactly what the file holds. |
| `BlobDownload.Destination.DownloadBlob` | board/reefy/reefy/rootfs-overlay/usr/lib/reefy/reefy/artifacts.py:163-215 | The one response that decides is the first that cannot work later, or the last of the attempts; the verdict and the file are those of its body: kept whole only with the wanted digest and size and within 16 GiB, and never mixed with another attempt. |
| `BlobDownload.OneAttemptDecides` | board/reefy/reefy/rootfs-overlay/usr/lib/reefy/reefy/artifacts.py:166-202 | Exactly one attempt decides: the first that does not fail transiently, or the last. |
| `Collection.SortOrders` | board/reefy/reefy/rootfs-overlay/usr/lib/reefy/reefy/artifacts.py:630-633 | The sort lists the same entries, most recently used first and ties in scan order. |
| `Collection.PositionIsRank` | board/reefy/reefy/rootfs-overlay/usr/lib/reefy/reefy/artifacts.py:630-635 | In the sorted list of an identity the position of an entry is the number of its rivals. |
| `Collection.TopThreeAreRecent` | board/reefy/reefy/rootfs-overlay/usr/lib/reefy/reefy/artifacts.py:628-635 | The first three of the sorted list are exactly the entries with fewer than three rivals. |
| `Collection.ArtifactStore.ScanManifests` | board/reefy/reefy/rootfs-overlay/usr/lib/reefy/reefy/artifacts.py:606-625 | The scan lists each readable manifest with its identity and its lease stamp, or its admission time if it has no lease. |
| `Collection.ArtifactStore.GroupByIdentity` | board/reefy/reefy/rootfs-overlay/usr/lib/reefy/reefy/artifacts.py:627-629 | Every identity has its entries, in scan order. |
| `Collection.ArtifactStore.ChooseRetained` | board/reefy/reefy/rootfs-overlay/usr/lib/reefy/reefy/artifacts.py:626-635 | Retained are exactly the protected digests and the three most recent of each identity. |
| `Collection.ArtifactStore.RemoveManifests` | board/reefy/reefy/rootfs-overlay/usr/lib/reefy/reefy/artifacts.py:637-660 | Exactly the unretained manifests of a prefix of the scan are gone, with their leases; all of them unless an unmount failed. |
| `Collection.ArtifactStore.RemoveBlobs` | board/reefy/reefy/rootfs-overlay/usr/lib/reefy/reefy/artifacts.py:662-680 | No referenced blob is lost, and none but the referenced ones is left when all removals work. |
| `Collection.ArtifactStore.Gc` | board/reefy/reefy/rootfs-overlay/usr/lib/reefy/reefy/artifacts.py:602-685 | A completed collection keeps exactly the retained manifests, unchanged, and the blobs these refer to; one that stops early removes no blob. |
| `Collection.RemovedIsOutranked` | board/reefy/reefy/rootfs-overlay/usr/lib/reefy/reefy/artifacts.py:626-641 | A manifest is removed only if it is unprotected and three others of its identity were used at least as recently. |
| `Collection.MostRecentStay` | board/reefy/reefy/rootfs-overlay/usr/lib/reefy/reefy/artifacts.py:626-635 | A manifest with fewer than three others at least as recent always stays. |
| `Collection.SettledLosesNothing` | board/reefy/reefy/rootfs-overlay/usr/lib/reefy/reefy/artifacts.py:602-685 | A store in which no unprotected manifest has three others at least as recent loses nothing. |
| `Collection.LosesNothingInAnyOrderIff` | board/reefy/reefy/rootfs-overlay/usr/lib/reefy/reefy/artifacts.py:602-685 | A further collection removes nothing in whatever order it scans if and only if no unprotected manifest is tied or beaten by three others. |
| `Collection.SecondRemovesNothing` | board/reefy/reefy/rootfs-overlay/usr/lib/reefy/reefy/artifacts.py:602-685 | With stamps that never tie within an identity, a second collection removes nothing in any order. |
| `Collection.SecondInSameOrderRemovesNothing` | board/reefy/reefy/rootfs-overlay/usr/lib/reefy/reefy/artifacts.py:602-685 | Scanned in the same order a second collection removes nothing, ties or not. |
| `Collection.SurvivorsScanned` | board/reefy/reefy/rootfs-overlay/usr/lib/reefy/reefy/artifacts.py:602-685 | A scan of what a completed collection leaves, in any order, finds exactly the entries that it kept. |
| `Collection.SurvivorsRescanned` | board/reefy/reefy/rootfs-overlay/usr/lib/reefy/reefy/artifacts.py:602-685 | What a completed collection leaves, scanned again in that order, loses nothing. |
| `Collection.CollectTwice` | board/reefy/reefy/rootfs-overlay/usr/lib/reefy/reefy/artifacts.py:602-685 | Two collections in a row, each in an order of its own: once the first has completed, the second removes nothing if the orders agree or no last uses of one identity tie. |
| `Collection.TiedSurvivorMayBeLost` | board/reefy/reefy/rootfs-overlay/usr/lib/reefy/reefy/artifacts.py:626-641 | A concrete store with four tied manifests: a completed collection leaves all four, and a second one that lists them in another order does not retain one of them. |
| `Collection.LeasedComeFirst` | board/reefy/reefy/rootfs-overlay/usr/lib/reefy/reefy/artifacts.py:617-635 | When leases are stamped in nanoseconds and admissions in seconds of the same times, a manifest never leased is not among the three most recent where three leased ones share its identity. |
| `Artifacts.InvKept` | board/reefy/reefy/rootfs-overlay/usr/lib/reefy/reefy/artifacts.py:290-685 | Every step of every process, death at any point and reboot included, keeps the invariant of store, locks and active providers. |
| `ArtifactRuns.RunInv` | board/reefy/reefy/rootfs-overlay/usr/lib/reefy/reefy/artifacts.py:290-685 | The invariant holds in every state of every run. |
| `ArtifactRuns.ReadableManifestsAreWhole` | board/reefy/reefy/rootfs-overlay/usr/lib/reefy/reefy/artifacts.py:352-402 | At every step, every readable manifest is the one its digest names and all its layer blobs are present with the right digest and size. |
| `ArtifactRuns.AtMostTwoAdmissions` | board/reefy/reefy/rootfs-overlay/usr/lib/reefy/reefy/artifacts.py:327-350 | At most two admissions are under way at once. |
| `ArtifactRuns.OneHookAtATime` | board/reefy/reefy/rootfs-overlay/usr/lib/reefy/reefy/artifacts.py:480-492 | No two live processes run an activation hook at once, of whichever providers. |
| `ArtifactRuns.HooksOverlapOnlyAfterDeath` | board/reefy/reefy/rootfs-overlay/usr/lib/reefy/reefy/artifacts.py:480-492 | Over every run: as long as no process has died under its hook since a boot, at most one hook runs, those without a process included; so two run at once only after such a death. |
| `ArtifactRuns.OrphanedHookMayOverlap` | board/reefy/reefy/rootfs-overlay/usr/lib/reefy/reefy/artifacts.py:483-492 | In every state where one process runs a hook and another waits to start one, the death of the first lets both hooks run. |
| `ArtifactOverlap.ReachesProviderLock` | board/reefy/reefy/rootfs-overlay/usr/lib/reefy/reefy/artifacts.py:302-318 | From any reachable state whose other processes are out of the way, a process preparing a cached host extension can get to the lock of its provider. |
| `ArtifactOverlap.OverlapIsReachable` | board/reefy/reefy/rootfs-overlay/usr/lib/reefy/reefy/artifacts.py:483-492 | A concrete run, from a store with two cached extensions, ends with two hooks running, one of them orphaned. |
| `ArtifactRuns.CollectionMayBegin` | board/reefy/reefy/rootfs-overlay/usr/lib/reefy/reefy/artifacts.py:602-606 | What a collection retains when it protects the active digests is a set that the protocol lets it keep. |
| `ArtifactRuns.ActiveKept` | board/reefy/reefy/rootfs-overlay/usr/lib/reefy/reefy/artifacts.py:446-506 | No step but a reboot drops or changes an active provider. |
| `ArtifactRuns.ActiveManifestKept` | board/reefy/reefy/rootfs-overlay/usr/lib/reefy/reefy/artifacts.py:446-641 | No step takes away or changes the manifest of an active provider. |
| `ArtifactRuns.ActivePayloadIsFixed` | board/reefy/reefy/rootfs-overlay/usr/lib/reefy/reefy/artifacts.py:446-641 | Within a boot the manifest of an active provider is never collected, and what is recorded as active, down to its payload, never changes. |
| `ArtifactRuns.ReadyMeansActive` | board/reefy/reefy/rootfs-overlay/usr/lib/reefy/reefy/artifacts.py:309-318 | A host extension reported ready is active, itself or by an equal payload, which `ArtifactPayload.ReadyHasActivePayload` writes out. |
| `ArtifactRuns.ReadmittedIsTheSame` | board/reefy/reefy/rootfs-overlay/usr/lib/reefy/reefy/artifacts.py:352-402 | A digest admitted again after a collection is the same manifest. |
| `ValueScanner.SlashesEnd` | board/reefy/reefy/rootfs-overlay/usr/lib/reefy/reefy/redaction.py:48-66 | It stops at the first character that is no backslash. |
| `ValueScanner.EscapedQuotedValueEnd` | board/reefy/reefy/rootfs-overlay/usr/lib/reefy/reefy/redaction.py:48-66 | The loop ends where the recursive definition of a value says. |
| `ValueScanner.StructuredValueEnd` | board/reefy/reefy/rootfs-overlay/usr/lib/reefy/reefy/redaction.py:69-113 | The same for a value that begins with a quote, an escaped quote or a bracket. |
| `ValueScanner.BracketedValueEnd` | board/reefy/reefy/rootfs-overlay/usr/lib/reefy/reefy/redaction.py:79-113 | The same for the loop over brackets, with its explicit stack and quote flags. |
| `ValueScanner.ScanTokens` | board/reefy/reefy/rootfs-overlay/usr/lib/reefy/reefy/redaction.py:91-99 | In a quoted string the scan passes every printed character and escape and stops after the closing quote. |
| `ValueScanner.ScanRuns` | board/reefy/reefy/rootfs-overlay/usr/lib/reefy/reefy/redaction.py:48-66 | In an escaped string the scan passes every printed run of backslashes and stops after the closing escaped quote. |
| `ValueScanner.ScanItems` | board/reefy/reefy/rootfs-overlay/usr/lib/reefy/reefy/redaction.py:79-113 | Inside a bracket the scan passes every printed item and stops after the closing bracket. |
| `ValueScanner.ScanInvertsPrint` | board/reefy/reefy/rootfs-overlay/usr/lib/reefy/reefy/redaction.py:48-113 | The scanner inverts the printer: at a printed value of any nesting, whatever follows, it ends exactly where the value does. |
| `ValueScanner.EnterShifts` | board/reefy/reefy/rootfs-overlay/usr/lib/reefy/reefy/redaction.py:69-113 | Where a value ends does not depend on the text before it. |
| `ValueScanner.EnterEndsInMark` | board/reefy/reefy/rootfs-overlay/usr/lib/reefy/reefy/redaction.py:69-113 | A value that ends before the message does ends in a quote or a bracket. |
| `SecretPrefixes.SearchIsLeftmost` | board/reefy/reefy/rootfs-overlay/usr/lib/reefy/reefy/redaction.py:27-45 | The search finds the leftmost place where a prefix starts, and none only if there is none. |
| `SecretPrefixes.SearchStays` | board/reefy/reefy/rootfs-overlay/usr/lib/reefy/reefy/redaction.py:117-124 | Other text after a match, unless it begins with a space, leaves the match where it is. |
| `SecretPrefixes.PrefixLocal` | board/reefy/reefy/rootfs-overlay/usr/lib/reefy/reefy/redaction.py:27-45 | Whether a prefix starts at a place is settled by the text up to any deciding character. |
| `SecretPrefixes.NoPrefixAtStop` | board/reefy/reefy/rootfs-overlay/usr/lib/reefy/reefy/redaction.py:117-131 | No prefix starts at a character that ends an unquoted value. |
| `PrefixPass.RedactTwice` | board/reefy/reefy/rootfs-overlay/usr/lib/reefy/reefy/redaction.py:132-173 | For rules that read back what they show, redacting a second time changes nothing. |
| `PrefixPass.ValueTwice` | board/reefy/reefy/rootfs-overlay/usr/lib/reefy/reefy/redaction.py:139-172 | The same for the text right after a prefix. |
| `PrefixPass.FoundAgain` | board/reefy/reefy/rootfs-overlay/usr/lib/reefy/reefy/redaction.py:132-145 | After a value was replaced the prefix before it is found at the same place. |
| `PrefixPass.KeptInOrder` | board/reefy/reefy/rootfs-overlay/usr/lib/reefy/reefy/redaction.py:132-173 | A pass splits the text into kept pieces and values, keeps every piece in order and hides every value. |
| `Redaction.LogRulesAreFaithful` | board/reefy/reefy/rootfs-overlay/usr/lib/reefy/reefy/redaction.py:117-173 | The rules of the log redactor, with its scanner and replacements, do read back what they show. |
| `Redaction.RedactionIsIdempotent` | board/reefy/reefy/rootfs-overlay/usr/lib/reefy/reefy/redaction.py:132-183 | Redacting assignments, or flags, twice is redacting once, for any set of secret keys. |
| `Redaction.NoPrefixNoChange` | board/reefy/reefy/rootfs-overlay/usr/lib/reefy/reefy/redaction.py:132-173 | A message in which no prefix starts is left alone. |
| `Redaction.QuotedReads` | board/reefy/reefy/rootfs-overlay/usr/lib/reefy/reefy/redaction.py:155-166 | A quoted replacement is read back as one value, whatever follows it. |
| `Redaction.EscapedReads` | board/reefy/reefy/rootfs-overlay/usr/lib/reefy/reefy/redaction.py:155-166 | So is a replacement in escaped quotes. |
| `Redaction.RedactPrefixedValues` | board/reefy/reefy/rootfs-overlay/usr/lib/reefy/reefy/redaction.py:132-173 | The loop renders exactly the redaction of the message. |
| `Redaction.RedactPiece` | board/reefy/reefy/rootfs-overlay/usr/lib/reefy/reefy/redaction.py:135-172 | Each turn renders a part of the redaction and leaves the redaction of the rest. |
| `Redaction.NextPrefix` | board/reefy/reefy/rootfs-overlay/usr/lib/reefy/reefy/redaction.py:136-141 | Without a further prefix the rest stays as it is; else the next one ends where the search from here says. |
| `Redaction.RedactValueAt` | board/reefy/reefy/rootfs-overlay/usr/lib/reefy/reefy/redaction.py:142-172 | The value after a prefix, marked values included, is rendered as the definition says. |
| `Redaction.ReplaceValue` | board/reefy/reefy/rootfs-overlay/usr/lib/reefy/reefy/redaction.py:149-170 | The end and the replacement of a value are those of the definition. |
| `Redaction.ScalarEnd` | board/reefy/reefy/rootfs-overlay/usr/lib/reefy/reefy/redaction.py:125-131 | An unquoted value ends at the first stop character. |
| `SecretKeys.RedactCliValues` | board/reefy/reefy/rootfs-overlay/usr/lib/reefy/reefy/redaction.py:176-178 | With the program's own keys, flags are redacted by the definition, and a second pass changes nothing. |
| `SecretKeys.RedactAssignments` | board/reefy/reefy/rootfs-overlay/usr/lib/reefy/reefy/redaction.py:181-183 | With the program's own keys, assignments are redacted by the definition, and a second pass changes nothing. |
| `Dispatching.Dispatcher.Conclude` | board/reefy/reefy/rootfs-overlay/usr/lib/reefy/reefy/dataplane.py:383-422 | A body that raises or fails is recorded as failed, else as succeeded, with warnings if there were any; the record counts as applied exactly for an apply or an active state; that is the end step and the record step of the relation. |
| `SchedulerOutcomes.RecordShows` | board/reefy/reefy/rootfs-overlay/usr/lib/reefy/reefy/dataplane.py:405-422 | The record of the ended job, while kept, shows the status its body ended with and the given applied flag, with kind and creation time as they were. |
| `SchedulerOutcomes.BodiesAreRecorded` | board/reefy/reefy/rootfs-overlay/usr/lib/reefy/reefy/dataplane.py:378-422 | Over every run: a request with an outcome that was neither superseded nor refused was begun, ended and recorded by one worker, and its outcome is the status of that end; while its record is kept it shows that status and the applied flag of that recording. |
| `SchedulerOutcomes.OthersAreRecorded` | board/reefy/reefy/rootfs-overlay/usr/lib/reefy/reefy/dataplane.py:354-376 | Over every run: a superseded request ended superseded and a refused one failed, and while kept its record shows so and was never applied. |
| `SchedulerOutcomes.LiveRecordsShow` | board/reefy/reefy/rootfs-overlay/usr/lib/reefy/reefy/dataplane.py:341-430 | Over every run, an accepted request shows queued until its body begins and running until its end is recorded. |
| `SchedulerOutcomes.HistoryIsOfSteps` | board/reefy/reefy/rootfs-overlay/usr/lib/reefy/reefy/dataplane.py:326-430 | What the history says was submitted, and begun, is what the steps accepted, and began, in their order; so the theorems on the history are about the steps. |
| `SchedulerOutcomes.AnswerIsOfTheBody` | board/reefy/reefy/rootfs-overlay/usr/lib/reefy/reefy/dataplane.py:378-441 | Over every run: a caller answered with the record of a request that was neither superseded nor refused is given the status with which its body ended. |
| `InitServices.FingerprintTells` | board/reefy/reefy/rootfs-overlay/usr/lib/reefy/reefy/dataplane.py:1760-1784 | Two definitions have one fingerprint exactly if they agree in every part, conditions of dependencies in whatever order. |
| `InitServices.DueAgainIffChanged` | board/reefy/reefy/rootfs-overlay/usr/lib/reefy/reefy/dataplane.py:1760-1784 | A service recorded with an earlier definition is due again exactly if any part of its definition differs now. |
| `AppFlags.RequiredIffNeeded` | board/reefy/reefy/rootfs-overlay/usr/lib/reefy/reefy/dataplane.py:1895-1924 | Required are exactly the services that a chain of dependencies reaches from a service that is not optional, completed ones left out. |
| `AppFlags.PlanByFlags` | board/reefy/reefy/rootfs-overlay/usr/lib/reefy/reefy/dataplane.py:1895-1960 | The parts of a plan by flags and chains: required runtime services are those neither init nor optional; an entry is made for exactly each optional service neither completed nor required. |
| `AppFlags.EntryByFlags` | board/reefy/reefy/rootfs-overlay/usr/lib/reefy/reefy/dataplane.py:1925-1951 | An entry brings up what chains reach from it and waits for the init services among these. |
| `AppFlags.RuntimeByFlags` | board/reefy/reefy/rootfs-overlay/usr/lib/reefy/reefy/dataplane.py:1735-1758 | The runtime part holds every service but the init services, each without exactly its dependencies on these. |
| `AppFlags.SucceedsIffRequiredGoWell` | board/reefy/reefy/rootfs-overlay/usr/lib/reefy/reefy/dataplane.py:2049-2307 | The condition of `Deploy` by flags: the pull of all needed services works, each init service among them is completed or ends well, and the runtime services that are not optional start. |
| `AppFlags.RequiredFailureByFacts` | board/reefy/reefy/rootfs-overlay/usr/lib/reefy/reefy/dataplane.py:1962-2000 | A required failure stands exactly for a start of the same definitions: of the services a new marker names, of the required ones, or of the runtime part alone as old markers have it. |
| `AppFlags.StandsByFacts` | board/reefy/reefy/rootfs-overlay/usr/lib/reefy/reefy/dataplane.py:2109-2126 | A failure of an optional entry stands exactly for the same definitions of its services, or, for a runtime service, of the runtime part. |
| `AppFlags.ReadyByFacts` | board/reefy/reefy/rootfs-overlay/usr/lib/reefy/reefy/dataplane.py:2106-2156 | An optional entry is ready exactly if no failure of it stands, its own pull works, and every init service it needs is required or ready. |
| `AppFlags.FailuresByFacts` | board/reefy/reefy/rootfs-overlay/usr/lib/reefy/reefy/dataplane.py:2198-2292 | An optional service is reported failed exactly if it failed and no later start brought it up: it was not ready, its init service was due and failed, it needs such a one, or its own start, tried alone, failed; a start brings up all that chains reach. |
| `MigrationSystem.SystemStartsAlone` | board/reefy/reefy/rootfs-overlay/usr/lib/reefy/reefy/dataplane.py:1199-1413 | Over every run, at each start of the v2 system project: no legacy service runs but those of listed instances; all others, if any, were stopped and then removed, successfully and together; services of instances were let be. |
| `MigrationSystem.AppStartsAlone` | board/reefy/reefy/rootfs-overlay/usr/lib/reefy/reefy/dataplane.py:1585-1650 | When the project of an app is started, or stopped for good, that app's own legacy service was stopped and does not run. |
| `MigrationSystem.CommandsNameWhole` | board/reefy/reefy/rootfs-overlay/usr/lib/reefy/reefy/dataplane.py:1376-1413 | Every stop or removal in the legacy project names one app of the attempt alone, or exactly the services of no listed instance. |
| `MigrationSystem.DropTakesTheUnwanted` | board/reefy/reefy/rootfs-overlay/usr/lib/reefy/reefy/dataplane.py:2802-2816 | Removing absent projects deletes the Compose files of exactly the projects that are neither those of desired apps nor called `reefy-system`, and stops no other. |
| `MigrationSystem.CommittedFilesWanted` | board/reefy/reefy/rootfs-overlay/usr/lib/reefy/reefy/dataplane.py:1299-1374 | A committed attempt leaves Compose files of desired apps and of `reefy-system` only. |
| `MigrationSystem.FailedAppsAreOfferedBack` | board/reefy/reefy/rootfs-overlay/usr/lib/reefy/reefy/dataplane.py:1639-1650 | When an attempt returns, every app whose project did not come up and which was reported failed has had its legacy service offered a start. |
| `MigrationReports.ReportedExactly` | board/reefy/reefy/rootfs-overlay/usr/lib/reefy/reefy/dataplane.py:1140-1171 | An attempt that has returned reported an app running if and only if the app shall run, and: it committed; or it left the legacy project alone as another app was not prepared, and this one was and has a legacy service; or it rolled back cleanly, the app was not reported failed and has a legacy service. |
| `MigrationReports.FailedExactly` | board/reefy/reefy/rootfs-overlay/usr/lib/reefy/reefy/dataplane.py:1222-1352 | An app is reported failed exactly when some step of the attempt went wrong for it; being overtaken by a newer request is not going wrong. |
| `MigrationReports.AttemptsBeginPending` | board/reefy/reefy/rootfs-overlay/usr/lib/reefy/reefy/dataplane.py:2769-2773 | Every attempt began with v1 state to migrate, a v2 state and no marker, and works for the desired state saved last. |
| `ComposeFailures.ClassIgnoresCase` | board/reefy/reefy/rootfs-overlay/usr/lib/reefy/reefy/dataplane.py:4063-4087 | The class of a text does not depend on the case of its letters. |
| `ComposePhrases.ClassifiedByWords` | board/reefy/reefy/rootfs-overlay/usr/lib/reefy/reefy/dataplane.py:4063-4087 | Output is classified by the very words of the program: a full disk if it says so, else a missing image by nine phrases, else broken storage by four, else as transient. |
| `ComposeMemory.FirstSignalsStay` | board/reefy/reefy/rootfs-overlay/usr/lib/reefy/reefy/dataplane.py:2564-2578 | What was recorded for a class first stays, whatever is read later. |
| `ComposeRedacted.TailIsRedacted` | board/reefy/reefy/rootfs-overlay/usr/lib/reefy/reefy/dataplane.py:2579-2607 | The tail holds, in the order of the text, redact(b) or its first 4000 characters and a mark, where b is a line of the text or its first 3988 characters and a mark; the lines left out are exactly those that redaction leaves nothing of, and those before the last 200 others. |
| `ComposeRedacted.SignalsAreRedacted` | board/reefy/reefy/rootfs-overlay/usr/lib/reefy/reefy/dataplane.py:2564-2607 | Every line recorded for a failure is a phrase that stands for it or such a redacted line of the text. |
| `ComposeRedacted.OutputIsRedacted` | board/reefy/reefy/rootfs-overlay/usr/lib/reefy/reefy/dataplane.py:2579-2650 | The output of a whole text is at most three recorded lines, none of them in the tail, and then the tail. |
| `ComposeRedacted.LinesAreTheText` | board/reefy/reefy/rootfs-overlay/usr/lib/reefy/reefy/dataplane.py:2609-2640 | The text is its lines, each but perhaps the last followed by a newline or a carriage return, which no line holds. |
| `ComposeRedacted.JoinedLinesAreRead` | board/reefy/reefy/rootfs-overlay/usr/lib/reefy/reefy/dataplane.py:2609-2640 | Joined lines without breaks, none of them empty, are read back as they were. |
| `Alignment.CapWrittenOut` | board/reefy/reefy/rootfs-overlay/usr/lib/reefy/reefy/storage.py:1072-1097 | Written out: a cap is given only for positive sizes and a percentage up to 100; it is the greatest positive common multiple within that percentage of the pool, and missing only if there is none. |
| `LuksSectors.PassesMeans` | board/reefy/reefy/rootfs-overlay/usr/lib/reefy/reefy/storage.py:143-199 | Written out: a batch that passes has distinct present devices with sane geometry, and the greatest of the sizes 4096 to 512 that lies between and divides them all. |
| `LuksSectors.GivenUpLeavesNothingOpen` | board/reefy/reefy/rootfs-overlay/usr/lib/reefy/reefy/storage.py:258-333 | A batch given up leaves no mapper open. |
| `LuksSectors.OrderOfActions` | board/reefy/reefy/rootfs-overlay/usr/lib/reefy/reefy/storage.py:258-333 | Targets are wiped, formatted and opened one after the other in their order, and closed in the opposite one. |
| `Volumes.VolumeManager.EnsureLocked` | board/reefy/reefy/rootfs-overlay/usr/lib/reefy/reefy/storage.py:1352-1572 | What happens under the volume lock; where a volume is expected, any answer at all means that the path is on it. |
| `VolumePasses.MountAll` | board/reefy/reefy/rootfs-overlay/usr/lib/reefy/reefy/storage.py:1609-1668 | The loop over all paths: each path whose volume the inventory lists, and each checked path, is noted as failed or on its own volume. |
| `VolumeOwners.AppKeepsItsVolume` | board/reefy/reefy/rootfs-overlay/usr/lib/reefy/reefy/storage.py:1017-1803 | Over every run: the volume provisioned for an app's path, or adopted for it by a pass whose commands all succeed, keeps its tags and files as long as that app is in every state given to reclaim. |
| `VolumeOwners.DeletedAppLosesItsVolume` | board/reefy/reefy/rootfs-overlay/usr/lib/reefy/reefy/storage.py:1670-1803 | And the next pass whose commands all succeed removes it, once neither that app nor any other owner is live. |
| `VolumeOwners.RemovedHadNoLiveOwner` | board/reefy/reefy/rootfs-overlay/usr/lib/reefy/reefy/storage.py:1741-1803 | Over every run: a volume that a pass removes has one of Reefy's names and no owner in the state of that pass, and it is tagged as managed and for some app, or is that of a path which the pass knew and adopted. |
| `VolumeOwners.SmoothPassLeavesLive` | board/reefy/reefy/rootfs-overlay/usr/lib/reefy/reefy/storage.py:1741-1803 | After a pass whose commands all succeed, every managed volume with an owner has one in the state. |
| `ArtifactPayload.ReadyHasActivePayload` | board/reefy/reefy/rootfs-overlay/usr/lib/reefy/reefy/artifacts.py:446-531 | Over every run: a host extension reported ready has its provider active with its own digest, or with a manifest of the same config and, layer by layer, the same digests, sizes and media types. |
| `ArtifactPayload.AtProviderLock` | board/reefy/reefy/rootfs-overlay/usr/lib/reefy/reefy/artifacts.py:451-462 | At its provider's lock an extension is found active exactly by its own digest or by equality of all these fields, and the hook starts only with no provider active. |
| `ArtifactPayload.DifferentIsRefused` | board/reefy/reefy/rootfs-overlay/usr/lib/reefy/reefy/artifacts.py:451-462 | With a different payload active neither way is open: of its own steps, only giving up or dying is left. |
| `ArtifactPayload.ActiveRanItsHook` | board/reefy/reefy/rootfs-overlay/usr/lib/reefy/reefy/artifacts.py:464-506 | Over every run: an active provider was recorded, with its digest, by a process whose own hook for that digest and provider had run from start to end. |
| `ArtifactPayload.OnlyHostExtensionsActivate` | board/reefy/reefy/rootfs-overlay/usr/lib/reefy/reefy/artifacts.py:313-318 | Only host extensions ask for their provider's lock or run a hook. |
| `ArtifactPayload.LocksExclude` | board/reefy/reefy/rootfs-overlay/usr/lib/reefy/reefy/artifacts.py:290-402 | Of two processes at any moment: no two work on one manifest, one slot, one layer or one provider; beside a collection no other is past its start; there are two slots. |
| `ArtifactPayload.OnlyOthersDownload` | board/reefy/reefy/rootfs-overlay/usr/lib/reefy/reefy/artifacts.py:300-308 | A process goes on to download only if its manifest is missing and it did not arrive for cached ones only. |
| `ArtifactPayload.FetchedIsWanted` | board/reefy/reefy/rootfs-overlay/usr/lib/reefy/reefy/artifacts.py:352-402 | What is fetched is the manifest asked for and not an empty one; what is downloaded is the layer it names, of the size it gives; a manifest is written after its last layer. |
| `ArtifactPayload.SweepComesLast` | board/reefy/reefy/rootfs-overlay/usr/lib/reefy/reefy/artifacts.py:637-662 | A collection that turns to the blobs has left no manifest but those it set out to retain, the active ones among them. |
| `ArtifactProgress.EarlyStep` | board/reefy/reefy/rootfs-overlay/usr/lib/reefy/reefy/artifacts.py:298-308 | A process that waits for no lock gets the store lock, then the lock of its manifest, and then uses the admitted manifest or goes on to download. |
| `ArtifactProgress.AdmissionStep` | board/reefy/reefy/rootfs-overlay/usr/lib/reefy/reefy/artifacts.py:304-402 | So it goes on to a slot, to the manifest, which it uses if another admitted it meanwhile, to the layers one by one and to the manifest file. |
| `ArtifactProgress.ActivationStep` | board/reefy/reefy/rootfs-overlay/usr/lib/reefy/reefy/artifacts.py:313-506 | And once admitted to the mount, the provider's lock, the hook, the record and the end. |
| `ArtifactProgress.SomeoneIsFree` | board/reefy/reefy/rootfs-overlay/usr/lib/reefy/reefy/artifacts.py:298-506 | The locks admit no deadlock: every chain of processes waiting for one another leads to one that waits for no lock. |
| `RedactedValues.PlainValueIsHidden` | board/reefy/reefy/rootfs-overlay/usr/lib/reefy/reefy/redaction.py:160-172 | After a prefix, an unquoted value, which goes up to the first of the ten listed characters, is replaced, and redaction goes on right behind it. |
| `RedactedValues.StructuredValueIsHidden` | board/reefy/reefy/rootfs-overlay/usr/lib/reefy/reefy/redaction.py:149-172 | After a prefix, a printed quoted, escaped or bracketed value of any nesting is replaced whole, in its own kind of quotes. |
| `RedactedValues.SpeltByJoints` | board/reefy/reefy/rootfs-overlay/usr/lib/reefy/reefy/redaction.py:34-42 | A spelling of a key is its words joined directly, by `_` or by `-`, with an `s` at the end only if it has a plural. |
| `RedactedValues.JointsSpell` | board/reefy/reefy/rootfs-overlay/usr/lib/reefy/reefy/redaction.py:34-42 | And every such spelling is one. |
| `RedactedValues.KeyIsPrefix` | board/reefy/reefy/rootfs-overlay/usr/lib/reefy/reefy/redaction.py:43-46 | Whatever the case of its letters, with any quotes around it and any blanks around `=` or `:`, an assignment to a known key is a prefix up to its value. |
| `RedactedValues.FlagIsPrefix` | board/reefy/reefy/rootfs-overlay/usr/lib/reefy/reefy/redaction.py:47-48 | A flag `--key`, followed by `=` or blanks, is a prefix likewise. |
| `RedactedValues.AssignedValueIsHidden` | board/reefy/reefy/rootfs-overlay/usr/lib/reefy/reefy/redaction.py:132-183 | So the unquoted value assigned to a known key is hidden, and nothing else of the text up to its end. |

## Left out

Modelled, but not in full:

- ApplyResults.ApplyResultStore.Update: error and warning texts of a record and their sanitizing are not part of it; the ids are numbers, whose order is that of the fixed-width ids.
- Scheduler.RunInv: covers one boot; a restart is a new initial state, which `Dispatching.Dispatcher.constructor` reaches from whatever the disk holds. Ids never repeat, as for random UUIDs.
- Scheduler.LastAppliedIsNewest: speaks of the apply whose body was begun last, as does `SchedulerOvertaking.LastAppliedDiffersIff`; what a body does, such as refusing the state or failing to save it, is not part of the scheduler.
- Dispatching.Dispatcher.Enqueue: the remaining fields of a job and the runtime error texts of finished ones are left out.
- AppProject.AppProject.Start: supersession by a newer desired state and the pull deadline are not modelled, nor are failing marker writes or two service names whose marker files collide after sanitizing.
- AppProject.AppProject.Deploy: one deployment runs alone, as under the project lock; health messages are left out.
- InitServices.InitRunner.Run: a record that cannot be written raises an error in the program, which the model does not have.
- MigrationRuns.AttemptsEndSettled: app ids of one desired state are distinct and each app project is named after its instance; an exception in an app's thread counts as a failed app; Compose `up` and `stop` stand for all their retries. A v2 project of an earlier desired state may run on after a rollback, as in the program.
- MigrationRuns.EveryAttemptIsLawful: a failed app is one listed as failed; an overtaken one is not, as in the program.
- MigrationRuns.RunInv: the migration is a step relation on values and not a class, because a crash may fall between any two steps and app threads interleave. Containers that start or stop on their own while an attempt is under way, as in a restart of Docker alone, are not modelled; after a reboot any may run.
- ArtifactRuns.RunInv: the protocol is a step relation on values for the same reason; the class form is in `Collection` and `BlobDownload`. Hashes are injective, which is what digest pinning relies on. The protocol has no leases: a collection may keep any set that holds the active digests, of which `Collection` computes one (`ArtifactRuns.CollectionMayBegin`).
- ArtifactRuns.OneHookAtATime: about hooks whose process lives; `ArtifactRuns.HooksOverlapOnlyAfterDeath` is about every hook.
- Collection.ArtifactStore.Gc: the protected digests are a parameter; mounts are reduced to whether unmounting works; sizes and temporary download files are left out.
- VolumePasses.FilesSurvive: apps only add files between passes; a file they delete is not followed.
- Volumes.VolumeManager.EnsureVolume: LVM is taken to refuse the removal of a mounted volume; an XFS repair does not change the data of a volume; directories are sets of files, without ownership or permissions; volume names of distinct paths may coincide except where a contract says otherwise.
- VolumePasses.ReclaimDeletedVolumes: the live instances and the known paths of a state are parameters, and passes over sets run in any order, so in the sorted one as well.
- VolumePasses.BootMount: the desired state is given as paths, caps and backup paths; reading it is left out.
- Alignment.CappedSizeIsGreatest: percentages and shares are real numbers, so the precision of decimal contexts is left out.
- LuksSectors.ChooseLuksSectorSize: being a power of two is defined by halving and not by the bit trick of the program.
- LuksSectors.LuksStack.ProvisionLuksStack: wiping a device is one action; what is torn down before it is left out.
- ComposeOutput.ReadOutput: works on decoded text; UTF-8 decoding, the selector loop, process groups and timeouts are left out. Stripping line ends from a line that was split at them does nothing. The capital I with a dot is kept as it is, though its lower case begins with an `i`; no phrase of the program ends in one. Redaction is any function on lines.
- Redaction.RedactionIsIdempotent: about one prefix pass for one kind of prefix; the composition with the other passes is not claimed.

Not modelled:

- The pattern passes of `redact_log_message` for private keys, tokens, headers and URLs.
- The timer that retries artifacts, static address changes, and the removal order of stacked device-mapper devices.
- `control.py`, `watchdog.py`, `compatibility.py`, `containers.py`, `shared.py`, `qemu_vm.py`: network and command plumbing or single checks, which would add only easy members.
- What Docker, LVM, cryptsetup, mount and the registries really do: each command has an outcome and an abstract effect.
- Backups and restores, health publishing, log texts and file permissions.
