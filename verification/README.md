# Coolify: verified models of the deployment core

Coolify is a self-hosted platform that builds applications, deploys their containers over SSH and keeps the state of
servers in a database. This project models the parts of it whose correctness lies in the code rather than in Docker or
SSH, and proves what they promise. `dafny verify dfyconfig.toml` checks everything.

- **Dockerfile rewriting** (`Text`, `Dockerfile`, `DockerfilePasses`, `DockerfileLaws`, `DockerfileSecrets`,
  `SecretFiles`, `TwoPasses`, `SecretMeaning`, `ComposeBuilds`, `ComposeLaws`, `ComposeDoubling`). Three passes edit a
  list of lines: ARG injection walking forward with a running offset, ARG injection walking backward with nested
  splices, and the mounting of build secrets into RUN lines. `Injected`, `Appended` and `SecretPass` say stage by
  stage what the passes produce; the methods on `LineCollection` are the passes themselves, index arithmetic included,
  and equal them. Whole files are covered too: trim, split on newlines, rewrite, join, and read again. A deployment
  works on a fresh clone, so a written file is read again only when several services of a compose file build from one
  Dockerfile; `ComposeBuilds` is the job's loop over these services, whose mounting pass reads everything that earlier
  services saved in front of its own file. `AcceptedKey` is the shape of the keys that the setter of environment
  variables lets through.
- **Deployment lifecycle** (`DeploymentStatus`, `DeploymentJob`). The status row is written by the job and by
  cancellers that read a list first and write later. `DeploymentStatus` treats every interleaving; `DeploymentJob` is
  the job itself, with the restart-only recursion, the rolling update and its rollback, where at each refresh of the
  row another process may have cancelled it and each remote command may fail, possibly after taking effect.
- **Scheduler** (`CronDedup`, `ScheduledJobs`, `SchedulerRun`, `SchedulerOutcomes`, `SchedulerHistory`). Two tables
  are paged by id, prechecked, and processed in turns while rows are deleted; a cache key per job decides when a cron
  slot fires. `shouldRunCronNow` is modelled as written. A cron expression is a function from a time to its previous
  slot.
- **SSH multiplexing** (`SshMux`, `SshMuxGrounds`, `SshMuxCalls`). Any number of workers share one master connection
  behind a double-checked lock with a time to live. Each action on the lock, the process or the cache is one step of a
  machine; `SshMuxCalls` has the helper's methods with everybody else acting between any two of their steps, and each
  of their executions is a run of that machine.
- **Snapshot reconciliation** (`StatusText`, `Snapshot`, `SnapshotStatuses`, `SnapshotJob`, `SnapshotLabels`,
  `SnapshotExclusions`, `SnapshotMeaning`). One pass over the reported containers fills found-lists and status
  collections, then sweeps and aggregations write rows and loaded models, which may differ. Statuses are kept raw, as
  the rows hold them; applications and databases read and write theirs through an accessor, which `Normal` is, while
  the sweep of applications updates rows past it. Service parts are collected under one label joined with colons and
  split again. `Final` is the row the code gives one resource; `Scan` is the status that the containers naming a
  service part should give it.
- **Reachability and backoff** (`Backoff`, `Reachability`). Which scheduler cycles check a failing server, and what
  counter, notification flag and notices do over whole runs of checks.
- **Configuration merge** (`ConfigMerge`). The recursive merge of PHP arrays, as ordered maps.

Seven promises of the code fail in general, and the exact condition is proved.

- Each compose service should get its Dockerfile with its own ARGs and mounts. With secrets on, what mounting reads
  accumulates over the services under one key, so from the second service on a RUN line of an earlier file is met
  again without its mounts, and the file is written with all earlier texts in front. For newline-free keys a later
  service's Dockerfile is as it alone would leave it exactly when no line of all the joined texts, nor of its own,
  needs mounts (`ComposeLaws.LaterTurnExactly`); after each service all Dockerfiles are as alone exactly without
  secrets or when this holds from the second turn on (`ComposeLaws.AlwaysAloneExactly`). Two services with one
  Dockerfile end with every stage twice (`ComposeDoubling.EveryStageTwice`; `ComposeDoubling.TwoServices` has the
  input).
- Injecting ARGs into a file again should add none. Keys may contain newlines, and such a key falls apart in the
  written file: the second injection adds nothing exactly when no key contains a newline
  (`DockerfileLaws.RewritingSettles`, `DockerfileLaws.EveryFileSettles`; `DockerfileLaws.NewlineKeyIsAddedAgain` has
  the input).
- Mounting secrets into a file that was mounted before, read afresh, should change nothing. It changes nothing exactly
  when no line of the joined mounts is itself a RUN line without a mount, which takes a newline in a key
  (`SecretFiles.MountingSettles`, `SecretFiles.BrokenMount`). Within one deployment the file is not read afresh; the
  first point is about that.
- A status that the accessor has written should read the same. It does exactly when the text was settled: no second
  parenthesis is opened before the first is closed, no blank stands beside a colon in front of it, and a bare state
  has no blanks around it (`StatusText.NormalTwiceExactly`). A database can end differently when its snapshot is
  applied again exactly when the first status reported for it is not settled, some row reads as it, and its second
  reading can be reported too (`SnapshotStatuses.FirstReportDecides`; `SnapshotStatuses.ParenthesesChange` has
  inputs).
- A FINISHED or FAILED status, documented as final at app/Jobs/ApplicationDeploymentJob.php:4732-4735, is overwritten
  exactly when a canceller writes to a row that became terminal after it was listed
  (`DeploymentStatus.TerminalChangesExactly`).
- A snapshot applied again should change no status, and each service part should end with the status of its own
  containers. A colon in a service or part label makes the joined label stand for another part: the second holds
  exactly when no such label contains a colon (`SnapshotLabels.EndsAsScannedExactly`), the first exactly when every
  part a label is taken for is also named by some container (`SnapshotLabels.FinalTwiceExactly`,
  `SnapshotLabels.FinalTwicePlain`; `SnapshotLabels.ColonLabelAlternates` has the input).
- The recorded age of an SSH master falls behind exactly when its creator dies before recording it
  (`SshMux.StaleExactly`).

## Model

| member | source | states |
|---|---|---|
| DockerfilePasses.FindFromLines | app/Jobs/ApplicationDeploymentJob.php:4116-4128 | The positions of all FROM lines and of nothing else, rising; the two passes use different FROM tests and both are covered |
| DockerfilePasses.ExistingStageArgs | app/Jobs/ApplicationDeploymentJob.php:4441-4453 | The names declared by the leading ARG block of a stage, read up to the first line that is not an ARG |
| DockerfilePasses.InjectStage | app/Jobs/ApplicationDeploymentJob.php:4433-4465 | One stage gets exactly the ARG lines its leading block lacks, right after its FROM line, and the count returned is theirs |
| DockerfilePasses.InjectArgs | app/Jobs/ApplicationDeploymentJob.php:4390-4466 | Walking the original positions with a running offset refines the stage-wise specification for every Dockerfile and key list |
| DockerfilePasses.SpliceAfter | app/Jobs/ApplicationDeploymentJob.php:4226-4228 | Splicing single lines last first leaves all of them in order |
| DockerfilePasses.AppendArgs | app/Jobs/ApplicationDeploymentJob.php:4222-4229 | Nested splices over the stages in reverse put all ARGs in order after every FROM line |
| Dockerfile.InjectedByStages | app/Jobs/ApplicationDeploymentJob.php:4433-4466 | Text before the first FROM is unchanged; each stage becomes its FROM line, exactly the missing ARGs, and the rest of the stage |
| Dockerfile.InjectionOnlyAdds | app/Jobs/ApplicationDeploymentJob.php:4461-4465 | Removing the marked lines gives the original back; each marked line is the ARG line of a key and none is the first line |
| Dockerfile.InjectedIsComplete | app/Jobs/ApplicationDeploymentJob.php:4433-4466 | Afterwards every stage declares every key in its leading block |
| Dockerfile.FixedIffComplete | app/Jobs/ApplicationDeploymentJob.php:4461-4468 | The pass leaves a Dockerfile alone if and only if every stage already declares every key, which is also when it adds no line |
| Dockerfile.ForwardIdempotence | app/Jobs/ApplicationDeploymentJob.php:4407-4466 | Within one run's list of lines, a second pass adds nothing on every Dockerfile if and only if the trimmed text of each key is what some key leaves when it is trimmed on the right and cut at '=' |
| Dockerfile.AcceptedKeysReadBack | app/Support/ValidationPatterns.php:100-139 | Every key list that the setter of environment variables lets through is read back, with blanks and newlines inside the keys |
| Dockerfile.FromInAnyCase | app/Jobs/ApplicationDeploymentJob.php:4116-4128 | Single builds take from in any case with white space behind it for a stage and fromage for none; compose builds take FROM in capitals with anything behind it |
| DockerfileLaws.AppendedLength | app/Jobs/ApplicationDeploymentJob.php:4222-4229 | The backward pass grows the file by the number of stages times the number of ARGs |
| DockerfileLaws.AppendedTwice | app/Jobs/ApplicationDeploymentJob.php:4222-4229 | The backward pass is not idempotent: a second run inserts the whole list again before the first |
| DockerfileLaws.PassesAgree | app/Jobs/ApplicationDeploymentJob.php:4222-4229 | The backward result is never shorter than the forward one, and both are equal if and only if no stage declares a key in its leading block |
| DockerfileLaws.AgreeWithoutLeadingArgs | app/Jobs/ApplicationDeploymentJob.php:4433-4466 | Forward and backward agree on Dockerfiles none of whose stages starts with an ARG line |
| DockerfileLaws.RewriteFile | app/Jobs/ApplicationDeploymentJob.php:4390-4472 | The file is written back exactly when some ARG was added, from trimmed content to joined lines |
| DockerfileLaws.WrittenReadsBack | app/Jobs/ApplicationDeploymentJob.php:4390-4472 | Trimming and splitting the written file gives back the injected lines, for accepted keys without newlines |
| DockerfileLaws.RewritingSettles | app/Jobs/ApplicationDeploymentJob.php:4390-4472 | For accepted keys and every file that is rewritten, injecting into the written file again writes nothing if and only if no key contains a newline |
| DockerfileLaws.EveryFileSettles | app/Models/EnvironmentVariable.php:371-379 | Among the accepted key lists, those for which every file settles after one injection are exactly those without newlines |
| DockerfileLaws.NewlineKeyIsAddedAgain | app/Jobs/ApplicationDeploymentJob.php:4390-4472 | The accepted key A, newline, B is written into a one-line Dockerfile and missing again when that file is read |
| Text.BlankCodes | app/Jobs/ApplicationDeploymentJob.php:4291-4299 | Trimming strips blank, tab, newline, vertical tab, carriage return and NUL, and no form feed |
| DockerfileSecrets.MountSecrets | app/Jobs/ApplicationDeploymentJob.php:4265-4312 | The file is written exactly when there are secrets and some RUN line lacks a mount, with the specified lines |
| DockerfileSecrets.SecretPassLine | app/Jobs/ApplicationDeploymentJob.php:4268-4303 | Only RUN lines without a mount change, and at most one syntax line is prepended, to a file that does not begin with one |
| DockerfileSecrets.SecretPassMountsAll | app/Jobs/ApplicationDeploymentJob.php:4289-4303 | Afterwards no RUN line lacks a secret mount |
| SecretMeaning.RunLineKeepsCommand | app/Jobs/ApplicationDeploymentJob.php:4289-4303 | A line of blanks, RUN and a command, without a mount, becomes RUN, the mounts and the trimmed command |
| SecretMeaning.RewrittenIsRunLine | app/Jobs/ApplicationDeploymentJob.php:4293-4296 | Only lines of that form are rewritten |
| SecretMeaning.SecretPassOnlyAdds | app/Jobs/ApplicationDeploymentJob.php:4265-4312 | Without the directive it added and the mounts in the lines it rewrote, the file is the original one up to blanks; the directive is added exactly when something is rewritten and the file does not begin with one |
| SecretMeaning.WrittenRunLine | app/Jobs/ApplicationDeploymentJob.php:4298-4303 | In the written file every such RUN line has its command behind the mounts |
| SecretMeaning.MountsInOrder | app/Jobs/ApplicationDeploymentJob.php:4283-4287 | The mounts of the keys in order and that of the hash, with a blank between each two |
| SecretMeaning.MountsHold | app/Jobs/ApplicationDeploymentJob.php:4283-4287 | Every key and the hash have their mount, by id and environment name |
| DockerfileSecrets.SecretIdempotence | app/Jobs/ApplicationDeploymentJob.php:4265-4312 | Mounting twice is mounting once, on every file |
| DockerfileSecrets.PassesCommute | app/Jobs/ApplicationDeploymentJob.php:4265-4466 | Secret mounting and forward ARG injection can run in either order, on every file |
| SecretFiles.MountFile | app/Jobs/ApplicationDeploymentJob.php:4265-4312 | The whole file, from trimmed content to joined lines, written exactly when there are secrets and some RUN line lacks a mount |
| SecretFiles.MountingSettles | app/Jobs/ApplicationDeploymentJob.php:4265-4312 | On every file that was written and is read afresh, a second run writes nothing if and only if no line of the joined mounts is a RUN line without a mount |
| SecretFiles.NewlineFreeMounts | app/Jobs/ApplicationDeploymentJob.php:4283-4286 | Keys without newlines always meet that condition |
| SecretFiles.BrokenMount | app/Jobs/ApplicationDeploymentJob.php:4283-4303 | An accepted key with a newline followed by RUN does not |
| ComposeBuilds.ComposeBuild.ModifyDockerfileForSecrets | app/Jobs/ApplicationDeploymentJob.php:4251-4313 | The trimmed file is appended to what the key held before, and what is written is the mounting of that whole text, or nothing |
| ComposeBuilds.ComposeBuild.ServiceTurn | app/Jobs/ApplicationDeploymentJob.php:4374-4484 | One service's turn: skipped without a stage, else injection into its own file and then mounting of all that was saved so far, which becomes the file |
| ComposeBuilds.ComposeBuild.ModifyDockerfilesForCompose | app/Jobs/ApplicationDeploymentJob.php:4315-4487 | The loop gives each service whose Dockerfile exists its turn, on files and saved output as the turns before left them |
| ComposeBuilds.JoinedNeeds | app/Traits/ExecuteRemoteCommand.php:208-217 | Whether a joined text has a line that needs mounts, from its parts: a line in front of the joint, the two lines that the joint makes one, or a line behind it |
| ComposeLaws.LaterTurnExactly | app/Jobs/ApplicationDeploymentJob.php:4259-4312 | For accepted newline-free keys and every text saved before, a later turn leaves a Dockerfile as a turn alone would if and only if no line of the joined text, nor of its own, needs mounts |
| ComposeLaws.SecondTurnSettles | app/Jobs/ApplicationDeploymentJob.php:4338-4486 | After one service, a second one with the same Dockerfile writes nothing in both passes if and only if no key has a newline and, with secrets, no line of the two texts joined needs mounts |
| ComposeLaws.AlwaysAloneExactly | app/Jobs/ApplicationDeploymentJob.php:4315-4487 | For accepted newline-free keys, after each service of any list all Dockerfiles are as services alone would leave them, if and only if secrets are off or every text from the second turn on is quiet, which is told from the files before the loop |
| ComposeLaws.SharedDockerfile | app/Jobs/ApplicationDeploymentJob.php:4315-4487 | In that case a Dockerfile ends as after one turn alone if any service builds from it, however many do and in whatever order |
| ComposeDoubling.UnmountedRunDisturbs | app/Jobs/ApplicationDeploymentJob.php:4259-4312 | A RUN line without mounts that an earlier service read, other than as its last line, keeps every later Dockerfile from being what it would be alone |
| ComposeDoubling.EveryStageTwice | app/Jobs/ApplicationDeploymentJob.php:4259-4312 | If the first of two services with one Dockerfile mounts and the second writes, the file ends with twice its stages |
| ComposeDoubling.SecondWrites | app/Jobs/ApplicationDeploymentJob.php:4259-4312 | For every Dockerfile of a FROM line and a plain RUN line the second service does write |
| ComposeDoubling.TwoServices | app/Jobs/ApplicationDeploymentJob.php:4481-4483 | The Dockerfile FROM a, RUN x with the key A, built by two services with secrets, ends with two stages |
| DeploymentStatus.EffectsRunAtMostOnce | app/Jobs/ApplicationDeploymentJob.php:4721-4776 | However job and cancellers interleave, success and failure side effects together run at most once, and a FINISHED or FAILED row has run its own |
| DeploymentStatus.TerminalChangesExactly | app/Jobs/ApplicationDeploymentJob.php:4736-4754 | A terminal status changes if and only if a canceller writes to a FINISHED or FAILED row it had listed while it was active |
| DeploymentStatus.StaleCancelOverwrites | app/Jobs/DeleteResourceJob.php:128-141 | Such a run exists: the row finishes with its side effects and then becomes CANCELLED |
| DeploymentStatus.FirstDecisionWins | app/Jobs/ApplicationDeploymentJob.php:4721-4754 | When no canceller writes to a terminal row, the first deciding step of a run fixes the final status |
| DeploymentStatus.DeploymentTable.CancelActiveDeployments | app/Jobs/DeleteResourceJob.php:127-160 | With jobs running between query and writes, exactly the active deployments are listed; each of them whose write does not raise ends CANCELLED, and all others go only where their job takes them, so none of them is cancelled or leaves a terminal status |
| DeploymentJob.DeploymentJob.TransitionToStatus | app/Jobs/ApplicationDeploymentJob.php:4721-4754 | A terminal row is never transitioned; a cancelled one raises the cancellation code; otherwise exactly one side effect has run on return |
| DeploymentJob.FirstDecisive | app/Jobs/ApplicationDeploymentJob.php:1955-2033 | The first decisive answer of the health check decides, if it comes within the limit |
| DeploymentJob.DeploymentJob.Send | app/Traits/ExecuteRemoteCommand.php:91-132 | A command on containers is sent unless the row is found cancelled, and then it is logged, has its effect, and raises as the world says |
| DeploymentJob.DeploymentJob.HealthCheck | app/Jobs/ApplicationDeploymentJob.php:1955-2033 | With checks disabled the verdict is healthy at once; otherwise it is healthy if and only if some attempt within the limit is healthy and none before it unhealthy; a check that raises leaves it unhealthy |
| DeploymentJob.DeploymentJob.GracefulShutdown | app/Jobs/ApplicationDeploymentJob.php:3841-3859 | Unless the deployment is found cancelled, a stop of the named container is sent, and a removal unless the stop raises; no exception leaves, and what runs afterwards is what these commands left |
| DeploymentJob.DeploymentJob.StopRunningContainer | app/Jobs/ApplicationDeploymentJob.php:3861-3904 | A normal, uncancelled return has sent a stop for exactly the containers to be stopped: the new one after a failed check or where its name is fixed, else all listed ones, the new one only for pull requests; what runs is what the sent commands left; only cancellation raises, and nothing was sent then |
| DeploymentJob.DeploymentJob.Replace | app/Jobs/ApplicationDeploymentJob.php:1941-1947 | In the rolling branch the start is sent first, all old containers or the new one run after every step, and then, unless cancelled, every old container of a healthy version, or the new one of an unhealthy version, is sent a stop |
| DeploymentJob.DeploymentJob.RollingUpdate | app/Jobs/ApplicationDeploymentJob.php:1904-1951 | Exactly one start on a normal return, after the stops where rolling is not supported and before them where it is; whenever it raises, no side effect has run and, outside cancellation, the rolling branch has sent no stop |
| DeploymentJob.DeploymentJob.ShouldSkipBuild | app/Jobs/ApplicationDeploymentJob.php:1245-1286 | Either the image was rolled out once, or, for a restart, the re-entered full deployment is complete, or nothing happened; the restart flag never comes back |
| DeploymentJob.DeploymentJob.JustRestart | app/Jobs/ApplicationDeploymentJob.php:1223-1243 | One rollout and one terminal transition, although a restart turned into a rebuild completes the deployment twice |
| DeploymentJob.DeploymentJob.DecideWhatToDo | app/Jobs/ApplicationDeploymentJob.php:484-510 | The recursion through the restart terminates, and every normal return has exactly one rollout and one terminal transition that fits the health verdict |
| DeploymentJob.DeploymentJob.FailedHandler | app/Jobs/ApplicationDeploymentJob.php:4843-4892 | The row ends decided once or cancelled, decided rows keep their side effects, and the new container is sent a removal exactly outside compose, cancellation, fixed names and pull requests |
| DeploymentJob.DeploymentJob.Handle | app/Jobs/ApplicationDeploymentJob.php:283-371 | Over the whole run, failure handler included: containers keep serving after every step of a rolling deployment, at most one start and one side effect; a decided deployment has carried out all its stops, in its branch's order; if nobody cancels and every command works it is decided |
| DeploymentJob.DeploymentJob.CompletedIsCarried | app/Jobs/ApplicationDeploymentJob.php:1904-1951 | In the application's own settings: a rolling deployment starts first and stops the old containers if healthy and the new one if not; any other starts last and stops before; with every command working only the new container runs after a healthy rolling deployment, and only the old ones after a rollback |
| CronDedup.PrecheckAgrees | app/Jobs/ScheduledJobManager.php:510-534 | The two functions, each as written, decide alike; asking the precheck first, and shouldRunCronNow only after a yes, gives the answer and leaves the key that shouldRunCronNow alone would |
| CronDedup.FitTickIsShouldRun | bootstrap/helpers/shared.php:675-696 | For a fit server a whole tick, precheck included, answers and leaves the key as shouldRunCronNow does |
| CronDedup.LiveBeforeExpiry | app/Jobs/ScheduledJobManager.php:517-533 | Ticks that all come before the first expiry, which is no later than any write of theirs would expire, never find the key gone |
| CronDedup.PrecheckMeaning | app/Jobs/ScheduledJobManager.php:510-534 | With a live key the precheck is true if and only if a slot lies after the recorded time and no later than the tick |
| CronDedup.RewritingIsHarmless | app/Jobs/ScheduledJobManager.php:527-533 | What a precheck that says no writes keeps the key alive and changes no later answer |
| CronDedup.PendingSlot | app/Jobs/ScheduledJobManager.php:518-533 | A slot nobody consumed stays due if and only if the key still lives or the minute is a slot itself |
| CronDedup.RunMeaning | app/Jobs/ScheduledJobManager.php:510-534 | Over whole runs with a live key, what a tick does is decided by whether a slot lies after the last consumption, and by fitness and runtime state |
| CronDedup.UnfitStaysDue | app/Jobs/ScheduledJobManager.php:277-289 | A job skipped for an unfit server is due at every later tick, and the first tick that finds the server fit fires |
| CronDedup.FiresOncePerSlot | bootstrap/helpers/shared.php:687-694 | After a dispatch or a runtime skip nothing happens until a new slot comes, however many slots were pending |
| CronDedup.SlotsFireAtMostOnce | bootstrap/helpers/shared.php:687-694 | In every run, seeded or not and whatever expires, two ticks that fire belong to different slots |
| ScheduledJobs.SelectedAfter | app/Jobs/ScheduledJobManager.php:180-201 | The page query with the last id of a page selects exactly the rest of the selection |
| ScheduledJobs.SelectedAfterDeletions | app/Jobs/ScheduledJobManager.php:344-392 | Deleting rows at or before the cursor does not change later pages |
| ScheduledJobs.PrecheckReaches | app/Jobs/ScheduledJobManager.php:207-271 | Prechecking one more row settles it at once unless it is due, and disturbs no pending row |
| ScheduledJobs.ProcessReaches | app/Jobs/ScheduledJobManager.php:273-342 | Processing the first pending row settles it as its own tick says, counters and deletions included |
| SchedulerRun.TurnsAreFair | app/Jobs/ScheduledJobManager.php:165-178 | After every step the numbers of processed backups and tasks differ by at most one until one list is exhausted, and all are processed |
| SchedulerRun.ProcessInterleaved | app/Jobs/ScheduledJobManager.php:165-178 | All due rows of a chunk are processed, in that order of turns |
| SchedulerRun.ProcessScheduledBackupsAndTasks | app/Jobs/ScheduledJobManager.php:137-159 | For every chunk size of at least one the paging terminates and has handled exactly the enabled rows of both tables, in id order, although rows are deleted on the way |
| SchedulerRun.PrecheckedExactlyOnce | app/Jobs/ScheduledJobManager.php:137-159 | The prechecked ids are those of the enabled rows, each once, rising |
| SchedulerRun.EachJobTicksOnce | app/Jobs/ScheduledJobManager.php:207-342 | Each enabled row's key goes through one tick of its own, whatever the pages and the other rows are; other keys stay |
| SchedulerHistory.KeyFollowsRun | app/Jobs/ScheduledJobManager.php:137-342 | Over any passes, the key of each row goes through the run of that row's own ticks, whatever happens to servers and other rows in between |
| SchedulerHistory.DispatchFollowsRun | app/Jobs/ScheduledJobManager.php:273-342 | A pass dispatches a row if and only if the row's next tick of that run dispatches |
| SchedulerHistory.SlotDispatchedOnce | bootstrap/helpers/shared.php:687-694 | No slot dispatches a row twice, over any passes, with or without a seeded key |
| SchedulerHistory.UnfitPassStaysDue | app/Jobs/ScheduledJobManager.php:277-289 | With a seeded key that the dates of the passes keep alive, a row found due on an unfit server stays due over any passes: the first pass that handles it on a fit server dispatches it, unless its resource is not running |
| SchedulerHistory.UnseededSlotIsLost | app/Jobs/ScheduledJobManager.php:517-525 | Without a live key, a slot whose minute finds the server unfit is recorded by the next precheck and never dispatches |
| SchedulerRun.DispatchedExactly | app/Jobs/ScheduledJobManager.php:273-342 | A row is dispatched at most once per pass, and if and only if its own tick says so |
| SchedulerOutcomes.DispatchedByFields | app/Jobs/ScheduledJobManager.php:273-342 | An enabled row is dispatched if and only if it has its server and resource, the server is fit, a slot is due and, for a task only, the resource is running |
| SchedulerOutcomes.IdleTaskConsumes | app/Jobs/ScheduledJobManager.php:314-321 | A due task whose resource is not running is not dispatched, and its key records the time, so the slot is consumed |
| SchedulerOutcomes.DueBackupGoesOut | app/Jobs/ScheduledJobManager.php:273-303 | A due backup on a fit server is dispatched whatever its resource does |
| SchedulerOutcomes.KeyByFields | app/Jobs/ScheduledJobManager.php:510-534 | The key of an enabled row after a pass, from its fields: kept, or recorded for thirty days with the time of the pass or of the last slot |
| SchedulerOutcomes.SkippedByFields | app/Jobs/ScheduledJobManager.php:273-321 | The skip counter grows by the number of enabled rows without server or resource, or due and kept back by an unfit server or, for tasks, an idle resource |
| SchedulerOutcomes.DeletedByFields | app/Jobs/ScheduledJobManager.php:344-392 | A pass deletes exactly the enabled backups without server or resource, and the enabled tasks without server or, on a fit one, without resource |
| SshMux.AtMostOneInside | app/Helpers/SshMultiplexingHelper.php:36-50 | In no run of any number of workers, deaths and crashes included, are two of them between lock and release, provided no live owner outlives the lock |
| SshMux.OverlapPastTheTtl | config/constants.php:74 | Without that proviso two workers establish at once |
| SshMux.AnswersTellWhatWasDone | app/Helpers/SshMultiplexingHelper.php:26-65 | A lock timeout, and a reuse under the lock, sent neither an exit nor an establish command; an establishing call did |
| SshMux.OnlyActorsTouch | app/Helpers/SshMultiplexingHelper.php:67-99 | A worker changes the master only from inside the lock and by a command its call is charged with |
| SshMux.LatecomerReuses | app/Helpers/SshMultiplexingHelper.php:40-43 | A worker that gets the lock after any run and finds the master alive, healthy and not too old is at every later moment on the way to returning true, at most five actions of its own away and six if the recorded time is missing or gets lost; it has then returned true and sent no command, and nobody has replaced the master |
| SshMuxGrounds.AnswersHaveGrounds | app/Helpers/SshMultiplexingHelper.php:26-65 | In every run each answer and each decision on the way rests on what the worker saw in its call: a reuse on a master found alive, not too old and healthy, a refusal on its reason, a timeout on a lock held for the whole waiting time, an establishment on its command |
| SshMuxGrounds.ReusedWasReusable | app/Helpers/SshMultiplexingHelper.php:240-259 | A call that answers with reuse found the master alive at its last probe, not too old at its last look at the time, and healthy at its last health check if that is enabled |
| SshMuxGrounds.ReachesUnhealthyExit | app/Helpers/SshMultiplexingHelper.php:254-256 | A call alone on a live and recent but unhealthy master refuses it twice and gets as far as closing it |
| SshMux.FreshWheneverFree | app/Helpers/SshMultiplexingHelper.php:345-353 | Whenever the lock can be taken, the recorded time is no earlier than the creation of the live master, through deaths and lost or adopted records |
| SshMux.RefreshedOnlyWhenOld | app/Helpers/SshMultiplexingHelper.php:204-259 | A master about to be closed for its age really is older than the maximum age, and none is closed for being missing |
| SshMux.StaleExactly | app/Helpers/SshMultiplexingHelper.php:86-92 | The record falls behind the master if and only if the creator dies between creating and recording, with an older record left over |
| SshMux.YoungMasterClosedAfterCrash | app/Helpers/SshMultiplexingHelper.php:86-92 | After such a death the next worker closes a young master as expired |
| SshMuxCalls.Call.ConnectionIsReusable | app/Helpers/SshMultiplexingHelper.php:240-259 | With everybody else acting in between, its answer leads the machine where that answer belongs, before and under the lock |
| SshMuxCalls.Call.EstablishNewMultiplexedConnection | app/Helpers/SshMultiplexingHelper.php:67-93 | It reports true exactly when it created or joined a master and recorded the time |
| SshMuxCalls.Call.RefreshMultiplexedConnection | app/Helpers/SshMultiplexingHelper.php:223-228 | Close, forget, establish: its report is the establishment's |
| SshMuxCalls.Call.EnsureMultiplexedConnection | app/Helpers/SshMultiplexingHelper.php:26-65 | Every execution terminates, is a run of the machine, returns what the machine answers, and that answer rests on what the call saw; only an exception of the first check leaves it |
| StatusText.NormalTwiceExactly | app/Models/Application.php:830-875 | What the accessor makes of a text reads the same through the accessor if and only if the text is settled |
| StatusText.NoReturn | app/Models/StandalonePostgresql.php:211-243 | A text read over and over never comes back after two or four readings unless the first reading leaves it alone |
| SnapshotStatuses.ShowsLast | app/Jobs/PushServerUpdateJob.php:693-702 | A preview or database with containers shows the status of the last one, whatever its row was, if the accessor leaves that status alone |
| SnapshotStatuses.FirstStatusDecides | app/Jobs/PushServerUpdateJob.php:693-702 | For a first status, a second round over it and whatever statuses follow changes no database row, if and only if that status is settled or no row reads as it |
| SnapshotStatuses.FirstReportDecides | app/Jobs/PushServerUpdateJob.php:220-327 | Over all snapshots in which a database's first container reports a status, applying one again changes no row, if and only if the status is settled, or no row reads as it, or its second reading cannot be reported |
| SnapshotStatuses.ParenthesesChange | app/Jobs/PushServerUpdateJob.php:693-702 | Two running containers of a database with healths b(c(d and b:c:d: the row running(b(c(d ends differently when the snapshot is applied again |
| SnapshotStatuses.ParenthesesUnsettle | app/Models/StandalonePostgresql.php:211-243 | Every text of the form state(b(c(d reads as state:b(c(d, which is not settled |
| SnapshotLabels.SplitsBackExactly | app/Jobs/PushServerUpdateJob.php:531-533 | A joined label is split into the labels it was made of if and only if neither the service nor the part label contains a colon |
| SnapshotLabels.ColonFreeIsStraight | app/Jobs/PushServerUpdateJob.php:271-290 | Without colons every part a label is taken for is named by a container |
| SnapshotLabels.SweptIsNotAggregated | app/Jobs/PushServerUpdateJob.php:309-324 | The exit sweeps and the aggregations never concern the same resource, when every part a label is taken for is named by a container |
| SnapshotLabels.FinalTwiceExactly | app/Jobs/PushServerUpdateJob.php:220-327 | Applying the same snapshot again changes no row on any server, with databases whose first status is settled, if and only if every part a label is taken for is named by a container |
| SnapshotLabels.FinalTwicePlain | app/Jobs/PushServerUpdateJob.php:220-327 | When no reported status contains a parenthesis the same holds of all resources, without a proviso on databases |
| SnapshotLabels.EndsAsScannedExactly | app/Jobs/PushServerUpdateJob.php:220-327 | On every server and from every status each service part ends as the scan of its own containers says, if and only if no service or part label contains a colon; only service parts are compared, the other kinds have no joined label |
| SnapshotLabels.PartOfOneService | app/Jobs/PushServerUpdateJob.php:523-586 | With colon-free labels, a part that all its containers ascribe to one service ends with the status aggregated from its own containers |
| SnapshotLabels.ColonLabelAlternates | app/Jobs/PushServerUpdateJob.php:264-290 | A container of service 1 labelled as part 5:9 sweeps part 5 and aggregates it, and the row alternates with every snapshot |
| SnapshotJob.UpdateJob.ProcessContainer | app/Jobs/PushServerUpdateJob.php:220-304 | One container changes exactly the list, the collection and the row of the one resource it belongs to; a database takes its status through the accessor, and only if it differs from what the model reads |
| SnapshotJob.UpdateJob.ProcessContainers | app/Jobs/PushServerUpdateJob.php:220-304 | After the loop the found-lists and the status collections hold what scans of all containers give, and each preview and database has been assigned the statuses of its own containers in order |
| SnapshotJob.UpdateJob.UpdateNotFoundDatabaseStatus | app/Jobs/PushServerUpdateJob.php:722-751 | Exactly the databases that were not found and do not read as exited are written exited:unhealthy, in rows and models |
| SnapshotJob.UpdateJob.Sweep | app/Jobs/PushServerUpdateJob.php:612-771 | Exactly the resources not found are swept: databases to exited:unhealthy through their models, the others to exited in their rows; attributes equal their rows wherever a resource was found, and models of service parts keep their status |
| SnapshotJob.UpdateJob.Aggregate | app/Jobs/PushServerUpdateJob.php:477-586 | Each collected group is saved to the resource its split label is taken for, only where the result differs from the status the loaded model reads, through the accessor for applications, even if the row was swept behind it |
| SnapshotJob.UpdateJob.Handle | app/Jobs/PushServerUpdateJob.php:191-327 | Every application without additional servers, preview, database and service part ends with its final row, raw as the accessor or a sweep leaves it, whatever the labels and whatever the rows held; an empty snapshot changes none |
| SnapshotExclusions.StatusesMeaning | app/Jobs/PushServerUpdateJob.php:241-250 | A group collects exactly the names of its named containers, each with the status of its last one |
| SnapshotExclusions.VerdictMeaning | app/Jobs/PushServerUpdateJob.php:494-513 | The aggregator gets exactly the collected names that are not excluded; if all are excluded, the variant gets all of them |
| SnapshotExclusions.UnknownHasNoVerdict | app/Jobs/PushServerUpdateJob.php:483-487 | A group of an application or service that cannot be looked up yields no status |
| SnapshotExclusions.ExcludedDoesNotMatter | app/Jobs/PushServerUpdateJob.php:494-513 | While a group has a name that is not excluded, what an excluded container reports changes no resource's final row |
| SnapshotExclusions.ExcludedOfApplication | app/Jobs/PushServerUpdateJob.php:488-513 | The same for an application, by the labels of its containers and its own exclusions |
| SnapshotExclusions.ExcludedOfPart | app/Jobs/PushServerUpdateJob.php:552-578 | The same for a service part with colon-free labels, by the exclusions of its service |
| SnapshotMeaning.ReportedTexts | app/Jobs/PushServerUpdateJob.php:220-227 | No state means exited, exited has no health, and a missing health is unknown |
| SnapshotMeaning.TrackedStates | app/Jobs/PushServerUpdateJob.php:790-799 | Databases are tracked while running, restarting, starting, created or paused, and not when exited or dead |
| SnapshotMeaning.UnnamedEnds | app/Jobs/PushServerUpdateJob.php:612-771 | With straight labels, what each kind of resource that no container names ends as, in the stored words |
| SnapshotMeaning.IgnoredDoesNotMatter | app/Jobs/PushServerUpdateJob.php:229-304 | A container that is not managed, or stands for no part, or is a running proxy or service container, or no tracked database, changes nothing |
| SnapshotMeaning.PreviewEnds | app/Jobs/PushServerUpdateJob.php:252-258 | A preview ends with the status that its last container reports |
| SnapshotMeaning.DatabaseShows | app/Jobs/PushServerUpdateJob.php:293-301 | A database shows the status that its last tracked container reports, if the accessor leaves that alone |
| SnapshotMeaning.ApplicationEnds | app/Jobs/PushServerUpdateJob.php:483-521 | An application with containers ends with the aggregator's answer for its names that are not excluded, or the variant's if all are, written unless the model reads so already |
| Backoff.HourWrapIsSeamless | app/Jobs/ServerManagerJob.php:195-207 | Counting cycles from each full hour decides as counting them without end, for both cycle lengths |
| Backoff.OneCheckPerWindow | app/Jobs/ServerManagerJob.php:179-207 | Each window of interval consecutive cycles contains exactly one that is not skipped, for every hash |
| Backoff.LongerIntervalsNest | app/Jobs/ServerManagerJob.php:179-207 | The cycles checked at a longer interval are among those checked at a shorter one |
| Backoff.NextCheck | app/Jobs/ServerManagerJob.php:179-187 | After a check the next comes one, three, six or twelve cycles later, for up to two, five, eleven or more failures |
| Backoff.NeverSkippedEarly | app/Jobs/ServerManagerJob.php:195-202 | Up to two failures no minute is skipped |
| Backoff.HashShifts | app/Jobs/ServerManagerJob.php:204-207 | Two servers are checked in cycles shifted by the difference of their hashes |
| Backoff.ChecksOfADeadServer | app/Jobs/ServerManagerJob.php:179-207 | A server that goes down for good gets between N/12 and 12 + N/12 checks in N cycles |
| Reachability.ServerRecord.IsReachableChanged | app/Models/Server.php:1235-1268 | A notice is sent exactly when the flag must flip, and only the flag changes |
| Reachability.ServerRecord.Check | app/Jobs/ServerConnectionCheckJob.php:45-164 | All exits of a check, timeouts included, lead to the state and notices its verdict requires |
| Reachability.CounterLaw | app/Jobs/ServerConnectionCheckJob.php:78-126 | In every run the counter is the number of failed checks since the last success |
| Reachability.NoticesAlternate | app/Jobs/ServerConnectionCheckJob.php:151-164 | Outage and recovery notices alternate in every run |
| Reachability.NoticeLaw | app/Jobs/ServerConnectionCheckJob.php:151-164 | From a fresh start an outage is announced at exactly the second failure since the last success, and a recovery only after at least two |
| Reachability.DeadServerLaw | app/Jobs/ServerConnectionCheckJob.php:78-126 | Counter and backoff together: in N cycles in which every check fails, in whatever way and each in its own, a server is checked between N/12 and 12 + N/12 times, which is also its counter |
| Reachability.FlagsShowLastCheck | app/Jobs/ServerConnectionCheckJob.php:45-140 | After any run the two flags show the last check: reachable if it connected and was not just switched off, usable if its Docker works too |
| Reachability.UsableIsReachable | app/Jobs/ServerConnectionCheckJob.php:96-104 | In every run a usable server is reachable |
| ConfigMerge.MergeRailpackConfig | app/Jobs/ApplicationDeploymentJob.php:2712-2729 | The recursive loop over the overrides refines the one-step specification, order of keys included |
| ConfigMerge.MergeEmpty | app/Jobs/ApplicationDeploymentJob.php:2712-2729 | Merging nothing changes nothing |
| ConfigMerge.MergeSelf | app/Jobs/ApplicationDeploymentJob.php:2712-2729 | Merging a configuration with itself changes nothing |
| ConfigMerge.MergeTwice | app/Jobs/ApplicationDeploymentJob.php:2712-2729 | Applying the same overrides again changes nothing, at any depth |
| ConfigMerge.MergeStaysAssoc | app/Jobs/ApplicationDeploymentJob.php:2703-2729 | The base's keys stay a prefix of the merged keys, so a merge of associative arrays never becomes a list |
| ConfigMerge.MergeStaysWellFormed | app/Jobs/ApplicationDeploymentJob.php:2712-2729 | The result holds each key once, at every depth |
| ConfigMerge.MergeByPath | app/Jobs/ApplicationDeploymentJob.php:2712-2729 | At every path the merged configuration is what the deciding side holds there, and overrides win |
| ConfigMerge.ListsAreReplaced | app/Jobs/ApplicationDeploymentJob.php:2703-2729 | At a key of both sides a list, an empty array or a scalar on either side is replaced whole, and only arrays with keys of their own are merged |

## Left out

- SshMux.FreshWheneverFree: assumes that writes to the cache succeed and that a creator does not die before recording; `SshMux.StaleExactly` says what happens otherwise.
- DeploymentJob.DeploymentJob.Handle: assumes that the side effects of a successful deployment (app/Jobs/ApplicationDeploymentJob.php:4781-4805) do not throw; the code does not guard all of them, and an exception there would reach the failure handler after the old containers are gone.
- SshMux.AtMostOneInside: assumes that no live worker outlives its lock; `SshMux.OverlapPastTheTtl` shows the assumption is needed.
- CronDedup.RunMeaning: assumes a key that is alive at every tick, which `CronDedup.LiveBeforeExpiry` draws from the dates of the ticks; `CronDedup.PendingSlot` and `SchedulerHistory.UnseededSlotIsLost` say what an expired or unseeded key does, and `CronDedup.SlotsFireAtMostOnce` needs no such assumption.
- SnapshotLabels.FinalTwiceExactly: says nothing of databases whose first status is not settled; `SnapshotStatuses.FirstReportDecides` says when these can change again.
- SecretFiles.MountingSettles: speaks of a pass that reads the written file afresh; within one deployment a later pass reads it behind all earlier texts, which is `ComposeLaws.SecondTurnSettles`.
- ComposeBuilds.ComposeBuild.ModifyDockerfileForSecrets: the output of one read arrives in one piece; the code trims and appends it piece by piece.
- SnapshotJob.UpdateJob.Handle: says nothing of applications with additional servers, whose rows another check may write between sweep and aggregation.
- SnapshotLabels.PartOfOneService: containers that ascribe one part to several services are covered by `SnapshotLabels.Scan`, where the last service that can be looked up decides.
- SnapshotJob.UpdateJob.Aggregate: the aggregator and its variant for excluded containers are functions of the statuses, given as parameters.
- The lifetime of the recorded time in the cache: the record may be lost at any moment instead.
- Masters created by ordinary SSH commands through ControlMaster=auto, and the cleanup of stale sockets.
- The gap between a refresh of the deployment row and the update that follows it.
- The FAILED write at the end of a retry loop (app/Traits/ExecuteRemoteCommand.php:133-143), which cannot be reached because the last attempt rethrows.
- Swarm, build servers and the generation of compose files; the early return for an unparsable compose file cannot be reached because a services entry is always set before the test.
- Applications with additional servers: `ComplexStatusCheck` is not part of this model, and how the accessor combines their status with those of the other servers (app/Models/Application.php:876-894) is a parameter.
- Proxies, log drains and storage checks triggered by a snapshot; only statuses are modelled.
- Loose comparison of numeric strings in collections: ids, keys and names are compared as strings. Keys of previews are pairs, which the joined text determines because ids of preview rows are numbers.
- Unicode white space: trimming strips the characters PHP's trim does by default.
- Time zones and daylight saving inside the cron library, and cron expressions that fail to parse.
- Exceptions while one scheduled row is handled, which the manager logs before it goes on, and Docker cleanups.
- The gateway to Hetzner: its answer is a parameter, and a check killed by its timeout has written nothing before.
- The hash ARG pushed after the backward splices (app/Jobs/ApplicationDeploymentJob.php:4234), which is not part of the produced file.
- Shell quoting, transport of files, log entries, broadcast events and the contents of notifications.
