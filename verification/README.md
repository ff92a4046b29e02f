# A verified model of deployd's rollouts

Three parts of the repository share the job of rolling a build out to hosts. This project models
them in Dafny and proves what they are for.

**The deployment-job protocol.** A state machine, replicated by Raft, decides the status of a job,
a barrier that waits for every host to be configured, and a cursor that restarts the hosts one by
one. Every host reacts to the events its replica broadcasts and publishes new commands.

- `Entities`, `RaftApp`: the values, the state machine as a function (`Apply`), and the handlers as
  methods of a class that are proved against it.
- `RaftAppInvariants`: what the state machine guarantees by itself, under arbitrary commands.
- `Answers`: what each command is answered, field by field, and what a log adds up to.
- `Controller`: the reactions of one host, with its string-keyed pool, as a function and as a class.
- `Cluster`: the closed system: one log, a replica, a queue and a consumer per host, background
  configuration tasks, and commands in flight that may be delayed, reordered or lost.
- `ClusterInvariant`, `ClusterSteps`, `ClusterCommit`: the inductive invariant, and why every step
  keeps it. Its heart is that each job has one token, and the token is wherever the job can make
  progress.
- `ClusterTheorems`, `ClusterHistory`, `Traffic`: the safety results for every reachable state.
- `Records`: what the jobs on record say about what happened on the hosts.
- `Progress`: every run of the hosts ends. `Fate`, `Completion`: for every run, exactly when a job
  ends DEPLOYED. `Overtaking`: a run in which nothing fails and a job does not.
- `Drive`, `HandOff`: runs that really happen, and exactly which restart reports are accepted.

**Installing and switching releases.** Configuration runs extract a build into a temporary
directory and rename it; deployment runs point two links at a new release, restart the service and
undo what they did when a later part fails.

- `Release`, `ReleaseTheorems`: every file-system operation is one step, runs interleave freely and
  stop anywhere. `Installer`: the same configuration as the program performs it, step by step.
- `SwitchOver`: the deployment, with every operation fallible. `EnvFile`: the environment file.
  `Download`: the chunked download.

**The systemd mirror.** `Mirror`, `MirrorTheorems`, `MirrorLoops`: one writer that stores a status
and then broadcasts it, and clients that subscribe, take a snapshot and drain their queue.

## What the results assume

The program does not enforce these; each is a hypothesis of the theorems that need it.

- The hosts of a submission are pairwise distinct: needed only for "every host". Submission checks
  the replica ids, while completion compares the cursor with the number of map entries. Everything
  else is proved with repeated hosts too, and the exact difference is stated
  (`RaftAppInvariants.DeployedCoversTheOrder`, `ClusterTheorems.DeployedRestartedEveryHost`).
- A published command is applied at most once. Events reach a host in log order, without loss, in a
  queue without bound; no process restarts; every process has its own host name.
- Believe mode is the only source of confirmations: the HTTP handler for it is a stub
  (`internal/src/deploy-job/integration_http.go:141-143`).
- Namespaces and services contain no backslash, for the string-keyed pool
  (`Controller.PoolEntryIsOwn` says why). The closed system keeps its pool as a set of jobs,
  and `ClusterHistory.ProgramDecidesLikeModel` carries its decisions over to the strings.
- Cancellation is final only once every host's SUCCESS has been applied: a late SUCCESS makes a
  CANCELLED, FAILED or DEPLOYED job CONFIGURED again, since `hostConfigurationUpdate` does not look
  at the job's status. `RaftAppInvariants.CancelledIsLeftBy` says exactly when; that each host's
  SUCCESS is applied once is proved, from the pool.
- That a job ends DEPLOYED needs believe mode, all its hosts running, and that none of four things
  happens: a cancellation past the barrier, the loss of a confirmation, a verdict or a SUCCESS, a
  failed Execute, or a late configuration report. `Completion.EndsDeployedExactly` says for every
  run that these are the only ones. A task that waits for its CONFIGURING report rules out the last
  (`Completion.MaximalFairRunDeploys`). Safety and termination need none of that.
- Mutual exclusion is per job. For a service it needs that no two jobs of it have a host with the
  floor; `Drive.TwoJobsCanRestartAtOnce` shows two hosts at once otherwise.
- That every restart report is accepted needs hosts that wait for their RESTARTING report;
  `HandOff.LateReportRefused` shows one that is refused otherwise.
- No two configurations of one build overlap on a host, and the configured program path leads into
  the release that is deployed. `ReleaseTheorems.OverlapCanInstallAPart` and `ReleaseTheorems.CheckIsWorthItsPath`
  show what happens otherwise.
- The two links and their temporary names are four different paths that nothing else changes while
  a deployment runs.
- Every unit has a name, and a subscriber of the mirror gets every row broadcast since, in order.
- No snapshot reads the entry of a unit that is listed twice while it is blank, for a mirror that
  agrees to the letter (`MirrorTheorems.ConvergesExactly`).

## Where the code may surprise

- Cancelling a job that does not exist indexes an empty result. The model has it as an outcome of
  its own, `Panicked`, that changes nothing.
- The guard against cancelling a finished job looks for SUCCESS, a status that nothing sets, so a
  DEPLOYED job can be cancelled.
- A task goes on when the publication of its CONFIGURING report fails or times out. If the report is
  applied after the host's SUCCESS while another host is missing, it overwrites the SUCCESS, and the
  job stays QUEUED for ever (`Overtaking.LateReportStalls`).
- A restart that ends with TIMEOUT is recorded but does not end the job: it stays DEPLOYING.
- Restarts run inside the consumer: while a host restarts one job it handles no other event.
- A lookup that finds no environment returns no error and writes no file; the deployment then
  fails its check for overwrite.env. Errors while writing that file are not noticed.
- A deployment whose switch fails leaves the service stopped; the first deployment of a service has
  nothing to go back to, so its links stay when it fails.
- `stopService` and `startService` ignore the result that systemd reports; the model lets the unit
  be in any state afterwards.
- A submission is refused only while another one is recent, so jobs of one service can overlap.
- A failed write while a snapshot is sent does not end the client in the program, which then goes on
  to its queue; the connection is unusable by then, and the model lets the client leave.

## Model

| member | source | states |
|---|---|---|
| `RaftApp.App.OnUpdate` | internal/src/raft-app/deploy-job/app.go:84-125 | dispatching a command leaves exactly the store, broadcasts exactly the events and returns exactly the error that the specification function `Apply` gives for it |
| `RaftApp.App.NewInstances` | internal/src/raft-app/deploy-job/app.go:139-174 | a first deployment is refused exactly when a replica id repeats, and otherwise has one instance per target, with its host and replica id, in order and all on one port of the range, whatever is drawn |
| `RaftApp.App.InitialStatuses` | internal/src/raft-app/deploy-job/app.go:176-187 | the loop builds the order as given and two maps whose keys are the hosts, a repeated host once, all PENDING |
| `RaftApp.App.UserSubmitJob` | internal/src/raft-app/deploy-job/app.go:130-234 | a submission files a QUEUED job without cursor under the next id of its service in the believe mode of the request, and announces it, or refuses; hosts come from existing instances first |
| `RaftApp.App.CancelJob` | internal/src/raft-app/deploy-job/app.go:236-268 | a cancellation sets CANCELLED on every job that is neither CANCELLED nor SUCCESS, QUEUED ones included, changes nothing else, broadcasts nothing, and faults on a job that is not there |
| `RaftApp.App.EveryHostConfigured` | internal/src/raft-app/deploy-job/app.go:296-300 | the accumulated flag is true exactly when every host is SUCCESS, in whatever order the map is visited |
| `RaftApp.App.HostConfigurationUpdate` | internal/src/raft-app/deploy-job/app.go:271-329 | a configuration report changes one host's status, and makes the job CONFIGURED and announces it exactly when that completes the barrier, whatever the job's status was |
| `RaftApp.App.RestartHost` | internal/src/raft-app/deploy-job/app.go:331-382 | a confirmation is accepted only for a CONFIGURED or DEPLOYING job, puts the cursor to 0 only in the first case, and names the host at the cursor |
| `RaftApp.App.HostRestartServiceUpdate` | internal/src/raft-app/deploy-job/app.go:384-515 | a restart report is accepted only from the host at the cursor of a DEPLOYING job and leaves what `Answers.RestartReportAnswer` says; SUCCESS advances the cursor and completes the job against the number of different hosts, FAILED ends it |
| `RaftApp.ReplicasAgree` | internal/src/raft-app/deploy-job/app.go:84-121 | two replicas with the same start and log end with the same jobs and have broadcast the same events, for any random port and any map order on either side |
| `RaftAppInvariants.NextKeyIsNew` | internal/src/raft-app/deploy-job/app.go:208-211 | a submission never overwrites a job |
| `RaftAppInvariants.ApplyTouchesOneJob` | internal/src/raft-app/deploy-job/app.go:84-125 | a command changes no job but the one it is about |
| `RaftAppInvariants.ApplyKeepsSameJob` | internal/src/raft-app/deploy-job/app.go:84-125 | no command removes a job or changes its key, order, believe flag or set of hosts |
| `RaftAppInvariants.ApplyKeepsStoreOk` | internal/src/raft-app/deploy-job/app.go:84-125 | the store invariant (domains of the maps, cursor bounds, meaning of outcomes) survives every command with any arguments |
| `RaftAppInvariants.CursorAndDomainSafety` | internal/src/raft-app/deploy-job/app.go:176-187 | after every log both status maps have exactly the hosts of the order as keys, and a DEPLOYING job has a cursor below the number of hosts, also with repeated hosts |
| `RaftAppInvariants.OnlyAMissingCancelPanics` | internal/src/raft-app/deploy-job/app.go:236-242 | after every log a command makes its handler fault exactly when it cancels a job that is not there; the dereference and the index in lines 361-399 never fail |
| `RaftAppInvariants.MeaningOfOutcomes` | internal/src/raft-app/deploy-job/app.go:405-466 | with distinct hosts, after every log: hosts before the cursor are SUCCESS, DEPLOYED means cursor at the end and all SUCCESS, FAILED means the host at the cursor FAILED |
| `RaftAppInvariants.DeployedCoversTheOrder` | internal/src/raft-app/deploy-job/app.go:464-466 | a DEPLOYED job has walked its whole order exactly when no host repeats in it |
| `RaftAppInvariants.CancelledIsLeftBy` | internal/src/raft-app/deploy-job/app.go:282-305 | a CANCELLED job is revived exactly by the report that makes the last missing host SUCCESS, which no guard on the job's status prevents |
| `RaftAppInvariants.AllConfiguredAfter` | internal/src/raft-app/deploy-job/app.go:290-305 | a report completes the barrier exactly when it says SUCCESS and all other hosts are SUCCESS already |
| `Answers.SubmissionRefused` | internal/src/raft-app/deploy-job/app.go:130-159 | a submission is refused exactly if the service has no instances and no target is given or a replica id repeats, and then changes nothing |
| `Answers.SubmissionFiles` | internal/src/raft-app/deploy-job/app.go:176-229 | an accepted submission files exactly one new job under the next id of its service: in the believe mode it asks for, QUEUED, without cursor, all hosts PENDING, on the hosts of the existing instances or else the targets one by one; and announces it |
| `Answers.CancellationAnswer` | internal/src/raft-app/deploy-job/app.go:236-268 | a cancellation makes any stored job CANCELLED, QUEUED ones included, and changes nothing else; a CANCELLED one stays as it is, a SUCCESS one and a missing one are refused |
| `Answers.ConfigurationReportAnswer` | internal/src/raft-app/deploy-job/app.go:271-329 | a configuration report of a host of the job is recorded as reported, whatever the job's status, and the last SUCCESS makes the job CONFIGURED and announces it |
| `Answers.ConfirmationAnswer` | internal/src/raft-app/deploy-job/app.go:331-382 | only a CONFIGURED or DEPLOYING job can be confirmed; the first confirmation names the first host, later ones the host at the cursor, and no other field changes |
| `Answers.RestartReportAnswer` | internal/src/raft-app/deploy-job/app.go:384-515 | only the host at the cursor of a DEPLOYING job is heard; its status is recorded as reported, FAILED ends the job and is broadcast, SUCCESS moves the cursor and completes the job past the last different host, anything else is passed on |
| `Answers.EveryJobIsAsAsked` | internal/src/raft-app/deploy-job/app.go:176-211 | after every log, every job has the believe mode, the names and the hosts of the submission that filed it |
| `Answers.FiledOnce` | internal/src/raft-app/deploy-job/app.go:208-211 | and no other submission of the log filed it |
| `Answers.StatusIsLastReport` | internal/src/raft-app/deploy-job/app.go:271-515 | after every log, the two statuses of a host are what it reported last (for a restart, while it was its turn), and PENDING before that |
| `Answers.CancelledExactly` | internal/src/raft-app/deploy-job/app.go:236-305 | after every log, a job is CANCELLED exactly if no report has completed the barrier since its last cancellation; no job is ever SUCCESS |
| `Controller.PoolKeysCollide` | internal/src/deploy-job/jobs_controller.go:178-181 | two jobs share a pool entry exactly if they have the same id and their namespaces and services read the same once joined |
| `Controller.PoolEntryIsOwn` | internal/src/deploy-job/jobs_controller.go:178-181 | a job has its pool entry to itself, against all other jobs, exactly if neither of its names contains a backslash |
| `Controller.PoolKeysCanCollide` | internal/src/deploy-job/jobs_controller.go:178-181 | for example, two services of different namespaces share an entry, for every id |
| `Controller.PoolDecidesLikeKnown` | internal/src/deploy-job/jobs_controller.go:35-43 | on clean names, what the string-keyed pool decides about an event is what a set of known jobs decides, and goes on being so |
| `Controller.JobsController.ConfigureHost` | internal/src/deploy-job/jobs_controller.go:35-84 | a created job starts a configuration task exactly if it is not in the pool and the host is one of its hosts, and enters the pool then |
| `Controller.JobsController.ConfirmDeploymentAsUserIfEnabled` | internal/src/deploy-job/jobs_controller.go:95-126 | a confirmation is published exactly in believe mode at the trigger host |
| `Controller.JobsController.ContinueRestartServiceAsUserIfEnabled` | internal/src/deploy-job/jobs_controller.go:128-164 | the same after a restart, unless the job is DEPLOYED |
| `Controller.JobsController.StartRestartHostService` | internal/src/deploy-job/job_deploy.go:110-175 | exactly two reports are published, RESTARTING and the verdict: SUCCESS, TIMEOUT for a cancelled context, FAILED for any other error |
| `Controller.DeploymentJob.StartConfigureHost` | internal/src/deploy-job/job_deploy.go:37-108 | a configuration task publishes exactly two reports, CONFIGURING and the verdict: SUCCESS, CANCELLED for a cancelled context, FAILED otherwise |
| `Controller.JobsController.RestartService` | internal/src/deploy-job/jobs_controller.go:166-176 | only the target host that knows the job restarts it |
| `Controller.JobsController.CancelDeployment` | internal/src/deploy-job/jobs_controller.go:86-93 | cancelling cancels the context of the pooled job, if there is one, and nothing else |
| `Controller.JobsController.HandleEvent` | internal/src/deploy-job/integration_event.go:17-31 | every event, cancellations included, leads to the pool, the tasks, the commands and the cancelled contexts that the decision function `React` and the pool call for |
| `Controller.JobsController.StartConsumer` | internal/src/deploy-job/integration_event.go:15-34 | over any sequence of events the consumer's pool, tasks, commands and cancelled contexts are those of the step-by-step specification `Consume` |
| `Controller.ConsumedPool` | internal/src/deploy-job/integration_event.go:17-31 | the pool after any sequence of events does not depend on how the restarts in between ended |
| `Controller.ConfiguresOnce` | internal/src/deploy-job/jobs_controller.go:37-39 | however often a job is announced, a host starts its configuration at most once |
| `Controller.ReactsExactly` | internal/src/deploy-job/jobs_controller.go:35-176 | a host configures exactly what it does not know and is part of, confirms exactly when a believing job names it as trigger, restarts exactly what it knows when it is the target |
| `Controller.DecidesExactly` | internal/src/deploy-job/jobs_controller.go:35-176 | the same for the decision on sets of jobs that the closed system takes |
| `Controller.ConsumesExactly` | internal/src/deploy-job/integration_event.go:15-34 | one turn of the consumer, event by event: the pool, the started task, the commands with their statuses, the cancelled context, and nothing else |
| `ClusterTheorems.ActsIfAddressed` | internal/src/deploy-job/jobs_controller.go:95-176 | in every reachable state, a host confirms or restarts on the event it takes next exactly if it is the trigger or the target that the event names |
| `ClusterSteps.TargetKnowsTheJob` | internal/src/deploy-job/jobs_controller.go:166-171 | when a restart event reaches the host it targets, the job is in that host's pool |
| `ClusterSteps.AnnouncesKeepsInv` | internal/src/deploy-job/job_deploy.go:42-57 | the first report of a configuration task keeps the system invariant |
| `ClusterSteps.ReportsKeepsInv` | internal/src/deploy-job/job_deploy.go:78-99 | the last report of a configuration task keeps it; only a SUCCESS whose Execute returned success is ever in flight |
| `ClusterSteps.PreparedKeepsInv` | internal/src/deploy-job/job_deploy.go:130-145 | a host that stops waiting for its RESTARTING report and enters Deploy keeps it: the one token of the job moves along |
| `ClusterSteps.FinishesKeepsInv` | internal/src/deploy-job/job_deploy.go:145-165 | leaving Deploy with a verdict keeps it |
| `ClusterSteps.HandlesKeepsInv` | internal/src/deploy-job/integration_event.go:17-31 | taking any event from the queue keeps it, whatever the decision |
| `ClusterCommit.SuccessFindsBarrier` | internal/src/deploy-job/jobs_controller.go:37-43 | while a SUCCESS is in flight its host is not yet counted as configured and the barrier is down, so a SUCCESS is applied once per host |
| `ClusterCommit.CommitKeepsInv` | internal/src/raft-app/deploy-job/app.go:84-125 | committing any command in flight keeps the invariant |
| `ClusterTheorems.StepKeepsInv` | internal/src/deploy-job/job_deploy.go:37-175 | every step of the closed system keeps the invariant |
| `ClusterTheorems.MutualExclusion` | internal/src/deploy-job/jobs_controller.go:166-176 | in every reachable state at most one host per job is on its way into or inside Deploy, and meanwhile nothing is queued or in flight that could make another one start |
| `ClusterTheorems.InOrder` | internal/src/raft-app/deploy-job/app.go:399-403 | in every reachable state the hosts that completed are exactly the order up to the cursor, and the hosts that entered Deploy are those and at most the next one |
| `ClusterTheorems.DeployedRestartedEveryHost` | internal/src/raft-app/deploy-job/app.go:462-466 | a DEPLOYED job has restarted its whole order, once per place and in order, exactly when no host repeats |
| `ClusterTheorems.ConfigurationBarrier` | internal/src/raft-app/deploy-job/app.go:296-325 | before any host enters Deploy, the configuration of every host of the job has returned success |
| `ClusterTheorems.NoDroppedRestart` | internal/src/deploy-job/jobs_controller.go:167-171 | the branch that drops a restart event for an unknown job is never taken by the host that the event targets |
| `ClusterTheorems.ServiceExclusion` | internal/src/deploy-job/jobs_controller.go:166-176 | in every reachable state a service restarts on one host at a time, as long as no two jobs of it have a host with the floor |
| `ClusterTheorems.OpenJobsExclude` | internal/src/deploy-job/jobs_controller.go:166-176 | it does in particular while at most one job of it is confirmed and has hosts left, which the stored jobs tell |
| `HandOff.VerdictEndsTheFloor` | internal/src/raft-app/deploy-job/app.go:416-457 | after a verdict other than SUCCESS no host of the job ever has the floor again, also after a TIMEOUT, which leaves the job DEPLOYING |
| `Drive.CanRestart` | internal/src/deploy-job/jobs_controller.go:35-176 | from every reachable state a host that has caught up can be brought to the restart of a new job of any service without instances, and no other host or job moves |
| `Drive.TwoJobsCanRestartAtOnce` | internal/src/deploy-job/integration_http.go:70-80 | two jobs of one service can have two hosts restart at once, for any two hosts and any such service |
| `ClusterTheorems.HandOffAccepted` | internal/src/raft-app/deploy-job/app.go:395-403 | while a host has the floor, a restart report would be accepted exactly if it came from that host and the job has not been cancelled |
| `HandOff.RestartReportAccepted` | internal/src/raft-app/deploy-job/app.go:395-403 | in every reachable state, every restart report in flight, RESTARTING or verdict, is accepted exactly if its job is DEPLOYING and its host is the one at the cursor |
| `HandOff.EveryReportAccepted` | internal/src/deploy-job/job_deploy.go:129-165 | in every run in which a host waits for its RESTARTING report, every restart report in flight is accepted exactly if its job has not been cancelled, whatever else fails or is lost |
| `HandOff.LateReportRefused` | internal/src/deploy-job/job_deploy.go:129-165 | without that waiting, a RESTARTING report can be refused though nothing is cancelled, on every host and for every service without instances |
| `ClusterTheorems.WhoHasTheFloor` | internal/src/deploy-job/job_deploy.go:130-165 | the host that restarts, and the one whose verdict is in flight, has the floor |
| `ClusterTheorems.ConfirmationAccepted` | internal/src/raft-app/deploy-job/app.go:342-369 | a confirmation in flight is accepted exactly if the job has not been cancelled, and then lets exactly the next host of the order go on, which is a running host |
| `ClusterTheorems.CancelIsFinal` | internal/src/raft-app/deploy-job/app.go:302-305 | once every host's SUCCESS is applied, a CANCELLED job keeps status, cursor, order and deployment statuses for the rest of every run |
| `ClusterHistory.QueueIsWhatTheReplicaBroadcast` | internal/src/deploy-job/integration_event.go:15-34 | each host's queue is, in every run, the prefix of what its own replica broadcasts while replaying the common log |
| `ClusterHistory.BarrierAnnouncedOnce` | internal/src/raft-app/deploy-job/app.go:318-325 | EventAllHostConfigured is broadcast at most once per job in every run |
| `ClusterHistory.ProgramDecidesLikeModel` | internal/src/deploy-job/jobs_controller.go:178-181 | in runs with clean names, the string-keyed pool built from the handled events takes every decision that the closed system takes |
| `Traffic.SaysWhatTheProgramPublishes` | internal/src/deploy-job/job_deploy.go:42-165 | what the steps of the closed system put in flight is what the consumer and the configuration task publish, command by command |
| `Traffic.StepPays` | internal/src/deploy-job/job_deploy.go:43-99 | no step raises the sum of the commands published for a job and the potential of those still to come |
| `Traffic.BoundedTraffic` | internal/src/deploy-job/jobs_controller.go:95-164 | in every run the hosts of a job over n places have at most 5n commands about it in the log and in flight together, failures included |
| `Records.RecordIsTrue` | internal/src/raft-app/deploy-job/app.go:84-125 | in every run, every job on record is what its submission asked for, has each host as it reported last, and is CANCELLED exactly as long as its last cancellation stands |
| `Records.UnaskedNeverRestarts` | internal/src/deploy-job/jobs_controller.go:95-139 | in every run, a job whose submission did not ask for believe mode is never confirmed, and none of its hosts starts |
| `Records.RestartEndsOnRecord` | internal/src/deploy-job/job_deploy.go:145-165 | however late the verdict of a restart is applied, it is recorded as it was: FAILED ends the job and is broadcast, TIMEOUT leaves it DEPLOYING, SUCCESS moves the cursor; only a cancellation makes it void |
| `Records.ConfigurationEndsOnRecord` | internal/src/deploy-job/job_deploy.go:78-99 | the same for the verdict of a configuration: SUCCESS, FAILED or CANCELLED, as Execute ended |
| `Records.SuccessIsEarned` | internal/src/raft-app/deploy-job/app.go:405-468 | in every reachable state a host is SUCCESS on record only if it has come out of Deploy with success, and exactly if, unless a repeated host has its turn again |
| `Progress.InternalStepLowersMeasure` | internal/src/deploy-job/jobs_controller.go:35-176 | every step that is not a user's lowers a well-founded measure of the whole system, with losses, early returns and failures among them |
| `Progress.RunsEnd` | internal/src/deploy-job/jobs_controller.go:35-176 | from every reachable state there is a bound on the length of all runs in which users neither submit nor cancel, whatever is lost or fails |
| `Fate.StepDecides` | internal/src/raft-app/deploy-job/app.go:236-515 | every step of every run makes a job hopeless exactly if it is one of four kinds: a cancellation past the barrier, the loss of a command that carries the job, a failed Execute, or a report applied after its host's SUCCESS while the job is not configured |
| `Fate.HopelessMeansGoneWrong` | internal/src/raft-app/deploy-job/app.go:236-515 | over all runs, a job is hopeless exactly if some step of the run was of these kinds |
| `Completion.EndsDeployedExactly` | internal/src/raft-app/deploy-job/app.go:271-515 | in every run, once only users can still do something, a job is DEPLOYED exactly if it believes, all its hosts run, and no step went wrong for it; nothing is assumed about cancellations, losses, failures or waiting |
| `Completion.HarmlessEndsDeployedExactly` | internal/src/raft-app/deploy-job/app.go:286-305 | without cancellations, losses and failures it is DEPLOYED exactly if it was able and no report of a host came after the host's SUCCESS while the job was not configured |
| `Completion.MaximalFairRunDeploys` | internal/src/deploy-job/job_deploy.go:42-56 | where configuration tasks wait for their CONFIGURING report besides, exactly the able jobs end DEPLOYED and, with distinct hosts, all have been restarted in order |
| `Completion.CanComeToRest` | internal/src/deploy-job/jobs_controller.go:35-176 | from every reachable state the hosts can finish all there is to do without a loss or a failure, pending submissions included |
| `Overtaking.LateNeedsAnotherHost` | internal/src/raft-app/deploy-job/app.go:286-305 | a late report harms a QUEUED job only while another host is missing, so never a job of one host |
| `Overtaking.BarredForever` | internal/src/raft-app/deploy-job/app.go:286-305 | once a host of a job is blocked at the barrier, the job is QUEUED or CANCELLED and no host starts, for the rest of every run |
| `Overtaking.LateReportStalls` | internal/src/deploy-job/job_deploy.go:42-56 | for any two hosts and any service without instances there is a run without cancellation, loss or failure that ends at rest with an able job QUEUED, and in no continuation does it become anything but CANCELLED |
| `Release.AdvanceKeepsPhaseOk` | internal/src/deploy-job/job_deploy_configure.go:172-283 | on one shelf, every operation of a configuration keeps: the release is empty or whole, and a run past the check has an empty release and the right archive and temporary directory |
| `Release.ValidatedIsComplete` | internal/src/deploy-job/job_deploy_restart.go:81-105 | a deployment that finds the program inside a release that is not partial has a complete release |
| `Release.StepKeepsInv` | internal/src/deploy-job/job_deploy_configure.go:172-283 | every step of every interleaving of configurations and deployments, crashes included, keeps the invariant of the host |
| `ReleaseTheorems.ReleasesAreWhole` | internal/src/deploy-job/job_deploy_configure.go:271-283 | in every reachable state a release directory that is not empty is the complete extraction, and the link `current` points to such a directory or nowhere |
| `ReleaseTheorems.InstalledStays` | internal/src/deploy-job/job_deploy_configure.go:180-193 | what is installed is never removed, replaced or changed in any later state of any run |
| `ReleaseTheorems.SuccessMeansInstalled` | internal/src/deploy-job/job_deploy_configure.go:180-193 | a configuration that returns success, on either path, leaves the complete build behind for good |
| `ReleaseTheorems.CheckIsWorthItsPath` | internal/src/deploy-job/job_deploy_restart.go:99-105 | for every configured path, into this release, into another, out of all of them or to the directory itself: the check shows that the release is complete exactly when the path leads into that release |
| `ReleaseTheorems.LoneDeploymentSwitches` | internal/src/deploy-job/job_deploy_restart.go:129-163 | a deployment that no other one interferes with can return success only with the link at its own build; before its switch and after a rollback the link is where it was |
| `ReleaseTheorems.OverlapCanInstallAPart` | internal/src/deploy-job/job_deploy_configure.go:180-283 | for every build of more than one write, two configurations that overlap can leave any part of it, up to some write, as the release |
| `Installer.ConfigureHost.Download` | internal/src/deploy-job/job_deploy_configure.go:202-247 | the download succeeds exactly if no operation of it fails and it comes to the recorded size; then the archive holds the artifact, and nothing else has changed; a failed lookup leaves the archive empty, a failed opening leaves it as it was |
| `Installer.ConfigureHost.ClearTemp` | internal/src/deploy-job/job_deploy_configure.go:251-264 | exactly if none of its operations fails, whatever an earlier run left is gone and the temporary directory is absent |
| `Installer.ConfigureHost.Extract` | internal/src/deploy-job/job_deploy_configure.go:266-269 | exactly if no write fails, the temporary directory holds the artifact; the release is untouched meanwhile |
| `Installer.ConfigureHost.Replace` | internal/src/deploy-job/job_deploy_configure.go:271-283 | exactly if neither operation fails and there is something to rename, the release is whole; when the rename fails, there is no release at all |
| `Installer.ConfigureHost.Execute` | internal/src/deploy-job/job_deploy_configure.go:172-330 | with every operation failing independently of the others: success means the whole build, failure leaves the release empty or whole, an installed release is not touched, and it is a success exactly if the operations it needs do not fail; all of it is a run of the transition system |
| `SwitchOver.Machine.SwitchSymlinkAtomic` | internal/src/deploy-job/job_deploy_restart.go:214-224 | a switch works exactly if symlink and rename do and no leftover is in the way that cannot be removed; otherwise only the temporary name may differ, and in between the link is old or new |
| `SwitchOver.Machine.Rollback` | internal/src/deploy-job/job_deploy_restart.go:226-240 | each link with a known old target is back at it exactly if its switch works, and the service is started on the result |
| `SwitchOver.Machine.SwitchLinks` | internal/src/deploy-job/job_deploy_restart.go:136-148 | both links are new, or the environment link is old and the build link is undone if there is something to go back to and that works |
| `SwitchOver.Machine.StartService` | internal/src/deploy-job/job_deploy_restart.go:150-163 | success exactly if start and query work and the unit is active; otherwise everything is rolled back and the service started again |
| `SwitchOver.Machine.Deploy` | internal/src/deploy-job/job_deploy_restart.go:81-163 | success exactly if nothing fails and the unit is active, with both links new; an error leaves both links as they were exactly if all that was switched can be undone; at every step each link points to its old or new target; the service is started on the new links only, and on what a rollback leaves; a failed switch leaves it down; it is stopped before any link moves |
| `SwitchOver.AllOrNothing` | internal/src/deploy-job/job_deploy_restart.go:132-147 | as long as switches back work, a failing deployment changes no link, whatever else fails, exactly when both links were in place before |
| `EnvFile.SortedIsUnique` | internal/src/deploy-job/job_deploy_configure.go:146-148 | a multiset of lines has one sorted sequence |
| `EnvFile.AtMostIsLexicographic` | internal/src/deploy-job/job_deploy_configure.go:146-148 | the order of the lines is the order of strings: the first character that differs decides, and a beginning comes first |
| `EnvFile.FileIsCanonical` | internal/src/deploy-job/job_deploy_configure.go:141-164 | the written lines depend on the map alone, also when upper-cased keys collide |
| `EnvFile.RenderEnv` | internal/src/deploy-job/job_deploy_configure.go:141-148 | collecting in any map order and sorting gives exactly one line per variable, in the order of strings, each as often as it is rendered |
| `EnvFile.ThroughIsWritten` | internal/src/deploy-job/job_deploy_configure.go:162-164 | when writes may stop anywhere unnoticed, the file is what was to be written exactly if none stops short |
| `EnvFile.PartIsBeginning` | internal/src/deploy-job/job_deploy_configure.go:162-164 | a write that stops short leaves the beginning of the line with its end, as long as it got |
| `EnvFile.EnvRelease.Configure` | internal/src/deploy-job/job_deploy_configure.go:131-170 | success exactly if the lookup works and the file opens; a lookup that finds nothing succeeds and writes nothing; otherwise the file is what got through, and the canonical one exactly if no write stops short |
| `EnvFile.RoundTrip` | internal/src/deploy-job/job_deploy_configure.go:162-164 | the file can be read back line by line exactly if no rendered line has a line end in it |
| `Download.EveryChunkingEndsWell` | internal/src/deploy-job/utility.go:113-137 | any chunking, with empty reads and data together with the end of the file, is a download that ends well and hands out the joined bytes |
| `Download.Writer.Copy` | internal/src/deploy-job/utility.go:113-137 | success exactly if the source ends before anything goes wrong, and then the destination has the bytes of the source in order and the total is their count; otherwise the first turn that is cancelled, cannot be written or cannot be read says which failure it is, and the destination has what came before it |
| `Download.Writer.Fetch` | internal/src/deploy-job/job_deploy_configure.go:231-247 | extraction is reached exactly if the download succeeds with the recorded size, and then the archive holds those bytes |
| `Mirror.StoreKeepsInv` | internal/src/systemd/systemd.go:109-116 | storing a status keeps: what a client has been told or is going to be told last about a unit is the server's entry |
| `Mirror.BroadcastKeepsInv` | internal/src/systemd/systemd.go:118-122 | so does the broadcast that follows, outside the lock |
| `Mirror.SendIsOk` | internal/src/systemd/systemd_http.go:124-145 | so does sending one unit of the snapshot, in any order, with rows queued meanwhile |
| `Mirror.DrainIsOk` | internal/src/systemd/systemd_http.go:147-166 | so does taking a row from the queue |
| `Mirror.StepKeepsInv` | internal/src/systemd/systemd.go:55-122 | every step of writer and clients keeps the invariant |
| `MirrorTheorems.Converges` | internal/src/systemd/systemd_http.go:111-166 | in every reachable state with an idle writer and a drained queue the client's view is the server's map, exactly so if the view has no row without a name |
| `MirrorTheorems.NothingIsLost` | internal/src/systemd/systemd_http.go:111-166 | at any time a draining client has, or is going to be told last, the server's status of every unit |
| `MirrorTheorems.ConvergesExactly` | internal/src/systemd/systemd_http.go:111-166 | for every run, an idle writer and a drained queue mean that view and map are equal exactly if the client has not read an entry while it was blank, since it last subscribed |
| `MirrorTheorems.ConvergesWithoutBlanks` | internal/src/systemd/systemd_http.go:111-166 | so they are equal when no unit is listed twice |
| `MirrorTheorems.DrainingGetsThere` | internal/src/systemd/systemd_http.go:147-166 | with an idle writer, taking the queued rows alone brings any draining client to the server's map |
| `MirrorTheorems.ViewCanGoBack` | internal/src/systemd/systemd_http.go:123-166 | before that, a client that agrees with the server can go back to an older status: a concrete run |
| `MirrorTheorems.BlankLeavesARow` | internal/src/systemd/systemd.go:61-71 | a unit listed twice can leave a client with a row without a name for good: a concrete run |
| `MirrorLoops.Handler.List` | internal/src/systemd/systemd.go:61-77 | a listed unit is stored and broadcast, after its entry has been blanked if the name was there |
| `MirrorLoops.ServicesAreKept` | internal/src/systemd/systemd.go:62-64 | a unit is mirrored exactly if its name ends in .service or its job type is service |
| `MirrorLoops.Handler.ListUnits` | internal/src/systemd/systemd.go:55-78 | the first list stores and broadcasts exactly the units whose name ends in .service or whose job type is service, in order, as a run of the system that blanks nothing when no name comes twice |
| `MirrorLoops.Handler.Changed` | internal/src/systemd/systemd.go:91-123 | a batch of changes stores and broadcasts exactly those that are not nil and whose name ends in .service or whose job type is service, in order, and the map stays what the broadcasts add up to |
| `MirrorLoops.FiledIsLast` | internal/src/systemd/systemd_http.go:147-166 | filing rows one after the other leaves the last row of each unit |
| `MirrorLoops.SnapshotIsTheMap` | internal/src/systemd/systemd_http.go:129-134 | a snapshot sent in any order adds up to the map |
| `MirrorLoops.Stream.SendSnapshot` | internal/src/systemd/systemd_http.go:124-145 | every entry is sent once, in some order |
| `MirrorLoops.Stream.Drain` | internal/src/systemd/systemd_http.go:147-166 | draining files exactly the queued rows, in order |

## Left out

- Raft itself, the storage behind it and its errors: the log is one sequence that every replica applies in order, jobs are kept by namespace, service and an id counted up per service.
- The generic fallback for other content, and reads: only commands about jobs are modelled.
- JSON: commands and events are values. The cancel request is sent with the field `id` and read with `job_id`; the model gives it the intended id. A missing status map cannot arise from a submission and its guard is left out.
- Error messages, the confirming agent, URLs, timestamps, replies to callers and the job's unused statuses.
- The Raft settings of new service instances, apart from host, port and replica id.
- What a cancelled context does to a host's work: the event that cancels is handled but never broadcast, and a cancelled or timed-out Execute is one of the possible results.
- The `Job` and `DAG` interfaces of job.go and job_base.go: placeholders.
- HTTP handlers, the user interface, websocket framing, configuration from the environment, logging and clocks.
- Before the release directory: the other directories, the unit file and its reload, whose failures are failures of the run.
- The gzip and tar formats, file modes, quoting and upper-casing: extraction is a given sequence of writes, and a line of the environment file is any function of key and value.
- A configuration that rewrites overwrite.env while a deployment reads it.
- D-Bus: its calls fail or leave the unit in some state.
- Writer and clients of the mirror run on values in `Mirror`, so that their steps can interleave; `MirrorLoops` has their loops with state, each on its own.
- The closed system and the release directories of `Release` are values for the same reason; the handlers of `RaftApp`, `Controller`, `Installer` and `SwitchOver` change state in place.
- The unsynchronised write of a blank entry is one atomic step.
- Commands from clients of the mirror to systemd.
- artifactd's state machine, the Ubuntu configuration and the unfinished code in src/deployd: not part of a rollout.
