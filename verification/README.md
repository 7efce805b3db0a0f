# Petri operator: verified model

A Dafny model of what the Petri operator does between an API server and its users: it admits
environments to shared components and drains those, deploys an environment's components level by
level, observes and replaces Jobs, counts retries, tears everything down again, and keeps its
checkpoints in status patches. The properties are about interleavings: a step of a model is one
call to the API server, and users, other reconciles, caches and crashes act between any two.

`dafny verify dfyconfig.toml` checks the whole project.

## How it is built

Protocols are state machines (`SharedAdmission`, `JobProtocol`, `RetryAccounting`, `Lifecycle`,
`InstanceSecret`, `BindingSecret`): a state, actions of every actor, `Apply` for one step and
`Execute` for a run. Theorems quantify over all runs. The controllers' own methods
(`SharedRegistration`, `JobServer`, `LifecycleController`, `SharedProvision`,
`InstanceSecret.EnsureInstanceSecret`) are imperative code over a server object, with any steps of
others before each call and an answer that may be refused or lost (`Turns`); each is proved to move
the state machine only by its own steps, so the theorems hold of it, and to come to an exactly
stated result when nobody else acts (`Calm`). Loops that change an environment's status in place
(`Environment`, `DeployPass`, `Reconcile`, `Undeploy`, `Deprovision`) are methods proved equal to
functions on statuses, and the theorems about deployment and teardown are about those functions.
What such a function answers is stated once more from the outside, outcome by outcome and both ways
(`DeployOutcomes`, `LevelOutcomes`, `EnvironmentPhase`, `DeployWaits`, `DeployReasons`,
`UndeployProgress`, `DeprovisionObjects`, `SharedTeardown`, `LifecycleProgress`), and from these laws
it follows that work gets done: a deployment whose calls go well is ready after three passes a level
and one more (`DeployProgress.GoodRunGetsReady`), a teardown ends after five a level and one more
whatever its Jobs come to (`UndeployProgress.TeardownEnds`), an environment comes to its work, and a
deleted one to its end (`LifecycleProgress.WorkFollows`, `DeletionEnds`).
`ReleaseJobs` and `CleanupPass` put parts together: rendering with Jobs, teardown with the lifecycle.

| module | subject |
|---|---|
| SharedAdmission, DrainBarrier, LateSuccess, LastAdmission, Capacity, SharedRegistration, SharedTeardown | lease, registration, drain, uninstall |
| JobProtocol, JobConvergence, JobProgress, JobServer, ReleaseJobs | one Job slot, and what is submitted to it |
| RetryAccounting, RetryRaises, RetryRuns, SharedRetries | who a retry is charged to, and who raises the count twice |
| DependencyGraph, Kahn | levels |
| ComponentStatus, Environment, Backoff | the component list, retries, waits |
| Deploy, DeployPass, DeployMoves, DeployLoops, Reconcile, DeployRuns, DeployOrder | a deployment pass, and runs of passes |
| DeployOutcomes, LevelOutcomes, EnvironmentPhase, DeployWaits, DeployReasons, DeployProgress | when each outcome of a pass comes: moves, phase, waits, reasons; and that deployments get ready |
| Undeploy, UndeployProgress, Deprovision, DeprovisionObjects, CleanupPass | teardown: order, what is submitted and deleted, and that it ends |
| Turns, Wrappers, Template | what the code and its surroundings share |
| Lifecycle, LifecycleSafety, LifecycleTheorems, LifecycleRelease, LifecycleClobber, LifecycleController, LifecycleProgress, Namespaces | checkpoints, namespaces, finalizer |
| InstanceSecret, BindingSecret, SharedProvision, ConsumerValues | secrets, what is provisioned with them, and the values rendered from them |

## Assumptions

- A deletion timestamp is permanent per UID; so are a Job's payload and its ended condition
  (conditions are only appended).
- Reconciles of one object are serialized; those of different objects are not.
- Nobody but the operator edits its consumer labels, its finalizer or its conditions. Ownership
  labels of namespaces may change at any time.
- One management namespace per SharedComponent name: the consumer label goes by the bare name
  (internal/controller/shared.go:458-460), the lease by namespace (internal/controller/shared.go:34).
- Cached reads return any earlier version, or none. Only the deployment passes (`DeployRuns`,
  `DeployOrder`) start from the status last persisted; `RetryAccounting` says what older reads do.
- Clocks agree. Capacity assumes in addition that a write whose 10 s context has expired does not
  land, and that only the operator deletes its leases (`Rules.bounded`); the drain barrier does not.
- Marshalling is injective, so Deployer payloads are compared as options. A Provisioner payload is
  its digest, compared as such. Templates, random values and the digest of a UID are inputs.

## What does not hold as one might expect

- A registration may report success after its component was drained
  (`LateSuccess.SuccessMayComeLate`), though it can no longer confirm, and its namespace is gone.
  `LateSuccess.SuccessIsOverExactlyWhen` says when; with the lease respected it never happens
  (`LastAdmission.AdmissionIsOver`).
- The bound flag, and with it the target, is not frozen once set, for live environments as little
  as for deleted ones. `setFailed` goes out in an unlocked merge patch, which replaces the whole
  list of conditions with that of a read that may be old
  (internal/controller/ephemeralenvironment_controller.go:194-199, 718-732). An environment with
  work may so lose the flag and be given another target, away from its work
  (`LifecycleClobber.TargetMayMove`), and one that is being deleted may be released although nobody
  cleaned up its work (`LifecycleClobber.WorkMayBeLost`).
  `LifecycleTheorems.BoundIsLostExactlyWhen` and `BoundIsForeverExactlyWhen` give the exact
  condition for steps and for runs, `TargetMovesOnlyPastALoss` ties the target to it, and
  `NothingIsLost` is the guarantee for runs without such a patch. The work of an environment was
  cleaned up by a pass that knew of it exactly when `LifecycleRelease.WorkIsCleanedExactlyWhen` says.
- CleanupComplete need not have been persisted when the finalizer of a bound environment goes. One
  such patch takes the flag away, another brings it back, and a pass over a read from between finds
  the namespace not owned and the environment not bound, and releases it
  (internal/controller/ephemeralenvironment_controller.go:380-386, 703-707;
  `LifecycleClobber.BoundMayBeReleased`). `LifecycleRelease.ReleaseSlipsExactlyWhen` and
  `InOrderExactlyWhen` give the exact condition for steps and for runs, also for environments that
  were bound once; `NoLossReleasesInOrder` shows that no run without a lost flag meets it.
- A failed environment does not stay failed, nor are used-up retries found in failed environments
  only: one that expires, whose deletion does not go through, and whose template's deadline moves is
  back at deploying (`DeployRuns.ExpiryRevives`). `DeployRuns.FailedStaysExactlyWhen` and
  `SpentStaysExactlyWhen` give the exact condition for each, over runs of one generation.
- Generated keys of an instance secret are said never to rotate once written
  (internal/controller/sharedcomponent_controller.go:200-201). They do not while they stay generated
  (`InstanceSecret.GeneratedKeysNeverRotate`); a key that leaves the spec and comes back is
  generated anew (`InstanceSecret.ReturningKeyRotates`), unless the spec gave it the same value in
  between (`InstanceSecret.ValueIsKeptExactlyWhen`).
- The secret of a deleted binding may be handed on again, while another binding is there, by a
  call whose cache still shows the old one (`BindingSecret.StaleBindingIsUsed`).
  `BindingSecret.SecretIsKeptExactlyWhen` says when everything keeps to one secret.
- Nothing keeps a provider's binding keys from the reserved key petri.generated-secret
  (internal/controller/shared.go:174-184). A provider that renders it makes the first call hand on
  one secret and all later ones another (`BindingSecret.ReservedKeyOverrides`); everything is from a
  binding exactly without it, in a step and over runs (`BindingSecret.StepKeepsInvExactlyWhen`,
  `SecretsAreBoundExactlyWhen`).
- One deploy Job may raise the persisted retry count twice. A pass over an older version lands its
  whole list, which lowers the count; the next submit leaves the failed Job alone for a cache that
  shows it at work, and its failure counts again (`RetryRuns.FallRaisesTwice`). Without such a fall
  no Helm Job does, however old the reads and whatever patches are lost
  (`RetryRaises.NoJobRaisesTwice`); `CountFallsExactlyWhen` and `CountClimbsExactlyWhen` say exactly
  when the count falls, and `NextPassRaisesExactlyWhen` whom the next pass may charge, again or not.
- A provision Job, whose payload carries no attempt, may raise the count twice even though every pass
  reads the version last persisted; with such reads a component's Jobs raise it once exactly if it is
  no shared one (`RetryRuns.RaisesOnceExactlyForHelm`). `SharedRetries.SharedRaisesOnceWhenSpared`
  says in which runs a provision Job does not.

## Model

| member | source | states |
|---|---|---|
| SharedRegistration.DeleteIfExpired | internal/controller/shared.go:38-49 | A lease that was read is deleted, by UID and version, only when it has expired by now; undisturbed, if and only if |
| SharedRegistration.ClearTheWay | internal/controller/shared.go:36-52 | The way is free only when no lease was there or an expired one was deleted; undisturbed, exactly then |
| SharedRegistration.AcquireProvisionLease | internal/controller/shared.go:31-75 | A lease returned is one this process created, None means somebody holds it, anything else is an error; undisturbed, one is created exactly when the lease is free |
| SharedRegistration.CheckCapacity | internal/controller/shared.go:107-121 | Undisturbed: at capacity exactly when the namespace is no consumer and there are maxConsumers already |
| SharedRegistration.RegisterUnderLease | internal/controller/shared.go:101-133 | Success is on the record of admissions, for the component whose UID was read first; undisturbed, the verdict is exact and a success left its label |
| SharedRegistration.OutcomesOfJoining | internal/controller/shared.go:101-133 | At capacity exactly when there is a maximum, the namespace is no consumer yet, and there are that many; without a maximum, and for a consumer, never |
| SharedRegistration.LabelConsumer | internal/controller/shared.go:256-271 | The namespace that was read carries the label, patched under its version or found there |
| SharedRegistration.Confirm | internal/controller/shared.go:127-133 | The second read of the component: undisturbed, an open one with the UID read first is a success |
| SharedRegistration.LabelAndConfirm | internal/controller/shared.go:122-133 | Success needs the label, and a second read of the same component, open |
| SharedRegistration.RegisterConsumer | internal/controller/shared.go:85-134 | A registration that succeeds for a drained component belongs to a namespace that is gone; undisturbed, the verdict is exactly what lease, component, namespace and capacity allow |
| SharedRegistration.CountUnderLease | internal/controller/sharedcomponent_controller.go:271-282 | True only when the live list of consumers is empty after the deletion was seen |
| SharedRegistration.ConsumersDrained | internal/controller/sharedcomponent_controller.go:259-283 | True means that every namespace ever admitted to this UID is gone; undisturbed, true exactly for a free lease and a component being deleted without consumers |
| SharedRegistration.TearDown | internal/controller/sharedcomponent_controller.go:285-356 | An uninstall is submitted, retried or taken as done only for a drained component whose consumers are all gone, with no deploy Job at work or on its way out in a live look; taken as done only when it succeeded or failed for the fifth time; undisturbed, the outcome of every combination |
| SharedTeardown.OutcomesOfTeardown | internal/controller/sharedcomponent_controller.go:285-356 | When each outcome comes, for every look at the two Jobs and every count: released exactly for an uninstall that succeeded or failed for the fifth time, submitted exactly where there is none, deferred for one at work |
| SharedTeardown.FinalizerGoesExactlyWhen | internal/controller/sharedcomponent_controller.go:285-356 | Over any run of passes the finalizer is gone if and only if, at a pass that found the component drained and no deploy Job at work and whose patch landed, the uninstall had succeeded or failed for the fifth time |
| SharedTeardown.VisitChanges | internal/controller/sharedcomponent_controller.go:285-356 | A pass that finds the uninstall at work, a deploy Job, or consumers changes nothing |
| SharedTeardown.LeaseFreesItself | internal/controller/shared.go:36-52 | After any run, and more than thirty seconds on, nobody who crashed holds the lease: the way is free exactly unless a lease without a time was left |
| DrainBarrier.DrainBarrier | internal/controller/sharedcomponent_controller.go:257-283 | For every interleaving, and without the lease: after a drain all admitted namespaces are gone for good and no registration confirms again; only drained components are uninstalled |
| DrainBarrier.NoLaterConfirmation | internal/controller/shared.go:127-132 | Over any run, a drained component confirms nobody any more |
| LateSuccess.SuccessIsOverExactlyWhen | internal/controller/shared.go:127-133 | After a drain no registration reports success in any run, if and only if none that confirmed is still within its ten seconds |
| LateSuccess.SuccessMayComeLate | internal/controller/shared.go:127-133 | A run, with the lease taken away, in which success may come after the drain |
| LastAdmission.AdmissionIsOver | internal/controller/shared.go:85-134 | With the lease respected, no registration reports success after the drain |
| Capacity.CapacityHolds | internal/controller/shared.go:107-125 | In every run of registrations, crashes and takeovers at most maxConsumers namespaces are labelled |
| Capacity.OneWriter | internal/controller/shared.go:31-75 | Two lease holders that are both within ten seconds are the same process |
| Capacity.ReleaseKeepsLeases | internal/controller/shared.go:77-83 | A late release leaves the lease on the server as it is when another process holds it, and keeps all leases sound |
| JobProtocol.TerminalPhase | internal/deployer/job.go:149-161 | The first true Complete or Failed condition decides |
| JobProtocol.TerminalMeans | internal/deployer/job.go:149-161 | A Job runs exactly while no Complete or Failed condition is true; the first that is tells how it ended |
| JobProtocol.TerminalIsPermanent | internal/deployer/job.go:149-161 | A Job that has ended stays as it ended when conditions are added |
| JobProtocol.ReplacementIsSafe | internal/deployer/job.go:46-72 | However stale the caches, no submit deletes a Job that runs or one that succeeded with the payload submitted |
| JobProtocol.JobsSucceedInOrder | internal/deployer/job.go:62-85 | The order of succession: from one content of the slot to the next it is the same Job with more conditions, or a Job being deleted gives way to an empty slot, or a new Job enters one |
| JobConvergence.StepDescends | internal/deployer/job.go:46-85 | Every step of the slot keeps or lowers the rank, except the failure of a Job with this payload |
| JobConvergence.ReplacementConverges | internal/deployer/job.go:46-85 | Rank changes over a run are bounded by the first rank plus four per failure |
| JobConvergence.FreshSubmitAdvances | internal/deployer/job.go:46-85 | With a cache that has caught up, one submit removes what is to be replaced, fills an empty slot and leaves all else |
| JobProgress.OwnJobIsKept | internal/deployer/job.go:46-58 | With unchanged inputs a Job that runs or succeeded with them stays the one in the slot, over any run of submits with caches of any age |
| JobProgress.SubmitsGetThere | internal/deployer/job.go:40-86 | Submitting one payload with fresh caches gets to a Job that runs or succeeded with it, within as many rounds as the rank of the slot plus four per failure |
| JobServer.CreateJob | internal/deployer/job.go:73-85 | Success with the Job just made in the slot, or with a taken name that is Petri's; a taken name of somebody else is an error |
| JobServer.ReplaceJob | internal/deployer/job.go:54-68 | A live read confirms what the cache said before the delete; undisturbed, both calls are made |
| JobServer.Submit | internal/deployer/job.go:40-86 | Every write is a step of the protocol, so nothing that runs or is done with the payload is deleted; undisturbed, it makes every step there is, those of JobConvergence.FreshSubmitAdvances; also internal/provisioner/job.go:64-111 |
| JobServer.OutcomesOfWholeSubmit | internal/deployer/job.go:40-86 | Whatever the age of its cache, an undisturbed submit deletes a Job exactly when that is to be replaced both in the cache and live and is the same one, makes one exactly when there is none in both, and fails exactly for a taken name of somebody else |
| JobServer.FailureReason | internal/deployer/job.go:176-193 | The first termination message of the Job's pods, or a text that names the operation, unreadable pods told apart |
| JobServer.ReasonIs | internal/deployer/job.go:176-193 | The message of the first container, Pod by Pod, that left one; without any a text that names the operation |
| JobServer.Observe | internal/deployer/job.go:104-140 | Whatever the age of the cache: a Job is ongoing exactly when the cache shows it at work; an end is reported only of a Job with this payload that ended so and stood in the slot live, a failure with its reason. With a fresh cache: ongoing, ended or pending exactly as the slot is; also internal/provisioner/job.go:113-150 |
| ReleaseJobs.WantedTells | internal/controller/deploy.go:287-299 | Two payloads are the same exactly for the same attempt and the same rendered component |
| ReleaseJobs.SubmitRelease | internal/controller/deploy.go:82-93 | A component that does not render is not submitted; else, undisturbed, all that submit does is done with the payload of its inputs, whatever the order of iteration |
| ReleaseJobs.ObserveRelease | internal/controller/deploy.go:187-196 | What is observed is the Job of the payload of these inputs, whatever the order of iteration; with a fresh cache, exactly |
| ReleaseJobs.SubmittedIsWanted | internal/deployer/job.go:126-138 | The Job that a submit makes in an empty slot runs with the very payload that observing unchanged inputs asks for |
| RetryAccounting.WitnessIsThisAttempt | internal/deployer/job.go:126-138 | A Job that observe answers for carries the attempt of the version that was read |
| RetryAccounting.BooksBalanceExactlyWhen | internal/controller/component_status.go:52-75 | Over any run, with passes over versions of any age, the retries on the server are exactly the charges and refused submits at every time, if and only if no list lands from a read with another retry count that leaves the component unready |
| RetryRaises.NoJobRaisesTwice | internal/controller/component_status.go:52-75 | Between resets no Helm Job raises the persisted retry count twice, by failure or readiness timeout, also when patches are lost and passes repeat over versions of any age, as long as no landing lowers the count |
| RetryRaises.CountFallsExactlyWhen | internal/controller/ephemeralenvironment_controller.go:194-199 | But for resets a step lowers the persisted count if and only if a list lands, leaving the component unready, from a read whose count with the retry it adds is below the one on the server |
| RetryRaises.CountClimbsExactlyWhen | internal/controller/ephemeralenvironment_controller.go:180-203 | Over any run: between resets the persisted count only climbs, if and only if no such list lands |
| RetryRaises.NextPassRaisesExactlyWhen | internal/controller/deploy.go:194-258 | The next pass, whatever version it reads and whatever it is answered, can raise the count for a given Job if and only if a version with no smaller count waits for that Job, which failed with its payload, or deploys since its success |
| RetryRuns.FallRaisesTwice | internal/controller/ephemeralenvironment_controller.go:194-199 | For every Helm component a run in which one Job raises the persisted count from 0 to 1 twice, without a reset |
| RetryAccounting.NoJobIsChargedTwice | internal/controller/deploy.go:287-299 | While the books balance each Helm Job is charged once at most between resets |
| RetryAccounting.UpToDateIsNeverDated | internal/controller/ephemeralenvironment_controller.go:180-203 | No such list lands when every pass reads the version last persisted |
| RetryRuns.StaleReadUnbalances | internal/controller/ephemeralenvironment_controller.go:194-199 | A run in which a repeated pass over an older version charges a Helm Job twice, while the persisted count rises once |
| RetryRuns.SharedJobMayBeChargedTwice | internal/provisioner/job.go:154-160 | For every shared component a run, over the versions last persisted, in which one provision Job is charged, and raises the count, twice |
| RetryRuns.RaisesOnceExactlyForHelm | internal/controller/deploy.go:287-299 | Over the versions last persisted, no run makes a Job of the component raise the count twice if and only if the component is not shared |
| SharedRetries.SharedRaisesOnceWhenSpared | internal/provisioner/job.go:154-160 | Nor does a provision Job in the runs in which its component waits for its Job again only when the one that was charged is gone or being deleted |
| Kahn.CountDependencies | internal/graph/kahn.go:15-27 | Finds duplicate names exactly; in-degrees count dependency entries |
| Kahn.LinkDependents | internal/graph/kahn.go:29-46 | Finds unknown dependencies exactly; dependents are listed as often as they list a dependency |
| Kahn.Discharge | internal/graph/kahn.go:61-66 | Who reaches zero joins the queue once, with repeated entries too |
| Kahn.TakeLevel | internal/graph/kahn.go:55-70 | After a level the in-degrees are the unprocessed entries, and the queue is who waits for nothing |
| Kahn.BuildLevels | internal/graph/kahn.go:14-83 | Succeeds exactly for unique names, known dependencies and no cycle; then every component is listed once, at the length of its longest chain |
| DependencyGraph.LongestExcludesCycles | internal/graph/kahn.go:78-80 | If every component has a longest chain there is no cycle |
| DependencyGraph.StuckMeansCycle | internal/graph/kahn.go:78-80 | A set in which everybody needs a member contains a cycle |
| DependencyGraph.NeedsDescends | internal/graph/kahn.go:11-13 | What is needed, directly or through others, has a strictly shorter longest chain |
| ComponentStatus.PutIsUpdate | internal/controller/component_status.go:35-116 | The status list behaves as a map from names and never repeats one |
| Environment.Env.FindComponent | internal/controller/component_status.go:109-116 | The first entry with the name |
| Environment.Env.SetComponentPhase | internal/controller/component_status.go:35-44 | The whole new status: one entry updated or appended |
| Environment.Env.SetComponentShared | internal/controller/component_status.go:46-50 | The whole new status |
| Environment.Env.RecordRuntimeFailure | internal/controller/component_status.go:52-68 | The whole new status, with 32-bit retries; true when they reach five |
| Environment.Env.ResetComponentFailure | internal/controller/component_status.go:70-75 | The whole new status |
| Environment.Env.SetComponentDeployingSince | internal/controller/component_status.go:77-81 | The whole new status; a start on record is kept |
| Environment.Env.SetFailed | internal/controller/ephemeralenvironment_controller.go:718-732 | The environment is failed, with the reason |
| Backoff.LargestRetriesIsLargest | internal/controller/component_status.go:91-100 | The count shifted by is the largest non-negative one of the listed components |
| Backoff.OverflowIsCoarse | internal/controller/component_status.go:102-105 | From 30 retries on the wrapped value is a multiple of 2^40 ns |
| Backoff.GuardedShiftIsExact | internal/controller/component_status.go:102-106 | The 64-bit shift with its two guards is min(10 s * 2^k, 5 min) for every k |
| Backoff.IntendedIsMonotone | internal/controller/component_status.go:90-107 | The wait grows with the retries and stays within 10 s and 5 min |
| Backoff.DeployBackoff | internal/controller/component_status.go:90-107 | The wait intended for the component with the most retries |
| Deploy.PartitionLevel | internal/controller/deploy.go:52-66 | The three lists are the level's components in the phases that ask for them, in order |
| Deploy.SelectIsExact | internal/controller/deploy.go:52-66 | Each list holds exactly the components whose phase asks for that work |
| Deploy.PhaseByNameIsGet | internal/controller/ephemeralenvironment_controller.go:294-297 | The phases by name are those of the status |
| DeployPass.Record | internal/controller/component_status.go:52-68 | A failure on the record, and a failed component when it was the last allowed |
| DeployPass.AdoptShared | internal/controller/deploy.go:97-105 | The first loop of submitDeploys equals its specification |
| DeployPass.SubmitOne | internal/controller/deploy.go:110-149 | What one answer to a submit does to the status and the flags |
| DeployPass.SubmitDeploys | internal/controller/deploy.go:97-160 | Status and requeue equal the specification, for all answers |
| DeployPass.ObserveShared | internal/controller/shared.go:408-434 | What one observed provision Job does |
| DeployPass.ObserveOne | internal/controller/deploy.go:196-218 | What one observed deploy Job does |
| DeployPass.ObserveDeploys | internal/controller/deploy.go:173-229 | Status and result equal the specification, early returns included |
| DeployPass.CheckOne | internal/controller/deploy.go:236-258 | A readiness timeout is a retry, with the timeout in its reason; readiness clears the retries |
| DeployPass.CheckReadiness | internal/controller/deploy.go:231-270 | Status and requeue equal the specification |
| DeployPass.ProcessLevel | internal/controller/deploy.go:33-50 | Submission goes first, then observation, then readiness |
| DeployMoves.StepIsMove | internal/controller/deploy.go:107-258 | A step of any of the loops changes one component's entry, by a move that depends on that entry alone |
| DeployLoops.StepsMove | internal/controller/deploy.go:107-258 | However the loops share one list, each component moves once at most, and nobody outside the list |
| DeployLoops.StepsNotice | internal/controller/deploy.go:107-258 | Whoever uses up its retries ends the loop in failure |
| DeployOutcomes.OutcomesOfMove | internal/controller/deploy.go:97-258 | When each phase, count and start comes, for every component and every answer: told by what a component ends in, not by the branch that leads there |
| DeployOutcomes.ReasonOfMove | internal/controller/deploy.go:97-258 | What is put on record of each failure, and that success clears it |
| DeployOutcomes.TimesOutExactlyWhen | internal/controller/deploy.go:236-246 | A component is timed out exactly when more than the timeout has gone by since its start on record |
| DeployOutcomes.RunningKeepsEntry | internal/controller/deploy.go:196-218 | While a component's Job runs, a look at it leaves its entry alone and lets the pass wait |
| DeployOutcomes.LoopReaches | internal/controller/deploy.go:107-258 | How far each loop comes: all move as their answers say up to the first that stops it |
| DeployOutcomes.StepsEnd | internal/controller/deploy.go:107-258 | A loop ends the environment exactly when a component fails in it that had not |
| LevelOutcomes.SelectedAre | internal/controller/deploy.go:52-66 | By the status: those pending are submitted, those submitting observed, those deploying checked, and nobody else |
| LevelOutcomes.ObserveEnds | internal/controller/deploy.go:173-229 | The pass goes on to readiness exactly when every Job it looked at succeeded |
| LevelOutcomes.LevelMoves | internal/controller/deploy.go:33-270 | Which components of a level a pass moves, and how far each loop comes, for all answers: submits first; without any, looks at Jobs; when all succeeded, probes; nothing when a fetch failed |
| DeployWaits.LevelWaits | internal/controller/deploy.go:151-270 | The wait after a pass in which nobody gave up: min(10 s * 2^k, 5 min) for the largest count k among those in for the same work when a failure went on record, else 10 s while something is left to wait for, else 1 s; an error exactly when a call that was needed got none |
| DeployReasons.LevelReports | internal/controller/deploy.go:107-258 | The reason the environment reports is that of a component that failed in this pass, by the work it was in for; without one the reason stays |
| DeployRuns.PassIsLawful | internal/controller/ephemeralenvironment_controller.go:278-331 | In one pass every component moves by the table: ready and failed ones never, a retry clears the start, deploying starts now and times out only after a full timeout; retries are used up only by a pass that fails the environment |
| DeployRuns.GenerationIsLawful | internal/controller/ephemeralenvironment_controller.go:278-331 | Over any run in one generation: names unique, retries at most five and five only when failed, ready and failed components never touched; a failed environment is left as it is as long as no expiry is persisted |
| DeployRuns.FailureIsLeftExactlyWhen | internal/controller/ephemeralenvironment_controller.go:249-253 | A pass leaves failure if and only if it is a persisted expiry, and leaves used-up retries in an environment that is not failed if and only if that environment has some |
| DeployRuns.FailedStaysExactlyWhen | internal/controller/ephemeralenvironment_controller.go:249-331 | Over any run in one generation a failed environment is failed all along if and only if no expiry is persisted |
| DeployRuns.SpentStaysExactlyWhen | internal/controller/ephemeralenvironment_controller.go:249-331 | Over any run in one generation used-up retries are found in a failed environment only, all along, if and only if no expiry of an environment that has some is persisted |
| DeployRuns.ExpiryRevives | internal/controller/ephemeralenvironment_controller.go:249-253 | A failed environment that expired and was not deleted is back at deploying |
| DeployRuns.PassComesBack | internal/controller/ephemeralenvironment_controller.go:290-331 | A pass that leaves the environment deploying is followed by another within five minutes |
| EnvironmentPhase.PhaseOfPass | internal/controller/ephemeralenvironment_controller.go:215-331 | The phase after every pass: over a template that can be deployed, and unless it has failed, the environment is ready exactly when every component of the template is on record as ready, failed exactly when a component fails in this pass, else deploying |
| EnvironmentPhase.QuietPassIsLast | internal/controller/ephemeralenvironment_controller.go:228-331 | A pass that fails before the levels, expires, finds failure or finds everything ready asks for no other |
| EnvironmentPhase.GenerationStartsOver | internal/controller/ephemeralenvironment_controller.go:216-226 | A new generation starts from nothing, a failure included |
| EnvironmentPhase.ReadyMeansUp | internal/controller/ephemeralenvironment_controller.go:294-331 | Over every run with one template, an environment reported ready has all its components ready |
| EnvironmentPhase.UpGetsReady | internal/controller/ephemeralenvironment_controller.go:294-331 | Once all are ready it is reported with the first pass that opens, and from then on |
| EnvironmentPhase.ReadyStaysExactlyWhen | internal/controller/ephemeralenvironment_controller.go:228-331 | A ready environment is ready all along a run if and only if no persisted pass finds it expired, a failure before the levels, or a template that cannot be deployed |
| DeployProgress.PassMoves | internal/controller/ephemeralenvironment_controller.go:294-324 | A pass works on the first level that is not ready, all before being ready: moves, wait and reason are those of that level |
| DeployProgress.GoodRunGetsReady | internal/controller/deploy.go:33-270 | An environment in which nothing has failed is ready, every component too, after three passes a level and one more whose calls are answered as hoped |
| DeployOrder.NeededIsReady | internal/controller/ephemeralenvironment_controller.go:299-305 | What a component of the first pending level needs is ready |
| DeployOrder.HandedNeedsReady | internal/controller/ephemeralenvironment_controller.go:278-324 | Whoever is handed to submitDeploys has all it needs, transitively, ready in that pass's status |
| DeployOrder.SubmissionsFollowTheOrder | internal/controller/ephemeralenvironment_controller.go:278-324 | The submissions of a whole run extend the dependency order |
| Reconcile.IsAllReady | internal/controller/component_status.go:26-33 | True exactly when every component of the level is ready |
| Reconcile.FindFirstPending | internal/controller/ephemeralenvironment_controller.go:299-305 | The first level that is not ready |
| Reconcile.CollectPhases | internal/controller/ephemeralenvironment_controller.go:294-297 | The later of two entries with one name counts |
| Reconcile.AnyTooLong | internal/controller/ephemeralenvironment_controller.go:283-288 | Finds a release name of more than 53 characters exactly |
| Reconcile.DeployEnvironment | internal/controller/ephemeralenvironment_controller.go:294-331 | Status, result and what is submitted equal the specification, whose outcomes are those of EnvironmentPhase.PhaseOfPass and DeployProgress.PassMoves |
| Reconcile.ReconcileOnce | internal/controller/ephemeralenvironment_controller.go:215-331 | Status, result and what is submitted equal the specification, over levels that BuildLevels may answer |
| Undeploy.ObserveStates | internal/controller/undeploy.go:65-77 | Shared and given-up components count as uninstalled |
| Undeploy.ObserveUndeployLevel | internal/controller/undeploy.go:62-105 | Status, done flag and what is to be submitted equal the specification, whose outcomes are those of UndeployProgress.PassDoes |
| Undeploy.SubmitUndeployLevel | internal/controller/undeploy.go:107-112 | An error of one submit is reported, and keeps none of the others back |
| Undeploy.UndeployAll | internal/controller/undeploy.go:31-60 | The reverse pass over exact levels, or over one flat level when there are none |
| Undeploy.UndeployFollowsTheOrder | internal/controller/undeploy.go:40-57 | An undeploy is submitted only when every transitive dependent is uninstalled, shared or given up |
| Undeploy.DoneMeansAllGone | internal/controller/undeploy.go:40-59 | Done exactly when every component is |
| Undeploy.FlatDoneMeansAllGone | internal/controller/undeploy.go:34-38 | In the fallback without levels, whatever led to it: done only when every component is gone, and with unique names exactly then |
| UndeployProgress.PassDoes | internal/controller/undeploy.go:31-105 | Whatever the answers, a pass comes to the last level that is not gone and submits there exactly who asks for it, recording exactly the failures of this and the later levels; it breaks off exactly when a look at that level or a submit fails |
| UndeployProgress.DoneNotes | internal/controller/undeploy.go:40-59 | A pass that finds everything gone submits nothing |
| UndeployProgress.SubmittedExactlyWhen | internal/controller/undeploy.go:40-105 | When no look fails: submitted exactly who is not shared and not given up, whose Job is absent or failed with a retry left, once every component with a longer dependency chain is gone |
| UndeployProgress.WaitingHasWork | internal/controller/undeploy.go:40-57 | A pass that waits has submitted something or found a Job at work |
| UndeployProgress.TeardownEnds | internal/controller/undeploy.go:31-105 | Whatever the Jobs come to: if looks and submits are answered, and each Job that was submitted has ended by the next pass, a teardown is done after five passes a level and one more |
| UndeployProgress.NobodyIsSkipped | internal/controller/undeploy.go:65-105 | Over any run, a teardown that is done has seen an uninstall of every component ended, but for shared ones and those with a failed uninstall on record before |
| Deprovision.RemovedIsPrefix | internal/controller/ephemeralenvironment_controller.go:474-485 | Objects are deleted in order, up to the first that cannot be |
| Deprovision.SettleJob | internal/controller/ephemeralenvironment_controller.go:514-560 | What is deleted, recorded and submitted for each state of the deprovision Job |
| Deprovision.Settle | internal/controller/ephemeralenvironment_controller.go:446-560 | Every call for one shared component in its order: the status, the objects deleted, and whether the loop goes on, submits, waits or breaks off |
| Deprovision.DeprovisionShared | internal/controller/ephemeralenvironment_controller.go:438-564 | Status, objects deleted, what is submitted and the verdict equal the specification, whose outcomes are those of DeprovisionObjects.PassDoes and DoneTakesAll |
| Deprovision.DoneMeansAllSettled | internal/controller/ephemeralenvironment_controller.go:438-564 | For every template, duplicate names or not: done only when every allocation is settled, and nothing is deleted while a provision Job is at work or before a scripted deprovisioning came to its end |
| Deprovision.DeprovisionMeans | internal/controller/ephemeralenvironment_controller.go:438-564 | Done exactly when every allocation is settled; one deprovisioning at a time, after all before it are settled |
| DeprovisionObjects.StepGoesOn | internal/controller/ephemeralenvironment_controller.go:446-560 | A component lets the pass go on exactly when it is settled, every object due deleted; it submits exactly when its Job is absent or failed with a retry left |
| DeprovisionObjects.PassDoes | internal/controller/ephemeralenvironment_controller.go:438-564 | With unique names: the objects deleted, object by object, up to the first component that is not settled; the deprovisioning of that one submitted exactly when it is due; it waits exactly while something is at work |
| DeprovisionObjects.DoneTakesAll | internal/controller/ephemeralenvironment_controller.go:469-538 | For every template: a pass that is done deletes exactly the credentials and the binding of every allocation, the provision Job but for a script given up, and the Job of a script that succeeded; the binding goes last |
| CleanupPass.Undeploy | internal/controller/undeploy.go:31-60 | With or without levels, done means that every component is gone; with unique names exactly |
| CleanupPass.Deprovision | internal/controller/ephemeralenvironment_controller.go:438-564 | Done means that every allocation is settled; with unique names exactly |
| CleanupPass.CleanUp | internal/controller/ephemeralenvironment_controller.go:397-435 | For a bound environment with a template CleanupComplete is set only when every component is gone and every allocation settled, and with unique names always then; it is always set without a template, and never when that cannot be read |
| LifecycleController.PatchStatus | internal/controller/ephemeralenvironment_controller.go:182-203 | A checkpoint that the server took is now current, exactly as the pass made it; undisturbed, the merge of the patch is exact |
| LifecycleController.CreateNamespace | internal/controller/ephemeralenvironment_controller.go:602-650 | Undisturbed: bound exactly if the live namespace is owned and not terminating, or missing and the environment unbound, when it is created |
| LifecycleController.CreateMissing | internal/controller/ephemeralenvironment_controller.go:619-647 | Undisturbed, a missing namespace is created and owned; a name that is taken meanwhile is looked at again |
| LifecycleController.LookAgain | internal/controller/ephemeralenvironment_controller.go:633-643 | The second live read judges a taken name exactly |
| LifecycleController.Place | internal/controller/ephemeralenvironment_controller.go:207-209 | A target is allocated, a longer one after a foreign namespace; also lines 261-264 |
| LifecycleController.UseNamespace | internal/controller/ephemeralenvironment_controller.go:270-276 | A pass that finds the environment unbound binds it and does nothing else |
| LifecycleController.EnterNamespace | internal/controller/ephemeralenvironment_controller.go:260-276 | Undisturbed: what is sent and whether work is done follow exactly from the live namespace and the bound flag |
| LifecycleController.Reconcile | internal/controller/ephemeralenvironment_controller.go:170-276 | Every call is a step of the lifecycle; undisturbed, the status sent, the namespace made and the work done are exact for every target, gate and namespace |
| LifecycleController.CleanUpFirst | internal/controller/ephemeralenvironment_controller.go:397-435 | A cleanup goes on record exactly unless the template is unreadable, or there and a bound environment's cleanups are not both done; undisturbed, CleanupComplete is set exactly then |
| LifecycleController.DeleteOwn | internal/controller/ephemeralenvironment_controller.go:388-393 | The delete names the UID and version read, and goes on only without a conflict |
| LifecycleController.RemoveNamespaceToo | internal/controller/ephemeralenvironment_controller.go:388-395 | The finalizer goes only after a delete guarded by UID and version, or a namespace already gone |
| LifecycleController.RemoveFinalizer | internal/controller/ephemeralenvironment_controller.go:703-707 | A release is on record with the version it was based on |
| LifecycleController.ReconcileDelete | internal/controller/ephemeralenvironment_controller.go:334-436 | Every call is a step of the lifecycle; undisturbed, it releases, fails, removes its namespace, cleans up or waits exactly as target, ownership and conditions say |
| LifecycleController.ReconcileRead | internal/controller/ephemeralenvironment_controller.go:150-168 | Over a read of any age: work is for bound environments, only own namespaces are deleted, releases and cleanups are in order; undisturbed, the whole server after the pass |
| LifecycleProgress.OutcomesOfDeletion | internal/controller/ephemeralenvironment_controller.go:334-436 | When each outcome of a deletion comes, told by target, ownership, conditions, template and cleanups |
| LifecycleProgress.MissingTemplateCleans | internal/controller/ephemeralenvironment_controller.go:397-435 | A missing template never holds back the CleanupComplete of an owned environment |
| LifecycleProgress.DeletionEnds | internal/controller/ephemeralenvironment_controller.go:334-436 | A deleted environment whose cleanups finish is gone after two fresh passes, if and only if its target is valid and it has not lost the namespace it is bound to; otherwise such passes leave it as stuck as it was |
| LifecycleProgress.OutcomesOfPass | internal/controller/ephemeralenvironment_controller.go:260-276 | A pass binds, and does work, exactly when it gets to a namespace that is its own or can be created |
| LifecycleProgress.TargetsOfPass | internal/controller/ephemeralenvironment_controller.go:207-268 | When a pass sets the target, and to which name the search finds |
| LifecycleProgress.ReasonsOfPass | internal/controller/ephemeralenvironment_controller.go:211-276 | What a pass reports, for each thing that may stop it |
| LifecycleProgress.WorkFollows | internal/controller/ephemeralenvironment_controller.go:150-276 | From its creation on, all of n favoured passes over an environment do work but the first three |
| LifecycleSafety.DeletedIsOwned | internal/controller/ephemeralenvironment_controller.go:380-394 | A deletion that commits meets the very namespace that was read |
| LifecycleSafety.DeletionIsPermanent | internal/controller/ephemeralenvironment_controller.go:157-159 | A version being deleted is never followed by one that is not |
| LifecycleTheorems.WorkIsBound | internal/controller/ephemeralenvironment_controller.go:260-276 | Over all runs, work is done only on the word of a persisted version that was bound and not deleted |
| LifecycleTheorems.OnlyOwnNamespacesAreDeleted | internal/controller/ephemeralenvironment_controller.go:380-394 | At the instant a deletion commits the namespace is managed and carries this UID as its owner, even when labels change between the read and the delete |
| LifecycleTheorems.TargetOnlyGrows | internal/controller/ephemeralenvironment_controller.go:207-213 | The target is empty or of an allowed length, grows strictly, is assigned twelve times at most, and never changes from a version that is itself bound; whether an environment once bound keeps it is what the next rows say |
| LifecycleTheorems.CleanupBeforeRelease | internal/controller/ephemeralenvironment_controller.go:367-435 | A pass that releases on the word of a bound version read its CleanupComplete, set by an earlier pass, and that is set only after both cleanups when the template was there; what of an environment that is bound at the release is said in the next rows |
| LifecycleRelease.ReleaseSlipsExactlyWhen | internal/controller/ephemeralenvironment_controller.go:376-386 | A release that lands on an environment that is bound, or ever was, finds CleanupComplete never persisted if and only if its pass read no bound flag and no version has CleanupComplete |
| LifecycleRelease.InOrderExactlyWhen | internal/controller/ephemeralenvironment_controller.go:367-435 | Over any run, judged by the persisted versions alone: the finalizer of an environment that was ever bound goes only after CleanupComplete was persisted, if and only if no such release lands |
| LifecycleRelease.NoLossReleasesInOrder | internal/controller/ephemeralenvironment_controller.go:367-435 | In runs without a lost bound flag it always does |
| LifecycleTheorems.CleanupHasOrigin | internal/controller/ephemeralenvironment_controller.go:431-434 | Every CleanupComplete goes back to a pass that set it, stale patches included |
| LifecycleTheorems.BoundIsLostExactlyWhen | internal/controller/ephemeralenvironment_controller.go:194-199 | Deleted or not, a step takes the bound flag away if and only if it is an unlocked patch of changed conditions from a read without the flag; the target stays in that step |
| LifecycleTheorems.BoundIsForeverExactlyWhen | internal/controller/ephemeralenvironment_controller.go:194-203 | Over any run, what is bound stays bound with its target if and only if no step is such a patch |
| LifecycleTheorems.TargetMovesOnlyPastALoss | internal/controller/ephemeralenvironment_controller.go:207-213 | The target of an environment that was bound once changes only in a run with such a step |
| LifecycleTheorems.BoundAfterDeletion | internal/controller/ephemeralenvironment_controller.go:194-199 | After deletion a step changes the bound flag if and only if it is an unlocked patch of changed conditions from a read that differs in it |
| LifecycleTheorems.NothingIsLost | internal/controller/ephemeralenvironment_controller.go:407-435 | In runs without such a patch bound is for ever and freezes the target, and an environment with work is released only after a cleanup that knew it was bound; a template that is gone counts as cleaned up |
| LifecycleRelease.WorkIsCleanedExactlyWhen | internal/controller/ephemeralenvironment_controller.go:407-435 | Over any run, released or not: a full cleanup by a pass that knew of the work is on record if and only if some step is a finished cleanup over a bound read, that is, some recorded cleanup read a bound version |
| LifecycleClobber.WorkMayBeLost | internal/controller/ephemeralenvironment_controller.go:194-199 | A run in which the bound flag is lost after deletion, and work with it |
| LifecycleClobber.TargetMayMove | internal/controller/ephemeralenvironment_controller.go:718-732 | A run in which the target of a bound environment with work, never deleted, moves from length 8 to 12 |
| LifecycleClobber.BoundMayBeReleased | internal/controller/ephemeralenvironment_controller.go:380-386 | A run in which an environment with work is released while bound, and no version ever had CleanupComplete |
| Namespaces.AllocateNamespace | internal/controller/ephemeralenvironment_controller.go:681-701 | The loop comes to what the search comes to |
| Namespaces.AllocationIsFirst | internal/controller/ephemeralenvironment_controller.go:681-701 | The first length from the start on whose name is free or owned; no UID and all names occupied are the errors they say, exactly |
| Namespaces.EveryLengthIsAllocated | internal/controller/ephemeralenvironment_controller.go:660-698 | Every length can come out of the search |
| Namespaces.TargetNamespace | internal/controller/ephemeralenvironment_controller.go:660-668 | Accepts exactly the names that can be allocated |
| Namespaces.NameTellsLength | internal/controller/ephemeralenvironment_controller.go:686-692 | Names of different lengths differ and have at most 62 characters, within the 63 octets of section 2.3.4 of RFC 1035 |
| InstanceSecret.FillData | internal/controller/sharedcomponent_controller.go:214-231 | In any order of keys: values from the spec, generated ones kept when they exist |
| InstanceSecret.EnsureInstanceSecret | internal/controller/sharedcomponent_controller.go:202-241 | Success means that the content read was untouched and is now what this spec asks for |
| InstanceSecret.GeneratedKeysNeverRotate | internal/controller/sharedcomponent_controller.go:200-241 | Over any run of concurrent reconciles, a key that stays generated keeps its value |
| InstanceSecret.ValueIsKeptExactlyWhen | internal/controller/sharedcomponent_controller.go:214-235 | Over any reconciles a key keeps its value for every choice of random values, if and only if the last spec among them that does not generate it, if any, gives it that value |
| InstanceSecret.ReturningKeyRotates | internal/controller/sharedcomponent_controller.go:214-235 | A run in which a key that leaves the spec and comes back has a new value |
| InstanceSecret.ValuesFollowTheSpec | internal/controller/sharedcomponent_controller.go:200-241 | The Secret has exactly the keys of the spec last written, and its values |
| BindingSecret.StepKeepsInvExactlyWhen | internal/controller/shared.go:174-184 | A step keeps what is held and handed on to the secrets of bindings there were, if and only if no rendered key takes the place of the secret just generated |
| BindingSecret.SecretsAreBoundExactlyWhen | internal/controller/shared.go:174-184 | Over any run all that is held and handed on is from a binding, all along, if and only if no such key is rendered |
| BindingSecret.OneSecretPerBinding | internal/controller/shared.go:146-213 | Without such a key, and until a binding is deleted, all credentials and Jobs get its one secret, whatever the cache says; there is at most one binding more than deletions |
| BindingSecret.StepStaysCurrentExactlyWhen | internal/controller/shared.go:146-168 | While the binding is there, a step leaves everybody with its secret if and only if it is no call that starts from a cached binding with another one |
| BindingSecret.SecretIsKeptExactlyWhen | internal/controller/ephemeralenvironment_controller.go:487-500 | So over any run without a deletion; and then all that is handed on is that secret |
| BindingSecret.StaleBindingIsUsed | internal/controller/shared.go:146-168 | A run that hands on the secret of a deleted binding while another is there |
| BindingSecret.ReservedKeyOverrides | internal/controller/shared.go:174-184 | A run in which a rendered key takes the place of the generated secret, and two are handed on for one binding |
| SharedProvision.RenderProvisionOptions | internal/controller/shared.go:218-245 | All of a valid script is rendered, command by command, or nothing |
| SharedProvision.EnsureBinding | internal/controller/shared.go:146-192 | The secret of the cached binding, or a new one whose binding was just created |
| SharedProvision.SubmitShared | internal/controller/shared.go:136-216 | Undisturbed, the outcome of every combination of answers; what is handed to the Provisioner was written to the credentials Secret before, and is the secret of a binding there was unless a rendered key took its place |
| SharedProvision.OutcomesOfSubmit | internal/controller/shared.go:136-216 | Accepted at once exactly when admitted, with a provider and a secret, and no script; accepted exactly when the script was rendered and submitted too; refused exactly otherwise |
| SharedProvision.SecretObtained | internal/controller/shared.go:146-192 | There is a secret exactly when the cache has the binding, or it can be created with keys that render; and which it is |
| SharedProvision.DeprovisionSecret | internal/controller/ephemeralenvironment_controller.go:487-500 | A deprovisioning gets the secret of the cached binding, in the credentials Secret and in its Job, or there is none |
| ConsumerValues.AllProvisioned | internal/controller/shared.go:332-338 | True exactly when every referenced component has a binding, for any order |
| ConsumerValues.SettleSecret | internal/controller/shared.go:359-367 | For any order: fails exactly when two secrets are asked for, else the one is set |
| ConsumerValues.RenderConsumerValues | internal/controller/shared.go:323-370 | The outcome and the values do not depend on any order of iteration, so observe rebuilds the payload of submit |
| ConsumerValues.RenderedMeans | internal/controller/shared.go:359-369 | Every reference is to the one secret that the chart gets |
| ConsumerValues.RenderedKeeps | internal/controller/shared.go:328-358 | The environment's variables go before the component's, its values before those rendered, and nothing else changes |
| ConsumerValues.RenderedFails | internal/controller/shared.go:332-367 | The three failures, each exactly when |

## Left out

- DeployRuns.GenerationIsLawful: passes start from the status last persisted, and what comes before the levels (template, deadline, timeout, namespace) is input as a gate.
- DeployPass.SubmitDeploys: reading the template and the bindings, and submitShared's calls, are answers given per component; Events, logs and metrics are not modelled.
- LifecycleController.Reconcile: one UID per name; an environment recreated under the name of a released one, and patches to it from reads of the old one, are not modelled.
- SharedProvision.SubmitShared: the Jobs it submits are answers, and the texts of its errors are not modelled; how binding keys render is an input.
- RetryAccounting.BooksBalanceExactlyWhen: the other components of the list enter as whether one of them changed.
- InstanceSecret.ValueIsKeptExactlyWhen: for reconciles one after the other; for overlapping ones InstanceSecret.GeneratedKeysNeverRotate is stated.
- InstanceSecret.GeneratedKeysNeverRotate: deletion of the Secret by others is not modelled.
- matchesPayload's search for the deployer container and variable, buildJob, and JSON marshalling: payloads are values.
- Job contents, Helm, chart and registry access, readiness probes: outcomes are answers.
- text/template execution, SHA-256 and random generation: uninterpreted inputs.
- TTL and timeout parsing, JobScript validation, name truncation, requeue clamping by the deadline.
- Manager setup, flags, rate limiting, RBAC objects, generated code, CRDs and charts.
