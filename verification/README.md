# The GroupJob operator: a model of its reconcile loop, with proofs

The operator watches GroupJob resources: MPI-style jobs with one launcher and a number of workers. For
each GroupJob a *sync* looks at cached cluster state and creates or repairs a Service, a ConfigMap with
the hostfile and `discover_hosts.sh`, a Secret with SSH keys, a PodGroup for the gang scheduler, the
worker pods and the launcher Job; it aligns suspension, cleans up finished or suspended jobs, and writes
the status. This project models that loop and proves what it keeps over whole runs.

How the model is laid out:

- `Types`, `Names`, `Defaults`, `Validation`: the resource, its derived names, defaulting and validation.
- `Conditions`, `Status`, `StatusSteps`: the condition list, the status computed by a sync, and the
  invariant of every stored status.
- `Listings`, `ConfigMaps`, `PodGroups`, `SortOutcomes`: lister results in any order, generated text, gang
  arithmetic, and when the order of equal priorities matters to it.
- `Api`, `Objects`, `Workers`, `Reconcile`: the API server (`ApiServer`, a class the controller's methods
  update in place), and the controller, step by step. Each method is proved equal to a function on
  cluster values; `Reconcile.SyncHandler` is the whole sync and `Reconcile.Sync` its function.
- `Runs`: runs that interleave syncs of any jobs, from any snapshots, with environment steps.
- `Scaling`, `Launching`, `Starting`: worker scale-up and scale-down, suspension, and when the launcher starts.
- `Isolation`: what one sync may touch, and that jobs do not interfere.
- `Settling`, `Convergence`, `Reachability`, `Interleaving`: repeated syncs reach a fixpoint, from every
  reachable state, for one job and for several whose syncs are interleaved.
- `Policies`, `Reported`, `Written`, `GangShares`: what a sync means to a reader of the cluster, stated from the
  resource, the pods and the Job alone, with every name, label key, reason and amount written out and none of the
  helpers the controller computes with: which jobs are left alone and what is cleaned up, what the status reports, what
  every object written looks like, and what the PodGroup asks for.

A sync takes a snapshot (`view`), the API server's state (`live`) and an environment (`Env`): the calls
that fail, the clock, the orders in which listers and the unstable sort return things, the uid given to a
new launcher, the generated keys, and which gang scheduler is configured. Theorems about stored statuses,
about isolation and about what a job's names and labels hold are for every snapshot, however stale, and
every failure of calls; so is the only-if half of when a launcher starts. Convergence, suspension and the
if half are about snapshots that have caught up.

Assumptions about the rest of the cluster, each stated as a predicate:

- A Complete Job carries a completion time (`Runs.ViewOk`; `Runs.BothOutcomesWithoutCompletionTime` shows it
  is needed), and nobody but the operator writes a GroupJob's status (`Runs.EnvironmentStep`).
- For isolation: nobody hands a job objects at other places or puts a job's worker labels on pods with other
  names (`Isolation.WorldStep`; `Isolation.ScaleDownTakesAnyOwner` shows it is needed).
- For convergence from every reachable state: the job keeps its uid, and nobody else plants objects under its
  names or pods under its labels (`Reachability.WorldPlantsNothing`). Specs may change at any time, the
  `runLauncherAsWorker` flag included; snapshots may lag and calls fail.

In the table, *n* is the worker replica count. A sync is *calm* if its snapshot is current, no call fails and
the listers and the sort return what they should in some order (`Settling.Calm`; `Convergence.CalmExists`
gives one for every job). A state is *tidy* if the stored status keeps its invariant, Complete Jobs carry
completion times, and no foreign object holds one of the job's names (`Convergence.Tidy`). A job is *active*
if it is neither ignored, finished nor suspended and its launcher has not finished (`Convergence.Active`). It
is *scalable* if the selected pods are its own workers, each labelled under either value of
`runLauncherAsWorker`, and it is *schedulable*: with gang scheduling on, its PodGroup is computed, and is the
same one, however the replicas are sorted (`Convergence.Scalable`, `Settling.Schedulable`). The first is so in
every reachable state (`Reachability.ReachableIsTidy`). For the second `SortOutcomes.OneSpecIff` gives the exact
condition on the spec; every accepted job with launcher and workers only meets it
(`Settling.SchedulableJobs`), and an active job that does not never settles (`Reachability.NeverSteady`).

What the proofs show about the code, where a reader might expect otherwise:

- With `runLauncherAsWorker`, index labels start at 1 but are compared with the bare replica count, so a
  scale-down deletes the last wanted worker too, and the next round creates it again. The whole system
  still settles, in three syncs instead of fewer; `Convergence.ActiveConverges` says exactly when.
- When scaling down meets a pod without an index label, `getOrCreateWorker` returns no pods and no error,
  and a launcher that should wait for its workers is started (`Starting.LauncherStartsIff`,
  `Starting.WaitingStarts`).
- The scale-down loop deletes by label alone, whoever controls the pod (`Isolation.ScaleDownTakesAnyOwner`).
- The PodGroup asks for more than its minimum members cost when workers outrank the launcher: the launcher
  entry is the one that is set to `minMember - 1` (`PodGroups.GangMinimum`).
- A negative `minAvailable` without a worker spec makes the trim index a second entry that is not there, and
  a third replica type without a count is dereferenced if it sorts first or second
  (`SortOutcomes.ValidatedJobPanicsIff`); at the largest worker count the default `minMember` wraps
  (`PodGroups.DefaultPodGroup`).
- Validation lets other replica types through. With a third type the gang resources may depend on the order
  of map iteration (`SortOutcomes.ThirdReplicaTypeMatters`); `SortOutcomes.OrderIndependentIff` says exactly
  when they do not, as for types of distinct priorities (`SortOutcomes.DistinctPrioritiesAgree`). The job for
  which they do never settles: some outcome of the sort makes the next sync rewrite its PodGroup
  (`Reachability.ThirdReplicaTypeNeverSettles`).
- The validator alone does not rule out a job name that ends in a dash, which the Service of that name cannot
  have (`Names.DashedNamePasses`); the API server's own rule for names turns such a job away earlier.
- Running keeps an old transition time when Failed or Succeeded demotes it
  (`Conditions.RunningTransitionTimeGoesStale`).
- A resumed job's launcher is unsuspended without waiting for workers (`Launching.SuspensionAligned`).

Where code and documentation disagree the model follows the code: suspending does not reset the start
time, only resuming moves it (`pkg/apis/kubeflow/v2beta1/types.go:137`); the clean pod policy defaults to
None, not Running (`pkg/apis/kubeflow/v2beta1/types.go:109`); `minAvailable` defaults to the workers and the
launcher, not to the number of workers (`pkg/apis/kubeflow/v2beta1/types.go:62`); and suspending deletes
workers 0 to n-1, not all active pods (`pkg/apis/kubeflow/v2beta1/types.go:134`).

## Model

| member | source | states |
|---|---|---|
| Reachability.ReachableConverges | pkg/controller/mpi_job_controller.go:553-701 | after any run of the job under a world that plants nothing, if only calm syncs of the job follow: unless the job is active and not schedulable, the third reaches a state that every further sync leaves as it is, and the whole cluster is the same from then on; if it is, no calm sync ever reaches such a state |
| Interleaving.SteadyAfterThreeTurns | pkg/controller/mpi_job_controller.go:553-701 | in a run of calm syncs of several jobs, in any order, a job that has had three of its own is steady from then on, whatever syncs of the others come in between |
| Interleaving.AllSettled | pkg/controller/mpi_job_controller.go:553-701 | once each of the jobs has had three syncs, nothing in the cluster changes any more |
| Interleaving.ReachableApart | pkg/controller/mpi_job_controller.go:553-701 | wherever a run has got to in which several jobs keep their names and labels to themselves, uids being unique, it is a state such interleaved syncs may start from |
| Reachability.NeverSteady | pkg/controller/podgroup.go:317-388 | an active job that is not schedulable stays active and is not steady after any number of calm syncs |
| Reachability.ThirdReplicaTypeNeverSettles | pkg/controller/podgroup.go:338-375 | the accepted job of ThirdReplicaTypeMatters is never steady, under either gang scheduler |
| Reachability.ReachableIsTidy | pkg/controller/mpi_job_controller.go:553-701 | every reachable state of the job is tidy, the selected pods are its own workers, and their labels go with their names under one of the two values of runLauncherAsWorker |
| Reachability.SyncKeepsOwn | pkg/controller/mpi_job_controller.go:553-701 | a sync of any job, from any snapshot and with any failing calls, leaves a job's names and worker labels to the objects that job controls |
| Convergence.SettledAfterThree | pkg/controller/mpi_job_controller.go:553-701 | in a run of calm syncs of one job of any length, from a tidy state (scalable, if the job is active), the whole cluster is the same after every sync from the third on |
| Convergence.Converges | pkg/controller/mpi_job_controller.go:594-701 | from every tidy state (scalable, if the job is active) three calm syncs all succeed and reach a state which every further calm sync leaves exactly as it is; an ignored job is there at once, a finished one after one sync, one whose launcher has finished or that is suspended after two |
| Convergence.ActiveConverges | pkg/controller/mpi_job_controller.go:620-701 | an active job settles in three syncs, and in one if there is no pod to scale down; the third still changes pods if and only if there was a surplus pod but not too many pods and the last wanted worker carries, or gets, a label shifted by running the launcher as a worker |
| Convergence.SuspendedConverges | pkg/controller/mpi_job_controller.go:636-701 | a suspended, unfinished job settles in two syncs, however its pods are labelled |
| Convergence.DoneConverges | pkg/controller/mpi_job_controller.go:608-701 | a job whose launcher has finished settles in two syncs: the first makes it terminal, the second cleans up |
| Convergence.TerminalSettles | pkg/controller/mpi_job_controller.go:608-619 | a finished job settles in one sync, in the state FinishedCleansUp describes, however its pods are labelled |
| Convergence.ActiveRound | pkg/controller/mpi_job_controller.go:553-701 | one calm sync of an active job succeeds, keeps it tidy, scalable and active, moves the set of worker keys as one round of getOrCreateWorker does, settles everything if there was nothing to scale down, and changes no pod if the workers were complete |
| Settling.ActiveActSettles | pkg/controller/mpi_job_controller.go:627-684 | without failing calls the steps before the status update reach one closed-form state: the wanted Service, the ConfigMap of the running workers, a Secret with both keys, the one PodGroup spec, a round of workers, and the launcher created or aligned as its policy says |
| Settling.ComputedAgain | pkg/controller/mpi_job_controller.go:1053-1139 | computing a status again from the same counts, at any later time, changes nothing: no condition, time or count |
| Settling.SyncSettles | pkg/controller/mpi_job_controller.go:693-701 | without failing calls a sync of an unfinished job stores exactly the status it computes, whether or not the comparison skips the write |
| SortOutcomes.OneSpecIff | pkg/controller/podgroup.go:317-388 | for every accepted job, the PodGroup is computed and the same for every outcome of the sort if and only if its resources are given, or minAvailable is 0, or the launcher is alone and minAvailable at least 1, or no two types that the priorities let come first panic and all such pairs ask for the same; a pair that finds no worker to trim asks for the same as another only under scheduler-plugins and if no container names a resource |
| Settling.ConfigDataSame | pkg/controller/mpi_job_controller.go:800-865 | two snapshots with the same running workers give the same ConfigMap data, however the lister orders them, so an unchanged running set causes no update |
| Policies.FinishedCleansUp | pkg/controller/mpi_job_controller.go:608-619 | a calm sync of a finished job: under clean pod policy None, given or by default, nothing changes; under All none of workers 0 to n-1 is left and under Running exactly those neither running nor pending, every other pod stays, the PodGroup goes if there is a gang scheduler, the worker counts become zero, and nothing else changes |
| Policies.WorkedOnIff | pkg/controller/mpi_job_controller.go:584-619 | from any snapshot and with any failing calls: a sync of a job that is being deleted, names another controller or breaks a rule of validation changes nothing and reports no error; a sync that reports none gets to the status update if and only if the job is none of these and has not finished |
| Reported.ActiveReported | pkg/controller/mpi_job_controller.go:1053-1139 | the status stored by a calm sync of an active job, from the cluster alone: the worker counts are the numbers of workers 0 to n-1 there running, succeeded and failed, the launcher's the number of running pods its Job controls and the Job's failures; Failed becomes True for GroupJobEvicted if one of these workers failed as Evicted and is untouched otherwise; Running becomes True once a launcher pod and all n workers run, and is untouched if they do not and none was evicted |
| Reported.LauncherReported | pkg/controller/mpi_job_controller.go:1071-1095 | every computed status: if the Job's first Complete condition is True, Succeeded for GroupJobSucceeded, the Job's own completion time and counts 0, 1; else if its first Failed condition is, Failed for the reason below, the time of the sync and counts 0, 0; else the running pods are counted and no outcome is set; failures are the Job's |
| Reported.WorkersReported | pkg/controller/mpi_job_controller.go:1097-1117 | every computed status counts the worker pods running, succeeded and failed, and touches no other type's counts |
| Reported.EvictionReported | pkg/controller/mpi_job_controller.go:1106-1123 | while the launcher has not finished, the computed status has Failed True for GroupJobEvicted if some worker pod failed with reason Evicted, and otherwise the Failed condition it had |
| Reported.RunningReported | pkg/controller/mpi_job_controller.go:1055-1067 | a suspended job is reported Suspended and not Running; any other is Running once a launcher pod and all workers run, keeps its Running condition otherwise unless an outcome sets it to False, and is reported resumed if it ever was suspended |
| Reported.CreationReported | pkg/controller/mpi_job_controller.go:601-606 | the first status of a job has Created True, for GroupJobCreated and as of then |
| Reported.FailureReasonIs | pkg/controller/mpi_job_controller.go:1141-1172 | the reason of a failure is that of the Job's first Failed condition, or GroupJobFailed if it gives none; BackoffLimitExceeded is followed by a slash and the reason of the newest failed launcher pod, if any failed |
| Written.SyncWritesAsAsked | pkg/controller/mpi_job_controller.go:1345-1550 | from any snapshot and with any failing calls, every Service, Secret, pod and launcher a sync creates or changes is so: the Service selects the operator's pods of this job; the Secret holds the private and the public half under their keys; a pod is a pending worker below n, with the operator's labels, its index (from 1 if the launcher is a worker), the gang scheduler's label, and for every other key exactly its template's; the launcher is created from its template in the same way and suspended if the job is, or is given the job's suspend flag and nothing else |
| Written.SyncWritesConfig | pkg/controller/mpi_job_controller.go:1278-1342 | from any snapshot, the ConfigMap a sync creates or changes has two files: the hostfile reads as HostfileRoundTrip says, and the script prints exactly the workers the snapshot shows running, by name |
| Written.ObjectsInPlace | pkg/controller/mpi_job_controller.go:636-649 | after a sync that succeeds from a current snapshot, a job that is worked on and whose launcher has not finished has its Service, its Secret with both keys, and its ConfigMap for the workers then running |
| Runs.OutcomesExclude | pkg/controller/mpi_job_controller_status.go:121-144 | in every stored status of every run Succeeded and Failed are never both True, Succeeded comes with a completion time, a completion time comes with exactly one of them, and no type occurs twice |
| Runs.BothOutcomesWithoutCompletionTime | pkg/controller/mpi_job_controller.go:1080-1123 | the counterexample without the assumption on Complete Jobs: both outcomes end up True |
| Runs.NoLostWrite | pkg/controller/mpi_job_controller.go:1053-1139 | after any run, a sync that reaches the status update and reports no error, from a snapshot of the job taken at any earlier point, has overwritten the stored status with the computed one unless it computed the very status it had seen; so the stored status is the computed one if and only if there was something to write or the stored status is still the one seen |
| Runs.SyncWrites | pkg/controller/mpi_job_controller.go:601-701 | what one sync does to the statuses, whatever snapshot it worked on: nothing, or its snapshot was current and the job gets a status that keeps the invariant, differs from a terminal one in worker counts only, and moves the start time only as StartTimeStep allows; what it computed is written, or is what it saw |
| Runs.SyncStatuses | pkg/controller/mpi_job_controller.go:553-701 | a sync from any snapshot changes at most its own job's status, and only if its snapshot of that job was current |
| Runs.TerminalAbsorbs | pkg/controller/mpi_job_controller.go:608-619 | once a job is terminal no continuation of the run changes its conditions, start time, completion time or launcher counts |
| Runs.TerminalSyncOnlyRemoves | pkg/controller/mpi_job_controller.go:608-619 | a sync that has seen the terminal status creates nothing: it may remove pods and the PodGroup and clear the worker counts |
| Runs.TerminalRunOnlyRemoves | pkg/controller/mpi_job_controller.go:608-619 | over runs: once a job is terminal, no sync from a snapshot of it taken since creates anything at any later point; it removes pods and PodGroups at most, changes no other job, and keeps the outcome |
| Runs.StartTimeOverRuns | pkg/controller/mpi_job_controller.go:621-625 | over runs the start time, once set, stays set and moves only where Suspended goes from True to False; without one the status is empty or suspended |
| Runs.StartTimeSetIff | pkg/controller/mpi_job_controller.go:621-625 | over runs the start time is set if and only if some stored status was that of an unsuspended job: it is missing exactly while every stored sync saw the job suspended |
| Runs.ActSees | pkg/controller/mpi_job_controller.go:632-662 | a status is never computed with worker pods of a suspended job or of one whose launcher has finished |
| StatusSteps.ComputedInv | pkg/controller/mpi_job_controller.go:1053-1139 | one status computation keeps the invariant, decides the outcome exactly when the launcher has finished, and sets the start time exactly on the first unsuspended update and on resuming |
| StatusSteps.NothingLost | pkg/controller/mpi_job_controller.go:1054-1138 | the computed status equals the late comparison copy if and only if it equals the stored status |
| StatusSteps.LauncherStepFacts | pkg/controller/mpi_job_controller.go:1071-1093 | the launcher's part sets a completion time and exactly one True outcome if the launcher has finished, and no condition otherwise |
| Launching.SuspendedSync | pkg/controller/mpi_job_controller.go:651-691 | a successful suspended sync creates no worker, leaves the job's own suspended launcher, removes the PodGroup, stores Suspended, not Running and zero worker counts, and of workers 0 to n-1 leaves none or, under policy Running, exactly those neither running nor pending |
| Launching.SuspensionAligned | pkg/controller/mpi_job_controller.go:676-684 | whenever a sync gets as far as the status update, an existing launcher is the job's own and has its suspend flag |
| Starting.LauncherStartsOnlyIf | pkg/controller/mpi_job_controller.go:658-674 | from any snapshot and with any failing calls, an unsuspended sync creates a launcher only if the policy is AtStartup, no worker is asked for, workers 0 to n-1 were all there, owned and ready, or a pod without an index label cut the scale-down short |
| Starting.LauncherStartsIff | pkg/controller/mpi_job_controller.go:658-674 | without failing calls and foreign names a sync of an active job succeeds and leaves a launcher if and only if there was one or one of those four holds, whatever pods the selector matches |
| Starting.UnlabelledPodsStartLauncher | pkg/controller/mpi_job_controller.go:957-962 | for every accepted one-worker job that waits for its workers: two pods with worker labels, one lacking an index label, make a successful sync start the launcher while no worker exists |
| Starting.WaitingStarts | pkg/controller/mpi_job_controller.go:957-962 | such a job and cluster, written out, with a calm environment: the job passes validation, waits for its workers, has none, and its launcher is started |
| Starting.WorkersObtained | pkg/controller/mpi_job_controller.go:941-1001 | if no call fails and the workers' names are not foreign, getOrCreateWorker succeeds, whatever pods the selector matches and however they are labelled |
| Launching.GetWorkersReturns | pkg/controller/mpi_job_controller.go:941-1001 | a successful getOrCreateWorker returns n pods, the i-th being worker i, all owned, unless a missing label made it return none |
| Launching.ReturnedReady | pkg/controller/mpi_job_controller.go:820-831 | the returned workers all count as ready if and only if workers 0 to n-1 were there before the round, owned and ready |
| Launching.DeleteWorkersDeletes | pkg/controller/mpi_job_controller.go:1011-1051 | deleteWorkerPods removes exactly the workers the policy does not keep, and fails exactly if it meets a foreign worker pod or a deletion it needs fails |
| Policies.DeletionTakes | pkg/controller/mpi_job_controller.go:1011-1051 | deleting workers 0 to n-1, from any snapshot: it succeeds if and only if each pod seen under their names is the job's own and no deletion of one that policy Running does not spare fails, pods that are gone already being no error; then exactly these pods are gone |
| Scaling.WorkersConverge | pkg/controller/mpi_job_controller.go:941-1001 | from any set of own workers, labelled under either value of runLauncherAsWorker, rounds of getOrCreateWorker reach exactly workers 0 to n-1 after three rounds and stay there; two are enough unless there is a surplus pod but not too many pods and the last wanted worker's label is, or will be, shifted |
| Scaling.WorkerRound | pkg/controller/mpi_job_controller.go:941-1001 | one round in closed form: which keys go, which come, that all others and all kept pods stay, and that worker i is returned at position i |
| Scaling.DeleteSurplusDeletes | pkg/controller/mpi_job_controller.go:957-973 | the scale-down loop gets through if and only if each selected pod has an index label and each whose label is the replica count or more is still there and its deletion does not fail; it then has deleted exactly the latter |
| Scaling.KeptBetween | pkg/controller/mpi_job_controller.go:957-973 | whichever value of runLauncherAsWorker each pod was labelled under, a scale-down keeps every own worker below n-1 and none from n on |
| Isolation.JobsDoNotInterfere | pkg/controller/mpi_job_controller.go:553-701 | in every run of syncs from lagging snapshots and world steps, each sync leaves every other GroupJob and every object another job controls exactly as it was |
| Isolation.SyncLeavesOthersAlone | pkg/controller/mpi_job_controller.go:553-701 | one sync, from any placed snapshot and with any failing calls, never creates over, changes or deletes an object another job controls, and keeps every controlled object in its job's place |
| Isolation.SyncTouches | pkg/controller/mpi_job_controller.go:553-701 | one sync, from any snapshot and with any failing calls, changes at most its own GroupJob, one object per kind at that job's name, and pods: it creates only the job's workers, and deletes only pods with their names or matched in its snapshot; what it puts under a name is the job's own or keeps its owner |
| Isolation.NewWorkerSelectedByOwnJob | pkg/controller/mpi_job_controller.go:1431-1443 | a new worker is matched by the selector for a job name if and only if that is its own job's, whatever labels the pod template has |
| Isolation.ScaleDownTakesAnyOwner | pkg/controller/mpi_job_controller.go:957-973 | a pod is deleted by a round if and only if it is selected, the selection is too large and its label is out of range, whoever controls it |
| PodGroups.OrderIndependent | pkg/controller/podgroup.go:337-388 | with Launcher and Worker only, the gang resources are the same closed form for every map iteration order and every outcome of the unstable sort; the exact condition for further types is OrderIndependentIff |
| GangShares.SharesByClass | pkg/controller/podgroup.go:338-388 | for a launcher and n workers, however the sort leaves ties: the amount of a resource is that of all members if they are no more than minMember; else, if the value of the workers' class in the cluster exceeds the launcher's (0 for a class not named or not there), minMember - 1 launchers and all workers, and otherwise the launcher and minMember - 1 workers |
| GangShares.GreaterClassFirst | pkg/controller/podgroup.go:338-357 | the sort puts the types whose priority class has the greater value in the cluster first |
| GangShares.LauncherShare | pkg/controller/podgroup.go:357-388 | a launcher without workers is paid for once |
| GangShares.StoredShares | pkg/controller/podgroup.go:317-397 | after a successful sync of an active job with launcher and workers, the stored PodGroup waits for minAvailable members, or for all, and asks for those amounts |
| SortOutcomes.OrderIndependentIff | pkg/controller/podgroup.go:337-388 | for any replica types, all iteration orders and outcomes of the sort give the same result if and only if every two pairs of types that the priorities let come first both panic, both look for workers that are not there, or move every resource by the same amount: nothing if their counts fit minMember, else trimming the second type (the workers at equal priority) to minMember - 1 |
| SortOutcomes.HeadDecides | pkg/controller/podgroup.go:357-388 | the result depends only on which two types come first, in the closed form above |
| SortOutcomes.AddOrderTotal | pkg/controller/podgroup.go:377-387 | the resources of all entries do not depend on their order |
| SortOutcomes.ThirdReplicaTypeMatters | pkg/controller/podgroup.go:338-375 | the counterexample: a job with a third replica type that defaulting and validation let through, and two outcomes of the sort that give either scheduler different PodGroups |
| PodGroups.AddOrderSums | pkg/controller/podgroup.go:377-387 | every resource is the sum of replicas times request-else-limit over all containers of all entries |
| PodGroups.GangMinimum | pkg/controller/podgroup.go:337-388 | the resources cover the minMember members that come first by SharesByClass's classes, and exactly that unless workers outrank the launcher, when the excess is zero only if stated amounts vanish |
| PodGroups.AddResources | pkg/controller/podgroup.go:420-443 | adds replicas times request-else-limit to each resource, in whatever order the maps are iterated |
| PodGroups.MinResourceForSpecs | pkg/controller/podgroup.go:337-388 | the whole calculation, loops and sort included, returns the amounts SharesByClass states for some sorted order, including wrap-around of the int32 sum |
| PodGroups.CalPGMinResource | pkg/controller/podgroup.go:357-388 | trimming and summing a given sorted order, with the nil dereferences and the out-of-range index as an explicit panic result |
| SortOutcomes.ValidatedJobPanicsIff | pkg/controller/podgroup.go:359-375 | for every job that defaulting and validation let through, whatever its replica types, building the PodGroup panics if and only if the resources have to be computed, minAvailable is not 0, and the launcher is alone with minAvailable negative or one of the two types that come first has no count |
| PodGroups.DefaultPodGroup | pkg/controller/podgroup.go:392-397 | without a scheduling policy minMember is workers plus one unless that wraps, and the resources are those of all members even then |
| PodGroups.PodGroupFields | pkg/controller/podgroup.go:109-137 | in the PodGroup of either scheduler an explicit minAvailable and minResources win; Volcano's queue is the policy's before the annotation's, its priority class the policy's before the launcher's before the workers'; only scheduler-plugins gets the timeout |
| PodGroups.SchedulersIgnore | pkg/controller/podgroup.go:238-272 | editing the timeout never changes Volcano's PodGroup, nor editing queue, annotation or policy priority class that of scheduler-plugins |
| Conditions.SetRefinesMapSet | pkg/controller/mpi_job_controller_status.go:102-144 | the condition list refines a map: setting a condition on the list is one map update with the demotions and removals written out |
| Conditions.SetChangesOnly | pkg/controller/mpi_job_controller_status.go:102-144 | setting a condition, looked up type by type: nothing changes if status and reason are the same; else it is the new one, keeping the transition time if the status stays; Running and Restarting replace each other; Succeeded and Failed turn Running and Failed to False; every other stays as it was |
| Conditions.SetKeepsWellFormed | pkg/controller/mpi_job_controller_status.go:115-143 | one entry per type, never both Running and Restarting, survivors in their old order with the set condition last |
| Conditions.ReplayWellFormed | pkg/controller/mpi_job_controller_status.go:102-144 | the same over any run of setCondition from an empty list |
| Conditions.TransitionTimesExactIff | pkg/controller/mpi_job_controller_status.go:102-144 | over any run of calls, several of which may share one clock reading, a condition's transition time is that of its last status change if and only if a call about that condition made the change, provided no call about another outcome comes at the time of an earlier call about it |
| Conditions.UndemotedTimesExact | pkg/controller/mpi_job_controller_status.go:110-113 | for Created, Suspended, Succeeded and Restarting the transition time is that of the last status change, over any run |
| Conditions.TransitionTimeKeptIff | pkg/controller/mpi_job_controller_status.go:136-139 | a call keeps a condition's transition time exact if and only if it does not turn that condition to False on the side |
| Conditions.RunningTransitionTimeGoesStale | pkg/controller/mpi_job_controller_status.go:136-139 | the counterexample: a job that runs and then fails ends with a False Running condition dated from when it became True |
| Conditions.FilterOutCondition | pkg/controller/mpi_job_controller_status.go:122-144 | the loop yields the survivors of the set type, demoted where Failed or Succeeded demotes them |
| Conditions.StatusRecord.UpdateCondition | pkg/controller/mpi_job_controller_status.go:51-119 | updates the list in place and reports a change exactly when status or reason differ |
| ConfigMaps.HostfileRoundTrip | pkg/controller/mpi_job_controller.go:1278-1302 | a reader that knows only the line format of the MPI implementation (` slots=` or a colon) and splits addresses at their first two dots gets back the launcher first if it runs as a worker, then workers 0 to n-1 by name, each with the job's name, its namespace followed by .svc, and the slots of the spec or one |
| ConfigMaps.HostsOfAcceptedJob | pkg/controller/mpi_job_controller.go:1284-1302 | those hosts are the launcher first if and only if it runs as a worker, then workers 0 to n-1, pairwise distinct DNS labels |
| ConfigMaps.DiscoverHostsReads | pkg/controller/mpi_job_controller.go:1322-1342 | a reader of the shell script that splits at the last three dots gets the launcher if it runs as a worker, then the running pods in name order, each with the job's name, its namespace and svc, whatever names the pods have |
| ConfigMaps.ConfigDataCanonical | pkg/controller/mpi_job_controller.go:1322-1342 | the data depends on the set of running pods only |
| ConfigMaps.WriteHostfile | pkg/controller/mpi_job_controller.go:1278-1302 | the buffer loop writes the text that HostfileRoundTrip reads back |
| ConfigMaps.WriteDiscoverHosts | pkg/controller/mpi_job_controller.go:1322-1342 | however the library sorts, the script is the one that DiscoverHostsReads reads |
| Names.WorkerNameInjective | pkg/controller/mpi_job_controller.go:1411-1413 | a worker's name determines the job's name and the index |
| Names.AtoiReads | pkg/controller/mpi_job_controller.go:963-965 | index labels are read as a numeral with or without a sign, within the range of a 64-bit int, and nothing else is read at all |
| Names.OneHostnameSuffices | pkg/apis/kubeflow/validation/validation.go:55-68 | if the last worker's name is a DNS label (section 2.3.1 of RFC 1035), so is every worker's and the launcher's |
| Names.ServiceNameIsLabelIff | pkg/apis/kubeflow/validation/validation.go:63-66 | under that check the job's own name, which its Service gets, is a DNS label if and only if it does not end in a dash |
| Names.DashedNamePasses | pkg/apis/kubeflow/validation/validation.go:55-68 | the validator alone passes a name that ends in a dash, which is no DNS label |
| Validation.ValidateGroupJob | pkg/apis/kubeflow/validation/validation.go:49-85 | reports exactly the rules that are broken, and nothing if and only if the spec is accepted |
| Policies.AcceptsIff | pkg/apis/kubeflow/validation/validation.go:49-85 | a spec is accepted if and only if it breaks no rule |
| Policies.AcceptedAsWritten | pkg/apis/kubeflow/validation/validation.go:49-160 | the exact condition on a job as its author wrote it, defaults included: the name leaves room for the last worker's host name within a DNS label (section 2.3.1 of RFC 1035), one launcher or no count, a worker spec gives a number above 0 (without one the default of 0 workers is turned down), containers everywhere, and only usable limits and choices |
| Validation.ValidateReplicaSpecs | pkg/apis/kubeflow/validation/validation.go:112-160 | reports exactly the broken rules about replica specs |
| Validation.ValidateRunPolicy | pkg/apis/kubeflow/validation/validation.go:87-110 | reports exactly the broken rules about the run policy |
| Validation.AcceptedHostnames | pkg/apis/kubeflow/validation/validation.go:55-68 | every worker of an accepted job, and its launcher, has a DNS label as host name |
| Validation.DefaultedJobsLackNoFields | pkg/apis/kubeflow/v2beta1/default.go:60-80 | after defaulting no job is rejected for a missing field that has a default, and the count rules only for counts the author gave or no workers |
| Defaults.DefaultFillsGapsOnce | pkg/apis/kubeflow/v2beta1/default.go:26-80 | defaulting changes nothing its author wrote, and doing it again changes nothing |
| Defaults.DefaultsAre | pkg/apis/kubeflow/v2beta1/default.go:26-80 | what is not given becomes: no clean-up, launcher at startup, one slot, OpenMPI, the root's .ssh, one launcher restarted on failure, no worker and Never; other replica types stay as they are |
| Defaults.SpecRecord.SetDefaults | pkg/apis/kubeflow/v2beta1/default.go:60-80 | the in-place defaulting fills exactly the gaps |
| Status.UpdateGroupJobStatus | pkg/controller/mpi_job_controller.go:1053-1139 | the in-place update arrives at the status that the lemmas of Reported are about and asks for a write exactly if it differs from the copy taken at its start |
| Status.ApplyWorkers | pkg/controller/mpi_job_controller.go:1097-1123 | the worker loop arrives at the counts of WorkersReported, and sets Failed as EvictionReported says |
| Status.GetFailureReason | pkg/controller/mpi_job_controller.go:1141-1172 | the loop over the launcher's pods arrives at the reason FailureReasonIs states |
| Status.LastFailedIsNewest | pkg/controller/mpi_job_controller.go:1151-1164 | the pod whose reason is quoted is the newest failed launcher pod, the first listed of several created together, and there is one exactly if some pod failed |
| Workers.GetOrCreateWorker | pkg/controller/mpi_job_controller.go:941-1001 | the scale-down and creation loops leave the API server as GetWorkers says, which WorkerRound puts in closed form and whose new pods SyncWritesAsAsked describes; error cases and partial effects included |
| Workers.DeleteWorkerPods | pkg/controller/mpi_job_controller.go:1011-1051 | the deletion loop leaves the API server as DeleteWorkers says, of which DeletionTakes states the result and the exact failure condition |
| Workers.CountReadyAll | pkg/controller/mpi_job_controller.go:820-831 | the ready count equals the number of pods if and only if each has a True Ready condition |
| Workers.CountReadyWorkerPods | pkg/controller/mpi_job_controller.go:820-831 | counts each pod with a True Ready condition once |
| Objects.SecretOutcome | pkg/controller/mpi_job_controller.go:899-928 | from a current snapshot the step succeeds exactly if the Secret is not foreign and no call it needs fails; then it has exactly the two keys, contents with those keys are never replaced, and failing to generate a key fails the step even when the key is not needed |
| Isolation.ServiceFrontsOwnWorkers | pkg/controller/mpi_job_controller.go:1345-1370 | a job's Service selects a worker in its namespace if and only if it is the job's own, whatever labels the worker template has |
| Isolation.ServiceFrontsOwnLauncher | pkg/controller/mpi_job_controller.go:1345-1370 | it selects a launcher's pod in its namespace if and only if it is the job's own, and no job's worker selector matches a launcher's pod |
| Objects.GetOrCreateService | pkg/controller/mpi_job_controller.go:873-894 | the code's branches leave the API server and return an error as EnsureService says, whose successful outcome (the wanted selector, nothing else changed) and exact failure condition Objects.ServiceOutcome states |
| Objects.GetOrCreateConfigMap | pkg/controller/mpi_job_controller.go:835-871 | the same for EnsureConfigMap and Objects.ConfigMapOutcome: on success the data are those for the running workers, which SyncWritesConfig reads |
| Objects.GetOrCreateSSHAuthSecret | pkg/controller/mpi_job_controller.go:899-928 | the same for EnsureSecret, which SecretOutcome characterises |
| Objects.GetOrCreatePodGroups | pkg/controller/mpi_job_controller.go:742-767 | the same for EnsurePodGroup and Objects.PodGroupOutcome, with a panic in computing the spec counted as a failure |
| Objects.DeletePodGroups | pkg/controller/mpi_job_controller.go:770-797 | the code's branches do as RemovePodGroup says, of which Policies.PodGroupTaken states the result: the job's own PodGroup goes, a foreign one is refused, and none is no error |
| Objects.GetRunningWorkerPods | pkg/controller/mpi_job_controller.go:800-818 | the names of the selected running pods in the lister's order |
| Objects.JobPods | pkg/controller/mpi_job_controller.go:1605-1621 | the pods a Job controls in the lister's order |
| Reconcile.CleanUpWorkerPods | pkg/controller/mpi_job_controller.go:703-715 | the clean-up of pods, worker counts and PodGroup, and what is left when it fails half way; FinishedCleansUp says which pods go |
| Reconcile.AlignSuspension | pkg/controller/mpi_job_controller.go:676-684 | updates the launcher only if its flag differs from the job's; on success the handed-on launcher is the stored one |
| Reconcile.SyncHandler | pkg/controller/mpi_job_controller.go:553-701 | the whole sync, step by step, leaves the API server and returns an error exactly as Sync says, for every snapshot and every set of failing calls; what Sync does is stated by WorkedOnIff, FinishedCleansUp, SyncWritesAsAsked, ObjectsInPlace and ActiveReported |

## Left out

- Settling.ActiveActSettles: calls are taken to succeed, as convergence needs; what remains of a failed step is in Reconcile.SyncHandler.
- Convergence.Converges: the environment stands still between syncs, and a deleted pod is gone before the next snapshot.
- Interleaving.SteadyAfterThreeTurns: the same, and every sync's snapshot has caught up with the syncs of the other jobs.
- Reachability.ReachableConverges: a job that is deleted and created again under a new uid starts a new run, which begins once its predecessor's objects are gone.
- Starting.LauncherStartsOnlyIf: the lister is taken to return what its snapshot holds, each pod once, in any order.
- Written.SyncWritesConfig: the namespace and the names of running workers are taken to be made of the characters the API server allows in them.
- Reported.ActiveReported: the job's selected pods are taken to be its own and no call to fail; EvictionReported, WorkersReported, LauncherReported and RunningReported hold of every computed status.
- Reconcile.SyncHandler: one clock reading serves a whole sync; the code reads the clock once per condition.
- SortOutcomes.ValidatedJobPanicsIff: an entry of the replica map that holds nil, which defaulting and validation skip and the controller would dereference, has no counterpart in the model; the entries are not nullable in the resource's schema.
- PodGroups.AddResources: quantities are natural numbers; resource.Quantity and its rounding are not modelled.
- PodGroups.CalPGMinResource: values have no pointers, so that the trim replaces a pointer in its copy and leaves the job's own replica count alone is built into the model.
- Status.UpdateGroupJobStatus: condition messages are not modelled; the code does not compare them either.
- Objects.GetOrCreateSSHAuthSecret: key generation is a parameter and key contents are opaque strings.
- Objects.JobPods: the Job's own label selector is not modelled, only control by the Job.
- Objects.GetOrCreatePodGroups: the code writes the new spec into the cached PodGroup before it updates it, and the launcher's suspend flag into the cached Job; caches are values here, so a cache changed by a failed update is not captured.
- Errors of listers and of selector parsing: listers read a cache and do not fail here; a panic in computing a PodGroup ends the sync like an error.
- Resource versions: an update is refused if the stored object differs from the one read, instead of comparing version strings.
- Label keys are a datatype with the operator's four keys and all others, so that a template may set any label.
- API clients, informers, the work queue, leader election, events, logging and metrics.
- Pod templates beyond labels: environment, volumes, DNS settings, restart policy, scheduler name, annotations; and the launcher Job's time and retry limits, which are copied from the run policy.
- Controllers of batch Jobs, kubelets and schedulers: their effects are environment steps.
- handleObject and processNextWorkItem: a run may sync any job at any time.
