/** syncHandler: one sync of one GroupJob (pkg/controller/mpi_job_controller.go). */
module Reconcile {
  import opened Types
  import opened Names
  import opened Conditions
  import opened Defaults
  import opened Validation
  import opened Status
  import opened Api
  import opened Objects
  import opened Workers

  /* ---- Cleaning up ---- */

  function CleanedStatus(s: JobStatus): JobStatus {
    s.(replicaStatuses := s.replicaStatuses[Worker := NO_REPLICAS])
  }

  function CleanUp(view: Cluster, live: Cluster, env: Env, key: Key, job: GroupJob): Step<()> {
    var (live1, _) :- DeleteWorkers(view, live, env, key, job, 0, job.spec.WorkerReplicas());
    if env.gang.Some? then RemovePodGroup(view, live1, env, key, job) else Ok(live1, ())
  }

  predicate CleansUpPods(s: GroupJobSpec) {
    s.runPolicy.cleanPodPolicy in {Some(CleanAll), Some(CleanRunning)}
  }

  method CleanUpWorkerPods(view: Cluster, api: ApiServer, env: Env, key: Key, job: GroupJob, status: StatusRecord)
    returns (ok: bool)
    modifies api, status
    ensures api.State() == CleanUp(view, old(api.State()), env, key, job).live
    ensures ok == CleanUp(view, old(api.State()), env, key, job).Ok?
    ensures ok ==> status.Value() == CleanedStatus(old(status.Value()))
  {
    ok := DeleteWorkerPods(view, api, env, key, job);
    if !ok {
      return;
    }
    status.InitializeReplicaStatus(Worker);
    if env.gang.Some? {
      ok := DeletePodGroups(view, api, env, key, job);
      if !ok {
        return;
      }
    }
    status.replicaStatuses := status.replicaStatuses[Worker := status.replicaStatuses[Worker].(active := 0)];
    assert status.replicaStatuses == old(status.replicaStatuses)[Worker := NO_REPLICAS];
  }

  /* ---- Creating what the job needs ---- */

  /** The objects of an unfinished launcher; the result is the worker pods. */
  function EnsureObjects(view: Cluster, live: Cluster, env: Env, key: Key, job: GroupJob): Step<seq<Pod>> {
    var (live1, _) :- EnsureService(view, live, env, key, job);
    var (live2, _) :- EnsureConfigMap(view, live1, env, key, job);
    var (live3, _) :- EnsureSecret(view, live2, env, key, job);
    if job.spec.Suspended() then Ok(live3, [])
    else
      var (live4, _) :- EnsureGang(view, live3, env, key, job);
      GetWorkers(view, live4, env, key, job)
  }

  function EnsureGang(view: Cluster, live: Cluster, env: Env, key: Key, job: GroupJob): Step<()> {
    match env.gang
    case None => Ok(live, ())
    case Some(gang) => EnsurePodGroup(view, live, env, gang, key, job)
  }

  method CreateObjects(view: Cluster, api: ApiServer, env: Env, key: Key, job: GroupJob)
    returns (ok: bool, workers: seq<Pod>)
    modifies api
    ensures api.State() == EnsureObjects(view, old(api.State()), env, key, job).live
    ensures ok == EnsureObjects(view, old(api.State()), env, key, job).Ok?
    ensures ok ==> workers == EnsureObjects(view, old(api.State()), env, key, job).value
  {
    workers := [];
    ok := GetOrCreateService(view, api, env, key, job);
    if !ok {
      return;
    }
    ok := GetOrCreateConfigMap(view, api, env, key, job);
    if !ok {
      return;
    }
    ok := GetOrCreateSSHAuthSecret(view, api, env, key, job);
    if !ok {
      return;
    }
    if !job.spec.Suspended() {
      if env.gang.Some? {
        ok := GetOrCreatePodGroups(view, api, env, env.gang.value, key, job);
        if !ok {
          return;
        }
      }
      ok, workers := GetOrCreateWorker(view, api, env, key, job);
    }
  }

  predicate LauncherMayStart(job: GroupJob, workers: seq<Pod>) {
    job.spec.launcherCreationPolicy == AtStartup || CountReady(workers) == |workers|
  }

  function EnsureLauncher(live: Cluster, env: Env, key: Key, job: GroupJob, launcher: Option<BatchJob>,
                          workers: seq<Pod>)
    : Step<Option<BatchJob>>
  {
    if launcher.Some? || !LauncherMayStart(job, workers) then Ok(live, launcher)
    else
      var created := NewLauncher(key, job, env);
      match TryCreate(CreateLauncher in env.faults, live.jobs, LauncherKey(key), created)
      case None => Err(live)
      case Some(m) => Ok(live.(jobs := m), Some(created))
  }

  /** Gives the launcher the suspend flag of the GroupJob. */
  function AlignLauncher(live: Cluster, env: Env, key: Key, job: GroupJob,
                         launcher: Option<BatchJob>): Step<Option<BatchJob>> {
    if launcher.None? || launcher.value.IsSuspended() == job.spec.Suspended() then Ok(live, launcher)
    else
      var aligned := launcher.value.(suspend := Some(job.spec.Suspended()));
      match TryUpdate(UpdateLauncher in env.faults, live.jobs, LauncherKey(key), launcher.value, aligned)
      case None => Err(live)
      case Some(m) => Ok(live.(jobs := m), Some(aligned))
  }

  /* ---- Writing the status ---- */

  /** UpdateStatus: refused unless the stored job is still the one the sync read. */
  function WriteStatus(view: Cluster, live: Cluster, env: Env, key: Key, status: JobStatus): Step<()>
    requires key in view.groupJobs
  {
    var seen := view.groupJobs[key];
    match TryUpdate(UpdateStatus in env.faults, live.groupJobs, key, seen, seen.(status := status))
    case None => Err(live)
    case Some(m) => Ok(live.(groupJobs := m), ())
  }

  method UpdateStatusHandler(view: Cluster, api: ApiServer, env: Env, key: Key, status: StatusRecord) returns (ok: bool)
    requires key in view.groupJobs
    modifies api
    ensures api.State() == WriteStatus(view, old(api.State()), env, key, status.Value()).live
    ensures ok == WriteStatus(view, old(api.State()), env, key, status.Value()).Ok?
  {
    var seen := view.groupJobs[key];
    var m := TryUpdate(UpdateStatus in env.faults, api.groupJobs, key, seen, seen.(status := status.Value()));
    if m.Some? {
      api.groupJobs := m.value;
    }
    return m.Some?;
  }

  /* ---- The whole sync ---- */

  /** `computed` is the status a sync arrived at, if it got as far as updateGroupJobStatus. */
  datatype SyncResult = SyncResult(live: Cluster, ok: bool, computed: Option<JobStatus>)

  predicate IsTerminal(s: JobStatus) { IsFinished(s) && s.completionTime.Some? }

  function MarkCreated(s: JobStatus, now: Time): JobStatus {
    if s.conditions == [] then Update(s, Created, True, CREATED_REASON, now) else s
  }

  function MarkStarted(s: JobStatus, suspended: bool, now: Time): JobStatus {
    if s.startTime.None? && !suspended then s.(startTime := Some(now)) else s
  }

  predicate ManagedElsewhere(s: GroupJobSpec) {
    s.runPolicy.managedBy !in {None, Some(KUBEFLOW_JOB_CONTROLLER)}
  }

  /** Does a sync leave this job alone? */
  predicate Ignored(key: Key, job: GroupJob) {
    ManagedElsewhere(job.spec) || job.deleting || !Accepts(key.name, job.spec)
  }

  function DefaultedJob(job: GroupJob): GroupJob { job.(spec := Default(job.spec)) }

  function Sync(view: Cluster, live: Cluster, env: Env, key: Key): SyncResult {
    if key !in view.groupJobs then SyncResult(live, true, None)
    else
      var job := DefaultedJob(view.groupJobs[key]);
      var status := MarkCreated(job.status, env.now);
      if Ignored(key, job) then SyncResult(live, true, None)
      else if IsTerminal(status) then SyncTerminal(view, live, env, key, job, status)
      else SyncActive(view, live, env, key, job, MarkStarted(status, job.spec.Suspended(), env.now))
  }

  function SyncTerminal(view: Cluster, live: Cluster, env: Env, key: Key, job: GroupJob, status: JobStatus): SyncResult
    requires key in view.groupJobs
  {
    if !CleansUpPods(job.spec) then SyncResult(live, true, None)
    else
      match CleanUp(view, live, env, key, job)
      case Err(live1) => SyncResult(live1, false, None)
      case Ok(live1, _) =>
        var written := WriteStatus(view, live1, env, key, CleanedStatus(status));
        SyncResult(written.live, written.Ok?, None)
  }

  /** The job's launcher in the snapshot, whoever controls it. */
  function FindLauncher(view: Cluster, key: Key): Option<BatchJob> {
    if LauncherKey(key) in view.jobs then Some(view.jobs[LauncherKey(key)]) else None
  }

  /** Unless the launcher has finished: the objects it needs, and the launcher itself. */
  function Prepare(view: Cluster, live: Cluster, env: Env, key: Key, job: GroupJob): Step<(Option<BatchJob>,
                   seq<Pod>)> {
    var found := FindLauncher(view, key);
    if found.Some? && JobFinished(found.value) then Ok(live, (found, []))
    else
      var (live1, workers) :- EnsureObjects(view, live, env, key, job);
      var (live2, launcher) :- EnsureLauncher(live1, env, key, job, found, workers);
      Ok(live2, (launcher, workers))
  }

  function CleanUpIfSuspended(view: Cluster, live: Cluster, env: Env, key: Key, job: GroupJob): Step<()> {
    if job.spec.Suspended() then CleanUp(view, live, env, key, job) else Ok(live, ())
  }

  /** All steps up to the status update; the result is the launcher and the worker pods. */
  function Act(view: Cluster, live: Cluster, env: Env, key: Key, job: GroupJob): Step<(Option<BatchJob>, seq<Pod>)> {
    var found := FindLauncher(view, key);
    if found.Some? && found.value.owner != Some(job.uid) then Err(live)
    else
      var (live1, (launcher, workers)) :- Prepare(view, live, env, key, job);
      var (live2, aligned) :- AlignLauncher(live1, env, key, job, launcher);
      var (live3, _) :- CleanUpIfSuspended(view, live2, env, key, job);
      Ok(live3, (aligned, workers))
  }

  function SyncActive(view: Cluster, live: Cluster, env: Env, key: Key, job: GroupJob, status: JobStatus): SyncResult
    requires key in view.groupJobs
  {
    match Act(view, live, env, key, job)
    case Err(live1) => SyncResult(live1, false, None)
    case Ok(live1, (launcher, workers)) => Finish(view, live1, env, key, job, status, launcher, workers)
  }

  /** The status update, compared with what the status was when updateGroupJobStatus began. */
  function Finish(view: Cluster, live: Cluster, env: Env, key: Key, job: GroupJob, status: JobStatus,
                  launcher: Option<BatchJob>, workers: seq<Pod>): SyncResult
    requires key in view.groupJobs
  {
    var before := if job.spec.Suspended() then CleanedStatus(status) else status;
    var computed := ComputeStatus(before, job.spec.Suspended(), launcher,
                                  LauncherPods(view, env.launcherPodOrder, key, launcher), workers, env.now);
    if computed == before then SyncResult(live, true, Some(computed))
    else
      var written := WriteStatus(view, live, env, key, computed);
      SyncResult(written.live, written.Ok?, Some(computed))
  }

  method AlignSuspension(api: ApiServer, env: Env, key: Key, job: GroupJob, launcher: BatchJob)
    returns (ok: bool, aligned: BatchJob)
    modifies api
    ensures api.State() == AlignLauncher(old(api.State()), env, key, job, Some(launcher)).live
    ensures ok == AlignLauncher(old(api.State()), env, key, job, Some(launcher)).Ok?
    ensures ok ==> Some(aligned) == AlignLauncher(old(api.State()), env, key, job, Some(launcher)).value
  {
    aligned := launcher;
    ok := true;
    if job.spec.Suspended() != launcher.IsSuspended() {
      aligned := launcher.(suspend := Some(job.spec.Suspended()));
      var m := TryUpdate(UpdateLauncher in env.faults, api.jobs, LauncherKey(key), launcher, aligned);
      if m.Some? {
        api.jobs := m.value;
      }
      ok := m.Some?;
    }
  }

  method ActOn(view: Cluster, api: ApiServer, env: Env, key: Key, job: GroupJob, status: StatusRecord)
    returns (ok: bool, launcher: Option<BatchJob>, workers: seq<Pod>)
    modifies api, status
    ensures api.State() == Act(view, old(api.State()), env, key, job).live
    ensures ok == Act(view, old(api.State()), env, key, job).Ok?
    ensures ok ==> (launcher, workers) == Act(view, old(api.State()), env, key, job).value
    ensures ok ==>
              status.Value() == if job.spec.Suspended() then CleanedStatus(old(status.Value())) else old(status.Value())
  {
    hide EnsureObjects, CleanUp, CleanedStatus, JobFinished, NewLauncher, LauncherKey, CountReady;
    launcher, workers := None, [];
    if LauncherKey(key) in view.jobs {
      launcher := Some(view.jobs[LauncherKey(key)]);
      if launcher.value.owner != Some(job.uid) {
        return false, None, [];
      }
    }
    var done := launcher.Some? && JobFinished(launcher.value);
    if !done {
      ok, workers := CreateObjects(view, api, env, key, job);
      if !ok {
        return;
      }
      if launcher.None? {
        var ready := CountReadyWorkerPods(workers);
        if job.spec.launcherCreationPolicy == AtStartup || ready == |workers| {
          var created := NewLauncher(key, job, env);
          var m := TryCreate(CreateLauncher in env.faults, api.jobs, LauncherKey(key), created);
          if m.None? {
            return false, None, [];
          }
          api.jobs := m.value;
          launcher := Some(created);
        }
      }
    }
    if launcher.Some? {
      var aligned;
      ok, aligned := AlignSuspension(api, env, key, job, launcher.value);
      if !ok {
        return false, None, [];
      }
      launcher := Some(aligned);
    }
    if job.spec.Suspended() {
      var cleaned := CleanUpWorkerPods(view, api, env, key, job, status);
      if !cleaned {
        return false, None, [];
      }
    }
    ok := true;
  }

  method SyncFinished(view: Cluster, api: ApiServer, env: Env, key: Key, job: GroupJob, status: StatusRecord)
    returns (ok: bool)
    requires key in view.groupJobs
    modifies api, status
    ensures var r := SyncTerminal(view, old(api.State()), env, key, job, old(status.Value()));
            api.State() == r.live && ok == r.ok
  {
    if CleansUpPods(job.spec) {
      ok := CleanUpWorkerPods(view, api, env, key, job, status);
      if !ok {
        return;
      }
      ok := UpdateStatusHandler(view, api, env, key, status);
      return;
    }
    ok := true;
  }

  method SyncUnfinished(view: Cluster, api: ApiServer, env: Env, key: Key, job: GroupJob, status: StatusRecord)
    returns (ok: bool)
    requires key in view.groupJobs
    modifies api, status
    ensures var r := SyncActive(view, old(api.State()), env, key, job, old(status.Value()));
            api.State() == r.live && ok == r.ok
  {
    var launcher, workers;
    ok, launcher, workers := ActOn(view, api, env, key, job, status);
    if !ok {
      return;
    }
    var launcherPods := JobPods(view, env.launcherPodOrder, key, launcher);
    var changed := UpdateGroupJobStatus(status, job.spec.Suspended(), launcher, launcherPods, workers, env.now);
    if changed {
      ok := UpdateStatusHandler(view, api, env, key, status);
    }
  }

  /** The controller's sync, step by step, leaves the API server as Sync says. */
  method SyncHandler(view: Cluster, api: ApiServer, env: Env, key: Key) returns (ok: bool)
    modifies api
    ensures var r := Sync(view, old(api.State()), env, key);
            api.State() == r.live && ok == r.ok
  {
    hide SyncActive, SyncTerminal, Accepts, Default, IsFinished;
    if key !in view.groupJobs {
      return true;
    }
    var shared := view.groupJobs[key];
    var spec := new SpecRecord(shared.spec);
    spec.SetDefaults();
    var job := shared.(spec := spec.Value());
    if ManagedElsewhere(job.spec) {
      return true;
    }
    if job.deleting {
      return true;
    }
    var errs := ValidateGroupJob(key.name, job.spec);
    if |errs| != 0 {
      return true;
    }
    var status := new StatusRecord(job.status);
    if |status.conditions| == 0 {
      var _ := status.UpdateCondition(Created, True, CREATED_REASON, env.now);
    }
    assert status.Value() == MarkCreated(job.status, env.now);
    if IsFinished(status.Value()) && status.completionTime.Some? {
      ok := SyncFinished(view, api, env, key, job, status);
      return;
    }
    if status.startTime.None? && !job.spec.Suspended() {
      status.startTime := Some(env.now);
    }
    ok := SyncUnfinished(view, api, env, key, job, status);
  }
}
