/** When a sync starts the launcher (syncHandler and getOrCreateWorker in
    pkg/controller/mpi_job_controller.go). */
module Starting {
  import opened Types
  import opened Names
  import opened Listings
  import opened Defaults
  import opened Validation
  import opened Status
  import opened Api
  import opened Objects
  import opened Workers
  import opened Reconcile
  import opened StatusSteps
  import opened PodGroups
  import opened SortOutcomes
  import opened Runs
  import opened Scaling
  import opened Launching
  import opened Settling
  import opened Convergence

  /* ---- Only if: any snapshot, any failing calls ---- */

  lemma AlignKeepsKeys(live: Cluster, env: Env, key: Key, job: GroupJob, launcher: Option<BatchJob>)
    ensures AlignLauncher(live, env, key, job, launcher).live.jobs.Keys == live.jobs.Keys
  {
    hide LauncherKey;
    if LauncherKey(key) in live.jobs && launcher.Some? {
      var aligned := launcher.value.(suspend := Some(job.spec.Suspended()));
      assert live.jobs[LauncherKey(key) := aligned].Keys == live.jobs.Keys;
    }
  }

  lemma PrepareStartsOnlyIf(view: Cluster, live: Cluster, env: Env, key: Key, job: GroupJob)
    requires IsListing(env.workerOrder, view.pods.Keys) && job.spec.WorkerReplicas() >= 0 && !job.spec.Suspended()
    requires LauncherKey(key) !in live.jobs && LauncherKey(key) in Prepare(view, live, env, key, job).live.jobs
    ensures StartsNow(view.pods, key, job)
  {
    EnsureObjectsKeepJobs(view, live, env, key, job);
    hide EnsureService, EnsureConfigMap, EnsureSecret, EnsureGang, GetWorkers, LauncherMayStart, StartsNow,
         NewLauncher, LauncherKey;
    var r1 := EnsureService(view, live, env, key, job).live;
    var r2 := EnsureConfigMap(view, r1, env, key, job).live;
    var r3 := EnsureSecret(view, r2, env, key, job).live;
    WorkersReady(view, EnsureGang(view, r3, env, key, job).live, env, key, job);
  }

  lemma ActStartsOnlyIf(view: Cluster, live: Cluster, env: Env, key: Key, job: GroupJob)
    requires IsListing(env.workerOrder, view.pods.Keys) && job.spec.WorkerReplicas() >= 0 && !job.spec.Suspended()
    requires LauncherKey(key) !in live.jobs && LauncherKey(key) in Act(view, live, env, key, job).live.jobs
    ensures StartsNow(view.pods, key, job)
  {
    hide Prepare, CleanUp, LauncherKey, StartsNow, AlignLauncher;
    var prepared := Prepare(view, live, env, key, job);
    if prepared.Ok? {
      AlignKeepsKeys(prepared.live, env, key, job, prepared.value.0);
    }
    PrepareStartsOnlyIf(view, live, env, key, job);
  }

  lemma TerminalStartsNone(view: Cluster, live: Cluster, env: Env, key: Key, job: GroupJob, s: JobStatus)
    requires key in view.groupJobs
    ensures SyncTerminal(view, live, env, key, job, s).live.jobs == live.jobs
  {
    hide CleanUp;
    CleanUpFrame(view, live, env, key, job);
  }

  lemma ActiveStarts(view: Cluster, live: Cluster, env: Env, key: Key, job: GroupJob, s: JobStatus)
    requires key in view.groupJobs
    ensures SyncActive(view, live, env, key, job, s).live.jobs == Act(view, live, env, key, job).live.jobs
  {
    hide Act, ComputeStatus, LauncherPods, CleanedStatus;
  }

  /** Whatever its snapshot shows and whichever calls fail, a sync of an unsuspended job creates a launcher only
      if its policy is AtStartup, or there is no worker spec, or workers 0 to n - 1 are all there, the
      job's own, and ready - or else there are more than n worker pods and one has no index label. */
  lemma LauncherStartsOnlyIf(view: Cluster, live: Cluster, env: Env, key: Key)
    requires IsListing(env.workerOrder, view.pods.Keys)
    requires key in view.groupJobs && !JobAt(view, key).spec.Suspended()
    requires LauncherKey(key) !in live.jobs && LauncherKey(key) in Sync(view, live, env, key).live.jobs
    ensures StartsNow(view.pods, key, JobAt(view, key))
  {
    hide SyncTerminal, SyncActive, Act, Ignored, IsTerminal, MarkCreated, MarkStarted, Default, LauncherKey, StartsNow,
         IsListing;
    var job := JobAt(view, key);
    if !Ignored(key, job) {
      var status := MarkCreated(job.status, env.now);
      TerminalStartsNone(view, live, env, key, job, status);
      ActiveStarts(view, live, env, key, job, MarkStarted(status, false, env.now));
      AcceptedSpec(key, job);
      ActStartsOnlyIf(view, live, env, key, job);
    }
  }

  /* ---- If: no failing calls, no foreign names ---- */

  lemma {:induction false} DeleteSurplusGoesOn(view: Cluster, live: Cluster, env: Env, keys: seq<Key>, n: int)
    requires env.faults == {} && NoDup(keys) && forall k :: k in keys ==> k in live.pods
    ensures !DeleteSurplus(view, live, env, keys, n).ScaleFailed?
    decreases keys
  {
    hide Surplus;
    if keys != [] {
      var k, rest := keys[0], keys[1..];
      assert keys == [k] + rest;
      DeleteSurplusGoesOn(view, live, env, rest, n);
      DeleteSurplusGoesOn(view, live.(pods := live.pods - {k}), env, rest, n);
    }
  }

  /** If no call fails and the workers' names are free, getOrCreateWorker succeeds, whatever other pods the
      selector matches. */
  lemma WorkersObtained(c: Cluster, live: Cluster, env: Env, key: Key, job: GroupJob)
    requires env.faults == {} && IsListing(env.workerOrder, c.pods.Keys) && live.pods == c.pods
    requires OwnsWorkerNames(c.pods, key, job.uid) && job.spec.WorkerReplicas() >= 0
    ensures GetWorkers(c, live, env, key, job).Ok?
  {
    if job.spec.Replica(Worker).Some? {
      hide EnsureWorkers, DeleteSurplus, WorkerKey, WorkerFilter, Missing;
      var n, w := job.spec.WorkerReplicas(), job.spec.Replica(Worker).value;
      var keys := SelectedPods(c, env.workerOrder, key);
      FilterMembers(env.workerOrder, WorkerFilter(c.pods, key));
      DeleteSurplusGoesOn(c, live, env, keys, n);
      DeleteSurplusFrame(c, live, env, keys, n);
      var after := if |keys| > n then DeleteSurplus(c, live, env, keys, n).live else live;
      MissingDisjoint(c.pods, key, n);
      assert after.pods.Keys <= c.pods.Keys;
      EnsureWorkersCreates(c, after, env, key, job, w, 0, n, []);
    }
  }

  lemma ObjectsObtained(c: Cluster, env: Env, gang: Option<GangScheduler>, key: Key, job: GroupJob)
    requires Calm(c, env, gang, job) && NoForeignObjects(c, key, job.uid)
    requires Schedulable(gang, job, c.priorityClasses)
    requires AcceptsReplicas(job.spec) && job.spec.WorkerReplicas() >= 0 && !job.spec.Suspended()
    ensures var r := EnsureObjects(c, c, env, key, job);
            && r.Ok? && r.live.jobs == c.jobs
            && (LauncherMayStart(job, r.value) <==> StartsNow(c.pods, key, job))
  {
    EnsureObjectsKeepJobs(c, c, env, key, job);
    hide EnsureService, EnsureConfigMap, EnsureSecret, EnsureGang, GetWorkers, NextConfigMaps, NextSecrets, StartsNow,
         NewService, NewPodGroupSpec, ConfigKey, SecretKey, LauncherKey, OwnsWorkerNames, IsSorted, LauncherMayStart,
         AcceptsReplicas, Schedulable, IsListing;
    BasicsSettle(c, env, key, job);
    var s3 := c.(services := c.services[key := NewService(key, job)], configMaps := NextConfigMaps(c, env, key, job),
                 secrets := NextSecrets(c, env, key, job));
    GangSettles(c, s3, env, key, job);
    hide NextPodGroups;
    var s4 := s3.(podGroups := NextPodGroups(c, env, key, job));
    WorkersObtained(c, s4, env, key, job);
    WorkersReady(c, s4, env, key, job);
  }

  lemma ActObtained(c: Cluster, env: Env, gang: Option<GangScheduler>, key: Key, job: GroupJob)
    requires Calm(c, env, gang, job) && NoForeignObjects(c, key, job.uid)
    requires Schedulable(gang, job, c.priorityClasses)
    requires AcceptsReplicas(job.spec) && job.spec.WorkerReplicas() >= 0 && !job.spec.Suspended()
    requires LauncherKey(key) in c.jobs ==> !JobFinished(c.jobs[LauncherKey(key)])
    ensures var r := Act(c, c, env, key, job);
            r.Ok? && r.live.jobs == WithLauncher(c, key, NextLauncher(c, env, key, job, StartsNow(c.pods, key, job)))
  {
    hide EnsureObjects, EnsureLauncher, AlignLauncher, LauncherMayStart, NextLauncher, WithLauncher, LauncherKey, Calm,
         Schedulable, AcceptsReplicas, CleanUp, JobFinished, StartsNow, ConfigKey, SecretKey, OwnsWorkerNames;
    ObjectsObtained(c, env, gang, key, job);
    var ensured := EnsureObjects(c, c, env, key, job);
    NoFaults(c, env, gang, job);
    LauncherSettles(c, ensured.live, env, key, job, ensured.value);
  }

  lemma LauncherStored(c: Cluster, env: Env, key: Key, job: GroupJob, mayStart: bool)
    ensures LauncherKey(key) in WithLauncher(c, key, NextLauncher(c, env, key, job, mayStart)) <==>
            LauncherKey(key) in c.jobs || mayStart
  {
    hide LauncherKey;
  }

  /** If no call fails and nobody else holds the job's names, a sync of an active job succeeds and leaves a
      launcher exactly if there was one, or its policy is AtStartup, or there is no worker spec, or
      workers 0 to n - 1 were all there, the job's own, and ready - or else there were more than n
      worker pods and one of them had no index label: then the code mistakes the empty result for a
      complete set and starts the launcher whatever state the workers are in. */
  lemma LauncherStartsIff(c: Cluster, env: Env, gang: Option<GangScheduler>, key: Key)
    requires Tidy(c, key) && Active(c, key) && Calm(c, env, gang, JobAt(c, key))
    requires Schedulable(gang, JobAt(c, key), c.priorityClasses)
    ensures var r := Sync(c, c, env, key);
            && r.ok && r.computed.Some?
            && (LauncherKey(key) in r.live.jobs <==>
                  LauncherKey(key) in c.jobs || StartsNow(c.pods, key, JobAt(c, key)))
  {
    hide Act, Sync, LauncherKey, StartsNow, Default, Ignored, IsTerminal, StatusInv, JobFinished, Schedulable,
         IsListing, IsSorted, NoForeignObjects, NextLauncher, WithLauncher, AcceptsReplicas, Computed, LauncherPods,
         SeenOk, ViewOk;
    var job := JobAt(c, key);
    AcceptedSpec(key, job);
    ActObtained(c, env, gang, key, job);
    SyncSettles(c, env, key);
    LauncherStored(c, env, key, job, StartsNow(c.pods, key, job));
  }

  /* ---- Started too early ---- */

  /** Two pods that carry the worker labels but no index label start the launcher of a one-worker job that
      waits for its workers, while no worker exists. */
  lemma UnlabelledPodsStartLauncher(c: Cluster, env: Env, gang: Option<GangScheduler>, key: Key, a: Key, b: Key)
    requires Tidy(c, key) && Active(c, key) && Calm(c, env, gang, JobAt(c, key))
    requires Schedulable(gang, JobAt(c, key), c.priorityClasses)
    requires JobAt(c, key).spec.launcherCreationPolicy == WaitForWorkersReady
    requires JobAt(c, key).spec.WorkerReplicas() == 1 && forall i: nat :: WorkerKey(key, i) !in c.pods
    requires a != b && a in WorkerKeys(c.pods, key) && b in WorkerKeys(c.pods, key)
    requires ReplicaIndexLabel !in c.pods[a].labels
    ensures Sync(c, c, env, key).ok && LauncherKey(key) in Sync(c, c, env, key).live.jobs
    ensures !AllReady(c.pods, key, JobAt(c, key), 1)
  {
    hide Sync, Tidy, Active, Calm, Default, Schedulable, WorkerKeys, WorkerKey, LauncherKey;
    LauncherStartsIff(c, env, gang, key);
    TwoAtLeast(WorkerKeys(c.pods, key), a, b);
    assert WorkerKey(key, 0) !in c.pods;
  }

  lemma TwoAtLeast<T>(s: set<T>, a: T, b: T)
    requires a != b && a in s && b in s
    ensures |s| >= 2
  {
    assert s == {a, b} + (s - {a, b}) && |{a, b}| == 2;
  }

  const WAITING_KEY := Key("n", "a")
  const WAITING_JOB := GroupJob(
    1, false, "",
    GroupJobSpec(Some(1), None, RunPolicy(Some(CleanNone), None, None, None, None, None, None),
                 Some(map[Launcher := ExampleSpec(1), Worker := ExampleSpec(1)]), ROOT_SSH_PATH, WaitForWorkersReady,
                 OpenMPI),
    EMPTY_STATUS)
  const STRAY_POD := Pod(None, DefaultLabels("a", WORKER_ROLE), PodPending, "", 0, [])
  const STRAY_PODS := map[Key("n", "x") := STRAY_POD, Key("n", "y") := STRAY_POD]

  /** A job that waits for its one worker, and two stray pods with its labels. */
  const WAITING := Cluster(map[WAITING_KEY := WAITING_JOB], map[], map[], map[], map[], STRAY_PODS, map[], map[])

  lemma WaitingAccepted()
    ensures JobAt(WAITING, WAITING_KEY) == WAITING_JOB && !Ignored(WAITING_KEY, WAITING_JOB)
  {
    var s := WAITING_JOB.spec;
    var specs := s.replicaSpecs.value;
    assert specs[Launcher := ExampleSpec(1)] == specs && specs[Worker := ExampleSpec(1)] == specs;
    assert DefaultReplica(ExampleSpec(1), OnFailure, 1) == ExampleSpec(1);
    assert DefaultReplica(ExampleSpec(1), Never, 0) == ExampleSpec(1);
    assert s.Replica(Launcher) == Some(ExampleSpec(1)) && s.Replica(Worker) == Some(ExampleSpec(1));
    WorkerNameIsLabel("a", 0);
    assert Itoa(0) == [Digit(0)];
  }

  lemma WaitingHasNoWorkers()
    ensures forall i: nat :: WorkerKey(WAITING_KEY, i) !in STRAY_PODS
  {
    forall i: nat ensures WorkerKey(WAITING_KEY, i) !in STRAY_PODS {
      assert |WorkerKey(WAITING_KEY, i).name| > 1;
    }
  }

  lemma WaitingIsTidy()
    ensures Tidy(WAITING, WAITING_KEY) && Active(WAITING, WAITING_KEY)
  {
    hide Default, Ignored;
    WaitingAccepted();
    WaitingHasNoWorkers();
    EmptyInv();
    hide StatusInv, WorkerKey, LauncherKey;
  }

  /** Such a job exists: validation accepts it, and a sync starts its launcher although it has no worker. */
  lemma WaitingStarts() returns (env: Env)
    ensures Calm(WAITING, env, None, JobAt(WAITING, WAITING_KEY))
    ensures !Ignored(WAITING_KEY, JobAt(WAITING, WAITING_KEY))
    ensures JobAt(WAITING, WAITING_KEY).spec.launcherCreationPolicy == WaitForWorkersReady
    ensures forall i: nat :: WorkerKey(WAITING_KEY, i) !in WAITING.pods
    ensures LauncherKey(WAITING_KEY) in Sync(WAITING, WAITING, env, WAITING_KEY).live.jobs
  {
    hide Tidy, Active, Calm, Sync, Default, Ignored;
    WaitingAccepted();
    WaitingHasNoWorkers();
    WaitingIsTidy();
    env := CalmExists(WAITING, None, JobAt(WAITING, WAITING_KEY));
    UnlabelledPodsStartLauncher(WAITING, env, None, WAITING_KEY, Key("n", "x"), Key("n", "y"));
  }
}
