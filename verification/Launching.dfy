/** Suspension, and when the launcher starts (syncHandler, cleanUpWorkerPods and deleteWorkerPods in
    pkg/controller/mpi_job_controller.go). */
module Launching {
  import opened Types
  import opened Names
  import opened Listings
  import opened Defaults
  import opened Validation
  import opened Status
  import opened Api
  import opened Objects
  import opened Workers
  import opened Reconcile
  import opened StatusSteps
  import opened Runs
  import opened Scaling

  /* ---- deleteWorkerPods in closed form ---- */

  /** The keys of workers i to n - 1 whose pods the clean pod policy does not keep. */
  ghost function Doomed(pods: map<Key, Pod>, key: Key, job: GroupJob, i: nat, n: int): set<Key> {
    set j | i <= j < n && WorkerKey(key, j) in pods && !KeepsPod(job, pods[WorkerKey(key, j)]) :: WorkerKey(key, j)
  }

  ghost predicate MayDelete(pods: map<Key, Pod>, env: Env, key: Key, job: GroupJob, j: nat) {
    var k := WorkerKey(key, j);
    k in pods ==> pods[k].owner == Some(job.uid) && (KeepsPod(job, pods[k]) || DeletePod(k.name) !in env.faults)
  }

  lemma DoomedStep(pods: map<Key, Pod>, key: Key, job: GroupJob, i: nat, n: int)
    requires i < n
    ensures var k := WorkerKey(key, i);
            Doomed(pods, key, job, i, n) ==
            (if k in pods && !KeepsPod(job, pods[k]) then {k} else {}) + Doomed(pods, key, job, i + 1, n)
  {
    hide WorkerKey, KeepsPod;
  }

  /** Deletes exactly the doomed pods, and succeeds exactly when every worker pod it finds is the
      job's own and no deletion it needs fails. */
  lemma {:induction false} DeleteWorkersDeletes(view: Cluster, live: Cluster, env: Env, key: Key, job: GroupJob,
                                                i: nat, n: int)
    ensures var r := DeleteWorkers(view, live, env, key, job, i, n);
            && (r.Ok? <==> forall j: nat :: i <= j < n ==> MayDelete(view.pods, env, key, job, j))
            && (r.Ok? ==> r.live == live.(pods := live.pods - Doomed(view.pods, key, job, i, n)))
    decreases n - i
  {
    hide WorkerKey, KeepsPod;
    if i < n {
      var k := WorkerKey(key, i);
      DoomedStep(view.pods, key, job, i, n);
      hide Doomed;
      DeleteWorkersDeletes(view, live, env, key, job, i + 1, n);
      DeleteWorkersDeletes(view, live.(pods := live.pods - {k}), env, key, job, i + 1, n);
      var rest := Doomed(view.pods, key, job, i + 1, n);
      assert (forall j: nat :: i <= j < n ==> MayDelete(view.pods, env, key, job, j)) <==>
             MayDelete(view.pods, env, key, job, i) && forall j: nat :: i + 1 <= j < n ==>
                 MayDelete(view.pods, env, key, job, j);
      assert {} + rest == rest && live.pods - {k} - rest == live.pods - ({k} + rest);
    } else {
      assert Doomed(view.pods, key, job, i, n) == {};
      assert live.pods - {} == live.pods;
    }
  }

  /* ---- The launcher ---- */

  /** A sync that computes a status has taken all its steps on the defaulted job, and then written
      at most that status. */
  lemma ReachedActs(view: Cluster, live: Cluster, env: Env, key: Key)
    requires Sync(view, live, env, key).computed.Some?
    ensures key in view.groupJobs
    ensures var r := Sync(view, live, env, key);
            var job := DefaultedJob(view.groupJobs[key]);
            && !Ignored(key, job) && !IsTerminal(MarkCreated(job.status, env.now))
            && Act(view, live, env, key, job).Ok?
            && r.live == Act(view, live, env, key, job).live.(groupJobs := r.live.groupJobs)
  {
    hide Act, Ignored, IsTerminal, MarkCreated, MarkStarted, ComputeStatus, Default, CleanUp, CleanedStatus,
         LauncherPods;
  }

  /** What the steps before the status update do to the launcher seen in a current snapshot: they
      hand on the one that is stored afterwards, the job's own and with the job's suspend flag. */
  lemma ActLaunches(view: Cluster, live: Cluster, env: Env, key: Key, job: GroupJob)
    requires view.jobs == live.jobs && Act(view, live, env, key, job).Ok?
    ensures var r := Act(view, live, env, key, job);
            var launcher := r.value.0;
            && (launcher.None? ==> r.live.jobs == live.jobs && LauncherKey(key) !in live.jobs)
            && (launcher.Some? ==>
                  && r.live.jobs == live.jobs[LauncherKey(key) := launcher.value]
                  && launcher.value.owner == Some(job.uid)
                  && launcher.value.IsSuspended() == job.spec.Suspended())
  {
    hide Prepare, LauncherKey, CleanUp;
    PrepareLaunches(view, live, env, key, job);
    var prepared := Prepare(view, live, env, key, job);
    var aligned := AlignLauncher(prepared.live, env, key, job, prepared.value.0);
    CleanUpFrame(view, aligned.live, env, key, job);
  }

  lemma PrepareLaunches(view: Cluster, live: Cluster, env: Env, key: Key, job: GroupJob)
    requires view.jobs == live.jobs && Prepare(view, live, env, key, job).Ok?
    ensures var r := Prepare(view, live, env, key, job);
            var launcher := r.value.0;
            && (launcher.None? ==> r.live.jobs == live.jobs && LauncherKey(key) !in live.jobs)
            && (launcher.Some? ==> r.live.jobs == live.jobs[LauncherKey(key) := launcher.value])
            && (launcher.Some? && LauncherKey(key) in live.jobs ==> launcher.value == live.jobs[LauncherKey(key)])
            && (launcher.Some? && LauncherKey(key) !in live.jobs ==> launcher.value.owner == Some(job.uid))
  {
    hide EnsureObjects, LauncherKey, LauncherMayStart;
    var found := FindLauncher(view, key);
    EnsureObjectsKeepJobs(view, live, env, key, job);
    if found.Some? {
      assert live.jobs[LauncherKey(key) := found.value] == live.jobs;
    }
  }

  lemma EnsureObjectsKeepJobs(view: Cluster, live: Cluster, env: Env, key: Key, job: GroupJob)
    ensures EnsureObjects(view, live, env, key, job).live.jobs == live.jobs
  {
    hide EnsureService, EnsureConfigMap, EnsureSecret, EnsureGang, GetWorkers, SameExcept;
    var r1 := EnsureService(view, live, env, key, job).live;
    EnsureServiceFrame(view, live, env, key, job);
    var r2 := EnsureConfigMap(view, r1, env, key, job).live;
    EnsureConfigMapFrame(view, r1, env, key, job);
    var r3 := EnsureSecret(view, r2, env, key, job).live;
    EnsureSecretFrame(view, r2, env, key, job);
    EnsureGangFrame(view, r3, env, key, job);
    GetWorkersFrame(view, EnsureGang(view, r3, env, key, job).live, env, key, job);
  }

  /** Whenever a sync gets as far as the status update, an existing launcher is the job's own and has
      its suspend flag: a resumed job's launcher is started again whatever state the workers are in. */
  lemma SuspensionAligned(c: Cluster, env: Env, key: Key)
    requires Sync(c, c, env, key).computed.Some?
    ensures key in c.groupJobs
    ensures var job, jobs := DefaultedJob(c.groupJobs[key]), Sync(c, c, env, key).live.jobs;
            LauncherKey(key) in jobs ==>
              jobs[LauncherKey(key)].owner == Some(job.uid)
              && jobs[LauncherKey(key)].IsSuspended() == job.spec.Suspended()
  {
    hide Act, Sync, LauncherKey;
    ReachedActs(c, c, env, key);
    ActLaunches(c, c, env, key, DefaultedJob(c.groupJobs[key]));
  }

  /* ---- A suspended sync ---- */

  lemma SuspendedPrepare(view: Cluster, live: Cluster, env: Env, key: Key, job: GroupJob)
    requires job.spec.Suspended() && Prepare(view, live, env, key, job).Ok?
    ensures var r := Prepare(view, live, env, key, job);
            && r.live.pods == live.pods && r.live.podGroups == live.podGroups
            && r.value.0.Some? && r.value.1 == []
  {
    hide EnsureService, EnsureConfigMap, EnsureSecret, LauncherKey, NewLauncher;
    var r1 := EnsureService(view, live, env, key, job).live;
    EnsureServiceFrame(view, live, env, key, job);
    var r2 := EnsureConfigMap(view, r1, env, key, job).live;
    EnsureConfigMapFrame(view, r1, env, key, job);
    EnsureSecretFrame(view, r2, env, key, job);
    assert LauncherMayStart(job, []);
  }

  lemma SuspendedCleanUp(view: Cluster, live: Cluster, env: Env, key: Key, job: GroupJob)
    requires CleanUp(view, live, env, key, job).Ok? && view.podGroups == live.podGroups
    ensures var r := CleanUp(view, live, env, key, job).live;
            && r.pods == live.pods - Doomed(view.pods, key, job, 0, job.spec.WorkerReplicas())
            && r.podGroups == if env.gang.Some? then live.podGroups - {key} else live.podGroups
  {
    hide DeleteWorkers, Doomed;
    DeleteWorkersDeletes(view, live, env, key, job, 0, job.spec.WorkerReplicas());
  }

  lemma SuspendedAct(c: Cluster, env: Env, key: Key, job: GroupJob)
    requires job.spec.Suspended() && Act(c, c, env, key, job).Ok?
    ensures var r := Act(c, c, env, key, job);
            && r.live.pods == c.pods - Doomed(c.pods, key, job, 0, job.spec.WorkerReplicas())
            && r.live.podGroups == (if env.gang.Some? then c.podGroups - {key} else c.podGroups)
            && r.value.0.Some? && r.value.1 == []
  {
    hide Prepare, Doomed, CleanUp;
    SuspendedPrepare(c, c, env, key, job);
    var prepared := Prepare(c, c, env, key, job);
    var aligned := AlignLauncher(prepared.live, env, key, job, prepared.value.0);
    SuspendedCleanUp(c, aligned.live, env, key, job);
  }

  /** The status a suspended sync computes. */
  lemma SuspendedStatus(s0: JobStatus, launcher: Option<BatchJob>, pods: seq<Pod>, now: Time)
    requires StatusInv(s0) && !IsTerminal(s0) && SeenOk(true, launcher, [])
    ensures var s := Computed(s0, true, launcher, pods, [], now);
            && IsStatus(s, Suspended, True) && IsStatus(s, Running, False)
            && Worker in s.replicaStatuses && s.replicaStatuses[Worker] == NO_REPLICAS
  {
    hide StatusInv, IsTerminal, JobFinished, JobSucceeded, JobFailed;
    ComputedInv(s0, true, launcher, pods, [], now);
    SuspendedInv(Computed(s0, true, launcher, pods, [], now));
    BeforeLookups(s0, true, now);
    var b := Before(s0, true, now);
    SuspendStepFacts(b, true, now);
    LauncherStepFacts(SuspendStep(b, true, now), launcher, pods, now);
    var s2 := LauncherStep(SuspendStep(b, true, now), launcher, pods, now);
    WorkerStepFacts(s2, [], now);
    UpdateLookups(WorkerStep(s2, [], now), Running, False, SUSPENDED_REASON, now);
  }

  lemma SuspendedInv(s: JobStatus)
    requires StatusInv(s) && IsStatus(s, Suspended, True)
    ensures Worker in s.replicaStatuses && s.replicaStatuses[Worker] == NO_REPLICAS
  {
  }

  /** A suspended sync that succeeds creates no worker, leaves a suspended launcher of the job's own,
      removes the PodGroup, and stores a status with no workers, Suspended and not Running. Of workers
      0 to n - 1 it leaves none, or under policy Running exactly those neither running nor pending;
      every other pod stays, workers beyond the replica count included. */
  lemma SuspendedSync(c: Cluster, env: Env, key: Key)
    requires var r := Sync(c, c, env, key); r.ok && r.computed.Some?
    requires key in c.groupJobs && DefaultedJob(c.groupJobs[key]).spec.Suspended()
    requires StatusInv(c.groupJobs[key].status) && ViewOk(c)
    ensures var r, job := Sync(c, c, env, key).live, DefaultedJob(c.groupJobs[key]);
            var n := job.spec.WorkerReplicas();
            && LauncherKey(key) in r.jobs && r.jobs[LauncherKey(key)].owner == Some(job.uid)
            && r.jobs[LauncherKey(key)].IsSuspended()
            && (env.gang.Some? ==> r.podGroups == c.podGroups - {key})
            && r.pods == c.pods - Doomed(c.pods, key, job, 0, n)
            && (forall i: nat :: i < n ==>
                  (WorkerKey(key, i) in r.pods <==>
                     && WorkerKey(key, i) in c.pods && job.spec.runPolicy.cleanPodPolicy == Some(CleanRunning)
                     && c.pods[WorkerKey(key, i)].phase !in {PodRunning, PodPending}))
            && key in r.groupJobs
            && var s := r.groupJobs[key].status;
            && IsStatus(s, Suspended, True) && IsStatus(s, Running, False)
            && Worker in s.replicaStatuses && s.replicaStatuses[Worker] == NO_REPLICAS
  {
    hide Act, Sync, LauncherKey, StatusInv, Default, IsTerminal, MarkCreated, LauncherPods, IsStatus, Doomed;
    var job := DefaultedJob(c.groupJobs[key]);
    ReachedActs(c, c, env, key);
    ActLaunches(c, c, env, key, job);
    SuspendedAct(c, env, key, job);
    DoomedWorkers(c.pods, key, job, job.spec.WorkerReplicas());
    SuspendedSyncStatus(c, env, key);
  }

  lemma DoomedWorkers(pods: map<Key, Pod>, key: Key, job: GroupJob, n: int)
    ensures forall i: nat :: i < n ==>
              (WorkerKey(key, i) in Doomed(pods, key, job, 0, n) <==>
                 WorkerKey(key, i) in pods && !KeepsPod(job, pods[WorkerKey(key, i)]))
  {
    hide WorkerKey;
  }

  lemma SuspendedSyncStatus(c: Cluster, env: Env, key: Key)
    requires var r := Sync(c, c, env, key); r.ok && r.computed.Some?
    requires key in c.groupJobs && DefaultedJob(c.groupJobs[key]).spec.Suspended()
    requires StatusInv(c.groupJobs[key].status) && ViewOk(c)
    ensures var r := Sync(c, c, env, key).live;
            key in r.groupJobs && var s := r.groupJobs[key].status;
            && IsStatus(s, Suspended, True) && IsStatus(s, Running, False)
            && Worker in s.replicaStatuses && s.replicaStatuses[Worker] == NO_REPLICAS
  {
    hide Act, StatusInv, Default, IsTerminal, MarkCreated, MarkStarted, LauncherPods, IsStatus, ComputeStatus,
         Accepts, SeenOk;
    var job := DefaultedJob(c.groupJobs[key]);
    SyncWrites(c, c, env, key);
    ReachedActs(c, c, env, key);
    ActSees(c, c, env, key, job);
    SuspendedAct(c, env, key, job);
    MarkCreatedKeepsOutcome(job.status, env.now);
    var launcher := Act(c, c, env, key, job).value.0;
    SuspendedStatus(job.status, launcher, LauncherPods(c, env.launcherPodOrder, key, launcher), env.now);
  }

  /* ---- Waiting for the workers ---- */

  /** Does some Ready condition of the pod say True? */
  ghost predicate SaysReady(pod: Pod) {
    exists i :: 0 <= i < |pod.conditions| && pod.conditions[i].kind == PodReady && pod.conditions[i].status == True
  }

  lemma ReadyIfSaid(pod: Pod)
    ensures IsReady(pod) <==> SaysReady(pod)
  {
    if IsReady(pod) {
      var c :| c in pod.conditions && c.kind == PodReady && c.status == True;
    }
  }

  /** Are workers 0 to n - 1 all there, the job's own, and ready? */
  ghost predicate AllReady(pods: map<Key, Pod>, key: Key, job: GroupJob, n: int) {
    forall i: nat :: i < n ==>
      WorkerKey(key, i) in pods && pods[WorkerKey(key, i)].owner == Some(job.uid) && SaysReady(pods[WorkerKey(key, i)])
  }

  /** Does scaling down meet a pod without an index label? */
  ghost predicate LabelStops(pods: map<Key, Pod>, key: Key, n: int) {
    |WorkerKeys(pods, key)| > n && exists k :: k in WorkerKeys(pods, key) && ReplicaIndexLabel !in pods[k].labels
  }

  /** When the creation loop succeeds, the pods it returns are workers i to n - 1 in order, all owned. */
  lemma {:induction false} EnsureWorkersReturns(view: Cluster, live: Cluster, env: Env, key: Key, job: GroupJob,
                                                w: ReplicaSpec,
                                                i: nat, n: nat, found: seq<Pod>)
    requires i <= n && EnsureWorkers(view, live, env, key, job, w, i, n, found).Ok?
    ensures EnsureWorkers(view, live, env, key, job, w, i, n, found).value ==
            found + WorkerPods(view, key, job, w, env, i, n)
    ensures OwnersInRange(view.pods, key, job, i, n)
    decreases n - i
  {
    hide WorkerKey, NewWorker;
    if i < n {
      var pod := WorkerPod(view, key, job, w, env, i);
      WorkerPodsStep(view, key, job, w, env, i, n);
      hide WorkerPods;
      var rest := WorkerPods(view, key, job, w, env, i + 1, n);
      assert found + [pod] + rest == found + ([pod] + rest);
      if WorkerKey(key, i) in view.pods {
        EnsureWorkersReturns(view, live, env, key, job, w, i + 1, n, found + [pod]);
      } else {
        EnsureWorkersReturns(view, live.(pods := live.pods[WorkerKey(key, i) := pod]), env, key, job, w, i + 1, n,
            found + [pod]);
      }
    }
  }

  /** Unless a deletion fails, the scale-down loop stops early exactly when a pod has no index label. */
  lemma {:induction false} DeleteSurplusStops(view: Cluster, live: Cluster, env: Env, keys: seq<Key>, n: int)
    requires forall k :: k in keys ==> k in view.pods
    requires !DeleteSurplus(view, live, env, keys, n).ScaleFailed?
    ensures DeleteSurplus(view, live, env, keys, n).LabelMissing? <==>
            exists k :: k in keys && ReplicaIndexLabel !in view.pods[k].labels
    decreases keys
  {
    if keys != [] {
      var k, rest := keys[0], keys[1..];
      assert keys == [k] + rest;
      if ReplicaIndexLabel in view.pods[k].labels {
        var live' := if Surplus(view, k, n) then live.(pods := live.pods - {k}) else live;
        DeleteSurplusStops(view, live', env, rest, n);
        assert (exists x :: x in keys && ReplicaIndexLabel !in view.pods[x].labels) <==>
               (exists x :: x in rest && ReplicaIndexLabel !in view.pods[x].labels);
      }
    }
  }

  /** What getOrCreateWorker returns when it succeeds: workers 0 to n - 1 in order, all owned, unless
      scaling down met a pod without an index label, when it returns nothing. */
  lemma GetWorkersReturns(view: Cluster, live: Cluster, env: Env, key: Key, job: GroupJob)
    requires IsListing(env.workerOrder, view.pods.Keys) && job.spec.Replica(Worker).Some?
        && job.spec.WorkerReplicas() >= 0
    requires GetWorkers(view, live, env, key, job).Ok?
    ensures var n, w := job.spec.WorkerReplicas(), job.spec.Replica(Worker).value;
            var workers := GetWorkers(view, live, env, key, job).value;
            if LabelStops(view.pods, key, n) then workers == []
            else workers == WorkerPods(view, key, job, w, env, 0, n) && OwnersInRange(view.pods, key, job, 0, n)
  {
    hide EnsureWorkers, DeleteSurplus, WorkerPods, WorkerKey, OwnersInRange;
    var n, w := job.spec.WorkerReplicas(), job.spec.Replica(Worker).value;
    var keys := SelectedPods(view, env.workerOrder, key);
    FilterMembers(env.workerOrder, WorkerFilter(view.pods, key));
    NoDupLength(keys, WorkerKeys(view.pods, key));
    var scaled := if |keys| > n then DeleteSurplus(view, live, env, keys, n) else Scaled(live);
    if |keys| > n {
      DeleteSurplusStops(view, live, env, keys, n);
    }
    if scaled.Scaled? {
      EnsureWorkersReturns(view, scaled.live, env, key, job, w, 0, n, []);
      assert [] + WorkerPods(view, key, job, w, env, 0, n) == WorkerPods(view, key, job, w, env, 0, n);
    }
  }

  /** A worker created this round is not ready, so all returned workers are ready only if all were
      there, ready, before. */
  lemma ReturnedReady(view: Cluster, key: Key, job: GroupJob, w: ReplicaSpec, env: Env, n: nat)
    requires OwnersInRange(view.pods, key, job, 0, n)
    ensures var workers := WorkerPods(view, key, job, w, env, 0, n);
            CountReady(workers) == |workers| <==> AllReady(view.pods, key, job, n)
  {
    hide WorkerKey, NewWorker;
    var workers := WorkerPods(view, key, job, w, env, 0, n);
    CountReadyAll(workers);
    forall i: nat | i < n
      ensures workers[i] == WorkerPod(view, key, job, w, env, i)
      ensures IsReady(workers[i]) <==> WorkerKey(key, i) in view.pods && SaysReady(view.pods[WorkerKey(key, i)])
    {
      NewWorkerNotReady(key, job, w, i, env);
      ReadyIfSaid(workers[i]);
    }
  }

  lemma NewWorkerNotReady(key: Key, job: GroupJob, w: ReplicaSpec, i: nat, env: Env)
    ensures !IsReady(NewWorker(key, job, w, i, env))
  {
  }

  /** Does the job's launcher policy let it start, the workers being as the snapshot shows them? */
  ghost predicate StartsNow(pods: map<Key, Pod>, key: Key, job: GroupJob) {
    var n := job.spec.WorkerReplicas();
    || job.spec.launcherCreationPolicy == AtStartup
    || job.spec.Replica(Worker).None?
    || AllReady(pods, key, job, n)
    || LabelStops(pods, key, n)
  }

  lemma WorkersReady(view: Cluster, live: Cluster, env: Env, key: Key, job: GroupJob)
    requires IsListing(env.workerOrder, view.pods.Keys) && job.spec.WorkerReplicas() >= 0
    requires GetWorkers(view, live, env, key, job).Ok?
    ensures LauncherMayStart(job, GetWorkers(view, live, env, key, job).value) <==> StartsNow(view.pods, key, job)
  {
    hide GetWorkers, WorkerPods, LabelStops, AllReady, OwnersInRange;
    if job.spec.Replica(Worker).Some? {
      GetWorkersReturns(view, live, env, key, job);
      var n, w := job.spec.WorkerReplicas(), job.spec.Replica(Worker).value;
      if !LabelStops(view.pods, key, n) {
        ReturnedReady(view, key, job, w, env, n);
      }
    } else {
      NoWorkersNeeded(view, live, env, key, job);
    }
  }

  lemma NoWorkersNeeded(view: Cluster, live: Cluster, env: Env, key: Key, job: GroupJob)
    requires job.spec.Replica(Worker).None?
    ensures GetWorkers(view, live, env, key, job) == Ok(live, [])
  {
  }
}
