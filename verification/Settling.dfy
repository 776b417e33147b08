/** What a sync does when no call fails and its snapshot is current: each step in closed form, and why
    doing it again changes nothing (pkg/controller/mpi_job_controller.go). */
module Settling {
  import opened Types
  import opened Names
  import opened Listings
  import opened Conditions
  import opened Defaults
  import opened Validation
  import opened PodGroups
  import opened SortOutcomes
  import opened ConfigMaps
  import opened Status
  import opened Api
  import opened Objects
  import opened Workers
  import opened Reconcile
  import opened StatusSteps
  import opened Runs
  import opened Scaling

  /* ---- Computing a status again ---- */

  /** Setting a condition that already holds for that reason changes nothing. */
  lemma UpdateAgain(s: JobStatus, kind: ConditionType, status: ConditionStatus, reason: string, now: Time)
    requires WellFormed(s.conditions) && GetCondition(s.conditions, kind).Some?
    requires GetCondition(s.conditions, kind).value.status == status
        && GetCondition(s.conditions, kind).value.reason == reason
    ensures Update(s, kind, status, reason, now) == s
  {
  }

  /** Does condition `kind` hold with this status and reason? */
  ghost predicate Shows(s: JobStatus, kind: ConditionType, status: ConditionStatus, reason: string) {
    var c := GetCondition(s.conditions, kind);
    c.Some? && c.value.status == status && c.value.reason == reason
  }

  /** What the status shows once a sync of an unfinished job has computed it. */
  ghost predicate ShowsWorkers(s: JobStatus, suspended: bool, launcher: Option<BatchJob>, launcherRunning: nat,
                               workers: seq<Pod>) {
    && Worker in s.replicaStatuses
    && s.replicaStatuses[Worker] ==
       ReplicaStatus(CountPhase(workers, PodRunning), CountPhase(workers, PodSucceeded), CountPhase(workers, PodFailed))
    && (launcher.Some? ==>
          Launcher in s.replicaStatuses
          && s.replicaStatuses[Launcher] == ReplicaStatus(launcherRunning, 0, launcher.value.failed))
    && (suspended ==> Shows(s, Running, False, SUSPENDED_REASON))
    && (CountEvicted(workers) > 0 ==> Shows(s, Failed, True, EVICTED_REASON))
    && (!suspended && launcher.Some? && launcherRunning >= 1 && CountPhase(workers, PodRunning) == |workers| ==>
          Shows(s, Running, True, RUNNING_REASON))
  }

  lemma {:induction false} EvictedNotRunning(pods: seq<Pod>)
    ensures CountEvicted(pods) + CountPhase(pods, PodRunning) <= |pods|
  {
    if pods != [] {
      EvictedNotRunning(pods[1..]);
    }
  }

  lemma WorkerStepShows(s: JobStatus, workers: seq<Pod>, now: Time)
    requires WellFormed(s.conditions)
    ensures CountEvicted(workers) > 0 ==> Shows(WorkerStep(s, workers, now), Failed, True, EVICTED_REASON)
    ensures WorkerStep(s, workers, now).replicaStatuses ==
            s.replicaStatuses[Worker := ReplicaStatus(CountPhase(workers, PodRunning),
                                                      CountPhase(workers, PodSucceeded),
                                                      CountPhase(workers, PodFailed))]
  {
    var counted := s.(replicaStatuses := WorkerStep(s, workers, now).replicaStatuses);
    UpdateLookups(counted, Failed, True, EVICTED_REASON, now);
  }

  lemma RunningStepShows(s: JobStatus, suspended: bool, allRunning: bool, now: Time)
    requires WellFormed(s.conditions)
    ensures var s' := RunningStep(s, suspended, allRunning, now);
            && (suspended ==> Shows(s', Running, False, SUSPENDED_REASON))
            && (!suspended && allRunning ==> Shows(s', Running, True, RUNNING_REASON))
            && GetCondition(s'.conditions, Failed) == GetCondition(s.conditions, Failed)
  {
    UpdateLookups(s, Running, False, SUSPENDED_REASON, now);
    UpdateLookups(s, Running, True, RUNNING_REASON, now);
  }

  lemma ComputedCounts(b: JobStatus, suspended: bool, launcher: Option<BatchJob>, launcherPods: seq<Pod>,
                       workers: seq<Pod>, now: Time)
    requires WellFormed(b.conditions) && SuspendedWellFormed(b) && b.completionTime.None?
    requires !IsStatus(b, Succeeded, True) && (launcher.Some? ==> !JobFinished(launcher.value))
    ensures var c := ComputeStatus(b, suspended, launcher, launcherPods, workers, now);
            var counted := if launcher.None? then b.replicaStatuses
                           else b.replicaStatuses[Launcher := ReplicaStatus(CountPhase(launcherPods, PodRunning), 0,
                                                                            launcher.value.failed)];
            c.replicaStatuses ==
            counted[Worker := ReplicaStatus(CountPhase(workers, PodRunning), CountPhase(workers, PodSucceeded),
                                            CountPhase(workers, PodFailed))]
  {
    hide SuspendStep, RunningStep, WorkerStep, WellFormed, JobFailed, JobSucceeded;
    var s1 := SuspendStep(b, suspended, now);
    SuspendStepFacts(b, suspended, now);
    LauncherStepFacts(s1, launcher, launcherPods, now);
    var s2 := LauncherStep(s1, launcher, launcherPods, now);
    WorkerStepFacts(s2, workers, now);
    WorkerStepShows(s2, workers, now);
    var s3 := WorkerStep(s2, workers, now);
    RunningStepFacts(s3, suspended, AllRunning(launcher, launcherPods, workers), now);
  }

  lemma ComputedConditions(b: JobStatus, suspended: bool, launcher: Option<BatchJob>, launcherPods: seq<Pod>,
                           workers: seq<Pod>, now: Time)
    requires WellFormed(b.conditions) && SuspendedWellFormed(b) && b.completionTime.None?
    requires !IsStatus(b, Succeeded, True) && SeenOk(suspended, launcher, workers)
    ensures var c := ComputeStatus(b, suspended, launcher, launcherPods, workers, now);
            && (suspended ==> Shows(c, Running, False, SUSPENDED_REASON))
            && (!suspended && AllRunning(launcher, launcherPods, workers) ==> Shows(c, Running, True, RUNNING_REASON))
            && (CountEvicted(workers) > 0 ==> Shows(c, Failed, True, EVICTED_REASON))
  {
    hide SuspendStep, LauncherStep, WorkerStep, RunningStep, WellFormed, JobFailed, JobSucceeded, Shows, AllRunning;
    var s1 := SuspendStep(b, suspended, now);
    SuspendStepFacts(b, suspended, now);
    LauncherStepFacts(s1, launcher, launcherPods, now);
    var s2 := LauncherStep(s1, launcher, launcherPods, now);
    WorkerStepFacts(s2, workers, now);
    WorkerStepShows(s2, workers, now);
    var s3 := WorkerStep(s2, workers, now);
    RunningStepShows(s3, suspended, AllRunning(launcher, launcherPods, workers), now);
    ShowsFailedKept(s3, RunningStep(s3, suspended, AllRunning(launcher, launcherPods, workers), now));
  }

  lemma ComputedShows(s0: JobStatus, suspended: bool, launcher: Option<BatchJob>, launcherPods: seq<Pod>,
                      workers: seq<Pod>, now: Time)
    requires StatusInv(s0) && !IsTerminal(s0) && SeenOk(suspended, launcher, workers)
    requires launcher.Some? ==> !JobFinished(launcher.value)
    ensures ShowsWorkers(Computed(s0, suspended, launcher, launcherPods, workers, now), suspended, launcher,
                         CountPhase(launcherPods, PodRunning), workers)
  {
    hide StatusInv, IsTerminal, Shows, ComputeStatus, WellFormed, JobFailed, JobSucceeded;
    BeforeLookups(s0, suspended, now);
    var b := Before(s0, suspended, now);
    hide Before;
    ComputedCounts(b, suspended, launcher, launcherPods, workers, now);
    ComputedConditions(b, suspended, launcher, launcherPods, workers, now);
  }

  lemma ShowsFailedKept(s: JobStatus, s': JobStatus)
    requires GetCondition(s'.conditions, Failed) == GetCondition(s.conditions, Failed)
    ensures Shows(s, Failed, True, EVICTED_REASON) ==> Shows(s', Failed, True, EVICTED_REASON)
  {
  }

  /** A status that already shows what the sync sees is computed as itself, at any later time. */
  lemma ComputedAgain(s: JobStatus, suspended: bool, launcher: Option<BatchJob>, launcherPods: seq<Pod>,
                      workers: seq<Pod>, now: Time)
    requires StatusInv(s) && s.conditions != [] && IsStatus(s, Suspended, True) == suspended
    requires suspended ==> workers == []
    requires launcher.Some? ==> !JobFinished(launcher.value)
    requires ShowsWorkers(s, suspended, launcher, CountPhase(launcherPods, PodRunning), workers)
    ensures Computed(s, suspended, launcher, launcherPods, workers, now) == s
  {
    hide WellFormed, JobFailed, JobSucceeded, SetCondition;
    EvictedNotRunning(workers);
    if suspended {
      assert s.replicaStatuses[Worker := NO_REPLICAS] == s.replicaStatuses;
      UpdateAgain(s, Suspended, True, SUSPENDED_REASON, now);
      UpdateAgain(s, Running, False, SUSPENDED_REASON, now);
    } else {
      if GetCondition(s.conditions, Suspended).Some? {
        UpdateAgain(s, Suspended, False, RESUMED_REASON, now);
      }
      if CountEvicted(workers) > 0 {
        UpdateAgain(s, Failed, True, EVICTED_REASON, now);
      }
      if AllRunning(launcher, launcherPods, workers) {
        UpdateAgain(s, Running, True, RUNNING_REASON, now);
      }
    }
    assert Before(s, suspended, now) == s;
    assert SuspendStep(s, suspended, now) == s;
    assert launcher.Some? ==> s.replicaStatuses[Launcher := s.replicaStatuses[Launcher]] == s.replicaStatuses;
    assert LauncherStep(s, launcher, launcherPods, now) == s;
    assert s.replicaStatuses[Worker := s.replicaStatuses[Worker]] == s.replicaStatuses;
    assert WorkerStep(s, workers, now) == s;
  }

  /** A status with a completion time is terminal. */
  lemma CompletedIsTerminal(s: JobStatus)
    requires StatusInv(s) && s.completionTime.Some?
    ensures IsTerminal(s)
  {
    HasConditionIff(s.conditions, Succeeded);
    HasConditionIff(s.conditions, Failed);
  }

  /* ---- Listing again, in whatever order ---- */

  ghost function OwnedIn(pods: map<Key, Pod>, namespace: string, owner: Uid, phase: Phase): set<Key> {
    set k | k in pods && k.namespace == namespace && pods[k].owner == Some(owner) && pods[k].phase == phase
  }

  ghost function Among(order: seq<Key>, keys: set<Key>): set<Key> {
    set k | k in order && k in keys
  }

  lemma AmongStep(order: seq<Key>, keys: set<Key>)
    requires order != [] && NoDup(order)
    ensures |Among(order, keys)| == (if order[0] in keys then 1 else 0) + |Among(order[1..], keys)|
  {
    assert order == [order[0]] + order[1..] && order[0] !in order[1..];
    assert Among(order, keys) == (if order[0] in keys then {order[0]} else {}) + Among(order[1..], keys);
  }

  lemma {:induction false} CountOwned(pods: map<Key, Pod>, order: seq<Key>, namespace: string, owner: Uid, phase: Phase)
    requires NoDup(order)
    ensures CountPhase(OwnedPods(pods, order, namespace, owner), phase) ==
            |Among(order, OwnedIn(pods, namespace, owner, phase))|
  {
    if order == [] {
      assert Among(order, OwnedIn(pods, namespace, owner, phase)) == {};
    } else {
      AmongStep(order, OwnedIn(pods, namespace, owner, phase));
      CountOwned(pods, order[1..], namespace, owner, phase);
      hide Among;
      var tail := OwnedPods(pods, order[1..], namespace, owner);
      assert order[0] in pods ==> ([pods[order[0]]] + tail)[1..] == tail;
      assert [] + tail == tail;
    }
  }

  ghost function RunningIn(pods: map<Key, Pod>, key: Key): set<Key> {
    set k | k in pods && RunningFilter(pods, key)(k)
  }

  lemma RunningNames(view: Cluster, order: seq<Key>, key: Key)
    requires IsListing(order, view.pods.Keys)
    ensures NoDup(RunningPods(view, order, key))
    ensures forall name :: name in RunningPods(view, order, key) <==>
        Key(key.namespace, name) in RunningIn(view.pods, key)
  {
    var keys := Filter(order, RunningFilter(view.pods, key));
    FilterMembers(order, RunningFilter(view.pods, key));
    NamesOfMembers(keys, key.namespace);
  }

  /** The same running workers give the same ConfigMap, however they are listed. */
  lemma ConfigDataSame(a: Cluster, b: Cluster, order: seq<Key>, order': seq<Key>, key: Key, spec: GroupJobSpec)
    requires IsListing(order, a.pods.Keys) && IsListing(order', b.pods.Keys)
    requires RunningIn(a.pods, key) == RunningIn(b.pods, key)
    ensures ConfigData(key, spec, RunningPods(a, order, key)) == ConfigData(key, spec, RunningPods(b, order', key))
  {
    RunningNames(a, order, key);
    RunningNames(b, order', key);
    ConfigDataCanonical(key, spec, RunningPods(a, order, key), RunningPods(b, order', key));
  }

  /* ---- Steps that cannot fail ---- */

  /** No call fails, and the listers and the sort return what they should, in some order. */
  ghost predicate Calm(c: Cluster, env: Env, gang: Option<GangScheduler>, job: GroupJob) {
    && env.faults == {} && env.gang == gang && env.launcherUid != job.uid
    && IsListing(env.runningOrder, c.pods.Keys)
    && IsListing(env.workerOrder, c.pods.Keys)
    && IsListing(env.launcherPodOrder, c.pods.Keys)
    && (gang.Some? && job.spec.replicaSpecs.Some? ==>
          IsSorted(env.replicaOrder, job.spec.replicaSpecs.value, c.priorityClasses))
  }

  /** Nobody else holds a name the job needs. */
  ghost predicate NoForeignObjects(c: Cluster, key: Key, uid: Uid) {
    && (key in c.services ==> c.services[key].owner == Some(uid))
    && (ConfigKey(key) in c.configMaps ==> c.configMaps[ConfigKey(key)].owner == Some(uid))
    && (SecretKey(key) in c.secrets ==> c.secrets[SecretKey(key)].owner == Some(uid))
    && (key in c.podGroups ==> c.podGroups[key].owner == Some(uid))
    && (LauncherKey(key) in c.jobs ==>
          c.jobs[LauncherKey(key)].owner == Some(uid) && c.jobs[LauncherKey(key)].uid != uid)
    && OwnsWorkerNames(c.pods, key, uid)
  }

  ghost predicate OwnsWorkerNames(pods: map<Key, Pod>, key: Key, uid: Uid) {
    forall i: nat :: WorkerKey(key, i) in pods ==> pods[WorkerKey(key, i)].owner == Some(uid)
  }

  /** If gang scheduling is on, is the job's PodGroup computed, and the same one however its replicas are
      sorted? */
  ghost predicate Schedulable(gang: Option<GangScheduler>, job: GroupJob, classes: map<string, int32>) {
    gang.Some? ==> job.spec.replicaSpecs.Some? && OneSpec(gang.value, job, classes)
  }

  ghost predicate SecretHasKeys(c: Cluster, key: Key) {
    SecretKey(key) in c.secrets && HasSshKeys(c.secrets[SecretKey(key)])
  }

  ghost function NextSecrets(c: Cluster, env: Env, key: Key, job: GroupJob): map<Key, Secret> {
    if SecretHasKeys(c, key) then c.secrets
    else c.secrets[SecretKey(key) := Secret(Some(job.uid), NewSecretData(env))]
  }

  ghost function NextConfigMaps(c: Cluster, env: Env, key: Key, job: GroupJob): map<Key, ConfigMap> {
    c.configMaps[ConfigKey(key) :=
      ConfigMap(Some(job.uid), ConfigData(key, job.spec, RunningPods(c, env.runningOrder, key)))]
  }

  ghost function NextPodGroups(c: Cluster, env: Env, key: Key, job: GroupJob): map<Key, PodGroup>
    requires env.gang.Some? ==> NewPodGroupSpec(env.gang.value, job, env.replicaOrder).Some?
  {
    if env.gang.None? then c.podGroups
    else c.podGroups[key := PodGroup(Some(job.uid), NewPodGroupSpec(env.gang.value, job, env.replicaOrder).value)]
  }

  lemma ServiceSettles(c: Cluster, env: Env, key: Key, job: GroupJob)
    requires env.faults == {} && (key in c.services ==> c.services[key].owner == Some(job.uid))
    ensures EnsureService(c, c, env, key, job) == Ok(c.(services := c.services[key := NewService(key, job)]), ())
  {
    if key in c.services && c.services[key] == NewService(key, job) {
      assert c.services[key := NewService(key, job)] == c.services;
    }
  }

  lemma ConfigMapSettles(c: Cluster, live: Cluster, env: Env, key: Key, job: GroupJob)
    requires env.faults == {} && live.configMaps == c.configMaps
    requires ConfigKey(key) in c.configMaps ==> c.configMaps[ConfigKey(key)].owner == Some(job.uid)
    ensures EnsureConfigMap(c, live, env, key, job) == Ok(live.(configMaps := NextConfigMaps(c, env, key, job)), ())
  {
    hide ConfigData, RunningPods, ConfigKey;
    var k, next := ConfigKey(key), ConfigMap(Some(job.uid), ConfigData(key, job.spec, RunningPods(c, env.runningOrder,
        key)));
    if k in c.configMaps && c.configMaps[k] == next {
      assert c.configMaps[k := next] == c.configMaps;
    }
  }

  lemma SecretSettles(c: Cluster, live: Cluster, env: Env, key: Key, job: GroupJob)
    requires env.faults == {} && live.secrets == c.secrets
    requires SecretKey(key) in c.secrets ==> c.secrets[SecretKey(key)].owner == Some(job.uid)
    ensures EnsureSecret(c, live, env, key, job) == Ok(live.(secrets := NextSecrets(c, env, key, job)), ())
  {
    hide SecretKey;
  }

  /** A job with a launcher and workers is schedulable, and one without workers unless its minAvailable is
      negative and it gives no resources of its own. */
  lemma SchedulableJobs(gang: Option<GangScheduler>, job: GroupJob, classes: map<string, int32>)
    requires AcceptsReplicas(job.spec) && job.spec.replicaSpecs.Some?
    requires job.spec.replicaSpecs.value.Keys <= {Launcher, Worker}
    requires job.spec.Replica(Worker).Some? || MinAvailable(job.spec) >= 0
    ensures Schedulable(gang, job, classes)
  {
    hide MinAvailable, Computable, OnlyKnownReplicas, AcceptsReplicas, OneSpec;
    var s := job.spec;
    AcceptedCounts(s);
    if gang.Some? {
      OneSpecIff(gang.value, job, classes);
      if MinAvailable(s) != 0 {
        KnownTypesComputable(gang.value, s.replicaSpecs.value, classes, MinAvailable(s));
      }
    }
  }

  lemma GangSettles(c: Cluster, live: Cluster, env: Env, key: Key, job: GroupJob)
    requires Calm(c, env, env.gang, job) && Schedulable(env.gang, job, c.priorityClasses)
    requires AcceptsReplicas(job.spec)
    requires live.podGroups == c.podGroups && (key in c.podGroups ==> c.podGroups[key].owner == Some(job.uid))
    ensures env.gang.Some? ==> NewPodGroupSpec(env.gang.value, job, env.replicaOrder).Some?
    ensures EnsureGang(c, live, env, key, job) == Ok(live.(podGroups := NextPodGroups(c, env, key, job)), ())
  {
    hide NewPodGroupSpec, IsListing, AcceptsReplicas;
    if env.gang.Some? {
      assert SameSpec(env.gang.value, job, env.replicaOrder, env.replicaOrder);
      var next := PodGroup(Some(job.uid), NewPodGroupSpec(env.gang.value, job, env.replicaOrder).value);
      if key in c.podGroups && c.podGroups[key] == next {
        assert c.podGroups[key := next] == c.podGroups;
      }
    }
  }

  /* ---- Worker pods ---- */

  /** What a round of getOrCreateWorker made of the pods of `c`, and the workers it returned. */
  ghost predicate PodsRound(c: Cluster, pods: map<Key, Pod>, workers: seq<Pod>, key: Key, job: GroupJob, env: Env)
    requires job.spec.WorkerReplicas() >= 0
  {
    match job.spec.Replica(Worker)
    case None => pods == c.pods && workers == []
    case Some(w) =>
      var n := job.spec.WorkerReplicas();
      var before, after := WorkerKeys(c.pods, key), WorkerKeys(pods, key);
      && workers == WorkerPods(c, key, job, w, env, 0, n)
      && after == NextKeys(before, Wanted(key, n), Kept(c.pods, key, n))
      && OwnWorkers(pods, key, job.uid)
      && (forall k :: k in c.pods && k in pods ==> pods[k] == c.pods[k])
      && (forall k :: k !in before && k !in after ==> (k in c.pods <==> k in pods))
      && MissingAreNew(c.pods, pods, key, job, w, env, 0, n)
  }

  lemma WorkersSettle(c: Cluster, live: Cluster, env: Env, key: Key, job: GroupJob)
    requires env.faults == {} && IsListing(env.workerOrder, c.pods.Keys) && live.pods == c.pods
    requires OwnWorkers(c.pods, key, job.uid) && job.spec.WorkerReplicas() >= 0
    ensures var r := GetWorkers(c, live, env, key, job);
            && r.Ok? && r.live == live.(pods := r.live.pods)
            && PodsRound(c, r.live.pods, r.value, key, job, env)
  {
    if job.spec.Replica(Worker).Some? {
      hide GetWorkers, OwnWorkers, WorkerKeys, Wanted, Kept, NextKeys, MissingAreNew, WorkerPods;
      WorkerRound(c, live, env, key, job);
    }
  }

  /** Is there no pod to scale down? */
  ghost predicate Calmed(pods: map<Key, Pod>, key: Key, job: GroupJob) {
    job.spec.Replica(Worker).None? || WorkerKeys(pods, key) <= Wanted(key, job.spec.WorkerReplicas())
  }

  /** Are workers 0 to n - 1 all there, and no others? */
  ghost predicate Complete(pods: map<Key, Pod>, key: Key, job: GroupJob) {
    job.spec.Replica(Worker).None? || WorkerKeys(pods, key) == Wanted(key, job.spec.WorkerReplicas())
  }

  /** Is `pods'` the same pods and some workers that have just been created? */
  ghost predicate Grows(pods: map<Key, Pod>, pods': map<Key, Pod>, key: Key, job: GroupJob) {
    && (forall k :: k in pods ==> k in pods' && pods'[k] == pods[k])
    && (forall k :: k in pods' && k !in pods ==>
          pods'[k].phase == PodPending && pods'[k].owner == Some(job.uid) && !IsReady(pods'[k]))
  }

  /** A round with nothing to scale down completes the set of workers, only creating pods. */
  lemma QuietRound(c: Cluster, pods: map<Key, Pod>, workers: seq<Pod>, key: Key, job: GroupJob, env: Env)
    requires job.spec.WorkerReplicas() >= 0 && OwnWorkers(c.pods, key, job.uid) && Calmed(c.pods, key, job)
    requires PodsRound(c, pods, workers, key, job, env)
    ensures Complete(pods, key, job) && Grows(c.pods, pods, key, job) && OwnWorkers(pods, key, job.uid)
  {
    hide WorkerKeys, Wanted, WorkerPods, OwnWorkers, MissingAreNew, Grows, Kept, NextKeys;
    if job.spec.Replica(Worker).Some? {
      var n := job.spec.WorkerReplicas();
      FewKeys(WorkerKeys(c.pods, key), Wanted(key, n), Kept(c.pods, key, n));
      OnlyGrows(c.pods, pods, key, job, job.spec.Replica(Worker).value, env, n);
    } else {
      GrowsByNothing(c.pods, key, job);
    }
  }

  lemma GrowsByNothing(pods: map<Key, Pod>, key: Key, job: GroupJob)
    ensures Grows(pods, pods, key, job)
  {
  }

  lemma OnlyGrows(pods: map<Key, Pod>, pods': map<Key, Pod>, key: Key, job: GroupJob, w: ReplicaSpec, env: Env, n: nat)
    requires WorkerKeys(pods, key) <= WorkerKeys(pods', key) == Wanted(key, n)
    requires MissingAreNew(pods, pods', key, job, w, env, 0, n)
    requires forall k :: k in pods && k in pods' ==> pods'[k] == pods[k]
    requires forall k :: k !in WorkerKeys(pods, key) && k !in WorkerKeys(pods', key) ==> (k in pods <==> k in pods')
    ensures Grows(pods, pods', key, job)
  {
    hide NewWorker, WorkerKeys, WorkerKey, Wanted, MissingAreNew, IsReady;
    SelectedArePods(pods, pods', key);
    NewWorkersPending(pods, pods', key, job, w, env, n);
    forall k | k in pods' && k !in pods
      ensures pods'[k].phase == PodPending && pods'[k].owner == Some(job.uid) && !IsReady(pods'[k])
    {
      WantedKey(key, n, k);
    }
  }

  /** Such a round returns the pods that are stored afterwards. */
  lemma QuietRoundReturns(c: Cluster, pods: map<Key, Pod>, workers: seq<Pod>, key: Key, job: GroupJob, env: Env)
    requires job.spec.WorkerReplicas() >= 0 && OwnWorkers(c.pods, key, job.uid) && Calmed(c.pods, key, job)
    requires PodsRound(c, pods, workers, key, job, env) && job.spec.Replica(Worker).Some?
    ensures var n := job.spec.WorkerReplicas();
            && |workers| == n
            && forall i: nat :: i < n ==> WorkerKey(key, i) in pods && workers[i] == pods[WorkerKey(key, i)]
  {
    QuietRound(c, pods, workers, key, job, env);
    hide NewWorker, WorkerKey, WorkerKeys, Complete, OwnWorkers, MissingAreNew, Calmed, IsReady;
    var n, w := job.spec.WorkerReplicas(), job.spec.Replica(Worker).value;
    NewWorkersPending(c.pods, pods, key, job, w, env, n);
    forall i: nat | i < n ensures WorkerKey(key, i) in pods && workers[i] == pods[WorkerKey(key, i)] {
      assert workers[i] == WorkerPod(c, key, job, w, env, i);
    }
  }

  lemma WantedKey(key: Key, n: nat, k: Key)
    requires k in Wanted(key, n)
    ensures exists i: nat :: i < n && k == WorkerKey(key, i)
  {
    hide WorkerKey;
  }

  lemma SelectedArePods(pods: map<Key, Pod>, pods': map<Key, Pod>, key: Key)
    ensures WorkerKeys(pods, key) <= pods.Keys && WorkerKeys(pods', key) <= pods'.Keys
  {
  }

  lemma NewWorkersPending(pods: map<Key, Pod>, pods': map<Key, Pod>, key: Key, job: GroupJob, w: ReplicaSpec,
                          env: Env, n: nat)
    requires MissingAreNew(pods, pods', key, job, w, env, 0, n)
    ensures forall i: nat :: i < n && WorkerKey(key, i) !in pods ==>
              && WorkerKey(key, i) in pods' && pods'[WorkerKey(key, i)].phase == PodPending
              && pods'[WorkerKey(key, i)].owner == Some(job.uid) && !IsReady(pods'[WorkerKey(key, i)])
              && pods'[WorkerKey(key, i)] == NewWorker(key, job, w, i, env)
  {
    hide WorkerKey;
  }

  /* ---- All steps up to the status update ---- */

  lemma BasicsSettle(c: Cluster, env: Env, key: Key, job: GroupJob)
    requires env.faults == {} && NoForeignObjects(c, key, job.uid)
    ensures var services := c.services[key := NewService(key, job)];
            var s1, s2 := c.(services := services), c.(services := services, configMaps := NextConfigMaps(c, env, key,
                job));
            && EnsureService(c, c, env, key, job) == Ok(s1, ())
            && EnsureConfigMap(c, s1, env, key, job) == Ok(s2, ())
            && EnsureSecret(c, s2, env, key, job) == Ok(s2.(secrets := NextSecrets(c, env, key, job)), ())
  {
    hide EnsureService, EnsureConfigMap, EnsureSecret, NextConfigMaps, NextSecrets, ConfigKey, SecretKey,
         OwnsWorkerNames, NewService;
    ServiceSettles(c, env, key, job);
    ConfigMapSettles(c, c.(services := c.services[key := NewService(key, job)]), env, key, job);
    SecretSettles(c, c.(services := c.services[key := NewService(key, job)], configMaps := NextConfigMaps(c, env, key,
        job)),
                  env, key, job);
  }

  /** The objects of an unsuspended job after a calm round. */
  lemma ObjectsSettle(c: Cluster, env: Env, gang: Option<GangScheduler>, key: Key, job: GroupJob)
    requires Calm(c, env, gang, job) && NoForeignObjects(c, key, job.uid) && OwnWorkers(c.pods, key, job.uid)
    requires Schedulable(gang, job, c.priorityClasses)
    requires AcceptsReplicas(job.spec) && job.spec.WorkerReplicas() >= 0 && !job.spec.Suspended()
    ensures gang.Some? ==> NewPodGroupSpec(gang.value, job, env.replicaOrder).Some?
    ensures var r := EnsureObjects(c, c, env, key, job);
            && r.Ok?
            && r.live == c.(services := c.services[key := NewService(key, job)],
                            configMaps := NextConfigMaps(c, env, key, job),
                            secrets := NextSecrets(c, env, key, job),
                            podGroups := NextPodGroups(c, env, key, job),
                            pods := r.live.pods)
            && PodsRound(c, r.live.pods, r.value, key, job, env)
  {
    hide EnsureService, EnsureConfigMap, EnsureSecret, EnsureGang, GetWorkers, NextConfigMaps, NextSecrets,
         NewService, NewPodGroupSpec, PodsRound, ConfigKey, SecretKey, LauncherKey, OwnWorkers, IsSorted,
         AcceptsReplicas, Schedulable, IsListing;
    BasicsSettle(c, env, key, job);
    var s3 := c.(services := c.services[key := NewService(key, job)], configMaps := NextConfigMaps(c, env, key, job),
                 secrets := NextSecrets(c, env, key, job));
    GangSettles(c, s3, env, key, job);
    hide NextPodGroups;
    WorkersSettle(c, s3.(podGroups := NextPodGroups(c, env, key, job)), env, key, job);
  }

  /** The launcher after a calm round in which it has not finished. */
  ghost function NextLauncher(c: Cluster, env: Env, key: Key, job: GroupJob, mayStart: bool): Option<BatchJob> {
    var found := FindLauncher(c, key);
    if found.None? then (if mayStart then Some(NewLauncher(key, job, env)) else None)
    else if found.value.IsSuspended() == job.spec.Suspended() then found
    else Some(found.value.(suspend := Some(job.spec.Suspended())))
  }

  ghost function WithLauncher(c: Cluster, key: Key, launcher: Option<BatchJob>): map<Key, BatchJob> {
    if launcher.None? then c.jobs else c.jobs[LauncherKey(key) := launcher.value]
  }

  lemma LauncherSettles(c: Cluster, live: Cluster, env: Env, key: Key, job: GroupJob, workers: seq<Pod>)
    requires env.faults == {} && live.jobs == c.jobs
    ensures var found := FindLauncher(c, key);
            var next := NextLauncher(c, env, key, job, LauncherMayStart(job, workers));
            var created := EnsureLauncher(live, env, key, job, found, workers);
            && created.Ok?
            && AlignLauncher(created.live, env, key, job, created.value) ==
                Ok(live.(jobs := WithLauncher(c, key, next)), next)
  {
    hide LauncherMayStart, LauncherKey;
    var found := FindLauncher(c, key);
    if found.Some? {
      assert c.jobs[LauncherKey(key) := found.value] == c.jobs;
    }
  }

  /** A calm round of an unsuspended job whose launcher has not finished, up to the status update. */
  lemma ActiveActSettles(c: Cluster, env: Env, gang: Option<GangScheduler>, key: Key, job: GroupJob)
    requires Calm(c, env, gang, job) && NoForeignObjects(c, key, job.uid) && OwnWorkers(c.pods, key, job.uid)
    requires Schedulable(gang, job, c.priorityClasses)
    requires AcceptsReplicas(job.spec) && job.spec.WorkerReplicas() >= 0 && !job.spec.Suspended()
    requires LauncherKey(key) in c.jobs ==> !JobFinished(c.jobs[LauncherKey(key)])
    ensures gang.Some? ==> NewPodGroupSpec(gang.value, job, env.replicaOrder).Some?
    ensures var r := Act(c, c, env, key, job);
            && r.Ok?
            && PodsRound(c, r.live.pods, r.value.1, key, job, env)
            && r.value.0 == NextLauncher(c, env, key, job, LauncherMayStart(job, r.value.1))
            && r.live == c.(services := c.services[key := NewService(key, job)],
                            configMaps := NextConfigMaps(c, env, key, job),
                            secrets := NextSecrets(c, env, key, job),
                            podGroups := NextPodGroups(c, env, key, job),
                            pods := r.live.pods,
                            jobs := WithLauncher(c, key, r.value.0))
  {
    hide EnsureObjects, EnsureLauncher, AlignLauncher, NextConfigMaps, NextSecrets, NextPodGroups, NewService,
         NewPodGroupSpec, PodsRound, LauncherMayStart, NextLauncher, WithLauncher, LauncherKey, Calm, Schedulable,
         AcceptsReplicas, CleanUp, JobFinished, OwnWorkers, ConfigKey, SecretKey;
    ObjectsSettle(c, env, gang, key, job);
    var ensured := EnsureObjects(c, c, env, key, job);
    assert env.faults == {} by {
      NoFaults(c, env, gang, job);
    }
    LauncherSettles(c, ensured.live, env, key, job, ensured.value);
  }

  lemma NoFaults(c: Cluster, env: Env, gang: Option<GangScheduler>, job: GroupJob)
    requires Calm(c, env, gang, job)
    ensures env.faults == {} && env.gang == gang
  {
  }

  /* ---- The status update ---- */

  function WithStatus(jobs: map<Key, GroupJob>, key: Key, s: JobStatus): map<Key, GroupJob>
    requires key in jobs
  {
    jobs[key := jobs[key].(status := s)]
  }

  lemma WriteSettles(c: Cluster, live: Cluster, env: Env, key: Key, s: JobStatus)
    requires env.faults == {} && key in c.groupJobs && live.groupJobs == c.groupJobs
    ensures WriteStatus(c, live, env, key, s) == Ok(live.(groupJobs := WithStatus(c.groupJobs, key, s)), ())
  {
  }

  /** A status update that skips the write has computed the stored status. */
  lemma FinishSettles(c: Cluster, live: Cluster, env: Env, key: Key, job: GroupJob, launcher: Option<BatchJob>,
                      workers: seq<Pod>)
    requires env.faults == {} && key in c.groupJobs && live.groupJobs == c.groupJobs
    requires job == DefaultedJob(c.groupJobs[key])
    requires StatusInv(job.status) && !IsTerminal(job.status) && SeenOk(job.spec.Suspended(), launcher, workers)
    ensures var suspended := job.spec.Suspended();
            var s := Computed(job.status, suspended, launcher, LauncherPods(c, env.launcherPodOrder, key, launcher),
                workers, env.now);
            Finish(c, live, env, key, job, MarkStarted(MarkCreated(job.status, env.now), suspended, env.now),
                launcher, workers) ==
            SyncResult(live.(groupJobs := WithStatus(c.groupJobs, key, s)), true, Some(s))
  {
    hide StatusInv, IsTerminal, SeenOk, ComputeStatus, WriteStatus, LauncherPods, MarkStarted, MarkCreated,
         CleanedStatus, Default;
    var suspended := job.spec.Suspended();
    var pods := LauncherPods(c, env.launcherPodOrder, key, launcher);
    var s := Computed(job.status, suspended, launcher, pods, workers, env.now);
    NothingLost(job.status, suspended, launcher, pods, workers, env.now);
    WriteSettles(c, live, env, key, s);
    if s == job.status {
      assert WithStatus(c.groupJobs, key, s) == c.groupJobs;
    }
  }

  /** A sync of an unfinished job whose steps succeed stores the status it computes. */
  lemma SyncSettles(c: Cluster, env: Env, key: Key)
    requires env.faults == {} && key in c.groupJobs && ViewOk(c)
    requires var job := DefaultedJob(c.groupJobs[key]);
             !Ignored(key, job) && StatusInv(job.status) && !IsTerminal(job.status) && Act(c, c, env, key, job).Ok?
    ensures var job := DefaultedJob(c.groupJobs[key]);
            var acted := Act(c, c, env, key, job);
            var (launcher, workers) := acted.value;
            var pods := LauncherPods(c, env.launcherPodOrder, key, launcher);
            var s := Computed(job.status, job.spec.Suspended(), launcher, pods, workers, env.now);
            && SeenOk(job.spec.Suspended(), launcher, workers)
            && Sync(c, c, env, key) ==
                SyncResult(acted.live.(groupJobs := WithStatus(c.groupJobs, key, s)), true, Some(s))
  {
    hide Act, StatusInv, IsTerminal, SeenOk, Computed, LauncherPods, MarkStarted, MarkCreated, Default, Ignored,
         Finish, WithStatus;
    var job := DefaultedJob(c.groupJobs[key]);
    var acted := Act(c, c, env, key, job);
    ActFrame(c, c, env, key, job);
    ActSees(c, c, env, key, job);
    MarkCreatedKeepsOutcome(job.status, env.now);
    FinishSettles(c, acted.live, env, key, job, acted.value.0, acted.value.1);
  }
}
