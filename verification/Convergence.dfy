/** Whole-reconcile convergence: when calls succeed, caches catch up between rounds and nothing else
    moves, at most three syncs reach a state that every further sync leaves as it is. */
module Convergence {
  import opened Types
  import opened Names
  import opened Listings
  import opened Conditions
  import opened Defaults
  import opened Validation
  import opened PodGroups
  import opened SortOutcomes
  import opened ConfigMaps
  import opened Status
  import opened Api
  import opened Objects
  import opened Workers
  import opened Reconcile
  import opened StatusSteps
  import opened Runs
  import opened Scaling
  import opened Launching
  import opened Settling

  /** The job at `key` with its defaults, as a sync works on it. */
  function JobAt(c: Cluster, key: Key): GroupJob
    requires key in c.groupJobs
  {
    DefaultedJob(c.groupJobs[key])
  }

  /** What a job needs to settle: a stored status that keeps its invariant, Complete Jobs with completion
      times, and no foreign object under the job's names. */
  ghost predicate Tidy(c: Cluster, key: Key) {
    && key in c.groupJobs && ViewOk(c) && StatusInv(c.groupJobs[key].status)
    && NoForeignObjects(c, key, JobAt(c, key).uid)
  }

  /** What a job that runs needs as well: that the selected pods are its own workers, labelled under either
      value of runLauncherAsWorker, and that its PodGroup can be computed. */
  ghost predicate Scalable(c: Cluster, gang: Option<GangScheduler>, key: Key)
    requires key in c.groupJobs
  {
    OwnWorkers(c.pods, key, JobAt(c, key).uid) && Schedulable(gang, JobAt(c, key), c.priorityClasses)
  }

  /** Has the job's launcher finished? */
  ghost predicate LauncherDone(c: Cluster, key: Key) {
    LauncherKey(key) in c.jobs && JobFinished(c.jobs[LauncherKey(key)])
  }

  /** Is the job one to be run now: neither ignored, finished nor suspended? */
  ghost predicate Active(c: Cluster, key: Key)
    requires key in c.groupJobs
  {
    && !Ignored(key, JobAt(c, key)) && !IsTerminal(c.groupJobs[key].status) && !LauncherDone(c, key)
    && !JobAt(c, key).spec.Suspended()
  }

  /** Does `c'` come from `c` by a sync with a current snapshot and no failing call? */
  ghost predicate CalmRound(c: Cluster, c': Cluster, env: Env, gang: Option<GangScheduler>, key: Key)
    requires key in c.groupJobs
  {
    Calm(c, env, gang, JobAt(c, key)) && c' == Sync(c, c, env, key).live
  }

  /** Does every further sync succeed and leave everything as it is? */
  ghost predicate Steady(c: Cluster, gang: Option<GangScheduler>, key: Key)
    requires key in c.groupJobs
  {
    forall env :: Calm(c, env, gang, JobAt(c, key)) ==> Sync(c, c, env, key).ok && Sync(c, c, env, key).live == c
  }

  lemma {:induction false} ListingExists(keys: set<Key>) returns (order: seq<Key>)
    ensures IsListing(order, keys)
    decreases |keys|
  {
    if keys == {} {
      order := [];
    } else {
      var k :| k in keys;
      var rest := ListingExists(keys - {k});
      order := [k] + rest;
    }
  }

  /** There is a calm environment for every job, so convergence is never about nothing. */
  lemma CalmExists(c: Cluster, gang: Option<GangScheduler>, job: GroupJob) returns (env: Env)
    ensures Calm(c, env, gang, job)
  {
    hide IsListing, IsSorted;
    var listing := ListingExists(c.pods.Keys);
    var order: seq<ReplicaPriority> := [];
    if job.spec.replicaSpecs.Some? {
      order := SortedExists(job.spec.replicaSpecs.value, c.priorityClasses);
    }
    env := Env({}, 0, listing, listing, listing, order, gang, job.uid + 1, "", "");
  }

  /* ---- Jobs that a sync ignores ---- */

  lemma IgnoredIsSteady(c: Cluster, gang: Option<GangScheduler>, key: Key)
    requires key in c.groupJobs && Ignored(key, JobAt(c, key))
    ensures Steady(c, gang, key)
  {
    hide Ignored, Calm, SyncTerminal, SyncActive;
  }

  /* ---- Cleaning up ---- */

  lemma MayDeleteAll(c: Cluster, env: Env, key: Key, job: GroupJob)
    requires env.faults == {} && OwnsWorkerNames(c.pods, key, job.uid)
    ensures forall j: nat :: MayDelete(c.pods, env, key, job, j)
  {
    hide WorkerKey, KeepsPod;
  }

  ghost function CleanedPods(pods: map<Key, Pod>, key: Key, job: GroupJob): map<Key, Pod> {
    pods - Doomed(pods, key, job, 0, job.spec.WorkerReplicas())
  }

  ghost function CleanedPodGroups(podGroups: map<Key, PodGroup>, gang: Option<GangScheduler>, key: Key)
    : map<Key, PodGroup>
  {
    if gang.Some? then podGroups - {key} else podGroups
  }

  lemma CleanUpSettles(c: Cluster, live: Cluster, env: Env, key: Key, job: GroupJob)
    requires env.faults == {} && OwnsWorkerNames(c.pods, key, job.uid)
    requires live.pods == c.pods && live.podGroups == c.podGroups
    requires key in c.podGroups ==> c.podGroups[key].owner == Some(job.uid)
    ensures CleanUp(c, live, env, key, job) ==
            Ok(live.(pods := CleanedPods(c.pods, key, job), podGroups := CleanedPodGroups(c.podGroups, env.gang,
                key)), ())
  {
    hide DeleteWorkers, Doomed, OwnsWorkerNames, MayDelete;
    MayDeleteAll(c, env, key, job);
    DeleteWorkersDeletes(c, live, env, key, job, 0, job.spec.WorkerReplicas());
    assert key !in c.podGroups ==> c.podGroups - {key} == c.podGroups;
  }

  /** Cleaning up again removes nothing more. */
  lemma CleanedTwice(pods: map<Key, Pod>, podGroups: map<Key, PodGroup>, gang: Option<GangScheduler>, key: Key,
                     job: GroupJob)
    ensures var cleaned := CleanedPods(pods, key, job); CleanedPods(cleaned, key, job) == cleaned
    ensures var cleaned := CleanedPodGroups(podGroups, gang, key); CleanedPodGroups(cleaned, gang, key) == cleaned
  {
    hide WorkerKey, KeepsPod;
    var cleaned := CleanedPods(pods, key, job);
    assert Doomed(cleaned, key, job, 0, job.spec.WorkerReplicas()) == {};
  }

  lemma OwnNamesShrink(pods: map<Key, Pod>, gone: set<Key>, key: Key, uid: Uid)
    requires OwnsWorkerNames(pods, key, uid)
    ensures OwnsWorkerNames(pods - gone, key, uid)
  {
    hide WorkerKey;
  }

  lemma OwnWorkersOwnNames(pods: map<Key, Pod>, key: Key, uid: Uid)
    requires OwnWorkers(pods, key, uid)
    ensures OwnsWorkerNames(pods, key, uid)
  {
    forall i: nat | WorkerKey(key, i) in pods ensures pods[WorkerKey(key, i)].owner == Some(uid) {
      OwnIndex(pods, key, uid, i);
    }
  }

  /* ---- Finished jobs ---- */

  ghost predicate SameJob(a: GroupJob, b: GroupJob) {
    a == b.(status := a.status)
  }

  lemma TerminalRound(c: Cluster, env: Env, gang: Option<GangScheduler>, key: Key)
    requires Tidy(c, key) && Calm(c, env, gang, JobAt(c, key))
    requires !Ignored(key, JobAt(c, key)) && IsTerminal(c.groupJobs[key].status)
    ensures var job := JobAt(c, key);
            var r := Sync(c, c, env, key);
            && r.ok
            && r.live == if !CleansUpPods(job.spec) then c
                         else c.(pods := CleanedPods(c.pods, key, job),
                                 podGroups := CleanedPodGroups(c.podGroups, gang, key),
                                 groupJobs := WithStatus(c.groupJobs, key, CleanedStatus(job.status)))
  {
    hide CleanUp, SyncActive, Ignored, IsTerminal, StatusInv, Default, OwnWorkers, CleanedPods, CleanedPodGroups,
         WriteStatus, CleanedStatus, IsListing, IsSorted, Schedulable, ViewOk, ConfigKey, SecretKey, LauncherKey,
         MarkCreated;
    var job := JobAt(c, key);
    MarkCreatedKeepsOutcome(job.status, env.now);
    CleanUpSettles(c, c, env, key, job);
    WriteSettles(c, CleanUp(c, c, env, key, job).live, env, key, CleanedStatus(job.status));
  }

  ghost predicate Cleaned(c: Cluster, gang: Option<GangScheduler>, key: Key)
    requires key in c.groupJobs
  {
    && CleanedPods(c.pods, key, JobAt(c, key)) == c.pods
    && CleanedPodGroups(c.podGroups, gang, key) == c.podGroups
    && CleanedStatus(c.groupJobs[key].status) == c.groupJobs[key].status
  }

  lemma CleanedIsSteady(c: Cluster, gang: Option<GangScheduler>, key: Key)
    requires Tidy(c, key) && IsTerminal(c.groupJobs[key].status) && !Ignored(key, JobAt(c, key))
    requires CleansUpPods(JobAt(c, key).spec) ==> Cleaned(c, gang, key)
    ensures Steady(c, gang, key)
  {
    hide Sync, Calm, Ignored, IsTerminal, CleanedPods, CleanedPodGroups, CleanedStatus, Default, StatusInv,
         NoForeignObjects, Schedulable, ViewOk;
    forall e | Calm(c, e, gang, JobAt(c, key)) ensures Sync(c, c, e, key).ok && Sync(c, c, e, key).live == c {
      TerminalRound(c, e, gang, key);
      assert WithStatus(c.groupJobs, key, c.groupJobs[key].status) == c.groupJobs;
    }
  }

  lemma TerminalCleans(c: Cluster, c': Cluster, env: Env, gang: Option<GangScheduler>, key: Key)
    requires Tidy(c, key) && CalmRound(c, c', env, gang, key)
    requires !Ignored(key, JobAt(c, key)) && IsTerminal(c.groupJobs[key].status)
    ensures Sync(c, c, env, key).ok && Tidy(c', key) && !Ignored(key, JobAt(c', key))
    ensures IsTerminal(c'.groupJobs[key].status) && (CleansUpPods(JobAt(c', key).spec) ==> Cleaned(c', gang, key))
  {
    hide Sync, Calm, Ignored, IsTerminal, CleanedPods, CleanedPodGroups, CleanedStatus, Default, StatusInv,
         NoForeignObjects, Schedulable, ViewOk;
    TerminalRound(c, env, gang, key);
    TerminalStaysTidy(c, c', gang, key);
    var job := JobAt(c, key);
    if CleansUpPods(job.spec) {
      CleanedTwice(c.pods, c.podGroups, gang, key, job);
      SameCleaned(c'.pods, key, JobAt(c', key), job);
      CleanedStatusTwice(job.status);
    }
  }

  /** A finished job settles in one sync. */
  lemma TerminalSettles(c: Cluster, c': Cluster, env: Env, gang: Option<GangScheduler>, key: Key)
    requires Tidy(c, key) && CalmRound(c, c', env, gang, key)
    requires !Ignored(key, JobAt(c, key)) && IsTerminal(c.groupJobs[key].status)
    ensures Sync(c, c, env, key).ok && key in c'.groupJobs && Steady(c', gang, key)
  {
    hide CalmRound, Sync, Ignored, IsTerminal, Cleaned, Default, Steady, StatusInv, NoForeignObjects, ViewOk;
    TerminalCleans(c, c', env, gang, key);
    CleanedIsSteady(c', gang, key);
  }

  lemma CleanedStatusTwice(s: JobStatus)
    ensures CleanedStatus(CleanedStatus(s)) == CleanedStatus(s)
  {
    assert s.replicaStatuses[Worker := NO_REPLICAS][Worker := NO_REPLICAS] == s.replicaStatuses[Worker := NO_REPLICAS];
  }

  lemma SameCleaned(pods: map<Key, Pod>, key: Key, a: GroupJob, b: GroupJob)
    requires SameJob(a, b)
    ensures CleanedPods(pods, key, a) == CleanedPods(pods, key, b)
  {
    assert Doomed(pods, key, a, 0, a.spec.WorkerReplicas()) == Doomed(pods, key, b, 0, b.spec.WorkerReplicas());
  }

  lemma TerminalStaysTidy(c: Cluster, c': Cluster, gang: Option<GangScheduler>, key: Key)
    requires Tidy(c, key) && IsTerminal(c.groupJobs[key].status) && !Ignored(key, JobAt(c, key))
    requires var job := JobAt(c, key);
             c' == if !CleansUpPods(job.spec) then c
                   else c.(pods := CleanedPods(c.pods, key, job),
                           podGroups := CleanedPodGroups(c.podGroups, gang, key),
                           groupJobs := WithStatus(c.groupJobs, key, CleanedStatus(job.status)))
    ensures Tidy(c', key) && IsTerminal(c'.groupJobs[key].status) && !Ignored(key, JobAt(c', key))
    ensures SameJob(JobAt(c', key), JobAt(c, key))
  {
    hide IsFinished, StatusInv, Default, OwnWorkers, Doomed, Schedulable, Accepts, ConfigKey, SecretKey, LauncherKey;
    var job := JobAt(c, key);
    CleanedInv(job.status);
    if CleansUpPods(job.spec) {
      OwnNamesShrink(c.pods, Doomed(c.pods, key, job, 0, job.spec.WorkerReplicas()), key, job.uid);
      IsFinishedCleaned(job.status);
    }
  }

  lemma IsFinishedCleaned(s: JobStatus)
    ensures IsFinished(CleanedStatus(s)) == IsFinished(s)
  {
  }

  /* ---- Staying tidy ---- */

  /** What a calm round of an unfinished job keeps. */
  lemma StaysTidy(c: Cluster, c': Cluster, key: Key, s: JobStatus)
    requires Tidy(c, key) && c'.groupJobs == WithStatus(c.groupJobs, key, s) && StatusInv(s)
    requires ViewOk(c') && NoForeignObjects(c', key, JobAt(c, key).uid)
    ensures Tidy(c', key) && SameJob(JobAt(c', key), JobAt(c, key)) && c'.groupJobs[key].status == s
    ensures Ignored(key, JobAt(c', key)) == Ignored(key, JobAt(c, key))
  {
    hide StatusInv, OwnWorkers, Accepts, Default, ConfigKey, SecretKey, LauncherKey, ViewOk;
    hide OwnsWorkerNames;
  }

  lemma NextLauncherOk(c: Cluster, env: Env, key: Key, job: GroupJob, mayStart: bool)
    requires ViewOk(c) && NoForeignObjects(c, key, job.uid) && env.launcherUid != job.uid
    ensures var launcher := NextLauncher(c, env, key, job, mayStart);
            var jobs := WithLauncher(c, key, launcher);
            && ViewOk(c.(jobs := jobs))
            && (LauncherKey(key) in jobs <==> launcher.Some?)
            && (launcher.Some? ==>
                  && jobs[LauncherKey(key)] == launcher.value
                  && launcher.value.owner == Some(job.uid) && launcher.value.uid != job.uid
                  && launcher.value.IsSuspended() == job.spec.Suspended()
                  && (LauncherKey(key) in c.jobs ==>
                        JobFinished(launcher.value) == JobFinished(c.jobs[LauncherKey(key)])
                        && launcher.value.uid == c.jobs[LauncherKey(key)].uid)
                  && (LauncherKey(key) !in c.jobs ==> !JobFinished(launcher.value)))
  {
    hide OwnWorkers, ConfigKey, SecretKey, LauncherKey;
  }

  /* ---- Jobs whose launcher has finished ---- */

  lemma DoneActSettles(c: Cluster, env: Env, gang: Option<GangScheduler>, key: Key, job: GroupJob)
    requires Calm(c, env, gang, job) && NoForeignObjects(c, key, job.uid)
    requires LauncherKey(key) in c.jobs && JobFinished(c.jobs[LauncherKey(key)])
    ensures var launcher := NextLauncher(c, env, key, job, true);
            var suspended := job.spec.Suspended();
            Act(c, c, env, key, job) ==
            Ok(c.(jobs := WithLauncher(c, key, launcher),
                  pods := if suspended then CleanedPods(c.pods, key, job) else c.pods,
                  podGroups := if suspended then CleanedPodGroups(c.podGroups, gang, key) else c.podGroups),
               (launcher, []))
  {
    hide EnsureObjects, LauncherKey, CleanUp, CleanedPods, CleanedPodGroups, OwnWorkers, JobFinished, ConfigKey,
         SecretKey, IsListing, IsSorted, EnsureLauncher;
    LauncherSettles(c, c, env, key, job, []);
    DoneNeedsNoLauncher(c, env, key, job);
    CleanUpSettles(c, c.(jobs := WithLauncher(c, key, NextLauncher(c, env, key, job, true))), env, key, job);
  }

  lemma DoneNeedsNoLauncher(c: Cluster, env: Env, key: Key, job: GroupJob)
    requires FindLauncher(c, key).Some?
    ensures EnsureLauncher(c, env, key, job, FindLauncher(c, key), []) == Ok(c, FindLauncher(c, key))
    ensures NextLauncher(c, env, key, job, true) == NextLauncher(c, env, key, job, LauncherMayStart(job, []))
  {
    hide LauncherMayStart, LauncherKey;
  }

  /** After a sync that finds the launcher finished, the job is. */
  lemma DoneRound(c: Cluster, c': Cluster, env: Env, gang: Option<GangScheduler>, key: Key)
    requires Tidy(c, key) && CalmRound(c, c', env, gang, key)
    requires !Ignored(key, JobAt(c, key)) && !IsTerminal(c.groupJobs[key].status)
    requires LauncherKey(key) in c.jobs && JobFinished(c.jobs[LauncherKey(key)])
    ensures Sync(c, c, env, key).ok && Tidy(c', key) && IsTerminal(c'.groupJobs[key].status)
    ensures !Ignored(key, JobAt(c', key))
  {
    var job := JobAt(c, key);
    hide Act, Sync, StatusInv, IsTerminal, Default, Ignored, Computed, LauncherPods, NextLauncher, WithLauncher,
         JobFinished, CleanedPods, CleanedPodGroups, SeenOk, Schedulable, IsListing, IsSorted, OwnWorkers, ConfigKey,
         SecretKey;
    DoneActSettles(c, env, gang, key, job);
    NextLauncherOk(c, env, key, job, true);
    SyncSettles(c, env, key);
    var launcher := NextLauncher(c, env, key, job, true);
    var suspended := job.spec.Suspended();
    var pods := LauncherPods(c, env.launcherPodOrder, key, launcher);
    ComputedInv(job.status, suspended, launcher, pods, [], env.now);
    var s := Computed(job.status, suspended, launcher, pods, [], env.now);
    CompletedIsTerminal(s);
    CleanedNoForeign(c, c', gang, key, job);
    StaysTidy(c, c', key, s);
  }

  lemma CleanedNoForeign(c: Cluster, c': Cluster, gang: Option<GangScheduler>, key: Key, job: GroupJob)
    requires NoForeignObjects(c, key, job.uid)
    requires c'.services == c.services && c'.configMaps == c.configMaps && c'.secrets == c.secrets
    requires c'.pods == c.pods || c'.pods == CleanedPods(c.pods, key, job)
    requires c'.podGroups == c.podGroups || c'.podGroups == CleanedPodGroups(c.podGroups, gang, key)
    requires LauncherKey(key) in c'.jobs ==>
               c'.jobs[LauncherKey(key)].owner == Some(job.uid) && c'.jobs[LauncherKey(key)].uid != job.uid
    ensures NoForeignObjects(c', key, job.uid)
  {
    hide OwnWorkers, Doomed, ConfigKey, SecretKey, LauncherKey;
    OwnNamesShrink(c.pods, Doomed(c.pods, key, job, 0, job.spec.WorkerReplicas()), key, job.uid);
  }

  /* ---- Service, ConfigMap and Secret ---- */

  /** Would a calm sync leave the Service, the ConfigMap and the Secret as they are? */
  ghost predicate BasicsSettled(c: Cluster, gang: Option<GangScheduler>, key: Key, job: GroupJob) {
    && key in c.services && c.services[key] == NewService(key, job)
    && SecretHasKeys(c, key)
    && forall env :: Calm(c, env, gang, job) ==> NextConfigMaps(c, env, key, job) == c.configMaps
  }

  lemma BasicsStay(c: Cluster, env: Env, gang: Option<GangScheduler>, key: Key, job: GroupJob)
    requires BasicsSettled(c, gang, key, job) && Calm(c, env, gang, job)
    ensures c.services[key := NewService(key, job)] == c.services
    ensures NextConfigMaps(c, env, key, job) == c.configMaps && NextSecrets(c, env, key, job) == c.secrets
  {
    hide Calm, NextConfigMaps, NewService;
  }

  /** Once the set of running workers stays the same over a round, the basics are settled. */
  lemma BasicsSettledAfter(c: Cluster, c': Cluster, env: Env, gang: Option<GangScheduler>, key: Key, job: GroupJob,
                           job': GroupJob)
    requires Calm(c, env, gang, job) && SameJob(job', job) && RunningIn(c'.pods, key) == RunningIn(c.pods, key)
    requires c'.services == c.services[key := NewService(key, job)]
    requires c'.configMaps == NextConfigMaps(c, env, key, job) && c'.secrets == NextSecrets(c, env, key, job)
    ensures BasicsSettled(c', gang, key, job')
  {
    hide ConfigData, RunningPods, RunningIn, ConfigKey, SecretKey, IsSorted;
    NewSecretHasKeys(env, Some(job.uid));
    forall e | Calm(c', e, gang, job') ensures NextConfigMaps(c', e, key, job') == c'.configMaps {
      ConfigDataSame(c, c', env.runningOrder, e.runningOrder, key, job.spec);
      var next := NextConfigMaps(c', e, key, job');
      assert next[ConfigKey(key)] == c'.configMaps[ConfigKey(key)];
      assert next == c'.configMaps[ConfigKey(key) := c'.configMaps[ConfigKey(key)]];
    }
  }

  /* ---- The launcher's pods ---- */

  ghost function LauncherRunning(c: Cluster, key: Key, launcher: Option<BatchJob>): nat {
    if launcher.None? then 0 else |OwnedIn(c.pods, key.namespace, launcher.value.uid, PodRunning)|
  }

  lemma LauncherPodsRunning(c: Cluster, order: seq<Key>, key: Key, launcher: Option<BatchJob>)
    requires IsListing(order, c.pods.Keys)
    ensures CountPhase(LauncherPods(c, order, key, launcher), PodRunning) == LauncherRunning(c, key, launcher)
  {
    hide OwnedPods;
    if launcher.Some? {
      var all := OwnedIn(c.pods, key.namespace, launcher.value.uid, PodRunning);
      CountOwned(c.pods, order, key.namespace, launcher.value.uid, PodRunning);
      assert Among(order, all) == all;
    }
  }

  /* ---- Suspended jobs ---- */

  lemma SuspendedActSettles(c: Cluster, env: Env, gang: Option<GangScheduler>, key: Key, job: GroupJob)
    requires Calm(c, env, gang, job) && NoForeignObjects(c, key, job.uid) && job.spec.Suspended()
    requires LauncherKey(key) in c.jobs ==> !JobFinished(c.jobs[LauncherKey(key)])
    ensures var launcher := NextLauncher(c, env, key, job, true);
            Act(c, c, env, key, job) ==
            Ok(c.(services := c.services[key := NewService(key, job)],
                  configMaps := NextConfigMaps(c, env, key, job),
                  secrets := NextSecrets(c, env, key, job),
                  jobs := WithLauncher(c, key, launcher),
                  pods := CleanedPods(c.pods, key, job),
                  podGroups := CleanedPodGroups(c.podGroups, gang, key)),
               (launcher, []))
  {
    hide EnsureService, EnsureConfigMap, EnsureSecret, NextConfigMaps, NextSecrets, LauncherKey, CleanUp, CleanedPods,
         CleanedPodGroups, OwnWorkers, JobFinished, ConfigKey, SecretKey, IsListing, IsSorted, EnsureLauncher,
         AlignLauncher, NextLauncher, WithLauncher, NewService;
    BasicsSettle(c, env, key, job);
    var s3 := c.(services := c.services[key := NewService(key, job)], configMaps := NextConfigMaps(c, env, key, job),
                 secrets := NextSecrets(c, env, key, job));
    assert LauncherMayStart(job, []);
    LauncherSettles(c, s3, env, key, job, []);
    CleanUpSettles(c, s3.(jobs := WithLauncher(c, key, NextLauncher(c, env, key, job, true))), env, key, job);
  }

  /** Does everything about a suspended, unfinished job look as a calm sync would leave it? */
  ghost predicate SuspendedSettled(c: Cluster, gang: Option<GangScheduler>, key: Key)
    requires key in c.groupJobs
  {
    var job, launcher := JobAt(c, key), FindLauncher(c, key);
    && BasicsSettled(c, gang, key, job)
    && CleanedPods(c.pods, key, job) == c.pods && CleanedPodGroups(c.podGroups, gang, key) == c.podGroups
    && launcher.Some? && !JobFinished(launcher.value) && launcher.value.IsSuspended()
    && StatusSettled(job.status, true, launcher, LauncherRunning(c, key, launcher), [])
  }

  ghost predicate StatusSettled(s: JobStatus, suspended: bool, launcher: Option<BatchJob>, launcherRunning: nat,
                                workers: seq<Pod>) {
    && s.conditions != [] && s.completionTime.None? && IsStatus(s, Suspended, True) == suspended
    && ShowsWorkers(s, suspended, launcher, launcherRunning, workers)
  }

  lemma StatusSettledUnfinished(s: JobStatus, suspended: bool, launcher: Option<BatchJob>, launcherRunning: nat,
                                workers: seq<Pod>)
    requires StatusSettled(s, suspended, launcher, launcherRunning, workers)
    ensures !IsTerminal(s)
  {
  }

  lemma StatusStays(c: Cluster, env: Env, key: Key, job: GroupJob, launcher: Option<BatchJob>, workers: seq<Pod>)
    requires IsListing(env.launcherPodOrder, c.pods.Keys) && StatusInv(job.status)
    requires StatusSettled(job.status, job.spec.Suspended(), launcher, LauncherRunning(c, key, launcher), workers)
    requires job.spec.Suspended() ==> workers == []
    requires launcher.Some? ==> !JobFinished(launcher.value)
    ensures var pods := LauncherPods(c, env.launcherPodOrder, key, launcher);
            Computed(job.status, job.spec.Suspended(), launcher, pods, workers, env.now) == job.status
  {
    hide StatusInv, ShowsWorkers, Computed, LauncherPods, LauncherRunning, JobFinished;
    LauncherPodsRunning(c, env.launcherPodOrder, key, launcher);
    ComputedAgain(job.status, job.spec.Suspended(), launcher, LauncherPods(c, env.launcherPodOrder, key, launcher),
        workers, env.now);
  }

  lemma StatusSettles(c: Cluster, env: Env, key: Key, job: GroupJob, launcher: Option<BatchJob>, workers: seq<Pod>)
    requires IsListing(env.launcherPodOrder, c.pods.Keys) && StatusInv(job.status) && !IsTerminal(job.status)
    requires SeenOk(job.spec.Suspended(), launcher, workers) && (launcher.Some? ==> !JobFinished(launcher.value))
    ensures var pods := LauncherPods(c, env.launcherPodOrder, key, launcher);
            var s := Computed(job.status, job.spec.Suspended(), launcher, pods, workers, env.now);
            StatusInv(s) && StatusSettled(s, job.spec.Suspended(), launcher, LauncherRunning(c, key, launcher), workers)
  {
    hide IsTerminal, ShowsWorkers, Computed, LauncherPods, LauncherRunning, JobFinished, SeenOk;
    var pods := LauncherPods(c, env.launcherPodOrder, key, launcher);
    LauncherPodsRunning(c, env.launcherPodOrder, key, launcher);
    ComputedInv(job.status, job.spec.Suspended(), launcher, pods, workers, env.now);
    ComputedShows(job.status, job.spec.Suspended(), launcher, pods, workers, env.now);
  }

  lemma SuspendedIsSteady(c: Cluster, gang: Option<GangScheduler>, key: Key)
    requires Tidy(c, key) && JobAt(c, key).spec.Suspended() && !Ignored(key, JobAt(c, key))
    requires SuspendedSettled(c, gang, key)
    ensures Steady(c, gang, key)
  {
    hide Sync, Act, Ignored, IsTerminal, Default, StatusInv, Schedulable, OwnWorkers, BasicsSettled, LauncherRunning,
         StatusSettled, LauncherPods, Computed, NextConfigMaps, NextSecrets, NewService, CleanedPods,
         CleanedPodGroups, JobFinished, ConfigKey, SecretKey, LauncherKey, SeenOk, ViewOk, IsListing, IsSorted;
    var job, launcher := JobAt(c, key), FindLauncher(c, key);
    forall e | Calm(c, e, gang, job) ensures Sync(c, c, e, key).ok && Sync(c, c, e, key).live == c {
      SuspendedActSettles(c, e, gang, key, job);
      BasicsStay(c, e, gang, key, job);
      assert c.jobs[LauncherKey(key) := launcher.value] == c.jobs;
      StatusSettledUnfinished(job.status, true, launcher, LauncherRunning(c, key, launcher), []);
      SyncSettles(c, e, key);
      StatusStays(c, e, key, job, launcher, []);
      assert WithStatus(c.groupJobs, key, job.status) == c.groupJobs;
    }
  }

  /** Do the maps differ only in pods that `uid` controls? */
  ghost predicate SameButOwned(pods: map<Key, Pod>, pods': map<Key, Pod>, uid: Uid) {
    && (forall k :: k in pods && pods[k].owner != Some(uid) ==> k in pods' && pods'[k] == pods[k])
    && (forall k :: k in pods' && pods'[k].owner != Some(uid) ==> k in pods && pods'[k] == pods[k])
  }

  lemma LauncherRunningSame(c: Cluster, c': Cluster, key: Key, launcher: Option<BatchJob>, uid: Uid)
    requires SameButOwned(c.pods, c'.pods, uid) && (launcher.Some? ==> launcher.value.uid != uid)
    ensures LauncherRunning(c', key, launcher) == LauncherRunning(c, key, launcher)
  {
    if launcher.Some? {
      assert OwnedIn(c'.pods, key.namespace, launcher.value.uid, PodRunning) ==
             OwnedIn(c.pods, key.namespace, launcher.value.uid, PodRunning);
    }
  }

  lemma CleanedButOwned(pods: map<Key, Pod>, key: Key, job: GroupJob)
    requires OwnsWorkerNames(pods, key, job.uid)
    ensures SameButOwned(pods, CleanedPods(pods, key, job), job.uid)
  {
    hide WorkerKey, KeepsPod;
  }

  lemma SuspendedNoForeign(c: Cluster, c': Cluster, env: Env, gang: Option<GangScheduler>, key: Key, job: GroupJob,
                           launcher: Option<BatchJob>)
    requires NoForeignObjects(c, key, job.uid)
    requires c'.services == c.services[key := NewService(key, job)]
    requires c'.configMaps == NextConfigMaps(c, env, key, job) && c'.secrets == NextSecrets(c, env, key, job)
    requires c'.pods == CleanedPods(c.pods, key, job) && c'.podGroups == CleanedPodGroups(c.podGroups, gang, key)
    requires c'.jobs == WithLauncher(c, key, launcher)
    requires launcher.Some? && launcher.value.owner == Some(job.uid) && launcher.value.uid != job.uid
    ensures NoForeignObjects(c', key, job.uid)
  {
    hide OwnWorkers, Doomed, ConfigKey, SecretKey, LauncherKey, ConfigData, RunningPods;
    OwnNamesShrink(c.pods, Doomed(c.pods, key, job, 0, job.spec.WorkerReplicas()), key, job.uid);
  }

  lemma SuspendedSettles(c: Cluster, c': Cluster, env: Env, gang: Option<GangScheduler>, key: Key, job: GroupJob,
                         launcher: Option<BatchJob>)
    requires Calm(c, env, gang, job) && OwnsWorkerNames(c.pods, key, job.uid)
    requires key in c'.groupJobs && SameJob(JobAt(c', key), job)
    requires c'.services == c.services[key := NewService(key, job)]
    requires c'.configMaps == NextConfigMaps(c, env, key, job) && c'.secrets == NextSecrets(c, env, key, job)
    requires c'.pods == CleanedPods(c.pods, key, job) && c'.podGroups == CleanedPodGroups(c.podGroups, gang, key)
    requires c'.jobs == WithLauncher(c, key, launcher)
    requires launcher.Some? && launcher.value.uid != job.uid && launcher.value.IsSuspended()
        && !JobFinished(launcher.value)
    requires StatusSettled(c'.groupJobs[key].status, true, launcher, LauncherRunning(c, key, launcher), [])
    requires RunningIn(c'.pods, key) == RunningIn(c.pods, key)
    ensures SuspendedSettled(c', gang, key)
  {
    hide Calm, OwnWorkers, Default, BasicsSettled, LauncherRunning, StatusSettled, RunningIn, NextConfigMaps,
         NextSecrets, NewService, JobFinished, LauncherKey, CleanedPods, CleanedPodGroups, SameButOwned;
    var job' := JobAt(c', key);
    BasicsSettledAfter(c, c', env, gang, key, job, job');
    CleanedTwice(c.pods, c.podGroups, gang, key, job);
    SameCleaned(c'.pods, key, job', job);
    CleanedButOwned(c.pods, key, job);
    LauncherRunningSame(c, c', key, launcher, job.uid);
  }

  /** A calm round of a suspended, unfinished job leaves it tidy, suspended and unfinished, with the
      workers cleaned up; all is settled if that did not take a running worker away. */
  lemma SuspendedRound(c: Cluster, c': Cluster, env: Env, gang: Option<GangScheduler>, key: Key)
    requires Tidy(c, key) && CalmRound(c, c', env, gang, key) && JobAt(c, key).spec.Suspended()
    requires !Ignored(key, JobAt(c, key)) && !IsTerminal(c.groupJobs[key].status)
    requires LauncherKey(key) in c.jobs ==> !JobFinished(c.jobs[LauncherKey(key)])
    ensures Sync(c, c, env, key).ok && Tidy(c', key) && !Ignored(key, JobAt(c', key))
    ensures !IsTerminal(c'.groupJobs[key].status) && SameJob(JobAt(c', key), JobAt(c, key))
    ensures LauncherKey(key) in c'.jobs && !JobFinished(c'.jobs[LauncherKey(key)])
    ensures c'.pods == CleanedPods(c.pods, key, JobAt(c, key))
    ensures RunningIn(c'.pods, key) == RunningIn(c.pods, key) ==> SuspendedSettled(c', gang, key)
  {
    var job := JobAt(c, key);
    hide Act, Sync, StatusInv, IsTerminal, Default, Ignored, Computed, LauncherPods, NextLauncher, WithLauncher,
         JobFinished, CleanedPods, CleanedPodGroups, SeenOk, Schedulable, IsListing, IsSorted, OwnWorkers, ConfigKey,
         SecretKey, LauncherKey, NextConfigMaps, NextSecrets, NewService, SuspendedSettled, StatusSettled, ViewOk,
         NoForeignObjects, LauncherRunning, RunningIn;
    var launcher := NextLauncher(c, env, key, job, true);
    SuspendedActSettles(c, env, gang, key, job);
    NextLauncherOk(c, env, key, job, true);
    SyncSettles(c, env, key);
    StatusSettles(c, env, key, job, launcher, []);
    var s := c'.groupJobs[key].status;
    StatusSettledUnfinished(s, true, launcher, LauncherRunning(c, key, launcher), []);
    SuspendedNoForeign(c, c', env, gang, key, job, launcher);
    StaysTidy(c, c', key, s);
    if RunningIn(c'.pods, key) == RunningIn(c.pods, key) {
      SuspendedSettles(c, c', env, gang, key, job, launcher);
    }
  }

  /* ---- Unsuspended jobs ---- */

  /** An environment for where it does not matter. */
  const SOME_ENV := Env({}, 0, [], [], [], [], None, 0, "", "")

  /** The stored pods of workers 0 to n - 1. */
  ghost function Stored(c: Cluster, key: Key, job: GroupJob): seq<Pod>
    requires job.spec.WorkerReplicas() >= 0
  {
    match job.spec.Replica(Worker)
    case None => []
    case Some(w) => WorkerPods(c, key, job, w, SOME_ENV, 0, job.spec.WorkerReplicas())
  }

  ghost predicate GangSettled(c: Cluster, gang: Option<GangScheduler>, key: Key, job: GroupJob) {
    gang.Some? && job.spec.replicaSpecs.Some? ==>
      forall order :: IsSorted(order, job.spec.replicaSpecs.value, c.priorityClasses) ==>
        NewPodGroupSpec(gang.value, job, order).Some? && key in c.podGroups
        && c.podGroups[key] == PodGroup(Some(job.uid), NewPodGroupSpec(gang.value, job, order).value)
  }

  /** Does everything about an unsuspended, unfinished job look as a calm sync would leave it? */
  ghost predicate ActiveSettled(c: Cluster, gang: Option<GangScheduler>, key: Key)
    requires key in c.groupJobs
  {
    var job, launcher := JobAt(c, key), FindLauncher(c, key);
    && BasicsSettled(c, gang, key, job) && GangSettled(c, gang, key, job)
    && job.spec.WorkerReplicas() >= 0 && Complete(c.pods, key, job)
    && (launcher.Some? ==> !JobFinished(launcher.value) && !launcher.value.IsSuspended())
    && (launcher.None? ==> !LauncherMayStart(job, Stored(c, key, job)))
    && StatusSettled(job.status, false, launcher, LauncherRunning(c, key, launcher), Stored(c, key, job))
  }

  /** A round on a complete set of workers changes no pod and returns the stored ones. */
  lemma CompleteRound(c: Cluster, pods: map<Key, Pod>, workers: seq<Pod>, key: Key, job: GroupJob, env: Env)
    requires job.spec.WorkerReplicas() >= 0 && OwnWorkers(c.pods, key, job.uid) && Complete(c.pods, key, job)
    requires PodsRound(c, pods, workers, key, job, env)
    ensures pods == c.pods && workers == Stored(c, key, job)
  {
    if job.spec.Replica(Worker).Some? {
      hide WorkerKeys, OwnWorkers, MissingAreNew, WorkerKey, NewWorker, Wanted, NextKeys, Kept, IsReady;
      QuietRound(c, pods, workers, key, job, env);
      var n, w := job.spec.WorkerReplicas(), job.spec.Replica(Worker).value;
      SelectedArePods(c.pods, pods, key);
      assert pods.Keys == c.pods.Keys;
      assert pods == c.pods;
      WantedSize(key, n);
      var stored := Stored(c, key, job);
      forall i: nat | i < n ensures workers[i] == stored[i] {
        assert WorkerKey(key, i) in Wanted(key, n);
        assert workers[i] == WorkerPod(c, key, job, w, env, i);
        assert stored[i] == WorkerPod(c, key, job, w, SOME_ENV, i);
      }
      assert workers == stored;
      hide WorkerPod, WorkerPods, PodsRound;
    }
  }

  lemma GangStays(c: Cluster, env: Env, gang: Option<GangScheduler>, key: Key, job: GroupJob)
    requires Calm(c, env, gang, job) && GangSettled(c, gang, key, job)
    requires gang.Some? ==> job.spec.replicaSpecs.Some?
    requires env.gang.Some? ==> NewPodGroupSpec(env.gang.value, job, env.replicaOrder).Some?
    ensures NextPodGroups(c, env, key, job) == c.podGroups
  {
    hide NewPodGroupSpec, IsSorted, IsListing;
    assert key in c.podGroups ==> c.podGroups[key := c.podGroups[key]] == c.podGroups;
  }

  lemma HasSpecs(gang: Option<GangScheduler>, job: GroupJob, classes: map<string, int32>)
    requires Schedulable(gang, job, classes)
    ensures gang.Some? ==> job.spec.replicaSpecs.Some?
  {
    hide OneSpec;
  }

  lemma ActiveIsSteady(c: Cluster, gang: Option<GangScheduler>, key: Key)
    requires Tidy(c, key) && Scalable(c, gang, key) && !JobAt(c, key).spec.Suspended() && !Ignored(key, JobAt(c, key))
    requires ActiveSettled(c, gang, key)
    ensures Steady(c, gang, key)
  {
    hide Sync, Act, Ignored, IsTerminal, Default, StatusInv, Schedulable, OwnWorkers, BasicsSettled, GangSettled,
         LauncherRunning, StatusSettled, LauncherPods, Computed, NextConfigMaps, NextSecrets, NextPodGroups,
         NewService, JobFinished, ConfigKey, SecretKey, LauncherKey, SeenOk, ViewOk, IsListing, IsSorted, Complete,
         PodsRound, Stored, LauncherMayStart, AcceptsReplicas;
    var job, launcher := JobAt(c, key), FindLauncher(c, key);
    AcceptedSpec(key, job);
    HasSpecs(gang, job, c.priorityClasses);
    forall e | Calm(c, e, gang, job) ensures Sync(c, c, e, key).ok && Sync(c, c, e, key).live == c {
      ActiveActSettles(c, e, gang, key, job);
      var acted := Act(c, c, e, key, job);
      CompleteRound(c, acted.live.pods, acted.value.1, key, job, e);
      BasicsStay(c, e, gang, key, job);
      GangStays(c, e, gang, key, job);
      assert launcher.Some? ==> c.jobs[LauncherKey(key) := launcher.value] == c.jobs;
      StatusSettledUnfinished(job.status, false, launcher, LauncherRunning(c, key, launcher), acted.value.1);
      SyncSettles(c, e, key);
      StatusStays(c, e, key, job, launcher, acted.value.1);
      assert WithStatus(c.groupJobs, key, job.status) == c.groupJobs;
    }
  }

  lemma AcceptedSpec(key: Key, job: GroupJob)
    requires !Ignored(key, job)
    ensures AcceptsReplicas(job.spec) && job.spec.WorkerReplicas() >= 0
  {
  }

  lemma SamePodGroup(gang: GangScheduler, a: GroupJob, b: GroupJob, order: seq<ReplicaPriority>)
    requires SameJob(a, b)
    ensures NewPodGroupSpec(gang, a, order) == NewPodGroupSpec(gang, b, order)
  {
    hide PGMinResources, MinAvailable, PriorityClassName;
  }

  lemma SameSchedulable(gang: Option<GangScheduler>, a: GroupJob, b: GroupJob, classes: map<string, int32>)
    requires SameJob(a, b) && Schedulable(gang, b, classes)
    ensures Schedulable(gang, a, classes)
  {
    hide NewPodGroupSpec, IsSorted;
    if gang.Some? {
      forall order: seq<ReplicaPriority>
        ensures NewPodGroupSpec(gang.value, a, order) == NewPodGroupSpec(gang.value, b, order)
      {
        SamePodGroup(gang.value, a, b, order);
      }
      forall x: seq<ReplicaPriority>, y: seq<ReplicaPriority>
        | IsSorted(x, a.spec.replicaSpecs.value, classes) && IsSorted(y, a.spec.replicaSpecs.value, classes)
        ensures SameSpec(gang.value, a, x, y)
      {
        assert SameSpec(gang.value, b, x, y);
      }
    }
  }

  lemma GangSettledAfter(c: Cluster, c': Cluster, env: Env, gang: Option<GangScheduler>, key: Key, job: GroupJob,
                         job': GroupJob)
    requires Calm(c, env, gang, job) && SameJob(job', job)
    requires Schedulable(gang, job, c.priorityClasses) && AcceptsReplicas(job.spec)
    requires gang.Some? ==> NewPodGroupSpec(gang.value, job, env.replicaOrder).Some?
    requires c'.podGroups == NextPodGroups(c, env, key, job) && c'.priorityClasses == c.priorityClasses
    ensures GangSettled(c', gang, key, job')
  {
    hide NewPodGroupSpec, IsSorted, AcceptsReplicas, IsListing;
    if gang.Some? && job.spec.replicaSpecs.Some? {
      forall order | IsSorted(order, job.spec.replicaSpecs.value, c.priorityClasses)
        ensures NewPodGroupSpec(gang.value, job', order).Some?
        ensures NewPodGroupSpec(gang.value, job', order) == NewPodGroupSpec(gang.value, job, env.replicaOrder)
      {
        assert SameSpec(gang.value, job, order, env.replicaOrder);
        SamePodGroup(gang.value, job', job, order);
      }
    }
  }

  lemma GrowsKeepsRunning(pods: map<Key, Pod>, pods': map<Key, Pod>, key: Key, job: GroupJob)
    requires Grows(pods, pods', key, job)
    ensures RunningIn(pods', key) == RunningIn(pods, key) && SameButOwned(pods, pods', job.uid)
  {
    hide WorkerSelects;
  }

  lemma SameComplete(pods: map<Key, Pod>, key: Key, a: GroupJob, b: GroupJob)
    requires SameJob(a, b)
    ensures Complete(pods, key, a) == Complete(pods, key, b)
  {
    hide WorkerKeys, Wanted;
  }

  lemma SameStart(a: GroupJob, b: GroupJob, workers: seq<Pod>)
    requires SameJob(a, b)
    ensures LauncherMayStart(a, workers) == LauncherMayStart(b, workers)
  {
  }

  /** The workers a quiet round returns are the ones stored after it. */
  lemma ReturnsStored(c: Cluster, c': Cluster, workers: seq<Pod>, key: Key, job: GroupJob, job': GroupJob, env: Env)
    requires job.spec.WorkerReplicas() >= 0 && OwnWorkers(c.pods, key, job.uid) && Calmed(c.pods, key, job)
        && SameJob(job', job)
    requires PodsRound(c, c'.pods, workers, key, job, env)
    ensures workers == Stored(c', key, job')
  {
    if job.spec.Replica(Worker).Some? {
      QuietRoundReturns(c, c'.pods, workers, key, job, env);
      hide WorkerKeys, OwnWorkers, MissingAreNew, WorkerKey, NewWorker, Wanted, PodsRound, Calmed;
      var n, w := job.spec.WorkerReplicas(), job.spec.Replica(Worker).value;
      var stored := Stored(c', key, job');
      forall i: nat | i < n ensures workers[i] == stored[i] {
        assert stored[i] == WorkerPod(c', key, job', w, SOME_ENV, i);
      }
    }
  }

  lemma ActiveSettles(c: Cluster, c': Cluster, env: Env, gang: Option<GangScheduler>, key: Key, job: GroupJob,
                      launcher: Option<BatchJob>, workers: seq<Pod>)
    requires Calm(c, env, gang, job) && NoForeignObjects(c, key, job.uid) && OwnWorkers(c.pods, key, job.uid)
    requires Schedulable(gang, job, c.priorityClasses)
    requires AcceptsReplicas(job.spec) && job.spec.WorkerReplicas() >= 0
    requires key in c'.groupJobs && SameJob(JobAt(c', key), job) && Calmed(c.pods, key, job)
    requires gang.Some? ==> NewPodGroupSpec(gang.value, job, env.replicaOrder).Some?
    requires env.gang == gang && c'.services == c.services[key := NewService(key, job)]
    requires c'.configMaps == NextConfigMaps(c, env, key, job) && c'.secrets == NextSecrets(c, env, key, job)
    requires PodsRound(c, c'.pods, workers, key, job, env) && c'.priorityClasses == c.priorityClasses
    requires c'.podGroups == NextPodGroups(c, env, key, job)
    requires FindLauncher(c', key) == launcher && (launcher.None? ==> !LauncherMayStart(job, workers))
    requires launcher.Some? ==>
               launcher.value.uid != job.uid && !launcher.value.IsSuspended() && !JobFinished(launcher.value)
    requires StatusSettled(c'.groupJobs[key].status, false, launcher, LauncherRunning(c, key, launcher), workers)
    ensures ActiveSettled(c', gang, key)
  {
    hide Calm, Default, BasicsSettled, LauncherRunning, StatusSettled, RunningIn, NextConfigMaps, NextSecrets,
         NextPodGroups, NewService, JobFinished, LauncherKey, SameButOwned, PodsRound, Complete, Calmed, Grows,
         Stored, LauncherMayStart, GangSettled, NewPodGroupSpec, Schedulable, AcceptsReplicas, OwnWorkers, ConfigKey,
         SecretKey;
    var job' := JobAt(c', key);
    QuietRound(c, c'.pods, workers, key, job, env);
    GrowsKeepsRunning(c.pods, c'.pods, key, job);
    BasicsSettledAfter(c, c', env, gang, key, job, job');
    GangSettledAfter(c, c', env, gang, key, job, job');
    LauncherRunningSame(c, c', key, launcher, job.uid);
    ReturnsStored(c, c', workers, key, job, job', env);
    SameComplete(c'.pods, key, job', job);
    SameStart(job', job, workers);
  }

  lemma ActiveNoForeign(c: Cluster, c': Cluster, env: Env, key: Key, job: GroupJob, launcher: Option<BatchJob>)
    requires NoForeignObjects(c, key, job.uid) && OwnsWorkerNames(c'.pods, key, job.uid)
    requires env.gang.Some? ==> NewPodGroupSpec(env.gang.value, job, env.replicaOrder).Some?
    requires c'.services == c.services[key := NewService(key, job)]
    requires c'.configMaps == NextConfigMaps(c, env, key, job) && c'.secrets == NextSecrets(c, env, key, job)
    requires c'.podGroups == NextPodGroups(c, env, key, job)
    requires LauncherKey(key) in c'.jobs <==> launcher.Some?
    requires launcher.Some? ==> c'.jobs[LauncherKey(key)] == launcher.value
    requires launcher.Some? ==> launcher.value.owner == Some(job.uid) && launcher.value.uid != job.uid
    ensures NoForeignObjects(c', key, job.uid)
  {
    hide OwnsWorkerNames, ConfigKey, SecretKey, LauncherKey, ConfigData, RunningPods, NewPodGroupSpec;
  }

  lemma RoundOwnsWorkers(c: Cluster, pods: map<Key, Pod>, workers: seq<Pod>, key: Key, job: GroupJob, env: Env)
    requires OwnWorkers(c.pods, key, job.uid) && job.spec.WorkerReplicas() >= 0
        && PodsRound(c, pods, workers, key, job, env)
    ensures OwnWorkers(pods, key, job.uid)
  {
    hide OwnWorkers;
  }

  /** What the round makes of the worker keys, and of the last worker's label. */
  ghost predicate KeysRound(pods: map<Key, Pod>, pods': map<Key, Pod>, key: Key, job: GroupJob) {
    if job.spec.Replica(Worker).None? then pods' == pods
    else
      var n := job.spec.WorkerReplicas();
      && n >= 0
      && WorkerKeys(pods', key) == NextKeys(WorkerKeys(pods, key), Wanted(key, n), Kept(pods, key, n))
      && (Wanted(key, n) <= WorkerKeys(pods', key) ==>
            (LastIsShifted(pods, key, job, n) <==> n > 0 && HasSurplusLabel(pods', WorkerKey(key, n - 1), n)))
  }

  lemma RoundMovesKeys(c: Cluster, pods: map<Key, Pod>, workers: seq<Pod>, key: Key, job: GroupJob, env: Env)
    requires job.spec.WorkerReplicas() >= 0 && PodsRound(c, pods, workers, key, job, env)
    ensures KeysRound(c.pods, pods, key, job)
  {
    hide OwnWorkers, WorkerKeys, NextKeys, Wanted, Kept, MissingAreNew, WorkerPods, LastIsShifted, HasSurplusLabel;
    var n := job.spec.WorkerReplicas();
    if job.spec.Replica(Worker).Some? && Wanted(key, n) <= WorkerKeys(pods, key) {
      LastAfterRound(c, c.(pods := pods), key, job, env, n);
    }
  }

  /** The state after a calm round of an active job, in closed form. */
  ghost predicate ActiveStep(c: Cluster, c': Cluster, env: Env, gang: Option<GangScheduler>, key: Key,
                             launcher: Option<BatchJob>, workers: seq<Pod>, s: JobStatus)
    requires key in c.groupJobs
  {
    var job := JobAt(c, key);
    && job.spec.WorkerReplicas() >= 0 && env.gang == gang
    && (gang.Some? ==> NewPodGroupSpec(gang.value, job, env.replicaOrder).Some?)
    && c'.services == c.services[key := NewService(key, job)]
    && c'.configMaps == NextConfigMaps(c, env, key, job) && c'.secrets == NextSecrets(c, env, key, job)
    && c'.podGroups == NextPodGroups(c, env, key, job) && c'.jobs == WithLauncher(c, key, launcher)
    && c'.priorityClasses == c.priorityClasses && PodsRound(c, c'.pods, workers, key, job, env)
    && c'.groupJobs == WithStatus(c.groupJobs, key, s)
    && launcher == NextLauncher(c, env, key, job, LauncherMayStart(job, workers))
    && StatusInv(s) && StatusSettled(s, false, launcher, LauncherRunning(c, key, launcher), workers)
  }

  lemma ActiveSteps(c: Cluster, c': Cluster, env: Env, gang: Option<GangScheduler>, key: Key)
    returns (launcher: Option<BatchJob>, workers: seq<Pod>, s: JobStatus)
    requires Tidy(c, key) && Scalable(c, gang, key) && Active(c, key) && CalmRound(c, c', env, gang, key)
    ensures Sync(c, c, env, key).ok && ActiveStep(c, c', env, gang, key, launcher, workers, s)
  {
    hide Act, Sync, StatusInv, IsTerminal, Default, Ignored, Computed, LauncherPods, NextLauncher, WithLauncher,
         JobFinished, SeenOk, Schedulable, IsListing, IsSorted, OwnWorkers, ConfigKey, SecretKey, LauncherKey,
         NextConfigMaps, NextSecrets, NextPodGroups, NewPodGroupSpec, NewService, StatusSettled, ViewOk,
         LauncherRunning, PodsRound, AcceptsReplicas, LauncherMayStart, OwnsWorkerNames, WithStatus;
    var job := JobAt(c, key);
    AcceptedSpec(key, job);
    ActiveActSettles(c, env, gang, key, job);
    launcher, workers := Act(c, c, env, key, job).value.0, Act(c, c, env, key, job).value.1;
    NextLauncherOk(c, env, key, job, LauncherMayStart(job, workers));
    SyncSettles(c, env, key);
    StatusSettles(c, env, key, job, launcher, workers);
    s := Computed(job.status, false, launcher, LauncherPods(c, env.launcherPodOrder, key, launcher), workers, env.now);
  }

  lemma ActiveStepKeeps(c: Cluster, c': Cluster, env: Env, gang: Option<GangScheduler>, key: Key,
                        launcher: Option<BatchJob>, workers: seq<Pod>, s: JobStatus)
    requires Tidy(c, key) && Scalable(c, gang, key) && Active(c, key) && Calm(c, env, gang, JobAt(c, key))
    requires ActiveStep(c, c', env, gang, key, launcher, workers, s)
    ensures Tidy(c', key) && SameJob(JobAt(c', key), JobAt(c, key)) && Scalable(c', gang, key) && Active(c', key)
  {
    hide StatusInv, IsTerminal, Default, Ignored, NextLauncher, WithLauncher, JobFinished, Schedulable, OwnWorkers,
         ConfigKey, SecretKey, LauncherKey, NextConfigMaps, NextSecrets, NextPodGroups, NewPodGroupSpec, NewService,
         StatusSettled, ViewOk, LauncherRunning, PodsRound, LauncherMayStart, OwnsWorkerNames, IsListing, IsSorted,
         NoForeignObjects, WithStatus;
    var job := JobAt(c, key);
    NextLauncherOk(c, env, key, job, LauncherMayStart(job, workers));
    StatusSettledUnfinished(s, false, launcher, LauncherRunning(c, key, launcher), workers);
    RoundOwnsWorkers(c, c'.pods, workers, key, job, env);
    OwnWorkersOwnNames(c'.pods, key, job.uid);
    ActiveNoForeign(c, c', env, key, job, launcher);
    ViewOkSame(c.(jobs := c'.jobs), c');
    StaysTidy(c, c', key, s);
    SameSchedulable(gang, JobAt(c', key), job, c.priorityClasses);
  }

  lemma ActiveStepSettles(c: Cluster, c': Cluster, env: Env, gang: Option<GangScheduler>, key: Key,
                          launcher: Option<BatchJob>, workers: seq<Pod>, s: JobStatus)
    requires Tidy(c, key) && Scalable(c, gang, key) && Active(c, key) && Calm(c, env, gang, JobAt(c, key))
    requires ActiveStep(c, c', env, gang, key, launcher, workers, s) && Calmed(c.pods, key, JobAt(c, key))
    requires key in c'.groupJobs && SameJob(JobAt(c', key), JobAt(c, key))
    ensures ActiveSettled(c', gang, key)
  {
    hide StatusInv, IsTerminal, Default, Ignored, NextLauncher, JobFinished, Schedulable, OwnWorkers, ConfigKey,
         SecretKey, LauncherKey, NextConfigMaps, NextSecrets, NextPodGroups, NewPodGroupSpec, NewService, StatusSettled,
         ViewOk, LauncherRunning, PodsRound, LauncherMayStart, OwnsWorkerNames, IsListing, IsSorted, AcceptsReplicas,
         Calmed, ActiveSettled;
    var job := JobAt(c, key);
    AcceptedSpec(key, job);
    NextLauncherOk(c, env, key, job, LauncherMayStart(job, workers));
    NoLauncherYet(c, env, key, job, workers);
    ActiveSettles(c, c', env, gang, key, job, launcher, workers);
  }

  /** A calm round of an active job leaves it tidy and active, and moves its worker keys as
      getOrCreateWorker does; all is settled if there was nothing to scale down, and no pod changes if the
      workers were complete. */
  lemma ActiveRound(c: Cluster, c': Cluster, env: Env, gang: Option<GangScheduler>, key: Key)
    requires Tidy(c, key) && Scalable(c, gang, key) && Active(c, key) && CalmRound(c, c', env, gang, key)
    ensures Sync(c, c, env, key).ok && Tidy(c', key) && Scalable(c', gang, key) && Active(c', key)
    ensures SameJob(JobAt(c', key), JobAt(c, key)) && KeysRound(c.pods, c'.pods, key, JobAt(c, key))
    ensures Calmed(c.pods, key, JobAt(c, key)) ==> ActiveSettled(c', gang, key)
    ensures Complete(c.pods, key, JobAt(c, key)) ==> c'.pods == c.pods
  {
    hide Sync, StatusInv, IsTerminal, Default, Ignored, NextLauncher, WithLauncher, JobFinished, Schedulable,
         OwnWorkers, ConfigKey, SecretKey, LauncherKey, NextConfigMaps, NextSecrets, NextPodGroups, NewPodGroupSpec,
         NewService, StatusSettled, ViewOk, LauncherRunning, PodsRound, LauncherMayStart, OwnsWorkerNames, IsListing,
         IsSorted, NoForeignObjects, ActiveSettled, KeysRound, Calmed, Complete, WithStatus, Calm;
    var job := JobAt(c, key);
    var launcher, workers, s := ActiveSteps(c, c', env, gang, key);
    ActiveStepKeeps(c, c', env, gang, key, launcher, workers, s);
    RoundMovesKeys(c, c'.pods, workers, key, job, env);
    if Complete(c.pods, key, job) {
      CompleteRound(c, c'.pods, workers, key, job, env);
    }
    if Calmed(c.pods, key, job) {
      ActiveStepSettles(c, c', env, gang, key, launcher, workers, s);
    }
  }

  lemma ViewOkSame(a: Cluster, b: Cluster)
    requires a.jobs == b.jobs
    ensures ViewOk(a) == ViewOk(b)
  {
  }

  lemma NoLauncherYet(c: Cluster, env: Env, key: Key, job: GroupJob, workers: seq<Pod>)
    ensures NextLauncher(c, env, key, job, LauncherMayStart(job, workers)).None? ==> !LauncherMayStart(job, workers)
  {
    hide LauncherMayStart;
  }

  /* ---- Convergence ---- */

  lemma SteadyRound(c: Cluster, c': Cluster, env: Env, gang: Option<GangScheduler>, key: Key)
    requires key in c.groupJobs && Steady(c, gang, key) && CalmRound(c, c', env, gang, key)
    ensures c' == c && Sync(c, c, env, key).ok
  {
    hide Sync, Calm, Default;
  }

  /** A suspended job settles in two syncs: the first takes workers away, the second tells the ConfigMap. */
  lemma SuspendedConverges(c0: Cluster, c1: Cluster, c2: Cluster, e0: Env, e1: Env, gang: Option<GangScheduler>,
                           key: Key)
    requires Tidy(c0, key) && CalmRound(c0, c1, e0, gang, key)
    requires JobAt(c0, key).spec.Suspended() && !Ignored(key, JobAt(c0, key)) && !IsTerminal(c0.groupJobs[key].status)
    requires !LauncherDone(c0, key)
    requires key in c1.groupJobs && CalmRound(c1, c2, e1, gang, key)
    ensures Sync(c0, c0, e0, key).ok && Sync(c1, c1, e1, key).ok && key in c2.groupJobs && Steady(c2, gang, key)
  {
    hide Tidy, CalmRound, Sync, Ignored, IsTerminal, Default, JobFinished, LauncherKey, CleanedPods, SuspendedSettled,
         RunningIn, Steady;
    SuspendedRound(c0, c1, e0, gang, key);
    SuspendedRound(c1, c2, e1, gang, key);
    TidyHasJob(c0, key);
    CleanedTwice(c0.pods, c0.podGroups, gang, key, JobAt(c0, key));
    SameCleaned(c1.pods, key, JobAt(c1, key), JobAt(c0, key));
    assert c2.pods == c1.pods;
    TidyHasJob(c2, key);
    SuspendedIsSteady(c2, gang, key);
  }

  lemma TidyHasJob(c: Cluster, key: Key)
    requires Tidy(c, key)
    ensures key in c.groupJobs
  {
  }

  lemma SameKeysRound(pods: map<Key, Pod>, pods': map<Key, Pod>, key: Key, a: GroupJob, b: GroupJob)
    requires SameJob(a, b)
    ensures KeysRound(pods, pods', key, a) == KeysRound(pods, pods', key, b)
    ensures Calmed(pods, key, a) == Calmed(pods, key, b) && Complete(pods, key, a) == Complete(pods, key, b)
  {
    hide WorkerKeys, NextKeys, Wanted, Kept, HasSurplusLabel;
  }

  /** After two rounds there is nothing left to scale down, and only the last worker may be missing: it is
      exactly if there was a surplus pod but not too many pods, and that worker's label is shifted. */
  lemma CalmedAfterTwo(p0: map<Key, Pod>, p1: map<Key, Pod>, p2: map<Key, Pod>, key: Key, job: GroupJob)
    requires KeysRound(p0, p1, key, job) && KeysRound(p1, p2, key, job) && job.spec.WorkerReplicas() >= 0
    requires OwnWorkers(p0, key, job.uid) && OwnWorkers(p1, key, job.uid)
    ensures Calmed(p2, key, job)
    ensures !Complete(p2, key, job) <==>
            && job.spec.Replica(Worker).Some? && |WorkerKeys(p0, key)| <= job.spec.WorkerReplicas()
            && !Calmed(p0, key, job) && LastIsShifted(p0, key, job, job.spec.WorkerReplicas())
  {
    hide WorkerKeys, NextKeys, Wanted, Kept, OwnWorkers, LastIsShifted, HasSurplusLabel;
    if job.spec.Replica(Worker).Some? {
      var n := job.spec.WorkerReplicas();
      var wanted := Wanted(key, n);
      WantedSize(key, n);
      KeptBetween(p0, key, job.uid, n);
      KeptBetween(p1, key, job.uid, n);
      KeysConverge(WorkerKeys(p0, key), WorkerKeys(p1, key), WorkerKeys(p2, key), wanted, Kept(p0, key, n),
          Kept(p1, key, n));
      if |WorkerKeys(p0, key)| <= n && !(WorkerKeys(p0, key) <= wanted) {
        KeptAllIff(p1, key, job.uid, n);
      }
    }
  }

  lemma ActiveOwns(c: Cluster, gang: Option<GangScheduler>, key: Key)
    requires key in c.groupJobs && Scalable(c, gang, key) && Active(c, key)
    ensures OwnWorkers(c.pods, key, JobAt(c, key).uid) && JobAt(c, key).spec.WorkerReplicas() >= 0
  {
    hide Ignored, OwnWorkers, Schedulable;
    AcceptedSpec(key, JobAt(c, key));
  }

  /** An active job settles in three syncs: after two its workers are among the wanted ones, and the third
      completes them and settles everything that depends on them. The third still changes pods exactly if
      there was a surplus pod but not too many pods, and the last wanted worker carries, or gets, a label
      shifted by running the launcher as a worker: the second sync then deletes that worker, and the
      third creates it again. */
  lemma ActiveConverges(c0: Cluster, c1: Cluster, c2: Cluster, c3: Cluster, e0: Env, e1: Env, e2: Env,
                        gang: Option<GangScheduler>, key: Key)
    requires Tidy(c0, key) && Scalable(c0, gang, key) && Active(c0, key) && CalmRound(c0, c1, e0, gang, key)
    requires key in c1.groupJobs && CalmRound(c1, c2, e1, gang, key)
    requires key in c2.groupJobs && CalmRound(c2, c3, e2, gang, key)
    ensures Sync(c0, c0, e0, key).ok && Sync(c1, c1, e1, key).ok && Sync(c2, c2, e2, key).ok
    ensures key in c3.groupJobs && Steady(c3, gang, key)
    ensures Calmed(c0.pods, key, JobAt(c0, key)) ==> Steady(c1, gang, key)
    ensures var job := JobAt(c0, key);
            var n := job.spec.WorkerReplicas();
            c3.pods != c2.pods <==>
              && job.spec.Replica(Worker).Some? && |WorkerKeys(c0.pods, key)| <= n && !Calmed(c0.pods, key, job)
              && n >= 0 && LastIsShifted(c0.pods, key, job, n)
  {
    hide CalmRound, Sync, Ignored, IsTerminal, Default, LauncherDone, ActiveSettled, Steady, KeysRound, Calmed,
         Complete, Scalable, OwnWorkers, WorkerKeys, LastIsShifted, StatusInv, ViewOk, NoForeignObjects;
    var job := JobAt(c0, key);
    ActiveRound(c0, c1, e0, gang, key);
    ActiveRound(c1, c2, e1, gang, key);
    ActiveRound(c2, c3, e2, gang, key);
    ActiveOwns(c0, gang, key);
    ActiveOwns(c1, gang, key);
    SameKeysRound(c1.pods, c2.pods, key, JobAt(c1, key), job);
    SameKeysRound(c2.pods, c3.pods, key, JobAt(c2, key), job);
    CalmedAfterTwo(c0.pods, c1.pods, c2.pods, key, job);
    ThirdRound(c2.pods, c3.pods, key, job);
    ActiveIsSteady(c3, gang, key);
    if Calmed(c0.pods, key, job) {
      ActiveIsSteady(c1, gang, key);
    }
  }

  /** The third round completes the workers, so it changes pods if they were not complete. */
  lemma ThirdRound(pods: map<Key, Pod>, pods': map<Key, Pod>, key: Key, job: GroupJob)
    requires KeysRound(pods, pods', key, job) && Calmed(pods, key, job)
    ensures Complete(pods', key, job) && (!Complete(pods, key, job) ==> pods' != pods)
  {
    hide WorkerKeys, NextKeys, Wanted, Kept, LastIsShifted, HasSurplusLabel;
    if job.spec.Replica(Worker).Some? {
      var n := job.spec.WorkerReplicas();
      FewKeys(WorkerKeys(pods, key), Wanted(key, n), Kept(pods, key, n));
    }
  }

  /** From any tidy state, three calm syncs succeed and reach a state that every further one leaves
      unchanged, whatever the job is: at once if it is ignored, after one sync if it has finished,
      after two if its launcher has or if it is suspended. */
  lemma Converges(c0: Cluster, c1: Cluster, c2: Cluster, c3: Cluster, e0: Env, e1: Env, e2: Env,
                  gang: Option<GangScheduler>, key: Key)
    requires Tidy(c0, key) && (Active(c0, key) ==> Scalable(c0, gang, key)) && CalmRound(c0, c1, e0, gang, key)
    requires key in c1.groupJobs && CalmRound(c1, c2, e1, gang, key)
    requires key in c2.groupJobs && CalmRound(c2, c3, e2, gang, key)
    ensures Sync(c0, c0, e0, key).ok && Sync(c1, c1, e1, key).ok && Sync(c2, c2, e2, key).ok
    ensures key in c3.groupJobs && Steady(c3, gang, key)
    ensures Ignored(key, JobAt(c0, key)) ==> Steady(c0, gang, key)
    ensures IsTerminal(c0.groupJobs[key].status) ==> Steady(c1, gang, key)
    ensures LauncherDone(c0, key) || JobAt(c0, key).spec.Suspended() ==> Steady(c2, gang, key)
  {
    hide Tidy, CalmRound, Sync, Ignored, IsTerminal, Default, LauncherDone, Steady, Scalable;
    TidyHasJob(c0, key);
    var job := JobAt(c0, key);
    if Ignored(key, job) {
      IgnoredIsSteady(c0, gang, key);
      SteadyRound(c0, c1, e0, gang, key);
      SteadyRound(c1, c2, e1, gang, key);
      SteadyRound(c2, c3, e2, gang, key);
    } else if IsTerminal(c0.groupJobs[key].status) {
      TerminalSettles(c0, c1, e0, gang, key);
      SteadyRound(c1, c2, e1, gang, key);
      SteadyRound(c2, c3, e2, gang, key);
    } else if LauncherDone(c0, key) {
      DoneConverges(c0, c1, c2, e0, e1, gang, key);
      SteadyRound(c2, c3, e2, gang, key);
    } else if job.spec.Suspended() {
      SuspendedConverges(c0, c1, c2, e0, e1, gang, key);
      SteadyRound(c2, c3, e2, gang, key);
    } else {
      ActiveConverges(c0, c1, c2, c3, e0, e1, e2, gang, key);
    }
  }

  lemma DoneConverges(c0: Cluster, c1: Cluster, c2: Cluster, e0: Env, e1: Env, gang: Option<GangScheduler>, key: Key)
    requires Tidy(c0, key) && CalmRound(c0, c1, e0, gang, key)
    requires !Ignored(key, JobAt(c0, key)) && !IsTerminal(c0.groupJobs[key].status) && LauncherDone(c0, key)
    requires key in c1.groupJobs && CalmRound(c1, c2, e1, gang, key)
    ensures Sync(c0, c0, e0, key).ok && Sync(c1, c1, e1, key).ok && key in c2.groupJobs && Steady(c2, gang, key)
  {
    hide Tidy, CalmRound, Sync, Ignored, IsTerminal, Default, JobFinished, Steady;
    DoneRound(c0, c1, e0, gang, key);
    TerminalSettles(c1, c2, e1, gang, key);
  }

  /* ---- Every run of calm rounds ---- */

  ghost predicate RoundsAt(run: seq<Cluster>, i: nat, gang: Option<GangScheduler>, key: Key)
    requires i + 1 < |run|
  {
    exists env :: RoundBy(run, i, env, gang, key)
  }

  ghost predicate RoundBy(run: seq<Cluster>, i: nat, env: Env, gang: Option<GangScheduler>, key: Key)
    requires i + 1 < |run|
  {
    key in run[i].groupJobs && CalmRound(run[i], run[i + 1], env, gang, key)
  }

  /** A run of nothing but calm rounds of one job. */
  ghost predicate IsCalmRun(run: seq<Cluster>, gang: Option<GangScheduler>, key: Key) {
    && run != [] && key in run[0].groupJobs
    && forall i: nat :: i + 1 < |run| ==> RoundsAt(run, i, gang, key)
  }

  /** However long the run, from a tidy state nothing changes after the third sync. */
  lemma {:induction false} SettledAfterThree(run: seq<Cluster>, i: nat, gang: Option<GangScheduler>, key: Key)
    requires IsCalmRun(run, gang, key) && Tidy(run[0], key) && (Active(run[0], key) ==> Scalable(run[0], gang, key))
    requires 3 <= i < |run|
    ensures run[i] == run[3]
  {
    hide Tidy, CalmRound, Default, Active, Scalable;
    if i > 3 {
      SettledAfterThree(run, i - 1, gang, key);
      SteadyAtThree(run, gang, key);
      assert RoundsAt(run, i - 1, gang, key);
      var env :| RoundBy(run, i - 1, env, gang, key);
      SteadyRound(run[i - 1], run[i], env, gang, key);
    }
  }

  lemma SteadyAtThree(run: seq<Cluster>, gang: Option<GangScheduler>, key: Key)
    requires IsCalmRun(run, gang, key) && Tidy(run[0], key) && (Active(run[0], key) ==> Scalable(run[0], gang, key))
    requires 3 < |run|
    ensures key in run[3].groupJobs && Steady(run[3], gang, key)
  {
    hide Tidy, CalmRound, Default, Steady, Active, Scalable;
    assert RoundsAt(run, 0, gang, key) && RoundsAt(run, 1, gang, key) && RoundsAt(run, 2, gang, key);
    var e0 :| RoundBy(run, 0, e0, gang, key);
    var e1 :| RoundBy(run, 1, e1, gang, key);
    var e2 :| RoundBy(run, 2, e2, gang, key);
    Converges(run[0], run[1], run[2], run[3], e0, e1, e2, gang, key);
  }
}
