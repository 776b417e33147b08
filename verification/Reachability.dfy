/** What the operator's own pods and objects look like in every reachable state: as long as nobody else
    plants anything under a job's names or labels, convergence holds from wherever a run has got to. */
module Reachability {
  import opened Types
  import opened Names
  import opened Api
  import opened Objects
  import opened Conditions
  import opened Defaults
  import opened Validation
  import opened Listings
  import opened Status
  import opened Workers
  import opened Reconcile
  import opened StatusSteps
  import opened PodGroups
  import opened SortOutcomes
  import opened Launching
  import opened Runs
  import opened Scaling
  import opened Settling
  import opened Convergence
  import opened Isolation

  /** Is every object under the job's names its own, every pod its selector matches one of its workers, and
      every Complete Job complete with its time? */
  ghost predicate AllOwn(c: Cluster, key: Key, uid: Uid) {
    && ViewOk(c) && (key in c.groupJobs ==> c.groupJobs[key].uid == uid)
    && NoForeignObjects(c, key, uid) && OwnWorkers(c.pods, key, uid)
  }

  /** Pods under the job's workers' names, or matched by its selector, are old ones with their owner and
      labels, or the job's workers. */
  ghost predicate PodsNotPlanted(pods: map<Key, Pod>, pods': map<Key, Pod>, key: Key, uid: Uid) {
    forall k :: k in pods' && (k in WorkerKeys(pods', key) || IsWorkerKey(k, key)) ==>
      || IsWorkerAt(pods', key, uid, k)
      || (k in pods && pods'[k].owner == pods[k].owner && pods'[k].labels == pods[k].labels)
  }

  /** The rest of the world may do anything to the cluster, jobs' specs included, but write statuses, give the
      job another uid, or plant objects under its names or pods under its labels. */
  ghost predicate WorldPlantsNothing(c: Cluster, c': Cluster, key: Key, uid: Uid) {
    && EnvironmentStep(c, c') && ViewOk(c') && (key in c'.groupJobs ==> c'.groupJobs[key].uid == uid)
    && NotPlanted(c.services, c'.services, ServiceOwner(), key, uid)
    && NotPlanted(c.configMaps, c'.configMaps, ConfigMapOwner(), ConfigKey(key), uid)
    && NotPlanted(c.secrets, c'.secrets, SecretOwner(), SecretKey(key), uid)
    && NotPlanted(c.podGroups, c'.podGroups, PodGroupOwner(), key, uid)
    && NotPlanted(c.jobs, c'.jobs, LauncherOwner(), LauncherKey(key), uid)
    && (LauncherKey(key) in c'.jobs ==> c'.jobs[LauncherKey(key)].uid != uid)
    && PodsNotPlanted(c.pods, c'.pods, key, uid)
  }

  /** A sync of any job, from any snapshot that shows the job, if at all, under its uid. */
  ghost predicate SyncedFrom(view: Cluster, env: Env, other: Key, c: Cluster, c': Cluster, key: Key, uid: Uid) {
    && ViewOk(view) && (key in view.groupJobs ==> view.groupJobs[key].uid == uid) && env.launcherUid != uid
    && SyncsTo(view, c, env, other, c')
  }

  ghost predicate SomeSync(c: Cluster, c': Cluster, key: Key, uid: Uid) {
    exists view, env, other :: SyncedFrom(view, env, other, c, c', key, uid)
  }

  ghost predicate JobStepAt(run: seq<Cluster>, i: nat, key: Key, uid: Uid)
    requires i + 1 < |run|
  {
    WorldPlantsNothing(run[i], run[i + 1], key, uid) || SomeSync(run[i], run[i + 1], key, uid)
  }

  /** A run of the operator and the rest of the world in which one job keeps its names and labels to itself. */
  ghost predicate IsJobRun(run: seq<Cluster>, key: Key, uid: Uid) {
    && run != [] && AllOwn(run[0], key, uid)
    && (forall k :: k in run[0].groupJobs ==> run[0].groupJobs[k].status == EMPTY_STATUS)
    && forall i: nat :: i + 1 < |run| ==> JobStepAt(run, i, key, uid)
  }

  /* ---- Pods ---- */

  lemma SelectedIn(pods: map<Key, Pod>, pods': map<Key, Pod>, key: Key, k: Key)
    requires k in pods && k in pods' && pods'[k].labels == pods[k].labels
    ensures k in WorkerKeys(pods', key) <==> k in WorkerKeys(pods, key)
  {
  }

  lemma StaysWorker(pods: map<Key, Pod>, pods': map<Key, Pod>, key: Key, uid: Uid, k: Key)
    requires k in pods && k in pods' && pods'[k].labels == pods[k].labels && pods'[k].owner == pods[k].owner
    requires IsWorkerAt(pods, key, uid, k)
    ensures IsWorkerAt(pods', key, uid, k)
  {
    hide WorkerKey, WorkerSelects;
  }

  lemma WorkerIsSelected(pods: map<Key, Pod>, key: Key, uid: Uid, k: Key)
    requires k in pods && IsWorkerAt(pods, key, uid, k)
    ensures k in WorkerKeys(pods, key)
  {
  }

  lemma NotPlantedStaysOwn(pods: map<Key, Pod>, pods': map<Key, Pod>, key: Key, uid: Uid)
    requires OwnWorkers(pods, key, uid) && PodsNotPlanted(pods, pods', key, uid)
    ensures OwnWorkers(pods', key, uid)
  {
    hide WorkerKeys, WorkerKey, IsWorkerAt;
    SelectedHere(pods', key);
    forall k | k in WorkerKeys(pods', key) ensures IsWorkerAt(pods', key, uid, k) {
      if !IsWorkerAt(pods', key, uid, k) {
        SelectedIn(pods, pods', key, k);
        StaysWorker(pods, pods', key, uid, k);
      }
    }
    forall i: nat | WorkerKey(key, i) in pods' ensures WorkerKey(key, i) in WorkerKeys(pods', key) {
      var k := WorkerKey(key, i);
      assert IsWorkerKey(k, key);
      if IsWorkerAt(pods', key, uid, k) {
        WorkerIsSelected(pods', key, uid, k);
      } else {
        SelectedIn(pods, pods', key, k);
      }
    }
  }

  lemma SelectedHere(pods: map<Key, Pod>, key: Key)
    ensures WorkerKeys(pods, key) <= pods.Keys
  {
  }

  /** A sync plants no pods under another job's names or labels. */
  lemma TouchedPlantsNoPods(pods: map<Key, Pod>, pods': map<Key, Pod>, actor: Actor, key: Key, uid: Uid)
    requires PodsTouched(pods, pods', actor) && (actor.key == key ==> actor.uid == uid)
    ensures PodsNotPlanted(pods, pods', key, uid)
  {
    hide IsWorkerKey, IsWorkerAt;
    forall k | k in pods' && (k in WorkerKeys(pods', key) || IsWorkerKey(k, key))
      ensures IsWorkerAt(pods', key, uid, k) || (k in pods && pods'[k] == pods[k])
    {
      if IsWorkerAt(pods', actor.key, actor.uid, k) && actor.key != key {
        NewWorkerFacts(pods', actor.key, actor.uid, k);
        WorkerNamespace(k, actor.key);
        if IsWorkerKey(k, key) {
          WorkerKeyOfOne(k, actor.key, key);
        }
        assert false;
      }
    }
  }

  /* ---- Everything else ---- */

  lemma TouchedPlantsNothing<V>(m: map<Key, V>, m': map<Key, V>, owner: V -> Option<Uid>, place: Key -> Key,
                                actor: Actor, key: Key, uid: Uid)
    requires Touches(m, m', owner, place(actor.key), actor.uid) && (actor.key == key ==> actor.uid == uid)
    requires forall a, b :: place(a) == place(b) ==> a == b
    ensures NotPlanted(m, m', owner, place(key), uid)
  {
    if actor.key != key {
      SameElsewhere(m, m', place(actor.key), place(key));
    }
  }

  lemma TouchedLaunchers(jobs: map<Key, BatchJob>, jobs': map<Key, BatchJob>, actor: Actor)
    requires SameExcept(jobs, jobs', LauncherKey(actor.key)) && LauncherTouched(jobs, jobs', actor)
    ensures forall k :: k in jobs' ==>
              || (k in jobs && jobs'[k] == jobs[k].(suspend := jobs'[k].suspend))
              || (jobs'[k].uid == actor.launcherUid && jobs'[k].conditions == [])
  {
    hide LauncherKey;
    forall k | k in jobs' && k != LauncherKey(actor.key) ensures k in jobs && jobs'[k] == jobs[k] {
      SameElsewhere(jobs, jobs', LauncherKey(actor.key), k);
    }
  }

  lemma LaunchersStayOk(c: Cluster, c': Cluster, actor: Actor)
    requires Touched(c, c', actor) && ViewOk(c)
    ensures ViewOk(c')
  {
    hide LauncherKey, ConfigKey, SecretKey, PodsTouched, LauncherTouched, NotPlanted;
    TouchedLaunchers(c.jobs, c'.jobs, actor);
  }

  lemma LauncherUidDiffers(c: Cluster, c': Cluster, actor: Actor, key: Key, uid: Uid)
    requires Touched(c, c', actor) && NoForeignObjects(c, key, uid) && actor.launcherUid != uid
    ensures LauncherKey(key) in c'.jobs ==> c'.jobs[LauncherKey(key)].uid != uid
  {
    hide LauncherKey, ConfigKey, SecretKey, PodsTouched, LauncherTouched, NotPlanted, OwnsWorkerNames;
    TouchedLaunchers(c.jobs, c'.jobs, actor);
  }

  lemma TouchedJobs(c: Cluster, c': Cluster, actor: Actor, key: Key)
    requires Touched(c, c', actor)
    ensures key in c'.groupJobs ==> key in c.groupJobs && c'.groupJobs[key].uid == c.groupJobs[key].uid
  {
    hide LauncherKey, ConfigKey, SecretKey, PodsTouched, LauncherTouched, NotPlanted;
    if actor.key != key {
      SameElsewhere(c.groupJobs, c'.groupJobs, actor.key, key);
    }
  }

  lemma SyncPlantsNothing(c: Cluster, c': Cluster, actor: Actor, key: Key, uid: Uid)
    requires Touched(c, c', actor) && (actor.key == key ==> actor.uid == uid)
    ensures NotPlanted(c.services, c'.services, ServiceOwner(), key, uid)
    ensures NotPlanted(c.configMaps, c'.configMaps, ConfigMapOwner(), ConfigKey(key), uid)
    ensures NotPlanted(c.secrets, c'.secrets, SecretOwner(), SecretKey(key), uid)
    ensures NotPlanted(c.podGroups, c'.podGroups, PodGroupOwner(), key, uid)
    ensures NotPlanted(c.jobs, c'.jobs, LauncherOwner(), LauncherKey(key), uid)
  {
    hide ConfigKey, SecretKey, LauncherKey, PodsTouched, LauncherTouched, NotPlanted;
    InjectivePlaces();
    TouchedPlantsNothing(c.services, c'.services, ServiceOwner(), Same(), actor, key, uid);
    TouchedPlantsNothing(c.configMaps, c'.configMaps, ConfigMapOwner(), Config(), actor, key, uid);
    TouchedPlantsNothing(c.secrets, c'.secrets, SecretOwner(), Ssh(), actor, key, uid);
    TouchedPlantsNothing(c.podGroups, c'.podGroups, PodGroupOwner(), Same(), actor, key, uid);
    TouchedPlantsNothing(c.jobs, c'.jobs, LauncherOwner(), LauncherAt(), actor, key, uid);
  }

  lemma StaysOwn(c: Cluster, c': Cluster, key: Key, uid: Uid)
    requires AllOwn(c, key, uid) && ViewOk(c') && (key in c'.groupJobs ==> c'.groupJobs[key].uid == uid)
    requires NotPlanted(c.services, c'.services, ServiceOwner(), key, uid)
    requires NotPlanted(c.configMaps, c'.configMaps, ConfigMapOwner(), ConfigKey(key), uid)
    requires NotPlanted(c.secrets, c'.secrets, SecretOwner(), SecretKey(key), uid)
    requires NotPlanted(c.podGroups, c'.podGroups, PodGroupOwner(), key, uid)
    requires NotPlanted(c.jobs, c'.jobs, LauncherOwner(), LauncherKey(key), uid)
    requires LauncherKey(key) in c'.jobs ==> c'.jobs[LauncherKey(key)].uid != uid
    requires PodsNotPlanted(c.pods, c'.pods, key, uid)
    ensures AllOwn(c', key, uid)
  {
    hide ConfigKey, SecretKey, LauncherKey, OwnWorkers, OwnsWorkerNames, PodsNotPlanted, ViewOk;
    NotPlantedStaysOwn(c.pods, c'.pods, key, uid);
    OwnWorkersOwnNames(c'.pods, key, uid);
  }

  /** A sync of any job, from any snapshot and with any failing calls, keeps a job's objects its own. */
  lemma SyncKeepsOwn(view: Cluster, env: Env, other: Key, c: Cluster, c': Cluster, key: Key, uid: Uid)
    requires AllOwn(c, key, uid) && SyncedFrom(view, env, other, c, c', key, uid)
    ensures AllOwn(c', key, uid)
  {
    hide ConfigKey, SecretKey, LauncherKey, OwnWorkers, NoForeignObjects, PodsNotPlanted, ViewOk, Touched, WorkerKeys,
         NotPlanted;
    if other in view.groupJobs {
      var actor := Actor(other, view.groupJobs[other].uid, env.launcherUid, WorkerKeys(view.pods, other));
      SyncTouches(view, c, env, other);
      hide Sync;
      TouchedPods(c, c', actor);
      TouchedPlantsNoPods(c.pods, c'.pods, actor, key, uid);
      SyncPlantsNothing(c, c', actor, key, uid);
      LauncherUidDiffers(c, c', actor, key, uid);
      LaunchersStayOk(c, c', actor);
      TouchedJobs(c, c', actor, key);
      StaysOwn(c, c', key, uid);
    }
  }

  lemma TouchedPods(c: Cluster, c': Cluster, actor: Actor)
    requires Touched(c, c', actor)
    ensures PodsTouched(c.pods, c'.pods, actor)
  {
  }

  lemma WorldKeepsOwn(c: Cluster, c': Cluster, key: Key, uid: Uid)
    requires AllOwn(c, key, uid) && WorldPlantsNothing(c, c', key, uid)
    ensures AllOwn(c', key, uid)
  {
    hide ConfigKey, SecretKey, LauncherKey, AllOwn, PodsNotPlanted, ViewOk, NotPlanted, EnvironmentStep;
    StaysOwn(c, c', key, uid);
  }

  /* ---- Every run ---- */

  /** In every state of every such run, what is under the job's names and labels is its own, whatever was
      done to its spec, however stale the snapshots were and whichever calls failed. */
  lemma {:induction false} RunStaysOwn(run: seq<Cluster>, i: nat, key: Key, uid: Uid)
    requires IsJobRun(run, key, uid) && i < |run|
    ensures AllOwn(run[i], key, uid)
  {
    hide AllOwn, WorldPlantsNothing, SyncedFrom;
    if i > 0 {
      RunStaysOwn(run, i - 1, key, uid);
      assert JobStepAt(run, i - 1, key, uid);
      if WorldPlantsNothing(run[i - 1], run[i], key, uid) {
        WorldKeepsOwn(run[i - 1], run[i], key, uid);
      } else {
        var view, env, other :| SyncedFrom(view, env, other, run[i - 1], run[i], key, uid);
        SyncKeepsOwn(view, env, other, run[i - 1], run[i], key, uid);
      }
    }
  }

  lemma StepIsNext(c: Cluster, c': Cluster, key: Key, uid: Uid)
    requires WorldPlantsNothing(c, c', key, uid) || SomeSync(c, c', key, uid)
    ensures Next(c, c')
  {
    hide EnvironmentStep, SyncsTo, ViewOk, NotPlanted, PodsNotPlanted;
    if SomeSync(c, c', key, uid) {
      var view, env, other :| SyncedFrom(view, env, other, c, c', key, uid);
      assert ViewOk(view) && SyncsTo(view, c, env, other, c');
    }
  }

  lemma JobRunIsRun(run: seq<Cluster>, key: Key, uid: Uid)
    requires IsJobRun(run, key, uid)
    ensures IsRun(run)
  {
    hide Next, AllOwn, WorldPlantsNothing, SomeSync;
    forall i | 0 <= i < |run| - 1 ensures Next(run[i], run[i + 1]) {
      assert JobStepAt(run, i, key, uid);
      StepIsNext(run[i], run[i + 1], key, uid);
    }
  }

  /** Every reachable state of the job is one to converge from: tidy, with nothing but its own workers. */
  lemma ReachableIsTidy(run: seq<Cluster>, i: nat, key: Key, uid: Uid)
    requires IsJobRun(run, key, uid) && i < |run| && key in run[i].groupJobs
    ensures Tidy(run[i], key) && OwnWorkers(run[i].pods, key, JobAt(run[i], key).uid)
  {
    hide Next, NoForeignObjects, OwnWorkers, StatusInv, IsJobRun;
    JobRunIsRun(run, key, uid);
    RunStaysOwn(run, i, key, uid);
    RunKeepsInv(run, i);
  }

  /* ---- Gang scheduling: the condition is exact ---- */

  lemma ObjectsAsk(c: Cluster, env: Env, gang: GangScheduler, key: Key, job: GroupJob)
    requires env.gang == Some(gang) && !job.spec.Suspended() && EnsureObjects(c, c, env, key, job).Ok?
    ensures var spec := NewPodGroupSpec(gang, job, env.replicaOrder);
            var podGroups := EnsureObjects(c, c, env, key, job).live.podGroups;
            spec.Some? && key in podGroups && podGroups[key] == PodGroup(Some(job.uid), spec.value)
  {
    hide EnsureService, EnsureConfigMap, EnsureSecret, EnsurePodGroup, GetWorkers, NewPodGroupSpec, SameExcept;
    var r1 := EnsureService(c, c, env, key, job).live;
    EnsureServiceFrame(c, c, env, key, job);
    var r2 := EnsureConfigMap(c, r1, env, key, job).live;
    EnsureConfigMapFrame(c, r1, env, key, job);
    var r3 := EnsureSecret(c, r2, env, key, job).live;
    EnsureSecretFrame(c, r2, env, key, job);
    PodGroupOutcome(c, r3, env, gang, key, job);
    GetWorkersFrame(c, EnsureGang(c, r3, env, key, job).live, env, key, job);
  }

  lemma ActAsks(c: Cluster, env: Env, gang: GangScheduler, key: Key, job: GroupJob)
    requires env.gang == Some(gang) && !job.spec.Suspended() && Act(c, c, env, key, job).Ok?
    requires LauncherKey(key) in c.jobs ==> !JobFinished(c.jobs[LauncherKey(key)])
    ensures var spec := NewPodGroupSpec(gang, job, env.replicaOrder);
            var podGroups := Act(c, c, env, key, job).live.podGroups;
            spec.Some? && key in podGroups && podGroups[key] == PodGroup(Some(job.uid), spec.value)
  {
    hide EnsureObjects, NewPodGroupSpec, LauncherKey, JobFinished, LauncherMayStart;
    ObjectsAsk(c, env, gang, key, job);
  }

  /** A sync of an active job that succeeds has computed the PodGroup, and left it stored. */
  lemma SyncAsks(c: Cluster, env: Env, gang: GangScheduler, key: Key)
    requires Tidy(c, key) && Active(c, key) && env.gang == Some(gang) && Sync(c, c, env, key).ok
    ensures var job := JobAt(c, key);
            var spec, podGroups := NewPodGroupSpec(gang, job, env.replicaOrder), Sync(c, c, env, key).live.podGroups;
            spec.Some? && key in podGroups && podGroups[key] == PodGroup(Some(job.uid), spec.value)
  {
    hide Act, Ignored, IsTerminal, MarkCreated, MarkStarted, Default, StatusInv, NoForeignObjects, ViewOk,
         ComputeStatus, NewPodGroupSpec, LauncherKey, JobFinished, LauncherPods, CleanedStatus;
    MarkCreatedKeepsOutcome(c.groupJobs[key].status, env.now);
    ActAsks(c, env, gang, key, JobAt(c, key));
  }

  lemma CalmWithOrder(c: Cluster, gang: Option<GangScheduler>, job: GroupJob, order: seq<ReplicaPriority>)
    returns (env: Env)
    requires job.spec.replicaSpecs.Some? && IsSorted(order, job.spec.replicaSpecs.value, c.priorityClasses)
    ensures Calm(c, env, gang, job) && env.replicaOrder == order
  {
    hide IsListing, IsSorted;
    env := CalmExists(c, gang, job);
    env := env.(replicaOrder := order);
  }

  /** An active job is not steady unless its PodGroup is computed, and is the same for every outcome of the
      sort: else some sync fails, or rewrites it. */
  lemma SteadyIsSchedulable(c: Cluster, gang: Option<GangScheduler>, key: Key)
    requires Tidy(c, key) && Active(c, key) && Steady(c, gang, key)
    ensures Schedulable(gang, JobAt(c, key), c.priorityClasses)
  {
    hide Tidy, Active, Sync, Default, NewPodGroupSpec, IsSorted, Calm;
    TidyHasJob(c, key);
    if gang.Some? {
      var job := JobAt(c, key);
      ActiveHasSpecs(c, key);
      forall a: seq<ReplicaPriority> | IsSorted(a, job.spec.replicaSpecs.value, c.priorityClasses)
        ensures key in c.podGroups
        ensures Some(c.podGroups[key].spec) == NewPodGroupSpec(gang.value, job, a)
      {
        var env := CalmWithOrder(c, gang, job, a);
        NoFaults(c, env, gang, job);
        SyncAsks(c, env, gang.value, key);
      }
    }
  }

  lemma ActiveHasSpecs(c: Cluster, key: Key)
    requires key in c.groupJobs && Active(c, key)
    ensures JobAt(c, key).spec.replicaSpecs.Some?
  {
    hide Ignored, Default;
    AcceptedSpec(key, JobAt(c, key));
  }

  /** A status computed while the launcher has not finished is not terminal. */
  lemma ComputedUnfinished(c: Cluster, env: Env, key: Key)
    requires key in c.groupJobs && ViewOk(c) && StatusInv(c.groupJobs[key].status)
    requires var r := Sync(c, c, env, key);
             && r.computed.Some?
             && (LauncherKey(key) in r.live.jobs ==> !JobFinished(r.live.jobs[LauncherKey(key)]))
    ensures !IsTerminal(Sync(c, c, env, key).computed.value)
  {
    hide SyncTerminal, Accepts, Default, StatusInv, ComputeStatus, Act, MarkCreated, MarkStarted, Wrote, LauncherKey,
         JobFinished, SeenOk, LauncherPods, IsFinished, ViewOk;
    var job := DefaultedJob(c.groupJobs[key]);
    var s0, suspended := job.status, job.spec.Suspended();
    ReachedActs(c, c, env, key);
    ActLaunches(c, c, env, key, job);
    MarkCreatedKeepsOutcome(s0, env.now);
    SyncActiveWrites(c, c, env, key, job, MarkStarted(MarkCreated(s0, env.now), suspended, env.now));
    var (launcher, workers) := Act(c, c, env, key, job).value;
    ComputedInv(s0, suspended, launcher, LauncherPods(c, env.launcherPodOrder, key, launcher), workers, env.now);
  }

  lemma TouchedLauncherUnfinished(c: Cluster, c': Cluster, actor: Actor, key: Key)
    requires Touched(c, c', actor) && !LauncherDone(c, key)
    ensures !LauncherDone(c', key)
  {
    hide LauncherKey, ConfigKey, SecretKey, PodsTouched, LauncherTouched, NotPlanted;
    TouchedLaunchers(c.jobs, c'.jobs, actor);
  }

  /** A calm sync of an active job, even one that fails, leaves it active, and its spec as it is. */
  lemma CalmKeepsActive(c: Cluster, c': Cluster, env: Env, gang: Option<GangScheduler>, key: Key)
    requires Tidy(c, key) && AllOwn(c, key, JobAt(c, key).uid) && Active(c, key) && CalmRound(c, c', env, gang, key)
    ensures Tidy(c', key) && AllOwn(c', key, JobAt(c, key).uid) && Active(c', key)
    ensures SameJob(JobAt(c', key), JobAt(c, key)) && c'.priorityClasses == c.priorityClasses
  {
    hide AllOwn, Sync, StatusInv, NoForeignObjects, OwnWorkers, ViewOk, Ignored, IsTerminal, Default, LauncherDone,
         Touched, WorkerKeys, IsListing, IsSorted, LauncherKey, JobFinished;
    var uid := JobAt(c, key).uid;
    var actor := Actor(key, c.groupJobs[key].uid, env.launcherUid, WorkerKeys(c.pods, key));
    SyncTouches(c, c, env, key);
    TouchedLauncherUnfinished(c, c', actor, key);
    CurrentSyncKeepsOwn(c, c', env, key, key, uid);
    CalmKeepsUnfinished(c, c', env, key);
    OwnIsTidy(c', key, uid);
    SameIgnored(key, JobAt(c', key), JobAt(c, key));
    SyncKeepsClasses(c, c, env, key);
  }

  lemma SameIgnored(key: Key, a: GroupJob, b: GroupJob)
    requires SameJob(a, b)
    ensures Ignored(key, a) == Ignored(key, b)
  {
    hide Accepts;
  }

  lemma CurrentSyncKeepsOwn(c: Cluster, c': Cluster, env: Env, other: Key, key: Key, uid: Uid)
    requires AllOwn(c, key, uid) && env.launcherUid != uid && c' == Sync(c, c, env, other).live
    ensures AllOwn(c', key, uid)
  {
    assert SyncedFrom(c, env, other, c, c', key, uid) by {
      hide Sync, NoForeignObjects, OwnWorkers;
    }
    hide AllOwn, SyncedFrom;
    SyncKeepsOwn(c, env, other, c, c', key, uid);
  }

  lemma OwnIsTidy(c: Cluster, key: Key, uid: Uid)
    requires AllOwn(c, key, uid) && key in c.groupJobs && StatusInv(c.groupJobs[key].status)
    ensures Tidy(c, key)
  {
    hide NoForeignObjects, OwnWorkers, StatusInv, ViewOk;
  }

  lemma CalmKeepsUnfinished(c: Cluster, c': Cluster, env: Env, key: Key)
    requires Tidy(c, key) && !IsTerminal(c.groupJobs[key].status) && c' == Sync(c, c, env, key).live
    requires !LauncherDone(c', key)
    ensures key in c'.groupJobs && c'.groupJobs[key] == c.groupJobs[key].(status := c'.groupJobs[key].status)
    ensures StatusInv(c'.groupJobs[key].status) && !IsTerminal(c'.groupJobs[key].status)
  {
    hide Sync, StatusInv, NoForeignObjects, ViewOk, IsTerminal, JobFinished, LauncherKey, Default, StartTimeStep,
         CleanedStatus;
    SyncStatuses(c, c, env, key);
    SyncWrites(c, c, env, key);
    if c'.groupJobs != c.groupJobs {
      ComputedUnfinished(c, env, key);
    }
  }

  lemma SyncKeepsClasses(view: Cluster, live: Cluster, env: Env, key: Key)
    ensures Sync(view, live, env, key).live.priorityClasses == live.priorityClasses
  {
    hide Act, CleanUp, Ignored, IsTerminal, MarkCreated, MarkStarted, Default, ComputeStatus, CleanedStatus,
         LauncherPods;
    if key in view.groupJobs {
      var job := DefaultedJob(view.groupJobs[key]);
      ActFrame(view, live, env, key, job);
      CleanUpFrame(view, live, env, key, job);
    }
  }

  /** An active job whose PodGroup cannot be computed, or is not always the same one, is never steady, however
      many calm syncs it gets. */
  lemma {:induction false} NeverSteady(calm: seq<Cluster>, i: nat, gang: Option<GangScheduler>, key: Key)
    requires IsCalmRun(calm, gang, key) && Tidy(calm[0], key) && AllOwn(calm[0], key, JobAt(calm[0], key).uid)
    requires Active(calm[0], key) && !Schedulable(gang, JobAt(calm[0], key), calm[0].priorityClasses) && i < |calm|
    ensures Tidy(calm[i], key) && AllOwn(calm[i], key, JobAt(calm[i], key).uid) && Active(calm[i], key)
    ensures !Schedulable(gang, JobAt(calm[i], key), calm[i].priorityClasses)
    ensures !Steady(calm[i], gang, key)
  {
    hide AllOwn, CalmRound, Tidy, Active, Schedulable, Steady, Default;
    if i > 0 {
      NeverSteady(calm, i - 1, gang, key);
      assert RoundsAt(calm, i - 1, gang, key);
      var env :| RoundBy(calm, i - 1, env, gang, key);
      CalmKeepsActive(calm[i - 1], calm[i], env, gang, key);
      TidyHasJob(calm[i], key);
      if Schedulable(gang, JobAt(calm[i], key), calm[i].priorityClasses) {
        SameSchedulable(gang, JobAt(calm[i - 1], key), JobAt(calm[i], key), calm[i].priorityClasses);
      }
    }
    if Steady(calm[i], gang, key) {
      SteadyIsSchedulable(calm[i], gang, key);
    }
  }

  /** The accepted job with a third replica type for which the sort matters never settles under either
      gang scheduler. */
  lemma ThirdReplicaTypeNeverSettles(c: Cluster, gang: GangScheduler, key: Key, other: string)
    requires Tidy(c, key) && Active(c, key) && c.groupJobs[key].spec == ExampleJob(other) && c.priorityClasses == map[]
    ensures !Steady(c, Some(gang), key)
  {
    hide Tidy, Active, Steady, Default, NewPodGroupSpec, IsSorted;
    TidyHasJob(c, key);
    ExampleAccepted(other);
    var job := JobAt(c, key);
    ThirdReplicaTypeMatters(other, gang, job);
    var l, w, o := Example(Launcher, 1), Example(Worker, 5), Example(OtherReplica(other), 5);
    assert !SameSpec(gang, job, [l, w, o], [o, w, l]);
    if Steady(c, Some(gang), key) {
      SteadyIsSchedulable(c, Some(gang), key);
    }
  }

  /** Wherever a run has got to, if from then on only calm syncs of the job happen, then unless the job is
      active and its PodGroup cannot be computed in one way only, the third leaves everything as every
      further sync would, and nothing in the cluster changes after it; if it is, no sync ever does. */
  lemma ReachableConverges(run: seq<Cluster>, calm: seq<Cluster>, key: Key, uid: Uid, gang: Option<GangScheduler>)
    requires IsJobRun(run, key, uid) && IsCalmRun(calm, gang, key) && run != [] && calm[0] == run[|run| - 1]
    ensures if Active(calm[0], key) && !Schedulable(gang, JobAt(calm[0], key), calm[0].priorityClasses)
            then forall i: nat :: i < |calm| ==> key in calm[i].groupJobs && !Steady(calm[i], gang, key)
            else
              && (|calm| > 3 ==> key in calm[3].groupJobs && Steady(calm[3], gang, key))
              && forall i: nat :: 3 <= i < |calm| ==> calm[i] == calm[3]
  {
    hide IsJobRun, Tidy, Steady, Active, RoundsAt, Schedulable, OwnWorkers, AllOwn;
    ReachableIsTidy(run, |run| - 1, key, uid);
    if Active(calm[0], key) && !Schedulable(gang, JobAt(calm[0], key), calm[0].priorityClasses) {
      ReachableOwn(run, key, uid);
      forall i: nat | i < |calm| ensures key in calm[i].groupJobs && !Steady(calm[i], gang, key) {
        NeverSteady(calm, i, gang, key);
        TidyHasJob(calm[i], key);
      }
    } else if |calm| > 3 {
      SteadyAtThree(calm, gang, key);
      forall i: nat | 3 <= i < |calm| ensures calm[i] == calm[3] {
        SettledAfterThree(calm, i, gang, key);
      }
    }
  }

  lemma ReachableOwn(run: seq<Cluster>, key: Key, uid: Uid)
    requires IsJobRun(run, key, uid) && run != [] && key in run[|run| - 1].groupJobs
    ensures AllOwn(run[|run| - 1], key, JobAt(run[|run| - 1], key).uid)
  {
    hide IsJobRun, NoForeignObjects, OwnWorkers, ViewOk;
    RunStaysOwn(run, |run| - 1, key, uid);
  }
}
