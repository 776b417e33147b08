/** Several jobs at once: calm syncs of different jobs in any order, each of which settles after three syncs of
    its own, whatever the others do in between. */
module Interleaving {
  import opened Types
  import opened Names
  import opened Defaults
  import opened PodGroups
  import opened Api
  import opened Objects
  import opened Workers
  import opened Reconcile
  import opened StatusSteps
  import opened Status
  import opened ConfigMaps
  import opened Runs
  import opened Scaling
  import opened Launching
  import opened Settling
  import opened Convergence
  import opened Isolation
  import opened Reachability

  /* ---- How far a job has come ---- */

  /** Are all wanted workers there, or only wanted ones? */
  ghost predicate Nested(pods: map<Key, Pod>, key: Key, job: GroupJob) {
    || Calmed(pods, key, job)
    || (job.spec.Replica(Worker).Some? && Wanted(key, job.spec.WorkerReplicas()) <= WorkerKeys(pods, key))
  }

  /** Does the job have at most `k` calm syncs of its own to go until it is steady? */
  ghost predicate SettlesIn(c: Cluster, gang: Option<GangScheduler>, key: Key, k: nat)
    requires key in c.groupJobs
  {
    var job := JobAt(c, key);
    if Ignored(key, job) then true
    else if IsTerminal(c.groupJobs[key].status) then k >= 1 || (CleansUpPods(job.spec) ==> Cleaned(c, gang, key))
    else if LauncherDone(c, key) then k >= 2
    else if job.spec.Suspended() then
      k >= 2 || SuspendedSettled(c, gang, key) || (k == 1 && CleanedPods(c.pods, key, job) == c.pods)
    else
      && Schedulable(gang, job, c.priorityClasses)
      && (k >= 3 || ActiveSettled(c, gang, key) || (k >= 1 && Calmed(c.pods, key, job))
          || (k == 2 && Nested(c.pods, key, job)))
  }

  /** Every tidy job has at most three syncs to go, if it is active and its PodGroup is always the same one. */
  lemma StartsWithThree(c: Cluster, gang: Option<GangScheduler>, key: Key)
    requires key in c.groupJobs
    requires Active(c, key) ==> Schedulable(gang, JobAt(c, key), c.priorityClasses)
    ensures SettlesIn(c, gang, key, 3)
  {
    hide Ignored, IsTerminal, LauncherDone, Default, Schedulable;
  }

  lemma NoneToGoIsSteady(c: Cluster, gang: Option<GangScheduler>, key: Key)
    requires Tidy(c, key) && OwnWorkers(c.pods, key, JobAt(c, key).uid) && SettlesIn(c, gang, key, 0)
    ensures Steady(c, gang, key)
  {
    hide Tidy, Ignored, IsTerminal, LauncherDone, Default, Schedulable, Cleaned, SuspendedSettled, ActiveSettled,
         Steady, OwnWorkers;
    TidyHasJob(c, key);
    var job := JobAt(c, key);
    if Ignored(key, job) {
      IgnoredIsSteady(c, gang, key);
    } else if IsTerminal(c.groupJobs[key].status) {
      CleanedIsSteady(c, gang, key);
    } else if job.spec.Suspended() {
      SuspendedIsSteady(c, gang, key);
    } else {
      ActiveIsSteady(c, gang, key);
    }
  }

  /* ---- A sync of the job itself ---- */

  lemma NestedRound(pods: map<Key, Pod>, pods': map<Key, Pod>, key: Key, job: GroupJob)
    requires KeysRound(pods, pods', key, job) && OwnWorkers(pods, key, job.uid)
    ensures Nested(pods', key, job) && (Nested(pods, key, job) ==> Calmed(pods', key, job))
  {
    hide WorkerKeys, Wanted, Kept, LastIsShifted, HasSurplusLabel, OwnWorkers;
    if job.spec.Replica(Worker).Some? {
      var n := job.spec.WorkerReplicas();
      KeptBetween(pods, key, job.uid, n);
      NextNested(WorkerKeys(pods, key), Wanted(key, n), Kept(pods, key, n));
    }
  }

  lemma NextNested(keys: set<Key>, wanted: set<Key>, kept: set<Key>)
    requires kept <= wanted
    ensures var next := NextKeys(keys, wanted, kept);
            && (next <= wanted || wanted <= next)
            && (keys <= wanted || wanted <= keys ==> next <= wanted)
  {
    if wanted < keys {
      Smaller(wanted, keys);
    }
  }

  lemma SameNested(pods: map<Key, Pod>, key: Key, a: GroupJob, b: GroupJob)
    requires SameJob(a, b)
    ensures Nested(pods, key, a) == Nested(pods, key, b) && Calmed(pods, key, a) == Calmed(pods, key, b)
  {
    hide WorkerKeys, Wanted;
  }

  lemma ActiveTurn(c: Cluster, c': Cluster, env: Env, gang: Option<GangScheduler>, key: Key, k: nat)
    requires Tidy(c, key) && OwnWorkers(c.pods, key, JobAt(c, key).uid) && CalmRound(c, c', env, gang, key)
    requires Active(c, key) && SettlesIn(c, gang, key, k + 1)
    ensures key in c'.groupJobs && SettlesIn(c', gang, key, k)
  {
    hide Tidy, Ignored, IsTerminal, LauncherDone, Default, Schedulable, Cleaned, SuspendedSettled, ActiveSettled, Sync,
         CalmRound, OwnWorkers, Nested, Calmed, Complete, KeysRound, Steady;
    TidyHasJob(c, key);
    var job := JobAt(c, key);
    ActiveRound(c, c', env, gang, key);
    TidyHasJob(c', key);
    NestedRound(c.pods, c'.pods, key, job);
    SameNested(c'.pods, key, JobAt(c', key), job);
    if ActiveSettled(c, gang, key) {
      ActiveIsSteady(c, gang, key);
      SteadyRound(c, c', env, gang, key);
    }
  }

  lemma SuspendedTurn(c: Cluster, c': Cluster, env: Env, gang: Option<GangScheduler>, key: Key, k: nat)
    requires Tidy(c, key) && CalmRound(c, c', env, gang, key) && SettlesIn(c, gang, key, k + 1)
    requires !Ignored(key, JobAt(c, key)) && !IsTerminal(c.groupJobs[key].status) && !LauncherDone(c, key)
    requires JobAt(c, key).spec.Suspended()
    ensures key in c'.groupJobs && SettlesIn(c', gang, key, k)
  {
    hide Tidy, Ignored, IsTerminal, Default, Schedulable, Cleaned, SuspendedSettled, ActiveSettled, Sync, CalmRound,
         CleanedPods, RunningIn, Steady, LauncherKey, JobFinished;
    TidyHasJob(c, key);
    var job := JobAt(c, key);
    SuspendedRound(c, c', env, gang, key);
    TidyHasJob(c', key);
    CleanedTwice(c.pods, c.podGroups, gang, key, job);
    SameCleaned(c'.pods, key, JobAt(c', key), job);
    if SuspendedSettled(c, gang, key) {
      SuspendedIsSteady(c, gang, key);
      SteadyRound(c, c', env, gang, key);
    }
  }

  lemma FinishedTurn(c: Cluster, c': Cluster, env: Env, gang: Option<GangScheduler>, key: Key, k: nat)
    requires Tidy(c, key) && CalmRound(c, c', env, gang, key) && SettlesIn(c, gang, key, k + 1)
    requires Ignored(key, JobAt(c, key)) || IsTerminal(c.groupJobs[key].status) || LauncherDone(c, key)
    ensures key in c'.groupJobs && SettlesIn(c', gang, key, k)
  {
    hide Tidy, Ignored, IsTerminal, Default, Schedulable, Cleaned, SuspendedSettled, ActiveSettled, Sync, CalmRound,
         Steady, LauncherKey, JobFinished, CleansUpPods;
    TidyHasJob(c, key);
    if Ignored(key, JobAt(c, key)) {
      IgnoredIsSteady(c, gang, key);
      SteadyRound(c, c', env, gang, key);
    } else if IsTerminal(c.groupJobs[key].status) {
      TerminalCleans(c, c', env, gang, key);
      TidyHasJob(c', key);
    } else {
      DoneRound(c, c', env, gang, key);
      TidyHasJob(c', key);
    }
  }

  /** A calm sync of the job brings it one step nearer. */
  lemma OwnTurn(c: Cluster, c': Cluster, env: Env, gang: Option<GangScheduler>, key: Key, k: nat)
    requires Tidy(c, key) && OwnWorkers(c.pods, key, JobAt(c, key).uid) && CalmRound(c, c', env, gang, key)
    requires SettlesIn(c, gang, key, k + 1)
    ensures key in c'.groupJobs && SettlesIn(c', gang, key, k)
  {
    hide Tidy, Ignored, IsTerminal, Default, Sync, CalmRound, LauncherDone, SettlesIn, OwnWorkers;
    TidyHasJob(c, key);
    if Ignored(key, JobAt(c, key)) || IsTerminal(c.groupJobs[key].status) || LauncherDone(c, key) {
      FinishedTurn(c, c', env, gang, key, k);
    } else if JobAt(c, key).spec.Suspended() {
      SuspendedTurn(c, c', env, gang, key, k);
    } else {
      ActiveTurn(c, c', env, gang, key, k);
    }
  }

  /* ---- A sync of another job ---- */

  ghost predicate SameAt<V>(m: map<Key, V>, m': map<Key, V>, k: Key) {
    (k in m <==> k in m') && (k in m ==> m'[k] == m[k])
  }

  /** Has nothing of the job changed, and no pod but those that another job, with uid `other`, controls? */
  ghost predicate Unaffected(c: Cluster, c': Cluster, key: Key, other: Uid) {
    && SameAt(c.groupJobs, c'.groupJobs, key) && c'.priorityClasses == c.priorityClasses
    && SameAt(c.services, c'.services, key) && SameAt(c.configMaps, c'.configMaps, ConfigKey(key))
    && SameAt(c.secrets, c'.secrets, SecretKey(key)) && SameAt(c.podGroups, c'.podGroups, key)
    && SameAt(c.jobs, c'.jobs, LauncherKey(key)) && SameButOwned(c.pods, c'.pods, other)
  }

  lemma ElsewhereSame<V>(m: map<Key, V>, m': map<Key, V>, owner: V -> Option<Uid>, place: Key -> Key, actor: Actor,
                         key: Key)
    requires Touches(m, m', owner, place(actor.key), actor.uid) && key != actor.key
    requires forall a, b :: place(a) == place(b) ==> a == b
    ensures SameAt(m, m', place(key))
  {
    SameElsewhere(m, m', place(actor.key), place(key));
  }

  /** A sync from a current snapshot in which a job's pods are its own touches no pods that others control. */
  lemma TouchesOwnPods(pods: map<Key, Pod>, pods': map<Key, Pod>, actor: Actor)
    requires PodsTouched(pods, pods', actor) && OwnWorkers(pods, actor.key, actor.uid)
    requires actor.selected == WorkerKeys(pods, actor.key)
    ensures SameButOwned(pods, pods', actor.uid)
  {
    hide WorkerKeys, WorkerSelects;
    SelectedHere(pods, actor.key);
    forall k | k in pods && (k in WorkerKeys(pods, actor.key) || IsWorkerKey(k, actor.key))
      ensures pods[k].owner == Some(actor.uid)
    {
      assert k in WorkerKeys(pods, actor.key);
      assert IsWorkerAt(pods, actor.key, actor.uid, k);
    }
    forall k | k in pods' && IsWorkerAt(pods', actor.key, actor.uid, k)
      ensures pods'[k].owner == Some(actor.uid) && IsWorkerKey(k, actor.key)
    {
    }
  }

  lemma OthersUnaffected(c: Cluster, c': Cluster, env: Env, other: Key, key: Key)
    requires other in c.groupJobs && OwnWorkers(c.pods, other, c.groupJobs[other].uid) && key != other
    requires c' == Sync(c, c, env, other).live
    ensures Unaffected(c, c', key, c.groupJobs[other].uid)
  {
    hide ConfigKey, SecretKey, LauncherKey, WorkerKeys, PodsTouched, LauncherTouched, NotPlanted, OwnWorkers, Touches,
         SameButOwned, SameAt;
    SyncTouches(c, c, env, other);
    SyncKeepsClasses(c, c, env, other);
    hide Sync;
    var actor := Actor(other, c.groupJobs[other].uid, env.launcherUid, WorkerKeys(c.pods, other));
    InjectivePlaces();
    ElsewhereSame(c.services, c'.services, ServiceOwner(), Same(), actor, key);
    ElsewhereSame(c.configMaps, c'.configMaps, ConfigMapOwner(), Config(), actor, key);
    ElsewhereSame(c.secrets, c'.secrets, SecretOwner(), Ssh(), actor, key);
    ElsewhereSame(c.podGroups, c'.podGroups, PodGroupOwner(), Same(), actor, key);
    ElsewhereSame(c.jobs, c'.jobs, LauncherOwner(), LauncherAt(), actor, key);
    TouchesOwnPods(c.pods, c'.pods, actor);
    JobElsewhereSame(c, c', actor, key);
  }

  lemma JobElsewhereSame(c: Cluster, c': Cluster, actor: Actor, key: Key)
    requires Touched(c, c', actor) && key != actor.key
    ensures SameAt(c.groupJobs, c'.groupJobs, key)
  {
    SameElsewhere(c.groupJobs, c'.groupJobs, actor.key, key);
  }

  /** Then the job's own workers are the same pods as before. */
  lemma SameWorkers(pods: map<Key, Pod>, pods': map<Key, Pod>, key: Key, uid: Uid, other: Uid)
    requires SameButOwned(pods, pods', other) && uid != other
    requires OwnWorkers(pods, key, uid) && OwnWorkers(pods', key, uid)
    ensures WorkerKeys(pods', key) == WorkerKeys(pods, key)
    ensures forall k :: k in WorkerKeys(pods, key) ==> k in pods && k in pods' && pods'[k] == pods[k]
    ensures forall i: nat :: SameAt(pods, pods', WorkerKey(key, i))
    ensures RunningIn(pods', key) == RunningIn(pods, key)
  {
    OwnedAlike(pods, pods', key, uid, other);
    OwnedAlike(pods', pods, key, uid, other);
    hide WorkerSelects, WorkerKey, SameButOwned;
    assert RunningIn(pods', key) == RunningIn(pods, key) by {
      RunningSelected(pods, key);
      RunningSelected(pods', key);
    }
  }

  lemma OwnedAlike(pods: map<Key, Pod>, pods': map<Key, Pod>, key: Key, uid: Uid, other: Uid)
    requires SameButOwned(pods, pods', other) && uid != other && OwnWorkers(pods, key, uid)
    ensures forall k :: k in WorkerKeys(pods, key) ==>
              k in pods && k in pods' && pods'[k] == pods[k] && k in WorkerKeys(pods', key)
    ensures forall i: nat :: WorkerKey(key, i) in pods ==> WorkerKey(key, i) in WorkerKeys(pods, key)
  {
    SelectedHere(pods, key);
    forall k | k in WorkerKeys(pods, key) ensures k in pods' && pods'[k] == pods[k] && k in WorkerKeys(pods', key) {
      assert IsWorkerAt(pods, key, uid, k);
    }
  }

  lemma RunningSelected(pods: map<Key, Pod>, key: Key)
    ensures RunningIn(pods, key) == set k | k in WorkerKeys(pods, key) && k in pods && pods[k].phase == PodRunning
  {
  }

  lemma SameCleanedPods(pods: map<Key, Pod>, pods': map<Key, Pod>, key: Key, job: GroupJob)
    requires forall i: nat :: SameAt(pods, pods', WorkerKey(key, i))
    requires CleanedPods(pods, key, job) == pods
    ensures CleanedPods(pods', key, job) == pods'
  {
    hide WorkerKey, KeepsPod;
    var doomed := Doomed(pods, key, job, 0, job.spec.WorkerReplicas());
    assert Doomed(pods', key, job, 0, job.spec.WorkerReplicas()) == doomed;
    assert doomed <= pods.Keys && (pods - doomed).Keys == pods.Keys - doomed;
    assert doomed == {};
  }

  lemma SameStored(c: Cluster, c': Cluster, key: Key, job: GroupJob)
    requires job.spec.WorkerReplicas() >= 0 && forall i: nat :: SameAt(c.pods, c'.pods, WorkerKey(key, i))
    ensures Stored(c', key, job) == Stored(c, key, job)
  {
    hide WorkerKey, NewWorker;
    var a, b := Stored(c', key, job), Stored(c, key, job);
    forall i: nat | i < |b| ensures a[i] == b[i] {
      assert SameAt(c.pods, c'.pods, WorkerKey(key, 0 + i));
    }
  }

  lemma SameBasics(c: Cluster, c': Cluster, gang: Option<GangScheduler>, key: Key, job: GroupJob, other: Uid)
    requires Unaffected(c, c', key, other) && RunningIn(c'.pods, key) == RunningIn(c.pods, key)
    requires BasicsSettled(c, gang, key, job)
    ensures BasicsSettled(c', gang, key, job)
  {
    hide ConfigData, RunningPods, RunningIn, ConfigKey, SecretKey, LauncherKey, IsSorted, NewService, SameButOwned;
    var env := CalmExists(c, gang, job);
    forall e | Calm(c', e, gang, job) ensures NextConfigMaps(c', e, key, job) == c'.configMaps {
      ConfigDataSame(c, c', env.runningOrder, e.runningOrder, key, job.spec);
      assert NextConfigMaps(c, env, key, job)[ConfigKey(key)] == c.configMaps[ConfigKey(key)];
      var next := NextConfigMaps(c', e, key, job);
      assert next == c'.configMaps[ConfigKey(key) := next[ConfigKey(key)]];
    }
  }

  lemma SameSuspended(c: Cluster, c': Cluster, gang: Option<GangScheduler>, key: Key, other: Uid)
    requires key in c.groupJobs && key in c'.groupJobs && Unaffected(c, c', key, other)
    requires forall i: nat :: SameAt(c.pods, c'.pods, WorkerKey(key, i))
    requires RunningIn(c'.pods, key) == RunningIn(c.pods, key)
    requires LauncherKey(key) in c.jobs ==> c.jobs[LauncherKey(key)].uid != other
    requires SuspendedSettled(c, gang, key)
    ensures SuspendedSettled(c', gang, key)
  {
    hide BasicsSettled, CleanedPods, JobFinished, StatusSettled, LauncherRunning, Default, ConfigKey, SecretKey,
         LauncherKey, WorkerKey, RunningIn, SameButOwned;
    var job, launcher := JobAt(c, key), FindLauncher(c, key);
    SameBasics(c, c', gang, key, job, other);
    SameCleanedPods(c.pods, c'.pods, key, job);
    LauncherRunningSame(c, c', key, launcher, other);
    SameGroupsCleaned(c, c', gang, key, other);
  }

  lemma SameGroupsCleaned(c: Cluster, c': Cluster, gang: Option<GangScheduler>, key: Key, other: Uid)
    requires Unaffected(c, c', key, other) && CleanedPodGroups(c.podGroups, gang, key) == c.podGroups
    ensures CleanedPodGroups(c'.podGroups, gang, key) == c'.podGroups
  {
    hide ConfigKey, SecretKey, LauncherKey, SameButOwned;
    if gang.Some? {
      assert key !in c.podGroups - {key};
      assert key !in c'.podGroups;
    }
  }

  lemma SameActive(c: Cluster, c': Cluster, gang: Option<GangScheduler>, key: Key, other: Uid)
    requires key in c.groupJobs && key in c'.groupJobs && Unaffected(c, c', key, other)
    requires forall i: nat :: SameAt(c.pods, c'.pods, WorkerKey(key, i))
    requires RunningIn(c'.pods, key) == RunningIn(c.pods, key) && WorkerKeys(c'.pods, key) == WorkerKeys(c.pods, key)
    requires LauncherKey(key) in c.jobs ==> c.jobs[LauncherKey(key)].uid != other
    requires ActiveSettled(c, gang, key)
    ensures ActiveSettled(c', gang, key)
  {
    hide BasicsSettled, JobFinished, StatusSettled, LauncherRunning, Default, ConfigKey, SecretKey, LauncherKey,
         WorkerKey, RunningIn, SameButOwned, Stored, WorkerKeys, Wanted, NewPodGroupSpec, IsSorted, LauncherMayStart;
    var job, launcher := JobAt(c, key), FindLauncher(c, key);
    SameBasics(c, c', gang, key, job, other);
    SameStored(c, c', key, job);
    LauncherRunningSame(c, c', key, launcher, other);
  }

  lemma SameTerminal(c: Cluster, c': Cluster, gang: Option<GangScheduler>, key: Key, other: Uid)
    requires key in c.groupJobs && key in c'.groupJobs && Unaffected(c, c', key, other)
    requires forall i: nat :: SameAt(c.pods, c'.pods, WorkerKey(key, i))
    requires Cleaned(c, gang, key)
    ensures Cleaned(c', gang, key)
  {
    hide CleanedPods, CleanedStatus, Default, ConfigKey, SecretKey, LauncherKey, WorkerKey, SameButOwned;
    SameCleanedPods(c.pods, c'.pods, key, JobAt(c, key));
    SameGroupsCleaned(c, c', gang, key, other);
  }

  /** A sync of another job brings it no further away. */
  lemma OtherTurn(c: Cluster, c': Cluster, gang: Option<GangScheduler>, key: Key, other: Uid, k: nat)
    requires key in c.groupJobs && key in c'.groupJobs && Unaffected(c, c', key, other)
    requires AllOwn(c, key, c.groupJobs[key].uid) && AllOwn(c', key, c.groupJobs[key].uid)
    requires c.groupJobs[key].uid != other
    requires LauncherKey(key) in c.jobs ==> c.jobs[LauncherKey(key)].uid != other
    requires SettlesIn(c, gang, key, k)
    ensures SettlesIn(c', gang, key, k)
  {
    hide Unaffected, Ignored, IsTerminal, LauncherDone, Default, Schedulable, Cleaned, SuspendedSettled, ActiveSettled,
         OwnWorkers, NoForeignObjects, ViewOk, CleansUpPods, CleanedPods, RunningIn, WorkerKeys, WorkerKey, SameAt,
         LauncherKey, Wanted;
    SameJobAndLauncher(c, c', key, other);
    var job := JobAt(c, key);
    SamePodsOf(c, c', key, other);
    SameWorkers(c.pods, c'.pods, key, job.uid, other);
    if Ignored(key, job) {
    } else if IsTerminal(c.groupJobs[key].status) {
      if Cleaned(c, gang, key) {
        SameTerminal(c, c', gang, key, other);
      }
    } else if LauncherDone(c, key) {
    } else if job.spec.Suspended() {
      if SuspendedSettled(c, gang, key) {
        SameSuspended(c, c', gang, key, other);
      }
      if CleanedPods(c.pods, key, job) == c.pods {
        SameCleanedPods(c.pods, c'.pods, key, job);
      }
    } else if ActiveSettled(c, gang, key) {
      SameActive(c, c', gang, key, other);
    }
  }

  lemma SameJobAndLauncher(c: Cluster, c': Cluster, key: Key, other: Uid)
    requires key in c.groupJobs && Unaffected(c, c', key, other)
    ensures key in c'.groupJobs && c'.groupJobs[key] == c.groupJobs[key]
    ensures LauncherDone(c', key) == LauncherDone(c, key) && c'.priorityClasses == c.priorityClasses
  {
    hide ConfigKey, SecretKey, LauncherKey, SameButOwned, JobFinished;
  }

  lemma SamePodsOf(c: Cluster, c': Cluster, key: Key, other: Uid)
    requires Unaffected(c, c', key, other)
    ensures SameButOwned(c.pods, c'.pods, other)
  {
    hide ConfigKey, SecretKey, LauncherKey, SameButOwned;
  }

  /* ---- Runs of several jobs ---- */

  ghost predicate UidsApart(c: Cluster, jobs: map<Key, Uid>) {
    && (forall a, b :: a in jobs && b in jobs && a != b ==> jobs[a] != jobs[b])
    && (forall k :: k in c.jobs ==> c.jobs[k].uid !in jobs.Values)
  }

  /** Jobs that are there, each under a uid of its own and with nothing but its own under its names and labels,
      and launchers that are none of the jobs. */
  ghost predicate Apart(c: Cluster, jobs: map<Key, Uid>) {
    UidsApart(c, jobs) && forall key :: key in jobs ==> key in c.groupJobs && AllOwn(c, key, jobs[key])
  }

  /** Wherever a run has got to in which several jobs keep their names and labels to themselves, they are apart
      and tidy, since uids are unique. */
  lemma ReachableApart(run: seq<Cluster>, jobs: map<Key, Uid>)
    requires run != [] && UidsApart(run[|run| - 1], jobs)
    requires forall key :: key in jobs ==> IsJobRun(run, key, jobs[key]) && key in run[|run| - 1].groupJobs
    ensures Apart(run[|run| - 1], jobs) && forall key :: key in jobs ==> Tidy(run[|run| - 1], key)
  {
    hide IsJobRun, AllOwn, Tidy;
    forall key | key in jobs ensures AllOwn(run[|run| - 1], key, jobs[key]) && Tidy(run[|run| - 1], key) {
      RunStaysOwn(run, |run| - 1, key, jobs[key]);
      ReachableIsTidy(run, |run| - 1, key, jobs[key]);
    }
  }

  /** A calm sync of one of the jobs, which gives a new launcher a uid that no job has. */
  ghost predicate TurnBy(run: seq<Cluster>, i: nat, env: Env, gang: Option<GangScheduler>, key: Key,
                         jobs: map<Key, Uid>)
    requires i + 1 < |run|
  {
    key in run[i].groupJobs && CalmRound(run[i], run[i + 1], env, gang, key) && env.launcherUid !in jobs.Values
  }

  ghost predicate TurnAt(run: seq<Cluster>, i: nat, gang: Option<GangScheduler>, key: Key, jobs: map<Key, Uid>)
    requires i + 1 < |run|
  {
    exists env :: TurnBy(run, i, env, gang, key, jobs)
  }

  /** A run of nothing but calm syncs of the jobs, in the order of `turns`, whatever order that is. */
  ghost predicate IsSharedRun(run: seq<Cluster>, turns: seq<Key>, gang: Option<GangScheduler>, jobs: map<Key, Uid>) {
    && |run| == |turns| + 1 && Apart(run[0], jobs)
    && (forall key :: key in jobs ==>
          && Tidy(run[0], key)
          && (Active(run[0], key) ==> Schedulable(gang, JobAt(run[0], key), run[0].priorityClasses)))
    && forall i: nat :: i < |turns| ==> turns[i] in jobs && TurnAt(run, i, gang, turns[i], jobs)
  }

  /** The syncs that the job at `key` has had among the first `i`. */
  ghost function TurnsOf(turns: seq<Key>, i: nat, key: Key): nat
    requires i <= |turns|
  {
    multiset(turns[..i])[key]
  }

  lemma TurnsStep(turns: seq<Key>, i: nat, key: Key)
    requires i < |turns|
    ensures TurnsOf(turns, i + 1, key) == TurnsOf(turns, i, key) + if turns[i] == key then 1 else 0
  {
    assert turns[..i + 1] == turns[..i] + [turns[i]];
  }

  ghost function ToGo(turns: seq<Key>, i: nat, key: Key): nat
    requires i <= |turns|
  {
    if TurnsOf(turns, i, key) >= 3 then 0 else 3 - TurnsOf(turns, i, key)
  }

  lemma StaysApart(c: Cluster, c': Cluster, env: Env, gang: Option<GangScheduler>, other: Key, jobs: map<Key, Uid>)
    requires Apart(c, jobs) && other in jobs && other in c.groupJobs && CalmRound(c, c', env, gang, other)
    requires env.launcherUid !in jobs.Values
    ensures Apart(c', jobs)
  {
    hide AllOwn, Calm, Sync, JobAt, ViewOk, NotPlanted, PodsTouched, LauncherTouched, ConfigKey, SecretKey, LauncherKey,
         WorkerKeys, OwnWorkers;
    OwnParts(c, other, jobs);
    var actor := Actor(other, c.groupJobs[other].uid, env.launcherUid, WorkerKeys(c.pods, other));
    SyncTouches(c, c, env, other);
    TouchedLaunchers(c.jobs, c'.jobs, actor);
    forall key | key in jobs ensures key in c'.groupJobs && AllOwn(c', key, jobs[key]) {
      CurrentSyncKeepsOwn(c, c', env, other, key, jobs[key]);
      StatusesKept(c, c', env, other, key);
    }
  }

  lemma StatusesKept(c: Cluster, c': Cluster, env: Env, other: Key, key: Key)
    requires ViewOk(c) && other in c.groupJobs && key in c.groupJobs && c' == Sync(c, c, env, other).live
    ensures key in c'.groupJobs
    ensures StatusInv(c.groupJobs[other].status) && StatusInv(c.groupJobs[key].status) ==>
              StatusInv(c'.groupJobs[key].status)
  {
    hide Sync, StatusInv, ViewOk, IsTerminal, StartTimeStep, CleanedStatus, Default;
    SyncStatuses(c, c, env, other);
    if StatusInv(c.groupJobs[other].status) && c'.groupJobs != c.groupJobs {
      SyncWrites(c, c, env, other);
    }
  }

  lemma TidyStatus(c: Cluster, key: Key)
    requires Tidy(c, key)
    ensures key in c.groupJobs && ViewOk(c) && StatusInv(c.groupJobs[key].status)
  {
  }

  /** Every job stays tidy over a turn, and the one whose turn it is comes a step nearer. */
  lemma OneTurn(c: Cluster, c': Cluster, env: Env, gang: Option<GangScheduler>, turn: Key, key: Key,
                jobs: map<Key, Uid>, k: nat)
    requires Apart(c, jobs) && Apart(c', jobs) && key in jobs && turn in jobs
    requires key in c.groupJobs && turn in c.groupJobs && key in c'.groupJobs
    requires Tidy(c, key) && Tidy(c, turn) && CalmRound(c, c', env, gang, turn)
    requires SettlesIn(c, gang, key, k)
    ensures Tidy(c', key)
    ensures turn != key ==> SettlesIn(c', gang, key, k)
    ensures turn == key && k > 0 ==> SettlesIn(c', gang, key, k - 1)
    ensures turn == key && k == 0 ==> c' == c
  {
    hide Apart, Tidy, SettlesIn, AllOwn, Calm, Default, Sync, StatusInv, OwnWorkers, ViewOk, Unaffected, LauncherKey,
         Steady;
    TidyStatus(c, key);
    TidyStatus(c, turn);
    OwnParts(c, key, jobs);
    OwnParts(c, turn, jobs);
    OwnParts(c', key, jobs);
    OwnUids(c, jobs);
    StatusesKept(c, c', env, turn, key);
    OwnIsTidy(c', key, jobs[key]);
    if turn != key {
      OthersUnaffected(c, c', env, turn, key);
      OtherTurn(c, c', gang, key, jobs[turn], k);
    } else if k > 0 {
      OwnTurn(c, c', env, gang, key, k - 1);
    } else {
      NoneToGoIsSteady(c, gang, key);
      SteadyRound(c, c', env, gang, key);
    }
  }

  lemma OwnParts(c: Cluster, key: Key, jobs: map<Key, Uid>)
    requires Apart(c, jobs) && key in jobs
    ensures key in c.groupJobs && c.groupJobs[key].uid == jobs[key]
    ensures AllOwn(c, key, jobs[key]) && OwnWorkers(c.pods, key, jobs[key]) && ViewOk(c)
  {
    hide OwnWorkers, NoForeignObjects, ViewOk;
  }

  lemma OwnUids(c: Cluster, jobs: map<Key, Uid>)
    requires Apart(c, jobs)
    ensures UidsApart(c, jobs)
  {
    hide AllOwn;
  }

  /** Is each job tidy, with at most three less the syncs it has had to go? */
  ghost predicate OnTheWay(c: Cluster, turns: seq<Key>, i: nat, gang: Option<GangScheduler>, jobs: map<Key, Uid>)
    requires i <= |turns|
  {
    forall key :: key in jobs ==>
      key in c.groupJobs && Tidy(c, key) && SettlesIn(c, gang, key, ToGo(turns, i, key))
  }

  /** In every state of such a run each job is. */
  lemma {:induction false} SharedRunKeeps(run: seq<Cluster>, turns: seq<Key>, i: nat, gang: Option<GangScheduler>,
                                          jobs: map<Key, Uid>)
    requires |run| == |turns| + 1 && i <= |turns| && IsSharedRun(run, turns, gang, jobs)
    ensures Apart(run[i], jobs) && OnTheWay(run[i], turns, i, gang, jobs)
  {
    hide Apart, OnTheWay, CalmRound, Tidy, Active, Schedulable, JobAt;
    if i == 0 {
      AtTheStart(run[0], turns, gang, jobs);
    } else {
      SharedRunKeeps(run, turns, i - 1, gang, jobs);
      var turn := turns[i - 1];
      assert TurnAt(run, i - 1, gang, turn, jobs);
      var env :| TurnBy(run, i - 1, env, gang, turn, jobs);
      StaysApart(run[i - 1], run[i], env, gang, turn, jobs);
      AllTurn(run[i - 1], run[i], env, gang, turns, i - 1, jobs);
    }
  }

  lemma AtTheStart(c: Cluster, turns: seq<Key>, gang: Option<GangScheduler>, jobs: map<Key, Uid>)
    requires Apart(c, jobs)
    requires forall key :: key in jobs ==>
               Tidy(c, key) && (Active(c, key) ==> Schedulable(gang, JobAt(c, key), c.priorityClasses))
    ensures OnTheWay(c, turns, 0, gang, jobs)
  {
    hide Tidy, SettlesIn, AllOwn, Active, Schedulable, Default;
    forall key | key in jobs ensures SettlesIn(c, gang, key, ToGo(turns, 0, key)) {
      StartsWithThree(c, gang, key);
    }
  }

  lemma AllTurn(c: Cluster, c': Cluster, env: Env, gang: Option<GangScheduler>, turns: seq<Key>, i: nat,
                jobs: map<Key, Uid>)
    requires i < |turns| && turns[i] in jobs && turns[i] in c.groupJobs && Apart(c, jobs) && Apart(c', jobs)
    requires OnTheWay(c, turns, i, gang, jobs) && CalmRound(c, c', env, gang, turns[i])
    ensures OnTheWay(c', turns, i + 1, gang, jobs)
  {
    hide Apart, Tidy, SettlesIn, CalmRound, TurnsOf;
    forall key | key in jobs
      ensures key in c'.groupJobs && Tidy(c', key) && SettlesIn(c', gang, key, ToGo(turns, i + 1, key))
    {
      OwnParts(c', key, jobs);
      TurnsStep(turns, i, key);
      OneTurn(c, c', env, gang, turns[i], key, jobs, ToGo(turns, i, key));
    }
  }

  /** However calm syncs of several jobs are interleaved, a job that has had three of its own is steady from
      then on. */
  lemma SteadyAfterThreeTurns(run: seq<Cluster>, turns: seq<Key>, i: nat, gang: Option<GangScheduler>,
                              jobs: map<Key, Uid>, key: Key)
    requires IsSharedRun(run, turns, gang, jobs) && i < |run| && key in jobs && TurnsOf(turns, i, key) >= 3
    ensures key in run[i].groupJobs && Steady(run[i], gang, key)
  {
    hide Tidy, SettlesIn, AllOwn, TurnAt, Steady, Default, Active, Schedulable, OwnWorkers;
    SharedRunKeeps(run, turns, i, gang, jobs);
    OwnParts(run[i], key, jobs);
    hide Apart, IsSharedRun;
    NoneToGoIsSteady(run[i], gang, key);
  }

  /** Once every job has had three, nothing in the cluster changes any more. */
  lemma {:induction false} AllSettled(run: seq<Cluster>, turns: seq<Key>, i: nat, j: nat, gang: Option<GangScheduler>,
                                      jobs: map<Key, Uid>)
    requires IsSharedRun(run, turns, gang, jobs) && i <= j < |run|
    requires forall key :: key in jobs ==> TurnsOf(turns, i, key) >= 3
    ensures run[j] == run[i]
    decreases j
  {
    hide Tidy, AllOwn, CalmRound, Steady, Default, Active, Schedulable, Apart;
    if i < j {
      AllSettled(run, turns, i, j - 1, gang, jobs);
      var turn := turns[j - 1];
      SteadyAfterThreeTurns(run, turns, i, gang, jobs, turn);
      assert TurnAt(run, j - 1, gang, turn, jobs);
      var env :| TurnBy(run, j - 1, env, gang, turn, jobs);
      SteadyRound(run[j - 1], run[j], env, gang, turn);
    }
  }
}
