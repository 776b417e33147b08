/** Non-interference: a sync of one job leaves alone whatever other jobs control, in every run and
    from snapshots however stale (the ownership checks, names and labels of
    pkg/controller/mpi_job_controller.go). */
module Isolation {
  import opened Types
  import opened Names
  import opened Listings
  import opened PodGroups
  import opened Api
  import opened Objects
  import opened Workers
  import opened Reconcile
  import opened Runs
  import opened Scaling
  import opened Status
  import opened Defaults
  import opened Validation

  /** Which GroupJob each uid has ever been given to. */
  type Registry = map<Uid, Key>

  /** Is the object controlled by a GroupJob other than those called `key`? */
  predicate Foreign(owner: Option<Uid>, reg: Registry, key: Key) {
    owner.Some? && owner.value in reg && reg[owner.value] != key
  }

  /* ---- Where a job's objects are ---- */

  /** Who controls the objects in `m`. */
  ghost function Owners<V>(m: map<Key, V>, owner: V -> Option<Uid>): map<Key, Option<Uid>> {
    map k | k in m :: owner(m[k])
  }

  ghost predicate At(owners: map<Key, Option<Uid>>, reg: Registry, place: Key -> Key) {
    forall k :: k in owners && owners[k].Some? && owners[k].value in reg ==> k == place(reg[owners[k].value])
  }

  ghost predicate IsWorkerKey(k: Key, key: Key) {
    exists i: nat :: k == WorkerKey(key, i)
  }

  /** Pods that a job controls have its workers' names, and so have pods with its worker labels. */
  ghost predicate PodPlaced(k: Key, pod: Pod, reg: Registry) {
    && (pod.owner.Some? && pod.owner.value in reg ==> IsWorkerKey(k, reg[pod.owner.value]))
    && (forall key: Key :: k.namespace == key.namespace && WorkerSelects(key.name, pod.labels) ==> IsWorkerKey(k, key))
  }

  ghost predicate PodsPlaced(pods: map<Key, Pod>, reg: Registry) {
    forall k :: k in pods ==> PodPlaced(k, pods[k], reg)
  }

  ghost predicate JobsRegistered(jobs: map<Key, GroupJob>, reg: Registry) {
    forall k :: k in jobs ==> jobs[k].uid in reg && reg[jobs[k].uid] == k
  }

  function ServiceOwner(): Service -> Option<Uid> { (s: Service) => s.owner }
  function ConfigMapOwner(): ConfigMap -> Option<Uid> { (m: ConfigMap) => m.owner }
  function SecretOwner(): Secret -> Option<Uid> { (s: Secret) => s.owner }
  function PodGroupOwner(): PodGroup -> Option<Uid> { (g: PodGroup) => g.owner }
  function LauncherOwner(): BatchJob -> Option<Uid> { (j: BatchJob) => j.owner }
  function PodOwner(): Pod -> Option<Uid> { (p: Pod) => p.owner }
  function Same(): Key -> Key { k => k }
  function Config(): Key -> Key { k => ConfigKey(k) }
  function Ssh(): Key -> Key { k => SecretKey(k) }
  function LauncherAt(): Key -> Key { k => LauncherKey(k) }

  /** Everything a job controls is where the operator puts that job's objects. */
  ghost predicate Placed(c: Cluster, reg: Registry) {
    && JobsRegistered(c.groupJobs, reg)
    && At(Owners(c.services, ServiceOwner()), reg, Same())
    && At(Owners(c.configMaps, ConfigMapOwner()), reg, Config())
    && At(Owners(c.secrets, SecretOwner()), reg, Ssh())
    && At(Owners(c.podGroups, PodGroupOwner()), reg, Same())
    && At(Owners(c.jobs, LauncherOwner()), reg, LauncherAt())
    && PodsPlaced(c.pods, reg)
  }

  /** The objects in `m` that jobs other than those called `key` control. */
  ghost function Others<V>(m: map<Key, V>, owner: V -> Option<Uid>, reg: Registry, key: Key): map<Key, V> {
    map k | k in m && Foreign(owner(m[k]), reg, key) :: m[k]
  }

  ghost predicate OthersUntouched(c: Cluster, c': Cluster, reg: Registry, key: Key) {
    && c'.groupJobs - {key} == c.groupJobs - {key}
    && Others(c'.services, ServiceOwner(), reg, key) == Others(c.services, ServiceOwner(), reg, key)
    && Others(c'.configMaps, ConfigMapOwner(), reg, key) == Others(c.configMaps, ConfigMapOwner(), reg, key)
    && Others(c'.secrets, SecretOwner(), reg, key) == Others(c.secrets, SecretOwner(), reg, key)
    && Others(c'.podGroups, PodGroupOwner(), reg, key) == Others(c.podGroups, PodGroupOwner(), reg, key)
    && Others(c'.jobs, LauncherOwner(), reg, key) == Others(c.jobs, LauncherOwner(), reg, key)
    && Others(c'.pods, PodOwner(), reg, key) == Others(c.pods, PodOwner(), reg, key)
  }

  /* ---- What a sync touches ---- */

  /** Is what `m'` has at `k` controlled by `uid`, or by whoever controlled what was there before? */
  ghost predicate NotPlanted<V>(m: map<Key, V>, m': map<Key, V>, owner: V -> Option<Uid>, k: Key, uid: Uid) {
    k in m' ==> owner(m'[k]) == Some(uid) || (k in m && owner(m'[k]) == owner(m[k]))
  }

  /** Does `m'` differ from `m` at `k` at most, with nobody else's object put there? */
  ghost predicate Touches<V>(m: map<Key, V>, m': map<Key, V>, owner: V -> Option<Uid>, k: Key, uid: Uid) {
    SameExcept(m, m', k) && NotPlanted(m, m', owner, k, uid)
  }

  lemma SameElsewhere<V>(m: map<Key, V>, m': map<Key, V>, k0: Key, k: Key)
    requires SameExcept(m, m', k0) && k != k0
    ensures (k in m <==> k in m') && (k in m ==> m[k] == m'[k])
  {
    assert k in m <==> k in m - {k0};
    assert k in m' <==> k in m' - {k0};
    if k in m {
      assert (m - {k0})[k] == m[k] && (m' - {k0})[k] == m'[k];
    }
  }

  /** A change at the job's own place keeps everything in place and everything foreign as it was. */
  lemma TouchesKeeps<V>(m: map<Key, V>, m': map<Key, V>, owner: V -> Option<Uid>, place: Key -> Key, key: Key,
                        uid: Uid, reg: Registry)
    requires Touches(m, m', owner, place(key), uid) && uid in reg && reg[uid] == key
    requires At(Owners(m, owner), reg, place) && forall a, b :: place(a) == place(b) ==> a == b
    ensures At(Owners(m', owner), reg, place)
    ensures Others(m', owner, reg, key) == Others(m, owner, reg, key)
  {
    TouchesKeepsPlaces(m, m', owner, place, key, uid, reg);
    OthersElsewhere(m, owner, place, key, reg);
    OthersElsewhere(m', owner, place, key, reg);
    assert (m' - {place(key)}) == (m - {place(key)});
  }

  /** What others control is not at the job's place. */
  lemma OthersElsewhere<V>(m: map<Key, V>, owner: V -> Option<Uid>, place: Key -> Key, key: Key, reg: Registry)
    requires At(Owners(m, owner), reg, place) && forall a, b :: place(a) == place(b) ==> a == b
    ensures Others(m, owner, reg, key) == Others(m - {place(key)}, owner, reg, key)
  {
    var k0 := place(key);
    if k0 in m {
      assert Owners(m, owner)[k0] == owner(m[k0]);
      assert !Foreign(owner(m[k0]), reg, key);
    }
  }

  lemma TouchesKeepsPlaces<V>(m: map<Key, V>, m': map<Key, V>, owner: V -> Option<Uid>, place: Key -> Key, key: Key,
                              uid: Uid,
                              reg: Registry)
    requires Touches(m, m', owner, place(key), uid) && uid in reg && reg[uid] == key
    requires At(Owners(m, owner), reg, place)
    ensures At(Owners(m', owner), reg, place)
  {
    forall k | k in m' && owner(m'[k]).Some? && owner(m'[k]).value in reg ensures k == place(reg[owner(m'[k]).value]) {
      if k != place(key) {
        SameElsewhere(m, m', place(key), k);
      }
      assert k in m ==> Owners(m, owner)[k] == owner(m[k]);
    }
  }

  /** Who syncs: the job and its uid, the uid its launcher would get, and the pods its selector matches in
      the snapshot. */
  datatype Actor = Actor(key: Key, uid: Uid, launcherUid: Uid, selected: set<Key>)

  ghost predicate Acts(actor: Actor, view: Cluster, env: Env, key: Key, job: GroupJob) {
    actor == Actor(key, job.uid, env.launcherUid, WorkerKeys(view.pods, key))
  }

  /** Pods are taken away at the job's workers' names, or where the selector matched in the snapshot, and
      every pod that is there is an old one or a new worker of the job. */
  ghost predicate PodsTouched(pods: map<Key, Pod>, pods': map<Key, Pod>, actor: Actor) {
    && (forall k :: k in pods && k !in pods' ==> IsWorkerKey(k, actor.key) || k in actor.selected)
    && (forall k :: k in pods' ==> (k in pods && pods'[k] == pods[k]) || IsWorkerAt(pods', actor.key, actor.uid, k))
  }

  lemma PodsTouchedTrans(a: map<Key, Pod>, b: map<Key, Pod>, c: map<Key, Pod>, actor: Actor)
    requires PodsTouched(a, b, actor) && PodsTouched(b, c, actor)
    ensures PodsTouched(a, c, actor)
  {
    hide IsWorkerKey, IsWorker;
    forall k | k in c ensures (k in a && c[k] == a[k]) || IsWorkerAt(c, actor.key, actor.uid, k) {
      assert k in b && c[k] == b[k] && IsWorkerAt(b, actor.key, actor.uid, k) ==>
               IsWorkerAt(c, actor.key, actor.uid, k);
    }
  }

  /** A worker's name belongs to one job. */
  lemma WorkerKeyOfOne(k: Key, a: Key, b: Key)
    requires IsWorkerKey(k, a) && IsWorkerKey(k, b)
    ensures a == b
  {
    var i: nat :| k == WorkerKey(a, i);
    var j: nat :| k == WorkerKey(b, j);
    WorkerKeyInjective(a, i, b, j);
  }

  lemma NewWorkerFacts(pods: map<Key, Pod>, key: Key, uid: Uid, k: Key)
    requires k in pods && IsWorkerAt(pods, key, uid, k)
    ensures IsWorkerKey(k, key) && pods[k].owner == Some(uid) && WorkerSelects(key.name, pods[k].labels)
  {
  }

  /** From a snapshot in which the selector matches the job's own workers only, pods stay placed and other
      jobs' pods as they were. */
  lemma PodsTouchedKeeps(pods: map<Key, Pod>, pods': map<Key, Pod>, actor: Actor, reg: Registry)
    requires PodsTouched(pods, pods', actor) && PodsPlaced(pods, reg) && actor.uid in reg && reg[actor.uid] == actor.key
    requires forall k :: k in actor.selected ==> IsWorkerKey(k, actor.key)
    ensures PodsPlaced(pods', reg)
    ensures Others(pods', PodOwner(), reg, actor.key) == Others(pods, PodOwner(), reg, actor.key)
  {
    hide IsWorkerKey, IsWorkerAt;
    forall k | k in pods' ensures PodPlaced(k, pods'[k], reg) {
      if k !in pods || pods'[k] != pods[k] {
        NewWorkerFacts(pods', actor.key, actor.uid, k);
        NewPodPlaced(k, pods'[k], actor.key, actor.uid, reg);
      }
    }
    forall k | k in pods && Foreign(pods[k].owner, reg, actor.key) ensures k in pods' && pods'[k] == pods[k] {
      assert PodPlaced(k, pods[k], reg);
      if IsWorkerKey(k, actor.key) {
        WorkerKeyOfOne(k, actor.key, reg[pods[k].owner.value]);
      }
      if k in pods' && pods'[k] != pods[k] {
        NewWorkerFacts(pods', actor.key, actor.uid, k);
      }
    }
    forall k | k in pods' && Foreign(pods'[k].owner, reg, actor.key) ensures k in pods && pods'[k] == pods[k] {
      if k !in pods || pods'[k] != pods[k] {
        NewWorkerFacts(pods', actor.key, actor.uid, k);
      }
    }
  }

  lemma NewPodPlaced(k: Key, pod: Pod, key: Key, uid: Uid, reg: Registry)
    requires IsWorkerKey(k, key) && pod.owner == Some(uid) && WorkerSelects(key.name, pod.labels)
    requires uid in reg && reg[uid] == key
    ensures PodPlaced(k, pod, reg)
  {
    hide IsWorkerKey;
    forall other: Key | k.namespace == other.namespace && WorkerSelects(other.name, pod.labels)
      ensures IsWorkerKey(k, other)
    {
      assert k.namespace == key.namespace by {
        WorkerNamespace(k, key);
      }
      assert other == key;
    }
  }

  lemma WorkerNamespace(k: Key, key: Key)
    requires IsWorkerKey(k, key)
    ensures k.namespace == key.namespace
  {
  }

  /** The launcher is the old one but for its suspend flag, or a new one. */
  ghost predicate LauncherTouched(jobs: map<Key, BatchJob>, jobs': map<Key, BatchJob>, actor: Actor) {
    var k := LauncherKey(actor.key);
    k in jobs' ==>
      || (k in jobs && jobs'[k] == jobs[k].(suspend := jobs'[k].suspend))
      || (jobs'[k].uid == actor.launcherUid && jobs'[k].conditions == [])
  }

  /** All that a sync may do to a cluster. */
  ghost predicate Touched(c: Cluster, c': Cluster, actor: Actor) {
    && SameExcept(c.groupJobs, c'.groupJobs, actor.key)
    && (actor.key in c'.groupJobs ==>
          actor.key in c.groupJobs && c'.groupJobs[actor.key].uid == c.groupJobs[actor.key].uid)
    && Touches(c.services, c'.services, ServiceOwner(), actor.key, actor.uid)
    && Touches(c.configMaps, c'.configMaps, ConfigMapOwner(), ConfigKey(actor.key), actor.uid)
    && Touches(c.secrets, c'.secrets, SecretOwner(), SecretKey(actor.key), actor.uid)
    && Touches(c.podGroups, c'.podGroups, PodGroupOwner(), actor.key, actor.uid)
    && Touches(c.jobs, c'.jobs, LauncherOwner(), LauncherKey(actor.key), actor.uid)
    && LauncherTouched(c.jobs, c'.jobs, actor) && PodsTouched(c.pods, c'.pods, actor)
  }

  lemma TouchedTrans(a: Cluster, b: Cluster, c: Cluster, actor: Actor)
    requires Touched(a, b, actor) && Touched(b, c, actor)
    ensures Touched(a, c, actor)
  {
    hide PodsTouched, ConfigKey, SecretKey, LauncherKey;
    PodsTouchedTrans(a.pods, b.pods, c.pods, actor);
  }

  lemma Untouched(c: Cluster, actor: Actor)
    ensures Touched(c, c, actor)
  {
    hide ConfigKey, SecretKey, LauncherKey, IsWorkerAt, IsWorkerKey;
  }

  lemma InjectivePlaces()
    ensures forall a, b :: Config()(a) == Config()(b) ==> a == b
    ensures forall a, b :: Ssh()(a) == Ssh()(b) ==> a == b
    ensures forall a, b :: LauncherAt()(a) == LauncherAt()(b) ==> a == b
  {
    forall a, b | Config()(a) == Config()(b) ensures a == b {
      SuffixCancels(a.name, b.name, CONFIG_SUFFIX);
    }
    forall a, b | Ssh()(a) == Ssh()(b) ensures a == b {
      SuffixCancels(a.name, b.name, SSH_SUFFIX);
    }
    forall a, b | LauncherAt()(a) == LauncherAt()(b) ensures a == b {
      SuffixCancels(a.name, b.name, LAUNCHER_SUFFIX);
    }
  }

  lemma TouchedKeeps(c: Cluster, c': Cluster, actor: Actor, reg: Registry)
    requires Touched(c, c', actor) && Placed(c, reg) && actor.uid in reg && reg[actor.uid] == actor.key
    requires forall k :: k in actor.selected ==> IsWorkerKey(k, actor.key)
    ensures Placed(c', reg) && OthersUntouched(c, c', reg, actor.key)
  {
    hide ConfigKey, SecretKey, LauncherKey, PodsTouched, PodsPlaced, Touches, At, Others, LauncherTouched, IsWorkerKey;
    var key, uid := actor.key, actor.uid;
    InjectivePlaces();
    TouchesKeeps(c.services, c'.services, ServiceOwner(), Same(), key, uid, reg);
    TouchesKeeps(c.configMaps, c'.configMaps, ConfigMapOwner(), Config(), key, uid, reg);
    TouchesKeeps(c.secrets, c'.secrets, SecretOwner(), Ssh(), key, uid, reg);
    TouchesKeeps(c.podGroups, c'.podGroups, PodGroupOwner(), Same(), key, uid, reg);
    TouchesKeeps(c.jobs, c'.jobs, LauncherOwner(), LauncherAt(), key, uid, reg);
    PodsTouchedKeeps(c.pods, c'.pods, actor, reg);
    JobsKept(c.groupJobs, c'.groupJobs, key, reg);
  }

  lemma JobsKept(m: map<Key, GroupJob>, m': map<Key, GroupJob>, key: Key, reg: Registry)
    requires SameExcept(m, m', key) && JobsRegistered(m, reg)
    requires key in m' ==> key in m && m'[key].uid == m[key].uid
    ensures JobsRegistered(m', reg)
  {
    forall k | k in m' ensures m'[k].uid in reg && reg[m'[k].uid] == k {
      if k != key {
        SameElsewhere(m, m', key, k);
      }
    }
  }

  /* ---- Step by step ---- */

  lemma ServiceTouches(actor: Actor, view: Cluster, live: Cluster, env: Env, key: Key, job: GroupJob)
    requires Acts(actor, view, env, key, job)
    ensures Touched(live, EnsureService(view, live, env, key, job).live, actor)
  {
    hide ConfigKey, SecretKey, LauncherKey, PodsTouched, WorkerKeys;
    Untouched(live, actor);
  }

  lemma ConfigMapTouches(actor: Actor, view: Cluster, live: Cluster, env: Env, key: Key, job: GroupJob)
    requires Acts(actor, view, env, key, job)
    ensures Touched(live, EnsureConfigMap(view, live, env, key, job).live, actor)
  {
    hide ConfigKey, SecretKey, LauncherKey, PodsTouched, WorkerKeys;
    Untouched(live, actor);
  }

  lemma SecretTouches(actor: Actor, view: Cluster, live: Cluster, env: Env, key: Key, job: GroupJob)
    requires Acts(actor, view, env, key, job)
    ensures Touched(live, EnsureSecret(view, live, env, key, job).live, actor)
  {
    hide ConfigKey, SecretKey, LauncherKey, PodsTouched, WorkerKeys;
    Untouched(live, actor);
  }

  lemma GangTouches(actor: Actor, view: Cluster, live: Cluster, env: Env, key: Key, job: GroupJob)
    requires Acts(actor, view, env, key, job)
    ensures Touched(live, EnsureGang(view, live, env, key, job).live, actor)
  {
    hide ConfigKey, SecretKey, LauncherKey, PodsTouched, WorkerKeys, NewPodGroupSpec;
    Untouched(live, actor);
  }

  lemma RemovePodGroupTouches(actor: Actor, view: Cluster, live: Cluster, env: Env, key: Key, job: GroupJob)
    requires Acts(actor, view, env, key, job)
    ensures Touched(live, RemovePodGroup(view, live, env, key, job).live, actor)
  {
    hide ConfigKey, SecretKey, LauncherKey, PodsTouched, WorkerKeys;
    Untouched(live, actor);
  }

  lemma LauncherTouches(actor: Actor, view: Cluster, live: Cluster, env: Env, key: Key, job: GroupJob,
                        launcher: Option<BatchJob>, workers: seq<Pod>)
    requires Acts(actor, view, env, key, job)
    ensures Touched(live, EnsureLauncher(live, env, key, job, launcher, workers).live, actor)
  {
    hide ConfigKey, SecretKey, LauncherKey, PodsTouched, WorkerKeys, LauncherMayStart;
    Untouched(live, actor);
  }

  lemma AlignTouches(actor: Actor, view: Cluster, live: Cluster, env: Env, key: Key, job: GroupJob,
                     launcher: Option<BatchJob>)
    requires Acts(actor, view, env, key, job)
    ensures Touched(live, AlignLauncher(live, env, key, job, launcher).live, actor)
  {
    hide ConfigKey, SecretKey, LauncherKey, PodsTouched, WorkerKeys;
    Untouched(live, actor);
  }

  lemma WriteTouches(actor: Actor, view: Cluster, live: Cluster, env: Env, key: Key, status: JobStatus)
    requires key in view.groupJobs && actor.key == key
    ensures Touched(live, WriteStatus(view, live, env, key, status).live, actor)
  {
    hide ConfigKey, SecretKey, LauncherKey, PodsTouched;
    Untouched(live, actor);
  }

  lemma PodsOnly(c: Cluster, pods: map<Key, Pod>, actor: Actor)
    requires PodsTouched(c.pods, pods, actor)
    ensures Touched(c, c.(pods := pods), actor)
  {
    hide ConfigKey, SecretKey, LauncherKey, PodsTouched;
    Untouched(c, actor);
  }

  lemma PodRemoved(c: Cluster, k: Key, actor: Actor)
    requires IsWorkerKey(k, actor.key) || k in actor.selected
    ensures Touched(c, c.(pods := c.pods - {k}), actor)
  {
    hide IsWorkerKey;
    PodsOnly(c, c.pods - {k}, actor);
  }

  lemma PodCreated(c: Cluster, i: nat, actor: Actor, job: GroupJob, w: ReplicaSpec, env: Env)
    requires WorkerKey(actor.key, i) !in c.pods && i < INDEX_LIMIT && actor.uid == job.uid
    ensures Touched(c, c.(pods := c.pods[WorkerKey(actor.key, i) := NewWorker(actor.key, job, w, i, env)]), actor)
  {
    var k, pod := WorkerKey(actor.key, i), NewWorker(actor.key, job, w, i, env);
    NewWorkerIsWorker(actor.key, job, w, i, env);
    assert IsWorkerAt(c.pods[k := pod], actor.key, actor.uid, k);
    hide IsWorkerKey, WorkerKey, NewWorker, WorkerSelects, IsWorkerAt;
    PodsOnly(c, c.pods[k := pod], actor);
  }

  /** The scale-down loop deletes only what the selector matched in the snapshot. */
  lemma {:induction false} DeleteSurplusTouches(actor: Actor, view: Cluster, live: Cluster, env: Env, keys: seq<Key>,
                                                n: int)
    requires forall k :: k in keys ==> k in actor.selected
    ensures Touched(live, DeleteSurplus(view, live, env, keys, n).live, actor)
    decreases keys
  {
    hide IsWorkerKey, Touched;
    Untouched(live, actor);
    if keys != [] {
      var k, rest := keys[0], keys[1..];
      PodRemoved(live, k, actor);
      DeleteSurplusTouches(actor, view, live, env, rest, n);
      var removed := live.(pods := live.pods - {k});
      DeleteSurplusTouches(actor, view, removed, env, rest, n);
      TouchedTrans(live, removed, DeleteSurplus(view, removed, env, rest, n).live, actor);
    }
  }

  lemma {:induction false} EnsureWorkersTouches(actor: Actor, view: Cluster, live: Cluster, env: Env, key: Key,
                                                job: GroupJob, w: ReplicaSpec, i: nat, n: int, found: seq<Pod>)
    requires actor.key == key && actor.uid == job.uid && n < INDEX_LIMIT
    ensures Touched(live, EnsureWorkers(view, live, env, key, job, w, i, n, found).live, actor)
    decreases n - i
  {
    hide Touched, NewWorker, WorkerKey;
    Untouched(live, actor);
    if i < n {
      var k, pod := WorkerKey(key, i), NewWorker(key, job, w, i, env);
      if k in view.pods {
        EnsureWorkersTouches(actor, view, live, env, key, job, w, i + 1, n, found + [view.pods[k]]);
      } else if k !in live.pods {
        var created := live.(pods := live.pods[k := pod]);
        PodCreated(live, i, actor, job, w, env);
        EnsureWorkersTouches(actor, view, created, env, key, job, w, i + 1, n, found + [pod]);
        TouchedTrans(live, created, EnsureWorkers(view, created, env, key, job, w, i + 1, n, found + [pod]).live,
            actor);
      }
    }
  }

  lemma {:induction false} DeleteWorkersTouches(actor: Actor, view: Cluster, live: Cluster, env: Env, key: Key,
                                                job: GroupJob, i: nat, n: int)
    requires actor.key == key
    ensures Touched(live, DeleteWorkers(view, live, env, key, job, i, n).live, actor)
    decreases n - i
  {
    hide Touched, WorkerKey, KeepsPod;
    Untouched(live, actor);
    if i < n {
      var k := WorkerKey(key, i);
      var removed := live.(pods := live.pods - {k});
      PodRemoved(live, k, actor);
      DeleteWorkersTouches(actor, view, live, env, key, job, i + 1, n);
      DeleteWorkersTouches(actor, view, removed, env, key, job, i + 1, n);
      TouchedTrans(live, removed, DeleteWorkers(view, removed, env, key, job, i + 1, n).live, actor);
    }
  }

  lemma SelectedAreSelected(view: Cluster, order: seq<Key>, key: Key)
    ensures forall k :: k in SelectedPods(view, order, key) ==> k in WorkerKeys(view.pods, key)
  {
    hide WorkerSelects;
    FilterMembers(order, WorkerFilter(view.pods, key));
  }

  lemma GetWorkersTouches(actor: Actor, view: Cluster, live: Cluster, env: Env, key: Key, job: GroupJob)
    requires Acts(actor, view, env, key, job)
    ensures Touched(live, GetWorkers(view, live, env, key, job).live, actor)
  {
    hide Touched, EnsureWorkers, DeleteSurplus, SelectedPods, WorkerKeys;
    Untouched(live, actor);
    if job.spec.Replica(Worker).Some? {
      var n, w := job.spec.WorkerReplicas(), job.spec.Replica(Worker).value;
      var keys := SelectedPods(view, env.workerOrder, key);
      SelectedAreSelected(view, env.workerOrder, key);
      DeleteSurplusTouches(actor, view, live, env, keys, n);
      var scaled := if |keys| > n then DeleteSurplus(view, live, env, keys, n) else Scaled(live);
      EnsureWorkersTouches(actor, view, scaled.live, env, key, job, w, 0, n, []);
      TouchedTrans(live, scaled.live, EnsureWorkers(view, scaled.live, env, key, job, w, 0, n, []).live, actor);
    }
  }

  lemma CleanUpTouches(actor: Actor, view: Cluster, live: Cluster, env: Env, key: Key, job: GroupJob)
    requires Acts(actor, view, env, key, job)
    ensures Touched(live, CleanUp(view, live, env, key, job).live, actor)
  {
    hide Touched, DeleteWorkers, RemovePodGroup, WorkerKeys;
    var n := job.spec.WorkerReplicas();
    var deleted := DeleteWorkers(view, live, env, key, job, 0, n).live;
    DeleteWorkersTouches(actor, view, live, env, key, job, 0, n);
    RemovePodGroupTouches(actor, view, deleted, env, key, job);
    TouchedTrans(live, deleted, RemovePodGroup(view, deleted, env, key, job).live, actor);
  }

  lemma EnsureObjectsTouches(actor: Actor, view: Cluster, live: Cluster, env: Env, key: Key, job: GroupJob)
    requires Acts(actor, view, env, key, job)
    ensures Touched(live, EnsureObjects(view, live, env, key, job).live, actor)
  {
    hide Touched, EnsureService, EnsureConfigMap, EnsureSecret, EnsureGang, GetWorkers, Acts;
    var r1 := EnsureService(view, live, env, key, job).live;
    ServiceTouches(actor, view, live, env, key, job);
    var r2 := EnsureConfigMap(view, r1, env, key, job).live;
    ConfigMapTouches(actor, view, r1, env, key, job);
    TouchedTrans(live, r1, r2, actor);
    var r3 := EnsureSecret(view, r2, env, key, job).live;
    SecretTouches(actor, view, r2, env, key, job);
    TouchedTrans(live, r2, r3, actor);
    var r4 := EnsureGang(view, r3, env, key, job).live;
    GangTouches(actor, view, r3, env, key, job);
    TouchedTrans(live, r3, r4, actor);
    GetWorkersTouches(actor, view, r4, env, key, job);
    TouchedTrans(live, r4, GetWorkers(view, r4, env, key, job).live, actor);
  }

  lemma PrepareTouches(actor: Actor, view: Cluster, live: Cluster, env: Env, key: Key, job: GroupJob)
    requires Acts(actor, view, env, key, job)
    ensures Touched(live, Prepare(view, live, env, key, job).live, actor)
  {
    hide Touched, EnsureObjects, EnsureLauncher, FindLauncher, Acts;
    Untouched(live, actor);
    EnsureObjectsTouches(actor, view, live, env, key, job);
    var ensured := EnsureObjects(view, live, env, key, job);
    if ensured.Ok? {
      var found := FindLauncher(view, key);
      LauncherTouches(actor, view, ensured.live, env, key, job, found, ensured.value);
      TouchedTrans(live, ensured.live, EnsureLauncher(ensured.live, env, key, job, found, ensured.value).live, actor);
    }
  }

  lemma ActTouches(actor: Actor, view: Cluster, live: Cluster, env: Env, key: Key, job: GroupJob)
    requires Acts(actor, view, env, key, job)
    ensures Touched(live, Act(view, live, env, key, job).live, actor)
  {
    hide Touched, Prepare, AlignLauncher, CleanUp, FindLauncher, Acts;
    Untouched(live, actor);
    PrepareTouches(actor, view, live, env, key, job);
    var prepared := Prepare(view, live, env, key, job);
    if prepared.Ok? {
      var aligned := AlignLauncher(prepared.live, env, key, job, prepared.value.0);
      AlignTouches(actor, view, prepared.live, env, key, job, prepared.value.0);
      TouchedTrans(live, prepared.live, aligned.live, actor);
      CleanUpTouches(actor, view, aligned.live, env, key, job);
      TouchedTrans(live, aligned.live, CleanUp(view, aligned.live, env, key, job).live, actor);
    }
  }

  lemma TerminalTouches(actor: Actor, view: Cluster, live: Cluster, env: Env, key: Key, job: GroupJob, s: JobStatus)
    requires key in view.groupJobs && Acts(actor, view, env, key, job)
    ensures Touched(live, SyncTerminal(view, live, env, key, job, s).live, actor)
  {
    hide Touched, CleanUp, WriteStatus, WorkerKeys;
    Untouched(live, actor);
    CleanUpTouches(actor, view, live, env, key, job);
    var cleaned := CleanUp(view, live, env, key, job).live;
    WriteTouches(actor, view, cleaned, env, key, CleanedStatus(s));
    TouchedTrans(live, cleaned, WriteStatus(view, cleaned, env, key, CleanedStatus(s)).live, actor);
  }

  lemma ActiveTouches(actor: Actor, view: Cluster, live: Cluster, env: Env, key: Key, job: GroupJob, s: JobStatus)
    requires key in view.groupJobs && Acts(actor, view, env, key, job)
    ensures Touched(live, SyncActive(view, live, env, key, job, s).live, actor)
  {
    hide Touched, Act, WriteStatus, ComputeStatus, LauncherPods, WorkerKeys;
    ActTouches(actor, view, live, env, key, job);
    var acted := Act(view, live, env, key, job);
    if acted.Ok? {
      var r := SyncActive(view, live, env, key, job, s);
      WriteTouches(actor, view, acted.live, env, key, r.computed.value);
      TouchedTrans(live, acted.live, WriteStatus(view, acted.live, env, key, r.computed.value).live, actor);
    }
  }

  /** What a sync may do, from any snapshot and with any failing calls. */
  lemma SyncTouches(view: Cluster, live: Cluster, env: Env, key: Key)
    requires key in view.groupJobs
    ensures Touched(live, Sync(view, live, env, key).live,
                    Actor(key, view.groupJobs[key].uid, env.launcherUid, WorkerKeys(view.pods, key)))
  {
    hide Touched, SyncActive, SyncTerminal, Default, Accepts, IsTerminal, MarkCreated, MarkStarted, WorkerKeys;
    var job := DefaultedJob(view.groupJobs[key]);
    var actor := Actor(key, job.uid, env.launcherUid, WorkerKeys(view.pods, key));
    var status := MarkCreated(job.status, env.now);
    Untouched(live, actor);
    TerminalTouches(actor, view, live, env, key, job, status);
    ActiveTouches(actor, view, live, env, key, job, MarkStarted(status, job.spec.Suspended(), env.now));
  }

  lemma SelectedAreWorkers(view: Cluster, key: Key, reg: Registry)
    requires PodsPlaced(view.pods, reg)
    ensures forall k :: k in WorkerKeys(view.pods, key) ==> IsWorkerKey(k, key)
  {
    hide IsWorkerKey, WorkerSelects;
    forall k | k in WorkerKeys(view.pods, key) ensures IsWorkerKey(k, key) {
      assert PodPlaced(k, view.pods[k], reg);
    }
  }

  /** A sync of one job never creates over, changes or deletes an object that another job controls,
      and never touches another GroupJob, however stale its snapshot and whatever calls fail. */
  lemma SyncLeavesOthersAlone(view: Cluster, live: Cluster, env: Env, key: Key, reg: Registry)
    requires Placed(live, reg) && PodsPlaced(view.pods, reg) && JobsRegistered(view.groupJobs, reg)
    ensures var r := Sync(view, live, env, key).live;
            Placed(r, reg) && OthersUntouched(live, r, reg, key)
  {
    hide Placed, Touched, OthersUntouched, PodsPlaced, Sync, WorkerKeys, IsWorkerKey;
    if key in view.groupJobs {
      SyncTouches(view, live, env, key);
      SelectedAreWorkers(view, key, reg);
      TouchedKeeps(live, Sync(view, live, env, key).live,
                   Actor(key, view.groupJobs[key].uid, env.launcherUid, WorkerKeys(view.pods, key)), reg);
    } else {
      NothingToSync(view, live, env, key, reg);
    }
  }

  lemma NothingToSync(view: Cluster, live: Cluster, env: Env, key: Key, reg: Registry)
    requires key !in view.groupJobs
    ensures Sync(view, live, env, key).live == live && OthersUntouched(live, live, reg, key)
  {
  }

  /** A new worker is selected by its own job only, whatever labels the pod template has. */
  lemma NewWorkerSelectedByOwnJob(key: Key, job: GroupJob, w: ReplicaSpec, i: nat, env: Env, name: string)
    ensures WorkerSelects(name, NewWorker(key, job, w, i, env).labels) <==> name == key.name
  {
  }

  /** Does a Service's selector match an object with `labels`? */
  ghost predicate Selects(service: Service, labels: Labels) {
    forall l :: l in service.selector ==> l in labels && labels[l] == service.selector[l]
  }

  /** A job's Service fronts its own workers, whatever labels their template has, and no other job's. */
  lemma ServiceFrontsOwnWorkers(key: Key, job: GroupJob, other: Key, owner: GroupJob, w: ReplicaSpec, i: nat, env: Env)
    requires other.namespace == key.namespace
    ensures Selects(NewService(key, job), NewWorker(other, owner, w, i, env).labels) <==> other == key
  {
    hide Itoa;
    var labels := NewWorker(other, owner, w, i, env).labels;
    assert labels[JobNameLabel] == other.name && labels[OperatorNameLabel] == OPERATOR_NAME;
    assert JobNameLabel in NewService(key, job).selector;
  }

  /** It fronts its own launcher's pods too, and no other job's; and no job takes a launcher's pod for a worker. */
  lemma ServiceFrontsOwnLauncher(key: Key, job: GroupJob, other: Key, owner: GroupJob, env: Env)
    requires other.namespace == key.namespace
    ensures Selects(NewService(key, job), NewLauncher(other, owner, env).podLabels) <==> other == key
    ensures !WorkerSelects(key.name, NewLauncher(other, owner, env).podLabels)
  {
    var labels := NewLauncher(other, owner, env).podLabels;
    assert labels[JobNameLabel] == other.name && labels[OperatorNameLabel] == OPERATOR_NAME;
    assert labels[JobRoleLabel] == LAUNCHER_ROLE != WORKER_ROLE;
    assert JobNameLabel in NewService(key, job).selector;
  }

  /* ---- Every run ---- */

  /** The rest of the world may do anything to objects but hand them to a job they do not belong to,
      or put a job's worker labels on pods that do not have its workers' names; uids are never reused. */
  ghost predicate WorldStep(c: Cluster, c': Cluster, reg: Registry) {
    && JobsRegistered(c'.groupJobs, reg)
    && NewlyAt(Owners(c.services, ServiceOwner()), Owners(c'.services, ServiceOwner()), reg, Same())
    && NewlyAt(Owners(c.configMaps, ConfigMapOwner()), Owners(c'.configMaps, ConfigMapOwner()), reg, Config())
    && NewlyAt(Owners(c.secrets, SecretOwner()), Owners(c'.secrets, SecretOwner()), reg, Ssh())
    && NewlyAt(Owners(c.podGroups, PodGroupOwner()), Owners(c'.podGroups, PodGroupOwner()), reg, Same())
    && NewlyAt(Owners(c.jobs, LauncherOwner()), Owners(c'.jobs, LauncherOwner()), reg, LauncherAt())
    && forall k :: k in c'.pods ==>
         || PodPlaced(k, c'.pods[k], reg)
         || (k in c.pods && c.pods[k].owner == c'.pods[k].owner && c.pods[k].labels == c'.pods[k].labels)
  }

  ghost predicate NewlyAt(owners: map<Key, Option<Uid>>, owners': map<Key, Option<Uid>>, reg: Registry,
                          place: Key -> Key) {
    forall k :: k in owners' && owners'[k].Some? && owners'[k].value in reg ==>
      k == place(reg[owners'[k].value]) || (k in owners && owners[k] == owners'[k])
  }

  /** Is the snapshot made of GroupJobs and pods as they were at some times before now, each lister
      lagging in its own way? Nothing is asked of its other objects. */
  ghost predicate SeenBefore(run: seq<Cluster>, i: nat, view: Cluster)
    requires i < |run|
  {
    && (exists a: nat :: a <= i && view.groupJobs == run[a].groupJobs)
    && (exists b: nat :: b <= i && view.pods == run[b].pods)
  }

  ghost predicate SyncedAt(run: seq<Cluster>, i: nat, key: Key)
    requires i + 1 < |run|
  {
    exists view, env :: SeenBefore(run, i, view) && SyncsAt(run, i, view, env, key)
  }

  ghost predicate SyncsAt(run: seq<Cluster>, i: nat, view: Cluster, env: Env, key: Key)
    requires i + 1 < |run|
  {
    SyncsTo(view, run[i], env, key, run[i + 1])
  }

  ghost predicate IsOperatorRun(run: seq<Cluster>, reg: Registry) {
    && run != [] && Placed(run[0], reg)
    && forall i: nat :: i + 1 < |run| ==> StepsAt(run, i, reg)
  }

  ghost predicate StepsAt(run: seq<Cluster>, i: nat, reg: Registry)
    requires i + 1 < |run|
  {
    WorldStep(run[i], run[i + 1], reg) || exists key :: SyncedAt(run, i, key)
  }

  lemma WorldKeepsPlaced(c: Cluster, c': Cluster, reg: Registry)
    requires Placed(c, reg) && WorldStep(c, c', reg)
    ensures Placed(c', reg)
  {
    hide IsWorkerKey, WorkerSelects;
  }

  lemma SyncedLeavesOthersAlone(run: seq<Cluster>, i: nat, key: Key, reg: Registry)
    requires i + 1 < |run| && SyncedAt(run, i, key) && forall j: nat :: j <= i ==> Placed(run[j], reg)
    ensures Placed(run[i + 1], reg) && OthersUntouched(run[i], run[i + 1], reg, key)
  {
    hide OthersUntouched, Sync, At, PodsPlaced, JobsRegistered;
    var view, env :| SeenBefore(run, i, view) && SyncsAt(run, i, view, env, key);
    var a: nat :| a <= i && view.groupJobs == run[a].groupJobs;
    var b: nat :| b <= i && view.pods == run[b].pods;
    assert Placed(run[a], reg) && Placed(run[b], reg);
    SyncLeavesOthersAlone(view, run[i], env, key, reg);
  }

  lemma {:induction false} RunKeepsPlaced(run: seq<Cluster>, i: nat, reg: Registry)
    requires IsOperatorRun(run, reg) && i < |run|
    ensures forall j: nat :: j <= i ==> Placed(run[j], reg)
  {
    hide Placed, WorldStep, SyncedAt;
    if i > 0 {
      RunKeepsPlaced(run, i - 1, reg);
      assert StepsAt(run, i - 1, reg);
      if WorldStep(run[i - 1], run[i], reg) {
        WorldKeepsPlaced(run[i - 1], run[i], reg);
      } else {
        var key :| SyncedAt(run, i - 1, key);
        SyncedLeavesOthersAlone(run, i - 1, key, reg);
      }
    }
  }

  /** In every run of syncs and world steps, each sync leaves every other job, and all that other jobs
      control, exactly as it was. */
  lemma JobsDoNotInterfere(run: seq<Cluster>, i: nat, key: Key, reg: Registry)
    requires IsOperatorRun(run, reg) && i + 1 < |run| && SyncedAt(run, i, key)
    ensures OthersUntouched(run[i], run[i + 1], reg, key)
  {
    hide Placed, WorldStep, SyncedAt, OthersUntouched;
    RunKeepsPlaced(run, i, reg);
    SyncedLeavesOthersAlone(run, i, key, reg);
  }

  /* ---- Why labels must not be borrowed ---- */

  lemma {:induction false} EnsureWorkersKeepsSeen(view: Cluster, live: Cluster, env: Env, key: Key, job: GroupJob,
                                                  w: ReplicaSpec,
                                                  i: nat, n: int, found: seq<Pod>)
    ensures forall k :: k in view.pods ==>
              (k in EnsureWorkers(view, live, env, key, job, w, i, n, found).live.pods <==> k in live.pods)
    decreases n - i
  {
    hide NewWorker, WorkerKey;
    if i < n {
      var k, pod := WorkerKey(key, i), NewWorker(key, job, w, i, env);
      if k in view.pods {
        EnsureWorkersKeepsSeen(view, live, env, key, job, w, i + 1, n, found + [view.pods[k]]);
      } else {
        EnsureWorkersKeepsSeen(view, live.(pods := live.pods[k := pod]), env, key, job, w, i + 1, n, found + [pod]);
      }
    }
  }

  /** The scale-down loop does not ask who controls a pod: whenever the selector matches more pods
      than there are replicas, it deletes exactly the matched pods whose index label is too large,
      another job's or an earlier incarnation's included. */
  lemma ScaleDownTakesAnyOwner(c: Cluster, env: Env, key: Key, job: GroupJob, k: Key)
    requires NoPodFaults(env) && IsListing(env.workerOrder, c.pods.Keys) && k in c.pods
    requires job.spec.Replica(Worker).Some?
    requires forall p :: p in WorkerKeys(c.pods, key) ==> ReplicaIndexLabel in c.pods[p].labels
    ensures k !in GetWorkers(c, c, env, key, job).live.pods <==>
            && k in WorkerKeys(c.pods, key) && |WorkerKeys(c.pods, key)| > job.spec.WorkerReplicas()
            && HasSurplusLabel(c.pods, k, job.spec.WorkerReplicas())
  {
    hide DeleteSurplus, EnsureWorkers, HasSurplusLabel;
    var n, w := job.spec.WorkerReplicas(), job.spec.Replica(Worker).value;
    var keys := SelectedPods(c, env.workerOrder, key);
    FilterMembers(env.workerOrder, WorkerFilter(c.pods, key));
    NoDupLength(keys, WorkerKeys(c.pods, key));
    DeleteSurplusDeletes(c, c, env, keys, n);
    var scaled := if |keys| > n then DeleteSurplus(c, c, env, keys, n) else Scaled(c);
    EnsureWorkersKeepsSeen(c, scaled.live, env, key, job, w, 0, n, []);
  }
}
