/** getOrCreateService, getOrCreateConfigMap, getOrCreateSSHAuthSecret, getOrCreatePodGroups,
    deletePodGroups and the launcher Job (pkg/controller/mpi_job_controller.go).
    Each reads a snapshot (`view`) and acts on the API server (`live`). */
module Objects {
  import opened Types
  import opened Names
  import opened Listings
  import opened ConfigMaps
  import opened PodGroups
  import opened Api

  const SSH_PRIVATE_KEY := "ssh-privatekey"
  const SSH_PUBLIC_KEY := "ssh-publickey"

  /* ---- Service ---- */

  function NewService(key: Key, job: GroupJob): Service {
    Service(Some(job.uid), map[OperatorNameLabel := OPERATOR_NAME, JobNameLabel := key.name])
  }

  function EnsureService(view: Cluster, live: Cluster, env: Env, key: Key, job: GroupJob): Step<()> {
    var wanted := NewService(key, job);
    if key !in view.services then
      match TryCreate(CreateService in env.faults, live.services, key, wanted)
      case None => Err(live)
      case Some(m) => Ok(live.(services := m), ())
    else
      var found := view.services[key];
      if found.owner != Some(job.uid) then Err(live)
      else if found.selector == wanted.selector then Ok(live, ())
      else
        match TryUpdate(UpdateService in env.faults, live.services, key, found, found.(selector := wanted.selector))
        case None => Err(live)
        case Some(m) => Ok(live.(services := m), ())
  }

  method GetOrCreateService(view: Cluster, api: ApiServer, env: Env, key: Key, job: GroupJob) returns (ok: bool)
    modifies api
    ensures api.State() == EnsureService(view, old(api.State()), env, key, job).live
    ensures ok == EnsureService(view, old(api.State()), env, key, job).Ok?
  {
    var wanted := NewService(key, job);
    if key !in view.services {
      var m := TryCreate(CreateService in env.faults, api.services, key, wanted);
      if m.Some? {
        api.services := m.value;
      }
      return m.Some?;
    }
    var svc := view.services[key];
    if svc.owner != Some(job.uid) {
      return false;
    }
    if svc.selector != wanted.selector {
      svc := svc.(selector := wanted.selector);
      var m := TryUpdate(UpdateService in env.faults, api.services, key, view.services[key], svc);
      if m.Some? {
        api.services := m.value;
      }
      return m.Some?;
    }
    return true;
  }

  /* ---- ConfigMap ---- */

  function RunningFilter(pods: map<Key, Pod>, key: Key): Key -> bool {
    k => k in pods && k.namespace == key.namespace && WorkerSelects(key.name, pods[k].labels)
         && pods[k].phase == PodRunning
  }

  /** The names of the running worker pods, in the order the lister returns them. */
  function RunningPods(view: Cluster, order: seq<Key>, key: Key): seq<string> {
    NamesOf(Filter(order, RunningFilter(view.pods, key)))
  }

  method GetRunningWorkerPods(view: Cluster, order: seq<Key>, key: Key) returns (names: seq<string>)
    ensures names == RunningPods(view, order, key)
  {
    names := [];
    var p := RunningFilter(view.pods, key);
    for i := 0 to |order|
      invariant names + NamesOf(Filter(order[i..], p)) == RunningPods(view, order, key)
    {
      var k := order[i];
      assert order[i..][1..] == order[i + 1..];
      ghost var rest := Filter(order[i + 1..], p);
      assert Filter(order[i..], p) == (if p(k) then [k] else []) + rest;
      assert [] + rest == rest && ([k] + rest)[1..] == rest;
      if k in view.pods && k.namespace == key.namespace && WorkerSelects(key.name, view.pods[k].labels) {
        if view.pods[k].phase == PodRunning {
          names := names + [k.name];
        }
      }
    }
  }

  function EnsureConfigMap(view: Cluster, live: Cluster, env: Env, key: Key, job: GroupJob): Step<()> {
    var data := ConfigData(key, job.spec, RunningPods(view, env.runningOrder, key));
    var k := ConfigKey(key);
    if k !in view.configMaps then
      match TryCreate(CreateConfigMap in env.faults, live.configMaps, k, ConfigMap(Some(job.uid), data))
      case None => Err(live)
      case Some(m) => Ok(live.(configMaps := m), ())
    else
      var found := view.configMaps[k];
      if found.owner != Some(job.uid) then Err(live)
      else if found.data == data then Ok(live, ())
      else
        match TryUpdate(UpdateConfigMap in env.faults, live.configMaps, k, found, found.(data := data))
        case None => Err(live)
        case Some(m) => Ok(live.(configMaps := m), ())
  }

  method GetOrCreateConfigMap(view: Cluster, api: ApiServer, env: Env, key: Key, job: GroupJob) returns (ok: bool)
    modifies api
    ensures api.State() == EnsureConfigMap(view, old(api.State()), env, key, job).live
    ensures ok == EnsureConfigMap(view, old(api.State()), env, key, job).Ok?
  {
    var hostfile := WriteHostfile(key, job.spec);
    var running := GetRunningWorkerPods(view, env.runningOrder, key);
    var script := WriteDiscoverHosts(key, job.spec, running);
    var data := map[HOSTFILE_NAME := hostfile];
    data := data[DISCOVER_HOSTS_NAME := script];
    assert data == ConfigData(key, job.spec, running);
    var k := ConfigKey(key);
    if k !in view.configMaps {
      var m := TryCreate(CreateConfigMap in env.faults, api.configMaps, k, ConfigMap(Some(job.uid), data));
      if m.Some? {
        api.configMaps := m.value;
      }
      return m.Some?;
    }
    var cm := view.configMaps[k];
    if cm.owner != Some(job.uid) {
      return false;
    }
    if cm.data != data {
      cm := cm.(data := data);
      var m := TryUpdate(UpdateConfigMap in env.faults, api.configMaps, k, view.configMaps[k], cm);
      if m.Some? {
        api.configMaps := m.value;
      }
      return m.Some?;
    }
    return true;
  }

  /* ---- Secret ---- */

  function NewSecretData(env: Env): map<string, string> {
    map[SSH_PRIVATE_KEY := env.privateKey, SSH_PUBLIC_KEY := env.publicKey]
  }

  function EnsureSecret(view: Cluster, live: Cluster, env: Env, key: Key, job: GroupJob): Step<()> {
    var k := SecretKey(key);
    if k in view.secrets && view.secrets[k].owner != Some(job.uid) then Err(live)
    else if GenerateSshKey in env.faults then Err(live)
    else if k !in view.secrets then
      match TryCreate(CreateSecret in env.faults, live.secrets, k, Secret(Some(job.uid), NewSecretData(env)))
      case None => Err(live)
      case Some(m) => Ok(live.(secrets := m), ())
    else
      var found := view.secrets[k];
      if found.data.Keys == NewSecretData(env).Keys then Ok(live, ())
      else
        match TryUpdate(UpdateSecret in env.faults, live.secrets, k, found, found.(data := NewSecretData(env)))
        case None => Err(live)
        case Some(m) => Ok(live.(secrets := m), ())
  }

  method GetOrCreateSSHAuthSecret(view: Cluster, api: ApiServer, env: Env, key: Key, job: GroupJob) returns (ok: bool)
    modifies api
    ensures api.State() == EnsureSecret(view, old(api.State()), env, key, job).live
    ensures ok == EnsureSecret(view, old(api.State()), env, key, job).Ok?
  {
    var k := SecretKey(key);
    if k !in view.secrets {
      if GenerateSshKey in env.faults {
        return false;
      }
      var m := TryCreate(CreateSecret in env.faults, api.secrets, k, Secret(Some(job.uid), NewSecretData(env)));
      if m.Some? {
        api.secrets := m.value;
      }
      return m.Some?;
    }
    var secret := view.secrets[k];
    if secret.owner != Some(job.uid) || GenerateSshKey in env.faults {
      return false;
    }
    if secret.data.Keys != NewSecretData(env).Keys {
      secret := secret.(data := NewSecretData(env));
      var m := TryUpdate(UpdateSecret in env.faults, api.secrets, k, view.secrets[k], secret);
      if m.Some? {
        api.secrets := m.value;
      }
      return m.Some?;
    }
    return true;
  }

  /* ---- PodGroup ---- */

  function EnsurePodGroup(view: Cluster, live: Cluster, env: Env, gang: GangScheduler, key: Key,
                          job: GroupJob): Step<()> {
    match NewPodGroupSpec(gang, job, env.replicaOrder)
    case None => Err(live)
    case Some(spec) => PutPodGroup(view, live, env, key, job, spec)
  }

  function PutPodGroup(view: Cluster, live: Cluster, env: Env, key: Key, job: GroupJob, spec: PodGroupSpec): Step<()> {
    if key !in view.podGroups then
      match TryCreate(CreatePodGroup in env.faults, live.podGroups, key, PodGroup(Some(job.uid), spec))
      case None => Err(live)
      case Some(m) => Ok(live.(podGroups := m), ())
    else
      var found := view.podGroups[key];
      if found.owner != Some(job.uid) then Err(live)
      else if found.spec == spec then Ok(live, ())
      else
        match TryUpdate(UpdatePodGroup in env.faults, live.podGroups, key, found, found.(spec := spec))
        case None => Err(live)
        case Some(m) => Ok(live.(podGroups := m), ())
  }

  method GetOrCreatePodGroups(view: Cluster, api: ApiServer, env: Env, gang: GangScheduler, key: Key, job: GroupJob)
    returns (ok: bool)
    modifies api
    ensures api.State() == EnsurePodGroup(view, old(api.State()), env, gang, key, job).live
    ensures ok == EnsurePodGroup(view, old(api.State()), env, gang, key, job).Ok?
  {
    var spec := BuildPodGroupSpec(gang, job, env.replicaOrder);
    if spec.None? {
      return false;
    }
    if key !in view.podGroups {
      var m := TryCreate(CreatePodGroup in env.faults, api.podGroups, key, PodGroup(Some(job.uid), spec.value));
      if m.Some? {
        api.podGroups := m.value;
      }
      return m.Some?;
    }
    var podGroup := view.podGroups[key];
    if podGroup.owner != Some(job.uid) {
      return false;
    }
    if podGroup.spec != spec.value {
      podGroup := podGroup.(spec := spec.value);
      var m := TryUpdate(UpdatePodGroup in env.faults, api.podGroups, key, view.podGroups[key], podGroup);
      if m.Some? {
        api.podGroups := m.value;
      }
      return m.Some?;
    }
    return true;
  }

  function RemovePodGroup(view: Cluster, live: Cluster, env: Env, key: Key, job: GroupJob): Step<()> {
    if key !in view.podGroups then Ok(live, ())
    else if view.podGroups[key].owner != Some(job.uid) then Err(live)
    else
      match TryDelete(DeletePodGroup in env.faults, live.podGroups, key)
      case None => Err(live)
      case Some(m) => Ok(live.(podGroups := m), ())
  }

  method DeletePodGroups(view: Cluster, api: ApiServer, env: Env, key: Key, job: GroupJob) returns (ok: bool)
    modifies api
    ensures api.State() == RemovePodGroup(view, old(api.State()), env, key, job).live
    ensures ok == RemovePodGroup(view, old(api.State()), env, key, job).Ok?
  {
    if key !in view.podGroups {
      return true;
    }
    if view.podGroups[key].owner != Some(job.uid) {
      return false;
    }
    var m := TryDelete(DeletePodGroup in env.faults, api.podGroups, key);
    if m.Some? {
      api.podGroups := m.value;
    }
    return m.Some?;
  }

  /* ---- Launcher Job ---- */

  /** The labels of the launcher's pods; index 0 is the launcher's when it runs as a worker. */
  function LauncherPodLabels(key: Key, job: GroupJob, env: Env): Labels {
    var launcher := job.spec.Replica(Launcher);
    (if launcher.Some? then launcher.value.labels else map[])
    + DefaultLabels(key.name, LAUNCHER_ROLE)
    + GangLabels(env.gang, key.name)
    + if job.spec.RunsLauncherAsWorker() then map[ReplicaIndexLabel := "0"] else map[]
  }

  function NewLauncher(key: Key, job: GroupJob, env: Env): BatchJob {
    BatchJob(env.launcherUid, Some(job.uid), if job.spec.Suspended() then Some(true) else None, [], 0, None,
             LauncherPodLabels(key, job, env))
  }

  /** The pods a Job controls, in the order the lister returns them. */
  function OwnedPods(pods: map<Key, Pod>, order: seq<Key>, namespace: string, owner: Uid): seq<Pod> {
    if order == [] then []
    else
      var k := order[0];
      (if k in pods && k.namespace == namespace && pods[k].owner == Some(owner) then [pods[k]] else [])
      + OwnedPods(pods, order[1..], namespace, owner)
  }

  function LauncherPods(view: Cluster, order: seq<Key>, key: Key, launcher: Option<BatchJob>): seq<Pod> {
    if launcher.None? then [] else OwnedPods(view.pods, order, key.namespace, launcher.value.uid)
  }

  method JobPods(view: Cluster, order: seq<Key>, key: Key, launcher: Option<BatchJob>) returns (pods: seq<Pod>)
    ensures pods == LauncherPods(view, order, key, launcher)
  {
    pods := [];
    if launcher.None? {
      return;
    }
    var uid := launcher.value.uid;
    for i := 0 to |order|
      invariant pods + OwnedPods(view.pods, order[i..], key.namespace, uid) ==
          OwnedPods(view.pods, order, key.namespace, uid)
    {
      var k := order[i];
      assert order[i..][1..] == order[i + 1..];
      ghost var rest := OwnedPods(view.pods, order[i + 1..], key.namespace, uid);
      if k in view.pods && k.namespace == key.namespace && view.pods[k].owner == Some(uid) {
        assert pods + ([view.pods[k]] + rest) == pods + [view.pods[k]] + rest;
        pods := pods + [view.pods[k]];
      } else {
        assert [] + rest == rest;
      }
    }
  }

  /* ---- When a step succeeds, and what success means ---- */

  /** With a current snapshot getOrCreateService succeeds exactly if the call it needs does and the
      Service is not foreign; then the job's Service with its selector is there. */
  lemma ServiceOutcome(view: Cluster, live: Cluster, env: Env, key: Key, job: GroupJob)
    requires view.services == live.services
    ensures var r := EnsureService(view, live, env, key, job);
            && (r.Ok? <==>
                  if key !in view.services then CreateService !in env.faults
                  else view.services[key].owner == Some(job.uid)
                       && (view.services[key] == NewService(key, job) || UpdateService !in env.faults))
            && (r.Ok? ==> key in r.live.services && r.live.services[key] == NewService(key, job))
            && (r.Err? ==> r.live == live)
  {
  }

  lemma ConfigMapOutcome(view: Cluster, live: Cluster, env: Env, key: Key, job: GroupJob)
    requires view.configMaps == live.configMaps
    ensures var r := EnsureConfigMap(view, live, env, key, job);
            var k := ConfigKey(key);
            var wanted := ConfigMap(Some(job.uid), ConfigData(key, job.spec, RunningPods(view, env.runningOrder, key)));
            && (r.Ok? <==>
                  if k !in view.configMaps then CreateConfigMap !in env.faults
                  else view.configMaps[k].owner == Some(job.uid)
                       && (view.configMaps[k] == wanted || UpdateConfigMap !in env.faults))
            && (r.Ok? ==> k in r.live.configMaps && r.live.configMaps[k] == wanted)
            && (r.Err? ==> r.live == live)
  {
    hide ConfigData, RunningPods, ConfigKey;
  }

  predicate HasSshKeys(s: Secret) { s.data.Keys == {SSH_PRIVATE_KEY, SSH_PUBLIC_KEY} }

  lemma NewSecretHasKeys(env: Env, owner: Option<Uid>)
    ensures HasSshKeys(Secret(owner, NewSecretData(env)))
    ensures NewSecretData(env).Keys == {SSH_PRIVATE_KEY, SSH_PUBLIC_KEY}
    ensures forall s: Secret :: HasSshKeys(s) <==> s.data.Keys == NewSecretData(env).Keys
  {
  }

  /** The Secret keeps its contents as long as it has the two keys; a key pair is generated even when
      it is not used, and a failure to do so fails the step. */
  lemma SecretOutcome(view: Cluster, live: Cluster, env: Env, key: Key, job: GroupJob)
    requires view.secrets == live.secrets
    ensures var r := EnsureSecret(view, live, env, key, job);
            var k := SecretKey(key);
            && (r.Ok? <==>
                  && GenerateSshKey !in env.faults
                  && if k !in view.secrets then CreateSecret !in env.faults
                     else view.secrets[k].owner == Some(job.uid)
                          && (HasSshKeys(view.secrets[k]) || UpdateSecret !in env.faults))
            && (r.Ok? ==>
                  k in r.live.secrets && r.live.secrets[k].owner == Some(job.uid) && HasSshKeys(r.live.secrets[k]))
            && (r.Ok? && k in view.secrets && HasSshKeys(view.secrets[k]) ==> r.live == live)
            && (r.Err? ==> r.live == live)
  {
    NewSecretHasKeys(env, Some(job.uid));
    hide SecretKey, NewSecretData, HasSshKeys;
    var k := SecretKey(key);
    if k in view.secrets && view.secrets[k].owner == Some(job.uid) {
      if HasSshKeys(view.secrets[k]) {
      }
    } else if k !in view.secrets {
    }
  }

  lemma PutPodGroupOutcome(view: Cluster, live: Cluster, env: Env, key: Key, job: GroupJob, spec: PodGroupSpec)
    requires view.podGroups == live.podGroups
    ensures var r := PutPodGroup(view, live, env, key, job, spec);
            && (r.Ok? <==>
                  if key !in view.podGroups then CreatePodGroup !in env.faults
                  else view.podGroups[key].owner == Some(job.uid)
                       && (view.podGroups[key].spec == spec || UpdatePodGroup !in env.faults))
            && (r.Ok? ==> key in r.live.podGroups && r.live.podGroups[key] == PodGroup(Some(job.uid), spec))
            && (r.Err? ==> r.live == live)
  {
  }

  lemma PodGroupOutcome(view: Cluster, live: Cluster, env: Env, gang: GangScheduler, key: Key, job: GroupJob)
    requires view.podGroups == live.podGroups
    ensures var r := EnsurePodGroup(view, live, env, gang, key, job);
            var spec := NewPodGroupSpec(gang, job, env.replicaOrder);
            && (r.Ok? <==>
                  && spec.Some?
                  && if key !in view.podGroups then CreatePodGroup !in env.faults
                     else view.podGroups[key].owner == Some(job.uid)
                          && (view.podGroups[key].spec == spec.value || UpdatePodGroup !in env.faults))
            && (r.Ok? ==> key in r.live.podGroups && r.live.podGroups[key] == PodGroup(Some(job.uid), spec.value))
            && (r.Err? ==> r.live == live)
  {
    hide NewPodGroupSpec, PutPodGroup;
    var spec := NewPodGroupSpec(gang, job, env.replicaOrder);
    if spec.Some? {
      PutPodGroupOutcome(view, live, env, key, job, spec.value);
    }
  }

  /* ---- What each step leaves alone ---- */

  /** Do the maps agree everywhere but at `k`? */
  ghost predicate SameExcept<V>(m: map<Key, V>, m': map<Key, V>, k: Key) {
    m - {k} == m' - {k}
  }

  /** Creating and updating leave everything at other keys alone. */
  lemma PutKeepsRest<V>(m: map<Key, V>, k: Key, v: V)
    ensures SameExcept(m, m, k) && SameExcept(m, m[k := v], k)
  {
    assert m[k := v] - {k} == m - {k};
  }

  lemma EnsureServiceFrame(view: Cluster, live: Cluster, env: Env, key: Key, job: GroupJob)
    ensures var r := EnsureService(view, live, env, key, job).live;
            r == live.(services := r.services) && SameExcept(live.services, r.services, key)
  {
    hide NewService, SameExcept;
    var r := EnsureService(view, live, env, key, job).live;
    var wanted := NewService(key, job);
    if key !in view.services {
      PutKeepsRest(live.services, key, wanted);
    } else {
      PutKeepsRest(live.services, key, view.services[key].(selector := wanted.selector));
    }
    if r != live {
      assert r == live.(services := r.services);
    }
  }

  lemma EnsureConfigMapFrame(view: Cluster, live: Cluster, env: Env, key: Key, job: GroupJob)
    ensures var r := EnsureConfigMap(view, live, env, key, job).live;
            r == live.(configMaps := r.configMaps) && SameExcept(live.configMaps, r.configMaps, ConfigKey(key))
  {
    hide ConfigData, RunningPods, ConfigKey, SameExcept;
    var r := EnsureConfigMap(view, live, env, key, job).live;
    var k, data := ConfigKey(key), ConfigData(key, job.spec, RunningPods(view, env.runningOrder, key));
    if k !in view.configMaps {
      PutKeepsRest(live.configMaps, k, ConfigMap(Some(job.uid), data));
    } else {
      PutKeepsRest(live.configMaps, k, view.configMaps[k].(data := data));
    }
    if r != live {
      assert r == live.(configMaps := r.configMaps);
    }
  }

  lemma EnsureSecretFrame(view: Cluster, live: Cluster, env: Env, key: Key, job: GroupJob)
    ensures var r := EnsureSecret(view, live, env, key, job).live;
            r == live.(secrets := r.secrets) && SameExcept(live.secrets, r.secrets, SecretKey(key))
  {
    hide NewSecretData, SecretKey, SameExcept;
    var r := EnsureSecret(view, live, env, key, job).live;
    var k := SecretKey(key);
    if k !in view.secrets {
      PutKeepsRest(live.secrets, k, Secret(Some(job.uid), NewSecretData(env)));
    } else {
      PutKeepsRest(live.secrets, k, view.secrets[k].(data := NewSecretData(env)));
    }
    if r != live {
      assert r == live.(secrets := r.secrets);
    }
  }

  lemma EnsurePodGroupFrame(view: Cluster, live: Cluster, env: Env, gang: GangScheduler, key: Key, job: GroupJob)
    ensures var r := EnsurePodGroup(view, live, env, gang, key, job).live;
            r == live.(podGroups := r.podGroups) && SameExcept(live.podGroups, r.podGroups, key)
  {
    hide NewPodGroupSpec, PutPodGroup;
    var spec := NewPodGroupSpec(gang, job, env.replicaOrder);
    if spec.Some? {
      PutPodGroupFrame(view, live, env, key, job, spec.value);
    }
  }

  lemma PutPodGroupFrame(view: Cluster, live: Cluster, env: Env, key: Key, job: GroupJob, spec: PodGroupSpec)
    ensures var r := PutPodGroup(view, live, env, key, job, spec).live;
            r == live.(podGroups := r.podGroups) && SameExcept(live.podGroups, r.podGroups, key)
  {
    hide SameExcept;
    var r := PutPodGroup(view, live, env, key, job, spec).live;
    if key !in view.podGroups {
      PutKeepsRest(live.podGroups, key, PodGroup(Some(job.uid), spec));
    } else {
      PutKeepsRest(live.podGroups, key, view.podGroups[key].(spec := spec));
    }
    if r != live {
      assert r == live.(podGroups := r.podGroups);
    }
  }
}
