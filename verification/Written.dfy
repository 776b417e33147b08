/** What a sync writes, field by field, in the terms of the resource: the Service, the Secret, the ConfigMap, the
    worker pods and the launcher (newJobService, newSSHAuthSecret, newConfigMap, newWorker and newLauncherJob in
    pkg/controller/mpi_job_controller.go). */
module Written {
  import opened Types
  import opened Names
  import opened Listings
  import opened Defaults
  import opened Validation
  import opened PodGroups
  import opened ConfigMaps
  import opened Status
  import opened Api
  import opened Objects
  import opened Workers
  import opened Reconcile
  import opened Runs
  import opened Launching
  import opened Settling
  import opened Policies
  import opened Reported

  /* ---- What the objects of a job look like ---- */

  /** Is there an object at `k` that was not there, or was a different one? */
  ghost predicate Written<V>(m: map<Key, V>, m': map<Key, V>, k: Key) {
    k in m' && (k !in m || m'[k] != m[k])
  }

  ghost predicate FrontsJob(s: Service, key: Key, uid: Uid) {
    s == Service(Some(uid), map[OperatorNameLabel := "group-operator", JobNameLabel := key.name])
  }

  ghost predicate HoldsKeyPair(s: Secret, env: Env, uid: Uid) {
    s == Secret(Some(uid), map["ssh-privatekey" := env.privateKey, "ssh-publickey" := env.publicKey])
  }

  /** Are these the operator's labels for the role, scheduler-plugins' for the PodGroup, and for the rest the
      template's? */
  ghost predicate HasLabels(labels: Labels, template: Labels, jobName: string, role: string,
                            gang: Option<GangScheduler>)
  {
    && OperatorNameLabel in labels && labels[OperatorNameLabel] == "group-operator"
    && JobNameLabel in labels && labels[JobNameLabel] == jobName
    && JobRoleLabel in labels && labels[JobRoleLabel] == role
    && forall name :: HasOtherLabel(labels, template, jobName, gang, name)
  }

  ghost predicate HasOtherLabel(labels: Labels, template: Labels, jobName: string, gang: Option<GangScheduler>,
                                name: string) {
    var l := OtherLabel(name);
    if gang == Some(SchedulerPlugins) && name == "scheduling.x-k8s.io/pod-group"
    then l in labels && labels[l] == jobName
    else SameLabel(labels, template, l)
  }

  ghost predicate SameLabel(labels: Labels, template: Labels, l: LabelKey) {
    (l in labels <==> l in template) && (l in labels ==> labels[l] == template[l])
  }

  /** Is this worker `i` of the job as it is created: pending, and indexed from 1 if the launcher is a worker too? */
  ghost predicate IsNewWorker(pod: Pod, key: Key, job: GroupJob, env: Env, i: nat) {
    && job.spec.replicaSpecs.Some? && Worker in job.spec.replicaSpecs.value
    && pod.owner == Some(job.uid) && pod.phase == PodPending && pod.reason == "" && pod.conditions == []
    && pod.creationTime == env.now
    && HasLabels(pod.labels, job.spec.replicaSpecs.value[Worker].labels, key.name, "worker", env.gang)
    && ReplicaIndexLabel in pod.labels
    && pod.labels[ReplicaIndexLabel] == Itoa(if job.spec.runLauncherAsWorker == Some(true) then i + 1 else i)
  }

  /** Is this the job's launcher as it is created: suspended if the job is, and at index 0 if it is a worker too? */
  ghost predicate IsNewLauncher(j: BatchJob, key: Key, job: GroupJob, env: Env) {
    && job.spec.replicaSpecs.Some? && Launcher in job.spec.replicaSpecs.value
    && j.uid == env.launcherUid && j.owner == Some(job.uid)
    && j.suspend == (if job.spec.runPolicy.suspend == Some(true) then Some(true) else None)
    && j.conditions == [] && j.failed == 0 && j.completionTime.None?
    && HasLabels(j.podLabels, job.spec.replicaSpecs.value[Launcher].labels, key.name, "launcher", env.gang)
    && if job.spec.runLauncherAsWorker == Some(true)
       then ReplicaIndexLabel in j.podLabels && j.podLabels[ReplicaIndexLabel] == "0"
       else SameLabel(j.podLabels, job.spec.replicaSpecs.value[Launcher].labels, ReplicaIndexLabel)
  }

  ghost predicate IsNewWorkerAt(pods: map<Key, Pod>, k: Key, key: Key, job: GroupJob, env: Env, n: int) {
    exists i: nat ::
      i < n && k == Key(key.namespace, key.name + "-worker-" + Itoa(i)) && k in pods
      && IsNewWorker(pods[k], key, job, env, i)
  }

  /* ---- Worker pods ---- */

  lemma NewWorkerLooks(key: Key, job: GroupJob, w: ReplicaSpec, i: nat, env: Env)
    requires job.spec.Replica(Worker) == Some(w)
    ensures IsNewWorker(NewWorker(key, job, w, i, env), key, job, env, i)
  {
    hide Itoa;
    var labels := NewWorker(key, job, w, i, env).labels;
    forall name ensures HasOtherLabel(labels, w.labels, key.name, env.gang, name) {
      assert OtherLabel(name) !in DefaultLabels(key.name, WORKER_ROLE);
    }
  }

  lemma {:induction false} EnsureWorkersWrites(view: Cluster, live: Cluster, env: Env, key: Key, job: GroupJob,
                                               w: ReplicaSpec, i: nat, n: int, found: seq<Pod>)
    requires job.spec.Replica(Worker) == Some(w)
    ensures var r := EnsureWorkers(view, live, env, key, job, w, i, n, found).live.pods;
            && (forall k :: k in live.pods ==> k in r && r[k] == live.pods[k])
            && (forall k :: k in r && k !in live.pods ==> IsNewWorkerAt(r, k, key, job, env, n))
    decreases n - i
  {
    hide WorkerKey, NewWorker, IsNewWorker, Itoa, IsNewWorkerAt;
    if i < n {
      var k, pod := WorkerKey(key, i), NewWorker(key, job, w, i, env);
      if k in view.pods {
        EnsureWorkersWrites(view, live, env, key, job, w, i + 1, n, found + [view.pods[k]]);
      } else {
        NewWorkerLooks(key, job, w, i, env);
        var created := live.(pods := live.pods[k := pod]);
        EnsureWorkersWrites(view, created, env, key, job, w, i + 1, n, found + [pod]);
        IsAt(EnsureWorkers(view, created, env, key, job, w, i + 1, n, found + [pod]).live.pods, key, job, env, i, n);
      }
    }
  }

  lemma IsAt(pods: map<Key, Pod>, key: Key, job: GroupJob, env: Env, i: nat, n: int)
    ensures i < n && WorkerKey(key, i) in pods && IsNewWorker(pods[WorkerKey(key, i)], key, job, env, i) ==>
              IsNewWorkerAt(pods, WorkerKey(key, i), key, job, env, n)
  {
    hide IsNewWorker, Itoa;
    assert WorkerKey(key, i) == Key(key.namespace, key.name + "-worker-" + Itoa(i));
  }

  lemma GetWorkersWrites(view: Cluster, live: Cluster, env: Env, key: Key, job: GroupJob)
    ensures var r := GetWorkers(view, live, env, key, job).live.pods;
            forall k :: Written(live.pods, r, k) ==> IsNewWorkerAt(r, k, key, job, env, job.spec.WorkerReplicas())
  {
    hide IsNewWorkerAt, EnsureWorkers, DeleteSurplus, SelectedPods;
    if job.spec.Replica(Worker).Some? {
      var n := job.spec.WorkerReplicas();
      var keys := SelectedPods(view, env.workerOrder, key);
      DeleteSurplusFrame(view, live, env, keys, n);
      var after := if |keys| > n then DeleteSurplus(view, live, env, keys, n).live else live;
      EnsureWorkersWrites(view, after, env, key, job, job.spec.Replica(Worker).value, 0, n, []);
    }
  }

  /* ---- Service, Secret and ConfigMap ---- */

  ghost predicate ServicesWritten(services: map<Key, Service>, services': map<Key, Service>, key: Key, uid: Uid) {
    forall k :: Written(services, services', k) ==> k == key && FrontsJob(services'[k], key, uid)
  }

  ghost predicate SecretsWritten(secrets: map<Key, Secret>, secrets': map<Key, Secret>, key: Key, env: Env, uid: Uid) {
    forall k :: Written(secrets, secrets', k) ==>
      k == Key(key.namespace, key.name + "-ssh") && HoldsKeyPair(secrets'[k], env, uid)
  }

  ghost predicate ConfigMapsWritten(configMaps: map<Key, ConfigMap>, configMaps': map<Key, ConfigMap>, key: Key,
                                    uid: Uid, data: map<string, string>) {
    forall k :: Written(configMaps, configMaps', k) ==>
      k == Key(key.namespace, key.name + "-config") && configMaps'[k] == ConfigMap(Some(uid), data)
  }

  lemma PutWrites<V>(m: map<Key, V>, m': map<Key, V>, k: Key, v: V)
    requires m' == m || m' == m[k := v]
    ensures forall x :: Written(m, m', x) ==> x == k && m'[x] == v
  {
  }

  lemma CallsPut<V>(fails: bool, m: map<Key, V>, k: Key, seen: V, v: V)
    ensures TryCreate(fails, m, k, v) == if fails || k in m then None else Some(m[k := v])
    ensures TryUpdate(fails, m, k, seen, v) in {None, Some(m[k := v])}
  {
  }

  lemma ServicePut(view: Cluster, live: Cluster, env: Env, key: Key, job: GroupJob)
    ensures var r := EnsureService(view, live, env, key, job).live.services;
            r == live.services || r == live.services[key := NewService(key, job)]
  {
    hide NewService, TryCreate, TryUpdate;
    var wanted := NewService(key, job);
    ServiceLooks(key, job);
    if key in view.services {
      var found := view.services[key];
      if found.owner == Some(job.uid) {
        assert found.(selector := wanted.selector) == wanted;
        CallsPut(UpdateService in env.faults, live.services, key, found, wanted);
      }
    } else {
      CallsPut(CreateService in env.faults, live.services, key, wanted, wanted);
    }
  }

  lemma ServiceLooks(key: Key, job: GroupJob)
    ensures NewService(key, job) == Service(Some(job.uid), NewService(key, job).selector)
    ensures FrontsJob(NewService(key, job), key, job.uid)
  {
  }

  lemma ServiceWrites(view: Cluster, live: Cluster, env: Env, key: Key, job: GroupJob)
    ensures ServicesWritten(live.services, EnsureService(view, live, env, key, job).live.services, key, job.uid)
  {
    hide Written, EnsureService, NewService, FrontsJob;
    ServiceLooks(key, job);
    ServicePut(view, live, env, key, job);
    PutWrites(live.services, EnsureService(view, live, env, key, job).live.services, key, NewService(key, job));
  }

  lemma SecretPut(view: Cluster, live: Cluster, env: Env, key: Key, job: GroupJob)
    ensures var r := EnsureSecret(view, live, env, key, job).live.secrets;
            r == live.secrets || r == live.secrets[SecretKey(key) := Secret(Some(job.uid), NewSecretData(env))]
  {
    hide NewSecretData, SecretKey, TryCreate, TryUpdate;
    var k, wanted := SecretKey(key), Secret(Some(job.uid), NewSecretData(env));
    if k in view.secrets {
      var found := view.secrets[k];
      if found.owner == Some(job.uid) {
        assert found.(data := NewSecretData(env)) == wanted;
        CallsPut(UpdateSecret in env.faults, live.secrets, k, found, wanted);
      }
    } else {
      CallsPut(CreateSecret in env.faults, live.secrets, k, wanted, wanted);
    }
  }

  lemma SecretWrites(view: Cluster, live: Cluster, env: Env, key: Key, job: GroupJob)
    ensures SecretsWritten(live.secrets, EnsureSecret(view, live, env, key, job).live.secrets, key, env, job.uid)
  {
    SecretLooks(key, env, job.uid);
    hide Written, NewSecretData, SecretKey, EnsureSecret, HoldsKeyPair;
    SecretPut(view, live, env, key, job);
    PutWrites(live.secrets, EnsureSecret(view, live, env, key, job).live.secrets, SecretKey(key),
        Secret(Some(job.uid), NewSecretData(env)));
  }

  lemma SecretLooks(key: Key, env: Env, uid: Uid)
    ensures SecretKey(key) == Key(key.namespace, key.name + "-ssh")
    ensures HoldsKeyPair(Secret(Some(uid), NewSecretData(env)), env, uid)
  {
  }

  lemma ConfigMapPut(view: Cluster, live: Cluster, env: Env, key: Key, job: GroupJob)
    ensures var r := EnsureConfigMap(view, live, env, key, job).live.configMaps;
            var data := ConfigData(key, job.spec, RunningPods(view, env.runningOrder, key));
            r == live.configMaps || r == live.configMaps[ConfigKey(key) := ConfigMap(Some(job.uid), data)]
  {
    hide ConfigData, RunningPods, ConfigKey, TryCreate, TryUpdate;
    var k, data := ConfigKey(key), ConfigData(key, job.spec, RunningPods(view, env.runningOrder, key));
    var wanted := ConfigMap(Some(job.uid), data);
    if k in view.configMaps {
      var found := view.configMaps[k];
      if found.owner == Some(job.uid) {
        assert found.(data := data) == wanted;
        CallsPut(UpdateConfigMap in env.faults, live.configMaps, k, found, wanted);
      }
    } else {
      CallsPut(CreateConfigMap in env.faults, live.configMaps, k, wanted, wanted);
    }
  }

  lemma ConfigMapWrites(view: Cluster, live: Cluster, env: Env, key: Key, job: GroupJob)
    ensures ConfigMapsWritten(live.configMaps, EnsureConfigMap(view, live, env, key, job).live.configMaps, key, job.uid,
                              ConfigData(key, job.spec, RunningPods(view, env.runningOrder, key)))
  {
    hide Written, ConfigData, RunningPods, EnsureConfigMap;
    ConfigMapPut(view, live, env, key, job);
    PutWrites(live.configMaps, EnsureConfigMap(view, live, env, key, job).live.configMaps, ConfigKey(key),
        ConfigMap(Some(job.uid), ConfigData(key, job.spec, RunningPods(view, env.runningOrder, key))));
  }

  /** All of it but the launcher. */
  ghost predicate ObjectsWritten(c: Cluster, c': Cluster, key: Key, job: GroupJob, env: Env,
                                 data: map<string, string>) {
    && ServicesWritten(c.services, c'.services, key, job.uid)
    && SecretsWritten(c.secrets, c'.secrets, key, env, job.uid)
    && ConfigMapsWritten(c.configMaps, c'.configMaps, key, job.uid, data)
    && forall k :: Written(c.pods, c'.pods, k) ==> IsNewWorkerAt(c'.pods, k, key, job, env, job.spec.WorkerReplicas())
  }

  lemma NothingWritten(c: Cluster, key: Key, job: GroupJob, env: Env, data: map<string, string>)
    ensures ObjectsWritten(c, c, key, job, env, data)
  {
    hide FrontsJob, HoldsKeyPair, IsNewWorkerAt;
  }

  lemma RemovingWritesNothing(c: Cluster, c': Cluster, c'': Cluster, key: Key, job: GroupJob, env: Env,
                              data: map<string, string>)
    requires ObjectsWritten(c, c', key, job, env, data)
    requires c''.services == c'.services && c''.secrets == c'.secrets && c''.configMaps == c'.configMaps
    requires forall k :: k in c''.pods ==> k in c'.pods && c''.pods[k] == c'.pods[k]
    ensures ObjectsWritten(c, c'', key, job, env, data)
  {
    hide ServicesWritten, SecretsWritten, ConfigMapsWritten, IsNewWorkerAt;
    StillAt(c'.pods, c''.pods, key, job, env, job.spec.WorkerReplicas());
  }

  lemma ObjectsWrite(view: Cluster, live: Cluster, env: Env, key: Key, job: GroupJob)
    ensures ObjectsWritten(live, EnsureObjects(view, live, env, key, job).live, key, job, env,
                           ConfigData(key, job.spec, RunningPods(view, env.runningOrder, key)))
  {
    hide EnsureService, EnsureConfigMap, EnsureSecret, EnsureGang, GetWorkers, SameExcept, ConfigData, RunningPods,
         IsNewWorkerAt, Written, FrontsJob, HoldsKeyPair;
    var r1 := EnsureService(view, live, env, key, job).live;
    EnsureServiceFrame(view, live, env, key, job);
    ServiceWrites(view, live, env, key, job);
    var r2 := EnsureConfigMap(view, r1, env, key, job).live;
    EnsureConfigMapFrame(view, r1, env, key, job);
    ConfigMapWrites(view, r1, env, key, job);
    var r3 := EnsureSecret(view, r2, env, key, job).live;
    EnsureSecretFrame(view, r2, env, key, job);
    SecretWrites(view, r2, env, key, job);
    var r4 := EnsureGang(view, r3, env, key, job).live;
    EnsureGangFrame(view, r3, env, key, job);
    GetWorkersFrame(view, r4, env, key, job);
    GetWorkersWrites(view, r4, env, key, job);
    hide ServicesWritten, SecretsWritten, ConfigMapsWritten;
    NothingWritten(live, key, job, env, ConfigData(key, job.spec, RunningPods(view, env.runningOrder, key)));
  }

  lemma PrepareWrites(view: Cluster, live: Cluster, env: Env, key: Key, job: GroupJob)
    ensures ObjectsWritten(live, Prepare(view, live, env, key, job).live, key, job, env,
                           ConfigData(key, job.spec, RunningPods(view, env.runningOrder, key)))
  {
    hide EnsureObjects, ConfigData, RunningPods, LauncherMayStart, JobFinished, NewLauncher, ObjectsWritten;
    var data := ConfigData(key, job.spec, RunningPods(view, env.runningOrder, key));
    var found := FindLauncher(view, key);
    if found.Some? && JobFinished(found.value) {
      NothingWritten(live, key, job, env, data);
    } else {
      ObjectsWrite(view, live, env, key, job);
      RemovingWritesNothing(live, EnsureObjects(view, live, env, key, job).live,
          Prepare(view, live, env, key, job).live, key, job, env, data);
    }
  }

  lemma ActWrites(view: Cluster, live: Cluster, env: Env, key: Key, job: GroupJob)
    ensures ObjectsWritten(live, Act(view, live, env, key, job).live, key, job, env,
                           ConfigData(key, job.spec, RunningPods(view, env.runningOrder, key)))
  {
    hide Prepare, CleanUp, ConfigData, RunningPods, ObjectsWritten;
    var data := ConfigData(key, job.spec, RunningPods(view, env.runningOrder, key));
    var found := FindLauncher(view, key);
    if found.Some? && found.value.owner != Some(job.uid) {
      NothingWritten(live, key, job, env, data);
    } else {
      PrepareWrites(view, live, env, key, job);
      var prepared := Prepare(view, live, env, key, job);
      if prepared.Ok? {
        var aligned := AlignLauncher(prepared.live, env, key, job, prepared.value.0);
        CleanUpFrame(view, aligned.live, env, key, job);
        RemovingWritesNothing(live, prepared.live, Act(view, live, env, key, job).live, key, job, env, data);
      }
    }
  }

  lemma StillAt(pods: map<Key, Pod>, pods': map<Key, Pod>, key: Key, job: GroupJob, env: Env, n: int)
    requires forall k :: k in pods' ==> k in pods && pods'[k] == pods[k]
    ensures forall k :: k in pods' && IsNewWorkerAt(pods, k, key, job, env, n) ==>
              IsNewWorkerAt(pods', k, key, job, env, n)
  {
    hide IsNewWorker, Itoa;
  }

  /* ---- The launcher ---- */

  lemma NewLauncherLooks(key: Key, job: GroupJob, env: Env)
    requires job.spec.Replica(Launcher).Some?
    ensures IsNewLauncher(NewLauncher(key, job, env), key, job, env)
    ensures NewLauncher(key, job, env).IsSuspended() == job.spec.Suspended()
    ensures NewLauncher(key, job, env).owner == Some(job.uid)
  {
    var labels, template := NewLauncher(key, job, env).podLabels, job.spec.replicaSpecs.value[Launcher].labels;
    forall name ensures HasOtherLabel(labels, template, key.name, env.gang, name) {
      assert OtherLabel(name) !in DefaultLabels(key.name, LAUNCHER_ROLE);
    }
  }

  /** What may be written about launchers: the job's own is created, or gets the job's suspend flag. */
  ghost predicate LaunchersWritten(jobs: map<Key, BatchJob>, jobs': map<Key, BatchJob>, key: Key, job: GroupJob,
                                   env: Env) {
    forall k :: Written(jobs, jobs', k) ==>
      && k == Key(key.namespace, key.name + "-launcher") && jobs'[k].owner == Some(job.uid)
      && if k !in jobs then IsNewLauncher(jobs'[k], key, job, env)
         else jobs'[k] == jobs[k].(suspend := Some(job.spec.runPolicy.suspend == Some(true)))
  }

  lemma PrepareWritesLauncher(view: Cluster, live: Cluster, env: Env, key: Key, job: GroupJob)
    requires job.spec.Replica(Launcher).Some?
    ensures var r := Prepare(view, live, env, key, job);
            && LaunchersWritten(live.jobs, r.live.jobs, key, job, env)
            && (r.Ok? && r.value.0.Some? ==>
                  || (FindLauncher(view, key) == r.value.0 && r.live.jobs == live.jobs)
                  || r.value.0.value.IsSuspended() == job.spec.Suspended())
  {
    hide EnsureObjects, LauncherMayStart, NewLauncher, IsNewLauncher, JobFinished, LauncherKey, TryCreate;
    EnsureObjectsKeepJobs(view, live, env, key, job);
    NewLauncherLooks(key, job, env);
    LauncherAt(key);
    var created := NewLauncher(key, job, env);
    CallsPut(CreateLauncher in env.faults, live.jobs, LauncherKey(key), created, created);
  }

  lemma LauncherAt(key: Key)
    ensures LauncherKey(key) == Key(key.namespace, key.name + "-launcher")
  {
  }

  lemma ActWritesLauncher(view: Cluster, live: Cluster, env: Env, key: Key, job: GroupJob)
    requires job.spec.Replica(Launcher).Some?
    ensures LaunchersWritten(live.jobs, Act(view, live, env, key, job).live.jobs, key, job, env)
  {
    hide Prepare, CleanUp, IsNewLauncher;
    PrepareWritesLauncher(view, live, env, key, job);
    var prepared := Prepare(view, live, env, key, job);
    if prepared.Ok? {
      var aligned := AlignLauncher(prepared.live, env, key, job, prepared.value.0);
      CleanUpFrame(view, aligned.live, env, key, job);
    }
  }

  /* ---- A whole sync ---- */

  lemma ActiveChanges(view: Cluster, live: Cluster, env: Env, key: Key, job: GroupJob, s: JobStatus)
    requires key in view.groupJobs
    ensures var r := SyncActive(view, live, env, key, job, s).live;
            r == Act(view, live, env, key, job).live.(groupJobs := r.groupJobs)
  {
    hide Act, ComputeStatus, LauncherPods, CleanedStatus;
  }

  /** A job as its author wrote it asks for the same pods as with its defaults. */
  lemma AsWritten(key: Key, job: GroupJob, env: Env)
    ensures forall pod, i :: IsNewWorker(pod, key, DefaultedJob(job), env, i) ==> IsNewWorker(pod, key, job, env, i)
    ensures forall j :: IsNewLauncher(j, key, DefaultedJob(job), env) ==> IsNewLauncher(j, key, job, env)
    ensures DefaultedJob(job).spec.WorkerReplicas() == WorkersAsked(job.spec)
    ensures DefaultedJob(job).uid == job.uid
    ensures DefaultedJob(job).spec.runPolicy.suspend == job.spec.runPolicy.suspend
  {
    hide HasLabels, SameLabel, Itoa;
  }

  lemma AsWrittenAt(pods: map<Key, Pod>, key: Key, job: GroupJob, env: Env, n: int)
    ensures forall k :: IsNewWorkerAt(pods, k, key, DefaultedJob(job), env, n) ==>
              IsNewWorkerAt(pods, k, key, job, env, n)
  {
    hide IsNewWorker, DefaultedJob, Itoa;
    AsWritten(key, job, env);
  }

  lemma AsWrittenLauncher(jobs: map<Key, BatchJob>, jobs': map<Key, BatchJob>, key: Key, job: GroupJob, env: Env)
    requires LaunchersWritten(jobs, jobs', key, DefaultedJob(job), env)
    ensures LaunchersWritten(jobs, jobs', key, job, env)
  {
    hide IsNewLauncher, DefaultedJob;
    AsWritten(key, job, env);
  }

  lemma AcceptedLauncher(key: Key, job: GroupJob)
    requires !Ignored(key, job)
    ensures job.spec.Replica(Launcher).Some?
  {
    hide IsDnsLabel, AcceptsRunPolicy, AcceptsReplica;
  }

  /** Whatever its snapshot shows and whichever calls fail, every Service, Secret, pod and launcher a sync creates or
      changes is of this form: the Service selects the job's own launcher and workers; the Secret holds the private
      and the public half under their names; pods are workers below the replica count, labelled from their template
      and by the operator; the launcher is created from its template, or given the job's suspend flag. */
  lemma SyncWritesAsAsked(view: Cluster, live: Cluster, env: Env, key: Key)
    requires key in view.groupJobs
    ensures var job, r := view.groupJobs[key], Sync(view, live, env, key).live;
            && ServicesWritten(live.services, r.services, key, job.uid)
            && SecretsWritten(live.secrets, r.secrets, key, env, job.uid)
            && (forall k :: Written(live.pods, r.pods, k) ==>
                  IsNewWorkerAt(r.pods, k, key, job, env, WorkersAsked(job.spec)))
            && LaunchersWritten(live.jobs, r.jobs, key, job, env)
  {
    hide Ignored, IsTerminal, MarkCreated, MarkStarted, SyncTerminal, SyncActive, Act, Default, IsNewWorkerAt,
         FrontsJob, HoldsKeyPair, IsNewLauncher, ConfigData, RunningPods, WorkersAsked;
    var job := DefaultedJob(view.groupJobs[key]);
    var r := Sync(view, live, env, key).live;
    var status := MarkCreated(job.status, env.now);
    SyncTerminalRemoves(view, live, env, key, job, status);
    if !Ignored(key, job) && !IsTerminal(status) {
      ActiveChanges(view, live, env, key, job, MarkStarted(status, job.spec.Suspended(), env.now));
      ActWrites(view, live, env, key, job);
      AcceptedLauncher(key, job);
      ActWritesLauncher(view, live, env, key, job);
      AsWritten(key, view.groupJobs[key], env);
      AsWrittenAt(r.pods, key, view.groupJobs[key], env, WorkersAsked(view.groupJobs[key].spec));
      AsWrittenLauncher(live.jobs, r.jobs, key, view.groupJobs[key], env);
    }
  }

  /* ---- What the ConfigMap says ---- */

  /** Is this the name of one of the job's workers, running? */
  ghost predicate RunsAsWorker(pods: map<Key, Pod>, key: Key, name: string) {
    var k := Key(key.namespace, name);
    && k in pods && pods[k].phase == PodRunning
    && OperatorNameLabel in pods[k].labels && pods[k].labels[OperatorNameLabel] == "group-operator"
    && JobNameLabel in pods[k].labels && pods[k].labels[JobNameLabel] == key.name
    && JobRoleLabel in pods[k].labels && pods[k].labels[JobRoleLabel] == "worker"
  }

  /** Does the hostfile list the launcher if it runs as a worker, then the workers asked for, each in the domain of the
      job's Service with its slots? */
  ghost predicate HostfileLists(text: string, key: Key, s: GroupJobSpec) {
    var entries := ReadHostfile(text, if s.mpiImplementation == MpiUnset then OpenMPI else s.mpiImplementation);
    var first := if s.runLauncherAsWorker == Some(true) then 1 else 0;
    var slots := if s.slotsPerWorker.Some? then s.slotsPerWorker.value else 1;
    && |entries| == first + WorkersAsked(s) >= first
    && (first == 1 ==>
          entries[0] == Some(HostEntry(key.name + "-launcher", key.name, key.namespace + ".svc", slots)))
    && forall i: nat :: i < WorkersAsked(s) ==>
         entries[first + i] ==
         Some(HostEntry(key.name + "-worker-" + Itoa(i), key.name, key.namespace + ".svc", slots))
  }

  /** Does the script print the launcher if it runs as a worker, then the running workers by name? */
  ghost predicate ScriptPrints(text: string, key: Key, s: GroupJobSpec, pods: map<Key, Pod>) {
    var printed := ReadScript(text);
    var first := if s.runLauncherAsWorker == Some(true) then 1 else 0;
    && |printed| >= first
    && (forall i :: 0 <= i < |printed| ==>
          && printed[i].Some? && printed[i].value.job == key.name
          && printed[i].value.namespace == key.namespace && printed[i].value.suffix == "svc")
    && (first == 1 ==> printed[0].value.host == key.name + "-launcher")
    && PrintsRunning(printed[first..], key, pods)
  }

  ghost predicate PrintsRunning(printed: seq<Option<ScriptEntry>>, key: Key, pods: map<Key, Pod>) {
    exists running: seq<string> ::
      NoDup(running) && (forall name :: name in running <==> RunsAsWorker(pods, key, name))
      && ListsByName(printed, running)
  }

  ghost predicate ConfiguresJob(m: ConfigMap, key: Key, job: GroupJob, pods: map<Key, Pod>) {
    && m.owner == Some(job.uid) && m.data.Keys == {"hostfile", "discover_hosts.sh"}
    && HostfileLists(m.data["hostfile"], key, job.spec)
    && ScriptPrints(m.data["discover_hosts.sh"], key, job.spec, pods)
  }

  /** Are the names of the job's running workers made of what names in the cluster may be made of? */
  ghost predicate NamesUsable(pods: map<Key, Pod>, key: Key) {
    Plain(key.namespace) && forall name :: RunsAsWorker(pods, key, name) ==> Dotted(name)
  }

  lemma RunningAre(view: Cluster, order: seq<Key>, key: Key)
    requires IsListing(order, view.pods.Keys)
    ensures NoDup(RunningPods(view, order, key))
    ensures forall name :: name in RunningPods(view, order, key) <==> RunsAsWorker(view.pods, key, name)
  {
    hide RunningPods;
    RunningNames(view, order, key);
    forall name ensures Key(key.namespace, name) in RunningIn(view.pods, key) <==> RunsAsWorker(view.pods, key, name) {
    }
  }

  lemma HostfileOf(key: Key, s: GroupJobSpec)
    requires Accepts(key.name, Default(s)) && Plain(key.namespace)
    ensures HostfileLists(Hostfile(key, Default(s)), key, s)
  {
    hide ReadHostfile, Hostfile, Accepts, Plain, Itoa;
    AcceptedReplicas(key.name, Default(s));
    HostfileRoundTrip(key, Default(s));
  }

  lemma ScriptOf(view: Cluster, order: seq<Key>, key: Key, s: GroupJobSpec)
    requires Accepts(key.name, Default(s)) && IsListing(order, view.pods.Keys) && NamesUsable(view.pods, key)
    ensures ScriptPrints(DiscoverHosts(key, Default(s), RunningPods(view, order, key)), key, s, view.pods)
  {
    hide ReadScript, DiscoverHosts, RunningPods, Accepts, RunsAsWorker, ListsByName, Plain, Dotted;
    var running := RunningPods(view, order, key);
    RunningAre(view, order, key);
    AcceptedReplicas(key.name, Default(s));
    DiscoverHostsReads(key, Default(s), running);
    var first := if s.runLauncherAsWorker == Some(true) then 1 else 0;
    assert PrintsRunning(ReadScript(DiscoverHosts(key, Default(s), running))[first..], key, view.pods);
  }

  lemma ConfigDataReads(view: Cluster, order: seq<Key>, key: Key, job: GroupJob)
    requires Accepts(key.name, Default(job.spec)) && IsListing(order, view.pods.Keys) && NamesUsable(view.pods, key)
    ensures var data := ConfigData(key, Default(job.spec), RunningPods(view, order, key));
            ConfiguresJob(ConfigMap(Some(job.uid), data), key, job, view.pods)
  {
    hide HostfileLists, ScriptPrints, Hostfile, DiscoverHosts, Accepts, Default, RunningPods, NamesUsable, IsListing;
    assert Plain(key.namespace) by {
      NamespacePlain(view.pods, key);
    }
    HostfileOf(key, job.spec);
    ScriptOf(view, order, key, job.spec);
  }

  lemma NamespacePlain(pods: map<Key, Pod>, key: Key)
    requires NamesUsable(pods, key)
    ensures Plain(key.namespace)
  {
  }

  /** The same for the ConfigMap: its hostfile lists all workers asked for and its script those the snapshot shows
      running, in the formats of ConfigMaps. */
  lemma SyncWritesConfig(view: Cluster, live: Cluster, env: Env, key: Key)
    requires key in view.groupJobs && IsListing(env.runningOrder, view.pods.Keys) && NamesUsable(view.pods, key)
    ensures var job, r := view.groupJobs[key], Sync(view, live, env, key).live;
            forall k :: Written(live.configMaps, r.configMaps, k) ==>
              k == Key(key.namespace, key.name + "-config") && ConfiguresJob(r.configMaps[k], key, job, view.pods)
  {
    hide Ignored, IsTerminal, MarkCreated, MarkStarted, SyncTerminal, SyncActive, Act, Default, IsNewWorkerAt,
         ConfigData, RunningPods, ConfiguresJob, ServicesWritten, SecretsWritten, NamesUsable, IsListing;
    var job := DefaultedJob(view.groupJobs[key]);
    var status := MarkCreated(job.status, env.now);
    SyncTerminalRemoves(view, live, env, key, job, status);
    if !Ignored(key, job) && !IsTerminal(status) {
      ActiveChanges(view, live, env, key, job, MarkStarted(status, job.spec.Suspended(), env.now));
      ActWrites(view, live, env, key, job);
      NotIgnoredAccepted(key, job);
      ConfigDataReads(view, env.runningOrder, key, view.groupJobs[key]);
    }
  }

  lemma NotIgnoredAccepted(key: Key, job: GroupJob)
    requires !Ignored(key, job)
    ensures Accepts(key.name, job.spec)
  {
  }

  /* ---- What is in place after a sync that succeeds ---- */

  /** The objects after a step that succeeds from a current snapshot. */
  lemma ObjectsStand(c: Cluster, env: Env, key: Key, job: GroupJob)
    requires EnsureObjects(c, c, env, key, job).Ok?
    ensures var r := EnsureObjects(c, c, env, key, job).live;
            && key in r.services && FrontsJob(r.services[key], key, job.uid)
            && SecretKey(key) in r.secrets && r.secrets[SecretKey(key)].owner == Some(job.uid)
            && HasSshKeys(r.secrets[SecretKey(key)])
            && ConfigKey(key) in r.configMaps
            && r.configMaps[ConfigKey(key)] ==
               ConfigMap(Some(job.uid), ConfigData(key, job.spec, RunningPods(c, env.runningOrder, key)))
  {
    hide EnsureService, EnsureConfigMap, EnsureSecret, EnsureGang, GetWorkers, SameExcept, ConfigData, RunningPods,
         ConfigKey, SecretKey, NewService, FrontsJob, HasSshKeys, NewSecretData;
    var r1 := EnsureService(c, c, env, key, job).live;
    EnsureServiceFrame(c, c, env, key, job);
    ServiceOutcome(c, c, env, key, job);
    ServiceLooks(key, job);
    var r2 := EnsureConfigMap(c, r1, env, key, job).live;
    EnsureConfigMapFrame(c, r1, env, key, job);
    ConfigMapOutcome(c, r1, env, key, job);
    var r3 := EnsureSecret(c, r2, env, key, job).live;
    EnsureSecretFrame(c, r2, env, key, job);
    SecretOutcome(c, r2, env, key, job);
    var r4 := EnsureGang(c, r3, env, key, job).live;
    EnsureGangFrame(c, r3, env, key, job);
    GetWorkersFrame(c, r4, env, key, job);
  }

  lemma ActKeepsObjects(c: Cluster, env: Env, key: Key, job: GroupJob)
    requires Act(c, c, env, key, job).Ok?
    requires LauncherKey(key) in c.jobs ==> !JobFinished(c.jobs[LauncherKey(key)])
    ensures EnsureObjects(c, c, env, key, job).Ok?
    ensures var r, e := Act(c, c, env, key, job).live, EnsureObjects(c, c, env, key, job).live;
            r.services == e.services && r.secrets == e.secrets && r.configMaps == e.configMaps
  {
    hide EnsureObjects, CleanUp, LauncherMayStart, JobFinished, NewLauncher, LauncherKey;
    var prepared := Prepare(c, c, env, key, job);
    var aligned := AlignLauncher(prepared.live, env, key, job, prepared.value.0);
    CleanUpFrame(c, aligned.live, env, key, job);
  }

  lemma ConfigName(key: Key)
    ensures ConfigKey(key) == Key(key.namespace, key.name + "-config")
  {
  }

  /** After a sync that succeeds from a current snapshot, a job that is worked on and whose launcher has not finished
      has its Service, its Secret with both keys, and its ConfigMap for the workers then running. */
  lemma ObjectsInPlace(c: Cluster, env: Env, key: Key)
    requires key in c.groupJobs && Sync(c, c, env, key).ok
    requires !LeftAlone(key, c.groupJobs[key]) && !Finished(c.groupJobs[key].status)
    requires var k := Key(key.namespace, key.name + "-launcher"); k in c.jobs ==> !IsOver(Some(c.jobs[k]))
    requires IsListing(env.runningOrder, c.pods.Keys) && NamesUsable(c.pods, key)
    ensures var job, r := c.groupJobs[key], Sync(c, c, env, key).live;
            var secret, config := Key(key.namespace, key.name + "-ssh"), Key(key.namespace, key.name + "-config");
            && key in r.services && FrontsJob(r.services[key], key, job.uid)
            && secret in r.secrets && r.secrets[secret].owner == Some(job.uid)
            && r.secrets[secret].data.Keys == {"ssh-privatekey", "ssh-publickey"}
            && config in r.configMaps && ConfiguresJob(r.configMaps[config], key, job, c.pods)
  {
    hide Act, Sync, Default, Ignored, LeftAlone, Finished, FrontsJob, ConfiguresJob, ConfigData, RunningPods,
         NamesUsable, IsListing, IsOver, EnsureObjects, JobFinished, LauncherKey, SecretKey, ConfigKey;
    var job := DefaultedJob(c.groupJobs[key]);
    WorkedOnIff(c, c, env, key);
    ReachedActs(c, c, env, key);
    LauncherAt(key);
    SecretLooks(key, env, job.uid);
    ConfigName(key);
    if LauncherKey(key) in c.jobs {
      OverIfFinished(Some(c.jobs[LauncherKey(key)]));
    }
    ActKeepsObjects(c, env, key, job);
    ObjectsStand(c, env, key, job);
    NotIgnoredAccepted(key, job);
    ConfigDataReads(c, env.runningOrder, key, c.groupJobs[key]);
  }
}
