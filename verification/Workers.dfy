/** Worker pods: getOrCreateWorker, deleteWorkerPods and countReadyWorkerPods
    (pkg/controller/mpi_job_controller.go). */
module Workers {
  import opened Types
  import opened Names
  import opened Listings
  import opened PodGroups
  import opened Api

  /** The replica-index label of worker `i`; the launcher takes index 0 when it runs as a worker. */
  function IndexLabel(spec: GroupJobSpec, i: nat): nat {
    if spec.RunsLauncherAsWorker() then i + 1 else i
  }

  function NewWorker(key: Key, job: GroupJob, w: ReplicaSpec, i: nat, env: Env): Pod {
    Pod(Some(job.uid),
        w.labels + DefaultLabels(key.name, WORKER_ROLE) + map[ReplicaIndexLabel := Itoa(IndexLabel(job.spec, i))]
        + GangLabels(env.gang, key.name),
        PodPending, "", env.now, [])
  }

  function WorkerFilter(pods: map<Key, Pod>, key: Key): Key -> bool {
    k => k in pods && k.namespace == key.namespace && WorkerSelects(key.name, pods[k].labels)
  }

  /** The pods the worker selector matches, in the order the lister returns them. */
  function SelectedPods(view: Cluster, order: seq<Key>, key: Key): seq<Key> {
    Filter(order, WorkerFilter(view.pods, key))
  }

  method ListWorkers(view: Cluster, order: seq<Key>, key: Key) returns (keys: seq<Key>)
    ensures keys == SelectedPods(view, order, key)
  {
    keys := [];
    var p := WorkerFilter(view.pods, key);
    for i := 0 to |order|
      invariant keys + Filter(order[i..], p) == SelectedPods(view, order, key)
    {
      assert order[i..][1..] == order[i + 1..];
      if p(order[i]) {
        keys := keys + [order[i]];
      }
    }
  }

  /* ---- getOrCreateWorker ---- */

  datatype ScaleDown = Scaled(live: Cluster) | LabelMissing(live: Cluster) | ScaleFailed(live: Cluster)

  predicate Surplus(view: Cluster, k: Key, n: int)
    requires k in view.pods && ReplicaIndexLabel in view.pods[k].labels
  {
    match Atoi(view.pods[k].labels[ReplicaIndexLabel])
    case None => false
    case Some(index) => index >= n
  }

  /** Deletes the pods among `keys` whose index label is `n` or more; stops at a pod without the label. */
  function DeleteSurplus(view: Cluster, live: Cluster, env: Env, keys: seq<Key>, n: int): ScaleDown
    decreases keys
  {
    if keys == [] then Scaled(live)
    else
      var k := keys[0];
      if k !in view.pods || ReplicaIndexLabel !in view.pods[k].labels then LabelMissing(live)
      else if !Surplus(view, k, n) then DeleteSurplus(view, live, env, keys[1..], n)
      else
        match TryDelete(DeletePod(k.name) in env.faults, live.pods, k)
        case None => ScaleFailed(live)
        case Some(m) => DeleteSurplus(view, live.(pods := m), env, keys[1..], n)
  }

  function EnsureWorkers(view: Cluster, live: Cluster, env: Env, key: Key, job: GroupJob, w: ReplicaSpec,
                         i: nat, n: int, found: seq<Pod>): Step<seq<Pod>>
    decreases n - i
  {
    if i >= n then Ok(live, found)
    else
      var k := WorkerKey(key, i);
      if k in view.pods then
        if view.pods[k].owner != Some(job.uid) then Err(live)
        else EnsureWorkers(view, live, env, key, job, w, i + 1, n, found + [view.pods[k]])
      else
        var pod := NewWorker(key, job, w, i, env);
        match TryCreate(CreatePod(k.name) in env.faults, live.pods, k, pod)
        case None => Err(live)
        case Some(m) => EnsureWorkers(view, live.(pods := m), env, key, job, w, i + 1, n, found + [pod])
  }

  /** All worker pods of the job, after deleting surplus ones and creating missing ones. When the
      scale-down meets a pod without an index label the code returns no pods and no error. */
  function GetWorkers(view: Cluster, live: Cluster, env: Env, key: Key, job: GroupJob): Step<seq<Pod>> {
    match job.spec.Replica(Worker)
    case None => Ok(live, [])
    case Some(w) =>
      var n := job.spec.WorkerReplicas();
      var keys := SelectedPods(view, env.workerOrder, key);
      match if |keys| > n then DeleteSurplus(view, live, env, keys, n) else Scaled(live)
      case LabelMissing(after) => Ok(after, [])
      case ScaleFailed(after) => Err(after)
      case Scaled(after) => EnsureWorkers(view, after, env, key, job, w, 0, n, [])
  }

  /** The scale-down loop: was no pod without an index label met, and did no deletion fail? */
  method DeleteSurplusPods(view: Cluster, api: ApiServer, env: Env, podFullList: seq<Key>, n: int)
    returns (labelled: bool, ok: bool)
    modifies api
    ensures var r := DeleteSurplus(view, old(api.State()), env, podFullList, n);
            api.State() == r.live && labelled == !r.LabelMissing? && ok == !r.ScaleFailed?
  {
    ghost var start := api.State();
    for i := 0 to |podFullList|
      invariant DeleteSurplus(view, start, env, podFullList, n) ==
                DeleteSurplus(view, api.State(), env, podFullList[i..], n)
    {
      var k := podFullList[i];
      assert podFullList[i..][1..] == podFullList[i + 1..];
      if k !in view.pods || ReplicaIndexLabel !in view.pods[k].labels {
        return false, true;
      }
      var index := Atoi(view.pods[k].labels[ReplicaIndexLabel]);
      if index.Some? {
        if index.value >= n {
          var m := TryDelete(DeletePod(k.name) in env.faults, api.pods, k);
          if m.None? {
            return true, false;
          }
          api.pods := m.value;
        }
      }
    }
    return true, true;
  }

  /** The creation loop: the pods of workers 0 to n - 1, creating those that are missing. */
  method CreateMissingPods(view: Cluster, api: ApiServer, env: Env, key: Key, job: GroupJob, worker: ReplicaSpec,
                           n: int)
    returns (ok: bool, workerPods: seq<Pod>)
    modifies api
    ensures var r := EnsureWorkers(view, old(api.State()), env, key, job, worker, 0, n, []);
            api.State() == r.live && ok == r.Ok? && (ok ==> workerPods == r.value)
  {
    hide WorkerKey, DefaultLabels, GangLabels, Itoa, IndexLabel;
    workerPods := [];
    ghost var start := api.State();
    var i := 0;
    while i < n
      invariant 0 <= i
      invariant EnsureWorkers(view, start, env, key, job, worker, 0, n, []) ==
                EnsureWorkers(view, api.State(), env, key, job, worker, i, n, workerPods)
      decreases n - i
    {
      var k := WorkerKey(key, i);
      var pod;
      if k in view.pods {
        pod := view.pods[k];
      } else {
        pod := NewWorker(key, job, worker, i, env);
        var m := TryCreate(CreatePod(k.name) in env.faults, api.pods, k, pod);
        if m.None? {
          return false, [];
        }
        api.pods := m.value;
      }
      if pod.owner != Some(job.uid) {
        return false, [];
      }
      workerPods := workerPods + [pod];
      i := i + 1;
    }
    ok := true;
  }

  method GetOrCreateWorker(view: Cluster, api: ApiServer, env: Env, key: Key, job: GroupJob)
    returns (ok: bool, workerPods: seq<Pod>)
    modifies api
    ensures api.State() == GetWorkers(view, old(api.State()), env, key, job).live
    ensures ok == GetWorkers(view, old(api.State()), env, key, job).Ok?
    ensures ok ==> workerPods == GetWorkers(view, old(api.State()), env, key, job).value
  {
    hide DeleteSurplus, EnsureWorkers, SelectedPods;
    workerPods := [];
    var worker := job.spec.Replica(Worker);
    if worker.None? {
      return true, [];
    }
    var n: int := job.spec.WorkerReplicas();
    var podFullList := ListWorkers(view, env.workerOrder, key);
    if |podFullList| > n {
      var labelled, deleted := DeleteSurplusPods(view, api, env, podFullList, n);
      if !labelled || !deleted {
        return deleted, [];
      }
    }
    ok, workerPods := CreateMissingPods(view, api, env, key, job, worker.value, n);
  }

  /* ---- deleteWorkerPods ---- */

  predicate KeepsPod(job: GroupJob, pod: Pod) {
    job.spec.runPolicy.cleanPodPolicy == Some(CleanRunning) && pod.phase != PodRunning && pod.phase != PodPending
  }

  function DeleteWorkers(view: Cluster, live: Cluster, env: Env, key: Key, job: GroupJob, i: nat, n: int): Step<()>
    decreases n - i
  {
    if i >= n then Ok(live, ())
    else
      var k := WorkerKey(key, i);
      if k !in view.pods then DeleteWorkers(view, live, env, key, job, i + 1, n)
      else if view.pods[k].owner != Some(job.uid) then Err(live)
      else if KeepsPod(job, view.pods[k]) then DeleteWorkers(view, live, env, key, job, i + 1, n)
      else if DeletePod(k.name) in env.faults then Err(live)
      else DeleteWorkers(view, live.(pods := live.pods - {k}), env, key, job, i + 1, n)
  }

  method DeleteWorkerPods(view: Cluster, api: ApiServer, env: Env, key: Key, job: GroupJob) returns (ok: bool)
    modifies api
    ensures api.State() == DeleteWorkers(view, old(api.State()), env, key, job, 0, job.spec.WorkerReplicas()).live
    ensures ok == DeleteWorkers(view, old(api.State()), env, key, job, 0, job.spec.WorkerReplicas()).Ok?
  {
    var worker := job.spec.Replica(Worker);
    if worker.None? {
      return true;
    }
    var n: int := job.spec.WorkerReplicas();
    ghost var start := api.State();
    var i := 0;
    while i < n
      invariant 0 <= i
      invariant DeleteWorkers(view, start, env, key, job, 0, n) == DeleteWorkers(view, api.State(), env, key, job, i, n)
      decreases n - i
    {
      var k := WorkerKey(key, i);
      i := i + 1;
      if k !in view.pods {
        continue;
      }
      var pod := view.pods[k];
      if pod.owner != Some(job.uid) {
        return false;
      }
      if job.spec.runPolicy.cleanPodPolicy == Some(CleanRunning) && pod.phase != PodRunning && pod.phase != PodPending {
        continue;
      }
      if DeletePod(k.name) in env.faults {
        return false;
      }
      // A pod that is already gone is not an error.
      var m := TryDelete(false, api.pods, k);
      if m.Some? {
        api.pods := m.value;
      } else {
        assert api.pods - {k} == api.pods;
      }
    }
    ok := true;
  }

  /* ---- countReadyWorkerPods ---- */

  predicate IsReady(pod: Pod) {
    exists c :: c in pod.conditions && c.kind == PodReady && c.status == True
  }

  function CountReady(pods: seq<Pod>): nat {
    if pods == [] then 0 else (if IsReady(pods[0]) then 1 else 0) + CountReady(pods[1..])
  }

  method CountReadyWorkerPods(workers: seq<Pod>) returns (ready: nat)
    ensures ready == CountReady(workers)
  {
    ready := 0;
    for i := 0 to |workers|
      invariant ready + CountReady(workers[i..]) == CountReady(workers)
    {
      var pod := workers[i];
      assert workers[i..][1..] == workers[i + 1..];
      for j := 0 to |pod.conditions|
        invariant forall k :: 0 <= k < j ==> pod.conditions[k].kind != PodReady || pod.conditions[k].status != True
        invariant ready + CountReady(workers[i..]) == CountReady(workers)
      {
        if pod.conditions[j].kind == PodReady && pod.conditions[j].status == True {
          ready := ready + 1;
          break;
        }
      }
    }
  }

  /** All pods are ready exactly when the count is their number. */
  lemma {:induction false} CountReadyAll(pods: seq<Pod>)
    ensures CountReady(pods) <= |pods|
    ensures CountReady(pods) == |pods| <==> forall i :: 0 <= i < |pods| ==> IsReady(pods[i])
  {
    if pods != [] {
      CountReadyAll(pods[1..]);
      assert forall i :: 0 < i < |pods| ==> pods[i] == pods[1..][i - 1];
    }
  }
}
