/** Worker pods converge: what getOrCreateWorker does to a job's own pods, round after round
    (pkg/controller/mpi_job_controller.go). */
module Scaling {
  import opened Types
  import opened Names
  import opened Listings
  import opened Api
  import opened Workers

  const INDEX_LIMIT: int := 0x8000_0000

  /** The keys the worker selector matches. */
  ghost function WorkerKeys(pods: map<Key, Pod>, key: Key): set<Key> {
    set k | k in pods && WorkerFilter(pods, key)(k)
  }

  /** The keys of workers 0 to n - 1. */
  ghost function Wanted(key: Key, n: int): set<Key> {
    set i | 0 <= i < n :: WorkerKey(key, i)
  }

  /** Is the pod worker `i` of the job with this uid? Its label may be the one that goes with either value of
      runLauncherAsWorker: the flag may have been changed since the pod was created. */
  ghost predicate IsWorker(pod: Pod, key: Key, uid: Uid, i: nat) {
    && pod.owner == Some(uid) && WorkerSelects(key.name, pod.labels)
    && ReplicaIndexLabel in pod.labels && pod.labels[ReplicaIndexLabel] in {Itoa(i), Itoa(i + 1)}
    && i < INDEX_LIMIT
  }

  /** Is the pod at `k` one of the job's workers, with a label that goes with its name? */
  ghost predicate IsWorkerAt(pods: map<Key, Pod>, key: Key, uid: Uid, k: Key)
    requires k in pods
  {
    exists i: nat :: k == WorkerKey(key, i) && IsWorker(pods[k], key, uid, i)
  }

  /** No foreign pods: the selected pods and the pods with workers' names are the job's own workers. */
  ghost predicate OwnWorkers(pods: map<Key, Pod>, key: Key, uid: Uid) {
    && (forall k :: k in WorkerKeys(pods, key) ==> IsWorkerAt(pods, key, uid, k))
    && (forall i: nat :: WorkerKey(key, i) in pods ==> WorkerKey(key, i) in WorkerKeys(pods, key))
  }

  /** No pod call fails. */
  ghost predicate NoPodFaults(env: Env) {
    forall name :: CreatePod(name) !in env.faults && DeletePod(name) !in env.faults
  }

  lemma WantedMembers(key: Key, n: nat)
    ensures forall i: nat :: WorkerKey(key, i) in Wanted(key, n) <==> i < n
  {
    hide WorkerKey;
    forall i: nat ensures WorkerKey(key, i) in Wanted(key, n) <==> i < n {
      if WorkerKey(key, i) in Wanted(key, n) {
        var j :| 0 <= j < n && WorkerKey(key, i) == WorkerKey(key, j);
        WorkerKeyInjective(key, i, key, j);
      }
    }
  }

  lemma WantedStep(key: Key, n: nat)
    ensures Wanted(key, n + 1) == Wanted(key, n) + {WorkerKey(key, n)}
  {
    hide WorkerKey;
  }

  lemma {:induction false} WantedSize(key: Key, n: nat)
    ensures |Wanted(key, n)| == n
    ensures forall i: nat :: WorkerKey(key, i) in Wanted(key, n) <==> i < n
  {
    WantedMembers(key, n);
    if n > 0 {
      hide WorkerKey;
      WantedSize(key, n - 1);
      WantedStep(key, n - 1);
      hide Wanted;
    }
  }

  /* ---- One round in closed form ---- */

  lemma OwnIndex(pods: map<Key, Pod>, key: Key, uid: Uid, i: nat)
    requires OwnWorkers(pods, key, uid) && WorkerKey(key, i) in pods
    ensures IsWorker(pods[WorkerKey(key, i)], key, uid, i)
    ensures Atoi(pods[WorkerKey(key, i)].labels[ReplicaIndexLabel]) in {Some(i), Some(i + 1)}
  {
    var k := WorkerKey(key, i);
    assert k in WorkerKeys(pods, key);
    var j: nat :| k == WorkerKey(key, j) && IsWorker(pods[k], key, uid, j);
    WorkerKeyInjective(key, i, key, j);
    AtoiOfItoa(i);
    AtoiOfItoa(i + 1);
  }

  ghost predicate HasSurplusLabel(pods: map<Key, Pod>, k: Key, n: int) {
    && k in pods && ReplicaIndexLabel in pods[k].labels
    && Atoi(pods[k].labels[ReplicaIndexLabel]).Some? && Atoi(pods[k].labels[ReplicaIndexLabel]).value >= n
  }

  /** The workers whose index label is below the replica count. */
  ghost function Kept(pods: map<Key, Pod>, key: Key, n: int): set<Key> {
    set k | k in WorkerKeys(pods, key) && !HasSurplusLabel(pods, k, n)
  }

  /** All of the job's workers below the last one wanted are kept, and none beyond it. */
  lemma KeptBetween(pods: map<Key, Pod>, key: Key, uid: Uid, n: nat)
    requires OwnWorkers(pods, key, uid)
    ensures WorkerKeys(pods, key) * Wanted(key, n - 1) <= Kept(pods, key, n) <= Wanted(key, n)
    ensures Kept(pods, key, n) <= WorkerKeys(pods, key)
  {
    forall k | k in WorkerKeys(pods, key)
      ensures k in Wanted(key, n - 1) ==> k in Kept(pods, key, n)
      ensures k in Kept(pods, key, n) ==> k in Wanted(key, n)
    {
      assert IsWorkerAt(pods, key, uid, k);
      var i: nat :| k == WorkerKey(key, i) && IsWorker(pods[k], key, uid, i);
      OwnIndex(pods, key, uid, i);
      hide WorkerKey, OwnWorkers, WorkerKeys;
      if k in Wanted(key, n - 1) {
        WantedMembers(key, n - 1);
      }
      if i < n {
        WantedMembers(key, n);
      }
    }
  }

  ghost function SurplusOf(pods: map<Key, Pod>, keys: seq<Key>, n: int): set<Key> {
    set k | k in keys && HasSurplusLabel(pods, k, n)
  }

  lemma SurplusCons(pods: map<Key, Pod>, keys: seq<Key>, n: int)
    requires keys != [] && keys[0] in pods && ReplicaIndexLabel in pods[keys[0]].labels
    ensures SurplusOf(pods, keys, n) ==
            (if HasSurplusLabel(pods, keys[0], n) then {keys[0]} else {}) + SurplusOf(pods, keys[1..], n)
  {
    hide HasSurplusLabel;
    assert keys == [keys[0]] + keys[1..];
  }

  /** May the scale-down loop pass this pod: is it labelled, and if its label is out of range, still there and its
      deletion not failing? */
  ghost predicate MayScale(view: Cluster, live: Cluster, env: Env, k: Key, n: int)
    requires k in view.pods
  {
    && ReplicaIndexLabel in view.pods[k].labels
    && (HasSurplusLabel(view.pods, k, n) ==> k in live.pods && DeletePod(k.name) !in env.faults)
  }

  lemma MayScaleRest(view: Cluster, live: Cluster, env: Env, keys: seq<Key>, k: Key, n: int)
    requires k !in keys && forall x :: x in keys ==> x in view.pods
    ensures forall x :: x in keys ==>
              (MayScale(view, live.(pods := live.pods - {k}), env, x, n) <==> MayScale(view, live, env, x, n))
  {
    hide HasSurplusLabel;
  }

  lemma MayScaleHead(view: Cluster, live: Cluster, env: Env, keys: seq<Key>, n: int)
    requires keys != [] && NoDup(keys) && forall k :: k in keys ==> k in view.pods
    ensures keys[0] !in keys[1..] && NoDup(keys[1..]) && forall k :: k in keys[1..] ==> k in view.pods
    ensures (forall k :: k in keys ==> MayScale(view, live, env, k, n)) <==>
            MayScale(view, live, env, keys[0], n) && forall k :: k in keys[1..] ==> MayScale(view, live, env, k, n)
  {
    hide MayScale;
    assert keys == [keys[0]] + keys[1..];
  }

  /** The scale-down loop gets through the listed pods if and only if each is labelled and each deletion it needs
      succeeds; a pod that is already gone is an error here. It then has deleted exactly those whose label is out of
      range. */
  lemma {:induction false} DeleteSurplusDeletes(view: Cluster, live: Cluster, env: Env, keys: seq<Key>, n: int)
    requires NoDup(keys) && forall k :: k in keys ==> k in view.pods
    ensures var r := DeleteSurplus(view, live, env, keys, n);
            && (r.Scaled? <==> forall k :: k in keys ==> MayScale(view, live, env, k, n))
            && (r.Scaled? ==> r.live == live.(pods := live.pods - SurplusOf(view.pods, keys, n)))
    decreases keys
  {
    hide Atoi, SurplusOf, NoDup;
    if keys == [] {
      NoSurplus(view.pods, n);
      assert live.pods - {} == live.pods;
    } else {
      var k, rest := keys[0], keys[1..];
      MayScaleHead(view, live, env, keys, n);
      if ReplicaIndexLabel in view.pods[k].labels {
        SurplusCons(view.pods, keys, n);
        SurplusByLabel(view, k, n);
        MayScaleRest(view, live, env, rest, k, n);
        hide HasSurplusLabel, Surplus;
        var gone := SurplusOf(view.pods, rest, n);
        if HasSurplusLabel(view.pods, k, n) {
          DeleteSurplusDeletes(view, live.(pods := live.pods - {k}), env, rest, n);
          RemovedBoth(live.pods, k, gone);
        } else {
          DeleteSurplusDeletes(view, live, env, rest, n);
          assert {} + gone == gone;
        }
      }
    }
  }

  lemma SurplusByLabel(view: Cluster, k: Key, n: int)
    requires k in view.pods && ReplicaIndexLabel in view.pods[k].labels
    ensures Surplus(view, k, n) == HasSurplusLabel(view.pods, k, n)
  {
  }

  lemma RemovedBoth(pods: map<Key, Pod>, k: Key, gone: set<Key>)
    ensures pods - {k} - gone == pods - ({k} + gone)
  {
  }

  lemma NoSurplus(pods: map<Key, Pod>, n: int)
    ensures SurplusOf(pods, [], n) == {}
  {
  }

  function WorkerPod(view: Cluster, key: Key, job: GroupJob, w: ReplicaSpec, env: Env, i: nat): Pod {
    if WorkerKey(key, i) in view.pods then view.pods[WorkerKey(key, i)] else NewWorker(key, job, w, i, env)
  }

  ghost function WorkerPods(view: Cluster, key: Key, job: GroupJob, w: ReplicaSpec, env: Env, i: nat, n: nat): seq<Pod>
    requires i <= n
  {
    seq(n - i, j requires 0 <= j < n - i => WorkerPod(view, key, job, w, env, i + j))
  }

  /** The keys of workers i to n - 1 that the snapshot lacks. */
  ghost function Missing(pods: map<Key, Pod>, key: Key, i: nat, n: nat): set<Key> {
    set j | i <= j < n && WorkerKey(key, j) !in pods :: WorkerKey(key, j)
  }

  lemma MissingStep(pods: map<Key, Pod>, key: Key, i: nat, n: nat)
    requires i < n
    ensures Missing(pods, key, i, n) ==
            (if WorkerKey(key, i) in pods then {} else {WorkerKey(key, i)}) + Missing(pods, key, i + 1, n)
    ensures WorkerKey(key, i) !in Missing(pods, key, i + 1, n)
  {
    forall j | i + 1 <= j < n ensures WorkerKey(key, j) != WorkerKey(key, i) {
      WorkerKeyInjective(key, i, key, j);
    }
    hide WorkerKey;
  }

  /** The creation loop adds exactly the missing workers and returns worker i at position i. */
  lemma {:induction false} EnsureWorkersCreates(view: Cluster, live: Cluster, env: Env, key: Key, job: GroupJob,
                                                w: ReplicaSpec,
                                                i: nat, n: nat, found: seq<Pod>)
    requires i <= n && NoPodFaults(env) && OwnersInRange(view.pods, key, job, i, n)
    requires Missing(view.pods, key, i, n) !! live.pods.Keys
    ensures var r := EnsureWorkers(view, live, env, key, job, w, i, n, found);
            && r.Ok? && r.live == live.(pods := r.live.pods)
            && r.value == found + WorkerPods(view, key, job, w, env, i, n)
            && r.live.pods.Keys == live.pods.Keys + Missing(view.pods, key, i, n)
            && (forall k :: k in live.pods ==> r.live.pods[k] == live.pods[k])
            && MissingAreNew(view.pods, r.live.pods, key, job, w, env, i, n)
    decreases n - i
  {
    hide WorkerKey, NewWorker, Missing, MissingAreNew;
    if i < n {
      MissingStep(view.pods, key, i, n);
      var k := WorkerKey(key, i);
      var pod := WorkerPod(view, key, job, w, env, i);
      WorkerPodsStep(view, key, job, w, env, i, n);
      hide WorkerPods;
      assert found + [pod] + WorkerPods(view, key, job, w, env, i + 1, n) ==
             found + ([pod] + WorkerPods(view, key, job, w, env, i + 1, n));
      if k in view.pods {
        EnsureWorkersCreates(view, live, env, key, job, w, i + 1, n, found + [pod]);
      } else {
        EnsureWorkersCreates(view, live.(pods := live.pods[k := pod]), env, key, job, w, i + 1, n, found + [pod]);
      }
      var r := EnsureWorkers(view, live, env, key, job, w, i, n, found);
      MissingNewStep(view.pods, r.live.pods, key, job, w, env, i, n);
    } else {
      MissingNone(view.pods, key, n);
      NoneMissing(view.pods, live.pods, key, job, w, env, n);
    }
  }

  lemma NoneMissing(pods: map<Key, Pod>, after: map<Key, Pod>, key: Key, job: GroupJob, w: ReplicaSpec, env: Env,
                    n: nat)
    ensures MissingAreNew(pods, after, key, job, w, env, n, n)
  {
  }

  lemma MissingNewStep(pods: map<Key, Pod>, after: map<Key, Pod>, key: Key, job: GroupJob, w: ReplicaSpec, env: Env,
                       i: nat, n: nat)
    requires MissingAreNew(pods, after, key, job, w, env, i + 1, n)
    requires WorkerKey(key, i) !in pods ==>
               WorkerKey(key, i) in after && after[WorkerKey(key, i)] == NewWorker(key, job, w, i, env)
    ensures MissingAreNew(pods, after, key, job, w, env, i, n)
  {
    hide WorkerKey, NewWorker;
  }

  lemma WorkerPodsStep(view: Cluster, key: Key, job: GroupJob, w: ReplicaSpec, env: Env, i: nat, n: nat)
    requires i < n
    ensures WorkerPods(view, key, job, w, env, i, n) ==
            [WorkerPod(view, key, job, w, env, i)] + WorkerPods(view, key, job, w, env, i + 1, n)
  {
    hide WorkerPod;
  }

  lemma MissingNone(pods: map<Key, Pod>, key: Key, n: nat)
    ensures Missing(pods, key, n, n) == {}
  {
  }

  ghost predicate OwnersInRange(pods: map<Key, Pod>, key: Key, job: GroupJob, i: nat, n: nat) {
    forall j :: i <= j < n && WorkerKey(key, j) in pods ==> pods[WorkerKey(key, j)].owner == Some(job.uid)
  }

  ghost predicate MissingAreNew(pods: map<Key, Pod>, after: map<Key, Pod>, key: Key, job: GroupJob, w: ReplicaSpec,
                                env: Env, i: nat, n: nat)
  {
    forall j :: i <= j < n && WorkerKey(key, j) !in pods ==>
      WorkerKey(key, j) in after && after[WorkerKey(key, j)] == NewWorker(key, job, w, j, env)
  }

  /** What the next round makes of the set of worker keys. */
  ghost function NextKeys(keys: set<Key>, wanted: set<Key>, kept: set<Key>): set<Key> {
    if |keys| > |wanted| then keys * kept + (wanted - keys) else keys + wanted
  }

  /** A round of getOrCreateWorker: returns workers 0 to n - 1, moves the key set as NextKeys says,
      keeps every pod it does not delete, and leaves all other pods alone. */
  lemma WorkerRound(view: Cluster, live: Cluster, env: Env, key: Key, job: GroupJob)
    requires live.pods == view.pods && NoPodFaults(env) && IsListing(env.workerOrder, view.pods.Keys)
    requires OwnWorkers(view.pods, key, job.uid) && job.spec.Replica(Worker).Some? && job.spec.WorkerReplicas() >= 0
    ensures var r := GetWorkers(view, live, env, key, job);
            var n, w := job.spec.WorkerReplicas(), job.spec.Replica(Worker).value;
            var before, after := WorkerKeys(view.pods, key), WorkerKeys(r.live.pods, key);
            && r.Ok? && r.live == live.(pods := r.live.pods)
            && r.value == WorkerPods(view, key, job, w, env, 0, n)
            && after == NextKeys(before, Wanted(key, n), Kept(view.pods, key, n))
            && OwnWorkers(r.live.pods, key, job.uid)
            && (forall k :: k in view.pods && k in r.live.pods ==> r.live.pods[k] == view.pods[k])
            && (forall k :: k !in before && k !in after ==> (k in view.pods <==> k in r.live.pods))
            && MissingAreNew(view.pods, r.live.pods, key, job, w, env, 0, n)
  {
    hide WorkerKey, NewWorker, HasSurplusLabel, Kept, Wanted, GetWorkers, EnsureWorkers, OwnWorkers, WorkerPods,
         Missing, MissingAreNew, NextKeys, WorkerKeys, OwnersInRange;
    var n, w := job.spec.WorkerReplicas(), job.spec.Replica(Worker).value;
    var gone := RoundDeletes(view, live, env, key, job);
    WantedSize(key, n);
    OwnersHold(view.pods, key, job, n);
    MissingDisjoint(view.pods, key, n);
    KeysAreNext(WorkerKeys(view.pods, key), gone, Wanted(key, n), Kept(view.pods, key, n));
    EnsureWorkersCreates(view, live.(pods := live.pods - gone), env, key, job, w, 0, n, []);
    RoundKeys(view.pods, GetWorkers(view, live, env, key, job).live.pods, gone, key, job, w, n, env);
    assert [] + WorkerPods(view, key, job, w, env, 0, n) == WorkerPods(view, key, job, w, env, 0, n);
  }

  lemma KeysAreNext(before: set<Key>, gone: set<Key>, wanted: set<Key>, kept: set<Key>)
    requires gone == if |before| > |wanted| then before - kept else {}
    ensures before - gone + (wanted - before) == NextKeys(before, wanted, kept)
    ensures gone <= before
  {
  }

  lemma MissingDisjoint(pods: map<Key, Pod>, key: Key, n: nat)
    ensures Missing(pods, key, 0, n) !! pods.Keys
  {
  }

  lemma OwnersHold(pods: map<Key, Pod>, key: Key, job: GroupJob, n: nat)
    requires OwnWorkers(pods, key, job.uid)
    ensures OwnersInRange(pods, key, job, 0, n)
  {
    forall j | 0 <= j < n && WorkerKey(key, j) in pods ensures pods[WorkerKey(key, j)].owner == Some(job.uid) {
      OwnIndex(pods, key, job.uid, j);
    }
  }

  /** The first half of a round: the keys deleted before the creation loop starts. */
  lemma RoundDeletes(view: Cluster, live: Cluster, env: Env, key: Key, job: GroupJob) returns (gone: set<Key>)
    requires live.pods == view.pods && NoPodFaults(env) && IsListing(env.workerOrder, view.pods.Keys)
    requires OwnWorkers(view.pods, key, job.uid) && job.spec.Replica(Worker).Some? && job.spec.WorkerReplicas() >= 0
    ensures var n := job.spec.WorkerReplicas();
            && gone == (if |WorkerKeys(view.pods, key)| > n
                        then WorkerKeys(view.pods, key) - Kept(view.pods, key, n) else {})
            && GetWorkers(view, live, env, key, job) ==
               EnsureWorkers(view, live.(pods := live.pods - gone), env, key, job, job.spec.Replica(Worker).value, 0,
                   n, [])
  {
    hide WorkerKey, NewWorker, SurplusOf, Kept, EnsureWorkers, DeleteSurplus;
    var n := job.spec.WorkerReplicas();
    var keys := SelectedPods(view, env.workerOrder, key);
    FilterMembers(env.workerOrder, WorkerFilter(view.pods, key));
    NoDupLength(keys, WorkerKeys(view.pods, key));
    forall k | k in keys ensures ReplicaIndexLabel in view.pods[k].labels {
      assert IsWorkerAt(view.pods, key, job.uid, k);
    }
    DeleteSurplusDeletes(view, live, env, keys, n);
    gone := if |keys| > n then SurplusOf(view.pods, keys, n) else {};
    assert live.pods - {} == live.pods;
    SurplusKeys(view.pods, key, gone, keys, n);
  }

  /** The deleted keys are the workers not kept. */
  lemma SurplusKeys(pods: map<Key, Pod>, key: Key, gone: set<Key>, keys: seq<Key>, n: nat)
    requires forall k :: k in keys <==> k in WorkerKeys(pods, key)
    requires gone == if |keys| > n then SurplusOf(pods, keys, n) else {}
    ensures gone == if |keys| > n then WorkerKeys(pods, key) - Kept(pods, key, n) else {}
  {
    hide HasSurplusLabel, WorkerKeys;
  }

  lemma NewWorkerIsWorker(key: Key, job: GroupJob, w: ReplicaSpec, i: nat, env: Env)
    requires i < INDEX_LIMIT
    ensures IsWorker(NewWorker(key, job, w, i, env), key, job.uid, i)
  {
  }

  /** From what stays, what goes and what is added to the keys of the next round. */
  lemma RoundKeys(pods: map<Key, Pod>, after: map<Key, Pod>, gone: set<Key>, key: Key, job: GroupJob, w: ReplicaSpec,
                  n: nat, env: Env)
    requires OwnWorkers(pods, key, job.uid) && n < INDEX_LIMIT && gone <= WorkerKeys(pods, key)
    requires after.Keys == pods.Keys - gone + Missing(pods, key, 0, n)
    requires forall k :: k in pods && k !in gone ==> after[k] == pods[k]
    requires MissingAreNew(pods, after, key, job, w, env, 0, n)
    ensures WorkerKeys(after, key) == WorkerKeys(pods, key) - gone + (Wanted(key, n) - WorkerKeys(pods, key))
    ensures Missing(pods, key, 0, n) <= WorkerKeys(after, key)
    ensures OwnWorkers(after, key, job.uid)
  {
    var before := WorkerKeys(pods, key);
    forall k | k in after && k !in pods
      ensures IsWorkerAt(after, key, job.uid, k) && k in WorkerKeys(after, key) && k in Wanted(key, n) - before
    {
      var j :| 0 <= j < n && k == WorkerKey(key, j) && k !in pods;
      NewWorkerIsWorker(key, job, w, j, env);
      assert IsWorker(after[k], key, job.uid, j);
    }
    forall k | k in after && k in pods ensures k !in gone && after[k] == pods[k] {
    }
    forall k | k in Wanted(key, n) - before ensures k in WorkerKeys(after, key) {
      var j :| 0 <= j < n && k == WorkerKey(key, j);
      assert k !in pods;
      NewWorkerIsWorker(key, job, w, j, env);
    }
    forall k | k in WorkerKeys(after, key) ensures IsWorkerAt(after, key, job.uid, k) {
      if k in pods {
        assert k in before;
        assert IsWorkerAt(pods, key, job.uid, k);
      }
    }
    forall i: nat | WorkerKey(key, i) in after ensures WorkerKey(key, i) in WorkerKeys(after, key) {
      if WorkerKey(key, i) in pods {
        assert WorkerKey(key, i) in before;
      }
    }
  }

  /* ---- Convergence ---- */

  /** Two rounds leave at most the wanted keys, whatever each round keeps of them but the last; they reach
      the wanted keys unless the first round had surplus keys without having too many. */
  lemma KeysConverge(k0: set<Key>, k1: set<Key>, k2: set<Key>, wanted: set<Key>, kept0: set<Key>, kept1: set<Key>)
    requires k1 == NextKeys(k0, wanted, kept0) && k2 == NextKeys(k1, wanted, kept1)
    requires kept0 <= wanted && kept1 <= wanted && kept1 <= k1
    ensures k2 <= wanted
    ensures |k0| > |wanted| || k0 <= wanted ==> k2 == wanted
    ensures !(|k0| > |wanted| || k0 <= wanted) ==> k2 == kept1 && k1 == k0 + wanted
  {
    if |k0| > |wanted| {
      assert k1 <= wanted;
      FewKeys(k1, wanted, kept1);
    } else if k0 <= wanted {
      assert k1 == wanted;
      assert wanted + wanted == wanted;
    } else {
      assert k1 == k0 + wanted && wanted < k1;
      Smaller(wanted, k1);
      assert k1 * kept1 + (wanted - k1) == kept1;
    }
  }

  /** From among the wanted keys one round reaches them all. */
  lemma FewKeys(keys: set<Key>, wanted: set<Key>, kept: set<Key>)
    requires keys <= wanted
    ensures NextKeys(keys, wanted, kept) == wanted
  {
    if keys != wanted {
      Smaller(keys, wanted);
    }
    assert keys + wanted == wanted;
  }

  lemma Smaller(a: set<Key>, b: set<Key>)
    requires a < b
    ensures |a| < |b|
  {
    assert b == a + (b - a);
    assert |b| == |a| + |b - a|;
    var x :| x in b - a;
  }

  /** A round of getOrCreateWorker on a snapshot that has caught up. */
  ghost predicate IsRound(c: Cluster, c': Cluster, env: Env, key: Key, job: GroupJob) {
    && NoPodFaults(env) && IsListing(env.workerOrder, c.pods.Keys)
    && c' == GetWorkers(c, c, env, key, job).live
  }

  /** Does the round after this one find worker n - 1 with label n? Then the pod was created, or will be,
      with the launcher running as a worker. */
  ghost predicate LastIsShifted(pods: map<Key, Pod>, key: Key, job: GroupJob, n: nat) {
    n > 0 && if WorkerKey(key, n - 1) in pods then HasSurplusLabel(pods, WorkerKey(key, n - 1), n)
             else job.spec.RunsLauncherAsWorker()
  }

  /** Of the workers wanted, only the last may not be kept, and only if its label is shifted. */
  lemma KeptAllIff(pods: map<Key, Pod>, key: Key, uid: Uid, n: nat)
    requires OwnWorkers(pods, key, uid) && Wanted(key, n) <= WorkerKeys(pods, key)
    ensures Kept(pods, key, n) == Wanted(key, n) <==>
            n == 0 || !HasSurplusLabel(pods, WorkerKey(key, n - 1), n)
  {
    KeptBetween(pods, key, uid, n);
    if n > 0 {
      WantedStep(key, n - 1);
      hide Wanted, OwnWorkers, HasSurplusLabel, WorkerKeys, WorkerKey;
      assert Wanted(key, n - 1) <= Kept(pods, key, n);
      assert WorkerKey(key, n - 1) in Wanted(key, n);
    } else {
      assert Wanted(key, n) == {};
    }
  }

  lemma NewLabelShifted(key: Key, job: GroupJob, w: ReplicaSpec, i: nat, env: Env, pods: map<Key, Pod>)
    requires i < INDEX_LIMIT && WorkerKey(key, i) in pods && pods[WorkerKey(key, i)] == NewWorker(key, job, w, i, env)
    ensures HasSurplusLabel(pods, WorkerKey(key, i), i + 1) <==> job.spec.RunsLauncherAsWorker()
  {
    AtoiOfItoa(i);
    AtoiOfItoa(i + 1);
  }

  /** From any set of the job's own workers, labelled under either value of runLauncherAsWorker, repeated
      rounds reach exactly workers 0 to n - 1 after three rounds, and there they stay. Two rounds are
      enough unless there is a surplus pod but not too many pods and the last wanted worker carries, or
      gets, a shifted label. */
  lemma WorkersConverge(c0: Cluster, c1: Cluster, c2: Cluster, c3: Cluster, c4: Cluster,
                        e0: Env, e1: Env, e2: Env, e3: Env, key: Key, job: GroupJob)
    requires OwnWorkers(c0.pods, key, job.uid) && job.spec.Replica(Worker).Some? && job.spec.WorkerReplicas() >= 0
    requires IsRound(c0, c1, e0, key, job) && IsRound(c1, c2, e1, key, job)
    requires IsRound(c2, c3, e2, key, job) && IsRound(c3, c4, e3, key, job)
    ensures var n := job.spec.WorkerReplicas();
            var wanted := Wanted(key, n);
            && WorkerKeys(c3.pods, key) == wanted && c4.pods == c3.pods
            && WorkerKeys(c2.pods, key) <= wanted
            && (WorkerKeys(c2.pods, key) != wanted <==>
                  && |WorkerKeys(c0.pods, key)| <= n && !(WorkerKeys(c0.pods, key) <= wanted)
                  && LastIsShifted(c0.pods, key, job, n))
  {
    var n := job.spec.WorkerReplicas();
    hide GetWorkers, OwnWorkers, WorkerKeys, Wanted, Kept, LastIsShifted, WorkerPods, NextKeys, MissingAreNew;
    WorkerRound(c0, c0, e0, key, job);
    WorkerRound(c1, c1, e1, key, job);
    WorkerRound(c2, c2, e2, key, job);
    WantedSize(key, n);
    KeptBetween(c0.pods, key, job.uid, n);
    KeptBetween(c1.pods, key, job.uid, n);
    KeysConverge(WorkerKeys(c0.pods, key), WorkerKeys(c1.pods, key), WorkerKeys(c2.pods, key), Wanted(key, n),
                 Kept(c0.pods, key, n), Kept(c1.pods, key, n));
    FewKeys(WorkerKeys(c2.pods, key), Wanted(key, n), Kept(c2.pods, key, n));
    WantedIsFixpoint(c3, c4, e3, key, job);
    if |WorkerKeys(c0.pods, key)| <= n && !(WorkerKeys(c0.pods, key) <= Wanted(key, n)) {
      KeptAllIff(c1.pods, key, job.uid, n);
      LastAfterRound(c0, c1, key, job, e0, n);
    }
  }

  /** What becomes of the last wanted worker in a round that deletes nothing. */
  lemma LastAfterRound(c: Cluster, c': Cluster, key: Key, job: GroupJob, env: Env, n: nat)
    requires job.spec.Replica(Worker).Some? && n == job.spec.WorkerReplicas()
    requires forall k :: k in c.pods && k in c'.pods ==> c'.pods[k] == c.pods[k]
    requires Wanted(key, n) <= WorkerKeys(c'.pods, key)
    requires MissingAreNew(c.pods, c'.pods, key, job, job.spec.Replica(Worker).value, env, 0, n)
    ensures LastIsShifted(c.pods, key, job, n) <==> n > 0 && HasSurplusLabel(c'.pods, WorkerKey(key, n - 1), n)
  {
    if n > 0 {
      WantedStep(key, n - 1);
      hide WorkerKey, NewWorker, Wanted;
      var k := WorkerKey(key, n - 1);
      assert k in WorkerKeys(c'.pods, key);
      assert k in c'.pods;
      if k !in c.pods {
        NewLabelShifted(key, job, job.spec.Replica(Worker).value, n - 1, env, c'.pods);
      }
    }
  }

  /** A round on exactly the wanted workers changes no pod. */
  lemma WantedIsFixpoint(c: Cluster, c': Cluster, env: Env, key: Key, job: GroupJob)
    requires OwnWorkers(c.pods, key, job.uid) && job.spec.Replica(Worker).Some? && job.spec.WorkerReplicas() >= 0
    requires IsRound(c, c', env, key, job) && WorkerKeys(c.pods, key) == Wanted(key, job.spec.WorkerReplicas())
    ensures c'.pods == c.pods
  {
    hide GetWorkers;
    hide OwnWorkers, Wanted, Kept, WorkerKey, WorkerFilter;
    var n := job.spec.WorkerReplicas();
    WorkerRound(c, c, env, key, job);
    FewKeys(WorkerKeys(c.pods, key), Wanted(key, n), Kept(c.pods, key, n));
    assert WorkerKeys(c'.pods, key) == WorkerKeys(c.pods, key);
    assert forall k :: k in WorkerKeys(c.pods, key) ==> k in c.pods && k in c'.pods;
  }
}
