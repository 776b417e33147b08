/** The API server as the controller sees it: create, update and delete by key, any call may fail. */
module Api {
  import opened Types
  import opened PodGroups

  datatype ApiCall =
    | CreateService | UpdateService
    | CreateConfigMap | UpdateConfigMap
    | GenerateSshKey | CreateSecret | UpdateSecret
    | CreatePodGroup | UpdatePodGroup | DeletePodGroup
    | CreateLauncher | UpdateLauncher
    | CreatePod(pod: string) | DeletePod(pod: string)
    | UpdateStatus

  /** All that one sync takes from outside its snapshot: the calls that fail, the clock, the orders in
      which the lister and the sort return things, what the API server and the key generator make up,
      and whether a gang scheduler is configured. */
  datatype Env = Env(
    faults: set<ApiCall>,
    now: Time,
    runningOrder: seq<Key>,
    workerOrder: seq<Key>,
    launcherPodOrder: seq<Key>,
    replicaOrder: seq<ReplicaPriority>,
    gang: Option<GangScheduler>,
    launcherUid: Uid,
    privateKey: string,
    publicKey: string)

  /** What a step of the controller leaves in the API server, and whether it returned an error. */
  datatype Step<+T> = Ok(live: Cluster, value: T) | Err(live: Cluster) {
    predicate IsFailure() { Err? }
    function PropagateFailure<U>(): Step<U>
      requires Err?
    {
      Err(live)
    }
    function Extract(): (Cluster, T)
      requires Ok?
    {
      (live, value)
    }
  }

  /** Create fails if the object exists. */
  function TryCreate<V>(fails: bool, m: map<Key, V>, key: Key, v: V): Option<map<Key, V>> {
    if fails || key in m then None else Some(m[key := v])
  }

  /** Update fails unless the object is still the one that was read (resource versions). */
  function TryUpdate<V(==)>(fails: bool, m: map<Key, V>, key: Key, seen: V, v: V): Option<map<Key, V>> {
    if fails || key !in m || m[key] != seen then None else Some(m[key := v])
  }

  /** Delete fails if there is nothing to delete. */
  function TryDelete<V>(fails: bool, m: map<Key, V>, key: Key): Option<map<Key, V>> {
    if fails || key !in m then None else Some(m - {key})
  }

  class ApiServer {
    var groupJobs: map<Key, GroupJob>
    var services: map<Key, Service>
    var configMaps: map<Key, ConfigMap>
    var secrets: map<Key, Secret>
    var podGroups: map<Key, PodGroup>
    var pods: map<Key, Pod>
    var jobs: map<Key, BatchJob>
    const priorityClasses: map<string, int32>

    constructor (c: Cluster)
      ensures State() == c
    {
      groupJobs, services, configMaps, secrets := c.groupJobs, c.services, c.configMaps, c.secrets;
      podGroups, pods, jobs, priorityClasses := c.podGroups, c.pods, c.jobs, c.priorityClasses;
    }

    function State(): Cluster
      reads this
    {
      Cluster(groupJobs, services, configMaps, secrets, podGroups, pods, jobs, priorityClasses)
    }
  }
}
