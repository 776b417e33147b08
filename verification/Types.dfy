/** The objects the group operator reads and writes: the GroupJob resource, the
    Kubernetes objects derived from it, and the cluster that stores them.
    A Go pointer that may be nil is an Option; a nil map or slice is the empty one,
    except for the replica specs, where validation tells nil from empty. */
module Types {

  datatype Option<+T> = None | Some(value: T) {
    function GetOr(default: T): T {
      if Some? then value else default
    }
  }

  type int32 = x: int | -0x8000_0000 <= x < 0x8000_0000
  const INT32_MAX: int := 0x7fff_ffff

  /** The value a Go int32 expression has when its mathematical value is `x`. */
  function Wrap32(x: int): int32 {
    (x + 0x8000_0000) % 0x1_0000_0000 - 0x8000_0000
  }

  type Time = int
  type Uid = nat

  /** Namespace and name of an object; objects of different kinds have their own maps. */
  datatype Key = Key(namespace: string, name: string)

  /* ---- Labels ---- */

  datatype LabelKey =
    | OperatorNameLabel
    | JobNameLabel
    | JobRoleLabel
    | ReplicaIndexLabel
    | OtherLabel(name: string)

  type Labels = map<LabelKey, string>

  const OPERATOR_NAME := "group-operator"
  const WORKER_ROLE := "worker"
  const LAUNCHER_ROLE := "launcher"

  function DefaultLabels(jobName: string, role: string): Labels {
    map[OperatorNameLabel := OPERATOR_NAME, JobNameLabel := jobName, JobRoleLabel := role]
  }

  /** Does the worker selector of the job called `jobName` match an object with `labels`? */
  predicate WorkerSelects(jobName: string, labels: Labels) {
    && OperatorNameLabel in labels && labels[OperatorNameLabel] == OPERATOR_NAME
    && JobNameLabel in labels && labels[JobNameLabel] == jobName
    && JobRoleLabel in labels && labels[JobRoleLabel] == WORKER_ROLE
  }

  /* ---- The GroupJob resource ---- */

  datatype ReplicaType = Launcher | Worker | OtherReplica(name: string)
  datatype CleanPodPolicy = CleanUndefined | CleanAll | CleanRunning | CleanNone | CleanOther(name: string)
  datatype RestartPolicy = RestartUnset | Always | OnFailure | Never | ExitCode | RestartOther(name: string)
  datatype LauncherCreationPolicy = CreationUnset | AtStartup | WaitForWorkersReady | CreationOther(name: string)
  datatype MpiImplementation = MpiUnset | OpenMPI | Intel | MPICH | MpiOther(name: string)

  type ResourceList = map<string, int>
  datatype Resources = Resources(requests: map<string, nat>, limits: map<string, nat>)

  datatype ReplicaSpec = ReplicaSpec(
    replicas: Option<int32>,
    restartPolicy: RestartPolicy,
    priorityClassName: string,
    labels: Labels,
    containers: seq<Resources>)

  datatype SchedulingPolicy = SchedulingPolicy(
    minAvailable: Option<int32>,
    queue: string,
    minResources: Option<ResourceList>,
    priorityClass: string,
    scheduleTimeoutSeconds: Option<int32>)

  datatype RunPolicy = RunPolicy(
    cleanPodPolicy: Option<CleanPodPolicy>,
    ttlSecondsAfterFinished: Option<int32>,
    activeDeadlineSeconds: Option<int>,
    backoffLimit: Option<int32>,
    schedulingPolicy: Option<SchedulingPolicy>,
    suspend: Option<bool>,
    managedBy: Option<string>)

  datatype GroupJobSpec = GroupJobSpec(
    slotsPerWorker: Option<int32>,
    runLauncherAsWorker: Option<bool>,
    runPolicy: RunPolicy,
    replicaSpecs: Option<map<ReplicaType, ReplicaSpec>>,
    sshAuthMountPath: string,
    launcherCreationPolicy: LauncherCreationPolicy,
    mpiImplementation: MpiImplementation)
  {
    /** The replica spec stored under `t`; None for Go's nil. */
    function Replica(t: ReplicaType): Option<ReplicaSpec> {
      if replicaSpecs.Some? && t in replicaSpecs.value then Some(replicaSpecs.value[t]) else None
    }

    predicate Suspended() { runPolicy.suspend == Some(true) }

    predicate RunsLauncherAsWorker() { runLauncherAsWorker == Some(true) }

    function WorkerReplicas(): int32 {
      match Replica(Worker)
      case Some(w) => w.replicas.GetOr(0)
      case None => 0
    }
  }

  datatype ConditionType = Created | Running | Restarting | Succeeded | Suspended | Failed
  datatype ConditionStatus = True | False | Unknown

  datatype JobCondition = JobCondition(
    kind: ConditionType,
    status: ConditionStatus,
    lastUpdateTime: Time,
    lastTransitionTime: Time,
    reason: string)

  datatype ReplicaStatus = ReplicaStatus(active: int, succeeded: int, failed: int)
  const NO_REPLICAS := ReplicaStatus(0, 0, 0)

  datatype JobStatus = JobStatus(
    conditions: seq<JobCondition>,
    replicaStatuses: map<ReplicaType, ReplicaStatus>,
    startTime: Option<Time>,
    completionTime: Option<Time>)

  const EMPTY_STATUS := JobStatus([], map[], None, None)

  datatype GroupJob = GroupJob(
    uid: Uid,
    deleting: bool,
    queueAnnotation: string,
    spec: GroupJobSpec,
    status: JobStatus)

  /* ---- Objects derived from a GroupJob ---- */

  datatype Phase = PodPending | PodRunning | PodSucceeded | PodFailed | PodUnknown
  datatype PodConditionType = PodReady | OtherPodCondition(name: string)
  datatype PodCondition = PodCondition(kind: PodConditionType, status: ConditionStatus)

  datatype Pod = Pod(
    owner: Option<Uid>,
    labels: Labels,
    phase: Phase,
    reason: string,
    creationTime: Time,
    conditions: seq<PodCondition>)

  datatype BatchConditionType = BatchComplete | BatchFailed | OtherBatchCondition(name: string)
  datatype BatchCondition = BatchCondition(kind: BatchConditionType, status: ConditionStatus, reason: string)

  /** A batch/v1 Job; the launcher runs as one. Its pods get `podLabels`. */
  datatype BatchJob = BatchJob(
    uid: Uid,
    owner: Option<Uid>,
    suspend: Option<bool>,
    conditions: seq<BatchCondition>,
    failed: int,
    completionTime: Option<Time>,
    podLabels: Labels)
  {
    predicate IsSuspended() { suspend == Some(true) }
  }

  datatype Service = Service(owner: Option<Uid>, selector: Labels)
  datatype ConfigMap = ConfigMap(owner: Option<Uid>, data: map<string, string>)
  datatype Secret = Secret(owner: Option<Uid>, data: map<string, string>)

  datatype PodGroupSpec = PodGroupSpec(
    minMember: int32,
    queue: string,
    priorityClassName: string,
    scheduleTimeoutSeconds: int32,
    minResources: Option<ResourceList>)
  datatype PodGroup = PodGroup(owner: Option<Uid>, spec: PodGroupSpec)

  /** Everything the API server stores, one map per kind; also the type of a lister's snapshot. */
  datatype Cluster = Cluster(
    groupJobs: map<Key, GroupJob>,
    services: map<Key, Service>,
    configMaps: map<Key, ConfigMap>,
    secrets: map<Key, Secret>,
    podGroups: map<Key, PodGroup>,
    pods: map<Key, Pod>,
    jobs: map<Key, BatchJob>,
    priorityClasses: map<string, int32>)
}
