/** Validation of a GroupJob (pkg/apis/kubeflow/validation/validation.go). */
module Validation {
  import opened Types
  import opened Names
  import opened Defaults

  const MULTI_KUEUE_CONTROLLER := "kueue.x-k8s.io/multikueue"
  const KUBEFLOW_JOB_CONTROLLER := "kubeflow.org/group-operator"

  datatype FieldError =
    | NameNotUsable
    | ReplicaSpecsRequired
    | LauncherSpecRequired
    | LauncherReplicasNotOne
    | WorkerReplicasNotPositive
    | ReplicasRequired(t: ReplicaType)
    | RestartPolicyNotSupported(t: ReplicaType)
    | ContainersRequired(t: ReplicaType)
    | SlotsRequired
    | SlotsNegative
    | CleanPodPolicyRequired
    | CleanPodPolicyNotSupported
    | TtlNegative
    | ActiveDeadlineNegative
    | BackoffLimitNegative
    | ManagedByNotSupported
    | SshPathRequired
    | MpiImplementationNotSupported

  /** The worker whose host name is checked: the last one, or worker 0 when none are asked for. */
  function LastWorkerIndex(s: GroupJobSpec): nat {
    if s.WorkerReplicas() > 0 then s.WorkerReplicas() - 1 else 0
  }

  /** Does the job called `name` with spec `s` break the rule that `e` reports? */
  predicate Violates(name: string, s: GroupJobSpec, e: FieldError) {
    match e
    case NameNotUsable => !IsDnsLabel(WorkerName(name, LastWorkerIndex(s)))
    case SlotsRequired => s.slotsPerWorker.None?
    case SlotsNegative => s.slotsPerWorker.Some? && s.slotsPerWorker.value < 0
    case SshPathRequired => s.sshAuthMountPath == ""
    case MpiImplementationNotSupported => s.mpiImplementation !in {OpenMPI, Intel, MPICH}
    case _ => ViolatesReplicas(s, e) || ViolatesRunPolicy(s.runPolicy, e)
  }

  predicate ViolatesReplicas(s: GroupJobSpec, e: FieldError) {
    match e
    case ReplicaSpecsRequired => s.replicaSpecs.None?
    case LauncherSpecRequired => s.replicaSpecs.Some? && s.Replica(Launcher).None?
    case LauncherReplicasNotOne =>
      s.Replica(Launcher).Some? && s.Replica(Launcher).value.replicas !in {None, Some(1)}
    case WorkerReplicasNotPositive =>
      s.Replica(Worker).Some? && s.Replica(Worker).value.replicas.Some? && s.Replica(Worker).value.replicas.value <= 0
    case ReplicasRequired(t) => t in {Launcher, Worker} && s.Replica(t).Some? && s.Replica(t).value.replicas.None?
    case RestartPolicyNotSupported(t) =>
      t in {Launcher, Worker} && s.Replica(t).Some? && s.Replica(t).value.restartPolicy !in {Never, OnFailure}
    case ContainersRequired(t) => t in {Launcher, Worker} && s.Replica(t).Some? && s.Replica(t).value.containers == []
    case _ => false
  }

  predicate ViolatesRunPolicy(policy: RunPolicy, e: FieldError) {
    match e
    case CleanPodPolicyRequired => policy.cleanPodPolicy.None?
    case CleanPodPolicyNotSupported =>
      policy.cleanPodPolicy !in {None, Some(CleanNone), Some(CleanRunning), Some(CleanAll)}
    case TtlNegative => policy.ttlSecondsAfterFinished.GetOr(0) < 0
    case ActiveDeadlineNegative => policy.activeDeadlineSeconds.GetOr(0) < 0
    case BackoffLimitNegative => policy.backoffLimit.GetOr(0) < 0
    case ManagedByNotSupported =>
      policy.managedBy !in {None, Some(MULTI_KUEUE_CONTROLLER), Some(KUBEFLOW_JOB_CONTROLLER)}
    case _ => false
  }

  /** Does validation report nothing? */
  predicate Accepts(name: string, s: GroupJobSpec) {
    && IsDnsLabel(WorkerName(name, LastWorkerIndex(s)))
    && AcceptsReplicas(s)
    && s.slotsPerWorker.GetOr(-1) >= 0
    && AcceptsRunPolicy(s.runPolicy)
    && s.sshAuthMountPath != ""
    && s.mpiImplementation in {OpenMPI, Intel, MPICH}
  }

  predicate AcceptsReplicas(s: GroupJobSpec) {
    && s.Replica(Launcher).Some?
    && AcceptsReplica(s.Replica(Launcher).value) && s.Replica(Launcher).value.replicas == Some(1)
    && (s.Replica(Worker).Some? ==>
          AcceptsReplica(s.Replica(Worker).value) && s.Replica(Worker).value.replicas.value > 0)
  }

  predicate AcceptsRunPolicy(policy: RunPolicy) {
    && policy.cleanPodPolicy in {Some(CleanNone), Some(CleanRunning), Some(CleanAll)}
    && policy.ttlSecondsAfterFinished.GetOr(0) >= 0
    && policy.activeDeadlineSeconds.GetOr(0) >= 0
    && policy.backoffLimit.GetOr(0) >= 0
    && policy.managedBy in {None, Some(MULTI_KUEUE_CONTROLLER), Some(KUBEFLOW_JOB_CONTROLLER)}
  }

  predicate AcceptsReplica(r: ReplicaSpec) {
    r.replicas.Some? && r.restartPolicy in {Never, OnFailure} && r.containers != []
  }

  /* ---- The validators: each appends what it finds ---- */

  method ValidateReplicaSpec(spec: ReplicaSpec, t: ReplicaType) returns (errs: seq<FieldError>)
    ensures forall e :: e in errs <==>
              || (e == ReplicasRequired(t) && spec.replicas.None?)
              || (e == RestartPolicyNotSupported(t) && spec.restartPolicy !in {Never, OnFailure})
              || (e == ContainersRequired(t) && spec.containers == [])
    ensures errs == [] <==> AcceptsReplica(spec)
  {
    errs := [];
    if spec.replicas == None {
      errs := errs + [ReplicasRequired(t)];
    }
    if spec.restartPolicy !in {Never, OnFailure} {
      errs := errs + [RestartPolicyNotSupported(t)];
    }
    if |spec.containers| == 0 {
      errs := errs + [ContainersRequired(t)];
    }
  }

  method ValidateReplicaSpecs(s: GroupJobSpec) returns (errs: seq<FieldError>)
    ensures forall e :: e in errs <==> ViolatesReplicas(s, e)
    ensures errs == [] <==> AcceptsReplicas(s)
  {
    errs := [];
    if s.replicaSpecs == None {
      return [ReplicaSpecsRequired];
    }
    var launcher := s.Replica(Launcher);
    if launcher == None {
      errs := errs + [LauncherSpecRequired];
    } else {
      var more := ValidateReplicaSpec(launcher.value, Launcher);
      errs := errs + more;
      if launcher.value.replicas.Some? && launcher.value.replicas.value != 1 {
        errs := errs + [LauncherReplicasNotOne];
      }
    }
    var worker := s.Replica(Worker);
    if worker.Some? {
      var more := ValidateReplicaSpec(worker.value, Worker);
      errs := errs + more;
      if worker.value.replicas.Some? && worker.value.replicas.value <= 0 {
        errs := errs + [WorkerReplicasNotPositive];
      }
    }
  }

  method ValidateRunPolicy(policy: RunPolicy) returns (errs: seq<FieldError>)
    ensures forall e :: e in errs <==> ViolatesRunPolicy(policy, e)
    ensures errs == [] <==> AcceptsRunPolicy(policy)
  {
    errs := [];
    if policy.cleanPodPolicy == None {
      errs := errs + [CleanPodPolicyRequired];
    } else if policy.cleanPodPolicy.value !in {CleanNone, CleanRunning, CleanAll} {
      errs := errs + [CleanPodPolicyNotSupported];
    }
    if policy.ttlSecondsAfterFinished.Some? && policy.ttlSecondsAfterFinished.value < 0 {
      errs := errs + [TtlNegative];
    }
    if policy.activeDeadlineSeconds.Some? && policy.activeDeadlineSeconds.value < 0 {
      errs := errs + [ActiveDeadlineNegative];
    }
    if policy.backoffLimit.Some? && policy.backoffLimit.value < 0 {
      errs := errs + [BackoffLimitNegative];
    }
    if policy.managedBy.Some? && policy.managedBy.value !in {MULTI_KUEUE_CONTROLLER, KUBEFLOW_JOB_CONTROLLER} {
      errs := errs + [ManagedByNotSupported];
    }
  }

  method ValidateName(name: string, s: GroupJobSpec) returns (errs: seq<FieldError>)
    ensures errs == if IsDnsLabel(WorkerName(name, LastWorkerIndex(s))) then [] else [NameNotUsable]
  {
    errs := [];
    var replicas := 1;
    if s.Replica(Worker).Some? {
      var r := s.Replica(Worker).value.replicas;
      if r.Some? && r.value > 0 {
        replicas := r.value;
      }
    }
    if !IsDnsLabel(WorkerName(name, replicas - 1)) {
      errs := errs + [NameNotUsable];
    }
  }

  /** Reports exactly the rules that are broken. */
  method ValidateGroupJob(name: string, s: GroupJobSpec) returns (errs: seq<FieldError>)
    ensures forall e :: e in errs <==> Violates(name, s, e)
    ensures errs == [] <==> Accepts(name, s)
  {
    errs := ValidateName(name, s);
    var forReplicas := ValidateReplicaSpecs(s);
    errs := errs + forReplicas;
    if s.slotsPerWorker == None {
      errs := errs + [SlotsRequired];
    } else if s.slotsPerWorker.value < 0 {
      errs := errs + [SlotsNegative];
    }
    var forPolicy := ValidateRunPolicy(s.runPolicy);
    errs := errs + forPolicy;
    if s.sshAuthMountPath == "" {
      errs := errs + [SshPathRequired];
    }
    if s.mpiImplementation !in {OpenMPI, Intel, MPICH} {
      errs := errs + [MpiImplementationNotSupported];
    }
  }

  /** Every worker of an accepted job, and its launcher, gets a host name that is a DNS label. */
  lemma AcceptedHostnames(name: string, s: GroupJobSpec)
    requires Accepts(name, s)
    ensures forall i :: 0 <= i < s.WorkerReplicas() ==> IsDnsLabel(WorkerName(name, i))
    ensures IsDnsLabel(LauncherName(name))
  {
    OneHostnameSuffices(name, LastWorkerIndex(s));
  }

  /** After defaulting, a job is turned down only for what its author wrote: a rule about a missing
      field can only be broken by missing replica specs, a missing launcher or missing containers. */
  lemma DefaultedJobsLackNoFields(name: string, s: GroupJobSpec, e: FieldError)
    requires Violates(name, Default(s), e)
    ensures !e.SlotsRequired? && !e.CleanPodPolicyRequired? && !e.SshPathRequired? && !e.ReplicasRequired?
    ensures e.WorkerReplicasNotPositive? ==> s.WorkerReplicas() <= 0
    ensures e.LauncherReplicasNotOne? ==> s.Replica(Launcher).value.replicas !in {None, Some(1)}
  {
  }
}
