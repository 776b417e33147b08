/** How a sync computes a job's status from what it has seen
    (updateGroupJobStatus and updateGroupJobFailedStatus in pkg/controller/mpi_job_controller.go). */
module Status {
  import opened Types
  import opened Conditions

  const CREATED_REASON := "GroupJobCreated"
  const SUCCEEDED_REASON := "GroupJobSucceeded"
  const RUNNING_REASON := "GroupJobRunning"
  const SUSPENDED_REASON := "GroupJobSuspended"
  const RESUMED_REASON := "GroupJobResumed"
  const FAILED_REASON := "GroupJobFailed"
  const EVICTED_REASON := "GroupJobEvicted"
  const POD_EVICTED := "Evicted"
  const BACKOFF_LIMIT_EXCEEDED := "BackoffLimitExceeded"

  /* ---- The launcher Job ---- */

  function FindBatchCondition(conditions: seq<BatchCondition>, kind: BatchConditionType): Option<BatchCondition> {
    if conditions == [] then None
    else if conditions[0].kind == kind then Some(conditions[0])
    else FindBatchCondition(conditions[1..], kind)
  }

  predicate IsTrue(c: Option<BatchCondition>) { c.Some? && c.value.status == True }

  predicate JobSucceeded(j: BatchJob) { IsTrue(FindBatchCondition(j.conditions, BatchComplete)) }
  predicate JobFailed(j: BatchJob) { IsTrue(FindBatchCondition(j.conditions, BatchFailed)) }
  predicate JobFinished(j: BatchJob) { JobSucceeded(j) || JobFailed(j) }

  method GetJobCondition(conditions: seq<BatchCondition>,
                         kind: BatchConditionType) returns (found: Option<BatchCondition>)
    ensures found == FindBatchCondition(conditions, kind)
  {
    for i := 0 to |conditions|
      invariant FindBatchCondition(conditions, kind) == FindBatchCondition(conditions[i..], kind)
    {
      assert conditions[i..][1..] == conditions[i + 1..];
      if conditions[i].kind == kind {
        return Some(conditions[i]);
      }
    }
    return None;
  }

  /** The newest failed pod after `last`; of pods created together, the first. */
  function LastFailed(pods: seq<Pod>, last: Option<Pod>): Option<Pod> {
    if pods == [] then last
    else if pods[0].phase == PodFailed && (last.None? || last.value.creationTime < pods[0].creationTime)
    then LastFailed(pods[1..], Some(pods[0]))
    else LastFailed(pods[1..], last)
  }

  /** Is `p` the newest failed pod among `pods`, and the first of those created at that time? */
  ghost predicate IsNewestFailed(pods: seq<Pod>, i: nat) {
    && i < |pods| && pods[i].phase == PodFailed
    && (forall j :: 0 <= j < |pods| && pods[j].phase == PodFailed ==> pods[j].creationTime <= pods[i].creationTime)
    && (forall j :: 0 <= j < i && pods[j].phase == PodFailed ==> pods[j].creationTime < pods[i].creationTime)
  }

  lemma {:induction false} LastFailedFrom(pods: seq<Pod>, last: Pod)
    requires last.phase == PodFailed
    ensures LastFailed(pods, Some(last)).Some?
    ensures var p := LastFailed(pods, Some(last)).value;
            exists i: nat :: IsNewestFailed([last] + pods, i) && p == ([last] + pods)[i]
  {
    if pods == [] {
      assert IsNewestFailed([last] + pods, 0);
    } else if pods[0].phase == PodFailed && last.creationTime < pods[0].creationTime {
      LastFailedFrom(pods[1..], pods[0]);
      assert [pods[0]] + pods[1..] == pods;
      var i: nat :| IsNewestFailed(pods, i) && LastFailed(pods, Some(last)).value == pods[i];
      assert IsNewestFailed([last] + pods, i + 1);
    } else {
      LastFailedFrom(pods[1..], last);
      var rest := [last] + pods[1..];
      var i: nat :| IsNewestFailed(rest, i) && LastFailed(pods, Some(last)).value == rest[i];
      NewestAfterSkip(pods, last, i);
    }
  }

  lemma NewestAfterSkip(pods: seq<Pod>, last: Pod, i: nat)
    requires pods != [] && last.phase == PodFailed && IsNewestFailed([last] + pods[1..], i)
    requires pods[0].phase != PodFailed || pods[0].creationTime <= last.creationTime
    ensures exists k: nat :: IsNewestFailed([last] + pods, k) && ([last] + pods[1..])[i] == ([last] + pods)[k]
  {
    var all, rest := [last] + pods, [last] + pods[1..];
    assert forall j :: 0 < j < |rest| ==> rest[j] == all[j + 1];
    assert forall j :: 1 < j < |all| ==> all[j] == rest[j - 1];
    var k := if i == 0 then 0 else i + 1;
    assert rest[0].creationTime <= rest[i].creationTime;
    assert IsNewestFailed(all, k);
  }

  /** The pod whose reason is quoted is the newest failed one, if any pod failed. */
  lemma {:induction false} LastFailedIsNewest(pods: seq<Pod>)
    ensures LastFailed(pods, None).None? <==> forall i :: 0 <= i < |pods| ==> pods[i].phase != PodFailed
    ensures LastFailed(pods, None).Some? ==>
              exists i: nat :: IsNewestFailed(pods, i) && LastFailed(pods, None).value == pods[i]
  {
    if pods != [] {
      assert pods == [pods[0]] + pods[1..];
      if pods[0].phase == PodFailed {
        LastFailedFrom(pods[1..], pods[0]);
      } else {
        LastFailedIsNewest(pods[1..]);
        assert forall i :: 0 < i < |pods| ==> pods[i] == pods[1..][i - 1];
        if LastFailed(pods, None).Some? {
          var i: nat :| IsNewestFailed(pods[1..], i) && LastFailed(pods, None).value == pods[1..][i];
          assert IsNewestFailed(pods, i + 1);
        }
      }
    }
  }

  function FailureReason(j: BatchJob, launcherPods: seq<Pod>): string
    requires JobFailed(j)
  {
    var given := FindBatchCondition(j.conditions, BatchFailed).value.reason;
    var reason := if given == "" then FAILED_REASON else given;
    var last := LastFailed(launcherPods, None);
    if reason == BACKOFF_LIMIT_EXCEEDED && last.Some? then reason + "/" + last.value.reason else reason
  }

  /* ---- The status, step by step ---- */

  function Update(s: JobStatus, kind: ConditionType, status: ConditionStatus, reason: string, now: Time): JobStatus {
    s.(conditions := SetCondition(s.conditions, NewCondition(kind, status, reason, now)))
  }

  function SuspendStep(s: JobStatus, suspended: bool, now: Time): JobStatus {
    if suspended then Update(s, Suspended, True, SUSPENDED_REASON, now)
    else if GetCondition(s.conditions, Suspended).Some? then
      var resumed := Update(s, Suspended, False, RESUMED_REASON, now);
      if Changes(s.conditions, NewCondition(Suspended, False, RESUMED_REASON, now))
      then resumed.(startTime := Some(now)) else resumed
    else s
  }

  function CountPhase(pods: seq<Pod>, phase: Phase): nat {
    if pods == [] then 0 else (if pods[0].phase == phase then 1 else 0) + CountPhase(pods[1..], phase)
  }

  function CountEvicted(pods: seq<Pod>): nat {
    if pods == [] then 0
    else (if pods[0].phase == PodFailed && pods[0].reason == POD_EVICTED then 1 else 0) + CountEvicted(pods[1..])
  }

  function LauncherStep(s: JobStatus, launcher: Option<BatchJob>, launcherPods: seq<Pod>, now: Time): JobStatus {
    if launcher.None? then s
    else
      var j := launcher.value;
      if JobSucceeded(j) then
        Update(s.(replicaStatuses := s.replicaStatuses[Launcher := ReplicaStatus(0, 1, j.failed)],
                  completionTime := if s.completionTime.None? then j.completionTime else s.completionTime),
               Succeeded, True, SUCCEEDED_REASON, now)
      else if JobFailed(j) then
        Update(s.(replicaStatuses := s.replicaStatuses[Launcher := ReplicaStatus(0, 0, j.failed)],
                  completionTime := if s.completionTime.None? then Some(now) else s.completionTime),
               Failed, True, FailureReason(j, launcherPods), now)
      else
        s.(replicaStatuses := s.replicaStatuses[Launcher := ReplicaStatus(CountPhase(launcherPods, PodRunning), 0,
            j.failed)])
  }

  function WorkerStep(s: JobStatus, workers: seq<Pod>, now: Time): JobStatus {
    var counted := s.(replicaStatuses := s.replicaStatuses[Worker :=
      ReplicaStatus(CountPhase(workers, PodRunning), CountPhase(workers, PodSucceeded), CountPhase(workers,
          PodFailed))]);
    if CountEvicted(workers) > 0 then Update(counted, Failed, True, EVICTED_REASON, now) else counted
  }

  predicate AllRunning(launcher: Option<BatchJob>, launcherPods: seq<Pod>, workers: seq<Pod>) {
    launcher.Some? && CountPhase(launcherPods, PodRunning) >= 1 && CountPhase(workers, PodRunning) == |workers|
  }

  function RunningStep(s: JobStatus, suspended: bool, allRunning: bool, now: Time): JobStatus {
    if suspended then Update(s, Running, False, SUSPENDED_REASON, now)
    else if allRunning then Update(s, Running, True, RUNNING_REASON, now)
    else s
  }

  /** The status updateGroupJobStatus arrives at, starting from `s`. */
  function ComputeStatus(s: JobStatus, suspended: bool, launcher: Option<BatchJob>, launcherPods: seq<Pod>,
                         workers: seq<Pod>, now: Time): JobStatus
  {
    var s1 := SuspendStep(s, suspended, now);
    var s2 := LauncherStep(s1, launcher, launcherPods, now);
    var s3 := WorkerStep(s2, workers, now);
    RunningStep(s3, suspended, AllRunning(launcher, launcherPods, workers), now)
  }

  /* ---- The code's own form ---- */

  method CountRunningPods(pods: seq<Pod>) returns (running: nat)
    ensures running == CountPhase(pods, PodRunning)
  {
    running := 0;
    for i := 0 to |pods|
      invariant running + CountPhase(pods[i..], PodRunning) == CountPhase(pods, PodRunning)
    {
      assert pods[i..][1..] == pods[i + 1..];
      if pods[i].phase == PodRunning {
        running := running + 1;
      }
    }
  }

  method GetFailureReason(j: BatchJob, launcherPods: seq<Pod>) returns (reason: string)
    requires JobFailed(j)
    ensures reason == FailureReason(j, launcherPods)
  {
    var condition := GetJobCondition(j.conditions, BatchFailed);
    reason := condition.value.reason;
    if reason == "" {
      reason := FAILED_REASON;
    }
    if reason == BACKOFF_LIMIT_EXCEEDED {
      var last: Option<Pod> := None;
      for i := 0 to |launcherPods|
        invariant LastFailed(launcherPods[i..], last) == LastFailed(launcherPods, None)
      {
        var p := launcherPods[i];
        assert launcherPods[i..][1..] == launcherPods[i + 1..];
        if p.phase == PodFailed && (last.None? || last.value.creationTime < p.creationTime) {
          last := Some(p);
        }
      }
      if last.Some? {
        reason := reason + "/" + last.value.reason;
      }
    }
  }

  method ApplyLauncher(status: StatusRecord, launcher: Option<BatchJob>, launcherPods: seq<Pod>, now: Time)
    modifies status
    ensures status.Value() == LauncherStep(old(status.Value()), launcher, launcherPods, now)
  {
    if launcher.None? {
      return;
    }
    var j := launcher.value;
    var running := CountRunningPods(launcherPods);
    status.InitializeReplicaStatus(Launcher);
    var counts := NO_REPLICAS.(failed := j.failed);
    var complete := GetJobCondition(j.conditions, BatchComplete);
    var failed := GetJobCondition(j.conditions, BatchFailed);
    if IsTrue(complete) {
      status.replicaStatuses := status.replicaStatuses[Launcher := counts.(succeeded := 1)];
      if status.completionTime.None? {
        status.completionTime := j.completionTime;
      }
      var _ := status.UpdateCondition(Succeeded, True, SUCCEEDED_REASON, now);
    } else if IsTrue(failed) {
      status.replicaStatuses := status.replicaStatuses[Launcher := counts];
      var reason := GetFailureReason(j, launcherPods);
      if status.completionTime.None? {
        status.completionTime := Some(now);
      }
      var _ := status.UpdateCondition(Failed, True, reason, now);
    } else {
      status.replicaStatuses := status.replicaStatuses[Launcher := counts.(active := running)];
    }
    assert old(status.Value()).replicaStatuses[Launcher := NO_REPLICAS][Launcher := status.replicaStatuses[Launcher]] ==
           old(status.Value()).replicaStatuses[Launcher := status.replicaStatuses[Launcher]];
  }

  method ApplyWorkers(status: StatusRecord, workers: seq<Pod>, now: Time) returns (running: nat)
    modifies status
    ensures status.Value() == WorkerStep(old(status.Value()), workers, now)
    ensures running == CountPhase(workers, PodRunning)
  {
    ghost var before := status.replicaStatuses;
    running := 0;
    var evicted := 0;
    status.InitializeReplicaStatus(Worker);
    for i := 0 to |workers|
      invariant status.conditions == old(status.conditions)
      invariant status.startTime == old(status.startTime) && status.completionTime == old(status.completionTime)
      invariant Worker in status.replicaStatuses
      invariant status.replicaStatuses == before[Worker := status.replicaStatuses[Worker]]
      invariant status.replicaStatuses[Worker].active == running
      invariant running + CountPhase(workers[i..], PodRunning) == CountPhase(workers, PodRunning)
      invariant status.replicaStatuses[Worker].succeeded + CountPhase(workers[i..], PodSucceeded) ==
                CountPhase(workers, PodSucceeded)
      invariant status.replicaStatuses[Worker].failed + CountPhase(workers[i..], PodFailed) ==
                CountPhase(workers, PodFailed)
      invariant evicted + CountEvicted(workers[i..]) == CountEvicted(workers)
    {
      assert workers[i..][1..] == workers[i + 1..];
      var counts := status.replicaStatuses[Worker];
      match workers[i].phase {
        case PodFailed =>
          counts := counts.(failed := counts.failed + 1);
          if workers[i].reason == POD_EVICTED {
            evicted := evicted + 1;
          }
        case PodSucceeded =>
          counts := counts.(succeeded := counts.succeeded + 1);
        case PodRunning =>
          running := running + 1;
          counts := counts.(active := counts.active + 1);
        case _ =>
      }
      status.replicaStatuses := status.replicaStatuses[Worker := counts];
    }
    if evicted > 0 {
      var _ := status.UpdateCondition(Failed, True, EVICTED_REASON, now);
    }
  }

  method UpdateGroupJobStatus(status: StatusRecord, suspended: bool, launcher: Option<BatchJob>, launcherPods: seq<Pod>,
                              workers: seq<Pod>, now: Time) returns (changed: bool)
    modifies status
    ensures status.Value() == ComputeStatus(old(status.Value()), suspended, launcher, launcherPods, workers, now)
    ensures changed == (status.Value() != old(status.Value()))
  {
    var oldStatus := status.Value();
    if suspended {
      var _ := status.UpdateCondition(Suspended, True, SUSPENDED_REASON, now);
    } else {
      var current := FindCondition(status.conditions, Suspended);
      if current.Some? {
        var updated := status.UpdateCondition(Suspended, False, RESUMED_REASON, now);
        if updated {
          status.startTime := Some(now);
        }
      }
    }
    assert status.Value() == SuspendStep(oldStatus, suspended, now);
    ApplyLauncher(status, launcher, launcherPods, now);
    var launcherRunning := CountRunningPods(launcherPods);
    var running := ApplyWorkers(status, workers, now);
    ghost var s3 := status.Value();
    if suspended {
      var _ := status.UpdateCondition(Running, False, SUSPENDED_REASON, now);
    } else if launcher.Some? && launcherRunning >= 1 && running == |workers| {
      var _ := status.UpdateCondition(Running, True, RUNNING_REASON, now);
    }
    assert status.Value() == RunningStep(s3, suspended, AllRunning(launcher, launcherPods, workers), now);
    changed := status.Value() != oldStatus;
  }
}
