/** What one status update keeps: the invariant of every stored status, and that nothing computed is
    lost although the comparison copy is taken after the status has already been changed. */
module StatusSteps {
  import opened Types
  import opened Conditions
  import opened Status
  import opened Reconcile

  ghost predicate IsStatus(s: JobStatus, kind: ConditionType, status: ConditionStatus) {
    StatusOf(s.conditions, kind) == Some(status)
  }

  /** What holds of every stored status. */
  ghost predicate StatusInv(s: JobStatus) {
    && WellFormed(s.conditions)
    && (s.conditions == [] ==> s == EMPTY_STATUS)
    && (s.conditions != [] ==> GetCondition(s.conditions, Created).Some?)
    && !(IsStatus(s, Succeeded, True) && IsStatus(s, Failed, True))
    && (IsStatus(s, Succeeded, True) ==> s.completionTime.Some?)
    && (s.completionTime.Some? ==> IsStatus(s, Succeeded, True) || IsStatus(s, Failed, True))
    && SuspendedWellFormed(s)
    && (IsStatus(s, Suspended, True) ==> Worker in s.replicaStatuses && s.replicaStatuses[Worker] == NO_REPLICAS)
    && (s.conditions != [] && s.startTime.None? ==> IsStatus(s, Suspended, True))
  }

  ghost predicate SuspendedWellFormed(s: JobStatus) {
    match GetCondition(s.conditions, Suspended)
    case None => true
    case Some(c) =>
      (c.status == True && c.reason == SUSPENDED_REASON) || (c.status == False && c.reason == RESUMED_REASON)
  }

  lemma HasConditionIff(conditions: seq<JobCondition>, kind: ConditionType)
    requires Unique(conditions)
    ensures HasCondition(conditions, kind) <==> StatusOf(conditions, kind) == Some(True)
  {
    GetConditionKind(conditions, kind);
    if StatusOf(conditions, kind) == Some(True) {
      var c := GetCondition(conditions, kind).value;
      var i :| 0 <= i < |conditions| && conditions[i] == c;
    }
  }

  /** An unfinished status has neither outcome nor completion time. */
  lemma UnfinishedStatus(s: JobStatus)
    requires StatusInv(s) && !IsTerminal(s)
    ensures s.completionTime.None? && !IsStatus(s, Succeeded, True)
  {
    HasConditionIff(s.conditions, Succeeded);
    HasConditionIff(s.conditions, Failed);
  }

  /** Every lookup after an update. */
  lemma UpdateLookups(s: JobStatus, kind: ConditionType, status: ConditionStatus, reason: string, now: Time)
    requires WellFormed(s.conditions)
    ensures var s' := Update(s, kind, status, reason, now);
            && WellFormed(s'.conditions) && s'.conditions != []
            && s' == s.(conditions := s'.conditions)
            && GetCondition(s'.conditions, kind).Some?
            && GetCondition(s'.conditions, kind).value.status == status
            && GetCondition(s'.conditions, kind).value.reason == reason
            && GetCondition(s'.conditions, kind).value.kind == kind
            && (forall k :: k != kind && k !in {Running, Restarting, Failed} ==>
                  GetCondition(s'.conditions, k) == GetCondition(s.conditions, k))
            && (kind !in {Failed, Succeeded} ==>
                  GetCondition(s'.conditions, Failed) == GetCondition(s.conditions, Failed))
            && (kind == Succeeded && Changes(s.conditions, NewCondition(kind, status, reason, now)) ==>
                  !IsStatus(s', Failed, True))
  {
    var c := NewCondition(kind, status, reason, now);
    var conditions := SetCondition(s.conditions, c);
    SetKeepsWellFormed(s.conditions, c);
    forall k ensures GetCondition(conditions, k) ==
            if !Changes(s.conditions, c) then GetCondition(s.conditions, k)
            else if k == c.kind then Some(Stamp(GetCondition(s.conditions, k), c))
            else match GetCondition(s.conditions, k) {
              case None => None
              case Some(d) => if Drops(c.kind, d) then None else Some(Demote(c.kind, d))
            }
    {
      GetAfterSet(s.conditions, c, k);
    }
    forall k { GetConditionKind(s.conditions, k); }
    assert GetCondition([], kind) == None;
  }

  /** The status just before updateGroupJobStatus takes its comparison copy. */
  function Before(s0: JobStatus, suspended: bool, now: Time): JobStatus {
    var marked := MarkStarted(MarkCreated(s0, now), suspended, now);
    if suspended then CleanedStatus(marked) else marked
  }

  lemma BeforeLookups(s0: JobStatus, suspended: bool, now: Time)
    requires StatusInv(s0) && !IsTerminal(s0)
    ensures var b := Before(s0, suspended, now);
            && WellFormed(b.conditions) && GetCondition(b.conditions, Created).Some?
            && b.completionTime.None? && !IsStatus(b, Succeeded, True)
            && (s0.conditions == [] ==> GetCondition(b.conditions, Suspended).None?)
            && (s0.conditions != [] ==> b.conditions == s0.conditions)
            && SuspendedWellFormed(b)
            && b.startTime == (if suspended || s0.startTime.Some? then s0.startTime else Some(now))
            && b.replicaStatuses ==
               if suspended then s0.replicaStatuses[Worker := NO_REPLICAS] else s0.replicaStatuses
  {
    UnfinishedStatus(s0);
    UpdateLookups(s0, Created, True, CREATED_REASON, now);
    assert GetCondition([], Suspended) == None && GetCondition([], Succeeded) == None;
  }

  lemma SuspendStepFacts(s: JobStatus, suspended: bool, now: Time)
    requires WellFormed(s.conditions) && SuspendedWellFormed(s)
    ensures var s' := SuspendStep(s, suspended, now);
            && WellFormed(s'.conditions) && SuspendedWellFormed(s')
            && s' == s.(conditions := s'.conditions, startTime := s'.startTime)
            && (suspended ==> IsStatus(s', Suspended, True) && s'.startTime == s.startTime)
            && (!suspended ==> !IsStatus(s', Suspended, True))
            && (!suspended ==> s'.startTime == if IsStatus(s, Suspended, True) then Some(now) else s.startTime)
            && (forall k :: k in {Created, Succeeded, Failed} ==>
                  GetCondition(s'.conditions, k) == GetCondition(s.conditions, k))
            && (!suspended ==> (GetCondition(s'.conditions, Suspended).None? <==>
                GetCondition(s.conditions, Suspended).None?))
  {
    UpdateLookups(s, Suspended, True, SUSPENDED_REASON, now);
    UpdateLookups(s, Suspended, False, RESUMED_REASON, now);
  }

  lemma LauncherStepFacts(s: JobStatus, launcher: Option<BatchJob>, pods: seq<Pod>, now: Time)
    requires WellFormed(s.conditions) && s.completionTime.None? && !IsStatus(s, Succeeded, True)
    requires launcher.Some? && JobSucceeded(launcher.value) ==> launcher.value.completionTime.Some?
    ensures var s' := LauncherStep(s, launcher, pods, now);
            var finished := launcher.Some? && JobFinished(launcher.value);
            && WellFormed(s'.conditions) && s'.startTime == s.startTime
            && (s'.completionTime.Some? <==> finished)
            && (finished ==> IsStatus(s', Succeeded, True) != IsStatus(s', Failed, True))
            && (!finished ==> s'.conditions == s.conditions)
            && (forall k :: k in {Created, Suspended} ==>
                  GetCondition(s'.conditions, k) == GetCondition(s.conditions, k))
            && s'.replicaStatuses - {Launcher} == s.replicaStatuses - {Launcher}
  {
    if launcher.Some? {
      var j := launcher.value;
      var counted := s.(replicaStatuses := LauncherStep(s, launcher, pods, now).replicaStatuses,
                        completionTime := LauncherStep(s, launcher, pods, now).completionTime);
      if JobSucceeded(j) {
        UpdateLookups(counted, Succeeded, True, SUCCEEDED_REASON, now);
      } else if JobFailed(j) {
        UpdateLookups(counted, Failed, True, FailureReason(j, pods), now);
      }
    }
  }

  lemma WorkerStepFacts(s: JobStatus, workers: seq<Pod>, now: Time)
    requires WellFormed(s.conditions)
    ensures var s' := WorkerStep(s, workers, now);
            && WellFormed(s'.conditions)
            && s' == s.(conditions := s'.conditions, replicaStatuses := s'.replicaStatuses)
            && (workers == [] ==>
                  s'.conditions == s.conditions && s'.replicaStatuses == s.replicaStatuses[Worker := NO_REPLICAS])
            && Worker in s'.replicaStatuses
            && (forall k :: k in {Created, Suspended, Succeeded} ==>
                  GetCondition(s'.conditions, k) == GetCondition(s.conditions, k))
  {
    var counted := s.(replicaStatuses := WorkerStep(s, workers, now).replicaStatuses);
    UpdateLookups(counted, Failed, True, EVICTED_REASON, now);
  }

  lemma RunningStepFacts(s: JobStatus, suspended: bool, allRunning: bool, now: Time)
    requires WellFormed(s.conditions)
    ensures var s' := RunningStep(s, suspended, allRunning, now);
            && WellFormed(s'.conditions) && s' == s.(conditions := s'.conditions)
            && (forall k :: k in {Created, Suspended, Succeeded, Failed} ==>
                  GetCondition(s'.conditions, k) == GetCondition(s.conditions, k))
  {
    UpdateLookups(s, Running, False, SUSPENDED_REASON, now);
    UpdateLookups(s, Running, True, RUNNING_REASON, now);
  }

  /** What a sync knows when it reaches the status update. */
  ghost predicate SeenOk(suspended: bool, launcher: Option<BatchJob>, workers: seq<Pod>) {
    && (suspended ==> workers == [])
    && (launcher.Some? && JobFinished(launcher.value) ==> workers == [])
    && (launcher.Some? && JobSucceeded(launcher.value) ==> launcher.value.completionTime.Some?)
  }

  ghost function Computed(s0: JobStatus, suspended: bool, launcher: Option<BatchJob>, launcherPods: seq<Pod>,
                          workers: seq<Pod>, now: Time): JobStatus
  {
    ComputeStatus(Before(s0, suspended, now), suspended, launcher, launcherPods, workers, now)
  }

  /** What the four parts of updateGroupJobStatus make of a status without an outcome. */
  lemma ComputeFacts(b: JobStatus, suspended: bool, launcher: Option<BatchJob>, launcherPods: seq<Pod>,
                     workers: seq<Pod>, now: Time)
    requires WellFormed(b.conditions) && SuspendedWellFormed(b) && b.completionTime.None?
    requires !IsStatus(b, Succeeded, True) && SeenOk(suspended, launcher, workers)
    ensures var c := ComputeStatus(b, suspended, launcher, launcherPods, workers, now);
            var finished := launcher.Some? && JobFinished(launcher.value);
            && WellFormed(c.conditions) && GetCondition(c.conditions, Created) == GetCondition(b.conditions, Created)
            && (c.completionTime.Some? <==> finished)
            && (finished ==> IsStatus(c, Succeeded, True) != IsStatus(c, Failed, True))
            && (!finished ==> !IsStatus(c, Succeeded, True))
            && SuspendedWellFormed(c) && IsStatus(c, Suspended, True) == suspended
            && (GetCondition(c.conditions, Suspended).None? <==>
                  !suspended && GetCondition(b.conditions, Suspended).None?)
            && c.startTime == (if !suspended && IsStatus(b, Suspended, True) then Some(now) else b.startTime)
            && Worker in c.replicaStatuses && (suspended ==> c.replicaStatuses[Worker] == NO_REPLICAS)
  {
    hide SuspendStep, LauncherStep, WorkerStep, RunningStep, WellFormed, JobFailed, JobSucceeded, AllRunning;
    var s1 := SuspendStep(b, suspended, now);
    SuspendStepFacts(b, suspended, now);
    LauncherStepFacts(s1, launcher, launcherPods, now);
    var s2 := LauncherStep(s1, launcher, launcherPods, now);
    WorkerStepFacts(s2, workers, now);
    var s3 := WorkerStep(s2, workers, now);
    RunningStepFacts(s3, suspended, AllRunning(launcher, launcherPods, workers), now);
  }

  /** A status update keeps the invariant. It moves the start time only when the job resumes or is
      first seen unsuspended, and decides the outcome exactly when the launcher has finished. */
  lemma ComputedInv(s0: JobStatus, suspended: bool, launcher: Option<BatchJob>, launcherPods: seq<Pod>,
                    workers: seq<Pod>, now: Time)
    requires StatusInv(s0) && !IsTerminal(s0) && SeenOk(suspended, launcher, workers)
    ensures var c := Computed(s0, suspended, launcher, launcherPods, workers, now);
            && StatusInv(c)
            && (c.completionTime.Some? <==> launcher.Some? && JobFinished(launcher.value))
            && IsStatus(c, Suspended, True) == suspended
            && (IsStatus(s0, Suspended, True) && !suspended ==> IsStatus(c, Suspended, False))
            && (GetCondition(c.conditions, Suspended).None? <==>
                  !suspended && GetCondition(s0.conditions, Suspended).None?)
            && c.startTime == (if suspended then s0.startTime
                               else if s0.startTime.None? || IsStatus(s0, Suspended, True) then Some(now)
                               else s0.startTime)
            && Worker in c.replicaStatuses && c.conditions != []
  {
    BeforeLookups(s0, suspended, now);
    ComputeFacts(Before(s0, suspended, now), suspended, launcher, launcherPods, workers, now);
    hide Before, ComputeStatus, WellFormed, JobFailed, JobSucceeded;
    assert GetCondition([], Suspended) == None;
  }

  /** No lost write, and no needless one: the status compares equal to the late copy exactly when it
      is the stored one. */
  lemma NothingLost(s0: JobStatus, suspended: bool, launcher: Option<BatchJob>, launcherPods: seq<Pod>,
                    workers: seq<Pod>, now: Time)
    requires StatusInv(s0) && !IsTerminal(s0) && SeenOk(suspended, launcher, workers)
    ensures var c := Computed(s0, suspended, launcher, launcherPods, workers, now);
            c == Before(s0, suspended, now) <==> c == s0
  {
    BeforeLookups(s0, suspended, now);
    ComputedInv(s0, suspended, launcher, launcherPods, workers, now);
    var c, b := Computed(s0, suspended, launcher, launcherPods, workers, now), Before(s0, suspended, now);
    if c == b {
      assert s0.conditions != [];
      assert b.replicaStatuses == s0.replicaStatuses;
      assert b.startTime == s0.startTime;
    }
    if c == s0 {
      assert s0.conditions != [];
      assert b.replicaStatuses == s0.replicaStatuses;
    }
  }
}
