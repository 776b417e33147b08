/** What the status of a job reports, in its readers' terms: from the Job that runs the launcher, the pods, and
    the status before, with the reasons written out (updateGroupJobStatus and updateGroupJobFailedStatus in
    pkg/controller/mpi_job_controller.go). */
module Reported {
  import opened Types
  import opened Names
  import opened Conditions
  import opened Status
  import opened Reconcile
  import opened Defaults
  import opened Validation
  import opened PodGroups
  import opened Listings
  import opened Api
  import opened Objects
  import opened Workers
  import opened StatusSteps
  import opened Runs
  import opened Scaling
  import opened Settling
  import opened Convergence
  import opened Policies

  /* ---- What is seen ---- */

  /** Is the first condition of this type True? */
  ghost predicate FirstIsTrue(conditions: seq<BatchCondition>, kind: BatchConditionType) {
    exists i :: FirstAt(conditions, kind, i) && conditions[i].status == True
  }

  ghost predicate FirstAt(conditions: seq<BatchCondition>, kind: BatchConditionType, i: int) {
    && 0 <= i < |conditions| && conditions[i].kind == kind
    && forall j :: 0 <= j < i ==> conditions[j].kind != kind
  }

  lemma {:induction false} FindsFirst(conditions: seq<BatchCondition>, kind: BatchConditionType)
    ensures FindBatchCondition(conditions, kind).None? <==> forall c :: c in conditions ==> c.kind != kind
    ensures forall i :: FirstAt(conditions, kind, i) ==> FindBatchCondition(conditions, kind) == Some(conditions[i])
    ensures FindBatchCondition(conditions, kind).Some? ==> exists i :: FirstAt(conditions, kind, i)
  {
    if conditions != [] {
      FindsFirst(conditions[1..], kind);
      assert conditions == [conditions[0]] + conditions[1..];
      if conditions[0].kind == kind {
        assert FirstAt(conditions, kind, 0);
      } else {
        forall i | FirstAt(conditions, kind, i)
          ensures FindBatchCondition(conditions, kind) == Some(conditions[i])
        {
          assert FirstAt(conditions[1..], kind, i - 1);
        }
        if FindBatchCondition(conditions, kind).Some? {
          var i :| FirstAt(conditions[1..], kind, i);
          assert FirstAt(conditions, kind, i + 1);
        }
      }
    }
  }

  lemma TrueIfFirstIs(conditions: seq<BatchCondition>, kind: BatchConditionType)
    ensures IsTrue(FindBatchCondition(conditions, kind)) <==> FirstIsTrue(conditions, kind)
  {
    FindsFirst(conditions, kind);
  }

  /** The positions of the pods in a phase. */
  ghost function InPhase(pods: seq<Pod>, phase: Phase): set<int> {
    set i | 0 <= i < |pods| && pods[i].phase == phase
  }

  lemma {:induction false} CountPhaseAppend(a: seq<Pod>, b: seq<Pod>, phase: Phase)
    ensures CountPhase(a + b, phase) == CountPhase(a, phase) + CountPhase(b, phase)
  {
    if a == [] {
      assert a + b == b;
    } else {
      assert (a + b)[1..] == a[1..] + b;
      CountPhaseAppend(a[1..], b, phase);
    }
  }

  lemma {:induction false} CountPhaseSize(pods: seq<Pod>, phase: Phase)
    ensures CountPhase(pods, phase) == |InPhase(pods, phase)|
  {
    if pods == [] {
      assert InPhase(pods, phase) == {};
    } else {
      var n := |pods| - 1;
      var init := pods[..n];
      assert pods == init + [pods[n]];
      CountPhaseAppend(init, [pods[n]], phase);
      CountPhaseSize(init, phase);
      assert CountPhase([pods[n]], phase) == if pods[n].phase == phase then 1 else 0 by {
        assert [pods[n]][1..] == [];
      }
      hide CountPhase;
      InPhaseLast(pods, phase);
    }
  }

  lemma InPhaseLast(pods: seq<Pod>, phase: Phase)
    requires pods != []
    ensures var n := |pods| - 1;
            |InPhase(pods, phase)| == |InPhase(pods[..n], phase)| + if pods[n].phase == phase then 1 else 0
  {
    InPhaseMembers(pods, phase);
    hide InPhase;
    var n := |pods| - 1;
    var before, after := InPhase(pods[..n], phase), InPhase(pods, phase);
    assert after == if pods[n].phase == phase then before + {n} else before;
  }

  lemma InPhaseMembers(pods: seq<Pod>, phase: Phase)
    requires pods != []
    ensures var n := |pods| - 1;
            && n !in InPhase(pods[..n], phase)
            && forall i :: i in InPhase(pods, phase) <==>
                 i in InPhase(pods[..n], phase) || (i == n && pods[n].phase == phase)
  {
  }

  ghost predicate SomeEvicted(workers: seq<Pod>) {
    exists i :: 0 <= i < |workers| && workers[i].phase == PodFailed && workers[i].reason == "Evicted"
  }

  lemma {:induction false} EvictedCounted(workers: seq<Pod>)
    ensures CountEvicted(workers) > 0 <==> SomeEvicted(workers)
  {
    if workers != [] {
      EvictedCounted(workers[1..]);
      assert workers == [workers[0]] + workers[1..];
      assert forall i :: 0 < i < |workers| ==> workers[i] == workers[1..][i - 1];
      assert forall i :: 0 <= i < |workers[1..]| ==> workers[i + 1] == workers[1..][i];
    }
  }

  lemma {:induction false} AllInPhase(pods: seq<Pod>, phase: Phase)
    ensures CountPhase(pods, phase) <= |pods|
    ensures CountPhase(pods, phase) == |pods| <==> forall i :: 0 <= i < |pods| ==> pods[i].phase == phase
    ensures CountPhase(pods, phase) >= 1 <==> exists i :: 0 <= i < |pods| && pods[i].phase == phase
  {
    if pods != [] {
      AllInPhase(pods[1..], phase);
      assert forall i :: 0 < i < |pods| ==> pods[i] == pods[1..][i - 1];
      assert forall i :: 0 <= i < |pods[1..]| ==> pods[i + 1] == pods[1..][i];
    }
  }

  /* ---- Why a job failed ---- */

  /** What a job's failure is put down to: the reason the Job gives, or GroupJobFailed if it gives none; when the
      backoff limit is exceeded, the reason of the newest failed launcher pod follows after a slash. */
  ghost predicate PutDownTo(given: string, pods: seq<Pod>, reason: string) {
    if given == "" then reason == "GroupJobFailed"
    else if given != "BackoffLimitExceeded" || forall k :: 0 <= k < |pods| ==> pods[k].phase != PodFailed
    then reason == given
    else exists k: nat :: IsNewestFailed(pods, k) && reason == "BackoffLimitExceeded/" + pods[k].reason
  }

  ghost predicate IsGivenReason(j: BatchJob, pods: seq<Pod>, reason: string) {
    exists i :: FirstAt(j.conditions, BatchFailed, i) && PutDownTo(j.conditions[i].reason, pods, reason)
  }

  /** The reason reported is the one the Job's first Failed condition and the launcher's pods give. */
  lemma FailureReasonIs(j: BatchJob, pods: seq<Pod>)
    requires JobFailed(j)
    ensures IsGivenReason(j, pods, FailureReason(j, pods))
  {
    FindsFirst(j.conditions, BatchFailed);
    LastFailedIsNewest(pods);
    assert "BackoffLimitExceeded/" == "BackoffLimitExceeded" + "/";
    var i :| FirstAt(j.conditions, BatchFailed, i);
    assert PutDownTo(j.conditions[i].reason, pods, FailureReason(j, pods));
  }

  /* ---- The launcher ---- */

  lemma StepLookups(s: JobStatus, kind: ConditionType, status: ConditionStatus, reason: string, now: Time,
                    k: ConditionType)
    requires kind in {Created, Suspended} && k != kind
    ensures GetCondition(Update(s, kind, status, reason, now).conditions, k) == GetCondition(s.conditions, k)
  {
    GetAfterSet(s.conditions, NewCondition(kind, status, reason, now), k);
    GetConditionKind(s.conditions, k);
  }

  /** The comparison copy has the conditions of the stored status, and Created. */
  lemma BeforeKeeps(s0: JobStatus, suspended: bool, now: Time, k: ConditionType)
    ensures k != Created ==>
              GetCondition(Before(s0, suspended, now).conditions, k) == GetCondition(s0.conditions, k)
  {
    if k != Created {
      StepLookups(s0, Created, True, CREATED_REASON, now, k);
    }
  }

  lemma SuspendStepKeeps(s: JobStatus, suspended: bool, now: Time, k: ConditionType)
    requires k != Suspended
    ensures GetCondition(SuspendStep(s, suspended, now).conditions, k) == GetCondition(s.conditions, k)
  {
    StepLookups(s, Suspended, True, SUSPENDED_REASON, now, k);
    StepLookups(s, Suspended, False, RESUMED_REASON, now, k);
  }

  ghost predicate IsOver(launcher: Option<BatchJob>) {
    launcher.Some?
    && (FirstIsTrue(launcher.value.conditions, BatchComplete) || FirstIsTrue(launcher.value.conditions, BatchFailed))
  }

  lemma OverIfFinished(launcher: Option<BatchJob>)
    ensures IsOver(launcher) <==> launcher.Some? && JobFinished(launcher.value)
    ensures launcher.Some? ==>
              && (JobSucceeded(launcher.value) <==> FirstIsTrue(launcher.value.conditions, BatchComplete))
              && (JobFailed(launcher.value) <==> FirstIsTrue(launcher.value.conditions, BatchFailed))
  {
    if launcher.Some? {
      TrueIfFirstIs(launcher.value.conditions, BatchComplete);
      TrueIfFirstIs(launcher.value.conditions, BatchFailed);
    }
  }

  /** What a status may be computed from: one without an outcome, and what a sync can have seen. */
  ghost predicate Computes(s0: JobStatus, suspended: bool, launcher: Option<BatchJob>, workers: seq<Pod>) {
    && StatusInv(s0) && s0.completionTime.None?
    && (suspended || IsOver(launcher) ==> workers == [])
    && (launcher.Some? && FirstIsTrue(launcher.value.conditions, BatchComplete) ==>
          launcher.value.completionTime.Some?)
  }

  lemma ComputesOk(s0: JobStatus, suspended: bool, launcher: Option<BatchJob>, workers: seq<Pod>)
    requires Computes(s0, suspended, launcher, workers)
    ensures StatusInv(s0) && !IsTerminal(s0) && SeenOk(suspended, launcher, workers)
  {
    hide StatusInv, FirstIsTrue, JobSucceeded, JobFailed;
    OverIfFinished(launcher);
  }

  /** The launcher's part of the update. */
  lemma LauncherStepReports(s: JobStatus, launcher: BatchJob, pods: seq<Pod>, now: Time)
    requires WellFormed(s.conditions) && s.completionTime.None?
    ensures var s' := LauncherStep(s, Some(launcher), pods, now);
            && Launcher in s'.replicaStatuses
            && s'.replicaStatuses[Launcher] ==
               (if JobFinished(launcher) then ReplicaStatus(0, if JobSucceeded(launcher) then 1 else 0, launcher.failed)
                else ReplicaStatus(CountPhase(pods, PodRunning), 0, launcher.failed))
            && s'.completionTime == (if JobSucceeded(launcher) then launcher.completionTime
                                     else if JobFailed(launcher) then Some(now) else None)
            && (JobSucceeded(launcher) ==> Shows(s', Succeeded, True, "GroupJobSucceeded"))
            && (!JobSucceeded(launcher) && JobFailed(launcher) ==>
                  Shows(s', Failed, True, FailureReason(launcher, pods)))
            && (!JobFinished(launcher) ==> s'.conditions == s.conditions)
  {
    hide WellFormed, SetCondition, JobSucceeded, JobFailed, FailureReason;
    var s' := LauncherStep(s, Some(launcher), pods, now);
    var counted := s.(replicaStatuses := s'.replicaStatuses, completionTime := s'.completionTime);
    if JobSucceeded(launcher) {
      UpdateLookups(counted, Succeeded, True, SUCCEEDED_REASON, now);
    } else if JobFailed(launcher) {
      UpdateLookups(counted, Failed, True, FailureReason(launcher, pods), now);
    }
  }

  /** The steps after the launcher's keep its counts, the completion time and the outcome. */
  lemma LaterStepsKeep(s: JobStatus, suspended: bool, launcher: Option<BatchJob>, pods: seq<Pod>, workers: seq<Pod>,
                       now: Time)
    requires WellFormed(s.conditions)
    ensures var s' := RunningStep(WorkerStep(s, workers, now), suspended, AllRunning(launcher, pods, workers), now);
            && s'.completionTime == s.completionTime
            && (Launcher in s.replicaStatuses <==> Launcher in s'.replicaStatuses)
            && (Launcher in s.replicaStatuses ==> s'.replicaStatuses[Launcher] == s.replicaStatuses[Launcher])
            && GetCondition(s'.conditions, Succeeded) == GetCondition(s.conditions, Succeeded)
            && (!SomeEvicted(workers) ==> GetCondition(s'.conditions, Failed) == GetCondition(s.conditions, Failed))
            && (SomeEvicted(workers) ==> Shows(s', Failed, True, "GroupJobEvicted"))
            && s'.replicaStatuses - {Worker} == s.replicaStatuses - {Worker}
            && Worker in s'.replicaStatuses
            && s'.replicaStatuses[Worker] ==
               ReplicaStatus(|InPhase(workers, PodRunning)|, |InPhase(workers, PodSucceeded)|,
                             |InPhase(workers, PodFailed)|)
  {
    hide WellFormed, RunningStep, InPhase, SomeEvicted, CountPhase, CountEvicted, SetCondition, AllRunning;
    EvictedCounted(workers);
    CountPhaseSize(workers, PodRunning);
    CountPhaseSize(workers, PodSucceeded);
    CountPhaseSize(workers, PodFailed);
    WorkerStepFacts(s, workers, now);
    WorkerStepShows(s, workers, now);
    var s3 := WorkerStep(s, workers, now);
    RunningStepFacts(s3, suspended, AllRunning(launcher, pods, workers), now);
    hide WorkerStep;
    ShowsFailedKept(s3, RunningStep(s3, suspended, AllRunning(launcher, pods, workers), now));
  }

  lemma ComputedSteps(s0: JobStatus, suspended: bool, launcher: Option<BatchJob>, pods: seq<Pod>, workers: seq<Pod>,
                      now: Time) returns (s1: JobStatus)
    requires Computes(s0, suspended, launcher, workers)
    ensures WellFormed(s1.conditions) && s1.completionTime.None?
    ensures GetCondition(s1.conditions, Succeeded) == GetCondition(s0.conditions, Succeeded)
    ensures GetCondition(s1.conditions, Failed) == GetCondition(s0.conditions, Failed)
    ensures GetCondition(s1.conditions, Running) == GetCondition(s0.conditions, Running)
    ensures s1.replicaStatuses - {Worker} == s0.replicaStatuses - {Worker}
    ensures Computed(s0, suspended, launcher, pods, workers, now) ==
            RunningStep(WorkerStep(LauncherStep(s1, launcher, pods, now), workers, now), suspended,
                AllRunning(launcher, pods, workers), now)
  {
    hide StatusInv, SuspendStep, LauncherStep, WorkerStep, RunningStep, WellFormed, IsTerminal, AllRunning, SeenOk,
         IsOver, FirstIsTrue;
    ComputesOk(s0, suspended, launcher, workers);
    BeforeLookups(s0, suspended, now);
    var b := Before(s0, suspended, now);
    BeforeKeeps(s0, suspended, now, Succeeded);
    BeforeKeeps(s0, suspended, now, Failed);
    BeforeKeeps(s0, suspended, now, Running);
    hide Before;
    SuspendStepFacts(b, suspended, now);
    SuspendStepKeeps(b, suspended, now, Running);
    s1 := SuspendStep(b, suspended, now);
  }

  /** Is Failed True, for the reason given? */
  ghost predicate FailsWith(s: JobStatus, launcher: BatchJob, pods: seq<Pod>) {
    exists reason :: Shows(s, Failed, True, reason) && IsGivenReason(launcher, pods, reason)
  }

  /** The launcher as reported: its counts, the completion time and the outcome, from the Job's own conditions. */
  lemma LauncherReported(s0: JobStatus, suspended: bool, launcher: BatchJob, pods: seq<Pod>, workers: seq<Pod>,
                         now: Time)
    requires Computes(s0, suspended, Some(launcher), workers)
    ensures var s := Computed(s0, suspended, Some(launcher), pods, workers, now);
            var succeeded := FirstIsTrue(launcher.conditions, BatchComplete);
            var failed := !succeeded && FirstIsTrue(launcher.conditions, BatchFailed);
            && Launcher in s.replicaStatuses
            && s.replicaStatuses[Launcher] ==
               ReplicaStatus(if succeeded || failed then 0 else |InPhase(pods, PodRunning)|,
                             if succeeded then 1 else 0, launcher.failed)
            && s.completionTime == (if succeeded then launcher.completionTime else if failed then Some(now) else None)
            && (succeeded ==> Shows(s, Succeeded, True, "GroupJobSucceeded") && !IsStatus(s, Failed, True))
            && (failed ==> !IsStatus(s, Succeeded, True) && FailsWith(s, launcher, pods))
            && (!succeeded && !failed ==>
                  GetCondition(s.conditions, Succeeded) == GetCondition(s0.conditions, Succeeded))
  {
    hide StatusInv, LauncherStep, WorkerStep, RunningStep, WellFormed, Computed, AllRunning, FirstIsTrue, InPhase,
         JobSucceeded, JobFailed, FailureReason, CountPhase;
    OverIfFinished(Some(launcher));
    ComputesOk(s0, suspended, Some(launcher), workers);
    ComputedInv(s0, suspended, Some(launcher), pods, workers, now);
    var s1 := ComputedSteps(s0, suspended, Some(launcher), pods, workers, now);
    LauncherStepReports(s1, launcher, pods, now);
    CountPhaseSize(pods, PodRunning);
    var s2 := LauncherStep(s1, Some(launcher), pods, now);
    StaysWellFormed(s1, Some(launcher), pods, now);
    LaterStepsKeep(s2, suspended, Some(launcher), pods, workers, now);
    hide Shows, IsGivenReason, IsStatus;
    var s := Computed(s0, suspended, Some(launcher), pods, workers, now);
    OneOutcome(s);
    if JobSucceeded(launcher) {
      ShowsKept(s2, s, Succeeded, "GroupJobSucceeded");
    } else if JobFailed(launcher) {
      FailureReasonIs(launcher, pods);
      NoneEvicted();
      ShowsKept(s2, s, Failed, FailureReason(launcher, pods));
      assert FailsWith(s, launcher, pods);
    }
  }

  lemma NoneEvicted()
    ensures !SomeEvicted([])
  {
  }

  lemma ShowsKept(s: JobStatus, s': JobStatus, kind: ConditionType, reason: string)
    requires GetCondition(s'.conditions, kind) == GetCondition(s.conditions, kind) && Shows(s, kind, True, reason)
    ensures Shows(s', kind, True, reason) && IsStatus(s', kind, True)
  {
  }

  lemma OneOutcome(s: JobStatus)
    requires StatusInv(s)
    ensures !(IsStatus(s, Succeeded, True) && IsStatus(s, Failed, True))
  {
  }

  lemma StaysWellFormed(s: JobStatus, launcher: Option<BatchJob>, pods: seq<Pod>, now: Time)
    requires WellFormed(s.conditions)
    ensures WellFormed(LauncherStep(s, launcher, pods, now).conditions)
  {
    hide WellFormed, SetCondition, JobSucceeded, JobFailed, FailureReason;
    if launcher.Some? {
      var s' := LauncherStep(s, launcher, pods, now);
      var counted := s.(replicaStatuses := s'.replicaStatuses, completionTime := s'.completionTime);
      if JobSucceeded(launcher.value) {
        UpdateLookups(counted, Succeeded, True, SUCCEEDED_REASON, now);
      } else if JobFailed(launcher.value) {
        UpdateLookups(counted, Failed, True, FailureReason(launcher.value, pods), now);
      }
    }
  }

  /* ---- The workers ---- */

  /** The workers as reported: how many are in each phase, and no other type's counts touched. */
  lemma WorkersReported(s0: JobStatus, suspended: bool, launcher: Option<BatchJob>, pods: seq<Pod>, workers: seq<Pod>,
                        now: Time)
    requires Computes(s0, suspended, launcher, workers)
    ensures var s := Computed(s0, suspended, launcher, pods, workers, now);
            && Worker in s.replicaStatuses
            && s.replicaStatuses[Worker] ==
               ReplicaStatus(|InPhase(workers, PodRunning)|, |InPhase(workers, PodSucceeded)|,
                             |InPhase(workers, PodFailed)|)
            && s.replicaStatuses - {Launcher, Worker} == s0.replicaStatuses - {Launcher, Worker}
            && (launcher.None? && Launcher in s0.replicaStatuses ==>
                  Launcher in s.replicaStatuses && s.replicaStatuses[Launcher] == s0.replicaStatuses[Launcher])
  {
    hide StatusInv, WellFormed, Computed, AllRunning, InPhase, Computes, LauncherStep, WorkerStep, RunningStep;
    var s1 := ComputedSteps(s0, suspended, launcher, pods, workers, now);
    StaysWellFormed(s1, launcher, pods, now);
    LauncherStepCounts(s1, launcher, pods, now);
    var s2 := LauncherStep(s1, launcher, pods, now);
    LaterStepsKeep(s2, suspended, launcher, pods, workers, now);
    SameButForBoth(s0.replicaStatuses, s1.replicaStatuses, s2.replicaStatuses);
    SameButForBoth(s2.replicaStatuses, Computed(s0, suspended, launcher, pods, workers, now).replicaStatuses,
        Computed(s0, suspended, launcher, pods, workers, now).replicaStatuses);
    SameButFor(s0.replicaStatuses, s1.replicaStatuses, Worker, Launcher);
  }

  lemma LauncherStepCounts(s: JobStatus, launcher: Option<BatchJob>, pods: seq<Pod>, now: Time)
    ensures var s' := LauncherStep(s, launcher, pods, now);
            && s'.replicaStatuses - {Launcher} == s.replicaStatuses - {Launcher}
            && (launcher.None? ==> s' == s)
  {
    hide SetCondition, FailureReason, CountPhase;
  }

  lemma SameButForBoth(a: map<ReplicaType, ReplicaStatus>, b: map<ReplicaType, ReplicaStatus>,
                       c: map<ReplicaType, ReplicaStatus>)
    requires a - {Worker} == b - {Worker} && b - {Launcher} == c - {Launcher}
    ensures a - {Launcher, Worker} == c - {Launcher, Worker}
  {
    assert a - {Launcher, Worker} == a - {Worker} - {Launcher};
    assert b - {Launcher, Worker} == b - {Worker} - {Launcher} == b - {Launcher} - {Worker};
    assert c - {Launcher, Worker} == c - {Launcher} - {Worker};
  }

  lemma SameButFor(a: map<ReplicaType, ReplicaStatus>, b: map<ReplicaType, ReplicaStatus>, except: ReplicaType,
                   t: ReplicaType)
    requires a - {except} == b - {except} && t != except
    ensures t in a <==> t in b
    ensures t in a ==> a[t] == b[t]
  {
    assert t in a <==> t in a - {except};
    assert t in b <==> t in b - {except};
    if t in a {
      assert (a - {except})[t] == a[t] && (b - {except})[t] == b[t];
    }
  }

  /** While the launcher has not finished, an evicted worker fails the job, and nothing else does. */
  lemma EvictionReported(s0: JobStatus, suspended: bool, launcher: Option<BatchJob>, pods: seq<Pod>, workers: seq<Pod>,
                         now: Time)
    requires Computes(s0, suspended, launcher, workers) && !IsOver(launcher)
    ensures var s := Computed(s0, suspended, launcher, pods, workers, now);
            && ((exists i :: 0 <= i < |workers| && workers[i].phase == PodFailed && workers[i].reason == "Evicted") ==>
                  Shows(s, Failed, True, "GroupJobEvicted"))
            && ((forall i :: 0 <= i < |workers| ==> workers[i].phase != PodFailed || workers[i].reason != "Evicted") ==>
                  GetCondition(s.conditions, Failed) == GetCondition(s0.conditions, Failed))
  {
    hide StatusInv, WellFormed, Computed, AllRunning, InPhase, Computes, JobSucceeded, JobFailed, FailureReason,
         SetCondition, IsOver, Shows;
    OverIfFinished(launcher);
    var s1 := ComputedSteps(s0, suspended, launcher, pods, workers, now);
    StaysWellFormed(s1, launcher, pods, now);
    var s2 := LauncherStep(s1, launcher, pods, now);
    assert s2.conditions == s1.conditions;
    LaterStepsKeep(s2, suspended, launcher, pods, workers, now);
  }

  /* ---- Running and suspended ---- */

  ghost predicate SomeRunning(pods: seq<Pod>) { exists i :: 0 <= i < |pods| && pods[i].phase == PodRunning }
  ghost predicate EachRunning(pods: seq<Pod>) { forall i :: 0 <= i < |pods| ==> pods[i].phase == PodRunning }

  lemma AllRunningIf(launcher: Option<BatchJob>, pods: seq<Pod>, workers: seq<Pod>)
    ensures AllRunning(launcher, pods, workers) <==> launcher.Some? && SomeRunning(pods) && EachRunning(workers)
  {
    AllInPhase(pods, PodRunning);
    AllInPhase(workers, PodRunning);
  }

  /** Suspension as reported; without it, Running is True once some launcher pod and all workers run, and is
      left as it was while the launcher has not finished, they do not, and no worker is evicted. */
  lemma RunningReported(s0: JobStatus, suspended: bool, launcher: Option<BatchJob>, pods: seq<Pod>, workers: seq<Pod>,
                        now: Time)
    requires Computes(s0, suspended, launcher, workers)
    ensures var s := Computed(s0, suspended, launcher, pods, workers, now);
            var running := launcher.Some? && SomeRunning(pods) && EachRunning(workers);
            && (suspended ==>
                  Shows(s, Suspended, True, "GroupJobSuspended") && Shows(s, Running, False, "GroupJobSuspended"))
            && (!suspended && running ==> Shows(s, Running, True, "GroupJobRunning"))
            && (!suspended && !running && !IsOver(launcher) && !SomeEvicted(workers) ==>
                  GetCondition(s.conditions, Running) == GetCondition(s0.conditions, Running))
            && (!suspended ==> if GetCondition(s0.conditions, Suspended).None?
                               then GetCondition(s.conditions, Suspended).None?
                               else Shows(s, Suspended, False, "GroupJobResumed"))
            && GetCondition(s.conditions, Created).Some?
  {
    hide StatusInv, WellFormed, Computed, AllRunning, Computes, JobSucceeded, JobFailed, FailureReason, SetCondition,
         IsOver, SomeRunning, EachRunning, SomeEvicted;
    ComputesOk(s0, suspended, launcher, workers);
    OverIfFinished(launcher);
    AllRunningIf(launcher, pods, workers);
    EvictedCounted(workers);
    ComputedInv(s0, suspended, launcher, pods, workers, now);
    var s1 := ComputedSteps(s0, suspended, launcher, pods, workers, now);
    StaysWellFormed(s1, launcher, pods, now);
    var s2 := LauncherStep(s1, launcher, pods, now);
    WorkerStepFacts(s2, workers, now);
    var s3 := WorkerStep(s2, workers, now);
    RunningStepShows(s3, suspended, AllRunning(launcher, pods, workers), now);
    SuspendedShows(Computed(s0, suspended, launcher, pods, workers, now), suspended);
  }

  lemma SuspendedShows(s: JobStatus, suspended: bool)
    requires StatusInv(s) && IsStatus(s, Suspended, True) == suspended && s.conditions != []
    ensures suspended ==> Shows(s, Suspended, True, "GroupJobSuspended")
    ensures !suspended && GetCondition(s.conditions, Suspended).Some? ==> Shows(s, Suspended, False, "GroupJobResumed")
    ensures GetCondition(s.conditions, Created).Some?
  {
  }

  /** The first status of a job says that it was created, then. */
  lemma CreationReported(suspended: bool, launcher: Option<BatchJob>, pods: seq<Pod>, workers: seq<Pod>, now: Time)
    requires Computes(EMPTY_STATUS, suspended, launcher, workers)
    ensures var s := Computed(EMPTY_STATUS, suspended, launcher, pods, workers, now);
            && Shows(s, Created, True, "GroupJobCreated")
            && GetCondition(s.conditions, Created).value.lastTransitionTime == now
  {
    hide StatusInv, SuspendStep, LauncherStep, WorkerStep, RunningStep, WellFormed, IsTerminal, AllRunning, SeenOk,
         Computes, FirstIsTrue;
    ComputesOk(EMPTY_STATUS, suspended, launcher, workers);
    BeforeLookups(EMPTY_STATUS, suspended, now);
    var b := Before(EMPTY_STATUS, suspended, now);
    CreatedFirst(suspended, now);
    hide Before;
    ComputeFacts(b, suspended, launcher, pods, workers, now);
  }

  lemma CreatedFirst(suspended: bool, now: Time)
    ensures GetCondition(Before(EMPTY_STATUS, suspended, now).conditions, Created) ==
            Some(JobCondition(Created, True, now, now, "GroupJobCreated"))
  {
    var c := NewCondition(Created, True, CREATED_REASON, now);
    GetAfterSet([], c, Created);
    assert GetCondition([], Created) == None;
  }

  /* ---- What is stored ---- */

  /** The workers among 0 to n - 1 that are there, in a phase. */
  ghost function WorkersIn(pods: map<Key, Pod>, key: Key, n: int, phase: Phase): set<int> {
    set i | 0 <= i < n && WorkerKey(key, i) in pods && pods[WorkerKey(key, i)].phase == phase
  }

  ghost predicate WorkerEvicted(pods: map<Key, Pod>, key: Key, n: int) {
    exists i: nat ::
      i < n && WorkerKey(key, i) in pods
      && pods[WorkerKey(key, i)].phase == PodFailed && pods[WorkerKey(key, i)].reason == "Evicted"
  }

  ghost predicate WorkersRun(pods: map<Key, Pod>, key: Key, n: int) {
    forall i: nat :: i < n ==> WorkerKey(key, i) in pods && pods[WorkerKey(key, i)].phase == PodRunning
  }

  /** The pods in a phase that a Job controls. */
  ghost function ControlledIn(pods: map<Key, Pod>, namespace: string, j: BatchJob, phase: Phase): set<Key> {
    set k | k in pods && k.namespace == namespace && pods[k].owner == Some(j.uid) && pods[k].phase == phase
  }

  /** What the worker pods of a round show is what the stored ones do: a pod just created is pending. */
  lemma WorkersSeen(c: Cluster, key: Key, job: GroupJob, w: ReplicaSpec, env: Env, n: nat)
    ensures var workers := WorkerPods(c, key, job, w, env, 0, n);
            && (SomeEvicted(workers) <==> WorkerEvicted(c.pods, key, n))
            && (EachRunning(workers) <==> WorkersRun(c.pods, key, n))
            && forall phase :: phase != PodPending ==> InPhase(workers, phase) == WorkersIn(c.pods, key, n, phase)
  {
    hide WorkerKey, NewWorker;
    var workers := WorkerPods(c, key, job, w, env, 0, n);
    forall i: nat | i < n
      ensures workers[i] == WorkerPod(c, key, job, w, env, i)
      ensures WorkerKey(key, i) !in c.pods ==> workers[i].phase == PodPending
    {
      NewWorkerPends(key, job, w, i, env);
    }
    SeenEvicted(workers, c.pods, key);
    SeenRunning(workers, c.pods, key);
    SeenInPhase(workers, c.pods, key);
  }

  lemma NewWorkerPends(key: Key, job: GroupJob, w: ReplicaSpec, i: nat, env: Env)
    ensures NewWorker(key, job, w, i, env).phase == PodPending
  {
  }

  /** Is each of these the stored pod of its worker, or a pending one if there is none? */
  ghost predicate SeenAs(workers: seq<Pod>, pods: map<Key, Pod>, key: Key) {
    forall i: nat :: i < |workers| ==>
      if WorkerKey(key, i) in pods then workers[i] == pods[WorkerKey(key, i)] else workers[i].phase == PodPending
  }

  lemma SeenEvicted(workers: seq<Pod>, pods: map<Key, Pod>, key: Key)
    requires SeenAs(workers, pods, key)
    ensures SomeEvicted(workers) <==> WorkerEvicted(pods, key, |workers|)
  {
    hide WorkerKey;
  }

  lemma SeenRunning(workers: seq<Pod>, pods: map<Key, Pod>, key: Key)
    requires SeenAs(workers, pods, key)
    ensures EachRunning(workers) <==> WorkersRun(pods, key, |workers|)
  {
    hide WorkerKey;
  }

  lemma SeenInPhase(workers: seq<Pod>, pods: map<Key, Pod>, key: Key)
    requires SeenAs(workers, pods, key)
    ensures forall phase :: phase != PodPending ==> InPhase(workers, phase) == WorkersIn(pods, key, |workers|, phase)
  {
    hide WorkerKey;
  }

  /** What a calm sync of an active job stores, from what it sees. */
  lemma ActiveStatus(c: Cluster, env: Env, gang: Option<GangScheduler>, key: Key)
    returns (launcher: Option<BatchJob>, workers: seq<Pod>)
    requires Tidy(c, key) && Scalable(c, gang, key) && Active(c, key) && Calm(c, env, gang, JobAt(c, key))
    ensures var job, r := JobAt(c, key), Sync(c, c, env, key);
            && r.ok && key in r.live.groupJobs && FindLauncher(r.live, key) == launcher
            && r.live.groupJobs[key].status ==
               Computed(job.status, false, launcher, LauncherPods(c, env.launcherPodOrder, key, launcher), workers,
                        env.now)
            && Computes(job.status, false, launcher, workers) && !IsOver(launcher)
            && job.spec.WorkerReplicas() >= 0
            && workers == if job.spec.Replica(Worker).None? then []
                          else WorkerPods(c, key, job, job.spec.Replica(Worker).value, env, 0,
                                          job.spec.WorkerReplicas())
  {
    hide Act, Sync, StatusInv, IsTerminal, Default, Ignored, Computed, LauncherPods, NextLauncher, WithLauncher,
         JobFinished, Schedulable, IsListing, IsSorted, OwnWorkers, ConfigKey, SecretKey, LauncherKey, NextConfigMaps,
         NextSecrets, NextPodGroups, NewPodGroupSpec, NewService, ViewOk, AcceptsReplicas, LauncherMayStart,
         OwnsWorkerNames, WorkerPods, MissingAreNew, Computes, IsOver, FirstIsTrue, SeenOk;
    var job := JobAt(c, key);
    AcceptedSpec(key, job);
    ActiveActSettles(c, env, gang, key, job);
    launcher, workers := Act(c, c, env, key, job).value.0, Act(c, c, env, key, job).value.1;
    NextLauncherOk(c, env, key, job, LauncherMayStart(job, workers));
    SyncSettles(c, env, key);
    UnfinishedStatus(job.status);
    OverIfFinished(launcher);
    NotOverComputes(job.status, launcher, workers);
  }

  lemma NotOverComputes(s: JobStatus, launcher: Option<BatchJob>, workers: seq<Pod>)
    requires StatusInv(s) && s.completionTime.None? && !IsOver(launcher)
    ensures Computes(s, false, launcher, workers)
  {
    hide StatusInv, FirstIsTrue;
  }

  /** The running pods of the launcher, counted. */
  lemma LauncherPodsCounted(c: Cluster, order: seq<Key>, key: Key, launcher: BatchJob)
    requires IsListing(order, c.pods.Keys)
    ensures var pods, running := LauncherPods(c, order, key, Some(launcher)),
                                 ControlledIn(c.pods, key.namespace, launcher, PodRunning);
            |InPhase(pods, PodRunning)| == |running| && (SomeRunning(pods) <==> running != {})
  {
    hide LauncherPods, OwnedIn, InPhase, IsListing;
    var pods := LauncherPods(c, order, key, Some(launcher));
    LauncherPodsRunning(c, order, key, Some(launcher));
    CountPhaseSize(pods, PodRunning);
    AllInPhase(pods, PodRunning);
    OwnedAreControlled(c.pods, key.namespace, launcher, PodRunning);
  }

  lemma OwnedAreControlled(pods: map<Key, Pod>, namespace: string, j: BatchJob, phase: Phase)
    ensures OwnedIn(pods, namespace, j.uid, phase) == ControlledIn(pods, namespace, j, phase)
  {
  }

  lemma AllWorkersSeen(c: Cluster, key: Key, job: GroupJob, env: Env, workers: seq<Pod>)
    requires job.spec.WorkerReplicas() >= 0
    requires workers == if job.spec.Replica(Worker).None? then []
                        else WorkerPods(c, key, job, job.spec.Replica(Worker).value, env, 0, job.spec.WorkerReplicas())
    ensures var n := job.spec.WorkerReplicas();
            && (SomeEvicted(workers) <==> WorkerEvicted(c.pods, key, n))
            && (EachRunning(workers) <==> WorkersRun(c.pods, key, n))
            && forall phase :: phase != PodPending ==> InPhase(workers, phase) == WorkersIn(c.pods, key, n, phase)
  {
    if job.spec.Replica(Worker).Some? {
      hide WorkerPods, SomeEvicted, WorkerEvicted, EachRunning, WorkersRun, InPhase, WorkersIn;
      WorkersSeen(c, key, job, job.spec.Replica(Worker).value, env, job.spec.WorkerReplicas());
    }
  }

  /** The stored status after a calm sync of an active job, from the workers, the launcher Job and its pods: how many
      workers are there in each phase; how many of the launcher's pods run; that a worker was evicted, if one was; and
      that the job runs, once some launcher pod and all workers do. Nothing is said that is not so. */
  lemma ActiveReported(c: Cluster, env: Env, gang: Option<GangScheduler>, key: Key)
    requires Tidy(c, key) && Scalable(c, gang, key) && Active(c, key) && Calm(c, env, gang, JobAt(c, key))
    ensures var r, n := Sync(c, c, env, key), WorkersAsked(c.groupJobs[key].spec);
            var k := Key(key.namespace, key.name + "-launcher");
            && r.ok && key in r.live.groupJobs
            && var s0, s := c.groupJobs[key].status, r.live.groupJobs[key].status;
            && Worker in s.replicaStatuses
            && s.replicaStatuses[Worker] ==
               ReplicaStatus(|WorkersIn(c.pods, key, n, PodRunning)|, |WorkersIn(c.pods, key, n, PodSucceeded)|,
                             |WorkersIn(c.pods, key, n, PodFailed)|)
            && (k in r.live.jobs ==>
                  Launcher in s.replicaStatuses
                  && s.replicaStatuses[Launcher] ==
                     ReplicaStatus(|ControlledIn(c.pods, key.namespace, r.live.jobs[k], PodRunning)|, 0,
                                   r.live.jobs[k].failed))
            && (WorkerEvicted(c.pods, key, n) ==> Shows(s, Failed, True, "GroupJobEvicted"))
            && (!WorkerEvicted(c.pods, key, n) ==>
                  GetCondition(s.conditions, Failed) == GetCondition(s0.conditions, Failed))
            && var running :=
                 && k in r.live.jobs && ControlledIn(c.pods, key.namespace, r.live.jobs[k], PodRunning) != {}
                 && WorkersRun(c.pods, key, n);
            && (running ==> Shows(s, Running, True, "GroupJobRunning"))
            && (!running && !WorkerEvicted(c.pods, key, n) ==>
                  GetCondition(s.conditions, Running) == GetCondition(s0.conditions, Running))
            && !IsStatus(s, Suspended, True) && s.completionTime.None?
  {
    hide Sync, Tidy, Scalable, Active, Calm, Default, Computes, Computed, FirstIsTrue, LauncherPods, WorkersIn,
         WorkersRun, WorkerEvicted, InPhase, EachRunning, SomeRunning, ControlledIn, WorkerPods, Shows, WorkersAsked,
         IsStatus, GetCondition;
    TidyHasJob(c, key);
    var job := JobAt(c, key);
    AsksWorkers(c.groupJobs[key].spec);
    var launcher, workers := ActiveStatus(c, env, gang, key);
    var pods := LauncherPods(c, env.launcherPodOrder, key, launcher);
    AllWorkersSeen(c, key, job, env, workers);
    CalmListing(c, env, gang, job);
    WorkersReported(job.status, false, launcher, pods, workers, env.now);
    EvictionReported(job.status, false, launcher, pods, workers, env.now);
    RunningReported(job.status, false, launcher, pods, workers, env.now);
    StillUnfinished(job.status, launcher, pods, workers, env.now);
    if launcher.Some? {
      LauncherReported(job.status, false, launcher.value, pods, workers, env.now);
      LauncherPodsCounted(c, env.launcherPodOrder, key, launcher.value);
    }
  }

  lemma CalmListing(c: Cluster, env: Env, gang: Option<GangScheduler>, job: GroupJob)
    requires Calm(c, env, gang, job)
    ensures IsListing(env.launcherPodOrder, c.pods.Keys)
  {
  }

  lemma StillUnfinished(s0: JobStatus, launcher: Option<BatchJob>, pods: seq<Pod>, workers: seq<Pod>, now: Time)
    requires Computes(s0, false, launcher, workers) && !IsOver(launcher)
    ensures var s := Computed(s0, false, launcher, pods, workers, now);
            !IsStatus(s, Suspended, True) && s.completionTime.None?
  {
    hide StatusInv, Computed, FirstIsTrue, IsTerminal, SeenOk, JobSucceeded, JobFailed;
    ComputesOk(s0, false, launcher, workers);
    OverIfFinished(launcher);
    ComputedInv(s0, false, launcher, pods, workers, now);
  }
}
