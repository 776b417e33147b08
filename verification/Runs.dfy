/** Runs of the operator: syncs of any job from any snapshot, however stale, interleaved with anything
    the rest of the world may do. What holds of every stored status, in every run. */
module Runs {
  import opened Types
  import opened Conditions
  import opened Defaults
  import opened Validation
  import opened Status
  import opened Api
  import opened Objects
  import opened Workers
  import opened Reconcile
  import opened StatusSteps
  import opened Names

  /* ---- What the steps of a sync leave alone ---- */

  lemma {:induction false} DeleteSurplusFrame(view: Cluster, live: Cluster, env: Env, keys: seq<Key>, n: int)
    ensures var r := DeleteSurplus(view, live, env, keys, n).live; r == live.(pods := r.pods)
    ensures forall k :: k in DeleteSurplus(view, live, env, keys, n).live.pods ==>
              k in live.pods && DeleteSurplus(view, live, env, keys, n).live.pods[k] == live.pods[k]
    decreases keys
  {
    if keys != [] {
      var k := keys[0];
      DeleteSurplusFrame(view, live, env, keys[1..], n);
      DeleteSurplusFrame(view, live.(pods := live.pods - {k}), env, keys[1..], n);
    }
  }

  lemma {:induction false} EnsureWorkersFrame(view: Cluster, live: Cluster, env: Env, key: Key, job: GroupJob,
                                              w: ReplicaSpec,
                                              i: nat, n: int, found: seq<Pod>)
    ensures var r := EnsureWorkers(view, live, env, key, job, w, i, n, found).live; r == live.(pods := r.pods)
    decreases n - i
  {
    if i < n {
      var k := WorkerKey(key, i);
      var pod := NewWorker(key, job, w, i, env);
      if k in view.pods {
        EnsureWorkersFrame(view, live, env, key, job, w, i + 1, n, found + [view.pods[k]]);
      } else {
        EnsureWorkersFrame(view, live.(pods := live.pods[k := pod]), env, key, job, w, i + 1, n, found + [pod]);
      }
    }
  }

  lemma {:induction false} DeleteWorkersFrame(view: Cluster, live: Cluster, env: Env, key: Key, job: GroupJob, i: nat,
                                              n: int)
    ensures var r := DeleteWorkers(view, live, env, key, job, i, n).live; r == live.(pods := r.pods)
    ensures forall k :: k in DeleteWorkers(view, live, env, key, job, i, n).live.pods ==>
              k in live.pods && DeleteWorkers(view, live, env, key, job, i, n).live.pods[k] == live.pods[k]
    decreases n - i
  {
    if i < n {
      DeleteWorkersFrame(view, live, env, key, job, i + 1, n);
      DeleteWorkersFrame(view, live.(pods := live.pods - {WorkerKey(key, i)}), env, key, job, i + 1, n);
    }
  }

  lemma GetWorkersFrame(view: Cluster, live: Cluster, env: Env, key: Key, job: GroupJob)
    ensures var r := GetWorkers(view, live, env, key, job).live; r == live.(pods := r.pods)
  {
    if job.spec.Replica(Worker).Some? {
      var n := job.spec.WorkerReplicas();
      var keys := SelectedPods(view, env.workerOrder, key);
      DeleteSurplusFrame(view, live, env, keys, n);
      var after := if |keys| > n then DeleteSurplus(view, live, env, keys, n).live else live;
      EnsureWorkersFrame(view, after, env, key, job, job.spec.Replica(Worker).value, 0, n, []);
    }
  }

  /** Cleaning up only takes pods and PodGroups away. */
  lemma CleanUpFrame(view: Cluster, live: Cluster, env: Env, key: Key, job: GroupJob)
    ensures var r := CleanUp(view, live, env, key, job).live;
            && r == live.(pods := r.pods, podGroups := r.podGroups)
            && (forall k :: k in r.pods ==> k in live.pods && r.pods[k] == live.pods[k])
            && (forall k :: k in r.podGroups ==> k in live.podGroups && r.podGroups[k] == live.podGroups[k])
  {
    DeleteWorkersFrame(view, live, env, key, job, 0, job.spec.WorkerReplicas());
  }

  lemma EnsureGangFrame(view: Cluster, live: Cluster, env: Env, key: Key, job: GroupJob)
    ensures var r := EnsureGang(view, live, env, key, job).live;
            r == live.(podGroups := r.podGroups) && SameExcept(live.podGroups, r.podGroups, key)
  {
    if env.gang.Some? {
      EnsurePodGroupFrame(view, live, env, env.gang.value, key, job);
    }
  }

  lemma EnsureObjectsFrame(view: Cluster, live: Cluster, env: Env, key: Key, job: GroupJob)
    ensures EnsureObjects(view, live, env, key, job).live.groupJobs == live.groupJobs
    ensures EnsureObjects(view, live, env, key, job).live.priorityClasses == live.priorityClasses
  {
    hide EnsureService, EnsureConfigMap, EnsureSecret, EnsureGang, GetWorkers, SameExcept;
    var r1 := EnsureService(view, live, env, key, job).live;
    EnsureServiceFrame(view, live, env, key, job);
    var r2 := EnsureConfigMap(view, r1, env, key, job).live;
    EnsureConfigMapFrame(view, r1, env, key, job);
    var r3 := EnsureSecret(view, r2, env, key, job).live;
    EnsureSecretFrame(view, r2, env, key, job);
    EnsureGangFrame(view, r3, env, key, job);
    GetWorkersFrame(view, EnsureGang(view, r3, env, key, job).live, env, key, job);
  }

  lemma PrepareFrame(view: Cluster, live: Cluster, env: Env, key: Key, job: GroupJob)
    ensures Prepare(view, live, env, key, job).live.groupJobs == live.groupJobs
    ensures Prepare(view, live, env, key, job).live.priorityClasses == live.priorityClasses
  {
    hide EnsureObjects;
    EnsureObjectsFrame(view, live, env, key, job);
  }

  /** Until the status is written no stored GroupJob changes. */
  lemma ActFrame(view: Cluster, live: Cluster, env: Env, key: Key, job: GroupJob)
    ensures Act(view, live, env, key, job).live.groupJobs == live.groupJobs
    ensures Act(view, live, env, key, job).live.priorityClasses == live.priorityClasses
  {
    PrepareFrame(view, live, env, key, job);
    hide Prepare, CleanUp;
    var prepared := Prepare(view, live, env, key, job);
    if prepared.Ok? {
      var aligned := AlignLauncher(prepared.live, env, key, job, prepared.value.0);
      CleanUpFrame(view, aligned.live, env, key, job);
    }
  }

  /** Complete Jobs carry a completion time, as the Job controller promises. */
  ghost predicate ViewOk(view: Cluster) {
    forall k :: k in view.jobs && JobSucceeded(view.jobs[k]) ==> view.jobs[k].completionTime.Some?
  }

  /** When a sync reaches the status update it has seen no workers of a suspended or finished job. */
  lemma ActSees(view: Cluster, live: Cluster, env: Env, key: Key, job: GroupJob)
    requires ViewOk(view) && Act(view, live, env, key, job).Ok?
    ensures var (launcher, workers) := Act(view, live, env, key, job).value;
            SeenOk(job.spec.Suspended(), launcher, workers)
  {
    hide EnsureService, EnsureConfigMap, EnsureSecret, EnsureGang, GetWorkers, CleanUp;
  }

  /* ---- Runs ---- */

  ghost predicate SyncStep(c: Cluster, c': Cluster) {
    exists view, env, key :: ViewOk(view) && SyncsTo(view, c, env, key, c')
  }

  ghost predicate SyncsTo(view: Cluster, c: Cluster, env: Env, key: Key, c': Cluster) {
    c' == Sync(view, c, env, key).live
  }

  /** The environment may do anything to a cluster except write the status of a GroupJob: jobs come
      with an empty status, may change their spec, be deleted and be created again under a new uid. */
  ghost predicate EnvironmentStep(c: Cluster, c': Cluster) {
    forall k :: k in c'.groupJobs ==>
      c'.groupJobs[k].status ==
      if k in c.groupJobs && c.groupJobs[k].uid == c'.groupJobs[k].uid then c.groupJobs[k].status else EMPTY_STATUS
  }

  ghost predicate Next(c: Cluster, c': Cluster) {
    SyncStep(c, c') || EnvironmentStep(c, c')
  }

  ghost predicate IsRun(run: seq<Cluster>) {
    && run != []
    && (forall k :: k in run[0].groupJobs ==> run[0].groupJobs[k].status == EMPTY_STATUS)
    && forall i :: 0 <= i < |run| - 1 ==> Next(run[i], run[i + 1])
  }

  ghost predicate StatusesInv(c: Cluster) {
    forall k :: k in c.groupJobs ==> StatusInv(c.groupJobs[k].status)
  }

  /** Has the status of the job at `key` been overwritten with `s`, by a sync whose snapshot of it was current? */
  ghost predicate Wrote(view: Cluster, c: Cluster, c': Cluster, key: Key, s: JobStatus) {
    && key in view.groupJobs && key in c.groupJobs && view.groupJobs[key] == c.groupJobs[key]
    && c'.groupJobs == c.groupJobs[key := c.groupJobs[key].(status := s)]
  }

  lemma WriteStatusWrites(view: Cluster, c: Cluster, env: Env, key: Key, s: JobStatus)
    requires key in view.groupJobs
    ensures var r := WriteStatus(view, c, env, key, s);
            if r.Ok? then Wrote(view, c, r.live, key, s) else r.live == c
  {
  }

  lemma SyncTerminalWrites(view: Cluster, c: Cluster, env: Env, key: Key, job: GroupJob, s: JobStatus)
    requires key in view.groupJobs
    ensures var r := SyncTerminal(view, c, env, key, job, s);
            && r.computed.None?
            && (r.live.groupJobs == c.groupJobs || Wrote(view, c, r.live, key, CleanedStatus(s)))
  {
    hide CleanUp, WriteStatus;
    CleanUpFrame(view, c, env, key, job);
    var cleaned := CleanUp(view, c, env, key, job);
    WriteStatusWrites(view, cleaned.live, env, key, CleanedStatus(s));
  }

  lemma SyncActiveWrites(view: Cluster, c: Cluster, env: Env, key: Key, job: GroupJob, s: JobStatus)
    requires key in view.groupJobs && ViewOk(view)
    ensures var r := SyncActive(view, c, env, key, job, s);
            var acted := Act(view, c, env, key, job);
            var suspended := job.spec.Suspended();
            if acted.Err? then !r.ok && r.computed.None? && r.live.groupJobs == c.groupJobs
            else
              var (launcher, workers) := acted.value;
              var before := if suspended then CleanedStatus(s) else s;
              var pods := LauncherPods(view, env.launcherPodOrder, key, launcher);
              var computed := ComputeStatus(before, suspended, launcher, pods, workers, env.now);
              && SeenOk(suspended, launcher, workers)
              && r.computed == Some(computed)
              && (computed == before ==> r.ok && r.live.groupJobs == c.groupJobs)
              && (computed != before && r.ok ==> Wrote(view, c, r.live, key, computed))
              && (computed != before && !r.ok ==> r.live.groupJobs == c.groupJobs)
  {
    hide Act, WriteStatus, ComputeStatus, SeenOk;
    var acted := Act(view, c, env, key, job);
    ActFrame(view, c, env, key, job);
    if acted.Ok? {
      ActSees(view, c, env, key, job);
      WriteStatusWrites(view, acted.live, env, key, SyncActive(view, c, env, key, job, s).computed.value);
    }
  }

  /** A sync changes at most the status of its own job, and only if its snapshot of it was current. */
  lemma SyncStatuses(view: Cluster, c: Cluster, env: Env, key: Key)
    requires ViewOk(view)
    ensures var r := Sync(view, c, env, key);
            r.live.groupJobs == c.groupJobs || exists s :: Wrote(view, c, r.live, key, s)
  {
    hide SyncTerminal, SyncActive, Accepts, Default, Act, ComputeStatus;
    if key in view.groupJobs {
      var job := DefaultedJob(view.groupJobs[key]);
      var status := MarkCreated(job.status, env.now);
      SyncTerminalWrites(view, c, env, key, job, status);
      SyncActiveWrites(view, c, env, key, job, MarkStarted(status, job.spec.Suspended(), env.now));
    }
  }

  /** What a sync leaves of the statuses, whatever snapshot of the job it worked on: nothing has changed,
      or its snapshot was current and the job has a new status that keeps the invariant, moves the start
      time only as StartTimeStep allows, and differs from a terminal one in its worker counts only. If it
      reached the status update without an error, the computed status was written, or the sync computed
      the status it had seen and wrote nothing. */
  lemma SyncWrites(view: Cluster, c: Cluster, env: Env, key: Key)
    requires ViewOk(view) && key in view.groupJobs && StatusInv(view.groupJobs[key].status)
    ensures var r := Sync(view, c, env, key);
            var seen := view.groupJobs[key].status;
            && (r.live.groupJobs != c.groupJobs ==> exists s ::
                  && Wrote(view, c, r.live, key, s) && StatusInv(s)
                  && (IsTerminal(seen) ==> s == CleanedStatus(seen))
                  && (!IsTerminal(seen) ==> r.ok && r.computed == Some(s))
                  && StartTimeStep(seen, s, Default(view.groupJobs[key].spec).Suspended(), env.now))
            && (r.ok && r.computed.Some? ==>
                  || (r.computed.value == seen && r.live.groupJobs == c.groupJobs)
                  || (r.computed.value != seen && Wrote(view, c, r.live, key, r.computed.value)))
  {
    hide SyncTerminal, SyncActive, Accepts, Default, StatusInv, ComputeStatus, Act, IsTerminal, MarkCreated,
         MarkStarted, Wrote;
    var job := DefaultedJob(view.groupJobs[key]);
    var s0, suspended := job.status, job.spec.Suspended();
    MarkCreatedKeepsOutcome(s0, env.now);
    var marked := MarkCreated(s0, env.now);
    SyncTerminalWrites(view, c, env, key, job, marked);
    SyncActiveWrites(view, c, env, key, job, MarkStarted(marked, suspended, env.now));
    var acted := Act(view, c, env, key, job);
    if IsTerminal(s0) {
      CleanedInv(s0);
    } else if acted.Ok? {
      var (launcher, workers) := acted.value;
      var pods := LauncherPods(view, env.launcherPodOrder, key, launcher);
      ComputedInv(s0, suspended, launcher, pods, workers, env.now);
      NothingLost(s0, suspended, launcher, pods, workers, env.now);
    }
  }

  lemma MarkCreatedKeepsOutcome(s: JobStatus, now: Time)
    requires StatusInv(s)
    ensures IsTerminal(MarkCreated(s, now)) <==> IsTerminal(s)
    ensures IsTerminal(s) ==> MarkCreated(s, now) == s
  {
    if s.conditions == [] {
      UpdateLookups(s, Created, True, CREATED_REASON, now);
    }
  }

  lemma CleanedInv(s: JobStatus)
    requires StatusInv(s) && IsTerminal(s)
    ensures StatusInv(CleanedStatus(s))
  {
  }

  /** How one write may move the start time. */
  ghost predicate StartTimeStep(s0: JobStatus, s: JobStatus, suspended: bool, now: Time) {
    && (s.startTime != s0.startTime ==> !suspended && s.startTime == Some(now))
    && (s != s0 && !IsTerminal(s0) && !suspended ==> s.startTime.Some?)
    && (s0.startTime.Some? && s.startTime != s0.startTime ==>
          IsStatus(s0, Suspended, True) && IsStatus(s, Suspended, False))
    && (IsStatus(s0, Suspended, True) && IsStatus(s, Suspended, False) ==> s.startTime == Some(now))
    && (s0.startTime.None? && s.startTime.Some? ==> s.conditions != [] && !IsStatus(s, Suspended, True))
  }

  /* ---- Every run ---- */

  lemma EmptyInv()
    ensures StatusInv(EMPTY_STATUS)
  {
    assert GetCondition([], Running) == None;
  }

  lemma NextKeepsInv(c: Cluster, c': Cluster)
    requires StatusesInv(c) && Next(c, c')
    ensures StatusesInv(c')
  {
    hide StatusInv;
    EmptyInv();
    if SyncStep(c, c') {
      var view, env, key :| ViewOk(view) && SyncsTo(view, c, env, key, c');
      hide Sync;
      SyncStatuses(view, c, env, key);
      if c'.groupJobs != c.groupJobs {
        var s :| Wrote(view, c, c', key, s);
        SyncWrites(view, c, env, key);
      }
    }
  }

  lemma {:induction false} RunKeepsInv(run: seq<Cluster>, i: nat)
    requires IsRun(run) && i < |run|
    ensures StatusesInv(run[i])
  {
    hide StatusInv, Next;
    if i == 0 {
      EmptyInv();
    } else {
      RunKeepsInv(run, i - 1);
      hide StatusesInv;
      assert Next(run[i - 1], run[i - 1 + 1]);
      NextKeepsInv(run[i - 1], run[i]);
    }
  }

  /** In every stored status of every run: never both Succeeded and Failed; a completion time exactly
      when one of them is settled for good; one condition per type, never both Running and Restarting. */
  lemma OutcomesExclude(run: seq<Cluster>, i: nat, key: Key)
    requires IsRun(run) && i < |run| && key in run[i].groupJobs
    ensures var s := run[i].groupJobs[key].status;
            && !(HasCondition(s.conditions, Succeeded) && HasCondition(s.conditions, Failed))
            && (HasCondition(s.conditions, Succeeded) ==> s.completionTime.Some?)
            && (s.completionTime.Some? ==> HasCondition(s.conditions, Succeeded) != HasCondition(s.conditions, Failed))
            && WellFormed(s.conditions)
  {
    RunKeepsInv(run, i);
    HasConditionIff(run[i].groupJobs[key].status.conditions, Succeeded);
    HasConditionIff(run[i].groupJobs[key].status.conditions, Failed);
  }

  /** The assumption on Complete Jobs is needed: a launcher that completes without a completion time,
      is removed, and fails when it is run again leaves both outcomes True. */
  lemma BothOutcomesWithoutCompletionTime(complete: BatchJob, failed: BatchJob, t1: Time, t2: Time)
    requires JobSucceeded(complete) && complete.completionTime.None?
    requires JobFailed(failed) && !JobSucceeded(failed)
    ensures var s1 := Computed(EMPTY_STATUS, false, Some(complete), [], [], t1);
            var s2 := Computed(s1, false, Some(failed), [], [], t2);
            IsStatus(s2, Succeeded, True) && IsStatus(s2, Failed, True)
  {
    var s1 := Computed(EMPTY_STATUS, false, Some(complete), [], [], t1);
    FirstSuccess(complete, t1);
    var b := Before(s1, false, t2);
    var counted := b.(replicaStatuses := b.replicaStatuses[Launcher := ReplicaStatus(0, 0, failed.failed)],
                      completionTime := Some(t2));
    UpdateLookups(counted, Failed, True, FailureReason(failed, []), t2);
  }

  lemma FirstSuccess(complete: BatchJob, now: Time)
    requires JobSucceeded(complete) && complete.completionTime.None?
    ensures var s := Computed(EMPTY_STATUS, false, Some(complete), [], [], now);
            && WellFormed(s.conditions) && s.conditions != [] && s.completionTime.None? && s.startTime.Some?
            && IsStatus(s, Succeeded, True) && GetCondition(s.conditions, Suspended).None?
  {
    EmptyInv();
    UpdateLookups(EMPTY_STATUS, Created, True, CREATED_REASON, now);
    assert GetCondition([], Suspended) == None;
    var b := Before(EMPTY_STATUS, false, now);
    var counted := b.(replicaStatuses := b.replicaStatuses[Launcher := ReplicaStatus(0, 1, complete.failed)]);
    UpdateLookups(counted, Succeeded, True, SUCCEEDED_REASON, now);
  }

  /** After any run, a sync that gets through the status update without an error, from a snapshot of the
      job taken at any earlier point of the run, has overwritten the stored status with the one it
      computed, unless it computed the very status it had seen, when it changes no stored job. So the
      stored status is the computed one if and only if there was something to write, or the stored
      status is still the one it had seen. */
  lemma NoLostWrite(run: seq<Cluster>, a: nat, view: Cluster, env: Env, key: Key)
    requires IsRun(run) && a < |run| && ViewOk(view)
    requires key in run[a].groupJobs && key in view.groupJobs && view.groupJobs[key] == run[a].groupJobs[key]
    ensures var c, r := run[|run| - 1], Sync(view, run[|run| - 1], env, key);
            var seen := view.groupJobs[key].status;
            r.ok && r.computed.Some? ==>
              && (r.computed.value != seen ==> Wrote(view, c, r.live, key, r.computed.value))
              && (r.computed.value == seen ==> r.live.groupJobs == c.groupJobs)
              && (key in r.live.groupJobs && r.live.groupJobs[key].status == r.computed.value <==>
                    r.computed.value != seen || (key in c.groupJobs && c.groupJobs[key].status == seen))
  {
    hide Sync, StatusInv, Next;
    RunKeepsInv(run, a);
    SyncWrites(view, run[|run| - 1], env, key);
  }

  /* ---- Absorption ---- */

  /** Same conditions, times and launcher counts: only the worker counts may differ. */
  ghost predicate SameOutcome(s: JobStatus, s': JobStatus) {
    && s'.conditions == s.conditions && s'.startTime == s.startTime && s'.completionTime == s.completionTime
    && s'.replicaStatuses - {Worker} == s.replicaStatuses - {Worker}
  }

  /** Is the job at `key` the same one, present throughout run[i..j+1]? */
  ghost predicate Lives(run: seq<Cluster>, i: nat, j: nat, key: Key)
    requires i <= j < |run|
  {
    && key in run[i].groupJobs
    && forall k :: i <= k <= j ==> key in run[k].groupJobs && run[k].groupJobs[key].uid == run[i].groupJobs[key].uid
  }

  lemma NextStatus(c: Cluster, c': Cluster, key: Key)
    requires StatusesInv(c) && Next(c, c') && key in c.groupJobs && key in c'.groupJobs
    requires c.groupJobs[key].uid == c'.groupJobs[key].uid
    ensures var s0, s := c.groupJobs[key].status, c'.groupJobs[key].status;
            && (IsTerminal(s0) ==> SameOutcome(s0, s))
            && (s0.startTime.Some? ==> s.startTime.Some?)
            && (s0.startTime.Some? && s.startTime != s0.startTime ==>
                  IsStatus(s0, Suspended, True) && IsStatus(s, Suspended, False))
            && (s0.startTime.None? && s.startTime.Some? ==> s.conditions != [] && !IsStatus(s, Suspended, True))
  {
    hide StatusInv, IsTerminal, IsStatus, Sync;
    var s0, s := c.groupJobs[key].status, c'.groupJobs[key].status;
    if SyncStep(c, c') {
      var view, env, k :| ViewOk(view) && SyncsTo(view, c, env, k, c');
      SyncStatuses(view, c, env, k);
      if s != s0 {
        var written :| Wrote(view, c, c', k, written);
        SyncWrites(view, c, env, k);
        var w :| Wrote(view, c, c', k, w) && StartTimeStep(view.groupJobs[k].status, w,
                                                           Default(view.groupJobs[k].spec).Suspended(), env.now)
                 && (IsTerminal(view.groupJobs[k].status) ==> w == CleanedStatus(view.groupJobs[k].status));
        assert k == key && w == s;
        CleanedSameOutcome(s0);
      }
    }
  }

  lemma CleanedSameOutcome(s: JobStatus)
    ensures SameOutcome(s, CleanedStatus(s))
  {
  }

  /** Once a job has finished with its completion time stored, no continuation of the run changes its
      conditions, start time or completion time. */
  lemma {:induction false} TerminalAbsorbs(run: seq<Cluster>, i: nat, j: nat, key: Key)
    requires IsRun(run) && i <= j < |run| && Lives(run, i, j, key)
    requires IsTerminal(run[i].groupJobs[key].status)
    ensures SameOutcome(run[i].groupJobs[key].status, run[j].groupJobs[key].status)
    ensures IsTerminal(run[j].groupJobs[key].status)
    decreases j - i
  {
    hide StatusInv, Next, IsTerminal;
    if i < j {
      TerminalAbsorbs(run, i, j - 1, key);
      RunKeepsInv(run, j - 1);
      assert Next(run[j - 1], run[j - 1 + 1]);
      NextStatus(run[j - 1], run[j], key);
      SameOutcomeTerminal(run[j - 1].groupJobs[key].status, run[j].groupJobs[key].status);
    }
  }

  lemma SameOutcomeTerminal(s: JobStatus, s': JobStatus)
    requires SameOutcome(s, s') && IsTerminal(s)
    ensures IsTerminal(s')
  {
  }

  /** Does `c'` differ from `c` only in pods and PodGroups taken away, and in GroupJobs? */
  ghost predicate OnlyRemoves(c: Cluster, c': Cluster) {
    && c' == c.(pods := c'.pods, podGroups := c'.podGroups, groupJobs := c'.groupJobs)
    && (forall k :: k in c'.pods ==> k in c.pods && c'.pods[k] == c.pods[k])
    && (forall k :: k in c'.podGroups ==> k in c.podGroups && c'.podGroups[k] == c.podGroups[k])
  }

  lemma SyncTerminalRemoves(view: Cluster, live: Cluster, env: Env, key: Key, job: GroupJob, s: JobStatus)
    requires key in view.groupJobs
    ensures OnlyRemoves(live, SyncTerminal(view, live, env, key, job, s).live)
  {
    hide CleanUp, WriteStatus, CleansUpPods, CleanedStatus;
    CleanUpFrame(view, live, env, key, job);
    WriteStatusFrame(view, CleanUp(view, live, env, key, job).live, env, key, CleanedStatus(s));
  }

  /** A sync that has seen the terminal status creates nothing, whatever else its snapshot shows: it
      may take away pods and PodGroups and clear the worker counts, nothing more. */
  lemma TerminalSyncOnlyRemoves(view: Cluster, live: Cluster, env: Env, key: Key)
    requires key in view.groupJobs && StatusInv(view.groupJobs[key].status) && IsTerminal(view.groupJobs[key].status)
    ensures var r := Sync(view, live, env, key).live;
            && OnlyRemoves(live, r)
            && (r.groupJobs == live.groupJobs || Wrote(view, live, r, key, CleanedStatus(view.groupJobs[key].status)))
  {
    hide SyncActive, SyncTerminal, Ignored, Default, MarkCreated, IsTerminal, StatusInv, CleanedStatus, Wrote;
    var job := DefaultedJob(view.groupJobs[key]);
    MarkCreatedKeepsOutcome(job.status, env.now);
    SyncTerminalRemoves(view, live, env, key, job, job.status);
    SyncTerminalWrites(view, live, env, key, job, job.status);
  }

  /** Once a job is terminal, no sync from a snapshot of it taken since creates anything, at any later point of
      the run: it may take away pods and PodGroups and clear the worker counts, nothing more. */
  lemma TerminalRunOnlyRemoves(run: seq<Cluster>, i: nat, a: nat, j: nat, view: Cluster, env: Env, key: Key)
    requires IsRun(run) && i <= a <= j < |run| && Lives(run, i, j, key)
    requires IsTerminal(run[i].groupJobs[key].status)
    requires key in view.groupJobs && view.groupJobs[key] == run[a].groupJobs[key]
    ensures var live, r := run[j], Sync(view, run[j], env, key).live;
            && OnlyRemoves(live, r)
            && r.groupJobs - {key} == live.groupJobs - {key} && key in r.groupJobs
            && r.groupJobs[key] == live.groupJobs[key].(status := r.groupJobs[key].status)
            && SameOutcome(run[i].groupJobs[key].status, r.groupJobs[key].status)
  {
    hide Sync, StatusInv, Next, IsTerminal;
    assert key in run[a].groupJobs && Lives(run, i, a, key);
    RunKeepsInv(run, a);
    TerminalAbsorbs(run, i, a, key);
    TerminalAbsorbs(run, i, j, key);
    TerminalSyncOnlyRemoves(view, run[j], env, key);
    CleanedSameOutcome(run[a].groupJobs[key].status);
  }

  lemma WriteStatusFrame(view: Cluster, c: Cluster, env: Env, key: Key, s: JobStatus)
    requires key in view.groupJobs
    ensures var r := WriteStatus(view, c, env, key, s).live; r == c.(groupJobs := r.groupJobs)
  {
  }

  /* ---- Start time ---- */

  /** Did the job at `key` resume between run[k] and run[k+1]? */
  ghost predicate ResumedAt(run: seq<Cluster>, k: nat, key: Key)
    requires k + 1 < |run|
  {
    && key in run[k].groupJobs && key in run[k + 1].groupJobs
    && IsStatus(run[k].groupJobs[key].status, Suspended, True)
    && IsStatus(run[k + 1].groupJobs[key].status, Suspended, False)
  }

  lemma NoStartTime(s: JobStatus)
    requires StatusInv(s) && s.startTime.None?
    ensures s == EMPTY_STATUS || IsStatus(s, Suspended, True)
  {
  }

  /** Once set, the start time stays set, and moves only where the Suspended condition goes from True
      to False. It is missing only before the first stored sync and while the job has been suspended
      from the start. */
  lemma {:induction false} StartTimeOverRuns(run: seq<Cluster>, i: nat, j: nat, key: Key)
    requires IsRun(run) && i <= j < |run| && Lives(run, i, j, key)
    ensures var s0, s := run[i].groupJobs[key].status, run[j].groupJobs[key].status;
            && (s0.startTime.Some? ==> s.startTime.Some?)
            && (s0.startTime.Some? && s.startTime != s0.startTime ==> exists k :: i <= k < j && ResumedAt(run, k, key))
            && (s.startTime.None? ==> s == EMPTY_STATUS || IsStatus(s, Suspended, True))
    decreases j - i
  {
    hide StatusInv, Next, IsStatus;
    RunKeepsInv(run, j);
    if run[j].groupJobs[key].status.startTime.None? {
      NoStartTime(run[j].groupJobs[key].status);
    }
    if i < j {
      StartTimeOverRuns(run, i, j - 1, key);
      RunKeepsInv(run, j - 1);
      assert Next(run[j - 1], run[j - 1 + 1]);
      NextStatus(run[j - 1], run[j], key);
      if run[j].groupJobs[key].status.startTime != run[j - 1].groupJobs[key].status.startTime {
        assert run[j - 1].groupJobs[key].status.startTime.Some? ==> ResumedAt(run, j - 1, key);
      }
    }
  }

  /** Has a status been stored by then for the job seen unsuspended? */
  ghost predicate UnsuspendedAt(run: seq<Cluster>, k: nat, key: Key) {
    && k < |run| && key in run[k].groupJobs
    && run[k].groupJobs[key].status.conditions != [] && !IsStatus(run[k].groupJobs[key].status, Suspended, True)
  }

  /** The start time is set by the first stored sync that saw the job unsuspended: it is still missing
      exactly while every status stored so far was suspended. */
  lemma {:induction false} StartTimeSetIff(run: seq<Cluster>, i: nat, j: nat, key: Key)
    requires IsRun(run) && i <= j < |run| && Lives(run, i, j, key) && run[i].groupJobs[key].status.startTime.None?
    ensures run[j].groupJobs[key].status.startTime.Some? <==> exists k :: i <= k <= j && UnsuspendedAt(run, k, key)
    decreases j - i
  {
    hide StatusInv, Next, IsStatus;
    if k :| i <= k <= j && UnsuspendedAt(run, k, key) {
      RunKeepsInv(run, k);
      StartTimeOverRuns(run, k, j, key);
      if run[k].groupJobs[key].status.startTime.None? {
        NoStartTime(run[k].groupJobs[key].status);
      }
    }
    if i < j && run[j].groupJobs[key].status.startTime.Some? {
      StartTimeSetIff(run, i, j - 1, key);
      RunKeepsInv(run, j - 1);
      assert Next(run[j - 1], run[j - 1 + 1]);
      NextStatus(run[j - 1], run[j], key);
      if run[j - 1].groupJobs[key].status.startTime.None? {
        assert UnsuspendedAt(run, j, key);
      }
    }
  }
}
