/** Which jobs a sync leaves alone, which it works on, and what the clean pod policy does to a finished one, in the
    terms of the resource (syncHandler, cleanUpWorkerPods and isCleanUpPods in
    pkg/controller/mpi_job_controller.go). */
module Policies {
  import opened Types
  import opened Names
  import opened Conditions
  import opened Defaults
  import opened Validation
  import opened PodGroups
  import opened Status
  import opened Api
  import opened Objects
  import opened Workers
  import opened Reconcile
  import opened StatusSteps
  import opened Runs
  import opened Launching
  import opened Settling
  import opened Convergence

  /* ---- Left alone or worked on ---- */

  ghost predicate BreaksRule(key: Key, job: GroupJob) {
    exists e :: Violates(key.name, Default(job.spec), e)
  }

  /** Is the job being deleted, in another controller's hands, or turned down by validation? */
  ghost predicate LeftAlone(key: Key, job: GroupJob) {
    || job.deleting
    || (job.spec.runPolicy.managedBy.Some? && job.spec.runPolicy.managedBy.value != "kubeflow.org/group-operator")
    || BreaksRule(key, job)
  }

  /** Did the job succeed or fail, at a time that is known? */
  ghost predicate Finished(s: JobStatus) {
    && s.completionTime.Some?
    && exists i ::
         0 <= i < |s.conditions| && s.conditions[i].kind in {Succeeded, Failed} && s.conditions[i].status == True
  }

  /** The number of workers the spec asks for. */
  ghost function WorkersAsked(s: GroupJobSpec): int {
    if s.replicaSpecs.Some? && Worker in s.replicaSpecs.value && s.replicaSpecs.value[Worker].replicas.Some?
    then s.replicaSpecs.value[Worker].replicas.value else 0
  }

  lemma AsksWorkers(s: GroupJobSpec)
    ensures Default(s).WorkerReplicas() == WorkersAsked(s)
    ensures WorkersAsked(Default(s)) == WorkersAsked(s)
  {
  }

  lemma AcceptsReplicasIff(s: GroupJobSpec)
    ensures AcceptsReplicas(s) <==> forall e :: !ViolatesReplicas(s, e)
  {
    if forall e :: !ViolatesReplicas(s, e) {
      assert !ViolatesReplicas(s, ReplicaSpecsRequired) && !ViolatesReplicas(s, LauncherSpecRequired);
      assert !ViolatesReplicas(s, LauncherReplicasNotOne) && !ViolatesReplicas(s, WorkerReplicasNotPositive);
      forall t | t in {Launcher, Worker} && s.Replica(t).Some? ensures AcceptsReplica(s.Replica(t).value) {
        assert !ViolatesReplicas(s, ReplicasRequired(t)) && !ViolatesReplicas(s, RestartPolicyNotSupported(t));
        assert !ViolatesReplicas(s, ContainersRequired(t));
      }
    }
  }

  lemma AcceptsRunPolicyIff(policy: RunPolicy)
    ensures AcceptsRunPolicy(policy) <==> forall e :: !ViolatesRunPolicy(policy, e)
  {
    if forall e :: !ViolatesRunPolicy(policy, e) {
      assert !ViolatesRunPolicy(policy, CleanPodPolicyRequired);
      assert !ViolatesRunPolicy(policy, CleanPodPolicyNotSupported);
      assert !ViolatesRunPolicy(policy, TtlNegative) && !ViolatesRunPolicy(policy, ActiveDeadlineNegative);
      assert !ViolatesRunPolicy(policy, BackoffLimitNegative) && !ViolatesRunPolicy(policy, ManagedByNotSupported);
    }
  }

  lemma NotViolated(name: string, s: GroupJobSpec, e: FieldError)
    requires !Violates(name, s, e)
    ensures !ViolatesReplicas(s, e) && !ViolatesRunPolicy(s.runPolicy, e)
  {
  }

  /** A spec is accepted if it breaks no rule, and only then. */
  lemma AcceptsIff(name: string, s: GroupJobSpec)
    ensures Accepts(name, s) <==> forall e :: !Violates(name, s, e)
  {
    AcceptsReplicasIff(s);
    AcceptsRunPolicyIff(s.runPolicy);
    if forall e :: !Violates(name, s, e) {
      assert !Violates(name, s, NameNotUsable);
      assert !Violates(name, s, SlotsRequired) && !Violates(name, s, SlotsNegative);
      assert !Violates(name, s, SshPathRequired) && !Violates(name, s, MpiImplementationNotSupported);
      forall e ensures !ViolatesReplicas(s, e) && !ViolatesRunPolicy(s.runPolicy, e) {
        NotViolated(name, s, e);
      }
    }
  }

  /* ---- What is accepted, as its author wrote it ---- */

  /** Does the name leave room for the last worker's, as a DNS label (section 2.3.1 of RFC 1035)? */
  ghost predicate NameFits(name: string, last: nat) {
    && name != "" && 'a' <= name[0] <= 'z' && |name + "-worker-" + Itoa(last)| <= 63
    && forall i :: 0 <= i < |name| ==> 'a' <= name[i] <= 'z' || '0' <= name[i] <= '9' || name[i] == '-'
  }

  ghost predicate ReplicaUsable(r: ReplicaSpec) {
    r.restartPolicy in {RestartUnset, Never, OnFailure} && r.containers != []
  }

  ghost predicate ReplicasUsable(s: GroupJobSpec) {
    && s.replicaSpecs.Some? && Launcher in s.replicaSpecs.value
    && ReplicaUsable(s.replicaSpecs.value[Launcher]) && s.replicaSpecs.value[Launcher].replicas in {None, Some(1)}
    && (Worker in s.replicaSpecs.value ==> ReplicaUsable(s.replicaSpecs.value[Worker]) && WorkersAsked(s) > 0)
  }

  ghost predicate PolicyUsable(p: RunPolicy) {
    && p.cleanPodPolicy in {None, Some(CleanNone), Some(CleanRunning), Some(CleanAll)}
    && (p.ttlSecondsAfterFinished.Some? ==> p.ttlSecondsAfterFinished.value >= 0)
    && (p.activeDeadlineSeconds.Some? ==> p.activeDeadlineSeconds.value >= 0)
    && (p.backoffLimit.Some? ==> p.backoffLimit.value >= 0)
    && p.managedBy in {None, Some("kueue.x-k8s.io/multikueue"), Some("kubeflow.org/group-operator")}
  }

  lemma WorkerNameFits(name: string, last: nat)
    ensures IsDnsLabel(WorkerName(name, last)) <==> NameFits(name, last)
  {
    hide Itoa;
    WorkerNameIsLabel(name, last);
    assert |name + "-worker-" + Itoa(last)| == |name| + 8 + |Itoa(last)|;
    assert (forall c :: c in name ==> IsLabelChar(c)) <==> forall i :: 0 <= i < |name| ==> IsLabelChar(name[i]);
    hide IsDnsLabel;
  }

  lemma ReplicasAsWritten(s: GroupJobSpec)
    ensures AcceptsReplicas(Default(s)) <==> ReplicasUsable(s)
  {
  }

  /** Defaults included, a job as its author wrote it breaks no rule if and only if its name fits, it has one launcher
      with a container, its workers, if it has a worker spec, are given a number above 0 and have a container, and
      every limit and choice that is given is a usable one. */
  lemma AcceptedAsWritten(key: Key, job: GroupJob)
    ensures var s := job.spec;
            !BreaksRule(key, job) <==>
              && NameFits(key.name, if WorkersAsked(s) > 0 then WorkersAsked(s) - 1 else 0)
              && ReplicasUsable(s) && PolicyUsable(s.runPolicy)
              && (s.slotsPerWorker.Some? ==> s.slotsPerWorker.value >= 0)
              && s.mpiImplementation in {MpiUnset, OpenMPI, Intel, MPICH}
  {
    hide Violates, NameFits, ReplicasUsable, AcceptsReplicas, IsDnsLabel, WorkersAsked, DefaultEntry;
    AcceptsIff(key.name, Default(job.spec));
    AsksWorkers(job.spec);
    ReplicasAsWritten(job.spec);
    WorkerNameFits(key.name, if WorkersAsked(job.spec) > 0 then WorkersAsked(job.spec) - 1 else 0);
  }

  lemma IgnoredIff(key: Key, job: GroupJob)
    ensures Ignored(key, DefaultedJob(job)) <==> LeftAlone(key, job)
  {
    hide Accepts, Violates;
    AcceptsIff(key.name, Default(job.spec));
  }

  lemma TerminalIff(s: JobStatus, now: Time)
    ensures IsTerminal(s) <==> Finished(s)
    ensures IsTerminal(MarkCreated(s, now)) <==> Finished(s)
    ensures Finished(s) ==> MarkCreated(s, now) == s
  {
    if s.conditions == [] {
      assert MarkCreated(s, now).conditions == [NewCondition(Created, True, CREATED_REASON, now)];
    }
  }

  /** A sync of a job that is being deleted, that another controller manages, or that breaks a rule changes nothing and
      is no error; unless it reports one, a sync of any other job gets as far as the status update, if and only if the
      job has not finished. This is so from every snapshot and with any failing calls. */
  lemma WorkedOnIff(view: Cluster, live: Cluster, env: Env, key: Key)
    requires key in view.groupJobs
    ensures var job, r := view.groupJobs[key], Sync(view, live, env, key);
            && (LeftAlone(key, job) ==> r == SyncResult(live, true, None))
            && (r.ok ==> (r.computed.Some? <==> !LeftAlone(key, job) && !Finished(job.status)))
  {
    hide Ignored, IsTerminal, MarkCreated, MarkStarted, CleanUp, CleanedStatus, WriteStatus, Act, ComputeStatus,
         Default, LauncherPods, LeftAlone, Finished;
    IgnoredIff(key, view.groupJobs[key]);
    TerminalIff(view.groupJobs[key].status, env.now);
  }

  /* ---- The clean pod policy ---- */

  lemma PolicyKnown(key: Key, job: GroupJob)
    requires !LeftAlone(key, job)
    ensures Default(job.spec).runPolicy.cleanPodPolicy in {Some(CleanNone), Some(CleanRunning), Some(CleanAll)}
  {
    hide Default;
    assert !Violates(key.name, Default(job.spec), CleanPodPolicyRequired);
    assert !Violates(key.name, Default(job.spec), CleanPodPolicyNotSupported);
  }

  lemma PolicyDefault(s: GroupJobSpec)
    ensures s.runPolicy.cleanPodPolicy.None? ==> Default(s).runPolicy.cleanPodPolicy == Some(CleanNone)
  {
  }

  /** A calm sync of a finished job. Under policy None, or if it is not given, nothing
      changes. Under All no worker is left, under Running only
      those that neither run nor wait to; the PodGroup goes if there is a gang scheduler, and the worker counts are
      cleared. Pods that are not workers 0 to n - 1 stay, and nothing else changes. */
  lemma FinishedCleansUp(c: Cluster, env: Env, gang: Option<GangScheduler>, key: Key)
    requires Tidy(c, key) && Calm(c, env, gang, JobAt(c, key))
    requires !LeftAlone(key, c.groupJobs[key]) && Finished(c.groupJobs[key].status)
    ensures var spec, status := Default(c.groupJobs[key].spec), c.groupJobs[key].status;
            var policy, n, r := spec.runPolicy.cleanPodPolicy, WorkersAsked(spec), Sync(c, c, env, key);
            && r.ok && policy in {Some(CleanNone), Some(CleanRunning), Some(CleanAll)}
            && (policy == Some(CleanNone) ==> r.live == c)
            && (c.groupJobs[key].spec.runPolicy.cleanPodPolicy.None? ==> r.live == c)
            && (policy in {Some(CleanAll), Some(CleanRunning)} ==>
                  && (forall i: nat :: i < n ==>
                        (WorkerKey(key, i) in r.live.pods <==>
                           && WorkerKey(key, i) in c.pods && policy == Some(CleanRunning)
                           && c.pods[WorkerKey(key, i)].phase !in {PodRunning, PodPending}))
                  && (forall k :: k in c.pods && (forall i: nat :: i < n ==> k != WorkerKey(key, i)) ==>
                        k in r.live.pods)
                  && (forall k :: k in r.live.pods ==> k in c.pods && r.live.pods[k] == c.pods[k])
                  && r.live.podGroups == (if gang.Some? then c.podGroups - {key} else c.podGroups)
                  && r.live.groupJobs ==
                     c.groupJobs[key := c.groupJobs[key].(status := status.(replicaStatuses :=
                         status.replicaStatuses[Worker := ReplicaStatus(0, 0, 0)]))]
                  && r.live == c.(pods := r.live.pods, podGroups := r.live.podGroups, groupJobs := r.live.groupJobs))
  {
    hide Sync, Calm, Ignored, IsTerminal, Default, StatusInv, NoForeignObjects, ViewOk, Doomed, WorkerKey, LeftAlone,
         Finished;
    var job := JobAt(c, key);
    IgnoredIff(key, c.groupJobs[key]);
    TerminalIff(c.groupJobs[key].status, env.now);
    PolicyKnown(key, c.groupJobs[key]);
    PolicyDefault(c.groupJobs[key].spec);
    TerminalRound(c, env, gang, key);
    DoomedWorkers(c.pods, key, job, job.spec.WorkerReplicas());
    DoomedAreWorkers(c.pods, key, job, job.spec.WorkerReplicas());
  }

  /** Is this a pod that deleting workers 0 to n - 1 takes away: one of theirs in the snapshot, which policy Running
      does not spare as neither running nor waiting to? */
  ghost predicate TakesPod(pods: map<Key, Pod>, key: Key, job: GroupJob, n: int, k: Key) {
    && k in pods && (exists i: nat :: i < n && k == WorkerKey(key, i))
    && !(job.spec.runPolicy.cleanPodPolicy == Some(CleanRunning) && pods[k].phase !in {PodRunning, PodPending})
  }

  /** Deleting workers 0 to n - 1, from any snapshot: it succeeds if and only if each pod found under their names is the
      job's own and no deletion that is needed fails; a pod that is gone already is no error. Then exactly those pods
      are gone. */
  lemma DeletionTakes(view: Cluster, live: Cluster, env: Env, key: Key, job: GroupJob)
    ensures var n := job.spec.WorkerReplicas();
            var r := DeleteWorkers(view, live, env, key, job, 0, n);
            && (r.Ok? <==> forall i: nat :: i < n && WorkerKey(key, i) in view.pods ==>
                  && view.pods[WorkerKey(key, i)].owner == Some(job.uid)
                  && (TakesPod(view.pods, key, job, n, WorkerKey(key, i)) ==>
                        DeletePod(WorkerKey(key, i).name) !in env.faults))
            && (r.Ok? ==> forall k :: k in r.live.pods <==> k in live.pods && !TakesPod(view.pods, key, job, n, k))
  {
    hide WorkerKey, DeleteWorkers;
    var n := job.spec.WorkerReplicas();
    DeleteWorkersDeletes(view, live, env, key, job, 0, n);
    forall i: nat | i < n
      ensures MayDelete(view.pods, env, key, job, i) <==>
              (WorkerKey(key, i) in view.pods ==>
                 && view.pods[WorkerKey(key, i)].owner == Some(job.uid)
                 && (TakesPod(view.pods, key, job, n, WorkerKey(key, i)) ==>
                       DeletePod(WorkerKey(key, i).name) !in env.faults))
    {
    }
  }

  /** Taking the PodGroup away is refused if it is another's, fails if the call does, and succeeds if there is none. */
  lemma PodGroupTaken(view: Cluster, live: Cluster, env: Env, key: Key, job: GroupJob)
    requires view.podGroups == live.podGroups
    ensures var r := RemovePodGroup(view, live, env, key, job);
            && (r.Ok? <==>
                  key in view.podGroups ==>
                    view.podGroups[key].owner == Some(job.uid) && DeletePodGroup !in env.faults)
            && r.live == if r.Ok? then live.(podGroups := live.podGroups - {key}) else live
  {
    assert key !in live.podGroups ==> live.podGroups - {key} == live.podGroups;
  }

  lemma DoomedAreWorkers(pods: map<Key, Pod>, key: Key, job: GroupJob, n: int)
    ensures forall k :: k in Doomed(pods, key, job, 0, n) ==> exists i: nat :: i < n && k == WorkerKey(key, i)
  {
    hide WorkerKey, KeepsPod;
  }
}
