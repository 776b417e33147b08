/** What a PodGroup asks for, from the cluster's priority classes, the replica counts and the containers alone
    (calPGMinResource in pkg/controller/podgroup.go). */
module GangShares {
  import opened Types
  import opened Defaults
  import opened PodGroups
  import opened Api
  import opened Reconcile
  import opened Convergence
  import opened Reachability

  /** What the containers ask for of one resource: each its request, or else its limit. */
  ghost function Asks(containers: seq<Resources>, name: string): int {
    if containers == [] then 0
    else
      (if name in containers[0].requests then containers[0].requests[name]
       else if name in containers[0].limits then containers[0].limits[name]
       else 0) + Asks(containers[1..], name)
  }

  lemma {:induction false} AsksSum(containers: seq<Resources>, name: string)
    ensures Sum(containers, name) == Asks(containers, name)
  {
    if containers != [] {
      AsksSum(containers[1..], name);
    }
  }

  /** The sort puts the types whose priority class has the greater value first; a class that is not named, or
      not there, counts as 0. */
  lemma GreaterClassFirst(order: seq<ReplicaPriority>, specs: map<ReplicaType, ReplicaSpec>,
                          classes: map<string, int32>, i: nat, j: nat)
    requires IsSorted(order, specs, classes) && i < j < |order|
    ensures order[i].replicaType in specs && order[j].replicaType in specs
    ensures var a, b := specs[order[i].replicaType].priorityClassName, specs[order[j].replicaType].priorityClassName;
            (if a != "" && a in classes then classes[a] else 0) >= (if b != "" && b in classes then classes[b] else 0)
  {
    assert order[i].priority >= order[j].priority;
  }

  /** What is asked for of one resource, for a launcher and n workers. If together they are no more than
      minMember, all are paid for. Otherwise, if the workers' class has the greater value, all workers and
      minMember - 1 launchers are; if it has not, the launcher and minMember - 1 workers. */
  lemma SharesByClass(order: seq<ReplicaPriority>, specs: map<ReplicaType, ReplicaSpec>, classes: map<string, int32>,
                      minMember: int32, name: string)
    requires IsSorted(order, specs, classes) && specs.Keys == {Launcher, Worker}
    requires specs[Launcher].replicas == Some(1) && specs[Worker].replicas.Some?
    requires 0 <= specs[Worker].replicas.value < INT32_MAX && minMember >= 1
    ensures var l, w := specs[Launcher], specs[Worker];
            var launcherClass :=
              if l.priorityClassName != "" && l.priorityClassName in classes then classes[l.priorityClassName] else 0;
            var workerClass :=
              if w.priorityClassName != "" && w.priorityClassName in classes then classes[w.priorityClassName] else 0;
            var n, cl, cw := w.replicas.value, Asks(l.containers, name), Asks(w.containers, name);
            var r := MinResourceOf(order, minMember);
            && r.Minimum?
            && (if name in r.resources then r.resources[name] else 0) ==
               if n + 1 <= minMember then cl + n * cw
               else if workerClass > launcherClass then (minMember - 1) * cl + n * cw
               else cl + (minMember - 1) * cw
  {
    hide MinResourceOf, MinResource, Asks, Sum, IsSorted;
    OrderIndependent(order, specs, classes, minMember);
    PaidAmount(specs, classes, minMember, name);
    AsksSum(specs[Launcher].containers, name);
    AsksSum(specs[Worker].containers, name);
  }

  /** A launcher alone is paid for, if the gang needs it. */
  lemma LauncherShare(order: seq<ReplicaPriority>, specs: map<ReplicaType, ReplicaSpec>, classes: map<string, int32>,
                      minMember: int32, name: string)
    requires IsSorted(order, specs, classes) && specs.Keys == {Launcher} && specs[Launcher].replicas == Some(1)
    requires minMember >= 1
    ensures var r := MinResourceOf(order, minMember);
            && r.Minimum?
            && (if name in r.resources then r.resources[name] else 0) == Asks(specs[Launcher].containers, name)
  {
    hide MinResourceOf, MinResource, Asks, Sum, IsSorted;
    OrderIndependent(order, specs, classes, minMember);
    PaidAmount(specs, classes, minMember, name);
    AsksSum(specs[Launcher].containers, name);
  }

  /** After a successful sync of an active job with a launcher and workers that gives neither minResources nor a
      minAvailable below 1, the stored PodGroup waits for minAvailable members, or for all, and asks for
      exactly those shares. */
  lemma StoredShares(c: Cluster, env: Env, gang: GangScheduler, key: Key, name: string)
    requires Tidy(c, key) && Active(c, key) && env.gang == Some(gang) && Sync(c, c, env, key).ok
    requires var s := JobAt(c, key).spec;
             && s.replicaSpecs.Some? && s.replicaSpecs.value.Keys == {Launcher, Worker}
             && IsSorted(env.replicaOrder, s.replicaSpecs.value, c.priorityClasses)
             && s.replicaSpecs.value[Worker].replicas.GetOr(0) < INT32_MAX
             && (s.runPolicy.schedulingPolicy.Some? ==>
                   s.runPolicy.schedulingPolicy.value.minResources.None?
                   && s.runPolicy.schedulingPolicy.value.minAvailable.GetOr(1) >= 1)
    ensures var s, podGroups := JobAt(c, key).spec, Sync(c, c, env, key).live.podGroups;
            var l, w := s.replicaSpecs.value[Launcher], s.replicaSpecs.value[Worker];
            var n, cl, cw := w.replicas.GetOr(0), Asks(l.containers, name), Asks(w.containers, name);
            var minMember :=
              if s.runPolicy.schedulingPolicy.Some? && s.runPolicy.schedulingPolicy.value.minAvailable.Some?
              then s.runPolicy.schedulingPolicy.value.minAvailable.value else n + 1;
            var launcherClass :=
              if l.priorityClassName != "" && l.priorityClassName in c.priorityClasses
              then c.priorityClasses[l.priorityClassName] else 0;
            var workerClass :=
              if w.priorityClassName != "" && w.priorityClassName in c.priorityClasses
              then c.priorityClasses[w.priorityClassName] else 0;
            && key in podGroups && podGroups[key].spec.minMember == minMember
            && podGroups[key].spec.minResources.Some?
            && var asked := podGroups[key].spec.minResources.value;
            (if name in asked then asked[name] else 0) ==
            if n + 1 <= minMember then cl + n * cw
            else if workerClass > launcherClass then (minMember - 1) * cl + n * cw
            else cl + (minMember - 1) * cw
  {
    hide Sync, Tidy, Active, Default, IsSorted, Asks, MinResourceOf, PriorityClassName;
    TidyHasJob(c, key);
    var job := JobAt(c, key);
    SyncAsks(c, env, gang, key);
    ActiveCounts(c, key);
    SharesByClass(env.replicaOrder, job.spec.replicaSpecs.value, c.priorityClasses, MinAvailable(job.spec), name);
  }

  lemma ActiveCounts(c: Cluster, key: Key)
    requires key in c.groupJobs && Active(c, key)
    requires var s := JobAt(c, key).spec; s.replicaSpecs.Some? && s.replicaSpecs.value.Keys == {Launcher, Worker}
    ensures var s := JobAt(c, key).spec;
            && s.replicaSpecs.value[Launcher].replicas == Some(1)
            && s.replicaSpecs.value[Worker].replicas.Some? && s.replicaSpecs.value[Worker].replicas.value > 0
            && s.WorkerReplicas() == s.replicaSpecs.value[Worker].replicas.value
  {
    hide Default, LauncherDone, IsTerminal;
    var s := JobAt(c, key).spec;
    assert s.Replica(Launcher) == Some(s.replicaSpecs.value[Launcher]);
    assert s.Replica(Worker) == Some(s.replicaSpecs.value[Worker]);
  }
}
