/** Defaulting of a GroupJob's spec (pkg/apis/kubeflow/v2beta1/default.go). */
module Defaults {
  import opened Types

  const ROOT_SSH_PATH := "/root/.ssh"

  /** `r` with missing fields filled in. */
  function DefaultReplica(r: ReplicaSpec, policy: RestartPolicy, count: int32): ReplicaSpec {
    r.(restartPolicy := if r.restartPolicy == RestartUnset then policy else r.restartPolicy,
       replicas := if r.replicas.None? then Some(count) else r.replicas)
  }

  function DefaultEntry(specs: Option<map<ReplicaType, ReplicaSpec>>, t: ReplicaType, policy: RestartPolicy,
                        count: int32)
    : Option<map<ReplicaType, ReplicaSpec>>
  {
    if specs.Some? && t in specs.value
    then Some(specs.value[t := DefaultReplica(specs.value[t], policy, count)]) else specs
  }

  function Default(s: GroupJobSpec): GroupJobSpec {
    GroupJobSpec(
      if s.slotsPerWorker.None? then Some(1) else s.slotsPerWorker,
      s.runLauncherAsWorker,
      s.runPolicy.(cleanPodPolicy :=
        if s.runPolicy.cleanPodPolicy.None? then Some(CleanNone) else s.runPolicy.cleanPodPolicy),
      DefaultEntry(DefaultEntry(s.replicaSpecs, Launcher, OnFailure, 1), Worker, Never, 0),
      if s.sshAuthMountPath == "" then ROOT_SSH_PATH else s.sshAuthMountPath,
      if s.launcherCreationPolicy == CreationUnset then AtStartup else s.launcherCreationPolicy,
      if s.mpiImplementation == MpiUnset then OpenMPI else s.mpiImplementation)
  }

  /** A GroupJob's spec while the defaulting functions fill it in. */
  class SpecRecord {
    var slotsPerWorker: Option<int32>
    var runLauncherAsWorker: Option<bool>
    var runPolicy: RunPolicy
    var replicaSpecs: Option<map<ReplicaType, ReplicaSpec>>
    var sshAuthMountPath: string
    var launcherCreationPolicy: LauncherCreationPolicy
    var mpiImplementation: MpiImplementation

    constructor (s: GroupJobSpec)
      ensures Value() == s
    {
      slotsPerWorker, runLauncherAsWorker, runPolicy := s.slotsPerWorker, s.runLauncherAsWorker, s.runPolicy;
      replicaSpecs, sshAuthMountPath := s.replicaSpecs, s.sshAuthMountPath;
      launcherCreationPolicy, mpiImplementation := s.launcherCreationPolicy, s.mpiImplementation;
    }

    function Value(): GroupJobSpec
      reads this
    {
      GroupJobSpec(slotsPerWorker, runLauncherAsWorker, runPolicy, replicaSpecs, sshAuthMountPath,
                   launcherCreationPolicy, mpiImplementation)
    }

    method DefaultType(t: ReplicaType, policy: RestartPolicy, count: int32)
      modifies this`replicaSpecs
      ensures replicaSpecs == DefaultEntry(old(replicaSpecs), t, policy, count)
    {
      if replicaSpecs.None? || t !in replicaSpecs.value {
        return;
      }
      var spec := replicaSpecs.value[t];
      if spec.restartPolicy == RestartUnset {
        spec := spec.(restartPolicy := policy);
      }
      if spec.replicas == None {
        spec := spec.(replicas := Some(count));
      }
      replicaSpecs := Some(replicaSpecs.value[t := spec]);
    }

    method SetDefaults()
      modifies this
      ensures Value() == Default(old(Value()))
    {
      if runPolicy.cleanPodPolicy == None {
        runPolicy := runPolicy.(cleanPodPolicy := Some(CleanNone));
      }
      if slotsPerWorker == None {
        slotsPerWorker := Some(1);
      }
      if sshAuthMountPath == "" {
        sshAuthMountPath := ROOT_SSH_PATH;
      }
      if mpiImplementation == MpiUnset {
        mpiImplementation := OpenMPI;
      }
      if launcherCreationPolicy == CreationUnset {
        launcherCreationPolicy := AtStartup;
      }
      DefaultType(Launcher, OnFailure, 1);
      DefaultType(Worker, Never, 0);
    }
  }

  /** Does `u` agree with `s` wherever `s` says something? */
  ghost predicate Refines(s: GroupJobSpec, u: GroupJobSpec) {
    && (s.slotsPerWorker.Some? ==> u.slotsPerWorker == s.slotsPerWorker)
    && u.runLauncherAsWorker == s.runLauncherAsWorker
    && (s.runPolicy.cleanPodPolicy.Some? ==> u.runPolicy == s.runPolicy)
    && u.runPolicy.(cleanPodPolicy := None) == s.runPolicy.(cleanPodPolicy := None)
    && (s.sshAuthMountPath != "" ==> u.sshAuthMountPath == s.sshAuthMountPath)
    && (s.launcherCreationPolicy != CreationUnset ==> u.launcherCreationPolicy == s.launcherCreationPolicy)
    && (s.mpiImplementation != MpiUnset ==> u.mpiImplementation == s.mpiImplementation)
    && (forall t :: s.Replica(t).Some? == u.Replica(t).Some?)
    && forall t :: s.Replica(t).Some? ==>
         var a, b := s.Replica(t).value, u.Replica(t).value;
         && b == a.(replicas := b.replicas, restartPolicy := b.restartPolicy)
         && (a.replicas.Some? ==> b.replicas == a.replicas)
         && (a.restartPolicy != RestartUnset ==> b.restartPolicy == a.restartPolicy)
  }

  /** Defaulting fills gaps only, and a second round of it finds none left to fill. */
  lemma DefaultFillsGapsOnce(s: GroupJobSpec)
    ensures Refines(s, Default(s))
    ensures Default(Default(s)) == Default(s)
  {
    DefaultEntryFills(s.replicaSpecs, Launcher, OnFailure, 1);
    var d := DefaultEntry(s.replicaSpecs, Launcher, OnFailure, 1);
    DefaultEntryFills(d, Worker, Never, 0);
    var e := DefaultEntry(d, Worker, Never, 0);
    if e.Some? && Launcher in e.value {
      assert e.value[Launcher := DefaultReplica(e.value[Launcher], OnFailure, 1)] == e.value;
    }
  }

  /** What a field is if its author did not give it: no pod is cleaned up, the launcher starts at once, each worker has
      one slot, and there is one launcher, restarted on failure, and no worker. */
  lemma DefaultsAre(s: GroupJobSpec)
    ensures var d := Default(s);
            && (s.runPolicy.cleanPodPolicy.None? ==> d.runPolicy.cleanPodPolicy == Some(CleanNone))
            && (s.launcherCreationPolicy == CreationUnset ==> d.launcherCreationPolicy == AtStartup)
            && (s.slotsPerWorker.None? ==> d.slotsPerWorker == Some(1))
            && (s.sshAuthMountPath == "" ==> d.sshAuthMountPath == "/root/.ssh")
            && (s.mpiImplementation == MpiUnset ==> d.mpiImplementation == OpenMPI)
            && (d.replicaSpecs.Some? <==> s.replicaSpecs.Some?)
            && (s.replicaSpecs.Some? ==>
                  var given, filled := s.replicaSpecs.value, d.replicaSpecs.value;
                  && filled.Keys == given.Keys
                  && (forall t :: t in given && t !in {Launcher, Worker} ==> filled[t] == given[t])
                  && (Launcher in given && given[Launcher].replicas.None? ==> filled[Launcher].replicas == Some(1))
                  && (Launcher in given && given[Launcher].restartPolicy == RestartUnset ==>
                        filled[Launcher].restartPolicy == OnFailure)
                  && (Worker in given && given[Worker].replicas.None? ==> filled[Worker].replicas == Some(0))
                  && (Worker in given && given[Worker].restartPolicy == RestartUnset ==>
                        filled[Worker].restartPolicy == Never))
  {
    var d := DefaultEntry(s.replicaSpecs, Launcher, OnFailure, 1);
    assert s.replicaSpecs.Some? ==> d.value.Keys == s.replicaSpecs.value.Keys;
    assert s.replicaSpecs.Some? ==> DefaultEntry(d, Worker, Never, 0).value.Keys == d.value.Keys;
  }

  lemma DefaultEntryFills(specs: Option<map<ReplicaType, ReplicaSpec>>, t: ReplicaType, policy: RestartPolicy,
                          count: int32)
    requires policy != RestartUnset
    ensures DefaultEntry(DefaultEntry(specs, t, policy, count), t, policy, count) ==
        DefaultEntry(specs, t, policy, count)
  {
    var d := DefaultEntry(specs, t, policy, count);
    if d.Some? && t in d.value {
      assert d.value[t := DefaultReplica(d.value[t], policy, count)] == d.value;
    }
  }
}
