/** The condition list of a GroupJob status (pkg/controller/mpi_job_controller_status.go). */
module Conditions {
  import opened Types

  /** The first condition of type `kind`. */
  function GetCondition(conditions: seq<JobCondition>, kind: ConditionType): Option<JobCondition> {
    if conditions == [] then None
    else if conditions[0].kind == kind then Some(conditions[0])
    else GetCondition(conditions[1..], kind)
  }

  predicate HasCondition(conditions: seq<JobCondition>, kind: ConditionType) {
    exists i :: 0 <= i < |conditions| && conditions[i].kind == kind && conditions[i].status == True
  }

  predicate IsFinished(status: JobStatus) {
    HasCondition(status.conditions, Succeeded) || HasCondition(status.conditions, Failed)
  }

  function NewCondition(kind: ConditionType, status: ConditionStatus, reason: string, now: Time): JobCondition {
    JobCondition(kind, status, now, now, reason)
  }

  predicate Drops(kind: ConditionType, c: JobCondition) {
    c.kind == kind || (kind == Restarting && c.kind == Running) || (kind == Running && c.kind == Restarting)
  }

  function Demote(kind: ConditionType, c: JobCondition): JobCondition {
    if kind in {Failed, Succeeded} && c.kind in {Running, Failed} then c.(status := False) else c
  }

  function FilterOut(conditions: seq<JobCondition>, kind: ConditionType): seq<JobCondition> {
    if conditions == [] then []
    else if Drops(kind, conditions[0]) then FilterOut(conditions[1..], kind)
    else [Demote(kind, conditions[0])] + FilterOut(conditions[1..], kind)
  }

  predicate Changes(conditions: seq<JobCondition>, c: JobCondition) {
    match GetCondition(conditions, c.kind)
    case None => true
    case Some(current) => current.status != c.status || current.reason != c.reason
  }

  /** `c` with the transition time it gets when it replaces `current`. */
  function Stamp(current: Option<JobCondition>, c: JobCondition): JobCondition {
    if current.Some? && current.value.status == c.status
    then c.(lastTransitionTime := current.value.lastTransitionTime) else c
  }

  function SetCondition(conditions: seq<JobCondition>, c: JobCondition): seq<JobCondition> {
    if Changes(conditions, c)
    then FilterOut(conditions, c.kind) + [Stamp(GetCondition(conditions, c.kind), c)]
    else conditions
  }

  /* ---- The code's own form ---- */

  lemma FilterOutStep(kept: seq<JobCondition>, conditions: seq<JobCondition>, i: nat, kind: ConditionType)
    requires i < |conditions|
    ensures kept + FilterOut(conditions[i..], kind) ==
            (if Drops(kind, conditions[i]) then kept else kept + [Demote(kind, conditions[i])])
            + FilterOut(conditions[i + 1..], kind)
  {
    hide Drops, Demote;
    assert conditions[i..][1..] == conditions[i + 1..];
    var rest := FilterOut(conditions[i + 1..], kind);
    assert kept + ([Demote(kind, conditions[i])] + rest) == kept + [Demote(kind, conditions[i])] + rest;
  }

  method FilterOutCondition(conditions: seq<JobCondition>, kind: ConditionType) returns (kept: seq<JobCondition>)
    ensures kept == FilterOut(conditions, kind)
  {
    hide FilterOut;
    kept := [];
    assert conditions[0..] == conditions && kept + FilterOut(conditions, kind) == FilterOut(conditions, kind);
    for i := 0 to |conditions|
      invariant kept + FilterOut(conditions[i..], kind) == FilterOut(conditions, kind)
    {
      var c := conditions[i];
      FilterOutStep(kept, conditions, i, kind);
      if kind == Restarting && c.kind == Running {
        continue;
      }
      if kind == Running && c.kind == Restarting {
        continue;
      }
      if c.kind == kind {
        continue;
      }
      if (kind == Failed || kind == Succeeded) && (c.kind == Running || c.kind == Failed) {
        c := c.(status := False);
      }
      kept := kept + [c];
    }
    NothingToFilter(conditions, kind);
    assert kept + [] == kept;
  }

  lemma NothingToFilter(conditions: seq<JobCondition>, kind: ConditionType)
    ensures FilterOut(conditions[|conditions|..], kind) == []
  {
  }

  method FindCondition(conditions: seq<JobCondition>, kind: ConditionType) returns (found: Option<JobCondition>)
    ensures found == GetCondition(conditions, kind)
  {
    for i := 0 to |conditions|
      invariant GetCondition(conditions, kind) == GetCondition(conditions[i..], kind)
    {
      assert conditions[i..][1..] == conditions[i + 1..];
      if conditions[i].kind == kind {
        return Some(conditions[i]);
      }
    }
    return None;
  }

  /** The status block of the controller's working copy of a GroupJob, updated field by field. */
  class StatusRecord {
    var conditions: seq<JobCondition>
    var replicaStatuses: map<ReplicaType, ReplicaStatus>
    var startTime: Option<Time>
    var completionTime: Option<Time>

    constructor (status: JobStatus)
      ensures Value() == status
    {
      conditions := status.conditions;
      replicaStatuses := status.replicaStatuses;
      startTime := status.startTime;
      completionTime := status.completionTime;
    }

    function Value(): JobStatus
      reads this
    {
      JobStatus(conditions, replicaStatuses, startTime, completionTime)
    }

    method UpdateCondition(kind: ConditionType, status: ConditionStatus, reason: string, now: Time)
      returns (changed: bool)
      modifies this`conditions
      ensures conditions == SetCondition(old(conditions), NewCondition(kind, status, reason, now))
      ensures changed == Changes(old(conditions), NewCondition(kind, status, reason, now))
    {
      var condition := NewCondition(kind, status, reason, now);
      var current := FindCondition(conditions, kind);
      if current.Some? && current.value.status == condition.status && current.value.reason == condition.reason {
        return false;
      }
      if current.Some? && current.value.status == condition.status {
        condition := condition.(lastTransitionTime := current.value.lastTransitionTime);
      }
      var kept := FilterOutCondition(conditions, condition.kind);
      conditions := kept + [condition];
      return true;
    }

    method InitializeReplicaStatus(t: ReplicaType)
      modifies this`replicaStatuses
      ensures replicaStatuses == old(replicaStatuses)[t := NO_REPLICAS]
    {
      replicaStatuses := replicaStatuses[t := NO_REPLICAS];
    }
  }

  /* ---- The list refines a map ---- */

  ghost function AsMap(conditions: seq<JobCondition>): map<ConditionType, JobCondition> {
    map k: ConditionType | GetCondition(conditions, k).Some? :: GetCondition(conditions, k).value
  }

  /** What a SetCondition call means for the conditions seen as a map. */
  ghost function MapSet(m: map<ConditionType, JobCondition>, c: JobCondition): map<ConditionType, JobCondition> {
    var current := if c.kind in m then Some(m[c.kind]) else None;
    if current.Some? && current.value.status == c.status && current.value.reason == c.reason then m
    else (map k | k in m && !Drops(c.kind, m[k]) :: Demote(c.kind, m[k]))[c.kind := Stamp(current, c)]
  }

  ghost predicate Unique(conditions: seq<JobCondition>) {
    forall i, j :: 0 <= i < j < |conditions| ==> conditions[i].kind != conditions[j].kind
  }

  ghost predicate WellFormed(conditions: seq<JobCondition>) {
    && Unique(conditions)
    && !(GetCondition(conditions, Running).Some? && GetCondition(conditions, Restarting).Some?)
  }

  lemma GetConditionKind(conditions: seq<JobCondition>, kind: ConditionType)
    ensures GetCondition(conditions, kind).Some? ==>
              GetCondition(conditions, kind).value in conditions && GetCondition(conditions, kind).value.kind == kind
    ensures GetCondition(conditions, kind).None? ==> forall c :: c in conditions ==> c.kind != kind
  {
    if conditions != [] && conditions[0].kind != kind {
      GetConditionKind(conditions[1..], kind);
      assert conditions == [conditions[0]] + conditions[1..];
    }
  }

  lemma GetFilterOut(conditions: seq<JobCondition>, kind: ConditionType, k: ConditionType)
    ensures GetCondition(FilterOut(conditions, kind), k) ==
            match GetCondition(conditions, k) {
              case None => None
              case Some(c) => if Drops(kind, c) then None else Some(Demote(kind, c))
            }
  {
    if conditions != [] {
      GetFilterOut(conditions[1..], kind, k);
      GetConditionKind(conditions[1..], k);
      if !Drops(kind, conditions[0]) {
        var tail := FilterOut(conditions[1..], kind);
        assert ([Demote(kind, conditions[0])] + tail)[1..] == tail;
      }
    }
  }

  lemma GetAppend(a: seq<JobCondition>, c: JobCondition, k: ConditionType)
    ensures GetCondition(a + [c], k) ==
            if GetCondition(a, k).Some? then GetCondition(a, k) else if c.kind == k then Some(c) else None
  {
    if a != [] {
      assert (a + [c])[1..] == a[1..] + [c];
      GetAppend(a[1..], c, k);
    }
  }

  /** What every lookup gives after SetCondition. */
  lemma GetAfterSet(conditions: seq<JobCondition>, c: JobCondition, k: ConditionType)
    ensures GetCondition(SetCondition(conditions, c), k) ==
            if !Changes(conditions, c) then GetCondition(conditions, k)
            else if k == c.kind then Some(Stamp(GetCondition(conditions, k), c))
            else match GetCondition(conditions, k) {
              case None => None
              case Some(d) => if Drops(c.kind, d) then None else Some(Demote(c.kind, d))
            }
  {
    GetFilterOut(conditions, c.kind, k);
    GetConditionKind(conditions, k);
    GetAppend(FilterOut(conditions, c.kind), Stamp(GetCondition(conditions, c.kind), c), k);
  }

  /** Setting a condition to what it is changes nothing. Otherwise the condition is the new one, dated back if its
      status stays; a Running and a Restarting condition replace each other; Succeeded and Failed turn Running and
      Failed to False; every other condition stays. */
  lemma SetChangesOnly(conditions: seq<JobCondition>, c: JobCondition, k: ConditionType)
    ensures var after, current := SetCondition(conditions, c), GetCondition(conditions, c.kind);
            if current.Some? && current.value.status == c.status && current.value.reason == c.reason
            then after == conditions
            else
              GetCondition(after, k) ==
              var d := GetCondition(conditions, k);
              if k == c.kind
              then Some(if current.Some? && current.value.status == c.status
                        then c.(lastTransitionTime := current.value.lastTransitionTime) else c)
              else if d.None? || (c.kind == Running && k == Restarting) || (c.kind == Restarting && k == Running)
              then None
              else if c.kind in {Succeeded, Failed} && k in {Running, Failed} then Some(d.value.(status := False))
              else d
  {
    GetAfterSet(conditions, c, k);
    GetConditionKind(conditions, k);
  }

  lemma SetRefinesMapSet(conditions: seq<JobCondition>, c: JobCondition)
    ensures AsMap(SetCondition(conditions, c)) == MapSet(AsMap(conditions), c)
  {
    forall k: ConditionType
      ensures k in AsMap(SetCondition(conditions, c)) <==> k in MapSet(AsMap(conditions), c)
      ensures k in AsMap(SetCondition(conditions, c)) ==>
                AsMap(SetCondition(conditions, c))[k] == MapSet(AsMap(conditions), c)[k]
    {
      GetAfterSet(conditions, c, k);
      GetConditionKind(conditions, k);
    }
  }

  /** The types of the conditions that survive, in list order. */
  ghost function KindsWithout(conditions: seq<JobCondition>, kind: ConditionType): seq<ConditionType> {
    if conditions == [] then []
    else (if Drops(kind, conditions[0]) then [] else [conditions[0].kind]) + KindsWithout(conditions[1..], kind)
  }

  ghost function Kinds(conditions: seq<JobCondition>): seq<ConditionType> {
    seq(|conditions|, i requires 0 <= i < |conditions| => conditions[i].kind)
  }

  lemma KindsCons(c: JobCondition, tail: seq<JobCondition>)
    ensures Kinds([c] + tail) == [c.kind] + Kinds(tail)
  {
  }

  /** The conditions that survive keep their order. */
  lemma {:induction false} FilterOutKeepsOrder(conditions: seq<JobCondition>, kind: ConditionType)
    ensures Kinds(FilterOut(conditions, kind)) == KindsWithout(conditions, kind)
  {
    if conditions != [] {
      FilterOutKeepsOrder(conditions[1..], kind);
      KindsCons(Demote(kind, conditions[0]), FilterOut(conditions[1..], kind));
      hide Drops, Kinds;
      assert [] + FilterOut(conditions[1..], kind) == FilterOut(conditions[1..], kind);
    }
  }

  lemma {:induction false} FilterOutKeepsUnique(conditions: seq<JobCondition>, kind: ConditionType)
    requires Unique(conditions)
    ensures Unique(FilterOut(conditions, kind))
    ensures forall c :: c in FilterOut(conditions, kind) ==> c.kind != kind
  {
    if conditions != [] {
      FilterOutKeepsUnique(conditions[1..], kind);
      var first := conditions[0];
      var tail := FilterOut(conditions[1..], kind);
      if !Drops(kind, first) {
        GetFilterOut(conditions[1..], kind, first.kind);
        GetConditionKind(conditions[1..], first.kind);
        GetConditionKind(tail, first.kind);
      }
    }
  }

  /** One entry per type, never both Running and Restarting, survivors in their old order with
      the set condition last. */
  lemma SetKeepsWellFormed(conditions: seq<JobCondition>, c: JobCondition)
    requires WellFormed(conditions)
    ensures WellFormed(SetCondition(conditions, c))
    ensures Changes(conditions, c) ==>
              Kinds(SetCondition(conditions, c)) == KindsWithout(conditions, c.kind) + [c.kind]
  {
    FilterOutKeepsOrder(conditions, c.kind);
    FilterOutKeepsUnique(conditions, c.kind);
    GetAfterSet(conditions, c, Running);
    GetAfterSet(conditions, c, Restarting);
    GetConditionKind(conditions, Running);
    GetConditionKind(conditions, Restarting);
    if Changes(conditions, c) {
      var last := Stamp(GetCondition(conditions, c.kind), c);
      assert SetCondition(conditions, c) == FilterOut(conditions, c.kind) + [last];
      assert Kinds(FilterOut(conditions, c.kind) + [last]) == Kinds(FilterOut(conditions, c.kind)) + [c.kind];
    }
  }

  /* ---- Transition times over runs of SetCondition ---- */

  /** The list after the given calls, starting from the empty list. */
  ghost function Replay(calls: seq<JobCondition>): seq<JobCondition> {
    if calls == [] then []
    else SetCondition(Replay(calls[..|calls| - 1]), calls[|calls| - 1])
  }

  ghost function StatusOf(conditions: seq<JobCondition>, kind: ConditionType): Option<ConditionStatus> {
    match GetCondition(conditions, kind)
    case None => None
    case Some(c) => Some(c.status)
  }

  /** The time of the last call that changed the status of `kind` (or made it appear or vanish). */
  ghost function LastChange(calls: seq<JobCondition>, kind: ConditionType): Option<Time> {
    if calls == [] then None
    else
      var before := calls[..|calls| - 1];
      if StatusOf(Replay(calls), kind) != StatusOf(Replay(before), kind)
      then Some(calls[|calls| - 1].lastTransitionTime)
      else LastChange(before, kind)
  }

  /** Does setting `c` turn the status of another condition, `kind`, to False on the side? */
  ghost predicate Demotes(conditions: seq<JobCondition>, c: JobCondition, kind: ConditionType) {
    && Changes(conditions, c) && kind != c.kind
    && c.kind in {Failed, Succeeded} && kind in {Running, Failed}
    && StatusOf(conditions, kind) !in {None, Some(False)}
  }

  ghost predicate TransitionTimeExact(calls: seq<JobCondition>, kind: ConditionType) {
    match GetCondition(Replay(calls), kind)
    case None => true
    case Some(c) => LastChange(calls, kind) == Some(c.lastTransitionTime)
  }

  /** A call keeps the transition time of `kind` exact if and only if it does not demote it. */
  lemma TransitionTimeKeptIff(calls: seq<JobCondition>, c: JobCondition, kind: ConditionType)
    requires TransitionTimeExact(calls, kind)
    requires forall d :: d in Replay(calls) ==> d.lastTransitionTime != c.lastTransitionTime
    ensures TransitionTimeExact(calls + [c], kind) <==> !Demotes(Replay(calls), c, kind)
  {
    assert (calls + [c])[..|calls|] == calls;
    GetAfterSet(Replay(calls), c, kind);
    GetConditionKind(Replay(calls), kind);
    GetConditionKind(Replay(calls), c.kind);
  }

  /** Was the last change of the status of `kind` made by a call about `kind` itself, not on the side? */
  ghost predicate LastChangeDirect(calls: seq<JobCondition>, kind: ConditionType) {
    if calls == [] then true
    else
      var before := calls[..|calls| - 1];
      if StatusOf(Replay(calls), kind) != StatusOf(Replay(before), kind)
      then calls[|calls| - 1].kind == kind
      else LastChangeDirect(before, kind)
  }

  /** Does no later call about another outcome come at the time of a call about `kind`? Calls of one sync may
      share their time otherwise. */
  ghost predicate OutcomesLater(calls: seq<JobCondition>, kind: ConditionType) {
    forall i, j :: 0 <= i < j < |calls| && calls[i].kind == kind && calls[j].kind in {Failed, Succeeded} - {kind} ==>
      calls[i].lastTransitionTime != calls[j].lastTransitionTime
  }

  /** The stored transition time of `kind` is the time of some call about it. */
  lemma {:induction false} TimesAreCalls(calls: seq<JobCondition>, kind: ConditionType)
    ensures GetCondition(Replay(calls), kind).Some? ==>
              exists i :: 0 <= i < |calls| && calls[i].kind == kind
                          && calls[i].lastTransitionTime == GetCondition(Replay(calls), kind).value.lastTransitionTime
  {
    if calls != [] {
      var n := |calls| - 1;
      TimesAreCalls(calls[..n], kind);
      GetAfterSet(Replay(calls[..n]), calls[n], kind);
      GetConditionKind(Replay(calls[..n]), calls[n].kind);
      hide Replay, SetCondition, Drops, Changes;
      assert forall i :: 0 <= i < n ==> calls[..n][i] == calls[i];
    }
  }

  /** Over whole runs, in which several calls may share one clock reading: a condition carries the time of its
      last status change if and only if a call about that condition made it, as long as no call that could
      change it on the side comes at the time of an earlier call about it. */
  lemma {:induction false} TransitionTimesExactIff(calls: seq<JobCondition>, kind: ConditionType)
    requires OutcomesLater(calls, kind)
    ensures TransitionTimeExact(calls, kind) <==>
            GetCondition(Replay(calls), kind).None? || LastChangeDirect(calls, kind)
  {
    if calls != [] {
      var n := |calls| - 1;
      var before, c := Replay(calls[..n]), calls[n];
      assert forall i :: 0 <= i < n ==> calls[..n][i] == calls[i];
      TransitionTimesExactIff(calls[..n], kind);
      GetAfterSet(before, c, kind);
      GetConditionKind(before, kind);
      GetConditionKind(before, c.kind);
      var was, now := GetCondition(before, kind), GetCondition(Replay(calls), kind);
      if Demotes(before, c, kind) {
        TimesAreCalls(calls[..n], kind);
        assert now.value.lastTransitionTime == was.value.lastTransitionTime != c.lastTransitionTime;
      } else if c.kind == kind {
        assert StatusOf(Replay(calls), kind) != StatusOf(before, kind) ==>
                 now.value.lastTransitionTime == c.lastTransitionTime;
      } else {
        assert now.Some? ==> was.Some? && now.value.status == was.value.status
                             && now.value.lastTransitionTime == was.value.lastTransitionTime;
      }
      hide SetCondition, GetCondition, Changes, Stamp, Demote, Drops;
    }
  }

  /** Created, Suspended, Succeeded and Restarting are never changed on the side, so in every run their
      transition times are exact. */
  lemma {:induction false} UndemotedTimesExact(calls: seq<JobCondition>, kind: ConditionType)
    requires kind !in {Running, Failed}
    ensures TransitionTimeExact(calls, kind)
  {
    if calls != [] {
      var n := |calls| - 1;
      UndemotedTimesExact(calls[..n], kind);
      GetAfterSet(Replay(calls[..n]), calls[n], kind);
      GetConditionKind(Replay(calls[..n]), kind);
      GetConditionKind(Replay(calls[..n]), calls[n].kind);
    }
  }

  lemma {:induction false} ReplayWellFormed(calls: seq<JobCondition>)
    ensures WellFormed(Replay(calls))
  {
    if calls != [] {
      ReplayWellFormed(calls[..|calls| - 1]);
      SetKeepsWellFormed(Replay(calls[..|calls| - 1]), calls[|calls| - 1]);
    }
  }

  lemma ReplayOne(c: JobCondition)
    ensures Replay([c]) == [c]
    ensures TransitionTimeExact([c], c.kind)
  {
    assert [c][..0] == [];
    assert Replay([]) == [];
    assert SetCondition([], c) == [] + [c];
    GetConditionKind([c], c.kind);
  }

  /** A job that starts running at `t1` and fails at `t2` ends with a False Running condition that
      still claims its last transition was at `t1`. */
  lemma RunningTransitionTimeGoesStale(t1: Time, t2: Time, reason1: string, reason2: string)
    requires t1 != t2
    ensures !TransitionTimeExact(
              [NewCondition(Running, True, reason1, t1), NewCondition(Failed, True, reason2, t2)], Running)
  {
    var running := NewCondition(Running, True, reason1, t1);
    var failed := NewCondition(Failed, True, reason2, t2);
    ReplayOne(running);
    TransitionTimeKeptIff([running], failed, Running);
    assert [running] + [failed] == [running, failed];
    assert GetCondition([running], Running) == Some(running);
    GetConditionKind([running], Failed);
    assert Demotes([running], failed, Running);
  }
}
