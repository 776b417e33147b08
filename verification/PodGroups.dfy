/** The gang-scheduling arithmetic of pkg/controller/podgroup.go: how many members a PodGroup needs
    and the resources they ask for. */
module PodGroups {
  import opened Types

  datatype ReplicaPriority = ReplicaPriority(
    priority: int32,
    replicaType: ReplicaType,
    replicas: Option<int32>,
    containers: seq<Resources>)

  /** Panicked stands for a nil dereference or an index out of range. */
  datatype MinResult = Panicked | NoResult | Minimum(resources: ResourceList)

  function Priority(spec: ReplicaSpec, classes: map<string, int32>): int32 {
    if spec.priorityClassName != "" && spec.priorityClassName in classes then classes[spec.priorityClassName] else 0
  }

  function Entry(t: ReplicaType, spec: ReplicaSpec, classes: map<string, int32>): ReplicaPriority {
    ReplicaPriority(Priority(spec, classes), t, spec.replicas, spec.containers)
  }

  /** Is `order` a possible outcome of collecting the replicas and sorting them, highest priority first?
      Neither the map iteration nor the sort promises anything about equal priorities. */
  ghost predicate IsSorted(order: seq<ReplicaPriority>, specs: map<ReplicaType, ReplicaSpec>, classes: map<string,
                           int32>) {
    ListsReplicas(order, specs, classes) && Descending(order)
  }

  ghost predicate Descending(order: seq<ReplicaPriority>) {
    forall i, j :: 0 <= i < j < |order| ==> order[i].priority >= order[j].priority
  }

  ghost predicate ListsReplicas(order: seq<ReplicaPriority>, specs: map<ReplicaType, ReplicaSpec>,
                                classes: map<string, int32>) {
    && (forall i :: 0 <= i < |order| ==>
          order[i].replicaType in specs && order[i] ==
              Entry(order[i].replicaType, specs[order[i].replicaType], classes))
    && (forall t :: t in specs ==> Entry(t, specs[t], classes) in order)
    && forall i, j :: 0 <= i < j < |order| ==> order[i].replicaType != order[j].replicaType
  }

  /* ---- Resource sums ---- */

  function Amount(r: map<string, int>, name: string): int {
    if name in r then r[name] else 0
  }

  /** A container's request, or else its limit. */
  function Merged(r: Resources): map<string, nat> {
    r.limits + r.requests
  }

  function AddScaled(total: ResourceList, amounts: map<string, nat>, n: int): ResourceList {
    map name | name in total.Keys + amounts.Keys :: Amount(total, name) + n * Amount(amounts, name)
  }

  function AddContainers(total: ResourceList, containers: seq<Resources>, n: int): ResourceList
    decreases containers
  {
    if containers == [] then total
    else AddContainers(AddScaled(total, Merged(containers[0]), n), containers[1..], n)
  }

  function AddOrder(total: ResourceList, order: seq<ReplicaPriority>): ResourceList
    decreases order
  {
    if order == [] then total
    else if order[0].replicas.None? then AddOrder(total, order[1..])
    else AddOrder(AddContainers(total, order[0].containers, order[0].replicas.value), order[1..])
  }

  /** Request-else-limit of one resource, summed over all containers. */
  function Sum(containers: seq<Resources>, name: string): nat {
    if containers == [] then 0 else Amount(Merged(containers[0]), name) + Sum(containers[1..], name)
  }

  function ResourceNames(containers: seq<Resources>): set<string> {
    if containers == [] then {} else Merged(containers[0]).Keys + ResourceNames(containers[1..])
  }

  lemma {:induction false} AddContainersSums(total: ResourceList, containers: seq<Resources>, n: int)
    ensures AddContainers(total, containers, n) ==
            map name | name in total.Keys + ResourceNames(containers) :: Amount(total, name) + n * Sum(containers, name)
    decreases containers
  {
    forall name ensures Amount(AddContainers(total, containers, n), name) ==
        Amount(total, name) + n * Sum(containers, name) {
      AddContainersAmount(total, containers, n, name);
    }
    AddContainersNames(total, containers, n);
  }

  lemma {:induction false} AddContainersNames(total: ResourceList, containers: seq<Resources>, n: int)
    ensures AddContainers(total, containers, n).Keys == total.Keys + ResourceNames(containers)
    decreases containers
  {
    if containers != [] {
      AddContainersNames(AddScaled(total, Merged(containers[0]), n), containers[1..], n);
    }
  }

  lemma AddScaledAmount(total: ResourceList, amounts: map<string, nat>, n: int, name: string)
    ensures Amount(AddScaled(total, amounts, n), name) == Amount(total, name) + n * Amount(amounts, name)
  {
  }

  lemma {:induction false} AddContainersAmount(total: ResourceList, containers: seq<Resources>, n: int, name: string)
    ensures Amount(AddContainers(total, containers, n), name) == Amount(total, name) + n * Sum(containers, name)
    decreases containers
  {
    hide Merged, Amount;
    if containers != [] {
      var head, tail := Merged(containers[0]), containers[1..];
      AddScaledAmount(total, head, n, name);
      hide AddScaled;
      AddContainersAmount(AddScaled(total, head, n), tail, n, name);
      Distributes(n, Amount(head, name), Sum(tail, name));
    }
  }

  lemma Distributes(n: int, a: int, b: int)
    ensures n * (a + b) == n * a + n * b
  {
  }

  /* ---- calPGMinResource on a given outcome of the sort ---- */

  function WorkerIndex(order: seq<ReplicaPriority>): (index: int)
    ensures -1 <= index < |order|
  {
    if order == [] then -1
    else if order[0].replicaType == Worker then 0
    else
      var rest := WorkerIndex(order[1..]);
      if rest == -1 then -1 else rest + 1
  }

  datatype TrimResult = TrimPanicked | NoWorker | Trimmed(order: seq<ReplicaPriority>)

  function Trim(order: seq<ReplicaPriority>, minMember: int32): TrimResult {
    if order == [] || order[0].replicas.None? || (|order| > 1 && order[1].replicas.None?) then TrimPanicked
    else
      var replicas := if |order| > 1 then Wrap32(order[0].replicas.value + order[1].replicas.value)
                      else order[0].replicas.value;
      if replicas <= minMember then Trimmed(order)
      else if |order| == 1 then TrimPanicked
      else
        var index := if order[0].priority == order[1].priority then WorkerIndex(order) else 1;
        if index == -1 then NoWorker
        else Trimmed(order[index := order[index].(replicas := Some(Wrap32(minMember - 1)))])
  }

  function MinResourceOf(order: seq<ReplicaPriority>, minMember: int32): MinResult {
    match Trim(order, minMember)
    case TrimPanicked => Panicked
    case NoWorker => NoResult
    case Trimmed(trimmed) => Minimum(AddOrder(map[], trimmed))
  }

  /* ---- The code's own form ---- */

  lemma AllAdded(r: ResourceList, added: map<string, nat>, replicas: int, sum: ResourceList)
    requires sum.Keys == r.Keys + added.Keys
    requires forall name :: name in sum ==>
               sum[name] == if name in added then Amount(r, name) + replicas * added[name] else Amount(r, name)
    ensures sum == AddScaled(r, added, replicas)
  {
  }

  method AddResources(minResources: ResourceList, resources: Resources, replicas: int) returns (sum: ResourceList)
    ensures sum == AddScaled(minResources, Merged(resources), replicas)
  {
    sum := minResources;
    if resources == Resources(map[], map[]) {
      assert sum == AddScaled(minResources, Merged(resources), replicas);
      return;
    }
    var merged := MergeResources(resources);
    hide Merged, AddScaled;
    var todo := merged.Keys;
    while todo != {}
      invariant todo <= merged.Keys
      invariant sum.Keys == minResources.Keys + (merged.Keys - todo)
      invariant forall name :: name in sum ==>
                  sum[name] == if name in merged && name !in todo
                               then Amount(minResources, name) + replicas * merged[name]
                               else Amount(minResources, name)
    {
      var name :| name in todo;
      var quantity := replicas * merged[name];
      if name !in sum {
        sum := sum[name := quantity];
      } else {
        sum := sum[name := sum[name] + quantity];
      }
      todo := todo - {name};
    }
    AllAdded(minResources, merged, replicas, sum);
  }

  method MergeResources(resources: Resources) returns (merged: map<string, nat>)
    ensures merged == Merged(resources)
  {
    merged := map[];
    var todo := resources.requests.Keys;
    while todo != {}
      invariant todo <= resources.requests.Keys
      invariant merged == map name | name in resources.requests && name !in todo :: resources.requests[name]
    {
      var name :| name in todo;
      merged := merged[name := resources.requests[name]];
      todo := todo - {name};
    }
    todo := resources.limits.Keys;
    while todo != {}
      invariant todo <= resources.limits.Keys
      invariant merged.Keys == resources.requests.Keys + (resources.limits.Keys - todo)
      invariant forall name :: name in merged ==> merged[name] == Merged(resources)[name]
    {
      var name :| name in todo;
      if name !in merged {
        merged := merged[name := resources.limits[name]];
      }
      todo := todo - {name};
    }
  }

  method CalPGMinResource(order: seq<ReplicaPriority>, minMember: int32) returns (r: MinResult)
    ensures r == MinResourceOf(order, minMember)
  {
    if |order| == 0 || order[0].replicas == None {
      return Panicked;
    }
    var trimmed := order;
    var replicas := order[0].replicas.value;
    if |order| > 1 {
      if order[1].replicas == None {
        return Panicked;
      }
      replicas := Wrap32(replicas + order[1].replicas.value);
    }
    if replicas > minMember {
      if |order| == 1 {
        return Panicked;
      }
      if order[0].priority == order[1].priority {
        var index := FindWorker(order);
        if index == -1 {
          return NoResult;
        }
        trimmed := trimmed[index := trimmed[index].(replicas := Some(Wrap32(minMember - 1)))];
      } else {
        trimmed := trimmed[1 := trimmed[1].(replicas := Some(Wrap32(minMember - 1)))];
      }
    }
    var minResources := SumResources(trimmed);
    r := Minimum(minResources);
  }

  method SumResources(order: seq<ReplicaPriority>) returns (minResources: ResourceList)
    ensures minResources == AddOrder(map[], order)
  {
    minResources := map[];
    for i := 0 to |order|
      invariant AddOrder(map[], order) == AddOrder(minResources, order[i..])
    {
      var rp := order[i];
      assert order[i..][1..] == order[i + 1..];
      if rp.replicas == None {
        continue;
      }
      ghost var before := minResources;
      for j := 0 to |rp.containers|
        invariant AddContainers(before, rp.containers, rp.replicas.value) ==
                  AddContainers(minResources, rp.containers[j..], rp.replicas.value)
      {
        assert rp.containers[j..][1..] == rp.containers[j + 1..];
        minResources := AddResources(minResources, rp.containers[j], rp.replicas.value);
      }
    }
  }

  method FindWorker(order: seq<ReplicaPriority>) returns (index: int)
    ensures index == WorkerIndex(order)
  {
    for i := 0 to |order|
      invariant WorkerIndex(order) ==
                if WorkerIndex(order[i..]) == -1 then -1 else WorkerIndex(order[i..]) + i
    {
      assert order[i..][1..] == order[i + 1..];
      if order[i].replicaType == Worker {
        return i;
      }
    }
    return -1;
  }

  /** Collects the replicas in whatever order the map yields them and sorts them with a sort that
      may leave equal priorities in any order. */
  method SortReplicas(specs: map<ReplicaType, ReplicaSpec>, classes: map<string, int32>)
    returns (order: seq<ReplicaPriority>)
    ensures IsSorted(order, specs, classes)
  {
    order := [];
    var todo := specs.Keys;
    while todo != {}
      invariant todo <= specs.Keys
      invariant ListsReplicas(order, map t | t in specs && t !in todo :: specs[t], classes)
    {
      var t :| t in todo;
      var priority := 0;
      if |specs[t].priorityClassName| != 0 && specs[t].priorityClassName in classes {
        priority := classes[specs[t].priorityClassName];
      }
      var rp := ReplicaPriority(priority, t, specs[t].replicas, specs[t].containers);
      assert rp == Entry(t, specs[t], classes);
      order := order + [rp];
      todo := todo - {t};
    }
    assert (map t | t in specs && t !in todo :: specs[t]) == specs;
    ghost var collected := order;
    order := Sort(order);
    PermutedListing(collected, order, specs, classes);
  }

  /** A library sort: all its callers know is that the result is a descending permutation. */
  method Sort(order: seq<ReplicaPriority>) returns (sorted: seq<ReplicaPriority>)
    ensures multiset(sorted) == multiset(order) && Descending(sorted)
  {
    sorted := SortedCopy(order);
  }

  function SortedCopy(order: seq<ReplicaPriority>): (sorted: seq<ReplicaPriority>)
    ensures multiset(sorted) == multiset(order) && Descending(sorted)
  {
    if order == [] then []
    else
      assert order == [order[0]] + order[1..];
      var rest := SortedCopy(order[1..]);
      InsertDescending(order[0], rest);
      Insert(order[0], rest)
  }

  function Insert(x: ReplicaPriority, sorted: seq<ReplicaPriority>): (r: seq<ReplicaPriority>)
    ensures multiset(r) == multiset([x]) + multiset(sorted)
  {
    if sorted == [] || x.priority >= sorted[0].priority then
      [x] + sorted
    else
      assert sorted == [sorted[0]] + sorted[1..];
      [sorted[0]] + Insert(x, sorted[1..])
  }

  lemma {:induction false} InsertDescending(x: ReplicaPriority, sorted: seq<ReplicaPriority>)
    requires Descending(sorted)
    ensures Descending(Insert(x, sorted))
  {
    if sorted != [] && x.priority < sorted[0].priority {
      InsertDescending(x, sorted[1..]);
      var rest := Insert(x, sorted[1..]);
      forall i | 0 <= i < |rest| ensures rest[i].priority <= sorted[0].priority {
        assert rest[i] in multiset(rest);
        assert rest[i] == x || rest[i] in multiset(sorted[1..]);
      }
    }
  }

  lemma CountAtMostOne(order: seq<ReplicaPriority>, x: ReplicaPriority)
    requires forall i, j :: 0 <= i < j < |order| ==> order[i].replicaType != order[j].replicaType
    ensures multiset(order)[x] <= 1
  {
    if order != [] {
      assert order == [order[0]] + order[1..];
      CountAtMostOne(order[1..], x);
      assert x == order[0] ==> x !in order[1..];
    }
  }

  lemma CountTwice(order: seq<ReplicaPriority>, i: nat, j: nat)
    requires i < j < |order| && order[i] == order[j]
    ensures multiset(order)[order[i]] >= 2
  {
    assert order == order[..j] + order[j..];
    assert order[i] in order[..j] && order[i] in order[j..];
  }

  lemma PermutedListing(a: seq<ReplicaPriority>, b: seq<ReplicaPriority>,
                        specs: map<ReplicaType, ReplicaSpec>, classes: map<string, int32>)
    requires ListsReplicas(a, specs, classes) && multiset(a) == multiset(b)
    ensures ListsReplicas(b, specs, classes)
  {
    assert forall x :: x in a <==> x in multiset(a);
    assert forall x :: x in b <==> x in multiset(b);
    forall i | 0 <= i < |b|
      ensures b[i].replicaType in specs && b[i] == Entry(b[i].replicaType, specs[b[i].replicaType], classes)
    {
      assert b[i] in a;
    }
    forall i, j | 0 <= i < j < |b| ensures b[i].replicaType != b[j].replicaType {
      if b[i].replicaType == b[j].replicaType {
        CountTwice(b, i, j);
        CountAtMostOne(a, b[i]);
      }
    }
  }

  /* ---- The result in closed form ---- */

  ghost predicate OnlyKnownReplicas(specs: map<ReplicaType, ReplicaSpec>) {
    && specs.Keys <= {Launcher, Worker} && Launcher in specs
    && forall t :: t in specs ==> specs[t].replicas.Some?
  }

  /** How many launchers and workers are paid for. */
  ghost function CountsOf(l: ReplicaSpec, w: ReplicaSpec, classes: map<string, int32>, minMember: int32): (int, int)
    requires l.replicas.Some? && w.replicas.Some?
  {
    if Wrap32(l.replicas.value + w.replicas.value) <= minMember then (l.replicas.value, w.replicas.value)
    else if Priority(l, classes) >= Priority(w, classes) then (l.replicas.value, Wrap32(minMember - 1))
    else (Wrap32(minMember - 1), w.replicas.value)
  }

  ghost function Cost(launchers: int, l: seq<Resources>, workers: int, w: seq<Resources>): ResourceList {
    map name | name in ResourceNames(l) + ResourceNames(w) :: launchers * Sum(l, name) + workers * Sum(w, name)
  }

  ghost function MinResource(specs: map<ReplicaType, ReplicaSpec>, classes: map<string, int32>,
                             minMember: int32): MinResult
    requires OnlyKnownReplicas(specs)
  {
    var l := specs[Launcher];
    if Worker in specs then
      var counts := CountsOf(l, specs[Worker], classes, minMember);
      Minimum(Cost(counts.0, l.containers, counts.1, specs[Worker].containers))
    else if l.replicas.value > minMember then Panicked
    else Minimum(Cost(l.replicas.value, l.containers, 0, []))
  }

  lemma UnfoldTwo(x: ReplicaPriority, y: ReplicaPriority)
    requires x.replicas.Some? && y.replicas.Some?
    ensures AddOrder(map[], [x, y]) ==
            AddContainers(AddContainers(map[], x.containers, x.replicas.value), y.containers, y.replicas.value)
  {
    hide AddContainers;
    var first := AddContainers(map[], x.containers, x.replicas.value);
    assert [x, y][1..] == [y] && [y][1..] == [];
    assert AddOrder(first, [y]) == AddContainers(first, y.containers, y.replicas.value);
  }

  lemma AddTwo(x: ReplicaPriority, y: ReplicaPriority)
    requires x.replicas.Some? && y.replicas.Some?
    ensures AddOrder(map[], [x, y]) == Cost(x.replicas.value, x.containers, y.replicas.value, y.containers)
  {
    hide AddContainers, AddOrder, ResourceNames, Sum;
    var first := AddContainers(map[], x.containers, x.replicas.value);
    UnfoldTwo(x, y);
    AddContainersNames(map[], x.containers, x.replicas.value);
    AddContainersNames(first, y.containers, y.replicas.value);
    var total := AddOrder(map[], [x, y]);
    forall name | name in total
      ensures total[name] == x.replicas.value * Sum(x.containers, name) + y.replicas.value * Sum(y.containers, name)
    {
      AddContainersAmount(map[], x.containers, x.replicas.value, name);
      AddContainersAmount(first, y.containers, y.replicas.value, name);
    }
  }

  lemma CostCommutes(m: int, a: seq<Resources>, n: int, b: seq<Resources>)
    ensures Cost(m, a, n, b) == Cost(n, b, m, a)
  {
  }

  lemma TwoEntriesCost(order: seq<ReplicaPriority>, l: ReplicaPriority, w: ReplicaPriority, ls: ReplicaSpec,
                       ws: ReplicaSpec, classes: map<string, int32>, minMember: int32)
    requires l == Entry(Launcher, ls, classes) && w == Entry(Worker, ws, classes)
    requires ls.replicas.Some? && ws.replicas.Some?
    requires Descending(order) && (order == [l, w] || order == [w, l])
    ensures var counts := CountsOf(ls, ws, classes, minMember);
            MinResourceOf(order, minMember) == Minimum(Cost(counts.0, ls.containers, counts.1, ws.containers))
  {
    TrimTwo(order, l, w, ls, ws, classes, minMember);
    hide Trim, CountsOf, Cost, AddOrder, Priority, Descending;
    var counts := CountsOf(ls, ws, classes, minMember);
    AddTwo(l.(replicas := Some(counts.0)), w.(replicas := Some(counts.1)));
    AddTwo(w.(replicas := Some(counts.1)), l.(replicas := Some(counts.0)));
    CostCommutes(counts.0, l.containers, counts.1, w.containers);
  }

  /** Every iteration order and every outcome of the sort give the same, closed-form result. */
  lemma OrderIndependent(order: seq<ReplicaPriority>, specs: map<ReplicaType, ReplicaSpec>,
                         classes: map<string, int32>, minMember: int32)
    requires OnlyKnownReplicas(specs) && IsSorted(order, specs, classes)
    ensures MinResourceOf(order, minMember) == MinResource(specs, classes, minMember)
  {
    var l := Entry(Launcher, specs[Launcher], classes);
    assert l in order;
    if Worker in specs {
      var w := Entry(Worker, specs[Worker], classes);
      assert w in order;
      TwoEntries(order, l, w);
      hide MinResourceOf, ListsReplicas, Descending, CountsOf;
      TwoEntriesCost(order, l, w, specs[Launcher], specs[Worker], classes, minMember);
    } else {
      OneEntry(order, l);
      AddContainersSums(map[], l.containers, l.replicas.value);
      assert [l][1..] == [];
      assert AddOrder(map[], [l]) == AddContainers(map[], l.containers, l.replicas.value);
      assert Cost(l.replicas.value, l.containers, 0, []) == AddContainers(map[], l.containers, l.replicas.value);
    }
  }

  lemma TrimTwo(order: seq<ReplicaPriority>, l: ReplicaPriority, w: ReplicaPriority, ls: ReplicaSpec, ws: ReplicaSpec,
                classes: map<string, int32>, minMember: int32)
    requires l == Entry(Launcher, ls, classes) && w == Entry(Worker, ws, classes)
    requires ls.replicas.Some? && ws.replicas.Some?
    requires Descending(order) && (order == [l, w] || order == [w, l])
    ensures var counts := CountsOf(ls, ws, classes, minMember);
            var l', w' := l.(replicas := Some(counts.0)), w.(replicas := Some(counts.1));
            Trim(order, minMember) == Trimmed([l', w']) || Trim(order, minMember) == Trimmed([w', l'])
  {
    assert order[0].priority >= order[1].priority;
    assert order[1..] == [order[1]];
    assert WorkerIndex(order) == if order == [l, w] then 1 else 0;
    assert ls.replicas.value + ws.replicas.value == ws.replicas.value + ls.replicas.value;
    var counts := CountsOf(ls, ws, classes, minMember);
    var l', w' := l.(replicas := Some(counts.0)), w.(replicas := Some(counts.1));
    assert [l, w][0 := l'][1 := w'] == [l', w'] && [w, l][0 := w'][1 := l'] == [w', l'];
    assert [l, w][1 := w'] == [l, w'] && [w, l][0 := w'] == [w', l] && [w, l][1 := l'] == [w, l'];
  }

  lemma OneEntry(order: seq<ReplicaPriority>, x: ReplicaPriority)
    requires x in order && forall i :: 0 <= i < |order| ==> order[i] == x
    requires forall i, j :: 0 <= i < j < |order| ==> order[i].replicaType != order[j].replicaType
    ensures order == [x]
  {
    assert |order| > 1 ==> order[0] == order[1];
  }

  lemma TwoEntries(order: seq<ReplicaPriority>, x: ReplicaPriority, y: ReplicaPriority)
    requires x in order && y in order && x.replicaType != y.replicaType
    requires forall i :: 0 <= i < |order| ==> order[i] in {x, y}
    requires forall i, j :: 0 <= i < j < |order| ==> order[i].replicaType != order[j].replicaType
    ensures order == [x, y] || order == [y, x]
  {
    var a, b, c := At(order, 0), At(order, 1), At(order, 2);
    assert |order| == 2;
  }

  ghost function At(order: seq<ReplicaPriority>, i: nat): Option<ReplicaPriority> {
    if i < |order| then Some(order[i]) else None
  }

  /** Replicas times request-else-limit of one resource, summed over all entries that have a count. */
  function OrderSum(order: seq<ReplicaPriority>, name: string): int {
    if order == [] then 0
    else (if order[0].replicas.None? then 0 else order[0].replicas.value * Sum(order[0].containers, name))
         + OrderSum(order[1..], name)
  }

  lemma {:induction false} AddOrderSums(total: ResourceList, order: seq<ReplicaPriority>, name: string)
    ensures Amount(AddOrder(total, order), name) == Amount(total, name) + OrderSum(order, name)
    decreases order
  {
    if order != [] {
      if order[0].replicas.None? {
        AddOrderSums(total, order[1..], name);
      } else {
        var x := order[0];
        AddContainersAmount(total, x.containers, x.replicas.value, name);
        AddOrderSums(AddContainers(total, x.containers, x.replicas.value), order[1..], name);
      }
    }
  }

  /** The whole calculation, whatever the map iteration and the sort do. */
  method MinResourceForSpecs(specs: map<ReplicaType, ReplicaSpec>, classes: map<string, int32>, minMember: int32)
    returns (r: MinResult)
    requires OnlyKnownReplicas(specs)
    ensures r == MinResource(specs, classes, minMember)
  {
    var order := SortReplicas(specs, classes);
    OrderIndependent(order, specs, classes, minMember);
    r := CalPGMinResource(order, minMember);
  }

  /* ---- The gang minimum ---- */

  /** The cost of each member of the gang, highest priority first, workers after the launcher on ties. */
  ghost function MemberCosts(l: ReplicaSpec, w: Option<ReplicaSpec>, classes: map<string, int32>,
                             name: string): seq<nat>
    requires w.Some? ==> w.value.replicas.Some? && w.value.replicas.value >= 0
  {
    var launcher := [Sum(l.containers, name)];
    match w
    case None => launcher
    case Some(ws) =>
      var workers := Repeat(Sum(ws.containers, name), ws.replicas.value);
      if Priority(l, classes) >= Priority(ws, classes) then launcher + workers else workers + launcher
  }

  ghost function Repeat(x: nat, n: nat): seq<nat> {
    seq(n, _ => x)
  }

  ghost function SumOf(s: seq<nat>): nat {
    if s == [] then 0 else s[0] + SumOf(s[1..])
  }

  ghost function FirstSum(s: seq<nat>, n: nat): nat {
    SumOf(if n <= |s| then s[..n] else s)
  }

  lemma {:induction false} SumRepeat(x: nat, n: nat)
    ensures SumOf(Repeat(x, n)) == n * x
  {
    if n > 0 {
      assert Repeat(x, n)[1..] == Repeat(x, n - 1);
      SumRepeat(x, n - 1);
    }
  }

  lemma {:induction false} SumAppend(a: seq<nat>, b: seq<nat>)
    ensures SumOf(a + b) == SumOf(a) + SumOf(b)
  {
    if a == [] {
      assert a + b == b;
    } else {
      assert (a + b)[1..] == a[1..] + b;
      SumAppend(a[1..], b);
    }
  }

  /** The cost of the first `n` members when there is one launcher. */
  lemma FirstMembers(cl: nat, cw: nat, workers: nat, n: nat)
    requires n >= 1
    ensures FirstSum([cl] + Repeat(cw, workers), n) == cl + (if n - 1 <= workers then n - 1 else workers) * cw
    ensures FirstSum(Repeat(cw, workers) + [cl], n) == if n <= workers then n * cw else workers * cw + cl
  {
    var k := if n - 1 <= workers then n - 1 else workers;
    var a, b := [cl] + Repeat(cw, workers), Repeat(cw, workers) + [cl];
    assert (if n <= |a| then a[..n] else a) == [cl] + Repeat(cw, k);
    SumAppend([cl], Repeat(cw, k));
    SumRepeat(cw, k);
    assert (if n <= |b| then b[..n] else b) ==
           if n <= workers then Repeat(cw, n) else Repeat(cw, workers) + [cl];
    SumAppend(Repeat(cw, workers), [cl]);
    SumRepeat(cw, workers);
    SumRepeat(cw, n);
    assert SumOf([cl]) == cl;
  }

  lemma {:induction false} NoNameNoSum(containers: seq<Resources>, name: string)
    ensures name !in ResourceNames(containers) ==> Sum(containers, name) == 0
  {
    if containers != [] {
      NoNameNoSum(containers[1..], name);
    }
  }

  lemma CostAmount(m: int, a: seq<Resources>, n: int, b: seq<Resources>, name: string)
    ensures Amount(Cost(m, a, n, b), name) == m * Sum(a, name) + n * Sum(b, name)
  {
    NoNameNoSum(a, name);
    NoNameNoSum(b, name);
  }

  /** The PodGroup asks for at least what its `minMember` highest-priority members cost, and for
      exactly that unless workers outrank the launcher: then the code trims the launcher's count
      instead of the workers', and pays for every worker and for minMember - 1 launchers. */
  lemma GangMinimum(specs: map<ReplicaType, ReplicaSpec>, classes: map<string, int32>, minMember: int32, name: string)
    requires OnlyKnownReplicas(specs) && specs[Launcher].replicas.value == 1 && minMember >= 1
    requires Worker in specs ==> 0 <= specs[Worker].replicas.value < INT32_MAX
    ensures MinResource(specs, classes, minMember).Minimum?
    ensures var paid := Amount(MinResource(specs, classes, minMember).resources, name);
            var worker := if Worker in specs then Some(specs[Worker]) else None;
            var needed := FirstSum(MemberCosts(specs[Launcher], worker, classes, name), minMember);
            && paid >= needed
            && (paid == needed <==>
                  || worker.None? || Priority(specs[Launcher], classes) >= Priority(worker.value, classes)
                  || worker.value.replicas.value < minMember
                  || (worker.value.replicas.value - minMember) * Sum(worker.value.containers, name)
                     + (minMember - 1) * Sum(specs[Launcher].containers, name) == 0)
  {
    hide Sum, ResourceNames, FirstSum, Repeat, Priority;
    var l := specs[Launcher];
    PaidAmount(specs, classes, minMember, name);
    if Worker in specs {
      var w := specs[Worker];
      PaidAndNeeded(Sum(l.containers, name), Sum(w.containers, name), w.replicas.value, minMember,
                    Priority(l, classes) >= Priority(w, classes));
    } else {
      assert Repeat(0, 0) == [] by {
        NoRepeat(0);
      }
      assert MemberCosts(l, None, classes, name) == [Sum(l.containers, name)] + Repeat(0, 0);
      FirstMembers(Sum(l.containers, name), 0, 0, minMember);
    }
  }

  lemma NoRepeat(x: nat)
    ensures Repeat(x, 0) == []
  {
  }

  /** What is paid, case by case. */
  lemma PaidAmount(specs: map<ReplicaType, ReplicaSpec>, classes: map<string, int32>, minMember: int32, name: string)
    requires OnlyKnownReplicas(specs) && specs[Launcher].replicas.value == 1 && minMember >= 1
    requires Worker in specs ==> 0 <= specs[Worker].replicas.value < INT32_MAX
    ensures MinResource(specs, classes, minMember).Minimum?
    ensures var paid := Amount(MinResource(specs, classes, minMember).resources, name);
            var cl := Sum(specs[Launcher].containers, name);
            if Worker !in specs then paid == cl
            else
              var n, cw := specs[Worker].replicas.value, Sum(specs[Worker].containers, name);
              paid == if n < minMember then cl + n * cw
                      else if Priority(specs[Launcher], classes) >= Priority(specs[Worker], classes)
                      then cl + (minMember - 1) * cw
                      else (minMember - 1) * cl + n * cw
  {
    hide Sum, ResourceNames, Priority, Amount, Cost;
    var l := specs[Launcher];
    if Worker in specs {
      var counts := CountsOf(l, specs[Worker], classes, minMember);
      CostAmount(counts.0, l.containers, counts.1, specs[Worker].containers, name);
    } else {
      CostAmount(1, l.containers, 0, [], name);
    }
  }

  lemma NonNegative(a: nat, b: nat)
    ensures a * b >= 0
  {
  }

  /** When workers outrank the launcher and are more than enough, the excess paid. */
  lemma Excess(cl: nat, cw: nat, workers: nat, minMember: nat)
    requires 1 <= minMember <= workers
    ensures var extra, launchers := (workers - minMember) * cw, (minMember - 1) * cl;
            && extra >= 0 && launchers >= 0
            && launchers + workers * cw == minMember * cw + (extra + launchers)
  {
    Distributes(cw, workers - minMember, minMember);
    NonNegative(workers - minMember, cw);
    NonNegative(minMember - 1, cl);
  }

  lemma PaidAndNeeded(cl: nat, cw: nat, workers: nat, minMember: nat, launcherFirst: bool)
    requires minMember >= 1
    ensures var paid :=
              if workers < minMember then cl + workers * cw
              else if launcherFirst then cl + (minMember - 1) * cw
              else (minMember - 1) * cl + workers * cw;
            var members := if launcherFirst then [cl] + Repeat(cw, workers) else Repeat(cw, workers) + [cl];
            && paid >= FirstSum(members, minMember)
            && (paid == FirstSum(members, minMember) <==>
                  launcherFirst || workers < minMember || (workers - minMember) * cw + (minMember - 1) * cl == 0)
  {
    FirstMembers(cl, cw, workers, minMember);
    hide FirstSum, Repeat;
    if workers >= minMember && !launcherFirst {
      Excess(cl, cw, workers, minMember);
    }
  }

  /* ---- newPodGroup ---- */

  datatype GangScheduler = Volcano | SchedulerPlugins

  function MinAvailable(s: GroupJobSpec): int32 {
    if s.runPolicy.schedulingPolicy.Some? && s.runPolicy.schedulingPolicy.value.minAvailable.Some?
    then s.runPolicy.schedulingPolicy.value.minAvailable.value
    else Wrap32(s.WorkerReplicas() + 1)
  }

  function PGMinResources(s: GroupJobSpec, order: seq<ReplicaPriority>): MinResult {
    if s.runPolicy.schedulingPolicy.Some? && s.runPolicy.schedulingPolicy.value.minResources.Some?
    then Minimum(s.runPolicy.schedulingPolicy.value.minResources.value)
    else if MinAvailable(s) == 0 then NoResult
    else MinResourceOf(order, MinAvailable(s))
  }

  function PriorityClassName(s: GroupJobSpec): string {
    if s.runPolicy.schedulingPolicy.Some? && s.runPolicy.schedulingPolicy.value.priorityClass != ""
    then s.runPolicy.schedulingPolicy.value.priorityClass
    else if s.Replica(Launcher).Some? && s.Replica(Launcher).value.priorityClassName != ""
    then s.Replica(Launcher).value.priorityClassName
    else if s.Replica(Worker).Some? then s.Replica(Worker).value.priorityClassName
    else ""
  }

  /** The PodGroup wanted for `job`; None when building it panics. */
  function NewPodGroupSpec(gang: GangScheduler, job: GroupJob, order: seq<ReplicaPriority>): Option<PodGroupSpec> {
    var s := job.spec;
    var policy := s.runPolicy.schedulingPolicy;
    var minResources := PGMinResources(s, order);
    var optional := if minResources.Minimum? then Some(minResources.resources) else None;
    if minResources.Panicked? then None
    else
      match gang
      case Volcano =>
        var queue := if policy.Some? && policy.value.queue != "" then policy.value.queue else job.queueAnnotation;
        Some(PodGroupSpec(MinAvailable(s), queue, PriorityClassName(s), 0, optional))
      case SchedulerPlugins =>
        var timeout := if policy.Some? then policy.value.scheduleTimeoutSeconds.GetOr(0) else 0;
        Some(PodGroupSpec(MinAvailable(s), "", "", timeout, Some(optional.GetOr(map[]))))
  }

  method BuildPodGroupSpec(gang: GangScheduler, job: GroupJob,
                           order: seq<ReplicaPriority>) returns (r: Option<PodGroupSpec>)
    ensures r == NewPodGroupSpec(gang, job, order)
  {
    var policy := job.spec.runPolicy.schedulingPolicy;
    var minMember := MinAvailable(job.spec);
    var minResources := NoResult;
    if policy.Some? && policy.value.minResources.Some? {
      minResources := Minimum(policy.value.minResources.value);
    } else if minMember != 0 {
      minResources := CalPGMinResource(order, minMember);
    }
    if minResources == Panicked {
      return None;
    }
    var optional := if minResources.Minimum? then Some(minResources.resources) else None;
    match gang
    case Volcano =>
      var queue := job.queueAnnotation;
      if policy.Some? && |policy.value.queue| != 0 {
        queue := policy.value.queue;
      }
      r := Some(PodGroupSpec(minMember, queue, PriorityClassName(job.spec), 0, optional));
    case SchedulerPlugins =>
      var timeout := 0;
      if policy.Some? && policy.value.scheduleTimeoutSeconds.Some? {
        timeout := policy.value.scheduleTimeoutSeconds.value;
      }
      r := Some(PodGroupSpec(minMember, "", "", timeout, Some(optional.GetOr(map[]))));
  }

  /** The label by which scheduler-plugins finds the PodGroup of a pod. */
  const POD_GROUP_LABEL := "scheduling.x-k8s.io/pod-group"

  /** What the gang scheduler adds to the labels of a pod. */
  function GangLabels(gang: Option<GangScheduler>, jobName: string): Labels {
    if gang == Some(SchedulerPlugins) then map[OtherLabel(POD_GROUP_LABEL) := jobName] else map[]
  }

  /** The first string that is not empty, or the empty string if all are. */
  function FirstGiven(names: seq<string>): string {
    if names == [] then "" else if names[0] != "" then names[0] else FirstGiven(names[1..])
  }

  function TemplatePriorityClass(s: GroupJobSpec, t: ReplicaType): string {
    if s.Replica(t).Some? then s.Replica(t).value.priorityClassName else ""
  }

  /** The documented precedences: an explicit minAvailable or minResources wins; for Volcano the policy's
      queue comes before the annotation's, and the policy's priority class before the launcher's before
      the workers'. */
  lemma PodGroupFields(gang: GangScheduler, job: GroupJob, order: seq<ReplicaPriority>)
    requires NewPodGroupSpec(gang, job, order).Some?
    ensures var pg, s := NewPodGroupSpec(gang, job, order).value, job.spec;
            var policy := s.runPolicy.schedulingPolicy.GetOr(SchedulingPolicy(None, "", None, "", None));
            && pg.minMember == policy.minAvailable.GetOr(Wrap32(s.WorkerReplicas() + 1))
            && (policy.minResources.Some? ==> pg.minResources == policy.minResources)
            && pg.queue == (if gang.Volcano? then FirstGiven([policy.queue, job.queueAnnotation]) else "")
            && pg.priorityClassName ==
               (if gang.Volcano?
                then FirstGiven([policy.priorityClass, TemplatePriorityClass(s, Launcher),
                                 TemplatePriorityClass(s, Worker)])
                else "")
            && pg.scheduleTimeoutSeconds == if gang.Volcano? then 0 else policy.scheduleTimeoutSeconds.GetOr(0)
  {
    var s := job.spec;
    var policy := s.runPolicy.schedulingPolicy.GetOr(SchedulingPolicy(None, "", None, "", None));
    FirstOfTwo(policy.queue, job.queueAnnotation);
    FirstOfThree(policy.priorityClass, TemplatePriorityClass(s, Launcher), TemplatePriorityClass(s, Worker));
    hide FirstGiven, MinResourceOf;
  }

  lemma FirstOfTwo(a: string, b: string)
    ensures FirstGiven([a, b]) == if a != "" then a else b
  {
    assert [a, b][1..] == [b] && [b][1..] == [];
    assert FirstGiven([]) == "";
    assert FirstGiven([b]) == b;
  }

  lemma FirstOfThree(a: string, b: string, c: string)
    ensures FirstGiven([a, b, c]) == if a != "" then a else if b != "" then b else c
  {
    assert [a, b, c][1..] == [b, c];
    FirstOfTwo(b, c);
  }

  /** Editing what a scheduler's PodGroup has no place for never changes that PodGroup: the timeout for
      Volcano; the queue, the annotation and the policy's priority class for scheduler-plugins. */
  lemma SchedulersIgnore(job: GroupJob, policy: SchedulingPolicy, order: seq<ReplicaPriority>,
                         timeout: Option<int32>, queue: string, annotation: string, priorityClass: string)
    requires job.spec.runPolicy.schedulingPolicy == Some(policy)
    ensures var edited := WithPolicy(job, policy.(scheduleTimeoutSeconds := timeout));
            NewPodGroupSpec(Volcano, edited, order) == NewPodGroupSpec(Volcano, job, order)
    ensures var edited := WithPolicy(job, policy.(queue := queue, priorityClass := priorityClass));
            NewPodGroupSpec(SchedulerPlugins, edited.(queueAnnotation := annotation), order) ==
            NewPodGroupSpec(SchedulerPlugins, job, order)
  {
    hide MinResourceOf;
  }

  function WithPolicy(job: GroupJob, policy: SchedulingPolicy): GroupJob {
    job.(spec := job.spec.(runPolicy := job.spec.runPolicy.(schedulingPolicy := Some(policy))))
  }

  /** Without a scheduling policy the PodGroup waits for every worker and the launcher, and asks for
      the resources of all of them; at the largest worker count int32 addition wraps both sums, so
      minMember is wrong there while the resources are still right. */
  lemma DefaultPodGroup(s: GroupJobSpec, classes: map<string, int32>)
    requires s.replicaSpecs.Some? && OnlyKnownReplicas(s.replicaSpecs.value) && s.runPolicy.schedulingPolicy.None?
    requires s.Replica(Launcher).value.replicas == Some(1)
    requires Worker in s.replicaSpecs.value && s.WorkerReplicas() >= 1
    ensures MinAvailable(s) == s.WorkerReplicas() + 1 <==> s.WorkerReplicas() < INT32_MAX
    ensures MinResource(s.replicaSpecs.value, classes, MinAvailable(s)) ==
            Minimum(Cost(1, s.Replica(Launcher).value.containers,
                         s.WorkerReplicas(), s.Replica(Worker).value.containers))
  {
  }
}
