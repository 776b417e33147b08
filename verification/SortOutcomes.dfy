/** calPGMinResource for any replica types: what the unstable sort can change, and exactly when it does
    (pkg/controller/podgroup.go). */
module SortOutcomes {
  import opened Types
  import opened Names
  import opened Defaults
  import opened Validation
  import opened PodGroups

  /* ---- Totals over a map of replicas ---- */

  /** What one entry adds to the amount of `name`. */
  function Share(spec: ReplicaSpec, name: string): int {
    if spec.replicas.None? then 0 else spec.replicas.value * Sum(spec.containers, name)
  }

  ghost function Amounts(specs: map<ReplicaType, ReplicaSpec>, name: string): int {
    if specs == map[] then 0
    else
      var t :| t in specs;
      Share(specs[t], name) + Amounts(specs - {t}, name)
  }

  /** The sum may be taken in any order. */
  lemma {:induction false} AmountsPick(specs: map<ReplicaType, ReplicaSpec>, t: ReplicaType, name: string)
    requires t in specs
    ensures Amounts(specs, name) == Share(specs[t], name) + Amounts(specs - {t}, name)
    decreases specs
  {
    hide Share;
    var u :| u in specs && Amounts(specs, name) == Share(specs[u], name) + Amounts(specs - {u}, name);
    if u != t {
      AmountsPick(specs - {u}, t, name);
      AmountsPick(specs - {t}, u, name);
      assert specs - {u} - {t} == specs - {t} - {u};
    }
  }

  ghost function NamesIn(specs: map<ReplicaType, ReplicaSpec>): set<string> {
    set t, name | t in specs && specs[t].replicas.Some? && name in ResourceNames(specs[t].containers) :: name
  }

  /** The resources of all replicas. */
  ghost function Total(specs: map<ReplicaType, ReplicaSpec>): ResourceList {
    map name | name in NamesIn(specs) :: Amounts(specs, name)
  }

  ghost function OrderNames(order: seq<ReplicaPriority>): set<string> {
    if order == [] then {}
    else (if order[0].replicas.None? then {} else ResourceNames(order[0].containers)) + OrderNames(order[1..])
  }

  lemma {:induction false} AddOrderNames(total: ResourceList, order: seq<ReplicaPriority>)
    ensures AddOrder(total, order).Keys == total.Keys + OrderNames(order)
    decreases order
  {
    if order != [] {
      if order[0].replicas.None? {
        AddOrderNames(total, order[1..]);
      } else {
        AddContainersNames(total, order[0].containers, order[0].replicas.value);
        AddOrderNames(AddContainers(total, order[0].containers, order[0].replicas.value), order[1..]);
      }
    }
  }

  lemma ListsRest(order: seq<ReplicaPriority>, specs: map<ReplicaType, ReplicaSpec>, classes: map<string, int32>)
    requires ListsReplicas(order, specs, classes) && order != []
    ensures order[0].replicaType in specs
    ensures order[0] == Entry(order[0].replicaType, specs[order[0].replicaType], classes)
    ensures ListsReplicas(order[1..], specs - {order[0].replicaType}, classes)
  {
    var t, rest := order[0].replicaType, order[1..];
    assert order == [order[0]] + rest;
    forall u | u in specs - {t} ensures Entry(u, specs[u], classes) in rest {
      assert Entry(u, specs[u], classes) in order;
    }
  }

  lemma {:induction false} OrderLists(order: seq<ReplicaPriority>, specs: map<ReplicaType, ReplicaSpec>,
                                      classes: map<string, int32>, name: string)
    requires ListsReplicas(order, specs, classes)
    ensures OrderSum(order, name) == Amounts(specs, name)
    ensures name in OrderNames(order) <==> name in NamesIn(specs)
    ensures |order| == |specs|
    decreases order
  {
    hide ListsReplicas, ResourceNames, Sum;
    if order == [] {
      NothingListed(specs, classes);
    } else {
      var t := order[0].replicaType;
      ListsRest(order, specs, classes);
      OrderLists(order[1..], specs - {t}, classes, name);
      AmountsPick(specs, t, name);
      NamesPick(specs, t, name);
      SizePick(specs, t);
    }
  }

  lemma NothingListed(specs: map<ReplicaType, ReplicaSpec>, classes: map<string, int32>)
    requires ListsReplicas([], specs, classes)
    ensures specs == map[]
  {
    assert forall t :: t in specs ==> Entry(t, specs[t], classes) in [];
  }

  lemma NamesPick(specs: map<ReplicaType, ReplicaSpec>, t: ReplicaType, name: string)
    requires t in specs
    ensures name in NamesIn(specs) <==>
            (specs[t].replicas.Some? && name in ResourceNames(specs[t].containers)) || name in NamesIn(specs - {t})
  {
    hide ResourceNames;
    if name in NamesIn(specs) {
      var u :| u in specs && specs[u].replicas.Some? && name in ResourceNames(specs[u].containers);
      assert u != t ==> u in specs - {t} && (specs - {t})[u] == specs[u];
    }
    var rest := specs - {t};
    if name in NamesIn(rest) {
      var u :| u in rest && rest[u].replicas.Some? && name in ResourceNames(rest[u].containers);
      assert u in specs && specs[u] == rest[u];
    }
  }

  lemma SizePick(specs: map<ReplicaType, ReplicaSpec>, t: ReplicaType)
    requires t in specs
    ensures |specs| == |specs - {t}| + 1
  {
    assert (specs - {t}).Keys == specs.Keys - {t};
  }

  /** Adding up every entry gives the same resources in every order. */
  lemma AddOrderTotal(order: seq<ReplicaPriority>, specs: map<ReplicaType, ReplicaSpec>, classes: map<string, int32>)
    requires ListsReplicas(order, specs, classes)
    ensures AddOrder(map[], order) == Total(specs)
  {
    hide AddOrder, OrderSum, OrderNames, NamesIn, ListsReplicas, Amounts;
    AddOrderNames(map[], order);
    forall name ensures name in AddOrder(map[], order) <==> name in NamesIn(specs) {
      OrderLists(order, specs, classes, name);
    }
    forall name | name in NamesIn(specs) ensures AddOrder(map[], order)[name] == Amounts(specs, name) {
      AddOrderSums(map[], order, name);
      OrderLists(order, specs, classes, name);
    }
  }

  /* ---- The two entries that decide ---- */

  /** What calPGMinResource does with the first two entries of the sorted order. */
  datatype HeadCase = Panics | Untrimmed | NoWorkerToTrim | Trims(replicaType: ReplicaType)

  /** May replicas of types `a` and `b` come first and second in a sorted order? */
  ghost predicate MayLead(specs: map<ReplicaType, ReplicaSpec>, classes: map<string, int32>, a: ReplicaType,
                          b: ReplicaType) {
    && a in specs && b in specs && a != b
    && Priority(specs[a], classes) >= Priority(specs[b], classes)
    && forall t :: t in specs && t != a && t != b ==> Priority(specs[b], classes) >= Priority(specs[t], classes)
  }

  ghost function CaseOf(specs: map<ReplicaType, ReplicaSpec>, classes: map<string, int32>, minMember: int32,
                        a: ReplicaType, b: ReplicaType): HeadCase
    requires a in specs && b in specs
  {
    if specs[a].replicas.None? || specs[b].replicas.None? then Panics
    else if Wrap32(specs[a].replicas.value + specs[b].replicas.value) <= minMember then Untrimmed
    else if Priority(specs[a], classes) != Priority(specs[b], classes) then Trims(b)
    else if Worker in specs then Trims(Worker)
    else NoWorkerToTrim
  }

  ghost function TrimmedAt(specs: map<ReplicaType, ReplicaSpec>, t: ReplicaType, minMember: int32)
    : map<ReplicaType, ReplicaSpec>
    requires t in specs
  {
    specs[t := specs[t].(replicas := Some(Wrap32(minMember - 1)))]
  }

  ghost function OutcomeOf(head: HeadCase, specs: map<ReplicaType, ReplicaSpec>, minMember: int32): MinResult
    requires head.Trims? ==> head.replicaType in specs
  {
    match head
    case Panics => Panicked
    case NoWorkerToTrim => NoResult
    case Untrimmed => Minimum(Total(specs))
    case Trims(t) => Minimum(Total(TrimmedAt(specs, t, minMember)))
  }

  lemma {:induction false} WorkerIndexFinds(order: seq<ReplicaPriority>)
    ensures WorkerIndex(order) >= 0 ==> order[WorkerIndex(order)].replicaType == Worker
    ensures WorkerIndex(order) == -1 ==> forall x :: x in order ==> x.replicaType != Worker
  {
    if order != [] {
      assert order == [order[0]] + order[1..];
      WorkerIndexFinds(order[1..]);
    }
  }

  /** Trimming one entry of a listing lists the trimmed replicas. */
  lemma TrimLists(order: seq<ReplicaPriority>, i: nat, specs: map<ReplicaType, ReplicaSpec>,
                  classes: map<string, int32>, minMember: int32)
    requires ListsReplicas(order, specs, classes) && i < |order|
    ensures order[i].replicaType in specs
    ensures ListsReplicas(order[i := order[i].(replicas := Some(Wrap32(minMember - 1)))],
                          TrimmedAt(specs, order[i].replicaType, minMember), classes)
  {
    var t := order[i].replicaType;
    var specs' := TrimmedAt(specs, t, minMember);
    var order' := order[i := order[i].(replicas := Some(Wrap32(minMember - 1)))];
    assert order'[i] == Entry(t, specs'[t], classes);
    forall u | u in specs' ensures Entry(u, specs'[u], classes) in order' {
      if u != t {
        assert Entry(u, specs[u], classes) in order;
        var j :| 0 <= j < |order| && order[j] == Entry(u, specs[u], classes);
        assert order'[j] == order[j];
      }
    }
  }

  lemma TrimmedTotal(order: seq<ReplicaPriority>, i: nat, specs: map<ReplicaType, ReplicaSpec>,
                     classes: map<string, int32>, minMember: int32)
    requires ListsReplicas(order, specs, classes) && i < |order|
    ensures order[i].replicaType in specs
    ensures AddOrder(map[], order[i := order[i].(replicas := Some(Wrap32(minMember - 1)))]) ==
            Total(TrimmedAt(specs, order[i].replicaType, minMember))
  {
    hide ListsReplicas, Total, AddOrder;
    TrimLists(order, i, specs, classes, minMember);
    AddOrderTotal(order[i := order[i].(replicas := Some(Wrap32(minMember - 1)))],
                  TrimmedAt(specs, order[i].replicaType, minMember), classes);
  }

  lemma Leads(order: seq<ReplicaPriority>, specs: map<ReplicaType, ReplicaSpec>, classes: map<string, int32>)
    requires IsSorted(order, specs, classes) && |order| >= 2
    ensures MayLead(specs, classes, order[0].replicaType, order[1].replicaType)
    ensures order[0] == Entry(order[0].replicaType, specs[order[0].replicaType], classes)
    ensures order[1] == Entry(order[1].replicaType, specs[order[1].replicaType], classes)
  {
    var a, b := order[0].replicaType, order[1].replicaType;
    forall t | t in specs && t != a && t != b ensures Priority(specs[b], classes) >= Priority(specs[t], classes) {
      assert Entry(t, specs[t], classes) in order;
      var j :| 0 <= j < |order| && order[j] == Entry(t, specs[t], classes);
      assert order[1].priority >= order[j].priority;
    }
    assert order[0].priority >= order[1].priority;
  }

  lemma WorkerIsListed(order: seq<ReplicaPriority>, specs: map<ReplicaType, ReplicaSpec>, classes: map<string, int32>)
    requires ListsReplicas(order, specs, classes)
    ensures Worker in specs <==> exists x :: x in order && x.replicaType == Worker
  {
    if Worker in specs {
      assert Entry(Worker, specs[Worker], classes) in order;
    }
  }

  /** The result depends on the first two types only. */
  lemma HeadDecides(order: seq<ReplicaPriority>, specs: map<ReplicaType, ReplicaSpec>, classes: map<string, int32>,
                    minMember: int32)
    requires IsSorted(order, specs, classes) && |specs| >= 2
    ensures |order| >= 2 && MayLead(specs, classes, order[0].replicaType, order[1].replicaType)
    ensures MinResourceOf(order, minMember) ==
            OutcomeOf(CaseOf(specs, classes, minMember, order[0].replicaType, order[1].replicaType), specs, minMember)
  {
    hide AddOrder, Total, TrimmedAt, Priority, ListsReplicas, Descending, WorkerIndex, MayLead;
    OrderLists(order, specs, classes, "");
    Leads(order, specs, classes);
    AddOrderTotal(order, specs, classes);
    WorkerIndexFinds(order);
    WorkerIsListed(order, specs, classes);
    TrimmedTotal(order, 1, specs, classes, minMember);
    if WorkerIndex(order) >= 0 {
      TrimmedTotal(order, WorkerIndex(order), specs, classes, minMember);
    }
  }

  /* ---- Every permitted pair does come first in some outcome of the sort ---- */

  lemma {:induction false} ListingExists(specs: map<ReplicaType, ReplicaSpec>, classes: map<string, int32>)
    returns (order: seq<ReplicaPriority>)
    ensures ListsReplicas(order, specs, classes)
    decreases specs
  {
    order := [];
    if specs != map[] {
      hide ListsReplicas;
      var t :| t in specs;
      var rest := ListingExists(specs - {t}, classes);
      ListsMore(rest, t, specs, classes);
      order := [Entry(t, specs[t], classes)] + rest;
    }
  }

  lemma ListsMore(rest: seq<ReplicaPriority>, t: ReplicaType, specs: map<ReplicaType, ReplicaSpec>,
                  classes: map<string, int32>)
    requires t in specs && ListsReplicas(rest, specs - {t}, classes)
    ensures ListsReplicas([Entry(t, specs[t], classes)] + rest, specs, classes)
  {
    hide Priority;
    var order := [Entry(t, specs[t], classes)] + rest;
    forall u | u in specs ensures Entry(u, specs[u], classes) in order {
      if u != t {
        assert Entry(u, (specs - {t})[u], classes) in rest;
      }
    }
  }

  /** The sort can produce something, whatever the replicas. */
  lemma SortedExists(specs: map<ReplicaType, ReplicaSpec>, classes: map<string, int32>)
    returns (order: seq<ReplicaPriority>)
    ensures IsSorted(order, specs, classes)
  {
    var listing := ListingExists(specs, classes);
    order := SortedCopy(listing);
    PermutedListing(listing, order, specs, classes);
  }

  lemma LeadExists(specs: map<ReplicaType, ReplicaSpec>, classes: map<string, int32>, a: ReplicaType, b: ReplicaType)
    returns (order: seq<ReplicaPriority>)
    requires MayLead(specs, classes, a, b)
    ensures IsSorted(order, specs, classes)
    ensures |order| >= 2 && order[0].replicaType == a && order[1].replicaType == b
  {
    hide IsSorted, Priority;
    var rest := SortedExists(specs - {a, b}, classes);
    var less := specs - {a};
    assert less - {b} == specs - {a, b} && less[b] == specs[b];
    SortedMore(rest, b, less, classes);
    assert specs - {a} == less;
    SortedMore([Entry(b, specs[b], classes)] + rest, a, specs, classes);
    order := [Entry(a, specs[a], classes)] + ([Entry(b, specs[b], classes)] + rest);
  }

  /** A sorted order with a type of the highest priority put in front is sorted. */
  lemma SortedMore(rest: seq<ReplicaPriority>, t: ReplicaType, specs: map<ReplicaType, ReplicaSpec>,
                   classes: map<string, int32>)
    requires t in specs && IsSorted(rest, specs - {t}, classes)
    requires forall u :: u in specs ==> Priority(specs[t], classes) >= Priority(specs[u], classes)
    ensures IsSorted([Entry(t, specs[t], classes)] + rest, specs, classes)
  {
    ListsMore(rest, t, specs, classes);
    hide Priority;
    var order := [Entry(t, specs[t], classes)] + rest;
    forall i | 1 <= i < |order| ensures order[0].priority >= order[i].priority {
      assert order[i] == rest[i - 1];
    }
    hide ListsReplicas;
  }

  /* ---- Exactly when the sort does not matter ---- */

  /** How far the case moves the amount of `name` away from the total of all replicas. */
  ghost function Shift(head: HeadCase, specs: map<ReplicaType, ReplicaSpec>, minMember: int32, name: string): int
    requires head.Trims? ==> head.replicaType in specs && specs[head.replicaType].replicas.Some?
  {
    match head
    case Trims(t) => (Wrap32(minMember - 1) - specs[t].replicas.value) * Sum(specs[t].containers, name)
    case _ => 0
  }

  ghost predicate SameEffect(g: HeadCase, h: HeadCase, specs: map<ReplicaType, ReplicaSpec>, minMember: int32)
    requires g.Trims? ==> g.replicaType in specs && specs[g.replicaType].replicas.Some?
    requires h.Trims? ==> h.replicaType in specs && specs[h.replicaType].replicas.Some?
  {
    && g.Panics? == h.Panics? && g.NoWorkerToTrim? == h.NoWorkerToTrim?
    && forall name :: Shift(g, specs, minMember, name) == Shift(h, specs, minMember, name)
  }

  lemma TrimmedAmounts(specs: map<ReplicaType, ReplicaSpec>, t: ReplicaType, minMember: int32, name: string)
    requires t in specs && specs[t].replicas.Some?
    ensures Amounts(TrimmedAt(specs, t, minMember), name) ==
            Amounts(specs, name) + Shift(Trims(t), specs, minMember, name)
    ensures name in NamesIn(TrimmedAt(specs, t, minMember)) <==> name in NamesIn(specs)
  {
    hide Amounts, NamesIn, Sum, ResourceNames, Wrap32;
    var specs' := TrimmedAt(specs, t, minMember);
    AmountsPick(specs, t, name);
    AmountsPick(specs', t, name);
    NamesPick(specs, t, name);
    NamesPick(specs', t, name);
    assert specs' - {t} == specs - {t};
    Distributes(Sum(specs[t].containers, name), Wrap32(minMember - 1) - specs[t].replicas.value,
        specs[t].replicas.value);
  }

  lemma {:induction false} NoNameNoAmount(specs: map<ReplicaType, ReplicaSpec>, name: string)
    requires name !in NamesIn(specs)
    ensures forall t :: t in specs && specs[t].replicas.Some? ==> Sum(specs[t].containers, name) == 0
  {
    forall t | t in specs && specs[t].replicas.Some? ensures Sum(specs[t].containers, name) == 0 {
      NoNameNoSum(specs[t].containers, name);
    }
  }

  /** The resources a case yields, name by name. */
  lemma CaseAmounts(head: HeadCase, specs: map<ReplicaType, ReplicaSpec>, minMember: int32, name: string)
    requires head.Trims? ==> head.replicaType in specs && specs[head.replicaType].replicas.Some?
    requires !head.Panics? && !head.NoWorkerToTrim?
    ensures OutcomeOf(head, specs, minMember).Minimum?
    ensures var r := OutcomeOf(head, specs, minMember).resources;
            && (name in r <==> name in NamesIn(specs))
            && (name in r ==> r[name] == Amounts(specs, name) + Shift(head, specs, minMember, name))
            && (name !in r ==> Shift(head, specs, minMember, name) == 0)
  {
    hide NamesIn, Amounts, TrimmedAt, Sum;
    if head.Trims? {
      TrimmedAmounts(specs, head.replicaType, minMember, name);
    }
    if name !in NamesIn(specs) {
      NoNameNoAmount(specs, name);
    }
  }

  lemma SameOutcomeIff(g: HeadCase, h: HeadCase, specs: map<ReplicaType, ReplicaSpec>, minMember: int32)
    requires g.Trims? ==> g.replicaType in specs && specs[g.replicaType].replicas.Some?
    requires h.Trims? ==> h.replicaType in specs && specs[h.replicaType].replicas.Some?
    ensures OutcomeOf(g, specs, minMember) == OutcomeOf(h, specs, minMember) <==> SameEffect(g, h, specs, minMember)
  {
    CaseKinds(g, specs, minMember);
    CaseKinds(h, specs, minMember);
    if !g.Panics? && !g.NoWorkerToTrim? && !h.Panics? && !h.NoWorkerToTrim? {
      hide OutcomeOf, Shift, NamesIn, Amounts;
      var r, q := OutcomeOf(g, specs, minMember).resources, OutcomeOf(h, specs, minMember).resources;
      forall name
        ensures name in r <==> name in q
        ensures name in r ==>
                  (r[name] == q[name] <==> Shift(g, specs, minMember, name) == Shift(h, specs, minMember, name))
        ensures name !in r ==> Shift(g, specs, minMember, name) == Shift(h, specs, minMember, name)
      {
        CaseAmounts(g, specs, minMember, name);
        CaseAmounts(h, specs, minMember, name);
      }
      SameMaps(r, q);
    }
  }

  lemma CaseKinds(head: HeadCase, specs: map<ReplicaType, ReplicaSpec>, minMember: int32)
    requires head.Trims? ==> head.replicaType in specs && specs[head.replicaType].replicas.Some?
    ensures OutcomeOf(head, specs, minMember).Panicked? <==> head.Panics?
    ensures OutcomeOf(head, specs, minMember).NoResult? <==> head.NoWorkerToTrim?
    ensures head.Panics? || head.NoWorkerToTrim? ==> forall name :: Shift(head, specs, minMember, name) == 0
  {
  }

  lemma SameMaps(r: ResourceList, q: ResourceList)
    requires forall name :: name in r <==> name in q
    ensures r == q <==> forall name :: name in r ==> r[name] == q[name]
  {
  }

  lemma CaseTrims(specs: map<ReplicaType, ReplicaSpec>, classes: map<string, int32>, minMember: int32,
                  a: ReplicaType, b: ReplicaType)
    requires a in specs && b in specs && (Worker in specs ==> specs[Worker].replicas.Some?)
    ensures var head := CaseOf(specs, classes, minMember, a, b);
            head.Trims? ==> head.replicaType in specs && specs[head.replicaType].replicas.Some?
  {
  }

  /** Do all pairs that the priorities let come first have the same effect? */
  ghost predicate HeadsAgree(specs: map<ReplicaType, ReplicaSpec>, classes: map<string, int32>, minMember: int32)
    requires Worker in specs ==> specs[Worker].replicas.Some?
  {
    forall a, b, c, d :: MayLead(specs, classes, a, b) && MayLead(specs, classes, c, d) ==>
      SameEffect(CaseOf(specs, classes, minMember, a, b), CaseOf(specs, classes, minMember, c, d), specs, minMember)
  }

  ghost predicate SortDoesNotMatter(specs: map<ReplicaType, ReplicaSpec>, classes: map<string, int32>,
                                    minMember: int32) {
    forall o, o' :: IsSorted(o, specs, classes) && IsSorted(o', specs, classes) ==>
      MinResourceOf(o, minMember) == MinResourceOf(o', minMember)
  }

  /** With the workers' count given, as defaulting leaves it, every iteration order and every outcome of
      the sort give the same result if and only if every two pairs of types that the priorities let come
      first either both panic, or both look for workers that are not there, or move every resource by the
      same amount: by nothing if their counts fit minMember, else by trimming the workers at equal
      priority, or the second type at unequal ones, to minMember - 1. */
  lemma OrderIndependentIff(specs: map<ReplicaType, ReplicaSpec>, classes: map<string, int32>, minMember: int32)
    requires Worker in specs ==> specs[Worker].replicas.Some?
    ensures SortDoesNotMatter(specs, classes, minMember) <==> HeadsAgree(specs, classes, minMember)
  {
    if |specs| < 2 {
      FewReplicas(specs, classes, minMember);
    } else {
      if HeadsAgree(specs, classes, minMember) {
        AgreeingHeads(specs, classes, minMember);
      }
      if SortDoesNotMatter(specs, classes, minMember) {
        AgreeingOrders(specs, classes, minMember);
      }
    }
  }

  lemma FewReplicas(specs: map<ReplicaType, ReplicaSpec>, classes: map<string, int32>, minMember: int32)
    requires |specs| < 2 && (Worker in specs ==> specs[Worker].replicas.Some?)
    ensures SortDoesNotMatter(specs, classes, minMember) && HeadsAgree(specs, classes, minMember)
  {
    hide MinResourceOf, CaseOf, SameEffect, Priority, Descending;
    forall o: seq<ReplicaPriority>, o': seq<ReplicaPriority>
      | IsSorted(o, specs, classes) && IsSorted(o', specs, classes)
      ensures MinResourceOf(o, minMember) == MinResourceOf(o', minMember)
    {
      OrderLists(o, specs, classes, "");
      OrderLists(o', specs, classes, "");
      if |o| == 1 {
        OnlyOne(specs, o[0].replicaType, o'[0].replicaType);
      }
      assert o == o';
    }
    forall a, b ensures !MayLead(specs, classes, a, b) {
      if MayLead(specs, classes, a, b) {
        OnlyOne(specs, a, b);
      }
    }
  }

  lemma OnlyOne(specs: map<ReplicaType, ReplicaSpec>, a: ReplicaType, b: ReplicaType)
    requires |specs| < 2 && a in specs && b in specs
    ensures a == b
  {
    SizePick(specs, a);
    assert |specs - {a}| == 0;
    assert b != a ==> b in specs - {a};
  }

  lemma AgreeingHeads(specs: map<ReplicaType, ReplicaSpec>, classes: map<string, int32>, minMember: int32)
    requires |specs| >= 2 && (Worker in specs ==> specs[Worker].replicas.Some?) && HeadsAgree(specs, classes, minMember)
    ensures SortDoesNotMatter(specs, classes, minMember)
  {
    hide MinResourceOf, CaseOf, SameEffect, OutcomeOf, MayLead, IsSorted;
    forall o: seq<ReplicaPriority>, o': seq<ReplicaPriority>
      | IsSorted(o, specs, classes) && IsSorted(o', specs, classes)
      ensures MinResourceOf(o, minMember) == MinResourceOf(o', minMember)
    {
      HeadDecides(o, specs, classes, minMember);
      HeadDecides(o', specs, classes, minMember);
      LeadsIn(specs, classes, o[0].replicaType, o[1].replicaType);
      LeadsIn(specs, classes, o'[0].replicaType, o'[1].replicaType);
      CaseTrims(specs, classes, minMember, o[0].replicaType, o[1].replicaType);
      CaseTrims(specs, classes, minMember, o'[0].replicaType, o'[1].replicaType);
      SameOutcomeIff(CaseOf(specs, classes, minMember, o[0].replicaType, o[1].replicaType),
                     CaseOf(specs, classes, minMember, o'[0].replicaType, o'[1].replicaType), specs, minMember);
    }
  }

  lemma LeadsIn(specs: map<ReplicaType, ReplicaSpec>, classes: map<string, int32>, a: ReplicaType, b: ReplicaType)
    requires MayLead(specs, classes, a, b)
    ensures a in specs && b in specs
  {
  }

  lemma AgreeingOrders(specs: map<ReplicaType, ReplicaSpec>, classes: map<string, int32>, minMember: int32)
    requires |specs| >= 2 && (Worker in specs ==> specs[Worker].replicas.Some?)
    requires SortDoesNotMatter(specs, classes, minMember)
    ensures HeadsAgree(specs, classes, minMember)
  {
    hide MinResourceOf, CaseOf, SameEffect, OutcomeOf, MayLead, IsSorted;
    forall a, b | MayLead(specs, classes, a, b) ensures a in specs && b in specs {
      LeadsIn(specs, classes, a, b);
    }
    forall a, b, c, d | MayLead(specs, classes, a, b) && MayLead(specs, classes, c, d)
      ensures var g, h := CaseOf(specs, classes, minMember, a, b), CaseOf(specs, classes, minMember, c, d);
              && (g.Trims? ==> g.replicaType in specs && specs[g.replicaType].replicas.Some?)
              && (h.Trims? ==> h.replicaType in specs && specs[h.replicaType].replicas.Some?)
              && SameEffect(g, h, specs, minMember)
    {
      var o := LeadExists(specs, classes, a, b);
      var o' := LeadExists(specs, classes, c, d);
      HeadDecides(o, specs, classes, minMember);
      HeadDecides(o', specs, classes, minMember);
      CaseTrims(specs, classes, minMember, a, b);
      CaseTrims(specs, classes, minMember, c, d);
      SameOutcomeIff(CaseOf(specs, classes, minMember, a, b), CaseOf(specs, classes, minMember, c, d), specs,
          minMember);
    }
  }

  ghost predicate DistinctPriorities(specs: map<ReplicaType, ReplicaSpec>, classes: map<string, int32>) {
    forall t, u :: t in specs && u in specs && t != u ==> Priority(specs[t], classes) != Priority(specs[u], classes)
  }

  /** Types of distinct priorities, however many, give the same result in every iteration order. */
  lemma DistinctPrioritiesAgree(specs: map<ReplicaType, ReplicaSpec>, classes: map<string, int32>, minMember: int32)
    requires Worker in specs ==> specs[Worker].replicas.Some?
    requires DistinctPriorities(specs, classes)
    ensures SortDoesNotMatter(specs, classes, minMember)
  {
    hide Priority, SortDoesNotMatter, CaseOf, Shift;
    assert forall a, b, c, d :: MayLead(specs, classes, a, b) && MayLead(specs, classes, c, d) ==> a == c && b == d;
    OrderIndependentIff(specs, classes, minMember);
  }

  /* ---- Two outcomes of the sort for a job that validation accepts ---- */

  const ONE_CPU := [Resources(map["cpu" := 1], map[])]

  function Example(t: ReplicaType, n: int32): ReplicaPriority {
    ReplicaPriority(0, t, Some(n), ONE_CPU)
  }

  function ExampleSpec(n: int32): ReplicaSpec {
    ReplicaSpec(Some(n), Never, "", map[], ONE_CPU)
  }

  lemma ExampleSorted(a: ReplicaType, m: int32, b: ReplicaType, n: int32, c: ReplicaType, k: int32)
    requires a != b && b != c && a != c
    ensures IsSorted([Example(a, m), Example(b, n), Example(c, k)],
                     map[a := ExampleSpec(m), b := ExampleSpec(n), c := ExampleSpec(k)], map[])
  {
    var order := [Example(a, m), Example(b, n), Example(c, k)];
    var specs := map[a := ExampleSpec(m), b := ExampleSpec(n), c := ExampleSpec(k)];
    assert order[0] == Entry(a, specs[a], map[]) && order[1] == Entry(b, specs[b], map[]) && order[2] ==
        Entry(c, specs[c], map[]);
    forall t | t in specs ensures Entry(t, specs[t], map[]) in order {
      assert t == a || t == b || t == c;
    }
  }

  lemma ThirdTypeSums(other: string)
    ensures var l, w, o := Example(Launcher, 1), Example(Worker, 5), Example(OtherReplica(other), 5);
            && MinResourceOf([l, w, o], 8).Minimum? && MinResourceOf([o, w, l], 8).Minimum?
            && Amount(MinResourceOf([l, w, o], 8).resources, "cpu") == 11
            && Amount(MinResourceOf([o, w, l], 8).resources, "cpu") == 13
  {
    var l, w, o := Example(Launcher, 1), Example(Worker, 5), Example(OtherReplica(other), 5);
    var w7 := Example(Worker, 7);
    assert [o, w, l][1..] == [w, l] && WorkerIndex([o, w, l]) == 1;
    assert [o, w, l][1 := w7] == [o, w7, l];
    assert Trim([l, w, o], 8) == Trimmed([l, w, o]) && Trim([o, w, l], 8) == Trimmed([o, w7, l]);
    hide Trim, AddOrder;
    AddOrderSums(map[], [l, w, o], "cpu");
    AddOrderSums(map[], [o, w7, l], "cpu");
    ThreeSum(l, w, o);
    ThreeSum(o, w7, l);
  }

  lemma ThreeSum(x: ReplicaPriority, y: ReplicaPriority, z: ReplicaPriority)
    requires x.replicas.Some? && y.replicas.Some? && z.replicas.Some?
    requires x.containers == y.containers == z.containers == ONE_CPU
    ensures OrderSum([x, y, z], "cpu") == x.replicas.value + y.replicas.value + z.replicas.value
  {
    assert [x, y, z][1..] == [y, z] && [y, z][1..] == [z] && [z][1..] == [];
    assert Sum(ONE_CPU, "cpu") == 1 by {
      assert ONE_CPU[1..] == [];
    }
    hide Sum;
    assert OrderSum([], "cpu") == 0;
    assert OrderSum([z], "cpu") == z.replicas.value;
    assert OrderSum([y, z], "cpu") == y.replicas.value + z.replicas.value;
  }

  /** One launcher, five workers and five others, all of one priority, and a gang of eight. */
  function ExampleJob(other: string): GroupJobSpec {
    GroupJobSpec(Some(1), None,
                 RunPolicy(Some(CleanNone), None, None, None, Some(SchedulingPolicy(Some(8), "", None, "", None)), None,
                           None),
                 Some(map[Launcher := ExampleSpec(1), Worker := ExampleSpec(5), OtherReplica(other) := ExampleSpec(5)]),
                 ROOT_SSH_PATH, AtStartup, OpenMPI)
  }

  lemma ExampleAccepted(other: string)
    ensures Default(ExampleJob(other)) == ExampleJob(other) && Accepts("a", ExampleJob(other))
  {
    var s := ExampleJob(other);
    assert s.Replica(Launcher) == Some(ExampleSpec(1)) && s.Replica(Worker) == Some(ExampleSpec(5));
    WorkerNameIsLabel("a", 4);
    assert Itoa(4) == [Digit(4)];
    ExampleNeedsNoDefaults(other);
  }

  lemma ExampleNeedsNoDefaults(other: string)
    ensures Default(ExampleJob(other)) == ExampleJob(other)
  {
    var specs := ExampleJob(other).replicaSpecs.value;
    assert specs[Launcher := ExampleSpec(1)] == specs && specs[Worker := ExampleSpec(5)] == specs;
    assert DefaultReplica(ExampleSpec(1), OnFailure, 1) == ExampleSpec(1);
    assert DefaultReplica(ExampleSpec(5), Never, 0) == ExampleSpec(5);
  }

  /** Defaulting and validation let a third replica type through, and then the PodGroup of either
      scheduler depends on the order of map iteration: the others first and second with the workers
      together exceed the gang, the launcher and the workers do not. */
  lemma ThirdReplicaTypeMatters(other: string, gang: GangScheduler, job: GroupJob)
    requires job.spec == ExampleJob(other)
    ensures Accepts("a", Default(job.spec)) && Default(job.spec) == job.spec
    ensures var l, w, o := Example(Launcher, 1), Example(Worker, 5), Example(OtherReplica(other), 5);
            && IsSorted([l, w, o], job.spec.replicaSpecs.value, map[])
            && IsSorted([o, w, l], job.spec.replicaSpecs.value, map[])
            && NewPodGroupSpec(gang, job, [l, w, o]) != NewPodGroupSpec(gang, job, [o, w, l])
  {
    hide IsSorted, MinResourceOf, Accepts, Default, PriorityClassName;
    ExampleAccepted(other);
    ExampleSorted(Launcher, 1, Worker, 5, OtherReplica(other), 5);
    ExampleSorted(OtherReplica(other), 5, Worker, 5, Launcher, 1);
    assert map[Launcher := ExampleSpec(1), Worker := ExampleSpec(5), OtherReplica(other) := ExampleSpec(5)] ==
           map[OtherReplica(other) := ExampleSpec(5), Worker := ExampleSpec(5), Launcher := ExampleSpec(1)];
    ThirdTypeSums(other);
  }

  /* ---- Panics ---- */

  predicate Uncounted(specs: map<ReplicaType, ReplicaSpec>, t: ReplicaType) {
    t in specs && specs[t].replicas.None?
  }

  /** Is the only entry more than the gang needs, or one of the first two without a count? */
  predicate PanicsFor(order: seq<ReplicaPriority>, specs: map<ReplicaType, ReplicaSpec>, minMember: int32) {
    || (|order| == 1 && minMember < 1)
    || (|order| >= 2 && (Uncounted(specs, order[0].replicaType) || Uncounted(specs, order[1].replicaType)))
  }

  /** For every job that defaulting and validation let through, whatever its replica types, building the
      PodGroup panics exactly if the resources have to be computed and either the launcher is alone and
      minAvailable negative, so that the trim indexes a second entry that is not there, or one of the two
      types that come first has no count, which only types that are neither defaulted nor validated can
      lack. The pointers and containers of launcher and workers that the controller follows are there. */
  lemma ValidatedJobPanicsIff(name: string, job: GroupJob, gang: GangScheduler, order: seq<ReplicaPriority>,
                              classes: map<string, int32>)
    requires Accepts(name, Default(job.spec)) && IsSorted(order, Default(job.spec).replicaSpecs.value, classes)
    ensures var s := Default(job.spec);
            var specs := s.replicaSpecs.value;
            && s.slotsPerWorker.Some? && s.runPolicy.cleanPodPolicy.Some? && Launcher in specs
            && (forall t :: t in specs && t in {Launcher, Worker} ==>
                  specs[t].replicas.Some? && specs[t].containers != [])
            && |order| == |specs|
            && (NewPodGroupSpec(gang, job.(spec := s), order).None? <==>
                  && (s.runPolicy.schedulingPolicy.None? || s.runPolicy.schedulingPolicy.value.minResources.None?)
                  && MinAvailable(s) != 0 && PanicsFor(order, specs, MinAvailable(s)))
  {
    hide Default, MinAvailable, Accepts, MinResourceOf, IsSorted, PriorityClassName;
    var s := Default(job.spec);
    AcceptedPointers(name, s);
    DefaultsSet(job.spec);
    PanicsIff(order, s.replicaSpecs.value, classes, MinAvailable(s));
  }

  /** An order is as long as its map is large. */
  lemma OrderSize(order: seq<ReplicaPriority>, specs: map<ReplicaType, ReplicaSpec>, classes: map<string, int32>)
    requires ListsReplicas(order, specs, classes) && Launcher in specs
    ensures |order| == |specs| && |order| >= 1
    ensures |order| == 1 ==> order[0] == Entry(Launcher, specs[Launcher], classes)
    ensures |order| >= 2 ==> order[0].replicaType in specs && order[1].replicaType in specs
  {
    OrderLists(order, specs, classes, "");
    assert Entry(Launcher, specs[Launcher], classes) in order;
  }

  lemma PanicsIff(order: seq<ReplicaPriority>, specs: map<ReplicaType, ReplicaSpec>, classes: map<string, int32>,
                  minMember: int32)
    requires IsSorted(order, specs, classes) && Launcher in specs && specs[Launcher].replicas == Some(1)
    ensures |order| == |specs|
    ensures MinResourceOf(order, minMember).Panicked? <==> PanicsFor(order, specs, minMember)
  {
    OrderSize(order, specs, classes);
    hide MinResourceOf, Total, TrimmedAt, Wrap32, Priority, ListsReplicas, Descending;
    if |order| == 1 {
      OnePanicsIff(order, minMember);
    } else {
      HeadDecides(order, specs, classes, minMember);
    }
  }

  lemma OnePanicsIff(order: seq<ReplicaPriority>, minMember: int32)
    requires |order| == 1 && order[0].replicas == Some(1)
    ensures MinResourceOf(order, minMember).Panicked? <==> minMember < 1
  {
    hide AddOrder;
  }

  lemma AcceptedPointers(name: string, s: GroupJobSpec)
    requires Accepts(name, s)
    ensures s.replicaSpecs.Some? && Launcher in s.replicaSpecs.value
    ensures s.replicaSpecs.value[Launcher].replicas == Some(1)
    ensures forall t :: t in s.replicaSpecs.value && t in {Launcher, Worker} ==>
              s.replicaSpecs.value[t].replicas.Some? && s.replicaSpecs.value[t].containers != []
  {
    assert s.Replica(Launcher).Some?;
    forall t | t in s.replicaSpecs.value && t in {Launcher, Worker}
      ensures s.replicaSpecs.value[t].replicas.Some? && s.replicaSpecs.value[t].containers != []
    {
      assert s.Replica(t) == Some(s.replicaSpecs.value[t]);
    }
  }

  lemma DefaultsSet(s: GroupJobSpec)
    ensures Default(s).slotsPerWorker.Some? && Default(s).runPolicy.cleanPodPolicy.Some?
  {
  }

  /* ---- When the PodGroup is always the same ---- */

  /** Is the PodGroup computed, and the same one, in every iteration order and for every outcome of the sort? */
  ghost predicate OneSpec(gang: GangScheduler, job: GroupJob, classes: map<string, int32>)
    requires job.spec.replicaSpecs.Some?
  {
    var specs := job.spec.replicaSpecs.value;
    forall a, b :: IsSorted(a, specs, classes) && IsSorted(b, specs, classes) ==> SameSpec(gang, job, a, b)
  }

  ghost predicate SameSpec(gang: GangScheduler, job: GroupJob, a: seq<ReplicaPriority>, b: seq<ReplicaPriority>) {
    NewPodGroupSpec(gang, job, a).Some? && NewPodGroupSpec(gang, job, a) == NewPodGroupSpec(gang, job, b)
  }

  /** What the PodGroup asks for: without a result, scheduler-plugins' asks for no resources at all. */
  function Asked(gang: GangScheduler, r: MinResult): Option<ResourceList> {
    if r.Minimum? then Some(r.resources) else if gang.Volcano? then None else Some(map[])
  }

  lemma SpecAsks(gang: GangScheduler, job: GroupJob, a: seq<ReplicaPriority>, b: seq<ReplicaPriority>)
    ensures var r, q := PGMinResources(job.spec, a), PGMinResources(job.spec, b);
            SameSpec(gang, job, a, b) <==> !r.Panicked? && !q.Panicked? && Asked(gang, r) == Asked(gang, q)
  {
    hide PGMinResources, MinAvailable, PriorityClassName;
  }

  /** Do two cases that do not panic ask for the same? If one finds no worker to trim and the other has a
      result, only scheduler-plugins' PodGroup may, and only if no container names a resource. */
  ghost predicate SameAsk(gang: GangScheduler, g: HeadCase, h: HeadCase, specs: map<ReplicaType, ReplicaSpec>,
                          minMember: int32)
    requires g.Trims? ==> g.replicaType in specs && specs[g.replicaType].replicas.Some?
    requires h.Trims? ==> h.replicaType in specs && specs[h.replicaType].replicas.Some?
  {
    && !g.Panics? && !h.Panics?
    && if g.NoWorkerToTrim? == h.NoWorkerToTrim? then SameEffect(g, h, specs, minMember)
       else gang.SchedulerPlugins? && NamesIn(specs) == {}
  }

  lemma SameAskIff(gang: GangScheduler, g: HeadCase, h: HeadCase, specs: map<ReplicaType, ReplicaSpec>,
                   minMember: int32)
    requires g.Trims? ==> g.replicaType in specs && specs[g.replicaType].replicas.Some?
    requires h.Trims? ==> h.replicaType in specs && specs[h.replicaType].replicas.Some?
    ensures var r, q := OutcomeOf(g, specs, minMember), OutcomeOf(h, specs, minMember);
            SameAsk(gang, g, h, specs, minMember) <==>
              !r.Panicked? && !q.Panicked? && Asked(gang, r) == Asked(gang, q)
  {
    hide OutcomeOf, SameEffect, NamesIn;
    CaseKinds(g, specs, minMember);
    CaseKinds(h, specs, minMember);
    SameOutcomeIff(g, h, specs, minMember);
    NothingAsked(g, specs, minMember);
    NothingAsked(h, specs, minMember);
  }

  lemma NothingAsked(g: HeadCase, specs: map<ReplicaType, ReplicaSpec>, minMember: int32)
    requires g.Trims? ==> g.replicaType in specs && specs[g.replicaType].replicas.Some?
    ensures !g.Panics? && !g.NoWorkerToTrim? ==>
              && OutcomeOf(g, specs, minMember).Minimum?
              && (OutcomeOf(g, specs, minMember).resources == map[] <==> NamesIn(specs) == {})
  {
    hide OutcomeOf, NamesIn, Shift, Amounts;
    if !g.Panics? && !g.NoWorkerToTrim? {
      CaseAmounts(g, specs, minMember, "");
      var r := OutcomeOf(g, specs, minMember).resources;
      forall name ensures name in r <==> name in NamesIn(specs) {
        CaseAmounts(g, specs, minMember, name);
      }
      assert r.Keys == NamesIn(specs);
    }
  }

  ghost predicate HeadsAsk(gang: GangScheduler, specs: map<ReplicaType, ReplicaSpec>, classes: map<string, int32>,
                           minMember: int32)
    requires Worker in specs ==> specs[Worker].replicas.Some?
  {
    forall a, b, c, d :: MayLead(specs, classes, a, b) && MayLead(specs, classes, c, d) ==>
      SameAsk(gang, CaseOf(specs, classes, minMember, a, b), CaseOf(specs, classes, minMember, c, d), specs, minMember)
  }

  /** Can the resources be computed, and does what is asked for not depend on the sort? */
  ghost predicate Computable(gang: GangScheduler, specs: map<ReplicaType, ReplicaSpec>, classes: map<string, int32>,
                             minMember: int32)
    requires Worker in specs ==> specs[Worker].replicas.Some?
  {
    if |specs| == 1 then minMember >= 1 else HeadsAsk(gang, specs, classes, minMember)
  }

  predicate ResourcesGiven(s: GroupJobSpec) {
    s.runPolicy.schedulingPolicy.Some? && s.runPolicy.schedulingPolicy.value.minResources.Some?
  }

  lemma AcceptedCounts(s: GroupJobSpec)
    requires AcceptsReplicas(s)
    ensures s.replicaSpecs.Some? && Launcher in s.replicaSpecs.value
    ensures s.replicaSpecs.value[Launcher].replicas == Some(1)
    ensures Worker in s.replicaSpecs.value ==> s.replicaSpecs.value[Worker].replicas.Some?
    ensures s.replicaSpecs.value.Keys <= {Launcher, Worker} ==> OnlyKnownReplicas(s.replicaSpecs.value)
  {
    assert s.Replica(Launcher) == Some(s.replicaSpecs.value[Launcher]);
    assert Worker in s.replicaSpecs.value ==> s.Replica(Worker) == Some(s.replicaSpecs.value[Worker]);
  }

  lemma PairAsks(gang: GangScheduler, specs: map<ReplicaType, ReplicaSpec>, classes: map<string, int32>,
                 minMember: int32, o: seq<ReplicaPriority>, o': seq<ReplicaPriority>)
    requires Worker in specs ==> specs[Worker].replicas.Some?
    requires IsSorted(o, specs, classes) && IsSorted(o', specs, classes) && |specs| >= 2
    ensures |o| >= 2 && MayLead(specs, classes, o[0].replicaType, o[1].replicaType)
    ensures |o'| >= 2 && MayLead(specs, classes, o'[0].replicaType, o'[1].replicaType)
    ensures var g := CaseOf(specs, classes, minMember, o[0].replicaType, o[1].replicaType);
            var h := CaseOf(specs, classes, minMember, o'[0].replicaType, o'[1].replicaType);
            var r, q := MinResourceOf(o, minMember), MinResourceOf(o', minMember);
            && (g.Trims? ==> g.replicaType in specs && specs[g.replicaType].replicas.Some?)
            && (h.Trims? ==> h.replicaType in specs && specs[h.replicaType].replicas.Some?)
            && (SameAsk(gang, g, h, specs, minMember) <==>
                  !r.Panicked? && !q.Panicked? && Asked(gang, r) == Asked(gang, q))
  {
    HeadDecides(o, specs, classes, minMember);
    HeadDecides(o', specs, classes, minMember);
    hide MinResourceOf, CaseOf, SameAsk, OutcomeOf, IsSorted, Asked;
    LeadsIn(specs, classes, o[0].replicaType, o[1].replicaType);
    LeadsIn(specs, classes, o'[0].replicaType, o'[1].replicaType);
    hide MayLead;
    CaseTrims(specs, classes, minMember, o[0].replicaType, o[1].replicaType);
    CaseTrims(specs, classes, minMember, o'[0].replicaType, o'[1].replicaType);
    SameAskIff(gang, CaseOf(specs, classes, minMember, o[0].replicaType, o[1].replicaType),
               CaseOf(specs, classes, minMember, o'[0].replicaType, o'[1].replicaType), specs, minMember);
  }

  ghost predicate OneResult(gang: GangScheduler, specs: map<ReplicaType, ReplicaSpec>, classes: map<string, int32>,
                            minMember: int32) {
    forall o, o' :: IsSorted(o, specs, classes) && IsSorted(o', specs, classes) ==> SameResult(gang, o, o', minMember)
  }

  ghost predicate SameResult(gang: GangScheduler, o: seq<ReplicaPriority>, o': seq<ReplicaPriority>, minMember: int32) {
    var r, q := MinResourceOf(o, minMember), MinResourceOf(o', minMember);
    !r.Panicked? && !q.Panicked? && Asked(gang, r) == Asked(gang, q)
  }

  lemma OneResultIff(gang: GangScheduler, specs: map<ReplicaType, ReplicaSpec>, classes: map<string, int32>,
                     minMember: int32)
    requires Launcher in specs && specs[Launcher].replicas == Some(1)
    requires Worker in specs ==> specs[Worker].replicas.Some?
    ensures OneResult(gang, specs, classes, minMember) <==> Computable(gang, specs, classes, minMember)
  {
    hide MinResourceOf, CaseOf, SameAsk, Asked, MayLead, IsSorted, SameResult;
    if |specs| == 1 {
      OnlyLauncherResult(gang, specs, classes, minMember);
    } else {
      assert |specs| >= 2 by {
        SizePick(specs, Launcher);
      }
      if HeadsAsk(gang, specs, classes, minMember) {
        HeadsAskOnce(gang, specs, classes, minMember);
      }
      if OneResult(gang, specs, classes, minMember) {
        OnceHeadsAsk(gang, specs, classes, minMember);
      }
    }
  }

  lemma HeadsAskOnce(gang: GangScheduler, specs: map<ReplicaType, ReplicaSpec>, classes: map<string, int32>,
                     minMember: int32)
    requires |specs| >= 2 && (Worker in specs ==> specs[Worker].replicas.Some?)
    requires HeadsAsk(gang, specs, classes, minMember)
    ensures OneResult(gang, specs, classes, minMember)
  {
    hide MinResourceOf, CaseOf, SameAsk, Asked, MayLead, IsSorted;
    forall o: seq<ReplicaPriority>, o': seq<ReplicaPriority>
      | IsSorted(o, specs, classes) && IsSorted(o', specs, classes)
      ensures SameResult(gang, o, o', minMember)
    {
      PairAsks(gang, specs, classes, minMember, o, o');
    }
  }

  lemma OnceHeadsAsk(gang: GangScheduler, specs: map<ReplicaType, ReplicaSpec>, classes: map<string, int32>,
                     minMember: int32)
    requires |specs| >= 2 && (Worker in specs ==> specs[Worker].replicas.Some?)
    requires OneResult(gang, specs, classes, minMember)
    ensures HeadsAsk(gang, specs, classes, minMember)
  {
    hide MinResourceOf, CaseOf, SameAsk, Asked, MayLead, IsSorted;
    forall a, b | MayLead(specs, classes, a, b) ensures a in specs && b in specs {
      LeadsIn(specs, classes, a, b);
    }
    forall a, b, c, d | MayLead(specs, classes, a, b) && MayLead(specs, classes, c, d)
      ensures var g, h := CaseOf(specs, classes, minMember, a, b), CaseOf(specs, classes, minMember, c, d);
              && (g.Trims? ==> g.replicaType in specs && specs[g.replicaType].replicas.Some?)
              && (h.Trims? ==> h.replicaType in specs && specs[h.replicaType].replicas.Some?)
              && SameAsk(gang, g, h, specs, minMember)
    {
      var o := LeadExists(specs, classes, a, b);
      var o' := LeadExists(specs, classes, c, d);
      PairAsks(gang, specs, classes, minMember, o, o');
      assert SameResult(gang, o, o', minMember);
    }
  }

  lemma OnlyLauncherResult(gang: GangScheduler, specs: map<ReplicaType, ReplicaSpec>, classes: map<string, int32>,
                           minMember: int32)
    requires |specs| == 1 && Launcher in specs && specs[Launcher].replicas == Some(1)
    requires Worker in specs ==> specs[Worker].replicas.Some?
    ensures OneResult(gang, specs, classes, minMember) <==> minMember >= 1
  {
    FewReplicas(specs, classes, minMember);
    hide MinResourceOf, IsSorted, HeadsAgree, Asked;
    forall o: seq<ReplicaPriority> | IsSorted(o, specs, classes)
      ensures MinResourceOf(o, minMember).Panicked? <==> minMember < 1
    {
      PanicsIff(o, specs, classes, minMember);
    }
    var order := SortedExists(specs, classes);
    assert OneResult(gang, specs, classes, minMember) ==> SameResult(gang, order, order, minMember);
  }

  /** For a job that validation lets through, the PodGroup is computed and always the same one if and only if
      the job gives its resources or a zero minAvailable, or is a launcher alone that is no more than the
      gang needs, or no pair of types that the priorities let come first panics and all such pairs ask
      for the same. */
  lemma OneSpecIff(gang: GangScheduler, job: GroupJob, classes: map<string, int32>)
    requires AcceptsReplicas(job.spec)
    ensures var s := job.spec;
            && s.replicaSpecs.Some?
            && (Worker in s.replicaSpecs.value ==> s.replicaSpecs.value[Worker].replicas.Some?)
            && (OneSpec(gang, job, classes) <==>
                  || ResourcesGiven(s) || MinAvailable(s) == 0
                  || Computable(gang, s.replicaSpecs.value, classes, MinAvailable(s)))
  {
    hide MinResourceOf, IsSorted, AcceptsReplicas, MinAvailable, SameSpec, Computable, Asked;
    AcceptedCounts(job.spec);
    var specs, minMember := job.spec.replicaSpecs.value, MinAvailable(job.spec);
    OneResultIff(gang, specs, classes, minMember);
    forall a: seq<ReplicaPriority>, b: seq<ReplicaPriority> | IsSorted(a, specs, classes) && IsSorted(b, specs, classes)
      ensures SameSpec(gang, job, a, b) <==>
              ResourcesGiven(job.spec) || minMember == 0 || SameResult(gang, a, b, minMember)
    {
      SpecAsks(gang, job, a, b);
    }
  }

  /** With a launcher and workers only, or a launcher alone that is no more than the gang needs, it is. */
  lemma KnownTypesComputable(gang: GangScheduler, specs: map<ReplicaType, ReplicaSpec>, classes: map<string, int32>,
                             minMember: int32)
    requires OnlyKnownReplicas(specs) && specs[Launcher].replicas == Some(1) && (Worker in specs || minMember >= 1)
    ensures Computable(gang, specs, classes, minMember)
  {
    hide MinResource, MinResourceOf, IsSorted, Computable, Asked;
    forall o: seq<ReplicaPriority>, o': seq<ReplicaPriority>
      | IsSorted(o, specs, classes) && IsSorted(o', specs, classes)
      ensures SameResult(gang, o, o', minMember)
    {
      OrderIndependent(o, specs, classes, minMember);
      OrderIndependent(o', specs, classes, minMember);
      KnownNeverPanic(specs, classes, minMember);
    }
    OneResultIff(gang, specs, classes, minMember);
  }

  lemma KnownNeverPanic(specs: map<ReplicaType, ReplicaSpec>, classes: map<string, int32>, minMember: int32)
    requires OnlyKnownReplicas(specs) && specs[Launcher].replicas == Some(1) && (Worker in specs || minMember >= 1)
    ensures !MinResource(specs, classes, minMember).Panicked?
  {
  }
}
