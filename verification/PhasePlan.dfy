/** Phase plans (include/crf/phase_plan.hpp, src/core/phase_plan.cpp). */
module PhasePlans {
  import opened StrongId
  import opened Wrappers
  import opened Bytes
  import Graph
  import Kahn

  const MAX_PHASES: nat := 4096

  type PhaseKind = k: int | 0 <= k <= 16
  type ObjectFormat = f: int | 0 <= f <= 12

  datatype PhaseNode = PhaseNode(
    id: U64,
    kind: PhaseKind,
    adapterPhase: seq<Byte>,
    dependsOn: seq<U64>,
    mandatory: bool,
    expectedOutputs: seq<ObjectFormat>,
    fanIn: bool,
    requiredInputs: U64)

  type Nodes = seq<PhaseNode>

  datatype PlanDefect =
    | EmptyPlan
    | TooManyPhases
    | AbsentIdentity
    | DuplicateIdentity
    | SelfDependency
    | MissingDependency
    | FanInArity
    | DependencyCycle
    | NoMandatorySink
    | OrphanPhase

  /* ---------- What a plan must satisfy ---------- */

  ghost predicate IdentitiesPresent(nodes: Nodes) {
    forall i :: 0 <= i < |nodes| ==> nodes[i].id != 0
  }

  ghost predicate IdentitiesUnique(nodes: Nodes) {
    forall i, j :: 0 <= i < j < |nodes| ==> nodes[i].id != nodes[j].id
  }

  ghost predicate HasIdentity(nodes: Nodes, id: U64) {
    exists i :: 0 <= i < |nodes| && nodes[i].id == id
  }

  ghost predicate DependenciesExist(nodes: Nodes) {
    forall i, d :: 0 <= i < |nodes| && d in nodes[i].dependsOn ==> HasIdentity(nodes, d)
  }

  ghost predicate NoSelfDependency(nodes: Nodes) {
    forall i :: 0 <= i < |nodes| ==> nodes[i].id !in nodes[i].dependsOn
  }

  ghost predicate ArityHolds(nodes: Nodes) {
    forall i :: 0 <= i < |nodes| && nodes[i].fanIn ==> 1 <= nodes[i].requiredInputs <= |nodes[i].dependsOn|
  }

  /** A closed walk along dependencies; duplicate edges do not matter. */
  ghost predicate IsDependencyCycle(nodes: Nodes, p: seq<nat>) {
    && |p| >= 2 && p[0] == p[|p| - 1]
    && (forall k :: 0 <= k < |p| ==> p[k] < |nodes|)
    && forall k :: 0 <= k < |p| - 1 ==> nodes[p[k + 1]].id in nodes[p[k]].dependsOn
  }

  ghost predicate NoDependencyCycle(nodes: Nodes) {
    forall p :: !IsDependencyCycle(nodes, p)
  }

  /** No phase depends on phase i. */
  ghost predicate IsSink(nodes: Nodes, i: nat)
    requires i < |nodes|
  {
    forall j :: 0 <= j < |nodes| ==> nodes[i].id !in nodes[j].dependsOn
  }

  /** Exactly one sink, and it is mandatory. */
  ghost predicate SingleMandatorySink(nodes: Nodes) {
    exists s :: 0 <= s < |nodes| && IsSink(nodes, s) && nodes[s].mandatory
                && forall t :: 0 <= t < |nodes| && IsSink(nodes, t) ==> t == s
  }

  ghost predicate WellFormed(nodes: Nodes) {
    && 0 < |nodes| <= MAX_PHASES
    && IdentitiesPresent(nodes) && IdentitiesUnique(nodes)
    && DependenciesExist(nodes) && NoSelfDependency(nodes)
    && ArityHolds(nodes)
    && NoDependencyCycle(nodes)
    && SingleMandatorySink(nodes)
  }

  /* ---------- Plans ---------- */

  /** A validated plan: its declared nodes and the order in which they run. */
  datatype PhasePlan = PhasePlan(nodes: Nodes, order: seq<U64>)

  /** Position of the node with the given identity, or |nodes|. */
  function IndexOfId(nodes: Nodes, id: U64): (k: nat)
    ensures k <= |nodes|
    ensures k < |nodes| ==> nodes[k].id == id
    ensures k == |nodes| <==> !HasIdentity(nodes, id)
    ensures forall j :: 0 <= j < k ==> nodes[j].id != id
  {
    if nodes == [] then 0
    else if nodes[0].id == id then assert HasIdentity(nodes, id); 0
    else
      var k := IndexOfId(nodes[1..], id);
      assert HasIdentity(nodes, id) <==> HasIdentity(nodes[1..], id) by { TailIdentity(nodes, id); }
      1 + k
  }

  lemma TailIdentity(nodes: Nodes, id: U64)
    requires nodes != [] && nodes[0].id != id
    ensures HasIdentity(nodes, id) <==> HasIdentity(nodes[1..], id)
  {
    if HasIdentity(nodes, id) {
      var i :| 0 <= i < |nodes| && nodes[i].id == id;
      assert nodes[1..][i - 1].id == id;
    }
    if HasIdentity(nodes[1..], id) {
      var i :| 0 <= i < |nodes[1..]| && nodes[1..][i].id == id;
      assert nodes[i + 1].id == id;
    }
  }

  /** The dependency lists as positions. */
  function Edges(nodes: Nodes): (deps: Graph.Deps)
    ensures |deps| == |nodes|
  {
    seq(|nodes|, i requires 0 <= i < |nodes| => NodeEdges(nodes, nodes[i].dependsOn))
  }

  function NodeEdges(nodes: Nodes, ids: seq<U64>): (ds: seq<nat>)
    ensures |ds| == |ids|
  {
    seq(|ids|, k requires 0 <= k < |ids| => IndexOfId(nodes, ids[k]))
  }

  function Ids(nodes: Nodes, order: seq<nat>): (ids: seq<U64>)
    requires forall k :: 0 <= k < |order| ==> order[k] < |nodes|
    ensures |ids| == |order|
  {
    seq(|order|, k requires 0 <= k < |order| => nodes[order[k]].id)
  }

  ghost predicate HasOrder(nodes: Nodes, order: seq<nat>, ids: seq<U64>) {
    && Graph.IsScheduleOrder(Edges(nodes), order)
    && ids == Ids(nodes, order)
  }

  /** What build returns: well-formed nodes in the schedule order. */
  ghost predicate IsPlan(plan: PhasePlan) {
    && WellFormed(plan.nodes)
    && exists order :: HasOrder(plan.nodes, order, plan.order)
  }

  /** A plan is determined by its nodes. */
  lemma PlanUnique(a: PhasePlan, b: PhasePlan)
    requires IsPlan(a) && IsPlan(b) && a.nodes == b.nodes
    ensures a == b
  {
    var p :| HasOrder(a.nodes, p, a.order);
    var q :| HasOrder(b.nodes, q, b.order);
    Graph.ScheduleOrderUnique(Edges(a.nodes), p, q);
  }

  /* ---------- Positions and identities ---------- */

  lemma IndexOfNode(nodes: Nodes, i: nat)
    requires IdentitiesUnique(nodes) && i < |nodes|
    ensures IndexOfId(nodes, nodes[i].id) == i
  {
    assert HasIdentity(nodes, nodes[i].id);
  }

  lemma EdgeIsDependency(nodes: Nodes, i: nat, j: nat)
    requires IdentitiesUnique(nodes) && DependenciesExist(nodes) && i < |nodes| && j < |nodes|
    ensures j in Edges(nodes)[i] <==> nodes[j].id in nodes[i].dependsOn
  {
    var ids := nodes[i].dependsOn;
    var ds := NodeEdges(nodes, ids);
    assert Edges(nodes)[i] == ds;
    if j in ds {
      var k :| 0 <= k < |ds| && ds[k] == j;
      assert ids[k] in ids;
    }
    if nodes[j].id in ids {
      var k :| 0 <= k < |ids| && ids[k] == nodes[j].id;
      IndexOfNode(nodes, j);
      assert ds[k] == j;
    }
  }

  lemma EdgesValid(nodes: Nodes)
    requires DependenciesExist(nodes)
    ensures Graph.ValidGraph(Edges(nodes))
  {
    forall i, k | 0 <= i < |nodes| && 0 <= k < |Edges(nodes)[i]|
      ensures Edges(nodes)[i][k] < |nodes|
    {
      assert nodes[i].dependsOn[k] in nodes[i].dependsOn;
    }
  }

  lemma CyclesAgree(nodes: Nodes)
    requires IdentitiesUnique(nodes) && DependenciesExist(nodes)
    ensures NoDependencyCycle(nodes) <==> Graph.Acyclic(Edges(nodes))
  {
    forall p
      ensures IsDependencyCycle(nodes, p) <==> Graph.IsCycle(Edges(nodes), p)
    {
      CycleAgrees(nodes, p);
    }
  }

  lemma CycleAgrees(nodes: Nodes, p: seq<nat>)
    requires IdentitiesUnique(nodes) && DependenciesExist(nodes)
    ensures IsDependencyCycle(nodes, p) <==> Graph.IsCycle(Edges(nodes), p)
  {
    if forall k :: 0 <= k < |p| ==> p[k] < |nodes| {
      forall k | 0 <= k < |p| - 1
        ensures nodes[p[k + 1]].id in nodes[p[k]].dependsOn <==> p[k + 1] in Edges(nodes)[p[k]]
      {
        EdgeIsDependency(nodes, p[k], p[k + 1]);
      }
    }
  }

  /* ---------- Build ---------- */

  /** A reported defect is really there. */
  ghost predicate Defective(nodes: Nodes, defect: PlanDefect) {
    match defect
    case EmptyPlan => nodes == []
    case TooManyPhases => |nodes| > MAX_PHASES
    case AbsentIdentity => !IdentitiesPresent(nodes)
    case DuplicateIdentity => !IdentitiesUnique(nodes)
    case SelfDependency => !NoSelfDependency(nodes)
    case MissingDependency => !DependenciesExist(nodes)
    case FanInArity => !ArityHolds(nodes)
    case DependencyCycle => !NoDependencyCycle(nodes)
    case NoMandatorySink => forall i :: 0 <= i < |nodes| && IsSink(nodes, i) ==> !nodes[i].mandatory
    case OrphanPhase => exists i, j :: 0 <= i < j < |nodes| && IsSink(nodes, i) && IsSink(nodes, j)
  }

  ghost predicate IsIndex(nodes: Nodes, index: map<U64, nat>) {
    && (forall i :: 0 <= i < |nodes| ==> nodes[i].id in index && index[nodes[i].id] == i)
    && forall id :: id in index ==> index[id] < |nodes| && nodes[index[id]].id == id
  }

  method CheckIdentities(nodes: Nodes) returns (r: Option<PlanDefect>, index: map<U64, nat>)
    ensures r.None? <==> IdentitiesPresent(nodes) && IdentitiesUnique(nodes)
    ensures r.None? ==> IsIndex(nodes, index)
    ensures r.Some? ==> Defective(nodes, r.value)
  {
    index := map[];
    var i := 0;
    while i < |nodes|
      invariant 0 <= i <= |nodes|
      invariant forall k :: 0 <= k < i ==> nodes[k].id != 0
      invariant forall j, k :: 0 <= j < k < i ==> nodes[j].id != nodes[k].id
      invariant forall k :: 0 <= k < i ==> nodes[k].id in index && index[nodes[k].id] == k
      invariant forall id :: id in index ==> index[id] < i && nodes[index[id]].id == id
    {
      var id := nodes[i].id;
      if id == 0 {
        return Some(AbsentIdentity), index;
      }
      if id in index {
        return Some(DuplicateIdentity), index;
      }
      index := index[id := i];
      i := i + 1;
    }
    r := None;
  }

  lemma IndexAgrees(nodes: Nodes, index: map<U64, nat>, id: U64)
    requires IsIndex(nodes, index)
    ensures id in index <==> HasIdentity(nodes, id)
    ensures id in index ==> index[id] == IndexOfId(nodes, id)
  {
    if HasIdentity(nodes, id) {
      var i :| 0 <= i < |nodes| && nodes[i].id == id;
    }
    if id in index {
      assert nodes[index[id]].id == id;
      var k := IndexOfId(nodes, id);
      assert index[nodes[k].id] == k;
    }
  }

  method ResolveDependencies(nodes: Nodes, index: map<U64, nat>) returns (r: Option<PlanDefect>, deps: Graph.Deps)
    requires IsIndex(nodes, index)
    ensures r.None? <==> NoSelfDependency(nodes) && DependenciesExist(nodes)
    ensures r.None? ==> deps == Edges(nodes)
    ensures r.Some? ==> Defective(nodes, r.value)
  {
    hide IsIndex;
    hide IndexOfId;
    deps := [];
    var i := 0;
    while i < |nodes|
      invariant 0 <= i <= |nodes|
      invariant forall j :: 0 <= j < i ==> nodes[j].id !in nodes[j].dependsOn
      invariant forall j, d :: 0 <= j < i && d in nodes[j].dependsOn ==> HasIdentity(nodes, d)
      invariant |deps| == i && forall j :: 0 <= j < i ==> deps[j] == NodeEdges(nodes, nodes[j].dependsOn)
    {
      var ids := nodes[i].dependsOn;
      var ds := [];
      var k := 0;
      while k < |ids|
        invariant 0 <= k <= |ids|
        invariant forall j :: 0 <= j < k ==> ids[j] != nodes[i].id && HasIdentity(nodes, ids[j])
        invariant |ds| == k && forall j :: 0 <= j < k ==> ds[j] == IndexOfId(nodes, ids[j])
      {
        IndexAgrees(nodes, index, ids[k]);
        if ids[k] == nodes[i].id {
          return Some(SelfDependency), deps;
        }
        if ids[k] !in index {
          assert ids[k] in nodes[i].dependsOn;
          return Some(MissingDependency), deps;
        }
        ds := ds + [index[ids[k]]];
        k := k + 1;
      }
      assert ds == NodeEdges(nodes, ids);
      deps := deps + [ds];
      i := i + 1;
    }
    assert deps == Edges(nodes);
    r := None;
  }

  method CheckArity(nodes: Nodes) returns (ok: bool)
    ensures ok <==> ArityHolds(nodes)
  {
    var i := 0;
    while i < |nodes|
      invariant 0 <= i <= |nodes|
      invariant forall j :: 0 <= j < i && nodes[j].fanIn ==> 1 <= nodes[j].requiredInputs <= |nodes[j].dependsOn|
    {
      if nodes[i].fanIn && (nodes[i].requiredInputs == 0 || nodes[i].requiredInputs > |nodes[i].dependsOn|) {
        return false;
      }
      i := i + 1;
    }
    ok := true;
  }

  lemma SinkHasNoDependents(nodes: Nodes, dependents: Graph.Deps, i: nat)
    requires IdentitiesUnique(nodes) && DependenciesExist(nodes)
    requires Kahn.AreDependents(Edges(nodes), dependents) && i < |nodes|
    ensures dependents[i] == [] <==> IsSink(nodes, i)
  {
    forall j | 0 <= j < |nodes|
      ensures j in dependents[i] <==> nodes[i].id in nodes[j].dependsOn
    {
      EdgeIsDependency(nodes, j, i);
      assert Graph.Count(dependents[i], j) == Graph.Count(Edges(nodes)[j], i);
    }
    if dependents[i] != [] {
      assert dependents[i][0] < |nodes| && dependents[i][0] in dependents[i];
    }
  }

  method AnyMandatorySink(nodes: Nodes, dependents: Graph.Deps) returns (found: bool)
    requires IdentitiesUnique(nodes) && DependenciesExist(nodes)
    requires Kahn.AreDependents(Edges(nodes), dependents)
    ensures found <==> exists i :: 0 <= i < |nodes| && IsSink(nodes, i) && nodes[i].mandatory
  {
    var i := 0;
    while i < |nodes|
      invariant 0 <= i <= |nodes|
      invariant forall j :: 0 <= j < i && IsSink(nodes, j) ==> !nodes[j].mandatory
    {
      SinkHasNoDependents(nodes, dependents, i);
      if dependents[i] == [] && nodes[i].mandatory {
        return true;
      }
      i := i + 1;
    }
    found := false;
  }

  /** Node order[p] reaches the last one: it is the last one, or feeds a later node that does. */
  ghost predicate ReachRule(deps: Graph.Deps, order: seq<nat>, reaches: set<nat>, p: nat)
    requires p < |order| && forall k :: 0 <= k < |order| ==> order[k] < |deps|
  {
    order[p] in reaches <==>
      p == |order| - 1 || exists q :: p < q < |order| && order[q] in reaches && order[p] in deps[order[q]]
  }

  /** The reverse pass of the orphan check. */
  method ReachPrimary(deps: Graph.Deps, dependents: Graph.Deps, order: seq<nat>) returns (reaches: set<nat>)
    requires Graph.ValidGraph(deps) && Kahn.AreDependents(deps, dependents)
    requires Graph.IsPartialOrder(deps, order) && |order| == |deps| > 0
    ensures forall p :: 0 <= p < |order| ==> ReachRule(deps, order, reaches, p)
  {
    reaches := {};
    var primary := order[|order| - 1];
    var k := |order|;
    while k > 0
      invariant 0 <= k <= |order|
      invariant forall v :: v in reaches ==> v in order[k..]
      invariant forall p :: k <= p < |order| ==> ReachRule(deps, order, reaches, p)
    {
      var at := k - 1;
      var current := order[at];
      var hit := AnyIn(dependents[current], reaches);
      DependentsAreLater(deps, dependents, order, reaches, at);
      ghost var before := reaches;
      if current == primary || hit {
        reaches := reaches + {current};
      }
      assert order[at..] == [current] + order[k..];
      RuleKept(deps, order, before, reaches, at);
      k := at;
    }
  }

  method AnyIn(list: seq<nat>, members: set<nat>) returns (hit: bool)
    ensures hit <==> exists j :: 0 <= j < |list| && list[j] in members
  {
    hit := false;
    var j := 0;
    while j < |list|
      invariant 0 <= j <= |list|
      invariant hit <==> exists m :: 0 <= m < j && list[m] in members
    {
      if list[j] in members {
        hit := true;
      }
      j := j + 1;
    }
  }

  lemma DependentsAreLater(deps: Graph.Deps, dependents: Graph.Deps, order: seq<nat>, reaches: set<nat>, at: nat)
    requires Graph.ValidGraph(deps) && Kahn.AreDependents(deps, dependents)
    requires Graph.IsPartialOrder(deps, order) && |order| == |deps| && at < |order|
    requires forall v :: v in reaches ==> v in order[at + 1..]
    ensures var ds := dependents[order[at]];
            (exists j :: 0 <= j < |ds| && ds[j] in reaches) <==>
            exists q :: at < q < |order| && order[q] in reaches && order[at] in deps[order[q]]
  {
    var current := order[at];
    var ds := dependents[current];
    forall v | 0 <= v < |deps|
      ensures v in ds <==> current in deps[v]
    {
      assert Graph.Count(ds, v) == Graph.Count(deps[v], current);
    }
    if j :| 0 <= j < |ds| && ds[j] in reaches {
      var v := ds[j];
      assert v in ds && v < |deps|;
      var q' :| 0 <= q' < |order[at + 1..]| && order[at + 1..][q'] == v;
      assert order[at + 1 + q'] == v;
    }
    if q :| at < q < |order| && order[q] in reaches && order[at] in deps[order[q]] {
      var v := order[q];
      assert v in ds;
    }
  }

  /** Adding the current node does not disturb the rule for later nodes. */
  lemma RuleKept(deps: Graph.Deps, order: seq<nat>, before: set<nat>, after: set<nat>, at: nat)
    requires Graph.NoDuplicates(order) && at < |order|
    requires forall k :: 0 <= k < |order| ==> order[k] < |deps|
    requires after == before || after == before + {order[at]}
    requires forall p :: at < p < |order| ==> ReachRule(deps, order, before, p)
    requires order[at] !in before
    requires order[at] in after <==> at == |order| - 1 || exists q :: at < q < |order| && order[q] in before && order[at] in deps[order[q]]
    ensures forall p :: at <= p < |order| ==> ReachRule(deps, order, after, p)
  {
    assert forall q :: at < q < |order| ==> (order[q] in after <==> order[q] in before);
    forall p | at <= p < |order|
      ensures ReachRule(deps, order, after, p)
    {
      if p > at {
        assert ReachRule(deps, order, before, p);
      }
    }
  }

  /** Every node reaches the last one exactly when the last one is the only sink. */
  lemma {:induction false} ReachAllMeansOneSink(nodes: Nodes, order: seq<nat>, reaches: set<nat>)
    requires IdentitiesUnique(nodes) && DependenciesExist(nodes) && nodes != []
    requires Graph.IsPartialOrder(Edges(nodes), order) && |order| == |nodes|
    requires forall p :: 0 <= p < |order| ==> ReachRule(Edges(nodes), order, reaches, p)
    ensures IsSink(nodes, order[|order| - 1])
    ensures (forall v :: 0 <= v < |nodes| ==> v in reaches) <==>
            forall t :: 0 <= t < |nodes| && IsSink(nodes, t) ==> t == order[|order| - 1]
  {
    LastIsSink(nodes, order);
    var last := order[|order| - 1];
    if forall v :: 0 <= v < |nodes| ==> v in reaches {
      forall t | 0 <= t < |nodes| && IsSink(nodes, t)
        ensures t == last
      {
        Graph.Surjective(order, |nodes|, t);
        var p := Graph.IndexOf(order, t);
        assert ReachRule(Edges(nodes), order, reaches, p);
        if p != |order| - 1 {
          var q :| p < q < |order| && order[q] in reaches && order[p] in Edges(nodes)[order[q]];
          EdgeIsDependency(nodes, order[q], t);
        }
      }
    }
    if forall t :: 0 <= t < |nodes| && IsSink(nodes, t) ==> t == last {
      forall v | 0 <= v < |nodes|
        ensures v in reaches
      {
        Graph.Surjective(order, |nodes|, v);
        OneSinkReaches(nodes, order, reaches, Graph.IndexOf(order, v));
      }
    }
  }

  lemma LastIsSink(nodes: Nodes, order: seq<nat>)
    requires IdentitiesUnique(nodes) && DependenciesExist(nodes) && nodes != []
    requires Graph.IsPartialOrder(Edges(nodes), order) && |order| == |nodes|
    ensures IsSink(nodes, order[|order| - 1])
  {
    var n := |order| - 1;
    var last := order[n];
    forall q | 0 <= q < |order|
      ensures last !in order[..q]
    {
      assert forall r :: 0 <= r < q ==> order[..q][r] == order[r] && order[r] != last;
    }
    forall j | 0 <= j < |nodes|
      ensures nodes[last].id !in nodes[j].dependsOn
    {
      EdgeIsDependency(nodes, j, last);
      Graph.Surjective(order, |nodes|, j);
      var q := Graph.IndexOf(order, j);
      assert order[q] == j && last !in order[..q];
    }
  }

  /** A node that is not the only sink feeds a later node. */
  lemma LaterDependent(nodes: Nodes, order: seq<nat>, p: nat) returns (q: nat)
    requires IdentitiesUnique(nodes) && DependenciesExist(nodes)
    requires Graph.IsPartialOrder(Edges(nodes), order) && |order| == |nodes|
    requires p < |order| && !IsSink(nodes, order[p])
    ensures p < q < |order| && order[p] in Edges(nodes)[order[q]]
  {
    var j :| 0 <= j < |nodes| && nodes[order[p]].id in nodes[j].dependsOn;
    EdgeIsDependency(nodes, j, order[p]);
    Graph.Surjective(order, |nodes|, j);
    q := Graph.IndexOf(order, j);
    assert order[p] in order[..q];
    var r :| 0 <= r < q && order[r] == order[p];
  }

  lemma {:induction false} OneSinkReaches(nodes: Nodes, order: seq<nat>, reaches: set<nat>, p: nat)
    requires IdentitiesUnique(nodes) && DependenciesExist(nodes)
    requires Graph.IsPartialOrder(Edges(nodes), order) && |order| == |nodes| && p < |order|
    requires forall k :: 0 <= k < |order| ==> ReachRule(Edges(nodes), order, reaches, k)
    requires forall t :: 0 <= t < |nodes| && IsSink(nodes, t) ==> t == order[|order| - 1]
    ensures order[p] in reaches
    decreases |order| - p
  {
    assert ReachRule(Edges(nodes), order, reaches, p);
    if p != |order| - 1 {
      assert order[p] != order[|order| - 1];
      var q := LaterDependent(nodes, order, p);
      OneSinkReaches(nodes, order, reaches, q);
    }
  }

  /** PhasePlan::build succeeds exactly on well-formed node lists; the plan it returns is the
      one plan of those nodes; a refusal names a defect that is there. */
  method Build(nodes: Nodes) returns (r: Result<PhasePlan, PlanDefect>)
    ensures r.Success? <==> WellFormed(nodes)
    ensures r.Success? ==> r.value.nodes == nodes && IsPlan(r.value)
    ensures r.Failure? ==> Defective(nodes, r.error)
  {
    if nodes == [] {
      return Failure(EmptyPlan);
    }
    if |nodes| > MAX_PHASES {
      return Failure(TooManyPhases);
    }
    var defect, index := CheckIdentities(nodes);
    if defect.Some? {
      return Failure(defect.value);
    }
    var deps;
    defect, deps := ResolveDependencies(nodes, index);
    if defect.Some? {
      return Failure(defect.value);
    }
    var arity := CheckArity(nodes);
    if !arity {
      return Failure(FanInArity);
    }
    EdgesValid(nodes);
    CyclesAgree(nodes);
    var dependents := Kahn.CollectDependents(deps);
    var order := Kahn.TopologicalSort(deps, dependents);
    if |order| != |nodes| {
      return Failure(DependencyCycle);
    }
    var mandatory := AnyMandatorySink(nodes, dependents);
    if !mandatory {
      return Failure(NoMandatorySink);
    }
    var reaches := ReachPrimary(deps, dependents, order);
    ReachAllMeansOneSink(nodes, order, reaches);
    var all := AllReach(|nodes|, reaches);
    if !all {
      TwoSinks(nodes, order[|order| - 1]);
      return Failure(OrphanPhase);
    }
    var plan := PhasePlan(nodes, Ids(nodes, order));
    assert HasOrder(nodes, order, plan.order);
    r := Success(plan);
  }

  method AllReach(n: nat, reaches: set<nat>) returns (all: bool)
    ensures all <==> forall v :: 0 <= v < n ==> v in reaches
  {
    var i := 0;
    while i < n
      invariant 0 <= i <= n
      invariant forall v :: 0 <= v < i ==> v in reaches
    {
      if i !in reaches {
        return false;
      }
      i := i + 1;
    }
    all := true;
  }

  lemma TwoSinks(nodes: Nodes, last: nat)
    requires last < |nodes| && IsSink(nodes, last)
    requires !forall t :: 0 <= t < |nodes| && IsSink(nodes, t) ==> t == last
    ensures Defective(nodes, OrphanPhase)
    ensures !SingleMandatorySink(nodes)
  {
    var t :| 0 <= t < |nodes| && IsSink(nodes, t) && t != last;
    if t < last {
      assert IsSink(nodes, t) && IsSink(nodes, last);
    }
  }
}
