/** What a built plan guarantees about the order of its phases, and the ancestor queries
    (src/core/phase_plan.cpp:141-230). */
module Ancestry {
  import opened StrongId
  import opened PhasePlans
  import opened Sorting
  import Graph

  /* ---------- Dependencies by identity ---------- */

  ghost predicate HasPhase(plan: PhasePlan, id: U64) {
    HasIdentity(plan.nodes, id)
  }

  /** PhasePlan::dependencies: empty for an unknown phase. */
  function Dependencies(nodes: Nodes, id: U64): (ds: seq<U64>)
  {
    var k := IndexOfId(nodes, id);
    if k < |nodes| then nodes[k].dependsOn else []
  }

  /** A walk from a phase to one of its direct or indirect dependencies. */
  ghost predicate IsWalk(nodes: Nodes, w: seq<U64>) {
    && |w| >= 2
    && forall k :: 0 <= k < |w| - 1 ==> w[k + 1] in Dependencies(nodes, w[k])
  }

  ghost predicate DependsOn(nodes: Nodes, a: U64, b: U64) {
    exists w :: IsWalk(nodes, w) && w[0] == a && w[|w| - 1] == b
  }

  lemma DirectDependency(nodes: Nodes, a: U64, b: U64)
    requires b in Dependencies(nodes, a)
    ensures DependsOn(nodes, a, b)
  {
    var w := [a, b];
    assert IsWalk(nodes, w);
  }

  lemma ExtendDependency(nodes: Nodes, a: U64, b: U64, c: U64)
    requires DependsOn(nodes, a, b) && c in Dependencies(nodes, b)
    ensures DependsOn(nodes, a, c)
  {
    var w :| IsWalk(nodes, w) && w[0] == a && w[|w| - 1] == b;
    var w' := w + [c];
    forall k | 0 <= k < |w'| - 1
      ensures w'[k + 1] in Dependencies(nodes, w'[k])
    {
      if k < |w| - 1 {
        assert w[k + 1] in Dependencies(nodes, w[k]);
      }
    }
    assert IsWalk(nodes, w');
  }

  /** Closed under direct dependencies. */
  ghost predicate Closed(nodes: Nodes, s: set<U64>) {
    forall v, d :: v in s && d in Dependencies(nodes, v) ==> d in s
  }

  /** A closed set that holds the direct dependencies of a phase holds all its ancestors. */
  lemma {:induction false} ClosedHoldsAncestors(nodes: Nodes, s: set<U64>, a: U64, b: U64)
    requires Closed(nodes, s) && DependsOn(nodes, a, b)
    requires forall d :: d in Dependencies(nodes, a) ==> d in s
    ensures b in s
  {
    var w :| IsWalk(nodes, w) && w[0] == a && w[|w| - 1] == b;
    var k := 1;
    assert w[0 + 1] in Dependencies(nodes, w[0]);
    while k < |w| - 1
      invariant 1 <= k <= |w| - 1 && w[k] in s
    {
      assert w[k + 1] in Dependencies(nodes, w[k]);
      k := k + 1;
    }
  }

  /* ---------- The order of a plan ---------- */

  lemma PlanOrderExists(plan: PhasePlan) returns (order: seq<nat>)
    requires IsPlan(plan)
    ensures HasOrder(plan.nodes, order, plan.order) && |order| == |plan.nodes|
    ensures Graph.NoDuplicates(order) && forall k :: 0 <= k < |order| ==> order[k] < |plan.nodes|
    ensures |plan.order| == |order| && forall k :: 0 <= k < |order| ==> plan.order[k] == plan.nodes[order[k]].id
  {
    order :| HasOrder(plan.nodes, order, plan.order);
  }

  /** topological_order holds every phase of the plan exactly once, and nothing else. */
  lemma OrderIsPermutation(plan: PhasePlan)
    requires IsPlan(plan)
    ensures |plan.order| == |plan.nodes| > 0
    ensures forall i, j :: 0 <= i < j < |plan.order| ==> plan.order[i] != plan.order[j]
    ensures forall id :: id in plan.order <==> HasPhase(plan, id)
  {
    var order := PlanOrderExists(plan);
    forall i, j | 0 <= i < j < |plan.order|
      ensures plan.order[i] != plan.order[j]
    {
      var a, b := order[i], order[j];
      assert a != b && (if a < b then plan.nodes[a].id != plan.nodes[b].id else plan.nodes[b].id != plan.nodes[a].id);
    }
    forall id
      ensures id in plan.order <==> HasPhase(plan, id)
    {
      if id in plan.order {
        var k :| 0 <= k < |plan.order| && plan.order[k] == id;
        assert plan.nodes[order[k]].id == id;
      }
      if HasPhase(plan, id) {
        var i :| 0 <= i < |plan.nodes| && plan.nodes[i].id == id;
        Graph.Surjective(order, |plan.nodes|, i);
        var k := Graph.IndexOf(order, i);
        assert plan.order[k] == id;
      }
    }
  }

  /** Every dependency runs before the phases that need it. */
  lemma DependenciesFirst(plan: PhasePlan, k: nat, d: U64)
    requires IsPlan(plan) && k < |plan.order| && d in Dependencies(plan.nodes, plan.order[k])
    ensures d in plan.order[..k]
  {
    var order := PlanOrderExists(plan);
    var i := order[k];
    IndexOfNode(plan.nodes, i);
    assert d in plan.nodes[i].dependsOn;
    assert HasIdentity(plan.nodes, d);
    var j := IndexOfId(plan.nodes, d);
    EdgeIsDependency(plan.nodes, i, j);
    assert j in order[..k];
    var m :| 0 <= m < k && order[m] == j;
    assert plan.order[..k][m] == d;
  }

  /** The last phase of the order is the plan's one sink, and it is mandatory. */
  lemma LastIsTheSink(plan: PhasePlan)
    requires IsPlan(plan)
    ensures plan.order != []
    ensures var s := IndexOfId(plan.nodes, plan.order[|plan.order| - 1]);
            s < |plan.nodes| && IsSink(plan.nodes, s) && plan.nodes[s].mandatory
            && forall t :: 0 <= t < |plan.nodes| && IsSink(plan.nodes, t) ==> t == s
  {
    var order := PlanOrderExists(plan);
    LastIsSink(plan.nodes, order);
    var s := order[|order| - 1];
    IndexOfNode(plan.nodes, s);
    assert SingleMandatorySink(plan.nodes);
  }

  /** If a set of phases is closed under dependencies and holds the last phase of the order,
      it holds every phase of the plan. */
  lemma SinkPullsAll(plan: PhasePlan, s: set<U64>, id: U64)
    requires IsPlan(plan) && Closed(plan.nodes, s) && HasPhase(plan, id)
    requires plan.order != [] ==> plan.order[|plan.order| - 1] in s
    ensures id in s
  {
    var order := PlanOrderExists(plan);
    LastIsTheSink(plan);
    OrderIsPermutation(plan);
    var k :| 0 <= k < |plan.order| && plan.order[k] == id;
    PulledFrom(plan, s, order, k);
  }

  lemma {:induction false} PulledFrom(plan: PhasePlan, s: set<U64>, order: seq<nat>, k: nat)
    requires IsPlan(plan) && HasOrder(plan.nodes, order, plan.order) && Closed(plan.nodes, s)
    requires k < |plan.order| && plan.order[|plan.order| - 1] in s
    ensures plan.order[k] in s
    decreases |plan.order| - k
  {
    if k < |plan.order| - 1 {
      var last := order[|order| - 1];
      LastIsSink(plan.nodes, order);
      assert SingleMandatorySink(plan.nodes);
      assert order[k] != last;
      var q := LaterDependent(plan.nodes, order, k);
      PulledFrom(plan, s, order, q);
      EdgeIsDependency(plan.nodes, order[q], order[k]);
      IndexOfNode(plan.nodes, order[q]);
      assert plan.order[k] in Dependencies(plan.nodes, plan.order[q]);
    }
  }

  /* ---------- Readiness ---------- */

  /** PhasePlan::is_ready. */
  method IsReady(plan: PhasePlan, id: U64, committed: seq<U64>) returns (ready: bool)
    ensures ready <==> HasPhase(plan, id) && forall d :: d in Dependencies(plan.nodes, id) ==> d in committed
  {
    var k := IndexOfId(plan.nodes, id);
    if k == |plan.nodes| {
      return false;
    }
    var ds := plan.nodes[k].dependsOn;
    var i := 0;
    while i < |ds|
      invariant 0 <= i <= |ds|
      invariant forall j :: 0 <= j < i ==> ds[j] in committed
    {
      if ds[i] !in committed {
        return false;
      }
      i := i + 1;
    }
    ready := true;
  }

  /* ---------- Ancestors ---------- */

  /** Every identity some phase names as a dependency. */
  ghost function Named(nodes: Nodes): set<U64> {
    set i, k | 0 <= i < |nodes| && 0 <= k < |nodes[i].dependsOn| :: nodes[i].dependsOn[k]
  }

  lemma DependenciesNamed(nodes: Nodes, id: U64, d: U64)
    requires d in Dependencies(nodes, id)
    ensures d in Named(nodes)
  {
    var i := IndexOfId(nodes, id);
    var k :| 0 <= k < |nodes[i].dependsOn| && nodes[i].dependsOn[k] == d;
  }

  /** What the breadth-first search has established: everything seen is an ancestor, and the
      dependencies of everything visited have been seen. */
  ghost predicate Searching(nodes: Nodes, id: U64, visited: set<U64>, pending: seq<U64>) {
    && (forall v :: v in visited ==> DependsOn(nodes, id, v) && v in Named(nodes))
    && (forall v :: v in pending ==> DependsOn(nodes, id, v) && v in Named(nodes))
    && (forall d :: d in Dependencies(nodes, id) ==> d in visited || d in pending)
    && (forall v, d :: v in visited && d in Dependencies(nodes, v) ==> d in visited || d in pending)
  }

  lemma SearchStart(nodes: Nodes, id: U64)
    ensures Searching(nodes, id, {}, Dependencies(nodes, id))
  {
    forall v | v in Dependencies(nodes, id)
      ensures DependsOn(nodes, id, v) && v in Named(nodes)
    {
      DirectDependency(nodes, id, v);
      DependenciesNamed(nodes, id, v);
    }
  }

  lemma SearchVisit(nodes: Nodes, id: U64, visited: set<U64>, pending: seq<U64>)
    requires pending != [] && Searching(nodes, id, visited, pending)
    ensures Searching(nodes, id, visited + {pending[0]}, pending[1..] + Dependencies(nodes, pending[0]))
  {
    hide DependsOn;
    hide Named;
    hide Dependencies;
    var v := pending[0];
    assert pending == [v] + pending[1..];
    forall d | d in Dependencies(nodes, v)
      ensures DependsOn(nodes, id, d) && d in Named(nodes)
    {
      ExtendDependency(nodes, id, v, d);
      DependenciesNamed(nodes, v, d);
    }
  }

  lemma SearchSkip(nodes: Nodes, id: U64, visited: set<U64>, pending: seq<U64>)
    requires pending != [] && pending[0] in visited && Searching(nodes, id, visited, pending)
    ensures Searching(nodes, id, visited, pending[1..])
  {
    hide DependsOn;
    hide Dependencies;
    hide Named;
    assert pending == [pending[0]] + pending[1..];
    forall v | v in pending
      ensures v in visited || v in pending[1..]
    {
    }
  }

  lemma SearchDone(nodes: Nodes, id: U64, visited: set<U64>)
    requires Searching(nodes, id, visited, [])
    ensures forall v :: v in visited <==> DependsOn(nodes, id, v)
  {
    assert Closed(nodes, visited);
    forall v | DependsOn(nodes, id, v)
      ensures v in visited
    {
      ClosedHoldsAncestors(nodes, visited, id, v);
    }
  }

  lemma VisitShrinks(all: set<U64>, visited: set<U64>, v: U64)
    requires v in all && v !in visited
    ensures |all - (visited + {v})| < |all - visited|
  {
    assert all - visited == (all - (visited + {v})) + {v};
  }

  /** PhasePlan::transitive_dependencies: exactly the phases reachable along dependencies,
      each once, in ascending order. */
  method TransitiveDependencies(plan: PhasePlan, id: U64) returns (out: seq<U64>)
    ensures forall d :: d in out <==> DependsOn(plan.nodes, id, d)
    ensures Ascending(out)
  {
    hide Searching;
    hide Named;
    hide DependsOn;
    var visited: set<U64> := {};
    var pending := Dependencies(plan.nodes, id);
    out := [];
    SearchStart(plan.nodes, id);
    while pending != []
      invariant Searching(plan.nodes, id, visited, pending)
      invariant forall v :: v in out <==> v in visited
      decreases |Named(plan.nodes) - visited|, |pending|
    {
      var current := pending[0];
      if current in visited {
        SearchSkip(plan.nodes, id, visited, pending);
        pending := pending[1..];
      } else {
        SearchVisit(plan.nodes, id, visited, pending);
        PendingNamed(plan.nodes, id, visited, pending);
        VisitShrinks(Named(plan.nodes), visited, current);
        visited := visited + {current};
        out := out + [current];
        pending := pending[1..] + Dependencies(plan.nodes, current);
      }
    }
    SearchDone(plan.nodes, id, visited);
    out := SortedUnique(out);
  }

  lemma PendingNamed(nodes: Nodes, id: U64, visited: set<U64>, pending: seq<U64>)
    requires Searching(nodes, id, visited, pending) && pending != []
    ensures pending[0] in Named(nodes)
  {
  }

  /** In a plan no phase is its own ancestor. */
  lemma NotOwnAncestor(plan: PhasePlan, id: U64)
    requires IsPlan(plan)
    ensures !DependsOn(plan.nodes, id, id)
  {
    if DependsOn(plan.nodes, id, id) {
      var w :| IsWalk(plan.nodes, w) && w[0] == id && w[|w| - 1] == id;
      var p := seq(|w|, k requires 0 <= k < |w| => IndexOfId(plan.nodes, w[k]) as nat);
      forall k | 0 <= k < |w|
        ensures p[k] < |plan.nodes|
      {
        if k < |w| - 1 {
          assert w[k + 1] in Dependencies(plan.nodes, w[k]);
        } else {
          assert w[0 + 1] in Dependencies(plan.nodes, w[0]);
        }
      }
      forall k | 0 <= k < |p| - 1
        ensures plan.nodes[p[k + 1]].id in plan.nodes[p[k]].dependsOn
      {
        assert w[k + 1] in Dependencies(plan.nodes, w[k]);
      }
      assert IsDependencyCycle(plan.nodes, p);
    }
  }

  /** An ancestor runs earlier. */
  lemma {:induction false} AncestorsFirst(plan: PhasePlan, k: nat, b: U64)
    requires IsPlan(plan) && k < |plan.order| && DependsOn(plan.nodes, plan.order[k], b)
    ensures b in plan.order[..k]
  {
    var earlier := set j | 0 <= j < k :: plan.order[j];
    forall v, d | v in earlier && d in Dependencies(plan.nodes, v)
      ensures d in earlier
    {
      var j :| 0 <= j < k && plan.order[j] == v;
      DependenciesFirst(plan, j, d);
      assert d in plan.order[..j];
    }
    forall d | d in Dependencies(plan.nodes, plan.order[k])
      ensures d in earlier
    {
      DependenciesFirst(plan, k, d);
    }
    ClosedHoldsAncestors(plan.nodes, earlier, plan.order[k], b);
    var j :| 0 <= j < k && plan.order[j] == b;
    assert plan.order[..k][j] == b;
  }

  predicate IsMandatory(nodes: Nodes, id: U64) {
    var k := IndexOfId(nodes, id);
    k < |nodes| && nodes[k].mandatory
  }

  /** PhasePlan::mandatory_ancestors. */
  method MandatoryAncestors(plan: PhasePlan, id: U64) returns (out: seq<U64>)
    ensures forall d :: d in out <==> DependsOn(plan.nodes, id, d) && IsMandatory(plan.nodes, d)
    ensures Ascending(out)
  {
    hide DependsOn;
    var candidates := TransitiveDependencies(plan, id);
    out := [];
    var i := 0;
    while i < |candidates|
      invariant 0 <= i <= |candidates|
      invariant forall d :: d in out <==> d in candidates[..i] && IsMandatory(plan.nodes, d)
      invariant Ascending(out) && forall k :: 0 <= k < |out| ==> out[k] in candidates[..i]
    {
      assert candidates[..i + 1] == candidates[..i] + [candidates[i]];
      if IsMandatory(plan.nodes, candidates[i]) {
        forall k | 0 <= k < |out|
          ensures out[k] < candidates[i]
        {
          var j :| 0 <= j < i && candidates[j] == out[k];
        }
        out := out + [candidates[i]];
      }
      i := i + 1;
    }
    assert candidates[..i] == candidates;
  }
}
