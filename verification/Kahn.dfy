/** Kahn's topological sort, as PhasePlan::build runs it (src/core/phase_plan.cpp:100-124). */
module Kahn {
  import opened Graph

  /* ---------- Sorting a released batch ---------- */

  predicate Ascending(s: seq<nat>) {
    forall i, j :: 0 <= i < j < |s| ==> s[i] < s[j]
  }

  function Insert(s: seq<nat>, v: nat): (r: seq<nat>)
    requires Ascending(s) && v !in s
    ensures Ascending(r) && |r| == |s| + 1
    ensures forall x :: x in r <==> x in s || x == v
  {
    if s == [] then [v]
    else if v < s[0] then [v] + s
    else
      assert s == [s[0]] + s[1..];
      var t := Insert(s[1..], v);
      assert forall k :: 0 <= k < |t| ==> t[k] in t;
      [s[0]] + t
  }

  /** std::sort on a batch of distinct indices. */
  function Sorted(s: seq<nat>): (r: seq<nat>)
    requires NoDuplicates(s)
    ensures Ascending(r) && |r| == |s|
    ensures forall x :: x in r <==> x in s
  {
    if s == [] then []
    else
      var last := |s| - 1;
      assert s == s[..last] + [s[last]];
      Insert(Sorted(s[..last]), s[last])
  }

  /* ---------- Reverse edges ---------- */

  ghost predicate AreDependents(deps: Deps, dependents: Deps) {
    && |dependents| == |deps|
    && ValidGraph(dependents)
    && forall d, i {:trigger Count(dependents[d], i)} :: 0 <= d < |deps| && 0 <= i < |deps| ==> Count(dependents[d], i) == Count(deps[i], d)
  }

  /** The dependents lists: one entry per dependency entry. */
  method CollectDependents(deps: Deps) returns (dependents: Deps)
    requires ValidGraph(deps)
    ensures AreDependents(deps, dependents)
  {
    dependents := seq(|deps|, _ => []);
    assert forall d, j {:trigger Count(dependents[d], j)} :: 0 <= d < |deps| && 0 <= j < |deps| ==> Count(dependents[d], j) == 0;
    var i := 0;
    while i < |deps|
      invariant 0 <= i <= |deps| && |dependents| == |deps| && ValidGraph(dependents)
      invariant forall d, j {:trigger Count(dependents[d], j)} :: 0 <= d < |deps| && 0 <= j < |deps| ==>
        Count(dependents[d], j) == if j < i then Count(deps[j], d) else 0
    {
      dependents := CollectFrom(deps, dependents, i);
      i := i + 1;
    }
  }

  method CollectFrom(deps: Deps, start: Deps, i: nat) returns (dependents: Deps)
    requires ValidGraph(deps) && i < |deps| && |start| == |deps| && ValidGraph(start)
    requires forall d :: 0 <= d < |deps| ==> Count(start[d], i) == 0
    ensures |dependents| == |deps| && ValidGraph(dependents)
    ensures forall d, j {:trigger Count(dependents[d], j)} :: 0 <= d < |deps| && 0 <= j < |deps| ==>
      Count(dependents[d], j) == if j == i then Count(deps[i], d) else Count(start[d], j)
  {
    dependents := start;
    var k := 0;
    while k < |deps[i]|
      invariant 0 <= k <= |deps[i]| && |dependents| == |deps| && ValidGraph(dependents)
      invariant forall d, j {:trigger Count(dependents[d], j)} :: 0 <= d < |deps| && 0 <= j < |deps| ==>
        Count(dependents[d], j) == if j == i then Count(deps[i][..k], d) else Count(start[d], j)
    {
      var d := deps[i][k];
      var before := dependents;
      dependents := dependents[d := dependents[d] + [i]];
      forall e, j | 0 <= e < |deps| && 0 <= j < |deps|
        ensures Count(dependents[e], j) == if j == i then Count(deps[i][..k + 1], e) else Count(start[e], j)
      {
        CountTake(deps[i], k, e);
        CountAppend(before[d], [i], j);
      }
      k := k + 1;
    }
    assert deps[i][..|deps[i]|] == deps[i];
  }

  /* ---------- The main loop ---------- */

  /** Decrement the indegree of every listed dependent; report those that reach zero. */
  method Release(indegree: array<nat>, ds: seq<nat>) returns (released: seq<nat>)
    requires forall k :: 0 <= k < |ds| ==> ds[k] < indegree.Length
    requires forall v :: 0 <= v < indegree.Length ==> Count(ds, v) <= indegree[v]
    modifies indegree
    ensures forall v :: 0 <= v < indegree.Length ==> indegree[v] == old(indegree[v]) - Count(ds, v)
    ensures NoDuplicates(released)
    ensures forall v :: v in released ==> v < indegree.Length
    ensures forall v :: 0 <= v < indegree.Length ==> (v in released <==> v in ds && indegree[v] == 0)
  {
    released := [];
    var k := 0;
    while k < |ds|
      invariant 0 <= k <= |ds|
      invariant forall v :: 0 <= v < indegree.Length ==> indegree[v] == old(indegree[v]) - Count(ds[..k], v)
      invariant NoDuplicates(released)
      invariant forall v :: v in released ==> v < indegree.Length
      invariant forall v :: 0 <= v < indegree.Length ==> (v in released <==> v in ds[..k] && indegree[v] == 0)
    {
      var v := ds[k];
      forall u | 0 <= u < indegree.Length
        ensures Count(ds[..k + 1], u) == Count(ds[..k], u) + (if u == v then 1 else 0)
        ensures Count(ds[..k + 1], u) <= Count(ds, u)
      {
        CountTake(ds, k, u);
      }
      assert ds[..k + 1] == ds[..k] + [v];
      indegree[v] := indegree[v] - 1;
      if indegree[v] == 0 {
        released := released + [v];
      }
      k := k + 1;
    }
    assert ds[..|ds|] == ds;
  }

  /** What holds between two turns of the loop: the queue holds exactly the released nodes
      that have not left, in release order. */
  ghost predicate KahnState(deps: Deps, indegree: seq<nat>, ready: seq<nat>, order: seq<nat>) {
    && |indegree| == |deps|
    && (forall k :: 0 <= k < |order + ready| ==> (order + ready)[k] < |deps|)
    && NoDuplicates(order + ready)
    && (forall v :: 0 <= v < |deps| ==> indegree[v] == Pending(deps[v], order))
    && (forall v :: 0 <= v < |deps| ==> (v in order + ready <==> indegree[v] == 0))
    && DependenciesPrecede(deps, order)
    && ReleaseOrdered(deps, order, order + ready)
  }

  lemma {:induction false} LastDependencyExtend(order: seq<nat>, v: nat, ds: seq<nat>)
    requires v !in order
    ensures (forall d :: d in ds ==> d in order) ==>
              LastDependency(order + [v], ds) == LastDependency(order, ds) <= |order|
    ensures v in ds && (forall d :: d in ds ==> d in order + [v]) ==>
              LastDependency(order + [v], ds) == |order| + 1
  {
    if ds != [] {
      assert ds == [ds[0]] + ds[1..];
      LastDependencyExtend(order, v, ds[1..]);
      if ds[0] in order {
        IndexPrefix(order, order + [v], |order|, ds[0]);
      }
      if v !in ds[1..] && (forall d :: d in ds ==> d in order + [v]) {
        forall d | d in ds[1..]
          ensures d in order
        {
          assert d in ds && d in order + [v] && d != v;
        }
      }
    }
  }

  /** Before does not change for nodes whose dependencies have all left. */
  lemma BeforeExtend(deps: Deps, order: seq<nat>, v: nat, x: nat, y: nat)
    requires v !in order && x < |deps| && y < |deps|
    requires forall d :: d in deps[x] ==> d in order
    requires forall d :: d in deps[y] ==> d in order
    requires Before(deps, order, x, y)
    ensures Before(deps, order + [v], x, y)
  {
    LastDependencyExtend(order, v, deps[x]);
    LastDependencyExtend(order, v, deps[y]);
  }

  /** Nodes released by v come after everything already queued. */
  lemma BeforeReleased(deps: Deps, order: seq<nat>, v: nat, x: nat, y: nat)
    requires v !in order && x < |deps| && y < |deps|
    requires forall d :: d in deps[x] ==> d in order
    requires v in deps[y] && forall d :: d in deps[y] ==> d in order + [v]
    ensures Before(deps, order + [v], x, y)
  {
    LastDependencyExtend(order, v, deps[x]);
    LastDependencyExtend(order, v, deps[y]);
  }

  lemma BeforeTogether(deps: Deps, order: seq<nat>, v: nat, x: nat, y: nat)
    requires v !in order && x < y < |deps|
    requires v in deps[x] && forall d :: d in deps[x] ==> d in order + [v]
    requires v in deps[y] && forall d :: d in deps[y] ==> d in order + [v]
    ensures Before(deps, order + [v], x, y)
  {
    LastDependencyExtend(order, v, deps[x]);
    LastDependencyExtend(order, v, deps[y]);
  }

  lemma KahnInitial(deps: Deps, indegree: seq<nat>, ready: seq<nat>)
    requires |indegree| == |deps|
    requires forall v :: 0 <= v < |deps| ==> indegree[v] == |deps[v]|
    requires forall i, j :: 0 <= i < j < |ready| ==> ready[i] < ready[j]
    requires forall k :: 0 <= k < |ready| ==> ready[k] < |deps|
    requires forall v :: 0 <= v < |deps| ==> (v in ready <==> indegree[v] == 0)
    ensures KahnState(deps, indegree, ready, [])
  {
    assert [] + ready == ready;
    forall v | 0 <= v < |deps|
      ensures indegree[v] == Pending(deps[v], [])
    {
      PendingNone(deps[v]);
    }
    forall i, j | 0 <= i < j < |ready|
      ensures Before(deps, [], ready[i], ready[j])
    {
      assert ready[i] in ready && ready[j] in ready;
      assert deps[ready[i]] == [] && deps[ready[j]] == [];
    }
  }

  ghost predicate TurnOf(deps: Deps, before: seq<nat>, after: seq<nat>, ready: seq<nat>, order: seq<nat>, released: seq<nat>)
  {
    && ready != [] && |after| == |deps| == |before|
    && KahnState(deps, before, ready, order)
    && ready[0] < |deps|
    && (forall v :: 0 <= v < |deps| ==> after[v] == before[v] - Count(deps[v], ready[0]))
    && Ascending(released)
    && (forall v :: v in released ==> v < |deps|)
    && (forall v :: 0 <= v < |deps| ==> (v in released <==> ready[0] in deps[v] && after[v] == 0))
  }

  lemma HeadIsNew(order: seq<nat>, ready: seq<nat>)
    requires NoDuplicates(order + ready) && ready != []
    ensures ready[0] !in order
  {
    assert (order + ready)[|order|] == ready[0];
    assert forall k :: 0 <= k < |order| ==> order[k] == (order + ready)[k];
  }

  lemma TurnIndegrees(deps: Deps, before: seq<nat>, after: seq<nat>, ready: seq<nat>, order: seq<nat>, released: seq<nat>)
    requires TurnOf(deps, before, after, ready, order, released)
    ensures ready[0] !in order
    ensures forall v :: 0 <= v < |deps| ==> after[v] == Pending(deps[v], order + [ready[0]])
  {
    HeadIsNew(order, ready);
    forall v | 0 <= v < |deps|
      ensures after[v] == Pending(deps[v], order + [ready[0]])
    {
      PendingStep(deps[v], order, ready[0]);
    }
  }

  lemma TurnQueue(deps: Deps, before: seq<nat>, after: seq<nat>, ready: seq<nat>, order: seq<nat>, released: seq<nat>)
    requires TurnOf(deps, before, after, ready, order, released)
    ensures var queue := order + ready + released;
            && NoDuplicates(queue)
            && (forall k :: 0 <= k < |queue| ==> queue[k] < |deps|)
            && forall v :: 0 <= v < |deps| ==> (v in queue <==> after[v] == 0)
  {
    var old_ := order + ready;
    var queue := old_ + released;
    forall v | v in released
      ensures v !in old_ && v < |deps|
    {
      assert Count(deps[v], ready[0]) > 0;
    }
    forall i, j | 0 <= i < j < |queue|
      ensures queue[i] != queue[j]
    {
      if j < |old_| {
        assert queue[i] == old_[i] && queue[j] == old_[j];
      } else if i < |old_| {
        assert queue[i] == old_[i] && old_[i] in old_ && queue[j] in released;
      }
    }
    forall v | 0 <= v < |deps|
      ensures v in queue <==> after[v] == 0
    {
      assert v in queue <==> v in old_ || v in released;
    }
    forall k | 0 <= k < |queue|
      ensures queue[k] < |deps|
    {
      if k < |old_| {
        assert queue[k] == old_[k];
      } else {
        assert queue[k] in released;
      }
    }
  }

  lemma TurnReleaseOrder(deps: Deps, before: seq<nat>, after: seq<nat>, ready: seq<nat>, order: seq<nat>, released: seq<nat>)
    requires TurnOf(deps, before, after, ready, order, released)
    requires var queue := order + ready + released; forall k :: 0 <= k < |queue| ==> queue[k] < |deps|
    ensures ReleaseOrdered(deps, order + [ready[0]], order + ready + released)
  {
    var v := ready[0];
    var old_ := order + ready;
    var queue := old_ + released;
    TurnIndegrees(deps, before, after, ready, order, released);
    forall k | 0 <= k < |old_|
      ensures forall d :: d in deps[old_[k]] ==> d in order
    {
      assert old_[k] in old_;
    }
    forall i, j | 0 <= i < j < |queue|
      ensures Before(deps, order + [v], queue[i], queue[j])
    {
      if j < |old_| {
        assert Before(deps, order, old_[i], old_[j]);
        BeforeExtend(deps, order, v, old_[i], old_[j]);
      } else {
        assert queue[j] in released;
        if i < |old_| {
          BeforeReleased(deps, order, v, old_[i], queue[j]);
        } else {
          assert queue[i] in released;
          assert queue[i] == released[i - |old_|] && queue[j] == released[j - |old_|];
          BeforeTogether(deps, order, v, queue[i], queue[j]);
        }
      }
    }
  }

  /** One turn of the loop keeps the state. */
  lemma KahnTurn(deps: Deps, before: seq<nat>, after: seq<nat>, ready: seq<nat>, order: seq<nat>, released: seq<nat>)
    requires TurnOf(deps, before, after, ready, order, released)
    ensures KahnState(deps, after, ready[1..] + released, order + [ready[0]])
  {
    var order', ready' := order + [ready[0]], ready[1..] + released;
    var queue := order + ready + released;
    assert order' + ready' == queue;
    TurnIndegrees(deps, before, after, ready, order, released);
    TurnQueue(deps, before, after, ready, order, released);
    TurnReleaseOrder(deps, before, after, ready, order, released);
    forall k, d | 0 <= k < |order'| && order'[k] < |deps| && d in deps[order'[k]]
      ensures d in order'[..k]
    {
      if k < |order| {
        assert order'[k] == order[k] && order'[..k] == order[..k];
      } else {
        assert order'[..k] == order;
        assert ready[0] in order + ready;
      }
    }
  }

  /** With the queue empty the order is complete exactly when there is no cycle. */
  lemma KahnFinal(deps: Deps, indegree: seq<nat>, order: seq<nat>)
    requires ValidGraph(deps) && KahnState(deps, indegree, [], order)
    ensures IsPartialOrder(deps, order) && |order| <= |deps|
    ensures ReleaseOrdered(deps, order, order)
    ensures |order| == |deps| <==> Acyclic(deps)
  {
    assert order + [] == order;
    Pigeonhole(order, |deps|);
    if |order| == |deps| {
      OrderMeansAcyclic(deps, order);
    } else {
      var u := Missing(order, |deps|);
      StuckMeansCycle(deps, order, u);
    }
  }

  lemma {:induction false} Missing(s: seq<nat>, n: nat) returns (u: nat)
    requires |s| < n
    ensures u < n && u !in s
  {
    u := 0;
    ghost var seen: seq<nat> := [];
    while u < n && u in s
      invariant 0 <= u <= n && |seen| == u
      invariant NoDuplicates(seen)
      invariant forall k :: 0 <= k < u ==> seen[k] < |s| && s[seen[k]] == k
      decreases n - u
    {
      var at := IndexOf(s, u);
      seen := seen + [at];
      u := u + 1;
    }
    if u == n {
      Pigeonhole(seen, |s|);
    }
  }

  /** The sort of PhasePlan::build: it reaches every node exactly when the graph is acyclic,
      and the order it finds is the schedule order. */
  method TopologicalSort(deps: Deps, dependents: Deps) returns (order: seq<nat>)
    requires ValidGraph(deps) && AreDependents(deps, dependents)
    ensures IsPartialOrder(deps, order) && |order| <= |deps|
    ensures |order| == |deps| <==> Acyclic(deps)
    ensures |order| == |deps| ==> IsScheduleOrder(deps, order)
  {
    hide KahnState;
    var indegree := new nat[|deps|](i requires 0 <= i < |deps| => |deps[i]|);
    var ready := Roots(deps);
    order := [];
    KahnInitial(deps, indegree[..], ready);
    while ready != []
      invariant indegree.Length == |deps|
      invariant KahnState(deps, indegree[..], ready, order)
      decreases |deps| - |order|
    {
      ghost var before := indegree[..];
      var current := ready[0];
      KahnCurrent(deps, before, ready, order, dependents);
      var released := Release(indegree, dependents[current]);
      ghost var after := indegree[..];
      released := Sorted(released);
      assert TurnOf(deps, before, after, ready, order, released) by {
        ReleasedAre(deps, dependents, before, after, ready, order, released);
      }
      KahnTurn(deps, before, after, ready, order, released);
      ready := ready[1..] + released;
      order := order + [current];
    }
    KahnFinal(deps, indegree[..], order);
  }

  method Roots(deps: Deps) returns (ready: seq<nat>)
    ensures forall i, j :: 0 <= i < j < |ready| ==> ready[i] < ready[j]
    ensures forall k :: 0 <= k < |ready| ==> ready[k] < |deps|
    ensures forall v :: 0 <= v < |deps| ==> (v in ready <==> |deps[v]| == 0)
  {
    ready := [];
    var i := 0;
    while i < |deps|
      invariant 0 <= i <= |deps|
      invariant forall i, j :: 0 <= i < j < |ready| ==> ready[i] < ready[j]
      invariant forall k :: 0 <= k < |ready| ==> ready[k] < i
      invariant forall v :: 0 <= v < i ==> (v in ready <==> |deps[v]| == 0)
    {
      if |deps[i]| == 0 {
        ready := ready + [i];
      }
      i := i + 1;
    }
  }

  lemma KahnCurrent(deps: Deps, indegree: seq<nat>, ready: seq<nat>, order: seq<nat>, dependents: Deps)
    requires KahnState(deps, indegree, ready, order) && ready != [] && AreDependents(deps, dependents)
    ensures ready[0] < |deps| && |order| < |deps|
    ensures forall v :: 0 <= v < |deps| ==> Count(dependents[ready[0]], v) <= indegree[v]
  {
    var current := ready[0];
    assert (order + ready)[|order|] == current;
    Pigeonhole(order + ready, |deps|);
    HeadIsNew(order, ready);
    forall v | 0 <= v < |deps|
      ensures Count(dependents[current], v) <= indegree[v]
    {
      PendingStep(deps[v], order, current);
    }
  }

  lemma ReleasedAre(deps: Deps, dependents: Deps, before: seq<nat>, after: seq<nat>, ready: seq<nat>, order: seq<nat>, released: seq<nat>)
    requires ready != [] && KahnState(deps, before, ready, order) && AreDependents(deps, dependents)
    requires ready[0] < |deps| && |after| == |deps| == |before|
    requires forall v :: 0 <= v < |deps| ==> after[v] == before[v] - Count(dependents[ready[0]], v)
    requires Ascending(released)
    requires forall v :: v in released ==> v < |deps|
    requires forall v :: 0 <= v < |deps| ==> (v in released <==> v in dependents[ready[0]] && after[v] == 0)
    ensures TurnOf(deps, before, after, ready, order, released)
  {
    forall v | 0 <= v < |deps|
      ensures v in dependents[ready[0]] <==> ready[0] in deps[v]
    {
      assert Count(dependents[ready[0]], v) == Count(deps[v], ready[0]);
    }
  }
}
