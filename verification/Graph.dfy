/** Dependency multigraphs on 0..n: cycles, topological orders, and Kahn's algorithm as
    PhasePlan::build runs it (src/core/phase_plan.cpp). deps[i] lists what i depends on;
    the same dependency may be listed more than once. */
module Graph {

  type Deps = seq<seq<nat>>

  ghost predicate ValidGraph(deps: Deps) {
    forall i, k :: 0 <= i < |deps| && 0 <= k < |deps[i]| ==> deps[i][k] < |deps|
  }

  /** A walk from dependents to dependencies. */
  ghost predicate IsPath(deps: Deps, p: seq<nat>) {
    && p != []
    && (forall i :: 0 <= i < |p| ==> p[i] < |deps|)
    && forall i :: 0 <= i < |p| - 1 ==> p[i + 1] in deps[p[i]]
  }

  ghost predicate IsCycle(deps: Deps, p: seq<nat>) {
    IsPath(deps, p) && |p| >= 2 && p[0] == p[|p| - 1]
  }

  ghost predicate Acyclic(deps: Deps) {
    forall p :: !IsCycle(deps, p)
  }

  predicate NoDuplicates(s: seq<nat>) {
    forall i, j :: 0 <= i < j < |s| ==> s[i] != s[j]
  }

  /** Every dependency of an element comes earlier. */
  ghost predicate DependenciesPrecede(deps: Deps, order: seq<nat>) {
    forall k, d :: 0 <= k < |order| && order[k] < |deps| && d in deps[order[k]] ==> d in order[..k]
  }

  /** Distinct nodes, each after its dependencies. */
  ghost predicate IsPartialOrder(deps: Deps, order: seq<nat>) {
    && NoDuplicates(order)
    && (forall k :: 0 <= k < |order| ==> order[k] < |deps|)
    && DependenciesPrecede(deps, order)
  }

  /** Position of v in s, or |s|. */
  function IndexOf(s: seq<nat>, v: nat): (k: nat)
    ensures k <= |s|
    ensures k < |s| ==> s[k] == v
    ensures k == |s| <==> v !in s
    ensures forall j :: 0 <= j < k ==> s[j] != v
  {
    if s == [] then 0
    else if s[0] == v then 0
    else
      assert s == [s[0]] + s[1..];
      1 + IndexOf(s[1..], v)
  }

  /** One more than the latest position in order of an element of ds; 0 if there is none. */
  function LastDependency(order: seq<nat>, ds: seq<nat>): (k: nat)
    ensures k <= |order| + 1
  {
    if ds == [] then 0
    else
      var rest := LastDependency(order, ds[1..]);
      var here := IndexOf(order, ds[0]) + 1;
      if here > rest then here else rest
  }

  /** The release rule: u leaves before v if its last dependency left earlier, or at the
      same time and u was declared first. */
  predicate Before(deps: Deps, order: seq<nat>, u: nat, v: nat)
    requires u < |deps| && v < |deps|
  {
    var a, b := LastDependency(order, deps[u]), LastDependency(order, deps[v]);
    a < b || (a == b && u < v)
  }

  ghost predicate ReleaseOrdered(deps: Deps, order: seq<nat>, queue: seq<nat>)
    requires forall k :: 0 <= k < |queue| ==> queue[k] < |deps|
  {
    forall i, j :: 0 <= i < j < |queue| ==> Before(deps, order, queue[i], queue[j])
  }

  /** A complete topological order, with ties broken by release time and declaration. */
  ghost predicate IsScheduleOrder(deps: Deps, order: seq<nat>) {
    && |order| == |deps|
    && IsPartialOrder(deps, order)
    && ReleaseOrdered(deps, order, order)
  }

  /* ---------- Counting ---------- */

  function Count(s: seq<nat>, v: nat): (c: nat)
    ensures c > 0 <==> v in s
    ensures c <= |s|
  {
    if s == [] then 0
    else
      assert s == [s[0]] + s[1..];
      (if s[0] == v then 1 else 0) + Count(s[1..], v)
  }

  lemma {:induction false} CountAppend(s: seq<nat>, t: seq<nat>, v: nat)
    ensures Count(s + t, v) == Count(s, v) + Count(t, v)
  {
    if s == [] {
      assert s + t == t;
    } else {
      assert (s + t)[1..] == s[1..] + t;
      CountAppend(s[1..], t, v);
    }
  }

  lemma CountTake(s: seq<nat>, k: nat, v: nat)
    requires k < |s|
    ensures Count(s[..k + 1], v) == Count(s[..k], v) + (if s[k] == v then 1 else 0)
    ensures Count(s[..k + 1], v) <= Count(s, v)
  {
    assert s[..k + 1] == s[..k] + [s[k]];
    CountAppend(s[..k], [s[k]], v);
    assert s == s[..k + 1] + s[k + 1..];
    CountAppend(s[..k + 1], s[k + 1..], v);
  }

  /** Entries of ds that are not in done. */
  function Pending(ds: seq<nat>, done: seq<nat>): (c: nat)
    ensures c == 0 <==> forall d :: d in ds ==> d in done
    ensures c <= |ds|
  {
    if ds == [] then 0
    else
      assert ds == [ds[0]] + ds[1..];
      (if ds[0] in done then 0 else 1) + Pending(ds[1..], done)
  }

  lemma {:induction false} PendingStep(ds: seq<nat>, done: seq<nat>, v: nat)
    requires v !in done
    ensures Pending(ds, done) == Pending(ds, done + [v]) + Count(ds, v)
  {
    if ds != [] {
      PendingStep(ds[1..], done, v);
    }
  }

  lemma {:induction false} PendingNone(ds: seq<nat>)
    ensures Pending(ds, []) == |ds|
  {
    if ds != [] {
      PendingNone(ds[1..]);
    }
  }

  /** Distinct values below n: at most n of them. */
  lemma {:induction false} Pigeonhole(s: seq<nat>, n: nat)
    requires NoDuplicates(s) && forall k :: 0 <= k < |s| ==> s[k] < n
    ensures |s| <= n
    decreases n
  {
    if s != [] {
      assert s[0] < n;
      var i := IndexOf(s, n - 1);
      if i == |s| {
        assert forall k :: 0 <= k < |s| ==> s[k] in s;
        Pigeonhole(s, n - 1);
      } else {
        WithoutKeepsDistinct(s, i, n);
        Pigeonhole(s[..i] + s[i + 1..], n - 1);
      }
    }
  }

  lemma WithoutKeepsDistinct(s: seq<nat>, i: nat, n: nat)
    requires NoDuplicates(s) && i < |s| && s[i] == n - 1
    requires forall k :: 0 <= k < |s| ==> s[k] < n
    ensures var t := s[..i] + s[i + 1..]; NoDuplicates(t) && forall k :: 0 <= k < |t| ==> t[k] < n - 1
  {
    var t := s[..i] + s[i + 1..];
    assert forall k :: 0 <= k < |t| ==> t[k] == if k < i then s[k] else s[k + 1];
  }

  /** All n values below n appear in a duplicate-free sequence of length n. */
  lemma Surjective(s: seq<nat>, n: nat, v: nat)
    requires NoDuplicates(s) && |s| == n && v < n
    requires forall k :: 0 <= k < |s| ==> s[k] < n
    ensures v in s
  {
    if v !in s {
      Pigeonhole(s + [v], n);
    }
  }

  /* ---------- Orders and cycles ---------- */

  lemma {:induction false} PathDescends(deps: Deps, order: seq<nat>, p: seq<nat>, k: nat)
    requires IsPartialOrder(deps, order) && IsPath(deps, p) && k < |p|
    requires p[0] in order
    ensures p[k] in order
    ensures k > 0 ==> IndexOf(order, p[k]) < IndexOf(order, p[0])
  {
    if k > 0 {
      PathDescends(deps, order, p, k - 1);
      var at := IndexOf(order, p[k - 1]);
      assert p[k - 1 + 1] in deps[p[k - 1]];
      assert p[k] in order[..at];
      EarlierIndex(order, at, p[k]);
    }
  }

  lemma EarlierIndex(order: seq<nat>, at: nat, v: nat)
    requires at <= |order| && v in order[..at]
    ensures IndexOf(order, v) < at
  {
    var j :| 0 <= j < at && order[j] == v;
  }

  /** A complete order rules out cycles. */
  lemma OrderMeansAcyclic(deps: Deps, order: seq<nat>)
    requires IsPartialOrder(deps, order) && |order| == |deps|
    ensures Acyclic(deps)
  {
    forall p
      ensures !IsCycle(deps, p)
    {
      if IsCycle(deps, p) {
        Surjective(order, |deps|, p[0]);
        PathDescends(deps, order, p, |p| - 1);
      }
    }
  }

  /** Every node outside order waits for a node outside order. */
  ghost predicate Stuck(deps: Deps, order: seq<nat>) {
    forall v :: 0 <= v < |deps| && v !in order ==> Pending(deps[v], order) > 0
  }

  lemma StuckOn(deps: Deps, order: seq<nat>, u: nat) returns (d: nat)
    requires ValidGraph(deps) && Stuck(deps, order) && u < |deps| && u !in order
    ensures d in deps[u] && d !in order && d < |deps|
  {
    d :| d in deps[u] && d !in order;
    var k :| 0 <= k < |deps[u]| && deps[u][k] == d;
  }

  lemma PathCons(deps: Deps, u: nat, p: seq<nat>)
    requires IsPath(deps, p) && u < |deps| && p[0] in deps[u]
    ensures IsPath(deps, [u] + p)
  {
    var q := [u] + p;
    forall i | 0 <= i < |q| - 1
      ensures q[i + 1] in deps[q[i]]
    {
      if i > 0 {
        assert p[i - 1 + 1] in deps[p[i - 1]];
      }
    }
  }

  lemma SubPath(deps: Deps, p: seq<nat>, i: nat, j: nat)
    requires IsPath(deps, p) && i < j <= |p|
    ensures IsPath(deps, p[i..j])
  {
    var c := p[i..j];
    forall k | 0 <= k < |c| - 1
      ensures c[k + 1] in deps[c[k]]
    {
      assert p[i + k + 1] in deps[p[i + k]];
    }
  }

  lemma {:induction false} Walk(deps: Deps, order: seq<nat>, u: nat, m: nat) returns (p: seq<nat>)
    requires ValidGraph(deps) && Stuck(deps, order) && u < |deps| && u !in order
    ensures IsPath(deps, p) && |p| == m + 1 && p[0] == u
    decreases m
  {
    hide IsPath;
    hide Stuck;
    if m == 0 {
      p := [u];
      SinglePath(deps, u);
    } else {
      var d := StuckOn(deps, order, u);
      var rest := Walk(deps, order, d, m - 1);
      PathCons(deps, u, rest);
      p := [u] + rest;
    }
  }

  lemma SinglePath(deps: Deps, u: nat)
    requires u < |deps|
    ensures IsPath(deps, [u])
  {
  }

  lemma PathBounds(deps: Deps, p: seq<nat>)
    requires IsPath(deps, p)
    ensures forall i :: 0 <= i < |p| ==> p[i] < |deps|
  {
  }

  lemma Repeated(p: seq<nat>, n: nat) returns (i: nat, j: nat)
    requires |p| > n && forall i :: 0 <= i < |p| ==> p[i] < n
    ensures i < j < |p| && p[i] == p[j]
  {
    if NoDuplicates(p) {
      Pigeonhole(p, n);
    }
    i, j :| 0 <= i < j < |p| && p[i] == p[j];
  }

  /** Where every stuck node waits for a stuck node, there is a cycle. */
  lemma StuckMeansCycle(deps: Deps, order: seq<nat>, u: nat)
    requires ValidGraph(deps) && Stuck(deps, order) && u < |deps| && u !in order
    ensures !Acyclic(deps)
  {
    hide IsPath;
    hide Stuck;
    hide ValidGraph;
    var p := Walk(deps, order, u, |deps|);
    PathBounds(deps, p);
    var i, j := Repeated(p, |deps|);
    SubPath(deps, p, i, j + 1);
    var c := p[i..j + 1];
    assert IsCycle(deps, c);
  }

  /* ---------- The schedule order is unique ---------- */

  lemma {:induction false} LastDependencyPrefix(a: seq<nat>, b: seq<nat>, k: nat, ds: seq<nat>)
    requires k <= |a| && k <= |b| && a[..k] == b[..k]
    requires forall d :: d in ds ==> d in a[..k]
    ensures LastDependency(a, ds) == LastDependency(b, ds)
  {
    if ds != [] {
      assert ds == [ds[0]] + ds[1..];
      LastDependencyPrefix(a, b, k, ds[1..]);
      assert ds[0] in a[..k];
      IndexPrefix(a, b, k, ds[0]);
    }
  }

  lemma IndexPrefix(a: seq<nat>, b: seq<nat>, k: nat, v: nat)
    requires k <= |a| && k <= |b| && a[..k] == b[..k] && v in a[..k]
    ensures IndexOf(a, v) == IndexOf(b, v) < k
  {
    EarlierIndex(a, k, v);
    EarlierIndex(b, k, v);
    var i, j := IndexOf(a, v), IndexOf(b, v);
    assert a[..k][i] == b[..k][i] && a[..k][j] == b[..k][j];
  }

  lemma {:induction false} OrdersAgree(deps: Deps, a: seq<nat>, b: seq<nat>, k: nat)
    requires IsScheduleOrder(deps, a) && IsScheduleOrder(deps, b) && k <= |deps|
    ensures a[..k] == b[..k]
  {
    if k > 0 {
      OrdersAgree(deps, a, b, k - 1);
      var u, v := a[k - 1], b[k - 1];
      if u != v {
        LaterThan(deps, a, b, k - 1);
        LaterThan(deps, b, a, k - 1);
        LastDependencyPrefix(a, b, k - 1, deps[u]);
        LastDependencyPrefix(a, b, k - 1, deps[v]);
      }
      assert a[..k] == a[..k - 1] + [u] && b[..k] == b[..k - 1] + [v];
    }
  }

  lemma NotInPrefix(b: seq<nat>, k: nat)
    requires NoDuplicates(b) && k < |b|
    ensures b[k] !in b[..k]
  {
    assert forall i :: 0 <= i < k ==> b[..k][i] == b[i];
  }

  /** Where two orders first differ, each puts its own choice before the other's. */
  lemma LaterThan(deps: Deps, a: seq<nat>, b: seq<nat>, k: nat)
    requires IsScheduleOrder(deps, a) && IsScheduleOrder(deps, b) && k < |deps|
    requires a[..k] == b[..k] && a[k] != b[k]
    ensures Before(deps, a, a[k], b[k])
    ensures forall d :: d in deps[a[k]] ==> d in a[..k]
  {
    hide LastDependency;
    NotInPrefix(b, k);
    Surjective(a, |deps|, b[k]);
    var j := IndexOf(a, b[k]);
    assert forall i :: 0 <= i < k ==> a[i] in a[..k];
    assert a[k] < |deps| && a[j] == b[k] && k < j;
  }

  /** The plan's order is a function of its declared nodes. */
  lemma ScheduleOrderUnique(deps: Deps, a: seq<nat>, b: seq<nat>)
    requires IsScheduleOrder(deps, a) && IsScheduleOrder(deps, b)
    ensures a == b
  {
    OrdersAgree(deps, a, b, |deps|);
    assert a[..|deps|] == a && b[..|deps|] == b;
  }
}
