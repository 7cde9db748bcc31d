/** Lineage tracing (ProvenanceLog::trace_lineage and lineage_is_authoritative in
    src/core/provenance.cpp). */
module Provenance {
  import opened StrongId
  import opened Wrappers
  import opened Artifacts
  import opened Sorting
  import Phases

  /** A way to descend from a root: which lineage input to take at each artifact. */
  type Descent = seq<nat>

  function InputsOf(t: Store, id: U64): seq<Ref> {
    if id in t.entries then t.entries[id].lineage else []
  }

  /** The identity a descent arrives at, if every step of it exists. */
  function Arrive(t: Store, root: U64, d: Descent): Option<U64>
  {
    if d == [] then Some(root)
    else
      var last := |d| - 1;
      match Arrive(t, root, d[..last])
      case None => None
      case Some(id) =>
        if d[last] < |InputsOf(t, id)| then Some(InputsOf(t, id)[d[last]].id) else None
  }

  ghost predicate Reachable(t: Store, root: U64, id: U64) {
    exists d :: Arrive(t, root, d) == Some(id)
  }

  /** Two different descents arrive at the same artifact: a shared ancestor, or a cycle. */
  ghost predicate ReachedTwice(t: Store, root: U64, id: U64) {
    exists d, e :: d != e && Arrive(t, root, d) == Some(id) && Arrive(t, root, e) == Some(id)
  }

  datatype LineageError = Twice(id: U64) | Unregistered(id: U64)

  /** The search so far: each visited artifact and each queue entry with the descent that
      found it; no descent is recorded twice; the continuations of visited ones are recorded. */
  datatype Search = Search(found: map<U64, Descent>, queue: seq<Descent>)

  ghost predicate Recorded(s: Search, d: Descent) {
    d in s.found.Values || d in s.queue
  }

  ghost predicate Explores(t: Store, root: U64, s: Search) {
    && (forall id :: id in s.found ==> id in t.entries && Arrive(t, root, s.found[id]) == Some(id) && s.found[id] !in s.queue)
    && (forall i :: 0 <= i < |s.queue| ==> Arrive(t, root, s.queue[i]).Some?)
    && (forall i, j :: 0 <= i < j < |s.queue| ==> s.queue[i] != s.queue[j])
  }

  ghost predicate Covers(t: Store, s: Search) {
    && Recorded(s, [])
    && forall id, k :: id in s.found && 0 <= k < |InputsOf(t, id)| ==> Recorded(s, s.found[id] + [k])
  }

  function Continuations(t: Store, id: U64, d: Descent): (r: seq<Descent>)
    ensures |r| == |InputsOf(t, id)|
    ensures forall k :: 0 <= k < |r| ==> r[k] == d + [k]
  {
    seq(|InputsOf(t, id)|, k requires 0 <= k => d + [k as nat])
  }

  function Advance(t: Store, s: Search, id: U64): Search
    requires s.queue != []
  {
    Search(s.found[id := s.queue[0]], s.queue[1..] + Continuations(t, id, s.queue[0]))
  }

  lemma ArriveNext(t: Store, root: U64, d: Descent, id: U64, k: nat)
    requires Arrive(t, root, d) == Some(id) && k < |InputsOf(t, id)|
    ensures Arrive(t, root, d + [k]) == Some(InputsOf(t, id)[k].id)
  {
    assert (d + [k])[..|d|] == d;
  }

  /** Recorded descents extend only visited ones. */
  ghost predicate ParentsVisited(s: Search) {
    forall e :: Recorded(s, e) && e != [] ==> e[..|e| - 1] in s.found.Values
  }

  lemma NotYetExtended(t: Store, root: U64, s: Search, k: nat)
    requires Explores(t, root, s) && ParentsVisited(s) && s.queue != []
    ensures !Recorded(s, s.queue[0] + [k])
  {
    var d := s.queue[0];
    assert (d + [k])[..|d + [k]| - 1] == d;
    assert d in s.queue;
    assert forall id :: id in s.found ==> s.found[id] != d;
  }

  lemma AdvanceExplores(t: Store, root: U64, s: Search, id: U64)
    requires Explores(t, root, s) && ParentsVisited(s) && s.queue != []
    requires Arrive(t, root, s.queue[0]) == Some(id) && id !in s.found && id in t.entries
    ensures Explores(t, root, Advance(t, s, id))
  {
    hide ParentsVisited;
    var d := s.queue[0];
    var s' := Advance(t, s, id);
    var more := Continuations(t, id, d);
    forall k | 0 <= k < |more|
      ensures Arrive(t, root, more[k]).Some? && more[k] != d && !Recorded(s, more[k])
    {
      ArriveNext(t, root, d, id, k);
      NotYetExtended(t, root, s, k);
    }
    QueueStaysDistinct(s.queue, more);
    forall x | x in s'.found
      ensures x in t.entries && Arrive(t, root, s'.found[x]) == Some(x) && s'.found[x] !in s'.queue
    {
      if x != id {
        assert s.found[x] in s.found.Values;
        assert s.found[x] !in s.queue;
        assert forall k :: 0 <= k < |more| ==> more[k] != s.found[x];
      }
    }
  }

  lemma QueueStaysDistinct(queue: seq<Descent>, more: seq<Descent>)
    requires queue != [] && forall i, j :: 0 <= i < j < |queue| ==> queue[i] != queue[j]
    requires forall k :: 0 <= k < |more| ==> more[k] == queue[0] + [k] && more[k] !in queue
    ensures var q := queue[1..] + more;
            (forall i, j :: 0 <= i < j < |q| ==> q[i] != q[j]) && queue[0] !in q
  {
    var q := queue[1..] + more;
    forall i, j | 0 <= i < j < |q|
      ensures q[i] != q[j]
    {
      if i < |queue| - 1 <= j {
        assert queue[i + 1] in queue;
      } else if |queue| - 1 <= i {
        assert q[i][|queue[0]|] != q[j][|queue[0]|];
      }
    }
    forall i | 0 <= i < |q|
      ensures q[i] != queue[0]
    {
      if i < |queue| - 1 {
        assert q[i] == queue[i + 1];
      } else {
        assert |q[i]| == |queue[0]| + 1;
      }
    }
  }

  lemma AdvanceRecords(t: Store, s: Search, id: U64, e: Descent)
    requires s.queue != [] && id !in s.found
    ensures Recorded(Advance(t, s, id), e) <==> Recorded(s, e) || e in Continuations(t, id, s.queue[0])
  {
    var s' := Advance(t, s, id);
    assert s.queue == [s.queue[0]] + s.queue[1..];
    if e in s.found.Values {
      var x :| x in s.found && s.found[x] == e;
      assert s'.found[x] == e;
    }
    if e == s.queue[0] {
      assert s'.found[id] == e;
    }
  }

  lemma AdvanceCovers(t: Store, s: Search, id: U64)
    requires Covers(t, s) && s.queue != [] && id !in s.found && id in t.entries
    ensures Covers(t, Advance(t, s, id))
  {
    hide Recorded;
    var s' := Advance(t, s, id);
    AdvanceRecords(t, s, id, []);
    forall x, k | x in s'.found && 0 <= k < |InputsOf(t, x)|
      ensures Recorded(s', s'.found[x] + [k])
    {
      AdvanceRecords(t, s, id, s'.found[x] + [k]);
      if x == id {
        assert Continuations(t, id, s.queue[0])[k] == s'.found[x] + [k];
      }
    }
  }

  lemma AdvanceParents(t: Store, s: Search, id: U64)
    requires ParentsVisited(s) && s.queue != [] && id !in s.found
    ensures ParentsVisited(Advance(t, s, id))
  {
    hide Recorded;
    var s' := Advance(t, s, id);
    var more := Continuations(t, id, s.queue[0]);
    assert s'.found[id] in s'.found.Values;
    forall e | Recorded(s', e) && e != []
      ensures e[..|e| - 1] in s'.found.Values
    {
      AdvanceRecords(t, s, id, e);
      if e in more {
        var k :| 0 <= k < |more| && more[k] == e;
        assert e[..|e| - 1] == s.queue[0];
      } else {
        var x :| x in s.found && s.found[x] == e[..|e| - 1];
        assert s'.found[x] == e[..|e| - 1];
      }
    }
  }

  /** When the queue runs dry every descent has been followed to its end, exactly once. */
  lemma {:induction false} AllFollowed(t: Store, root: U64, s: Search, d: Descent, id: U64)
    requires Explores(t, root, s) && Covers(t, s) && s.queue == []
    requires Arrive(t, root, d) == Some(id)
    ensures id in s.found && s.found[id] == d
    decreases |d|
  {
    if d != [] {
      var before := d[..|d| - 1];
      var from := Arrive(t, root, before).value;
      AllFollowed(t, root, s, before, from);
      assert d == before + [d[|d| - 1]];
    }
    assert Recorded(s, d);
    var x :| x in s.found && s.found[x] == d;
  }

  /** trace_lineage. It ends on every registry, cyclic ones included. It succeeds exactly when
      everything reachable is registered and nothing is reached along two descents, and then
      lists exactly the reachable artifacts, in identity order, at their current generation. */
  method TraceLineage(t: Store, root: U64) returns (r: Result<seq<Ref>, LineageError>)
    ensures r.Success? <==> (forall id :: Reachable(t, root, id) ==> id in t.entries) && (forall id :: !ReachedTwice(t, root, id))
    ensures r.Success? ==> (forall i, j :: 0 <= i < j < |r.value| ==> r.value[i].id < r.value[j].id)
    ensures r.Success? ==> forall x :: x in r.value <==>
              Reachable(t, root, x.id) && x.id in t.entries && x.generation == t.entries[x.id].generation
    ensures r.Failure? ==> match r.error
                           case Twice(id) => ReachedTwice(t, root, id)
                           case Unregistered(id) => Reachable(t, root, id) && id !in t.entries
  {
    hide Explores;
    hide Covers;
    hide ParentsVisited;
    hide References;
    hide Arrive;
    var out: seq<U64> := [];
    var visited: set<U64> := {};
    var pending := [root];
    ghost var s := Search(map[], [[]]);
    SearchBegins(t, root);
    while pending != []
      invariant Explores(t, root, s) && Covers(t, s) && ParentsVisited(s)
      invariant |pending| == |s.queue| && forall i :: 0 <= i < |pending| ==> Arrive(t, root, s.queue[i]) == Some(pending[i])
      invariant visited == s.found.Keys && visited <= t.entries.Keys
      invariant forall id :: id in out <==> id in visited
      decreases |t.entries.Keys - visited|
    {
      var current := pending[0];
      if current in visited {
        SeenTwice(t, root, s, current);
        return Failure(Twice(current));
      }
      if current !in t.entries {
        assert Reachable(t, root, current);
        return Failure(Unregistered(current));
      }
      AdvanceExplores(t, root, s, current);
      AdvanceCovers(t, s, current);
      AdvanceParents(t, s, current);
      FoundStay(t, root, s, current);
      QueueFollows(t, root, s, current, pending);
      FewerLeft(t.entries.Keys, visited, current);
      s := Advance(t, s, current);
      visited := visited + {current};
      out := out + [current];
      pending := pending[1..] + Ids(t.entries[current].lineage);
    }
    TraceDone(t, root, s);
    r := Success(References(t, SortedUnique(out)));
    ReferencesExact(t, out, r.value);
  }

  lemma FewerLeft(all: set<U64>, visited: set<U64>, id: U64)
    requires id in all && id !in visited
    ensures |all - (visited + {id})| < |all - visited|
  {
    assert all - visited == (all - (visited + {id})) + {id};
  }

  lemma ReferencesExact(t: Store, ids: seq<U64>, refs: seq<Ref>)
    requires forall id :: id in ids ==> id in t.entries
    requires refs == References(t, SortedUnique(ids))
    ensures forall i, j :: 0 <= i < j < |refs| ==> refs[i].id < refs[j].id
    ensures forall x: Ref :: x in refs <==> x.id in ids && x.generation == t.entries[x.id].generation
  {
    var sorted := SortedUnique(ids);
    forall x: Ref
      ensures x in refs <==> x.id in ids && x.generation == t.entries[x.id].generation
    {
      if x.id in ids && x.generation == t.entries[x.id].generation {
        assert x.id in sorted;
        var k :| 0 <= k < |sorted| && sorted[k] == x.id;
        assert refs[k] == x;
      }
    }
  }

  function Ids(refs: seq<Ref>): (ids: seq<U64>)
    ensures |ids| == |refs| && forall k :: 0 <= k < |refs| ==> ids[k] == refs[k].id
  {
    seq(|refs|, k requires 0 <= k < |refs| => refs[k].id)
  }

  function References(t: Store, ids: seq<U64>): (refs: seq<Ref>)
    requires forall id :: id in ids ==> id in t.entries
    ensures |refs| == |ids| && forall k :: 0 <= k < |ids| ==> refs[k] == Ref(ids[k], t.entries[ids[k]].generation)
  {
    seq(|ids|, k requires 0 <= k < |ids| => Ref(ids[k], t.entries[ids[k]].generation))
  }

  lemma SearchBegins(t: Store, root: U64)
    ensures var s := Search(map[], [[]]); Explores(t, root, s) && Covers(t, s) && ParentsVisited(s)
    ensures Arrive(t, root, []) == Some(root)
  {
    var s := Search(map[], [[]]);
    assert Recorded(s, []);
    forall e | Recorded(s, e)
      ensures e == []
    {
    }
  }

  lemma SeenTwice(t: Store, root: U64, s: Search, id: U64)
    requires Explores(t, root, s) && s.queue != [] && id in s.found && Arrive(t, root, s.queue[0]) == Some(id)
    ensures ReachedTwice(t, root, id)
  {
    assert s.queue[0] in s.queue && s.found[id] !in s.queue;
  }

  lemma FoundStay(t: Store, root: U64, s: Search, id: U64)
    requires Explores(t, root, s) && s.queue != []
    ensures forall x :: x in s.found ==> x in t.entries
    ensures Advance(t, s, id).found.Keys == s.found.Keys + {id}
  {
  }

  lemma QueueFollows(t: Store, root: U64, s: Search, id: U64, pending: seq<U64>)
    requires s.queue != [] && |pending| == |s.queue| && id == pending[0] && id in t.entries
    requires forall i :: 0 <= i < |pending| ==> Arrive(t, root, s.queue[i]) == Some(pending[i])
    ensures var p := pending[1..] + Ids(t.entries[id].lineage);
            var q := Advance(t, s, id).queue;
            |p| == |q| && forall i :: 0 <= i < |p| ==> Arrive(t, root, q[i]) == Some(p[i])
  {
    var p := pending[1..] + Ids(t.entries[id].lineage);
    var q := Advance(t, s, id).queue;
    forall i | 0 <= i < |p|
      ensures Arrive(t, root, q[i]) == Some(p[i])
    {
      if i < |pending| - 1 {
        assert q[i] == s.queue[i + 1] && p[i] == pending[i + 1];
      } else {
        ArriveNext(t, root, s.queue[0], id, i - (|pending| - 1));
      }
    }
  }

  lemma TraceDone(t: Store, root: U64, s: Search)
    requires Explores(t, root, s) && Covers(t, s) && s.queue == []
    ensures forall id :: Reachable(t, root, id) <==> id in s.found
    ensures forall id :: id in s.found ==> id in t.entries
    ensures forall id :: !ReachedTwice(t, root, id)
  {
    forall id: U64
      ensures Reachable(t, root, id) <==> id in s.found
    {
      if Reachable(t, root, id) {
        var d :| Arrive(t, root, d) == Some(id);
        AllFollowed(t, root, s, d, id);
      }
    }
    forall id: U64
      ensures !ReachedTwice(t, root, id)
    {
      if ReachedTwice(t, root, id) {
        var d, e :| d != e && Arrive(t, root, d) == Some(id) && Arrive(t, root, e) == Some(id);
        AllFollowed(t, root, s, d, id);
        AllFollowed(t, root, s, e, id);
      }
    }
  }

  /** lineage_is_authoritative: the whole lineage is traceable and every artifact of it is
      authoritative and VALID. */
  method LineageIsAuthoritative(t: Store, root: U64) returns (ok: bool)
    ensures ok ==> forall id :: Reachable(t, root, id) ==>
              id in t.entries && t.entries[id].authority == Authoritative && t.entries[id].state == Valid
    ensures !ok ==>
              || (exists id :: ReachedTwice(t, root, id))
              || (exists id :: Reachable(t, root, id) &&
                    (id in t.entries ==> t.entries[id].authority != Authoritative || t.entries[id].state != Valid))
  {
    hide Reachable;
    hide ReachedTwice;
    var lineage := TraceLineage(t, root);
    if lineage.Failure? {
      return false;
    }
    var refs := lineage.value;
    var i := 0;
    while i < |refs|
      invariant 0 <= i <= |refs|
      invariant forall k :: 0 <= k < i ==> refs[k].id in t.entries
      invariant forall k :: 0 <= k < i ==> t.entries[refs[k].id].authority == Authoritative
      invariant forall k :: 0 <= k < i ==> t.entries[refs[k].id].state == Valid
    {
      var id := refs[i].id;
      assert refs[i] in refs;
      if t.entries[id].authority != Authoritative || t.entries[id].state != Valid {
        return false;
      }
      i := i + 1;
    }
    forall id | Reachable(t, root, id)
      ensures id in t.entries && t.entries[id].authority == Authoritative && t.entries[id].state == Valid
    {
      assert Ref(id, t.entries[id].generation) in refs;
    }
    ok := true;
  }

  /* ---------- Lineage recorded by execution ---------- */

  /** Every edge points to an artifact with a smaller identity. */
  ghost predicate Descending(t: Store) {
    forall id, k :: id in t.entries && 0 <= k < |t.entries[id].lineage| ==> t.entries[id].lineage[k].id < id
  }

  /** Where edges descend there is no cycle: a descent never comes back. */
  lemma {:induction false} NoCycle(t: Store, root: U64, d: Descent, id: U64)
    requires Descending(t) && Arrive(t, root, d) == Some(id)
    ensures if d == [] then id == root else id < root
    decreases |d|
  {
    if d != [] {
      var before := d[..|d| - 1];
      NoCycle(t, root, before, Arrive(t, root, before).value);
    }
  }

  /** A sample artifact with the given lineage. */
  function Sample(id: U64, lineage: seq<Ref>): Artifact {
    Artifact(id, 1, 0, [], Phases.ZERO_DIGEST, 0, ABSENT, ABSENT, ABSENT, ABSENT, ABSENT, 0, ABSENT, ABSENT, lineage,
             Valid, Authoritative, 0, [], Phases.ZERO_DIGEST, true)
  }

  function Diamond(): Store {
    Store(map[1 := Sample(1, []), 2 := Sample(2, [Ref(1, 1)]), 3 := Sample(3, [Ref(1, 1)]),
              4 := Sample(4, [Ref(2, 1), Ref(3, 1)])], 5)
  }

  /** The refusal reads "lineage contains a cycle", but a complete, acyclic and fully
      authoritative lineage is refused too when two of its artifacts share an ancestor. */
  lemma SharedAncestorRefused()
    ensures Descending(Diamond()) && AllCoupled(Diamond()) && ReachedTwice(Diamond(), 4, 1)
    ensures forall id :: Reachable(Diamond(), 4, id) ==> id in Diamond().entries
  {
    hide Diamond;
    var t := Diamond();
    DiamondShape();
    DiamondReached();
    forall id | Reachable(t, 4, id)
      ensures id in t.entries
    {
      var d :| Arrive(t, 4, d) == Some(id);
      Registered4(t, d);
    }
  }

  lemma DiamondShape()
    ensures Descending(Diamond()) && AllCoupled(Diamond())
  {
  }

  lemma DiamondReached()
    ensures ReachedTwice(Diamond(), 4, 1)
  {
    var t := Diamond();
    assert Arrive(t, 4, []) == Some(4);
    ArriveNext(t, 4, [], 4, 0);
    ArriveNext(t, 4, [], 4, 1);
    assert [] + [0] == [0] && [] + [1] == [1];
    ArriveNext(t, 4, [0], 2, 0);
    ArriveNext(t, 4, [1], 3, 0);
    assert [0] + [0] != [1] + [0] by {
      assert ([0] + [0])[0] != ([1] + [0])[0];
    }
  }

  lemma {:induction false} Registered4(t: Store, d: Descent)
    requires t == Diamond()
    ensures Arrive(t, 4, d).Some? ==> Arrive(t, 4, d).value in t.entries
  {
    if d != [] {
      Registered4(t, d[..|d| - 1]);
    }
  }
}
