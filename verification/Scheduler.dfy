/** The session driver (run_session_impl in src/core/runtime.cpp:1094-1253), run by a single
    caller: it always ends, and says truthfully why. */
module Scheduler {
  import opened StrongId
  import opened Bytes
  import opened Wrappers
  import opened Phases
  import opened PhasePlans
  import opened Ancestry
  import opened Sessions
  import opened Evolution
  import opened Sorting

  /* ---------- Counting what is left ---------- */

  function Uncommitted(s: CompilerSession, ids: seq<U64>): (n: nat)
    ensures n <= |ids|
  {
    if ids == [] then 0
    else (if HasCommitted(s, ids[0]) then 0 else 1) + Uncommitted(s, ids[1..])
  }

  /** Committing one more phase, and losing none, leaves fewer. */
  lemma {:induction false} FewerLeft(s: CompilerSession, t: CompilerSession, ids: seq<U64>, id: U64)
    requires forall x :: HasCommitted(s, x) ==> HasCommitted(t, x)
    ensures Uncommitted(t, ids) <= Uncommitted(s, ids)
    ensures id in ids && !HasCommitted(s, id) && HasCommitted(t, id) ==> Uncommitted(t, ids) < Uncommitted(s, ids)
  {
    if ids != [] {
      FewerLeft(s, t, ids[1..], id);
      assert ids == [ids[0]] + ids[1..];
    }
  }

  /* ---------- Rounds ---------- */

  /** States the driver passes over. */
  predicate Passed(s: PhaseState) {
    s in {Committed, Failed, Fenced, Cancelled, Retired}
  }

  /** The driver may start this phase now. */
  ghost predicate CanStart(s: CompilerSession, id: U64) {
    && id in s.phases && !Passed(s.phases[id].state)
    && HasPhase(s.plan, id)
    && forall d :: d in Dependencies(s.plan.nodes, id) ==> d in s.plan.order && HasCommitted(s, d)
  }

  /** The phases the driver may start, in plan order. */
  method ReadyPhases(s: CompilerSession) returns (ready: seq<U64>)
    ensures forall id :: id in ready <==> id in s.plan.order && CanStart(s, id)
    ensures InOrderOf(ready, s.plan.order)
  {
    hide HasPhase;
    hide Dependencies;
    var committed := CommittedPhases(s);
    ready := [];
    ghost var at: seq<nat> := [];
    var i := 0;
    while i < |s.plan.order|
      invariant 0 <= i <= |s.plan.order| && StandsAt(ready, at, s.plan.order) && (at != [] ==> at[|at| - 1] < i)
      invariant forall id :: id in ready <==> id in s.plan.order[..i] && CanStart(s, id)
    {
      var id := s.plan.order[i];
      assert s.plan.order[..i + 1] == s.plan.order[..i] + [id];
      if id in s.phases && !Passed(s.phases[id].state) {
        var isReady := IsReady(s.plan, id, committed);
        if isReady {
          ready := ready + [id];
          at := at + [i];
        }
      }
      i := i + 1;
    }
    assert s.plan.order[..i] == s.plan.order;
  }

  /** The phase named when the session cannot progress. */
  method FirstUncommitted(s: CompilerSession) returns (blocked: Option<U64>)
    ensures blocked.None? <==> forall id :: id in s.plan.order && id in s.phases ==> HasCommitted(s, id)
    ensures blocked.Some? ==> IsFirstUncommitted(s, blocked.value)
  {
    var i := 0;
    while i < |s.plan.order|
      invariant 0 <= i <= |s.plan.order|
      invariant forall j :: 0 <= j < i && s.plan.order[j] in s.phases ==> HasCommitted(s, s.plan.order[j])
    {
      var id := s.plan.order[i];
      if id in s.phases && s.phases[id].state != Committed {
        return Some(id);
      }
      i := i + 1;
    }
    blocked := None;
  }

  ghost predicate IsFirstUncommitted(s: CompilerSession, id: U64) {
    exists k :: 0 <= k < |s.plan.order| && s.plan.order[k] == id && id in s.phases && !HasCommitted(s, id)
                && forall j :: 0 <= j < k && s.plan.order[j] in s.phases ==> HasCommitted(s, s.plan.order[j])
  }

  /** If nothing can start, the first uncommitted phase has failed for good, was cancelled, was
      fenced, or was retired: its dependencies, which come earlier, are all committed. */
  lemma BlockedReason(s: CompilerSession, id: U64)
    requires SessionSound(s) && IsFirstUncommitted(s, id)
    requires forall x :: x in s.plan.order ==> !CanStart(s, x)
    ensures s.phases[id].state in {Failed, Fenced, Cancelled, Retired}
  {
    hide RecordSound;
    hide DependenciesCommitted;
    hide IsPlan;
    hide Dependencies;
    var k :| 0 <= k < |s.plan.order| && s.plan.order[k] == id && id in s.phases && !HasCommitted(s, id)
             && forall j :: 0 <= j < k && s.plan.order[j] in s.phases ==> HasCommitted(s, s.plan.order[j]);
    OrderIsPermutation(s.plan);
    forall d | d in Dependencies(s.plan.nodes, id)
      ensures d in s.plan.order && HasCommitted(s, d)
    {
      DependenciesFirst(s.plan, k, d);
      var j :| 0 <= j < k && s.plan.order[..k][j] == d;
      assert s.plan.order[j] == d && d in s.plan.order;
      assert HasPhase(s.plan, d);
    }
    assert !CanStart(s, id);
  }

  /** What running some phases may do when nobody else acts on the session: they change in any
      way the protocol allows, and the others stay as they are. */
  ghost predicate RoundResult(s: CompilerSession, batch: seq<U64>, t: CompilerSession) {
    && SessionSound(t) && SessionEvolves(s, t)
    && (forall id :: HasCommitted(s, id) ==> HasCommitted(t, id))
    && forall id :: id in s.phases && id !in batch ==> t.phases[id].state == s.phases[id].state
  }

  datatype DriverOutcome =
    | Finished
    | CannotProgress(blocked: Option<U64>)
    | Stalled(phase: U64, closed: bool) // closed: the driver has put the session in state FAILED
    | CeilingReached

  /** The first phase of a batch that did not report COMMITTED. */
  method FirstMissing(s: CompilerSession, batch: seq<U64>) returns (missing: Option<U64>)
    ensures missing.None? <==> forall id :: id in batch ==> HasCommitted(s, id)
    ensures missing.Some? ==> missing.value in batch && !HasCommitted(s, missing.value)
  {
    var i := 0;
    while i < |batch|
      invariant 0 <= i <= |batch|
      invariant forall j :: 0 <= j < i ==> HasCommitted(s, batch[j])
    {
      if !HasCommitted(s, batch[i]) {
        return Some(batch[i]);
      }
      i := i + 1;
    }
    missing := None;
  }

  lemma OrderFacts(s: CompilerSession)
    requires SessionSound(s)
    ensures |s.plan.order| == |s.plan.nodes|
  {
    hide RecordSound;
    OrderIsPermutation(s.plan);
  }

  lemma CeilingIsHigh(n: nat, retries: nat)
    ensures n + 1 <= n * (retries + 2) + 16
  {
    assert n * (retries + 2) == n * retries + n * 2;
    assert n * retries >= 0;
  }

  lemma AllDone(s: CompilerSession)
    requires SessionSound(s) && MandatoryDone(s)
    ensures forall id :: HasPhase(s.plan, id) ==> HasCommitted(s, id)
  {
    hide SessionSound;
    hide MandatoryDone;
    forall id: U64 | HasPhase(s.plan, id)
      ensures HasCommitted(s, id)
    {
      MandatoryMeansAll(s, id);
    }
  }

  lemma Blocked(s: CompilerSession, blocked: Option<U64>)
    requires SessionSound(s) && !MandatoryDone(s)
    requires forall id :: id in s.plan.order ==> !CanStart(s, id)
    requires blocked.None? <==> forall id :: id in s.plan.order && id in s.phases ==> HasCommitted(s, id)
    requires blocked.Some? ==> IsFirstUncommitted(s, blocked.value)
    ensures blocked.Some? && s.phases[blocked.value].state in {Failed, Fenced, Cancelled, Retired}
  {
    hide IsPlan;
    hide RecordSound;
    hide DependenciesCommitted;
    var k :| 0 <= k < |s.plan.nodes| && s.plan.nodes[k].mandatory && !HasCommitted(s, s.plan.nodes[k].id);
    var id := s.plan.nodes[k].id;
    assert HasPhase(s.plan, id);
    OrderIsPermutation(s.plan);
    assert id in s.phases && id in s.plan.order;
    hide IsFirstUncommitted;
    hide CanStart;
    BlockedReason(s, blocked.value);
  }

  lemma BatchKnown(s: CompilerSession, t: CompilerSession, ready: seq<U64>, batch: seq<U64>)
    requires RoundResult(s, batch, t) && (forall id :: id in batch ==> id in ready)
    requires forall id :: id in ready <==> id in s.plan.order && CanStart(s, id)
    ensures forall id :: id in batch ==> id in t.phases
  {
    hide SessionSound;
  }

  /** A completed round commits the first ready phase, so that less is left. */
  lemma RoundProgress(s: CompilerSession, t: CompilerSession, ready: seq<U64>, batch: seq<U64>)
    requires RoundResult(s, batch, t) && t.plan == s.plan && batch != [] && batch[0] in ready
    requires forall id :: id in ready <==> id in s.plan.order && CanStart(s, id)
    requires forall id :: id in batch ==> HasCommitted(t, id)
    ensures Uncommitted(t, t.plan.order) < Uncommitted(s, s.plan.order)
  {
    hide SessionSound;
    hide SessionEvolves;
    assert batch[0] in batch;
    FewerLeft(s, t, s.plan.order, batch[0]);
  }
}
