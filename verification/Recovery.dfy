/** The restart boundary of a session (recovery_restart_phase in src/core/recovery.cpp:85-118). */
module Recovery {
  import opened StrongId
  import opened Bytes
  import opened Wrappers
  import opened Phases
  import opened PhasePlans
  import opened Ancestry
  import opened Sorting
  import Authority

  /** std::find_if: the first record of a phase, if there is one. */
  function FindPhase(phases: seq<PhaseRecord>, id: U64): Option<PhaseRecord> {
    if phases == [] then None
    else if phases[0].id == id then Some(phases[0])
    else FindPhase(phases[1..], id)
  }

  /** The authority a committed phase was bound to. */
  function BoundOf(p: PhaseRecord): Authority.PhaseAuthority {
    Authority.PhaseAuthority(
      p.sessionGeneration, p.compilationGeneration, p.attemptGeneration, p.generation, p.toolchain, [], p.target,
      p.environment, p.policy, p.source, p.irGeneration, p.lease)
  }

  /** The current observation, with the generations that advance by themselves taken as bound. */
  function ObservedFor(p: PhaseRecord, now: Authority.Observation): Authority.Observation {
    now.(now := now.now.(phaseGeneration := p.generation, attemptGeneration := p.attemptGeneration, sessionGeneration := p.sessionGeneration))
  }

  /** The phase is committed and its authority still holds. */
  predicate StillGood(phases: seq<PhaseRecord>, now: Authority.Observation, id: U64) {
    match FindPhase(phases, id)
    case None => false
    case Some(p) => p.state == Committed && Authority.Compare(BoundOf(p), ObservedFor(p, now)) == Authority.Valid
  }

  /** The first mandatory phase of the order that is not good. */
  function Boundary(plan: PhasePlan, phases: seq<PhaseRecord>, now: Authority.Observation, order: seq<U64>): Option<U64> {
    if order == [] then None
    else if IsMandatory(plan.nodes, order[0]) && !StillGood(phases, now, order[0]) then Some(order[0])
    else Boundary(plan, phases, now, order[1..])
  }

  /** A phase is returned exactly when some mandatory phase is not committed under current
      authority. It is the first such phase, so that all of its mandatory ancestors are. */
  method RestartPhase(plan: PhasePlan, phases: seq<PhaseRecord>, now: Authority.Observation) returns (r: Option<U64>)
    requires IsPlan(plan)
    ensures r.Some? ==> IsMandatory(plan.nodes, r.value) && !StillGood(phases, now, r.value)
    ensures r.Some? ==> forall a :: DependsOn(plan.nodes, r.value, a) && IsMandatory(plan.nodes, a) ==> StillGood(phases, now, a)
    ensures r.None? ==> forall a :: IsMandatory(plan.nodes, a) ==> StillGood(phases, now, a)
    ensures r == Boundary(plan, phases, now, plan.order)
  {
    hide DependsOn;
    hide IsPlan;
    hide IsMandatory;
    hide Authority.Compare;
    var i := 0;
    while i < |plan.order|
      invariant 0 <= i <= |plan.order|
      invariant forall k :: 0 <= k < i && IsMandatory(plan.nodes, plan.order[k]) ==> StillGood(phases, now, plan.order[k])
      invariant Boundary(plan, phases, now, plan.order[i..]) == Boundary(plan, phases, now, plan.order)
    {
      var id := plan.order[i];
      assert plan.order[i..][1..] == plan.order[i + 1..];
      if IsMandatory(plan.nodes, id) {
        var found := FindPhase(phases, id);
        var stop := found.None? || found.value.state != Committed
          || Authority.Compare(BoundOf(found.value), ObservedFor(found.value, now)) != Authority.Valid;
        if stop {
          BoundaryHolds(plan, phases, now, i);
          return Some(id);
        }
      }
      i := i + 1;
    }
    EveryMandatory(plan, phases, now);
    r := None;
  }

  lemma BoundaryHolds(plan: PhasePlan, phases: seq<PhaseRecord>, now: Authority.Observation, i: nat)
    requires IsPlan(plan) && i < |plan.order|
    requires forall k :: 0 <= k < i && IsMandatory(plan.nodes, plan.order[k]) ==> StillGood(phases, now, plan.order[k])
    ensures forall a :: DependsOn(plan.nodes, plan.order[i], a) && IsMandatory(plan.nodes, a) ==> StillGood(phases, now, a)
  {
    hide IsPlan;
    hide DependsOn;
    hide StillGood;
    hide IsMandatory;
    forall a | DependsOn(plan.nodes, plan.order[i], a) && IsMandatory(plan.nodes, a)
      ensures StillGood(phases, now, a)
    {
      AncestorsFirst(plan, i, a);
      var k :| 0 <= k < i && plan.order[..i][k] == a;
      assert plan.order[k] == a;
    }
  }

  lemma EveryMandatory(plan: PhasePlan, phases: seq<PhaseRecord>, now: Authority.Observation)
    requires IsPlan(plan)
    requires forall k :: 0 <= k < |plan.order| && IsMandatory(plan.nodes, plan.order[k]) ==> StillGood(phases, now, plan.order[k])
    ensures forall a :: IsMandatory(plan.nodes, a) ==> StillGood(phases, now, a)
  {
    hide IsPlan;
    hide StillGood;
    OrderIsPermutation(plan);
    forall a: U64 | IsMandatory(plan.nodes, a)
      ensures StillGood(phases, now, a)
    {
      assert HasPhase(plan, a);
      assert a in plan.order;
      var k :| 0 <= k < |plan.order| && plan.order[k] == a;
    }
  }

  /** The planner never fills in the lease of its observation. A committed phase that was
      reserved under a lease therefore never counts as good, and the boundary falls back to the
      first mandatory phase of the order. */
  lemma LeaseNeverMatches(phases: seq<PhaseRecord>, now: Authority.Observation, id: U64)
    requires FindPhase(phases, id).Some? && FindPhase(phases, id).value.lease.Present() && now.now.lease == ABSENT
    ensures !StillGood(phases, now, id)
  {
    var p := FindPhase(phases, id).value;
    Authority.CompareValidIff(BoundOf(p), ObservedFor(p, now));
  }
}
