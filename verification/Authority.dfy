/** Phase authority: the generations a phase was reserved under, the comparison with what
    currently holds, and the leases (include/crf/authority.hpp, src/core/authority.cpp). */
module Authority {
  import opened StrongId
  import opened Bytes
  import opened Wrappers
  import opened Phases

  /** The generations bound at reservation. */
  datatype PhaseAuthority = PhaseAuthority(
    sessionGeneration: U64,
    compilationGeneration: U64,
    attemptGeneration: U64,
    phaseGeneration: U64,
    toolchain: Ref,
    cooperating: seq<Ref>,
    target: Ref,
    environment: Ref,
    policy: Ref,
    source: Ref,
    irGeneration: U64,
    lease: Ref)

  /** The generations that hold now, and which identities are still registered. */
  datatype Observation = Observation(
    now: PhaseAuthority,
    sessionActive: bool,
    toolchainCurrent: bool,
    targetCurrent: bool,
    environmentCurrent: bool,
    policyCurrent: bool,
    sourceCurrent: bool,
    leaseHeld: bool,
    componentCurrent: bool)

  datatype Verdict =
    | Valid | StaleSession | StaleCompilation | StaleAttempt | StalePhase | StaleToolchain
    | StaleTarget | StaleEnvironment | StalePolicy | StaleSource | StaleIr | StaleLease
    | StaleComponent | ToolchainRetired | TargetRetired | EnvironmentRetired | PolicyRetired

  /** A bound reference that moved; an absent one binds nothing. */
  predicate Moved(bound: Ref, now: Ref) {
    bound.Present() && bound != now
  }

  /** compare_authority. */
  function Compare(bound: PhaseAuthority, current: Observation): Verdict
  {
    var now := current.now;
    if !current.sessionActive then StaleSession
    else if bound.sessionGeneration != now.sessionGeneration then StaleSession
    else if bound.compilationGeneration != now.compilationGeneration then StaleCompilation
    else if bound.attemptGeneration != now.attemptGeneration then StaleAttempt
    else if bound.phaseGeneration != now.phaseGeneration then StalePhase
    else if !current.toolchainCurrent then ToolchainRetired
    else if Moved(bound.toolchain, now.toolchain) then StaleToolchain
    else if bound.cooperating != now.cooperating then StaleToolchain
    else if !current.componentCurrent then StaleComponent
    else if !current.targetCurrent then TargetRetired
    else if Moved(bound.target, now.target) then StaleTarget
    else if !current.environmentCurrent then EnvironmentRetired
    else if Moved(bound.environment, now.environment) then StaleEnvironment
    else if !current.policyCurrent then PolicyRetired
    else if Moved(bound.policy, now.policy) then StalePolicy
    else if !current.sourceCurrent then StaleSource
    else if Moved(bound.source, now.source) then StaleSource
    else if bound.irGeneration != 0 && bound.irGeneration != now.irGeneration then StaleIr
    else if bound.lease.Present() && (!current.leaseHeld || bound.lease != now.lease) then StaleLease
    else Valid
  }

  /** Every domain the authority binds still holds. */
  ghost predicate Holds(bound: PhaseAuthority, current: Observation) {
    && current.sessionActive && current.componentCurrent
    && current.toolchainCurrent && current.targetCurrent && current.environmentCurrent
    && current.policyCurrent && current.sourceCurrent
    && bound.sessionGeneration == current.now.sessionGeneration
    && bound.compilationGeneration == current.now.compilationGeneration
    && bound.attemptGeneration == current.now.attemptGeneration
    && bound.phaseGeneration == current.now.phaseGeneration
    && bound.cooperating == current.now.cooperating
    && (bound.toolchain.Present() ==> bound.toolchain == current.now.toolchain)
    && (bound.target.Present() ==> bound.target == current.now.target)
    && (bound.environment.Present() ==> bound.environment == current.now.environment)
    && (bound.policy.Present() ==> bound.policy == current.now.policy)
    && (bound.source.Present() ==> bound.source == current.now.source)
    && (bound.irGeneration != 0 ==> bound.irGeneration == current.now.irGeneration)
    && (bound.lease.Present() ==> current.leaseHeld && bound.lease == current.now.lease)
  }

  /** The verdict is VALID exactly when every bound domain holds. */
  lemma CompareValidIff(bound: PhaseAuthority, current: Observation)
    ensures Compare(bound, current) == Valid <==> Holds(bound, current)
  {
  }

  /* ---------- Leases ---------- */

  datatype Lease = Lease(
    id: U64,
    generation: U64,
    session: Ref,
    phase: Ref,
    grantedAt: U64,
    expiresAt: U64,
    held: bool,
    reason: Text)

  datatype Leases = Leases(entries: map<U64, Lease>, next: U64)

  const NO_LEASES: Leases := Leases(map[], 1)

  function Grant(t: Leases, session: Ref, phase: Ref, at: U64, reason: Text): (r: (Leases, Ref))
    ensures r.1 == Ref(t.next, INITIAL)
  {
    var lease := Lease(t.next, INITIAL, session, phase, at, 0, true, reason);
    var entries := if t.next in t.entries then t.entries else t.entries[t.next := lease];
    (Leases(entries, Next(t.next)), Ref(t.next, INITIAL))
  }

  function Withdrawn(l: Lease, reason: Text): Lease {
    if l.held then l.(held := false, generation := Next(l.generation), reason := reason) else l
  }

  function Revoke(t: Leases, id: U64, reason: Text): Leases {
    if id in t.entries then t.(entries := t.entries[id := Withdrawn(t.entries[id], reason)]) else t
  }

  function RevokePhase(t: Leases, phase: U64, reason: Text): Leases {
    t.(entries := map id | id in t.entries ::
      if t.entries[id].phase.id == phase then Withdrawn(t.entries[id], reason) else t.entries[id])
  }

  predicate IsHeld(t: Leases, reference: Ref, now: U64) {
    && reference.id in t.entries
    && t.entries[reference.id].generation == reference.generation
    && t.entries[reference.id].held
    && (t.entries[reference.id].expiresAt == 0 || now <= t.entries[reference.id].expiresAt)
  }

  /** How a table changes over time: entries are never removed, and an entry that is still held
      has never been touched. */
  ghost predicate LeasesEvolve(a: Leases, b: Leases) {
    && a.next <= b.next
    && forall id :: id in a.entries ==> id in b.entries && (b.entries[id].held ==> b.entries[id] == a.entries[id])
  }

  lemma LeaseOperationsEvolve(t: Leases, session: Ref, phase: Ref, at: U64, reason: Text, id: U64)
    ensures LeasesEvolve(t, Grant(t, session, phase, at, reason).0)
    ensures LeasesEvolve(t, Revoke(t, id, reason))
    ensures LeasesEvolve(t, RevokePhase(t, id, reason))
  {
  }

  lemma LeasesEvolveTransitive(a: Leases, b: Leases, c: Leases)
    requires LeasesEvolve(a, b) && LeasesEvolve(b, c)
    ensures LeasesEvolve(a, c)
  {
  }

  /** A lease that is held now has been held ever since it was granted: nothing un-revokes one. */
  lemma HeldSinceGrant(a: Leases, b: Leases, reference: Ref, now: U64)
    requires LeasesEvolve(a, b) && reference.id in a.entries && IsHeld(b, reference, now)
    ensures IsHeld(a, reference, now)
  {
  }

  /** The leases of the phase that are not still to be visited have been withdrawn. */
  ghost predicate WithdrawnBut(before: map<U64, Lease>, now: map<U64, Lease>, remaining: set<U64>, phase: U64, reason: Text) {
    && now.Keys == before.Keys
    && forall id :: id in before ==>
         now[id] == if id !in remaining && before[id].phase.id == phase then Withdrawn(before[id], reason) else before[id]
  }

  ghost function HeldBut(before: map<U64, Lease>, remaining: set<U64>, phase: U64): set<U64> {
    set id | id in before && id !in remaining && before[id].phase.id == phase && before[id].held
  }

  lemma WithdrawnNone(before: map<U64, Lease>, phase: U64, reason: Text)
    ensures WithdrawnBut(before, before, before.Keys, phase, reason) && HeldBut(before, before.Keys, phase) == {}
  {
  }

  lemma WithdrawOne(before: map<U64, Lease>, now: map<U64, Lease>, remaining: set<U64>, id: U64, phase: U64, reason: Text)
    requires WithdrawnBut(before, now, remaining, phase, reason) && remaining <= before.Keys && id in remaining
    ensures id in now && now[id] == before[id] && id !in HeldBut(before, remaining, phase)
    ensures var l := now[id];
            var rest := remaining - {id};
            if l.phase.id == phase && l.held then
              && WithdrawnBut(before, now[id := l.(held := false, generation := Next(l.generation), reason := reason)], rest, phase, reason)
              && HeldBut(before, rest, phase) == HeldBut(before, remaining, phase) + {id}
            else
              WithdrawnBut(before, now, rest, phase, reason) && HeldBut(before, rest, phase) == HeldBut(before, remaining, phase)
  {
  }

  lemma WithdrawnAll(before: map<U64, Lease>, now: map<U64, Lease>, phase: U64, reason: Text)
    requires WithdrawnBut(before, now, {}, phase, reason)
    ensures HeldBut(before, {}, phase) == set id | id in before && before[id].phase.id == phase && before[id].held
    ensures forall next :: Leases(now, next) == RevokePhase(Leases(before, next), phase, reason)
  {
  }

  /** The lease table (LeaseTable). */
  class LeaseTable {
    var entries: map<U64, Lease>
    var next: U64

    function Value(): Leases
      reads this
    {
      Leases(entries, next)
    }

    constructor ()
      ensures Value() == NO_LEASES
    {
      entries := map[];
      next := 1;
    }

    method GrantLease(session: Ref, phase: Ref, at: U64, reason: Text) returns (reference: Ref)
      modifies this
      ensures (Value(), reference) == Grant(old(Value()), session, phase, at, reason)
      ensures old(next) !in old(entries) ==> IsHeld(Value(), reference, at)
    {
      var lease := Lease(next, INITIAL, session, phase, at, 0, true, reason);
      reference := Ref(next, INITIAL);
      if next !in entries {
        entries := entries[next := lease];
      }
      next := Next(next);
    }

    method RevokeLease(id: U64, reason: Text) returns (found: bool)
      modifies this
      ensures Value() == Revoke(old(Value()), id, reason)
      ensures found == (id in old(entries))
    {
      if id !in entries {
        return false;
      }
      if entries[id].held {
        var l := entries[id];
        entries := entries[id := l.(held := false, generation := Next(l.generation), reason := reason)];
      }
      assert entries == Revoke(old(Value()), id, reason).entries;
      found := true;
    }

    /** revoke_phase walks the table in whatever order the hash map gives. */
    method RevokePhaseLeases(phase: U64, reason: Text) returns (count: nat)
      modifies this
      ensures Value() == RevokePhase(old(Value()), phase, reason)
      ensures count == |set id | id in old(entries) && old(entries[id]).phase.id == phase && old(entries[id]).held|
    {
      hide WithdrawnBut;
      hide HeldBut;
      hide Withdrawn;
      hide RevokePhase;
      ghost var before := entries;
      var remaining := entries.Keys;
      WithdrawnNone(before, phase, reason);
      ghost var hit: set<U64> := {};
      count := 0;
      while remaining != {}
        invariant remaining <= before.Keys && next == old(next)
        invariant WithdrawnBut(before, entries, remaining, phase, reason)
        invariant hit == HeldBut(before, remaining, phase) && count == |hit|
        decreases |remaining|
      {
        var id :| id in remaining;
        WithdrawOne(before, entries, remaining, id, phase, reason);
        remaining := remaining - {id};
        var l := entries[id];
        if l.phase.id == phase && l.held {
          entries := entries[id := l.(held := false, generation := Next(l.generation), reason := reason)];
          count := count + 1;
          hit := hit + {id};
        }
      }
      WithdrawnAll(before, entries, phase, reason);
      assert hit == set id | id in before && before[id].phase.id == phase && before[id].held;
    }

    method LeaseHeld(reference: Ref, now: U64) returns (held: bool)
      ensures held == IsHeld(Value(), reference, now)
    {
      if reference.id !in entries {
        return false;
      }
      var l := entries[reference.id];
      if l.generation != reference.generation {
        return false;
      }
      held := l.held && (l.expiresAt == 0 || now <= l.expiresAt);
    }
  }
}
