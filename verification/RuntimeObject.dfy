/** The runtime as the source keeps it: fields updated in place under one lock. Each method runs
    one lock-protected section and leaves the fields as the step function of that section says
    (src/core/runtime.cpp). */
module RuntimeObject {
  import opened StrongId
  import opened Bytes
  import opened Wrappers
  import opened Phases
  import opened PhasePlans
  import opened Ancestry
  import opened Sessions
  import opened Sorting
  import opened Runtime
  import opened Evolution
  import opened Safety
  import Registries
  import Authority
  import Artifacts

  /* ---------- Loops over values ---------- */

  /** resolve_inputs, over the dependencies of a phase and their outputs. */
  method CollectInputs(s: CompilerSession, store: Artifacts.Store, deps: seq<U64>) returns (ids: Option<seq<U64>>)
    ensures ids.Some? <==> (forall d :: d in deps ==> HasCommitted(s, d)) && AllUsable(store, ProducedIds(s, deps))
    ensures ids.Some? ==> ids.value == ProducedIds(s, deps)
  {
    hide Usable;
    hide ProducedIds;
    var found: seq<U64> := [];
    var i := 0;
    assert deps[0..] == deps && found + ProducedIds(s, deps) == ProducedIds(s, deps);
    while i < |deps|
      invariant 0 <= i <= |deps|
      invariant found + ProducedIds(s, deps[i..]) == ProducedIds(s, deps)
      invariant forall j :: 0 <= j < i ==> HasCommitted(s, deps[j])
      invariant AllUsable(store, found)
    {
      var d := deps[i];
      if d !in s.phases || s.phases[d].state != Committed {
        assert d in deps;
        return None;
      }
      var outputs := OutputIds(s.phases[d].outputs);
      NextProduced(s, deps, i, found);
      var usable := CheckUsable(store, outputs);
      if !usable {
        ghost var bad :| bad in outputs && !Usable(store, bad);
        assert bad in (found + outputs) + ProducedIds(s, deps[i + 1..]);
        return None;
      }
      found := found + outputs;
      i := i + 1;
    }
    assert deps[i..] == [];
    ProducedNothing(s, found);
    ids := Some(found);
  }

  lemma NextProduced(s: CompilerSession, deps: seq<U64>, i: nat, found: seq<U64>)
    requires i < |deps| && deps[i] in s.phases
    ensures found + ProducedIds(s, deps[i..])
         == (found + OutputIds(s.phases[deps[i]].outputs)) + ProducedIds(s, deps[i + 1..])
  {
    assert deps[i..][1..] == deps[i + 1..];
  }

  lemma ProducedNothing(s: CompilerSession, found: seq<U64>)
    ensures found + ProducedIds(s, []) == found
  {
  }

  method CheckUsable(store: Artifacts.Store, ids: seq<U64>) returns (ok: bool)
    ensures ok <==> AllUsable(store, ids)
  {
    var i := 0;
    while i < |ids|
      invariant 0 <= i <= |ids|
      invariant forall j :: 0 <= j < i ==> Usable(store, ids[j])
    {
      if ids[i] !in store.entries || store.entries[ids[i]].authority != Artifacts.Authoritative || store.entries[ids[i]].state != Artifacts.Valid {
        assert ids[i] in ids;
        return false;
      }
      i := i + 1;
    }
    ok := true;
  }

  method ResolveInputsOf(store: Artifacts.Store, s: CompilerSession, p: PhaseRecord, ghost w: World) returns (inputs: Option<seq<Ref>>)
    requires w.artifacts == store
    ensures inputs == ResolveInputs(w, s, p)
  {
    hide ProducedIds;
    hide AllUsable;
    var k := IndexOfId(s.plan.nodes, p.id);
    if k == |s.plan.nodes| {
      return None;
    }
    var node := s.plan.nodes[k];
    var ids := CollectInputs(s, store, node.dependsOn);
    if ids.None? {
      return None;
    }
    UsableRegistered(store, ids.value);
    var refs := LatestRefs(store, SortedUnique(ids.value));
    if node.fanIn && |refs| < node.requiredInputs {
      return None;
    }
    inputs := Some(refs);
  }

  lemma UsableRegistered(t: Artifacts.Store, ids: seq<U64>)
    requires AllUsable(t, ids)
    ensures forall id :: id in SortedUnique(ids) ==> id in t.entries
  {
  }

  /** Applies a state to each output in turn, stopping at one that is not registered. */
  method SetOutputStates(store: Artifacts.Store, ids: seq<U64>, state: Artifacts.ArtifactState, detail: Text) returns (t: Artifacts.Store, ok: bool)
    ensures t == SetStates(store, ids, state, detail)
    ensures ok <==> AllRegistered(store, ids)
  {
    t, ok := store, true;
    var i := 0;
    while i < |ids|
      invariant 0 <= i <= |ids| && t.entries.Keys == store.entries.Keys
      invariant SetStates(t, ids[i..], state, detail) == SetStates(store, ids, state, detail)
      invariant forall j :: 0 <= j < i ==> ids[j] in store.entries
    {
      if ids[i] !in t.entries {
        return t, false;
      }
      assert ids[i..][1..] == ids[i + 1..];
      t := Artifacts.SetState(t, ids[i], state, detail);
      i := i + 1;
    }
    assert ids[i..] == [];
  }

  /** Makes the outputs authoritative in turn, stopping at one that is not VALID. */
  method AuthorizeOutputs(store: Artifacts.Store, ids: seq<U64>) returns (t: Artifacts.Store, ok: bool)
    ensures t == Authorized(store, ids)
    ensures ok <==> AllMayHold(store, ids)
  {
    t, ok := store, true;
    var i := 0;
    while i < |ids|
      invariant 0 <= i <= |ids| && SameStates(store, t)
      invariant Authorized(t, ids[i..]) == Authorized(store, ids)
      invariant forall j :: 0 <= j < i ==> Artifacts.MayHold(store, ids[j], Artifacts.Authoritative)
    {
      if ids[i] !in t.entries || t.entries[ids[i]].state != Artifacts.Valid {
        assert ids[i] in ids;
        return t, false;
      }
      assert ids[i..][1..] == ids[i + 1..];
      t := Artifacts.SetAuthority(t, ids[i], Artifacts.Authoritative);
      i := i + 1;
    }
    assert ids[i..] == [];
  }

  ghost predicate SameStates(a: Artifacts.Store, b: Artifacts.Store) {
    a.entries.Keys == b.entries.Keys && forall id :: id in a.entries ==> a.entries[id].state == b.entries[id].state
  }

  /** Registers the reported outputs one by one. */
  method RegisterReported(store: Artifacts.Store, s: CompilerSession, p: PhaseRecord, invocation: Ref, outputs: seq<OutputDescriptor>)
    returns (reg: Registration)
    ensures reg == RegisterOutputs(store, s, p, invocation, outputs)
  {
    var t := store;
    var refs: seq<Ref> := [];
    var i := 0;
    while i < |outputs|
      invariant 0 <= i <= |outputs|
      invariant RegisterOutputs(store, s, p, invocation, outputs) == Prepend(refs, RegisterOutputs(t, s, p, invocation, outputs[i..]))
    {
      assert outputs[i..][1..] == outputs[i + 1..];
      if |t.entries| >= Artifacts.MAX_ARTIFACTS {
        assert refs + [] == refs;
        return Registration(t, refs, false);
      }
      ghost var rest := RegisterOutputs(Artifacts.Registered(t, CandidateFor(s, p, invocation, outputs[i])), s, p, invocation, outputs[i + 1..]);
      assert refs + ([Ref(t.next, INITIAL)] + rest.refs) == refs + [Ref(t.next, INITIAL)] + rest.refs;
      refs := refs + [Ref(t.next, INITIAL)];
      t := Artifacts.Registered(t, CandidateFor(s, p, invocation, outputs[i]));
      i := i + 1;
    }
    assert outputs[i..] == [] && refs + [] == refs;
    reg := Registration(t, refs, true);
  }

  function Prepend(refs: seq<Ref>, reg: Registration): Registration {
    reg.(refs := refs + reg.refs)
  }

  /** fence_all_in_flight. */
  method FenceAllInFlight(s: CompilerSession, artifacts: Artifacts.Store, leases: Authority.Leases, now: U64, reason: Text)
    returns (phases: map<U64, PhaseRecord>, t: Artifacts.Store, l: Authority.Leases)
    ensures phases == FencedPhases(s, now, reason)
    ensures t == FencedArtifacts(artifacts, s, s.plan.order, reason)
    ensures l == FencedLeases(leases, s, s.plan.order, reason)
  {
    hide FencedRecord;
    hide FencedArtifacts;
    hide FencedLeases;
    hide FencedPhases;
    hide FencedUpTo;
    hide Artifacts.RevokeOutputs;
    hide Authority.Revoke;
    var order := s.plan.order;
    phases, t, l := s.phases, artifacts, leases;
    var i := 0;
    assert order[0..] == order && order[..0] == [];
    FencedNone(s, now, reason);
    while i < |order|
      invariant 0 <= i <= |order| && FencedUpTo(phases, s, order[..i], now, reason)
      invariant FencedArtifacts(t, s, order[i..], reason) == FencedArtifacts(artifacts, s, order, reason)
      invariant FencedLeases(l, s, order[i..], reason) == FencedLeases(leases, s, order, reason)
    {
      var id := order[i];
      assert order[..i + 1] == order[..i] + [id];
      FencingStep(t, l, s, order, i, reason);
      FencedMore(phases, s, order[..i], id, now, reason);
      if id in s.phases && InFlight(s.phases[id].state) {
        phases := phases[id := FencedRecord(s.phases[id], now, reason)];
        t := Artifacts.RevokeOutputs(t, s.phases[id].id, s.phases[id].generation, reason);
        l := Authority.Revoke(l, s.phases[id].lease.id, reason);
      }
      i := i + 1;
    }
    assert order[..i] == order && order[i..] == [];
    FencingDone(t, l, s, reason);
    FencedDone(phases, s, now, reason);
  }

  /** The phases in done that were in flight are fenced; the others are as they were. */
  ghost predicate FencedUpTo(phases: map<U64, PhaseRecord>, s: CompilerSession, done: seq<U64>, now: U64, reason: Text) {
    && phases.Keys == s.phases.Keys
    && forall id :: id in s.phases ==> phases[id] == FencedIf(s.phases[id], id in done, now, reason)
  }

  lemma FencedMore(phases: map<U64, PhaseRecord>, s: CompilerSession, done: seq<U64>, id: U64, now: U64, reason: Text)
    requires FencedUpTo(phases, s, done, now, reason)
    ensures id in s.phases && InFlight(s.phases[id].state) ==>
              FencedUpTo(phases[id := FencedRecord(s.phases[id], now, reason)], s, done + [id], now, reason)
    ensures !(id in s.phases && InFlight(s.phases[id].state)) ==> FencedUpTo(phases, s, done + [id], now, reason)
  {
    hide FencedRecord;
  }

  lemma FencedNone(s: CompilerSession, now: U64, reason: Text)
    ensures FencedUpTo(s.phases, s, [], now, reason)
  {
  }

  lemma FencedDone(phases: map<U64, PhaseRecord>, s: CompilerSession, now: U64, reason: Text)
    requires FencedUpTo(phases, s, s.plan.order, now, reason)
    ensures phases == FencedPhases(s, now, reason)
  {
    hide FencedRecord;
  }

  lemma FencingStep(t: Artifacts.Store, l: Authority.Leases, s: CompilerSession, order: seq<U64>, i: nat, reason: Text)
    requires i < |order|
    ensures var id := order[i];
            var fenced := id in s.phases && InFlight(s.phases[id].state);
            && FencedArtifacts(t, s, order[i..], reason)
                 == FencedArtifacts(if fenced then Artifacts.RevokeOutputs(t, s.phases[id].id, s.phases[id].generation, reason) else t,
                                    s, order[i + 1..], reason)
            && FencedLeases(l, s, order[i..], reason)
                 == FencedLeases(if fenced then Authority.Revoke(l, s.phases[id].lease.id, reason) else l, s, order[i + 1..], reason)
  {
    hide Artifacts.RevokeOutputs;
    hide Authority.Revoke;
    assert order[i..][1..] == order[i + 1..];
  }

  lemma FencingDone(t: Artifacts.Store, l: Authority.Leases, s: CompilerSession, reason: Text)
    ensures FencedArtifacts(t, s, [], reason) == t && FencedLeases(l, s, [], reason) == l
  {
  }

  function FencedIf(p: PhaseRecord, reached: bool, now: U64, reason: Text): PhaseRecord {
    if reached && InFlight(p.state) then FencedRecord(p, now, reason) else p
  }

  /** The loop of retire_session. */
  method RetireAll(s: CompilerSession, leases: Authority.Leases, now: U64, reason: Text)
    returns (phases: map<U64, PhaseRecord>, l: Authority.Leases)
    ensures phases == RetiredPhases(s, now, reason)
    ensures l == RetiredLeases(leases, s, s.plan.order, reason)
  {
    hide RecordTransition;
    hide Authority.Revoke;
    hide RetiredPhases;
    hide RetiredUpTo;
    var order := s.plan.order;
    phases, l := s.phases, leases;
    var i := 0;
    assert order[..0] == [];
    RetiredNone(s, now, reason);
    while i < |order|
      invariant 0 <= i <= |order| && RetiredUpTo(phases, s, order[..i], now, reason)
      invariant RetiredLeases(l, s, order[i..], reason) == RetiredLeases(leases, s, order, reason)
    {
      var id := order[i];
      assert order[..i + 1] == order[..i] + [id];
      assert order[i..][1..] == order[i + 1..];
      RetiredMore(phases, s, order[..i], id, now, reason);
      if id in s.phases {
        l := Authority.Revoke(l, s.phases[id].lease.id, reason);
        phases := phases[id := RecordTransition(s.phases[id], Retired, now, reason)];
      }
      i := i + 1;
    }
    assert order[..i] == order && order[i..] == [];
    RetiredDone(phases, s, now, reason);
  }

  ghost predicate RetiredUpTo(phases: map<U64, PhaseRecord>, s: CompilerSession, done: seq<U64>, now: U64, reason: Text) {
    && phases.Keys == s.phases.Keys
    && forall id :: id in s.phases ==> phases[id] == RetiredIf(s.phases[id], id in done, now, reason)
  }

  lemma RetiredMore(phases: map<U64, PhaseRecord>, s: CompilerSession, done: seq<U64>, id: U64, now: U64, reason: Text)
    requires RetiredUpTo(phases, s, done, now, reason)
    ensures id in s.phases ==> RetiredUpTo(phases[id := RecordTransition(s.phases[id], Retired, now, reason)], s, done + [id], now, reason)
    ensures id !in s.phases ==> RetiredUpTo(phases, s, done + [id], now, reason)
  {
    hide RecordTransition;
  }

  lemma RetiredNone(s: CompilerSession, now: U64, reason: Text)
    ensures RetiredUpTo(s.phases, s, [], now, reason)
  {
  }

  lemma RetiredDone(phases: map<U64, PhaseRecord>, s: CompilerSession, now: U64, reason: Text)
    requires RetiredUpTo(phases, s, s.plan.order, now, reason)
    ensures phases == RetiredPhases(s, now, reason)
  {
    hide RecordTransition;
  }

  function RetiredIf(p: PhaseRecord, reached: bool, now: U64, reason: Text): PhaseRecord {
    if reached then RecordTransition(p, Retired, now, reason) else p
  }

  /* ---------- The runtime ---------- */

  class RuntimeImpl {
    var shuttingDown: bool
    var domains: Domains
    var sessions: map<U64, CompilerSession>
    var artifacts: Artifacts.Store
    var leases: Authority.Leases
    var next: Counters
    var log: seq<Bundle>
    ghost var owed: multiset<Grant>
    ghost var plans: multiset<RecoveryPlan>
    ghost var issued: set<Reservation>
    ghost var commits: seq<CommitEvent>

    ghost function State(): World
      reads this
    {
      World(shuttingDown, domains, sessions, artifacts, leases, next, log, owed, plans, issued, commits)
    }

    /** What every section finds and leaves: histories, dependency order, commits and journal are
        in order. */
    ghost predicate Valid()
      reads this
    {
      Sound(State())
    }

    constructor ()
      ensures State() == Initial() && Valid()
    {
      var w := Initial();
      shuttingDown, domains, sessions := w.shuttingDown, w.domains, w.sessions;
      artifacts, leases, next, log := w.artifacts, w.leases, w.next, w.log;
      owed, plans, issued, commits := multiset{}, multiset{}, {}, [];
    }

    /** persist: the durable projection of a session is appended, or refused. */
    method Persist(s: CompilerSession, env: Ambient)
      modifies this`log
      ensures log == Logged(old(State()), s, env)
    {
      if env.appended {
        var ids := Sorted(OutputIds(s.intermediates));
        log := log + [Bundle(s, Found(artifacts, ids), env.extras)];
      }
    }

    /** The session is stored and persisted. */
    method Save(s: CompilerSession, env: Ambient)
      modifies this`sessions, this`log
      ensures State() == Put(old(State()), s, env)
    {
      sessions := sessions[s.id := s];
      Persist(s, env);
    }

    /** shutdown's first pass over a session. */
    method Fence(session: U64, now: U64, reason: Text)
      requires Valid()
      modifies this`sessions, this`artifacts, this`leases
      ensures State() == FenceSession(old(State()), session, now, reason)
      ensures Valid() && Grows(old(State()), State())
    {
      hide Sound;
      hide Grows;
      hide SessionSound;
      hide FencedPhases;
      hide FencedArtifacts;
      hide FencedLeases;
      FenceSessionSound(State(), session, now, reason);
      if session !in sessions || Closing(sessions[session]) {
        return;
      }
      SessionAt(State(), session);
      var s := sessions[session];
      var phases: map<U64, PhaseRecord>;
      phases, artifacts, leases := FenceAllInFlight(s, artifacts, leases, now, reason);
      sessions := sessions[session := s.(phases := phases)];
    }

    /** retire_session. */
    method Retire(session: U64, reason: Text, env: Ambient) returns (found: bool)
      requires Valid()
      modifies this`sessions, this`leases, this`log
      ensures found == (session in old(sessions))
      ensures State() == RetireSession(old(State()), session, reason, env)
      ensures Valid() && Grows(old(State()), State())
    {
      hide Sound;
      hide Grows;
      hide SessionSound;
      hide RetiredPhases;
      hide RetiredLeases;
      hide Put;
      hide Advanced;
      hide WithPhase;
      hide Runtime.BundleOf;
      RetireSessionSound(State(), session, reason, env);
      if session !in sessions {
        return false;
      }
      SessionAt(State(), session);
      var s := sessions[session];
      var phases: map<U64, PhaseRecord>;
      phases, leases := RetireAll(s, leases, env.now, reason);
      Save(Advanced(s.(phases := phases, state := SessionRetired, failureDetail := reason), env.now), env);
      found := true;
    }

    /** validate_phase_outputs, once the adapter has answered. */
    method ValidateOutputs(r: Reservation, e: Evidence, env: Ambient) returns (done: bool)
      requires Valid() && r in issued
      modifies this`sessions, this`artifacts, this`log
      ensures State() == Validate(old(State()), r, e, env)
      ensures Valid() && Grows(old(State()), State())
    {
      hide Sound;
      hide Grows;
      hide SessionSound;
      hide PhaseIn;
      hide RecordTransition;
      hide SetStates;
      hide Put;
      hide Advanced;
      hide WithPhase;
      hide Runtime.BundleOf;
      ValidateSound(State(), r, e, env);
      if r.session !in sessions || r.phase !in sessions[r.session].phases {
        return false;
      }
      Located(State(), r.session, r.phase);
      var s := sessions[r.session];
      var p := s.phases[r.phase];
      var registered: bool;
      artifacts, registered := SetOutputStates(artifacts, OutputIds(p.outputs), EvidenceState(e), e.detail);
      if !registered {
        return false;
      }
      if !e.accepted {
        p := p.(failure := e.failure, lastStatus := e.refusal, lastDetail := e.detail,
                attempts := CloseAttempt(p.attempts, Failed, e.failure));
        p := RecordTransition(p, Failed, env.now, e.detail);
      } else {
        p := RecordTransition(p, CommitReady, env.now, ACCEPTED);
      }
      Save(WithPhase(s, p).(updatedAt := env.now), env);
      done := true;
    }

    /** reserve: the checks, then the binding of the phase to the current authority. */
    method ReservePhase(session: U64, phase: U64, isRetry: bool, workspace: bool, env: Ambient) returns (r: Option<Reservation>)
      requires Valid() && (isRetry ==> Grant(session, phase) in owed)
      modifies this`sessions, this`leases, this`next, this`log, this`issued, this`owed
      ensures State() == Reserve(old(State()), session, phase, isRetry, workspace, env)
      ensures r.Some? <==> Reservable(old(State()), session, phase, isRetry) && workspace && env.appended
      ensures r.Some? ==> r.value in issued
      ensures Valid() && Grows(old(State()), State())
    {
      hide Sound;
      hide Grows;
      hide SessionSound;
      hide PhaseIn;
      hide Reservable;
      hide ReservedSession;
      hide ResolveInputs;
      hide Runtime.BundleOf;
      hide Authority.Grant;
      ReserveSound(State(), session, phase, isRetry, workspace, env);
      var inputs := CheckReservable(session, phase, isRetry);
      if inputs.None? {
        owed := Collected(owed, session, phase, isRetry);
        return None;
      }
      if !workspace {
        next := next.(attempt := Next(next.attempt), invocation := Next(next.invocation));
        owed := Collected(owed, session, phase, isRetry);
        return None;
      }
      Located(State(), session, phase);
      r := Bind(session, phase, isRetry, inputs.value, env);
    }

    /** ... the binding: a fresh invocation, attempt and lease, and the inputs that were resolved. */
    method Bind(session: U64, phase: U64, isRetry: bool, inputs: seq<Ref>, env: Ambient) returns (r: Option<Reservation>)
      requires Reservable(State(), session, phase, isRetry) && HasRecord(State(), session, phase)
      requires ResolveInputs(State(), sessions[session], sessions[session].phases[phase]) == Some(inputs)
      requires sessions[session].id == session && sessions[session].phases[phase].id == phase
      modifies this`sessions, this`leases, this`next, this`log, this`issued, this`owed
      ensures State() == Reserve(old(State()), session, phase, isRetry, true, env)
      ensures r.Some? <==> env.appended
      ensures r.Some? ==> r.value in issued
    {
      hide Reservable;
      hide ResolveInputs;
      hide Runtime.BundleOf;
      hide Prepared;
      hide Authority.Grant;
      var s := sessions[session];
      var p := s.phases[phase];
      var invocation, attempt := next.invocation, next.attempt;
      next := next.(attempt := Next(attempt), invocation := Next(invocation));
      owed := Collected(owed, session, phase, isRetry);
      var granted := Authority.Grant(leases, Ref(session, s.generation), Ref(phase, Next(p.generation)), env.now, RESERVED);
      var bound := Bound(s, p, isRetry, inputs, Ref(invocation, INITIAL), attempt, Ref(leases.next, INITIAL), env.now);
      var q := Prepared(bound, env.now);
      leases := granted.0;
      var t := Advanced(WithPhase(s, q), env.now).(attemptGeneration := q.attemptGeneration, currentPhase := phase);
      PreparedId(bound, env.now);
      Save(t, env);
      if !env.appended {
        return None;
      }
      var reservation := ReservationFor(t, q);
      issued := issued + {reservation};
      r := Some(reservation);
    }

    /** The checks of reserve; on success, the inputs it resolved. */
    method CheckReservable(session: U64, phase: U64, isRetry: bool) returns (inputs: Option<seq<Ref>>)
      requires isRetry ==> Grant(session, phase) in owed
      ensures inputs.Some? <==> Reservable(State(), session, phase, isRetry)
      ensures inputs.Some? ==> HasRecord(State(), session, phase)
      ensures inputs.Some? ==> inputs == ResolveInputs(State(), sessions[session], sessions[session].phases[phase])
    {
      hide ResolveInputs;
      hide Authority.Compare;
      hide HasPhase;
      hide Dependencies;
      if shuttingDown || session !in sessions {
        return None;
      }
      var s := sessions[session];
      if !AdmitsNewAuthority(s.state) || phase !in s.phases {
        return None;
      }
      var p := s.phases[phase];
      if p.state !in {Pending, Ready, Failed, RecoveryRequired} {
        return None;
      }
      if (isRetry && p.state !in {Failed, RecoveryRequired}) || (!isRetry && p.state == Failed) {
        return None;
      }
      var committed := CommittedPhases(s);
      var ready := IsReady(s.plan, phase, committed);
      if !ready {
        return None;
      }
      var verdict := Authority.Compare(
        AuthorityOf(s, p.(lease := ABSENT)),
        Runtime.Observe(domains, s, s.generation, if p.attemptGeneration != 0 then p.attemptGeneration else s.attemptGeneration,
                        p.generation, ABSENT, true));
      if verdict != Authority.Valid {
        return None;
      }
      inputs := ResolveInputsOf(artifacts, s, p, State());
      if |p.attempts| >= MAX_ATTEMPTS {
        inputs := None;
      }
    }

    /** record_execution: a report for a reservation the phase no longer belongs to changes nothing. */
    method Record(r: Reservation, report: Report, env: Ambient) returns (done: bool)
      requires Valid() && r in issued
      modifies this`sessions, this`artifacts, this`log
      ensures State() == RecordExecution(old(State()), r, report, env)
      ensures Valid() && Grows(old(State()), State())
    {
      hide Sound;
      hide Grows;
      hide SessionSound;
      hide PhaseIn;
      hide RecordCurrent;
      hide RecordTransition;
      hide RegisterOutputs;
      hide Put;
      hide WithPhase;
      hide ReportedAttempt;
      hide Runtime.BundleOf;
      RecordExecutionSound(State(), r, report, env);
      if r.session !in sessions || r.phase !in sessions[r.session].phases {
        return false;
      }
      Located(State(), r.session, r.phase);
      var p := sessions[r.session].phases[r.phase];
      if p.generation != r.generation || p.activeInvocation != r.invocation {
        return false;
      }
      if report.succeeded && report.diagnostics.Some? {
        done := RecordSuccess(r, report, env);
      } else {
        done := RecordFailure(r, report, env);
      }
    }

    /** record_execution, for a report without success or without room for its diagnostics. */
    method RecordFailure(r: Reservation, report: Report, env: Ambient) returns (done: bool)
      requires Current(State(), r) && sessions[r.session].id == r.session && !(report.succeeded && report.diagnostics.Some?)
      modifies this`sessions, this`log
      ensures State() == RecordCurrent(old(State()), r, report, env)
    {
      hide RecordTransition;
      hide RegisterOutputs;
      hide Put;
      hide WithPhase;
      hide ReportedAttempt;
      hide Runtime.BundleOf;
      var s := sessions[r.session];
      var p := s.phases[r.phase];
      var k := AttemptIndex(p.attempts, r.attempt);
      if k == |p.attempts| {
        return false;
      }
      var attempts := p.attempts[k := ReportedAttempt(p.attempts[k], r.invocation, report)];
      if report.diagnostics.None? {
        sessions := sessions[s.id := WithPhase(s, p.(attempts := attempts))];
        return false;
      }
      var detail := if report.detail == [] then DID_NOT_SUCCEED else report.detail;
      p := p.(diagnostics := report.diagnostics.value, failure := report.failure,
              lastStatus := if report.status == OK then PROCESS_EXITED_NONZERO else report.status, lastDetail := detail,
              attempts := attempts[k := attempts[k].(terminalState := Failed, failure := report.failure)]);
      Save(WithPhase(s, RecordTransition(p, Failed, env.now, detail)).(updatedAt := env.now), env);
      done := true;
    }

    /** record_execution, for a successful report. */
    method RecordSuccess(r: Reservation, report: Report, env: Ambient) returns (done: bool)
      requires Current(State(), r) && sessions[r.session].id == r.session && report.succeeded && report.diagnostics.Some?
      modifies this`sessions, this`artifacts, this`log
      ensures State() == RecordCurrent(old(State()), r, report, env)
    {
      hide RecordTransition;
      hide RegisterOutputs;
      hide Runtime.BundleOf;
      var s := sessions[r.session];
      var p := s.phases[r.phase];
      var k := AttemptIndex(p.attempts, r.attempt);
      if k == |p.attempts| {
        return false;
      }
      var attempts := p.attempts[k := ReportedAttempt(p.attempts[k], r.invocation, report)];
      p := p.(attempts := attempts, diagnostics := report.diagnostics.value);
      p := RecordTransition(p, Produced, env.now, EXITED).(attempts := attempts[k := attempts[k].(terminalState := Produced)]);
      var reg := RegisterReported(artifacts, s, p, r.invocation, report.outputs);
      artifacts := reg.store;
      p := p.(outputs := p.outputs + reg.refs);
      s := s.(intermediates := s.intermediates + reg.refs);
      if !reg.complete {
        sessions := sessions[s.id := WithPhase(s, p)];
        return false;
      }
      p := RecordTransition(p.(outputDigest := report.outputDigest), Validating, env.now, CANDIDATES);
      Save(WithPhase(s, p).(updatedAt := env.now), env);
      done := true;
    }

    /** commit_reserved. */
    method CommitReserved(r: Reservation, probe: Probe, pub: Publication, env: Ambient) returns (committed: bool)
      requires Valid() && r in issued
      modifies this
      ensures State() == Commit(old(State()), r, probe, pub, env)
      ensures committed <==> commits != old(commits)
      ensures committed ==> commits == old(commits) + [CommitEvent(r.session, r.phase, r.generation, old(next).commit, |old(log)|)]
      ensures Valid() && Grows(old(State()), State())
    {
      hide Sound;
      hide Grows;
      hide SessionSound;
      hide PhaseIn;
      hide Authority.Compare;
      hide Publish;
      hide RecordTransition;
      hide Artifacts.RevokeOutputs;
      hide Authority.Revoke;
      hide Authority.IsHeld;
      hide Runtime.BundleOf;
      hide Runtime.Observe;
      hide StatusOf;
      hide CloseAttempt;
      hide Put;
      hide Advanced;
      hide WithPhase;
      hide FencedForCommit;
      hide CommitRefused;
      hide CommitUnproven;
      CommitSound(State(), r, probe, pub, env);
      if r.session !in sessions || r.phase !in sessions[r.session].phases {
        return false;
      }
      Located(State(), r.session, r.phase);
      var s := sessions[r.session];
      var p := s.phases[r.phase];
      if p.generation != r.generation || p.activeInvocation != r.invocation || p.state != CommitReady {
        return false;
      }
      if probe.ProbeFailed? {
        Unproven(r, probe.detail, env);
        return false;
      }
      if probe.Probed? {
        if probe.id !in domains.toolchains.entries {
          return false;
        }
        domains := domains.(toolchains := Registries.Refreshed(domains.toolchains, probe.id, probe.observed, probe.mutated));
      }
      var held := Authority.IsHeld(leases, p.lease, env.now);
      var verdict := Authority.Compare(r.authority,
        Runtime.Observe(domains, s, r.authority.sessionGeneration, p.attemptGeneration, p.generation, p.lease, held));
      if verdict != Authority.Valid {
        Refuse(r, verdict, env);
        return false;
      }
      committed := PublishOutputs(r, pub, env);
    }

    /** commit_reserved, when the toolchain could not be probed again. */
    method Unproven(r: Reservation, detail: Text, env: Ambient)
      requires HasRecord(State(), r.session, r.phase) && sessions[r.session].id == r.session
      modifies this`artifacts, this`sessions, this`log
      ensures State() == CommitUnproven(old(State()), r, detail, env)
    {
      hide Artifacts.RevokeOutputs;
      hide FencedForCommit;
      hide Put;
      hide WithPhase;
      var s := sessions[r.session];
      var p := s.phases[r.phase];
      artifacts := Artifacts.RevokeOutputs(artifacts, p.id, p.generation, detail);
      p := FencedForCommit(p, InvalidToolchain, INTEGRITY_UNPROVEN, detail, env.now);
      Save(WithPhase(s, p).(generation := Next(s.generation)), env);
    }

    /** commit_reserved, when something the phase is bound to has moved. */
    method Refuse(r: Reservation, verdict: Authority.Verdict, env: Ambient)
      requires HasRecord(State(), r.session, r.phase) && sessions[r.session].id == r.session
      modifies this`artifacts, this`leases, this`sessions, this`log
      ensures State() == CommitRefused(old(State()), r, verdict, env)
    {
      hide Artifacts.RevokeOutputs;
      hide Authority.Revoke;
      hide FencedForCommit;
      hide StatusOf;
      hide CloseAttempt;
      hide Put;
      hide Advanced;
      hide WithPhase;
      var s := sessions[r.session];
      var p := s.phases[r.phase];
      artifacts := Artifacts.RevokeOutputs(artifacts, p.id, p.generation, REFUSED);
      leases := Authority.Revoke(leases, p.lease.id, REFUSED);
      p := FencedForCommit(p.(attempts := CloseAttempt(p.attempts, Fenced, AuthorityInvalidated)),
                           AuthorityInvalidated, StatusOf(verdict), REFUSED, env.now);
      Save(Advanced(WithPhase(s, p), env.now), env);
    }

    /** commit_reserved, from the authority check on: publish, or fence. */
    method PublishOutputs(r: Reservation, pub: Publication, env: Ambient) returns (committed: bool)
      requires HasRecord(State(), r.session, r.phase) && sessions[r.session].id == r.session
      modifies this
      ensures State() == Publish(old(State()), r, pub, env)
      ensures committed <==> commits != old(commits)
      ensures committed ==>
                var p := old(sessions)[r.session].phases[r.phase];
                commits == old(commits) + [CommitEvent(r.session, p.id, p.generation, old(next).commit, |old(log)|)]
    {
      hide CommittedSession;
      hide Stamped;
      hide Authorized;
      hide AllMayHold;
      hide NextGenerations;
      hide Authority.Revoke;
      hide Runtime.BundleOf;
      var s := sessions[r.session];
      var p := s.phases[r.phase];
      var ids := OutputIds(p.outputs);
      var commit := next.commit;
      artifacts := Stamped(artifacts, ids, pub.provenance);
      var all: bool;
      artifacts, all := AuthorizeOutputs(artifacts, ids);
      next := next.(commit := Next(commit));
      if !all || !env.appended {
        return false;
      }
      var t := CommittedSession(s, p, commit, pub, env.now);
      CommittedSessionId(s, p, commit, pub, env.now);
      ghost var event := CommitEvent(s.id, p.id, p.generation, commit, |log|);
      Save(t, env);
      commits := commits + [event];
      artifacts := NextGenerations(artifacts, ids);
      leases := Authority.Revoke(leases, p.lease.id, COMMITTING);
      committed := true;
    }
  }

  lemma PreparedId(p: PhaseRecord, now: U64)
    ensures Prepared(p, now).id == p.id
  {
  }

  lemma CommittedSessionId(s: CompilerSession, p: PhaseRecord, commit: U64, pub: Publication, now: U64)
    ensures CommittedSession(s, p, commit, pub, now).id == s.id
  {
    hide CommittedRecord;
    hide MandatoryDone;
  }
}
