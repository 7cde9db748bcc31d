/** What an attempt holds while it is under way — its generation, invocation and lease — and how
    actions other than a reservation may change it. */
module Bindings {
  import opened StrongId
  import opened Bytes
  import opened Wrappers
  import opened Phases
  import opened PhasePlans
  import opened Sessions
  import opened Registries
  import opened Runtime
  import opened Evolution
  import opened Safety
  import Sorting
  import Authority
  import Artifacts

  predicate Waiting(s: PhaseState) {
    s == Pending || s == Ready
  }

  /** The outputs of the attempt have been reported and are not yet committed. */
  predicate UnderReview(s: PhaseState) {
    s == Produced || s == Validating || s == CommitReady
  }

  datatype Cause = Ordinary | Resuming | Reporting | Granting

  /** The same attempt, or no attempt any more. Only recovery puts a phase back to waiting, and
      only a report adds outputs and puts a phase under review. */
  ghost predicate Continues(p: PhaseRecord, q: PhaseRecord, cause: Cause) {
    && q.id == p.id
    && q.lease == p.lease && q.generation == p.generation && q.inputs == p.inputs && |q.attempts| == |p.attempts|
    && (q.activeInvocation == p.activeInvocation || (q.activeInvocation == ABSENT && !InFlight(q.state)))
    && (InFlight(q.state) ==> InFlight(p.state))
    && (Waiting(q.state) ==> Waiting(p.state) || cause == Resuming)
    && (UnderReview(q.state) ==> UnderReview(p.state) || cause == Reporting)
    && (q.outputs == p.outputs || cause == Reporting)
  }

  /** ... and only a granted retry is charged to the session. */
  ghost predicate SessionContinues(s: CompilerSession, t: CompilerSession, cause: Cause) {
    && (t.intermediates == s.intermediates || cause == Reporting)
    && (t.retriesUsed == s.retriesUsed || cause == Granting)
    && forall id :: id in s.phases ==> id in t.phases && Continues(s.phases[id], t.phases[id], cause)
  }

  ghost predicate Continued(w: World, w': World, cause: Cause) {
    forall id :: id in w.sessions ==> id in w'.sessions && SessionContinues(w.sessions[id], w'.sessions[id], cause)
  }

  /** Leases, registries and allocators only move forward. */
  ghost predicate Forward(w: World, w': World) {
    && Authority.LeasesEvolve(w.leases, w'.leases)
    && Evolves(w.domains.toolchains, w'.domains.toolchains)
    && Evolves(w.domains.targets, w'.domains.targets)
    && Evolves(w.domains.environments, w'.domains.environments)
    && Evolves(w.domains.policies, w'.domains.policies)
    && Evolves(w.domains.sources, w'.domains.sources)
    && w.next.invocation <= w'.next.invocation
    && w.issued <= w'.issued
  }

  /** ... and no session or reservation is added. */
  ghost predicate Onward(w: World, w': World) {
    Forward(w, w') && w'.sessions.Keys == w.sessions.Keys && w'.issued == w.issued
  }

  lemma ForwardTransitive(a: World, b: World, c: World)
    requires Forward(a, b) && Forward(b, c)
    ensures Forward(a, c)
  {
    Authority.LeasesEvolveTransitive(a.leases, b.leases, c.leases);
    EvolvesTransitive(a.domains.toolchains, b.domains.toolchains, c.domains.toolchains);
    EvolvesTransitive(a.domains.targets, b.domains.targets, c.domains.targets);
    EvolvesTransitive(a.domains.environments, b.domains.environments, c.domains.environments);
    EvolvesTransitive(a.domains.policies, b.domains.policies, c.domains.policies);
    EvolvesTransitive(a.domains.sources, b.domains.sources, c.domains.sources);
    hide Authority.LeasesEvolve;
    hide Evolves;
  }

  lemma DomainsReflexive(d: Domains)
    ensures Evolves(d.toolchains, d.toolchains) && Evolves(d.targets, d.targets)
    ensures Evolves(d.environments, d.environments) && Evolves(d.policies, d.policies) && Evolves(d.sources, d.sources)
  {
  }

  /** Registries untouched, allocators and reservations as they were or grown. */
  lemma StillForward(w: World, w': World)
    requires w'.domains == w.domains && w.next.invocation <= w'.next.invocation && w.issued <= w'.issued
    requires Authority.LeasesEvolve(w.leases, w'.leases)
    ensures Forward(w, w')
  {
    DomainsReflexive(w.domains);
    hide Evolves;
    hide Authority.LeasesEvolve;
  }

  lemma LeasesReflexive(t: Authority.Leases)
    ensures Authority.LeasesEvolve(t, t)
  {
  }

  /* ---------- Records ---------- */

  /** Fields of the attempt that bookkeeping leaves alone. */
  ghost predicate SameAttempt(p: PhaseRecord, q: PhaseRecord) {
    && q.lease == p.lease && q.generation == p.generation && q.inputs == p.inputs && |q.attempts| == |p.attempts|
    && q.activeInvocation == p.activeInvocation && q.state == p.state
    && q.id == p.id && q.outputs == p.outputs
  }

  lemma TransitionContinues(p: PhaseRecord, q: PhaseRecord, to: PhaseState, at: U64, reason: Text)
    requires SameAttempt(p, q) && to !in {Pending, Preparing, Produced}
    ensures Continues(p, RecordTransition(q, to, at, reason), if to == Ready then Resuming else Ordinary)
  {
    MovedForward(p.state, to);
  }

  lemma TransitionEnds(p: PhaseRecord, q: PhaseRecord, to: PhaseState, at: U64, reason: Text)
    requires SameAttempt(p, q.(activeInvocation := p.activeInvocation)) && q.activeInvocation == ABSENT
    requires (InFlight(p.state) && to == Fenced) || (RetainsCommitAuthority(p.state) && to == Cancelled)
    ensures Continues(p, RecordTransition(q, to, at, reason), Ordinary)
  {
    MovedForward(p.state, to);
  }

  lemma SameContinues(p: PhaseRecord, q: PhaseRecord)
    requires SameAttempt(p, q)
    ensures Continues(p, q, Ordinary)
  {
  }

  lemma ContinuesSelf(s: CompilerSession)
    ensures SessionContinues(s, s, Ordinary)
  {
  }

  /** One phase of one session changed. */
  lemma PhaseContinues(w: World, w': World, t: CompilerSession, q: PhaseRecord, cause: Cause)
    requires t.id in w.sessions && w'.sessions == w.sessions[t.id := t]
    requires q.id in w.sessions[t.id].phases && t.phases == w.sessions[t.id].phases[q.id := q]
    requires Continues(w.sessions[t.id].phases[q.id], q, cause) && t.retriesUsed == w.sessions[t.id].retriesUsed
    requires t.intermediates == w.sessions[t.id].intermediates || cause == Reporting
    ensures Continued(w, w', cause)
  {
    forall id | id in w.sessions
      ensures SessionContinues(w.sessions[id], w'.sessions[id], cause)
    {
      if id == t.id {
        var s := w.sessions[id];
        forall x | x in s.phases
          ensures Continues(s.phases[x], t.phases[x], cause)
        {
        }
      }
    }
  }

  lemma SessionChanged(w: World, w': World, t: CompilerSession, cause: Cause)
    requires t.id in w.sessions && w'.sessions == w.sessions[t.id := t]
    requires SessionContinues(w.sessions[t.id], t, cause)
    ensures Continued(w, w', cause)
  {
    forall id | id in w.sessions
      ensures SessionContinues(w.sessions[id], w'.sessions[id], cause)
    {
      if id != t.id {
        ContinuesSelf(w.sessions[id]);
      }
    }
  }

  ghost predicate SameWork(s: CompilerSession, t: CompilerSession) {
    t.phases == s.phases && t.retriesUsed == s.retriesUsed && t.intermediates == s.intermediates
  }

  lemma SessionsUnchanged(w: World, w': World)
    requires forall id :: id in w.sessions ==> id in w'.sessions && SameWork(w.sessions[id], w'.sessions[id])
    ensures Continued(w, w', Ordinary)
  {
  }

  /* ---------- Actions ---------- */

  lemma SelfContinues(w: World)
    ensures Continued(w, w, Ordinary) && Onward(w, w)
  {
    LeasesReflexive(w.leases);
    StillForward(w, w);
    SessionsUnchanged(w, w);
  }

  /** The session and record an action works on, with their keys. */
  lemma Here(w: World, session: U64, phase: U64)
    requires Sound(w) && HasRecord(w, session, phase)
    ensures w.sessions[session].id == session && w.sessions[session].phases[phase].id == phase
  {
    hide IsPlan;
    hide RecordSound;
    hide LogSound;
    hide CommitsSound;
  }

  lemma SessionHere(w: World, session: U64)
    requires Sound(w) && session in w.sessions
    ensures w.sessions[session].id == session
  {
    hide SessionSound;
  }

  lemma LaunchContinues(w: World, r: Reservation, outcome: LaunchOutcome, env: Ambient)
    requires Sound(w)
    ensures Continued(w, Launch(w, r, outcome, env), Ordinary) && Onward(w, Launch(w, r, outcome, env))
  {
    hide Sound;
    hide Forward;
    hide Continued;
    hide Continues;
    hide RecordTransition;
    hide BundleOf;
    var w' := Launch(w, r, outcome, env);
    LeasesReflexive(w.leases);
    StillForward(w, w');
    SessionsUnchanged(w, w);
    if r in w.issued && Current(w, r) && outcome != NotBuilt {
      Here(w, r.session, r.phase);
      var s := w.sessions[r.session];
      var p := s.phases[r.phase];
      if outcome.Launched? {
        var q := RecordTransition(p, Running, env.now, LAUNCHED);
        TransitionContinues(p, p, Running, env.now, LAUNCHED);
        RecordTransitionId(p, Running, env.now, LAUNCHED);
        PhaseContinues(w, w', WithPhase(s, q).(updatedAt := env.now), q, Ordinary);
      } else {
        var q := p.(lastStatus := outcome.status, failure := outcome.failure, lastDetail := outcome.detail);
        SameContinues(p, q);
        PhaseContinues(w, w', WithPhase(s, q), q, Ordinary);
      }
    }
  }

  lemma RecordTransitionId(p: PhaseRecord, to: PhaseState, at: U64, reason: Text)
    ensures RecordTransition(p, to, at, reason).id == p.id
  {
  }

  lemma NoteProcessContinues(w: World, r: Reservation, process: Ref)
    requires Sound(w)
    ensures Continued(w, NoteProcess(w, r, process), Ordinary) && Onward(w, NoteProcess(w, r, process))
  {
    hide Sound;
    hide Forward;
    hide Continued;
    hide Continues;
    var w' := NoteProcess(w, r, process);
    LeasesReflexive(w.leases);
    StillForward(w, w');
    SessionsUnchanged(w, w);
    if r in w.issued && HasRecord(w, r.session, r.phase) {
      Here(w, r.session, r.phase);
      var s := w.sessions[r.session];
      var p := s.phases[r.phase];
      var q := p.(activeProcess := process.id, activeProcessGeneration := process.generation);
      SameContinues(p, q);
      PhaseContinues(w, w', WithPhase(s, q), q, Ordinary);
    }
  }

  lemma RecordContinues(w: World, r: Reservation, report: Report, env: Ambient)
    requires Sound(w) && Current(w, r)
    ensures Continued(w, RecordCurrent(w, r, report, env), Reporting) && Onward(w, RecordCurrent(w, r, report, env))
  {
    hide Sound;
    hide Onward;
    hide Continued;
    hide Continues;
    hide BundleOf;
    var w' := RecordCurrent(w, r, report, env);
    SelfContinues(w);
    Here(w, r.session, r.phase);
    var s := w.sessions[r.session];
    var p := s.phases[r.phase];
    var k := AttemptIndex(p.attempts, r.attempt);
    if k == |p.attempts| {
      ForAnyCause(w, w', Reporting);
    } else if report.diagnostics.None? {
      var q := p.(attempts := p.attempts[k := ReportedAttempt(p.attempts[k], r.invocation, report)]);
      SameContinues(p, q);
      PhaseContinues(w, w', WithPhase(s, q), q, Ordinary);
      ForAnyCause(w, w', Reporting);
      PhaseOnward(w, w', WithPhase(s, q));
    } else if !report.succeeded {
      hide RecordCurrent;
      RecordFailureContinues(w, r, report, env);
      ForAnyCause(w, w', Reporting);
    } else {
      hide RecordCurrent;
      RecordSuccessContinues(w, r, report, env);
    }
  }

  lemma ForAnyCause(w: World, w': World, cause: Cause)
    requires Continued(w, w', Ordinary)
    ensures Continued(w, w', cause)
  {
    forall id | id in w.sessions
      ensures SessionContinues(w.sessions[id], w'.sessions[id], cause)
    {
      assert SessionContinues(w.sessions[id], w'.sessions[id], Ordinary);
      assert forall p :: p in w.sessions[id].phases ==> Continues(w.sessions[id].phases[p], w'.sessions[id].phases[p], Ordinary);
    }
  }

  /** Only one session changes, and registries, leases and reservations stay. */
  lemma PhaseOnward(w: World, w': World, t: CompilerSession)
    requires t.id in w.sessions && w'.sessions == w.sessions[t.id := t]
    requires w'.domains == w.domains && w'.leases == w.leases && w'.issued == w.issued && w'.next == w.next
    ensures Onward(w, w')
  {
    hide Forward;
    hide Authority.LeasesEvolve;
    LeasesReflexive(w.leases);
    StillForward(w, w');
  }

  lemma RecordSuccessContinues(w: World, r: Reservation, report: Report, env: Ambient)
    requires Sound(w) && Current(w, r) && report.diagnostics.Some? && report.succeeded
    requires AttemptIndex(w.sessions[r.session].phases[r.phase].attempts, r.attempt) < |w.sessions[r.session].phases[r.phase].attempts|
    ensures Continued(w, RecordCurrent(w, r, report, env), Reporting) && Onward(w, RecordCurrent(w, r, report, env))
  {
    hide Sound;
    hide Onward;
    hide Continued;
    hide Continues;
    hide RecordTransition;
    hide BundleOf;
    hide RegisterOutputs;
    var w' := RecordCurrent(w, r, report, env);
    Here(w, r.session, r.phase);
    var s := w.sessions[r.session];
    var p := s.phases[r.phase];
    var k := AttemptIndex(p.attempts, r.attempt);
    var attempts := p.attempts[k := ReportedAttempt(p.attempts[k], r.invocation, report)];
    var p1 := p.(attempts := attempts, diagnostics := report.diagnostics.value);
    var closed := attempts[k := attempts[k].(terminalState := Produced)];
    var p2 := RecordTransition(p1, Produced, env.now, EXITED).(attempts := closed);
    var reg := RegisterOutputs(w.artifacts, s, p2, r.invocation, report.outputs);
    var p3 := p2.(outputs := p2.outputs + reg.refs);
    var s3 := s.(intermediates := s.intermediates + reg.refs);
    ReportContinues(p, p1, closed, reg.refs, report.outputDigest, env.now);
    if !reg.complete {
      PhaseContinues(w, w', WithPhase(s3, p3), p3, Reporting);
      PhaseOnward(w, w', WithPhase(s3, p3));
    } else {
      var p4 := RecordTransition(p3.(outputDigest := report.outputDigest), Validating, env.now, CANDIDATES);
      PhaseContinues(w, w', WithPhase(s3, p4).(updatedAt := env.now), p4, Reporting);
      PhaseOnward(w, w', WithPhase(s3, p4).(updatedAt := env.now));
    }
  }

  lemma RecordFailureContinues(w: World, r: Reservation, report: Report, env: Ambient)
    requires Sound(w) && Current(w, r) && report.diagnostics.Some? && !report.succeeded
    requires AttemptIndex(w.sessions[r.session].phases[r.phase].attempts, r.attempt) < |w.sessions[r.session].phases[r.phase].attempts|
    ensures Continued(w, RecordCurrent(w, r, report, env), Ordinary) && Onward(w, RecordCurrent(w, r, report, env))
  {
    hide Sound;
    hide Onward;
    hide Continued;
    hide Continues;
    hide RecordTransition;
    hide BundleOf;
    Here(w, r.session, r.phase);
    var s := w.sessions[r.session];
    var p := s.phases[r.phase];
    var k := AttemptIndex(p.attempts, r.attempt);
    var attempts := p.attempts[k := ReportedAttempt(p.attempts[k], r.invocation, report)];
    var detail := if report.detail == [] then DID_NOT_SUCCEED else report.detail;
    var p2 := p.(attempts := attempts[k := attempts[k].(terminalState := Failed, failure := report.failure)],
                 diagnostics := report.diagnostics.value, failure := report.failure,
                 lastStatus := if report.status == OK then PROCESS_EXITED_NONZERO else report.status,
                 lastDetail := detail);
    var q := RecordTransition(p2, Failed, env.now, detail);
    TransitionContinues(p, p2, Failed, env.now, detail);
    RecordTransitionId(p2, Failed, env.now, detail);
    PhaseContinues(w, RecordCurrent(w, r, report, env), WithPhase(s, q).(updatedAt := env.now), q, Ordinary);
    PhaseOnward(w, RecordCurrent(w, r, report, env), WithPhase(s, q).(updatedAt := env.now));
  }

  lemma ReportContinues(p: PhaseRecord, p1: PhaseRecord, attempts: seq<PhaseAttempt>, refs: seq<Ref>, digest: DigestBytes, now: U64)
    requires SameAttempt(p, p1) && p1.id == p.id && |attempts| == |p.attempts|
    ensures var p2 := RecordTransition(p1, Produced, now, EXITED).(attempts := attempts);
            var p3 := p2.(outputs := p2.outputs + refs);
            var p4 := RecordTransition(p3.(outputDigest := digest), Validating, now, CANDIDATES);
            Continues(p, p3, Reporting) && Continues(p, p4, Reporting) && p3.id == p.id && p4.id == p.id
  {
    hide Recorded;
    MovedForward(p1.state, Produced);
    MovedForward(Moved(p1.state, Produced), Validating);
  }

  lemma ReproductionContinues(w: World, r: Reservation, status: StatusCode, detail: Text, env: Ambient)
    requires Sound(w)
    ensures var w' := ReproductionFailed(w, r, status, detail, env); Continued(w, w', Ordinary) && Onward(w, w')
  {
    hide Sound;
    hide Forward;
    hide Continued;
    hide Continues;
    hide RecordTransition;
    hide BundleOf;
    var w' := ReproductionFailed(w, r, status, detail, env);
    LeasesReflexive(w.leases);
    StillForward(w, w');
    SessionsUnchanged(w, w);
    if r in w.issued && HasRecord(w, r.session, r.phase) {
      Here(w, r.session, r.phase);
      var s := w.sessions[r.session];
      var p := s.phases[r.phase];
      var p1 := p.(failure := OutputInvalid, lastStatus := status, lastDetail := detail);
      var q := RecordTransition(p1, Failed, env.now, detail);
      TransitionContinues(p, p1, Failed, env.now, detail);
      RecordTransitionId(p1, Failed, env.now, detail);
      PhaseContinues(w, w', WithPhase(s, q).(generation := Next(s.generation)), q, Ordinary);
    }
  }

  lemma ValidateContinues(w: World, r: Reservation, e: Evidence, env: Ambient)
    requires Sound(w)
    ensures var w' := Validate(w, r, e, env); Continued(w, w', Ordinary) && Onward(w, w')
  {
    hide Sound;
    hide Forward;
    hide Continued;
    hide Continues;
    hide RecordTransition;
    hide BundleOf;
    hide SetStates;
    var w' := Validate(w, r, e, env);
    LeasesReflexive(w.leases);
    StillForward(w, w');
    if r in w.issued && HasRecord(w, r.session, r.phase)
       && AllRegistered(w.artifacts, OutputIds(w.sessions[r.session].phases[r.phase].outputs)) {
      Here(w, r.session, r.phase);
      var s := w.sessions[r.session];
      var p := s.phases[r.phase];
      var to := if e.accepted then CommitReady else Failed;
      var p1 := if e.accepted then p else
        p.(failure := e.failure, lastStatus := e.refusal, lastDetail := e.detail, attempts := CloseAttempt(p.attempts, Failed, e.failure));
      var reason := if e.accepted then ACCEPTED else e.detail;
      var q := RecordTransition(p1, to, env.now, reason);
      TransitionContinues(p, p1, to, env.now, reason);
      RecordTransitionId(p1, to, env.now, reason);
      PhaseContinues(w, w', WithPhase(s, q).(updatedAt := env.now), q, Ordinary);
    } else {
      SessionsUnchanged(w, w');
    }
  }

  lemma CancelContinues(w: World, session: U64, phase: U64, reason: Text, env: Ambient)
    requires Sound(w)
    ensures var w' := CancelPhase(w, session, phase, reason, env); Continued(w, w', Ordinary) && Onward(w, w')
  {
    hide Sound;
    hide Forward;
    hide Continued;
    hide Continues;
    hide RecordTransition;
    hide BundleOf;
    var w' := CancelPhase(w, session, phase, reason, env);
    LeasesReflexive(w.leases);
    SessionsUnchanged(w, w);
    if HasRecord(w, session, phase) && w.sessions[session].phases[phase].state != Committed {
      Here(w, session, phase);
      var s := w.sessions[session];
      var p := s.phases[phase];
      RevokeForward(w, w', p.lease.id, reason);
      var p1 := p.(attempts := CloseAttempt(p.attempts, Cancelled, ExternalCancellation),
                   failure := ExternalCancellation, lastStatus := CANCELLED, lastDetail := reason);
      var q := (if RetainsCommitAuthority(p.state) then RecordTransition(p1, Cancelled, env.now, reason) else p)
        .(activeInvocation := ABSENT);
      if RetainsCommitAuthority(p.state) {
        InvocationAside(p1, Cancelled, env.now, reason);
        TransitionEnds(p, p1.(activeInvocation := ABSENT), Cancelled, env.now, reason);
        RecordTransitionId(p1, Cancelled, env.now, reason);
      } else {
        GivenUp(p);
      }
      PhaseContinues(w, w', Advanced(WithPhase(s, q), env.now), q, Ordinary);
    } else {
      StillForward(w, w');
    }
  }

  lemma GivenUp(p: PhaseRecord)
    requires !RetainsCommitAuthority(p.state)
    ensures Continues(p, p.(activeInvocation := ABSENT), Ordinary)
  {
  }

  lemma RevokeForward(w: World, w': World, id: U64, reason: Text)
    requires w'.leases == Authority.Revoke(w.leases, id, reason)
    requires w'.domains == w.domains && w.next.invocation <= w'.next.invocation && w.issued <= w'.issued
    ensures Forward(w, w')
  {
    Authority.LeaseOperationsEvolve(w.leases, ABSENT, ABSENT, 0, reason, id);
    hide Authority.Revoke;
    StillForward(w, w');
  }

  lemma FailContinues(w: World, session: U64, phase: U64, generation: U64, failure: FailureClass, status: StatusCode, detail: Text, env: Ambient)
    requires Sound(w)
    ensures var w' := FailPhase(w, session, phase, generation, failure, status, detail, env); Continued(w, w', Ordinary) && Onward(w, w')
  {
    hide Sound;
    hide Forward;
    hide Continued;
    hide Continues;
    hide RecordTransition;
    hide BundleOf;
    hide FailedAttempts;
    var w' := FailPhase(w, session, phase, generation, failure, status, detail, env);
    LeasesReflexive(w.leases);
    SessionsUnchanged(w, w);
    if HasRecord(w, session, phase) && w.sessions[session].phases[phase].generation == generation
       && w.sessions[session].phases[phase].state != Committed {
      Here(w, session, phase);
      var s := w.sessions[session];
      var p := s.phases[phase];
      RevokeForward(w, w', p.lease.id, detail);
      var p1 := p.(failure := failure, lastStatus := status, lastDetail := detail, attempts := FailedAttempts(p.attempts, failure, status));
      var q := if RetainsCommitAuthority(p.state) then RecordTransition(p1, Failed, env.now, detail) else p1;
      TransitionContinues(p, p1, Failed, env.now, detail);
      SameContinues(p, p1);
      RecordTransitionId(p1, Failed, env.now, detail);
      PhaseContinues(w, w', Advanced(WithPhase(s, q), env.now), q, Ordinary);
    } else {
      StillForward(w, w');
    }
  }

  lemma GrantRetryContinues(w: World, session: U64, phase: U64)
    requires Sound(w)
    ensures var w' := GrantRetry(w, session, phase); Continued(w, w', Granting) && Onward(w, w')
  {
    hide Sound;
    hide EvaluateRetry;
    hide Onward;
    hide Continued;
    var w' := GrantRetry(w, session, phase);
    if session in w.sessions {
      SessionHere(w, session);
    }
    if w'.sessions == w.sessions {
      SelfContinues(w);
      ForAnyCause(w, w, Granting);
    } else {
      Charged(w, w', w'.sessions[session]);
      PhaseOnward(w, w', w'.sessions[session]);
    }
  }

  lemma Charged(w: World, w': World, t: CompilerSession)
    requires t.id in w.sessions && w'.sessions == w.sessions[t.id := t] && t.phases == w.sessions[t.id].phases
    requires t.intermediates == w.sessions[t.id].intermediates
    ensures Continued(w, w', Granting)
  {
  }

  /** The session is described differently; its phases are the same. */
  lemma Rephrased(w: World, w': World, t: CompilerSession)
    requires t.id in w.sessions && w'.sessions == w.sessions[t.id := t] && SameWork(w.sessions[t.id], t)
    requires w'.domains == w.domains && w'.leases == w.leases && w'.issued == w.issued && w'.next == w.next
    ensures Continued(w, w', Ordinary) && Onward(w, w')
  {
    hide Forward;
    hide Authority.LeasesEvolve;
    LeasesReflexive(w.leases);
    StillForward(w, w');
    SessionsUnchanged(w, w');
  }

  lemma SetSessionStateContinues(w: World, session: U64, state: SessionState, detail: Text, env: Ambient)
    requires Sound(w)
    ensures var w' := SetSessionState(w, session, state, detail, env); Continued(w, w', Ordinary) && Onward(w, w')
  {
    hide Sound;
    hide BundleOf;
    hide Onward;
    hide Continued;
    var w' := SetSessionState(w, session, state, detail, env);
    SelfContinues(w);
    if session in w.sessions && state in {SessionActive, SessionFailed, SessionCancelled} {
      SessionHere(w, session);
      Rephrased(w, w', w'.sessions[session]);
    }
  }

  lemma CloseSessionContinues(w: World, session: U64, env: Ambient)
    requires Sound(w)
    ensures var w' := CloseSession(w, session, env); Continued(w, w', Ordinary) && Onward(w, w')
  {
    hide Sound;
    hide BundleOf;
    var w' := CloseSession(w, session, env);
    LeasesReflexive(w.leases);
    StillForward(w, w');
    if session in w.sessions {
      SessionHere(w, session);
    }
    hide Forward;
    SessionsUnchanged(w, w');
  }

  lemma {:induction false} FencedLeasesEvolve(t: Authority.Leases, s: CompilerSession, order: seq<U64>, reason: Text)
    ensures Authority.LeasesEvolve(t, FencedLeases(t, s, order, reason))
    decreases |order|
  {
    LeasesReflexive(t);
    if order != [] {
      var t' := if order[0] in s.phases && InFlight(s.phases[order[0]].state) then
        Authority.Revoke(t, s.phases[order[0]].lease.id, reason) else t;
      if order[0] in s.phases {
        Authority.LeaseOperationsEvolve(t, ABSENT, ABSENT, 0, reason, s.phases[order[0]].lease.id);
      }
      hide Authority.Revoke;
      hide Authority.LeasesEvolve;
      FencedLeasesEvolve(t', s, order[1..], reason);
      Authority.LeasesEvolveTransitive(t, t', FencedLeases(t, s, order, reason));
    }
  }

  lemma {:induction false} RetiredLeasesEvolve(t: Authority.Leases, s: CompilerSession, order: seq<U64>, reason: Text)
    ensures Authority.LeasesEvolve(t, RetiredLeases(t, s, order, reason))
    decreases |order|
  {
    LeasesReflexive(t);
    if order != [] {
      var t' := if order[0] in s.phases then Authority.Revoke(t, s.phases[order[0]].lease.id, reason) else t;
      if order[0] in s.phases {
        Authority.LeaseOperationsEvolve(t, ABSENT, ABSENT, 0, reason, s.phases[order[0]].lease.id);
      }
      hide Authority.Revoke;
      hide Authority.LeasesEvolve;
      RetiredLeasesEvolve(t', s, order[1..], reason);
      Authority.LeasesEvolveTransitive(t, t', RetiredLeases(t, s, order, reason));
    }
  }

  lemma FenceContinues(w: World, session: U64, now: U64, reason: Text)
    requires Sound(w)
    ensures var w' := FenceSession(w, session, now, reason); Continued(w, w', Ordinary) && Onward(w, w')
  {
    hide Sound;
    hide Continues;
    hide FencedRecord;
    var w' := FenceSession(w, session, now, reason);
    LeasesReflexive(w.leases);
    if session in w.sessions && !Closing(w.sessions[session]) {
      SessionHere(w, session);
      var s := w.sessions[session];
      FencedLeasesEvolve(w.leases, s, s.plan.order, reason);
      StillForward(w, w');
      forall id | id in s.phases
        ensures Continues(s.phases[id], FencedPhases(s, now, reason)[id], Ordinary)
      {
        SameContinues(s.phases[id], s.phases[id]);
        if InFlight(s.phases[id].state) {
          FencedContinues(s.phases[id], now, reason);
        }
      }
      hide Forward;
      SessionChanged(w, w', FencedSession(s, now, reason), Ordinary);
    } else {
      StillForward(w, w');
      SessionsUnchanged(w, w');
    }
  }

  lemma FencedContinues(p: PhaseRecord, now: U64, reason: Text)
    requires InFlight(p.state)
    ensures Continues(p, FencedRecord(p, now, reason), Ordinary)
  {
    hide Continues;
    hide RecordTransition;
    TransitionEnds(p,
      p.(failure := AuthorityInvalidated, lastStatus := STALE_EPOCH, lastDetail := reason,
         attempts := CloseAttempt(p.attempts, Fenced, AuthorityInvalidated),
         activeInvocation := ABSENT, activeProcess := 0, activeProcessGeneration := 0),
      Fenced, now, reason);
  }

  lemma RetireContinues(w: World, session: U64, reason: Text, env: Ambient)
    requires Sound(w)
    ensures var w' := RetireSession(w, session, reason, env); Continued(w, w', Ordinary) && Onward(w, w')
  {
    hide Sound;
    hide Continues;
    hide RecordTransition;
    hide BundleOf;
    var w' := RetireSession(w, session, reason, env);
    LeasesReflexive(w.leases);
    if session in w.sessions {
      SessionHere(w, session);
      var s := w.sessions[session];
      RetiredLeasesEvolve(w.leases, s, s.plan.order, reason);
      StillForward(w, w');
      forall id | id in s.phases
        ensures Continues(s.phases[id], RetiredPhases(s, env.now, reason)[id], Ordinary)
      {
        SameContinues(s.phases[id], s.phases[id]);
        TransitionContinues(s.phases[id], s.phases[id], Retired, env.now, reason);
      }
      hide Forward;
      SessionChanged(w, w',
        Advanced(s.(phases := RetiredPhases(s, env.now, reason), state := SessionRetired, failureDetail := reason), env.now), Ordinary);
    } else {
      StillForward(w, w');
      SessionsUnchanged(w, w');
    }
  }

  lemma RecoverContinues(w: World, session: U64, requiresOperator: bool, steps: seq<Revalidation>, recovery: Ref, env: Ambient)
    requires Sound(w)
    ensures var w' := ApplyRecovery(w, session, requiresOperator, steps, recovery, env); Continued(w, w', Resuming) && Onward(w, w')
  {
    hide Sound;
    hide Continues;
    hide RecoveredRecord;
    hide BundleOf;
    hide RevalidateAll;
    hide AllRevalidate;
    var w' := ApplyRecovery(w, session, requiresOperator, steps, recovery, env);
    LeasesReflexive(w.leases);
    StillForward(w, w');
    hide Forward;
    hide StepIds;
    if session in w.sessions && RecoveryPlan(session, requiresOperator, StepIds(steps)) in w.plans && AllRevalidate(w.artifacts, steps) {
      SessionHere(w, session);
      var s := w.sessions[session];
      var t := RecoveredSession(s, requiresOperator, recovery, env.now);
      forall id | id in s.phases
        ensures Continues(s.phases[id], t.phases[id], Resuming)
      {
        ResumedSelf(s.phases[id]);
        RecoveredContinues(s.phases[id], env.now);
      }
      SessionChanged(w, w', t, Resuming);
    } else {
      AllSelf(w, w');
    }
  }

  lemma AllSelf(w: World, w': World)
    requires w'.sessions == w.sessions
    ensures Continued(w, w', Resuming)
  {
  }

  lemma ResumedSelf(p: PhaseRecord)
    ensures Continues(p, p, Resuming)
  {
  }

  lemma RecoveredContinues(p: PhaseRecord, now: U64)
    ensures Continues(p, RecoveredRecord(p, now), Resuming)
  {
    hide Recorded;
    MovedForward(p.state, Ready);
    MovedForward(p.state, Retired);
    hide Moved;
  }

  /* ---------- Committing ---------- */

  lemma PublishContinues(w: World, r: Reservation, pub: Publication, env: Ambient)
    requires Sound(w) && HasRecord(w, r.session, r.phase) && w.sessions[r.session].phases[r.phase].state == CommitReady
    ensures var w' := Publish(w, r, pub, env); Continued(w, w', Ordinary) && Onward(w, w')
  {
    hide Sound;
    hide Forward;
    hide Continued;
    hide Continues;
    hide CommittedSession;
    hide CommittedRecord;
    hide BundleOf;
    hide Stamped;
    hide Authorized;
    hide AllMayHold;
    hide NextGenerations;
    var w' := Publish(w, r, pub, env);
    LeasesReflexive(w.leases);
    Here(w, r.session, r.phase);
    var s := w.sessions[r.session];
    var p := s.phases[r.phase];
    if w'.sessions == w.sessions && w'.leases == w.leases {
      StillForward(w, w');
      SessionsUnchanged(w, w');
    } else {
      RevokeForward(w, w', p.lease.id, COMMITTING);
      CommittedContinues(p, w.next.commit, env.now);
      CommittedSessionShape(s, p, w.next.commit, pub, env.now);
      PhaseContinues(w, w', CommittedSession(s, p, w.next.commit, pub, env.now), CommittedRecord(p, w.next.commit, env.now), Ordinary);
    }
  }

  lemma CommittedContinues(p: PhaseRecord, commit: U64, now: U64)
    requires p.state == CommitReady
    ensures Continues(p, CommittedRecord(p, commit, now), Ordinary) && CommittedRecord(p, commit, now).id == p.id
  {
    hide Recorded;
  }

  lemma UnprovenContinues(w: World, r: Reservation, detail: Text, env: Ambient)
    requires Sound(w) && HasRecord(w, r.session, r.phase)
    ensures var w' := CommitUnproven(w, r, detail, env); Continued(w, w', Ordinary) && Onward(w, w')
  {
    hide Sound;
    hide Forward;
    hide Continued;
    hide Continues;
    hide RecordTransition;
    hide BundleOf;
    var w' := CommitUnproven(w, r, detail, env);
    LeasesReflexive(w.leases);
    StillForward(w, w');
    Here(w, r.session, r.phase);
    var s := w.sessions[r.session];
    var p := s.phases[r.phase];
    var p1 := p.(failure := InvalidToolchain, lastStatus := INTEGRITY_UNPROVEN, lastDetail := detail);
    var q := RecordTransition(p1, Fenced, env.now, detail);
    TransitionContinues(p, p1, Fenced, env.now, detail);
    RecordTransitionId(p1, Fenced, env.now, detail);
    PhaseContinues(w, w', WithPhase(s, q).(generation := Next(s.generation)), q, Ordinary);
  }

  lemma RefusedContinues(w: World, r: Reservation, verdict: Authority.Verdict, env: Ambient)
    requires Sound(w) && HasRecord(w, r.session, r.phase)
    ensures var w' := CommitRefused(w, r, verdict, env); Continued(w, w', Ordinary) && Onward(w, w')
  {
    hide Sound;
    hide Forward;
    hide Continued;
    hide Continues;
    hide RecordTransition;
    hide BundleOf;
    hide StatusOf;
    var w' := CommitRefused(w, r, verdict, env);
    Here(w, r.session, r.phase);
    var s := w.sessions[r.session];
    var p := s.phases[r.phase];
    RevokeForward(w, w', p.lease.id, REFUSED);
    var p1 := p.(attempts := CloseAttempt(p.attempts, Fenced, AuthorityInvalidated),
                 failure := AuthorityInvalidated, lastStatus := StatusOf(verdict), lastDetail := REFUSED);
    var q := RecordTransition(p1, Fenced, env.now, REFUSED);
    TransitionContinues(p, p1, Fenced, env.now, REFUSED);
    RecordTransitionId(p1, Fenced, env.now, REFUSED);
    PhaseContinues(w, w', Advanced(WithPhase(s, q), env.now), q, Ordinary);
  }

  lemma CommitContinues(w: World, r: Reservation, probe: Probe, pub: Publication, env: Ambient)
    requires Sound(w)
    ensures var w' := Commit(w, r, probe, pub, env); Continued(w, w', Ordinary) && Onward(w, w')
  {
    hide Sound;
    hide Onward;
    hide Continued;
    hide CommitUnproven;
    hide CommitRefused;
    hide Publish;
    hide CommitVerdict;
    hide Refreshed;
    SelfContinues(w);
    if r in w.issued && Current(w, r) && w.sessions[r.session].phases[r.phase].state == CommitReady {
      if probe.ProbeFailed? {
        UnprovenContinues(w, r, probe.detail, env);
      } else {
        var w1 := if probe.Probed? then
          w.(domains := w.domains.(toolchains := Refreshed(w.domains.toolchains, probe.id, probe.observed, probe.mutated))) else w;
        QuietSound(w, w1);
        var verdict := CommitVerdict(w1, r, env.now);
        RefusedContinues(w1, r, verdict, env);
        PublishContinues(w1, r, pub, env);
        AfterProbe(w, w1, probe, CommitRefused(w1, r, verdict, env));
        AfterProbe(w, w1, probe, Publish(w1, r, pub, env));
      }
    }
  }

  lemma AfterProbe(w: World, w1: World, probe: Probe, w': World)
    requires w1 == if probe.Probed? then
      w.(domains := w.domains.(toolchains := Refreshed(w.domains.toolchains, probe.id, probe.observed, probe.mutated))) else w
    requires Continued(w1, w', Ordinary) && Onward(w1, w')
    ensures Continued(w, w', Ordinary) && Onward(w, w')
  {
    hide Forward;
    hide SessionContinues;
    ProbedForward(w, w1, probe);
    ForwardTransitive(w, w1, w');
  }

  lemma ProbedForward(w: World, w1: World, probe: Probe)
    requires w1 == if probe.Probed? then
      w.(domains := w.domains.(toolchains := Refreshed(w.domains.toolchains, probe.id, probe.observed, probe.mutated))) else w
    ensures Forward(w, w1)
  {
    if probe.Probed? {
      OperationsEvolve(w.domains.toolchains, probe.id, probe.observed, probe.mutated);
    }
    DomainsReflexive(w.domains);
    LeasesReflexive(w.leases);
    hide Evolves;
    hide Refreshed;
    hide Authority.LeasesEvolve;
  }

  lemma ChangeForward(d: Domains, c: DomainChange)
    ensures var d' := Change(d, c);
            && Evolves(d.toolchains, d'.toolchains) && Evolves(d.targets, d'.targets)
            && Evolves(d.environments, d'.environments) && Evolves(d.policies, d'.policies) && Evolves(d.sources, d'.sources)
  {
    hide Evolves;
    hide Added;
    hide Revised;
    hide Refreshed;
    hide Invalidated;
    DomainsReflexive(d);
    match c {
      case AddToolchain(contents) => OperationsEvolve(d.toolchains, 0, contents, false);
      case RefreshToolchain(id, contents, mutated) => OperationsEvolve(d.toolchains, id, contents, mutated);
      case InvalidateToolchain(id) => OperationsEvolve(d.toolchains, id, [], false);
      case InternTarget(contents) => OperationsEvolve(d.targets, 0, contents, false);
      case ReviseTarget(id, contents) => OperationsEvolve(d.targets, id, contents, false);
      case InternEnvironment(contents) => OperationsEvolve(d.environments, 0, contents, false);
      case ReviseEnvironment(id, contents) => OperationsEvolve(d.environments, id, contents, false);
      case InternPolicy(policy) => OperationsEvolve(d.policies, 0, policy, false);
      case RevisePolicy(id, policy) => OperationsEvolve(d.policies, id, policy, false);
      case AddSource(contents) => OperationsEvolve(d.sources, 0, contents, false);
    }
  }

  /* ---------- The invariant ---------- */

  /** The authority of a reservation is that of its session. */
  ghost predicate BindsSession(a: Authority.PhaseAuthority, s: CompilerSession) {
    && a.compilationGeneration == s.compilationGeneration
    && a.toolchain == s.toolchain && a.cooperating == s.cooperating && a.target == s.target
    && a.environment == s.environment && a.policy == s.policy && a.source == s.source
    && a.irGeneration == s.irGeneration
  }

  /** An attempt under way holds an invocation of this process and a granted lease. A phase that
      is not under way may still show the invocation of an earlier process. */
  ghost predicate AttemptSound(w: World, p: PhaseRecord) {
    InFlight(p.state) ==>
      && 0 < p.activeInvocation.id < w.next.invocation
      && p.lease.id != 0 && p.lease.id in w.leases.entries
  }

  ghost predicate ReservationSound(w: World, r: Reservation) {
    && HasRecord(w, r.session, r.phase)
    && 0 < r.invocation.id < w.next.invocation
    && r.authority.lease.Present()
    && BindsSession(r.authority, w.sessions[r.session])
    && (w.sessions[r.session].phases[r.phase].activeInvocation == r.invocation ==>
          w.sessions[r.session].phases[r.phase].generation == r.generation)
  }

  ghost predicate BindingsSound(w: World) {
    && (forall id, p :: id in w.sessions && p in w.sessions[id].phases ==> AttemptSound(w, w.sessions[id].phases[p]))
    && (forall r :: r in w.issued ==> ReservationSound(w, r))
    && w.leases.next >= 1 && w.next.invocation >= 1
  }

  lemma ReservationStays(w: World, w': World, r: Reservation, cause: Cause)
    requires ReservationSound(w, r) && Grows(w, w') && Forward(w, w') && Continued(w, w', cause)
    ensures ReservationSound(w', r)
  {
    hide Evolves;
    assert SessionEvolves(w.sessions[r.session], w'.sessions[r.session]);
    assert SessionContinues(w.sessions[r.session], w'.sessions[r.session], cause);
    assert Continues(w.sessions[r.session].phases[r.phase], w'.sessions[r.session].phases[r.phase], cause);
  }

  lemma AttemptStays(w: World, w': World, p: PhaseRecord, q: PhaseRecord, cause: Cause)
    requires AttemptSound(w, p) && Continues(p, q, cause) && Forward(w, w') && w.next.invocation >= 1
    ensures AttemptSound(w', q)
  {
    hide Evolves;
  }

  lemma ContinuedBindings(w: World, w': World, cause: Cause)
    requires BindingsSound(w) && Continued(w, w', cause) && Forward(w, w') && Grows(w, w')
    requires w'.sessions.Keys == w.sessions.Keys && w'.issued == w.issued
    ensures BindingsSound(w')
  {
    hide ReservationSound;
    hide AttemptSound;
    forall r | r in w'.issued
      ensures ReservationSound(w', r)
    {
      ReservationStays(w, w', r, cause);
    }
    forall id, p | id in w'.sessions && p in w'.sessions[id].phases
      ensures AttemptSound(w', w'.sessions[id].phases[p])
    {
      assert SessionEvolves(w.sessions[id], w'.sessions[id]);
      assert SessionContinues(w.sessions[id], w'.sessions[id], cause);
      AttemptStays(w, w', w.sessions[id].phases[p], w'.sessions[id].phases[p], cause);
    }
    hide Evolves;
    hide SessionEvolves;
    hide Continued;
  }

  lemma BeginCommitBindings(w: World, session: U64, phase: U64, generation: U64, invocation: Ref)
    requires Sound(w) && BindingsSound(w)
    ensures var w' := BeginCommit(w, session, phase, generation, invocation);
            BindingsSound(w') && Continued(w, w', Ordinary) && Forward(w, w')
  {
    hide Sound;
    var w' := BeginCommit(w, session, phase, generation, invocation);
    LeasesReflexive(w.leases);
    StillForward(w, w');
    hide Forward;
    SessionsUnchanged(w, w');
    hide Continued;
    if HasRecord(w, session, phase) {
      Here(w, session, phase);
      var p := w.sessions[session].phases[phase];
      assert AttemptSound(w, p);
    }
    forall r | r in w'.issued
      ensures ReservationSound(w', r)
    {
      if r in w.issued {
        assert ReservationSound(w, r);
      }
    }
    forall id, p | id in w'.sessions && p in w'.sessions[id].phases
      ensures AttemptSound(w', w'.sessions[id].phases[p])
    {
      assert AttemptSound(w, w.sessions[id].phases[p]);
    }
  }

  /** Creating adds one session, or nothing. */
  lemma CreateShape(w: World, s: CompilerSession, phasesUpTo: U64, env: Ambient)
    requires Sound(w)
    ensures var w' := Create(w, s, phasesUpTo, env);
            && w'.issued == w.issued && w'.leases == w.leases && w'.domains == w.domains && w'.next.invocation == w.next.invocation
            && w'.artifacts == w.artifacts && w'.commits == w.commits
            && (w'.sessions == w.sessions || (s.id !in w.sessions && NewSession(w, s) && w'.sessions == w.sessions[s.id := s]))
  {
    hide Sound;
    hide NewSession;
    hide BundleOf;
  }

  lemma CreateBindings(w: World, s: CompilerSession, phasesUpTo: U64, env: Ambient)
    requires Sound(w) && BindingsSound(w)
    ensures var w' := Create(w, s, phasesUpTo, env); BindingsSound(w') && Continued(w, w', Ordinary) && Forward(w, w')
  {
    hide Sound;
    hide NewSession;
    hide BindingsSound;
    hide Forward;
    hide Continued;
    var w' := Create(w, s, phasesUpTo, env);
    CreateShape(w, s, phasesUpTo, env);
    hide Create;
    LeasesReflexive(w.leases);
    StillForward(w, w');
    SessionsUnchanged(w, w');
    if w'.sessions == w.sessions {
      ReserveIdle(w, w');
    } else {
      AddedBindings(w, w', s);
    }
  }

  lemma AddedBindings(w: World, w': World, s: CompilerSession)
    requires BindingsSound(w) && s.id !in w.sessions && NewSession(w, s) && w'.sessions == w.sessions[s.id := s]
    requires w'.issued == w.issued && w'.leases == w.leases && w'.next.invocation == w.next.invocation
    ensures BindingsSound(w')
  {
    forall p | p in s.phases
      ensures AttemptSound(w', s.phases[p])
    {
      assert HasIdentity(s.plan.nodes, p);
      InitialAttempt(w', s.plan.nodes[IndexOfId(s.plan.nodes, p)], s.attemptGeneration);
    }
    hide NewSession;
    forall id, p | id in w'.sessions && p in w'.sessions[id].phases
      ensures AttemptSound(w', w'.sessions[id].phases[p])
    {
      if id != s.id {
        assert AttemptSound(w, w.sessions[id].phases[p]);
      }
    }
    forall r | r in w'.issued
      ensures ReservationSound(w', r)
    {
      assert ReservationSound(w, r);
    }
  }

  lemma InitialAttempt(w: World, node: PhaseNode, attemptGeneration: U64)
    requires w.next.invocation >= 1
    ensures AttemptSound(w, InitialRecord(node, attemptGeneration))
  {
  }

  /* ---------- Reserving ---------- */

  /** What a reservation does to a phase: a fresh invocation, a granted lease, one more attempt,
      registered inputs and no outputs. */
  ghost predicate Reserved(w: World, w': World, p: PhaseRecord, q: PhaseRecord) {
    && q.id == p.id && (Waiting(p.state) || p.state == Failed) && q.state == Preparing
    && q.outputs == [] && (forall k :: 0 <= k < |q.inputs| ==> q.inputs[k].id in w.artifacts.entries)
    && q.activeInvocation == Ref(w.next.invocation, INITIAL)
    && q.lease == Ref(w.leases.next, INITIAL) && q.lease.id in w'.leases.entries
    && |q.attempts| == |p.attempts| + 1
    && q.generation == Next(p.generation)
  }

  lemma ReservedRecordFacts(w: World, session: U64, phase: U64, isRetry: bool, now: U64)
    requires HasRecord(w, session, phase)
    requires ResolveInputs(w, w.sessions[session], w.sessions[session].phases[phase]).Some?
    requires w.sessions[session].phases[phase].state in {Pending, Ready, Failed}
    ensures var p := w.sessions[session].phases[phase];
            var q := ReservedRecord(w, session, phase, isRetry, now);
            && q.state == Preparing && q.id == p.id
            && q.activeInvocation == Ref(w.next.invocation, INITIAL) && q.lease == Ref(w.leases.next, INITIAL)
            && |q.attempts| == |p.attempts| + 1 && q.generation == Next(p.generation)
            && q.outputs == [] && q.commit == 0
            && q.inputs == ResolveInputs(w, w.sessions[session], p).value
  {
    hide Recorded;
    hide ResolveInputs;
  }

  /** A reservation changes one phase only, and hands out a reservation bound to its session. */
  lemma ReserveBindings(w: World, session: U64, phase: U64, isRetry: bool, workspace: bool, env: Ambient)
    requires Sound(w) && BindingsSound(w)
    ensures var w' := Reserve(w, session, phase, isRetry, workspace, env);
            && Forward(w, w')
            && (w'.next.invocation < MAX_COUNTER ==> BindingsSound(w'))
            && (Reservable(w, session, phase, isRetry) && workspace ==>
                  HasRecord(w', session, phase) && Reserved(w, w', w.sessions[session].phases[phase], w'.sessions[session].phases[phase]))
            && (forall id, p :: HasRecord(w, id, p) && (id != session || p != phase || !workspace || !Reservable(w, session, phase, isRetry)) ==>
                  HasRecord(w', id, p) && w'.sessions[id].phases[p] == w.sessions[id].phases[p])
  {
    var w' := Reserve(w, session, phase, isRetry, workspace, env);
    ReserveSound(w, session, phase, isRetry, workspace, env);
    if Reservable(w, session, phase, isRetry) && workspace {
      ReserveGranted(w, session, phase, isRetry, env);
    } else {
      hide Sound;
      hide Reservable;
      LeasesReflexive(w.leases);
      StillForward(w, w');
      ReserveIdle(w, w');
    }
  }

  lemma ReserveIdle(w: World, w': World)
    requires BindingsSound(w) && w'.sessions == w.sessions && w'.issued == w.issued && w'.leases == w.leases
    requires w.next.invocation <= w'.next.invocation
    ensures BindingsSound(w')
  {
    forall id, p | id in w'.sessions && p in w'.sessions[id].phases
      ensures AttemptSound(w', w'.sessions[id].phases[p])
    {
      assert AttemptSound(w, w.sessions[id].phases[p]);
    }
    forall r | r in w'.issued
      ensures ReservationSound(w', r)
    {
      assert ReservationSound(w, r);
    }
  }

  /** The world after a granted reservation. */
  ghost predicate Grants(w: World, w': World, session: U64, t: CompilerSession, q: PhaseRecord) {
    && session in w.sessions && q.id in w.sessions[session].phases && t.id == session && SameBinding(w.sessions[session], t)
    && t.phases == w.sessions[session].phases[q.id := q] && w'.sessions == w.sessions[session := t]
    && w'.domains == w.domains && w'.artifacts == w.artifacts && w'.commits == w.commits
    && w.issued <= w'.issued <= w.issued + {ReservationFor(t, q)}
    && Authority.LeasesEvolve(w.leases, w'.leases) && w.leases.next in w'.leases.entries
    && w'.next.invocation == Next(w.next.invocation)
  }

  lemma ReserveGrants(w: World, session: U64, phase: U64, isRetry: bool, env: Ambient)
    requires Sound(w) && Reservable(w, session, phase, isRetry)
    ensures var w' := Reserve(w, session, phase, isRetry, true, env);
            && HasRecord(w, session, phase)
            && ResolveInputs(w, w.sessions[session], w.sessions[session].phases[phase]).Some?
            && w.sessions[session].phases[phase].state in {Pending, Ready, Failed}
            && w.sessions[session].phases[phase].id == phase
            && Grants(w, w', session, ReservedSession(w, session, phase, isRetry, env.now), ReservedRecord(w, session, phase, isRetry, env.now))
  {
    hide Reservable;
    hide Sound;
    hide BundleOf;
    hide PhaseIn;
    hide Fed;
    hide ReservedRecord;
    hide ResolveInputs;
    hide Authority.LeasesEvolve;
    ReservableFacts(w, session, phase, isRetry);
    ReservedRecordFacts(w, session, phase, isRetry, env.now);
    var s := w.sessions[session];
    Authority.LeaseOperationsEvolve(w.leases, Ref(session, s.generation), Ref(phase, Next(s.phases[phase].generation)), env.now, RESERVED, 0);
  }

  /** Inputs are resolved to registered artifacts only. */
  lemma ResolvedRegistered(w: World, s: CompilerSession, p: PhaseRecord)
    requires ResolveInputs(w, s, p).Some?
    ensures forall k :: 0 <= k < |ResolveInputs(w, s, p).value| ==> ResolveInputs(w, s, p).value[k].id in w.artifacts.entries
  {
    var node := s.plan.nodes[IndexOfId(s.plan.nodes, p.id)];
    var sorted := Sorting.SortedUnique(ProducedIds(s, node.dependsOn));
    forall k | 0 <= k < |sorted|
      ensures sorted[k] in w.artifacts.entries
    {
      assert sorted[k] in sorted;
      assert Usable(w.artifacts, sorted[k]);
    }
  }

  lemma ReserveGranted(w: World, session: U64, phase: U64, isRetry: bool, env: Ambient)
    requires Sound(w) && BindingsSound(w) && Reservable(w, session, phase, isRetry)
    ensures var w' := Reserve(w, session, phase, isRetry, true, env);
            && Forward(w, w')
            && (w'.next.invocation < MAX_COUNTER ==> BindingsSound(w'))
            && HasRecord(w', session, phase) && Reserved(w, w', w.sessions[session].phases[phase], w'.sessions[session].phases[phase])
            && (forall id, p :: HasRecord(w, id, p) && (id != session || p != phase) ==>
                  HasRecord(w', id, p) && w'.sessions[id].phases[p] == w.sessions[id].phases[p])
  {
    hide Reserve;
    hide Reservable;
    hide Sound;
    hide ReservedRecord;
    hide ReservedSession;
    hide ResolveInputs;
    hide BindingsSound;
    hide Forward;
    hide Authority.LeasesEvolve;
    var w' := Reserve(w, session, phase, isRetry, true, env);
    ReserveGrants(w, session, phase, isRetry, env);
    ReservedRecordFacts(w, session, phase, isRetry, env.now);
    ResolvedRegistered(w, w.sessions[session], w.sessions[session].phases[phase]);
    StillForward(w, w');
    if w'.next.invocation < MAX_COUNTER {
      NewBindings(w, w', ReservedSession(w, session, phase, isRetry, env.now), ReservedRecord(w, session, phase, isRetry, env.now));
    }
  }

  lemma NewBindings(w: World, w': World, t: CompilerSession, q: PhaseRecord)
    requires BindingsSound(w) && t.id in w.sessions && q.id in w.sessions[t.id].phases && SameBinding(w.sessions[t.id], t)
    requires w'.sessions == w.sessions[t.id := t] && t.phases == w.sessions[t.id].phases[q.id := q]
    requires w'.issued <= w.issued + {ReservationFor(t, q)}
    requires Authority.LeasesEvolve(w.leases, w'.leases) && w.next.invocation < w'.next.invocation
    requires q.activeInvocation == Ref(w.next.invocation, INITIAL)
    requires q.lease == Ref(w.leases.next, INITIAL) && q.lease.id in w'.leases.entries
    ensures BindingsSound(w')
  {
    forall id, p | id in w'.sessions && p in w'.sessions[id].phases
      ensures AttemptSound(w', w'.sessions[id].phases[p])
    {
      if id != t.id || p != q.id {
        assert AttemptSound(w, w.sessions[id].phases[p]);
      }
    }
    forall r | r in w'.issued
      ensures ReservationSound(w', r)
    {
      if r in w.issued {
        assert ReservationSound(w, r);
      }
    }
  }

  /* ---------- Every action ---------- */

  function CauseOf(a: Action): Cause {
    if a.DoApplyRecovery? then Resuming
    else if a.DoGrantRetry? then Granting
    else if a.DoRecord? || a.DoReport? then Reporting
    else Ordinary
  }

  /** Each phase goes on as before, or is reserved anew by this very action. */
  ghost predicate Attempted(w: World, w': World, a: Action) {
    forall id, p :: HasRecord(w, id, p) ==>
      && HasRecord(w', id, p)
      && (|| Continues(w.sessions[id].phases[p], w'.sessions[id].phases[p], CauseOf(a))
          || (a.DoReserve? && a.session == id && a.phase == p
              && Reserved(w, w', w.sessions[id].phases[p], w'.sessions[id].phases[p])))
  }

  lemma ContinuedAttempted(w: World, w': World, a: Action, cause: Cause)
    requires Continued(w, w', cause) && (cause == Ordinary || cause == CauseOf(a))
    ensures Attempted(w, w', a)
  {
    hide Reserved;
    forall id, p | HasRecord(w, id, p)
      ensures HasRecord(w', id, p) && Continues(w.sessions[id].phases[p], w'.sessions[id].phases[p], CauseOf(a))
    {
      assert SessionContinues(w.sessions[id], w'.sessions[id], cause);
      assert Continues(w.sessions[id].phases[p], w'.sessions[id].phases[p], cause);
    }
  }

  lemma ReserveAttempted(w: World, w': World, a: Action, env: Ambient)
    requires Sound(w) && BindingsSound(w) && a.DoReserve? && w' == Reserve(w, a.session, a.phase, a.isRetry, a.workspace, env)
    ensures Attempted(w, w', a) && Forward(w, w') && (w'.next.invocation < MAX_COUNTER ==> BindingsSound(w'))
  {
    hide Reserve;
    hide Sound;
    hide BindingsSound;
    hide Reservable;
    hide Forward;
    hide Reserved;
    hide Continues;
    ReserveBindings(w, a.session, a.phase, a.isRetry, a.workspace, env);
    forall id, p | HasRecord(w, id, p) && w'.sessions[id].phases[p] == w.sessions[id].phases[p]
      ensures Continues(w.sessions[id].phases[p], w'.sessions[id].phases[p], Ordinary)
    {
      SameContinues(w.sessions[id].phases[p], w.sessions[id].phases[p]);
    }
  }

  /** Actions that change no session apart from continuing it. */
  lemma ApplyContinues(w: World, e: Event)
    requires Sound(w)
    requires !e.action.DoReserve? && !e.action.DoCreate? && !e.action.DoBeginCommit?
    ensures Continued(w, Apply(w, e), CauseOf(e.action)) && Onward(w, Apply(w, e))
  {
    hide Sound;
    hide Continued;
    hide Onward;
    hide Launch;
    hide NoteProcess;
    hide RecordCurrent;
    hide ReproductionFailed;
    hide Validate;
    hide Commit;
    hide CancelPhase;
    hide FailPhase;
    hide GrantRetry;
    hide FenceSession;
    hide CloseSession;
    hide RetireSession;
    hide SetSessionState;
    hide PlanRecovery;
    hide ApplyRecovery;
    SelfContinues(w);
    ForAnyCause(w, w, CauseOf(e.action));
    match e.action {
      case DoChange(change) => ChangeContinues(w, change);
      case DoLaunch(r, outcome) => LaunchContinues(w, r, outcome, e.env);
      case DoNoteProcess(r, process) => NoteProcessContinues(w, r, process);
      case DoRecord(r, report) =>
        if Current(w, r) {
          RecordContinues(w, r, report, e.env);
        }
      case DoReport(session, phase, generation, invocation, report) =>
        if HasRecord(w, session, phase) {
          var r := ReservationFor(w.sessions[session], w.sessions[session].phases[phase]);
          if Current(w, r) {
            RecordContinues(w, r, report, e.env);
          }
        }
      case DoReproductionFailed(r, status, detail) => ReproductionContinues(w, r, status, detail, e.env);
      case DoValidate(r, evidence) => ValidateContinues(w, r, evidence, e.env);
      case DoCommit(r, probe, pub) => CommitContinues(w, r, probe, pub, e.env);
      case DoCancelPhase(session, phase, detail) => CancelContinues(w, session, phase, detail, e.env);
      case DoFailPhase(session, phase, generation, failure, status, detail) =>
        FailContinues(w, session, phase, generation, failure, status, detail, e.env);
      case DoGrantRetry(session, phase) => GrantRetryContinues(w, session, phase);
      case DoFenceSession(session, detail) => FenceContinues(w, session, e.env.now, detail);
      case DoCloseSession(session) => CloseSessionContinues(w, session, e.env);
      case DoShutdown(stopping) => FlagContinues(w, stopping);
      case DoRetireSession(session, detail) => RetireContinues(w, session, detail, e.env);
      case DoSetSessionState(session, state, detail) => SetSessionStateContinues(w, session, state, detail, e.env);
      case DoPlanRecovery(session) => PlanContinues(w, session);
      case DoApplyRecovery(session, requiresOperator, steps, recovery) =>
        RecoverContinues(w, session, requiresOperator, steps, recovery, e.env);
    }
  }

  lemma PlanContinues(w: World, session: U64)
    ensures var w' := PlanRecovery(w, session); Continued(w, w', Ordinary) && Onward(w, w')
  {
    hide PlanFor;
    var w' := PlanRecovery(w, session);
    LeasesReflexive(w.leases);
    StillForward(w, w');
    SessionsUnchanged(w, w');
  }

  lemma FlagContinues(w: World, stopping: bool)
    ensures var w' := w.(shuttingDown := stopping); Continued(w, w', Ordinary) && Onward(w, w')
  {
    var w' := w.(shuttingDown := stopping);
    LeasesReflexive(w.leases);
    StillForward(w, w');
    SessionsUnchanged(w, w');
  }

  lemma ChangeContinues(w: World, c: DomainChange)
    ensures var w' := w.(domains := Change(w.domains, c)); Continued(w, w', Ordinary) && Onward(w, w')
  {
    hide Evolves;
    hide Change;
    hide Authority.LeasesEvolve;
    var w' := w.(domains := Change(w.domains, c));
    ChangeForward(w.domains, c);
    LeasesReflexive(w.leases);
    SessionsUnchanged(w, w');
  }

  /** Every action keeps the bindings of attempts and reservations in order, as long as the
      invocation counter has not saturated. */
  lemma ApplyBindings(w: World, e: Event)
    requires Sound(w) && BindingsSound(w)
    ensures var w' := Apply(w, e);
            Attempted(w, w', e.action) && Forward(w, w') && (w'.next.invocation < MAX_COUNTER ==> BindingsSound(w'))
  {
    hide Sound;
    hide BindingsSound;
    hide Forward;
    hide Attempted;
    hide Continued;
    hide Reserve;
    hide Create;
    hide BeginCommit;
    var w' := Apply(w, e);
    var a := e.action;
    ApplySound(w, e);
    if a.DoReserve? {
      ReserveAttempted(w, w', a, e.env);
    } else if a.DoCreate? {
      CreateBindings(w, a.newSession, a.phasesUpTo, e.env);
      ContinuedAttempted(w, w', a, Ordinary);
    } else if a.DoBeginCommit? {
      BeginCommitBindings(w, a.session, a.phase, a.generation, a.invocation);
      ContinuedAttempted(w, w', a, Ordinary);
    } else {
      hide Apply;
      ApplyContinues(w, e);
      ContinuedBindings(w, w', CauseOf(a));
      ContinuedAttempted(w, w', a, CauseOf(a));
    }
  }

  /** Leases, registries and allocators move forward under every action. */
  lemma ApplyForward(w: World, e: Event)
    requires Sound(w)
    ensures Forward(w, Apply(w, e))
  {
    hide Sound;
    hide Forward;
    hide Reserve;
    hide Create;
    var a := e.action;
    if a.DoReserve? {
      ReserveForward(w, a.session, a.phase, a.isRetry, a.workspace, e.env);
    } else if a.DoCreate? {
      hide NewSession;
      CreateShape(w, a.newSession, a.phasesUpTo, e.env);
      LeasesReflexive(w.leases);
      StillForward(w, Apply(w, e));
    } else if a.DoBeginCommit? {
      LeasesReflexive(w.leases);
      StillForward(w, Apply(w, e));
    } else {
      hide Apply;
      ApplyContinues(w, e);
    }
  }

  lemma ReserveForward(w: World, session: U64, phase: U64, isRetry: bool, workspace: bool, env: Ambient)
    requires Sound(w)
    ensures Forward(w, Reserve(w, session, phase, isRetry, workspace, env))
  {
    hide Sound;
    hide Forward;
    hide Reservable;
    hide ReservedRecord;
    hide ReservedSession;
    hide BundleOf;
    hide ResolveInputs;
    hide Authority.LeasesEvolve;
    var w' := Reserve(w, session, phase, isRetry, workspace, env);
    if Reservable(w, session, phase, isRetry) && workspace {
      ReserveGrants(w, session, phase, isRetry, env);
    }
    LeasesReflexive(w.leases);
    StillForward(w, w');
  }
}
