/** How phase records and sessions may change over time, and that every section of the runtime
    changes them only in that way. */
module Evolution {
  import opened StrongId
  import opened Bytes
  import opened Wrappers
  import opened Phases
  import opened PhasePlans
  import opened Ancestry
  import opened Sessions
  import opened Runtime

  /** States a phase only leaves to be retired. */
  predicate Settled(s: PhaseState) {
    s in {Committed, Cancelled, Fenced, Retired}
  }

  /** A settled phase keeps its generation and its commit, and can at most become RETIRED. */
  ghost predicate PhaseEvolves(a: PhaseRecord, b: PhaseRecord) {
    && b.id == a.id && b.dependsOn == a.dependsOn
    && a.generation <= b.generation
    && (Settled(a.state) ==> (b.state == a.state || b.state == Retired) && b.generation == a.generation && b.commit == a.commit)
  }

  /** What a session is bound to never changes. */
  ghost predicate SameBinding(s: CompilerSession, t: CompilerSession) {
    && t.id == s.id && t.plan == s.plan
    && t.compilationGeneration == s.compilationGeneration
    && t.toolchain == s.toolchain && t.cooperating == s.cooperating
    && t.target == s.target && t.environment == s.environment && t.policy == s.policy
    && t.source == s.source && t.irGeneration == s.irGeneration
  }

  ghost predicate SessionEvolves(s: CompilerSession, t: CompilerSession) {
    && SameBinding(s, t)
    && s.phases.Keys == t.phases.Keys
    && forall id :: id in s.phases ==> PhaseEvolves(s.phases[id], t.phases[id])
  }

  lemma SessionEvolvesTransitive(s: CompilerSession, t: CompilerSession, u: CompilerSession)
    requires SessionEvolves(s, t) && SessionEvolves(t, u)
    ensures SessionEvolves(s, u)
  {
    forall id | id in s.phases
      ensures PhaseEvolves(s.phases[id], u.phases[id])
    {
      assert PhaseEvolves(s.phases[id], t.phases[id]) && PhaseEvolves(t.phases[id], u.phases[id]);
    }
  }

  /* ---------- One phase at a time ---------- */

  predicate Underway(s: PhaseState) {
    InFlight(s) || s == Committed
  }

  /** A sound change of one phase of a session. Only a commit makes a phase COMMITTED. */
  ghost predicate PhaseStep(s: CompilerSession, p: PhaseRecord, q: PhaseRecord, committing: bool) {
    && PhaseEvolves(p, q)
    && RecordSound(q)
    && (p.state == Committed ==> q.state == Committed)
    && (q.state == Committed && p.state != Committed ==> committing)
    && (Underway(q.state) ==> Fed(s, q))
  }

  /** The same record as far as the lifecycle is concerned. */
  ghost predicate SameCore(p: PhaseRecord, q: PhaseRecord) {
    && q.id == p.id && q.dependsOn == p.dependsOn && q.generation == p.generation && q.commit == p.commit
    && q.state == p.state && q.history == p.history && |q.attempts| == |p.attempts|
  }

  /** What is known of each phase of a sound session. */
  ghost predicate PhaseIn(s: CompilerSession, p: PhaseRecord) {
    && p.id in s.phases && s.phases[p.id] == p
    && RecordSound(p)
    && (Underway(p.state) ==> Fed(s, p))
  }

  lemma PhasesOf(s: CompilerSession, id: U64)
    requires SessionSound(s) && id in s.phases
    ensures PhaseIn(s, s.phases[id]) && s.phases[id].id == id
  {
  }

  lemma UnmovedStep(s: CompilerSession, p: PhaseRecord, q: PhaseRecord)
    requires PhaseIn(s, p) && SameCore(p, q)
    ensures PhaseStep(s, p, q, false)
  {
  }

  /** Asking for a transition is sound, whatever it turns into. */
  lemma TransitionStep(s: CompilerSession, p: PhaseRecord, q: PhaseRecord, to: PhaseState, at: U64, reason: Text)
    requires PhaseIn(s, p) && SameCore(p, q)
    requires to !in {Pending, Preparing, RecoveryRequired, Committed}
    requires to in {Fenced, Retired} ==> p.state != Committed
    ensures PhaseStep(s, p, RecordTransition(q, to, at, reason), false)
    ensures RecordTransition(q, to, at, reason).id == p.id
  {
    hide Recorded;
    hide IsChain;
    RecordKeepsChain(q.history, q.state, to, at, reason);
    MovedForward(q.state, to);
  }

  /** A second request on top of a sound change. */
  lemma TransitionAgain(s: CompilerSession, p: PhaseRecord, q: PhaseRecord, to: PhaseState, at: U64, reason: Text)
    requires PhaseStep(s, p, q, false) && to in {Running, Produced, Validating, CommitReady, Failed}
    ensures PhaseStep(s, p, RecordTransition(q, to, at, reason), false)
    ensures RecordTransition(q, to, at, reason).id == p.id
  {
    hide Recorded;
    hide IsChain;
    RecordKeepsChain(q.history, q.state, to, at, reason);
    MovedForward(q.state, to);
  }

  /** Bookkeeping on top of a sound change. */
  lemma StepAside(s: CompilerSession, p: PhaseRecord, q: PhaseRecord, q': PhaseRecord)
    requires PhaseStep(s, p, q, false) && SameCore(q, q')
    ensures PhaseStep(s, p, q', false)
  {
    hide IsChain;
  }

  lemma InvocationAside(p: PhaseRecord, to: PhaseState, at: U64, reason: Text)
    ensures RecordTransition(p, to, at, reason).(activeInvocation := ABSENT)
         == RecordTransition(p.(activeInvocation := ABSENT), to, at, reason)
  {
  }

  lemma CommitStep(s: CompilerSession, p: PhaseRecord, commit: U64, now: U64)
    requires PhaseIn(s, p) && p.state == CommitReady
    ensures PhaseStep(s, p, CommittedRecord(p, commit, now), true)
    ensures CommittedRecord(p, commit, now).state == Committed && CommittedRecord(p, commit, now).id == p.id
    ensures CommittedRecord(p, commit, now).commit == commit && CommittedRecord(p, commit, now).generation == p.generation
  {
    RecordKeepsChain(p.history, p.state, Committed, now, COMMITTING);
    hide Recorded;
    hide IsChain;
  }

  lemma ReserveStep(s: CompilerSession, p: PhaseRecord, q: PhaseRecord, now: U64)
    requires PhaseIn(s, p) && p.state in {Pending, Ready, Failed} && Fed(s, p)
    requires q.id == p.id && q.dependsOn == p.dependsOn && q.generation >= p.generation
    requires q.state == p.state && q.history == p.history && |q.attempts| <= MAX_ATTEMPTS
    ensures PhaseStep(s, p, Prepared(q, now), false)
    ensures Prepared(q, now).state == Preparing && Prepared(q, now).id == p.id
  {
    var r := RecordTransition(q, Ready, now, RESERVED);
    RecordKeepsChain(q.history, q.state, Ready, now, RESERVED);
    MovedForward(q.state, Ready);
    RecordKeepsChain(r.history, r.state, Preparing, now, PREPARED);
    hide Recorded;
    hide IsChain;
  }

  lemma FedStays(s: CompilerSession, t: CompilerSession, p: PhaseRecord)
    requires Fed(s, p)
    requires forall id :: HasCommitted(s, id) ==> HasCommitted(t, id)
    ensures Fed(t, p)
  {
  }

  /* ---------- Several phases at once ---------- */

  /** Changing phases soundly, one or all of them, keeps the session sound. */
  lemma ManyPhases(s: CompilerSession, t: CompilerSession, committing: bool)
    requires SessionSound(s) && SameBinding(s, t) && t.phases.Keys == s.phases.Keys
    requires forall id :: id in s.phases ==> PhaseStep(s, s.phases[id], t.phases[id], committing)
    ensures SessionSound(t) && SessionEvolves(s, t)
  {
    hide PhaseStep;
    hide PhaseEvolves;
    hide Shaped;
    hide DependenciesCommitted;
    hide RecordSound;
    hide Fed;
    forall id | id in s.phases
      ensures t.phases[id].id == s.phases[id].id && t.phases[id].dependsOn == s.phases[id].dependsOn
      ensures PhaseEvolves(s.phases[id], t.phases[id]) && RecordSound(t.phases[id])
      ensures s.phases[id].state == Committed ==> t.phases[id].state == Committed
      ensures Underway(t.phases[id].state) ==> Fed(s, t.phases[id])
    {
      StepFacts(s, s.phases[id], t.phases[id], committing);
    }
    ManyShaped(s, t);
    ManyFed(s, t);
  }

  lemma ManyShaped(s: CompilerSession, t: CompilerSession)
    requires Shaped(s) && t.plan == s.plan && t.phases.Keys == s.phases.Keys
    requires forall id :: id in s.phases ==> t.phases[id].id == s.phases[id].id && t.phases[id].dependsOn == s.phases[id].dependsOn
    ensures Shaped(t)
  {
    hide IsPlan;
    hide Dependencies;
    hide HasPhase;
  }

  lemma ManyFed(s: CompilerSession, t: CompilerSession)
    requires t.phases.Keys == s.phases.Keys
    requires forall id :: id in s.phases && s.phases[id].state == Committed ==> t.phases[id].state == Committed
    requires forall id :: id in s.phases && Underway(t.phases[id].state) ==> Fed(s, t.phases[id])
    ensures DependenciesCommitted(t)
  {
    hide Fed;
    forall id | id in t.phases && Underway(t.phases[id].state)
      ensures Fed(t, t.phases[id])
    {
      FedStays(s, t, t.phases[id]);
    }
  }

  lemma StepFacts(s: CompilerSession, p: PhaseRecord, q: PhaseRecord, committing: bool)
    requires PhaseStep(s, p, q, committing)
    ensures q.id == p.id && q.dependsOn == p.dependsOn && PhaseEvolves(p, q) && RecordSound(q)
    ensures p.state == Committed ==> q.state == Committed
    ensures Underway(q.state) ==> Fed(s, q)
  {
  }

  lemma OnePhase(s: CompilerSession, t: CompilerSession, q: PhaseRecord, committing: bool)
    requires SessionSound(s) && q.id in s.phases && PhaseStep(s, s.phases[q.id], q, committing)
    requires SameBinding(s, t) && t.phases == s.phases[q.id := q]
    ensures SessionSound(t) && SessionEvolves(s, t)
  {
    hide SessionSound;
    hide PhaseStep;
    hide PhaseIn;
    assert t.phases.Keys == s.phases.Keys;
    forall id | id in s.phases
      ensures PhaseStep(s, s.phases[id], t.phases[id], committing)
    {
      if id != q.id {
        PhasesOf(s, id);
        UnmovedStep(s, s.phases[id], s.phases[id]);
        MayCommit(s, s.phases[id], s.phases[id], committing);
      }
    }
    ManyPhases(s, t, committing);
  }

  lemma MayCommit(s: CompilerSession, p: PhaseRecord, q: PhaseRecord, committing: bool)
    requires PhaseStep(s, p, q, false)
    ensures PhaseStep(s, p, q, committing)
  {
  }

  /** No phase became COMMITTED or stopped being so. */
  lemma NoneCommitted(s: CompilerSession, t: CompilerSession)
    requires t.phases.Keys == s.phases.Keys
    requires forall id :: id in s.phases ==> PhaseStep(s, s.phases[id], t.phases[id], false)
    ensures forall id :: HasCommitted(t, id) <==> HasCommitted(s, id)
  {
    forall id: U64
      ensures HasCommitted(t, id) <==> HasCommitted(s, id)
    {
      if id in s.phases {
        assert PhaseStep(s, s.phases[id], t.phases[id], false);
      }
    }
  }

  lemma FenceStep(s: CompilerSession, p: PhaseRecord, now: U64, reason: Text)
    requires PhaseIn(s, p) && InFlight(p.state)
    ensures PhaseStep(s, p, FencedRecord(p, now, reason), false)
    ensures FencedRecord(p, now, reason).state == Fenced
  {
    hide IsChain;
    hide Recorded;
    var q := p.(failure := AuthorityInvalidated, lastStatus := STALE_EPOCH, lastDetail := reason,
                attempts := CloseAttempt(p.attempts, Fenced, AuthorityInvalidated),
                activeInvocation := ABSENT, activeProcess := 0, activeProcessGeneration := 0);
    TransitionStep(s, p, q, Fenced, now, reason);
    MovedForward(p.state, Fenced);
  }

  /** fence_all_in_flight. */
  lemma FenceSound(s: CompilerSession, now: U64, reason: Text)
    requires SessionSound(s)
    ensures SessionSound(FencedSession(s, now, reason)) && SessionEvolves(s, FencedSession(s, now, reason))
    ensures forall id :: id in s.phases ==> !InFlight(FencedSession(s, now, reason).phases[id].state)
    ensures forall id :: HasCommitted(FencedSession(s, now, reason), id) <==> HasCommitted(s, id)
  {
    hide FencedRecord;
    hide RecordSound;
    hide PhaseStep;
    var t := FencedSession(s, now, reason);
    forall id | id in s.phases
      ensures PhaseStep(s, s.phases[id], t.phases[id], false) && !InFlight(t.phases[id].state)
    {
      PhasesOf(s, id);
      PhaseInOrder(s, id);
      if InFlight(s.phases[id].state) {
        FenceStep(s, s.phases[id], now, reason);
      } else {
        UnmovedStep(s, s.phases[id], s.phases[id]);
      }
    }
    ManyPhases(s, t, false);
    NoneCommitted(s, t);
  }

  lemma PhaseInOrder(s: CompilerSession, id: U64)
    requires Shaped(s) && id in s.phases
    ensures id in s.plan.order
  {
    OrderIsPermutation(s.plan);
  }

  /** apply_recovery: phases under way fall back to READY, fenced ones are retired. */
  lemma RecoverSound(s: CompilerSession, now: U64, t: CompilerSession)
    requires SessionSound(s) && SameBinding(s, t) && t.phases == RecoveredPhases(s, now)
    ensures SessionSound(t) && SessionEvolves(s, t)
    ensures forall id :: HasCommitted(t, id) <==> HasCommitted(s, id)
  {
    hide Shaped;
    hide DependenciesCommitted;
    hide RecordSound;
    hide PhaseStep;
    hide PhaseIn;
    hide RecoveredRecord;
    forall id | id in s.phases
      ensures PhaseStep(s, s.phases[id], t.phases[id], false)
    {
      PhasesOf(s, id);
      PhaseInOrder(s, id);
      RecoverStep(s, s.phases[id], now);
    }
    ManyPhases(s, t, false);
    NoneCommitted(s, t);
  }

  lemma RecoverStep(s: CompilerSession, p: PhaseRecord, now: U64)
    requires PhaseIn(s, p)
    ensures PhaseStep(s, p, RecoveredRecord(p, now), false)
  {
    hide IsChain;
    hide Recorded;
    if p.state in {Committed, Failed, Cancelled, Retired} {
      UnmovedStep(s, p, p);
    } else if RetainsCommitAuthority(p.state) {
      TransitionStep(s, p, p, Ready, now, RESUMED);
      Cleared(s, p, RecordTransition(p, Ready, now, RESUMED));
    } else {
      TransitionStep(s, p, p, Retired, now, RETIRING);
      Cleared(s, p, RecordTransition(p, Retired, now, RETIRING));
    }
  }

  lemma Cleared(s: CompilerSession, p: PhaseRecord, q: PhaseRecord)
    requires PhaseStep(s, p, q, false)
    ensures PhaseStep(s, p, q.(failure := NoFailure, lastStatus := OK, lastDetail := []), false)
  {
  }

  /** retire_session: every phase ends RETIRED, and a committed one keeps its commit. */
  lemma RetireSound(s: CompilerSession, now: U64, reason: Text, t: CompilerSession)
    requires SessionSound(s) && SameBinding(s, t) && t.phases == RetiredPhases(s, now, reason)
    ensures SessionSound(t) && SessionEvolves(s, t)
    ensures forall id :: id in t.phases ==> t.phases[id].state == Retired
  {
    hide RecordTransition;
    hide RecordSound;
    hide IsPlan;
    hide PhaseEvolves;
    hide Fed;
    assert t.phases.Keys == s.phases.Keys;
    forall id | id in s.phases
      ensures t.phases[id].state == Retired && RecordSound(t.phases[id]) && PhaseEvolves(s.phases[id], t.phases[id])
      ensures t.phases[id].id == id && t.phases[id].dependsOn == Dependencies(t.plan.nodes, id)
    {
      PhasesOf(s, id);
      PhaseInOrder(s, id);
      RetireStep(s, s.phases[id], now, reason);
    }
    AllRetired(s, t);
  }

  lemma AllRetired(s: CompilerSession, t: CompilerSession)
    requires Shaped(s) && SameBinding(s, t) && s.phases.Keys == t.phases.Keys
    requires forall id :: id in s.phases ==>
               && t.phases[id].state == Retired && RecordSound(t.phases[id]) && PhaseEvolves(s.phases[id], t.phases[id])
               && t.phases[id].id == id && t.phases[id].dependsOn == Dependencies(t.plan.nodes, id)
    ensures SessionSound(t) && SessionEvolves(s, t)
  {
    hide IsPlan;
    hide RecordSound;
    hide PhaseEvolves;
    hide Dependencies;
    forall id | id in t.phases
      ensures HasPhase(t.plan, id) && RecordSound(t.phases[id]) && !InFlight(t.phases[id].state)
    {
    }
    assert Shaped(t);
  }

  lemma RetireStep(s: CompilerSession, p: PhaseRecord, now: U64, reason: Text)
    requires PhaseIn(s, p)
    ensures var q := RecordTransition(p, Retired, now, reason);
            q.state == Retired && RecordSound(q) && PhaseEvolves(p, q) && q.id == p.id && q.dependsOn == p.dependsOn
  {
    RecordKeepsChain(p.history, p.state, Retired, now, reason);
    MovedForward(p.state, Retired);
    hide IsChain;
    hide Recorded;
  }
}
