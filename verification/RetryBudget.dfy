/** The retry budget over all runs: how many attempts a session can ever make. */
module RetryBudget {
  import opened StrongId
  import opened Bytes
  import opened Wrappers
  import opened Phases
  import opened PhasePlans
  import opened Ancestry
  import opened Sessions
  import opened Runtime
  import opened Evolution
  import opened Safety
  import opened Bindings
  import opened Guarantees
  import opened CommitSafety
  import opened ArtifactSafety
  import opened Custody
  import opened Restarts
  import opened Takeover
  import opened Lives
  import Authority
  import Artifacts

  /* ---------- Counting ---------- */

  function AttemptsOf(s: CompilerSession, id: U64): nat {
    if id in s.phases then |s.phases[id].attempts| else 0
  }

  function WaitingOf(s: CompilerSession, id: U64): nat {
    if id in s.phases && Waiting(s.phases[id].state) then 1 else 0
  }

  /** Attempts made by the listed phases, plus those still waiting for their first. */
  function Charge(s: CompilerSession, ids: seq<U64>): nat {
    if ids == [] then 0 else AttemptsOf(s, ids[0]) + WaitingOf(s, ids[0]) + Charge(s, ids[1..])
  }

  function Attempts(s: CompilerSession, ids: seq<U64>): nat {
    if ids == [] then 0 else AttemptsOf(s, ids[0]) + Attempts(s, ids[1..])
  }

  function WaitingCount(s: CompilerSession, ids: seq<U64>): nat {
    if ids == [] then 0 else WaitingOf(s, ids[0]) + WaitingCount(s, ids[1..])
  }

  lemma {:induction false} ChargeSplits(s: CompilerSession, ids: seq<U64>)
    ensures Charge(s, ids) == Attempts(s, ids) + WaitingCount(s, ids)
  {
    if ids != [] {
      ChargeSplits(s, ids[1..]);
    }
  }

  predicate AllDifferent(ids: seq<U64>) {
    forall i, j :: 0 <= i < j < |ids| ==> ids[i] != ids[j]
  }

  ghost predicate PhasesContinue(s: CompilerSession, t: CompilerSession, cause: Cause) {
    s.phases.Keys == t.phases.Keys && forall id :: id in s.phases ==> Continues(s.phases[id], t.phases[id], cause)
  }

  /** Phases that only go on make no new attempt and start no new wait. */
  lemma {:induction false} ChargeContinues(s: CompilerSession, t: CompilerSession, ids: seq<U64>, cause: Cause)
    requires PhasesContinue(s, t, cause) && cause != Resuming
    ensures Charge(t, ids) <= Charge(s, ids)
  {
    if ids != [] {
      ChargeContinues(s, t, ids[1..], cause);
      if ids[0] in s.phases {
        assert Continues(s.phases[ids[0]], t.phases[ids[0]], cause);
      }
    }
  }

  lemma {:induction false} AttemptsContinue(s: CompilerSession, t: CompilerSession, ids: seq<U64>, cause: Cause)
    requires PhasesContinue(s, t, cause)
    ensures Attempts(t, ids) == Attempts(s, ids)
  {
    if ids != [] {
      AttemptsContinue(s, t, ids[1..], cause);
      if ids[0] in s.phases {
        assert Continues(s.phases[ids[0]], t.phases[ids[0]], cause);
      }
    }
  }

  /** Reserving one phase costs a wait, or a retry. */
  lemma {:induction false} ChargeReserved(s: CompilerSession, t: CompilerSession, ids: seq<U64>, phase: U64)
    requires phase in s.phases && t.phases.Keys == s.phases.Keys && AllDifferent(ids)
    requires forall id :: id in s.phases && id != phase ==> t.phases[id] == s.phases[id]
    requires t.phases[phase].state == Preparing && |t.phases[phase].attempts| == |s.phases[phase].attempts| + 1
    ensures Charge(t, ids) <= Charge(s, ids) + (if Waiting(s.phases[phase].state) then 0 else 1)
    ensures phase !in ids ==> Charge(t, ids) == Charge(s, ids)
  {
    if ids != [] {
      assert AllDifferent(ids[1..]);
      ChargeReserved(s, t, ids[1..], phase);
      if ids[0] == phase {
        assert phase !in ids[1..];
      }
    }
  }

  lemma {:induction false} ChargeBlank(s: CompilerSession, ids: seq<U64>)
    requires forall id :: id in s.phases ==> s.phases[id].attempts == []
    ensures Charge(s, ids) <= |ids|
  {
    if ids != [] {
      ChargeBlank(s, ids[1..]);
    }
  }

  /* ---------- One step ---------- */

  /** A retry that was reserved: an effective reservation of a failed phase. */
  ghost predicate Retries(w: World, e: Event, w': World, session: U64) {
    && e.action.DoReserve? && e.action.session == session && e.action.isRetry
    && HasRecord(w, session, e.action.phase) && HasRecord(w', session, e.action.phase)
    && w.sessions[session].phases[e.action.phase].state == Failed
    && w'.sessions[session].phases[e.action.phase].state == Preparing
  }

  /** Phases that recovery put back to waiting. */
  ghost function Resumed(w: World, e: Event, w': World, session: U64): nat
    requires session in w.sessions && session in w'.sessions
  {
    var before := WaitingCount(w.sessions[session], w.sessions[session].plan.order);
    var after := WaitingCount(w'.sessions[session], w'.sessions[session].plan.order);
    if e.action.DoApplyRecovery? && after > before then after - before else 0
  }

  ghost function Cost(w: World, e: Event, w': World, session: U64): nat
    requires session in w.sessions && session in w'.sessions
  {
    (if Retries(w, e, w', session) then 1 else 0) + Resumed(w, e, w', session)
  }

  /** One event raises the charge of a session by what it costs, and no more. */
  lemma StepCharge(w: World, e: Event, w': World, session: U64)
    requires Sound(w) && BindingsSound(w) && Step(w, e, w') && session in w.sessions
    ensures session in w'.sessions && w'.sessions[session].plan == w.sessions[session].plan
    ensures Charge(w'.sessions[session], w.sessions[session].plan.order)
         <= Charge(w.sessions[session], w.sessions[session].plan.order) + Cost(w, e, w', session)
  {
    hide Sound;
    hide BindingsSound;
    hide Apply;
    StepSound(w, e, w');
    assert SessionEvolves(w.sessions[session], w'.sessions[session]);
    if e.action.DoReserve? {
      ReserveIs(w, e, w');
      ReserveCharge(w, e, w', session);
    } else {
      ApplyBindings(w, e);
      OtherCharge(w, e, w', session);
    }
  }

  lemma OtherCharge(w: World, e: Event, w': World, session: U64)
    requires Attempted(w, w', e.action) && !e.action.DoReserve?
    requires session in w.sessions && session in w'.sessions
    requires w.sessions[session].phases.Keys == w'.sessions[session].phases.Keys
    requires w'.sessions[session].plan == w.sessions[session].plan
    ensures Charge(w'.sessions[session], w.sessions[session].plan.order)
         <= Charge(w.sessions[session], w.sessions[session].plan.order) + Cost(w, e, w', session)
  {
    hide Continues;
    var s, t := w.sessions[session], w'.sessions[session];
    forall p | p in s.phases
      ensures Continues(s.phases[p], t.phases[p], CauseOf(e.action))
    {
      assert HasRecord(w, session, p);
    }
    var order := s.plan.order;
    if CauseOf(e.action) == Resuming {
      AttemptsContinue(s, t, order, Resuming);
      ChargeSplits(s, order);
      ChargeSplits(t, order);
    } else {
      ChargeContinues(s, t, order, CauseOf(e.action));
    }
  }

  lemma ReserveCharge(w: World, e: Event, w': World, session: U64)
    requires Sound(w) && BindingsSound(w) && e.action.DoReserve?
    requires w' == Reserve(w, e.action.session, e.action.phase, e.action.isRetry, e.action.workspace, e.env)
    requires session in w.sessions && session in w'.sessions && SessionEvolves(w.sessions[session], w'.sessions[session])
    ensures Charge(w'.sessions[session], w.sessions[session].plan.order)
         <= Charge(w.sessions[session], w.sessions[session].plan.order) + Cost(w, e, w', session)
  {
    hide Sound;
    hide BindingsSound;
    hide Reserve;
    hide Forward;
    hide Charge;
    var a := e.action;
    var s, t := w.sessions[session], w'.sessions[session];
    ReserveBindings(w, a.session, a.phase, a.isRetry, a.workspace, e.env);
    if Reservable(w, a.session, a.phase, a.isRetry) && a.workspace && a.session == session {
      OrderDifferent(w, session);
      forall id | id in s.phases && id != a.phase
        ensures t.phases[id] == s.phases[id]
      {
        assert HasRecord(w, session, id);
      }
      ChargeReserved(s, t, s.plan.order, a.phase);
    } else {
      forall id | id in s.phases
        ensures t.phases[id] == s.phases[id]
      {
        assert HasRecord(w, session, id);
      }
      assert s.phases == t.phases;
      ChargeSame(s, t, s.plan.order);
    }
  }

  lemma {:induction false} ChargeSame(s: CompilerSession, t: CompilerSession, ids: seq<U64>)
    requires s.phases == t.phases
    ensures Charge(s, ids) == Charge(t, ids)
  {
    if ids != [] {
      ChargeSame(s, t, ids[1..]);
    }
  }

  lemma OrderDifferent(w: World, session: U64)
    requires Sound(w) && session in w.sessions
    ensures AllDifferent(w.sessions[session].plan.order)
  {
    hide LogSound;
    hide CommitsSound;
    OrderIsPermutation(w.sessions[session].plan);
  }

  /* ---------- The counter of granted retries ---------- */

  /** A retry that was granted: the session is charged for it. */
  ghost predicate Granted(w: World, e: Event, session: U64) {
    && e.action.DoGrantRetry? && e.action.session == session && HasRecord(w, session, e.action.phase)
    && var s := w.sessions[session];
       EvaluateRetry(s.phases[e.action.phase], PolicyFor(w, s), s.retriesUsed).Permitted?
  }

  lemma ReserveUncharged(w: World, session: U64, phase: U64, isRetry: bool, workspace: bool, env: Ambient, id: U64)
    requires Sound(w) && id in w.sessions
    ensures var w' := Reserve(w, session, phase, isRetry, workspace, env);
            id in w'.sessions && w'.sessions[id].retriesUsed == w.sessions[id].retriesUsed
  {
    hide Sound;
    hide Reservable;
    hide ReservedRecord;
    hide ResolveInputs;
    hide BundleOf;
    if Reservable(w, session, phase, isRetry) && workspace {
      ReserveGrants(w, session, phase, isRetry, env);
    }
  }

  lemma GrantCharges(w: World, session: U64, phase: U64, id: U64)
    requires Sound(w) && id in w.sessions
    ensures var w' := GrantRetry(w, session, phase);
            && id in w'.sessions
            && var charged := id == session && HasRecord(w, session, phase)
                 && EvaluateRetry(w.sessions[session].phases[phase], PolicyFor(w, w.sessions[session]), w.sessions[session].retriesUsed).Permitted?;
               w'.sessions[id].retriesUsed == (w.sessions[id].retriesUsed + if charged then 1 else 0) % 0x1_0000_0000
  {
    hide Sound;
    hide EvaluateRetry;
    hide PolicyFor;
    if session in w.sessions {
      SessionHere(w, session);
    }
  }

  /** session_retries_used counts the granted retries, modulo its 32-bit width. */
  lemma StepRetries(w: World, e: Event, w': World, session: U64)
    requires Sound(w) && Step(w, e, w') && session in w.sessions
    ensures session in w'.sessions
    ensures w'.sessions[session].retriesUsed == (w.sessions[session].retriesUsed + if Granted(w, e, session) then 1 else 0) % 0x1_0000_0000
  {
    hide Sound;
    hide Apply;
    var a := e.action;
    if a.DoGrantRetry? || a.DoReserve? || a.DoCreate? || a.DoBeginCommit? {
      SpecialRetries(w, e, session);
    } else {
      hide Onward;
      ApplyContinues(w, e);
      assert SessionContinues(w.sessions[session], w'.sessions[session], CauseOf(a));
    }
  }

  lemma SpecialRetries(w: World, e: Event, session: U64)
    requires Sound(w) && session in w.sessions
    requires e.action.DoGrantRetry? || e.action.DoReserve? || e.action.DoCreate? || e.action.DoBeginCommit?
    ensures session in Apply(w, e).sessions
    ensures Apply(w, e).sessions[session].retriesUsed == (w.sessions[session].retriesUsed + if Granted(w, e, session) then 1 else 0) % 0x1_0000_0000
  {
    hide Sound;
    hide Reserve;
    hide Create;
    hide GrantRetry;
    hide EvaluateRetry;
    hide PolicyFor;
    hide NewSession;
    var a := e.action;
    if a.DoGrantRetry? {
      GrantCharges(w, a.session, a.phase, session);
    } else if a.DoReserve? {
      ReserveUncharged(w, a.session, a.phase, a.isRetry, a.workspace, e.env, session);
    } else if a.DoCreate? {
      CreateShape(w, a.newSession, a.phasesUpTo, e.env);
    }
  }

  /* ---------- Grants that are outstanding ---------- */

  /** Retry calls of a session that were granted and have not yet reserved. */
  function OwedIn(owed: multiset<Grant>, session: U64, ids: seq<U64>): nat {
    if ids == [] then 0 else owed[Grant(session, ids[0])] + OwedIn(owed, session, ids[1..])
  }

  lemma {:induction false} OwedLess(a: multiset<Grant>, b: multiset<Grant>, session: U64, ids: seq<U64>)
    requires forall p: U64 :: b[Grant(session, p)] <= a[Grant(session, p)]
    ensures OwedIn(b, session, ids) <= OwedIn(a, session, ids)
  {
    if ids != [] {
      OwedLess(a, b, session, ids[1..]);
    }
  }

  lemma {:induction false} OwedNothing(owed: multiset<Grant>, session: U64, ids: seq<U64>)
    requires forall p: U64 :: Grant(session, p) !in owed
    ensures OwedIn(owed, session, ids) == 0
  {
    if ids != [] {
      OwedNothing(owed, session, ids[1..]);
    }
  }

  /** Adding or taking one grant changes the sum by one, or not at all. */
  lemma {:induction false} OwedOne(owed: multiset<Grant>, g: Grant, session: U64, ids: seq<U64>)
    requires AllDifferent(ids)
    ensures OwedIn(owed + multiset{g}, session, ids) == OwedIn(owed, session, ids) + if g.session == session && g.phase in ids then 1 else 0
  {
    if ids != [] {
      assert AllDifferent(ids[1..]);
      OwedOne(owed, g, session, ids[1..]);
      assert ids == [ids[0]] + ids[1..];
    }
  }

  lemma OwedTaken(owed: multiset<Grant>, g: Grant, session: U64, ids: seq<U64>)
    requires AllDifferent(ids) && g in owed && g.session == session && g.phase in ids
    ensures OwedIn(owed - multiset{g}, session, ids) + 1 == OwedIn(owed, session, ids)
  {
    var rest := owed - multiset{g};
    assert rest + multiset{g} == owed;
    OwedOne(rest, g, session, ids);
  }

  lemma CommitOwes(w: World, r: Reservation, probe: Probe, pub: Publication, env: Ambient)
    ensures Commit(w, r, probe, pub, env).owed == w.owed
  {
    hide CommitVerdict;
    hide CommittedSession;
    hide BundleOf;
    hide FencedForCommit;
    hide StatusOf;
    hide Stamped;
    hide Authorized;
    hide AllMayHold;
    hide NextGenerations;
  }

  /** Who owes what after an action. */
  lemma ApplyOwed(w: World, e: Event)
    ensures var a := e.action;
            Apply(w, e).owed ==
              if a.DoReserve? then Collected(w.owed, a.session, a.phase, a.isRetry)
              else if a.DoGrantRetry? && Granted(w, e, a.session) then w.owed + multiset{Grant(a.session, a.phase)}
              else w.owed
  {
    hide Apply;
    if e.action.DoCommit? || e.action.DoReserve? || e.action.DoGrantRetry? {
      SpecialOwed(w, e);
    } else {
      OthersSilent(w, e);
    }
  }

  lemma SpecialOwed(w: World, e: Event)
    requires e.action.DoCommit? || e.action.DoReserve? || e.action.DoGrantRetry?
    ensures var a := e.action;
            Apply(w, e).owed ==
              if a.DoReserve? then Collected(w.owed, a.session, a.phase, a.isRetry)
              else if a.DoGrantRetry? && Granted(w, e, a.session) then w.owed + multiset{Grant(a.session, a.phase)}
              else w.owed
  {
    hide Apply;
    hide Commit;
    hide Reserve;
    hide GrantRetry;
    hide EvaluateRetry;
    var a := e.action;
    SpecialActions(w, e);
    if a.DoCommit? {
      CommitOwes(w, a.r, a.probe, a.pub, e.env);
    } else if a.DoReserve? {
      ReserveOwes(w, a.session, a.phase, a.isRetry, a.workspace, e.env);
    } else {
      GrantOwes(w, a.session, a.phase);
    }
  }

  lemma ReserveOwes(w: World, session: U64, phase: U64, isRetry: bool, workspace: bool, env: Ambient)
    ensures Reserve(w, session, phase, isRetry, workspace, env).owed == Collected(w.owed, session, phase, isRetry)
  {
    hide Reservable;
    hide ReservedSession;
    hide BundleOf;
    hide Authority.Grant;
  }

  lemma GrantOwes(w: World, session: U64, phase: U64)
    ensures GrantRetry(w, session, phase).owed ==
      if HasRecord(w, session, phase)
         && EvaluateRetry(w.sessions[session].phases[phase], PolicyFor(w, w.sessions[session]), w.sessions[session].retriesUsed).Permitted?
      then w.owed + multiset{Grant(session, phase)} else w.owed
  {
    hide EvaluateRetry;
    hide PolicyFor;
  }

  /* ---------- The ledger ---------- */

  /** What was attempted, and may still be without a further grant, is covered by the plan, the
      retries charged to the session, and n. */
  predicate Covered(s: CompilerSession, owed: nat, n: nat) {
    Charge(s, s.plan.order) + owed <= |s.plan.nodes| + s.retriesUsed + n
  }

  /** The session and every record of it in the journal are covered. */
  ghost predicate Solvent(w: World, session: U64, n: nat) {
    && (session in w.sessions ==> Covered(w.sessions[session], OwedIn(w.owed, session, w.sessions[session].plan.order), n))
    && (session !in w.sessions ==> forall p: U64 :: Grant(session, p) !in w.owed)
    && forall i :: 0 <= i < |w.log| && w.log[i].session.id == session ==> Covered(w.log[i].session, 0, n)
  }

  /** Phases of the session that recovery put back to waiting, if it is there. */
  ghost function ResumedBy(w: World, e: Event, w': World, session: U64): nat {
    if session in w.sessions && session in w'.sessions then Resumed(w, e, w', session) else 0
  }

  /** The 32-bit counter of the session does not wrap. */
  ghost predicate Unwrapped(w: World, e: Event, session: U64) {
    Granted(w, e, session) ==> w.sessions[session].retriesUsed + 1 < 0x1_0000_0000
  }

  lemma OwedStep(w: World, e: Event, w': World, session: U64)
    requires Sound(w) && BindingsSound(w) && Step(w, e, w') && session in w.sessions && session in w'.sessions
    ensures var ids := w.sessions[session].plan.order;
            OwedIn(w'.owed, session, ids) + (if Retries(w, e, w', session) then 1 else 0)
              <= OwedIn(w.owed, session, ids) + (if Granted(w, e, session) then 1 else 0)
  {
    hide Sound;
    hide BindingsSound;
    hide Apply;
    hide EvaluateRetry;
    hide PolicyFor;
    var a := e.action;
    var ids := w.sessions[session].plan.order;
    ApplyOwed(w, e);
    OrderDifferent(w, session);
    if a.DoReserve? && a.isRetry {
      if Retries(w, e, w', session) {
        RetryOwed(w, e, w');
        OwedTaken(w.owed, Grant(session, a.phase), session, ids);
      } else {
        OwedLess(w.owed, w'.owed, session, ids);
      }
    } else if a.DoGrantRetry? && Granted(w, e, a.session) {
      OwedOne(w.owed, Grant(a.session, a.phase), session, ids);
    } else {
      hide Granted;
    }
  }

  /** An effective retry had its grant, for a phase of the plan. */
  lemma RetryOwed(w: World, e: Event, w': World)
    requires Sound(w) && Step(w, e, w') && e.action.DoReserve? && Retries(w, e, w', e.action.session)
    ensures Grant(e.action.session, e.action.phase) in w.owed && e.action.phase in w.sessions[e.action.session].plan.order
  {
    hide Sound;
    hide Apply;
    hide Reserve;
    hide Reservable;
    var a := e.action;
    ReserveIs(w, e, w');
    EffectiveReserve(w, a.session, a.phase, a.isRetry, a.workspace, e.env);
    ReservableOwed(w, a.session, a.phase);
    SessionAt(w, a.session);
    PhaseInOrder(w.sessions[a.session], a.phase);
  }

  lemma ReservableOwed(w: World, session: U64, phase: U64)
    requires Reservable(w, session, phase, true)
    ensures Grant(session, phase) in w.owed
  {
    hide Authority.Compare;
    hide ResolveInputs;
    hide Dependencies;
    hide HasPhase;
  }

  lemma SessionSolvent(w: World, e: Event, w': World, session: U64, n: nat)
    requires Healthy(w) && Step(w, e, w') && Solvent(w, session, n) && Unwrapped(w, e, session) && session in w.sessions
    ensures session in w'.sessions
    ensures Covered(w'.sessions[session], OwedIn(w'.owed, session, w'.sessions[session].plan.order), n + ResumedBy(w, e, w', session))
  {
    hide Sound;
    hide BindingsSound;
    hide ArtifactsSound;
    hide CustodySound;
    hide Apply;
    hide Charge;
    hide OwedIn;
    hide Retries;
    hide Granted;
    StepCharge(w, e, w', session);
    StepRetries(w, e, w', session);
    OwedStep(w, e, w', session);
    if Granted(w, e, session) {
      hide Resumed;
    }
  }

  lemma NewcomerSolvent(w: World, e: Event, w': World, session: U64, n: nat)
    requires Healthy(w) && Step(w, e, w') && Solvent(w, session, n) && session !in w.sessions
    ensures session in w'.sessions ==> Covered(w'.sessions[session], OwedIn(w'.owed, session, w'.sessions[session].plan.order), n)
    ensures session !in w'.sessions ==> forall p: U64 :: Grant(session, p) !in w'.owed
  {
    hide Sound;
    hide BindingsSound;
    hide ArtifactsSound;
    hide CustodySound;
    hide Apply;
    hide Charge;
    hide OwedIn;
    hide NewSession;
    hide EvaluateRetry;
    ApplyOwed(w, e);
    if session in w'.sessions {
      CreatedBy(w, e, w', session);
      NewSessionCharge(w, w'.sessions[session]);
      OwedNothing(w'.owed, session, w'.sessions[session].plan.order);
    }
  }

  lemma NewSessionCharge(w: World, s: CompilerSession)
    requires NewSession(w, s)
    ensures Charge(s, s.plan.order) <= |s.plan.nodes| && s.retriesUsed == 0
  {
    OrderIsPermutation(s.plan);
    hide IsPlan;
    ChargeBlank(s, s.plan.order);
  }

  /** One action keeps the session covered, and so is the record it appends. */
  lemma StepSolvent(w: World, e: Event, w': World, session: U64, n: nat)
    requires Healthy(w) && Step(w, e, w') && Solvent(w, session, n) && Unwrapped(w, e, session)
    ensures Solvent(w', session, n + ResumedBy(w, e, w', session))
  {
    hide Healthy;
    hide Apply;
    hide Charge;
    hide OwedIn;
    hide Unwrapped;
    hide Resumed;
    hide RecordedStore;
    if session in w.sessions {
      SessionSolvent(w, e, w', session, n);
    } else {
      NewcomerSolvent(w, e, w', session, n);
    }
    ApplyAppends(w, e);
    var m := n + ResumedBy(w, e, w', session);
    forall i | 0 <= i < |w'.log| && w'.log[i].session.id == session
      ensures Covered(w'.log[i].session, 0, m)
    {
      assert i < |w.log| ==> w'.log[i] == w'.log[..|w.log|][i] == w.log[i];
    }
  }

  /** A restart fences; it starts no new wait and forgets no attempt. */
  lemma RestartedCharge(s: CompilerSession, epoch: U64, now: U64, n: nat)
    requires Covered(s, 0, n)
    ensures Covered(RestartedSession(s, epoch, now), 0, n)
  {
    hide FencedRecord;
    hide Continues;
    hide Charge;
    var t := RestartedSession(s, epoch, now);
    forall id | id in s.phases
      ensures Continues(s.phases[id], t.phases[id], Ordinary)
    {
      SameContinues(s.phases[id], s.phases[id]);
      if InFlight(s.phases[id].state) {
        FencedContinues(s.phases[id], now, RESTART);
      }
    }
    ChargeContinues(s, t, s.plan.order, Ordinary);
  }

  lemma RestartSolvent(w: World, r: Restart, session: U64, n: nat)
    requires Healthy(w) && Positions(r.kept, |w.log|) && Solvent(w, session, n)
    ensures Solvent(Restarted(w, r), session, n)
  {
    hide Sound;
    hide BindingsSound;
    hide ArtifactsSound;
    hide CustodySound;
    hide Restarted;
    hide RestartedSession;
    hide Resurfaced;
    hide LastIndex;
    hide Covered;
    hide TakenOver;
    hide Apart;
    hide BundleSound;
    hide LoggedIds;
    hide AllBundlesSound;
    var bundles := Kept(w.log, r.kept);
    var w' := Restarted(w, r);
    RestartSound(w, r);
    RestartTakes(w, r);
    if session in w'.sessions {
      LastIs(bundles, session);
      assert bundles[LastIndex(bundles, session)] == w.log[r.kept[LastIndex(bundles, session)]];
      RestartedCharge(bundles[LastIndex(bundles, session)].session, r.epoch, r.now, n);
      OwedNothing(w'.owed, session, w'.sessions[session].plan.order);
    }
    forall i | 0 <= i < |w'.log| && w'.log[i].session.id == session
      ensures Covered(w'.log[i].session, 0, n)
    {
      assert i < |bundles| ==> w'.log[i] == bundles[i] == w.log[r.kept[i]];
    }
  }

  /* ---------- Over lives ---------- */

  /** Phases of the session that recovery set back, up to a moment. */
  ghost function ResumedPhases(worlds: seq<World>, moments: seq<Moment>, session: U64, k: nat): nat
    requires k <= |moments| < |worlds|
    decreases k
  {
    if k == 0 then 0
    else
      ResumedPhases(worlds, moments, session, k - 1)
      + match moments[k - 1]
        case Acts(event) => ResumedBy(worlds[k - 1], event, worlds[k], session)
        case Crashes(_) => 0
  }

  lemma {:induction false} LifeSolvent(worlds: seq<World>, moments: seq<Moment>, session: U64, k: nat)
    requires LifeUpTo(worlds, moments, k)
    requires forall i :: 0 <= i < k && moments[i].Acts? ==> Unwrapped(worlds[i], moments[i].event, session)
    ensures Solvent(worlds[k], session, ResumedPhases(worlds, moments, session, k))
    decreases k
  {
    hide Healthy;
    hide Step;
    hide Restarted;
    hide Solvent;
    hide Unwrapped;
    hide ResumedBy;
    if k == 0 {
      InitialSolvent(session);
    } else {
      LifeSolvent(worlds, moments, session, k - 1);
      LifeHealthy(worlds, moments, k - 1);
      assert Follows(worlds[k - 1], moments[k - 1], worlds[k - 1 + 1]);
      var n := ResumedPhases(worlds, moments, session, k - 1);
      match moments[k - 1] {
        case Acts(event) => StepSolvent(worlds[k - 1], event, worlds[k], session, n);
        case Crashes(restart) => RestartSolvent(worlds[k - 1], restart, session, n);
      }
    }
  }

  lemma InitialSolvent(session: U64)
    ensures Solvent(Initial(), session, 0)
  {
  }

  /** The budget, over any life with any number of crashes: the attempts of a session over all
      its phases never exceed the size of its plan, plus the retries charged to it, plus the
      phases that recovery set back; and no phase ever has more than 64. */
  lemma AttemptsWithinBudget(worlds: seq<World>, moments: seq<Moment>, session: U64, k: nat)
    requires LifeUpTo(worlds, moments, k) && session in worlds[k].sessions
    requires forall i :: 0 <= i < k && moments[i].Acts? ==> Unwrapped(worlds[i], moments[i].event, session)
    ensures var s := worlds[k].sessions[session];
            && Attempts(s, s.plan.order) <= |s.plan.nodes| + s.retriesUsed + ResumedPhases(worlds, moments, session, k)
            && forall id :: id in s.phases ==> |s.phases[id].attempts| <= MAX_ATTEMPTS
  {
    hide IsLife;
    hide BindingsSound;
    hide ArtifactsSound;
    hide CustodySound;
    hide Sound;
    hide Charge;
    hide Attempts;
    hide OwedIn;
    hide Unwrapped;
    hide ResumedPhases;
    LifeSolvent(worlds, moments, session, k);
    LifeHealthy(worlds, moments, k);
    var s := worlds[k].sessions[session];
    ChargeSplits(s, s.plan.order);
    CeilingOf(worlds[k], session);
  }

  lemma CeilingOf(w: World, session: U64)
    requires Sound(w) && session in w.sessions
    ensures forall id :: id in w.sessions[session].phases ==> |w.sessions[session].phases[id].attempts| <= MAX_ATTEMPTS
  {
    hide LogSound;
    hide CommitsSound;
    hide IsPlan;
    hide IsChain;
    forall id | id in w.sessions[session].phases
      ensures |w.sessions[session].phases[id].attempts| <= MAX_ATTEMPTS
    {
      assert RecordSound(w.sessions[session].phases[id]);
    }
  }

  /* ---------- The ceiling per session ---------- */

  /** The counter, and every record of it, is within the ceiling. */
  ghost predicate Frugal(w: World, session: U64, ceiling: U32) {
    && (session in w.sessions ==> w.sessions[session].retriesUsed <= ceiling)
    && forall i :: 0 <= i < |w.log| && w.log[i].session.id == session ==> w.log[i].session.retriesUsed <= ceiling
  }

  /** A grant was made within the ceiling, and not merely because authority had moved. */
  ghost predicate GrantWithin(w: World, e: Event, session: U64, ceiling: U32) {
    Granted(w, e, session) ==>
      && w.sessions[session].phases[e.action.phase].failure != AuthorityInvalidated
      && PolicyFor(w, w.sessions[session]).maxRetriesPerSession <= ceiling
  }

  lemma StepFrugal(w: World, e: Event, w': World, session: U64, ceiling: U32)
    requires Healthy(w) && Step(w, e, w') && Frugal(w, session, ceiling) && GrantWithin(w, e, session, ceiling)
    ensures Frugal(w', session, ceiling)
  {
    hide Sound;
    hide BindingsSound;
    hide ArtifactsSound;
    hide CustodySound;
    hide Apply;
    hide PolicyFor;
    hide NewSession;
    hide RecordedStore;
    if session in w.sessions {
      StepRetries(w, e, w', session);
    } else if session in w'.sessions {
      CreatedBy(w, e, w', session);
      NewSessionCharge(w, w'.sessions[session]);
    }
    ApplyAppends(w, e);
    forall i | 0 <= i < |w'.log| && w'.log[i].session.id == session
      ensures w'.log[i].session.retriesUsed <= ceiling
    {
      assert i < |w.log| ==> w'.log[i] == w'.log[..|w.log|][i] == w.log[i];
    }
  }

  lemma RestartFrugal(w: World, r: Restart, session: U64, ceiling: U32)
    requires Healthy(w) && Positions(r.kept, |w.log|) && Frugal(w, session, ceiling)
    ensures Frugal(Restarted(w, r), session, ceiling)
  {
    hide Sound;
    hide BindingsSound;
    hide ArtifactsSound;
    hide CustodySound;
    hide Restarted;
    hide Resurfaced;
    hide LastIndex;
    hide TakenOver;
    hide Apart;
    hide BundleSound;
    hide LoggedIds;
    hide AllBundlesSound;
    hide FencedSession;
    var bundles := Kept(w.log, r.kept);
    var w' := Restarted(w, r);
    RestartSound(w, r);
    RestartTakes(w, r);
    if session in w'.sessions {
      LastIs(bundles, session);
      var k := LastIndex(bundles, session);
      assert bundles[k] == w.log[r.kept[k]];
      RestartedRetries(bundles[k].session, r.epoch, r.now);
    }
    forall i | 0 <= i < |w'.log| && w'.log[i].session.id == session
      ensures w'.log[i].session.retriesUsed <= ceiling
    {
      assert i < |bundles| ==> w'.log[i] == bundles[i] == w.log[r.kept[i]];
    }
  }

  lemma RestartedRetries(s: CompilerSession, epoch: U64, now: U64)
    ensures RestartedSession(s, epoch, now).retriesUsed == s.retriesUsed
  {
    hide FencedPhases;
  }

  /** Over any life the counter never passes the ceiling when every grant was made under a policy
      within it and none was granted merely because authority had moved. */
  lemma {:induction false} SessionCeiling(worlds: seq<World>, moments: seq<Moment>, session: U64, k: nat, ceiling: U32)
    requires LifeUpTo(worlds, moments, k)
    requires forall i :: 0 <= i < k && moments[i].Acts? ==> GrantWithin(worlds[i], moments[i].event, session, ceiling)
    ensures session in worlds[k].sessions ==> worlds[k].sessions[session].retriesUsed <= ceiling
    ensures Frugal(worlds[k], session, ceiling)
    decreases k
  {
    hide Healthy;
    hide Step;
    hide Restarted;
    hide GrantWithin;
    if k > 0 {
      SessionCeiling(worlds, moments, session, k - 1, ceiling);
      LifeHealthy(worlds, moments, k - 1);
      assert Follows(worlds[k - 1], moments[k - 1], worlds[k - 1 + 1]);
      match moments[k - 1] {
        case Acts(event) => StepFrugal(worlds[k - 1], event, worlds[k], session, ceiling);
        case Crashes(restart) => RestartFrugal(worlds[k - 1], restart, session, ceiling);
      }
    }
  }

  /** Why the budget has the third term: recovery puts a phase under way back to READY without
      undoing its attempt, and a READY phase is reserved again without a retry. */
  lemma RecoveryKeepsAttempt(p: PhaseRecord, now: U64)
    requires InFlight(p.state)
    ensures RecoveredRecord(p, now).state == Ready && RecoveredRecord(p, now).attempts == p.attempts
  {
    MovedForward(p.state, Ready);
  }

  /* ---------- The ceiling per phase ---------- */

  /** A phase that waits has not been attempted, and no phase is over its ceiling. */
  ghost predicate WithinCeiling(p: PhaseRecord, ceiling: U32) {
    (Waiting(p.state) ==> p.attempts == []) && |p.attempts| <= ceiling + 1
  }

  /** The phase, and every record of it in the journal, is within the ceiling. */
  ghost predicate PhaseWithin(w: World, session: U64, phase: U64, ceiling: U32) {
    && (HasRecord(w, session, phase) ==> WithinCeiling(w.sessions[session].phases[phase], ceiling))
    && forall i :: 0 <= i < |w.log| && w.log[i].session.id == session && phase in w.log[i].session.phases ==>
         WithinCeiling(w.log[i].session.phases[phase], ceiling)
  }

  /** A recovery that resumes the session while the phase is under way. */
  ghost predicate Interrupts(w: World, e: Event, session: U64, phase: U64) {
    && e.action.DoApplyRecovery? && e.action.session == session && !e.action.requiresOperator
    && HasRecord(w, session, phase) && w.sessions[session].state == SessionRecovering
    && InFlight(w.sessions[session].phases[phase].state)
  }

  ghost predicate RetriesOf(w: World, e: Event, w': World, session: U64, phase: U64) {
    Retries(w, e, w', session) && e.action.phase == phase
  }

  lemma StepCeiling(w: World, e: Event, w': World, session: U64, phase: U64, ceiling: U32)
    requires Healthy(w) && Step(w, e, w') && HasRecord(w, session, phase)
    requires WithinCeiling(w.sessions[session].phases[phase], ceiling) && !Interrupts(w, e, session, phase)
    requires RetriesOf(w, e, w', session, phase) ==> |w.sessions[session].phases[phase].attempts| <= ceiling
    ensures HasRecord(w', session, phase) && WithinCeiling(w'.sessions[session].phases[phase], ceiling)
  {
    hide Sound;
    hide BindingsSound;
    hide ArtifactsSound;
    hide CustodySound;
    hide Forward;
    hide Apply;
    hide RetriesOf;
    hide ApplyRecovery;
    hide Reserved;
    ApplyBindings(w, e);
    if e.action.DoReserve? && e.action.phase == phase && e.action.session == session {
      ReserveCeiling(w, e, w', ceiling);
    } else if e.action.DoApplyRecovery? {
      RecoveryStep(w, e, w');
      RecoveryWaits(w, e.action.session, e.action.requiresOperator, e.action.steps, e.action.recovery, e.env, session, phase);
    }
  }

  lemma ReserveCeiling(w: World, e: Event, w': World, ceiling: U32)
    requires Attempted(w, w', e.action) && Step(w, e, w') && e.action.DoReserve? && HasRecord(w, e.action.session, e.action.phase)
    requires WithinCeiling(w.sessions[e.action.session].phases[e.action.phase], ceiling)
    requires RetriesOf(w, e, w', e.action.session, e.action.phase) ==>
               |w.sessions[e.action.session].phases[e.action.phase].attempts| <= ceiling
    ensures HasRecord(w', e.action.session, e.action.phase)
    ensures WithinCeiling(w'.sessions[e.action.session].phases[e.action.phase], ceiling)
  {
    hide Apply;
    RetryFlag(w, e, w');
  }

  lemma RecoveryStep(w: World, e: Event, w': World)
    requires Step(w, e, w') && e.action.DoApplyRecovery?
    ensures w' == ApplyRecovery(w, e.action.session, e.action.requiresOperator, e.action.steps, e.action.recovery, e.env)
  {
    hide ApplyRecovery;
  }

  /** Recovery starts a new wait only for a phase under way. */
  lemma RecoveryWaits(w: World, session: U64, requiresOperator: bool, steps: seq<Revalidation>, recovery: Ref, env: Ambient, id: U64, phase: U64)
    requires Sound(w) && HasRecord(w, id, phase)
    ensures var w' := ApplyRecovery(w, session, requiresOperator, steps, recovery, env);
            var p := w.sessions[id].phases[phase];
            HasRecord(w', id, phase) && Waiting(w'.sessions[id].phases[phase].state) ==>
            || Waiting(p.state)
            || (id == session && !requiresOperator && w.sessions[session].state == SessionRecovering && InFlight(p.state))
  {
    hide Sound;
    hide BundleOf;
    hide RecoveredRecord;
    hide RevalidateAll;
    hide AllRevalidate;
    if session in w.sessions {
      SessionHere(w, session);
      RecoveredWaits(w.sessions[id].phases[phase], env.now);
    }
  }

  lemma RecoveredWaits(p: PhaseRecord, now: U64)
    ensures Waiting(RecoveredRecord(p, now).state) ==> Waiting(p.state) || InFlight(p.state)
  {
    hide Recorded;
  }

  /** A failed phase is reserved only as a retry. */
  lemma RetryFlag(w: World, e: Event, w': World)
    requires Step(w, e, w') && e.action.DoReserve? && HasRecord(w, e.action.session, e.action.phase)
    ensures w' != w && w.sessions[e.action.session].phases[e.action.phase].state == Failed ==> e.action.isRetry
  {
    hide ReservedSession;
    hide ResolveInputs;
    hide BundleOf;
    hide Authority.Compare;
  }

  /** One action keeps the phase, and the record it appends, within the ceiling. */
  lemma StepPhaseWithin(w: World, e: Event, w': World, session: U64, phase: U64, ceiling: U32)
    requires Healthy(w) && Step(w, e, w') && PhaseWithin(w, session, phase, ceiling) && !Interrupts(w, e, session, phase)
    requires RetriesOf(w, e, w', session, phase) ==> |w.sessions[session].phases[phase].attempts| <= ceiling
    ensures PhaseWithin(w', session, phase, ceiling)
  {
    hide Healthy;
    hide Apply;
    hide RetriesOf;
    hide Interrupts;
    hide WithinCeiling;
    hide RecordedStore;
    if HasRecord(w, session, phase) {
      StepCeiling(w, e, w', session, phase, ceiling);
    } else if HasRecord(w', session, phase) {
      NewcomerWithin(w, e, w', session, phase, ceiling);
    }
    ApplyAppends(w, e);
    forall i | 0 <= i < |w'.log| && w'.log[i].session.id == session && phase in w'.log[i].session.phases
      ensures WithinCeiling(w'.log[i].session.phases[phase], ceiling)
    {
      assert i < |w.log| ==> w'.log[i] == w'.log[..|w.log|][i] == w.log[i];
    }
  }

  lemma NewcomerWithin(w: World, e: Event, w': World, session: U64, phase: U64, ceiling: U32)
    requires Healthy(w) && Step(w, e, w') && !HasRecord(w, session, phase) && HasRecord(w', session, phase)
    ensures WithinCeiling(w'.sessions[session].phases[phase], ceiling)
  {
    hide Sound;
    hide BindingsSound;
    hide ArtifactsSound;
    hide CustodySound;
    hide Apply;
    hide NewSession;
    StepSound(w, e, w');
    assert session in w.sessions ==> SessionEvolves(w.sessions[session], w'.sessions[session]);
    CreatedBy(w, e, w', session);
    NewRecord(w, w'.sessions[session], phase);
  }

  lemma NewRecord(w: World, s: CompilerSession, phase: U64)
    requires NewSession(w, s) && phase in s.phases
    ensures s.phases[phase].attempts == []
  {
    hide IsPlan;
  }

  /** A restart fences what was under way and starts no new wait. */
  lemma RestartedWithin(s: CompilerSession, epoch: U64, now: U64, phase: U64, ceiling: U32)
    requires phase in s.phases && WithinCeiling(s.phases[phase], ceiling)
    ensures phase in RestartedSession(s, epoch, now).phases && WithinCeiling(RestartedSession(s, epoch, now).phases[phase], ceiling)
  {
    hide FencedRecord;
    if InFlight(s.phases[phase].state) {
      FencedContinues(s.phases[phase], now, RESTART);
    }
  }

  lemma RestartPhaseWithin(w: World, r: Restart, session: U64, phase: U64, ceiling: U32)
    requires Healthy(w) && Positions(r.kept, |w.log|) && PhaseWithin(w, session, phase, ceiling)
    ensures PhaseWithin(Restarted(w, r), session, phase, ceiling)
  {
    hide Sound;
    hide BindingsSound;
    hide ArtifactsSound;
    hide CustodySound;
    hide Restarted;
    hide Resurfaced;
    hide LastIndex;
    hide TakenOver;
    hide Apart;
    hide BundleSound;
    hide LoggedIds;
    hide AllBundlesSound;
    hide RestartedSession;
    hide WithinCeiling;
    var bundles := Kept(w.log, r.kept);
    var w' := Restarted(w, r);
    RestartSound(w, r);
    RestartTakes(w, r);
    if HasRecord(w', session, phase) {
      LastIs(bundles, session);
      var k := LastIndex(bundles, session);
      assert bundles[k] == w.log[r.kept[k]];
      RestartedKeys(bundles[k].session, r.epoch, r.now);
      RestartedWithin(bundles[k].session, r.epoch, r.now, phase, ceiling);
    }
    forall i | 0 <= i < |w'.log| && w'.log[i].session.id == session && phase in w'.log[i].session.phases
      ensures WithinCeiling(w'.log[i].session.phases[phase], ceiling)
    {
      assert i < |bundles| ==> w'.log[i] == bundles[i] == w.log[r.kept[i]];
    }
  }

  lemma RestartedKeys(s: CompilerSession, epoch: U64, now: U64)
    ensures RestartedSession(s, epoch, now).phases.Keys == s.phases.Keys
  {
    hide FencedRecord;
  }

  /** The retry reserved at moment m was granted at moment g while the phase had as many attempts
      as when it was reserved: no other caller came in between. */
  ghost predicate GrantedAlone(worlds: seq<World>, moments: seq<Moment>, session: U64, phase: U64, g: nat, m: nat, ceiling: U32)
    requires g < m < |moments| < |worlds|
  {
    && moments[g].Acts? && Granted(worlds[g], moments[g].event, session) && moments[g].event.action.phase == phase
    && worlds[g].sessions[session].phases[phase].failure != AuthorityInvalidated
    && PolicyFor(worlds[g], worlds[g].sessions[session]).maxRetriesPerPhase <= ceiling
    && HasRecord(worlds[m], session, phase)
    && |worlds[g].sessions[session].phases[phase].attempts| == |worlds[m].sessions[session].phases[phase].attempts|
  }

  ghost predicate NonOverlapping(worlds: seq<World>, moments: seq<Moment>, session: U64, phase: U64, k: nat, ceiling: U32)
    requires k <= |moments| < |worlds|
  {
    forall m {:trigger moments[m]} :: 0 <= m < k && moments[m].Acts? && RetriesOf(worlds[m], moments[m].event, worlds[m + 1], session, phase) ==>
      exists g :: 0 <= g < m && GrantedAlone(worlds, moments, session, phase, g, m, ceiling)
  }

  /** The ceiling per phase, over any life with any number of crashes and recoveries: for callers
      that do not overlap, a phase is attempted at most once plus the retries the policy allows it,
      as long as no recovery resumes the session while this phase is under way. */
  lemma {:induction false} PhaseCeiling(worlds: seq<World>, moments: seq<Moment>, session: U64, phase: U64, k: nat, ceiling: U32)
    requires LifeUpTo(worlds, moments, k) && NonOverlapping(worlds, moments, session, phase, k, ceiling)
    requires forall m :: 0 <= m < k && moments[m].Acts? ==> !Interrupts(worlds[m], moments[m].event, session, phase)
    ensures HasRecord(worlds[k], session, phase) ==> |worlds[k].sessions[session].phases[phase].attempts| <= ceiling + 1
    ensures PhaseWithin(worlds[k], session, phase, ceiling)
    decreases k
  {
    hide Healthy;
    hide Step;
    hide Restarted;
    hide Interrupts;
    hide PolicyFor;
    hide RetriesOf;
    if k > 0 {
      PhaseCeiling(worlds, moments, session, phase, k - 1, ceiling);
      LifeHealthy(worlds, moments, k - 1);
      assert Follows(worlds[k - 1], moments[k - 1], worlds[k - 1 + 1]);
      match moments[k - 1] {
        case Acts(event) =>
          if RetriesOf(worlds[k - 1], event, worlds[k], session, phase) {
            var g :| 0 <= g < k - 1 && GrantedAlone(worlds, moments, session, phase, g, k - 1, ceiling);
            GrantedBelow(worlds[g], moments[g].event, session, phase, ceiling);
          }
          StepPhaseWithin(worlds[k - 1], event, worlds[k], session, phase, ceiling);
        case Crashes(restart) => RestartPhaseWithin(worlds[k - 1], restart, session, phase, ceiling);
      }
    }
  }

  lemma GrantedBelow(w: World, e: Event, session: U64, phase: U64, ceiling: U32)
    requires Granted(w, e, session) && e.action.phase == phase
    requires w.sessions[session].phases[phase].failure != AuthorityInvalidated
    requires PolicyFor(w, w.sessions[session]).maxRetriesPerPhase <= ceiling
    ensures |w.sessions[session].phases[phase].attempts| <= ceiling
  {
    hide PolicyFor;
    RetryPermittedIff(w.sessions[session].phases[phase], PolicyFor(w, w.sessions[session]), w.sessions[session].retriesUsed);
  }

  /** Grants within a ceiling never make the 32-bit counter wrap. */
  lemma FrugalUnwrapped(w: World, e: Event, session: U64, ceiling: U32)
    requires GrantWithin(w, e, session, ceiling)
    ensures Unwrapped(w, e, session)
  {
    hide PolicyFor;
    if Granted(w, e, session) {
      RetryPermittedIff(w.sessions[session].phases[e.action.phase], PolicyFor(w, w.sessions[session]), w.sessions[session].retriesUsed);
    }
  }
}
