/** A round of the driver as the protocol runs it: the sections that one driver executes for the
    phases of a batch, in any interleaving of its threads. */
module DriverRounds {
  import opened StrongId
  import opened Bytes
  import opened Wrappers
  import opened Phases
  import opened PhasePlans
  import opened Ancestry
  import opened Sessions
  import opened Registries
  import opened Runtime
  import opened Evolution
  import opened Safety
  import opened Bindings
  import opened Guarantees
  import opened Scheduler
  import opened ArtifactSafety
  import Authority
  import Artifacts
  import opened Sorting

  /** The sections run_phase_impl executes for a phase of the batch. */
  predicate DriverEvent(a: Action, session: U64, batch: seq<U64>) {
    match a
    case DoReserve(s, p, isRetry, _) => s == session && p in batch && !isRetry
    case DoLaunch(r, _) => r.session == session && r.phase in batch
    case DoNoteProcess(r, _) => r.session == session && r.phase in batch
    case DoRecord(r, _) => r.session == session && r.phase in batch
    case DoReproductionFailed(r, _, _) => r.session == session && r.phase in batch
    case DoValidate(r, _) => r.session == session && r.phase in batch
    case DoCommit(r, _, _) => r.session == session && r.phase in batch
    case DoSetSessionState(s, _, _) => s == session
    case _ => false
  }

  /** No phase of the session but one has changed. */
  ghost predicate OnlyPhase(w: World, w': World, session: U64, phase: U64) {
    session in w.sessions ==>
      && session in w'.sessions
      && forall id :: id in w.sessions[session].phases && id != phase ==>
           id in w'.sessions[session].phases && w'.sessions[session].phases[id] == w.sessions[session].phases[id]
  }

  lemma SameOnly(w: World, w': World, session: U64, phase: U64)
    requires w'.sessions == w.sessions
    ensures OnlyPhase(w, w', session, phase)
  {
  }

  lemma OneOnly(w: World, w': World, session: U64, t: CompilerSession, q: PhaseRecord)
    requires session in w.sessions && w'.sessions == w.sessions[session := t] && t.phases == w.sessions[session].phases[q.id := q]
    ensures OnlyPhase(w, w', session, q.id)
  {
  }

  lemma LaunchOnly(w: World, r: Reservation, outcome: LaunchOutcome, env: Ambient)
    requires Sound(w)
    ensures OnlyPhase(w, Launch(w, r, outcome, env), r.session, r.phase)
  {
    hide Sound;
    hide OnlyPhase;
    hide RecordTransition;
    hide Runtime.BundleOf;
    var w' := Launch(w, r, outcome, env);
    if w'.sessions == w.sessions {
      SameOnly(w, w', r.session, r.phase);
    } else {
      Here(w, r.session, r.phase);
      var p := w.sessions[r.session].phases[r.phase];
      RecordTransitionId(p, Running, env.now, LAUNCHED);
      OneOnly(w, w', r.session, w'.sessions[r.session], w'.sessions[r.session].phases[r.phase]);
    }
  }

  lemma NoteOnly(w: World, r: Reservation, process: Ref)
    requires Sound(w)
    ensures OnlyPhase(w, NoteProcess(w, r, process), r.session, r.phase)
  {
    hide Sound;
    hide OnlyPhase;
    var w' := NoteProcess(w, r, process);
    if w'.sessions == w.sessions {
      SameOnly(w, w', r.session, r.phase);
    } else {
      Here(w, r.session, r.phase);
      OneOnly(w, w', r.session, w'.sessions[r.session], w'.sessions[r.session].phases[r.phase]);
    }
  }

  lemma ReproductionOnly(w: World, r: Reservation, status: StatusCode, detail: Text, env: Ambient)
    requires Sound(w)
    ensures OnlyPhase(w, ReproductionFailed(w, r, status, detail, env), r.session, r.phase)
  {
    hide Sound;
    hide OnlyPhase;
    hide RecordTransition;
    hide Runtime.BundleOf;
    hide Artifacts.RevokeOutputs;
    var w' := ReproductionFailed(w, r, status, detail, env);
    if w'.sessions == w.sessions {
      SameOnly(w, w', r.session, r.phase);
    } else {
      Here(w, r.session, r.phase);
      var p := w.sessions[r.session].phases[r.phase];
      RecordTransitionId(p.(failure := OutputInvalid, lastStatus := status, lastDetail := detail), Failed, env.now, detail);
      OneOnly(w, w', r.session, w'.sessions[r.session], w'.sessions[r.session].phases[r.phase]);
    }
  }

  lemma ValidateOnly(w: World, r: Reservation, e: Evidence, env: Ambient)
    requires Sound(w)
    ensures OnlyPhase(w, Validate(w, r, e, env), r.session, r.phase)
  {
    hide Sound;
    hide OnlyPhase;
    hide RecordTransition;
    hide Runtime.BundleOf;
    hide SetStates;
    var w' := Validate(w, r, e, env);
    if w'.sessions == w.sessions {
      SameOnly(w, w', r.session, r.phase);
    } else {
      Here(w, r.session, r.phase);
      var p := w.sessions[r.session].phases[r.phase];
      RecordTransitionId(p, CommitReady, env.now, ACCEPTED);
      RecordTransitionId(
        p.(failure := e.failure, lastStatus := e.refusal, lastDetail := e.detail, attempts := CloseAttempt(p.attempts, Failed, e.failure)),
        Failed, env.now, e.detail);
      OneOnly(w, w', r.session, w'.sessions[r.session], w'.sessions[r.session].phases[r.phase]);
    }
  }

  lemma CommitOnly(w: World, r: Reservation, probe: Probe, pub: Publication, env: Ambient)
    requires Sound(w)
    ensures OnlyPhase(w, Commit(w, r, probe, pub, env), r.session, r.phase)
  {
    hide Sound;
    hide OnlyPhase;
    hide CommitVerdict;
    hide Publish;
    hide CommitRefused;
    hide CommitUnproven;
    SameOnly(w, w, r.session, r.phase);
    if Current(w, r) {
      Here(w, r.session, r.phase);
      var w1 := CommitBase(w, probe);
      if probe.ProbeFailed? {
        UnprovenOnly(w, r, probe.detail, env);
      } else {
        SameOnly(w, w1, r.session, r.phase);
        Here(w, r.session, r.phase);
        RefusedOnly(w1, r, CommitVerdict(w1, r, env.now), env);
        PublishOnly(w1, r, pub, env);
        SameBase(w, w1, CommitRefused(w1, r, CommitVerdict(w1, r, env.now), env), r.session, r.phase);
        SameBase(w, w1, Publish(w1, r, pub, env), r.session, r.phase);
      }
    }
  }

  function CommitBase(w: World, probe: Probe): World {
    if probe.Probed? then
      w.(domains := w.domains.(toolchains := Refreshed(w.domains.toolchains, probe.id, probe.observed, probe.mutated)))
    else w
  }

  lemma SameBase(w: World, w1: World, w': World, session: U64, phase: U64)
    requires w1.sessions == w.sessions && OnlyPhase(w1, w', session, phase)
    ensures OnlyPhase(w, w', session, phase)
  {
  }

  /** The record the section works on carries the key it is found under. */
  ghost predicate Keys(w: World, r: Reservation) {
    && HasRecord(w, r.session, r.phase)
    && w.sessions[r.session].id == r.session && w.sessions[r.session].phases[r.phase].id == r.phase
  }

  lemma UnprovenOnly(w: World, r: Reservation, detail: Text, env: Ambient)
    requires Keys(w, r)
    ensures OnlyPhase(w, CommitUnproven(w, r, detail, env), r.session, r.phase)
  {
    hide OnlyPhase;
    hide RecordTransition;
    hide Runtime.BundleOf;
    hide Artifacts.RevokeOutputs;
    var p := w.sessions[r.session].phases[r.phase];
    var p1 := p.(failure := InvalidToolchain, lastStatus := INTEGRITY_UNPROVEN, lastDetail := detail);
    RecordTransitionId(p1, Fenced, env.now, detail);
    var w' := CommitUnproven(w, r, detail, env);
    OneOnly(w, w', r.session, w'.sessions[r.session], w'.sessions[r.session].phases[r.phase]);
  }

  lemma RefusedOnly(w: World, r: Reservation, verdict: Authority.Verdict, env: Ambient)
    requires Keys(w, r)
    ensures OnlyPhase(w, CommitRefused(w, r, verdict, env), r.session, r.phase)
  {
    hide OnlyPhase;
    hide RecordTransition;
    hide Runtime.BundleOf;
    hide Artifacts.RevokeOutputs;
    hide Authority.Revoke;
    hide StatusOf;
    var p := w.sessions[r.session].phases[r.phase];
    var p1 := p.(attempts := CloseAttempt(p.attempts, Fenced, AuthorityInvalidated),
                 failure := AuthorityInvalidated, lastStatus := StatusOf(verdict), lastDetail := REFUSED);
    RecordTransitionId(p1, Fenced, env.now, REFUSED);
    var w' := CommitRefused(w, r, verdict, env);
    OneOnly(w, w', r.session, w'.sessions[r.session], w'.sessions[r.session].phases[r.phase]);
  }

  lemma PublishOnly(w: World, r: Reservation, pub: Publication, env: Ambient)
    requires Keys(w, r)
    ensures OnlyPhase(w, Publish(w, r, pub, env), r.session, r.phase)
  {
    hide OnlyPhase;
    hide CommittedSession;
    hide CommittedRecord;
    hide Runtime.BundleOf;
    hide Stamped;
    hide Authorized;
    hide AllMayHold;
    hide NextGenerations;
    hide Authority.Revoke;
    var w' := Publish(w, r, pub, env);
    var s := w.sessions[r.session];
    var p := s.phases[r.phase];
    if w'.sessions == w.sessions {
      SameOnly(w, w', r.session, r.phase);
    } else {
      CommittedId(p, w.next.commit, env.now);
      CommittedSessionShape(s, p, w.next.commit, pub, env.now);
      OneOnly(w, w', r.session, CommittedSession(s, p, w.next.commit, pub, env.now), CommittedRecord(p, w.next.commit, env.now));
    }
  }

  lemma CommittedId(p: PhaseRecord, commit: U64, now: U64)
    ensures CommittedRecord(p, commit, now).id == p.id
  {
  }

  lemma RecordOnly(w: World, r: Reservation, report: Report, env: Ambient)
    requires Sound(w)
    ensures OnlyPhase(w, RecordExecution(w, r, report, env), r.session, r.phase)
  {
    hide Sound;
    hide OnlyPhase;
    hide RecordCurrent;
    SameOnly(w, w, r.session, r.phase);
    if Current(w, r) {
      Here(w, r.session, r.phase);
      RecordCurrentOnly(w, r, report, env);
    }
  }

  lemma RecordCurrentOnly(w: World, r: Reservation, report: Report, env: Ambient)
    requires Sound(w) && Keys(w, r) && Current(w, r)
    ensures OnlyPhase(w, RecordCurrent(w, r, report, env), r.session, r.phase)
  {
    hide Sound;
    hide OnlyPhase;
    hide RecordCurrent;
    var w' := RecordCurrent(w, r, report, env);
    if w' == w {
      SameOnly(w, w', r.session, r.phase);
    } else if report.diagnostics.None? || !report.succeeded {
      QuietReport(w, r, report, env);
      OneOnly(w, w', r.session, w'.sessions[r.session], w'.sessions[r.session].phases[r.phase]);
    } else {
      SuccessOnly(w, r, report, env);
    }
  }

  lemma SuccessOnly(w: World, r: Reservation, report: Report, env: Ambient)
    requires Keys(w, r) && Current(w, r) && report.diagnostics.Some? && report.succeeded && RecordCurrent(w, r, report, env) != w
    ensures OnlyPhase(w, RecordCurrent(w, r, report, env), r.session, r.phase)
  {
    hide OnlyPhase;
    hide RecordTransition;
    hide RegisterOutputs;
    hide Runtime.BundleOf;
    var w' := RecordCurrent(w, r, report, env);
    var s := w.sessions[r.session];
    var p := s.phases[r.phase];
    var k := AttemptIndex(p.attempts, r.attempt);
    var attempts := p.attempts[k := ReportedAttempt(p.attempts[k], r.invocation, report)];
    var p1 := p.(attempts := attempts, diagnostics := report.diagnostics.value);
    var p2 := RecordTransition(p1, Produced, env.now, EXITED).(attempts := attempts[k := attempts[k].(terminalState := Produced)]);
    TransitionKeeps(p1, Produced, env.now, EXITED);
    var reg := RegisterOutputs(w.artifacts, s, p2, r.invocation, report.outputs);
    var p3 := p2.(outputs := p2.outputs + reg.refs);
    TransitionKeeps(p3.(outputDigest := report.outputDigest), Validating, env.now, CANDIDATES);
    OneOnly(w, w', r.session, w'.sessions[r.session], w'.sessions[r.session].phases[r.phase]);
  }

  lemma ReserveOnly(w: World, session: U64, phase: U64, isRetry: bool, workspace: bool, env: Ambient)
    requires Sound(w)
    ensures OnlyPhase(w, Reserve(w, session, phase, isRetry, workspace, env), session, phase)
  {
    hide Sound;
    hide OnlyPhase;
    hide Reservable;
    hide ReservedRecord;
    hide ReservedSession;
    hide ResolveInputs;
    hide Runtime.BundleOf;
    var w' := Reserve(w, session, phase, isRetry, workspace, env);
    if Reservable(w, session, phase, isRetry) && workspace {
      ReserveGrants(w, session, phase, isRetry, env);
      ReservedRecordFacts(w, session, phase, isRetry, env.now);
      OneOnly(w, w', session, ReservedSession(w, session, phase, isRetry, env.now), ReservedRecord(w, session, phase, isRetry, env.now));
    } else {
      SameOnly(w, w', session, phase);
    }
  }

  lemma StateOnly(w: World, session: U64, state: SessionState, detail: Text, env: Ambient)
    requires Sound(w)
    ensures session in w.sessions ==>
              var w' := SetSessionState(w, session, state, detail, env);
              session in w'.sessions && w'.sessions[session].phases == w.sessions[session].phases
  {
    hide Sound;
    hide Runtime.BundleOf;
    if session in w.sessions {
      SessionHere(w, session);
    }
  }

  lemma DriverTouches(w: World, e: Event, w': World, session: U64, batch: seq<U64>)
    requires Sound(w) && Step(w, e, w') && DriverEvent(e.action, session, batch) && session in w.sessions
    ensures session in w'.sessions
    ensures forall id :: id in w.sessions[session].phases && id !in batch ==>
              id in w'.sessions[session].phases && w'.sessions[session].phases[id] == w.sessions[session].phases[id]
  {
    hide Sound;
    hide Reserve;
    hide Launch;
    hide NoteProcess;
    hide RecordExecution;
    hide ReproductionFailed;
    hide Validate;
    hide Commit;
    hide SetSessionState;
    var a := e.action;
    match a {
      case DoReserve(s, p, isRetry, workspace) => ReserveOnly(w, s, p, isRetry, workspace, e.env);
      case DoLaunch(r, outcome) => LaunchOnly(w, r, outcome, e.env);
      case DoNoteProcess(r, process) => NoteOnly(w, r, process);
      case DoRecord(r, report) => RecordOnly(w, r, report, e.env);
      case DoReproductionFailed(r, status, detail) => ReproductionOnly(w, r, status, detail, e.env);
      case DoValidate(r, evidence) => ValidateOnly(w, r, evidence, e.env);
      case DoCommit(r, probe, pub) => CommitOnly(w, r, probe, pub, e.env);
      case DoSetSessionState(s, state, detail) => StateOnly(w, s, state, detail, e.env);
    }
  }

  /** Whatever the sections of a batch do, in whatever order, is a round result: the assumption
      under which the driver was shown to progress holds of the protocol. */
  lemma {:induction false} RoundIsResult(worlds: seq<World>, events: seq<Event>, session: U64, batch: seq<U64>, k: nat)
    requires IsRun(worlds, events) && Sound(worlds[0]) && session in worlds[0].sessions && k < |worlds|
    requires forall i :: 0 <= i < k ==> DriverEvent(events[i].action, session, batch)
    requires forall id :: id in batch ==> !HasCommitted(worlds[0].sessions[session], id)
    ensures session in worlds[k].sessions && RoundResult(worlds[0].sessions[session], batch, worlds[k].sessions[session])
  {
    hide Sound;
    hide Apply;
    hide SessionSound;
    RunSound(worlds, events, 0, k);
    Untouched(worlds, events, session, batch, k);
    SoundSession(worlds[k], session);
    assert SessionEvolves(worlds[0].sessions[session], worlds[k].sessions[session]);
  }

  lemma SoundSession(w: World, session: U64)
    requires Sound(w) && session in w.sessions
    ensures SessionSound(w.sessions[session])
  {
    hide SessionSound;
    hide LogSound;
    hide CommitsSound;
  }

  lemma {:induction false} Untouched(worlds: seq<World>, events: seq<Event>, session: U64, batch: seq<U64>, k: nat)
    requires IsRun(worlds, events) && Sound(worlds[0]) && session in worlds[0].sessions && k < |worlds|
    requires forall i :: 0 <= i < k ==> DriverEvent(events[i].action, session, batch)
    ensures session in worlds[k].sessions
    ensures forall id :: id in worlds[0].sessions[session].phases && id !in batch ==>
              id in worlds[k].sessions[session].phases && worlds[k].sessions[session].phases[id] == worlds[0].sessions[session].phases[id]
    decreases k
  {
    hide Sound;
    hide Apply;
    if k > 0 {
      Untouched(worlds, events, session, batch, k - 1);
      RunSound(worlds, events, k - 1, k - 1);
      assert Step(worlds[k - 1], events[k - 1], worlds[k - 1 + 1]);
      DriverTouches(worlds[k - 1], events[k - 1], worlds[k], session, batch);
    }
  }

  /* ---------- The driver ---------- */

  /** The second state is reached from the first by a run. */
  ghost predicate Reaches(w: World, w': World) {
    exists worlds, events :: IsRun(worlds, events) && worlds[0] == w && worlds[|events|] == w'
  }

  /** ... by sections of the driver for the batch, and the state it puts the session in. */
  ghost predicate Round(w: World, session: U64, batch: seq<U64>, w': World) {
    exists worlds: seq<World>, events: seq<Event> ::
      && IsRun(worlds, events) && worlds[0] == w && worlds[|events|] == w'
      && forall i :: 0 <= i < |events| ==> DriverEvent(events[i].action, session, batch)
  }

  /** However the outside world makes a batch of phases end. */
  ghost predicate Drives(run: (World, U64, seq<U64>) -> World) {
    forall w, session, batch :: Sound(w) && session in w.sessions ==> Round(w, session, batch, run(w, session, batch))
  }

  lemma RoundGives(w: World, session: U64, batch: seq<U64>, w': World)
    requires Sound(w) && session in w.sessions && Round(w, session, batch, w')
    requires forall id :: id in batch ==> !HasCommitted(w.sessions[session], id)
    ensures Sound(w') && session in w'.sessions && RoundResult(w.sessions[session], batch, w'.sessions[session]) && Reaches(w, w')
  {
    hide Sound;
    hide Step;
    hide RoundResult;
    hide Grows;
    hide DriverEvent;
    var worlds: seq<World>, events: seq<Event> :| && IsRun(worlds, events) && worlds[0] == w && worlds[|events|] == w'
                          && forall i :: 0 <= i < |events| ==> DriverEvent(events[i].action, session, batch);
    RoundIsResult(worlds, events, session, batch, |events|);
    RunSound(worlds, events, |events|, |events|);
  }

  lemma ReachesSelf(w: World)
    ensures Reaches(w, w)
  {
    hide Step;
    var worlds: seq<World>, events: seq<Event> := [w], [];
    assert IsRun(worlds, events) && worlds[|events|] == w;
  }

  lemma ReachesOn(a: World, b: World, c: World)
    requires Reaches(a, b) && Reaches(b, c)
    ensures Reaches(a, c)
  {
    hide Step;
    var ws, es :| IsRun(ws, es) && ws[0] == a && ws[|es|] == b;
    var vs, fs :| IsRun(vs, fs) && vs[0] == b && vs[|fs|] == c;
    var worlds, events := ws + vs[1..], es + fs;
    forall k {:trigger events[k]} | 0 <= k < |events|
      ensures Step(worlds[k], events[k], worlds[k + 1])
    {
      if k < |es| {
        assert events[k] == es[k] && worlds[k] == ws[k] && worlds[k + 1] == ws[k + 1];
      } else {
        var j := k - |es|;
        assert events[k] == fs[j] && worlds[k] == vs[j] && worlds[k + 1] == vs[j + 1];
      }
    }
    assert IsRun(worlds, events) && worlds[0] == a && worlds[|events|] == c;
  }

  /** The driver puts the session in a state, which is a step of the runtime. */
  lemma StateSet(start: World, w: World, session: U64, state: SessionState, detail: Text, env: Ambient)
    requires Sound(w) && session in w.sessions && Reaches(start, w) && state in {SessionActive, SessionFailed}
    ensures var w' := SetSessionState(w, session, state, detail, env);
            && Sound(w') && session in w'.sessions && Reaches(start, w')
            && w'.sessions[session].phases == w.sessions[session].phases && w'.sessions[session].plan == w.sessions[session].plan
            && w'.sessions[session].state == state
            && (state == SessionFailed && env.appended ==> Persisted(w', session))
  {
    hide Sound;
    hide Reaches;
    hide Grows;
    var e := Event(DoSetSessionState(session, state, detail), env);
    var w' := SetSessionState(w, session, state, detail, env);
    StateStep(w, session, state, detail, env);
    StepSound(w, e, w');
    OneStep(w, e, w');
    ReachesOn(start, w, w');
    SessionHere(w, session);
    StateShape(w, session, state, detail, env);
  }

  lemma StateStep(w: World, session: U64, state: SessionState, detail: Text, env: Ambient)
    ensures Step(w, Event(DoSetSessionState(session, state, detail), env), SetSessionState(w, session, state, detail, env))
  {
    hide SetSessionState;
  }

  lemma StateShape(w: World, session: U64, state: SessionState, detail: Text, env: Ambient)
    requires session in w.sessions && w.sessions[session].id == session && state in {SessionActive, SessionFailed}
    ensures var w' := SetSessionState(w, session, state, detail, env);
            && session in w'.sessions
            && w'.sessions[session].phases == w.sessions[session].phases && w'.sessions[session].plan == w.sessions[session].plan
            && w'.sessions[session].state == state
            && (state == SessionFailed && env.appended ==> Persisted(w', session))
  {
    hide Found;
    hide Sorting.Sorted;
  }

  lemma OneStep(w: World, e: Event, w': World)
    requires Step(w, e, w')
    ensures Reaches(w, w')
  {
    hide Step;
    var worlds: seq<World>, events: seq<Event> := [w, w'], [e];
    assert IsRun(worlds, events) && worlds[|events|] == w';
  }

  /** The last record of the journal is the session as it is. */
  predicate Persisted(w: World, session: U64) {
    session in w.sessions && w.log != [] && w.log[|w.log| - 1].session == w.sessions[session]
  }

  /** run_session_impl, over the whole runtime. It ends within one round more than there are
      phases, so that its progress guard never trips; it finishes only when every mandatory phase
      — and therefore every phase — is committed; it reports that it cannot progress only when
      the first uncommitted phase can never run again without outside help; and whatever it did
      is a run of the runtime, of which everything that holds of runs holds. Every round puts the
      session in state ACTIVE, also the last one after all phases have committed; without success
      the session is left FAILED, and so persisted, unless a stalled round has already put it in
      another state than ACTIVE. */
  method RunSession(start: World, session: U64, parallel: nat, retries: nat, run: (World, U64, seq<U64>) -> World, detail: Text, env: Ambient)
    returns (outcome: DriverOutcome, w: World, rounds: nat)
    requires Sound(start) && session in start.sessions && Drives(run)
    ensures Sound(w) && session in w.sessions && Reaches(start, w)
    ensures !outcome.CeilingReached? && rounds <= |start.sessions[session].plan.nodes| + 1
    ensures var s := w.sessions[session];
            && (outcome.Finished? ==> s.state == SessionActive && forall id :: HasPhase(s.plan, id) ==> HasCommitted(s, id))
            && (outcome.CannotProgress? ==>
                  && outcome.blocked.Some? && IsFirstUncommitted(s, outcome.blocked.value)
                  && outcome.blocked.value in s.phases && s.phases[outcome.blocked.value].state in {Failed, Fenced, Cancelled, Retired}
                  && s.state == SessionFailed && (env.appended ==> Persisted(w, session)))
            && (outcome.Stalled? ==>
                  && outcome.phase in s.phases && !HasCommitted(s, outcome.phase) && s.state != SessionActive
                  && (outcome.closed ==> s.state == SessionFailed && (env.appended ==> Persisted(w, session))))
  {
    hide Sound;
    hide SessionSound;
    hide SessionEvolves;
    hide RoundResult;
    hide Round;
    hide Reaches;
    hide MandatoryDone;
    hide CanStart;
    hide IsFirstUncommitted;
    hide HasPhase;
    hide SetSessionState;
    hide Persisted;
    hide Drives;
    hide InOrderOf;
    var limit := if parallel < 1 then 1 else parallel;
    var nodes := |start.sessions[session].plan.nodes|;
    var ceiling := nodes * (retries + 2) + 16;
    SoundSession(start, session);
    OrderFacts(start.sessions[session]);
    CeilingIsHigh(nodes, retries);
    ReachesSelf(start);
    w, rounds := start, 0;
    while true
      invariant Sound(w) && session in w.sessions && Reaches(start, w)
      invariant rounds + Uncommitted(w.sessions[session], w.sessions[session].plan.order) <= |w.sessions[session].plan.order| == nodes
      decreases Uncommitted(w.sessions[session], w.sessions[session].plan.order)
    {
      ghost var left := Uncommitted(w.sessions[session], w.sessions[session].plan.order);
      rounds := rounds + 1;
      if rounds > ceiling {
        return CeilingReached, w, rounds;
      }
      StateSet(start, w, session, SessionActive, [], env);
      SameLeft(w.sessions[session], SetSessionState(w, session, SessionActive, [], env).sessions[session]);
      w := SetSessionState(w, session, SessionActive, [], env);
      var s := w.sessions[session];
      SoundSession(w, session);
      var ready := ReadyPhases(s);
      if ready == [] {
        var done := AllMandatoryCommitted(s);
        if done {
          AllDone(s);
          return Finished, w, rounds;
        }
        var blocked := FirstUncommitted(s);
        Blocked(s, blocked);
        FirstIsPhase(s, blocked.value);
        StateSet(start, w, session, SessionFailed, detail, env);
        var u := SetSessionState(w, session, SessionFailed, detail, env);
        SameFirst(s, u.sessions[session], blocked.value);
        return CannotProgress(blocked), u, rounds;
      }
      var batch := ready[..if limit <= |ready| then limit else |ready|];
      ReadyUncommitted(s, ready, batch);
      var after := run(w, session, batch);
      DrivesRound(run, w, session, batch);
      RoundGives(w, session, batch, after);
      ReachesOn(start, w, after);
      w := after;
      var t := w.sessions[session];
      ResultPlan(s, batch, t);
      var missing := FirstMissing(t, batch);
      if missing.Some? {
        BatchKnown(s, t, ready, batch);
        if t.state != SessionActive {
          return Stalled(missing.value, false), w, rounds;
        }
        StateSet(start, w, session, SessionFailed, detail, env);
        return Stalled(missing.value, true), SetSessionState(w, session, SessionFailed, detail, env), rounds;
      }
      RoundProgress(s, t, ready, batch);
    }
  }

  lemma DrivesRound(run: (World, U64, seq<U64>) -> World, w: World, session: U64, batch: seq<U64>)
    requires Drives(run) && Sound(w) && session in w.sessions
    ensures Round(w, session, batch, run(w, session, batch))
  {
    hide Sound;
    hide Round;
  }

  /** The state of the session is not looked at. */
  lemma SameLeft(s: CompilerSession, t: CompilerSession)
    requires s.phases == t.phases && s.plan == t.plan
    ensures Uncommitted(s, s.plan.order) == Uncommitted(t, t.plan.order)
  {
    SameUncommitted(s, t, s.plan.order);
  }

  lemma {:induction false} SameUncommitted(s: CompilerSession, t: CompilerSession, ids: seq<U64>)
    requires s.phases == t.phases
    ensures Uncommitted(s, ids) == Uncommitted(t, ids)
  {
    if ids != [] {
      SameUncommitted(s, t, ids[1..]);
    }
  }

  lemma SameFirst(s: CompilerSession, t: CompilerSession, id: U64)
    requires s.phases == t.phases && s.plan == t.plan && IsFirstUncommitted(s, id)
    ensures IsFirstUncommitted(t, id)
  {
  }

  lemma ResultPlan(s: CompilerSession, batch: seq<U64>, t: CompilerSession)
    requires RoundResult(s, batch, t)
    ensures t.plan == s.plan
  {
    hide SessionSound;
  }

  lemma ReadyUncommitted(s: CompilerSession, ready: seq<U64>, batch: seq<U64>)
    requires (forall id :: id in ready <==> id in s.plan.order && CanStart(s, id)) && (forall id :: id in batch ==> id in ready)
    ensures forall id :: id in batch ==> !HasCommitted(s, id)
  {
  }

  lemma FirstIsPhase(s: CompilerSession, id: U64)
    requires IsFirstUncommitted(s, id)
    ensures id in s.phases
  {
  }
}
