/** Runs at the edge of what the runtime promises, each from its initial state: a commit whose
    record cannot be read back, a commit whose append is refused, and a phase that is attempted
    twice without a retry. */
module Witness {
  import opened StrongId
  import opened Bytes
  import opened Wrappers
  import opened Phases
  import opened PhasePlans
  import opened Ancestry
  import opened Sessions
  import opened Registries
  import opened Sorting
  import opened Runtime
  import opened Evolution
  import opened Safety
  import opened ArtifactSafety
  import AuthorityOrigin
  import Recovery
  import Graph
  import Artifacts
  import Authority

  /* ---------- A plan of one phase ---------- */

  const NODE: PhaseNode := PhaseNode(1, 0, [], [], true, [], false, 0)
  const PLAN: PhasePlan := PhasePlan([NODE], [1])

  lemma OnePhasePlan()
    ensures IsPlan(PLAN)
    ensures forall id: U64 :: HasPhase(PLAN, id) <==> id == 1
    ensures IndexOfId(PLAN.nodes, 1) == 0 && Dependencies(PLAN.nodes, 1) == []
  {
    var nodes := PLAN.nodes;
    assert nodes[0] == NODE;
    assert HasIdentity(nodes, 1);
    assert IsSink(nodes, 0);
    forall p: seq<nat>
      ensures !IsDependencyCycle(nodes, p)
    {
      if |p| >= 2 && p[0] == 0 && p[1] == 0 {
        assert nodes[p[0 + 1]].id !in nodes[p[0]].dependsOn;
      }
    }
    assert WellFormed(nodes);
    var deps := Edges(nodes);
    assert deps[0] == [];
    assert Graph.IsScheduleOrder(deps, [0]);
    assert HasOrder(nodes, [0], PLAN.order);
  }

  /* ---------- A session of that plan ---------- */

  const ONE: Ref := Ref(1, 1)

  const NO_CANDIDATE: FinalCandidate := FinalCandidate(
    0, 0, 0, 0, 0, ABSENT, ABSENT, ABSENT, ABSENT, ABSENT, ABSENT, 0, 0, [], ZERO_DIGEST, 0, [], [], 0, ZERO_DIGEST, false, 0, false)

  const SESSION: CompilerSession := CompilerSession(
    1, INITIAL, SessionActive, NoRecovery, 1, 1, 1, 1, 1, ONE, [], ONE, ONE, ONE, ONE, [ONE], 0, [], [], [], PLAN,
    map[1 := InitialRecord(NODE, 1)], 0, [], NO_CANDIDATE, false, 0, 0, 0, 1, [], 0, 0, 0, ZERO_DIGEST)

  const CALM: Ambient := Ambient(0, true, Extras([], [], [], [], [], [], []))
  const REFUSING: Ambient := Ambient(0, false, Extras([], [], [], [], [], [], []))

  /** A policy that allows one retry per phase. */
  const STRICT: PolicySpec := PolicySpec(1, 8, [], true, 4)

  /** No identity counter runs out. */
  predicate Thrifty(worlds: seq<World>) {
    forall k :: 0 <= k < |worlds| ==> Unspent(worlds[k])
  }

  /** Runs are extended by one event at a time. */
  lemma Extend(worlds: seq<World>, events: seq<Event>, e: Event, w: World)
    requires IsRun(worlds, events) && Step(worlds[|events|], e, w)
    ensures IsRun(worlds + [w], events + [e])
    ensures Thrifty(worlds) && Unspent(w) ==> Thrifty(worlds + [w])
  {
    hide Step;
    hide Unspent;
    var ws, es := worlds + [w], events + [e];
    forall k {:trigger es[k]} | 0 <= k < |es|
      ensures Step(ws[k], es[k], ws[k + 1])
    {
      if k < |events| {
        assert es[k] == events[k] && ws[k] == worlds[k] && ws[k + 1] == worlds[k + 1];
      }
    }
  }

  /** What the session is bound to is registered at the bound generation. */
  ghost predicate Furnished(d: Domains) {
    && 1 in d.toolchains.entries && d.toolchains.entries[1].generation == 1
    && 1 in d.targets.entries && d.targets.entries[1].generation == 1
    && 1 in d.environments.entries && d.environments.entries[1].generation == 1
    && 1 in d.policies.entries && d.policies.entries[1] == Identity(1, STRICT)
    && 1 in d.sources.entries && d.sources.entries[1].generation == 1
  }

  const STOCK: seq<DomainChange> := [AddToolchain([]), InternTarget([]), InternEnvironment([]), InternPolicy(STRICT), AddSource([])]

  ghost function Changed(w: World, c: DomainChange): World {
    w.(domains := Change(w.domains, c))
  }

  lemma ChangeStep(w: World, c: DomainChange)
    ensures Step(w, Event(DoChange(c), CALM), Changed(w, c))
  {
    hide Change;
  }

  lemma Interns<T>(r: Registry<T>, contents: T)
    requires r == EmptyRegistry()
    ensures InternedIn(r, contents) == Added(r, contents)
    ensures 1 in Added(r, contents).entries && Added(r, contents).entries[1].generation == 1
  {
  }

  lemma FirstThrifty()
    ensures Thrifty([Initial()])
  {
  }

  /** The registries are filled. */
  lemma Stocked() returns (worlds: seq<World>, events: seq<Event>)
    ensures IsRun(worlds, events) && worlds[0] == Initial()
    ensures var w := worlds[|events|]; w == Initial().(domains := w.domains) && Furnished(w.domains)
    ensures worlds[|events|].domains.targets == Added(EmptyRegistry(), []) && Thrifty(worlds)
  {
    hide Step;
    hide Thrifty;
    FirstThrifty();
    var w0 := Initial();
    var w1 := Changed(w0, STOCK[0]);
    var w2 := Changed(w1, STOCK[1]);
    var w3 := Changed(w2, STOCK[2]);
    var w4 := Changed(w3, STOCK[3]);
    var w5 := Changed(w4, STOCK[4]);
    ChangeStep(w0, STOCK[0]);
    ChangeStep(w1, STOCK[1]);
    ChangeStep(w2, STOCK[2]);
    ChangeStep(w3, STOCK[3]);
    ChangeStep(w4, STOCK[4]);
    worlds, events := [w0], [];
    Extend(worlds, events, Event(DoChange(STOCK[0]), CALM), w1);
    worlds, events := worlds + [w1], events + [Event(DoChange(STOCK[0]), CALM)];
    Extend(worlds, events, Event(DoChange(STOCK[1]), CALM), w2);
    worlds, events := worlds + [w2], events + [Event(DoChange(STOCK[1]), CALM)];
    Extend(worlds, events, Event(DoChange(STOCK[2]), CALM), w3);
    worlds, events := worlds + [w3], events + [Event(DoChange(STOCK[2]), CALM)];
    Extend(worlds, events, Event(DoChange(STOCK[3]), CALM), w4);
    worlds, events := worlds + [w4], events + [Event(DoChange(STOCK[3]), CALM)];
    Extend(worlds, events, Event(DoChange(STOCK[4]), CALM), w5);
    worlds, events := worlds + [w5], events + [Event(DoChange(STOCK[4]), CALM)];
    Interns(w0.domains.targets, []);
    Interns(w0.domains.environments, []);
    Interns(w0.domains.policies, STRICT);
  }

  /* ---------- Scenes ---------- */

  /** The session is in the given state, with its only phase in the given state. */
  ghost predicate Playing(s: CompilerSession, session: SessionState, phase: PhaseState) {
    && s.id == 1 && s.state == session && s.plan == PLAN && s.phases.Keys == {1}
    && s.toolchain == ONE && s.target == ONE && s.environment == ONE && s.policy == ONE && s.source == ONE
    && s.cooperating == [] && s.irGeneration == 0 && s.compilationGeneration == 1
    && s.phases[1].id == 1 && s.phases[1].state == phase && 0 < s.phases[1].attemptGeneration < 10
  }

  ghost predicate Scene(w: World, session: SessionState, phase: PhaseState) {
    && !w.shuttingDown && w.sessions.Keys == {1} && Furnished(w.domains)
    && Playing(w.sessions[1], session, phase)
  }

  /** The lease table has room, and no identity is about to run out. */
  ghost predicate Roomy(w: World) {
    && (forall id :: id in w.leases.entries ==> id < w.leases.next) && 0 < w.leases.next < 10
    && w.next.invocation < 10 && 0 < w.next.attempt < 10
    && w.artifacts.next < 10 && w.commits == []
  }

  lemma Created(w: World)
    requires w == Initial().(domains := w.domains) && Furnished(w.domains)
    ensures Step(w, Event(DoCreate(SESSION, 2), CALM), Create(w, SESSION, 2, CALM))
    ensures var w' := Create(w, SESSION, 2, CALM);
            && Scene(w', SessionActive, Pending) && Roomy(w') && w'.sessions[1].phases[1].attempts == []
            && w'.artifacts == Artifacts.NO_ARTIFACTS && w'.leases == Authority.NO_LEASES
            && w'.next.invocation == 1 && w'.next.attempt == 1 && w'.sessions[1].retriesUsed == 0
            && w'.plans == multiset{} && w'.owed == multiset{} && w'.sessions[1].phases[1].attemptGeneration == 1
            && w'.sessions[1].phases[1].outputs == [] && w'.sessions[1].intermediates == []
            && |w'.log| == 1 && w'.log[0].session == w'.sessions[1] && w'.domains == w.domains
  {
    CreateIs(w);
    OnePhasePlan();
    BundleSession();
    hide BundleOf;
    hide IsPlan;
    hide HasPhase;
    hide Step;
    hide IndexOfId;
    assert NewSession(w, SESSION);
  }

  lemma BundleSession()
    ensures forall w, s, extras :: BundleOf(w, s, extras).session == s
  {
    hide Found;
    hide Sorted;
  }

  lemma CreateIs(w: World)
    ensures Step(w, Event(DoCreate(SESSION, 2), CALM), Create(w, SESSION, 2, CALM))
  {
    hide Create;
  }

  /* ---------- Reserving ---------- */

  lemma NothingToResolve(w: World, state: SessionState, phase: PhaseState)
    requires Scene(w, state, phase)
    ensures ResolveInputs(w, w.sessions[1], w.sessions[1].phases[1]) == Some([])
  {
    OnePhasePlan();
    hide IsPlan;
    var s := w.sessions[1];
    var node := s.plan.nodes[0];
    assert ProducedIds(s, node.dependsOn) == [] && SortedUnique([]) == [];
    assert LatestRefs(w.artifacts, []) == [];
  }

  /** A first reservation of a phase that waits, or a granted retry of one that failed. */
  ghost predicate Callable(w: World, phase: PhaseState, isRetry: bool) {
    && Scene(w, SessionActive, phase) && |w.sessions[1].phases[1].attempts| < MAX_ATTEMPTS
    && (if isRetry then phase == Failed && Grant(1, 1) in w.owed else phase in {Pending, Ready})
  }

  lemma MayReserve(w: World, phase: PhaseState, isRetry: bool)
    requires Callable(w, phase, isRetry)
    ensures Reservable(w, 1, 1, isRetry)
  {
    hide ResolveInputs;
    hide IsPlan;
    NothingToResolve(w, SessionActive, phase);
    OnePhasePlan();
    hide HasPhase;
    hide Dependencies;
  }

  /** The reservation is for the attempt under way, and everything it is bound to holds. */
  ghost predicate Holding(w: World, r: Reservation) {
    && r.session == 1 && r.phase == 1 && r in w.issued && HasRecord(w, 1, 1)
    && var s := w.sessions[1];
    && var p := s.phases[1];
    && p.generation == r.generation && p.activeInvocation == r.invocation
    && r.authority == Authority.PhaseAuthority(r.authority.sessionGeneration, 1, p.attemptGeneration, p.generation, ONE, [], ONE, ONE, ONE, ONE, 0, p.lease)
    && Authority.IsHeld(w.leases, p.lease, 0)
    && |p.attempts| == 1 && p.attempts[0].id == r.attempt
  }

  ghost function ReservedOnce(w: World, isRetry: bool): World {
    Reserve(w, 1, 1, isRetry, true, CALM)
  }

  lemma ReservedOnceRecord(w: World, phase: PhaseState, isRetry: bool)
    requires Callable(w, phase, isRetry)
    requires ResolveInputs(w, w.sessions[1], w.sessions[1].phases[1]) == Some([])
    ensures var p := w.sessions[1].phases[1];
            var q := ReservedRecord(w, 1, 1, isRetry, 0);
            && q.id == 1 && q.state == Preparing && q.outputs == []
            && q.attemptGeneration == (if isRetry then p.attemptGeneration + 1 else p.attemptGeneration)
            && q.activeInvocation == Ref(w.next.invocation, 1) && q.lease == Ref(w.leases.next, 1)
            && |q.attempts| == |p.attempts| + 1 && q.attempts[|p.attempts|].id == w.next.attempt
  {
    hide ResolveInputs;
    hide Recorded;
    hide Furnished;
  }

  /** What a reservation leaves behind. */
  lemma ReservedOnceWorld(w: World, phase: PhaseState, isRetry: bool)
    requires Callable(w, phase, isRetry)
    requires ResolveInputs(w, w.sessions[1], w.sessions[1].phases[1]) == Some([])
    requires ReservedRecord(w, 1, 1, isRetry, 0).id == 1
    ensures var w' := ReservedOnce(w, isRetry);
            var q := ReservedRecord(w, 1, 1, isRetry, 0);
            var t := Advanced(WithPhase(w.sessions[1], q), 0).(attemptGeneration := q.attemptGeneration, currentPhase := 1);
            && w'.sessions == w.sessions[1 := t] && w'.issued == w.issued + {ReservationFor(t, q)}
            && w'.leases == Authority.Grant(w.leases, Ref(1, w.sessions[1].generation), Ref(1, Next(w.sessions[1].phases[1].generation)), 0, RESERVED).0
            && w'.artifacts == w.artifacts && w'.commits == w.commits && w'.domains == w.domains && w'.shuttingDown == w.shuttingDown
            && w'.plans == w.plans && w'.next == w.next.(attempt := Next(w.next.attempt), invocation := Next(w.next.invocation))
  {
    MayReserve(w, phase, isRetry);
    hide Reservable;
    hide ReservedRecord;
    hide ResolveInputs;
    hide BundleOf;
    hide Authority.Grant;
    hide Furnished;
  }

  lemma Reserves(w: World, phase: PhaseState, isRetry: bool)
    requires Callable(w, phase, isRetry) && Roomy(w) && w.sessions[1].phases[1].attemptGeneration < 9
    ensures var w' := ReservedOnce(w, isRetry);
            && Scene(w', SessionActive, Preparing) && w'.artifacts == w.artifacts && w'.commits == w.commits && w'.plans == w.plans
            && |w'.sessions[1].phases[1].attempts| == |w.sessions[1].phases[1].attempts| + 1
            && w'.sessions[1].phases[1].outputs == [] && w'.sessions[1].retriesUsed == w.sessions[1].retriesUsed
            && w'.sessions[1].phases[1].attemptGeneration <= w.sessions[1].phases[1].attemptGeneration + 1
            && w'.leases.next == w.leases.next + 1 && (forall id :: id in w'.leases.entries ==> id < w'.leases.next)
            && w'.next.invocation == w.next.invocation + 1 && w'.next.attempt == w.next.attempt + 1
    ensures w.sessions[1].phases[1].attempts == [] ==>
              var w' := ReservedOnce(w, isRetry);
              Holding(w', ReservationFor(w'.sessions[1], w'.sessions[1].phases[1]))
  {
    hide ReservedOnce;
    hide ReservedRecord;
    hide ResolveInputs;
    hide Furnished;
    NothingToResolve(w, SessionActive, phase);
    ReservedOnceRecord(w, phase, isRetry);
    ReservedOnceWorld(w, phase, isRetry);
  }

  /* ---------- Executing and validating ---------- */

  ghost function LaunchedOnce(w: World, r: Reservation): World {
    Launch(w, r, Launched, CALM)
  }

  lemma Launches(w: World, r: Reservation)
    requires Scene(w, SessionActive, Preparing) && Holding(w, r)
    ensures var w' := LaunchedOnce(w, r);
            && Scene(w', SessionActive, Running) && Holding(w', r) && w'.artifacts == w.artifacts && w'.commits == w.commits
            && w'.next == w.next
            && w'.sessions[1].phases[1].outputs == w.sessions[1].phases[1].outputs
  {
    hide BundleOf;
    hide Recorded;
    hide Authority.IsHeld;
  }

  function Success(outputs: seq<OutputDescriptor>, detail: Text): Report {
    Report(true, 1, 1, 0, 0, 0, OK, detail, NoFailure, outputs, ZERO_DIGEST, Some(ABSENT))
  }

  ghost function ReportedOnce(w: World, r: Reservation, outputs: seq<OutputDescriptor>, detail: Text): World {
    RecordExecution(w, r, Success(outputs, detail), CALM)
  }

  lemma ReportsSuccess(w: World, r: Reservation, outputs: seq<OutputDescriptor>, detail: Text)
    requires Scene(w, SessionActive, Running) && Holding(w, r) && w.sessions[1].phases[1].outputs == []
    requires outputs == [] || (|outputs| == 1 && w.artifacts == Artifacts.NO_ARTIFACTS)
    ensures var w' := ReportedOnce(w, r, outputs, detail);
            && Scene(w', SessionActive, Validating) && Holding(w', r) && w'.commits == w.commits
            && w'.sessions[1].phases[1].attempts[0].detail == detail
            && w'.sessions[1].phases[1].outputs == (if outputs == [] then [] else [ONE])
            && (outputs != [] ==> 1 in w'.artifacts.entries) && (outputs == [] ==> w'.artifacts == w.artifacts) && w'.next == w.next
  {
    hide ReportedOnce;
    hide ReportedRecord;
    hide Authority.IsHeld;
    hide Furnished;
    ReportedOnceRecord(w, r, outputs, detail);
    ReportedOnceWorld(w, r, outputs, detail);
  }

  /** The phase record a successful report leaves. */
  function ReportedRecord(p: PhaseRecord, invocation: Ref, refs: seq<Ref>, report: Report): PhaseRecord
    requires p.attempts != [] && report.diagnostics.Some?
  {
    var attempts := p.attempts[0 := ReportedAttempt(p.attempts[0], invocation, report)];
    var p2 := RecordTransition(p.(attempts := attempts, diagnostics := report.diagnostics.value), Produced, 0, EXITED)
      .(attempts := attempts[0 := attempts[0].(terminalState := Produced)]);
    RecordTransition(p2.(outputs := p2.outputs + refs, outputDigest := report.outputDigest), Validating, 0, CANDIDATES)
  }

  lemma ReportedOnceRecord(w: World, r: Reservation, outputs: seq<OutputDescriptor>, detail: Text)
    requires Scene(w, SessionActive, Running) && Holding(w, r) && w.sessions[1].phases[1].outputs == []
    ensures var p := w.sessions[1].phases[1];
            var refs := if outputs == [] then [] else [ONE];
            var q := ReportedRecord(p, r.invocation, refs, Success(outputs, detail));
            && q.id == 1 && q.state == Validating && q.attemptGeneration == p.attemptGeneration && q.generation == p.generation
            && q.activeInvocation == p.activeInvocation && q.lease == p.lease && q.outputs == refs
            && |q.attempts| == 1 && q.attempts[0].id == p.attempts[0].id && q.attempts[0].detail == detail
  {
    hide Furnished;
    hide Authority.IsHeld;
    hide Recorded;
    hide Moved;
    MovesOn();
  }

  lemma ReportedOnceWorld(w: World, r: Reservation, outputs: seq<OutputDescriptor>, detail: Text)
    requires Scene(w, SessionActive, Running) && Holding(w, r)
    requires outputs == [] || (|outputs| == 1 && w.artifacts == Artifacts.NO_ARTIFACTS)
    requires var q := ReportedRecord(w.sessions[1].phases[1], r.invocation, if outputs == [] then [] else [ONE], Success(outputs, detail));
             q.id == 1
    ensures var w' := ReportedOnce(w, r, outputs, detail);
            var s := w.sessions[1];
            var refs := if outputs == [] then [] else [ONE];
            var q := ReportedRecord(s.phases[1], r.invocation, refs, Success(outputs, detail));
            && w'.sessions == w.sessions[1 := WithPhase(s.(intermediates := s.intermediates + refs), q).(updatedAt := 0)]
            && w'.issued == w.issued && w'.leases == w.leases && w'.commits == w.commits && w'.domains == w.domains
            && w'.shuttingDown == w.shuttingDown && (outputs != [] ==> 1 in w'.artifacts.entries)
            && (outputs == [] ==> w'.artifacts == w.artifacts) && w'.next == w.next
  {
    hide BundleOf;
    hide RecordTransition;
    hide Authority.IsHeld;
    hide RegisterOutputs;
    hide Furnished;
    hide AttemptIndex;
    RegistersOne(w, r, outputs);
    FirstAttempt(w.sessions[1].phases[1].attempts, r.attempt);
  }

  lemma MovesOn()
    ensures Moved(Running, Produced) == Produced && Moved(Produced, Validating) == Validating
  {
  }

  lemma FirstAttempt(attempts: seq<PhaseAttempt>, id: U64)
    requires attempts != [] && attempts[0].id == id
    ensures AttemptIndex(attempts, id) == 0
  {
  }

  lemma RegistersOne(w: World, r: Reservation, outputs: seq<OutputDescriptor>)
    requires outputs == [] || (|outputs| == 1 && w.artifacts == Artifacts.NO_ARTIFACTS)
    ensures forall s, p :: var reg := RegisterOutputs(w.artifacts, s, p, r.invocation, outputs);
              && reg.complete && reg.refs == (if outputs == [] then [] else [ONE])
              && (outputs != [] ==> 1 in reg.store.entries) && (outputs == [] ==> reg.store == w.artifacts)
  {
    if outputs != [] {
      assert outputs[1..] == [];
    }
  }

  const ACCEPTING: Evidence := Evidence(true, Artifacts.Valid, OK, NoFailure, [])

  ghost function ValidatedOnce(w: World, r: Reservation): World {
    Validate(w, r, ACCEPTING, CALM)
  }

  lemma Validates(w: World, r: Reservation)
    requires Scene(w, SessionActive, Validating) && Holding(w, r)
    requires var p := w.sessions[1].phases[1]; p.outputs == [] || (p.outputs == [ONE] && 1 in w.artifacts.entries)
    ensures var w' := ValidatedOnce(w, r);
            && Scene(w', SessionActive, CommitReady) && Holding(w', r) && w'.commits == w.commits
            && w'.sessions[1].phases[1].attempts == w.sessions[1].phases[1].attempts
            && w'.sessions[1].phases[1].outputs == w.sessions[1].phases[1].outputs
            && (w.sessions[1].phases[1].outputs != [] ==> Artifacts.MayHold(w'.artifacts, 1, Artifacts.Authoritative))
            && (w.sessions[1].phases[1].outputs == [] ==> w'.artifacts == w.artifacts) && w'.next == w.next
  {
    hide BundleOf;
    hide Recorded;
    hide Authority.IsHeld;
    hide SetStates;
    SetsOne(w.artifacts, w.sessions[1].phases[1].outputs);
  }

  lemma SetsOne(t: Artifacts.Store, outputs: seq<Ref>)
    requires outputs == [] || (outputs == [ONE] && 1 in t.entries)
    ensures AllRegistered(t, OutputIds(outputs))
    ensures outputs != [] ==> Artifacts.MayHold(SetStates(t, OutputIds(outputs), Artifacts.Valid, []), 1, Artifacts.Authoritative)
    ensures outputs == [] ==> SetStates(t, OutputIds(outputs), Artifacts.Valid, []) == t
  {
    if outputs != [] {
      assert OutputIds(outputs) == [1] && [1][1..] == [];
      var u := Artifacts.SetState(t, 1, Artifacts.Valid, []);
      assert SetStates(u, [], Artifacts.Valid, []) == u;
    }
  }

  /* ---------- Committing ---------- */

  const PLAIN: Publication := Publication(0, None)

  /** The toolchain was probed again and is the recorded one. */
  const UNCHANGED: Probe := Probed(1, [], false)

  ghost function CommittedOnce(w: World, r: Reservation, env: Ambient): World {
    Commit(w, r, UNCHANGED, PLAIN, env)
  }

  lemma VerdictIsValid(w: World, r: Reservation)
    requires Scene(w, SessionActive, CommitReady) && Holding(w, r)
    ensures CommitVerdict(w, r, 0) == Authority.Valid
  {
    hide Authority.IsHeld;
  }

  lemma ReachesPublish(w: World, r: Reservation, env: Ambient)
    requires Scene(w, SessionActive, CommitReady) && Holding(w, r) && env.now == 0
    ensures CommittedOnce(w, r, env) == Publish(w, r, PLAIN, env)
  {
    hide Publish;
    hide CommitVerdict;
    VerdictIsValid(w, r);
    assert w.(domains := w.domains.(toolchains := Refreshed(w.domains.toolchains, 1, [], false))) == w;
  }

  lemma PublishesOnce(w: World, r: Reservation)
    requires Scene(w, SessionActive, CommitReady) && Holding(w, r) && w.commits == [] && w.sessions[1].phases[1].outputs == []
    ensures var w' := Publish(w, r, PLAIN, CALM);
            && |w'.commits| == 1 && w'.commits[0].session == 1 && w'.commits[0].phase == 1
            && w'.commits[0].at + 1 == |w'.log| && w'.log[w'.commits[0].at].session == w'.sessions[1]
            && 1 in w'.sessions && 1 in w'.sessions[1].phases && w'.sessions[1].phases[1].state == Committed
            && |w'.sessions[1].phases[1].attempts| == 1
            && w'.sessions[1].phases[1].attempts[0].detail == w.sessions[1].phases[1].attempts[0].detail
            && w'.next.invocation == w.next.invocation && w'.artifacts.next == w.artifacts.next
            && w'.sessions[1].target == ONE && w'.commits[0].generation == w'.sessions[1].phases[1].generation
  {
    hide Recorded;
    hide Found;
    hide Sorted;
    hide MandatoryDone;
    hide NextGenerations;
    hide Stamped;
    hide Authority.Revoke;
    var ids := OutputIds(w.sessions[1].phases[1].outputs);
    assert ids == [];
    SameNext(w.artifacts, ids, PLAIN.provenance);
  }

  lemma SameNext(t: Artifacts.Store, ids: seq<U64>, provenance: U64)
    ensures Stamped(t, ids, provenance).next == t.next && forall u :: NextGenerations(u, ids).next == u.next
  {
  }

  /* ---------- Failing, retrying, recovering ---------- */

  ghost function FailedAs(w: World, failure: FailureClass): World
    requires HasRecord(w, 1, 1)
  {
    FailPhase(w, 1, 1, w.sessions[1].phases[1].generation, failure, OK, [], CALM)
  }

  /** The record of a phase that is reported as failed. */
  function FailedRecord(p: PhaseRecord, failure: FailureClass): PhaseRecord {
    var p1 := p.(failure := failure, lastStatus := OK, lastDetail := [], attempts := FailedAttempts(p.attempts, failure, OK));
    if RetainsCommitAuthority(p.state) then RecordTransition(p1, Failed, 0, []) else p1
  }

  lemma FailsRecord(p: PhaseRecord, failure: FailureClass)
    requires p.state in {Preparing, Failed}
    ensures var q := FailedRecord(p, failure);
            && q.id == p.id && q.state == Failed && q.failure == failure && |q.attempts| == |p.attempts|
            && q.attemptGeneration == p.attemptGeneration
  {
    hide Recorded;
    hide FailedAttempts;
    assert |FailedAttempts(p.attempts, failure, OK)| == |p.attempts|;
  }

  lemma FailsWorld(w: World, failure: FailureClass)
    requires HasRecord(w, 1, 1) && w.sessions[1].id == 1 && w.sessions[1].phases[1].state in {Preparing, Failed}
    ensures var w' := FailedAs(w, failure);
            var p := w.sessions[1].phases[1];
            && w'.sessions == w.sessions[1 := Advanced(WithPhase(w.sessions[1], FailedRecord(p, failure)), 0)]
            && w'.plans == w.plans && w'.owed == w.owed && w'.next == w.next && w'.commits == w.commits
            && w'.domains == w.domains && w'.shuttingDown == w.shuttingDown
            && w'.artifacts == Artifacts.RevokeOutputs(w.artifacts, p.id, p.generation, [])
            && w'.leases == Authority.Revoke(w.leases, p.lease.id, [])
  {
    hide BundleOf;
    hide RecordTransition;
    hide FailedAttempts;
    hide Artifacts.RevokeOutputs;
    hide Authority.Revoke;
  }

  lemma Fails(w: World, phase: PhaseState, failure: FailureClass)
    requires Scene(w, SessionActive, phase) && phase in {Preparing, Failed} && Roomy(w)
    ensures var w' := FailedAs(w, failure);
            && Scene(w', SessionActive, Failed) && Roomy(w') && w'.sessions[1].phases[1].failure == failure
            && |w'.sessions[1].phases[1].attempts| == |w.sessions[1].phases[1].attempts|
            && w'.sessions[1].phases[1].attemptGeneration == w.sessions[1].phases[1].attemptGeneration
            && w'.sessions[1].retriesUsed == w.sessions[1].retriesUsed
            && w'.plans == w.plans && w'.owed == w.owed && w'.next == w.next && w'.leases.next == w.leases.next
  {
    hide FailedAs;
    hide FailedRecord;
    FailsWorld(w, failure);
    FailsRecord(w.sessions[1].phases[1], failure);
  }

  lemma PlansFor(w: World, session: SessionState, phase: PhaseState)
    requires Scene(w, session, phase) && phase in {Preparing, Failed, Pending}
    ensures PlanFor(w, w.sessions[1]) == RecoveryPlan(1, phase == Failed && w.sessions[1].phases[1].failure == UnknownOutcome, [])
  {
    hide Furnished;
    hide Authority.Compare;
    OnePhasePlan();
    hide IsPlan;
    var s := w.sessions[1];
    var p := s.phases[1];
    assert s.plan.order[1..] == [] && RecordsOf(s, []) == [];
    assert RecordsOf(s, s.plan.order) == [p];
    assert [p][1..] == [] && Suspects(w.artifacts, []) == [];
    var now := Runtime.Observe(w.domains, s, s.generation, s.attemptGeneration, 0, ABSENT, true);
    assert !Recovery.StillGood([p], now, 1) && IsMandatory(s.plan.nodes, 1);
  }

  ghost function Planned(w: World): World {
    PlanRecovery(w, 1)
  }

  lemma Plans(w: World, session: SessionState, phase: PhaseState)
    requires Scene(w, session, phase) && phase in {Preparing, Failed, Pending}
    ensures var plan := RecoveryPlan(1, phase == Failed && w.sessions[1].phases[1].failure == UnknownOutcome, []);
            Planned(w) == w.(plans := w.plans + multiset{plan})
  {
    hide PlanFor;
    PlansFor(w, session, phase);
  }

  ghost function Set(w: World, requiresOperator: bool): World {
    ApplyRecovery(w, 1, requiresOperator, [], ABSENT, CALM)
  }

  lemma SetAside(w: World)
    requires Scene(w, SessionActive, Preparing) && Roomy(w) && RecoveryPlan(1, true, []) in w.plans
    ensures Scene(Set(w, true), SessionRecovering, Preparing) && Roomy(Set(w, true))
    ensures Set(w, true).sessions[1].phases == w.sessions[1].phases && Set(w, true).sessions[1].retriesUsed == w.sessions[1].retriesUsed
  {
    hide BundleOf;
    assert StepIds([]) == [];
  }

  lemma SetBack(w: World, phase: PhaseState)
    requires Scene(w, SessionRecovering, phase) && phase in {Preparing, Pending} && Roomy(w) && RecoveryPlan(1, false, []) in w.plans
    ensures Scene(Set(w, false), SessionActive, Ready) && Roomy(Set(w, false))
    ensures Set(w, false).sessions[1].phases[1].attempts == w.sessions[1].phases[1].attempts
    ensures Set(w, false).sessions[1].phases[1].attemptGeneration == w.sessions[1].phases[1].attemptGeneration
    ensures Set(w, false).sessions[1].retriesUsed == w.sessions[1].retriesUsed
    ensures Set(w, false).artifacts == w.artifacts && Set(w, false).issued == w.issued && Set(w, false).domains == w.domains
    ensures Set(w, false).next == w.next
  {
    hide BundleOf;
    hide RecoveredRecord;
    hide Furnished;
    assert StepIds([]) == [];
    MovesBack(w.sessions[1].phases[1]);
  }

  lemma MovesBack(p: PhaseRecord)
    requires p.state in {Preparing, Pending}
    ensures var q := RecoveredRecord(p, 0);
            q.id == p.id && q.state == Ready && q.attempts == p.attempts && q.attemptGeneration == p.attemptGeneration
  {
    hide Recorded;
  }

  ghost function Charged(w: World): World {
    GrantRetry(w, 1, 1)
  }

  lemma Charges(w: World)
    requires Scene(w, SessionActive, Failed) && w.sessions[1].phases[1].failure == ProcessCrash
    requires |w.sessions[1].phases[1].attempts| == 1 && w.sessions[1].retriesUsed == 0
    ensures var w' := Charged(w);
            && Scene(w', SessionActive, Failed) && w'.sessions[1].retriesUsed == 1 && Grant(1, 1) in w'.owed
            && w'.sessions[1].phases == w.sessions[1].phases && w'.plans == w.plans && w'.leases == w.leases && w'.next == w.next
            && w'.commits == w.commits && w'.artifacts == w.artifacts
  {
  }

  /* ---------- The runs ---------- */

  lemma ReserveEvent(w: World, isRetry: bool)
    ensures Step(w, Event(DoReserve(1, 1, isRetry, true), CALM), ReservedOnce(w, isRetry))
  {
    hide Reserve;
  }

  lemma PhaseEvents(w: World, r: Reservation, outputs: seq<OutputDescriptor>, detail: Text)
    ensures Step(w, Event(DoLaunch(r, Launched), CALM), LaunchedOnce(w, r))
    ensures Step(w, Event(DoRecord(r, Success(outputs, detail)), CALM), ReportedOnce(w, r, outputs, detail))
    ensures Step(w, Event(DoValidate(r, ACCEPTING), CALM), ValidatedOnce(w, r))
  {
    hide Launch;
    hide RecordExecution;
    hide Validate;
  }

  lemma CommitHappens(w: World, r: Reservation, env: Ambient)
    ensures Step(w, Event(DoCommit(r, UNCHANGED, PLAIN), env), CommittedOnce(w, r, env))
  {
    hide Commit;
  }

  lemma RecoveryEvent(w: World, requiresOperator: bool)
    ensures Step(w, Event(DoApplyRecovery(1, requiresOperator, [], ABSENT), CALM), Set(w, requiresOperator))
    ensures Step(w, Event(DoPlanRecovery(1), CALM), Planned(w))
  {
    hide ApplyRecovery;
    hide PlanRecovery;
  }

  lemma FailEvent(w: World, failure: FailureClass)
    requires HasRecord(w, 1, 1)
    ensures Step(w, Event(DoFailPhase(1, 1, w.sessions[1].phases[1].generation, failure, OK, []), CALM), FailedAs(w, failure))
    ensures Step(w, Event(DoGrantRetry(1, 1), CALM), Charged(w))
  {
    hide FailPhase;
    hide GrantRetry;
  }

  /** The session is created and its phase reserved. */
  lemma Started() returns (worlds: seq<World>, events: seq<Event>)
    ensures IsRun(worlds, events) && worlds[0] == Initial()
    ensures var w := worlds[|events|];
            && Scene(w, SessionActive, Preparing) && w.artifacts == Artifacts.NO_ARTIFACTS && Roomy(w)
            && w.sessions[1].retriesUsed == 0 && w.sessions[1].phases[1].attemptGeneration <= 2
            && w.leases.next == 2 && w.next.invocation == 2 && w.next.attempt == 2 && w.plans == multiset{}
            && |w.sessions[1].phases[1].attempts| == 1 && w.sessions[1].phases[1].outputs == []
            && Holding(w, ReservationFor(w.sessions[1], w.sessions[1].phases[1]))
    ensures Thrifty(worlds)
  {
    hide Step;
    hide Thrifty;
    hide Scene;
    hide Holding;
    hide Create;
    hide Reserve;
    hide Furnished;
    worlds, events := Stocked();
    var w0 := worlds[|events|];
    Created(w0);
    var w1 := Create(w0, SESSION, 2, CALM);
    Extend(worlds, events, Event(DoCreate(SESSION, 2), CALM), w1);
    worlds, events := worlds + [w1], events + [Event(DoCreate(SESSION, 2), CALM)];
    Reserves(w1, Pending, false);
    var w2 := ReservedOnce(w1, false);
    ReserveEvent(w1, false);
    Extend(worlds, events, Event(DoReserve(1, 1, false, true), CALM), w2);
    worlds, events := worlds + [w2], events + [Event(DoReserve(1, 1, false, true), CALM)];
  }

  /** Reported with the given outputs and detail. */
  ghost predicate Reported(w: World, r: Reservation, outputs: seq<OutputDescriptor>, detail: Text, state: PhaseState) {
    && Scene(w, SessionActive, state) && Holding(w, r) && w.commits == []
    && w.sessions[1].phases[1].attempts[0].detail == detail
    && w.sessions[1].phases[1].outputs == (if outputs == [] then [] else [ONE])
    && (outputs != [] ==> 1 in w.artifacts.entries)
  }

  lemma Stages(w0: World, r: Reservation, outputs: seq<OutputDescriptor>, detail: Text)
    requires Scene(w0, SessionActive, Preparing) && Holding(w0, r) && w0.artifacts == Artifacts.NO_ARTIFACTS && w0.commits == []
    requires w0.sessions[1].phases[1].outputs == [] && |outputs| <= 1
    ensures var w1 := LaunchedOnce(w0, r);
            var w2 := ReportedOnce(w1, r, outputs, detail);
            var w3 := ValidatedOnce(w2, r);
            && Reported(w3, r, outputs, detail, CommitReady)
            && (outputs != [] ==> Artifacts.MayHold(w3.artifacts, 1, Artifacts.Authoritative))
            && w1.next == w2.next == w3.next == w0.next
            && (outputs == [] ==> w1.artifacts == w2.artifacts == w3.artifacts == w0.artifacts)
  {
    hide LaunchedOnce;
    hide ReportedOnce;
    hide ValidatedOnce;
    hide Furnished;
    hide Authority.IsHeld;
    var w1 := LaunchedOnce(w0, r);
    var w2 := ReportedOnce(w1, r, outputs, detail);
    Launches(w0, r);
    ReportsSuccess(w1, r, outputs, detail);
    Validates(w2, r);
  }

  /** The phase is executed, reported with the given outputs and detail, and validated. */
  lemma Validated(outputs: seq<OutputDescriptor>, detail: Text) returns (worlds: seq<World>, events: seq<Event>, r: Reservation)
    requires |outputs| <= 1
    ensures IsRun(worlds, events) && worlds[0] == Initial()
    ensures Reported(worlds[|events|], r, outputs, detail, CommitReady)
    ensures outputs != [] ==> Artifacts.MayHold(worlds[|events|].artifacts, 1, Artifacts.Authoritative)
    ensures outputs == [] ==> Thrifty(worlds)
  {
    hide Step;
    hide Thrifty;
    hide LaunchedOnce;
    hide ReportedOnce;
    hide ValidatedOnce;
    hide Holding;
    hide Furnished;
    hide Reported;
    worlds, events := Started();
    var w0 := worlds[|events|];
    r := ReservationFor(w0.sessions[1], w0.sessions[1].phases[1]);
    var w1 := LaunchedOnce(w0, r);
    var w2 := ReportedOnce(w1, r, outputs, detail);
    var w3 := ValidatedOnce(w2, r);
    Stages(w0, r, outputs, detail);
    PhaseEvents(w0, r, outputs, detail);
    Extend(worlds, events, Event(DoLaunch(r, Launched), CALM), w1);
    worlds, events := worlds + [w1], events + [Event(DoLaunch(r, Launched), CALM)];
    PhaseEvents(w1, r, outputs, detail);
    Extend(worlds, events, Event(DoRecord(r, Success(outputs, detail)), CALM), w2);
    worlds, events := worlds + [w2], events + [Event(DoRecord(r, Success(outputs, detail)), CALM)];
    PhaseEvents(w2, r, outputs, detail);
    Extend(worlds, events, Event(DoValidate(r, ACCEPTING), CALM), w3);
    worlds, events := worlds + [w3], events + [Event(DoValidate(r, ACCEPTING), CALM)];
  }

  /** A commit is reported whose record carries a report detail of any length. Beyond 8192 bytes the
      decoder refuses the record, and a crash right then loses the commit. */
  lemma CommitWithLongDetail(detail: Text) returns (worlds: seq<World>, events: seq<Event>)
    ensures IsRun(worlds, events) && worlds[0] == Initial() && Thrifty(worlds)
    ensures var w := worlds[|events|];
            && |w.commits| == 1 && w.commits[0].at + 1 == |w.log| && w.commits[0].session == 1 && w.commits[0].phase == 1
            && var s := w.log[w.commits[0].at].session;
            && 1 in s.phases && s.phases[1].state == Committed
            && |s.phases[1].attempts| == 1 && s.phases[1].attempts[0].detail == detail
  {
    hide Step;
    hide Commit;
    hide Publish;
    hide Scene;
    hide Thrifty;
    var r;
    worlds, events, r := Validated([], detail);
    LastThrifty(worlds);
    var w0 := worlds[|events|];
    var w1 := CommittedOnce(w0, r, CALM);
    ReachesPublish(w0, r, CALM);
    PublishesOnce(w0, r);
    CommitHappens(w0, r, CALM);
    Extend(worlds, events, Event(DoCommit(r, UNCHANGED, PLAIN), CALM), w1);
    worlds, events := worlds + [w1], events + [Event(DoCommit(r, UNCHANGED, PLAIN), CALM)];
  }

  lemma LastThrifty(worlds: seq<World>)
    requires Thrifty(worlds) && worlds != []
    ensures Unspent(worlds[|worlds| - 1])
  {
  }

  /** A commit whose append is refused: its output is authoritative, and no commit was ever
      reported. */
  lemma RefusedAppendLeavesAuthority(output: OutputDescriptor) returns (worlds: seq<World>, events: seq<Event>)
    ensures IsRun(worlds, events) && worlds[0] == Initial()
    ensures var w := worlds[|events|];
            && w.commits == [] && 1 in w.artifacts.entries && w.artifacts.entries[1].authority == Artifacts.Authoritative
  {
    hide Step;
    hide Commit;
    hide Publish;
    hide Scene;
    var r;
    worlds, events, r := Validated([output], []);
    var w0 := worlds[|events|];
    var w1 := CommittedOnce(w0, r, REFUSING);
    ReachesPublish(w0, r, REFUSING);
    assert Publishing(w0, r) == [1];
    AuthorityOrigin.HalfCommit(w0, r, PLAIN, REFUSING);
    CommitHappens(w0, r, REFUSING);
    Extend(worlds, events, Event(DoCommit(r, UNCHANGED, PLAIN), REFUSING), w1);
    worlds, events := worlds + [w1], events + [Event(DoCommit(r, UNCHANGED, PLAIN), REFUSING)];
  }

  /** The phase has failed with an unknown outcome, and a recovery was planned that asks for an
      operator; the operator calls the failure a crash and has the phase retried. */
  lemma RetriedMeanwhile() returns (worlds: seq<World>, events: seq<Event>)
    ensures IsRun(worlds, events) && worlds[0] == Initial()
    ensures var w := worlds[|events|];
            && Scene(w, SessionActive, Preparing) && Roomy(w) && RecoveryPlan(1, true, []) in w.plans
            && |w.sessions[1].phases[1].attempts| == 2 && w.sessions[1].retriesUsed == 1 && w.sessions[1].phases[1].attemptGeneration <= 3
            && w.leases.next <= 3 && w.next.invocation <= 3 && w.next.attempt <= 3
  {
    hide Step;
    hide Reserve;
    hide FailPhase;
    hide GrantRetry;
    hide PlanRecovery;
    hide Furnished;
    hide Holding;
    worlds, events := Started();
    var w0 := worlds[|events|];
    var w1 := FailedAs(w0, UnknownOutcome);
    Fails(w0, Preparing, UnknownOutcome);
    var w2 := Planned(w1);
    Plans(w1, SessionActive, Failed);
    var w3 := FailedAs(w2, ProcessCrash);
    Fails(w2, Failed, ProcessCrash);
    var w4 := Charged(w3);
    Charges(w3);
    var w5 := ReservedOnce(w4, true);
    Reserves(w4, Failed, true);
    FailEvent(w0, UnknownOutcome);
    var e1 := Event(DoFailPhase(1, 1, w0.sessions[1].phases[1].generation, UnknownOutcome, OK, []), CALM);
    Extend(worlds, events, e1, w1);
    worlds, events := worlds + [w1], events + [e1];
    RecoveryEvent(w1, true);
    Extend(worlds, events, Event(DoPlanRecovery(1), CALM), w2);
    worlds, events := worlds + [w2], events + [Event(DoPlanRecovery(1), CALM)];
    FailEvent(w2, ProcessCrash);
    var e3 := Event(DoFailPhase(1, 1, w2.sessions[1].phases[1].generation, ProcessCrash, OK, []), CALM);
    Extend(worlds, events, e3, w3);
    worlds, events := worlds + [w3], events + [e3];
    FailEvent(w3, ProcessCrash);
    Extend(worlds, events, Event(DoGrantRetry(1, 1), CALM), w4);
    worlds, events := worlds + [w4], events + [Event(DoGrantRetry(1, 1), CALM)];
    ReserveEvent(w4, true);
    Extend(worlds, events, Event(DoReserve(1, 1, true, true), CALM), w5);
    worlds, events := worlds + [w5], events + [Event(DoReserve(1, 1, true, true), CALM)];
  }

  /** ... the recovery that was planned before the retry puts the session aside while the retry is
      under way, and the next one puts the phase back to READY. */
  lemma SetBackMeanwhile() returns (worlds: seq<World>, events: seq<Event>)
    ensures IsRun(worlds, events) && worlds[0] == Initial()
    ensures var w := worlds[|events|];
            && Scene(w, SessionActive, Ready) && Roomy(w) && |w.sessions[1].phases[1].attempts| == 2
            && w.sessions[1].retriesUsed == 1 && w.sessions[1].phases[1].attemptGeneration <= 3
  {
    hide Step;
    hide ApplyRecovery;
    hide PlanRecovery;
    hide Furnished;
    worlds, events := RetriedMeanwhile();
    var w0 := worlds[|events|];
    var w1 := Set(w0, true);
    SetAside(w0);
    var w2 := Planned(w1);
    Plans(w1, SessionRecovering, Preparing);
    var w3 := Set(w2, false);
    SetBack(w2, Preparing);
    RecoveryEvent(w0, true);
    Extend(worlds, events, Event(DoApplyRecovery(1, true, [], ABSENT), CALM), w1);
    worlds, events := worlds + [w1], events + [Event(DoApplyRecovery(1, true, [], ABSENT), CALM)];
    RecoveryEvent(w1, true);
    Extend(worlds, events, Event(DoPlanRecovery(1), CALM), w2);
    worlds, events := worlds + [w2], events + [Event(DoPlanRecovery(1), CALM)];
    RecoveryEvent(w2, false);
    Extend(worlds, events, Event(DoApplyRecovery(1, false, [], ABSENT), CALM), w3);
    worlds, events := worlds + [w3], events + [Event(DoApplyRecovery(1, false, [], ABSENT), CALM)];
  }

  /** A plan of one phase, one retry, and three attempts, where the policy allows one retry: the
      phase that recovery put back to READY while its retry was under way is reserved again, and
      not as a retry. */
  lemma ThirdAttemptWithoutRetry() returns (worlds: seq<World>, events: seq<Event>)
    ensures IsRun(worlds, events) && worlds[0] == Initial()
    ensures var w := worlds[|events|];
            && HasRecord(w, 1, 1) && |w.sessions[1].plan.nodes| == 1 && w.sessions[1].retriesUsed == 1
            && PolicyFor(w, w.sessions[1]).maxRetriesPerPhase == 1
            && |w.sessions[1].phases[1].attempts| == 3
  {
    hide Step;
    hide Reserve;
    hide Holding;
    worlds, events := SetBackMeanwhile();
    var w0 := worlds[|events|];
    var w1 := ReservedOnce(w0, false);
    Reserves(w0, Ready, false);
    ReserveEvent(w0, false);
    Extend(worlds, events, Event(DoReserve(1, 1, false, true), CALM), w1);
    worlds, events := worlds + [w1], events + [Event(DoReserve(1, 1, false, true), CALM)];
  }
}
