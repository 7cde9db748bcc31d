/** The runtime as a step system (src/core/runtime.cpp). Each action is one section the source
    runs under the runtime lock; anything may happen between two of them. What the outside
    world decides — clocks, process reports, validation answers, re-probes, whether an append
    is accepted — arrives as an argument of the action. */
module Runtime {
  import opened StrongId
  import opened Bytes
  import opened Wrappers
  import opened Phases
  import opened PhasePlans
  import opened Ancestry
  import opened Sessions
  import opened Diagnostics
  import opened Registries
  import opened Sorting
  import Authority
  import Artifacts
  import Recovery

  /** Canonical contents of a toolchain, target, environment or source. */
  type Contents = seq<Byte>

  datatype Domains = Domains(
    toolchains: Registry<Contents>,
    targets: Registry<Contents>,
    environments: Registry<Contents>,
    policies: Registry<PolicySpec>,
    sources: Registry<Contents>)

  /** What a phase execution was reserved under. */
  datatype Reservation = Reservation(
    session: U64,
    phase: U64,
    generation: U64,
    invocation: Ref,
    attempt: U64,
    authority: Authority.PhaseAuthority)

  /** The parts of a durable bundle that only pass through: encoded authority entries,
      diagnostic sets and encoded provenance records. */
  datatype Extras = Extras(
    toolchain: Text,
    target: Text,
    environment: Text,
    policy: Text,
    sources: seq<Text>,
    diagnostics: seq<DiagnosticSet>,
    provenance: seq<Text>)

  /** The durable projection of a session: one journal record. */
  datatype Bundle = Bundle(session: CompilerSession, artifacts: seq<Artifacts.Artifact>, extras: Extras)

  /** A commit that was reported to its caller: log[at] is the record that made it durable. */
  datatype CommitEvent = CommitEvent(session: U64, phase: U64, generation: U64, commit: U64, at: nat)

  datatype Counters = Counters(session: U64, phase: U64, invocation: U64, attempt: U64, commit: U64)

  /** A retry the session was charged for, by a caller that is about to reserve the phase. */
  datatype Grant = Grant(session: U64, phase: U64)

  /** What planning the recovery of a session found: whether a human must decide, and the
      committed outputs to be hashed again. */
  datatype RecoveryPlan = RecoveryPlan(session: U64, requiresOperator: bool, suspects: seq<U64>)

  /** The runtime. The last four fields observe the run: the retry calls and the recovery calls
      between their two sections, the reservations handed out and the commits reported. */
  datatype World = World(
    shuttingDown: bool,
    domains: Domains,
    sessions: map<U64, CompilerSession>,
    artifacts: Artifacts.Store,
    leases: Authority.Leases,
    next: Counters,
    log: seq<Bundle>,
    owed: multiset<Grant>,
    plans: multiset<RecoveryPlan>,
    issued: set<Reservation>,
    commits: seq<CommitEvent>)

  /** The clock, the answer of the journal, and the pass-through part of the record. */
  datatype Ambient = Ambient(now: U64, appended: bool, extras: Extras)

  /* ---------- Persisting ---------- */

  function OutputIds(refs: seq<Ref>): (ids: seq<U64>)
    ensures |ids| == |refs| && forall k :: 0 <= k < |refs| ==> ids[k] == refs[k].id
  {
    seq(|refs|, k requires 0 <= k < |refs| => refs[k].id)
  }

  /** The registered artifacts among some identities, in the given order. */
  function Found(t: Artifacts.Store, ids: seq<U64>): seq<Artifacts.Artifact> {
    if ids == [] then []
    else (if ids[0] in t.entries then [t.entries[ids[0]]] else []) + Found(t, ids[1..])
  }

  function BundleOf(w: World, s: CompilerSession, extras: Extras): Bundle {
    Bundle(s, Found(w.artifacts, Sorted(OutputIds(s.intermediates))), extras)
  }

  function Logged(w: World, s: CompilerSession, env: Ambient): seq<Bundle> {
    if env.appended then w.log + [BundleOf(w, s, env.extras)] else w.log
  }

  /** The session is updated and persisted; a refused append leaves the update in place. */
  function Put(w: World, s: CompilerSession, env: Ambient): World {
    w.(sessions := w.sessions[s.id := s], log := Logged(w, s, env))
  }

  predicate HasRecord(w: World, session: U64, phase: U64) {
    session in w.sessions && phase in w.sessions[session].phases
  }

  function WithPhase(s: CompilerSession, p: PhaseRecord): CompilerSession {
    s.(phases := s.phases[p.id := p])
  }

  /** Most sections end this way: the session generation moves on. */
  function Advanced(s: CompilerSession, now: U64): CompilerSession {
    s.(generation := Next(s.generation), updatedAt := now)
  }

  /** Marks the latest attempt. */
  function CloseAttempt(attempts: seq<PhaseAttempt>, state: PhaseState, failure: FailureClass): (r: seq<PhaseAttempt>)
    ensures |r| == |attempts|
  {
    if attempts == [] then attempts
    else attempts[|attempts| - 1 := attempts[|attempts| - 1].(terminalState := state, failure := failure)]
  }

  /* ---------- Authority ---------- */

  function AuthorityOf(s: CompilerSession, p: PhaseRecord): Authority.PhaseAuthority {
    Authority.PhaseAuthority(
      s.generation, s.compilationGeneration, p.attemptGeneration, p.generation,
      s.toolchain, s.cooperating, s.target, s.environment, s.policy, s.source, s.irGeneration, p.lease)
  }

  /** A reference at the generation the registry has now. */
  function Latest<T>(r: Registry<T>, bound: Ref): Ref {
    if bound.id in r.entries then Ref(bound.id, r.entries[bound.id].generation) else bound
  }

  function LatestAll<T>(r: Registry<T>, refs: seq<Ref>): seq<Ref> {
    seq(|refs|, k requires 0 <= k < |refs| => Latest(r, refs[k]))
  }

  /** observe, with the phase, attempt, session and lease fields its callers fill in. */
  function Observe(d: Domains, s: CompilerSession, sessionGeneration: U64, attemptGeneration: U64,
                   phaseGeneration: U64, lease: Ref, leaseHeld: bool): Authority.Observation
  {
    Authority.Observation(
      Authority.PhaseAuthority(
        sessionGeneration, s.compilationGeneration, attemptGeneration, phaseGeneration,
        Latest(d.toolchains, s.toolchain), LatestAll(d.toolchains, s.cooperating),
        Latest(d.targets, s.target), Latest(d.environments, s.environment), Latest(d.policies, s.policy),
        Latest(d.sources, s.source), s.irGeneration, lease),
      AdmitsNewAuthority(s.state) || s.state == SessionRecovering,
      s.toolchain.id in d.toolchains.entries,
      s.target.id in d.targets.entries,
      s.environment.id in d.environments.entries,
      s.policy.id in d.policies.entries,
      s.source.id in d.sources.entries,
      leaseHeld,
      true)
  }

  /* ---------- Creating a session ---------- */

  /** The record create_session makes for a phase of the plan. */
  function InitialRecord(node: PhaseNode, attemptGeneration: U64): PhaseRecord {
    PhaseRecord(
      node.id, INITIAL, node.kind, node.adapterPhase, Pending, node.mandatory, node.dependsOn,
      0, 0, attemptGeneration, ABSENT, ABSENT, ABSENT, ABSENT, ABSENT, 0, ABSENT,
      ABSENT, 0, 0, [], [], ABSENT, 0, ZERO_DIGEST, 0, [], [], NoFailure, OK, [], 0, 0)
  }

  predicate Registered<T>(r: Registry<T>, reference: Ref) {
    && reference.id in r.entries && reference.id != 0
    && r.entries[reference.id].generation == reference.generation
  }

  /** What create_session_impl has put together when it persists the new session: fresh
      identities, a built plan, initial records, and references to what is registered now. */
  ghost predicate NewSession(w: World, s: CompilerSession) {
    && s.id == w.next.session && s.generation == INITIAL && s.state == SessionActive
    && IsPlan(s.plan)
    && (forall id: U64 :: HasPhase(s.plan, id) ==> w.next.phase <= id)
    && (forall id :: id in s.phases <==> HasPhase(s.plan, id))
    && (forall id :: id in s.phases ==>
          s.phases[id] == InitialRecord(s.plan.nodes[IndexOfId(s.plan.nodes, id)], s.attemptGeneration))
    && Registered(w.domains.toolchains, s.toolchain) && s.cooperating == []
    && Registered(w.domains.targets, s.target)
    && Registered(w.domains.environments, s.environment)
    && Registered(w.domains.policies, s.policy)
    && Registered(w.domains.sources, s.source)
    && s.intermediates == [] && !s.candidatePresent && s.retriesUsed == 0
  }

  /** The session joins the runtime only if its first record was appended. */
  ghost function Create(w: World, s: CompilerSession, phasesUpTo: U64, env: Ambient): World {
    if !w.shuttingDown && NewSession(w, s) && w.next.phase <= phasesUpTo
       && (forall id: U64 :: HasPhase(s.plan, id) ==> id < phasesUpTo) && s.id !in w.sessions && s.id < MAX_COUNTER then
      var w' := w.(next := w.next.(session := Next(w.next.session), phase := phasesUpTo));
      if env.appended then Put(w', s, env) else w'
    else w
  }

  /* ---------- Reserving ---------- */

  /** Identities of everything the dependencies of a phase produced. */
  function ProducedIds(s: CompilerSession, deps: seq<U64>): seq<U64> {
    if deps == [] then []
    else (if deps[0] in s.phases then OutputIds(s.phases[deps[0]].outputs) else []) + ProducedIds(s, deps[1..])
  }

  predicate Usable(t: Artifacts.Store, id: U64) {
    id in t.entries && t.entries[id].authority == Artifacts.Authoritative && t.entries[id].state == Artifacts.Valid
  }

  predicate AllUsable(t: Artifacts.Store, ids: seq<U64>) {
    forall id :: id in ids ==> Usable(t, id)
  }

  function LatestRefs(t: Artifacts.Store, ids: seq<U64>): seq<Ref>
    requires forall id :: id in ids ==> id in t.entries
  {
    seq(|ids|, k requires 0 <= k < |ids| => Ref(ids[k], t.entries[ids[k]].generation))
  }

  /** resolve_inputs: the authoritative outputs of the dependencies, each once, by identity. */
  function ResolveInputs(w: World, s: CompilerSession, p: PhaseRecord): Option<seq<Ref>> {
    var k := IndexOfId(s.plan.nodes, p.id);
    if k == |s.plan.nodes| then None
    else
      var node := s.plan.nodes[k];
      var ids := ProducedIds(s, node.dependsOn);
      if (forall d :: d in node.dependsOn ==> HasCommitted(s, d)) && AllUsable(w.artifacts, ids) then
        var inputs := LatestRefs(w.artifacts, SortedUnique(ids));
        if node.fanIn && |inputs| < node.requiredInputs then None else Some(inputs)
      else None
  }

  /** The checks of reserve, in its order; the order only selects which refusal is reported. A
      retry is reserved only by retry_phase, after its own grant. */
  ghost predicate Reservable(w: World, session: U64, phase: U64, isRetry: bool) {
    && !w.shuttingDown
    && HasRecord(w, session, phase)
    && var s := w.sessions[session];
    && var p := s.phases[phase];
    && AdmitsNewAuthority(s.state)
    && p.state in {Pending, Ready, Failed, RecoveryRequired}
    && (isRetry ==> p.state in {Failed, RecoveryRequired})
    && (!isRetry ==> p.state != Failed)
    && HasPhase(s.plan, phase)
    && (forall d :: d in Dependencies(s.plan.nodes, phase) ==> d in s.plan.order && HasCommitted(s, d))
    && Authority.Compare(
         AuthorityOf(s, p.(lease := ABSENT)),
         Observe(w.domains, s, s.generation, if p.attemptGeneration != 0 then p.attemptGeneration else s.attemptGeneration,
                 p.generation, ABSENT, true)) == Authority.Valid
    && ResolveInputs(w, s, p).Some?
    && |p.attempts| < MAX_ATTEMPTS
    && (isRetry ==> Grant(session, phase) in w.owed)
  }

  /** A retry call uses its grant up, whatever comes of it. */
  function Collected(owed: multiset<Grant>, session: U64, phase: U64, isRetry: bool): multiset<Grant> {
    if isRetry then owed - multiset{Grant(session, phase)} else owed
  }

  /* The reasons the runtime writes into histories and details, each by one word. */

  const RESERVED: Text := Ascii("reserved")
  const PREPARED: Text := Ascii("prepared")
  const LAUNCHED: Text := Ascii("launched")
  const EXITED: Text := Ascii("exited")
  const CANDIDATES: Text := Ascii("candidates")
  const ACCEPTED: Text := Ascii("accepted")
  const COMMITTING: Text := Ascii("committed")
  const RESUMED: Text := Ascii("resumed")
  const RETIRING: Text := Ascii("retired")

  function NewAttempt(id: U64, generation: U64, invocation: Ref, now: U64): PhaseAttempt {
    PhaseAttempt(id, generation, invocation, 0, 0, Pending, NoFailure, OK, 0, now, 0, ZERO_DIGEST, [])
  }

  function ReservedAttemptGeneration(p: PhaseRecord, isRetry: bool): U64 {
    if isRetry || p.attemptGeneration == 0 then Next(p.attemptGeneration) else p.attemptGeneration
  }

  /** The phase record reserve leaves behind, before its two transitions. */
  function Bound(s: CompilerSession, p: PhaseRecord, isRetry: bool, inputs: seq<Ref>, invocation: Ref, attempt: U64,
                 lease: Ref, now: U64): PhaseRecord
  {
    p.(sessionGeneration := s.generation, compilationGeneration := s.compilationGeneration,
       toolchain := s.toolchain, target := s.target, environment := s.environment, policy := s.policy,
       source := s.source, irGeneration := s.irGeneration,
       generation := Next(p.generation), attemptGeneration := ReservedAttemptGeneration(p, isRetry),
       attempts := p.attempts + [NewAttempt(attempt, ReservedAttemptGeneration(p, isRetry), invocation, now)],
       activeInvocation := invocation, activeProcess := 0, activeProcessGeneration := 0,
       lease := lease, inputs := inputs, outputs := [], diagnostics := ABSENT,
       commit := 0, outputDigest := ZERO_DIGEST, failure := NoFailure, lastStatus := OK, lastDetail := [])
  }

  function Prepared(p: PhaseRecord, now: U64): PhaseRecord {
    RecordTransition(RecordTransition(p, Ready, now, RESERVED), Preparing, now, PREPARED)
  }

  function ReservedRecord(w: World, session: U64, phase: U64, isRetry: bool, now: U64): PhaseRecord
    requires HasRecord(w, session, phase) && ResolveInputs(w, w.sessions[session], w.sessions[session].phases[phase]).Some?
  {
    var s := w.sessions[session];
    var p := s.phases[phase];
    Prepared(
      Bound(s, p, isRetry, ResolveInputs(w, s, p).value, Ref(w.next.invocation, INITIAL), w.next.attempt,
            Ref(w.leases.next, INITIAL), now),
      now)
  }

  function ReservedSession(w: World, session: U64, phase: U64, isRetry: bool, now: U64): CompilerSession
    requires HasRecord(w, session, phase) && ResolveInputs(w, w.sessions[session], w.sessions[session].phases[phase]).Some?
  {
    var s := w.sessions[session];
    var p' := ReservedRecord(w, session, phase, isRetry, now);
    Advanced(WithPhase(s, p'), now).(attemptGeneration := p'.attemptGeneration, currentPhase := phase)
  }

  function ReservationFor(s: CompilerSession, p: PhaseRecord): Reservation {
    Reservation(s.id, p.id, p.generation, p.activeInvocation,
                if p.attempts == [] then 0 else p.attempts[|p.attempts| - 1].id, AuthorityOf(s, p))
  }

  /** reserve. Without a workspace only the two identities are used up; a reservation is handed
      out only if the append succeeded, but the phase stays reserved either way. */
  ghost function Reserve(w: World, session: U64, phase: U64, isRetry: bool, workspace: bool, env: Ambient): World {
    var owed := Collected(w.owed, session, phase, isRetry);
    if !Reservable(w, session, phase, isRetry) then w.(owed := owed)
    else
      var next := w.next.(attempt := Next(w.next.attempt), invocation := Next(w.next.invocation));
      if !workspace then w.(owed := owed, next := next)
      else
        var s := w.sessions[session];
        var p := s.phases[phase];
        var s' := ReservedSession(w, session, phase, isRetry, env.now);
        var leases := Authority.Grant(w.leases, Ref(session, s.generation), Ref(phase, Next(p.generation)), env.now, RESERVED).0;
        var w' := Put(w.(owed := owed, next := next, leases := leases), s', env);
        if env.appended then w'.(issued := w'.issued + {ReservationFor(s', s'.phases[phase])}) else w'
  }

  /* ---------- Executing ---------- */

  /** The phase still belongs to the reservation. */
  predicate Current(w: World, r: Reservation) {
    && HasRecord(w, r.session, r.phase)
    && w.sessions[r.session].phases[r.phase].generation == r.generation
    && w.sessions[r.session].phases[r.phase].activeInvocation == r.invocation
  }

  datatype LaunchOutcome =
    | NotBuilt
    | InvalidInvocation(status: StatusCode, failure: FailureClass, detail: Text)
    | Launched

  /** execute_reserved, up to handing the invocation to the executor. */
  function Launch(w: World, r: Reservation, outcome: LaunchOutcome, env: Ambient): World {
    if r !in w.issued || !Current(w, r) then w
    else
      var s := w.sessions[r.session];
      var p := s.phases[r.phase];
      match outcome
      case NotBuilt => w
      case InvalidInvocation(status, failure, detail) =>
        w.(sessions := w.sessions[s.id := WithPhase(s, p.(lastStatus := status, failure := failure, lastDetail := detail))])
      case Launched =>
        Put(w, WithPhase(s, RecordTransition(p, Running, env.now, LAUNCHED)).(updatedAt := env.now), env)
  }

  /** The process identity noted after the executor returned; no staleness check is made. */
  function NoteProcess(w: World, r: Reservation, process: Ref): World {
    if r !in w.issued || !HasRecord(w, r.session, r.phase) then w
    else
      var s := w.sessions[r.session];
      var p := s.phases[r.phase];
      w.(sessions := w.sessions[s.id :=
        WithPhase(s, p.(activeProcess := process.id, activeProcessGeneration := process.generation))])
  }

  datatype OutputDescriptor = OutputDescriptor(
    format: ObjectFormat, path: Text, content: DigestBytes, size: U64, exists_: bool)

  datatype Report = Report(
    succeeded: bool,
    processGeneration: U64,
    osProcess: U32,
    exitCode: I32,
    startedAt: U64,
    finishedAt: U64,
    status: StatusCode,
    detail: Text,
    failure: FailureClass,
    outputs: seq<OutputDescriptor>,
    outputDigest: DigestBytes,
    diagnostics: Option<Ref>)

  /** The position of an attempt, or |attempts|. */
  function AttemptIndex(attempts: seq<PhaseAttempt>, id: U64): (k: nat)
    ensures k <= |attempts| && (k < |attempts| ==> attempts[k].id == id)
  {
    if attempts == [] then 0
    else if attempts[0].id == id then 0
    else 1 + AttemptIndex(attempts[1..], id)
  }

  function ReportedAttempt(a: PhaseAttempt, invocation: Ref, report: Report): PhaseAttempt {
    a.(invocation := invocation, processGeneration := report.processGeneration, osProcess := report.osProcess,
       exitCode := report.exitCode, startedAt := report.startedAt, finishedAt := report.finishedAt,
       status := report.status, detail := report.detail)
  }

  const NOT_VALIDATED: Text := Ascii("candidate")
  const DID_NOT_SUCCEED: Text := Ascii("failed")

  /** A reported output as a candidate: registration never grants authority. */
  function CandidateFor(s: CompilerSession, p: PhaseRecord, invocation: Ref, output: OutputDescriptor): Artifacts.Artifact {
    Artifacts.Artifact(
      0, 0, output.format, output.path, output.content, output.size, Ref(p.id, p.generation), invocation,
      s.toolchain, s.target, s.source, s.irGeneration, s.environment, s.policy, p.inputs,
      if output.exists_ then Artifacts.Unknown else Artifacts.Stale, Artifacts.Never, 0, NOT_VALIDATED,
      output.content, false)
  }

  /** Registers the reported outputs in order, stopping when the registry is full. */
  datatype Registration = Registration(store: Artifacts.Store, refs: seq<Ref>, complete: bool)

  function RegisterOutputs(t: Artifacts.Store, s: CompilerSession, p: PhaseRecord, invocation: Ref,
                           outputs: seq<OutputDescriptor>): Registration
    decreases |outputs|
  {
    if outputs == [] then Registration(t, [], true)
    else if |t.entries| >= Artifacts.MAX_ARTIFACTS then Registration(t, [], false)
    else
      var rest := RegisterOutputs(Artifacts.Registered(t, CandidateFor(s, p, invocation, outputs[0])), s, p, invocation, outputs[1..]);
      rest.(refs := [Ref(t.next, INITIAL)] + rest.refs)
  }

  /** record_execution, for a reservation whose phase is still current. */
  function RecordCurrent(w: World, r: Reservation, report: Report, env: Ambient): World
    requires Current(w, r)
  {
    var s := w.sessions[r.session];
    var p := s.phases[r.phase];
    var k := AttemptIndex(p.attempts, r.attempt);
    if k == |p.attempts| then w
    else
      var attempts := p.attempts[k := ReportedAttempt(p.attempts[k], r.invocation, report)];
      if report.diagnostics.None? then
        w.(sessions := w.sessions[s.id := WithPhase(s, p.(attempts := attempts))])
      else
        var p1 := p.(attempts := attempts, diagnostics := report.diagnostics.value);
        if !report.succeeded then
          var detail := if report.detail == [] then DID_NOT_SUCCEED else report.detail;
          var p2 := p1.(failure := report.failure,
                        lastStatus := if report.status == OK then PROCESS_EXITED_NONZERO else report.status,
                        lastDetail := detail,
                        attempts := attempts[k := attempts[k].(terminalState := Failed, failure := report.failure)]);
          Put(w, WithPhase(s, RecordTransition(p2, Failed, env.now, detail)).(updatedAt := env.now), env)
        else
          var p2 := RecordTransition(p1, Produced, env.now, EXITED)
            .(attempts := attempts[k := attempts[k].(terminalState := Produced)]);
          var reg := RegisterOutputs(w.artifacts, s, p2, r.invocation, report.outputs);
          var p3 := p2.(outputs := p2.outputs + reg.refs);
          var s3 := s.(intermediates := s.intermediates + reg.refs);
          var w' := w.(artifacts := reg.store);
          if !reg.complete then
            w'.(sessions := w.sessions[s.id := WithPhase(s3, p3)])
          else
            var p4 := RecordTransition(p3.(outputDigest := report.outputDigest), Validating, env.now, CANDIDATES);
            Put(w', WithPhase(s3, p4).(updatedAt := env.now), env)
  }

  function RecordExecution(w: World, r: Reservation, report: Report, env: Ambient): World {
    if r in w.issued && Current(w, r) then RecordCurrent(w, r, report, env) else w
  }

  /** report_output: the reservation is rebuilt from the record, under the same lock. */
  function ReportOutput(w: World, session: U64, phase: U64, generation: U64, invocation: Ref, report: Report, env: Ambient): World {
    if HasRecord(w, session, phase) then
      var s := w.sessions[session];
      var p := s.phases[phase];
      var r := ReservationFor(s, p);
      if p.generation == generation && p.activeInvocation == invocation && Current(w, r) then
        RecordCurrent(w, r, report, env)
      else w
    else w
  }

  /** The reproducibility re-run disagreed: no staleness check is made here. */
  function ReproductionFailed(w: World, r: Reservation, status: StatusCode, detail: Text, env: Ambient): World {
    if r !in w.issued || !HasRecord(w, r.session, r.phase) then w
    else
      var s := w.sessions[r.session];
      var p := s.phases[r.phase];
      var p' := RecordTransition(p.(failure := OutputInvalid, lastStatus := status, lastDetail := detail), Failed, env.now, detail);
      Put(w.(artifacts := Artifacts.RevokeOutputs(w.artifacts, p.id, p.generation, detail)),
          WithPhase(s, p').(generation := Next(s.generation)), env)
  }

  /* ---------- Validating ---------- */

  datatype Evidence = Evidence(
    accepted: bool, state: Artifacts.ArtifactState, refusal: StatusCode, failure: FailureClass, detail: Text)

  function EvidenceState(e: Evidence): Artifacts.ArtifactState {
    if e.accepted then Artifacts.Valid
    else if e.state == Artifacts.Unknown then Artifacts.Corrupt
    else e.state
  }

  /** Applies a state to artifacts in turn, stopping at one that is not registered. */
  function SetStates(t: Artifacts.Store, ids: seq<U64>, state: Artifacts.ArtifactState, detail: Text): Artifacts.Store
    decreases |ids|
  {
    if ids == [] || ids[0] !in t.entries then t
    else SetStates(Artifacts.SetState(t, ids[0], state, detail), ids[1..], state, detail)
  }

  predicate AllRegistered(t: Artifacts.Store, ids: seq<U64>) {
    forall id :: id in ids ==> id in t.entries
  }

  /** validate_phase_outputs, from the adapter's answer on. No staleness check is made. */
  function Validate(w: World, r: Reservation, e: Evidence, env: Ambient): World {
    if r !in w.issued || !HasRecord(w, r.session, r.phase) then w
    else
      var s := w.sessions[r.session];
      var p := s.phases[r.phase];
      var ids := OutputIds(p.outputs);
      var w' := w.(artifacts := SetStates(w.artifacts, ids, EvidenceState(e), e.detail));
      if !AllRegistered(w.artifacts, ids) then w'
      else if !e.accepted then
        var p1 := p.(failure := e.failure, lastStatus := e.refusal, lastDetail := e.detail,
                     attempts := CloseAttempt(p.attempts, Failed, e.failure));
        Put(w', WithPhase(s, RecordTransition(p1, Failed, env.now, e.detail)).(updatedAt := env.now), env)
      else
        Put(w', WithPhase(s, RecordTransition(p, CommitReady, env.now, ACCEPTED)).(updatedAt := env.now), env)
  }

  /* ---------- Committing ---------- */

  /** commit_phase, first section: a reservation rebuilt for a completion that names the
      current generation and invocation of a phase that is ready to be validated. */
  function BeginCommit(w: World, session: U64, phase: U64, generation: U64, invocation: Ref): World {
    if HasRecord(w, session, phase) then
      var s := w.sessions[session];
      var p := s.phases[phase];
      if p.generation == generation && p.activeInvocation == invocation && p.state in {Validating, CommitReady} then
        w.(issued := w.issued + {ReservationFor(s, p)})
      else w
    else w
  }

  /** The re-probe of the toolchain at commit. */
  datatype Probe =
    | NoAdapter
    | ProbeFailed(detail: Text)
    | Probed(id: U64, observed: Contents, mutated: bool)

  function StatusOf(v: Authority.Verdict): StatusCode {
    match v
    case Valid => 0
    case StaleSession => 20
    case StaleCompilation => 21
    case StaleAttempt => 22
    case StalePhase => 23
    case StaleToolchain => 25
    case StaleTarget => 27
    case StaleEnvironment => 30
    case StalePolicy => 31
    case StaleSource => 28
    case StaleIr => 29
    case StaleLease => 32
    case StaleComponent => 26
    case ToolchainRetired => 110
    case TargetRetired => 115
    case EnvironmentRetired => 30
    case PolicyRetired => 31
  }

  function CommitVerdict(w: World, r: Reservation, now: U64): Authority.Verdict
    requires HasRecord(w, r.session, r.phase)
  {
    var s := w.sessions[r.session];
    var p := s.phases[r.phase];
    Authority.Compare(r.authority,
      Observe(w.domains, s, r.authority.sessionGeneration, p.attemptGeneration, p.generation, p.lease,
              Authority.IsHeld(w.leases, p.lease, now)))
  }

  /** Cites the provenance record in each output. */
  function Stamped(t: Artifacts.Store, ids: seq<U64>, provenance: U64): Artifacts.Store {
    t.(entries := map id | id in t.entries ::
      if id in ids then t.entries[id].(provenance := provenance) else t.entries[id])
  }

  /** Makes outputs authoritative in turn, stopping at one that may not be. */
  function Authorized(t: Artifacts.Store, ids: seq<U64>): Artifacts.Store
    decreases |ids|
  {
    if ids == [] || !Artifacts.MayHold(t, ids[0], Artifacts.Authoritative) then t
    else Authorized(Artifacts.SetAuthority(t, ids[0], Artifacts.Authoritative), ids[1..])
  }

  predicate AllMayHold(t: Artifacts.Store, ids: seq<U64>) {
    forall id :: id in ids ==> Artifacts.MayHold(t, id, Artifacts.Authoritative)
  }

  /** After the commit is durable the outputs move to their next generation. */
  function NextGenerations(t: Artifacts.Store, ids: seq<U64>): Artifacts.Store {
    t.(entries := map id | id in t.entries ::
      if id in ids then t.entries[id].(generation := Next(t.entries[id].generation)) else t.entries[id])
  }

  function FencedForCommit(p: PhaseRecord, failure: FailureClass, status: StatusCode, detail: Text, now: U64): PhaseRecord {
    RecordTransition(p.(failure := failure, lastStatus := status, lastDetail := detail), Fenced, now, detail)
  }

  /** The toolchain could not be probed again. */
  function CommitUnproven(w: World, r: Reservation, detail: Text, env: Ambient): World
    requires HasRecord(w, r.session, r.phase)
  {
    var s := w.sessions[r.session];
    var p := s.phases[r.phase];
    Put(w.(artifacts := Artifacts.RevokeOutputs(w.artifacts, p.id, p.generation, detail)),
        WithPhase(s, FencedForCommit(p, InvalidToolchain, INTEGRITY_UNPROVEN, detail, env.now)).(generation := Next(s.generation)),
        env)
  }

  const REFUSED: Text := Ascii("refused")

  /** Some bound generation moved while the phase ran. */
  function CommitRefused(w: World, r: Reservation, verdict: Authority.Verdict, env: Ambient): World
    requires HasRecord(w, r.session, r.phase)
  {
    var s := w.sessions[r.session];
    var p := s.phases[r.phase];
    var p' := FencedForCommit(p.(attempts := CloseAttempt(p.attempts, Fenced, AuthorityInvalidated)),
                              AuthorityInvalidated, StatusOf(verdict), REFUSED, env.now);
    Put(w.(artifacts := Artifacts.RevokeOutputs(w.artifacts, p.id, p.generation, REFUSED),
           leases := Authority.Revoke(w.leases, p.lease.id, REFUSED)),
        Advanced(WithPhase(s, p'), env.now), env)
  }

  /** What a successful commit adds besides the phase: the provenance identity and, for the
      phase that yields an image, the final candidate. */
  datatype Publication = Publication(provenance: U64, candidate: Option<FinalCandidate>)

  function CommittedRecord(p: PhaseRecord, commit: U64, now: U64): PhaseRecord {
    RecordTransition(
      p.(commit := commit, committedAt := now,
         attempts := if p.attempts == [] then [] else
           p.attempts[|p.attempts| - 1 := p.attempts[|p.attempts| - 1].(terminalState := Committed)]),
      Committed, now, COMMITTING)
  }

  function CommittedSession(s: CompilerSession, p: PhaseRecord, commit: U64, pub: Publication, now: U64): CompilerSession {
    var s1 := Advanced(WithPhase(s, CommittedRecord(p, commit, now)), now);
    var s2 := if s1.candidatePresent && MandatoryDone(s1) then s1.(state := SessionCommitted) else s1;
    match pub.candidate
    case None => s2
    case Some(candidate) =>
      var s3 := s2.(candidate := candidate, candidatePresent := true);
      if MandatoryDone(s3) then s3.(state := SessionCommitted) else s3
  }

  /** Publishing: the outputs become authoritative, the committed projection is persisted, and
      only then does it become visible. */
  function Publish(w: World, r: Reservation, pub: Publication, env: Ambient): World
    requires HasRecord(w, r.session, r.phase)
  {
    var s := w.sessions[r.session];
    var p := s.phases[r.phase];
    var ids := OutputIds(p.outputs);
    var stamped := Stamped(w.artifacts, ids, pub.provenance);
    var w1 := w.(artifacts := Authorized(stamped, ids), next := w.next.(commit := Next(w.next.commit)));
    if !AllMayHold(stamped, ids) then w1
    else
      var s' := CommittedSession(s, p, w.next.commit, pub, env.now);
      if !env.appended then w1
      else
        Put(w1, s', env).(
          artifacts := NextGenerations(w1.artifacts, ids),
          leases := Authority.Revoke(w.leases, p.lease.id, COMMITTING),
          commits := w.commits + [CommitEvent(s.id, p.id, p.generation, w.next.commit, |w.log|)])
  }

  /** commit_reserved. */
  function Commit(w: World, r: Reservation, probe: Probe, pub: Publication, env: Ambient): World {
    if r !in w.issued || !Current(w, r) || w.sessions[r.session].phases[r.phase].state != CommitReady then w
    else if probe.ProbeFailed? then CommitUnproven(w, r, probe.detail, env)
    else if probe.Probed? && probe.id !in w.domains.toolchains.entries then w
    else
      var w1 :=
        if probe.Probed? then
          w.(domains := w.domains.(toolchains := Refreshed(w.domains.toolchains, probe.id, probe.observed, probe.mutated)))
        else w;
      var verdict := CommitVerdict(w1, r, env.now);
      if verdict != Authority.Valid then CommitRefused(w1, r, verdict, env)
      else Publish(w1, r, pub, env)
  }

  /* ---------- Cancelling, failing, retrying ---------- */

  /** cancel_phase. */
  function CancelPhase(w: World, session: U64, phase: U64, reason: Text, env: Ambient): World {
    if !HasRecord(w, session, phase) || w.sessions[session].phases[phase].state == Committed then w
    else
      var s := w.sessions[session];
      var p := s.phases[phase];
      var p1 :=
        if RetainsCommitAuthority(p.state) then
          RecordTransition(
            p.(attempts := CloseAttempt(p.attempts, Cancelled, ExternalCancellation),
               failure := ExternalCancellation, lastStatus := CANCELLED, lastDetail := reason),
            Cancelled, env.now, reason)
        else p;
      Put(w.(leases := Authority.Revoke(w.leases, p.lease.id, reason),
             artifacts := Artifacts.RevokeOutputs(w.artifacts, p.id, p.generation, reason)),
          Advanced(WithPhase(s, p1.(activeInvocation := ABSENT)), env.now), env)
  }

  /** The last attempt closed as failed, with the status that was reported. */
  function FailedAttempts(attempts: seq<PhaseAttempt>, failure: FailureClass, status: StatusCode): (r: seq<PhaseAttempt>)
    ensures |r| == |attempts|
  {
    var closed := CloseAttempt(attempts, Failed, failure);
    if closed == [] then closed else closed[|closed| - 1 := closed[|closed| - 1].(status := status)]
  }

  /** fail_phase. */
  function FailPhase(w: World, session: U64, phase: U64, generation: U64, failure: FailureClass, status: StatusCode,
                     detail: Text, env: Ambient): World
  {
    if !HasRecord(w, session, phase) || w.sessions[session].phases[phase].generation != generation
       || w.sessions[session].phases[phase].state == Committed then w
    else
      var s := w.sessions[session];
      var p := s.phases[phase];
      var p1 := p.(failure := failure, lastStatus := status, lastDetail := detail, attempts := FailedAttempts(p.attempts, failure, status));
      var p2 := if RetainsCommitAuthority(p.state) then RecordTransition(p1, Failed, env.now, detail) else p1;
      Put(w.(artifacts := Artifacts.RevokeOutputs(w.artifacts, p.id, p.generation, detail),
             leases := Authority.Revoke(w.leases, p.lease.id, detail)),
          Advanced(WithPhase(s, p2), env.now), env)
  }

  function PolicyFor(w: World, s: CompilerSession): PolicySpec {
    if s.policy.id in w.domains.policies.entries then w.domains.policies.entries[s.policy.id].contents else DEFAULT_POLICY
  }

  /** retry_phase, first section: the budget is charged before the phase is reserved again. */
  function GrantRetry(w: World, session: U64, phase: U64): World {
    if HasRecord(w, session, phase) then
      var s := w.sessions[session];
      if EvaluateRetry(s.phases[phase], PolicyFor(w, s), s.retriesUsed).Permitted? then
        w.(sessions := w.sessions[s.id := s.(retriesUsed := (s.retriesUsed + 1) % 0x1_0000_0000)],
           owed := w.owed + multiset{Grant(session, phase)})
      else w
    else w
  }

  /* ---------- Whole sessions ---------- */

  function FencedRecord(p: PhaseRecord, now: U64, reason: Text): PhaseRecord {
    RecordTransition(
      p.(failure := AuthorityInvalidated, lastStatus := STALE_EPOCH, lastDetail := reason,
         attempts := CloseAttempt(p.attempts, Fenced, AuthorityInvalidated),
         activeInvocation := ABSENT, activeProcess := 0, activeProcessGeneration := 0),
      Fenced, now, reason)
  }

  /** fence_all_in_flight, on the phase records. */
  function FencedPhases(s: CompilerSession, now: U64, reason: Text): map<U64, PhaseRecord> {
    map id | id in s.phases ::
      if id in s.plan.order && InFlight(s.phases[id].state) then FencedRecord(s.phases[id], now, reason) else s.phases[id]
  }

  function FencedSession(s: CompilerSession, now: U64, reason: Text): CompilerSession {
    s.(phases := FencedPhases(s, now, reason))
  }

  /** ... on the artifacts, phase by phase. */
  function FencedArtifacts(t: Artifacts.Store, s: CompilerSession, order: seq<U64>, reason: Text): Artifacts.Store
    decreases |order|
  {
    if order == [] then t
    else
      var t' :=
        if order[0] in s.phases && InFlight(s.phases[order[0]].state) then
          Artifacts.RevokeOutputs(t, s.phases[order[0]].id, s.phases[order[0]].generation, reason)
        else t;
      FencedArtifacts(t', s, order[1..], reason)
  }

  /** ... on the leases. */
  function FencedLeases(t: Authority.Leases, s: CompilerSession, order: seq<U64>, reason: Text): Authority.Leases
    decreases |order|
  {
    if order == [] then t
    else
      var t' :=
        if order[0] in s.phases && InFlight(s.phases[order[0]].state) then
          Authority.Revoke(t, s.phases[order[0]].lease.id, reason)
        else t;
      FencedLeases(t', s, order[1..], reason)
  }

  predicate Closing(s: CompilerSession) {
    s.state == SessionRetired || s.state == SessionCommitted
  }

  /** shutdown, first pass over a session: fenced, not yet persisted. */
  function FenceSession(w: World, session: U64, now: U64, reason: Text): World {
    if session !in w.sessions || Closing(w.sessions[session]) then w
    else
      var s := w.sessions[session];
      w.(sessions := w.sessions[s.id := FencedSession(s, now, reason)],
         artifacts := FencedArtifacts(w.artifacts, s, s.plan.order, reason),
         leases := FencedLeases(w.leases, s, s.plan.order, reason))
  }

  const SHUTDOWN: Text := Ascii("shutdown")

  /** shutdown, second pass. */
  function CloseSession(w: World, session: U64, env: Ambient): World {
    if session !in w.sessions || Closing(w.sessions[session]) then w
    else
      var s := w.sessions[session];
      var s1 := if AdmitsNewAuthority(s.state) then s.(state := SessionFailed, failureDetail := SHUTDOWN) else s;
      Put(w, s1.(updatedAt := env.now), env)
  }

  /** retire_session, on the phase records. */
  function RetiredPhases(s: CompilerSession, now: U64, reason: Text): map<U64, PhaseRecord> {
    map id | id in s.phases ::
      if id in s.plan.order then RecordTransition(s.phases[id], Retired, now, reason) else s.phases[id]
  }

  function RetiredLeases(t: Authority.Leases, s: CompilerSession, order: seq<U64>, reason: Text): Authority.Leases
    decreases |order|
  {
    if order == [] then t
    else
      var t' := if order[0] in s.phases then Authority.Revoke(t, s.phases[order[0]].lease.id, reason) else t;
      RetiredLeases(t', s, order[1..], reason)
  }

  function RetireSession(w: World, session: U64, reason: Text, env: Ambient): World {
    if session !in w.sessions then w
    else
      var s := w.sessions[session];
      Put(w.(leases := RetiredLeases(w.leases, s, s.plan.order, reason)),
          Advanced(s.(phases := RetiredPhases(s, env.now, reason), state := SessionRetired, failureDetail := reason), env.now),
          env)
  }

  /** The states a session is put in by its driver, by cancellation and by failure. */
  function SetSessionState(w: World, session: U64, state: SessionState, detail: Text, env: Ambient): World {
    if session !in w.sessions then w
    else
      var s := w.sessions[session];
      match state
      case SessionActive => w.(sessions := w.sessions[s.id := s.(state := SessionActive)])
      case SessionFailed => Put(w, s.(state := SessionFailed, failureDetail := detail), env)
      case SessionCancelled =>
        Put(w, Advanced(s.(state := SessionCancelled, failureDetail := detail), env.now), env)
      case _ => w
  }

  /* ---------- Recovery ---------- */

  datatype Revalidation = Revalidation(id: U64, found: Artifacts.FileObservation, detail: Text)

  /** apply_revalidation: stops at an artifact that cannot be revalidated. */
  function RevalidateAll(t: Artifacts.Store, steps: seq<Revalidation>): Artifacts.Store
    decreases |steps|
  {
    if steps == [] || steps[0].id !in t.entries || t.entries[steps[0].id].path == [] then t
    else RevalidateAll(Artifacts.Revalidate(t, steps[0].id, steps[0].found, steps[0].detail), steps[1..])
  }

  predicate AllRevalidate(t: Artifacts.Store, steps: seq<Revalidation>)
    decreases |steps|
  {
    steps == [] || (steps[0].id in t.entries && t.entries[steps[0].id].path != []
                    && AllRevalidate(Artifacts.Revalidate(t, steps[0].id, steps[0].found, steps[0].detail), steps[1..]))
  }

  function RecoveredRecord(p: PhaseRecord, now: U64): PhaseRecord {
    if p.state in {Committed, Failed, Cancelled, Retired} then p
    else
      var p1 :=
        if RetainsCommitAuthority(p.state) then RecordTransition(p, Ready, now, RESUMED)
        else if p.state == Fenced then RecordTransition(p, Retired, now, RETIRING)
        else p;
      p1.(failure := NoFailure, lastStatus := OK, lastDetail := [])
  }

  function RecoveredPhases(s: CompilerSession, now: U64): map<U64, PhaseRecord> {
    map id | id in s.phases ::
      if id in s.plan.order then RecoveredRecord(s.phases[id], now) else s.phases[id]
  }

  function RecoveredSession(s: CompilerSession, requiresOperator: bool, recovery: Ref, now: U64): CompilerSession {
    var s1 := s.(recovery := recovery.id, recoveryGeneration := recovery.generation,
                 recoveryState := if requiresOperator then ManualRequired else Resolved);
    var s2 :=
      if s.state == SessionRecovering && !requiresOperator then s1.(state := SessionActive, phases := RecoveredPhases(s, now))
      else if requiresOperator then s1.(state := SessionRecovering)
      else s1;
    Advanced(s2, now)
  }

  /** The records of a session, in plan order. */
  function RecordsOf(s: CompilerSession, order: seq<U64>): seq<PhaseRecord> {
    if order == [] then []
    else (if order[0] in s.phases then [s.phases[order[0]]] else []) + RecordsOf(s, order[1..])
  }

  /** The outputs among some identities that are not authoritative any more. */
  function SuspectIds(t: Artifacts.Store, ids: seq<U64>): seq<U64> {
    if ids == [] then []
    else
      (if ids[0] in t.entries && t.entries[ids[0]].authority == Artifacts.Authoritative then [] else [ids[0]])
      + SuspectIds(t, ids[1..])
  }

  /** Outputs of committed phases that must be hashed again. */
  function Suspects(t: Artifacts.Store, phases: seq<PhaseRecord>): seq<U64> {
    if phases == [] then []
    else
      (if phases[0].state == Committed then SuspectIds(t, OutputIds(phases[0].outputs)) else [])
      + Suspects(t, phases[1..])
  }

  /** The planner asks for an operator exactly when the phase to restart from has FAILED with an
      unknown outcome. */
  predicate AwaitsOperator(phases: seq<PhaseRecord>, boundary: Option<U64>) {
    && boundary.Some?
    && var found := Recovery.FindPhase(phases, boundary.value);
       found.Some? && found.value.state == Failed && found.value.failure == UnknownOutcome
  }

  function PlanFor(w: World, s: CompilerSession): RecoveryPlan {
    var phases := RecordsOf(s, s.plan.order);
    var now := Observe(w.domains, s, s.generation, s.attemptGeneration, 0, ABSENT, true);
    RecoveryPlan(s.id, AwaitsOperator(phases, Recovery.Boundary(s.plan, phases, now, s.plan.order)), Suspects(w.artifacts, phases))
  }

  /** plan_recovery, which is also the first section of apply_recovery. */
  function PlanRecovery(w: World, session: U64): World {
    if session !in w.sessions then w else w.(plans := w.plans + multiset{PlanFor(w, w.sessions[session])})
  }

  function StepIds(steps: seq<Revalidation>): seq<U64> {
    seq(|steps|, k requires 0 <= k < |steps| => steps[k].id)
  }

  /** apply_recovery, second section: it uses up a plan made under an earlier lock. */
  function ApplyRecovery(w: World, session: U64, requiresOperator: bool, steps: seq<Revalidation>, recovery: Ref, env: Ambient): World {
    var plan := RecoveryPlan(session, requiresOperator, StepIds(steps));
    if session !in w.sessions || plan !in w.plans then w
    else
      var w1 := w.(plans := w.plans - multiset{plan}, artifacts := RevalidateAll(w.artifacts, steps));
      if !AllRevalidate(w.artifacts, steps) then w1
      else Put(w1, RecoveredSession(w.sessions[session], requiresOperator, recovery, env.now), env)
  }

  /* ---------- Actions and runs ---------- */

  datatype DomainChange =
    | AddToolchain(contents: Contents)
    | RefreshToolchain(id: U64, contents: Contents, mutated: bool)
    | InvalidateToolchain(id: U64)
    | InternTarget(contents: Contents)
    | ReviseTarget(id: U64, contents: Contents)
    | InternEnvironment(contents: Contents)
    | ReviseEnvironment(id: U64, contents: Contents)
    | InternPolicy(policy: PolicySpec)
    | RevisePolicy(id: U64, policy: PolicySpec)
    | AddSource(contents: Contents)

  /** intern, on the registry: nothing changes when the contents are already there. */
  ghost function InternedIn<T>(r: Registry<T>, contents: T): Registry<T> {
    if exists id :: id in r.entries && r.entries[id].contents == contents then r else Added(r, contents)
  }

  ghost function Change(d: Domains, c: DomainChange): Domains {
    match c
    case AddToolchain(contents) => d.(toolchains := Added(d.toolchains, contents))
    case RefreshToolchain(id, contents, mutated) => d.(toolchains := Refreshed(d.toolchains, id, contents, mutated))
    case InvalidateToolchain(id) => d.(toolchains := Invalidated(d.toolchains, id))
    case InternTarget(contents) => d.(targets := InternedIn(d.targets, contents))
    case ReviseTarget(id, contents) => d.(targets := Revised(d.targets, id, contents))
    case InternEnvironment(contents) => d.(environments := InternedIn(d.environments, contents))
    case ReviseEnvironment(id, contents) => d.(environments := Revised(d.environments, id, contents))
    case InternPolicy(policy) => d.(policies := InternedIn(d.policies, policy))
    case RevisePolicy(id, policy) => d.(policies := Revised(d.policies, id, policy))
    case AddSource(contents) => d.(sources := Added(d.sources, contents))
  }

  datatype Action =
    | DoChange(change: DomainChange)
    | DoCreate(newSession: CompilerSession, phasesUpTo: U64)
    | DoReserve(session: U64, phase: U64, isRetry: bool, workspace: bool)
    | DoLaunch(r: Reservation, outcome: LaunchOutcome)
    | DoNoteProcess(r: Reservation, process: Ref)
    | DoRecord(r: Reservation, report: Report)
    | DoReport(session: U64, phase: U64, generation: U64, invocation: Ref, report: Report)
    | DoReproductionFailed(r: Reservation, status: StatusCode, detail: Text)
    | DoValidate(r: Reservation, evidence: Evidence)
    | DoBeginCommit(session: U64, phase: U64, generation: U64, invocation: Ref)
    | DoCommit(r: Reservation, probe: Probe, pub: Publication)
    | DoCancelPhase(session: U64, phase: U64, detail: Text)
    | DoFailPhase(session: U64, phase: U64, generation: U64, failure: FailureClass, status: StatusCode, detail: Text)
    | DoGrantRetry(session: U64, phase: U64)
    | DoFenceSession(session: U64, detail: Text)
    | DoCloseSession(session: U64)
    | DoShutdown(stopping: bool)
    | DoRetireSession(session: U64, detail: Text)
    | DoSetSessionState(session: U64, state: SessionState, detail: Text)
    | DoPlanRecovery(session: U64)
    | DoApplyRecovery(session: U64, requiresOperator: bool, steps: seq<Revalidation>, recovery: Ref)

  /** An action together with what the world answers while it runs. */
  datatype Event = Event(action: Action, env: Ambient)

  ghost function Apply(w: World, e: Event): World {
    match e.action
    case DoChange(change) => w.(domains := Change(w.domains, change))
    case DoCreate(newSession, phasesUpTo) => Create(w, newSession, phasesUpTo, e.env)
    case DoReserve(session, phase, isRetry, workspace) => Reserve(w, session, phase, isRetry, workspace, e.env)
    case DoLaunch(r, outcome) => Launch(w, r, outcome, e.env)
    case DoNoteProcess(r, process) => NoteProcess(w, r, process)
    case DoRecord(r, report) => RecordExecution(w, r, report, e.env)
    case DoReport(session, phase, generation, invocation, report) => ReportOutput(w, session, phase, generation, invocation, report, e.env)
    case DoReproductionFailed(r, status, detail) => ReproductionFailed(w, r, status, detail, e.env)
    case DoValidate(r, evidence) => Validate(w, r, evidence, e.env)
    case DoBeginCommit(session, phase, generation, invocation) => BeginCommit(w, session, phase, generation, invocation)
    case DoCommit(r, probe, pub) => Commit(w, r, probe, pub, e.env)
    case DoCancelPhase(session, phase, detail) => CancelPhase(w, session, phase, detail, e.env)
    case DoFailPhase(session, phase, generation, failure, status, detail) =>
      FailPhase(w, session, phase, generation, failure, status, detail, e.env)
    case DoGrantRetry(session, phase) => GrantRetry(w, session, phase)
    case DoFenceSession(session, detail) => FenceSession(w, session, e.env.now, detail)
    case DoCloseSession(session) => CloseSession(w, session, e.env)
    case DoShutdown(stopping) => w.(shuttingDown := stopping)
    case DoRetireSession(session, detail) => RetireSession(w, session, detail, e.env)
    case DoSetSessionState(session, state, detail) => SetSessionState(w, session, state, detail, e.env)
    case DoPlanRecovery(session) => PlanRecovery(w, session)
    case DoApplyRecovery(session, requiresOperator, steps, recovery) =>
      ApplyRecovery(w, session, requiresOperator, steps, recovery, e.env)
  }

  ghost predicate Step(w: World, e: Event, w': World) {
    w' == Apply(w, e)
  }

  /** A run: any events in any order, each applied to the state the previous one left. */
  ghost predicate IsRun(worlds: seq<World>, events: seq<Event>) {
    && |worlds| == |events| + 1
    && forall k {:trigger events[k]} :: 0 <= k < |events| ==> Step(worlds[k], events[k], worlds[k + 1])
  }

  /** A runtime that has just started without earlier state. */
  function Initial(): World {
    World(false, Domains(EmptyRegistry(), EmptyRegistry(), EmptyRegistry(), EmptyRegistry(), EmptyRegistry()),
          map[], Artifacts.NO_ARTIFACTS, Authority.NO_LEASES, Counters(1, 1, 1, 1, 1), [], multiset{}, multiset{}, {}, [])
  }
}
