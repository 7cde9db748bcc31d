/** Compiler sessions (include/crf/session.hpp, src/core/session.cpp) and the retry decision
    (src/core/retry.cpp). */
module Sessions {
  import opened StrongId
  import opened Bytes
  import opened Wrappers
  import opened Phases
  import opened PhasePlans
  import opened Ancestry
  import opened Sorting

  datatype SessionState =
    | SessionCreated | SessionActive | SessionRecovering | SessionCommitted | SessionFailed
    | SessionCancelled | SessionRetired

  predicate AdmitsNewAuthority(s: SessionState) {
    s == SessionCreated || s == SessionActive
  }

  datatype RecoveryState = NoRecovery | Required | Planned | InProgress | Resolved | ManualRequired | RecoveryUnsupported

  datatype EnvironmentVariable = EnvironmentVariable(name: Text, value: Text)

  datatype FinalCandidate = FinalCandidate(
    id: U64,
    generation: U64,
    compilation: U64,
    compilationGeneration: U64,
    attemptGeneration: U64,
    session: Ref,
    toolchain: Ref,
    target: Ref,
    environment: Ref,
    policy: Ref,
    source: Ref,
    irGeneration: U64,
    format: ObjectFormat,
    path: Text,
    content: DigestBytes,
    size: U64,
    lineage: seq<Ref>,
    evidence: seq<U64>,
    provenance: U64,
    lineageDigest: DigestBytes,
    completeLineage: bool,
    registeredAt: U64,
    handedOff: bool)

  datatype CompilerSession = CompilerSession(
    id: U64,
    generation: U64,
    state: SessionState,
    recoveryState: RecoveryState,
    request: U64,
    compilation: U64,
    compilationGeneration: U64,
    attempt: U64,
    attemptGeneration: U64,
    toolchain: Ref,
    cooperating: seq<Ref>,
    target: Ref,
    environment: Ref,
    policy: Ref,
    source: Ref,
    sources: seq<Ref>,
    irGeneration: U64,
    adapterName: Text,
    finalArtifactName: Text,
    adapterOptions: seq<EnvironmentVariable>,
    plan: PhasePlan,
    phases: map<U64, PhaseRecord>,
    currentPhase: U64,
    intermediates: seq<Ref>,
    candidate: FinalCandidate,
    candidatePresent: bool,
    recovery: U64,
    recoveryGeneration: U64,
    evidenceGeneration: U64,
    epoch: U64,
    failureDetail: Text,
    createdAt: U64,
    updatedAt: U64,
    retriesUsed: U32,
    requestDigest: DigestBytes)

  predicate HasCommitted(s: CompilerSession, phase: U64) {
    phase in s.phases && s.phases[phase].state == Committed
  }

  ghost function CommittedSet(s: CompilerSession): set<U64> {
    set id | id in s.phases && s.phases[id].state == Committed
  }

  /** committed_phases: the committed phases of the plan, in plan order. */
  method CommittedPhases(s: CompilerSession) returns (out: seq<U64>)
    ensures forall id :: id in out <==> id in s.plan.order && HasCommitted(s, id)
    ensures InOrderOf(out, s.plan.order)
  {
    out := [];
    ghost var at: seq<nat> := [];
    var i := 0;
    while i < |s.plan.order|
      invariant 0 <= i <= |s.plan.order| && StandsAt(out, at, s.plan.order) && (at != [] ==> at[|at| - 1] < i)
      invariant forall id :: id in out <==> id in s.plan.order[..i] && HasCommitted(s, id)
    {
      var id := s.plan.order[i];
      assert s.plan.order[..i + 1] == s.plan.order[..i] + [id];
      if HasCommitted(s, id) {
        out := out + [id];
        at := at + [i];
      }
      i := i + 1;
    }
    assert s.plan.order[..i] == s.plan.order;
  }

  /** all_mandatory_committed. */
  method AllMandatoryCommitted(s: CompilerSession) returns (all: bool)
    ensures all <==> MandatoryDone(s)
  {
    var i := 0;
    while i < |s.plan.nodes|
      invariant 0 <= i <= |s.plan.nodes|
      invariant forall k :: 0 <= k < i && s.plan.nodes[k].mandatory ==> HasCommitted(s, s.plan.nodes[k].id)
    {
      if s.plan.nodes[i].mandatory && !HasCommitted(s, s.plan.nodes[i].id) {
        return false;
      }
      i := i + 1;
    }
    all := true;
  }

  predicate MandatoryDone(s: CompilerSession) {
    forall k :: 0 <= k < |s.plan.nodes| && s.plan.nodes[k].mandatory ==> HasCommitted(s, s.plan.nodes[k].id)
  }

  /* ---------- What holds of every session ---------- */

  /** The session has one record per phase of its plan. */
  ghost predicate Shaped(s: CompilerSession) {
    && IsPlan(s.plan)
    && (forall id :: id in s.phases <==> HasPhase(s.plan, id))
    && forall id :: id in s.phases ==>
         && s.phases[id].id == id
         && s.phases[id].dependsOn == Dependencies(s.plan.nodes, id)
  }

  /** The dependencies of a phase are all committed. */
  ghost predicate Fed(s: CompilerSession, p: PhaseRecord) {
    forall d :: d in p.dependsOn ==> HasCommitted(s, d)
  }

  /** Every phase that is under way or committed has committed dependencies. */
  ghost predicate DependenciesCommitted(s: CompilerSession) {
    forall id :: id in s.phases && (InFlight(s.phases[id].state) || s.phases[id].state == Committed) ==> Fed(s, s.phases[id])
  }

  /** The history is a chain to the current state; the ceilings on attempts and history hold. */
  ghost predicate RecordSound(p: PhaseRecord) {
    && IsChain(p.history, p.state)
    && |p.attempts| <= MAX_ATTEMPTS
    && p.state != RecoveryRequired
  }

  ghost predicate SessionSound(s: CompilerSession) {
    && Shaped(s)
    && DependenciesCommitted(s)
    && forall id :: id in s.phases ==> RecordSound(s.phases[id])
  }

  /** Committed phases are closed under dependencies. */
  lemma CommittedClosed(s: CompilerSession)
    requires SessionSound(s)
    ensures Closed(s.plan.nodes, CommittedSet(s))
  {
    forall v, d | v in CommittedSet(s) && d in Dependencies(s.plan.nodes, v)
      ensures d in CommittedSet(s)
    {
      assert Fed(s, s.phases[v]);
    }
  }

  /** If the last phase of the order is committed, every phase of the plan is. */
  lemma SinkCommittedMeansAll(s: CompilerSession, id: U64)
    requires SessionSound(s) && HasPhase(s.plan, id)
    requires s.plan.order != [] ==> HasCommitted(s, s.plan.order[|s.plan.order| - 1])
    ensures HasCommitted(s, id)
  {
    CommittedClosed(s);
    SinkPullsAll(s.plan, CommittedSet(s), id);
  }

  /** Since the sink is mandatory, all mandatory phases committed means all phases committed. */
  lemma MandatoryMeansAll(s: CompilerSession, id: U64)
    requires SessionSound(s) && MandatoryDone(s) && HasPhase(s.plan, id)
    ensures HasCommitted(s, id)
  {
    LastIsTheSink(s.plan);
    var k := IndexOfId(s.plan.nodes, s.plan.order[|s.plan.order| - 1]);
    assert s.plan.nodes[k].mandatory;
    SinkCommittedMeansAll(s, id);
  }

  /* ---------- Retry ---------- */

  datatype PolicySpec = PolicySpec(
    maxRetriesPerPhase: U32,
    maxRetriesPerSession: U32,
    retryableClasses: seq<FailureClass>,
    allowParallel: bool,
    maxParallel: nat)

  /** The policy used where none is registered. */
  const DEFAULT_POLICY: PolicySpec := PolicySpec(2, 8, [], true, 4)

  predicate PermitsRetry(policy: PolicySpec, failure: FailureClass) {
    if policy.retryableClasses == [] then Retryable(failure) else failure in policy.retryableClasses
  }

  datatype RetryDecision =
    | Permitted(nextAttemptGeneration: U64)
    | AlreadyCommitted
    | AuthorityWithdrawn
    | ManualResolutionRequired
    | ClassificationRefuses
    | Exhausted

  /** evaluate_retry. */
  function EvaluateRetry(phase: PhaseRecord, policy: PolicySpec, sessionRetriesUsed: U32): RetryDecision
  {
    if phase.state == Committed then AlreadyCommitted
    else if phase.state in {Fenced, Cancelled, Retired} then AuthorityWithdrawn
    else if InFlight(phase.state) then AuthorityWithdrawn
    else if phase.failure == UnknownOutcome then ManualResolutionRequired
    else if phase.failure == AuthorityInvalidated then Permitted(Next(phase.attemptGeneration))
    else if !PermitsRetry(policy, phase.failure) then ClassificationRefuses
    else if |phase.attempts| > policy.maxRetriesPerPhase then Exhausted
    else if sessionRetriesUsed >= policy.maxRetriesPerSession then Exhausted
    else Permitted(Next(phase.attemptGeneration))
  }

  /** A retry is granted exactly when no attempt is under way or concluded for good, the failure
      may be retried, and — unless the attempt only lost its authority — both ceilings allow it. */
  lemma RetryPermittedIff(phase: PhaseRecord, policy: PolicySpec, used: U32)
    ensures EvaluateRetry(phase, policy, used).Permitted? <==>
              && phase.state in {Pending, Ready, Failed, RecoveryRequired}
              && phase.failure != UnknownOutcome
              && (|| phase.failure == AuthorityInvalidated
                  || (&& PermitsRetry(policy, phase.failure)
                      && |phase.attempts| <= policy.maxRetriesPerPhase
                      && used < policy.maxRetriesPerSession))
  {
  }
}

/** Diagnostic sets as they are stored with a session (include/crf/diagnostics.hpp). */
module Diagnostics {
  import opened StrongId
  import opened Phases

  type Severity = s: int | 0 <= s <= 5

  datatype Diagnostic = Diagnostic(
    severity: Severity,
    code: Text,
    message: Text,
    file: Text,
    line: U32,
    column: U32,
    origin: Text,
    raw: Text)

  datatype DiagnosticSet = DiagnosticSet(
    id: U64,
    generation: U64,
    invocation: Ref,
    phase: Ref,
    toolchain: Ref,
    target: Ref,
    normalized: bool,
    truncated: bool,
    rawStdoutBytes: U64,
    rawStderrBytes: U64,
    droppedStdoutBytes: U64,
    droppedStderrBytes: U64,
    exitCode: I32,
    crashed: bool,
    errorCount: U32,
    warningCount: U32,
    rawStdoutTail: Text,
    rawStderrTail: Text,
    entries: seq<Diagnostic>)
}
