/** The phase lifecycle (include/crf/phase.hpp, src/core/phase.cpp) and the bookkeeping of its
    transitions (append_transition and record_transition in src/core/runtime.cpp). */
module Phases {
  import opened StrongId
  import opened Bytes
  import opened Wrappers
  import PhasePlans

  datatype PhaseState =
    | Pending | Ready | Preparing | Running | Produced | Validating | CommitReady | Committed
    | Failed | Cancelled | Fenced | RecoveryRequired | Retired

  datatype FailureClass =
    | NoFailure | ProcessCrash | ProcessInterrupted | TransientWorkspaceFailure
    | TransientStorageFailure | RetrySafeToolInvocationFailure | ExternalCancellation
    | InvalidSource | DeterministicCompilerError | UnsupportedTarget | UnsupportedOption
    | InvalidToolchain | PolicyRefusal | OutputInvalid | AuthorityInvalidated | UnknownOutcome

  /** StatusCode: the codes of include/crf/status.hpp lie in 0..200. */
  type StatusCode = c: int | 0 <= c <= 200

  const OK: StatusCode := 0
  const STALE_EPOCH: StatusCode := 34
  const CANCELLED: StatusCode := 51
  const PROCESS_EXITED_NONZERO: StatusCode := 71
  const INTEGRITY_UNPROVEN: StatusCode := 84

  type Text = seq<Byte>

  type DigestBytes = d: seq<Byte> | |d| == 32
    witness [0, 0, 0, 0, 0, 0, 0, 0, 0, 0, 0, 0, 0, 0, 0, 0, 0, 0, 0, 0, 0, 0, 0, 0, 0, 0, 0, 0, 0, 0, 0, 0]

  const ZERO_DIGEST: DigestBytes :=
    [0, 0, 0, 0, 0, 0, 0, 0, 0, 0, 0, 0, 0, 0, 0, 0, 0, 0, 0, 0, 0, 0, 0, 0, 0, 0, 0, 0, 0, 0, 0, 0]

  const MAX_ATTEMPTS: nat := 64
  const MAX_TRANSITIONS: nat := 256

  /* ---------- The lifecycle ---------- */

  predicate Legal(from: PhaseState, to: PhaseState) {
    match from
    case Pending => to in {Ready, Cancelled, Retired}
    case Ready => to in {Preparing, Cancelled, Retired, RecoveryRequired, Failed}
    case Preparing => to in {Running, Failed, Cancelled, Fenced, RecoveryRequired}
    case Running => to in {Produced, Failed, Cancelled, Fenced, RecoveryRequired}
    case Produced => to in {Validating, Failed, Cancelled, Fenced, RecoveryRequired}
    case Validating => to in {CommitReady, Failed, Cancelled, Fenced, RecoveryRequired}
    case CommitReady => to in {Committed, Failed, Cancelled, Fenced, RecoveryRequired}
    case Committed => to in {Fenced, Retired}
    case Failed => to in {Ready, Cancelled, Retired, RecoveryRequired, Fenced}
    case Cancelled => to == Retired
    case Fenced => to == Retired
    case RecoveryRequired => to in {Ready, Failed, Cancelled, Retired}
    case Retired => false
  }

  predicate RetainsCommitAuthority(s: PhaseState) {
    s in {Pending, Ready, Preparing, Running, Produced, Validating, CommitReady}
  }

  /** An attempt is under way. */
  predicate InFlight(s: PhaseState) {
    s in {Preparing, Running, Produced, Validating, CommitReady}
  }

  predicate Retryable(f: FailureClass) {
    f in {ProcessCrash, ProcessInterrupted, TransientWorkspaceFailure, TransientStorageFailure,
          RetrySafeToolInvocationFailure, ExternalCancellation}
  }

  /* ---------- Records ---------- */

  type I32 = x: int | -0x8000_0000 <= x < 0x8000_0000
  type U32 = x: int | 0 <= x < 0x1_0000_0000

  datatype PhaseAttempt = PhaseAttempt(
    id: U64,
    generation: U64,
    invocation: Ref,
    processGeneration: U64,
    osProcess: U32,
    terminalState: PhaseState,
    failure: FailureClass,
    status: StatusCode,
    exitCode: I32,
    startedAt: U64,
    finishedAt: U64,
    outputDigest: DigestBytes,
    detail: Text)

  datatype PhaseTransition = PhaseTransition(from: PhaseState, to: PhaseState, at: U64, reason: Text)

  datatype PhaseRecord = PhaseRecord(
    id: U64,
    generation: U64,
    kind: PhasePlans.PhaseKind,
    adapterPhase: Text,
    state: PhaseState,
    mandatory: bool,
    dependsOn: seq<U64>,
    sessionGeneration: U64,
    compilationGeneration: U64,
    attemptGeneration: U64,
    toolchain: Ref,
    target: Ref,
    environment: Ref,
    policy: Ref,
    source: Ref,
    irGeneration: U64,
    lease: Ref,
    activeInvocation: Ref,
    activeProcess: U64,
    activeProcessGeneration: U64,
    inputs: seq<Ref>,
    outputs: seq<Ref>,
    diagnostics: Ref,
    commit: U64,
    outputDigest: DigestBytes,
    committedAt: U64,
    attempts: seq<PhaseAttempt>,
    history: seq<PhaseTransition>,
    failure: FailureClass,
    lastStatus: StatusCode,
    lastDetail: Text,
    recovery: U64,
    recoveryGeneration: U64)

  /* ---------- Recording transitions ---------- */

  type History = seq<PhaseTransition>

  /** append_transition: the oldest entry makes room once the history is full. */
  function Push(h: History, t: PhaseTransition): (r: History)
  {
    (if |h| >= MAX_TRANSITIONS then h[1..] else h) + [t]
  }

  /** The intermediate state record_transition goes through when the edge itself is not legal. */
  function Route(from: PhaseState, to: PhaseState): (via: Option<PhaseState>)
  {
    if Legal(from, Ready) && Legal(Ready, to) then Some(Ready)
    else if Legal(from, Failed) && Legal(Failed, to) then Some(Failed)
    else if Legal(from, Fenced) && Legal(Fenced, to) then Some(Fenced)
    else None
  }

  /** Where record_transition leaves a phase that is asked to move. */
  function Moved(from: PhaseState, to: PhaseState): PhaseState
  {
    if from == to || Legal(from, to) || Route(from, to).Some? then to else from
  }

  function Ascii(s: string): Text
  {
    seq(|s|, i requires 0 <= i < |s| => s[i] as int % 256)
  }

  function StateName(s: PhaseState): Text
  {
    match s
    case Pending => Ascii("PENDING")
    case Ready => Ascii("READY")
    case Preparing => Ascii("PREPARING")
    case Running => Ascii("RUNNING")
    case Produced => Ascii("PRODUCED")
    case Validating => Ascii("VALIDATING")
    case CommitReady => Ascii("COMMIT_READY")
    case Committed => Ascii("COMMITTED")
    case Failed => Ascii("FAILED")
    case Cancelled => Ascii("CANCELLED")
    case Fenced => Ascii("FENCED")
    case RecoveryRequired => Ascii("RECOVERY_REQUIRED")
    case Retired => Ascii("RETIRED")
  }

  function RouteReason(via: PhaseState, reason: Text): Text
  {
    StateName(via) + Ascii(" before ") + reason
  }

  /** record_transition on the history. */
  function Recorded(h: History, from: PhaseState, to: PhaseState, at: U64, reason: Text): (r: History)
  {
    if from == to then h
    else if Legal(from, to) then Push(h, PhaseTransition(from, to, at, reason))
    else match Route(from, to)
      case Some(via) =>
        Push(Push(h, PhaseTransition(from, via, at, RouteReason(via, reason))), PhaseTransition(via, to, at, reason))
      case None => h
  }

  function RecordTransition(p: PhaseRecord, to: PhaseState, at: U64, reason: Text): (r: PhaseRecord)
  {
    p.(state := Moved(p.state, to), history := Recorded(p.history, p.state, to, at, reason))
  }

  /* ---------- What a history guarantees ---------- */

  /** A contiguous chain of legal edges that ends in the current state and, until entries have
      been evicted, starts at PENDING. */
  ghost predicate IsChain(h: History, state: PhaseState) {
    && |h| <= MAX_TRANSITIONS
    && (forall i :: 0 <= i < |h| ==> Legal(h[i].from, h[i].to))
    && (forall i :: 0 < i < |h| ==> h[i].from == h[i - 1].to)
    && (h == [] ==> state == Pending)
    && (h != [] ==> h[|h| - 1].to == state)
    && (0 < |h| < MAX_TRANSITIONS ==> h[0].from == Pending)
  }

  lemma PushKeepsChain(h: History, from: PhaseState, to: PhaseState, at: U64, reason: Text)
    requires IsChain(h, from) && Legal(from, to)
    ensures IsChain(Push(h, PhaseTransition(from, to, at, reason)), to)
  {
    var r := Push(h, PhaseTransition(from, to, at, reason));
    var off := |h| + 1 - |r|;
    assert forall i :: 0 <= i < |r| - 1 ==> r[i] == h[i + off];
    forall i | 0 < i < |r|
      ensures r[i].from == r[i - 1].to
    {
      assert r[i - 1] == h[i - 1 + off];
    }
  }

  /** Routed or direct, evicting or not, recording a transition keeps the history a chain. */
  lemma RecordKeepsChain(h: History, from: PhaseState, to: PhaseState, at: U64, reason: Text)
    requires IsChain(h, from)
    ensures IsChain(Recorded(h, from, to, at, reason), Moved(from, to))
  {
    hide IsChain;
    hide Push;
    hide RouteReason;
    if from != to && !Legal(from, to) && Route(from, to).Some? {
      var via := Route(from, to).value;
      PushKeepsChain(h, from, via, at, RouteReason(via, reason));
      PushKeepsChain(Push(h, PhaseTransition(from, via, at, RouteReason(via, reason))), via, to, at, reason);
    } else if from != to && Legal(from, to) {
      PushKeepsChain(h, from, to, at, reason);
    }
  }

  /** The states an attempt passes through on its way to COMMITTED. */
  const COMMIT_PATH: seq<PhaseState> :=
    [Ready, Preparing, Running, Produced, Validating, CommitReady, Committed]

  /** An edge of the path is preceded by the path's previous edge. */
  lemma StepBack(h: History, state: PhaseState, m: nat, k: nat)
    requires IsChain(h, state) && 1 <= k <= 6 && |h| - 6 < m <= |h| && 0 < m
    requires h[m - 1].to == COMMIT_PATH[k]
    ensures h[m - 1].from == COMMIT_PATH[k - 1]
    ensures m >= 2 && h[m - 2].to == COMMIT_PATH[k - 1]
  {
    OnlyPredecessor(h[m - 1].from, h[m - 1].to, k);
  }

  lemma OnlyPredecessor(from: PhaseState, to: PhaseState, k: nat)
    requires Legal(from, to) && 1 <= k <= 6
    requires to == COMMIT_PATH[k]
    ensures from == COMMIT_PATH[k - 1] && from != Pending
  {
  }

  ghost predicate IsCommitPath(s: History) {
    && |s| == 6
    && forall k :: 0 <= k < 6 ==> s[k].from == COMMIT_PATH[k] && s[k].to == COMMIT_PATH[k + 1]
  }

  /** A phase is COMMITTED only after READY, PREPARING, RUNNING, PRODUCED, VALIDATING and
      COMMIT_READY, in that order, and the retained history shows it. */
  lemma CommittedShowsPath(h: History)
    requires IsChain(h, Committed)
    ensures |h| >= 6 && IsCommitPath(h[|h| - 6..])
  {
    hide IsChain;
    hide Legal;
    var n := |h|;
    ChainEnd(h, Committed);
    StepBack(h, Committed, n, 6);
    StepBack(h, Committed, n - 1, 5);
    StepBack(h, Committed, n - 2, 4);
    StepBack(h, Committed, n - 3, 3);
    StepBack(h, Committed, n - 4, 2);
    StepBack(h, Committed, n - 5, 1);
  }

  lemma ChainEnd(h: History, state: PhaseState)
    requires IsChain(h, state) && state != Pending
    ensures h != [] && h[|h| - 1].to == state
  {
  }

  /** Which requests move a phase. Each forward state is entered from its predecessor only;
      a committed phase leaves only for FENCED or RETIRED; RETIRED is reachable from anywhere. */
  lemma MovedForward(from: PhaseState, to: PhaseState)
    ensures to in {Running, Produced, Validating, CommitReady, Committed} && from != to ==>
      (Moved(from, to) == to <==> Legal(from, to))
    ensures from == Committed && Moved(from, to) != from ==> to in {Fenced, Retired}
    ensures from in {Cancelled, Fenced, Retired} && Moved(from, to) != from ==> to == Retired
    ensures Moved(from, Retired) == Retired
    ensures InFlight(from) ==> Moved(from, Fenced) == Fenced && Moved(from, Ready) == Ready
    ensures RetainsCommitAuthority(from) ==> Moved(from, Cancelled) == Cancelled && Moved(from, Failed) == Failed
    ensures from in {Pending, Ready, Failed, RecoveryRequired} ==> Moved(from, Ready) == Ready
  {
  }
}
