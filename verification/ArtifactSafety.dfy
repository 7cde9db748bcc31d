/** Artifacts over all runs: authority, currency and validity agree; lineage edges descend; and
    what is authoritative was committed. */
module ArtifactSafety {
  import opened StrongId
  import opened Bytes
  import opened Wrappers
  import opened Phases
  import opened PhasePlans
  import opened Sessions
  import opened Runtime
  import opened Evolution
  import opened Safety
  import opened Bindings
  import opened Guarantees
  import opened CommitSafety
  import opened Artifacts
  import Provenance
  import Authority

  /* ---------- How operations change the registry ---------- */

  /** The artifact keeps its identity and lineage, gains no authority, and stays coupled. */
  ghost predicate SameArtifact(a: Artifact, b: Artifact) {
    && b.id == a.id && b.producer == a.producer && b.lineage == a.lineage
    && (b.authority == Authoritative ==> a.authority == Authoritative)
    && (Coupled(a) ==> Coupled(b))
  }

  ghost predicate StoreKept(t: Store, u: Store) {
    && u.next == t.next && u.entries.Keys == t.entries.Keys
    && forall id :: id in t.entries ==> SameArtifact(t.entries[id], u.entries[id])
  }

  lemma KeptTransitive(t: Store, u: Store, v: Store)
    requires StoreKept(t, u) && StoreKept(u, v)
    ensures StoreKept(t, v)
  {
    forall id | id in t.entries
      ensures SameArtifact(t.entries[id], v.entries[id])
    {
      assert SameArtifact(t.entries[id], u.entries[id]) && SameArtifact(u.entries[id], v.entries[id]);
    }
  }

  lemma KeptSelf(t: Store)
    ensures StoreKept(t, t)
  {
  }

  lemma RevokeKept(t: Store, phase: U64, generation: U64, detail: Text)
    ensures StoreKept(t, RevokeOutputs(t, phase, generation, detail))
  {
  }

  lemma {:induction false} SetStatesKept(t: Store, ids: seq<U64>, state: ArtifactState, detail: Text)
    ensures StoreKept(t, SetStates(t, ids, state, detail))
    decreases |ids|
  {
    if ids == [] || ids[0] !in t.entries {
      KeptSelf(t);
    } else {
      var u := SetState(t, ids[0], state, detail);
      assert StoreKept(t, u);
      SetStatesKept(u, ids[1..], state, detail);
      KeptTransitive(t, u, SetStates(t, ids, state, detail));
    }
  }

  lemma {:induction false} FencedKept(t: Store, s: CompilerSession, order: seq<U64>, reason: Text)
    ensures StoreKept(t, FencedArtifacts(t, s, order, reason))
    decreases |order|
  {
    hide RevokeOutputs;
    KeptSelf(t);
    if order != [] {
      var u := if order[0] in s.phases && InFlight(s.phases[order[0]].state) then
        RevokeOutputs(t, s.phases[order[0]].id, s.phases[order[0]].generation, reason) else t;
      if order[0] in s.phases {
        RevokeKept(t, s.phases[order[0]].id, s.phases[order[0]].generation, reason);
      }
      FencedKept(u, s, order[1..], reason);
      KeptTransitive(t, u, FencedArtifacts(t, s, order, reason));
    }
  }

  lemma {:induction false} RevalidateKept(t: Store, steps: seq<Revalidation>)
    ensures StoreKept(t, RevalidateAll(t, steps))
    decreases |steps|
  {
    if steps == [] || steps[0].id !in t.entries || t.entries[steps[0].id].path == [] {
      KeptSelf(t);
    } else {
      var u := Revalidate(t, steps[0].id, steps[0].found, steps[0].detail);
      assert StoreKept(t, u);
      RevalidateKept(u, steps[1..]);
      KeptTransitive(t, u, RevalidateAll(t, steps));
    }
  }

  lemma StampedKept(t: Store, ids: seq<U64>, provenance: U64)
    ensures StoreKept(t, Stamped(t, ids, provenance))
  {
  }

  lemma NextGenerationsKept(t: Store, ids: seq<U64>)
    ensures StoreKept(t, NextGenerations(t, ids))
  {
  }

  /** Only the given artifacts may have gained authority. */
  ghost predicate Authorizes(t: Store, u: Store, ids: seq<U64>) {
    && u.next == t.next && u.entries.Keys == t.entries.Keys
    && forall id :: id in t.entries ==>
         && u.entries[id].id == t.entries[id].id && u.entries[id].producer == t.entries[id].producer
         && u.entries[id].lineage == t.entries[id].lineage
         && (u.entries[id].authority == Authoritative ==> t.entries[id].authority == Authoritative || id in ids)
         && (Coupled(t.entries[id]) ==> Coupled(u.entries[id]))
  }

  lemma {:induction false} AuthorizedOnly(t: Store, ids: seq<U64>, all: seq<U64>)
    requires forall id :: id in ids ==> id in all
    ensures Authorizes(t, Authorized(t, ids), all)
    decreases |ids|
  {
    if ids != [] && MayHold(t, ids[0], Authoritative) {
      assert ids[0] in all;
      AuthorizedOnly(SetAuthority(t, ids[0], Authoritative), ids[1..], all);
    }
  }

  /* ---------- Registering outputs ---------- */

  /** New candidates of a phase: fresh identities, the phase's inputs as lineage, no authority. */
  ghost predicate Extends(t: Store, u: Store, producer: Ref, inputs: seq<Ref>, refs: seq<Ref>) {
    && t.next <= u.next
    && (forall id :: id in t.entries ==> id in u.entries && u.entries[id] == t.entries[id])
    && (forall id :: id in u.entries && id !in t.entries ==>
          && t.next <= id < u.next && u.entries[id].id == id && (exists k :: 0 <= k < |refs| && refs[k].id == id)
          && u.entries[id].producer == producer && u.entries[id].lineage == inputs
          && u.entries[id].authority == Never && !u.entries[id].current)
    && (forall k :: 0 <= k < |refs| ==>
          refs[k].id in u.entries && t.next <= refs[k].id && u.entries[refs[k].id].producer == producer)
  }

  ghost predicate Below(t: Store) {
    forall id :: id in t.entries ==> 0 < id < t.next && t.entries[id].id == id
  }

  lemma {:induction false} RegisterExtends(t: Store, s: CompilerSession, p: PhaseRecord, invocation: Ref, outputs: seq<OutputDescriptor>)
    requires Below(t) && 0 < t.next && RegisterOutputs(t, s, p, invocation, outputs).store.next < MAX_COUNTER
    ensures var reg := RegisterOutputs(t, s, p, invocation, outputs);
            Extends(t, reg.store, Ref(p.id, p.generation), p.inputs, reg.refs)
    decreases |outputs|
  {
    if outputs != [] && |t.entries| < MAX_ARTIFACTS {
      hide Extends;
      var u := Artifacts.Registered(t, CandidateFor(s, p, invocation, outputs[0]));
      RegisterGrows(u, s, p, invocation, outputs[1..]);
      assert t.next < MAX_COUNTER;
      ExtendsOne(t, s, p, invocation, outputs[0]);
      RegisterExtends(u, s, p, invocation, outputs[1..]);
      var rest := RegisterOutputs(u, s, p, invocation, outputs[1..]);
      ExtendsMore(t, u, rest.store, Ref(p.id, p.generation), p.inputs, [Ref(t.next, INITIAL)], rest.refs);
    }
  }

  lemma ExtendsOne(t: Store, s: CompilerSession, p: PhaseRecord, invocation: Ref, output: OutputDescriptor)
    requires Below(t) && 0 < t.next < MAX_COUNTER
    ensures var u := Artifacts.Registered(t, CandidateFor(s, p, invocation, output));
            Below(u) && Extends(t, u, Ref(p.id, p.generation), p.inputs, [Ref(t.next, INITIAL)])
  {
    assert [Ref(t.next, INITIAL)][0].id == t.next;
  }

  lemma ExtendsMore(t: Store, u: Store, v: Store, producer: Ref, inputs: seq<Ref>, a: seq<Ref>, b: seq<Ref>)
    requires Extends(t, u, producer, inputs, a) && Extends(u, v, producer, inputs, b)
    ensures Extends(t, v, producer, inputs, a + b)
  {
    forall id | id in v.entries && id !in t.entries
      ensures exists k :: 0 <= k < |a + b| && (a + b)[k].id == id
    {
      if id in u.entries {
        var k :| 0 <= k < |a| && a[k].id == id;
        assert (a + b)[k].id == id;
      } else {
        var k :| 0 <= k < |b| && b[k].id == id;
        assert (a + b)[|a| + k].id == id;
      }
    }
  }

  lemma {:induction false} RegisterGrows(t: Store, s: CompilerSession, p: PhaseRecord, invocation: Ref, outputs: seq<OutputDescriptor>)
    ensures t.next <= RegisterOutputs(t, s, p, invocation, outputs).store.next
    decreases |outputs|
  {
    if outputs != [] && |t.entries| < MAX_ARTIFACTS {
      RegisterGrows(Artifacts.Registered(t, CandidateFor(s, p, invocation, outputs[0])), s, p, invocation, outputs[1..]);
    }
  }

  /* ---------- Every action on the registry ---------- */

  lemma SessionActionsKeep(w: World, e: Event)
    requires WholeSession(e.action)
    ensures StoreKept(w.artifacts, Apply(w, e).artifacts)
  {
    hide StoreKept;
    hide Reserve;
    hide Launch;
    hide NoteProcess;
    hide RecordExecution;
    hide ReportOutput;
    hide ReproductionFailed;
    hide Validate;
    hide Commit;
    hide CancelPhase;
    hide FailPhase;
    hide BeginCommit;
    hide BundleOf;
    hide EvaluateRetry;
    hide FencedSession;
    hide FencedArtifacts;
    hide FencedLeases;
    hide RetiredPhases;
    hide RetiredLeases;
    hide RecoveredSession;
    hide RevalidateAll;
    hide AllRevalidate;
    hide StepIds;
    hide PlanFor;
    hide Change;
    hide NewSession;
    hide Advanced;
    KeptSelf(w.artifacts);
    var a := e.action;
    if a.DoFenceSession? && a.session in w.sessions {
      FencedKept(w.artifacts, w.sessions[a.session], w.sessions[a.session].plan.order, a.detail);
    } else if a.DoApplyRecovery? {
      RevalidateKept(w.artifacts, a.steps);
    }
  }

  lemma PhaseActionsKeep(w: World, e: Event)
    requires !WholeSession(e.action) && !e.action.DoCommit? && CauseOf(e.action) != Reporting
    ensures StoreKept(w.artifacts, Apply(w, e).artifacts)
  {
    hide StoreKept;
    hide Create;
    hide GrantRetry;
    hide FenceSession;
    hide CloseSession;
    hide RetireSession;
    hide SetSessionState;
    hide ApplyRecovery;
    hide Commit;
    hide RecordCurrent;
    hide BundleOf;
    hide RecordTransition;
    hide SetStates;
    hide AllRegistered;
    hide RevokeOutputs;
    hide Authority.Revoke;
    hide Reservable;
    hide ReservedSession;
    hide ReservedRecord;
    hide ResolveInputs;
    hide CloseAttempt;
    hide WithPhase;
    hide Advanced;
    KeptSelf(w.artifacts);
    var a := e.action;
    match a {
      case DoReproductionFailed(r, status, detail) =>
        if HasRecord(w, r.session, r.phase) {
          var p := w.sessions[r.session].phases[r.phase];
          RevokeKept(w.artifacts, p.id, p.generation, detail);
        }
      case DoValidate(r, evidence) =>
        if HasRecord(w, r.session, r.phase) {
          var p := w.sessions[r.session].phases[r.phase];
          SetStatesKept(w.artifacts, OutputIds(p.outputs), EvidenceState(evidence), evidence.detail);
        }
      case DoCancelPhase(session, phase, detail) =>
        if HasRecord(w, session, phase) {
          var p := w.sessions[session].phases[phase];
          RevokeKept(w.artifacts, p.id, p.generation, detail);
        }
      case DoFailPhase(session, phase, generation, failure, status, detail) =>
        if HasRecord(w, session, phase) {
          var p := w.sessions[session].phases[phase];
          RevokeKept(w.artifacts, p.id, p.generation, detail);
        }
      case _ =>
    }
  }

  /** What a commit is about to publish. */
  function Publishing(w: World, r: Reservation): seq<U64> {
    if HasRecord(w, r.session, r.phase) then OutputIds(w.sessions[r.session].phases[r.phase].outputs) else []
  }

  lemma KeptAuthorizes(t: Store, u: Store, ids: seq<U64>)
    requires StoreKept(t, u)
    ensures Authorizes(t, u, ids)
  {
    forall id | id in t.entries
      ensures u.entries[id].id == t.entries[id].id && u.entries[id].producer == t.entries[id].producer
    {
      assert SameArtifact(t.entries[id], u.entries[id]);
    }
  }

  lemma AroundAuthorizes(t: Store, u: Store, v: Store, x: Store, ids: seq<U64>)
    requires StoreKept(t, u) && Authorizes(u, v, ids) && StoreKept(v, x)
    ensures Authorizes(t, x, ids)
  {
    forall id | id in t.entries
      ensures && x.entries[id].id == t.entries[id].id && x.entries[id].producer == t.entries[id].producer
              && x.entries[id].lineage == t.entries[id].lineage
              && (x.entries[id].authority == Authoritative ==> t.entries[id].authority == Authoritative || id in ids)
              && (Coupled(t.entries[id]) ==> Coupled(x.entries[id]))
    {
      assert SameArtifact(t.entries[id], u.entries[id]) && SameArtifact(v.entries[id], x.entries[id]);
    }
  }

  lemma PublishStore(w: World, r: Reservation, pub: Publication, env: Ambient)
    requires HasRecord(w, r.session, r.phase)
    ensures Authorizes(w.artifacts, Publish(w, r, pub, env).artifacts, Publishing(w, r))
  {
    hide CommittedSession;
    hide BundleOf;
    hide Stamped;
    hide Authorized;
    hide AllMayHold;
    hide NextGenerations;
    hide Authority.Revoke;
    hide StoreKept;
    hide Authorizes;
    var ids := Publishing(w, r);
    var t := w.artifacts;
    var u := Stamped(t, ids, pub.provenance);
    var v := Authorized(u, ids);
    StampedKept(t, ids, pub.provenance);
    AuthorizedOnly(u, ids, ids);
    KeptSelf(v);
    NextGenerationsKept(v, ids);
    AroundAuthorizes(t, u, v, v, ids);
    AroundAuthorizes(t, u, v, NextGenerations(v, ids), ids);
  }

  lemma CommitStore(w: World, r: Reservation, probe: Probe, pub: Publication, env: Ambient)
    ensures Authorizes(w.artifacts, Commit(w, r, probe, pub, env).artifacts, Publishing(w, r))
  {
    hide Publish;
    hide CommitVerdict;
    hide BundleOf;
    hide FencedForCommit;
    hide StatusOf;
    hide RevokeOutputs;
    hide Authority.Revoke;
    hide StoreKept;
    hide Authorizes;
    hide CloseAttempt;
    KeptSelf(w.artifacts);
    KeptAuthorizes(w.artifacts, w.artifacts, Publishing(w, r));
    if Current(w, r) {
      var p := w.sessions[r.session].phases[r.phase];
      var w1 := Reprobed(w, probe);
      PublishStore(w1, r, pub, env);
      RevokeKept(w.artifacts, p.id, p.generation, REFUSED);
      KeptAuthorizes(w.artifacts, RevokeOutputs(w.artifacts, p.id, p.generation, REFUSED), Publishing(w, r));
      if probe.ProbeFailed? {
        RevokeKept(w.artifacts, p.id, p.generation, probe.detail);
        KeptAuthorizes(w.artifacts, RevokeOutputs(w.artifacts, p.id, p.generation, probe.detail), Publishing(w, r));
      }
    }
  }

  /** Every action that is not a report leaves identities and lineage alone, and only a commit
      can give authority, to the outputs of its phase. */
  lemma ApplyStore(w: World, e: Event)
    requires CauseOf(e.action) != Reporting
    ensures Authorizes(w.artifacts, Apply(w, e).artifacts, if e.action.DoCommit? then Publishing(w, e.action.r) else [])
  {
    hide StoreKept;
    hide Authorizes;
    hide Commit;
    if e.action.DoCommit? {
      CommitStore(w, e.action.r, e.action.probe, e.action.pub, e.env);
    } else {
      hide Apply;
      if WholeSession(e.action) {
        SessionActionsKeep(w, e);
      } else {
        PhaseActionsKeep(w, e);
      }
      KeptAuthorizes(w.artifacts, Apply(w, e).artifacts, []);
    }
  }

  /* ---------- The invariant ---------- */

  /** Inputs are registered; outputs are registered as outputs of this phase generation. */
  ghost predicate RecordOwned(t: Store, p: PhaseRecord) {
    && (forall k :: 0 <= k < |p.inputs| ==> p.inputs[k].id in t.entries)
    && (forall k :: 0 <= k < |p.outputs| ==>
          p.outputs[k].id in t.entries && t.entries[p.outputs[k].id].producer == Ref(p.id, p.generation))
  }

  ghost predicate StoreSound(t: Store) {
    AllCoupled(t) && Below(t) && Provenance.Descending(t) && t.next > 0
  }

  ghost predicate ArtifactsSound(w: World) {
    && StoreSound(w.artifacts)
    && forall id, p :: HasRecord(w, id, p) ==> RecordOwned(w.artifacts, w.sessions[id].phases[p])
  }

  lemma AuthorizedStoreSound(t: Store, u: Store, ids: seq<U64>)
    requires StoreSound(t) && Authorizes(t, u, ids)
    ensures StoreSound(u)
  {
  }

  lemma OwnedStays(t: Store, u: Store, ids: seq<U64>, p: PhaseRecord, q: PhaseRecord, cause: Cause)
    requires RecordOwned(t, p) && Authorizes(t, u, ids) && Continues(p, q, cause) && cause != Reporting
    ensures RecordOwned(u, q)
  {
  }

  lemma OwnedAfresh(w: World, w': World, ids: seq<U64>, p: PhaseRecord, q: PhaseRecord)
    requires Reserved(w, w', p, q) && Authorizes(w.artifacts, w'.artifacts, ids)
    ensures RecordOwned(w'.artifacts, q)
  {
  }

  /** Sessions and phases that were not there before start with nothing. */
  ghost predicate NewcomersBlank(w: World, w': World) {
    forall id, p :: HasRecord(w', id, p) && !HasRecord(w, id, p) ==>
      w'.sessions[id].phases[p].inputs == [] && w'.sessions[id].phases[p].outputs == []
  }

  lemma UnreportedSound(w: World, w': World, a: Action, ids: seq<U64>)
    requires ArtifactsSound(w) && Authorizes(w.artifacts, w'.artifacts, ids) && Attempted(w, w', a)
    requires CauseOf(a) != Reporting && NewcomersBlank(w, w')
    ensures ArtifactsSound(w')
  {
    hide Authorizes;
    hide RecordOwned;
    hide Continues;
    hide Reserved;
    hide StoreSound;
    AuthorizedStoreSound(w.artifacts, w'.artifacts, ids);
    forall id, p | HasRecord(w', id, p)
      ensures RecordOwned(w'.artifacts, w'.sessions[id].phases[p])
    {
      var q := w'.sessions[id].phases[p];
      if HasRecord(w, id, p) {
        assert RecordOwned(w.artifacts, w.sessions[id].phases[p]);
        if Continues(w.sessions[id].phases[p], q, CauseOf(a)) {
          OwnedStays(w.artifacts, w'.artifacts, ids, w.sessions[id].phases[p], q, CauseOf(a));
        } else {
          OwnedAfresh(w, w', ids, w.sessions[id].phases[p], q);
        }
      } else {
        BlankOwned(w'.artifacts, q);
      }
    }
  }

  lemma BlankOwned(t: Store, p: PhaseRecord)
    requires p.inputs == [] && p.outputs == []
    ensures RecordOwned(t, p)
  {
  }

  lemma StepBlank(w: World, e: Event, w': World)
    requires Sound(w) && Step(w, e, w')
    ensures NewcomersBlank(w, w')
  {
    hide Sound;
    hide Apply;
    hide NewSession;
    StepSound(w, e, w');
    forall id, p | HasRecord(w', id, p) && id in w.sessions
      ensures HasRecord(w, id, p)
    {
      assert SessionEvolves(w.sessions[id], w'.sessions[id]);
    }
    forall id, p | HasRecord(w', id, p) && id !in w.sessions
      ensures w'.sessions[id].phases[p].inputs == [] && w'.sessions[id].phases[p].outputs == []
    {
      CreatedBy(w, e, w', id);
      NewSessionBlank(w, w'.sessions[id], p);
    }
  }

  lemma NewSessionBlank(w: World, s: CompilerSession, p: U64)
    requires NewSession(w, s) && p in s.phases
    ensures s.phases[p].inputs == [] && s.phases[p].outputs == []
  {
    hide IsPlan;
  }

  /* ---------- Reports ---------- */

  /** What a report does: the reported phase may gain outputs it owns; nothing else changes. */
  ghost predicate Reports(w: World, w': World, session: U64, t: CompilerSession, q: PhaseRecord, refs: seq<Ref>) {
    && session in w.sessions && q.id in w.sessions[session].phases
    && w'.sessions == w.sessions[session := t] && t.phases == w.sessions[session].phases[q.id := q]
    && var p := w.sessions[session].phases[q.id];
    && q.generation == p.generation && q.inputs == p.inputs && q.outputs == p.outputs + refs
    && t.intermediates == w.sessions[session].intermediates + refs
    && Extends(w.artifacts, w'.artifacts, Ref(q.id, q.generation), p.inputs, refs)
  }

  lemma ExtendsNothing(t: Store, producer: Ref, inputs: seq<Ref>)
    ensures Extends(t, t, producer, inputs, [])
  {
  }

  lemma RecordReports(w: World, r: Reservation, report: Report, env: Ambient)
    requires Sound(w) && ArtifactsSound(w) && Current(w, r)
    requires RecordCurrent(w, r, report, env).artifacts.next < MAX_COUNTER
    ensures var w' := RecordCurrent(w, r, report, env);
            w' == w || exists t, q, refs :: Reports(w, w', r.session, t, q, refs)
  {
    hide Sound;
    hide Extends;
    hide RecordTransition;
    hide BundleOf;
    var w' := RecordCurrent(w, r, report, env);
    Here(w, r.session, r.phase);
    var s := w.sessions[r.session];
    var p := s.phases[r.phase];
    ExtendsNothing(w.artifacts, Ref(p.id, p.generation), p.inputs);
    if w' != w {
      if report.diagnostics.None? || !report.succeeded {
        QuietReport(w, r, report, env);
        assert p.outputs + [] == p.outputs && s.intermediates + [] == s.intermediates;
        assert Reports(w, w', r.session, w'.sessions[r.session], w'.sessions[r.session].phases[r.phase], []);
      } else {
        SuccessReport(w, r, report, env);
      }
    }
  }

  lemma QuietReport(w: World, r: Reservation, report: Report, env: Ambient)
    requires Sound(w) && Current(w, r) && RecordCurrent(w, r, report, env) != w
    requires report.diagnostics.None? || !report.succeeded
    ensures var w' := RecordCurrent(w, r, report, env);
            && w'.artifacts == w.artifacts
            && r.session in w'.sessions && r.phase in w'.sessions[r.session].phases
            && var q := w'.sessions[r.session].phases[r.phase];
            && var p := w.sessions[r.session].phases[r.phase];
            && q.id == r.phase == p.id && q.generation == p.generation && q.inputs == p.inputs && q.outputs == p.outputs
            && w'.sessions == w.sessions[r.session := w'.sessions[r.session]]
            && w'.sessions[r.session].phases == w.sessions[r.session].phases[r.phase := q]
            && w'.sessions[r.session].intermediates == w.sessions[r.session].intermediates
  {
    hide Sound;
    hide Recorded;
    hide Moved;
    hide BundleOf;
    Here(w, r.session, r.phase);
  }

  lemma SuccessReport(w: World, r: Reservation, report: Report, env: Ambient)
    requires Sound(w) && ArtifactsSound(w) && Current(w, r) && RecordCurrent(w, r, report, env) != w
    requires report.diagnostics.Some? && report.succeeded && RecordCurrent(w, r, report, env).artifacts.next < MAX_COUNTER
    ensures exists t, q, refs :: Reports(w, RecordCurrent(w, r, report, env), r.session, t, q, refs)
  {
    hide Sound;
    hide Extends;
    hide RecordTransition;
    hide BundleOf;
    hide RegisterOutputs;
    hide RecordOwned;
    hide AllCoupled;
    hide Provenance.Descending;
    var w' := RecordCurrent(w, r, report, env);
    Here(w, r.session, r.phase);
    var s := w.sessions[r.session];
    var p := s.phases[r.phase];
    var k := AttemptIndex(p.attempts, r.attempt);
    var attempts := p.attempts[k := ReportedAttempt(p.attempts[k], r.invocation, report)];
    var p1 := p.(attempts := attempts, diagnostics := report.diagnostics.value);
    var p2 := RecordTransition(p1, Produced, env.now, EXITED).(attempts := attempts[k := attempts[k].(terminalState := Produced)]);
    TransitionKeeps(p1, Produced, env.now, EXITED);
    var reg := RegisterOutputs(w.artifacts, s, p2, r.invocation, report.outputs);
    RegisterExtends(w.artifacts, s, p2, r.invocation, report.outputs);
    var p3 := p2.(outputs := p2.outputs + reg.refs);
    TransitionKeeps(p3.(outputDigest := report.outputDigest), Validating, env.now, CANDIDATES);
    var t := w'.sessions[r.session];
    assert Reports(w, w', r.session, t, t.phases[r.phase], reg.refs);
  }

  lemma TransitionKeeps(p: PhaseRecord, to: PhaseState, at: U64, reason: Text)
    ensures var q := RecordTransition(p, to, at, reason);
            q.id == p.id && q.generation == p.generation && q.inputs == p.inputs && q.outputs == p.outputs
  {
  }

  lemma ReportsSound(w: World, w': World, session: U64, t: CompilerSession, q: PhaseRecord, refs: seq<Ref>)
    requires ArtifactsSound(w) && Reports(w, w', session, t, q, refs) && w.sessions[session].phases[q.id].id == q.id
    ensures ArtifactsSound(w')
  {
    var p := w.sessions[session].phases[q.id];
    assert RecordOwned(w.artifacts, p);
    ExtendedStore(w.artifacts, w'.artifacts, Ref(q.id, q.generation), p.inputs, refs);
    ExtendedOwner(w.artifacts, w'.artifacts, p, q, refs);
    hide Extends;
    hide RecordOwned;
    forall id, x | HasRecord(w', id, x)
      ensures RecordOwned(w'.artifacts, w'.sessions[id].phases[x])
    {
      if id != session || x != q.id {
        assert HasRecord(w, id, x);
        ExtendedOthers(w.artifacts, w'.artifacts, Ref(q.id, q.generation), p.inputs, refs, w.sessions[id].phases[x]);
      }
    }
  }

  lemma ExtendedStore(t: Store, u: Store, producer: Ref, inputs: seq<Ref>, refs: seq<Ref>)
    requires StoreSound(t) && Extends(t, u, producer, inputs, refs)
    requires forall k :: 0 <= k < |inputs| ==> inputs[k].id in t.entries
    ensures StoreSound(u)
  {
    forall id, k | id in u.entries && 0 <= k < |u.entries[id].lineage|
      ensures u.entries[id].lineage[k].id < id
    {
      if id !in t.entries {
        assert inputs[k].id in t.entries;
      }
    }
  }

  lemma ExtendedOwner(t: Store, u: Store, p: PhaseRecord, q: PhaseRecord, refs: seq<Ref>)
    requires RecordOwned(t, p) && q.id == p.id && q.generation == p.generation && q.inputs == p.inputs
    requires q.outputs == p.outputs + refs && Extends(t, u, Ref(q.id, q.generation), p.inputs, refs)
    ensures RecordOwned(u, q)
  {
    forall k | 0 <= k < |q.outputs|
      ensures q.outputs[k].id in u.entries && u.entries[q.outputs[k].id].producer == Ref(q.id, q.generation)
    {
      if k >= |p.outputs| {
        assert q.outputs[k] == refs[k - |p.outputs|];
      }
    }
  }

  lemma ExtendedOthers(t: Store, u: Store, producer: Ref, inputs: seq<Ref>, refs: seq<Ref>, p: PhaseRecord)
    requires RecordOwned(t, p) && Extends(t, u, producer, inputs, refs)
    ensures RecordOwned(u, p)
  {
  }

  lemma ReportingSound(w: World, r: Reservation, report: Report, env: Ambient)
    requires Sound(w) && ArtifactsSound(w) && Current(w, r)
    requires RecordCurrent(w, r, report, env).artifacts.next < MAX_COUNTER
    ensures ArtifactsSound(RecordCurrent(w, r, report, env))
  {
    hide Sound;
    hide ArtifactsSound;
    hide RecordCurrent;
    RecordReports(w, r, report, env);
    var w' := RecordCurrent(w, r, report, env);
    if w' != w {
      hide Extends;
      var t, q, refs :| Reports(w, w', r.session, t, q, refs);
      Here(w, r.session, q.id);
      ReportsSound(w, w', r.session, t, q, refs);
    }
  }

  /** Every action keeps artifacts coupled, lineage descending and ownership right, as long as
      the identity counters have not saturated. */
  lemma StepArtifacts(w: World, e: Event, w': World)
    requires Sound(w) && BindingsSound(w) && ArtifactsSound(w) && Step(w, e, w')
    requires w'.artifacts.next < MAX_COUNTER
    ensures ArtifactsSound(w')
  {
    hide Sound;
    hide BindingsSound;
    hide ArtifactsSound;
    hide RecordCurrent;
    var a := e.action;
    if a.DoRecord? {
      if Current(w, a.r) {
        if a.r in w.issued {
          ReportingSound(w, a.r, a.report, e.env);
        }
      }
    } else if a.DoReport? {
      if HasRecord(w, a.session, a.phase) {
        var r := ReservationFor(w.sessions[a.session], w.sessions[a.session].phases[a.phase]);
        if Current(w, r) && w' != w {
          ReportingSound(w, r, a.report, e.env);
        }
      }
    } else {
      hide Apply;
      hide Authorizes;
      hide Attempted;
      hide NewcomersBlank;
      hide Forward;
      ApplyStore(w, e);
      ApplyBindings(w, e);
      StepBlank(w, e, w');
      UnreportedSound(w, w', a, if a.DoCommit? then Publishing(w, a.r) else []);
    }
  }

  /* ---------- Over runs ---------- */

  /** The invocation and artifact counters have not saturated. */
  predicate Unspent(w: World) {
    w.next.invocation < MAX_COUNTER && w.artifacts.next < MAX_COUNTER
  }

  /** Where artifacts are sound, authoritative is the same as current and implies VALID, and every
      lineage edge points to a smaller identity, so that lineage has no cycles. */
  lemma SoundArtifact(w: World, id: U64)
    requires ArtifactsSound(w) && id in w.artifacts.entries
    ensures var a := w.artifacts.entries[id];
            && (a.authority == Authoritative <==> a.current) && (a.current ==> a.state == Valid)
            && (forall n :: 0 <= n < |a.lineage| ==> a.lineage[n].id < id)
    ensures forall d: Provenance.Descent ::
              Provenance.Arrive(w.artifacts, id, d).Some? && d != [] ==> Provenance.Arrive(w.artifacts, id, d).value != id
  {
    hide RecordOwned;
    hide Provenance.Arrive;
    assert Coupled(w.artifacts.entries[id]);
    forall d: Provenance.Descent | Provenance.Arrive(w.artifacts, id, d).Some? && d != []
      ensures Provenance.Arrive(w.artifacts, id, d).value != id
    {
      Provenance.NoCycle(w.artifacts, id, d, Provenance.Arrive(w.artifacts, id, d).value);
    }
  }
}
