/** Which session holds which artifact, and what the journal remembers of them: the durable
    projection of a session carries everything the session refers to. */
module Custody {
  import opened StrongId
  import opened Bytes
  import opened Wrappers
  import opened Phases
  import opened PhasePlans
  import opened Ancestry
  import opened Sessions
  import opened Sorting
  import opened Registries
  import opened Runtime
  import opened Evolution
  import opened Safety
  import opened Bindings
  import opened Guarantees
  import opened CommitSafety
  import opened Artifacts
  import opened ArtifactSafety
  import Authority
  import Provenance

  /* ---------- Sessions ---------- */

  /** The session registered the artifact. */
  ghost predicate Has(s: CompilerSession, id: U64) {
    id in OutputIds(s.intermediates)
  }

  ghost predicate PhaseHeld(s: CompilerSession, p: PhaseRecord) {
    && (forall k :: 0 <= k < |p.inputs| ==> Has(s, p.inputs[k].id))
    && (forall k :: 0 <= k < |p.outputs| ==> Has(s, p.outputs[k].id))
  }

  /** Phases refer only to artifacts of their own session. */
  ghost predicate SelfContained(s: CompilerSession) {
    forall p :: p in s.phases ==> PhaseHeld(s, s.phases[p])
  }

  /** Every artifact belongs to exactly one session. */
  ghost predicate Custodial(w: World) {
    && (forall id :: id in w.sessions ==> SelfContained(w.sessions[id]))
    && (forall id, a: U64 :: id in w.sessions && Has(w.sessions[id], a) ==> a in w.artifacts.entries)
    && (forall i, j, a: U64 :: i in w.sessions && j in w.sessions && Has(w.sessions[i], a) && Has(w.sessions[j], a) ==> i == j)
    && (forall a :: a in w.artifacts.entries ==> exists id :: id in w.sessions && Has(w.sessions[id], a))
  }

  /* ---------- The journal ---------- */

  /** As far as ownership, lineage and coupling go, the stored artifact is the registered one. */
  ghost predicate SameMatter(a: Artifact, b: Artifact) {
    && a.id == b.id && a.producer == b.producer && a.lineage == b.lineage && a.authority == b.authority
    && (Coupled(b) ==> Coupled(a))
  }

  /** The bundle has the session's artifacts as they are in the registry. */
  ghost predicate Pictures(b: Bundle, t: Store) {
    && (forall id: U64 :: Has(b.session, id) && id in t.entries ==> Stores(b, id))
    && forall j :: 0 <= j < |b.artifacts| ==>
         && Has(b.session, b.artifacts[j].id) && b.artifacts[j].id in t.entries
         && SameMatter(b.artifacts[j], t.entries[b.artifacts[j].id])
  }

  ghost predicate Stores(b: Bundle, id: U64) {
    exists j :: 0 <= j < |b.artifacts| && b.artifacts[j].id == id
  }

  ghost predicate ArtifactFit(a: Artifact) {
    && 0 < a.id < MAX_COUNTER && Coupled(a)
    && forall n :: 0 <= n < |a.lineage| ==> a.lineage[n].id < a.id
  }

  /** The outputs of a phase are stored as its outputs. */
  ghost predicate OutputsStored(b: Bundle, p: PhaseRecord) {
    forall k, j :: 0 <= k < |p.outputs| && 0 <= j < |b.artifacts| && b.artifacts[j].id == p.outputs[k].id ==>
      b.artifacts[j].producer == Ref(p.id, p.generation)
  }

  /** A bundle can be taken over on its own. */
  ghost predicate BundleSound(b: Bundle) {
    && SelfContained(b.session)
    && (forall id: U64 :: Has(b.session, id) <==> Stores(b, id))
    && (forall j :: 0 <= j < |b.artifacts| ==> ArtifactFit(b.artifacts[j]))
    && (forall p :: p in b.session.phases ==> OutputsStored(b, b.session.phases[p]))
  }

  /** The journal holds sound bundles; what a session held it still holds. */
  ghost predicate LogCustodial(w: World) {
    && (forall i :: 0 <= i < |w.log| ==>
          && BundleSound(w.log[i])
          && w.log[i].session.id in w.sessions
          && HoldsAll(w.log[i].session, w.sessions[w.log[i].session.id]))
    && forall i, j :: 0 <= i < j < |w.log| && w.log[i].session.id == w.log[j].session.id ==>
         HoldsAll(w.log[i].session, w.log[j].session)
  }

  ghost predicate HoldsAll(s: CompilerSession, t: CompilerSession) {
    forall a: U64 :: Has(s, a) ==> Has(t, a)
  }

  ghost predicate CustodySound(w: World) {
    Custodial(w) && LogCustodial(w)
  }

  lemma InitialCustody()
    ensures CustodySound(Initial())
  {
  }

  /* ---------- What an action appends ---------- */

  /** The registry an action's record is taken from: at a commit, that of just before the
      outputs move to their next generation. */
  ghost function RecordedStore(w: World, e: Event): Store {
    var w' := Apply(w, e);
    if e.action.DoCommit? && w'.commits != w.commits then
      var ids := Publishing(w, e.action.r);
      Authorized(Stamped(w.artifacts, ids, e.action.pub.provenance), ids)
    else w'.artifacts
  }

  /** At most one record: the updated session with its artifacts. */
  ghost predicate Appends(w: World, w': World, t: Store) {
    || w'.log == w.log
    || (&& |w'.log| == |w.log| + 1 && w'.log[..|w.log|] == w.log
        && var b := w'.log[|w.log|];
        && b.session.id in w'.sessions && b.session == w'.sessions[b.session.id]
        && b.artifacts == Found(t, Sorted(OutputIds(b.session.intermediates))))
  }

  lemma ReserveAppends(w: World, session: U64, phase: U64, isRetry: bool, workspace: bool, env: Ambient)
    ensures var w' := Reserve(w, session, phase, isRetry, workspace, env); Appends(w, w', w'.artifacts)
  {
    hide Found;
    hide Sorted;
    hide Reservable;
    hide ReservedSession;
    hide ReservedRecord;
    hide ResolveInputs;
    hide Authority.Grant;
  }

  lemma LaunchAppends(w: World, r: Reservation, outcome: LaunchOutcome, env: Ambient)
    ensures var w' := Launch(w, r, outcome, env); Appends(w, w', w'.artifacts)
  {
    hide Found;
    hide Sorted;
    hide RecordTransition;
    hide WithPhase;
  }

  lemma ReproductionAppends(w: World, r: Reservation, status: StatusCode, detail: Text, env: Ambient)
    ensures var w' := ReproductionFailed(w, r, status, detail, env); Appends(w, w', w'.artifacts)
  {
    hide Found;
    hide Sorted;
    hide RecordTransition;
    hide RevokeOutputs;
    hide WithPhase;
  }

  lemma ValidateAppends(w: World, r: Reservation, e: Evidence, env: Ambient)
    ensures var w' := Validate(w, r, e, env); Appends(w, w', w'.artifacts)
  {
    hide Found;
    hide Sorted;
    hide RecordTransition;
    hide SetStates;
    hide AllRegistered;
    hide CloseAttempt;
    hide WithPhase;
  }

  lemma CancelAppends(w: World, session: U64, phase: U64, reason: Text, env: Ambient)
    ensures var w' := CancelPhase(w, session, phase, reason, env); Appends(w, w', w'.artifacts)
  {
    hide Found;
    hide Sorted;
    hide RecordTransition;
    hide RevokeOutputs;
    hide Authority.Revoke;
    hide CloseAttempt;
    hide WithPhase;
    hide Advanced;
    hide RetainsCommitAuthority;
  }

  lemma FailAppends(w: World, session: U64, phase: U64, generation: U64, failure: FailureClass, status: StatusCode, detail: Text, env: Ambient)
    ensures var w' := FailPhase(w, session, phase, generation, failure, status, detail, env); Appends(w, w', w'.artifacts)
  {
    hide Found;
    hide Sorted;
    hide RecordTransition;
    hide RevokeOutputs;
    hide Authority.Revoke;
    hide FailedAttempts;
    hide WithPhase;
    hide Advanced;
    hide RetainsCommitAuthority;
  }

  lemma CreateAppends(w: World, s: CompilerSession, phasesUpTo: U64, env: Ambient)
    ensures var w' := Create(w, s, phasesUpTo, env); Appends(w, w', w'.artifacts)
  {
    hide Found;
    hide Sorted;
    hide NewSession;
    hide HasPhase;
  }

  lemma CloseAppends(w: World, session: U64, env: Ambient)
    ensures var w' := CloseSession(w, session, env); Appends(w, w', w'.artifacts)
  {
    hide Found;
    hide Sorted;
  }

  lemma RetireAppends(w: World, session: U64, reason: Text, env: Ambient)
    ensures var w' := RetireSession(w, session, reason, env); Appends(w, w', w'.artifacts)
  {
    hide Found;
    hide Sorted;
    hide RetiredPhases;
    hide RetiredLeases;
    hide Advanced;
  }

  lemma StateAppends(w: World, session: U64, state: SessionState, detail: Text, env: Ambient)
    ensures var w' := SetSessionState(w, session, state, detail, env); Appends(w, w', w'.artifacts)
  {
    hide Found;
    hide Sorted;
    hide Advanced;
  }

  lemma RecoveryAppends(w: World, session: U64, requiresOperator: bool, steps: seq<Revalidation>, recovery: Ref, env: Ambient)
    ensures var w' := ApplyRecovery(w, session, requiresOperator, steps, recovery, env); Appends(w, w', w'.artifacts)
  {
    hide Found;
    hide Sorted;
    hide RecoveredSession;
    hide RevalidateAll;
    hide AllRevalidate;
    hide StepIds;
  }

  lemma RecordAppends(w: World, r: Reservation, report: Report, env: Ambient)
    requires Current(w, r)
    ensures Appends(w, RecordCurrent(w, r, report, env), RecordCurrent(w, r, report, env).artifacts)
  {
    hide Found;
    hide Sorted;
    hide RecordTransition;
    hide RegisterOutputs;
    hide AttemptIndex;
    hide WithPhase;
  }

  lemma CommitAppends(w: World, r: Reservation, probe: Probe, pub: Publication, env: Ambient)
    ensures var w' := Commit(w, r, probe, pub, env);
            var ids := Publishing(w, r);
            Appends(w, w', if w'.commits != w.commits then Authorized(Stamped(w.artifacts, ids, pub.provenance), ids) else w'.artifacts)
  {
    hide CommitVerdict;
    hide CommittedSession;
    hide Found;
    hide Sorted;
    hide Stamped;
    hide Authorized;
    hide AllMayHold;
    hide NextGenerations;
    hide Refreshed;
    hide FencedForCommit;
    hide StatusOf;
    hide RevokeOutputs;
    hide Authority.Revoke;
    hide CloseAttempt;
    hide WithPhase;
    hide Advanced;
  }

  lemma ApplyAppends(w: World, e: Event)
    ensures Appends(w, Apply(w, e), RecordedStore(w, e))
  {
    hide Appends;
    hide RecordedStore;
    if e.action.DoCommit? {
      hide Apply;
      hide Commit;
      hide Authorized;
      hide Stamped;
      SpecialActions(w, e);
      CommitAppends(w, e.action.r, e.action.probe, e.action.pub, e.env);
      RecordedAtCommit(w, e);
    } else {
      OthersAppend(w, e);
      RecordedElsewhere(w, e);
    }
  }

  lemma RecordedAtCommit(w: World, e: Event)
    requires e.action.DoCommit?
    ensures var w' := Apply(w, e);
            var ids := Publishing(w, e.action.r);
            RecordedStore(w, e) ==
              if w'.commits != w.commits then Authorized(Stamped(w.artifacts, ids, e.action.pub.provenance), ids) else w'.artifacts
  {
    hide Apply;
    hide Authorized;
    hide Stamped;
  }

  lemma RecordedElsewhere(w: World, e: Event)
    requires !e.action.DoCommit?
    ensures RecordedStore(w, e) == Apply(w, e).artifacts
  {
    hide Apply;
  }

  lemma OthersAppend(w: World, e: Event)
    requires !e.action.DoCommit?
    ensures Appends(w, Apply(w, e), Apply(w, e).artifacts)
  {
    hide Appends;
    hide Create;
    hide Reserve;
    hide Launch;
    hide RecordCurrent;
    hide ReproductionFailed;
    hide Validate;
    hide CancelPhase;
    hide FailPhase;
    hide CloseSession;
    hide RetireSession;
    hide SetSessionState;
    hide ApplyRecovery;
    hide PlanFor;
    hide Change;
    hide EvaluateRetry;
    hide FencedSession;
    hide FencedArtifacts;
    hide FencedLeases;
    hide WithPhase;
    NothingAppended(w, w);
    match e.action {
      case DoCreate(newSession, phasesUpTo) => CreateAppends(w, newSession, phasesUpTo, e.env);
      case DoReserve(session, phase, isRetry, workspace) => ReserveAppends(w, session, phase, isRetry, workspace, e.env);
      case DoLaunch(r, outcome) => LaunchAppends(w, r, outcome, e.env);
      case DoRecord(r, report) =>
        if Current(w, r) {
          RecordAppends(w, r, report, e.env);
        }
      case DoReport(session, phase, generation, invocation, report) =>
        if HasRecord(w, session, phase) {
          var r := ReservationFor(w.sessions[session], w.sessions[session].phases[phase]);
          if Current(w, r) {
            RecordAppends(w, r, report, e.env);
          }
        }
      case DoReproductionFailed(r, status, detail) => ReproductionAppends(w, r, status, detail, e.env);
      case DoValidate(r, evidence) => ValidateAppends(w, r, evidence, e.env);
      case DoCancelPhase(session, phase, detail) => CancelAppends(w, session, phase, detail, e.env);
      case DoFailPhase(session, phase, generation, failure, status, detail) =>
        FailAppends(w, session, phase, generation, failure, status, detail, e.env);
      case DoCloseSession(session) => CloseAppends(w, session, e.env);
      case DoRetireSession(session, detail) => RetireAppends(w, session, detail, e.env);
      case DoSetSessionState(session, state, detail) => StateAppends(w, session, state, detail, e.env);
      case DoApplyRecovery(session, requiresOperator, steps, recovery) =>
        RecoveryAppends(w, session, requiresOperator, steps, recovery, e.env);
      case _ => NothingAppended(w, Apply(w, e));
    }
  }

  lemma NothingAppended(w: World, w': World)
    requires w'.log == w.log
    ensures Appends(w, w', w'.artifacts)
  {
  }

  /* ---------- The bundle of a sound session ---------- */

  lemma {:induction false} FoundOnly(t: Store, ids: seq<U64>)
    requires forall id :: id in t.entries ==> t.entries[id].id == id
    ensures forall a :: a in Found(t, ids) ==> a.id in ids && a.id in t.entries && a == t.entries[a.id]
  {
    if ids != [] {
      FoundOnly(t, ids[1..]);
    }
  }

  lemma {:induction false} FoundEach(t: Store, ids: seq<U64>, id: U64)
    requires id in ids && id in t.entries
    ensures t.entries[id] in Found(t, ids)
  {
    if id != ids[0] {
      FoundEach(t, ids[1..], id);
    }
  }

  lemma FoundAll(t: Store, ids: seq<U64>)
    requires forall id :: id in t.entries ==> t.entries[id].id == id
    ensures forall j :: 0 <= j < |Found(t, ids)| ==>
              Found(t, ids)[j].id in ids && Found(t, ids)[j].id in t.entries && Found(t, ids)[j] == t.entries[Found(t, ids)[j].id]
    ensures forall id :: id in ids && id in t.entries ==> exists j :: 0 <= j < |Found(t, ids)| && Found(t, ids)[j].id == id
  {
    hide Found;
    FoundOnly(t, ids);
    var all := Found(t, ids);
    forall id | id in ids && id in t.entries
      ensures exists j :: 0 <= j < |all| && all[j].id == id
    {
      FoundEach(t, ids, id);
      var j :| 0 <= j < |all| && all[j] == t.entries[id];
    }
  }

  lemma FoundPictures(b: Bundle, t: Store)
    requires (forall id :: id in t.entries ==> t.entries[id].id == id) && b.artifacts == Found(t, Sorted(OutputIds(b.session.intermediates)))
    ensures Pictures(b, t)
  {
    hide Found;
    hide Sorted;
    SortedMembers(OutputIds(b.session.intermediates));
    FoundAll(t, Sorted(OutputIds(b.session.intermediates)));
  }

  lemma SortedMembers(ids: seq<U64>)
    ensures forall id :: id in Sorted(ids) <==> id in ids
  {
  }

  /** The registries agree in everything that matters here. */
  ghost predicate Alike(t: Store, u: Store) {
    && t.entries.Keys == u.entries.Keys
    && forall id :: id in t.entries ==> SameMatter(t.entries[id], u.entries[id]) && t.entries[id].state == u.entries[id].state
  }

  lemma PicturesAlike(b: Bundle, t: Store, u: Store)
    requires Pictures(b, t) && Alike(t, u)
    ensures Pictures(b, u)
  {
    forall j | 0 <= j < |b.artifacts|
      ensures b.artifacts[j].id in u.entries && SameMatter(b.artifacts[j], u.entries[b.artifacts[j].id])
    {
      assert SameMatter(t.entries[b.artifacts[j].id], u.entries[b.artifacts[j].id]);
    }
  }

  /** The registry has what the session refers to. */
  ghost predicate Backs(t: Store, s: CompilerSession) {
    && SelfContained(s)
    && (forall a: U64 :: Has(s, a) ==> a in t.entries)
    && (forall p :: p in s.phases ==> RecordOwned(t, s.phases[p]))
  }

  /** The bundle of a session over a sound registry is sound. */
  lemma PictureSound(t: Store, b: Bundle)
    requires StoreSound(t) && Backs(t, b.session) && Pictures(b, t)
    ensures BundleSound(b)
  {
    forall j | 0 <= j < |b.artifacts|
      ensures ArtifactFit(b.artifacts[j])
    {
      assert SameMatter(b.artifacts[j], t.entries[b.artifacts[j].id]);
    }
    forall p | p in b.session.phases
      ensures OutputsStored(b, b.session.phases[p])
    {
      assert RecordOwned(t, b.session.phases[p]);
    }
    forall id: U64 | Stores(b, id)
      ensures Has(b.session, id)
    {
    }
  }

  lemma BacksSession(w: World, id: U64)
    requires ArtifactsSound(w) && Custodial(w) && id in w.sessions
    ensures StoreSound(w.artifacts) && Backs(w.artifacts, w.sessions[id])
  {
    hide StoreSound;
    hide RecordOwned;
    hide SelfContained;
    forall p | p in w.sessions[id].phases
      ensures RecordOwned(w.artifacts, w.sessions[id].phases[p])
    {
      assert HasRecord(w, id, p);
    }
  }

  lemma RecordedAlike(w: World, e: Event)
    ensures Alike(RecordedStore(w, e), Apply(w, e).artifacts)
  {
    hide Appends;
    hide Commit;
    hide Authorized;
    hide Stamped;
    var w' := Apply(w, e);
    if e.action.DoCommit? && w'.commits != w.commits {
      CommitAlike(w, e.action.r, e.action.probe, e.action.pub, e.env);
    } else {
      hide Apply;
    }
  }

  lemma CommitAlike(w: World, r: Reservation, probe: Probe, pub: Publication, env: Ambient)
    requires Commit(w, r, probe, pub, env).commits != w.commits
    ensures Alike(Authorized(Stamped(w.artifacts, Publishing(w, r), pub.provenance), Publishing(w, r)), Commit(w, r, probe, pub, env).artifacts)
  {
    hide CommitVerdict;
    hide CommittedSession;
    hide BundleOf;
    hide Stamped;
    hide Authorized;
    hide AllMayHold;
    hide NextGenerations;
    hide Refreshed;
    hide FencedForCommit;
    hide StatusOf;
    hide RevokeOutputs;
    hide Authority.Revoke;
    hide CloseAttempt;
    hide WithPhase;
    hide Advanced;
    hide Alike;
    var ids := Publishing(w, r);
    var t := Authorized(Stamped(w.artifacts, ids, pub.provenance), ids);
    NextAlike(t, ids);
  }

  lemma NextAlike(t: Store, ids: seq<U64>)
    ensures Alike(t, NextGenerations(t, ids)) && Alike(t, t)
  {
  }

  /* ---------- Actions other than reports ---------- */

  /** Sessions hold what they held; newcomers hold nothing. */
  ghost predicate SameHoldings(w: World, w': World) {
    && (forall id :: id in w.sessions ==> id in w'.sessions && w'.sessions[id].intermediates == w.sessions[id].intermediates)
    && (forall id :: id in w'.sessions && id !in w.sessions ==> w'.sessions[id].intermediates == [])
  }

  lemma ReserveHoldings(w: World, session: U64, phase: U64, isRetry: bool, workspace: bool, env: Ambient)
    requires Sound(w)
    ensures SameHoldings(w, Reserve(w, session, phase, isRetry, workspace, env))
  {
    hide Sound;
    hide Reservable;
    hide ReservedRecord;
    hide ResolveInputs;
    hide BundleOf;
    hide Authority.Grant;
    if Reservable(w, session, phase, isRetry) && workspace {
      ReserveGrants(w, session, phase, isRetry, env);
    }
  }

  lemma StepHoldings(w: World, e: Event, w': World)
    requires Sound(w) && Step(w, e, w') && CauseOf(e.action) != Reporting
    ensures SameHoldings(w, w')
  {
    hide Sound;
    hide Apply;
    hide Reserve;
    hide Create;
    hide NewSession;
    var a := e.action;
    SpecialActions(w, e);
    if a.DoReserve? {
      ReserveHoldings(w, a.session, a.phase, a.isRetry, a.workspace, e.env);
    } else if a.DoCreate? {
      CreateShape(w, a.newSession, a.phasesUpTo, e.env);
      if NewSession(w, a.newSession) {
        NewHoldsNothing(w, a.newSession);
      }
    } else if !a.DoBeginCommit? {
      ApplyContinues(w, e);
      forall id | id in w.sessions
        ensures w'.sessions[id].intermediates == w.sessions[id].intermediates
      {
        assert SessionContinues(w.sessions[id], w'.sessions[id], CauseOf(a));
      }
    }
  }

  /** The actions that do more than continue the sessions that are there. */
  lemma SpecialActions(w: World, e: Event)
    ensures var a := e.action;
            && (a.DoReserve? ==> Apply(w, e) == Reserve(w, a.session, a.phase, a.isRetry, a.workspace, e.env))
            && (a.DoCreate? ==> Apply(w, e) == Create(w, a.newSession, a.phasesUpTo, e.env))
            && (a.DoGrantRetry? ==> Apply(w, e) == GrantRetry(w, a.session, a.phase))
            && (a.DoCommit? ==> Apply(w, e) == Commit(w, a.r, a.probe, a.pub, e.env))
            && (a.DoBeginCommit? ==> Apply(w, e).sessions == w.sessions)
  {
    hide Reserve;
    hide Create;
    hide GrantRetry;
    hide Commit;
  }

  lemma NewHoldsNothing(w: World, s: CompilerSession)
    requires NewSession(w, s)
    ensures s.intermediates == []
  {
    hide IsPlan;
    hide InitialRecord;
    hide Runtime.Registered;
  }

  lemma {:induction false} ProducedHeld(s: CompilerSession, deps: seq<U64>)
    requires SelfContained(s)
    ensures forall id :: id in ProducedIds(s, deps) ==> Has(s, id)
  {
    if deps != [] {
      ProducedHeld(s, deps[1..]);
      if deps[0] in s.phases {
        assert PhaseHeld(s, s.phases[deps[0]]);
      }
    }
  }

  lemma ResolvedHeld(w: World, s: CompilerSession, p: PhaseRecord)
    requires SelfContained(s) && ResolveInputs(w, s, p).Some?
    ensures forall k :: 0 <= k < |ResolveInputs(w, s, p).value| ==> Has(s, ResolveInputs(w, s, p).value[k].id)
  {
    hide SelfContained;
    var node := s.plan.nodes[IndexOfId(s.plan.nodes, p.id)];
    ProducedHeld(s, node.dependsOn);
    var sorted := SortedUnique(ProducedIds(s, node.dependsOn));
    assert forall k :: 0 <= k < |sorted| ==> sorted[k] in sorted;
  }

  /** A phase of a session that holds the same still refers to its own session only. */
  lemma ContinuesHeld(s: CompilerSession, t: CompilerSession, p: PhaseRecord, q: PhaseRecord, cause: Cause)
    requires PhaseHeld(s, p) && t.intermediates == s.intermediates && Continues(p, q, cause) && cause != Reporting
    ensures PhaseHeld(t, q)
  {
  }

  lemma ReservedHeld(w: World, session: U64, phase: U64, isRetry: bool, workspace: bool, env: Ambient)
    requires Sound(w) && HasRecord(w, session, phase) && SelfContained(w.sessions[session])
    ensures var w' := Reserve(w, session, phase, isRetry, workspace, env);
            HasRecord(w', session, phase) && PhaseHeld(w'.sessions[session], w'.sessions[session].phases[phase])
  {
    hide Sound;
    hide Reserve;
    hide Reservable;
    hide SelfContained;
    hide ResolveInputs;
    hide ReservedRecord;
    hide ReservedSession;
    hide Has;
    var w' := Reserve(w, session, phase, isRetry, workspace, env);
    ReserveHoldings(w, session, phase, isRetry, workspace, env);
    SameHas(w, w', session);
    OwnHeld(w.sessions[session], phase);
    if Reservable(w, session, phase, isRetry) && workspace {
      ReserveGrants(w, session, phase, isRetry, env);
      ReservedRecordFacts(w, session, phase, isRetry, env.now);
      ResolvedHeld(w, w.sessions[session], w.sessions[session].phases[phase]);
    } else {
      Unreserved(w, session, phase, isRetry, workspace, env);
    }
  }

  lemma Unreserved(w: World, session: U64, phase: U64, isRetry: bool, workspace: bool, env: Ambient)
    requires !(Reservable(w, session, phase, isRetry) && workspace)
    ensures Reserve(w, session, phase, isRetry, workspace, env).sessions == w.sessions
  {
    hide Reservable;
    hide ReservedSession;
  }

  lemma SameHas(w: World, w': World, id: U64)
    requires SameHoldings(w, w') && id in w.sessions
    ensures forall a :: Has(w'.sessions[id], a) <==> Has(w.sessions[id], a)
  {
  }

  lemma OwnHeld(s: CompilerSession, p: U64)
    requires SelfContained(s) && p in s.phases
    ensures PhaseHeld(s, s.phases[p])
  {
  }

  /** Actions other than reports keep every artifact where it belongs. */
  lemma UnreportedCustody(w: World, e: Event, w': World)
    requires Sound(w) && BindingsSound(w) && Custodial(w) && Step(w, e, w') && CauseOf(e.action) != Reporting
    ensures Custodial(w')
  {
    hide Sound;
    hide BindingsSound;
    hide Apply;
    hide SelfContained;
    hide Authorizes;
    ApplyStore(w, e);
    AuthorizedKeys(w.artifacts, w'.artifacts, if e.action.DoCommit? then Publishing(w, e.action.r) else []);
    StepHoldings(w, e, w');
    forall id | id in w'.sessions
      ensures SelfContained(w'.sessions[id])
    {
      StepSelfContained(w, e, w', id);
    }
    hide Custodial;
    hide SameHoldings;
    StillCustodial(w, w');
  }

  lemma StillCustodial(w: World, w': World)
    requires Custodial(w) && SameHoldings(w, w') && w'.artifacts.entries.Keys == w.artifacts.entries.Keys
    requires forall id :: id in w'.sessions ==> SelfContained(w'.sessions[id])
    ensures Custodial(w')
  {
    hide SelfContained;
    forall id, a: U64 | id in w'.sessions && Has(w'.sessions[id], a)
      ensures id in w.sessions && Has(w.sessions[id], a)
    {
    }
    forall a | a in w'.artifacts.entries
      ensures exists id :: id in w'.sessions && Has(w'.sessions[id], a)
    {
      var id :| id in w.sessions && Has(w.sessions[id], a);
      assert Has(w'.sessions[id], a);
    }
  }

  lemma AuthorizedKeys(t: Store, u: Store, ids: seq<U64>)
    requires Authorizes(t, u, ids)
    ensures t.entries.Keys == u.entries.Keys
  {
  }

  lemma StepSelfContained(w: World, e: Event, w': World, id: U64)
    requires Sound(w) && BindingsSound(w) && Custodial(w) && Step(w, e, w') && CauseOf(e.action) != Reporting
    requires SameHoldings(w, w') && id in w'.sessions
    ensures SelfContained(w'.sessions[id])
  {
    hide Sound;
    hide BindingsSound;
    hide Apply;
    hide Reserve;
    hide Forward;
    hide Continues;
    hide Reserved;
    hide PhaseHeld;
    hide Has;
    var a := e.action;
    StepBlank(w, e, w');
    ApplyBindings(w, e);
    SpecialActions(w, e);
    forall p | p in w'.sessions[id].phases
      ensures PhaseHeld(w'.sessions[id], w'.sessions[id].phases[p])
    {
      if !HasRecord(w, id, p) {
        BlankHeld(w'.sessions[id], w'.sessions[id].phases[p]);
      } else if a.DoReserve? && a.session == id && a.phase == p {
        ReservedHeld(w, id, p, a.isRetry, a.workspace, e.env);
      } else {
        assert PhaseHeld(w.sessions[id], w.sessions[id].phases[p]);
        ContinuesHeld(w.sessions[id], w'.sessions[id], w.sessions[id].phases[p], w'.sessions[id].phases[p], CauseOf(a));
      }
    }
  }

  lemma BlankHeld(s: CompilerSession, p: PhaseRecord)
    requires p.inputs == [] && p.outputs == []
    ensures PhaseHeld(s, p)
  {
  }

  /* ---------- Reports ---------- */

  lemma ReportSelfContained(s: CompilerSession, t: CompilerSession, q: PhaseRecord, refs: seq<Ref>)
    requires SelfContained(s) && q.id in s.phases && t.phases == s.phases[q.id := q] && t.intermediates == s.intermediates + refs
    requires q.inputs == s.phases[q.id].inputs && q.outputs == s.phases[q.id].outputs + refs
    ensures SelfContained(t)
    ensures forall a :: Has(t, a) <==> Has(s, a) || exists k :: 0 <= k < |refs| && refs[k].id == a
  {
    HasMore(s, t, refs);
    hide Has;
    forall p | p in t.phases
      ensures PhaseHeld(t, t.phases[p])
    {
      assert PhaseHeld(s, s.phases[p]);
    }
  }

  lemma HasMore(s: CompilerSession, t: CompilerSession, refs: seq<Ref>)
    requires t.intermediates == s.intermediates + refs
    ensures forall a :: Has(t, a) <==> Has(s, a) || exists k :: 0 <= k < |refs| && refs[k].id == a
  {
    var n := |s.intermediates|;
    forall a: U64 | Has(s, a)
      ensures Has(t, a)
    {
      var k :| 0 <= k < n && OutputIds(s.intermediates)[k] == a;
      assert OutputIds(t.intermediates)[k] == a;
    }
    forall k | 0 <= k < |refs|
      ensures Has(t, refs[k].id)
    {
      assert OutputIds(t.intermediates)[n + k] == refs[k].id;
    }
    forall a: U64 | Has(t, a)
      ensures Has(s, a) || exists k :: 0 <= k < |refs| && refs[k].id == a
    {
      var k :| 0 <= k < |t.intermediates| && OutputIds(t.intermediates)[k] == a;
      if k < n {
        assert OutputIds(s.intermediates)[k] == a;
      } else {
        assert refs[k - n].id == a;
      }
    }
  }

  lemma ReportsCustody(w: World, w': World, session: U64, t: CompilerSession, q: PhaseRecord, refs: seq<Ref>)
    requires Custodial(w) && Below(w.artifacts) && Reports(w, w', session, t, q, refs)
    ensures Custodial(w') && HoldingsGrow(w, w')
  {
    hide Custodial;
    hide Below;
    hide Reports;
    hide Adds;
    hide Registers;
    hide HoldingsGrow;
    hide SelfContained;
    ReportsAdd(w, w', session, t, q, refs);
    AddsCustody(w, w', session, t, refs);
  }

  lemma ReportsAdd(w: World, w': World, session: U64, t: CompilerSession, q: PhaseRecord, refs: seq<Ref>)
    requires Custodial(w) && Below(w.artifacts) && Reports(w, w', session, t, q, refs)
    ensures Adds(w, w', session, t, refs) && SelfContained(t) && Registers(w, w', refs)
  {
    hide SelfContained;
    hide Has;
    ReportSelfContained(w.sessions[session], t, q, refs);
  }

  /** The new artifacts, and no others, are registered. */
  ghost predicate Registers(w: World, w': World, refs: seq<Ref>) {
    && (forall k :: 0 <= k < |refs| ==> refs[k].id !in w.artifacts.entries && refs[k].id in w'.artifacts.entries)
    && (forall a :: a in w.artifacts.entries ==> a in w'.artifacts.entries)
    && (forall a :: a in w'.artifacts.entries && a !in w.artifacts.entries ==> exists k :: 0 <= k < |refs| && refs[k].id == a)
  }

  lemma AddsCustody(w: World, w': World, session: U64, t: CompilerSession, refs: seq<Ref>)
    requires Custodial(w) && Adds(w, w', session, t, refs) && SelfContained(t) && Registers(w, w', refs)
    ensures Custodial(w') && HoldingsGrow(w, w')
  {
    hide SelfContained;
    hide Has;
    ReportsApart(w, w', session, t, refs);
    ReportsHeld(w, w', session, t, refs);
    assert forall id :: id in w'.sessions ==> SelfContained(w'.sessions[id]);
    assert forall id, a: U64 :: id in w'.sessions && Has(w'.sessions[id], a) ==> a in w'.artifacts.entries;
  }

  /** The session that was reported on holds the new artifacts besides its own. */
  ghost predicate Adds(w: World, w': World, session: U64, t: CompilerSession, refs: seq<Ref>) {
    && session in w.sessions && w'.sessions == w.sessions[session := t]
    && forall a :: Has(t, a) <==> Has(w.sessions[session], a) || exists k :: 0 <= k < |refs| && refs[k].id == a
  }

  lemma ReportsApart(w: World, w': World, session: U64, t: CompilerSession, refs: seq<Ref>)
    requires Custodial(w) && Adds(w, w', session, t, refs) && Registers(w, w', refs)
    ensures forall i, j, a: U64 :: i in w'.sessions && j in w'.sessions && Has(w'.sessions[i], a) && Has(w'.sessions[j], a) ==> i == j
  {
    hide SelfContained;
    hide Has;
  }

  lemma ReportsHeld(w: World, w': World, session: U64, t: CompilerSession, refs: seq<Ref>)
    requires Custodial(w) && Adds(w, w', session, t, refs) && Registers(w, w', refs)
    ensures forall a :: a in w'.artifacts.entries ==> exists id :: id in w'.sessions && Has(w'.sessions[id], a)
  {
    hide SelfContained;
    hide Has;
    forall a | a in w'.artifacts.entries
      ensures exists id :: id in w'.sessions && Has(w'.sessions[id], a)
    {
      if a in w.artifacts.entries {
        var id :| id in w.sessions && Has(w.sessions[id], a);
        assert Has(w'.sessions[id], a);
      } else {
        assert Has(w'.sessions[session], a);
      }
    }
  }

  lemma ReportCustody(w: World, r: Reservation, report: Report, env: Ambient)
    requires Sound(w) && ArtifactsSound(w) && Custodial(w) && Current(w, r)
    requires RecordCurrent(w, r, report, env).artifacts.next < MAX_COUNTER
    ensures var w' := RecordCurrent(w, r, report, env);
            Custodial(w') && HoldingsGrow(w, w')
  {
    hide Sound;
    hide Custodial;
    hide RecordCurrent;
    hide RecordOwned;
    RecordReports(w, r, report, env);
    var w' := RecordCurrent(w, r, report, env);
    if w' != w {
      hide Extends;
      var t, q, refs :| Reports(w, w', r.session, t, q, refs);
      ReportsCustody(w, w', r.session, t, q, refs);
    }
  }

  /* ---------- Every action ---------- */

  ghost predicate HoldingsGrow(w: World, w': World) {
    && (forall id :: id in w.sessions ==> id in w'.sessions)
    && forall id, a: U64 :: id in w.sessions && Has(w.sessions[id], a) ==> Has(w'.sessions[id], a)
  }

  lemma StepCustodial(w: World, e: Event, w': World)
    requires Sound(w) && BindingsSound(w) && ArtifactsSound(w) && Custodial(w) && Step(w, e, w')
    requires w'.artifacts.next < MAX_COUNTER
    ensures Custodial(w') && HoldingsGrow(w, w')
  {
    hide Sound;
    hide BindingsSound;
    hide ArtifactsSound;
    hide Custodial;
    hide Apply;
    if CauseOf(e.action) == Reporting {
      ReportIs(w, e);
      hide Has;
      if r :| Current(w, r) && Apply(w, e) == RecordCurrent(w, r, e.action.report, e.env) {
        hide RecordCurrent;
        ReportCustody(w, r, e.action.report, e.env);
      }
    } else {
      UnreportedCustody(w, e, w');
      StepHoldings(w, e, w');
    }
  }

  lemma ReportIs(w: World, e: Event)
    requires CauseOf(e.action) == Reporting
    ensures Apply(w, e) == w || exists r :: Current(w, r) && Apply(w, e) == RecordCurrent(w, r, e.action.report, e.env)
  {
    hide RecordCurrent;
    var a := e.action;
    if a.DoRecord? {
      if a.r in w.issued && Current(w, a.r) {
        assert Apply(w, e) == RecordCurrent(w, a.r, a.report, e.env);
      }
    } else if HasRecord(w, a.session, a.phase) {
      var r := ReservationFor(w.sessions[a.session], w.sessions[a.session].phases[a.phase]);
      assert Current(w, r) ==> Apply(w, e) == w || Apply(w, e) == RecordCurrent(w, r, a.report, e.env);
    }
  }

  /** The journal goes on holding sound bundles of what the sessions hold. */
  lemma StepLogCustodial(w: World, e: Event, w': World)
    requires Step(w, e, w') && LogCustodial(w) && HoldingsGrow(w, w') && Custodial(w') && ArtifactsSound(w')
    requires w'.artifacts.next < MAX_COUNTER
    ensures LogCustodial(w')
  {
    hide Apply;
    hide Custodial;
    hide BundleSound;
    hide Has;
    hide RecordedStore;
    hide Alike;
    hide Pictures;
    hide Found;
    hide Sorted;
    hide RecordOwned;
    hide Backs;
    hide HoldsAll;
    ApplyAppends(w, e);
    forall i | 0 <= i < |w.log|
      ensures w.log[i].session.id in w'.sessions && HoldsAll(w.log[i].session, w'.sessions[w.log[i].session.id])
    {
      HoldsOn(w, w', w.log[i].session);
    }
    if w'.log != w.log {
      var n := |w.log|;
      var b := w'.log[n];
      var t := RecordedStore(w, e);
      RecordedAlike(w, e);
      AlikeBelow(t, w'.artifacts);
      FoundPictures(b, t);
      PicturesAlike(b, t, w'.artifacts);
      BacksSession(w', b.session.id);
      PictureSound(w'.artifacts, b);
      HoldsSelf(b.session);
      assert forall i :: 0 <= i < n ==> w'.log[i] == w'.log[..n][i] == w.log[i];
    }
  }

  lemma HoldsOn(w: World, w': World, s: CompilerSession)
    requires HoldingsGrow(w, w') && s.id in w.sessions && HoldsAll(s, w.sessions[s.id])
    ensures s.id in w'.sessions && HoldsAll(s, w'.sessions[s.id])
  {
  }

  lemma HoldsSelf(s: CompilerSession)
    ensures HoldsAll(s, s)
  {
  }

  lemma AlikeBelow(t: Store, u: Store)
    requires Alike(t, u) && forall id :: id in u.entries ==> u.entries[id].id == id
    ensures forall id :: id in t.entries ==> t.entries[id].id == id
  {
    forall id | id in t.entries
      ensures t.entries[id].id == id
    {
      assert SameMatter(t.entries[id], u.entries[id]);
    }
  }

  lemma StepCustody(w: World, e: Event, w': World)
    requires Sound(w) && BindingsSound(w) && ArtifactsSound(w) && CustodySound(w) && Step(w, e, w')
    requires w'.artifacts.next < MAX_COUNTER
    ensures CustodySound(w')
  {
    hide Sound;
    hide BindingsSound;
    hide ArtifactsSound;
    hide Custodial;
    hide LogCustodial;
    hide Apply;
    hide HoldingsGrow;
    StepArtifacts(w, e, w');
    StepCustodial(w, e, w');
    StepLogCustodial(w, e, w');
  }
}
