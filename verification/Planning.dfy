/** Planning a recovery (src/core/recovery.cpp:120-210, under the runtime lock in
    src/core/runtime.cpp:1277-1305), and what a plan that is applied later still says. */
module Planning {
  import opened StrongId
  import opened Bytes
  import opened Wrappers
  import opened Phases
  import opened PhasePlans
  import opened Ancestry
  import opened Sessions
  import opened Sorting
  import opened Runtime
  import opened Evolution
  import opened Guarantees
  import opened Restarts
  import opened Lives
  import Authority
  import Artifacts
  import Recovery
  import Custody

  /* ---------- The planner ---------- */

  method CollectRecords(s: CompilerSession) returns (phases: seq<PhaseRecord>)
    ensures phases == RecordsOf(s, s.plan.order)
  {
    phases := [];
    var order := s.plan.order;
    var i := 0;
    assert order[0..] == order && [] + RecordsOf(s, order) == RecordsOf(s, order);
    while i < |order|
      invariant 0 <= i <= |order| && phases + RecordsOf(s, order[i..]) == RecordsOf(s, order)
    {
      assert order[i..][1..] == order[i + 1..];
      if order[i] in s.phases {
        Regrouped(phases, [s.phases[order[i]]], RecordsOf(s, order[i + 1..]));
        phases := phases + [s.phases[order[i]]];
      } else {
        assert [] + RecordsOf(s, order[i + 1..]) == RecordsOf(s, order[i + 1..]);
      }
      i := i + 1;
    }
    assert order[i..] == [] && phases + [] == phases;
  }

  lemma Regrouped<T>(a: seq<T>, b: seq<T>, c: seq<T>)
    ensures a + (b + c) == (a + b) + c
  {
  }

  method SuspectOutputs(store: Artifacts.Store, ids: seq<U64>, found: seq<U64>) returns (suspects: seq<U64>)
    ensures suspects == found + SuspectIds(store, ids)
  {
    suspects := found;
    var i := 0;
    assert ids[0..] == ids;
    while i < |ids|
      invariant 0 <= i <= |ids| && suspects + SuspectIds(store, ids[i..]) == found + SuspectIds(store, ids)
    {
      assert ids[i..][1..] == ids[i + 1..];
      if ids[i] !in store.entries || store.entries[ids[i]].authority != Artifacts.Authoritative {
        Regrouped(suspects, [ids[i]], SuspectIds(store, ids[i + 1..]));
        suspects := suspects + [ids[i]];
      } else {
        assert [] + SuspectIds(store, ids[i + 1..]) == SuspectIds(store, ids[i + 1..]);
      }
      i := i + 1;
    }
    assert ids[i..] == [] && suspects + [] == suspects;
  }

  method FindSuspects(store: Artifacts.Store, phases: seq<PhaseRecord>) returns (suspects: seq<U64>)
    ensures suspects == Suspects(store, phases)
  {
    hide SuspectIds;
    suspects := [];
    var i := 0;
    assert phases[0..] == phases && [] + Suspects(store, phases) == Suspects(store, phases);
    while i < |phases|
      invariant 0 <= i <= |phases| && suspects + Suspects(store, phases[i..]) == Suspects(store, phases)
    {
      assert phases[i..][1..] == phases[i + 1..];
      var rest := Suspects(store, phases[i + 1..]);
      if phases[i].state == Committed {
        var ids := OutputIds(phases[i].outputs);
        Regrouped(suspects, SuspectIds(store, ids), rest);
        suspects := SuspectOutputs(store, ids, suspects);
      } else {
        assert [] + rest == rest;
      }
      i := i + 1;
    }
    assert phases[i..] == [] && suspects + [] == suspects;
  }

  /** RecoveryPlanner::plan. An operator is asked for exactly when the phase to restart from has
      FAILED with an unknown outcome. */
  method MakePlan(w: World, s: CompilerSession) returns (plan: RecoveryPlan, boundary: Option<U64>)
    requires IsPlan(s.plan)
    ensures plan == PlanFor(w, s)
    ensures boundary.Some? ==> IsMandatory(s.plan.nodes, boundary.value)
    ensures plan.requiresOperator <==> AwaitsOperator(RecordsOf(s, s.plan.order), boundary)
  {
    hide IsPlan;
    hide IsMandatory;
    hide Authority.Compare;
    hide DependsOn;
    var phases := CollectRecords(s);
    var suspects := FindSuspects(w.artifacts, phases);
    var now := Runtime.Observe(w.domains, s, s.generation, s.attemptGeneration, 0, ABSENT, true);
    boundary := Recovery.RestartPhase(s.plan, phases, now);
    var requiresOperator := false;
    if boundary.Some? {
      var found := Recovery.FindPhase(phases, boundary.value);
      requiresOperator := found.Some? && found.value.state == Failed && found.value.failure == UnknownOutcome;
    }
    plan := RecoveryPlan(s.id, requiresOperator, suspects);
  }

  /** The committed phase produced the artifact, which is not authoritative now. */
  ghost predicate Suspected(t: Artifacts.Store, p: PhaseRecord, id: U64) {
    p.state == Committed && id in OutputIds(p.outputs) && !(id in t.entries && t.entries[id].authority == Artifacts.Authoritative)
  }

  lemma {:induction false} SuspectIdsExactly(t: Artifacts.Store, ids: seq<U64>, id: U64)
    ensures id in SuspectIds(t, ids) <==> id in ids && !(id in t.entries && t.entries[id].authority == Artifacts.Authoritative)
  {
    if ids != [] {
      SuspectIdsExactly(t, ids[1..], id);
      assert ids == [ids[0]] + ids[1..];
    }
  }

  /** What is hashed again: every output of a committed phase that is not authoritative. */
  lemma {:induction false} SuspectsExactly(t: Artifacts.Store, phases: seq<PhaseRecord>, id: U64)
    ensures id in Suspects(t, phases) <==> exists p :: p in phases && Suspected(t, p, id)
  {
    hide SuspectIds;
    if phases != [] {
      SuspectsExactly(t, phases[1..], id);
      SuspectIdsExactly(t, OutputIds(phases[0].outputs), id);
      assert phases == [phases[0]] + phases[1..];
      assert phases[0] in phases;
    }
  }

  /* ---------- Plans that wait to be applied ---------- */

  lemma RecordPlans(w: World, r: Reservation, report: Report, env: Ambient)
    requires Current(w, r)
    ensures RecordCurrent(w, r, report, env).plans == w.plans
  {
    hide BundleOf;
    hide RecordTransition;
    hide RegisterOutputs;
    hide AttemptIndex;
    hide WithPhase;
  }

  lemma CommitPlans(w: World, r: Reservation, probe: Probe, pub: Publication, env: Ambient)
    ensures Commit(w, r, probe, pub, env).plans == w.plans
  {
    hide CommitVerdict;
    hide CommittedSession;
    hide BundleOf;
    hide FencedForCommit;
    hide StatusOf;
    hide Stamped;
    hide Authorized;
    hide AllMayHold;
    hide NextGenerations;
  }

  lemma SessionActionPlans(w: World, e: Event)
    requires WholeSession(e.action) && !e.action.DoPlanRecovery? && !e.action.DoApplyRecovery?
    ensures Apply(w, e).plans == w.plans
  {
    hide Reserve;
    hide Launch;
    hide NoteProcess;
    hide RecordExecution;
    hide ReportOutput;
    hide ReproductionFailed;
    hide Validate;
    hide Commit;
    hide CancelPhase;
    hide FailPhase;
    hide BeginCommit;
    hide BundleOf;
    hide EvaluateRetry;
    hide FencedSession;
    hide FencedArtifacts;
    hide FencedLeases;
    hide RetiredPhases;
    hide RetiredLeases;
    hide ApplyRecovery;
    hide PlanRecovery;
    hide Change;
    hide NewSession;
    hide Advanced;
  }

  lemma RecoveryPlans(w: World, e: Event)
    requires e.action.DoPlanRecovery? || e.action.DoApplyRecovery?
    ensures e.action.DoPlanRecovery? ==> Apply(w, e).plans == PlanRecovery(w, e.action.session).plans
    ensures e.action.DoApplyRecovery? ==> Apply(w, e).plans <= w.plans
  {
    hide BundleOf;
    hide RecoveredSession;
    hide RevalidateAll;
    hide AllRevalidate;
    hide StepIds;
    hide PlanFor;
  }

  lemma PhaseActionPlans(w: World, e: Event)
    requires !WholeSession(e.action) && !e.action.DoCommit? && !e.action.DoRecord? && !e.action.DoReport?
    ensures Apply(w, e).plans == w.plans
  {
    hide Create;
    hide GrantRetry;
    hide FenceSession;
    hide CloseSession;
    hide RetireSession;
    hide SetSessionState;
    hide ApplyRecovery;
    hide Commit;
    hide RecordExecution;
    hide ReportOutput;
    hide BundleOf;
    hide RecordTransition;
    hide SetStates;
    hide AllRegistered;
    hide Artifacts.RevokeOutputs;
    hide Authority.Revoke;
    hide Reservable;
    hide ReservedSession;
    hide ReservedRecord;
    hide ResolveInputs;
    hide CloseAttempt;
    hide WithPhase;
    hide Advanced;
  }

  lemma ReportPlans(w: World, e: Event)
    requires e.action.DoRecord? || e.action.DoReport?
    ensures Apply(w, e).plans == w.plans
  {
    hide RecordCurrent;
    var a := e.action;
    if a.DoRecord? {
      if Current(w, a.r) {
        RecordPlans(w, a.r, a.report, e.env);
      }
    } else if HasRecord(w, a.session, a.phase) {
      var r := ReservationFor(w.sessions[a.session], w.sessions[a.session].phases[a.phase]);
      if Current(w, r) {
        RecordPlans(w, r, a.report, e.env);
      }
    }
  }

  /** A new plan is one the planner made of the state it was made in. */
  lemma NewPlan(w: World, e: Event, w': World, plan: RecoveryPlan)
    requires Step(w, e, w') && plan in w'.plans && plan !in w.plans
    ensures e.action.DoPlanRecovery? && e.action.session in w.sessions && plan == PlanFor(w, w.sessions[e.action.session])
  {
    hide Apply;
    hide PlanFor;
    var a := e.action;
    if a.DoCommit? {
      hide Commit;
      Custody.SpecialActions(w, e);
      CommitPlans(w, a.r, a.probe, a.pub, e.env);
    } else if a.DoRecord? || a.DoReport? {
      ReportPlans(w, e);
    } else if a.DoPlanRecovery? || a.DoApplyRecovery? {
      RecoveryPlans(w, e);
    } else if WholeSession(a) {
      SessionActionPlans(w, e);
    } else {
      PhaseActionPlans(w, e);
    }
  }

  lemma {:induction false} ResumeAllPlans(w: World, log: seq<Bundle>, ids: seq<U64>, r: Restart)
    requires forall id :: id in ids ==> id in w.sessions && w.sessions[id].id == id && LastIndex(log, id) < |log|
    ensures ResumeAll(w, log, ids, r).plans == w.plans
    decreases |ids|
  {
    hide LastIndex;
    hide RestartedSession;
    hide LoadArtifacts;
    hide FencedArtifacts;
    hide BundleOf;
    if ids != [] {
      var id := ids[0];
      assert ids == [id] + ids[1..];
      var u := Resume(w, id, log[LastIndex(log, id)].artifacts, r.epoch, r.now, if id in r.extras then r.extras[id] else NO_EXTRAS);
      ResumedKeys(w.sessions[id], r.epoch, r.now);
      ResumeAllPlans(u, log, ids[1..], r);
    }
  }

  lemma ResumedKeys(s: CompilerSession, epoch: U64, now: U64)
    ensures RestartedSession(s, epoch, now).id == s.id
  {
    hide FencedPhases;
  }

  /** No plan outlives its process. */
  lemma RestartDropsPlans(w: World, r: Restart)
    requires Positions(r.kept, |w.log|)
    ensures Restarted(w, r).plans == multiset{}
  {
    hide LastIndex;
    hide ResumeAll;
    hide Resurfaced;
    var bundles := Kept(w.log, r.kept);
    var v := Reloaded(bundles, Resurfaced(w.commits, w.log, r.kept), r.domains);
    ResumeAllPlans(v, bundles, LoggedIds(bundles), r);
  }

  /** Whatever apply_recovery uses up was planned earlier in the same epoch, so that it asks for an
      operator only if then the phase to restart from had FAILED with an unknown outcome. */
  lemma {:induction false} PlannedEarlier(worlds: seq<World>, moments: seq<Moment>, k: nat, plan: RecoveryPlan) returns (i: nat)
    requires LifeUpTo(worlds, moments, k) && plan in worlds[k].plans
    ensures i < k && SameEpoch(moments, i, k) && moments[i].event.action.DoPlanRecovery?
    ensures var session := moments[i].event.action.session;
            && session in worlds[i].sessions && plan == PlanFor(worlds[i], worlds[i].sessions[session])
            && (plan.requiresOperator ==> exists p ::
                  p in worlds[i].sessions[session].phases.Values && p.state == Failed && p.failure == UnknownOutcome)
    decreases k
  {
    hide Step;
    hide PlanFor;
    hide Restarted;
    assert k > 0;
    assert Follows(worlds[k - 1], moments[k - 1], worlds[k - 1 + 1]);
    match moments[k - 1] {
      case Acts(event) =>
        if plan in worlds[k - 1].plans {
          i := PlannedEarlier(worlds, moments, k - 1, plan);
        } else {
          i := k - 1;
          NewPlan(worlds[k - 1], event, worlds[k], plan);
          OperatorNeeded(worlds[k - 1], worlds[k - 1].sessions[event.action.session]);
        }
      case Crashes(restart) =>
        RestartDropsPlans(worlds[k - 1], restart);
        assert false;
    }
  }

  lemma OperatorNeeded(w: World, s: CompilerSession)
    ensures PlanFor(w, s).requiresOperator ==> exists p :: p in s.phases.Values && p.state == Failed && p.failure == UnknownOutcome
  {
    hide Recovery.Boundary;
    hide Suspects;
    var phases := RecordsOf(s, s.plan.order);
    var now := Runtime.Observe(w.domains, s, s.generation, s.attemptGeneration, 0, ABSENT, true);
    var boundary := Recovery.Boundary(s.plan, phases, now, s.plan.order);
    if AwaitsOperator(phases, boundary) {
      FoundAmong(phases, boundary.value);
      RecordsAre(s, s.plan.order, Recovery.FindPhase(phases, boundary.value).value);
    }
  }

  lemma {:induction false} FoundAmong(phases: seq<PhaseRecord>, id: U64)
    ensures Recovery.FindPhase(phases, id).Some? ==> Recovery.FindPhase(phases, id).value in phases
  {
    if phases != [] && phases[0].id != id {
      FoundAmong(phases[1..], id);
    }
  }

  lemma {:induction false} RecordsAre(s: CompilerSession, order: seq<U64>, p: PhaseRecord)
    requires p in RecordsOf(s, order)
    ensures p in s.phases.Values
  {
    if !(order[0] in s.phases && p == s.phases[order[0]]) {
      RecordsAre(s, order[1..], p);
    }
  }
}
