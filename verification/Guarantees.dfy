/** What the runtime promises over every run, in any interleaving and with any answers from the
    outside. */
module Guarantees {
  import opened StrongId
  import opened Bytes
  import opened Wrappers
  import opened Phases
  import opened PhasePlans
  import opened Ancestry
  import opened Sessions
  import opened Registries
  import opened Runtime
  import opened Evolution
  import opened Safety
  import opened Bindings
  import Authority
  import Artifacts

  /* ---------- Only a commit reports a commit ---------- */

  lemma RecordSilent(w: World, r: Reservation, report: Report, env: Ambient)
    requires Current(w, r)
    ensures var w' := RecordCurrent(w, r, report, env);
            w'.commits == w.commits && w'.owed == w.owed && w'.domains == w.domains
  {
    hide BundleOf;
    hide RecordTransition;
    hide RegisterOutputs;
    hide AttemptIndex;
    hide WithPhase;
  }

  predicate WholeSession(a: Action) {
    || a.DoChange? || a.DoCreate? || a.DoGrantRetry? || a.DoFenceSession? || a.DoCloseSession? || a.DoShutdown?
    || a.DoRetireSession? || a.DoSetSessionState? || a.DoPlanRecovery? || a.DoApplyRecovery?
  }

  lemma SessionActionsSilent(w: World, e: Event)
    requires WholeSession(e.action)
    ensures Apply(w, e).commits == w.commits && (!e.action.DoGrantRetry? ==> Apply(w, e).owed == w.owed)
    ensures !e.action.DoChange? ==> Apply(w, e).domains == w.domains
  {
    hide Reserve;
    hide Launch;
    hide NoteProcess;
    hide RecordExecution;
    hide ReportOutput;
    hide ReproductionFailed;
    hide Validate;
    hide Commit;
    hide CancelPhase;
    hide FailPhase;
    hide BeginCommit;
    hide BundleOf;
    hide EvaluateRetry;
    hide FencedSession;
    hide FencedArtifacts;
    hide FencedLeases;
    hide RetiredPhases;
    hide RetiredLeases;
    hide RecoveredSession;
    hide RevalidateAll;
    hide AllRevalidate;
    hide StepIds;
    hide PlanFor;
    hide Change;
    hide NewSession;
    hide Advanced;
  }

  /** Up to the point where the invocation runs. */
  predicate Begins(a: Action) {
    a.DoReserve? || a.DoLaunch? || a.DoNoteProcess? || a.DoBeginCommit?
  }

  lemma BeginningsSilent(w: World, e: Event)
    requires Begins(e.action)
    ensures Apply(w, e).commits == w.commits && (!e.action.DoReserve? ==> Apply(w, e).owed == w.owed)
    ensures Apply(w, e).domains == w.domains
  {
    hide Create;
    hide GrantRetry;
    hide FenceSession;
    hide CloseSession;
    hide RetireSession;
    hide SetSessionState;
    hide PlanRecovery;
    hide ApplyRecovery;
    hide Commit;
    hide RecordExecution;
    hide ReportOutput;
    hide ReproductionFailed;
    hide Validate;
    hide CancelPhase;
    hide FailPhase;
    hide BundleOf;
    hide RecordTransition;
    hide Reserve;
    hide WithPhase;
    if e.action.DoReserve? {
      ReserveSilent(w, e.action.session, e.action.phase, e.action.isRetry, e.action.workspace, e.env);
    }
  }

  lemma ReserveSilent(w: World, session: U64, phase: U64, isRetry: bool, workspace: bool, env: Ambient)
    ensures var w' := Reserve(w, session, phase, isRetry, workspace, env);
            w'.commits == w.commits && w'.domains == w.domains
  {
    hide BundleOf;
    hide Reservable;
    hide ReservedSession;
    hide Authority.Grant;
  }

  lemma EndingsSilent(w: World, e: Event)
    requires !WholeSession(e.action) && !Begins(e.action)
    requires !e.action.DoCommit? && !e.action.DoRecord? && !e.action.DoReport?
    ensures Apply(w, e).commits == w.commits && Apply(w, e).owed == w.owed && Apply(w, e).domains == w.domains
  {
    hide Create;
    hide GrantRetry;
    hide FenceSession;
    hide CloseSession;
    hide RetireSession;
    hide SetSessionState;
    hide PlanRecovery;
    hide ApplyRecovery;
    hide Commit;
    hide RecordExecution;
    hide ReportOutput;
    hide Reserve;
    hide Launch;
    hide NoteProcess;
    hide BeginCommit;
    hide BundleOf;
    hide RecordTransition;
    hide SetStates;
    hide AllRegistered;
    hide Artifacts.RevokeOutputs;
    hide Authority.Revoke;
    hide CloseAttempt;
    hide FailedAttempts;
    hide WithPhase;
    hide Advanced;
  }

  lemma ReportsSilent(w: World, e: Event)
    requires e.action.DoRecord? || e.action.DoReport?
    ensures var w' := Apply(w, e); w'.commits == w.commits && w'.owed == w.owed && w'.domains == w.domains
  {
    hide RecordCurrent;
    var a := e.action;
    if a.DoRecord? {
      if Current(w, a.r) {
        RecordSilent(w, a.r, a.report, e.env);
      }
    } else if HasRecord(w, a.session, a.phase) {
      var r := ReservationFor(w.sessions[a.session], w.sessions[a.session].phases[a.phase]);
      if Current(w, r) {
        RecordSilent(w, r, a.report, e.env);
      }
    }
  }

  lemma OthersSilent(w: World, e: Event)
    requires !e.action.DoCommit?
    ensures Apply(w, e).commits == w.commits
    ensures !e.action.DoGrantRetry? && !e.action.DoReserve? ==> Apply(w, e).owed == w.owed
    ensures !e.action.DoChange? ==> Apply(w, e).domains == w.domains
  {
    hide Apply;
    if WholeSession(e.action) {
      SessionActionsSilent(w, e);
    } else if e.action.DoRecord? || e.action.DoReport? {
      ReportsSilent(w, e);
    } else if Begins(e.action) {
      BeginningsSilent(w, e);
    } else {
      EndingsSilent(w, e);
    }
  }

  /* ---------- Runs ---------- */

  lemma StepSound(w: World, e: Event, w': World)
    requires Sound(w) && Step(w, e, w')
    ensures Sound(w') && Grows(w, w')
  {
    hide Sound;
    hide Grows;
    hide Apply;
    ApplySound(w, e);
  }

  /** Over a run nothing sound becomes unsound, and nothing is forgotten. */
  lemma {:induction false} RunSound(worlds: seq<World>, events: seq<Event>, i: nat, j: nat)
    requires IsRun(worlds, events) && Sound(worlds[0]) && i <= j < |worlds|
    ensures Sound(worlds[i]) && Sound(worlds[j]) && Grows(worlds[i], worlds[j])
    decreases j
  {
    hide Sound;
    hide Grows;
    hide Step;
    if i == j {
      if j > 0 {
        RunSound(worlds, events, j - 1, j - 1);
        StepSound(worlds[j - 1], events[j - 1], worlds[j - 1 + 1]);
      }
      QuietSound(worlds[j], worlds[j]);
    } else {
      RunSound(worlds, events, i, j - 1);
      StepSound(worlds[j - 1], events[j - 1], worlds[j - 1 + 1]);
      GrowsTransitive(worlds[i], worlds[j - 1], worlds[j]);
    }
  }

  lemma InitialSound()
    ensures Sound(Initial()) && BindingsSound(Initial())
  {
  }

  /* ---------- Histories ---------- */

  /** In every reachable state the retained history of every phase is a contiguous chain of
      legal edges ending in its state, and a committed phase shows the whole commit path. */
  lemma HistoryOverRuns(worlds: seq<World>, events: seq<Event>, k: nat, session: U64, phase: U64)
    requires IsRun(worlds, events) && Sound(worlds[0]) && k < |worlds| && HasRecord(worlds[k], session, phase)
    ensures var p := worlds[k].sessions[session].phases[phase];
            && IsChain(p.history, p.state)
            && (p.state == Committed ==> |p.history| >= 6 && IsCommitPath(p.history[|p.history| - 6..]))
  {
    hide IsChain;
    hide IsRun;
    hide IsPlan;
    hide LogSound;
    hide CommitsSound;
    hide Ordered;
    RunSound(worlds, events, k, k);
    var p := worlds[k].sessions[session].phases[phase];
    assert RecordSound(p);
    if p.state == Committed {
      CommittedShowsPath(p.history);
    }
  }

  /* ---------- Committing at most once, in order ---------- */

  /** Over a whole run each phase is reported committed at most once, and after all the phases
      it depends on: the reported commits are a linear extension of the plan. */
  lemma CommitsOnceInOrder(worlds: seq<World>, events: seq<Event>, k: nat)
    requires IsRun(worlds, events) && Sound(worlds[0]) && k < |worlds|
    ensures var c := worlds[k].commits;
            && (forall i, j :: 0 <= i < j < |c| ==> c[i].session != c[j].session || c[i].phase != c[j].phase)
            && (forall m :: 0 <= m < |c| ==> c[m].session in worlds[k].sessions)
            && (forall m, d :: 0 <= m < |c| && d in Dependencies(worlds[k].sessions[c[m].session].plan.nodes, c[m].phase) ==>
                  exists j :: 0 <= j < m && c[j].session == c[m].session && c[j].phase == d)
  {
    hide IsRun;
    hide Dependencies;
    hide SessionsSound;
    hide LogSound;
    RunSound(worlds, events, k, k);
    var v := worlds[k];
    var c := v.commits;
    forall m | 0 <= m < |c|
      ensures c[m].session in v.sessions
    {
      assert EventSound(v, c[m]);
    }
    forall m, d | 0 <= m < |c| && d in Dependencies(v.sessions[c[m].session].plan.nodes, c[m].phase)
      ensures exists j :: 0 <= j < m && c[j].session == c[m].session && c[j].phase == d
    {
      assert Mentioned(c[..m], c[m].session, d, |v.log|);
      var j :| 0 <= j < m && c[..m][j].session == c[m].session && c[..m][j].phase == d;
      assert c[j] == c[..m][j];
    }
  }

  /** In every reachable state the committed phases of a session are closed under
      dependencies; once the last phase of the order is committed, all are. */
  lemma CommittedClosedOverRuns(worlds: seq<World>, events: seq<Event>, k: nat, session: U64)
    requires IsRun(worlds, events) && Sound(worlds[0]) && k < |worlds| && session in worlds[k].sessions
    ensures var s := worlds[k].sessions[session];
            && Closed(s.plan.nodes, CommittedSet(s))
            && (s.plan.order != [] && HasCommitted(s, s.plan.order[|s.plan.order| - 1]) ==>
                  forall id :: HasPhase(s.plan, id) ==> HasCommitted(s, id))
  {
    hide IsRun;
    hide SessionSound;
    hide LogSound;
    hide CommitsSound;
    hide Ordered;
    hide Closed;
    hide IsPlan;
    RunSound(worlds, events, k, k);
    var s := worlds[k].sessions[session];
    assert SessionSound(s);
    CommittedClosed(s);
    if s.plan.order != [] && HasCommitted(s, s.plan.order[|s.plan.order| - 1]) {
      forall id: U64 | HasPhase(s.plan, id)
        ensures HasCommitted(s, id)
      {
        SinkCommittedMeansAll(s, id);
      }
    }
  }

  /** A phase becomes COMMITTED only by a commit, and that commit is reported. */
  lemma CommitsOnlyByCommit(w: World, e: Event, w': World, session: U64, phase: U64)
    requires Sound(w) && Step(w, e, w')
    requires HasRecord(w, session, phase) && w.sessions[session].phases[phase].state != Committed
    requires session in w'.sessions && HasCommitted(w'.sessions[session], phase)
    ensures e.action.DoCommit? && w'.commits != w.commits
  {
    hide Apply;
    hide SessionsSound;
    hide LogSound;
    hide Ordered;
    hide Distinct;
    StepSound(w, e, w');
    assert Mentioned(w'.commits, session, phase, |w'.log|);
    NotReportedBefore(w, session, phase, w'.sessions[session]);
    if !e.action.DoCommit? {
      OthersSilent(w, e);
    }
  }

  /** A phase that is about to become COMMITTED has not been reported. */
  lemma NotReportedBefore(w: World, session: U64, phase: U64, t: CompilerSession)
    requires CommitsSound(w) && HasRecord(w, session, phase) && w.sessions[session].phases[phase].state != Committed
    requires SessionEvolves(w.sessions[session], t) && HasCommitted(t, phase)
    ensures forall n :: !Mentioned(w.commits, session, phase, n)
  {
    assert PhaseEvolves(w.sessions[session].phases[phase], t.phases[phase]);
    forall k | 0 <= k < |w.commits|
      ensures w.commits[k].session != session || w.commits[k].phase != phase
    {
      assert EventSound(w, w.commits[k]);
    }
  }
}
