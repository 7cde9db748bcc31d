/** A life in which a session bound in one epoch commits in the next under other contents: the
    record that was written after a revision brings the revised target back at its first
    generation (src/core/environment.cpp:222-235), which is the one the session is bound to. */
module Rebound {
  import opened StrongId
  import opened Bytes
  import opened Phases
  import opened Sessions
  import opened Registries
  import opened Sorting
  import opened Runtime
  import opened ArtifactSafety
  import opened Restarts
  import opened Lives
  import opened Witness
  import Artifacts
  import Authority
  import Custody
  import Guarantees
  import Reinterning

  const OTHER: Contents := [7]

  /** The record now carries the revised target. */
  const NOTED: Ambient := Ambient(0, true, Extras([], OTHER, [], [], [], [], []))

  /* ---------- The first epoch ---------- */

  ghost function Revise(w: World): World {
    Changed(w, ReviseTarget(1, OTHER))
  }

  ghost function Failing(w: World): World {
    SetSessionState(w, 1, SessionFailed, [], NOTED)
  }

  /** Two records of a session that has not been attempted; the second shows it FAILED. */
  ghost predicate LeftBehind(w: World) {
    && |w.log| == 2 && w.log[0].session.id == 1 && w.commits == []
    && Playing(w.log[1].session, SessionFailed, Pending) && w.log[1].artifacts == []
    && w.log[1].session.phases[1].attempts == [] && w.log[1].session.phases[1].attemptGeneration == 1
    && Furnished(w.domains.(targets := Added(EmptyRegistry(), OTHER)))
  }

  lemma Fails(w: World)
    requires Scene(w, SessionActive, Pending) && |w.log| == 1 && w.log[0].session == w.sessions[1] && w.commits == []
    requires w.sessions[1].phases[1].attempts == [] && w.sessions[1].intermediates == [] && w.sessions[1].phases[1].attemptGeneration == 1
    ensures LeftBehind(Failing(Revise(w)))
    ensures Revise(w).next == w.next == Failing(Revise(w)).next
    ensures Revise(w).artifacts == w.artifacts == Failing(Revise(w)).artifacts
  {
    assert Sorted(OutputIds([])) == [];
    hide Sorted;
  }

  lemma FailEvents(w: World)
    ensures Step(w, Event(DoSetSessionState(1, SessionFailed, []), NOTED), Failing(w))
  {
    hide SetSessionState;
  }

  lemma FirstEpoch() returns (worlds: seq<World>, events: seq<Event>, i: nat)
    ensures IsRun(worlds, events) && worlds[0] == Initial() && Thrifty(worlds) && LeftBehind(worlds[|events|])
    ensures i < |events| && worlds[i].sessions.Keys == {1} && worlds[i].sessions[1].target == ONE
    ensures worlds[i].domains.targets == Added(EmptyRegistry(), [])
  {
    hide Step;
    hide Thrifty;
    hide Create;
    hide LeftBehind;
    hide Furnished;
    hide Revise;
    hide Failing;
    worlds, events := Stocked();
    var w0 := worlds[|events|];
    Created(w0);
    var w1 := Create(w0, SESSION, 2, CALM);
    i := |worlds|;
    Extend(worlds, events, Event(DoCreate(SESSION, 2), CALM), w1);
    worlds, events := worlds + [w1], events + [Event(DoCreate(SESSION, 2), CALM)];
    Fails(w1);
    var w2 := Revise(w1);
    RevisesTarget(w1);
    Extend(worlds, events, Event(DoChange(ReviseTarget(1, OTHER)), CALM), w2);
    worlds, events := worlds + [w2], events + [Event(DoChange(ReviseTarget(1, OTHER)), CALM)];
    var w3 := Failing(w2);
    FailEvents(w2);
    Extend(worlds, events, Event(DoSetSessionState(1, SessionFailed, []), NOTED), w3);
    worlds, events := worlds + [w3], events + [Event(DoSetSessionState(1, SessionFailed, []), NOTED)];
  }

  lemma RevisesTarget(w: World)
    ensures Step(w, Event(DoChange(ReviseTarget(1, OTHER)), CALM), Revise(w))
  {
    ChangeStep(w, ReviseTarget(1, OTHER));
    hide Step;
  }

  /* ---------- The restart ---------- */

  /** Every record is read, and the target comes back with the contents it had last. */
  ghost function AsLeft(w: World): Restart {
    Restart([0, 1], w.domains.(targets := Added(EmptyRegistry(), OTHER)), 2, 0, map[])
  }

  ghost function Again(w: World): World
    requires LeftBehind(w)
  {
    Restarted(w, AsLeft(w))
  }

  lemma OnlyOne(bundles: seq<Bundle>)
    requires |bundles| == 2 && bundles[0].session.id == 1 && bundles[1].session.id == 1
    ensures LastIndex(bundles, 1) == 1 && LoggedIds(bundles) == [1]
  {
    assert LastIndex(bundles, 1) == 1;
    hide LastIndex;
    assert LoggedIds(bundles) == [1] by {
      AscendingUnique(LoggedIds(bundles), [1]);
    }
  }

  /** The only session is taken over, with no attempt and no artifact. */
  lemma ReloadsOne(bundles: seq<Bundle>, domains: Domains)
    requires |bundles| == 2 && bundles[0].session.id == 1 && bundles[1].session.id == 1
    ensures var v := Reloaded(bundles, [], domains);
            && v.sessions == map[1 := bundles[1].session] && v.artifacts == Artifacts.NO_ARTIFACTS
            && v.domains == domains && !v.shuttingDown && v.commits == []
            && v.leases == Authority.NO_LEASES && v.next.invocation == 1 && v.next.attempt == 1
  {
    OnlyOne(bundles);
    hide LastIndex;
    hide LoggedIds;
    hide Observed;
  }

  lemma ResumesOne(v: World, bundles: seq<Bundle>, r: Restart)
    requires |bundles| == 2 && bundles[0].session.id == 1 && bundles[1].session.id == 1 && bundles[1].artifacts == []
    requires r.extras == map[] && 1 in v.sessions && v.sessions[1].id == 1
    ensures LastIndex(bundles, 1) == 1
    ensures ResumeAll(v, bundles, [1], r) == Resume(v, 1, [], r.epoch, r.now, NO_EXTRAS)
  {
    OnlyOne(bundles);
    hide LastIndex;
    hide Resume;
    assert [1][1..] == [];
  }

  lemma FencesNone(v: World)
    requires 1 in v.sessions && Playing(v.sessions[1], SessionFailed, Pending) && v.artifacts == Artifacts.NO_ARTIFACTS
    ensures LoadArtifacts(v.artifacts, []) == v.artifacts
    ensures FencedArtifacts(v.artifacts, v.sessions[1], v.sessions[1].plan.order, RESTART) == v.artifacts
    ensures var s := v.sessions[1];
            var t := RestartedSession(s, 2, 0);
            Playing(t, SessionRecovering, Pending) && t.phases == s.phases
  {
    hide FencedRecord;
    var s := v.sessions[1];
    assert s.plan.order[1..] == [];
    assert FencedArtifacts(v.artifacts, s, [], RESTART) == v.artifacts;
    assert FencedPhases(s, 0, RESTART) == s.phases;
  }

  lemma ResumeAlone(v: World)
    requires v.sessions.Keys == {1} && Playing(v.sessions[1], SessionFailed, Pending) && v.artifacts == Artifacts.NO_ARTIFACTS
    ensures var u := Resume(v, 1, [], 2, 0, NO_EXTRAS);
            && u.sessions == v.sessions[1 := RestartedSession(v.sessions[1], 2, 0)] && u.artifacts == v.artifacts && u.domains == v.domains
            && u.shuttingDown == v.shuttingDown && u.commits == v.commits && u.leases == v.leases && u.next == v.next
            && u.sessions.Keys == {1}
  {
    FencesNone(v);
    hide RestartedSession;
    hide LoadArtifacts;
    hide FencedArtifacts;
    hide BundleOf;
  }

  lemma StartsAgain(w: World)
    requires LeftBehind(w)
    ensures var v := Again(w);
            && Scene(v, SessionRecovering, Pending) && Roomy(v) && Unspent(v)
            && v.domains.targets == Added(EmptyRegistry(), OTHER) && v.artifacts == Artifacts.NO_ARTIFACTS
            && v.sessions[1].phases[1].attempts == [] && v.sessions[1].phases[1].attemptGeneration == 1
  {
    hide LastIndex;
    hide LoggedIds;
    hide Furnished;
    hide Reloaded;
    hide Resume;
    hide ResumeAll;
    hide RestartedSession;
    hide FencedArtifacts;
    hide LoadArtifacts;
    var r := AsLeft(w);
    var bundles := Kept(w.log, r.kept);
    assert bundles == w.log;
    OnlyOne(bundles);
    assert Resurfaced(w.commits, w.log, r.kept) == [];
    var v := Reloaded(bundles, [], r.domains);
    ReloadsOne(bundles, r.domains);
    ResumesOne(v, bundles, r);
    FencesNone(v);
    ResumeAlone(v);
  }

  /* ---------- The second epoch ---------- */

  /** Recovery is planned and applied, and the phase is reserved. */
  lemma Resumes(v: World) returns (run: seq<World>, events: seq<Event>)
    requires Scene(v, SessionRecovering, Pending) && Roomy(v) && Unspent(v) && v.artifacts == Artifacts.NO_ARTIFACTS
    requires v.sessions[1].phases[1].attempts == [] && v.sessions[1].phases[1].attemptGeneration == 1
    ensures IsRun(run, events) && run[0] == v && Thrifty(run) && Unchanging(events)
    ensures var w := run[|events|];
            && Scene(w, SessionActive, Preparing) && w.artifacts == Artifacts.NO_ARTIFACTS && w.commits == [] && Unspent(w)
            && w.sessions[1].phases[1].outputs == [] && Holding(w, ReservationFor(w.sessions[1], w.sessions[1].phases[1]))
  {
    hide Step;
    hide PlanRecovery;
    hide ApplyRecovery;
    hide Reserve;
    hide Furnished;
    hide Holding;
    var w1 := Witness.Planned(v);
    Plans(v, SessionRecovering, Pending);
    var w2 := Set(w1, false);
    SetBack(w1, Pending);
    var w3 := ReservedOnce(w2, false);
    Reserves(w2, Ready, false);
    run, events := [v], [];
    RecoveryEvent(v, false);
    Extend(run, events, Event(DoPlanRecovery(1), CALM), w1);
    run, events := run + [w1], events + [Event(DoPlanRecovery(1), CALM)];
    RecoveryEvent(w1, false);
    Extend(run, events, Event(DoApplyRecovery(1, false, [], ABSENT), CALM), w2);
    run, events := run + [w2], events + [Event(DoApplyRecovery(1, false, [], ABSENT), CALM)];
    ReserveEvent(w2, false);
    Extend(run, events, Event(DoReserve(1, 1, false, true), CALM), w3);
    run, events := run + [w3], events + [Event(DoReserve(1, 1, false, true), CALM)];
  }

  /** No registry is written. */
  predicate Unchanging(events: seq<Event>) {
    forall k :: 0 <= k < |events| ==> !events[k].action.DoChange?
  }

  /** The phase is executed, reported, validated and committed. */
  lemma Commits(v: World) returns (run: seq<World>, events: seq<Event>)
    requires Scene(v, SessionRecovering, Pending) && Roomy(v) && Unspent(v) && v.artifacts == Artifacts.NO_ARTIFACTS
    requires v.sessions[1].phases[1].attempts == [] && v.sessions[1].phases[1].attemptGeneration == 1
    ensures IsRun(run, events) && run[0] == v && Thrifty(run) && Unchanging(events)
    ensures var w := run[|events|];
            && |w.commits| == 1 && w.commits[0].session == 1 && 1 in w.sessions && w.sessions[1].target == ONE
            && 1 in w.sessions[1].phases && w.sessions[1].phases[1].state == Committed
  {
    hide Step;
    hide LaunchedOnce;
    hide ReportedOnce;
    hide ValidatedOnce;
    hide Commit;
    hide Publish;
    hide Holding;
    hide Furnished;
    hide Thrifty;
    run, events := Resumes(v);
    var w0 := run[|events|];
    var r := ReservationFor(w0.sessions[1], w0.sessions[1].phases[1]);
    var w1 := LaunchedOnce(w0, r);
    var w2 := ReportedOnce(w1, r, [], []);
    var w3 := ValidatedOnce(w2, r);
    var w4 := CommittedOnce(w3, r, CALM);
    Stages(w0, r, [], []);
    PhaseEvents(w0, r, [], []);
    Extend(run, events, Event(DoLaunch(r, Launched), CALM), w1);
    run, events := run + [w1], events + [Event(DoLaunch(r, Launched), CALM)];
    PhaseEvents(w1, r, [], []);
    Extend(run, events, Event(DoRecord(r, Success([], [])), CALM), w2);
    run, events := run + [w2], events + [Event(DoRecord(r, Success([], [])), CALM)];
    PhaseEvents(w2, r, [], []);
    Extend(run, events, Event(DoValidate(r, ACCEPTING), CALM), w3);
    run, events := run + [w3], events + [Event(DoValidate(r, ACCEPTING), CALM)];
    ReachesPublish(w3, r, CALM);
    PublishesOnce(w3, r);
    CommitHappens(w3, r, CALM);
    Extend(run, events, Event(DoCommit(r, UNCHANGED, PLAIN), CALM), w4);
    run, events := run + [w4], events + [Event(DoCommit(r, UNCHANGED, PLAIN), CALM)];
  }

  /** Nothing but a change writes the registry of targets. */
  lemma {:induction false} TargetsKept(run: seq<World>, events: seq<Event>, k: nat)
    requires IsRun(run, events) && Unchanging(events) && k < |run|
    ensures run[k].domains.targets == run[0].domains.targets
    decreases k
  {
    hide Step;
    if k > 0 {
      TargetsKept(run, events, k - 1);
      assert Step(run[k - 1], events[k - 1], run[k - 1 + 1]);
      TargetsStay(run[k - 1], events[k - 1], run[k]);
    }
  }

  lemma TargetsStay(w: World, e: Event, w': World)
    requires Step(w, e, w') && !e.action.DoChange?
    ensures w'.domains.targets == w.domains.targets
  {
    hide Apply;
    hide Commit;
    if e.action.DoCommit? {
      Custody.SpecialActions(w, e);
      Reinterning.CommitDomains(w, e.action.r, e.action.probe, e.action.pub, e.env);
    } else {
      Guarantees.OthersSilent(w, e);
    }
  }

  /* ---------- The life ---------- */

  function Acting(events: seq<Event>): (moments: seq<Moment>)
    ensures |moments| == |events| && forall k :: 0 <= k < |events| ==> moments[k] == Acts(events[k])
  {
    seq(|events|, k requires 0 <= k < |events| => Acts(events[k]))
  }

  /** One run, a crash, and a second run from the state the restart leaves. */
  lemma TwoEpochs(a: seq<World>, first: seq<Event>, r: Restart, b: seq<World>, second: seq<Event>)
    requires IsRun(a, first) && IsRun(b, second) && a[0] == Initial() && Thrifty(a) && Thrifty(b)
    requires Positions(r.kept, |a[|first|].log|) && b[0] == Restarted(a[|first|], r)
    ensures LifeUpTo(a + b, Acting(first) + [Crashes(r)] + Acting(second), |first| + 1 + |second|)
  {
    hide Step;
    hide Restarted;
    hide Unspent;
    var ws, ms := a + b, Acting(first) + [Crashes(r)] + Acting(second);
    var n := |first|;
    forall k {:trigger ms[k]} | 0 <= k < |ms|
      ensures Follows(ws[k], ms[k], ws[k + 1])
    {
      if k < n {
        assert Step(a[k], first[k], a[k + 1]);
      } else if k > n {
        assert Step(b[k - n - 1], second[k - n - 1], b[k - n]);
      }
    }
  }

  /** At moment i the session exists and is bound to the target as it is registered then. */
  ghost predicate BoundTo(w: World, contents: Contents) {
    && 1 in w.sessions && w.sessions[1].target == ONE && Registered(w.domains.targets, ONE)
    && w.domains.targets.entries[1].contents == contents
  }

  /** A session bound to a target with no contents; the target is revised, the session logged, the
      process killed; in the next epoch a phase of the session is reserved, executed and committed
      although throughout that epoch the target has other contents. */
  lemma CommitUnderOtherContents() returns (worlds: seq<World>, moments: seq<Moment>, i: nat, j: nat)
    ensures LifeUpTo(worlds, moments, |moments|) && i < j < |moments| && moments[j].Crashes?
    ensures BoundTo(worlds[i], []) && BoundTo(worlds[|moments|], OTHER) && OTHER != []
    ensures forall k :: j < k <= |moments| ==> worlds[k].domains.targets == worlds[|moments|].domains.targets
    ensures worlds[j + 1].commits == [] && |worlds[|moments|].commits| == 1 && worlds[|moments|].commits[0].session == 1
  {
    hide Step;
    hide Restarted;
    hide Thrifty;
    hide LeftBehind;
    hide Furnished;
    hide IsLife;
    var a, first;
    a, first, i := FirstEpoch();
    j := |first|;
    var v := Again(a[j]);
    StartsAgain(a[j]);
    var b, second := Commits(v);
    KeepsBoth(a[j]);
    TwoEpochs(a, first, AsLeft(a[j]), b, second);
    worlds, moments := a + b, Acting(first) + [Crashes(AsLeft(a[j]))] + Acting(second);
    TargetsKept(b, second, |second|);
    forall k | j < k <= |moments|
      ensures worlds[k].domains.targets == worlds[|moments|].domains.targets
    {
      TargetsKept(b, second, k - j - 1);
    }
  }

  lemma KeepsBoth(w: World)
    requires LeftBehind(w)
    ensures Positions(AsLeft(w).kept, |w.log|) && Again(w) == Restarted(w, AsLeft(w))
  {
    hide Restarted;
  }
}
