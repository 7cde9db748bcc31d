/** Runs that include crashes and restarts. Every invariant holds at every moment of a life, so
    that what is proved of runs holds of each epoch, whatever came before it. */
module Lives {
  import opened StrongId
  import opened Bytes
  import opened Phases
  import opened PhasePlans
  import opened Ancestry
  import opened Sessions
  import opened Runtime
  import opened Evolution
  import opened Safety
  import opened Bindings
  import opened Guarantees
  import opened CommitSafety
  import opened ArtifactSafety
  import opened Custody
  import opened Restarts
  import opened Takeover
  import Artifacts
  import Authority
  import Provenance

  /** Either the runtime acts, or it stops and is started again from whichever records of its
      journal can be read. */
  datatype Moment = Acts(event: Event) | Crashes(restart: Restart)

  ghost predicate Follows(w: World, m: Moment, w': World) {
    match m
    case Acts(event) => Step(w, event, w')
    case Crashes(restart) => Positions(restart.kept, |w.log|) && w' == Restarted(w, restart)
  }

  ghost predicate IsLife(worlds: seq<World>, moments: seq<Moment>) {
    && |worlds| == |moments| + 1
    && forall k {:trigger moments[k]} :: 0 <= k < |moments| ==> Follows(worlds[k], moments[k], worlds[k + 1])
  }

  /** A life that starts without earlier state, in which no identity counter runs out before
      moment k. */
  ghost predicate LifeUpTo(worlds: seq<World>, moments: seq<Moment>, k: nat) {
    && IsLife(worlds, moments) && k < |worlds| && worlds[0] == Initial()
    && forall i :: 0 <= i <= k ==> Unspent(worlds[i])
  }

  ghost predicate Healthy(w: World) {
    Sound(w) && BindingsSound(w) && ArtifactsSound(w) && CustodySound(w)
  }

  lemma InitialHealthy()
    ensures Healthy(Initial())
  {
    hide Sound;
    hide BindingsSound;
    InitialSound();
    InitialCustody();
    InitialStore();
  }

  lemma InitialStore()
    ensures ArtifactsSound(Initial())
  {
  }

  lemma ActHealthy(w: World, e: Event, w': World)
    requires Healthy(w) && Step(w, e, w') && Unspent(w')
    ensures Healthy(w')
  {
    hide Sound;
    hide BindingsSound;
    hide ArtifactsSound;
    hide CustodySound;
    hide Apply;
    hide Grows;
    hide Attempted;
    hide Forward;
    StepSound(w, e, w');
    ApplyBindings(w, e);
    StepArtifacts(w, e, w');
    StepCustody(w, e, w');
  }

  lemma CrashHealthy(w: World, r: Restart)
    requires Healthy(w) && Positions(r.kept, |w.log|)
    ensures Healthy(Restarted(w, r))
  {
    hide Sound;
    hide BindingsSound;
    hide ArtifactsSound;
    hide CustodySound;
    hide Restarted;
    hide Recovers;
    hide Resurfaced;
    RestartSound(w, r);
    RestartHealthy(w, r);
  }

  /** At every moment of a life every invariant holds. */
  lemma {:induction false} LifeHealthy(worlds: seq<World>, moments: seq<Moment>, k: nat)
    requires LifeUpTo(worlds, moments, k)
    ensures Healthy(worlds[k])
    decreases k
  {
    hide Healthy;
    hide Step;
    hide Restarted;
    if k == 0 {
      InitialHealthy();
    } else {
      LifeHealthy(worlds, moments, k - 1);
      assert Follows(worlds[k - 1], moments[k - 1], worlds[k - 1 + 1]);
      match moments[k - 1] {
        case Acts(event) => ActHealthy(worlds[k - 1], event, worlds[k]);
        case Crashes(restart) => CrashHealthy(worlds[k - 1], restart);
      }
    }
  }

  /* ---------- Epochs ---------- */

  /** No crash between two moments. */
  predicate SameEpoch(moments: seq<Moment>, i: nat, j: nat) {
    i <= j <= |moments| && forall k :: i <= k < j ==> moments[k].Acts?
  }

  function EventsOf(moments: seq<Moment>, i: nat, j: nat): (events: seq<Event>)
    requires SameEpoch(moments, i, j)
    ensures |events| == j - i && forall k :: 0 <= k < |events| ==> events[k] == moments[i + k].event
  {
    seq(j - i, k requires 0 <= k < j - i => moments[i + k].event)
  }

  /** Between two crashes a life is a run, from a state in which every invariant holds. */
  lemma EpochIsRun(worlds: seq<World>, moments: seq<Moment>, i: nat, j: nat)
    requires LifeUpTo(worlds, moments, j) && SameEpoch(moments, i, j)
    ensures IsRun(worlds[i..j + 1], EventsOf(moments, i, j)) && Healthy(worlds[i])
  {
    hide Healthy;
    hide Step;
    hide Restarted;
    var run, events := worlds[i..j + 1], EventsOf(moments, i, j);
    forall k {:trigger events[k]} | 0 <= k < |events|
      ensures Step(run[k], events[k], run[k + 1])
    {
      assert Follows(worlds[i + k], moments[i + k], worlds[i + k + 1]);
    }
    assert LifeUpTo(worlds, moments, i);
    LifeHealthy(worlds, moments, i);
  }

  /* ---------- Committing, over lives ---------- */

  /** Over a life with any number of crashes a phase is committed at most once, after all it
      depends on, and with a proper history; what is committed is closed under dependencies. */
  lemma LifeCommitsOnce(worlds: seq<World>, moments: seq<Moment>, k: nat)
    requires LifeUpTo(worlds, moments, k)
    ensures var c := worlds[k].commits;
            && (forall i, j :: 0 <= i < j < |c| ==> c[i].session != c[j].session || c[i].phase != c[j].phase)
            && (forall m, d :: 0 <= m < |c| && c[m].session in worlds[k].sessions
                               && d in Dependencies(worlds[k].sessions[c[m].session].plan.nodes, c[m].phase) ==>
                  exists j :: 0 <= j < m && c[j].session == c[m].session && c[j].phase == d)
    ensures forall id :: id in worlds[k].sessions ==>
              SessionSound(worlds[k].sessions[id]) && Closed(worlds[k].sessions[id].plan.nodes, CommittedSet(worlds[k].sessions[id]))
  {
    hide IsLife;
    hide BindingsSound;
    hide ArtifactsSound;
    hide CustodySound;
    hide Closed;
    LifeHealthy(worlds, moments, k);
    SoundCommits(worlds[k]);
    forall id | id in worlds[k].sessions
      ensures SessionSound(worlds[k].sessions[id]) && Closed(worlds[k].sessions[id].plan.nodes, CommittedSet(worlds[k].sessions[id]))
    {
      SessionAt(worlds[k], id);
      CommittedClosed(worlds[k].sessions[id]);
    }
  }

  lemma SoundCommits(w: World)
    requires Sound(w)
    ensures forall i, j :: 0 <= i < j < |w.commits| ==>
              w.commits[i].session != w.commits[j].session || w.commits[i].phase != w.commits[j].phase
    ensures forall m, d :: 0 <= m < |w.commits| && w.commits[m].session in w.sessions
                           && d in Dependencies(w.sessions[w.commits[m].session].plan.nodes, w.commits[m].phase) ==>
              exists j :: 0 <= j < m && w.commits[j].session == w.commits[m].session && w.commits[j].phase == d
  {
    hide Dependencies;
    hide SessionsSound;
    hide LogSound;
    hide CommitsSound;
    var c := w.commits;
    forall m, d | 0 <= m < |c| && c[m].session in w.sessions && d in Dependencies(w.sessions[c[m].session].plan.nodes, c[m].phase)
      ensures exists j :: 0 <= j < m && c[j].session == c[m].session && c[j].phase == d
    {
      assert Mentioned(c[..m], c[m].session, d, |w.log|);
      var j :| 0 <= j < m && c[..m][j].session == c[m].session && c[..m][j].phase == d;
      assert c[j] == c[..m][j];
    }
  }

  lemma RecordEvolved(w: World, n: nat, phase: U64)
    requires LogSound(w) && n < |w.log| && phase in w.log[n].session.phases
    ensures HasRecord(w, w.log[n].session.id, phase)
    ensures PhaseEvolves(w.log[n].session.phases[phase], w.sessions[w.log[n].session.id].phases[phase])
  {
    hide SessionSound;
    hide Mentioned;
    assert SessionEvolves(w.log[n].session, w.sessions[w.log[n].session.id]);
  }

  /** Commit safety without ABA, in any epoch of any life. When a commit is reported in a session
      that was created in this epoch, nothing the session is bound to has changed since. */
  lemma LifeNoAuthorityChange(worlds: seq<World>, moments: seq<Moment>, i: nat, j: nat, k: nat, session: U64)
    requires LifeUpTo(worlds, moments, j + 1) && SameEpoch(moments, i, j + 1) && i < j && i < k <= j + 1
    requires session !in worlds[i].sessions && session in worlds[i + 1].sessions && Unsaturated(worlds[i + 1].sessions[session])
    requires worlds[j + 1].commits != worlds[j].commits && worlds[j + 1].commits != []
    requires worlds[j + 1].commits[|worlds[j + 1].commits| - 1].session == session
    ensures SameAuthority(worlds[i + 1].domains, worlds[k].domains, worlds[i + 1].sessions[session])
  {
    hide IsRun;
    hide IsLife;
    hide ArtifactsSound;
    hide CustodySound;
    hide Sound;
    hide BindingsSound;
    hide SameAuthority;
    EpochIsRun(worlds, moments, i, j + 1);
    var run, events := worlds[i..j + 2], EventsOf(moments, i, j + 1);
    assert run[0] == worlds[i] && run[1] == worlds[i + 1] && run[j - i] == worlds[j] && run[j + 1 - i] == worlds[j + 1];
    assert run[k - i] == worlds[k];
    NoAuthorityChange(run, events, 0, j - i, k - i, session);
  }

  /** ... and in any session, old or new, nothing has changed since a phase of it was reserved, be
      the append of that reservation accepted or not. */
  lemma LifeNoChangeSinceReserved(worlds: seq<World>, moments: seq<Moment>, i: nat, j: nat, k: nat)
    requires LifeUpTo(worlds, moments, j + 1) && SameEpoch(moments, i, j + 1) && i < k <= j + 1 && i < j
    requires moments[j].event.action.DoCommit? && worlds[j + 1].commits != worlds[j].commits
    requires moments[i].event.action.DoReserve? && worlds[i + 1].sessions != worlds[i].sessions
    requires moments[j].event.action.r.session == moments[i].event.action.session
    ensures var s := moments[i].event.action.session;
            s in worlds[i].sessions && (Unsaturated(worlds[i].sessions[s]) && FullyBound(worlds[i].sessions[s]) ==>
              SameAuthority(worlds[i].domains, worlds[k].domains, worlds[i].sessions[s]))
  {
    hide IsRun;
    hide IsLife;
    hide ArtifactsSound;
    hide CustodySound;
    hide Sound;
    hide BindingsSound;
    hide SameAuthority;
    EpochIsRun(worlds, moments, i, j + 1);
    var run, events := worlds[i..j + 2], EventsOf(moments, i, j + 1);
    assert run[0] == worlds[i] && run[1] == worlds[i + 1] && run[j - i] == worlds[j] && run[j + 1 - i] == worlds[j + 1];
    assert run[k - i] == worlds[k] && events[0] == moments[i].event && events[j - i] == moments[j].event;
    NoChangeSinceReserved(run, events, 0, j - i, k - i);
  }

  /** An action that leaves a phase in flight found it so, or reserved it. */
  lemma InFlightStep(w: World, e: Event, w': World, session: U64, phase: U64)
    requires Healthy(w) && Step(w, e, w') && HasRecord(w', session, phase) && InFlight(w'.sessions[session].phases[phase].state)
    ensures HasRecord(w, session, phase)
    ensures || InFlight(w.sessions[session].phases[phase].state)
            || (e.action.DoReserve? && e.action.session == session && e.action.phase == phase && w'.sessions != w.sessions)
  {
    hide Sound;
    hide BindingsSound;
    hide ArtifactsSound;
    hide CustodySound;
    hide Apply;
    hide Forward;
    hide NewSession;
    if session !in w.sessions {
      CreatedBy(w, e, w', session);
      NewWaits(w, w'.sessions[session], phase);
    } else {
      StepSound(w, e, w');
      assert SessionEvolves(w.sessions[session], w'.sessions[session]);
      ApplyBindings(w, e);
    }
  }

  lemma NewWaits(w: World, s: CompilerSession, phase: U64)
    requires NewSession(w, s) && phase in s.phases
    ensures s.phases[phase].state == Pending
  {
    hide IsPlan;
  }

  /** Whatever is in flight was reserved in this epoch. */
  lemma {:induction false} ReservedInEpoch(worlds: seq<World>, moments: seq<Moment>, k: nat, session: U64, phase: U64) returns (i: nat)
    requires LifeUpTo(worlds, moments, k) && HasRecord(worlds[k], session, phase) && InFlight(worlds[k].sessions[session].phases[phase].state)
    ensures i < k && SameEpoch(moments, i, k) && worlds[i + 1].sessions != worlds[i].sessions
    ensures moments[i].event.action.DoReserve? && moments[i].event.action.session == session && moments[i].event.action.phase == phase
    decreases k
  {
    hide Healthy;
    hide Step;
    hide Restarted;
    if k == 0 {
      assert false;
    } else {
      i := k - 1;
      LifeHealthy(worlds, moments, k - 1);
      assert Follows(worlds[k - 1], moments[k - 1], worlds[k - 1 + 1]);
      match moments[k - 1] {
        case Acts(event) =>
          InFlightStep(worlds[k - 1], event, worlds[k], session, phase);
          if InFlight(worlds[k - 1].sessions[session].phases[phase].state) {
            i := ReservedInEpoch(worlds, moments, k - 1, session, phase);
          }
        case Crashes(restart) =>
          RestartForgets(worlds[k - 1], restart);
          assert false;
      }
    }
  }

  /** Every session, and every record of one, names the toolchain, target, environment and policy
      it was created with. */
  ghost predicate AllBound(w: World) {
    && (forall id :: id in w.sessions ==> FullyBound(w.sessions[id]))
    && forall i :: 0 <= i < |w.log| ==> FullyBound(w.log[i].session)
  }

  lemma StepBound(w: World, e: Event, w': World)
    requires Healthy(w) && Step(w, e, w') && AllBound(w)
    ensures AllBound(w')
  {
    hide Sound;
    hide BindingsSound;
    hide ArtifactsSound;
    hide CustodySound;
    hide Apply;
    hide NewSession;
    hide RecordedStore;
    StepSound(w, e, w');
    forall id | id in w'.sessions
      ensures FullyBound(w'.sessions[id])
    {
      if id in w.sessions {
        assert SessionEvolves(w.sessions[id], w'.sessions[id]);
      } else {
        CreatedBy(w, e, w', id);
        NewSessionBound(w, w'.sessions[id]);
      }
    }
    ApplyAppends(w, e);
    forall i | 0 <= i < |w'.log|
      ensures FullyBound(w'.log[i].session)
    {
      assert i < |w.log| ==> w'.log[i] == w'.log[..|w.log|][i] == w.log[i];
    }
  }

  lemma RestartBound(w: World, r: Restart)
    requires Healthy(w) && Positions(r.kept, |w.log|) && AllBound(w)
    ensures AllBound(Restarted(w, r))
  {
    hide Sound;
    hide BindingsSound;
    hide ArtifactsSound;
    hide CustodySound;
    hide Restarted;
    hide Resurfaced;
    hide LastIndex;
    hide Apart;
    hide BundleSound;
    hide LoggedIds;
    hide AllBundlesSound;
    hide FencedSession;
    hide TakenOver;
    var bundles := Kept(w.log, r.kept);
    var w' := Restarted(w, r);
    RestartSound(w, r);
    RestartTakes(w, r);
    forall id | id in w'.sessions
      ensures FullyBound(w'.sessions[id])
    {
      LastIs(bundles, id);
      var k := LastIndex(bundles, id);
      assert bundles[k] == w.log[r.kept[k]];
      RestartedBound(bundles[k].session, r.epoch, r.now);
    }
    forall i | 0 <= i < |w'.log|
      ensures FullyBound(w'.log[i].session)
    {
      assert i < |bundles| ==> w'.log[i] == bundles[i] == w.log[r.kept[i]];
    }
  }

  lemma RestartedBound(s: CompilerSession, epoch: U64, now: U64)
    ensures FullyBound(RestartedSession(s, epoch, now)) == FullyBound(s)
  {
    hide FencedPhases;
  }

  lemma {:induction false} LifeBound(worlds: seq<World>, moments: seq<Moment>, k: nat)
    requires LifeUpTo(worlds, moments, k)
    ensures AllBound(worlds[k])
    decreases k
  {
    hide Healthy;
    hide Step;
    hide Restarted;
    hide FullyBound;
    if k > 0 {
      LifeBound(worlds, moments, k - 1);
      LifeHealthy(worlds, moments, k - 1);
      assert Follows(worlds[k - 1], moments[k - 1], worlds[k - 1 + 1]);
      match moments[k - 1] {
        case Acts(event) => StepBound(worlds[k - 1], event, worlds[k]);
        case Crashes(restart) => RestartBound(worlds[k - 1], restart);
      }
    }
  }

  /** Every commit of every life: its phase was reserved in the same epoch, and from then on to the
      commit nothing its session is bound to has changed. */
  lemma CommitWithoutChange(worlds: seq<World>, moments: seq<Moment>, j: nat) returns (i: nat)
    requires LifeUpTo(worlds, moments, j + 1) && moments[j].Acts? && worlds[j + 1].commits != worlds[j].commits
    ensures i < j && SameEpoch(moments, i, j + 1) && moments[j].event.action.DoCommit?
    ensures var r := moments[j].event.action.r;
            && moments[i].event.action.DoReserve? && moments[i].event.action.session == r.session && moments[i].event.action.phase == r.phase
            && r.session in worlds[i].sessions
            && var s := worlds[i].sessions[r.session];
               Unsaturated(s) ==> forall k :: i < k <= j + 1 ==> SameAuthority(worlds[i].domains, worlds[k].domains, s)
  {
    hide IsRun;
    hide Healthy;
    hide Apply;
    hide Restarted;
    hide SameAuthority;
    hide CommitVerdict;
    LifeHealthy(worlds, moments, j);
    assert Follows(worlds[j], moments[j], worlds[j + 1]);
    CommitInFlight(worlds[j], moments[j].event, worlds[j + 1]);
    var r := moments[j].event.action.r;
    i := ReservedInEpoch(worlds, moments, j, r.session, r.phase);
    LifeBound(worlds, moments, i);
    hide IsLife;
    forall k | i < k <= j + 1
      ensures r.session in worlds[i].sessions
      ensures var s := worlds[i].sessions[r.session];
              Unsaturated(s) ==> SameAuthority(worlds[i].domains, worlds[k].domains, s)
    {
      LifeNoChangeSinceReserved(worlds, moments, i, j, k);
    }
    assert i < j + 1 <= j + 1;
  }

  lemma CommitInFlight(w: World, e: Event, w': World)
    requires Healthy(w) && Step(w, e, w') && w'.commits != w.commits
    ensures e.action.DoCommit? && HasRecord(w, e.action.r.session, e.action.r.phase)
    ensures InFlight(w.sessions[e.action.r.session].phases[e.action.r.phase].state)
  {
    hide Healthy;
    hide Apply;
    hide CommitVerdict;
    ReportedCommit(w, e, w');
  }

  /** The lease of a phase that commits was never revoked in this epoch. */
  lemma LifeLeaseNeverRevoked(worlds: seq<World>, moments: seq<Moment>, i: nat, j: nat)
    requires LifeUpTo(worlds, moments, j + 1) && SameEpoch(moments, i, j + 1) && i <= j
    requires worlds[j + 1].commits != worlds[j].commits
    ensures moments[j].event.action.DoCommit? && HasRecord(worlds[j], moments[j].event.action.r.session, moments[j].event.action.r.phase)
    ensures var r := moments[j].event.action.r;
            var lease := worlds[j].sessions[r.session].phases[r.phase].lease;
            && lease.id in worlds[j].leases.entries
            && (lease.id in worlds[i].leases.entries ==> Authority.IsHeld(worlds[i].leases, lease, moments[j].event.env.now))
  {
    hide IsRun;
    hide IsLife;
    hide ArtifactsSound;
    hide CustodySound;
    hide Sound;
    hide BindingsSound;
    hide Authority.IsHeld;
    EpochIsRun(worlds, moments, i, j + 1);
    var run, events := worlds[i..j + 2], EventsOf(moments, i, j + 1);
    assert run[0] == worlds[i] && run[j - i] == worlds[j] && run[j + 1 - i] == worlds[j + 1];
    assert events[j - i] == moments[j].event;
    LeaseNeverRevoked(run, events, j - i, 0);
  }

  /** A reservation that is not current at some moment never commits later: a stale generation
      or invocation never causes a commit. */
  lemma LifeStaleNeverCommits(worlds: seq<World>, moments: seq<Moment>, i: nat, j: nat)
    requires LifeUpTo(worlds, moments, j + 1) && SameEpoch(moments, i, j + 1) && i <= j
    requires moments[j].event.action.DoCommit? && moments[j].event.action.r in worlds[i].issued
    requires worlds[j + 1].commits != worlds[j].commits
    ensures Current(worlds[i], moments[j].event.action.r)
  {
    hide IsRun;
    hide IsLife;
    hide ArtifactsSound;
    hide CustodySound;
    hide Sound;
    hide BindingsSound;
    hide Current;
    EpochIsRun(worlds, moments, i, j + 1);
    var run, events := worlds[i..j + 2], EventsOf(moments, i, j + 1);
    assert run[0] == worlds[i] && run[j - i] == worlds[j] && run[j + 1 - i] == worlds[j + 1];
    assert events[j - i] == moments[j].event;
    StaleNeverCommits(run, events, 0, j - i);
  }

  /** A restart ends every reservation: nothing reserved before it can commit after it. */
  lemma RestartForgets(w: World, r: Restart)
    requires Healthy(w) && Positions(r.kept, |w.log|)
    ensures Restarted(w, r).issued == {} && Restarted(w, r).owed == multiset{}
    ensures forall id, p :: HasRecord(Restarted(w, r), id, p) ==> !InFlight(Restarted(w, r).sessions[id].phases[p].state)
  {
    hide Sound;
    hide CustodySound;
    hide BindingsSound;
    hide ArtifactsSound;
    hide Restarted;
    hide Resurfaced;
    RestartRest(w, r);
    RestartNotInFlight(w, r);
  }

  /** After a restart nothing is in flight: what was, is FENCED, and so the journal says. */
  lemma RestartFences(w: World, r: Restart, session: U64, phase: U64)
    requires Sound(w) && Positions(r.kept, |w.log|)
    requires var bundles := Kept(w.log, r.kept);
             && LastIndex(bundles, session) < |bundles|
             && phase in bundles[LastIndex(bundles, session)].session.phases
             && InFlight(bundles[LastIndex(bundles, session)].session.phases[phase].state)
    ensures HasRecord(Restarted(w, r), session, phase)
    ensures Restarted(w, r).sessions[session].phases[phase].state == Fenced
  {
    hide Sound;
    hide Restarted;
    hide LastIndex;
    hide Resurfaced;
    hide RestartedSession;
    var bundles := Kept(w.log, r.kept);
    var k := LastIndex(bundles, session);
    RestartSound(w, r);
    RecordIsSound(w, r.kept[k]);
    FencedOnRestart(bundles[k].session, r.epoch, r.now, phase);
  }

  lemma FencedOnRestart(s: CompilerSession, epoch: U64, now: U64, phase: U64)
    requires SessionSound(s) && phase in s.phases && InFlight(s.phases[phase].state)
    ensures phase in RestartedSession(s, epoch, now).phases
    ensures RestartedSession(s, epoch, now).phases[phase].state == Fenced
  {
    hide FencedRecord;
    PhasesOf(s, phase);
    PhaseInOrder(s, phase);
    FenceStep(s, s.phases[phase], now, RESTART);
    hide SessionSound;
  }

  /* ---------- Artifacts, over lives ---------- */

  /** At every moment of a life authoritative is the same as current and implies VALID, every
      lineage edge points to a smaller identity, and no lineage has a cycle. */
  lemma LifeAuthorityAndLineage(worlds: seq<World>, moments: seq<Moment>, k: nat, id: U64)
    requires LifeUpTo(worlds, moments, k) && id in worlds[k].artifacts.entries
    ensures var a := worlds[k].artifacts.entries[id];
            && (a.authority == Artifacts.Authoritative <==> a.current) && (a.current ==> a.state == Artifacts.Valid)
            && (forall n :: 0 <= n < |a.lineage| ==> a.lineage[n].id < id)
    ensures forall d: Provenance.Descent ::
              Provenance.Arrive(worlds[k].artifacts, id, d).Some? && d != [] ==> Provenance.Arrive(worlds[k].artifacts, id, d).value != id
  {
    hide IsLife;
    hide Sound;
    hide BindingsSound;
    hide CustodySound;
    hide Provenance.Arrive;
    LifeHealthy(worlds, moments, k);
    SoundArtifact(worlds[k], id);
  }
}
