/** What must have held for a commit to happen: its authority was current throughout, its lease
    was never revoked, and its reservation was never superseded. */
module CommitSafety {
  import opened StrongId
  import opened Bytes
  import opened Wrappers
  import opened Phases
  import opened PhasePlans
  import opened Sessions
  import opened Registries
  import opened Runtime
  import opened Evolution
  import opened Safety
  import opened Bindings
  import opened Guarantees
  import Authority
  import Artifacts

  /* ---------- Runs move forward ---------- */

  lemma {:induction false} RunForward(worlds: seq<World>, events: seq<Event>, i: nat, j: nat)
    requires IsRun(worlds, events) && Sound(worlds[0]) && i <= j < |worlds|
    ensures Forward(worlds[i], worlds[j])
    decreases j - i
  {
    hide Sound;
    hide Forward;
    hide Apply;
    hide Grows;
    if i == j {
      hide Onward;
      SelfForward(worlds[i]);
    } else {
      RunForward(worlds, events, i, j - 1);
      RunSound(worlds, events, j - 1, j - 1);
      assert Step(worlds[j - 1], events[j - 1], worlds[j - 1 + 1]);
      ApplyForward(worlds[j - 1], events[j - 1]);
      ForwardTransitive(worlds[i], worlds[j - 1], worlds[j]);
    }
  }

  lemma SelfForward(w: World)
    ensures Forward(w, w)
  {
    LeasesReflexive(w.leases);
    StillForward(w, w);
  }

  lemma {:induction false} RunBindings(worlds: seq<World>, events: seq<Event>, k: nat)
    requires IsRun(worlds, events) && Sound(worlds[0]) && BindingsSound(worlds[0]) && k < |worlds|
    requires worlds[k].next.invocation < MAX_COUNTER
    ensures BindingsSound(worlds[k])
    decreases k
  {
    hide Sound;
    hide Forward;
    hide Apply;
    hide Grows;
    hide BindingsSound;
    hide Attempted;
    if k > 0 {
      RunSound(worlds, events, k - 1, k - 1);
      assert Step(worlds[k - 1], events[k - 1], worlds[k - 1 + 1]);
      RunForward(worlds, events, k - 1, k);
      CounterForward(worlds[k - 1], worlds[k]);
      RunBindings(worlds, events, k - 1);
      ApplyBindings(worlds[k - 1], events[k - 1]);
    }
  }

  lemma CounterForward(w: World, w': World)
    requires Forward(w, w')
    ensures w.next.invocation <= w'.next.invocation
  {
  }

  /* ---------- What a commit saw ---------- */

  /** The registries a commit compares with: those after its own re-probe. */
  function Reprobed(w: World, probe: Probe): World {
    if probe.Probed? then
      w.(domains := w.domains.(toolchains := Refreshed(w.domains.toolchains, probe.id, probe.observed, probe.mutated)))
    else w
  }

  /** A commit that was reported passed every check on the state it left behind. */
  ghost predicate Commits(w: World, e: Event, w': World, r: Reservation) {
    && e.action.DoCommit? && e.action.r == r && r in w.issued && Current(w, r)
    && w.sessions[r.session].phases[r.phase].state == CommitReady
    && w'.domains == Reprobed(w, e.action.probe).domains
    && CommitVerdict(Reprobed(w, e.action.probe), r, e.env.now) == Authority.Valid
    && |w'.commits| == |w.commits| + 1
    && w'.commits[|w.commits|].session == w.sessions[r.session].id
    && w'.commits[|w.commits|].phase == w.sessions[r.session].phases[r.phase].id
    && w'.commits[|w.commits|].generation == w.sessions[r.session].phases[r.phase].generation
  }

  lemma ReportedCommit(w: World, e: Event, w': World)
    requires Step(w, e, w') && w'.commits != w.commits
    ensures e.action.DoCommit? && Commits(w, e, w', e.action.r)
  {
    hide Launch;
    hide NoteProcess;
    hide RecordExecution;
    hide ReportOutput;
    hide ReproductionFailed;
    hide Validate;
    hide CancelPhase;
    hide FailPhase;
    hide BeginCommit;
    hide Create;
    hide Reserve;
    hide GrantRetry;
    hide FenceSession;
    hide CloseSession;
    hide RetireSession;
    hide SetSessionState;
    hide ApplyRecovery;
    hide Change;
    hide CommitVerdict;
    hide CommittedSession;
    hide BundleOf;
    hide Stamped;
    hide Authorized;
    hide AllMayHold;
    hide NextGenerations;
    hide Refreshed;
    hide FencedForCommit;
    hide StatusOf;
    if !e.action.DoCommit? {
      OthersSilent(w, e);
    }
  }

  /** The verdict, spelled out for the domains that can move. */
  lemma VerdictMeans(w: World, r: Reservation, now: U64)
    requires ReservationSound(w, r) && CommitVerdict(w, r, now) == Authority.Valid
    ensures var s := w.sessions[r.session];
            && (s.toolchain.Present() ==> Registered(w.domains.toolchains, s.toolchain))
            && (s.target.Present() ==> Registered(w.domains.targets, s.target))
            && (s.environment.Present() ==> Registered(w.domains.environments, s.environment))
            && (s.policy.Present() ==> Registered(w.domains.policies, s.policy))
    ensures Authority.IsHeld(w.leases, w.sessions[r.session].phases[r.phase].lease, now)
  {
    hide Authority.Compare;
    var s := w.sessions[r.session];
    var p := s.phases[r.phase];
    Authority.CompareValidIff(r.authority,
      Runtime.Observe(w.domains, s, r.authority.sessionGeneration, p.attemptGeneration, p.generation, p.lease,
              Authority.IsHeld(w.leases, p.lease, now)));
    hide Authority.IsHeld;
  }

  /** A session that was not there before was created by this event, out of what was
      registered then. */
  lemma CreatedBy(w: World, e: Event, w': World, session: U64)
    requires Sound(w) && Step(w, e, w') && session !in w.sessions && session in w'.sessions
    ensures NewSession(w, w'.sessions[session]) && w'.domains == w.domains
  {
    hide Sound;
    hide NewSession;
    hide Reserve;
    hide Create;
    hide Reservable;
    hide ReservedRecord;
    hide ReservedSession;
    hide ResolveInputs;
    var a := e.action;
    if a.DoCreate? {
      CreateShape(w, a.newSession, a.phasesUpTo, e.env);
    } else if a.DoReserve? {
      ReserveKeys(w, a.session, a.phase, a.isRetry, a.workspace, e.env);
    } else if !a.DoBeginCommit? {
      hide Apply;
      ApplyContinues(w, e);
    }
  }

  lemma ReserveKeys(w: World, session: U64, phase: U64, isRetry: bool, workspace: bool, env: Ambient)
    requires Sound(w)
    ensures Reserve(w, session, phase, isRetry, workspace, env).sessions.Keys == w.sessions.Keys
  {
    hide Sound;
    hide Reservable;
    hide ReservedRecord;
    hide ReservedSession;
    hide ResolveInputs;
    hide BundleOf;
    if Reservable(w, session, phase, isRetry) && workspace {
      ReserveGrants(w, session, phase, isRetry, env);
    }
  }

  /* ---------- No ABA ---------- */

  /** The entry a session is bound to is the same at both moments. */
  ghost predicate SameEntry<T>(a: Registry<T>, b: Registry<T>, reference: Ref) {
    reference.id in a.entries && reference.id in b.entries && a.entries[reference.id] == b.entries[reference.id]
  }

  ghost predicate SameAuthority(a: Domains, b: Domains, s: CompilerSession) {
    && SameEntry(a.toolchains, b.toolchains, s.toolchain)
    && SameEntry(a.targets, b.targets, s.target)
    && SameEntry(a.environments, b.environments, s.environment)
    && SameEntry(a.policies, b.policies, s.policy)
  }

  /** No bound generation has reached the saturated maximum. */
  predicate Unsaturated(s: CompilerSession) {
    && s.toolchain.generation < MAX_COUNTER && s.target.generation < MAX_COUNTER
    && s.environment.generation < MAX_COUNTER && s.policy.generation < MAX_COUNTER
  }

  ghost predicate BoundRegistered(d: Domains, s: CompilerSession) {
    && Registered(d.toolchains, s.toolchain) && Registered(d.targets, s.target)
    && Registered(d.environments, s.environment) && Registered(d.policies, s.policy)
  }

  lemma AuthorityBetween(a: World, m: World, b: World, s: CompilerSession)
    requires Forward(a, m) && Forward(m, b) && BoundRegistered(a.domains, s) && BoundRegistered(b.domains, s) && Unsaturated(s)
    ensures SameAuthority(a.domains, m.domains, s)
  {
    hide Evolves;
    hide Authority.LeasesEvolve;
    UnchangedBetween(a.domains.toolchains, m.domains.toolchains, b.domains.toolchains, s.toolchain);
    UnchangedBetween(a.domains.targets, m.domains.targets, b.domains.targets, s.target);
    UnchangedBetween(a.domains.environments, m.domains.environments, b.domains.environments, s.environment);
    UnchangedBetween(a.domains.policies, m.domains.policies, b.domains.policies, s.policy);
  }

  /** Event i created the session, and event j reported a commit in it. */
  ghost predicate CreatedThenCommitted(worlds: seq<World>, events: seq<Event>, i: nat, j: nat, session: U64) {
    && IsRun(worlds, events) && i < j < |events|
    && session !in worlds[i].sessions && session in worlds[i + 1].sessions
    && worlds[j + 1].commits != worlds[j].commits
    && worlds[j + 1].commits != [] && worlds[j + 1].commits[|worlds[j + 1].commits| - 1].session == session
  }

  /** At a reported commit everything the session is bound to is registered at exactly the
      generation bound at creation. */
  lemma CommitRegistered(worlds: seq<World>, events: seq<Event>, i: nat, j: nat, session: U64)
    requires CreatedThenCommitted(worlds, events, i, j, session)
    requires Sound(worlds[0]) && BindingsSound(worlds[0]) && worlds[j].next.invocation < MAX_COUNTER
    ensures BoundRegistered(worlds[i + 1].domains, worlds[i + 1].sessions[session])
    ensures BoundRegistered(worlds[j + 1].domains, worlds[i + 1].sessions[session])
  {
    hide Sound;
    hide BindingsSound;
    hide Apply;
    hide NewSession;
    hide CommitVerdict;
    RunSound(worlds, events, i + 1, j);
    RunSound(worlds, events, i, i);
    RunBindings(worlds, events, j);
    assert Step(worlds[i], events[i], worlds[i + 1]) && Step(worlds[j], events[j], worlds[j + 1]);
    CreatedBy(worlds[i], events[i], worlds[i + 1], session);
    SessionHere(worlds[i + 1], session);
    NewSessionBound(worlds[i], worlds[i + 1].sessions[session]);
    ReportedCommit(worlds[j], events[j], worlds[j + 1]);
    CommitBound(worlds[j], events[j], worlds[j + 1], worlds[i + 1].sessions[session]);
  }

  lemma NewSessionBound(w: World, s: CompilerSession)
    requires NewSession(w, s)
    ensures BoundRegistered(w.domains, s)
    ensures s.toolchain.Present() && s.target.Present() && s.environment.Present() && s.policy.Present()
  {
    hide IsPlan;
    hide InitialRecord;
  }

  lemma CommitBound(w: World, e: Event, w': World, s: CompilerSession)
    requires e.action.DoCommit? && Commits(w, e, w', e.action.r) && Sound(w) && BindingsSound(w)
    requires s.id in w.sessions && SameBinding(s, w.sessions[s.id]) && w'.commits[|w.commits|].session == s.id
    requires s.toolchain.Present() && s.target.Present() && s.environment.Present() && s.policy.Present()
    ensures BoundRegistered(w'.domains, s)
  {
    hide Sound;
    hide CommitVerdict;
    hide Registered;
    var r := e.action.r;
    var w1 := Reprobed(w, e.action.probe);
    SessionHere(w, r.session);
    assert ReservationSound(w, r);
    assert ReservationSound(w1, r);
    VerdictMeans(w1, r, e.env.now);
  }

  /** Commit safety without ABA. When a commit is reported, no effective refresh, invalidation
      or revision of the session's toolchain, target, environment or policy has happened since
      the session was created: at every moment in between, the bound entries are the ones the
      session was created with. */
  lemma NoAuthorityChange(worlds: seq<World>, events: seq<Event>, i: nat, j: nat, k: nat, session: U64)
    requires CreatedThenCommitted(worlds, events, i, j, session) && i < k <= j + 1
    requires Sound(worlds[0]) && BindingsSound(worlds[0]) && worlds[j].next.invocation < MAX_COUNTER
    requires Unsaturated(worlds[i + 1].sessions[session])
    ensures SameAuthority(worlds[i + 1].domains, worlds[k].domains, worlds[i + 1].sessions[session])
  {
    hide Sound;
    hide BindingsSound;
    hide Forward;
    hide Step;
    hide BoundRegistered;
    hide SameAuthority;
    CommitRegistered(worlds, events, i, j, session);
    RunForward(worlds, events, i + 1, k);
    RunForward(worlds, events, k, j + 1);
    AuthorityBetween(worlds[i + 1], worlds[k], worlds[j + 1], worlds[i + 1].sessions[session]);
  }

  /** The session is bound to registered identities. */
  predicate FullyBound(s: CompilerSession) {
    s.toolchain.Present() && s.target.Present() && s.environment.Present() && s.policy.Present()
  }

  /** An effective reservation compared everything the session is bound to, whether or not its
      append was accepted. */
  lemma ReservedRegistered(w: World, e: Event, w': World)
    requires Sound(w) && Step(w, e, w') && e.action.DoReserve? && w'.sessions != w.sessions
    ensures e.action.session in w.sessions && w'.domains == w.domains
    ensures FullyBound(w.sessions[e.action.session]) ==> BoundRegistered(w.domains, w.sessions[e.action.session])
  {
    hide Sound;
    hide Apply;
    hide Reserve;
    hide Reservable;
    hide BoundRegistered;
    var a := e.action;
    ReserveIs(w, e, w');
    EffectiveReserve(w, a.session, a.phase, a.isRetry, a.workspace, e.env);
    ReservableCompared(w, a.session, a.phase, a.isRetry);
  }

  lemma ReserveIs(w: World, e: Event, w': World)
    requires Step(w, e, w') && e.action.DoReserve?
    ensures w' == Reserve(w, e.action.session, e.action.phase, e.action.isRetry, e.action.workspace, e.env)
  {
    hide Reserve;
  }

  lemma EffectiveReserve(w: World, session: U64, phase: U64, isRetry: bool, workspace: bool, env: Ambient)
    requires Reserve(w, session, phase, isRetry, workspace, env).sessions != w.sessions
    ensures Reservable(w, session, phase, isRetry) && workspace
    ensures Reserve(w, session, phase, isRetry, workspace, env).domains == w.domains
  {
    hide Reservable;
    hide ReservedSession;
  }

  lemma ReservableCompared(w: World, session: U64, phase: U64, isRetry: bool)
    requires Reservable(w, session, phase, isRetry)
    ensures session in w.sessions && (FullyBound(w.sessions[session]) ==> BoundRegistered(w.domains, w.sessions[session]))
  {
    hide Authority.Compare;
    hide ResolveInputs;
    hide PhasePlans.IsPlan;
    var s := w.sessions[session];
    var p := s.phases[phase];
    Authority.CompareValidIff(AuthorityOf(s, p.(lease := ABSENT)),
      Runtime.Observe(w.domains, s, s.generation, if p.attemptGeneration != 0 then p.attemptGeneration else s.attemptGeneration,
              p.generation, ABSENT, true));
  }

  /** The same, since any reservation of a phase of the session, for a session of any age and for
      whichever reservation commits, be it handed out or rebuilt by commit_phase. */
  lemma NoChangeSinceReserved(worlds: seq<World>, events: seq<Event>, i: nat, j: nat, k: nat)
    requires IsRun(worlds, events) && i < j < |events| && i < k <= j + 1
    requires Sound(worlds[0]) && BindingsSound(worlds[0]) && worlds[j].next.invocation < MAX_COUNTER
    requires events[j].action.DoCommit? && worlds[j + 1].commits != worlds[j].commits
    requires events[i].action.DoReserve? && worlds[i + 1].sessions != worlds[i].sessions
    requires events[j].action.r.session == events[i].action.session
    ensures var s := events[i].action.session;
            s in worlds[i].sessions && (Unsaturated(worlds[i].sessions[s]) && FullyBound(worlds[i].sessions[s]) ==>
              SameAuthority(worlds[i].domains, worlds[k].domains, worlds[i].sessions[s]))
  {
    hide Sound;
    hide BindingsSound;
    hide Apply;
    hide Forward;
    hide BoundRegistered;
    hide SameAuthority;
    hide CommitVerdict;
    hide PhaseEvolves;
    var r := events[j].action.r;
    RunSound(worlds, events, i, j);
    RunBindings(worlds, events, j);
    assert Step(worlds[i], events[i], worlds[i + 1]) && Step(worlds[j], events[j], worlds[j + 1]);
    ReservedRegistered(worlds[i], events[i], worlds[i + 1]);
    ReportedCommit(worlds[j], events[j], worlds[j + 1]);
    SessionHere(worlds[i], r.session);
    SessionHere(worlds[j], r.session);
    if FullyBound(worlds[i].sessions[r.session]) && Unsaturated(worlds[i].sessions[r.session]) {
      CommitBound(worlds[j], events[j], worlds[j + 1], worlds[i].sessions[r.session]);
      RunForward(worlds, events, i, k);
      RunForward(worlds, events, k, j + 1);
      AuthorityBetween(worlds[i], worlds[k], worlds[j + 1], worlds[i].sessions[r.session]);
    }
  }

  /** The lease of a phase that commits is held at the commit, and was at every earlier moment
      since it was granted. */
  lemma LeaseNeverRevoked(worlds: seq<World>, events: seq<Event>, j: nat, k: nat)
    requires IsRun(worlds, events) && k <= j < |events| && worlds[j + 1].commits != worlds[j].commits
    requires Sound(worlds[0]) && BindingsSound(worlds[0]) && worlds[j].next.invocation < MAX_COUNTER
    ensures events[j].action.DoCommit? && HasRecord(worlds[j], events[j].action.r.session, events[j].action.r.phase)
    ensures var lease := worlds[j].sessions[events[j].action.r.session].phases[events[j].action.r.phase].lease;
            && lease.id in worlds[j].leases.entries
            && (lease.id in worlds[k].leases.entries ==> Authority.IsHeld(worlds[k].leases, lease, events[j].env.now))
  {
    hide Sound;
    hide Apply;
    hide CommitVerdict;
    hide Authority.IsHeld;
    RunBindings(worlds, events, j);
    assert Step(worlds[j], events[j], worlds[j + 1]);
    ReportedCommit(worlds[j], events[j], worlds[j + 1]);
    LeaseAtCommit(worlds[j], events[j], worlds[j + 1]);
    RunForward(worlds, events, k, j);
    LeaseEarlier(worlds[k], worlds[j], worlds[j].sessions[events[j].action.r.session].phases[events[j].action.r.phase].lease, events[j].env.now);
  }

  lemma LeaseAtCommit(w: World, e: Event, w': World)
    requires e.action.DoCommit? && Commits(w, e, w', e.action.r) && BindingsSound(w)
    ensures var r := e.action.r;
            HasRecord(w, r.session, r.phase)
            && w.sessions[r.session].phases[r.phase].lease.id in w.leases.entries
            && Authority.IsHeld(w.leases, w.sessions[r.session].phases[r.phase].lease, e.env.now)
  {
    hide CommitVerdict;
    hide Registered;
    hide Authority.IsHeld;
    var r := e.action.r;
    var w1 := Reprobed(w, e.action.probe);
    assert ReservationSound(w, r) && ReservationSound(w1, r);
    VerdictMeans(w1, r, e.env.now);
    assert AttemptSound(w, w.sessions[r.session].phases[r.phase]);
  }

  lemma LeaseEarlier(a: World, b: World, lease: Ref, now: U64)
    requires Forward(a, b) && Authority.IsHeld(b.leases, lease, now)
    ensures lease.id in a.leases.entries ==> Authority.IsHeld(a.leases, lease, now)
  {
    hide Evolves;
    if lease.id in a.leases.entries {
      Authority.HeldSinceGrant(a.leases, b.leases, lease, now);
    }
  }

  /* ---------- Superseded reservations ---------- */

  /** Once a phase has moved on from a reservation it never comes back to it. */
  lemma StaysStale(w: World, e: Event, w': World, r: Reservation)
    requires Sound(w) && BindingsSound(w) && Step(w, e, w') && r in w.issued && !Current(w, r)
    ensures !Current(w', r)
  {
    hide Sound;
    hide Apply;
    hide Forward;
    ApplyBindings(w, e);
    assert ReservationSound(w, r);
    assert HasRecord(w, r.session, r.phase);
  }

  lemma {:induction false} StaleForever(worlds: seq<World>, events: seq<Event>, r: Reservation, i: nat, j: nat)
    requires IsRun(worlds, events) && Sound(worlds[0]) && BindingsSound(worlds[0]) && i <= j < |worlds|
    requires worlds[j].next.invocation < MAX_COUNTER
    requires r in worlds[i].issued && !Current(worlds[i], r)
    ensures !Current(worlds[j], r)
    decreases j
  {
    hide Sound;
    hide BindingsSound;
    hide Apply;
    hide Current;
    hide Evolves;
    if i < j {
      RunForward(worlds, events, j - 1, j);
      RunForward(worlds, events, i, j - 1);
      StaleForever(worlds, events, r, i, j - 1);
      RunSound(worlds, events, j - 1, j - 1);
      RunBindings(worlds, events, j - 1);
      assert Step(worlds[j - 1], events[j - 1], worlds[j - 1 + 1]);
      StaysStale(worlds[j - 1], events[j - 1], worlds[j], r);
    }
  }

  /** A reservation commits only if it was current at every moment since it was handed out: a
      stale generation or invocation never causes a commit. */
  lemma StaleNeverCommits(worlds: seq<World>, events: seq<Event>, i: nat, j: nat)
    requires IsRun(worlds, events) && Sound(worlds[0]) && BindingsSound(worlds[0]) && i <= j < |events|
    requires worlds[j].next.invocation < MAX_COUNTER
    requires events[j].action.DoCommit? && events[j].action.r in worlds[i].issued
    requires worlds[j + 1].commits != worlds[j].commits
    ensures Current(worlds[i], events[j].action.r)
  {
    hide Sound;
    hide BindingsSound;
    hide Apply;
    hide Current;
    hide CommitVerdict;
    assert Step(worlds[j], events[j], worlds[j + 1]);
    ReportedCommit(worlds[j], events[j], worlds[j + 1]);
    if !Current(worlds[i], events[j].action.r) {
      StaleForever(worlds, events, events[j].action.r, i, j);
    }
  }
}
