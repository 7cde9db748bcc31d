/** Where artifact authority comes from: a commit that reached the journal. */
module AuthorityOrigin {
  import opened StrongId
  import opened Bytes
  import opened Wrappers
  import opened Phases
  import opened PhasePlans
  import opened Sessions
  import opened Runtime
  import opened Evolution
  import opened Safety
  import opened Bindings
  import opened Guarantees
  import opened CommitSafety
  import opened ArtifactSafety
  import opened Custody
  import opened Takeover
  import opened Restarts
  import opened Lives
  import opened Sorting
  import opened Artifacts
  import Authority
  import Provenance

  /** The session reported a commit of this phase generation, logged before the given position. */
  ghost predicate CommittedFor(commits: seq<CommitEvent>, session: U64, producer: Ref, before: nat) {
    exists k :: 0 <= k < |commits| && commits[k].session == session && commits[k].phase == producer.id
                && commits[k].generation == producer.generation && commits[k].at < before
  }

  predicate IsAuthoritative(t: Store, id: U64) {
    id in t.entries && t.entries[id].authority == Authoritative
  }

  /** Every authoritative artifact was produced by a phase generation that its session committed. */
  ghost predicate Backed(w: World) {
    forall s, a: U64 :: s in w.sessions && Has(w.sessions[s], a) && IsAuthoritative(w.artifacts, a) ==>
      CommittedFor(w.commits, s, w.artifacts.entries[a].producer, |w.log|)
  }

  /** ... and so was every artifact that the journal shows as authoritative. */
  ghost predicate LogBacked(w: World) {
    forall i, j :: 0 <= i < |w.log| && 0 <= j < |w.log[i].artifacts| && w.log[i].artifacts[j].authority == Authoritative ==>
      CommittedFor(w.commits, w.log[i].session.id, w.log[i].artifacts[j].producer, i + 1)
  }

  /** The commit passes every check and comes to publish: the reservation is current, the toolchain
      could be probed again, and everything the phase is bound to still holds. */
  predicate Publishes(w: World, r: Reservation, probe: Probe, now: U64) {
    && r in w.issued && Current(w, r) && w.sessions[r.session].phases[r.phase].state == CommitReady
    && !probe.ProbeFailed? && (probe.Probed? ==> probe.id in w.domains.toolchains.entries)
    && CommitVerdict(Reprobed(w, probe), r, now) == Authority.Valid
  }

  /** Publishing does not stop half-way: all outputs are VALID and the record is appended, or the
      first output is not VALID, or there is none. */
  predicate Whole(w: World, r: Reservation, env: Ambient) {
    var ids := Publishing(w, r);
    ids == [] || !MayHold(w.artifacts, ids[0], Authoritative) || (env.appended && AllMayHold(w.artifacts, ids))
  }

  /** A commit that comes to publish does not stop half-way. */
  ghost predicate Clean(w: World, e: Event) {
    e.action.DoCommit? && Publishes(w, e.action.r, e.action.probe, e.env.now) ==> Whole(w, e.action.r, e.env)
  }

  lemma StillCommitted(a: seq<CommitEvent>, b: seq<CommitEvent>, session: U64, producer: Ref, m: nat, n: nat)
    requires CommittedFor(a, session, producer, m) && a <= b && m <= n
    ensures CommittedFor(b, session, producer, n)
  {
    var k :| 0 <= k < |a| && a[k].session == session && a[k].phase == producer.id
             && a[k].generation == producer.generation && a[k].at < m;
    assert b[k] == a[k];
  }

  /** Authority came only to artifacts of a phase that its session has now committed. */
  lemma AuthorizedBacked(w: World, w': World, ids: seq<U64>, session: U64, producer: Ref)
    requires Backed(w) && Custodial(w) && Authorizes(w.artifacts, w'.artifacts, ids) && SameHoldings(w, w')
    requires w.commits <= w'.commits && |w.log| <= |w'.log|
    requires ids != [] ==> session in w.sessions && CommittedFor(w'.commits, session, producer, |w'.log|)
    requires forall id :: id in ids && id in w.artifacts.entries ==>
               w.artifacts.entries[id].producer == producer && Has(w.sessions[session], id)
    ensures Backed(w')
  {
    hide CommittedFor;
    hide SelfContained;
    hide Has;
    forall s, a: U64 | s in w'.sessions && Has(w'.sessions[s], a) && IsAuthoritative(w'.artifacts, a)
      ensures CommittedFor(w'.commits, s, w'.artifacts.entries[a].producer, |w'.log|)
    {
      HeldBefore(w, w', s, a);
      if IsAuthoritative(w.artifacts, a) {
        StillCommitted(w.commits, w'.commits, s, w.artifacts.entries[a].producer, |w.log|, |w'.log|);
      } else {
        assert a in ids && Has(w.sessions[session], a);
      }
    }
  }

  lemma HeldBefore(w: World, w': World, s: U64, a: U64)
    requires SameHoldings(w, w') && s in w'.sessions && Has(w'.sessions[s], a)
    ensures s in w.sessions && Has(w.sessions[s], a)
  {
  }

  lemma ExtendedBacked(w: World, w': World, session: U64, t: CompilerSession, producer: Ref, inputs: seq<Ref>, refs: seq<Ref>)
    requires Backed(w) && Extends(w.artifacts, w'.artifacts, producer, inputs, refs) && w'.commits == w.commits
    requires |w.log| <= |w'.log| && Adds(w, w', session, t, refs) && Registers(w, w', refs)
    ensures Backed(w')
  {
    hide CommittedFor;
    hide Has;
    forall s, a: U64 | s in w'.sessions && Has(w'.sessions[s], a) && IsAuthoritative(w'.artifacts, a)
      ensures CommittedFor(w'.commits, s, w'.artifacts.entries[a].producer, |w'.log|)
    {
      assert a in w.artifacts.entries && w'.artifacts.entries[a] == w.artifacts.entries[a];
      assert Has(w.sessions[s], a);
      StillCommitted(w.commits, w'.commits, s, w.artifacts.entries[a].producer, |w.log|, |w'.log|);
    }
  }

  /** A clean commit either is reported or gives no authority. */
  lemma CleanCommit(w: World, r: Reservation, probe: Probe, pub: Publication, env: Ambient)
    requires Publishes(w, r, probe, env.now) ==> Whole(w, r, env)
    ensures var w' := Commit(w, r, probe, pub, env);
            w'.commits != w.commits || StoreKept(w.artifacts, w'.artifacts)
  {
    hide StoreKept;
    hide Whole;
    hide Publish;
    hide CommitVerdict;
    hide BundleOf;
    hide FencedForCommit;
    hide StatusOf;
    hide RevokeOutputs;
    hide Authority.Revoke;
    hide CloseAttempt;
    KeptSelf(w.artifacts);
    if Publishes(w, r, probe, env.now) {
      WholeSame(w, r, probe, env);
      PublishReports(Reprobed(w, probe), r, pub, env);
    } else if Current(w, r) {
      var p := w.sessions[r.session].phases[r.phase];
      RevokeKept(w.artifacts, p.id, p.generation, REFUSED);
      if probe.ProbeFailed? {
        RevokeKept(w.artifacts, p.id, p.generation, probe.detail);
      }
    }
  }

  /** Probing the toolchain again leaves phases and artifacts alone. */
  lemma WholeSame(w: World, r: Reservation, probe: Probe, env: Ambient)
    ensures Whole(Reprobed(w, probe), r, env) == Whole(w, r, env)
    ensures Publishing(Reprobed(w, probe), r) == Publishing(w, r) && Reprobed(w, probe).artifacts == w.artifacts
  {
  }

  lemma PublishReports(w: World, r: Reservation, pub: Publication, env: Ambient)
    requires HasRecord(w, r.session, r.phase) && Whole(w, r, env)
    ensures var w' := Publish(w, r, pub, env);
            w'.commits != w.commits || StoreKept(w.artifacts, w'.artifacts)
  {
    hide CommittedSession;
    hide BundleOf;
    hide NextGenerations;
    hide Authority.Revoke;
    hide StoreKept;
    hide MayHold;
    var ids := Publishing(w, r);
    StampedStates(w.artifacts, ids, pub.provenance);
    StampedKept(w.artifacts, ids, pub.provenance);
    hide Stamped;
  }

  lemma StampedStates(t: Store, ids: seq<U64>, provenance: U64)
    ensures AllMayHold(Stamped(t, ids, provenance), ids) <==> AllMayHold(t, ids)
    ensures forall id: U64 :: MayHold(Stamped(t, ids, provenance), id, Authoritative) <==> MayHold(t, id, Authoritative)
  {
    forall id: U64
      ensures MayHold(Stamped(t, ids, provenance), id, Authoritative) <==> MayHold(t, id, Authoritative)
    {
    }
  }

  lemma StepBacked(w: World, e: Event, w': World)
    requires Healthy(w) && Backed(w) && Step(w, e, w') && Clean(w, e) && w'.artifacts.next < MAX_COUNTER
    ensures Backed(w')
  {
    hide Sound;
    hide BindingsSound;
    hide ArtifactsSound;
    hide Custodial;
    hide LogCustodial;
    hide Backed;
    hide Apply;
    StepSound(w, e, w');
    if CauseOf(e.action) == Reporting {
      ReportIs(w, e);
      if w' != w {
        var r :| Current(w, r) && w' == RecordCurrent(w, r, e.action.report, e.env);
        hide RecordCurrent;
        ReportBacked(w, r, e.action.report, e.env);
      }
    } else {
      StepHoldings(w, e, w');
      hide SameHoldings;
      hide SessionEvolves;
      if e.action.DoCommit? {
        hide Clean;
        CommitStepBacked(w, e, w');
      } else {
        hide Authorizes;
        ApplyStore(w, e);
        AuthorizedBacked(w, w', [], 0, ABSENT);
      }
    }
  }

  lemma CommitStepBacked(w: World, e: Event, w': World)
    requires Sound(w) && Sound(w') && Grows(w, w') && ArtifactsSound(w) && Custodial(w) && SameHoldings(w, w')
    requires Backed(w) && Step(w, e, w') && Clean(w, e) && e.action.DoCommit?
    ensures Backed(w')
  {
    hide Sound;
    hide ArtifactsSound;
    hide Custodial;
    hide SameHoldings;
    hide Backed;
    hide Commit;
    hide Authorizes;
    hide StoreKept;
    hide AllMayHold;
    hide SessionEvolves;
    hide CommitVerdict;
    var a := e.action;
    CommitStore(w, a.r, a.probe, a.pub, e.env);
    CleanCommit(w, a.r, a.probe, a.pub, e.env);
    if w'.commits == w.commits {
      KeptAuthorizes(w.artifacts, w'.artifacts, []);
      AuthorizedBacked(w, w', [], 0, ABSENT);
    } else {
      ReportedCommit(w, e, w');
      CommitBacked(w, e, w');
    }
  }

  lemma ReportBacked(w: World, r: Reservation, report: Report, env: Ambient)
    requires Healthy(w) && Backed(w) && Current(w, r) && Grows(w, RecordCurrent(w, r, report, env))
    requires RecordCurrent(w, r, report, env).artifacts.next < MAX_COUNTER
    ensures Backed(RecordCurrent(w, r, report, env))
  {
    hide Sound;
    hide BindingsSound;
    hide Custodial;
    hide LogCustodial;
    hide Backed;
    hide RecordCurrent;
    hide RecordOwned;
    hide Adds;
    hide Registers;
    hide SelfContained;
    hide SessionEvolves;
    RecordReports(w, r, report, env);
    RecordSilent(w, r, report, env);
    var w' := RecordCurrent(w, r, report, env);
    if w' != w {
      hide Extends;
      var t, q, refs :| Reports(w, w', r.session, t, q, refs);
      ReportsAdd(w, w', r.session, t, q, refs);
      ExtendedBacked(w, w', r.session, t, Ref(q.id, q.generation), w.sessions[r.session].phases[q.id].inputs, refs);
    }
  }

  lemma CommitBacked(w: World, e: Event, w': World)
    requires Sound(w) && ArtifactsSound(w) && Custodial(w) && SameHoldings(w, w') && Backed(w)
    requires e.action.DoCommit? && Commits(w, e, w', e.action.r)
    requires Grows(w, w') && Authorizes(w.artifacts, w'.artifacts, Publishing(w, e.action.r)) && Sound(w')
    ensures Backed(w')
  {
    hide CommitVerdict;
    hide SessionsSound;
    hide LogSound;
    hide Ordered;
    hide Authorizes;
    hide Backed;
    hide StoreSound;
    hide SameHoldings;
    hide Has;
    var r := e.action.r;
    Here(w, r.session, r.phase);
    var p := w.sessions[r.session].phases[r.phase];
    assert RecordOwned(w.artifacts, p);
    var event := w'.commits[|w.commits|];
    assert EventSound(w', event);
    assert event.session == r.session && event.phase == p.id && event.generation == p.generation;
    OwnHeldBy(w, r.session, r.phase);
    forall id | id in Publishing(w, r) && id in w.artifacts.entries
      ensures w.artifacts.entries[id].producer == Ref(p.id, p.generation) && Has(w.sessions[r.session], id)
    {
      var k :| 0 <= k < |OutputIds(p.outputs)| && OutputIds(p.outputs)[k] == id;
      assert p.outputs[k].id == id;
    }
    AuthorizedBacked(w, w', Publishing(w, r), r.session, Ref(p.id, p.generation));
  }

  lemma OwnHeldBy(w: World, session: U64, phase: U64)
    requires Custodial(w) && HasRecord(w, session, phase)
    ensures PhaseHeld(w.sessions[session], w.sessions[session].phases[phase])
  {
    assert SelfContained(w.sessions[session]);
  }

  /** The new record shows as authoritative only what is backed. */
  lemma StepLogBacked(w: World, e: Event, w': World)
    requires Step(w, e, w') && Healthy(w') && Backed(w') && LogBacked(w) && w.commits <= w'.commits
    ensures LogBacked(w')
  {
    hide Apply;
    hide Sound;
    hide BindingsSound;
    hide Custodial;
    hide LogCustodial;
    hide CommittedFor;
    hide Has;
    hide RecordedStore;
    hide Alike;
    hide Found;
    hide Sorted;
    hide RecordOwned;
    hide StoreSound;
    ApplyAppends(w, e);
    forall i, j | 0 <= i < |w.log| && 0 <= j < |w.log[i].artifacts| && w.log[i].artifacts[j].authority == Authoritative
      ensures CommittedFor(w'.commits, w.log[i].session.id, w.log[i].artifacts[j].producer, i + 1)
    {
      StillCommitted(w.commits, w'.commits, w.log[i].session.id, w.log[i].artifacts[j].producer, i + 1, i + 1);
    }
    if w'.log != w.log {
      var n := |w.log|;
      var b := w'.log[n];
      var t := RecordedStore(w, e);
      RecordedAlike(w, e);
      StoreKeyed(w'.artifacts);
      AlikeBelow(t, w'.artifacts);
      FoundPictures(b, t);
      PicturesAlike(b, t, w'.artifacts);
      assert forall i :: 0 <= i < n ==> w'.log[i] == w'.log[..n][i] == w.log[i];
    }
  }

  /** A commit that stops half-way has still given authority to its first output. */
  lemma HalfCommit(w: World, r: Reservation, pub: Publication, env: Ambient)
    requires HasRecord(w, r.session, r.phase) && Publishing(w, r) != [] && MayHold(w.artifacts, Publishing(w, r)[0], Authoritative)
    requires !(env.appended && AllMayHold(w.artifacts, Publishing(w, r)))
    ensures var w' := Publish(w, r, pub, env);
            && w'.commits == w.commits
            && Publishing(w, r)[0] in w'.artifacts.entries
            && w'.artifacts.entries[Publishing(w, r)[0]].authority == Authoritative
            && w'.artifacts.entries[Publishing(w, r)[0]].producer == w.artifacts.entries[Publishing(w, r)[0]].producer
  {
    hide CommittedSession;
    hide BundleOf;
    hide NextGenerations;
    hide Authority.Revoke;
    var ids := Publishing(w, r);
    StampedStates(w.artifacts, ids, pub.provenance);
    hide AllMayHold;
    FirstAuthorized(Stamped(w.artifacts, ids, pub.provenance), ids);
  }

  lemma FirstAuthorized(t: Store, ids: seq<U64>)
    requires ids != [] && MayHold(t, ids[0], Authoritative)
    ensures ids[0] in Authorized(t, ids).entries && Authorized(t, ids).entries[ids[0]].authority == Authoritative
    ensures Authorized(t, ids).entries[ids[0]].producer == t.entries[ids[0]].producer
  {
    StaysAuthorized(SetAuthority(t, ids[0], Authoritative), ids[1..], ids[0]);
  }

  lemma {:induction false} StaysAuthorized(t: Store, ids: seq<U64>, id: U64)
    requires id in t.entries && t.entries[id].authority == Authoritative
    ensures id in Authorized(t, ids).entries && Authorized(t, ids).entries[id].authority == Authoritative
    ensures Authorized(t, ids).entries[id].producer == t.entries[id].producer
    decreases |ids|
  {
    if ids != [] && MayHold(t, ids[0], Authoritative) {
      StaysAuthorized(SetAuthority(t, ids[0], Authoritative), ids[1..], id);
    }
  }

  /** A phase that is still to be committed has no commit of any generation. */
  lemma NotYetCommitted(w: World, session: U64, phase: U64)
    requires Sound(w) && HasRecord(w, session, phase) && w.sessions[session].phases[phase].state == CommitReady
    ensures forall generation: U64, n: nat :: !CommittedFor(w.commits, session, Ref(phase, generation), n)
  {
    hide SessionsSound;
    hide LogSound;
    hide Ordered;
    assert forall k :: 0 <= k < |w.commits| ==> EventSound(w, w.commits[k]);
  }

  /** Authority stays backed by commits exactly when publishing does not stop half-way: an append
      that is refused, or a later output that is not VALID, leaves the first output authoritative
      although its phase generation was never committed. */
  lemma PublishBackedIff(w: World, r: Reservation, probe: Probe, pub: Publication, env: Ambient)
    requires Healthy(w) && Backed(w)
    ensures Backed(Commit(w, r, probe, pub, env)) <==> (Publishes(w, r, probe, env.now) ==> Whole(w, r, env))
  {
    hide Sound;
    hide ArtifactsSound;
    hide BindingsSound;
    hide Custodial;
    hide LogCustodial;
    hide Publishes;
    hide Whole;
    hide SessionEvolves;
    hide Commit;
    hide Backed;
    hide Step;
    hide SameHoldings;
    var e := Event(DoCommit(r, probe, pub), env);
    var w' := Commit(w, r, probe, pub, env);
    CommitIs(w, e);
    StepSound(w, e, w');
    StepHoldings(w, e, w');
    if Clean(w, e) {
      CommitStepBacked(w, e, w');
    } else {
      HalfUnbacked(w, w', r, probe, pub, env);
    }
  }

  lemma HalfUnbacked(w: World, w': World, r: Reservation, probe: Probe, pub: Publication, env: Ambient)
    requires Sound(w) && ArtifactsSound(w) && Custodial(w) && w' == Commit(w, r, probe, pub, env) && SameHoldings(w, w')
    requires Publishes(w, r, probe, env.now) && !Whole(w, r, env)
    ensures !Backed(w')
  {
    hide Sound;
    hide ArtifactsSound;
    hide Custodial;
    hide CommitVerdict;
    hide Publish;
    hide AllMayHold;
    hide CommittedFor;
    hide SameHoldings;
    hide Has;
    WholeSame(w, r, probe, env);
    HalfCommit(Reprobed(w, probe), r, pub, env);
    PublishedHeld(w, w', r);
    NotYetCommitted(w, r.session, r.phase);
    FirstProducer(w, r);
  }

  lemma FirstProducer(w: World, r: Reservation)
    requires Sound(w) && ArtifactsSound(w) && HasRecord(w, r.session, r.phase) && Publishing(w, r) != []
    requires Publishing(w, r)[0] in w.artifacts.entries
    ensures var p := w.sessions[r.session].phases[r.phase];
            w.artifacts.entries[Publishing(w, r)[0]].producer == Ref(r.phase, p.generation)
  {
    hide SessionsSound;
    hide LogSound;
    hide CommitsSound;
    hide Ordered;
    hide StoreSound;
    Here(w, r.session, r.phase);
    var p := w.sessions[r.session].phases[r.phase];
    assert RecordOwned(w.artifacts, p);
    assert Publishing(w, r)[0] == p.outputs[0].id;
  }

  lemma CommitIs(w: World, e: Event)
    requires e.action.DoCommit?
    ensures Step(w, e, Commit(w, e.action.r, e.action.probe, e.action.pub, e.env))
  {
    hide Commit;
  }

  lemma PublishedHeld(w: World, w': World, r: Reservation)
    requires Custodial(w) && SameHoldings(w, w') && HasRecord(w, r.session, r.phase) && Publishing(w, r) != []
    ensures r.session in w'.sessions && Has(w'.sessions[r.session], Publishing(w, r)[0])
  {
    hide Has;
    OwnHeldBy(w, r.session, r.phase);
    SameHas(w, w', r.session);
    assert Publishing(w, r)[0] == w.sessions[r.session].phases[r.phase].outputs[0].id;
  }

  /* ---------- Restarts ---------- */

  /** A commit that a kept record shows is still reported after the restart. */
  lemma CommitResurfaces(w: World, kept: seq<nat>, session: U64, producer: Ref, i: nat)
    requires Positions(kept, |w.log|) && i < |kept| && w.log[kept[i]].session.id == session
    requires CommittedFor(w.commits, session, producer, kept[i] + 1)
    ensures CommittedFor(Resurfaced(w.commits, w.log, kept), session, producer, i + 1)
  {
    hide Resurfaced;
    var k :| 0 <= k < |w.commits| && w.commits[k].session == session && w.commits[k].phase == producer.id
             && w.commits[k].generation == producer.generation && w.commits[k].at < kept[i] + 1;
    assert ShownAt(w.log, kept, w.commits[k]) <= i;
    var m := IsResurfaced(w.commits, w.log, kept, k);
  }

  lemma ReloadedBacked(w: World, kept: seq<nat>, domains: Domains)
    requires LogBacked(w) && Positions(kept, |w.log|)
    ensures LogBacked(Reloaded(Kept(w.log, kept), Resurfaced(w.commits, w.log, kept), domains))
  {
    hide CommittedFor;
    hide Resurfaced;
    hide Reloaded;
    var bundles, commits := Kept(w.log, kept), Resurfaced(w.commits, w.log, kept);
    var v := Reloaded(bundles, commits, domains);
    ReloadedParts(bundles, commits, domains);
    forall i, j | 0 <= i < |v.log| && 0 <= j < |v.log[i].artifacts| && v.log[i].artifacts[j].authority == Authoritative
      ensures CommittedFor(v.commits, v.log[i].session.id, v.log[i].artifacts[j].producer, i + 1)
    {
      assert v.log[i] == w.log[kept[i]];
      CommitResurfaces(w, kept, v.log[i].session.id, v.log[i].artifacts[j].producer, i);
    }
  }

  /** The sessions in done are backed by commits that the bundles show. */
  ghost predicate BackedAmong(w: World, done: set<U64>, n: nat) {
    forall s, a: U64 :: s in done && s in w.sessions && Has(w.sessions[s], a) && IsAuthoritative(w.artifacts, a) ==>
      CommittedFor(w.commits, s, w.artifacts.entries[a].producer, n)
  }

  /** What the last bundle of a session brings along as authoritative is backed. */
  lemma LoadedBacked(w: World, bundles: seq<Bundle>, id: U64, t: Store, u: Store, v: Store, a: U64)
    requires LogBacked(w) && bundles <= w.log && LastIndex(bundles, id) < |bundles|
    requires var b := bundles[LastIndex(bundles, id)];
             BundleSound(b) && Loaded(t, u, b.artifacts) && StoreKept(u, v) && Has(b.session, a)
    requires IsAuthoritative(v, a)
    ensures CommittedFor(w.commits, id, v.entries[a].producer, |bundles|)
  {
    hide CommittedFor;
    hide LastIndex;
    hide BundleSound;
    hide Loaded;
    hide StoreKept;
    hide Has;
    var k := LastIndex(bundles, id);
    LastIs(bundles, id);
    var j := LoadedFrom(bundles[k], t, u, v, a);
    assert w.log[k] == bundles[k];
    StillCommitted(w.commits, w.commits, id, bundles[k].artifacts[j].producer, k + 1, |bundles|);
  }

  lemma LoadedFrom(b: Bundle, t: Store, u: Store, v: Store, a: U64) returns (j: nat)
    requires BundleSound(b) && Loaded(t, u, b.artifacts) && StoreKept(u, v) && Has(b.session, a) && IsAuthoritative(v, a)
    ensures j < |b.artifacts| && b.artifacts[j].authority == Authoritative && b.artifacts[j].producer == v.entries[a].producer
  {
    assert Stores(b, a) && Among(b.artifacts, a);
    var i :| 0 <= i < |b.artifacts| && b.artifacts[i].id == a && SameMatter(u.entries[a], b.artifacts[i]);
    assert SameArtifact(u.entries[a], v.entries[a]);
    j := i;
  }

  /** What is not loaded keeps its producer and gains no authority. */
  lemma UnloadedKept(t: Store, u: Store, v: Store, artifacts: seq<Artifact>, a: U64)
    requires Loaded(t, u, artifacts) && StoreKept(u, v) && !Among(artifacts, a) && IsAuthoritative(v, a)
    ensures IsAuthoritative(t, a) && v.entries[a].producer == t.entries[a].producer
  {
    hide Among;
    assert SameArtifact(u.entries[a], v.entries[a]);
  }

  lemma ResumeBacked(w: World, bundles: seq<Bundle>, done: set<U64>, id: U64, epoch: U64, now: U64, extras: Extras)
    requires TakenOver(w, bundles, done) && Apart(w) && id in w.sessions && id !in done && w.sessions[id].id == id
    requires LastIndex(bundles, id) < |bundles| && BundleSound(bundles[LastIndex(bundles, id)])
    requires bundles <= w.log && LogBacked(w) && BackedAmong(w, done, |bundles|)
    ensures BackedAmong(Resume(w, id, bundles[LastIndex(bundles, id)].artifacts, epoch, now, extras), done + {id}, |bundles|)
  {
    hide Resume;
    hide RestartedSession;
    hide FencedArtifacts;
    hide LoadArtifacts;
    hide StoreSound;
    hide BundleSound;
    hide LastIndex;
    hide Loaded;
    hide StoreKept;
    hide Apart;
    hide Has;
    hide CommittedFor;
    hide LogBacked;
    hide Furnished;
    var b := bundles[LastIndex(bundles, id)];
    var s := w.sessions[id];
    var u := LoadArtifacts(w.artifacts, b.artifacts);
    var v := FencedArtifacts(u, s, s.plan.order, RESTART);
    var w' := Resume(w, id, b.artifacts, epoch, now, extras);
    ResumeShape(w, id, b.artifacts, epoch, now, extras);
    ResumeRest(w, id, b.artifacts, epoch, now, extras);
    BundleFit(b);
    FurnishedStore(w, done);
    FurnishedKnown(w, done);
    LoadSound(w.artifacts, b.artifacts);
    FencedKept(u, s, s.plan.order, RESTART);
    forall x, a: U64 | x in done + {id} && x in w'.sessions && Has(w'.sessions[x], a) && IsAuthoritative(w'.artifacts, a)
      ensures CommittedFor(w'.commits, x, w'.artifacts.entries[a].producer, |bundles|)
    {
      if x == id {
        HasSame(w'.sessions[id], b.session, a);
        LoadedBacked(w, bundles, id, w.artifacts, u, v, a);
      } else {
        HeldApart(w, b, id, x);
        UnloadedKept(w.artifacts, u, v, b.artifacts, a);
      }
    }
  }

  lemma FurnishedKnown(w: World, done: set<U64>)
    requires Furnished(w, done)
    ensures forall id :: id in done ==> id in w.sessions
  {
  }

  lemma HasSame(s: CompilerSession, t: CompilerSession, a: U64)
    requires s.intermediates == t.intermediates && Has(s, a)
    ensures Has(t, a)
  {
  }

  lemma ResumeLogBacked(w: World, bundles: seq<Bundle>, done: set<U64>, id: U64, epoch: U64, now: U64, extras: Extras)
    requires LogBacked(w) && bundles <= w.log && id in w.sessions && w.sessions[id].id == id && LastIndex(bundles, id) < |bundles|
    requires var w' := Resume(w, id, bundles[LastIndex(bundles, id)].artifacts, epoch, now, extras);
             StoreSound(w'.artifacts) && BackedAmong(w', done + {id}, |bundles|)
    ensures LogBacked(Resume(w, id, bundles[LastIndex(bundles, id)].artifacts, epoch, now, extras))
  {
    hide Resume;
    hide StoreSound;
    hide LastIndex;
    hide Has;
    hide CommittedFor;
    hide Pictures;
    hide LogBacked;
    hide BackedAmong;
    var artifacts := bundles[LastIndex(bundles, id)].artifacts;
    var w' := Resume(w, id, artifacts, epoch, now, extras);
    ResumeAppends(w, id, artifacts, epoch, now, extras);
    PictureBacked(w', w'.log[|w.log|], done + {id}, |bundles|);
    LogBackedMore(w, w');
  }

  lemma LogBackedMore(w: World, w': World)
    requires LogBacked(w) && w'.commits == w.commits && |w'.log| == |w.log| + 1 && w'.log[..|w.log|] == w.log
    requires var b := w'.log[|w.log|];
             forall j :: 0 <= j < |b.artifacts| && b.artifacts[j].authority == Authoritative ==>
               CommittedFor(w'.commits, b.session.id, b.artifacts[j].producer, |w'.log|)
    ensures LogBacked(w')
  {
    hide CommittedFor;
    assert forall i :: 0 <= i < |w.log| ==> w'.log[i] == w'.log[..|w.log|][i] == w.log[i];
  }

  /** Taking a session over appends its picture. */
  lemma ResumeAppends(w: World, id: U64, artifacts: seq<Artifact>, epoch: U64, now: U64, extras: Extras)
    requires id in w.sessions && w.sessions[id].id == id && StoreSound(Resume(w, id, artifacts, epoch, now, extras).artifacts)
    ensures var w' := Resume(w, id, artifacts, epoch, now, extras);
            && |w'.log| == |w.log| + 1 && w'.log[..|w.log|] == w.log && w'.commits == w.commits
            && id in w'.sessions && w'.log[|w.log|].session == w'.sessions[id] && w'.sessions[id].id == id
            && Pictures(w'.log[|w.log|], w'.artifacts)
  {
    hide RestartedSession;
    hide FencedArtifacts;
    hide LoadArtifacts;
    hide Found;
    hide Sorted;
    hide StoreSound;
    hide Pictures;
    var w' := Resume(w, id, artifacts, epoch, now, extras);
    RestartedHoldings(w.sessions[id], epoch, now);
    StoreKeyed(w'.artifacts);
    FoundPictures(w'.log[|w.log|], w'.artifacts);
  }

  lemma PictureBacked(w: World, b: Bundle, done: set<U64>, n: nat)
    requires Pictures(b, w.artifacts) && b.session.id in done && b.session.id in w.sessions && b.session == w.sessions[b.session.id]
    requires BackedAmong(w, done, n) && n <= |w.log|
    ensures forall j :: 0 <= j < |b.artifacts| && b.artifacts[j].authority == Authoritative ==>
              CommittedFor(w.commits, b.session.id, b.artifacts[j].producer, |w.log|)
  {
    hide Has;
    hide CommittedFor;
    forall j | 0 <= j < |b.artifacts| && b.artifacts[j].authority == Authoritative
      ensures CommittedFor(w.commits, b.session.id, b.artifacts[j].producer, |w.log|)
    {
      assert SameMatter(b.artifacts[j], w.artifacts.entries[b.artifacts[j].id]);
      StillCommitted(w.commits, w.commits, b.session.id, b.artifacts[j].producer, n, |w.log|);
    }
  }

  lemma {:induction false} ResumeAllBacked(w: World, bundles: seq<Bundle>, ids: seq<U64>, done: set<U64>, r: Restart)
    requires TakenOver(w, bundles, done) && Apart(w) && LogTaken(w, bundles, done) && AllBundlesSound(bundles)
    requires Ascending(ids) && forall id :: id in ids ==> id !in done
    requires forall id :: id in ids ==> id in w.sessions && w.sessions[id].id == id && LastIndex(bundles, id) < |bundles|
    requires LogBacked(w) && BackedAmong(w, done, |bundles|)
    ensures var w' := ResumeAll(w, bundles, ids, r);
            LogBacked(w') && BackedAmong(w', done + set id | id in ids, |bundles|)
    decreases |ids|
  {
    hide TakenOver;
    hide Apart;
    hide LogTaken;
    hide LogBacked;
    hide BackedAmong;
    hide Resume;
    hide LastIndex;
    hide BundleSound;
    hide SameRest;
    if ids == [] {
      assert done + (set id | id in ids) == done;
    } else {
      var id := ids[0];
      FirstOf(ids, done);
      var extras := if id in r.extras then r.extras[id] else NO_EXTRAS;
      var artifacts := bundles[LastIndex(bundles, id)].artifacts;
      var w1 := Resume(w, id, artifacts, r.epoch, r.now, extras);
      ResumeTakes(w, bundles, done, id, r.epoch, r.now, extras);
      ResumeLogs(w, bundles, done, id, r.epoch, r.now, extras);
      ResumeRest(w, id, artifacts, r.epoch, r.now, extras);
      TakenParts(w, w1, bundles, done, done + {id});
      ResumeBacked(w, bundles, done, id, r.epoch, r.now, extras);
      ResumeLogBacked(w, bundles, done, id, r.epoch, r.now, extras);
      ResumeAllBacked(w1, bundles, ids[1..], done + {id}, r);
    }
  }

  lemma TakenParts(w: World, w1: World, bundles: seq<Bundle>, done: set<U64>, more: set<U64>)
    requires LogTaken(w, bundles, done) && TakenOver(w1, bundles, more)
    ensures bundles <= w.log && StoreSound(w1.artifacts)
  {
  }

  /** Across a restart, authority stays backed by commits that are still reported. */
  lemma RestartBacked(w: World, r: Restart)
    requires Healthy(w) && LogBacked(w) && Positions(r.kept, |w.log|)
    ensures Backed(Restarted(w, r)) && LogBacked(Restarted(w, r))
  {
    hide Sound;
    hide BindingsSound;
    hide ArtifactsSound;
    hide Custodial;
    hide LogCustodial;
    hide ResumeAll;
    hide Reloaded;
    hide Resurfaced;
    hide LastIndex;
    hide Apart;
    hide LogTaken;
    hide TakenOver;
    hide AllBundlesSound;
    hide Loads;
    hide LogBacked;
    hide Backed;
    hide BackedAmong;
    var bundles := Kept(w.log, r.kept);
    var commits := Resurfaced(w.commits, w.log, r.kept);
    var v := Reloaded(bundles, commits, r.domains);
    ReloadedParts(bundles, commits, r.domains);
    ReloadedSound(w, r.kept, r.domains);
    ReloadedApart(w, r.kept, v);
    StartTaken(bundles, commits, r.domains);
    ReloadedBacked(w, r.kept, r.domains);
    NoneBacked(v, |bundles|);
    LoadedIds(v, bundles);
    ResumeAllBacked(v, bundles, LoggedIds(bundles), {}, r);
    RestartTakes(w, r);
    BackedAll(Restarted(w, r), bundles, {} + set id | id in LoggedIds(bundles));
  }

  lemma NoneBacked(v: World, n: nat)
    ensures BackedAmong(v, {}, n)
  {
  }

  lemma BackedAll(w: World, bundles: seq<Bundle>, done: set<U64>)
    requires BackedAmong(w, done, |bundles|) && TakenOver(w, bundles, done) && LogTaken(w, bundles, done)
    requires done == {} + set id | id in LoggedIds(bundles)
    ensures Backed(w)
  {
    hide CommittedFor;
    hide Has;
    hide LastIndex;
    hide Furnished;
    hide BundleSound;
    AllDone(w, bundles, done);
    hide LoggedIds;
    forall s, a: U64 | s in w.sessions && Has(w.sessions[s], a) && IsAuthoritative(w.artifacts, a)
      ensures CommittedFor(w.commits, s, w.artifacts.entries[a].producer, |w.log|)
    {
      StillCommitted(w.commits, w.commits, s, w.artifacts.entries[a].producer, |bundles|, |w.log|);
    }
  }

  /* ---------- Lives ---------- */

  /** Over every life whose commits are clean, each authoritative artifact belongs to a session
      that committed the very phase generation which produced it. */
  lemma {:induction false} AuthorityIsBacked(worlds: seq<World>, moments: seq<Moment>, k: nat)
    requires LifeUpTo(worlds, moments, k)
    requires forall i :: 0 <= i < k && moments[i].Acts? ==> Clean(worlds[i], moments[i].event)
    ensures Backed(worlds[k]) && LogBacked(worlds[k])
    decreases k
  {
    hide Healthy;
    hide Step;
    hide Restarted;
    hide Backed;
    hide LogBacked;
    hide Clean;
    if k == 0 {
      InitialBacked();
    } else {
      AuthorityIsBacked(worlds, moments, k - 1);
      LifeHealthy(worlds, moments, k - 1);
      LifeHealthy(worlds, moments, k);
      assert Follows(worlds[k - 1], moments[k - 1], worlds[k - 1 + 1]);
      match moments[k - 1] {
        case Acts(event) =>
          StepBacked(worlds[k - 1], event, worlds[k]);
          CommitsKept(worlds[k - 1], event, worlds[k]);
          StepLogBacked(worlds[k - 1], event, worlds[k]);
        case Crashes(restart) =>
          RestartBacked(worlds[k - 1], restart);
      }
    }
  }

  lemma CommitsKept(w: World, e: Event, w': World)
    requires Healthy(w) && Step(w, e, w')
    ensures w.commits <= w'.commits
  {
    hide Sound;
    hide BindingsSound;
    hide ArtifactsSound;
    hide CustodySound;
    hide Apply;
    hide SessionEvolves;
    StepSound(w, e, w');
  }

  lemma InitialBacked()
    ensures Backed(Initial()) && LogBacked(Initial())
  {
  }

  /** The exact condition: over a life, authority is backed at every moment if and only if no commit
      that comes to publish stops half-way. */
  lemma AuthorityBackedIff(worlds: seq<World>, moments: seq<Moment>, k: nat)
    requires LifeUpTo(worlds, moments, k)
    ensures (forall i :: 0 <= i <= k ==> Backed(worlds[i]))
       <==> (forall i :: 0 <= i < k && moments[i].Acts? ==> Clean(worlds[i], moments[i].event))
  {
    hide Healthy;
    hide Step;
    hide Restarted;
    hide Backed;
    hide LogBacked;
    hide Clean;
    if forall i :: 0 <= i < k && moments[i].Acts? ==> Clean(worlds[i], moments[i].event) {
      forall i | 0 <= i <= k
        ensures Backed(worlds[i])
      {
        AuthorityIsBacked(worlds, moments, i);
      }
    }
    if forall i :: 0 <= i <= k ==> Backed(worlds[i]) {
      forall i | 0 <= i < k && moments[i].Acts?
        ensures Clean(worlds[i], moments[i].event)
      {
        LifeHealthy(worlds, moments, i);
        assert Follows(worlds[i], moments[i], worlds[i + 1]);
        assert Backed(worlds[i]) && Backed(worlds[i + 1]);
        CleanWhenBacked(worlds[i], moments[i].event, worlds[i + 1]);
      }
    }
  }

  lemma CleanWhenBacked(w: World, e: Event, w': World)
    requires Healthy(w) && Step(w, e, w') && Backed(w) && Backed(w')
    ensures Clean(w, e)
  {
    hide Healthy;
    hide Backed;
    hide Commit;
    hide Publishes;
    hide Whole;
    if e.action.DoCommit? {
      CommitIs(w, e);
      PublishBackedIff(w, e.action.r, e.action.probe, e.action.pub, e.env);
    }
  }

  /** Every registered artifact is held by a session, so that none escapes. */
  lemma EveryArtifactBacked(worlds: seq<World>, moments: seq<Moment>, k: nat, a: U64) returns (s: U64)
    requires LifeUpTo(worlds, moments, k) && IsAuthoritative(worlds[k].artifacts, a)
    requires forall i :: 0 <= i < k && moments[i].Acts? ==> Clean(worlds[i], moments[i].event)
    ensures CommittedFor(worlds[k].commits, s, worlds[k].artifacts.entries[a].producer, |worlds[k].log|)
  {
    hide IsLife;
    hide Sound;
    hide BindingsSound;
    hide ArtifactsSound;
    hide LogCustodial;
    hide LogBacked;
    hide CommittedFor;
    hide Clean;
    LifeHealthy(worlds, moments, k);
    AuthorityIsBacked(worlds, moments, k);
    s :| s in worlds[k].sessions && Has(worlds[k].sessions[s], a);
  }
}
