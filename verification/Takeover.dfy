/** A restarted runtime satisfies every invariant of a running one: attempts, artifacts and
    custody are in order again before the first action. */
module Takeover {
  import opened StrongId
  import opened Bytes
  import opened Wrappers
  import opened Phases
  import opened PhasePlans
  import opened Sessions
  import opened Sorting
  import opened Runtime
  import opened Evolution
  import opened Safety
  import opened Bindings
  import opened Artifacts
  import opened ArtifactSafety
  import opened Custody
  import opened Restarts
  import Authority
  import Provenance

  /* ---------- Loading artifacts ---------- */

  ghost predicate AllFit(artifacts: seq<Artifact>) {
    forall j :: 0 <= j < |artifacts| ==> ArtifactFit(artifacts[j])
  }

  ghost predicate Among(artifacts: seq<Artifact>, id: U64) {
    exists j :: 0 <= j < |artifacts| && artifacts[j].id == id
  }

  /** The registry has gained the loaded artifacts and kept the others. */
  ghost predicate Loaded(t: Store, u: Store, artifacts: seq<Artifact>) {
    && (forall id :: id in u.entries <==> id in t.entries || Among(artifacts, id))
    && (forall id :: id in t.entries && !Among(artifacts, id) ==> u.entries[id] == t.entries[id])
    && (forall id: U64 :: Among(artifacts, id) ==>
          exists j :: 0 <= j < |artifacts| && artifacts[j].id == id && SameMatter(u.entries[id], artifacts[j]))
  }

  lemma {:induction false} LoadSound(t: Store, artifacts: seq<Artifact>)
    requires StoreSound(t) && AllFit(artifacts)
    ensures StoreSound(LoadArtifacts(t, artifacts)) && Loaded(t, LoadArtifacts(t, artifacts), artifacts)
    decreases |artifacts|
  {
    hide StoreSound;
    hide Loaded;
    if artifacts == [] {
      LoadNone(t);
    } else {
      var a := artifacts[0];
      var u := LoadArtifacts(t, [a]);
      assert artifacts[..1] == [a] && [a][1..] == [];
      assert ArtifactFit(a);
      LoadOne(t, a);
      assert forall j :: 0 <= j < |artifacts[1..]| ==> artifacts[1..][j] == artifacts[j + 1];
      hide ArtifactFit;
      LoadSound(u, artifacts[1..]);
      LoadFirst(t, artifacts);
      LoadMore(t, u, LoadArtifacts(u, artifacts[1..]), artifacts);
    }
  }

  lemma LoadFirst(t: Store, artifacts: seq<Artifact>)
    requires artifacts != []
    ensures LoadArtifacts(t, artifacts) == LoadArtifacts(LoadArtifacts(t, [artifacts[0]]), artifacts[1..])
  {
    assert [artifacts[0]][1..] == [];
  }

  lemma LoadNone(t: Store)
    ensures Loaded(t, t, [])
  {
  }

  lemma LoadOne(t: Store, a: Artifact)
    requires StoreSound(t) && ArtifactFit(a)
    ensures StoreSound(LoadArtifacts(t, [a])) && Loaded(t, LoadArtifacts(t, [a]), [a])
  {
    assert [a][1..] == [];
    var u := LoadArtifacts(t, [a]);
    forall id: U64
      ensures Among([a], id) <==> id == a.id
    {
      assert [a][0].id == a.id;
    }
  }

  lemma LoadMore(t: Store, u: Store, v: Store, artifacts: seq<Artifact>)
    requires artifacts != [] && Loaded(t, u, artifacts[..1]) && Loaded(u, v, artifacts[1..])
    ensures Loaded(t, v, artifacts)
  {
    hide Among;
    hide SameMatter;
    var rest := artifacts[1..];
    AmongFirst(artifacts);
    forall id: U64 | Among(artifacts, id)
      ensures exists j :: 0 <= j < |artifacts| && artifacts[j].id == id && SameMatter(v.entries[id], artifacts[j])
    {
      if Among(rest, id) {
        var j :| 0 <= j < |rest| && rest[j].id == id && SameMatter(v.entries[id], rest[j]);
        assert artifacts[j + 1] == rest[j];
      } else {
        var j :| 0 <= j < |artifacts[..1]| && artifacts[..1][j].id == id && SameMatter(u.entries[id], artifacts[..1][j]);
        assert artifacts[..1][j] == artifacts[0] && v.entries[id] == u.entries[id];
      }
    }
  }

  lemma AmongFirst(artifacts: seq<Artifact>)
    requires artifacts != []
    ensures forall id: U64 :: Among(artifacts, id) <==> Among(artifacts[..1], id) || Among(artifacts[1..], id)
  {
    var first, rest := artifacts[..1], artifacts[1..];
    forall id: U64
      ensures Among(artifacts, id) <==> Among(first, id) || Among(rest, id)
    {
      if Among(rest, id) {
        var j :| 0 <= j < |rest| && rest[j].id == id;
        assert artifacts[j + 1].id == id;
      }
      if Among(artifacts, id) {
        var j :| 0 <= j < |artifacts| && artifacts[j].id == id;
        assert if j == 0 then first[0].id == id else rest[j - 1].id == id;
      }
    }
  }

  /* ---------- One session ---------- */

  /** What taking a session over leaves of its phases. */
  lemma RestartedRecord(s: CompilerSession, epoch: U64, now: U64, p: U64)
    requires p in s.phases
    ensures var t := RestartedSession(s, epoch, now);
            && t.phases.Keys == s.phases.Keys && t.intermediates == s.intermediates
            && t.phases[p].id == s.phases[p].id && t.phases[p].generation == s.phases[p].generation
            && t.phases[p].inputs == s.phases[p].inputs && t.phases[p].outputs == s.phases[p].outputs
  {
    hide Recorded;
    hide Moved;
  }

  lemma RestartedHoldings(s: CompilerSession, epoch: U64, now: U64)
    ensures var t := RestartedSession(s, epoch, now); t.intermediates == s.intermediates && t.id == s.id && t.phases.Keys == s.phases.Keys
  {
    hide FencedRecord;
  }

  /** Its bundle gives the registry all it refers to. */
  lemma BundleBacks(b: Bundle, t: Store, u: Store, v: Store, epoch: U64, now: U64)
    requires BundleSound(b) && Loaded(t, u, b.artifacts) && StoreKept(u, v)
    ensures Backs(v, RestartedSession(b.session, epoch, now))
  {
    hide RestartedSession;
    hide StoreKept;
    hide Loaded;
    hide RecordOwned;
    hide PhaseHeld;
    var s := RestartedSession(b.session, epoch, now);
    RestartedHoldings(b.session, epoch, now);
    forall p | p in s.phases
      ensures PhaseHeld(s, s.phases[p]) && RecordOwned(v, s.phases[p])
    {
      RestartedOwned(b, t, u, v, epoch, now, p);
    }
    forall a: U64 | Has(s, a)
      ensures a in v.entries
    {
      BundleHolds(b, t, u, v, a);
    }
  }

  lemma BundleHolds(b: Bundle, t: Store, u: Store, v: Store, a: U64)
    requires BundleSound(b) && Loaded(t, u, b.artifacts) && StoreKept(u, v) && Has(b.session, a)
    ensures a in v.entries
  {
    hide SameArtifact;
    assert Stores(b, a) && Among(b.artifacts, a);
  }

  lemma RestartedOwned(b: Bundle, t: Store, u: Store, v: Store, epoch: U64, now: U64, p: U64)
    requires BundleSound(b) && Loaded(t, u, b.artifacts) && StoreKept(u, v) && p in b.session.phases
    ensures var s := RestartedSession(b.session, epoch, now);
            p in s.phases && PhaseHeld(s, s.phases[p]) && RecordOwned(v, s.phases[p])
  {
    hide RestartedSession;
    hide StoreKept;
    hide Loaded;
    RestartedRecord(b.session, epoch, now, p);
    assert PhaseHeld(b.session, b.session.phases[p]);
    OutputsOwned(b, t, u, v, b.session.phases[p]);
    InputsOwned(b, t, u, v, b.session.phases[p]);
  }

  lemma OutputsOwned(b: Bundle, t: Store, u: Store, v: Store, p: PhaseRecord)
    requires BundleSound(b) && Loaded(t, u, b.artifacts) && StoreKept(u, v) && PhaseHeld(b.session, p) && OutputsStored(b, p)
    ensures forall k :: 0 <= k < |p.outputs| ==>
              p.outputs[k].id in v.entries && v.entries[p.outputs[k].id].producer == Ref(p.id, p.generation)
  {
    hide Has;
    forall k | 0 <= k < |p.outputs|
      ensures p.outputs[k].id in v.entries && v.entries[p.outputs[k].id].producer == Ref(p.id, p.generation)
    {
      var id := p.outputs[k].id;
      assert Has(b.session, id) && Stores(b, id) && Among(b.artifacts, id);
      var j :| 0 <= j < |b.artifacts| && b.artifacts[j].id == id && SameMatter(u.entries[id], b.artifacts[j]);
      assert SameArtifact(u.entries[id], v.entries[id]);
    }
  }

  lemma InputsOwned(b: Bundle, t: Store, u: Store, v: Store, p: PhaseRecord)
    requires BundleSound(b) && Loaded(t, u, b.artifacts) && StoreKept(u, v) && PhaseHeld(b.session, p)
    ensures forall k :: 0 <= k < |p.inputs| ==> p.inputs[k].id in v.entries
  {
    hide Has;
    hide SameArtifact;
    forall k | 0 <= k < |p.inputs|
      ensures p.inputs[k].id in v.entries
    {
      assert Stores(b, p.inputs[k].id) && Among(b.artifacts, p.inputs[k].id);
    }
  }

  /** A session whose artifacts are not among those loaded is backed as before. */
  lemma StillBacks(s: CompilerSession, t: Store, u: Store, v: Store, artifacts: seq<Artifact>)
    requires Backs(t, s) && Loaded(t, u, artifacts) && StoreKept(u, v)
    requires forall a: U64 :: Has(s, a) ==> !Among(artifacts, a)
    ensures Backs(v, s)
  {
    hide Among;
    forall p | p in s.phases
      ensures RecordOwned(v, s.phases[p])
    {
      assert RecordOwned(t, s.phases[p]) && PhaseHeld(s, s.phases[p]);
      forall k | 0 <= k < |s.phases[p].outputs|
        ensures v.entries[s.phases[p].outputs[k].id].producer == Ref(s.phases[p].id, s.phases[p].generation)
      {
        assert SameArtifact(u.entries[s.phases[p].outputs[k].id], v.entries[s.phases[p].outputs[k].id]);
      }
    }
  }

  /* ---------- All sessions ---------- */

  /** Sessions are as their bundles have them, except those in done. */
  ghost predicate Bundled(w: World, bundles: seq<Bundle>, done: set<U64>) {
    && (forall id :: id in w.sessions <==> LastIndex(bundles, id) < |bundles|)
    && (forall id :: id in w.sessions ==> w.sessions[id].intermediates == bundles[LastIndex(bundles, id)].session.intermediates)
    && (forall id :: id in w.sessions && id !in done ==> w.sessions[id] == bundles[LastIndex(bundles, id)].session)
  }

  /** The registry has exactly what the sessions in done refer to. */
  ghost predicate Furnished(w: World, done: set<U64>) {
    && StoreSound(w.artifacts)
    && (forall id :: id in done ==> id in w.sessions && Backs(w.artifacts, w.sessions[id]))
    && (forall a :: a in w.artifacts.entries ==> exists id :: id in done && id in w.sessions && Has(w.sessions[id], a))
  }

  /** The sessions in done have been taken over; the others are as their bundles have them. */
  ghost predicate TakenOver(w: World, bundles: seq<Bundle>, done: set<U64>) {
    Bundled(w, bundles, done) && Furnished(w, done)
  }

  /** ... and the records appended for them are sound. */
  ghost predicate LogTaken(w: World, bundles: seq<Bundle>, done: set<U64>) {
    && bundles <= w.log
    && forall i :: |bundles| <= i < |w.log| ==>
         && BundleSound(w.log[i]) && w.log[i].session.id in w.sessions && w.log[i].session.id in done
         && w.log[i].session == w.sessions[w.log[i].session.id]
  }

  /** No two sessions hold the same artifact. */
  ghost predicate Apart(w: World) {
    forall i, j, a: U64 :: i in w.sessions && j in w.sessions && Has(w.sessions[i], a) && Has(w.sessions[j], a) ==> i == j
  }

  /** Only one session is replaced, by one that holds the same. */
  ghost predicate Takes(w: World, w': World, id: U64) {
    && id in w.sessions && w'.sessions.Keys == w.sessions.Keys
    && w'.sessions[id].intermediates == w.sessions[id].intermediates
    && forall x :: x in w.sessions && x != id ==> w'.sessions[x] == w.sessions[x]
  }

  lemma ResumeShape(w: World, id: U64, artifacts: seq<Artifact>, epoch: U64, now: U64, extras: Extras)
    requires id in w.sessions && w.sessions[id].id == id
    ensures var w' := Resume(w, id, artifacts, epoch, now, extras);
            && Takes(w, w', id) && w'.sessions[id] == RestartedSession(w.sessions[id], epoch, now)
            && w'.artifacts == FencedArtifacts(LoadArtifacts(w.artifacts, artifacts), w.sessions[id], w.sessions[id].plan.order, RESTART)
  {
    hide RestartedSession;
    hide FencedArtifacts;
    hide LoadArtifacts;
    hide Runtime.BundleOf;
    RestartedHoldings(w.sessions[id], epoch, now);
  }

  lemma ResumeTakes(w: World, bundles: seq<Bundle>, done: set<U64>, id: U64, epoch: U64, now: U64, extras: Extras)
    requires TakenOver(w, bundles, done) && Apart(w) && id in w.sessions && id !in done && w.sessions[id].id == id
    requires LastIndex(bundles, id) < |bundles| && BundleSound(bundles[LastIndex(bundles, id)])
    ensures var w' := Resume(w, id, bundles[LastIndex(bundles, id)].artifacts, epoch, now, extras);
            TakenOver(w', bundles, done + {id}) && Apart(w')
  {
    hide Resume;
    hide RestartedSession;
    hide FencedArtifacts;
    hide LoadArtifacts;
    hide StoreSound;
    hide Backs;
    hide BundleSound;
    hide LastIndex;
    hide Loaded;
    hide StoreKept;
    hide Apart;
    hide Takes;
    hide Furnished;
    var b := bundles[LastIndex(bundles, id)];
    var s := w.sessions[id];
    var u := LoadArtifacts(w.artifacts, b.artifacts);
    var v := FencedArtifacts(u, s, s.plan.order, RESTART);
    ResumeShape(w, id, b.artifacts, epoch, now, extras);
    BundleFit(b);
    FurnishedStore(w, done);
    LoadSound(w.artifacts, b.artifacts);
    FencedKept(u, s, s.plan.order, RESTART);
    KeptSound(u, v);
    BundleBacks(b, w.artifacts, u, v, epoch, now);
    BundledStep(w, Resume(w, id, b.artifacts, epoch, now, extras), bundles, done, id);
    FurnishedStep(w, Resume(w, id, b.artifacts, epoch, now, extras), done, id, b, u);
    StillApart(w, Resume(w, id, b.artifacts, epoch, now, extras), id);
  }

  lemma StillApart(w: World, w': World, id: U64)
    requires Apart(w) && Takes(w, w', id)
    ensures Apart(w')
  {
    forall x, a: U64 | x in w'.sessions && Has(w'.sessions[x], a)
      ensures Has(w.sessions[x], a)
    {
    }
  }

  lemma BundledStep(w: World, w': World, bundles: seq<Bundle>, done: set<U64>, id: U64)
    requires Bundled(w, bundles, done) && Takes(w, w', id)
    ensures Bundled(w', bundles, done + {id})
  {
    hide LastIndex;
  }

  lemma FurnishedStep(w: World, w': World, done: set<U64>, id: U64, b: Bundle, u: Store)
    requires Furnished(w, done) && Apart(w) && Takes(w, w', id) && id !in done
    requires BundleSound(b) && b.session.intermediates == w.sessions[id].intermediates
    requires Loaded(w.artifacts, u, b.artifacts) && StoreKept(u, w'.artifacts)
    requires StoreSound(w'.artifacts) && Backs(w'.artifacts, w'.sessions[id])
    ensures Furnished(w', done + {id})
  {
    hide StoreSound;
    hide Backs;
    hide BundleSound;
    hide Loaded;
    hide StoreKept;
    hide Apart;
    hide Has;
    forall x | x in done
      ensures Backs(w'.artifacts, w.sessions[x])
    {
      HeldApart(w, b, id, x);
      StillBacks(w.sessions[x], w.artifacts, u, w'.artifacts, b.artifacts);
    }
    forall a | a in w'.artifacts.entries
      ensures exists x :: x in done + {id} && x in w'.sessions && Has(w'.sessions[x], a)
    {
      LoadedHeld(b, w.artifacts, u, w'.artifacts, w'.sessions[id], a);
      if a in w.artifacts.entries {
        var x :| x in done && x in w.sessions && Has(w.sessions[x], a);
        assert x in done + {id} && Has(w'.sessions[x], a);
      } else {
        assert id in done + {id} && Has(w'.sessions[id], a);
      }
    }
  }

  lemma FurnishedStore(w: World, done: set<U64>)
    requires Furnished(w, done)
    ensures StoreSound(w.artifacts)
  {
  }

  lemma BundleFit(b: Bundle)
    requires BundleSound(b)
    ensures AllFit(b.artifacts)
  {
  }

  lemma KeptSound(t: Store, u: Store)
    requires StoreSound(t) && StoreKept(t, u)
    ensures StoreSound(u)
  {
    forall id | id in t.entries
      ensures SameArtifact(t.entries[id], u.entries[id])
    {
    }
  }

  lemma HeldApart(w: World, b: Bundle, id: U64, x: U64)
    requires Apart(w) && BundleSound(b) && id in w.sessions && x in w.sessions && x != id
    requires w.sessions[id].intermediates == b.session.intermediates
    ensures forall a: U64 :: Has(w.sessions[x], a) ==> !Among(b.artifacts, a)
  {
    forall a: U64 | Has(w.sessions[x], a)
      ensures !Among(b.artifacts, a)
    {
      assert Stores(b, a) <==> Has(b.session, a);
      assert Stores(b, a) <==> Among(b.artifacts, a);
      assert Has(b.session, a) <==> Has(w.sessions[id], a);
    }
  }

  lemma LoadedHeld(b: Bundle, t: Store, u: Store, v: Store, s: CompilerSession, a: U64)
    requires BundleSound(b) && Loaded(t, u, b.artifacts) && StoreKept(u, v) && a in v.entries
    requires s.intermediates == b.session.intermediates
    ensures a in t.entries || Has(s, a)
  {
    assert Among(b.artifacts, a) ==> Stores(b, a);
  }

  lemma ResumeLogs(w: World, bundles: seq<Bundle>, done: set<U64>, id: U64, epoch: U64, now: U64, extras: Extras)
    requires LogTaken(w, bundles, done) && id in w.sessions && id !in done && w.sessions[id].id == id && LastIndex(bundles, id) < |bundles|
    requires TakenOver(Resume(w, id, bundles[LastIndex(bundles, id)].artifacts, epoch, now, extras), bundles, done + {id})
    ensures LogTaken(Resume(w, id, bundles[LastIndex(bundles, id)].artifacts, epoch, now, extras), bundles, done + {id})
  {
    hide RestartedSession;
    hide FencedArtifacts;
    hide LoadArtifacts;
    hide Found;
    hide Sorted;
    hide StoreSound;
    hide Backs;
    hide BundleSound;
    hide Pictures;
    hide LastIndex;
    var w' := Resume(w, id, bundles[LastIndex(bundles, id)].artifacts, epoch, now, extras);
    RestartedHoldings(w.sessions[id], epoch, now);
    var n := |w.log|;
    var b := w'.log[n];
    assert b.session == w'.sessions[id];
    StoreKeyed(w'.artifacts);
    FoundPictures(b, w'.artifacts);
    assert Backs(w'.artifacts, w'.sessions[id]);
    PictureSound(w'.artifacts, b);
  }

  lemma StoreKeyed(t: Store)
    requires StoreSound(t)
    ensures forall id :: id in t.entries ==> t.entries[id].id == id
  {
  }

  /** What resuming leaves alone. */
  ghost predicate SameRest(w: World, w': World) {
    && w'.issued == w.issued && w'.owed == w.owed && w'.leases == w.leases && w'.next == w.next
    && w'.domains == w.domains && w'.commits == w.commits && w'.shuttingDown == w.shuttingDown
  }

  ghost predicate AllBundlesSound(bundles: seq<Bundle>) {
    forall i :: 0 <= i < |bundles| ==> BundleSound(bundles[i])
  }

  lemma {:induction false} ResumeAllTakes(w: World, bundles: seq<Bundle>, ids: seq<U64>, done: set<U64>, r: Restart)
    requires TakenOver(w, bundles, done) && Apart(w) && LogTaken(w, bundles, done) && AllBundlesSound(bundles)
    requires Ascending(ids) && forall id :: id in ids ==> id !in done
    requires forall id :: id in ids ==> id in w.sessions && w.sessions[id].id == id && LastIndex(bundles, id) < |bundles|
    ensures var w' := ResumeAll(w, bundles, ids, r);
            && TakenOver(w', bundles, done + set id | id in ids) && Apart(w') && LogTaken(w', bundles, done + set id | id in ids) && SameRest(w, w')
    decreases |ids|
  {
    hide TakenOver;
    hide Apart;
    hide LogTaken;
    hide Resume;
    hide LastIndex;
    hide BundleSound;
    hide SameRest;
    if ids == [] {
      assert done + (set id | id in ids) == done;
      RestSame(w, w, w);
    } else {
      var id := ids[0];
      FirstOf(ids, done);
      var extras := if id in r.extras then r.extras[id] else NO_EXTRAS;
      var artifacts := bundles[LastIndex(bundles, id)].artifacts;
      var w1 := Resume(w, id, artifacts, r.epoch, r.now, extras);
      ResumeTakes(w, bundles, done, id, r.epoch, r.now, extras);
      ResumeLogs(w, bundles, done, id, r.epoch, r.now, extras);
      ResumeRest(w, id, artifacts, r.epoch, r.now, extras);
      ResumeAllTakes(w1, bundles, ids[1..], done + {id}, r);
      RestSame(w, w1, ResumeAll(w1, bundles, ids[1..], r));
    }
  }

  lemma FirstOf(ids: seq<U64>, done: set<U64>)
    requires Ascending(ids) && ids != []
    ensures ids[0] !in ids[1..] && Ascending(ids[1..])
    ensures forall id :: id in ids[1..] ==> id in ids
    ensures done + {ids[0]} + (set x | x in ids[1..]) == done + set x | x in ids
  {
    assert ids == [ids[0]] + ids[1..];
  }

  lemma RestSame(a: World, b: World, c: World)
    ensures SameRest(a, a)
    ensures SameRest(a, b) && SameRest(b, c) ==> SameRest(a, c)
  {
  }

  lemma ResumeRest(w: World, id: U64, artifacts: seq<Artifact>, epoch: U64, now: U64, extras: Extras)
    requires id in w.sessions && w.sessions[id].id == id
    ensures var w' := Resume(w, id, artifacts, epoch, now, extras);
            && SameRest(w, w') && w'.sessions.Keys == w.sessions.Keys
            && forall x :: x in w.sessions && x != id ==> w'.sessions[x] == w.sessions[x]
  {
    hide RestartedSession;
    hide FencedArtifacts;
    hide LoadArtifacts;
    hide Runtime.BundleOf;
    RestartedHoldings(w.sessions[id], epoch, now);
  }

  /* ---------- The restarted runtime ---------- */

  lemma ReloadedApart(w: World, kept: seq<nat>, v: World)
    requires CustodySound(w) && Positions(kept, |w.log|) && Loads(v, Kept(w.log, kept))
    ensures Apart(v) && AllBundlesSound(Kept(w.log, kept))
  {
    hide LastIndex;
    hide Has;
    hide BundleSound;
    var bundles := Kept(w.log, kept);
    forall i, a: U64 | i in v.sessions && Has(v.sessions[i], a)
      ensures i in w.sessions && Has(w.sessions[i], a)
    {
      var k := LastIndex(bundles, i);
      assert bundles[k] == w.log[kept[k]];
      LastIs(bundles, i);
      assert HoldsAll(w.log[kept[k]].session, w.sessions[i]);
    }
  }

  lemma LastIs(bundles: seq<Bundle>, id: U64)
    requires LastIndex(bundles, id) < |bundles|
    ensures bundles[LastIndex(bundles, id)].session.id == id
  {
  }

  lemma StartTaken(bundles: seq<Bundle>, commits: seq<CommitEvent>, domains: Domains)
    ensures var v := Reloaded(bundles, commits, domains); TakenOver(v, bundles, {}) && LogTaken(v, bundles, {})
  {
    hide LastIndex;
    hide BundleSound;
    hide Reloaded;
    var v := Reloaded(bundles, commits, domains);
    ReloadedParts(bundles, commits, domains);
    ReloadedBlank(bundles, commits, domains);
  }

  lemma ReloadedBlank(bundles: seq<Bundle>, commits: seq<CommitEvent>, domains: Domains)
    ensures var v := Reloaded(bundles, commits, domains);
            && v.artifacts == NO_ARTIFACTS && v.leases == Authority.NO_LEASES && v.issued == {} && v.owed == multiset{}
            && v.next.invocation == 1
  {
    hide LastIndex;
  }

  /** Every session is furnished: the runtime's artifacts are in order. */
  lemma FurnishedSound(w: World, done: set<U64>)
    requires Furnished(w, done) && Apart(w) && forall id :: id in w.sessions ==> id in done
    ensures ArtifactsSound(w) && Custodial(w)
  {
    hide StoreSound;
    hide Has;
    hide SelfContained;
    hide RecordOwned;
    forall id | id in w.sessions
      ensures Backs(w.artifacts, w.sessions[id])
    {
    }
  }

  lemma TakenLog(w: World, bundles: seq<Bundle>, done: set<U64>, before: World, kept: seq<nat>)
    requires Bundled(w, bundles, done) && LogTaken(w, bundles, done) && AllBundlesSound(bundles)
    requires LogCustodial(before) && Positions(kept, |before.log|) && bundles == Kept(before.log, kept)
    ensures LogCustodial(w)
  {
    hide BundleSound;
    hide LastIndex;
    hide Has;
    forall i | 0 <= i < |w.log|
      ensures BundleSound(w.log[i]) && w.log[i].session.id in w.sessions
      ensures HoldsAll(w.log[i].session, w.sessions[w.log[i].session.id])
    {
      if i < |bundles| {
        BundleGrows(w, bundles, done, before, kept, i);
      } else {
        SameHolds(w.log[i].session, w.sessions[w.log[i].session.id]);
      }
    }
    forall i, j | 0 <= i < j < |w.log| && w.log[i].session.id == w.log[j].session.id
      ensures HoldsAll(w.log[i].session, w.log[j].session)
    {
      if j < |bundles| {
        assert w.log[i] == before.log[kept[i]] && w.log[j] == before.log[kept[j]];
      } else {
        SameHolds(w.sessions[w.log[j].session.id], w.log[j].session);
      }
    }
  }

  lemma SameHolds(s: CompilerSession, t: CompilerSession)
    requires s.intermediates == t.intermediates
    ensures HoldsAll(s, t)
  {
  }

  lemma BundleGrows(w: World, bundles: seq<Bundle>, done: set<U64>, before: World, kept: seq<nat>, i: nat)
    requires Bundled(w, bundles, done) && i < |bundles| <= |w.log| && w.log[i] == bundles[i]
    requires LogCustodial(before) && Positions(kept, |before.log|) && bundles == Kept(before.log, kept)
    ensures w.log[i].session.id in w.sessions && HoldsAll(w.log[i].session, w.sessions[w.log[i].session.id])
  {
    hide BundleSound;
    hide Has;
    var id := bundles[i].session.id;
    var k := LastIndex(bundles, id);
    assert bundles[k] == before.log[kept[k]] && bundles[i] == before.log[kept[i]];
    assert i < k ==> HoldsAll(before.log[kept[i]].session, before.log[kept[k]].session);
    SameHolds(bundles[k].session, w.sessions[id]);
  }

  lemma RestartBindings(w: World, r: Restart, w': World)
    requires Sound(w) && Positions(r.kept, |w.log|) && w' == Restarted(w, r)
    requires w'.issued == {} && w'.leases == Authority.NO_LEASES && w'.next.invocation == 1
    ensures BindingsSound(w')
  {
    hide Sound;
    hide Restarted;
    RestartNotInFlight(w, r);
    forall id, p | id in w'.sessions && p in w'.sessions[id].phases
      ensures AttemptSound(w', w'.sessions[id].phases[p])
    {
      assert HasRecord(w', id, p);
    }
  }

  /** Nothing is in flight in a restarted runtime. */
  lemma RestartNotInFlight(w: World, r: Restart)
    requires Sound(w) && Positions(r.kept, |w.log|)
    ensures forall id, p :: HasRecord(Restarted(w, r), id, p) ==> !InFlight(Restarted(w, r).sessions[id].phases[p].state)
  {
    hide Sound;
    hide Restarted;
    hide RestartedSession;
    hide LastIndex;
    hide Resurfaced;
    RestartSound(w, r);
    var w' := Restarted(w, r);
    var bundles := Kept(w.log, r.kept);
    forall id, p | HasRecord(w', id, p)
      ensures !InFlight(w'.sessions[id].phases[p].state)
    {
      var k := LastIndex(bundles, id);
      RecordIsSound(w, r.kept[k]);
      RestartedGood(bundles[k].session, r.epoch, r.now);
      RestartedHoldings(bundles[k].session, r.epoch, r.now);
    }
  }

  lemma RecordIsSound(w: World, i: nat)
    requires Sound(w) && i < |w.log|
    ensures SessionSound(w.log[i].session)
  {
    hide SessionSound;
    hide SessionsSound;
    hide CommitsSound;
    hide Ordered;
  }

  /** Where the replay ends: each session of the journal taken over. */
  lemma RestartTakes(w: World, r: Restart)
    requires Sound(w) && CustodySound(w) && Positions(r.kept, |w.log|)
    ensures var w' := Restarted(w, r);
            var bundles := Kept(w.log, r.kept);
            var done := {} + set id | id in LoggedIds(bundles);
            && TakenOver(w', bundles, done) && Apart(w') && LogTaken(w', bundles, done) && AllBundlesSound(bundles)
            && w'.issued == {} && w'.leases == Authority.NO_LEASES && w'.next.invocation == 1 && w'.owed == multiset{}
  {
    hide Sound;
    hide CustodySound;
    hide ResumeAll;
    hide Reloaded;
    hide Resurfaced;
    hide LastIndex;
    hide Apart;
    hide LogTaken;
    hide TakenOver;
    hide AllBundlesSound;
    hide Loads;
    var bundles := Kept(w.log, r.kept);
    var commits := Resurfaced(w.commits, w.log, r.kept);
    var v := Reloaded(bundles, commits, r.domains);
    ReloadedParts(bundles, commits, r.domains);
    ReloadedSound(w, r.kept, r.domains);
    ReloadedApart(w, r.kept, v);
    StartTaken(bundles, commits, r.domains);
    ReloadedBlank(bundles, commits, r.domains);
    LoadedIds(v, bundles);
    ResumeAllTakes(v, bundles, LoggedIds(bundles), {}, r);
  }

  lemma RestartRest(w: World, r: Restart)
    requires Sound(w) && CustodySound(w) && Positions(r.kept, |w.log|)
    ensures Restarted(w, r).issued == {} && Restarted(w, r).owed == multiset{}
  {
    hide Sound;
    hide CustodySound;
    hide Restarted;
    hide TakenOver;
    hide LogTaken;
    hide Apart;
    hide AllBundlesSound;
    RestartTakes(w, r);
  }

  /** After any restart from any readable part of the journal, every invariant holds again. */
  lemma RestartHealthy(w: World, r: Restart)
    requires Sound(w) && CustodySound(w) && Positions(r.kept, |w.log|)
    ensures var w' := Restarted(w, r); BindingsSound(w') && ArtifactsSound(w') && CustodySound(w')
  {
    hide Sound;
    hide BindingsSound;
    hide ArtifactsSound;
    hide Custodial;
    hide LogCustodial;
    hide Restarted;
    hide LastIndex;
    hide LoggedIds;
    hide Apart;
    hide LogTaken;
    hide Bundled;
    hide Furnished;
    hide AllBundlesSound;
    RestartTakes(w, r);
    var w' := Restarted(w, r);
    var bundles := Kept(w.log, r.kept);
    var done := {} + set id | id in LoggedIds(bundles);
    RestartBindings(w, r, w');
    AllDone(w', bundles, done);
    FurnishedSound(w', done);
    TakenLog(w', bundles, done, w, r.kept);
  }

  lemma LoadedIds(v: World, bundles: seq<Bundle>)
    requires Sound(v) && Loads(v, bundles)
    ensures forall id :: id in LoggedIds(bundles) ==> id in v.sessions && v.sessions[id].id == id && LastIndex(bundles, id) < |bundles|
  {
    hide Sound;
    hide LastIndex;
    ReloadedIds(v);
  }

  lemma AllDone(w: World, bundles: seq<Bundle>, done: set<U64>)
    requires Bundled(w, bundles, done) && done == {} + set id | id in LoggedIds(bundles)
    ensures forall id :: id in w.sessions ==> id in done
  {
    hide LastIndex;
  }
}
