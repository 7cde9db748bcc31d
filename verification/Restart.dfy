/** Restarting from the journal: the last bundle of each session wins, in-flight phases are
    fenced, and the session is persisted again (Runtime::create in src/core/runtime.cpp). */
module Restarts {
  import opened StrongId
  import opened Bytes
  import opened Wrappers
  import opened Phases
  import opened PhasePlans
  import opened Ancestry
  import opened Sessions
  import opened Sorting
  import opened Runtime
  import opened Evolution
  import opened Safety
  import Authority
  import Artifacts

  /** Position of the last bundle of a session, or |log|. */
  function LastIndex(log: seq<Bundle>, id: U64): (k: nat)
    ensures k <= |log|
    ensures k < |log| ==> log[k].session.id == id && forall i :: k < i < |log| ==> log[i].session.id != id
    ensures k == |log| ==> forall i :: 0 <= i < |log| ==> log[i].session.id != id
  {
    if log == [] then 0
    else
      var last := |log| - 1;
      if log[last].session.id == id then last
      else
        var k := LastIndex(log[..last], id);
        assert forall i :: 0 <= i < last ==> log[..last][i] == log[i];
        if k == last then |log| else k
  }

  function SessionIds(log: seq<Bundle>): (ids: seq<U64>)
    ensures |ids| == |log| && forall i :: 0 <= i < |log| ==> ids[i] == log[i].session.id
  {
    seq(|log|, i requires 0 <= i < |log| => log[i].session.id)
  }

  /** The session identities in the journal, ascending. */
  function LoggedIds(log: seq<Bundle>): (ids: seq<U64>)
    ensures Ascending(ids) && forall id :: id in ids <==> LastIndex(log, id) < |log|
  {
    var ids := SessionIds(log);
    assert forall id: U64 :: id in ids <==> LastIndex(log, id) < |log| by {
      forall id: U64
        ensures id in ids <==> LastIndex(log, id) < |log|
      {
        if LastIndex(log, id) < |log| {
          assert ids[LastIndex(log, id)] == id;
        }
      }
    }
    SortedUnique(ids)
  }

  /** Positions of journal records, in order. */
  predicate Positions(kept: seq<nat>, n: nat) {
    && (forall i :: 0 <= i < |kept| ==> kept[i] < n)
    && forall i, j :: 0 <= i < j < |kept| ==> kept[i] < kept[j]
  }

  /** The records that a start can read: those before the cut that decode. */
  function Kept(log: seq<Bundle>, kept: seq<nat>): (r: seq<Bundle>)
    requires Positions(kept, |log|)
    ensures |r| == |kept| && forall i :: 0 <= i < |kept| ==> r[i] == log[kept[i]]
  {
    seq(|kept|, i requires 0 <= i < |kept| => log[kept[i]])
  }

  /** The first kept record of the session at or after the record of a commit, or |kept|. */
  function ShownAt(log: seq<Bundle>, kept: seq<nat>, e: CommitEvent): (k: nat)
    requires Positions(kept, |log|)
    ensures k <= |kept|
    ensures k < |kept| ==> kept[k] >= e.at && log[kept[k]].session.id == e.session
    ensures forall i :: 0 <= i < k ==> kept[i] < e.at || log[kept[i]].session.id != e.session
  {
    FirstFrom(log, kept, e, 0)
  }

  function FirstFrom(log: seq<Bundle>, kept: seq<nat>, e: CommitEvent, from: nat): (k: nat)
    requires Positions(kept, |log|) && from <= |kept|
    ensures from <= k <= |kept|
    ensures k < |kept| ==> kept[k] >= e.at && log[kept[k]].session.id == e.session
    ensures forall i :: from <= i < k ==> kept[i] < e.at || log[kept[i]].session.id != e.session
    decreases |kept| - from
  {
    if from == |kept| || (kept[from] >= e.at && log[kept[from]].session.id == e.session) then from
    else FirstFrom(log, kept, e, from + 1)
  }

  /** The commits that the kept records show, each at the first record that shows it. */
  function Resurfaced(commits: seq<CommitEvent>, log: seq<Bundle>, kept: seq<nat>): seq<CommitEvent>
    requires Positions(kept, |log|)
  {
    if commits == [] then []
    else
      var e := commits[|commits| - 1];
      var k := ShownAt(log, kept, e);
      Resurfaced(commits[..|commits| - 1], log, kept) + if k < |kept| then [e.(at := k)] else []
  }

  /** The allocator has seen all these identities. */
  function Observed(ids: seq<U64>): (next: U64)
    ensures next >= 1 && forall id :: id in ids && id < MAX_COUNTER ==> id < next
  {
    if ids == [] then 1
    else
      assert ids == ids[..|ids| - 1] + [ids[|ids| - 1]];
      StrongId.Observe(Observed(ids[..|ids| - 1]), ids[|ids| - 1])
  }

  /** Sessions as the readable records have them; nothing else of the old process is left. Of
      the allocators only the one for sessions moves past what was recovered. */
  function Reloaded(bundles: seq<Bundle>, commits: seq<CommitEvent>, domains: Domains): World {
    World(false, domains,
          map id | id in LoggedIds(bundles) :: bundles[LastIndex(bundles, id)].session,
          Artifacts.NO_ARTIFACTS, Authority.NO_LEASES,
          Counters(Observed(LoggedIds(bundles)), 1, 1, 1, 1),
          bundles, multiset{}, multiset{}, {}, commits)
  }

  const RESTART: Text := Ascii("restart")

  function RestartedSession(s: CompilerSession, epoch: U64, now: U64): CompilerSession {
    var f := FencedSession(s, now, RESTART).(epoch := epoch);
    Advanced(if Closing(f) then f else f.(state := SessionRecovering, recoveryState := Required), now)
  }

  /** register_artifact_as, for the artifacts of a bundle. */
  function LoadArtifacts(t: Artifacts.Store, artifacts: seq<Artifacts.Artifact>): Artifacts.Store
    decreases |artifacts|
  {
    if artifacts == [] then t
    else
      var a := artifacts[0];
      var loaded := a.(generation := if a.generation == 0 then INITIAL else a.generation);
      LoadArtifacts(Artifacts.Store(t.entries[a.id := loaded], StrongId.Observe(t.next, a.id)), artifacts[1..])
  }

  /** One session taken over: its artifacts are registered again, its in-flight phases fenced,
      and its new state appended. */
  function Resume(w: World, id: U64, artifacts: seq<Artifacts.Artifact>, epoch: U64, now: U64, extras: Extras): World
    requires id in w.sessions
  {
    var s := w.sessions[id];
    var loaded := LoadArtifacts(w.artifacts, artifacts);
    Put(w.(artifacts := FencedArtifacts(loaded, s, s.plan.order, RESTART)),
        RestartedSession(s, epoch, now),
        Ambient(now, true, extras))
  }

  datatype Restart = Restart(kept: seq<nat>, domains: Domains, epoch: U64, now: U64, extras: map<U64, Extras>)

  const NO_EXTRAS: Extras := Extras([], [], [], [], [], [], [])

  /** The sessions are resumed in ascending order. */
  function ResumeAll(w: World, log: seq<Bundle>, ids: seq<U64>, r: Restart): World
    requires forall id :: id in ids ==> id in w.sessions && w.sessions[id].id == id && LastIndex(log, id) < |log|
    decreases |ids|
  {
    if ids == [] then w
    else
      var id := ids[0];
      assert ids == [id] + ids[1..];
      ResumeAll(
        Resume(w, id, log[LastIndex(log, id)].artifacts, r.epoch, r.now, if id in r.extras then r.extras[id] else NO_EXTRAS),
        log, ids[1..], r)
  }

  /** What a start makes of the bundles it reads. */
  function StartedFrom(bundles: seq<Bundle>, commits: seq<CommitEvent>, r: Restart): World {
    var w0 := Reloaded(bundles, commits, r.domains);
    ResumeAll(w0, bundles, LoggedIds(bundles), r)
  }

  function Restarted(w: World, r: Restart): World
    requires Positions(r.kept, |w.log|)
  {
    StartedFrom(Kept(w.log, r.kept), Resurfaced(w.commits, w.log, r.kept), r)
  }

  /* ---------- Soundness ---------- */

  /** The sessions of v are the last bundles of each session. */
  ghost predicate Loads(v: World, bundles: seq<Bundle>) {
    && v.log == bundles
    && (forall id :: id in v.sessions <==> LastIndex(bundles, id) < |bundles|)
    && (forall id :: id in v.sessions ==> v.sessions[id] == bundles[LastIndex(bundles, id)].session)
    && (forall id :: id in v.sessions && id < MAX_COUNTER ==> id < v.next.session)
  }

  lemma ReloadedParts(bundles: seq<Bundle>, commits: seq<CommitEvent>, domains: Domains)
    ensures Loads(Reloaded(bundles, commits, domains), bundles) && Reloaded(bundles, commits, domains).commits == commits
  {
    hide LastIndex;
  }

  /** Kept records are records of the journal, in its order. */
  lemma KeptEvolve(w: World, kept: seq<nat>, i: nat, j: nat)
    requires LogSound(w) && Positions(kept, |w.log|) && i <= j < |kept|
    requires w.log[kept[i]].session.id == w.log[kept[j]].session.id
    ensures SessionEvolves(w.log[kept[i]].session, w.log[kept[j]].session)
  {
    hide SessionSound;
    hide SessionEvolves;
    hide Mentioned;
    if i == j {
      EvolvesReflexive(w.log[kept[i]].session);
    }
  }

  lemma ReloadedSessions(w: World, kept: seq<nat>, v: World)
    requires SessionsSound(w) && LogSound(w) && Positions(kept, |w.log|) && Loads(v, Kept(w.log, kept))
    ensures SessionsSound(v)
    ensures forall id :: id in v.sessions ==> id in w.sessions && v.sessions[id].plan == w.sessions[id].plan
  {
    hide SessionSound;
    hide Mentioned;
    hide PhaseEvolves;
    hide LastIndex;
    var bundles := Kept(w.log, kept);
    forall id | id in v.sessions
      ensures v.sessions[id].id == id < v.next.session && SessionSound(v.sessions[id])
      ensures id in w.sessions && v.sessions[id].plan == w.sessions[id].plan
    {
      var k := LastIndex(bundles, id);
      assert bundles[k] == w.log[kept[k]];
      assert SessionEvolves(w.log[kept[k]].session, w.sessions[id]);
      assert id < w.next.session;
    }
  }

  /** What a journal record shows as committed is still reported after the restart. */
  lemma StillMentioned(w: World, kept: seq<nat>, id: U64, p: U64, i: nat)
    requires Positions(kept, |w.log|) && i < |kept| && w.log[kept[i]].session.id == id
    requires Mentioned(w.commits, id, p, kept[i] + 1)
    ensures Mentioned(Resurfaced(w.commits, w.log, kept), id, p, i + 1)
  {
    var k :| 0 <= k < |w.commits| && w.commits[k].session == id && w.commits[k].phase == p && w.commits[k].at < kept[i] + 1;
    assert ShownAt(w.log, kept, w.commits[k]) <= i;
    var m := IsResurfaced(w.commits, w.log, kept, k);
  }

  lemma {:induction false} IsResurfaced(commits: seq<CommitEvent>, log: seq<Bundle>, kept: seq<nat>, k: nat) returns (m: nat)
    requires Positions(kept, |log|) && k < |commits| && ShownAt(log, kept, commits[k]) < |kept|
    ensures m < |Resurfaced(commits, log, kept)|
    ensures Resurfaced(commits, log, kept)[m] == commits[k].(at := ShownAt(log, kept, commits[k]))
  {
    hide ShownAt;
    var n := |commits| - 1;
    if k < n {
      m := IsResurfaced(commits[..n], log, kept, k);
    } else {
      m := |Resurfaced(commits[..n], log, kept)|;
    }
  }

  lemma {:induction false} WasReported(commits: seq<CommitEvent>, log: seq<Bundle>, kept: seq<nat>, m: nat) returns (k: nat)
    requires Positions(kept, |log|) && m < |Resurfaced(commits, log, kept)|
    ensures k < |commits| && ShownAt(log, kept, commits[k]) < |kept|
    ensures Resurfaced(commits, log, kept)[m] == commits[k].(at := ShownAt(log, kept, commits[k]))
  {
    hide ShownAt;
    var n := |commits| - 1;
    if m < |Resurfaced(commits[..n], log, kept)| {
      k := WasReported(commits[..n], log, kept, m);
    } else {
      k := n;
    }
  }

  lemma ShownInOrder(log: seq<Bundle>, kept: seq<nat>, a: CommitEvent, b: CommitEvent)
    requires Positions(kept, |log|) && a.session == b.session && a.at <= b.at && ShownAt(log, kept, b) < |kept|
    ensures ShownAt(log, kept, a) <= ShownAt(log, kept, b)
  {
  }

  lemma {:induction false} ResurfacedDistinct(commits: seq<CommitEvent>, log: seq<Bundle>, kept: seq<nat>)
    requires Positions(kept, |log|) && Distinct(commits)
    ensures Distinct(Resurfaced(commits, log, kept))
  {
    hide ShownAt;
    if commits != [] {
      var n := |commits| - 1;
      var init := commits[..n];
      ResurfacedDistinct(init, log, kept);
      var r := Resurfaced(init, log, kept);
      forall m | 0 <= m < |r| && ShownAt(log, kept, commits[n]) < |kept|
        ensures r[m].session != commits[n].session || r[m].phase != commits[n].phase
        ensures r[m].session == commits[n].session ==> r[m].at <= ShownAt(log, kept, commits[n])
      {
        var k := WasReported(init, log, kept, m);
        if r[m].session == commits[n].session {
          ShownInOrder(log, kept, commits[k], commits[n]);
        }
      }
    }
  }

  /** Each commit comes after those of its dependencies, as the plans of w say. */
  ghost predicate DependenciesReported(w: World, commits: seq<CommitEvent>, before: nat) {
    forall k, d :: 0 <= k < |commits| && commits[k].session in w.sessions
                   && d in Dependencies(w.sessions[commits[k].session].plan.nodes, commits[k].phase) ==>
      Mentioned(commits[..k], commits[k].session, d, before)
  }

  lemma {:induction false} ResurfacedOrdered(w: World, n: nat, kept: seq<nat>)
    requires Positions(kept, |w.log|) && Distinct(w.commits) && n <= |w.commits|
    requires DependenciesReported(w, w.commits[..n], |w.log|)
    ensures DependenciesReported(w, Resurfaced(w.commits[..n], w.log, kept), |kept|)
    decreases n
  {
    hide ShownAt;
    hide Dependencies;
    var commits := w.commits[..n];
    var r := Resurfaced(commits, w.log, kept);
    if n > 0 {
      var init := w.commits[..n - 1];
      assert commits[..n - 1] == init;
      forall k, d | 0 <= k < |init| && init[k].session in w.sessions
                    && d in Dependencies(w.sessions[init[k].session].plan.nodes, init[k].phase)
        ensures Mentioned(init[..k], init[k].session, d, |w.log|)
      {
        assert init[k] == commits[k] && init[..k] == commits[..k];
      }
      ResurfacedOrdered(w, n - 1, kept);
      var s := Resurfaced(init, w.log, kept);
      forall k, d | 0 <= k < |r| && r[k].session in w.sessions
                    && d in Dependencies(w.sessions[r[k].session].plan.nodes, r[k].phase)
        ensures Mentioned(r[..k], r[k].session, d, |kept|)
      {
        if k < |s| {
          assert r[k] == s[k] && r[..k] == s[..k];
        } else {
          assert r[..k] == s;
          DependencyResurfaces(w, n, kept, d);
        }
      }
    }
  }

  lemma DependencyResurfaces(w: World, n: nat, kept: seq<nat>, d: U64)
    requires Positions(kept, |w.log|) && Distinct(w.commits) && 0 < n <= |w.commits|
    requires ShownAt(w.log, kept, w.commits[n - 1]) < |kept|
    requires Mentioned(w.commits[..n][..n - 1], w.commits[n - 1].session, d, |w.log|)
    ensures Mentioned(Resurfaced(w.commits[..n - 1], w.log, kept), w.commits[n - 1].session, d, |kept|)
  {
    hide ShownAt;
    var init := w.commits[..n - 1];
    assert w.commits[..n][..n - 1] == init;
    var j :| 0 <= j < |init| && init[j].session == w.commits[n - 1].session && init[j].phase == d;
    assert init[j] == w.commits[j];
    ShownInOrder(w.log, kept, w.commits[j], w.commits[n - 1]);
    var m := IsResurfaced(init, w.log, kept, j);
  }

  lemma ReloadedLog(w: World, kept: seq<nat>, v: World)
    requires LogSound(w) && Positions(kept, |w.log|) && Loads(v, Kept(w.log, kept))
    requires v.commits == Resurfaced(w.commits, w.log, kept)
    ensures LogSound(v)
  {
    hide SessionSound;
    hide SessionEvolves;
    hide Mentioned;
    hide Resurfaced;
    hide LastIndex;
    var bundles := Kept(w.log, kept);
    forall i | 0 <= i < |v.log|
      ensures SessionSound(v.log[i].session) && v.log[i].session.id in v.sessions
      ensures SessionEvolves(v.log[i].session, v.sessions[v.log[i].session.id])
    {
      var k := LastIndex(bundles, bundles[i].session.id);
      assert bundles[i] == w.log[kept[i]] && bundles[k] == w.log[kept[k]];
      KeptEvolve(w, kept, i, k);
    }
    forall i, j | 0 <= i < j < |v.log| && v.log[i].session.id == v.log[j].session.id
      ensures SessionEvolves(v.log[i].session, v.log[j].session)
    {
      KeptEvolve(w, kept, i, j);
    }
    forall i, p | 0 <= i < |v.log| && HasCommitted(v.log[i].session, p)
      ensures Mentioned(v.commits, v.log[i].session.id, p, i + 1)
    {
      StillMentioned(w, kept, v.log[i].session.id, p, i);
    }
  }

  lemma ReloadedEvents(w: World, kept: seq<nat>, v: World, m: nat)
    requires LogSound(w) && CommitsSound(w) && Positions(kept, |w.log|) && Loads(v, Kept(w.log, kept))
    requires v.commits == Resurfaced(w.commits, w.log, kept) && m < |v.commits|
    ensures EventSound(v, v.commits[m])
  {
    hide LogSound;
    hide SessionEvolves;
    hide LastIndex;
    hide FirstFrom;
    hide Mentioned;
    hide Resurfaced;
    var bundles := Kept(w.log, kept);
    var k := WasReported(w.commits, w.log, kept, m);
    var e := w.commits[k];
    assert EventSound(w, e);
    var at := ShownAt(w.log, kept, e);
    RecordsEvolve(w, e.at, kept[at]);
    CarriedOn(w.log[e.at].session, bundles[at].session, e);
    var last := LastIndex(bundles, e.session);
    KeptEvolve(w, kept, at, last);
    CarriedOn(bundles[at].session, bundles[last].session, e);
  }

  lemma RecordsEvolve(w: World, i: nat, j: nat)
    requires LogSound(w) && i <= j < |w.log| && w.log[i].session.id == w.log[j].session.id
    ensures SessionEvolves(w.log[i].session, w.log[j].session)
  {
    hide SessionSound;
    hide SessionEvolves;
    hide Mentioned;
    if i == j {
      EvolvesReflexive(w.log[i].session);
    }
  }

  lemma CarriedOn(s: CompilerSession, t: CompilerSession, e: CommitEvent)
    requires SessionEvolves(s, t) && e.phase in s.phases && Carries(s.phases[e.phase], e)
    ensures e.phase in t.phases && Carries(t.phases[e.phase], e)
  {
    assert PhaseEvolves(s.phases[e.phase], t.phases[e.phase]);
  }

  lemma ReloadedCommits(w: World, kept: seq<nat>, v: World)
    requires LogSound(w) && CommitsSound(w) && Positions(kept, |w.log|) && Loads(v, Kept(w.log, kept))
    requires v.commits == Resurfaced(w.commits, w.log, kept)
    ensures CommitsSound(v)
  {
    hide LogSound;
    hide EventSound;
    hide Resurfaced;
    hide LastIndex;
    hide Mentioned;
    forall m | 0 <= m < |v.commits|
      ensures EventSound(v, v.commits[m])
    {
      ReloadedEvents(w, kept, v, m);
    }
    var bundles := Kept(w.log, kept);
    forall id, p | id in v.sessions && HasCommitted(v.sessions[id], p)
      ensures Mentioned(v.commits, id, p, |v.log|)
    {
      var i := LastIndex(bundles, id);
      LoggedMention(w, kept[i], p);
      StillMentioned(w, kept, id, p, i);
      MentionedStays(v.commits, v.commits, id, p, i + 1, |v.log|);
    }
  }

  lemma LoggedMention(w: World, i: nat, p: U64)
    requires LogSound(w) && i < |w.log| && HasCommitted(w.log[i].session, p)
    ensures Mentioned(w.commits, w.log[i].session.id, p, i + 1)
  {
    hide SessionSound;
    hide SessionEvolves;
    hide Mentioned;
  }

  lemma ReloadedOrdered(w: World, kept: seq<nat>, v: World)
    requires Positions(kept, |w.log|) && Distinct(w.commits) && Ordered(w)
    requires v.commits == Resurfaced(w.commits, w.log, kept) && |v.log| == |kept|
    requires forall id :: id in v.sessions ==> id in w.sessions && v.sessions[id].plan == w.sessions[id].plan
    ensures Ordered(v)
  {
    hide Dependencies;
    hide Resurfaced;
    hide Mentioned;
    var n := |w.commits|;
    assert w.commits[..n] == w.commits;
    ResurfacedOrdered(w, n, kept);
  }

  lemma ReloadedSound(w: World, kept: seq<nat>, domains: Domains)
    requires Sound(w) && Positions(kept, |w.log|)
    ensures Sound(Reloaded(Kept(w.log, kept), Resurfaced(w.commits, w.log, kept), domains))
  {
    hide SessionsSound;
    hide LogSound;
    hide CommitsSound;
    hide Ordered;
    hide Distinct;
    hide Resurfaced;
    hide LastIndex;
    hide Loads;
    var v := Reloaded(Kept(w.log, kept), Resurfaced(w.commits, w.log, kept), domains);
    ReloadedParts(Kept(w.log, kept), v.commits, domains);
    ReloadedSessions(w, kept, v);
    ReloadedLog(w, kept, v);
    ReloadedCommits(w, kept, v);
    ResurfacedDistinct(w.commits, w.log, kept);
    ReloadedOrdered(w, kept, v);
  }

  /** Taking a session over fences what was in flight and keeps what was committed. */
  lemma RestartedGood(s: CompilerSession, epoch: U64, now: U64)
    requires SessionSound(s)
    ensures Good(s, RestartedSession(s, epoch, now)) && NoneNew(s, RestartedSession(s, epoch, now))
    ensures forall id :: id in s.phases ==> !InFlight(RestartedSession(s, epoch, now).phases[id].state)
    ensures RestartedSession(s, epoch, now).id == s.id
  {
    hide FencedPhases;
    hide SessionSound;
    FenceSound(s, now, RESTART);
    var f := FencedSession(s, now, RESTART);
    var t := RestartedSession(s, epoch, now);
    assert t.phases == f.phases && SameBinding(f, t);
    SameBindingSound(f, t);
    SessionEvolvesTransitive(s, f, t);
  }

  lemma SameBindingSound(s: CompilerSession, t: CompilerSession)
    requires SessionSound(s) && SameBinding(s, t) && t.phases == s.phases
    ensures SessionSound(t) && SessionEvolves(s, t)
  {
    hide IsPlan;
    hide RecordSound;
    forall id | id in t.phases && Underway(t.phases[id].state)
      ensures Fed(t, t.phases[id])
    {
      FedStays(s, t, t.phases[id]);
    }
  }

  /** Where one session stands after the sessions of ids have been resumed. */
  ghost predicate Taken(before: World, after: World, ids: seq<U64>, r: Restart) {
    && Sound(after) && Grows(before, after)
    && after.sessions.Keys == before.sessions.Keys
    && forall id :: id in before.sessions ==>
         after.sessions[id] == if id in ids then RestartedSession(before.sessions[id], r.epoch, r.now) else before.sessions[id]
  }

  lemma ResumeSound(w: World, id: U64, artifacts: seq<Artifacts.Artifact>, epoch: U64, now: U64, extras: Extras)
    requires Sound(w) && id in w.sessions
    ensures var w' := Resume(w, id, artifacts, epoch, now, extras);
            && Sound(w') && Grows(w, w')
            && w'.sessions == w.sessions[id := RestartedSession(w.sessions[id], epoch, now)]
  {
    hide SessionSound;
    hide RestartedSession;
    hide FencedArtifacts;
    hide LoadArtifacts;
    hide BundleOf;
    var s := w.sessions[id];
    assert s.id == id && SessionSound(s);
    hide Sound;
    var t := RestartedSession(s, epoch, now);
    RestartedGood(s, epoch, now);
    PutReplaces(w, w.(artifacts := FencedArtifacts(LoadArtifacts(w.artifacts, artifacts), s, s.plan.order, RESTART)), t, Ambient(now, true, extras));
    ReplaceSound(w, Resume(w, id, artifacts, epoch, now, extras), t);
  }

  lemma TakenNone(w: World, r: Restart)
    requires Sound(w) && Grows(w, w)
    ensures Taken(w, w, [], r)
  {
  }

  lemma TakenMore(w: World, w1: World, after: World, id: U64, rest: seq<U64>, r: Restart)
    requires id in w.sessions && id !in rest && Grows(w, w1)
    requires w1.sessions == w.sessions[id := RestartedSession(w.sessions[id], r.epoch, r.now)]
    requires Taken(w1, after, rest, r)
    ensures Taken(w, after, [id] + rest, r)
  {
    hide RestartedSession;
    hide Grows;
    hide Sound;
    GrowsTransitive(w, w1, after);
    assert after.sessions.Keys == w.sessions.Keys;
    forall x | x in w.sessions
      ensures after.sessions[x] == if x in [id] + rest then RestartedSession(w.sessions[x], r.epoch, r.now) else w.sessions[x]
    {
      assert x in w1.sessions;
    }
  }

  lemma {:induction false} ResumeAllSound(w: World, log: seq<Bundle>, ids: seq<U64>, r: Restart)
    requires Sound(w) && Ascending(ids)
    requires forall id :: id in ids ==> id in w.sessions && w.sessions[id].id == id && LastIndex(log, id) < |log|
    ensures Taken(w, ResumeAll(w, log, ids, r), ids, r)
    decreases |ids|
  {
    hide Sound;
    hide Grows;
    hide RestartedSession;
    hide Resume;
    hide LastIndex;
    QuietSound(w, w);
    TakenNone(w, r);
    if ids != [] {
      var id := ids[0];
      assert ids == [id] + ids[1..];
      var extras := if id in r.extras then r.extras[id] else NO_EXTRAS;
      var w1 := Resume(w, id, log[LastIndex(log, id)].artifacts, r.epoch, r.now, extras);
      ResumeSound(w, id, log[LastIndex(log, id)].artifacts, r.epoch, r.now, extras);
      assert id !in ids[1..];
      ResumeAllSound(w1, log, ids[1..], r);
      hide Taken;
      TakenMore(w, w1, ResumeAll(w1, log, ids[1..], r), id, ids[1..], r);
    }
  }

  /** The readable records survive, with the commits they show, and every session in them is
      back, evolved from its last record. */
  ghost predicate Recovers(log: seq<Bundle>, commits: seq<CommitEvent>, r: Restart, after: World) {
    && log <= after.log
    && commits <= after.commits
    && (forall id :: id in after.sessions <==> LastIndex(log, id) < |log|)
    && forall id :: LastIndex(log, id) < |log| ==>
         after.sessions[id] == RestartedSession(log[LastIndex(log, id)].session, r.epoch, r.now)
  }

  /** Restarting from whichever records of the journal can still be read yields a sound runtime. */
  lemma RestartSound(w: World, r: Restart)
    requires Sound(w) && Positions(r.kept, |w.log|)
    ensures Sound(Restarted(w, r))
    ensures Recovers(Kept(w.log, r.kept), Resurfaced(w.commits, w.log, r.kept), r, Restarted(w, r))
  {
    hide Sound;
    hide RestartedSession;
    hide ResumeAll;
    hide Resurfaced;
    hide LastIndex;
    hide Reloaded;
    hide Recovers;
    hide Taken;
    var bundles := Kept(w.log, r.kept);
    var commits := Resurfaced(w.commits, w.log, r.kept);
    var v := Reloaded(bundles, commits, r.domains);
    ReloadedSound(w, r.kept, r.domains);
    ReloadedParts(bundles, commits, r.domains);
    ReloadedIds(v);
    ResumeAllSound(v, bundles, LoggedIds(bundles), r);
    TakenSound(v, Restarted(w, r), LoggedIds(bundles), r);
    RecoversFrom(bundles, commits, v, r, Restarted(w, r));
  }

  lemma TakenSound(v: World, after: World, ids: seq<U64>, r: Restart)
    requires Taken(v, after, ids, r)
    ensures Sound(after)
  {
    hide Sound;
    hide Grows;
  }

  lemma RecoversFrom(bundles: seq<Bundle>, commits: seq<CommitEvent>, v: World, r: Restart, after: World)
    requires Loads(v, bundles) && v.commits == commits && Taken(v, after, LoggedIds(bundles), r)
    ensures Recovers(bundles, commits, r, after)
  {
    hide Sound;
    hide RestartedSession;
    hide LastIndex;
    hide SessionEvolves;
  }

  lemma ReloadedIds(v: World)
    requires Sound(v)
    ensures forall id :: id in v.sessions ==> v.sessions[id].id == id
  {
    hide SessionSound;
    hide LogSound;
    hide CommitsSound;
    hide Ordered;
  }
}
