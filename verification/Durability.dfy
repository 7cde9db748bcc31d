/** From the bytes on disk to the recovered sessions (Runtime::create in
    src/core/runtime.cpp:2366-2457): a reported commit survives a crash at any byte. */
module Durability {
  import opened StrongId
  import opened Bytes
  import opened Wrappers
  import opened Phases
  import opened PhasePlans
  import opened Sessions
  import opened Sorting
  import opened Runtime
  import opened Evolution
  import opened Safety
  import opened Restarts
  import Journal
  import Store

  type JournalRecord = Journal.Record

  /** Record kinds that carry a session: created, changed, phase committed, retired. */
  predicate CarriesSession(r: JournalRecord) {
    r.kind == 7 || r.kind == 8 || r.kind == 11 || r.kind == 19
  }

  function Payloads(rs: seq<JournalRecord>): seq<seq<Byte>> {
    if rs == [] then []
    else
      var last := |rs| - 1;
      Payloads(rs[..last]) + if CarriesSession(rs[last]) then [rs[last].payload] else []
  }

  /** How bundles are written and read. */
  datatype BundleFormat = BundleFormat(encode: Bundle -> seq<Byte>, decode: seq<Byte> -> Option<Bundle>)

  /** The format reads a sound session back as it was written, or refuses it. */
  ghost predicate Lawful(f: BundleFormat) {
    forall b: Bundle :: SessionSound(b.session) && |f.encode(b)| < 0x1_0000_0000 ==>
      f.decode(f.encode(b)) == Some(b) || f.decode(f.encode(b)) == None
  }

  /** The record of the bundle is within every ceiling of the decoder. */
  ghost predicate Readable(b: Bundle, f: BundleFormat) {
    f.decode(f.encode(b)) == Some(b)
  }

  /** The bundles that decode, in order; the others are counted as defects and skipped. */
  ghost function Decoded(ps: seq<seq<Byte>>, f: BundleFormat): seq<Bundle> {
    if ps == [] then []
    else
      var last := |ps| - 1;
      Decoded(ps[..last], f) + match f.decode(ps[last]) case Some(b) => [b] case None => []
  }

  /** What replaying the records recovers. */
  ghost function Replayed(rs: seq<JournalRecord>, f: BundleFormat): seq<Bundle> {
    Decoded(Payloads(rs), f)
  }

  lemma StepReplay(records: seq<JournalRecord>, i: nat, f: BundleFormat)
    requires i < |records|
    ensures var r := records[i];
            && Payloads(records[..i + 1]) == Payloads(records[..i]) + (if CarriesSession(r) then [r.payload] else [])
            && Replayed(records[..i + 1], f) == Replayed(records[..i], f) +
                 (if CarriesSession(r) then match f.decode(r.payload) case Some(b) => [b] case None => [] else [])
  {
    var r := records[i];
    assert records[..i + 1][..i] == records[..i];
    var ps := Payloads(records[..i]);
    if CarriesSession(r) {
      assert (ps + [r.payload])[..|ps|] == ps;
    } else {
      assert ps + [] == ps && Decoded(ps, f) + [] == Decoded(ps, f);
    }
  }

  /* ---------- The journal of a runtime ---------- */

  /** What a start can read of a log. */
  ghost function ReadableOf(log: seq<Bundle>, f: BundleFormat): seq<Bundle> {
    if log == [] then []
    else ReadableOf(log[..|log| - 1], f) + if Readable(log[|log| - 1], f) then [log[|log| - 1]] else []
  }

  /** ... and where it stands. */
  ghost function ReadableAt(log: seq<Bundle>, f: BundleFormat): seq<nat> {
    if log == [] then []
    else ReadableAt(log[..|log| - 1], f) + if Readable(log[|log| - 1], f) then [|log| - 1] else []
  }

  lemma {:induction false} ReadablePositions(log: seq<Bundle>, f: BundleFormat)
    ensures Positions(ReadableAt(log, f), |log|) && |ReadableAt(log, f)| == |ReadableOf(log, f)|
  {
    hide Readable;
    if log != [] {
      ReadablePositions(log[..|log| - 1], f);
    }
  }

  lemma {:induction false} ReadableEach(log: seq<Bundle>, i: nat, f: BundleFormat)
    requires i < |ReadableOf(log, f)|
    ensures i < |ReadableAt(log, f)| && ReadableAt(log, f)[i] < |log|
    ensures ReadableOf(log, f)[i] == log[ReadableAt(log, f)[i]] && Readable(ReadableOf(log, f)[i], f)
  {
    hide Readable;
    ReadablePositions(log, f);
    var n := |log| - 1;
    ReadablePositions(log[..n], f);
    if i < |ReadableOf(log[..n], f)| {
      ReadableEach(log[..n], i, f);
    }
  }

  lemma {:induction false} ReadableMember(log: seq<Bundle>, k: nat, f: BundleFormat)
    requires k < |log| && Readable(log[k], f)
    ensures log[k] in ReadableOf(log, f)
  {
    hide Readable;
    var n := |log| - 1;
    if k < n {
      ReadableMember(log[..n], k, f);
      assert log[..n][k] == log[k];
    }
  }

  lemma ReadableStands(log: seq<Bundle>, f: BundleFormat)
    ensures Positions(ReadableAt(log, f), |log|) && Kept(log, ReadableAt(log, f)) == ReadableOf(log, f)
    ensures forall i :: 0 <= i < |ReadableOf(log, f)| ==> Readable(ReadableOf(log, f)[i], f)
  {
    hide Readable;
    hide ReadableAt;
    hide ReadableOf;
    ReadablePositions(log, f);
    forall i | 0 <= i < |ReadableOf(log, f)|
      ensures ReadableOf(log, f)[i] == log[ReadableAt(log, f)[i]] && Readable(ReadableOf(log, f)[i], f)
    {
      ReadableEach(log, i, f);
    }
  }

  /** The positions of the first n readable records. */
  ghost function Surviving(log: seq<Bundle>, n: nat, f: BundleFormat): (kept: seq<nat>)
    ensures Positions(kept, |log|)
  {
    ReadablePositions(log, f);
    if n <= |ReadableAt(log, f)| then ReadableAt(log, f)[..n] else ReadableAt(log, f)
  }

  lemma SurvivingKept(log: seq<Bundle>, found: seq<Bundle>, f: BundleFormat)
    requires found <= ReadableOf(log, f)
    ensures Kept(log, Surviving(log, |found|, f)) == found
  {
    hide Readable;
    hide ReadableAt;
    hide ReadableOf;
    ReadableStands(log, f);
  }

  lemma {:induction false} ReadableAppend(a: seq<Bundle>, b: seq<Bundle>, f: BundleFormat)
    ensures ReadableOf(a + b, f) == ReadableOf(a, f) + ReadableOf(b, f)
    decreases |b|
  {
    hide Readable;
    if b == [] {
      assert a + b == a && ReadableOf(a, f) + [] == ReadableOf(a, f);
    } else {
      var n := |b| - 1;
      ReadableAppend(a, b[..n], f);
      assert (a + b)[..|a + b| - 1] == a + b[..n];
    }
  }

  lemma {:induction false} AllReadable(found: seq<Bundle>, f: BundleFormat)
    requires forall i :: 0 <= i < |found| ==> Readable(found[i], f)
    ensures ReadableOf(found, f) == found
  {
    hide Readable;
    if found != [] {
      AllReadable(found[..|found| - 1], f);
      assert found[..|found| - 1] + [found[|found| - 1]] == found;
    }
  }

  /* ---------- Records and bundles ---------- */

  lemma ReplayedMore(rs: seq<JournalRecord>, r: JournalRecord, f: BundleFormat)
    ensures Replayed(rs + [r], f) == Replayed(rs, f) +
              (if CarriesSession(r) then match f.decode(r.payload) case Some(b) => [b] case None => [] else [])
  {
    var all := rs + [r];
    assert all[..|rs|] == rs && all[..|rs| + 1] == all;
    StepReplay(all, |rs|, f);
  }

  /** The record of a bundle is replayed as that bundle if it is readable, and not at all
      otherwise. */
  lemma BundleReplayed(rs: seq<JournalRecord>, r: JournalRecord, b: Bundle, f: BundleFormat)
    requires Lawful(f) && CarriesSession(r) && SessionSound(b.session) && r.payload == f.encode(b) && |r.payload| < 0x1_0000_0000
    ensures Replayed(rs + [r], f) == Replayed(rs, f) + ReadableOf([b], f)
  {
    hide SessionSound;
    hide Payloads;
    hide Decoded;
    ReplayedMore(rs, r, f);
    assert [b][..0] == [] && ReadableOf([], f) == [];
  }

  lemma {:induction false} ReplayedPrefix(rs: seq<JournalRecord>, k: nat, f: BundleFormat)
    requires k <= |rs|
    ensures Replayed(rs[..k], f) <= Replayed(rs, f)
    decreases |rs|
  {
    if k < |rs| {
      var n := |rs| - 1;
      ReplayedPrefix(rs[..n], k, f);
      assert rs[..n][..k] == rs[..k] && rs[..n] + [rs[n]] == rs;
      hide Replayed;
      ReplayedMore(rs[..n], rs[n], f);
    } else {
      assert rs[..k] == rs;
    }
  }

  lemma ReplayedGrows(rs: seq<JournalRecord>, more: seq<JournalRecord>, f: BundleFormat)
    requires rs <= more
    ensures Replayed(rs, f) <= Replayed(more, f)
  {
    hide Replayed;
    ReplayedPrefix(more, |rs|, f);
    assert more[..|rs|] == rs;
  }

  /* ---------- What is recovered ---------- */

  /** The recovered sessions show the commit, under its generation and identity. */
  ghost predicate Shows(recovered: seq<Bundle>, e: CommitEvent) {
    && LastIndex(recovered, e.session) < |recovered|
    && var s := recovered[LastIndex(recovered, e.session)].session;
       e.phase in s.phases && Carries(s.phases[e.phase], e)
  }

  /** From any records that include one which shows a commit, the commit is recovered. */
  lemma CommitRecovered(w: World, found: seq<Bundle>, kept: seq<nat>, e: CommitEvent, b: Bundle)
    requires LogSound(w) && Positions(kept, |w.log|) && found == Kept(w.log, kept) && b in found
    requires b.session.id == e.session && e.phase in b.session.phases && Carries(b.session.phases[e.phase], e)
    ensures Shows(found, e)
  {
    hide LogSound;
    hide SessionEvolves;
    hide Carries;
    var i :| 0 <= i < |found| && found[i] == b;
    var k := LastIndex(found, e.session);
    assert found[i] == w.log[kept[i]] && found[k] == w.log[kept[k]];
    KeptEvolve(w, kept, i, k);
    CarriedOn(found[i].session, found[k].session, e);
  }

  lemma EventRecord(w: World, e: CommitEvent)
    requires Sound(w) && e in w.commits
    ensures e.at < |w.log| && w.log[e.at].session.id == e.session
    ensures e.phase in w.log[e.at].session.phases && Carries(w.log[e.at].session.phases[e.phase], e)
  {
    hide SessionsSound;
    hide LogSound;
    hide Ordered;
    hide Carries;
    hide Mentioned;
    var k :| 0 <= k < |w.commits| && w.commits[k] == e;
    assert EventSound(w, w.commits[k]);
  }

  lemma NotYetCommitted(w: World, e: CommitEvent, j: nat)
    requires Sound(w) && e in w.commits && j < e.at && j < |w.log| && w.log[j].session.id == e.session
    ensures !HasCommitted(w.log[j].session, e.phase)
  {
    hide SessionsSound;
    hide CommitsSound;
    hide Ordered;
    hide SessionSound;
    hide SessionEvolves;
    var m :| 0 <= m < |w.commits| && w.commits[m] == e;
    forall k | 0 <= k < |w.commits| && w.commits[k].session == e.session && w.commits[k].phase == e.phase
      ensures k == m
    {
    }
    assert !Mentioned(w.commits, e.session, e.phase, j + 1);
  }

  /** If the record of a commit exceeds a ceiling, what can be read of the log up to it does not
      show the commit: the last readable record of the session is older. */
  lemma UnreadableLost(w: World, e: CommitEvent, f: BundleFormat)
    requires Sound(w) && e in w.commits && e.at + 1 == |w.log| && !Readable(w.log[e.at], f)
    ensures var d := ReadableOf(w.log, f);
            !(LastIndex(d, e.session) < |d| && HasCommitted(d[LastIndex(d, e.session)].session, e.phase))
  {
    hide Readable;
    hide ReadableAt;
    hide ReadableOf;
    hide Sound;
    var d := ReadableOf(w.log, f);
    ReadableStands(w.log, f);
    var k := LastIndex(d, e.session);
    if k < |d| {
      var kept := ReadableAt(w.log, f);
      assert d[k] == w.log[kept[k]] && Readable(d[k], f);
      assert kept[k] != e.at;
      NotYetCommitted(w, e, kept[k]);
    }
  }

  /** What a start from these bytes recovers. */
  ghost function RecoveredFrom(file: seq<Byte>, options: Journal.Options, f: BundleFormat): seq<Bundle> {
    Replayed(Journal.ScanJournal(file, options).records, f)
  }

  /** Records that end before the cut are kept. */
  lemma CutKeeps(rs: seq<JournalRecord>, m: nat, k: nat, cut: nat)
    requires m <= |rs| && k <= |rs|
    requires Journal.HEADER_BYTES + |Journal.JournalBytes(rs[..m])| <= cut
    requires k < |rs| ==> cut < Journal.HEADER_BYTES + |Journal.JournalBytes(rs[..k + 1])|
    ensures m <= k
  {
    if k < m {
      assert rs[..m] == rs[..k + 1] + rs[k + 1..m];
      Journal.JournalAppend(rs[..k + 1], rs[k + 1..m]);
    }
  }
}
