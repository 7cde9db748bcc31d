/** Reading the journal back: decoding bundles, and replaying them so that the last one of each
    session wins (Runtime::create in src/core/runtime.cpp:2366-2388). */
module Replay {
  import opened StrongId
  import opened Bytes
  import opened Wrappers
  import opened Phases
  import opened PhasePlans
  import opened Sessions
  import opened Sorting
  import opened Wire
  import opened Codec
  import opened Records
  import opened SessionCodec
  import opened BundleCodec
  import opened Runtime
  import opened Restarts
  import opened Durability

  /** The format the runtime writes and reads. */
  ghost function BundleCodecFormat(): BundleFormat {
    BundleFormat(EncodeKeyed, DecodeBundle)
  }

  ghost function EncodeKeyed(b: Bundle): seq<Byte> {
    if Keyed(b.session.phases) then EncodeBundle(b) else []
  }

  lemma FormatReads(bytes: seq<Byte>)
    ensures BundleCodecFormat().decode(bytes) == DecodeBundle(bytes)
  {
  }

  /** A bundle is read back exactly when it is within every ceiling of the decoder, and refused
      otherwise. */
  lemma ReadableIff(b: Bundle)
    requires SessionSound(b.session) && Keyed(b.session.phases) && |EncodeBundle(b)| < WORD32
    ensures Readable(b, BundleCodecFormat()) <==> BundleWithin(b)
    ensures BundleCodecFormat().decode(BundleCodecFormat().encode(b)) == if BundleWithin(b) then Some(b) else None
  {
    hide EncodeBundle;
    hide DecodeBundle;
    hide BundleWithin;
    hide IsPlan;
    hide RecordSound;
    BundleVerdict(b);
  }

  /** An attempt whose detail is longer than 8192 bytes makes every record of its session
      unreadable. */
  lemma LongDetailUnreadable(b: Bundle, phase: U64, k: nat)
    requires SessionSound(b.session) && Keyed(b.session.phases) && |EncodeBundle(b)| < WORD32
    requires phase in b.session.phases && k < |b.session.phases[phase].attempts|
    requires |b.session.phases[phase].attempts[k].detail| > 8192
    ensures !Readable(b, BundleCodecFormat())
  {
    hide EncodeBundle;
    hide DecodeBundle;
    hide SessionSound;
    hide PhaseSize;
    ReadableIff(b);
    var p := b.session.phases[phase];
    assert !PhaseWithin(p);
    var i := ListedAt(b.session.phases, phase);
    assert !PhaseStorable(Listed(b.session.phases)[i]);
  }

  lemma ListedAt(phases: map<U64, PhaseRecord>, id: U64) returns (i: nat)
    requires id in phases
    ensures i < |Listed(phases)| && Listed(phases)[i] == phases[id]
  {
    var ids := SortedKeys(phases.Keys);
    assert id in ids;
    var k :| 0 <= k < |ids| && ids[k] == id;
    i := k;
  }

  /** The runtime's format reads back what it wrote, or refuses it. */
  lemma FormatLawful()
    ensures Lawful(BundleCodecFormat())
  {
    hide EncodeBundle;
    hide DecodeBundle;
    hide BundleWithin;
    hide SessionSound;
    forall b: Bundle | SessionSound(b.session) && |BundleCodecFormat().encode(b)| < 0x1_0000_0000
      ensures var f := BundleCodecFormat(); f.decode(f.encode(b)) == Some(b) || f.decode(f.encode(b)) == None
    {
      SoundKeyed(b.session);
      ReadableIff(b);
    }
  }

  lemma SoundKeyed(s: CompilerSession)
    requires SessionSound(s)
    ensures Keyed(s.phases)
  {
    hide IsPlan;
    hide RecordSound;
  }

  /* ---------- Reading bundles ---------- */

  /** decode_session_bundle: the plan is built again from its stored nodes. */
  method ReadBundle(bytes: seq<Byte>) returns (b: Option<Bundle>)
    ensures b == DecodeBundle(bytes)
  {
    hide DecodeExactly;
    hide BundleSchema;
    hide BundleCodec.BundleOf;
    hide StoredNodes;
    hide IsPlan;
    hide WellFormed;
    var parsed := DecodeExactly(BundleSchema(), bytes);
    if parsed.None? {
      return None;
    }
    var v := parsed.value;
    var nodes := StoredNodes(Item(Item(v, 0), 0));
    var plan := Build(nodes);
    BuildAgrees(nodes);
    if plan.Failure? {
      return None;
    }
    BuiltAgain(plan.value);
    b := Some(BundleCodec.BundleOf(v, plan.value));
  }

  lemma BuildAgrees(nodes: Nodes)
    ensures Built(nodes).Some? ==> WellFormed(nodes)
  {
  }

  /** The replay loop: per session the last bundle wins, and identities come out ascending. */
  method ReplaySessions(records: seq<JournalRecord>) returns (latest: map<U64, Bundle>, order: seq<U64>, defects: nat)
    ensures forall id :: id in latest <==> LastIndex(Replayed(records, BundleCodecFormat()), id) < |Replayed(records, BundleCodecFormat())|
    ensures forall id :: id in latest ==> latest[id] == Replayed(records, BundleCodecFormat())[LastIndex(Replayed(records, BundleCodecFormat()), id)]
    ensures order == LoggedIds(Replayed(records, BundleCodecFormat()))
    ensures defects == |Payloads(records)| - |Replayed(records, BundleCodecFormat())|
  {
    hide LastIndex;
    hide DecodeBundle;
    hide BundleCodecFormat;
    latest, order, defects := map[], [], 0;
    ghost var done: seq<Bundle> := [];
    LatestNone();
    var i := 0;
    while i < |records|
      invariant 0 <= i <= |records| && done == Replayed(records[..i], BundleCodecFormat()) && LatestOf(latest, done)
      invariant forall id :: id in order <==> id in latest
      invariant defects == |Payloads(records[..i])| - |done|
    {
      var record := records[i];
      StepReplay(records, i, BundleCodecFormat());
      FormatReads(record.payload);
      if CarriesSession(record) {
        var bundle := ReadBundle(record.payload);
        if bundle.None? {
          defects := defects + 1;
        } else {
          var key := bundle.value.session.id;
          if key !in latest {
            order := order + [key];
          }
          LatestMore(latest, done, bundle.value);
          latest := latest[key := bundle.value];
          done := done + [bundle.value];
        }
      }
      i := i + 1;
    }
    assert records[..i] == records;
    order := SortedUnique(order);
    AscendingUnique(order, LoggedIds(done));
  }

  /** The table holds the last bundle of each session. */
  ghost predicate LatestOf(latest: map<U64, Bundle>, done: seq<Bundle>) {
    && (forall id :: id in latest <==> LastIndex(done, id) < |done|)
    && forall id :: id in latest ==> latest[id] == done[LastIndex(done, id)]
  }

  lemma LatestNone()
    ensures LatestOf(map[], [])
  {
  }

  lemma LatestMore(latest: map<U64, Bundle>, done: seq<Bundle>, b: Bundle)
    requires LatestOf(latest, done)
    ensures LatestOf(latest[b.session.id := b], done + [b])
  {
    var more := done + [b];
    assert more[..|more| - 1] == done;
    forall id: U64
      ensures LastIndex(more, id) == if id == b.session.id then |done| else if LastIndex(done, id) < |done| then LastIndex(done, id) else |more|
    {
    }
  }
}
