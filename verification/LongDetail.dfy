/** A reported commit that a crash loses: the record of a session with an attempt whose detail is
    longer than 8192 bytes is written, and cannot be read back. */
module LongDetail {
  import opened StrongId
  import opened Bytes
  import opened Phases
  import opened Sessions
  import opened Runtime
  import opened Safety
  import opened ArtifactSafety
  import opened Restarts
  import opened Replay
  import opened History
  import BundleCodec
  import Bindings
  import Custody
  import Durability
  import Journal
  import Store
  import Takeover
  import Witness

  predicate HasLongDetail(b: Bundle, phase: U64, k: nat) {
    && phase in b.session.phases && k < |b.session.phases[phase].attempts|
    && |b.session.phases[phase].attempts[k].detail| > 8192
  }

  lemma DetailUnreadable(log: seq<Bundle>, at: nat, phase: U64, k: nat, options: Journal.Options)
    requires at < |log| && SessionSound(log[at].session) && HasLongDetail(log[at], phase, k)
    requires Roomy(log, options, BundleCodecFormat())
    ensures !Durability.Readable(log[at], BundleCodecFormat())
  {
    hide SessionSound;
    hide BundleCodec.EncodeBundle;
    hide BundleCodec.DecodeBundle;
    SoundKeyed(log[at].session);
    assert |BundleCodecFormat().encode(log[at])| < 0x1_0000_0000;
    LongDetailUnreadable(log[at], phase, k);
  }

  /** A run from the initial state in which no identity counter runs out. */
  ghost predicate FromInitial(worlds: seq<World>, events: seq<Event>) {
    IsRun(worlds, events) && worlds[0] == Initial() && Witness.Thrifty(worlds)
  }

  function LastOf(worlds: seq<World>): World {
    if worlds == [] then Initial() else worlds[|worlds| - 1]
  }

  /** The last record is that of the commit, and an attempt of it has such a detail. */
  predicate EndsLong(w: World, e: CommitEvent, phase: U64, k: nat) {
    e in w.commits && e.at + 1 == |w.log| && HasLongDetail(w.log[e.at], phase, k)
  }

  ghost predicate HasRoom(w: World, options: Journal.Options) {
    Roomy(w.log, options, BundleCodecFormat()) && |w.log| <= options.maxRecords
  }

  /** Whenever the record of the last reported commit carries such a detail, the run is the history
      of a store, and a crash right then loses the commit. */
  lemma LongDetailLost(worlds: seq<World>, events: seq<Event>, e: CommitEvent, phase: U64, k: nat, options: Journal.Options)
    requires FromInitial(worlds, events) && EndsLong(LastOf(worlds), e, phase, k) && HasRoom(LastOf(worlds), options)
    ensures IsLost(worlds, e, options, BundleCodecFormat())
  {
    hide Step;
    hide IsHistory;
    hide BundleCodecFormat;
    hide Roomy;
    hide Sound;
    hide Bindings.BindingsSound;
    hide ArtifactsSound;
    hide Custody.CustodySound;
    hide Store.DiskSound;
    hide HasLongDetail;
    hide LosesCommit;
    var f := BundleCodecFormat();
    var n := |events|;
    FormatLawful();
    var ms, deeds := RunIsHistory(worlds, events, options, f);
    HistoryStored(ms, deeds, n, options, f);
    Takeover.RecordIsSound(worlds[n], e.at);
    DetailUnreadable(worlds[n].log, e.at, phase, k, options);
    OversizedCommitLost(ms, deeds, n, e, options, f);
  }

  /** Such a run: one phase, reserved, executed, reported with the detail, validated, committed. */
  lemma CommitLost(detail: Text) returns (worlds: seq<World>, events: seq<Event>, e: CommitEvent)
    requires |detail| > 8192
    ensures FromInitial(worlds, events) && LastOf(worlds).commits == [e]
    ensures forall options: Journal.Options :: HasRoom(LastOf(worlds), options) ==> IsLost(worlds, e, options, BundleCodecFormat())
  {
    hide Step;
    hide BundleCodecFormat;
    hide HasRoom;
    hide IsLost;
    worlds, events := Witness.CommitWithLongDetail(detail);
    e := LastOf(worlds).commits[0];
    forall options: Journal.Options | HasRoom(LastOf(worlds), options)
      ensures IsLost(worlds, e, options, BundleCodecFormat())
    {
      LongDetailLost(worlds, events, e, 1, 0, options);
    }
  }
}
