/** The runtime together with the bytes of its journal: every logged session is an append to the
    file, and every restart starts from a cut of it. From an empty store on, and for a cut at any
    byte, the file and the runtime agree; what was reported survives. */
module History {
  import opened StrongId
  import opened Bytes
  import opened Wrappers
  import opened Phases
  import opened PhasePlans
  import opened Sessions
  import opened Runtime
  import opened Evolution
  import opened Safety
  import opened Bindings
  import opened Guarantees
  import opened ArtifactSafety
  import opened Custody
  import opened Restarts
  import opened Takeover
  import opened Lives
  import opened Durability
  import opened Store
  import Journal

  /** The runtime, its journal, and what interrupted appends have left behind the journal. */
  datatype Machine = Machine(world: World, disk: Disk, leftover: seq<Byte>)

  function OnDisk(m: Machine): seq<Byte> {
    m.disk.file + m.leftover
  }

  /** What a write of n bytes leaves of the bytes it is written over. */
  function Behind(leftover: seq<Byte>, n: nat): seq<Byte> {
    if n <= |leftover| then leftover[n..] else []
  }

  /* ---------- Writing ---------- */

  /** persist: the bundle becomes a session record, if the store accepts it. */
  ghost function Saved(d: Disk, b: Bundle, at: U64, options: Journal.Options, f: BundleFormat): Option<Disk> {
    if Accepts(d, f.encode(b), options) && Journal.LastSequence(d.records, 0) < MAX_COUNTER - 1 then
      Some(Appended(d, 8, f.encode(b), at))
    else None
  }

  ghost function SavedAll(d: Disk, bundles: seq<Bundle>, times: seq<U64>, options: Journal.Options, f: BundleFormat): Option<Disk>
    requires |times| == |bundles|
    decreases |bundles|
  {
    if bundles == [] then Some(d)
    else
      match Saved(d, bundles[0], times[0], options, f)
      case None => None
      case Some(d1) => SavedAll(d1, bundles[1..], times[1..], options, f)
  }

  /* ---------- Histories ---------- */

  datatype Deed =
    | Works(event: Event, at: U64)
    | Falters(event: Event, payload: seq<Byte>, at: U64, written: nat)
    | Reopens(cut: nat, restart: Restart, created: U64, at: U64, times: seq<U64>)

  /** The store after an open of the cut file and the record of the new epoch. */
  ghost function Opened(file: seq<Byte>, scan: Journal.Scan, d: Deed): Disk
    requires d.Reopens? && Journal.HEADER_BYTES <= |file|
  {
    var valid := if scan.repairedBytes <= |file| then |file| - scan.repairedBytes else 0;
    var epoch := Appended(Disk(file[..valid], scan.records), 1, PutLe(Journal.W8, d.restart.epoch), d.at);
    if |epoch.file| < Journal.HEADER_BYTES then epoch
    else WithHeader(epoch, Journal.FileHeader(d.restart.epoch, d.created))
  }

  ghost predicate Reopened(m: Machine, d: Deed, m': Machine, options: Journal.Options, f: BundleFormat)
    requires d.Reopens?
  {
    && Journal.HEADER_BYTES <= d.cut <= |OnDisk(m)| && |m.disk.records| <= options.maxRecords && Intact(m, d.cut, options)
    && var file := OnDisk(m)[..d.cut];
    && var scan := Journal.ScanJournal(file, options);
    && var found := Replayed(scan.records, f);
    && d.restart.kept == Surviving(m.world.log, |found|, f)
    && m'.world == StartedFrom(found, Resurfaced(m.world.commits, m.world.log, d.restart.kept), d.restart)
    && |found| <= |m'.world.log| && |d.times| == |m'.world.log| - |found|
    && Journal.LastSequence(scan.records, 0) < MAX_COUNTER - 1
    && |m.disk.file| + 8 + Journal.RECORD_HEADER <= options.maxJournalBytes && 8 <= options.maxRecordBytes
    && SavedAll(Opened(file, scan, d), m'.world.log[|found|..], d.times, options, f) == Some(m'.disk)
    && m'.leftover == []
  }

  /** Behind the journal the cut leaves nothing that reads as a further record. */
  ghost predicate Intact(m: Machine, cut: nat, options: Journal.Options)
    requires cut <= |OnDisk(m)| && |m.disk.records| <= options.maxRecords
  {
    |m.disk.file| < cut ==>
      TailRecords(m.leftover[..cut - |m.disk.file|], Journal.LastSequence(m.disk.records, 0) + 1,
                  options.maxRecords - |m.disk.records|, options) == Some([])
  }

  /** One deed: an action whose record, if it logs one, is appended; an action whose append is
      interrupted after some bytes; or a crash at any byte behind the header, and a new start from
      what is left. */
  ghost predicate Happens(m: Machine, d: Deed, m': Machine, options: Journal.Options, f: BundleFormat) {
    match d
    case Works(event, at) =>
      && Step(m.world, event, m'.world)
      && (if m'.world.log == m.world.log then m'.disk == m.disk && m'.leftover == m.leftover
          else
            && m'.world.log != [] && Saved(m.disk, m'.world.log[|m'.world.log| - 1], at, options, f) == Some(m'.disk)
            && m'.leftover == Behind(m.leftover, |m'.disk.file| - |m.disk.file|))
    case Falters(event, payload, at, written) =>
      && Step(m.world, event, m'.world) && m'.world.log == m.world.log && m'.disk == m.disk
      && Accepts(m.disk, payload, options)
      && var record := Journal.RecordBytes(NextRecord(m.disk, 8, payload, at));
      && written <= |record| && m'.leftover == record[..written] + Behind(m.leftover, written)
    case Reopens(_, _, _, _, _) => Reopened(m, d, m', options, f)
  }

  /** A runtime that was just started on a store without sessions. */
  ghost predicate Fresh(m: Machine, options: Journal.Options, f: BundleFormat) {
    m.world == Initial() && DiskSound(m.disk, options) && Replayed(m.disk.records, f) == [] && m.leftover == []
  }

  ghost predicate IsHistory(ms: seq<Machine>, deeds: seq<Deed>, options: Journal.Options, f: BundleFormat) {
    && Lawful(f) && |ms| == |deeds| + 1 && options.maxRecordBytes < 0x1_0000_0000 && Fresh(ms[0], options, f)
    && (forall k {:trigger deeds[k]} :: 0 <= k < |deeds| ==> Happens(ms[k], deeds[k], ms[k + 1], options, f))
    && forall k :: 0 <= k < |ms| ==> Unspent(ms[k].world)
  }

  /** The file is a journal, and what can be read of it is what can be read of the log; with what
      is left behind it, it stays within the ceiling that open checks. */
  ghost predicate Stored(m: Machine, options: Journal.Options, f: BundleFormat) {
    && DiskSound(m.disk, options) && Replayed(m.disk.records, f) == ReadableOf(m.world.log, f)
    && |OnDisk(m)| <= options.maxJournalBytes
  }

  /* ---------- One append ---------- */

  lemma SavedStored(d: Disk, b: Bundle, at: U64, d': Disk, options: Journal.Options, f: BundleFormat)
    requires Lawful(f) && DiskSound(d, options) && options.maxRecordBytes < 0x1_0000_0000 && SessionSound(b.session)
    requires Saved(d, b, at, options, f) == Some(d')
    ensures DiskSound(d', options) && Replayed(d'.records, f) == Replayed(d.records, f) + ReadableOf([b], f)
    ensures d.records <= d'.records && |d.file| <= |d'.file| <= options.maxJournalBytes
  {
    hide DiskSound;
    hide Replayed;
    hide Readable;
    hide ReadableOf;
    hide Journal.RecordBytes;
    hide SessionSound;
    hide Lawful;
    RecordLength(NextRecord(d, 8, f.encode(b), at));
    AppendedSound(d, 8, f.encode(b), at, options);
    BundleReplayed(d.records, NextRecord(d, 8, f.encode(b), at), b, f);
  }

  lemma {:induction false} SavedAllStored(d: Disk, bundles: seq<Bundle>, times: seq<U64>, d': Disk, options: Journal.Options, f: BundleFormat)
    requires Lawful(f) && |times| == |bundles| && DiskSound(d, options) && options.maxRecordBytes < 0x1_0000_0000
    requires forall i :: 0 <= i < |bundles| ==> SessionSound(bundles[i].session)
    requires SavedAll(d, bundles, times, options, f) == Some(d')
    ensures DiskSound(d', options) && Replayed(d'.records, f) == Replayed(d.records, f) + ReadableOf(bundles, f)
    ensures d.records <= d'.records
    decreases |bundles|
  {
    hide DiskSound;
    hide Saved;
    hide SessionSound;
    hide Replayed;
    hide ReadableOf;
    if bundles == [] {
      NothingReadable(f);
      assert Replayed(d.records, f) + [] == Replayed(d.records, f);
    } else {
      var d1 := Saved(d, bundles[0], times[0], options, f).value;
      SavedStored(d, bundles[0], times[0], d1, options, f);
      SavedAllStored(d1, bundles[1..], times[1..], d', options, f);
      assert [bundles[0]] + bundles[1..] == bundles;
      ReadableAppend([bundles[0]], bundles[1..], f);
      Associates(Replayed(d.records, f), ReadableOf([bundles[0]], f), ReadableOf(bundles[1..], f));
    }
  }

  lemma NothingReadable(f: BundleFormat)
    ensures ReadableOf([], f) == []
  {
  }

  lemma Associates<T>(a: seq<T>, b: seq<T>, c: seq<T>)
    ensures a + b + c == a + (b + c)
  {
  }

  /* ---------- One deed ---------- */

  lemma WorkStored(m: Machine, event: Event, at: U64, m': Machine, options: Journal.Options, f: BundleFormat)
    requires Lawful(f) && Healthy(m.world) && Stored(m, options, f) && options.maxRecordBytes < 0x1_0000_0000
    requires Happens(m, Works(event, at), m', options, f)
    ensures Stored(m', options, f) && m.disk.records <= m'.disk.records
  {
    hide Apply;
    hide Stored;
    hide Saved;
    hide Reopened;
    hide Journal.RecordBytes;
    hide Sound;
    hide BindingsSound;
    hide ArtifactsSound;
    hide CustodySound;
    hide Grows;
    hide RecordedStore;
    hide Found;
    hide Lawful;
    if m'.world.log != m.world.log {
      ApplyAppends(m.world, event);
      StepSound(m.world, event, m'.world);
      var n := |m.world.log|;
      RecordIsSound(m'.world, n);
      assert m'.world.log == m.world.log + [m'.world.log[n]];
      AppendStored(m, m'.world.log[n], at, m', options, f);
    } else {
      SameStored(m, m', options, f);
    }
  }

  lemma AppendStored(m: Machine, b: Bundle, at: U64, m': Machine, options: Journal.Options, f: BundleFormat)
    requires Lawful(f) && Stored(m, options, f) && options.maxRecordBytes < 0x1_0000_0000 && SessionSound(b.session)
    requires m'.world.log == m.world.log + [b] && Saved(m.disk, b, at, options, f) == Some(m'.disk)
    requires m'.leftover == Behind(m.leftover, |m'.disk.file| - |m.disk.file|)
    ensures Stored(m', options, f) && m.disk.records <= m'.disk.records
  {
    hide DiskSound;
    hide Saved;
    hide Replayed;
    hide ReadableOf;
    hide SessionSound;
    hide Lawful;
    SavedStored(m.disk, b, at, m'.disk, options, f);
    ReadableAppend(m.world.log, [b], f);
  }

  lemma SameStored(m: Machine, m': Machine, options: Journal.Options, f: BundleFormat)
    requires Stored(m, options, f) && m'.world.log == m.world.log && m'.disk == m.disk && m'.leftover == m.leftover
    ensures Stored(m', options, f)
  {
    hide DiskSound;
    hide Replayed;
    hide ReadableOf;
  }

  /** An interrupted append leaves the journal as it was. */
  lemma FalterStored(m: Machine, d: Deed, m': Machine, options: Journal.Options, f: BundleFormat)
    requires Stored(m, options, f) && d.Falters? && Happens(m, d, m', options, f)
    ensures Stored(m', options, f) && m.disk.records <= m'.disk.records
  {
    hide DiskSound;
    hide Replayed;
    hide ReadableOf;
    hide Apply;
    hide Journal.RecordBytes;
    RecordLength(NextRecord(m.disk, 8, d.payload, d.at));
  }

  /** The cut file opens to the records that lie before the cut. */
  lemma CutOpens(m: Machine, cut: nat, options: Journal.Options) returns (k: nat)
    requires DiskSound(m.disk, options) && Journal.HEADER_BYTES <= cut <= |OnDisk(m)| && |m.disk.records| <= options.maxRecords
    requires Intact(m, cut, options)
    ensures k <= |m.disk.records|
    ensures var file := OnDisk(m)[..cut];
            var scan := Journal.ScanJournal(file, options);
            && Journal.Trustworthy(scan.outcome) && scan.records == m.disk.records[..k]
            && scan.repairedBytes <= |file| && DiskSound(Disk(file[..|file| - scan.repairedBytes], scan.records), options)
            && |file| - scan.repairedBytes <= |m.disk.file|
    ensures k < |m.disk.records| ==> cut < Journal.HEADER_BYTES + |Journal.JournalBytes(m.disk.records[..k + 1])|
  {
    hide DiskSound;
    hide Journal.ScanJournal;
    hide Journal.JournalBytes;
    hide Journal.Trustworthy;
    hide Intact;
    if cut <= |m.disk.file| {
      assert OnDisk(m)[..cut] == m.disk.file[..cut];
      k := CutWithin(m.disk, cut, options);
    } else {
      k := |m.disk.records|;
      CutBehindOpens(m, cut, options);
      assert m.disk.records[..k] == m.disk.records;
      assert m.disk == Disk(m.disk.file, m.disk.records);
    }
  }

  lemma CutBehindOpens(m: Machine, cut: nat, options: Journal.Options)
    requires DiskSound(m.disk, options) && |m.disk.file| < cut <= |OnDisk(m)| && |m.disk.records| <= options.maxRecords
    requires Intact(m, cut, options)
    ensures var file := OnDisk(m)[..cut];
            var scan := Journal.ScanJournal(file, options);
            && Journal.Trustworthy(scan.outcome) && scan.records == m.disk.records
            && scan.repairedBytes == |file| - |m.disk.file| && file[..|m.disk.file|] == m.disk.file
  {
    hide DiskSound;
    hide Journal.ScanJournal;
    hide Journal.LastSequence;
    hide TailRecords;
    hide Holds;
    CutBehind(m, cut);
    hide OnDisk;
    SoundHolds(m.disk, options);
    LeftoverTorn(m.disk.file, m.disk.records, m.leftover[..cut - |m.disk.file|], options);
  }

  lemma CutBehind(m: Machine, cut: nat)
    requires |m.disk.file| <= cut <= |OnDisk(m)|
    ensures OnDisk(m)[..cut] == m.disk.file + m.leftover[..cut - |m.disk.file|]
  {
  }

  lemma SoundHolds(d: Disk, options: Journal.Options)
    requires DiskSound(d, options)
    ensures Holds(d.file, d.records, options)
  {
    hide Holds;
  }

  lemma CutWithin(d: Disk, cut: nat, options: Journal.Options) returns (k: nat)
    requires DiskSound(d, options) && Journal.HEADER_BYTES <= cut <= |d.file| && |d.records| <= options.maxRecords
    ensures k <= |d.records|
    ensures var file := d.file[..cut];
            var scan := Journal.ScanJournal(file, options);
            && Journal.Trustworthy(scan.outcome) && scan.records == d.records[..k]
            && scan.repairedBytes <= |file| && DiskSound(Disk(file[..|file| - scan.repairedBytes], scan.records), options)
    ensures k < |d.records| ==> cut < Journal.HEADER_BYTES + |Journal.JournalBytes(d.records[..k + 1])|
  {
    hide Journal.ScanJournal;
    hide Journal.JournalBytes;
    hide Journal.ValidHeader;
    hide Journal.WithinCut;
    hide Journal.AllStorable;
    hide Journal.Increasing;
    var rs := d.records;
    var h := d.file[..Journal.HEADER_BYTES];
    var file := d.file[..cut];
    assert d.file == h + Journal.JournalBytes(rs);
    assert CutOf(file, h, rs, options);
    TruncatedHolds(file, h, rs, options);
    Journal.TornTailScan(h, rs, cut, options);
    k := Journal.WithinCut(rs, cut - Journal.HEADER_BYTES);
  }

  /** The store a start finds is sound, and replays to what the scan found. */
  lemma OpenedStored(m: Machine, d: Deed, options: Journal.Options, f: BundleFormat)
    requires d.Reopens? && DiskSound(m.disk, options) && options.maxRecordBytes < 0x1_0000_0000
    requires Journal.HEADER_BYTES <= d.cut <= |OnDisk(m)| && |m.disk.records| <= options.maxRecords && Intact(m, d.cut, options)
    requires |m.disk.file| + 8 + Journal.RECORD_HEADER <= options.maxJournalBytes && 8 <= options.maxRecordBytes
    requires Journal.LastSequence(Journal.ScanJournal(OnDisk(m)[..d.cut], options).records, 0) < MAX_COUNTER - 1
    ensures var scan := Journal.ScanJournal(OnDisk(m)[..d.cut], options);
            var o := Opened(OnDisk(m)[..d.cut], scan, d);
            DiskSound(o, options) && Replayed(o.records, f) == Replayed(scan.records, f) && scan.records <= o.records
  {
    hide Journal.ScanJournal;
    hide DiskSound;
    hide Replayed;
    hide Journal.RecordBytes;
    hide Journal.FileHeader;
    hide Journal.Trustworthy;
    hide Intact;
    hide CarriesSession;
    var k := CutOpens(m, d.cut, options);
    hide OnDisk;
    var file := OnDisk(m)[..d.cut];
    var scan := Journal.ScanJournal(file, options);
    var start := Disk(file[..|file| - scan.repairedBytes], scan.records);
    EpochLength(d.restart.epoch);
    AppendedSound(start, 1, PutLe(Journal.W8, d.restart.epoch), d.at, options);
    var epoch := Appended(start, 1, PutLe(Journal.W8, d.restart.epoch), d.at);
    SoundLength(epoch, options);
    Journal.HeaderIsValid(d.restart.epoch, d.created);
    WithHeaderSound(epoch, Journal.FileHeader(d.restart.epoch, d.created), options);
    EpochRecord(start, PutLe(Journal.W8, d.restart.epoch), d.at);
    NotASession(scan.records, NextRecord(start, 1, PutLe(Journal.W8, d.restart.epoch), d.at), f);
  }

  lemma EpochRecord(d: Disk, payload: seq<Byte>, at: U64)
    ensures !CarriesSession(NextRecord(d, 1, payload, at))
  {
  }

  lemma EpochLength(epoch: U64)
    ensures |PutLe(Journal.W8, epoch)| == 8
  {
  }

  lemma SoundLength(d: Disk, options: Journal.Options)
    requires DiskSound(d, options)
    ensures Journal.HEADER_BYTES <= |d.file| <= options.maxJournalBytes
  {
    hide Journal.JournalBytes;
    hide Journal.ValidHeader;
  }

  lemma NotASession(rs: seq<JournalRecord>, r: JournalRecord, f: BundleFormat)
    requires !CarriesSession(r)
    ensures Replayed(rs + [r], f) == Replayed(rs, f)
  {
    hide Payloads;
    hide Decoded;
    ReplayedMore(rs, r, f);
    assert Replayed(rs, f) + [] == Replayed(rs, f);
  }

  /** What the start finds in the file is what the runtime is restarted from. */
  lemma ReopenFollows(m: Machine, d: Deed, m': Machine, options: Journal.Options, f: BundleFormat)
    requires Stored(m, options, f) && d.Reopens? && Reopened(m, d, m', options, f)
    ensures Positions(d.restart.kept, |m.world.log|) && m'.world == Restarted(m.world, d.restart)
    ensures Kept(m.world.log, d.restart.kept) == RecoveredFrom(OnDisk(m)[..d.cut], options, f)
  {
    hide DiskSound;
    hide Replayed;
    hide ReadableOf;
    hide Journal.ScanJournal;
    hide StartedFrom;
    hide Resurfaced;
    hide SavedAll;
    hide Opened;
    var k := CutOpens(m, d.cut, options);
    ReplayedPrefix(m.disk.records, k, f);
    SurvivingKept(m.world.log, Replayed(m.disk.records[..k], f), f);
  }

  lemma ReopenStored(m: Machine, d: Deed, m': Machine, options: Journal.Options, f: BundleFormat)
    requires Lawful(f) && Healthy(m.world) && Stored(m, options, f) && options.maxRecordBytes < 0x1_0000_0000
    requires d.Reopens? && Reopened(m, d, m', options, f)
    ensures Stored(m', options, f)
    ensures Journal.ScanJournal(OnDisk(m)[..d.cut], options).records <= m'.disk.records
  {
    hide DiskSound;
    hide Replayed;
    hide ReadableOf;
    hide Readable;
    hide Journal.ScanJournal;
    hide StartedFrom;
    hide Resurfaced;
    hide SavedAll;
    hide Opened;
    hide Sound;
    hide BindingsSound;
    hide ArtifactsSound;
    hide CustodySound;
    hide Restarted;
    hide SessionSound;
    hide RestartedSession;
    hide LastIndex;
    ReopenFollows(m, d, m', options, f);
    RestartSound(m.world, d.restart);
    var scan := Journal.ScanJournal(OnDisk(m)[..d.cut], options);
    var found := Replayed(scan.records, f);
    var more := m'.world.log[|found|..];
    assert found <= m'.world.log && m'.world.log == found + more;
    forall i | 0 <= i < |more|
      ensures SessionSound(more[i].session)
    {
      RecordIsSound(m'.world, |found| + i);
    }
    OpenedStored(m, d, options, f);
    SavedAllStored(Opened(OnDisk(m)[..d.cut], scan, d), more, d.times, m'.disk, options, f);
    SoundLength(m'.disk, options);
    FoundReadable(m, d.restart.kept, found, f);
    AllReadable(found, f);
    ReadableAppend(found, more, f);
  }

  lemma FoundReadable(m: Machine, kept: seq<nat>, found: seq<Bundle>, f: BundleFormat)
    requires kept == Surviving(m.world.log, |found|, f) && found == Kept(m.world.log, kept)
    ensures forall i :: 0 <= i < |found| ==> Readable(found[i], f)
  {
    hide Readable;
    hide ReadableOf;
    hide ReadableAt;
    ReadableStands(m.world.log, f);
    ReadablePositions(m.world.log, f);
  }

  function MomentOf(d: Deed): Moment {
    match d
    case Works(event, _) => Acts(event)
    case Falters(event, _, _, _) => Acts(event)
    case Reopens(_, restart, _, _, _) => Crashes(restart)
  }

  lemma DeedFollows(m: Machine, d: Deed, m': Machine, options: Journal.Options, f: BundleFormat)
    requires Lawful(f) && Healthy(m.world) && Stored(m, options, f) && options.maxRecordBytes < 0x1_0000_0000
    requires Happens(m, d, m', options, f) && Unspent(m'.world)
    ensures Healthy(m'.world) && Stored(m', options, f) && Follows(m.world, MomentOf(d), m'.world)
  {
    hide Healthy;
    hide Stored;
    hide Step;
    hide Saved;
    hide Reopened;
    hide Restarted;
    match d {
      case Works(event, at) =>
        WorkStored(m, event, at, m', options, f);
        ActHealthy(m.world, event, m'.world);
      case Falters(event, _, _, _) =>
        FalterStored(m, d, m', options, f);
        ActHealthy(m.world, event, m'.world);
      case Reopens(_, _, _, _, _) =>
        ReopenFollows(m, d, m', options, f);
        ReopenStored(m, d, m', options, f);
        CrashHealthy(m.world, d.restart);
    }
  }

  /* ---------- Whole histories ---------- */

  ghost predicate HealthyAt(ms: seq<Machine>, k: nat, options: Journal.Options, f: BundleFormat) {
    k < |ms| && Healthy(ms[k].world) && Stored(ms[k], options, f)
  }

  /** At every moment the runtime is healthy and its journal agrees with it. */
  lemma {:induction false} HistoryStored(ms: seq<Machine>, deeds: seq<Deed>, k: nat, options: Journal.Options, f: BundleFormat)
    requires IsHistory(ms, deeds, options, f) && k < |ms|
    ensures HealthyAt(ms, k, options, f)
    decreases k
  {
    hide Healthy;
    hide Stored;
    hide Happens;
    hide Follows;
    if k == 0 {
      InitialHealthy();
      FreshStored(ms[0], options, f);
    } else {
      HistoryStored(ms, deeds, k - 1, options, f);
      DeedFollows(ms[k - 1], deeds[k - 1], ms[k - 1 + 1], options, f);
    }
  }

  lemma HistoryFollows(ms: seq<Machine>, deeds: seq<Deed>, k: nat, options: Journal.Options, f: BundleFormat)
    requires IsHistory(ms, deeds, options, f) && k < |deeds|
    ensures Follows(ms[k].world, MomentOf(deeds[k]), ms[k + 1].world)
  {
    hide Healthy;
    hide Stored;
    hide Happens;
    hide Follows;
    HistoryStored(ms, deeds, k, options, f);
    DeedFollows(ms[k], deeds[k], ms[k + 1], options, f);
  }

  lemma FreshStored(m: Machine, options: Journal.Options, f: BundleFormat)
    requires Fresh(m, options, f)
    ensures Stored(m, options, f) && m.world == Initial()
  {
    hide DiskSound;
    hide Replayed;
    SoundLength(m.disk, options);
  }

  function WorldsOf(ms: seq<Machine>): (ws: seq<World>)
    ensures |ws| == |ms| && forall k :: 0 <= k < |ms| ==> ws[k] == ms[k].world
  {
    seq(|ms|, k requires 0 <= k < |ms| => ms[k].world)
  }

  function MomentsOf(deeds: seq<Deed>): (moments: seq<Moment>)
    ensures |moments| == |deeds| && forall k :: 0 <= k < |deeds| ==> moments[k] == MomentOf(deeds[k])
  {
    seq(|deeds|, k requires 0 <= k < |deeds| => MomentOf(deeds[k]))
  }

  /** Every history of runtime and bytes is a life: what is proved of lives holds down to the
      file. */
  lemma HistoryIsLife(ms: seq<Machine>, deeds: seq<Deed>, options: Journal.Options, f: BundleFormat)
    requires IsHistory(ms, deeds, options, f)
    ensures LifeUpTo(WorldsOf(ms), MomentsOf(deeds), |deeds|)
  {
    hide Healthy;
    hide Stored;
    hide Happens;
    hide Follows;
    var ws, moments := WorldsOf(ms), MomentsOf(deeds);
    FreshStored(ms[0], options, f);
    forall k {:trigger moments[k]} | 0 <= k < |moments|
      ensures Follows(ws[k], moments[k], ws[k + 1])
    {
      HistoryFollows(ms, deeds, k, options, f);
    }
  }

  /* ---------- What survives ---------- */

  /** No crash between two moments cuts into the first bytes of the file. */
  predicate CutsBeyond(deeds: seq<Deed>, i: nat, j: nat, length: nat) {
    forall k :: i <= k < j && k < |deeds| && deeds[k].Reopens? ==> length <= deeds[k].cut
  }

  lemma FileLength(d: Disk, options: Journal.Options)
    requires DiskSound(d, options)
    ensures |d.file| == Journal.HEADER_BYTES + |Journal.JournalBytes(d.records)|
  {
    hide Journal.JournalBytes;
    hide Journal.ValidHeader;
  }

  /** A cut behind some records keeps them. */
  lemma CutKeepsRecords(m: Machine, cut: nat, kept: Disk, options: Journal.Options)
    requires DiskSound(m.disk, options) && DiskSound(kept, options) && kept.records <= m.disk.records
    requires |kept.file| <= cut <= |OnDisk(m)| && |m.disk.records| <= options.maxRecords && Intact(m, cut, options)
    ensures kept.records <= Journal.ScanJournal(OnDisk(m)[..cut], options).records
  {
    hide DiskSound;
    hide Journal.ScanJournal;
    hide Journal.JournalBytes;
    FileLength(kept, options);
    var k := CutOpens(m, cut, options);
    var n := |kept.records|;
    assert m.disk.records[..n] == kept.records;
    CutKeeps(m.disk.records, n, k, cut);
  }

  predicate CutsBehind(d: Deed, kept: Disk) {
    d.Reopens? ==> |kept.file| <= d.cut
  }

  lemma DeedKeeps(m: Machine, d: Deed, m': Machine, kept: Disk, options: Journal.Options, f: BundleFormat)
    requires Lawful(f) && Healthy(m.world) && Stored(m, options, f) && options.maxRecordBytes < 0x1_0000_0000
    requires Happens(m, d, m', options, f) && DiskSound(kept, options) && kept.records <= m.disk.records && CutsBehind(d, kept)
    ensures kept.records <= m'.disk.records
  {
    hide Healthy;
    hide Stored;
    hide DiskSound;
    hide Happens;
    match d {
      case Works(event, at) =>
        WorkStored(m, event, at, m', options, f);
      case Falters(_, _, _, _) =>
        FalterStored(m, d, m', options, f);
      case Reopens(_, _, _, _, _) =>
        ReopenKeeps(m, d, m', kept, options, f);
    }
  }

  lemma ReopenKeeps(m: Machine, d: Deed, m': Machine, kept: Disk, options: Journal.Options, f: BundleFormat)
    requires Lawful(f) && Healthy(m.world) && Stored(m, options, f) && options.maxRecordBytes < 0x1_0000_0000
    requires Happens(m, d, m', options, f) && DiskSound(kept, options) && kept.records <= m.disk.records && CutsBehind(d, kept)
    requires d.Reopens?
    ensures kept.records <= m'.disk.records
  {
    hide Healthy;
    hide DiskSound;
    hide Step;
    hide Replayed;
    hide ReadableOf;
    hide Reopened;
    hide Intact;
    hide Journal.ScanJournal;
    ReopenBounds(m, d, m', options, f);
    CutKeepsRecords(m, d.cut, kept, options);
    ReopenStored(m, d, m', options, f);
  }

  lemma ReopenBounds(m: Machine, d: Deed, m': Machine, options: Journal.Options, f: BundleFormat)
    requires d.Reopens? && Reopened(m, d, m', options, f)
    ensures d.cut <= |OnDisk(m)| && |m.disk.records| <= options.maxRecords && Intact(m, d.cut, options)
  {
    hide Journal.ScanJournal;
    hide StartedFrom;
    hide Resurfaced;
    hide SavedAll;
    hide Opened;
  }

  /** What the file held at some moment it holds as long as no crash cuts into it. */
  lemma {:induction false} RecordsKept(ms: seq<Machine>, deeds: seq<Deed>, i: nat, j: nat, options: Journal.Options, f: BundleFormat)
    requires IsHistory(ms, deeds, options, f) && i <= j < |ms| && CutsBeyond(deeds, i, j, |ms[i].disk.file|)
    ensures ms[i].disk.records <= ms[j].disk.records
    decreases j
  {
    hide Healthy;
    hide Happens;
    hide Follows;
    hide Replayed;
    hide ReadableOf;
    hide DiskSound;
    if i < j {
      RecordsKept(ms, deeds, i, j - 1, options, f);
      HistoryStored(ms, deeds, i, options, f);
      HistoryStored(ms, deeds, j - 1, options, f);
      DeedKeeps(ms[j - 1], deeds[j - 1], ms[j - 1 + 1], ms[i].disk, options, f);
    }
  }

  /** A readable record that was in the log at some moment is in it at every later one, across
      crashes that do not cut into what the file held then. */
  lemma ReadableKept(ms: seq<Machine>, deeds: seq<Deed>, i: nat, j: nat, b: Bundle, options: Journal.Options, f: BundleFormat)
    requires IsHistory(ms, deeds, options, f) && i <= j < |ms| && CutsBeyond(deeds, i, j, |ms[i].disk.file|)
    requires b in ms[i].world.log && Readable(b, f)
    ensures b in ms[j].world.log
  {
    hide IsHistory;
    hide Healthy;
    hide DiskSound;
    hide Replayed;
    hide ReadableOf;
    hide ReadableAt;
    hide Readable;
    hide Follows;
    RecordsKept(ms, deeds, i, j, options, f);
    HistoryStored(ms, deeds, i, options, f);
    HistoryStored(ms, deeds, j, options, f);
    var n :| 0 <= n < |ms[i].world.log| && ms[i].world.log[n] == b;
    ReadableMember(ms[i].world.log, n, f);
    ReplayedGrows(ms[i].disk.records, ms[j].disk.records, f);
    ReadableStands(ms[j].world.log, f);
    var all := ReadableOf(ms[j].world.log, f);
    var k :| 0 <= k < |all| && all[k] == b;
    assert b == ms[j].world.log[ReadableAt(ms[j].world.log, f)[k]];
  }

  /** What a readable record shows as settled stays settled: a phase that was fenced, by a restart
      or otherwise, can never commit, and a committed one keeps its generation and commit. */
  lemma SettledSurvives(ms: seq<Machine>, deeds: seq<Deed>, i: nat, j: nat, b: Bundle, phase: U64, options: Journal.Options, f: BundleFormat)
    requires IsHistory(ms, deeds, options, f) && i <= j < |ms| && CutsBeyond(deeds, i, j, |ms[i].disk.file|)
    requires b in ms[i].world.log && Readable(b, f)
    requires phase in b.session.phases && Settled(b.session.phases[phase].state)
    ensures HasRecord(ms[j].world, b.session.id, phase)
    ensures var p := ms[j].world.sessions[b.session.id].phases[phase];
            && (p.state == b.session.phases[phase].state || p.state == Retired)
            && p.generation == b.session.phases[phase].generation && p.commit == b.session.phases[phase].commit
  {
    hide IsHistory;
    hide Readable;
    hide Stored;
    hide Follows;
    hide BindingsSound;
    hide ArtifactsSound;
    hide CustodySound;
    hide SessionsSound;
    hide CommitsSound;
    hide Ordered;
    ReadableKept(ms, deeds, i, j, b, options, f);
    HistoryStored(ms, deeds, j, options, f);
    var n :| 0 <= n < |ms[j].world.log| && ms[j].world.log[n] == b;
    RecordEvolved(ms[j].world, n, phase);
  }

  /** Durability. A commit that was reported while its record was readable is, at every later
      moment and across any number of crashes at any bytes behind what the file held then,
      COMMITTED or since RETIRED under the same generation and commit identity. */
  lemma CommitSurvives(ms: seq<Machine>, deeds: seq<Deed>, i: nat, j: nat, e: CommitEvent, options: Journal.Options, f: BundleFormat)
    requires IsHistory(ms, deeds, options, f) && i <= j < |ms| && CutsBeyond(deeds, i, j, |ms[i].disk.file|)
    requires e in ms[i].world.commits && e.at < |ms[i].world.log| && Readable(ms[i].world.log[e.at], f)
    ensures HasRecord(ms[j].world, e.session, e.phase)
    ensures Carries(ms[j].world.sessions[e.session].phases[e.phase], e)
  {
    hide IsHistory;
    hide Readable;
    hide Stored;
    hide Follows;
    hide Sound;
    hide BindingsSound;
    hide ArtifactsSound;
    hide CustodySound;
    HistoryStored(ms, deeds, i, options, f);
    EventRecord(ms[i].world, e);
    SettledSurvives(ms, deeds, i, j, ms[i].world.log[e.at], e.phase, options, f);
  }

  /** End-to-end durability, in bytes. Take any history, a commit reported by its moment i, and
      the file of any later moment j. Cut that file at any byte at or behind what it held at i:
      the scan trusts what is left, and the sessions replayed from it show the commit. */
  lemma CommitSurvivesAnyCut(ms: seq<Machine>, deeds: seq<Deed>, i: nat, j: nat, e: CommitEvent, cut: nat, options: Journal.Options, f: BundleFormat)
    requires IsHistory(ms, deeds, options, f) && i <= j < |ms| && CutsBeyond(deeds, i, j, |ms[i].disk.file|)
    requires e in ms[i].world.commits && e.at < |ms[i].world.log| && Readable(ms[i].world.log[e.at], f)
    requires |ms[i].disk.file| <= cut <= |OnDisk(ms[j])| && |ms[j].disk.records| <= options.maxRecords && Intact(ms[j], cut, options)
    ensures Journal.Trustworthy(Journal.ScanJournal(OnDisk(ms[j])[..cut], options).outcome)
    ensures Shows(RecoveredFrom(OnDisk(ms[j])[..cut], options, f), e)
  {
    hide IsHistory;
    hide Readable;
    hide Follows;
    hide Sound;
    hide BindingsSound;
    hide ArtifactsSound;
    hide CustodySound;
    hide DiskSound;
    hide Replayed;
    hide ReadableOf;
    hide Shows;
    hide Carries;
    hide Journal.ScanJournal;
    HistoryStored(ms, deeds, i, options, f);
    HistoryStored(ms, deeds, j, options, f);
    RecordsKept(ms, deeds, i, j, options, f);
    var b := ms[i].world.log[e.at];
    EventRecord(ms[i].world, e);
    ReadableMember(ms[i].world.log, e.at, f);
    SoundLength(ms[i].disk, options);
    CutKeepsRecords(ms[j], cut, ms[i].disk, options);
    var k := CutOpens(ms[j], cut, options);
    var found := Replayed(ms[j].disk.records[..k], f);
    ReplayedGrows(ms[i].disk.records, ms[j].disk.records[..k], f);
    ReplayedPrefix(ms[j].disk.records, k, f);
    SurvivingKept(ms[j].world.log, found, f);
    LogIsSound(ms[j].world);
    CommitRecovered(ms[j].world, found, Surviving(ms[j].world.log, |found|, f), e, b);
  }

  lemma LogIsSound(w: World)
    requires Sound(w)
    ensures LogSound(w)
  {
    hide LogSound;
  }

  /** With bytes of interrupted appends behind the journal, the next start trusts the file if and
      only if those bytes read as records up to a torn end; and whenever it trusts the file, the
      record of every reported commit is among those it reads. */
  lemma LeftoverDecides(ms: seq<Machine>, deeds: seq<Deed>, i: nat, j: nat, e: CommitEvent, cut: nat, options: Journal.Options, f: BundleFormat)
    requires IsHistory(ms, deeds, options, f) && i <= j < |ms| && CutsBeyond(deeds, i, j, |ms[i].disk.file|)
    requires e in ms[i].world.commits && e.at < |ms[i].world.log| && Readable(ms[i].world.log[e.at], f)
    requires |ms[j].disk.file| <= cut <= |OnDisk(ms[j])| && |ms[j].disk.records| <= options.maxRecords
    ensures var d := ms[j].disk;
            Journal.Trustworthy(Journal.ScanJournal(OnDisk(ms[j])[..cut], options).outcome) <==>
              TailRecords(ms[j].leftover[..cut - |d.file|], Journal.LastSequence(d.records, 0) + 1, options.maxRecords - |d.records|, options).Some?
    ensures Journal.Trustworthy(Journal.ScanJournal(OnDisk(ms[j])[..cut], options).outcome) ==>
              ms[i].world.log[e.at] in RecoveredFrom(OnDisk(ms[j])[..cut], options, f)
  {
    hide IsHistory;
    hide Readable;
    hide Healthy;
    hide DiskSound;
    hide Replayed;
    hide ReadableOf;
    hide TailRecords;
    hide Journal.ScanJournal;
    hide Journal.Trustworthy;
    hide Journal.LastSequence;
    hide CutsBeyond;
    HistoryStored(ms, deeds, i, options, f);
    HistoryStored(ms, deeds, j, options, f);
    RecordsKept(ms, deeds, i, j, options, f);
    ReadableMember(ms[i].world.log, e.at, f);
    LeftoverScan(ms[j], cut, options);
    var scan := Journal.ScanJournal(OnDisk(ms[j])[..cut], options);
    if Journal.Trustworthy(scan.outcome) {
      ReplayedGrows(ms[i].disk.records, scan.records, f);
    }
  }

  lemma LeftoverScan(m: Machine, cut: nat, options: Journal.Options)
    requires DiskSound(m.disk, options) && |m.disk.file| <= cut <= |OnDisk(m)| && |m.disk.records| <= options.maxRecords
    ensures var scan := Journal.ScanJournal(OnDisk(m)[..cut], options);
            && (Journal.Trustworthy(scan.outcome) <==>
                  TailRecords(m.leftover[..cut - |m.disk.file|], Journal.LastSequence(m.disk.records, 0) + 1,
                              options.maxRecords - |m.disk.records|, options).Some?)
            && (Journal.Trustworthy(scan.outcome) ==> m.disk.records <= scan.records)
  {
    hide DiskSound;
    hide TailRecords;
    hide Journal.ScanJournal;
    hide Journal.Trustworthy;
    hide Journal.LastSequence;
    hide Holds;
    CutBehind(m, cut);
    hide OnDisk;
    SoundHolds(m.disk, options);
    LeftoverVerdict(m.disk.file, m.disk.records, m.leftover[..cut - |m.disk.file|], options);
  }

  /** A start from the bytes trusts them, and recovers the session without the commit. */
  ghost predicate LosesCommit(file: seq<Byte>, e: CommitEvent, options: Journal.Options, f: BundleFormat) {
    var found := RecoveredFrom(file, options, f);
    && Journal.Trustworthy(Journal.ScanJournal(file, options).outcome)
    && !(LastIndex(found, e.session) < |found| && HasCommitted(found[LastIndex(found, e.session)].session, e.phase))
  }

  /** The exact exception. A commit whose own record exceeds a ceiling of the decoder is reported,
      and a crash right then recovers its session without it. */
  lemma OversizedCommitLost(ms: seq<Machine>, deeds: seq<Deed>, i: nat, e: CommitEvent, options: Journal.Options, f: BundleFormat)
    requires IsHistory(ms, deeds, options, f) && i < |ms| && |ms[i].disk.records| <= options.maxRecords
    requires Intact(ms[i], |OnDisk(ms[i])|, options)
    requires e in ms[i].world.commits && e.at + 1 == |ms[i].world.log| && !Readable(ms[i].world.log[e.at], f)
    ensures LosesCommit(OnDisk(ms[i]), e, options, f)
  {
    hide IsHistory;
    hide Readable;
    hide Sound;
    hide BindingsSound;
    hide ArtifactsSound;
    hide CustodySound;
    hide Replayed;
    hide ReadableOf;
    hide LastIndex;
    hide DiskSound;
    hide Intact;
    hide Journal.ScanJournal;
    HistoryStored(ms, deeds, i, options, f);
    var m := ms[i];
    var all := OnDisk(m);
    assert all[..|all|] == all;
    SoundLength(m.disk, options);
    CutKeepsRecords(m, |all|, m.disk, options);
    var k := CutOpens(m, |all|, options);
    assert m.disk.records[..k] == m.disk.records;
    UnreadableLost(m.world, e, f);
  }

  /** The last recovered record of the session has the phase under way. */
  ghost predicate FoundInFlight(found: seq<Bundle>, session: U64, phase: U64) {
    && LastIndex(found, session) < |found|
    && var s := found[LastIndex(found, session)].session;
       phase in s.phases && InFlight(s.phases[phase].state)
  }

  /** A start fences what it finds in flight: the sessions it recovers from the bytes have no phase
      under way, and the record of that is the last one of each session. */
  lemma StartFences(ms: seq<Machine>, deeds: seq<Deed>, k: nat, session: U64, phase: U64, options: Journal.Options, f: BundleFormat)
    requires IsHistory(ms, deeds, options, f) && k < |deeds| && deeds[k].Reopens?
    requires deeds[k].cut <= |OnDisk(ms[k])|
    requires FoundInFlight(RecoveredFrom(OnDisk(ms[k])[..deeds[k].cut], options, f), session, phase)
    ensures HasRecord(ms[k + 1].world, session, phase)
    ensures ms[k + 1].world.sessions[session].phases[phase].state == Fenced
    ensures ms[k + 1].world.issued == {}
  {
    hide Sound;
    hide BindingsSound;
    hide ArtifactsSound;
    hide CustodySound;
    hide Follows;
    hide Stored;
    hide Step;
    hide Saved;
    hide Reopened;
    hide Restarted;
    hide Replayed;
    hide LastIndex;
    hide Journal.ScanJournal;
    HistoryStored(ms, deeds, k, options, f);
    assert Happens(ms[k], deeds[k], ms[k + 1], options, f);
    ReopenFollows(ms[k], deeds[k], ms[k + 1], options, f);
    RestartFences(ms[k].world, deeds[k].restart, session, phase);
    RestartForgets(ms[k].world, deeds[k].restart);
  }

  ghost predicate IsSettled(w: World, session: U64, phase: U64) {
    HasRecord(w, session, phase) && Settled(w.sessions[session].phases[phase].state)
  }

  /** The phase is as it was, or since retired, under the same generation and commit. */
  ghost predicate Remains(w: World, w': World, session: U64, phase: U64) {
    && IsSettled(w, session, phase) && IsSettled(w', session, phase)
    && var p, q := w.sessions[session].phases[phase], w'.sessions[session].phases[phase];
       (q.state == p.state || q.state == Retired) && q.generation == p.generation && q.commit == p.commit
  }

  /** ... and within the same epoch a fenced phase stays fenced, or is retired. */
  lemma {:induction false} FencedStays(ms: seq<Machine>, deeds: seq<Deed>, i: nat, j: nat, session: U64, phase: U64, options: Journal.Options, f: BundleFormat)
    requires IsHistory(ms, deeds, options, f) && i <= j < |ms| && (forall k :: i <= k < j ==> !deeds[k].Reopens?)
    requires IsSettled(ms[i].world, session, phase)
    ensures Remains(ms[i].world, ms[j].world, session, phase)
    decreases j
  {
    hide Healthy;
    hide Stored;
    hide Happens;
    hide IsHistory;
    hide IsSettled;
    if i < j {
      DeedAt(ms, deeds, j - 1, options, f);
      FencedStays(ms, deeds, i, j - 1, session, phase, options, f);
      HistoryStored(ms, deeds, j - 1, options, f);
      SettledDeed(ms[j - 1], deeds[j - 1], ms[j], session, phase, options, f);
    }
  }

  lemma DeedAt(ms: seq<Machine>, deeds: seq<Deed>, k: nat, options: Journal.Options, f: BundleFormat)
    requires IsHistory(ms, deeds, options, f) && k + 1 < |ms|
    ensures |ms| == |deeds| + 1 && Happens(ms[k], deeds[k], ms[k + 1], options, f)
  {
    hide Happens;
    assert Happens(ms[k], deeds[k], ms[k + 1], options, f);
  }

  lemma SettledDeed(m: Machine, d: Deed, m': Machine, session: U64, phase: U64, options: Journal.Options, f: BundleFormat)
    requires Healthy(m.world) && Happens(m, d, m', options, f) && !d.Reopens? && IsSettled(m.world, session, phase)
    ensures Remains(m.world, m'.world, session, phase)
  {
    hide Sound;
    hide BindingsSound;
    hide ArtifactsSound;
    hide CustodySound;
    hide Apply;
    hide Saved;
    hide Reopened;
    StepSound(m.world, d.event, m'.world);
    assert SessionEvolves(m.world.sessions[session], m'.world.sessions[session]);
  }

  /* ---------- Runs as histories ---------- */

  function RecordCeiling(options: Journal.Options): nat {
    options.maxRecordBytes + Journal.RECORD_HEADER
  }

  /** Every record is within the record ceiling, and the store has room for all of them. */
  ghost predicate Roomy(log: seq<Bundle>, options: Journal.Options, f: BundleFormat) {
    && options.maxRecordBytes < 0x1_0000_0000 && |log| < MAX_COUNTER - 1
    && Journal.HEADER_BYTES + |log| * RecordCeiling(options) <= options.maxJournalBytes
    && forall i :: 0 <= i < |log| ==> |f.encode(log[i])| <= options.maxRecordBytes
  }

  /** One record per logged bundle, and nothing behind them. */
  ghost predicate Level(m: Machine, options: Journal.Options) {
    && DiskSound(m.disk, options) && m.leftover == []
    && |m.disk.records| == |m.world.log| && Journal.LastSequence(m.disk.records, 0) == |m.world.log|
    && |m.disk.file| <= Journal.HEADER_BYTES + |m.world.log| * RecordCeiling(options)
  }

  lemma RoomyBefore(log: seq<Bundle>, more: seq<Bundle>, options: Journal.Options, f: BundleFormat)
    requires Roomy(more, options, f) && log <= more
    ensures Roomy(log, options, f)
  {
    assert |log| * RecordCeiling(options) <= |more| * RecordCeiling(options);
  }

  lemma LevelSave(d: Disk, b: Bundle, n: nat, options: Journal.Options, f: BundleFormat)
    requires DiskSound(d, options) && |d.records| == n && Journal.LastSequence(d.records, 0) == n
    requires |d.file| <= Journal.HEADER_BYTES + n * RecordCeiling(options) && n + 1 < MAX_COUNTER - 1
    requires options.maxRecordBytes < 0x1_0000_0000 && Journal.HEADER_BYTES + (n + 1) * RecordCeiling(options) <= options.maxJournalBytes
    requires |f.encode(b)| <= options.maxRecordBytes
    ensures var d' := Appended(d, 8, f.encode(b), 0);
            && Saved(d, b, 0, options, f) == Some(d') && DiskSound(d', options)
            && |d'.records| == n + 1 && Journal.LastSequence(d'.records, 0) == n + 1
            && |d'.file| <= Journal.HEADER_BYTES + (n + 1) * RecordCeiling(options)
  {
    hide DiskSound;
    hide Journal.RecordBytes;
    AppendedSound(d, 8, f.encode(b), 0, options);
    RecordLength(NextRecord(d, 8, f.encode(b), 0));
  }

  /** An action of the runtime, with the append it makes. */
  lemma NextMachine(m: Machine, e: Event, w: World, options: Journal.Options, f: BundleFormat) returns (m': Machine)
    requires Step(m.world, e, w) && Level(m, options) && Roomy(w.log, options, f)
    ensures m'.world == w && Happens(m, Works(e, 0), m', options, f) && Level(m', options)
  {
    hide Apply;
    hide DiskSound;
    hide Saved;
    hide RecordedStore;
    ApplyAppends(m.world, e);
    m' := Machine(w, m.disk, []);
    if w.log != m.world.log {
      var b := w.log[|w.log| - 1];
      LevelSave(m.disk, b, |m.world.log|, options, f);
      m' := Machine(w, Appended(m.disk, 8, f.encode(b), 0), []);
    }
  }

  lemma LogGrows(w: World, e: Event, w': World)
    requires Step(w, e, w')
    ensures w.log <= w'.log
  {
    hide Apply;
    hide RecordedStore;
    ApplyAppends(w, e);
  }

  lemma FirstMachine(options: Journal.Options, f: BundleFormat) returns (m: Machine)
    requires Roomy([], options, f)
    ensures Fresh(m, options, f) && Level(m, options)
  {
    hide Journal.FileHeader;
    hide Journal.ValidHeader;
    hide Holds;
    NewJournalHolds(options, 0);
    HeaderLength(0, 0);
    m := Machine(Initial(), Disk(Journal.FileHeader(0, 0), []), []);
  }

  lemma {:induction false} HistoryOf(worlds: seq<World>, events: seq<Event>, k: nat, options: Journal.Options, f: BundleFormat)
    returns (ms: seq<Machine>, deeds: seq<Deed>)
    requires IsRun(worlds, events) && worlds[0] == Initial() && k <= |events| && Roomy(worlds[k].log, options, f)
    ensures |ms| == k + 1 && |deeds| == k && Fresh(ms[0], options, f)
    ensures forall i {:trigger deeds[i]} :: 0 <= i < k ==> Happens(ms[i], deeds[i], ms[i + 1], options, f)
    ensures (forall i :: 0 <= i <= k ==> ms[i].world == worlds[i]) && Level(ms[k], options)
    decreases k
  {
    hide Step;
    hide Happens;
    hide Level;
    hide Roomy;
    hide Fresh;
    if k == 0 {
      var m := FirstMachine(options, f);
      FreshIs(m, options, f);
      ms, deeds := [m], [];
    } else {
      assert Step(worlds[k - 1], events[k - 1], worlds[k - 1 + 1]);
      LogGrows(worlds[k - 1], events[k - 1], worlds[k]);
      RoomyBefore(worlds[k - 1].log, worlds[k].log, options, f);
      ms, deeds := HistoryOf(worlds, events, k - 1, options, f);
      var m := NextMachine(ms[k - 1], events[k - 1], worlds[k], options, f);
      ms, deeds := ms + [m], deeds + [Works(events[k - 1], 0)];
    }
  }

  lemma FreshIs(m: Machine, options: Journal.Options, f: BundleFormat)
    requires Fresh(m, options, f)
    ensures m.world == Initial()
  {
  }

  /** The machines go through these worlds, and end with nothing behind the journal. */
  ghost predicate GoesThrough(ms: seq<Machine>, worlds: seq<World>, options: Journal.Options) {
    && |ms| == |worlds| > 0 && (forall k :: 0 <= k < |ms| ==> ms[k].world == worlds[k])
    && Level(ms[|ms| - 1], options)
  }

  ghost predicate RoomAtEnd(worlds: seq<World>, options: Journal.Options, f: BundleFormat) {
    worlds != [] && Roomy(worlds[|worlds| - 1].log, options, f)
  }

  predicate Starts(worlds: seq<World>) {
    worlds != [] && worlds[0] == Initial() && forall k :: 0 <= k < |worlds| ==> Unspent(worlds[k])
  }

  /** Every run from the initial state whose records are within the record ceiling is a history, on
      any store that is large enough. */
  lemma RunIsHistory(worlds: seq<World>, events: seq<Event>, options: Journal.Options, f: BundleFormat)
    returns (ms: seq<Machine>, deeds: seq<Deed>)
    requires IsRun(worlds, events) && Starts(worlds) && Lawful(f) && RoomAtEnd(worlds, options, f)
    ensures IsHistory(ms, deeds, options, f) && GoesThrough(ms, worlds, options)
  {
    hide Step;
    hide Happens;
    hide Level;
    hide Fresh;
    hide Lawful;
    ms, deeds := HistoryOf(worlds, events, |events|, options, f);
  }

  /** On a store with these ceilings, the run is a history that ends in bytes without the commit. */
  ghost predicate IsLost(worlds: seq<World>, e: CommitEvent, options: Journal.Options, f: BundleFormat) {
    exists ms: seq<Machine>, deeds: seq<Deed> ::
      && IsHistory(ms, deeds, options, f) && |ms| == |worlds| > 0
      && ms[|ms| - 1].world == worlds[|ms| - 1] && LosesCommit(OnDisk(ms[|ms| - 1]), e, options, f)
  }
}
