/** The persistence store: scanning, opening, appending and loading
    (src/core/persistence.cpp:1005-1107, 1181-1341, 1433-1467). */
module Store {
  import opened StrongId
  import opened Bytes
  import opened Wrappers
  import opened Crc32c
  import opened Journal

  /** The checks scan_journal makes on what is left of the file, in its order. */
  method ReadNext(rest: seq<Byte>, expected: nat, options: Options) returns (step: Step)
    ensures step == ReadRecord(rest, expected, options)
  {
    hide Checksum;
    if |rest| < RECORD_HEADER {
      return Torn;
    }
    if Field(rest, 0, W4) != RECORD_MAGIC {
      return Bad(Corrupt);
    }
    if Field(rest, 4, W2) != SCHEMA {
      return Bad(SchemaMismatch);
    }
    if Field(rest, 32, W4) != Checksum(rest[..CHECKED]) {
      return Bad(Corrupt);
    }
    var length := Field(rest, 24, W4);
    if length > options.maxRecordBytes {
      return Bad(BoundsExceeded);
    }
    if length > |rest| - RECORD_HEADER {
      return Torn;
    }
    var payload := rest[RECORD_HEADER..RECORD_HEADER + length];
    if Field(rest, 28, W4) != Checksum(payload) {
      return Bad(Corrupt);
    }
    if Field(rest, 6, W2) > MAX_KIND || Field(rest, 8, W8) < expected {
      return Bad(Corrupt);
    }
    WordBound(rest, 8);
    WordBound(rest, 16);
    step := Good(Record(Field(rest, 6, W2), Field(rest, 8, W8), Field(rest, 16, W8), payload));
  }

  /** scan_journal. */
  method ScanFile(s: seq<Byte>, options: Options) returns (scan: Scan)
    ensures scan == ScanJournal(s, options)
  {
    hide ReadRecord;
    hide ValidHeader;
    if |s| < HEADER_BYTES {
      return Scan(Empty, [], 0, 0, 0);
    }
    if !ValidHeader(s[..HEADER_BYTES]) {
      return Scan(Corrupt, [], 0, 0, 0);
    }
    var cursor: nat := HEADER_BYTES;
    var expected: nat := 1;
    var last: U64 := 0;
    var records: seq<Record> := [];
    while cursor < |s|
      invariant cursor <= |s|
      invariant ScanJournal(s, options) == ScanFrom(s, cursor, expected, last, records, options)
    {
      var step := ReadNext(s[cursor..], expected, options);
      match step {
        case Torn =>
          return Scan(TornTail, records, last, cursor, |s| - cursor);
        case Bad(outcome) =>
          return Scan(outcome, records, last, cursor, 0);
        case Good(record) =>
          GoodFits(s[cursor..], expected, options);
          expected := NextExpected(record.sequence);
          last := record.sequence;
          records := records + [record];
          cursor := cursor + RECORD_HEADER + |record.payload|;
          if |records| > options.maxRecords {
            return Scan(BoundsExceeded, records, last, 0, 0);
          }
      }
    }
    scan := Scan(if records == [] then Empty else Ok, records, last, cursor, 0);
  }

  lemma GoodFits(s: seq<Byte>, expected: nat, options: Options)
    requires ReadRecord(s, expected, options).Good?
    ensures RECORD_HEADER + |ReadRecord(s, expected, options).record.payload| <= |s|
  {
  }

  /* ---------- Growing journals ---------- */

  lemma {:induction false} IncreasingAppend(rs: seq<Record>, expected: nat, r: Record)
    requires Increasing(rs, expected) && r.sequence < MAX_COUNTER
    requires if rs == [] then expected <= r.sequence else rs[|rs| - 1].sequence < r.sequence
    ensures Increasing(rs + [r], expected)
  {
    if rs == [] {
      assert (rs + [r])[1..] == [];
    } else {
      assert (rs + [r])[1..] == rs[1..] + [r];
      assert rs[1..] != [] ==> rs[1..][|rs[1..]| - 1] == rs[|rs| - 1];
      IncreasingAppend(rs[1..], rs[0].sequence + 1, r);
    }
  }

  lemma {:induction false} IncreasingPrefix(rs: seq<Record>, expected: nat, k: nat)
    requires Increasing(rs, expected) && k <= |rs|
    ensures Increasing(rs[..k], expected)
    decreases k
  {
    if k > 0 {
      assert rs[..k][1..] == rs[1..][..k - 1];
      IncreasingPrefix(rs[1..], rs[0].sequence + 1, k - 1);
    }
  }

  lemma {:induction false} SequencesIncrease(rs: seq<Record>, expected: nat, i: nat, j: nat)
    requires Increasing(rs, expected) && i < j < |rs|
    ensures expected <= rs[i].sequence < rs[j].sequence
    decreases |rs|
  {
    if i > 0 {
      SequencesIncrease(rs[1..], rs[0].sequence + 1, i - 1, j - 1);
      assert rs[1..][i - 1] == rs[i] && rs[1..][j - 1] == rs[j];
    } else {
      FirstBelow(rs[1..], rs[0].sequence + 1, j - 1);
      assert rs[1..][j - 1] == rs[j];
    }
  }

  lemma {:induction false} FirstBelow(rs: seq<Record>, expected: nat, j: nat)
    requires Increasing(rs, expected) && j < |rs|
    ensures expected <= rs[j].sequence
    decreases |rs|
  {
    if j > 0 {
      FirstBelow(rs[1..], rs[0].sequence + 1, j - 1);
      assert rs[1..][j - 1] == rs[j];
    }
  }

  /** The file is a journal of these records, cut somewhere at or after its header. */
  ghost predicate CutOf(file: seq<Byte>, h: seq<Byte>, rs: seq<Record>, options: Options) {
    && IsHeader(h) && AllStorable(rs, options) && Increasing(rs, 1) && |rs| <= options.maxRecords
    && HEADER_BYTES <= |file| <= HEADER_BYTES + |JournalBytes(rs)|
    && file == (h + JournalBytes(rs))[..|file|]
  }

  /** The file is exactly a journal of these records. */
  ghost predicate Holds(file: seq<Byte>, rs: seq<Record>, options: Options) {
    && |file| >= HEADER_BYTES && IsHeader(file[..HEADER_BYTES]) && file[HEADER_BYTES..] == JournalBytes(rs)
    && AllStorable(rs, options) && Increasing(rs, 1)
  }

  /** Truncating a cut journal to the offset the scan computed leaves a whole journal of the
      records that lay before the cut. */
  lemma TruncatedHolds(file: seq<Byte>, h: seq<Byte>, rs: seq<Record>, options: Options)
    requires CutOf(file, h, rs, options)
    ensures var scan := ScanJournal(file, options);
            var k := WithinCut(rs, |file| - HEADER_BYTES);
            && Trustworthy(scan.outcome) && scan.records == rs[..k] && scan.lastSequence == LastSequence(rs[..k], 0)
            && scan.repairedBytes <= |file| && |file| - scan.repairedBytes == HEADER_BYTES + |JournalBytes(rs[..k])|
            && (scan.outcome != TornTail ==> scan.repairedBytes == 0)
            && Holds(file[..|file| - scan.repairedBytes], rs[..k], options)
            && file[..HEADER_BYTES] == h
  {
    hide ScanJournal;
    hide JournalBytes;
    hide ValidHeader;
    hide WithinCut;
    TornTailScan(h, rs, |file|, options);
    var scan := ScanJournal(file, options);
    var k := WithinCut(rs, |file| - HEADER_BYTES);
    var n := |file| - scan.repairedBytes;
    CutBytes(h, rs, k);
    assert file[..n] == (h + JournalBytes(rs))[..n];
    IncreasingPrefix(rs, 1, k);
    StorablePrefix(rs, k, options);
    hide Increasing;
    hide AllStorable;
    HeadAndBody(h, JournalBytes(rs[..k]));
    assert file[..HEADER_BYTES] == file[..n][..HEADER_BYTES];
  }

  lemma HeadAndBody(h: seq<Byte>, b: seq<Byte>)
    ensures (h + b)[..|h|] == h && (h + b)[|h|..] == b
  {
  }

  lemma StorablePrefix(rs: seq<Record>, k: nat, options: Options)
    requires AllStorable(rs, options) && k <= |rs|
    ensures AllStorable(rs[..k], options)
  {
  }

  /** Appending to a whole journal gives a whole journal with one more record. */
  lemma AppendedHolds(file: seq<Byte>, rs: seq<Record>, r: Record, options: Options)
    requires Holds(file, rs, options) && Storable(r, options) && LastSequence(rs, 0) < r.sequence < MAX_COUNTER
    ensures Holds(file + RecordBytes(r), rs + [r], options)
  {
    hide ValidHeader;
    hide JournalBytes;
    hide RecordBytes;
    JournalAppend(rs, [r]);
    OneRecord(r);
    IncreasingAppend(rs, 1, r);
    assert (file + RecordBytes(r))[..HEADER_BYTES] == file[..HEADER_BYTES];
    assert (file + RecordBytes(r))[HEADER_BYTES..] == file[HEADER_BYTES..] + RecordBytes(r);
  }

  lemma OneRecord(r: Record)
    ensures JournalBytes([r]) == RecordBytes(r)
  {
    assert [r][1..] == [];
    assert RecordBytes(r) + [] == RecordBytes(r);
  }

  /** A whole journal within the ceilings scans to its records. */
  lemma HoldsScans(file: seq<Byte>, rs: seq<Record>, options: Options)
    requires Holds(file, rs, options) && |rs| <= options.maxRecords
    ensures var scan := ScanJournal(file, options);
            scan.records == rs && scan.outcome == (if rs == [] then Empty else Ok) && scan.lastSequence == LastSequence(rs, 0)
  {
    hide ScanJournal;
    hide ValidHeader;
    hide JournalBytes;
    var h := file[..HEADER_BYTES];
    assert file == h + JournalBytes(rs);
    assert file[..|file|] == file;
    TornTailScan(h, rs, |file|, options);
    WholeCut(rs);
    assert rs[..|rs|] == rs;
    HoldsOutcome(file, h, rs, options);
  }

  lemma HoldsOutcome(file: seq<Byte>, h: seq<Byte>, rs: seq<Record>, options: Options)
    requires IsHeader(h) && AllStorable(rs, options) && Increasing(rs, 1) && |rs| <= options.maxRecords && file == h + JournalBytes(rs)
    ensures ScanJournal(file, options).outcome == (if rs == [] then Empty else Ok)
  {
    hide ScanFrom;
    hide ValidHeader;
    hide JournalBytes;
    hide WithinCut;
    hide AllStorable;
    hide Increasing;
    var c := |JournalBytes(rs)|;
    HeadAndBody(h, JournalBytes(rs));
    assert JournalBytes(rs)[..c] == JournalBytes(rs);
    WholeCut(rs);
    ScanCut(file, HEADER_BYTES, rs, c, 1, 0, [], options);
    assert rs[..|rs|] == rs && [] + rs == rs;
  }

  lemma {:induction false} WholeCut(rs: seq<Record>)
    ensures WithinCut(rs, |JournalBytes(rs)|) == |rs|
  {
    hide RecordBytes;
    if rs != [] {
      WholeCut(rs[1..]);
    }
  }

  /* ---------- Bytes behind a journal ---------- */

  /** What the scan makes of the bytes behind a whole journal: the records it goes on to find,
      unless it has to refuse. */
  function TailRecords(rest: seq<Byte>, expected: nat, room: nat, options: Options): (found: Option<seq<Record>>)
    decreases |rest|
  {
    if rest == [] then Some([])
    else
      match ReadRecord(rest, expected, options)
      case Torn => Some([])
      case Bad(_) => None
      case Good(r) =>
        if room == 0 then None
        else
          GoodFits(rest, expected, options);
          match TailRecords(rest[RECORD_HEADER + |r.payload|..], NextExpected(r.sequence), room - 1, options)
          case None => None
          case Some(more) => Some([r] + more)
  }

  /** The scan from a cursor is trusted exactly when the rest of the file is. */
  lemma {:induction false} ScanTail(s: seq<Byte>, cursor: nat, expected: nat, last: U64, found: seq<Record>, options: Options)
    requires cursor <= |s| && |found| <= options.maxRecords
    ensures var scan := ScanFrom(s, cursor, expected, last, found, options);
            var tail := TailRecords(s[cursor..], expected, options.maxRecords - |found|, options);
            && (Trustworthy(scan.outcome) <==> tail.Some?)
            && (tail.Some? ==> scan.records == found + tail.value)
    decreases |s| - cursor
  {
    hide ReadRecord;
    if cursor == |s| {
      assert s[cursor..] == [] && found + [] == found;
    } else {
      match ReadRecord(s[cursor..], expected, options) {
        case Torn =>
          assert found + [] == found;
        case Bad(outcome) =>
          BadIsBad(s[cursor..], expected, options);
        case Good(r) =>
          GoodFits(s[cursor..], expected, options);
          var next := cursor + RECORD_HEADER + |r.payload|;
          assert s[cursor..][RECORD_HEADER + |r.payload|..] == s[next..];
          if |found| < options.maxRecords {
            ScanTail(s, next, NextExpected(r.sequence), r.sequence, found + [r], options);
            var tail := TailRecords(s[next..], NextExpected(r.sequence), options.maxRecords - |found| - 1, options);
            if tail.Some? {
              assert found + [r] + tail.value == found + ([r] + tail.value);
            }
          }
      }
    }
  }

  lemma BadIsBad(s: seq<Byte>, expected: nat, options: Options)
    requires ReadRecord(s, expected, options).Bad?
    ensures !Trustworthy(ReadRecord(s, expected, options).outcome)
  {
    hide Checksum;
  }

  /** The exact verdict on a journal with bytes left behind it: the load is trusted if and only
      if those bytes read as further records up to a torn end. */
  lemma LeftoverVerdict(file: seq<Byte>, rs: seq<Record>, rest: seq<Byte>, options: Options)
    requires Holds(file, rs, options) && |rs| <= options.maxRecords
    ensures var scan := ScanJournal(file + rest, options);
            var tail := TailRecords(rest, LastSequence(rs, 0) + 1, options.maxRecords - |rs|, options);
            && (Trustworthy(scan.outcome) <==> tail.Some?)
            && (tail.Some? ==> scan.records == rs + tail.value)
  {
    hide ValidHeader;
    hide JournalBytes;
    hide ScanFrom;
    hide TailRecords;
    hide AllStorable;
    hide Increasing;
    if rest == [] {
      assert file + rest == file && rs + [] == rs;
      HoldsScans(file, rs, options);
      EmptyTail(LastSequence(rs, 0) + 1, options.maxRecords - |rs|, options);
    } else {
      ScanBehind(file, rs, rest, options);
      assert (file + rest)[|file|..] == rest;
      ScanTail(file + rest, |file|, LastSequence(rs, 0) + 1, LastSequence(rs, 0), rs, options);
    }
  }

  /** Bytes behind a whole journal that hold no further record are what open cuts off. */
  lemma LeftoverTorn(file: seq<Byte>, rs: seq<Record>, rest: seq<Byte>, options: Options)
    requires Holds(file, rs, options) && |rs| <= options.maxRecords && rest != []
    requires TailRecords(rest, LastSequence(rs, 0) + 1, options.maxRecords - |rs|, options) == Some([])
    ensures var scan := ScanJournal(file + rest, options);
            scan.outcome == TornTail && scan.records == rs && scan.repairedBytes == |rest|
  {
    hide Holds;
    hide ScanJournal;
    hide ScanFrom;
    hide TailRecords;
    hide ReadRecord;
    TailIsTorn(rest, LastSequence(rs, 0) + 1, options.maxRecords - |rs|, options);
    ScanBehind(file, rs, rest, options);
    assert (file + rest)[|file|..] == rest;
    TornScan(file + rest, |file|, LastSequence(rs, 0) + 1, LastSequence(rs, 0), rs, options);
  }

  /** The scan reads the journal and goes on behind it. */
  lemma ScanBehind(file: seq<Byte>, rs: seq<Record>, rest: seq<Byte>, options: Options)
    requires Holds(file, rs, options) && |rs| <= options.maxRecords && rest != []
    ensures ScanJournal(file + rest, options)
         == ScanFrom(file + rest, |file|, LastSequence(rs, 0) + 1, LastSequence(rs, 0), rs, options)
  {
    hide ValidHeader;
    hide JournalBytes;
    hide ScanFrom;
    hide AllStorable;
    hide Increasing;
    var s := file + rest;
    assert s[..HEADER_BYTES] == file[..HEADER_BYTES] && s[HEADER_BYTES..] == JournalBytes(rs) + rest;
    ScanPast(s, HEADER_BYTES, rs, rest, 1, 0, [], options);
    assert [] + rs == rs;
  }

  lemma TailIsTorn(rest: seq<Byte>, expected: nat, room: nat, options: Options)
    requires rest != [] && TailRecords(rest, expected, room, options) == Some([])
    ensures ReadRecord(rest, expected, options).Torn?
  {
    hide ReadRecord;
    GoodIsShorter(rest, expected, options);
  }

  lemma GoodIsShorter(rest: seq<Byte>, expected: nat, options: Options)
    ensures var step := ReadRecord(rest, expected, options); step.Good? ==> RECORD_HEADER + |step.record.payload| <= |rest|
  {
    if ReadRecord(rest, expected, options).Good? {
      GoodFits(rest, expected, options);
    }
  }

  lemma TornScan(s: seq<Byte>, cursor: nat, expected: nat, last: U64, found: seq<Record>, options: Options)
    requires cursor < |s| && ReadRecord(s[cursor..], expected, options).Torn?
    ensures ScanFrom(s, cursor, expected, last, found, options) == Scan(TornTail, found, last, cursor, |s| - cursor)
  {
    hide ReadRecord;
  }

  lemma EmptyTail(expected: nat, room: nat, options: Options)
    ensures TailRecords([], expected, room, options) == Some([])
  {
  }

  /** Fewer bytes than a record header are always taken for a torn tail. */
  lemma ShortLeftover(rest: seq<Byte>, expected: nat, room: nat, options: Options)
    requires |rest| < RECORD_HEADER
    ensures TailRecords(rest, expected, room, options) == Some([])
  {
  }

  /** A record that was wholly written before its append failed is found by the next load. */
  lemma WholeLeftover(r: Record, expected: nat, room: nat, options: Options)
    requires Storable(r, options) && expected <= r.sequence && room > 0
    ensures TailRecords(RecordBytes(r), expected, room, options) == Some([r])
  {
    hide ReadRecord;
    hide RecordBytes;
    assert RecordBytes(r) + [] == RecordBytes(r);
    RecordReads(r, [], expected, options);
    GoodFits(RecordBytes(r), expected, options);
    RecordLength(r);
    assert RecordBytes(r)[RECORD_HEADER + |r.payload|..] == [];
    EmptyTail(NextExpected(r.sequence), room - 1, options);
    assert [r] + [] == [r];
  }

  lemma RecordLength(r: Record)
    ensures |RecordBytes(r)| == RECORD_HEADER + |r.payload|
  {
  }

  /** Forty or more bytes that do not start with the record magic make the next load refuse the
      whole journal. */
  lemma ForeignLeftover(rest: seq<Byte>, expected: nat, room: nat, options: Options)
    requires |rest| >= RECORD_HEADER && Field(rest, 0, W4) != RECORD_MAGIC
    ensures TailRecords(rest, expected, room, options).None?
  {
  }

  /** Appending does not count records, but loading does: a journal loads if and only if it has
      no more than the configured number of them. */
  lemma RecordCeiling(file: seq<Byte>, rs: seq<Record>, options: Options)
    requires Holds(file, rs, options)
    ensures Trustworthy(ScanJournal(file, options).outcome) <==> |rs| <= options.maxRecords
  {
    hide ScanJournal;
    hide ValidHeader;
    hide JournalBytes;
    hide RecordBytes;
    hide TailRecords;
    if |rs| <= options.maxRecords {
      HoldsScans(file, rs, options);
    } else {
      hide Holds;
      var k := options.maxRecords;
      var kept, more := rs[..k], rs[k..];
      var front := SplitJournal(file, rs, k, options);
      LeftoverVerdict(front, kept, JournalBytes(more), options);
      HoldsFacts(file, rs, options);
      NextAfter(rs, k);
      FirstRecord(more, []);
      NoRoom(more[0], JournalBytes(more[1..]), LastSequence(kept, 0) + 1, options);
    }
  }

  lemma HoldsFacts(file: seq<Byte>, rs: seq<Record>, options: Options)
    requires Holds(file, rs, options)
    ensures AllStorable(rs, options) && Increasing(rs, 1)
  {
  }

  lemma SplitJournal(file: seq<Byte>, rs: seq<Record>, k: nat, options: Options) returns (front: seq<Byte>)
    requires Holds(file, rs, options) && k <= |rs|
    ensures Holds(front, rs[..k], options) && file == front + JournalBytes(rs[k..])
  {
    hide ValidHeader;
    hide JournalBytes;
    hide RecordBytes;
    var h := file[..HEADER_BYTES];
    assert rs == rs[..k] + rs[k..];
    JournalAppend(rs[..k], rs[k..]);
    front := h + JournalBytes(rs[..k]);
    HeadAndBody(h, JournalBytes(rs[..k]));
    StorablePrefix(rs, k, options);
    IncreasingPrefix(rs, 1, k);
    assert file == h + file[HEADER_BYTES..];
    Regroup(h, JournalBytes(rs[..k]), JournalBytes(rs[k..]));
  }

  lemma NextAfter(rs: seq<Record>, k: nat)
    requires Increasing(rs, 1) && k < |rs|
    ensures LastSequence(rs[..k], 0) + 1 <= rs[k].sequence
  {
    if k > 0 {
      SequencesIncrease(rs, 1, k - 1, k);
    }
  }

  lemma NoRoom(r: Record, rest: seq<Byte>, expected: nat, options: Options)
    requires Storable(r, options) && expected <= r.sequence
    ensures TailRecords(RecordBytes(r) + rest, expected, 0, options).None?
  {
    hide ReadRecord;
    hide RecordBytes;
    RecordLength(r);
    RecordReads(r, rest, expected, options);
  }

  /* ---------- The store ---------- */

  /** The journal file and the records appended to it. */
  datatype Disk = Disk(file: seq<Byte>, records: seq<Record>)

  /** The ceilings append checks. */
  predicate Accepts(d: Disk, payload: seq<Byte>, options: Options) {
    |payload| <= options.maxRecordBytes && |d.file| + |payload| + RECORD_HEADER <= options.maxJournalBytes
  }

  function NextRecord(d: Disk, kind: nat, payload: seq<Byte>, at: U64): Record {
    Record(kind, Next(LastSequence(d.records, 0)), at, payload)
  }

  function Appended(d: Disk, kind: nat, payload: seq<Byte>, at: U64): Disk {
    var r := NextRecord(d, kind, payload, at);
    Disk(d.file + RecordBytes(r), d.records + [r])
  }

  ghost predicate DiskSound(d: Disk, options: Options) {
    Holds(d.file, d.records, options) && |d.file| <= options.maxJournalBytes
  }

  lemma AppendedSound(d: Disk, kind: nat, payload: seq<Byte>, at: U64, options: Options)
    requires DiskSound(d, options) && Accepts(d, payload, options) && kind <= MAX_KIND && options.maxRecordBytes < 0x1_0000_0000
    requires LastSequence(d.records, 0) < MAX_COUNTER - 1
    ensures DiskSound(Appended(d, kind, payload, at), options)
  {
    hide Holds;
    hide RecordBytes;
    RecordLength(NextRecord(d, kind, payload, at));
    AppendedHolds(d.file, d.records, NextRecord(d, kind, payload, at), options);
  }

  /** Writing at an offset leaves what lies beyond. */
  function Overwritten(disk: seq<Byte>, at: nat, data: seq<Byte>): seq<Byte>
    requires at <= |disk|
  {
    disk[..at] + data + if at + |data| <= |disk| then disk[at + |data|..] else []
  }

  /** How the operating system answers a write: done, or failed after the first n bytes. */
  datatype WriteAnswer = Written | Interrupted(n: nat)

  class PersistenceStore {
    const options: Options
    var disk: seq<Byte>
    var bytes: nat
    var lastSequence: U64
    var epoch: U64
    var created: U64
    ghost var records: seq<Record>

    /** Up to bytes the file is a journal; an interrupted append may have left more behind it. */
    ghost predicate Valid()
      reads this
    {
      && bytes <= |disk| && bytes <= options.maxJournalBytes && Holds(disk[..bytes], records, options)
      && lastSequence == LastSequence(records, 0)
    }

    ghost function State(): Disk
      requires Valid()
      reads this
    {
      Disk(disk[..bytes], records)
    }

    ghost function Leftover(): seq<Byte>
      requires Valid()
      reads this
    {
      disk[bytes..]
    }

    constructor (options: Options, disk: seq<Byte>, bytes: nat, lastSequence: U64, epoch: U64, created: U64, ghost records: seq<Record>)
      ensures this.options == options && this.disk == disk && this.bytes == bytes && this.lastSequence == lastSequence
      ensures this.epoch == epoch && this.created == created && this.records == records
    {
      this.options := options;
      this.disk := disk;
      this.bytes := bytes;
      this.lastSequence := lastSequence;
      this.epoch := epoch;
      this.created := created;
      this.records := records;
    }

    /** append: one write at the end of the journal. A refusal changes nothing; a write that fails
        leaves some of the record on disk, and the store as it was. */
    method Append(kind: nat, payload: seq<Byte>, at: U64, answer: WriteAnswer) returns (r: Option<U64>)
      requires Valid() && kind <= MAX_KIND && options.maxRecordBytes < 0x1_0000_0000 && lastSequence < MAX_COUNTER - 1
      modifies this`disk, this`bytes, this`lastSequence, this`records
      ensures Valid()
      ensures r.Some? <==> Accepts(old(State()), payload, options) && answer == Written
      ensures r.Some? ==> State() == Appended(old(State()), kind, payload, at) && r.value == lastSequence == old(lastSequence) + 1
      ensures r.None? ==> State() == old(State())
      ensures r.Some? && old(Leftover()) == [] ==> Leftover() == []
      ensures !Accepts(old(State()), payload, options) ==> disk == old(disk)
      ensures Accepts(old(State()), payload, options) && answer.Interrupted? ==>
                var record := RecordBytes(NextRecord(old(State()), kind, payload, at));
                disk == Overwritten(old(disk), bytes, record[..if answer.n <= |record| then answer.n else |record|])
      ensures r.Some? ==> disk == Overwritten(old(disk), old(bytes), RecordBytes(NextRecord(old(State()), kind, payload, at)))
    {
      hide Holds;
      hide RecordBytes;
      if |payload| > options.maxRecordBytes {
        return None;
      }
      if bytes + |payload| + RECORD_HEADER > options.maxJournalBytes {
        return None;
      }
      var sequence := lastSequence + 1;
      var record := Record(kind, sequence, at, payload);
      RecordLength(record);
      if answer.Interrupted? {
        var n := if answer.n <= |RecordBytes(record)| then answer.n else |RecordBytes(record)|;
        OverwrittenFront(disk, bytes, RecordBytes(record)[..n]);
        disk := Overwritten(disk, bytes, RecordBytes(record)[..n]);
        return None;
      }
      AppendedHolds(disk[..bytes], records, record, options);
      OverwrittenFront(disk, bytes, RecordBytes(record));
      disk := Overwritten(disk, bytes, RecordBytes(record));
      bytes := bytes + RECORD_HEADER + |payload|;
      lastSequence := sequence;
      records := records + [record];
      r := Some(sequence);
    }

    /** record_epoch: an epoch record, and then the header rewritten in place. When the second write
        is interrupted the record stands behind a header of which only the first bytes are new. */
    method RecordEpoch(epoch: U64, at: U64, answer: WriteAnswer, header: WriteAnswer) returns (r: Option<U64>)
      requires Valid() && options.maxRecordBytes < 0x1_0000_0000 && lastSequence < MAX_COUNTER - 1
      modifies this
      ensures r.Some? <==> Accepts(old(State()), PutLe(W8, epoch), options) && answer.Written? && header.Written?
      ensures r.Some? ==> Valid() && State() == WithHeader(Appended(old(State()), 1, PutLe(W8, epoch), at), FileHeader(epoch, created))
      ensures this.epoch == (if r.Some? then epoch else old(this.epoch)) && created == old(created)
      ensures !(Accepts(old(State()), PutLe(W8, epoch), options) && answer.Written?) ==> Valid() && State() == old(State())
      ensures Accepts(old(State()), PutLe(W8, epoch), options) && answer.Written? && header.Interrupted? ==>
                && bytes == old(bytes) + RECORD_HEADER + 8 && lastSequence == old(lastSequence) + 1
                && var record := RecordBytes(NextRecord(old(State()), 1, PutLe(W8, epoch), at));
                   disk == Overwritten(Overwritten(old(disk), old(bytes), record), 0,
                                       FileHeader(epoch, created)[..if header.n <= HEADER_BYTES then header.n else HEADER_BYTES])
    {
      hide JournalBytes;
      hide FileHeader;
      hide ValidHeader;
      hide AllStorable;
      hide Increasing;
      hide RecordBytes;
      r := Append(1, PutLe(W8, epoch), at, answer);
      if r.Some? {
        HeaderIsValid(epoch, created);
        RecordLength(NextRecord(old(State()), 1, PutLe(W8, epoch), at));
        if header.Interrupted? {
          var n := if header.n <= HEADER_BYTES then header.n else HEADER_BYTES;
          disk := Overwritten(disk, 0, FileHeader(epoch, created)[..n]);
          return None;
        }
        HeaderReplaced(disk, bytes, FileHeader(epoch, created));
        HeadAndBody(FileHeader(epoch, created), disk[..bytes][HEADER_BYTES..]);
        disk := FileHeader(epoch, created) + disk[HEADER_BYTES..];
        this.epoch := epoch;
      }
    }

    /** load: the file is trusted exactly when what is left behind the journal is harmless, and
        then the journal's records come first. */
    method Load() returns (scan: Scan)
      requires Valid()
      ensures |disk| > options.maxJournalBytes ==> scan.outcome == BoundsExceeded
      ensures |disk| <= options.maxJournalBytes && |records| <= options.maxRecords ==>
                var tail := TailRecords(Leftover(), LastSequence(records, 0) + 1, options.maxRecords - |records|, options);
                && (Trustworthy(scan.outcome) <==> tail.Some?)
                && (tail.Some? ==> scan.records == records + tail.value)
    {
      hide Holds;
      hide ScanJournal;
      hide TailRecords;
      if |disk| > options.maxJournalBytes {
        return Scan(BoundsExceeded, [], 0, 0, 0);
      }
      scan := ScanFile(disk, options);
      if |records| <= options.maxRecords {
        assert disk[..bytes] + disk[bytes..] == disk;
        LeftoverVerdict(disk[..bytes], records, disk[bytes..], options);
      }
    }
  }

  /** The header of the file is replaced. */
  function WithHeader(d: Disk, h: seq<Byte>): Disk
    requires |d.file| >= HEADER_BYTES
  {
    d.(file := h + d.file[HEADER_BYTES..])
  }

  lemma WithHeaderSound(d: Disk, h: seq<Byte>, options: Options)
    requires DiskSound(d, options) && IsHeader(h)
    ensures DiskSound(WithHeader(d, h), options)
  {
    hide JournalBytes;
    hide ValidHeader;
    hide AllStorable;
    hide Increasing;
    HeadAndBody(h, d.file[HEADER_BYTES..]);
  }

  lemma HeaderReplaced(disk: seq<Byte>, bytes: nat, h: seq<Byte>)
    requires |h| == HEADER_BYTES <= bytes <= |disk|
    ensures var d := h + disk[HEADER_BYTES..];
            |d| == |disk| && d[..bytes] == h + disk[..bytes][HEADER_BYTES..] && d[bytes..] == disk[bytes..]
  {
  }

  lemma OverwrittenFront(disk: seq<Byte>, at: nat, data: seq<Byte>)
    requires at <= |disk|
    ensures var d := Overwritten(disk, at, data);
            && at + |data| <= |d| && d[..at] == disk[..at] && d[..at + |data|] == disk[..at] + data
            && d[at + |data|..] == if at + |data| <= |disk| then disk[at + |data|..] else []
  {
  }

  /** An append is interrupted after its whole record; the next one is shorter and succeeds. What
      the first one wrote sticks out behind the second, and here it is a hundred zero bytes: the
      next load refuses the journal, with everything that was ever appended to it. */
  lemma InterruptedThenShorter(d: Disk, at: U64, zeros: seq<Byte>, options: Options)
    requires DiskSound(d, options) && |zeros| == 100 && (forall k :: 0 <= k < 100 ==> zeros[k] == 0)
    requires Accepts(d, zeros, options) && options.maxRecordBytes < 0x1_0000_0000
    requires LastSequence(d.records, 0) < MAX_COUNTER - 1 && |d.records| < options.maxRecords
    ensures Accepts(d, [], options)
    ensures var dirty := Overwritten(d.file, |d.file|, RecordBytes(NextRecord(d, 8, zeros, at)));
            var after := Overwritten(dirty, |d.file|, RecordBytes(NextRecord(d, 8, [], at)));
            !Trustworthy(ScanJournal(after, options).outcome)
  {
    hide ScanJournal;
    hide Holds;
    hide RecordBytes;
    hide TailRecords;
    var long, short := NextRecord(d, 8, zeros, at), NextRecord(d, 8, [], at);
    RecordLength(long);
    RecordLength(short);
    PayloadLast(long);
    var dirty := Overwritten(d.file, |d.file|, RecordBytes(long));
    assert dirty == d.file + RecordBytes(long);
    var after := Overwritten(dirty, |d.file|, RecordBytes(short));
    assert after == d.file + RecordBytes(short) + zeros;
    AppendedSound(d, 8, [], at, options);
    ZeroMagic(zeros);
    var records := d.records + [short];
    ForeignLeftover(zeros, LastSequence(records, 0) + 1, options.maxRecords - |records|, options);
    LeftoverVerdict(d.file + RecordBytes(short), records, zeros, options);
  }

  lemma PayloadLast(r: Record)
    ensures |RecordBytes(r)| == RECORD_HEADER + |r.payload| && RecordBytes(r)[RECORD_HEADER..] == r.payload
  {
    hide RecordHeader;
    HeaderBytes(r);
  }

  lemma HeaderBytes(r: Record)
    ensures |RecordHeader(r)| == RECORD_HEADER
  {
  }

  lemma ZeroMagic(zeros: seq<Byte>)
    requires |zeros| >= 4 && forall k :: 0 <= k < |zeros| ==> zeros[k] == 0
    ensures Field(zeros, 0, W4) != RECORD_MAGIC
  {
    var z := zeros[0..4];
    assert z == PutLe(W4, 0);
    Pow256Values();
    PutGetExact(W4, 0);
  }

  /** The runtime epoch and the time of creation that a header carries. */
  function EpochField(h: seq<Byte>): U64
    requires |h| == HEADER_BYTES
  {
    WordBound(h, 16);
    Field(h, 16, W8)
  }

  function CreatedField(h: seq<Byte>): U64
    requires |h| == HEADER_BYTES
  {
    WordBound(h, 24);
    Field(h, 24, W8)
  }

  /** What record_epoch writes is what the next open restores. */
  lemma HeaderRestored(epoch: U64, created: U64)
    ensures EpochField(FileHeader(epoch, created)) == epoch && CreatedField(FileHeader(epoch, created)) == created
  {
    hide PutLe;
    hide Checksum;
    Pow256Values();
    var front := MAGIC + PutLe(W2, SCHEMA) + PutLe(W2, 0) + PutLe(W4, 0);
    var body := front + PutLe(W8, epoch) + PutLe(W8, created);
    var rest := PutLe(W4, Checksum(body)) + PutLe(W4, 0) + PutLe(W4, 0) + PutLe(W4, 0);
    var h := FileHeader(epoch, created);
    assert h == front + PutLe(W8, epoch) + (PutLe(W8, created) + rest);
    PutAt(front, W8, epoch, PutLe(W8, created) + rest);
    assert h == (front + PutLe(W8, epoch)) + PutLe(W8, created) + rest;
    PutAt(front + PutLe(W8, epoch), W8, created, rest);
  }

  /** PersistenceStore::open. A new file gets a header. Of an existing one, a torn tail is cut
      off, and anything else that does not scan is refused. */
  method OpenStore(file: seq<Byte>, options: Options, now: U64) returns (r: Option<PersistenceStore>)
    requires HEADER_BYTES <= options.maxJournalBytes
    ensures r.Some? ==> fresh(r.value) && r.value.options == options
    ensures file == [] ==> r.Some? && r.value.Valid() && r.value.records == [] && r.value.Leftover() == []
    ensures file != [] ==> (r.None? <==> |file| > options.maxJournalBytes || !Trustworthy(ScanJournal(file, options).outcome))
    ensures forall h, rs :: CutOf(file, h, rs, options) && |file| <= options.maxJournalBytes ==>
              && r.Some? && r.value.Valid() && r.value.Leftover() == []
              && r.value.records == rs[..WithinCut(rs, |file| - HEADER_BYTES)]
              && r.value.disk[..HEADER_BYTES] == h
              && r.value.epoch == EpochField(h) && r.value.created == CreatedField(h)
  {
    hide ScanJournal;
    hide EpochField;
    hide CreatedField;
    hide Holds;
    hide WithinCut;
    hide JournalBytes;
    hide FileHeader;
    if file == [] {
      NewJournalHolds(options, now);
      var header := FileHeader(0, now);
      HeaderLength(0, now);
      var store := new PersistenceStore(options, header, HEADER_BYTES, 0, 0, 0, []);
      assert header[..HEADER_BYTES] == header && header[HEADER_BYTES..] == [];
      return Some(store);
    }
    if |file| > options.maxJournalBytes {
      return None;
    }
    var scan := ScanFile(file, options);
    if !Trustworthy(scan.outcome) {
      CutsTrusted(file, options);
      return None;
    }
    CutsTrusted(file, options);
    var valid := if scan.repairedBytes <= |file| then |file| - scan.repairedBytes else 0;
    var disk := if scan.outcome == TornTail then file[..valid] else file;
    var known := |file| >= HEADER_BYTES;
    var store := new PersistenceStore(options, disk, valid, scan.lastSequence,
                                      if known then EpochField(file[..HEADER_BYTES]) else 0,
                                      if known then CreatedField(file[..HEADER_BYTES]) else 0, scan.records);
    forall h, rs | CutOf(file, h, rs, options)
      ensures store.Valid() && store.records == rs[..WithinCut(rs, |file| - HEADER_BYTES)] && store.Leftover() == []
      ensures |store.disk| >= HEADER_BYTES && store.disk[..HEADER_BYTES] == h
      ensures |h| == HEADER_BYTES && store.epoch == EpochField(h) && store.created == CreatedField(h)
    {
      TruncatedHolds(file, h, rs, options);
      assert file[..|file|] == file;
      assert disk == file[..valid] && disk[..valid] == disk && disk[valid..] == [];
      assert file[..valid][..HEADER_BYTES] == file[..HEADER_BYTES];
    }
    r := Some(store);
  }

  lemma HeaderLength(epoch: U64, created: U64)
    ensures |FileHeader(epoch, created)| == HEADER_BYTES
  {
  }

  lemma NewJournalHolds(options: Options, now: U64)
    ensures Holds(FileHeader(0, now), [], options)
  {
    hide ValidHeader;
    hide FileHeader;
    HeaderIsValid(0, now);
    var h := FileHeader(0, now);
    assert h[..HEADER_BYTES] == h && h[HEADER_BYTES..] == [];
  }

  lemma CutsTrusted(file: seq<Byte>, options: Options)
    ensures forall h, rs :: CutOf(file, h, rs, options) ==> Trustworthy(ScanJournal(file, options).outcome) && |file| >= HEADER_BYTES
  {
    hide ScanJournal;
    forall h, rs | CutOf(file, h, rs, options)
      ensures Trustworthy(ScanJournal(file, options).outcome)
    {
      TruncatedHolds(file, h, rs, options);
    }
  }
}
