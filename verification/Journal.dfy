/** The append-only journal: its bytes, its scan, and recovery of a torn tail
    (src/core/persistence.cpp:965-1107, 1181-1319, 1433-1467). */
module Journal {
  import opened StrongId
  import opened Bytes
  import opened Wrappers
  import opened Crc32c

  const HEADER_BYTES: nat := 48
  const RECORD_HEADER: nat := 40
  const CHECKED: nat := 32
  const RECORD_MAGIC: nat := 0x4352_4652
  const SCHEMA: nat := 1
  const MAX_KIND: nat := 21

  const W2: nat := 2
  const W4: nat := 4
  const W8: nat := 8

  datatype Record = Record(kind: nat, sequence: U64, at: U64, payload: seq<Byte>)

  datatype Options = Options(maxRecordBytes: nat, maxRecords: nat, maxJournalBytes: nat)

  datatype Outcome = Ok | Empty | TornTail | Corrupt | SchemaMismatch | BoundsExceeded

  datatype Scan = Scan(outcome: Outcome, records: seq<Record>, lastSequence: U64, validBytes: nat, repairedBytes: nat)

  /** DurableState::trustworthy. */
  predicate Trustworthy(o: Outcome) {
    o == Ok || o == Empty || o == TornTail
  }

  /* ---------- Bytes of a record ---------- */

  /** get_u16, get_u32 and get_u64 at an offset. */
  function Field(s: seq<Byte>, at: nat, width: nat): nat
    requires at + width <= |s|
  {
    GetLe(s[at..at + width])
  }

  /** The 32 bytes of a record header that its checksum covers. */
  function Checked(r: Record): (s: seq<Byte>)
    ensures |s| == CHECKED
  {
    PutLe(W4, RECORD_MAGIC) + PutLe(W2, SCHEMA) + PutLe(W2, r.kind) + PutLe(W8, r.sequence) + PutLe(W8, r.at)
    + PutLe(W4, |r.payload|) + PutLe(W4, Checksum(r.payload))
  }

  function RecordHeader(r: Record): (s: seq<Byte>)
    ensures |s| == RECORD_HEADER && s[..CHECKED] == Checked(r)
  {
    Checked(r) + (PutLe(W4, Checksum(Checked(r))) + PutLe(W4, 0))
  }

  function RecordBytes(r: Record): (s: seq<Byte>)
    ensures |s| == RECORD_HEADER + |r.payload|
  {
    RecordHeader(r) + r.payload
  }

  function JournalBytes(rs: seq<Record>): seq<Byte> {
    if rs == [] then [] else RecordBytes(rs[0]) + JournalBytes(rs[1..])
  }

  const MAGIC: seq<Byte> := [67, 82, 70, 74, 82, 78, 76, 49]

  /** journal_header_bytes. */
  function FileHeader(epoch: U64, created: U64): (s: seq<Byte>)
    ensures |s| == HEADER_BYTES
  {
    var body := MAGIC + PutLe(W2, SCHEMA) + PutLe(W2, 0) + PutLe(W4, 0) + PutLe(W8, epoch) + PutLe(W8, created);
    body + PutLe(W4, Checksum(body)) + PutLe(W4, 0) + PutLe(W4, 0) + PutLe(W4, 0)
  }

  /** valid_journal_header. */
  predicate ValidHeader(s: seq<Byte>) {
    && |s| >= HEADER_BYTES
    && s[..8] == MAGIC
    && Field(s, 8, W2) == SCHEMA
    && Field(s, 32, W4) == Checksum(s[..32])
  }

  /* ---------- Reading one record ---------- */

  datatype Step = Torn | Bad(outcome: Outcome) | Good(record: Record)

  /** One turn of the scan loop, on what is left of the file. */
  function ReadRecord(s: seq<Byte>, expected: nat, options: Options): Step
  {
    if |s| < RECORD_HEADER then Torn
    else if Field(s, 0, W4) != RECORD_MAGIC then Bad(Corrupt)
    else if Field(s, 4, W2) != SCHEMA then Bad(SchemaMismatch)
    else if Field(s, 32, W4) != Checksum(s[..CHECKED]) then Bad(Corrupt)
    else
      var length := Field(s, 24, W4);
      if length > options.maxRecordBytes then Bad(BoundsExceeded)
      else if length > |s| - RECORD_HEADER then Torn
      else
        var payload := s[RECORD_HEADER..RECORD_HEADER + length];
        if Field(s, 28, W4) != Checksum(payload) then Bad(Corrupt)
        else if Field(s, 6, W2) > MAX_KIND then Bad(Corrupt)
        else if Field(s, 8, W8) < expected then Bad(Corrupt)
        else
          WordBound(s, 8);
          WordBound(s, 16);
          Good(Record(Field(s, 6, W2), Field(s, 8, W8), Field(s, 16, W8), payload))
  }

  lemma WordBound(s: seq<Byte>, at: nat)
    requires at + W8 <= |s|
    ensures Field(s, at, W8) < 0x1_0000_0000_0000_0000
  {
    GetLeBound(s[at..at + W8]);
    Pow256Values();
  }

  function NextExpected(sequence: U64): nat {
    (sequence + 1) % 0x1_0000_0000_0000_0000
  }

  /** The scan loop from a cursor on. */
  function ScanFrom(s: seq<Byte>, cursor: nat, expected: nat, last: U64, found: seq<Record>, options: Options): Scan
    requires cursor <= |s|
    decreases |s| - cursor
  {
    if cursor == |s| then Scan(if found == [] then Empty else Ok, found, last, cursor, 0)
    else
      match ReadRecord(s[cursor..], expected, options)
      case Torn => Scan(TornTail, found, last, cursor, |s| - cursor)
      case Bad(outcome) => Scan(outcome, found, last, cursor, 0)
      case Good(r) =>
        var next := cursor + RECORD_HEADER + |r.payload|;
        if |found| + 1 > options.maxRecords then Scan(BoundsExceeded, found + [r], r.sequence, 0, 0)
        else ScanFrom(s, next, NextExpected(r.sequence), r.sequence, found + [r], options)
  }

  /** scan_journal. */
  function ScanJournal(s: seq<Byte>, options: Options): Scan {
    if |s| < HEADER_BYTES then Scan(Empty, [], 0, 0, 0)
    else if !ValidHeader(s[..HEADER_BYTES]) then Scan(Corrupt, [], 0, 0, 0)
    else ScanFrom(s, HEADER_BYTES, 1, 0, [], options)
  }

  /* ---------- What was written reads back ---------- */

  lemma PutAt(a: seq<Byte>, width: nat, v: nat, b: seq<Byte>)
    requires v < Pow256(width)
    ensures Field(a + PutLe(width, v) + b, |a|, width) == v
  {
    var s := a + PutLe(width, v) + b;
    assert s[|a|..|a| + width] == PutLe(width, v);
    PutGetExact(width, v);
  }

  predicate Storable(r: Record, options: Options) {
    r.kind <= MAX_KIND && |r.payload| <= options.maxRecordBytes < 0x1_0000_0000
  }

  /** The checked header fields, wherever the 32 bytes stand. */
  lemma CheckedFields(r: Record, tail: seq<Byte>)
    requires r.kind <= MAX_KIND && |r.payload| < 0x1_0000_0000
    ensures var s := Checked(r) + tail;
            && Field(s, 0, W4) == RECORD_MAGIC && Field(s, 4, W2) == SCHEMA && Field(s, 6, W2) == r.kind
            && Field(s, 8, W8) == r.sequence && Field(s, 16, W8) == r.at && Field(s, 24, W4) == |r.payload|
            && Field(s, 28, W4) == Checksum(r.payload)
  {
    hide PutLe;
    hide Checksum;
    hide Field;
    Pow256Values();
    ChecksumBound(r.payload);
    var a, b, c, d, e, f, g := PutLe(W4, RECORD_MAGIC), PutLe(W2, SCHEMA), PutLe(W2, r.kind), PutLe(W8, r.sequence),
      PutLe(W8, r.at), PutLe(W4, |r.payload|), PutLe(W4, Checksum(r.payload));
    var s := Checked(r) + tail;
    assert s == [] + a + (b + c + d + e + f + g + tail);
    PutAt([], W4, RECORD_MAGIC, b + c + d + e + f + g + tail);
    assert s == a + b + (c + d + e + f + g + tail);
    PutAt(a, W2, SCHEMA, c + d + e + f + g + tail);
    assert s == (a + b) + c + (d + e + f + g + tail);
    PutAt(a + b, W2, r.kind, d + e + f + g + tail);
    assert s == (a + b + c) + d + (e + f + g + tail);
    PutAt(a + b + c, W8, r.sequence, e + f + g + tail);
    assert s == (a + b + c + d) + e + (f + g + tail);
    PutAt(a + b + c + d, W8, r.at, f + g + tail);
    assert s == (a + b + c + d + e) + f + (g + tail);
    PutAt(a + b + c + d + e, W4, |r.payload|, g + tail);
    assert s == (a + b + c + d + e + f) + g + tail;
    PutAt(a + b + c + d + e + f, W4, Checksum(r.payload), tail);
  }

  /** The header of a stored record passes every check that does not need the payload. */
  lemma HeaderReads(r: Record, tail: seq<Byte>)
    requires r.kind <= MAX_KIND && |r.payload| < 0x1_0000_0000
    ensures var s := RecordHeader(r) + tail;
            && |s| >= RECORD_HEADER && s[..CHECKED] == Checked(r)
            && Field(s, 32, W4) == Checksum(s[..CHECKED])
            && Field(s, 0, W4) == RECORD_MAGIC && Field(s, 4, W2) == SCHEMA && Field(s, 6, W2) == r.kind
            && Field(s, 8, W8) == r.sequence && Field(s, 16, W8) == r.at && Field(s, 24, W4) == |r.payload|
            && Field(s, 28, W4) == Checksum(r.payload)
  {
    hide PutLe;
    hide Checksum;
    hide Field;
    hide Checked;
    var s := RecordHeader(r) + tail;
    var crc, zero := PutLe(W4, Checksum(Checked(r))), PutLe(W4, 0);
    assert s == Checked(r) + (crc + zero + tail);
    CheckedFields(r, crc + zero + tail);
    Pow256Values();
    ChecksumBound(Checked(r));
    assert s == Checked(r) + crc + (zero + tail);
    PutAt(Checked(r), W4, Checksum(Checked(r)), zero + tail);
    assert s[..CHECKED] == Checked(r);
  }

  lemma RecordReads(r: Record, tail: seq<Byte>, expected: nat, options: Options)
    requires Storable(r, options) && expected <= r.sequence
    ensures ReadRecord(RecordBytes(r) + tail, expected, options) == Good(r)
  {
    hide Field;
    hide Checksum;
    hide RecordHeader;
    hide RecordBytes;
    var s := RecordBytes(r) + tail;
    Reassociated(r, tail);
    HeaderReads(r, r.payload + tail);
    assert |s| >= RECORD_HEADER + |r.payload| && s[RECORD_HEADER..RECORD_HEADER + |r.payload|] == r.payload;
  }

  lemma Reassociated(r: Record, tail: seq<Byte>)
    ensures RecordBytes(r) + tail == RecordHeader(r) + (r.payload + tail)
  {
    hide RecordHeader;
  }

  /** A strict prefix of a stored record reads as torn, never as corrupt. */
  lemma TornReads(r: Record, n: nat, expected: nat, options: Options)
    requires Storable(r, options) && n < |RecordBytes(r)|
    ensures ReadRecord(RecordBytes(r)[..n], expected, options) == Torn
  {
    hide Field;
    hide Checksum;
    hide RecordHeader;
    if n >= RECORD_HEADER {
      var s := RecordBytes(r)[..n];
      assert s == RecordHeader(r) + r.payload[..n - RECORD_HEADER];
      HeaderReads(r, r.payload[..n - RECORD_HEADER]);
    }
  }

  /* ---------- Torn tails ---------- */

  /** Sequences grow, start at or after the expected one, and stay below the 64-bit maximum. */
  predicate Increasing(rs: seq<Record>, expected: nat) {
    rs == [] || (expected <= rs[0].sequence < MAX_COUNTER && Increasing(rs[1..], rs[0].sequence + 1))
  }

  predicate AllStorable(rs: seq<Record>, options: Options) {
    forall k :: 0 <= k < |rs| ==> Storable(rs[k], options)
  }

  /** How many of the records lie wholly within the first c bytes. */
  function WithinCut(rs: seq<Record>, c: nat): (k: nat)
    ensures k <= |rs|
  {
    if rs == [] || |RecordBytes(rs[0])| > c then 0 else 1 + WithinCut(rs[1..], c - |RecordBytes(rs[0])|)
  }

  function LastSequence(rs: seq<Record>, last: U64): U64 {
    if rs == [] then last else rs[|rs| - 1].sequence
  }

  /** WithinCut counts exactly the records that end at or before the cut. */
  lemma {:induction false} WithinCutExact(rs: seq<Record>, c: nat)
    requires c <= |JournalBytes(rs)|
    ensures var k := WithinCut(rs, c);
            && |JournalBytes(rs[..k])| <= c
            && (k < |rs| ==> c < |JournalBytes(rs[..k + 1])|)
  {
    hide RecordBytes;
    if rs != [] {
      var first := RecordBytes(rs[0]);
      if |first| <= c {
        WithinCutExact(rs[1..], c - |first|);
        var k := WithinCut(rs[1..], c - |first|);
        assert rs[..k + 1][1..] == rs[1..][..k];
        if k < |rs[1..]| {
          assert rs[..k + 2][1..] == rs[1..][..k + 1];
        }
      } else {
        assert rs[..1][1..] == [];
      }
    }
  }

  /** The scan result of a file that was cut. */
  function CutScan(rs: seq<Record>, c: nat, base: nat, last: U64, found: seq<Record>): Scan {
    var k := WithinCut(rs, c);
    var all := found + rs[..k];
    var whole := |JournalBytes(rs[..k])|;
    if whole == c then Scan(if all == [] then Empty else Ok, all, LastSequence(rs[..k], last), base + whole, 0)
    else Scan(TornTail, all, LastSequence(rs[..k], last), base + whole, if whole < c then c - whole else 0)
  }

  /** One intact record is one turn of the loop. */
  lemma ScanGood(s: seq<Byte>, cursor: nat, r: Record, rest: seq<Byte>, expected: nat, last: U64, found: seq<Record>, options: Options)
    requires cursor <= |s| && s[cursor..] == RecordBytes(r) + rest
    requires Storable(r, options) && expected <= r.sequence < MAX_COUNTER && |found| < options.maxRecords
    ensures cursor + |RecordBytes(r)| <= |s| && s[cursor + |RecordBytes(r)|..] == rest
    ensures ScanFrom(s, cursor, expected, last, found, options)
         == ScanFrom(s, cursor + |RecordBytes(r)|, r.sequence + 1, r.sequence, found + [r], options)
  {
    hide ReadRecord;
    hide RecordBytes;
    RecordReads(r, rest, expected, options);
    DropFirst(s, cursor, RecordBytes(r), rest);
  }

  /** Scanning the records of a cut file gives exactly those that lie wholly before the cut, and
      never reports corruption. */
  lemma {:induction false} ScanCut(s: seq<Byte>, cursor: nat, rs: seq<Record>, c: nat, expected: nat, last: U64,
                                   found: seq<Record>, options: Options)
    requires cursor <= |s| && c <= |JournalBytes(rs)| && s[cursor..] == JournalBytes(rs)[..c]
    requires AllStorable(rs, options) && Increasing(rs, expected) && |found| + |rs| <= options.maxRecords
    ensures ScanFrom(s, cursor, expected, last, found, options) == CutScan(rs, c, cursor, last, found)
    decreases |rs|
  {
    hide ReadRecord;
    hide RecordBytes;
    hide AllStorable;
    if c == 0 {
      CutNothing(rs, cursor, last, found);
    } else {
      var r := rs[0];
      var first := RecordBytes(r);
      FirstRecord(rs, []);
      StorableFirst(rs, options);
      if c < |first| {
        TakeShort(first, JournalBytes(rs[1..]), c);
        TornReads(r, c, expected, options);
        CutTorn(rs, c, cursor, last, found);
      } else {
        var rest := rs[1..];
        var more := JournalBytes(rest)[..c - |first|];
        TakeLong(first, JournalBytes(rest), c);
        ScanGood(s, cursor, r, more, expected, last, found, options);
        ScanCut(s, cursor + |first|, rest, c - |first|, r.sequence + 1, r.sequence, found + [r], options);
        CutStep(rs, c, cursor, last, found);
      }
    }
  }

  lemma TakeShort(a: seq<Byte>, b: seq<Byte>, c: nat)
    requires c <= |a|
    ensures (a + b)[..c] == a[..c]
  {
  }

  lemma TakeLong(a: seq<Byte>, b: seq<Byte>, c: nat)
    requires |a| <= c <= |a| + |b|
    ensures (a + b)[..c] == a + b[..c - |a|]
  {
  }

  lemma DropFirst(s: seq<Byte>, cursor: nat, a: seq<Byte>, b: seq<Byte>)
    requires cursor <= |s| && s[cursor..] == a + b
    ensures cursor + |a| <= |s| && s[cursor + |a|..] == b
  {
    assert s[cursor + |a|..] == s[cursor..][|a|..];
  }

  lemma CutTorn(rs: seq<Record>, c: nat, base: nat, last: U64, found: seq<Record>)
    requires rs != [] && 0 < c < |RecordBytes(rs[0])|
    ensures CutScan(rs, c, base, last, found) == Scan(TornTail, found, last, base, c)
  {
    hide RecordBytes;
    assert rs[..0] == [] && found + [] == found;
  }

  lemma StorableFirst(rs: seq<Record>, options: Options)
    requires AllStorable(rs, options) && rs != []
    ensures Storable(rs[0], options) && AllStorable(rs[1..], options)
  {
  }

  lemma CutNothing(rs: seq<Record>, base: nat, last: U64, found: seq<Record>)
    ensures CutScan(rs, 0, base, last, found) == Scan(if found == [] then Empty else Ok, found, last, base, 0)
  {
    assert rs[..0] == [] && found + [] == found;
  }

  lemma CutStep(rs: seq<Record>, c: nat, base: nat, last: U64, found: seq<Record>)
    requires rs != [] && |RecordBytes(rs[0])| <= c
    ensures CutScan(rs, c, base, last, found)
         == CutScan(rs[1..], c - |RecordBytes(rs[0])|, base + |RecordBytes(rs[0])|, rs[0].sequence, found + [rs[0]])
  {
    hide RecordBytes;
    var rest := rs[1..];
    var k := WithinCut(rest, c - |RecordBytes(rs[0])|);
    assert rs[..k + 1] == [rs[0]] + rest[..k];
    assert found + rs[..k + 1] == (found + [rs[0]]) + rest[..k];
    assert rs[..k + 1][1..] == rest[..k];
    assert k > 0 ==> rs[..k + 1][k] == rest[..k][k - 1];
  }

  /* ---------- Whole files ---------- */

  ghost predicate IsHeader(h: seq<Byte>) {
    |h| == HEADER_BYTES && ValidHeader(h)
  }

  lemma HeaderIsValid(epoch: U64, created: U64)
    ensures IsHeader(FileHeader(epoch, created))
  {
    hide PutLe;
    hide Checksum;
    var body := MAGIC + PutLe(W2, SCHEMA) + PutLe(W2, 0) + PutLe(W4, 0) + PutLe(W8, epoch) + PutLe(W8, created);
    var h := FileHeader(epoch, created);
    var zeros := PutLe(W4, 0) + PutLe(W4, 0) + PutLe(W4, 0);
    assert h == body + PutLe(W4, Checksum(body)) + zeros;
    assert h[..8] == MAGIC && h[..32] == body;
    Pow256Values();
    ChecksumBound(body);
    PutAt(body, W4, Checksum(body), zeros);
    var after := PutLe(W2, 0) + PutLe(W4, 0) + PutLe(W8, epoch) + PutLe(W8, created) + PutLe(W4, Checksum(body)) + zeros;
    assert h == MAGIC + PutLe(W2, SCHEMA) + after;
    PutAt(MAGIC, W2, SCHEMA, after);
  }

  /** Torn-tail recovery: whatever was appended, and wherever the file is cut at or after its
      header, the scan finds exactly the records that lie wholly before the cut. */
  lemma TornTailScan(h: seq<Byte>, rs: seq<Record>, cut: nat, options: Options)
    requires IsHeader(h) && AllStorable(rs, options) && Increasing(rs, 1) && |rs| <= options.maxRecords
    requires HEADER_BYTES <= cut <= HEADER_BYTES + |JournalBytes(rs)|
    ensures var scan := ScanJournal((h + JournalBytes(rs))[..cut], options);
            var k := WithinCut(rs, cut - HEADER_BYTES);
            && Trustworthy(scan.outcome) && scan.records == rs[..k]
            && scan.validBytes == HEADER_BYTES + |JournalBytes(rs[..k])| <= cut
            && (k < |rs| ==> cut < HEADER_BYTES + |JournalBytes(rs[..k + 1])|)
            && (scan.outcome == TornTail <==> scan.validBytes < cut)
            && scan.repairedBytes == cut - scan.validBytes
            && scan.lastSequence == LastSequence(rs[..k], 0)
  {
    hide ScanFrom;
    hide ValidHeader;
    hide WithinCut;
    hide JournalBytes;
    hide AllStorable;
    hide Increasing;
    hide LastSequence;
    var c := cut - HEADER_BYTES;
    var s := (h + JournalBytes(rs))[..cut];
    CutFile(h, JournalBytes(rs), cut);
    ScanCut(s, HEADER_BYTES, rs, c, 1, 0, [], options);
    WithinCutExact(rs, c);
    assert [] + rs[..WithinCut(rs, c)] == rs[..WithinCut(rs, c)];
  }

  lemma CutFile(h: seq<Byte>, body: seq<Byte>, cut: nat)
    requires |h| <= cut <= |h| + |body|
    ensures |(h + body)[..cut]| == cut
    ensures (h + body)[..cut][|h|..] == body[..cut - |h|] && (h + body)[..cut][..|h|] == h
  {
  }

  lemma {:induction false} JournalAppend(rs: seq<Record>, ts: seq<Record>)
    ensures JournalBytes(rs + ts) == JournalBytes(rs) + JournalBytes(ts)
  {
    hide RecordBytes;
    if rs == [] {
      assert rs + ts == ts;
    } else {
      JournalAppend(rs[1..], ts);
      FirstRecord(rs, ts);
      Regroup(RecordBytes(rs[0]), JournalBytes(rs[1..]), JournalBytes(ts));
    }
  }

  lemma FirstRecord(rs: seq<Record>, ts: seq<Record>)
    requires rs != []
    ensures JournalBytes(rs + ts) == RecordBytes(rs[0]) + JournalBytes(rs[1..] + ts)
    ensures JournalBytes(rs) == RecordBytes(rs[0]) + JournalBytes(rs[1..])
  {
    hide RecordBytes;
    assert (rs + ts)[1..] == rs[1..] + ts;
  }

  lemma Regroup(a: seq<Byte>, b: seq<Byte>, c: seq<Byte>)
    ensures (a + b) + c == a + (b + c)
  {
  }

  /** The bytes before the valid offset are those of the records found. */
  lemma CutBytes(h: seq<Byte>, rs: seq<Record>, k: nat)
    requires |h| == HEADER_BYTES && k <= |rs|
    ensures |JournalBytes(rs[..k])| <= |JournalBytes(rs)|
    ensures (h + JournalBytes(rs))[..HEADER_BYTES + |JournalBytes(rs[..k])|] == h + JournalBytes(rs[..k])
  {
    hide JournalBytes;
    assert rs == rs[..k] + rs[k..];
    JournalAppend(rs[..k], rs[k..]);
    PrefixOf(h, JournalBytes(rs[..k]), JournalBytes(rs[k..]));
  }

  lemma PrefixOf(a: seq<Byte>, b: seq<Byte>, c: seq<Byte>)
    ensures (a + (b + c))[..|a| + |b|] == a + b
  {
  }

  /* ---------- Damage ---------- */

  /** Intact records in front of anything are read first. */
  lemma {:induction false} ScanPast(s: seq<Byte>, cursor: nat, rs: seq<Record>, rest: seq<Byte>, expected: nat, last: U64,
                                    found: seq<Record>, options: Options)
    requires cursor <= |s| && s[cursor..] == JournalBytes(rs) + rest && rest != []
    requires AllStorable(rs, options) && Increasing(rs, expected) && |found| + |rs| <= options.maxRecords
    ensures cursor + |JournalBytes(rs)| <= |s| && s[cursor + |JournalBytes(rs)|..] == rest
    ensures ScanFrom(s, cursor, expected, last, found, options)
         == ScanFrom(s, cursor + |JournalBytes(rs)|, if rs == [] then expected else rs[|rs| - 1].sequence + 1,
                     LastSequence(rs, last), found + rs, options)
    decreases |rs|
  {
    hide ScanFrom;
    hide RecordBytes;
    hide JournalBytes;
    hide AllStorable;
    if rs == [] {
      NoBytes();
      assert found + rs == found && JournalBytes(rs) + rest == rest;
    } else {
      var r, more := rs[0], rs[1..];
      var first := RecordBytes(r);
      FirstRecord(rs, []);
      StorableFirst(rs, options);
      Regroup(first, JournalBytes(more), rest);
      ScanGood(s, cursor, r, JournalBytes(more) + rest, expected, last, found, options);
      ScanPast(s, cursor + |first|, more, rest, r.sequence + 1, r.sequence, found + [r], options);
      LastOfMore(rs, found, last);
    }
  }

  lemma NoBytes()
    ensures JournalBytes([]) == []
  {
  }

  lemma LastOfMore(rs: seq<Record>, found: seq<Record>, last: U64)
    requires rs != []
    ensures found + [rs[0]] + rs[1..] == found + rs
    ensures LastSequence(rs[1..], rs[0].sequence) == LastSequence(rs, last)
    ensures (if rs[1..] == [] then rs[0].sequence + 1 else rs[1..][|rs[1..]| - 1].sequence + 1) == rs[|rs| - 1].sequence + 1
  {
  }

  lemma Between(a: seq<Byte>, b: seq<Byte>, c: seq<Byte>)
    ensures a + b + c == a + (b + c) && (a + b + c)[|a|..|a| + |b|] == b
  {
  }

  /** Four consecutive payload bytes were changed. */
  lemma PayloadDamage(r: Record, a: seq<Byte>, w: seq<Byte>, v: seq<Byte>, b: seq<Byte>, tail: seq<Byte>, expected: nat, options: Options)
    requires Storable(r, options) && r.payload == a + w + b && |w| == |v| <= 4 && w != v
    ensures ReadRecord(RecordHeader(r) + (a + v + b) + tail, expected, options) == Bad(Corrupt)
  {
    hide Field;
    hide Checksum;
    hide RecordHeader;
    var payload := a + v + b;
    assert |payload| == |r.payload|;
    Between(RecordHeader(r), payload, tail);
    HeaderReads(r, payload + tail);
    BurstDetected(a, w, v, b);
  }

  /** Four consecutive bytes of the checked header were changed. */
  lemma HeaderDamage(r: Record, a: seq<Byte>, w: seq<Byte>, v: seq<Byte>, b: seq<Byte>, tail: seq<Byte>, expected: nat, options: Options)
    requires Checked(r) == a + w + b && |w| == |v| <= 4 && w != v
    ensures var damaged := (a + v + b) + RecordHeader(r)[CHECKED..] + tail;
            ReadRecord(damaged, expected, options) == Bad(Corrupt) || ReadRecord(damaged, expected, options) == Bad(SchemaMismatch)
  {
    hide Checksum;
    hide Checked;
    hide GetLe;
    var crc, zero := PutLe(W4, Checksum(Checked(r))), PutLe(W4, 0);
    var s := (a + v + b) + RecordHeader(r)[CHECKED..] + tail;
    assert RecordHeader(r)[CHECKED..] == crc + zero;
    assert |a + v + b| == CHECKED;
    assert s == (a + v + b) + crc + (zero + tail);
    assert s[..CHECKED] == a + v + b;
    Pow256Values();
    ChecksumBound(Checked(r));
    PutAt(a + v + b, W4, Checksum(Checked(r)), zero + tail);
    BurstDetected(a, w, v, b);
  }

  /** Any change confined to four consecutive bytes of a payload, or of the checked part of a
      header, makes the scan refuse the journal; it still finds the records before it. */
  lemma DamageRefused(h: seq<Byte>, before: seq<Record>, r: Record, a: seq<Byte>, w: seq<Byte>, v: seq<Byte>, b: seq<Byte>,
                      tail: seq<Byte>, options: Options)
    requires IsHeader(h) && AllStorable(before, options) && Increasing(before, 1) && |before| <= options.maxRecords
    requires Storable(r, options) && |w| == |v| <= 4 && w != v
    ensures r.payload == a + w + b ==>
              var scan := ScanJournal(h + JournalBytes(before) + (RecordHeader(r) + (a + v + b) + tail), options);
              !Trustworthy(scan.outcome) && scan.records == before
    ensures Checked(r) == a + w + b ==>
              var scan := ScanJournal(h + JournalBytes(before) + ((a + v + b) + RecordHeader(r)[CHECKED..] + tail), options);
              !Trustworthy(scan.outcome) && scan.records == before
  {
    hide Checked;
    hide ScanJournal;
    hide RecordHeader;
    hide JournalBytes;
    hide AllStorable;
    hide Increasing;
    hide ReadRecord;
    var expected := if before == [] then 1 else before[|before| - 1].sequence + 1;
    if r.payload == a + w + b {
      PayloadDamage(r, a, w, v, b, tail, expected, options);
      BadStops(h, before, RecordHeader(r) + (a + v + b) + tail, options);
    }
    if Checked(r) == a + w + b {
      HeaderDamage(r, a, w, v, b, tail, expected, options);
      BadStops(h, before, (a + v + b) + RecordHeader(r)[CHECKED..] + tail, options);
    }
  }

  lemma BadStops(h: seq<Byte>, before: seq<Record>, rest: seq<Byte>, options: Options)
    requires IsHeader(h) && AllStorable(before, options) && Increasing(before, 1) && |before| <= options.maxRecords && rest != []
    requires ReadRecord(rest, if before == [] then 1 else before[|before| - 1].sequence + 1, options).Bad?
    ensures var scan := ScanJournal(h + JournalBytes(before) + rest, options);
            && scan.records == before
            && scan.outcome == ReadRecord(rest, if before == [] then 1 else before[|before| - 1].sequence + 1, options).outcome
  {
    hide ReadRecord;
    hide ValidHeader;
    hide JournalBytes;
    hide AllStorable;
    hide Increasing;
    var s := h + JournalBytes(before) + rest;
    BehindFile(h, JournalBytes(before), rest);
    ScanPast(s, HEADER_BYTES, before, rest, 1, 0, [], options);
    assert [] + before == before;
  }

  lemma BehindFile(h: seq<Byte>, body: seq<Byte>, rest: seq<Byte>)
    ensures (h + body + rest)[..|h|] == h && (h + body + rest)[|h|..] == body + rest
  {
  }
}
