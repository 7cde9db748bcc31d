/** Streaming SHA-256 (src/core/digest.cpp) against the block fold of FIPS 180-4. */
module Sha256 {
  import opened Bytes

  /* ---------- Reference: FIPS 180-4 ---------- */

  /** The 64 constants of section 4.2.2. */
  function RoundConstants(): (k: seq<bv32>)
    ensures |k| == 64
  {
    [
     0x428a2f98, 0x71374491, 0xb5c0fbcf, 0xe9b5dba5, 0x3956c25b, 0x59f111f1, 0x923f82a4, 0xab1c5ed5,
     0xd807aa98, 0x12835b01, 0x243185be, 0x550c7dc3, 0x72be5d74, 0x80deb1fe, 0x9bdc06a7, 0xc19bf174,
     0xe49b69c1, 0xefbe4786, 0x0fc19dc6, 0x240ca1cc, 0x2de92c6f, 0x4a7484aa, 0x5cb0a9dc, 0x76f988da,
     0x983e5152, 0xa831c66d, 0xb00327c8, 0xbf597fc7, 0xc6e00bf3, 0xd5a79147, 0x06ca6351, 0x14292967,
     0x27b70a85, 0x2e1b2138, 0x4d2c6dfc, 0x53380d13, 0x650a7354, 0x766a0abb, 0x81c2c92e, 0x92722c85,
     0xa2bfe8a1, 0xa81a664b, 0xc24b8b70, 0xc76c51a3, 0xd192e819, 0xd6990624, 0xf40e3585, 0x106aa070,
     0x19a4c116, 0x1e376c08, 0x2748774c, 0x34b0bcb5, 0x391c0cb3, 0x4ed8aa4a, 0x5b9cca4f, 0x682e6ff3,
     0x748f82ee, 0x78a5636f, 0x84c87814, 0x8cc70208, 0x90befffa, 0xa4506ceb, 0xbef9a3f7, 0xc67178f2]
  }

  /** The initial hash value of section 5.3.3. */
  function InitialHash(): (h: seq<bv32>)
    ensures |h| == 8
  {
    [0x6a09e667, 0xbb67ae85, 0x3c6ef372, 0xa54ff53a, 0x510e527f, 0x9b05688c, 0x1f83d9ab, 0x5be0cd19]
  }

  /** The functions of section 4.1.2. */
  function Ch(x: bv32, y: bv32, z: bv32): bv32 { (x & y) ^ (!x & z) }
  function Maj(x: bv32, y: bv32, z: bv32): bv32 { (x & y) ^ (x & z) ^ (y & z) }
  function Parity(x: bv32, y: bv32, z: bv32): bv32 { x ^ y ^ z }
  function BigSigma0(x: bv32): bv32 { Parity(x.RotateRight(2), x.RotateRight(13), x.RotateRight(22)) }
  function BigSigma1(x: bv32): bv32 { Parity(x.RotateRight(6), x.RotateRight(11), x.RotateRight(25)) }
  function SmallSigma0(x: bv32): bv32 { Parity(x.RotateRight(7), x.RotateRight(18), x >> 3) }
  function SmallSigma1(x: bv32): bv32 { Parity(x.RotateRight(17), x.RotateRight(19), x >> 10) }

  /** A block read as 16 big-endian words. */
  function BlockWord(block: seq<Byte>, i: nat): bv32
    requires |block| == 64 && i < 16
  {
    ((block[4 * i] as bv32) << 24) | ((block[4 * i + 1] as bv32) << 16)
    | ((block[4 * i + 2] as bv32) << 8) | (block[4 * i + 3] as bv32)
  }

  /** The message schedule W_t of section 6.2.2. */
  function Schedule(block: seq<Byte>, t: nat): bv32
    requires |block| == 64
  {
    if t < 16 then BlockWord(block, t)
    else NextWord(Schedule(block, t - 16), Schedule(block, t - 15), Schedule(block, t - 7), Schedule(block, t - 2))
  }

  function NextWord(w16: bv32, w15: bv32, w7: bv32, w2: bv32): bv32 {
    SumWord(w16, SmallSigma0(w15), w7, SmallSigma1(w2))
  }

  function SumWord(w16: bv32, s0: bv32, w7: bv32, s1: bv32): bv32 {
    s1 + w7 + s0 + w16
  }

  datatype Working = Working(a: bv32, b: bv32, c: bv32, d: bv32, e: bv32, f: bv32, g: bv32, h: bv32)

  function Round(v: Working, k: bv32, w: bv32): Working {
    Mixed(v, k, w, BigSigma0(v.a), BigSigma1(v.e))
  }

  function Mixed(v: Working, k: bv32, w: bv32, s0: bv32, s1: bv32): Working {
    var t1 := v.h + s1 + Ch(v.e, v.f, v.g) + k + w;
    var t2 := s0 + Maj(v.a, v.b, v.c);
    Working(t1 + t2, v.a, v.b, v.c, v.d + t1, v.e, v.f, v.g)
  }

  /** The working variables after t rounds. */
  function Rounds(h: seq<bv32>, block: seq<Byte>, t: nat): Working
    requires |h| == 8 && |block| == 64 && t <= 64
  {
    if t == 0 then Working(h[0], h[1], h[2], h[3], h[4], h[5], h[6], h[7])
    else Round(Rounds(h, block, t - 1), RoundConstants()[t - 1], Schedule(block, t - 1))
  }

  function AddWorking(h: seq<bv32>, v: Working): (r: seq<bv32>)
    requires |h| == 8
    ensures |r| == 8
  {
    [h[0] + v.a, h[1] + v.b, h[2] + v.c, h[3] + v.d, h[4] + v.e, h[5] + v.f, h[6] + v.g, h[7] + v.h]
  }

  const ROUNDS: nat := 64

  /** One application of the compression function. */
  function CompressBlock(h: seq<bv32>, block: seq<Byte>): (r: seq<bv32>)
    requires |h| == 8 && |block| == 64
    ensures |r| == 8
  {
    AddWorking(h, Rounds(h, block, ROUNDS))
  }

  /** The compression function folded over the 64-byte blocks of m. */
  function Fold(h: seq<bv32>, m: seq<Byte>): (r: seq<bv32>)
    requires |h| == 8 && |m| % 64 == 0
    ensures |r| == 8
    decreases |m|
  {
    if m == [] then h else Fold(CompressBlock(h, m[..64]), m[64..])
  }

  /** Big-endian bytes of a 64-bit value. */
  function PutBe64(v: nat): (s: seq<Byte>)
    ensures |s| == 8
  {
    [(v / 0x100_0000_0000_0000) % 256, (v / 0x1_0000_0000_0000) % 256, (v / 0x100_0000_0000) % 256,
     (v / 0x1_0000_0000) % 256, (v / 0x100_0000) % 256, (v / 0x1_0000) % 256, (v / 0x100) % 256, v % 256]
  }

  /** Zero bytes of the padding of section 5.1.1: the least number that leaves room for
      exactly the 8 length bytes in the last block. */
  function ZeroCount(n: nat): (z: nat)
    ensures (n + 1 + z) % 64 == 56 && z < 64
  {
    (119 - n % 64) % 64
  }

  function ZeroBytes(n: nat): (s: seq<Byte>)
    ensures |s| == n
  {
    seq(n, _ => 0)
  }

  const WORD64: nat := 0x1_0000_0000_0000_0000

  function Padding(n: nat): seq<Byte> {
    [0x80] + ZeroBytes(ZeroCount(n)) + PutBe64((8 * n) % WORD64)
  }

  lemma PaddedLength(n: nat)
    ensures (n + |Padding(n)|) % 64 == 0
  {
    hide PutBe64;
    var z := ZeroCount(n);
    assert |Padding(n)| == 9 + z;
    assert n + 9 + z == (n + 1 + z) + 8;
  }

  function Padded(m: seq<Byte>): (p: seq<Byte>)
    ensures |p| % 64 == 0
  {
    PaddedLength(|m|);
    m + Padding(|m|)
  }

  function WordBytes(w: bv32): (s: seq<Byte>)
    ensures |s| == 4
  {
    [((w >> 24) & 0xFF) as Byte, ((w >> 16) & 0xFF) as Byte, ((w >> 8) & 0xFF) as Byte, (w & 0xFF) as Byte]
  }

  function Output(h: seq<bv32>): (s: seq<Byte>)
    ensures |s| == 4 * |h|
  {
    if h == [] then [] else WordBytes(h[0]) + Output(h[1..])
  }

  /** SHA-256 of a whole message. */
  function Digest(m: seq<Byte>): (d: seq<Byte>)
    ensures |d| == 32
  {
    Output(Fold(InitialHash(), Padded(m)))
  }

  lemma {:induction false} FoldAppend(h: seq<bv32>, a: seq<Byte>, b: seq<Byte>)
    requires |h| == 8 && |a| % 64 == 0 && |b| % 64 == 0
    ensures Fold(h, a + b) == Fold(Fold(h, a), b)
    decreases |a|
  {
    if a == [] {
      assert a + b == b;
    } else {
      assert (a + b)[..64] == a[..64] && (a + b)[64..] == a[64..] + b;
      FoldAppend(CompressBlock(h, a[..64]), a[64..], b);
    }
  }

  lemma FoldBlock(h: seq<bv32>, a: seq<Byte>, b: seq<Byte>)
    requires |h| == 8 && |a| % 64 == 0 && |b| == 64
    ensures Fold(h, a + b) == CompressBlock(Fold(h, a), b)
  {
    FoldAppend(h, a, b);
    assert b[..64] == b && b[64..] == [];
  }

  /* ---------- Implementation ---------- */

  /** rotr: the source's two shifts are the rotation of FIPS 180-4. */
  function Rotr(value: bv32, count: nat): bv32
    requires 0 < count < 32
  {
    (value >> count) | (value << (32 - count))
  }

  lemma RotrIsRotation(x: bv32)
    ensures Rotr(x, 2) == x.RotateRight(2) && Rotr(x, 6) == x.RotateRight(6)
    ensures Rotr(x, 7) == x.RotateRight(7) && Rotr(x, 11) == x.RotateRight(11)
    ensures Rotr(x, 13) == x.RotateRight(13) && Rotr(x, 17) == x.RotateRight(17)
    ensures Rotr(x, 18) == x.RotateRight(18) && Rotr(x, 19) == x.RotateRight(19)
    ensures Rotr(x, 22) == x.RotateRight(22) && Rotr(x, 25) == x.RotateRight(25)
  {
  }

  /** The sigmas as compress computes them, out of two shifts each. */
  method SmallSigmas(x: bv32, y: bv32) returns (s0: bv32, s1: bv32)
    ensures s0 == SmallSigma0(x) && s1 == SmallSigma1(y)
  {
    hide Rotr;
    hide Parity;
    RotrIsRotation(x);
    RotrIsRotation(y);
    s0 := Parity(Rotr(x, 7), Rotr(x, 18), x >> 3);
    s1 := Parity(Rotr(y, 17), Rotr(y, 19), y >> 10);
  }

  method BigSigmas(x: bv32, y: bv32) returns (s0: bv32, s1: bv32)
    ensures s0 == BigSigma0(x) && s1 == BigSigma1(y)
  {
    hide Rotr;
    hide Parity;
    RotrIsRotation(x);
    RotrIsRotation(y);
    s0 := Parity(Rotr(x, 2), Rotr(x, 13), Rotr(x, 22));
    s1 := Parity(Rotr(y, 6), Rotr(y, 11), Rotr(y, 25));
  }

  /** One word of the schedule. */
  method ExtendSchedule(w16: bv32, w15: bv32, w7: bv32, w2: bv32) returns (w: bv32)
    ensures w == NextWord(w16, w15, w7, w2)
  {
    hide SmallSigma0;
    hide SmallSigma1;
    hide SumWord;
    var s0, s1 := SmallSigmas(w15, w2);
    w := SumWord(w16, s0, w7, s1);
  }

  /** One round. */
  method RunRound(v: Working, k: bv32, w: bv32) returns (r: Working)
    ensures r == Round(v, k, w)
  {
    hide BigSigma0;
    hide BigSigma1;
    hide Mixed;
    var s0, s1 := BigSigmas(v.a, v.e);
    r := Mixed(v, k, w, s0, s1);
  }

  /** The first half of Sha256State::compress: the message schedule. */
  method ExpandBlock(data: seq<Byte>) returns (w: array<bv32>)
    requires |data| == 64
    ensures w.Length == 64 && forall k :: 0 <= k < 64 ==> w[k] == Schedule(data, k)
  {
    hide NextWord;
    hide BlockWord;
    w := new bv32[64];
    var i := 0;
    while i < 16
      invariant 0 <= i <= 16
      invariant forall k :: 0 <= k < i ==> w[k] == Schedule(data, k)
    {
      w[i] := BlockWord(data, i);
      i := i + 1;
    }
    while i < 64
      invariant 16 <= i <= 64
      invariant forall k :: 0 <= k < i ==> w[k] == Schedule(data, k)
    {
      var next := ExtendSchedule(w[i - 16], w[i - 15], w[i - 7], w[i - 2]);
      w[i] := next;
      i := i + 1;
    }
  }

  lemma RoundsStart(h: seq<bv32>, data: seq<Byte>)
    requires |h| == 8 && |data| == 64
    ensures Rounds(h, data, 0) == Working(h[0], h[1], h[2], h[3], h[4], h[5], h[6], h[7])
    ensures |RoundConstants()| == 64
  {
  }

  lemma RoundsStep(h: seq<bv32>, data: seq<Byte>, i: nat)
    requires |h| == 8 && |data| == 64 && i < 64
    ensures |RoundConstants()| == 64
    ensures Rounds(h, data, i + 1) == Round(Rounds(h, data, i), RoundConstants()[i], Schedule(data, i))
  {
    hide Round;
    hide Schedule;
  }

  /** Sha256State::compress. */
  method Compress(h: seq<bv32>, data: seq<Byte>) returns (r: seq<bv32>)
    requires |h| == 8 && |data| == 64
    ensures r == CompressBlock(h, data)
  {
    hide Round;
    hide Rounds;
    hide Schedule;
    hide RoundConstants;
    var w := ExpandBlock(data);
    RoundsStart(h, data);
    var v := Working(h[0], h[1], h[2], h[3], h[4], h[5], h[6], h[7]);
    var i := 0;
    while i < ROUNDS
      invariant 0 <= i <= ROUNDS && forall k :: 0 <= k < 64 ==> w[k] == Schedule(data, k)
      invariant v == Rounds(h, data, i)
    {
      RoundsStep(h, data, i);
      v := RunRound(v, RoundConstants()[i], w[i]);
      i := i + 1;
    }
    r := AddWorking(h, v);
  }

  /** memcpy into a buffer. */
  method CopyInto(target: array<Byte>, at: nat, source: seq<Byte>)
    requires at + |source| <= target.Length
    modifies target
    ensures target[..] == old(target[..at]) + source + old(target[at + |source|..])
  {
    var i := 0;
    while i < |source|
      invariant 0 <= i <= |source|
      invariant forall k :: 0 <= k < i ==> target[at + k] == source[k]
      invariant forall k :: 0 <= k < target.Length && !(at <= k < at + i) ==> target[k] == old(target[k])
    {
      target[at + i] := source[i];
      i := i + 1;
    }
  }

  /** The first done bytes are folded into h and the others are pending. */
  ghost predicate Progress(all: seq<Byte>, done: int, h: seq<bv32>, pending: seq<Byte>) {
    && 0 <= done <= |all| && done % 64 == 0
    && all[done..] == pending
    && h == Fold(InitialHash(), all[..done])
  }

  lemma ProgressBlock(all: seq<Byte>, done: int, h: seq<bv32>, b: seq<Byte>, rest: seq<Byte>)
    requires Progress(all, done, h, b + rest) && |b| == 64
    ensures |h| == 8 && Progress(all, done + 64, CompressBlock(h, b), rest)
  {
    hide CompressBlock;
    hide InitialHash;
    FoldBlock(InitialHash(), all[..done], b);
    assert all[done..][..64] == b && all[done..][64..] == rest;
    assert all[..done + 64] == all[..done] + b;
  }

  lemma ProgressBegin(m: seq<Byte>, data: seq<Byte>, h: seq<bv32>, buffered: seq<Byte>)
    requires Buffered(m, h, buffered)
    ensures Progress(m + data, |m| - |buffered|, h, buffered + data)
  {
    hide Fold;
    var done := |m| - |buffered|;
    assert (m + data)[done..] == m[done..] + data;
    assert (m + data)[..done] == m[..done];
  }

  lemma ProgressEnd(all: seq<Byte>, done: int, h: seq<bv32>, pending: seq<Byte>)
    requires Progress(all, done, h, pending) && |pending| < 64
    ensures Buffered(all, h, pending)
  {
    hide Fold;
    assert |all| == done + |pending|;
  }

  /** The tail of m that does not fill a block is buffered; everything before it is folded into h. */
  ghost predicate Buffered(m: seq<Byte>, h: seq<bv32>, buffered: seq<Byte>) {
    && |buffered| == |m| % 64
    && var done := |m| - |buffered|;
       buffered == m[done..] && h == Fold(InitialHash(), m[..done])
  }

  class Sha256State {
    var h: seq<bv32>
    var totalBytes: nat
    const block: array<Byte>
    var blockBytes: nat
    ghost var message: seq<Byte>

    /** The unprocessed tail of the message is in the block buffer; everything before it
        has been folded. */
    ghost predicate Valid()
      reads this, block
    {
      && block.Length == 64 && blockBytes < 64
      && totalBytes == |message| % WORD64
      && Buffered(message, h, block[..blockBytes])
    }

    constructor ()
      ensures Valid() && message == [] && fresh(block)
    {
      h := InitialHash();
      totalBytes := 0;
      block := new Byte[64];
      blockBytes := 0;
      message := [];
    }

    /** The first step of update: complete a partly filled block. */
    method TopUp(ghost all: seq<Byte>, ghost done: int, data: seq<Byte>) returns (rest: seq<Byte>, ghost done': int)
      requires block.Length == 64 && 0 < blockBytes < 64
      requires Progress(all, done, h, block[..blockBytes] + data)
      modifies this`h, this`blockBytes, block
      ensures blockBytes < 64 && (blockBytes != 0 ==> rest == [])
      ensures Progress(all, done', h, block[..blockBytes] + rest)
    {
      hide CompressBlock;
      hide InitialHash;
      hide Fold;
      done' := done;
      var need := 64 - blockBytes;
      var take := if |data| < need then |data| else need;
      ghost var buffered := block[..blockBytes];
      CopyInto(block, blockBytes, data[..take]);
      assert block[..blockBytes + take] == buffered + data[..take];
      assert buffered + data == block[..blockBytes + take] + data[take..];
      blockBytes := blockBytes + take;
      rest := data[take..];
      if blockBytes == 64 {
        ProgressBlock(all, done, h, block[..], rest);
        h := Compress(h, block[..]);
        blockBytes := 0;
        done' := done + 64;
        assert block[..0] + rest == rest;
      }
    }

    /** The second step of update: compress whole blocks straight from the input. */
    method WholeBlocks(ghost all: seq<Byte>, ghost done: int, data: seq<Byte>) returns (rest: seq<Byte>, ghost done': int)
      requires block.Length == 64 && blockBytes < 64 && (blockBytes != 0 ==> data == [])
      requires Progress(all, done, h, block[..blockBytes] + data)
      modifies this`h
      ensures |rest| < 64 && (blockBytes != 0 ==> rest == [])
      ensures Progress(all, done', h, block[..blockBytes] + rest)
    {
      hide CompressBlock;
      hide InitialHash;
      hide Fold;
      rest, done' := data, done;
      while |rest| >= 64
        invariant blockBytes < 64 && (blockBytes != 0 ==> rest == [])
        invariant Progress(all, done', h, block[..blockBytes] + rest)
        decreases |rest|
      {
        assert block[..0] + rest == rest == rest[..64] + rest[64..];
        ProgressBlock(all, done', h, rest[..64], rest[64..]);
        h := Compress(h, rest[..64]);
        rest := rest[64..];
        done' := done' + 64;
        assert block[..0] + rest == rest;
      }
    }

    /** Absorbing a chunk extends the message by exactly that chunk. */
    method Update(data: seq<Byte>)
      requires Valid()
      modifies this, block
      ensures Valid() && message == old(message) + data
    {
      hide CompressBlock;
      hide InitialHash;
      hide Fold;
      hide Progress;
      hide Buffered;
      totalBytes := (totalBytes + |data|) % WORD64;
      TotalAdds(|message|, |data|);
      ghost var all := message + data;
      ghost var done := |message| - blockBytes;
      var rest := data;
      ProgressBegin(message, data, h, block[..blockBytes]);
      message := all;
      if blockBytes != 0 {
        rest, done := TopUp(all, done, data);
      }
      rest, done := WholeBlocks(all, done, rest);
      if |rest| != 0 {
        assert block[..0] + rest == rest;
        CopyInto(block, 0, rest);
        blockBytes := |rest|;
        assert block[..blockBytes] == rest;
      } else {
        assert block[..blockBytes] + rest == block[..blockBytes];
      }
      ProgressEnd(all, done, h, block[..blockBytes]);
    }

    /** The pad of finish: it fits its 72-byte buffer. */
    method BuildPad() returns (pad: array<Byte>, padBytes: nat)
      requires Valid()
      ensures fresh(pad) && padBytes <= pad.Length == 72
      ensures pad[..padBytes] == Padding(|message|)
    {
      hide PutBe64;
      hide ZeroCount;
      hide Fold;
      var bitLength := (totalBytes * 8) % WORD64;
      pad := new Byte[72];
      padBytes := 0;
      pad[padBytes] := 0x80;
      padBytes := padBytes + 1;
      var rem := ((totalBytes + 1) % WORD64) % 64;
      var zeros := if rem <= 56 then 56 - rem else 120 - rem;
      PadArithmetic(|message|, totalBytes);
      while padBytes < 1 + zeros
        invariant 1 <= padBytes <= 1 + zeros <= 64
        invariant pad[..padBytes] == [0x80] + ZeroBytes(padBytes - 1)
      {
        pad[padBytes] := 0;
        padBytes := padBytes + 1;
      }
      ghost var head := pad[..padBytes];
      CopyInto(pad, padBytes, PutBe64(bitLength));
      padBytes := padBytes + 8;
      assert pad[..padBytes] == head + PutBe64(bitLength);
    }

    /** finish: the digest of everything absorbed. */
    method Finish() returns (out: seq<Byte>)
      requires Valid()
      modifies this, block
      ensures out == Digest(old(message))
      ensures Valid()
    {
      hide CompressBlock;
      hide InitialHash;
      hide WordBytes;
      hide PutBe64;
      var pad, padBytes := BuildPad();
      Update(pad[..padBytes]);
      assert message[..|message|] == message;
      out := [];
      var i := 0;
      while i < 8
        invariant 0 <= i <= 8
        invariant out + Output(h[i..]) == Output(h)
      {
        assert h[i..][0] == h[i] && h[i..][1..] == h[i + 1..];
        out := out + WordBytes(h[i]);
        i := i + 1;
      }
    }
  }

  lemma TotalAdds(a: nat, b: nat)
    ensures (a % WORD64 + b) % WORD64 == (a + b) % WORD64
  {
    AddMultiple(a / WORD64, a % WORD64 + b, WORD64);
  }

  lemma PadArithmetic(n: nat, total: nat)
    requires total == n % WORD64
    ensures (total * 8) % WORD64 == (8 * n) % WORD64
    ensures var rem := ((total + 1) % WORD64) % 64;
            ZeroCount(n) == (if rem <= 56 then 56 - rem else 120 - rem)
  {
    var q := n / WORD64;
    MulModBits(8 * total, 8 * q);
    LowBits(n, total, q);
    LowBits(total + 1, (total + 1) % WORD64, (total + 1) / WORD64);
    ZeroCases(n, total);
  }

  lemma LowBits(n: nat, total: nat, q: nat)
    requires n == WORD64 * q + total
    ensures n % 64 == total % 64
  {
    var k := 0x400_0000_0000_0000 * q;
    assert WORD64 * q == 0x1_0000_0000_0000_0000 * q == k * 64;
    AddMultiple(k, total, 64);
  }

  lemma ZeroCases(n: nat, total: nat)
    requires n % 64 == total % 64
    ensures var rem := (total + 1) % 64;
            ZeroCount(n) == (if rem <= 56 then 56 - rem else 120 - rem)
  {
  }

  lemma MulModBits(r: nat, q: nat)
    ensures (WORD64 * q + r) % WORD64 == r % WORD64
  {
    AddMultiple(q, r, WORD64);
  }

  function Flatten(chunks: seq<seq<Byte>>): seq<Byte> {
    if chunks == [] then [] else Flatten(chunks[..|chunks| - 1]) + chunks[|chunks| - 1]
  }

  /** However a message is split into chunks, hashing the chunks is hashing the message. */
  method HashChunks(chunks: seq<seq<Byte>>) returns (digest: seq<Byte>)
    ensures digest == Digest(Flatten(chunks))
  {
    hide Digest;
    hide Buffered;
    var state := new Sha256State();
    var i := 0;
    while i < |chunks|
      invariant 0 <= i <= |chunks|
      invariant state.Valid() && fresh(state) && fresh(state.block)
      invariant state.message == Flatten(chunks[..i])
    {
      state.Update(chunks[i]);
      assert chunks[..i + 1][..i] == chunks[..i];
      i := i + 1;
    }
    assert chunks[..|chunks|] == chunks;
    digest := state.Finish();
  }
}
