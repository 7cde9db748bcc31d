/** CRC-32C as src/core/digest.cpp computes it (a 256-entry table, one look-up per byte),
    against polynomial long division over GF(2) (section 12.1 of RFC 3720).

    A 32-bit register is its sequence of bits, least significant first. */
module Crc32c {
  import opened Bytes

  /* ---------- Bits ---------- */

  const WIDTH: nat := 32
  const OCTET: nat := 8

  type Bits = seq<bool>
  type Word = w: seq<bool> | |w| == 32 witness seq(32, _ => false)

  function Zeros(n: nat): (z: Bits)
    ensures |z| == n
  {
    seq(n, _ => false)
  }

  /** The n low bits of v, least significant first. */
  function NatBits(v: nat, n: nat): (s: Bits)
    ensures |s| == n
  {
    if n == 0 then [] else [v % 2 == 1] + NatBits(v / 2, n - 1)
  }

  function BitsNat(s: Bits): nat {
    if s == [] then 0 else (if s[0] then 1 else 0) + 2 * BitsNat(s[1..])
  }

  function Xor(a: Word, b: Word): Word {
    seq(32, i requires 0 <= i < 32 => a[i] != b[i])
  }

  function ShiftRight(a: Word, k: nat): Word {
    seq(32, i requires 0 <= i < 32 => i + k < 32 && a[i + k])
  }

  /** a & 0xFF. */
  function LowByte(a: Word): Word {
    seq(32, i requires 0 <= i < 32 => i < 8 && a[i])
  }

  function ByteWord(b: Byte): Word {
    NatBits(b, WIDTH)
  }

  function Ones(): Word {
    seq(32, _ => true)
  }


  lemma {:induction false} BitsOfNatOfBits(s: Bits, n: nat)
    requires |s| <= n
    ensures NatBits(BitsNat(s), n) == s + Zeros(n - |s|)
  {
    if s == [] {
      ZeroBits(n);
    } else {
      BitsOfNatOfBits(s[1..], n - 1);
      assert s == [s[0]] + s[1..];
    }
  }

  lemma {:induction false} ZeroBits(n: nat)
    ensures NatBits(0, n) == Zeros(n)
  {
    if n > 0 {
      ZeroBits(n - 1);
    }
  }

  lemma {:induction false} BitsNatBound(s: Bits, n: nat, p: nat)
    requires |s| <= n && p == Pow2(n)
    ensures BitsNat(s) < p
  {
    if s != [] {
      BitsNatBound(s[1..], n - 1, Pow2(n - 1));
    }
  }

  function Pow2(n: nat): (p: nat)
    ensures p >= 1
  {
    if n == 0 then 1 else 2 * Pow2(n - 1)
  }

  lemma {:induction false} NatOfBitsOfNat(v: nat, n: nat)
    requires v < Pow2(n)
    ensures BitsNat(NatBits(v, n)) == v
  {
    if n > 0 {
      NatOfBitsOfNat(v / 2, n - 1);
      assert NatBits(v, n)[1..] == NatBits(v / 2, n - 1);
    }
  }

  lemma Pow2Values()
    ensures Pow2(8) == 256 && Pow2(32) == 0x1_0000_0000
  {
    assert Pow2(4) == 16;
    assert Pow2(8) == 16 * Pow2(4);
    assert Pow2(12) == 16 * Pow2(8);
    assert Pow2(16) == 16 * Pow2(12);
    assert Pow2(20) == 16 * Pow2(16);
    assert Pow2(24) == 16 * Pow2(20);
    assert Pow2(28) == 16 * Pow2(24);
    assert Pow2(32) == 16 * Pow2(28);
  }

  /** Only the low eight bits of a byte can be set. */
  lemma {:induction false} NatBitsHigh(v: nat, k: nat, n: nat, i: nat)
    requires v < Pow2(k) && k <= i < n
    ensures !NatBits(v, n)[i]
  {
    if k == 0 {
      ZeroBits(n);
    } else {
      NatBitsHigh(v / 2, k - 1, n - 1, i - 1);
    }
  }

  lemma {:induction false} NatBitsPrefix(v: nat, n: nat, m: nat)
    requires n <= m
    ensures NatBits(v, m)[..n] == NatBits(v, n)
  {
    if n > 0 {
      NatBitsPrefix(v / 2, n - 1, m - 1);
      assert NatBits(v, m)[..n] == [v % 2 == 1] + NatBits(v / 2, m - 1)[..n - 1];
    }
  }

  lemma ByteWordShape(b: Byte)
    ensures forall i {:trigger ByteWord(b)[i]} :: 8 <= i < 32 ==> !ByteWord(b)[i]
    ensures ByteWord(b)[..8] == NatBits(b, OCTET)
  {
    Pow2Values();
    forall i | 8 <= i < 32
      ensures !ByteWord(b)[i]
    {
      NatBitsHigh(b, OCTET, WIDTH, i);
    }
    NatBitsPrefix(b, OCTET, WIDTH);
  }

  /* ---------- Reference: long division of bit polynomials ---------- */

  /** The n low bits of v, most significant first. */
  function MsbBits(v: nat, n: nat): (s: Bits)
    ensures |s| == n
  {
    if n == 0 then [] else MsbBits(v / 2, n - 1) + [v % 2 == 1]
  }

  const CASTAGNOLI: nat := 0x1EDC6F41

  /** Coefficients of the Castagnoli generator, the one of x^32 first. */
  function Generator(): (g: Bits)
    ensures |g| == 33
  {
    [true] + MsbBits(CASTAGNOLI, WIDTH)
  }

  /** One step of long division: cancel the leading coefficient, then drop it. */
  function DivideStep(p: Bits): (q: Bits)
    requires |p| >= 33
    ensures |q| == |p| - 1
  {
    seq(|p| - 1, i requires 0 <= i < |p| - 1 =>
      if p[0] && i < 32 then p[i + 1] != Generator()[i + 1] else p[i + 1])
  }

  /** Remainder of p, leading coefficient first, modulo the generator. */
  function Remainder(p: Bits): (r: Word)
    requires |p| >= 32
    decreases |p|
  {
    if |p| == 32 then p else Remainder(DivideStep(p))
  }

  /** p with r added (exclusive or) to its 32 leading coefficients. */
  function AddLeading(p: Bits, r: Word): (q: Bits)
    requires |p| >= 32
    ensures |q| == |p|
  {
    seq(|p|, i requires 0 <= i < |p| => if i < 32 then p[i] != r[i] else p[i])
  }

  /** Message bits in transmission order: least significant bit of each byte first. */
  function MessageBits(m: seq<Byte>): (s: Bits)
    ensures |s| == 8 * |m|
  {
    if m == [] then [] else NatBits(m[0], OCTET) + MessageBits(m[1..])
  }

  /** The CRC of RFC 3720: extend the message by 32 zeros, complement the 32 leading
      bits, divide, complement the remainder. */
  function Reference(m: seq<Byte>): Word {
    Xor(Remainder(AddLeading(MessageBits(m) + Zeros(32), Ones())), Ones())
  }

  /* ---------- The shift register ---------- */

  const POLYNOMIAL: nat := 0x82F63B78

  function Polynomial(): Word {
    NatBits(POLYNOMIAL, WIDTH)
  }

  /** One turn of the reflected register: the inner loop body of Crc32cTable. */
  function Step(crc: Word): Word {
    if crc[0] then Xor(ShiftRight(crc, 1), Polynomial()) else ShiftRight(crc, 1)
  }

  function Steps(n: nat, crc: Word): Word {
    if n == 0 then crc else Steps(n - 1, Step(crc))
  }

  /** The register after shifting in the bytes of m. */
  function Shift(crc: Word, m: seq<Byte>): Word
    decreases m
  {
    if m == [] then crc else Shift(Steps(OCTET, Xor(crc, ByteWord(m[0]))), m[1..])
  }

  function Crc(m: seq<Byte>): Word {
    Xor(Shift(Ones(), m), Ones())
  }

  /** The checksum as the unsigned integer that is stored. */
  function Checksum(m: seq<Byte>): nat {
    BitsNat(Crc(m))
  }

  /* ---------- Table-driven implementation ---------- */

  predicate IsTable(t: seq<Word>) {
    |t| == 256 && forall i {:trigger t[i]} :: 0 <= i < 256 ==> t[i] == Steps(OCTET, NatBits(i, WIDTH))
  }

  method BuildTable() returns (entries: seq<Word>)
    ensures IsTable(entries)
  {
    entries := [];
    for i := 0 to 256
      invariant |entries| == i
      invariant forall k {:trigger entries[k]} :: 0 <= k < i ==> entries[k] == Steps(OCTET, NatBits(k, WIDTH))
    {
      var crc := TableEntry(i);
      entries := entries + [crc];
    }
  }

  /** The inner loop of the table constructor. */
  method TableEntry(i: nat) returns (crc: Word)
    ensures crc == Steps(OCTET, NatBits(i, WIDTH))
  {
    hide Steps;
    hide Xor;
    hide ShiftRight;
    crc := NatBits(i, WIDTH);
    var bit := 0;
    while bit < 8
      invariant 0 <= bit <= 8
      invariant Steps(8 - bit, crc) == Steps(OCTET, NatBits(i, WIDTH))
    {
      StepsFirst(8 - bit, crc);
      crc := if crc[0] then Xor(ShiftRight(crc, 1), Polynomial()) else ShiftRight(crc, 1);
      bit := bit + 1;
    }
    StepsNone(crc);
  }

  lemma StepsFirst(n: nat, crc: Word)
    requires n > 0
    ensures Steps(n, crc) == Steps(n - 1, Step(crc))
  {
  }

  lemma StepsNone(crc: Word)
    ensures Steps(0, crc) == crc
  {
  }

  /** crc32c: the table loop computes the RFC 3720 remainder. */
  method Compute(bytes: seq<Byte>) returns (crc: Word)
    ensures crc == Reference(bytes)
    ensures crc == Crc(bytes)
  {
    var table := BuildTable();
    crc := Ones();
    var i := 0;
    while i < |bytes|
      invariant 0 <= i <= |bytes|
      invariant Shift(crc, bytes[i..]) == Shift(Ones(), bytes)
    {
      var index := BitsNat(Xor(crc, ByteWord(bytes[i]))[..8]);
      TableStep(crc, bytes[i]);
      assert bytes[i..][0] == bytes[i] && bytes[i..][1..] == bytes[i + 1..];
      crc := Xor(table[index], ShiftRight(crc, 8));
      i := i + 1;
    }
    crc := Xor(crc, Ones());
    CrcIsReference(bytes);
  }

  lemma StepLinear(x: Word, y: Word)
    ensures Step(Xor(x, y)) == Xor(Step(x), Step(y))
  {
  }

  lemma {:induction false} StepsLinear(n: nat, x: Word, y: Word)
    ensures Steps(n, Xor(x, y)) == Xor(Steps(n, x), Steps(n, y))
  {
    if n > 0 {
      StepLinear(x, y);
      StepsLinear(n - 1, Step(x), Step(y));
    }
  }

  /** n turns only move bits while the n low ones are clear. */
  lemma {:induction false} StepsHigh(n: nat, x: Word)
    requires n <= 32 && forall i :: 0 <= i < n ==> !x[i]
    ensures Steps(n, x) == ShiftRight(x, n)
  {
    if n == 0 {
      assert ShiftRight(x, 0) == x;
    } else {
      var y := ShiftRight(x, 1);
      StepsHigh(n - 1, y);
      assert ShiftRight(y, n - 1) == ShiftRight(x, n);
    }
  }

  /** The table index is the low byte of the register. */
  lemma IndexIsLowByte(x: Word)
    ensures BitsNat(x[..8]) < 256
    ensures NatBits(BitsNat(x[..8]), WIDTH) == LowByte(x)
  {
    Pow2Values();
    BitsNatBound(x[..8], 8, 256);
    BitsOfNatOfBits(x[..8], WIDTH);
  }

  lemma SplitByte(x: Word)
    ensures Steps(OCTET, x) == Xor(Steps(OCTET, LowByte(x)), ShiftRight(x, 8))
  {
    var low := LowByte(x);
    var high: Word := Xor(x, low);
    assert x == Xor(low, high);
    StepsLinear(OCTET, low, high);
    StepsHigh(OCTET, high);
    assert ShiftRight(high, 8) == ShiftRight(x, 8);
  }

  lemma ShiftedByteVanishes(crc: Word, b: Byte)
    ensures ShiftRight(Xor(crc, ByteWord(b)), 8) == ShiftRight(crc, 8)
  {
    ByteWordShape(b);
  }

  /** One table look-up is eight turns of the register. */
  lemma TableStep(crc: Word, b: Byte)
    ensures var x := Xor(crc, ByteWord(b)); var index := BitsNat(x[..8]);
            index < 256 &&
            Xor(Steps(OCTET, NatBits(index, WIDTH)), ShiftRight(crc, 8)) == Steps(OCTET, x)
  {
    var x := Xor(crc, ByteWord(b));
    IndexIsLowByte(x);
    SplitByte(x);
    ShiftedByteVanishes(crc, b);
  }

  /* ---------- The register divides ---------- */

  /** The bits of acc followed by the n low bits of v in the opposite order, as an integer. */
  function Reflect(v: nat, n: nat, acc: nat): nat {
    if n == 0 then acc else Reflect(v / 2, n - 1, 2 * acc + v % 2)
  }

  lemma {:induction false} ReflectBits(v: nat, n: nat, acc: nat, k: nat)
    ensures MsbBits(Reflect(v, n, acc), k + n) == MsbBits(acc, k) + NatBits(v, n)
  {
    if n > 0 {
      var next := 2 * acc + v % 2;
      ReflectBits(v / 2, n - 1, next, k + 1);
      assert MsbBits(next, k + 1) == MsbBits(acc, k) + [v % 2 == 1];
    }
  }

  lemma ReflectTurn(q: nat, b: nat, n: nat, acc: nat)
    requires b < 2
    ensures Reflect(2 * q + b, n + 1, acc) == Reflect(q, n, 2 * acc + b)
  {
  }

  /** A nibble with bits b0 (lowest) to b3, read from the low end. */
  lemma ReflectNibble(q: nat, b0: nat, b1: nat, b2: nat, b3: nat, n: nat, acc: nat)
    requires b0 < 2 && b1 < 2 && b2 < 2 && b3 < 2
    ensures Reflect(16 * q + 8 * b3 + 4 * b2 + 2 * b1 + b0, n + 4, acc) ==
            Reflect(q, n, 16 * acc + 8 * b0 + 4 * b1 + 2 * b2 + b3)
  {
    ReflectTurn(8 * q + 4 * b3 + 2 * b2 + b1, b0, n + 3, acc);
    ReflectTurn(4 * q + 2 * b3 + b2, b1, n + 2, 2 * acc + b0);
    ReflectTurn(2 * q + b3, b2, n + 1, 4 * acc + 2 * b0 + b1);
    ReflectTurn(q, b3, n, 8 * acc + 4 * b0 + 2 * b1 + b2);
  }

  lemma ReflectPolynomial()
    ensures Reflect(POLYNOMIAL, WIDTH, 0) == CASTAGNOLI
  {
    var n := WIDTH - 32;
    ReflectNibble(0x82F63B7, 0, 0, 0, 1, n + 28, 0);
    ReflectNibble(0x82F63B, 1, 1, 1, 0, n + 24, 0x1);
    ReflectNibble(0x82F63, 1, 1, 0, 1, n + 20, 0x1E);
    ReflectNibble(0x82F6, 1, 1, 0, 0, n + 16, 0x1ED);
    ReflectNibble(0x82F, 0, 1, 1, 0, n + 12, 0x1EDC);
    ReflectNibble(0x82, 1, 1, 1, 1, n + 8, 0x1EDC6);
    ReflectNibble(0x8, 0, 1, 0, 0, n + 4, 0x1EDC6F);
    ReflectNibble(0, 0, 0, 0, 1, n, 0x1EDC6F4);
  }

  lemma ReflectedConstant()
    ensures NatBits(POLYNOMIAL, WIDTH) == MsbBits(CASTAGNOLI, WIDTH)
  {
    ReflectBits(POLYNOMIAL, WIDTH, 0, 0);
    ReflectPolynomial();
  }

  lemma LastMsbBit(v: nat, n: nat)
    requires n > 0
    ensures MsbBits(v, n)[n - 1] == (v % 2 == 1)
  {
  }

  /** The source's reflected constant and the generator of RFC 3720 are one polynomial. */
  lemma PolynomialIsGenerator()
    ensures Generator() == [true] + Polynomial()
  {
    ReflectedConstant();
  }

  /** Shift one message bit into the register. */
  function ShiftBit(crc: Word, b: bool): Word {
    Step(crc[0 := crc[0] != b])
  }

  function ShiftBits(crc: Word, bits: Bits): Word
    decreases |bits|
  {
    if bits == [] then crc else ShiftBits(ShiftBit(crc, bits[0]), bits[1..])
  }

  lemma StepAt(x: Word, i: nat)
    requires i < 32
    ensures Step(x)[i] == ((i < 31 && x[i + 1]) != (x[0] && Polynomial()[i]))
  {
  }

  lemma DivideMatches(crc: Word, b: bool, rest: Bits)
    requires |rest| >= 32
    ensures DivideStep(AddLeading([b] + rest, crc)) == AddLeading(rest, ShiftBit(crc, b))
  {
    var p := AddLeading([b] + rest, crc);
    var next := ShiftBit(crc, b);
    forall i | 0 <= i < |rest|
      ensures DivideStep(p)[i] == AddLeading(rest, next)[i]
    {
      if i < 32 {
        PolynomialIsGenerator();
        StepAt(crc[0 := crc[0] != b], i);
      }
    }
  }

  /** The register holds the remainder of what was shifted in, extended by 32 zeros. */
  lemma {:induction false} RegisterIsRemainder(crc: Word, bits: Bits)
    ensures ShiftBits(crc, bits) == Remainder(AddLeading(bits + Zeros(32), crc))
    decreases |bits|
  {
    if bits == [] {
      assert AddLeading([] + Zeros(32), crc) == crc;
    } else {
      var rest := bits[1..] + Zeros(32);
      assert bits + Zeros(32) == [bits[0]] + rest;
      DivideMatches(crc, bits[0], rest);
      RegisterIsRemainder(ShiftBit(crc, bits[0]), bits[1..]);
    }
  }

  lemma {:induction false} ShiftBitsAppend(crc: Word, a: Bits, b: Bits)
    ensures ShiftBits(crc, a + b) == ShiftBits(ShiftBits(crc, a), b)
    decreases |a|
  {
    if a == [] {
      assert a + b == b;
    } else {
      assert (a + b)[1..] == a[1..] + b;
      ShiftBitsAppend(ShiftBit(crc, a[0]), a[1..], b);
    }
  }

  /** Adding a word to the register at once or bit by bit is the same. */
  lemma {:induction false} BitsAtOnce(crc: Word, n: nat, w: Word)
    requires n <= 32 && forall i :: n <= i < 32 ==> !w[i]
    ensures Steps(n, Xor(crc, w)) == ShiftBits(crc, w[..n])
    decreases n
  {
    if n == 0 {
      assert Xor(crc, w) == crc;
    } else {
      var rest := ShiftRight(w, 1);
      var first: Word := crc[0 := crc[0] != w[0]];
      var others: Word := w[0 := false];
      assert Xor(crc, w) == Xor(first, others);
      StepLinear(first, others);
      assert Step(others) == rest;
      BitsAtOnce(ShiftBit(crc, w[0]), n - 1, rest);
      assert w[..n][1..] == rest[..n - 1];
    }
  }

  lemma {:induction false} ShiftIsBits(crc: Word, m: seq<Byte>)
    ensures Shift(crc, m) == ShiftBits(crc, MessageBits(m))
    decreases m
  {
    if m != [] {
      ShiftBitsAppend(crc, NatBits(m[0], OCTET), MessageBits(m[1..]));
      ByteWordShape(m[0]);
      BitsAtOnce(crc, OCTET, ByteWord(m[0]));
      ShiftIsBits(Steps(OCTET, Xor(crc, ByteWord(m[0]))), m[1..]);
    }
  }

  /** For every message the register computation is the RFC 3720 division. */
  lemma CrcIsReference(m: seq<Byte>)
    ensures Crc(m) == Reference(m)
  {
    ShiftIsBits(Ones(), m);
    RegisterIsRemainder(Ones(), MessageBits(m));
  }

  /* ---------- Error detection ---------- */

  lemma PolynomialTopBit()
    ensures Polynomial()[31]
  {
    ReflectedConstant();
    LastMsbBit(CASTAGNOLI, WIDTH);
  }

  lemma StepLast(x: Word)
    ensures Step(x)[31] == x[0]
  {
    PolynomialTopBit();
    StepAt(x, 31);
  }

  lemma StepInjective(x: Word, y: Word)
    requires Step(x) == Step(y)
    ensures x == y
  {
    StepLast(x);
    StepLast(y);
    forall i | 1 <= i < 32
      ensures x[i] == y[i]
    {
      StepAt(x, i - 1);
      StepAt(y, i - 1);
    }
    assert x == y;
  }

  lemma {:induction false} StepsInjective(n: nat, x: Word, y: Word)
    requires Steps(n, x) == Steps(n, y)
    ensures x == y
  {
    if n > 0 {
      StepsInjective(n - 1, Step(x), Step(y));
      StepInjective(x, y);
    }
  }

  lemma XorCancel(x: Word, y: Word, b: Word)
    requires Xor(x, b) == Xor(y, b)
    ensures x == y
  {
    forall i | 0 <= i < 32
      ensures x[i] == y[i]
    {
      assert Xor(x, b)[i] == Xor(y, b)[i];
    }
  }

  lemma {:induction false} ShiftInjective(x: Word, y: Word, m: seq<Byte>)
    requires Shift(x, m) == Shift(y, m)
    ensures x == y
    decreases m
  {
    if m != [] {
      var b := ByteWord(m[0]);
      ShiftInjective(Steps(OCTET, Xor(x, b)), Steps(OCTET, Xor(y, b)), m[1..]);
      StepsInjective(OCTET, Xor(x, b), Xor(y, b));
      XorCancel(x, y, b);
    }
  }

  lemma {:induction false} ShiftAppend(crc: Word, a: seq<Byte>, b: seq<Byte>)
    ensures Shift(crc, a + b) == Shift(Shift(crc, a), b)
    decreases a
  {
    if a == [] {
      assert a + b == b;
    } else {
      assert (a + b)[1..] == a[1..] + b;
      ShiftAppend(Steps(OCTET, Xor(crc, ByteWord(a[0]))), a[1..], b);
    }
  }

  lemma ByteBitsInjective(a: Byte, b: Byte)
    requires NatBits(a, OCTET) == NatBits(b, OCTET)
    ensures a == b
  {
    Pow2Values();
    NatOfBitsOfNat(a, OCTET);
    NatOfBitsOfNat(b, OCTET);
  }

  lemma {:induction false} MessageBitsInjective(m: seq<Byte>, n: seq<Byte>)
    requires |m| == |n| && MessageBits(m) == MessageBits(n)
    ensures m == n
  {
    if m != [] {
      var a, b := MessageBits(m), MessageBits(n);
      assert a[..8] == NatBits(m[0], OCTET) && a[8..] == MessageBits(m[1..]);
      assert b[..8] == NatBits(n[0], OCTET) && b[8..] == MessageBits(n[1..]);
      ByteBitsInjective(m[0], n[0]);
      MessageBitsInjective(m[1..], n[1..]);
      assert m == [m[0]] + m[1..] && n == [n[0]] + n[1..];
    }
  }

  /** Up to four bytes shifted in are one word shifted in at once, so different bytes
      leave different registers. */
  lemma WindowInjective(crc: Word, w: seq<Byte>, v: seq<Byte>)
    requires |w| == |v| <= 4 && Shift(crc, w) == Shift(crc, v)
    ensures w == v
  {
    var n := 8 * |w|;
    var a: Word := MessageBits(w) + Zeros(32 - n);
    var b: Word := MessageBits(v) + Zeros(32 - n);
    ShiftIsBits(crc, w);
    ShiftIsBits(crc, v);
    assert a[..n] == MessageBits(w) && b[..n] == MessageBits(v);
    BitsAtOnce(crc, n, a);
    BitsAtOnce(crc, n, b);
    StepsInjective(n, Xor(crc, a), Xor(crc, b));
    XorComm(crc, a);
    XorComm(crc, b);
    XorCancel(a, b, crc);
    MessageBitsInjective(w, v);
  }

  lemma XorComm(x: Word, y: Word)
    ensures Xor(x, y) == Xor(y, x)
  {
  }

  lemma BitsNatInjective(x: Word, y: Word)
    requires BitsNat(x) == BitsNat(y)
    ensures x == y
  {
    BitsOfNatOfBits(x, WIDTH);
    BitsOfNatOfBits(y, WIDTH);
    assert x + Zeros(0) == x && y + Zeros(0) == y;
  }

  lemma ShiftAround(prefix: seq<Byte>, w: seq<Byte>, suffix: seq<Byte>)
    ensures Shift(Ones(), prefix + w + suffix) == Shift(Shift(Shift(Ones(), prefix), w), suffix)
  {
    ShiftAppend(Ones(), prefix + w, suffix);
    ShiftAppend(Ones(), prefix, w);
  }

  lemma SameCrcSameWindow(prefix: seq<Byte>, w: seq<Byte>, v: seq<Byte>, suffix: seq<Byte>)
    requires |w| == |v| <= 4 && Crc(prefix + w + suffix) == Crc(prefix + v + suffix)
    ensures w == v
  {
    var start := Shift(Ones(), prefix);
    ShiftAround(prefix, w, suffix);
    ShiftAround(prefix, v, suffix);
    XorCancel(Shift(Shift(start, w), suffix), Shift(Shift(start, v), suffix), Ones());
    ShiftInjective(Shift(start, w), Shift(start, v), suffix);
    WindowInjective(start, w, v);
  }

  /** Any change confined to at most four consecutive bytes changes the stored checksum. */
  lemma BurstDetected(prefix: seq<Byte>, w: seq<Byte>, v: seq<Byte>, suffix: seq<Byte>)
    requires |w| == |v| <= 4 && w != v
    ensures Checksum(prefix + w + suffix) != Checksum(prefix + v + suffix)
  {
    var x, y := Crc(prefix + w + suffix), Crc(prefix + v + suffix);
    if BitsNat(x) == BitsNat(y) {
      BitsNatInjective(x, y);
      SameCrcSameWindow(prefix, w, v, suffix);
    }
  }

  /** The stored checksum fits its four bytes. */
  lemma ChecksumBound(m: seq<Byte>)
    ensures Checksum(m) < 0x1_0000_0000
  {
    Pow2Values();
    BitsNatBound(Crc(m), 32, 0x1_0000_0000);
  }
}
