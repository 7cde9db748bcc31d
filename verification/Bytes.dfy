/** Bytes on the wire and on disk, and the little-endian integers stored in them
    (put_u16/put_u32/put_u64 and their readers in src/core/persistence.cpp, and the
    CanonicalWriter/CanonicalReader integers in src/core/canonical.cpp). */
module Bytes {

  type Byte = b: int | 0 <= b < 256

  /** 256 to the power n: the number of values an n-byte field can hold. */
  function Pow256(n: nat): (p: nat)
    ensures p >= 1
  {
    if n == 0 then 1 else 256 * Pow256(n - 1)
  }

  /** The n bytes of v, least significant first; higher bits are dropped, as the
      source's shift-and-mask loops drop them. */
  function PutLe(n: nat, v: nat): (s: seq<Byte>)
    ensures |s| == n
  {
    if n == 0 then [] else [v % 256] + PutLe(n - 1, v / 256)
  }

  function GetLe(s: seq<Byte>): nat
  {
    if s == [] then 0 else s[0] + 256 * GetLe(s[1..])
  }

  lemma {:induction false} PutGetLe(n: nat, v: nat)
    ensures GetLe(PutLe(n, v)) == v % Pow256(n)
  {
    if n > 0 {
      PutGetLe(n - 1, v / 256);
      assert PutLe(n, v)[1..] == PutLe(n - 1, v / 256);
      DivModSplit(v, Pow256(n - 1));
    } else {
      assert v % 1 == 0;
    }
  }

  lemma DivModSplit(v: nat, m: nat)
    requires m >= 1
    ensures v % (256 * m) == v % 256 + 256 * ((v / 256) % m)
  {
    var q, r := v / 256, v % 256;
    var q1, r1 := q / m, q % m;
    assert q == q1 * m + r1;
    assert v == 256 * (q1 * m + r1) + r;
    assert 256 * (q1 * m) == q1 * (256 * m);
    assert v == q1 * (256 * m) + (256 * r1 + r);
    assert 0 <= 256 * r1 + r < 256 * m;
    ModUnique(v, 256 * m, q1, 256 * r1 + r);
  }

  lemma MulMono(d: int, m: int)
    requires m >= 1
    ensures d >= 1 ==> d * m >= m
    ensures d <= -1 ==> d * m <= -m
  {
  }

  lemma ModUnique(v: nat, m: nat, q: int, r: nat)
    requires m >= 1 && r < m && v == q * m + r
    ensures v % m == r
  {
    var q', r' := v / m, v % m;
    assert v == q' * m + r';
    assert (q - q') * m == r' - r;
    MulMono(q - q', m);
  }

  lemma AddMultiple(q: nat, r: nat, m: nat)
    requires m >= 1
    ensures (q * m + r) % m == r % m
  {
    var k := r / m;
    assert r == k * m + r % m;
    assert q * m + r == (q + k) * m + r % m;
    ModUnique(q * m + r, m, q + k, r % m);
  }

  /** A field wide enough for its value reads back exactly. */
  lemma PutGetExact(n: nat, v: nat)
    requires v < Pow256(n)
    ensures GetLe(PutLe(n, v)) == v
  {
    PutGetLe(n, v);
    ModUnique(v, Pow256(n), 0, v);
  }

  lemma Pow256Values()
    ensures Pow256(1) == 0x100 && Pow256(2) == 0x1_0000
    ensures Pow256(4) == 0x1_0000_0000 && Pow256(8) == 0x1_0000_0000_0000_0000
  {
    assert Pow256(2) == 256 * Pow256(1);
    assert Pow256(3) == 256 * Pow256(2);
    assert Pow256(4) == 256 * Pow256(3);
    assert Pow256(5) == 256 * Pow256(4);
    assert Pow256(6) == 256 * Pow256(5);
    assert Pow256(7) == 256 * Pow256(6);
    assert Pow256(8) == 256 * Pow256(7);
  }

  lemma {:induction false} GetLeBound(s: seq<Byte>)
    ensures GetLe(s) < Pow256(|s|)
  {
    if s != [] {
      GetLeBound(s[1..]);
    }
  }
}
