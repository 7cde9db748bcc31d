/** The bounded binary encoding (CanonicalWriter and CanonicalReader in src/core/canonical.cpp,
    Encoder and Decoder in src/core/persistence.cpp), described by schemas. A schema lists the
    fields of a record in the order they are written, with the ceilings the decoder applies;
    encoding, decoding and their laws are given once, for all schemas. */
module Wire {
  import opened Bytes
  import opened Wrappers

  datatype Schema =
    /** An unsigned little-endian integer that is refused above a maximum: u8, u16, u32, u64,
        enumerations and counts. */
    | Number(width: nat, max: nat)
    /** A fixed integer, such as the schema version. */
    | Constant(width: nat, value: nat)
    /** A boolean: any byte but zero reads as true. */
    | Flag
    /** A 32-bit integer in two's complement. */
    | Signed32
    /** Bytes behind a 32-bit length that is refused above a bound. */
    | Text(bound: nat)
    /** A 32-byte digest, written as a text of 64 hexadecimal digits. */
    | Hex
    /** Fields one after the other. */
    | Group(fields: seq<Schema>)
    /** A fixed number of items of the same kind. */
    | Vector(count: nat, item: Schema)
    /** Items behind a 64-bit count that is refused above a bound. */
    | Many(bound: nat, item: Schema)
    /** A text that holds exactly one encoding. */
    | Framed(bound: nat, inner: Schema)

  datatype Value =
    | Num(n: nat)
    | Unit
    | Bit(b: bool)
    | Int(i: int)
    | Octets(s: seq<Byte>)
    | Tuple(items: seq<Value>)

  datatype Parsed = Refused | Got(value: Value, rest: seq<Byte>)

  datatype ParsedAll = RefusedAll | GotAll(values: seq<Value>, rest: seq<Byte>)

  /* ---------- Hexadecimal digests ---------- */

  function Digit(d: nat): Byte
    requires d < 16
  {
    if d < 10 then 48 + d else 87 + d
  }

  /** hex_value: both cases are read. */
  function DigitValue(c: Byte): Option<nat> {
    if 48 <= c <= 57 then Some(c - 48)
    else if 97 <= c <= 102 then Some(c - 87)
    else if 65 <= c <= 70 then Some(c - 55)
    else None
  }

  function ToHex(s: seq<Byte>): (h: seq<Byte>)
    ensures |h| == 2 * |s|
  {
    if s == [] then [] else [Digit(s[0] / 16), Digit(s[0] % 16)] + ToHex(s[1..])
  }

  function FromHex(h: seq<Byte>): (r: Option<seq<Byte>>)
    ensures r.Some? ==> |h| == 2 * |r.value|
  {
    if h == [] then Some([])
    else if |h| == 1 then None
    else
      match (DigitValue(h[0]), DigitValue(h[1]), FromHex(h[2..]))
      case (Some(a), Some(b), Some(rest)) => Some([a * 16 + b] + rest)
      case _ => None
  }

  lemma {:induction false} HexRoundTrip(s: seq<Byte>)
    ensures FromHex(ToHex(s)) == Some(s)
  {
    if s != [] {
      HexRoundTrip(s[1..]);
      assert ToHex(s)[2..] == ToHex(s[1..]);
      assert s == [s[0]] + s[1..];
    }
  }

  /* ---------- Encoding ---------- */

  const WORD32: nat := 0x1_0000_0000

  const WIDTH1: nat := 1
  const WIDTH2: nat := 2
  const WIDTH4: nat := 4
  const WIDTH8: nat := 8

  /** The value has the shape the schema asks for; ceilings are not looked at. */
  predicate Typed(schema: Schema, v: Value)
    decreases schema
  {
    match schema
    case Number(_, _) => v.Num?
    case Constant(_, _) => v.Unit?
    case Flag => v.Bit?
    case Signed32 => v.Int? && -0x8000_0000 <= v.i < 0x8000_0000
    case Text(_) => v.Octets?
    case Hex => v.Octets? && |v.s| == 32
    case Group(fields) => v.Tuple? && |v.items| == |fields| && forall k :: 0 <= k < |fields| ==> Typed(fields[k], v.items[k])
    case Vector(count, item) => v.Tuple? && |v.items| == count && forall k :: 0 <= k < count ==> Typed(item, v.items[k])
    case Many(_, item) => v.Tuple? && forall k :: 0 <= k < |v.items| ==> Typed(item, v.items[k])
    case Framed(_, inner) => Typed(inner, v)
  }

  function Encode(schema: Schema, v: Value): seq<Byte>
    requires Typed(schema, v)
    decreases schema, 0
  {
    match schema
    case Number(width, _) => PutLe(width, v.n)
    case Constant(width, value) => PutLe(width, value)
    case Flag => [if v.b then 1 else 0]
    case Signed32 => PutLe(WIDTH4, v.i % WORD32)
    case Text(_) => PutLe(WIDTH4, |v.s|) + v.s
    case Hex => PutLe(WIDTH4, 64) + ToHex(v.s)
    case Group(fields) => EncodeFields(fields, v.items)
    case Vector(count, item) => EncodeItems(item, v.items)
    case Many(_, item) => PutLe(WIDTH8, |v.items|) + EncodeItems(item, v.items)
    case Framed(_, inner) => var e := Encode(inner, v); PutLe(WIDTH4, |e|) + e
  }

  function EncodeFields(fields: seq<Schema>, vs: seq<Value>): seq<Byte>
    requires |vs| == |fields| && forall k :: 0 <= k < |fields| ==> Typed(fields[k], vs[k])
    decreases fields, 0
  {
    if fields == [] then []
    else Encode(fields[0], vs[0]) + EncodeFields(fields[1..], vs[1..])
  }

  function EncodeItems(item: Schema, vs: seq<Value>): seq<Byte>
    requires forall k :: 0 <= k < |vs| ==> Typed(item, vs[k])
    decreases item, |vs| + 1
  {
    if vs == [] then []
    else Encode(item, vs[0]) + EncodeItems(item, vs[1..])
  }

  /* ---------- Decoding ---------- */

  function Decode(schema: Schema, s: seq<Byte>): Parsed
    decreases schema, 0
  {
    match schema
    case Number(width, max) =>
      if |s| < width || GetLe(s[..width]) > max then Refused else Got(Num(GetLe(s[..width])), s[width..])
    case Constant(width, value) =>
      if |s| < width || GetLe(s[..width]) != value then Refused else Got(Unit, s[width..])
    case Flag =>
      if s == [] then Refused else Got(Bit(s[0] != 0), s[1..])
    case Signed32 =>
      if |s| < WIDTH4 then Refused
      else
        var raw := GetLe(s[..WIDTH4]);
        Got(Int(if raw < 0x8000_0000 then raw else raw - WORD32), s[WIDTH4..])
    case Text(bound) =>
      if |s| < WIDTH4 then Refused
      else
        var length := GetLe(s[..WIDTH4]);
        if length > bound || |s| < WIDTH4 + length then Refused
        else Got(Octets(s[WIDTH4..WIDTH4 + length]), s[WIDTH4 + length..])
    case Hex =>
      if |s| < WIDTH4 + 64 || GetLe(s[..WIDTH4]) != 64 then Refused
      else
        (match FromHex(s[WIDTH4..WIDTH4 + 64])
         case Some(digest) => Got(Octets(digest), s[WIDTH4 + 64..])
         case None => Refused)
    case Group(fields) =>
      (match DecodeFields(fields, s)
       case GotAll(vs, rest) => Got(Tuple(vs), rest)
       case RefusedAll => Refused)
    case Vector(count, item) =>
      (match DecodeItems(item, count, s)
       case GotAll(vs, rest) => Got(Tuple(vs), rest)
       case RefusedAll => Refused)
    case Many(bound, item) =>
      if |s| < WIDTH8 || GetLe(s[..WIDTH8]) > bound then Refused
      else
        (match DecodeItems(item, GetLe(s[..WIDTH8]), s[WIDTH8..])
         case GotAll(vs, rest) => Got(Tuple(vs), rest)
         case RefusedAll => Refused)
    case Framed(bound, inner) =>
      if |s| < WIDTH4 then Refused
      else
        var length := GetLe(s[..WIDTH4]);
        if length > bound || |s| < WIDTH4 + length then Refused
        else
          (match Decode(inner, s[WIDTH4..WIDTH4 + length])
           case Got(v, rest) => if rest == [] then Got(v, s[WIDTH4 + length..]) else Refused
           case Refused => Refused)
  }

  function DecodeFields(fields: seq<Schema>, s: seq<Byte>): ParsedAll
    decreases fields, 0
  {
    if fields == [] then GotAll([], s)
    else
      match Decode(fields[0], s)
      case Refused => RefusedAll
      case Got(v, rest) =>
        match DecodeFields(fields[1..], rest)
        case RefusedAll => RefusedAll
        case GotAll(vs, rest') => GotAll([v] + vs, rest')
  }

  function DecodeItems(item: Schema, count: nat, s: seq<Byte>): ParsedAll
    decreases item, count + 1
  {
    if count == 0 then GotAll([], s)
    else
      match Decode(item, s)
      case Refused => RefusedAll
      case Got(v, rest) =>
        match DecodeItems(item, count - 1, rest)
        case RefusedAll => RefusedAll
        case GotAll(vs, rest') => GotAll([v] + vs, rest')
  }

  /** A whole buffer that holds exactly one record. */
  function DecodeExactly(schema: Schema, s: seq<Byte>): Option<Value> {
    match Decode(schema, s)
    case Got(v, rest) => if rest == [] then Some(v) else None
    case Refused => None
  }

  /* ---------- Laws ---------- */

  /** Encodings of the schema are never empty. */
  predicate Lengthy(schema: Schema)
    decreases schema
  {
    match schema
    case Number(width, _) => width >= 1
    case Constant(width, _) => width >= 1
    case Group(fields) => |fields| >= 1 && Lengthy(fields[0])
    case Vector(count, item) => count >= 1 && Lengthy(item)
    case _ => true
  }

  /** The integers of the schema can hold what it allows, and lists hold something. */
  predicate Sane(schema: Schema)
    decreases schema
  {
    match schema
    case Number(width, max) => max < Pow256(width)
    case Constant(width, value) => value < Pow256(width)
    case Text(bound) => bound < Pow256(WIDTH4)
    case Group(fields) => forall k :: 0 <= k < |fields| ==> Sane(fields[k])
    case Vector(_, item) => Sane(item)
    case Many(bound, item) => bound < Pow256(WIDTH8) && Sane(item) && Lengthy(item)
    case Framed(bound, inner) => bound < Pow256(WIDTH4) && Sane(inner)
    case _ => true
  }

  /** The value is within every ceiling of the schema. */
  predicate Fits(schema: Schema, v: Value)
    requires Typed(schema, v)
    decreases schema
  {
    match schema
    case Number(_, max) => v.n <= max
    case Text(bound) => |v.s| <= bound
    case Group(fields) => forall k :: 0 <= k < |fields| ==> Fits(fields[k], v.items[k])
    case Vector(count, item) => forall k :: 0 <= k < count ==> Fits(item, v.items[k])
    case Many(bound, item) => |v.items| <= bound && forall k :: 0 <= k < |v.items| ==> Fits(item, v.items[k])
    case Framed(bound, inner) => Fits(inner, v) && |Encode(inner, v)| <= bound
    case _ => true
  }

  lemma Prefixed(a: seq<Byte>, b: seq<Byte>)
    ensures (a + b)[..|a|] == a && (a + b)[|a|..] == b && |a + b| == |a| + |b|
  {
  }

  lemma NumberReads(width: nat, n: nat, rest: seq<Byte>)
    requires n < Pow256(width)
    ensures var s := PutLe(width, n) + rest;
            |s| >= width && GetLe(s[..width]) == n && s[width..] == rest
  {
    Prefixed(PutLe(width, n), rest);
    PutGetExact(width, n);
  }

  /** A length field, what it counts, and what follows. */
  lemma FrameReads(body: seq<Byte>, rest: seq<Byte>)
    requires |body| < Pow256(WIDTH4)
    ensures var s := PutLe(WIDTH4, |body|) + body + rest;
            && |s| >= WIDTH4 + |body| && GetLe(s[..WIDTH4]) == |body|
            && s[WIDTH4..WIDTH4 + |body|] == body && s[WIDTH4 + |body|..] == rest
  {
    var s := PutLe(WIDTH4, |body|) + body + rest;
    assert s == PutLe(WIDTH4, |body|) + (body + rest);
    NumberReads(WIDTH4, |body|, body + rest);
    Prefixed(body, rest);
    assert s[WIDTH4..WIDTH4 + |body|] == s[WIDTH4..][..|body|];
    assert s[WIDTH4 + |body|..] == s[WIDTH4..][|body|..];
  }

  lemma SignedReads(i: int, rest: seq<Byte>)
    requires -0x8000_0000 <= i < 0x8000_0000
    ensures Decode(Signed32, Encode(Signed32, Int(i)) + rest) == Got(Int(i), rest)
  {
    var raw := i % WORD32;
    assert raw == if i >= 0 then i else i + WORD32;
    assert Pow256(WIDTH4) == WORD32 by {
      Pow256Values();
    }
    NumberReads(WIDTH4, raw, rest);
  }

  /** Decoding gives back what was encoded, and leaves what follows untouched. */
  lemma {:induction false} RoundTrip(schema: Schema, v: Value, rest: seq<Byte>)
    requires Sane(schema) && Typed(schema, v) && Fits(schema, v)
    ensures Decode(schema, Encode(schema, v) + rest) == Got(v, rest)
    decreases schema, 0
  {
    match schema
    case Number(width, max) => NumberReads(width, v.n, rest);
    case Constant(width, value) => NumberReads(width, value, rest);
    case Flag =>
      assert (Encode(schema, v) + rest)[1..] == rest;
    case Signed32 => SignedReads(v.i, rest);
    case Text(bound) => FrameReads(v.s, rest);
    case Hex => HexReads(v, rest);
    case Group(fields) => FieldsRoundTrip(fields, v.items, rest);
    case Vector(count, item) => ItemsRoundTrip(item, v.items, rest);
    case Many(bound, item) => ManyRoundTrip(bound, item, v, rest);
    case Framed(bound, inner) => FramedRoundTrip(bound, inner, v, rest);
  }

  lemma HexReads(v: Value, rest: seq<Byte>)
    requires Typed(Hex, v)
    ensures Decode(Hex, Encode(Hex, v) + rest) == Got(v, rest)
  {
    assert 64 < Pow256(WIDTH4) by {
      Pow256Values();
    }
    FrameReads(ToHex(v.s), rest);
    HexRoundTrip(v.s);
  }

  lemma {:induction false} FramedRoundTrip(bound: nat, inner: Schema, v: Value, rest: seq<Byte>)
    requires Sane(Framed(bound, inner)) && Typed(inner, v) && Fits(Framed(bound, inner), v)
    ensures Decode(Framed(bound, inner), Encode(Framed(bound, inner), v) + rest) == Got(v, rest)
    decreases inner, 1
  {
    var e := Encode(inner, v);
    FrameReads(e, rest);
    assert e + [] == e;
    RoundTrip(inner, v, []);
  }

  lemma {:induction false} ManyRoundTrip(bound: nat, item: Schema, v: Value, rest: seq<Byte>)
    requires Sane(Many(bound, item)) && Typed(Many(bound, item), v) && Fits(Many(bound, item), v)
    ensures Decode(Many(bound, item), Encode(Many(bound, item), v) + rest) == Got(v, rest)
    decreases item, |v.items| + 2
  {
    var body := EncodeItems(item, v.items);
    assert Encode(Many(bound, item), v) + rest == PutLe(WIDTH8, |v.items|) + (body + rest);
    NumberReads(WIDTH8, |v.items|, body + rest);
    ItemsRoundTrip(item, v.items, rest);
  }

  ghost predicate AllFit(fields: seq<Schema>, vs: seq<Value>) {
    |vs| == |fields| && forall k :: 0 <= k < |fields| ==> Sane(fields[k]) && Typed(fields[k], vs[k]) && Fits(fields[k], vs[k])
  }

  lemma RestFits(fields: seq<Schema>, vs: seq<Value>)
    requires AllFit(fields, vs) && fields != []
    ensures AllFit(fields[1..], vs[1..])
  {
    hide Sane;
    hide Typed;
    hide Fits;
    forall k | 0 <= k < |fields[1..]|
      ensures Sane(fields[1..][k]) && Typed(fields[1..][k], vs[1..][k]) && Fits(fields[1..][k], vs[1..][k])
    {
      assert fields[1..][k] == fields[k + 1] && vs[1..][k] == vs[k + 1];
    }
  }

  lemma {:induction false} FieldsRoundTrip(fields: seq<Schema>, vs: seq<Value>, rest: seq<Byte>)
    requires AllFit(fields, vs)
    ensures DecodeFields(fields, EncodeFields(fields, vs) + rest) == GotAll(vs, rest)
    decreases fields, 0
  {
    hide Decode;
    hide Encode;
    hide Sane;
    hide Typed;
    hide Fits;
    if fields == [] {
      assert EncodeFields(fields, vs) + rest == rest;
    } else {
      RestFits(fields, vs);
      FirstField(fields, vs, rest);
      RoundTrip(fields[0], vs[0], EncodeFields(fields[1..], vs[1..]) + rest);
      FieldsRoundTrip(fields[1..], vs[1..], rest);
      assert vs == [vs[0]] + vs[1..];
    }
  }

  lemma FirstField(fields: seq<Schema>, vs: seq<Value>, rest: seq<Byte>)
    requires AllFit(fields, vs) && fields != [] && AllFit(fields[1..], vs[1..])
    ensures EncodeFields(fields, vs) + rest == Encode(fields[0], vs[0]) + (EncodeFields(fields[1..], vs[1..]) + rest)
  {
    hide Encode;
    hide Sane;
    hide Typed;
    hide Fits;
  }

  lemma {:induction false} ItemsRoundTrip(item: Schema, vs: seq<Value>, rest: seq<Byte>)
    requires Sane(item) && forall k :: 0 <= k < |vs| ==> Typed(item, vs[k]) && Fits(item, vs[k])
    ensures DecodeItems(item, |vs|, EncodeItems(item, vs) + rest) == GotAll(vs, rest)
    decreases item, |vs| + 1
  {
    hide Decode;
    hide Encode;
    hide Sane;
    hide Typed;
    hide Fits;
    if vs == [] {
      assert EncodeItems(item, vs) + rest == rest;
    } else {
      var first, more := Encode(item, vs[0]), EncodeItems(item, vs[1..]);
      assert EncodeItems(item, vs) + rest == first + (more + rest);
      RoundTrip(item, vs[0], more + rest);
      ItemsRoundTrip(item, vs[1..], rest);
      assert vs == [vs[0]] + vs[1..];
    }
  }

  /* ---------- Locality ---------- */

  /** What follows a record does not influence how the record is read. */
  lemma {:induction false} Local(schema: Schema, s: seq<Byte>, t: seq<Byte>)
    requires Decode(schema, s).Got?
    ensures Decode(schema, s + t) == Got(Decode(schema, s).value, Decode(schema, s).rest + t)
    decreases schema, 0
  {
    match schema
    case Number(width, max) => SplitAt(s, t, width);
    case Constant(width, value) => SplitAt(s, t, width);
    case Flag =>
      assert (s + t)[1..] == s[1..] + t;
    case Signed32 => SplitAt(s, t, WIDTH4);
    case Text(bound) => FrameLocal(s, t);
    case Hex =>
      SplitAt(s, t, WIDTH4);
      SplitAt(s, t, WIDTH4 + 64);
      assert (s + t)[WIDTH4..WIDTH4 + 64] == s[WIDTH4..WIDTH4 + 64];
    case Group(fields) => FieldsLocal(fields, s, t);
    case Vector(count, item) => ItemsLocal(item, count, s, t);
    case Many(bound, item) =>
      SplitAt(s, t, WIDTH8);
      ItemsLocal(item, GetLe(s[..WIDTH8]), s[WIDTH8..], t);
    case Framed(bound, inner) => FrameLocal(s, t);
  }

  lemma SplitAt(s: seq<Byte>, t: seq<Byte>, n: nat)
    requires n <= |s|
    ensures (s + t)[..n] == s[..n] && (s + t)[n..] == s[n..] + t && |s + t| >= n
  {
  }

  lemma FrameLocal(s: seq<Byte>, t: seq<Byte>)
    requires |s| >= WIDTH4 && |s| >= WIDTH4 + GetLe(s[..WIDTH4])
    ensures var n := GetLe(s[..WIDTH4]);
            && |s + t| >= WIDTH4 + n && GetLe((s + t)[..WIDTH4]) == n
            && (s + t)[WIDTH4..WIDTH4 + n] == s[WIDTH4..WIDTH4 + n] && (s + t)[WIDTH4 + n..] == s[WIDTH4 + n..] + t
  {
    var n := GetLe(s[..WIDTH4]);
    SplitAt(s, t, WIDTH4);
    SplitAt(s, t, WIDTH4 + n);
    assert (s + t)[WIDTH4..WIDTH4 + n] == s[WIDTH4..WIDTH4 + n];
  }

  lemma {:induction false} FieldsLocal(fields: seq<Schema>, s: seq<Byte>, t: seq<Byte>)
    requires DecodeFields(fields, s).GotAll?
    ensures DecodeFields(fields, s + t) == GotAll(DecodeFields(fields, s).values, DecodeFields(fields, s).rest + t)
    decreases fields, 0
  {
    hide Decode;
    if fields != [] {
      Local(fields[0], s, t);
      FieldsLocal(fields[1..], Decode(fields[0], s).rest, t);
    }
  }

  lemma {:induction false} ItemsLocal(item: Schema, count: nat, s: seq<Byte>, t: seq<Byte>)
    requires DecodeItems(item, count, s).GotAll?
    ensures DecodeItems(item, count, s + t) == GotAll(DecodeItems(item, count, s).values, DecodeItems(item, count, s).rest + t)
    decreases item, count + 1
  {
    hide Decode;
    if count > 0 {
      Local(item, s, t);
      ItemsLocal(item, count - 1, Decode(item, s).rest, t);
    }
  }

  /** Every strict prefix and every extension of an encoding is refused. */
  lemma OnlyTheWhole(schema: Schema, v: Value, s: seq<Byte>, t: seq<Byte>)
    requires Sane(schema) && Typed(schema, v) && Fits(schema, v) && t != []
    ensures s + t == Encode(schema, v) ==> DecodeExactly(schema, s).None?
    ensures s == Encode(schema, v) + t ==> DecodeExactly(schema, s).None?
  {
    hide Decode;
    hide Encode;
    var e := Encode(schema, v);
    RoundTrip(schema, v, []);
    RoundTrip(schema, v, t);
    assert e + [] == e;
    if s + t == e && Decode(schema, s).Got? {
      Local(schema, s, t);
    }
  }

  /* ---------- What the decoder can yield ---------- */

  /** The decoder yields only values within the ceilings, of exactly the length it consumed. */
  lemma {:induction false} DecodedFits(schema: Schema, s: seq<Byte>)
    requires Decode(schema, s).Got?
    ensures var v := Decode(schema, s).value;
            Typed(schema, v) && Fits(schema, v) && |Encode(schema, v)| + |Decode(schema, s).rest| == |s|
    decreases schema, 0
  {
    match schema
    case Number(width, max) =>
    case Constant(width, value) =>
    case Flag =>
    case Signed32 => SignedFits(s);
    case Text(bound) =>
    case Hex =>
    case Group(fields) => FieldsFit(fields, s);
    case Vector(count, item) => ItemsFit(item, count, s);
    case Many(bound, item) => ItemsFit(item, GetLe(s[..WIDTH8]), s[WIDTH8..]);
    case Framed(bound, inner) => FramedFits(bound, inner, s);
  }

  lemma {:induction false} FramedFits(bound: nat, inner: Schema, s: seq<Byte>)
    requires Decode(Framed(bound, inner), s).Got?
    ensures var v := Decode(Framed(bound, inner), s).value;
            && Typed(inner, v) && Fits(Framed(bound, inner), v)
            && |Encode(Framed(bound, inner), v)| + |Decode(Framed(bound, inner), s).rest| == |s|
    decreases inner, 1
  {
    var length := GetLe(s[..WIDTH4]);
    DecodedFits(inner, s[WIDTH4..WIDTH4 + length]);
  }

  lemma SignedFits(s: seq<Byte>)
    requires |s| >= WIDTH4
    ensures Typed(Signed32, Decode(Signed32, s).value)
  {
    Pow256Values();
    GetLeBound(s[..WIDTH4]);
  }

  lemma {:induction false} FieldsFit(fields: seq<Schema>, s: seq<Byte>)
    requires DecodeFields(fields, s).GotAll?
    ensures var vs := DecodeFields(fields, s).values;
            && |vs| == |fields|
            && (forall k :: 0 <= k < |fields| ==> Typed(fields[k], vs[k]) && Fits(fields[k], vs[k]))
            && |EncodeFields(fields, vs)| + |DecodeFields(fields, s).rest| == |s|
    decreases fields, 0
  {
    hide Decode;
    hide Encode;
    hide Typed;
    hide Fits;
    if fields != [] {
      DecodedFits(fields[0], s);
      FieldsFit(fields[1..], Decode(fields[0], s).rest);
      var vs := DecodeFields(fields, s).values;
      assert vs[1..] == DecodeFields(fields[1..], Decode(fields[0], s).rest).values;
      forall k | 0 <= k < |fields|
        ensures Typed(fields[k], vs[k]) && Fits(fields[k], vs[k])
      {
        if k > 0 {
          assert fields[k] == fields[1..][k - 1] && vs[k] == vs[1..][k - 1];
        }
      }
    }
  }

  lemma {:induction false} ItemsFit(item: Schema, count: nat, s: seq<Byte>)
    requires DecodeItems(item, count, s).GotAll?
    ensures var vs := DecodeItems(item, count, s).values;
            && |vs| == count
            && (forall k :: 0 <= k < count ==> Typed(item, vs[k]) && Fits(item, vs[k]))
            && |EncodeItems(item, vs)| + |DecodeItems(item, count, s).rest| == |s|
    decreases item, count + 1
  {
    hide Decode;
    hide Encode;
    hide Typed;
    hide Fits;
    if count > 0 {
      DecodedFits(item, s);
      ItemsFit(item, count - 1, Decode(item, s).rest);
      var vs := DecodeItems(item, count, s).values;
      assert vs[1..] == DecodeItems(item, count - 1, Decode(item, s).rest).values;
      forall k | 0 <= k < count
        ensures Typed(item, vs[k]) && Fits(item, vs[k])
      {
        if k > 0 {
          assert vs[k] == vs[1..][k - 1];
        }
      }
    }
  }

  /** A value survives encoding and decoding exactly when it is within the ceilings. */
  lemma RoundTripIff(schema: Schema, v: Value)
    requires Sane(schema) && Typed(schema, v)
    ensures DecodeExactly(schema, Encode(schema, v)) == Some(v) <==> Fits(schema, v)
  {
    hide Decode;
    hide Encode;
    var e := Encode(schema, v);
    if Fits(schema, v) {
      RoundTrip(schema, v, []);
      assert e + [] == e;
    } else if Decode(schema, e).Got? {
      DecodedFits(schema, e);
    }
  }

  /* ---------- Values beyond a ceiling ---------- */

  /** Every integer is within the width it is written in. */
  predicate Whole(schema: Schema, v: Value)
    requires Typed(schema, v)
    decreases schema
  {
    match schema
    case Number(width, _) => v.n < Pow256(width)
    case Group(fields) => forall k :: 0 <= k < |fields| ==> Whole(fields[k], v.items[k])
    case Vector(count, item) => forall k :: 0 <= k < count ==> Whole(item, v.items[k])
    case Many(_, item) => forall k :: 0 <= k < |v.items| ==> Whole(item, v.items[k])
    case Framed(_, inner) => Whole(inner, v)
    case _ => true
  }

  /** Every integer and every length is written in full. */
  predicate Exact(schema: Schema, v: Value)
    requires Typed(schema, v)
    decreases schema
  {
    match schema
    case Number(width, _) => v.n < Pow256(width)
    case Text(_) => |v.s| < Pow256(WIDTH4)
    case Group(fields) => forall k :: 0 <= k < |fields| ==> Exact(fields[k], v.items[k])
    case Vector(count, item) => forall k :: 0 <= k < count ==> Exact(item, v.items[k])
    case Many(_, item) => |v.items| < Pow256(WIDTH8) && forall k :: 0 <= k < |v.items| ==> Exact(item, v.items[k])
    case Framed(_, inner) => Exact(inner, v) && |Encode(inner, v)| < Pow256(WIDTH4)
    case _ => true
  }

  /** What is beyond a ceiling is written in full and refused when read. */
  lemma {:induction false} UnfitRefused(schema: Schema, v: Value, rest: seq<Byte>)
    requires Sane(schema) && Typed(schema, v) && Exact(schema, v) && !Fits(schema, v)
    ensures Decode(schema, Encode(schema, v) + rest) == Refused
    decreases schema, 0
  {
    match schema
    case Number(width, max) => NumberReads(width, v.n, rest);
    case Text(bound) => FrameReads(v.s, rest);
    case Group(fields) => FieldsRefused(fields, v.items, rest);
    case Vector(count, item) => ItemsRefused(item, v.items, rest);
    case Many(bound, item) => ManyRefused(bound, item, v, rest);
    case Framed(bound, inner) =>
      var e := Encode(inner, v);
      FrameReads(e, rest);
      assert e + [] == e;
      if !Fits(inner, v) {
        UnfitRefused(inner, v, []);
      }
  }

  lemma {:induction false} ManyRefused(bound: nat, item: Schema, v: Value, rest: seq<Byte>)
    requires Sane(Many(bound, item)) && Typed(Many(bound, item), v) && Exact(Many(bound, item), v) && !Fits(Many(bound, item), v)
    ensures Decode(Many(bound, item), Encode(Many(bound, item), v) + rest) == Refused
    decreases item, |v.items| + 2
  {
    var body := EncodeItems(item, v.items);
    assert Encode(Many(bound, item), v) + rest == PutLe(WIDTH8, |v.items|) + (body + rest);
    NumberReads(WIDTH8, |v.items|, body + rest);
    if |v.items| <= bound {
      ItemsRefused(item, v.items, rest);
    }
  }

  lemma {:induction false} FieldsRefused(fields: seq<Schema>, vs: seq<Value>, rest: seq<Byte>)
    requires |vs| == |fields| && forall k :: 0 <= k < |fields| ==> Sane(fields[k]) && Typed(fields[k], vs[k]) && Exact(fields[k], vs[k])
    requires exists k :: 0 <= k < |fields| && !Fits(fields[k], vs[k])
    ensures DecodeFields(fields, EncodeFields(fields, vs) + rest) == RefusedAll
    decreases fields, 0
  {
    hide Decode;
    hide Encode;
    hide Sane;
    hide Typed;
    hide Fits;
    hide Exact;
    var k :| 0 <= k < |fields| && !Fits(fields[k], vs[k]);
    var first, more := Encode(fields[0], vs[0]), EncodeFields(fields[1..], vs[1..]);
    assert EncodeFields(fields, vs) + rest == first + (more + rest);
    if Fits(fields[0], vs[0]) {
      RoundTrip(fields[0], vs[0], more + rest);
      assert fields[1..][k - 1] == fields[k] && vs[1..][k - 1] == vs[k];
      FieldsRefused(fields[1..], vs[1..], rest);
    } else {
      UnfitRefused(fields[0], vs[0], more + rest);
    }
  }

  lemma {:induction false} ItemsRefused(item: Schema, vs: seq<Value>, rest: seq<Byte>)
    requires Sane(item) && forall k :: 0 <= k < |vs| ==> Typed(item, vs[k]) && Exact(item, vs[k])
    requires exists k :: 0 <= k < |vs| && !Fits(item, vs[k])
    ensures DecodeItems(item, |vs|, EncodeItems(item, vs) + rest) == RefusedAll
    decreases item, |vs| + 1
  {
    hide Decode;
    hide Encode;
    hide Sane;
    hide Typed;
    hide Fits;
    hide Exact;
    var k :| 0 <= k < |vs| && !Fits(item, vs[k]);
    var first, more := Encode(item, vs[0]), EncodeItems(item, vs[1..]);
    assert EncodeItems(item, vs) + rest == first + (more + rest);
    if Fits(item, vs[0]) {
      RoundTrip(item, vs[0], more + rest);
      assert vs[1..][k - 1] == vs[k];
      ItemsRefused(item, vs[1..], rest);
    } else {
      UnfitRefused(item, vs[0], more + rest);
    }
  }

  /* ---------- Short encodings are written in full ---------- */

  lemma {:induction false} LengthyEncodes(schema: Schema, v: Value)
    requires Typed(schema, v) && Lengthy(schema)
    ensures |Encode(schema, v)| >= 1
    decreases schema
  {
    match schema
    case Group(fields) => LengthyEncodes(fields[0], v.items[0]);
    case Vector(count, item) => LengthyEncodes(item, v.items[0]);
    case _ =>
  }

  lemma {:induction false} ItemsLength(item: Schema, vs: seq<Value>)
    requires forall k :: 0 <= k < |vs| ==> Typed(item, vs[k])
    ensures forall k :: 0 <= k < |vs| ==> |Encode(item, vs[k])| <= |EncodeItems(item, vs)|
    ensures Lengthy(item) ==> |vs| <= |EncodeItems(item, vs)|
    decreases |vs|
  {
    hide Encode;
    hide Typed;
    hide Lengthy;
    if vs != [] {
      ItemsLength(item, vs[1..]);
      if Lengthy(item) {
        LengthyEncodes(item, vs[0]);
      }
      forall k | 0 <= k < |vs|
        ensures |Encode(item, vs[k])| <= |EncodeItems(item, vs)|
      {
        if k > 0 {
          assert vs[k] == vs[1..][k - 1];
        }
      }
    }
  }

  lemma {:induction false} FieldsLength(fields: seq<Schema>, vs: seq<Value>)
    requires |vs| == |fields| && forall k :: 0 <= k < |fields| ==> Typed(fields[k], vs[k])
    ensures forall k :: 0 <= k < |fields| ==> |Encode(fields[k], vs[k])| <= |EncodeFields(fields, vs)|
    decreases |fields|
  {
    hide Encode;
    hide Typed;
    if fields != [] {
      assert forall k :: 0 <= k < |fields[1..]| ==> fields[1..][k] == fields[k + 1] && vs[1..][k] == vs[k + 1];
      FieldsLength(fields[1..], vs[1..]);
      forall k | 0 <= k < |fields|
        ensures |Encode(fields[k], vs[k])| <= |EncodeFields(fields, vs)|
      {
        if k > 0 {
          assert fields[k] == fields[1..][k - 1] && vs[k] == vs[1..][k - 1];
        }
      }
    }
  }

  /** An encoding below 4 GiB truncates no length and no count. */
  lemma {:induction false} ShortMeansExact(schema: Schema, v: Value)
    requires Sane(schema) && Typed(schema, v) && Whole(schema, v) && |Encode(schema, v)| < Pow256(WIDTH4)
    ensures Exact(schema, v)
    decreases schema, 0
  {
    match schema
    case Group(fields) =>
      FieldsLength(fields, v.items);
      forall k | 0 <= k < |fields|
        ensures Exact(fields[k], v.items[k])
      {
        ShortMeansExact(fields[k], v.items[k]);
      }
    case Vector(count, item) => ShortItems(item, v.items);
    case Many(bound, item) =>
      Pow256Values();
      ShortItems(item, v.items);
      ItemsLength(item, v.items);
    case Framed(bound, inner) => ShortMeansExact(inner, v);
    case _ =>
  }

  lemma {:induction false} ShortItems(item: Schema, vs: seq<Value>)
    requires Sane(item) && forall k :: 0 <= k < |vs| ==> Typed(item, vs[k]) && Whole(item, vs[k])
    requires |EncodeItems(item, vs)| < Pow256(WIDTH4)
    ensures forall k :: 0 <= k < |vs| ==> Exact(item, vs[k])
    decreases item, 1
  {
    ItemsLength(item, vs);
    forall k | 0 <= k < |vs|
      ensures Exact(item, vs[k])
    {
      ShortMeansExact(item, vs[k]);
    }
  }

  /** The exact verdict of the decoder on an encoding below 4 GiB: the value, if it is within
      every ceiling, and a refusal otherwise. */
  lemma Verdict(schema: Schema, v: Value)
    requires Sane(schema) && Typed(schema, v) && Whole(schema, v) && |Encode(schema, v)| < Pow256(WIDTH4)
    ensures DecodeExactly(schema, Encode(schema, v)) == if Fits(schema, v) then Some(v) else None
  {
    hide Encode;
    hide Decode;
    hide Fits;
    hide Sane;
    hide Typed;
    hide Whole;
    hide Exact;
    assert Encode(schema, v) + [] == Encode(schema, v);
    if Fits(schema, v) {
      RoundTrip(schema, v, []);
    } else {
      ShortMeansExact(schema, v);
      UnfitRefused(schema, v, []);
    }
  }
}
