/** The durable records and their encodings (src/core/persistence.cpp:195-885 and
    src/core/runtime.cpp:29-190). Each record has a schema, a value of that schema for each
    record, and a record for each value. */
module Codec {
  import opened StrongId
  import opened Bytes
  import opened Wrappers
  import opened Phases
  import opened PhasePlans
  import opened Wire
  import Artifacts

  const SCHEMA_VERSION: nat := 1
  const MAX_STRING: nat := 8192
  const MAX_PATH: nat := 32768
  const MAX_BLOB: nat := 0x40_0000
  const MAX_COLLECTION: nat := 65536

  /* ---------- Primitive fields ---------- */

  const U64_MAX: nat := 0xFFFF_FFFF_FFFF_FFFF
  const U32_MAX: nat := 0xFFFF_FFFF

  function Version(): Schema { Constant(WIDTH2, SCHEMA_VERSION) }
  function WordField(): Schema { Number(WIDTH8, U64_MAX) }
  function Word32Field(): Schema { Number(WIDTH4, U32_MAX) }
  function EnumField(max: nat): Schema { Number(WIDTH1, max) }
  function StatusField(): Schema { Number(WIDTH2, 200) }
  function StringField(): Schema { Text(MAX_STRING) }
  function WordsField(count: nat): Schema { Vector(count, WordField()) }
  function IdsField(bound: nat): Schema { Many(bound, WordField()) }
  function RefsField(bound: nat): Schema { Many(bound, WordsField(2)) }

  /* ---------- Reading values ---------- */

  function Item(v: Value, k: nat): Value { if v.Tuple? && k < |v.items| then v.items[k] else Unit }
  function Items(v: Value): seq<Value> { if v.Tuple? then v.items else [] }
  function U64Of(v: Value): U64 { if v.Num? && v.n <= U64_MAX then v.n else 0 }
  function U32Of(v: Value): U32 { if v.Num? && v.n <= U32_MAX then v.n else 0 }
  function I32Of(v: Value): I32 { if v.Int? && -0x8000_0000 <= v.i < 0x8000_0000 then v.i else 0 }
  function BoolOf(v: Value): bool { v.Bit? && v.b }
  function TextOf(v: Value): seq<Byte> { if v.Octets? then v.s else [] }
  function DigestOf(v: Value): DigestBytes { if v.Octets? && |v.s| == 32 then v.s else ZERO_DIGEST }
  function StatusOf(v: Value): StatusCode { if v.Num? && v.n <= 200 then v.n else 0 }
  function KindOf(v: Value): PhaseKind { if v.Num? && v.n <= 16 then v.n else 0 }
  function FormatOf(v: Value): ObjectFormat { if v.Num? && v.n <= 12 then v.n else 0 }

  function Words(ns: seq<U64>): Value { Tuple(seq(|ns|, k requires 0 <= k < |ns| => Num(ns[k]))) }
  function WordsOf(v: Value): seq<U64> { seq(|Items(v)|, k requires 0 <= k < |Items(v)| => U64Of(Items(v)[k])) }

  function RefValue(r: Ref): Value { Words([r.id, r.generation]) }
  function RefOf(v: Value): Ref { Ref(U64Of(Item(v, 0)), U64Of(Item(v, 1))) }
  function RefsValue(rs: seq<Ref>): Value { Tuple(seq(|rs|, k requires 0 <= k < |rs| => RefValue(rs[k]))) }
  function RefsOf(v: Value): seq<Ref> { seq(|Items(v)|, k requires 0 <= k < |Items(v)| => RefOf(Items(v)[k])) }

  lemma WordsLaws(ns: seq<U64>)
    ensures WordsOf(Words(ns)) == ns
    ensures Typed(WordsField(|ns|), Words(ns)) && Whole(WordsField(|ns|), Words(ns)) && Fits(WordsField(|ns|), Words(ns))
    ensures forall bound :: Typed(IdsField(bound), Words(ns)) && Whole(IdsField(bound), Words(ns)) && (Fits(IdsField(bound), Words(ns)) <==> |ns| <= bound)
  {
  }

  lemma WordsAt(ns: seq<U64>)
    ensures forall k :: 0 <= k < |ns| ==> U64Of(Item(Words(ns), k)) == ns[k]
  {
  }

  lemma RefLaws(r: Ref)
    ensures RefOf(RefValue(r)) == r && Typed(WordsField(2), RefValue(r)) && Whole(WordsField(2), RefValue(r)) && Fits(WordsField(2), RefValue(r))
  {
    WordsLaws([r.id, r.generation]);
  }

  lemma RefsLaws(rs: seq<Ref>, bound: nat)
    ensures RefsOf(RefsValue(rs)) == rs
    ensures Typed(RefsField(bound), RefsValue(rs)) && Whole(RefsField(bound), RefsValue(rs)) && (Fits(RefsField(bound), RefsValue(rs)) <==> |rs| <= bound)
  {
    hide Typed;
    hide Fits;
    hide Whole;
    forall k | 0 <= k < |rs|
      ensures RefOf(RefValue(rs[k])) == rs[k] && Typed(WordsField(2), RefValue(rs[k])) && Whole(WordsField(2), RefValue(rs[k])) && Fits(WordsField(2), RefValue(rs[k]))
    {
      RefLaws(rs[k]);
    }
    ManyLaws(bound, WordsField(2), RefsValue(rs).items);
  }

  /** A list fits when its items do and there are not too many. */
  lemma ManyLaws(bound: nat, item: Schema, vs: seq<Value>)
    requires forall k :: 0 <= k < |vs| ==> Typed(item, vs[k])
    ensures Typed(Many(bound, item), Tuple(vs))
    ensures (forall k :: 0 <= k < |vs| ==> Whole(item, vs[k])) ==> Whole(Many(bound, item), Tuple(vs))
    ensures Fits(Many(bound, item), Tuple(vs)) <==> |vs| <= bound && forall k :: 0 <= k < |vs| ==> Fits(item, vs[k])
  {
  }

  /* ---------- Groups of fields ---------- */

  function G2(a: Schema, b: Schema): Schema { Group([a, b]) }
  function G3(a: Schema, b: Schema, c: Schema): Schema { Group([a, b, c]) }
  function G4(a: Schema, b: Schema, c: Schema, d: Schema): Schema { Group([a, b, c, d]) }

  function T2(u: Value, v: Value): Value { Tuple([u, v]) }
  function T3(u: Value, v: Value, w: Value): Value { Tuple([u, v, w]) }
  function T4(u: Value, v: Value, w: Value, x: Value): Value { Tuple([u, v, w, x]) }

  lemma G2Laws(a: Schema, b: Schema, u: Value, v: Value)
    requires Typed(a, u) && Typed(b, v)
    ensures Typed(G2(a, b), T2(u, v)) && (Fits(G2(a, b), T2(u, v)) <==> Fits(a, u) && Fits(b, v))
    ensures Sane(a) && Sane(b) ==> Sane(G2(a, b))
    ensures Whole(a, u) && Whole(b, v) ==> Whole(G2(a, b), T2(u, v))
    ensures Item(T2(u, v), 0) == u && Item(T2(u, v), 1) == v
  {
    var fields, vs := [a, b], [u, v];
    assert fields[0] == a && fields[1] == b && vs[0] == u && vs[1] == v;
    assert Typed(Group(fields), Tuple(vs));
  }

  lemma G3Laws(a: Schema, b: Schema, c: Schema, u: Value, v: Value, w: Value)
    requires Typed(a, u) && Typed(b, v) && Typed(c, w)
    ensures Typed(G3(a, b, c), T3(u, v, w))
    ensures Fits(G3(a, b, c), T3(u, v, w)) <==> Fits(a, u) && Fits(b, v) && Fits(c, w)
    ensures Sane(a) && Sane(b) && Sane(c) ==> Sane(G3(a, b, c))
    ensures Whole(a, u) && Whole(b, v) && Whole(c, w) ==> Whole(G3(a, b, c), T3(u, v, w))
    ensures Item(T3(u, v, w), 0) == u && Item(T3(u, v, w), 1) == v && Item(T3(u, v, w), 2) == w
  {
    var fields, vs := [a, b, c], [u, v, w];
    assert fields[0] == a && fields[1] == b && fields[2] == c && vs[0] == u && vs[1] == v && vs[2] == w;
    assert Typed(Group(fields), Tuple(vs));
  }

  lemma G4Laws(a: Schema, b: Schema, c: Schema, d: Schema, u: Value, v: Value, w: Value, x: Value)
    requires Typed(a, u) && Typed(b, v) && Typed(c, w) && Typed(d, x)
    ensures Typed(G4(a, b, c, d), T4(u, v, w, x))
    ensures Fits(G4(a, b, c, d), T4(u, v, w, x)) <==> Fits(a, u) && Fits(b, v) && Fits(c, w) && Fits(d, x)
    ensures Sane(a) && Sane(b) && Sane(c) && Sane(d) ==> Sane(G4(a, b, c, d))
    ensures Whole(a, u) && Whole(b, v) && Whole(c, w) && Whole(d, x) ==> Whole(G4(a, b, c, d), T4(u, v, w, x))
    ensures Item(T4(u, v, w, x), 0) == u && Item(T4(u, v, w, x), 1) == v
    ensures Item(T4(u, v, w, x), 2) == w && Item(T4(u, v, w, x), 3) == x
  {
    var fields, vs := [a, b, c, d], [u, v, w, x];
    assert fields[0] == a && fields[1] == b && fields[2] == c && fields[3] == d;
    assert vs[0] == u && vs[1] == v && vs[2] == w && vs[3] == x;
    assert Typed(Group(fields), Tuple(vs));
  }

  /** Single fields: shape, ceiling, sanity. */
  lemma FieldLaws(n: nat, max: nat, s: seq<Byte>, bound: nat, b: bool, d: DigestBytes, i: I32)
    ensures Typed(WordField(), Num(n)) && (Fits(WordField(), Num(n)) <==> n <= U64_MAX) && Sane(WordField())
    ensures Typed(Word32Field(), Num(n)) && (Fits(Word32Field(), Num(n)) <==> n <= U32_MAX) && Sane(Word32Field())
    ensures Typed(EnumField(max), Num(n)) && (Fits(EnumField(max), Num(n)) <==> n <= max) && (max < 256 ==> Sane(EnumField(max)))
    ensures Typed(StatusField(), Num(n)) && (Fits(StatusField(), Num(n)) <==> n <= 200) && Sane(StatusField())
    ensures Typed(Text(bound), Octets(s)) && (Fits(Text(bound), Octets(s)) <==> |s| <= bound) && (bound <= MAX_BLOB * 2 ==> Sane(Text(bound)))
    ensures Typed(Flag, Bit(b)) && Fits(Flag, Bit(b)) && Sane(Flag)
    ensures Typed(Hex, Octets(d)) && Fits(Hex, Octets(d)) && Sane(Hex)
    ensures Typed(Signed32, Int(i)) && Fits(Signed32, Int(i)) && Sane(Signed32)
    ensures Typed(Version(), Unit) && Fits(Version(), Unit) && Sane(Version())
    ensures (n <= U64_MAX ==> Whole(WordField(), Num(n))) && (n <= U32_MAX ==> Whole(Word32Field(), Num(n)))
    ensures (n < 256 ==> Whole(EnumField(max), Num(n))) && (n <= 200 ==> Whole(StatusField(), Num(n)))
    ensures Whole(Text(bound), Octets(s)) && Whole(Flag, Bit(b)) && Whole(Hex, Octets(d)) && Whole(Signed32, Int(i)) && Whole(Version(), Unit)
  {
    Pow256Values();
  }

  /** Groups that start with something are not empty. */
  lemma GroupLengthy(a: Schema, b: Schema, c: Schema, d: Schema)
    requires Lengthy(a)
    ensures Lengthy(G2(a, b)) && Lengthy(G3(a, b, c)) && Lengthy(G4(a, b, c, d))
  {
  }

  lemma ListSanity(count: nat, bound: nat, item: Schema)
    ensures Sane(WordsField(count)) && (bound <= MAX_BLOB ==> Sane(IdsField(bound)) && Sane(RefsField(bound)))
    ensures Sane(item) && Lengthy(item) && bound <= MAX_BLOB ==> Sane(Many(bound, item))
    ensures Sane(item) && bound <= MAX_BLOB * 2 ==> Sane(Framed(bound, item))
  {
    Pow256Values();
  }

  /* ---------- Enumerations ---------- */

  const STATES: seq<PhaseState> :=
    [Pending, Ready, Preparing, Running, Produced, Validating, CommitReady, Committed, Failed, Cancelled, Fenced,
     RecoveryRequired, Retired]

  function StateCode(s: PhaseState): (n: nat)
    ensures n <= 12
  {
    match s
    case Pending => 0
    case Ready => 1
    case Preparing => 2
    case Running => 3
    case Produced => 4
    case Validating => 5
    case CommitReady => 6
    case Committed => 7
    case Failed => 8
    case Cancelled => 9
    case Fenced => 10
    case RecoveryRequired => 11
    case Retired => 12
  }

  function StateOf(v: Value): PhaseState { if v.Num? && v.n <= 12 then STATES[v.n] else Pending }

  const FAILURES: seq<FailureClass> :=
    [NoFailure, ProcessCrash, ProcessInterrupted, TransientWorkspaceFailure, TransientStorageFailure,
     RetrySafeToolInvocationFailure, ExternalCancellation, InvalidSource, DeterministicCompilerError, UnsupportedTarget,
     UnsupportedOption, InvalidToolchain, PolicyRefusal, OutputInvalid, AuthorityInvalidated, UnknownOutcome]

  function FailureCode(f: FailureClass): (n: nat)
    ensures n <= 15
  {
    match f
    case NoFailure => 0
    case ProcessCrash => 1
    case ProcessInterrupted => 2
    case TransientWorkspaceFailure => 3
    case TransientStorageFailure => 4
    case RetrySafeToolInvocationFailure => 5
    case ExternalCancellation => 6
    case InvalidSource => 7
    case DeterministicCompilerError => 8
    case UnsupportedTarget => 9
    case UnsupportedOption => 10
    case InvalidToolchain => 11
    case PolicyRefusal => 12
    case OutputInvalid => 13
    case AuthorityInvalidated => 14
    case UnknownOutcome => 15
  }

  function FailureOf(v: Value): FailureClass { if v.Num? && v.n <= 15 then FAILURES[v.n] else NoFailure }

  const ARTIFACT_STATES: seq<Artifacts.ArtifactState> :=
    [Artifacts.Unknown, Artifacts.Valid, Artifacts.Stale, Artifacts.Incompatible, Artifacts.Corrupt, Artifacts.Superseded,
     Artifacts.Unsupported]

  function ArtifactStateCode(s: Artifacts.ArtifactState): (n: nat)
    ensures n <= 6
  {
    match s
    case Unknown => 0
    case Valid => 1
    case Stale => 2
    case Incompatible => 3
    case Corrupt => 4
    case Superseded => 5
    case Unsupported => 6
  }

  function ArtifactStateOf(v: Value): Artifacts.ArtifactState {
    if v.Num? && v.n <= 6 then ARTIFACT_STATES[v.n] else Artifacts.Unknown
  }

  const AUTHORITY_STATES: seq<Artifacts.AuthorityState> :=
    [Artifacts.Candidate, Artifacts.Authoritative, Artifacts.Revoked, Artifacts.Never]

  function AuthorityCode(s: Artifacts.AuthorityState): (n: nat)
    ensures n <= 3
  {
    match s
    case Candidate => 0
    case Authoritative => 1
    case Revoked => 2
    case Never => 3
  }

  function AuthorityOf(v: Value): Artifacts.AuthorityState {
    if v.Num? && v.n <= 3 then AUTHORITY_STATES[v.n] else Artifacts.Candidate
  }

  lemma EnumLaws(s: PhaseState, f: FailureClass, a: Artifacts.ArtifactState, h: Artifacts.AuthorityState)
    ensures StateOf(Num(StateCode(s))) == s
    ensures FailureOf(Num(FailureCode(f))) == f
    ensures ArtifactStateOf(Num(ArtifactStateCode(a))) == a
    ensures AuthorityOf(Num(AuthorityCode(h))) == h
  {
  }

  /* ---------- Plan nodes ---------- */

  function NodeSchema(): Schema {
    G2(NodeHeadSchema(), NodeTailSchema())
  }

  function FormatsValue(fs: seq<ObjectFormat>): Value { Tuple(seq(|fs|, k requires 0 <= k < |fs| => Num(fs[k]))) }
  function FormatsOf(v: Value): seq<ObjectFormat> { seq(|Items(v)|, k requires 0 <= k < |Items(v)| => FormatOf(Items(v)[k])) }

  function NodeValue(n: PhaseNode): Value {
    T2(NodeHead(n), NodeTail(n))
  }

  function NodeOf(v: Value): PhaseNode {
    var a, b := Item(v, 0), Item(v, 1);
    PhaseNode(U64Of(Item(a, 0)), KindOf(Item(a, 1)), TextOf(Item(a, 2)), WordsOf(Item(b, 2)), BoolOf(Item(a, 3)),
              FormatsOf(Item(b, 3)), BoolOf(Item(b, 0)), U64Of(Item(b, 1)))
  }

  predicate NodeWithin(n: PhaseNode) {
    && |n.adapterPhase| <= MAX_STRING && n.requiredInputs <= MAX_COLLECTION
    && |n.dependsOn| <= MAX_COLLECTION && |n.expectedOutputs| <= MAX_COLLECTION
  }

  lemma FormatsLaws(fs: seq<ObjectFormat>, bound: nat)
    ensures FormatsOf(FormatsValue(fs)) == fs
    ensures Typed(Many(bound, EnumField(12)), FormatsValue(fs)) && Whole(Many(bound, EnumField(12)), FormatsValue(fs))
    ensures Fits(Many(bound, EnumField(12)), FormatsValue(fs)) <==> |fs| <= bound
  {
  }

  lemma CountLaws(n: nat)
    ensures Typed(Number(WIDTH8, MAX_COLLECTION), Num(n)) && Sane(Number(WIDTH8, MAX_COLLECTION))
    ensures Fits(Number(WIDTH8, MAX_COLLECTION), Num(n)) <==> n <= MAX_COLLECTION
    ensures n <= U64_MAX ==> Whole(Number(WIDTH8, MAX_COLLECTION), Num(n))
  {
    Pow256Values();
  }

  function NodeHead(n: PhaseNode): Value { T4(Num(n.id), Num(n.kind), Octets(n.adapterPhase), Bit(n.mandatory)) }
  function NodeTail(n: PhaseNode): Value { T4(Bit(n.fanIn), Num(n.requiredInputs), Words(n.dependsOn), FormatsValue(n.expectedOutputs)) }
  function NodeHeadSchema(): Schema { G4(WordField(), EnumField(16), StringField(), Flag) }
  function NodeTailSchema(): Schema {
    G4(Flag, Number(WIDTH8, MAX_COLLECTION), IdsField(MAX_COLLECTION), Many(MAX_COLLECTION, EnumField(12)))
  }

  lemma NodeHeadLaws(n: PhaseNode)
    ensures var v := NodeHead(n);
            U64Of(Item(v, 0)) == n.id && KindOf(Item(v, 1)) == n.kind && TextOf(Item(v, 2)) == n.adapterPhase && BoolOf(Item(v, 3)) == n.mandatory
    ensures Typed(NodeHeadSchema(), NodeHead(n)) && Whole(NodeHeadSchema(), NodeHead(n)) && Sane(NodeHeadSchema())
    ensures Fits(NodeHeadSchema(), NodeHead(n)) <==> |n.adapterPhase| <= MAX_STRING
  {
    hide Typed;
    hide Fits;
    hide Whole;
    hide Sane;
    hide T4;
    FieldLaws(n.id, 16, n.adapterPhase, MAX_STRING, n.mandatory, ZERO_DIGEST, 0);
    FieldLaws(n.kind, 16, [], 0, n.fanIn, ZERO_DIGEST, 0);
    G4Laws(WordField(), EnumField(16), StringField(), Flag, Num(n.id), Num(n.kind), Octets(n.adapterPhase), Bit(n.mandatory));
  }

  lemma NodeTailLaws(n: PhaseNode)
    ensures var v := NodeTail(n);
            && BoolOf(Item(v, 0)) == n.fanIn && U64Of(Item(v, 1)) == n.requiredInputs
            && WordsOf(Item(v, 2)) == n.dependsOn && FormatsOf(Item(v, 3)) == n.expectedOutputs
    ensures Typed(NodeTailSchema(), NodeTail(n)) && Whole(NodeTailSchema(), NodeTail(n)) && Sane(NodeTailSchema())
    ensures Fits(NodeTailSchema(), NodeTail(n)) <==>
              n.requiredInputs <= MAX_COLLECTION && |n.dependsOn| <= MAX_COLLECTION && |n.expectedOutputs| <= MAX_COLLECTION
  {
    hide Typed;
    hide Fits;
    hide Whole;
    hide Sane;
    hide T4;
    hide Words;
    hide WordsOf;
    hide FormatsValue;
    hide FormatsOf;
    FieldLaws(n.kind, 16, [], 0, n.fanIn, ZERO_DIGEST, 0);
    FieldLaws(0, 12, [], 0, false, ZERO_DIGEST, 0);
    CountLaws(n.requiredInputs);
    WordsLaws(n.dependsOn);
    FormatsLaws(n.expectedOutputs, MAX_COLLECTION);
    ListSanity(0, MAX_COLLECTION, EnumField(12));
    G4Laws(Flag, Number(WIDTH8, MAX_COLLECTION), IdsField(MAX_COLLECTION), Many(MAX_COLLECTION, EnumField(12)),
           Bit(n.fanIn), Num(n.requiredInputs), Words(n.dependsOn), FormatsValue(n.expectedOutputs));
  }

  lemma NodeLaws(n: PhaseNode)
    ensures NodeOf(NodeValue(n)) == n
    ensures Typed(NodeSchema(), NodeValue(n)) && Whole(NodeSchema(), NodeValue(n)) && (Fits(NodeSchema(), NodeValue(n)) <==> NodeWithin(n)) && Sane(NodeSchema())
  {
    hide Typed;
    hide Fits;
    hide Whole;
    hide Sane;
    hide T2;
    hide NodeHead;
    hide NodeTail;
    hide NodeHeadSchema;
    hide NodeTailSchema;
    hide WordsOf;
    hide FormatsOf;
    NodeHeadLaws(n);
    NodeTailLaws(n);
    G2Laws(NodeHeadSchema(), NodeTailSchema(), NodeHead(n), NodeTail(n));
  }

  /* ---------- Plans ---------- */

  function NodesValue(nodes: Nodes): Value { Tuple(seq(|nodes|, k requires 0 <= k < |nodes| => NodeValue(nodes[k]))) }
  function NodesOf(v: Value): Nodes { seq(|Items(v)|, k requires 0 <= k < |Items(v)| => NodeOf(Items(v)[k])) }

  function PlanSchema(): Schema { G2(Version(), Many(MAX_PHASES, NodeSchema())) }
  function PlanValue(nodes: Nodes): Value { T2(Unit, NodesValue(nodes)) }

  predicate NodesWithin(nodes: Nodes) {
    |nodes| <= MAX_PHASES && forall k :: 0 <= k < |nodes| ==> NodeWithin(nodes[k])
  }

  lemma PlanLaws(nodes: Nodes)
    ensures NodesOf(Item(PlanValue(nodes), 1)) == nodes
    ensures Typed(PlanSchema(), PlanValue(nodes)) && Whole(PlanSchema(), PlanValue(nodes)) && (Fits(PlanSchema(), PlanValue(nodes)) <==> NodesWithin(nodes)) && Sane(PlanSchema())
  {
    hide Typed;
    hide Fits;
    hide Whole;
    hide Sane;
    hide NodeValue;
    hide NodeOf;
    hide NodeSchema;
    forall k | 0 <= k < |nodes|
      ensures NodeOf(NodeValue(nodes[k])) == nodes[k] && Typed(NodeSchema(), NodeValue(nodes[k])) && Whole(NodeSchema(), NodeValue(nodes[k]))
      ensures Fits(NodeSchema(), NodeValue(nodes[k])) <==> NodeWithin(nodes[k])
    {
      NodeLaws(nodes[k]);
    }
    NodeSane();
    ManyLaws(MAX_PHASES, NodeSchema(), NodesValue(nodes).items);
    ListSanity(0, MAX_PHASES, NodeSchema());
    FieldLaws(0, 0, [], 0, false, ZERO_DIGEST, 0);
    G2Laws(Version(), Many(MAX_PHASES, NodeSchema()), Unit, NodesValue(nodes));
  }

  lemma NodeLengthy()
    ensures Lengthy(NodeSchema())
  {
    hide Lengthy;
    assert Lengthy(WordField()) by {
      WordLengthy();
    }
    GroupLengthy(WordField(), EnumField(16), StringField(), Flag);
    GroupLengthy(G4(WordField(), EnumField(16), StringField(), Flag),
                 G4(Flag, Number(WIDTH8, MAX_COLLECTION), IdsField(MAX_COLLECTION), Many(MAX_COLLECTION, EnumField(12))), Flag, Flag);
  }

  lemma WordLengthy()
    ensures Lengthy(WordField()) && forall n :: n >= 1 ==> Lengthy(WordsField(n))
    ensures forall m :: Lengthy(EnumField(m))
    ensures Lengthy(StringField())
  {
  }

  lemma NodeSane()
    ensures Sane(NodeSchema()) && Lengthy(NodeSchema())
  {
    NodeLengthy();
    hide NodeSchema;
    hide Sane;
    NodeLaws(PhaseNode(0, 0, [], [], false, [], false, 0));
  }

  /* ---------- Attempts and transitions ---------- */

  function AttemptHead(): Schema { G4(WordsField(5), Word32Field(), EnumField(12), EnumField(15)) }
  function AttemptTail(): Schema { G4(StatusField(), Signed32, WordsField(2), Hex) }
  function AttemptSchema(): Schema { G3(AttemptHead(), AttemptTail(), StringField()) }

  function AttemptWords(a: PhaseAttempt): Value { Words([a.id, a.generation, a.invocation.id, a.invocation.generation, a.processGeneration]) }
  function AttemptTimes(a: PhaseAttempt): Value { Words([a.startedAt, a.finishedAt]) }
  function AttemptHeadValue(a: PhaseAttempt): Value {
    T4(AttemptWords(a), Num(a.osProcess), Num(StateCode(a.terminalState)), Num(FailureCode(a.failure)))
  }
  function AttemptTailValue(a: PhaseAttempt): Value {
    T4(Num(a.status), Int(a.exitCode), AttemptTimes(a), Octets(a.outputDigest))
  }
  function AttemptValue(a: PhaseAttempt): Value { T3(AttemptHeadValue(a), AttemptTailValue(a), Octets(a.detail)) }

  function AttemptOf(v: Value): PhaseAttempt {
    var h, t := Item(v, 0), Item(v, 1);
    var w, x := Item(h, 0), Item(t, 2);
    PhaseAttempt(U64Of(Item(w, 0)), U64Of(Item(w, 1)), Ref(U64Of(Item(w, 2)), U64Of(Item(w, 3))), U64Of(Item(w, 4)),
                 U32Of(Item(h, 1)), StateOf(Item(h, 2)), FailureOf(Item(h, 3)), StatusOf(Item(t, 0)), I32Of(Item(t, 1)),
                 U64Of(Item(x, 0)), U64Of(Item(x, 1)), DigestOf(Item(t, 3)), TextOf(Item(v, 2)))
  }

  lemma AttemptHeadLaws(a: PhaseAttempt)
    ensures var v := AttemptHeadValue(a);
            && Item(v, 0) == AttemptWords(a) && U32Of(Item(v, 1)) == a.osProcess
            && StateOf(Item(v, 2)) == a.terminalState && FailureOf(Item(v, 3)) == a.failure
    ensures Typed(AttemptHead(), AttemptHeadValue(a)) && Whole(AttemptHead(), AttemptHeadValue(a)) && Fits(AttemptHead(), AttemptHeadValue(a)) && Sane(AttemptHead())
  {
    hide Typed;
    hide Fits;
    hide Whole;
    hide Sane;
    hide T4;
    hide Words;
    EnumLaws(a.terminalState, a.failure, Artifacts.Unknown, Artifacts.Never);
    WordsLaws([a.id, a.generation, a.invocation.id, a.invocation.generation, a.processGeneration]);
    ListSanity(5, 0, Flag);
    FieldLaws(a.osProcess, 12, [], 0, false, ZERO_DIGEST, 0);
    FieldLaws(StateCode(a.terminalState), 12, [], 0, false, ZERO_DIGEST, 0);
    FieldLaws(FailureCode(a.failure), 15, [], 0, false, ZERO_DIGEST, 0);
    G4Laws(WordsField(5), Word32Field(), EnumField(12), EnumField(15),
           AttemptWords(a), Num(a.osProcess), Num(StateCode(a.terminalState)), Num(FailureCode(a.failure)));
  }

  lemma AttemptTailLaws(a: PhaseAttempt)
    ensures var v := AttemptTailValue(a);
            && StatusOf(Item(v, 0)) == a.status && I32Of(Item(v, 1)) == a.exitCode
            && Item(v, 2) == AttemptTimes(a) && DigestOf(Item(v, 3)) == a.outputDigest
    ensures Typed(AttemptTail(), AttemptTailValue(a)) && Whole(AttemptTail(), AttemptTailValue(a)) && Fits(AttemptTail(), AttemptTailValue(a)) && Sane(AttemptTail())
  {
    hide Typed;
    hide Fits;
    hide Whole;
    hide Sane;
    hide T4;
    hide Words;
    WordsLaws([a.startedAt, a.finishedAt]);
    ListSanity(2, 0, Flag);
    FieldLaws(a.status, 0, [], 0, false, a.outputDigest, a.exitCode);
    G4Laws(StatusField(), Signed32, WordsField(2), Hex, Num(a.status), Int(a.exitCode), AttemptTimes(a), Octets(a.outputDigest));
  }

  lemma AttemptLaws(a: PhaseAttempt)
    ensures AttemptOf(AttemptValue(a)) == a
    ensures Typed(AttemptSchema(), AttemptValue(a)) && Whole(AttemptSchema(), AttemptValue(a)) && (Fits(AttemptSchema(), AttemptValue(a)) <==> |a.detail| <= MAX_STRING)
    ensures Sane(AttemptSchema())
  {
    hide Typed;
    hide Fits;
    hide Whole;
    hide Sane;
    hide T3;
    hide AttemptHead;
    hide AttemptTail;
    hide AttemptHeadValue;
    hide AttemptTailValue;
    hide StateOf;
    hide FailureOf;
    hide Words;
    AttemptHeadLaws(a);
    AttemptTailLaws(a);
    FieldLaws(0, 0, a.detail, MAX_STRING, false, ZERO_DIGEST, 0);
    G3Laws(AttemptHead(), AttemptTail(), StringField(), AttemptHeadValue(a), AttemptTailValue(a), Octets(a.detail));
    var ns := [a.id, a.generation, a.invocation.id, a.invocation.generation, a.processGeneration];
    WordsAt(ns);
    WordsAt([a.startedAt, a.finishedAt]);
  }

  function TransitionSchema(): Schema { G4(EnumField(12), EnumField(12), WordField(), StringField()) }
  function TransitionValue(t: PhaseTransition): Value {
    T4(Num(StateCode(t.from)), Num(StateCode(t.to)), Num(t.at), Octets(t.reason))
  }
  function TransitionOf(v: Value): PhaseTransition {
    PhaseTransition(StateOf(Item(v, 0)), StateOf(Item(v, 1)), U64Of(Item(v, 2)), TextOf(Item(v, 3)))
  }

  lemma TransitionLaws(t: PhaseTransition)
    ensures TransitionOf(TransitionValue(t)) == t
    ensures Typed(TransitionSchema(), TransitionValue(t)) && Whole(TransitionSchema(), TransitionValue(t)) && (Fits(TransitionSchema(), TransitionValue(t)) <==> |t.reason| <= MAX_STRING)
    ensures Sane(TransitionSchema())
  {
    hide Typed;
    hide Fits;
    hide Whole;
    hide Sane;
    hide T4;
    hide StateOf;
    EnumLaws(t.from, NoFailure, Artifacts.Unknown, Artifacts.Never);
    EnumLaws(t.to, NoFailure, Artifacts.Unknown, Artifacts.Never);
    FieldLaws(StateCode(t.from), 12, t.reason, MAX_STRING, false, ZERO_DIGEST, 0);
    FieldLaws(StateCode(t.to), 12, [], 0, false, ZERO_DIGEST, 0);
    FieldLaws(t.at, 12, [], 0, false, ZERO_DIGEST, 0);
    G4Laws(EnumField(12), EnumField(12), WordField(), StringField(),
           Num(StateCode(t.from)), Num(StateCode(t.to)), Num(t.at), Octets(t.reason));
  }
}
