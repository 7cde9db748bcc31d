/** Session bundles and the round trips of all durable records. */
module BundleCodec {
  import opened StrongId
  import opened Bytes
  import opened Wrappers
  import opened Phases
  import opened PhasePlans
  import opened Sessions
  import opened Diagnostics
  import opened Wire
  import opened Codec
  import opened Records
  import opened SessionCodec
  import Artifacts
  import opened Runtime

  const MAX_TEXT: nat := MAX_BLOB * 2
  const MAX_SETS: nat := 16384

  /* ---------- Lists of framed records and of texts ---------- */

  function ArtifactFrame(): Schema { Framed(MAX_TEXT, ArtifactSchema()) }
  function ArtifactsValue(xs: seq<Artifacts.Artifact>): Value { Tuple(seq(|xs|, k requires 0 <= k < |xs| => ArtifactValue(xs[k]))) }
  function ArtifactsOf(v: Value): seq<Artifacts.Artifact> { seq(|Items(v)|, k requires 0 <= k < |Items(v)| => ArtifactOf(Items(v)[k])) }

  function ArtifactSize(a: Artifacts.Artifact): nat {
    ArtifactLaws(a);
    |Encode(ArtifactSchema(), ArtifactValue(a))|
  }

  predicate ArtifactStorable(a: Artifacts.Artifact) { ArtifactWithin(a) && ArtifactSize(a) <= MAX_TEXT }

  predicate ArtifactsStorable(xs: seq<Artifacts.Artifact>) {
    |xs| <= MAX_COLLECTION && forall k :: 0 <= k < |xs| ==> ArtifactStorable(xs[k])
  }

  lemma ArtifactFrameLaws(a: Artifacts.Artifact)
    ensures ArtifactOf(ArtifactValue(a)) == a && Typed(ArtifactFrame(), ArtifactValue(a)) && Whole(ArtifactFrame(), ArtifactValue(a)) && Sane(ArtifactFrame())
    ensures Fits(ArtifactFrame(), ArtifactValue(a)) <==> ArtifactStorable(a)
  {
    hide Typed;
    hide Fits;
    hide Whole;
    hide Sane;
    hide ArtifactValue;
    hide ArtifactOf;
    hide ArtifactSchema;
    hide ArtifactWithin;
    hide Encode;
    ArtifactLaws(a);
    FramedLaws(MAX_TEXT, ArtifactSchema(), ArtifactValue(a));
  }

  lemma FramesLengthy()
    ensures Lengthy(ArtifactFrame()) && Lengthy(SetFrame()) && Lengthy(Text(MAX_TEXT))
  {
    hide ArtifactSchema;
    hide SetSchema;
  }

  lemma ArtifactListLaws(xs: seq<Artifacts.Artifact>)
    ensures ArtifactsOf(ArtifactsValue(xs)) == xs
    ensures Typed(Many(MAX_COLLECTION, ArtifactFrame()), ArtifactsValue(xs)) && Whole(Many(MAX_COLLECTION, ArtifactFrame()), ArtifactsValue(xs)) && Sane(Many(MAX_COLLECTION, ArtifactFrame()))
    ensures Fits(Many(MAX_COLLECTION, ArtifactFrame()), ArtifactsValue(xs)) <==> ArtifactsStorable(xs)
  {
    hide Typed;
    hide Fits;
    hide Whole;
    hide Sane;
    hide ArtifactValue;
    hide ArtifactOf;
    hide ArtifactFrame;
    hide ArtifactStorable;
    forall k | 0 <= k < |xs|
      ensures ArtifactOf(ArtifactValue(xs[k])) == xs[k] && Typed(ArtifactFrame(), ArtifactValue(xs[k])) && Whole(ArtifactFrame(), ArtifactValue(xs[k]))
      ensures Fits(ArtifactFrame(), ArtifactValue(xs[k])) <==> ArtifactStorable(xs[k])
    {
      ArtifactFrameLaws(xs[k]);
    }
    ArtifactFrameLaws(SampleArtifact());
    ManyLaws(MAX_COLLECTION, ArtifactFrame(), ArtifactsValue(xs).items);
    FramesLengthy();
    ListSanity(0, MAX_COLLECTION, ArtifactFrame());
  }

  function SampleArtifact(): Artifacts.Artifact {
    Artifacts.Artifact(0, 0, 0, [], ZERO_DIGEST, 0, ABSENT, ABSENT, ABSENT, ABSENT, ABSENT, 0, ABSENT, ABSENT, [],
                       Artifacts.Unknown, Artifacts.Never, 0, [], ZERO_DIGEST, false)
  }

  function SetFrame(): Schema { Framed(MAX_TEXT, SetSchema()) }
  function SetsValue(xs: seq<DiagnosticSet>): Value { Tuple(seq(|xs|, k requires 0 <= k < |xs| => SetValue(xs[k]))) }
  function SetsOf(v: Value): seq<DiagnosticSet> { seq(|Items(v)|, k requires 0 <= k < |Items(v)| => SetOf(Items(v)[k])) }

  function SetSize(d: DiagnosticSet): nat {
    SetLaws(d);
    |Encode(SetSchema(), SetValue(d))|
  }

  predicate SetStorable(d: DiagnosticSet) { SetWithin(d) && SetSize(d) <= MAX_TEXT }

  predicate SetsStorable(xs: seq<DiagnosticSet>) {
    |xs| <= MAX_SETS && forall k :: 0 <= k < |xs| ==> SetStorable(xs[k])
  }

  lemma SetFrameLaws(d: DiagnosticSet)
    ensures SetOf(SetValue(d)) == d && Typed(SetFrame(), SetValue(d)) && Whole(SetFrame(), SetValue(d)) && Sane(SetFrame())
    ensures Fits(SetFrame(), SetValue(d)) <==> SetStorable(d)
  {
    hide Typed;
    hide Fits;
    hide Whole;
    hide Sane;
    hide SetValue;
    hide SetOf;
    hide SetSchema;
    hide SetWithin;
    hide Encode;
    SetLaws(d);
    FramedLaws(MAX_TEXT, SetSchema(), SetValue(d));
  }

  lemma SetListLaws(xs: seq<DiagnosticSet>)
    ensures SetsOf(SetsValue(xs)) == xs
    ensures Typed(Many(MAX_SETS, SetFrame()), SetsValue(xs)) && Whole(Many(MAX_SETS, SetFrame()), SetsValue(xs)) && Sane(Many(MAX_SETS, SetFrame()))
    ensures Fits(Many(MAX_SETS, SetFrame()), SetsValue(xs)) <==> SetsStorable(xs)
  {
    hide Typed;
    hide Fits;
    hide Whole;
    hide Sane;
    hide SetValue;
    hide SetOf;
    hide SetFrame;
    hide SetStorable;
    forall k | 0 <= k < |xs|
      ensures SetOf(SetValue(xs[k])) == xs[k] && Typed(SetFrame(), SetValue(xs[k])) && Whole(SetFrame(), SetValue(xs[k]))
      ensures Fits(SetFrame(), SetValue(xs[k])) <==> SetStorable(xs[k])
    {
      SetFrameLaws(xs[k]);
    }
    SetFrameLaws(DiagnosticSet(0, 0, ABSENT, ABSENT, ABSENT, ABSENT, false, false, 0, 0, 0, 0, 0, false, 0, 0, [], [], []));
    ManyLaws(MAX_SETS, SetFrame(), SetsValue(xs).items);
    FramesLengthy();
    ListSanity(0, MAX_SETS, SetFrame());
  }

  function TextsValue(xs: seq<Text>): Value { Tuple(seq(|xs|, k requires 0 <= k < |xs| => Octets(xs[k]))) }
  function TextsOf(v: Value): seq<Text> { seq(|Items(v)|, k requires 0 <= k < |Items(v)| => TextOf(Items(v)[k])) }

  predicate TextsWithin(xs: seq<Text>, bound: nat) {
    |xs| <= bound && forall k :: 0 <= k < |xs| ==> |xs[k]| <= MAX_TEXT
  }

  lemma TextListLaws(xs: seq<Text>, bound: nat)
    requires bound <= MAX_BLOB
    ensures TextsOf(TextsValue(xs)) == xs
    ensures Typed(Many(bound, Text(MAX_TEXT)), TextsValue(xs)) && Whole(Many(bound, Text(MAX_TEXT)), TextsValue(xs)) && Sane(Many(bound, Text(MAX_TEXT)))
    ensures Fits(Many(bound, Text(MAX_TEXT)), TextsValue(xs)) <==> TextsWithin(xs, bound)
  {
    hide Typed;
    hide Fits;
    hide Whole;
    hide Sane;
    forall k | 0 <= k < |xs|
      ensures Typed(Text(MAX_TEXT), Octets(xs[k])) && Whole(Text(MAX_TEXT), Octets(xs[k])) && (Fits(Text(MAX_TEXT), Octets(xs[k])) <==> |xs[k]| <= MAX_TEXT)
    {
      FieldLaws(0, 0, xs[k], MAX_TEXT, false, ZERO_DIGEST, 0);
    }
    FieldLaws(0, 0, [], MAX_TEXT, false, ZERO_DIGEST, 0);
    ManyLaws(bound, Text(MAX_TEXT), TextsValue(xs).items);
    ListSanity(0, bound, Text(MAX_TEXT));
  }

  /* ---------- Bundles ---------- */

  function BundleHead(): Schema { G4(Framed(MAX_TEXT, SessionSchema()), Text(MAX_TEXT), Text(MAX_TEXT), Text(MAX_TEXT)) }
  function BundleBody(): Schema { G3(Text(MAX_TEXT), Many(MAX_SOURCES, Text(MAX_TEXT)), Many(MAX_COLLECTION, ArtifactFrame())) }
  function BundleTail(): Schema { G2(Many(MAX_SETS, SetFrame()), Many(MAX_COLLECTION, Text(MAX_TEXT))) }
  function BundleSchema(): Schema { G3(BundleHead(), BundleBody(), BundleTail()) }

  ghost function BundleHeadValue(b: Bundle): Value {
    T4(SessionValue(b.session), Octets(b.extras.toolchain), Octets(b.extras.target), Octets(b.extras.environment))
  }
  function BundleBodyValue(b: Bundle): Value {
    T3(Octets(b.extras.policy), TextsValue(b.extras.sources), ArtifactsValue(b.artifacts))
  }
  function BundleTailValue(b: Bundle): Value { T2(SetsValue(b.extras.diagnostics), TextsValue(b.extras.provenance)) }
  ghost function BundleValue(b: Bundle): Value { T3(BundleHeadValue(b), BundleBodyValue(b), BundleTailValue(b)) }

  function BundleOf(v: Value, plan: PhasePlan): Bundle {
    var head, body, tail := Item(v, 0), Item(v, 1), Item(v, 2);
    Bundle(SessionOf(Item(head, 0), plan), ArtifactsOf(Item(body, 2)),
           Extras(TextOf(Item(head, 1)), TextOf(Item(head, 2)), TextOf(Item(head, 3)), TextOf(Item(body, 0)),
                  TextsOf(Item(body, 1)), SetsOf(Item(tail, 0)), TextsOf(Item(tail, 1))))
  }

  ghost function SessionSize(s: CompilerSession): nat
    requires Keyed(s.phases)
  {
    SessionParts(s);
    |Encode(SessionSchema(), SessionValue(s))|
  }

  /** Every ceiling of the bundle decoder. */
  ghost predicate BundleWithin(b: Bundle)
    requires Keyed(b.session.phases)
  {
    && SessionWithin(b.session) && SessionSize(b.session) <= MAX_TEXT
    && |b.extras.toolchain| <= MAX_TEXT && |b.extras.target| <= MAX_TEXT && |b.extras.environment| <= MAX_TEXT
    && |b.extras.policy| <= MAX_TEXT && TextsWithin(b.extras.sources, MAX_SOURCES)
    && ArtifactsStorable(b.artifacts) && SetsStorable(b.extras.diagnostics)
    && TextsWithin(b.extras.provenance, MAX_COLLECTION)
  }

  lemma SessionFrameLaws(s: CompilerSession)
    requires Keyed(s.phases)
    ensures Typed(Framed(MAX_TEXT, SessionSchema()), SessionValue(s)) && Whole(Framed(MAX_TEXT, SessionSchema()), SessionValue(s)) && Sane(Framed(MAX_TEXT, SessionSchema()))
    ensures Fits(Framed(MAX_TEXT, SessionSchema()), SessionValue(s)) <==> SessionWithin(s) && SessionSize(s) <= MAX_TEXT
  {
    hide Typed;
    hide Fits;
    hide Whole;
    hide Sane;
    hide SessionValue;
    hide SessionSchema;
    hide SessionWithin;
    hide Encode;
    hide Keyed;
    SessionParts(s);
    FramedLaws(MAX_TEXT, SessionSchema(), SessionValue(s));
  }

  lemma BundleHeadLaws(b: Bundle)
    requires Keyed(b.session.phases)
    ensures var v := BundleHeadValue(b);
            && Item(v, 0) == SessionValue(b.session) && TextOf(Item(v, 1)) == b.extras.toolchain
            && TextOf(Item(v, 2)) == b.extras.target && TextOf(Item(v, 3)) == b.extras.environment
    ensures Typed(BundleHead(), BundleHeadValue(b)) && Whole(BundleHead(), BundleHeadValue(b)) && Sane(BundleHead())
    ensures Fits(BundleHead(), BundleHeadValue(b)) <==>
              && SessionWithin(b.session) && SessionSize(b.session) <= MAX_TEXT
              && |b.extras.toolchain| <= MAX_TEXT && |b.extras.target| <= MAX_TEXT && |b.extras.environment| <= MAX_TEXT
  {
    hide Typed;
    hide Fits;
    hide Whole;
    hide Sane;
    hide T4;
    hide SessionValue;
    hide SessionSchema;
    hide SessionWithin;
    hide SessionSize;
    hide Keyed;
    SessionFrameLaws(b.session);
    FieldLaws(0, 0, b.extras.toolchain, MAX_TEXT, false, ZERO_DIGEST, 0);
    FieldLaws(0, 0, b.extras.target, MAX_TEXT, false, ZERO_DIGEST, 0);
    FieldLaws(0, 0, b.extras.environment, MAX_TEXT, false, ZERO_DIGEST, 0);
    G4Laws(Framed(MAX_TEXT, SessionSchema()), Text(MAX_TEXT), Text(MAX_TEXT), Text(MAX_TEXT),
           SessionValue(b.session), Octets(b.extras.toolchain), Octets(b.extras.target), Octets(b.extras.environment));
  }

  lemma BundleBodyLaws(b: Bundle)
    ensures var v := BundleBodyValue(b);
            TextOf(Item(v, 0)) == b.extras.policy && TextsOf(Item(v, 1)) == b.extras.sources && ArtifactsOf(Item(v, 2)) == b.artifacts
    ensures Typed(BundleBody(), BundleBodyValue(b)) && Whole(BundleBody(), BundleBodyValue(b)) && Sane(BundleBody())
    ensures Fits(BundleBody(), BundleBodyValue(b)) <==>
              |b.extras.policy| <= MAX_TEXT && TextsWithin(b.extras.sources, MAX_SOURCES) && ArtifactsStorable(b.artifacts)
  {
    hide Typed;
    hide Fits;
    hide Whole;
    hide Sane;
    hide T3;
    hide TextsValue;
    hide TextsOf;
    hide TextsWithin;
    hide ArtifactsValue;
    hide ArtifactsOf;
    hide ArtifactsStorable;
    FieldLaws(0, 0, b.extras.policy, MAX_TEXT, false, ZERO_DIGEST, 0);
    TextListLaws(b.extras.sources, MAX_SOURCES);
    ArtifactListLaws(b.artifacts);
    G3Laws(Text(MAX_TEXT), Many(MAX_SOURCES, Text(MAX_TEXT)), Many(MAX_COLLECTION, ArtifactFrame()),
           Octets(b.extras.policy), TextsValue(b.extras.sources), ArtifactsValue(b.artifacts));
  }

  lemma BundleTailLaws(b: Bundle)
    ensures SetsOf(Item(BundleTailValue(b), 0)) == b.extras.diagnostics && TextsOf(Item(BundleTailValue(b), 1)) == b.extras.provenance
    ensures Typed(BundleTail(), BundleTailValue(b)) && Whole(BundleTail(), BundleTailValue(b)) && Sane(BundleTail())
    ensures Fits(BundleTail(), BundleTailValue(b)) <==>
              SetsStorable(b.extras.diagnostics) && TextsWithin(b.extras.provenance, MAX_COLLECTION)
  {
    hide Typed;
    hide Fits;
    hide Whole;
    hide Sane;
    hide T2;
    hide TextsValue;
    hide TextsOf;
    hide TextsWithin;
    hide SetsValue;
    hide SetsOf;
    hide SetsStorable;
    SetListLaws(b.extras.diagnostics);
    TextListLaws(b.extras.provenance, MAX_COLLECTION);
    G2Laws(Many(MAX_SETS, SetFrame()), Many(MAX_COLLECTION, Text(MAX_TEXT)), SetsValue(b.extras.diagnostics), TextsValue(b.extras.provenance));
  }

  lemma BundleLaws(b: Bundle)
    requires Keyed(b.session.phases)
    ensures Typed(BundleSchema(), BundleValue(b)) && Whole(BundleSchema(), BundleValue(b)) && Sane(BundleSchema())
    ensures Fits(BundleSchema(), BundleValue(b)) <==> BundleWithin(b)
    ensures BundleOf(BundleValue(b), b.session.plan) == b
    ensures StoredNodes(Item(Item(BundleValue(b), 0), 0)) == b.session.plan.nodes
  {
    hide Typed;
    hide Fits;
    hide Whole;
    hide Sane;
    hide T3;
    hide BundleHead;
    hide BundleBody;
    hide BundleTail;
    hide BundleHeadValue;
    hide BundleBodyValue;
    hide BundleTailValue;
    hide SessionValue;
    hide SessionOf;
    hide SessionWithin;
    hide SessionSize;
    hide StoredNodes;
    hide Keyed;
    hide TextsOf;
    hide TextsWithin;
    hide ArtifactsOf;
    hide ArtifactsStorable;
    hide SetsOf;
    hide SetsStorable;
    SessionReads(b.session);
    BundleHeadLaws(b);
    BundleBodyLaws(b);
    BundleTailLaws(b);
    G3Laws(BundleHead(), BundleBody(), BundleTail(), BundleHeadValue(b), BundleBodyValue(b), BundleTailValue(b));
  }

  /* ---------- Encoding and decoding ---------- */

  /** The plan build makes of a stored node list, if it accepts it. */
  ghost function Built(nodes: Nodes): Option<PhasePlan> {
    if exists plan :: IsPlan(plan) && plan.nodes == nodes then
      var plan :| IsPlan(plan) && plan.nodes == nodes;
      Some(plan)
    else None
  }

  /** A plan is what build makes of its own nodes. */
  lemma BuiltAgain(plan: PhasePlan)
    requires IsPlan(plan)
    ensures Built(plan.nodes) == Some(plan)
  {
    PlanUnique(plan, Built(plan.nodes).value);
  }

  function EncodePhase(p: PhaseRecord): seq<Byte> {
    PhaseShape(p);
    Encode(PhaseSchema(), PhaseValue(p))
  }

  function DecodePhase(s: seq<Byte>): Option<PhaseRecord> {
    match DecodeExactly(PhaseSchema(), s)
    case Some(v) => Some(PhaseOf(v))
    case None => None
  }

  function EncodePlan(plan: PhasePlan): seq<Byte> {
    PlanLaws(plan.nodes);
    Encode(PlanSchema(), PlanValue(plan.nodes))
  }

  ghost function DecodePlan(s: seq<Byte>): Option<PhasePlan> {
    match DecodeExactly(PlanSchema(), s)
    case Some(v) => Built(NodesOf(Item(v, 1)))
    case None => None
  }

  ghost function EncodeSession(s: CompilerSession): seq<Byte>
    requires Keyed(s.phases)
  {
    SessionParts(s);
    Encode(SessionSchema(), SessionValue(s))
  }

  ghost function DecodeSession(s: seq<Byte>): Option<CompilerSession> {
    match DecodeExactly(SessionSchema(), s)
    case None => None
    case Some(v) =>
      match Built(StoredNodes(v))
      case Some(plan) => Some(SessionOf(v, plan))
      case None => None
  }

  ghost function EncodeBundle(b: Bundle): seq<Byte>
    requires Keyed(b.session.phases)
  {
    BundleLaws(b);
    Encode(BundleSchema(), BundleValue(b))
  }

  ghost function DecodeBundle(s: seq<Byte>): Option<Bundle> {
    match DecodeExactly(BundleSchema(), s)
    case None => None
    case Some(v) =>
      match Built(StoredNodes(Item(Item(v, 0), 0)))
      case Some(plan) => Some(BundleOf(v, plan))
      case None => None
  }

  lemma PhaseRoundTrip(p: PhaseRecord, t: seq<Byte>)
    requires PhaseWithin(p)
    ensures DecodePhase(EncodePhase(p)) == Some(p)
    ensures t != [] ==> DecodePhase(EncodePhase(p) + t).None?
    ensures forall n :: 0 <= n < |EncodePhase(p)| ==> DecodePhase(EncodePhase(p)[..n]).None?
  {
    hide PhaseValue;
    hide PhaseOf;
    hide PhaseSchema;
    hide PhaseWithin;
    hide Encode;
    hide Decode;
    hide Typed;
    hide Fits;
    hide Whole;
    hide Sane;
    hide DecodeExactly;
    PhaseShape(p);
    PhaseReads(p);
    Complete(PhaseSchema(), PhaseValue(p), t);
  }

  /** Exactly the whole encoding is accepted, and it gives back the value. */
  lemma Complete(schema: Schema, v: Value, t: seq<Byte>)
    requires Sane(schema) && Typed(schema, v) && Fits(schema, v)
    ensures DecodeExactly(schema, Encode(schema, v)) == Some(v)
    ensures t != [] ==> DecodeExactly(schema, Encode(schema, v) + t).None?
    ensures forall n :: 0 <= n < |Encode(schema, v)| ==> DecodeExactly(schema, Encode(schema, v)[..n]).None?
  {
    hide Encode;
    hide Decode;
    hide DecodeExactly;
    hide Sane;
    hide Typed;
    hide Fits;
    hide Whole;
    var e := Encode(schema, v);
    RoundTripIff(schema, v);
    if t != [] {
      OnlyTheWhole(schema, v, e + t, t);
    }
    forall n | 0 <= n < |e|
      ensures DecodeExactly(schema, e[..n]).None?
    {
      assert e[..n] + e[n..] == e;
      OnlyTheWhole(schema, v, e[..n], e[n..]);
    }
  }

  /** The plan codec: the plan rebuilt from its encoding has the same nodes and order. */
  lemma PlanRoundTrip(plan: PhasePlan, t: seq<Byte>)
    requires IsPlan(plan) && NodesWithin(plan.nodes)
    ensures DecodePlan(EncodePlan(plan)) == Some(plan)
    ensures t != [] ==> DecodePlan(EncodePlan(plan) + t).None?
    ensures forall n :: 0 <= n < |EncodePlan(plan)| ==> DecodePlan(EncodePlan(plan)[..n]).None?
  {
    hide PlanValue;
    hide PlanSchema;
    hide NodesOf;
    hide NodesWithin;
    hide IsPlan;
    hide Built;
    hide Encode;
    hide Decode;
    hide Typed;
    hide Fits;
    hide Whole;
    hide Sane;
    hide DecodeExactly;
    PlanLaws(plan.nodes);
    BuiltAgain(plan);
    Complete(PlanSchema(), PlanValue(plan.nodes), t);
  }

  lemma SessionRoundTrip(s: CompilerSession, t: seq<Byte>)
    requires Keyed(s.phases) && IsPlan(s.plan) && SessionWithin(s)
    ensures DecodeSession(EncodeSession(s)) == Some(s)
    ensures t != [] ==> DecodeSession(EncodeSession(s) + t).None?
    ensures forall n :: 0 <= n < |EncodeSession(s)| ==> DecodeSession(EncodeSession(s)[..n]).None?
  {
    hide SessionValue;
    hide SessionSchema;
    hide SessionOf;
    hide StoredNodes;
    hide SessionWithin;
    hide IsPlan;
    hide Built;
    hide Keyed;
    hide Encode;
    hide Decode;
    hide Typed;
    hide Fits;
    hide Whole;
    hide Sane;
    hide DecodeExactly;
    SessionParts(s);
    SessionReads(s);
    BuiltAgain(s.plan);
    Complete(SessionSchema(), SessionValue(s), t);
  }

  lemma BundleRoundTrip(b: Bundle, t: seq<Byte>)
    requires Keyed(b.session.phases) && IsPlan(b.session.plan) && BundleWithin(b)
    ensures DecodeBundle(EncodeBundle(b)) == Some(b)
    ensures t != [] ==> DecodeBundle(EncodeBundle(b) + t).None?
    ensures forall n :: 0 <= n < |EncodeBundle(b)| ==> DecodeBundle(EncodeBundle(b)[..n]).None?
  {
    hide BundleValue;
    hide BundleSchema;
    hide BundleOf;
    hide StoredNodes;
    hide BundleWithin;
    hide IsPlan;
    hide Built;
    hide Keyed;
    hide Encode;
    hide Decode;
    hide Typed;
    hide Fits;
    hide Whole;
    hide Sane;
    hide DecodeExactly;
    BundleLaws(b);
    BuiltAgain(b.session.plan);
    Complete(BundleSchema(), BundleValue(b), t);
  }

  /** The exact condition: a bundle below 4 GiB is read back if and only if it is within every
      ceiling of the decoder; otherwise it is refused. */
  lemma BundleVerdict(b: Bundle)
    requires Keyed(b.session.phases) && IsPlan(b.session.plan) && |EncodeBundle(b)| < WORD32
    ensures DecodeBundle(EncodeBundle(b)) == if BundleWithin(b) then Some(b) else None
  {
    hide BundleValue;
    hide BundleSchema;
    hide BundleOf;
    hide StoredNodes;
    hide BundleWithin;
    hide IsPlan;
    hide Built;
    hide Keyed;
    hide Encode;
    hide Decode;
    hide Typed;
    hide Fits;
    hide Sane;
    hide Whole;
    hide DecodeExactly;
    BundleLaws(b);
    BuiltAgain(b.session.plan);
    assert Pow256(WIDTH4) == WORD32 by {
      Pow256Values();
    }
    Verdict(BundleSchema(), BundleValue(b));
  }
}
