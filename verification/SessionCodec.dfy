/** Sessions and session bundles on disk (src/core/persistence.cpp:734-885,
    src/core/runtime.cpp:29-190). */
module SessionCodec {
  import opened StrongId
  import opened Bytes
  import opened Wrappers
  import opened Phases
  import opened PhasePlans
  import opened Sessions
  import opened Diagnostics
  import opened Wire
  import opened Codec
  import opened Records
  import opened Sorting
  import Artifacts
  import Runtime

  /* ---------- Enumerations ---------- */

  const SESSION_STATES: seq<SessionState> :=
    [SessionCreated, SessionActive, SessionRecovering, SessionCommitted, SessionFailed, SessionCancelled, SessionRetired]

  function SessionStateCode(s: SessionState): (n: nat)
    ensures n <= 6
  {
    match s
    case SessionCreated => 0
    case SessionActive => 1
    case SessionRecovering => 2
    case SessionCommitted => 3
    case SessionFailed => 4
    case SessionCancelled => 5
    case SessionRetired => 6
  }

  function SessionStateOf(v: Value): SessionState { if v.Num? && v.n <= 6 then SESSION_STATES[v.n] else SessionCreated }

  const RECOVERY_STATES: seq<RecoveryState> :=
    [NoRecovery, Required, Planned, InProgress, Resolved, ManualRequired, RecoveryUnsupported]

  function RecoveryCode(s: RecoveryState): (n: nat)
    ensures n <= 6
  {
    match s
    case NoRecovery => 0
    case Required => 1
    case Planned => 2
    case InProgress => 3
    case Resolved => 4
    case ManualRequired => 5
    case RecoveryUnsupported => 6
  }

  function RecoveryOf(v: Value): RecoveryState { if v.Num? && v.n <= 6 then RECOVERY_STATES[v.n] else NoRecovery }

  lemma SessionEnumLaws(s: SessionState, r: RecoveryState)
    ensures SessionStateOf(Num(SessionStateCode(s))) == s && RecoveryOf(Num(RecoveryCode(r))) == r
  {
  }

  /* ---------- The phase table ---------- */

  /** The keys of the table in ascending order. */
  ghost function SortedKeys(keys: set<U64>): (r: seq<U64>)
    ensures Ascending(r) && forall x :: x in r <==> x in keys
  {
    if keys == {} then []
    else
      var x :| x in keys;
      Insert(SortedKeys(keys - {x}), x)
  }

  /** emplace keeps the first record of an identity. */
  function Emplaced(ps: seq<PhaseRecord>): map<U64, PhaseRecord> {
    if ps == [] then map[]
    else
      var last := |ps| - 1;
      var m := Emplaced(ps[..last]);
      if ps[last].id in m then m else m[ps[last].id := ps[last]]
  }

  ghost predicate Keyed(phases: map<U64, PhaseRecord>) {
    forall id :: id in phases ==> phases[id].id == id
  }

  ghost function Listed(phases: map<U64, PhaseRecord>): (ps: seq<PhaseRecord>)
    ensures |ps| == |SortedKeys(phases.Keys)|
    ensures forall k :: 0 <= k < |ps| ==> SortedKeys(phases.Keys)[k] in phases && ps[k] == phases[SortedKeys(phases.Keys)[k]]
  {
    var ids := SortedKeys(phases.Keys);
    assert forall k :: 0 <= k < |ids| ==> ids[k] in ids;
    seq(|ids|, k requires 0 <= k < |ids| => phases[ids[k]])
  }

  /** Writing the table in order and reading it back gives the same table. */
  lemma TableRoundTrip(phases: map<U64, PhaseRecord>)
    requires Keyed(phases)
    ensures Emplaced(Listed(phases)) == phases
  {
    hide Emplaced;
    hide SortedKeys;
    var ids, ps := SortedKeys(phases.Keys), Listed(phases);
    EmplacedAll(ids, ps);
    forall id | id in phases
      ensures id in Emplaced(ps) && Emplaced(ps)[id] == phases[id]
    {
      var k :| 0 <= k < |ids| && ids[k] == id;
    }
  }

  lemma {:induction false} EmplacedAll(ids: seq<U64>, ps: seq<PhaseRecord>)
    requires Ascending(ids) && |ps| == |ids| && forall k :: 0 <= k < |ids| ==> ps[k].id == ids[k]
    ensures forall id :: id in Emplaced(ps) <==> id in ids
    ensures forall k :: 0 <= k < |ids| ==> Emplaced(ps)[ids[k]] == ps[k]
  {
    if ps != [] {
      var last := |ps| - 1;
      EmplacedAll(ids[..last], ps[..last]);
      assert ids == ids[..last] + [ids[last]];
      assert ids[last] !in ids[..last];
      forall k | 0 <= k < last
        ensures Emplaced(ps)[ids[k]] == ps[k]
      {
        assert ids[..last][k] == ids[k] && ps[..last][k] == ps[k];
      }
    }
  }

  ghost function TableValue(phases: map<U64, PhaseRecord>): Value {
    Tuple(seq(|Listed(phases)|, k requires 0 <= k < |Listed(phases)| => PhaseValue(Listed(phases)[k])))
  }

  function PhaseListOf(v: Value): seq<PhaseRecord> { seq(|Items(v)|, k requires 0 <= k < |Items(v)| => PhaseOf(Items(v)[k])) }
  function TableOf(v: Value): map<U64, PhaseRecord> { Emplaced(PhaseListOf(v)) }

  function PhaseFrame(): Schema { Framed(MAX_BLOB, PhaseSchema()) }
  function TableSchema(): Schema { Many(MAX_PHASES, PhaseFrame()) }

  function PhaseSize(p: PhaseRecord): nat {
    PhaseShape(p);
    |Encode(PhaseSchema(), PhaseValue(p))|
  }

  predicate PhaseStorable(p: PhaseRecord) {
    PhaseWithin(p) && PhaseSize(p) <= MAX_BLOB
  }

  lemma TableLaws(phases: map<U64, PhaseRecord>)
    requires Keyed(phases)
    ensures TableOf(TableValue(phases)) == phases
    ensures Typed(TableSchema(), TableValue(phases)) && Whole(TableSchema(), TableValue(phases)) && Sane(TableSchema())
    ensures Fits(TableSchema(), TableValue(phases)) <==>
              |Listed(phases)| <= MAX_PHASES && forall k :: 0 <= k < |Listed(phases)| ==> PhaseStorable(Listed(phases)[k])
  {
    hide Typed;
    hide Fits;
    hide Whole;
    hide Sane;
    hide PhaseValue;
    hide PhaseOf;
    hide PhaseFrame;
    hide PhaseStorable;
    hide Emplaced;
    hide SortedKeys;
    var ps := Listed(phases);
    forall k | 0 <= k < |ps|
      ensures PhaseOf(PhaseValue(ps[k])) == ps[k] && Typed(PhaseFrame(), PhaseValue(ps[k])) && Whole(PhaseFrame(), PhaseValue(ps[k]))
      ensures Fits(PhaseFrame(), PhaseValue(ps[k])) <==> PhaseStorable(ps[k])
    {
      PhaseFrameLaws(ps[k]);
    }
    TableRoundTrip(phases);
    PhaseFrameLaws(Runtime.InitialRecord(PhaseNode(0, 0, [], [], false, [], false, 0), 0));
    FrameLengthy();
    ListSanity(0, MAX_PHASES, PhaseFrame());
    ManyLaws(MAX_PHASES, PhaseFrame(), TableValue(phases).items);
    assert PhaseListOf(TableValue(phases)) == ps;
  }

  lemma FrameLengthy()
    ensures Lengthy(PhaseFrame())
  {
    hide PhaseSchema;
  }

  lemma PhaseFrameLaws(p: PhaseRecord)
    ensures PhaseOf(PhaseValue(p)) == p && Typed(PhaseFrame(), PhaseValue(p)) && Whole(PhaseFrame(), PhaseValue(p)) && Sane(PhaseFrame())
    ensures Fits(PhaseFrame(), PhaseValue(p)) <==> PhaseStorable(p)
  {
    hide PhaseValue;
    hide PhaseOf;
    hide PhaseSchema;
    hide PhaseWithin;
    hide Encode;
    PhaseReads(p);
    PhaseShape(p);
    FramedLaws(MAX_BLOB, PhaseSchema(), PhaseValue(p));
    hide Typed;
    hide Fits;
    hide Whole;
  }

  lemma FramedLaws(bound: nat, inner: Schema, v: Value)
    requires Typed(inner, v) && Sane(inner) && bound <= MAX_BLOB * 2
    ensures Typed(Framed(bound, inner), v) && Sane(Framed(bound, inner)) && (Whole(inner, v) ==> Whole(Framed(bound, inner), v))
    ensures Fits(Framed(bound, inner), v) <==> Fits(inner, v) && |Encode(inner, v)| <= bound
  {
    ListSanity(0, bound, inner);
  }

  /* ---------- Sessions ---------- */

  const MAX_OPTIONS: nat := 1024
  const MAX_SOURCES: nat := 4096

  function OptionSchema(): Schema { G2(StringField(), StringField()) }
  function OptionValue(o: EnvironmentVariable): Value { T2(Octets(o.name), Octets(o.value)) }
  function OptionOf(v: Value): EnvironmentVariable { EnvironmentVariable(TextOf(Item(v, 0)), TextOf(Item(v, 1))) }
  function OptionsValue(xs: seq<EnvironmentVariable>): Value { Tuple(seq(|xs|, k requires 0 <= k < |xs| => OptionValue(xs[k]))) }
  function OptionsOf(v: Value): seq<EnvironmentVariable> { seq(|Items(v)|, k requires 0 <= k < |Items(v)| => OptionOf(Items(v)[k])) }

  predicate OptionsWithin(xs: seq<EnvironmentVariable>) {
    |xs| <= MAX_OPTIONS && forall k :: 0 <= k < |xs| ==> |xs[k].name| <= MAX_STRING && |xs[k].value| <= MAX_STRING
  }

  lemma OptionLaws(o: EnvironmentVariable)
    ensures OptionOf(OptionValue(o)) == o && Typed(OptionSchema(), OptionValue(o)) && Whole(OptionSchema(), OptionValue(o)) && Sane(OptionSchema())
    ensures Fits(OptionSchema(), OptionValue(o)) <==> |o.name| <= MAX_STRING && |o.value| <= MAX_STRING
  {
    hide Typed;
    hide Fits;
    hide Whole;
    hide Sane;
    FieldLaws(0, 0, o.name, MAX_STRING, false, ZERO_DIGEST, 0);
    FieldLaws(0, 0, o.value, MAX_STRING, false, ZERO_DIGEST, 0);
    G2Laws(StringField(), StringField(), Octets(o.name), Octets(o.value));
  }

  lemma OptionLengthy()
    ensures Lengthy(OptionSchema())
  {
    hide Lengthy;
    WordLengthy();
    GroupLengthy(StringField(), StringField(), Flag, Flag);
  }

  lemma OptionsLaws(xs: seq<EnvironmentVariable>)
    ensures OptionsOf(OptionsValue(xs)) == xs
    ensures Typed(Many(MAX_OPTIONS, OptionSchema()), OptionsValue(xs)) && Whole(Many(MAX_OPTIONS, OptionSchema()), OptionsValue(xs)) && Sane(Many(MAX_OPTIONS, OptionSchema()))
    ensures Fits(Many(MAX_OPTIONS, OptionSchema()), OptionsValue(xs)) <==> OptionsWithin(xs)
  {
    hide Typed;
    hide Fits;
    hide Whole;
    hide Sane;
    hide OptionValue;
    hide OptionOf;
    hide OptionSchema;
    forall k | 0 <= k < |xs|
      ensures OptionOf(OptionValue(xs[k])) == xs[k] && Typed(OptionSchema(), OptionValue(xs[k])) && Whole(OptionSchema(), OptionValue(xs[k]))
      ensures Fits(OptionSchema(), OptionValue(xs[k])) <==> |xs[k].name| <= MAX_STRING && |xs[k].value| <= MAX_STRING
    {
      OptionLaws(xs[k]);
    }
    OptionLaws(EnvironmentVariable([], []));
    ManyLaws(MAX_OPTIONS, OptionSchema(), OptionsValue(xs).items);
    OptionLengthy();
    ListSanity(0, MAX_OPTIONS, OptionSchema());
  }

  function SessionHead(): Schema { G4(Version(), WordsField(2), EnumField(6), EnumField(6)) }
  function SessionBinding(): Schema { G4(WordsField(16), StringField(), StringField(), Many(MAX_OPTIONS, OptionSchema())) }
  function SessionPlan(): Schema {
    G4(RefsField(MAX_COLLECTION), RefsField(MAX_SOURCES), Framed(MAX_BLOB, PlanSchema()), TableSchema())
  }
  function SessionWork(): Schema { G4(WordField(), RefsField(MAX_COLLECTION), Flag, Framed(MAX_BLOB, CandidateSchema())) }
  function SessionTail(): Schema { G4(WordsField(4), StringField(), WordsField(2), Word32Field()) }
  function SessionSchema(): Schema {
    G2(G3(SessionHead(), SessionBinding(), SessionPlan()), G3(SessionWork(), SessionTail(), Hex))
  }

  function SessionWords(s: CompilerSession): seq<U64> {
    [s.request, s.compilation, s.compilationGeneration, s.attempt, s.attemptGeneration, s.toolchain.id,
     s.toolchain.generation, s.target.id, s.target.generation, s.environment.id, s.environment.generation, s.policy.id,
     s.policy.generation, s.source.id, s.source.generation, s.irGeneration]
  }

  function SessionHeadValue(s: CompilerSession): Value {
    T4(Unit, Words([s.id, s.generation]), Num(SessionStateCode(s.state)), Num(RecoveryCode(s.recoveryState)))
  }
  function SessionBindingValue(s: CompilerSession): Value {
    T4(Words(SessionWords(s)), Octets(s.adapterName), Octets(s.finalArtifactName), OptionsValue(s.adapterOptions))
  }
  ghost function SessionPlanValue(s: CompilerSession): Value {
    T4(RefsValue(s.cooperating), RefsValue(s.sources), PlanValue(s.plan.nodes), TableValue(s.phases))
  }
  function SessionWorkValue(s: CompilerSession): Value {
    T4(Num(s.currentPhase), RefsValue(s.intermediates), Bit(s.candidatePresent), CandidateValue(s.candidate))
  }
  function SessionTailValue(s: CompilerSession): Value {
    T4(Words([s.recovery, s.recoveryGeneration, s.evidenceGeneration, s.epoch]), Octets(s.failureDetail),
       Words([s.createdAt, s.updatedAt]), Num(s.retriesUsed))
  }
  ghost function SessionValue(s: CompilerSession): Value {
    T2(T3(SessionHeadValue(s), SessionBindingValue(s), SessionPlanValue(s)),
       T3(SessionWorkValue(s), SessionTailValue(s), Octets(s.requestDigest)))
  }

  /** The node list a stored session carries. */
  function StoredNodes(v: Value): Nodes { NodesOf(Item(Item(Item(Item(v, 0), 2), 2), 1)) }

  /** The session a value stands for, once its plan has been built. */
  function SessionOf(v: Value, plan: PhasePlan): CompilerSession {
    var a, b := Item(v, 0), Item(v, 1);
    var head, binding, planned := Item(a, 0), Item(a, 1), Item(a, 2);
    var work, tail := Item(b, 0), Item(b, 1);
    var ids, w, x, y := Item(head, 1), Item(binding, 0), Item(tail, 0), Item(tail, 2);
    CompilerSession(
      U64Of(Item(ids, 0)), U64Of(Item(ids, 1)), SessionStateOf(Item(head, 2)), RecoveryOf(Item(head, 3)),
      U64Of(Item(w, 0)), U64Of(Item(w, 1)), U64Of(Item(w, 2)), U64Of(Item(w, 3)), U64Of(Item(w, 4)),
      Ref(U64Of(Item(w, 5)), U64Of(Item(w, 6))), RefsOf(Item(planned, 0)), Ref(U64Of(Item(w, 7)), U64Of(Item(w, 8))),
      Ref(U64Of(Item(w, 9)), U64Of(Item(w, 10))), Ref(U64Of(Item(w, 11)), U64Of(Item(w, 12))),
      Ref(U64Of(Item(w, 13)), U64Of(Item(w, 14))), RefsOf(Item(planned, 1)), U64Of(Item(w, 15)),
      TextOf(Item(binding, 1)), TextOf(Item(binding, 2)), OptionsOf(Item(binding, 3)), plan, TableOf(Item(planned, 3)),
      U64Of(Item(work, 0)), RefsOf(Item(work, 1)), CandidateOf(Item(work, 3)), BoolOf(Item(work, 2)),
      U64Of(Item(x, 0)), U64Of(Item(x, 1)), U64Of(Item(x, 2)), U64Of(Item(x, 3)), TextOf(Item(tail, 1)),
      U64Of(Item(y, 0)), U64Of(Item(y, 1)), U32Of(Item(tail, 3)), DigestOf(Item(b, 2)))
  }

  function PlanSize(nodes: Nodes): nat {
    PlanLaws(nodes);
    |Encode(PlanSchema(), PlanValue(nodes))|
  }

  function CandidateSize(c: FinalCandidate): nat {
    CandidateLaws(c);
    |Encode(CandidateSchema(), CandidateValue(c))|
  }

  ghost predicate TableStorable(phases: map<U64, PhaseRecord>) {
    |Listed(phases)| <= MAX_PHASES && forall k :: 0 <= k < |Listed(phases)| ==> PhaseStorable(Listed(phases)[k])
  }

  /** Every ceiling of the session decoder. */
  ghost predicate SessionWithin(s: CompilerSession) {
    && |s.adapterName| <= MAX_STRING && |s.finalArtifactName| <= MAX_STRING && |s.failureDetail| <= MAX_STRING
    && OptionsWithin(s.adapterOptions)
    && |s.cooperating| <= MAX_COLLECTION && |s.sources| <= MAX_SOURCES && |s.intermediates| <= MAX_COLLECTION
    && NodesWithin(s.plan.nodes) && PlanSize(s.plan.nodes) <= MAX_BLOB
    && TableStorable(s.phases)
    && CandidateWithin(s.candidate) && CandidateSize(s.candidate) <= MAX_BLOB
  }

  lemma SessionHeadLaws(s: CompilerSession)
    ensures var v := SessionHeadValue(s);
            && Item(v, 1) == Words([s.id, s.generation]) && SessionStateOf(Item(v, 2)) == s.state
            && RecoveryOf(Item(v, 3)) == s.recoveryState
    ensures Typed(SessionHead(), SessionHeadValue(s)) && Whole(SessionHead(), SessionHeadValue(s)) && Fits(SessionHead(), SessionHeadValue(s)) && Sane(SessionHead())
  {
    hide Typed;
    hide Fits;
    hide Whole;
    hide Sane;
    hide T4;
    hide Words;
    hide SessionStateOf;
    hide RecoveryOf;
    SessionEnumLaws(s.state, s.recoveryState);
    WordsLaws([s.id, s.generation]);
    ListSanity(2, 0, Flag);
    FieldLaws(SessionStateCode(s.state), 6, [], 0, false, ZERO_DIGEST, 0);
    FieldLaws(RecoveryCode(s.recoveryState), 6, [], 0, false, ZERO_DIGEST, 0);
    G4Laws(Version(), WordsField(2), EnumField(6), EnumField(6),
           Unit, Words([s.id, s.generation]), Num(SessionStateCode(s.state)), Num(RecoveryCode(s.recoveryState)));
  }

  lemma SessionBindingLaws(s: CompilerSession)
    ensures var v := SessionBindingValue(s);
            && Item(v, 0) == Words(SessionWords(s)) && TextOf(Item(v, 1)) == s.adapterName
            && TextOf(Item(v, 2)) == s.finalArtifactName && OptionsOf(Item(v, 3)) == s.adapterOptions
    ensures Typed(SessionBinding(), SessionBindingValue(s)) && Whole(SessionBinding(), SessionBindingValue(s)) && Sane(SessionBinding())
    ensures Fits(SessionBinding(), SessionBindingValue(s)) <==>
              |s.adapterName| <= MAX_STRING && |s.finalArtifactName| <= MAX_STRING && OptionsWithin(s.adapterOptions)
  {
    hide Typed;
    hide Fits;
    hide Whole;
    hide Sane;
    hide T4;
    hide Words;
    hide OptionsValue;
    hide OptionsOf;
    hide OptionsWithin;
    OptionsLaws(s.adapterOptions);
    WordsLaws(SessionWords(s));
    ListSanity(16, 0, Flag);
    FieldLaws(0, 0, s.adapterName, MAX_STRING, false, ZERO_DIGEST, 0);
    FieldLaws(0, 0, s.finalArtifactName, MAX_STRING, false, ZERO_DIGEST, 0);
    G4Laws(WordsField(16), StringField(), StringField(), Many(MAX_OPTIONS, OptionSchema()),
           Words(SessionWords(s)), Octets(s.adapterName), Octets(s.finalArtifactName), OptionsValue(s.adapterOptions));
  }

  lemma PlanFrameLaws(nodes: Nodes)
    ensures NodesOf(Item(PlanValue(nodes), 1)) == nodes
    ensures Typed(Framed(MAX_BLOB, PlanSchema()), PlanValue(nodes)) && Whole(Framed(MAX_BLOB, PlanSchema()), PlanValue(nodes)) && Sane(Framed(MAX_BLOB, PlanSchema()))
    ensures Fits(Framed(MAX_BLOB, PlanSchema()), PlanValue(nodes)) <==> NodesWithin(nodes) && PlanSize(nodes) <= MAX_BLOB
  {
    hide Typed;
    hide Fits;
    hide Whole;
    hide Sane;
    hide PlanValue;
    hide PlanSchema;
    hide NodesWithin;
    hide Encode;
    PlanLaws(nodes);
    FramedLaws(MAX_BLOB, PlanSchema(), PlanValue(nodes));
  }

  lemma CandidateFrameLaws(c: FinalCandidate)
    ensures CandidateOf(CandidateValue(c)) == c
    ensures Typed(Framed(MAX_BLOB, CandidateSchema()), CandidateValue(c)) && Whole(Framed(MAX_BLOB, CandidateSchema()), CandidateValue(c)) && Sane(Framed(MAX_BLOB, CandidateSchema()))
    ensures Fits(Framed(MAX_BLOB, CandidateSchema()), CandidateValue(c)) <==> CandidateWithin(c) && CandidateSize(c) <= MAX_BLOB
  {
    hide Typed;
    hide Fits;
    hide Whole;
    hide Sane;
    hide CandidateValue;
    hide CandidateOf;
    hide CandidateSchema;
    hide CandidateWithin;
    hide Encode;
    CandidateLaws(c);
    FramedLaws(MAX_BLOB, CandidateSchema(), CandidateValue(c));
  }

  lemma SessionPlanLaws(s: CompilerSession)
    requires Keyed(s.phases)
    ensures var v := SessionPlanValue(s);
            && RefsOf(Item(v, 0)) == s.cooperating && RefsOf(Item(v, 1)) == s.sources
            && NodesOf(Item(Item(v, 2), 1)) == s.plan.nodes && TableOf(Item(v, 3)) == s.phases
    ensures Typed(SessionPlan(), SessionPlanValue(s)) && Whole(SessionPlan(), SessionPlanValue(s)) && Sane(SessionPlan())
    ensures Fits(SessionPlan(), SessionPlanValue(s)) <==>
              && |s.cooperating| <= MAX_COLLECTION && |s.sources| <= MAX_SOURCES
              && NodesWithin(s.plan.nodes) && PlanSize(s.plan.nodes) <= MAX_BLOB && TableStorable(s.phases)
  {
    hide Typed;
    hide Fits;
    hide Whole;
    hide Sane;
    hide T4;
    hide RefsValue;
    hide RefsOf;
    hide PlanValue;
    hide PlanSchema;
    hide NodesOf;
    hide NodesWithin;
    hide PlanSize;
    hide TableValue;
    hide TableOf;
    hide TableSchema;
    hide Keyed;
    RefsLaws(s.cooperating, MAX_COLLECTION);
    RefsLaws(s.sources, MAX_SOURCES);
    ListSanity(0, MAX_COLLECTION, Flag);
    ListSanity(0, MAX_SOURCES, Flag);
    PlanFrameLaws(s.plan.nodes);
    TableLaws(s.phases);
    G4Laws(RefsField(MAX_COLLECTION), RefsField(MAX_SOURCES), Framed(MAX_BLOB, PlanSchema()), TableSchema(),
           RefsValue(s.cooperating), RefsValue(s.sources), PlanValue(s.plan.nodes), TableValue(s.phases));
  }

  lemma SessionWorkLaws(s: CompilerSession)
    ensures var v := SessionWorkValue(s);
            && U64Of(Item(v, 0)) == s.currentPhase && RefsOf(Item(v, 1)) == s.intermediates
            && BoolOf(Item(v, 2)) == s.candidatePresent && CandidateOf(Item(v, 3)) == s.candidate
    ensures Typed(SessionWork(), SessionWorkValue(s)) && Whole(SessionWork(), SessionWorkValue(s)) && Sane(SessionWork())
    ensures Fits(SessionWork(), SessionWorkValue(s)) <==>
              |s.intermediates| <= MAX_COLLECTION && CandidateWithin(s.candidate) && CandidateSize(s.candidate) <= MAX_BLOB
  {
    hide Typed;
    hide Fits;
    hide Whole;
    hide Sane;
    hide T4;
    hide RefsValue;
    hide RefsOf;
    hide CandidateValue;
    hide CandidateOf;
    hide CandidateSchema;
    hide CandidateWithin;
    hide CandidateSize;
    RefsLaws(s.intermediates, MAX_COLLECTION);
    ListSanity(0, MAX_COLLECTION, Flag);
    CandidateFrameLaws(s.candidate);
    FieldLaws(s.currentPhase, 0, [], 0, s.candidatePresent, ZERO_DIGEST, 0);
    G4Laws(WordField(), RefsField(MAX_COLLECTION), Flag, Framed(MAX_BLOB, CandidateSchema()),
           Num(s.currentPhase), RefsValue(s.intermediates), Bit(s.candidatePresent), CandidateValue(s.candidate));
  }

  lemma SessionTailLaws(s: CompilerSession)
    ensures var v := SessionTailValue(s);
            && Item(v, 0) == Words([s.recovery, s.recoveryGeneration, s.evidenceGeneration, s.epoch])
            && TextOf(Item(v, 1)) == s.failureDetail && Item(v, 2) == Words([s.createdAt, s.updatedAt])
            && U32Of(Item(v, 3)) == s.retriesUsed
    ensures Typed(SessionTail(), SessionTailValue(s)) && Whole(SessionTail(), SessionTailValue(s)) && Sane(SessionTail())
    ensures Fits(SessionTail(), SessionTailValue(s)) <==> |s.failureDetail| <= MAX_STRING
  {
    hide Typed;
    hide Fits;
    hide Whole;
    hide Sane;
    hide T4;
    hide Words;
    WordsLaws([s.recovery, s.recoveryGeneration, s.evidenceGeneration, s.epoch]);
    WordsLaws([s.createdAt, s.updatedAt]);
    ListSanity(4, 0, Flag);
    ListSanity(2, 0, Flag);
    FieldLaws(s.retriesUsed, 0, s.failureDetail, MAX_STRING, false, ZERO_DIGEST, 0);
    G4Laws(WordsField(4), StringField(), WordsField(2), Word32Field(),
           Words([s.recovery, s.recoveryGeneration, s.evidenceGeneration, s.epoch]), Octets(s.failureDetail),
           Words([s.createdAt, s.updatedAt]), Num(s.retriesUsed));
  }

  lemma SessionParts(s: CompilerSession)
    requires Keyed(s.phases)
    ensures Typed(SessionSchema(), SessionValue(s)) && Whole(SessionSchema(), SessionValue(s)) && Sane(SessionSchema())
    ensures Fits(SessionSchema(), SessionValue(s)) <==> SessionWithin(s)
    ensures var v := SessionValue(s);
            && Item(Item(v, 0), 0) == SessionHeadValue(s) && Item(Item(v, 0), 1) == SessionBindingValue(s)
            && Item(Item(v, 0), 2) == SessionPlanValue(s) && Item(Item(v, 1), 0) == SessionWorkValue(s)
            && Item(Item(v, 1), 1) == SessionTailValue(s) && Item(Item(v, 1), 2) == Octets(s.requestDigest)
  {
    hide Typed;
    hide Fits;
    hide Whole;
    hide Sane;
    hide T2;
    hide T3;
    hide SessionHead;
    hide SessionBinding;
    hide SessionPlan;
    hide SessionWork;
    hide SessionTail;
    hide SessionHeadValue;
    hide SessionBindingValue;
    hide SessionPlanValue;
    hide SessionWorkValue;
    hide SessionTailValue;
    hide OptionsWithin;
    hide NodesWithin;
    hide PlanSize;
    hide TableStorable;
    hide CandidateWithin;
    hide CandidateSize;
    SessionHeadLaws(s);
    SessionBindingLaws(s);
    SessionPlanLaws(s);
    SessionWorkLaws(s);
    SessionTailLaws(s);
    FieldLaws(0, 0, [], 0, false, s.requestDigest, 0);
    G3Laws(SessionHead(), SessionBinding(), SessionPlan(), SessionHeadValue(s), SessionBindingValue(s), SessionPlanValue(s));
    G3Laws(SessionWork(), SessionTail(), Hex, SessionWorkValue(s), SessionTailValue(s), Octets(s.requestDigest));
    G2Laws(G3(SessionHead(), SessionBinding(), SessionPlan()), G3(SessionWork(), SessionTail(), Hex),
           T3(SessionHeadValue(s), SessionBindingValue(s), SessionPlanValue(s)),
           T3(SessionWorkValue(s), SessionTailValue(s), Octets(s.requestDigest)));
  }

  lemma SessionReads(s: CompilerSession)
    requires Keyed(s.phases)
    ensures SessionOf(SessionValue(s), s.plan) == s && StoredNodes(SessionValue(s)) == s.plan.nodes
  {
    hide Typed;
    hide Fits;
    hide Whole;
    hide Sane;
    hide SessionValue;
    hide SessionHeadValue;
    hide SessionBindingValue;
    hide SessionPlanValue;
    hide SessionWorkValue;
    hide SessionTailValue;
    hide Words;
    hide RefsOf;
    hide OptionsOf;
    hide TableOf;
    hide CandidateOf;
    hide NodesOf;
    hide SessionStateOf;
    hide RecoveryOf;
    hide SessionWithin;
    hide Keyed;
    SessionParts(s);
    SessionHeadLaws(s);
    SessionBindingLaws(s);
    SessionPlanLaws(s);
    SessionWorkLaws(s);
    SessionTailLaws(s);
    WordsAt([s.id, s.generation]);
    WordsAt(SessionWords(s));
    WordsAt([s.recovery, s.recoveryGeneration, s.evidenceGeneration, s.epoch]);
    WordsAt([s.createdAt, s.updatedAt]);
  }
}
