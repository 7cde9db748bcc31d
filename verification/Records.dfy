/** The larger durable records: phases, artifacts, candidates, diagnostic sets, sessions and
    session bundles (src/core/persistence.cpp:308-885, src/core/runtime.cpp:29-190). */
module Records {
  import opened StrongId
  import opened Bytes
  import opened Wrappers
  import opened Phases
  import opened PhasePlans
  import opened Sessions
  import opened Diagnostics
  import opened Wire
  import opened Codec
  import opened Sorting
  import Artifacts
  import Runtime

  /* ---------- Phases ---------- */

  function AttemptsValue(xs: seq<PhaseAttempt>): Value { Tuple(seq(|xs|, k requires 0 <= k < |xs| => AttemptValue(xs[k]))) }
  function AttemptsOf(v: Value): seq<PhaseAttempt> { seq(|Items(v)|, k requires 0 <= k < |Items(v)| => AttemptOf(Items(v)[k])) }
  function HistoryValue(xs: seq<PhaseTransition>): Value { Tuple(seq(|xs|, k requires 0 <= k < |xs| => TransitionValue(xs[k]))) }
  function HistoryOf(v: Value): seq<PhaseTransition> { seq(|Items(v)|, k requires 0 <= k < |Items(v)| => TransitionOf(Items(v)[k])) }

  lemma AttemptLengthy()
    ensures Lengthy(AttemptSchema()) && Lengthy(TransitionSchema())
  {
    hide Lengthy;
    WordLengthy();
    GroupLengthy(WordsField(5), Word32Field(), EnumField(12), EnumField(15));
    GroupLengthy(AttemptHead(), AttemptTail(), StringField(), Flag);
    GroupLengthy(EnumField(12), EnumField(12), WordField(), StringField());
  }

  lemma AttemptsLaws(xs: seq<PhaseAttempt>)
    ensures AttemptsOf(AttemptsValue(xs)) == xs
    ensures Typed(Many(MAX_ATTEMPTS, AttemptSchema()), AttemptsValue(xs)) && Whole(Many(MAX_ATTEMPTS, AttemptSchema()), AttemptsValue(xs)) && Sane(Many(MAX_ATTEMPTS, AttemptSchema()))
    ensures Fits(Many(MAX_ATTEMPTS, AttemptSchema()), AttemptsValue(xs)) <==>
              |xs| <= MAX_ATTEMPTS && forall k :: 0 <= k < |xs| ==> |xs[k].detail| <= MAX_STRING
  {
    hide Typed;
    hide Fits;
    hide Whole;
    hide Sane;
    hide AttemptValue;
    hide AttemptOf;
    hide AttemptSchema;
    forall k | 0 <= k < |xs|
      ensures AttemptOf(AttemptValue(xs[k])) == xs[k] && Typed(AttemptSchema(), AttemptValue(xs[k])) && Whole(AttemptSchema(), AttemptValue(xs[k]))
      ensures Fits(AttemptSchema(), AttemptValue(xs[k])) <==> |xs[k].detail| <= MAX_STRING
    {
      AttemptLaws(xs[k]);
    }
    AttemptLaws(Runtime.NewAttempt(0, 0, ABSENT, 0));
    ManyLaws(MAX_ATTEMPTS, AttemptSchema(), AttemptsValue(xs).items);
    AttemptLengthy();
    ListSanity(0, MAX_ATTEMPTS, AttemptSchema());
  }

  lemma HistoryLaws(xs: seq<PhaseTransition>)
    ensures HistoryOf(HistoryValue(xs)) == xs
    ensures Typed(Many(MAX_TRANSITIONS, TransitionSchema()), HistoryValue(xs)) && Whole(Many(MAX_TRANSITIONS, TransitionSchema()), HistoryValue(xs)) && Sane(Many(MAX_TRANSITIONS, TransitionSchema()))
    ensures Fits(Many(MAX_TRANSITIONS, TransitionSchema()), HistoryValue(xs)) <==>
              |xs| <= MAX_TRANSITIONS && forall k :: 0 <= k < |xs| ==> |xs[k].reason| <= MAX_STRING
  {
    hide Typed;
    hide Fits;
    hide Whole;
    hide Sane;
    hide TransitionValue;
    hide TransitionOf;
    hide TransitionSchema;
    forall k | 0 <= k < |xs|
      ensures TransitionOf(TransitionValue(xs[k])) == xs[k] && Typed(TransitionSchema(), TransitionValue(xs[k])) && Whole(TransitionSchema(), TransitionValue(xs[k]))
      ensures Fits(TransitionSchema(), TransitionValue(xs[k])) <==> |xs[k].reason| <= MAX_STRING
    {
      TransitionLaws(xs[k]);
    }
    TransitionLaws(PhaseTransition(Pending, Ready, 0, []));
    ManyLaws(MAX_TRANSITIONS, TransitionSchema(), HistoryValue(xs).items);
    AttemptLengthy();
    ListSanity(0, MAX_TRANSITIONS, TransitionSchema());
  }

  function PhaseHead(): Schema { G4(Version(), WordsField(2), EnumField(16), StringField()) }
  function PhaseBody(): Schema { G4(EnumField(12), Flag, WordsField(23), Hex) }
  function PhaseOutcome(): Schema { G4(WordField(), EnumField(15), StatusField(), StringField()) }
  function PhaseLinks(): Schema { G4(WordsField(2), IdsField(MAX_COLLECTION), RefsField(MAX_COLLECTION), RefsField(MAX_COLLECTION)) }
  function PhaseLists(): Schema { G2(Many(MAX_ATTEMPTS, AttemptSchema()), Many(MAX_TRANSITIONS, TransitionSchema())) }
  function PhaseSchema(): Schema { G2(G3(PhaseHead(), PhaseBody(), PhaseOutcome()), G2(PhaseLinks(), PhaseLists())) }

  function PhaseWords(p: PhaseRecord): seq<U64> {
    [p.sessionGeneration, p.compilationGeneration, p.attemptGeneration, p.toolchain.id, p.toolchain.generation,
     p.target.id, p.target.generation, p.environment.id, p.environment.generation, p.policy.id, p.policy.generation,
     p.source.id, p.source.generation, p.irGeneration, p.lease.id, p.lease.generation,
     p.activeInvocation.id, p.activeInvocation.generation, p.activeProcess, p.activeProcessGeneration,
     p.diagnostics.id, p.diagnostics.generation, p.commit]
  }

  function PhaseHeadValue(p: PhaseRecord): Value { T4(Unit, Words([p.id, p.generation]), Num(p.kind), Octets(p.adapterPhase)) }
  function PhaseBodyValue(p: PhaseRecord): Value {
    T4(Num(StateCode(p.state)), Bit(p.mandatory), Words(PhaseWords(p)), Octets(p.outputDigest))
  }
  function PhaseOutcomeValue(p: PhaseRecord): Value {
    T4(Num(p.committedAt), Num(FailureCode(p.failure)), Num(p.lastStatus), Octets(p.lastDetail))
  }
  function PhaseLinksValue(p: PhaseRecord): Value {
    T4(Words([p.recovery, p.recoveryGeneration]), Words(p.dependsOn), RefsValue(p.inputs), RefsValue(p.outputs))
  }
  function PhaseListsValue(p: PhaseRecord): Value { T2(AttemptsValue(p.attempts), HistoryValue(p.history)) }
  function PhaseValue(p: PhaseRecord): Value {
    T2(T3(PhaseHeadValue(p), PhaseBodyValue(p), PhaseOutcomeValue(p)), T2(PhaseLinksValue(p), PhaseListsValue(p)))
  }

  function PhaseOf(v: Value): PhaseRecord {
    var a, b := Item(v, 0), Item(v, 1);
    var head, body, outcome := Item(a, 0), Item(a, 1), Item(a, 2);
    var links, lists := Item(b, 0), Item(b, 1);
    var ids, w, r := Item(head, 1), Item(body, 2), Item(links, 0);
    PhaseRecord(
      U64Of(Item(ids, 0)), U64Of(Item(ids, 1)), KindOf(Item(head, 2)), TextOf(Item(head, 3)), StateOf(Item(body, 0)),
      BoolOf(Item(body, 1)), WordsOf(Item(links, 1)),
      U64Of(Item(w, 0)), U64Of(Item(w, 1)), U64Of(Item(w, 2)),
      Ref(U64Of(Item(w, 3)), U64Of(Item(w, 4))), Ref(U64Of(Item(w, 5)), U64Of(Item(w, 6))),
      Ref(U64Of(Item(w, 7)), U64Of(Item(w, 8))), Ref(U64Of(Item(w, 9)), U64Of(Item(w, 10))),
      Ref(U64Of(Item(w, 11)), U64Of(Item(w, 12))), U64Of(Item(w, 13)), Ref(U64Of(Item(w, 14)), U64Of(Item(w, 15))),
      Ref(U64Of(Item(w, 16)), U64Of(Item(w, 17))), U64Of(Item(w, 18)), U64Of(Item(w, 19)),
      RefsOf(Item(links, 2)), RefsOf(Item(links, 3)), Ref(U64Of(Item(w, 20)), U64Of(Item(w, 21))), U64Of(Item(w, 22)),
      DigestOf(Item(body, 3)), U64Of(Item(outcome, 0)), AttemptsOf(Item(lists, 0)), HistoryOf(Item(lists, 1)),
      FailureOf(Item(outcome, 1)), StatusOf(Item(outcome, 2)), TextOf(Item(outcome, 3)), U64Of(Item(r, 0)), U64Of(Item(r, 1)))
  }

  /** The ceilings the phase decoder applies. */
  predicate PhaseWithin(p: PhaseRecord) {
    && |p.adapterPhase| <= MAX_STRING && |p.lastDetail| <= MAX_STRING
    && |p.dependsOn| <= MAX_COLLECTION && |p.inputs| <= MAX_COLLECTION && |p.outputs| <= MAX_COLLECTION
    && |p.attempts| <= MAX_ATTEMPTS && (forall k :: 0 <= k < |p.attempts| ==> |p.attempts[k].detail| <= MAX_STRING)
    && |p.history| <= MAX_TRANSITIONS && (forall k :: 0 <= k < |p.history| ==> |p.history[k].reason| <= MAX_STRING)
  }

  lemma PhaseHeadLaws(p: PhaseRecord)
    ensures var v := PhaseHeadValue(p);
            Item(v, 1) == Words([p.id, p.generation]) && KindOf(Item(v, 2)) == p.kind && TextOf(Item(v, 3)) == p.adapterPhase
    ensures Typed(PhaseHead(), PhaseHeadValue(p)) && Whole(PhaseHead(), PhaseHeadValue(p)) && (Fits(PhaseHead(), PhaseHeadValue(p)) <==> |p.adapterPhase| <= MAX_STRING)
    ensures Sane(PhaseHead())
  {
    hide Typed;
    hide Fits;
    hide Whole;
    hide Sane;
    hide T4;
    hide Words;
    WordsLaws([p.id, p.generation]);
    ListSanity(2, 0, Flag);
    FieldLaws(p.kind, 16, p.adapterPhase, MAX_STRING, false, ZERO_DIGEST, 0);
    G4Laws(Version(), WordsField(2), EnumField(16), StringField(), Unit, Words([p.id, p.generation]), Num(p.kind), Octets(p.adapterPhase));
  }

  lemma PhaseBodyLaws(p: PhaseRecord)
    ensures var v := PhaseBodyValue(p);
            && StateOf(Item(v, 0)) == p.state && BoolOf(Item(v, 1)) == p.mandatory
            && Item(v, 2) == Words(PhaseWords(p)) && DigestOf(Item(v, 3)) == p.outputDigest
    ensures Typed(PhaseBody(), PhaseBodyValue(p)) && Whole(PhaseBody(), PhaseBodyValue(p)) && Fits(PhaseBody(), PhaseBodyValue(p)) && Sane(PhaseBody())
  {
    hide Typed;
    hide Fits;
    hide Whole;
    hide Sane;
    hide T4;
    hide Words;
    EnumLaws(p.state, NoFailure, Artifacts.Unknown, Artifacts.Never);
    WordsLaws(PhaseWords(p));
    ListSanity(23, 0, Flag);
    FieldLaws(StateCode(p.state), 12, [], 0, p.mandatory, p.outputDigest, 0);
    G4Laws(EnumField(12), Flag, WordsField(23), Hex, Num(StateCode(p.state)), Bit(p.mandatory), Words(PhaseWords(p)), Octets(p.outputDigest));
  }

  lemma PhaseOutcomeLaws(p: PhaseRecord)
    ensures var v := PhaseOutcomeValue(p);
            && U64Of(Item(v, 0)) == p.committedAt && FailureOf(Item(v, 1)) == p.failure
            && StatusOf(Item(v, 2)) == p.lastStatus && TextOf(Item(v, 3)) == p.lastDetail
    ensures Typed(PhaseOutcome(), PhaseOutcomeValue(p)) && Whole(PhaseOutcome(), PhaseOutcomeValue(p)) && (Fits(PhaseOutcome(), PhaseOutcomeValue(p)) <==> |p.lastDetail| <= MAX_STRING)
    ensures Sane(PhaseOutcome())
  {
    hide Typed;
    hide Fits;
    hide Whole;
    hide Sane;
    hide T4;
    hide FailureOf;
    EnumLaws(p.state, p.failure, Artifacts.Unknown, Artifacts.Never);
    FieldLaws(p.committedAt, 15, p.lastDetail, MAX_STRING, false, ZERO_DIGEST, 0);
    FieldLaws(FailureCode(p.failure), 15, [], 0, false, ZERO_DIGEST, 0);
    FieldLaws(p.lastStatus, 15, [], 0, false, ZERO_DIGEST, 0);
    G4Laws(WordField(), EnumField(15), StatusField(), StringField(),
           Num(p.committedAt), Num(FailureCode(p.failure)), Num(p.lastStatus), Octets(p.lastDetail));
  }

  lemma PhaseLinksLaws(p: PhaseRecord)
    ensures var v := PhaseLinksValue(p);
            && Item(v, 0) == Words([p.recovery, p.recoveryGeneration]) && WordsOf(Item(v, 1)) == p.dependsOn
            && RefsOf(Item(v, 2)) == p.inputs && RefsOf(Item(v, 3)) == p.outputs
    ensures Typed(PhaseLinks(), PhaseLinksValue(p)) && Whole(PhaseLinks(), PhaseLinksValue(p)) && Sane(PhaseLinks())
    ensures Fits(PhaseLinks(), PhaseLinksValue(p)) <==>
              |p.dependsOn| <= MAX_COLLECTION && |p.inputs| <= MAX_COLLECTION && |p.outputs| <= MAX_COLLECTION
  {
    hide Typed;
    hide Fits;
    hide Whole;
    hide Sane;
    hide T4;
    hide Words;
    hide WordsOf;
    hide RefsValue;
    hide RefsOf;
    WordsLaws([p.recovery, p.recoveryGeneration]);
    WordsLaws(p.dependsOn);
    RefsLaws(p.inputs, MAX_COLLECTION);
    RefsLaws(p.outputs, MAX_COLLECTION);
    ListSanity(2, MAX_COLLECTION, Flag);
    G4Laws(WordsField(2), IdsField(MAX_COLLECTION), RefsField(MAX_COLLECTION), RefsField(MAX_COLLECTION),
           Words([p.recovery, p.recoveryGeneration]), Words(p.dependsOn), RefsValue(p.inputs), RefsValue(p.outputs));
  }

  lemma PhaseListsLaws(p: PhaseRecord)
    ensures AttemptsOf(Item(PhaseListsValue(p), 0)) == p.attempts && HistoryOf(Item(PhaseListsValue(p), 1)) == p.history
    ensures Typed(PhaseLists(), PhaseListsValue(p)) && Whole(PhaseLists(), PhaseListsValue(p)) && Sane(PhaseLists())
    ensures Fits(PhaseLists(), PhaseListsValue(p)) <==>
              && |p.attempts| <= MAX_ATTEMPTS && (forall k :: 0 <= k < |p.attempts| ==> |p.attempts[k].detail| <= MAX_STRING)
              && |p.history| <= MAX_TRANSITIONS && (forall k :: 0 <= k < |p.history| ==> |p.history[k].reason| <= MAX_STRING)
  {
    hide Typed;
    hide Fits;
    hide Whole;
    hide Sane;
    hide T2;
    hide AttemptsValue;
    hide AttemptsOf;
    hide HistoryValue;
    hide HistoryOf;
    AttemptsLaws(p.attempts);
    HistoryLaws(p.history);
    G2Laws(Many(MAX_ATTEMPTS, AttemptSchema()), Many(MAX_TRANSITIONS, TransitionSchema()), AttemptsValue(p.attempts), HistoryValue(p.history));
  }

  lemma PhaseShape(p: PhaseRecord)
    ensures Typed(PhaseSchema(), PhaseValue(p)) && Whole(PhaseSchema(), PhaseValue(p)) && (Fits(PhaseSchema(), PhaseValue(p)) <==> PhaseWithin(p)) && Sane(PhaseSchema())
    ensures var v := PhaseValue(p);
            && Item(Item(v, 0), 0) == PhaseHeadValue(p) && Item(Item(v, 0), 1) == PhaseBodyValue(p) && Item(Item(v, 0), 2) == PhaseOutcomeValue(p)
            && Item(Item(v, 1), 0) == PhaseLinksValue(p) && Item(Item(v, 1), 1) == PhaseListsValue(p)
  {
    hide Typed;
    hide Fits;
    hide Whole;
    hide Sane;
    hide T2;
    hide T3;
    hide PhaseHead;
    hide PhaseBody;
    hide PhaseOutcome;
    hide PhaseLinks;
    hide PhaseLists;
    hide PhaseHeadValue;
    hide PhaseBodyValue;
    hide PhaseOutcomeValue;
    hide PhaseLinksValue;
    hide PhaseListsValue;
    PhaseHeadLaws(p);
    PhaseBodyLaws(p);
    PhaseOutcomeLaws(p);
    PhaseLinksLaws(p);
    PhaseListsLaws(p);
    G3Laws(PhaseHead(), PhaseBody(), PhaseOutcome(), PhaseHeadValue(p), PhaseBodyValue(p), PhaseOutcomeValue(p));
    G2Laws(PhaseLinks(), PhaseLists(), PhaseLinksValue(p), PhaseListsValue(p));
    G2Laws(G3(PhaseHead(), PhaseBody(), PhaseOutcome()), G2(PhaseLinks(), PhaseLists()),
           T3(PhaseHeadValue(p), PhaseBodyValue(p), PhaseOutcomeValue(p)), T2(PhaseLinksValue(p), PhaseListsValue(p)));
  }

  lemma PhaseReads(p: PhaseRecord)
    ensures PhaseOf(PhaseValue(p)) == p
  {
    hide PhaseValue;
    hide PhaseHeadValue;
    hide PhaseBodyValue;
    hide PhaseOutcomeValue;
    hide PhaseLinksValue;
    hide PhaseListsValue;
    hide Words;
    hide WordsOf;
    hide RefsOf;
    hide AttemptsOf;
    hide HistoryOf;
    hide StateOf;
    hide FailureOf;
    hide Typed;
    hide Fits;
    hide Whole;
    hide Sane;
    PhaseShape(p);
    PhaseHeadLaws(p);
    PhaseBodyLaws(p);
    PhaseOutcomeLaws(p);
    PhaseLinksLaws(p);
    PhaseListsLaws(p);
    WordsAt([p.id, p.generation]);
    WordsAt(PhaseWords(p));
    WordsAt([p.recovery, p.recoveryGeneration]);
  }

  /* ---------- Artifacts ---------- */

  function PathField(): Schema { Text(MAX_PATH) }

  function ArtifactHead(): Schema { G4(Version(), WordsField(2), EnumField(12), PathField()) }
  function ArtifactBody(): Schema { G4(Hex, WordsField(17), EnumField(6), EnumField(3)) }
  function ArtifactTail(): Schema { G4(Flag, Hex, StringField(), RefsField(MAX_COLLECTION)) }
  function ArtifactSchema(): Schema { G3(ArtifactHead(), ArtifactBody(), ArtifactTail()) }

  function ArtifactWords(a: Artifacts.Artifact): seq<U64> {
    [a.size, a.producer.id, a.producer.generation, a.invocation.id, a.invocation.generation, a.toolchain.id,
     a.toolchain.generation, a.target.id, a.target.generation, a.source.id, a.source.generation, a.irGeneration,
     a.environment.id, a.environment.generation, a.policy.id, a.policy.generation, a.provenance]
  }

  function ArtifactHeadValue(a: Artifacts.Artifact): Value { T4(Unit, Words([a.id, a.generation]), Num(a.format), Octets(a.path)) }
  function ArtifactBodyValue(a: Artifacts.Artifact): Value {
    T4(Octets(a.content), Words(ArtifactWords(a)), Num(ArtifactStateCode(a.state)), Num(AuthorityCode(a.authority)))
  }
  function ArtifactTailValue(a: Artifacts.Artifact): Value {
    T4(Bit(a.current), Octets(a.declared), Octets(a.detail), RefsValue(a.lineage))
  }
  function ArtifactValue(a: Artifacts.Artifact): Value { T3(ArtifactHeadValue(a), ArtifactBodyValue(a), ArtifactTailValue(a)) }

  function ArtifactOf(v: Value): Artifacts.Artifact {
    var head, body, tail := Item(v, 0), Item(v, 1), Item(v, 2);
    var ids, w := Item(head, 1), Item(body, 1);
    Artifacts.Artifact(
      U64Of(Item(ids, 0)), U64Of(Item(ids, 1)), FormatOf(Item(head, 2)), TextOf(Item(head, 3)), DigestOf(Item(body, 0)),
      U64Of(Item(w, 0)), Ref(U64Of(Item(w, 1)), U64Of(Item(w, 2))), Ref(U64Of(Item(w, 3)), U64Of(Item(w, 4))),
      Ref(U64Of(Item(w, 5)), U64Of(Item(w, 6))), Ref(U64Of(Item(w, 7)), U64Of(Item(w, 8))),
      Ref(U64Of(Item(w, 9)), U64Of(Item(w, 10))), U64Of(Item(w, 11)), Ref(U64Of(Item(w, 12)), U64Of(Item(w, 13))),
      Ref(U64Of(Item(w, 14)), U64Of(Item(w, 15))), RefsOf(Item(tail, 3)), ArtifactStateOf(Item(body, 2)),
      AuthorityOf(Item(body, 3)), U64Of(Item(w, 16)), TextOf(Item(tail, 2)), DigestOf(Item(tail, 1)), BoolOf(Item(tail, 0)))
  }

  predicate ArtifactWithin(a: Artifacts.Artifact) {
    |a.path| <= MAX_PATH && |a.detail| <= MAX_STRING && |a.lineage| <= MAX_COLLECTION
  }

  lemma ArtifactHeadLaws(a: Artifacts.Artifact)
    ensures var v := ArtifactHeadValue(a);
            Item(v, 1) == Words([a.id, a.generation]) && FormatOf(Item(v, 2)) == a.format && TextOf(Item(v, 3)) == a.path
    ensures Typed(ArtifactHead(), ArtifactHeadValue(a)) && Whole(ArtifactHead(), ArtifactHeadValue(a)) && (Fits(ArtifactHead(), ArtifactHeadValue(a)) <==> |a.path| <= MAX_PATH)
    ensures Sane(ArtifactHead())
  {
    hide Typed;
    hide Fits;
    hide Whole;
    hide Sane;
    hide T4;
    hide Words;
    WordsLaws([a.id, a.generation]);
    ListSanity(2, 0, Flag);
    FieldLaws(a.format, 12, a.path, MAX_PATH, false, ZERO_DIGEST, 0);
    G4Laws(Version(), WordsField(2), EnumField(12), PathField(), Unit, Words([a.id, a.generation]), Num(a.format), Octets(a.path));
  }

  lemma ArtifactBodyLaws(a: Artifacts.Artifact)
    ensures var v := ArtifactBodyValue(a);
            && DigestOf(Item(v, 0)) == a.content && Item(v, 1) == Words(ArtifactWords(a))
            && ArtifactStateOf(Item(v, 2)) == a.state && AuthorityOf(Item(v, 3)) == a.authority
    ensures Typed(ArtifactBody(), ArtifactBodyValue(a)) && Whole(ArtifactBody(), ArtifactBodyValue(a)) && Fits(ArtifactBody(), ArtifactBodyValue(a)) && Sane(ArtifactBody())
  {
    hide Typed;
    hide Fits;
    hide Whole;
    hide Sane;
    hide T4;
    hide Words;
    hide ArtifactStateOf;
    hide AuthorityOf;
    EnumLaws(Pending, NoFailure, a.state, a.authority);
    WordsLaws(ArtifactWords(a));
    ListSanity(17, 0, Flag);
    FieldLaws(ArtifactStateCode(a.state), 6, [], 0, false, a.content, 0);
    FieldLaws(AuthorityCode(a.authority), 3, [], 0, false, a.content, 0);
    G4Laws(Hex, WordsField(17), EnumField(6), EnumField(3),
           Octets(a.content), Words(ArtifactWords(a)), Num(ArtifactStateCode(a.state)), Num(AuthorityCode(a.authority)));
  }

  lemma ArtifactTailLaws(a: Artifacts.Artifact)
    ensures var v := ArtifactTailValue(a);
            && BoolOf(Item(v, 0)) == a.current && DigestOf(Item(v, 1)) == a.declared
            && TextOf(Item(v, 2)) == a.detail && RefsOf(Item(v, 3)) == a.lineage
    ensures Typed(ArtifactTail(), ArtifactTailValue(a)) && Whole(ArtifactTail(), ArtifactTailValue(a)) && Sane(ArtifactTail())
    ensures Fits(ArtifactTail(), ArtifactTailValue(a)) <==> |a.detail| <= MAX_STRING && |a.lineage| <= MAX_COLLECTION
  {
    hide Typed;
    hide Fits;
    hide Whole;
    hide Sane;
    hide T4;
    hide RefsValue;
    hide RefsOf;
    RefsLaws(a.lineage, MAX_COLLECTION);
    ListSanity(0, MAX_COLLECTION, Flag);
    FieldLaws(0, 0, a.detail, MAX_STRING, a.current, a.declared, 0);
    G4Laws(Flag, Hex, StringField(), RefsField(MAX_COLLECTION), Bit(a.current), Octets(a.declared), Octets(a.detail), RefsValue(a.lineage));
  }

  lemma ArtifactLaws(a: Artifacts.Artifact)
    ensures ArtifactOf(ArtifactValue(a)) == a
    ensures Typed(ArtifactSchema(), ArtifactValue(a)) && Whole(ArtifactSchema(), ArtifactValue(a)) && (Fits(ArtifactSchema(), ArtifactValue(a)) <==> ArtifactWithin(a))
    ensures Sane(ArtifactSchema())
  {
    hide Typed;
    hide Fits;
    hide Whole;
    hide Sane;
    hide T3;
    hide ArtifactHead;
    hide ArtifactBody;
    hide ArtifactTail;
    hide ArtifactHeadValue;
    hide ArtifactBodyValue;
    hide ArtifactTailValue;
    hide Words;
    hide RefsOf;
    hide ArtifactStateOf;
    hide AuthorityOf;
    ArtifactHeadLaws(a);
    ArtifactBodyLaws(a);
    ArtifactTailLaws(a);
    G3Laws(ArtifactHead(), ArtifactBody(), ArtifactTail(), ArtifactHeadValue(a), ArtifactBodyValue(a), ArtifactTailValue(a));
    WordsAt([a.id, a.generation]);
    WordsAt(ArtifactWords(a));
  }

  /* ---------- Final candidates ---------- */

  function CandidateHead(): Schema { G4(Version(), WordsField(18), EnumField(12), PathField()) }
  function CandidateBody(): Schema { G4(Hex, WordsField(2), Hex, Flag) }
  function CandidateTail(): Schema { G4(Flag, WordField(), RefsField(MAX_COLLECTION), IdsField(MAX_COLLECTION)) }
  function CandidateSchema(): Schema { G3(CandidateHead(), CandidateBody(), CandidateTail()) }

  function CandidateWords(c: FinalCandidate): seq<U64> {
    [c.id, c.generation, c.compilation, c.compilationGeneration, c.attemptGeneration, c.session.id, c.session.generation,
     c.toolchain.id, c.toolchain.generation, c.target.id, c.target.generation, c.environment.id, c.environment.generation,
     c.policy.id, c.policy.generation, c.source.id, c.source.generation, c.irGeneration]
  }

  function CandidateHeadValue(c: FinalCandidate): Value { T4(Unit, Words(CandidateWords(c)), Num(c.format), Octets(c.path)) }
  function CandidateBodyValue(c: FinalCandidate): Value {
    T4(Octets(c.content), Words([c.size, c.provenance]), Octets(c.lineageDigest), Bit(c.completeLineage))
  }
  function CandidateTailValue(c: FinalCandidate): Value {
    T4(Bit(c.handedOff), Num(c.registeredAt), RefsValue(c.lineage), Words(c.evidence))
  }
  function CandidateValue(c: FinalCandidate): Value { T3(CandidateHeadValue(c), CandidateBodyValue(c), CandidateTailValue(c)) }

  function CandidateOf(v: Value): FinalCandidate {
    var head, body, tail := Item(v, 0), Item(v, 1), Item(v, 2);
    var w, x := Item(head, 1), Item(body, 1);
    FinalCandidate(
      U64Of(Item(w, 0)), U64Of(Item(w, 1)), U64Of(Item(w, 2)), U64Of(Item(w, 3)), U64Of(Item(w, 4)),
      Ref(U64Of(Item(w, 5)), U64Of(Item(w, 6))), Ref(U64Of(Item(w, 7)), U64Of(Item(w, 8))),
      Ref(U64Of(Item(w, 9)), U64Of(Item(w, 10))), Ref(U64Of(Item(w, 11)), U64Of(Item(w, 12))),
      Ref(U64Of(Item(w, 13)), U64Of(Item(w, 14))), Ref(U64Of(Item(w, 15)), U64Of(Item(w, 16))), U64Of(Item(w, 17)),
      FormatOf(Item(head, 2)), TextOf(Item(head, 3)), DigestOf(Item(body, 0)), U64Of(Item(x, 0)), RefsOf(Item(tail, 2)),
      WordsOf(Item(tail, 3)), U64Of(Item(x, 1)), DigestOf(Item(body, 2)), BoolOf(Item(body, 3)), U64Of(Item(tail, 1)),
      BoolOf(Item(tail, 0)))
  }

  predicate CandidateWithin(c: FinalCandidate) {
    |c.path| <= MAX_PATH && |c.lineage| <= MAX_COLLECTION && |c.evidence| <= MAX_COLLECTION
  }

  lemma CandidateHeadLaws(c: FinalCandidate)
    ensures var v := CandidateHeadValue(c);
            Item(v, 1) == Words(CandidateWords(c)) && FormatOf(Item(v, 2)) == c.format && TextOf(Item(v, 3)) == c.path
    ensures Typed(CandidateHead(), CandidateHeadValue(c)) && Whole(CandidateHead(), CandidateHeadValue(c)) && (Fits(CandidateHead(), CandidateHeadValue(c)) <==> |c.path| <= MAX_PATH)
    ensures Sane(CandidateHead())
  {
    hide Typed;
    hide Fits;
    hide Whole;
    hide Sane;
    hide T4;
    hide Words;
    WordsLaws(CandidateWords(c));
    ListSanity(18, 0, Flag);
    FieldLaws(c.format, 12, c.path, MAX_PATH, false, ZERO_DIGEST, 0);
    G4Laws(Version(), WordsField(18), EnumField(12), PathField(), Unit, Words(CandidateWords(c)), Num(c.format), Octets(c.path));
  }

  lemma CandidateBodyLaws(c: FinalCandidate)
    ensures var v := CandidateBodyValue(c);
            && DigestOf(Item(v, 0)) == c.content && Item(v, 1) == Words([c.size, c.provenance])
            && DigestOf(Item(v, 2)) == c.lineageDigest && BoolOf(Item(v, 3)) == c.completeLineage
    ensures Typed(CandidateBody(), CandidateBodyValue(c)) && Whole(CandidateBody(), CandidateBodyValue(c)) && Fits(CandidateBody(), CandidateBodyValue(c)) && Sane(CandidateBody())
  {
    hide Typed;
    hide Fits;
    hide Whole;
    hide Sane;
    hide T4;
    hide Words;
    WordsLaws([c.size, c.provenance]);
    ListSanity(2, 0, Flag);
    FieldLaws(0, 0, [], 0, c.completeLineage, c.content, 0);
    FieldLaws(0, 0, [], 0, c.completeLineage, c.lineageDigest, 0);
    G4Laws(Hex, WordsField(2), Hex, Flag, Octets(c.content), Words([c.size, c.provenance]), Octets(c.lineageDigest), Bit(c.completeLineage));
  }

  lemma CandidateTailLaws(c: FinalCandidate)
    ensures var v := CandidateTailValue(c);
            && BoolOf(Item(v, 0)) == c.handedOff && U64Of(Item(v, 1)) == c.registeredAt
            && RefsOf(Item(v, 2)) == c.lineage && WordsOf(Item(v, 3)) == c.evidence
    ensures Typed(CandidateTail(), CandidateTailValue(c)) && Whole(CandidateTail(), CandidateTailValue(c)) && Sane(CandidateTail())
    ensures Fits(CandidateTail(), CandidateTailValue(c)) <==> |c.lineage| <= MAX_COLLECTION && |c.evidence| <= MAX_COLLECTION
  {
    hide Typed;
    hide Fits;
    hide Whole;
    hide Sane;
    hide T4;
    hide RefsValue;
    hide RefsOf;
    hide Words;
    hide WordsOf;
    RefsLaws(c.lineage, MAX_COLLECTION);
    WordsLaws(c.evidence);
    ListSanity(0, MAX_COLLECTION, Flag);
    FieldLaws(c.registeredAt, 0, [], 0, c.handedOff, ZERO_DIGEST, 0);
    G4Laws(Flag, WordField(), RefsField(MAX_COLLECTION), IdsField(MAX_COLLECTION),
           Bit(c.handedOff), Num(c.registeredAt), RefsValue(c.lineage), Words(c.evidence));
  }

  lemma CandidateLaws(c: FinalCandidate)
    ensures CandidateOf(CandidateValue(c)) == c
    ensures Typed(CandidateSchema(), CandidateValue(c)) && Whole(CandidateSchema(), CandidateValue(c)) && (Fits(CandidateSchema(), CandidateValue(c)) <==> CandidateWithin(c))
    ensures Sane(CandidateSchema())
  {
    hide Typed;
    hide Fits;
    hide Whole;
    hide Sane;
    hide T3;
    hide CandidateHead;
    hide CandidateBody;
    hide CandidateTail;
    hide CandidateHeadValue;
    hide CandidateBodyValue;
    hide CandidateTailValue;
    hide Words;
    hide WordsOf;
    hide RefsOf;
    CandidateHeadLaws(c);
    CandidateBodyLaws(c);
    CandidateTailLaws(c);
    G3Laws(CandidateHead(), CandidateBody(), CandidateTail(), CandidateHeadValue(c), CandidateBodyValue(c), CandidateTailValue(c));
    WordsAt(CandidateWords(c));
    WordsAt([c.size, c.provenance]);
  }

  /* ---------- Diagnostic sets ---------- */

  const MAX_TAIL: nat := 16384
  const MAX_DIAGNOSTICS: nat := 4096

  function SeverityOf(v: Value): Severity { if v.Num? && v.n <= 5 then v.n else 0 }

  function EntryHead(): Schema { G4(EnumField(5), StringField(), StringField(), StringField()) }
  function EntryTail(): Schema { G4(Word32Field(), Word32Field(), StringField(), Text(MAX_BLOB)) }
  function EntrySchema(): Schema { G2(EntryHead(), EntryTail()) }

  function EntryHeadValue(d: Diagnostic): Value { T4(Num(d.severity), Octets(d.code), Octets(d.message), Octets(d.file)) }
  function EntryTailValue(d: Diagnostic): Value { T4(Num(d.line), Num(d.column), Octets(d.origin), Octets(d.raw)) }
  function EntryValue(d: Diagnostic): Value { T2(EntryHeadValue(d), EntryTailValue(d)) }

  function EntryOf(v: Value): Diagnostic {
    var a, b := Item(v, 0), Item(v, 1);
    Diagnostic(SeverityOf(Item(a, 0)), TextOf(Item(a, 1)), TextOf(Item(a, 2)), TextOf(Item(a, 3)),
               U32Of(Item(b, 0)), U32Of(Item(b, 1)), TextOf(Item(b, 2)), TextOf(Item(b, 3)))
  }

  predicate EntryWithin(d: Diagnostic) {
    && |d.code| <= MAX_STRING && |d.message| <= MAX_STRING && |d.file| <= MAX_STRING
    && |d.origin| <= MAX_STRING && |d.raw| <= MAX_BLOB
  }

  lemma EntryLaws(d: Diagnostic)
    ensures EntryOf(EntryValue(d)) == d
    ensures Typed(EntrySchema(), EntryValue(d)) && Whole(EntrySchema(), EntryValue(d)) && (Fits(EntrySchema(), EntryValue(d)) <==> EntryWithin(d)) && Sane(EntrySchema())
  {
    hide Typed;
    hide Fits;
    hide Whole;
    hide Sane;
    hide T2;
    hide T4;
    FieldLaws(d.severity, 5, d.code, MAX_STRING, false, ZERO_DIGEST, 0);
    FieldLaws(d.line, 5, d.message, MAX_STRING, false, ZERO_DIGEST, 0);
    FieldLaws(d.column, 5, d.file, MAX_STRING, false, ZERO_DIGEST, 0);
    FieldLaws(0, 5, d.origin, MAX_STRING, false, ZERO_DIGEST, 0);
    FieldLaws(0, 5, d.raw, MAX_BLOB, false, ZERO_DIGEST, 0);
    G4Laws(EnumField(5), StringField(), StringField(), StringField(), Num(d.severity), Octets(d.code), Octets(d.message), Octets(d.file));
    G4Laws(Word32Field(), Word32Field(), StringField(), Text(MAX_BLOB), Num(d.line), Num(d.column), Octets(d.origin), Octets(d.raw));
    G2Laws(EntryHead(), EntryTail(), EntryHeadValue(d), EntryTailValue(d));
  }

  function EntriesValue(xs: seq<Diagnostic>): Value { Tuple(seq(|xs|, k requires 0 <= k < |xs| => EntryValue(xs[k]))) }
  function EntriesOf(v: Value): seq<Diagnostic> { seq(|Items(v)|, k requires 0 <= k < |Items(v)| => EntryOf(Items(v)[k])) }

  lemma EntryLengthy()
    ensures Lengthy(EntrySchema())
  {
    hide Lengthy;
    WordLengthy();
    GroupLengthy(EnumField(5), StringField(), StringField(), StringField());
    GroupLengthy(EntryHead(), EntryTail(), Flag, Flag);
  }

  lemma EntriesLaws(xs: seq<Diagnostic>)
    ensures EntriesOf(EntriesValue(xs)) == xs
    ensures Typed(Many(MAX_DIAGNOSTICS, EntrySchema()), EntriesValue(xs)) && Whole(Many(MAX_DIAGNOSTICS, EntrySchema()), EntriesValue(xs)) && Sane(Many(MAX_DIAGNOSTICS, EntrySchema()))
    ensures Fits(Many(MAX_DIAGNOSTICS, EntrySchema()), EntriesValue(xs)) <==>
              |xs| <= MAX_DIAGNOSTICS && forall k :: 0 <= k < |xs| ==> EntryWithin(xs[k])
  {
    hide Typed;
    hide Fits;
    hide Whole;
    hide Sane;
    hide EntryValue;
    hide EntryOf;
    hide EntrySchema;
    hide EntryWithin;
    forall k | 0 <= k < |xs|
      ensures EntryOf(EntryValue(xs[k])) == xs[k] && Typed(EntrySchema(), EntryValue(xs[k])) && Whole(EntrySchema(), EntryValue(xs[k]))
      ensures Fits(EntrySchema(), EntryValue(xs[k])) <==> EntryWithin(xs[k])
    {
      EntryLaws(xs[k]);
    }
    EntryLaws(Diagnostic(0, [], [], [], 0, 0, [], []));
    ManyLaws(MAX_DIAGNOSTICS, EntrySchema(), EntriesValue(xs).items);
    EntryLengthy();
    ListSanity(0, MAX_DIAGNOSTICS, EntrySchema());
  }

  function SetHead(): Schema { G4(Version(), WordsField(10), Flag, Flag) }
  function SetBody(): Schema { G4(WordsField(4), Signed32, Flag, Word32Field()) }
  function SetTail(): Schema { G4(Word32Field(), Text(MAX_TAIL), Text(MAX_TAIL), Many(MAX_DIAGNOSTICS, EntrySchema())) }
  function SetSchema(): Schema { G3(SetHead(), SetBody(), SetTail()) }

  function SetWords(d: DiagnosticSet): seq<U64> {
    [d.id, d.generation, d.invocation.id, d.invocation.generation, d.phase.id, d.phase.generation, d.toolchain.id,
     d.toolchain.generation, d.target.id, d.target.generation]
  }
  function SetCounts(d: DiagnosticSet): seq<U64> {
    [d.rawStdoutBytes, d.rawStderrBytes, d.droppedStdoutBytes, d.droppedStderrBytes]
  }

  function SetHeadValue(d: DiagnosticSet): Value { T4(Unit, Words(SetWords(d)), Bit(d.normalized), Bit(d.truncated)) }
  function SetBodyValue(d: DiagnosticSet): Value { T4(Words(SetCounts(d)), Int(d.exitCode), Bit(d.crashed), Num(d.errorCount)) }
  function SetTailValue(d: DiagnosticSet): Value {
    T4(Num(d.warningCount), Octets(d.rawStdoutTail), Octets(d.rawStderrTail), EntriesValue(d.entries))
  }
  function SetValue(d: DiagnosticSet): Value { T3(SetHeadValue(d), SetBodyValue(d), SetTailValue(d)) }

  function SetOf(v: Value): DiagnosticSet {
    var head, body, tail := Item(v, 0), Item(v, 1), Item(v, 2);
    var w, x := Item(head, 1), Item(body, 0);
    DiagnosticSet(
      U64Of(Item(w, 0)), U64Of(Item(w, 1)), Ref(U64Of(Item(w, 2)), U64Of(Item(w, 3))),
      Ref(U64Of(Item(w, 4)), U64Of(Item(w, 5))), Ref(U64Of(Item(w, 6)), U64Of(Item(w, 7))),
      Ref(U64Of(Item(w, 8)), U64Of(Item(w, 9))), BoolOf(Item(head, 2)), BoolOf(Item(head, 3)),
      U64Of(Item(x, 0)), U64Of(Item(x, 1)), U64Of(Item(x, 2)), U64Of(Item(x, 3)), I32Of(Item(body, 1)),
      BoolOf(Item(body, 2)), U32Of(Item(body, 3)), U32Of(Item(tail, 0)), TextOf(Item(tail, 1)), TextOf(Item(tail, 2)),
      EntriesOf(Item(tail, 3)))
  }

  predicate SetWithin(d: DiagnosticSet) {
    && |d.rawStdoutTail| <= MAX_TAIL && |d.rawStderrTail| <= MAX_TAIL
    && |d.entries| <= MAX_DIAGNOSTICS && forall k :: 0 <= k < |d.entries| ==> EntryWithin(d.entries[k])
  }

  lemma SetHeadLaws(d: DiagnosticSet)
    ensures var v := SetHeadValue(d);
            Item(v, 1) == Words(SetWords(d)) && BoolOf(Item(v, 2)) == d.normalized && BoolOf(Item(v, 3)) == d.truncated
    ensures Typed(SetHead(), SetHeadValue(d)) && Whole(SetHead(), SetHeadValue(d)) && Fits(SetHead(), SetHeadValue(d)) && Sane(SetHead())
  {
    hide Typed;
    hide Fits;
    hide Whole;
    hide Sane;
    hide T4;
    hide Words;
    WordsLaws(SetWords(d));
    ListSanity(10, 0, Flag);
    FieldLaws(0, 0, [], 0, d.normalized, ZERO_DIGEST, 0);
    FieldLaws(0, 0, [], 0, d.truncated, ZERO_DIGEST, 0);
    G4Laws(Version(), WordsField(10), Flag, Flag, Unit, Words(SetWords(d)), Bit(d.normalized), Bit(d.truncated));
  }

  lemma SetBodyLaws(d: DiagnosticSet)
    ensures var v := SetBodyValue(d);
            && Item(v, 0) == Words(SetCounts(d)) && I32Of(Item(v, 1)) == d.exitCode && BoolOf(Item(v, 2)) == d.crashed
            && U32Of(Item(v, 3)) == d.errorCount
    ensures Typed(SetBody(), SetBodyValue(d)) && Whole(SetBody(), SetBodyValue(d)) && Fits(SetBody(), SetBodyValue(d)) && Sane(SetBody())
  {
    hide Typed;
    hide Fits;
    hide Whole;
    hide Sane;
    hide T4;
    hide Words;
    WordsLaws(SetCounts(d));
    ListSanity(4, 0, Flag);
    FieldLaws(d.errorCount, 0, [], 0, d.crashed, ZERO_DIGEST, d.exitCode);
    G4Laws(WordsField(4), Signed32, Flag, Word32Field(), Words(SetCounts(d)), Int(d.exitCode), Bit(d.crashed), Num(d.errorCount));
  }

  lemma SetTailLaws(d: DiagnosticSet)
    ensures var v := SetTailValue(d);
            && U32Of(Item(v, 0)) == d.warningCount && TextOf(Item(v, 1)) == d.rawStdoutTail && TextOf(Item(v, 2)) == d.rawStderrTail
            && EntriesOf(Item(v, 3)) == d.entries
    ensures Typed(SetTail(), SetTailValue(d)) && Whole(SetTail(), SetTailValue(d)) && (Fits(SetTail(), SetTailValue(d)) <==> SetWithin(d)) && Sane(SetTail())
  {
    hide Typed;
    hide Fits;
    hide Whole;
    hide Sane;
    hide T4;
    hide EntriesValue;
    hide EntriesOf;
    hide EntryWithin;
    EntriesLaws(d.entries);
    FieldLaws(d.warningCount, 0, d.rawStdoutTail, MAX_TAIL, false, ZERO_DIGEST, 0);
    FieldLaws(0, 0, d.rawStderrTail, MAX_TAIL, false, ZERO_DIGEST, 0);
    G4Laws(Word32Field(), Text(MAX_TAIL), Text(MAX_TAIL), Many(MAX_DIAGNOSTICS, EntrySchema()),
           Num(d.warningCount), Octets(d.rawStdoutTail), Octets(d.rawStderrTail), EntriesValue(d.entries));
  }

  lemma SetLaws(d: DiagnosticSet)
    ensures SetOf(SetValue(d)) == d
    ensures Typed(SetSchema(), SetValue(d)) && Whole(SetSchema(), SetValue(d)) && (Fits(SetSchema(), SetValue(d)) <==> SetWithin(d)) && Sane(SetSchema())
  {
    hide Typed;
    hide Fits;
    hide Whole;
    hide Sane;
    hide T3;
    hide SetHead;
    hide SetBody;
    hide SetTail;
    hide SetHeadValue;
    hide SetBodyValue;
    hide SetTailValue;
    hide SetWithin;
    hide Words;
    hide EntriesOf;
    SetHeadLaws(d);
    SetBodyLaws(d);
    SetTailLaws(d);
    G3Laws(SetHead(), SetBody(), SetTail(), SetHeadValue(d), SetBodyValue(d), SetTailValue(d));
    WordsAt(SetWords(d));
    WordsAt(SetCounts(d));
  }
}
