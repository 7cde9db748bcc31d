/** Intermediate artifacts and their registry (include/crf/artifact.hpp, src/core/artifact.cpp). */
module Artifacts {
  import opened StrongId
  import opened Bytes
  import opened Wrappers
  import opened Phases
  import opened Sorting
  import PhasePlans

  datatype ArtifactState = Unknown | Valid | Stale | Incompatible | Corrupt | Superseded | Unsupported

  datatype AuthorityState = Candidate | Authoritative | Revoked | Never

  datatype Artifact = Artifact(
    id: U64,
    generation: U64,
    format: PhasePlans.ObjectFormat,
    path: Text,
    content: DigestBytes,
    size: U64,
    producer: Ref,
    invocation: Ref,
    toolchain: Ref,
    target: Ref,
    source: Ref,
    irGeneration: U64,
    environment: Ref,
    policy: Ref,
    lineage: seq<Ref>,
    state: ArtifactState,
    authority: AuthorityState,
    provenance: U64,
    detail: Text,
    declared: DigestBytes,
    current: bool)

  const MAX_ARTIFACTS: nat := 65536

  /** Authority, currency and validity agree: authoritative is the same as current, and only a
      VALID artifact is either. */
  predicate Coupled(a: Artifact) {
    && (a.authority == Authoritative <==> a.current)
    && (a.current ==> a.state == Valid)
  }

  /* ---------- The registry as a value ---------- */

  datatype Store = Store(entries: map<U64, Artifact>, next: U64)

  const NO_ARTIFACTS: Store := Store(map[], 1)

  ghost predicate AllCoupled(t: Store) {
    forall id :: id in t.entries ==> Coupled(t.entries[id])
  }

  /** register_artifact: a fresh identity at its first generation. */
  function Registered(t: Store, a: Artifact): Store {
    Store(
      if t.next in t.entries then t.entries else t.entries[t.next := a.(id := t.next, generation := INITIAL)],
      Next(t.next))
  }

  /** set_state: a state that cannot be consumed cannot keep authority. */
  function Stated(a: Artifact, state: ArtifactState, detail: Text): Artifact {
    var b := a.(state := state, detail := detail);
    if state != Valid && a.authority == Authoritative then b.(authority := Revoked, current := false) else b
  }

  function SetState(t: Store, id: U64, state: ArtifactState, detail: Text): Store {
    if id in t.entries then t.(entries := t.entries[id := Stated(t.entries[id], state, detail)]) else t
  }

  /** set_authority is refused for an artifact that is not VALID. */
  predicate MayHold(t: Store, id: U64, authority: AuthorityState) {
    id in t.entries && (authority == Authoritative ==> t.entries[id].state == Valid)
  }

  function SetAuthority(t: Store, id: U64, authority: AuthorityState): Store {
    if MayHold(t, id, authority) then
      t.(entries := t.entries[id := t.entries[id].(authority := authority, current := authority == Authoritative)])
    else t
  }

  function Withdrawn(a: Artifact, detail: Text): Artifact {
    a.(authority := Revoked, current := false,
       state := if a.state == Valid then Superseded else a.state,
       detail := if detail != [] then detail else a.detail)
  }

  /** revoke_phase_outputs, as a pass over the whole registry. */
  function RevokeOutputs(t: Store, phase: U64, generation: U64, detail: Text): Store {
    t.(entries := map id | id in t.entries ::
      if t.entries[id].producer == Ref(phase, generation) then Withdrawn(t.entries[id], detail) else t.entries[id])
  }

  function OutputWithdrawn(a: Artifact, reached: bool, producer: Ref, detail: Text): (b: Artifact)
    ensures b.id == a.id && b.producer == a.producer
  {
    if reached && a.producer == producer then Withdrawn(a, detail) else a
  }

  method WithdrawArtifact(a: Artifact, detail: Text) returns (b: Artifact)
    ensures b == Withdrawn(a, detail)
  {
    b := a.(authority := Revoked, current := false);
    if b.state == Valid {
      b := b.(state := Superseded);
    }
    if detail != [] {
      b := b.(detail := detail);
    }
  }

  /** What hashing the file again finds. */
  datatype FileObservation = Missing | Unreadable | Hashed(content: DigestBytes)

  function Revalidated(a: Artifact, found: FileObservation, detail: Text): Artifact {
    match found
    case Missing => a.(state := Stale, authority := Revoked, current := false, detail := detail)
    case Unreadable => a.(state := Unknown, authority := Revoked, current := false, detail := detail)
    case Hashed(content) =>
      if content != a.content then a.(state := Corrupt, authority := Revoked, current := false, detail := detail)
      else a.(detail := detail)
  }

  function Revalidate(t: Store, id: U64, found: FileObservation, detail: Text): Store {
    if id in t.entries && t.entries[id].path != [] then
      t.(entries := t.entries[id := Revalidated(t.entries[id], found, detail)])
    else t
  }

  /* ---------- The registry with its producer index ---------- */

  /** The identities the index lists for a phase. */
  function Listed(byPhase: map<U64, seq<U64>>, phase: U64): seq<U64> {
    if phase in byPhase then byPhase[phase] else []
  }

  /** The index lists exactly the artifacts of each phase, each once. */
  ghost predicate IndexFits(t: Store, byPhase: map<U64, seq<U64>>) {
    && (forall id :: id in t.entries ==> 0 < id < t.next && t.entries[id].id == id)
    && (forall p, id :: id in Listed(byPhase, p) <==> id in t.entries && t.entries[id].producer.id == p)
    && (forall p :: Ascending(Listed(byPhase, p)))
  }

  lemma IndexExtended(t: Store, byPhase: map<U64, seq<U64>>, a: Artifact)
    requires IndexFits(t, byPhase) && 0 < t.next < MAX_COUNTER
    ensures IndexFits(Registered(t, a), byPhase[a.producer.id := Listed(byPhase, a.producer.id) + [t.next]])
  {
    var phase := a.producer.id;
    var list := Listed(byPhase, phase);
    var byPhase' := byPhase[phase := list + [t.next]];
    ListedAfter(byPhase, phase, t.next);
    ListedBelow(t, byPhase, phase);
    hide Listed;
    forall p
      ensures Ascending(Listed(byPhase', p))
    {
      assert Ascending(Listed(byPhase, p));
    }
  }

  lemma ListedBelow(t: Store, byPhase: map<U64, seq<U64>>, phase: U64)
    requires IndexFits(t, byPhase)
    ensures forall k :: 0 <= k < |Listed(byPhase, phase)| ==> Listed(byPhase, phase)[k] < t.next
  {
    forall k | 0 <= k < |Listed(byPhase, phase)|
      ensures Listed(byPhase, phase)[k] < t.next
    {
      var id := Listed(byPhase, phase)[k];
      assert id in Listed(byPhase, phase);
      assert id in t.entries;
    }
  }

  lemma ListedAfter(byPhase: map<U64, seq<U64>>, phase: U64, id: U64)
    ensures var byPhase' := byPhase[phase := Listed(byPhase, phase) + [id]];
            forall p :: Listed(byPhase', p) == if p == phase then Listed(byPhase, phase) + [id] else Listed(byPhase, p)
  {
  }

  /** The index depends only on which artifacts there are and who produced them. */
  lemma IndexKept(t: Store, t': Store, byPhase: map<U64, seq<U64>>)
    requires IndexFits(t, byPhase) && t'.next == t.next && t'.entries.Keys == t.entries.Keys
    requires forall id :: id in t.entries ==> t'.entries[id].id == t.entries[id].id && t'.entries[id].producer == t.entries[id].producer
    ensures IndexFits(t', byPhase)
  {
  }

  lemma RevokedByIndex(t: Store, byPhase: map<U64, seq<U64>>, updated: map<U64, Artifact>, phase: U64, generation: U64, detail: Text)
    requires IndexFits(t, byPhase) && updated.Keys == t.entries.Keys
    requires forall id :: id in t.entries ==>
               updated[id] == OutputWithdrawn(t.entries[id], id in Listed(byPhase, phase), Ref(phase, generation), detail)
    ensures updated == RevokeOutputs(t, phase, generation, detail).entries
  {
  }

  /** What the phase generation produced and is authoritative now. */
  function AuthoritativeOutputs(t: Store, producer: Ref): set<U64> {
    set id | id in t.entries && t.entries[id].producer == producer && t.entries[id].authority == Authoritative
  }

  function AuthoritativeAmong(t: Store, producer: Ref, ids: seq<U64>): set<U64> {
    set id | id in ids && id in AuthoritativeOutputs(t, producer)
  }

  lemma AllAmong(t: Store, byPhase: map<U64, seq<U64>>, producer: Ref)
    requires IndexFits(t, byPhase)
    ensures AuthoritativeAmong(t, producer, Listed(byPhase, producer.id)) == AuthoritativeOutputs(t, producer)
  {
  }

  lemma NoneAmong(t: Store, producer: Ref)
    ensures AuthoritativeAmong(t, producer, []) == {}
  {
  }

  lemma OneMoreAmong(t: Store, producer: Ref, ids: seq<U64>, id: U64)
    requires id !in ids
    ensures |AuthoritativeAmong(t, producer, ids + [id])|
         == |AuthoritativeAmong(t, producer, ids)| + if id in AuthoritativeOutputs(t, producer) then 1 else 0
  {
    hide AuthoritativeOutputs;
    var more := if id in AuthoritativeOutputs(t, producer) then {id} else {};
    assert AuthoritativeAmong(t, producer, ids + [id]) == AuthoritativeAmong(t, producer, ids) + more;
  }

  /** ArtifactRegistry: the entries and, per producer phase, the identities it registered. */
  class ArtifactRegistry {
    var entries: map<U64, Artifact>
    var byPhase: map<U64, seq<U64>>
    var next: U64

    function Value(): Store
      reads this
    {
      Store(entries, next)
    }

    ghost predicate Indexed()
      reads this
    {
      IndexFits(Value(), byPhase)
    }

    constructor ()
      ensures Indexed() && Value() == NO_ARTIFACTS
    {
      entries := map[];
      byPhase := map[];
      next := 1;
    }

    method Register(a: Artifact) returns (r: Option<Ref>)
      requires Indexed() && 0 < next < MAX_COUNTER
      modifies this
      ensures Indexed()
      ensures r.None? <==> |old(entries)| >= MAX_ARTIFACTS
      ensures r.None? ==> Value() == old(Value())
      ensures r.Some? ==> Value() == Registered(old(Value()), a) && r.value == Ref(old(next), INITIAL)
    {
      if |entries| >= MAX_ARTIFACTS {
        return None;
      }
      var id := next;
      var phase := a.producer.id;
      IndexExtended(Value(), byPhase, a);
      byPhase := byPhase[phase := Listed(byPhase, phase) + [id]];
      entries := entries[id := a.(id := id, generation := INITIAL)];
      next := Next(next);
      r := Some(Ref(id, INITIAL));
    }

    method SetArtifactState(id: U64, state: ArtifactState, detail: Text) returns (found: bool)
      requires Indexed()
      modifies this
      ensures Indexed() && byPhase == old(byPhase)
      ensures found == (id in old(entries)) && Value() == SetState(old(Value()), id, state, detail)
    {
      if id !in entries {
        return false;
      }
      var a := entries[id].(state := state, detail := detail);
      if state != Valid && a.authority == Authoritative {
        a := a.(authority := Revoked, current := false);
      }
      entries := entries[id := a];
      found := true;
    }

    method SetArtifactAuthority(id: U64, authority: AuthorityState) returns (ok: bool)
      requires Indexed()
      modifies this
      ensures Indexed() && byPhase == old(byPhase)
      ensures ok == MayHold(old(Value()), id, authority) && Value() == SetAuthority(old(Value()), id, authority)
    {
      if id !in entries {
        return false;
      }
      if authority == Authoritative && entries[id].state != Valid {
        return false;
      }
      entries := entries[id := entries[id].(authority := authority, current := authority == Authoritative)];
      ok := true;
    }

    /** Walking the index touches exactly the artifacts a pass over the registry would. */
    method RevokePhaseOutputs(phase: U64, generation: U64, detail: Text) returns (revoked: nat)
      requires Indexed()
      modifies this
      ensures Indexed() && byPhase == old(byPhase)
      ensures revoked == |AuthoritativeOutputs(old(Value()), Ref(phase, generation))|
      ensures Value() == RevokeOutputs(old(Value()), phase, generation, detail)
    {
      hide AuthoritativeAmong;
      var list := Listed(byPhase, phase);
      var updated := entries;
      revoked := 0;
      NoneAmong(Value(), Ref(phase, generation));
      var i := 0;
      while i < |list|
        invariant entries == old(entries) && byPhase == old(byPhase) && next == old(next)
        invariant 0 <= i <= |list| && updated.Keys == entries.Keys
        invariant revoked == |AuthoritativeAmong(Value(), Ref(phase, generation), list[..i])|
        invariant forall id :: id in entries ==>
                    updated[id] == OutputWithdrawn(entries[id], id in list[..i], Ref(phase, generation), detail)
      {
        var id := list[i];
        assert id in Listed(byPhase, phase) && Ascending(list);
        assert id !in list[..i] && list[..i + 1] == list[..i] + [id];
        OneMoreAmong(Value(), Ref(phase, generation), list[..i], id);
        if updated[id].producer.generation == generation {
          if updated[id].authority == Authoritative {
            revoked := revoked + 1;
          }
          var a := WithdrawArtifact(updated[id], detail);
          updated := updated[id := a];
        }
        i := i + 1;
      }
      assert list[..i] == list;
      AllAmong(Value(), byPhase, Ref(phase, generation));
      RevokedByIndex(Value(), byPhase, updated, phase, generation, detail);
      IndexKept(Value(), Store(updated, next), byPhase);
      entries := updated;
    }

    /** produced_by: the indexed lookup gives what filtering the whole registry gives. */
    method ProducedBy(phase: U64, generation: U64) returns (out: seq<Artifact>)
      requires Indexed()
      ensures forall i, j :: 0 <= i < j < |out| ==> out[i].id < out[j].id
      ensures forall a :: a in out <==> a.id in entries && entries[a.id] == a && a.producer == Ref(phase, generation)
    {
      out := [];
      var list := Listed(byPhase, phase);
      var i := 0;
      while i < |list|
        invariant 0 <= i <= |list|
        invariant forall a :: a in out <==> a.id in list[..i] && a.id in entries && entries[a.id] == a && a.producer == Ref(phase, generation)
        invariant forall j, k :: 0 <= j < k < |out| ==> out[j].id < out[k].id
      {
        var id := list[i];
        assert id in Listed(byPhase, phase) && Ascending(list);
        assert list[..i + 1] == list[..i] + [id];
        if entries[id].producer.generation == generation {
          forall j | 0 <= j < |out|
            ensures out[j].id < id
          {
            assert out[j] in out;
          }
          out := out + [entries[id]];
        }
        i := i + 1;
      }
      assert list[..i] == list;
    }

    method RevalidateArtifact(id: U64, found: FileObservation, detail: Text) returns (r: Option<ArtifactState>)
      requires Indexed()
      modifies this
      ensures Indexed() && byPhase == old(byPhase)
      ensures Value() == Revalidate(old(Value()), id, found, detail)
      ensures r.Some? <==> id in old(entries) && old(entries[id]).path != []
      ensures r.Some? ==> r.value == entries[id].state
    {
      if id !in entries || entries[id].path == [] {
        return None;
      }
      var a := entries[id];
      match found {
        case Missing => a := a.(state := Stale, authority := Revoked, current := false);
        case Unreadable => a := a.(state := Unknown, authority := Revoked, current := false);
        case Hashed(content) =>
          if content != a.content {
            a := a.(state := Corrupt, authority := Revoked, current := false);
          }
      }
      entries := entries[id := a.(detail := detail)];
      r := Some(a.state);
    }
  }
}
