/** Registries of authority identities. TargetRegistry, EnvironmentRegistry and PolicyRegistry
    intern and revise; ToolchainRegistry registers, refreshes and invalidates
    (src/core/target.cpp, src/core/environment.cpp, src/core/policy.cpp,
    src/core/toolchain.cpp). Contents are compared by their canonical digest, which is what
    the contents stand for here. */
module Registries {
  import opened StrongId
  import opened Wrappers

  datatype Identity<T> = Identity(generation: U64, contents: T)

  datatype Registry<T> = Registry(entries: map<U64, Identity<T>>, next: U64)

  function EmptyRegistry<T>(): Registry<T> {
    Registry(map[], 1)
  }

  /** A new identity at its first generation; emplace never replaces an entry. */
  function Added<T>(r: Registry<T>, contents: T): Registry<T> {
    Registry(
      if r.next in r.entries then r.entries else r.entries[r.next := Identity(INITIAL, contents)],
      Next(r.next))
  }

  /** intern: an entry with the same contents is reused, whichever the walk meets first;
      otherwise a new one is added. */
  ghost predicate Interned<T>(before: Registry<T>, contents: T, after: Registry<T>, reference: Ref) {
    if exists id :: id in before.entries && before.entries[id].contents == contents then
      && after == before
      && reference.id in before.entries
      && before.entries[reference.id] == Identity(reference.generation, contents)
    else
      && after == Added(before, contents)
      && reference == Ref(before.next, INITIAL)
  }

  /** revise: the generation advances only when the contents differ. */
  function Revised<T(==)>(r: Registry<T>, id: U64, contents: T): Registry<T> {
    if id in r.entries && r.entries[id].contents != contents then
      r.(entries := r.entries[id := Identity(Next(r.entries[id].generation), contents)])
    else r
  }

  /** refresh: an observation that differs in an authority-relevant way replaces the entry
      under the next generation. */
  function Refreshed<T>(r: Registry<T>, id: U64, observed: T, mutated: bool): Registry<T> {
    if id in r.entries && mutated then
      r.(entries := r.entries[id := Identity(Next(r.entries[id].generation), observed)])
    else r
  }

  function Invalidated<T>(r: Registry<T>, id: U64): Registry<T> {
    if id in r.entries then
      r.(entries := r.entries[id := r.entries[id].(generation := Next(r.entries[id].generation))])
    else r
  }

  /* ---------- Generations only grow ---------- */

  /** Between two moments of one epoch: nothing is forgotten, generations only grow, and an
      entry at an unchanged generation (short of the saturated maximum) has not changed. */
  ghost predicate Evolves<T>(a: Registry<T>, b: Registry<T>) {
    && a.next <= b.next
    && forall id :: id in a.entries ==>
         && id in b.entries
         && a.entries[id].generation <= b.entries[id].generation
         && (a.entries[id].generation == b.entries[id].generation < MAX_COUNTER ==> a.entries[id] == b.entries[id])
  }

  lemma EvolvesTransitive<T>(a: Registry<T>, b: Registry<T>, c: Registry<T>)
    requires Evolves(a, b) && Evolves(b, c)
    ensures Evolves(a, c)
  {
  }

  lemma OperationsEvolve<T>(r: Registry<T>, id: U64, contents: T, mutated: bool)
    ensures Evolves(r, Added(r, contents))
    ensures Evolves(r, Revised(r, id, contents))
    ensures Evolves(r, Refreshed(r, id, contents, mutated))
    ensures Evolves(r, Invalidated(r, id))
  {
  }

  /** No ABA: if an entry is seen at the same generation at two moments, it was the same
      entry at every moment between them. */
  lemma UnchangedBetween<T>(a: Registry<T>, m: Registry<T>, b: Registry<T>, reference: Ref)
    requires Evolves(a, m) && Evolves(m, b)
    requires reference.id in a.entries && a.entries[reference.id].generation == reference.generation < MAX_COUNTER
    requires reference.id in b.entries && b.entries[reference.id].generation == reference.generation
    ensures reference.id in m.entries && m.entries[reference.id] == a.entries[reference.id] == b.entries[reference.id]
  {
  }

  /** The registries as the source keeps them: one map updated in place. */
  class IdentityRegistry<T(==)> {
    var entries: map<U64, Identity<T>>
    var next: U64

    function Value(): Registry<T>
      reads this
    {
      Registry(entries, next)
    }

    constructor ()
      ensures Value() == EmptyRegistry()
    {
      entries := map[];
      next := 1;
    }

    method Add(contents: T) returns (reference: Ref)
      modifies this
      ensures Value() == Added(old(Value()), contents)
      ensures reference == Ref(old(next), INITIAL)
    {
      reference := Ref(next, INITIAL);
      if next !in entries {
        entries := entries[next := Identity(INITIAL, contents)];
      }
      next := Next(next);
    }

    method Revise(id: U64, contents: T) returns (r: Option<Ref>)
      modifies this
      ensures Value() == Revised(old(Value()), id, contents)
      ensures r.Some? <==> id in old(entries)
      ensures r.Some? ==> r.value == Ref(id, entries[id].generation)
      ensures r.Some? ==> (entries[id].generation == old(entries[id]).generation < MAX_COUNTER <==>
                           old(entries[id]).contents == contents && old(entries[id]).generation < MAX_COUNTER)
    {
      if id !in entries {
        return None;
      }
      if entries[id].contents != contents {
        entries := entries[id := Identity(Next(entries[id].generation), contents)];
      }
      r := Some(Ref(id, entries[id].generation));
    }

    method Refresh(id: U64, observed: T, mutated: bool) returns (found: bool)
      modifies this
      ensures Value() == Refreshed(old(Value()), id, observed, mutated)
      ensures found == (id in old(entries))
    {
      if id !in entries {
        return false;
      }
      if mutated {
        entries := entries[id := Identity(Next(entries[id].generation), observed)];
      }
      found := true;
    }

    method Invalidate(id: U64) returns (found: bool)
      modifies this
      ensures Value() == Invalidated(old(Value()), id)
      ensures found == (id in old(entries))
    {
      if id !in entries {
        return false;
      }
      entries := entries[id := Identity(Next(entries[id].generation), entries[id].contents)];
      found := true;
    }
  }

  /** intern's walk over the table. */
  method Intern<T(==)>(registry: IdentityRegistry<T>, contents: T) returns (reference: Ref)
    modifies registry
    ensures Interned(old(registry.Value()), contents, registry.Value(), reference)
  {
    var remaining := registry.entries.Keys;
    while remaining != {}
      invariant remaining <= registry.entries.Keys && registry.Value() == old(registry.Value())
      invariant forall id :: id in registry.entries.Keys - remaining ==> registry.entries[id].contents != contents
      decreases |remaining|
    {
      var id :| id in remaining;
      remaining := remaining - {id};
      if registry.entries[id].contents == contents {
        return Ref(id, registry.entries[id].generation);
      }
    }
    reference := registry.Add(contents);
  }
}
