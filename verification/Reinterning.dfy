/** Generations after a restart. Targets, environments and policies are interned again at their
    first generation (src/core/environment.cpp:222-235), so that a generation bound in an earlier
    process can come round again: this is exactly when. */
module Reinterning {
  import opened StrongId
  import opened Bytes
  import opened Wrappers
  import opened Phases
  import opened Sessions
  import opened Registries
  import opened Runtime
  import opened Safety
  import opened Guarantees
  import opened CommitSafety
  import Custody
  import Authority
  import Artifacts

  /** The entry stays as it is, or moves to its next generation. */
  ghost predicate Advances<T>(a: Registry<T>, b: Registry<T>, id: U64) {
    id in a.entries ==>
      && id in b.entries
      && (b.entries[id] == a.entries[id] || b.entries[id].generation == Next(a.entries[id].generation))
  }

  /** One action revises an identity at most once. */
  lemma StepAdvances(w: World, e: Event, w': World, id: U64)
    requires Step(w, e, w')
    ensures Advances(w.domains.targets, w'.domains.targets, id)
    ensures Advances(w.domains.environments, w'.domains.environments, id)
    ensures Advances(w.domains.policies, w'.domains.policies, id)
  {
    hide Apply;
    hide Commit;
    if e.action.DoChange? {
      ChangeIs(w, e);
    } else if e.action.DoCommit? {
      Custody.SpecialActions(w, e);
      CommitDomains(w, e.action.r, e.action.probe, e.action.pub, e.env);
    } else {
      OthersSilent(w, e);
    }
  }

  lemma ChangeIs(w: World, e: Event)
    requires e.action.DoChange?
    ensures Apply(w, e).domains == Change(w.domains, e.action.change)
  {
    hide Change;
  }

  lemma CommitDomains(w: World, r: Reservation, probe: Probe, pub: Publication, env: Ambient)
    ensures var d := Commit(w, r, probe, pub, env).domains;
            d.targets == w.domains.targets && d.environments == w.domains.environments && d.policies == w.domains.policies
  {
    hide CommitVerdict;
    hide CommittedSession;
    hide BundleOf;
    hide FencedForCommit;
    hide StatusOf;
    hide Stamped;
    hide Authorized;
    hide AllMayHold;
    hide NextGenerations;
    hide Refreshed;
    hide WithPhase;
    hide Advanced;
    hide Artifacts.RevokeOutputs;
    hide Authority.Revoke;
  }

  /* ---------- Counting revisions ---------- */

  /** How often the entry moved on among the first k + 1 states of a registry. */
  ghost function Revisions<T>(rs: seq<Registry<T>>, id: U64, k: nat): nat
    requires k < |rs| && forall i :: 0 <= i <= k ==> id in rs[i].entries
    decreases k
  {
    if k == 0 then 0
    else Revisions(rs, id, k - 1) + if rs[k].entries[id].generation != rs[k - 1].entries[id].generation then 1 else 0
  }

  lemma {:induction false} GenerationCounts<T>(rs: seq<Registry<T>>, id: U64, k: nat)
    requires k < |rs| && id in rs[0].entries && rs[0].entries[id].generation == INITIAL
    requires forall i :: 0 <= i < k ==> Advances(rs[i], rs[i + 1], id)
    requires forall i :: 0 <= i <= k && id in rs[i].entries ==> rs[i].entries[id].generation < MAX_COUNTER
    ensures forall i :: 0 <= i <= k ==> id in rs[i].entries
    ensures rs[k].entries[id].generation == INITIAL + Revisions(rs, id, k)
    decreases k
  {
    if k > 0 {
      GenerationCounts(rs, id, k - 1);
      assert Advances(rs[k - 1], rs[k - 1 + 1], id);
    }
  }

  function TargetsOf(worlds: seq<World>): (rs: seq<Registry<Contents>>)
    ensures |rs| == |worlds| && forall i :: 0 <= i < |rs| ==> rs[i] == worlds[i].domains.targets
  {
    seq(|worlds|, i requires 0 <= i < |worlds| => worlds[i].domains.targets)
  }

  function EnvironmentsOf(worlds: seq<World>): (rs: seq<Registry<Contents>>)
    ensures |rs| == |worlds| && forall i :: 0 <= i < |rs| ==> rs[i] == worlds[i].domains.environments
  {
    seq(|worlds|, i requires 0 <= i < |worlds| => worlds[i].domains.environments)
  }

  function PoliciesOf(worlds: seq<World>): (rs: seq<Registry<PolicySpec>>)
    ensures |rs| == |worlds| && forall i :: 0 <= i < |rs| ==> rs[i] == worlds[i].domains.policies
  {
    seq(|worlds|, i requires 0 <= i < |worlds| => worlds[i].domains.policies)
  }

  /** The binding matches again exactly after as many revisions as its generation says. */
  lemma MatchesIff<T>(rs: seq<Registry<T>>, bound: Ref, k: nat)
    requires k < |rs| && bound.Present() && bound.id in rs[0].entries && rs[0].entries[bound.id].generation == INITIAL
    requires forall i :: 0 <= i < k ==> Advances(rs[i], rs[i + 1], bound.id)
    requires forall i :: 0 <= i <= k && bound.id in rs[i].entries ==> rs[i].entries[bound.id].generation < MAX_COUNTER
    ensures forall i :: 0 <= i <= k ==> bound.id in rs[i].entries
    ensures Registered(rs[k], bound) <==> Revisions(rs, bound.id, k) + 1 == bound.generation
  {
    GenerationCounts(rs, bound.id, k);
  }

  /** Every generation of the registry stays short of the saturated maximum. */
  ghost predicate Short<T>(rs: seq<Registry<T>>, id: U64, k: nat) {
    forall i :: 0 <= i <= k && i < |rs| && id in rs[i].entries ==> rs[i].entries[id].generation < MAX_COUNTER
  }

  /** In an epoch that starts with the session's target, environment and policy interned at their
      first generations, each of them compares equal to what the session was bound to in an
      earlier epoch if and only if it has been revised, since the start, exactly as often as the
      bound generation says — whatever the contents are now. */
  lemma StaleBindingMatchesIff(worlds: seq<World>, events: seq<Event>, k: nat, s: CompilerSession)
    requires IsRun(worlds, events) && k < |worlds| && FullyBound(s)
    requires s.target.id in worlds[0].domains.targets.entries && worlds[0].domains.targets.entries[s.target.id].generation == INITIAL
    requires s.environment.id in worlds[0].domains.environments.entries && worlds[0].domains.environments.entries[s.environment.id].generation == INITIAL
    requires s.policy.id in worlds[0].domains.policies.entries && worlds[0].domains.policies.entries[s.policy.id].generation == INITIAL
    requires Short(TargetsOf(worlds), s.target.id, k) && Short(EnvironmentsOf(worlds), s.environment.id, k) && Short(PoliciesOf(worlds), s.policy.id, k)
    ensures forall i :: 0 <= i <= k ==>
              && s.target.id in TargetsOf(worlds)[i].entries && s.environment.id in EnvironmentsOf(worlds)[i].entries
              && s.policy.id in PoliciesOf(worlds)[i].entries
    ensures var d := worlds[k].domains;
            && (Registered(d.targets, s.target) <==> Revisions(TargetsOf(worlds), s.target.id, k) + 1 == s.target.generation)
            && (Registered(d.environments, s.environment) <==> Revisions(EnvironmentsOf(worlds), s.environment.id, k) + 1 == s.environment.generation)
            && (Registered(d.policies, s.policy) <==> Revisions(PoliciesOf(worlds), s.policy.id, k) + 1 == s.policy.generation)
  {
    hide Step;
    hide Advances;
    hide Registered;
    forall i | 0 <= i < k
      ensures Advances(TargetsOf(worlds)[i], TargetsOf(worlds)[i + 1], s.target.id)
      ensures Advances(EnvironmentsOf(worlds)[i], EnvironmentsOf(worlds)[i + 1], s.environment.id)
      ensures Advances(PoliciesOf(worlds)[i], PoliciesOf(worlds)[i + 1], s.policy.id)
    {
      assert Step(worlds[i], events[i], worlds[i + 1]);
      StepAdvances(worlds[i], events[i], worlds[i + 1], s.target.id);
      StepAdvances(worlds[i], events[i], worlds[i + 1], s.environment.id);
      StepAdvances(worlds[i], events[i], worlds[i + 1], s.policy.id);
    }
    MatchesIff(TargetsOf(worlds), s.target, k);
    MatchesIff(EnvironmentsOf(worlds), s.environment, k);
    MatchesIff(PoliciesOf(worlds), s.policy, k);
  }
}
