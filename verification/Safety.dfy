/** Safety of the commit protocol over all runs: histories, dependency order, at-most-once
    commits, and what the journal remembers. */
module Safety {
  import opened StrongId
  import opened Bytes
  import opened Wrappers
  import opened Phases
  import opened PhasePlans
  import opened Ancestry
  import opened Sessions
  import opened Runtime
  import opened Evolution
  import opened Registries
  import Authority
  import Artifacts

  /* ---------- What every reachable state satisfies ---------- */

  ghost predicate SessionsSound(w: World) {
    forall id :: id in w.sessions ==> w.sessions[id].id == id < w.next.session && SessionSound(w.sessions[id])
  }

  /** Some commit event of the phase was logged before the given position. */
  ghost predicate Mentioned(commits: seq<CommitEvent>, session: U64, phase: U64, before: nat) {
    exists k :: 0 <= k < |commits| && commits[k].session == session && commits[k].phase == phase && commits[k].at < before
  }

  /** Each journal record is a sound session that the live session evolved from, and so are the
      later records of the same session; what it shows as committed had been reported or was
      being reported by it. */
  ghost predicate LogSound(w: World) {
    && (forall i :: 0 <= i < |w.log| ==>
          && SessionSound(w.log[i].session)
          && w.log[i].session.id in w.sessions
          && SessionEvolves(w.log[i].session, w.sessions[w.log[i].session.id]))
    && (forall i, j :: 0 <= i < j < |w.log| && w.log[i].session.id == w.log[j].session.id ==>
          SessionEvolves(w.log[i].session, w.log[j].session))
    && (forall i, p :: 0 <= i < |w.log| && HasCommitted(w.log[i].session, p) ==>
          Mentioned(w.commits, w.log[i].session.id, p, i + 1))
  }

  /** The record still carries the reported commit. */
  predicate Carries(p: PhaseRecord, e: CommitEvent) {
    p.state in {Committed, Retired} && p.generation == e.generation && p.commit == e.commit
  }

  ghost predicate EventSound(w: World, e: CommitEvent) {
    && HasRecord(w, e.session, e.phase)
    && Carries(w.sessions[e.session].phases[e.phase], e)
    && e.at < |w.log|
    && w.log[e.at].session.id == e.session
    && e.phase in w.log[e.at].session.phases
    && Carries(w.log[e.at].session.phases[e.phase], e)
  }

  ghost predicate CommitsSound(w: World) {
    && (forall k :: 0 <= k < |w.commits| ==> EventSound(w, w.commits[k]))
    && (forall id, p :: id in w.sessions && HasCommitted(w.sessions[id], p) ==> Mentioned(w.commits, id, p, |w.log|))
  }

  /** No phase is committed twice, and those of one session are logged in the order they are
      reported. */
  ghost predicate Distinct(commits: seq<CommitEvent>) {
    forall i, j :: 0 <= i < j < |commits| ==>
      && (commits[i].session != commits[j].session || commits[i].phase != commits[j].phase)
      && (commits[i].session == commits[j].session ==> commits[i].at <= commits[j].at)
  }

  /** Each commit comes after the commits of the phase's dependencies. */
  ghost predicate Ordered(w: World) {
    forall k, d :: 0 <= k < |w.commits| && w.commits[k].session in w.sessions
                   && d in Dependencies(w.sessions[w.commits[k].session].plan.nodes, w.commits[k].phase) ==>
      Mentioned(w.commits[..k], w.commits[k].session, d, |w.log|)
  }

  ghost predicate Sound(w: World) {
    SessionsSound(w) && LogSound(w) && CommitsSound(w) && Distinct(w.commits) && Ordered(w)
  }

  /** Nothing is forgotten as time passes. */
  ghost predicate Grows(w: World, w': World) {
    && w.next.session <= w'.next.session
    && w.log <= w'.log
    && w.commits <= w'.commits
    && forall id :: id in w.sessions ==> id in w'.sessions && SessionEvolves(w.sessions[id], w'.sessions[id])
  }

  lemma EvolvesReflexive(s: CompilerSession)
    ensures SessionEvolves(s, s)
  {
  }

  lemma GrowsTransitive(a: World, b: World, c: World)
    requires Grows(a, b) && Grows(b, c)
    ensures Grows(a, c)
  {
    forall id | id in a.sessions
      ensures id in c.sessions && SessionEvolves(a.sessions[id], c.sessions[id])
    {
      SessionEvolvesTransitive(a.sessions[id], b.sessions[id], c.sessions[id]);
    }
  }

  /* ---------- Kinds of steps ---------- */

  /** Sessions, log and commits are as before. */
  ghost predicate Quiet(w: World, w': World) {
    w'.sessions == w.sessions && w'.log == w.log && w'.commits == w.commits && w.next.session <= w'.next.session
  }

  lemma QuietSound(w: World, w': World)
    requires Sound(w) && Quiet(w, w')
    ensures Sound(w') && Grows(w, w')
  {
    hide SessionSound;
    hide SessionEvolves;
    hide Mentioned;
    hide Dependencies;
    hide Carries;
    forall id | id in w.sessions
      ensures SessionEvolves(w.sessions[id], w'.sessions[id])
    {
      EvolvesReflexive(w.sessions[id]);
    }
    forall k | 0 <= k < |w.commits|
      ensures EventSound(w', w'.commits[k])
    {
      assert EventSound(w, w.commits[k]);
    }
  }

  /** One session is replaced, and the record of it is appended or refused. */
  ghost predicate Replaces(w: World, w': World, t: CompilerSession) {
    && t.id in w.sessions
    && w'.sessions == w.sessions[t.id := t]
    && (w'.log == w.log || (|w'.log| == |w.log| + 1 && w'.log[..|w.log|] == w.log && w'.log[|w.log|].session == t))
    && w.next.session <= w'.next.session
  }

  /** The replacement is sound. */
  ghost predicate Good(s: CompilerSession, t: CompilerSession) {
    SessionSound(t) && SessionEvolves(s, t)
  }

  ghost predicate NoneNew(s: CompilerSession, t: CompilerSession) {
    forall p :: HasCommitted(t, p) ==> HasCommitted(s, p)
  }

  lemma ReplaceSessions(w: World, w': World, t: CompilerSession)
    requires SessionsSound(w) && Replaces(w, w', t) && Good(w.sessions[t.id], t)
    ensures SessionsSound(w')
    ensures forall id :: id in w.sessions ==> id in w'.sessions && SessionEvolves(w.sessions[id], w'.sessions[id])
  {
    hide SessionSound;
    forall id | id in w.sessions
      ensures SessionEvolves(w.sessions[id], w'.sessions[id])
    {
      if id != t.id {
        EvolvesReflexive(w.sessions[id]);
      }
    }
    hide SessionEvolves;
  }

  lemma ReplaceLog(w: World, w': World, t: CompilerSession)
    requires SessionsSound(w) && LogSound(w) && CommitsSound(w) && Replaces(w, w', t) && Good(w.sessions[t.id], t)
    requires forall p :: HasCommitted(t, p) ==> Mentioned(w'.commits, t.id, p, |w.log| + 1)
    requires w.commits <= w'.commits
    ensures LogSound(w')
  {
    hide SessionSound;
    hide SessionEvolves;
    var n := |w.log|;
    forall i | 0 <= i < n
      ensures w'.log[i] == w.log[i]
      ensures w.log[i].session.id in w'.sessions && SessionEvolves(w.log[i].session, w'.sessions[w.log[i].session.id])
      ensures w.log[i].session.id == t.id ==> SessionEvolves(w.log[i].session, t)
    {
      assert w'.log[..n][i] == w.log[i];
      if w.log[i].session.id == t.id {
        SessionEvolvesTransitive(w.log[i].session, w.sessions[t.id], t);
      }
    }
    forall i | 0 <= i < |w'.log|
      ensures SessionSound(w'.log[i].session) && w'.log[i].session.id in w'.sessions
      ensures SessionEvolves(w'.log[i].session, w'.sessions[w'.log[i].session.id])
    {
      if i == n {
        EvolvesReflexive(t);
      }
    }
    forall i, p | 0 <= i < |w'.log| && HasCommitted(w'.log[i].session, p)
      ensures Mentioned(w'.commits, w'.log[i].session.id, p, i + 1)
    {
      if i < n {
        assert Mentioned(w.commits, w.log[i].session.id, p, i + 1);
        MentionedStays(w.commits, w'.commits, w.log[i].session.id, p, i + 1, i + 1);
      }
    }
  }

  lemma MentionedStays(a: seq<CommitEvent>, b: seq<CommitEvent>, session: U64, phase: U64, m: nat, n: nat)
    requires Mentioned(a, session, phase, m) && a <= b && m <= n
    ensures Mentioned(b, session, phase, n)
  {
    var k :| 0 <= k < |a| && a[k].session == session && a[k].phase == phase && a[k].at < m;
    assert b[k] == a[k];
  }

  lemma ReplaceEvents(w: World, w': World, t: CompilerSession, e: CommitEvent)
    requires Replaces(w, w', t) && SessionEvolves(w.sessions[t.id], t) && EventSound(w, e)
    ensures EventSound(w', e)
  {
    assert w'.log[e.at] == w.log[e.at] by {
      if |w'.log| > |w.log| {
        assert w'.log[..|w.log|][e.at] == w.log[e.at];
      }
    }
    if e.session == t.id {
      assert PhaseEvolves(w.sessions[t.id].phases[e.phase], t.phases[e.phase]);
    }
  }

  /** Replacing a session without committing anything. */
  lemma ReplaceSound(w: World, w': World, t: CompilerSession)
    requires Sound(w) && Replaces(w, w', t) && Good(w.sessions[t.id], t) && NoneNew(w.sessions[t.id], t)
    requires w'.commits == w.commits
    ensures Sound(w') && Grows(w, w')
  {
    hide SessionSound;
    ReplaceSessions(w, w', t);
    forall p | HasCommitted(t, p)
      ensures Mentioned(w'.commits, t.id, p, |w.log| + 1)
    {
      assert HasCommitted(w.sessions[t.id], p);
      MentionedStays(w.commits, w'.commits, t.id, p, |w.log|, |w.log| + 1);
    }
    ReplaceLog(w, w', t);
    forall k | 0 <= k < |w.commits|
      ensures EventSound(w', w'.commits[k])
    {
      ReplaceEvents(w, w', t, w.commits[k]);
    }
    forall id, p | id in w'.sessions && HasCommitted(w'.sessions[id], p)
      ensures Mentioned(w'.commits, id, p, |w'.log|)
    {
      assert id in w.sessions && HasCommitted(w.sessions[id], p);
      MentionedStays(w.commits, w'.commits, id, p, |w.log|, |w'.log|);
    }
    OrderedStays(w, w', |w.commits|);
  }

  /** The order of the first n commits is not disturbed. */
  lemma OrderedStays(w: World, w': World, n: nat)
    requires Ordered(w) && |w.log| <= |w'.log| && n == |w.commits| <= |w'.commits|
    requires w'.commits[..n] == w.commits
    requires forall k :: 0 <= k < n ==> w.commits[k].session in w.sessions
    requires forall id :: id in w.sessions ==> id in w'.sessions && w'.sessions[id].plan == w.sessions[id].plan
    ensures forall k, d :: 0 <= k < n && d in Dependencies(w'.sessions[w'.commits[k].session].plan.nodes, w'.commits[k].phase) ==>
              Mentioned(w'.commits[..k], w'.commits[k].session, d, |w'.log|)
  {
    hide Dependencies;
    forall k, d | 0 <= k < n && d in Dependencies(w'.sessions[w'.commits[k].session].plan.nodes, w'.commits[k].phase)
      ensures Mentioned(w'.commits[..k], w'.commits[k].session, d, |w'.log|)
    {
      assert w'.commits[k] == w'.commits[..n][k] == w.commits[k];
      assert w'.commits[..k] == w.commits[..k];
      assert Mentioned(w.commits[..k], w.commits[k].session, d, |w.log|);
      MentionedStays(w.commits[..k], w'.commits[..k], w.commits[k].session, d, |w.log|, |w'.log|);
    }
  }

  /* ---------- Every action is sound ---------- */

  /** A session update that persists, over a world that differs only elsewhere. */
  lemma PutReplaces(w: World, w1: World, t: CompilerSession, env: Ambient)
    requires t.id in w.sessions && w1.sessions == w.sessions && w1.log == w.log && w.next.session <= w1.next.session
    ensures Replaces(w, Put(w1, t, env), t)
  {
    assert env.appended ==> (w.log + [BundleOf(w1, t, env.extras)])[..|w.log|] == w.log;
  }

  /** Replacing one phase of one session. */
  lemma PhaseSound(w: World, w': World, t: CompilerSession, q: PhaseRecord)
    requires Sound(w) && Replaces(w, w', t) && w'.commits == w.commits
    requires q.id in w.sessions[t.id].phases
    requires PhaseStep(w.sessions[t.id], w.sessions[t.id].phases[q.id], q, false)
    requires SameBinding(w.sessions[t.id], t) && t.phases == w.sessions[t.id].phases[q.id := q]
    ensures Sound(w') && Grows(w, w')
  {
    hide SessionSound;
    var s := w.sessions[t.id];
    OnePhase(s, t, q, false);
    forall p | HasCommitted(t, p)
      ensures HasCommitted(s, p)
    {
    }
    hide Sound;
    hide PhaseStep;
    ReplaceSound(w, w', t);
  }

  lemma SessionAt(w: World, session: U64)
    requires Sound(w) && session in w.sessions
    ensures w.sessions[session].id == session && SessionSound(w.sessions[session])
  {
    hide SessionSound;
    hide LogSound;
    hide CommitsSound;
    hide Ordered;
  }

  /** The session of a record, and what soundness says of both. */
  lemma Located(w: World, session: U64, phase: U64)
    requires Sound(w) && HasRecord(w, session, phase)
    ensures w.sessions[session].id == session && SessionSound(w.sessions[session])
    ensures PhaseIn(w.sessions[session], w.sessions[session].phases[phase])
    ensures w.sessions[session].phases[phase].id == phase
  {
    PhasesOf(w.sessions[session], phase);
  }

  lemma LaunchSound(w: World, r: Reservation, outcome: LaunchOutcome, env: Ambient)
    requires Sound(w)
    ensures Sound(Launch(w, r, outcome, env)) && Grows(w, Launch(w, r, outcome, env))
  {
    hide Sound;
    hide Grows;
    hide SessionSound;
    hide PhaseStep;
    hide PhaseIn;
    hide RecordTransition;
    hide BundleOf;
    hide SetStates;
    hide Artifacts.RevokeOutputs;
    hide Authority.Revoke;
    var w' := Launch(w, r, outcome, env);
    if r in w.issued && Current(w, r) && outcome != NotBuilt {
      Located(w, r.session, r.phase);
      var s := w.sessions[r.session];
      var p := s.phases[r.phase];
      match outcome {
        case InvalidInvocation(status, failure, detail) =>
          var q := p.(lastStatus := status, failure := failure, lastDetail := detail);
          UnmovedStep(s, p, q);
          PhaseSound(w, w', WithPhase(s, q), q);
        case Launched =>
          var q := RecordTransition(p, Running, env.now, LAUNCHED);
          TransitionStep(s, p, p, Running, env.now, LAUNCHED);
          var t := WithPhase(s, q).(updatedAt := env.now);
          PutReplaces(w, w, t, env);
          PhaseSound(w, w', t, q);
      }
    } else {
      QuietSound(w, w');
    }
  }

  lemma NoteProcessSound(w: World, r: Reservation, process: Ref)
    requires Sound(w)
    ensures Sound(NoteProcess(w, r, process)) && Grows(w, NoteProcess(w, r, process))
  {
    hide Sound;
    hide Grows;
    hide SessionSound;
    hide PhaseStep;
    hide PhaseIn;
    hide RecordTransition;
    hide BundleOf;
    hide SetStates;
    hide Artifacts.RevokeOutputs;
    hide Authority.Revoke;
    var w' := NoteProcess(w, r, process);
    if r in w.issued && HasRecord(w, r.session, r.phase) {
      Located(w, r.session, r.phase);
      var s := w.sessions[r.session];
      var p := s.phases[r.phase];
      var q := p.(activeProcess := process.id, activeProcessGeneration := process.generation);
      UnmovedStep(s, p, q);
      PhaseSound(w, w', WithPhase(s, q), q);
    } else {
      QuietSound(w, w');
    }
  }

  lemma ReproductionFailedSound(w: World, r: Reservation, status: StatusCode, detail: Text, env: Ambient)
    requires Sound(w)
    ensures Sound(ReproductionFailed(w, r, status, detail, env)) && Grows(w, ReproductionFailed(w, r, status, detail, env))
  {
    hide Sound;
    hide Grows;
    hide SessionSound;
    hide PhaseStep;
    hide PhaseIn;
    hide RecordTransition;
    hide BundleOf;
    hide SetStates;
    hide Artifacts.RevokeOutputs;
    hide Authority.Revoke;
    var w' := ReproductionFailed(w, r, status, detail, env);
    if r in w.issued && HasRecord(w, r.session, r.phase) {
      Located(w, r.session, r.phase);
      var s := w.sessions[r.session];
      var p := s.phases[r.phase];
      var p1 := p.(failure := OutputInvalid, lastStatus := status, lastDetail := detail);
      var q := RecordTransition(p1, Failed, env.now, detail);
      TransitionStep(s, p, p1, Failed, env.now, detail);
      var t := WithPhase(s, q).(generation := Next(s.generation));
      PutReplaces(w, w.(artifacts := Artifacts.RevokeOutputs(w.artifacts, p.id, p.generation, detail)), t, env);
      PhaseSound(w, w', t, q);
    } else {
      QuietSound(w, w');
    }
  }

  lemma ValidateSound(w: World, r: Reservation, e: Evidence, env: Ambient)
    requires Sound(w)
    ensures Sound(Validate(w, r, e, env)) && Grows(w, Validate(w, r, e, env))
  {
    hide Sound;
    hide Grows;
    hide SessionSound;
    hide PhaseStep;
    hide PhaseIn;
    hide RecordTransition;
    hide BundleOf;
    hide SetStates;
    hide Artifacts.RevokeOutputs;
    hide Authority.Revoke;
    var w' := Validate(w, r, e, env);
    if r in w.issued && HasRecord(w, r.session, r.phase)
       && AllRegistered(w.artifacts, OutputIds(w.sessions[r.session].phases[r.phase].outputs)) {
      Located(w, r.session, r.phase);
      var s := w.sessions[r.session];
      var p := s.phases[r.phase];
      var w1 := w.(artifacts := SetStates(w.artifacts, OutputIds(p.outputs), EvidenceState(e), e.detail));
      var to := if e.accepted then CommitReady else Failed;
      var p1 := if e.accepted then p else
        p.(failure := e.failure, lastStatus := e.refusal, lastDetail := e.detail, attempts := CloseAttempt(p.attempts, Failed, e.failure));
      var reason := if e.accepted then ACCEPTED else e.detail;
      var q := RecordTransition(p1, to, env.now, reason);
      TransitionStep(s, p, p1, to, env.now, reason);
      var t := WithPhase(s, q).(updatedAt := env.now);
      PutReplaces(w, w1, t, env);
      PhaseSound(w, w', t, q);
    } else {
      QuietSound(w, w');
    }
  }

  lemma CancelPhaseSound(w: World, session: U64, phase: U64, reason: Text, env: Ambient)
    requires Sound(w)
    ensures Sound(CancelPhase(w, session, phase, reason, env)) && Grows(w, CancelPhase(w, session, phase, reason, env))
  {
    hide Sound;
    hide Grows;
    hide SessionSound;
    hide PhaseStep;
    hide PhaseIn;
    hide RecordTransition;
    hide BundleOf;
    hide SetStates;
    hide Artifacts.RevokeOutputs;
    hide Authority.Revoke;
    var w' := CancelPhase(w, session, phase, reason, env);
    if HasRecord(w, session, phase) && w.sessions[session].phases[phase].state != Committed {
      Located(w, session, phase);
      var s := w.sessions[session];
      var p := s.phases[phase];
      var w1 := w.(leases := Authority.Revoke(w.leases, p.lease.id, reason),
                   artifacts := Artifacts.RevokeOutputs(w.artifacts, p.id, p.generation, reason));
      var p1 := p.(attempts := CloseAttempt(p.attempts, Cancelled, ExternalCancellation),
                   failure := ExternalCancellation, lastStatus := CANCELLED, lastDetail := reason);
      var q := (if RetainsCommitAuthority(p.state) then RecordTransition(p1, Cancelled, env.now, reason) else p)
        .(activeInvocation := ABSENT);
      if RetainsCommitAuthority(p.state) {
        TransitionStep(s, p, p1.(activeInvocation := ABSENT), Cancelled, env.now, reason);
        InvocationAside(p1, Cancelled, env.now, reason);
      } else {
        UnmovedStep(s, p, q);
      }
      var t := Advanced(WithPhase(s, q), env.now);
      PutReplaces(w, w1, t, env);
      PhaseSound(w, w', t, q);
    } else {
      QuietSound(w, w');
    }
  }

  lemma FailPhaseSound(w: World, session: U64, phase: U64, generation: U64, failure: FailureClass, status: StatusCode, detail: Text, env: Ambient)
    requires Sound(w)
    ensures var w' := FailPhase(w, session, phase, generation, failure, status, detail, env); Sound(w') && Grows(w, w')
  {
    hide Sound;
    hide Grows;
    hide SessionSound;
    hide PhaseStep;
    hide PhaseIn;
    hide RecordTransition;
    hide BundleOf;
    hide SetStates;
    hide Artifacts.RevokeOutputs;
    hide Authority.Revoke;
    hide FailedAttempts;
    var w' := FailPhase(w, session, phase, generation, failure, status, detail, env);
    if HasRecord(w, session, phase) && w.sessions[session].phases[phase].generation == generation
       && w.sessions[session].phases[phase].state != Committed {
      Located(w, session, phase);
      var s := w.sessions[session];
      var p := s.phases[phase];
      var w1 := w.(artifacts := Artifacts.RevokeOutputs(w.artifacts, p.id, p.generation, detail),
                   leases := Authority.Revoke(w.leases, p.lease.id, detail));
      var p1 := p.(failure := failure, lastStatus := status, lastDetail := detail, attempts := FailedAttempts(p.attempts, failure, status));
      var q := if RetainsCommitAuthority(p.state) then RecordTransition(p1, Failed, env.now, detail) else p1;
      if RetainsCommitAuthority(p.state) {
        TransitionStep(s, p, p1, Failed, env.now, detail);
      } else {
        UnmovedStep(s, p, p1);
      }
      var t := Advanced(WithPhase(s, q), env.now);
      PutReplaces(w, w1, t, env);
      PhaseSound(w, w', t, q);
    } else {
      QuietSound(w, w');
    }
  }

  lemma GrantRetrySound(w: World, session: U64, phase: U64)
    requires Sound(w)
    ensures Sound(GrantRetry(w, session, phase)) && Grows(w, GrantRetry(w, session, phase))
  {
    hide Sound;
    hide Grows;
    hide SessionSound;
    hide PhaseIn;
    hide EvaluateRetry;
    var w' := GrantRetry(w, session, phase);
    if w' != w {
      var s := w.sessions[session];
      Located(w, session, phase);
      SamePhases(w, w', s.(retriesUsed := (s.retriesUsed + 1) % 0x1_0000_0000));
    } else {
      QuietSound(w, w');
    }
  }

  lemma SamePhasesGood(s: CompilerSession, t: CompilerSession)
    requires SessionSound(s) && SameBinding(s, t) && t.phases == s.phases
    ensures Good(s, t)
  {
    hide IsPlan;
    hide RecordSound;
    forall id | id in t.phases && Underway(t.phases[id].state)
      ensures Fed(t, t.phases[id])
    {
      FedStays(s, t, t.phases[id]);
    }
  }

  /** Replacing a session by one with the same phases. */
  lemma SamePhases(w: World, w': World, t: CompilerSession)
    requires Sound(w) && Replaces(w, w', t) && w'.commits == w.commits
    requires SameBinding(w.sessions[t.id], t) && t.phases == w.sessions[t.id].phases
    ensures Sound(w') && Grows(w, w')
  {
    hide Sound;
    hide Good;
    SessionAt(w, t.id);
    SamePhasesGood(w.sessions[t.id], t);
    hide SessionSound;
    ReplaceSound(w, w', t);
  }

  lemma SetSessionStateSound(w: World, session: U64, state: SessionState, detail: Text, env: Ambient)
    requires Sound(w)
    ensures Sound(SetSessionState(w, session, state, detail, env)) && Grows(w, SetSessionState(w, session, state, detail, env))
  {
    hide Sound;
    hide Grows;
    hide SessionSound;
    hide BundleOf;
    var w' := SetSessionState(w, session, state, detail, env);
    if session in w.sessions && state in {SessionActive, SessionFailed, SessionCancelled} {
      var s := w.sessions[session];
      var t := match state
        case SessionActive => s.(state := SessionActive)
        case SessionFailed => s.(state := SessionFailed, failureDetail := detail)
        case _ => Advanced(s.(state := SessionCancelled, failureDetail := detail), env.now);
      SessionAt(w, session);
      PutReplaces(w, w, t, env);
      SamePhases(w, w', t);
    } else {
      QuietSound(w, w');
    }
  }

  lemma CloseSessionSound(w: World, session: U64, env: Ambient)
    requires Sound(w)
    ensures Sound(CloseSession(w, session, env)) && Grows(w, CloseSession(w, session, env))
  {
    hide Sound;
    hide Grows;
    hide SessionSound;
    hide BundleOf;
    var w' := CloseSession(w, session, env);
    if session in w.sessions && !Closing(w.sessions[session]) {
      var s := w.sessions[session];
      var s1 := if AdmitsNewAuthority(s.state) then s.(state := SessionFailed, failureDetail := SHUTDOWN) else s;
      var t := s1.(updatedAt := env.now);
      SessionAt(w, session);
      PutReplaces(w, w, t, env);
      SamePhases(w, w', t);
    } else {
      QuietSound(w, w');
    }
  }

  lemma RecordSoundly(w: World, r: Reservation, report: Report, env: Ambient)
    requires Sound(w) && Current(w, r)
    ensures Sound(RecordCurrent(w, r, report, env)) && Grows(w, RecordCurrent(w, r, report, env))
  {
    hide Sound;
    hide Grows;
    hide SessionSound;
    hide PhaseStep;
    hide PhaseIn;
    hide RecordTransition;
    hide BundleOf;
    hide RegisterOutputs;
    var w' := RecordCurrent(w, r, report, env);
    Located(w, r.session, r.phase);
    var s := w.sessions[r.session];
    var p := s.phases[r.phase];
    var k := AttemptIndex(p.attempts, r.attempt);
    if k == |p.attempts| {
      QuietSound(w, w');
    } else {
      var attempts := p.attempts[k := ReportedAttempt(p.attempts[k], r.invocation, report)];
      if report.diagnostics.None? {
        var q := p.(attempts := attempts);
        UnmovedStep(s, p, q);
        PhaseSound(w, w', WithPhase(s, q), q);
      } else if !report.succeeded {
        RecordFailureSound(w, r, report, env);
      } else {
        RecordSuccessSound(w, r, report, env);
      }
    }
  }

  lemma RecordFailureSound(w: World, r: Reservation, report: Report, env: Ambient)
    requires Sound(w) && Current(w, r) && report.diagnostics.Some? && !report.succeeded
    requires AttemptIndex(w.sessions[r.session].phases[r.phase].attempts, r.attempt) < |w.sessions[r.session].phases[r.phase].attempts|
    ensures Sound(RecordCurrent(w, r, report, env)) && Grows(w, RecordCurrent(w, r, report, env))
  {
    hide Sound;
    hide Grows;
    hide SessionSound;
    hide PhaseStep;
    hide PhaseIn;
    hide RecordTransition;
    hide BundleOf;
    var w' := RecordCurrent(w, r, report, env);
    Located(w, r.session, r.phase);
    var s := w.sessions[r.session];
    var p := s.phases[r.phase];
    var k := AttemptIndex(p.attempts, r.attempt);
    var attempts := p.attempts[k := ReportedAttempt(p.attempts[k], r.invocation, report)];
    var detail := if report.detail == [] then DID_NOT_SUCCEED else report.detail;
    var p2 := p.(attempts := attempts[k := attempts[k].(terminalState := Failed, failure := report.failure)],
                 diagnostics := report.diagnostics.value, failure := report.failure,
                 lastStatus := if report.status == OK then PROCESS_EXITED_NONZERO else report.status,
                 lastDetail := detail);
    TransitionStep(s, p, p2, Failed, env.now, detail);
    var q := RecordTransition(p2, Failed, env.now, detail);
    var t := WithPhase(s, q).(updatedAt := env.now);
    PutReplaces(w, w, t, env);
    PhaseSound(w, w', t, q);
  }

  /** A successful report asks for PRODUCED and then, if every output could be registered, for
      VALIDATING. */
  lemma ReportSteps(s: CompilerSession, p: PhaseRecord, p1: PhaseRecord, attempts: seq<PhaseAttempt>, refs: seq<Ref>,
                    digest: DigestBytes, now: U64)
    requires PhaseIn(s, p) && SameCore(p, p1) && |attempts| == |p.attempts|
    ensures var p2 := RecordTransition(p1, Produced, now, EXITED).(attempts := attempts);
            var p3 := p2.(outputs := p2.outputs + refs);
            var p4 := RecordTransition(p3.(outputDigest := digest), Validating, now, CANDIDATES);
            PhaseStep(s, p, p3, false) && PhaseStep(s, p, p4, false) && p3.id == p.id && p4.id == p.id
  {
    hide PhaseStep;
    hide RecordTransition;
    var q1 := RecordTransition(p1, Produced, now, EXITED);
    TransitionStep(s, p, p1, Produced, now, EXITED);
    AttemptsKept(p1, Produced, now, EXITED);
    var p3 := q1.(attempts := attempts, outputs := q1.outputs + refs);
    StepAside(s, p, q1, p3);
    StepAside(s, p, q1, p3.(outputDigest := digest));
    TransitionAgain(s, p, p3.(outputDigest := digest), Validating, now, CANDIDATES);
  }

  lemma AttemptsKept(p: PhaseRecord, to: PhaseState, at: U64, reason: Text)
    ensures |RecordTransition(p, to, at, reason).attempts| == |p.attempts|
  {
  }

  lemma RecordSuccessSound(w: World, r: Reservation, report: Report, env: Ambient)
    requires Sound(w) && Current(w, r) && report.diagnostics.Some? && report.succeeded
    requires AttemptIndex(w.sessions[r.session].phases[r.phase].attempts, r.attempt) < |w.sessions[r.session].phases[r.phase].attempts|
    ensures Sound(RecordCurrent(w, r, report, env)) && Grows(w, RecordCurrent(w, r, report, env))
  {
    hide Sound;
    hide Grows;
    hide SessionSound;
    hide PhaseStep;
    hide PhaseIn;
    hide RecordTransition;
    hide BundleOf;
    hide RegisterOutputs;
    var w' := RecordCurrent(w, r, report, env);
    Located(w, r.session, r.phase);
    var s := w.sessions[r.session];
    var p := s.phases[r.phase];
    var k := AttemptIndex(p.attempts, r.attempt);
    var attempts := p.attempts[k := ReportedAttempt(p.attempts[k], r.invocation, report)];
    var p1 := p.(attempts := attempts, diagnostics := report.diagnostics.value);
    var closed := attempts[k := attempts[k].(terminalState := Produced)];
    var p2 := RecordTransition(p1, Produced, env.now, EXITED).(attempts := closed);
    var reg := RegisterOutputs(w.artifacts, s, p2, r.invocation, report.outputs);
    var p3 := p2.(outputs := p2.outputs + reg.refs);
    var s3 := s.(intermediates := s.intermediates + reg.refs);
    ReportSteps(s, p, p1, closed, reg.refs, report.outputDigest, env.now);
    if !reg.complete {
      PhaseSound(w, w', WithPhase(s3, p3), p3);
    } else {
      var p4 := RecordTransition(p3.(outputDigest := report.outputDigest), Validating, env.now, CANDIDATES);
      var t := WithPhase(s3, p4).(updatedAt := env.now);
      PutReplaces(w, w.(artifacts := reg.store), t, env);
      PhaseSound(w, w', t, p4);
    }
  }

  lemma RecordExecutionSound(w: World, r: Reservation, report: Report, env: Ambient)
    requires Sound(w)
    ensures Sound(RecordExecution(w, r, report, env)) && Grows(w, RecordExecution(w, r, report, env))
  {
    hide Sound;
    hide Grows;
    hide RecordCurrent;
    if r in w.issued && Current(w, r) {
      RecordSoundly(w, r, report, env);
    } else {
      QuietSound(w, w);
    }
  }

  lemma ReportOutputSound(w: World, session: U64, phase: U64, generation: U64, invocation: Ref, report: Report, env: Ambient)
    requires Sound(w)
    ensures var w' := ReportOutput(w, session, phase, generation, invocation, report, env); Sound(w') && Grows(w, w')
  {
    hide Sound;
    hide Grows;
    hide RecordCurrent;
    QuietSound(w, w);
    if HasRecord(w, session, phase) {
      var r := ReservationFor(w.sessions[session], w.sessions[session].phases[phase]);
      if Current(w, r) {
        RecordSoundly(w, r, report, env);
      }
    }
  }

  /* ---------- Reserving ---------- */

  lemma ReserveSound(w: World, session: U64, phase: U64, isRetry: bool, workspace: bool, env: Ambient)
    requires Sound(w)
    ensures var w' := Reserve(w, session, phase, isRetry, workspace, env); Sound(w') && Grows(w, w')
  {
    hide Sound;
    hide Grows;
    hide Reservable;
    hide SessionSound;
    hide PhaseStep;
    hide PhaseIn;
    hide Fed;
    hide ReservedRecord;
    hide ResolveInputs;
    hide BundleOf;
    hide Authority.Grant;
    var w' := Reserve(w, session, phase, isRetry, workspace, env);
    if Reservable(w, session, phase, isRetry) && workspace {
      ReservableFacts(w, session, phase, isRetry);
      ReservedFacts(w, session, phase, isRetry, env.now);
      var s := w.sessions[session];
      var q := ReservedRecord(w, session, phase, isRetry, env.now);
      var t := ReservedSession(w, session, phase, isRetry, env.now);
      var next := w.next.(attempt := Next(w.next.attempt), invocation := Next(w.next.invocation));
      var leases := Authority.Grant(w.leases, Ref(session, s.generation), Ref(phase, Next(s.phases[phase].generation)), env.now, RESERVED).0;
      PutReplaces(w, w.(owed := Collected(w.owed, session, phase, isRetry), next := next, leases := leases), t, env);
      PhaseSound(w, w', t, q);
    } else {
      QuietSound(w, w');
    }
  }

  lemma ReservableFacts(w: World, session: U64, phase: U64, isRetry: bool)
    requires Sound(w) && Reservable(w, session, phase, isRetry)
    ensures HasRecord(w, session, phase)
    ensures ResolveInputs(w, w.sessions[session], w.sessions[session].phases[phase]).Some?
    ensures var s := w.sessions[session];
            var p := s.phases[phase];
            s.id == session && p.id == phase && PhaseIn(s, p) && p.state in {Pending, Ready, Failed}
            && Fed(s, p) && |p.attempts| < MAX_ATTEMPTS
  {
    hide Authority.Compare;
    hide ResolveInputs;
    Located(w, session, phase);
    var s := w.sessions[session];
    assert s.phases[phase].dependsOn == Dependencies(s.plan.nodes, phase);
  }

  lemma ReservedFacts(w: World, session: U64, phase: U64, isRetry: bool, now: U64)
    requires HasRecord(w, session, phase)
    requires ResolveInputs(w, w.sessions[session], w.sessions[session].phases[phase]).Some?
    requires var s := w.sessions[session];
             var p := s.phases[phase];
             p.id == phase && PhaseIn(s, p) && p.state in {Pending, Ready, Failed} && Fed(s, p) && |p.attempts| < MAX_ATTEMPTS
    ensures var q := ReservedRecord(w, session, phase, isRetry, now);
            q.id == phase && PhaseStep(w.sessions[session], w.sessions[session].phases[phase], q, false)
  {
    hide PhaseStep;
    hide PhaseIn;
    hide ResolveInputs;
    hide Prepared;
    var s := w.sessions[session];
    var p := s.phases[phase];
    ReserveStep(s, p,
      Bound(s, p, isRetry, ResolveInputs(w, s, p).value, Ref(w.next.invocation, INITIAL), w.next.attempt,
            Ref(w.leases.next, INITIAL), now),
      now);
  }

  /* ---------- Committing ---------- */

  lemma CommitUnprovenSound(w: World, r: Reservation, detail: Text, env: Ambient)
    requires Sound(w) && HasRecord(w, r.session, r.phase) && w.sessions[r.session].phases[r.phase].state == CommitReady
    ensures Sound(CommitUnproven(w, r, detail, env)) && Grows(w, CommitUnproven(w, r, detail, env))
  {
    hide Sound;
    hide Grows;
    hide SessionSound;
    hide PhaseStep;
    hide PhaseIn;
    hide RecordTransition;
    hide BundleOf;
    hide Artifacts.RevokeOutputs;
    Located(w, r.session, r.phase);
    var s := w.sessions[r.session];
    var p := s.phases[r.phase];
    var p1 := p.(failure := InvalidToolchain, lastStatus := INTEGRITY_UNPROVEN, lastDetail := detail);
    TransitionStep(s, p, p1, Fenced, env.now, detail);
    var q := RecordTransition(p1, Fenced, env.now, detail);
    var t := WithPhase(s, q).(generation := Next(s.generation));
    var w1 := w.(artifacts := Artifacts.RevokeOutputs(w.artifacts, p.id, p.generation, detail));
    PutReplaces(w, w1, t, env);
    PhaseSound(w, CommitUnproven(w, r, detail, env), t, q);
  }

  lemma CommitRefusedSound(w: World, r: Reservation, verdict: Authority.Verdict, env: Ambient)
    requires Sound(w) && HasRecord(w, r.session, r.phase) && w.sessions[r.session].phases[r.phase].state == CommitReady
    ensures Sound(CommitRefused(w, r, verdict, env)) && Grows(w, CommitRefused(w, r, verdict, env))
  {
    hide Sound;
    hide Grows;
    hide SessionSound;
    hide PhaseStep;
    hide PhaseIn;
    hide RecordTransition;
    hide BundleOf;
    hide Artifacts.RevokeOutputs;
    hide Authority.Revoke;
    hide StatusOf;
    Located(w, r.session, r.phase);
    var s := w.sessions[r.session];
    var p := s.phases[r.phase];
    var p1 := p.(attempts := CloseAttempt(p.attempts, Fenced, AuthorityInvalidated),
                 failure := AuthorityInvalidated, lastStatus := StatusOf(verdict), lastDetail := REFUSED);
    TransitionStep(s, p, p1, Fenced, env.now, REFUSED);
    var q := RecordTransition(p1, Fenced, env.now, REFUSED);
    var t := Advanced(WithPhase(s, q), env.now);
    var w1 := w.(artifacts := Artifacts.RevokeOutputs(w.artifacts, p.id, p.generation, REFUSED),
                 leases := Authority.Revoke(w.leases, p.lease.id, REFUSED));
    PutReplaces(w, w1, t, env);
    PhaseSound(w, CommitRefused(w, r, verdict, env), t, q);
  }

  /** What publishing does to sessions, log and commits. */
  ghost predicate Publishes(w: World, w': World, t: CompilerSession, e: CommitEvent) {
    && Replaces(w, w', t) && |w'.log| == |w.log| + 1
    && w'.commits == w.commits + [e]
    && e.session == t.id && e.at == |w.log|
    && HasCommitted(t, e.phase) && Carries(t.phases[e.phase], e)
  }

  /** The phase was not committed before, and everything it depends on was. */
  ghost predicate Timely(s: CompilerSession, t: CompilerSession, phase: U64) {
    && phase in s.phases && s.phases[phase].state == CommitReady && Fed(s, s.phases[phase])
    && s.phases[phase].dependsOn == Dependencies(s.plan.nodes, phase)
    && forall p :: HasCommitted(t, p) ==> p == phase || HasCommitted(s, p)
  }

  lemma PublishMentions(w: World, w': World, t: CompilerSession, e: CommitEvent)
    requires CommitsSound(w) && Publishes(w, w', t, e) && Timely(w.sessions[t.id], t, e.phase)
    ensures forall p :: HasCommitted(t, p) ==> Mentioned(w'.commits, t.id, p, |w.log| + 1)
    ensures forall id, p :: id in w'.sessions && HasCommitted(w'.sessions[id], p) ==> Mentioned(w'.commits, id, p, |w'.log|)
  {
    forall id, p | id in w'.sessions && HasCommitted(w'.sessions[id], p)
      ensures Mentioned(w'.commits, id, p, |w'.log|)
    {
      if id == t.id && p == e.phase {
        assert w'.commits[|w.commits|] == e;
      } else {
        assert HasCommitted(w.sessions[id], p);
        MentionedStays(w.commits, w'.commits, id, p, |w.log|, |w'.log|);
      }
    }
    forall p | HasCommitted(t, p)
      ensures Mentioned(w'.commits, t.id, p, |w.log| + 1)
    {
      assert w'.sessions[t.id] == t;
    }
  }

  lemma PublishEvents(w: World, w': World, t: CompilerSession, e: CommitEvent)
    requires CommitsSound(w) && Publishes(w, w', t, e) && SessionEvolves(w.sessions[t.id], t)
    ensures forall k :: 0 <= k < |w'.commits| ==> EventSound(w', w'.commits[k])
  {
    hide SessionEvolves;
    forall k | 0 <= k < |w'.commits|
      ensures EventSound(w', w'.commits[k])
    {
      if k < |w.commits| {
        ReplaceEvents(w, w', t, w.commits[k]);
      }
    }
  }

  lemma PublishDistinct(w: World, w': World, t: CompilerSession, e: CommitEvent)
    requires CommitsSound(w) && Distinct(w.commits) && Publishes(w, w', t, e) && Timely(w.sessions[t.id], t, e.phase)
    ensures Distinct(w'.commits)
  {
    forall i | 0 <= i < |w.commits|
      ensures (w.commits[i].session != e.session || w.commits[i].phase != e.phase) && w.commits[i].at < e.at
    {
      assert EventSound(w, w.commits[i]);
    }
  }

  lemma PublishOrdered(w: World, w': World, t: CompilerSession, e: CommitEvent)
    requires CommitsSound(w) && Ordered(w) && Publishes(w, w', t, e) && Timely(w.sessions[t.id], t, e.phase)
    requires SameBinding(w.sessions[t.id], t)
    ensures Ordered(w')
  {
    hide Dependencies;
    var n := |w.commits|;
    assert w'.commits[..n] == w.commits;
    forall k | 0 <= k < n
      ensures w.commits[k].session in w.sessions
    {
      assert EventSound(w, w.commits[k]);
    }
    OrderedStays(w, w', n);
    forall d | d in Dependencies(w'.sessions[e.session].plan.nodes, e.phase)
      ensures Mentioned(w'.commits[..n], e.session, d, |w'.log|)
    {
      assert HasCommitted(w.sessions[t.id], d);
      MentionedStays(w.commits, w'.commits[..n], t.id, d, |w.log|, |w'.log|);
    }
  }

  lemma PublishSound(w: World, w': World, t: CompilerSession, e: CommitEvent)
    requires Sound(w) && Publishes(w, w', t, e) && Good(w.sessions[t.id], t) && Timely(w.sessions[t.id], t, e.phase)
    ensures Sound(w') && Grows(w, w')
  {
    hide SessionSound;
    assert SameBinding(w.sessions[t.id], t);
    PublishMentions(w, w', t, e);
    PublishEvents(w, w', t, e);
    PublishDistinct(w, w', t, e);
    PublishOrdered(w, w', t, e);
    hide SessionEvolves;
    hide Timely;
    hide Distinct;
    hide Ordered;
    hide Mentioned;
    ReplaceSessions(w, w', t);
    ReplaceLog(w, w', t);
  }

  /** The committed projection of a session whose phase was COMMIT_READY. */
  lemma CommittedSessionGood(s: CompilerSession, p: PhaseRecord, commit: U64, pub: Publication, now: U64)
    requires SessionSound(s) && p.id in s.phases && s.phases[p.id] == p && p.state == CommitReady
    ensures var t := CommittedSession(s, p, commit, pub, now);
            && Good(s, t) && Timely(s, t, p.id) && t.id == s.id
            && HasCommitted(t, p.id) && t.phases[p.id].generation == p.generation && t.phases[p.id].commit == commit
  {
    hide SessionSound;
    hide CommittedRecord;
    hide CommittedSession;
    hide PhaseStep;
    hide Dependencies;
    var t := CommittedSession(s, p, commit, pub, now);
    var q := CommittedRecord(p, commit, now);
    PhasesOf(s, p.id);
    CommitStep(s, p, commit, now);
    CommittedSessionShape(s, p, commit, pub, now);
    OnePhase(s, t, q, true);
    CommitTimely(s, t, p, q);
  }

  lemma CommittedSessionShape(s: CompilerSession, p: PhaseRecord, commit: U64, pub: Publication, now: U64)
    requires CommittedRecord(p, commit, now).id == p.id
    ensures var t := CommittedSession(s, p, commit, pub, now);
            && SameBinding(s, t) && t.phases == s.phases[p.id := CommittedRecord(p, commit, now)]
            && t.retriesUsed == s.retriesUsed && t.intermediates == s.intermediates
  {
    hide CommittedRecord;
    hide MandatoryDone;
  }

  lemma CommitTimely(s: CompilerSession, t: CompilerSession, p: PhaseRecord, q: PhaseRecord)
    requires SessionSound(s) && p.id in s.phases && s.phases[p.id] == p && p.state == CommitReady
    requires t.phases == s.phases[p.id := q] && q.state == Committed
    ensures Timely(s, t, p.id)
  {
    hide IsPlan;
    hide RecordSound;
    assert Fed(s, s.phases[p.id]);
  }

  lemma PublishStepSound(w: World, r: Reservation, pub: Publication, env: Ambient)
    requires Sound(w) && HasRecord(w, r.session, r.phase) && w.sessions[r.session].phases[r.phase].state == CommitReady
    ensures Sound(Publish(w, r, pub, env)) && Grows(w, Publish(w, r, pub, env))
  {
    hide Sound;
    hide Grows;
    hide SessionSound;
    hide PhaseIn;
    hide CommittedSession;
    hide BundleOf;
    hide Stamped;
    hide Authorized;
    hide AllMayHold;
    hide NextGenerations;
    hide Authority.Revoke;
    hide Timely;
    var w' := Publish(w, r, pub, env);
    Located(w, r.session, r.phase);
    var s := w.sessions[r.session];
    var p := s.phases[r.phase];
    var stamped := Stamped(w.artifacts, OutputIds(p.outputs), pub.provenance);
    if AllMayHold(stamped, OutputIds(p.outputs)) && env.appended {
      var t := CommittedSession(s, p, w.next.commit, pub, env.now);
      CommittedSessionGood(s, p, w.next.commit, pub, env.now);
      hide Good;
      PutReplaces(w, w.(artifacts := Authorized(stamped, OutputIds(p.outputs)), next := w.next.(commit := Next(w.next.commit))), t, env);
      PublishSound(w, w', t, CommitEvent(s.id, p.id, p.generation, w.next.commit, |w.log|));
    } else {
      QuietSound(w, w');
    }
  }

  lemma CommitSound(w: World, r: Reservation, probe: Probe, pub: Publication, env: Ambient)
    requires Sound(w)
    ensures Sound(Commit(w, r, probe, pub, env)) && Grows(w, Commit(w, r, probe, pub, env))
  {
    hide Sound;
    hide Grows;
    hide CommitUnproven;
    hide CommitRefused;
    hide Publish;
    hide CommitVerdict;
    hide Refreshed;
    QuietSound(w, w);
    if r in w.issued && Current(w, r) && w.sessions[r.session].phases[r.phase].state == CommitReady {
      if probe.ProbeFailed? {
        CommitUnprovenSound(w, r, probe.detail, env);
      } else {
        var w1 := if probe.Probed? then
          w.(domains := w.domains.(toolchains := Refreshed(w.domains.toolchains, probe.id, probe.observed, probe.mutated))) else w;
        QuietSound(w, w1);
        CommitRefusedSound(w1, r, CommitVerdict(w1, r, env.now), env);
        PublishStepSound(w1, r, pub, env);
        GrowsFromQuiet(w, w1, CommitRefused(w1, r, CommitVerdict(w1, r, env.now), env));
        GrowsFromQuiet(w, w1, Publish(w1, r, pub, env));
      }
    }
  }

  lemma GrowsFromQuiet(w: World, w1: World, w': World)
    requires Quiet(w, w1) && Grows(w1, w')
    ensures Grows(w, w')
  {
  }

  /* ---------- Whole sessions ---------- */

  lemma CreateSound(w: World, s: CompilerSession, phasesUpTo: U64, env: Ambient)
    requires Sound(w)
    ensures Sound(Create(w, s, phasesUpTo, env)) && Grows(w, Create(w, s, phasesUpTo, env))
  {
    var w' := Create(w, s, phasesUpTo, env);
    if s.id in w'.sessions && s.id !in w.sessions {
      NewSessionSound(w, s);
      hide SessionSound;
      hide NewSession;
      hide InitialRecord;
      hide BundleOf;
      assert w'.sessions == w.sessions[s.id := s] && w'.commits == w.commits;
      assert w'.log[..|w.log|] == w.log && |w'.log| == |w.log| + 1 && w'.log[|w.log|].session == s;
      AddedSound(w, w', s);
    } else {
      hide NewSession;
      hide Sound;
      QuietSound(w, w');
    }
  }

  lemma NewSessionSound(w: World, s: CompilerSession)
    requires NewSession(w, s)
    ensures SessionSound(s) && forall p :: !HasCommitted(s, p)
  {
    hide IsPlan;
    hide RecordSound;
    hide HasPhase;
    hide Dependencies;
    forall id | id in s.phases
      ensures s.phases[id].id == id && s.phases[id].dependsOn == Dependencies(s.plan.nodes, id)
      ensures RecordSound(s.phases[id]) && s.phases[id].state == Pending
    {
      NewRecordSound(w, s, id);
    }
    hide NewSession;
  }

  lemma NewRecordSound(w: World, s: CompilerSession, id: U64)
    requires NewSession(w, s) && id in s.phases
    ensures s.phases[id].id == id && s.phases[id].dependsOn == Dependencies(s.plan.nodes, id)
    ensures RecordSound(s.phases[id]) && s.phases[id].state == Pending
  {
    hide IsPlan;
    hide RecordSound;
    hide InitialRecord;
    hide Registered;
    assert HasPhase(s.plan, id);
    InitialRecordSound(s.plan.nodes[IndexOfId(s.plan.nodes, id)], s.attemptGeneration);
  }

  lemma InitialRecordSound(node: PhaseNode, attemptGeneration: U64)
    ensures var p := InitialRecord(node, attemptGeneration);
            RecordSound(p) && p.state == Pending && p.id == node.id && p.dependsOn == node.dependsOn
  {
  }

  lemma AddedSound(w: World, w': World, s: CompilerSession)
    requires Sound(w) && s.id !in w.sessions && s.id < w'.next.session && w.next.session <= w'.next.session
    requires SessionSound(s) && forall p :: !HasCommitted(s, p)
    requires w'.sessions == w.sessions[s.id := s] && w'.commits == w.commits
    requires |w'.log| == |w.log| + 1 && w'.log[..|w.log|] == w.log && w'.log[|w.log|].session == s
    ensures Sound(w') && Grows(w, w')
  {
    hide SessionSound;
    forall id | id in w.sessions
      ensures SessionEvolves(w.sessions[id], w'.sessions[id])
    {
      EvolvesReflexive(w.sessions[id]);
    }
    EvolvesReflexive(s);
    hide SessionEvolves;
    AddedLog(w, w', s);
    forall k | 0 <= k < |w.commits|
      ensures EventSound(w', w'.commits[k]) && w.commits[k].session in w.sessions
    {
      assert EventSound(w, w.commits[k]);
      assert w'.log[w.commits[k].at] == w'.log[..|w.log|][w.commits[k].at];
    }
    forall id, p | id in w'.sessions && HasCommitted(w'.sessions[id], p)
      ensures Mentioned(w'.commits, id, p, |w'.log|)
    {
      assert id in w.sessions && HasCommitted(w.sessions[id], p);
      MentionedStays(w.commits, w'.commits, id, p, |w.log|, |w'.log|);
    }
    OrderedStays(w, w', |w.commits|);
  }

  lemma AddedLog(w: World, w': World, s: CompilerSession)
    requires LogSound(w) && s.id !in w.sessions && SessionSound(s) && SessionEvolves(s, s) && forall p :: !HasCommitted(s, p)
    requires w'.sessions == w.sessions[s.id := s] && w'.commits == w.commits
    requires |w'.log| == |w.log| + 1 && w'.log[..|w.log|] == w.log && w'.log[|w.log|].session == s
    ensures LogSound(w')
  {
    hide SessionSound;
    hide SessionEvolves;
    forall i | 0 <= i < |w.log|
      ensures w'.log[i] == w.log[i] && w.log[i].session.id != s.id
    {
      assert w'.log[..|w.log|][i] == w.log[i];
    }
  }

  lemma FenceSessionSound(w: World, session: U64, now: U64, reason: Text)
    requires Sound(w)
    ensures Sound(FenceSession(w, session, now, reason)) && Grows(w, FenceSession(w, session, now, reason))
  {
    var w' := FenceSession(w, session, now, reason);
    hide SessionSound;
    hide FencedPhases;
    hide FencedArtifacts;
    hide FencedLeases;
    if session in w.sessions && !Closing(w.sessions[session]) {
      var s := w.sessions[session];
      assert s.id == session && SessionSound(s);
      hide Sound;
      FenceSound(s, now, reason);
      ReplaceSound(w, w', FencedSession(s, now, reason));
    } else {
      QuietSound(w, w');
    }
  }

  lemma RetireSessionSound(w: World, session: U64, reason: Text, env: Ambient)
    requires Sound(w)
    ensures Sound(RetireSession(w, session, reason, env)) && Grows(w, RetireSession(w, session, reason, env))
  {
    var w' := RetireSession(w, session, reason, env);
    hide SessionSound;
    hide RetiredPhases;
    hide RetiredLeases;
    hide BundleOf;
    if session in w.sessions {
      var s := w.sessions[session];
      var t := Advanced(s.(phases := RetiredPhases(s, env.now, reason), state := SessionRetired, failureDetail := reason), env.now);
      assert s.id == session && SessionSound(s);
      hide Sound;
      RetireSound(s, env.now, reason, t);
      PutReplaces(w, w.(leases := RetiredLeases(w.leases, s, s.plan.order, reason)), t, env);
      ReplaceSound(w, w', t);
    } else {
      QuietSound(w, w');
    }
  }

  lemma ApplyRecoverySound(w: World, session: U64, requiresOperator: bool, steps: seq<Revalidation>, recovery: Ref, env: Ambient)
    requires Sound(w)
    ensures var w' := ApplyRecovery(w, session, requiresOperator, steps, recovery, env); Sound(w') && Grows(w, w')
  {
    var w' := ApplyRecovery(w, session, requiresOperator, steps, recovery, env);
    hide SessionSound;
    hide RecoveredPhases;
    hide RevalidateAll;
    hide AllRevalidate;
    hide BundleOf;
    hide StepIds;
    var plan := RecoveryPlan(session, requiresOperator, StepIds(steps));
    if session in w.sessions && plan in w.plans && AllRevalidate(w.artifacts, steps) {
      var s := w.sessions[session];
      var t := RecoveredSession(s, requiresOperator, recovery, env.now);
      assert s.id == session && SessionSound(s);
      hide Sound;
      PutReplaces(w, w.(plans := w.plans - multiset{plan}, artifacts := RevalidateAll(w.artifacts, steps)), t, env);
      if s.state == SessionRecovering && !requiresOperator {
        RecoverSound(s, env.now, t);
        ReplaceSound(w, w', t);
      } else {
        SamePhases(w, w', t);
      }
    } else {
      QuietSound(w, w');
    }
  }

  /* ---------- Runs ---------- */

  /** Every action, whatever the world answers, keeps the runtime sound. */
  lemma ApplySound(w: World, e: Event)
    requires Sound(w)
    ensures Sound(Apply(w, e)) && Grows(w, Apply(w, e))
  {
    hide Sound;
    hide Grows;
    hide Create;
    hide Reserve;
    hide Launch;
    hide NoteProcess;
    hide RecordExecution;
    hide ReportOutput;
    hide ReproductionFailed;
    hide Validate;
    hide Commit;
    hide CancelPhase;
    hide FailPhase;
    hide GrantRetry;
    hide FenceSession;
    hide CloseSession;
    hide RetireSession;
    hide SetSessionState;
    hide ApplyRecovery;
    hide PlanFor;
    match e.action {
      case DoChange(change) =>
        QuietSound(w, w.(domains := Change(w.domains, change)));
      case DoCreate(newSession, phasesUpTo) => CreateSound(w, newSession, phasesUpTo, e.env);
      case DoReserve(session, phase, isRetry, workspace) => ReserveSound(w, session, phase, isRetry, workspace, e.env);
      case DoLaunch(r, outcome) => LaunchSound(w, r, outcome, e.env);
      case DoNoteProcess(r, process) => NoteProcessSound(w, r, process);
      case DoRecord(r, report) => RecordExecutionSound(w, r, report, e.env);
      case DoReport(session, phase, generation, invocation, report) =>
        ReportOutputSound(w, session, phase, generation, invocation, report, e.env);
      case DoReproductionFailed(r, status, detail) => ReproductionFailedSound(w, r, status, detail, e.env);
      case DoValidate(r, evidence) => ValidateSound(w, r, evidence, e.env);
      case DoBeginCommit(session, phase, generation, invocation) =>
        QuietSound(w, BeginCommit(w, session, phase, generation, invocation));
      case DoCommit(r, probe, pub) => CommitSound(w, r, probe, pub, e.env);
      case DoCancelPhase(session, phase, detail) => CancelPhaseSound(w, session, phase, detail, e.env);
      case DoFailPhase(session, phase, generation, failure, status, detail) =>
        FailPhaseSound(w, session, phase, generation, failure, status, detail, e.env);
      case DoGrantRetry(session, phase) => GrantRetrySound(w, session, phase);
      case DoFenceSession(session, detail) => FenceSessionSound(w, session, e.env.now, detail);
      case DoCloseSession(session) => CloseSessionSound(w, session, e.env);
      case DoShutdown(stopping) => QuietSound(w, w.(shuttingDown := stopping));
      case DoRetireSession(session, detail) => RetireSessionSound(w, session, detail, e.env);
      case DoSetSessionState(session, state, detail) => SetSessionStateSound(w, session, state, detail, e.env);
      case DoPlanRecovery(session) => QuietSound(w, PlanRecovery(w, session));
      case DoApplyRecovery(session, requiresOperator, steps, recovery) =>
        ApplyRecoverySound(w, session, requiresOperator, steps, recovery, e.env);
    }
  }
}
