/** Waiting for a compiler process and capturing its output (src/core/process.cpp:132-155,
    229-294). */
module Process {
  import opened Bytes
  import opened Wrappers

  /* ---------- The single collector ---------- */

  datatype Termination = Exited | Killed | Crashed | Undetermined

  datatype Outcome = Outcome(termination: Termination, exitCode: nat, standardOutput: seq<Byte>, standardError: seq<Byte>)

  /** Where a waiting thread stands. */
  datatype Waiter =
    | Outside
    | AwaitingExit
    | AwaitingOutcome
    | Joining
    | Joined
    | Returned(outcome: Outcome)

  /** The shared part of a process handle, and how often the readers were joined and the outcome
      was written. */
  datatype Handle = Handle(
    finished: bool,
    collecting: bool,
    outcome: Option<Outcome>,
    joins: nat,
    writes: nat,
    waiters: map<nat, Waiter>)

  /** The sections of ProcessHandle::wait between which other threads may run. */
  datatype Turn =
    | Enter(id: nat)
    | Signalled(id: nat)
    | Join(id: nat)
    | Publish(id: nat, value: Outcome)
    | Wake(id: nat)

  function Position(h: Handle, id: nat): Waiter {
    if id in h.waiters then h.waiters[id] else Outside
  }

  function Move(h: Handle, id: nat, w: Waiter): Handle {
    h.(waiters := h.waiters[id := w])
  }

  /** A return of the published outcome. */
  function Return(h: Handle, id: nat): Handle {
    if h.outcome.Some? then Move(h, id, Returned(h.outcome.value)) else h
  }

  /** One section of one thread; a thread that is not at that point does nothing. */
  function Take(h: Handle, t: Turn): Handle {
    match t
    case Enter(id) =>
      if !Position(h, id).Outside? then h
      else if h.finished then Return(h, id)
      else Move(h, id, AwaitingExit)
    case Signalled(id) =>
      if !Position(h, id).AwaitingExit? then h
      else if h.finished then Return(h, id)
      else if h.collecting then Move(h, id, AwaitingOutcome)
      else Move(h, id, Joining).(collecting := true)
    case Join(id) =>
      if !Position(h, id).Joining? then h else Move(h, id, Joined).(joins := h.joins + 1)
    case Publish(id, value) =>
      if !Position(h, id).Joined? then h
      else Move(h, id, Returned(value)).(outcome := Some(value), writes := h.writes + 1, finished := true, collecting := false)
    case Wake(id) =>
      if !Position(h, id).AwaitingOutcome? || !h.finished then h else Return(h, id)
  }

  function Fresh(): Handle {
    Handle(false, false, None, 0, 0, map[])
  }

  function TakeAll(h: Handle, turns: seq<Turn>): Handle
    decreases |turns|
  {
    if turns == [] then h else Take(TakeAll(h, turns[..|turns| - 1]), turns[|turns| - 1])
  }

  predicate Collects(w: Waiter) {
    w.Joining? || w.Joined?
  }

  /** At most one thread collects; it joins before it publishes; and the outcome, once
      published, is the one every returned thread has. */
  ghost predicate Sound(h: Handle) {
    && (forall a, b :: Collects(Position(h, a)) && Collects(Position(h, b)) ==> a == b)
    && (h.collecting <==> exists a :: Collects(Position(h, a)))
    && (h.finished ==> !h.collecting)
    && (h.finished <==> h.outcome.Some?)
    && h.writes == (if h.finished then 1 else 0)
    && h.joins == (if h.finished || exists a :: Position(h, a).Joined? then 1 else 0)
    && (forall a :: Position(h, a).Returned? ==> h.outcome == Some(Position(h, a).outcome))
    && forall a :: Position(h, a).AwaitingOutcome? ==> h.collecting || h.finished
  }

  lemma TakeSound(h: Handle, t: Turn)
    requires Sound(h)
    ensures Sound(Take(h, t))
  {
    var h' := Take(h, t);
    var id := t.id;
    assert forall a :: a != id ==> Position(h', a) == Position(h, a);
    match t {
      case Enter(_) =>
        assert h' == h || (!Collects(Position(h, id)) && !Collects(Position(h', id)));
      case Signalled(_) =>
        if Position(h, id).AwaitingExit? && !h.finished && !h.collecting {
          assert Collects(Position(h', id));
        }
      case Join(_) =>
        if Position(h, id).Joining? {
          assert Collects(Position(h, id)) && Collects(Position(h', id)) && Position(h', id).Joined?;
        }
      case Publish(_, _) =>
        if Position(h, id).Joined? {
          assert Collects(Position(h, id)) && Position(h, id).Joined?;
        }
      case Wake(_) =>
    }
  }

  /** For any number of waiters and any interleaving: the readers are joined at most once, the
      outcome is written at most once and only after they were joined, and all threads that
      return, return that same outcome. */
  lemma {:induction false} WaitHandOff(turns: seq<Turn>)
    ensures var h := TakeAll(Fresh(), turns);
            && Sound(h)
            && h.joins <= 1 && h.writes <= h.joins
            && (h.finished ==> h.joins == 1 && h.writes == 1)
            && forall a, b :: Position(h, a).Returned? && Position(h, b).Returned? ==> Position(h, a).outcome == Position(h, b).outcome
    decreases |turns|
  {
    if turns == [] {
      FreshSound();
    } else {
      WaitHandOff(turns[..|turns| - 1]);
      TakeSound(TakeAll(Fresh(), turns[..|turns| - 1]), turns[|turns| - 1]);
    }
  }

  lemma TakeMore(h: Handle, turns: seq<Turn>, t: Turn)
    ensures TakeAll(h, turns + [t]) == Take(TakeAll(h, turns), t)
  {
    assert (turns + [t])[..|turns|] == turns;
  }

  /** The collector joins the readers and publishes. */
  lemma CollectorPublishes(h: Handle, id: nat, value: Outcome) returns (turns: seq<Turn>)
    requires Sound(h) && Collects(Position(h, id))
    ensures var g := TakeAll(h, turns);
            Sound(g) && g.finished && forall a :: a != id ==> Position(g, a) == Position(h, a)
  {
    turns := [];
    if Position(h, id).Joining? {
      TakeMore(h, turns, Join(id));
      TakeSound(h, Join(id));
      turns := [] + [Join(id)];
    }
    TakeMore(h, turns, Publish(id, value));
    TakeSound(TakeAll(h, turns), Publish(id, value));
    turns := turns + [Publish(id, value)];
  }

  /** Once the outcome is published a thread has at most two sections left. */
  lemma ThenReturns(h: Handle, id: nat) returns (t: Turn)
    requires Sound(h) && h.finished
    ensures Position(Take(h, t), id).Returned?
  {
    t := match Position(h, id)
         case AwaitingExit => Signalled(id)
         case AwaitingOutcome => Wake(id)
         case _ => Enter(id);
    if Collects(Position(h, id)) {
      assert false;
    }
  }

  lemma {:induction false} TakeJoined(h: Handle, a: seq<Turn>, b: seq<Turn>)
    ensures TakeAll(h, a + b) == TakeAll(TakeAll(h, a), b)
    decreases |b|
  {
    if b == [] {
      assert a + b == a;
    } else {
      TakeJoined(h, a, b[..|b| - 1]);
      assert (a + b)[..|a + b| - 1] == a + b[..|b| - 1];
    }
  }

  /** No waiter is stuck: whatever the threads have done so far, there are further sections after
      which a given thread has returned. */
  lemma NoWaiterStuck(turns: seq<Turn>, id: nat, value: Outcome) returns (more: seq<Turn>)
    ensures Position(TakeAll(Fresh(), turns + more), id).Returned?
  {
    WaitHandOff(turns);
    var h := TakeAll(Fresh(), turns);
    var first := ToCollecting(h, id);
    TakeJoined(Fresh(), turns, first);
    var second := ToPublished(TakeAll(h, first), value);
    TakeJoined(Fresh(), turns + first, second);
    var g := TakeAll(Fresh(), turns + first + second);
    var last := ThenReturns(g, id);
    TakeMore(Fresh(), turns + first + second, last);
    more := first + second + [last];
    assert turns + first + second + [last] == turns + more;
  }

  lemma ToCollecting(h: Handle, id: nat) returns (turns: seq<Turn>)
    requires Sound(h)
    ensures var g := TakeAll(h, turns); Sound(g) && (g.finished || g.collecting)
  {
    hide Sound;
    turns := [];
    if !h.finished && !h.collecting {
      turns := Enters(h, id);
    }
  }

  lemma ToPublished(h: Handle, value: Outcome) returns (turns: seq<Turn>)
    requires Sound(h) && (h.finished || h.collecting)
    ensures Sound(TakeAll(h, turns)) && TakeAll(h, turns).finished
  {
    turns := [];
    if !h.finished {
      var c :| Collects(Position(h, c));
      turns := CollectorPublishes(h, c, value);
    }
  }

  /** With nobody collecting, a thread comes to collect. */
  lemma Enters(h: Handle, id: nat) returns (turns: seq<Turn>)
    requires Sound(h) && !h.finished && !h.collecting
    ensures Sound(TakeAll(h, turns)) && TakeAll(h, turns).collecting
  {
    turns := [];
    if Position(h, id).Outside? {
      TakeMore(h, turns, Enter(id));
      TakeSound(h, Enter(id));
      turns := [] + [Enter(id)];
    }
    var g := TakeAll(h, turns);
    assert !Collects(Position(h, id)) && !Position(h, id).AwaitingOutcome?;
    TakeMore(h, turns, Signalled(id));
    TakeSound(g, Signalled(id));
    turns := turns + [Signalled(id)];
  }

  lemma FreshSound()
    ensures Sound(Fresh())
  {
  }

  /* ---------- Bounded capture ---------- */

  /** The stream as the reads deliver it, up to the read that returns nothing. */
  function Stream(chunks: seq<seq<Byte>>): seq<Byte> {
    if chunks == [] || chunks[0] == [] then [] else chunks[0] + Stream(chunks[1..])
  }

  function Min(a: nat, b: nat): nat {
    if a < b then a else b
  }

  /** read_stream: the first bytes of the stream are kept, the rest is counted. */
  method Capture(chunks: seq<seq<Byte>>, limit: nat) returns (kept: seq<Byte>, dropped: nat, truncated: bool)
    ensures kept == Stream(chunks)[..Min(limit, |Stream(chunks)|)]
    ensures |kept| + dropped == |Stream(chunks)|
    ensures truncated <==> |Stream(chunks)| > limit
  {
    kept, dropped, truncated := [], 0, false;
    var i := 0;
    ghost var seen: seq<Byte> := [];
    assert chunks[0..] == chunks;
    while i < |chunks| && chunks[i] != []
      invariant 0 <= i <= |chunks| && Stream(chunks) == seen + Stream(chunks[i..])
      invariant kept == seen[..Min(limit, |seen|)]
      invariant |kept| + dropped == |seen|
      invariant truncated <==> |seen| > limit
    {
      var chunk := chunks[i];
      var room := if |kept| < limit then limit - |kept| else 0;
      var take := Min(room, |chunk|);
      TakeChunk(seen, chunk, limit);
      kept := kept + chunk[..take];
      if take < |chunk| {
        truncated := true;
        dropped := dropped + (|chunk| - take);
      }
      StreamStep(chunks, i, seen);
      seen := seen + chunk;
      i := i + 1;
    }
    assert Stream(chunks[i..]) == [];
    assert seen + [] == seen;
  }

  lemma TakeChunk(seen: seq<Byte>, chunk: seq<Byte>, limit: nat)
    ensures var kept := seen[..Min(limit, |seen|)];
            var room := if |kept| < limit then limit - |kept| else 0;
            kept + chunk[..Min(room, |chunk|)] == (seen + chunk)[..Min(limit, |seen + chunk|)]
  {
  }

  lemma StreamStep(chunks: seq<seq<Byte>>, i: nat, seen: seq<Byte>)
    requires i < |chunks| && chunks[i] != []
    ensures seen + Stream(chunks[i..]) == (seen + chunks[i]) + Stream(chunks[i + 1..])
  {
    assert chunks[i..][0] == chunks[i] && chunks[i..][1..] == chunks[i + 1..];
  }
}
