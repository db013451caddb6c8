/**
 * What `start_turn` can rely on, for every arrival order: its waiter is settled
 * once, by nothing older than the call, and misses no completion.
 */
module AppServerTheorems {
  import opened Prelude
  import opened TurnOwnership
  import opened AppServerModel
  import opened AppServerTurns

  // ---------- settled at most once ----------

  /** No outcome is ever replaced. */
  predicate Final(before: seq<Option<Outcome>>, after: seq<Option<Outcome>>) {
    |before| <= |after| && forall i :: 0 <= i < |before| && before[i].Some? ==> after[i] == before[i]
  }

  lemma StepIsFinal(w: World, step: Step)
    ensures Final(w.client.waits.futures, Take(w, step).client.waits.futures)
  {
    match step
    case Heard(m) => NotifyKeepsFiling(w.client, m);
    case Close(t, cancelled) =>
    case _ =>
  }

  /** However a run goes on, a waiter that was settled keeps its outcome. */
  lemma {:induction false} SettledAtMostOnce(w: World, steps: seq<Step>)
    ensures Final(w.client.waits.futures, TakeAll(w, steps).client.waits.futures)
    decreases |steps|
  {
    if steps != [] {
      StepIsFinal(w, steps[0]);
      SettledAtMostOnce(Take(w, steps[0]), steps[1..]);
    }
  }

  // ---------- who settles a waiter ----------

  function Pending(w: World, t: string): Option<Outcome>
    requires WaitingOn(w, t) && w.frames[t].waiter < |w.client.waits.futures|
  {
    w.client.waits.futures[w.frames[t].waiter]
  }

  /** A completion finds a call's waiter exactly when it is about the call's thread. */
  lemma FindsOwnWaiter(home: string -> string, w: World, m: Message, t: string)
    requires Invariant(home, w) && Addressed(home, m) && WaitingOn(w, t)
    ensures Find(w.client.waits.turns, m.turn.id) == Some(w.frames[t].waiter) ==> m.thread == t
    ensures Find(w.client.waits.threads, m.thread) == Some(w.frames[t].waiter) <==> m.thread == t
  {
    if m.turn.id in w.client.waits.turns {
      assert FiledUnder(home, w, m.turn.id);
    }
    assert t in w.client.waits.threads;
  }

  /** A notification settles a waiting call exactly when it is a completion that reaches the call's thread. */
  lemma HeardOutcome(home: string -> string, w: World, m: Message, t: string)
    requires Invariant(home, w) && Addressed(home, m) && WaitingOn(w, t)
    ensures w.frames[t].waiter < |w.client.waits.futures| == |Notify(w.client, m).waits.futures|
    ensures Notify(w.client, m).waits.futures[w.frames[t].waiter]
         == if Pending(w, t).None? && Reaches(w.client, m, t)
            then Some(FromCompletion(Completion(w.client.arrivals, m))) else Pending(w, t)
  {
    assert t in w.client.waits.threads;
    FindsOwnWaiter(home, w, m, t);
    SettlesOne(w.client.waits, Completion(w.client.arrivals, m), w.frames[t].waiter);
  }

  lemma SettlesOne(w: Waits, c: Completion, i: nat)
    requires i < |w.futures|
    ensures |Settled(w, c).futures| == |w.futures|
    ensures Settled(w, c).futures[i]
         == if w.futures[i].None?
               && (Find(w.turns, c.message.turn.id) == Some(i) || Find(w.threads, c.message.thread) == Some(i))
            then Some(FromCompletion(c)) else w.futures[i]
  {
  }

  /** The call on `t` is not ended by this step; a second call on `t` may be tried, and is refused. */
  predicate Leaves(step: Step, t: string) {
    match step
    case Fail(u, _, _) => u != t
    case Close(u, _) => u != t
    case _ => true
  }

  predicate AllLeave(steps: seq<Step>, t: string) {
    forall i :: 0 <= i < |steps| ==> Leaves(steps[i], t)
  }

  /** A waiting call stays filed as it was, and only a completion or a lost transport changes its outcome. */
  lemma WaitingStep(home: string -> string, w: World, step: Step, t: string)
    requires Invariant(home, w) && Legal(home, w, step) && Leaves(step, t) && WaitingOn(w, t)
    ensures WaitingOn(Take(w, step), t) && Take(w, step).frames[t] == w.frames[t]
    ensures w.frames[t].waiter < |w.client.waits.futures| <= |Take(w, step).client.waits.futures|
    ensures Pending(Take(w, step), t)
         == if step.Heard? && Pending(w, t).None? && Reaches(w.client, step.message, t)
            then Some(FromCompletion(Completion(w.client.arrivals, step.message)))
            else if step.Disconnect? && Pending(w, t).None? then Some(TransportClosed)
            else Pending(w, t)
  {
    assert t in w.client.waits.threads;
    match step
    case Heard(m) => HeardOutcome(home, w, m, t);
    case Close(u, cancelled) => assert u in w.client.waits.threads;
    case Disconnect => assert w.client.waits.threads[t] in w.client.waits.threads.Values;
    case _ =>
  }

  // ---------- settled by nothing older than the call ----------

  /** The outcome belongs to a call on `t` that began when `since` notifications had arrived. */
  predicate Proper(o: Option<Outcome>, t: string, since: nat) {
    match o
    case None => true
    case Some(FromResponse(u, _)) => u == t
    case Some(FromCompletion(c)) => c.message.thread == t && since <= c.arrival
    case Some(TransportClosed) => true
    case Some(Cancelled) => false
  }

  /** Nothing older than the call is buffered for its thread. */
  ghost predicate NothingOlder(home: string -> string, b: Buffer, t: string, since: nat) {
    && (forall x :: x in b.turns && home(x) == t ==> since <= b.turns[x].arrival)
    && (t in b.threads ==> since <= b.threads[t].arrival)
  }

  ghost predicate Fresh(home: string -> string, w: World, t: string, since: nat) {
    && since <= w.client.arrivals
    && t in w.frames
    && (w.frames[t].Requesting? ==> NothingOlder(home, w.client.buffer, t, since))
    && (WaitingOn(w, t) && w.frames[t].waiter < |w.client.waits.futures| ==> Proper(Pending(w, t), t, since))
  }

  lemma NothingOlderKept(home: string -> string, w: World, step: Step, t: string, since: nat)
    requires Invariant(home, w) && Legal(home, w, step) && Leaves(step, t)
    requires NothingOlder(home, w.client.buffer, t, since) && since <= w.client.arrivals
    ensures NothingOlder(home, Take(w, step).client.buffer, t, since)
  {
    match step
    case Respond(u, turn) =>
      PoppedFewer(w.client.buffer, u, [ActiveTurn(w.client.names, u, turn.id), turn.id]);
    case Open(u) => DiscardedFewer(w.client.buffer, u);
    case Fail(u, _, _) => DiscardedFewer(w.client.buffer, u);
    case _ =>
  }

  lemma {:induction false} FirstBufferedIs(entries: map<string, Completion>, ids: seq<string>)
    ensures FirstBuffered(entries, ids).Some? <==> exists x :: x in ids && x != "" && x in entries
    ensures FirstBuffered(entries, ids).Some? ==>
      exists x :: x in ids && x != "" && x in entries && FirstBuffered(entries, ids).value == entries[x]
  {
    if ids != [] {
      FirstBufferedIs(entries, ids[1..]);
      assert forall x :: x in ids <==> x == ids[0] || x in ids[1..];
    }
  }

  /** What the response takes out of the buffer was delivered to the call's thread after the call began. */
  lemma RespondedFresh(home: string -> string, w: World, t: string, turn: Turn, since: nat)
    requires Invariant(home, w) && Legal(home, w, Respond(t, turn))
    requires NothingOlder(home, w.client.buffer, t, since)
    ensures Proper(Immediate(t, turn, Buffered(w.client.buffer, t, [ActiveTurn(w.client.names, t, turn.id), turn.id])), t, since)
  {
    var b, id := w.client.buffer, ActiveTurn(w.client.names, t, turn.id);
    FirstBufferedIs(b.turns, [id, turn.id]);
    assert home(id) == t && home(turn.id) == t;
    assert forall x :: x in b.turns ==> TurnEntry(home, b.turns[x], x, w.client.arrivals);
    assert t in b.threads ==> ThreadEntry(b.threads[t], t, w.client.arrivals);
  }

  lemma StepKeepsFresh(home: string -> string, w: World, step: Step, t: string, since: nat)
    requires Invariant(home, w) && Legal(home, w, step) && Leaves(step, t)
    requires Fresh(home, w, t, since)
    ensures Fresh(home, Take(w, step), t, since)
  {
    if WaitingOn(w, t) {
      WaitingStep(home, w, step, t);
    } else {
      NothingOlderKept(home, w, step, t, since);
      if step.Respond? && step.thread == t {
        RespondedFresh(home, w, t, step.turn, since);
      }
    }
  }

  lemma {:induction false} RunKeepsFresh(home: string -> string, w: World, steps: seq<Step>, t: string, since: nat)
    requires Invariant(home, w) && LegalRun(home, w, steps) && AllLeave(steps, t)
    requires Fresh(home, w, t, since)
    ensures Fresh(home, TakeAll(w, steps), t, since)
    decreases |steps|
  {
    if steps != [] {
      StepKeepsFresh(home, w, steps[0], t, since);
      StepKeepsInvariant(home, w, steps[0]);
      RunKeepsFresh(home, Take(w, steps[0]), steps[1..], t, since);
    }
  }

  /** The call has just been opened. */
  predicate JustOpened(w: World, t: string) {
    t in w.frames && w.frames[t].Requesting? && t !in w.client.buffer.threads && t !in w.client.names.notified
  }

  lemma OpenJustOpens(home: string -> string, w: World, t: string)
    requires Invariant(home, w) && t != "" && Accepts(w.client.ownership, Begin(t))
    ensures JustOpened(Take(w, Open(t)), t) && JustBegun(Take(w, Open(t)).client.ownership, t)
  {
    DiscardedFewer(w.client.buffer, t);
  }

  /** No completion of the thread is buffered under a turn id. */
  ghost predicate Clean(home: string -> string, w: World, t: string) {
    forall x :: x in w.client.buffer.turns ==> home(x) != t
  }

  /** Every legal way on from here settles the call by nothing that arrived before it opened. */
  ghost predicate AlwaysFresh(home: string -> string, w: World, t: string) {
    forall steps: seq<Step> {:trigger TakeAll(w, steps)} ::
      LegalRun(home, w, steps) && AllLeave(steps, t) ==> Fresh(home, TakeAll(w, steps), t, w.client.arrivals)
  }

  lemma StaleResponse(home: string -> string, w: World, t: string, x: string)
    requires Invariant(home, w) && JustOpened(w, t)
    requires x in w.client.buffer.turns && home(x) == t
    ensures Legal(home, w, Respond(t, Turn(x, IN_PROGRESS, [])))
    ensures !Fresh(home, Take(w, Respond(t, Turn(x, IN_PROGRESS, []))), t, w.client.arrivals)
  {
    var turn := Turn(x, IN_PROGRESS, []);
    assert TurnEntry(home, w.client.buffer.turns[x], x, w.client.arrivals);
    assert FirstBuffered(w.client.buffer.turns, [x, x]) == Some(w.client.buffer.turns[x]);
    var next := Take(w, Respond(t, turn));
    assert Pending(next, t) == Some(FromCompletion(w.client.buffer.turns[x]));
  }

  /**
   * Whatever happens next, a call is settled only by its response, by a completion
   * that reaches its thread after it opened or by a lost transport, exactly when it
   * opens with no older completion of its thread filed under a turn id.
   */
  lemma NothingOlderSettlesIff(home: string -> string, w: World, t: string)
    requires Invariant(home, w) && JustOpened(w, t)
    ensures AlwaysFresh(home, w, t) <==> Clean(home, w, t)
  {
    if Clean(home, w, t) {
      forall steps: seq<Step> | LegalRun(home, w, steps) && AllLeave(steps, t)
        ensures Fresh(home, TakeAll(w, steps), t, w.client.arrivals)
      {
        RunKeepsFresh(home, w, steps, t, w.client.arrivals);
      }
    } else {
      var x :| x in w.client.buffer.turns && home(x) == t;
      var steps := [Respond(t, Turn(x, IN_PROGRESS, []))];
      StaleResponse(home, w, t, x);
      assert steps[1..] == [];
      assert LegalRun(home, Take(w, steps[0]), steps[1..]);
      assert TakeAll(w, steps) == Take(w, steps[0]);
      assert LegalRun(home, w, steps) && AllLeave(steps, t);
    }
  }

  // ---------- when calls open clean ----------

  /** The two indexes of the buffer hold the same completions: one a thread, under its turn as well if it has an id. */
  ghost predicate Paired(home: string -> string, b: Buffer) {
    && (forall x :: x in b.turns && home(x) != "" ==> home(x) in b.threads && b.threads[home(x)] == b.turns[x])
    && (forall t :: t in b.threads && b.threads[t].message.turn.id != "" ==>
          b.threads[t].message.turn.id in b.turns && b.turns[b.threads[t].message.turn.id] == b.threads[t])
  }

  /** A second turn of a thread completes while the completion of a first is still buffered. */
  predicate Displaces(w: World, step: Step) {
    && step.Heard?
    && var m := step.message;
       && Reaches(w.client, m, m.thread)
       && Taken(w.client.buffer, m)
  }

  lemma DiscardedPaired(home: string -> string, b: Buffer, arrivals: nat, t: string)
    requires BufferedAtHome(home, b, arrivals) && Paired(home, b)
    ensures Paired(home, Discarded(b, t))
  {
    forall x | x in Discarded(b, t).turns && home(x) != ""
      ensures home(x) in Discarded(b, t).threads && Discarded(b, t).threads[home(x)] == b.turns[x]
    {
      assert TurnEntry(home, b.turns[x], x, arrivals);
    }
  }

  lemma PoppedPaired(home: string -> string, b: Buffer, arrivals: nat, t: string, ids: seq<string>)
    requires BufferedAtHome(home, b, arrivals) && Paired(home, b)
    requires t != "" && forall x :: x in ids ==> home(x) == t
    ensures Paired(home, Popped(b, t, ids))
  {
    FirstBufferedIs(b.turns, ids);
    forall x | x in Popped(b, t, ids).turns && home(x) != ""
      ensures home(x) in Popped(b, t, ids).threads && Popped(b, t, ids).threads[home(x)] == b.turns[x]
    {
      assert TurnEntry(home, b.turns[x], x, arrivals);
      assert b.threads[home(x)] == b.turns[x];
    }
  }

  /** The completion of another turn already holds the thread's place. */
  predicate Taken(b: Buffer, m: Message) {
    m.thread in b.threads && b.threads[m.thread].message.turn.id !in {"", m.turn.id}
  }

  lemma HoldPaired(home: string -> string, b: Buffer, m: Message, arrivals: nat)
    requires BufferedAtHome(home, b, arrivals) && Addressed(home, m) && Paired(home, b) && !Taken(b, m)
    ensures Paired(home, Hold(b, Completion(arrivals, m)))
  {
    assert forall x :: x in b.turns ==> TurnEntry(home, b.turns[x], x, arrivals);
    assert forall t :: t in b.threads ==> ThreadEntry(b.threads[t], t, arrivals);
  }

  lemma HoldUnpaired(home: string -> string, b: Buffer, m: Message, arrivals: nat)
    requires BufferedAtHome(home, b, arrivals) && Addressed(home, m) && Paired(home, b) && Taken(b, m)
    ensures !Paired(home, Hold(b, Completion(arrivals, m)))
  {
    var y := b.threads[m.thread].message.turn.id;
    assert ThreadEntry(b.threads[m.thread], m.thread, arrivals) && TurnEntry(home, b.turns[y], y, arrivals);
    assert y in Hold(b, Completion(arrivals, m)).turns && home(y) == m.thread;
  }

  lemma HeldPairedIff(home: string -> string, w: World, m: Message)
    requires Invariant(home, w) && Addressed(home, m) && Paired(home, w.client.buffer)
    ensures Paired(home, Notify(w.client, m).buffer) <==> !Displaces(w, Heard(m))
  {
    var b := w.client.buffer;
    if Taken(b, m) {
      ReachesRequest(home, w, m);
      HoldUnpaired(home, b, m, w.client.arrivals);
    } else {
      HoldPaired(home, b, m, w.client.arrivals);
    }
    HeardHolds(w.client, m);
  }

  lemma ReachesRequest(home: string -> string, w: World, m: Message)
    requires Invariant(home, w) && Addressed(home, m)
    requires m.thread in w.client.buffer.threads
    ensures !Awaited(w.client.waits, m)
  {
    assert m.turn.id in w.client.waits.turns ==> FiledUnder(home, w, m.turn.id);
  }

  lemma StepPairedIff(home: string -> string, w: World, step: Step)
    requires Invariant(home, w) && Legal(home, w, step) && Paired(home, w.client.buffer)
    ensures Paired(home, Take(w, step).client.buffer) <==> !Displaces(w, step)
  {
    match step
    case Heard(m) => HeldPairedIff(home, w, m);
    case Open(t) => DiscardedPaired(home, w.client.buffer, w.client.arrivals, t);
    case Fail(t, _, _) => DiscardedPaired(home, w.client.buffer, w.client.arrivals, t);
    case Respond(t, turn) =>
      PoppedPaired(home, w.client.buffer, w.client.arrivals, t, [ActiveTurn(w.client.names, t, turn.id), turn.id]);
    case _ =>
  }

  /** No step of the run displaces a buffered completion. */
  predicate NeverDisplaces(w: World, steps: seq<Step>)
    decreases |steps|
  {
    steps == [] || (!Displaces(w, steps[0]) && NeverDisplaces(Take(w, steps[0]), steps[1..]))
  }

  /** From the idle client on, while no completion displaces another, every call that opens opens clean. */
  lemma {:induction false} CallsOpenClean(home: string -> string, w: World, steps: seq<Step>, t: string)
    requires Invariant(home, w) && Paired(home, w.client.buffer) && LegalRun(home, w, steps) && NeverDisplaces(w, steps)
    requires t != "" && Accepts(TakeAll(w, steps).client.ownership, Begin(t))
    ensures Invariant(home, TakeAll(w, steps))
    ensures Clean(home, Take(TakeAll(w, steps), Open(t)), t)
    decreases |steps|
  {
    if steps != [] {
      StepKeepsInvariant(home, w, steps[0]);
      StepPairedIff(home, w, steps[0]);
      CallsOpenClean(home, Take(w, steps[0]), steps[1..], t);
    }
  }

  // ---------- no completion is missed ----------

  /** This step gives the call on `t` a reason to be settled. */
  predicate Settles(w: World, step: Step, t: string) {
    match step
    case Heard(m) => Reaches(w.client, m, t)
    case Respond(u, turn) => u == t && Terminal(turn.status)
    case Disconnect => WaitingOn(w, t)
    case _ => false
  }

  predicate EverSettles(w: World, steps: seq<Step>, t: string)
    decreases |steps|
  {
    steps != [] && (Settles(w, steps[0], t) || EverSettles(Take(w, steps[0]), steps[1..], t))
  }

  /** The call is settled, or will be by the response because a completion waits for it. */
  predicate Due(w: World, t: string) {
    if WaitingOn(w, t) then w.frames[t].waiter < |w.client.waits.futures| && Pending(w, t).Some?
    else t in w.client.buffer.threads
  }

  /** While the request is out, what is buffered for the thread is found under the thread. */
  ghost predicate Indexed(home: string -> string, w: World, t: string) {
    && t in w.frames
    && (w.frames[t].Requesting? ==>
          forall x :: x in w.client.buffer.turns && home(x) == t ==> t in w.client.buffer.threads)
  }

  /** A second call on the thread is refused, after it discarded the completion buffered for the first. */
  predicate Loses(w: World, step: Step, t: string) {
    step == Open(t) && t in w.frames && w.frames[t].Requesting? && t in w.client.buffer.threads
  }

  predicate NeverLoses(w: World, steps: seq<Step>, t: string)
    decreases |steps|
  {
    steps == [] || (!Loses(w, steps[0], t) && NeverLoses(Take(w, steps[0]), steps[1..], t))
  }

  lemma RequestingStep(home: string -> string, w: World, step: Step, t: string)
    requires Invariant(home, w) && Legal(home, w, step) && Leaves(step, t) && Indexed(home, w, t)
    requires w.frames[t].Requesting? && !(step.Respond? && step.thread == t) && !Loses(w, step, t)
    ensures Indexed(home, Take(w, step), t)
    ensures Take(w, step).frames[t].Requesting?
    ensures Due(Take(w, step), t) <==> Due(w, t) || Settles(w, step, t)
  {
    var b := w.client.buffer;
    match step
    case Heard(m) =>
      HeardHolds(w.client, m);
      if m.thread == t {
        RequestNotAwaited(home, w, m);
      }
    case Respond(u, turn) => OthersPopped(home, w, u, turn, t);
    case Open(u) => if u != t { OthersDiscarded(home, w, u, t); }
    case Fail(u, _, _) => OthersDiscarded(home, w, u, t);
    case _ =>
  }

  lemma RequestNotAwaited(home: string -> string, w: World, m: Message)
    requires Invariant(home, w) && Addressed(home, m)
    requires m.thread in w.frames && w.frames[m.thread].Requesting?
    ensures !Awaited(w.client.waits, m)
  {
    assert m.turn.id in w.client.waits.turns ==> FiledUnder(home, w, m.turn.id);
  }

  /** Clearing another thread's buffer leaves this thread's completion in place. */
  lemma OthersDiscarded(home: string -> string, w: World, u: string, t: string)
    requires Invariant(home, w) && u != t
    ensures t in Discarded(w.client.buffer, u).threads <==> t in w.client.buffer.threads
    ensures Fewer(Discarded(w.client.buffer, u), w.client.buffer)
  {
    DiscardedFewer(w.client.buffer, u);
  }

  lemma OthersPopped(home: string -> string, w: World, u: string, turn: Turn, t: string)
    requires Invariant(home, w) && Legal(home, w, Respond(u, turn)) && u != t
    ensures var popped := Popped(w.client.buffer, u, [ActiveTurn(w.client.names, u, turn.id), turn.id]);
            (t in popped.threads <==> t in w.client.buffer.threads) && Fewer(popped, w.client.buffer)
  {
    var b, ids := w.client.buffer, [ActiveTurn(w.client.names, u, turn.id), turn.id];
    PoppedFewer(b, u, ids);
    FirstBufferedIs(b.turns, ids);
    assert forall x :: x in b.turns ==> TurnEntry(home, b.turns[x], x, w.client.arrivals);
    assert forall v :: v in b.threads ==> ThreadEntry(b.threads[v], v, w.client.arrivals);
  }

  lemma RespondDue(home: string -> string, w: World, t: string, turn: Turn)
    requires Invariant(home, w) && Legal(home, w, Respond(t, turn)) && Indexed(home, w, t)
    ensures Due(Take(w, Respond(t, turn)), t) <==> Due(w, t) || Terminal(turn.status)
  {
    var b, ids := w.client.buffer, [ActiveTurn(w.client.names, t, turn.id), turn.id];
    FirstBufferedIs(b.turns, ids);
    assert home(ids[0]) == t && home(ids[1]) == t;
  }

  lemma StepDue(home: string -> string, w: World, step: Step, t: string)
    requires Invariant(home, w) && Legal(home, w, step) && Leaves(step, t) && Indexed(home, w, t)
    requires !Loses(w, step, t)
    ensures Indexed(home, Take(w, step), t)
    ensures Due(Take(w, step), t) <==> Due(w, t) || Settles(w, step, t)
  {
    if WaitingOn(w, t) {
      WaitingStep(home, w, step, t);
    } else if step.Respond? && step.thread == t {
      RespondDue(home, w, t, step.turn);
    } else {
      RequestingStep(home, w, step, t);
    }
  }

  /** A step keeps what is due to the call, and adds what it settles, exactly when it is not a losing one. */
  lemma StepDueIff(home: string -> string, w: World, step: Step, t: string)
    requires Invariant(home, w) && Legal(home, w, step) && Leaves(step, t) && Indexed(home, w, t)
    ensures (Due(Take(w, step), t) <==> Due(w, t) || Settles(w, step, t)) <==> !Loses(w, step, t)
  {
    if Loses(w, step, t) {
      DiscardedFewer(w.client.buffer, t);
    } else {
      StepDue(home, w, step, t);
    }
  }

  lemma {:induction false} RunDue(home: string -> string, w: World, steps: seq<Step>, t: string)
    requires Invariant(home, w) && LegalRun(home, w, steps) && AllLeave(steps, t) && Indexed(home, w, t)
    requires NeverLoses(w, steps, t)
    ensures Indexed(home, TakeAll(w, steps), t)
    ensures Due(TakeAll(w, steps), t) <==> Due(w, t) || EverSettles(w, steps, t)
    decreases |steps|
  {
    if steps != [] {
      StepDue(home, w, steps[0], t);
      StepKeepsInvariant(home, w, steps[0]);
      RunDue(home, Take(w, steps[0]), steps[1..], t);
    }
  }

  /**
   * In any order of notifications and response, and of second calls on its thread
   * that lose nothing, a waiting call is settled exactly
   * when a completion of its thread was delivered since it opened, its response
   * was final, or the transport closed while it waited.
   */
  lemma SettledIff(home: string -> string, w: World, steps: seq<Step>, t: string)
    requires Invariant(home, w) && JustOpened(w, t) && Clean(home, w, t)
    requires LegalRun(home, w, steps) && AllLeave(steps, t) && NeverLoses(w, steps, t) && WaitingOn(TakeAll(w, steps), t)
    ensures var v := TakeAll(w, steps);
            v.frames[t].waiter < |v.client.waits.futures| && (Pending(v, t).Some? <==> EverSettles(w, steps, t))
  {
    RunDue(home, w, steps, t);
    RunKeepsInvariant(home, w, steps);
    assert t in TakeAll(w, steps).client.waits.threads;
  }

  // ---------- nothing stays indexed ----------

  /** No completion is filed under the thread, and none can be before a call opens on it. */
  predicate Unindexed(w: World, t: string) {
    t !in w.client.buffer.threads && (t in w.frames ==> w.frames[t].Waiting?)
  }

  lemma ResponseUnindexes(home: string -> string, w: World, t: string, turn: Turn)
    requires Invariant(home, w) && Legal(home, w, Respond(t, turn))
    ensures Unindexed(Take(w, Respond(t, turn)), t)
  {
    PoppedFewer(w.client.buffer, t, [ActiveTurn(w.client.names, t, turn.id), turn.id]);
  }

  lemma StepStaysUnindexed(home: string -> string, w: World, step: Step, t: string)
    requires Invariant(home, w) && Legal(home, w, step) && step != Open(t) && Unindexed(w, t)
    ensures Unindexed(Take(w, step), t)
  {
    match step
    case Heard(m) =>
      if t in Notify(w.client, m).buffer.threads {
        OnlyRequestsBuffer(w, m, t);
      }
    case Respond(u, turn) => PoppedFewer(w.client.buffer, u, [ActiveTurn(w.client.names, u, turn.id), turn.id]);
    case Open(u) => DiscardedFewer(w.client.buffer, u);
    case Fail(u, _, _) => DiscardedFewer(w.client.buffer, u);
    case _ =>
  }

  /** From the response on, and after the call, no completion is indexed under the thread until a call opens on it. */
  lemma {:induction false} StaysUnindexed(home: string -> string, w: World, steps: seq<Step>, t: string)
    requires Invariant(home, w) && LegalRun(home, w, steps) && Unindexed(w, t)
    requires forall i :: 0 <= i < |steps| ==> steps[i] != Open(t)
    ensures Unindexed(TakeAll(w, steps), t)
    decreases |steps|
  {
    if steps != [] {
      StepStaysUnindexed(home, w, steps[0], t);
      StepKeepsInvariant(home, w, steps[0]);
      StaysUnindexed(home, Take(w, steps[0]), steps[1..], t);
    }
  }
}
