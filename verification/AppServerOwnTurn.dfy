/** When a call is settled by its own turn, and one turn in every arrival order. */
module AppServerOwnTurn {
  import opened Prelude
  import opened TurnOwnership
  import opened AppServerModel
  import opened AppServerTurns
  import opened AppServerTheorems
  import opened AppServerRetirement

  // ---------- the ids of a call ----------

  /** The outcome is the call's: its response, or a completion under one of its ids delivered after it opened. */
  predicate OwnOutcome(o: Option<Outcome>, t: string, own: set<string>, names: string -> bool, since: nat) {
    match o
    case None => true
    case Some(FromResponse(u, turn)) => u == t && names(turn.id)
    case Some(FromCompletion(c)) => c.message.thread == t && c.message.turn.id in own && since <= c.arrival
    case Some(TransportClosed) => true
    case Some(Cancelled) => false
  }

  /** What the response could take out of the buffer is the call's own. */
  ghost predicate OwnBuffered(home: string -> string, w: World, t: string, own: set<string>, names: string -> bool,
                              since: nat) {
    var b := w.client.buffer;
    && (forall x :: x in b.turns && home(x) == t && names(x) ==> x in own && since <= b.turns[x].arrival)
    && (t in b.threads ==> b.threads[t].message.turn.id in own && since <= b.threads[t].arrival)
    && (t in w.client.names.notified ==> w.client.names.notified[t] in own)
  }

  ghost predicate Settled(w: World, t: string, own: set<string>, names: string -> bool, since: nat) {
    WaitingOn(w, t) && w.frames[t].waiter < |w.client.waits.futures| ==> OwnOutcome(Pending(w, t), t, own, names, since)
  }

  ghost predicate OwnOnly(home: string -> string, w: World, t: string, own: set<string>, names: string -> bool,
                          since: nat) {
    && since <= w.client.arrivals && t in w.frames
    && (w.frames[t].Requesting? ==> OwnBuffered(home, w, t, own, names, since))
    && Settled(w, t, own, names, since)
  }

  /**
   * The step leaves the call alone; on its thread only ids of the call and of
   * `earlier` ones start and complete, and its response goes by one of `names`.
   */
  predicate InCall(step: Step, t: string, own: set<string>, earlier: set<string>, names: string -> bool) {
    && Leaves(step, t)
    && (step.Heard? && step.message.thread == t
        && (step.message.kind.TurnStarted? || step.message.kind.TurnCompleted?) ==>
          step.message.turnId in {"", step.message.turn.id} && step.message.turn.id in own + earlier)
    && (step.Respond? && step.thread == t ==> names(step.turn.id))
  }

  predicate AllInCall(steps: seq<Step>, t: string, own: set<string>, earlier: set<string>, names: string -> bool) {
    forall i :: 0 <= i < |steps| ==> InCall(steps[i], t, own, earlier, names)
  }

  ghost predicate AllRetired(w: World, t: string, ids: set<string>) {
    forall x :: x in ids ==> IsRetired(w, t, x)
  }

  // ---------- retired ids keep out ----------

  /** Only the call's own ids reach the thread while the others are retired. */
  lemma OwnReaches(w: World, m: Message, t: string, own: set<string>, earlier: set<string>, names: string -> bool)
    requires InCall(Heard(m), t, own, earlier, names) && AllRetired(w, t, earlier) && m.thread == t
    requires m.kind.TurnStarted? || m.kind.TurnCompleted?
    ensures m.turn.id in own || Ignored(w.client, m)
  {
  }

  lemma HeardBuffered(home: string -> string, w: World, m: Message, t: string, own: set<string>, earlier: set<string>,
                      names: string -> bool, since: nat)
    requires Invariant(home, w) && Addressed(home, m) && since <= w.client.arrivals
    requires InCall(Heard(m), t, own, earlier, names) && AllRetired(w, t, earlier)
    requires OwnBuffered(home, w, t, own, names, since)
    ensures OwnBuffered(home, Take(w, Heard(m)), t, own, names, since)
  {
    HeardHolds(w.client, m);
    if m.thread == t && (m.kind.TurnStarted? || m.kind.TurnCompleted?) {
      OwnReaches(w, m, t, own, earlier, names);
    }
  }

  lemma OthersBuffered(home: string -> string, w: World, step: Step, t: string, own: set<string>,
                       names: string -> bool, since: nat)
    requires Invariant(home, w) && Legal(home, w, step) && !step.Heard? && !(step.Respond? && step.thread == t)
    requires Leaves(step, t) && OwnBuffered(home, w, t, own, names, since)
    ensures OwnBuffered(home, Take(w, step), t, own, names, since)
  {
    match step
    case Respond(u, turn) => PoppedFewer(w.client.buffer, u, [ActiveTurn(w.client.names, u, turn.id), turn.id]);
    case Open(u) => DiscardedFewer(w.client.buffer, u);
    case Fail(u, _, _) => DiscardedFewer(w.client.buffer, u);
    case _ =>
  }

  lemma RespondedOwn(home: string -> string, w: World, t: string, turn: Turn, own: set<string>, names: string -> bool,
                     since: nat)
    requires Invariant(home, w) && Legal(home, w, Respond(t, turn)) && names(turn.id)
    requires forall x :: x in own ==> names(x)
    requires OwnBuffered(home, w, t, own, names, since)
    ensures OwnOutcome(Immediate(t, turn, Buffered(w.client.buffer, t, [ActiveTurn(w.client.names, t, turn.id), turn.id])),
                       t, own, names, since)
  {
    var b, id := w.client.buffer, ActiveTurn(w.client.names, t, turn.id);
    FirstBufferedIs(b.turns, [id, turn.id]);
    assert home(id) == t && home(turn.id) == t && names(id);
    assert forall x :: x in b.turns ==> TurnEntry(home, b.turns[x], x, w.client.arrivals);
    assert t in b.threads ==> ThreadEntry(b.threads[t], t, w.client.arrivals);
  }

  lemma RequestingOwn(home: string -> string, w: World, step: Step, t: string, own: set<string>, earlier: set<string>,
                      names: string -> bool, since: nat)
    requires Invariant(home, w) && Legal(home, w, step) && InCall(step, t, own, earlier, names)
    requires (forall x :: x in own ==> names(x)) && AllRetired(w, t, earlier)
    requires OwnOnly(home, w, t, own, names, since) && w.frames[t].Requesting?
    ensures OwnOnly(home, Take(w, step), t, own, names, since)
  {
    if step.Heard? {
      HeardBuffered(home, w, step.message, t, own, earlier, names, since);
    } else if step.Respond? && step.thread == t {
      RespondedOwn(home, w, t, step.turn, own, names, since);
    } else {
      OthersBuffered(home, w, step, t, own, names, since);
    }
  }

  lemma StepOwn(home: string -> string, w: World, step: Step, t: string, own: set<string>, earlier: set<string>,
                names: string -> bool, since: nat)
    requires Invariant(home, w) && Legal(home, w, step) && InCall(step, t, own, earlier, names)
    requires (forall x :: x in own ==> names(x)) && AllRetired(w, t, earlier)
    requires OwnOnly(home, w, t, own, names, since)
    ensures OwnOnly(home, Take(w, step), t, own, names, since)
  {
    if WaitingOn(w, t) {
      WaitingStep(home, w, step, t);
      if step.Heard? && Reaches(w.client, step.message, t) {
        OwnReaches(w, step.message, t, own, earlier, names);
      }
    } else {
      RequestingOwn(home, w, step, t, own, earlier, names, since);
    }
  }

  /** Nothing can evict the retired ids: there are none, or few enough threads retire any. */
  ghost predicate Lasting(w: World, steps: seq<Step>, earlier: set<string>, pool: set<string>) {
    earlier == {} || (Remembers(w, pool) && forall i :: 0 <= i < |steps| ==> Within(steps[i], pool))
  }

  lemma StepLasts(w: World, steps: seq<Step>, t: string, earlier: set<string>, pool: set<string>)
    requires steps != [] && Lasting(w, steps, earlier, pool) && AllRetired(w, t, earlier)
    ensures Lasting(Take(w, steps[0]), steps[1..], earlier, pool) && AllRetired(Take(w, steps[0]), t, earlier)
  {
    if earlier != {} {
      forall x | x in earlier ensures IsRetired(Take(w, steps[0]), t, x) {
        StepStaysRetired(w, steps[0], pool, t, x);
      }
      StepStaysRetired(w, steps[0], pool, t, "");
    }
  }

  lemma {:induction false} RunOwn(home: string -> string, w: World, steps: seq<Step>, t: string, own: set<string>,
                                  earlier: set<string>, names: string -> bool, since: nat, pool: set<string>)
    requires Invariant(home, w) && LegalRun(home, w, steps) && AllInCall(steps, t, own, earlier, names)
    requires (forall x :: x in own ==> names(x)) && AllRetired(w, t, earlier) && Lasting(w, steps, earlier, pool)
    requires OwnOnly(home, w, t, own, names, since)
    ensures OwnOnly(home, TakeAll(w, steps), t, own, names, since)
    decreases |steps|
  {
    if steps != [] {
      StepOwn(home, w, steps[0], t, own, earlier, names, since);
      StepKeepsInvariant(home, w, steps[0]);
      StepLasts(w, steps, t, earlier, pool);
      RunOwn(home, Take(w, steps[0]), steps[1..], t, own, earlier, names, since, pool);
    }
  }

  // ---------- exactly when a call is settled by its own turn ----------

  /** Ids of a call that opens now, and of earlier ones on its thread. */
  ghost predicate CallIds(home: string -> string, w: World, t: string, own: set<string>, earlier: set<string>) {
    && own != {} && own !! earlier
    && (forall x :: x in own + earlier ==> x != "" && home(x) == t)
    && (forall x :: x in own ==> x !in w.client.buffer.turns)
  }

  /** However the run goes on, the call is only ever settled by its own turn. */
  ghost predicate AlwaysOwn(home: string -> string, w: World, t: string, own: set<string>, earlier: set<string>,
                            pool: set<string>) {
    forall steps: seq<Step> {:trigger TakeAll(w, steps)} ::
      LegalRun(home, w, steps) && AllInCall(steps, t, own, earlier, x => x in own)
      && (forall i :: 0 <= i < |steps| ==> Within(steps[i], pool))
      ==> Settled(TakeAll(w, steps), t, own, x => x in own, w.client.arrivals)
  }

  function Late(t: string, x: string): Message {
    Message(TurnCompleted, t, "", Turn(x, COMPLETED, []))
  }

  /** A late completion under an id that is not retired is buffered for the call. */
  lemma LateBuffered(home: string -> string, w: World, t: string, x: string)
    requires Invariant(home, w) && JustOpened(w, t) && JustBegun(w.client.ownership, t)
    requires x != "" && home(x) == t && !IsRetired(w, t, x)
    ensures Addressed(home, Late(t, x))
    ensures var v, c := Take(w, Heard(Late(t, x))), Completion(w.client.arrivals, Late(t, x));
      && v.frames == w.frames
      && x in v.client.buffer.turns && v.client.buffer.turns[x] == c
      && t in v.client.names.notified && v.client.names.notified[t] == x
  {
    assert Addressed(home, Late(t, x));
    RequestNotAwaited(home, w, Late(t, x));
    HeardHolds(w.client, Late(t, x));
    assert Reaches(w.client, Late(t, x), t);
  }

  /** The response then settles the call with it. */
  lemma LateSettles(w: World, t: string, x: string, r: string)
    requires t in w.client.names.notified && w.client.names.notified[t] == x && x != ""
    requires x in w.client.buffer.turns
    ensures var v := Take(w, Respond(t, Turn(r, IN_PROGRESS, [])));
      && WaitingOn(v, t) && v.frames[t].waiter < |v.client.waits.futures|
      && Pending(v, t) == Some(FromCompletion(w.client.buffer.turns[x]))
  {
    assert FirstBuffered(w.client.buffer.turns, [x, r]) == Some(w.client.buffer.turns[x]);
  }

  lemma TwoSteps(home: string -> string, w: World, first: Step, second: Step)
    requires Legal(home, w, first) && Legal(home, Take(w, first), second)
    ensures LegalRun(home, w, [first, second]) && TakeAll(w, [first, second]) == Take(Take(w, first), second)
  {
    var v := Take(w, first);
    assert [first, second][1..] == [second] && [second][1..] == [];
    assert LegalRun(home, Take(v, second), []) && TakeAll(Take(v, second), []) == Take(v, second);
    assert LegalRun(home, v, [second]) && TakeAll(v, [second]) == Take(v, second);
  }

  function LateSteps(t: string, x: string, r: string): seq<Step> {
    [Heard(Late(t, x)), Respond(t, Turn(r, IN_PROGRESS, []))]
  }

  lemma LateRun(home: string -> string, w: World, t: string, x: string, r: string)
    requires Invariant(home, w) && JustOpened(w, t) && JustBegun(w.client.ownership, t)
    requires x != "" && home(x) == t && !IsRetired(w, t, x) && r != "" && home(r) == t
    ensures LegalRun(home, w, LateSteps(t, x, r))
    ensures var v := TakeAll(w, LateSteps(t, x, r));
      && WaitingOn(v, t) && v.frames[t].waiter < |v.client.waits.futures|
      && Pending(v, t) == Some(FromCompletion(Completion(w.client.arrivals, Late(t, x))))
  {
    LateBuffered(home, w, t, x);
    LateSettles(Take(w, Heard(Late(t, x))), t, x, r);
    TwoSteps(home, w, Heard(Late(t, x)), Respond(t, Turn(r, IN_PROGRESS, [])));
  }

  lemma LateIsNotOwn(home: string -> string, w: World, t: string, own: set<string>, earlier: set<string>,
                     pool: set<string>, x: string)
    requires Invariant(home, w) && JustOpened(w, t) && JustBegun(w.client.ownership, t)
    requires CallIds(home, w, t, own, earlier) && x in earlier && !IsRetired(w, t, x)
    ensures !AlwaysOwn(home, w, t, own, earlier, pool)
  {
    var r :| r in own;
    assert x in own + earlier && r in own + earlier;
    LateRun(home, w, t, x, r);
    var steps := LateSteps(t, x, r);
    assert AllInCall(steps, t, own, earlier, y => y in own);
    assert !Settled(TakeAll(w, steps), t, own, y => y in own, w.client.arrivals);
  }

  /**
   * A call is settled only by its own response, a completion under one of its own
   * ids or a lost transport, in every continuation in which ids of earlier calls
   * on the thread may still be heard, exactly when all of those are retired.
   */
  lemma SettledByOwnTurnIff(home: string -> string, w: World, t: string, own: set<string>, earlier: set<string>,
                            pool: set<string>)
    requires Invariant(home, w) && JustOpened(w, t) && JustBegun(w.client.ownership, t)
    requires CallIds(home, w, t, own, earlier) && Remembers(w, pool)
    ensures AlwaysOwn(home, w, t, own, earlier, pool) <==> AllRetired(w, t, earlier)
  {
    if AllRetired(w, t, earlier) {
      var names, since := (x: string) => x in own, w.client.arrivals;
      forall steps: seq<Step> | LegalRun(home, w, steps) && AllInCall(steps, t, own, earlier, x => x in own)
                                && (forall i :: 0 <= i < |steps| ==> Within(steps[i], pool))
        ensures Settled(TakeAll(w, steps), t, own, x => x in own, since)
      {
        assert AllInCall(steps, t, own, earlier, names);
        RunOwn(home, w, steps, t, own, earlier, names, since, pool);
      }
    } else {
      var x :| x in earlier && !IsRetired(w, t, x);
      LateIsNotOwn(home, w, t, own, earlier, pool, x);
    }
  }

  // ---------- which ends leave an id behind ----------

  /** The step ends the call on `t`. */
  predicate Ends(w: World, step: Step, t: string) {
    || (step.Fail? && step.thread == t)
    || (step.Close? && step.thread == t && WaitingOn(w, t))
  }

  /** What an end retires: a failed request the id heard for its stream, a wait that is not cancelled every name of its
      call, and a cancelled wait nothing. */
  function RetiredBy(w: World, step: Step, t: string): set<string>
    requires Ends(w, step, t)
  {
    if step.Fail? then Named([step.started])
    else if step.cancelled then {}
    else Named(NamesOf(w, t))
  }

  /** An end leaves all ids of a call retired exactly when each of them was retired before or is one it retires. */
  lemma EndRetiresIff(w: World, step: Step, t: string, pool: set<string>, ids: set<string>)
    requires Ends(w, step, t) && Remembers(w, pool) && Within(step, pool)
    ensures AllRetired(Take(w, step), t, ids) <==>
              forall x :: x in ids ==> IsRetired(w, t, x) || x in RetiredBy(w, step, t)
  {
    if step.Fail? {
      RetireWithin(w.client.retired, t, [step.started], pool);
    } else if !step.cancelled {
      RetireWithin(w.client.retired, t, NamesOf(w, t), pool);
    }
    forall x ensures IsRetired(Take(w, step), t, x) <==> IsRetired(w, t, x) || x in RetiredBy(w, step, t) {
    }
  }

  /** Given the ids of the call each step ends, no end on `t` leaves one of them behind. */
  ghost predicate NoneLeft(w: World, steps: seq<Step>, t: string, ids: nat -> set<string>) {
    forall k :: 0 <= k < |steps| && Ends(TakeAll(w, steps[..k]), steps[k], t) ==>
      forall x :: x in ids(k) ==>
        IsRetired(TakeAll(w, steps[..k]), t, x) || x in RetiredBy(TakeAll(w, steps[..k]), steps[k], t)
  }

  /** The ids of the calls on `t` that ended. */
  function EndedIds(w: World, steps: seq<Step>, t: string, ids: nat -> set<string>): set<string> {
    set k, x | 0 <= k < |steps| && Ends(TakeAll(w, steps[..k]), steps[k], t) && x in ids(k) :: x
  }

  lemma {:induction false} TakeAllSplits(w: World, steps: seq<Step>, k: nat)
    requires k <= |steps|
    ensures TakeAll(w, steps) == TakeAll(TakeAll(w, steps[..k]), steps[k..])
    decreases |steps|
  {
    if k == 0 {
      assert steps[..0] == [] && steps[0..] == steps;
    } else {
      TakeAllSplits(Take(w, steps[0]), steps[1..], k - 1);
      assert steps[..k][0] == steps[0] && steps[..k][1..] == steps[1..][..k - 1] && steps[k..] == steps[1..][k - 1..];
    }
  }

  lemma NextTaken(w: World, steps: seq<Step>, k: nat)
    requires k < |steps|
    ensures TakeAll(w, steps[..k + 1]) == Take(TakeAll(w, steps[..k]), steps[k])
  {
    TakeAllSplits(w, steps[..k + 1], k);
    assert steps[..k + 1][..k] == steps[..k] && steps[..k + 1][k..] == [steps[k]];
    assert TakeAll(Take(TakeAll(w, steps[..k]), steps[k]), []) == Take(TakeAll(w, steps[..k]), steps[k]);
  }

  lemma {:induction false} RunRemembers(w: World, steps: seq<Step>, pool: set<string>)
    requires Remembers(w, pool) && forall i :: 0 <= i < |steps| ==> Within(steps[i], pool)
    ensures Remembers(TakeAll(w, steps), pool)
    decreases |steps|
  {
    if steps != [] {
      StepStaysRetired(w, steps[0], pool, "", "");
      RunRemembers(Take(w, steps[0]), steps[1..], pool);
    }
  }

  lemma EndedStaysRetired(w: World, steps: seq<Step>, t: string, ids: nat -> set<string>, pool: set<string>)
    requires Remembers(w, pool) && forall i :: 0 <= i < |steps| ==> Within(steps[i], pool)
    requires NoneLeft(w, steps, t, ids)
    ensures AllRetired(TakeAll(w, steps), t, EndedIds(w, steps, t, ids))
  {
    forall x | x in EndedIds(w, steps, t, ids) ensures IsRetired(TakeAll(w, steps), t, x) {
      var k :| 0 <= k < |steps| && Ends(TakeAll(w, steps[..k]), steps[k], t) && x in ids(k);
      RunRemembers(w, steps[..k], pool);
      EndRetiresIff(TakeAll(w, steps[..k]), steps[k], t, pool, ids(k));
      NextTaken(w, steps, k);
      RunRemembers(w, steps[..k + 1], pool);
      RunStaysRetired(TakeAll(w, steps[..k + 1]), steps[k + 1..], pool, t, x);
      TakeAllSplits(w, steps, k + 1);
    }
  }

  /**
   * While no end on the thread leaves an id of its call behind, every call of every
   * run is settled by its own turn only.
   */
  lemma CallsSettleOwn(home: string -> string, w: World, steps: seq<Step>, t: string, ids: nat -> set<string>,
                       own: set<string>, pool: set<string>)
    requires Invariant(home, w) && LegalRun(home, w, steps) && Remembers(w, pool)
    requires forall i :: 0 <= i < |steps| ==> Within(steps[i], pool)
    requires NoneLeft(w, steps, t, ids) && t != "" && Accepts(TakeAll(w, steps).client.ownership, Begin(t))
    requires CallIds(home, Take(TakeAll(w, steps), Open(t)), t, own, EndedIds(w, steps, t, ids))
    ensures AlwaysOwn(home, Take(TakeAll(w, steps), Open(t)), t, own, EndedIds(w, steps, t, ids), pool)
  {
    var here := TakeAll(w, steps);
    RunKeepsInvariant(home, w, steps);
    RunRemembers(w, steps, pool);
    EndedStaysRetired(w, steps, t, ids, pool);
    OpenJustOpens(home, here, t);
    StepKeepsInvariant(home, here, Open(t));
    SettledByOwnTurnIff(home, Take(here, Open(t)), t, own, EndedIds(w, steps, t, ids), pool);
  }

  // ---------- one turn, any order ----------

  /** Every start and completion of the thread carries the turn's stream id, and the call is left alone. */
  predicate InPlay(step: Step, t: string, stream: string) {
    && Leaves(step, t)
    && (step.Heard? && step.message.thread == t
        && (step.message.kind.TurnStarted? || step.message.kind.TurnCompleted?) ==>
          step.message.turn.id == stream && step.message.turnId in {"", stream})
  }

  /** The registry and the retired ids let every notification of the stream through. */
  predicate Passable(w: World, t: string, stream: string) {
    && t in w.client.ownership.open
    && !IsRetired(w, t, stream)
    && (Starts(w.client.ownership, t) == 0 || stream in OwnedIds(w.client.ownership, t))
  }

  /** What the registry recorded against the thread. */
  function Against(w: World, t: string): seq<Continuation> {
    Of(w.client.ownership.unmanaged, t)
  }

  /** Telling the registry of the stream's own start, completion or response alarms nobody. */
  lemma OwnCallsPass(o: Ownership, e: Event, t: string, stream: string)
    requires t in o.open && stream != "" && (Starts(o, t) == 0 || stream in OwnedIds(o, t))
    requires e == Started(t, stream) || e == Completed(t, stream) || (e.Bound? && e.thread == t)
    ensures After(o, e).unmanaged == o.unmanaged && t in After(o, e).open
    ensures Starts(After(o, e), t) == 0 || stream in OwnedIds(After(o, e), t)
    ensures Accepts(o, e)
  {
  }

  lemma OtherCallsPass(o: Ownership, e: Event, t: string)
    requires e.thread != t
    ensures Of(After(o, e).unmanaged, t) == Of(o.unmanaged, t)
    ensures t in After(o, e).open <==> t in o.open
    ensures Starts(After(o, e), t) == Starts(o, t) && OwnedIds(After(o, e), t) == OwnedIds(o, t)
  {
    SetsOfOthers(o, e, t);
    AppendedSlices(o, e, t);
  }

  lemma HeardPassable(w: World, m: Message, t: string, stream: string)
    requires Passable(w, t, stream) && stream != "" && InPlay(Heard(m), t, stream)
    ensures Passable(Take(w, Heard(m)), t, stream)
    ensures Against(Take(w, Heard(m)), t) == Against(w, t)
  {
    var o := w.client.ownership;
    if m.kind.TurnStarted? {
      if m.thread == t {
        OwnCallsPass(o, Started(t, stream), t, stream);
      } else {
        OtherCallsPass(o, Started(m.thread, m.turn.id), t);
      }
    } else if m.kind.TurnCompleted? {
      if m.thread == t {
        OwnCallsPass(o, Completed(t, stream), t, stream);
      } else {
        OtherCallsPass(o, Completed(m.thread, m.turn.id), t);
      }
    }
  }

  lemma StepPassable(home: string -> string, w: World, step: Step, t: string, stream: string)
    requires Tracked(w.client.retired) && Legal(home, w, step)
    requires Passable(w, t, stream) && stream != "" && InPlay(step, t, stream)
    ensures Tracked(Take(w, step).client.retired)
    ensures Passable(Take(w, step), t, stream)
    ensures Against(Take(w, step), t) == Against(w, t)
  {
    var o := w.client.ownership;
    match step
    case Heard(m) => HeardPassable(w, m, t, stream);
    case Open(u) => if u != t { OtherCallsPass(o, Begin(u), t); }
    case Fail(u, why, started) =>
      RetireKeepsTracked(w.client.retired, u, [started]);
      OtherCallsPass(o, Finish(u), t);
    case Respond(u, turn) =>
      if u == t {
        OwnCallsPass(o, Bound(t, turn.id), t, stream);
      } else {
        OtherCallsPass(o, Bound(u, turn.id), t);
      }
    case Close(u, cancelled) =>
      RetireKeepsTracked(w.client.retired, u, NamesOf(w, u));
      OtherCallsPass(o, Finish(u), t);
    case Disconnect =>
  }

  /** A completion of the stream among the steps. */
  predicate Completes(step: Step, t: string) {
    step.Heard? && step.message.kind.TurnCompleted? && step.message.thread == t
  }

  predicate SomeCompletes(steps: seq<Step>, t: string) {
    exists i :: 0 <= i < |steps| && Completes(steps[i], t)
  }

  lemma StreamReaches(w: World, m: Message, t: string, stream: string)
    requires Passable(w, t, stream) && stream != "" && InPlay(Heard(m), t, stream) && Completes(Heard(m), t)
    ensures Reaches(w.client, m, t)
  {
  }

  /** In play, no alarm is raised for the thread and every completion of the stream is heard. */
  lemma {:induction false} RunPassable(home: string -> string, w: World, steps: seq<Step>, t: string, stream: string)
    requires Tracked(w.client.retired) && LegalRun(home, w, steps)
    requires Passable(w, t, stream) && stream != "" && forall i :: 0 <= i < |steps| ==> InPlay(steps[i], t, stream)
    ensures Against(TakeAll(w, steps), t) == Against(w, t)
    ensures SomeCompletes(steps, t) ==> EverSettles(w, steps, t)
    decreases |steps|
  {
    if steps != [] {
      StepPassable(home, w, steps[0], t, stream);
      RunPassable(home, Take(w, steps[0]), steps[1..], t, stream);
      if Completes(steps[0], t) {
        StreamReaches(w, steps[0].message, t, stream);
      } else if SomeCompletes(steps, t) {
        var i :| 0 <= i < |steps| && Completes(steps[i], t);
        assert steps[1..][i - 1] == steps[i];
      }
    }
  }

  lemma {:induction false} InPlayInCall(steps: seq<Step>, t: string, stream: string)
    requires forall i :: 0 <= i < |steps| ==> InPlay(steps[i], t, stream)
    ensures AllInCall(steps, t, {stream}, {}, _ => true)
  {
  }

  /**
   * One turn under two names: whatever the order and repetition of its starts and
   * completions around its response, and whatever other threads do, the waiting
   * call is settled by that turn, under its stream id if by a completion, and the
   * registry records nothing against the thread.
   */
  lemma AnyOrderSettles(home: string -> string, w: World, steps: seq<Step>, t: string, stream: string)
    requires Invariant(home, w) && Tracked(w.client.retired)
    requires JustOpened(w, t) && JustBegun(w.client.ownership, t) && Clean(home, w, t)
    requires stream != "" && !IsRetired(w, t, stream)
    requires LegalRun(home, w, steps) && forall i :: 0 <= i < |steps| ==> InPlay(steps[i], t, stream)
    requires NeverLoses(w, steps, t) && SomeCompletes(steps, t) && WaitingOn(TakeAll(w, steps), t)
    ensures var v := TakeAll(w, steps);
      && v.frames[t].waiter < |v.client.waits.futures|
      && Pending(v, t).Some? && OwnOutcome(Pending(v, t), t, {stream}, _ => true, w.client.arrivals)
      && Against(v, t) == Against(w, t)
  {
    var names: string -> bool := _ => true;
    RunPassable(home, w, steps, t, stream);
    SettledIff(home, w, steps, t);
    InPlayInCall(steps, t, stream);
    assert AllInCall(steps, t, {stream}, {}, names);
    RunOwn(home, w, steps, t, {stream}, {}, names, w.client.arrivals, {});
  }
}
