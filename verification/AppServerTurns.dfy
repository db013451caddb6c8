/**
 * Runs of the client: any interleaving of notifications, responses, returns and
 * failures over any number of threads, and what every step of them keeps.
 */
module AppServerTurns {
  import opened Prelude
  import opened TurnOwnership
  import opened AppServerModel

  /** Where a call of `start_turn` stands: its request is out, or it waits for its completion. */
  datatype Frame = Requesting | Waiting(response: string, turn: string, waiter: nat)

  datatype World = World(client: Client, frames: map<string, Frame>)

  datatype Step =
    | Heard(message: Message)
    | Open(thread: string)
    | Fail(thread: string, why: Failure, started: string)
    | Respond(thread: string, turn: Turn)
    | Close(thread: string, cancelled: bool)
    | Disconnect

  /** Turn ids are not shared across threads: `home` names the thread of each id. */
  predicate Addressed(home: string -> string, m: Message) {
    && (m.turnId != "" ==> home(m.turnId) == m.thread)
    && (m.turn.id != "" ==> home(m.turn.id) == m.thread)
  }

  predicate Legal(home: string -> string, w: World, step: Step) {
    match step
    case Heard(m) => Addressed(home, m)
    case Open(t) => t != ""
    case Fail(t, _, started) => t in w.frames && w.frames[t].Requesting? && (started != "" ==> home(started) == t)
    case Respond(t, turn) => t in w.frames && w.frames[t].Requesting? && turn.id != "" && home(turn.id) == t
    case Close(t, _) => t in w.frames && w.frames[t].Waiting?
    case Disconnect => true
  }

  /** The result a finished waiter hands to its caller; a lost transport or a cancellation hands none. */
  function Result(futures: seq<Option<Outcome>>, waiter: nat): Option<Outcome> {
    if waiter < |futures| && futures[waiter].Some?
       && (futures[waiter].value.FromResponse? || futures[waiter].value.FromCompletion?)
    then futures[waiter] else None
  }

  function Closed(s: Client, thread: string, f: Frame, cancelled: bool): Client
    requires f.Waiting?
  {
    var released := Released(s, thread, f.turn, f.waiter);
    if cancelled then released
    else Concluded(released, thread, f.response, f.turn, EndedUnder(s, thread, f))
  }

  /** The id the turn ended under, when its caller is not cancelled. */
  function EndedUnder(s: Client, thread: string, f: Frame): string
    requires f.Waiting?
  {
    CompletedId(s.names, thread, f.turn, Result(s.waits.futures, f.waiter))
  }

  function Take(w: World, step: Step): World {
    var s := w.client;
    match step
    case Heard(m) => w.(client := Notify(s, m))
    case Open(t) =>
      World(Opened(s, t), if Accepts(s.ownership, Begin(t)) then w.frames[t := Requesting] else w.frames)
    case Fail(t, why, started) => World(FailedStart(s, t, why, started), w.frames - {t})
    case Respond(t, turn) =>
      World(Responded(s, t, turn),
            w.frames[t := Waiting(turn.id, ActiveTurn(s.names, t, turn.id), |s.waits.futures|)])
    case Close(t, cancelled) =>
      if t in w.frames && w.frames[t].Waiting? then World(Closed(s, t, w.frames[t], cancelled), w.frames - {t}) else w
    case Disconnect => w.(client := s.(waits := Disconnected(s.waits)))
  }

  function TakeAll(w: World, steps: seq<Step>): World
    decreases |steps|
  {
    if steps == [] then w else TakeAll(Take(w, steps[0]), steps[1..])
  }

  predicate LegalRun(home: string -> string, w: World, steps: seq<Step>)
    decreases |steps|
  {
    steps == [] || (Legal(home, w, steps[0]) && LegalRun(home, Take(w, steps[0]), steps[1..]))
  }

  // ---------- the invariant ----------

  predicate WaitingOn(w: World, t: string) {
    t in w.frames && w.frames[t].Waiting?
  }

  /** Threads with a call are the open ones; a waiter is filed under a thread exactly while its call waits. */
  ghost predicate Framed(w: World) {
    && w.frames.Keys == w.client.ownership.open
    && "" !in w.frames
    && (forall t :: t in w.client.waits.threads <==> WaitingOn(w, t))
    && (forall t :: t in w.client.waits.threads ==>
          w.client.waits.threads[t] == w.frames[t].waiter < |w.client.waits.futures|)
  }

  ghost predicate FiledUnder(home: string -> string, w: World, x: string)
    requires x in w.client.waits.turns
  {
    && x != ""
    && WaitingOn(w, home(x))
    && w.frames[home(x)].turn == x
    && w.frames[home(x)].waiter == w.client.waits.turns[x]
  }

  ghost predicate NamedWell(home: string -> string, w: World, t: string)
    requires WaitingOn(w, t)
  {
    var f := w.frames[t];
    && f.response != "" && home(f.response) == t
    && f.turn != "" && home(f.turn) == t
    && f.turn in w.client.waits.turns
  }

  /** The same waiter is filed under the turn of the call and nowhere else. */
  ghost predicate Filing(home: string -> string, w: World) {
    && (forall x :: x in w.client.waits.turns ==> FiledUnder(home, w, x))
    && (forall t :: WaitingOn(w, t) ==> NamedWell(home, w, t))
  }

  /** No two calls share a waiter. */
  ghost predicate Apart(w: World) {
    forall t, u | t in w.client.waits.threads && u in w.client.waits.threads ::
      w.client.waits.threads[t] == w.client.waits.threads[u] ==> t == u
  }

  ghost predicate NotifiedAtHome(home: string -> string, n: Names) {
    forall t :: t in n.notified ==> n.notified[t] != "" && home(n.notified[t]) == t
  }

  predicate TurnEntry(home: string -> string, c: Completion, x: string, arrivals: nat) {
    x != "" && c.message.turn.id == x && home(x) == c.message.thread && c.arrival < arrivals
  }

  predicate ThreadEntry(c: Completion, t: string, arrivals: nat) {
    t != "" && c.message.thread == t && c.arrival < arrivals
  }

  /** Buffered completions were delivered earlier, and are filed under their own turn and thread. */
  ghost predicate BufferedAtHome(home: string -> string, b: Buffer, arrivals: nat) {
    && (forall x :: x in b.turns ==> TurnEntry(home, b.turns[x], x, arrivals))
    && (forall t :: t in b.threads ==> ThreadEntry(b.threads[t], t, arrivals))
  }

  /** No completion stays indexed under a thread whose call already waits. */
  ghost predicate Demultiplexed(w: World) {
    forall t :: t in w.client.buffer.threads ==> !WaitingOn(w, t)
  }

  ghost predicate Invariant(home: string -> string, w: World) {
    && Framed(w)
    && Filing(home, w)
    && Apart(w)
    && NotifiedAtHome(home, w.client.names)
    && BufferedAtHome(home, w.client.buffer, w.client.arrivals)
    && Demultiplexed(w)
  }

  lemma StartsIdle(home: string -> string)
    ensures Invariant(home, World(IDLE, map[]))
  {
  }

  // ---------- which threads are open ----------

  lemma StaysOpen(o: Ownership, e: Event)
    requires e.Started? || e.Completed? || e.Bound?
    ensures After(o, e).open == o.open
  {
  }

  lemma NotifyKeepsOpen(s: Client, m: Message)
    ensures Notify(s, m).ownership.open == s.ownership.open
  {
    StaysOpen(s.ownership, Started(m.thread, m.turn.id));
    StaysOpen(s.ownership, Completed(m.thread, m.turn.id));
  }

  /** Resolving a waiter never unfiles it and never creates one. */
  lemma NotifyKeepsFiling(s: Client, m: Message)
    ensures Notify(s, m).waits == s.waits.(futures := Notify(s, m).waits.futures)
    ensures |Notify(s, m).waits.futures| == |s.waits.futures|
  {
  }

  // ---------- each step keeps the invariant ----------

  lemma BufferGrows(home: string -> string, b: Buffer, m: Message, arrivals: nat)
    requires BufferedAtHome(home, b, arrivals) && Addressed(home, m)
    ensures BufferedAtHome(home, b, arrivals + 1)
    ensures BufferedAtHome(home, Hold(b, Completion(arrivals, m)), arrivals + 1)
  {
    assert forall x :: x in b.turns ==> TurnEntry(home, b.turns[x], x, arrivals);
    assert forall t :: t in b.threads ==> ThreadEntry(b.threads[t], t, arrivals);
  }

  /** A thread that is not open never gains a buffered completion, and neither does one that waits. */
  lemma OnlyRequestsBuffer(w: World, m: Message, t: string)
    requires Framed(w)
    requires t in Notify(w.client, m).buffer.threads
    ensures t in w.client.buffer.threads || (t in w.frames && w.frames[t].Requesting? && t == m.thread)
  {
    if t !in w.client.buffer.threads {
      assert Owned(w.client.ownership, m) && !Awaited(w.client.waits, m);
      assert t == m.thread;
      assert !WaitingOn(w, t);
    }
  }

  lemma HeardKeeps(home: string -> string, w: World, m: Message)
    requires Invariant(home, w) && Addressed(home, m)
    ensures Invariant(home, Take(w, Heard(m)))
  {
    var next := Take(w, Heard(m));
    NotifyKeepsOpen(w.client, m);
    NotifyKeepsFiling(w.client, m);
    BufferGrows(home, w.client.buffer, m, w.client.arrivals);
    forall t | t in next.client.buffer.threads ensures !WaitingOn(next, t) {
      OnlyRequestsBuffer(w, m, t);
    }
    assert Framed(next) && Apart(next);
    FilingKept(home, w, next);
    HeardNames(home, w.client, m);
    HeardBuffer(home, w.client, m);
  }

  lemma FilingKept(home: string -> string, w: World, next: World)
    requires Filing(home, w) && next.frames == w.frames
    requires next.client.waits.turns == w.client.waits.turns && next.client.waits.threads == w.client.waits.threads
    ensures Filing(home, next)
  {
    forall x | x in next.client.waits.turns ensures FiledUnder(home, next, x) {
      assert FiledUnder(home, w, x);
      assert WaitingOn(next, home(x));
    }
    forall t | WaitingOn(next, t) ensures NamedWell(home, next, t) {
      assert WaitingOn(w, t) && NamedWell(home, w, t);
    }
  }

  lemma HeardNames(home: string -> string, s: Client, m: Message)
    requires NotifiedAtHome(home, s.names) && Addressed(home, m)
    ensures NotifiedAtHome(home, Notify(s, m).names)
  {
  }

  /** The completion is delivered to the thread: it is not late telemetry, and the registry owns it. */
  predicate Reaches(s: Client, m: Message, t: string) {
    m.kind == TurnCompleted && m.thread == t && !Ignored(s, m) && Owned(s.ownership, m)
  }

  /** The one way a notification changes the buffer. */
  lemma HeardHolds(s: Client, m: Message)
    ensures Notify(s, m).buffer
         == if Reaches(s, m, m.thread) && !Awaited(s.waits, m) then Hold(s.buffer, Completion(s.arrivals, m)) else s.buffer
  {
  }

  lemma HeardBuffer(home: string -> string, s: Client, m: Message)
    requires BufferedAtHome(home, s.buffer, s.arrivals) && Addressed(home, m)
    ensures BufferedAtHome(home, Notify(s, m).buffer, Notify(s, m).arrivals)
  {
    HeardHolds(s, m);
    BufferGrows(home, s.buffer, m, s.arrivals);
    CountsOne(s, m);
  }

  lemma CountsOne(s: Client, m: Message)
    ensures Notify(s, m).arrivals == s.arrivals + 1
  {
  }

  /** Entries only leave the buffer. */
  ghost predicate Fewer(b: Buffer, c: Buffer) {
    && (forall x :: x in b.turns ==> x in c.turns && b.turns[x] == c.turns[x])
    && (forall t :: t in b.threads ==> t in c.threads && b.threads[t] == c.threads[t])
  }

  lemma DiscardedFewer(b: Buffer, thread: string)
    ensures Fewer(Discarded(b, thread), b) && thread !in Discarded(b, thread).threads
  {
  }

  lemma PoppedFewer(b: Buffer, thread: string, ids: seq<string>)
    ensures Fewer(Popped(b, thread, ids), b) && thread !in Popped(b, thread, ids).threads
  {
  }

  lemma FewerAtHome(home: string -> string, b: Buffer, c: Buffer, arrivals: nat)
    requires Fewer(b, c) && BufferedAtHome(home, c, arrivals)
    ensures BufferedAtHome(home, b, arrivals)
  {
    forall x | x in b.turns ensures TurnEntry(home, b.turns[x], x, arrivals) {
      assert TurnEntry(home, c.turns[x], x, arrivals);
    }
    forall t | t in b.threads ensures ThreadEntry(b.threads[t], t, arrivals) {
      assert ThreadEntry(c.threads[t], t, arrivals);
    }
  }

  lemma OpenKeeps(home: string -> string, w: World, t: string)
    requires Invariant(home, w) && t != ""
    ensures Invariant(home, Take(w, Open(t)))
  {
    var next := Take(w, Open(t));
    DiscardedFewer(w.client.buffer, t);
    FewerAtHome(home, next.client.buffer, w.client.buffer, w.client.arrivals);
    assert forall u :: WaitingOn(next, u) <==> WaitingOn(w, u);
    assert next.client.waits == w.client.waits;
    assert forall u :: WaitingOn(w, u) ==> next.frames[u] == w.frames[u];
    FilingSame(home, w, next);
  }

  /** Filing depends only on the waits and on the calls that wait. */
  lemma FilingSame(home: string -> string, w: World, next: World)
    requires Filing(home, w) && next.client.waits == w.client.waits
    requires forall u :: WaitingOn(next, u) ==> WaitingOn(w, u)
    requires forall u :: WaitingOn(w, u) ==> WaitingOn(next, u) && next.frames[u] == w.frames[u]
    ensures Filing(home, next)
  {
    forall x | x in next.client.waits.turns ensures FiledUnder(home, next, x) {
      assert FiledUnder(home, w, x);
    }
    forall t | WaitingOn(next, t) ensures NamedWell(home, next, t) {
      assert WaitingOn(w, t) && NamedWell(home, w, t);
    }
  }

  lemma FailKeeps(home: string -> string, w: World, t: string, why: Failure, started: string)
    requires Invariant(home, w) && Legal(home, w, Fail(t, why, started))
    ensures Invariant(home, Take(w, Fail(t, why, started)))
  {
    var next := Take(w, Fail(t, why, started));
    DiscardedFewer(w.client.buffer, t);
    assert Fewer(next.client.buffer, w.client.buffer);
    FewerAtHome(home, next.client.buffer, w.client.buffer, w.client.arrivals);
    assert forall u :: WaitingOn(next, u) <==> WaitingOn(w, u);
    FilingSame(home, w, next);
  }

  lemma RespondFiles(home: string -> string, w: World, t: string, turn: Turn)
    requires Invariant(home, w) && Legal(home, w, Respond(t, turn))
    ensures Filing(home, Take(w, Respond(t, turn)))
  {
    var next := Take(w, Respond(t, turn));
    var id := ActiveTurn(w.client.names, t, turn.id);
    assert home(id) == t && id != "";
    assert id in w.client.waits.turns ==> FiledUnder(home, w, id);
    forall x | x in next.client.waits.turns ensures FiledUnder(home, next, x) {
      if x != id {
        assert FiledUnder(home, w, x);
      }
    }
    forall u | WaitingOn(next, u) ensures NamedWell(home, next, u) {
      if u != t {
        assert WaitingOn(w, u) && NamedWell(home, w, u);
      }
    }
  }

  lemma FiledFrames(w: World, next: World, t: string, response: string, turn: string, outcome: Option<Outcome>)
    requires Framed(w) && Apart(w) && t in w.frames && w.frames[t].Requesting?
    requires next.frames == w.frames[t := Waiting(response, turn, |w.client.waits.futures|)]
    requires next.client.waits == Filed(w.client.waits, t, turn, outcome)
    requires next.client.ownership.open == w.client.ownership.open
    ensures Framed(next) && Apart(next)
  {
    forall u ensures WaitingOn(next, u) <==> WaitingOn(w, u) || u == t {
    }
  }

  lemma RespondKeeps(home: string -> string, w: World, t: string, turn: Turn)
    requires Invariant(home, w) && Legal(home, w, Respond(t, turn))
    ensures Invariant(home, Take(w, Respond(t, turn)))
  {
    var next := Take(w, Respond(t, turn));
    var id := ActiveTurn(w.client.names, t, turn.id);
    RespondFiles(home, w, t, turn);
    StaysOpen(w.client.ownership, Bound(t, turn.id));
    FiledFrames(w, next, t, turn.id, id, Immediate(t, turn, Buffered(w.client.buffer, t, [id, turn.id])));
    PoppedFewer(w.client.buffer, t, [id, turn.id]);
    FewerAtHome(home, next.client.buffer, w.client.buffer, w.client.arrivals);
    forall u ensures WaitingOn(next, u) <==> WaitingOn(w, u) || u == t {
    }
  }

  lemma CloseUnfiles(home: string -> string, w: World, t: string, cancelled: bool)
    requires Invariant(home, w) && Legal(home, w, Close(t, cancelled))
    ensures Filing(home, Take(w, Close(t, cancelled)))
  {
    var next := Take(w, Close(t, cancelled));
    assert NamedWell(home, w, t);
    forall x | x in next.client.waits.turns ensures FiledUnder(home, next, x) {
      assert FiledUnder(home, w, x);
    }
    forall u | WaitingOn(next, u) ensures NamedWell(home, next, u) {
      assert WaitingOn(w, u) && NamedWell(home, w, u);
    }
  }

  lemma UnfiledFrames(w: World, next: World, t: string)
    requires Framed(w) && Apart(w) && WaitingOn(w, t)
    requires next.frames == w.frames - {t}
    requires next.client.waits == Unfiled(w.client.waits, t, w.frames[t].turn, w.frames[t].waiter)
    requires next.client.ownership.open == w.client.ownership.open - {t}
    ensures Framed(next) && Apart(next)
  {
    assert forall u :: WaitingOn(next, u) <==> WaitingOn(w, u) && u != t;
  }

  lemma CloseKeeps(home: string -> string, w: World, t: string, cancelled: bool)
    requires Invariant(home, w) && Legal(home, w, Close(t, cancelled))
    ensures Invariant(home, Take(w, Close(t, cancelled)))
  {
    var next := Take(w, Close(t, cancelled));
    CloseUnfiles(home, w, t, cancelled);
    UnfiledFrames(w, next, t);
    assert next.client.buffer == w.client.buffer && next.client.names.notified == w.client.names.notified;
  }

  lemma DisconnectKeeps(home: string -> string, w: World)
    requires Invariant(home, w)
    ensures Invariant(home, Take(w, Disconnect))
  {
    var next := Take(w, Disconnect);
    assert forall u :: WaitingOn(next, u) <==> WaitingOn(w, u);
    FilingKept(home, w, next);
  }

  lemma StepKeepsInvariant(home: string -> string, w: World, step: Step)
    requires Invariant(home, w) && Legal(home, w, step)
    ensures Invariant(home, Take(w, step))
  {
    match step
    case Heard(m) => HeardKeeps(home, w, m);
    case Open(t) => OpenKeeps(home, w, t);
    case Fail(t, why, started) => FailKeeps(home, w, t, why, started);
    case Respond(t, turn) => RespondKeeps(home, w, t, turn);
    case Close(t, cancelled) => CloseKeeps(home, w, t, cancelled);
    case Disconnect => DisconnectKeeps(home, w);
  }

  lemma {:induction false} RunKeepsInvariant(home: string -> string, w: World, steps: seq<Step>)
    requires Invariant(home, w) && LegalRun(home, w, steps)
    ensures Invariant(home, TakeAll(w, steps))
    decreases |steps|
  {
    if steps != [] {
      StepKeepsInvariant(home, w, steps[0]);
      RunKeepsInvariant(home, Take(w, steps[0]), steps[1..]);
    }
  }
}
