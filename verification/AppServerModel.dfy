/**
 * What `AppServerClient` keeps about turns, and what each notification, response
 * and return of `start_turn` does to it.  Every event-loop callback is one step.
 */
module AppServerModel {
  import opened Prelude
  import opened TurnOwnership

  const RETIRED_THREADS: nat := 4096

  datatype Status = IN_PROGRESS | COMPLETED | FAILED | INTERRUPTED

  /** A turn payload: `messages` are the texts of its agent messages. */
  datatype Turn = Turn(id: string, status: Status, messages: seq<string>)

  datatype Kind =
    | ItemStarted(delegation: bool)
    | TurnStarted
    | ItemCompleted(text: Option<string>)
    | TokenUsageUpdated(total: nat)
    | ModelRerouted(model: string)
    | TurnCompleted
    | OtherKind

  /** A notification: `turnId` is `params.turnId`, `turn` is `params.turn`; absent fields are empty. */
  datatype Message = Message(kind: Kind, thread: string, turnId: string, turn: Turn)

  /** The parameters object of one delivered completion; `arrival` is its identity. */
  datatype Completion = Completion(arrival: nat, message: Message)

  datatype Outcome =
    | FromResponse(thread: string, turn: Turn)
    | FromCompletion(completion: Completion)
    | TransportClosed
    | Cancelled

  /** Futures in order of creation, and the waiters filed under turns and under threads. */
  datatype Waits = Waits(futures: seq<Option<Outcome>>, turns: map<string, nat>, threads: map<string, nat>)

  /** Completions nobody waits for yet, indexed by turn and by thread. */
  datatype Buffer = Buffer(turns: map<string, Completion>, threads: map<string, Completion>)

  /** The newest streamed id and the response id of each thread, and the aliases from one to the other. */
  datatype Names = Names(notified: map<string, string>, responded: map<string, string>, aliases: map<string, string>)

  /** The retired ids of each thread; `order` is the insertion order of the dictionary. */
  datatype Retired = Retired(order: seq<string>, ids: map<string, set<string>>)

  datatype Telemetry = Telemetry(
    messages: map<string, seq<string>>,
    usage: map<string, nat>,
    threadUsage: map<string, nat>,
    reroutes: map<string, seq<string>>)

  datatype Client = Client(
    ownership: Ownership,
    waits: Waits,
    buffer: Buffer,
    names: Names,
    retired: Retired,
    telemetry: Telemetry,
    arrivals: nat)

  const IDLE: Client :=
    Client(UNOWNED, Waits([], map[], map[]), Buffer(map[], map[]), Names(map[], map[], map[]), Retired([], map[]),
           Telemetry(map[], map[], map[], map[]), 0)

  function Get<T>(m: map<string, T>, key: string, default: T): T {
    if key in m then m[key] else default
  }

  function Find<T>(m: map<string, T>, key: string): Option<T> {
    if key in m then Some(m[key]) else None
  }

  function Or(a: string, b: string): string {
    if a != "" then a else b
  }

  function Named(ids: seq<string>): set<string> {
    set x | x in ids && x != ""
  }

  // ---------- buffered completions ----------

  function Without(entries: map<string, Completion>, c: Completion): map<string, Completion> {
    map k | k in entries && entries[k] != c :: entries[k]
  }

  /** `_discard_buffered_completion_for_thread`. */
  function Discarded(b: Buffer, thread: string): Buffer {
    if thread !in b.threads then b else Buffer(Without(b.turns, b.threads[thread]), b.threads - {thread})
  }

  function FirstBuffered(entries: map<string, Completion>, ids: seq<string>): Option<Completion> {
    if ids == [] then None
    else if ids[0] != "" && ids[0] in entries then Some(entries[ids[0]])
    else FirstBuffered(entries, ids[1..])
  }

  /** `_pop_buffered_completion`: what it returns. */
  function Buffered(b: Buffer, thread: string, ids: seq<string>): Option<Completion> {
    var named := FirstBuffered(b.turns, ids);
    if named.Some? then named else Find(b.threads, thread)
  }

  /** `_pop_buffered_completion`: what stays buffered. */
  function Popped(b: Buffer, thread: string, ids: seq<string>): Buffer {
    var turns := b.turns - Named(ids);
    var threads := b.threads - {thread};
    match Buffered(b, thread, ids)
    case None => Buffer(turns, threads)
    case Some(c) => Buffer(Without(turns, c), Without(threads, c))
  }

  function Hold(b: Buffer, c: Completion): Buffer {
    var thread, turn := c.message.thread, c.message.turn.id;
    Buffer(if turn != "" then b.turns[turn := c] else b.turns,
           if thread != "" then b.threads[thread := c] else b.threads)
  }

  // ---------- retired ids ----------

  /** Drop the oldest other threads until at most `RETIRED_THREADS` are remembered. */
  function Evicted(r: Retired, thread: string): Retired
    decreases |r.order|
  {
    if |r.order| <= RETIRED_THREADS then r
    else
      var v := if r.order[0] == thread then 1 else 0;
      Evicted(Retired(r.order[..v] + r.order[v + 1..], r.ids - {r.order[v]}), thread)
  }

  /** `_retire_turn_ids` before it evicts. */
  function Recalled(r: Retired, thread: string, ids: seq<string>): Retired {
    Retired(if thread in r.ids then r.order else r.order + [thread],
            r.ids[thread := Get(r.ids, thread, {}) + Named(ids)])
  }

  /** `_retire_turn_ids`. */
  function Retire(r: Retired, thread: string, ids: seq<string>): Retired {
    Evicted(Recalled(r, thread, ids), thread)
  }

  // ---------- notifications ----------

  function EventTurn(m: Message): string {
    Or(m.turnId, m.turn.id)
  }

  function ResolvePending(futures: seq<Option<Outcome>>, w: Option<nat>, outcome: Outcome): seq<Option<Outcome>> {
    if w.Some? && w.value < |futures| && futures[w.value].None? then futures[w.value := Some(outcome)] else futures
  }

  /** A waiter is filed under the turn or the thread of the completion. */
  predicate Awaited(w: Waits, m: Message) {
    m.turn.id in w.turns || m.thread in w.threads
  }

  function Settled(w: Waits, c: Completion): Waits {
    var first := ResolvePending(w.futures, Find(w.turns, c.message.turn.id), FromCompletion(c));
    w.(futures := ResolvePending(first, Find(w.threads, c.message.thread), FromCompletion(c)))
  }

  function NameStart(n: Names, thread: string, turn: string): Names {
    n.(notified := n.notified[thread := turn],
       aliases := if Get(n.responded, thread, "") != "" then n.aliases[n.responded[thread] := turn] else n.aliases)
  }

  function HeardStart(s: Client, thread: string, turn: string): Client {
    if thread == "" || turn == "" then s
    else s.(ownership := After(s.ownership, Started(thread, turn)),
            names := if Accepts(s.ownership, Started(thread, turn)) then NameStart(s.names, thread, turn) else s.names)
  }

  /** Messages without a thread are not the registry's concern. */
  predicate Owned(o: Ownership, m: Message) {
    m.thread == "" || Accepts(o, Completed(m.thread, m.turn.id))
  }

  function CompletionNames(n: Names, m: Message): Names {
    if m.thread != "" && m.turn.id != "" then n.(notified := n.notified[m.thread := m.turn.id]) else n
  }

  function CompletionMessages(t: Telemetry, m: Message): Telemetry {
    if m.turn.messages == [] then t else t.(messages := t.messages[m.turn.id := m.turn.messages])
  }

  function HeardCompletion(s: Client, c: Completion): Client {
    var m := c.message;
    var told := s.(ownership :=
      if m.thread == "" then s.ownership else After(s.ownership, Completed(m.thread, m.turn.id)));
    if !Owned(s.ownership, m) then told
    else told.(
      names := CompletionNames(s.names, m),
      telemetry := CompletionMessages(s.telemetry, m),
      waits := Settled(s.waits, c),
      buffer := if Awaited(s.waits, m) then s.buffer else Hold(s.buffer, c))
  }

  function Streamed(t: Telemetry, m: Message): Telemetry {
    match m.kind
    case ItemCompleted(Some(text)) => t.(messages := t.messages[m.turnId := Get(t.messages, m.turnId, []) + [text]])
    case TokenUsageUpdated(total) =>
      t.(usage := t.usage[m.turnId := total],
         threadUsage := if m.thread != "" then t.threadUsage[m.thread := total] else t.threadUsage)
    case ModelRerouted(model) =>
      if m.thread == "" then t
      else t.(reroutes := t.reroutes[m.thread := Get(t.reroutes, m.thread, []) + [model]])
    case _ => t
  }

  /** Whether the notification is dropped before anything is recorded. */
  predicate Ignored(s: Client, m: Message) {
    m.kind == ItemStarted(true) || EventTurn(m) in Get(s.retired.ids, m.thread, {})
  }

  /** `_handle_notification` past its two early returns. */
  function Dispatched(s: Client, m: Message, arrival: nat): Client {
    if m.kind == TurnStarted then HeardStart(s, m.thread, m.turn.id)
    else if m.kind == TurnCompleted then HeardCompletion(s, Completion(arrival, m))
    else s.(telemetry := Streamed(s.telemetry, m))
  }

  /** `_handle_notification`. */
  function Notify(s: Client, m: Message): Client {
    (if Ignored(s, m) then s else Dispatched(s, m, s.arrivals)).(arrivals := s.arrivals + 1)
  }

  // ---------- start_turn ----------

  /** Everything up to the `turn/start` request; the request is made only if `begin_controller_turn` accepts. */
  function Opened(s: Client, thread: string): Client {
    s.(names := s.names.(notified := s.names.notified - {thread}, responded := s.names.responded - {thread}),
       buffer := Discarded(s.buffer, thread),
       telemetry := s.telemetry.(reroutes := s.telemetry.reroutes - {thread}),
       ownership := After(s.ownership, Begin(thread)))
  }

  predicate Terminal(status: Status) {
    status != IN_PROGRESS
  }

  /** The id the waiter is filed under. */
  function ActiveTurn(n: Names, thread: string, response: string): string {
    Get(n.notified, thread, response)
  }

  /** What settles the waiter as soon as it exists: a finished response, or a buffered completion. */
  function Immediate(thread: string, turn: Turn, buffered: Option<Completion>): Option<Outcome> {
    if Terminal(turn.status) then Some(FromResponse(thread, turn))
    else if buffered.Some? then Some(FromCompletion(buffered.value))
    else None
  }

  function Filed(w: Waits, thread: string, turn: string, outcome: Option<Outcome>): Waits {
    Waits(w.futures + [outcome], w.turns[turn := |w.futures|], w.threads[thread := |w.futures|])
  }

  function NameResponse(n: Names, thread: string, response: string): Names {
    n.(responded := n.responded[thread := response], aliases := n.aliases[response := ActiveTurn(n, thread, response)])
  }

  /** The response to `turn/start`, for a thread whose controller turn is open. */
  function Responded(s: Client, thread: string, turn: Turn): Client {
    var id := ActiveTurn(s.names, thread, turn.id);
    s.(ownership := After(s.ownership, Bound(thread, turn.id)),
       names := NameResponse(s.names, thread, turn.id),
       buffer := Popped(s.buffer, thread, [id, turn.id]),
       waits := Filed(s.waits, thread, id, Immediate(thread, turn, Buffered(s.buffer, thread, [id, turn.id]))))
  }

  /** Why a `turn/start` request produced no response. */
  datatype Failure = RequestCancelled | TransportLost | RequestFailed

  /** The request failed; `started` is the stream id known when it did, or empty. */
  function FailedStart(s: Client, thread: string, why: Failure, started: string): Client {
    s.(retired := Retire(s.retired, thread, [started]),
       ownership := After(s.ownership, Finish(thread)),
       buffer := if why == RequestCancelled then s.buffer else Discarded(s.buffer, thread),
       telemetry := if why == TransportLost
                    then Spent(s.telemetry, thread, [started])
                    else s.telemetry)
  }

  /** The telemetry of a turn is handed to its caller. */
  function Spent(t: Telemetry, thread: string, ids: seq<string>): Telemetry {
    Telemetry(t.messages - Named(ids), t.usage - Named(ids), t.threadUsage - {thread}, t.reroutes - {thread})
  }

  function Unfiled(w: Waits, thread: string, turn: string, waiter: nat): Waits {
    Waits(ResolvePending(w.futures, Some(waiter), Cancelled), w.turns - {turn}, w.threads - {thread})
  }

  /** The `finally` block after the wait. */
  function Released(s: Client, thread: string, turn: string, waiter: nat): Client {
    s.(waits := Unfiled(s.waits, thread, turn, waiter), ownership := After(s.ownership, Finish(thread)))
  }

  function OutcomeTurn(outcome: Option<Outcome>): string {
    match outcome
    case Some(FromResponse(_, turn)) => turn.id
    case Some(FromCompletion(c)) => c.message.turn.id
    case _ => ""
  }

  /** The id the turn ended under. */
  function CompletedId(n: Names, thread: string, turn: string, outcome: Option<Outcome>): string {
    Or(Or(OutcomeTurn(outcome), Get(n.notified, thread, "")), turn)
  }

  datatype Reply = Reply(turn: string, text: string, usage: Option<nat>, rerouted: Option<string>)

  /** The first non-empty message list filed under the ids, its last message. */
  function FinalText(messages: map<string, seq<string>>, ids: seq<string>): string {
    if ids == [] then ""
    else if ids[0] != "" && Get(messages, ids[0], []) != []
    then messages[ids[0]][|messages[ids[0]]| - 1]
    else FinalText(messages, ids[1..])
  }

  function FirstUsage(usage: map<string, nat>, ids: seq<string>): Option<nat> {
    if ids == [] then None
    else if ids[0] != "" && ids[0] in usage then Some(usage[ids[0]])
    else FirstUsage(usage, ids[1..])
  }

  function ReplyOf(t: Telemetry, thread: string, ids: seq<string>): Reply
    requires ids != []
  {
    Reply(ids[0], FinalText(t.messages, ids),
          if thread in t.threadUsage then Some(t.threadUsage[thread]) else FirstUsage(t.usage, ids),
          if Get(t.reroutes, thread, []) != [] then Some(t.reroutes[thread][|t.reroutes[thread]| - 1]) else None)
  }

  /** Everything after the `finally` block. */
  function Concluded(s: Client, thread: string, response: string, turn: string, completed: string): Client {
    s.(retired := Retire(s.retired, thread, [response, turn, completed]),
       names := s.names.(aliases := s.names.aliases[response := completed]),
       telemetry := Spent(s.telemetry, thread, [completed, turn, response]))
  }

  /** `_fail_pending`: every waiter still pending learns that the transport closed. */
  function Disconnected(w: Waits): Waits {
    w.(futures := seq(|w.futures|, i requires 0 <= i < |w.futures| =>
      if w.futures[i].None? && (i in w.turns.Values || i in w.threads.Values) then Some(TransportClosed)
      else w.futures[i]))
  }
}
