/** `AppServerClient`: turn bookkeeping updated in place by notifications, responses and `start_turn`. */
module AppServerClient {
  import opened Prelude
  import opened TurnOwnership
  import opened AppServerModel

  class AppServerClient {
    const turnOwnership: TurnOwnershipRegistry
    var futures: seq<Option<Outcome>>
    var turnWaiters: map<string, nat>
    var threadTurnWaiters: map<string, nat>
    var completedTurns: map<string, Completion>
    var completedThreadTurns: map<string, Completion>
    var notificationTurnByThread: map<string, string>
    var responseTurnByThread: map<string, string>
    var turnAliases: map<string, string>
    var retiredOrder: seq<string>
    var retiredTurnIdsByThread: map<string, set<string>>
    var messages: map<string, seq<string>>
    var tokenUsage: map<string, nat>
    var threadTokenUsage: map<string, nat>
    var modelReroutesByThread: map<string, seq<string>>
    var arrivals: nat

    function Waiting(): Waits
      reads this`futures, this`turnWaiters, this`threadTurnWaiters
    {
      Waits(futures, turnWaiters, threadTurnWaiters)
    }

    function Held(): Buffer
      reads this`completedTurns, this`completedThreadTurns
    {
      Buffer(completedTurns, completedThreadTurns)
    }

    function Naming(): Names
      reads this`notificationTurnByThread, this`responseTurnByThread, this`turnAliases
    {
      Names(notificationTurnByThread, responseTurnByThread, turnAliases)
    }

    function Retirement(): Retired
      reads this`retiredOrder, this`retiredTurnIdsByThread
    {
      Retired(retiredOrder, retiredTurnIdsByThread)
    }

    function Observed(): Telemetry
      reads this`messages, this`tokenUsage, this`threadTokenUsage, this`modelReroutesByThread
    {
      Telemetry(messages, tokenUsage, threadTokenUsage, modelReroutesByThread)
    }

    function State(): Client
      reads this, turnOwnership
    {
      Client(turnOwnership.State(), Waiting(), Held(), Naming(), Retirement(), Observed(), arrivals)
    }

    constructor ()
      ensures fresh(turnOwnership)
      ensures State() == IDLE
    {
      turnOwnership := new TurnOwnershipRegistry();
      futures, turnWaiters, threadTurnWaiters := [], map[], map[];
      completedTurns, completedThreadTurns := map[], map[];
      notificationTurnByThread, responseTurnByThread, turnAliases := map[], map[], map[];
      retiredOrder, retiredTurnIdsByThread := [], map[];
      messages, tokenUsage, threadTokenUsage, modelReroutesByThread := map[], map[], map[], map[];
      arrivals := 0;
    }

    /** Every entry of the buffer but those holding this same object. */
    static method RemoveObject(buffer: map<string, Completion>, c: Completion) returns (kept: map<string, Completion>)
      ensures kept == Without(buffer, c)
    {
      kept := buffer;
      var keys := buffer.Keys;
      while keys != {}
        invariant keys <= buffer.Keys
        invariant kept == map k | k in buffer && (k in keys || buffer[k] != c) :: buffer[k]
      {
        var k :| k in keys;
        if kept[k] == c {
          kept := kept - {k};
        }
        keys := keys - {k};
      }
    }

    /** `_discard_buffered_completion_for_thread`. */
    method DiscardBufferedCompletion(thread: string)
      modifies this`completedTurns, this`completedThreadTurns
      ensures Held() == Discarded(old(Held()), thread)
    {
      if thread !in completedThreadTurns {
        return;
      }
      var buffered := completedThreadTurns[thread];
      completedThreadTurns := completedThreadTurns - {thread};
      completedTurns := RemoveObject(completedTurns, buffered);
    }

    /** Take the named turns out of the buffer and return the first one found. */
    method TakeNamed(ids: seq<string>) returns (found: Option<Completion>)
      modifies this`completedTurns
      ensures found == FirstBuffered(old(completedTurns), ids)
      ensures completedTurns == old(completedTurns) - Named(ids)
    {
      found := None;
      var i := 0;
      ghost var before := completedTurns;
      while i < |ids|
        invariant 0 <= i <= |ids|
        invariant completedTurns == before - Named(ids[..i])
        invariant FirstBuffered(before, ids) == if found.Some? then found else FirstBuffered(before, ids[i..])
        invariant found.None? ==> forall x :: x in Named(ids[..i]) ==> x !in before
      {
        assert Named(ids[..i + 1]) == Named(ids[..i]) + Named([ids[i]]);
        if ids[i] != "" && ids[i] in completedTurns {
          if found.None? {
            found := Some(completedTurns[ids[i]]);
          }
          completedTurns := completedTurns - {ids[i]};
        }
        i := i + 1;
      }
      assert ids[..i] == ids;
    }

    /** `_pop_buffered_completion`. */
    method PopBufferedCompletion(thread: string, ids: seq<string>) returns (buffered: Option<Completion>)
      modifies this`completedTurns, this`completedThreadTurns
      ensures buffered == Buffered(old(Held()), thread, ids)
      ensures Held() == Popped(old(Held()), thread, ids)
    {
      buffered := TakeNamed(ids);
      if buffered.None? && thread in completedThreadTurns {
        buffered := Some(completedThreadTurns[thread]);
      }
      completedThreadTurns := completedThreadTurns - {thread};
      if buffered.None? {
        return;
      }
      completedTurns := RemoveObject(completedTurns, buffered.value);
      completedThreadTurns := RemoveObject(completedThreadTurns, buffered.value);
    }

    /** `_retire_turn_ids`. */
    method RetireTurnIds(thread: string, ids: seq<string>)
      modifies this`retiredOrder, this`retiredTurnIdsByThread
      ensures Retirement() == Retire(old(Retirement()), thread, ids)
    {
      if thread !in retiredTurnIdsByThread {
        retiredTurnIdsByThread := retiredTurnIdsByThread[thread := {}];
        retiredOrder := retiredOrder + [thread];
      }
      retiredTurnIdsByThread :=
        retiredTurnIdsByThread[thread := retiredTurnIdsByThread[thread] + set x | x in ids && x != ""];
      assert Retirement() == Recalled(old(Retirement()), thread, ids);
      while |retiredOrder| > RETIRED_THREADS
        invariant Evicted(Retirement(), thread) == Retire(old(Retirement()), thread, ids)
        decreases |retiredOrder|
      {
        var v := if retiredOrder[0] == thread then 1 else 0;
        retiredTurnIdsByThread := retiredTurnIdsByThread - {retiredOrder[v]};
        retiredOrder := retiredOrder[..v] + retiredOrder[v + 1..];
      }
    }

    method SetIfPending(w: nat, outcome: Outcome)
      modifies this`futures
      ensures futures == ResolvePending(old(futures), Some(w), outcome)
    {
      if w < |futures| && futures[w].None? {
        futures := futures[w := Some(outcome)];
      }
    }

    method HandleTurnStarted(thread: string, turn: string)
      modifies this`notificationTurnByThread, this`turnAliases, turnOwnership
      ensures turnOwnership.State() == HeardStart(old(State()), thread, turn).ownership
      ensures Naming() == HeardStart(old(State()), thread, turn).names
    {
      if thread != "" && turn != "" {
        var owned := turnOwnership.ObserveStarted(thread, turn);
        if !owned {
          return;
        }
        notificationTurnByThread := notificationTurnByThread[thread := turn];
        var response := Get(responseTurnByThread, thread, "");
        if response != "" {
          turnAliases := turnAliases[response := turn];
        }
      }
    }

    /** Settle whoever waits for the completion, or buffer it. */
    method DeliverCompletion(c: Completion)
      modifies this`futures, this`completedTurns, this`completedThreadTurns
      ensures Waiting() == Settled(old(Waiting()), c)
      ensures Held() == if Awaited(old(Waiting()), c.message) then old(Held()) else Hold(old(Held()), c)
    {
      var thread, turn := c.message.thread, c.message.turn.id;
      var waiter, threadWaiter := Find(turnWaiters, turn), Find(threadTurnWaiters, thread);
      if waiter.Some? {
        SetIfPending(waiter.value, FromCompletion(c));
      }
      if threadWaiter.Some? && threadWaiter != waiter {
        SetIfPending(threadWaiter.value, FromCompletion(c));
      }
      if waiter.None? && threadWaiter.None? {
        if turn != "" {
          completedTurns := completedTurns[turn := c];
        }
        if thread != "" {
          completedThreadTurns := completedThreadTurns[thread := c];
        }
      }
    }

    method HandleTurnCompleted(c: Completion)
      modifies this`notificationTurnByThread, this`messages, this`futures, this`completedTurns
      modifies this`completedThreadTurns, turnOwnership
      ensures turnOwnership.State() == HeardCompletion(old(State()), c).ownership
      ensures Naming() == HeardCompletion(old(State()), c).names
      ensures Observed() == HeardCompletion(old(State()), c).telemetry
      ensures Waiting() == HeardCompletion(old(State()), c).waits
      ensures Held() == HeardCompletion(old(State()), c).buffer
    {
      var thread, turn := c.message.thread, c.message.turn.id;
      if thread != "" {
        var owned := turnOwnership.ObserveCompleted(thread, turn);
        if !owned {
          return;
        }
      }
      NoteCompletion(c.message);
      DeliverCompletion(c);
    }

    /** The completed id becomes the newest one, and its agent messages replace what was streamed under it. */
    method NoteCompletion(m: Message)
      modifies this`notificationTurnByThread, this`messages
      ensures Naming() == CompletionNames(old(Naming()), m)
      ensures Observed() == CompletionMessages(old(Observed()), m)
    {
      if m.thread != "" && m.turn.id != "" {
        notificationTurnByThread := notificationTurnByThread[m.thread := m.turn.id];
      }
      if m.turn.messages != [] {
        messages := messages[m.turn.id := m.turn.messages];
      }
    }

    /** `_handle_notification`. */
    method HandleNotification(m: Message)
      modifies this`notificationTurnByThread, this`turnAliases, this`messages, this`tokenUsage
      modifies this`threadTokenUsage, this`modelReroutesByThread, this`futures, this`completedTurns
      modifies this`completedThreadTurns, this`arrivals, turnOwnership
      ensures turnOwnership.State() == Notify(old(State()), m).ownership
      ensures Waiting() == Notify(old(State()), m).waits
      ensures Held() == Notify(old(State()), m).buffer
      ensures Naming() == Notify(old(State()), m).names
      ensures Observed() == Notify(old(State()), m).telemetry
      ensures arrivals == Notify(old(State()), m).arrivals
    {
      var arrival := arrivals;
      arrivals := arrivals + 1;
      if m.kind == ItemStarted(true) {
        return;
      }
      if EventTurn(m) in Get(retiredTurnIdsByThread, m.thread, {}) {
        return;
      }
      Dispatch(m, arrival);
    }

    /** What is left of a notification that is neither forbidden nor late. */
    method Dispatch(m: Message, arrival: nat)
      modifies this`notificationTurnByThread, this`turnAliases, this`messages, this`tokenUsage
      modifies this`threadTokenUsage, this`modelReroutesByThread, this`futures, this`completedTurns
      modifies this`completedThreadTurns, turnOwnership
      ensures turnOwnership.State() == Dispatched(old(State()), m, arrival).ownership
      ensures Waiting() == Dispatched(old(State()), m, arrival).waits
      ensures Held() == Dispatched(old(State()), m, arrival).buffer
      ensures Naming() == Dispatched(old(State()), m, arrival).names
      ensures Observed() == Dispatched(old(State()), m, arrival).telemetry
    {
      if m.kind == TurnStarted {
        HandleTurnStarted(m.thread, m.turn.id);
      } else if m.kind == TurnCompleted {
        HandleTurnCompleted(Completion(arrival, m));
      } else {
        ObserveTelemetry(m);
      }
    }

    method ObserveTelemetry(m: Message)
      modifies this`messages, this`tokenUsage, this`threadTokenUsage, this`modelReroutesByThread
      ensures Observed() == Streamed(old(Observed()), m)
    {
      match m.kind
      case ItemCompleted(Some(text)) => messages := messages[m.turnId := Get(messages, m.turnId, []) + [text]];
      case TokenUsageUpdated(total) =>
        tokenUsage := tokenUsage[m.turnId := total];
        if m.thread != "" {
          threadTokenUsage := threadTokenUsage[m.thread := total];
        }
      case ModelRerouted(model) =>
        if m.thread != "" {
          modelReroutesByThread :=
            modelReroutesByThread[m.thread := Get(modelReroutesByThread, m.thread, []) + [model]];
        }
      case _ =>
    }

    /** `start_turn` up to the request; `began` is false when the registry refuses the turn. */
    method OpenTurn(thread: string) returns (began: bool)
      modifies this`notificationTurnByThread, this`responseTurnByThread, this`completedTurns
      modifies this`completedThreadTurns, this`modelReroutesByThread, turnOwnership
      ensures turnOwnership.State() == Opened(old(State()), thread).ownership
      ensures Naming() == Opened(old(State()), thread).names
      ensures Held() == Opened(old(State()), thread).buffer
      ensures Observed() == Opened(old(State()), thread).telemetry
      ensures began == Accepts(old(State()).ownership, Begin(thread))
    {
      notificationTurnByThread := notificationTurnByThread - {thread};
      responseTurnByThread := responseTurnByThread - {thread};
      DiscardBufferedCompletion(thread);
      modelReroutesByThread := modelReroutesByThread - {thread};
      began := turnOwnership.BeginControllerTurn(thread);
    }

    /** The `except` branches around the request. */
    method FailStart(thread: string, why: Failure, started: string)
      modifies this`retiredOrder, this`retiredTurnIdsByThread, this`completedTurns, this`completedThreadTurns
      modifies this`messages, this`tokenUsage, this`threadTokenUsage, this`modelReroutesByThread
      modifies turnOwnership
      ensures turnOwnership.State() == FailedStart(old(State()), thread, why, started).ownership
      ensures Retirement() == FailedStart(old(State()), thread, why, started).retired
      ensures Held() == FailedStart(old(State()), thread, why, started).buffer
      ensures Observed() == FailedStart(old(State()), thread, why, started).telemetry
    {
      RetireTurnIds(thread, [started]);
      turnOwnership.FinishControllerTurn(thread);
      if why == RequestCancelled {
        return;
      }
      DiscardBufferedCompletion(thread);
      if why == TransportLost {
        SpendTelemetry(thread, started);
      }
    }

    method SpendTelemetry(thread: string, started: string)
      modifies this`messages, this`tokenUsage, this`threadTokenUsage, this`modelReroutesByThread
      ensures Observed() == Spent(old(Observed()), thread, [started])
    {
      modelReroutesByThread := modelReroutesByThread - {thread};
      if started != "" {
        messages := messages - {started};
        tokenUsage := tokenUsage - {started};
      }
      threadTokenUsage := threadTokenUsage - {thread};
      assert Named([started]) == if started == "" then {} else {started};
    }

    /** The response arrived: file a waiter under both ids, and settle it if it can be; part by part, `Responded`. */
    method BindResponse(thread: string, turn: Turn) returns (id: string, waiter: nat)
      requires Accepts(turnOwnership.State(), Bound(thread, turn.id))
      modifies this`responseTurnByThread, this`turnAliases, this`completedTurns, this`completedThreadTurns
      modifies this`futures, this`turnWaiters, this`threadTurnWaiters, turnOwnership
      ensures id == ActiveTurn(old(Naming()), thread, turn.id) && waiter == |old(futures)|
      ensures turnOwnership.State() == After(old(turnOwnership.State()), Bound(thread, turn.id))
      ensures Naming() == NameResponse(old(Naming()), thread, turn.id)
      ensures Held() == Popped(old(Held()), thread, [id, turn.id])
      ensures Waiting() == Filed(old(Waiting()), thread, id,
                                 Immediate(thread, turn, Buffered(old(Held()), thread, [id, turn.id])))
    {
      var bound := turnOwnership.BindResponse(thread, turn.id);
      id := NameResponseTurn(thread, turn.id);
      waiter := FileSettled(thread, turn, id);
    }

    /** File the waiter under both ids, and settle it by a final response or a buffered completion. */
    method FileSettled(thread: string, turn: Turn, id: string) returns (waiter: nat)
      modifies this`completedTurns, this`completedThreadTurns, this`futures, this`turnWaiters, this`threadTurnWaiters
      ensures waiter == |old(futures)| && Held() == Popped(old(Held()), thread, [id, turn.id])
      ensures Waiting() == Filed(old(Waiting()), thread, id,
                                 Immediate(thread, turn, Buffered(old(Held()), thread, [id, turn.id])))
    {
      waiter := FileWaiter(thread, id);
      var buffered := PopBufferedCompletion(thread, [id, turn.id]);
      SettleNow(waiter, thread, turn, buffered);
    }

    method SettleNow(waiter: nat, thread: string, turn: Turn, buffered: Option<Completion>)
      requires waiter < |futures| && futures[waiter].None?
      modifies this`futures
      ensures futures == old(futures)[waiter := Immediate(thread, turn, buffered)]
    {
      if Terminal(turn.status) {
        SetIfPending(waiter, FromResponse(thread, turn));
      } else if buffered.Some? {
        SetIfPending(waiter, FromCompletion(buffered.value));
      }
    }

    method NameResponseTurn(thread: string, response: string) returns (id: string)
      modifies this`responseTurnByThread, this`turnAliases
      ensures Naming() == NameResponse(old(Naming()), thread, response)
      ensures id == ActiveTurn(old(Naming()), thread, response)
    {
      responseTurnByThread := responseTurnByThread[thread := response];
      id := Get(notificationTurnByThread, thread, response);
      turnAliases := turnAliases[response := id];
    }

    method FileWaiter(thread: string, turn: string) returns (waiter: nat)
      modifies this`futures, this`turnWaiters, this`threadTurnWaiters
      ensures Waiting() == Filed(old(Waiting()), thread, turn, None)
      ensures waiter == |old(futures)|
    {
      waiter := |futures|;
      futures := futures + [None];
      turnWaiters := turnWaiters[turn := waiter];
      threadTurnWaiters := threadTurnWaiters[thread := waiter];
    }

    /** The `finally` block after the wait. */
    method ReleaseTurn(thread: string, turn: string, waiter: nat)
      modifies this`futures, this`turnWaiters, this`threadTurnWaiters, turnOwnership
      ensures turnOwnership.State() == Released(old(State()), thread, turn, waiter).ownership
      ensures Waiting() == Released(old(State()), thread, turn, waiter).waits
    {
      turnWaiters := turnWaiters - {turn};
      threadTurnWaiters := threadTurnWaiters - {thread};
      SetIfPending(waiter, Cancelled);
      turnOwnership.FinishControllerTurn(thread);
    }

    /** Pop the streamed messages of each id; the text of the turn is the last of the first list found. */
    method TakeMessages(ids: seq<string>) returns (text: string)
      modifies this`messages
      ensures text == FinalText(old(messages), ids)
      ensures messages == old(messages) - Named(ids)
    {
      text := "";
      var found := false;
      var i := 0;
      ghost var before := messages;
      while i < |ids|
        invariant 0 <= i <= |ids|
        invariant messages == before - Named(ids[..i])
        invariant FinalText(before, ids) == if found then text else FinalText(before, ids[i..])
        invariant !found ==> text == "" && forall x :: x in Named(ids[..i]) ==> Get(before, x, []) == []
      {
        assert Named(ids[..i + 1]) == Named(ids[..i]) + Named([ids[i]]);
        if ids[i] != "" {
          var candidate := Get(messages, ids[i], []);
          if !found && candidate != [] {
            text, found := candidate[|candidate| - 1], true;
          }
          messages := messages - {ids[i]};
        }
        i := i + 1;
      }
      assert ids[..i] == ids;
    }

    method TakeUsage(ids: seq<string>) returns (usage: Option<nat>)
      modifies this`tokenUsage
      ensures usage == FirstUsage(old(tokenUsage), ids)
      ensures tokenUsage == old(tokenUsage) - Named(ids)
    {
      usage := None;
      var i := 0;
      ghost var before := tokenUsage;
      while i < |ids|
        invariant 0 <= i <= |ids|
        invariant tokenUsage == before - Named(ids[..i])
        invariant FirstUsage(before, ids) == if usage.Some? then usage else FirstUsage(before, ids[i..])
        invariant usage.None? ==> forall x :: x in Named(ids[..i]) ==> x !in before
      {
        assert Named(ids[..i + 1]) == Named(ids[..i]) + Named([ids[i]]);
        if ids[i] != "" {
          if usage.None? && ids[i] in tokenUsage {
            usage := Some(tokenUsage[ids[i]]);
          }
          tokenUsage := tokenUsage - {ids[i]};
        }
        i := i + 1;
      }
      assert ids[..i] == ids;
    }

    /** After the `finally` block: retire every id of the turn and collect its reply. */
    method ConcludeTurn(thread: string, response: string, turn: string, outcome: Option<Outcome>) returns (reply: Reply)
      modifies this`retiredOrder, this`retiredTurnIdsByThread, this`turnAliases
      modifies this`messages, this`tokenUsage, this`threadTokenUsage, this`modelReroutesByThread
      ensures reply.turn == CompletedId(old(Naming()), thread, turn, outcome)
      ensures reply == ReplyOf(old(Observed()), thread, [reply.turn, turn, response])
      ensures Retirement() == Concluded(old(State()), thread, response, turn, reply.turn).retired
      ensures Naming() == Concluded(old(State()), thread, response, turn, reply.turn).names
      ensures Observed() == Concluded(old(State()), thread, response, turn, reply.turn).telemetry
    {
      var completed := Or(Or(OutcomeTurn(outcome), Get(notificationTurnByThread, thread, "")), turn);
      RetireTurnIds(thread, [response, turn, completed]);
      turnAliases := turnAliases[response := completed];
      reply := CollectReply(thread, [completed, turn, response]);
    }

    method CollectReply(thread: string, ids: seq<string>) returns (reply: Reply)
      requires ids != []
      modifies this`messages, this`tokenUsage, this`threadTokenUsage, this`modelReroutesByThread
      ensures Observed() == Spent(old(Observed()), thread, ids)
      ensures reply == ReplyOf(old(Observed()), thread, ids)
    {
      var text := TakeMessages(ids);
      var known := Find(threadTokenUsage, thread);
      threadTokenUsage := threadTokenUsage - {thread};
      var usage := TakeUsage(ids);
      var reroutes := Get(modelReroutesByThread, thread, []);
      modelReroutesByThread := modelReroutesByThread - {thread};
      reply := Reply(ids[0], text, if known.Some? then known else usage,
                     if reroutes != [] then Some(reroutes[|reroutes| - 1]) else None);
    }

    /** `_fail_pending`. */
    method FailPending()
      modifies this`futures
      ensures Waiting() == Disconnected(old(Waiting()))
    {
      var waiting := turnWaiters.Values + threadTurnWaiters.Values;
      var i := 0;
      while i < |futures|
        invariant 0 <= i <= |futures| == |old(futures)|
        invariant forall k :: 0 <= k < i ==> futures[k] == Disconnected(old(Waiting())).futures[k]
        invariant forall k :: i <= k < |futures| ==> futures[k] == old(futures)[k]
      {
        if i in waiting && futures[i].None? {
          futures := futures[i := Some(TransportClosed)];
        }
        i := i + 1;
      }
    }
  }
}
