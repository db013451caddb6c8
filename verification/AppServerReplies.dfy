/** What each notification adds to the reply of a waiting call, and what a thread's bookkeeping never holds. */
module AppServerReplies {
  import opened Prelude
  import opened TurnOwnership
  import opened AppServerModel
  import opened AppServerTurns
  import opened AppServerTheorems
  import opened AppServerRetirement

  // ---------- the reply ----------

  /** Token usage heard for the thread is the usage of the reply. */
  lemma UsageIsReply(w: World, m: Message, t: string, total: nat)
    requires WaitingOn(w, t) && t != "" && m.thread == t && m.kind == TokenUsageUpdated(total)
    requires !IsRetired(w, t, EventTurn(m))
    ensures var v := Take(w, Heard(m));
      WaitingOn(v, t) && ReplyNow(v, t) == ReplyNow(w, t).(usage := Some(total))
  {
  }

  /** A reroute heard for the thread is the reroute of the reply. */
  lemma RerouteIsReply(w: World, m: Message, t: string, model: string)
    requires WaitingOn(w, t) && t != "" && m.thread == t && m.kind == ModelRerouted(model)
    requires !IsRetired(w, t, EventTurn(m))
    ensures var v := Take(w, Heard(m));
      WaitingOn(v, t) && ReplyNow(v, t) == ReplyNow(w, t).(rerouted := Some(model))
  {
  }

  /** An agent message heard under the id the call would end under is the text of the reply. */
  lemma TextIsReply(w: World, m: Message, t: string, text: string)
    requires WaitingOn(w, t) && m.thread == t && m.kind == ItemCompleted(Some(text))
    requires !IsRetired(w, t, EventTurn(m)) && m.turnId != "" && m.turnId == EndedUnder(w.client, t, w.frames[t])
    ensures var v := Take(w, Heard(m));
      WaitingOn(v, t) && ReplyNow(v, t) == ReplyNow(w, t).(text := text)
  {
    var v := Take(w, Heard(m));
    assert v.client.telemetry.messages[m.turnId] == Get(w.client.telemetry.messages, m.turnId, []) + [text];
  }

  /** The ids and the thread of a call, as far as its reply is concerned. */
  ghost predicate AtHome(home: string -> string, w: World, t: string) {
    WaitingOn(w, t) && forall x :: x in NamesOf(w, t) && x != "" ==> home(x) == t
  }

  lemma {:induction false} SameTextElsewhere(a: map<string, seq<string>>, b: map<string, seq<string>>, ids: seq<string>)
    requires forall x :: x in ids && x != "" ==> Get(a, x, []) == Get(b, x, [])
    ensures FinalText(a, ids) == FinalText(b, ids)
  {
    if ids != [] {
      assert ids[0] in ids;
      SameTextElsewhere(a, b, ids[1..]);
    }
  }

  lemma {:induction false} SameUsageElsewhere(a: map<string, nat>, b: map<string, nat>, ids: seq<string>)
    requires forall x :: x in ids && x != "" ==> Find(a, x) == Find(b, x)
    ensures FirstUsage(a, ids) == FirstUsage(b, ids)
  {
    if ids != [] {
      assert ids[0] in ids;
      assert ids[0] != "" ==> Find(a, ids[0]) == Find(b, ids[0]);
      SameUsageElsewhere(a, b, ids[1..]);
    }
  }

  /** Two telemetries say the same of a thread and of these ids. */
  ghost predicate SameTelemetry(a: Telemetry, b: Telemetry, t: string, ids: seq<string>) {
    && Find(a.threadUsage, t) == Find(b.threadUsage, t) && Get(a.reroutes, t, []) == Get(b.reroutes, t, [])
    && forall x :: x in ids && x != "" ==>
         Get(a.messages, x, []) == Get(b.messages, x, []) && Find(a.usage, x) == Find(b.usage, x)
  }

  lemma SameReply(a: Telemetry, b: Telemetry, t: string, ids: seq<string>)
    requires ids != [] && SameTelemetry(a, b, t, ids)
    ensures ReplyOf(a, t, ids) == ReplyOf(b, t, ids)
  {
    SameTextElsewhere(a.messages, b.messages, ids);
    SameUsageElsewhere(a.usage, b.usage, ids);
  }

  lemma OthersSayNothing(home: string -> string, s: Client, m: Message, t: string, ids: seq<string>)
    requires Addressed(home, m) && m.thread != t && t != "" && forall x :: x in ids && x != "" ==> home(x) == t
    ensures SameTelemetry(s.telemetry, Notify(s, m).telemetry, t, ids)
  {
  }

  /** Nothing heard about another thread changes the reply. */
  lemma OthersLeaveReply(home: string -> string, w: World, m: Message, t: string)
    requires Invariant(home, w) && Addressed(home, m) && AtHome(home, w, t) && m.thread != t && t != ""
    ensures var v := Take(w, Heard(m)); WaitingOn(v, t) && ReplyNow(v, t) == ReplyNow(w, t)
  {
    var v, ids := Take(w, Heard(m)), NamesOf(w, t);
    WaitingStep(home, w, Heard(m), t);
    assert !Reaches(w.client, m, t);
    assert Get(v.client.names.notified, t, "") == Get(w.client.names.notified, t, "");
    assert EndedUnder(v.client, t, v.frames[t]) == EndedUnder(w.client, t, w.frames[t]);
    var f := w.frames[t];
    var order := [EndedUnder(w.client, t, f), f.turn, f.response];
    assert forall x :: x in order ==> x in ids;
    OthersSayNothing(home, w.client, m, t, order);
    SameReply(w.client.telemetry, v.client.telemetry, t, order);
  }

  // ---------- what is never kept ----------

  /** No run ever retires the empty id, which notifications without one go by, or keeps a usage or a reroute under no
      thread. */
  ghost predicate NoBlanks(w: World) {
    && (forall t :: t in w.client.retired.ids ==> "" !in w.client.retired.ids[t])
    && "" !in w.client.telemetry.threadUsage && "" !in w.client.telemetry.reroutes
  }

  lemma {:induction false} EvictedNoBlanks(r: Retired, thread: string)
    requires forall t :: t in r.ids ==> "" !in r.ids[t]
    ensures forall t :: t in Evicted(r, thread).ids ==> "" !in Evicted(r, thread).ids[t]
    decreases |r.order|
  {
    if |r.order| > RETIRED_THREADS {
      var v := if r.order[0] == thread then 1 else 0;
      EvictedNoBlanks(Retired(r.order[..v] + r.order[v + 1..], r.ids - {r.order[v]}), thread);
    }
  }

  lemma RetireNoBlanks(r: Retired, thread: string, ids: seq<string>)
    requires forall t :: t in r.ids ==> "" !in r.ids[t]
    ensures forall t :: t in Retire(r, thread, ids).ids ==> "" !in Retire(r, thread, ids).ids[t]
  {
    EvictedNoBlanks(Recalled(r, thread, ids), thread);
  }

  lemma StepNoBlanks(home: string -> string, w: World, step: Step)
    requires Legal(home, w, step) && NoBlanks(w)
    ensures NoBlanks(Take(w, step))
  {
    match step
    case Fail(t, why, started) => RetireNoBlanks(w.client.retired, t, [started]);
    case Close(t, cancelled) => RetireNoBlanks(w.client.retired, t, NamesOf(w, t));
    case _ =>
  }

  lemma {:induction false} RunNoBlanks(home: string -> string, w: World, steps: seq<Step>)
    requires LegalRun(home, w, steps) && NoBlanks(w)
    ensures NoBlanks(TakeAll(w, steps))
    decreases |steps|
  {
    if steps != [] {
      StepNoBlanks(home, w, steps[0]);
      RunNoBlanks(home, Take(w, steps[0]), steps[1..]);
    }
  }

  // ---------- the alias of a response ----------

  /** The response id stands for the id the turn was last heard under, and starts will be recognised as its. */
  ghost predicate NamesAligned(home: string -> string, n: Names, t: string, response: string) {
    && (forall u :: u in n.responded && n.responded[u] != "" ==> home(n.responded[u]) == u)
    && response != "" && home(response) == t && Get(n.responded, t, "") == response
    && response in n.aliases && n.aliases[response] == Get(n.notified, t, response)
  }

  /** The names of the waiting call are aligned. */
  ghost predicate Aligned(home: string -> string, w: World, t: string) {
    WaitingOn(w, t) && NamesAligned(home, w.client.names, t, w.frames[t].response)
  }

  /** The response aligns the call. */
  lemma ResponseAligns(home: string -> string, w: World, t: string, turn: Turn)
    requires Legal(home, w, Respond(t, turn))
    requires forall u :: u in w.client.names.responded && w.client.names.responded[u] != "" ==>
               home(w.client.names.responded[u]) == u
    ensures Aligned(home, Take(w, Respond(t, turn)), t)
  {
  }

  /** What cannot put the names of the call out of step: anything but its end, a second call on its thread, or a
      completion of its thread. */
  predicate Steady(w: World, step: Step, t: string) {
    && Leaves(step, t) && step != Open(t)
    && (step.Respond? ==> step.thread != t)
    && (step.Heard? && step.message.kind.TurnCompleted? ==> step.message.thread != t)
  }

  lemma StartAligned(home: string -> string, n: Names, u: string, turn: string, t: string, response: string)
    requires NamesAligned(home, n, t, response)
    ensures NamesAligned(home, NameStart(n, u, turn), t, response)
  {
  }

  lemma RespondAligned(home: string -> string, n: Names, u: string, id: string, t: string, response: string)
    requires NamesAligned(home, n, t, response) && u != t && id != "" && home(id) == u
    ensures NamesAligned(home, NameResponse(n, u, id), t, response)
  {
  }

  lemma HeardAligned(home: string -> string, s: Client, m: Message, t: string, response: string)
    requires NamesAligned(home, s.names, t, response) && (m.kind.TurnCompleted? ==> m.thread != t)
    ensures NamesAligned(home, Notify(s, m).names, t, response)
  {
    if m.kind.TurnStarted? {
      StartAligned(home, s.names, m.thread, m.turn.id, t, response);
    }
  }

  lemma StepNames(home: string -> string, w: World, step: Step, t: string, response: string)
    requires Legal(home, w, step) && NamesAligned(home, w.client.names, t, response) && Steady(w, step, t)
    requires step.Close? ==> WaitingOn(w, step.thread) && home(w.frames[step.thread].response) == step.thread
    ensures NamesAligned(home, Take(w, step).client.names, t, response)
  {
    match step
    case Heard(m) => HeardAligned(home, w.client, m, t, response);
    case Respond(u, turn) => RespondAligned(home, w.client.names, u, turn.id, t, response);
    case _ =>
  }

  lemma StepAligned(home: string -> string, w: World, step: Step, t: string)
    requires Invariant(home, w) && Legal(home, w, step) && Aligned(home, w, t) && Steady(w, step, t)
    requires step.Close? ==> WaitingOn(w, step.thread) && home(w.frames[step.thread].response) == step.thread
    ensures Aligned(home, Take(w, step), t)
  {
    StepNames(home, w, step, t, w.frames[t].response);
    WaitingStep(home, w, step, t);
  }

  lemma SteadyRest(w: World, steps: seq<Step>, t: string)
    requires steps != [] && forall i :: 0 <= i < |steps| ==> Steady(TakeAll(w, steps[..i]), steps[i], t)
    ensures forall i :: 0 <= i < |steps[1..]| ==> Steady(TakeAll(Take(w, steps[0]), steps[1..][..i]), steps[1..][i], t)
  {
    forall i | 0 <= i < |steps[1..]| ensures Steady(TakeAll(Take(w, steps[0]), steps[1..][..i]), steps[1..][i], t) {
      assert steps[..i + 1][1..] == steps[1..][..i] && steps[..i + 1][0] == steps[0];
      assert steps[1..][i] == steps[i + 1];
    }
  }

  /** From its response on, and until it completes, the response id of a call stands for the id under which its turn was
      last started, so that it can be steered and interrupted under either. */
  lemma {:induction false} RunAligned(home: string -> string, w: World, steps: seq<Step>, t: string)
    requires Invariant(home, w) && LegalRun(home, w, steps) && Aligned(home, w, t)
    requires forall i :: 0 <= i < |steps| ==> Steady(TakeAll(w, steps[..i]), steps[i], t)
    ensures Aligned(home, TakeAll(w, steps), t)
    decreases |steps|
  {
    if steps != [] {
      assert TakeAll(w, steps[..0]) == w;
      if steps[0].Close? {
        assert NamedWell(home, w, steps[0].thread);
      }
      StepAligned(home, w, steps[0], t);
      StepKeepsInvariant(home, w, steps[0]);
      SteadyRest(w, steps, t);
      RunAligned(home, Take(w, steps[0]), steps[1..], t);
    }
  }

  // ---------- failed requests ----------

  /** A request that was cancelled leaves what is buffered as it is; any other failure leaves nothing for the thread. */
  lemma FailureBuffers(home: string -> string, w: World, t: string, why: Failure, started: string)
    requires Invariant(home, w) && Legal(home, w, Fail(t, why, started))
    ensures var v := Take(w, Fail(t, why, started)).client;
      && (why == RequestCancelled ==> v.buffer == w.client.buffer)
      && (why != RequestCancelled ==> t !in v.buffer.threads)
      && (why != TransportLost ==> v.telemetry == w.client.telemetry)
      && (why == TransportLost ==> t !in v.telemetry.threadUsage && t !in v.telemetry.reroutes
                                   && (started != "" ==> started !in v.telemetry.messages))
  {
    DiscardedFewer(w.client.buffer, t);
  }
}
