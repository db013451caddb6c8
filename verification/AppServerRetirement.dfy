/** Retired turn ids stay inert, and what an ended turn hands to its caller. */
module AppServerRetirement {
  import opened Prelude
  import opened TurnOwnership
  import opened AppServerModel
  import opened AppServerTurns
  import opened AppServerTheorems

  // ---------- the bounded dictionary of retired ids ----------

  /** `order` lists the threads of the dictionary, each once. */
  predicate Tracked(r: Retired) {
    Distinct(r.order) && Elements(r.order) == r.ids.Keys
  }

  lemma {:induction false} DistinctFits<T>(s: seq<T>, pool: set<T>)
    requires Distinct(s) && Elements(s) <= pool
    ensures |s| <= |pool|
  {
    if s != [] {
      var last := s[|s| - 1];
      assert last in Elements(s);
      forall x | x in Elements(s[..|s| - 1]) ensures x in pool - {last} {
        assert x in Elements(s);
      }
      DistinctFits(s[..|s| - 1], pool - {last});
    }
  }

  lemma RecalledTracked(r: Retired, thread: string, ids: seq<string>)
    requires Tracked(r)
    ensures Tracked(Recalled(r, thread, ids))
  {
    assert thread !in r.ids ==> thread !in Elements(r.order);
    assert forall x :: x in r.order <==> x in Elements(r.order);
    assert Elements(Recalled(r, thread, ids).order) == Elements(r.order) + {thread};
  }

  lemma DropTracked(r: Retired, v: nat)
    requires Tracked(r) && v < |r.order|
    ensures Tracked(Retired(r.order[..v] + r.order[v + 1..], r.ids - {r.order[v]}))
  {
    var rest := r.order[..v] + r.order[v + 1..];
    forall x ensures x in rest <==> x in r.order && x != r.order[v] {
      if x in r.order && x != r.order[v] {
        var i :| 0 <= i < |r.order| && r.order[i] == x;
        assert x == rest[if i < v then i else i - 1];
      }
    }
    assert forall x :: x in r.ids.Keys <==> x in Elements(r.order);
  }

  /** Eviction keeps at most `RETIRED_THREADS` threads, never drops the newest one, and alters no entry it keeps. */
  lemma {:induction false} EvictionSparesNewest(r: Retired, thread: string)
    requires Tracked(r) && thread in r.ids
    ensures var e := Evicted(r, thread);
      && Tracked(e) && |e.order| <= RETIRED_THREADS
      && thread in e.ids
      && forall t :: t in e.ids ==> t in r.ids && e.ids[t] == r.ids[t]
    decreases |r.order|
  {
    if |r.order| > RETIRED_THREADS {
      var v := if r.order[0] == thread then 1 else 0;
      DropTracked(r, v);
      EvictionSparesNewest(Retired(r.order[..v] + r.order[v + 1..], r.ids - {r.order[v]}), thread);
    }
  }

  lemma RetireKeepsTracked(r: Retired, thread: string, ids: seq<string>)
    requires Tracked(r)
    ensures Tracked(Retire(r, thread, ids))
    ensures forall x :: x in ids && x != "" ==> x in Get(Retire(r, thread, ids).ids, thread, {})
    ensures forall t, x :: t != thread && x in Get(Retire(r, thread, ids).ids, t, {}) ==> x in Get(r.ids, t, {})
  {
    RecalledTracked(r, thread, ids);
    EvictionSparesNewest(Recalled(r, thread, ids), thread);
  }

  /** While few enough threads retire ids, nothing is evicted. */
  lemma RetireWithin(r: Retired, thread: string, ids: seq<string>, pool: set<string>)
    requires Tracked(r) && r.ids.Keys <= pool && thread in pool && |pool| <= RETIRED_THREADS
    ensures Retire(r, thread, ids) == Recalled(r, thread, ids)
    ensures Tracked(Retire(r, thread, ids)) && Retire(r, thread, ids).ids.Keys <= pool
  {
    RecalledTracked(r, thread, ids);
    DistinctFits(Recalled(r, thread, ids).order, pool);
  }

  // ---------- a retired id changes nothing ----------

  /** Only threads of the pool retire ids. */
  predicate Within(step: Step, pool: set<string>) {
    match step
    case Fail(t, _, _) => t in pool
    case Close(t, _) => t in pool
    case _ => true
  }

  predicate IsRetired(w: World, t: string, x: string) {
    x in Get(w.client.retired.ids, t, {})
  }

  ghost predicate Remembers(w: World, pool: set<string>) {
    Tracked(w.client.retired) && w.client.retired.ids.Keys <= pool && |pool| <= RETIRED_THREADS
  }

  lemma StepStaysRetired(w: World, step: Step, pool: set<string>, t: string, x: string)
    requires Remembers(w, pool) && Within(step, pool)
    ensures Remembers(Take(w, step), pool)
    ensures IsRetired(w, t, x) ==> IsRetired(Take(w, step), t, x)
  {
    match step
    case Fail(u, why, started) => RetireWithin(w.client.retired, u, [started], pool);
    case Close(u, cancelled) =>
      if WaitingOn(w, u) {
        var f := w.frames[u];
        RetireWithin(w.client.retired, u, [f.response, f.turn, EndedUnder(w.client, u, f)], pool);
      }
    case _ =>
  }

  lemma {:induction false} RunStaysRetired(w: World, steps: seq<Step>, pool: set<string>, t: string, x: string)
    requires Remembers(w, pool) && forall i :: 0 <= i < |steps| ==> Within(steps[i], pool)
    ensures IsRetired(w, t, x) ==> IsRetired(TakeAll(w, steps), t, x)
    decreases |steps|
  {
    if steps != [] {
      StepStaysRetired(w, steps[0], pool, t, x);
      RunStaysRetired(Take(w, steps[0]), steps[1..], pool, t, x);
    }
  }

  /** The ids a turn went by: its response id, the id its waiter was filed under, the id it ended under. */
  function NamesOf(w: World, t: string): seq<string>
    requires WaitingOn(w, t)
  {
    [w.frames[t].response, w.frames[t].turn, EndedUnder(w.client, t, w.frames[t])]
  }

  lemma CloseRetires(w: World, t: string)
    requires Tracked(w.client.retired) && WaitingOn(w, t)
    ensures forall x :: x in NamesOf(w, t) && x != "" ==> IsRetired(Take(w, Close(t, false)), t, x)
  {
    RetireKeepsTracked(w.client.retired, t, NamesOf(w, t));
  }

  /**
   * After a turn's caller got its result, whatever runs on any thread, a late
   * notification under any name of that turn changes nothing but the arrival count.
   */
  lemma EndedTurnIsInert(w: World, t: string, steps: seq<Step>, pool: set<string>, m: Message)
    requires WaitingOn(w, t) && t in pool && Remembers(w, pool)
    requires forall i :: 0 <= i < |steps| ==> Within(steps[i], pool)
    requires m.thread == t && EventTurn(m) != "" && EventTurn(m) in NamesOf(w, t)
    ensures var v := TakeAll(Take(w, Close(t, false)), steps);
            Take(v, Heard(m)) == v.(client := v.client.(arrivals := v.client.arrivals + 1))
  {
    CloseRetires(w, t);
    StepStaysRetired(w, Close(t, false), pool, t, "");
    RunStaysRetired(Take(w, Close(t, false)), steps, pool, t, EventTurn(m));
  }

  // ---------- what the caller gets ----------

  /** What `start_turn` returns if it ends now. */
  function ReplyNow(w: World, t: string): Reply
    requires WaitingOn(w, t)
  {
    var f := w.frames[t];
    ReplyOf(w.client.telemetry, t, [EndedUnder(w.client, t, f), f.turn, f.response])
  }

  /**
   * A completion that settles a call and carries agent messages is authoritative:
   * whatever was streamed before, under any id, the reply is its last message, and
   * the turn ends under its id.
   */
  lemma SnapshotIsReply(home: string -> string, w: World, m: Message, t: string)
    requires Invariant(home, w) && Addressed(home, m) && WaitingOn(w, t)
    requires w.frames[t].waiter < |w.client.waits.futures| && Pending(w, t).None?
    requires Reaches(w.client, m, t) && m.turn.id != "" && m.turn.messages != []
    ensures WaitingOn(Take(w, Heard(m)), t)
    ensures ReplyNow(Take(w, Heard(m)), t).turn == m.turn.id
    ensures ReplyNow(Take(w, Heard(m)), t).text == m.turn.messages[|m.turn.messages| - 1]
  {
    WaitingStep(home, w, Heard(m), t);
    var next := Take(w, Heard(m));
    assert Result(next.client.waits.futures, w.frames[t].waiter)
        == Some(FromCompletion(Completion(w.client.arrivals, m)));
    assert next.client.telemetry.messages[m.turn.id] == m.turn.messages;
  }

  /** An ended turn leaves none of its telemetry for its successor. */
  lemma CloseSpends(w: World, t: string)
    requires WaitingOn(w, t)
    ensures var left := Take(w, Close(t, false)).client.telemetry;
      && t !in left.threadUsage && t !in left.reroutes
      && forall x :: x in NamesOf(w, t) && x != "" ==> x !in left.messages && x !in left.usage
  {
    var f := w.frames[t];
    var ended := EndedUnder(w.client, t, f);
    assert Take(w, Close(t, false)).client.telemetry == Spent(w.client.telemetry, t, [ended, f.turn, f.response]);
    assert forall x :: x in NamesOf(w, t) && x != "" ==> x in Named([ended, f.turn, f.response]);
  }

  /** A notification goes by one id. */
  predicate OneId(step: Step) {
    step.Heard? && step.message.turnId != "" && step.message.turn.id != "" ==>
      step.message.turnId == step.message.turn.id
  }

  /** No message and no usage is kept under the id. */
  predicate Spendless(w: World, x: string) {
    x !in w.client.telemetry.messages && x !in w.client.telemetry.usage
  }

  lemma StepStaysSpent(home: string -> string, w: World, step: Step, t: string, x: string)
    requires Legal(home, w, step) && OneId(step) && IsRetired(w, t, x) && x != "" && home(x) == t && Spendless(w, x)
    ensures Spendless(Take(w, step), x)
  {
    if step.Heard? && !Ignored(w.client, step.message) {
      assert step.message.turnId != x && step.message.turn.id != x;
    }
  }

  lemma {:induction false} RunStaysSpent(home: string -> string, w: World, steps: seq<Step>, pool: set<string>,
                                         t: string, x: string)
    requires LegalRun(home, w, steps) && forall i :: 0 <= i < |steps| ==> OneId(steps[i]) && Within(steps[i], pool)
    requires Remembers(w, pool) && IsRetired(w, t, x) && x != "" && home(x) == t && Spendless(w, x)
    ensures Spendless(TakeAll(w, steps), x)
    decreases |steps|
  {
    if steps != [] {
      StepStaysSpent(home, w, steps[0], t, x);
      StepStaysRetired(w, steps[0], pool, t, x);
      RunStaysSpent(home, Take(w, steps[0]), steps[1..], pool, t, x);
    }
  }

  /**
   * Once a turn's caller got its result no message and no usage is ever kept under
   * any id of the turn again, whatever runs on any thread.
   */
  lemma EndedTurnStaysSpent(home: string -> string, w: World, t: string, steps: seq<Step>, pool: set<string>, x: string)
    requires WaitingOn(w, t) && t in pool && Remembers(w, pool) && LegalRun(home, Take(w, Close(t, false)), steps)
    requires forall i :: 0 <= i < |steps| ==> OneId(steps[i]) && Within(steps[i], pool)
    requires x in NamesOf(w, t) && x != "" && home(x) == t
    ensures Spendless(TakeAll(Take(w, Close(t, false)), steps), x)
  {
    CloseRetires(w, t);
    CloseSpends(w, t);
    StepStaysRetired(w, Close(t, false), pool, t, x);
    RunStaysSpent(home, Take(w, Close(t, false)), steps, pool, t, x);
  }
}
