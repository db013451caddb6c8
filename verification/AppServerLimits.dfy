/** Runs from the idle client that show where the promises stop. */
module AppServerLimits {
  import opened Prelude
  import opened TurnOwnership
  import opened AppServerModel
  import opened AppServerTurns
  import opened AppServerTheorems
  import opened AppServerRetirement
  import opened AppServerOwnTurn

  function Note(kind: Kind, turn: string): Step {
    Heard(Message(kind, "t", "", Turn(turn, IN_PROGRESS, [])))
  }

  const HERE: string -> string := _ => "t"
  const START: World := World(IDLE, map[])
  const RESPONSE: Step := Respond("t", Turn("r", IN_PROGRESS, []))

  lemma {:induction false} Then(home: string -> string, w: World, steps: seq<Step>, step: Step)
    requires LegalRun(home, w, steps) && Legal(home, TakeAll(w, steps), step)
    ensures LegalRun(home, w, steps + [step])
    ensures TakeAll(w, steps + [step]) == Take(TakeAll(w, steps), step)
    decreases |steps|
  {
    if steps == [] {
      assert ([step])[1..] == [];
      assert LegalRun(home, Take(w, step), []);
    } else {
      Then(home, Take(w, steps[0]), steps[1..], step);
      assert (steps + [step])[1..] == steps[1..] + [step];
    }
  }

  /** A first call opened on the thread and nothing else happened. */
  ghost predicate FirstOpen(w: World) {
    && Invariant(HERE, w) && Remembers(w, {"t"})
    && JustOpened(w, "t") && JustBegun(w.client.ownership, "t")
    && w.client.ownership.unmanaged == [] && w.client.retired == IDLE.retired && w.client.buffer == IDLE.buffer
    && w.client.telemetry == IDLE.telemetry
  }

  lemma FirstOpens()
    ensures FirstOpen(Take(START, Open("t")))
  {
    StartsIdle(HERE);
    StepKeepsInvariant(HERE, START, Open("t"));
    OpenJustOpens(HERE, START, "t");
  }

  /** A request is out on the thread, and the completions of two turns arrived before its response. */
  ghost predicate TwoHeld(w: World) {
    && Invariant(HERE, w)
    && "t" in w.frames && w.frames["t"].Requesting?
    && w.client.ownership.unmanaged == []
    && Get(w.client.names.notified, "t", "") == "y"
    && "x" in w.client.buffer.turns && "y" in w.client.buffer.turns
    && w.client.buffer.turns["x"] != w.client.buffer.turns["y"]
  }

  /** The completion of one turn arrived before the response. */
  ghost predicate OneHeld(w: World) {
    && Invariant(HERE, w) && w.client.retired == IDLE.retired && w.client.ownership.unmanaged == []
    && "t" in w.frames && w.frames["t"].Requesting? && Starts(w.client.ownership, "t") == 0
    && "x" in w.client.buffer.turns && w.client.buffer.turns["x"].arrival < w.client.arrivals
    && "t" in w.client.buffer.threads && Indexed(HERE, w, "t")
  }

  lemma HearOne(w: World)
    requires FirstOpen(w)
    ensures OneHeld(Take(w, Note(TurnCompleted, "x")))
  {
    var m := Note(TurnCompleted, "x").message;
    StepKeepsInvariant(HERE, w, Note(TurnCompleted, "x"));
    RequestNotAwaited(HERE, w, m);
    HeardHolds(w.client, m);
  }

  lemma HearTwo(w: World)
    requires OneHeld(w)
    ensures TwoHeld(Take(w, Note(TurnCompleted, "y")))
  {
    var m := Note(TurnCompleted, "y").message;
    StepKeepsInvariant(HERE, w, Note(TurnCompleted, "y"));
    RequestNotAwaited(HERE, w, m);
    HeardHolds(w.client, m);
  }

  lemma HoldOne() returns (steps: seq<Step>)
    ensures LegalRun(HERE, START, steps) && OneHeld(TakeAll(START, steps))
  {
    FirstOpens();
    Then(HERE, START, [], Open("t"));
    steps := [] + [Open("t")];
    HearOne(TakeAll(START, steps));
    Then(HERE, START, steps, Note(TurnCompleted, "x"));
    steps := steps + [Note(TurnCompleted, "x")];
  }

  lemma HoldTwo() returns (steps: seq<Step>)
    ensures LegalRun(HERE, START, steps) && TwoHeld(TakeAll(START, steps))
  {
    steps := HoldOne();
    HearTwo(TakeAll(START, steps));
    Then(HERE, START, steps, Note(TurnCompleted, "y"));
    steps := steps + [Note(TurnCompleted, "y")];
  }

  lemma ResponseStrands(w: World)
    requires TwoHeld(w)
    ensures var v := Take(w, RESPONSE);
      && Invariant(HERE, v) && WaitingOn(v, "t") && v.client.ownership.unmanaged == [] && "x" in v.client.buffer.turns
  {
    StepKeepsInvariant(HERE, w, RESPONSE);
    assert FirstBuffered(w.client.buffer.turns, ["y", "r"]) == Some(w.client.buffer.turns["y"]);
  }

  /** The first call has its response, and the other turn's completion is still filed under its id. */
  ghost predicate Stranded(w: World) {
    Invariant(HERE, w) && WaitingOn(w, "t") && w.client.ownership.unmanaged == [] && "x" in w.client.buffer.turns
  }

  lemma NextCallOpensOver(w: World)
    requires Stranded(w)
    ensures var v := Take(Take(w, Close("t", false)), Open("t"));
      Invariant(HERE, v) && JustOpened(v, "t") && !Clean(HERE, v, "t")
  {
    var v := Take(w, Close("t", false));
    StepKeepsInvariant(HERE, w, Close("t", false));
    assert "t" !in v.client.buffer.threads;
    OpenJustOpens(HERE, v, "t");
    StepKeepsInvariant(HERE, v, Open("t"));
    assert "x" in Take(v, Open("t")).client.buffer.turns;
  }

  lemma Strand() returns (steps: seq<Step>)
    ensures LegalRun(HERE, START, steps) && Stranded(TakeAll(START, steps))
  {
    steps := HoldTwo();
    ResponseStrands(TakeAll(START, steps));
    Then(HERE, START, steps, RESPONSE);
    steps := steps + [RESPONSE];
  }

  lemma Reopen(start: World, steps: seq<Step>) returns (longer: seq<Step>)
    requires LegalRun(HERE, start, steps) && Stranded(TakeAll(start, steps))
    ensures LegalRun(HERE, start, longer)
    ensures TakeAll(start, longer) == Take(Take(TakeAll(start, steps), Close("t", false)), Open("t"))
  {
    Then(HERE, start, steps, Close("t", false));
    Then(HERE, start, steps + [Close("t", false)], Open("t"));
    longer := steps + [Close("t", false)] + [Open("t")];
  }

  /**
   * Two turns complete before the response of one call.  The completion of the
   * first is still filed under its id when the next call opens, so that call
   * can be settled by it.
   */
  lemma StrandedCompletion()
    ensures exists steps {:trigger LegalRun(HERE, START, steps)} ::
      && LegalRun(HERE, START, steps)
      && JustOpened(TakeAll(START, steps), "t") && !AlwaysFresh(HERE, TakeAll(START, steps), "t")
  {
    var steps := Strand();
    NextCallOpensOver(TakeAll(START, steps));
    var longer := Reopen(START, steps);
    NothingOlderSettlesIff(HERE, TakeAll(START, longer), "t");
  }

  // ---------- a refused second call ----------

  /**
   * A second `start_turn` on a thread whose call has not got its response yet is
   * refused, but it has already thrown away the completion buffered for the first;
   * a run from the idle client leads there.
   */
  lemma RefusedCallLosesCompletion()
    ensures exists steps {:trigger LegalRun(HERE, START, steps)} ::
      && LegalRun(HERE, START, steps) && Loses(TakeAll(START, steps), Open("t"), "t")
      && !Accepts(TakeAll(START, steps).client.ownership, Begin("t"))
      && Due(TakeAll(START, steps), "t") && !Due(Take(TakeAll(START, steps), Open("t")), "t")
  {
    var steps := HoldOne();
    StepDueIff(HERE, TakeAll(START, steps), Open("t"), "t");
  }

  /**
   * Refused while the first call waits, a second call leaves the reply of the first
   * as it was exactly when no reroute was recorded for the thread and the stream id
   * does not matter: the outcome names an id, no stream id was heard, or it is the
   * one the waiter is filed under.  The refused call forgets both.
   */
  lemma RefusedCallKeepsReplyIff(home: string -> string, w: World, t: string)
    requires Invariant(home, w) && WaitingOn(w, t)
    ensures var v, f := Take(w, Open(t)), w.frames[t];
      && WaitingOn(v, t)
      && (ReplyNow(v, t) == ReplyNow(w, t) <==>
            && Get(w.client.telemetry.reroutes, t, []) == []
            && (OutcomeTurn(Result(w.client.waits.futures, f.waiter)) != ""
                || Get(w.client.names.notified, t, "") in {"", f.turn}))
  {
    assert t in w.client.ownership.open;
  }

  // ---------- ids a call leaves behind ----------

  /** Its response arrived, and still nothing else happened. */
  ghost predicate Answered(w: World) {
    && Invariant(HERE, w) && Remembers(w, {"t"}) && WaitingOn(w, "t")
    && w.client.ownership.unmanaged == [] && w.client.retired == IDLE.retired && w.client.buffer == IDLE.buffer
    && forall x :: x in NamesOf(w, "t") ==> x == "r"
  }

  lemma FirstAnswered(w: World, status: Status)
    requires FirstOpen(w)
    ensures Answered(Take(w, Respond("t", Turn("r", status, []))))
  {
    StepKeepsInvariant(HERE, w, Respond("t", Turn("r", status, [])));
    assert FirstBuffered(w.client.buffer.turns, ["r", "r"]) == None;
  }

  lemma AnswerFirst(status: Status) returns (steps: seq<Step>)
    ensures LegalRun(HERE, START, steps) && Answered(TakeAll(START, steps))
  {
    var response := Respond("t", Turn("r", status, []));
    FirstOpens();
    FirstAnswered(Take(START, Open("t")), status);
    Then(HERE, START, [], Open("t"));
    Then(HERE, START, [] + [Open("t")], response);
    steps := [] + [Open("t")] + [response];
  }

  /** Ending that call and opening the next one. */
  lemma NextCall(w: World, cancelled: bool)
    requires Answered(w)
    ensures var v := Take(Take(w, Close("t", cancelled)), Open("t"));
      && Invariant(HERE, v) && Remembers(v, {"t"})
      && JustOpened(v, "t") && JustBegun(v.client.ownership, "t") && v.client.buffer == IDLE.buffer
      && (cancelled ==> v.client.retired == IDLE.retired)
      && (!cancelled ==> forall x :: IsRetired(v, "t", x) ==> x in NamesOf(w, "t"))
  {
    var closed := Take(w, Close("t", cancelled));
    StepKeepsInvariant(HERE, w, Close("t", cancelled));
    StepStaysRetired(w, Close("t", cancelled), {"t"}, "t", "");
    RetireWithin(w.client.retired, "t", NamesOf(w, "t"), {"t"});
    OpenJustOpens(HERE, closed, "t");
    StepKeepsInvariant(HERE, closed, Open("t"));
  }

  /** The second call of the thread opens with an id of the first one left unretired. */
  ghost predicate Exposed(w: World, earlier: set<string>) {
    && Invariant(HERE, w) && JustOpened(w, "t") && JustBegun(w.client.ownership, "t")
    && CallIds(HERE, w, "t", {"second"}, earlier) && Remembers(w, {"t"})
    && !AlwaysOwn(HERE, w, "t", {"second"}, earlier, {"t"})
  }

  lemma ReopenAfter(steps: seq<Step>, cancelled: bool) returns (longer: seq<Step>)
    requires LegalRun(HERE, START, steps) && Answered(TakeAll(START, steps))
    ensures LegalRun(HERE, START, longer)
    ensures TakeAll(START, longer) == Take(Take(TakeAll(START, steps), Close("t", cancelled)), Open("t"))
  {
    Then(HERE, START, steps, Close("t", cancelled));
    Then(HERE, START, steps + [Close("t", cancelled)], Open("t"));
    longer := steps + [Close("t", cancelled)] + [Open("t")];
  }

  /** The call ends under its response id, so its stream id is not retired. */
  lemma EndedExposes(w: World)
    requires Answered(w)
    ensures Exposed(Take(Take(w, Close("t", false)), Open("t")), {"r", "s"})
  {
    NextCall(w, false);
    LateIsNotOwn(HERE, Take(Take(w, Close("t", false)), Open("t")), "t", {"second"}, {"r", "s"}, {"t"}, "s");
  }

  lemma CancelledExposes(w: World)
    requires Answered(w)
    ensures Exposed(Take(Take(w, Close("t", true)), Open("t")), {"r"})
  {
    NextCall(w, true);
    LateIsNotOwn(HERE, Take(Take(w, Close("t", true)), Open("t")), "t", {"second"}, {"r"}, {"t"}, "r");
  }

  /**
   * A call cancelled while it waits retires nothing: its late completion can settle
   * the next call on the thread.
   */
  lemma CancelledCallExposesNext()
    ensures exists steps {:trigger LegalRun(HERE, START, steps)} ::
      LegalRun(HERE, START, steps) && Exposed(TakeAll(START, steps), {"r"})
  {
    var first := AnswerFirst(IN_PROGRESS);
    CancelledExposes(TakeAll(START, first));
    var steps := ReopenAfter(first, true);
  }

  /**
   * A call settled by a final response before its stream is heard does not know its
   * stream id, so it does not retire it either.
   */
  lemma FinalResponseExposesNext()
    ensures exists steps {:trigger LegalRun(HERE, START, steps)} ::
      LegalRun(HERE, START, steps) && Exposed(TakeAll(START, steps), {"r", "s"})
  {
    var first := AnswerFirst(COMPLETED);
    EndedExposes(TakeAll(START, first));
    var steps := ReopenAfter(first, false);
  }

  /** A request that fails before its stream is heard retires nothing. */
  lemma FailedRetiresNothing(w: World, why: Failure)
    requires FirstOpen(w)
    ensures var v := Take(w, Fail("t", why, ""));
      && Invariant(HERE, v) && Remembers(v, {"t"}) && !IsRetired(v, "t", "s")
  {
    StepKeepsInvariant(HERE, w, Fail("t", why, ""));
    StepStaysRetired(w, Fail("t", why, ""), {"t"}, "t", "");
    RetireWithin(w.client.retired, "t", [""], {"t"});
  }

  lemma FailedNext(w: World, why: Failure)
    requires FirstOpen(w)
    ensures var v := Take(Take(w, Fail("t", why, "")), Open("t"));
      && Invariant(HERE, v) && Remembers(v, {"t"})
      && JustOpened(v, "t") && JustBegun(v.client.ownership, "t") && v.client.buffer == IDLE.buffer
      && !IsRetired(v, "t", "s")
  {
    var failed := Take(w, Fail("t", why, ""));
    FailedRetiresNothing(w, why);
    OpenJustOpens(HERE, failed, "t");
    StepKeepsInvariant(HERE, failed, Open("t"));
  }

  lemma StreamExposes(w: World)
    requires Invariant(HERE, w) && Remembers(w, {"t"}) && JustOpened(w, "t") && JustBegun(w.client.ownership, "t")
    requires w.client.buffer == IDLE.buffer && !IsRetired(w, "t", "s")
    ensures Exposed(w, {"s"})
  {
    LateIsNotOwn(HERE, w, "t", {"second"}, {"s"}, {"t"}, "s");
  }

  lemma FailedExposes(w: World, why: Failure)
    requires FirstOpen(w)
    ensures Exposed(Take(Take(w, Fail("t", why, "")), Open("t")), {"s"})
  {
    FailedNext(w, why);
    StreamExposes(Take(Take(w, Fail("t", why, "")), Open("t")));
  }

  lemma ReopenFailed(why: Failure) returns (steps: seq<Step>)
    ensures LegalRun(HERE, START, steps)
    ensures TakeAll(START, steps) == Take(Take(Take(START, Open("t")), Fail("t", why, "")), Open("t"))
  {
    FirstOpens();
    Then(HERE, START, [], Open("t"));
    Then(HERE, START, [] + [Open("t")], Fail("t", why, ""));
    Then(HERE, START, [] + [Open("t")] + [Fail("t", why, "")], Open("t"));
    steps := [] + [Open("t")] + [Fail("t", why, "")] + [Open("t")];
  }

  /**
   * A request that fails, for whatever reason, before the start of its turn is heard
   * leaves the stream id of that turn behind.
   */
  lemma FailedStartExposesNext(why: Failure)
    ensures exists steps {:trigger LegalRun(HERE, START, steps)} ::
      LegalRun(HERE, START, steps) && Exposed(TakeAll(START, steps), {"s"})
  {
    var steps := ReopenFailed(why);
    FirstOpens();
    FailedExposes(Take(START, Open("t")), why);
  }

  // ---------- a stream id a refused call takes away ----------

  const SAID: Step := Heard(Message(ItemCompleted(Some("hello")), "t", "s", Turn("", IN_PROGRESS, [])))

  const HELLO: Telemetry := Telemetry(map["s" := ["hello"]], map[], map[], map[])

  /** The call waits under its response id, and nothing was heard. */
  ghost predicate Unheard(w: World) {
    && Answered(w) && w.frames["t"].waiter < |w.client.waits.futures| && Pending(w, "t").None?
    && w.frames["t"].response == "r" == w.frames["t"].turn
    && "t" !in w.client.names.notified && Starts(w.client.ownership, "t") == 0
    && w.client.telemetry == IDLE.telemetry
  }

  /** Its stream was heard under an id of its own, with one message. */
  ghost predicate Streaming(w: World) {
    && Invariant(HERE, w) && Remembers(w, {"t"}) && WaitingOn(w, "t")
    && w.frames["t"].waiter < |w.client.waits.futures| && Pending(w, "t").None?
    && w.frames["t"].response == "r" == w.frames["t"].turn
    && Get(w.client.names.notified, "t", "") == "s"
    && w.client.ownership.unmanaged == [] && w.client.retired == IDLE.retired && w.client.buffer == IDLE.buffer
    && w.client.telemetry == HELLO
  }

  lemma FirstUnheard(w: World)
    requires FirstOpen(w)
    ensures Unheard(Take(w, RESPONSE))
  {
    FirstAnswered(w, IN_PROGRESS);
    assert FirstBuffered(w.client.buffer.turns, ["r", "r"]) == None;
  }

  lemma StreamHeard(w: World)
    requires Unheard(w)
    ensures Streaming(Take(Take(w, Note(TurnStarted, "s")), SAID))
  {
    var v := Take(w, Note(TurnStarted, "s"));
    StepKeepsInvariant(HERE, w, Note(TurnStarted, "s"));
    StepKeepsInvariant(HERE, v, SAID);
    assert "t" in w.client.ownership.open;
    assert [] + ["hello"] == ["hello"];
    assert map[]["s" := ["hello"]] == HELLO.messages;
  }

  lemma Stream() returns (steps: seq<Step>)
    ensures LegalRun(HERE, START, steps) && Streaming(TakeAll(START, steps))
  {
    FirstOpens();
    FirstUnheard(Take(START, Open("t")));
    Then(HERE, START, [], Open("t"));
    Then(HERE, START, [] + [Open("t")], RESPONSE);
    steps := [] + [Open("t")] + [RESPONSE];
    StreamHeard(TakeAll(START, steps));
    Then(HERE, START, steps, Note(TurnStarted, "s"));
    Then(HERE, START, steps + [Note(TurnStarted, "s")], SAID);
    steps := steps + [Note(TurnStarted, "s")] + [SAID];
  }

  lemma NothingUnderResponse(n: nat)
    requires n <= 3
    ensures FinalText(HELLO.messages, ["r", "r", "r"][..n]) == ""
    ensures FirstUsage(HELLO.usage, ["r", "r", "r"][..n]) == None
  {
    if n > 0 {
      NothingUnderResponse(n - 1);
      assert ["r", "r", "r"][..n][1..] == ["r", "r", "r"][..n - 1];
    }
  }

  lemma HelloReplies()
    ensures ReplyOf(HELLO, "t", ["s", "r", "r"]) == Reply("s", "hello", None, None)
    ensures ReplyOf(HELLO, "t", ["r", "r", "r"]) == Reply("r", "", None, None)
  {
    NothingUnderResponse(2);
    NothingUnderResponse(3);
    assert ["s", "r", "r"][1..] == ["r", "r", "r"][..2];
    assert ["r", "r", "r"][..3] == ["r", "r", "r"];
  }

  /** The refused call forgets the stream id. */
  lemma RefusedForgetsStream(w: World)
    requires Streaming(w)
    ensures var v := Take(w, Open("t"));
      && !Accepts(w.client.ownership, Begin("t")) && Answered(v)
      && ReplyNow(w, "t") == Reply("s", "hello", None, None) && ReplyNow(v, "t") == Reply("r", "", None, None)
  {
    StepKeepsInvariant(HERE, w, Open("t"));
    assert "t" in w.client.ownership.open;
    HelloReplies();
    assert Take(w, Open("t")).client.telemetry == HELLO;
  }

  /**
   * With no reroute recorded, a refused second call can still take the reply of the
   * waiting one away: should the transport be lost or the turn not stop, the call
   * ends under its response id, without the text streamed under the other.  That
   * other id is then not retired either, so a late completion under it can settle
   * the next call.
   */
  lemma RefusedCallTakesReply()
    ensures exists steps {:trigger LegalRun(HERE, START, steps)} ::
      && LegalRun(HERE, START, steps)
      && var w := TakeAll(START, steps);
      && WaitingOn(w, "t") && Get(w.client.telemetry.reroutes, "t", []) == []
      && !Accepts(w.client.ownership, Begin("t"))
      && ReplyNow(w, "t") == Reply("s", "hello", None, None)
      && WaitingOn(Take(w, Open("t")), "t") && ReplyNow(Take(w, Open("t")), "t") == Reply("r", "", None, None)
      && Exposed(Take(Take(Take(w, Open("t")), Close("t", false)), Open("t")), {"r", "s"})
  {
    var steps := Stream();
    var w := TakeAll(START, steps);
    RefusedForgetsStream(w);
    EndedExposes(Take(w, Open("t")));
  }
}
