/** `TurnOwnershipRegistry`: which turns the controller asked for, and which a thread started on its own. */
module TurnOwnership {
  import opened Prelude

  datatype Continuation = Continuation(thread: string, turn: string)

  datatype Ownership = Ownership(
    open: set<string>,
    owned: map<string, set<string>>,
    started: map<string, nat>,
    unmanaged: seq<Continuation>)

  const UNOWNED: Ownership := Ownership({}, map[], map[], [])

  /** What the registry is told, one call each. */
  datatype Event =
    | Begin(thread: string)
    | Started(thread: string, turn: string)
    | Bound(thread: string, turn: string)
    | Completed(thread: string, turn: string)
    | Finish(thread: string)

  predicate Recorded(o: Ownership, thread: string) {
    exists c :: c in o.unmanaged && c.thread == thread
  }

  function OwnedIds(o: Ownership, thread: string): set<string> {
    if thread in o.owned then o.owned[thread] else {}
  }

  function Starts(o: Ownership, thread: string): nat {
    if thread in o.started then o.started[thread] else 0
  }

  /** `setdefault(thread_id, set())`. */
  function Touched(o: Ownership, thread: string): Ownership {
    if thread in o.owned then o else o.(owned := o.owned[thread := {}])
  }

  function WithOwned(o: Ownership, thread: string, turn: string): Ownership {
    if turn == "" then Touched(o, thread)
    else o.(owned := o.owned[thread := OwnedIds(o, thread) + {turn}])
  }

  function WithContinuation(o: Ownership, thread: string, turn: string): Ownership {
    o.(unmanaged := o.unmanaged + [Continuation(thread, turn)])
  }

  /** Whether the call is accepted: `begin` and `bind` raise otherwise, the observers return `False`. */
  predicate Accepts(o: Ownership, e: Event) {
    match e
    case Begin(t) => !Recorded(o, t) && t !in o.open
    case Started(t, x) => t in o.open && (Starts(o, t) == 0 || (x != "" && x in OwnedIds(o, t)))
    case Bound(t, _) => t in o.open
    case Completed(t, x) => t in o.open && (x == "" || Starts(o, t) == 0 || x in OwnedIds(o, t))
    case Finish(_) => true
  }

  function After(o: Ownership, e: Event): Ownership {
    match e
    case Begin(t) =>
      if Accepts(o, e) then o.(open := o.open + {t}, owned := o.owned[t := {}], started := o.started[t := 0]) else o
    case Started(t, x) =>
      if t !in o.open then WithContinuation(o, t, x)
      else if Starts(o, t) == 0 then WithOwned(o, t, x).(started := o.started[t := 1])
      else if Accepts(o, e) then Touched(o, t)
      else WithContinuation(Touched(o, t), t, x)
    case Bound(t, x) => if t !in o.open || x == "" then o else WithOwned(o, t, x)
    case Completed(t, x) =>
      if t !in o.open then o
      else if Accepts(o, e) then WithOwned(o, t, x)
      else WithContinuation(Touched(o, t), t, x)
    case Finish(t) => o.(open := o.open - {t}, owned := o.owned - {t}, started := o.started - {t})
  }

  function Run(o: Ownership, es: seq<Event>): Ownership {
    if es == [] then o else After(Run(o, es[..|es| - 1]), es[|es| - 1])
  }

  class TurnOwnershipRegistry {
    var openThreads: set<string>
    var ownedIds: map<string, set<string>>
    var startedCount: map<string, nat>
    var unmanagedContinuations: seq<Continuation>

    function State(): Ownership
      reads this
    {
      Ownership(openThreads, ownedIds, startedCount, unmanagedContinuations)
    }

    constructor ()
      ensures State() == UNOWNED
    {
      openThreads, ownedIds, startedCount, unmanagedContinuations := {}, map[], map[], [];
    }

    method BeginControllerTurn(thread: string) returns (began: bool)
      modifies this
      ensures began == Accepts(old(State()), Begin(thread))
      ensures State() == After(old(State()), Begin(thread))
    {
      var i := 0;
      while i < |unmanagedContinuations|
        invariant 0 <= i <= |unmanagedContinuations|
        invariant forall c :: c in unmanagedContinuations[..i] ==> c.thread != thread
      {
        if unmanagedContinuations[i].thread == thread {
          assert unmanagedContinuations[i] in State().unmanaged;
          return false;
        }
        i := i + 1;
      }
      assert unmanagedContinuations[..i] == unmanagedContinuations;
      if thread in openThreads {
        return false;
      }
      openThreads := openThreads + {thread};
      ownedIds := ownedIds[thread := {}];
      startedCount := startedCount[thread := 0];
      return true;
    }

    method ObserveStarted(thread: string, turn: string) returns (owned: bool)
      modifies this
      ensures owned == Accepts(old(State()), Started(thread, turn))
      ensures State() == After(old(State()), Started(thread, turn))
    {
      if thread in openThreads {
        if thread !in ownedIds {
          ownedIds := ownedIds[thread := {}];
        }
        if thread !in startedCount || startedCount[thread] == 0 {
          startedCount := startedCount[thread := 1];
          if turn != "" {
            ownedIds := ownedIds[thread := ownedIds[thread] + {turn}];
          }
          return true;
        }
        if turn != "" && turn in ownedIds[thread] {
          return true;
        }
      }
      unmanagedContinuations := unmanagedContinuations + [Continuation(thread, turn)];
      return false;
    }

    method BindResponse(thread: string, turn: string) returns (bound: bool)
      modifies this
      ensures bound == Accepts(old(State()), Bound(thread, turn))
      ensures State() == After(old(State()), Bound(thread, turn))
    {
      if thread !in openThreads {
        return false;
      }
      if turn != "" {
        ownedIds := ownedIds[thread := (if thread in ownedIds then ownedIds[thread] else {}) + {turn}];
      }
      return true;
    }

    method ObserveCompleted(thread: string, turn: string) returns (owned: bool)
      modifies this
      ensures owned == Accepts(old(State()), Completed(thread, turn))
      ensures State() == After(old(State()), Completed(thread, turn))
    {
      if thread !in openThreads {
        return false;
      }
      if thread !in ownedIds {
        ownedIds := ownedIds[thread := {}];
      }
      if turn != "" && thread in startedCount && startedCount[thread] > 0 && turn !in ownedIds[thread] {
        unmanagedContinuations := unmanagedContinuations + [Continuation(thread, turn)];
        return false;
      }
      if turn != "" {
        ownedIds := ownedIds[thread := ownedIds[thread] + {turn}];
      }
      return true;
    }

    method FinishControllerTurn(thread: string)
      modifies this
      ensures State() == After(old(State()), Finish(thread))
    {
      openThreads := openThreads - {thread};
      ownedIds := ownedIds - {thread};
      startedCount := startedCount - {thread};
    }
  }

  // ---------- threads do not affect each other ----------

  /** What the registry knows of one thread. */
  datatype Slice = Slice(open: bool, owned: Option<set<string>>, started: Option<nat>, unmanaged: seq<Continuation>)

  function Of(cs: seq<Continuation>, thread: string): seq<Continuation> {
    if cs == [] then []
    else Of(cs[..|cs| - 1], thread) + if cs[|cs| - 1].thread == thread then [cs[|cs| - 1]] else []
  }

  function SliceOf(o: Ownership, thread: string): Slice {
    Slice(thread in o.open,
          if thread in o.owned then Some(o.owned[thread]) else None,
          if thread in o.started then Some(o.started[thread]) else None,
          Of(o.unmanaged, thread))
  }

  function Only(es: seq<Event>, thread: string): seq<Event> {
    if es == [] then []
    else Only(es[..|es| - 1], thread) + if es[|es| - 1].thread == thread then [es[|es| - 1]] else []
  }

  lemma {:induction false} RecordedInSlice(cs: seq<Continuation>, thread: string)
    ensures Of(cs, thread) != [] <==> exists c :: c in cs && c.thread == thread
  {
    if cs != [] {
      var front, last := cs[..|cs| - 1], cs[|cs| - 1];
      RecordedInSlice(front, thread);
      assert cs == front + [last];
      assert forall c :: c in cs <==> c in front || c == last;
      if last.thread == thread {
        assert last in cs;
      }
    }
  }

  lemma OfAppend(cs: seq<Continuation>, c: Continuation, thread: string)
    ensures Of(cs + [c], thread) == Of(cs, thread) + if c.thread == thread then [c] else []
  {
    assert (cs + [c])[..|cs|] == cs;
  }

  lemma AppendedSlices(o: Ownership, e: Event, thread: string)
    ensures SliceOf(After(o, e), thread).unmanaged
         == Of(o.unmanaged, thread)
          + if e.thread == thread && |After(o, e).unmanaged| > |o.unmanaged| then [Continuation(thread, e.turn)] else []
  {
    var now := After(o, e).unmanaged;
    if e.Started? || e.Completed? {
      OfAppend(o.unmanaged, Continuation(e.thread, e.turn), thread);
      assert now == o.unmanaged || now == o.unmanaged + [Continuation(e.thread, e.turn)];
    } else {
      assert now == o.unmanaged;
    }
  }

  /** A call about a thread is answered by what the registry knows of the thread alone. */
  lemma AnswerIsLocal(a: Ownership, b: Ownership, e: Event)
    requires SliceOf(a, e.thread) == SliceOf(b, e.thread)
    ensures Accepts(a, e) == Accepts(b, e)
  {
    RecordedInSlice(a.unmanaged, e.thread);
    RecordedInSlice(b.unmanaged, e.thread);
  }

  /** Two registries hold the same sets about a thread. */
  predicate Alike(a: Ownership, b: Ownership, thread: string) {
    && (thread in a.open <==> thread in b.open)
    && (thread in a.owned <==> thread in b.owned)
    && (thread in a.owned ==> a.owned[thread] == b.owned[thread])
    && (thread in a.started <==> thread in b.started)
    && (thread in a.started ==> a.started[thread] == b.started[thread])
  }

  lemma SetsAreLocal(a: Ownership, b: Ownership, e: Event)
    requires Alike(a, b, e.thread) && Accepts(a, e) == Accepts(b, e)
    ensures Alike(After(a, e), After(b, e), e.thread)
    ensures |After(a, e).unmanaged| > |a.unmanaged| <==> |After(b, e).unmanaged| > |b.unmanaged|
  {
  }

  /** So is the change it makes to that thread. */
  lemma StepIsLocal(a: Ownership, b: Ownership, e: Event)
    requires SliceOf(a, e.thread) == SliceOf(b, e.thread)
    ensures SliceOf(After(a, e), e.thread) == SliceOf(After(b, e), e.thread)
  {
    AnswerIsLocal(a, b, e);
    SetsAreLocal(a, b, e);
    AppendedSlices(a, e, e.thread);
    AppendedSlices(b, e, e.thread);
  }

  lemma SetsOfOthers(o: Ownership, e: Event, thread: string)
    requires e.thread != thread
    ensures Alike(o, After(o, e), thread)
  {
  }

  lemma StepLeavesOthers(o: Ownership, e: Event, thread: string)
    requires e.thread != thread
    ensures SliceOf(After(o, e), thread) == SliceOf(o, thread)
  {
    SetsOfOthers(o, e, thread);
    AppendedSlices(o, e, thread);
  }

  /** Dropping every call about other threads changes nothing a thread can see. */
  lemma {:induction false} ThreadsIndependent(a: Ownership, b: Ownership, es: seq<Event>, thread: string)
    requires SliceOf(a, thread) == SliceOf(b, thread)
    ensures SliceOf(Run(a, es), thread) == SliceOf(Run(b, Only(es, thread)), thread)
    ensures forall e: Event :: e.thread == thread ==> Accepts(Run(a, es), e) == Accepts(Run(b, Only(es, thread)), e)
  {
    if es != [] {
      var front, last := es[..|es| - 1], es[|es| - 1];
      ThreadsIndependent(a, b, front, thread);
      if last.thread == thread {
        var own := Only(front, thread);
        assert (own + [last])[..|own|] == own;
        StepIsLocal(Run(a, front), Run(b, own), last);
      } else {
        StepLeavesOthers(Run(a, front), last, thread);
        assert Only(es, thread) == Only(front, thread);
      }
    }
    forall e: Event | e.thread == thread ensures Accepts(Run(a, es), e) == Accepts(Run(b, Only(es, thread)), e) {
      AnswerIsLocal(Run(a, es), Run(b, Only(es, thread)), e);
    }
  }

  // ---------- a recorded continuation closes the thread for good ----------

  lemma {:induction false} RecordsOnlyGrow(o: Ownership, es: seq<Event>)
    ensures o.unmanaged <= Run(o, es).unmanaged
  {
    if es != [] {
      RecordsOnlyGrow(o, es[..|es| - 1]);
    }
  }

  /** Once a continuation of a thread is recorded, no later `begin` on that thread succeeds. */
  lemma RecordedNeverBeginsAgain(o: Ownership, es: seq<Event>, thread: string)
    requires Recorded(o, thread)
    ensures !Accepts(Run(o, es), Begin(thread))
  {
    RecordsOnlyGrow(o, es);
    var c :| c in o.unmanaged && c.thread == thread;
    assert c in Run(o, es).unmanaged;
  }

  // ---------- exactly when a turn raises no alarm ----------

  /** The calls between the `begin` of a turn and its `finish`; a second `begin` among them is refused. */
  predicate WithinTurn(es: seq<Event>, thread: string) {
    forall i :: 0 <= i < |es| ==> es[i].thread == thread && !es[i].Finish?
  }

  predicate Unstarted(es: seq<Event>, k: nat)
    requires k <= |es|
  {
    forall i :: 0 <= i < k ==> !es[i].Started?
  }

  /** Among the first `k` calls, the turn came to own this id: its response, its first start, or an early completion. */
  predicate Claims(es: seq<Event>, k: nat, turn: string)
    requires k <= |es|
  {
    exists i :: 0 <= i < k && Claiming(es, i, turn)
  }

  predicate Claiming(es: seq<Event>, i: nat, turn: string)
    requires i < |es|
  {
    && (es[i].Started? || es[i].Bound? || es[i].Completed?)
    && es[i].turn == turn
    && (es[i].Bound? || Unstarted(es, i))
  }

  /** Call `i` is one the controller should see. */
  predicate Expected(es: seq<Event>, i: nat)
    requires i < |es|
  {
    match es[i]
    case Started(_, x) => Unstarted(es, i) || (x != "" && Claims(es, i, x))
    case Completed(_, x) => x == "" || Unstarted(es, i) || Claims(es, i, x)
    case _ => true
  }

  /** The turn has just begun. */
  predicate JustBegun(o: Ownership, thread: string) {
    thread in o.open && OwnedIds(o, thread) == {} && Starts(o, thread) == 0
  }

  lemma ClaimsExtend(es: seq<Event>, turn: string)
    requires es != []
    ensures Claims(es, |es|, turn)
        <==> Claims(es[..|es| - 1], |es| - 1, turn) || Claiming(es, |es| - 1, turn)
    ensures Unstarted(es, |es|) <==> Unstarted(es[..|es| - 1], |es| - 1) && !es[|es| - 1].Started?
  {
    var front := es[..|es| - 1];
    assert forall i :: 0 <= i < |front| ==> front[i] == es[i];
    assert forall i :: 0 <= i < |front| ==> Claiming(front, i, turn) == Claiming(es, i, turn);
  }

  /** The owned ids are exactly the claimed ones, whatever else arrived. */
  lemma {:induction false} OwnedAreClaimed(o: Ownership, es: seq<Event>, thread: string)
    requires JustBegun(o, thread) && WithinTurn(es, thread)
    ensures thread in Run(o, es).open
    ensures Starts(Run(o, es), thread) == 0 <==> Unstarted(es, |es|)
    ensures forall x :: x in OwnedIds(Run(o, es), thread) <==> x != "" && Claims(es, |es|, x)
  {
    if es != [] {
      var front, last := es[..|es| - 1], es[|es| - 1];
      OwnedAreClaimed(o, front, thread);
      forall x ensures x in OwnedIds(Run(o, es), thread) <==> x != "" && Claims(es, |es|, x) {
        ClaimsExtend(es, x);
        assert Unstarted(es, |front|) == Unstarted(front, |front|);
      }
      ClaimsExtend(es, "");
    }
  }

  lemma ExpectedPrefix(es: seq<Event>, i: nat)
    requires i + 1 < |es|
    ensures Expected(es[..|es| - 1], i) == Expected(es, i)
  {
    var front := es[..|es| - 1];
    assert Unstarted(front, i) == Unstarted(es, i);
    if es[i].Started? || es[i].Completed? {
      var x := es[i].turn;
      assert forall j :: 0 <= j < i ==> Claiming(front, j, x) == Claiming(es, j, x);
    }
  }

  lemma LastExpected(o: Ownership, es: seq<Event>, thread: string)
    requires JustBegun(o, thread) && WithinTurn(es, thread) && es != []
    ensures es[|es| - 1].Begin? || Accepts(Run(o, es[..|es| - 1]), es[|es| - 1]) == Expected(es, |es| - 1)
  {
    var front, last := es[..|es| - 1], es[|es| - 1];
    OwnedAreClaimed(o, front, thread);
    assert Unstarted(front, |front|) == Unstarted(es, |front|);
    if last.Started? || last.Completed? {
      assert forall j :: 0 <= j < |front| ==> Claiming(front, j, last.turn) == Claiming(es, j, last.turn);
    }
  }

  /**
   * A turn raises no alarm exactly when each start after the first, and each
   * completion after the first start, carries an id the turn already claimed.
   */
  lemma {:induction false} QuietIff(o: Ownership, es: seq<Event>, thread: string)
    requires JustBegun(o, thread) && WithinTurn(es, thread)
    ensures Run(o, es).unmanaged == o.unmanaged <==> forall i :: 0 <= i < |es| ==> Expected(es, i)
  {
    if es != [] {
      var front, last := es[..|es| - 1], es[|es| - 1];
      QuietIff(o, front, thread);
      OwnedAreClaimed(o, front, thread);
      LastExpected(o, es, thread);
      RecordsOnlyGrow(o, front);
      forall i | 0 <= i < |front| ensures Expected(front, i) == Expected(es, i) {
        ExpectedPrefix(es, i);
      }
      assert Run(o, es).unmanaged == Run(o, front).unmanaged <==> last.Begin? || Accepts(Run(o, front), last);
    }
  }

  /** One turn under two ids: the stream says `stream`, the response says `response`. */
  predicate TwoNames(es: seq<Event>, stream: string, response: string) {
    forall i :: 0 <= i < |es| ==>
      match es[i]
      case Started(_, x) => x == stream
      case Completed(_, x) => x == stream
      case Bound(_, x) => x == response
      case _ => true
  }

  /** Whatever the order and the repetition of its start, its completion and its response, one turn is never an alarm. */
  lemma OneTurnIsQuiet(o: Ownership, es: seq<Event>, thread: string, stream: string, response: string)
    requires JustBegun(o, thread) && WithinTurn(es, thread)
    requires stream != "" && TwoNames(es, stream, response)
    ensures Run(o, es).unmanaged == o.unmanaged
    ensures forall e :: (e == Started(thread, stream) || e == Completed(thread, stream)) ==> Accepts(Run(o, es), e)
  {
    forall i | 0 <= i < |es| ensures Expected(es, i) {
      FirstStartClaims(es, i, thread, stream, response);
    }
    QuietIff(o, es, thread);
    OwnedAreClaimed(o, es, thread);
    FirstStartClaims(es, |es|, thread, stream, response);
  }

  lemma {:induction false} FirstStartClaims(es: seq<Event>, k: nat, thread: string, stream: string, response: string)
    requires WithinTurn(es, thread) && TwoNames(es, stream, response) && k <= |es|
    ensures Unstarted(es, k) || Claims(es, k, stream)
  {
    if k > 0 {
      FirstStartClaims(es, k - 1, thread, stream, response);
      if Unstarted(es, k - 1) && es[k - 1].Started? {
        assert Claiming(es, k - 1, stream);
      }
    }
  }

  /** After the first start, a start under an id the turn does not own is recorded, and ends the thread. */
  lemma StrayStartEndsThread(o: Ownership, es: seq<Event>, thread: string, turn: string, later: seq<Event>)
    requires JustBegun(o, thread) && WithinTurn(es, thread)
    requires !Unstarted(es, |es|) && !Claims(es, |es|, turn)
    ensures After(Run(o, es), Started(thread, turn)).unmanaged == Run(o, es).unmanaged + [Continuation(thread, turn)]
    ensures !Accepts(Run(After(Run(o, es), Started(thread, turn)), later), Begin(thread))
  {
    OwnedAreClaimed(o, es, thread);
    var stray := After(Run(o, es), Started(thread, turn));
    assert stray.unmanaged[|Run(o, es).unmanaged|] == Continuation(thread, turn);
    RecordedNeverBeginsAgain(stray, later, thread);
  }
}
