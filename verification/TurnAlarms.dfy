/** Every continuation the registry records over any list of calls, from the day it is made. */
module TurnAlarms {
  import opened Prelude
  import opened TurnOwnership

  // ---------- the reference ----------

  /** Where the open turn of the thread began, if it has one: after its last `begin` that found no turn open and no
      alarm raised on the thread, with no `finish` since. */
  function WindowOf(es: seq<Event>, thread: string): (w: Option<nat>)
    ensures w.Some? ==> w.value <= |es|
    decreases |es|, 0
  {
    if es == [] then None
    else
      var front, last := es[..|es| - 1], es[|es| - 1];
      var open := WindowOf(front, thread);
      if last == Finish(thread) then None
      else if last == Begin(thread) && open.None? && Of(Alarms(front), thread) == [] then Some(|es|)
      else open
  }

  /** The last call is one the controller should not see: a start outside every turn, or a start or completion its turn
      does not expect. */
  predicate Alarming(es: seq<Event>)
    requires es != []
    decreases |es|, 1
  {
    var front, last := es[..|es| - 1], es[|es| - 1];
    match WindowOf(front, last.thread)
    case None => last.Started?
    case Some(w) => var turn := Only(front[w..], last.thread) + [last]; !Expected(turn, |turn| - 1)
  }

  /** The alarming starts and completions, in order. */
  function Alarms(es: seq<Event>): seq<Continuation>
    decreases |es|, 2
  {
    if es == [] then []
    else
      var last := es[|es| - 1];
      Alarms(es[..|es| - 1])
      + if (last.Started? || last.Completed?) && Alarming(es) then [Continuation(last.thread, last.turn)] else []
  }

  // ---------- the registry meets it ----------

  lemma {:induction false} RunConcat(o: Ownership, a: seq<Event>, b: seq<Event>)
    ensures Run(o, a + b) == Run(Run(o, a), b)
  {
    if b == [] {
      assert a + b == a;
    } else {
      assert (a + b)[..|a + b| - 1] == a + b[..|b| - 1];
      RunConcat(o, a, b[..|b| - 1]);
    }
  }

  /** The calls since the window opened are those of one turn. */
  ghost predicate Within(es: seq<Event>, thread: string, w: nat)
    requires w <= |es|
  {
    && JustBegun(Run(UNOWNED, es[..w]), thread)
    && forall i :: w <= i < |es| ==> es[i] != Finish(thread)
  }

  lemma {:induction false} OnlyWithin(es: seq<Event>, thread: string)
    requires forall i :: 0 <= i < |es| ==> es[i] != Finish(thread)
    ensures WithinTurn(Only(es, thread), thread)
  {
    if es != [] {
      OnlyWithin(es[..|es| - 1], thread);
    }
  }

  /** What a thread sees of a registry inside a window is what its own calls made of it. */
  lemma WindowState(es: seq<Event>, thread: string, w: nat)
    requires w <= |es| && Within(es, thread, w)
    ensures var began, turn := Run(UNOWNED, es[..w]), Only(es[w..], thread);
            && WithinTurn(turn, thread)
            && SliceOf(Run(UNOWNED, es), thread) == SliceOf(Run(began, turn), thread)
            && thread in Run(UNOWNED, es).open
  {
    var began := Run(UNOWNED, es[..w]);
    assert es == es[..w] + es[w..];
    RunConcat(UNOWNED, es[..w], es[w..]);
    OnlyWithin(es[w..], thread);
    ThreadsIndependent(began, began, es[w..], thread);
    OwnedAreClaimed(began, Only(es[w..], thread), thread);
  }

  /** Inside a window a start or completion is answered as its turn expects. */
  lemma AnswerInWindow(es: seq<Event>, e: Event, w: nat)
    requires w <= |es| && Within(es, e.thread, w) && (e.Started? || e.Completed?)
    ensures var turn := Only(es[w..], e.thread) + [e];
            Accepts(Run(UNOWNED, es), e) == Expected(turn, |turn| - 1)
  {
    var began, turn := Run(UNOWNED, es[..w]), Only(es[w..], e.thread) + [e];
    WindowState(es, e.thread, w);
    AnswerIsLocal(Run(UNOWNED, es), Run(began, Only(es[w..], e.thread)), e);
    assert turn[..|turn| - 1] == Only(es[w..], e.thread);
    LastExpected(began, turn, e.thread);
  }

  /** What the reference says of a thread is so. */
  ghost predicate Tracks(es: seq<Event>, thread: string) {
    match WindowOf(es, thread)
    case None => thread !in Run(UNOWNED, es).open
    case Some(w) => Within(es, thread, w)
  }

  lemma {:induction false} OthersKeepWindow(es: seq<Event>, e: Event, thread: string, w: nat)
    requires w <= |es| && Within(es, thread, w) && e != Finish(thread)
    ensures Within(es + [e], thread, w)
  {
    assert (es + [e])[..w] == es[..w];
  }

  lemma BeginTracks(es: seq<Event>, thread: string)
    requires Tracks(es, thread) && Run(UNOWNED, es).unmanaged == Alarms(es)
    ensures Tracks(es + [Begin(thread)], thread)
  {
    var longer, o := es + [Begin(thread)], Run(UNOWNED, es);
    assert longer[..|es|] == es && longer[..|longer|] == longer;
    RecordedInSlice(o.unmanaged, thread);
    if WindowOf(es, thread).Some? {
      WindowState(es, thread, WindowOf(es, thread).value);
      OthersKeepWindow(es, Begin(thread), thread, WindowOf(es, thread).value);
    }
  }

  lemma OtherTracks(es: seq<Event>, e: Event, thread: string)
    requires Tracks(es, thread) && e != Begin(thread)
    ensures Tracks(es + [e], thread)
  {
    assert (es + [e])[..|es|] == es;
    if WindowOf(es, thread).Some? && e != Finish(thread) {
      OthersKeepWindow(es, e, thread, WindowOf(es, thread).value);
    }
  }

  lemma TracksNext(es: seq<Event>, e: Event, thread: string)
    requires Tracks(es, thread) && Run(UNOWNED, es).unmanaged == Alarms(es)
    ensures Tracks(es + [e], thread)
  {
    if e == Begin(thread) {
      BeginTracks(es, thread);
    } else {
      OtherTracks(es, e, thread);
    }
  }

  lemma {:induction false} RegistryTracks(es: seq<Event>, thread: string)
    ensures Run(UNOWNED, es).unmanaged == Alarms(es) && Tracks(es, thread)
  {
    if es != [] {
      var front, last := es[..|es| - 1], es[|es| - 1];
      assert es == front + [last];
      RegistryTracks(front, thread);
      RegistryTracks(front, last.thread);
      TracksNext(front, last, thread);
      var w := WindowOf(front, last.thread);
      if (last.Started? || last.Completed?) && w.Some? {
        AnswerInWindow(front, last, w.value);
      }
      OpenIff(front, last.thread);
      AlarmNext(front, last);
    }
  }

  /** What one call appends to the record. */
  lemma Appended(o: Ownership, e: Event)
    ensures After(o, e).unmanaged == o.unmanaged
            + if (e.Started? && !Accepts(o, e)) || (e.Completed? && e.thread in o.open && !Accepts(o, e))
              then [Continuation(e.thread, e.turn)] else []
  {
  }

  lemma AlarmsNext(es: seq<Event>, e: Event)
    ensures Alarms(es + [e]) == Alarms(es)
            + if (e.Started? || e.Completed?) && Alarming(es + [e]) then [Continuation(e.thread, e.turn)] else []
    ensures Alarming(es + [e]) <==>
              match WindowOf(es, e.thread)
              case None => e.Started?
              case Some(w) => var turn := Only(es[w..], e.thread) + [e]; !Expected(turn, |turn| - 1)
  {
    assert (es + [e])[..|es|] == es;
  }

  /** A start or completion is recorded exactly when it is alarming, and nothing else is recorded. */
  lemma AlarmNext(es: seq<Event>, e: Event)
    requires Run(UNOWNED, es).unmanaged == Alarms(es)
    requires e.thread in Run(UNOWNED, es).open <==> WindowOf(es, e.thread).Some?
    requires var w := WindowOf(es, e.thread);
             (e.Started? || e.Completed?) && w.Some? ==>
               var turn := Only(es[w.value..], e.thread) + [e];
               Accepts(Run(UNOWNED, es), e) == Expected(turn, |turn| - 1)
    ensures After(Run(UNOWNED, es), e).unmanaged == Alarms(es + [e])
  {
    AlarmsNext(es, e);
    Appended(Run(UNOWNED, es), e);
  }

  lemma OpenIff(es: seq<Event>, thread: string)
    requires Tracks(es, thread)
    ensures thread in Run(UNOWNED, es).open <==> WindowOf(es, thread).Some?
  {
    if WindowOf(es, thread).Some? {
      WindowState(es, thread, WindowOf(es, thread).value);
    }
  }

  /**
   * Over any list of calls the registry records, in order, exactly the starts that
   * come outside every turn of their thread and the starts and completions a turn
   * does not expect; and a thread is open exactly while the reference says so.
   */
  lemma RecordedAreAlarms(es: seq<Event>)
    ensures Run(UNOWNED, es).unmanaged == Alarms(es)
    ensures forall t :: t in Run(UNOWNED, es).open <==> WindowOf(es, t).Some?
  {
    RegistryTracks(es, "");
    forall t ensures t in Run(UNOWNED, es).open <==> WindowOf(es, t).Some? {
      RegistryTracks(es, t);
      if WindowOf(es, t).Some? {
        WindowState(es, t, WindowOf(es, t).value);
      }
    }
  }

  /** `begin` is accepted exactly when the thread has no turn open and never raised an alarm. */
  lemma BeginsIff(es: seq<Event>, thread: string)
    ensures Accepts(Run(UNOWNED, es), Begin(thread)) <==>
              WindowOf(es, thread).None? && forall c :: c in Alarms(es) ==> c.thread != thread
  {
    RecordedAreAlarms(es);
  }

  /** In any registry, a start on a thread without an open turn is recorded, and ends the thread. */
  lemma StartOutsideEndsThread(o: Ownership, thread: string, turn: string, later: seq<Event>)
    requires thread !in o.open
    ensures After(o, Started(thread, turn)).unmanaged == o.unmanaged + [Continuation(thread, turn)]
    ensures !Accepts(o, Started(thread, turn))
    ensures !Accepts(Run(After(o, Started(thread, turn)), later), Begin(thread))
  {
    var after := After(o, Started(thread, turn));
    assert after.unmanaged[|o.unmanaged|] == Continuation(thread, turn);
    RecordedNeverBeginsAgain(after, later, thread);
  }

  /** A completion on a thread without an open turn is not accepted, and leaves the registry as it was. */
  lemma CompletionOutsideIsIgnored(o: Ownership, thread: string, turn: string)
    requires thread !in o.open
    ensures After(o, Completed(thread, turn)) == o && !Accepts(o, Completed(thread, turn))
  {
  }

  /** Over any list of calls the registry keeps ids and a count of starts exactly for the threads with an open turn. */
  lemma {:induction false} OnlyOpenTracked(es: seq<Event>)
    ensures var o := Run(UNOWNED, es); o.owned.Keys == o.open && o.started.Keys == o.open
  {
    if es != [] {
      OnlyOpenTracked(es[..|es| - 1]);
    }
  }
}
