/** Exactly which texts the terminal parser reads differently when they arrive in pieces, whatever `\d` accepts. */
module TerminalCuts {
  import opened Prelude
  import opened ChunkedReading
  import opened TerminalInput

  /** A digit of `\d` that is not an ASCII digit. */
  predicate Foreign(digits: Digits, c: char) {
    digits(c).Some? && !AsciiDigit(c)
  }

  /** Reading `s + t`, a mouse report begins in `s`, has a foreign digit there and ends in `t`. */
  predicate Torn(digits: Digits, s: string, t: string)
    decreases |s|
  {
    s != [] &&
    match NextMove(digits, s + t)
    case Wait => false
    case Consume(n, _) =>
      if n <= |s| then Torn(digits, s[n..], t)
      else MOUSE_PREFIX <= s && exists k :: 3 <= k < |s| && Foreign(digits, s[k])
  }

  /** No character starts a key, a report or a Windows key. */
  predicate Plain(s: string) {
    forall k :: 0 <= k < |s| ==> s[k] !in {ESC, '\0', '\U{E0}'}
  }

  predicate PlainIn(s: string, i: nat, e: nat) {
    forall k :: i <= k < e && k < |s| ==> s[k] !in {ESC, '\0', '\U{E0}'}
  }

  lemma {:induction false} WithoutEscapeNotTorn(digits: Digits, s: string, t: string)
    requires forall k :: 0 <= k < |s| ==> s[k] != ESC
    ensures !Torn(digits, s, t)
    decreases |s|
  {
    if s != [] {
      var m := NextMove(digits, s + t);
      if m.Consume? && m.n <= |s| {
        WithoutEscapeNotTorn(digits, s[m.n..], t);
      }
      if MOUSE_PREFIX <= s {
        ReportEscapes(s);
      }
    }
  }

  lemma ReportEscapes(s: string)
    requires MOUSE_PREFIX <= s
    ensures s[0] == ESC
  {
    assert s[0] == MOUSE_PREFIX[0];
  }

  lemma NotTornByMove(digits: Digits, s: string, t: string)
    requires s != [] && forall k :: 1 <= k < |s| ==> s[k] != ESC
    requires MOUSE_PREFIX <= s ==> forall k :: 3 <= k < |s| ==> !Foreign(digits, s[k])
    ensures !Torn(digits, s, t)
  {
    var m := NextMove(digits, s + t);
    if m.Consume? && m.n <= |s| {
      WithoutEscapeNotTorn(digits, s[m.n..], t);
    }
  }

  /** A part the parser waits on is not torn. */
  lemma WaitingNotTorn(digits: Digits, s: string, t: string)
    requires Decimal(digits) && s != [] && NextMove(digits, s).Wait?
    ensures !Torn(digits, s, t)
  {
    if !(MOUSE_PREFIX <= s) && BeginsKey(s) {
      KeyPrefixOneEscape(s);
    }
    NotTornByMove(digits, s, t);
  }

  lemma KeyPrefixOneEscape(s: string)
    requires BeginsKey(s)
    ensures forall k :: 1 <= k < |s| ==> s[k] != ESC
  {
    var j :| 0 <= j < |KEYS| && s <= KEYS[j].0;
    assert forall k :: 1 <= k < |KEYS[j].0| ==> KEYS[j].0[k] != ESC;
  }

  /** A report of the whole that ends in the first part is a report of it. */
  lemma ReportWithin(digits: Digits, s: string, t: string)
    requires Mouse(digits, s + t).Some? && Mouse(digits, s + t).value.end <= |s|
    ensures Mouse(digits, s).Some?
  {
    var a, b, c := MouseHasFields(digits, s + t);
    FieldsAreMouse(digits, s + t, a, b, c);
    FieldsWithin(digits, s, t, a, b, c);
    FieldsAreMouse(digits, s, a, b, c);
  }

  /** The whole starts with a report that ends in the second part and has a foreign digit in the first. */
  predicate TornHere(digits: Digits, s: string, t: string) {
    && s != [] && MOUSE_PREFIX <= s
    && Mouse(digits, s + t).Some? && Mouse(digits, s + t).value.end > |s|
    && exists k :: 3 <= k < |s| && Foreign(digits, s[k])
  }

  /** Unless a report is torn right here, a move on the first part is one on the whole. */
  lemma MoveKept(digits: Digits, s: string, t: string)
    requires s != [] && NextMove(digits, s).Consume? && !TornHere(digits, s, t)
    ensures NextMove(digits, s + t) == NextMove(digits, s)
  {
    if MOUSE_PREFIX <= s {
      if Mouse(digits, s).Some? {
        MouseStable(digits, s, t);
      } else {
        BrokenKept(digits, s, t);
      }
    } else {
      KeyMoveStable(digits, s, t);
    }
  }

  lemma BrokenKept(digits: Digits, s: string, t: string)
    requires MOUSE_PREFIX <= s && Mouse(digits, s).None? && !Unfinished(s) && !TornHere(digits, s, t)
    ensures NextMove(digits, s + t) == NextMove(digits, s)
  {
    var k :| 3 <= k < |s| && !AsciiDigit(s[k]) && s[k] != ';';
    assert (s + t)[k] == s[k];
    PrefixKept(MOUSE_PREFIX, s, t);
    if Mouse(digits, s + t).Some? {
      if Mouse(digits, s + t).value.end <= |s| {
        ReportWithin(digits, s, t);
      } else {
        var a, b, c := MouseHasFields(digits, s + t);
        FieldsAreMouse(digits, s + t, a, b, c);
        ReportCharacters(digits, s + t, a, b, c, k);
        assert Foreign(digits, s[k]);
      }
    }
  }

  /** A torn report is dropped character by character from the first part, and so is the rest of it from the second. */
  lemma TornDropped(digits: Digits, s: string, t: string)
    requires Decimal(digits) && TornHere(digits, s, t)
    ensures var u := s + t;
            var n := Mouse(digits, u).value.end;
            && Drain(Reader(digits), s) == Drained([], "")
            && Drain(Reader(digits), t) == Drain(Reader(digits), u[n..])
  {
    var u := s + t;
    TornFirst(digits, s, t);
    TornPlain(digits, s, t);
    PlainRangeDropped(digits, u, |s|, Mouse(digits, u).value.end);
    assert u[|s|..] == t;
  }

  /** The characters of a report past its first are plain. */
  lemma TornPlain(digits: Digits, s: string, t: string)
    requires Decimal(digits) && TornHere(digits, s, t)
    ensures Plain(s[1..]) && PlainIn(s + t, 1, Mouse(digits, s + t).value.end)
  {
    var u := s + t;
    var a, b, c := MouseHasFields(digits, u);
    FieldsAreMouse(digits, u, a, b, c);
    forall k | 1 <= k <= c ensures u[k] !in {ESC, '\0', '\U{E0}'} {
      if k < 3 {
        assert u[k] == MOUSE_PREFIX[k];
      } else if k < c {
        ReportCharacters(digits, u, a, b, c, k);
      }
    }
    forall k | 0 <= k < |s[1..]| ensures s[1..][k] !in {ESC, '\0', '\U{E0}'} {
      assert s[1..][k] == u[k + 1];
    }
  }

  lemma TornFirst(digits: Digits, s: string, t: string)
    requires Decimal(digits) && TornHere(digits, s, t)
    ensures Drain(Reader(digits), s) == Drained([], "")
  {
    var k :| 3 <= k < |s| && Foreign(digits, s[k]);
    if Mouse(digits, s).Some? {
      MouseStable(digits, s, t);
    }
    assert !Unfinished(s);
    ReaderMoves(digits, s);
    DrainOne(Reader(digits), s);
    TornPlain(digits, s, t);
    PlainTextDropped(digits, s[1..]);
  }

  lemma {:induction false} PlainRangeDropped(digits: Digits, s: string, i: nat, e: nat)
    requires i <= e <= |s| && PlainIn(s, i, e)
    ensures Drain(Reader(digits), s[i..]) == Drain(Reader(digits), s[e..])
    decreases e - i
  {
    if i < e {
      assert s[i..] == [s[i]] + s[i + 1..];
      PlainDropped(digits, s[i], s[i + 1..]);
      PlainRangeDropped(digits, s, i + 1, e);
    }
  }

  /** Reading in two pieces, compared with reading in one. */
  predicate Compared(digits: Digits, s: string, t: string, lost: nat) {
    Short(TwoReads(Reader(digits), s, t), Drain(Reader(digits), s + t), lost)
  }

  lemma ReportRead(digits: Digits, s: string)
    requires MOUSE_PREFIX <= s && Mouse(digits, s).Some?
    ensures |Drain(Reader(digits), s).actions| == |Drain(Reader(digits), s[Mouse(digits, s).value.end..]).actions| + 1
    ensures Drain(Reader(digits), s).pending == Drain(Reader(digits), s[Mouse(digits, s).value.end..]).pending
  {
    ReaderMoves(digits, s);
    DrainOne(Reader(digits), s);
  }

  lemma TornHereIsTorn(digits: Digits, s: string, t: string)
    requires TornHere(digits, s, t)
    ensures Torn(digits, s, t)
  {
    PrefixKept(MOUSE_PREFIX, s, t);
  }

  lemma TornCompared(digits: Digits, s: string, t: string)
    requires Decimal(digits) && TornHere(digits, s, t)
    ensures Torn(digits, s, t) && Compared(digits, s, t, 1)
  {
    TornHereIsTorn(digits, s, t);
    TornDropped(digits, s, t);
    PrefixKept(MOUSE_PREFIX, s, t);
    ReportRead(digits, s + t);
    NothingFirst(Reader(digits), s, t);
  }

  lemma NothingFirst<A>(move: string -> Move<A>, s: string, t: string)
    requires Drain(move, s).actions == []
    ensures TwoReads(move, s, t) == Drain(move, Drain(move, s).pending + t)
    ensures Drain(move, s).pending == "" ==> TwoReads(move, s, t) == Drain(move, t)
  {
    assert "" + t == t;
  }

  lemma StepCompared(digits: Digits, s: string, t: string, lost: nat)
    requires s != [] && NextMove(digits, s).Consume? && NextMove(digits, s + t) == NextMove(digits, s)
    requires Compared(digits, s[NextMove(digits, s).n..], t, lost)
    ensures Compared(digits, s, t, lost)
  {
    SameMoveShort(Reader(digits), s, t, lost);
  }

  /** The actions a cut between `s` and `t` loses. */
  function Lost(digits: Digits, s: string, t: string): nat {
    if Torn(digits, s, t) then 1 else 0
  }

  /** Reading in two pieces loses exactly the action of a torn report, if there is one, and nothing else. */
  lemma {:induction false} TwoPieces(digits: Digits, s: string, t: string)
    requires Decimal(digits)
    ensures Compared(digits, s, t, Lost(digits, s, t))
    decreases |s|
  {
    if s == [] {
      NothingFirst(Reader(digits), s, t);
      assert s + t == t;
    } else if NextMove(digits, s).Wait? {
      WaitingNotTorn(digits, s, t);
      NothingFirst(Reader(digits), s, t);
    } else if TornHere(digits, s, t) {
      TornCompared(digits, s, t);
    } else {
      MoveKept(digits, s, t);
      TwoPieces(digits, s[NextMove(digits, s).n..], t);
      StepCompared(digits, s, t, Lost(digits, s[NextMove(digits, s).n..], t));
    }
  }

  /** How many of the cuts between the chunks tear a report, the text before the first chunk being pending. */
  function Tears(digits: Digits, pending: string, chunks: seq<string>): nat
    decreases |chunks|
  {
    if chunks == [] then 0
    else
      var head := pending + chunks[0];
      Lost(digits, head, Joined(chunks[1..])) + Tears(digits, Drain(Reader(digits), head).pending, chunks[1..])
  }

  lemma {:induction false} Pieces(digits: Digits, pending: string, chunks: seq<string>)
    requires Decimal(digits) && Drain(Reader(digits), pending) == Drained([], pending)
    requires Fits(Reader(digits), PENDING_LIMIT, pending, chunks)
    ensures Short(FedAll(Reader(digits), PENDING_LIMIT, pending, chunks),
                  Drain(Reader(digits), pending + Joined(chunks)), Tears(digits, pending, chunks))
    decreases |chunks|
  {
    if chunks == [] {
      assert pending + Joined(chunks) == pending;
    } else {
      var move, head, rest := Reader(digits), pending + chunks[0], Joined(chunks[1..]);
      var left := Drain(move, head).pending;
      DrainedTwice(move, head);
      Pieces(digits, left, chunks[1..]);
      TwoPieces(digits, head, rest);
      ShortNext(move, PENDING_LIMIT, pending, chunks, Tears(digits, left, chunks[1..]), Lost(digits, head, rest));
    }
  }

  /**
   * A fresh parser, fed a text in any chunks none of which overflows, keeps the same
   * text pending as reading it whole, and misses one action for each cut that tears a
   * report; so it reads the same exactly when no cut does.
   */
  lemma FeedingIsReadingIff(digits: Digits, chunks: seq<string>)
    requires Decimal(digits) && Fits(Reader(digits), PENDING_LIMIT, "", chunks)
    ensures var fed, whole := FedAll(Reader(digits), PENDING_LIMIT, "", chunks), Drain(Reader(digits), Joined(chunks));
            && fed.pending == whole.pending
            && |whole.actions| == |fed.actions| + Tears(digits, "", chunks)
            && (fed == whole <==> Tears(digits, "", chunks) == 0)
  {
    assert "" + Joined(chunks) == Joined(chunks);
    Pieces(digits, "", chunks);
  }
}
