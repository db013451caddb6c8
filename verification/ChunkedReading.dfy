/** A reader that consumes its pending text move by move, and waits when more text could change the next move. */
module ChunkedReading {
  import opened Prelude

  /** Wait for more text, or drop `n` characters and report at most one action. */
  datatype Move<A> = Wait | Consume(n: nat, action: Option<A>)

  datatype Drained<A> = Drained(actions: seq<A>, pending: string)

  predicate Advances<A>(move: string -> Move<A>, s: string) {
    s != [] && move(s).Consume? && 0 < move(s).n <= |s|
  }

  function Listed<A>(action: Option<A>): seq<A> {
    match action case Some(a) => [a] case None => []
  }

  /** Move until the text is used up or a move waits. */
  function Drain<A>(move: string -> Move<A>, s: string): Drained<A>
    decreases |s|
  {
    if !Advances(move, s) then Drained([], s)
    else
      var rest := Drain(move, s[move(s).n..]);
      Drained(Listed(move(s).action) + rest.actions, rest.pending)
  }

  function Clipped(s: string, limit: nat): string {
    if |s| <= limit then s else s[|s| - limit..]
  }

  /** One feed: at most the last `limit` characters of the pending text are kept. */
  function Fed<A>(move: string -> Move<A>, limit: nat, pending: string, text: string): Drained<A> {
    Drain(move, Clipped(pending + text, limit))
  }

  /** Feeding the chunks one after the other. */
  function FedAll<A>(move: string -> Move<A>, limit: nat, pending: string, chunks: seq<string>): Drained<A>
    decreases |chunks|
  {
    if chunks == [] then Drained([], pending)
    else
      var first := Fed(move, limit, pending, chunks[0]);
      var rest := FedAll(move, limit, first.pending, chunks[1..]);
      Drained(first.actions + rest.actions, rest.pending)
  }

  function Joined(chunks: seq<string>): string {
    if chunks == [] then "" else chunks[0] + Joined(chunks[1..])
  }

  /** No feed is clipped. */
  predicate Fits<A>(move: string -> Move<A>, limit: nat, pending: string, chunks: seq<string>)
    decreases |chunks|
  {
    chunks == [] ||
    (|pending + chunks[0]| <= limit && Fits(move, limit, Fed(move, limit, pending, chunks[0]).pending, chunks[1..]))
  }

  /** On texts of the kind `ok`, a move that was taken would also be taken if more text were there. */
  ghost predicate Steady<A(!new)>(move: string -> Move<A>, ok: string -> bool) {
    && (forall s, t {:trigger ok(s + t)} :: ok(s + t) <==> ok(s) && ok(t))
    && (forall s, t {:trigger move(s + t)} :: ok(s) && Advances(move, s) ==> move(s + t) == move(s))
  }

  lemma SuffixOk<A(!new)>(move: string -> Move<A>, ok: string -> bool, s: string, n: nat)
    requires Steady(move, ok) && ok(s) && n <= |s|
    ensures ok(s[n..])
  {
    assert s == s[..n] + s[n..];
    assert ok(s[..n] + s[n..]);
  }

  /** Draining a text is draining a first part, and then what that left together with the rest. */
  lemma {:induction false} DrainSplits<A(!new)>(move: string -> Move<A>, ok: string -> bool, s: string, t: string)
    requires Steady(move, ok) && ok(s)
    ensures var first := Drain(move, s);
            var second := Drain(move, first.pending + t);
            Drain(move, s + t) == Drained(first.actions + second.actions, second.pending)
    decreases |s|
  {
    if Advances(move, s) {
      var n := move(s).n;
      assert (s + t)[n..] == s[n..] + t;
      SuffixOk(move, ok, s, n);
      DrainSplits(move, ok, s[n..], t);
      Regroup(Listed(move(s).action), Drain(move, s[n..]).actions, Drain(move, Drain(move, s).pending + t).actions);
    }
  }

  lemma Regroup<A>(x: seq<A>, y: seq<A>, z: seq<A>)
    ensures x + (y + z) == (x + y) + z
  {
  }

  lemma {:induction false} PendingOk<A(!new)>(move: string -> Move<A>, ok: string -> bool, s: string)
    requires Steady(move, ok) && ok(s)
    ensures ok(Drain(move, s).pending)
    decreases |s|
  {
    if Advances(move, s) {
      SuffixOk(move, ok, s, move(s).n);
      PendingOk(move, ok, s[move(s).n..]);
    }
  }

  lemma {:induction false} DrainedTwice<A>(move: string -> Move<A>, s: string)
    ensures Drain(move, Drain(move, s).pending) == Drained([], Drain(move, s).pending)
    decreases |s|
  {
    if Advances(move, s) {
      DrainedTwice(move, s[move(s).n..]);
    }
  }

  /**
   * However the text is cut, the actions and the text left pending are those of
   * reading it in one piece, as long as no feed is clipped.
   */
  lemma {:induction false} ChunksDoNotMatter<A(!new)>(
      move: string -> Move<A>, ok: string -> bool, limit: nat, pending: string, chunks: seq<string>)
    requires Steady(move, ok) && Drain(move, pending) == Drained([], pending)
    requires ok(pending + Joined(chunks)) && Fits(move, limit, pending, chunks)
    ensures FedAll(move, limit, pending, chunks) == Drain(move, pending + Joined(chunks))
    decreases |chunks|
  {
    if chunks == [] {
      assert pending + Joined(chunks) == pending;
    } else {
      var head, rest := pending + chunks[0], Joined(chunks[1..]);
      var left := Drain(move, head).pending;
      assert pending + Joined(chunks) == head + rest;
      assert ok(head) && ok(rest);
      DrainSplits(move, ok, head, rest);
      PendingOk(move, ok, head);
      DrainedTwice(move, head);
      assert ok(left + rest);
      ChunksDoNotMatter(move, ok, limit, left, chunks[1..]);
    }
  }

  lemma FedOnce<A>(move: string -> Move<A>, limit: nat, s: string)
    requires |s| <= limit
    ensures FedAll(move, limit, "", [s]) == Drain(move, s)
  {
    var first := Drain(move, s);
    assert "" + s == s && [s][1..] == [];
    assert FedAll(move, limit, first.pending, []) == Drained([], first.pending);
    assert first.actions + [] == first.actions;
  }

  lemma FedTwice<A>(move: string -> Move<A>, limit: nat, s: string, t: string)
    requires |Drain(move, s).pending + t| <= limit && |s| <= limit
    ensures var first := Drain(move, s);
            var second := Drain(move, first.pending + t);
            FedAll(move, limit, "", [s, t]) == Drained(first.actions + second.actions, second.pending)
  {
    var first := Drain(move, s);
    var second := Drain(move, first.pending + t);
    assert "" + s == s && [s, t][1..] == [t] && [t][1..] == [];
    assert FedAll(move, limit, second.pending, []) == Drained([], second.pending);
    assert second.actions + [] == second.actions;
    assert FedAll(move, limit, first.pending, [t]) == second;
  }

  lemma {:induction false} PendingShorter<A>(move: string -> Move<A>, s: string)
    ensures |Drain(move, s).pending| <= |s|
    decreases |s|
  {
    if Advances(move, s) {
      PendingShorter(move, s[move(s).n..]);
    }
  }

  /** Two texts that do nothing alone, but something together. */
  lemma SilentHalves<A>(move: string -> Move<A>, limit: nat, s: string, t: string)
    requires Drain(move, s) == Drained([], "") && Drain(move, t) == Drained([], "")
    requires Drain(move, s + t).actions != [] && |s + t| <= limit
    ensures FedAll(move, limit, "", [s, t]) != FedAll(move, limit, "", [s + t])
  {
    assert "" + t == t;
    FedTwice(move, limit, s, t);
    FedOnce(move, limit, s + t);
  }

  // ---------- what a cut may lose ----------

  /** The pieces give the whole but for `lost` actions. */
  predicate Short<A(==)>(pieces: Drained<A>, whole: Drained<A>, lost: nat) {
    && pieces.pending == whole.pending
    && |whole.actions| == |pieces.actions| + lost
    && (lost == 0 ==> pieces == whole)
  }

  function After<A>(actions: seq<A>, rest: Drained<A>): Drained<A> {
    Drained(actions + rest.actions, rest.pending)
  }

  /** Reading a text in two pieces. */
  function TwoReads<A>(move: string -> Move<A>, s: string, t: string): Drained<A> {
    After(Drain(move, s).actions, Drain(move, Drain(move, s).pending + t))
  }

  lemma ShortAfter<A>(actions: seq<A>, pieces: Drained<A>, whole: Drained<A>, lost: nat)
    requires Short(pieces, whole, lost)
    ensures Short(After(actions, pieces), After(actions, whole), lost)
  {
  }

  lemma ShortTwice<A>(pieces: Drained<A>, middle: Drained<A>, whole: Drained<A>, m: nat, n: nat)
    requires Short(pieces, middle, m) && Short(middle, whole, n)
    ensures Short(pieces, whole, m + n)
  {
  }

  /** A move that is the same on the first part and on the whole loses nothing. */
  lemma SameMoveShort<A>(move: string -> Move<A>, s: string, t: string, lost: nat)
    requires Advances(move, s) && move(s + t) == move(s)
    requires Short(TwoReads(move, s[move(s).n..], t), Drain(move, s[move(s).n..] + t), lost)
    ensures Short(TwoReads(move, s, t), Drain(move, s + t), lost)
  {
    var n, found := move(s).n, Listed(move(s).action);
    var rest := s[n..];
    assert (s + t)[n..] == rest + t;
    ShortAfter(found, TwoReads(move, rest, t), Drain(move, rest + t), lost);
    Regroup(found, Drain(move, rest).actions, Drain(move, Drain(move, rest).pending + t).actions);
  }

  lemma FedNext<A>(move: string -> Move<A>, limit: nat, pending: string, chunks: seq<string>)
    requires chunks != [] && |pending + chunks[0]| <= limit
    ensures var first := Drain(move, pending + chunks[0]);
            FedAll(move, limit, pending, chunks)
            == After(first.actions, FedAll(move, limit, first.pending, chunks[1..]))
  {
  }

  lemma LaterShort<A>(move: string -> Move<A>, s: string, t: string, later: Drained<A>, m: nat, n: nat)
    requires Short(later, Drain(move, Drain(move, s).pending + t), m)
    requires Short(TwoReads(move, s, t), Drain(move, s + t), n)
    ensures Short(After(Drain(move, s).actions, later), Drain(move, s + t), m + n)
  {
    var first := Drain(move, s);
    ShortAfter(first.actions, later, Drain(move, first.pending + t), m);
    ShortTwice(After(first.actions, later), TwoReads(move, s, t), Drain(move, s + t), m, n);
  }

  lemma JoinedNext(pending: string, chunks: seq<string>)
    requires chunks != []
    ensures pending + Joined(chunks) == pending + chunks[0] + Joined(chunks[1..])
  {
  }

  /** Feeding the first chunk loses what cutting there does, the others what feeding them does. */
  lemma ShortNext<A>(move: string -> Move<A>, limit: nat, pending: string, chunks: seq<string>, m: nat, n: nat)
    requires chunks != [] && |pending + chunks[0]| <= limit
    requires var head, rest := pending + chunks[0], Joined(chunks[1..]);
             && Short(FedAll(move, limit, Drain(move, head).pending, chunks[1..]),
                      Drain(move, Drain(move, head).pending + rest), m)
             && Short(TwoReads(move, head, rest), Drain(move, head + rest), n)
    ensures Short(FedAll(move, limit, pending, chunks), Drain(move, pending + Joined(chunks)), m + n)
  {
    var head, rest := pending + chunks[0], Joined(chunks[1..]);
    var later := FedAll(move, limit, Drain(move, head).pending, chunks[1..]);
    LaterShort(move, head, rest, later, m, n);
    FedNext(move, limit, pending, chunks);
    JoinedNext(pending, chunks);
  }
}
