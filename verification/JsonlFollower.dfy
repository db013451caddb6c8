/** Reading an append-only JSONL file: all at once, and by following it as it grows. */
module JsonlFollower {
  import opened Prelude

  type Byte = b: int | 0 <= b < 256 witness 0
  type Bytes = seq<Byte>

  const NEWLINE: Byte := 10

  /** The bytes `strip` removes. */
  const BLANKS: set<Byte> := {9, 10, 11, 12, 13, 32}

  /** `data.split(b"\n")`: always at least one part. */
  function Split(data: Bytes): (parts: seq<Bytes>)
    ensures parts != []
  {
    if data == [] then [[]] else Prepended(data[0], Split(data[1..]))
  }

  /** A newline starts a new part; any other byte belongs to the first one. */
  function Prepended(b: Byte, parts: seq<Bytes>): (r: seq<Bytes>)
    requires parts != []
    ensures r != []
  {
    if b == NEWLINE then [[]] + parts else [[b] + parts[0]] + parts[1..]
  }

  function Complete(data: Bytes): seq<Bytes> {
    Split(data)[..|Split(data)| - 1]
  }

  function Tail(data: Bytes): Bytes {
    Split(data)[|Split(data)| - 1]
  }

  predicate Blank(raw: Bytes) {
    forall k :: 0 <= k < |raw| ==> raw[k] in BLANKS
  }

  /** The records of the lines, or none if some line that is not blank does not decode. */
  function Decoded<R>(decode: Bytes -> Option<R>, lines: seq<Bytes>): Option<seq<R>> {
    if lines == [] then Some([])
    else
      var front, last := Decoded(decode, lines[..|lines| - 1]), lines[|lines| - 1];
      if front.None? then None
      else if Blank(last) then front
      else if decode(last).None? then None
      else Some(front.value + [decode(last).value])
  }

  /** `load_events`: the records of the terminated lines. */
  function Loaded<R>(decode: Bytes -> Option<R>, data: Bytes): Option<seq<R>> {
    Decoded(decode, Complete(data))
  }

  /** The last `limit` records: a `deque` with that `maxlen`. */
  function Last<R>(records: seq<R>, limit: nat): seq<R> {
    if |records| <= limit then records else records[|records| - limit..]
  }

  /** `load_events`; the result is none where the source raises. */
  method LoadEvents<R>(decode: Bytes -> Option<R>, data: Bytes) returns (records: Option<seq<R>>)
    ensures records == Loaded(decode, data)
  {
    var parts := Split(data);
    if parts[|parts| - 1] != [] {
      parts := parts[..|parts| - 1];
    }
    LastIsBlank(decode, data);
    var found: seq<R> := [];
    var i := 0;
    while i < |parts|
      invariant 0 <= i <= |parts|
      invariant Decoded(decode, parts[..i]) == Some(found)
    {
      DecodedNext(decode, parts, i, found);
      if !Blank(parts[i]) {
        var record := decode(parts[i]);
        if record.None? {
          DecodedPrefix(decode, parts, i + 1);
          return None;
        }
        found := found + [record.value];
      }
      i := i + 1;
    }
    assert parts[..i] == parts;
    return Some(found);
  }

  /** An empty last part does not change what the lines decode to. */
  lemma LastIsBlank<R>(decode: Bytes -> Option<R>, data: Bytes)
    ensures Tail(data) == [] ==> Decoded(decode, Split(data)) == Decoded(decode, Complete(data))
  {
  }

  lemma DecodedNext<R>(decode: Bytes -> Option<R>, lines: seq<Bytes>, i: nat, found: seq<R>)
    requires i < |lines| && Decoded(decode, lines[..i]) == Some(found)
    ensures Decoded(decode, lines[..i + 1])
         == if Blank(lines[i]) then Some(found)
            else if decode(lines[i]).None? then None
            else Some(found + [decode(lines[i]).value])
  {
    assert lines[..i + 1][..i] == lines[..i];
  }

  lemma LastNext<R>(records: seq<R>, record: R, limit: nat)
    ensures Last(records + [record], limit) == Last(Last(records, limit) + [record], limit)
  {
  }

  lemma {:induction false} DecodedPrefix<R>(decode: Bytes -> Option<R>, lines: seq<Bytes>, k: nat)
    requires k <= |lines| && Decoded(decode, lines[..k]).None?
    ensures Decoded(decode, lines).None?
  {
    if k == |lines| {
      assert lines[..k] == lines;
    } else {
      assert lines[..|lines| - 1][..k] == lines[..k];
      DecodedPrefix(decode, lines[..|lines| - 1], k);
    }
  }

  class JsonlFollower<R(!new)> {
    const decode: Bytes -> Option<R>
    var pending: Bytes

    constructor (decode: Bytes -> Option<R>)
      ensures this.decode == decode && pending == []
    {
      this.decode := decode;
      pending := [];
    }

    /** The first read of the handle, `data`; a tail that is not positive decodes nothing. */
    method Initial(data: Bytes, tail: int) returns (records: Option<seq<R>>)
      modifies this
      ensures records == FirstRead(decode, data, tail)
      ensures records.Some? ==> pending == Tail(data)
      ensures records.None? ==> pending == old(pending)
    {
      var parts := Split(data);
      var kept: seq<R> := [];
      if tail > 0 {
        ghost var all: seq<R> := [];
        var i := 0;
        while i < |parts| - 1
          invariant 0 <= i <= |parts| - 1
          invariant pending == old(pending)
          invariant Decoded(decode, parts[..i]) == Some(all) && kept == Last(all, tail)
        {
          DecodedNext(decode, parts, i, all);
          if !Blank(parts[i]) {
            var event := decode(parts[i]);
            if event.None? {
              assert Complete(data)[..i + 1] == parts[..i + 1];
              DecodedPrefix(decode, Complete(data), i + 1);
              return None;
            }
            LastNext(all, event.value, tail);
            all := all + [event.value];
            kept := Last(kept + [event.value], tail);
          }
          i := i + 1;
        }
      }
      pending := parts[|parts| - 1];
      return Some(kept);
    }

    /** A later read of the handle, `chunk`. */
    method Poll(chunk: Bytes) returns (records: Option<seq<R>>)
      modifies this
      ensures records == Decoded(decode, Complete(old(pending) + chunk)) || chunk == []
      ensures chunk == [] ==> records == Some([]) && pending == old(pending)
      ensures chunk != [] ==> pending == Tail(old(pending) + chunk)
    {
      if chunk == [] {
        return Some([]);
      }
      var parts := Split(pending + chunk);
      ghost var lines := Complete(pending + chunk);
      pending := parts[|parts| - 1];
      var found: seq<R> := [];
      var i := 0;
      while i < |parts| - 1
        invariant 0 <= i <= |parts| - 1
        invariant pending == parts[|parts| - 1]
        invariant Decoded(decode, parts[..i]) == Some(found)
      {
        DecodedNext(decode, parts, i, found);
        if !Blank(parts[i]) {
          var event := decode(parts[i]);
          if event.None? {
            assert lines[..i + 1] == parts[..i + 1];
            DecodedPrefix(decode, lines, i + 1);
            return None;
          }
          found := found + [event.value];
        }
        i := i + 1;
      }
      return Some(found);
    }
  }

  function FirstRead<R>(decode: Bytes -> Option<R>, data: Bytes, tail: int): Option<seq<R>> {
    if tail <= 0 then Some([])
    else match Loaded(decode, data)
      case None => None
      case Some(all) => Some(Last(all, tail))
  }

  // ---------- following is loading ----------

  /** The records of the later reads, one after the other. */
  function Followed<R>(decode: Bytes -> Option<R>, pending: Bytes, chunks: seq<Bytes>): Option<seq<R>>
    decreases |chunks|
  {
    if chunks == [] then Some([])
    else
      var data := pending + chunks[0];
      var first, rest := Loaded(decode, data), Followed(decode, Tail(data), chunks[1..]);
      if first.None? || rest.None? then None else Some(first.value + rest.value)
  }

  function Joined(chunks: seq<Bytes>): Bytes {
    if chunks == [] then [] else chunks[0] + Joined(chunks[1..])
  }

  /** The parts of a text continued by another: the last part and the first one join. */
  function Continued(x: seq<Bytes>, y: seq<Bytes>): seq<Bytes>
    requires x != [] && y != []
  {
    x[..|x| - 1] + ([x[|x| - 1] + y[0]] + y[1..])
  }

  lemma PrependedContinued(b: Byte, x: seq<Bytes>, y: seq<Bytes>)
    requires x != [] && y != []
    ensures Prepended(b, Continued(x, y)) == Continued(Prepended(b, x), y)
  {
    var p, q := Prepended(b, Continued(x, y)), Continued(Prepended(b, x), y);
    if b != NEWLINE && |x| == 1 {
      assert [b] + (x[0] + y[0]) == ([b] + x[0]) + y[0];
    }
    assert |p| == |q|;
    forall i | 0 <= i < |p| ensures p[i] == q[i] {
    }
  }

  lemma {:induction false} SplitContinues(a: Bytes, b: Bytes)
    ensures Split(a + b) == Continued(Split(a), Split(b))
    decreases |a|
  {
    if a == [] {
      assert a + b == b && [] + Split(b)[0] == Split(b)[0];
    } else {
      assert (a + b)[1..] == a[1..] + b;
      SplitContinues(a[1..], b);
      PrependedContinued(a[0], Split(a[1..]), Split(b));
    }
  }

  /** A tail holds no newline. */
  lemma {:induction false} TailIsOnePart(a: Bytes)
    ensures Split(Tail(a)) == [Tail(a)]
    decreases |a|
  {
    if a != [] {
      TailIsOnePart(a[1..]);
      if a[0] != NEWLINE && |Split(a[1..])| == 1 {
        assert Tail(a)[1..] == Tail(a[1..]);
      } else {
        assert Tail(a) == Tail(a[1..]);
      }
    }
  }

  lemma SplitAppend(a: Bytes, b: Bytes)
    ensures Split(a + b) == Complete(a) + Split(Tail(a) + b)
  {
    SplitContinues(a, b);
    SplitContinues(Tail(a), b);
    TailIsOnePart(a);
    assert Split(Tail(a) + b) == [Tail(a) + Split(b)[0]] + Split(b)[1..];
  }

  /** Appending bytes keeps the complete lines and completes the tail. */
  lemma CompleteAppend(a: Bytes, b: Bytes)
    ensures Complete(a + b) == Complete(a) + Complete(Tail(a) + b)
    ensures Tail(a + b) == Tail(Tail(a) + b)
  {
    SplitAppend(a, b);
  }

  lemma {:induction false} DecodedConcat<R>(decode: Bytes -> Option<R>, a: seq<Bytes>, b: seq<Bytes>)
    ensures Decoded(decode, a + b)
         == if Decoded(decode, a).None? || Decoded(decode, b).None? then None
            else Some(Decoded(decode, a).value + Decoded(decode, b).value)
    decreases |b|
  {
    if b == [] {
      assert a + b == a;
      assert Decoded(decode, a).Some? ==> Decoded(decode, a).value + [] == Decoded(decode, a).value;
    } else {
      DecodedConcat(decode, a, b[..|b| - 1]);
      assert (a + b)[..|a + b| - 1] == a + b[..|b| - 1];
      assert (a + b)[|a + b| - 1] == b[|b| - 1];
      var x, y := Decoded(decode, a), Decoded(decode, b[..|b| - 1]);
      if x.Some? && y.Some? && decode(b[|b| - 1]).Some? {
        var z := [decode(b[|b| - 1]).value];
        assert (x.value + y.value) + z == x.value + (y.value + z);
      }
    }
  }

  /** From any pending tail on, following the chunks is loading their concatenation. */
  lemma {:induction false} FollowingIsLoading<R>(decode: Bytes -> Option<R>, pending: Bytes, chunks: seq<Bytes>)
    requires Complete(pending) == []
    ensures Followed(decode, pending, chunks) == Loaded(decode, pending + Joined(chunks))
    decreases |chunks|
  {
    if chunks == [] {
      assert pending + Joined(chunks) == pending;
    } else {
      var data, rest := pending + chunks[0], Joined(chunks[1..]);
      assert pending + Joined(chunks) == data + rest;
      CompleteAppend(data, rest);
      TailUnfinished(data);
      FollowingIsLoading(decode, Tail(data), chunks[1..]);
      DecodedConcat(decode, Complete(data), Complete(Tail(data) + rest));
    }
  }

  lemma TailUnfinished(data: Bytes)
    ensures Complete(Tail(data)) == [] && Tail(Tail(data)) == Tail(data)
  {
    CompleteAppend(data, []);
    assert data + [] == data && Tail(data) + [] == Tail(data);
  }

  /** Everything a follower yields: its initial records and those of its polls. */
  function Yielded<R>(decode: Bytes -> Option<R>, data: Bytes, tail: int, chunks: seq<Bytes>): Option<seq<R>> {
    var first, rest := FirstRead(decode, data, tail), Followed(decode, Tail(data), chunks);
    if first.None? || rest.None? then None else Some(first.value + rest.value)
  }

  /** How many records of the first read the follower leaves out. */
  function Skipped<R>(decode: Bytes -> Option<R>, data: Bytes, tail: int): nat
    requires tail > 0
  {
    match Loaded(decode, data)
    case Some(all) => if |all| <= tail then 0 else |all| - tail
    case None => 0
  }

  /**
   * However the file grows, a follower with a positive tail fails exactly when
   * loading the file fails, and otherwise yields what loading yields, without the
   * first records of its first read if there are more of them than the tail.
   */
  lemma FollowerYields<R>(decode: Bytes -> Option<R>, data: Bytes, tail: int, chunks: seq<Bytes>)
    requires tail > 0
    ensures var all := Loaded(decode, data + Joined(chunks));
      && (Yielded(decode, data, tail, chunks).None? <==> all.None?)
      && (all.Some? ==> Skipped(decode, data, tail) <= |all.value|
                        && Yielded(decode, data, tail, chunks) == Some(all.value[Skipped(decode, data, tail)..]))
  {
    TailUnfinished(data);
    FollowingIsLoading(decode, Tail(data), chunks);
    CompleteAppend(data, Joined(chunks));
    var before, after := Loaded(decode, data), Loaded(decode, Tail(data) + Joined(chunks));
    DecodedConcat(decode, Complete(data), Complete(Tail(data) + Joined(chunks)));
    if before.Some? && after.Some? {
      LastThen(before.value, after.value, tail);
    }
  }

  /** Keeping the last records of a first part and everything after it. */
  lemma LastThen<R>(before: seq<R>, after: seq<R>, limit: nat)
    ensures var k := if |before| <= limit then 0 else |before| - limit;
            Last(before, limit) + after == (before + after)[k..]
  {
  }

  /** A follower yields exactly the records of the file when its tail covers the first read, and only then. */
  lemma FollowerYieldsAllIff<R>(decode: Bytes -> Option<R>, data: Bytes, tail: int, chunks: seq<Bytes>)
    requires tail > 0 && Loaded(decode, data + Joined(chunks)).Some?
    ensures Loaded(decode, data).Some?
    ensures Yielded(decode, data, tail, chunks) == Loaded(decode, data + Joined(chunks))
        <==> |Loaded(decode, data).value| <= tail
  {
    FollowerYields(decode, data, tail, chunks);
    CompleteAppend(data, Joined(chunks));
    DecodedConcat(decode, Complete(data), Complete(Tail(data) + Joined(chunks)));
  }

  /** Without a tail the first read is not even decoded: only what follows its complete lines is. */
  lemma FollowerWithoutTail<R>(decode: Bytes -> Option<R>, data: Bytes, tail: int, chunks: seq<Bytes>)
    requires tail <= 0
    ensures Yielded(decode, data, tail, chunks) == Loaded(decode, Tail(data) + Joined(chunks))
  {
    TailUnfinished(data);
    FollowingIsLoading(decode, Tail(data), chunks);
    var rest := Followed(decode, Tail(data), chunks);
    assert rest.Some? ==> [] + rest.value == rest.value;
  }
}
