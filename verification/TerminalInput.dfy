/** `_TerminalInputParser`: keyboard and mouse reports out of a terminal stream that arrives in pieces. */
module TerminalInput {
  import opened Prelude
  import opened ChunkedReading

  const PENDING_LIMIT: nat := 4096
  const ESC: char := '\U{1B}'
  const MOUSE_PREFIX: string := [ESC, '[', '<']

  datatype Action = Action(kind: string, first: int, second: int)

  /** What `\d` accepts, and the value `int` gives it. */
  type Digits = char -> Option<nat>

  predicate AsciiDigit(c: char) {
    '0' <= c <= '9'
  }

  /** The ASCII digits are digits; the other characters the parser knows are not. */
  ghost predicate Decimal(digits: Digits) {
    && (forall c :: AsciiDigit(c) ==> digits(c) == Some(c as int - '0' as int))
    && (forall c :: c in {';', 'M', 'm', ESC, '\0', '\U{E0}'} ==> digits(c).None?)
  }

  const KEYS: seq<(string, Action)> := [
    ([ESC] + "[5~", Action("page", 1, 0)), ([ESC] + "[6~", Action("page", -1, 0)),
    ([ESC] + "[H", Action("home", 0, 0)), ([ESC] + "[1~", Action("home", 0, 0)),
    ([ESC] + "[F", Action("end", 0, 0)), ([ESC] + "[4~", Action("end", 0, 0)),
    ([ESC] + "[A", Action("line", 1, 0)), ([ESC] + "[B", Action("line", -1, 0))]

  const WINDOWS_KEYS: map<char, Action> := map[
    'I' := Action("page", 1, 0), 'Q' := Action("page", -1, 0), 'G' := Action("home", 0, 0),
    'O' := Action("end", 0, 0), 'H' := Action("line", 1, 0), 'P' := Action("line", -1, 0)]

  // ---------- one mouse report ----------

  datatype Report = Report(button: nat, x: nat, y: nat, end: nat)

  /** The first position from `i` on that holds no digit. */
  function RunEnd(digits: Digits, s: string, i: nat): (e: nat)
    requires i <= |s|
    ensures i <= e <= |s|
    decreases |s| - i
  {
    if i < |s| && digits(s[i]).Some? then RunEnd(digits, s, i + 1) else i
  }

  lemma {:induction false} RunIsDigits(digits: Digits, s: string, i: nat)
    requires i <= |s|
    ensures forall k :: i <= k < RunEnd(digits, s, i) ==> digits(s[k]).Some?
    ensures RunEnd(digits, s, i) < |s| ==> digits(s[RunEnd(digits, s, i)]).None?
    decreases |s| - i
  {
    if i < |s| && digits(s[i]).Some? {
      RunIsDigits(digits, s, i + 1);
    }
  }

  /** A run of digits up to `e`, where there is none, ends at `e`. */
  lemma {:induction false} RunEndsAt(digits: Digits, s: string, i: nat, e: nat)
    requires i <= e <= |s| && (forall k :: i <= k < e ==> digits(s[k]).Some?) && (e < |s| ==> digits(s[e]).None?)
    ensures RunEnd(digits, s, i) == e
    decreases e - i
  {
    if i < e {
      RunEndsAt(digits, s, i + 1, e);
    }
  }

  function Value(digits: Digits, s: string): nat {
    if s == [] then 0
    else 10 * Value(digits, s[..|s| - 1]) + (if digits(s[|s| - 1]).Some? then digits(s[|s| - 1]).value else 0)
  }

  /** A non-empty run of digits from `i`, and then one of the terminators: the position of the terminator. */
  function Field(digits: Digits, s: string, i: nat, terminators: set<char>): Option<nat>
    requires i <= |s|
  {
    var e := RunEnd(digits, s, i);
    if i < e < |s| && s[e] in terminators then Some(e) else None
  }

  /** `^\x1b\[<(\d+);(\d+);(\d+)([Mm])`. */
  function Mouse(digits: Digits, s: string): (r: Option<Report>)
    ensures r.Some? ==> 3 < r.value.end <= |s|
  {
    if !(MOUSE_PREFIX <= s) then None
    else
      match Field(digits, s, 3, {';'})
      case None => None
      case Some(a) =>
        match Field(digits, s, a + 1, {';'})
        case None => None
        case Some(b) =>
          match Field(digits, s, b + 1, {'M', 'm'})
          case None => None
          case Some(c) => Some(Report(Value(digits, s[3..a]), Value(digits, s[a + 1..b]), Value(digits, s[b + 1..c]), c + 1))
  }

  /** `re.fullmatch(r"\x1b\[<[0-9;]*", s)`. */
  predicate Unfinished(s: string) {
    MOUSE_PREFIX <= s && forall k :: 3 <= k < |s| ==> AsciiDigit(s[k]) || s[k] == ';'
  }

  /** `button & 0xC3`: shift, alt, control and motion are ignored. */
  function Normalized(button: nat): nat {
    button % 4 + (button / 64) % 4 * 64
  }

  function MouseAction(r: Report): Action {
    if Normalized(r.button) == 64 then Action("line", 3, 0)
    else if Normalized(r.button) == 65 then Action("line", -3, 0)
    else Action("hover", r.x, r.y)
  }

  // ---------- one turn of the loop ----------

  function KeyAt(s: string, i: nat): (k: Option<nat>)
    requires i <= |KEYS|
    ensures k.Some? ==> i <= k.value < |KEYS| && KEYS[k.value].0 <= s
    ensures k.None? ==> forall j :: i <= j < |KEYS| ==> !(KEYS[j].0 <= s)
    decreases |KEYS| - i
  {
    if i == |KEYS| then None else if KEYS[i].0 <= s then Some(i) else KeyAt(s, i + 1)
  }

  predicate BeginsKey(s: string) {
    exists j :: 0 <= j < |KEYS| && s <= KEYS[j].0
  }

  function MouseMove(digits: Digits, s: string): Move<Action> {
    match Mouse(digits, s)
    case Some(r) => Consume(r.end, Some(MouseAction(r)))
    case None => if Unfinished(s) then Wait else Consume(1, None)
  }

  function WindowsMove(s: string): Move<Action>
    requires s != []
  {
    if |s| < 2 then Wait
    else Consume(2, if s[1] in WINDOWS_KEYS then Some(WINDOWS_KEYS[s[1]]) else None)
  }

  function KeyMove(s: string): Move<Action>
    requires s != []
  {
    match KeyAt(s, 0)
    case Some(j) => Consume(|KEYS[j].0|, Some(KEYS[j].1))
    case None =>
      if BeginsKey(s) then Wait
      else if s[0] in {'\0', '\U{E0}'} then WindowsMove(s)
      else Consume(1, None)
  }

  function NextMove(digits: Digits, s: string): (m: Move<Action>)
    requires s != []
    ensures m.Consume? ==> 0 < m.n <= |s|
  {
    if MOUSE_PREFIX <= s then MouseMove(digits, s) else KeyMove(s)
  }

  // ---------- the loop and the call ----------

  function Reader(digits: Digits): string -> Move<Action> {
    s => if s == [] then Wait else NextMove(digits, s)
  }

  class TerminalInputParser {
    const digits: Digits
    var pending: string

    constructor (digits: Digits)
      ensures this.digits == digits && pending == ""
    {
      this.digits := digits;
      pending := "";
    }

    /** The branch for a text that starts like a mouse report. */
    method TakeMouse() returns (waiting: bool, action: Option<Action>)
      requires MOUSE_PREFIX <= pending
      modifies this
      ensures var m := MouseMove(digits, old(pending));
        && waiting == m.Wait?
        && pending == (if waiting then old(pending) else old(pending)[m.n..])
        && action == (if waiting then None else m.action)
    {
      var report := Mouse(digits, pending);
      if report.None? {
        if Unfinished(pending) {
          return true, None;
        }
        pending := pending[1..];
        return false, None;
      }
      pending := pending[report.value.end..];
      return false, Some(MouseAction(report.value));
    }

    /** The branches for keys and ordinary text. */
    method TakeKey() returns (waiting: bool, action: Option<Action>)
      requires pending != ""
      modifies this
      ensures var m := KeyMove(old(pending));
        && waiting == m.Wait?
        && (waiting ==> pending == old(pending) && action == None)
        && (m.Consume? ==> m.n <= |old(pending)| && pending == old(pending)[m.n..] && action == m.action)
    {
      var key := KeyAt(pending, 0);
      if key.Some? {
        pending := pending[|KEYS[key.value].0|..];
        return false, Some(KEYS[key.value].1);
      }
      if BeginsKey(pending) {
        return true, None;
      }
      if pending[0] in {'\0', '\U{E0}'} {
        if |pending| < 2 {
          return true, None;
        }
        action := if pending[1] in WINDOWS_KEYS then Some(WINDOWS_KEYS[pending[1]]) else None;
        pending := pending[2..];
        return false, action;
      }
      pending := pending[1..];
      return false, None;
    }

    /** One turn of the loop. */
    method TakeOne() returns (waiting: bool, action: Option<Action>)
      requires pending != ""
      modifies this
      ensures waiting <==> !Advances(Reader(digits), old(pending))
      ensures waiting ==> pending == old(pending)
      ensures !waiting ==> pending == old(pending)[Reader(digits)(old(pending)).n..]
                           && action == Reader(digits)(old(pending)).action
    {
      ReaderMoves(digits, pending);
      if MOUSE_PREFIX <= pending {
        waiting, action := TakeMouse();
      } else {
        waiting, action := TakeKey();
      }
    }

    method Feed(text: string) returns (actions: seq<Action>)
      modifies this
      ensures Drained(actions, pending) == Fed(Reader(digits), PENDING_LIMIT, old(pending), text)
    {
      ghost var move := Reader(digits);
      pending := Clipped(pending + text, PENDING_LIMIT);
      ghost var whole := Drain(move, pending);
      actions := [];
      while pending != ""
        invariant Remaining(move, whole, actions, pending)
        decreases |pending|
      {
        ghost var here, found := pending, actions;
        var waiting, action := TakeOne();
        if waiting {
          break;
        }
        actions := actions + Listed(action);
        Reads(move, whole, found, here);
      }
    }
  }

  /** The rest of the loop turns the pending text into what is missing from `whole`. */
  predicate Remaining(move: string -> Move<Action>, whole: Drained<Action>, actions: seq<Action>, pending: string) {
    whole == Drained(actions + Drain(move, pending).actions, Drain(move, pending).pending)
  }

  lemma Reads(move: string -> Move<Action>, whole: Drained<Action>, actions: seq<Action>, s: string)
    requires Advances(move, s) && Remaining(move, whole, actions, s)
    ensures Remaining(move, whole, actions + Listed(move(s).action), s[move(s).n..])
  {
    Regroup(actions, Listed(move(s).action), Drain(move, s[move(s).n..]).actions);
  }

  lemma ReaderMoves(digits: Digits, s: string)
    requires s != []
    ensures Reader(digits)(s) == if MOUSE_PREFIX <= s then MouseMove(digits, s) else KeyMove(s)
    ensures Reader(digits)(s).Consume? <==> Advances(Reader(digits), s)
  {
  }

  lemma DrainOne(move: string -> Move<Action>, s: string)
    requires Advances(move, s)
    ensures Drain(move, s) == Drained(Listed(move(s).action) + Drain(move, s[move(s).n..]).actions,
                                      Drain(move, s[move(s).n..]).pending)
  {
  }

  // ---------- chunk invariance ----------

  /** Every digit of the text is an ASCII digit. */
  predicate AsciiDigits(digits: Digits, s: string) {
    forall k :: 0 <= k < |s| ==> digits(s[k]).Some? ==> AsciiDigit(s[k])
  }

  lemma {:induction false} RunEndStable(digits: Digits, s: string, t: string, i: nat)
    requires i <= |s| && RunEnd(digits, s, i) < |s|
    ensures RunEnd(digits, s + t, i) == RunEnd(digits, s, i)
    decreases |s| - i
  {
    if i < |s| && digits(s[i]).Some? {
      RunEndStable(digits, s, t, i + 1);
    }
  }

  lemma FieldStable(digits: Digits, s: string, t: string, i: nat, terminators: set<char>)
    requires i <= |s| && Field(digits, s, i, terminators).Some?
    ensures Field(digits, s + t, i, terminators) == Field(digits, s, i, terminators)
  {
    RunEndStable(digits, s, t, i);
  }

  /** The three fields of a report end at `a`, `b` and `c`. */
  predicate Fields(digits: Digits, s: string, a: nat, b: nat, c: nat) {
    && MOUSE_PREFIX <= s && 3 <= a < b < c < |s|
    && Field(digits, s, 3, {';'}) == Some(a)
    && Field(digits, s, a + 1, {';'}) == Some(b)
    && Field(digits, s, b + 1, {'M', 'm'}) == Some(c)
  }

  function ReportOf(digits: Digits, s: string, a: nat, b: nat, c: nat): Report
    requires 3 <= a < b < c < |s|
  {
    Report(Value(digits, s[3..a]), Value(digits, s[a + 1..b]), Value(digits, s[b + 1..c]), c + 1)
  }

  lemma FieldsAreMouse(digits: Digits, s: string, a: nat, b: nat, c: nat)
    requires Fields(digits, s, a, b, c)
    ensures Mouse(digits, s) == Some(ReportOf(digits, s, a, b, c))
  {
  }

  lemma MouseHasFields(digits: Digits, s: string) returns (a: nat, b: nat, c: nat)
    requires Mouse(digits, s).Some?
    ensures Fields(digits, s, a, b, c)
  {
    a := Field(digits, s, 3, {';'}).value;
    b := Field(digits, s, a + 1, {';'}).value;
    c := Field(digits, s, b + 1, {'M', 'm'}).value;
  }

  lemma FieldsStable(digits: Digits, s: string, t: string, a: nat, b: nat, c: nat)
    requires Fields(digits, s, a, b, c)
    ensures Fields(digits, s + t, a, b, c)
  {
    FieldStable(digits, s, t, 3, {';'});
    FieldStable(digits, s, t, a + 1, {';'});
    FieldStable(digits, s, t, b + 1, {'M', 'm'});
  }

  lemma SliceKept(s: string, t: string, i: nat, j: nat)
    requires i <= j <= |s|
    ensures (s + t)[i..j] == s[i..j]
  {
  }

  /** A complete report is read the same whatever follows it. */
  lemma MouseStable(digits: Digits, s: string, t: string)
    requires Mouse(digits, s).Some?
    ensures Mouse(digits, s + t) == Mouse(digits, s)
  {
    var a, b, c := MouseHasFields(digits, s);
    FieldsAreMouse(digits, s, a, b, c);
    FieldsStable(digits, s, t, a, b, c);
    FieldsAreMouse(digits, s + t, a, b, c);
    SameReport(digits, s, t, a, b, c);
  }

  lemma SameReport(digits: Digits, s: string, t: string, a: nat, b: nat, c: nat)
    requires 3 <= a < b < c < |s|
    ensures ReportOf(digits, s + t, a, b, c) == ReportOf(digits, s, a, b, c)
  {
    SliceKept(s, t, 3, a);
    SliceKept(s, t, a + 1, b);
    SliceKept(s, t, b + 1, c);
  }

  /** A field that ends inside the first part is a field of the first part. */
  lemma FieldWithin(digits: Digits, s: string, t: string, i: nat, terminators: set<char>)
    requires i <= |s| && Field(digits, s + t, i, terminators).Some?
    requires Field(digits, s + t, i, terminators).value < |s|
    ensures Field(digits, s, i, terminators) == Field(digits, s + t, i, terminators)
  {
    var e := RunEnd(digits, s + t, i);
    RunIsDigits(digits, s + t, i);
    assert forall k :: 0 <= k < |s| ==> (s + t)[k] == s[k];
    RunEndsAt(digits, s, i, e);
  }

  lemma FieldsWithin(digits: Digits, s: string, t: string, a: nat, b: nat, c: nat)
    requires Fields(digits, s + t, a, b, c) && c < |s|
    ensures Fields(digits, s, a, b, c)
  {
    assert MOUSE_PREFIX <= s;
    FieldWithin(digits, s, t, 3, {';'});
    FieldWithin(digits, s, t, a + 1, {';'});
    FieldWithin(digits, s, t, b + 1, {'M', 'm'});
  }

  /** Past the prefix, the characters of a report before its terminator are digits and semicolons. */
  lemma ReportCharacters(digits: Digits, s: string, a: nat, b: nat, c: nat, k: nat)
    requires Fields(digits, s, a, b, c) && 3 <= k < c
    ensures digits(s[k]).Some? || s[k] == ';'
  {
    RunIsDigits(digits, s, 3);
    RunIsDigits(digits, s, a + 1);
    RunIsDigits(digits, s, b + 1);
  }

  /** A report that cannot be completed any more is never completed. */
  lemma BrokenStaysBroken(digits: Digits, s: string, t: string)
    requires MOUSE_PREFIX <= s && Mouse(digits, s).None? && !Unfinished(s)
    requires AsciiDigits(digits, s)
    ensures Mouse(digits, s + t).None? && !Unfinished(s + t)
  {
    var k :| 3 <= k < |s| && !AsciiDigit(s[k]) && s[k] != ';';
    assert (s + t)[k] == s[k] && digits(s[k]).None?;
    if Mouse(digits, s + t).Some? {
      var a, b, c := MouseHasFields(digits, s + t);
      if k < c {
        ReportCharacters(digits, s + t, a, b, c, k);
      }
      FieldsWithin(digits, s, t, a, b, c);
      FieldsAreMouse(digits, s, a, b, c);
    }
  }

  lemma PrefixKept(p: string, s: string, t: string)
    requires p <= s
    ensures p <= s + t
  {
  }

  /** A prefix of the longer text is one of the shorter text, or the other way round. */
  lemma PrefixSplit(p: string, s: string, t: string)
    ensures p <= s + t ==> p <= s || s <= p
  {
    if p <= s + t {
      if |p| <= |s| {
        assert p == (s + t)[..|p|] == s[..|p|];
      } else {
        assert s == (s + t)[..|s|] == p[..|s|];
      }
    }
  }

  lemma PrefixOfPrefix(s: string, t: string, p: string)
    ensures s + t <= p ==> s <= p
  {
    assert s == (s + t)[..|s|];
  }

  /** What might become a mouse report might also become a key. */
  lemma MouseBeginsKey(s: string)
    ensures s <= MOUSE_PREFIX && |s| < 3 ==> BeginsKey(s)
  {
    assert KEYS[0].0[..2] == MOUSE_PREFIX[..2];
    assert s <= MOUSE_PREFIX && |s| < 3 ==> s == MOUSE_PREFIX[..2][..|s|] && s <= KEYS[0].0;
  }

  /** No key starts another key, and none starts a mouse report. */
  lemma KeysPrefixFree(s: string, j: nat, k: nat)
    requires j < |KEYS| && k < |KEYS| && KEYS[j].0 <= s && KEYS[k].0 <= s
    ensures j == k && !(MOUSE_PREFIX <= s)
  {
    assert KEYS[j].0[2] == s[2] == KEYS[k].0[2];
  }

  lemma KeyMoveStable(digits: Digits, s: string, t: string)
    requires s != [] && !(MOUSE_PREFIX <= s) && KeyMove(s).Consume?
    ensures !(MOUSE_PREFIX <= s + t) && KeyMove(s + t) == KeyMove(s)
  {
    var u := s + t;
    assert u[0] == s[0] && (|s| >= 2 ==> u[1] == s[1]);
    PrefixSplit(MOUSE_PREFIX, s, t);
    MouseBeginsKey(s);
    match KeyAt(s, 0)
    case Some(j) =>
      PrefixKept(KEYS[j].0, s, t);
      KeysPrefixFree(u, j, KeyAt(u, 0).value);
    case None =>
      forall j | 0 <= j < |KEYS| ensures !(KEYS[j].0 <= u) && !(u <= KEYS[j].0) {
        PrefixSplit(KEYS[j].0, s, t);
        PrefixOfPrefix(s, t, KEYS[j].0);
      }
  }

  /** Once the parser consumes something, more text would not have changed its mind. */
  lemma MoveStable(digits: Digits, s: string, t: string)
    requires s != [] && AsciiDigits(digits, s) && NextMove(digits, s).Consume?
    ensures NextMove(digits, s + t) == NextMove(digits, s)
  {
    if MOUSE_PREFIX <= s {
      if Mouse(digits, s).Some? {
        MouseStable(digits, s, t);
      } else {
        BrokenStaysBroken(digits, s, t);
      }
    } else {
      KeyMoveStable(digits, s, t);
    }
  }

  lemma ReaderSteady(digits: Digits)
    ensures Steady(Reader(digits), s => AsciiDigits(digits, s))
  {
    var move, ok := Reader(digits), s => AsciiDigits(digits, s);
    forall s, t ensures ok(s + t) <==> ok(s) && ok(t) {
      AsciiSplits(digits, s, t);
    }
    forall s: string, t: string | ok(s) && Advances(move, s) ensures move(s + t) == move(s) {
      MoveStable(digits, s, t);
    }
  }

  lemma AsciiSplits(digits: Digits, s: string, t: string)
    ensures AsciiDigits(digits, s + t) <==> AsciiDigits(digits, s) && AsciiDigits(digits, t)
  {
    var u := s + t;
    assert forall k :: 0 <= k < |s| ==> u[k] == s[k];
    assert forall k :: 0 <= k < |t| ==> u[|s| + k] == t[k];
  }

  /**
   * A fresh parser, fed a text in any chunks none of which overflows, returns the
   * actions and keeps the pending text of reading it whole, if its digits are ASCII.
   */
  lemma FeedingIsReading(digits: Digits, chunks: seq<string>)
    requires AsciiDigits(digits, Joined(chunks)) && Fits(Reader(digits), PENDING_LIMIT, "", chunks)
    ensures FedAll(Reader(digits), PENDING_LIMIT, "", chunks) == Drain(Reader(digits), Joined(chunks))
  {
    ReaderSteady(digits);
    assert "" + Joined(chunks) == Joined(chunks);
    ChunksDoNotMatter(Reader(digits), s => AsciiDigits(digits, s), PENDING_LIMIT, "", chunks);
  }

  // ---------- exactly when chunks do not matter ----------

  /** A fresh parser reads every text that fits the same in one piece and in two. */
  ghost predicate ChunkInvariant(digits: Digits) {
    forall s: string, t: string {:trigger s + t} | |s| + |t| <= PENDING_LIMIT ::
      FedAll(Reader(digits), PENDING_LIMIT, "", [s, t]) == FedAll(Reader(digits), PENDING_LIMIT, "", [s + t])
  }

  lemma PlainDropped(digits: Digits, c: char, rest: string)
    requires c != ESC && c != '\0' && c != '\U{E0}'
    ensures Drain(Reader(digits), [c] + rest) == Drain(Reader(digits), rest)
  {
    var s := [c] + rest;
    PlainMove(c, rest);
    assert Reader(digits)(s) == Consume(1, None);
    DrainOne(Reader(digits), s);
    assert s[1..] == rest;
    assert [] + Drain(Reader(digits), rest).actions == Drain(Reader(digits), rest).actions;
  }

  lemma PlainMove(c: char, rest: string)
    requires c != ESC && c != '\0' && c != '\U{E0}'
    ensures KeyMove([c] + rest) == Consume(1, None) && !(MOUSE_PREFIX <= [c] + rest)
  {
    var s := [c] + rest;
    assert s[0] == c;
    forall j | 0 <= j < |KEYS| ensures !(KEYS[j].0 <= s) && !(s <= KEYS[j].0) {
      assert KEYS[j].0[0] == ESC;
    }
  }

  /** Text without escapes and Windows key prefixes does nothing. */
  lemma {:induction false} PlainTextDropped(digits: Digits, s: string)
    requires forall k :: 0 <= k < |s| ==> s[k] != ESC && s[k] != '\0' && s[k] != '\U{E0}'
    ensures Drain(Reader(digits), s) == Drained([], "")
  {
    if s != [] {
      assert s == [s[0]] + s[1..];
      PlainDropped(digits, s[0], s[1..]);
      PlainTextDropped(digits, s[1..]);
    }
  }

  lemma ForeignPrefixDropped(digits: Digits, c: char)
    requires Decimal(digits) && digits(c).Some? && !AsciiDigit(c)
    ensures Drain(Reader(digits), MOUSE_PREFIX + [c]) == Drained([], "")
  {
    var move, s := Reader(digits), MOUSE_PREFIX + [c];
    assert RunEnd(digits, s, 3) == 4;
    assert s[3] == c && !Unfinished(s) && Mouse(digits, s).None?;
    ReaderMoves(digits, s);
    DrainOne(move, s);
    PlainTextDropped(digits, s[1..]);
  }

  lemma ForeignReport(digits: Digits, c: char)
    requires Decimal(digits) && digits(c).Some? && !AsciiDigit(c)
    ensures Drain(Reader(digits), MOUSE_PREFIX + [c] + ";0;0M").actions != []
  {
    var u := MOUSE_PREFIX + [c] + ";0;0M";
    assert u == [ESC, '[', '<', c, ';', '0', ';', '0', 'M'];
    assert RunEnd(digits, u, 3) == 4 && RunEnd(digits, u, 5) == 6 && RunEnd(digits, u, 7) == 8;
    assert Fields(digits, u, 4, 6, 8);
    FieldsAreMouse(digits, u, 4, 6, 8);
    ReaderMoves(digits, u);
    DrainOne(Reader(digits), u);
  }

  lemma TailDropped(digits: Digits)
    ensures Drain(Reader(digits), ";0;0M") == Drained([], "")
  {
    PlainTextDropped(digits, ";0;0M");
  }

  lemma HalvesDiffer(digits: Digits, s: string, t: string)
    requires Drain(Reader(digits), s) == Drained([], "") && Drain(Reader(digits), t) == Drained([], "")
    requires Drain(Reader(digits), s + t).actions != [] && |s| + |t| <= PENDING_LIMIT
    ensures !ChunkInvariant(digits)
  {
    SilentHalves(Reader(digits), PENDING_LIMIT, s, t);
  }

  /** A report with a foreign digit is a mouse action in one piece and nothing when cut after that digit. */
  lemma ForeignDigitDiffers(digits: Digits, c: char)
    requires Decimal(digits) && digits(c).Some? && !AsciiDigit(c)
    ensures !ChunkInvariant(digits)
  {
    ForeignPrefixDropped(digits, c);
    ForeignReport(digits, c);
    TailDropped(digits);
    HalvesDiffer(digits, MOUSE_PREFIX + [c], ";0;0M");
  }

  /** The parser is chunk invariant exactly when `\d` means the ASCII digits. */
  lemma ChunkInvariantIff(digits: Digits)
    requires Decimal(digits)
    ensures ChunkInvariant(digits) <==> forall c :: digits(c).Some? ==> AsciiDigit(c)
  {
    var move := Reader(digits);
    if c :| digits(c).Some? && !AsciiDigit(c) {
      ForeignDigitDiffers(digits, c);
    } else {
      ReaderSteady(digits);
      forall s: string, t: string {:trigger s + t} | |s| + |t| <= PENDING_LIMIT
        ensures FedAll(move, PENDING_LIMIT, "", [s, t]) == FedAll(move, PENDING_LIMIT, "", [s + t])
      {
        PendingShorter(move, s);
        FedTwice(move, PENDING_LIMIT, s, t);
        FedOnce(move, PENDING_LIMIT, s + t);
        DrainSplits(move, u => AsciiDigits(digits, u), s, t);
      }
    }
  }

  // ---------- reports are read back ----------

  function Numeral(n: nat): (s: string)
    ensures s != [] && forall k :: 0 <= k < |s| ==> AsciiDigit(s[k])
  {
    (if n < 10 then [] else Numeral(n / 10)) + [(n % 10 + '0' as int) as char]
  }

  lemma {:induction false} NumeralValue(digits: Digits, n: nat)
    requires Decimal(digits)
    ensures Value(digits, Numeral(n)) == n
  {
    var s := Numeral(n);
    assert digits(s[|s| - 1]) == Some(n % 10);
    if n < 10 {
      assert s[..|s| - 1] == [];
    } else {
      NumeralValue(digits, n / 10);
      assert s[..|s| - 1] == Numeral(n / 10);
    }
  }

  /** A numeral of `part` standing at `i` and followed by a terminator is a field. */
  lemma FieldOfNumeral(digits: Digits, s: string, i: nat, part: string, terminators: set<char>)
    requires Decimal(digits) && part != [] && forall k :: 0 <= k < |part| ==> AsciiDigit(part[k])
    requires i + |part| < |s| && s[i..i + |part|] == part && s[i + |part|] in terminators
    requires terminators <= {';', 'M', 'm'}
    ensures Field(digits, s, i, terminators) == Some(i + |part|)
  {
    forall k | i <= k < i + |part| ensures digits(s[k]).Some? {
      assert s[k] == part[k - i];
    }
    RunEndsAt(digits, s, i, i + |part|);
  }

  function Reported(button: string, x: string, y: string, terminator: char): string {
    MOUSE_PREFIX + button + ";" + x + ";" + y + [terminator]
  }

  /** The text starts with a report of these three numerals. */
  predicate LaidOut(s: string, button: string, x: string, y: string) {
    var a := 3 + |button|;
    var b := a + 1 + |x|;
    var c := b + 1 + |y|;
    && MOUSE_PREFIX <= s && c < |s|
    && s[3..a] == button && s[a] == ';' && s[a + 1..b] == x && s[b] == ';' && s[b + 1..c] == y
    && s[c] in {'M', 'm'}
  }

  lemma ReportLayout(s: string, button: string, x: string, y: string, terminator: char)
    requires Reported(button, x, y, terminator) <= s && terminator in {'M', 'm'}
    ensures LaidOut(s, button, x, y)
    ensures |Reported(button, x, y, terminator)| == 6 + |button| + |x| + |y|
  {
    var report := Reported(button, x, y, terminator);
    var a := 3 + |button|;
    var b := a + 1 + |x|;
    var c := b + 1 + |y|;
    assert report[..3] == MOUSE_PREFIX && report[3..a] == button && report[a] == ';' && report[a + 1..b] == x;
    assert report[b] == ';' && report[b + 1..c] == y && report[c] == terminator;
    assert forall i, j :: 0 <= i <= j <= |report| ==> s[i..j] == report[i..j];
  }

  /** A non-empty string of ASCII digits. */
  predicate IsNumeral(s: string) {
    s != "" && forall k :: 0 <= k < |s| ==> AsciiDigit(s[k])
  }

  /** Three numerals laid out as a report are read as its fields. */
  lemma LaidOutFields(digits: Digits, s: string, button: string, x: string, y: string)
    requires Decimal(digits) && LaidOut(s, button, x, y) && IsNumeral(button) && IsNumeral(x) && IsNumeral(y)
    ensures Fields(digits, s, 3 + |button|, 4 + |button| + |x|, 5 + |button| + |x| + |y|)
  {
    FieldOfNumeral(digits, s, 3, button, {';'});
    FieldOfNumeral(digits, s, 4 + |button|, x, {';'});
    FieldOfNumeral(digits, s, 5 + |button| + |x|, y, {'M', 'm'});
  }

  /** The fields of the report hold these strings. */
  predicate Holds(digits: Digits, s: string, a: nat, b: nat, c: nat, button: string, x: string, y: string) {
    Fields(digits, s, a, b, c) && s[3..a] == button && s[a + 1..b] == x && s[b + 1..c] == y
  }

  lemma LaidOutHolds(digits: Digits, s: string, button: string, x: string, y: string, a: nat, b: nat, c: nat)
    requires a == 3 + |button| && b == a + 1 + |x| && c == b + 1 + |y|
    requires Decimal(digits) && LaidOut(s, button, x, y) && IsNumeral(button) && IsNumeral(x) && IsNumeral(y)
    ensures Holds(digits, s, a, b, c, button, x, y)
  {
    LaidOutFields(digits, s, button, x, y);
  }

  lemma HeldRead(digits: Digits, s: string, a: nat, b: nat, c: nat, button: string, x: string, y: string, report: Report)
    requires Holds(digits, s, a, b, c, button, x, y)
    requires report.button == Value(digits, button) && report.x == Value(digits, x) && report.y == Value(digits, y)
    requires report.end == c + 1
    ensures Mouse(digits, s) == Some(report)
  {
    FieldsAreMouse(digits, s, a, b, c);
  }

  lemma NumeralsRead(digits: Digits, s: string, button: string, x: string, y: string, report: Report, terminator: char)
    requires Decimal(digits) && terminator in {'M', 'm'} && IsNumeral(button) && IsNumeral(x) && IsNumeral(y)
    requires Reported(button, x, y, terminator) <= s
    requires report.button == Value(digits, button) && report.x == Value(digits, x) && report.y == Value(digits, y)
    requires report.end == |Reported(button, x, y, terminator)|
    ensures Mouse(digits, s) == Some(report)
  {
    var a, b, c := WrittenHolds(digits, s, button, x, y, terminator);
    HeldRead(digits, s, a, b, c, button, x, y, report);
  }

  lemma WrittenHolds(digits: Digits, s: string, button: string, x: string, y: string, terminator: char)
    returns (a: nat, b: nat, c: nat)
    requires Decimal(digits) && terminator in {'M', 'm'} && IsNumeral(button) && IsNumeral(x) && IsNumeral(y)
    requires Reported(button, x, y, terminator) <= s
    ensures Holds(digits, s, a, b, c, button, x, y) && c + 1 == |Reported(button, x, y, terminator)|
  {
    ReportLayout(s, button, x, y, terminator);
    a := 3 + |button|;
    b := a + 1 + |x|;
    c := b + 1 + |y|;
    LaidOutHolds(digits, s, button, x, y, a, b, c);
  }

  /** A text that starts with a mouse report as a terminal writes it is read as its button and position. */
  lemma ReportRoundTrip(digits: Digits, s: string, report: Report, terminator: char)
    requires Decimal(digits) && terminator in {'M', 'm'}
    requires Reported(Numeral(report.button), Numeral(report.x), Numeral(report.y), terminator) <= s
    requires report.end == |Reported(Numeral(report.button), Numeral(report.x), Numeral(report.y), terminator)|
    ensures Mouse(digits, s) == Some(report)
  {
    NumeralValue(digits, report.button);
    NumeralValue(digits, report.x);
    NumeralValue(digits, report.y);
    NumeralsRead(digits, s, Numeral(report.button), Numeral(report.x), Numeral(report.y), report, terminator);
  }
}
