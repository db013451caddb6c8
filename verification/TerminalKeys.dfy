/** Where keys and wheel reports scroll, whatever follows them. */
module TerminalKeys {
  import opened Prelude
  import opened ChunkedReading
  import opened TerminalInput

  /** The text is read as this action and no more, whatever follows. */
  ghost predicate Scrolls(digits: Digits, text: string, kind: string, lines: int) {
    forall rest: string {:trigger text + rest} ::
      Drain(Reader(digits), text + rest) == After([Action(kind, lines, 0)], Drain(Reader(digits), rest))
  }

  lemma MoveReads(digits: Digits, text: string, rest: string, action: Action)
    requires text != "" && NextMove(digits, text + rest) == Consume(|text|, Some(action))
    ensures Drain(Reader(digits), text + rest) == After([action], Drain(Reader(digits), rest))
  {
    ReaderMoves(digits, text + rest);
    DrainOne(Reader(digits), text + rest);
    assert (text + rest)[|text|..] == rest;
  }

  lemma KeyFound(text: string, j: nat, rest: string)
    requires j < |KEYS| && text == KEYS[j].0
    ensures KeyMove(text + rest) == Consume(|text|, Some(KEYS[j].1)) && !(MOUSE_PREFIX <= text + rest)
  {
    var s := text + rest;
    assert KEYS[j].0 <= s;
    KeysPrefixFree(s, j, j);
    if KeyAt(s, 0).Some? {
      KeysPrefixFree(s, j, KeyAt(s, 0).value);
    }
  }

  lemma KeyScrolls(digits: Digits, j: nat, kind: string, lines: int)
    requires j < |KEYS| && KEYS[j].1 == Action(kind, lines, 0)
    ensures Scrolls(digits, KEYS[j].0, kind, lines)
  {
    forall rest: string
      ensures Drain(Reader(digits), KEYS[j].0 + rest) == After([KEYS[j].1], Drain(Reader(digits), rest))
    {
      KeyFound(KEYS[j].0, j, rest);
      MoveReads(digits, KEYS[j].0, rest, KEYS[j].1);
    }
  }

  lemma WindowsKeyFound(digits: Digits, prefix: char, key: char, rest: string)
    requires prefix in {'\0', '\U{E0}'} && key in WINDOWS_KEYS
    ensures NextMove(digits, [prefix, key] + rest) == Consume(2, Some(WINDOWS_KEYS[key]))
  {
    var s := [prefix, key] + rest;
    assert s[0] == prefix && s[1] == key;
    forall j | 0 <= j < |KEYS| ensures !(KEYS[j].0 <= s) && !(s <= KEYS[j].0) {
      assert KEYS[j].0[0] == ESC;
    }
  }

  lemma WindowsKeyScrolls(digits: Digits, prefix: char, key: char, kind: string, lines: int)
    requires prefix in {'\0', '\U{E0}'} && key in WINDOWS_KEYS && WINDOWS_KEYS[key] == Action(kind, lines, 0)
    ensures Scrolls(digits, [prefix, key], kind, lines)
  {
    forall rest: string
      ensures Drain(Reader(digits), [prefix, key] + rest)
           == After([Action(kind, lines, 0)], Drain(Reader(digits), rest))
    {
      WindowsKeyFound(digits, prefix, key, rest);
      MoveReads(digits, [prefix, key], rest, WINDOWS_KEYS[key]);
    }
  }

  /** Page up and page down scroll a page up and down, home and end go to the ends, the arrows scroll a line, in the
      escape sequences of a terminal. */
  lemma KeysScroll(digits: Digits)
    ensures Scrolls(digits, [ESC] + "[5~", "page", 1) && Scrolls(digits, [ESC] + "[6~", "page", -1)
    ensures Scrolls(digits, [ESC] + "[A", "line", 1) && Scrolls(digits, [ESC] + "[B", "line", -1)
    ensures Scrolls(digits, [ESC] + "[H", "home", 0) && Scrolls(digits, [ESC] + "[1~", "home", 0)
    ensures Scrolls(digits, [ESC] + "[F", "end", 0) && Scrolls(digits, [ESC] + "[4~", "end", 0)
  {
    KeyScrolls(digits, 0, "page", 1);
    KeyScrolls(digits, 1, "page", -1);
    KeyScrolls(digits, 2, "home", 0);
    KeyScrolls(digits, 3, "home", 0);
    KeyScrolls(digits, 4, "end", 0);
    KeyScrolls(digits, 5, "end", 0);
    KeyScrolls(digits, 6, "line", 1);
    KeyScrolls(digits, 7, "line", -1);
  }

  /** The same for the two-character keys of a Windows console. */
  lemma WindowsKeysScroll(digits: Digits, prefix: char)
    requires prefix in {'\0', '\U{E0}'}
    ensures Scrolls(digits, [prefix, 'I'], "page", 1) && Scrolls(digits, [prefix, 'Q'], "page", -1)
    ensures Scrolls(digits, [prefix, 'H'], "line", 1) && Scrolls(digits, [prefix, 'P'], "line", -1)
    ensures Scrolls(digits, [prefix, 'G'], "home", 0) && Scrolls(digits, [prefix, 'O'], "end", 0)
  {
    WindowsKeyScrolls(digits, prefix, 'I', "page", 1);
    WindowsKeyScrolls(digits, prefix, 'Q', "page", -1);
    WindowsKeyScrolls(digits, prefix, 'H', "line", 1);
    WindowsKeyScrolls(digits, prefix, 'P', "line", -1);
    WindowsKeyScrolls(digits, prefix, 'G', "home", 0);
    WindowsKeyScrolls(digits, prefix, 'O', "end", 0);
  }

  // ---------- the mouse ----------

  /** The modifier bits of a button, shift to motion, are the four above the lowest two. */
  lemma ModifiersIgnored(button: nat, modifiers: nat, high: nat)
    requires button < 4 && modifiers < 16 && high < 4
    ensures Normalized(button + 4 * modifiers + 64 * high) == button + 64 * high
  {
    var b := button + 4 * modifiers + 64 * high;
    assert b % 4 == button;
    assert b / 64 == high;
  }

  /** A mouse report as a terminal writes it. */
  function Written(button: nat, x: nat, y: nat, terminator: char): string {
    Reported(Numeral(button), Numeral(x), Numeral(y), terminator)
  }

  lemma ReportReads(digits: Digits, button: nat, x: nat, y: nat, terminator: char, rest: string, action: Action)
    requires Decimal(digits) && terminator in {'M', 'm'}
    requires action == MouseAction(Report(button, x, y, |Written(button, x, y, terminator)|))
    ensures Drain(Reader(digits), Written(button, x, y, terminator) + rest)
            == After([action], Drain(Reader(digits), rest))
  {
    var text := Written(button, x, y, terminator);
    assert text <= text + rest && MOUSE_PREFIX <= text;
    PrefixKept(MOUSE_PREFIX, text, rest);
    ReportRoundTrip(digits, text + rest, Report(button, x, y, |text|), terminator);
    MoveReads(digits, text, rest, action);
  }

  lemma ReportMeans(code: nat, button: nat, modifiers: nat, high: nat, x: nat, y: nat, end: nat)
    requires button < 4 && modifiers < 16 && high < 4 && code == button + 4 * modifiers + 64 * high
    ensures Turned(button, high, x, y) == MouseAction(Report(code, x, y, end))
  {
    ModifiersIgnored(button, modifiers, high);
  }

  /** What a button does: the wheel is the first two buttons of the second group. */
  function Turned(button: nat, high: nat, x: nat, y: nat): Action {
    if high == 1 && button == 0 then Action("line", 3, 0)
    else if high == 1 && button == 1 then Action("line", -3, 0)
    else Action("hover", x, y)
  }

  /** A wheel report, with any modifiers, scrolls three lines up or down; every other report moves the pointer. */
  lemma WheelScrolls(digits: Digits, code: nat, button: nat, modifiers: nat, high: nat, x: nat, y: nat,
                     terminator: char, rest: string)
    requires Decimal(digits) && terminator in {'M', 'm'} && button < 4 && modifiers < 16 && high < 4
    requires code == button + 4 * modifiers + 64 * high
    ensures Drain(Reader(digits), Written(code, x, y, terminator) + rest)
            == After([Turned(button, high, x, y)], Drain(Reader(digits), rest))
  {
    ReportMeans(code, button, modifiers, high, x, y, |Written(code, x, y, terminator)|);
    ReportReads(digits, code, x, y, terminator, rest, Turned(button, high, x, y));
  }
}
