/** The generated state block of a Markdown page: replacing it, and reading it back. */
module MarkdownState {
  import opened Prelude

  const BEGIN: string := "<!-- AMR-CANONICAL-STATE-BEGIN -->"
  const END: string := "<!-- AMR-CANONICAL-STATE-END -->"

  // ---------- text.count and text.index ----------

  /** `marker` stands at position `i`. */
  predicate Occurs(text: string, marker: string, i: int) {
    0 <= i <= |text| - |marker| && text[i..i + |marker|] == marker
  }

  /** `text.index(marker, i)`: none where the source raises. */
  function IndexFrom(text: string, marker: string, i: nat): (p: Option<nat>)
    ensures p.Some? ==> i <= p.value && Occurs(text, marker, p.value)
    ensures p.Some? ==> forall k :: i <= k < p.value ==> !Occurs(text, marker, k)
    ensures p.None? ==> forall k :: i <= k ==> !Occurs(text, marker, k)
    decreases |text| - i
  {
    if i > |text| then None else if Occurs(text, marker, i) then Some(i) else IndexFrom(text, marker, i + 1)
  }

  /** `text[i:].count(marker)`: occurrences found from left to right, none overlapping the last. */
  function CountFrom(text: string, marker: string, i: nat): nat
    requires marker != ""
    decreases |text| - i
  {
    match IndexFrom(text, marker, i)
    case None => 0
    case Some(p) => 1 + CountFrom(text, marker, p + |marker|)
  }

  function Count(text: string, marker: string): nat
    requires marker != ""
  {
    CountFrom(text, marker, 0)
  }

  // ---------- the operations ----------

  datatype Replacement = Malformed | Replaced(text: string)

  /** The span of the block: from the first begin marker to the end of the next end marker. */
  function Span(text: string): (s: Option<(nat, nat)>)
    ensures s.Some? ==> s.value.0 <= s.value.1 <= |text|
  {
    match IndexFrom(text, BEGIN, 0)
    case None => None
    case Some(start) =>
      match IndexFrom(text, END, start)
      case None => None
      case Some(p) => Some((start, p + |END|))
  }

  /** The page with another block in place of its span. */
  function WithBlock(text: string, block: string): string
    requires Span(text).Some?
  {
    text[..Span(text).value.0] + block + text[Span(text).value.1..]
  }

  /** `replace_markdown_state_block`. */
  function Replace(text: string, block: string): Replacement {
    if Count(text, BEGIN) != Count(text, END) || Count(text, BEGIN) > 1 then Malformed
    else if Count(text, BEGIN) == 0 then Replaced(text)
    else if Span(text).None? then Malformed
    else Replaced(WithBlock(text, block))
  }

  /** What `validate_canonical_research_state` compares with the rendered block. */
  function Extract(text: string): Option<string> {
    match Span(text)
    case None => None
    case Some((start, end)) => Some(text[start..end])
  }

  /** `render_markdown_state_block`, over the JSON text of the state. */
  function Render(payload: string): string {
    BEGIN + Body(payload) + END
  }

  const NOTICE: string := "\nThis block is generated "
  const HEAD: string := NOTICE + ("from the canonical ClaimGraph." + "\n\n```json\n")
  const FOOT: string := "\n```\n"

  function Body(payload: string): string {
    HEAD + payload + FOOT
  }

  // ---------- markers never straddle or overlap ----------

  /** A marker opens with its only `<` and closes with its only `>`. */
  predicate Bracketed(marker: string) {
    && |marker| >= 2
    && forall k :: 0 <= k < |marker| ==> (marker[k] == '<' <==> k == 0) && (marker[k] == '>' <==> k == |marker| - 1)
  }

  lemma MarkersBracketed()
    ensures Bracketed(BEGIN) && Bracketed(END)
  {
  }

  ghost predicate Free(text: string, marker: string) {
    forall i :: !Occurs(text, marker, i)
  }

  /** `marker` stands at `i` and nowhere else. */
  ghost predicate Only(text: string, marker: string, i: int) {
    Occurs(text, marker, i) && forall k :: Occurs(text, marker, k) ==> k == i
  }

  lemma OccursCharacters(text: string, marker: string, i: int, k: nat)
    requires Occurs(text, marker, i) && k < |marker|
    ensures text[i + k] == marker[k]
  {
    assert text[i..i + |marker|][k] == text[i + k];
  }

  /** Two occurrences of a bracketed marker do not overlap. */
  lemma NoOverlap(text: string, marker: string, i: int, j: int)
    requires Bracketed(marker) && Occurs(text, marker, i) && Occurs(text, marker, j) && i < j
    ensures i + |marker| <= j
  {
    if j < i + |marker| {
      OccursCharacters(text, marker, i, j - i);
      OccursCharacters(text, marker, j, 0);
    }
  }

  lemma CountZeroIff(text: string, marker: string)
    requires marker != ""
    ensures Count(text, marker) == 0 <==> Free(text, marker)
  {
  }

  /** Exactly one marker is counted exactly when it stands at one position only. */
  lemma CountOneIff(text: string, marker: string)
    requires Bracketed(marker)
    ensures Count(text, marker) == 1 <==> exists i :: Only(text, marker, i)
  {
    match IndexFrom(text, marker, 0)
    case None =>
    case Some(p) =>
      forall k | Occurs(text, marker, k) && k != p ensures p + |marker| <= k {
        NoOverlap(text, marker, p, k);
      }
      var next := p + |marker|;
      assert CountFrom(text, marker, next) == 0 <==> IndexFrom(text, marker, next).None?;
      assert Count(text, marker) == 1 ==> Only(text, marker, p);
  }

  /** In a concatenation at whose seam no bracketed marker can stand, every occurrence is within a part. */
  lemma NoStraddle(a: string, b: string, marker: string, i: int)
    requires Bracketed(marker)
    requires (a != [] && a[|a| - 1] == '>') || (b != [] && b[0] == '<') || a == [] || b == []
    ensures Occurs(a + b, marker, i) <==> Occurs(a, marker, i) || Occurs(b, marker, i - |a|)
  {
    var text := a + b;
    if Occurs(text, marker, i) {
      if i < |a| < i + |marker| {
        OccursCharacters(text, marker, i, |a| - i);
        OccursCharacters(text, marker, i, |a| - 1 - i);
      }
      if i + |marker| <= |a| {
        SliceOfFirst(a, b, i, i + |marker|);
      } else {
        SliceOfSecond(a, b, i, i + |marker|);
      }
    }
    if Occurs(a, marker, i) {
      SliceOfFirst(a, b, i, i + |marker|);
    }
    if Occurs(b, marker, i - |a|) {
      SliceOfSecond(a, b, i, i + |marker|);
    }
  }

  lemma SliceOfFirst(a: string, b: string, i: nat, j: nat)
    requires i <= j <= |a|
    ensures (a + b)[i..j] == a[i..j]
  {
    assert forall k :: 0 <= k < j - i ==> (a + b)[i..j][k] == (a + b)[i + k] == a[i + k] == a[i..j][k];
  }

  lemma SliceOfSecond(a: string, b: string, i: nat, j: nat)
    requires |a| <= i <= j <= |a + b|
    ensures (a + b)[i..j] == b[i - |a|..j - |a|]
  {
    assert forall k :: 0 <= k < j - i ==>
      (a + b)[i..j][k] == (a + b)[i + k] == b[i - |a| + k] == b[i - |a|..j - |a|][k];
  }

  // ---------- pages and blocks ----------

  /** The page holds one pair of markers, the begin marker first. */
  ghost predicate Marked(text: string) {
    exists i, j :: Only(text, BEGIN, i) && Only(text, END, j) && i < j
  }

  /** A block: one begin marker at its start, one end marker at its end. */
  ghost predicate Block(block: string) {
    Only(block, BEGIN, 0) && Only(block, END, |block| - |END|)
  }

  lemma MarkedSpan(text: string, i: int, j: int)
    requires Only(text, BEGIN, i) && Only(text, END, j) && i < j
    ensures Span(text) == Some((i, j + |END|))
    ensures Count(text, BEGIN) == 1 && Count(text, END) == 1
  {
    MarkersBracketed();
    CountOneIff(text, BEGIN);
    CountOneIff(text, END);
  }

  /** A page is left as it is without markers, gets a new block with one pair in order, and is malformed otherwise. */
  lemma ReplaceCases(text: string, block: string)
    ensures Free(text, BEGIN) && Free(text, END) ==> Replace(text, block) == Replaced(text)
    ensures Replace(text, block) == Malformed <==> !(Free(text, BEGIN) && Free(text, END)) && !Marked(text)
  {
    MarkersBracketed();
    CountZeroIff(text, BEGIN);
    CountZeroIff(text, END);
    CountOneIff(text, BEGIN);
    CountOneIff(text, END);
    if Marked(text) {
      var i, j :| Only(text, BEGIN, i) && Only(text, END, j) && i < j;
      MarkedSpan(text, i, j);
    } else if Count(text, BEGIN) == 1 == Count(text, END) {
      var i :| Only(text, BEGIN, i);
      var j :| Only(text, END, j);
      if j == i {
        OccursCharacters(text, BEGIN, i, 27);
        OccursCharacters(text, END, j, 27);
      }
      assert j < i;
    }
  }

  /** Occurrences in a page are those before, in and after a piece that opens with `<` and closes with `>`. */
  lemma PieceOccurrences(before: string, piece: string, after: string, marker: string, i: int)
    requires Bracketed(marker) && piece != [] && piece[0] == '<' && piece[|piece| - 1] == '>'
    ensures Occurs(before + piece + after, marker, i)
       <==> Occurs(before, marker, i) || Occurs(piece, marker, i - |before|)
            || Occurs(after, marker, i - |before| - |piece|)
  {
    NoStraddle(before + piece, after, marker, i);
    NoStraddle(before, piece, marker, i);
  }

  lemma BlockEnds(block: string)
    requires Occurs(block, BEGIN, 0) && Occurs(block, END, |block| - |END|)
    ensures block != [] && block[0] == '<' && block[|block| - 1] == '>'
  {
    OccursCharacters(block, BEGIN, 0, 0);
    OccursCharacters(block, END, |block| - |END|, |END| - 1);
  }

  /** A page around a block, its surroundings free of markers, is marked exactly there. */
  lemma AroundBlock(before: string, block: string, after: string)
    requires Block(block)
    requires Free(before, BEGIN) && Free(before, END) && Free(after, BEGIN) && Free(after, END)
    ensures var text := before + block + after;
      && Only(text, BEGIN, |before|) && Only(text, END, |before| + |block| - |END|)
      && Span(text) == Some((|before|, |before| + |block|))
  {
    var text := before + block + after;
    MarkersBracketed();
    BlockEnds(block);
    forall i ensures Occurs(text, BEGIN, i) <==> i == |before| {
      PieceOccurrences(before, block, after, BEGIN, i);
    }
    forall i ensures Occurs(text, END, i) <==> i == |before| + |block| - |END| {
      PieceOccurrences(before, block, after, END, i);
    }
    BeginBeforeEnd(block);
    MarkedSpan(text, |before|, |before| + |block| - |END|);
  }

  lemma BeginBeforeEnd(block: string)
    requires Block(block)
    ensures |block| > |END|
  {
    assert Occurs(block, BEGIN, 0);
  }

  lemma SliceOfSlice(text: string, i: nat, j: nat, k: nat, l: nat)
    requires i <= j <= |text| && k <= l <= j - i
    ensures text[i..j][k..l] == text[i + k..i + l]
  {
    assert forall q :: 0 <= q < l - k ==> text[i..j][k..l][q] == text[i..j][k + q] == text[i + k..i + l][q];
  }

  lemma FreePart(text: string, marker: string, i: nat, j: nat)
    requires i <= j <= |text| && forall k :: i <= k && k + |marker| <= j ==> !Occurs(text, marker, k)
    ensures Free(text[i..j], marker)
  {
    var part := text[i..j];
    forall k ensures !Occurs(part, marker, k) {
      if 0 <= k <= |part| - |marker| {
        SliceOfSlice(text, i, j, k, k + |marker|);
        assert !Occurs(text, marker, i + k);
      }
    }
  }

  /** The parts of a marked page outside its block hold no marker. */
  lemma OutsideFree(text: string)
    requires Marked(text)
    ensures Span(text).Some?
    ensures var (start, end) := Span(text).value;
      && Free(text[..start], BEGIN) && Free(text[..start], END) && Free(text[end..], BEGIN) && Free(text[end..], END)
  {
    var i, j :| Only(text, BEGIN, i) && Only(text, END, j) && i < j;
    MarkedSpan(text, i, j);
    var start, end := i, j + |END|;
    assert text[..start] == text[0..start] && text[end..] == text[end..|text|];
    FreePart(text, BEGIN, 0, start);
    FreePart(text, END, 0, start);
    FreePart(text, BEGIN, end, |text|);
    FreePart(text, END, end, |text|);
  }

  /**
   * Replacing the block of a marked page keeps every character before and after
   * it, leaves the page marked once, and the block read back is the new one.
   */
  lemma ReplaceThenExtract(text: string, block: string)
    requires Marked(text) && Block(block)
    ensures Span(text).Some? && Replace(text, block) == Replaced(WithBlock(text, block))
    ensures Marked(WithBlock(text, block)) && Extract(WithBlock(text, block)) == Some(block)
    ensures Span(WithBlock(text, block)) == Some((Span(text).value.0, Span(text).value.0 + |block|))
  {
    MarkedReplaced(text, block);
    WithBlockRead(text, block);
  }

  lemma WithBlockRead(text: string, block: string)
    requires Marked(text) && Block(block) && Span(text).Some?
    ensures Marked(WithBlock(text, block)) && Extract(WithBlock(text, block)) == Some(block)
    ensures Span(WithBlock(text, block)) == Some((Span(text).value.0, Span(text).value.0 + |block|))
  {
    var before, after := Outside(text);
    AroundIs(text, before, after, block);
    BlockRead(WithBlock(text, block), before, block, after);
  }

  lemma AroundIs(text: string, before: string, after: string, block: string)
    requires Span(text).Some?
    requires before == text[..Span(text).value.0] && after == text[Span(text).value.1..]
    ensures WithBlock(text, block) == before + block + after && |before| == Span(text).value.0
  {
  }

  /** What stands before and after the block of a marked page. */
  lemma Outside(text: string) returns (before: string, after: string)
    requires Marked(text)
    ensures Span(text).Some? && before == text[..Span(text).value.0] && after == text[Span(text).value.1..]
    ensures Free(before, BEGIN) && Free(before, END) && Free(after, BEGIN) && Free(after, END)
  {
    OutsideFree(text);
    before, after := text[..Span(text).value.0], text[Span(text).value.1..];
  }

  lemma BlockRead(text: string, before: string, block: string, after: string)
    requires Block(block) && text == before + block + after
    requires Free(before, BEGIN) && Free(before, END) && Free(after, BEGIN) && Free(after, END)
    ensures Marked(text) && Extract(text) == Some(block) && Span(text) == Some((|before|, |before| + |block|))
  {
    AroundBlock(before, block, after);
    BeginBeforeEnd(block);
    assert text[|before|..|before| + |block|] == block;
  }

  /** Of two replacements only the last one shows. */
  lemma LastReplacementWins(text: string, first: string, second: string)
    requires Marked(text) && Block(first)
    ensures Span(text).Some? && Replace(text, first) == Replaced(WithBlock(text, first))
    ensures Replace(WithBlock(text, first), second) == Replace(text, second)
  {
    ReplaceThenExtract(text, first);
    var next := WithBlock(text, first);
    MarkedReplaced(text, second);
    MarkedReplaced(next, second);
    var (start, end) := Span(text).value;
    assert next[..start] == text[..start] && next[start + |first|..] == text[end..];
  }

  lemma MarkedReplaced(text: string, block: string)
    requires Marked(text)
    ensures Span(text).Some?
    ensures Replace(text, block) == Replaced(WithBlock(text, block))
  {
    var i, j :| Only(text, BEGIN, i) && Only(text, END, j) && i < j;
    MarkedSpan(text, i, j);
  }

  // ---------- exactly which rendered blocks are safe ----------

  /** Text without `<` before a payload and without `>` after it adds no marker. */
  lemma PlainAround(head: string, payload: string, foot: string, marker: string, i: int)
    requires Bracketed(marker) && '<' !in head && '>' !in foot
    ensures Occurs(head + payload + foot, marker, i) <==> Occurs(payload, marker, i - |head|)
  {
    var body := head + payload + foot;
    assert forall q :: 0 <= q < |head| ==> body[q] == head[q] && body[q] != '<';
    assert forall q :: |head| + |payload| <= q < |body| ==> body[q] == foot[q - |head| - |payload|] && body[q] != '>';
    if Occurs(body, marker, i) {
      OccursCharacters(body, marker, i, 0);
      OccursCharacters(body, marker, i, |marker| - 1);
      assert payload[i - |head|..i - |head| + |marker|] == body[i..i + |marker|];
    }
    if Occurs(payload, marker, i - |head|) {
      assert body[i..i + |marker|] == payload[i - |head|..i - |head| + |marker|];
    }
  }

  lemma HeadAndFoot()
    ensures '<' !in HEAD && '>' !in FOOT
  {
    assert '<' !in NOTICE && '<' !in "from the canonical ClaimGraph." && '<' !in "\n\n```json\n";
  }

  lemma BodyFreeIff(payload: string, marker: string)
    requires Bracketed(marker)
    ensures Free(Body(payload), marker) <==> Free(payload, marker)
  {
    HeadAndFoot();
    forall i ensures Occurs(Body(payload), marker, i) <==> Occurs(payload, marker, i - |HEAD|) {
      PlainAround(HEAD, payload, FOOT, marker, i);
    }
    assert forall i :: Occurs(payload, marker, i) ==> Occurs(Body(payload), marker, i + |HEAD|);
  }

  lemma BeginInBlock(body: string, i: int)
    ensures Occurs(BEGIN + body + END, BEGIN, i) <==> i == 0 || Occurs(body, BEGIN, i - |BEGIN|)
  {
    MarkersBracketed();
    MarkersDiffer();
    NoStraddle(BEGIN + body, END, BEGIN, i);
    NoStraddle(BEGIN, body, BEGIN, i);
  }

  lemma EndInBlock(body: string, i: int)
    ensures Occurs(BEGIN + body + END, END, i) <==> i == |BEGIN| + |body| || Occurs(body, END, i - |BEGIN|)
  {
    MarkersBracketed();
    MarkersDiffer();
    NoStraddle(BEGIN + body, END, END, i);
    NoStraddle(BEGIN, body, END, i);
  }

  /** A rendered block is one block exactly when its payload contains neither marker. */
  lemma RenderedBlockIff(payload: string)
    ensures Block(Render(payload)) <==> Free(payload, BEGIN) && Free(payload, END)
  {
    var body, block := Body(payload), Render(payload);
    MarkersBracketed();
    BodyFreeIff(payload, BEGIN);
    BodyFreeIff(payload, END);
    assert |block| - |END| == |BEGIN| + |body|;
    forall i ensures Occurs(block, BEGIN, i) <==> i == 0 || Occurs(body, BEGIN, i - |BEGIN|) {
      BeginInBlock(body, i);
    }
    forall i ensures Occurs(block, END, i) <==> i == |block| - |END| || Occurs(body, END, i - |BEGIN|) {
      EndInBlock(body, i);
    }
    if Block(block) {
      forall i ensures !Occurs(body, BEGIN, i) && !Occurs(body, END, i) {
        assert Occurs(body, BEGIN, i) ==> Occurs(block, BEGIN, i + |BEGIN|);
        assert Occurs(body, END, i) ==> Occurs(block, END, i + |BEGIN|);
      }
    }
  }

  /**
   * After a marked page gets a rendered block, it is still marked, and so can be
   * replaced again, exactly when the payload contains neither marker.
   */
  lemma RenderedStaysMarkedIff(text: string, payload: string)
    requires Marked(text)
    ensures Span(text).Some? && Replace(text, Render(payload)) == Replaced(WithBlock(text, Render(payload)))
    ensures Marked(WithBlock(text, Render(payload))) <==> Free(payload, BEGIN) && Free(payload, END)
  {
    MarkedReplaced(text, Render(payload));
    RenderedBlockIff(payload);
    RenderedEnds(payload);
    if Block(Render(payload)) {
      ReplaceThenExtract(text, Render(payload));
    } else {
      NotABlock(text[..Span(text).value.0], Render(payload), text[Span(text).value.1..]);
    }
  }

  lemma RenderedEnds(payload: string)
    ensures Occurs(Render(payload), BEGIN, 0) && Occurs(Render(payload), END, |Render(payload)| - |END|)
  {
    var block := Render(payload);
    assert block[0..|BEGIN|] == BEGIN;
    assert block[|block| - |END|..|block|] == END;
  }

  /** A piece between markers that holds another marker spoils any page. */
  lemma NotABlock(before: string, piece: string, after: string)
    requires Occurs(piece, BEGIN, 0) && Occurs(piece, END, |piece| - |END|) && !Block(piece)
    ensures !Marked(before + piece + after)
  {
    var text := before + piece + after;
    MarkersBracketed();
    BlockEnds(piece);
    PieceOccurrences(before, piece, after, BEGIN, |before|);
    PieceOccurrences(before, piece, after, END, |before| + |piece| - |END|);
    if k :| Occurs(piece, BEGIN, k) && k != 0 {
      PieceOccurrences(before, piece, after, BEGIN, |before| + k);
    } else {
      var k :| Occurs(piece, END, k) && k != |piece| - |END|;
      PieceOccurrences(before, piece, after, END, |before| + k);
    }
  }

  /** Each marker contains itself once and the other one nowhere. */
  lemma MarkersDiffer()
    ensures forall i :: Occurs(BEGIN, BEGIN, i) <==> i == 0
    ensures forall i :: Occurs(END, END, i) <==> i == 0
    ensures forall i :: !Occurs(BEGIN, END, i)
    ensures forall i :: !Occurs(END, BEGIN, i)
  {
    assert BEGIN[0..|BEGIN|] == BEGIN && END[0..|END|] == END;
    forall i ensures !Occurs(BEGIN, END, i) {
      if Occurs(BEGIN, END, i) {
        OccursCharacters(BEGIN, END, i, 0);
        OccursCharacters(BEGIN, END, i, 27);
      }
    }
  }
}
