/** What it means for two statements to be the same text. */
module Texts {
  import opened Prelude
  import opened Models

  predicate Blank(s: string) {
    forall i :: 0 <= i < |s| ==> IsSpace(s[i])
  }

  predicate IsWord(s: string) {
    s != "" && forall i :: 0 <= i < |s| ==> !IsSpace(s[i])
  }

  /** The words, each after its gap, and a last gap. */
  function Laid(words: seq<string>, gaps: seq<string>): string
    requires |gaps| == |words| + 1
  {
    if words == [] then gaps[0] else gaps[0] + (words[0] + Laid(words[1..], gaps[1..]))
  }

  /** Blank gaps, none of them empty between two words. */
  predicate Gaps(words: seq<string>, gaps: seq<string>) {
    && |gaps| == |words| + 1
    && (forall i :: 0 <= i < |gaps| ==> Blank(gaps[i]))
    && (forall i :: 1 <= i < |words| ==> gaps[i] != "")
  }

  lemma {:induction false} SkipBlank(gap: string, rest: string)
    requires Blank(gap)
    ensures Words(gap + rest) == Words(rest)
  {
    if gap == "" {
      assert gap + rest == rest;
    } else {
      assert (gap + rest)[1..] == gap[1..] + rest;
      SkipBlank(gap[1..], rest);
    }
  }

  lemma {:induction false} TakeWord(seen: string, word: string, rest: string)
    requires (forall i :: 0 <= i < |word| ==> !IsSpace(word[i])) && seen + word != ""
    requires rest == "" || IsSpace(rest[0])
    ensures Words(word + rest, seen) == [seen + word] + Words(rest)
    decreases |word|
  {
    if word == "" {
      assert word + rest == rest && seen + word == seen;
    } else {
      assert (word + rest)[1..] == word[1..] + rest;
      assert seen + [word[0]] + word[1..] == seen + word;
      TakeWord(seen + [word[0]], word[1..], rest);
    }
  }

  /** However the words are spaced, they are read back. */
  lemma {:induction false} LaidWords(words: seq<string>, gaps: seq<string>)
    requires Gaps(words, gaps) && forall i :: 0 <= i < |words| ==> IsWord(words[i])
    ensures Words(Laid(words, gaps)) == words
  {
    if words == [] {
      SkipBlank(gaps[0], "");
      assert gaps[0] + "" == gaps[0];
    } else {
      var rest := Laid(words[1..], gaps[1..]);
      LaidWords(words[1..], gaps[1..]);
      SkipBlank(gaps[0], words[0] + rest);
      LaidStarts(words[1..], gaps[1..]);
      TakeWord("", words[0], rest);
      assert "" + words[0] == words[0];
    }
  }

  lemma LaidStarts(words: seq<string>, gaps: seq<string>)
    requires |gaps| == |words| + 1 && (forall i :: 0 <= i < |gaps| ==> Blank(gaps[i]))
    requires words != [] ==> gaps[0] != ""
    ensures Laid(words, gaps) == "" || IsSpace(Laid(words, gaps)[0])
  {
  }

  /** Two texts are the same exactly when they have the same words, whatever the white space. */
  lemma SameTextIff(a: seq<string>, b: seq<string>, gapsA: seq<string>, gapsB: seq<string>)
    requires Gaps(a, gapsA) && Gaps(b, gapsB)
    requires (forall i :: 0 <= i < |a| ==> IsWord(a[i])) && forall i :: 0 <= i < |b| ==> IsWord(b[i])
    ensures SameText(Laid(a, gapsA), Laid(b, gapsB)) <==> a == b
  {
    LaidWords(a, gapsA);
    LaidWords(b, gapsB);
  }
}
