/** SplitPassages: page text cut into numbered pieces of bounded length. Texts are sequences of runes. */
module Passages {
  import opened Text

  datatype Passage = Passage(ordinal: nat, text: string)

  const DEFAULT_CHARS := 800
  const DEFAULT_PASSAGES := 128

  // ---------- the pieces the splitter aims at ----------

  // A word longer than a piece is cut into whole pieces and a remainder.
  function Cut(word: string, max: nat): seq<string>
    requires max > 0
    decreases |word|
  {
    if |word| <= max then [word] else [word[..max]] + Cut(word[max..], max)
  }

  function CutAll(words: seq<string>, max: nat): seq<string>
    requires max > 0
    decreases |words|
  {
    if words == [] then [] else Cut(words[0], max) + CutAll(words[1..], max)
  }

  // Words are added to the open piece while they fit.
  function Pieces(open: string, words: seq<string>, max: nat): seq<string>
    decreases |words|
  {
    if words == [] then (if open == "" then [] else [open])
    else if open == "" then Pieces(words[0], words[1..], max)
    else if |open| + 1 + |words[0]| > max then [open] + Pieces(words[0], words[1..], max)
    else Pieces(open + " " + words[0], words[1..], max)
  }

  function Texts(out: seq<Passage>): (t: seq<string>)
    ensures |t| == |out|
  {
    seq(|out|, i requires 0 <= i < |out| => out[i].text)
  }

  ghost predicate Numbered(out: seq<Passage>) {
    forall i :: 0 <= i < |out| ==> out[i].ordinal == i
  }

  // ---------- the splitter ----------

  // Neither end is white space, so trimming keeps it.
  predicate Trimmed(s: string) {
    s == "" || (!IsSpace(s[0]) && !IsSpace(s[|s| - 1]))
  }

  // What is still to come: the open piece, what is left of the current word, the words after it.
  ghost function Ahead(open: string, word: string, rest: seq<string>, max: nat): seq<string>
    requires max > 0
  {
    Pieces(open, Cut(word, max) + CutAll(rest, max), max)
  }

  lemma CutWord(open: string, word: string, rest: seq<string>, max: nat)
    requires 0 < max < |word|
    ensures Ahead(open, word, rest, max)
            == (if open == "" then [] else [open]) + [word[..max]] + Ahead("", word[max..], rest, max)
  {
    var tail := Cut(word[max..], max) + CutAll(rest, max);
    assert Cut(word, max) + CutAll(rest, max) == [word[..max]] + tail;
    assert Cut(word[max..], max) != [];
    assert tail[0] == Cut(word[max..], max)[0];
    assert Pieces(word[..max], tail, max) == [word[..max]] + Pieces("", tail, max);
  }

  lemma AddWord(open: string, word: string, rest: seq<string>, max: nat)
    requires 0 < max && 0 < |word| <= max
    ensures Ahead(open, word, rest, max)
            == if open == "" then Pieces(word, CutAll(rest, max), max)
               else if |open| + 1 + |word| > max then [open] + Pieces(word, CutAll(rest, max), max)
               else Pieces(open + " " + word, CutAll(rest, max), max)
  {
    assert Cut(word, max) + CutAll(rest, max) == [word] + CutAll(rest, max);
  }

  // The pieces already out and those ahead make up all pieces; the cap leaves room.
  ghost predicate OnTrack(out: seq<Passage>, ahead: seq<string>, pieces: seq<string>, cap: nat) {
    |out| < cap && Numbered(out) && pieces == Texts(out) + ahead
  }

  // The cap is used up.
  ghost predicate Full(out: seq<Passage>, pieces: seq<string>, cap: nat) {
    |out| == cap <= |pieces| && Numbered(out) && Texts(out) == pieces[..cap]
  }

  lemma Emitted(out: seq<Passage>, text: string, ahead: seq<string>, pieces: seq<string>, cap: nat)
    requires OnTrack(out, [text] + ahead, pieces, cap)
    ensures var next := out + [Passage(|out|, text)];
            if |next| < cap then OnTrack(next, ahead, pieces, cap) else Full(next, pieces, cap)
  {
    var next := out + [Passage(|out|, text)];
    assert Texts(next) == Texts(out) + [text];
    assert pieces == Texts(next) + ahead;
  }

  // flush: the open piece is appended; false when the cap is reached.
  method Flush(out: seq<Passage>, open: string, cap: nat, ghost ahead: seq<string>, ghost pieces: seq<string>)
    returns (next: seq<Passage>, more: bool)
    requires Trimmed(open) && open != "" && OnTrack(out, [open] + ahead, pieces, cap)
    ensures if more then OnTrack(next, ahead, pieces, cap) else Full(next, pieces, cap)
  {
    var value := Trim(open);
    Emitted(out, value, ahead, pieces, cap);
    next := out + [Passage(|out|, value)];
    more := |next| < cap;
  }

  // The whole pieces of a word longer than a piece; `left` is what remains of it.
  method CutLong(out: seq<Passage>, open: string, word: string, max: nat, cap: nat,
                 ghost rest: seq<string>, ghost pieces: seq<string>)
    returns (next: seq<Passage>, still: string, left: string, more: bool)
    requires 0 < max && Trimmed(open) && word != "" && Spaceless(word)
    requires OnTrack(out, Ahead(open, word, rest, max), pieces, cap)
    ensures more ==> Trimmed(still) && 0 < |left| <= max && Spaceless(left)
                     && OnTrack(next, Ahead(still, left, rest, max), pieces, cap)
    ensures !more ==> Full(next, pieces, cap)
  {
    next, still, left, more := out, open, word, true;
    while |left| > max
      invariant Trimmed(still) && left != "" && Spaceless(left)
      invariant OnTrack(next, Ahead(still, left, rest, max), pieces, cap)
      decreases |left|
    {
      CutWord(still, left, rest, max);
      ghost var tail := Ahead("", left[max..], rest, max);
      if still != "" {
        assert Ahead(still, left, rest, max) == [still] + ([left[..max]] + tail);
        next, more := Flush(next, still, cap, [left[..max]] + tail, pieces);
        still := "";
        if !more { return; }
      }
      Emitted(next, left[..max], tail, pieces, cap);
      next := next + [Passage(|next|, left[..max])];
      if |next| >= cap { more := false; return; }
      left := left[max..];
    }
  }

  // What SplitPassages produces: the first pieces, as many as the cap allows.
  ghost predicate IsSplit(out: seq<Passage>, text: string, max: nat, cap: nat)
    requires max > 0
  {
    var pieces := Pieces("", CutAll(Fields(text), max), max);
    Numbered(out) && Texts(out) == if |pieces| <= cap then pieces else pieces[..cap]
  }

  lemma NextWord(words: seq<string>, i: nat, max: nat, open: string)
    requires i < |words| && max > 0
    ensures Pieces(open, CutAll(words[i..], max), max) == Ahead(open, words[i], words[i + 1..], max)
  {
    assert words[i..][1..] == words[i + 1..];
  }

  method SplitPassages(text: string, maxChars: int, maxPassages: int) returns (out: seq<Passage>)
    ensures IsSplit(out, text, if maxChars <= 0 then DEFAULT_CHARS else maxChars,
                    if maxPassages <= 0 then DEFAULT_PASSAGES else maxPassages)
  {
    var max: nat := if maxChars <= 0 then DEFAULT_CHARS else maxChars;
    var cap: nat := if maxPassages <= 0 then DEFAULT_PASSAGES else maxPassages;
    var words := Fields(text);
    ghost var pieces := Pieces("", CutAll(words, max), max);
    out := [];
    var open, more := "", true;
    for i := 0 to |words|
      invariant Trimmed(open)
      invariant OnTrack(out, Pieces(open, CutAll(words[i..], max), max), pieces, cap)
    {
      NextWord(words, i, max, open);
      var word;
      out, open, word, more := CutLong(out, open, words[i], max, cap, words[i + 1..], pieces);
      if !more { return; }
      AddWord(open, word, words[i + 1..], max);
      if open != "" && |open| + 1 + |word| > max {
        out, more := Flush(out, open, cap, Pieces(word, CutAll(words[i + 1..], max), max), pieces);
        open := "";
        if !more { return; }
      }
      open := if open == "" then word else open + " " + word;
    }
    if open != "" {
      assert Pieces(open, CutAll([], max), max) == [open] + [];
      out, more := Flush(out, open, cap, [], pieces);
    }
  }
}
