/** What the pieces are worth: bounded, faithful to the text, and as few as any other way of grouping the words. */
module PassageLaws {
  import opened Text
  import opened Passages

  ghost predicate Words(words: seq<string>) {
    forall i :: 0 <= i < |words| ==> words[i] != "" && Spaceless(words[i])
  }

  ghost predicate Short(words: seq<string>, max: nat) {
    forall i :: 0 <= i < |words| ==> |words[i]| <= max
  }

  // ---------- bounds ----------

  lemma {:induction false} CutIsShort(word: string, max: nat)
    requires max > 0 && word != "" && Spaceless(word)
    ensures Words(Cut(word, max)) && Short(Cut(word, max), max) && Concat(Cut(word, max)) == word
    decreases |word|
  {
    if |word| > max {
      CutIsShort(word[max..], max);
      assert word == word[..max] + word[max..];
    }
  }

  lemma {:induction false} CutAllIsShort(words: seq<string>, max: nat)
    requires max > 0 && Words(words)
    ensures Words(CutAll(words, max)) && Short(CutAll(words, max), max)
    ensures Concat(CutAll(words, max)) == Concat(words)
    decreases |words|
  {
    if words != [] {
      CutIsShort(words[0], max);
      CutAllIsShort(words[1..], max);
      ConcatAppend(Cut(words[0], max), CutAll(words[1..], max));
    }
  }

  lemma {:induction false} PiecesFit(open: string, words: seq<string>, max: nat)
    requires Words(words) && Short(words, max) && |open| <= max
    ensures forall i :: 0 <= i < |Pieces(open, words, max)| ==> 0 < |Pieces(open, words, max)[i]| <= max
    decreases |words|
  {
    if words != [] {
      var w, rest := words[0], words[1..];
      PiecesFit(if open == "" || |open| + 1 + |w| > max then w else open + " " + w, rest, max);
    }
  }

  /** Passages are numbered from zero, at most `cap`, and each holds 1 to `max` characters. */
  lemma SplitIsBounded(out: seq<Passage>, text: string, max: nat, cap: nat)
    requires max > 0 && IsSplit(out, text, max, cap)
    ensures |out| <= cap && forall i :: 0 <= i < |out| ==> out[i].ordinal == i && 0 < |out[i].text| <= max
  {
    var words := CutAll(Fields(text), max);
    CutAllIsShort(Fields(text), max);
    PiecesFit("", words, max);
    forall i | 0 <= i < |out| ensures 0 < |out[i].text| <= max {
      assert Texts(out)[i] == Pieces("", words, max)[i];
    }
  }

  // ---------- the text is kept ----------

  lemma {:induction false} PiecesKeepText(open: string, words: seq<string>, max: nat)
    requires Words(words)
    ensures Squeeze(Concat(Pieces(open, words, max))) == Squeeze(open) + Concat(words)
    decreases |words|
  {
    if words != [] {
      var w, rest := words[0], words[1..];
      SqueezeSpaceless(w);
      if open == "" {
        PiecesKeepText(w, rest, max);
      } else if |open| + 1 + |w| > max {
        PiecesKeepText(w, rest, max);
        SqueezeConcat(open, Concat(Pieces(w, rest, max)));
      } else {
        PiecesKeepText(open + " " + w, rest, max);
        SqueezeConcat(open + " ", w);
        SqueezeConcat(open, " ");
        assert Squeeze(" ") == "";
      }
    } else if open != "" {
      assert Pieces(open, words, max) == [open];
      assert Concat([open]) == open;
    }
  }

  // A piece begins with a character that is no white space.
  predicate Solid(piece: string) {
    piece != "" && !IsSpace(piece[0])
  }

  lemma {:induction false} PiecesAreSolid(open: string, words: seq<string>, max: nat)
    requires Words(words) && (open != "" ==> Solid(open))
    ensures forall i :: 0 <= i < |Pieces(open, words, max)| ==> Solid(Pieces(open, words, max)[i])
    decreases |words|
  {
    if words != [] {
      var w, rest := words[0], words[1..];
      assert Solid(w);
      PiecesAreSolid(if open == "" || |open| + 1 + |w| > max then w else open + " " + w, rest, max);
    }
  }

  lemma SolidCounts(piece: string, rest: string)
    requires Solid(piece)
    ensures Squeeze(piece + rest) != ""
  {
    SqueezeConcat([piece[0]], piece[1..] + rest);
    assert piece + rest == [piece[0]] + (piece[1..] + rest);
    assert Squeeze([piece[0]]) == [piece[0]];
  }

  lemma SolidPiecesCount(pieces: seq<string>)
    requires pieces != [] && Solid(pieces[0])
    ensures |Squeeze(Concat(pieces))| > 0
  {
    assert Concat(pieces) == pieces[0] + Concat(pieces[1..]);
    SolidCounts(pieces[0], Concat(pieces[1..]));
  }

  lemma DroppedTextIsMissing(pieces: seq<string>, n: nat)
    requires n < |pieces| && Solid(pieces[n])
    ensures |Squeeze(Concat(pieces[..n]))| < |Squeeze(Concat(pieces))|
  {
    assert pieces == pieces[..n] + pieces[n..];
    ConcatAppend(pieces[..n], pieces[n..]);
    SqueezeConcat(Concat(pieces[..n]), Concat(pieces[n..]));
    SolidPiecesCount(pieces[n..]);
  }

  lemma PrefixKeepsText(pieces: seq<string>, n: nat)
    requires n <= |pieces|
    ensures Squeeze(Concat(pieces[..n])) <= Squeeze(Concat(pieces))
  {
    assert pieces == pieces[..n] + pieces[n..];
    ConcatAppend(pieces[..n], pieces[n..]);
    SqueezeConcat(Concat(pieces[..n]), Concat(pieces[n..]));
  }

  lemma AllPiecesKeepText(text: string, max: nat)
    requires max > 0
    ensures Squeeze(Concat(Pieces("", CutAll(Fields(text), max), max))) == Squeeze(text)
  {
    CutAllIsShort(Fields(text), max);
    PiecesKeepText("", CutAll(Fields(text), max), max);
    FieldsKeepText(text);
  }

  /** The passages hold the text without its white space, in order, up to where the cap cuts in; it is the whole text if
      and only if there are no more pieces than the cap. */
  lemma SplitKeepsText(out: seq<Passage>, text: string, max: nat, cap: nat)
    requires max > 0 && IsSplit(out, text, max, cap)
    ensures Squeeze(Concat(Texts(out))) <= Squeeze(text)
    ensures Squeeze(Concat(Texts(out))) == Squeeze(text) <==> |Pieces("", CutAll(Fields(text), max), max)| <= cap
  {
    var pieces := Pieces("", CutAll(Fields(text), max), max);
    AllPiecesKeepText(text, max);
    PrefixKeepsText(pieces, |out|);
    if |pieces| > cap {
      CutAllIsShort(Fields(text), max);
      PiecesAreSolid("", CutAll(Fields(text), max), max);
      DroppedTextIsMissing(pieces, cap);
    }
  }

  // ---------- joining the pieces again ----------

  lemma {:induction false} JoinFront(a: string, rest: seq<string>)
    requires rest != []
    ensures Join([a] + rest, " ") == a + " " + Join(rest, " ")
    decreases |rest|
  {
    var all := [a] + rest;
    if |rest| == 1 {
      assert all[..|all| - 1] == [a];
    } else {
      assert all[..|all| - 1] == [a] + rest[..|rest| - 1];
      JoinFront(a, rest[..|rest| - 1]);
    }
  }

  lemma JoinFuse(a: string, b: string, rest: seq<string>)
    ensures Join([a + " " + b] + rest, " ") == Join([a] + ([b] + rest), " ")
  {
    JoinFront(a, [b] + rest);
    if rest != [] {
      JoinFront(b, rest);
      JoinFront(a + " " + b, rest);
    } else {
      assert [a + " " + b] + rest == [a + " " + b] && [b] + rest == [b];
    }
  }

  lemma {:induction false} PiecesJoin(open: string, words: seq<string>, max: nat)
    requires Words(words)
    ensures Join(Pieces(open, words, max), " ") == Join((if open == "" then [] else [open]) + words, " ")
    ensures Pieces(open, words, max) == [] <==> open == "" && words == []
    decreases |words|
  {
    if words != [] {
      var w, rest := words[0], words[1..];
      assert words == [w] + rest;
      if open == "" {
        PiecesJoin(w, rest, max);
        assert [] + words == words;
      } else if |open| + 1 + |w| > max {
        PiecesJoin(w, rest, max);
        JoinFront(open, Pieces(w, rest, max));
        JoinFront(open, [w] + rest);
      } else {
        PiecesJoin(open + " " + w, rest, max);
        JoinFuse(open, w, rest);
      }
    } else if open != "" {
      assert [open] + words == [open];
    }
  }

  lemma {:induction false} ShortWordsStayWhole(words: seq<string>, max: nat)
    requires max > 0 && Short(words, max)
    ensures CutAll(words, max) == words
    decreases |words|
  {
    if words != [] {
      ShortWordsStayWhole(words[1..], max);
    }
  }

  lemma {:induction false} SqueezeJoin(words: seq<string>)
    ensures Squeeze(Join(words, " ")) == Squeeze(Concat(words))
    decreases |words|
  {
    if |words| == 1 {
      assert Concat(words) == words[0] + Concat(words[1..]);
      assert words[0] + "" == words[0];
    } else if |words| > 1 {
      var rest := words[1..];
      assert words == [words[0]] + rest;
      JoinFront(words[0], rest);
      SqueezeJoin(rest);
      SqueezeConcat(words[0] + " ", Join(rest, " "));
      SqueezeConcat(words[0], " ");
      SqueezeConcat(words[0], Concat(rest));
      assert Squeeze(" ") == "";
    }
  }

  lemma {:induction false} SqueezeTwice(s: string)
    ensures Squeeze(Squeeze(s)) == Squeeze(s)
    decreases |s|
  {
    if s != "" {
      SqueezeTwice(s[1..]);
      assert s == [s[0]] + s[1..];
      SqueezeConcat([s[0]], s[1..]);
      SqueezeConcat(Squeeze([s[0]]), Squeeze(s[1..]));
      assert Squeeze([s[0]]) == if IsSpace(s[0]) then "" else [s[0]];
    }
  }

  /** With no oversized word, joining the passages gives the normalised text if and only if there are no more pieces than
      the cap. */
  lemma SplitJoinsBack(out: seq<Passage>, text: string, max: nat, cap: nat)
    requires max > 0 && IsSplit(out, text, max, cap) && Short(Fields(text), max)
    ensures Join(Texts(out), " ") == Join(Fields(text), " ") <==> |Pieces("", CutAll(Fields(text), max), max)| <= cap
  {
    ShortWordsStayWhole(Fields(text), max);
    PiecesJoin("", Fields(text), max);
    assert [] + Fields(text) == Fields(text);
    if Join(Texts(out), " ") == Join(Fields(text), " ") {
      SqueezeJoin(Texts(out));
      SqueezeJoin(Fields(text));
      CutAllIsShort(Fields(text), max);
      FieldsKeepText(text);
      SqueezeTwice(text);
      SplitKeepsText(out, text, max, cap);
    }
  }

  // ---------- no grouping uses fewer pieces ----------

  function Flat(groups: seq<seq<string>>): seq<string> {
    if groups == [] then [] else groups[0] + Flat(groups[1..])
  }

  // Consecutive words grouped into pieces that fit.
  ghost predicate IsGrouping(groups: seq<seq<string>>, words: seq<string>, max: nat) {
    && Flat(groups) == words
    && forall i :: 0 <= i < |groups| ==> groups[i] != [] && |Join(groups[i], " ")| <= max
  }

  ghost function Cost(open: string, words: seq<string>, max: nat): nat {
    |Pieces(open, words, max)|
  }

  // A longer open piece never costs less.
  lemma {:induction false} LongerCostsMore(a: string, b: string, words: seq<string>, max: nat)
    requires Words(words) && 0 < |a| <= |b|
    ensures Cost(a, words, max) <= Cost(b, words, max)
    decreases |words|
  {
    if words != [] {
      var w, rest := words[0], words[1..];
      if |b| + 1 + |w| <= max {
        LongerCostsMore(a + " " + w, b + " " + w, rest, max);
      } else if |a| + 1 + |w| <= max {
        AtMostOneMore(a + " " + w, w, rest, max);
      }
    }
  }

  // Whatever is open costs at most one piece more than anything else.
  lemma {:induction false} AtMostOneMore(a: string, b: string, words: seq<string>, max: nat)
    requires Words(words) && a != "" && b != ""
    ensures Cost(a, words, max) <= 1 + Cost(b, words, max)
    decreases |words|
  {
    if words != [] {
      var w, rest := words[0], words[1..];
      if |a| + 1 + |w| > max {
        if |b| + 1 + |w| <= max { LongerCostsMore(w, b + " " + w, rest, max); }
      } else if |b| + 1 + |w| > max {
        AtMostOneMore(a + " " + w, w, rest, max);
      } else {
        AtMostOneMore(a + " " + w, b + " " + w, rest, max);
      }
    }
  }

  lemma ClosingCostsOne(open: string, words: seq<string>, max: nat)
    requires Words(words) && open != ""
    ensures Cost(open, words, max) <= 1 + Cost("", words, max)
  {
    if words != [] {
      AtMostOneMore(open, words[0], words[1..], max);
      var w, rest := words[0], words[1..];
      if |open| + 1 + |w| <= max { AtMostOneMore(open + " " + w, w, rest, max); }
    }
  }

  // A group that fits is taken whole.
  lemma {:induction false} GroupIsTaken(open: string, group: seq<string>, rest: seq<string>, max: nat)
    requires Words(group) && open != "" && |Join([open] + group, " ")| <= max
    ensures Pieces(open, group + rest, max) == Pieces(Join([open] + group, " "), rest, max)
    decreases |group|
  {
    if group == [] {
      assert [open] + group == [open] && group + rest == rest;
    } else {
      var w, others := group[0], group[1..];
      assert group == [w] + others;
      JoinFuse(open, w, others);
      JoinFront(open, group);
      if others != [] { JoinFront(w, others); }
      assert (group + rest)[1..] == others + rest;
      GroupIsTaken(open + " " + w, others, rest, max);
    }
  }

  lemma {:induction false} GroupingCosts(groups: seq<seq<string>>, words: seq<string>, max: nat)
    requires Words(words) && IsGrouping(groups, words, max)
    ensures Cost("", words, max) <= |groups|
    decreases |groups|
  {
    if groups != [] {
      var group, rest := groups[0], Flat(groups[1..]);
      assert words == group + rest;
      assert Words(group) && Words(rest) by {
        forall i | 0 <= i < |rest| ensures rest[i] != "" && Spaceless(rest[i]) { assert rest[i] == words[|group| + i]; }
        forall i | 0 <= i < |group| ensures group[i] != "" && Spaceless(group[i]) { assert group[i] == words[i]; }
      }
      var w, others := group[0], group[1..];
      assert group == [w] + others;
      assert words[1..] == others + rest;
      GroupIsTaken(w, others, rest, max);
      ClosingCostsOne(Join(group, " "), rest, max) by { if others != [] { JoinFront(w, others); } }
      GroupingCosts(groups[1..], rest, max);
    }
  }

  /** No grouping of the words into pieces that fit uses fewer pieces than there are passages. */
  lemma SplitUsesFewest(out: seq<Passage>, text: string, max: nat, cap: nat, groups: seq<seq<string>>)
    requires max > 0 && IsSplit(out, text, max, cap)
    requires IsGrouping(groups, CutAll(Fields(text), max), max)
    ensures |out| <= |groups|
    ensures Short(Fields(text), max) ==> CutAll(Fields(text), max) == Fields(text)
  {
    CutAllIsShort(Fields(text), max);
    GroupingCosts(groups, CutAll(Fields(text), max), max);
    if Short(Fields(text), max) { ShortWordsStayWhole(Fields(text), max); }
  }
}
