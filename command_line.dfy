/**
 * Command lines as the started programs see them: the text split at spaces into
 * words. Used to state that an argument string built by the launcher carries
 * exactly the intended options.
 */
module CommandLines {
  /** Text with no space in it. */
  predicate NoSpace(s: string)
  {
    forall i :: 0 <= i < |s| ==> s[i] != ' '
  }

  /** The index of the first space, or the length when there is none. */
  function FirstSpace(s: string): (i: nat)
    ensures i <= |s|
    ensures i < |s| ==> s[i] == ' '
    ensures NoSpace(s[..i])
  {
    if |s| == 0 then 0
    else if s[0] == ' ' then 0
    else
      var i := 1 + FirstSpace(s[1..]);
      assert s[..i] == [s[0]] + s[1..][..i - 1];
      i
  }

  /** The words of a command line: the maximal non-empty runs of characters other than a space. */
  function Words(s: string): (r: seq<string>)
    ensures forall k :: 0 <= k < |r| ==> |r[k]| > 0 && NoSpace(r[k])
    decreases |s|
  {
    var i := FirstSpace(s);
    if i == |s| then (if |s| == 0 then [] else [s])
    else (if i == 0 then [] else [s[..i]]) + Words(s[i + 1..])
  }

  /** A word followed by a space starts the word list of the whole. */
  lemma WordThenRest(word: string, rest: string)
    requires |word| > 0 && NoSpace(word)
    ensures Words(word + " " + rest) == [word] + Words(rest)
  {
    var s := word + " " + rest;
    FirstSpaceOf(word, rest);
    assert s[..|word|] == word;
    assert s[|word| + 1..] == rest;
  }

  /** The first space of a word followed by a space is right after the word. */
  lemma {:induction false} FirstSpaceOf(word: string, rest: string)
    requires NoSpace(word)
    ensures FirstSpace(word + " " + rest) == |word|
  {
    if |word| > 0 {
      var s := word + " " + rest;
      assert s[1..] == word[1..] + " " + rest;
      FirstSpaceOf(word[1..], rest);
    }
  }

  /** A single word is its own word list. */
  lemma LoneWord(word: string)
    requires |word| > 0 && NoSpace(word)
    ensures Words(word) == [word]
  {
    LoneWordSpace(word);
  }

  /** The first space of text without one is its length. */
  lemma {:induction false} LoneWordSpace(word: string)
    requires NoSpace(word)
    ensures FirstSpace(word) == |word|
  {
    if |word| > 0 {
      LoneWordSpace(word[1..]);
    }
  }

  /** Two texts without spaces joined have none. */
  lemma NoSpaceAppend(a: string, b: string)
    requires NoSpace(a) && NoSpace(b)
    ensures NoSpace(a + b)
  {
    forall i | 0 <= i < |a + b| ensures (a + b)[i] != ' ' {
      if i >= |a| {
        assert (a + b)[i] == b[i - |a|];
      }
    }
  }

  /** Two words joined by a space. */
  lemma TwoWords(a: string, b: string)
    requires |a| > 0 && NoSpace(a) && |b| > 0 && NoSpace(b)
    ensures Words(a + " " + b) == [a, b]
  {
    WordThenRest(a, b);
    LoneWord(b);
  }

  /** Three words joined by spaces. */
  lemma ThreeWords(a: string, b: string, c: string)
    requires |a| > 0 && NoSpace(a) && |b| > 0 && NoSpace(b) && |c| > 0 && NoSpace(c)
    ensures Words(a + " " + b + " " + c) == [a, b, c]
  {
    var bc := b + " " + c;
    calc {
      Words(a + " " + b + " " + c);
      { assert a + " " + b + " " + c == a + " " + bc; }
      Words(a + " " + bc);
      { WordThenRest(a, bc); }
      [a] + Words(bc);
      { TwoWords(b, c); }
      [a] + [b, c];
    }
  }

  /** The empty command line has no words. */
  lemma NoWords()
    ensures Words("") == []
  {
  }

  /** Each word of a list followed by one space, as an argument builder appends them. */
  function Spaced(ws: seq<string>): (s: string)
    ensures |s| >= |ws|
  {
    if |ws| == 0 then "" else ws[0] + " " + Spaced(ws[1..])
  }

  /** Every entry is a word: non-empty, without a space. */
  predicate AllWords(ws: seq<string>)
  {
    forall k :: 0 <= k < |ws| ==> |ws[k]| > 0 && NoSpace(ws[k])
  }

  /** Spaced words before more text: the first word, a space, then the rest. */
  lemma SpacedCons(ws: seq<string>, rest: string)
    requires |ws| > 0
    ensures Spaced(ws) + rest == ws[0] + " " + (Spaced(ws[1..]) + rest)
  {
  }

  /** The first entry of a word list is a word, and so is every later one. */
  lemma AllWordsCons(ws: seq<string>)
    requires |ws| > 0 && AllWords(ws)
    ensures |ws[0]| > 0 && NoSpace(ws[0]) && AllWords(ws[1..])
  {
    assert forall k :: 0 <= k < |ws| - 1 ==> ws[1..][k] == ws[k + 1];
  }

  /** Words written each followed by a space come back as the same words, before the words of what follows. */
  lemma {:induction false} SpacedWords(ws: seq<string>, rest: string)
    requires AllWords(ws)
    ensures Words(Spaced(ws) + rest) == ws + Words(rest)
  {
    if |ws| > 0 {
      var w, more := ws[0], ws[1..];
      var tail := Spaced(more) + rest;
      AllWordsCons(ws);
      SpacedCons(ws, rest);
      calc {
        Words(Spaced(ws) + rest);
        Words(w + " " + tail);
        { WordThenRest(w, tail); }
        [w] + Words(tail);
        { SpacedWords(more, rest); }
        [w] + (more + Words(rest));
        { assert [w] + more == ws; }
        ws + Words(rest);
      }
    } else {
      assert Spaced(ws) + rest == rest;
    }
  }


}
