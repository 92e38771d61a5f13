/**
 * `wordsToSentence`: folds the recogniser's word list into one sentence. Falsy entries
 * are skipped, every kept word is lowercased, the first kept word has its first
 * character uppercased, and each later word is appended after one space.
 */
module Sentence {
  import opened Text

  /** A word list entry: `None` stands for a falsy entry (`!word`), `Some(v)` for a word with value `v`. */
  type WordEntry = Option<string>

  /** The values of the truthy entries, in order. */
  function Kept(words: seq<WordEntry>): (r: seq<string>)
    ensures |r| <= |words|
    decreases |words|
  {
    if words == [] then []
    else Kept(words[..|words| - 1]) + (match words[|words| - 1] case None => [] case Some(w) => [w])
  }

  /** The source reads the first character of the first kept word, so it must have one. */
  predicate FirstKeptNonEmpty(words: seq<WordEntry>) {
    Kept(words) != [] ==> Kept(words)[0] != []
  }

  function Capitalized(s: string): (r: string)
    requires s != []
  {
    [UpperChar(s[0])] + s[1..]
  }

  /** The accumulator after folding in the kept words `ws`. */
  function Fold(ws: seq<string>): string
    requires ws != [] && ws[0] != []
    decreases |ws|
  {
    if |ws| == 1 then Capitalized(Lower(ws[0]))
    else Fold(ws[..|ws| - 1]) + " " + Lower(ws[|ws| - 1])
  }

  /** The sentence `wordsToSentence` returns. */
  function SentenceOf(words: seq<WordEntry>): string
    requires FirstKeptNonEmpty(words)
  {
    var ws := Kept(words);
    if ws == [] then "" else Fold(ws)
  }

  /** The words joined by single spaces, as typed: the reference the fold is compared with. */
  function JoinWithSpaces(ws: seq<string>): string
    requires ws != []
    decreases |ws|
  {
    if |ws| == 1 then ws[0] else JoinWithSpaces(ws[..|ws| - 1]) + " " + ws[|ws| - 1]
  }

  function TotalLength(ws: seq<string>): nat
    decreases |ws|
  {
    if ws == [] then 0 else TotalLength(ws[..|ws| - 1]) + |ws[|ws| - 1]|
  }

  /**
   * The imperative fold of the source: an accumulator and a first-word flag. Upper-casing
   * the first character of an empty first word reads `undefined` and throws.
   */
  method WordsToSentence(words: seq<WordEntry>) returns (r: Result<string>)
    ensures r.Err? <==> !FirstKeptNonEmpty(words)
    ensures r.Err? ==> r.message == TypeError
    ensures r.Ok? ==> r.value == SentenceOf(words)
  {
    var firstWord := true;
    var sentence := "";
    var i := 0;
    while i < |words|
      invariant 0 <= i <= |words|
      invariant firstWord <==> Kept(words[..i]) == []
      invariant Kept(words[..i]) != [] ==> Kept(words[..i])[0] != []
      invariant firstWord ==> sentence == ""
      invariant !firstWord ==> sentence == Fold(Kept(words[..i]))
    {
      KeptStep(words, i);
      if words[i].Some? {
        var currWord := Lower(words[i].value);
        if firstWord {
          assert Kept(words[..i + 1]) == [words[i].value];
          if currWord == [] {
            KeptPrefix(words, i + 1);
            return Err(TypeError);
          }
          firstWord := false;
          sentence := Capitalized(currWord);
        } else {
          FoldStep(Kept(words[..i]), words[i].value);
          sentence := sentence + " " + currWord;
        }
      } else {
        assert Kept(words[..i + 1]) == Kept(words[..i]);
      }
      i := i + 1;
    }
    assert words[..i] == words;
    return Ok(sentence);
  }

  /** One more entry keeps its value, if it has one, after the earlier kept words. */
  lemma KeptStep(words: seq<WordEntry>, i: nat)
    requires i < |words|
    ensures Kept(words[..i + 1]) == Kept(words[..i]) + (if words[i].Some? then [words[i].value] else [])
    ensures FirstKeptNonEmpty(words) && Kept(words[..i + 1]) != [] ==> Kept(words[..i + 1])[0] != []
  {
    assert words[..i + 1][..i] == words[..i];
    KeptPrefix(words, i + 1);
  }

  lemma FoldStep(ws: seq<string>, w: string)
    requires ws != [] && ws[0] != []
    ensures Fold(ws + [w]) == Fold(ws) + " " + Lower(w)
  {
    assert (ws + [w])[..|ws|] == ws;
  }

  lemma {:induction false} KeptAppend(a: seq<WordEntry>, b: seq<WordEntry>)
    ensures Kept(a + b) == Kept(a) + Kept(b)
    decreases |b|
  {
    if b == [] {
      assert a + b == a;
    } else {
      var b' := b[..|b| - 1];
      assert (a + b)[..|a + b| - 1] == a + b';
      KeptAppend(a, b');
    }
  }

  /** The words kept from a prefix are a prefix of the words kept. */
  lemma KeptPrefix(words: seq<WordEntry>, n: nat)
    requires n <= |words|
    ensures Kept(words) == Kept(words[..n]) + Kept(words[n..])
    ensures FirstKeptNonEmpty(words) && Kept(words[..n]) != [] ==> Kept(words[..n])[0] != []
  {
    assert words == words[..n] + words[n..];
    KeptAppend(words[..n], words[n..]);
  }

  /** A list of only falsy entries (or none at all) gives the empty sentence. */
  lemma {:induction false} AllFalsyGivesEmpty(words: seq<WordEntry>)
    requires forall i :: 0 <= i < |words| ==> words[i].None?
    ensures FirstKeptNonEmpty(words) && SentenceOf(words) == ""
    decreases |words|
  {
    if words != [] {
      AllFalsyGivesEmpty(words[..|words| - 1]);
    }
  }

  /** A falsy entry anywhere is skipped: it neither adds text nor uses up the first-word flag. */
  lemma FalsyEntrySkipped(before: seq<WordEntry>, after: seq<WordEntry>)
    requires FirstKeptNonEmpty(before + after)
    ensures FirstKeptNonEmpty(before + [None] + after)
    ensures SentenceOf(before + [None] + after) == SentenceOf(before + after)
  {
    KeptAppend(before, [None]);
    KeptAppend(before + [None], after);
    KeptAppend(before, after);
    assert Kept([None]) == [];
    assert Kept(before + [None] + after) == Kept(before + after);
  }

  lemma {:induction false} LowerAppend(a: string, b: string)
    ensures Lower(a + b) == Lower(a) + Lower(b)
  {
  }

  /**
   * The sentence is the kept words joined by single spaces, lowercased, with only its
   * first character uppercased.
   */
  lemma {:induction false} FoldIsCapitalizedLowerJoin(ws: seq<string>)
    requires ws != [] && ws[0] != []
    ensures JoinWithSpaces(ws) != []
    ensures Fold(ws) == Capitalized(Lower(JoinWithSpaces(ws)))
    decreases |ws|
  {
    if |ws| > 1 {
      var init := ws[..|ws| - 1];
      FoldIsCapitalizedLowerJoin(init);
      var j := JoinWithSpaces(init);
      LowerAppend(j + " ", ws[|ws| - 1]);
      LowerAppend(j, " ");
    }
  }

  /** Only the first character can be an uppercase letter. */
  lemma OnlyFirstCharacterUppercase(words: seq<WordEntry>)
    requires FirstKeptNonEmpty(words)
    ensures var s := SentenceOf(words);
      forall i :: 1 <= i < |s| ==> !('A' <= s[i] <= 'Z')
  {
    var ws := Kept(words);
    if ws != [] {
      FoldIsCapitalizedLowerJoin(ws);
    }
  }

  /** With k >= 1 kept words the sentence has their total length plus k - 1 separating spaces. */
  lemma {:induction false} FoldLength(ws: seq<string>)
    requires ws != [] && ws[0] != []
    ensures |Fold(ws)| == TotalLength(ws) + |ws| - 1
    decreases |ws|
  {
    if |ws| > 1 {
      FoldLength(ws[..|ws| - 1]);
    } else {
      assert ws[..0] == [];
    }
  }

  /** Each later word follows the earlier ones after exactly one space. */
  lemma AppendWordAfterOneSpace(words: seq<WordEntry>, w: string)
    requires FirstKeptNonEmpty(words) && Kept(words) != []
    ensures FirstKeptNonEmpty(words + [Some(w)])
    ensures SentenceOf(words + [Some(w)]) == SentenceOf(words) + " " + Lower(w)
  {
    assert (words + [Some(w)])[..|words|] == words;
  }

  /** "HELLO", a falsy entry, then "World" make "Hello world". */
  lemma HelloWorld()
    ensures FirstKeptNonEmpty([Some("HELLO"), None, Some("World")])
    ensures SentenceOf([Some("HELLO"), None, Some("World")]) == "Hello world"
  {
    HelloWorldKept();
    HelloWorldFold();
  }

  lemma HelloWorldKept()
    ensures Kept([Some("HELLO"), None, Some("World")]) == ["HELLO", "World"]
  {
    var words: seq<WordEntry> := [Some("HELLO"), None, Some("World")];
    assert words[..2] == [Some("HELLO"), None];
    assert words[..2][..1] == [Some("HELLO")];
    assert [Some("HELLO")][..0] == [];
  }

  lemma HelloWorldFold()
    ensures Fold(["HELLO", "World"]) == "Hello world"
  {
    assert ["HELLO", "World"][..1] == ["HELLO"];
    assert Lower("HELLO") == "hello";
    assert Lower("World") == "world";
  }
}
