/** Splitting strings at a separator and joining them again. */
module Text {
  predicate Free(s: string, sep: char) {
    sep !in s
  }

  predicate AllFree(words: seq<string>, sep: char) {
    forall i :: 0 <= i < |words| ==> Free(words[i], sep)
  }

  function Join(words: seq<string>, sep: char): string
    requires words != []
  {
    if |words| == 1 then words[0] else words[0] + [sep] + Join(words[1..], sep)
  }

  function Split(s: string, sep: char): (words: seq<string>)
    ensures words != []
  {
    if s == "" then [""]
    else
      var words := Split(s[1..], sep);
      if s[0] == sep then [""] + words else [[s[0]] + words[0]] + words[1..]
  }

  lemma {:induction false} SplitIsFree(s: string, sep: char)
    ensures AllFree(Split(s, sep), sep)
  {
    if s != "" {
      SplitIsFree(s[1..], sep);
    }
  }

  /** The first word ends at or before any separator. */
  lemma {:induction false} FirstWordEnds(s: string, sep: char, i: nat)
    requires i < |s| && s[i] == sep
    ensures |Split(s, sep)[0]| <= i
    decreases i
  {
    if i > 0 {
      FirstWordEnds(s[1..], sep, i - 1);
    }
  }

  /** Joining what was split gives the string back. */
  lemma {:induction false} JoinSplit(s: string, sep: char)
    ensures Join(Split(s, sep), sep) == s
  {
    if s != "" {
      var words := Split(s[1..], sep);
      JoinSplit(s[1..], sep);
      if s[0] == sep {
        assert ([""] + words)[1..] == words;
      } else if |words| > 1 {
        assert ([[s[0]] + words[0]] + words[1..])[1..] == words[1..];
        assert [s[0]] + words[0] + [sep] + Join(words[1..], sep) == [s[0]] + Join(words, sep);
      }
    }
  }

  lemma {:induction false} SplitAtSeparator(word: string, s: string, sep: char)
    requires Free(word, sep)
    ensures Split(word + [sep] + s, sep) == [word] + Split(s, sep)
    ensures Split(word, sep) == [word]
  {
    var whole := word + [sep] + s;
    if word == "" {
      assert whole[1..] == s;
    } else {
      assert whole[1..] == word[1..] + [sep] + s;
      SplitAtSeparator(word[1..], s, sep);
      assert [word[0]] + word[1..] == word;
      assert ([word[1..]] + Split(s, sep))[1..] == Split(s, sep);
    }
  }

  lemma {:induction false} SplitJoin(words: seq<string>, sep: char)
    requires words != [] && AllFree(words, sep)
    ensures Split(Join(words, sep), sep) == words
  {
    if |words| > 1 {
      SplitJoin(words[1..], sep);
      SplitAtSeparator(words[0], Join(words[1..], sep), sep);
    } else {
      SplitAtSeparator(words[0], "", sep);
    }
  }

  /** Splitting gives back the words that were joined exactly when none of them has the separator. */
  lemma SplitJoinIff(words: seq<string>, sep: char)
    requires words != []
    ensures Split(Join(words, sep), sep) == words <==> AllFree(words, sep)
  {
    SplitIsFree(Join(words, sep), sep);
    if AllFree(words, sep) {
      SplitJoin(words, sep);
    }
  }
}
