/** Converting keys between snake case and camel case (actors/models.py), for ASCII text. */
module KeyCase {
  import Text

  predicate IsUpper(c: char) {
    'A' <= c <= 'Z'
  }

  predicate IsLower(c: char) {
    'a' <= c <= 'z'
  }

  function ToUpper(c: char): char {
    if IsLower(c) then c - 'a' + 'A' else c
  }

  function ToLower(c: char): char {
    if IsUpper(c) then c - 'A' + 'a' else c
  }

  function Lower(s: string): string {
    seq(|s|, i requires 0 <= i < |s| => ToLower(s[i]))
  }

  function Capitalize(s: string): string {
    if s == "" then "" else [ToUpper(s[0])] + Lower(s[1..])
  }

  /** The words are joined without separators, the first non-empty one in lower case; an empty word becomes "_". */
  function JoinWords(words: seq<string>, started: bool): string {
    if words == [] then ""
    else if words[0] == "" then "_" + JoinWords(words[1..], started)
    else (if started then Capitalize(words[0]) else Lower(words[0])) + JoinWords(words[1..], true)
  }

  function UnderToCamel(key: string): string {
    JoinWords(Text.Split(key, '_'), false)
  }

  /** An underscore goes before every capital that is not at the start; then everything is put in lower case. */
  function InsertUnderscores(s: string, atStart: bool): string {
    if s == "" then ""
    else (if IsUpper(s[0]) && !atStart then "_" else "") + [s[0]] + InsertUnderscores(s[1..], false)
  }

  function CamelToUnder(key: string): string {
    Lower(InsertUnderscores(key, true))
  }

  // ---------------------------------------------------------------------------------------------
  // What one conversion undoes
  // ---------------------------------------------------------------------------------------------

  function Back(s: string, atStart: bool): string {
    Lower(InsertUnderscores(s, atStart))
  }

  lemma LowerOfParts(s: string, t: string)
    ensures Lower(s + t) == Lower(s) + Lower(t)
  {
  }

  lemma {:induction false} InsertOfParts(s: string, t: string, atStart: bool)
    ensures InsertUnderscores(s + t, atStart)
         == InsertUnderscores(s, atStart) + InsertUnderscores(t, atStart && s == "")
    decreases |s|
  {
    if s == "" {
      assert s + t == t;
    } else {
      assert (s + t)[1..] == s[1..] + t;
      InsertOfParts(s[1..], t, false);
    }
  }

  lemma BackOfParts(s: string, t: string, atStart: bool)
    ensures Back(s + t, atStart) == Back(s, atStart) + Back(t, atStart && s == "")
  {
    InsertOfParts(s, t, atStart);
    LowerOfParts(InsertUnderscores(s, atStart), InsertUnderscores(t, atStart && s == ""));
  }

  lemma BackOfFirst(s: string, atStart: bool)
    requires s != ""
    ensures Back(s, atStart) == (if IsUpper(s[0]) && !atStart then "_" else "") + [ToLower(s[0])] + Back(s[1..], false)
  {
  }

  lemma {:induction false} BackOfLower(s: string, atStart: bool)
    requires forall i :: 0 <= i < |s| ==> !IsUpper(s[i])
    ensures Back(s, atStart) == s
    decreases |s|
  {
    if s != "" {
      BackOfLower(s[1..], false);
      BackOfFirst(s, atStart);
    }
  }

  lemma LowerOfFirst(s: string)
    requires s != ""
    ensures Lower(s) == [ToLower(s[0])] + Lower(s[1..])
  {
  }

  lemma CapitalAndSmall(c: char)
    ensures ToLower(ToUpper(c)) == ToLower(c) && (IsUpper(ToUpper(c)) <==> IsUpper(c) || IsLower(c))
  {
  }

  lemma BackOfCapitalized(word: string)
    requires word != ""
    ensures Back(Capitalize(word), false) == (if IsUpper(word[0]) || IsLower(word[0]) then "_" else "") + Lower(word)
  {
    var first, rest := ToUpper(word[0]), Lower(word[1..]);
    CapitalAndSmall(word[0]);
    LowerOfFirst(word);
    BackOfParts([first], rest, false);
    BackOfLower(rest, false);
    BackOfFirst([first], false);
    assert Back([first][1..], false) == "";
  }

  /** What comes back of a word after the first one. */
  function RoundTripWord(word: string): string {
    if word == "" then "_" else (if IsUpper(word[0]) || IsLower(word[0]) then "_" else "") + Lower(word)
  }

  /** What both conversions together make of the words. */
  function RoundTrip(words: seq<string>, started: bool): string {
    if words == [] then ""
    else if words[0] == "" then "_" + RoundTrip(words[1..], started)
    else (if started then RoundTripWord(words[0]) else Lower(words[0])) + RoundTrip(words[1..], true)
  }

  lemma {:induction false} BothConversions(words: seq<string>, started: bool, atStart: bool)
    requires started ==> !atStart
    ensures Back(JoinWords(words, started), atStart) == RoundTrip(words, started)
    decreases |words|
  {
    if words != [] {
      var word := if words[0] == "" then "_" else if started then Capitalize(words[0]) else Lower(words[0]);
      var still := if words[0] == "" then started else true;
      BackOfParts(word, JoinWords(words[1..], still), atStart);
      BothConversions(words[1..], still, false);
      if words[0] == "" {
        BackOfLower("_", atStart);
      } else {
        BackOfLower(Lower(words[0]), atStart);
        BackOfCapitalized(words[0]);
      }
    }
  }

  /** The words after the first, each with its underscore. */
  function Tail(words: seq<string>): string {
    if words == [] then "" else "_" + words[0] + Tail(words[1..])
  }

  lemma {:induction false} JoinIsFirstAndTail(words: seq<string>)
    requires words != []
    ensures Text.Join(words, '_') == words[0] + Tail(words[1..])
    decreases |words|
  {
    if |words| > 1 {
      JoinIsFirstAndTail(words[1..]);
    }
  }

  predicate IsLowerCase(s: string) {
    forall i :: 0 <= i < |s| ==> !IsUpper(s[i])
  }

  predicate LaterWord(word: string) {
    IsLowerCase(word) && (word != "" ==> IsLower(word[0]))
  }

  predicate LaterWords(words: seq<string>) {
    forall i :: 0 <= i < |words| ==> LaterWord(words[i])
  }

  lemma LowerKeeps(s: string)
    ensures Lower(s) == s <==> IsLowerCase(s)
  {
    if Lower(s) == s {
      forall i | 0 <= i < |s| ensures !IsUpper(s[i]) {
        assert Lower(s)[i] == s[i];
      }
    }
  }

  lemma SameParts(a: string, b: string, c: string, d: string)
    requires a + b == c + d && |a| == |c|
    ensures a == c && b == d
  {
    assert (a + b)[..|a|] == a && (c + d)[..|c|] == c;
    assert (a + b)[|a|..] == b && (c + d)[|c|..] == d;
  }

  lemma RoundTripWordIff(word: string)
    ensures |RoundTripWord(word)| <= |word| + 1
    ensures RoundTripWord(word) == "_" + word <==> LaterWord(word)
  {
    LowerKeeps(word);
    if word != "" && RoundTripWord(word) == "_" + word {
      SameParts("_", Lower(word), "_", word);
    }
  }

  lemma {:induction false} LaterWordsIff(words: seq<string>)
    ensures |RoundTrip(words, true)| <= |Tail(words)|
    ensures RoundTrip(words, true) == Tail(words) <==> LaterWords(words)
    decreases |words|
  {
    if words != [] {
      var word, rest := words[0], words[1..];
      LaterWordsIff(rest);
      RoundTripWordIff(word);
      assert RoundTrip(words, true) == RoundTripWord(word) + RoundTrip(rest, true);
      assert Tail(words) == ("_" + word) + Tail(rest);
      if RoundTrip(words, true) == Tail(words) {
        SameParts(RoundTripWord(word), RoundTrip(rest, true), "_" + word, Tail(rest));
      }
      assert LaterWords(words) <==> LaterWord(word) && LaterWords(rest) by {
        assert forall i :: 0 <= i < |rest| ==> rest[i] == words[i + 1];
        assert forall i :: 0 < i < |words| ==> words[i] == rest[i - 1];
      }
    }
  }

  /** At the place of the first word: all words before it are empty. */
  ghost predicate FirstWordAt(words: seq<string>, f: nat) {
    f < |words| && words[f] != "" && forall i :: 0 <= i < f ==> words[i] == ""
  }

  ghost predicate ReversibleAt(words: seq<string>, f: nat) {
    FirstWordAt(words, f) && IsLowerCase(words[f]) && LaterWords(words[f + 1..])
  }

  ghost predicate Reversible(words: seq<string>) {
    exists f: nat :: ReversibleAt(words, f)
  }

  lemma SamePartsIff(a: string, b: string, c: string, d: string)
    requires |a| == |c|
    ensures a + b == c + d <==> a == c && b == d
  {
    if a + b == c + d {
      SameParts(a, b, c, d);
    }
  }

  lemma EmptyWordComesBack(words: seq<string>)
    requires |words| > 1 && words[0] == ""
    ensures RoundTrip(words, false) == Text.Join(words, '_')
       <==> RoundTrip(words[1..], false) == Text.Join(words[1..], '_')
  {
    var rest := words[1..];
    assert Text.Join(words, '_') == "_" + Text.Join(rest, '_');
    SamePartsIff("_", RoundTrip(rest, false), "_", Text.Join(rest, '_'));
  }

  lemma FirstWordComesBack(words: seq<string>)
    requires words != [] && words[0] != ""
    ensures RoundTrip(words, false) == Text.Join(words, '_')
       <==> Lower(words[0]) == words[0] && RoundTrip(words[1..], true) == Tail(words[1..])
  {
    JoinIsFirstAndTail(words);
    SamePartsIff(Lower(words[0]), RoundTrip(words[1..], true), words[0], Tail(words[1..]));
  }

  lemma OnlyFirstWord(words: seq<string>)
    requires words != [] && words[0] != ""
    ensures Reversible(words) <==> IsLowerCase(words[0]) && LaterWords(words[1..])
  {
    assert forall f: nat :: ReversibleAt(words, f) ==> f == 0;
    assert ReversibleAt(words, 0) <==> IsLowerCase(words[0]) && LaterWords(words[1..]);
  }

  lemma FirstWordIff(words: seq<string>)
    requires words != [] && words[0] != ""
    ensures RoundTrip(words, false) == Text.Join(words, '_') <==> Reversible(words)
  {
    FirstWordComesBack(words);
    LaterWordsIff(words[1..]);
    LowerKeeps(words[0]);
    OnlyFirstWord(words);
  }

  lemma FirstWordBelow(words: seq<string>)
    requires words != [] && words[0] == ""
    ensures Reversible(words) <==> Reversible(words[1..])
  {
    var rest := words[1..];
    forall f: nat | ReversibleAt(words, f) ensures Reversible(rest) {
      assert f > 0;
      assert rest[f - 1] == words[f] && rest[f..] == words[f + 1..];
      assert ReversibleAt(rest, f - 1);
    }
    forall f: nat | ReversibleAt(rest, f) ensures Reversible(words) {
      assert words[f + 1] == rest[f] && words[f + 2..] == rest[f + 1..];
      assert ReversibleAt(words, f + 1);
    }
  }

  lemma {:induction false} WordsIff(words: seq<string>)
    requires words != []
    ensures RoundTrip(words, false) == Text.Join(words, '_') <==> Reversible(words)
    decreases |words|
  {
    var rest := words[1..];
    if words[0] != "" {
      FirstWordIff(words);
    } else if rest == [] {
      assert forall f: nat :: !ReversibleAt(words, f);
    } else {
      WordsIff(rest);
      FirstWordBelow(words);
      EmptyWordComesBack(words);
    }
  }

  /**
   For every key: converting to camel case and back gives the key exactly when it has a word, no capitals, and every
   non-empty word after the first starts with a letter.
   */
  lemma RoundTripIff(key: string)
    ensures CamelToUnder(UnderToCamel(key)) == key <==> Reversible(Text.Split(key, '_'))
  {
    var words := Text.Split(key, '_');
    BothConversions(words, false, true);
    Text.JoinSplit(key, '_');
    WordsIff(words);
  }

  predicate IsWordChar(c: char) {
    IsLower(c) || '0' <= c <= '9'
  }

  predicate IsWord(w: string) {
    w != "" && forall i :: 0 <= i < |w| ==> IsWordChar(w[i])
  }

  lemma WordsArePlain(w: string)
    requires IsWord(w)
    ensures Text.Free(w, '_') && IsLowerCase(w)
  {
  }

  /** Keys as the platform writes them: words of small letters and digits, the later ones starting with a letter. */
  lemma SnakeKeysRoundTrip(words: seq<string>)
    requires words != [] && forall i :: 0 <= i < |words| ==> IsWord(words[i]) && (i > 0 ==> IsLower(words[i][0]))
    ensures CamelToUnder(UnderToCamel(Text.Join(words, '_'))) == Text.Join(words, '_')
  {
    forall i | 0 <= i < |words| ensures Text.Free(words[i], '_') && IsLowerCase(words[i]) {
      WordsArePlain(words[i]);
    }
    Text.SplitJoin(words, '_');
    RoundTripIff(Text.Join(words, '_'));
    forall i | 0 <= i < |words| - 1 ensures LaterWord(words[1..][i]) {
      assert words[1..][i] == words[i + 1];
    }
    assert ReversibleAt(words, 0);
  }

  /** Before a word that starts with a digit the underscore is lost, so two keys become one. */
  lemma DigitWordsMerge(word: string, digits: string)
    requires word != "" && Text.Free(word, '_') && Text.Free(digits, '_')
    requires digits != "" && !IsUpper(digits[0]) && !IsLower(digits[0])
    ensures UnderToCamel(word + "_" + digits) == UnderToCamel(word + digits)
  {
    Text.SplitAtSeparator(word, digits, '_');
    Text.SplitAtSeparator(digits, "", '_');
    Text.SplitAtSeparator(word + digits, "", '_');
    LowerOfParts(word, digits);
    LowerOfFirst(digits);
    assert JoinWords([digits], true) == Capitalize(digits) + JoinWords([], true);
    assert [word, digits][1..] == [digits] && [digits][1..] == [];
  }

  // ---------------------------------------------------------------------------------------------
  // From camel case and back
  // ---------------------------------------------------------------------------------------------

  lemma LowerIsItself(s: string)
    requires IsLowerCase(s)
    ensures Lower(s) == s
  {
  }

  /** One word so far, in small letters, as it comes out. */
  function WordOut(word: string, started: bool): string
    requires word != ""
  {
    if started then [ToUpper(word[0])] + word[1..] else word
  }

  lemma WordComesOut(word: string, started: bool)
    requires word != "" && IsLowerCase(word) && Text.Free(word, '_')
    ensures JoinWords(Text.Split(word, '_'), started) == WordOut(word, started)
  {
    Text.SplitAtSeparator(word, "", '_');
    LowerIsItself(word);
    LowerIsItself(word[1..]);
    assert JoinWords([word], started) == WordOut(word, started) + JoinWords([], true);
  }

  lemma WordAndRest(word: string, rest: string, started: bool)
    requires word != "" && IsLowerCase(word) && Text.Free(word, '_')
    ensures JoinWords(Text.Split(word + "_" + rest, '_'), started)
         == WordOut(word, started) + JoinWords(Text.Split(rest, '_'), true)
  {
    Text.SplitAtSeparator(word, rest, '_');
    LowerIsItself(word);
    LowerIsItself(word[1..]);
    var words := [word] + Text.Split(rest, '_');
    assert words[1..] == Text.Split(rest, '_');
  }

  lemma ThreeParts(a: string, b: string, c: string)
    ensures a + (b + c) == (a + b) + c
  {
  }

  lemma CapitalEndsWord(word: string, s: string)
    requires s != "" && IsUpper(s[0])
    ensures word + Back(s, false) == word + "_" + ([ToLower(s[0])] + Back(s[1..], false))
  {
    BackOfFirst(s, false);
    var next := [ToLower(s[0])];
    assert "_" + next + Back(s[1..], false) == "_" + (next + Back(s[1..], false));
    ThreeParts(word, "_", next + Back(s[1..], false));
  }

  lemma SmallIsRead(word: string, s: string)
    requires s != "" && !IsUpper(s[0])
    ensures word + Back(s, false) == (word + [s[0]]) + Back(s[1..], false)
  {
    BackOfFirst(s, false);
    ThreeParts(word, [s[0]], Back(s[1..], false));
  }

  lemma LongerWord(word: string, c: char, s: string, started: bool)
    requires word != ""
    ensures WordOut(word + [c], started) + s == WordOut(word, started) + ([c] + s)
  {
  }

  /** A camel-case text after the word that is being read. */
  lemma {:induction false} CamelTailComesBack(word: string, s: string, started: bool)
    requires word != "" && IsLowerCase(word) && Text.Free(word, '_') && Text.Free(s, '_')
    ensures JoinWords(Text.Split(word + Back(s, false), '_'), started) == WordOut(word, started) + s
    decreases |s|
  {
    if s == "" {
      assert word + Back(s, false) == word;
      WordComesOut(word, started);
    } else if IsUpper(s[0]) {
      var next := [ToLower(s[0])];
      CapitalEndsWord(word, s);
      WordAndRest(word, next + Back(s[1..], false), started);
      CamelTailComesBack(next, s[1..], true);
      assert WordOut(next, true) + s[1..] == s;
    } else {
      SmallIsRead(word, s);
      CamelTailComesBack(word + [s[0]], s[1..], started);
      LongerWord(word, s[0], s[1..], started);
      assert [s[0]] + s[1..] == s;
    }
  }

  /**
   For every key without an underscore: converting from camel case and back gives the key exactly when it is not empty
   and does not start with a capital.
   */
  lemma CamelRoundTripIff(key: string)
    requires Text.Free(key, '_')
    ensures UnderToCamel(CamelToUnder(key)) == key <==> key != "" && !IsUpper(key[0])
  {
    if key == "" {
      assert CamelToUnder("") == "" && Text.Split("", '_') == [""];
      assert JoinWords([""], false) == "_" + JoinWords([""][1..], false);
    } else {
      BackOfFirst(key, true);
      var first := [ToLower(key[0])];
      assert CamelToUnder(key) == first + Back(key[1..], false);
      CamelTailComesBack(first, key[1..], false);
      assert UnderToCamel(CamelToUnder(key)) == first + key[1..];
      assert (first + key[1..])[0] == first[0];
    }
  }

  predicate AllWords(words: seq<string>) {
    forall i :: 0 <= i < |words| ==> words[i] != "" && Text.Free(words[i], '_')
  }

  lemma OneWord(word: string, started: bool)
    requires word != ""
    ensures JoinWords([word], started) == (if started then Capitalize(word) else Lower(word))
  {
    assert [word][1..] == [] && JoinWords([], true) == "";
  }

  lemma {:induction false} OneWordMore(words: seq<string>, word: string, started: bool)
    requires words != [] && AllWords(words) && word != ""
    ensures JoinWords(words + [word], started) == JoinWords(words, started) + Capitalize(word)
    decreases |words|
  {
    var first := if started then Capitalize(words[0]) else Lower(words[0]);
    assert (words + [word])[1..] == words[1..] + [word];
    if |words| == 1 {
      OneWord(word, true);
      OneWord(words[0], started);
    } else {
      OneWordMore(words[1..], word, true);
      ThreeParts(first, JoinWords(words[1..], true), Capitalize(word));
    }
  }

  lemma CamelOfOneWord(word: string)
    requires word != "" && Text.Free(word, '_')
    ensures UnderToCamel(word) == Lower(word)
  {
    Text.SplitAtSeparator(word, "", '_');
    OneWord(word, false);
  }

  /** The camel case of words: each further word adds its first letter as a capital, the others as small ones. */
  lemma CamelOfWords(words: seq<string>, word: string)
    requires words != [] && AllWords(words)
    requires word != "" && Text.Free(word, '_')
    ensures UnderToCamel(Text.Join(words + [word], '_'))
         == UnderToCamel(Text.Join(words, '_')) + ([ToUpper(word[0])] + Lower(word[1..]))
  {
    Text.SplitJoin(words, '_');
    Text.SplitJoin(words + [word], '_');
    OneWordMore(words, word, false);
  }

  // ---------------------------------------------------------------------------------------------
  // Dictionaries
  // ---------------------------------------------------------------------------------------------

  /** The items of a dictionary, in the order in which Python goes through them. */
  type Items<T> = seq<(string, T)>

  function AsMap<T>(items: Items<T>): map<string, T> {
    if items == [] then map[] else AsMap(items[..|items|-1])[items[|items|-1].0 := items[|items|-1].1]
  }

  predicate DistinctKeys<T>(items: Items<T>) {
    forall i, j :: 0 <= i < j < |items| ==> items[i].0 != items[j].0
  }

  /** Going through the items, each value is stored under its converted key. */
  function Renamed<T>(items: Items<T>, f: string -> string): Items<T> {
    seq(|items|, i requires 0 <= i < |items| => (f(items[i].0), items[i].1))
  }

  function DictToCamel<T>(items: Items<T>): map<string, T> {
    AsMap(Renamed(items, UnderToCamel))
  }

  /** Only the part of a key before its first dot is converted. */
  function UnderKey(key: string): string {
    var parts := Text.Split(key, '.');
    Text.Join([CamelToUnder(parts[0])] + parts[1..], '.')
  }

  lemma DottedKey(head: string, tail: string)
    requires Text.Free(head, '.')
    ensures UnderKey(head + "." + tail) == CamelToUnder(head) + "." + tail
    ensures UnderKey(head) == CamelToUnder(head)
  {
    Text.SplitAtSeparator(head, tail, '.');
    Text.JoinSplit(tail, '.');
    var parts := [head] + Text.Split(tail, '.');
    assert parts[1..] == Text.Split(tail, '.');
    assert ([CamelToUnder(head)] + parts[1..])[1..] == parts[1..];
    assert [CamelToUnder(head)] + [head][1..] == [CamelToUnder(head)];
  }

  function DictToUnder<T>(items: Items<T>): map<string, T> {
    AsMap(Renamed(items, UnderKey))
  }

  /** Of items whose keys are converted to the same one, the last one stays. */
  lemma LastItemStays<T>(items: Items<T>, key: string, value: T)
    ensures DictToCamel(items + [(key, value)]) == DictToCamel(items)[UnderToCamel(key) := value]
    ensures DictToUnder(items + [(key, value)]) == DictToUnder(items)[UnderKey(key) := value]
  {
    var more := items + [(key, value)];
    assert Renamed(more, UnderToCamel)[..|items|] == Renamed(items, UnderToCamel);
    assert Renamed(more, UnderKey)[..|items|] == Renamed(items, UnderKey);
  }

  lemma {:induction false} AsMapKeys<T>(items: Items<T>)
    ensures forall k :: k in AsMap(items) <==> exists i :: 0 <= i < |items| && items[i].0 == k
    decreases |items|
  {
    if items != [] {
      var before := items[..|items|-1];
      AsMapKeys(before);
      assert forall i :: 0 <= i < |before| ==> before[i] == items[i];
    }
  }

  lemma RenamedKeys<T>(items: Items<T>, f: string -> string, k: string)
    ensures k in AsMap(Renamed(items, f)) <==> exists i :: 0 <= i < |items| && f(items[i].0) == k
  {
    var renamed := Renamed(items, f);
    AsMapKeys(renamed);
    assert forall i :: 0 <= i < |items| ==> renamed[i].0 == f(items[i].0);
  }

  method ConvertToCamel<T>(items: Items<T>) returns (converted: map<string, T>)
    ensures converted == DictToCamel(items)
    ensures forall k :: k in converted <==> exists i :: 0 <= i < |items| && UnderToCamel(items[i].0) == k
  {
    converted := map[];
    for n := 0 to |items|
      invariant converted == DictToCamel(items[..n])
    {
      LastItemStays(items[..n], items[n].0, items[n].1);
      assert items[..n] + [(items[n].0, items[n].1)] == items[..n + 1];
      converted := converted[UnderToCamel(items[n].0) := items[n].1];
    }
    assert items[..|items|] == items;
    forall k ensures k in converted <==> exists i :: 0 <= i < |items| && UnderToCamel(items[i].0) == k {
      RenamedKeys(items, UnderToCamel, k);
    }
  }

  method ConvertToUnder<T>(items: Items<T>) returns (converted: map<string, T>)
    ensures converted == DictToUnder(items)
    ensures forall k :: k in converted <==> exists i :: 0 <= i < |items| && UnderKey(items[i].0) == k
  {
    converted := map[];
    for n := 0 to |items|
      invariant converted == DictToUnder(items[..n])
    {
      LastItemStays(items[..n], items[n].0, items[n].1);
      assert items[..n] + [(items[n].0, items[n].1)] == items[..n + 1];
      converted := converted[UnderKey(items[n].0) := items[n].1];
    }
    assert items[..|items|] == items;
    forall k ensures k in converted <==> exists i :: 0 <= i < |items| && UnderKey(items[i].0) == k {
      RenamedKeys(items, UnderKey, k);
    }
  }

  ghost predicate Convertible(key: string) {
    Reversible(Text.Split(key, '_')) && Text.Free(key, '.')
  }

  lemma {:induction false} FreeWords(words: seq<string>, started: bool)
    requires Text.AllFree(words, '.')
    ensures Text.Free(JoinWords(words, started), '.')
    decreases |words|
  {
    if words != [] {
      FreeWords(words[1..], if words[0] == "" then started else true);
    }
  }

  lemma {:induction false} SplitKeepsFree(s: string)
    requires Text.Free(s, '.')
    ensures Text.AllFree(Text.Split(s, '_'), '.')
  {
    if s != "" {
      SplitKeepsFree(s[1..]);
    }
  }

  lemma ConvertibleKey(key: string)
    requires Convertible(key)
    ensures UnderKey(UnderToCamel(key)) == key
  {
    RoundTripIff(key);
    SplitKeepsFree(key);
    FreeWords(Text.Split(key, '_'), false);
    Text.SplitAtSeparator(UnderToCamel(key), "", '.');
    assert [CamelToUnder(UnderToCamel(key))] + [] == [key];
  }

  ghost predicate AllConvertible<T>(items: Items<T>) {
    forall i :: 0 <= i < |items| ==> Convertible(items[i].0)
  }

  ghost predicate Holds<T>(d: map<string, T>, key: string, value: T) {
    key in d && d[key] == value
  }

  lemma DistinctCamels<T>(items: Items<T>, i: nat, j: nat)
    requires DistinctKeys(items) && AllConvertible(items) && i < j < |items|
    ensures UnderToCamel(items[i].0) != UnderToCamel(items[j].0)
  {
    ConvertibleKey(items[i].0);
    ConvertibleKey(items[j].0);
  }

  lemma {:induction false} AsMapLookup<T>(items: Items<T>)
    requires DistinctKeys(items)
    ensures forall i :: 0 <= i < |items| ==> Holds(AsMap(items), items[i].0, items[i].1)
    ensures forall k :: k in AsMap(items) ==> exists i :: 0 <= i < |items| && k == items[i].0
    ensures |AsMap(items)| == |items|
    decreases |items|
  {
    if items != [] {
      var before := items[..|items|-1];
      AsMapLookup(before);
      assert forall i :: 0 <= i < |before| ==> before[i] == items[i];
    }
  }

  /** No two items merge: the converted dictionary holds every value under its own converted key, and nothing else. */
  lemma DictToCamelKeepsItems<T>(items: Items<T>)
    requires DistinctKeys(items) && AllConvertible(items)
    ensures forall i :: 0 <= i < |items| ==> Holds(DictToCamel(items), UnderToCamel(items[i].0), items[i].1)
    ensures forall k :: k in DictToCamel(items) ==> exists i :: 0 <= i < |items| && k == UnderToCamel(items[i].0)
    ensures |DictToCamel(items)| == |items|
  {
    var renamed := Renamed(items, UnderToCamel);
    forall i, j | 0 <= i < j < |renamed| ensures renamed[i].0 != renamed[j].0 {
      DistinctCamels(items, i, j);
    }
    AsMapLookup(renamed);
    forall i | 0 <= i < |items| ensures Holds(DictToCamel(items), UnderToCamel(items[i].0), items[i].1) {
      assert renamed[i] == (UnderToCamel(items[i].0), items[i].1);
    }
  }

  /** Items that all belong to a dictionary give a part of it. */
  lemma {:induction false} AsMapWithin<T>(items: Items<T>, whole: map<string, T>)
    requires forall i :: 0 <= i < |items| ==> Holds(whole, items[i].0, items[i].1)
    ensures forall k :: k in AsMap(items) ==> Holds(whole, k, AsMap(items)[k])
    ensures forall i :: 0 <= i < |items| ==> items[i].0 in AsMap(items)
    decreases |items|
  {
    if items != [] {
      AsMapWithin(items[..|items|-1], whole);
    }
  }

  lemma ConvertedItem<T>(items: Items<T>, key: string, value: T)
    requires DistinctKeys(items) && AllConvertible(items)
    requires Holds(DictToCamel(items), key, value)
    ensures Holds(AsMap(items), UnderKey(key), value)
  {
    DictToCamelKeepsItems(items);
    AsMapLookup(items);
    var i :| 0 <= i < |items| && key == UnderToCamel(items[i].0);
    ConvertibleKey(items[i].0);
  }

  lemma OriginalItem<T>(items: Items<T>, key: string)
    requires DistinctKeys(items) && AllConvertible(items) && key in AsMap(items)
    ensures UnderToCamel(key) in DictToCamel(items) && UnderKey(UnderToCamel(key)) == key
  {
    DictToCamelKeepsItems(items);
    AsMapLookup(items);
    var i :| 0 <= i < |items| && key == items[i].0;
    ConvertibleKey(key);
  }

  lemma ItemComesBack<T>(items: Items<T>, converted: Items<T>, key: string)
    requires DistinctKeys(items) && AllConvertible(items) && key in AsMap(items)
    requires DistinctKeys(converted) && AsMap(converted) == DictToCamel(items)
    ensures exists j :: 0 <= j < |converted| && UnderKey(converted[j].0) == key
  {
    OriginalItem(items, key);
    AsMapLookup(converted);
    var j :| 0 <= j < |converted| && UnderToCamel(key) == converted[j].0;
  }

  /** The dictionary comes back whole, whatever order the converted dictionary is gone through in. */
  lemma DictRoundTrip<T>(items: Items<T>, converted: Items<T>)
    requires DistinctKeys(items) && AllConvertible(items)
    requires DistinctKeys(converted) && AsMap(converted) == DictToCamel(items)
    ensures DictToUnder(converted) == AsMap(items)
  {
    var original, renamed := AsMap(items), Renamed(converted, UnderKey);
    AsMapLookup(converted);
    forall j | 0 <= j < |renamed| ensures Holds(original, renamed[j].0, renamed[j].1) {
      ConvertedItem(items, converted[j].0, converted[j].1);
    }
    AsMapWithin(renamed, original);
    forall k | k in original ensures k in AsMap(renamed) {
      ItemComesBack(items, converted, k);
      var j :| 0 <= j < |converted| && UnderKey(converted[j].0) == k;
      assert renamed[j].0 == k;
    }
    assert AsMap(renamed).Keys == original.Keys;
  }
}
