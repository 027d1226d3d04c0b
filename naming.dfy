/**
  The identifier splitter: `generateClassFilename` turns a camel-case class
  name into the snake-case stem of the generated file names.

  The source finds every match of the pattern `[A-Z][^A-Z]*` (an ASCII
  upper-case letter followed by the longest run of characters that are not
  ASCII upper-case letters), lower-cases each match and joins them with `_`.
  Here the pattern search is an explicit scan over the characters
  (`FindWords`), the lower-casing a per-character map and the join a fold.
  `Snake` is an independent, one-pass description of the same result.
 */
module Naming {

  /** The character class `[A-Z]`: ASCII upper-case letters only. */
  predicate IsUpper(c: char) {
    'A' <= c <= 'Z'
  }

  /** `str.lower()` on one character, for ASCII: A-Z become a-z, everything else is kept. */
  function Lower(c: char): (l: char)
    ensures !IsUpper(l)
    ensures IsUpper(c) ==> 'a' <= l <= 'z' && l as int - 'a' as int == c as int - 'A' as int
    ensures !IsUpper(c) ==> l == c
  {
    if IsUpper(c) then (c as int - 'A' as int + 'a' as int) as char else c
  }

  /** `str.lower()` on a whole string. */
  function LowerString(s: string): string {
    if s == [] then "" else [Lower(s[0])] + LowerString(s[1..])
  }

  /** Number of ASCII upper-case letters in `s`. */
  function CountUpper(s: string): nat {
    if s == [] then 0 else (if IsUpper(s[0]) then 1 else 0) + CountUpper(s[1..])
  }

  /** Number of occurrences of `c` in `s`. */
  function Occurrences(c: char, s: string): nat {
    if s == [] then 0 else (if s[0] == c then 1 else 0) + Occurrences(c, s[1..])
  }

  /**
    Length of the longest prefix of `s` without an upper-case letter: the
    greedy `[^A-Z]*`, and also the number of characters the pattern search
    skips before its first match.
   */
  function NonUpperRun(s: string): (n: nat)
    ensures n <= |s|
    ensures n < |s| ==> IsUpper(s[n])
  {
    if s == [] || IsUpper(s[0]) then 0 else 1 + NonUpperRun(s[1..])
  }

  /** A prefix without upper-case letters that ends at an upper-case letter, or at the end, is the run. */
  lemma {:induction false} RunEndsAt(s: string, m: nat)
    requires m <= |s|
    requires forall i :: 0 <= i < m ==> !IsUpper(s[i])
    requires m < |s| ==> IsUpper(s[m])
    ensures NonUpperRun(s) == m
    decreases m
  {
    if m > 0 {
      assert forall i :: 0 <= i < m - 1 ==> s[1..][i] == s[i + 1];
      RunEndsAt(s[1..], m - 1);
    }
  }

  /** No character of the run is upper case. */
  lemma {:induction false} NonUpperRunPrefix(s: string)
    ensures forall i :: 0 <= i < NonUpperRun(s) ==> !IsUpper(s[i])
    decreases |s|
  {
    if s != [] && !IsUpper(s[0]) {
      NonUpperRunPrefix(s[1..]);
      assert forall i :: 1 <= i < NonUpperRun(s) ==> s[i] == s[1..][i - 1];
    }
  }

  /** A match of `[A-Z][^A-Z]*`: one upper-case letter, then none. */
  predicate IsWord(w: string) {
    |w| >= 1 && IsUpper(w[0]) && forall i :: 1 <= i < |w| ==> !IsUpper(w[i])
  }

  /**
    `re.findall('[A-Z][^A-Z]*', s)`: at a character that is not upper-case
    the search moves on by one; at an upper-case letter it takes the letter
    and the greedy run of non-upper-case characters after it, and resumes
    after the match.
   */
  function FindWords(s: string): seq<string>
    decreases |s|
  {
    if s == [] then []
    else if !IsUpper(s[0]) then FindWords(s[1..])
    else
      var n := 1 + NonUpperRun(s[1..]);
      [s[..n]] + FindWords(s[n..])
  }

  /** Every match is a word: one upper-case letter followed by characters that are not. */
  lemma {:induction false} FindWordsAreWords(s: string)
    ensures forall w :: w in FindWords(s) ==> IsWord(w)
    decreases |s|
  {
    if s != [] {
      if !IsUpper(s[0]) {
        FindWordsAreWords(s[1..]);
      } else {
        var n := 1 + NonUpperRun(s[1..]);
        FindWordsAreWords(s[n..]);
        NonUpperRunPrefix(s[1..]);
        assert forall i :: 1 <= i < n ==> s[..n][i] == s[1..][i - 1];
        assert IsWord(s[..n]);
      }
    }
  }

  /** `'_'.join(parts)` for a general separator. */
  function Join(sep: string, parts: seq<string>): string {
    if parts == [] then ""
    else if |parts| == 1 then parts[0]
    else parts[0] + sep + Join(sep, parts[1..])
  }

  /** The concatenation of all parts, with no separator. */
  function Concat(parts: seq<string>): string {
    if parts == [] then "" else parts[0] + Concat(parts[1..])
  }

  /** `[x.lower() for x in words]`. */
  function LowerWords(words: seq<string>): seq<string> {
    seq(|words|, i requires 0 <= i < |words| => LowerString(words[i]))
  }

  /** `generateClassFilename`: the lower-cased matches joined by `_`. */
  function ClassFilename(className: string): string {
    Join("_", LowerWords(FindWords(className)))
  }

  // ---------------------------------------------------------------------
  // Reference definition: one pass over the characters.
  // ---------------------------------------------------------------------

  /**
    The snake-case form of a string whose first character starts the first
    word: every character lower-cased, and `_` put before every upper-case
    letter except the first character.
   */
  function Snake(t: string): string {
    if t == [] then "" else [Lower(t[0])] + SnakeTail(t[1..])
  }

  /** The characters after the first: `_` before each upper-case letter, each character lower-cased. */
  function SnakeTail(t: string): (r: string)
    ensures |r| == |t| + CountUpper(t)
  {
    if t == [] then ""
    else (if IsUpper(t[0]) then ['_', Lower(t[0])] else [Lower(t[0])]) + SnakeTail(t[1..])
  }

  // ---------------------------------------------------------------------
  // Lemmas
  // ---------------------------------------------------------------------

  lemma ConcatCons(w: string, ws: seq<string>)
    ensures Concat([w] + ws) == w + Concat(ws)
  {
    assert ([w] + ws)[1..] == ws;
  }

  lemma {:induction false} SnakeTailAppend(a: string, b: string)
    ensures SnakeTail(a + b) == SnakeTail(a) + SnakeTail(b)
    decreases |a|
  {
    if a == [] {
      assert a + b == b;
    } else {
      assert (a + b)[1..] == a[1..] + b;
      SnakeTailAppend(a[1..], b);
    }
  }

  /** Without upper-case letters the reference only lower-cases. */
  lemma {:induction false} SnakeTailNoUpper(a: string)
    requires forall i :: 0 <= i < |a| ==> !IsUpper(a[i])
    ensures SnakeTail(a) == LowerString(a)
    decreases |a|
  {
    if a != [] {
      SnakeTailNoUpper(a[1..]);
    }
  }

  /** The pattern search skips everything before the first upper-case letter. */
  lemma {:induction false} FindWordsSkipsPrefix(s: string)
    ensures FindWords(s) == FindWords(s[NonUpperRun(s)..])
    decreases |s|
  {
    if s != [] && !IsUpper(s[0]) {
      FindWordsSkipsPrefix(s[1..]);
      assert s[1..][NonUpperRun(s[1..])..] == s[NonUpperRun(s)..];
    }
  }

  /** Every match found by the search starts where the previous one ended. */
  lemma {:induction false} WordsCover(s: string)
    ensures Concat(FindWords(s)) == s[NonUpperRun(s)..]
    decreases |s|
  {
    if s == [] {
    } else if !IsUpper(s[0]) {
      WordsCover(s[1..]);
      WordsCoverSkip(s);
    } else {
      var n := 1 + NonUpperRun(s[1..]);
      WordsCover(s[n..]);
      WordsCoverMatch(s);
    }
  }

  /** At a character that is not upper case, the search moves on by one and covers the same part. */
  lemma WordsCoverSkip(s: string)
    requires s != [] && !IsUpper(s[0])
    requires Concat(FindWords(s[1..])) == s[1..][NonUpperRun(s[1..])..]
    ensures Concat(FindWords(s)) == s[NonUpperRun(s)..]
  {
    var k := NonUpperRun(s[1..]);
    assert NonUpperRun(s) == 1 + k;
    assert FindWords(s) == FindWords(s[1..]);
    assert s[1..][k..] == s[1 + k..];
  }

  /** At an upper-case letter, the match and the matches after it cover the whole string. */
  lemma WordsCoverMatch(s: string)
    requires s != [] && IsUpper(s[0])
    requires var rest := s[1 + NonUpperRun(s[1..])..];
      Concat(FindWords(rest)) == rest[NonUpperRun(rest)..]
    ensures Concat(FindWords(s)) == s[NonUpperRun(s)..]
  {
    var n := 1 + NonUpperRun(s[1..]);
    var w, rest := s[..n], s[n..];
    assert NonUpperRun(s) == 0;
    if rest != [] {
      assert rest[0] == s[1..][n - 1];
    }
    assert NonUpperRun(rest) == 0;
    DropNone(rest);
    DropNone(s);
    assert FindWords(s) == [w] + FindWords(rest);
    ConcatCons(w, FindWords(rest));
    SplitAt(s, n);
  }

  // Sequence identities, stated over fresh variables so that a proof uses each
  // once instead of comparing the unfolded words element by element.

  lemma DropNone(s: string)
    ensures s[0..] == s
  {
  }

  lemma SplitAt(s: string, n: nat)
    requires n <= |s|
    ensures s[..n] + s[n..] == s
  {
  }

  /** The words of a decomposition, glued together, start with the first word's upper-case letter. */
  lemma ConcatOfWordsStartsUpper(ws: seq<string>)
    requires ws != []
    requires forall w :: w in ws ==> IsWord(w)
    ensures |Concat(ws)| >= 1 && IsUpper(Concat(ws)[0])
  {
    assert IsWord(ws[0]);
  }

  /**
    The matches are the ONLY way to cut a string into words: any sequence of
    words is found again, unchanged, by the search over its concatenation.
   */
  lemma {:induction false} WordsUnique(ws: seq<string>)
    requires forall w :: w in ws ==> IsWord(w)
    ensures FindWords(Concat(ws)) == ws
    decreases |ws|
  {
    if ws != [] {
      var w, rest := ws[0], ws[1..];
      assert IsWord(w);
      var t := Concat(ws);
      ConcatCons(w, rest);
      assert ws == [w] + rest;
      assert t == w + Concat(rest);
      var u := t[1..];
      var m := |w| - 1;
      assert forall i :: 0 <= i < m ==> u[i] == w[i + 1];
      if m < |u| {
        ConcatOfWordsStartsUpper(rest);
        assert u[m] == Concat(rest)[0];
      }
      assert forall i :: 0 <= i < m ==> !IsUpper(u[i]);
      RunEndsAt(u, m);
      assert t[..|w|] == w;
      assert t[|w|..] == Concat(rest);
      WordsUnique(rest);
    }
  }

  lemma JoinCons(sep: string, x: string, rest: seq<string>)
    ensures Join(sep, [x] + rest) == if rest == [] then x else x + sep + Join(sep, rest)
  {
    assert ([x] + rest)[1..] == rest;
  }

  lemma LowerWordsCons(w: string, rest: seq<string>)
    ensures LowerWords([w] + rest) == [LowerString(w)] + LowerWords(rest)
  {
  }

  /** The reference, cut after the first word. */
  lemma SnakeFirstWord(t: string)
    requires t != [] && IsUpper(t[0])
    ensures var n := 1 + NonUpperRun(t[1..]);
      Snake(t) == LowerString(t[..n]) + SnakeTail(t[n..])
  {
    var n := 1 + NonUpperRun(t[1..]);
    var inner, rest := t[1..n], t[n..];
    NonUpperRunPrefix(t[1..]);
    assert forall i :: 0 <= i < |inner| ==> inner[i] == t[1..][i];
    SnakeTailNoUpper(inner);
    assert t[1..] == inner + rest;
    SnakeTailAppend(inner, rest);
    assert t[..n][1..] == inner;
    calc {
      Snake(t);
      [Lower(t[0])] + SnakeTail(t[1..]);
      [Lower(t[0])] + (LowerString(inner) + SnakeTail(rest));
      ([Lower(t[0])] + LowerString(inner)) + SnakeTail(rest);
      LowerString(t[..n]) + SnakeTail(rest);
    }
  }

  /** The stem, cut after the first word. */
  lemma ClassFilenameFirstWord(t: string)
    requires t != [] && IsUpper(t[0])
    ensures var n := 1 + NonUpperRun(t[1..]);
      ClassFilename(t) ==
        if t[n..] == [] then LowerString(t[..n])
        else LowerString(t[..n]) + "_" + ClassFilename(t[n..])
  {
    var n := 1 + NonUpperRun(t[1..]);
    var w, rest := t[..n], t[n..];
    var words := FindWords(rest);
    assert FindWords(t) == [w] + words;
    LowerWordsCons(w, words);
    JoinCons("_", LowerString(w), LowerWords(words));
    if rest != [] {
      assert IsUpper(rest[0]);
      assert words != [];
    }
  }

  /** Lower-casing the matches one by one, then joining, is the one-pass reference. */
  lemma {:induction false} JoinedWordsAreSnake(t: string)
    requires t == [] || IsUpper(t[0])
    ensures ClassFilename(t) == Snake(t)
    decreases |t|
  {
    if t != [] {
      var rest := t[1 + NonUpperRun(t[1..])..];
      if rest != [] {
        JoinedWordsAreSnake(rest);
      }
      JoinedWordsStep(t);
    }
  }

  /** One step of the agreement: if it holds after the first word, it holds for the whole string. */
  lemma JoinedWordsStep(t: string)
    requires t != [] && IsUpper(t[0])
    requires var rest := t[1 + NonUpperRun(t[1..])..];
      rest != [] ==> ClassFilename(rest) == Snake(rest)
    ensures ClassFilename(t) == Snake(t)
  {
    var n := 1 + NonUpperRun(t[1..]);
    var first, rest := LowerString(t[..n]), t[n..];
    ClassFilenameFirstWord(t);
    SnakeFirstWord(t);
    if rest == [] {
      assert SnakeTail(rest) == "";
      AppendEmpty(first);
    } else {
      SnakeTailAtUpper(rest);
      AppendAssoc(first, "_", Snake(rest));
    }
  }

  // Sequence identities for the agreement step, stated over fresh variables.

  lemma AppendEmpty(a: string)
    ensures a + "" == a
  {
  }

  lemma AppendAssoc(a: string, b: string, c: string)
    ensures a + b + c == a + (b + c)
  {
  }

  /** After the first word, an upper-case letter starts a new word behind a `_`. */
  lemma SnakeTailAtUpper(r: string)
    requires r != [] && IsUpper(r[0])
    ensures SnakeTail(r) == "_" + Snake(r)
  {
    assert SnakeTail(r) == ['_', Lower(r[0])] + SnakeTail(r[1..]);
  }

  /**
    `generateClassFilename` agrees with the reference: drop everything before
    the first upper-case letter, lower-case every character, and put `_`
    before each upper-case letter after that first one.
   */
  lemma ClassFilenameIsSnake(s: string)
    ensures ClassFilename(s) == Snake(s[NonUpperRun(s)..])
  {
    FindWordsSkipsPrefix(s);
    JoinedWordsAreSnake(s[NonUpperRun(s)..]);
  }

  /** A prefix without upper-case letters is dropped. */
  lemma PrefixDropped(p: string, s: string)
    requires forall i :: 0 <= i < |p| ==> !IsUpper(p[i])
    ensures ClassFilename(p + s) == ClassFilename(s)
  {
    PrefixRun(p, s);
    ClassFilenameIsSnake(p + s);
    ClassFilenameIsSnake(s);
    assert (p + s)[|p| + NonUpperRun(s)..] == s[NonUpperRun(s)..];
  }

  lemma {:induction false} PrefixRun(p: string, s: string)
    requires forall i :: 0 <= i < |p| ==> !IsUpper(p[i])
    ensures NonUpperRun(p + s) == |p| + NonUpperRun(s)
    decreases |p|
  {
    if p == [] {
      assert p + s == s;
    } else {
      assert (p + s)[1..] == p[1..] + s;
      PrefixRun(p[1..], s);
    }
  }

  /** A name with no upper-case letter gives the empty stem. */
  lemma NoUpperGivesEmpty(s: string)
    requires CountUpper(s) == 0
    ensures ClassFilename(s) == ""
  {
    NoUpperRunsToEnd(s);
    ClassFilenameIsSnake(s);
  }

  lemma {:induction false} NoUpperRunsToEnd(s: string)
    requires CountUpper(s) == 0
    ensures NonUpperRun(s) == |s|
    decreases |s|
  {
    if s != [] {
      NoUpperRunsToEnd(s[1..]);
    }
  }

  lemma {:induction false} SnakeTailHasNoUpper(t: string)
    ensures forall c :: c in SnakeTail(t) ==> !IsUpper(c)
    decreases |t|
  {
    if t != [] {
      SnakeTailHasNoUpper(t[1..]);
    }
  }

  /** The stem holds no upper-case letter. */
  lemma ResultHasNoUpper(s: string)
    ensures forall c :: c in ClassFilename(s) ==> !IsUpper(c)
  {
    ClassFilenameIsSnake(s);
    var t := s[NonUpperRun(s)..];
    if t != [] {
      SnakeTailHasNoUpper(t[1..]);
    }
  }

  lemma {:induction false} UpperAfterRun(s: string)
    ensures CountUpper(s[NonUpperRun(s)..]) == CountUpper(s)
    ensures Occurrences('_', s[NonUpperRun(s)..]) <= Occurrences('_', s)
    decreases |s|
  {
    if s != [] && !IsUpper(s[0]) {
      UpperAfterRun(s[1..]);
      assert s[1..][NonUpperRun(s[1..])..] == s[NonUpperRun(s)..];
    }
  }

  /** Each upper-case letter after the first adds one `_` to the reference; lower-casing adds none. */
  lemma {:induction false} SnakeTailUnderscores(t: string)
    ensures Occurrences('_', SnakeTail(t)) == CountUpper(t) + Occurrences('_', t)
    decreases |t|
  {
    if t != [] {
      SnakeTailUnderscores(t[1..]);
      var head := if IsUpper(t[0]) then ['_', Lower(t[0])] else [Lower(t[0])];
      OccurrencesAppend('_', head, SnakeTail(t[1..]));
    }
  }

  lemma {:induction false} OccurrencesAppend(c: char, a: string, b: string)
    ensures Occurrences(c, a + b) == Occurrences(c, a) + Occurrences(c, b)
    decreases |a|
  {
    if a == [] {
      assert a + b == b;
    } else {
      assert (a + b)[1..] == a[1..] + b;
      OccurrencesAppend(c, a[1..], b);
    }
  }

  /**
    For a name without `_` (in particular a letters-only name) with N >= 1
    upper-case letters, the stem holds exactly N - 1 underscores; with no
    upper-case letter it holds none.
   */
  lemma UnderscoreCount(s: string)
    requires '_' !in s
    ensures Occurrences('_', ClassFilename(s)) == if CountUpper(s) == 0 then 0 else CountUpper(s) - 1
  {
    ClassFilenameIsSnake(s);
    UpperAfterRun(s);
    NoUnderscore(s);
    var t := s[NonUpperRun(s)..];
    if t != [] {
      assert IsUpper(t[0]);
      SnakeTailUnderscores(t[1..]);
      assert '_' !in t[1..];
      NoUnderscore(t[1..]);
      OccurrencesAppend('_', [Lower(t[0])], SnakeTail(t[1..]));
      assert CountUpper(t) == 1 + CountUpper(t[1..]);
    } else {
      NoUpperRunsToEndConverse(s);
    }
  }

  lemma {:induction false} NoUnderscore(s: string)
    requires '_' !in s
    ensures Occurrences('_', s) == 0
    decreases |s|
  {
    if s != [] {
      assert '_' !in s[1..];
      NoUnderscore(s[1..]);
    }
  }

  lemma {:induction false} NoUpperRunsToEndConverse(s: string)
    requires NonUpperRun(s) == |s|
    ensures CountUpper(s) == 0
    decreases |s|
  {
    if s != [] {
      NoUpperRunsToEndConverse(s[1..]);
    }
  }

  /**
    The stem is made only of lower-cased characters of the name and `_`: a
    character that is neither `_` nor an ASCII letter (a `/`, a brace)
    appears in the stem only if it appears in the name.
   */
  lemma StemKeepsOut(c: char, s: string)
    requires c != '_' && !IsUpper(c) && !('a' <= c <= 'z')
    requires c !in s
    ensures c !in ClassFilename(s)
  {
    ClassFilenameIsSnake(s);
    var t := s[NonUpperRun(s)..];
    assert c !in t;
    if t != [] {
      SnakeTailKeepsOut(c, t[1..]);
    }
  }

  lemma {:induction false} SnakeTailKeepsOut(c: char, t: string)
    requires c != '_' && !IsUpper(c) && !('a' <= c <= 'z') && c !in t
    ensures c !in SnakeTail(t)
    decreases |t|
  {
    if t != [] {
      assert Lower(t[0]) != c;
      assert c !in t[1..];
      SnakeTailKeepsOut(c, t[1..]);
    }
  }

  /**
    A camel-case name, that is a name made of upper-case-led words, gives
    exactly its words, lower-cased, in order, joined by `_`.
   */
  lemma CamelCaseName(ws: seq<string>)
    requires forall w :: w in ws ==> IsWord(w)
    ensures ClassFilename(Concat(ws)) == Join("_", LowerWords(ws))
  {
    WordsUnique(ws);
  }

  /** Two words: `BaseWidget` is `base_widget`. */
  lemma TwoWords(a: string, b: string)
    requires IsWord(a) && IsWord(b)
    ensures ClassFilename(a + b) == LowerString(a) + "_" + LowerString(b)
  {
    assert Concat([a, b]) == a + b by {
      assert Concat([b]) == b;
    }
    CamelCaseName([a, b]);
    assert LowerWords([a, b]) == [LowerString(a), LowerString(b)];
  }

  /** A three-word name gives `first_second_third` in lower case. */
  lemma ThreeWords(a: string, b: string, c: string)
    requires IsWord(a) && IsWord(b) && IsWord(c)
    ensures ClassFilename(a + b + c) == LowerString(a) + "_" + LowerString(b) + "_" + LowerString(c)
  {
    assert Concat([a, b, c]) == a + b + c by {
      assert Concat([c]) == c;
      assert Concat([b, c]) == b + c by {
        assert [b, c][1..] == [c];
      }
      assert [a, b, c][1..] == [b, c];
    }
    CamelCaseName([a, b, c]);
    assert LowerWords([a, b, c]) == [LowerString(a), LowerString(b), LowerString(c)];
    assert Join("_", [LowerString(b), LowerString(c)]) == LowerString(b) + "_" + LowerString(c) by {
      assert [LowerString(b), LowerString(c)][1..] == [LowerString(c)];
    }
    assert [LowerString(a), LowerString(b), LowerString(c)][1..] == [LowerString(b), LowerString(c)];
  }

  lemma LowerFoo()
    ensures LowerString("Foo") == "foo"
  {
    var s := "Foo";
    assert LowerString(s[2..]) == "o";
    assert LowerString(s[1..]) == "oo";
    assert Lower('F') == 'f';
  }

  lemma LowerBar()
    ensures LowerString("Bar") == "bar"
  {
    var s := "Bar";
    assert LowerString(s[2..]) == "r";
    assert LowerString(s[1..]) == "ar";
    assert Lower('B') == 'b';
  }

  lemma LowerBaz()
    ensures LowerString("Baz") == "baz"
  {
    var s := "Baz";
    assert LowerString(s[2..]) == "z";
    assert LowerString(s[1..]) == "az";
    assert Lower('B') == 'b';
  }

  /** The worked example `FooBarBaz`. */
  lemma ExampleFooBarBaz(name: string)
    requires name == "FooBarBaz"
    ensures ClassFilename(name) == "foo_bar_baz"
  {
    FooBarBazWords();
    ThreeWords("Foo", "Bar", "Baz");
    LowerFoo();
    LowerBar();
    LowerBaz();
    assert "foo" + "_" + "bar" + "_" + "baz" == "foo_bar_baz";
  }

  lemma FooBarBazWords()
    ensures IsWord("Foo") && IsWord("Bar") && IsWord("Baz")
    ensures "Foo" + "Bar" + "Baz" == "FooBarBaz"
  {
  }

  lemma LowerWidget()
    ensures LowerString("Widget") == "widget"
  {
    var s := "Widget";
    assert LowerString(s[5..]) == "t";
    assert LowerString(s[4..]) == "et";
    assert LowerString(s[3..]) == "get";
    assert LowerString(s[2..]) == "dget";
    assert LowerString(s[1..]) == "idget";
    assert Lower('W') == 'w';
  }

  lemma ExampleWidget(name: string)
    requires name == "Widget"
    ensures ClassFilename(name) == "widget"
  {
    LowerWidget();
    CamelCaseName(["Widget"]);
    assert Concat(["Widget"]) == "Widget";
  }

  lemma LowerBase()
    ensures LowerString("Base") == "base"
  {
    var b := "Base";
    assert LowerString(b[3..]) == "e";
    assert LowerString(b[2..]) == "se";
    assert LowerString(b[1..]) == "ase";
    assert Lower('B') == 'b';
  }

  lemma ExampleBaseWidget(name: string)
    requires name == "BaseWidget"
    ensures ClassFilename(name) == "base_widget"
  {
    assert IsWord("Base") && IsWord("Widget");
    TwoWords("Base", "Widget");
    LowerBase();
    LowerWidget();
    assert "Base" + "Widget" == "BaseWidget";
  }

  lemma ExampleMyWidget(name: string)
    requires name == "MyWidget"
    ensures ClassFilename(name) == "my_widget"
  {
    var m := "My";
    assert LowerString(m[1..]) == "y";
    assert Lower('M') == 'm';
    assert LowerString(m) == "my";
    assert IsWord(m) && IsWord("Widget");
    TwoWords(m, "Widget");
    LowerWidget();
    assert m + "Widget" == "MyWidget";
  }
}
