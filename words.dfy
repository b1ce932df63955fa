/**
 * The word count of the outline endpoint (fastapi_app.py): the length of the
 * list that Python's `str.split()` with no argument returns. That call splits
 * on runs of whitespace and drops leading and trailing whitespace, so the
 * words are exactly the maximal runs of non-whitespace characters.
 */
module Words {

  /** The characters `str.isspace()` accepts, which `str.split()` separates on. */
  predicate IsSpace(c: char)
  {
    ('\t' <= c <= '\r') || ('\U{1C}' <= c <= ' ') || c == '\U{85}' || c == '\U{A0}' || c == '\U{1680}'
    || ('\U{2000}' <= c <= '\U{200A}') || c == '\U{2028}' || c == '\U{2029}' || c == '\U{202F}'
    || c == '\U{205F}' || c == '\U{3000}'
  }

  /** A word: non-empty and free of whitespace. */
  predicate IsWord(w: string)
  {
    w != [] && forall i :: 0 <= i < |w| ==> !IsSpace(w[i])
  }

  /** Length of the word that starts s: the run of non-whitespace up to the
      next whitespace character or the end. */
  function WordLength(s: string): (n: nat)
    requires s != [] && !IsSpace(s[0])
    ensures 1 <= n <= |s|
    ensures forall i :: 0 <= i < n ==> !IsSpace(s[i])
    ensures n < |s| ==> IsSpace(s[n])
    decreases |s|
  {
    if |s| == 1 || IsSpace(s[1]) then 1 else 1 + WordLength(s[1..])
  }

  /** `s.split()`: every piece is a word. */
  function Split(s: string): (r: seq<string>)
    ensures forall k :: 0 <= k < |r| ==> IsWord(r[k])
    decreases |s|
  {
    if s == [] then []
    else if IsSpace(s[0]) then Split(s[1..])
    else [s[..WordLength(s)]] + Split(s[WordLength(s)..])
  }

  /** `len(s.split())`. */
  function WordCount(s: string): nat
  {
    |Split(s)|
  }

  /** `" ".join(words)`. */
  function Join(words: seq<string>): string
    decreases |words|
  {
    if words == [] then ""
    else if |words| == 1 then words[0]
    else words[0] + " " + Join(words[1..])
  }

  /** A text has no words exactly when it is all whitespace. */
  lemma {:induction false} SplitEmpty(s: string)
    ensures Split(s) == [] <==> forall i :: 0 <= i < |s| ==> IsSpace(s[i])
    decreases |s|
  {
    if s != [] && IsSpace(s[0]) {
      SplitEmpty(s[1..]);
      assert forall i :: 0 < i < |s| ==> s[i] == s[1..][i - 1];
    }
  }

  /** A word followed by whitespace or the end of the text has exactly its own length. */
  lemma WordLengthOfWord(s: string, n: nat)
    requires 1 <= n <= |s|
    requires forall i :: 0 <= i < n ==> !IsSpace(s[i])
    requires n < |s| ==> IsSpace(s[n])
    ensures WordLength(s) == n
  {
  }

  /** Splitting words joined by single spaces gives the words back. */
  lemma {:induction false} SplitJoin(words: seq<string>)
    requires forall k :: 0 <= k < |words| ==> IsWord(words[k])
    ensures Split(Join(words)) == words
    decreases |words|
  {
    if words == [] {
    } else if |words| == 1 {
      var w := words[0];
      WordLengthOfWord(w, |w|);
      assert w[..|w|] == w && w[|w|..] == [];
    } else {
      var w, rest := words[0], Join(words[1..]);
      var s := w + " " + rest;
      assert s[..|w|] == w && s[|w|] == ' ';
      WordLengthOfWord(s, |w|);
      assert s[|w|..] == " " + rest;
      assert (" " + rest)[1..] == rest;
      SplitJoin(words[1..]);
      assert [w] + words[1..] == words;
    }
  }

  /** Words joined by single spaces are counted one each. */
  lemma WordCountOfJoin(words: seq<string>)
    requires forall k :: 0 <= k < |words| ==> IsWord(words[k])
    ensures WordCount(Join(words)) == |words|
  {
    SplitJoin(words);
  }

  /** A word that starts a text before a whitespace character ends no later than it. */
  lemma WordBeforeSpace(a: string, c: char, b: string)
    requires a != [] && !IsSpace(a[0]) && IsSpace(c)
    ensures WordLength(a + [c] + b) == WordLength(a)
  {
    var s, n := a + [c] + b, WordLength(a);
    assert forall i :: 0 <= i < |a| ==> s[i] == a[i];
    assert s[|a|] == c;
    WordLengthOfWord(s, n);
  }

  /** A piece of text after a whitespace character splits as the text after it. */
  lemma SplitSpaceHead(s: string)
    requires s != [] && IsSpace(s[0])
    ensures Split(s) == Split(s[1..])
  {
  }

  /** A text that starts with a word splits into that word and the rest's pieces. */
  lemma SplitWordHead(s: string)
    requires s != [] && !IsSpace(s[0])
    ensures Split(s) == [s[..WordLength(s)]] + Split(s[WordLength(s)..])
  {
  }

  /** The step of `SplitAroundSpace` past leading whitespace. */
  lemma SplitAroundSpaceSkip(a: string, c: char, b: string)
    requires IsSpace(c) && a != [] && IsSpace(a[0])
    requires Split(a[1..] + [c] + b) == Split(a[1..]) + Split(b)
    ensures Split(a + [c] + b) == Split(a) + Split(b)
  {
    var s := a + [c] + b;
    assert s[0] == a[0] && s[1..] == a[1..] + [c] + b;
    SplitSpaceHead(s);
    SplitSpaceHead(a);
  }

  /** Cutting a + [c] + b within a. */
  lemma CutBeforeSpace(a: string, c: char, b: string, n: nat)
    requires 0 < n <= |a|
    ensures (a + [c] + b)[0] == a[0]
    ensures (a + [c] + b)[..n] == a[..n]
    ensures (a + [c] + b)[n..] == a[n..] + [c] + b
  {
  }

  /** The step of `SplitAroundSpace` past a leading word. */
  lemma SplitAroundSpaceWord(a: string, c: char, b: string)
    requires IsSpace(c) && a != [] && !IsSpace(a[0])
    requires Split(a[WordLength(a)..] + [c] + b) == Split(a[WordLength(a)..]) + Split(b)
    ensures Split(a + [c] + b) == Split(a) + Split(b)
  {
    var s, n := a + [c] + b, WordLength(a);
    WordBeforeSpace(a, c, b);
    CutBeforeSpace(a, c, b, n);
    SplitWordHead(s);
    SplitWordHead(a);
    assert [a[..n]] + (Split(a[n..]) + Split(b)) == Split(a) + Split(b);
  }

  /** A whitespace character separates: the text around it splits as its two
      sides do, so runs of whitespace between, before or after the words
      count for nothing. */
  lemma {:induction false} SplitAroundSpace(a: string, c: char, b: string)
    requires IsSpace(c)
    ensures Split(a + [c] + b) == Split(a) + Split(b)
    decreases |a|
  {
    if a == [] {
      var s := a + [c] + b;
      assert s[0] == c && s[1..] == b;
      SplitSpaceHead(s);
    } else if IsSpace(a[0]) {
      SplitAroundSpace(a[1..], c, b);
      SplitAroundSpaceSkip(a, c, b);
    } else {
      SplitAroundSpace(a[WordLength(a)..], c, b);
      SplitAroundSpaceWord(a, c, b);
    }
  }

  /** The count is additive over a whitespace character. */
  lemma WordCountAroundSpace(a: string, c: char, b: string)
    requires IsSpace(c)
    ensures WordCount(a + [c] + b) == WordCount(a) + WordCount(b)
  {
    SplitAroundSpace(a, c, b);
  }
}
