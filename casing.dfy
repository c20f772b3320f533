/**
 * The three string operations of Python that generate_brief.py relies on:
 * str.lower, str.casefold and str.split() without arguments.
 *
 * Python applies the Unicode case tables to every character.  This model
 * carries those tables for the Latin letters that Vietnamese text is written
 * with: ASCII, Latin-1, Latin Extended-A (with O-horn and U-horn from
 * Latin Extended-B) and Latin Extended Additional; other characters are left
 * as they are.  Within these blocks str.lower differs from the model only on
 * capital I with dot, which Python lowercases to two characters.  Whitespace
 * is the full set str.split() splits on.
 */
module Casing {

  /** The lowercase form of one character, as str.lower gives it, for the
      letters of the Latin blocks listed above. */
  function LowerChar(c: char): char
  {
    if 'A' <= c <= 'Z' then (c as int + 32) as char
    else if '\U{00C0}' <= c <= '\U{00DE}' && c != '\U{00D7}' then (c as int + 32) as char
    else if ('\U{0100}' <= c <= '\U{012F}' || '\U{0132}' <= c <= '\U{0137}' || '\U{014A}' <= c <= '\U{0177}')
            && c as int % 2 == 0 then (c as int + 1) as char
    else if ('\U{0139}' <= c <= '\U{0148}' || '\U{0179}' <= c <= '\U{017E}')
            && c as int % 2 == 1 then (c as int + 1) as char
    else if c == '\U{0178}' then '\U{00FF}'
    else if c == '\U{01A0}' || c == '\U{01AF}' then (c as int + 1) as char
    else if ('\U{1E00}' <= c <= '\U{1E95}' || '\U{1EA0}' <= c <= '\U{1EFF}')
            && c as int % 2 == 0 then (c as int + 1) as char
    else if c == '\U{1E9E}' then '\U{00DF}'
    else c
  }

  /** str.lower: every character lowercased on its own. */
  function Lower(s: string): (r: string)
  {
    seq(|s|, i requires 0 <= i < |s| => LowerChar(s[i]))
  }

  /** What str.casefold makes of one character: its lowercase form, except
      for the full case foldings of the blocks above.  Sharp s (either case)
      folds to "ss", long s to "s", the micro sign to Greek mu, long s with dot
      to s with dot, capital I with dot to i and a combining dot, and the
      letters that have no precomposed lowercase partner to a base letter
      followed by a modifier or combining mark. */
  function FoldChar(c: char): string
  {
    if c == '\U{00DF}' || c == '\U{1E9E}' then "ss"
    else if c == '\U{017F}' then "s"
    else if c == '\U{00B5}' then "\U{03BC}"
    else if c == '\U{0130}' then "i\U{0307}"
    else if c == '\U{0149}' then "\U{02BC}n"
    else if c == '\U{1E96}' then "h\U{0331}"
    else if c == '\U{1E97}' then "t\U{0308}"
    else if c == '\U{1E98}' then "w\U{030A}"
    else if c == '\U{1E99}' then "y\U{030A}"
    else if c == '\U{1E9A}' then "a\U{02BE}"
    else if c == '\U{1E9B}' then "\U{1E61}"
    else [LowerChar(c)]
  }

  /** str.casefold. */
  function Casefold(s: string): string
  {
    if s == [] then [] else FoldChar(s[0]) + Casefold(s[1..])
  }

  /** The characters str.split() treats as whitespace. */
  predicate IsSpace(c: char)
  {
    c == ' ' || '\t' <= c <= '\r' || '\U{001C}' <= c <= '\U{001F}' || c == '\U{0085}' || c == '\U{00A0}'
    || c == '\U{1680}' || '\U{2000}' <= c <= '\U{200A}' || c == '\U{2028}' || c == '\U{2029}'
    || c == '\U{202F}' || c == '\U{205F}' || c == '\U{3000}'
  }

  predicate NoSpace(s: string)
  {
    forall i :: 0 <= i < |s| ==> !IsSpace(s[i])
  }

  /** The length of the run of non-space characters that starts s. */
  function WordLength(s: string): (n: nat)
    ensures n <= |s| && (n == |s| || IsSpace(s[n]))
    ensures NoSpace(s[..n])
  {
    if s == [] || IsSpace(s[0]) then 0 else 1 + WordLength(s[1..])
  }

  /** str.split(): the maximal runs of non-space characters, in order; runs of
      whitespace separate them and leading or trailing whitespace gives no
      empty piece. */
  function Split(s: string): (r: seq<string>)
    ensures forall i :: 0 <= i < |r| ==> r[i] != [] && NoSpace(r[i])
    decreases |s|
  {
    if s == [] then []
    else if IsSpace(s[0]) then Split(s[1..])
    else
      var n := WordLength(s);
      [s[..n]] + Split(s[n..])
  }

  /** The words joined by single spaces, as " ".join does. */
  function Join(words: seq<string>): string
  {
    if words == [] then []
    else if |words| == 1 then words[0]
    else words[0] + " " + Join(words[1..])
  }

  /** Lowercasing leaves a lowercase string as it is. */
  lemma LowerCharLowered(c: char)
    ensures LowerChar(LowerChar(c)) == LowerChar(c)
  {
  }

  lemma LowerLowered(s: string)
    ensures Lower(Lower(s)) == Lower(s)
  {
    forall i | 0 <= i < |s| ensures Lower(Lower(s))[i] == Lower(s)[i] {
      LowerCharLowered(s[i]);
    }
  }

  /** Lowercasing turns no character into whitespace and no whitespace into
      anything else. */
  lemma LowerCharKeepsSpace(c: char)
    ensures IsSpace(LowerChar(c)) <==> IsSpace(c)
    ensures IsSpace(c) ==> LowerChar(c) == c
  {
  }

  /** A string and its lowercase form fold alike, so that a capitalised
      spelling and the lowercase one meet under one casefold key. */
  lemma {:induction false} CasefoldLower(s: string)
    ensures Casefold(Lower(s)) == Casefold(s)
  {
    if s != [] {
      var l := Lower(s);
      assert l[0] == LowerChar(s[0]);
      assert l[1..] == Lower(s[1..]);
      CasefoldLower(s[1..]);
      FoldLowerChar(s[0]);
    }
  }

  lemma FoldLowerChar(c: char)
    ensures FoldChar(LowerChar(c)) == FoldChar(c)
  {
  }

  lemma {:induction false} WordLengthLower(s: string)
    ensures WordLength(Lower(s)) == WordLength(s)
    decreases |s|
  {
    if s != [] {
      LowerCharKeepsSpace(s[0]);
      assert Lower(s)[1..] == Lower(s[1..]);
      WordLengthLower(s[1..]);
    }
  }

  /** Splitting the lowercase form gives the lowercased pieces. */
  lemma {:induction false} SplitLower(s: string)
    ensures |Split(Lower(s))| == |Split(s)|
    ensures forall i :: 0 <= i < |Split(s)| ==> Split(Lower(s))[i] == Lower(Split(s)[i])
    decreases |s|
  {
    if s != [] {
      var l := Lower(s);
      LowerCharKeepsSpace(s[0]);
      if IsSpace(s[0]) {
        assert l[1..] == Lower(s[1..]);
        SplitLower(s[1..]);
      } else {
        var n := WordLength(s);
        WordLengthLower(s);
        assert l[..n] == Lower(s[..n]);
        assert l[n..] == Lower(s[n..]);
        SplitLower(s[n..]);
      }
    }
  }

  /** A word without whitespace, followed by nothing or by whitespace, is
      one run. */
  lemma {:induction false} RunLength(w: string, rest: string)
    requires NoSpace(w) && (rest == [] || IsSpace(rest[0]))
    ensures WordLength(w + rest) == |w|
    decreases |w|
  {
    if w != [] {
      assert (w + rest)[1..] == w[1..] + rest;
      RunLength(w[1..], rest);
    }
  }

  /** Splitting words joined by single spaces gives the words back, when each
      is non-empty and has no whitespace. */
  lemma {:induction false} SplitJoin(words: seq<string>)
    requires forall i :: 0 <= i < |words| ==> words[i] != [] && NoSpace(words[i])
    ensures Split(Join(words)) == words
  {
    if |words| == 1 {
      RunLength(words[0], []);
      assert words[0] + [] == words[0];
      assert Join(words)[|words[0]|..] == [];
    } else if |words| > 1 {
      var w, rest := words[0], " " + Join(words[1..]);
      assert Join(words) == w + rest;
      RunLength(w, rest);
      assert (w + rest)[..|w|] == w;
      assert (w + rest)[|w|..] == rest;
      assert rest[1..] == Join(words[1..]);
      SplitJoin(words[1..]);
    }
  }
}
