/**
 * The two Python string operations the credential resolver relies on:
 * `str.split()` with no separator (split on runs of whitespace, ignoring
 * leading and trailing whitespace) and `str.lower()` as far as a comparison
 * with an all-ASCII lower-case literal can observe it.
 */
module PyStr {

  /** The characters Python's argument-less `str.split()` treats as whitespace. */
  predicate IsSpace(c: char) {
    var n := c as int;
    (0x09 <= n <= 0x0D) || (0x1C <= n <= 0x20) || n == 0x85 || n == 0xA0
    || n == 0x1680 || (0x2000 <= n <= 0x200A) || n == 0x2028 || n == 0x2029
    || n == 0x202F || n == 0x205F || n == 0x3000
  }

  predicate NoSpace(s: string) {
    forall i :: 0 <= i < |s| ==> !IsSpace(s[i])
  }

  predicate AllSpace(s: string) {
    forall i :: 0 <= i < |s| ==> IsSpace(s[i])
  }

  /** `s` with its leading whitespace removed. */
  function TrimStart(s: string): (r: string)
    ensures |r| <= |s| && r == s[|s| - |r|..]
    ensures AllSpace(s[..|s| - |r|])
    ensures r == [] || !IsSpace(r[0])
    decreases |s|
  {
    if s != [] && IsSpace(s[0]) then TrimStart(s[1..]) else s
  }

  /** Length of the longest whitespace-free prefix of `s`. */
  function WordLength(s: string): (n: nat)
    ensures n <= |s| && NoSpace(s[..n])
    ensures n == |s| || IsSpace(s[n])
    decreases |s|
  {
    if s == [] || IsSpace(s[0]) then 0 else 1 + WordLength(s[1..])
  }

  /** Python's `s.split()`: the maximal whitespace-free runs of `s`, in order. */
  function Split(s: string): (parts: seq<string>)
    ensures forall i :: 0 <= i < |parts| ==> parts[i] != [] && NoSpace(parts[i])
    decreases |s|
  {
    var t := TrimStart(s);
    if t == [] then []
    else
      var n := WordLength(t);
      [t[..n]] + Split(t[n..])
  }

  /** The words joined back with single spaces, as `" ".join(words)`. */
  function JoinSpaced(words: seq<string>): string {
    if words == [] then ""
    else if |words| == 1 then words[0]
    else words[0] + " " + JoinSpaced(words[1..])
  }

  /** ASCII lower-casing of one character. */
  function LowerChar(c: char): char {
    if 'A' <= c <= 'Z' then (c as int + 32) as char else c
  }

  /**
   * `s.lower()` for the comparison `s.lower() == "bearer"`: the only characters
   * whose Python lower-case form is one of b, e, a, r are those letters and
   * their ASCII capitals, so folding ASCII alone decides that comparison.
   */
  function Lower(s: string): (r: string)
    ensures |r| == |s|
    ensures forall i :: 0 <= i < |s| ==> r[i] == LowerChar(s[i])
  {
    seq(|s|, i requires 0 <= i < |s| => LowerChar(s[i]))
  }

  // ---------------------------------------------------------------- lemmas

  /** A character folds to the lower-case ASCII letter `x` exactly when it is `x` or its capital. */
  lemma LowerCharTo(c: char, x: char)
    requires 'a' <= x <= 'z'
    ensures LowerChar(c) == x <==> c == x || c as int == x as int - 32
  {
  }

  /**
   * The schemes `scheme.lower() == "bearer"` accepts: six characters, each
   * the matching letter of "bearer" in either case, and nothing else.
   */
  lemma LowerIsBearer(s: string)
    ensures Lower(s) == "bearer" <==> |s| == 6 && forall i :: 0 <= i < 6 ==> s[i] == "bearer"[i] || s[i] == "BEARER"[i]
  {
    var lower := "bearer";
    var upper := "BEARER";
    assert forall i :: 0 <= i < 6 ==> upper[i] as int == lower[i] as int - 32 && 'a' <= lower[i] <= 'z';
    if |s| == 6 {
      forall i | 0 <= i < 6
        ensures LowerChar(s[i]) == lower[i] <==> s[i] == lower[i] || s[i] == upper[i]
      {
        LowerCharTo(s[i], lower[i]);
      }
      if forall i :: 0 <= i < 6 ==> s[i] == lower[i] || s[i] == upper[i] {
        assert Lower(s) == lower;
      }
    }
  }

  lemma {:induction false} TrimStartSpace(ws: string, s: string)
    requires AllSpace(ws)
    ensures TrimStart(ws + s) == TrimStart(s)
    decreases |ws|
  {
    if ws == [] {
      assert ws + s == s;
    } else {
      assert (ws + s)[0] == ws[0];
      assert (ws + s)[1..] == ws[1..] + s;
      TrimStartSpace(ws[1..], s);
    }
  }

  /** Leading whitespace never changes the split. */
  lemma SplitLeadingSpace(ws: string, s: string)
    requires AllSpace(ws)
    ensures Split(ws + s) == Split(s)
  {
    TrimStartSpace(ws, s);
    assert TrimStart(TrimStart(s)) == TrimStart(s);
  }

  lemma {:induction false} WordLengthOf(w: string, s: string)
    requires NoSpace(w)
    requires s == [] || IsSpace(s[0])
    ensures WordLength(w + s) == |w|
    decreases |w|
  {
    if w == [] {
      assert w + s == s;
    } else {
      assert (w + s)[0] == w[0];
      assert (w + s)[1..] == w[1..] + s;
      WordLengthOf(w[1..], s);
    }
  }

  /** A whitespace-free word followed by whitespace (or nothing) splits off as one part. */
  lemma SplitWord(w: string, s: string)
    requires w != [] && NoSpace(w)
    requires s == [] || IsSpace(s[0])
    ensures Split(w + s) == [w] + Split(s)
  {
    assert (w + s)[0] == w[0];
    assert TrimStart(w + s) == w + s;
    WordLengthOf(w, s);
    assert (w + s)[..|w|] == w;
    assert (w + s)[|w|..] == s;
  }

  /** A string splits into nothing exactly when it is all whitespace. */
  lemma SplitEmptyIffAllSpace(s: string)
    ensures Split(s) == [] <==> AllSpace(s)
  {
    if AllSpace(s) {
      SplitLeadingSpace(s, []);
      assert s + [] == s;
    }
  }

  /** A non-empty whitespace-free string is its own single part. */
  lemma SplitSingleWord(w: string)
    requires w != [] && NoSpace(w)
    ensures Split(w) == [w]
  {
    SplitWord(w, []);
    assert w + [] == w;
  }

  /** A word, then a non-empty run of whitespace: the word is the first part. */
  lemma SplitWordThenSpace(w: string, sep: string, rest: string)
    requires w != [] && NoSpace(w)
    requires sep != [] && AllSpace(sep)
    ensures Split(w + (sep + rest)) == [w] + Split(rest)
  {
    var afterW := sep + rest;
    assert afterW[0] == sep[0];
    SplitWord(w, afterW);
    SplitLeadingSpace(sep, rest);
  }

  /** A word followed only by whitespace splits into that word alone. */
  lemma SplitWordThenTrail(w: string, trail: string)
    requires w != [] && NoSpace(w) && AllSpace(trail)
    ensures Split(w + trail) == [w]
  {
    if trail == [] {
      assert w + trail == w;
      SplitSingleWord(w);
    } else {
      SplitWord(w, trail);
      SplitEmptyIffAllSpace(trail);
    }
  }

  lemma ConcatFive(lead: string, a: string, sep: string, b: string, trail: string)
    ensures lead + a + sep + b + trail == lead + (a + (sep + (b + trail)))
  {
  }

  /**
   * Two words separated by any non-empty whitespace run, with any whitespace
   * around them, split into exactly those two words.
   */
  lemma SplitTwoWords(lead: string, a: string, sep: string, b: string, trail: string)
    requires AllSpace(lead) && AllSpace(sep) && AllSpace(trail) && sep != []
    requires a != [] && NoSpace(a) && b != [] && NoSpace(b)
    ensures Split(lead + a + sep + b + trail) == [a, b]
  {
    ConcatFive(lead, a, sep, b, trail);
    SplitLeadingSpace(lead, a + (sep + (b + trail)));
    SplitWordThenSpace(a, sep, b + trail);
    SplitWordThenTrail(b, trail);
  }

  /** `" ".join(words).split() == words` for non-empty whitespace-free words. */
  lemma {:induction false} SplitJoinSpaced(words: seq<string>)
    requires forall i :: 0 <= i < |words| ==> words[i] != [] && NoSpace(words[i])
    ensures Split(JoinSpaced(words)) == words
    decreases |words|
  {
    if words == [] {
    } else if |words| == 1 {
      SplitSingleWord(words[0]);
    } else {
      var rest := JoinSpaced(words[1..]);
      assert JoinSpaced(words) == words[0] + (" " + rest);
      assert AllSpace(" ");
      SplitWordThenSpace(words[0], " ", rest);
      SplitJoinSpaced(words[1..]);
      assert [words[0]] + words[1..] == words;
    }
  }
}
