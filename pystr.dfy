/**
 * The parts of Python's `str` that the chatbot relies on: `lower()`,
 * the substring test `p in text`, and `split()` with no separator.
 * `lower()` is modelled for ASCII letters only.
 */
module PyStr {

  // ---------------------------------------------------------------- lower()

  predicate IsUpper(c: char) { 'A' <= c <= 'Z' }

  function LowerChar(c: char): (d: char)
    ensures !IsUpper(d)
    ensures !IsUpper(c) ==> d == c
  {
    if IsUpper(c) then (c as int + 32) as char else c
  }

  /** `s.lower()`, restricted to the ASCII letters A-Z. */
  function Lower(s: string): (r: string)
    ensures |r| == |s|
    ensures forall i :: 0 <= i < |s| ==> r[i] == LowerChar(s[i])
  {
    seq(|s|, i requires 0 <= i < |s| => LowerChar(s[i]))
  }

  /** Lowercasing twice is lowercasing once. */
  lemma LowerIdempotent(s: string)
    ensures Lower(Lower(s)) == Lower(s)
  {
    assert forall i :: 0 <= i < |s| ==> Lower(Lower(s))[i] == Lower(s)[i];
  }

  /** A lowercased string holds no upper-case ASCII letter. */
  lemma LowerHasNoUpper(s: string)
    ensures forall c :: c in Lower(s) ==> !IsUpper(c)
  {
    forall c | c in Lower(s) ensures !IsUpper(c) {
      var i :| 0 <= i < |Lower(s)| && Lower(s)[i] == c;
      assert c == LowerChar(s[i]);
    }
  }

  // -------------------------------------------------------------- p in text

  /** `text[i + j..]` starts with `p[j..]`. */
  predicate MatchAt(text: string, p: string, i: nat, j: nat)
    decreases |p| - j
  {
    j >= |p| || (i + j < |text| && text[i + j] == p[j] && MatchAt(text, p, i, j + 1))
  }

  /** `p` occurs in `text` at some position `i` or later. */
  predicate ContainsFrom(text: string, p: string, i: nat)
    decreases |text| + 1 - i
  {
    i <= |text| && (MatchAt(text, p, i, 0) || ContainsFrom(text, p, i + 1))
  }

  /** The reference meaning of the substring test: some slice equals `p`. */
  ghost predicate OccursAt(text: string, p: string, i: int)
  {
    0 <= i && i + |p| <= |text| && text[i..i + |p|] == p
  }

  /** Python's substring test `p in text`: some slice of `text` equals `p`. */
  predicate Contains(text: string, p: string): (r: bool)
    ensures r <==> exists i :: OccursAt(text, p, i)
  {
    ContainsFromOccurs(text, p, 0);
    ContainsFrom(text, p, 0)
  }

  lemma {:induction false} MatchAtSlice(text: string, p: string, i: nat, j: nat)
    requires j <= |p| && i + j <= |text|
    ensures MatchAt(text, p, i, j) <==> (i + |p| <= |text| && text[i + j..i + |p|] == p[j..])
    decreases |p| - j
  {
    if j < |p| && i + j < |text| {
      MatchAtSlice(text, p, i, j + 1);
      if i + |p| <= |text| {
        assert text[i + j..i + |p|] == [text[i + j]] + text[i + j + 1..i + |p|];
        assert p[j..] == [p[j]] + p[j + 1..];
      }
    }
  }

  lemma {:induction false} ContainsFromOccurs(text: string, p: string, i: nat)
    ensures ContainsFrom(text, p, i) <==> exists k :: i <= k && OccursAt(text, p, k)
    decreases |text| + 1 - i
  {
    if i <= |text| {
      MatchAtSlice(text, p, i, 0);
      assert p[0..] == p;
      ContainsFromOccurs(text, p, i + 1);
      if exists k :: i <= k && OccursAt(text, p, k) {
        var k :| i <= k && OccursAt(text, p, k);
        if k > i {
          assert i + 1 <= k;
        } else {
          assert MatchAt(text, p, i, 0);
        }
      }
      if MatchAt(text, p, i, 0) {
        assert OccursAt(text, p, i);
      }
    }
  }

  /** A pattern with a character the text lacks does not occur in it. */
  lemma AbsentChar(text: string, p: string, j: nat)
    requires j < |p| && p[j] !in text
    ensures !Contains(text, p)
  {
  }

  /** A pattern occurring at a known position is contained. */
  lemma PresentAt(text: string, p: string, i: nat)
    requires i <= |text| && MatchAt(text, p, i, 0)
    ensures Contains(text, p)
  {
    MatchAtSlice(text, p, i, 0);
    assert p[0..] == p;
    assert OccursAt(text, p, i);
  }

  /** `any(w in text for w in words)`. */
  predicate AnyIn(text: string, words: seq<string>)
  {
    exists k :: 0 <= k < |words| && Contains(text, words[k])
  }

  /** `any` over four words is their disjunction. */
  lemma AnyInFour(text: string, a: string, b: string, c: string, d: string)
    ensures AnyIn(text, [a, b, c, d]) <==>
              Contains(text, a) || Contains(text, b) || Contains(text, c) || Contains(text, d)
  {
    var words := [a, b, c, d];
    if AnyIn(text, words) {
      var k :| 0 <= k < |words| && Contains(text, words[k]);
      assert k == 0 || k == 1 || k == 2 || k == 3;
    }
    if Contains(text, a) { assert Contains(text, words[0]); }
    if Contains(text, b) { assert Contains(text, words[1]); }
    if Contains(text, c) { assert Contains(text, words[2]); }
    if Contains(text, d) { assert Contains(text, words[3]); }
  }

  /** No word of four occurs when each of them has a character that the text lacks. */
  lemma NoneOfFour(text: string, a: string, b: string, c: string, d: string, i: nat, j: nat, k: nat, l: nat)
    requires i < |a| && a[i] !in text && j < |b| && b[j] !in text
    requires k < |c| && c[k] !in text && l < |d| && d[l] !in text
    ensures !AnyIn(text, [a, b, c, d])
  {
    AbsentChar(text, a, i);
    AbsentChar(text, b, j);
    AbsentChar(text, c, k);
    AbsentChar(text, d, l);
    AnyInFour(text, a, b, c, d);
  }

  // ---------------------------------------------------------------- split()

  /** The characters for which Python's `str.isspace()` holds. */
  predicate IsSpace(c: char)
  {
    var n := c as int;
    (9 <= n <= 13) || (28 <= n <= 32) || n == 0x85 || n == 0xA0 || n == 0x1680
    || (0x2000 <= n <= 0x200A) || n == 0x2028 || n == 0x2029 || n == 0x202F
    || n == 0x205F || n == 0x3000
  }

  predicate NoSpace(w: string)
  {
    forall i :: 0 <= i < |w| ==> !IsSpace(w[i])
  }

  /** Length of the run of non-whitespace characters at the start of `s`. */
  function RunLength(s: string): (n: nat)
    ensures n <= |s|
    ensures NoSpace(s[..n])
    ensures n == |s| || IsSpace(s[n])
  {
    if s == [] || IsSpace(s[0]) then 0
    else
      var m := RunLength(s[1..]);
      assert s[..m + 1] == [s[0]] + s[1..][..m];
      m + 1
  }

  /** `s.split()`: the maximal runs of non-whitespace characters, in order. */
  function Split(s: string): (r: seq<string>)
    ensures forall k :: 0 <= k < |r| ==> r[k] != [] && NoSpace(r[k])
    decreases |s|
  {
    if s == [] then []
    else if IsSpace(s[0]) then Split(s[1..])
    else
      var n := RunLength(s);
      [s[..n]] + Split(s[n..])
  }

  /** `w` stands in `s` at `i` as a whole token: delimited by whitespace or the ends. */
  ghost predicate TokenAt(s: string, w: string, i: int)
  {
    w != [] && NoSpace(w) && OccursAt(s, w, i)
    && (i == 0 || IsSpace(s[i - 1]))
    && (i + |w| == |s| || IsSpace(s[i + |w|]))
  }

  ghost predicate IsToken(s: string, w: string)
  {
    exists i :: TokenAt(s, w, i)
  }

  lemma TokenAtShift(s: string, w: string, i: int, d: nat)
    requires d <= |s|
    requires TokenAt(s[d..], w, i)
    requires i > 0 || d == 0 || IsSpace(s[d - 1])
    ensures TokenAt(s, w, i + d)
  {
    assert s[d..][i..i + |w|] == s[i + d..i + d + |w|];
    if i > 0 {
      assert s[d..][i - 1] == s[i + d - 1];
    }
  }

  lemma TokenAtUnshift(s: string, w: string, i: int, d: nat)
    requires d <= |s| && d <= i
    requires TokenAt(s, w, i) && (i == d || IsSpace(s[i - 1]))
    ensures TokenAt(s[d..], w, i - d)
  {
    assert s[d..][i - d..i - d + |w|] == s[i..i + |w|];
  }

  /** A token starts with a non-whitespace character. */
  lemma TokenStartsSolid(s: string, w: string, i: int)
    requires TokenAt(s, w, i)
    ensures 0 <= i < |s| && !IsSpace(s[i])
  {
    assert s[i] == s[i..i + |w|][0];
  }

  /** Skipping one leading whitespace character changes no token. */
  lemma SplitTokensSpace(s: string, w: string)
    requires s != [] && IsSpace(s[0])
    requires (w in Split(s[1..])) <==> IsToken(s[1..], w)
    ensures (w in Split(s)) <==> IsToken(s, w)
  {
    if IsToken(s, w) {
      var i :| TokenAt(s, w, i);
      TokenStartsSolid(s, w, i);
      TokenAtUnshift(s, w, i, 1);
    }
    if IsToken(s[1..], w) {
      var i :| TokenAt(s[1..], w, i);
      TokenAtShift(s, w, i, 1);
    }
  }

  /** A token of `s` other than its leading run lies after that run. */
  lemma TokenAfterRun(s: string, w: string, i: int)
    requires s != [] && !IsSpace(s[0])
    requires TokenAt(s, w, i)
    ensures var n := RunLength(s); if i == 0 then w == s[..n] else n < i && TokenAt(s[n..], w, i - n)
  {
    var n := RunLength(s);
    if i == 0 {
      assert |w| == n;
      assert w == s[..n];
    } else {
      assert n <= i - 1;
      TokenAtUnshift(s, w, i, n);
    }
  }

  /** A token after the leading run is a token of `s`. */
  lemma TokenBeforeRun(s: string, w: string, i: int)
    requires s != [] && !IsSpace(s[0])
    requires TokenAt(s[RunLength(s)..], w, i)
    ensures TokenAt(s, w, i + RunLength(s))
  {
    var n := RunLength(s);
    TokenStartsSolid(s[n..], w, i);
    TokenAtShift(s, w, i, n);
  }

  lemma SplitTokensRun(s: string, w: string)
    requires s != [] && !IsSpace(s[0])
    requires (w in Split(s[RunLength(s)..])) <==> IsToken(s[RunLength(s)..], w)
    ensures (w in Split(s)) <==> IsToken(s, w)
  {
    var n := RunLength(s);
    assert Split(s) == [s[..n]] + Split(s[n..]);
    if IsToken(s, w) {
      var i :| TokenAt(s, w, i);
      TokenAfterRun(s, w, i);
    }
    if w == s[..n] {
      assert TokenAt(s, w, 0);
    }
    if IsToken(s[n..], w) {
      var i :| TokenAt(s[n..], w, i);
      TokenBeforeRun(s, w, i);
    }
  }

  /** The tokens of `split()` are exactly the whitespace-delimited occurrences. */
  lemma {:induction false} SplitTokens(s: string, w: string)
    ensures w in Split(s) <==> IsToken(s, w)
    decreases |s|
  {
    if s == [] {
    } else if IsSpace(s[0]) {
      SplitTokens(s[1..], w);
      SplitTokensSpace(s, w);
    } else {
      SplitTokens(s[RunLength(s)..], w);
      SplitTokensRun(s, w);
    }
  }

  /** `sep.join(words)`. */
  function Join(sep: string, words: seq<string>): string
  {
    if words == [] then []
    else if |words| == 1 then words[0]
    else words[0] + sep + Join(sep, words[1..])
  }

  /** A non-empty word followed by whitespace or by nothing is the leading run. */
  lemma {:induction false} RunLengthWord(w: string, rest: string)
    requires w != [] && NoSpace(w)
    requires rest == [] || IsSpace(rest[0])
    ensures RunLength(w + rest) == |w|
    decreases |w|
  {
    var s := w + rest;
    assert s[0] == w[0];
    if |w| > 1 {
      assert s[1..] == w[1..] + rest;
      RunLengthWord(w[1..], rest);
    } else {
      assert s[1..] == rest;
    }
  }

  /** Such a word is the first token of `split()`. */
  lemma SplitWord(w: string, rest: string)
    requires w != [] && NoSpace(w)
    requires rest == [] || IsSpace(rest[0])
    ensures Split(w + rest) == [w] + Split(rest)
  {
    var s := w + rest;
    RunLengthWord(w, rest);
    assert s[0] == w[0];
    assert s[..|w|] == w && s[|w|..] == rest;
  }

  /** No word of the list is empty or holds whitespace. */
  predicate SolidWords(words: seq<string>)
  {
    forall k :: 0 <= k < |words| ==> words[k] != [] && NoSpace(words[k])
  }

  /** Joining a list of two or more words puts one separator after the first. */
  lemma JoinCons(words: seq<string>)
    requires |words| > 1
    ensures Join(" ", words) == words[0] + (" " + Join(" ", words[1..]))
  {
  }

  lemma SolidTail(words: seq<string>)
    requires words != [] && SolidWords(words)
    ensures SolidWords(words[1..])
  {
    assert forall k :: 0 <= k < |words[1..]| ==> words[1..][k] == words[k + 1];
  }

  /**
   * Splitting words joined by single spaces gives the words back, when none
   * is empty or holds whitespace.
   */
  lemma {:induction false} SplitJoin(words: seq<string>)
    ensures SolidWords(words) ==> Split(Join(" ", words)) == words
  {
    if SolidWords(words) {
      if |words| == 1 {
        SplitWord(words[0], []);
        assert words[0] + [] == words[0];
      } else if |words| > 1 {
        var rest := Join(" ", words[1..]);
        JoinCons(words);
        SplitWord(words[0], " " + rest);
        assert (" " + rest)[1..] == rest;
        SolidTail(words);
        SplitJoin(words[1..]);
        assert words == [words[0]] + words[1..];
      }
    }
  }
}
