/**
 * The string operations the application uses: `String.prototype.trim`, the
 * regular-expression replacement `replace(/\s+/g, '_')`, decimal rendering of
 * a counter in a template literal, and `split('T')[0]` on an ISO timestamp.
 */
module Text {

  /**
   * The characters JavaScript's `trim` removes and `\s` matches: the
   * ECMAScript WhiteSpace and LineTerminator code points.
   */
  predicate IsWhitespace(c: char) {
    c == ' ' || c == '\t' || c == '\n' || c == '\r' || c == '\U{000B}' || c == '\U{000C}'
    || c == '\U{00A0}' || c == '\U{1680}' || ('\U{2000}' <= c <= '\U{200A}')
    || c == '\U{2028}' || c == '\U{2029}' || c == '\U{202F}' || c == '\U{205F}'
    || c == '\U{3000}' || c == '\U{FEFF}'
  }

  predicate AllWhitespace(s: string) {
    forall i :: 0 <= i < |s| ==> IsWhitespace(s[i])
  }

  predicate NoWhitespace(s: string) {
    forall i :: 0 <= i < |s| ==> !IsWhitespace(s[i])
  }

  /** Neither the first nor the last character is white space. */
  predicate Trimmed(s: string) {
    s == [] || (!IsWhitespace(s[0]) && !IsWhitespace(s[|s| - 1]))
  }

  /** Drops the leading white space. */
  function TrimStart(s: string): (r: string)
    ensures |r| <= |s| && r == s[|s| - |r|..]
    ensures r == [] || !IsWhitespace(r[0])
    ensures AllWhitespace(s[..|s| - |r|])
  {
    if |s| > 0 && IsWhitespace(s[0]) then TrimStart(s[1..]) else s
  }

  /** Drops the trailing white space. */
  function TrimEnd(s: string): (r: string)
    ensures |r| <= |s| && r == s[..|r|]
    ensures r == [] || !IsWhitespace(r[|r| - 1])
    ensures AllWhitespace(s[|r|..])
  {
    if |s| > 0 && IsWhitespace(s[|s| - 1]) then
      var r := TrimEnd(s[..|s| - 1]);
      assert s[|r|..] == s[..|s| - 1][|r|..] + [s[|s| - 1]];
      r
    else s
  }

  /** `r` is `s[a..b]` and `s` holds only white space before `a` and from `b` on. */
  predicate BlankAround(s: string, r: string, a: int, b: int) {
    0 <= a <= b <= |s| && r == s[a..b] && AllWhitespace(s[..a]) && AllWhitespace(s[b..])
  }

  /** `s.trim()`: the input without its leading and trailing white space. */
  function Trim(s: string): (r: string)
    ensures exists a, b :: BlankAround(s, r, a, b)
    ensures Trimmed(r)
    ensures r == [] <==> AllWhitespace(s)
    ensures Trimmed(s) ==> r == s
    ensures |r| <= |s|
  {
    var t := TrimStart(s);
    var r := TrimEnd(t);
    TrimPassesSlice(s, t, r);
    TrimPassesEmpty(s, t, r);
    TrimPassesKeep(s, t, r);
    r
  }

  /**
   * What the contracts of the two passes say about `t`, the input without its
   * leading white space, and `r`, `t` without its trailing white space.
   */
  predicate TwoPasses(s: string, t: string, r: string) {
    |t| <= |s| && t == s[|s| - |t|..] && (t == [] || !IsWhitespace(t[0]))
    && AllWhitespace(s[..|s| - |t|])
    && |r| <= |t| && r == t[..|r|] && (r == [] || !IsWhitespace(r[|r| - 1]))
    && AllWhitespace(t[|r|..])
  }

  /** The second pass leaves a slice of the input with white space on either side. */
  lemma TrimPassesSlice(s: string, t: string, r: string)
    requires TwoPasses(s, t, r)
    ensures BlankAround(s, r, |s| - |t|, |s| - |t| + |r|)
  {
    SuffixSlices(s, |s| - |t|, |r|);
  }

  /** Slicing a suffix of `s` is slicing `s` further along. */
  lemma SuffixSlices(s: string, a: nat, n: nat)
    requires a + n <= |s|
    ensures s[a..][..n] == s[a..a + n] && s[a..][n..] == s[a + n..]
  {
  }

  /** The two passes leave nothing exactly when the input is all white space. */
  lemma TrimPassesEmpty(s: string, t: string, r: string)
    requires TwoPasses(s, t, r)
    ensures r == [] <==> AllWhitespace(s)
  {
    if r == [] {
      assert t[0..] == t;
      assert t == [];
      assert s[..|s|] == s;
    }
    if t != [] {
      assert t[0] == s[|s| - |t|];
    }
  }

  /** Neither pass changes an input that is already trimmed. */
  lemma TrimPassesKeep(s: string, t: string, r: string)
    requires TwoPasses(s, t, r)
    ensures Trimmed(s) ==> r == s
  {
    if |t| < |s| {
      assert s[..|s| - |t|][0] == s[0];
    }
    if |r| < |t| {
      assert t[|r|..][|t| - |r| - 1] == t[|t| - 1];
    }
    assert s[0..] == s;
    assert t[..|t|] == t;
  }

  /** Trimming is idempotent. */
  lemma TrimIdempotent(s: string)
    ensures Trim(Trim(s)) == Trim(s)
  {
  }

  /**
   * `s.replace(/\s+/g, '_')`: every maximal run of white space becomes a
   * single underscore.
   */
  function CollapseWhitespace(s: string): string
    decreases |s|
  {
    if s == [] then []
    else if IsWhitespace(s[0]) then
      var rest := TrimStart(s);
      assert rest == TrimStart(s[1..]);
      "_" + CollapseWhitespace(rest)
    else
      [s[0]] + CollapseWhitespace(s[1..])
  }

  /** The result holds no white space. */
  lemma {:induction false} CollapseRemovesWhitespace(s: string)
    ensures NoWhitespace(CollapseWhitespace(s))
    decreases |s|
  {
    if s != [] {
      CollapseStep(s);
      if IsWhitespace(s[0]) {
        var t := TrimStart(s[1..]);
        CollapseRemovesWhitespace(t);
        UnderscoreIsNotWhitespace();
        NoWhitespaceCons('_', CollapseWhitespace(t));
      } else {
        CollapseRemovesWhitespace(s[1..]);
        NoWhitespaceCons(s[0], CollapseWhitespace(s[1..]));
      }
    }
  }

  lemma UnderscoreIsNotWhitespace()
    ensures !IsWhitespace('_')
  {
  }

  /** The result is never longer than the input. */
  lemma {:induction false} CollapseNotLonger(s: string)
    ensures |CollapseWhitespace(s)| <= |s|
    decreases |s|
  {
    if s != [] {
      var t := if IsWhitespace(s[0]) then TrimStart(s[1..]) else s[1..];
      CollapseStep(s);
      CollapseNotLonger(t);
    }
  }

  /** One step of the replacement: a leading run becomes `_`, a leading non-space is copied. */
  lemma CollapseStep(s: string)
    requires s != []
    ensures IsWhitespace(s[0]) ==> CollapseWhitespace(s) == ['_'] + CollapseWhitespace(TrimStart(s[1..]))
    ensures !IsWhitespace(s[0]) ==> CollapseWhitespace(s) == [s[0]] + CollapseWhitespace(s[1..])
    ensures |TrimStart(s[1..])| < |s|
  {
  }

  lemma NoWhitespaceCons(c: char, t: string)
    requires !IsWhitespace(c) && NoWhitespace(t)
    ensures NoWhitespace([c] + t)
  {
    assert forall i :: 1 <= i < |t| + 1 ==> ([c] + t)[i] == t[i - 1];
  }

  /** A string without white space is left as it is. */
  lemma CollapseKeepsWord(s: string)
    requires NoWhitespace(s)
    ensures CollapseWhitespace(s) == s
  {
    CollapseWordPrefix(s, []);
    assert s + [] == s;
  }

  /** A non-empty white-space run followed by a non-space (or the end) becomes one `_`. */
  lemma {:induction false} CollapseRun(w: string, rest: string)
    requires |w| > 0 && AllWhitespace(w)
    requires rest == [] || !IsWhitespace(rest[0])
    ensures CollapseWhitespace(w + rest) == "_" + CollapseWhitespace(rest)
  {
    TrimStartRun(w, rest);
  }

  lemma {:induction false} TrimStartRun(w: string, rest: string)
    requires AllWhitespace(w)
    requires rest == [] || !IsWhitespace(rest[0])
    ensures TrimStart(w + rest) == rest
    decreases |w|
  {
    if w == [] {
      assert w + rest == rest;
    } else {
      assert (w + rest)[0] == w[0];
      assert (w + rest)[1..] == w[1..] + rest;
      TrimStartRun(w[1..], rest);
    }
  }

  /** A prefix without white space is copied unchanged. */
  lemma {:induction false} CollapseWordPrefix(a: string, rest: string)
    requires NoWhitespace(a)
    ensures CollapseWhitespace(a + rest) == a + CollapseWhitespace(rest)
    decreases |a|
  {
    if a == [] {
      assert a + rest == rest;
    } else {
      var tail := a[1..];
      assert NoWhitespace(tail) by {
        forall i | 0 <= i < |tail| ensures !IsWhitespace(tail[i]) {
          assert tail[i] == a[i + 1];
        }
      }
      CollapseWordPrefix(tail, rest);
      assert a + rest == [a[0]] + (tail + rest);
      CollapseHead(a[0], tail + rest);
      assert a == [a[0]] + tail;
    }
  }

  /** A word, then a white-space run, then the rest: the run becomes one `_` between them. */
  lemma CollapseWordRun(word: string, run: string, rest: string)
    requires NoWhitespace(word) && |run| > 0 && AllWhitespace(run)
    requires rest == [] || !IsWhitespace(rest[0])
    ensures CollapseWhitespace(word + run + rest) == word + "_" + CollapseWhitespace(rest)
  {
    assert word + run + rest == word + (run + rest);
    CollapseWordPrefix(word, run + rest);
    CollapseRun(run, rest);
  }

  /** A non-space character is copied, and the rest collapsed. */
  lemma CollapseHead(c: char, t: string)
    requires !IsWhitespace(c)
    ensures CollapseWhitespace([c] + t) == [c] + CollapseWhitespace(t)
  {
    assert ([c] + t)[1..] == t;
  }

  /** A string that starts with a non-space and ends in one space after a non-space trims to itself without that space. */
  lemma TrimOneTrailingSpace(s: string)
    requires |s| >= 2 && !IsWhitespace(s[0]) && IsWhitespace(s[|s| - 1]) && !IsWhitespace(s[|s| - 2])
    ensures Trim(s) == s[..|s| - 1]
  {
    assert TrimStart(s) == s;
    var u := s[..|s| - 1];
    assert u[|u| - 1] == s[|s| - 2];
    assert TrimEnd(u) == u;
    assert TrimEnd(s) == u;
  }

  function DigitChar(d: nat): char
    requires d < 10
  {
    "0123456789"[d]
  }

  /** Decimal rendering of a natural number, as `${n}` in a template literal. */
  function NatToString(n: nat): (r: string)
    ensures |r| > 0
  {
    if n < 10 then [DigitChar(n)] else NatToString(n / 10) + [DigitChar(n % 10)]
  }

  /** `s.split('T')[0]`: everything before the first `T`. */
  function DatePart(s: string): (r: string)
    ensures |r| <= |s| && r == s[..|r|]
    ensures 'T' !in r
    ensures |r| < |s| ==> s[|r|] == 'T'
  {
    if s == [] || s[0] == 'T' then [] else [s[0]] + DatePart(s[1..])
  }
}
