/** String helpers with JavaScript's meaning: the white-space class shared by
    the regular-expression escape `\s` and `String.prototype.trim`
    (ECMA-262 WhiteSpace and LineTerminator code points), trimming, and
    `Array.prototype.join`. */
module Text {

  /** A WhiteSpace or LineTerminator code point of ECMA-262 (Unicode category
      Zs as of current Unicode, so U+180E is not included). */
  predicate IsWhitespace(c: char)
  {
    c == '\t' || c == '\n' || c == '\U{000B}' || c == '\U{000C}' || c == '\r' || c == ' '
    || c == '\U{00A0}' || c == '\U{1680}'
    || ('\U{2000}' <= c <= '\U{200A}')
    || c == '\U{2028}' || c == '\U{2029}' || c == '\U{202F}' || c == '\U{205F}'
    || c == '\U{3000}' || c == '\U{FEFF}'
  }

  predicate AllWhitespace(s: string)
  {
    forall i :: 0 <= i < |s| ==> IsWhitespace(s[i])
  }

  /** Neither the first nor the last character is white space. */
  predicate NoEdgeWhitespace(s: string)
  {
    s != [] ==> !IsWhitespace(s[0]) && !IsWhitespace(s[|s| - 1])
  }

  /** `s` with its leading white space removed: a suffix of `s`, cut after
      white space only, that does not itself start with white space. */
  function TrimStart(s: string): (r: string)
    ensures |r| <= |s| && r == s[|s| - |r|..]
    ensures AllWhitespace(s[..|s| - |r|])
    ensures r != [] ==> !IsWhitespace(r[0])
  {
    if s != [] && IsWhitespace(s[0]) then
      var r := TrimStart(s[1..]);
      assert s[..|s| - |r|] == [s[0]] + s[1..][..|s| - 1 - |r|];
      r
    else
      s
  }

  /** `s` with its trailing white space removed. */
  function TrimEnd(s: string): (r: string)
    ensures |r| <= |s| && r == s[..|r|]
    ensures AllWhitespace(s[|r|..])
    ensures r != [] ==> !IsWhitespace(r[|r| - 1])
  {
    if s != [] && IsWhitespace(s[|s| - 1]) then
      var r := TrimEnd(s[..|s| - 1]);
      assert s[|r|..] == s[..|s| - 1][|r|..] + [s[|s| - 1]];
      r
    else
      s
  }

  /** `String.prototype.trim`. */
  function Trim(s: string): (r: string)
    ensures NoEdgeWhitespace(r)
    ensures |r| <= |s|
  {
    var t := TrimStart(s);
    var r := TrimEnd(t);
    assert r != [] ==> r[0] == t[0];
    r
  }

  lemma {:induction false} TrimStartOfWhitespacePrefix(a: string, t: string)
    requires AllWhitespace(a)
    ensures TrimStart(a + t) == TrimStart(t)
  {
    if a != [] {
      assert (a + t)[0] == a[0] && (a + t)[1..] == a[1..] + t;
      TrimStartOfWhitespacePrefix(a[1..], t);
    } else {
      assert a + t == t;
    }
  }

  lemma {:induction false} TrimEndOfWhitespaceSuffix(t: string, b: string)
    requires AllWhitespace(b)
    ensures TrimEnd(t + b) == TrimEnd(t)
  {
    if b != [] {
      assert (t + b)[|t + b| - 1] == b[|b| - 1] && (t + b)[..|t + b| - 1] == t + b[..|b| - 1];
      TrimEndOfWhitespaceSuffix(t, b[..|b| - 1]);
    } else {
      assert t + b == t;
    }
  }

  /** Trimming removes exactly the white space around a core that has none at
      its edges; in particular trimming such a string changes nothing. */
  lemma TrimSurrounded(a: string, m: string, b: string)
    requires AllWhitespace(a) && AllWhitespace(b) && NoEdgeWhitespace(m)
    ensures Trim(a + m + b) == m
  {
    assert a + m + b == a + (m + b);
    TrimStartOfWhitespacePrefix(a, m + b);
    if m == [] {
      assert m + b == b;
      TrimStartOfWhitespacePrefix(b, []);
      assert b + [] == b;
      assert TrimStart(b) == [];
    } else {
      assert TrimStart(m + b) == m + b;
      TrimEndOfWhitespaceSuffix(m, b);
    }
  }

  lemma TrimUnchanged(s: string)
    requires NoEdgeWhitespace(s)
    ensures Trim(s) == s
  {
    TrimSurrounded([], s, []);
    assert [] + s + [] == s;
  }

  /** `suffix` is the last part of `s`. */
  predicate EndsWith(s: string, suffix: string)
  {
    |suffix| <= |s| && s[|s| - |suffix|..] == suffix
  }

  /** `Array.prototype.join(sep)`: the empty list joins to the empty string;
      a single element joins to itself; otherwise the result starts with the
      first element and ends with the last, and `JoinConcat` places one
      separator between neighbours. */
  function Join(xs: seq<string>, sep: string): (r: string)
    ensures xs == [] ==> r == ""
    ensures |xs| == 1 ==> r == xs[0]
    ensures |xs| > 0 ==> xs[0] <= r
    ensures |xs| > 0 ==> EndsWith(r, xs[|xs| - 1])
  {
    if |xs| == 0 then ""
    else if |xs| == 1 then xs[0]
    else Join(xs[..|xs| - 1], sep) + sep + xs[|xs| - 1]
  }

  /** Adding an element after a non-empty list adds one separator and then
      that element. */
  lemma JoinSnoc(xs: seq<string>, x: string, sep: string)
    requires xs != []
    ensures Join(xs + [x], sep) == Join(xs, sep) + sep + x
  {
    assert (xs + [x])[..|xs|] == xs;
  }

  /** Joining two non-empty lists placed one after the other is joining each
      and putting one separator between them, so the elements appear in
      order with exactly one separator between neighbours. */
  lemma {:induction false} JoinConcat(a: seq<string>, b: seq<string>, sep: string)
    requires a != [] && b != []
    ensures Join(a + b, sep) == Join(a, sep) + sep + Join(b, sep)
    decreases |b|
  {
    var init, y := b[..|b| - 1], b[|b| - 1];
    assert b == init + [y];
    if init == [] {
      assert a + b == a + [y];
      JoinSnoc(a, y, sep);
    } else {
      JoinConcat(a, init, sep);
      JoinConcatStep(a, init, y, sep);
    }
  }

  /** The step of `JoinConcat`: one more element at the end of the second list. */
  lemma JoinConcatStep(a: seq<string>, init: seq<string>, y: string, sep: string)
    requires a != [] && init != []
    requires Join(a + init, sep) == Join(a, sep) + sep + Join(init, sep)
    ensures Join(a + (init + [y]), sep) == Join(a, sep) + sep + Join(init + [y], sep)
  {
    assert a + (init + [y]) == (a + init) + [y];
    JoinSnoc(a + init, y, sep);
    JoinSnoc(init, y, sep);
    Regroup(Join(a + (init + [y]), sep), Join(a + init, sep), Join(a, sep), Join(init, sep),
            Join(init + [y], sep), sep, y);
  }

  /** The string algebra behind `JoinConcatStep`. */
  lemma Regroup(x: string, p: string, ja: string, jb: string, q: string, sep: string, y: string)
    requires x == p + sep + y && p == ja + sep + jb && q == jb + sep + y
    ensures x == ja + sep + q
  {
    calc {
      x;
      (ja + sep + jb) + sep + y;
      { ConcatAssoc(ja + sep + jb, sep, y); }
      (ja + sep + jb) + (sep + y);
      { ConcatAssoc(ja + sep, jb, sep + y); }
      (ja + sep) + (jb + (sep + y));
      { ConcatAssoc(jb, sep, y); }
      ja + sep + q;
    }
  }

  lemma ConcatAssoc(x: string, y: string, z: string)
    ensures (x + y) + z == x + (y + z)
  {
  }
}
