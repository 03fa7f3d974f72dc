/**
 * The string primitives the controller relies on: Python's `str.strip()`
 * with no argument, `str.startswith`, and `os.path.basename` on a POSIX
 * host. Strings are sequences of Unicode scalar values.
 */
module Text {

  /**
   * The characters `str.isspace` accepts, and so the ones `str.strip()`
   * removes: the code points CPython's Unicode table marks as whitespace,
   * as inclusive ranges.
   */
  const SpaceRanges: seq<(char, char)> := [
    ('\t', '\r'), ('\U{1C}', ' '), ('\U{85}', '\U{85}'), ('\U{A0}', '\U{A0}'),
    ('\U{1680}', '\U{1680}'), ('\U{2000}', '\U{200A}'), ('\U{2028}', '\U{2029}'),
    ('\U{202F}', '\U{202F}'), ('\U{205F}', '\U{205F}'), ('\U{3000}', '\U{3000}')
  ]

  predicate IsSpace(c: char) {
    InRanges(c, 0)
  }

  /** `c` lies in one of the ranges from index `i` of `SpaceRanges` on. */
  predicate InRanges(c: char, i: nat)
    decreases |SpaceRanges| - i
  {
    i < |SpaceRanges| && ((SpaceRanges[i].0 <= c <= SpaceRanges[i].1) || InRanges(c, i + 1))
  }

  predicate AllSpace(s: string) {
    forall i :: 0 <= i < |s| ==> IsSpace(s[i])
  }

  /** Neither end of `s` is whitespace (vacuously so for the empty string). */
  predicate Tight(s: string) {
    s == [] || (!IsSpace(s[0]) && !IsSpace(s[|s| - 1]))
  }

  /** `str.startswith(p)`. */
  predicate StartsWith(s: string, p: string) {
    |p| <= |s| && s[..|p|] == p
  }

  /** `s` is `p + r + q` where `p` and `q` are all whitespace and `r` is tight. */
  predicate Trims(s: string, p: string, r: string, q: string) {
    s == p + r + q && AllSpace(p) && AllSpace(q) && Tight(r)
  }

  /** `str.lstrip()`: the suffix left after dropping leading whitespace. */
  function StripLeft(s: string): (r: string)
    ensures |r| <= |s| && r == s[|s| - |r|..]
    ensures AllSpace(s[..|s| - |r|])
    ensures r == [] || !IsSpace(r[0])
  {
    if s != [] && IsSpace(s[0]) then
      var r := StripLeft(s[1..]);
      assert s[..|s| - |r|] == [s[0]] + s[1..][..|s| - 1 - |r|];
      r
    else s
  }

  /** `str.rstrip()`: the prefix left after dropping trailing whitespace. */
  function StripRight(s: string): (r: string)
    ensures |r| <= |s| && r == s[..|r|]
    ensures AllSpace(s[|r|..])
    ensures r == [] || !IsSpace(r[|r| - 1])
  {
    if s != [] && IsSpace(s[|s| - 1]) then
      var r := StripRight(s[..|s| - 1]);
      assert s[|r|..] == s[..|s| - 1][|r|..] + [s[|s| - 1]];
      r
    else s
  }

  /** `str.strip()`. */
  function Strip(s: string): (r: string)
    ensures r == [] <==> AllSpace(s)
    ensures Tight(r)
    ensures |r| <= |s|
  {
    var l := StripLeft(s);
    assert AllSpace(s) ==> l == [] by {
      if l != [] { assert s[|s| - |l|] == l[0]; }
    }
    assert l == [] ==> AllSpace(s) by {
      if l == [] { assert s[..|s|] == s; }
    }
    var r := StripRight(l);
    assert r != [] ==> r[0] == l[0];
    r
  }

  /** Dropping whitespace from the front of a string that starts tight. */
  lemma {:induction false} StripLeftSkips(p: string, t: string)
    requires AllSpace(p)
    requires t == [] || !IsSpace(t[0])
    ensures StripLeft(p + t) == t
  {
    if p != [] {
      assert (p + t)[0] == p[0];
      assert (p + t)[1..] == p[1..] + t;
      StripLeftSkips(p[1..], t);
    } else {
      assert p + t == t;
    }
  }

  /** Dropping whitespace from the back of a string that ends tight. */
  lemma {:induction false} StripRightSkips(t: string, q: string)
    requires AllSpace(q)
    requires t == [] || !IsSpace(t[|t| - 1])
    ensures StripRight(t + q) == t
  {
    if q != [] {
      assert (t + q)[|t + q| - 1] == q[|q| - 1];
      assert (t + q)[..|t + q| - 1] == t + q[..|q| - 1];
      StripRightSkips(t, q[..|q| - 1]);
    } else {
      assert t + q == t;
    }
  }

  /**
   * `Strip` is determined by its specification: whenever `s` splits into
   * whitespace, a tight middle and whitespace, the middle is `Strip(s)`.
   */
  lemma StripUnique(s: string, p: string, r: string, q: string)
    requires Trims(s, p, r, q)
    ensures Strip(s) == r
  {
    if r == [] {
      assert s == p + q;
      forall i | 0 <= i < |s| ensures IsSpace(s[i]) {
        if i < |p| { assert s[i] == p[i]; } else { assert s[i] == q[i - |p|]; }
      }
    } else {
      assert s == p + (r + q);
      StripLeftSkips(p, r + q);
      StripRightSkips(r, q);
    }
  }

  /** Every string splits around its stripped form. */
  lemma StripSplits(s: string) returns (p: string, q: string)
    ensures Trims(s, p, Strip(s), q)
  {
    var l := StripLeft(s);
    var r := StripRight(l);
    assert Strip(s) == r;
    p, q := s[..|s| - |l|], l[|r|..];
    assert AllSpace(p) && AllSpace(q);
    Rejoin(s, l, r);
  }

  lemma Rejoin(s: string, l: string, r: string)
    requires |l| <= |s| && l == s[|s| - |l|..]
    requires |r| <= |l| && r == l[..|r|]
    ensures s == s[..|s| - |l|] + r + l[|r|..]
  {
    assert l == r + l[|r|..];
  }

  /** A tight string is its own stripped form. */
  lemma StripTight(r: string)
    requires Tight(r)
    ensures Strip(r) == r
  {
    assert [] + r == r && r + [] == r;
    StripLeftSkips([], r);
    StripRightSkips(r, []);
  }

  lemma StripIdempotent(s: string)
    ensures Strip(Strip(s)) == Strip(s)
  {
    StripTight(Strip(s));
  }

  lemma AllSpaceJoin(a: string, b: string)
    requires AllSpace(a) && AllSpace(b)
    ensures AllSpace(a + b)
  {
    forall i | 0 <= i < |a + b| ensures IsSpace((a + b)[i]) {
      if i < |a| { assert (a + b)[i] == a[i]; } else { assert (a + b)[i] == b[i - |a|]; }
    }
  }

  /** Surrounding whitespace never changes what `strip` returns. */
  lemma StripIgnoresPadding(p: string, s: string, q: string)
    requires AllSpace(p) && AllSpace(q)
    ensures Strip(p + s + q) == Strip(s)
  {
    var p', q' := StripSplits(s);
    var r := Strip(s);
    AllSpaceJoin(p, p');
    AllSpaceJoin(q', q);
    Regroup(p, p', r, q', q);
    StripUnique(p + s + q, p + p', r, q' + q);
  }

  lemma Regroup(p: string, p': string, r: string, q': string, q: string)
    ensures p + (p' + r + q') + q == (p + p') + r + (q' + q)
  {
  }

  /**
   * `posixpath.basename`: the part of `path` after its last `/`, that is
   * the longest suffix holding no `/`.
   */
  function Basename(path: string): (r: string)
    ensures |r| <= |path| && r == path[|path| - |r|..]
    ensures '/' !in r
    ensures |r| == |path| || path[|path| - |r| - 1] == '/'
  {
    if path == [] || path[|path| - 1] == '/' then []
    else
      var init := path[..|path| - 1];
      var b := Basename(init);
      assert path == init + [path[|path| - 1]];
      b + [path[|path| - 1]]
  }
}
