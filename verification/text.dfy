/** The two string helpers the control path relies on: Go's
    `strings.TrimSpace` (every MQTT payload is trimmed before it is read) and
    `strings.HasPrefix` (the broker URL check). Strings are sequences of
    Unicode code points. */
module Text {

  /** `unicode.IsSpace`: the Latin-1 spaces '\t', '\n', '\v', '\f', '\r',
      ' ', U+0085 and U+00A0, and the other characters with the Unicode
      White_Space property. */
  predicate IsSpace(c: char)
  {
    || c == '\t' || c == '\n' || c == '\U{000B}' || c == '\U{000C}' || c == '\r' || c == ' '
    || c == '\U{0085}' || c == '\U{00A0}' || c == '\U{1680}'
    || ('\U{2000}' <= c <= '\U{200A}')
    || c == '\U{2028}' || c == '\U{2029}' || c == '\U{202F}' || c == '\U{205F}' || c == '\U{3000}'
  }

  predicate AllSpace(s: string)
  {
    forall k :: 0 <= k < |s| ==> IsSpace(s[k])
  }

  /** Neither end of `s` is a space (vacuously true of the empty string). */
  predicate Tight(s: string)
  {
    |s| == 0 || (!IsSpace(s[0]) && !IsSpace(s[|s| - 1]))
  }

  /** Drops the leading spaces: the result is the suffix of `s` left after
      the longest all-space prefix. */
  function TrimLeft(s: string): (r: string)
    ensures |r| <= |s| && r == s[|s| - |r|..]
    ensures AllSpace(s[..|s| - |r|])
    ensures |r| == 0 || !IsSpace(r[0])
    decreases |s|
  {
    if |s| > 0 && IsSpace(s[0]) then
      var r := TrimLeft(s[1..]);
      SpacePrefixGrows(s, |s| - |r|);
      r
    else
      s
  }

  /** Drops the trailing spaces: the result is the prefix of `s` left before
      the longest all-space suffix. */
  function TrimRight(s: string): (r: string)
    ensures |r| <= |s| && r == s[..|r|]
    ensures AllSpace(s[|r|..])
    ensures |r| == 0 || !IsSpace(r[|r| - 1])
    decreases |s|
  {
    if |s| > 0 && IsSpace(s[|s| - 1]) then
      var r := TrimRight(s[..|s| - 1]);
      SpaceSuffixGrows(s, |r|);
      r
    else
      s
  }

  /** A space followed by spaces is a run of spaces. */
  lemma SpacePrefixGrows(s: string, k: nat)
    requires 1 <= k <= |s| && IsSpace(s[0]) && AllSpace(s[1..][..k - 1])
    ensures AllSpace(s[..k])
  {
    assert s[..k] == [s[0]] + s[1..][..k - 1];
    AllSpaceAppend([s[0]], s[1..][..k - 1]);
  }

  /** Spaces followed by a space are a run of spaces. */
  lemma SpaceSuffixGrows(s: string, k: nat)
    requires k < |s| && IsSpace(s[|s| - 1]) && AllSpace(s[..|s| - 1][k..])
    ensures AllSpace(s[k..])
  {
    assert s[k..] == s[..|s| - 1][k..] + [s[|s| - 1]];
    AllSpaceAppend(s[..|s| - 1][k..], [s[|s| - 1]]);
  }

  lemma AllSpaceAppend(a: string, b: string)
    requires AllSpace(a) && AllSpace(b)
    ensures AllSpace(a + b)
  {
    assert forall k :: 0 <= k < |a + b| ==> (a + b)[k] == if k < |a| then a[k] else b[k - |a|];
  }

  /** `strings.TrimSpace`: both ends at once. The result is a tight core
      that `s` surrounds with spaces only. */
  function TrimSpace(s: string): (r: string)
    ensures |r| <= |s| && Tight(r)
    ensures Surrounds(s, r)
  {
    TrimBothEnds(s);
    TrimRight(TrimLeft(s))
  }

  lemma TrimBothEnds(s: string)
    ensures Tight(TrimRight(TrimLeft(s))) && Surrounds(s, TrimRight(TrimLeft(s)))
  {
    var l := TrimLeft(s);
    var r := TrimRight(l);
    assert |l| <= |s| && l == s[|s| - |l|..] && AllSpace(s[..|s| - |l|]);
    assert |r| <= |l| && r == l[..|r|] && AllSpace(l[|r|..]);
    TrimmedShape(s, l, r);
  }

  /** `s` is `core` with only spaces added before and after it. */
  ghost predicate Surrounds(s: string, core: string)
  {
    exists pre, post :: AllSpace(pre) && AllSpace(post) && s == pre + core + post
  }

  lemma TrimmedShape(s: string, l: string, r: string)
    requires |l| <= |s| && l == s[|s| - |l|..] && AllSpace(s[..|s| - |l|])
    requires |r| <= |l| && r == l[..|r|] && AllSpace(l[|r|..])
    requires |l| == 0 || !IsSpace(l[0])
    requires |r| == 0 || !IsSpace(r[|r| - 1])
    ensures Tight(r) && Surrounds(s, r)
  {
    Cut(s, l, r);
    var pre, post := s[..|s| - |l|], l[|r|..];
    assert AllSpace(pre) && AllSpace(post) && s == pre + r + post;
    if |r| > 0 {
      assert r[0] == l[0];
    }
  }

  /** A suffix `l` of `s` and a prefix `r` of `l` split `s` in three. */
  lemma Cut(s: string, l: string, r: string)
    requires |l| <= |s| && l == s[|s| - |l|..]
    requires |r| <= |l| && r == l[..|r|]
    ensures s == s[..|s| - |l|] + r + l[|r|..]
  {
    assert s == s[..|s| - |l|] + l;
    assert l == r + l[|r|..];
  }

  /** Only spaces: nothing is left. */
  lemma {:induction false} TrimLeftAllSpace(s: string)
    requires AllSpace(s)
    ensures TrimLeft(s) == []
    decreases |s|
  {
    if |s| > 0 {
      TrimLeftAllSpace(s[1..]);
    }
  }

  /** Trimming a padded string gives back exactly the unpadded core. */
  lemma {:induction false} TrimLeftPadded(pre: string, rest: string)
    requires AllSpace(pre) && (|rest| == 0 || !IsSpace(rest[0]))
    ensures TrimLeft(pre + rest) == rest
    decreases |pre|
  {
    if |pre| > 0 {
      assert (pre + rest)[1..] == pre[1..] + rest;
      TrimLeftPadded(pre[1..], rest);
    } else {
      assert pre + rest == rest;
    }
  }

  lemma {:induction false} TrimRightPadded(core: string, post: string)
    requires AllSpace(post) && (|core| == 0 || !IsSpace(core[|core| - 1]))
    ensures TrimRight(core + post) == core
    decreases |post|
  {
    if |post| > 0 {
      var n := |post| - 1;
      assert (core + post)[..|core + post| - 1] == core + post[..n];
      TrimRightPadded(core, post[..n]);
    } else {
      assert core + post == core;
    }
  }

  /** TrimSpace of spaces + core + spaces is the core, when the core has no
      space at either end: the converse of TrimSpace's own contract. */
  lemma TrimSpacePadded(pre: string, core: string, post: string)
    requires AllSpace(pre) && AllSpace(post) && Tight(core)
    ensures TrimSpace(pre + core + post) == core
  {
    if |core| == 0 {
      assert pre + core + post == pre + post;
      assert AllSpace(pre + post);
      TrimLeftAllSpace(pre + post);
    } else {
      assert pre + core + post == pre + (core + post);
      TrimLeftPadded(pre, core + post);
      TrimRightPadded(core, post);
    }
  }

  /** `strings.HasPrefix`. */
  predicate HasPrefix(s: string, prefix: string)
  {
    |prefix| <= |s| && s[..|prefix|] == prefix
  }
}
