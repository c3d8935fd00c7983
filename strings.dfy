/** The Python string operations the build script relies on. */
module Strings {

  /** `s.startswith(prefix)` */
  predicate StartsWith(s: string, prefix: string) {
    |prefix| <= |s| && s[..|prefix|] == prefix
  }

  /** `s.endswith(suffix)` */
  predicate EndsWith(s: string, suffix: string) {
    |suffix| <= |s| && s[|s| - |suffix|..] == suffix
  }

  /**
   * `os.path.join(a, b)` on POSIX: an absolute `b` replaces `a`; otherwise a
   * `/` is put between the two unless `a` is empty or already ends in one.
   */
  function Join(a: string, b: string): (path: string)
    ensures StartsWith(b, "/") ==> path == b
    ensures !StartsWith(b, "/") ==> StartsWith(path, a) && EndsWith(path, b)
    ensures !StartsWith(b, "/") ==> (path == a + b <==> a == [] || EndsWith(a, "/"))
    ensures !StartsWith(b, "/") && a != [] && !EndsWith(a, "/") ==> |path| == |a| + 1 + |b| && path[|a|] == '/'
  {
    if StartsWith(b, "/") then b
    else if a == [] || EndsWith(a, "/") then
      assert (a + b)[..|a|] == a && (a + b)[|a + b| - |b|..] == b;
      a + b
    else
      assert (a + "/" + b)[..|a|] == a && (a + "/" + b)[|a + "/" + b| - |b|..] == b;
      assert |a + "/" + b| != |a + b|;
      a + "/" + b
  }

  /** `sub in s`: `sub` occurs at some position of `s`. */
  predicate Contains(s: string, sub: string)
    decreases |s|
  {
    StartsWith(s, sub) || (|s| > 0 && Contains(s[1..], sub))
  }

  /**
   * `s.replace(pat, rep)` for a non-empty `pat`: every occurrence of `pat`,
   * found left to right without overlapping, is replaced by `rep`.
   */
  function ReplaceAll(s: string, pat: string, rep: string): (r: string)
    requires |pat| > 0
    ensures !Contains(s, pat) ==> r == s
    ensures rep == [] ==> |r| <= |s|
    decreases |s|
  {
    if |s| < |pat| then s
    else if StartsWith(s, pat) then rep + ReplaceAll(s[|pat|..], pat, rep)
    else [s[0]] + ReplaceAll(s[1..], pat, rep)
  }

  /** A string contains every string that is spliced into it. */
  lemma {:induction false} ContainsSpliced(a: string, sub: string, b: string)
    ensures Contains(a + sub + b, sub)
    decreases |a|
  {
    if a == [] {
      assert a + sub + b == sub + b;
      assert (sub + b)[..|sub|] == sub;
    } else {
      assert (a + sub + b)[1..] == a[1..] + sub + b;
      ContainsSpliced(a[1..], sub, b);
    }
  }

  /**
   * When no occurrence of `pat` begins inside a non-empty `x`, none begins at
   * the front of `x + pat + y`, and none begins inside `x` without its first
   * character either.
   */
  lemma NoMatchAtFront(x: string, pat: string, y: string)
    requires |pat| > 0 && |x| > 0
    requires !Contains(x + pat[..|pat| - 1], pat)
    ensures !StartsWith(x + pat + y, pat)
    ensures !Contains(x[1..] + pat[..|pat| - 1], pat)
  {
    var w := x + pat[..|pat| - 1];
    assert w[..|pat|] == (x + pat + y)[..|pat|];
    assert w[1..] == x[1..] + pat[..|pat| - 1];
  }

  /**
   * Removing `pat` from `x + pat + y` keeps `x` untouched and goes on to
   * remove every further occurrence in `y`, provided no occurrence of `pat`
   * begins inside `x`.
   */
  lemma {:induction false} RemoveAfter(x: string, pat: string, y: string)
    requires |pat| > 0
    requires !Contains(x + pat[..|pat| - 1], pat)
    ensures ReplaceAll(x + pat + y, pat, "") == x + ReplaceAll(y, pat, "")
    decreases |x|
  {
    if x == [] {
      assert x + pat + y == pat + y;
      RemoveMatch(pat, y);
    } else {
      var s := x + pat + y;
      NoMatchAtFront(x, pat, y);
      RemoveSkip(s, pat);
      assert s[1..] == x[1..] + pat + y;
      RemoveAfter(x[1..], pat, y);
      ConsTail(x, ReplaceAll(y, pat, ""));
    }
  }

  /** An occurrence at the front is removed and the removal goes on after it. */
  lemma RemoveMatch(pat: string, y: string)
    requires |pat| > 0
    ensures ReplaceAll(pat + y, pat, "") == ReplaceAll(y, pat, "")
  {
    assert (pat + y)[..|pat|] == pat;
    assert (pat + y)[|pat|..] == y;
  }

  /** A first character that does not begin an occurrence is kept. */
  lemma RemoveSkip(s: string, pat: string)
    requires |pat| > 0 && |pat| <= |s| && !StartsWith(s, pat)
    ensures ReplaceAll(s, pat, "") == [s[0]] + ReplaceAll(s[1..], pat, "")
  {
  }

  /** Putting the first character back in front of the rest. */
  lemma ConsTail(x: string, r: string)
    requires |x| > 0
    ensures [x[0]] + (x[1..] + r) == x + r
  {
    assert [x[0]] + x[1..] == x;
  }

  /** The trailing case: removing the only occurrence, at the end, leaves what precedes it. */
  lemma RemoveTrailing(x: string, pat: string)
    requires |pat| > 0
    requires !Contains(x + pat[..|pat| - 1], pat)
    ensures ReplaceAll(x + pat, pat, "") == x
  {
    RemoveAfter(x, pat, []);
    assert x + pat + [] == x + pat;
  }
}
