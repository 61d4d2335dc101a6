/** POSIX path manipulation as Python's `os.path` does it (`split`, `join`,
    `basename`), plus Python's negative-stop slice `s[0:-n]`. Every output
    name the pipeline derives is built from these. */
module Paths {

  const Sep: char := '/'

  predicate NoSep(s: string) {
    forall i :: 0 <= i < |s| ==> s[i] != Sep
  }

  predicate AllSeps(s: string) {
    forall i :: 0 <= i < |s| ==> s[i] == Sep
  }

  /** Index just after the last separator of `p` (0 when there is none):
      the position where the basename starts. */
  function BaseStart(p: string): (i: nat)
    ensures i <= |p|
    ensures i == 0 || p[i - 1] == Sep
    ensures NoSep(p[i..])
    decreases |p|
  {
    if |p| == 0 then 0
    else if p[|p| - 1] == Sep then |p|
    else
      var i := BaseStart(p[..|p| - 1]);
      assert p[i..] == p[..|p| - 1][i..] + [p[|p| - 1]];
      i
  }

  /** `h.rstrip('/')`. */
  function StripTrailingSeps(h: string): (r: string)
    ensures |r| <= |h| && r == h[..|r|]
    ensures AllSeps(h[|r|..])
    ensures r == [] || r[|r| - 1] != Sep
    decreases |h|
  {
    if |h| > 0 && h[|h| - 1] == Sep then
      var r := StripTrailingSeps(h[..|h| - 1]);
      assert h[|r|..] == h[..|h| - 1][|r|..] + [Sep];
      r
    else h
  }

  /** A directory part as `split` returns it: empty, made only of
      separators, or not ending in one. */
  predicate IsHead(h: string) {
    h == [] || h[|h| - 1] != Sep || StripTrailingSeps(h) == []
  }

  /** `os.path.split(p)`: the tail is everything after the last separator;
      the head is everything up to it, with trailing separators removed
      unless the head consists of separators only (then stripping would
      leave nothing, and the head is kept as it is). */
  function Split(p: string): (r: (string, string))
    ensures NoSep(r.1)
    ensures |r.1| <= |p| && p == p[..|p| - |r.1|] + r.1
    ensures IsHead(r.0)
    ensures |r.0| <= |p| - |r.1| && r.0 == p[..|r.0|]
  {
    var i := BaseStart(p);
    var stripped := StripTrailingSeps(p[..i]);
    (if stripped == [] then p[..i] else stripped, p[i..])
  }

  /** The tail is the whole path, or it starts right after a separator:
      `split` cuts at the last separator. */
  lemma TailAfterSeparator(p: string)
    ensures var tail := Split(p).1;
      |tail| == |p| || p[|p| - |tail| - 1] == Sep
  {
  }

  /** Between the head and the tail lie only separators, and the head ends
      before them unless it is itself the whole run of separators: the head
      is `rstrip('/')` of the text up to the last separator, or that text
      kept whole when stripping would leave nothing. */
  lemma HeadBeforeSeparators(p: string)
    ensures var h := Split(p).0; var t := Split(p).1;
      AllSeps(p[|h|..|p| - |t|]) &&
      (|h| == |p| - |t| || (h != [] && h[|h| - 1] != Sep))
  {
  }

  function Head(p: string): string {
    Split(p).0
  }

  /** `os.path.basename(p)`. */
  function Basename(p: string): string {
    Split(p).1
  }

  /** Two-argument `os.path.join(a, b)`. */
  function Join(a: string, b: string): (r: string)
    ensures |b| > 0 && b[0] == Sep ==> r == b
    ensures |r| >= |b| && r[|r| - |b|..] == b
  {
    if |b| > 0 && b[0] == Sep then b
    else if a == [] || a[|a| - 1] == Sep then a + b
    else a + [Sep] + b
  }

  /** Python `s[0:-n]` for a positive `n`: drops the last `n` characters,
      and yields the empty string when `s` is shorter than that. */
  function DropLast(s: string, n: nat): (r: string)
    requires n > 0
    ensures |r| == if |s| >= n then |s| - n else 0
    ensures r == s[..|r|]
  {
    if |s| >= n then s[..|s| - n] else []
  }

  /** The file name with `prefix` in front of its basename, in the same
      directory: `join(split(p)[0], prefix + split(p)[1])`. */
  function PrefixBasename(p: string, prefix: string): string {
    Join(Head(p), prefix + Basename(p))
  }

  lemma {:induction false} BaseStartAppend(x: string, y: string)
    requires NoSep(y)
    ensures BaseStart(x + y) == BaseStart(x)
    decreases |y|
  {
    if |y| > 0 {
      assert (x + y)[..|x + y| - 1] == x + y[..|y| - 1];
      BaseStartAppend(x, y[..|y| - 1]);
    } else {
      assert x + y == x;
    }
  }

  /** Appending separator-free text only lengthens the basename. */
  lemma SplitAppendBase(x: string, y: string)
    requires NoSep(y)
    ensures Split(x + y) == (Split(x).0, Split(x).1 + y)
  {
    BaseStartAppend(x, y);
    var i := BaseStart(x);
    assert (x + y)[..i] == x[..i];
    assert (x + y)[i..] == x[i..] + y;
  }

  /** The basename starts right after the last separator. */
  lemma BasenameAt(p: string)
    ensures Basename(p) == p[BaseStart(p)..]
    ensures Head(p) == Split(p[..BaseStart(p)]).0
    ensures Split(p[..BaseStart(p)]).1 == []
  {
    var i := BaseStart(p);
    SplitAppendBase(p[..i], p[i..]);
    SliceJoin(p, i);
  }

  lemma SliceJoin(p: string, i: nat)
    requires i <= |p|
    ensures p[..i] + p[i..] == p
  {
  }

  /** `split` undoes `join` on the pieces `split` produces: joining a
      directory part and a separator-free name, then splitting, gives both back. */
  lemma SplitJoin(h: string, t: string)
    requires IsHead(h) && NoSep(t)
    ensures Split(Join(h, t)) == (h, t)
  {
    var j := Join(h, t);
    if h == [] {
      assert j == t;
      BaseStartAppend([], t);
      assert [] + t == t;
    } else if h[|h| - 1] == Sep {
      assert j == h + t;
      BaseStartAppend(h, t);
      assert j[..|h|] == h;
    } else {
      var hs := h + [Sep];
      assert j == hs + t;
      BaseStartAppend(hs, t);
      assert BaseStart(hs) == |hs|;
      assert j[..|hs|] == hs;
      assert !AllSeps(hs) by { assert hs[|h| - 1] != Sep; }
      assert hs[..|hs| - 1] == h;
    }
  }

  /** Prefixing the basename keeps the directory part and yields the
      prefixed basename, as seen by a later `split`. */
  lemma PrefixBasenameSplit(p: string, prefix: string)
    requires NoSep(prefix)
    ensures Split(PrefixBasename(p, prefix)) == (Head(p), prefix + Basename(p))
  {
    SplitJoin(Head(p), prefix + Basename(p));
  }

  /** The directory part of a path with a single separator before its
      basename is the text before that separator (or that lone root
      separator, or nothing). */
  lemma HeadBeforeBase(p: string)
    requires var i := BaseStart(p); i < 2 || p[i - 2] != Sep
    ensures var i := BaseStart(p);
      Head(p) == if i >= 2 then p[..i - 1] else p[..i]
  {
    var i := BaseStart(p);
    var head := p[..i];
    if i >= 2 {
      assert !AllSeps(head) by { assert head[i - 2] != Sep; }
      assert head[..i - 1] == p[..i - 1];
    } else if i == 1 {
      assert AllSeps(head);
    }
  }

  /** When no doubled separator precedes the basename, prefixing is a pure
      insertion at the basename position: the directory text is unchanged. */
  lemma PrefixBasenameInserts(p: string, prefix: string)
    requires NoSep(prefix)
    requires var i := BaseStart(p); i < 2 || p[i - 2] != Sep
    ensures var i := BaseStart(p); PrefixBasename(p, prefix) == p[..i] + prefix + p[i..]
  {
    var i := BaseStart(p);
    var b := prefix + p[i..];
    BasenameAt(p);
    assert b == [] || b[0] != Sep by {
      if |b| > 0 && |prefix| == 0 { assert b[0] == p[i..][0]; }
    }
    JoinAtBase(p, b);
    AppendAssociative(p[..i], prefix, p[i..]);
  }

  lemma AppendAssociative(a: string, b: string, c: string)
    ensures a + (b + c) == a + b + c
  {
  }

  /** Joining the directory part of `p` with text that does not start with
      a separator puts that text where the basename of `p` starts. */
  lemma JoinAtBase(p: string, b: string)
    requires var i := BaseStart(p); i < 2 || p[i - 2] != Sep
    requires b == [] || b[0] != Sep
    ensures Join(Head(p), b) == p[..BaseStart(p)] + b
  {
    var i := BaseStart(p);
    HeadBeforeBase(p);
    if i >= 2 {
      var a := p[..i - 1];
      assert a[|a| - 1] == p[i - 2];
      SepAppended(p, i);
      JoinNotAfterSep(a, b, p[..i]);
    } else if i == 0 {
      assert p[..i] + b == b;
    }
  }

  lemma JoinNotAfterSep(a: string, b: string, dir: string)
    requires a != [] && a[|a| - 1] != Sep && (b == [] || b[0] != Sep)
    requires dir == a + [Sep]
    ensures Join(a, b) == dir + b
  {
  }

  lemma SepAppended(p: string, i: nat)
    requires 1 <= i <= |p| && p[i - 1] == Sep
    ensures p[..i - 1] + [Sep] == p[..i]
  {
  }

}
