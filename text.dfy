/** Text of a batch job: Python's `str.split(sep)`, the line layout the
    renderers produce (`line + "\n"` per line), and the open job file. */
module Text {

  predicate Free(s: string, c: char) {
    forall i :: 0 <= i < |s| ==> s[i] != c
  }

  predicate AllFree(ls: seq<string>, c: char) {
    forall k :: 0 <= k < |ls| ==> Free(ls[k], c)
  }

  /** Position of the first `c` in `s`. */
  function IndexOf(s: string, c: char): (k: nat)
    requires !Free(s, c)
    ensures k < |s| && s[k] == c && Free(s[..k], c)
    decreases |s|
  {
    if s[0] == c then 0
    else
      assert !Free(s[1..], c) by {
        var j :| 0 <= j < |s| && s[j] == c;
        assert s[1..][j - 1] == c;
      }
      1 + IndexOf(s[1..], c)
  }

  /** Python `s.split(c)`: the pieces between occurrences of `c`; there is
      always one more piece than there are separators. */
  function SplitOn(s: string, c: char): (r: seq<string>)
    ensures |r| > 0 && AllFree(r, c)
    decreases |s|
  {
    if Free(s, c) then [s]
    else
      var k := IndexOf(s, c);
      [s[..k]] + SplitOn(s[k + 1..], c)
  }

  /** `c.join(parts)`. */
  function JoinOn(parts: seq<string>, c: char): string
    requires |parts| > 0
  {
    if |parts| == 1 then parts[0] else parts[0] + [c] + JoinOn(parts[1..], c)
  }

  function SplitLines(s: string): seq<string> {
    SplitOn(s, '\n')
  }

  /** Each line followed by a newline, the way the renderers write them. */
  function Unlines(ls: seq<string>): string {
    if ls == [] then [] else ls[0] + "\n" + Unlines(ls[1..])
  }

  /** Text before the first separator is the first piece; the rest is split on. */
  lemma SplitOnCons(x: string, c: char, y: string)
    requires Free(x, c)
    ensures SplitOn(x + [c] + y, c) == [x] + SplitOn(y, c)
  {
    var s := x + [c] + y;
    assert s[|x|] == c;
    var k := IndexOf(s, c);
    assert k == |x|;
    assert s[..k] == x;
    assert s[k + 1..] == y;
  }

  /** `split` inverts `join` when no part contains the separator. */
  lemma {:induction false} SplitJoinOn(parts: seq<string>, c: char)
    requires |parts| > 0 && AllFree(parts, c)
    ensures SplitOn(JoinOn(parts, c), c) == parts
    decreases |parts|
  {
    if |parts| == 1 {
      assert Free(parts[0], c);
    } else {
      assert Free(parts[0], c);
      SplitJoinOn(parts[1..], c);
      SplitOnCons(parts[0], c, JoinOn(parts[1..], c));
    }
  }

  /** `join` inverts `split`: splitting loses nothing. */
  lemma {:induction false} JoinSplitOn(s: string, c: char)
    ensures JoinOn(SplitOn(s, c), c) == s
    decreases |s|
  {
    if !Free(s, c) {
      var k := IndexOf(s, c);
      JoinSplitOn(s[k + 1..], c);
      assert s == s[..k] + [c] + s[k + 1..];
    }
  }

  lemma {:induction false} UnlinesAppend(a: seq<string>, b: seq<string>)
    ensures Unlines(a + b) == Unlines(a) + Unlines(b)
    decreases |a|
  {
    if a == [] {
      assert a + b == b;
    } else {
      assert (a + b)[1..] == a[1..] + b;
      UnlinesAppend(a[1..], b);
    }
  }

  lemma UnlinesThree(a: string, b: string, c: string)
    ensures Unlines([a, b, c]) == a + "\n" + b + "\n" + c + "\n"
  {
    assert [a, b, c][1..] == [b, c];
    assert [b, c][1..] == [c];
    assert Unlines([c]) == c + "\n" + Unlines([]);
  }

  lemma SplitLinesCons(l: string, tail: string)
    requires Free(l, '\n')
    ensures SplitLines(l + "\n" + tail) == [l] + SplitLines(tail)
  {
    SplitOnCons(l, '\n', tail);
  }

  /** Text written as whole lines reads back, line by line, as exactly
      those lines followed by the lines of whatever comes after. */
  lemma {:induction false} SplitLinesUnlines(ls: seq<string>, rest: string)
    requires AllFree(ls, '\n')
    ensures SplitLines(Unlines(ls) + rest) == ls + SplitLines(rest)
    decreases |ls|
  {
    if ls == [] {
      assert Unlines(ls) + rest == rest;
    } else {
      var tail := Unlines(ls[1..]) + rest;
      assert AllFree(ls[1..], '\n') by {
        forall k | 0 <= k < |ls| - 1 ensures Free(ls[1..][k], '\n') {
          assert ls[1..][k] == ls[k + 1];
        }
      }
      calc {
        SplitLines(Unlines(ls) + rest);
        { assert Unlines(ls) + rest == ls[0] + "\n" + tail; }
        SplitLines(ls[0] + "\n" + tail);
        { assert Free(ls[0], '\n'); SplitLinesCons(ls[0], tail); }
        [ls[0]] + SplitLines(tail);
        { SplitLinesUnlines(ls[1..], rest); }
        [ls[0]] + (ls[1..] + SplitLines(rest));
        { assert ls == [ls[0]] + ls[1..]; }
        ls + SplitLines(rest);
      }
    }
  }

  /** A newline between two texts separates their lines: the last line of
      the first is not joined to the first line of the second. */
  lemma {:induction false} SplitLinesAround(p: string, t: string)
    ensures SplitLines(p + "\n" + t) == SplitLines(p) + SplitLines(t)
    decreases |p|, 1
  {
    if Free(p, '\n') {
      SplitLinesCons(p, t);
    } else {
      SplitLinesAroundAfterFirst(p, t);
    }
  }

  /** The step of `SplitLinesAround` for text holding a newline: its first
      line comes first, then the lines after it, split around `t`. */
  lemma {:induction false} SplitLinesAroundAfterFirst(p: string, t: string)
    requires !Free(p, '\n')
    ensures SplitLines(p + "\n" + t) == SplitLines(p) + SplitLines(t)
    decreases |p|, 0
  {
    var k := IndexOf(p, '\n');
    var head := p[..k];
    var after := p[k + 1..];
    SplitLinesFirst(p);
    calc {
      SplitLines(p + "\n" + t);
      { NewlineRegrouped(head, after, t); }
      SplitLines(head + "\n" + (after + "\n" + t));
      { SplitLinesCons(head, after + "\n" + t); }
      [head] + SplitLines(after + "\n" + t);
      { SplitLinesAround(after, t); }
      [head] + (SplitLines(after) + SplitLines(t));
      [head] + SplitLines(after) + SplitLines(t);
    }
  }

  /** Text holding a newline: its first line, then the lines after it. */
  lemma SplitLinesFirst(p: string)
    requires !Free(p, '\n')
    ensures var k := IndexOf(p, '\n');
      p == p[..k] + "\n" + p[k + 1..] && Free(p[..k], '\n') &&
      SplitLines(p) == [p[..k]] + SplitLines(p[k + 1..])
  {
  }

  lemma NewlineRegrouped(x: string, y: string, t: string)
    ensures x + "\n" + y + "\n" + t == x + "\n" + (y + "\n" + t)
  {
  }

  /** Whole lines written before any further text are read back first. */
  lemma LeadingLines(ls: seq<string>, rest: string)
    requires AllFree(ls, '\n')
    ensures var all := SplitLines(Unlines(ls) + rest);
      |all| > |ls| && all[..|ls|] == ls
  {
    SplitLinesUnlines(ls, rest);
    assert (ls + SplitLines(rest))[..|ls|] == ls;
  }

  /** A text that begins with whole lines reads back as those lines first,
      whatever follows them. */
  lemma PrefixLines(doc: string, ls: seq<string>)
    requires AllFree(ls, '\n') && IsPrefix(Unlines(ls), doc)
    ensures |SplitLines(doc)| > |ls| && SplitLines(doc)[..|ls|] == ls
  {
    var u := Unlines(ls);
    var tail := doc[|u|..];
    PrefixSplit(u, doc);
    LeadingLines(ls, tail);
  }

  lemma PrefixSplit(u: string, doc: string)
    requires IsPrefix(u, doc)
    ensures doc == u + doc[|u|..]
  {
    assert doc[..|u|] == u;
  }

  /** `a` is a prefix of `b`: `b` is `a` followed by more text. */
  predicate IsPrefix(a: string, b: string) {
    a <= b
  }

  /** The text of the pieces written one after the other. */
  function Concat(pieces: seq<string>): string {
    if pieces == [] then "" else pieces[0] + Concat(pieces[1..])
  }

  /** Writing two runs of pieces one after the other gives the text of the
      first run followed by the text of the second. */
  lemma {:induction false} ConcatAppend(a: seq<string>, b: seq<string>)
    ensures Concat(a + b) == Concat(a) + Concat(b)
    decreases |a|
  {
    if a == [] {
      assert a + b == b;
    } else {
      assert (a + b)[1..] == a[1..] + b;
      ConcatAppend(a[1..], b);
    }
  }

  lemma ConcatSingle(s: string)
    ensures Concat([s]) == s
  {
    assert [s][1..] == [];
  }

  /** Whatever is written after a run of pieces only extends its text. */
  lemma ConcatPrefix(a: seq<string>, b: seq<string>)
    ensures IsPrefix(Concat(a), Concat(a + b))
  {
    ConcatAppend(a, b);
  }

  /** Each line written with its newline, one write per line. */
  function LineWrites(ls: seq<string>): (ws: seq<string>)
    ensures |ws| == |ls|
  {
    seq(|ls|, i requires 0 <= i < |ls| => ls[i] + "\n")
  }

  /** Lines written one at a time, each with its newline, are the lines
      joined by newlines with a final newline. */
  lemma {:induction false} ConcatLineWrites(ls: seq<string>)
    ensures Concat(LineWrites(ls)) == Unlines(ls)
    decreases |ls|
  {
    if ls != [] {
      assert LineWrites(ls)[1..] == LineWrites(ls[1..]);
      ConcatLineWrites(ls[1..]);
    }
  }

  /** An open job file (`open(name, "w")`): the pieces passed to `write`
      so far, in order; its content is their concatenation. */
  class JobFile {
    const path: string
    var writes: seq<string>

    /** What the file holds once closed. */
    function Text(): string
      reads this
    {
      Concat(writes)
    }

    constructor (path: string)
      ensures this.path == path && writes == []
    {
      this.path := path;
      writes := [];
    }

    method Write(s: string)
      modifies this
      ensures writes == old(writes) + [s]
    {
      writes := writes + [s];
    }
  }

  /** A `write` appends its argument to the file's content. */
  lemma WriteAppends(writes: seq<string>, s: string)
    ensures Concat(writes + [s]) == Concat(writes) + s
  {
    ConcatAppend(writes, [s]);
    ConcatSingle(s);
  }
}
