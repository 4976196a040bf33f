/** Strings as sequences of characters, and where a piece of text sits inside a longer one. */
module Text {
  import opened SourceMaps

  lemma ConcatAssoc<T>(a: seq<T>, b: seq<T>, c: seq<T>)
    ensures a + b + c == a + (b + c)
  {
  }

  lemma PrefixTrans<T>(a: seq<T>, b: seq<T>, c: seq<T>)
    requires a <= b && b <= c
    ensures a <= c
  {
  }

  /** What is appended last is the suffix of that length. */
  /** In any extension of `a + b`, `b` sits just before where `a + b` ends. */
  lemma SuffixBefore<T>(a: seq<T>, b: seq<T>, c: seq<T>)
    requires a + b <= c
    ensures |b| <= |a + b| && c[|a + b| - |b|..|a + b|] == b
  {
    assert c[..|a + b|] == a + b;
    assert (a + b)[|a|..] == b;
  }

  lemma SuffixOfAppend<T>(a: seq<T>, b: seq<T>)
    ensures |b| <= |a + b| && (a + b)[|a + b| - |b|..] == b
  {
    assert (a + b)[|a|..] == b;
  }

  /** `' '.repeat(n)` */
  function Spaces(n: nat): (r: string)
    ensures |r| == n && forall i :: 0 <= i < n ==> r[i] == ' '
  {
    seq(n, _ => ' ')
  }

  /** The range `r` of `s` holds exactly the text `t`. */
  ghost predicate Spans(s: string, r: Range, t: string) {
    0 <= r.start && r.end == r.start + |t| && r.end <= |s| && s[r.start..r.end] == t
  }

  lemma SpansAppend(s: string, u: string, r: Range, t: string)
    requires Spans(s, r, t)
    ensures Spans(s + u, r, t)
  {
    assert (s + u)[r.start..r.end] == s[r.start..r.end];
  }

  /** Appending `t` to `s` makes the range just past `s` hold `t`. */
  lemma SpansTail(s: string, t: string)
    ensures Spans(s + t, Range(|s|, |s| + |t|), t)
  {
    assert (s + t)[|s|..|s| + |t|] == t;
  }

  /** Appending `a` then `b` to `s` makes the range just past `s` hold `a + b`. */
  lemma SpansTailPair(s: string, a: string, b: string)
    ensures Spans(s + a + b, Range(|s|, |s| + |a + b|), a + b)
  {
    assert s + a + b == s + (a + b);
    SpansTail(s, a + b);
  }

  /** Appending to `s` keeps what its ranges hold. */
  lemma SpansPrefix(s: string, s': string, r: Range, t: string)
    requires Spans(s, r, t) && s <= s'
    ensures Spans(s', r, t)
  {
    assert s'[r.start..r.end] == s[r.start..r.end];
  }

  /** A text that sits at `off` inside a longer one keeps its ranges, shifted by `off`. */
  lemma SpansShift(inner: string, outer: string, off: int, r: Range, t: string)
    requires 0 <= off && off + |inner| <= |outer| && outer[off..off + |inner|] == inner
    requires Spans(inner, r, t)
    ensures Spans(outer, Range(off + r.start, off + r.end), t)
  {
    assert outer[off + r.start..off + r.end] == outer[off..off + |inner|][r.start..r.end];
  }

  /** The sum of the widths `w` of the items `xs`. */
  function Widths<T>(xs: seq<T>, w: T -> int): int {
    if xs == [] then 0 else Widths(xs[..|xs| - 1], w) + w(xs[|xs| - 1])
  }

  /**
   * The pieces `f` of the items `xs`, laid one after the other from `at`:
   * each item's piece is placed at `at` plus the widths of the items before it.
   */
  function Placed<T, U>(xs: seq<T>, w: T -> int, f: (T, int) -> seq<U>, at: int): seq<U> {
    if xs == [] then [] else Placed(xs[..|xs| - 1], w, f, at) + f(xs[|xs| - 1], at + Widths(xs[..|xs| - 1], w))
  }

  lemma PlacedSnoc<T, U>(xs: seq<T>, x: T, w: T -> int, f: (T, int) -> seq<U>, at: int)
    ensures Widths(xs + [x], w) == Widths(xs, w) + w(x)
    ensures Placed(xs + [x], w, f, at) == Placed(xs, w, f, at) + f(x, at + Widths(xs, w))
  {
    assert (xs + [x])[..|xs|] == xs;
  }

  lemma {:induction false} WidthsAppend<T>(a: seq<T>, b: seq<T>, w: T -> int)
    ensures Widths(a + b, w) == Widths(a, w) + Widths(b, w)
    decreases |b|
  {
    if b == [] {
      assert a + b == a;
    } else {
      assert (a + b)[..|a + b| - 1] == a + b[..|b| - 1];
      WidthsAppend(a, b[..|b| - 1], w);
    }
  }

  /** Laying out two runs of items one after the other is laying out their concatenation. */
  lemma {:induction false} PlacedAppend<T, U>(a: seq<T>, b: seq<T>, w: T -> int, f: (T, int) -> seq<U>, at: int)
    ensures Placed(a + b, w, f, at) == Placed(a, w, f, at) + Placed(b, w, f, at + Widths(a, w))
    decreases |b|
  {
    if b == [] {
      assert a + b == a;
    } else {
      var b', x := b[..|b| - 1], b[|b| - 1];
      assert (a + b)[..|a + b| - 1] == a + b';
      PlacedAppend(a, b', w, f, at);
      WidthsAppend(a, b', w);
      ConcatAssoc(Placed(a, w, f, at), Placed(b', w, f, at + Widths(a, w)), f(x, at + Widths(a, w) + Widths(b', w)));
    }
  }
}
