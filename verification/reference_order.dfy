/**
 * Ordering of the use sites collected for one window of the block
 * (`insideLabels.sort((a, b) => a.start - b.start)`), and the chain of
 * gaps and use sites that the generator then walks.
 */
module ReferenceOrder {
  import opened ScriptSetupData

  /** Inserts `x` before the first element whose start is not smaller (keeps equal starts in input order). */
  function Insert(x: InsideRef, s: seq<InsideRef>): (r: seq<InsideRef>)
    ensures |r| == |s| + 1
  {
    if s == [] || x.start <= s[0].start then [x] + s else [s[0]] + Insert(x, s[1..])
  }

  /** A stable sort by start offset. */
  function SortByStart(s: seq<InsideRef>): (r: seq<InsideRef>)
    ensures |r| == |s|
  {
    if s == [] then [] else Insert(s[0], SortByStart(s[1..]))
  }

  predicate SortedByStart(s: seq<InsideRef>) {
    forall i, j :: 0 <= i < j < |s| ==> s[i].start <= s[j].start
  }

  lemma {:induction false} InsertPermutes(x: InsideRef, s: seq<InsideRef>)
    ensures multiset(Insert(x, s)) == multiset(s) + multiset{x}
  {
    if s != [] && x.start > s[0].start {
      InsertPermutes(x, s[1..]);
      assert s == [s[0]] + s[1..];
    }
  }

  lemma {:induction false} InsertSorted(x: InsideRef, s: seq<InsideRef>)
    requires SortedByStart(s)
    ensures SortedByStart(Insert(x, s))
  {
    if s != [] && x.start > s[0].start {
      InsertSorted(x, s[1..]);
      InsertPermutes(x, s[1..]);
      var r := Insert(x, s[1..]);
      forall j | 0 <= j < |r| ensures s[0].start <= r[j].start {
        assert r[j] in multiset(r);
        assert r[j] == x || r[j] in s[1..];
      }
      assert Insert(x, s) == [s[0]] + r;
    }
  }

  /** The sort yields a permutation of its input, ordered by start. */
  lemma {:induction false} SortIsOrderedPermutation(s: seq<InsideRef>)
    ensures multiset(SortByStart(s)) == multiset(s)
    ensures SortedByStart(SortByStart(s))
  {
    if s != [] {
      SortIsOrderedPermutation(s[1..]);
      InsertPermutes(s[0], SortByStart(s[1..]));
      InsertSorted(s[0], SortByStart(s[1..]));
      assert s == [s[0]] + s[1..];
    }
  }

  lemma {:induction false} InsertApart(x: InsideRef, s: seq<InsideRef>)
    requires PairwiseApart(s)
    requires forall i :: 0 <= i < |s| ==> Apart(x, s[i])
    ensures PairwiseApart(Insert(x, s))
  {
    if s != [] && x.start > s[0].start {
      InsertApart(x, s[1..]);
      InsertPermutes(x, s[1..]);
      var r := Insert(x, s[1..]);
      forall j | 0 <= j < |r| ensures Apart(s[0], r[j]) {
        assert r[j] in multiset(r);
        assert r[j] == x || r[j] in s[1..];
      }
    }
  }

  /** Sorting keeps use sites pairwise apart. */
  lemma {:induction false} SortApart(s: seq<InsideRef>)
    requires PairwiseApart(s)
    ensures PairwiseApart(SortByStart(s))
  {
    if s != [] {
      SortApart(s[1..]);
      SortIsOrderedPermutation(s[1..]);
      var t := SortByStart(s[1..]);
      forall i | 0 <= i < |t| ensures Apart(s[0], t[i]) {
        assert t[i] in multiset(s[1..]);
        var k :| 0 <= k < |s[1..]| && s[1..][k] == t[i];
        assert s[k + 1] == t[i];
      }
      InsertApart(s[0], t);
    }
  }

  /**
   * Use sites in order from `pos`: each one starts at or after the end of
   * the previous one, and the last ends by `end`.
   */
  predicate Chain(refs: seq<InsideRef>, pos: int, end: int) {
    && pos <= end
    && (refs != [] ==> pos <= refs[0].start <= refs[0].end && Chain(refs[1..], refs[0].end, end))
  }

  /** Sorted, pairwise-apart, non-empty use sites inside [lo, hi] form a chain from lo to hi. */
  lemma {:induction false} SortedApartIsChain(rs: seq<InsideRef>, lo: int, hi: int)
    requires lo <= hi
    requires SortedByStart(rs) && PairwiseApart(rs)
    requires forall i :: 0 <= i < |rs| ==> lo <= rs[i].start < rs[i].end <= hi
    ensures Chain(rs, lo, hi)
  {
    if rs != [] {
      forall i | 0 <= i < |rs[1..]| ensures rs[0].end <= rs[1..][i].start {
        assert Apart(rs[0], rs[i + 1]);
      }
      SortedApartIsChain(rs[1..], rs[0].end, hi);
    }
  }

  /**
   * The use sites a window collects, once sorted, form a chain across the
   * window: the generator can walk them left to right, copying the gaps.
   */
  lemma WindowIsChain(xs: seq<InsideRef>, start: int, end: int, n: int)
    requires ReferencesWellFormed(xs, n) && start <= end
    ensures Chain(SortByStart(Filter(xs, start, end)), start, end)
  {
    var f := Filter(xs, start, end);
    FilterApart(xs, start, end);
    FilterInside(xs, start, end, n);
    SortIsOrderedPermutation(f);
    SortApart(f);
    var s := SortByStart(f);
    forall i | 0 <= i < |s| ensures start <= s[i].start < s[i].end <= end {
      assert s[i] in multiset(f);
      var k :| 0 <= k < |f| && f[k] == s[i];
    }
    SortedApartIsChain(s, start, end);
  }
}
