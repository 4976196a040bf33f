/**
 * The bidirectional source-map index: an insertion-ordered collection of
 * mappings between ranges of a source document and ranges of a target
 * document, queried by offset range in either direction.
 */
module SourceMaps {
  import opened Wrappers

  /** An offset range `{start, end}` into one document. */
  datatype Range = Range(start: int, end: int)

  /** How a query range is resolved against a mapping's "from" range. */
  datatype Mode =
    | Offset  // containment; the query's offsets are carried over to the "to" range
    | Gate    // exact match; yields the "to" range
    | In      // containment; yields the whole "to" range

  datatype Mapping<T> = Mapping(data: T, mode: Mode, sourceRange: Range, targetRange: Range)

  /** One answer of a query: the mapping that fired and the translated range. */
  datatype Hit<T> = Hit(maped: Mapping<T>, range: Range)

  function Min(a: int, b: int): int { if a <= b then a else b }
  function Max(a: int, b: int): int { if a <= b then b else a }

  /** The `{ start: Math.min(..), end: Math.max(..) }` normalisation of a result range. */
  function Ordered(a: int, b: int): (r: Range)
    ensures r.start <= r.end
    ensures (r.start == a && r.end == b) || (r.start == b && r.end == a)
  {
    Range(Min(a, b), Max(a, b))
  }

  function FromRange<T>(m: Mapping<T>, sourceToTarget: bool): Range {
    if sourceToTarget then m.sourceRange else m.targetRange
  }

  function ToRange<T>(m: Mapping<T>, sourceToTarget: bool): Range {
    if sourceToTarget then m.targetRange else m.sourceRange
  }

  predicate Contains(outer: Range, inner: Range) {
    inner.start >= outer.start && inner.end <= outer.end
  }

  /** The resolution of one query range against one mapping (the body of maps2's loop). */
  function Translate<T>(m: Mapping<T>, q: Range, sourceToTarget: bool): Option<Range> {
    var from := FromRange(m, sourceToTarget);
    var to := ToRange(m, sourceToTarget);
    match m.mode
    case Gate =>
      if q.start == from.start && q.end == from.end then Some(Ordered(to.start, to.end)) else None
    case Offset =>
      if Contains(from, q)
      then Some(Ordered(to.start + q.start - from.start, to.end + q.end - from.end))
      else None
    case In =>
      if Contains(from, q) then Some(Ordered(to.start, to.end)) else None
  }

  /** Every qualifying mapping of `ms`, in insertion order, with its translated range. */
  function Matches<T>(ms: seq<Mapping<T>>, q: Range, sourceToTarget: bool): seq<Hit<T>>
  {
    if ms == [] then []
    else
      var last := ms[|ms| - 1];
      Matches(ms[..|ms| - 1], q, sourceToTarget) +
        match Translate(last, q, sourceToTarget)
        case Some(r) => [Hit(last, r)]
        case None => []
  }

  /** What the `returnFirstResult` variant of the query returns: the first hit, if any. */
  function FirstOnly<T>(hits: seq<Hit<T>>): seq<Hit<T>> {
    if hits == [] then [] else [hits[0]]
  }

  function FirstMatch<T>(ms: seq<Mapping<T>>, q: Range, sourceToTarget: bool): Option<Hit<T>> {
    var hits := Matches(ms, q, sourceToTarget);
    if hits == [] then None else Some(hits[0])
  }

  function Swap<T>(m: Mapping<T>): Mapping<T> {
    m.(sourceRange := m.targetRange, targetRange := m.sourceRange)
  }

  function SwapAll<T>(ms: seq<Mapping<T>>): (r: seq<Mapping<T>>)
    ensures |r| == |ms|
  {
    if ms == [] then [] else SwapAll(ms[..|ms| - 1]) + [Swap(ms[|ms| - 1])]
  }

  function SwapHits<T>(hs: seq<Hit<T>>): (r: seq<Hit<T>>)
    ensures |r| == |hs|
  {
    if hs == [] then [] else SwapHits(hs[..|hs| - 1]) + [Hit(Swap(hs[|hs| - 1].maped), hs[|hs| - 1].range)]
  }

  // ---------------------------------------------------------------------------
  // The three modes

  /** A Gate mapping fires exactly when the query equals its from-range, and yields the to-range. */
  lemma GateIsExact<T>(m: Mapping<T>, q: Range, sourceToTarget: bool)
    requires m.mode == Gate
    ensures Translate(m, q, sourceToTarget).Some?
            <==> q == FromRange(m, sourceToTarget)
    ensures Translate(m, q, sourceToTarget).Some? ==>
              var to := ToRange(m, sourceToTarget);
              Translate(m, q, sourceToTarget).value == Range(Min(to.start, to.end), Max(to.start, to.end))
  {
  }

  /** An Offset mapping fires iff the query is contained, and carries the query's edge offsets over. */
  lemma OffsetTranslates<T>(m: Mapping<T>, q: Range, sourceToTarget: bool)
    requires m.mode == Offset
    ensures var from := FromRange(m, sourceToTarget);
            Translate(m, q, sourceToTarget).Some? <==> from.start <= q.start && q.end <= from.end
    ensures Translate(m, q, sourceToTarget).Some? ==>
              var from, to := FromRange(m, sourceToTarget), ToRange(m, sourceToTarget);
              var a, b := to.start + (q.start - from.start), to.end + (q.end - from.end);
              Translate(m, q, sourceToTarget).value == Range(Min(a, b), Max(a, b))
  {
  }

  /** An In mapping yields the same whole to-range for every contained query. */
  lemma InIgnoresPosition<T>(m: Mapping<T>, q1: Range, q2: Range, sourceToTarget: bool)
    requires m.mode == In
    requires Contains(FromRange(m, sourceToTarget), q1)
    ensures Translate(m, q1, sourceToTarget).Some?
    ensures Translate(m, q2, sourceToTarget).Some? <==> Contains(FromRange(m, sourceToTarget), q2)
    ensures Contains(FromRange(m, sourceToTarget), q2) ==>
              Translate(m, q1, sourceToTarget) == Translate(m, q2, sourceToTarget)
  {
  }

  /**
   * The Offset rule on a mapping whose two sides have equal width maps a
   * well-ordered contained query to a range of the query's own width.
   */
  lemma OffsetKeepsWidth<T>(m: Mapping<T>, q: Range, sourceToTarget: bool)
    requires m.mode == Offset
    requires m.sourceRange.end - m.sourceRange.start == m.targetRange.end - m.targetRange.start
    requires q.start <= q.end && Contains(FromRange(m, sourceToTarget), q)
    ensures Translate(m, q, sourceToTarget).Some?
    ensures var r := Translate(m, q, sourceToTarget).value; r.end - r.start == q.end - q.start
  {
  }

  // ---------------------------------------------------------------------------
  // Queries over the whole collection

  lemma MatchesPrefix<T>(ms: seq<Mapping<T>>, k: nat, q: Range, sourceToTarget: bool)
    requires k <= |ms|
    ensures Matches(ms[..k], q, sourceToTarget) <= Matches(ms, q, sourceToTarget)
    decreases |ms| - k
  {
    if k < |ms| {
      MatchesPrefix(ms, k + 1, q, sourceToTarget);
      assert ms[..k + 1][..k] == ms[..k];
    } else {
      assert ms[..k] == ms;
    }
  }

  /** One more mapping adds its hit, if it has one, at the end. */
  lemma MatchesStep<T>(ms: seq<Mapping<T>>, i: nat, q: Range, sourceToTarget: bool)
    requires i < |ms|
    ensures Matches(ms[..i + 1], q, sourceToTarget) ==
              Matches(ms[..i], q, sourceToTarget) +
                match Translate(ms[i], q, sourceToTarget)
                case Some(r) => [Hit(ms[i], r)]
                case None => []
  {
    assert ms[..i + 1][..i] == ms[..i];
  }

  /** The first hit of the first `k` mappings is the first hit of all of them. */
  lemma FirstHitStays<T>(ms: seq<Mapping<T>>, k: nat, q: Range, sourceToTarget: bool)
    requires k <= |ms| && |Matches(ms[..k], q, sourceToTarget)| == 1
    ensures FirstOnly(Matches(ms, q, sourceToTarget)) == Matches(ms[..k], q, sourceToTarget)
  {
    MatchesPrefix(ms, k, q, sourceToTarget);
  }

  /** Every hit's range is normalised (start <= end) and its mapping belongs to the collection. */
  lemma {:induction false} HitsAreOrdered<T>(ms: seq<Mapping<T>>, q: Range, sourceToTarget: bool)
    ensures |Matches(ms, q, sourceToTarget)| <= |ms|
    ensures forall h :: h in Matches(ms, q, sourceToTarget) ==>
              h.range.start <= h.range.end && h.maped in ms &&
              Translate(h.maped, q, sourceToTarget) == Some(h.range)
  {
    if ms != [] {
      var init := ms[..|ms| - 1];
      HitsAreOrdered(init, q, sourceToTarget);
      assert forall m :: m in init ==> m in ms;
    }
  }

  /**
   * The first-match variant returns the hit of the earliest inserted
   * qualifying mapping: every mapping before it does not qualify, and
   * nothing is returned only when no mapping qualifies.
   */
  lemma {:induction false} FirstMatchIsEarliest<T>(ms: seq<Mapping<T>>, q: Range, sourceToTarget: bool)
    ensures FirstMatch(ms, q, sourceToTarget).None? <==>
              forall j :: 0 <= j < |ms| ==> Translate(ms[j], q, sourceToTarget).None?
    ensures FirstMatch(ms, q, sourceToTarget).Some? ==>
              exists k :: 0 <= k < |ms| && Translate(ms[k], q, sourceToTarget).Some? &&
                FirstMatch(ms, q, sourceToTarget).value == Hit(ms[k], Translate(ms[k], q, sourceToTarget).value) &&
                forall j :: 0 <= j < k ==> Translate(ms[j], q, sourceToTarget).None?
  {
    if ms != [] {
      var init := ms[..|ms| - 1];
      FirstMatchIsEarliest(init, q, sourceToTarget);
      assert forall j :: 0 <= j < |ms| - 1 ==> ms[j] == init[j];
      if Matches(init, q, sourceToTarget) != [] {
        var k :| 0 <= k < |init| && Translate(init[k], q, sourceToTarget).Some? &&
                FirstMatch(init, q, sourceToTarget).value == Hit(init[k], Translate(init[k], q, sourceToTarget).value) &&
                forall j :: 0 <= j < k ==> Translate(init[j], q, sourceToTarget).None?;
        assert ms[k] == init[k];
      }
    }
  }

  lemma TranslateSwapped<T>(m: Mapping<T>, q: Range, sourceToTarget: bool)
    ensures Translate(Swap(m), q, sourceToTarget) == Translate(m, q, !sourceToTarget)
  {
  }

  /** The direction flag only swaps which side is "from": a query in one direction is the opposite query on the swapped mappings. */
  lemma {:induction false} DirectionIsSwap<T>(ms: seq<Mapping<T>>, q: Range, sourceToTarget: bool)
    ensures Matches(SwapAll(ms), q, sourceToTarget) == SwapHits(Matches(ms, q, !sourceToTarget))
  {
    if ms != [] {
      var init, last := ms[..|ms| - 1], ms[|ms| - 1];
      DirectionIsSwap(init, q, sourceToTarget);
      var sw := SwapAll(ms);
      assert sw[..|sw| - 1] == SwapAll(init) && sw[|sw| - 1] == Swap(last);
      TranslateSwapped(last, q, sourceToTarget);
      var tail := match Translate(last, q, !sourceToTarget) case Some(r) => [Hit(last, r)] case None => [];
      assert Matches(ms, q, !sourceToTarget) == Matches(init, q, !sourceToTarget) + tail;
      SwapHitsAppend(Matches(init, q, !sourceToTarget), tail);
    }
  }

  lemma {:induction false} SwapHitsAppend<T>(a: seq<Hit<T>>, b: seq<Hit<T>>)
    ensures SwapHits(a + b) == SwapHits(a) + SwapHits(b)
    decreases |b|
  {
    if b == [] {
      assert a + b == a;
    } else {
      var b' := b[..|b| - 1];
      SwapHitsAppend(a, b');
      assert (a + b)[..|a + b| - 1] == a + b';
    }
  }

  // ---------------------------------------------------------------------------
  // Capability data carried by the mappings of the script documents

  /** Which editor features may use a mapping; an absent flag is modelled as false. */
  datatype Capabilities = Capabilities(
    basic: bool,
    references: bool,
    definitions: bool,
    diagnostic: bool,
    formatting: bool,
    rename: bool,
    completion: bool,
    semanticTokens: bool,
    foldingRanges: bool,
    referencesCodeLens: bool)

  const NoCapabilities := Capabilities(false, false, false, false, false, false, false, false, false, false)

  datatype VueTag = TemplateTag | ScriptTag | ScriptSetupTag | StyleTag

  datatype MapedNodeType = ElementTag | Prop | Slot

  datatype TsMappingData = TsMappingData(
    vueTag: Option<VueTag>,
    nodeType: Option<MapedNodeType>,
    isNoDollarRef: Option<bool>,
    showLink: Option<bool>,
    capabilities: Capabilities)

  /** Document-level capabilities of a script source map. */
  datatype MapCapabilities = MapCapabilities(foldingRanges: bool, formatting: bool, documentSymbol: bool)

  // ---------------------------------------------------------------------------
  // The index itself

  /** One turn of the query loop: the mode's test of `fromRange` against one mapping and the range it yields. */
  method Resolve<T>(maped: Mapping<T>, fromRange: Range, sourceToTarget: bool) returns (r: Option<Range>)
    ensures r == Translate(maped, fromRange, sourceToTarget)
  {
    var mapedToRange := if sourceToTarget then maped.targetRange else maped.sourceRange;
    var mapedFromRange := if sourceToTarget then maped.sourceRange else maped.targetRange;
    r := None;
    if maped.mode == Gate {
      if fromRange.start == mapedFromRange.start && fromRange.end == mapedFromRange.end {
        r := Some(Ordered(mapedToRange.start, mapedToRange.end));
      }
    } else if maped.mode == Offset {
      if fromRange.start >= mapedFromRange.start && fromRange.end <= mapedFromRange.end {
        var offsets := [mapedToRange.start + fromRange.start - mapedFromRange.start,
                        mapedToRange.end + fromRange.end - mapedFromRange.end];
        r := Some(Ordered(offsets[0], offsets[1]));
      }
    } else if maped.mode == In {
      if fromRange.start >= mapedFromRange.start && fromRange.end <= mapedFromRange.end {
        r := Some(Ordered(mapedToRange.start, mapedToRange.end));
      }
    }
  }

  /** An append-only, insertion-ordered collection of mappings. */
  class SourceMap<T> {
    var mappings: seq<Mapping<T>>

    constructor ()
      ensures mappings == []
    {
      mappings := [];
    }

    method Add(m: Mapping<T>)
      modifies this
      ensures mappings == old(mappings) + [m]
    {
      mappings := mappings + [m];
    }

    /** The offset-range query: all qualifying mappings in insertion order, or only the first. */
    method Maps2(fromRange: Range, sourceToTarget: bool, returnFirstResult: bool) returns (result: seq<Hit<T>>)
      ensures result == if returnFirstResult then FirstOnly(Matches(mappings, fromRange, sourceToTarget))
                        else Matches(mappings, fromRange, sourceToTarget)
    {
      result := [];
      var i := 0;
      while i < |mappings|
        invariant 0 <= i <= |mappings|
        invariant result == Matches(mappings[..i], fromRange, sourceToTarget)
        invariant returnFirstResult ==> result == []
      {
        var maped := mappings[i];
        MatchesStep(mappings, i, fromRange, sourceToTarget);
        var range := Resolve(maped, fromRange, sourceToTarget);
        if range.Some? {
          result := result + [Hit(maped, range.value)];
          if returnFirstResult {
            FirstHitStays(mappings, i + 1, fromRange, sourceToTarget);
            return;
          }
        }
        i := i + 1;
      }
      assert mappings[..i] == mappings;
    }

    method SourceToTarget2(range: Range) returns (r: Option<Hit<T>>)
      ensures r == FirstMatch(mappings, range, true)
    {
      var result := Maps2(range, true, true);
      r := if |result| > 0 then Some(result[0]) else None;
    }

    method TargetToSource2(range: Range) returns (r: Option<Hit<T>>)
      ensures r == FirstMatch(mappings, range, false)
    {
      var result := Maps2(range, false, true);
      r := if |result| > 0 then Some(result[0]) else None;
    }

    method SourceToTargets2(range: Range) returns (r: seq<Hit<T>>)
      ensures r == Matches(mappings, range, true)
    {
      r := Maps2(range, true, false);
    }

    method TargetToSources2(range: Range) returns (r: seq<Hit<T>>)
      ensures r == Matches(mappings, range, false)
    {
      r := Maps2(range, false, false);
    }

    /** True iff some mapping answers the range in the source-to-target direction. */
    method IsSource(range: Range) returns (b: bool)
      ensures b <==> exists j :: 0 <= j < |mappings| && Translate(mappings[j], range, true).Some?
    {
      var result := Maps2(range, true, true);
      b := |result| > 0;
      FirstMatchIsEarliest(mappings, range, true);
    }

    /** True iff some mapping answers the range in the target-to-source direction. */
    method IsTarget(range: Range) returns (b: bool)
      ensures b <==> exists j :: 0 <= j < |mappings| && Translate(mappings[j], range, false).Some?
    {
      var result := Maps2(range, false, true);
      b := |result| > 0;
      FirstMatchIsEarliest(mappings, range, false);
    }
  }

  /** A source map between script documents, with its document-level flags. */
  class TsSourceMap {
    const entries: SourceMap<TsMappingData>
    const isInterpolation: bool
    const capabilities: MapCapabilities

    constructor (isInterpolation: bool, capabilities: MapCapabilities)
      ensures fresh(entries) && entries.mappings == []
      ensures this.isInterpolation == isInterpolation && this.capabilities == capabilities
    {
      entries := new SourceMap();
      this.isInterpolation := isInterpolation;
      this.capabilities := capabilities;
    }
  }
}
