/**
 * The maps derived beside the main one: the suggestion document's map
 * (`sourceMapForSuggestion`), the TypeScript shadow of a JavaScript script
 * document's map (`shadowTsSourceMap`), and the map linking the two ends of
 * every mirror inside the script document (`mirrorsSourceMap`).
 */
module DerivedSourceMaps {
  import opened Wrappers
  import opened SourceMaps
  import opened ScriptSetupData
  import opened Text
  import opened Suggestion
  import opened ScriptSetupGen
  import opened ScriptDocuments
  import opened ScriptSourceMap

  // ---------------------------------------------------------------------------
  // sourceMapForSuggestion

  /** The suggestion map: no document-level features. */
  const SuggestionMapCapabilities := MapCapabilities(false, false, false)

  function SuggestionEntries(script: Option<ScriptBlock>, setup: Option<SetupBlock>, doc: SuggestionDoc): seq<Mapping<TsMappingData>> {
    (if script.Some? && doc.scriptRange.Some? then [Mapping(TagData(ScriptTag, DiagnosticOnly), Offset, script.value.loc, doc.scriptRange.value)] else []) +
    (if setup.Some? && doc.scriptSetupRange.Some? then [Mapping(TagData(ScriptSetupTag, DiagnosticOnly), Offset, setup.value.loc, doc.scriptSetupRange.value)] else [])
  }

  /** `sourceMapForSuggestion`: nothing without a suggestion document; otherwise a whole-block entry per block. */
  method BuildSuggestionSourceMap(script: Option<ScriptBlock>, setup: Option<SetupBlock>, doc: Option<SuggestionDoc>)
    returns (r: Option<TsSourceMap>)
    ensures r.None? <==> doc.None?
    ensures r.Some? ==> fresh(r.value) && fresh(r.value.entries)
    ensures r.Some? ==> !r.value.isInterpolation && r.value.capabilities == SuggestionMapCapabilities
    ensures r.Some? ==> r.value.entries.mappings == SuggestionEntries(script, setup, doc.value)
  {
    if doc.None? {
      return None;
    }
    var sm := new TsSourceMap(false, SuggestionMapCapabilities);
    if script.Some? && doc.value.scriptRange.Some? {
      sm.entries.Add(Mapping(TagData(ScriptTag, DiagnosticOnly), Offset, script.value.loc, doc.value.scriptRange.value));
    }
    if setup.Some? && doc.value.scriptSetupRange.Some? {
      sm.entries.Add(Mapping(TagData(ScriptSetupTag, DiagnosticOnly), Offset, setup.value.loc, doc.value.scriptSetupRange.value));
    }
    r := Some(sm);
  }

  /** File offset `i` of the entry's source range reads the same in the document, or was rewritten to a space or a letter of `let`. */
  predicate RewrittenAt(vueText: string, code: string, e: Mapping<TsMappingData>, i: int) {
    Fits(vueText, code, e) && e.sourceRange.start <= i < e.sourceRange.end ==>
      var c := code[e.targetRange.start + (i - e.sourceRange.start)];
      c == vueText[i] || c in " let"
  }

  /** A suggestion entry: diagnostics only, Offset, equal widths, and at most rewritten characters in between. */
  ghost predicate SuggestionEntryExact(vueText: string, code: string, e: Mapping<TsMappingData>) {
    && e.data.capabilities == DiagnosticOnly
    && e.mode == Offset
    && Fits(vueText, code, e)
    && (e.data.vueTag == Some(ScriptTag) ==> forall i {:trigger AgreesAt(vueText, code, e, i)} :: AgreesAt(vueText, code, e, i))
    && forall i {:trigger RewrittenAt(vueText, code, e, i)} :: RewrittenAt(vueText, code, e, i)
  }

  lemma SuggestionScriptEntryExact(vueText: string, code: string, loc: Range, content: string, target: Range)
    requires Spans(vueText, loc, content) && Spans(code, target, content)
    ensures SuggestionEntryExact(vueText, code, Mapping(TagData(ScriptTag, DiagnosticOnly), Offset, loc, target))
  {
    var e := Mapping(TagData(ScriptTag, DiagnosticOnly), Offset, loc, target);
    forall i | loc.start <= i < loc.end ensures code[target.start + (i - loc.start)] == vueText[i] {
      assert vueText[i] == vueText[loc.start..loc.end][i - loc.start];
      assert code[target.start + (i - loc.start)] == code[target.start..target.end][i - loc.start];
    }
    assert forall i :: AgreesAt(vueText, code, e, i);
    assert forall i :: RewrittenAt(vueText, code, e, i);
  }

  /** An Offset entry whose document text only rewrites its block text keeps every position or rewrites it. */
  lemma RewrittenEntry(vueText: string, code: string, e: Mapping<TsMappingData>, orig: string, t: string)
    requires Spans(vueText, e.sourceRange, orig) && Spans(code, e.targetRange, t) && OnlyRewritten(orig, t)
    ensures forall i :: RewrittenAt(vueText, code, e, i)
  {
    forall i | e.sourceRange.start <= i < e.sourceRange.end ensures RewrittenAt(vueText, code, e, i) {
      var j := i - e.sourceRange.start;
      assert vueText[i] == vueText[e.sourceRange.start..e.sourceRange.end][j];
      assert code[e.targetRange.start + j] == code[e.targetRange.start..e.targetRange.end][j];
      assert t[j] == orig[j] || t[j] in " let";
    }
  }

  lemma SuggestionSetupEntryExact(vueText: string, code: string, setup: SetupBlock, target: Range)
    requires Spans(vueText, setup.loc, setup.content)
    requires SetupParensOrdered(Some(setup)) && FitsSuggestion(setup.content, setup.data)
    requires Spans(code, target, NoDollarCode(setup.content, setup.data))
    ensures SuggestionEntryExact(vueText, code, Mapping(TagData(ScriptSetupTag, DiagnosticOnly), Offset, setup.loc, target))
  {
    NoDollarCodeShape(setup.content, setup.data);
    RewrittenEntry(vueText, code, Mapping(TagData(ScriptSetupTag, DiagnosticOnly), Offset, setup.loc, target),
                   setup.content, NoDollarCode(setup.content, setup.data));
  }

  /**
   * Both entries of the suggestion map carry diagnostics only and have the
   * same width on both sides, so every diagnostic position translates one to
   * one: the plain script reads identically, and the setup block differs only
   * where a `$`, the `ref` word, a colon or a parenthesis was rewritten.
   */
  lemma SuggestionEntriesExact(vueText: string, script: Option<ScriptBlock>, setup: Option<SetupBlock>, doc: SuggestionDoc)
    requires script.Some? ==> Spans(vueText, script.value.loc, script.value.content)
    requires setup.Some? ==> Spans(vueText, setup.value.loc, setup.value.content) && FitsSuggestion(setup.value.content, setup.value.data)
    requires SetupParensOrdered(setup)
    requires script.Some? && doc.scriptRange.Some? ==> Spans(doc.code, doc.scriptRange.value, script.value.content)
    requires setup.Some? && doc.scriptSetupRange.Some? ==>
               Spans(doc.code, doc.scriptSetupRange.value, NoDollarCode(setup.value.content, setup.value.data))
    ensures var es := SuggestionEntries(script, setup, doc);
            forall k :: 0 <= k < |es| ==> SuggestionEntryExact(vueText, doc.code, es[k])
  {
    if script.Some? && doc.scriptRange.Some? {
      SuggestionScriptEntryExact(vueText, doc.code, script.value.loc, script.value.content, doc.scriptRange.value);
    }
    if setup.Some? && doc.scriptSetupRange.Some? {
      SuggestionSetupEntryExact(vueText, doc.code, setup.value, doc.scriptSetupRange.value);
    }
  }

  // ---------------------------------------------------------------------------
  // shadowTsSourceMap

  /** The shadow map: no document-level features. */
  const ShadowMapCapabilities := MapCapabilities(false, false, false)

  /** Only navigation survives in the shadow document. */
  function ShadowCapabilities(c: Capabilities): (r: Capabilities)
    ensures !r.basic && !r.diagnostic && !r.formatting && !r.completion && !r.semanticTokens && !r.foldingRanges
    ensures r.references == c.references && r.definitions == c.definitions && r.rename == c.rename
    ensures r.referencesCodeLens == c.referencesCodeLens
  {
    c.(basic := false, diagnostic := false, formatting := false, completion := false, semanticTokens := false, foldingRanges := false)
  }

  function Shadowed(m: Mapping<TsMappingData>): Mapping<TsMappingData> {
    m.(data := m.data.(capabilities := ShadowCapabilities(m.data.capabilities)))
  }

  function ShadowEntries(ms: seq<Mapping<TsMappingData>>): (r: seq<Mapping<TsMappingData>>)
    ensures |r| == |ms|
  {
    if ms == [] then [] else ShadowEntries(ms[..|ms| - 1]) + [Shadowed(ms[|ms| - 1])]
  }

  function ShadowHits(hs: seq<Hit<TsMappingData>>): (r: seq<Hit<TsMappingData>>)
    ensures |r| == |hs|
  {
    if hs == [] then [] else ShadowHits(hs[..|hs| - 1]) + [Hit(Shadowed(hs[|hs| - 1].maped), hs[|hs| - 1].range)]
  }

  /**
   * `shadowTsSourceMap`: only for a JavaScript script document with a main
   * map; a fresh map with the main map's entries in order, each with only its
   * navigation features left.
   */
  method BuildShadowSourceMap(isJavaScript: bool, main: Option<TsSourceMap>) returns (r: Option<TsSourceMap>)
    ensures r.None? <==> !isJavaScript || main.None?
    ensures r.Some? ==> fresh(r.value) && fresh(r.value.entries)
    ensures r.Some? ==> r.value.isInterpolation == main.value.isInterpolation && r.value.capabilities == ShadowMapCapabilities
    ensures r.Some? ==> r.value.entries.mappings == ShadowEntries(main.value.entries.mappings)
  {
    if !isJavaScript || main.None? {
      return None;
    }
    var source := main.value.entries;
    var sm := new TsSourceMap(main.value.isInterpolation, ShadowMapCapabilities);
    var i := 0;
    while i < |source.mappings|
      invariant 0 <= i <= |source.mappings|
      invariant sm.entries.mappings == ShadowEntries(source.mappings[..i])
    {
      assert source.mappings[..i + 1][..i] == source.mappings[..i];
      sm.entries.Add(Shadowed(source.mappings[i]));
      i := i + 1;
    }
    assert source.mappings[..i] == source.mappings;
    r := Some(sm);
  }

  /**
   * Entry `k` of the shadow map is entry `k` of the main map with the same
   * mode, ranges and tags; only its capabilities are cut down to navigation.
   */
  lemma {:induction false} ShadowEntriesKeep(ms: seq<Mapping<TsMappingData>>, k: int)
    requires 0 <= k < |ms|
    ensures ShadowEntries(ms)[k].mode == ms[k].mode
    ensures ShadowEntries(ms)[k].sourceRange == ms[k].sourceRange && ShadowEntries(ms)[k].targetRange == ms[k].targetRange
    ensures ShadowEntries(ms)[k].data == ms[k].data.(capabilities := ShadowCapabilities(ms[k].data.capabilities))
  {
    var init := ms[..|ms| - 1];
    if k < |ms| - 1 {
      ShadowEntriesKeep(init, k);
      assert ShadowEntries(ms)[k] == ShadowEntries(init)[k];
      assert init[k] == ms[k];
    }
  }

  /**
   * A query against the shadow map finds the same mappings, in the same
   * order and with the same ranges, as against the main map: only the
   * capability flags differ.
   */
  lemma {:induction false} ShadowTranslatesAlike(ms: seq<Mapping<TsMappingData>>, q: Range, sourceToTarget: bool)
    ensures Matches(ShadowEntries(ms), q, sourceToTarget) == ShadowHits(Matches(ms, q, sourceToTarget))
  {
    if ms != [] {
      var init, last := ms[..|ms| - 1], ms[|ms| - 1];
      ShadowTranslatesAlike(init, q, sourceToTarget);
      assert ms == init + [last];
      MatchesSnoc(init, last, q, sourceToTarget);
      MatchesSnoc(ShadowEntries(init), Shadowed(last), q, sourceToTarget);
      ShadowHitOf(last, q, sourceToTarget);
      ShadowHitsAppend(Matches(init, q, sourceToTarget), HitOf(last, q, sourceToTarget));
    }
  }

  /** The hit one mapping contributes to a query, if any. */
  function HitOf<T>(m: Mapping<T>, q: Range, sourceToTarget: bool): seq<Hit<T>> {
    match Translate(m, q, sourceToTarget)
    case Some(r) => [Hit(m, r)]
    case None => []
  }

  lemma MatchesSnoc<T>(ms: seq<Mapping<T>>, m: Mapping<T>, q: Range, sourceToTarget: bool)
    ensures Matches(ms + [m], q, sourceToTarget) == Matches(ms, q, sourceToTarget) + HitOf(m, q, sourceToTarget)
  {
    assert (ms + [m])[..|ms|] == ms;
  }

  /** A shadowed mapping fires exactly when the mapping does, with the same range. */
  lemma ShadowHitOf(m: Mapping<TsMappingData>, q: Range, sourceToTarget: bool)
    ensures HitOf(Shadowed(m), q, sourceToTarget) == ShadowHits(HitOf(m, q, sourceToTarget))
  {
    assert Translate(Shadowed(m), q, sourceToTarget) == Translate(m, q, sourceToTarget);
  }

  lemma {:induction false} ShadowHitsAppend(a: seq<Hit<TsMappingData>>, b: seq<Hit<TsMappingData>>)
    ensures ShadowHits(a + b) == ShadowHits(a) + ShadowHits(b)
    decreases |b|
  {
    if b == [] {
      assert a + b == a;
    } else {
      ShadowHitsAppend(a, b[..|b| - 1]);
      assert (a + b)[..|a + b| - 1] == a + b[..|b| - 1];
    }
  }

  // ---------------------------------------------------------------------------
  // mirrorsSourceMap

  /** A mirror moved from generated-code offsets to document offsets. */
  function MirrorEntry(offset: int, m: Mirror): Mapping<()> {
    Mapping((), Offset, Range(offset + m.left.start, offset + m.left.end), Range(offset + m.right.start, offset + m.right.end))
  }

  function MirrorEntries(offset: int, ms: seq<Mirror>): (r: seq<Mapping<()>>)
    ensures |r| == |ms|
    ensures forall k :: 0 <= k < |ms| ==> r[k] == MirrorEntry(offset, ms[k])
  {
    if ms == [] then [] else MirrorEntries(offset, ms[..|ms| - 1]) + [MirrorEntry(offset, ms[|ms| - 1])]
  }

  method AddMirrors(sm: SourceMap<()>, offset: int, ms: seq<Mirror>)
    modifies sm
    ensures sm.mappings == old(sm.mappings) + MirrorEntries(offset, ms)
  {
    var i := 0;
    while i < |ms|
      invariant 0 <= i <= |ms|
      invariant sm.mappings == old(sm.mappings) + MirrorEntries(offset, ms[..i])
    {
      assert ms[..i + 1][..i] == ms[..i];
      ConcatAssoc(old(sm.mappings), MirrorEntries(offset, ms[..i]), [MirrorEntry(offset, ms[i])]);
      sm.Add(MirrorEntry(offset, ms[i]));
      i := i + 1;
    }
    assert ms[..i] == ms;
  }

  /** The offset the mirrors are shifted by as written: the plain script's length. */
  function StartOffsetAsWritten(script: Option<ScriptBlock>): int {
    if script.Some? then |script.value.content| else 0
  }

  /** `mirrorsSourceMap` as written: shifted by the plain script's length. */
  method MirrorsSourceMapAsWritten(script: Option<ScriptBlock>, gen: Option<GenResult>, hasDocument: bool)
    returns (r: Option<SourceMap<()>>)
    ensures r.None? <==> gen.None? || !hasDocument
    ensures r.Some? ==> fresh(r.value) && r.value.mappings == MirrorEntries(StartOffsetAsWritten(script), gen.value.mirrors)
  {
    if gen.None? || !hasDocument {
      return None;
    }
    var startOffset := if script.Some? then |script.value.content| else 0;
    var sm := new SourceMap<()>();
    AddMirrors(sm, startOffset, gen.value.mirrors);
    r := Some(sm);
  }

  /** `mirrorsSourceMap`, shifted by where the generated setup code actually starts in the document. */
  method MirrorsSourceMap(gen: Option<GenResult>, doc: Option<DocGenResult>) returns (r: Option<SourceMap<()>>)
    ensures r.None? <==> gen.None? || doc.None? || doc.value.scriptSetupRange.None?
    ensures r.Some? ==> fresh(r.value) && r.value.mappings == MirrorEntries(doc.value.scriptSetupRange.value.start, gen.value.mirrors)
  {
    if gen.None? || doc.None? || doc.value.scriptSetupRange.None? {
      return None;
    }
    var sm := new SourceMap<()>();
    AddMirrors(sm, doc.value.scriptSetupRange.value.start, gen.value.mirrors);
    r := Some(sm);
  }

  ghost predicate MirrorEntryHolds(code: string, e: Mapping<()>, t: MirrorText) {
    Spans(code, e.sourceRange, t.left) && Spans(code, e.targetRange, t.right)
  }

  /** Mirrors shifted by where the generated code sits in a document land on the texts they link. */
  lemma MirrorEntriesSpan(code: string, offset: int, g: string, ms: seq<Mirror>, ts: seq<MirrorText>)
    requires Spans(code, Range(offset, offset + |g|), g)
    requires MirrorsSpan(g, ms, ts)
    ensures forall k :: 0 <= k < |ms| ==> MirrorEntryHolds(code, MirrorEntries(offset, ms)[k], ts[k])
  {
    forall k | 0 <= k < |ms| ensures MirrorEntryHolds(code, MirrorEntries(offset, ms)[k], ts[k]) {
      assert MirrorSpans(g, ms[k], ts[k]);
      SpansShift(g, code, offset, ms[k].left, ts[k].left);
      SpansShift(g, code, offset, ms[k].right, ts[k].right);
    }
  }

  /**
   * Every mirror of the corrected map links the two texts the generator
   * recorded for it, at their places in the script document.
   */
  lemma MirrorsSourceMapHolds(script: Option<ScriptBlock>, setup: Option<SetupBlock>, gen: GenResult, doc: DocGenResult,
                              ts: seq<MirrorText>)
    requires DocRangesPresent(doc, script, setup, Some(gen.code)) && DocRangesHold(doc, script, setup, Some(gen.code))
    requires MirrorsSpan(gen.code, gen.mirrors, ts)
    ensures doc.scriptSetupRange.Some?
    ensures forall k :: 0 <= k < |gen.mirrors| ==>
              MirrorEntryHolds(doc.code, MirrorEntries(doc.scriptSetupRange.value.start, gen.mirrors)[k], ts[k])
  {
    MirrorEntriesSpan(doc.code, doc.scriptSetupRange.value.start, gen.code, gen.mirrors, ts);
  }

  /**
   * Without a non-empty `src` attribute the plain script's length is where
   * the setup code starts, so the map as written is the corrected one; with
   * one, the setup code starts later by the length of the re-exports.
   */
  lemma MirrorOffsetAsWritten(script: Option<ScriptBlock>, hasSetup: bool)
    requires script.Some? ==> ExportInBounds(script.value)
    ensures script.None? || !HasSrc(script.value) ==> SetupCodeStart(script, hasSetup) == StartOffsetAsWritten(script)
    ensures script.Some? && HasSrc(script.value) ==>
              SetupCodeStart(script, hasSetup) == StartOffsetAsWritten(script) + |SrcPrelude(script.value.src.value)|
  {
    if script.Some? && hasSetup && script.value.exportDefault.Some? {
      Blanking.ReplaceStringToEmptyShape(script.value.content, script.value.exportDefault.value.start, script.value.exportDefault.value.end);
    }
  }

  /**
   * With `<script src="./a.ts">` and an empty body beside a setup block, the
   * setup code starts at offset 94 of the document, but the map as written
   * shifts every mirror by 0: each of its entries points 94 characters
   * before the text it should link.
   */
  lemma MirrorsMisplacedWithSrc(loc: Range, m: Mirror)
    ensures var script := Some(ScriptBlock("", Some("./a.ts"), loc, None));
            && SetupCodeStart(script, true) == 94
            && StartOffsetAsWritten(script) == 0
            && MirrorEntry(SetupCodeStart(script, true), m).sourceRange.start ==
               MirrorEntry(StartOffsetAsWritten(script), m).sourceRange.start + 94
  {
    MirrorOffsetAsWritten(Some(ScriptBlock("", Some("./a.ts"), loc, None)), true);
    assert |SrcPrelude("./a.ts")| == 94;
  }

  /**
   * An empty `src=""` is no `src`: no re-exports are written, so the setup
   * code starts right after the (empty) script body and the two shifts agree.
   */
  lemma MirrorsPlacedWithEmptySrc(loc: Range, m: Mirror)
    ensures var script := Some(ScriptBlock("", Some(""), loc, None));
            && SetupCodeStart(script, true) == 0
            && StartOffsetAsWritten(script) == 0
            && MirrorEntry(SetupCodeStart(script, true), m) == MirrorEntry(StartOffsetAsWritten(script), m)
  {
    MirrorOffsetAsWritten(Some(ScriptBlock("", Some(""), loc, None)), true);
  }
}
