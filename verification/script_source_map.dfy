/**
 * The source map between the `.vue` file and the main script document
 * (`sourceMap`): one entry for the plain script, one for the quoted `src`
 * path, the generator's mappings shifted into place, and navigation-only
 * entries for the options object.
 */
module ScriptSourceMap {
  import opened Wrappers
  import opened SourceMaps
  import opened ScriptSetupData
  import opened Text
  import opened Blanking
  import opened ScriptSetupGen
  import opened ScriptDocuments

  /** Everything except the references code lens. */
  const ScriptCapabilities := Capabilities(true, true, true, true, true, true, true, true, true, false)
  /** references, definitions, rename */
  const OptionCapabilities := Capabilities(false, true, true, false, false, true, false, false, false, false)
  /** The main map's document flags: document symbols only. */
  const MainMapCapabilities := MapCapabilities(false, false, true)

  function TagData(tag: VueTag, capabilities: Capabilities): TsMappingData {
    TsMappingData(Some(tag), None, None, None, capabilities)
  }

  // ---------------------------------------------------------------------------
  // Locating the `src` attribute

  predicate OccursAt(s: string, t: string, j: int) {
    0 <= j && j + |t| <= |s| && s[j..j + |t|] == t
  }

  /** The last occurrence of `t` in `s` at or before `i`, or -1. */
  function LastIndexFrom(s: string, t: string, i: int): (k: int)
    requires -1 <= i <= |s| - |t|
    ensures -1 <= k <= i
    ensures k >= 0 ==> OccursAt(s, t, k)
    ensures forall j :: k < j <= i ==> !OccursAt(s, t, j)
    decreases i + 1
  {
    if i < 0 then -1 else if s[i..i + |t|] == t then i else LastIndexFrom(s, t, i - 1)
  }

  /** `s.lastIndexOf(t)`: the start of the last occurrence of `t` in `s`, or -1. */
  function LastIndexOf(s: string, t: string): (k: int)
    ensures k >= 0 ==> OccursAt(s, t, k)
    ensures forall j :: k < j ==> !OccursAt(s, t, j)
  {
    if |s| < |t| then -1 else LastIndexFrom(s, t, |s| - |t|)
  }

  /** Where the `src` path is taken to start: its last occurrence before the script block. */
  function VueStart(vueText: string, script: ScriptBlock): int
    requires script.src.Some?
  {
    LastIndexOf(JsSubstring(vueText, 0, script.loc.start), script.src.value)
  }

  // ---------------------------------------------------------------------------
  // The entries

  function ScriptEntry(loc: Range, target: Range): Mapping<TsMappingData> {
    Mapping(TagData(ScriptTag, ScriptCapabilities), Offset, loc, target)
  }

  /** The quoted path: one character either side of the path found in the `.vue` text. */
  function SrcEntry(vueStart: int, src: string, target: Range): Mapping<TsMappingData> {
    Mapping(TagData(ScriptTag, CopyCapabilities), Offset, Range(vueStart - 1, vueStart + |src| + 1), target)
  }

  /** A generator mapping moved from block and generated-code offsets to file and document offsets. */
  function SetupEntry(blockStart: int, genStart: int, m: GenMapping): Mapping<TsMappingData> {
    Mapping(
      TsMappingData(Some(ScriptSetupTag), None, m.isNoDollarRef, None, m.capabilities),
      m.mode,
      Range(blockStart + m.scriptSetupRange.start, blockStart + m.scriptSetupRange.end),
      Range(genStart + m.genRange.start, genStart + m.genRange.end))
  }

  function SetupEntries(blockStart: int, genStart: int, ms: seq<GenMapping>): (es: seq<Mapping<TsMappingData>>)
    ensures |es| == |ms|
    ensures forall k :: 0 <= k < |ms| ==> es[k] == SetupEntry(blockStart, genStart, ms[k])
  {
    if ms == [] then [] else SetupEntries(blockStart, genStart, ms[..|ms| - 1]) + [SetupEntry(blockStart, genStart, ms[|ms| - 1])]
  }

  function OptionEntry(tag: VueTag, blockStart: int, part: Range, genRange: Range): Mapping<TsMappingData> {
    Mapping(TagData(tag, OptionCapabilities), Offset, Range(blockStart + part.start, blockStart + part.end), genRange)
  }

  function ScriptEntries(vueText: string, script: Option<ScriptBlock>, doc: DocGenResult): seq<Mapping<TsMappingData>> {
    if script.Some? && doc.scriptRange.Some? then
      [ScriptEntry(script.value.loc, doc.scriptRange.value)] +
      if HasSrc(script.value) && doc.scriptSrcRange.Some? then
        [SrcEntry(VueStart(vueText, script.value), script.value.src.value, doc.scriptSrcRange.value)]
      else []
    else []
  }

  function SetupPart(setup: Option<SetupBlock>, gen: Option<GenResult>, doc: DocGenResult): seq<Mapping<TsMappingData>> {
    if setup.Some? && gen.Some? && doc.scriptSetupRange.Some? then
      SetupEntries(setup.value.loc.start, doc.scriptSetupRange.value.start, gen.value.mappings)
    else []
  }

  /** The block the options object was copied from, by the recorded tag. */
  function OptionsBlock(script: Option<ScriptBlock>, setup: Option<SetupBlock>, tag: VueTag): Option<Range> {
    if tag == ScriptSetupTag then (if setup.Some? then Some(setup.value.loc) else None)
    else if script.Some? then Some(script.value.loc) else None
  }

  function DefaultExportEntries(script: Option<ScriptBlock>, setup: Option<SetupBlock>, doc: DocGenResult): seq<Mapping<TsMappingData>> {
    if doc.defaultExportRange.Some? then
      var o := doc.defaultExportRange.value;
      var block := OptionsBlock(script, setup, o.tag);
      if block.Some? then
        [OptionEntry(if setup.Some? then ScriptSetupTag else ScriptTag, block.value.start, o.partRange, o.genRange)]
      else []
    else []
  }

  function MacroEntries(setup: Option<SetupBlock>, range: Option<PartRange>): seq<Mapping<TsMappingData>> {
    if range.Some? && setup.Some? then
      [OptionEntry(ScriptSetupTag, setup.value.loc.start, range.value.partRange, range.value.genRange)]
    else []
  }

  function OptionEntries(script: Option<ScriptBlock>, setup: Option<SetupBlock>, doc: DocGenResult): seq<Mapping<TsMappingData>> {
    DefaultExportEntries(script, setup, doc) + MacroEntries(setup, doc.definePropsRange) + MacroEntries(setup, doc.defineEmitRange)
  }

  /** The main map's entries, in the order they are added. */
  function MainEntries(vueText: string, script: Option<ScriptBlock>, setup: Option<SetupBlock>, gen: Option<GenResult>, doc: DocGenResult)
    : seq<Mapping<TsMappingData>>
  {
    ScriptEntries(vueText, script, doc) + SetupPart(setup, gen, doc) + OptionEntries(script, setup, doc)
  }

  // ---------------------------------------------------------------------------
  // Building the map

  /** The generator's mappings, shifted, one `add` per mapping. */
  method AddSetupEntries(sm: TsSourceMap, blockStart: int, genStart: int, ms: seq<GenMapping>)
    modifies sm.entries
    ensures sm.entries.mappings == old(sm.entries.mappings) + SetupEntries(blockStart, genStart, ms)
  {
    var i := 0;
    while i < |ms|
      invariant 0 <= i <= |ms|
      invariant sm.entries.mappings == old(sm.entries.mappings) + SetupEntries(blockStart, genStart, ms[..i])
    {
      assert ms[..i + 1][..i] == ms[..i];
      ConcatAssoc(old(sm.entries.mappings), SetupEntries(blockStart, genStart, ms[..i]), [SetupEntry(blockStart, genStart, ms[i])]);
      sm.entries.Add(SetupEntry(blockStart, genStart, ms[i]));
      i := i + 1;
    }
    assert ms[..i] == ms;
  }

  /** The plain script's entry, and the quoted path's after it. */
  method AddScriptEntries(sm: TsSourceMap, vueText: string, script: Option<ScriptBlock>, doc: DocGenResult)
    modifies sm.entries
    ensures sm.entries.mappings == old(sm.entries.mappings) + ScriptEntries(vueText, script, doc)
  {
    if script.Some? && doc.scriptRange.Some? {
      sm.entries.Add(ScriptEntry(script.value.loc, doc.scriptRange.value));
      if HasSrc(script.value) && doc.scriptSrcRange.Some? {
        var vueStart := LastIndexOf(JsSubstring(vueText, 0, script.value.loc.start), script.value.src.value);
        sm.entries.Add(SrcEntry(vueStart, script.value.src.value, doc.scriptSrcRange.value));
      }
    }
  }

  method AddOptionEntries(sm: TsSourceMap, script: Option<ScriptBlock>, setup: Option<SetupBlock>, doc: DocGenResult)
    modifies sm.entries
    ensures sm.entries.mappings == old(sm.entries.mappings) + OptionEntries(script, setup, doc)
  {
    if doc.defaultExportRange.Some? {
      var optionsRange := doc.defaultExportRange.value;
      var block := OptionsBlock(script, setup, optionsRange.tag);
      if block.Some? {
        var tag := if setup.Some? then ScriptSetupTag else ScriptTag;
        sm.entries.Add(OptionEntry(tag, block.value.start, optionsRange.partRange, optionsRange.genRange));
      }
    }
    ghost var m1 := sm.entries.mappings;
    if doc.definePropsRange.Some? && setup.Some? {
      sm.entries.Add(OptionEntry(ScriptSetupTag, setup.value.loc.start, doc.definePropsRange.value.partRange, doc.definePropsRange.value.genRange));
    }
    ghost var m2 := sm.entries.mappings;
    if doc.defineEmitRange.Some? && setup.Some? {
      sm.entries.Add(OptionEntry(ScriptSetupTag, setup.value.loc.start, doc.defineEmitRange.value.partRange, doc.defineEmitRange.value.genRange));
    }
    ConcatAssoc(old(sm.entries.mappings), DefaultExportEntries(script, setup, doc), MacroEntries(setup, doc.definePropsRange));
    ConcatAssoc(old(sm.entries.mappings), DefaultExportEntries(script, setup, doc) + MacroEntries(setup, doc.definePropsRange),
                MacroEntries(setup, doc.defineEmitRange));
  }

  /**
   * `sourceMap`: nothing without a script document; otherwise a fresh map
   * holding the main entries in order.
   */
  method BuildSourceMap(vueText: string, script: Option<ScriptBlock>, setup: Option<SetupBlock>, gen: Option<GenResult>,
                        doc: Option<DocGenResult>) returns (r: Option<TsSourceMap>)
    ensures r.None? <==> doc.None?
    ensures r.Some? ==> fresh(r.value) && fresh(r.value.entries)
    ensures r.Some? ==> !r.value.isInterpolation && r.value.capabilities == MainMapCapabilities
    ensures r.Some? ==> r.value.entries.mappings == MainEntries(vueText, script, setup, gen, doc.value)
  {
    if doc.None? {
      return None;
    }
    var d := doc.value;
    var sm := new TsSourceMap(false, MainMapCapabilities);
    AddScriptEntries(sm, vueText, script, d);
    ghost var m1 := sm.entries.mappings;
    AddSetupPart(sm, setup, gen, d);
    AddOptionEntries(sm, script, setup, d);
    ConcatAssoc(m1, SetupPart(setup, gen, d), OptionEntries(script, setup, d));
    r := Some(sm);
  }

  /** The setup block's entries, when there is a setup block with generated code and a range in the document. */
  method AddSetupPart(sm: TsSourceMap, setup: Option<SetupBlock>, gen: Option<GenResult>, doc: DocGenResult)
    modifies sm.entries
    ensures sm.entries.mappings == old(sm.entries.mappings) + SetupPart(setup, gen, doc)
  {
    if setup.Some? && gen.Some? && doc.scriptSetupRange.Some? {
      AddSetupEntries(sm, setup.value.loc.start, doc.scriptSetupRange.value.start, gen.value.mappings);
    } else {
      assert sm.entries.mappings == sm.entries.mappings + [];
    }
  }

  // ---------------------------------------------------------------------------
  // What the entries promise

  /** The entry's two ranges lie inside their texts and have the same width. */
  predicate Fits(vueText: string, code: string, e: Mapping<TsMappingData>) {
    && 0 <= e.sourceRange.start <= e.sourceRange.end <= |vueText|
    && 0 <= e.targetRange.start && e.targetRange.end <= |code|
    && e.targetRange.end - e.targetRange.start == e.sourceRange.end - e.sourceRange.start
  }

  /** File offset `i`, when inside the entry's source range, has the same character at its place in the document. */
  predicate AgreesAt(vueText: string, code: string, e: Mapping<TsMappingData>, i: int) {
    Fits(vueText, code, e) && e.sourceRange.start <= i < e.sourceRange.end ==>
      code[e.targetRange.start + (i - e.sourceRange.start)] == vueText[i]
  }

  /**
   * The entry maps text to identical text, except where the block offset
   * `i - blockStart` lies inside one of `skipped` (text the document blanks).
   */
  ghost predicate CopiesOutside(vueText: string, code: string, e: Mapping<TsMappingData>, blockStart: int, skipped: seq<Range>) {
    && Fits(vueText, code, e)
    && forall i {:trigger AgreesAt(vueText, code, e, i)} :: !InImport(skipped, i - blockStart) ==> AgreesAt(vueText, code, e, i)
  }

  /** The spans of the plain script the document blanks: its `export default` statement beside a setup block. */
  function BlankedSpans(script: ScriptBlock, hasSetup: bool): seq<Range> {
    if hasSetup && script.exportDefault.Some? then [Range(script.exportDefault.value.start, script.exportDefault.value.end)] else []
  }

  predicate ExportInBounds(script: ScriptBlock) {
    script.exportDefault.Some? ==> 0 <= script.exportDefault.value.start <= script.exportDefault.value.end <= |script.content|
  }

  /**
   * The plain script's entry maps the block to its copy in the document
   * character for character, except inside a blanked `export default`.
   */
  lemma ScriptEntryCopies(vueText: string, code: string, script: ScriptBlock, hasSetup: bool, target: Range)
    requires Spans(vueText, script.loc, script.content)
    requires Spans(code, target, ScriptText(script, hasSetup))
    requires ExportInBounds(script)
    ensures CopiesOutside(vueText, code, ScriptEntry(script.loc, target), script.loc.start, BlankedSpans(script, hasSetup))
  {
    var e := ScriptEntry(script.loc, target);
    var text := ScriptText(script, hasSetup);
    var skipped := BlankedSpans(script, hasSetup);
    if hasSetup && script.exportDefault.Some? {
      ReplaceStringToEmptyShape(script.content, script.exportDefault.value.start, script.exportDefault.value.end);
    }
    assert Fits(vueText, code, e);
    forall i | !InImport(skipped, i - script.loc.start) ensures AgreesAt(vueText, code, e, i) {
      if script.loc.start <= i < script.loc.end {
        var j := i - script.loc.start;
        assert skipped != [] ==> (skipped[0].start <= j < skipped[0].end ==> InImport(skipped, j));
        assert vueText[i] == vueText[script.loc.start..script.loc.end][j];
        assert code[target.start + j] == code[target.start..target.end][j];
      }
    }
  }

  /**
   * The `src` entry has the quoted path's width on both sides; when the path
   * is found before the block, the file range is that path with one
   * character either side, and the document range is the path in quotes.
   * It is not found exactly when the path does not occur before the block,
   * and then the file range starts at -2.
   */
  lemma SrcEntryLocates(vueText: string, code: string, script: ScriptBlock, target: Range)
    requires script.src.Some? && 0 <= script.loc.start <= |vueText|
    requires Spans(code, target, Quoted(script.src.value))
    ensures var e := SrcEntry(VueStart(vueText, script), script.src.value, target);
            e.sourceRange.end - e.sourceRange.start == e.targetRange.end - e.targetRange.start == |script.src.value| + 2
    ensures var k := VueStart(vueText, script);
            k == -1 <==> forall j :: 0 <= j ==> !OccursAt(vueText[..script.loc.start], script.src.value, j)
    ensures var k := VueStart(vueText, script);
            k >= 0 ==>
              && k + |script.src.value| <= script.loc.start
              && vueText[k..k + |script.src.value|] == script.src.value
              && code[target.start + 1..target.end - 1] == script.src.value
  {
    var src := script.src.value;
    var before := JsSubstring(vueText, 0, script.loc.start);
    assert before == vueText[..script.loc.start];
    var k := VueStart(vueText, script);
    if k >= 0 {
      assert OccursAt(before, src, k);
      assert k + |src| <= |before| == script.loc.start;
      assert before[k..k + |src|] == vueText[k..k + |src|];
      assert Quoted(src)[1..|src| + 1] == src;
      assert code[target.start + 1..target.end - 1] == code[target.start..target.end][1..|src| + 1];
    }
  }

  /** A generator mapping, shifted into the document, keeps what its ranges promise. */
  lemma SetupEntryCopies(vueText: string, code: string, setup: SetupBlock, genStart: int, g: string, m: GenMapping, t: string)
    requires Spans(vueText, setup.loc, setup.content)
    requires Spans(code, Range(genStart, genStart + |g|), g)
    requires MappingSpans(g, m, t) && MappingSound(setup.content, setup.data.imports, m, t)
    ensures var e := SetupEntry(setup.loc.start, genStart, m);
            && Spans(code, e.targetRange, t)
            && setup.loc.start <= e.sourceRange.start <= e.sourceRange.end <= setup.loc.end
            && (m.capabilities == CopyCapabilities ==>
                  e.mode == Offset && CopiesOutside(vueText, code, e, setup.loc.start, setup.data.imports))
  {
    var e := SetupEntry(setup.loc.start, genStart, m);
    SpansShift(g, code, genStart, m.genRange, t);
    if m.capabilities == CopyCapabilities {
      var off := m.scriptSetupRange.start;
      forall i | !InImport(setup.data.imports, i - setup.loc.start) ensures AgreesAt(vueText, code, e, i) {
        if e.sourceRange.start <= i < e.sourceRange.end {
          var j := i - setup.loc.start;
          assert KeptAt(setup.content, setup.data.imports, t, off, j);
          assert vueText[i] == vueText[setup.loc.start..setup.loc.end][j];
          assert code[e.targetRange.start + (j - off)] == code[e.targetRange.start..e.targetRange.end][j - off];
        }
      }
    }
  }

  ghost predicate SetupEntryHolds(vueText: string, code: string, setup: SetupBlock, e: Mapping<TsMappingData>, m: GenMapping, t: string) {
    && Spans(code, e.targetRange, t)
    && setup.loc.start <= e.sourceRange.start <= e.sourceRange.end <= setup.loc.end
    && (m.capabilities == CopyCapabilities ==>
          e.mode == Offset && CopiesOutside(vueText, code, e, setup.loc.start, setup.data.imports))
  }

  /**
   * Every generator mapping, placed after the plain script in the document,
   * lands on the text it was generated with, comes from inside the setup
   * block, and a full-capability one copies the block outside its imports.
   */
  lemma SetupEntriesCopy(vueText: string, code: string, setup: SetupBlock, genStart: int, gen: GenResult, emitted: seq<string>)
    requires Spans(vueText, setup.loc, setup.content)
    requires Spans(code, Range(genStart, genStart + |gen.code|), gen.code)
    requires gen.data == setup.data
    requires MappingsSpan(gen.code, gen.mappings, emitted) && AllSound(setup.content, setup.data.imports, gen.mappings, emitted)
    ensures var es := SetupEntries(setup.loc.start, genStart, gen.mappings);
            forall k :: 0 <= k < |es| ==> SetupEntryHolds(vueText, code, setup, es[k], gen.mappings[k], emitted[k])
  {
    var es := SetupEntries(setup.loc.start, genStart, gen.mappings);
    forall k | 0 <= k < |es| ensures SetupEntryHolds(vueText, code, setup, es[k], gen.mappings[k], emitted[k]) {
      assert MappingSpans(gen.code, gen.mappings[k], emitted[k]);
      assert MappingSound(setup.content, setup.data.imports, gen.mappings[k], emitted[k]);
      SetupEntryCopies(vueText, code, setup, genStart, gen.code, gen.mappings[k], emitted[k]);
    }
  }

  /** An option entry copies exactly when its part lies inside its block. */
  lemma OptionEntryCopies(vueText: string, code: string, loc: Range, content: string, tag: VueTag, part: Range, genRange: Range)
    requires Spans(vueText, loc, content)
    requires InBounds(part, |content|)
    requires Spans(code, genRange, JsSubstring(content, part.start, part.end))
    ensures CopiesOutside(vueText, code, OptionEntry(tag, loc.start, part, genRange), loc.start, [])
  {
    var e := OptionEntry(tag, loc.start, part, genRange);
    forall i ensures AgreesAt(vueText, code, e, i) {
      if e.sourceRange.start <= i < e.sourceRange.end {
        var j := i - loc.start;
        assert vueText[i] == vueText[loc.start..loc.end][j];
        assert code[genRange.start + (j - part.start)] == code[genRange.start..genRange.end][j - part.start];
      }
    }
  }

  /** The plain script's `export default` argument holds its recorded text, inside the block. */
  predicate ExportArgsFit(script: ScriptBlock) {
    script.exportDefault.Some? ==>
      var args := script.exportDefault.value.args;
      InBounds(Range(args.start, args.end), |script.content|) && args.text == script.content[args.start..args.end]
  }

  ghost predicate OptionEntryHolds(vueText: string, code: string, setup: Option<SetupBlock>, e: Mapping<TsMappingData>) {
    && e.data == TagData(if setup.Some? then ScriptSetupTag else ScriptTag, OptionCapabilities)
    && e.mode == Offset
    && CopiesOutside(vueText, code, e, 0, [])
  }

  lemma CopiesAnyStart(vueText: string, code: string, e: Mapping<TsMappingData>, blockStart: int)
    requires CopiesOutside(vueText, code, e, blockStart, [])
    ensures CopiesOutside(vueText, code, e, 0, [])
  {
    forall i ensures AgreesAt(vueText, code, e, i) {
      assert !InImport([], i - blockStart);
    }
  }

  /** The default export's entry copies its argument from the plain script. */
  lemma DefaultExportEntryCopies(vueText: string, script: Option<ScriptBlock>, setup: Option<SetupBlock>, setupGen: Option<string>, doc: DocGenResult)
    requires DocRangesHold(doc, script, setup, setupGen)
    requires script.Some? ==> Spans(vueText, script.value.loc, script.value.content) && ExportArgsFit(script.value)
    ensures var es := DefaultExportEntries(script, setup, doc);
            forall k :: 0 <= k < |es| ==> OptionEntryHolds(vueText, doc.code, setup, es[k])
  {
    var d := DefaultExportEntries(script, setup, doc);
    if d != [] {
      var s := script.value;
      var args := s.exportDefault.value.args;
      assert JsSubstring(s.content, args.start, args.end) == args.text;
      OptionEntryCopies(vueText, doc.code, s.loc, s.content, if setup.Some? then ScriptSetupTag else ScriptTag,
                        doc.defaultExportRange.value.partRange, doc.defaultExportRange.value.genRange);
      CopiesAnyStart(vueText, doc.code, d[0], s.loc.start);
    }
  }

  /** A macro argument's entry copies the argument from the setup block. */
  lemma MacroEntryCopies(vueText: string, setup: Option<SetupBlock>, code: string, call: Option<MacroCall>, part: Option<Range>, range: Option<PartRange>)
    requires range.Some? ==>
               setup.Some? && part.Some? && range.value.partRange == part.value &&
               Spans(code, range.value.genRange, JsSubstring(setup.value.content, part.value.start, part.value.end))
    requires setup.Some? ==> Spans(vueText, setup.value.loc, setup.value.content)
    requires setup.Some? && part.Some? ==> InBounds(part.value, |setup.value.content|)
    ensures var es := MacroEntries(setup, range);
            forall k :: 0 <= k < |es| ==> OptionEntryHolds(vueText, code, setup, es[k])
  {
    var es := MacroEntries(setup, range);
    if es != [] {
      var r := range.value;
      OptionEntryCopies(vueText, code, setup.value.loc, setup.value.content, ScriptSetupTag, r.partRange, r.genRange);
      CopiesAnyStart(vueText, code, es[0], setup.value.loc.start);
    }
  }

  /**
   * Every entry for the options object is a navigation-only Offset entry that
   * maps the `.vue` text of the default export's argument, the `defineProps`
   * (type) argument or the `defineEmit` argument to an identical copy in the
   * document. Its tag names the setup block whenever there is one, even for
   * the default export, which always comes from the plain script.
   */
  lemma OptionEntriesCopy(vueText: string, script: Option<ScriptBlock>, setup: Option<SetupBlock>, setupGen: Option<string>, doc: DocGenResult)
    requires DocRangesHold(doc, script, setup, setupGen)
    requires script.Some? ==> Spans(vueText, script.value.loc, script.value.content) && ExportArgsFit(script.value)
    requires setup.Some? ==> Spans(vueText, setup.value.loc, setup.value.content) &&
                             MacroWellFormed(setup.value.content, setup.value.data.defineProps) &&
                             MacroWellFormed(setup.value.content, setup.value.data.defineEmit)
    ensures var es := OptionEntries(script, setup, doc);
            forall k :: 0 <= k < |es| ==> OptionEntryHolds(vueText, doc.code, setup, es[k])
  {
    var d := DefaultExportEntries(script, setup, doc);
    var p := MacroEntries(setup, doc.definePropsRange);
    var m := MacroEntries(setup, doc.defineEmitRange);
    DefaultExportEntryCopies(vueText, script, setup, setupGen, doc);
    MacroEntryCopies(vueText, setup, doc.code, if setup.Some? then setup.value.data.defineProps else None,
                     if setup.Some? then PropsPart(setup.value.data.defineProps) else None, doc.definePropsRange);
    MacroEntryCopies(vueText, setup, doc.code, if setup.Some? then setup.value.data.defineEmit else None,
                     if setup.Some? then ArgsOf(setup.value.data.defineEmit) else None, doc.defineEmitRange);
    var es := OptionEntries(script, setup, doc);
    forall k | 0 <= k < |es| ensures OptionEntryHolds(vueText, doc.code, setup, es[k]) {
      if k < |d| {
        assert es[k] == d[k];
      } else if k < |d| + |p| {
        assert es[k] == p[k - |d|];
      } else {
        assert es[k] == m[k - |d| - |p|];
      }
    }
  }
}
