/**
 * The two script documents built from the blocks of a `.vue` file: the
 * suggestion document (`scriptForSuggestion`) and the main script document
 * (`docGen`). Each is text appended piece by piece, with the range of every
 * piece that maps back to a block recorded as it is added.
 */
module ScriptDocuments {
  import opened Wrappers
  import opened SourceMaps
  import opened ScriptSetupData
  import opened Text
  import opened Blanking
  import opened Suggestion

  /** The argument of the plain script's `export default`, with its text. */
  datatype ExportArgs = ExportArgs(start: int, end: int, text: string)

  /** The plain script's `export default` statement. */
  datatype ExportDefault = ExportDefault(start: int, end: int, args: ExportArgs)

  /** The plain `<script>` block: content, optional `src` attribute, location in the `.vue` file, and its `export default`. */
  datatype ScriptBlock = ScriptBlock(content: string, src: Option<string>, loc: Range, exportDefault: Option<ExportDefault>)

  /**
   * The script refers to another module: its `src` attribute is present and
   * non-empty, as JavaScript's truthiness test on the attribute decides (an
   * empty `src=""` counts as no `src`).
   */
  predicate HasSrc(s: ScriptBlock) {
    s.src.Some? && s.src.value != ""
  }

  /** The `<script setup>` block with its analysis record. */
  datatype SetupBlock = SetupBlock(content: string, loc: Range, data: SetupData)

  /** The component options object found in the plain script. */
  datatype DefaultExport = DefaultExport(tag: VueTag, text: string, start: int, end: int)

  /** A piece of a block copied into the document: where it came from and where it went. */
  datatype PartRange = PartRange(partRange: Range, genRange: Range)

  datatype DefaultExportRange = DefaultExportRange(partRange: Range, genRange: Range, tag: VueTag)

  datatype DocGenResult = DocGenResult(
    code: string,
    scriptSrcRange: Option<Range>,
    scriptRange: Option<Range>,
    scriptSetupRange: Option<Range>,
    defaultExportRange: Option<DefaultExportRange>,
    definePropsRange: Option<PartRange>,
    defineEmitRange: Option<PartRange>)

  datatype SuggestionDoc = SuggestionDoc(code: string, scriptRange: Option<Range>, scriptSetupRange: Option<Range>)

  /** The text being built, with the local `addCode` of both builders. */
  class CodeBuffer {
    var code: string

    constructor ()
      ensures code == ""
    {
      code := "";
    }

    method Write(s: string)
      modifies this
      ensures code == old(code) + s
    {
      code := code + s;
    }

    /** Appends `s` and returns the range it now occupies. */
    method AddCode(s: string) returns (r: Range)
      modifies this
      ensures code == old(code) + s
      ensures r == Range(|old(code)|, |code|) && Spans(code, r, s)
    {
      var start := |code|;
      SpansTail(code, s);
      code := code + s;
      r := Range(start, |code|);
    }
  }

  // ---------------------------------------------------------------------------
  // scriptForSuggestion

  /** The labels' parentheses are in order in a present setup block. */
  predicate SetupParensOrdered(setup: Option<SetupBlock>) {
    setup.Some? ==> forall k :: 0 <= k < |setup.value.data.labels| ==> ParensOrdered(setup.value.data.labels[k])
  }

  /**
   * `scriptForSuggestion`: the plain script and a line break, the normalised
   * setup block, then the template's interpolations in a block. Nothing
   * without a setup block. The interpolation text is produced by the
   * template compiler and is taken as a parameter (`None` without a template).
   */
  method ScriptForSuggestion(script: Option<ScriptBlock>, setup: Option<SetupBlock>, interpolations: Option<string>)
    returns (r: Option<SuggestionDoc>)
    requires SetupParensOrdered(setup)
    ensures r.None? <==> setup.None?
    ensures r.Some? ==>
              && (r.value.scriptRange.Some? <==> script.Some?)
              && (script.Some? ==> Spans(r.value.code, r.value.scriptRange.value, script.value.content))
              && r.value.scriptSetupRange.Some?
              && Spans(r.value.code, r.value.scriptSetupRange.value, NoDollarCode(setup.value.content, setup.value.data))
              && (interpolations.Some? ==> r.value.code[r.value.scriptSetupRange.value.end..] == "{\n" + interpolations.value + "}\n")
              && (interpolations.None? ==> r.value.scriptSetupRange.value.end == |r.value.code|)
  {
    if setup.None? {
      return None;
    }
    var b := new CodeBuffer();
    var scriptRange: Option<Range> := None;
    if script.Some? {
      var range := b.AddCode(script.value.content);
      scriptRange := Some(range);
      b.Write("\n");
      SpansAppend(b.code[..|b.code| - 1], "\n", range, script.value.content);
      assert b.code[..|b.code| - 1] + "\n" == b.code;
    }
    ghost var before := b.code;
    var noDollarCode := NormaliseForSuggestion(setup.value.content, setup.value.data);
    var scriptSetupRange := b.AddCode(noDollarCode);
    if script.Some? {
      SpansPrefix(before, b.code, scriptRange.value, script.value.content);
    }
    ghost var afterSetup := b.code;
    if interpolations.Some? {
      b.Write("{\n" + interpolations.value + "}\n");
      SpansPrefix(afterSetup, b.code, scriptSetupRange, noDollarCode);
      if script.Some? {
        SpansPrefix(afterSetup, b.code, scriptRange.value, script.value.content);
      }
    }
    r := Some(SuggestionDoc(b.code, scriptRange, Some(scriptSetupRange)));
  }

  // ---------------------------------------------------------------------------
  // docGen

  /** The options object the plain script exports by default, if any; its tag is always the plain script. */
  function DefaultExportOf(script: Option<ScriptBlock>): (d: Option<DefaultExport>)
    ensures d.Some? <==> script.Some? && script.value.exportDefault.Some?
    ensures d.Some? ==> d.value.tag == ScriptTag && d.value.text == script.value.exportDefault.value.args.text
  {
    if script.Some? && script.value.exportDefault.Some? then
      var args := script.value.exportDefault.value.args;
      Some(DefaultExport(ScriptTag, args.text, args.start, args.end))
    else None
  }

  /** The quoted `src` path, the piece of the re-exports that maps back to the attribute. */
  function Quoted(src: string): string { "'" + src + "'" }

  /** What follows the quoted path in the re-exports. */
  function SrcTail(src: string): string {
    ";\n" + "import __VLS_ScriptSrc from " + Quoted(src) + ";\n" + "export default __VLS_ScriptSrc;\n"
  }

  /** The text standing for a `src` script: re-exports of the referenced module. */
  function SrcPrelude(src: string): string {
    "export * from " + Quoted(src) + SrcTail(src)
  }

  /**
   * The plain script's text in the document: with a setup block beside it,
   * its `export default` statement is blanked out; otherwise it is copied.
   */
  function ScriptText(script: ScriptBlock, hasSetup: bool): string {
    if hasSetup && script.exportDefault.Some? then
      ReplaceStringToEmpty(script.content, script.exportDefault.value.start, script.exportDefault.value.end)
    else script.content
  }

  /** Where the generated setup code starts in the document. */
  function SetupCodeStart(script: Option<ScriptBlock>, hasSetup: bool): int {
    if script.None? then 0
    else (if HasSrc(script.value) then |SrcPrelude(script.value.src.value)| else 0) + |ScriptText(script.value, hasSetup)|
  }

  /** The block range a macro's option is copied from: the type argument when present, else the argument. */
  function PropsPart(call: Option<MacroCall>): Option<Range> {
    if TypeArgsOf(call).Some? then TypeArgsOf(call) else ArgsOf(call)
  }

  /** The re-exports of a `src` script, recording where the quoted path went. */
  method WriteScriptSrc(b: CodeBuffer, src: string) returns (range: Range)
    modifies b
    ensures b.code == old(b.code) + SrcPrelude(src)
    ensures Spans(b.code, range, Quoted(src))
  {
    b.Write("export * from ");
    range := b.AddCode(Quoted(src));
    ghost var c := b.code;
    b.Write(SrcTail(src));
    SpansPrefix(c, b.code, range, Quoted(src));
    ConcatAssoc(old(b.code), "export * from ", Quoted(src));
    ConcatAssoc(old(b.code), "export * from " + Quoted(src), SrcTail(src));
  }

  /** The plain script part: the `src` re-exports when there is a `src`, then the script's text. */
  method WriteScript(b: CodeBuffer, script: ScriptBlock, hasSetup: bool) returns (srcRange: Option<Range>, range: Range)
    modifies b
    ensures old(b.code) <= b.code
    ensures |b.code| == |old(b.code)| + (if HasSrc(script) then |SrcPrelude(script.src.value)| else 0) + |ScriptText(script, hasSetup)|
    ensures srcRange.Some? <==> HasSrc(script)
    ensures srcRange.Some? ==> Spans(b.code, srcRange.value, Quoted(script.src.value))
    ensures Spans(b.code, range, ScriptText(script, hasSetup))
  {
    srcRange := None;
    if HasSrc(script) {
      var r := WriteScriptSrc(b, script.src.value);
      srcRange := Some(r);
    }
    ghost var c := b.code;
    if hasSetup && script.exportDefault.Some? {
      range := b.AddCode(ReplaceStringToEmpty(script.content, script.exportDefault.value.start, script.exportDefault.value.end));
    } else {
      range := b.AddCode(script.content);
    }
    if srcRange.Some? {
      SpansPrefix(c, b.code, srcRange.value, Quoted(script.src.value));
    }
  }

  /** The blocks part of the document: the plain script, then the generated setup code. */
  method WriteBlocks(b: CodeBuffer, script: Option<ScriptBlock>, hasSetup: bool, setupGen: Option<string>)
    returns (srcRange: Option<Range>, scriptRange: Option<Range>, setupRange: Option<Range>)
    requires b.code == ""
    modifies b
    ensures srcRange.Some? <==> script.Some? && HasSrc(script.value)
    ensures srcRange.Some? ==> Spans(b.code, srcRange.value, Quoted(script.value.src.value))
    ensures scriptRange.Some? <==> script.Some?
    ensures scriptRange.Some? ==> Spans(b.code, scriptRange.value, ScriptText(script.value, hasSetup))
    ensures setupRange.Some? <==> setupGen.Some?
    ensures setupRange.Some? ==> Spans(b.code, setupRange.value, setupGen.value)
    ensures setupRange.Some? ==> setupRange.value.start == SetupCodeStart(script, hasSetup)
  {
    srcRange, scriptRange, setupRange := None, None, None;
    if script.Some? {
      var range;
      srcRange, range := WriteScript(b, script.value, hasSetup);
      scriptRange := Some(range);
    }
    if setupGen.Some? {
      ghost var c := b.code;
      var range := b.AddCode(setupGen.value);
      setupRange := Some(range);
      if srcRange.Some? {
        SpansPrefix(c, b.code, srcRange.value, Quoted(script.value.src.value));
      }
      if scriptRange.Some? {
        SpansPrefix(c, b.code, scriptRange.value, ScriptText(script.value, hasSetup));
      }
    }
  }

  /** `...(options)`: the default-exported options object, or `{}`. */
  method WriteDefaultExport(b: CodeBuffer, script: Option<ScriptBlock>) returns (range: Option<DefaultExportRange>)
    modifies b
    ensures old(b.code) <= b.code
    ensures range.Some? <==> DefaultExportOf(script).Some?
    ensures range.Some? ==>
              var d := DefaultExportOf(script).value;
              range.value.partRange == Range(d.start, d.end) && range.value.tag == d.tag &&
              Spans(b.code, range.value.genRange, d.text)
  {
    b.Write("\n");
    b.Write("export const __VLS_options = {\n");
    b.Write("...(");
    var defaultExport := DefaultExportOf(script);
    range := None;
    if defaultExport.Some? {
      var genRange := b.AddCode(defaultExport.value.text);
      range := Some(DefaultExportRange(Range(defaultExport.value.start, defaultExport.value.end), genRange, defaultExport.value.tag));
    } else {
      b.Write("{}");
    }
    ghost var c := b.code;
    b.Write("),\n");
    if range.Some? {
      SpansPrefix(c, b.code, range.value.genRange, defaultExport.value.text);
    }
  }

  /** `open`, the block text of `part`, `),\n`, recording where the text went. */
  method WriteOption(b: CodeBuffer, content: string, part: Range, open: string) returns (range: PartRange)
    modifies b
    ensures old(b.code) <= b.code
    ensures range.partRange == part && Spans(b.code, range.genRange, JsSubstring(content, part.start, part.end))
  {
    b.Write(open);
    var text := JsSubstring(content, part.start, part.end);
    var genRange := b.AddCode(text);
    range := PartRange(part, genRange);
    ghost var c := b.code;
    b.Write("),\n");
    SpansPrefix(c, b.code, genRange, text);
  }

  /** The `props` options: from the argument, then (overriding it) from the type argument. */
  method WriteProps(b: CodeBuffer, setup: Option<SetupBlock>) returns (range: Option<PartRange>)
    modifies b
    ensures old(b.code) <= b.code
    ensures range.Some? <==> setup.Some? && PropsPart(setup.value.data.defineProps).Some?
    ensures range.Some? ==>
              var part := PropsPart(setup.value.data.defineProps).value;
              range.value.partRange == part && Spans(b.code, range.value.genRange, JsSubstring(setup.value.content, part.start, part.end))
  {
    range := None;
    if setup.Some? && ArgsOf(setup.value.data.defineProps).Some? {
      var r := WriteOption(b, setup.value.content, ArgsOf(setup.value.data.defineProps).value, "props: (");
      range := Some(r);
    }
    if setup.Some? && TypeArgsOf(setup.value.data.defineProps).Some? {
      var r := WriteOption(b, setup.value.content, TypeArgsOf(setup.value.data.defineProps).value, "props: ({} as ");
      range := Some(r);
    }
  }

  /** The `emits` option, from the argument of `defineEmit`. */
  method WriteEmits(b: CodeBuffer, setup: Option<SetupBlock>) returns (range: Option<PartRange>)
    modifies b
    ensures old(b.code) <= b.code
    ensures range.Some? <==> setup.Some? && ArgsOf(setup.value.data.defineEmit).Some?
    ensures range.Some? ==>
              var part := ArgsOf(setup.value.data.defineEmit).value;
              range.value.partRange == part && Spans(b.code, range.value.genRange, JsSubstring(setup.value.content, part.start, part.end))
  {
    range := None;
    if setup.Some? && ArgsOf(setup.value.data.defineEmit).Some? {
      var r := WriteOption(b, setup.value.content, ArgsOf(setup.value.data.defineEmit).value, "emits: (");
      range := Some(r);
    }
  }

  /** The options object that follows the blocks. */
  method WriteOptions(b: CodeBuffer, script: Option<ScriptBlock>, setup: Option<SetupBlock>)
    returns (defaultExportRange: Option<DefaultExportRange>, propsRange: Option<PartRange>, emitRange: Option<PartRange>)
    modifies b
    ensures old(b.code) <= b.code
    ensures defaultExportRange.Some? <==> DefaultExportOf(script).Some?
    ensures defaultExportRange.Some? ==>
              var d := DefaultExportOf(script).value;
              defaultExportRange.value.partRange == Range(d.start, d.end) && defaultExportRange.value.tag == d.tag &&
              Spans(b.code, defaultExportRange.value.genRange, d.text)
    ensures propsRange.Some? <==> setup.Some? && PropsPart(setup.value.data.defineProps).Some?
    ensures propsRange.Some? ==>
              var part := PropsPart(setup.value.data.defineProps).value;
              propsRange.value.partRange == part &&
              Spans(b.code, propsRange.value.genRange, JsSubstring(setup.value.content, part.start, part.end))
    ensures emitRange.Some? <==> setup.Some? && ArgsOf(setup.value.data.defineEmit).Some?
    ensures emitRange.Some? ==>
              var part := ArgsOf(setup.value.data.defineEmit).value;
              emitRange.value.partRange == part &&
              Spans(b.code, emitRange.value.genRange, JsSubstring(setup.value.content, part.start, part.end))
  {
    defaultExportRange := WriteDefaultExport(b, script);
    ghost var c1 := b.code;
    propsRange := WriteProps(b, setup);
    ghost var c2 := b.code;
    emitRange := WriteEmits(b, setup);
    ghost var c3 := b.code;
    b.Write("};\n");
    if defaultExportRange.Some? {
      PrefixTrans(c1, c2, c3);
      SpansPrefix(c1, b.code, defaultExportRange.value.genRange, DefaultExportOf(script).value.text);
    }
    if propsRange.Some? {
      var part := PropsPart(setup.value.data.defineProps).value;
      SpansPrefix(c2, b.code, propsRange.value.genRange, JsSubstring(setup.value.content, part.start, part.end));
    }
  }

  /** Every range `docGen` records holds the text it says it holds. */
  ghost predicate DocRangesHold(r: DocGenResult, script: Option<ScriptBlock>, setup: Option<SetupBlock>, setupGen: Option<string>) {
    && (r.scriptSrcRange.Some? ==>
          script.Some? && HasSrc(script.value) && Spans(r.code, r.scriptSrcRange.value, Quoted(script.value.src.value)))
    && (r.scriptRange.Some? ==> script.Some? && Spans(r.code, r.scriptRange.value, ScriptText(script.value, setup.Some?)))
    && (r.scriptSetupRange.Some? ==> setupGen.Some? && Spans(r.code, r.scriptSetupRange.value, setupGen.value))
    && (r.defaultExportRange.Some? ==>
          DefaultExportOf(script).Some? &&
          var d := DefaultExportOf(script).value;
          r.defaultExportRange.value.partRange == Range(d.start, d.end) && r.defaultExportRange.value.tag == d.tag &&
          Spans(r.code, r.defaultExportRange.value.genRange, d.text))
    && (r.definePropsRange.Some? ==>
          setup.Some? && PropsPart(setup.value.data.defineProps).Some? &&
          var part := PropsPart(setup.value.data.defineProps).value;
          r.definePropsRange.value.partRange == part &&
          Spans(r.code, r.definePropsRange.value.genRange, JsSubstring(setup.value.content, part.start, part.end)))
    && (r.defineEmitRange.Some? ==>
          setup.Some? && ArgsOf(setup.value.data.defineEmit).Some? &&
          var part := ArgsOf(setup.value.data.defineEmit).value;
          r.defineEmitRange.value.partRange == part &&
          Spans(r.code, r.defineEmitRange.value.genRange, JsSubstring(setup.value.content, part.start, part.end)))
  }

  /** Which ranges `docGen` records: one per piece present in the blocks. */
  predicate DocRangesPresent(r: DocGenResult, script: Option<ScriptBlock>, setup: Option<SetupBlock>, setupGen: Option<string>) {
    && (r.scriptSrcRange.Some? <==> script.Some? && HasSrc(script.value))
    && (r.scriptRange.Some? <==> script.Some?)
    && (r.scriptSetupRange.Some? <==> setupGen.Some?)
    && (r.defaultExportRange.Some? <==> DefaultExportOf(script).Some?)
    && (r.definePropsRange.Some? <==> setup.Some? && PropsPart(setup.value.data.defineProps).Some?)
    && (r.defineEmitRange.Some? <==> setup.Some? && ArgsOf(setup.value.data.defineEmit).Some?)
  }

  /**
   * `docGen`: the plain script (after the re-exports of its `src`), the
   * generated setup code, then an options object built from the default
   * export and the `defineProps`/`defineEmit` arguments. Nothing without
   * either block. `setupGen` is the generated setup code, present exactly
   * when there is a setup block.
   */
  method DocGen(script: Option<ScriptBlock>, setup: Option<SetupBlock>, setupGen: Option<string>) returns (r: Option<DocGenResult>)
    ensures r.None? <==> script.None? && setup.None?
    ensures r.Some? ==> DocRangesPresent(r.value, script, setup, setupGen) && DocRangesHold(r.value, script, setup, setupGen)
    ensures r.Some? && r.value.scriptSetupRange.Some? ==> r.value.scriptSetupRange.value.start == SetupCodeStart(script, setup.Some?)
  {
    if script.None? && setup.None? {
      return None;
    }
    var b := new CodeBuffer();
    var srcRange, scriptRange, setupRange := WriteBlocks(b, script, setup.Some?, setupGen);
    ghost var c := b.code;
    var defaultExportRange, propsRange, emitRange := WriteOptions(b, script, setup);
    if srcRange.Some? {
      SpansPrefix(c, b.code, srcRange.value, Quoted(script.value.src.value));
    }
    if scriptRange.Some? {
      SpansPrefix(c, b.code, scriptRange.value, ScriptText(script.value, setup.Some?));
    }
    if setupRange.Some? {
      SpansPrefix(c, b.code, setupRange.value, setupGen.value);
    }
    r := Some(DocGenResult(b.code, srcRange, scriptRange, setupRange, defaultExportRange, propsRange, emitRange));
  }
}
