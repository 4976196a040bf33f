/**
 * `genScriptSetup`: the virtual TypeScript module generated from a
 * `<script setup>` block. Text is appended to `genCode`; every piece that
 * stands for part of the block also records a mapping from the block range
 * to the generated range, and paired declarations record mirror ranges.
 */
module ScriptSetupGen {
  import opened Wrappers
  import opened SourceMaps
  import opened Text
  import opened Blanking
  import opened ScriptSetupData
  import opened ReferenceOrder

  /** One entry of the generator's `mappings`. */
  datatype GenMapping = GenMapping(
    isNoDollarRef: Option<bool>,
    capabilities: Capabilities,
    scriptSetupRange: Range,
    genRange: Range,
    mode: Mode)

  /** Two generated ranges holding the same variable under two spellings. */
  datatype Mirror = Mirror(left: Range, right: Range)

  /** The texts a mirror's two ranges hold. */
  datatype MirrorText = MirrorText(left: string, right: string)

  /** What `genScriptSetup` returns. */
  datatype GenResult = GenResult(data: SetupData, mappings: seq<GenMapping>, code: string, mirrors: seq<Mirror>)

  const Header := "\n/* <script setup> */\n"

  // Capability sets used by the generator (flags not listed are absent).

  /** basic, references, definitions, diagnostic, rename, completion, semanticTokens */
  const CopyCapabilities := Capabilities(true, true, true, true, false, true, true, true, false, false)
  /** completion, definitions, semanticTokens */
  const LeftCapabilities := Capabilities(false, false, true, false, false, false, true, true, false, false)
  /** diagnostic */
  const DiagnosticOnly := Capabilities(false, false, false, true, false, false, false, false, false, false)
  /** basic, references, definitions, rename */
  const DollarRefCapabilities := Capabilities(true, true, true, false, false, true, false, false, false, false)
  /** basic, references, rename, diagnostic */
  const LetCapabilities := Capabilities(true, true, false, true, false, true, false, false, false, false)
  /** basic, diagnostic */
  const DollarDeclCapabilities := Capabilities(true, false, false, true, false, false, false, false, false, false)

  // ---------------------------------------------------------------------------
  // What the recorded ranges promise

  /** The generated range of `m` holds `t`. */
  ghost predicate MappingSpans(g: string, m: GenMapping, t: string) {
    Spans(g, m.genRange, t)
  }

  /** Both ranges of `m` hold their texts. */
  ghost predicate MirrorSpans(g: string, m: Mirror, t: MirrorText) {
    Spans(g, m.left, t.left) && Spans(g, m.right, t.right)
  }

  /** Every mapping's generated range holds the text recorded for it. */
  ghost predicate MappingsSpan(g: string, ms: seq<GenMapping>, ts: seq<string>) {
    |ms| == |ts| && forall k {:trigger MappingSpans(g, ms[k], ts[k])} :: 0 <= k < |ms| ==> MappingSpans(g, ms[k], ts[k])
  }

  /** Every mirror's two ranges hold the recorded pair of texts. */
  ghost predicate MirrorsSpan(g: string, ms: seq<Mirror>, ts: seq<MirrorText>) {
    |ms| == |ts| && forall k {:trigger MirrorSpans(g, ms[k], ts[k])} :: 0 <= k < |ms| ==> MirrorSpans(g, ms[k], ts[k])
  }

  lemma MappingsSpanAppend(g: string, u: string, ms: seq<GenMapping>, ts: seq<string>)
    requires MappingsSpan(g, ms, ts)
    ensures MappingsSpan(g + u, ms, ts)
  {
    forall k | 0 <= k < |ms| ensures MappingSpans(g + u, ms[k], ts[k]) {
      assert MappingSpans(g, ms[k], ts[k]);
      SpansAppend(g, u, ms[k].genRange, ts[k]);
    }
  }

  lemma MirrorsSpanAppend(g: string, u: string, ms: seq<Mirror>, ts: seq<MirrorText>)
    requires MirrorsSpan(g, ms, ts)
    ensures MirrorsSpan(g + u, ms, ts)
  {
    forall k | 0 <= k < |ms| ensures MirrorSpans(g + u, ms[k], ts[k]) {
      assert MirrorSpans(g, ms[k], ts[k]);
      SpansAppend(g, u, ms[k].left, ts[k].left);
      SpansAppend(g, u, ms[k].right, ts[k].right);
    }
  }

  /** Adding one mapping whose range holds its text keeps every mapping spanned. */
  lemma MappingsSpanAdd(g: string, ms: seq<GenMapping>, ts: seq<string>, m: GenMapping, t: string)
    requires MappingsSpan(g, ms, ts) && MappingSpans(g, m, t)
    ensures MappingsSpan(g, ms + [m], ts + [t])
  {
    forall k | 0 <= k < |ms| + 1 ensures MappingSpans(g, (ms + [m])[k], (ts + [t])[k]) {
      if k < |ms| {
        assert (ms + [m])[k] == ms[k] && (ts + [t])[k] == ts[k];
        assert MappingSpans(g, ms[k], ts[k]);
      }
    }
  }

  /** Adding one mirror whose ranges hold their texts keeps every mirror spanned. */
  lemma MirrorsSpanAdd(g: string, ms: seq<Mirror>, ts: seq<MirrorText>, m: Mirror, t: MirrorText)
    requires MirrorsSpan(g, ms, ts) && MirrorSpans(g, m, t)
    ensures MirrorsSpan(g, ms + [m], ts + [t])
  {
    forall k | 0 <= k < |ms| + 1 ensures MirrorSpans(g, (ms + [m])[k], (ts + [t])[k]) {
      if k < |ms| {
        assert (ms + [m])[k] == ms[k] && (ts + [t])[k] == ts[k];
        assert MirrorSpans(g, ms[k], ts[k]);
      }
    }
  }

  /** Offset `i` of the block lies inside one of the import statements. */
  ghost predicate InImport(imports: seq<Range>, i: int) {
    exists j :: 0 <= j < |imports| && imports[j].start <= i < imports[j].end
  }

  /** Offset `i` of the block, when outside the import statements, appears unchanged in `t` at `i - off`. */
  ghost predicate KeptAt(orig: string, imports: seq<Range>, t: string, off: int, i: int) {
    0 <= i < |orig| && 0 <= i - off < |t| && !InImport(imports, i) ==> t[i - off] == orig[i]
  }

  /** `src` has the block's length and its text everywhere outside the import statements. */
  ghost predicate AgreesOutsideImports(orig: string, imports: seq<Range>, src: string) {
    |src| == |orig| &&
    forall i {:trigger KeptAt(orig, imports, src, 0, i)} :: KeptAt(orig, imports, src, 0, i)
  }

  /**
   * What a mapping promises about the block: its block range lies inside the
   * block, and a full-capability mapping is an equal-width `Offset` copy of
   * the block's text (exact everywhere outside the import statements).
   */
  ghost predicate MappingSound(orig: string, imports: seq<Range>, m: GenMapping, text: string) {
    && InBounds(m.scriptSetupRange, |orig|)
    && (m.capabilities == CopyCapabilities ==>
          && m.mode == Offset
          && |text| == m.scriptSetupRange.end - m.scriptSetupRange.start
          && forall i {:trigger KeptAt(orig, imports, text, m.scriptSetupRange.start, i)} ::
               KeptAt(orig, imports, text, m.scriptSetupRange.start, i))
  }

  ghost predicate AllSound(orig: string, imports: seq<Range>, ms: seq<GenMapping>, ts: seq<string>)
    requires |ms| == |ts|
  {
    forall k {:trigger MappingSound(orig, imports, ms[k], ts[k])} :: 0 <= k < |ms| ==> MappingSound(orig, imports, ms[k], ts[k])
  }

  /** The generated text of a use site of a label variable. */
  function Center(name: string, shorthand: bool): string {
    (if shorthand then name + ": " else "") + "$" + name + ".value"
  }

  /**
   * The generated text of the window [pos, end) of `src`: the gaps between
   * the use sites copied, each use site replaced by its `$name.value` form.
   */
  function SubText(src: string, refs: seq<InsideRef>, pos: int, end: int, shorthands: seq<Range>): string
    requires Chain(refs, pos, end) && 0 <= pos && end <= |src|
    decreases |refs|
  {
    if refs == [] then src[pos..end]
    else
      assert Chain(refs[1..], refs[0].end, end);
      src[pos..refs[0].start] + Center(refs[0].name, Range(refs[0].start, refs[0].end) in shorthands) +
        SubText(src, refs[1..], refs[0].end, end, shorthands)
  }

  /**
   * One step of the walk: if `whole` is what is written so far (`g`) followed
   * by the rest of the walk from the k-th use site, it is also `g`, the gap
   * and the rewritten use site, followed by the rest from the next one.
   */
  lemma SubTextStep(whole: string, g: string, src: string, refs: seq<InsideRef>, k: int, pos: int, end: int,
                    shorthands: seq<Range>)
    requires 0 <= k < |refs| && Chain(refs[k..], pos, end) && 0 <= pos && end <= |src|
    requires whole == g + SubText(src, refs[k..], pos, end, shorthands)
    ensures Chain(refs[k + 1..], refs[k].end, end)
    ensures pos <= refs[k].start <= refs[k].end <= end
    ensures whole == g + src[pos..refs[k].start] + Center(refs[k].name, Range(refs[k].start, refs[k].end) in shorthands) +
      SubText(src, refs[k + 1..], refs[k].end, end, shorthands)
  {
    assert refs[k..][1..] == refs[k + 1..];
  }

  /** The end of the walk: the last gap. */
  lemma SubTextLast(whole: string, g: string, src: string, refs: seq<InsideRef>, pos: int, end: int,
                    shorthands: seq<Range>)
    requires Chain(refs[|refs|..], pos, end) && 0 <= pos && end <= |src|
    requires whole == g + SubText(src, refs[|refs|..], pos, end, shorthands)
    ensures pos <= end && whole == g + src[pos..end]
  {
    assert refs[|refs|..] == [];
  }

  /** The mapping `writeText` records for the gap [pos, end) copied at `at`: full capabilities, equal widths. */
  function GapMapping(pos: int, end: int, at: int): GenMapping {
    GenMapping(None, CopyCapabilities, Range(pos, end), Range(at, at + end - pos), Offset)
  }

  /**
   * The mappings `writeCenter` records for use site `x` written at `at`: the
   * spelled-out name of a shorthand, then `In` over `$name.value` and
   * `Offset` over `$name`.
   */
  function CenterMappings(x: InsideRef, shorthand: bool, at: int): seq<GenMapping> {
    var r := Range(x.start, x.end);
    var p := if shorthand then at + |x.name| + 2 else at;
    (if shorthand then [GenMapping(None, DiagnosticOnly, r, Range(at, at + |x.name|), Offset)] else []) +
    [GenMapping(None, DiagnosticOnly, r, Range(p, p + |x.name| + 7), In),
     GenMapping(Some(true), DollarRefCapabilities, r, Range(p, p + |x.name| + 1), Offset)]
  }

  /**
   * The mappings of the window [pos, end) written at `at`: for each use site
   * the gap before it and the site's own mappings, then the last gap.
   */
  function SubMappings(refs: seq<InsideRef>, pos: int, end: int, shorthands: seq<Range>, at: int): seq<GenMapping>
    decreases |refs|
  {
    if refs == [] then [GapMapping(pos, end, at)]
    else
      var sh := Range(refs[0].start, refs[0].end) in shorthands;
      var c := at + (refs[0].start - pos);
      [GapMapping(pos, refs[0].start, at)] + CenterMappings(refs[0], sh, c) +
        SubMappings(refs[1..], refs[0].end, end, shorthands, c + |Center(refs[0].name, sh)|)
  }

  /**
   * The generated text `g` ends with the window [pos, |src|) through
   * `mapSubText` over the use sites `refs`, and the mappings `ms` end with
   * that window's mappings.
   */
  ghost predicate WindowAtEnd(g: string, ms: seq<GenMapping>, src: string, shorthands: seq<Range>, refs: seq<InsideRef>,
                              pos: int)
  {
    && 0 <= pos && Chain(refs, pos, |src|)
    && var tail := SubText(src, refs, pos, |src|, shorthands);
       var tailMs := SubMappings(refs, pos, |src|, shorthands, |g| - |tail|);
       && |tail| <= |g| && g[|g| - |tail|..] == tail
       && |tailMs| <= |ms| && ms[|ms| - |tailMs|..] == tailMs
  }

  /** Writing a window last, with its mappings, leaves it at the end. */
  lemma WindowAppended(g: string, ms: seq<GenMapping>, src: string, shorthands: seq<Range>, refs: seq<InsideRef>, pos: int)
    requires 0 <= pos && Chain(refs, pos, |src|)
    ensures WindowAtEnd(g + SubText(src, refs, pos, |src|, shorthands),
                        ms + SubMappings(refs, pos, |src|, shorthands, |g|), src, shorthands, refs, pos)
  {
    var tail := SubText(src, refs, pos, |src|, shorthands);
    SuffixOfAppend(g, tail);
    SuffixOfAppend(ms, SubMappings(refs, pos, |src|, shorthands, |g|));
  }

  /** One step of the walk, for the mappings: the gap's and the site's mappings, then the rest from the next site. */
  lemma SubMappingsStep(whole: seq<GenMapping>, ms: seq<GenMapping>, refs: seq<InsideRef>, k: int, pos: int, end: int,
                        shorthands: seq<Range>, at: int)
    requires 0 <= k < |refs| && Chain(refs[k..], pos, end)
    requires whole == ms + SubMappings(refs[k..], pos, end, shorthands, at)
    ensures var sh := Range(refs[k].start, refs[k].end) in shorthands;
            var c := at + (refs[k].start - pos);
            && Chain(refs[k + 1..], refs[k].end, end)
            && whole == ms + ([GapMapping(pos, refs[k].start, at)] + CenterMappings(refs[k], sh, c)) +
                 SubMappings(refs[k + 1..], refs[k].end, end, shorthands, c + |Center(refs[k].name, sh)|)
  {
    assert refs[k..][1..] == refs[k + 1..];
  }

  lemma AllSoundAppend(orig: string, imports: seq<Range>, ms: seq<GenMapping>, ts: seq<string>, m: GenMapping, t: string)
    requires |ms| == |ts| && AllSound(orig, imports, ms, ts) && MappingSound(orig, imports, m, t)
    ensures AllSound(orig, imports, ms + [m], ts + [t])
  {
    forall k | 0 <= k < |ms| + 1 ensures MappingSound(orig, imports, (ms + [m])[k], (ts + [t])[k]) {
      if k < |ms| {
        assert (ms + [m])[k] == ms[k] && (ts + [t])[k] == ts[k];
        assert MappingSound(orig, imports, ms[k], ts[k]);
      }
    }
  }

  /** Every mapping from index `from` on is gated to a range inside [lo, hi] of the block. */
  predicate SetupRangesWithin(ms: seq<GenMapping>, from: int, lo: int, hi: int) {
    forall j :: 0 <= from <= j < |ms| ==> lo <= ms[j].scriptSetupRange.start <= ms[j].scriptSetupRange.end <= hi
  }

  /** Mappings inside [lo, hi] followed by mappings inside a sub-range of it are all inside [lo, hi]. */
  lemma SetupRangesJoin(ms: seq<GenMapping>, ms': seq<GenMapping>, from: int, lo: int, hi: int, lo': int, hi': int)
    requires ms <= ms' && 0 <= from <= |ms| && lo <= lo' && hi' <= hi
    requires SetupRangesWithin(ms, from, lo, hi) && SetupRangesWithin(ms', |ms|, lo', hi')
    ensures SetupRangesWithin(ms', from, lo, hi)
  {
    forall j | from <= j < |ms'| ensures lo <= ms'[j].scriptSetupRange.start <= ms'[j].scriptSetupRange.end <= hi {
      if j < |ms| {
        assert ms'[j] == ms[j];
      }
    }
  }

  /** The `let` line's mapping of a left side: gated to it, for completion, definitions and semantic tokens. */
  predicate LetLeft(m: GenMapping, b: BinaryRecord) {
    m.scriptSetupRange == b.left && m.capabilities == LeftCapabilities && m.isNoDollarRef == Some(false) && m.mode == Offset
  }

  /** After `base`, the mappings are the `let` line's mappings of the first `n` left sides, in order. */
  predicate LetLefts(ms: seq<GenMapping>, base: int, bs: seq<BinaryRecord>, n: int) {
    && 0 <= base && 0 <= n <= |bs| && |ms| == base + n
    && forall k {:trigger bs[k]} :: 0 <= k < n ==> LetLeft(ms[base + k], bs[k])
  }

  lemma LetLeftsWhole(ms: seq<GenMapping>, base: int, bs: seq<BinaryRecord>, n: int)
    requires LetLefts(ms, base, bs, n)
    ensures base + n <= |ms| && LetLefts(ms[..base + n], base, bs, n)
  {
    assert ms[..base + n] == ms;
  }

  lemma LetLeftsStep(ms: seq<GenMapping>, base: int, bs: seq<BinaryRecord>, n: int, m: GenMapping)
    requires LetLefts(ms, base, bs, n) && n < |bs| && LetLeft(m, bs[n])
    ensures LetLefts(ms + [m], base, bs, n + 1)
  {
    forall k | 0 <= k < n + 1 ensures LetLeft((ms + [m])[base + k], bs[k]) {
      if k < n {
        assert (ms + [m])[base + k] == ms[base + k];
      }
    }
  }

  /** One declarator of a label's `let` line: `let ` or `, `, the left side as written, then ` = right` when there is one. */
  function LetPart(code: string, b: BinaryRecord, first: bool): string
    requires BinaryWellFormed(b, |code|)
  {
    (if first then "let " else ", ") + code[b.left.start..b.left.end] +
    (if b.right.Some? then " = " + code[b.right.value.start..b.right.value.end] else "")
  }

  /** The first `n` declarators of a label's `let` line. */
  function LetParts(code: string, bs: seq<BinaryRecord>, n: nat): string
    requires n <= |bs| && forall k :: 0 <= k < |bs| ==> BinaryWellFormed(bs[k], |code|)
  {
    if n == 0 then "" else LetParts(code, bs, n - 1) + LetPart(code, bs[n - 1], n == 1)
  }

  /** A label's `let` line: `{ let left = right, ...; }`. */
  function LetLineText(code: string, bs: seq<BinaryRecord>): string
    requires forall k :: 0 <= k < |bs| ==> BinaryWellFormed(bs[k], |code|)
  {
    "{ " + LetParts(code, bs, |bs|) + "; }\n"
  }

  /** Where the text since label `j - 1` starts in the block: the end of that label, or 0 for the first label. */
  function PrevEnd(ls: seq<LabelRecord>, j: int): int
    requires 0 <= j <= |ls|
  {
    if j == 0 then 0 else ls[j - 1].end
  }

  /** The block text from `pos` to label `l` through `mapSubText`, then the label's `let` line. */
  function LabelHead(src: string, code: string, shorthands: seq<Range>, refs: seq<InsideRef>, pos: int, l: LabelRecord): string
    requires 0 <= pos && Chain(refs, pos, l.start) && l.start <= |src| && LabelWellFormed(l, |code|)
  {
    SubText(src, refs, pos, l.start, shorthands) + LetLineText(code, l.binarys)
  }

  /**
   * At `at` the generated text `g` holds `head`; the mappings just before
   * `letAt` are `sub`, and from `letAt` on come the left sides of `bs` in order.
   */
  ghost predicate HeadPlaced(g: string, ms: seq<GenMapping>, head: string, sub: seq<GenMapping>, bs: seq<BinaryRecord>,
                             at: int, letAt: int)
  {
    && Spans(g, Range(at, at + |head|), head)
    && 0 <= letAt && letAt + |bs| <= |ms| && LetLefts(ms[..letAt + |bs|], letAt, bs, |bs|)
    && |sub| <= letAt && ms[letAt - |sub|..letAt] == sub
  }

  /** Text `t` and then `u` written after `g0`, mappings `sub` after `ms0` and then the left sides of `bs`. */
  lemma HeadPlacedIntro(g0: string, t: string, u: string, ms0: seq<GenMapping>, sub: seq<GenMapping>, ms: seq<GenMapping>,
                        bs: seq<BinaryRecord>)
    requires ms0 + sub <= ms && LetLefts(ms, |ms0 + sub|, bs, |bs|)
    ensures HeadPlaced(g0 + t + u, ms, t + u, sub, bs, |g0|, |ms0 + sub|)
  {
    SpansTailPair(g0, t, u);
    LetLeftsWhole(ms, |ms0 + sub|, bs, |bs|);
    SuffixBefore(ms0, sub, ms);
  }

  /** Writing more text and adding more mappings keeps a placed head. */
  lemma HeadPlacedGrow(g: string, g': string, ms: seq<GenMapping>, ms': seq<GenMapping>, head: string, sub: seq<GenMapping>,
                       bs: seq<BinaryRecord>, at: int, letAt: int)
    requires HeadPlaced(g, ms, head, sub, bs, at, letAt) && g <= g' && ms <= ms'
    ensures HeadPlaced(g', ms', head, sub, bs, at, letAt)
  {
    SpansPrefix(g, g', Range(at, at + |head|), head);
    assert ms'[..letAt + |bs|] == ms[..letAt + |bs|];
    assert ms'[letAt - |sub|..letAt] == ms[letAt - |sub|..letAt];
  }

  /**
   * What the generator writes for one label up to its `let` line: at `at`
   * the generated text holds the block text from `pos` to the label through
   * `mapSubText` (over the use sites `refs`), followed by the label's `let`
   * line; the mappings just before `letAt` are those of the window, and
   * from `letAt` on come that line's left sides in order.
   */
  ghost predicate LabelHeadAt(g: string, ms: seq<GenMapping>, src: string, code: string, shorthands: seq<Range>,
                              refs: seq<InsideRef>, pos: int, l: LabelRecord, at: int, letAt: int)
  {
    && 0 <= pos && Chain(refs, pos, l.start) && l.start <= |src| && LabelWellFormed(l, |code|)
    && HeadPlaced(g, ms, LabelHead(src, code, shorthands, refs, pos, l), SubMappings(refs, pos, l.start, shorthands, at),
                  l.binarys, at, letAt)
  }

  /**
   * A label's window written at the end of `g0` (giving `g1`, with its
   * mappings after `ms0` giving `m1`), then its `let` line, is what
   * `LabelHeadAt` describes.
   */
  lemma LabelHeadAtIntro(g0: string, g1: string, g: string, ms0: seq<GenMapping>, m1: seq<GenMapping>, ms: seq<GenMapping>,
                         src: string, code: string, shorthands: seq<Range>, refs: seq<InsideRef>, pos: int, l: LabelRecord)
    requires 0 <= pos && Chain(refs, pos, l.start) && l.start <= |src| && LabelWellFormed(l, |code|)
    requires g1 == g0 + SubText(src, refs, pos, l.start, shorthands) && g == g1 + LetLineText(code, l.binarys)
    requires m1 == ms0 + SubMappings(refs, pos, l.start, shorthands, |g0|)
    requires m1 <= ms && LetLefts(ms, |m1|, l.binarys, |l.binarys|)
    ensures LabelHeadAt(g, ms, src, code, shorthands, refs, pos, l, |g0|, |m1|)
  {
    HeadPlacedIntro(g0, SubText(src, refs, pos, l.start, shorthands), LetLineText(code, l.binarys),
                    ms0, SubMappings(refs, pos, l.start, shorthands, |g0|), ms, l.binarys);
  }

  /** Writing more text and adding more mappings keeps what a label's head promises. */
  lemma LabelHeadAtGrow(g: string, g': string, ms: seq<GenMapping>, ms': seq<GenMapping>, src: string, code: string,
                        shorthands: seq<Range>, refs: seq<InsideRef>, pos: int, l: LabelRecord, at: int, letAt: int)
    requires LabelHeadAt(g, ms, src, code, shorthands, refs, pos, l, at, letAt) && g <= g' && ms <= ms'
    ensures LabelHeadAt(g', ms', src, code, shorthands, refs, pos, l, at, letAt)
  {
    HeadPlacedGrow(g, g', ms, ms', LabelHead(src, code, shorthands, refs, pos, l),
                   SubMappings(refs, pos, l.start, shorthands, at), l.binarys, at, letAt);
  }

  /** The first `n` labels' heads are written as `LabelHeadAt` says, each after the end of the previous label. */
  ghost predicate LabelHeadsAt(g: string, ms: seq<GenMapping>, src: string, code: string, shorthands: seq<Range>,
                               ls: seq<LabelRecord>, refs: seq<seq<InsideRef>>, at: seq<int>, letAts: seq<int>, n: int)
  {
    && 0 <= n <= |ls| && |refs| == |at| == |letAts| == n
    && forall j :: 0 <= j < n ==> LabelHeadAt(g, ms, src, code, shorthands, refs[j], PrevEnd(ls, j), ls[j], at[j], letAts[j])
  }

  /** Writing more text and adding more mappings keeps every label's head. */
  lemma LabelHeadsAtGrow(g: string, g': string, ms: seq<GenMapping>, ms': seq<GenMapping>, src: string, code: string,
                         shorthands: seq<Range>, ls: seq<LabelRecord>, refs: seq<seq<InsideRef>>, at: seq<int>,
                         letAts: seq<int>, n: int)
    requires LabelHeadsAt(g, ms, src, code, shorthands, ls, refs, at, letAts, n) && g <= g' && ms <= ms'
    ensures LabelHeadsAt(g', ms', src, code, shorthands, ls, refs, at, letAts, n)
  {
    forall j | 0 <= j < n
      ensures LabelHeadAt(g', ms', src, code, shorthands, refs[j], PrevEnd(ls, j), ls[j], at[j], letAts[j])
    {
      LabelHeadAtGrow(g, g', ms, ms', src, code, shorthands, refs[j], PrevEnd(ls, j), ls[j], at[j], letAts[j]);
    }
  }

  /** One more label's head extends the written heads by one. */
  lemma LabelHeadsAtSnoc(g: string, ms: seq<GenMapping>, src: string, code: string, shorthands: seq<Range>,
                         ls: seq<LabelRecord>, refs: seq<seq<InsideRef>>, at: seq<int>, letAts: seq<int>, n: int,
                         r: seq<InsideRef>, a: int, letAt: int)
    requires LabelHeadsAt(g, ms, src, code, shorthands, ls, refs, at, letAts, n) && n < |ls|
    requires LabelHeadAt(g, ms, src, code, shorthands, r, PrevEnd(ls, n), ls[n], a, letAt)
    ensures LabelHeadsAt(g, ms, src, code, shorthands, ls, refs + [r], at + [a], letAts + [letAt], n + 1)
  {
    var refs', at', letAts' := refs + [r], at + [a], letAts + [letAt];
    forall j | 0 <= j < n + 1
      ensures LabelHeadAt(g, ms, src, code, shorthands, refs'[j], PrevEnd(ls, j), ls[j], at'[j], letAts'[j])
    {
      if j < n {
        assert refs'[j] == refs[j] && at'[j] == at[j] && letAts'[j] == letAts[j];
        assert LabelHeadAt(g, ms, src, code, shorthands, refs[j], PrevEnd(ls, j), ls[j], at[j], letAts[j]);
      } else {
        assert refs'[j] == r && at'[j] == a && letAts'[j] == letAt;
      }
    }
  }

  /** A mapping without the full capabilities promises only that its block range is in bounds. */
  lemma NotCopySound(orig: string, imports: seq<Range>, m: GenMapping, t: string)
    requires InBounds(m.scriptSetupRange, |orig|) && m.capabilities != CopyCapabilities
    ensures MappingSound(orig, imports, m, t)
  {
  }

  /** A verbatim copy of a range of the block is a sound full-capability mapping. */
  lemma CopySound(orig: string, imports: seq<Range>, r: Range, gen: Range)
    requires InBounds(r, |orig|)
    ensures MappingSound(orig, imports, GenMapping(None, CopyCapabilities, r, gen, Offset), orig[r.start..r.end])
  {
    forall i ensures KeptAt(orig, imports, orig[r.start..r.end], r.start, i) {
    }
  }

  /** After `$name.value` is written, the `In` mapping spans all of it and the `Offset` mapping its `$name` part. */
  lemma CenterSpans(g: string, name: string, ms: seq<GenMapping>, ts: seq<string>, inMap: GenMapping, dollarMap: GenMapping)
    requires MappingsSpan(g, ms, ts)
    requires inMap.genRange == Range(|g|, |g| + |name| + 7) && dollarMap.genRange == Range(|g|, |g| + |name| + 1)
    ensures MappingsSpan(g + ("$" + name + ".value"), ms + [inMap, dollarMap], ts + ["$" + name + ".value", "$" + name])
  {
    var u := "$" + name + ".value";
    MappingsSpanAppend(g, u, ms, ts);
    SpansTail(g, u);
    assert (g + u)[|g|..|g| + |name| + 1] == "$" + name;
    MappingsSpanAdd(g + u, ms, ts, inMap, u);
    MappingsSpanAdd(g + u, ms + [inMap], ts + [u], dollarMap, "$" + name);
    assert ms + [inMap, dollarMap] == ms + [inMap] + [dollarMap];
    assert ts + [u, "$" + name] == ts + [u] + ["$" + name];
  }

  /** The spans `$name.value` leaves behind, in the shapes the three steps that write it produce. */
  lemma DollarValueSpans(g: string, name: string, r: Range, ms: seq<GenMapping>, ts: seq<string>, mis: seq<Mirror>, mts: seq<MirrorText>)
    requires MappingsSpan(g, ms, ts) && MirrorsSpan(g, mis, mts)
    ensures MappingsSpan(g + ("$" + name) + ".value",
              ms + [GenMapping(None, DiagnosticOnly, r, Range(|g|, |g| + |"$" + name + ".value"|), In)] +
                   [GenMapping(Some(true), DollarRefCapabilities, r, Range(|g|, |g| + |"$" + name|), Offset)],
              ts + ["$" + name + ".value"] + ["$" + name])
    ensures MirrorsSpan(g + ("$" + name) + ".value", mis, mts)
  {
    var inMap := GenMapping(None, DiagnosticOnly, r, Range(|g|, |g| + |name| + 7), In);
    var dollarMap := GenMapping(Some(true), DollarRefCapabilities, r, Range(|g|, |g| + |name| + 1), Offset);
    CenterSpans(g, name, ms, ts, inMap, dollarMap);
    assert ms + [inMap] + [dollarMap] == ms + [inMap, dollarMap];
    assert ts + ["$" + name + ".value"] + ["$" + name] == ts + ["$" + name + ".value", "$" + name];
    ConcatAssoc(g, "$" + name, ".value");
    MirrorsSpanAppend(g, "$" + name + ".value", mis, mts);
  }

  /** A window with no use sites is copied verbatim, under one full-capability Offset mapping of its own width. */
  lemma SubTextWithoutUses(src: string, pos: int, end: int, shorthands: seq<Range>, at: int)
    requires 0 <= pos <= end <= |src|
    ensures SubText(src, [], pos, end, shorthands) == src[pos..end]
    ensures SubMappings([], pos, end, shorthands, at) ==
      [GenMapping(None, CopyCapabilities, Range(pos, end), Range(at, at + (end - pos)), Offset)]
  {
  }

  // ---------------------------------------------------------------------------
  // The import section

  /** Where the gap before import `j` starts: the end of the previous import, or the block start. */
  function GapStart(imports: seq<Range>, j: int): int
    requires 0 <= j <= |imports|
  {
    if j == 0 then 0 else imports[j - 1].end
  }

  /** The whitespace copy of [a, b): same offsets after the header, only the line breaks kept, no capability. */
  ghost predicate GapEntry(orig: string, a: int, b: int, m: GenMapping, t: string) {
    && 0 <= a <= b <= |orig|
    && m == GenMapping(None, NoCapabilities, Range(a, b), Range(|Header| + a, |Header| + b), Offset)
    && (NewLinesOnlyShape(orig); t == NewLinesOnly(orig)[a..b])
  }

  /** The verbatim copy of import `r`: same offsets after the header, full capabilities. */
  ghost predicate ImportEntry(orig: string, r: Range, m: GenMapping, t: string) {
    && InBounds(r, |orig|)
    && m == GenMapping(None, CopyCapabilities, r, Range(|Header| + r.start, |Header| + r.end), Offset)
    && t == orig[r.start..r.end]
  }

  ghost predicate ImportPair(orig: string, imports: seq<Range>, ms: seq<GenMapping>, ts: seq<string>, j: int)
    requires 0 <= j < |imports| && 2 * j + 1 < |ms| && |ts| == |ms|
  {
    GapEntry(orig, GapStart(imports, j), imports[j].start, ms[2 * j], ts[2 * j]) &&
    ImportEntry(orig, imports[j], ms[2 * j + 1], ts[2 * j + 1])
  }

  /** The first `n` gap/import pairs are in place. */
  ghost predicate PairsBefore(orig: string, imports: seq<Range>, ms: seq<GenMapping>, ts: seq<string>, n: int)
    requires 0 <= n <= |imports| && 2 * n <= |ms| && |ts| == |ms|
  {
    forall j {:trigger ImportPair(orig, imports, ms, ts, j)} :: 0 <= j < n ==> ImportPair(orig, imports, ms, ts, j)
  }

  /**
   * The first 2n+1 mappings are the import section: gap, import, gap, ...,
   * import, gap. Their block ranges tile the whole block in order, and each
   * one's generated range is its block range moved past the header.
   */
  ghost predicate ImportSection(orig: string, imports: seq<Range>, ms: seq<GenMapping>, ts: seq<string>) {
    && |ts| == |ms| && 2 * |imports| + 1 <= |ms|
    && PairsBefore(orig, imports, ms, ts, |imports|)
    && GapEntry(orig, GapStart(imports, |imports|), |orig|, ms[2 * |imports|], ts[2 * |imports|])
  }

  /** The first `n` imports are blanked in `src`. */
  ghost predicate BlankedBefore(imports: seq<Range>, src: string, n: int)
    requires 0 <= n <= |imports|
  {
    forall j {:trigger BlankedAt(imports, src, j)} :: 0 <= j < n ==> BlankedAt(imports, src, j)
  }

  /** Import `j` of the working copy holds what blanking puts there. */
  ghost predicate BlankedAt(imports: seq<Range>, src: string, j: int)
    requires 0 <= j < |imports|
  {
    0 <= imports[j].start <= imports[j].end <= |src| &&
    src[imports[j].start..imports[j].end] == EmptyFill(imports[j].end - imports[j].start)
  }

  /** Where the gap before import `i` starts and where the next one starts. */
  lemma GapStep(orig: string, imports: seq<Range>, i: int)
    requires ImportsWellFormed(orig, imports) && 0 <= i < |imports|
    ensures InBounds(imports[i], |orig|) && 0 <= GapStart(imports, i) <= imports[i].start
    ensures GapStart(imports, i + 1) == imports[i].end <= |orig|
  {
    if i > 0 {
      assert InBounds(imports[i - 1], |orig|);
    }
  }

  /** Later mappings do not disturb the import section. */
  lemma ImportSectionPrefix(orig: string, imports: seq<Range>, ms: seq<GenMapping>, ts: seq<string>,
                            ms': seq<GenMapping>, ts': seq<string>)
    requires ImportSection(orig, imports, ms, ts) && ms <= ms' && ts <= ts' && |ms'| == |ts'|
    ensures ImportSection(orig, imports, ms', ts')
  {
    forall j | 0 <= j < |imports| ensures ImportPair(orig, imports, ms', ts', j) {
      assert ImportPair(orig, imports, ms, ts, j);
      assert ms'[2 * j] == ms[2 * j] && ms'[2 * j + 1] == ms[2 * j + 1];
      assert ts'[2 * j] == ts[2 * j] && ts'[2 * j + 1] == ts[2 * j + 1];
    }
    assert ms'[2 * |imports|] == ms[2 * |imports|] && ts'[2 * |imports|] == ts[2 * |imports|];
  }

  /** Later mappings do not disturb the first `n` gap/import pairs, and pair `n` may join them. */
  lemma ImportPairsPrefix(orig: string, imports: seq<Range>, ms: seq<GenMapping>, ts: seq<string>,
                          ms': seq<GenMapping>, ts': seq<string>, n: int)
    requires 0 <= n <= |imports| && 2 * n <= |ms| && |ms| == |ts| && ms <= ms' && ts <= ts' && |ms'| == |ts'|
    requires PairsBefore(orig, imports, ms, ts, n)
    ensures PairsBefore(orig, imports, ms', ts', n)
    ensures n < |imports| && 2 * n + 1 < |ms'| && ImportPair(orig, imports, ms', ts', n) ==>
              PairsBefore(orig, imports, ms', ts', n + 1)
  {
    forall j | 0 <= j < n ensures ImportPair(orig, imports, ms', ts', j) {
      assert ImportPair(orig, imports, ms, ts, j);
      assert ms'[2 * j] == ms[2 * j] && ms'[2 * j + 1] == ms[2 * j + 1];
      assert ts'[2 * j] == ts[2 * j] && ts'[2 * j + 1] == ts[2 * j + 1];
    }
  }

  /**
   * Blanking import `i` leaves the blanked earlier imports as they were and
   * the text after it untouched.
   */
  lemma BlankKeepsEarlier(orig: string, src: string, src': string, imports: seq<Range>, i: int)
    requires ImportsWellFormed(orig, imports) && 0 <= i < |imports| && |src| == |orig|
    requires src' == src[..imports[i].start] + EmptyFill(imports[i].end - imports[i].start) + src[imports[i].end..]
    requires BlankedBefore(imports, src, i)
    ensures |src'| == |src| && BlankedBefore(imports, src', i + 1)
  {
    var r := imports[i];
    assert InBounds(r, |orig|);
    BlankSpan(src, src', r);
    forall j | 0 <= j < i
      ensures BlankedAt(imports, src', j)
    {
      assert BlankedAt(imports, src, j);
      BlankKeepsOne(orig, src, src', imports, i, j);
    }
  }

  /** Blanking import `i` leaves an earlier import `j` as it was. */
  lemma BlankKeepsOne(orig: string, src: string, src': string, imports: seq<Range>, i: int, j: int)
    requires ImportsWellFormed(orig, imports) && 0 <= j < i < |imports| && |src| == |orig|
    requires src' == src[..imports[i].start] + EmptyFill(imports[i].end - imports[i].start) + src[imports[i].end..]
    requires BlankedAt(imports, src, j)
    ensures BlankedAt(imports, src', j)
  {
    assert InBounds(imports[i], |orig|) && InBounds(imports[j], |orig|);
    if j < i - 1 {
      SortedApartOrdered(imports, |orig|, j, i - 1);
    }
    assert imports[i - 1].end <= imports[i].start;
    BlankBeforeKept(src, src', imports[i], imports[j]);
  }

  /** Blanking an import keeps the working copy equal to the block outside the imports. */
  lemma BlankKeepsAgreement(orig: string, imports: seq<Range>, src: string, src': string, i: int)
    requires 0 <= i < |imports| && InBounds(imports[i], |src|)
    requires AgreesOutsideImports(orig, imports, src)
    requires src' == src[..imports[i].start] + EmptyFill(imports[i].end - imports[i].start) + src[imports[i].end..]
    ensures AgreesOutsideImports(orig, imports, src')
  {
    var r := imports[i];
    forall p ensures KeptAt(orig, imports, src', 0, p) {
      assert KeptAt(orig, imports, src, 0, p);
      if 0 <= p < |orig| && !InImport(imports, p) {
        assert !(r.start <= p < r.end);
        assert src'[p] == src[p];
      }
    }
  }

  /** Blanking `r` puts its fill in `r` and keeps the length. */
  lemma BlankSpan(src: string, src': string, r: Range)
    requires 0 <= r.start <= r.end <= |src|
    requires src' == src[..r.start] + EmptyFill(r.end - r.start) + src[r.end..]
    ensures |src'| == |src| && src'[r.start..r.end] == EmptyFill(r.end - r.start)
  {
  }

  /** Blanking `r` does not touch a span that ends before it. */
  lemma BlankBeforeKept(src: string, src': string, r: Range, q: Range)
    requires 0 <= q.start <= q.end <= r.start <= r.end <= |src|
    requires src' == src[..r.start] + EmptyFill(r.end - r.start) + src[r.end..]
    ensures src'[q.start..q.end] == src[q.start..q.end]
  {
    assert src'[..r.start] == src[..r.start];
  }

  /** Sorted, non-overlapping imports are ordered pairwise, not only neighbour by neighbour. */
  lemma {:induction false} SortedApartOrdered(rs: seq<Range>, n: int, j: int, k: int)
    requires forall i :: 0 <= i < |rs| ==> InBounds(rs[i], n)
    requires SortedApart(rs) && 0 <= j < k < |rs|
    ensures rs[j].end <= rs[k].start
    decreases k - j
  {
    if j + 1 < k {
      SortedApartOrdered(rs, n, j + 1, k);
    }
  }

  /** Between two neighbouring imports (or before the first, or after the last) no import covers `i`. */
  lemma GapIsOutsideImports(orig: string, imports: seq<Range>, j: int, i: int)
    requires (forall r :: 0 <= r < |imports| ==> InBounds(imports[r], |orig|)) && SortedApart(imports)
    requires 0 <= j <= |imports| && GapStart(imports, j) <= i && (j < |imports| ==> i < imports[j].start)
    ensures !InImport(imports, i)
  {
    forall r | 0 <= r < |imports| ensures !(imports[r].start <= i < imports[r].end) {
      if r < j - 1 {
        SortedApartOrdered(imports, |orig|, r, j - 1);
      } else if r > j {
        SortedApartOrdered(imports, |orig|, j, r);
      }
    }
  }

  /** What a spanned gap or import entry puts at offset `i` of the block. */
  lemma EntryView(orig: string, code: string, a: int, b: int, m: GenMapping, t: string, i: int, isImport: bool)
    requires isImport ==> ImportEntry(orig, Range(a, b), m, t)
    requires !isImport ==> GapEntry(orig, a, b, m, t)
    requires MappingSpans(code, m, t) && a <= i < b
    ensures |Header| + i < |code| && 0 <= i < |orig|
    ensures code[|Header| + i] == if isImport then orig[i] else if orig[i] == '\n' then '\n' else ' '
  {
    SpannedAt(code, Range(|Header| + a, |Header| + b), t, i - a);
    if !isImport {
      NewLinesOnlyShape(orig);
      assert t[i - a] == NewLinesOnly(orig)[i];
    }
  }

  /** The `k`-th character of a spanned text sits at the range's start plus `k`. */
  lemma SpannedAt(code: string, r: Range, t: string, k: int)
    requires Spans(code, r, t) && 0 <= k < |t|
    ensures r.start + k < |code| && code[r.start + k] == t[k]
  {
    assert code[r.start..r.end][k] == t[k];
  }

  /**
   * The import section read back from the generated text: after the header,
   * offset `i` of the block holds the block's own character inside an import
   * statement, and elsewhere a line break where the block has one and a space
   * otherwise.
   */
  lemma {:induction false} ImportSectionView(orig: string, imports: seq<Range>, ms: seq<GenMapping>, ts: seq<string>,
                                             code: string, i: int, j: int)
    requires (forall r :: 0 <= r < |imports| ==> InBounds(imports[r], |orig|)) && SortedApart(imports)
    requires ImportSection(orig, imports, ms, ts) && MappingsSpan(code, ms, ts)
    requires 0 <= j <= |imports| && 0 <= GapStart(imports, j) <= i < |orig|
    ensures |Header| + i < |code|
    ensures code[|Header| + i] == if InImport(imports, i) then orig[i] else if orig[i] == '\n' then '\n' else ' '
    decreases |imports| - j
  {
    if j == |imports| || i < imports[j].start {
      var b := if j == |imports| then |orig| else imports[j].start;
      if j < |imports| {
        assert ImportPair(orig, imports, ms, ts, j);
      }
      assert MappingSpans(code, ms[2 * j], ts[2 * j]);
      EntryView(orig, code, GapStart(imports, j), b, ms[2 * j], ts[2 * j], i, false);
      GapIsOutsideImports(orig, imports, j, i);
    } else if i < imports[j].end {
      assert ImportPair(orig, imports, ms, ts, j);
      assert MappingSpans(code, ms[2 * j + 1], ts[2 * j + 1]);
      EntryView(orig, code, imports[j].start, imports[j].end, ms[2 * j + 1], ts[2 * j + 1], i, true);
      assert InImport(imports, i);
    } else {
      ImportSectionView(orig, imports, ms, ts, code, i, j + 1);
    }
  }

  // ---------------------------------------------------------------------------
  // Collecting the use sites of a window

  /** The use sites of one variable lying wholly inside [start, end). */
  method VarUses(v: LabelVar, start: int, end: int) returns (found: seq<InsideRef>)
    ensures found == Filter(TagRefs(v.references, v.text), start, end)
  {
    found := [];
    for ri := 0 to |v.references|
      invariant found == Filter(TagRefs(v.references[..ri], v.text), start, end)
    {
      var reference := v.references[ri];
      var x := InsideRef(reference.start, reference.end, v.text);
      VarUsesStep(v.references, ri, v.text, start, end);
      if reference.start >= start && reference.end <= end {
        found := found + [x];
      }
    }
    assert v.references[..|v.references|] == v.references;
  }

  lemma VarUsesStep(rs: seq<Range>, ri: int, name: string, start: int, end: int)
    requires 0 <= ri < |rs|
    ensures var x := InsideRef(rs[ri].start, rs[ri].end, name);
            Filter(TagRefs(rs[..ri + 1], name), start, end) ==
              Filter(TagRefs(rs[..ri], name), start, end) + if IsInside(x, start, end) then [x] else []
  {
    TagRefsStep(rs, ri, name);
    FilterSnoc(TagRefs(rs[..ri], name), InsideRef(rs[ri].start, rs[ri].end, name), start, end);
  }

  lemma TagRefsStep(rs: seq<Range>, ri: int, name: string)
    requires 0 <= ri < |rs|
    ensures TagRefs(rs[..ri + 1], name) == TagRefs(rs[..ri], name) + [InsideRef(rs[ri].start, rs[ri].end, name)]
  {
    assert TagRefs(rs[..ri + 1], name) == TagRefs(rs[..ri], name) + [InsideRef(rs[ri].start, rs[ri].end, name)];
  }

  lemma FilterSnoc(xs: seq<InsideRef>, x: InsideRef, start: int, end: int)
    ensures Filter(xs + [x], start, end) == Filter(xs, start, end) + if IsInside(x, start, end) then [x] else []
  {
    assert (xs + [x])[..|xs|] == xs;
  }

  lemma CollectStep(vs: seq<LabelVar>, v: LabelVar, start: int, end: int)
    ensures Filter(Tagged(vs + [v]), start, end) ==
            Filter(Tagged(vs), start, end) + Filter(TagRefs(v.references, v.text), start, end)
  {
    assert (vs + [v])[..|vs|] == vs;
    FilterAppend(Tagged(vs), TagRefs(v.references, v.text), start, end);
  }

  lemma {:induction false} TaggedAppend(a: seq<LabelVar>, b: seq<LabelVar>)
    ensures Tagged(a + b) == Tagged(a) + Tagged(b)
    decreases |b|
  {
    if b == [] {
      assert a + b == a;
    } else {
      var b', v := b[..|b| - 1], b[|b| - 1];
      var t := TagRefs(v.references, v.text);
      TaggedAppend(a, b');
      assert (a + b)[..|a + b| - 1] == a + b' && (a + b)[|a + b| - 1] == v;
      assert Tagged(a + b) == Tagged(a + b') + t;
      ConcatAssoc(Tagged(a), Tagged(b'), t);
    }
  }

  /** The use sites of two runs of variables are those of the first, then those of the second. */
  lemma UsesAppend(a: seq<LabelVar>, b: seq<LabelVar>, start: int, end: int)
    ensures Filter(Tagged(a + b), start, end) == Filter(Tagged(a), start, end) + Filter(Tagged(b), start, end)
  {
    TaggedAppend(a, b);
    FilterAppend(Tagged(a), Tagged(b), start, end);
  }

  /** The use sites of a run of variables lying wholly inside [start, end). */
  method VarsUses(vs: seq<LabelVar>, start: int, end: int) returns (found: seq<InsideRef>)
    ensures found == Filter(Tagged(vs), start, end)
  {
    found := [];
    for vi := 0 to |vs|
      invariant found == Filter(Tagged(vs[..vi]), start, end)
    {
      var uses := VarUses(vs[vi], start, end);
      CollectStep(vs[..vi], vs[vi], start, end);
      assert vs[..vi + 1] == vs[..vi] + [vs[vi]];
      found := found + uses;
    }
    assert vs[..|vs|] == vs;
  }

  /** The use sites of the variables of a run of decompositions lying wholly inside [start, end). */
  method BinarysUses(bs: seq<BinaryRecord>, start: int, end: int) returns (found: seq<InsideRef>)
    ensures found == Filter(Tagged(BinaryVars(bs)), start, end)
  {
    found := [];
    for bi := 0 to |bs|
      invariant found == Filter(Tagged(BinaryVars(bs[..bi])), start, end)
    {
      var uses := VarsUses(bs[bi].vars, start, end);
      BinaryVarsStep(bs, bi);
      UsesAppend(BinaryVars(bs[..bi]), bs[bi].vars, start, end);
      found := found + uses;
    }
    assert bs[..|bs|] == bs;
  }

  // ---------------------------------------------------------------------------
  // The component options

  /** The block text of an optional range, as a list of zero or one piece. */
  function PieceOf(code: string, r: Option<Range>): (pieces: seq<string>)
    requires r.Some? ==> InBounds(r.value, |code|)
    ensures |pieces| <= 1 && (|pieces| == 1 <==> r.Some?)
    ensures r.Some? ==> pieces[0] == code[r.value.start..r.value.end]
  {
    if r.Some? then [code[r.value.start..r.value.end]] else []
  }

  /** The text written for an optional component option: `open`, the block text of the range, then `close`; nothing without a range. */
  function OptionText(code: string, r: Option<Range>, open: string, close: string): (t: string)
    requires r.Some? ==> InBounds(r.value, |code|)
    ensures r.None? ==> t == []
    ensures r.Some? ==> |t| == |open| + (r.value.end - r.value.start) + |close|
  {
    if r.Some? then open + code[r.value.start..r.value.end] + close else []
  }

  /**
   * The mapping recorded for an optional component option whose block text
   * is written at `at`: the option's range in the block to the same width
   * at `at`, by offset; none without a range.
   */
  function OptionMapping(r: Option<Range>, at: int, capabilities: Capabilities): (ms: seq<GenMapping>)
    ensures |ms| <= 1 && (|ms| == 1 <==> r.Some?)
    ensures r.Some? ==> ms[0].scriptSetupRange == r.value && ms[0].genRange.start == at &&
                        ms[0].genRange.end - ms[0].genRange.start == r.value.end - r.value.start
  {
    if r.Some? then [GenMapping(None, capabilities, r.value, Range(at, at + r.value.end - r.value.start), Offset)] else []
  }

  const ComponentHead := "\nexport default (await import('__VLS_vue')).defineComponent({\n"
  const PropsTypeOpen := "props: ({} as __VLS_DefinePropsToOptions<"
  const EmitsTypeOpen := "emits: ({} as __VLS_ConstructorOverloads<"
  const TypeClose := ">),\n"
  const PropsOpen := "props: "
  const EmitsOpen := "emits: "
  const ArgClose := ",\n"
  const SetupHead := "async setup() {\n"

  /** The `props` and `emits` type-argument options, in that order. */
  function TypeOptionsText(code: string, data: SetupData): string
    requires MacroWellFormed(code, data.defineProps) && MacroWellFormed(code, data.defineEmit)
  {
    OptionText(code, TypeArgsOf(data.defineProps), PropsTypeOpen, TypeClose) +
    OptionText(code, TypeArgsOf(data.defineEmit), EmitsTypeOpen, TypeClose)
  }

  /** The mappings of the type-argument options written at `at`: no capability, from the type arguments. */
  function TypeOptionsMappings(code: string, data: SetupData, at: int): seq<GenMapping>
    requires MacroWellFormed(code, data.defineProps) && MacroWellFormed(code, data.defineEmit)
  {
    OptionMapping(TypeArgsOf(data.defineProps), at + |PropsTypeOpen|, NoCapabilities) +
    OptionMapping(TypeArgsOf(data.defineEmit),
                  at + |OptionText(code, TypeArgsOf(data.defineProps), PropsTypeOpen, TypeClose)| + |EmitsTypeOpen|, NoCapabilities)
  }

  /** The `props` and `emits` argument options, in that order. */
  function ArgOptionsText(code: string, data: SetupData): string
    requires MacroWellFormed(code, data.defineProps) && MacroWellFormed(code, data.defineEmit)
  {
    OptionText(code, ArgsOf(data.defineProps), PropsOpen, ArgClose) +
    OptionText(code, ArgsOf(data.defineEmit), EmitsOpen, ArgClose)
  }

  /** The mappings of the argument options written at `at`: full capabilities, from the arguments. */
  function ArgOptionsMappings(code: string, data: SetupData, at: int): seq<GenMapping>
    requires MacroWellFormed(code, data.defineProps) && MacroWellFormed(code, data.defineEmit)
  {
    OptionMapping(ArgsOf(data.defineProps), at + |PropsOpen|, CopyCapabilities) +
    OptionMapping(ArgsOf(data.defineEmit),
                  at + |OptionText(code, ArgsOf(data.defineProps), PropsOpen, ArgClose)| + |EmitsOpen|, CopyCapabilities)
  }

  // ---------------------------------------------------------------------------
  // The `const` line's left sides

  /** `__VLS_refs_name`: what the generated code calls the value a label variable is assigned. */
  function RefsName(v: LabelVar): string {
    "__VLS_refs_" + v.text
  }

  /** A bound variable in the `const` line: its reference, a shorthand property first spelling out `name: `. */
  function VarRefText(v: LabelVar): string {
    (if v.isShorthand then v.text + ": " else "") + RefsName(v)
  }

  /**
   * The mappings of a bound variable written at `at`, both to the variable
   * and for diagnostics only: the spelled-out name of a shorthand property
   * (Offset), then the reference (Gate).
   */
  function VarRefMappings(v: LabelVar, at: int): seq<GenMapping> {
    var refsAt := if v.isShorthand then at + |v.text| + 2 else at;
    (if v.isShorthand then [GenMapping(Some(false), DiagnosticOnly, VarRange(v), Range(at, at + |v.text|), Offset)] else []) +
    [GenMapping(Some(false), DiagnosticOnly, VarRange(v), Range(refsAt, refsAt + |RefsName(v)|), Gate)]
  }

  /** Where the text before variable `n` of a decomposition starts: the end of variable `n - 1`, or the left side's start. */
  function PrevVarEnd(b: BinaryRecord, n: int): (pos: int)
    requires 0 <= n <= |b.vars|
  {
    if n == 0 then b.left.start else b.vars[n - 1].end
  }

  lemma PrevVarEndBefore(b: BinaryRecord, n: int, len: int)
    requires BinaryWellFormed(b, len) && 0 <= n <= |b.vars|
    ensures b.left.start <= PrevVarEnd(b, n) <= (if n < |b.vars| then b.vars[n].start else b.left.end) <= b.left.end
  {
    if 0 < n < |b.vars| {
      assert b.vars[n - 1].end <= b.vars[n].start;
    }
  }

  /** The left side of a decomposition up to its variable `n`, each variable before it written as its reference. */
  function RenamedVars(code: string, b: BinaryRecord, n: nat): string
    requires BinaryWellFormed(b, |code|) && n <= |b.vars|
  {
    if n == 0 then ""
    else
      PrevVarEndBefore(b, n - 1, |code|);
      RenamedVars(code, b, n - 1) + code[PrevVarEnd(b, n - 1)..b.vars[n - 1].start] + VarRefText(b.vars[n - 1])
  }

  /** The mappings of `RenamedVars(code, b, n)` written at `at`. */
  function RenamedVarsMappings(code: string, b: BinaryRecord, n: nat, at: int): seq<GenMapping>
    requires BinaryWellFormed(b, |code|) && n <= |b.vars|
  {
    if n == 0 then []
    else
      PrevVarEndBefore(b, n - 1, |code|);
      RenamedVarsMappings(code, b, n - 1, at) +
      VarRefMappings(b.vars[n - 1], at + |RenamedVars(code, b, n - 1) + code[PrevVarEnd(b, n - 1)..b.vars[n - 1].start]|)
  }

  /** One more variable of a renamed left side: the text before it, then its reference and that reference's mappings. */
  lemma RenamedVarsStep(code: string, b: BinaryRecord, n: nat, at: int)
    requires BinaryWellFormed(b, |code|) && n < |b.vars|
    ensures b.left.start <= PrevVarEnd(b, n) <= b.vars[n].start
    ensures var before := code[PrevVarEnd(b, n)..b.vars[n].start];
            && RenamedVars(code, b, n + 1) == RenamedVars(code, b, n) + before + VarRefText(b.vars[n])
            && RenamedVarsMappings(code, b, n + 1, at) ==
               RenamedVarsMappings(code, b, n, at) + VarRefMappings(b.vars[n], at + |RenamedVars(code, b, n)| + |before|)
  {
    PrevVarEndBefore(b, n, |code|);
  }

  /** A decomposition's left side with every bound variable written as its reference. */
  function RenamedLeft(code: string, b: BinaryRecord): string
    requires BinaryWellFormed(b, |code|)
  {
    PrevVarEndBefore(b, |b.vars|, |code|);
    RenamedVars(code, b, |b.vars|) + code[PrevVarEnd(b, |b.vars|)..b.left.end]
  }

  /**
   * Every mapping of a renamed left side points at one of its variables,
   * inside the left side, and serves diagnostics only: the renamed left
   * side gives no hover, rename or completion of its own.
   */
  lemma {:induction false} RenamedVarsMappingsWithin(code: string, b: BinaryRecord, n: nat, at: int)
    requires BinaryWellFormed(b, |code|) && n <= |b.vars|
    ensures forall m <- RenamedVarsMappings(code, b, n, at) ::
              && m.capabilities == DiagnosticOnly && m.isNoDollarRef == Some(false)
              && b.left.start <= m.scriptSetupRange.start <= m.scriptSetupRange.end <= b.left.end
  {
    if n > 0 {
      RenamedVarsMappingsWithin(code, b, n - 1, at);
      var v := b.vars[n - 1];
      assert b.left.start <= v.start <= v.end <= b.left.end;
    }
  }

  // ---------------------------------------------------------------------------
  // The declarations of label variables

  const UnrefOpen := " = (await import('__VLS_vue')).unref("
  const RefOpen := " = (await import('__VLS_vue')).ref("

  /** `let name = unref(__VLS_refs_name); name;` */
  function LetDeclText(v: LabelVar): string {
    "let " + v.text + UnrefOpen + RefsName(v) + ("); " + v.text + ";\n")
  }

  /** `const $name = ref(__VLS_refs_name); $name;` */
  function DollarDeclText(v: LabelVar): string {
    "const " + ("$" + v.text) + RefOpen + RefsName(v) + ("); $" + v.text + ";\n")
  }

  /** The operand `__VLS_refs_name` written at `at` maps, with no capability, to the right side when there is one. */
  function OperandMappings(v: LabelVar, right: Option<RightExpr>, at: int): seq<GenMapping> {
    if right.Some? then [GenMapping(Some(false), NoCapabilities, RightRange(right.value), Range(at, at + |RefsName(v)|), Offset)]
    else []
  }

  /** The lengths of `UnrefOpen` and `RefOpen`, and of `LetDeclText(v)` and `DollarDeclText(v)` (see `DeclWidths`). */
  const UnrefOpenWidth := 37
  const RefOpenWidth := 35

  function LetDeclWidth(v: LabelVar): int {
    3 * |v.text| + 57
  }

  function DollarDeclWidth(v: LabelVar): int {
    3 * |v.text| + 59
  }

  lemma DeclWidths(v: LabelVar)
    ensures |UnrefOpen| == UnrefOpenWidth && |RefOpen| == RefOpenWidth
    ensures |LetDeclText(v)| == LetDeclWidth(v) && |DollarDeclText(v)| == DollarDeclWidth(v)
  {
  }

  /** Writing the pieces of `LetDeclText(v)` one after the other writes it. */
  lemma LetDeclAssoc(g: string, v: LabelVar)
    ensures g + "let " + v.text + UnrefOpen + RefsName(v) + ("); " + v.text + ";\n") == g + LetDeclText(v)
  {
    var a, b, c, d, e := "let ", v.text, UnrefOpen, RefsName(v), "); " + v.text + ";\n";
    ConcatAssoc(g, a, b);
    ConcatAssoc(g, a + b, c);
    ConcatAssoc(g, a + b + c, d);
    ConcatAssoc(g, a + b + c + d, e);
  }

  lemma DollarDeclAssoc(g: string, v: LabelVar)
    ensures g + "const " + ("$" + v.text) + RefOpen + RefsName(v) + ("); $" + v.text + ";\n") == g + DollarDeclText(v)
  {
    var a, b, c, d, e := "const ", "$" + v.text, RefOpen, RefsName(v), "); $" + v.text + ";\n";
    ConcatAssoc(g, a, b);
    ConcatAssoc(g, a + b, c);
    ConcatAssoc(g, a + b + c, d);
    ConcatAssoc(g, a + b + c + d, e);
  }

  /** The mappings of `LetDeclText(v)` written at `at`: the declared name to the variable, then the operand. */
  function LetDeclMappings(v: LabelVar, right: Option<RightExpr>, at: int): seq<GenMapping> {
    [GenMapping(Some(true), LetCapabilities, VarRange(v), Range(at + 4, at + 4 + |v.text|), Offset)] +
    OperandMappings(v, right, at + 4 + |v.text| + UnrefOpenWidth)
  }

  /** The mappings of `DollarDeclText(v)` written at `at`: `$name` to the variable, then the operand. */
  function DollarDeclMappings(v: LabelVar, right: Option<RightExpr>, at: int): seq<GenMapping> {
    [GenMapping(Some(true), DollarDeclCapabilities, VarRange(v), Range(at + 6, at + 7 + |v.text|), Offset)] +
    OperandMappings(v, right, at + 7 + |v.text| + RefOpenWidth)
  }

  /** Both declarations of a label variable. */
  function VarDeclText(v: LabelVar): string {
    LetDeclText(v) + DollarDeclText(v)
  }

  function VarDeclMappings(v: LabelVar, right: Option<RightExpr>, at: int): seq<GenMapping> {
    LetDeclMappings(v, right, at) + DollarDeclMappings(v, right, at + LetDeclWidth(v))
  }

  /** The mirror of the declarations written at `at`: the declared `name` and the declared `$name`. */
  function VarDeclMirror(v: LabelVar, at: int): Mirror {
    Mirror(Range(at + 4, at + 4 + |v.text|), Range(at + LetDeclWidth(v) + 6, at + LetDeclWidth(v) + 7 + |v.text|))
  }

  /** A label variable to declare, with the right side its declarations refer to. */
  datatype DeclItem = DeclItem(v: LabelVar, right: Option<RightExpr>)

  /** The variables of one decomposition, each with the decomposition's right side. */
  function BinaryDeclItems(b: BinaryRecord): (items: seq<DeclItem>)
    ensures |items| == |b.vars|
  {
    seq(|b.vars|, k requires 0 <= k < |b.vars| => DeclItem(b.vars[k], b.right))
  }

  /** The variables of the decompositions `bs`, in order, each with its decomposition's right side. */
  function LabelDeclItems(bs: seq<BinaryRecord>): seq<DeclItem> {
    if bs == [] then [] else LabelDeclItems(bs[..|bs| - 1]) + BinaryDeclItems(bs[|bs| - 1])
  }

  lemma LabelDeclItemsStep(bs: seq<BinaryRecord>, bi: int)
    requires 0 <= bi < |bs|
    ensures LabelDeclItems(bs[..bi + 1]) == LabelDeclItems(bs[..bi]) + BinaryDeclItems(bs[bi])
  {
    assert bs[..bi + 1][..bi] == bs[..bi];
  }

  /** The declarations of `items`, one after the other. */
  function DeclsText(items: seq<DeclItem>): string {
    if items == [] then [] else DeclsText(items[..|items| - 1]) + VarDeclText(items[|items| - 1].v)
  }

  /** The length of `VarDeclText(it.v)`, its mappings and its mirror, for laying out runs of declarations. */
  function DeclWidth(it: DeclItem): int {
    LetDeclWidth(it.v) + DollarDeclWidth(it.v)
  }

  function DeclMappings(it: DeclItem, at: int): seq<GenMapping> {
    VarDeclMappings(it.v, it.right, at)
  }

  function DeclMirrors(it: DeclItem, at: int): seq<Mirror> {
    [VarDeclMirror(it.v, at)]
  }

  /** The length of `DeclsText(items)` (see `DeclsWidthIsLength`). */
  function DeclsWidth(items: seq<DeclItem>): int {
    Widths(items, DeclWidth)
  }

  lemma {:induction false} DeclsWidthIsLength(items: seq<DeclItem>)
    ensures |DeclsText(items)| == DeclsWidth(items)
    decreases |items|
  {
    if items != [] {
      DeclsWidthIsLength(items[..|items| - 1]);
      DeclWidths(items[|items| - 1].v);
    }
  }

  /** The mappings of the declarations of `items` written from `at`. */
  function DeclsMappings(items: seq<DeclItem>, at: int): seq<GenMapping> {
    Placed(items, DeclWidth, DeclMappings, at)
  }

  /** The mirrors of the declarations of `items` written from `at`. */
  function DeclsMirrors(items: seq<DeclItem>, at: int): seq<Mirror> {
    Placed(items, DeclWidth, DeclMirrors, at)
  }

  lemma DeclsSnoc(items: seq<DeclItem>, it: DeclItem, at: int)
    ensures DeclsText(items + [it]) == DeclsText(items) + VarDeclText(it.v)
    ensures DeclsWidth(items + [it]) == DeclsWidth(items) + LetDeclWidth(it.v) + DollarDeclWidth(it.v)
    ensures DeclsMappings(items + [it], at) == DeclsMappings(items, at) + VarDeclMappings(it.v, it.right, at + DeclsWidth(items))
    ensures DeclsMirrors(items + [it], at) == DeclsMirrors(items, at) + [VarDeclMirror(it.v, at + DeclsWidth(items))]
  {
    assert (items + [it])[..|items|] == items;
    PlacedSnoc(items, it, DeclWidth, DeclMappings, at);
    PlacedSnoc(items, it, DeclWidth, DeclMirrors, at);
  }

  /** Writing the declarations of two runs of variables one after the other is writing those of their concatenation. */
  lemma {:induction false} DeclsTextAppend(a: seq<DeclItem>, b: seq<DeclItem>)
    ensures DeclsText(a + b) == DeclsText(a) + DeclsText(b)
    decreases |b|
  {
    if b == [] {
      assert a + b == a;
    } else {
      var b', it := b[..|b| - 1], b[|b| - 1];
      assert (a + b)[..|a + b| - 1] == a + b';
      DeclsTextAppend(a, b');
      ConcatAssoc(DeclsText(a), DeclsText(b'), VarDeclText(it.v));
    }
  }

  lemma DeclsWidthAppend(a: seq<DeclItem>, b: seq<DeclItem>)
    ensures DeclsWidth(a + b) == DeclsWidth(a) + DeclsWidth(b)
  {
    WidthsAppend(a, b, DeclWidth);
  }

  lemma DeclsMappingsAppend(a: seq<DeclItem>, b: seq<DeclItem>, at: int)
    ensures DeclsMappings(a + b, at) == DeclsMappings(a, at) + DeclsMappings(b, at + DeclsWidth(a))
  {
    PlacedAppend(a, b, DeclWidth, DeclMappings, at);
  }

  lemma DeclsMirrorsAppend(a: seq<DeclItem>, b: seq<DeclItem>, at: int)
    ensures DeclsMirrors(a + b, at) == DeclsMirrors(a, at) + DeclsMirrors(b, at + DeclsWidth(a))
  {
    PlacedAppend(a, b, DeclWidth, DeclMirrors, at);
  }

  /*
   * The steps of the loops that write declarations: one more variable, or
   * one more run of variables, after those already written, stated for the
   * text, the mappings and the mirrors apart.
   */

  lemma DeclsTextStep(items: seq<DeclItem>, it: DeclItem, g0: string, g1: string, g: string)
    requires g1 == g0 + DeclsText(items) && g == g1 + VarDeclText(it.v)
    ensures g == g0 + DeclsText(items + [it])
  {
    DeclsSnoc(items, it, 0);
    ConcatAssoc(g0, DeclsText(items), VarDeclText(it.v));
  }

  lemma DeclsMappingsStep(items: seq<DeclItem>, it: DeclItem, at0: int, at1: int,
                          ms0: seq<GenMapping>, ms1: seq<GenMapping>, ms: seq<GenMapping>)
    requires at1 == at0 + DeclsWidth(items)
    requires ms1 == ms0 + DeclsMappings(items, at0) && ms == ms1 + VarDeclMappings(it.v, it.right, at1)
    ensures ms == ms0 + DeclsMappings(items + [it], at0)
  {
    PlacedSnoc(items, it, DeclWidth, DeclMappings, at0);
    ConcatAssoc(ms0, DeclsMappings(items, at0), VarDeclMappings(it.v, it.right, at1));
  }

  lemma DeclsMirrorsStep(items: seq<DeclItem>, it: DeclItem, at0: int, at1: int,
                         mis0: seq<Mirror>, mis1: seq<Mirror>, mis: seq<Mirror>)
    requires at1 == at0 + DeclsWidth(items)
    requires mis1 == mis0 + DeclsMirrors(items, at0) && mis == mis1 + [VarDeclMirror(it.v, at1)]
    ensures mis == mis0 + DeclsMirrors(items + [it], at0)
  {
    PlacedSnoc(items, it, DeclWidth, DeclMirrors, at0);
    ConcatAssoc(mis0, DeclsMirrors(items, at0), [VarDeclMirror(it.v, at1)]);
  }

  lemma DeclsTextJoin(a: seq<DeclItem>, b: seq<DeclItem>, g0: string, g1: string, g: string)
    requires g1 == g0 + DeclsText(a) && g == g1 + DeclsText(b)
    ensures g == g0 + DeclsText(a + b)
  {
    DeclsTextAppend(a, b);
    ConcatAssoc(g0, DeclsText(a), DeclsText(b));
  }

  lemma DeclsMappingsJoin(a: seq<DeclItem>, b: seq<DeclItem>, at0: int, at1: int,
                          ms0: seq<GenMapping>, ms1: seq<GenMapping>, ms: seq<GenMapping>)
    requires at1 == at0 + DeclsWidth(a)
    requires ms1 == ms0 + DeclsMappings(a, at0) && ms == ms1 + DeclsMappings(b, at1)
    ensures ms == ms0 + DeclsMappings(a + b, at0)
  {
    DeclsMappingsAppend(a, b, at0);
    ConcatAssoc(ms0, DeclsMappings(a, at0), DeclsMappings(b, at1));
  }

  lemma DeclsMirrorsJoin(a: seq<DeclItem>, b: seq<DeclItem>, at0: int, at1: int,
                         mis0: seq<Mirror>, mis1: seq<Mirror>, mis: seq<Mirror>)
    requires at1 == at0 + DeclsWidth(a)
    requires mis1 == mis0 + DeclsMirrors(a, at0) && mis == mis1 + DeclsMirrors(b, at1)
    ensures mis == mis0 + DeclsMirrors(a + b, at0)
  {
    DeclsMirrorsAppend(a, b, at0);
    ConcatAssoc(mis0, DeclsMirrors(a, at0), DeclsMirrors(b, at1));
  }

  // ---------------------------------------------------------------------------
  // Mirrors

  /** The mirror texts of the label variables' declarations: `name` paired with `$name`. */
  function LabelMirrorTexts(vs: seq<LabelVar>): (ts: seq<MirrorText>)
    ensures |ts| == |vs|
  {
    seq(|vs|, k requires 0 <= k < |vs| => MirrorText(vs[k].text, "$" + vs[k].text))
  }

  lemma LabelMirrorTextsAppend(a: seq<LabelVar>, b: seq<LabelVar>)
    ensures LabelMirrorTexts(a + b) == LabelMirrorTexts(a) + LabelMirrorTexts(b)
  {
    assert forall k :: 0 <= k < |a + b| ==> (a + b)[k] == if k < |a| then a[k] else b[k - |a|];
  }

  /** The declaration items and mirror texts of a decomposition's first `vi + 1` variables. */
  lemma BinaryDeclStep(b: BinaryRecord, vi: int)
    requires 0 <= vi < |b.vars|
    ensures BinaryDeclItems(b)[..vi + 1] == BinaryDeclItems(b)[..vi] + [DeclItem(b.vars[vi], b.right)]
    ensures LabelMirrorTexts(b.vars[..vi + 1]) ==
            LabelMirrorTexts(b.vars[..vi]) + [MirrorText(b.vars[vi].text, "$" + b.vars[vi].text)]
  {
    var items := BinaryDeclItems(b);
    assert items[..vi + 1] == items[..vi] + [items[vi]];
    assert b.vars[..vi + 1] == b.vars[..vi] + [b.vars[vi]];
    LabelMirrorTextsAppend(b.vars[..vi], [b.vars[vi]]);
  }

  lemma BinaryVarsStep(bs: seq<BinaryRecord>, bi: int)
    requires 0 <= bi < |bs|
    ensures BinaryVars(bs[..bi + 1]) == BinaryVars(bs[..bi]) + bs[bi].vars
  {
    assert bs[..bi + 1][..bi] == bs[..bi];
  }

  lemma CollectLabelStep(ls: seq<LabelRecord>, li: int, start: int, end: int)
    requires 0 <= li < |ls|
    ensures Filter(Tagged(LabelVarsOf(ls[..li + 1])), start, end) ==
            Filter(Tagged(LabelVarsOf(ls[..li])), start, end) + Filter(Tagged(BinaryVars(ls[li].binarys)), start, end)
  {
    LabelVarsStep(ls, li);
    UsesAppend(LabelVarsOf(ls[..li]), BinaryVars(ls[li].binarys), start, end);
  }

  lemma LabelVarsStep(ls: seq<LabelRecord>, li: int)
    requires 0 <= li < |ls|
    ensures LabelVarsOf(ls[..li + 1]) == LabelVarsOf(ls[..li]) + BinaryVars(ls[li].binarys)
  {
    assert ls[..li + 1][..li] == ls[..li];
  }

  /** The mirror texts of the returned exposed names: each name paired with itself. */
  function ExposeMirrorTexts(code: string, exposes: seq<Range>): (ts: seq<MirrorText>)
    requires forall k :: 0 <= k < |exposes| ==> InBounds(exposes[k], |code|)
    ensures |ts| == |exposes|
  {
    seq(|exposes|, k requires 0 <= k < |exposes| =>
      assert InBounds(exposes[k], |code|);
      MirrorText(code[exposes[k].start..exposes[k].end], code[exposes[k].start..exposes[k].end]))
  }

  /** The mirror texts of the returned top-level label variables: each name paired with itself. */
  function RootMirrorTexts(vs: seq<LabelVar>): (ts: seq<MirrorText>)
    ensures |ts| == |vs|
  {
    seq(|vs|, k requires 0 <= k < |vs| => MirrorText(vs[k].text, vs[k].text))
  }

  lemma RootMirrorTextsAppend(a: seq<LabelVar>, b: seq<LabelVar>)
    ensures RootMirrorTexts(a + b) == RootMirrorTexts(a) + RootMirrorTexts(b)
  {
    assert forall k :: 0 <= k < |a + b| ==> (a + b)[k] == if k < |a| then a[k] else b[k - |a|];
  }

  lemma ExposeMirrorTextsStep(code: string, exposes: seq<Range>, i: int)
    requires forall k :: 0 <= k < |exposes| ==> InBounds(exposes[k], |code|)
    requires 0 <= i < |exposes|
    ensures ExposeMirrorTexts(code, exposes[..i + 1]) ==
            ExposeMirrorTexts(code, exposes[..i]) +
              [MirrorText(code[exposes[i].start..exposes[i].end], code[exposes[i].start..exposes[i].end])]
  {
  }

  /** One more variable adds itself to the top-level ones exactly when it is declared at the top level. */
  lemma RootVarsStep(vs: seq<LabelVar>, i: int)
    requires 0 <= i < |vs|
    ensures RootVars(vs[..i + 1]) == RootVars(vs[..i]) + if vs[i].inRoot then [vs[i]] else []
  {
    assert vs[..i + 1][..i] == vs[..i];
  }

  // ---------------------------------------------------------------------------
  // The returned object

  /** One `name: name` entry of the returned object and its separator; both spellings map to `range`. */
  datatype ReturnedPair = ReturnedPair(name: string, isNoDollarRef: Option<bool>, range: Range, sep: string)

  function PairText(p: ReturnedPair): string {
    p.name + ": " + p.name + p.sep
  }

  /** The entry written at `at` maps the key, then the value after `: `, to its range, with no capability. */
  function PairMappings(p: ReturnedPair, at: int): seq<GenMapping> {
    [GenMapping(p.isNoDollarRef, NoCapabilities, p.range, Range(at, at + |p.name|), Offset),
     GenMapping(p.isNoDollarRef, NoCapabilities, p.range, Range(at + |p.name| + 2, at + 2 * |p.name| + 2), Offset)]
  }

  /** The entry written at `at` mirrors its key and its value. */
  function PairMirror(p: ReturnedPair, at: int): Mirror {
    Mirror(Range(at, at + |p.name|), Range(at + |p.name| + 2, at + 2 * |p.name| + 2))
  }

  /** The entries `ps`, one after the other. */
  function PairsText(ps: seq<ReturnedPair>): string {
    if ps == [] then [] else PairsText(ps[..|ps| - 1]) + PairText(ps[|ps| - 1])
  }

  /** The length of `PairText(p)` and of `PairsText(ps)` (see `PairsWidthIsLength`). */
  function PairWidth(p: ReturnedPair): int {
    2 * |p.name| + 2 + |p.sep|
  }

  function PairsWidth(ps: seq<ReturnedPair>): int {
    if ps == [] then 0 else PairsWidth(ps[..|ps| - 1]) + PairWidth(ps[|ps| - 1])
  }

  lemma {:induction false} PairsWidthIsLength(ps: seq<ReturnedPair>)
    ensures |PairsText(ps)| == PairsWidth(ps)
    decreases |ps|
  {
    if ps != [] {
      PairsWidthIsLength(ps[..|ps| - 1]);
    }
  }

  lemma {:induction false} PairsWidthAppend(a: seq<ReturnedPair>, b: seq<ReturnedPair>)
    ensures PairsWidth(a + b) == PairsWidth(a) + PairsWidth(b)
    decreases |b|
  {
    if b == [] {
      assert a + b == a;
    } else {
      assert (a + b)[..|a + b| - 1] == a + b[..|b| - 1];
      PairsWidthAppend(a, b[..|b| - 1]);
    }
  }

  /** The mappings of the entries `ps` written from `at`. */
  function PairsMappings(ps: seq<ReturnedPair>, at: int): seq<GenMapping> {
    if ps == [] then []
    else PairsMappings(ps[..|ps| - 1], at) + PairMappings(ps[|ps| - 1], at + PairsWidth(ps[..|ps| - 1]))
  }

  /** The mirrors of the entries `ps` written from `at`. */
  function PairsMirrors(ps: seq<ReturnedPair>, at: int): seq<Mirror> {
    if ps == [] then []
    else PairsMirrors(ps[..|ps| - 1], at) + [PairMirror(ps[|ps| - 1], at + PairsWidth(ps[..|ps| - 1]))]
  }

  lemma PairsSnoc(ps: seq<ReturnedPair>, p: ReturnedPair, at: int)
    ensures PairsText(ps + [p]) == PairsText(ps) + PairText(p)
    ensures PairsMappings(ps + [p], at) == PairsMappings(ps, at) + PairMappings(p, at + PairsWidth(ps))
    ensures PairsMirrors(ps + [p], at) == PairsMirrors(ps, at) + [PairMirror(p, at + PairsWidth(ps))]
  {
    assert (ps + [p])[..|ps|] == ps;
  }

  /** Writing two runs of entries one after the other is writing their concatenation. */
  lemma {:induction false} PairsTextAppend(a: seq<ReturnedPair>, b: seq<ReturnedPair>)
    ensures PairsText(a + b) == PairsText(a) + PairsText(b)
    decreases |b|
  {
    if b == [] {
      assert a + b == a;
    } else {
      var b', p := b[..|b| - 1], b[|b| - 1];
      assert (a + b)[..|a + b| - 1] == a + b';
      PairsTextAppend(a, b');
      ConcatAssoc(PairsText(a), PairsText(b'), PairText(p));
    }
  }

  lemma {:induction false} PairsMappingsAppend(a: seq<ReturnedPair>, b: seq<ReturnedPair>, at: int)
    ensures PairsMappings(a + b, at) == PairsMappings(a, at) + PairsMappings(b, at + PairsWidth(a))
    decreases |b|
  {
    if b == [] {
      assert a + b == a;
    } else {
      var b', p := b[..|b| - 1], b[|b| - 1];
      assert (a + b)[..|a + b| - 1] == a + b';
      PairsMappingsAppend(a, b', at);
      PairsWidthAppend(a, b');
      ConcatAssoc(PairsMappings(a, at), PairsMappings(b', at + PairsWidth(a)),
                  PairMappings(p, at + PairsWidth(a) + PairsWidth(b')));
    }
  }

  lemma {:induction false} PairsMirrorsAppend(a: seq<ReturnedPair>, b: seq<ReturnedPair>, at: int)
    ensures PairsMirrors(a + b, at) == PairsMirrors(a, at) + PairsMirrors(b, at + PairsWidth(a))
    decreases |b|
  {
    if b == [] {
      assert a + b == a;
    } else {
      var b', p := b[..|b| - 1], b[|b| - 1];
      assert (a + b)[..|a + b| - 1] == a + b';
      PairsMirrorsAppend(a, b', at);
      PairsWidthAppend(a, b');
      ConcatAssoc(PairsMirrors(a, at), PairsMirrors(b', at + PairsWidth(a)),
                  [PairMirror(p, at + PairsWidth(a) + PairsWidth(b'))]);
    }
  }

  /** An entry of the returned object written at `at`, as the generator records it at position `k` of the run. */
  predicate PairShape(ms: seq<GenMapping>, mis: seq<Mirror>, p: ReturnedPair, k: int, at: int) {
    && 0 <= k && 2 * k + 1 < |ms| && k < |mis|
    && ms[2 * k] == GenMapping(p.isNoDollarRef, NoCapabilities, p.range, Range(at, at + |p.name|), Offset)
    && ms[2 * k + 1] == GenMapping(p.isNoDollarRef, NoCapabilities, p.range, Range(at + |p.name| + 2, at + 2 * |p.name| + 2), Offset)
    && mis[k] == Mirror(ms[2 * k].genRange, ms[2 * k + 1].genRange)
  }

  lemma PairShapeGrow(ms: seq<GenMapping>, mis: seq<Mirror>, ms': seq<GenMapping>, mis': seq<Mirror>,
                      p: ReturnedPair, k: int, at: int)
    requires PairShape(ms, mis, p, k, at) && ms <= ms' && mis <= mis'
    ensures PairShape(ms', mis', p, k, at)
  {
    assert ms'[2 * k] == ms[2 * k] && ms'[2 * k + 1] == ms[2 * k + 1] && mis'[k] == mis[k];
  }

  lemma PairShapeLast(ms: seq<GenMapping>, mis: seq<Mirror>, p: ReturnedPair, at: int)
    requires |ms| == 2 * |mis|
    ensures PairShape(ms + PairMappings(p, at), mis + [PairMirror(p, at)], p, |mis|, at)
  {
  }

  /**
   * The shape of the returned object's mappings: two per entry, in order,
   * both mapping that entry's name to its range in Offset mode with no
   * capability, the key where the entry starts and the value two
   * characters after the key; its mirror pairs the two.
   */
  lemma {:induction false} PairsMappingsCount(ps: seq<ReturnedPair>, at: int)
    ensures |PairsMappings(ps, at)| == 2 * |ps| && |PairsMirrors(ps, at)| == |ps|
    decreases |ps|
  {
    if ps != [] {
      PairsMappingsCount(ps[..|ps| - 1], at);
    }
  }

  lemma {:induction false} PairsMappingsShape(ps: seq<ReturnedPair>, at: int, k: int)
    requires 0 <= k < |ps|
    ensures PairShape(PairsMappings(ps, at), PairsMirrors(ps, at), ps[k], k, at + PairsWidth(ps[..k]))
    decreases |ps|
  {
    var ps', p := ps[..|ps| - 1], ps[|ps| - 1];
    PairsMappingsCount(ps', at);
    var ms', mis' := PairsMappings(ps', at), PairsMirrors(ps', at);
    var at' := at + PairsWidth(ps');
    assert PairsMappings(ps, at) == ms' + PairMappings(p, at') && PairsMirrors(ps, at) == mis' + [PairMirror(p, at')];
    if k < |ps'| {
      PairsMappingsShape(ps', at, k);
      assert ps[k] == ps'[k] && ps[..k] == ps'[..k];
      PairShapeGrow(ms', mis', PairsMappings(ps, at), PairsMirrors(ps, at), ps'[k], k, at + PairsWidth(ps'[..k]));
    } else {
      assert ps[..k] == ps' && ps[k] == p;
      PairShapeLast(ms', mis', p, at');
    }
  }

  /** The exposed names, each as `name: name,` followed by a line break. */
  function ExposePairs(code: string, exposes: seq<Range>): (ps: seq<ReturnedPair>)
    requires forall k :: 0 <= k < |exposes| ==> InBounds(exposes[k], |code|)
    ensures |ps| == |exposes|
  {
    seq(|exposes|, k requires 0 <= k < |exposes| =>
      assert InBounds(exposes[k], |code|);
      ReturnedPair(code[exposes[k].start..exposes[k].end], None, exposes[k], ",\n"))
  }

  lemma ExposePairsStep(code: string, exposes: seq<Range>, i: int)
    requires forall k :: 0 <= k < |exposes| ==> InBounds(exposes[k], |code|)
    requires 0 <= i < |exposes|
    ensures ExposePairs(code, exposes[..i + 1]) ==
            ExposePairs(code, exposes[..i]) +
              [ReturnedPair(code[exposes[i].start..exposes[i].end], None, exposes[i], ",\n")]
  {
  }

  /** The top-level variables among `vs`, each as `name: name, ` followed by a line break. */
  function RootPairs(vs: seq<LabelVar>): (ps: seq<ReturnedPair>)
    ensures |ps| == |RootVars(vs)|
  {
    var rs := RootVars(vs);
    seq(|rs|, k requires 0 <= k < |rs| => ReturnedPair(rs[k].text, Some(true), VarRange(rs[k]), ", \n"))
  }

  lemma RootPairsAppend(a: seq<LabelVar>, b: seq<LabelVar>)
    ensures RootPairs(a + b) == RootPairs(a) + RootPairs(b)
  {
    RootVarsAppend(a, b);
    var ra, rb := RootVars(a), RootVars(b);
    var whole, l, r := RootPairs(a + b), RootPairs(a), RootPairs(b);
    forall k | 0 <= k < |whole|
      ensures whole[k] == (l + r)[k]
    {
      if k < |ra| {
        assert (ra + rb)[k] == ra[k];
      } else {
        assert (ra + rb)[k] == rb[k - |ra|];
      }
    }
    assert whole == l + r;
  }

  /** Two runs of top-level entries, one after the other, are the entries of the variables of both. */
  lemma RootPairsJoin(a: seq<LabelVar>, b: seq<LabelVar>, at: int)
    ensures PairsText(RootPairs(a + b)) == PairsText(RootPairs(a)) + PairsText(RootPairs(b))
    ensures PairsMappings(RootPairs(a + b), at) ==
            PairsMappings(RootPairs(a), at) + PairsMappings(RootPairs(b), at + PairsWidth(RootPairs(a)))
    ensures PairsMirrors(RootPairs(a + b), at) ==
            PairsMirrors(RootPairs(a), at) + PairsMirrors(RootPairs(b), at + PairsWidth(RootPairs(a)))
  {
    RootPairsAppend(a, b);
    PairsTextAppend(RootPairs(a), RootPairs(b));
    PairsMappingsAppend(RootPairs(a), RootPairs(b), at);
    PairsMirrorsAppend(RootPairs(a), RootPairs(b), at);
  }

  /**
   * `g`, `ms`, `mis` and `mts` are `g0`, `ms0`, `mis0` and `mts0` followed by
   * the returned entries of the top-level variables among `vs`.
   */
  ghost predicate RootsWritten(g: string, ms: seq<GenMapping>, mis: seq<Mirror>, mts: seq<MirrorText>, vs: seq<LabelVar>,
                               g0: string, ms0: seq<GenMapping>, mis0: seq<Mirror>, mts0: seq<MirrorText>)
  {
    && g == g0 + PairsText(RootPairs(vs))
    && ms == ms0 + PairsMappings(RootPairs(vs), |g0|)
    && mis == mis0 + PairsMirrors(RootPairs(vs), |g0|)
    && mts == mts0 + RootMirrorTexts(RootVars(vs))
  }

  lemma RootsWrittenJoin(a: seq<LabelVar>, b: seq<LabelVar>,
                         g0: string, ms0: seq<GenMapping>, mis0: seq<Mirror>, mts0: seq<MirrorText>,
                         g1: string, ms1: seq<GenMapping>, mis1: seq<Mirror>, mts1: seq<MirrorText>,
                         g: string, ms: seq<GenMapping>, mis: seq<Mirror>, mts: seq<MirrorText>)
    requires RootsWritten(g1, ms1, mis1, mts1, a, g0, ms0, mis0, mts0)
    requires RootsWritten(g, ms, mis, mts, b, g1, ms1, mis1, mts1)
    ensures RootsWritten(g, ms, mis, mts, a + b, g0, ms0, mis0, mts0)
  {
    PairsWidthIsLength(RootPairs(a));
    RootsJoinPairs(a, b, |g0|, |g1|, ms0, ms1, ms, mis0, mis1, mis);
    assert g == g0 + PairsText(RootPairs(a + b)) by {
      RootPairsJoin(a, b, |g0|);
      ConcatAssoc(g0, PairsText(RootPairs(a)), PairsText(RootPairs(b)));
    }
    assert mts == mts0 + RootMirrorTexts(RootVars(a + b)) by {
      RootVarsAppend(a, b);
      RootMirrorTextsAppend(RootVars(a), RootVars(b));
      ConcatAssoc(mts0, RootMirrorTexts(RootVars(a)), RootMirrorTexts(RootVars(b)));
    }
  }

  /** The mappings and mirrors part of `RootsWrittenJoin`, with the second run written at `at1`. */
  lemma RootsJoinPairs(a: seq<LabelVar>, b: seq<LabelVar>, at0: int, at1: int,
                       ms0: seq<GenMapping>, ms1: seq<GenMapping>, ms: seq<GenMapping>,
                       mis0: seq<Mirror>, mis1: seq<Mirror>, mis: seq<Mirror>)
    requires at1 == at0 + PairsWidth(RootPairs(a))
    requires ms1 == ms0 + PairsMappings(RootPairs(a), at0) && ms == ms1 + PairsMappings(RootPairs(b), at1)
    requires mis1 == mis0 + PairsMirrors(RootPairs(a), at0) && mis == mis1 + PairsMirrors(RootPairs(b), at1)
    ensures ms == ms0 + PairsMappings(RootPairs(a + b), at0)
    ensures mis == mis0 + PairsMirrors(RootPairs(a + b), at0)
  {
    var ra, rb := RootPairs(a), RootPairs(b);
    RootPairsJoin(a, b, at0);
    ConcatAssoc(ms0, PairsMappings(ra, at0), PairsMappings(rb, at1));
    ConcatAssoc(mis0, PairsMirrors(ra, at0), PairsMirrors(rb, at1));
  }

  /** The end of `setup` and of the component, then the reference that lets auto-import find `ref`. */
  function ClosingText(refSearchText: string): string {
    "}});\n" + "\n// @ts-ignore\n" + ("ref" + refSearchText + "\n")
  }

  const ReturnOpen := "return {\n"
  const ReturnClose := "};\n"

  /** The returned object: the exposed names, then the top-level label variables. */
  function ReturnText(code: string, data: SetupData): string
    requires forall k :: 0 <= k < |data.exposeVarNames| ==> InBounds(data.exposeVarNames[k], |code|)
  {
    ReturnOpen + PairsText(ExposePairs(code, data.exposeVarNames)) + PairsText(RootPairs(LabelVarsOf(data.labels))) +
    ReturnClose
  }

  /** The returned object's mappings when it is written at `at`. */
  function ReturnMappings(code: string, data: SetupData, at: int): seq<GenMapping>
    requires forall k :: 0 <= k < |data.exposeVarNames| ==> InBounds(data.exposeVarNames[k], |code|)
  {
    EntriesMappings(code, data, at + |ReturnOpen|)
  }

  /** The returned object's mirrors when it is written at `at`. */
  function ReturnMirrors(code: string, data: SetupData, at: int): seq<Mirror>
    requires forall k :: 0 <= k < |data.exposeVarNames| ==> InBounds(data.exposeVarNames[k], |code|)
  {
    EntriesMirrors(code, data, at + |ReturnOpen|)
  }

  /** The mappings of the returned object's entries written at `at`: the exposed names, then the top-level variables. */
  function EntriesMappings(code: string, data: SetupData, at: int): seq<GenMapping>
    requires forall k :: 0 <= k < |data.exposeVarNames| ==> InBounds(data.exposeVarNames[k], |code|)
  {
    var exposes := ExposePairs(code, data.exposeVarNames);
    PairsMappings(exposes, at) + PairsMappings(RootPairs(LabelVarsOf(data.labels)), at + PairsWidth(exposes))
  }

  /** The mirrors of the returned object's entries written at `at`. */
  function EntriesMirrors(code: string, data: SetupData, at: int): seq<Mirror>
    requires forall k :: 0 <= k < |data.exposeVarNames| ==> InBounds(data.exposeVarNames[k], |code|)
  {
    var exposes := ExposePairs(code, data.exposeVarNames);
    PairsMirrors(exposes, at) + PairsMirrors(RootPairs(LabelVarsOf(data.labels)), at + PairsWidth(exposes))
  }

  // ---------------------------------------------------------------------------
  // The generator's state

  class Generator {
    const originalCode: string
    const data: SetupData
    var sourceCode: string
    var genCode: string
    var mappings: seq<GenMapping>
    var mirrors: seq<Mirror>
    /** The text each mapping's generated range stands for. */
    ghost var emitted: seq<string>
    /** The texts each mirror's ranges hold. */
    ghost var mirrorTexts: seq<MirrorText>

    /** What the recorded mappings promise about the block, whatever the generated text. */
    ghost predicate Sound()
      reads this`sourceCode, this`mappings, this`emitted
    {
      && AgreesOutsideImports(originalCode, data.imports, sourceCode)
      && |mappings| == |emitted|
      && AllSound(originalCode, data.imports, mappings, emitted)
    }

    /** Every recorded range of the generated text holds its recorded text. */
    ghost predicate Spanned()
      reads this`genCode, this`mappings, this`emitted, this`mirrors, this`mirrorTexts
    {
      MappingsSpan(genCode, mappings, emitted) && MirrorsSpan(genCode, mirrors, mirrorTexts)
    }

    ghost predicate Valid()
      reads this
    {
      Sound() && Spanned()
    }

    constructor (originalCode: string, data: SetupData)
      requires WellFormed(originalCode, data)
      ensures this.originalCode == originalCode && this.data == data
      ensures sourceCode == originalCode && genCode == Header
      ensures mappings == [] && emitted == [] && mirrors == [] && mirrorTexts == []
      ensures Valid()
    {
      this.originalCode := originalCode;
      this.data := data;
      sourceCode := originalCode;
      genCode := Header;
      mappings := [];
      mirrors := [];
      emitted := [];
      mirrorTexts := [];
    }

    /**
     * `addCode`: records the generated range `code` gets at the current end
     * of the generated text, and appends `code` when `write` is set.
     */
    method AddCode(code: string, isNoDollarRef: Option<bool>, capabilities: Capabilities,
                   scriptSetupRange: Range, mode: Mode, write: bool)
      modifies this
      ensures mappings == old(mappings) +
        [GenMapping(isNoDollarRef, capabilities, scriptSetupRange, Range(|old(genCode)|, |old(genCode)| + |code|), mode)]
      ensures emitted == old(emitted) + [code]
      ensures genCode == if write then old(genCode) + code else old(genCode)
      ensures sourceCode == old(sourceCode) && mirrors == old(mirrors) && mirrorTexts == old(mirrorTexts)
      ensures old(Sound()) && MappingSound(originalCode, data.imports, mappings[|mappings| - 1], code) ==> Sound()
      ensures write && old(Spanned()) ==> Spanned()
    {
      var m := GenMapping(isNoDollarRef, capabilities, scriptSetupRange, Range(|genCode|, |genCode| + |code|), mode);
      ghost var g := genCode;
      if Sound() && MappingSound(originalCode, data.imports, m, code) {
        AllSoundAppend(originalCode, data.imports, mappings, emitted, m, code);
      }
      if write && Spanned() {
        MappingsSpanAppend(g, code, mappings, emitted);
        SpansTail(g, code);
        MappingsSpanAdd(g + code, mappings, emitted, m, code);
        MirrorsSpanAppend(g, code, mirrors, mirrorTexts);
      }
      mappings := mappings + [m];
      emitted := emitted + [code];
      if write {
        genCode := genCode + code;
      }
    }

    /** `genCode += text` */
    method Append(text: string)
      modifies this
      ensures genCode == old(genCode) + text
      ensures mappings == old(mappings) && emitted == old(emitted)
      ensures sourceCode == old(sourceCode) && mirrors == old(mirrors) && mirrorTexts == old(mirrorTexts)
      ensures old(Spanned()) ==> Spanned()
      ensures old(Valid()) ==> Valid()
    {
      if Spanned() {
        MappingsSpanAppend(genCode, text, mappings, emitted);
        MirrorsSpanAppend(genCode, text, mirrors, mirrorTexts);
      }
      genCode := genCode + text;
    }

    /** `mirrors.push({ left, right })` */
    method PushMirror(left: Range, right: Range, ghost leftText: string, ghost rightText: string)
      requires Spans(genCode, left, leftText) && Spans(genCode, right, rightText)
      modifies this
      ensures mirrors == old(mirrors) + [Mirror(left, right)]
      ensures mirrorTexts == old(mirrorTexts) + [MirrorText(leftText, rightText)]
      ensures genCode == old(genCode) && mappings == old(mappings) && emitted == old(emitted)
      ensures sourceCode == old(sourceCode)
      ensures old(Valid()) ==> Valid()
    {
      if MirrorsSpan(genCode, mirrors, mirrorTexts) {
        MirrorsSpanAdd(genCode, mirrors, mirrorTexts, Mirror(left, right), MirrorText(leftText, rightText));
      }
      mirrors := mirrors + [Mirror(left, right)];
      mirrorTexts := mirrorTexts + [MirrorText(leftText, rightText)];
    }

    /** `writeText`: copies [start, end) of the working text with a full-capability mapping. */
    method WriteText(start: int, end: int)
      requires Valid() && 0 <= start <= end <= |originalCode|
      modifies this
      ensures Valid()
      ensures genCode == old(genCode) + sourceCode[start..end]
      ensures mappings == old(mappings) +
        [GenMapping(None, CopyCapabilities, Range(start, end), Range(|old(genCode)|, |old(genCode)| + end - start), Offset)]
      ensures emitted == old(emitted) + [sourceCode[start..end]]
      ensures sourceCode == old(sourceCode) && mirrors == old(mirrors) && mirrorTexts == old(mirrorTexts)
    {
      var text := sourceCode[start..end];
      forall i ensures KeptAt(originalCode, data.imports, text, start, i) {
        assert KeptAt(originalCode, data.imports, sourceCode, 0, i);
      }
      AddCode(text, None, CopyCapabilities, Range(start, end), Offset, true);
    }

    /** The search of `shorthandPropertys` in `writeCenter`. */
    method IsShorthand(x: InsideRef) returns (b: bool)
      ensures b <==> Range(x.start, x.end) in data.shorthandPropertys
    {
      b := false;
      var i := 0;
      while i < |data.shorthandPropertys|
        invariant 0 <= i <= |data.shorthandPropertys|
        invariant forall j :: 0 <= j < i ==> data.shorthandPropertys[j] != Range(x.start, x.end)
      {
        var p := data.shorthandPropertys[i];
        if x.start == p.start && x.end == p.end {
          b := true;
          break;
        }
        i := i + 1;
      }
    }

    /**
     * The `$name.value` part of `writeCenter`: an `In` mapping recorded
     * without writing spans the whole of it once `$name` (with its own
     * `Offset` mapping) and `.value` are written.
     */
    method WriteDollarValue(x: InsideRef)
      requires Valid() && 0 <= x.start <= x.end <= |originalCode|
      modifies this
      ensures Valid()
      ensures genCode == old(genCode) + ("$" + x.name) + ".value"
      ensures emitted == old(emitted) + ["$" + x.name + ".value"] + ["$" + x.name]
      ensures mappings == old(mappings) +
        [GenMapping(None, DiagnosticOnly, Range(x.start, x.end), Range(|old(genCode)|, |old(genCode)| + |x.name| + 7), In)] +
        [GenMapping(Some(true), DollarRefCapabilities, Range(x.start, x.end), Range(|old(genCode)|, |old(genCode)| + |x.name| + 1), Offset)]
      ensures sourceCode == old(sourceCode) && mirrors == old(mirrors) && mirrorTexts == old(mirrorTexts)
    {
      var r := Range(x.start, x.end);
      NotCopySound(originalCode, data.imports, GenMapping(None, DiagnosticOnly, r, Range(|genCode|, |genCode| + |x.name| + 7), In), "$" + x.name + ".value");
      NotCopySound(originalCode, data.imports, GenMapping(Some(true), DollarRefCapabilities, r, Range(|genCode|, |genCode| + |x.name| + 1), Offset), "$" + x.name);
      DollarValueSpans(genCode, x.name, r, mappings, emitted, mirrors, mirrorTexts);
      AddCode("$" + x.name + ".value", None, DiagnosticOnly, r, In, false);
      AddCode("$" + x.name, Some(true), DollarRefCapabilities, r, Offset, true);
      Append(".value");
    }

    /**
     * `writeCenter`: a use site of label variable `name` becomes
     * `$name.value`, preceded by `name: ` when the use site is a shorthand
     * property.
     */
    method WriteCenter(x: InsideRef)
      requires Valid() && 0 <= x.start <= x.end <= |originalCode|
      modifies this
      ensures Valid()
      ensures var sh := Range(x.start, x.end) in data.shorthandPropertys;
        && genCode == old(genCode) + Center(x.name, sh)
        && emitted == old(emitted) + (if sh then [x.name] else []) + ["$" + x.name + ".value", "$" + x.name]
        && mappings == old(mappings) + CenterMappings(x, sh, |old(genCode)|)
      ensures old(mappings) <= mappings && old(emitted) <= emitted
      ensures forall k :: |old(mappings)| <= k < |mappings| ==> mappings[k].scriptSetupRange == Range(x.start, x.end)
      ensures sourceCode == old(sourceCode) && mirrors == old(mirrors) && mirrorTexts == old(mirrorTexts)
    {
      var isShorthand := IsShorthand(x);
      if isShorthand {
        WriteShorthandName(x);
      }
      WriteDollarValue(x);
    }

    /** The `name: ` written before a shorthand property's use site. */
    method WriteShorthandName(x: InsideRef)
      requires Valid() && 0 <= x.start <= x.end <= |originalCode|
      modifies this
      ensures Valid()
      ensures genCode == old(genCode) + (x.name + ": ")
      ensures emitted == old(emitted) + [x.name]
      ensures mappings == old(mappings) +
        [GenMapping(None, DiagnosticOnly, Range(x.start, x.end), Range(|old(genCode)|, |old(genCode)| + |x.name|), Offset)]
      ensures sourceCode == old(sourceCode) && mirrors == old(mirrors) && mirrorTexts == old(mirrorTexts)
    {
      AddCode(x.name, None, DiagnosticOnly, Range(x.start, x.end), Offset, true);
      Append(": ");
    }

    /** The use sites of label variables lying wholly inside [start, end), in collection order. */
    method CollectInside(start: int, end: int) returns (inside: seq<InsideRef>)
      ensures inside == Inside(data, start, end)
    {
      inside := [];
      for li := 0 to |data.labels|
        invariant inside == Filter(Tagged(LabelVarsOf(data.labels[..li])), start, end)
      {
        var found := BinarysUses(data.labels[li].binarys, start, end);
        CollectLabelStep(data.labels, li, start, end);
        inside := inside + found;
      }
      assert data.labels[..|data.labels|] == data.labels;
    }

    /**
     * The walk of `mapSubText` over its sorted use sites: each gap is copied
     * from the working text, each use site rewritten by `writeCenter`.
     */
    method WalkUses(insideLabels: seq<InsideRef>, start: int, end: int)
      requires Valid() && 0 <= start && end <= |originalCode| && Chain(insideLabels, start, end)
      modifies this
      ensures Valid()
      ensures genCode == old(genCode) + SubText(sourceCode, insideLabels, start, end, data.shorthandPropertys)
      ensures mappings == old(mappings) + SubMappings(insideLabels, start, end, data.shorthandPropertys, |old(genCode)|)
      ensures old(mappings) <= mappings && old(emitted) <= emitted
      ensures SetupRangesWithin(mappings, |old(mappings)|, start, end)
      ensures sourceCode == old(sourceCode) && mirrors == old(mirrors) && mirrorTexts == old(mirrorTexts)
    {
      var pos := start;
      ghost var whole := genCode + SubText(sourceCode, insideLabels, start, end, data.shorthandPropertys);
      ghost var wholeMs := mappings + SubMappings(insideLabels, start, end, data.shorthandPropertys, |genCode|);
      assert insideLabels[0..] == insideLabels;
      for k := 0 to |insideLabels|
        invariant Valid()
        invariant start <= pos && Chain(insideLabels[k..], pos, end)
        invariant whole == genCode + SubText(sourceCode, insideLabels[k..], pos, end, data.shorthandPropertys)
        invariant wholeMs == mappings + SubMappings(insideLabels[k..], pos, end, data.shorthandPropertys, |genCode|)
        invariant old(mappings) <= mappings && old(emitted) <= emitted
        invariant SetupRangesWithin(mappings, |old(mappings)|, start, end)
        invariant sourceCode == old(sourceCode) && mirrors == old(mirrors) && mirrorTexts == old(mirrorTexts)
      {
        ghost var m0 := mappings;
        WalkStep(k, pos, start, end, insideLabels, whole, wholeMs);
        SetupRangesJoin(m0, mappings, |old(mappings)|, start, end, pos, insideLabels[k].end);
        pos := insideLabels[k].end;
      }
      SubTextLast(whole, genCode, sourceCode, insideLabels, pos, end, data.shorthandPropertys);
      assert insideLabels[|insideLabels|..] == [];
      ghost var m0 := mappings;
      WriteText(pos, end);
      SetupRangesJoin(m0, mappings, |old(mappings)|, start, end, pos, end);
    }

    /** One step of the walk, keeping what the rest of the walk will write. */
    method WalkStep(k: int, pos: int, start: int, end: int, insideLabels: seq<InsideRef>, ghost whole: string,
                    ghost wholeMs: seq<GenMapping>)
      requires Valid() && 0 <= start <= pos && end <= |originalCode| && 0 <= k < |insideLabels|
      requires Chain(insideLabels[k..], pos, end)
      requires whole == genCode + SubText(sourceCode, insideLabels[k..], pos, end, data.shorthandPropertys)
      requires wholeMs == mappings + SubMappings(insideLabels[k..], pos, end, data.shorthandPropertys, |genCode|)
      modifies this
      ensures Valid()
      ensures var x := insideLabels[k];
              && pos <= x.start <= x.end <= end && Chain(insideLabels[k + 1..], x.end, end)
              && whole == genCode + SubText(sourceCode, insideLabels[k + 1..], x.end, end, data.shorthandPropertys)
              && wholeMs == mappings + SubMappings(insideLabels[k + 1..], x.end, end, data.shorthandPropertys, |genCode|)
              && old(mappings) <= mappings && old(emitted) <= emitted
              && SetupRangesWithin(mappings, |old(mappings)|, pos, x.end)
      ensures sourceCode == old(sourceCode) && mirrors == old(mirrors) && mirrorTexts == old(mirrorTexts)
    {
      var site := insideLabels[k];
      var sh := Range(site.start, site.end) in data.shorthandPropertys;
      SubTextStep(whole, genCode, sourceCode, insideLabels, k, pos, end, data.shorthandPropertys);
      SubMappingsStep(wholeMs, mappings, insideLabels, k, pos, end, data.shorthandPropertys, |genCode|);
      ghost var g0, m0 := genCode, mappings;
      WriteUse(pos, site);
      assert |genCode| == |g0| + (site.start - pos) + |Center(site.name, sh)|;
      ConcatAssoc(g0, sourceCode[pos..site.start] + Center(site.name, sh),
                  SubText(sourceCode, insideLabels[k + 1..], site.end, end, data.shorthandPropertys));
    }

    /** One use site of the walk: the gap before it copied, then the site rewritten. */
    method WriteUse(pos: int, site: InsideRef)
      requires Valid() && 0 <= pos <= site.start <= site.end <= |originalCode|
      modifies this
      ensures Valid()
      ensures genCode == old(genCode) + sourceCode[pos..site.start] + Center(site.name, Range(site.start, site.end) in data.shorthandPropertys)
      ensures mappings == old(mappings) + ([GapMapping(pos, site.start, |old(genCode)|)] +
        CenterMappings(site, Range(site.start, site.end) in data.shorthandPropertys, |old(genCode)| + (site.start - pos)))
      ensures old(mappings) <= mappings && old(emitted) <= emitted
      ensures SetupRangesWithin(mappings, |old(mappings)|, pos, site.end)
      ensures sourceCode == old(sourceCode) && mirrors == old(mirrors) && mirrorTexts == old(mirrorTexts)
    {
      WriteText(pos, site.start);
      ghost var m1 := mappings;
      WriteCenter(site);
      assert SetupRangesWithin(m1, |old(mappings)|, pos, site.end) by {
        assert m1 == old(mappings) + [m1[|m1| - 1]];
      }
      SetupRangesJoin(m1, mappings, |old(mappings)|, pos, site.end, site.start, site.end);
      ConcatAssoc(old(mappings), [GapMapping(pos, site.start, |old(genCode)|)],
        CenterMappings(site, Range(site.start, site.end) in data.shorthandPropertys, |old(genCode)| + (site.start - pos)));
    }

    /**
     * `mapSubText`: the window [start, end) of the working text, with every
     * use site of a label variable inside it rewritten, visited in ascending
     * order of start.
     */
    method MapSubText(start: int, end: int) returns (ghost refs: seq<InsideRef>)
      requires ReferencesWellFormed(AllRefs(data), |originalCode|)
      requires Valid() && 0 <= start <= end <= |originalCode|
      modifies this
      ensures Valid()
      ensures refs == SortByStart(Inside(data, start, end)) && Chain(refs, start, end)
      ensures genCode == old(genCode) + SubText(sourceCode, refs, start, end, data.shorthandPropertys)
      ensures mappings == old(mappings) + SubMappings(refs, start, end, data.shorthandPropertys, |old(genCode)|)
      ensures old(mappings) <= mappings && old(emitted) <= emitted
      ensures SetupRangesWithin(mappings, |old(mappings)|, start, end)
      ensures sourceCode == old(sourceCode) && mirrors == old(mirrors) && mirrorTexts == old(mirrorTexts)
    {
      var insideLabels := CollectInside(start, end);
      WindowIsChain(AllRefs(data), start, end, |originalCode|);
      insideLabels := SortByStart(insideLabels);
      refs := insideLabels;
      WalkUses(insideLabels, start, end);
    }

    /**
     * One step of the import loop: the gap before import `i` as whitespace,
     * then the import verbatim; the import is blanked in the working text.
     */
    method EmitImport(i: int)
      requires 0 <= i < |data.imports| && InBounds(data.imports[i], |originalCode|)
      requires 0 <= GapStart(data.imports, i) <= data.imports[i].start && |sourceCode| == |originalCode|
      requires Valid() && |genCode| == |Header| + GapStart(data.imports, i) && |mappings| == 2 * i
      modifies this
      ensures Valid()
      ensures old(mappings) <= mappings && old(emitted) <= emitted && |mappings| == 2 * i + 2
      ensures |genCode| == |Header| + data.imports[i].end
      ensures ImportPair(originalCode, data.imports, mappings, emitted, i)
      ensures sourceCode == old(sourceCode)[..data.imports[i].start] +
                EmptyFill(data.imports[i].end - data.imports[i].start) + old(sourceCode)[data.imports[i].end..]
      ensures mirrors == old(mirrors) && mirrorTexts == old(mirrorTexts)
    {
      EmitImportPair(i);
      BlankImport(i);
    }

    /** The gap before import `i` as whitespace, then the import verbatim. */
    method EmitImportPair(i: int)
      requires 0 <= i < |data.imports| && InBounds(data.imports[i], |originalCode|)
      requires 0 <= GapStart(data.imports, i) <= data.imports[i].start
      requires Valid() && |genCode| == |Header| + GapStart(data.imports, i) && |mappings| == 2 * i
      modifies this
      ensures Valid()
      ensures old(mappings) <= mappings && old(emitted) <= emitted && |mappings| == 2 * i + 2
      ensures |genCode| == |Header| + data.imports[i].end
      ensures ImportPair(originalCode, data.imports, mappings, emitted, i)
      ensures sourceCode == old(sourceCode) && mirrors == old(mirrors) && mirrorTexts == old(mirrorTexts)
    {
      var imp := data.imports[i];
      var importPos := GapStart(data.imports, i);
      NewLinesOnlyShape(originalCode);
      var gap := NewLinesOnly(originalCode)[importPos..imp.start];
      AddCode(gap, None, NoCapabilities, Range(importPos, imp.start), Offset, true);
      ghost var gapMap := mappings[2 * i];
      assert GapEntry(originalCode, importPos, imp.start, gapMap, gap);
      CopySound(originalCode, data.imports, imp, Range(|genCode|, |genCode| + imp.end - imp.start));
      AddCode(originalCode[imp.start..imp.end], None, CopyCapabilities, imp, Offset, true);
      assert mappings[2 * i] == gapMap && emitted[2 * i] == gap;
    }

    /** `replaceStringToEmpty` on import `i` of the working text. */
    method BlankImport(i: int)
      requires 0 <= i < |data.imports| && InBounds(data.imports[i], |originalCode|) && |sourceCode| == |originalCode|
      requires Valid()
      modifies this
      ensures Valid()
      ensures sourceCode == old(sourceCode)[..data.imports[i].start] +
                EmptyFill(data.imports[i].end - data.imports[i].start) + old(sourceCode)[data.imports[i].end..]
      ensures genCode == old(genCode) && mappings == old(mappings) && emitted == old(emitted)
      ensures mirrors == old(mirrors) && mirrorTexts == old(mirrorTexts)
    {
      var imp := data.imports[i];
      ghost var src := sourceCode;
      sourceCode := ReplaceStringToEmpty(sourceCode, imp.start, imp.end);
      ReplaceStringToEmptyFill(src, imp.start, imp.end);
      BlankKeepsAgreement(originalCode, data.imports, src, sourceCode, i);
    }

    /**
     * One optional option of the component: when the range is present,
     * `open`, the block text of the range (mapped with `capabilities`), then
     * `close`; nothing otherwise.
     */
    method EmitOption(r: Option<Range>, open: string, close: string, capabilities: Capabilities)
      requires Valid() && (r.Some? ==> InBounds(r.value, |originalCode|))
      modifies this
      ensures Valid()
      ensures genCode == old(genCode) + OptionText(originalCode, r, open, close)
      ensures mappings == old(mappings) + OptionMapping(r, |old(genCode)| + |open|, capabilities)
      ensures emitted == old(emitted) + PieceOf(originalCode, r)
      ensures sourceCode == old(sourceCode) && mirrors == old(mirrors) && mirrorTexts == old(mirrorTexts)
    {
      if r.Some? {
        EmitPresentOption(r.value, open, close, capabilities);
      }
    }

    /** `open`, the block text of `r` mapped with `capabilities` by offset, then `close`. */
    method EmitPresentOption(r: Range, open: string, close: string, capabilities: Capabilities)
      requires Valid() && InBounds(r, |originalCode|)
      modifies this
      ensures Valid()
      ensures genCode == old(genCode) + (open + originalCode[r.start..r.end] + close)
      ensures mappings == old(mappings) +
                [GenMapping(None, capabilities, r, Range(|old(genCode)| + |open|, |old(genCode)| + |open| + r.end - r.start), Offset)]
      ensures emitted == old(emitted) + [originalCode[r.start..r.end]]
      ensures sourceCode == old(sourceCode) && mirrors == old(mirrors) && mirrorTexts == old(mirrorTexts)
    {
      var text := originalCode[r.start..r.end];
      Append(open);
      WriteBlockRange(r, capabilities);
      Append(close);
      ConcatAssoc(old(genCode), open, text);
      ConcatAssoc(old(genCode), open + text, close);
    }

    /** The block text of `r`, mapped with `capabilities` by offset. */
    method WriteBlockRange(r: Range, capabilities: Capabilities)
      requires Valid() && InBounds(r, |originalCode|)
      modifies this
      ensures Valid()
      ensures genCode == old(genCode) + originalCode[r.start..r.end]
      ensures mappings == old(mappings) +
                [GenMapping(None, capabilities, r, Range(|old(genCode)|, |old(genCode)| + r.end - r.start), Offset)]
      ensures emitted == old(emitted) + [originalCode[r.start..r.end]]
      ensures sourceCode == old(sourceCode) && mirrors == old(mirrors) && mirrorTexts == old(mirrorTexts)
    {
      var text := originalCode[r.start..r.end];
      var m := GenMapping(None, capabilities, r, Range(|genCode|, |genCode| + |text|), Offset);
      if capabilities == CopyCapabilities {
        CopySound(originalCode, data.imports, r, m.genRange);
      } else {
        NotCopySound(originalCode, data.imports, m, text);
      }
      AddCode(text, None, capabilities, r, Offset, true);
    }

    /** Two optional options in a row, both mapped with `capabilities`. */
    method EmitOptionPair(r0: Option<Range>, open0: string, close0: string,
                          r1: Option<Range>, open1: string, close1: string, capabilities: Capabilities)
      requires Valid() && (r0.Some? ==> InBounds(r0.value, |originalCode|)) && (r1.Some? ==> InBounds(r1.value, |originalCode|))
      modifies this
      ensures Valid()
      ensures genCode == old(genCode) + (OptionText(originalCode, r0, open0, close0) + OptionText(originalCode, r1, open1, close1))
      ensures mappings == old(mappings) + (OptionMapping(r0, |old(genCode)| + |open0|, capabilities) +
                          OptionMapping(r1, |old(genCode)| + |OptionText(originalCode, r0, open0, close0)| + |open1|, capabilities))
      ensures emitted == old(emitted) + PieceOf(originalCode, r0) + PieceOf(originalCode, r1)
      ensures sourceCode == old(sourceCode) && mirrors == old(mirrors) && mirrorTexts == old(mirrorTexts)
    {
      EmitOption(r0, open0, close0, capabilities);
      ghost var g := genCode;
      assert |g| == |old(genCode)| + |OptionText(originalCode, r0, open0, close0)|;
      EmitOption(r1, open1, close1, capabilities);
      assert genCode == old(genCode) + (OptionText(originalCode, r0, open0, close0) + OptionText(originalCode, r1, open1, close1)) by {
        ConcatAssoc(old(genCode), OptionText(originalCode, r0, open0, close0), OptionText(originalCode, r1, open1, close1));
      }
      assert mappings == old(mappings) + (OptionMapping(r0, |old(genCode)| + |open0|, capabilities) +
                                          OptionMapping(r1, |g| + |open1|, capabilities)) by {
        ConcatAssoc(old(mappings), OptionMapping(r0, |old(genCode)| + |open0|, capabilities), OptionMapping(r1, |g| + |open1|, capabilities));
      }
    }

    /** The props and emit type arguments, each mapped with no capability. */
    method EmitTypeOptions()
      requires MacroWellFormed(originalCode, data.defineProps) && MacroWellFormed(originalCode, data.defineEmit)
      requires Valid()
      modifies this
      ensures Valid()
      ensures emitted == old(emitted) + PieceOf(originalCode, TypeArgsOf(data.defineProps)) +
                         PieceOf(originalCode, TypeArgsOf(data.defineEmit))
      ensures genCode == old(genCode) + TypeOptionsText(originalCode, data)
      ensures mappings == old(mappings) + TypeOptionsMappings(originalCode, data, |old(genCode)|)
      ensures sourceCode == old(sourceCode) && mirrors == old(mirrors) && mirrorTexts == old(mirrorTexts)
    {
      EmitOptionPair(TypeArgsOf(data.defineProps), PropsTypeOpen, TypeClose,
                     TypeArgsOf(data.defineEmit), EmitsTypeOpen, TypeClose, NoCapabilities);
    }

    /** The props and emit arguments, each mapped with full capabilities. */
    method EmitArgOptions()
      requires MacroWellFormed(originalCode, data.defineProps) && MacroWellFormed(originalCode, data.defineEmit)
      requires Valid()
      modifies this
      ensures Valid()
      ensures emitted == old(emitted) + PieceOf(originalCode, ArgsOf(data.defineProps)) +
                         PieceOf(originalCode, ArgsOf(data.defineEmit))
      ensures genCode == old(genCode) + ArgOptionsText(originalCode, data)
      ensures mappings == old(mappings) + ArgOptionsMappings(originalCode, data, |old(genCode)|)
      ensures sourceCode == old(sourceCode) && mirrors == old(mirrors) && mirrorTexts == old(mirrorTexts)
    {
      EmitOptionPair(ArgsOf(data.defineProps), PropsOpen, ArgClose,
                     ArgsOf(data.defineEmit), EmitsOpen, ArgClose, CopyCapabilities);
    }

    /** `async setup() {`, with `setup` gated to the start of the block. */
    method EmitSetupHead()
      requires Valid()
      modifies this
      ensures Valid()
      ensures old(mappings) <= mappings && old(emitted) <= emitted
      ensures |emitted| >= 1 && emitted[|emitted| - 1] == "setup"
      ensures genCode == old(genCode) + SetupHead
      ensures mappings == old(mappings) +
                [GenMapping(None, NoCapabilities, Range(0, 0), Range(|old(genCode)| + 6, |old(genCode)| + 11), Gate)]
      ensures sourceCode == old(sourceCode) && mirrors == old(mirrors) && mirrorTexts == old(mirrorTexts)
    {
      Append("async ");
      AddCode("setup", None, NoCapabilities, Range(0, 0), Gate, true);
      Append("() {\n");
    }

    /**
     * The component options: the `defineComponent` call head, the props and
     * emit options, and the `setup` function head.
     */
    method EmitOptions()
      requires MacroWellFormed(originalCode, data.defineProps) && MacroWellFormed(originalCode, data.defineEmit)
      requires Valid()
      modifies this
      ensures Valid()
      ensures old(mappings) <= mappings && old(emitted) <= emitted
      ensures |emitted| >= 1 && emitted[|emitted| - 1] == "setup"
      ensures genCode == old(genCode) + ComponentHead + TypeOptionsText(originalCode, data) +
                         ArgOptionsText(originalCode, data) + SetupHead
      ensures var typeAt := |old(genCode)| + |ComponentHead|;
              var argAt := typeAt + |TypeOptionsText(originalCode, data)|;
              var setupAt := argAt + |ArgOptionsText(originalCode, data)|;
              mappings == old(mappings) + TypeOptionsMappings(originalCode, data, typeAt) +
                          ArgOptionsMappings(originalCode, data, argAt) +
                          [GenMapping(None, NoCapabilities, Range(0, 0), Range(setupAt + 6, setupAt + 11), Gate)]
      ensures sourceCode == old(sourceCode) && mirrors == old(mirrors) && mirrorTexts == old(mirrorTexts)
    {
      Append(ComponentHead);
      ghost var g1 := genCode;
      assert |g1| == |old(genCode)| + |ComponentHead|;
      EmitTypeOptions();
      ghost var g2, ms2 := genCode, mappings;
      assert |g2| == |g1| + |TypeOptionsText(originalCode, data)|;
      EmitArgOptions();
      ghost var g3, ms3 := genCode, mappings;
      assert |g3| == |g2| + |ArgOptionsText(originalCode, data)|;
      assert ms3 == old(mappings) + TypeOptionsMappings(originalCode, data, |g1|) + ArgOptionsMappings(originalCode, data, |g2|);
      EmitSetupHead();
    }

    /** The operand of `unref(...)` and `ref(...)`: `__VLS_refs_name`, mapped to the right side when there is one. */
    method EmitRefsOperand(v: LabelVar, right: Option<RightExpr>)
      requires Valid() && (right.Some? ==> InBounds(RightRange(right.value), |originalCode|))
      modifies this
      ensures Valid()
      ensures genCode == old(genCode) + ("__VLS_refs_" + v.text)
      ensures old(emitted) <= emitted
      ensures right.None? ==> mappings == old(mappings) && emitted == old(emitted)
      ensures right.Some? ==>
                mappings == old(mappings) +
                  [GenMapping(Some(false), NoCapabilities, RightRange(right.value), Range(|old(genCode)|, |genCode|), Offset)]
      ensures sourceCode == old(sourceCode) && mirrors == old(mirrors) && mirrorTexts == old(mirrorTexts)
    {
      if right.Some? {
        AddCode("__VLS_refs_" + v.text, Some(false), NoCapabilities, RightRange(right.value), Offset, true);
      } else {
        Append("__VLS_refs_" + v.text);
      }
    }

    /** `let name = unref(...); name;`, returning where `name` was written. */
    method EmitLetDecl(v: LabelVar, right: Option<RightExpr>) returns (leftRange: Range)
      requires Valid() && InBounds(VarRange(v), |originalCode|)
      requires right.Some? ==> InBounds(RightRange(right.value), |originalCode|)
      modifies this
      ensures Valid()
      ensures genCode == old(genCode) + LetDeclText(v)
      ensures mappings == old(mappings) + LetDeclMappings(v, right, |old(genCode)|)
      ensures old(emitted) <= emitted
      ensures leftRange == Range(|old(genCode)| + 4, |old(genCode)| + 4 + |v.text|) && Spans(genCode, leftRange, v.text)
      ensures sourceCode == old(sourceCode) && mirrors == old(mirrors) && mirrorTexts == old(mirrorTexts)
    {
      leftRange := EmitDeclName("let ", v.text, LetCapabilities, VarRange(v));
      ghost var g1, ms1 := genCode, mappings;
      DeclWidths(v);
      assert |g1| + |UnrefOpen| == |old(genCode)| + 4 + |v.text| + UnrefOpenWidth;
      EmitDeclOperand(v, right, UnrefOpen, "); " + v.text + ";\n");
      assert mappings == old(mappings) + LetDeclMappings(v, right, |old(genCode)|) by {
        ConcatAssoc(old(mappings), ms1[|old(mappings)|..], OperandMappings(v, right, |g1| + |UnrefOpen|));
      }
      SpansPrefix(g1, genCode, leftRange, v.text);
      assert genCode == old(genCode) + LetDeclText(v) by {
        LetDeclAssoc(old(genCode), v);
      }
    }

    /** `const $name = ref(...); $name;`, returning where `$name` was written. */
    method EmitDollarDecl(v: LabelVar, right: Option<RightExpr>) returns (rightRange: Range)
      requires Valid() && InBounds(VarRange(v), |originalCode|)
      requires right.Some? ==> InBounds(RightRange(right.value), |originalCode|)
      modifies this
      ensures Valid()
      ensures genCode == old(genCode) + DollarDeclText(v)
      ensures mappings == old(mappings) + DollarDeclMappings(v, right, |old(genCode)|)
      ensures old(emitted) <= emitted
      ensures rightRange == Range(|old(genCode)| + 6, |old(genCode)| + 7 + |v.text|) && Spans(genCode, rightRange, "$" + v.text)
      ensures sourceCode == old(sourceCode) && mirrors == old(mirrors) && mirrorTexts == old(mirrorTexts)
    {
      rightRange := EmitDeclName("const ", "$" + v.text, DollarDeclCapabilities, VarRange(v));
      ghost var g1, ms1 := genCode, mappings;
      DeclWidths(v);
      assert |g1| + |RefOpen| == |old(genCode)| + 7 + |v.text| + RefOpenWidth;
      EmitDeclOperand(v, right, RefOpen, "); $" + v.text + ";\n");
      assert mappings == old(mappings) + DollarDeclMappings(v, right, |old(genCode)|) by {
        ConcatAssoc(old(mappings), ms1[|old(mappings)|..], OperandMappings(v, right, |g1| + |RefOpen|));
      }
      SpansPrefix(g1, genCode, rightRange, "$" + v.text);
      assert genCode == old(genCode) + DollarDeclText(v) by {
        DollarDeclAssoc(old(genCode), v);
      }
    }

    /** `keyword name`, the declared name mapped to the variable's range `r` with `capabilities`; returns where the name went. */
    method EmitDeclName(keyword: string, name: string, capabilities: Capabilities, r: Range) returns (nameRange: Range)
      requires Valid() && InBounds(r, |originalCode|) && capabilities != CopyCapabilities
      modifies this
      ensures Valid()
      ensures genCode == old(genCode) + keyword + name
      ensures nameRange == Range(|old(genCode)| + |keyword|, |old(genCode)| + |keyword| + |name|)
      ensures mappings == old(mappings) + [GenMapping(Some(true), capabilities, r, nameRange, Offset)]
      ensures Spans(genCode, nameRange, name)
      ensures old(emitted) <= emitted
      ensures sourceCode == old(sourceCode) && mirrors == old(mirrors) && mirrorTexts == old(mirrorTexts)
    {
      Append(keyword);
      ghost var g0 := genCode;
      nameRange := Range(|genCode|, |genCode| + |name|);
      AddCode(name, Some(true), capabilities, r, Offset, true);
      SpansTail(g0, name);
    }

    /** The call of `unref` or `ref` on `__VLS_refs_name`: its opening, the operand, then the closing text. */
    method EmitDeclOperand(v: LabelVar, right: Option<RightExpr>, open: string, close: string)
      requires Valid() && (right.Some? ==> InBounds(RightRange(right.value), |originalCode|))
      modifies this
      ensures Valid()
      ensures genCode == old(genCode) + open + RefsName(v) + close
      ensures mappings == old(mappings) + OperandMappings(v, right, |old(genCode)| + |open|)
      ensures old(emitted) <= emitted
      ensures sourceCode == old(sourceCode) && mirrors == old(mirrors) && mirrorTexts == old(mirrorTexts)
    {
      Append(open);
      EmitRefsOperand(v, right);
      Append(close);
    }

    /**
     * The two declarations of a label variable: `let name = unref(...)` and
     * `const $name = ref(...)`, recorded as a mirror of `name` and `$name`.
     */
    method EmitVarDecl(v: LabelVar, right: Option<RightExpr>)
      requires Valid() && InBounds(VarRange(v), |originalCode|)
      requires right.Some? ==> InBounds(RightRange(right.value), |originalCode|)
      modifies this
      ensures Valid()
      ensures genCode == old(genCode) + VarDeclText(v)
      ensures mappings == old(mappings) + VarDeclMappings(v, right, |old(genCode)|)
      ensures mirrors == old(mirrors) + [VarDeclMirror(v, |old(genCode)|)]
      ensures old(emitted) <= emitted
      ensures mirrorTexts == old(mirrorTexts) + [MirrorText(v.text, "$" + v.text)]
      ensures sourceCode == old(sourceCode)
    {
      var leftRange := EmitLetDecl(v, right);
      ghost var g, ms := genCode, mappings;
      var rightRange := EmitDollarDecl(v, right);
      SpansPrefix(g, genCode, leftRange, v.text);
      PushMirror(leftRange, rightRange, v.text, "$" + v.text);
      DeclWidths(v);
      ConcatAssoc(old(genCode), LetDeclText(v), DollarDeclText(v));
      ConcatAssoc(old(mappings), LetDeclMappings(v, right, |old(genCode)|), DollarDeclMappings(v, right, |g|));
    }

    /** The declarations of the variables of one decomposition, in order. */
    method EmitBinaryDecls(b: BinaryRecord)
      requires Valid() && BinaryWellFormed(b, |originalCode|)
      modifies this
      ensures Valid()
      ensures genCode == old(genCode) + DeclsText(BinaryDeclItems(b))
      ensures mappings == old(mappings) + DeclsMappings(BinaryDeclItems(b), |old(genCode)|)
      ensures mirrors == old(mirrors) + DeclsMirrors(BinaryDeclItems(b), |old(genCode)|)
      ensures old(emitted) <= emitted
      ensures mirrorTexts == old(mirrorTexts) + LabelMirrorTexts(b.vars)
      ensures sourceCode == old(sourceCode)
    {
      ghost var items := BinaryDeclItems(b);
      for vi := 0 to |b.vars|
        invariant Valid()
        invariant genCode == old(genCode) + DeclsText(items[..vi])
        invariant mappings == old(mappings) + DeclsMappings(items[..vi], |old(genCode)|)
        invariant mirrors == old(mirrors) + DeclsMirrors(items[..vi], |old(genCode)|)
        invariant old(emitted) <= emitted
        invariant mirrorTexts == old(mirrorTexts) + LabelMirrorTexts(b.vars[..vi])
        invariant sourceCode == old(sourceCode)
      {
        EmitBinaryDecl(b, vi, old(genCode), old(mappings), old(mirrors), old(mirrorTexts));
      }
      assert items[..|b.vars|] == items;
      assert b.vars[..|b.vars|] == b.vars;
    }

    /** The declarations of variable `vi` of a decomposition, after those of the variables before it. */
    method EmitBinaryDecl(b: BinaryRecord, vi: int, ghost g0: string, ghost ms0: seq<GenMapping>,
                          ghost mis0: seq<Mirror>, ghost mts0: seq<MirrorText>)
      requires Valid() && BinaryWellFormed(b, |originalCode|) && 0 <= vi < |b.vars|
      requires genCode == g0 + DeclsText(BinaryDeclItems(b)[..vi])
      requires mappings == ms0 + DeclsMappings(BinaryDeclItems(b)[..vi], |g0|)
      requires mirrors == mis0 + DeclsMirrors(BinaryDeclItems(b)[..vi], |g0|)
      requires mirrorTexts == mts0 + LabelMirrorTexts(b.vars[..vi])
      modifies this
      ensures Valid()
      ensures genCode == g0 + DeclsText(BinaryDeclItems(b)[..vi + 1])
      ensures mappings == ms0 + DeclsMappings(BinaryDeclItems(b)[..vi + 1], |g0|)
      ensures mirrors == mis0 + DeclsMirrors(BinaryDeclItems(b)[..vi + 1], |g0|)
      ensures mirrorTexts == mts0 + LabelMirrorTexts(b.vars[..vi + 1])
      ensures old(emitted) <= emitted && sourceCode == old(sourceCode)
    {
      var prop := b.vars[vi];
      BinaryDeclStep(b, vi);
      EmitNextDecl(DeclItem(prop, b.right), BinaryDeclItems(b)[..vi], g0, ms0, mis0);
      ConcatAssoc(mts0, LabelMirrorTexts(b.vars[..vi]), [MirrorText(prop.text, "$" + prop.text)]);
    }

    /** The declarations of one more variable after those of `done`, written from `g0`. */
    method EmitNextDecl(it: DeclItem, ghost done: seq<DeclItem>, ghost g0: string, ghost ms0: seq<GenMapping>,
                        ghost mis0: seq<Mirror>)
      requires Valid() && InBounds(VarRange(it.v), |originalCode|)
      requires it.right.Some? ==> InBounds(RightRange(it.right.value), |originalCode|)
      requires genCode == g0 + DeclsText(done) && mappings == ms0 + DeclsMappings(done, |g0|)
      requires mirrors == mis0 + DeclsMirrors(done, |g0|)
      modifies this
      ensures Valid()
      ensures genCode == g0 + DeclsText(done + [it]) && mappings == ms0 + DeclsMappings(done + [it], |g0|)
      ensures mirrors == mis0 + DeclsMirrors(done + [it], |g0|)
      ensures old(emitted) <= emitted
      ensures mirrorTexts == old(mirrorTexts) + [MirrorText(it.v.text, "$" + it.v.text)]
      ensures sourceCode == old(sourceCode)
    {
      EmitVarDecl(it.v, it.right);
      DeclsWidthIsLength(done);
      DeclsTextStep(done, it, g0, old(genCode), genCode);
      DeclsMappingsStep(done, it, |g0|, |old(genCode)|, ms0, old(mappings), mappings);
      DeclsMirrorsStep(done, it, |g0|, |old(genCode)|, mis0, old(mirrors), mirrors);
    }

    /** The declarations of every variable a label binds, in order. */
    method EmitLabelDecls(record: LabelRecord)
      requires Valid() && LabelWellFormed(record, |originalCode|)
      modifies this
      ensures Valid()
      ensures genCode == old(genCode) + DeclsText(LabelDeclItems(record.binarys))
      ensures mappings == old(mappings) + DeclsMappings(LabelDeclItems(record.binarys), |old(genCode)|)
      ensures mirrors == old(mirrors) + DeclsMirrors(LabelDeclItems(record.binarys), |old(genCode)|)
      ensures old(emitted) <= emitted
      ensures mirrorTexts == old(mirrorTexts) + LabelMirrorTexts(BinaryVars(record.binarys))
      ensures sourceCode == old(sourceCode)
    {
      for bi := 0 to |record.binarys|
        invariant Valid()
        invariant genCode == old(genCode) + DeclsText(LabelDeclItems(record.binarys[..bi]))
        invariant mappings == old(mappings) + DeclsMappings(LabelDeclItems(record.binarys[..bi]), |old(genCode)|)
        invariant mirrors == old(mirrors) + DeclsMirrors(LabelDeclItems(record.binarys[..bi]), |old(genCode)|)
        invariant old(emitted) <= emitted
        invariant mirrorTexts == old(mirrorTexts) + LabelMirrorTexts(BinaryVars(record.binarys[..bi]))
        invariant sourceCode == old(sourceCode)
      {
        var binary := record.binarys[bi];
        assert BinaryWellFormed(binary, |originalCode|);
        ghost var done := LabelDeclItems(record.binarys[..bi]);
        ghost var g, ms, mis := genCode, mappings, mirrors;
        EmitBinaryDecls(binary);
        DeclsWidthIsLength(done);
        LabelDeclItemsStep(record.binarys, bi);
        DeclsTextJoin(done, BinaryDeclItems(binary), old(genCode), g, genCode);
        DeclsMappingsJoin(done, BinaryDeclItems(binary), |old(genCode)|, |g|, old(mappings), ms, mappings);
        DeclsMirrorsJoin(done, BinaryDeclItems(binary), |old(genCode)|, |g|, old(mirrors), mis, mirrors);
        BinaryVarsStep(record.binarys, bi);
        LabelMirrorTextsAppend(BinaryVars(record.binarys[..bi]), binary.vars);
        ConcatAssoc(old(mirrorTexts), LabelMirrorTexts(BinaryVars(record.binarys[..bi])), LabelMirrorTexts(binary.vars));
      }
      assert record.binarys[..|record.binarys|] == record.binarys;
    }

    /**
     * `{ let left = right, ...; }`: each left side once more, mapped for
     * completion, definitions and semantic tokens, followed by its right
     * side as plain text.
     */
    method EmitLetLine(record: LabelRecord)
      requires Valid() && LabelWellFormed(record, |originalCode|)
      modifies this
      ensures Valid()
      ensures old(mappings) <= mappings && old(emitted) <= emitted
      ensures LetLefts(mappings, |old(mappings)|, record.binarys, |record.binarys|)
      ensures genCode == old(genCode) + LetLineText(originalCode, record.binarys)
      ensures sourceCode == old(sourceCode) && mirrors == old(mirrors) && mirrorTexts == old(mirrorTexts)
    {
      Append("{ ");
      EmitLetParts(record);
      ghost var parts := LetParts(originalCode, record.binarys, |record.binarys|);
      assert genCode == old(genCode) + ("{ " + parts);
      Append("; }\n");
    }

    /** The declarators of the `let` line, in order. */
    method EmitLetParts(record: LabelRecord)
      requires Valid() && LabelWellFormed(record, |originalCode|)
      modifies this
      ensures Valid()
      ensures old(mappings) <= mappings && old(emitted) <= emitted
      ensures LetLefts(mappings, |old(mappings)|, record.binarys, |record.binarys|)
      ensures genCode == old(genCode) + LetParts(originalCode, record.binarys, |record.binarys|)
      ensures sourceCode == old(sourceCode) && mirrors == old(mirrors) && mirrorTexts == old(mirrorTexts)
    {
      var first := true;
      for bi := 0 to |record.binarys|
        invariant Valid()
        invariant first <==> bi == 0
        invariant old(mappings) <= mappings && old(emitted) <= emitted
        invariant LetLefts(mappings, |old(mappings)|, record.binarys, bi)
        invariant genCode == old(genCode) + LetParts(originalCode, record.binarys, bi)
        invariant sourceCode == old(sourceCode) && mirrors == old(mirrors) && mirrorTexts == old(mirrorTexts)
      {
        EmitNextLetPart(record, bi, first, old(genCode), |old(mappings)|);
        first := false;
      }
    }

    /** Declarator `bi` of the `let` line, after those before it, written since `g0`. */
    method EmitNextLetPart(record: LabelRecord, bi: int, first: bool, ghost g0: string, ghost base: int)
      requires Valid() && LabelWellFormed(record, |originalCode|) && 0 <= bi < |record.binarys| && (first <==> bi == 0)
      requires LetLefts(mappings, base, record.binarys, bi)
      requires genCode == g0 + LetParts(originalCode, record.binarys, bi)
      modifies this
      ensures Valid()
      ensures old(mappings) <= mappings && old(emitted) <= emitted
      ensures LetLefts(mappings, base, record.binarys, bi + 1)
      ensures genCode == g0 + LetParts(originalCode, record.binarys, bi + 1)
      ensures sourceCode == old(sourceCode) && mirrors == old(mirrors) && mirrorTexts == old(mirrorTexts)
    {
      assert BinaryWellFormed(record.binarys[bi], |originalCode|);
      ghost var before, part := LetParts(originalCode, record.binarys, bi), LetPart(originalCode, record.binarys[bi], first);
      EmitLetPart(record.binarys[bi], first);
      LetLeftsStep(old(mappings), base, record.binarys, bi, mappings[|mappings| - 1]);
      assert genCode == g0 + LetParts(originalCode, record.binarys, bi + 1) by {
        ConcatAssoc(g0, before, part);
      }
    }

    /** One declarator of the `let` line: `let ` or `, `, the left side as written, then ` = right` when there is one. */
    method EmitLetPart(binary: BinaryRecord, first: bool)
      requires Valid() && BinaryWellFormed(binary, |originalCode|)
      modifies this
      ensures Valid()
      ensures old(emitted) <= emitted
      ensures |mappings| == |old(mappings)| + 1 && mappings == old(mappings) + [mappings[|mappings| - 1]]
      ensures LetLeft(mappings[|mappings| - 1], binary)
      ensures genCode == old(genCode) + LetPart(originalCode, binary, first)
      ensures sourceCode == old(sourceCode) && mirrors == old(mirrors) && mirrorTexts == old(mirrorTexts)
    {
      ghost var g0 := genCode;
      var head := if first then "let " else ", ";
      var left := originalCode[binary.left.start..binary.left.end];
      var rest := if binary.right.Some? then " = " + originalCode[binary.right.value.start..binary.right.value.end] else "";
      Append(head);
      ghost var g1, m1 := genCode, mappings;
      AddCode(left, Some(false), LeftCapabilities, binary.left, Offset, true);
      ghost var m := GenMapping(Some(false), LeftCapabilities, binary.left, Range(|g1|, |g1| + |left|), Offset);
      assert mappings == m1 + [m] && LetLeft(m, binary);
      if binary.right.Some? {
        Append(rest);
      }
      assert genCode == g0 + (head + left + rest);
    }

    /**
     * The left side of one decomposition in the `const` line: its text with
     * each bound variable `name` replaced by `__VLS_refs_name` (gated to the
     * variable, diagnostics only), a shorthand property first spelling out
     * `name: `.
     */
    method EmitBinaryLeft(b: BinaryRecord)
      requires Valid() && BinaryWellFormed(b, |originalCode|)
      modifies this
      ensures Valid()
      ensures genCode == old(genCode) + RenamedLeft(originalCode, b)
      ensures mappings == old(mappings) + RenamedVarsMappings(originalCode, b, |b.vars|, |old(genCode)|)
      ensures old(emitted) <= emitted
      ensures forall k :: |old(mappings)| <= k < |mappings| ==>
                && mappings[k].capabilities == DiagnosticOnly && mappings[k].isNoDollarRef == Some(false)
                && b.left.start <= mappings[k].scriptSetupRange.start <= mappings[k].scriptSetupRange.end <= b.left.end
      ensures sourceCode == old(sourceCode) && mirrors == old(mirrors) && mirrorTexts == old(mirrorTexts)
    {
      var leftPos := b.left.start;
      for vi := 0 to |b.vars|
        invariant Valid()
        invariant leftPos == PrevVarEnd(b, vi)
        invariant genCode == old(genCode) + RenamedVars(originalCode, b, vi)
        invariant mappings == old(mappings) + RenamedVarsMappings(originalCode, b, vi, |old(genCode)|)
        invariant old(emitted) <= emitted
        invariant sourceCode == old(sourceCode) && mirrors == old(mirrors) && mirrorTexts == old(mirrorTexts)
      {
        EmitRenamedVar(b, vi, leftPos, old(genCode), old(mappings));
        leftPos := b.vars[vi].end;
      }
      PrevVarEndBefore(b, |b.vars|, |originalCode|);
      Append(originalCode[leftPos..b.left.end]);
      ConcatAssoc(old(genCode), RenamedVars(originalCode, b, |b.vars|), originalCode[leftPos..b.left.end]);
      RenamedVarsMappingsWithin(originalCode, b, |b.vars|, |old(genCode)|);
    }

    /** Variable `vi` of a decomposition's left side and the text before it, after the variables before it. */
    method EmitRenamedVar(b: BinaryRecord, vi: int, leftPos: int, ghost g0: string, ghost ms0: seq<GenMapping>)
      requires Valid() && BinaryWellFormed(b, |originalCode|) && 0 <= vi < |b.vars| && leftPos == PrevVarEnd(b, vi)
      requires genCode == g0 + RenamedVars(originalCode, b, vi)
      requires mappings == ms0 + RenamedVarsMappings(originalCode, b, vi, |g0|)
      modifies this
      ensures Valid()
      ensures genCode == g0 + RenamedVars(originalCode, b, vi + 1)
      ensures mappings == ms0 + RenamedVarsMappings(originalCode, b, vi + 1, |g0|)
      ensures old(emitted) <= emitted
      ensures sourceCode == old(sourceCode) && mirrors == old(mirrors) && mirrorTexts == old(mirrorTexts)
    {
      var prop := b.vars[vi];
      RenamedVarsStep(originalCode, b, vi, |g0|);
      var before := originalCode[leftPos..prop.start];
      ghost var done := RenamedVars(originalCode, b, vi);
      assert |genCode| + |before| == |g0| + |done| + |before|;
      EmitVarRef(prop, before);
      assert genCode == g0 + RenamedVars(originalCode, b, vi + 1) by {
        ConcatAssoc(g0, done, before);
        ConcatAssoc(g0, done + before, VarRefText(prop));
      }
      assert mappings == ms0 + RenamedVarsMappings(originalCode, b, vi + 1, |g0|) by {
        ConcatAssoc(ms0, RenamedVarsMappings(originalCode, b, vi, |g0|), VarRefMappings(prop, |g0| + |done| + |before|));
      }
    }

    /** The text before a bound variable, then the variable as `[name: ]__VLS_refs_name`. */
    method EmitVarRef(prop: LabelVar, before: string)
      requires Valid() && InBounds(VarRange(prop), |originalCode|)
      modifies this
      ensures Valid()
      ensures genCode == old(genCode) + before + VarRefText(prop)
      ensures mappings == old(mappings) + VarRefMappings(prop, |old(genCode)| + |before|)
      ensures old(emitted) <= emitted
      ensures sourceCode == old(sourceCode) && mirrors == old(mirrors) && mirrorTexts == old(mirrorTexts)
    {
      Append(before);
      EmitVarRefAt(prop);
      ConcatAssoc(old(genCode), before, VarRefText(prop));
    }

    /** A bound variable as `[name: ]__VLS_refs_name`, at the end of the generated text. */
    method EmitVarRefAt(prop: LabelVar)
      requires Valid() && InBounds(VarRange(prop), |originalCode|)
      modifies this
      ensures Valid()
      ensures genCode == old(genCode) + VarRefText(prop)
      ensures mappings == old(mappings) + VarRefMappings(prop, |old(genCode)|)
      ensures old(emitted) <= emitted
      ensures sourceCode == old(sourceCode) && mirrors == old(mirrors) && mirrorTexts == old(mirrorTexts)
    {
      if prop.isShorthand {
        EmitShorthandName(prop);
        ghost var ms := mappings;
        EmitRefsName(prop);
        ConcatAssoc(old(genCode), prop.text + ": ", RefsName(prop));
        ConcatAssoc(old(mappings), ms[|old(mappings)|..], mappings[|ms|..]);
      } else {
        EmitRefsName(prop);
      }
    }

    /** `__VLS_refs_name`, gated to the variable for diagnostics only. */
    method EmitRefsName(prop: LabelVar)
      requires Valid() && InBounds(VarRange(prop), |originalCode|)
      modifies this
      ensures Valid()
      ensures genCode == old(genCode) + RefsName(prop)
      ensures mappings == old(mappings) +
        [GenMapping(Some(false), DiagnosticOnly, VarRange(prop), Range(|old(genCode)|, |old(genCode)| + |RefsName(prop)|), Gate)]
      ensures old(emitted) <= emitted
      ensures sourceCode == old(sourceCode) && mirrors == old(mirrors) && mirrorTexts == old(mirrorTexts)
    {
      var refs := GenMapping(Some(false), DiagnosticOnly, VarRange(prop), Range(|genCode|, |genCode| + |RefsName(prop)|), Gate);
      NotCopySound(originalCode, data.imports, refs, RefsName(prop));
      AddCode(RefsName(prop), Some(false), DiagnosticOnly, VarRange(prop), Gate, true);
    }

    /** The spelled-out `name: ` of a shorthand property, mapped to the variable for diagnostics only. */
    method EmitShorthandName(prop: LabelVar)
      requires Valid() && InBounds(VarRange(prop), |originalCode|) && prop.isShorthand
      modifies this
      ensures Valid()
      ensures genCode == old(genCode) + (prop.text + ": ")
      ensures mappings == old(mappings) + VarRefMappings(prop, |old(genCode)|)[..1]
      ensures old(emitted) <= emitted
      ensures sourceCode == old(sourceCode) && mirrors == old(mirrors) && mirrorTexts == old(mirrorTexts)
    {
      AddCode(prop.text, Some(false), DiagnosticOnly, VarRange(prop), Offset, true);
      Append(": ");
    }

    /**
     * `const left = right, ...;`: each left side with its variables renamed,
     * each right side through `mapSubText`.
     */
    method EmitConstLine(record: LabelRecord)
      requires ReferencesWellFormed(AllRefs(data), |originalCode|)
      requires Valid() && LabelWellFormed(record, |originalCode|)
      modifies this
      ensures Valid()
      ensures old(genCode) <= genCode
      ensures old(mappings) <= mappings && old(emitted) <= emitted
      ensures sourceCode == old(sourceCode) && mirrors == old(mirrors) && mirrorTexts == old(mirrorTexts)
    {
      var first := true;
      for bi := 0 to |record.binarys|
        invariant Valid()
        invariant old(genCode) <= genCode
        invariant first <==> bi == 0
        invariant old(mappings) <= mappings && old(emitted) <= emitted
        invariant sourceCode == old(sourceCode) && mirrors == old(mirrors) && mirrorTexts == old(mirrorTexts)
      {
        assert BinaryWellFormed(record.binarys[bi], |originalCode|);
        EmitConstPart(record.binarys[bi], first);
        first := false;
      }
      Append(";\n");
    }

    /** One declarator of the `const` line: `const ` or `, `, the renamed left side, then ` = ` and the mapped right side when there is one. */
    method EmitConstPart(binary: BinaryRecord, first: bool)
      requires ReferencesWellFormed(AllRefs(data), |originalCode|)
      requires Valid() && BinaryWellFormed(binary, |originalCode|)
      modifies this
      ensures Valid()
      ensures old(genCode) <= genCode
      ensures old(mappings) <= mappings && old(emitted) <= emitted
      ensures sourceCode == old(sourceCode) && mirrors == old(mirrors) && mirrorTexts == old(mirrorTexts)
    {
      Append(if first then "const " else ", ");
      EmitBinaryLeft(binary);
      if binary.right.Some? {
        Append(" = ");
        var _ := MapSubText(binary.right.value.start, binary.right.value.end);
      }
    }

    /**
     * One `ref:` label: the text since the previous label through
     * `mapSubText`, then the `let` line, the `const` line and the
     * declarations of its variables.
     */
    method EmitLabel(record: LabelRecord, tsOffset: int) returns (ghost refs: seq<InsideRef>, ghost letAt: int)
      requires ReferencesWellFormed(AllRefs(data), |originalCode|)
      requires Valid() && LabelWellFormed(record, |originalCode|) && 0 <= tsOffset <= record.start
      modifies this
      ensures Valid()
      ensures old(mappings) <= mappings && old(emitted) <= emitted && old(mirrors) <= mirrors && old(genCode) <= genCode
      ensures refs == SortByStart(Inside(data, tsOffset, record.start))
      ensures LabelHeadAt(genCode, mappings, sourceCode, originalCode, data.shorthandPropertys, refs, tsOffset, record,
                          |old(genCode)|, letAt)
      ensures |old(mappings)| <= letAt && SetupRangesWithin(mappings[..letAt], |old(mappings)|, tsOffset, record.start)
      ensures mirrorTexts == old(mirrorTexts) + LabelMirrorTexts(BinaryVars(record.binarys))
      ensures sourceCode == old(sourceCode)
    {
      refs, letAt := EmitLabelHead(record, tsOffset);
      ghost var g, ms := genCode, mappings;
      EmitConstLine(record);
      EmitLabelDecls(record);
      LabelHeadAtGrow(g, genCode, ms, mappings, sourceCode, originalCode, data.shorthandPropertys, refs, tsOffset, record,
                      |old(genCode)|, letAt);
      assert mappings[..letAt] == ms[..letAt];
    }

    /** The text since the previous label through `mapSubText`, then the label's `let` line. */
    method EmitLabelHead(record: LabelRecord, tsOffset: int) returns (ghost refs: seq<InsideRef>, ghost letAt: int)
      requires ReferencesWellFormed(AllRefs(data), |originalCode|)
      requires Valid() && LabelWellFormed(record, |originalCode|) && 0 <= tsOffset <= record.start
      modifies this
      ensures Valid()
      ensures old(mappings) <= mappings && old(emitted) <= emitted && old(genCode) <= genCode
      ensures refs == SortByStart(Inside(data, tsOffset, record.start))
      ensures LabelHeadAt(genCode, mappings, sourceCode, originalCode, data.shorthandPropertys, refs, tsOffset, record,
                          |old(genCode)|, letAt)
      ensures |old(mappings)| <= letAt && SetupRangesWithin(mappings[..letAt], |old(mappings)|, tsOffset, record.start)
      ensures sourceCode == old(sourceCode) && mirrors == old(mirrors) && mirrorTexts == old(mirrorTexts)
    {
      refs := MapSubText(tsOffset, record.start);
      letAt := |mappings|;
      ghost var g1, m1 := genCode, mappings;
      EmitLetLine(record);
      LabelHeadAtIntro(old(genCode), g1, genCode, old(mappings), m1, mappings, sourceCode, originalCode,
                       data.shorthandPropertys, refs, tsOffset, record);
    }

    /**
     * The labels in order, each preceded by the text since the previous
     * one, then the rest of the working text; the mirrors recorded are the
     * label variables' `name`/`$name` pairs in order.
     */
    method EmitLabels() returns (ghost labelRefs: seq<seq<InsideRef>>, ghost at: seq<int>, ghost letAts: seq<int>,
                                 ghost tailRefs: seq<InsideRef>)
      requires ReferencesWellFormed(AllRefs(data), |originalCode|) && LabelsWellFormed(originalCode, data.labels)
      requires Valid()
      modifies this
      ensures Valid()
      ensures old(mappings) <= mappings && old(emitted) <= emitted && old(mirrors) <= mirrors && old(genCode) <= genCode
      ensures LabelHeadsAt(genCode, mappings, sourceCode, originalCode, data.shorthandPropertys,
                           data.labels, labelRefs, at, letAts, |data.labels|)
      ensures var last := PrevEnd(data.labels, |data.labels|);
              && 0 <= last <= |sourceCode| && tailRefs == SortByStart(Inside(data, last, |sourceCode|))
              && WindowAtEnd(genCode, mappings, sourceCode, data.shorthandPropertys, tailRefs, last)
      ensures mirrorTexts == old(mirrorTexts) + LabelMirrorTexts(LabelVarsOf(data.labels))
      ensures sourceCode == old(sourceCode)
    {
      var tsOffset;
      tsOffset, labelRefs, at, letAts := EmitEachLabel();
      ghost var g, ms := genCode, mappings;
      tailRefs := MapSubText(tsOffset, |sourceCode|);
      WindowAppended(g, ms, sourceCode, data.shorthandPropertys, tailRefs, tsOffset);
      LabelHeadsAtGrow(g, genCode, ms, mappings, sourceCode, originalCode, data.shorthandPropertys,
                       data.labels, labelRefs, at, letAts, |data.labels|);
    }

    /** Label `li`, extending what the labels before it have written. */
    method EmitNextLabel(li: int, tsOffset: int, ghost labelRefs: seq<seq<InsideRef>>, ghost at: seq<int>,
                         ghost letAts: seq<int>)
      returns (ghost labelRefs': seq<seq<InsideRef>>, ghost at': seq<int>, ghost letAts': seq<int>)
      requires ReferencesWellFormed(AllRefs(data), |originalCode|) && LabelsWellFormed(originalCode, data.labels)
      requires Valid() && 0 <= li < |data.labels| && tsOffset == PrevEnd(data.labels, li)
      requires LabelHeadsAt(genCode, mappings, sourceCode, originalCode, data.shorthandPropertys,
                            data.labels, labelRefs, at, letAts, li)
      modifies this
      ensures Valid()
      ensures old(mappings) <= mappings && old(emitted) <= emitted && old(mirrors) <= mirrors && old(genCode) <= genCode
      ensures LabelHeadsAt(genCode, mappings, sourceCode, originalCode, data.shorthandPropertys,
                           data.labels, labelRefs', at', letAts', li + 1)
      ensures mirrorTexts == old(mirrorTexts) + LabelMirrorTexts(BinaryVars(data.labels[li].binarys))
      ensures sourceCode == old(sourceCode)
    {
      var record := data.labels[li];
      assert LabelWellFormed(record, |originalCode|);
      assert tsOffset <= record.start by {
        if li > 0 {
          assert data.labels[li - 1].end <= data.labels[li].start;
        }
      }
      ghost var refs, letAt := EmitLabel(record, tsOffset);
      LabelHeadsAtGrow(old(genCode), genCode, old(mappings), mappings, sourceCode, originalCode, data.shorthandPropertys,
                       data.labels, labelRefs, at, letAts, li);
      LabelHeadsAtSnoc(genCode, mappings, sourceCode, originalCode, data.shorthandPropertys,
                       data.labels, labelRefs, at, letAts, li, refs, |old(genCode)|, letAt);
      labelRefs', at', letAts' := labelRefs + [refs], at + [|old(genCode)|], letAts + [letAt];
    }

    /** Every label in order, returning where the text after the last one starts. */
    method EmitEachLabel() returns (tsOffset: int, ghost labelRefs: seq<seq<InsideRef>>, ghost at: seq<int>, ghost letAts: seq<int>)
      requires ReferencesWellFormed(AllRefs(data), |originalCode|) && LabelsWellFormed(originalCode, data.labels)
      requires Valid()
      modifies this
      ensures Valid()
      ensures tsOffset == PrevEnd(data.labels, |data.labels|) && 0 <= tsOffset <= |originalCode|
      ensures old(mappings) <= mappings && old(emitted) <= emitted && old(mirrors) <= mirrors && old(genCode) <= genCode
      ensures LabelHeadsAt(genCode, mappings, sourceCode, originalCode, data.shorthandPropertys,
                           data.labels, labelRefs, at, letAts, |data.labels|)
      ensures mirrorTexts == old(mirrorTexts) + LabelMirrorTexts(LabelVarsOf(data.labels))
      ensures sourceCode == old(sourceCode)
    {
      tsOffset := 0;
      labelRefs, at, letAts := [], [], [];
      for li := 0 to |data.labels|
        invariant Valid()
        invariant tsOffset == PrevEnd(data.labels, li)
        invariant 0 <= tsOffset <= |originalCode|
        invariant old(mappings) <= mappings && old(emitted) <= emitted && old(mirrors) <= mirrors && old(genCode) <= genCode
        invariant LabelHeadsAt(genCode, mappings, sourceCode, originalCode, data.shorthandPropertys,
                               data.labels, labelRefs, at, letAts, li)
        invariant mirrorTexts == old(mirrorTexts) + LabelMirrorTexts(LabelVarsOf(data.labels[..li]))
        invariant sourceCode == old(sourceCode)
      {
        var record := data.labels[li];
        labelRefs, at, letAts := EmitNextLabel(li, tsOffset, labelRefs, at, letAts);
        LabelVarsStep(data.labels, li);
        LabelMirrorTextsAppend(LabelVarsOf(data.labels[..li]), BinaryVars(record.binarys));
        ConcatAssoc(old(mirrorTexts), LabelMirrorTexts(LabelVarsOf(data.labels[..li])), LabelMirrorTexts(BinaryVars(record.binarys)));
        tsOffset := record.end;
      }
      assert data.labels[..|data.labels|] == data.labels;
    }

    /**
     * `name: name` and a separator in the returned object, each spelling
     * mapped to the same block range with no capability, recorded as a
     * mirror of the two spellings.
     */
    method EmitReturnedPair(name: string, isNoDollarRef: Option<bool>, r: Range, sep: string)
      requires Valid() && InBounds(r, |originalCode|)
      modifies this
      ensures Valid()
      ensures genCode == old(genCode) + name + ": " + name + sep
      ensures mappings == old(mappings) +
                [GenMapping(isNoDollarRef, NoCapabilities, r, Range(|old(genCode)|, |old(genCode)| + |name|), Offset),
                 GenMapping(isNoDollarRef, NoCapabilities, r,
                            Range(|old(genCode)| + |name| + 2, |old(genCode)| + 2 * |name| + 2), Offset)]
      ensures old(emitted) <= emitted
      ensures mirrors == old(mirrors) +
                [Mirror(Range(|old(genCode)|, |old(genCode)| + |name|),
                        Range(|old(genCode)| + |name| + 2, |old(genCode)| + 2 * |name| + 2))]
      ensures mirrorTexts == old(mirrorTexts) + [MirrorText(name, name)]
      ensures sourceCode == old(sourceCode)
    {
      var leftRange, rightRange := EmitNamePair(name, isNoDollarRef, r);
      ghost var g2 := genCode;
      Append(sep);
      SpansPrefix(g2, genCode, leftRange, name);
      SpansPrefix(g2, genCode, rightRange, name);
      PushMirror(leftRange, rightRange, name, name);
    }

    /** `name: name`, each spelling mapped to `r` with no capability; returns where the two spellings went. */
    method EmitNamePair(name: string, isNoDollarRef: Option<bool>, r: Range) returns (leftRange: Range, rightRange: Range)
      requires Valid() && InBounds(r, |originalCode|)
      modifies this
      ensures Valid()
      ensures genCode == old(genCode) + name + ": " + name
      ensures leftRange == Range(|old(genCode)|, |old(genCode)| + |name|)
      ensures rightRange == Range(|old(genCode)| + |name| + 2, |old(genCode)| + 2 * |name| + 2)
      ensures mappings == old(mappings) +
                [GenMapping(isNoDollarRef, NoCapabilities, r, leftRange, Offset),
                 GenMapping(isNoDollarRef, NoCapabilities, r, rightRange, Offset)]
      ensures Spans(genCode, leftRange, name) && Spans(genCode, rightRange, name)
      ensures old(emitted) <= emitted
      ensures sourceCode == old(sourceCode) && mirrors == old(mirrors) && mirrorTexts == old(mirrorTexts)
    {
      ghost var g0 := genCode;
      leftRange := Range(|genCode|, |genCode| + |name|);
      AddCode(name, isNoDollarRef, NoCapabilities, r, Offset, true);
      ghost var ms1 := mappings;
      SpansTail(g0, name);
      Append(": ");
      ghost var g1 := genCode;
      assert |g1| == |g0| + |name| + 2;
      rightRange := Range(|genCode|, |genCode| + |name|);
      AddCode(name, isNoDollarRef, NoCapabilities, r, Offset, true);
      SpansTail(g1, name);
      assert mappings == ms1 + [mappings[|mappings| - 1]];
      SpansPrefix(g0 + name, genCode, leftRange, name);
    }

    /** The entry `p`, extending the run of entries `ps` written since `g0`. */
    method EmitNextPair(p: ReturnedPair, ghost ps: seq<ReturnedPair>, ghost g0: string, ghost ms0: seq<GenMapping>,
                        ghost mis0: seq<Mirror>)
      requires Valid() && InBounds(p.range, |originalCode|)
      requires genCode == g0 + PairsText(ps) && mappings == ms0 + PairsMappings(ps, |g0|)
      requires mirrors == mis0 + PairsMirrors(ps, |g0|)
      modifies this
      ensures Valid()
      ensures genCode == g0 + PairsText(ps + [p]) && mappings == ms0 + PairsMappings(ps + [p], |g0|)
      ensures mirrors == mis0 + PairsMirrors(ps + [p], |g0|)
      ensures old(emitted) <= emitted
      ensures mirrorTexts == old(mirrorTexts) + [MirrorText(p.name, p.name)]
      ensures sourceCode == old(sourceCode)
    {
      ghost var at := |genCode|;
      assert at == |g0| + PairsWidth(ps) by {
        PairsWidthIsLength(ps);
      }
      EmitReturnedPair(p.name, p.isNoDollarRef, p.range, p.sep);
      PairsSnoc(ps, p, |g0|);
      assert genCode == g0 + PairsText(ps + [p]) by {
        ConcatAssoc(g0, PairsText(ps), PairText(p));
      }
      assert mappings == ms0 + PairsMappings(ps + [p], |g0|) by {
        assert mappings == old(mappings) + PairMappings(p, at);
        ConcatAssoc(ms0, PairsMappings(ps, |g0|), PairMappings(p, at));
      }
      assert mirrors == mis0 + PairsMirrors(ps + [p], |g0|) by {
        assert mirrors == old(mirrors) + [PairMirror(p, at)];
        ConcatAssoc(mis0, PairsMirrors(ps, |g0|), [PairMirror(p, at)]);
      }
    }

    /** Every exposed name of the block, in order, as `name: name,`. */
    method EmitExposes()
      requires forall k :: 0 <= k < |data.exposeVarNames| ==> InBounds(data.exposeVarNames[k], |originalCode|)
      requires Valid()
      modifies this
      ensures Valid()
      ensures genCode == old(genCode) + PairsText(ExposePairs(originalCode, data.exposeVarNames))
      ensures mappings == old(mappings) + PairsMappings(ExposePairs(originalCode, data.exposeVarNames), |old(genCode)|)
      ensures mirrors == old(mirrors) + PairsMirrors(ExposePairs(originalCode, data.exposeVarNames), |old(genCode)|)
      ensures old(emitted) <= emitted
      ensures mirrorTexts == old(mirrorTexts) + ExposeMirrorTexts(originalCode, data.exposeVarNames)
      ensures sourceCode == old(sourceCode)
    {
      for i := 0 to |data.exposeVarNames|
        invariant Valid()
        invariant genCode == old(genCode) + PairsText(ExposePairs(originalCode, data.exposeVarNames[..i]))
        invariant mappings == old(mappings) + PairsMappings(ExposePairs(originalCode, data.exposeVarNames[..i]), |old(genCode)|)
        invariant mirrors == old(mirrors) + PairsMirrors(ExposePairs(originalCode, data.exposeVarNames[..i]), |old(genCode)|)
        invariant old(emitted) <= emitted
        invariant mirrorTexts == old(mirrorTexts) + ExposeMirrorTexts(originalCode, data.exposeVarNames[..i])
        invariant sourceCode == old(sourceCode)
      {
        EmitExpose(i, old(genCode), old(mappings), old(mirrors), old(mirrorTexts));
      }
      assert data.exposeVarNames[..|data.exposeVarNames|] == data.exposeVarNames;
    }

    /** Exposed name `i` as `name: name,`, after the names before it, written since `g0`. */
    method EmitExpose(i: int, ghost g0: string, ghost ms0: seq<GenMapping>, ghost mis0: seq<Mirror>, ghost mts0: seq<MirrorText>)
      requires forall k :: 0 <= k < |data.exposeVarNames| ==> InBounds(data.exposeVarNames[k], |originalCode|)
      requires Valid() && 0 <= i < |data.exposeVarNames|
      requires genCode == g0 + PairsText(ExposePairs(originalCode, data.exposeVarNames[..i]))
      requires mappings == ms0 + PairsMappings(ExposePairs(originalCode, data.exposeVarNames[..i]), |g0|)
      requires mirrors == mis0 + PairsMirrors(ExposePairs(originalCode, data.exposeVarNames[..i]), |g0|)
      requires mirrorTexts == mts0 + ExposeMirrorTexts(originalCode, data.exposeVarNames[..i])
      modifies this
      ensures Valid()
      ensures genCode == g0 + PairsText(ExposePairs(originalCode, data.exposeVarNames[..i + 1]))
      ensures mappings == ms0 + PairsMappings(ExposePairs(originalCode, data.exposeVarNames[..i + 1]), |g0|)
      ensures mirrors == mis0 + PairsMirrors(ExposePairs(originalCode, data.exposeVarNames[..i + 1]), |g0|)
      ensures old(emitted) <= emitted
      ensures mirrorTexts == mts0 + ExposeMirrorTexts(originalCode, data.exposeVarNames[..i + 1])
      ensures sourceCode == old(sourceCode)
    {
      var expose := data.exposeVarNames[i];
      var varName := originalCode[expose.start..expose.end];
      ExposePairsStep(originalCode, data.exposeVarNames, i);
      EmitNextPair(ReturnedPair(varName, None, expose, ",\n"), ExposePairs(originalCode, data.exposeVarNames[..i]), g0, ms0, mis0);
      ExposeMirrorTextsStep(originalCode, data.exposeVarNames, i);
      ConcatAssoc(mts0, ExposeMirrorTexts(originalCode, data.exposeVarNames[..i]), [MirrorText(varName, varName)]);
    }

    /** A variable's entry `name: name, ` when it is declared at the top level; nothing otherwise. */
    method EmitRootVar(v: LabelVar)
      requires Valid() && InBounds(VarRange(v), |originalCode|)
      modifies this
      ensures Valid()
      ensures v.inRoot ==> genCode == old(genCode) + v.text + ": " + v.text + ", \n"
      ensures !v.inRoot ==> genCode == old(genCode) && mappings == old(mappings) && mirrors == old(mirrors)
      ensures RootsWritten(genCode, mappings, mirrors, mirrorTexts, [v], old(genCode), old(mappings), old(mirrors), old(mirrorTexts))
      ensures old(emitted) <= emitted
      ensures sourceCode == old(sourceCode)
    {
      assert RootVars([v]) == RootVars([]) + if v.inRoot then [v] else [];
      if v.inRoot {
        var p := ReturnedPair(v.text, Some(true), VarRange(v), ", \n");
        EmitReturnedPair(p.name, p.isNoDollarRef, p.range, p.sep);
        assert RootPairs([v]) == [] + [p];
        PairsSnoc([], p, |old(genCode)|);
      }
    }

    /** The top-level variables among `vs`, in order, as `name: name, `. */
    method EmitRootVarsOf(vs: seq<LabelVar>, ghost left: Range)
      requires InBounds(left, |originalCode|) && VarsInside(vs, left)
      requires Valid()
      modifies this
      ensures Valid()
      ensures genCode == old(genCode) + PairsText(RootPairs(vs))
      ensures mappings == old(mappings) + PairsMappings(RootPairs(vs), |old(genCode)|)
      ensures mirrors == old(mirrors) + PairsMirrors(RootPairs(vs), |old(genCode)|)
      ensures old(emitted) <= emitted
      ensures mirrorTexts == old(mirrorTexts) + RootMirrorTexts(RootVars(vs))
      ensures sourceCode == old(sourceCode)
    {
      for i := 0 to |vs|
        invariant Valid()
        invariant RootsWritten(genCode, mappings, mirrors, mirrorTexts, vs[..i],
                               old(genCode), old(mappings), old(mirrors), old(mirrorTexts))
        invariant old(emitted) <= emitted
        invariant sourceCode == old(sourceCode)
      {
        ghost var g1, ms1, mis1, mts1 := genCode, mappings, mirrors, mirrorTexts;
        EmitRootVar(vs[i]);
        RootsWrittenJoin(vs[..i], [vs[i]], old(genCode), old(mappings), old(mirrors), old(mirrorTexts),
                         g1, ms1, mis1, mts1, genCode, mappings, mirrors, mirrorTexts);
        assert vs[..i + 1] == vs[..i] + [vs[i]];
      }
      assert vs[..|vs|] == vs;
    }

    /** The top-level variables of one label, in order. */
    method EmitRootVarsOfLabel(record: LabelRecord)
      requires LabelWellFormed(record, |originalCode|)
      requires Valid()
      modifies this
      ensures Valid()
      ensures genCode == old(genCode) + PairsText(RootPairs(BinaryVars(record.binarys)))
      ensures mappings == old(mappings) + PairsMappings(RootPairs(BinaryVars(record.binarys)), |old(genCode)|)
      ensures mirrors == old(mirrors) + PairsMirrors(RootPairs(BinaryVars(record.binarys)), |old(genCode)|)
      ensures old(emitted) <= emitted
      ensures mirrorTexts == old(mirrorTexts) + RootMirrorTexts(RootVars(BinaryVars(record.binarys)))
      ensures sourceCode == old(sourceCode)
    {
      for bi := 0 to |record.binarys|
        invariant Valid()
        invariant RootsWritten(genCode, mappings, mirrors, mirrorTexts, BinaryVars(record.binarys[..bi]),
                               old(genCode), old(mappings), old(mirrors), old(mirrorTexts))
        invariant old(emitted) <= emitted
        invariant sourceCode == old(sourceCode)
      {
        var binary := record.binarys[bi];
        assert BinaryWellFormed(binary, |originalCode|);
        ghost var g1, ms1, mis1, mts1 := genCode, mappings, mirrors, mirrorTexts;
        EmitRootVarsOf(binary.vars, binary.left);
        RootsWrittenJoin(BinaryVars(record.binarys[..bi]), binary.vars,
                         old(genCode), old(mappings), old(mirrors), old(mirrorTexts),
                         g1, ms1, mis1, mts1, genCode, mappings, mirrors, mirrorTexts);
        BinaryVarsStep(record.binarys, bi);
      }
      assert record.binarys[..|record.binarys|] == record.binarys;
    }

    /** The top-level label variables of the block, in order, as `name: name, `. */
    method EmitRootVars()
      requires LabelsWellFormed(originalCode, data.labels)
      requires Valid()
      modifies this
      ensures Valid()
      ensures genCode == old(genCode) + PairsText(RootPairs(LabelVarsOf(data.labels)))
      ensures mappings == old(mappings) + PairsMappings(RootPairs(LabelVarsOf(data.labels)), |old(genCode)|)
      ensures mirrors == old(mirrors) + PairsMirrors(RootPairs(LabelVarsOf(data.labels)), |old(genCode)|)
      ensures old(emitted) <= emitted
      ensures mirrorTexts == old(mirrorTexts) + RootMirrorTexts(RootVars(LabelVarsOf(data.labels)))
      ensures sourceCode == old(sourceCode)
    {
      for li := 0 to |data.labels|
        invariant Valid()
        invariant RootsWritten(genCode, mappings, mirrors, mirrorTexts, LabelVarsOf(data.labels[..li]),
                               old(genCode), old(mappings), old(mirrors), old(mirrorTexts))
        invariant old(emitted) <= emitted
        invariant sourceCode == old(sourceCode)
      {
        var record := data.labels[li];
        assert LabelWellFormed(record, |originalCode|);
        ghost var g1, ms1, mis1, mts1 := genCode, mappings, mirrors, mirrorTexts;
        EmitRootVarsOfLabel(record);
        RootsWrittenJoin(LabelVarsOf(data.labels[..li]), BinaryVars(record.binarys),
                         old(genCode), old(mappings), old(mirrors), old(mirrorTexts),
                         g1, ms1, mis1, mts1, genCode, mappings, mirrors, mirrorTexts);
        LabelVarsStep(data.labels, li);
      }
      assert data.labels[..|data.labels|] == data.labels;
    }

    /** The returned object: the exposed names, then the top-level label variables. */
    method EmitReturn()
      requires LabelsWellFormed(originalCode, data.labels)
      requires forall k :: 0 <= k < |data.exposeVarNames| ==> InBounds(data.exposeVarNames[k], |originalCode|)
      requires Valid()
      modifies this
      ensures Valid()
      ensures genCode == old(genCode) + ReturnText(originalCode, data)
      ensures mappings == old(mappings) + ReturnMappings(originalCode, data, |old(genCode)|)
      ensures mirrors == old(mirrors) + ReturnMirrors(originalCode, data, |old(genCode)|)
      ensures old(emitted) <= emitted
      ensures mirrorTexts == old(mirrorTexts) + ExposeMirrorTexts(originalCode, data.exposeVarNames) +
                             RootMirrorTexts(RootVars(LabelVarsOf(data.labels)))
      ensures sourceCode == old(sourceCode)
    {
      var exposes := ExposePairs(originalCode, data.exposeVarNames);
      var roots := RootPairs(LabelVarsOf(data.labels));
      Append(ReturnOpen);
      EmitReturnEntries();
      ghost var e, r := PairsText(exposes), PairsText(roots);
      Append(ReturnClose);
      assert genCode == old(genCode) + ReturnText(originalCode, data) by {
        ConcatAssoc(old(genCode), ReturnOpen, e + r);
        ConcatAssoc(ReturnOpen, e, r);
        ConcatAssoc(old(genCode), ReturnOpen + e + r, ReturnClose);
      }
    }

    /** The entries of the returned object: the exposed names, then the top-level label variables. */
    method EmitReturnEntries()
      requires LabelsWellFormed(originalCode, data.labels)
      requires forall k :: 0 <= k < |data.exposeVarNames| ==> InBounds(data.exposeVarNames[k], |originalCode|)
      requires Valid()
      modifies this
      ensures Valid()
      ensures genCode == old(genCode) + (PairsText(ExposePairs(originalCode, data.exposeVarNames)) +
                                         PairsText(RootPairs(LabelVarsOf(data.labels))))
      ensures mappings == old(mappings) + EntriesMappings(originalCode, data, |old(genCode)|)
      ensures mirrors == old(mirrors) + EntriesMirrors(originalCode, data, |old(genCode)|)
      ensures old(emitted) <= emitted
      ensures mirrorTexts == old(mirrorTexts) + ExposeMirrorTexts(originalCode, data.exposeVarNames) +
                             RootMirrorTexts(RootVars(LabelVarsOf(data.labels)))
      ensures sourceCode == old(sourceCode)
    {
      var exposes := ExposePairs(originalCode, data.exposeVarNames);
      var roots := RootPairs(LabelVarsOf(data.labels));
      EmitExposes();
      ghost var g, ms, mis := genCode, mappings, mirrors;
      assert |g| == |old(genCode)| + PairsWidth(exposes) by {
        PairsWidthIsLength(exposes);
      }
      EmitRootVars();
      assert genCode == old(genCode) + (PairsText(exposes) + PairsText(roots)) by {
        ConcatAssoc(old(genCode), PairsText(exposes), PairsText(roots));
      }
      assert mappings == old(mappings) + EntriesMappings(originalCode, data, |old(genCode)|) by {
        ConcatAssoc(old(mappings), PairsMappings(exposes, |old(genCode)|), PairsMappings(roots, |g|));
      }
      assert mirrors == old(mirrors) + EntriesMirrors(originalCode, data, |old(genCode)|) by {
        ConcatAssoc(old(mirrors), PairsMirrors(exposes, |old(genCode)|), PairsMirrors(roots, |g|));
      }
    }

    /** The end of `setup` and of the component, then the reference used to trigger auto-import. */
    method EmitTail(refSearchText: string)
      requires Valid()
      modifies this
      ensures Valid()
      ensures genCode == old(genCode) + ClosingText(refSearchText)
      ensures mappings == old(mappings) && emitted == old(emitted)
      ensures sourceCode == old(sourceCode) && mirrors == old(mirrors) && mirrorTexts == old(mirrorTexts)
    {
      Append("}});\n");
      Append("\n// @ts-ignore\n");
      Append("ref" + refSearchText + "\n");
    }

    /** Everything between the import section and the returned object: the options, then the labels. */
    method EmitBody()
      requires WellFormed(originalCode, data) && Valid()
      modifies this
      ensures Valid()
      ensures old(mappings) <= mappings && old(emitted) <= emitted
      ensures mirrorTexts == old(mirrorTexts) + LabelMirrorTexts(LabelVarsOf(data.labels))
      ensures sourceCode == old(sourceCode)
    {
      EmitOptions();
      ghost var labelRefs, at, letAts, tailRefs := EmitLabels();
    }

    /** The returned object and the closing text. */
    method EmitClosing(refSearchText: string)
      requires WellFormed(originalCode, data) && Valid()
      modifies this
      ensures Valid()
      ensures genCode == old(genCode) + ReturnText(originalCode, data) + ClosingText(refSearchText)
      ensures mappings == old(mappings) + ReturnMappings(originalCode, data, |old(genCode)|)
      ensures mirrors == old(mirrors) + ReturnMirrors(originalCode, data, |old(genCode)|)
      ensures old(emitted) <= emitted
      ensures mirrorTexts == old(mirrorTexts) + ExposeMirrorTexts(originalCode, data.exposeVarNames) +
                             RootMirrorTexts(RootVars(LabelVarsOf(data.labels)))
      ensures sourceCode == old(sourceCode)
    {
      EmitReturn();
      EmitTail(refSearchText);
    }

    /** Everything after the import section. */
    method EmitRest(refSearchText: string)
      requires WellFormed(originalCode, data) && Valid()
      modifies this
      ensures Valid()
      ensures old(mappings) <= mappings && old(emitted) <= emitted
      ensures mirrorTexts == old(mirrorTexts) + LabelMirrorTexts(LabelVarsOf(data.labels)) +
                             ExposeMirrorTexts(originalCode, data.exposeVarNames) +
                             RootMirrorTexts(RootVars(LabelVarsOf(data.labels)))
    {
      EmitBody();
      EmitClosing(refSearchText);
    }

    /** The gap after the last import, as whitespace, closing the import section. */
    method EmitLastGap()
      requires 0 <= GapStart(data.imports, |data.imports|) <= |originalCode|
      requires Valid() && |genCode| == |Header| + GapStart(data.imports, |data.imports|)
      requires |mappings| == 2 * |data.imports| && PairsBefore(originalCode, data.imports, mappings, emitted, |data.imports|)
      modifies this
      ensures Valid()
      ensures ImportSection(originalCode, data.imports, mappings, emitted) && |mappings| == 2 * |data.imports| + 1
      ensures |genCode| == |Header| + |originalCode|
      ensures sourceCode == old(sourceCode) && mirrors == old(mirrors) && mirrorTexts == old(mirrorTexts)
    {
      ghost var ms, ts := mappings, emitted;
      var importPos := GapStart(data.imports, |data.imports|);
      NewLinesOnlyShape(originalCode);
      var newLinesOnly := NewLinesOnly(originalCode);
      AddCode(newLinesOnly[importPos..|newLinesOnly|], None, NoCapabilities, Range(importPos, |newLinesOnly|), Offset, true);
      ImportPairsPrefix(originalCode, data.imports, ms, ts, mappings, emitted, |data.imports|);
    }

    /**
     * The import section: the block once more after the header, each import
     * statement copied verbatim with full capabilities and everything else
     * as whitespace that keeps the line breaks; in the working text each
     * import is blanked.
     */
    method EmitImports()
      requires ImportsWellFormed(originalCode, data.imports)
      requires Valid() && sourceCode == originalCode && genCode == Header && mappings == [] && emitted == []
      modifies this
      ensures Valid()
      ensures ImportSection(originalCode, data.imports, mappings, emitted) && |mappings| == 2 * |data.imports| + 1
      ensures |genCode| == |Header| + |originalCode|
      ensures |sourceCode| == |originalCode| && BlankedBefore(data.imports, sourceCode, |data.imports|)
      ensures mirrors == old(mirrors) && mirrorTexts == old(mirrorTexts)
    {
      EmitEachImport();
      EmitLastGap();
    }

    /** Each import statement with the gap before it, blanking the statement out of the working copy. */
    method EmitEachImport()
      requires ImportsWellFormed(originalCode, data.imports)
      requires Valid() && sourceCode == originalCode && genCode == Header && mappings == [] && emitted == []
      modifies this
      ensures Valid()
      ensures 0 <= GapStart(data.imports, |data.imports|) <= |originalCode|
      ensures |genCode| == |Header| + GapStart(data.imports, |data.imports|)
      ensures |mappings| == 2 * |data.imports| && PairsBefore(originalCode, data.imports, mappings, emitted, |data.imports|)
      ensures |sourceCode| == |originalCode| && BlankedBefore(data.imports, sourceCode, |data.imports|)
      ensures mirrors == old(mirrors) && mirrorTexts == old(mirrorTexts)
    {
      for i := 0 to |data.imports|
        invariant Valid()
        invariant 0 <= GapStart(data.imports, i) <= |originalCode|
        invariant |sourceCode| == |originalCode|
        invariant |genCode| == |Header| + GapStart(data.imports, i)
        invariant |mappings| == 2 * i
        invariant PairsBefore(originalCode, data.imports, mappings, emitted, i)
        invariant BlankedBefore(data.imports, sourceCode, i)
        invariant mirrors == old(mirrors) && mirrorTexts == old(mirrorTexts)
      {
        ghost var ms, ts, src := mappings, emitted, sourceCode;
        GapStep(originalCode, data.imports, i);
        EmitImport(i);
        ImportPairsPrefix(originalCode, data.imports, ms, ts, mappings, emitted, i);
        BlankKeepsEarlier(originalCode, src, sourceCode, data.imports, i);
      }
    }
  }

  // ---------------------------------------------------------------------------
  // genScriptSetup

  /**
   * `genScriptSetup`: the generated module for a `<script setup>` block.
   * Every mapping's generated range holds the text recorded for it, and a
   * full-capability mapping copies the block's own text; every mirror pairs
   * two spellings of one name; the import section reproduces the block with
   * only its import statements kept, at the block's own offsets.
   */
  method GenScriptSetup(originalCode: string, data: SetupData, refSearchText: string)
    returns (r: GenResult, ghost emitted: seq<string>, ghost mirrorTexts: seq<MirrorText>)
    requires WellFormed(originalCode, data)
    ensures r.data == data
    ensures |r.mappings| == |emitted| && MappingsSpan(r.code, r.mappings, emitted)
    ensures AllSound(originalCode, data.imports, r.mappings, emitted)
    ensures ImportSection(originalCode, data.imports, r.mappings, emitted)
    ensures MirrorsSpan(r.code, r.mirrors, mirrorTexts)
    ensures mirrorTexts == LabelMirrorTexts(LabelVarsOf(data.labels)) +
                           ExposeMirrorTexts(originalCode, data.exposeVarNames) +
                           RootMirrorTexts(RootVars(LabelVarsOf(data.labels)))
  {
    var g := new Generator(originalCode, data);
    g.EmitImports();
    ghost var ms, ts := g.mappings, g.emitted;
    g.EmitRest(refSearchText);
    assert ImportSection(originalCode, data.imports, g.mappings, g.emitted) by {
      ImportSectionPrefix(originalCode, data.imports, ms, ts, g.mappings, g.emitted);
    }
    assert g.Sound() && g.Spanned();
    r := GenResult(data, g.mappings, g.genCode, g.mirrors);
    emitted := g.emitted;
    mirrorTexts := g.mirrorTexts;
  }
}
