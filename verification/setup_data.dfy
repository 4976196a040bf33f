/**
 * The structural-analysis record of a `<script setup>` block: what the
 * analyzer extracts from the block's syntax tree and the reference search,
 * taken here as input to the code generator.
 */
module ScriptSetupData {
  import opened Wrappers
  import opened SourceMaps

  /** A variable bound by a `ref:` label, with the positions where it is used. */
  datatype LabelVar = LabelVar(
    isShorthand: bool,
    inRoot: bool,
    text: string,
    start: int,
    end: int,
    references: seq<Range>)

  datatype RightExpr = RightExpr(start: int, end: int, isComputedCall: bool)

  /** One `left = right` (or bare `left`) decomposition of a label's expression. */
  datatype BinaryRecord = BinaryRecord(
    parent: Range,
    vars: seq<LabelVar>,
    left: Range,
    right: Option<RightExpr>)

  /** A `ref: ...` labelled statement. */
  datatype LabelRecord = LabelRecord(
    start: int,
    end: int,
    binarys: seq<BinaryRecord>,
    labelRange: Range,
    parent: Range)

  /** A `defineProps(...)` / `defineEmit(...)` call, with its first argument and first type argument. */
  datatype MacroCall = MacroCall(start: int, end: int, args: Option<Range>, typeArgs: Option<Range>)

  datatype SetupData = SetupData(
    labels: seq<LabelRecord>,
    exposeVarNames: seq<Range>,
    imports: seq<Range>,
    defineProps: Option<MacroCall>,
    defineEmit: Option<MacroCall>,
    shorthandPropertys: seq<Range>,
    dollars: seq<int>)

  function RightRange(r: RightExpr): Range { Range(r.start, r.end) }

  function VarRange(v: LabelVar): Range { Range(v.start, v.end) }

  // ---------------------------------------------------------------------------
  // Flattening, in the order of the generator's nested loops

  /** The variables of a sequence of decompositions, in order. */
  function BinaryVars(bs: seq<BinaryRecord>): seq<LabelVar> {
    if bs == [] then [] else BinaryVars(bs[..|bs| - 1]) + bs[|bs| - 1].vars
  }

  /** The variables of a sequence of labels, in order. */
  function LabelVarsOf(ls: seq<LabelRecord>): seq<LabelVar> {
    if ls == [] then [] else LabelVarsOf(ls[..|ls| - 1]) + BinaryVars(ls[|ls| - 1].binarys)
  }

  /** Only the variables declared at the top level of the block. */
  function RootVars(vs: seq<LabelVar>): seq<LabelVar> {
    if vs == [] then []
    else RootVars(vs[..|vs| - 1]) + if vs[|vs| - 1].inRoot then [vs[|vs| - 1]] else []
  }

  lemma RootVarsAppend(a: seq<LabelVar>, b: seq<LabelVar>)
    ensures RootVars(a + b) == RootVars(a) + RootVars(b)
    decreases |b|
  {
    if b == [] {
      assert a + b == a;
    } else {
      RootVarsAppend(a, b[..|b| - 1]);
      assert (a + b)[..|a + b| - 1] == a + b[..|b| - 1];
    }
  }

  // ---------------------------------------------------------------------------
  // Well-formedness of the analysis record against the block's text

  predicate InBounds(r: Range, n: int) {
    0 <= r.start <= r.end <= n
  }

  /** Ranges in ascending order, none overlapping the next. */
  predicate SortedApart(rs: seq<Range>) {
    forall k :: 0 <= k < |rs| - 1 ==> rs[k].end <= rs[k + 1].start
  }

  /** The variables of one decomposition lie, in order and apart, inside its left side. */
  predicate VarsInside(vs: seq<LabelVar>, left: Range) {
    && (forall k :: 0 <= k < |vs| ==> left.start <= vs[k].start <= vs[k].end <= left.end)
    && (forall k :: 0 <= k < |vs| - 1 ==> vs[k].end <= vs[k + 1].start)
  }

  predicate BinaryWellFormed(b: BinaryRecord, n: int) {
    && InBounds(b.left, n)
    && (b.right.Some? ==> InBounds(RightRange(b.right.value), n))
    && VarsInside(b.vars, b.left)
  }

  predicate LabelWellFormed(l: LabelRecord, n: int) {
    && 0 <= l.start <= l.end <= n
    && forall j :: 0 <= j < |l.binarys| ==> BinaryWellFormed(l.binarys[j], n)
  }

  predicate LabelsSorted(ls: seq<LabelRecord>) {
    forall k :: 0 <= k < |ls| - 1 ==> ls[k].end <= ls[k + 1].start
  }

  /** The first type argument of a macro call, when there is a call and it has one. */
  function TypeArgsOf(call: Option<MacroCall>): Option<Range> {
    if call.Some? then call.value.typeArgs else None
  }

  /** The first argument of a macro call, when there is a call and it has one. */
  function ArgsOf(call: Option<MacroCall>): Option<Range> {
    if call.Some? then call.value.args else None
  }

  /** A macro call's argument and type argument lie inside the block. */
  predicate MacroWellFormed(code: string, call: Option<MacroCall>) {
    && (TypeArgsOf(call).Some? ==> InBounds(TypeArgsOf(call).value, |code|))
    && (ArgsOf(call).Some? ==> InBounds(ArgsOf(call).value, |code|))
  }

  /** Import statements lie inside the block, in order and apart. */
  predicate ImportsWellFormed(code: string, imports: seq<Range>) {
    (forall i :: 0 <= i < |imports| ==> InBounds(imports[i], |code|)) && SortedApart(imports)
  }

  /** Labels lie inside the block, in order and apart. */
  predicate LabelsWellFormed(code: string, ls: seq<LabelRecord>) {
    (forall i :: 0 <= i < |ls| ==> LabelWellFormed(ls[i], |code|)) && LabelsSorted(ls)
  }

  /** What the generator relies on: every range inside the block, sequences in document order. */
  predicate WellFormed(code: string, data: SetupData) {
    && ImportsWellFormed(code, data.imports)
    && LabelsWellFormed(code, data.labels)
    && (forall i :: 0 <= i < |data.exposeVarNames| ==> InBounds(data.exposeVarNames[i], |code|))
    && MacroWellFormed(code, data.defineProps) && MacroWellFormed(code, data.defineEmit)
    && ReferencesWellFormed(AllRefs(data), |code|)
  }

  // ---------------------------------------------------------------------------
  // References of label variables, tagged with the variable's name

  /** A use site of a label variable (the generator's `insideLabels` element). */
  datatype InsideRef = InsideRef(start: int, end: int, name: string)

  function TagRefs(rs: seq<Range>, name: string): (r: seq<InsideRef>)
    ensures |r| == |rs|
    ensures forall i :: 0 <= i < |rs| ==> r[i] == InsideRef(rs[i].start, rs[i].end, name)
  {
    seq(|rs|, i requires 0 <= i < |rs| => InsideRef(rs[i].start, rs[i].end, name))
  }

  /** Every use site of the given variables, in the order of the variables. */
  function Tagged(vs: seq<LabelVar>): seq<InsideRef> {
    if vs == [] then []
    else Tagged(vs[..|vs| - 1]) + TagRefs(vs[|vs| - 1].references, vs[|vs| - 1].text)
  }

  function AllRefs(data: SetupData): seq<InsideRef> {
    Tagged(LabelVarsOf(data.labels))
  }

  predicate IsInside(x: InsideRef, start: int, end: int) {
    x.start >= start && x.end <= end
  }

  /** The use sites lying wholly inside [start, end), keeping their order. */
  function Filter(xs: seq<InsideRef>, start: int, end: int): seq<InsideRef> {
    if xs == [] then []
    else
      Filter(xs[..|xs| - 1], start, end) +
        if IsInside(xs[|xs| - 1], start, end) then [xs[|xs| - 1]] else []
  }

  function Inside(data: SetupData, start: int, end: int): seq<InsideRef> {
    Filter(AllRefs(data), start, end)
  }

  predicate Apart(a: InsideRef, b: InsideRef) {
    a.end <= b.start || b.end <= a.start
  }

  predicate PairwiseApart(xs: seq<InsideRef>) {
    forall i, j :: 0 <= i < j < |xs| ==> Apart(xs[i], xs[j])
  }

  /** Use sites are non-empty identifier spans inside the block, no two overlapping. */
  predicate ReferencesWellFormed(xs: seq<InsideRef>, n: int) {
    && (forall i :: 0 <= i < |xs| ==> 0 <= xs[i].start < xs[i].end <= n)
    && PairwiseApart(xs)
  }

  lemma {:induction false} FilterAppend(a: seq<InsideRef>, b: seq<InsideRef>, start: int, end: int)
    ensures Filter(a + b, start, end) == Filter(a, start, end) + Filter(b, start, end)
    decreases |b|
  {
    if b == [] {
      assert a + b == a;
    } else {
      FilterAppend(a, b[..|b| - 1], start, end);
      assert (a + b)[..|a + b| - 1] == a + b[..|b| - 1];
    }
  }

  /**
   * The use sites the generator considers for a window are exactly those of
   * some label variable that lie wholly inside the window.
   */
  lemma {:induction false} FilterMembers(xs: seq<InsideRef>, start: int, end: int)
    ensures forall x :: x in Filter(xs, start, end) <==> x in xs && IsInside(x, start, end)
  {
    if xs != [] {
      FilterMembers(xs[..|xs| - 1], start, end);
      assert xs == xs[..|xs| - 1] + [xs[|xs| - 1]];
    }
  }

  /** Filtering keeps use sites pairwise apart. */
  lemma {:induction false} FilterApart(xs: seq<InsideRef>, start: int, end: int)
    requires PairwiseApart(xs)
    ensures PairwiseApart(Filter(xs, start, end))
  {
    if xs != [] {
      var init, last := xs[..|xs| - 1], xs[|xs| - 1];
      assert PairwiseApart(init);
      FilterApart(init, start, end);
      FilterMembers(init, start, end);
      var f := Filter(init, start, end);
      if IsInside(last, start, end) {
        forall i | 0 <= i < |f| ensures Apart(f[i], last) {
          assert f[i] in init;
          var k :| 0 <= k < |init| && init[k] == f[i];
          assert xs[k] == f[i];
        }
      }
    }
  }

  lemma {:induction false} FilterInside(xs: seq<InsideRef>, start: int, end: int, n: int)
    requires forall i :: 0 <= i < |xs| ==> 0 <= xs[i].start < xs[i].end <= n
    ensures forall i :: 0 <= i < |Filter(xs, start, end)| ==>
              var x := Filter(xs, start, end)[i];
              start <= x.start < x.end <= end && x.end <= n
  {
    if xs != [] {
      FilterInside(xs[..|xs| - 1], start, end, n);
    }
  }
}
