/**
 * The destructuring walkers of the setup-block analyzer: they read the
 * variables a `ref:` label declares out of its expression. The TypeScript
 * syntax tree is replaced by the node kinds the walkers distinguish; each
 * node carries the range `getStartEnd` would give it.
 */
module Walkers {
  import opened Wrappers
  import opened SourceMaps
  import opened ScriptSetupData
  import opened Suggestion

  datatype Node =
    | Identifier(start: int, end: int, text: string)
    | ObjectLiteral(start: int, end: int, properties: seq<Node>)
    | ArrayLiteral(start: int, end: int, elements: seq<Node>)
    | PropertyAssignment(start: int, end: int, initializer: Node)
      /** `{ foo }`: the property's name is an identifier at `nameStart..nameEnd`. */
    | ShorthandProperty(start: int, end: int, nameStart: int, nameEnd: int, nameText: string)
      /** A spread assignment `...x` in an object or a spread element in an array. */
    | Spread(start: int, end: int, expression: Node)
    | Binary(start: int, end: int, left: Node, right: Node)
    | Parenthesized(start: int, end: int, expression: Node)
    | ObjectBindingPattern(start: int, end: int, elements: seq<Node>)
    | ArrayBindingPattern(start: int, end: int, elements: seq<Node>)
    | BindingElement(start: int, end: int, name: Node)
    | Call(start: int, end: int, callee: Node)
      /** Any other kind of node; the walkers ignore it. */
    | Other(start: int, end: int)

  function Span(n: Node): Range { Range(n.start, n.end) }

  // ---------------------------------------------------------------------------
  // What the walkers collect

  /** The variables `findLabelVars` collects from `n`, in visiting order. */
  function LabelVarsIn(n: Node, inRoot: bool): seq<LabelVar>
    decreases n, 1
  {
    match n
    case Identifier(s, e, text) => [LabelVar(false, inRoot, text, s, e, [])]
    case ObjectLiteral(_, _, ps) => LabelVarsInAll(ps, inRoot)
    case ArrayLiteral(_, _, es) => LabelVarsInAll(es, inRoot)
    case PropertyAssignment(_, _, init) => LabelVarsIn(init, inRoot)
    case Binary(_, _, left, _) => if left.Identifier? then LabelVarsIn(left, inRoot) else []
    case ShorthandProperty(_, _, ns, ne, text) => [LabelVar(true, inRoot, text, ns, ne, [])]
    case Spread(_, _, x) => LabelVarsIn(x, inRoot)
    case _ => []
  }

  function LabelVarsInAll(ns: seq<Node>, inRoot: bool): seq<LabelVar>
    decreases ns, 0
  {
    if ns == [] then [] else LabelVarsInAll(ns[..|ns| - 1], inRoot) + LabelVarsIn(ns[|ns| - 1], inRoot)
  }

  /** The ranges `findBindingVars` collects from a binding name, in visiting order. */
  function BindingVarsIn(n: Node): seq<Range>
    decreases n, 1
  {
    match n
    case Identifier(s, e, _) => [Range(s, e)]
    case ObjectBindingPattern(_, _, es) => BindingVarsInAll(es)
    case ArrayBindingPattern(_, _, es) => BindingVarsInAll(es)
    case PropertyAssignment(_, _, init) => BindingVarsIn(init)
    case ShorthandProperty(_, _, ns, ne, _) => [Range(ns, ne)]
    case Spread(_, _, x) => BindingVarsIn(x)
    case _ => []
  }

  /** The elements of a binding pattern, in order. */
  function BindingVarsInAll(es: seq<Node>): seq<Range>
    decreases es, 0
  {
    if es == [] then [] else BindingVarsInAll(es[..|es| - 1]) + BindingVarsOfElement(es[|es| - 1])
  }

  /** Only binding elements of a pattern are walked, through their names. */
  function BindingVarsOfElement(e: Node): seq<Range>
    decreases e, 2
  {
    if e.BindingElement? then BindingVarsIn(e.name) else []
  }

  /** `computed(...)`: a call whose callee is the identifier `computed`. */
  predicate IsComputedCall(n: Node) {
    n.Call? && n.callee.Identifier? && n.callee.text == "computed"
  }

  /** A binary expression the walker splits instead of recording: one with a binary or parenthesized operand. */
  predicate Splits(n: Node)
    requires n.Binary?
  {
    n.left.Binary? || n.right.Binary? || n.left.Parenthesized? || n.right.Parenthesized?
  }

  /**
   * The decompositions `findBinaryExpressions` records for `n`, where
   * `parenthesized` is the outermost parenthesis around `n` when the walk
   * came through one.
   */
  function BinarysIn(n: Node, parenthesized: Option<Node>, inRoot: bool): seq<BinaryRecord>
    decreases n
  {
    match n
    case Identifier(_, _, _) => [BinaryRecord(Span(n), LabelVarsIn(n, inRoot), Span(n), None)]
    case Binary(_, _, left, right) =>
      if Splits(n) then BinarysIn(left, None, inRoot) + BinarysIn(right, None, inRoot)
      else
        var parent := if parenthesized.Some? then parenthesized.value else n;
        [BinaryRecord(Span(parent), LabelVarsIn(left, inRoot), Span(left), Some(RightExpr(right.start, right.end, IsComputedCall(right))))]
    case Parenthesized(_, _, x) => BinarysIn(x, if parenthesized.Some? then parenthesized else Some(n), inRoot)
    case _ => []
  }

  // ---------------------------------------------------------------------------
  // The walkers: each pushes into one array through a recursive worker

  class LabelVarCollector {
    var vars: seq<LabelVar>
    const inRoot: bool

    constructor (inRoot: bool)
      ensures vars == [] && this.inRoot == inRoot
    {
      vars := [];
      this.inRoot := inRoot;
    }

    method Worker(node: Node)
      modifies this
      ensures vars == old(vars) + LabelVarsIn(node, inRoot)
      decreases node, 1
    {
      match node
      case Identifier(s, e, text) =>
        vars := vars + [LabelVar(false, inRoot, text, s, e, [])];
      case ObjectLiteral(_, _, ps) =>
        WorkerAll(ps);
      case ArrayLiteral(_, _, es) =>
        WorkerAll(es);
      case PropertyAssignment(_, _, init) =>
        Worker(init);
      case Binary(_, _, left, _) =>
        if left.Identifier? {
          Worker(left);
        }
      case ShorthandProperty(_, _, ns, ne, text) =>
        vars := vars + [LabelVar(true, inRoot, text, ns, ne, [])];
      case Spread(_, _, x) =>
        Worker(x);
      case _ =>
    }

    /** The `for` loop over an object's properties or an array's elements. */
    method WorkerAll(ns: seq<Node>)
      modifies this
      ensures vars == old(vars) + LabelVarsInAll(ns, inRoot)
      decreases ns, 0
    {
      var i := 0;
      while i < |ns|
        invariant 0 <= i <= |ns|
        invariant vars == old(vars) + LabelVarsInAll(ns[..i], inRoot)
      {
        assert ns[..i + 1][..i] == ns[..i];
        ghost var before := vars;
        Worker(ns[i]);
        assert vars == old(vars) + LabelVarsInAll(ns[..i], inRoot) + LabelVarsIn(ns[i], inRoot);
        i := i + 1;
      }
      assert ns[..i] == ns;
    }
  }

  /** `findLabelVars` */
  method FindLabelVars(exp: Node, inRoot: bool) returns (vars: seq<LabelVar>)
    ensures vars == LabelVarsIn(exp, inRoot)
  {
    var c := new LabelVarCollector(inRoot);
    c.Worker(exp);
    vars := c.vars;
  }

  class BindingVarCollector {
    var vars: seq<Range>

    constructor ()
      ensures vars == []
    {
      vars := [];
    }

    method Worker(node: Node)
      modifies this
      ensures vars == old(vars) + BindingVarsIn(node)
      decreases node, 1
    {
      match node
      case Identifier(s, e, _) =>
        vars := vars + [Range(s, e)];
      case ObjectBindingPattern(_, _, es) =>
        WorkerAll(es);
      case ArrayBindingPattern(_, _, es) =>
        WorkerAll(es);
      case PropertyAssignment(_, _, init) =>
        Worker(init);
      case ShorthandProperty(_, _, ns, ne, _) =>
        vars := vars + [Range(ns, ne)];
      case Spread(_, _, x) =>
        Worker(x);
      case _ =>
    }

    method WorkerAll(es: seq<Node>)
      modifies this
      ensures vars == old(vars) + BindingVarsInAll(es)
      decreases es, 0
    {
      var i := 0;
      while i < |es|
        invariant 0 <= i <= |es|
        invariant vars == old(vars) + BindingVarsInAll(es[..i])
      {
        assert es[..i + 1][..i] == es[..i];
        WorkerElement(es[i]);
        i := i + 1;
      }
      assert es[..i] == es;
    }

    method WorkerElement(e: Node)
      modifies this
      ensures vars == old(vars) + BindingVarsOfElement(e)
      decreases e, 2
    {
      if e.BindingElement? {
        Worker(e.name);
      } else {
        assert vars == vars + [];
      }
    }
  }

  /** `findBindingVars` */
  method FindBindingVars(left: Node) returns (vars: seq<Range>)
    ensures vars == BindingVarsIn(left)
  {
    var c := new BindingVarCollector();
    c.Worker(left);
    vars := c.vars;
  }

  class BinaryCollector {
    var binaryExps: seq<BinaryRecord>
    const inRoot: bool

    constructor (inRoot: bool)
      ensures binaryExps == [] && this.inRoot == inRoot
    {
      binaryExps := [];
      this.inRoot := inRoot;
    }

    method Worker(node: Node, parenthesized: Option<Node>)
      modifies this
      ensures binaryExps == old(binaryExps) + BinarysIn(node, parenthesized, inRoot)
      decreases node
    {
      if node.Identifier? {
        var vars := FindLabelVars(node, inRoot);
        binaryExps := binaryExps + [BinaryRecord(Span(node), vars, Span(node), None)];
      }
      if node.Binary? {
        if node.left.Binary? || node.right.Binary? || node.left.Parenthesized? || node.right.Parenthesized? {
          Worker(node.left, None);
          Worker(node.right, None);
        } else {
          var parent := if parenthesized.Some? then parenthesized.value else node;
          var vars := FindLabelVars(node.left, inRoot);
          var right := RightExpr(node.right.start, node.right.end, IsComputedCall(node.right));
          binaryExps := binaryExps + [BinaryRecord(Span(parent), vars, Span(node.left), Some(right))];
        }
      } else if node.Parenthesized? {
        Worker(node.expression, if parenthesized.Some? then parenthesized else Some(node));
      }
    }
  }

  /** `findBinaryExpressions` */
  method FindBinaryExpressions(exp: Node, inRoot: bool) returns (binaryExps: seq<BinaryRecord>)
    ensures binaryExps == BinarysIn(exp, None, inRoot)
  {
    var c := new BinaryCollector(inRoot);
    c.Worker(exp, None);
    binaryExps := c.binaryExps;
  }

  // ---------------------------------------------------------------------------
  // What a parser's tree guarantees

  /** Every node of `ns` lies inside [lo, hi], and each ends before any later one starts. */
  predicate Laid(ns: seq<Node>, lo: int, hi: int) {
    && (forall k :: 0 <= k < |ns| ==> lo <= ns[k].start && ns[k].end <= hi)
    && (forall i, j :: 0 <= i < j < |ns| ==> ns[i].end <= ns[j].start)
  }

  /** A node's range is ordered, and its children lie inside it in document order, recursively. */
  predicate WellFormedNode(n: Node)
    decreases n, 1
  {
    && n.start <= n.end
    && match n
       case ObjectLiteral(s, e, ps) => Laid(ps, s, e) && WellFormedAll(ps)
       case ArrayLiteral(s, e, es) => Laid(es, s, e) && WellFormedAll(es)
       case ObjectBindingPattern(s, e, es) => Laid(es, s, e) && WellFormedAll(es)
       case ArrayBindingPattern(s, e, es) => Laid(es, s, e) && WellFormedAll(es)
       case PropertyAssignment(s, e, x) => Laid([x], s, e) && WellFormedNode(x)
       case Spread(s, e, x) => Laid([x], s, e) && WellFormedNode(x)
       case Parenthesized(s, e, x) => Laid([x], s, e) && WellFormedNode(x)
       case BindingElement(s, e, x) => Laid([x], s, e) && WellFormedNode(x)
       case Call(s, e, x) => Laid([x], s, e) && WellFormedNode(x)
       case Binary(s, e, l, r) => Laid([l, r], s, e) && WellFormedNode(l) && WellFormedNode(r)
       case ShorthandProperty(s, e, ns, ne, _) => s <= ns <= ne <= e
       case _ => true
  }

  predicate WellFormedAll(ns: seq<Node>)
    decreases ns, 0
  {
    forall k :: 0 <= k < |ns| ==> WellFormedNode(ns[k])
  }

  // ---------------------------------------------------------------------------
  // What the walkers then promise

  lemma VarsInsideAppend(a: seq<LabelVar>, b: seq<LabelVar>, lo: int, mid: int, hi: int)
    requires VarsInside(a, Range(lo, mid)) && VarsInside(b, Range(mid, hi)) && lo <= mid <= hi
    ensures VarsInside(a + b, Range(lo, hi))
  {
    var c := a + b;
    forall k | 0 <= k < |c| ensures lo <= c[k].start <= c[k].end <= hi {
      if k < |a| {
        assert c[k] == a[k];
      } else {
        assert c[k] == b[k - |a|];
      }
    }
    forall k | 0 <= k < |c| - 1 ensures c[k].end <= c[k + 1].start {
      if k < |a| - 1 {
        assert c[k] == a[k] && c[k + 1] == a[k + 1];
      } else if k == |a| - 1 {
        assert c[k] == a[k] && c[k + 1] == b[0];
      } else {
        assert c[k] == b[k - |a|] && c[k + 1] == b[k + 1 - |a|];
      }
    }
  }

  lemma VarsInsideWiden(vs: seq<LabelVar>, r: Range, r': Range)
    requires VarsInside(vs, r) && r'.start <= r.start && r.end <= r'.end
    ensures VarsInside(vs, r')
  {
  }

  /**
   * The variables `findLabelVars` reads out of a well-formed expression lie
   * inside it, in document order and apart: the shape the generator requires
   * of a decomposition's variables.
   */
  lemma {:induction false} LabelVarsInside(n: Node, inRoot: bool)
    requires WellFormedNode(n)
    ensures VarsInside(LabelVarsIn(n, inRoot), Span(n))
    decreases n, 1
  {
    match n
    case ObjectLiteral(s, e, ps) => LabelVarsAllInside(ps, s, e, inRoot);
    case ArrayLiteral(s, e, es) => LabelVarsAllInside(es, s, e, inRoot);
    case PropertyAssignment(s, e, x) =>
      assert Laid([x], s, e) && WellFormedNode(x);
      assert [x][0] == x;
      LabelVarsInside(x, inRoot);
      VarsInsideWiden(LabelVarsIn(x, inRoot), Span(x), Span(n));
    case Binary(s, e, l, r) =>
      if l.Identifier? {
        assert Laid([l, r], s, e) && WellFormedNode(l);
        assert [l, r][0] == l;
      }
    case Spread(s, e, x) =>
      assert Laid([x], s, e) && WellFormedNode(x);
      assert [x][0] == x;
      LabelVarsInside(x, inRoot);
      VarsInsideWiden(LabelVarsIn(x, inRoot), Span(x), Span(n));
    case Identifier(_, _, _) =>
    case ShorthandProperty(_, _, _, _, _) =>
    case _ =>
  }

  lemma {:induction false} LabelVarsAllInside(ns: seq<Node>, lo: int, hi: int, inRoot: bool)
    requires Laid(ns, lo, hi) && WellFormedAll(ns) && lo <= hi
    ensures VarsInside(LabelVarsInAll(ns, inRoot), Range(lo, hi))
    decreases ns, 0
  {
    if ns != [] {
      var init, last := ns[..|ns| - 1], ns[|ns| - 1];
      assert Laid(init, lo, last.start);
      assert WellFormedAll(init) && WellFormedNode(last);
      LabelVarsAllInside(init, lo, last.start, inRoot);
      LabelVarsInside(last, inRoot);
      VarsInsideWiden(LabelVarsIn(last, inRoot), Span(last), Range(last.start, hi));
      VarsInsideAppend(LabelVarsInAll(init, inRoot), LabelVarsIn(last, inRoot), lo, last.start, hi);
    }
  }

  /** Ranges lying inside `r`, in document order and apart. */
  predicate RangesInside(rs: seq<Range>, r: Range) {
    && (forall k :: 0 <= k < |rs| ==> r.start <= rs[k].start <= rs[k].end <= r.end)
    && SortedApart(rs)
  }

  lemma RangesInsideAppend(a: seq<Range>, b: seq<Range>, lo: int, mid: int, hi: int)
    requires RangesInside(a, Range(lo, mid)) && RangesInside(b, Range(mid, hi)) && lo <= mid <= hi
    ensures RangesInside(a + b, Range(lo, hi))
  {
    var c := a + b;
    forall k | 0 <= k < |c| ensures lo <= c[k].start <= c[k].end <= hi {
      if k < |a| {
        assert c[k] == a[k];
      } else {
        assert c[k] == b[k - |a|];
      }
    }
    forall k | 0 <= k < |c| - 1 ensures c[k].end <= c[k + 1].start {
      if k < |a| - 1 {
        assert c[k] == a[k] && c[k + 1] == a[k + 1];
      } else if k == |a| - 1 {
        assert c[k] == a[k] && c[k + 1] == b[0];
      } else {
        assert c[k] == b[k - |a|] && c[k + 1] == b[k + 1 - |a|];
      }
    }
  }

  /** The names `findBindingVars` reads out of a well-formed binding name lie inside it, in order and apart. */
  lemma {:induction false} BindingVarsInside(n: Node)
    requires WellFormedNode(n)
    ensures RangesInside(BindingVarsIn(n), Span(n))
    decreases n, 1
  {
    match n
    case ObjectBindingPattern(s, e, es) => BindingVarsAllInside(es, s, e);
    case ArrayBindingPattern(s, e, es) => BindingVarsAllInside(es, s, e);
    case PropertyAssignment(s, e, x) =>
      assert Laid([x], s, e) && WellFormedNode(x);
      assert [x][0] == x;
      BindingVarsInside(x);
    case Spread(s, e, x) =>
      assert Laid([x], s, e) && WellFormedNode(x);
      assert [x][0] == x;
      BindingVarsInside(x);
    case Identifier(_, _, _) =>
    case ShorthandProperty(_, _, _, _, _) =>
    case _ =>
  }

  lemma {:induction false} BindingElementInside(e: Node)
    requires WellFormedNode(e)
    ensures RangesInside(BindingVarsOfElement(e), Span(e))
    decreases e, 2
  {
    if e.BindingElement? {
      assert Laid([e.name], e.start, e.end) && WellFormedNode(e.name);
      assert [e.name][0] == e.name;
      BindingVarsInside(e.name);
    }
  }

  lemma {:induction false} BindingVarsAllInside(es: seq<Node>, lo: int, hi: int)
    requires Laid(es, lo, hi) && WellFormedAll(es) && lo <= hi
    ensures RangesInside(BindingVarsInAll(es), Range(lo, hi))
    decreases es, 0
  {
    if es != [] {
      var init, last := es[..|es| - 1], es[|es| - 1];
      assert Laid(init, lo, last.start);
      assert WellFormedAll(init) && WellFormedNode(last);
      BindingVarsAllInside(init, lo, last.start);
      BindingElementInside(last);
      RangesInsideAppend(BindingVarsInAll(init), BindingVarsOfElement(last), lo, last.start, hi);
    }
  }

  /**
   * One recorded decomposition is well shaped: its left side (and right side,
   * after it) lie inside its parent, and its variables inside its left side.
   */
  predicate RecordShaped(b: BinaryRecord) {
    && b.parent.start <= b.left.start <= b.left.end <= b.parent.end
    && (b.right.Some? ==> b.left.end <= b.right.value.start <= b.right.value.end <= b.parent.end)
    && VarsInside(b.vars, b.left)
  }

  /** Records in document order, inside [lo, hi], each well shaped. */
  predicate RecordsLaid(bs: seq<BinaryRecord>, lo: int, hi: int) {
    && (forall k :: 0 <= k < |bs| ==> RecordShaped(bs[k]) && lo <= bs[k].parent.start && bs[k].parent.end <= hi)
    && (forall k :: 0 <= k < |bs| - 1 ==> bs[k].parent.end <= bs[k + 1].parent.start)
  }

  lemma RecordsLaidAppend(a: seq<BinaryRecord>, b: seq<BinaryRecord>, lo: int, mid: int, hi: int)
    requires RecordsLaid(a, lo, mid) && RecordsLaid(b, mid, hi) && lo <= mid <= hi
    ensures RecordsLaid(a + b, lo, hi)
  {
    var c := a + b;
    forall k | 0 <= k < |c| ensures RecordShaped(c[k]) && lo <= c[k].parent.start && c[k].parent.end <= hi {
      if k < |a| {
        assert c[k] == a[k];
      } else {
        assert c[k] == b[k - |a|];
      }
    }
    forall k | 0 <= k < |c| - 1 ensures c[k].parent.end <= c[k + 1].parent.start {
      if k < |a| - 1 {
        assert c[k] == a[k] && c[k + 1] == a[k + 1];
      } else if k == |a| - 1 {
        assert c[k] == a[k] && c[k + 1] == b[0];
      } else {
        assert c[k] == b[k - |a|] && c[k + 1] == b[k + 1 - |a|];
      }
    }
  }

  lemma RecordsLaidWiden(bs: seq<BinaryRecord>, lo: int, hi: int, lo': int, hi': int)
    requires RecordsLaid(bs, lo, hi) && lo' <= lo && hi <= hi'
    ensures RecordsLaid(bs, lo', hi')
  {
  }

  /** The range a walk records parents within: the enclosing parenthesis, or the node itself. */
  function Outer(n: Node, parenthesized: Option<Node>): Range {
    if parenthesized.Some? then Span(parenthesized.value) else Span(n)
  }

  /**
   * `findBinaryExpressions` on a well-formed expression records well-shaped
   * decompositions in document order, each inside the expression (or the
   * parenthesis around it).
   */
  lemma {:induction false} BinarysLaid(n: Node, parenthesized: Option<Node>, inRoot: bool)
    requires WellFormedNode(n)
    requires parenthesized.Some? ==> parenthesized.value.start <= n.start && n.end <= parenthesized.value.end
    ensures RecordsLaid(BinarysIn(n, parenthesized, inRoot), Outer(n, parenthesized).start, Outer(n, parenthesized).end)
    decreases n, 1
  {
    match n
    case Identifier(_, _, _) =>
      LabelVarsInside(n, inRoot);
    case Binary(_, _, _, _) =>
      BinaryLaid(n, parenthesized, inRoot);
    case Parenthesized(s, e, x) =>
      assert Laid([x], s, e) && WellFormedNode(x);
      assert [x][0] == x;
      assert s <= x.start && x.end <= e;
      var inner := if parenthesized.Some? then parenthesized else Some(n);
      BinarysLaid(x, inner, inRoot);
      assert Outer(x, inner) == Outer(n, parenthesized);
    case _ =>
  }

  /** The binary case of `BinarysLaid`: split into its operands, or recorded whole. */
  lemma {:induction false} BinaryLaid(n: Node, parenthesized: Option<Node>, inRoot: bool)
    requires n.Binary? && WellFormedNode(n)
    requires parenthesized.Some? ==> parenthesized.value.start <= n.start && n.end <= parenthesized.value.end
    ensures RecordsLaid(BinarysIn(n, parenthesized, inRoot), Outer(n, parenthesized).start, Outer(n, parenthesized).end)
    decreases n, 0
  {
    var l, r := n.left, n.right;
    assert Laid([l, r], n.start, n.end) && WellFormedNode(l) && WellFormedNode(r);
    assert [l, r][0] == l && [l, r][1] == r;
    assert n.start <= l.start && l.end <= r.start && r.end <= n.end;
    var outer := Outer(n, parenthesized);
    if Splits(n) {
      BinarysLaid(l, None, inRoot);
      BinarysLaid(r, None, inRoot);
      RecordsLaidWiden(BinarysIn(l, None, inRoot), l.start, l.end, outer.start, l.end);
      RecordsLaidWiden(BinarysIn(r, None, inRoot), r.start, r.end, l.end, outer.end);
      RecordsLaidAppend(BinarysIn(l, None, inRoot), BinarysIn(r, None, inRoot), outer.start, l.end, outer.end);
    } else {
      LabelVarsInside(l, inRoot);
      var b := BinarysIn(n, parenthesized, inRoot)[0];
      assert b.parent == outer && b.left == Span(l);
      assert RecordShaped(b);
    }
  }

  /**
   * A `ref:` label whose decompositions came from `findBinaryExpressions`
   * has its parentheses in order: the suggestion normalisation's blanking
   * of them never gets a negative width.
   */
  lemma WalkedLabelParensOrdered(l: LabelRecord, exp: Node, inRoot: bool)
    requires WellFormedNode(exp) && l.binarys == BinarysIn(exp, None, inRoot)
    ensures ParensOrdered(l)
    ensures forall k :: 0 <= k < |l.binarys| ==> VarsInside(l.binarys[k].vars, l.binarys[k].left)
  {
    BinarysLaid(exp, None, inRoot);
    if l.binarys != [] {
      assert RecordShaped(l.binarys[0]) && RecordShaped(l.binarys[|l.binarys| - 1]);
    }
  }
}
