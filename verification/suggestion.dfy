/**
 * The text of a `<script setup>` block as the suggestion document sees it:
 * every `$` of a `$name` reference becomes a space, every `ref:` label
 * becomes `let` with its colon blanked, and the parentheses around a
 * label's expression become spaces. Nothing moves, so one whole-block
 * Offset mapping translates positions exactly.
 */
module Suggestion {
  import opened SourceMaps
  import opened ScriptSetupData
  import opened Text
  import opened Blanking

  /** `s.substring(0, d) + ' ' + s.substring(d + 1)` */
  function BlankAt(s: string, d: int): string {
    JsSubstring(s, 0, d) + " " + JsSubstring(s, d + 1, |s|)
  }

  /** The dollar loop, over the offsets in order. */
  function BlankDollars(s: string, ds: seq<int>): string {
    if ds == [] then s else BlankAt(BlankDollars(s, ds[..|ds| - 1]), ds[|ds| - 1])
  }

  /** `s.replace(':', ' ')`: only the first colon, if there is one, becomes a space. */
  function ReplaceFirstColon(s: string): string {
    if s == [] then []
    else if s[0] == ':' then " " + s[1..]
    else [s[0]] + ReplaceFirstColon(s[1..])
  }

  /** `s.substring(0, a) + ' '.repeat(b - a) + s.substring(b)` */
  function BlankRange(s: string, a: int, b: int): string
    requires a <= b
  {
    JsSubstring(s, 0, a) + Spaces(b - a) + JsSubstring(s, b, |s|)
  }

  /** Where the last decomposition's expression ends: its right side, or its left side when it has none. */
  function EndOffset(b: BinaryRecord): int {
    if b.right.Some? then b.right.value.end else b.left.end
  }

  /**
   * A label's parentheses come no later than its first left side and end no
   * earlier than its last expression; otherwise `' '.repeat` is handed a
   * negative count and throws.
   */
  predicate ParensOrdered(l: LabelRecord) {
    l.binarys != [] ==>
      && l.binarys[0].parent.start <= l.binarys[0].left.start
      && EndOffset(l.binarys[|l.binarys| - 1]) <= l.binarys[|l.binarys| - 1].parent.end
  }

  /** The label step: `ref` becomes `let` with the next colon blanked, then the opening and closing parentheses. */
  function RenameLabel(s: string, l: LabelRecord): string
    requires ParensOrdered(l)
  {
    var s1 := JsSubstring(s, 0, l.labelRange.start) + "let" + ReplaceFirstColon(JsSubstring(s, l.labelRange.end, |s|));
    if l.binarys == [] then s1 else BlankParens(s1, l)
  }

  /** The opening parenthesis gap before the first left side, then the closing one after the last expression. */
  function BlankParens(s: string, l: LabelRecord): string
    requires l.binarys != [] && ParensOrdered(l)
  {
    var first, last := l.binarys[0], l.binarys[|l.binarys| - 1];
    var s2 := if first.parent.start != first.left.start then BlankRange(s, first.parent.start, first.left.start) else s;
    if last.parent.end != EndOffset(last) then BlankRange(s2, EndOffset(last), last.parent.end) else s2
  }

  /** The label loop, over the labels in order. */
  function RenameLabels(s: string, ls: seq<LabelRecord>): string
    requires forall k :: 0 <= k < |ls| ==> ParensOrdered(ls[k])
  {
    if ls == [] then s else RenameLabel(RenameLabels(s, ls[..|ls| - 1]), ls[|ls| - 1])
  }

  /** `noDollarCode`: the dollars blanked first, then the labels renamed. */
  function NoDollarCode(content: string, data: SetupData): string
    requires forall k :: 0 <= k < |data.labels| ==> ParensOrdered(data.labels[k])
  {
    RenameLabels(BlankDollars(content, data.dollars), data.labels)
  }

  /** The suggestion normalisation, as the two loops that rewrite the block. */
  method NormaliseForSuggestion(content: string, data: SetupData) returns (noDollarCode: string)
    requires forall k :: 0 <= k < |data.labels| ==> ParensOrdered(data.labels[k])
    ensures noDollarCode == NoDollarCode(content, data)
  {
    noDollarCode := BlankDollarsLoop(content, data.dollars);
    noDollarCode := RenameLabelsLoop(noDollarCode, data.labels);
  }

  /** The dollar loop: each listed offset becomes a space, in order. */
  method BlankDollarsLoop(content: string, dollars: seq<int>) returns (noDollarCode: string)
    ensures noDollarCode == BlankDollars(content, dollars)
  {
    noDollarCode := content;
    for i := 0 to |dollars|
      invariant noDollarCode == BlankDollars(content, dollars[..i])
    {
      var dollar := dollars[i];
      assert dollars[..i + 1][..i] == dollars[..i];
      noDollarCode := JsSubstring(noDollarCode, 0, dollar) + " " + JsSubstring(noDollarCode, dollar + 1, |noDollarCode|);
    }
    assert dollars[..|dollars|] == dollars;
  }

  /** The label loop, over the labels in order. */
  method RenameLabelsLoop(code: string, labels: seq<LabelRecord>) returns (noDollarCode: string)
    requires forall k :: 0 <= k < |labels| ==> ParensOrdered(labels[k])
    ensures noDollarCode == RenameLabels(code, labels)
  {
    noDollarCode := code;
    for li := 0 to |labels|
      invariant noDollarCode == RenameLabels(code, labels[..li])
    {
      assert labels[..li + 1][..li] == labels[..li];
      noDollarCode := RenameOne(noDollarCode, labels[li]);
    }
    assert labels[..|labels|] == labels;
  }

  /** One turn of the label loop. */
  method RenameOne(code: string, record: LabelRecord) returns (noDollarCode: string)
    requires ParensOrdered(record)
    ensures noDollarCode == RenameLabel(code, record)
  {
    noDollarCode := JsSubstring(code, 0, record.labelRange.start) + "let" +
                    ReplaceFirstColon(JsSubstring(code, record.labelRange.end, |code|));
    if |record.binarys| > 0 {
      noDollarCode := BlankParensOf(noDollarCode, record);
    }
  }

  /** The parenthesis part of one turn of the label loop. */
  method BlankParensOf(code: string, record: LabelRecord) returns (noDollarCode: string)
    requires record.binarys != [] && ParensOrdered(record)
    ensures noDollarCode == BlankParens(code, record)
  {
    noDollarCode := code;
    var start := record.binarys[0];
    var end := record.binarys[|record.binarys| - 1];
    if start.parent.start != start.left.start {
      noDollarCode := BlankRange(noDollarCode, start.parent.start, start.left.start);
    }
    var endOffset := if end.right.Some? then end.right.value.end else end.left.end;
    if end.parent.end != endOffset {
      noDollarCode := BlankRange(noDollarCode, endOffset, end.parent.end);
    }
  }

  // ---------------------------------------------------------------------------
  // What the normalisation does to the text

  /** `r` is `orig` with some characters overwritten by a space or by a letter of `let`. */
  ghost predicate OnlyRewritten(orig: string, r: string) {
    |r| == |orig| && forall i :: 0 <= i < |orig| ==> r[i] == orig[i] || r[i] in " let"
  }

  lemma OnlyRewrittenTrans(a: string, b: string, c: string)
    requires OnlyRewritten(a, b) && OnlyRewritten(b, c)
    ensures OnlyRewritten(a, c)
  {
    forall i | 0 <= i < |a| ensures c[i] == a[i] || c[i] in " let" {
      assert c[i] == b[i] || c[i] in " let";
      assert b[i] == a[i] || b[i] in " let";
    }
  }

  /** Blanking one in-bounds offset puts a space there and keeps everything else. */
  lemma BlankAtShape(s: string, d: int)
    requires 0 <= d < |s|
    ensures |BlankAt(s, d)| == |s|
    ensures forall i :: 0 <= i < |s| ==> BlankAt(s, d)[i] == if i == d then ' ' else s[i]
  {
    assert BlankAt(s, d) == s[..d] + " " + s[d + 1..];
  }

  /** With every offset inside the block, the dollar loop blanks exactly the listed offsets. */
  lemma {:induction false} BlankDollarsShape(s: string, ds: seq<int>)
    requires forall k :: 0 <= k < |ds| ==> 0 <= ds[k] < |s|
    ensures |BlankDollars(s, ds)| == |s|
    ensures forall i :: 0 <= i < |s| ==> BlankDollars(s, ds)[i] == if i in ds then ' ' else s[i]
  {
    if ds != [] {
      var init, d := ds[..|ds| - 1], ds[|ds| - 1];
      BlankDollarsShape(s, init);
      BlankAtShape(BlankDollars(s, init), d);
      assert ds == init + [d];
    }
  }

  /** The colon replacement keeps the length and changes at most one colon, into a space. */
  lemma {:induction false} ReplaceFirstColonShape(s: string)
    ensures |ReplaceFirstColon(s)| == |s|
    ensures forall i :: 0 <= i < |s| ==> ReplaceFirstColon(s)[i] == s[i] || (s[i] == ':' && ReplaceFirstColon(s)[i] == ' ')
  {
    if s != [] && s[0] != ':' {
      ReplaceFirstColonShape(s[1..]);
    }
  }

  lemma BlankRangeShape(s: string, a: int, b: int)
    requires 0 <= a <= b <= |s|
    ensures |BlankRange(s, a, b)| == |s|
    ensures forall i :: 0 <= i < |s| ==> BlankRange(s, a, b)[i] == if a <= i < b then ' ' else s[i]
  {
    assert BlankRange(s, a, b) == s[..a] + Spaces(b - a) + s[b..];
  }

  /** The `ref` → `let` step: the label's three characters become `let`, then a colon may become a space. */
  lemma LetShape(s: string, a: int)
    requires 0 <= a && a + 3 <= |s|
    ensures var r := JsSubstring(s, 0, a) + "let" + ReplaceFirstColon(JsSubstring(s, a + 3, |s|));
            && |r| == |s| && r[a..a + 3] == "let"
            && (forall i :: 0 <= i < |s| && !(a <= i < a + 3) ==> r[i] == s[i] || (s[i] == ':' && r[i] == ' '))
            && OnlyRewritten(s, r)
  {
    var rest := s[a + 3..];
    ReplaceFirstColonShape(rest);
    assert JsSubstring(s, 0, a) == s[..a] && JsSubstring(s, a + 3, |s|) == rest;
    var r := s[..a] + "let" + ReplaceFirstColon(rest);
    assert r[a..a + 3] == "let";
    forall i | 0 <= i < |s| ensures (a <= i < a + 3 ==> r[i] == "let"[i - a]) && (!(a <= i < a + 3) ==> r[i] == s[i] || (s[i] == ':' && r[i] == ' ')) {
      LetAt(s, a, rest, i);
    }
    forall i | 0 <= i < |s| ensures r[i] == s[i] || r[i] in " let" {
      if a <= i < a + 3 {
        assert r[i] == "let"[i - a];
      }
    }
  }

  /** Where one character of the `let` rewrite comes from. */
  lemma LetAt(s: string, a: int, rest: string, i: int)
    requires 0 <= a && a + 3 <= |s| && rest == s[a + 3..] && 0 <= i < |s|
    requires |ReplaceFirstColon(rest)| == |rest|
    requires forall k :: 0 <= k < |rest| ==> ReplaceFirstColon(rest)[k] == rest[k] || (rest[k] == ':' && ReplaceFirstColon(rest)[k] == ' ')
    ensures var r := s[..a] + "let" + ReplaceFirstColon(rest);
            && (i < a ==> r[i] == s[i])
            && (a <= i < a + 3 ==> r[i] == "let"[i - a])
            && (a + 3 <= i ==> r[i] == ReplaceFirstColon(rest)[i - a - 3] && s[i] == rest[i - a - 3])
            && (!(a <= i < a + 3) ==> r[i] == s[i] || (s[i] == ':' && r[i] == ' '))
  {
    var r := s[..a] + "let" + ReplaceFirstColon(rest);
    if a + 3 <= i {
      assert r[i] == ReplaceFirstColon(rest)[i - a - 3];
      assert s[i] == rest[i - a - 3];
    }
  }

  /** What the analyzer guarantees about a `ref:` label, for the suggestion text. */
  predicate LabelFitsSuggestion(l: LabelRecord, n: int) {
    && 0 <= l.labelRange.start && l.labelRange.end == l.labelRange.start + 3 && l.labelRange.end <= n
    && ParensOrdered(l)
    && (l.binarys != [] ==>
          && l.labelRange.end <= l.binarys[0].parent.start && l.labelRange.end <= EndOffset(l.binarys[|l.binarys| - 1])
          && 0 <= l.binarys[0].parent.start && l.binarys[0].left.start <= n
          && 0 <= EndOffset(l.binarys[|l.binarys| - 1]) && l.binarys[|l.binarys| - 1].parent.end <= n)
  }

  /** Every `$` offset lies inside the block and every label fits it. */
  predicate FitsSuggestion(content: string, data: SetupData) {
    && (forall k :: 0 <= k < |data.dollars| ==> 0 <= data.dollars[k] < |content|)
    && (forall k :: 0 <= k < |data.labels| ==> LabelFitsSuggestion(data.labels[k], |content|))
  }

  /**
   * Renaming one label leaves `let` where `ref` was and spaces in the two
   * parenthesis gaps, and rewrites nothing else except into a space.
   */
  lemma RenameLabelShape(s: string, l: LabelRecord)
    requires LabelFitsSuggestion(l, |s|)
    ensures OnlyRewritten(s, RenameLabel(s, l))
    ensures RenameLabel(s, l)[l.labelRange.start..l.labelRange.end] == "let"
    ensures l.binarys != [] ==>
              forall i :: l.binarys[0].parent.start <= i < l.binarys[0].left.start ==> RenameLabel(s, l)[i] == ' '
    ensures l.binarys != [] ==>
              var last := l.binarys[|l.binarys| - 1];
              forall i :: EndOffset(last) <= i < last.parent.end ==> RenameLabel(s, l)[i] == ' '
  {
    var a := l.labelRange.start;
    LetShape(s, a);
    if l.binarys != [] {
      BlankParensAfterLet(s, JsSubstring(s, 0, a) + "let" + ReplaceFirstColon(JsSubstring(s, a + 3, |s|)), l);
    }
  }

  /** The parenthesis step after the `let` step: the gaps become spaces and `let` stays. */
  lemma BlankParensAfterLet(s: string, s1: string, l: LabelRecord)
    requires LabelFitsSuggestion(l, |s|) && l.binarys != []
    requires OnlyRewritten(s, s1) && s1[l.labelRange.start..l.labelRange.end] == "let"
    ensures OnlyRewritten(s, BlankParens(s1, l))
    ensures BlankParens(s1, l)[l.labelRange.start..l.labelRange.end] == "let"
    ensures forall i :: l.binarys[0].parent.start <= i < l.binarys[0].left.start ==> BlankParens(s1, l)[i] == ' '
    ensures var last := l.binarys[|l.binarys| - 1];
            forall i :: EndOffset(last) <= i < last.parent.end ==> BlankParens(s1, l)[i] == ' '
  {
    var t := BlankParens(s1, l);
    BlankParensShape(s1, l);
    OnlyRewrittenTrans(s, s1, t);
    LetKept(s1, t, l.labelRange.start);
  }

  /** A text that keeps the three characters at `a` of one holding `let` there holds `let` there too. */
  lemma LetKept(s1: string, t: string, a: int)
    requires 0 <= a && a + 3 <= |s1| == |t| && s1[a..a + 3] == "let"
    requires forall i :: a <= i < a + 3 ==> t[i] == s1[i]
    ensures t[a..a + 3] == "let"
  {
    assert s1[a..a + 3][0] == s1[a] && s1[a..a + 3][1] == s1[a + 1] && s1[a..a + 3][2] == s1[a + 2];
    assert t[a] == 'l' && t[a + 1] == 'e' && t[a + 2] == 't';
  }

  /** Blanking the parenthesis gaps keeps the length, puts spaces in both gaps and leaves the label word alone. */
  lemma BlankParensShape(s: string, l: LabelRecord)
    requires LabelFitsSuggestion(l, |s|) && l.binarys != []
    ensures OnlyRewritten(s, BlankParens(s, l))
    ensures forall i :: l.labelRange.start <= i < l.labelRange.end ==> BlankParens(s, l)[i] == s[i]
    ensures forall i :: l.binarys[0].parent.start <= i < l.binarys[0].left.start ==> BlankParens(s, l)[i] == ' '
    ensures var last := l.binarys[|l.binarys| - 1];
            forall i :: EndOffset(last) <= i < last.parent.end ==> BlankParens(s, l)[i] == ' '
  {
    var first, last := l.binarys[0], l.binarys[|l.binarys| - 1];
    var s2 := if first.parent.start != first.left.start then BlankRange(s, first.parent.start, first.left.start) else s;
    if first.parent.start != first.left.start {
      BlankRangeShape(s, first.parent.start, first.left.start);
    }
    if last.parent.end != EndOffset(last) {
      BlankRangeShape(s2, EndOffset(last), last.parent.end);
    }
  }

  /** The rename loop keeps the length and rewrites only into spaces and `let`. */
  lemma {:induction false} RenameLabelsShape(s: string, ls: seq<LabelRecord>)
    requires forall k :: 0 <= k < |ls| ==> LabelFitsSuggestion(ls[k], |s|)
    requires forall k :: 0 <= k < |ls| ==> ParensOrdered(ls[k])
    ensures OnlyRewritten(s, RenameLabels(s, ls))
  {
    if ls != [] {
      var init := ls[..|ls| - 1];
      RenameLabelsShape(s, init);
      var t := RenameLabels(s, init);
      RenameLabelShape(t, ls[|ls| - 1]);
      OnlyRewrittenTrans(s, t, RenameLabels(s, ls));
    }
  }

  /**
   * The suggestion text has the block's length, and differs from it only by
   * spaces and the letters of `let`, so the one whole-block Offset mapping of
   * the suggestion document is exact.
   */
  lemma NoDollarCodeShape(content: string, data: SetupData)
    requires FitsSuggestion(content, data)
    ensures OnlyRewritten(content, NoDollarCode(content, data))
    ensures |NoDollarCode(content, data)| == |content|
  {
    BlankDollarsShape(content, data.dollars);
    var b := BlankDollars(content, data.dollars);
    assert OnlyRewritten(content, b) by {
      forall i | 0 <= i < |content| ensures b[i] == content[i] || b[i] in " let" {
      }
    }
    RenameLabelsShape(b, data.labels);
    OnlyRewrittenTrans(content, b, NoDollarCode(content, data));
  }
}
