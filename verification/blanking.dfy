/**
 * Width-preserving blanking of script text: `replaceStringToEmpty`, which
 * turns a span into a comment or spaces, and `newLinesOnly`, which keeps
 * only the line structure of a block.
 */
module Blanking {
  import opened Text

  function Abs(x: int): nat { if x < 0 then -x else x }

  function Clamp(i: int, n: nat): nat { if i < 0 then 0 else if i > n then n else i }

  /** JavaScript's `s.substring(a, b)`: both indices clamped into the string, then ordered. */
  function JsSubstring(s: string, a: int, b: int): string {
    var x, y := Clamp(a, |s|), Clamp(b, |s|);
    if x <= y then s[x..y] else s[y..x]
  }

  /** `replaceStringToEmpty(str, start, end)` */
  function ReplaceStringToEmpty(str: string, start: int, end: int): string {
    if Abs(end - start) >= 4 then
      JsSubstring(str, 0, start) + "/*" + Spaces(Abs(end - start) - 4) + "*/" + JsSubstring(str, end, |str|)
    else
      JsSubstring(str, 0, start) + Spaces(Abs(end - start)) + JsSubstring(str, end, |str|)
  }

  /**
   * On an in-bounds span, blanking keeps the length and every character
   * outside the span; a span of width 4 or more becomes `/*`, spaces, `*/`,
   * a shorter one becomes spaces.
   */
  lemma ReplaceStringToEmptyShape(str: string, start: int, end: int)
    requires 0 <= start <= end <= |str|
    ensures var r := ReplaceStringToEmpty(str, start, end);
      && |r| == |str|
      && (forall i :: 0 <= i < |str| && !(start <= i < end) ==> r[i] == str[i])
      && (end - start >= 4 ==>
            r[start..start + 2] == "/*" && r[end - 2..end] == "*/" &&
            forall i :: start + 2 <= i < end - 2 ==> r[i] == ' ')
      && (end - start < 4 ==> forall i :: start <= i < end ==> r[i] == ' ')
  {
    var r := ReplaceStringToEmpty(str, start, end);
    if end - start >= 4 {
      assert r == str[..start] + "/*" + Spaces(end - start - 4) + "*/" + str[end..];
    } else {
      assert r == str[..start] + Spaces(end - start) + str[end..];
    }
  }

  /** The text a blanked span of width `w` receives. */
  function EmptyFill(w: nat): (r: string)
    ensures |r| == w
  {
    if w >= 4 then "/*" + Spaces(w - 4) + "*/" else Spaces(w)
  }

  lemma ReplaceStringToEmptyFill(str: string, start: int, end: int)
    requires 0 <= start <= end <= |str|
    ensures ReplaceStringToEmpty(str, start, end) == str[..start] + EmptyFill(end - start) + str[end..]
  {
    assert JsSubstring(str, 0, start) == str[..start] && JsSubstring(str, end, |str|) == str[end..];
    assert Abs(end - start) == end - start;
    if end - start >= 4 {
      ConcatAssoc(str[..start] + "/*", Spaces(end - start - 4), "*/");
      ConcatAssoc(str[..start], "/*" + Spaces(end - start - 4), "*/");
      ConcatAssoc(str[..start], "/*", Spaces(end - start - 4));
    }
  }

  // ---------------------------------------------------------------------------
  // newLinesOnly = originalCode.split('\n').map(line => ' '.repeat(line.length)).join('\n')

  /** The index of the first newline, or -1. */
  function IndexOfNewline(s: string): (k: int)
    ensures -1 <= k < |s|
    ensures k >= 0 ==> s[k] == '\n' && forall i :: 0 <= i < k ==> s[i] != '\n'
    ensures k == -1 ==> forall i :: 0 <= i < |s| ==> s[i] != '\n'
  {
    if s == [] then -1
    else if s[0] == '\n' then 0
    else
      var k := IndexOfNewline(s[1..]);
      if k < 0 then -1 else k + 1
  }

  /** `s.split('\n')` */
  function SplitLines(s: string): (lines: seq<string>)
    ensures |lines| >= 1
    decreases |s|
  {
    var k := IndexOfNewline(s);
    if k < 0 then [s] else [s[..k]] + SplitLines(s[k + 1..])
  }

  /** `lines.join('\n')` */
  function JoinLines(lines: seq<string>): string
    requires |lines| >= 1
  {
    if |lines| == 1 then lines[0] else lines[0] + "\n" + JoinLines(lines[1..])
  }

  /** `lines.map(line => ' '.repeat(line.length))` */
  function BlankEach(lines: seq<string>): (r: seq<string>)
    ensures |r| == |lines|
    ensures forall i :: 0 <= i < |lines| ==> r[i] == Spaces(|lines[i]|)
  {
    seq(|lines|, i requires 0 <= i < |lines| => Spaces(|lines[i]|))
  }

  function NewLinesOnly(s: string): string {
    JoinLines(BlankEach(SplitLines(s)))
  }

  /**
   * `newLinesOnly` has the block's length and its newlines in the same
   * places; every other character is a space.
   */
  lemma {:induction false} NewLinesOnlyShape(s: string)
    ensures |NewLinesOnly(s)| == |s|
    ensures forall i :: 0 <= i < |s| ==> NewLinesOnly(s)[i] == if s[i] == '\n' then '\n' else ' '
    decreases |s|
  {
    var k := IndexOfNewline(s);
    if k < 0 {
      NewLinesOnlyLastLine(s);
    } else {
      var rest := s[k + 1..];
      NewLinesOnlyShape(rest);
      NewLinesOnlyStep(s, k);
      var t := NewLinesOnly(s);
      forall i | 0 <= i < |s| ensures t[i] == if s[i] == '\n' then '\n' else ' ' {
        if i > k {
          assert s[i] == rest[i - k - 1] && t[i] == NewLinesOnly(rest)[i - k - 1];
        } else if i < k {
          assert t[i] == Spaces(k)[i];
        }
      }
    }
  }

  /** Without a newline, the block is one line and becomes all spaces. */
  lemma NewLinesOnlyLastLine(s: string)
    requires IndexOfNewline(s) < 0
    ensures NewLinesOnly(s) == Spaces(|s|)
  {
    assert SplitLines(s) == [s];
    assert BlankEach([s])[0] == Spaces(|s|);
  }

  /** Up to its first newline the block becomes spaces, then a newline, then the rest's blanking. */
  lemma NewLinesOnlyStep(s: string, k: int)
    requires k == IndexOfNewline(s) && k >= 0
    ensures NewLinesOnly(s) == Spaces(k) + "\n" + NewLinesOnly(s[k + 1..])
  {
    var lines := SplitLines(s[k + 1..]);
    assert SplitLines(s) == [s[..k]] + lines;
    var b := BlankEach([s[..k]] + lines);
    assert b[0] == Spaces(k);
    assert b[1..] == BlankEach(lines);
  }
}
