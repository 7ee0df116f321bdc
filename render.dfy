/**
  The text output of main.swift: `plotValue`, which draws one grid point, and
  `renderIndices`, which draws an axis of tick labels under a plot.

  `renderIndices` walks the columns of a real `PlotPoints` with the ticks in ascending order.
  At column c (the length of the text so far) it compares the grid value at c with the next
  tick. When the value has reached the tick it appends that value's label and moves on to the
  next tick; otherwise it appends a space. A label takes several columns, so the grid values
  under a label are skipped. The walk stops when the text is as long as the grid or when the
  ticks run out.
 */
module Rendering {
  import opened Wrappers
  import opened Grid

  /** `plotValue(for:)`: a bounded point is drawn as '*', any other point as a blank. */
  function PlotValue(bounded: bool): (ch: char)
    ensures ch == '*' <==> bounded
    ensures ch == ' ' <==> !bounded
  {
    if bounded then '*' else ' '
  }

  predicate Ascending(s: seq<real>) {
    forall i, j :: 0 <= i <= j < |s| ==> s[i] <= s[j]
  }

  /** Inserts x into an ascending sequence. */
  function Insert(x: real, s: seq<real>): (r: seq<real>)
    requires Ascending(s)
    ensures Ascending(r)
    ensures multiset(r) == multiset(s) + multiset{x}
    ensures |r| == |s| + 1
    ensures r[0] == x || (|s| > 0 && r[0] == s[0])
  {
    if |s| == 0 || x <= s[0] then
      [x] + s
    else
      assert s == [s[0]] + s[1..];
      [s[0]] + Insert(x, s[1..])
  }

  /** `sorted()` on an array of reals: the same values in ascending order. */
  function Sort(s: seq<real>): (r: seq<real>)
    ensures Ascending(r)
    ensures multiset(r) == multiset(s)
  {
    if |s| == 0 then []
    else
      assert s == [s[0]] + s[1..];
      Insert(s[0], Sort(s[1..]))
  }

  /** The head of an ascending sequence is its least element. */
  lemma AscendingHeadIsLeast(s: seq<real>, y: real)
    requires Ascending(s) && y in multiset(s)
    ensures |s| > 0 && s[0] <= y
  {
    var i :| 0 <= i < |s| && s[i] == y;
  }

  /** Taking equal heads off sequences with equal multisets leaves equal multisets. */
  lemma TailsSameMultiset(a: seq<real>, b: seq<real>)
    requires |a| > 0 && |b| > 0 && a[0] == b[0]
    requires multiset(a) == multiset(b)
    ensures multiset(a[1..]) == multiset(b[1..])
  {
    assert a == [a[0]] + a[1..];
    assert b == [b[0]] + b[1..];
    forall y
      ensures multiset(a[1..])[y] == multiset(b[1..])[y]
    {
      assert multiset(a)[y] == multiset{a[0]}[y] + multiset(a[1..])[y];
      assert multiset(b)[y] == multiset{a[0]}[y] + multiset(b[1..])[y];
    }
  }

  /** There is only one ascending arrangement of a multiset of reals, so `Sort` is the order `sorted()` gives. */
  lemma {:induction false} AscendingPermutationUnique(a: seq<real>, b: seq<real>)
    requires Ascending(a) && Ascending(b)
    requires multiset(a) == multiset(b)
    ensures a == b
  {
    if |a| == 0 {
      assert |b| == |multiset(b)| == 0;
    } else {
      AscendingHeadIsLeast(b, a[0]);
      AscendingHeadIsLeast(a, b[0]);
      TailsSameMultiset(a, b);
      AscendingPermutationUnique(a[1..], b[1..]);
    }
  }

  /**
    What `String(format: "|%.2f", x)` produces, as far as the axis depends on it: a bar that
    marks the tick's column, followed by characters that are neither bars nor blanks. So a label
    is never empty, holds no blank, and has its one bar in its first column.
   */
  predicate IsLabel(l: string): (b: bool)
    ensures b <==> |l| >= 1 && forall k :: 0 <= k < |l| ==> (l[k] == '|' <==> k == 0) && l[k] != ' '
  {
    |l| >= 1 && l[0] == '|' && forall k :: 1 <= k < |l| ==> l[k] != '|' && l[k] != ' '
  }

  /** The number of bars in a text. */
  function Bars(s: string): (n: nat)
    ensures n <= |s|
  {
    if |s| == 0 then 0 else (if s[0] == '|' then 1 else 0) + Bars(s[1..])
  }

  lemma {:induction false} BarsAppend(s: string, t: string)
    ensures Bars(s + t) == Bars(s) + Bars(t)
  {
    if |s| > 0 {
      assert (s + t)[1..] == s[1..] + t;
      BarsAppend(s[1..], t);
    } else {
      assert s + t == t;
    }
  }

  lemma {:induction false} LabelHasOneBar(l: string)
    requires IsLabel(l)
    ensures Bars(l) == 1
  {
    assert Bars(l[1..]) == 0 by {
      NoBars(l[1..]);
    }
  }

  lemma {:induction false} NoBars(s: string)
    requires forall k :: 0 <= k < |s| ==> s[k] != '|'
    ensures Bars(s) == 0
  {
    if |s| > 0 {
      NoBars(s[1..]);
    }
  }

  /** The text of an axis and the number of ticks it has labelled. */
  datatype Axis = Axis(text: string, consumed: nat)

  /**
    The walk of `renderIndices` from a text `acc` already written, with `ticks` the ticks not
    yet labelled.
   */
  function Render(ticks: seq<real>, points: RealPoints, labelOf: real -> string, acc: string): (a: Axis)
    requires forall x :: IsLabel(labelOf(x))
    requires points.pointCount >= 0
    ensures acc <= a.text
    ensures a.consumed <= |ticks|
    ensures a.consumed == |ticks| || |a.text| >= points.pointCount
    decreases points.pointCount - |acc|
  {
    if |acc| >= points.pointCount || |ticks| == 0 then
      Axis(acc, 0)
    else
      var value := RealAt(points, |acc|);
      if value >= ticks[0] then
        var rest := Render(ticks[1..], points, labelOf, acc + labelOf(value));
        Axis(rest.text, rest.consumed + 1)
      else
        Render(ticks, points, labelOf, acc + " ")
  }

  /** Each labelled tick adds exactly one bar. */
  lemma {:induction false} RenderBars(ticks: seq<real>, points: RealPoints, labelOf: real -> string, acc: string)
    requires forall x :: IsLabel(labelOf(x))
    requires points.pointCount >= 0
    ensures Bars(Render(ticks, points, labelOf, acc).text) == Bars(acc) + Render(ticks, points, labelOf, acc).consumed
    decreases points.pointCount - |acc|
  {
    if |acc| >= points.pointCount || |ticks| == 0 {
    } else {
      var value := RealAt(points, |acc|);
      if value >= ticks[0] {
        RenderBars(ticks[1..], points, labelOf, acc + labelOf(value));
        BarsAppend(acc, labelOf(value));
        LabelHasOneBar(labelOf(value));
      } else {
        RenderBars(ticks, points, labelOf, acc + " ");
        BarsAppend(acc, " ");
        assert Bars(" ") == 0;
      }
    }
  }

  /** The bars between `acc` and column c, when `acc + l` is a prefix of the text ending at or before c. */
  lemma {:induction false} BarsAfterPrefix(text: string, acc: string, l: string, c: int)
    requires acc + l <= text && |acc| + |l| <= c <= |text|
    ensures Bars(text[|acc|..c]) == Bars(l) + Bars(text[|acc| + |l|..c])
  {
    var n := |acc| + |l|;
    assert text[|acc|..n] == l;
    assert text[|acc|..c] == text[|acc|..n] + text[n..c];
    BarsAppend(l, text[n..c]);
  }

  /** Within a label written after `acc`, the only bar is at the label's first column and there is no blank. */
  lemma {:induction false} LabelColumns(text: string, acc: string, l: string, c: int)
    requires IsLabel(l) && acc + l <= text
    requires |acc| <= c < |text|
    ensures c < |acc| + |l| ==> text[c] != ' ' && (text[c] == '|' ==> c == |acc|)
  {
    if c < |acc| + |l| {
      assert text[c] == l[c - |acc|];
    }
  }

  /**
    A blank in the new text: with j the number of bars written before column c, the grid point
    at c lies within the grid and its value is still below tick j.
   */
  lemma {:induction false} RenderBlank(ticks: seq<real>, points: RealPoints, labelOf: real -> string, acc: string, c: int)
    requires forall x :: IsLabel(labelOf(x))
    requires points.pointCount >= 0
    requires |acc| <= c < |Render(ticks, points, labelOf, acc).text|
    requires Render(ticks, points, labelOf, acc).text[c] == ' '
    ensures var j := Bars(Render(ticks, points, labelOf, acc).text[|acc|..c]);
      c < points.pointCount && j < |ticks| && RealAt(points, c) < ticks[j]
    decreases points.pointCount - |acc|, 1
  {
    if RealAt(points, |acc|) >= ticks[0] {
      RenderBlankAfterLabel(ticks, points, labelOf, acc, c);
    } else if c > |acc| {
      RenderBlankAfterBlank(ticks, points, labelOf, acc, c);
    }
  }

  /** `RenderBlank` when the walk labels a tick at column `|acc|`. */
  lemma {:induction false} RenderBlankAfterLabel(ticks: seq<real>, points: RealPoints, labelOf: real -> string, acc: string, c: int)
    requires forall x :: IsLabel(labelOf(x))
    requires points.pointCount >= 0
    requires |acc| < points.pointCount && |ticks| > 0 && RealAt(points, |acc|) >= ticks[0]
    requires |acc| <= c < |Render(ticks, points, labelOf, acc).text|
    requires Render(ticks, points, labelOf, acc).text[c] == ' '
    ensures var j := Bars(Render(ticks, points, labelOf, acc).text[|acc|..c]);
      c < points.pointCount && j < |ticks| && RealAt(points, c) < ticks[j]
    decreases points.pointCount - |acc|, 0
  {
    var l := labelOf(RealAt(points, |acc|));
    var text := Render(ticks[1..], points, labelOf, acc + l).text;
    assert text == Render(ticks, points, labelOf, acc).text;
    LabelColumns(text, acc, l, c);
    RenderBlank(ticks[1..], points, labelOf, acc + l, c);
    BarsAfterPrefix(text, acc, l, c);
    LabelHasOneBar(l);
  }

  /** `RenderBlank` past column `|acc|` when the walk writes a blank there. */
  lemma {:induction false} RenderBlankAfterBlank(ticks: seq<real>, points: RealPoints, labelOf: real -> string, acc: string, c: int)
    requires forall x :: IsLabel(labelOf(x))
    requires points.pointCount >= 0
    requires |acc| < points.pointCount && |ticks| > 0 && RealAt(points, |acc|) < ticks[0]
    requires |acc| < c < |Render(ticks, points, labelOf, acc).text|
    requires Render(ticks, points, labelOf, acc).text[c] == ' '
    ensures var j := Bars(Render(ticks, points, labelOf, acc).text[|acc|..c]);
      c < points.pointCount && j < |ticks| && RealAt(points, c) < ticks[j]
    decreases points.pointCount - |acc|, 0
  {
    var text := Render(ticks, points, labelOf, acc + " ").text;
    assert text == Render(ticks, points, labelOf, acc).text;
    RenderBlank(ticks, points, labelOf, acc + " ", c);
    BarsAfterPrefix(text, acc, " ", c);
    assert Bars(" ") == 0;
  }

  /**
    A bar in the new text: with j the number of bars written before column c, the grid point at
    c lies within the grid, its value has reached tick j, and the label of that value is
    written from column c on.
   */
  lemma {:induction false} RenderLabel(ticks: seq<real>, points: RealPoints, labelOf: real -> string, acc: string, c: int)
    requires forall x :: IsLabel(labelOf(x))
    requires points.pointCount >= 0
    requires |acc| <= c < |Render(ticks, points, labelOf, acc).text|
    requires Render(ticks, points, labelOf, acc).text[c] == '|'
    ensures var text := Render(ticks, points, labelOf, acc).text;
      var j := Bars(text[|acc|..c]);
      c < points.pointCount && j < |ticks| && RealAt(points, c) >= ticks[j]
      && c + |labelOf(RealAt(points, c))| <= |text|
      && text[c..c + |labelOf(RealAt(points, c))|] == labelOf(RealAt(points, c))
    decreases points.pointCount - |acc|, 1
  {
    if RealAt(points, |acc|) >= ticks[0] {
      RenderLabelAfterLabel(ticks, points, labelOf, acc, c);
    } else {
      RenderLabelAfterBlank(ticks, points, labelOf, acc, c);
    }
  }

  /** `RenderLabel` when the walk labels a tick at column `|acc|`. */
  lemma {:induction false} RenderLabelAfterLabel(ticks: seq<real>, points: RealPoints, labelOf: real -> string, acc: string, c: int)
    requires forall x :: IsLabel(labelOf(x))
    requires points.pointCount >= 0
    requires |acc| < points.pointCount && |ticks| > 0 && RealAt(points, |acc|) >= ticks[0]
    requires |acc| <= c < |Render(ticks, points, labelOf, acc).text|
    requires Render(ticks, points, labelOf, acc).text[c] == '|'
    ensures var text := Render(ticks, points, labelOf, acc).text;
      var j := Bars(text[|acc|..c]);
      c < points.pointCount && j < |ticks| && RealAt(points, c) >= ticks[j]
      && c + |labelOf(RealAt(points, c))| <= |text|
      && text[c..c + |labelOf(RealAt(points, c))|] == labelOf(RealAt(points, c))
    decreases points.pointCount - |acc|, 0
  {
    var l := labelOf(RealAt(points, |acc|));
    var text := Render(ticks[1..], points, labelOf, acc + l).text;
    assert text == Render(ticks, points, labelOf, acc).text;
    LabelColumns(text, acc, l, c);
    if c < |acc| + |l| {
      assert c == |acc|;
      assert text[..|acc| + |l|] == acc + l;
      assert text[c..c + |l|] == l;
    } else {
      RenderLabel(ticks[1..], points, labelOf, acc + l, c);
      BarsAfterPrefix(text, acc, l, c);
      LabelHasOneBar(l);
    }
  }

  /** `RenderLabel` when the walk writes a blank at column `|acc|`. */
  lemma {:induction false} RenderLabelAfterBlank(ticks: seq<real>, points: RealPoints, labelOf: real -> string, acc: string, c: int)
    requires forall x :: IsLabel(labelOf(x))
    requires points.pointCount >= 0
    requires |acc| < points.pointCount && |ticks| > 0 && RealAt(points, |acc|) < ticks[0]
    requires |acc| <= c < |Render(ticks, points, labelOf, acc).text|
    requires Render(ticks, points, labelOf, acc).text[c] == '|'
    ensures var text := Render(ticks, points, labelOf, acc).text;
      var j := Bars(text[|acc|..c]);
      c < points.pointCount && j < |ticks| && RealAt(points, c) >= ticks[j]
      && c + |labelOf(RealAt(points, c))| <= |text|
      && text[c..c + |labelOf(RealAt(points, c))|] == labelOf(RealAt(points, c))
    decreases points.pointCount - |acc|, 0
  {
    var text := Render(ticks, points, labelOf, acc + " ").text;
    assert text == Render(ticks, points, labelOf, acc).text;
    assert text[|acc|] == ' ';
    RenderLabel(ticks, points, labelOf, acc + " ", c);
    BarsAfterPrefix(text, acc, " ", c);
    assert Bars(" ") == 0;
  }

  /**
    `renderIndices(_:for:)`: sorts the ticks, then walks the columns as `Render` describes,
    pulling the next tick from the sorted sequence each time one is labelled.
   */
  method RenderIndices(indices: seq<real>, points: RealPoints, labelOf: real -> string) returns (rendered: string)
    requires forall x :: IsLabel(labelOf(x))
    requires points.pointCount >= 0
    ensures rendered == Render(Sort(indices), points, labelOf, "").text
  {
    rendered := "";
    var sorted := Sort(indices);
    var k := 0;
    var current: Option<real> := if k < |sorted| then Some(sorted[k]) else None;
    while |rendered| < points.pointCount
      invariant 0 <= k <= |sorted|
      invariant current == if k < |sorted| then Some(sorted[k]) else None
      invariant Render(sorted, points, labelOf, "").text == Render(sorted[k..], points, labelOf, rendered).text
      decreases points.pointCount - |rendered|
    {
      if current.None? {
        break;
      }
      var index := current.value;
      var plotPoint := RealAt(points, |rendered|);
      assert sorted[k..][0] == index;
      if plotPoint >= index {
        assert sorted[k..][1..] == sorted[k + 1..];
        rendered := rendered + labelOf(plotPoint);
        k := k + 1;
        current := if k < |sorted| then Some(sorted[k]) else None;
      } else {
        rendered := rendered + " ";
      }
    }
  }

  /** The ticks 0 and -2, sorted. */
  lemma SortedTicks()
    ensures Sort([0.0, -2.0]) == [-2.0, 0.0]
  {
    assert [0.0, -2.0][1..] == [-2.0];
    assert Sort([-2.0]) == [-2.0];
  }

  /**
    On the grid -3, -2, -1, 0, 1 with ticks 0 and -2, the axis is a blank and then the label of
    -2. Once that label takes four columns or more, it covers the column of 0, the walk runs
    off the grid, and the tick at 0 is never drawn.
   */
  lemma WideLabelHidesNextTick(labelOf: real -> string)
    requires forall x :: IsLabel(labelOf(x))
    requires |labelOf(-2.0)| >= 4
    ensures MakeRealPoints(-3.0, 1.0, 5).Ok?
    ensures var a := Render(Sort([0.0, -2.0]), MakeRealPoints(-3.0, 1.0, 5).value, labelOf, "");
      a.text == " " + labelOf(-2.0) && a.consumed == 1
  {
    var p := MakeRealPoints(-3.0, 1.0, 5).value;
    assert p.step == 1.0;
    var sorted := Sort([0.0, -2.0]);
    SortedTicks();
    assert RealAt(p, 0) == -3.0;
    assert RealAt(p, 1) == -2.0;
    assert Render(sorted, p, labelOf, "") == Render(sorted, p, labelOf, " ");
    assert Render(sorted[1..], p, labelOf, " " + labelOf(-2.0)) == Axis(" " + labelOf(-2.0), 0);
  }
}
