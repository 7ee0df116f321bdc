/**
  The sampling grids of main.swift: `PlotPoints`, a lazily indexed run of `pointCount`
  evenly spaced values from `start` to `end` (instantiated over the reals and over complex
  numbers), and `ComplexPlotPoints`, whose rows are `PlotPoints` over complex numbers at
  decreasing imaginary parts.

  The initialisers divide by `pointCount - 1`. Over exact numbers a count of 1 has no step, so it
  is an error here (in `Double` it gives a non-finite step). The initialisers store a negative
  count as it is; `count`, computed by `distance(from:to:)` from `startIndex` to `endIndex`,
  then traps on it. Here it is an error at construction. A count of 0 is an empty collection,
  as in the source.
 */
module Grid {
  import opened Wrappers
  import opened ComplexNumbers

  datatype GridError = InvalidPointCount(count: int)

  /** A count the initialisers can turn into a collection: not negative, and not 1. */
  predicate UsableCount(n: int) {
    n >= 0 && n != 1
  }

  /** `PlotPoints<Double>`. */
  datatype RealPoints = RealPoints(start: real, end: real, pointCount: int, step: real)

  /** What the initialiser establishes: the count is usable and `pointCount - 1` steps lead from start to end. */
  predicate ValidRealPoints(p: RealPoints) {
    UsableCount(p.pointCount) && p.step * ((p.pointCount - 1) as real) == p.end - p.start
  }

  /** `PlotPoints(from: start, to: end, pointCount: n)` over the reals. */
  function MakeRealPoints(start: real, end: real, n: int): (r: Result<RealPoints, GridError>)
    ensures r.Err? <==> !UsableCount(n)
    ensures r.Err? ==> r.error == InvalidPointCount(n)
    ensures r.Ok? ==> r.value.start == start && r.value.end == end && r.value.pointCount == n
    ensures r.Ok? ==> ValidRealPoints(r.value)
  {
    if !UsableCount(n) then Err(InvalidPointCount(n))
    else Ok(RealPoints(start, end, n, (end - start) / ((n - 1) as real)))
  }

  /** A real of which k >= 1 copies make a non-negative total is non-negative. */
  lemma NonNegativeFactor(x: real, k: real)
    requires 1.0 <= k && 0.0 <= x * k
    ensures 0.0 <= x
  {
    var total := x * k;
    assert x == total / k;
  }

  /**
    When n - 1 steps lead from start to end, the value i steps from start, for i in 0..<n,
    lies between start and end.
   */
  lemma StepsStayBetweenEnds(start: real, end: real, step: real, n: int, i: int)
    ensures 0 <= i < n && UsableCount(n) && step * ((n - 1) as real) == end - start ==>
      var x := start + step * (i as real);
      (start <= end ==> start <= x <= end) && (end <= start ==> end <= x <= start)
  {
    if 0 <= i < n && UsableCount(n) && step * ((n - 1) as real) == end - start {
      var k := (n - 1) as real;
      var rest := (n - 1 - i) as real;
      assert step * k - step * (i as real) == step * rest;
      if start <= end {
        NonNegativeFactor(step, k);
        assert 0.0 <= step * (i as real) && 0.0 <= step * rest;
      }
      if end <= start {
        NonNegativeFactor(-step, k);
        assert 0.0 <= -step * (i as real) && 0.0 <= -step * rest;
      }
    }
  }

  /**
    The subscript: element i, for a valid index of the collection. Element 0 is `start`, and
    every element of a grid made by the initialiser lies between `start` and `end`.
   */
  function RealAt(p: RealPoints, i: int): (x: real)
    requires 0 <= i < p.pointCount
    ensures i == 0 ==> x == p.start
    ensures ValidRealPoints(p) && p.start <= p.end ==> p.start <= x <= p.end
    ensures ValidRealPoints(p) && p.end <= p.start ==> p.end <= x <= p.start
  {
    StepsStayBetweenEnds(p.start, p.end, p.step, p.pointCount, i);
    p.start + p.step * (i as real)
  }

  /** The first element is `start` and the last is `end`. */
  lemma RealPointsEndpoints(p: RealPoints)
    requires ValidRealPoints(p) && p.pointCount >= 2
    ensures RealAt(p, 0) == p.start
    ensures RealAt(p, p.pointCount - 1) == p.end
  {
  }

  /** Adjacent elements differ by exactly `step`. */
  lemma RealPointsSpacing(p: RealPoints, i: int)
    requires 0 <= i && i + 1 < p.pointCount
    ensures RealAt(p, i + 1) - RealAt(p, i) == p.step
  {
  }

  /** From a start at or below the end the elements ascend. */
  lemma RealPointsAscend(p: RealPoints, i: int, j: int)
    requires ValidRealPoints(p) && p.start <= p.end
    requires 0 <= i <= j < p.pointCount
    ensures RealAt(p, i) <= RealAt(p, j)
  {
    NonNegativeFactor(p.step, (p.pointCount - 1) as real);
    assert 0.0 <= p.step * ((j - i) as real);
    assert p.step * (j as real) - p.step * (i as real) == p.step * ((j - i) as real);
  }

  /** `PlotPoints(from: -3.0, to: 1.0, pointCount: 5)` holds -3, -2, -1, 0, 1. */
  lemma FivePointsFromMinusThreeToOne()
    ensures MakeRealPoints(-3.0, 1.0, 5).Ok?
    ensures var p := MakeRealPoints(-3.0, 1.0, 5).value;
      [RealAt(p, 0), RealAt(p, 1), RealAt(p, 2), RealAt(p, 3), RealAt(p, 4)] == [-3.0, -2.0, -1.0, 0.0, 1.0]
  {
    var p := MakeRealPoints(-3.0, 1.0, 5).value;
    assert p.step == 1.0;
  }

  /** `PlotPoints<Complex<Double>>`. */
  datatype ComplexPoints = ComplexPoints(start: Complex, end: Complex, pointCount: int, step: Complex)

  /** `PlotPoints(from: start, to: end, pointCount: n)` over complex numbers. */
  function MakeComplexPoints(start: Complex, end: Complex, n: int): (r: Result<ComplexPoints, GridError>)
    ensures r.Err? <==> !UsableCount(n)
    ensures r.Err? ==> r.error == InvalidPointCount(n)
    ensures r.Ok? ==> r.value.start == start && r.value.end == end && r.value.pointCount == n
  {
    if !UsableCount(n) then Err(InvalidPointCount(n))
    else Ok(ComplexPoints(start, end, n, DivInt(Sub(end, start), n - 1)))
  }

  /**
    The subscript over complex numbers: `start + step * Complex(i)`. Element 0 is `start`, and
    multiplying by the integer i scales each component of `step`.
   */
  function ComplexAt(p: ComplexPoints, i: int): (z: Complex)
    requires 0 <= i < p.pointCount
    ensures i == 0 ==> z == p.start
    ensures z.re == p.start.re + p.step.re * (i as real) && z.im == p.start.im + p.step.im * (i as real)
  {
    Add(p.start, Mul(p.step, FromInt(i)))
  }

  /**
    A complex `PlotPoints` is the pair of real ones over the two components: element i has
    as real part element i of the grid over the real parts, and likewise for the imaginary part.
   */
  lemma ComplexPointsByComponent(start: Complex, end: Complex, n: int, i: int)
    requires UsableCount(n) && 0 <= i < n
    ensures ComplexAt(MakeComplexPoints(start, end, n).value, i)
         == Complex(RealAt(MakeRealPoints(start.re, end.re, n).value, i),
                    RealAt(MakeRealPoints(start.im, end.im, n).value, i))
  {
    var p := MakeComplexPoints(start, end, n).value;
    var pr := MakeRealPoints(start.re, end.re, n).value;
    var pi := MakeRealPoints(start.im, end.im, n).value;
    assert p.step == Complex(pr.step, pi.step);
    assert Mul(p.step, FromInt(i)) == Complex(pr.step * (i as real), pi.step * (i as real));
  }

  /** `ComplexPlotPoints<Double>`: `verticalPointCount` rows of `horizontalPointCount` points. */
  datatype ComplexPlotPoints = ComplexPlotPoints(
    upperLeft: Complex, lowerRight: Complex,
    horizontalPointCount: int, verticalPointCount: int,
    verticalStep: real)

  /** What the initialiser establishes: `verticalPointCount - 1` steps lead from the top edge to the bottom edge. */
  predicate ValidComplexPlotPoints(g: ComplexPlotPoints) {
    UsableCount(g.verticalPointCount)
    && g.verticalStep * ((g.verticalPointCount - 1) as real) == g.upperLeft.im - g.lowerRight.im
  }

  /**
    `ComplexPlotPoints(from: upperLeft, to: lowerRight, horizontalPointCount: h,
    verticalPointCount: v)`. Only the vertical count is divided by here; the horizontal one is
    checked when a row is built.
   */
  function MakeComplexPlotPoints(upperLeft: Complex, lowerRight: Complex, h: int, v: int)
    : (r: Result<ComplexPlotPoints, GridError>)
    ensures r.Err? <==> !UsableCount(v)
    ensures r.Err? ==> r.error == InvalidPointCount(v)
    ensures r.Ok? ==> (r.value.upperLeft == upperLeft && r.value.lowerRight == lowerRight
                       && r.value.horizontalPointCount == h && r.value.verticalPointCount == v)
    ensures r.Ok? ==> ValidComplexPlotPoints(r.value)
  {
    if !UsableCount(v) then Err(InvalidPointCount(v))
    else Ok(ComplexPlotPoints(upperLeft, lowerRight, h, v,
                              (upperLeft.im - lowerRight.im) / ((v - 1) as real)))
  }

  /**
    The imaginary part shared by the points of row r. In a grid made by the initialiser, the
    rows of valid indices lie between the top and the bottom edge.
   */
  function RowImaginary(g: ComplexPlotPoints, r: int): (im: real)
    ensures ValidComplexPlotPoints(g) && 0 <= r < g.verticalPointCount ==>
      (g.lowerRight.im <= g.upperLeft.im ==> g.lowerRight.im <= im <= g.upperLeft.im)
      && (g.upperLeft.im <= g.lowerRight.im ==> g.upperLeft.im <= im <= g.lowerRight.im)
  {
    var v := g.verticalPointCount;
    assert (-g.verticalStep) * ((v - 1) as real) == -(g.verticalStep * ((v - 1) as real));
    StepsStayBetweenEnds(g.upperLeft.im, g.lowerRight.im, -g.verticalStep, v, r);
    assert g.upperLeft.im - g.verticalStep * (r as real) == g.upperLeft.im + (-g.verticalStep) * (r as real);
    g.upperLeft.im - g.verticalStep * (r as real)
  }

  /**
    The row subscript: the complex `PlotPoints` from the left edge to the right edge at the
    row's imaginary part. Building it fails exactly when the horizontal count is unusable.
   */
  function Row(g: ComplexPlotPoints, r: int): (row: Result<ComplexPoints, GridError>)
    requires 0 <= r < g.verticalPointCount
    ensures row.Ok? <==> UsableCount(g.horizontalPointCount)
    ensures row.Ok? ==> row.value.pointCount == g.horizontalPointCount
  {
    var im := RowImaginary(g, r);
    MakeComplexPoints(Complex(g.upperLeft.re, im), Complex(g.lowerRight.re, im), g.horizontalPointCount)
  }

  /** `realPoints`: the real axis of the grid as a real `PlotPoints`. */
  function RealAxis(g: ComplexPlotPoints): (axis: Result<RealPoints, GridError>)
    ensures axis.Ok? <==> UsableCount(g.horizontalPointCount)
    ensures axis.Ok? ==> axis.value.pointCount == g.horizontalPointCount
  {
    MakeRealPoints(g.upperLeft.re, g.lowerRight.re, g.horizontalPointCount)
  }

  /**
    Every point of row r has the row's imaginary part, and its real part is the element of the
    real axis at the same index.
   */
  lemma RowPoint(g: ComplexPlotPoints, r: int, i: int)
    requires 0 <= r < g.verticalPointCount
    requires UsableCount(g.horizontalPointCount) && 0 <= i < g.horizontalPointCount
    ensures Row(g, r).Ok? && RealAxis(g).Ok?
    ensures ComplexAt(Row(g, r).value, i) == Complex(RealAt(RealAxis(g).value, i), RowImaginary(g, r))
  {
    var im := RowImaginary(g, r);
    var h := g.horizontalPointCount;
    ComplexPointsByComponent(Complex(g.upperLeft.re, im), Complex(g.lowerRight.re, im), h, i);
    var flat := MakeRealPoints(im, im, h).value;
    assert flat.step == 0.0;
  }

  /** The first row lies on the top edge and the last row on the bottom edge. */
  lemma RowEdges(g: ComplexPlotPoints)
    requires ValidComplexPlotPoints(g) && g.verticalPointCount >= 2
    ensures RowImaginary(g, 0) == g.upperLeft.im
    ensures RowImaginary(g, g.verticalPointCount - 1) == g.lowerRight.im
  {
  }

  /** With the upper-left corner above the lower-right one, rows go down the plane. */
  lemma RowsDescend(g: ComplexPlotPoints, r: int, s: int)
    requires ValidComplexPlotPoints(g) && g.lowerRight.im <= g.upperLeft.im
    requires 0 <= r <= s < g.verticalPointCount
    ensures RowImaginary(g, s) <= RowImaginary(g, r)
  {
    NonNegativeFactor(g.verticalStep, (g.verticalPointCount - 1) as real);
    assert 0.0 <= g.verticalStep * ((s - r) as real);
    assert g.verticalStep * (s as real) - g.verticalStep * (r as real) == g.verticalStep * ((s - r) as real);
  }

  /**
    The first plot's grid, from -3 + 2i to 1 - 2i with 50 by 50 points: every point of row 0
    has imaginary part 2 and every point of row 49 has imaginary part -2.
   */
  lemma FirstPlotEdgeRows(i: int)
    requires 0 <= i < 50
    ensures MakeComplexPlotPoints(Complex(-3.0, 2.0), Complex(1.0, -2.0), 50, 50).Ok?
    ensures var g := MakeComplexPlotPoints(Complex(-3.0, 2.0), Complex(1.0, -2.0), 50, 50).value;
      ComplexAt(Row(g, 0).value, i).im == 2.0 && ComplexAt(Row(g, 49).value, i).im == -2.0
  {
    var g := MakeComplexPlotPoints(Complex(-3.0, 2.0), Complex(1.0, -2.0), 50, 50).value;
    RowPoint(g, 0, i);
    RowPoint(g, 49, i);
    RowEdges(g);
  }
}
