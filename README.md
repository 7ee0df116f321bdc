# mandelplot0 in Dafny

mandelplot0 draws the Mandelbrot set as text. Each point c of a rectangular grid over the
complex plane is tested with the escape-time rule. The map z ↦ z² + c is applied 30 times
to zero. The point is drawn as `*` when every value stays within length 2, and as a blank
otherwise. Under a plot the program can draw an axis of tick labels along the real axis.

This project models the computational core of `mandelplot0/main.swift` over exact integers
and reals, in four modules.

- `Iteration` (`iteration.dfy`) covers the escape-time test.
  - The map `f(c:)` over `Int` and over complex numbers.
  - The `Lengthy` threshold test `twoOrLess` for `Int`, `Double` and complex numbers.
  - The iterator `IteratedFuncValues` as a class whose `Next` updates `currentValue` and
    `iterations` in place.
  - `bounded` as a method that consumes a copy of the iterator.
  - Every value the iterator still has to yield is described by the ghost function `Orbit`.
- `Grid` (`grid.dfy`) covers the sampling grids.
  - `PlotPoints` over reals and over complex numbers.
  - `ComplexPlotPoints`, with its row subscript and `realPoints`.
- `Rendering` (`render.dfy`) covers the text output.
  - `plotValue`.
  - `sorted()` on the ticks.
  - `renderIndices`: a specification function `Render` and the imperative `RenderIndices`
    loop proved equal to it.
- `ComplexNumbers` and `Wrappers` supply complex arithmetic and `Option`/`Result`.

Two behaviours of the source show up in the proofs.

- The threshold is inclusive. A value of length exactly 2 passes. Over `Int` with c = -2 the
  orbit -2, 2, 2, … is bounded for every budget.
- `renderIndices` reads the grid at the column equal to the current text length. A label is
  several characters wide, so the grid values under it are skipped and a following tick can
  move to a later column or be dropped. `WideLabelHidesNextTick` shows a tick that is never
  drawn for this reason. Each label prints the grid value at its column, not the tick.

The initialisers divide by `pointCount - 1`. Here a count of 1 is an error, because over exact
numbers it has no step. A negative count is an error too. A count of 0 is accepted and gives
an empty collection, as the code does.

## Model

| member | source | states |
|---|---|---|
| Iteration.IntF | mandelplot0/main.swift:17-21 | over `Int`, f(c:) sends zero to c and never yields a value below c |
| Iteration.ComplexF | mandelplot0/main.swift:17-21 | over complex numbers, f(c:) sends zero to c, so c is the first value of every orbit of zero |
| Iteration.ComplexFIsSquarePlusC | mandelplot0/main.swift:17-21 | the componentwise complex map is z*z + c in complex arithmetic |
| Iteration.IntLength | mandelplot0/main.swift:45-51 | the length of an `Int` is a natural number equal to x or -x |
| Iteration.RealLength | mandelplot0/main.swift:45-52 | the length of a `Double` is non-negative and equal to x or -x |
| Iteration.IntTwoOrLess | mandelplot0/main.swift:51-57 | an `Int` passes `twoOrLess` iff it lies in -2..2, both ends included |
| Iteration.RealTwoOrLess | mandelplot0/main.swift:52-57 | a `Double` passes `twoOrLess` iff it lies in [-2, 2], both ends included |
| Iteration.ComplexTwoOrLess | mandelplot0/main.swift:54-58 | both coordinates of a complex value that passes `twoOrLess` lie in [-2, 2] |
| Iteration.RealAxisLength | mandelplot0/main.swift:54-58 | on the real axis, the complex threshold test agrees with the `Double` one |
| Iteration.Orbit | mandelplot0/main.swift:30-38 | an iterator with counter n still yields exactly max(n, 0) values |
| Iteration.IteratedFuncValues.constructor | mandelplot0/main.swift:23-27 | the memberwise initialiser stores f, the counter and the current value |
| Iteration.IteratedFuncValues.Next | mandelplot0/main.swift:30-38 | with a positive counter, applies f to the current value, decrements the counter and returns the new value; otherwise returns nil and changes nothing; the value returned is the head of the remaining values, and after nil none remain |
| Iteration.IteratedFuncValues.Bounded | mandelplot0/main.swift:60-63 | true iff every remaining value passes the test; the copy is consumed up to the first failing value, and everything before it passes |
| Iteration.FreshBounded | mandelplot0/main.swift:171 | `bounded` on a fresh iterator from zero equals the bounded-orbit predicate for that map and budget |
| Iteration.MandelbrotBounded | mandelplot0/main.swift:171 | with no budget the point counts as bounded; with a budget of at least 1 a bounded c itself passes `twoOrLess` |
| Iteration.BoundedOrbit | mandelplot0/main.swift:60-63 | with no budget left, `bounded` holds vacuously |
| Iteration.OrbitAt | mandelplot0/main.swift:30-34 | the k-th value yielded is the (k+1)-fold application of f to the start value |
| Iteration.OrbitPrefix | mandelplot0/main.swift:30-38 | the values yielded under a smaller budget are a prefix of those under a larger one |
| Iteration.BoundedIffIterates | mandelplot0/main.swift:55-63 | `bounded` holds iff each of the first n applications of f passes the length test |
| Iteration.BoundedMonotone | mandelplot0/main.swift:60-63 | bounded for a budget implies bounded for every smaller budget |
| Iteration.ZeroParameterBounded | mandelplot0/main.swift:17-21 | c = 0 keeps the orbit of zero at zero, so it is bounded for every budget |
| Iteration.IntOneEscapesAtThirdValue | mandelplot0/main.swift:51-57 | over `Int` with c = 1, bounded holds exactly for budgets up to 2 |
| Iteration.IntMinusTwoStaysOnThreshold | mandelplot0/main.swift:54-58 | over `Int` with c = -2, bounded holds for every budget, because the test is inclusive |
| Iteration.ComplexOneEscapesAtThirdValue | mandelplot0/main.swift:165 | for complex c = 1, bounded holds exactly for budgets up to 2 |
| Iteration.QuarterParameterBounded | mandelplot0/main.swift:171 | c = 1/4 is bounded for every budget |
| Grid.MakeRealPoints | mandelplot0/main.swift:75-80 | fails exactly for a negative count or a count of 1; otherwise keeps start, end and count, and count - 1 steps lead from start to end |
| Grid.RealAt | mandelplot0/main.swift:93-95 | element 0 is start, and every element of a grid made by the initialiser lies between start and end, in either direction |
| Grid.RealPointsEndpoints | mandelplot0/main.swift:75-95 | element 0 is start and element count - 1 is end |
| Grid.RealPointsSpacing | mandelplot0/main.swift:93-95 | adjacent elements differ by exactly step |
| Grid.RealPointsAscend | mandelplot0/main.swift:93-95 | from a start at or below the end, the elements ascend |
| Grid.FivePointsFromMinusThreeToOne | mandelplot0/main.swift:75-95 | five points from -3 to 1 are -3, -2, -1, 0, 1 |
| Grid.MakeComplexPoints | mandelplot0/main.swift:75-80 | fails exactly for a negative count or a count of 1; otherwise keeps start, end and count |
| Grid.ComplexAt | mandelplot0/main.swift:93-95 | element 0 is start, and element i is start plus i times step in each component |
| Grid.ComplexPointsByComponent | mandelplot0/main.swift:93-95 | element i of a complex grid is the pair of elements i of the real grids over the two components |
| Grid.MakeComplexPlotPoints | mandelplot0/main.swift:135-142 | fails exactly for an unusable vertical count; otherwise keeps corners and counts, and count - 1 vertical steps lead from the top edge to the bottom edge |
| Grid.RowImaginary | mandelplot0/main.swift:156 | in a grid made by the initialiser, the imaginary part of every valid row lies between the top and the bottom edge |
| Grid.Row | mandelplot0/main.swift:155-158 | a row can be built iff the horizontal count is usable, and it then has that many points |
| Grid.RealAxis | mandelplot0/main.swift:179-183 | `realPoints` can be built iff the horizontal count is usable, and it then has that many points |
| Grid.RowPoint | mandelplot0/main.swift:155-158 | point i of row r has the row's imaginary part, and its real part is element i of `realPoints` |
| Grid.RowEdges | mandelplot0/main.swift:141-157 | row 0 lies at the upper-left imaginary part and the last row at the lower-right one |
| Grid.RowsDescend | mandelplot0/main.swift:156 | with the upper-left corner above the lower-right one, later rows lie lower |
| Grid.FirstPlotEdgeRows | mandelplot0/main.swift:167 | in the first plot's grid, row 0 is at imaginary part 2 and row 49 at -2 |
| Rendering.PlotValue | mandelplot0/main.swift:102-104 | the character is '*' iff the point is bounded, and a blank iff it is not |
| Rendering.Insert | mandelplot0/main.swift:108 | inserting into an ascending sequence keeps it ascending and adds exactly the one value |
| Rendering.Sort | mandelplot0/main.swift:108 | the sorted ticks ascend and are a permutation of the input |
| Rendering.AscendingPermutationUnique | mandelplot0/main.swift:108 | two ascending permutations of the same values are equal, so the sort's result is determined |
| Rendering.IsLabel | mandelplot0/main.swift:115 | a label is non-empty, holds no blank, and has its only bar in its first column |
| Rendering.Bars | mandelplot0/main.swift:115 | the bar count of a text is at most its length |
| Rendering.BarsAppend | mandelplot0/main.swift:115-118 | the bar count of a concatenation is the sum of the bar counts |
| Rendering.LabelHasOneBar | mandelplot0/main.swift:115 | a label holds exactly one bar |
| Rendering.Render | mandelplot0/main.swift:106-123 | the walk only appends, labels at most as many ticks as there are, and stops only when every tick is labelled or the text reaches the grid's count |
| Rendering.RenderIndices | mandelplot0/main.swift:106-123 | the loop only reads in-range grid columns, terminates, and produces the text of the walk over the sorted ticks |
| Rendering.RenderBars | mandelplot0/main.swift:111-120 | each labelled tick adds exactly one bar to the text |
| Rendering.RenderBlank | mandelplot0/main.swift:113-119 | a blank at column c is an in-range grid column whose value is below the next unlabelled tick |
| Rendering.RenderLabel | mandelplot0/main.swift:113-117 | a bar at column c is an in-range grid column whose value has reached the next unlabelled tick, and the label of that value is written from c on |
| Rendering.SortedTicks | mandelplot0/main.swift:108 | sorting the ticks 0 and -2 gives -2, 0 |
| Rendering.WideLabelHidesNextTick | mandelplot0/main.swift:111-117 | on five points from -3 to 1 with ticks 0 and -2, a label of four or more columns covers the column of 0, and that tick is never drawn |

## Left out

- Floating point is not modelled. `Double` and `Complex<Double>` become exact `real` and a
  pair of reals, so there is no rounding, NaN or infinity.
- A count of 1 gives a non-finite step in the source. Here it is the error `InvalidPointCount`.
- `Number(exactly:)!` in the `PlotPoints` initialiser and subscript traps when an `Int` is not
  exactly representable in `Double`. This is not modelled.
- A negative count is stored by the source's initialisers as it is. The source traps later,
  when the default `Collection.count` calls `distance(from:to:)` from `startIndex` to a smaller
  `endIndex`: through `points.count` at `mandelplot0/main.swift:111`, and inside `map` at
  `mandelplot0/main.swift:169-170`. Here it is the error `InvalidPointCount` at construction.
- Rendering.Render and Rendering.RenderIndices require a non-negative count, because the
  source's loop condition `renderedIndices.count < points.count` traps on a negative one.
- Iteration.IntF: `Int` overflow traps in x*x + c are not modelled, because integers are unbounded.
- Iteration.ComplexTwoOrLess compares the squared Euclidean norm with 4. It does not take the
  square root that the complex number library's `length` computes. For exact reals the
  two comparisons are the same.
- Complex multiplication and division follow the textbook formulas, not the number library's
  implementation, which is not part of this model. Division by an integer count is
  componentwise (`ComplexNumbers.DivInt`).
- The iteration is instantiated for `Int` and for complex numbers. `Double` conformance
  to `Lengthy` is modelled (`RealLength`, `RealTwoOrLess`), but no `Double` map is iterated.
- Iteration.IteratedFuncValues: the source's iterator is a value type that `bounded` copies
  implicitly. The class has reference semantics, so `Bounded` allocates the copy explicitly.
- Grid.RealAt, Grid.ComplexAt and Grid.Row require an index within `0..<count`, which is what
  `Collection` asks of its callers. The source's formulas compute a value for any index.
- The `Collection` conformance boilerplate is not modelled: `startIndex`, `endIndex`,
  `indices`, `index(after:)` and the type aliases. `count` is the `pointCount` field.
- Rendering.IsLabel: `String(format: "|%.2f", plotPoint)` is the parameter `labelOf`. It is
  required to return a non-empty string that starts with `|` and has no further bar or blank.
  The decimal formatting itself is not modelled.
- Rendering.Sort is an insertion sort. The library's sorting algorithm is not modelled;
  `AscendingPermutationUnique` shows any correct sort gives the same sequence. The ordering of
  NaN is not modelled.
- `renderedIndices.count` counts grapheme clusters. Here it is the length of the character
  sequence, which is the same for the ASCII text the labels hold.
- The top-level script is not modelled: the three example plots, mapping rows to characters,
  and `print` (`mandelplot0/main.swift:167-177` and `185-217`). The first plot's grid
  (`FirstPlotEdgeRows`) and the per-point call (`FreshBounded`) appear only as lemmas and a
  method.
