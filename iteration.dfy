/**
  The escape-time test of main.swift: the quadratic map `f(c:)`, the iterator
  `IteratedFuncValues` that yields its successive values starting from zero, the `Lengthy`
  threshold test `twoOrLess`, and `bounded`, which consumes the iterator until a value fails
  the test or the iteration budget runs out.

  The Swift code is generic over `Numeric`; here the iterator is generic over the element type,
  with the map and the threshold test passed in, and the map is instantiated for `Int` and for
  complex numbers.
 */
module Iteration {
  import opened Wrappers
  import opened ComplexNumbers

  /** `f(c:)` over `Int`: the map x ↦ x*x + c. It sends zero to c and never goes below c. */
  function IntF(c: int): (g: int -> int)
    ensures g(0) == c
    ensures forall x: int :: c <= g(x)
  {
    x => x * x + c
  }

  /**
    `f(c:)` over complex numbers: the map z ↦ z*z + c, with the product written out
    componentwise (ComplexFIsSquarePlusC ties it to `Mul` and `Add`). It sends zero to c, so c
    is the first value of every orbit of zero.
   */
  function ComplexF(c: Complex): (g: Complex -> Complex)
    ensures g(Zero) == c
  {
    (z: Complex) => Complex(z.re * z.re - z.im * z.im + c.re, z.re * z.im + z.im * z.re + c.im)
  }

  lemma ComplexFIsSquarePlusC(c: Complex, z: Complex)
    ensures ComplexF(c)(z) == Add(Mul(z, z), c)
  {
    var w := ComplexF(c)(z);
    assert w == Complex(z.re * z.re - z.im * z.im + c.re, z.re * z.im + z.im * z.re + c.im);
    var sq := Mul(z, z);
    assert sq.re == z.re * z.re - z.im * z.im && sq.im == z.re * z.im + z.im * z.re;
    assert Add(sq, c) == Complex(sq.re + c.re, sq.im + c.im);
    assert w.re == Add(sq, c).re && w.im == Add(sq, c).im;
  }

  /** `magnitude` of an `Int`, the default `length` of `Lengthy`. */
  function IntLength(x: int): (m: nat)
    ensures m == x || m == -x
  {
    if x < 0 then -x else x
  }

  /** `twoOrLess` for `Int`: the length is at most 2 (inclusive). */
  predicate IntTwoOrLess(x: int): (b: bool)
    ensures b <==> -2 <= x <= 2
  {
    IntLength(x) <= 2
  }

  /** `magnitude` of a `Double`, the default `length` of `Lengthy`. */
  function RealLength(x: real): (m: real)
    ensures m >= 0.0 && (m == x || m == -x)
  {
    if x < 0.0 then -x else x
  }

  /** `twoOrLess` for `Double`: the length is at most 2 (inclusive). */
  predicate RealTwoOrLess(x: real): (b: bool)
    ensures b <==> -2.0 <= x <= 2.0
  {
    RealLength(x) <= 2.0
  }

  /** On the real axis the complex test and the `Double` test agree. */
  lemma RealAxisLength(x: real)
    ensures ComplexTwoOrLess(Complex(x, 0.0)) <==> RealTwoOrLess(x)
  {
    var m := RealLength(x);
    assert x * x == m * m;
    if m <= 2.0 {
      assert m * m <= 2.0 * m;
    } else {
      assert m * m >= 2.0 * m;
      assert 2.0 * m > 4.0;
    }
  }

  /** A coordinate of a point within distance 2 of the origin lies in [-2, 2]. */
  lemma CoordinateBound(x: real, y: real)
    ensures x * x + y * y <= 4.0 ==> -2.0 <= x <= 2.0
  {
    var m := RealLength(x);
    assert x * x == m * m;
    assert 0.0 <= y * y;
    if 2.0 < m {
      assert m * m >= 2.0 * m;
    }
  }

  /**
    `twoOrLess` for complex numbers: the Euclidean length is at most 2, i.e. its square at most 4.
    Both coordinates of a passing value then lie in [-2, 2].
   */
  predicate ComplexTwoOrLess(z: Complex): (b: bool)
    ensures b ==> -2.0 <= z.re <= 2.0 && -2.0 <= z.im <= 2.0
  {
    CoordinateBound(z.re, z.im);
    CoordinateBound(z.im, z.re);
    NormSquared(z) <= 4.0
  }

  /** The k-fold application of g to x. */
  function Iterate<T>(g: T -> T, x: T, k: nat): T {
    if k == 0 then x else g(Iterate(g, x, k - 1))
  }

  /**
    The values an iterator over g whose current value is x and whose counter is n still
    yields: g(x), g(g(x)), ..., one per unit of a positive counter.
   */
  function Orbit<T>(g: T -> T, x: T, n: int): (s: seq<T>)
    ensures |s| == if n > 0 then n else 0
    decreases n
  {
    if n <= 0 then [] else [g(x)] + Orbit(g, g(x), n - 1)
  }

  predicate AllSatisfy<T>(s: seq<T>, p: T -> bool) {
    forall i :: 0 <= i < |s| ==> p(s[i])
  }

  /**
    What `bounded` answers for an iterator over g with current value x and counter n; with no
    budget left there is no value to fail the test.
   */
  predicate BoundedOrbit<T>(g: T -> T, x: T, n: int, twoOrLess: T -> bool)
    ensures n <= 0 ==> BoundedOrbit(g, x, n, twoOrLess)
  {
    AllSatisfy(Orbit(g, x, n), twoOrLess)
  }

  /** `IteratedFuncValues(f: f(c: c), iterations: n).bounded` for a complex c. */
  predicate MandelbrotBounded(c: Complex, n: int): (b: bool)
    ensures n <= 0 ==> b
    ensures b && n >= 1 ==> ComplexTwoOrLess(c)
  {
    assert n >= 1 ==> Orbit(ComplexF(c), Zero, n)[0] == c;
    BoundedOrbit(ComplexF(c), Zero, n, ComplexTwoOrLess)
  }

  /**
    The iterator of main.swift. Each successful `Next` applies `f` to the current value and
    spends one unit of the counter; a counter that is not positive ends the sequence.
   */
  class IteratedFuncValues<T> {
    const f: T -> T
    var iterations: int
    var currentValue: T

    /** The memberwise initialiser; the source's callers leave `currentValue` at its default, zero. */
    constructor (f: T -> T, iterations: int, currentValue: T)
      ensures this.f == f && this.iterations == iterations && this.currentValue == currentValue
    {
      this.f := f;
      this.iterations := iterations;
      this.currentValue := currentValue;
    }

    /** The values still to be yielded. */
    ghost function Remaining(): seq<T>
      reads this
    {
      Orbit(f, currentValue, iterations)
    }

    /** `next()`: the next value of the orbit, or `None` once the counter is spent. */
    method Next() returns (r: Option<T>)
      modifies this
      ensures old(iterations) > 0 ==>
        currentValue == f(old(currentValue)) && iterations == old(iterations) - 1 && r == Some(currentValue)
      ensures old(iterations) <= 0 ==>
        r == None && currentValue == old(currentValue) && iterations == old(iterations)
      ensures r.None? <==> old(Remaining()) == []
      ensures r.Some? ==> old(Remaining()) == [r.value] + Remaining()
      ensures r.None? ==> Remaining() == []
    {
      if iterations > 0 {
        currentValue := f(currentValue);
        iterations := iterations - 1;
        r := Some(currentValue);
      } else {
        r := None;
      }
    }

    /**
      `bounded`, i.e. `allSatisfy(\.twoOrLess)` on a copy of the iterator: true iff every value
      still to be yielded passes the test. The copy is consumed only up to the first value that
      fails; `consumed` counts the values it pulled.
     */
    method Bounded(twoOrLess: T -> bool) returns (b: bool, ghost consumed: nat)
      ensures b == AllSatisfy(Remaining(), twoOrLess)
      ensures consumed <= |Remaining()|
      ensures b ==> consumed == |Remaining()|
      ensures !b ==> 0 < consumed && !twoOrLess(Remaining()[consumed - 1])
                     && AllSatisfy(Remaining()[..consumed - 1], twoOrLess)
    {
      var copy := new IteratedFuncValues(f, iterations, currentValue);
      ghost var all := Remaining();
      var v := copy.Next();
      consumed := if v.Some? then 1 else 0;
      while v.Some? && twoOrLess(v.value)
        invariant copy.f == f
        invariant consumed <= |all|
        invariant all == all[..consumed] + copy.Remaining()
        invariant v.Some? ==> 0 < consumed && all[consumed - 1] == v.value
        invariant v.None? ==> copy.Remaining() == []
        invariant forall k :: 0 <= k < (if v.Some? then consumed - 1 else consumed) ==> twoOrLess(all[k])
        decreases |copy.Remaining()| + (if v.Some? then 1 else 0)
      {
        v := copy.Next();
        if v.Some? {
          consumed := consumed + 1;
        }
      }
      b := v.None?;
    }
  }

  /**
    `IteratedFuncValues(f: g, iterations: n).bounded` on a freshly made iterator, whose
    current value starts at `zero` (`Number.zero`), as each plotted point evaluates it.
   */
  method FreshBounded<T>(g: T -> T, zero: T, iterations: int, twoOrLess: T -> bool) returns (b: bool)
    ensures b == BoundedOrbit(g, zero, iterations, twoOrLess)
  {
    var orbit := new IteratedFuncValues(g, iterations, zero);
    ghost var consumed;
    b, consumed := orbit.Bounded(twoOrLess);
  }

  /** Applying g once more before or after k applications is the same. */
  lemma {:induction false} IterateShift<T>(g: T -> T, x: T, k: nat)
    ensures Iterate(g, g(x), k) == Iterate(g, x, k + 1)
  {
    if k > 0 {
      IterateShift(g, x, k - 1);
    }
  }

  /** The k-th value yielded (counting from 0) is g applied k+1 times to the start value. */
  lemma {:induction false} OrbitAt<T>(g: T -> T, x: T, n: int, k: nat)
    requires k < n
    ensures Orbit(g, x, n)[k] == Iterate(g, x, k + 1)
  {
    if k > 0 {
      OrbitAt(g, g(x), n - 1, k - 1);
      IterateShift(g, x, k);
    }
  }

  /** The values yielded under a smaller budget are a prefix of those under a larger one. */
  lemma {:induction false} OrbitPrefix<T>(g: T -> T, x: T, m: int, n: int)
    requires m <= n
    ensures Orbit(g, x, m) <= Orbit(g, x, n)
  {
    if m > 0 {
      OrbitPrefix(g, g(x), m - 1, n - 1);
    }
  }

  /** `bounded` holds iff each of the first n applications of g to the start value passes the test. */
  lemma BoundedIffIterates<T>(g: T -> T, x: T, n: int, twoOrLess: T -> bool)
    ensures BoundedOrbit(g, x, n, twoOrLess) <==> forall k :: 1 <= k <= n ==> twoOrLess(Iterate(g, x, k))
  {
    var s := Orbit(g, x, n);
    if BoundedOrbit(g, x, n, twoOrLess) {
      forall k | 1 <= k <= n
        ensures twoOrLess(Iterate(g, x, k))
      {
        OrbitAt(g, x, n, k - 1);
        assert s[k - 1] == Iterate(g, x, k);
      }
    } else {
      var i :| 0 <= i < |s| && !twoOrLess(s[i]);
      OrbitAt(g, x, n, i);
      assert !twoOrLess(Iterate(g, x, i + 1));
    }
  }

  /** Once `bounded` fails for a budget it fails for every larger one. */
  lemma BoundedMonotone<T>(g: T -> T, x: T, m: int, n: int, twoOrLess: T -> bool)
    requires m <= n
    requires BoundedOrbit(g, x, n, twoOrLess)
    ensures BoundedOrbit(g, x, m, twoOrLess)
  {
    OrbitPrefix(g, x, m, n);
    var small, large := Orbit(g, x, m), Orbit(g, x, n);
    forall i | 0 <= i < |small|
      ensures twoOrLess(small[i])
    {
      assert small[i] == large[i];
    }
  }

  /** With c = 0 every value of the orbit of zero is zero. */
  lemma {:induction false} ZeroOrbitStaysZero(n: int)
    ensures forall k :: 0 <= k < |Orbit(ComplexF(Zero), Zero, n)| ==> Orbit(ComplexF(Zero), Zero, n)[k] == Zero
  {
    if n > 0 {
      assert ComplexF(Zero)(Zero) == Zero;
      ZeroOrbitStaysZero(n - 1);
    }
  }

  /** c = 0 lies in the set for every iteration budget. */
  lemma ZeroParameterBounded(n: int)
    ensures MandelbrotBounded(Zero, n)
  {
    ZeroOrbitStaysZero(n);
    var s := Orbit(ComplexF(Zero), Zero, n);
    forall i | 0 <= i < |s|
      ensures ComplexTwoOrLess(s[i])
    {
      assert s[i] == Zero;
    }
  }

  /**
    Over `Int` with c = 1 the orbit of zero is 1, 2, 5, ...: 2 still passes the inclusive
    test, 5 does not, so `bounded` holds exactly for budgets up to 2.
   */
  lemma IntOneEscapesAtThirdValue(n: int)
    ensures BoundedOrbit(IntF(1), 0, n, IntTwoOrLess) <==> n <= 2
  {
    var g := IntF(1);
    assert Orbit(g, 0, 2) == [1, 2];
    if n <= 2 {
      OrbitPrefix(g, 0, n, 2);
      var s := Orbit(g, 0, n);
      forall i | 0 <= i < |s|
        ensures IntTwoOrLess(s[i])
      {
        assert s[i] == [1, 2][i];
      }
    } else {
      OrbitAt(g, 0, n, 2);
      assert Iterate(g, 0, 3) == 5;
      assert !IntTwoOrLess(Orbit(g, 0, n)[2]);
    }
  }

  /** Over `Int` with c = -2 the orbit starting from 2 stays at 2. */
  lemma {:induction false} MinusTwoFixesTwo(n: int)
    ensures forall k :: 0 <= k < |Orbit(IntF(-2), 2, n)| ==> Orbit(IntF(-2), 2, n)[k] == 2
  {
    if n > 0 {
      MinusTwoFixesTwo(n - 1);
    }
  }

  /**
    Over `Int` with c = -2 the orbit of zero is -2, 2, 2, ...: every value has length exactly 2,
    so the inclusive threshold keeps `bounded` true for every budget.
   */
  lemma IntMinusTwoStaysOnThreshold(n: int)
    ensures BoundedOrbit(IntF(-2), 0, n, IntTwoOrLess)
  {
    var g := IntF(-2);
    if n > 0 {
      MinusTwoFixesTwo(n - 2);
      var s := Orbit(g, 0, n);
      var tail := Orbit(g, 2, n - 2);
      assert s == [-2] + Orbit(g, -2, n - 1);
      assert n > 1 ==> Orbit(g, -2, n - 1) == [2] + tail;
      forall i | 0 <= i < |s|
        ensures IntTwoOrLess(s[i])
      {
        if i >= 2 {
          assert s[i] == tail[i - 2];
        }
      }
    }
  }

  /**
    For c = 1 + 0i the orbit of zero is 1, 2, 5, ...: `bounded` holds for budgets up to 2
    (the value 2 has length exactly 2) and fails from 3 on.
   */
  lemma ComplexOneEscapesAtThirdValue(n: int)
    ensures MandelbrotBounded(Complex(1.0, 0.0), n) <==> n <= 2
  {
    var g := ComplexF(Complex(1.0, 0.0));
    assert g(Zero) == Complex(1.0, 0.0);
    assert g(Complex(1.0, 0.0)) == Complex(2.0, 0.0);
    assert Orbit(g, Zero, 2) == [Complex(1.0, 0.0), Complex(2.0, 0.0)];
    if n <= 2 {
      OrbitPrefix(g, Zero, n, 2);
      var s := Orbit(g, Zero, n);
      forall i | 0 <= i < |s|
        ensures ComplexTwoOrLess(s[i])
      {
        assert s[i] == Orbit(g, Zero, 2)[i];
      }
    } else {
      OrbitAt(g, Zero, n, 2);
      assert Iterate(g, Zero, 3) == Complex(5.0, 0.0);
      assert !ComplexTwoOrLess(Orbit(g, Zero, n)[2]);
    }
  }

  /** For c = 1/4 an orbit starting on the real segment [0, 1/2] never leaves it. */
  lemma {:induction false} QuarterOrbitStaysSmall(x: Complex, n: int)
    requires 0.0 <= x.re <= 0.5 && x.im == 0.0
    ensures forall k :: 0 <= k < |Orbit(ComplexF(Complex(0.25, 0.0)), x, n)| ==>
      var z := Orbit(ComplexF(Complex(0.25, 0.0)), x, n)[k]; 0.0 <= z.re <= 0.5 && z.im == 0.0
    decreases n
  {
    if n > 0 {
      var y := ComplexF(Complex(0.25, 0.0))(x);
      assert x.re * x.re <= 0.5 * x.re;
      assert y == Complex(x.re * x.re + 0.25, 0.0);
      QuarterOrbitStaysSmall(y, n - 1);
    }
  }

  /** c = 1/4, the cusp of the set on the real axis, passes for every iteration budget. */
  lemma QuarterParameterBounded(n: int)
    ensures MandelbrotBounded(Complex(0.25, 0.0), n)
  {
    QuarterOrbitStaysSmall(Zero, n);
    var s := Orbit(ComplexF(Complex(0.25, 0.0)), Zero, n);
    forall i | 0 <= i < |s|
      ensures ComplexTwoOrLess(s[i])
    {
      var z := s[i];
      assert z.re * z.re <= 0.5 * z.re;
    }
  }
}
