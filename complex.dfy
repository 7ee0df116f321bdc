/**
  Complex numbers over exact reals, with the textbook operations. They stand in for
  `Complex<Double>` of the swift-numerics package, whose floating-point internals are not
  modelled.
 */
module ComplexNumbers {

  datatype Complex = Complex(re: real, im: real)

  const Zero: Complex := Complex(0.0, 0.0)

  /** `Complex(exactly: n)`: an integer on the real axis. */
  function FromInt(n: int): Complex {
    Complex(n as real, 0.0)
  }

  function Add(a: Complex, b: Complex): Complex {
    Complex(a.re + b.re, a.im + b.im)
  }

  function Sub(a: Complex, b: Complex): Complex {
    Complex(a.re - b.re, a.im - b.im)
  }

  function Mul(a: Complex, b: Complex): Complex {
    Complex(a.re * b.re - a.im * b.im, a.re * b.im + a.im * b.re)
  }

  /**
    The quotient `a / FromInt(k)`. For a divisor on the real axis the textbook quotient
    ((a.re*k + a.im*0) / k², (a.im*k - a.re*0) / k²) is the componentwise quotient by k.
   */
  function DivInt(a: Complex, k: int): Complex
    requires k != 0
  {
    Complex(a.re / k as real, a.im / k as real)
  }

  /** The square of the Euclidean norm (`length`); comparing it with 4 is comparing `length` with 2. */
  function NormSquared(a: Complex): real {
    a.re * a.re + a.im * a.im
  }
}
