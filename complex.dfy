/** Exact complex arithmetic over `real`, enough to state what the
    frequency-domain accumulators add up. No rounding is modelled. */
module ComplexArith {

  datatype Complex = Complex(re: real, im: real)

  const Zero := Complex(0.0, 0.0)
  const One := Complex(1.0, 0.0)

  function Add(a: Complex, b: Complex): Complex {
    Complex(a.re + b.re, a.im + b.im)
  }

  function Mul(a: Complex, b: Complex): Complex {
    Complex(a.re * b.re - a.im * b.im, a.re * b.im + a.im * b.re)
  }

  function Conj(a: Complex): Complex {
    Complex(a.re, -a.im)
  }

  /** Multiplication by a real weight. */
  function Scale(k: real, a: Complex): Complex {
    Complex(k * a.re, k * a.im)
  }

  /** A value is real and non-negative; `conj(x) * x` always is. */
  predicate IsNonNegativeReal(a: Complex) {
    a.im == 0.0 && a.re >= 0.0
  }

  lemma ConjMulSelf(a: Complex)
    ensures IsNonNegativeReal(Mul(Conj(a), a))
    ensures Mul(Conj(a), a).re == a.re * a.re + a.im * a.im
  {
    assert a.re * a.re >= 0.0 && a.im * a.im >= 0.0;
  }
}
