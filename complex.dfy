/** Complex numbers as pairs of reals. Moduli are compared through their squares, so no
    square root is needed anywhere in the model. */
module Complex {

  datatype Complex = Complex(re: real, im: real)

  const Zero := Complex(0.0, 0.0)

  function Add(a: Complex, b: Complex): Complex
  {
    Complex(a.re + b.re, a.im + b.im)
  }

  /** `z**2`, expanded as NumPy multiplies complex numbers. */
  function Square(z: Complex): Complex
  {
    Complex(z.re * z.re - z.im * z.im, z.re * z.im + z.im * z.re)
  }

  /** |z|², which is also `z * conj(z)`. */
  function AbsSq(z: Complex): (r: real)
    ensures r >= 0.0
  {
    z.re * z.re + z.im * z.im
  }

  /** `abs(real(z)) + abs(imag(z)) * 1j`, the burning-ship fold. */
  function FoldAbs(z: Complex): (w: Complex)
    ensures w.re >= 0.0 && w.im >= 0.0
    ensures w.re == z.re || w.re == -z.re
    ensures w.im == z.im || w.im == -z.im
  {
    Complex(if z.re < 0.0 then -z.re else z.re, if z.im < 0.0 then -z.im else z.im)
  }
}
