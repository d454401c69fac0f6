/** Numeric vocabulary shared by every part of the engine: the sample rate,
    the clamps the setters apply, C's float-to-int cast, 32-bit unsigned
    arithmetic and the xorshift32 generator, and the C math library
    functions, which stay uninterpreted. */
module Numeric {

  /** SAMPLE_RATE: every per-sample increment divides by it. */
  const SampleRate: real := 44100.0

  /** 2^32: unsigned int arithmetic wraps modulo this. */
  const U32Modulus: int := 0x1_0000_0000

  /** The C math functions the engine calls (sinf, powf, tanhf, sqrtf).
      They are kept uninterpreted: every operation that needs one takes
      the library as a parameter. */
  datatype Libm = Libm(sin: real -> real, pow: (real, real) -> real, tanh: real -> real, sqrt: real -> real)
  {
    /** The only facts about the math library the proofs rely on:
        the sine stays in [-1,1], x^0 = 1, and the square root and the
        hyperbolic tangent of a positive number are positive. */
    ghost predicate Sound()
    {
      (forall x: real :: -1.0 <= sin(x) <= 1.0) &&
      (forall x: real :: pow(x, 0.0) == 1.0) &&
      (forall x: real :: x > 0.0 ==> sqrt(x) > 0.0) &&
      (forall x: real :: x > 0.0 ==> tanh(x) > 0.0)
    }
  }

  /** The two-sided clamp every setter applies: raised to lo when below it, then lowered to hi when above it. */
  function Clamp(x: real, lo: real, hi: real): (r: real)
    requires lo <= hi
    ensures lo <= r <= hi
    ensures x < lo ==> r == lo
    ensures hi < x ==> r == hi
    ensures lo <= x <= hi ==> r == x
  {
    if x < lo then lo else if x > hi then hi else x
  }

  /** C's `(int)x` for a float: truncation toward zero. */
  function Trunc(x: real): (n: int)
    ensures 0.0 <= x ==> n as real <= x < n as real + 1.0
    ensures x < 0.0 ==> n as real - 1.0 < x <= n as real
  {
    if x >= 0.0 then x.Floor else -((-x).Floor)
  }

  /** One xorshift32 step (shifts 13, 17, 5) on a 32-bit unsigned seed. */
  function Xorshift32(s: bv32): bv32
  {
    var a := s ^ (s << 13);
    var b := a ^ (a >> 17);
    b ^ (b << 5)
  }

  /** Zero is the only fixed point of xorshift32: a non-zero seed never
      collapses to the all-zero state. */
  lemma XorshiftKeepsNonzero(s: bv32)
    requires s != 0
    ensures Xorshift32(s) != 0
  {
  }

  /** The product of two non-negative reals is non-negative; the mixing
      and interpolation bounds rest on it. */
  lemma MulNonneg(x: real, y: real)
    requires 0.0 <= x && 0.0 <= y
    ensures 0.0 <= x * y
  {
  }
}
