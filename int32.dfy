/** C#'s `int`: a 32-bit two's-complement integer whose `+` wraps around
    silently (the default unchecked context). */
module Int32 {

  const TwoTo31: int := 0x8000_0000
  const TwoTo32: int := 0x1_0000_0000

  predicate InRange(x: int) {
    -TwoTo31 <= x < TwoTo31
  }

  /** The value an unchecked C# `int` holds after an operation whose
      mathematical result is `x`. */
  function ToInt32(x: int): (r: int)
    ensures InRange(r)
    ensures (x - r) % TwoTo32 == 0
    ensures InRange(x) ==> r == x
  {
    (x + TwoTo31) % TwoTo32 - TwoTo31
  }

  /** Wrapping after every addition is the same as wrapping once at the end:
      an accumulator updated with `+=` holds the wrapped total. */
  lemma AddWrapped(a: int, b: int)
    ensures ToInt32(ToInt32(a) + b) == ToInt32(a + b)
  {
  }
}
