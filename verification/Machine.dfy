/** Fixed-width integers as Go has them, and the two small sum types the rest
    of the model shares. */
module Machine {

  const TWO_64: int := 0x1_0000_0000_0000_0000
  const TWO_63: int := 0x8000_0000_0000_0000
  const MAX_INT64: int := TWO_63 - 1

  /** A second, in the nanoseconds of a Go duration. */
  const SECOND: i64 := 1_000_000_000

  /** A Go uint64. */
  type u64 = x: int | 0 <= x < 0x1_0000_0000_0000_0000

  /** A Go int64, which is also a time.Duration in nanoseconds. */
  type i64 = x: int | -0x8000_0000_0000_0000 <= x < 0x8000_0000_0000_0000

  /** The uint64 that a mathematical integer wraps to. */
  function WrapU64(x: int): u64 {
    x % TWO_64
  }

  /** The int64 that a mathematical integer wraps to. */
  function WrapI64(x: int): i64 {
    (x + TWO_63) % TWO_64 - TWO_63
  }

  predicate FitsI64(x: int) {
    -TWO_63 <= x < TWO_63
  }

  /** Either wraps modulo 2^64, and leaves alone what fits. */
  lemma {:induction false} WrapsModulo(x: int)
    ensures (x - WrapU64(x)) % TWO_64 == 0 && (0 <= x < TWO_64 ==> WrapU64(x) == x)
    ensures (x - WrapI64(x)) % TWO_64 == 0 && (FitsI64(x) ==> WrapI64(x) == x)
  {
    assert x == TWO_64 * (x / TWO_64) + x % TWO_64;
    assert x + TWO_63 == TWO_64 * ((x + TWO_63) / TWO_64) + (x + TWO_63) % TWO_64;
  }

  lemma {:induction false} WrapI64Exact(x: int)
    ensures FitsI64(x) <==> WrapI64(x) == x
  {
  }

  datatype Option<+T> = None | Some(value: T)

  datatype Result<+T, +E> = Ok(value: T) | Err(error: E)
}
