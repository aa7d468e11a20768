/** Small value types and integer helpers shared by every module. */
module Basics {

  datatype Option<+T> = None | Some(value: T)

  datatype Result<+T> = Ok(value: T) | Err

  function Max(a: int, b: int): int {
    if a >= b then a else b
  }

  function Min(a: int, b: int): int {
    if a <= b then a else b
  }

  const SECOND := 1_000_000_000
  const DAY := 86_400 * SECOND
  const MAX_INT32 := 0x7FFF_FFFF
  const MAX_INT64 := 0x7FFF_FFFF_FFFF_FFFF

  /** The instant as a persisted timestamp keeps it: whole seconds. */
  function WholeSecond(t: int): (w: int)
    ensures w <= t < w + SECOND && w % SECOND == 0
  {
    t - t % SECOND
  }

  lemma MulMonotone(a: int, b: int, c: int)
    requires a >= 0 && b <= c
    ensures a * b <= a * c
  {
    var d := c - b;
    assert a * d >= 0;
    assert a * d == a * c - a * b;
  }

  predicate IsHex(c: char) {
    '0' <= c <= '9' || 'a' <= c <= 'f' || 'A' <= c <= 'F'
  }
}
