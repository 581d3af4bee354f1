/** Small definitions shared by every module of the model. */
module Common {

  /** A value that may be absent; stands for a C pointer that may be NULL. */
  datatype Option<+T> = None | Some(value: T)

  /**
   * Half as much again, truncated toward zero: the arena's slot table grows
   * to `len * 1.5`, a double-precision product that is exact for every
   * table size below 2^52. The stack's single-precision `*= 1.5f` rounds
   * differently and is modelled in its own module.
   */
  function OneAndAHalf(n: nat): (m: nat)
    ensures 2 * m <= 3 * n < 2 * m + 2
  {
    n * 3 / 2
  }

  /** Growth only makes progress from two entries up: 0 and 1 are fixed points. */
  lemma OneAndAHalfGrows(n: nat)
    ensures n >= 2 <==> OneAndAHalf(n) > n
  {
  }
}
