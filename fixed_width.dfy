/**
 * The C++ fixed-width type `uint8_t` and the arithmetic the counter uses on it.
 *
 * `counter++` on a `uint8_t` promotes the operand to `int`, adds one, and
 * converts the sum back to the 8-bit unsigned type. An integral conversion to
 * an unsigned type yields the unique value of that type congruent to the
 * source value modulo 2^8, so incrementing 255 gives 0: the counter wraps, it
 * neither saturates nor is undefined.
 */
module FixedWidth {

  /** Number of distinct `uint8_t` values, 2^8. */
  const Modulus: int := 256

  /** Values of `uint8_t`: 0 through UINT8_MAX. */
  type Uint8 = x: int | 0 <= x < Modulus

  /** UINT8_MAX. */
  const MaxUint8: Uint8 := 255

  /** Conversion of an `int` to `uint8_t`: the value congruent to `x` modulo 2^8. */
  function ToUint8(x: int): (r: Uint8)
    ensures (x - r) % Modulus == 0
    ensures 0 <= x < Modulus ==> r == x
  {
    x % Modulus
  }

  /** The `uint8_t` value congruent to `x` is unique, so `ToUint8` is the conversion. */
  lemma ToUint8Unique(x: int, r: Uint8)
    requires (x - r) % Modulus == 0
    ensures ToUint8(x) == r
  {
  }

  /** `b++` on a `uint8_t`: promote, add one, convert back. */
  function Increment(b: Uint8): (r: Uint8)
    ensures b < MaxUint8 ==> r == b + 1
    ensures b == MaxUint8 ==> r == 0
  {
    ToUint8(b + 1)
  }

  /** Incrementing after converting is converting after adding one. */
  lemma IncrementToUint8(x: int)
    ensures Increment(ToUint8(x)) == ToUint8(x + 1)
  {
  }
}
