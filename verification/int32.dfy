/**
  The 32-bit signed integer of C#. The notification counter is read as an
  `int` and incremented with unchecked arithmetic, so `MaxValue + 1` wraps to
  `MinValue` instead of raising an error.
 */
module Int32 {

  const MinValue: int := -0x8000_0000
  const MaxValue: int := 0x7FFF_FFFF
  /** Number of distinct 32-bit values. */
  const Modulus: int := 0x1_0000_0000

  predicate InRange(n: int) {
    MinValue <= n <= MaxValue
  }

  /** Two's-complement reduction of an unbounded integer into the 32-bit range:
      the unique in-range value congruent to `n` modulo 2^32. */
  function Wrap(n: int): (r: int)
    ensures InRange(r)
    ensures (n - r) % Modulus == 0
    ensures InRange(n) ==> r == n
  {
    (n - MinValue) % Modulus + MinValue
  }

  /** Wrapping an intermediate result does not change the final wrapped value. */
  lemma WrapAdd(a: int, b: int)
    ensures Wrap(Wrap(a) + b) == Wrap(a + b)
  {
  }

  /** Unchecked `n + 1` on a C# `int`. */
  function Increment(n: int): (r: int)
    requires InRange(n)
    ensures InRange(r)
    ensures n < MaxValue ==> r == n + 1
    ensures n == MaxValue ==> r == MinValue
  {
    Wrap(n + 1)
  }
}
