/**
 * Kotlin `Int` arithmetic: 32-bit two's complement, wrapping on overflow.
 */
module JvmInts {

  /** The JVM's 32-bit wrap-around of an `Int` result. */
  function Wrap32(x: int): (r: int)
    ensures -0x8000_0000 <= r < 0x8000_0000
    ensures (r - x) % 0x1_0000_0000 == 0
  {
    (x + 0x8000_0000) % 0x1_0000_0000 - 0x8000_0000
  }

  /** A value already in range is its own wrap. */
  lemma WrapInRange(x: int)
    requires -0x8000_0000 <= x < 0x8000_0000
    ensures Wrap32(x) == x
  {
  }

  /** `x++` on an `Int` holding the wrap of `n` holds the wrap of `n + 1`. */
  lemma {:induction false} WrapSucc(n: int)
    ensures Wrap32(Wrap32(n) + 1) == Wrap32(n + 1)
  {
    var m := 0x1_0000_0000;
    var q := (n + 0x8000_0000) / m;
    assert Wrap32(n) + 1 == n + 1 - q * m;
    ShiftMod(n + 1 + 0x8000_0000, q);
  }

  lemma ShiftMod(a: int, q: int)
    ensures (a - q * 0x1_0000_0000) % 0x1_0000_0000 == a % 0x1_0000_0000
  {
  }

  /** Two values less than 2^32 apart wrap to different `Int`s. */
  lemma {:induction false} WrapInjective(i: int, j: int)
    requires i < j < i + 0x1_0000_0000
    ensures Wrap32(i) != Wrap32(j)
  {
  }
}
