/** Java's 32-bit `int`/`Integer`, the width of project IDs and of the
    `AtomicInteger` that generates them. */
module Int32 {

  const MinInt: int := -0x8000_0000
  const MaxInt: int := 0x7fff_ffff

  type i32 = x: int | -0x8000_0000 <= x <= 0x7fff_ffff

  /** Two's-complement reduction of an unbounded integer into 32 bits. */
  function Wrap(x: int): (r: i32)
    ensures MinInt <= x <= MaxInt ==> r == x
    ensures (x - r) % 0x1_0000_0000 == 0
  {
    (x - MinInt) % 0x1_0000_0000 + MinInt
  }

  /** Adding one as the JVM does: `MaxInt + 1` overflows to `MinInt`. */
  function Increment(x: i32): (r: i32)
    ensures x < MaxInt ==> r == x + 1 && r > x
    ensures x == MaxInt ==> r == MinInt
  {
    Wrap(x + 1)
  }

}
