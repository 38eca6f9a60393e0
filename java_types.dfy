/** Value types the three components share: Java/Kotlin nullable references and 64-bit longs. */
module JavaTypes {

  /** A nullable value (`T?` in Kotlin, a possibly-null reference in Java). */
  datatype Option<+T> = None | Some(value: T)

  const MinLong: int := -0x8000_0000_0000_0000
  const MaxLong: int := 0x7FFF_FFFF_FFFF_FFFF
  const TwoTo64: int := 0x1_0000_0000_0000_0000

  /** Java's `long`. */
  type Long = x: int | MinLong <= x <= MaxLong

  /** Two's-complement truncation to 64 bits: what Java's `long` arithmetic
      and `BigInteger.toLong()` do with a value out of range. */
  function Wrap(x: int): (r: Long)
    ensures (r - x) % TwoTo64 == 0
    ensures MinLong <= x <= MaxLong ==> r == x
  {
    var m := (x - MinLong) % TwoTo64;
    assert x - MinLong == TwoTo64 * ((x - MinLong) / TwoTo64) + m;
    m + MinLong
  }
}
