/** What the backend entities take from Java itself: 32-bit `int` /
    `Integer` arithmetic and the exceptions their helpers throw. */
module JavaLang {

  const MIN: int := -0x8000_0000
  const MAX: int := 0x7FFF_FFFF

  /** A Java `int` value. */
  type Int32 = x: int | MIN <= x <= MAX

  /** The two's-complement truncation that Java applies to the result of
      `+`, `-` and to a `long`-to-`int` narrowing (`Long.intValue`). */
  function Wrap(x: int): (r: Int32)
    ensures MIN <= x <= MAX ==> r == x
    ensures (r - x) % 0x1_0000_0000 == 0
  {
    (x - MIN) % 0x1_0000_0000 + MIN
  }

  /** Two Java `int` values that agree modulo 2^32 are equal, so wrap-around
      can be undone by the opposite operation. */
  lemma WrapCongruent(x: int, y: int)
    requires MIN <= y <= MAX
    requires (y - x) % 0x1_0000_0000 == 0
    ensures Wrap(x) == y
  {
    var r := Wrap(x);
    assert (r - y) % 0x1_0000_0000 == 0 by {
      assert r - y == (r - x) - (y - x);
    }
  }

  /** What a helper can throw: a `NullPointerException` from unboxing or
      dereferencing a null field, or an `IllegalArgumentException`. */
  datatype JavaError = NullPointer | IllegalArgument(message: string)
}
