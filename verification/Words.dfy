/** 64-bit integers that wrap around: Go's `int` and `int64`, and `uint64`. */
module Words {

  type Int64 = x: int | -0x8000_0000_0000_0000 <= x < 0x8000_0000_0000_0000

  type Word64 = x: int | 0 <= x < 0x1_0000_0000_0000_0000

  function Wrap(x: int): Int64
  {
    (x + 0x8000_0000_0000_0000) % 0x1_0000_0000_0000_0000 - 0x8000_0000_0000_0000
  }

  function WrapUnsigned(x: int): Word64
  {
    x % 0x1_0000_0000_0000_0000
  }

  /** The signed integer that a word is the two's complement of. */
  function Signed(w: Word64): Int64
  {
    if w < 0x8000_0000_0000_0000 then w else w - 0x1_0000_0000_0000_0000
  }

  /** Words are the integers modulo 2^64, read from 0 or read from the middle. */
  lemma SignedWraps(x: int)
    ensures Signed(WrapUnsigned(x)) == Wrap(x)
  {
  }

  lemma WrapSkips(x: int, turns: int)
    ensures WrapUnsigned(x - turns * 0x1_0000_0000_0000_0000) == WrapUnsigned(x)
  {
  }

  lemma WrapIsAssociative(a: int, b: int, c: int)
    ensures WrapUnsigned(WrapUnsigned(a + b) + c) == WrapUnsigned(a + WrapUnsigned(b + c)) == WrapUnsigned(a + b + c)
  {
  }

  lemma WrapAdds(a: int, b: int)
    ensures WrapUnsigned(WrapUnsigned(a) + WrapUnsigned(b)) == WrapUnsigned(a + b)
  {
    WrapIsAssociative(0, a, WrapUnsigned(b));
    WrapIsAssociative(a, b, 0);
  }

  /** A difference is the one word that leads from `a` to `b`. */
  lemma WrapUndo(a: Word64, b: Word64, d: Word64)
    ensures WrapUnsigned(a + d) == b <==> d == WrapUnsigned(b - a)
  {
  }
}
