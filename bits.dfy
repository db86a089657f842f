/**
 * Java's byte and int arithmetic as the driver uses it.
 *
 * A Java `byte` is a signed 8-bit value; in an expression it is widened to a
 * 32-bit `int` by sign extension.  Bytes are modelled as `bv8`, Java ints in
 * expressions as `bv32`, and `ToInt` reads a 32-bit word as the two's
 * complement integer Java sees.
 */
module Bits {

  /** A Java `int` (32-bit two's complement). */
  type Int32 = x: int | -0x8000_0000 <= x < 0x8000_0000

  /** The `int` Java keeps of an exact result: the result modulo 2^32, read as two's complement. */
  function Wrap32(x: int): (v: Int32)
    ensures -0x8000_0000 <= x < 0x8000_0000 ==> v == x
    ensures (v - x) % 0x1_0000_0000 == 0
  {
    (x + 0x8000_0000) % 0x1_0000_0000 - 0x8000_0000
  }

  /** Wrapping after each step is wrapping once at the end. */
  lemma Wrap32Step(x: int, d: int)
    ensures Wrap32(Wrap32(x) + d) == Wrap32(x + d)
  {
    var k := (x + 0x8000_0000) / 0x1_0000_0000;
    assert Wrap32(x) == x - k * 0x1_0000_0000;
    ModuloShift(x + d + 0x8000_0000, k);
  }

  lemma ModuloShift(y: int, k: int)
    ensures (y - k * 0x1_0000_0000) % 0x1_0000_0000 == y % 0x1_0000_0000
  {
    var q := y / 0x1_0000_0000;
    var r := y % 0x1_0000_0000;
    assert y - k * 0x1_0000_0000 == (q - k) * 0x1_0000_0000 + r;
  }

  /** The values of a signed 16-bit register pair. */
  predicate IsInt16(v: int) {
    -0x8000 <= v < 0x8000
  }

  /** The value of a Java `byte` holding bit pattern `b`. */
  function Signed8(b: bv8): (v: int)
    ensures -0x80 <= v < 0x80
  {
    if b < 0x80 then b as int else b as int - 0x100
  }

  /** Widening a Java `byte` to `int` (sign extension). */
  function SignExtend(b: bv8): (w: bv32)
  {
    if b < 0x80 then b as bv32 else (b as bv32) | 0xFFFF_FF00
  }

  /** The Java `int` value of a 32-bit word. */
  function ToInt(w: bv32): int {
    if w < 0x8000_0000 then w as int else w as int - 0x1_0000_0000
  }

  /**
   * Java's `(hi << 8) | (lo & 0xFF)` for two bytes `hi`, `lo`: both are
   * widened by sign extension; the mask drops the extension of `lo`, the
   * extension of `hi` supplies the sign of the result.
   */
  function Word16(hi: bv8, lo: bv8): bv32 {
    (SignExtend(hi) << 8) | (SignExtend(lo) & 0xFF)
  }

  /** The signed value of a big-endian register pair, as the driver computes it. */
  function Decode16(hi: bv8, lo: bv8): (v: int)
    ensures IsInt16(v)
    ensures v == Signed8(hi) * 0x100 + lo as int
  {
    Decode16Value(hi, lo);
    ToInt(Word16(hi, lo))
  }

  /** The byte whose unsigned value is `n`. */
  function ByteOf(n: int): (b: bv8)
    requires 0 <= n < 0x100
    ensures b as int == n
  {
    n as bv8
  }

  /** The high byte of a signed 16-bit value in two's complement. */
  function High8(v: int): (b: bv8)
    requires IsInt16(v)
  {
    ByteOf(((v + 0x1_0000) % 0x1_0000) / 0x100)
  }

  /** The low byte of a signed 16-bit value in two's complement. */
  function Low8(v: int): (b: bv8)
    requires IsInt16(v)
  {
    ByteOf((v + 0x1_0000) % 0x100)
  }

  /**
   * Java's truncation of an `int` to its two lowest bits, `x & 0x03`
   * (and what survives of `x << 6` after a `(byte)` cast): in two's
   * complement that is `x` modulo 4, which Dafny's Euclidean `%` gives
   * for negative `x` too.
   */
  function Low2(x: int): (b: bv8)
    ensures b < 4
    ensures 0 <= x < 4 ==> b as int == x
  {
    (x % 4) as bv8
  }

  /** The 32-bit word Java builds has the value of the signed big-endian pair. */
  lemma Decode16Value(hi: bv8, lo: bv8)
    ensures ToInt(Word16(hi, lo)) == Signed8(hi) * 0x100 + lo as int
  {
    var w := Word16(hi, lo);
    if hi < 0x80 {
      NonNegativeWord(hi, lo);
      NonNegativeValue(w, hi, lo);
    } else {
      NegativeWord(hi, lo);
      NegativeValue(w, hi, lo);
    }
  }

  lemma NonNegativeWord(hi: bv8, lo: bv8)
    requires hi < 0x80
    ensures Word16(hi, lo) == (hi as bv32) * 0x100 + lo as bv32
  {
  }

  lemma NegativeWord(hi: bv8, lo: bv8)
    requires hi >= 0x80
    ensures Word16(hi, lo) == 0xFFFF_0000 + (hi as bv32) * 0x100 + lo as bv32
  {
  }

  lemma NonNegativeValue(w: bv32, hi: bv8, lo: bv8)
    requires hi < 0x80 && w == (hi as bv32) * 0x100 + lo as bv32
    ensures ToInt(w) == hi as int * 0x100 + lo as int
  {
    assert w as int == hi as int * 0x100 + lo as int;
  }

  lemma NegativeValue(w: bv32, hi: bv8, lo: bv8)
    requires hi >= 0x80 && w == 0xFFFF_0000 + (hi as bv32) * 0x100 + lo as bv32
    ensures ToInt(w) == (hi as int - 0x100) * 0x100 + lo as int
  {
    assert w as int == 0xFFFF_0000 + hi as int * 0x100 + lo as int;
  }

  lemma ByteInjective(x: bv8, y: bv8)
    requires x as int == y as int
    ensures x == y
  {
  }

  /** Decoding the big-endian bytes of any signed 16-bit value returns it. */
  lemma DecodeEncode(v: int)
    requires IsInt16(v)
    ensures Decode16(High8(v), Low8(v)) == v
  {
    var u := if v >= 0 then v else v + 0x1_0000;
    assert (v + 0x1_0000) % 0x1_0000 == u;
    assert (v + 0x1_0000) % 0x100 == u % 0x100;
    assert High8(v) as int == u / 0x100;
    assert Low8(v) as int == u % 0x100;
    assert (u / 0x100) * 0x100 + u % 0x100 == u;
  }

  /** Every pair of bytes is the big-endian encoding of the value it decodes to. */
  lemma EncodeDecode(hi: bv8, lo: bv8)
    ensures High8(Decode16(hi, lo)) == hi && Low8(Decode16(hi, lo)) == lo
  {
    var v := Decode16(hi, lo);
    assert Signed8(hi) == if hi as int < 0x80 then hi as int else hi as int - 0x100;
    PairBytes(hi as int, lo as int, v);
    HighByteBack(v, hi);
    LowByteBack(v, lo);
  }

  lemma HighByteBack(v: int, hi: bv8)
    requires IsInt16(v) && ((v + 0x1_0000) % 0x1_0000) / 0x100 == hi as int
    ensures High8(v) == hi
  {
    ByteInjective(High8(v), hi);
  }

  lemma LowByteBack(v: int, lo: bv8)
    requires IsInt16(v) && (v + 0x1_0000) % 0x100 == lo as int
    ensures Low8(v) == lo
  {
    ByteInjective(Low8(v), lo);
  }

  lemma PairBytes(h: int, l: int, v: int)
    requires 0 <= h < 0x100 && 0 <= l < 0x100
    requires v == (if h < 0x80 then h else h - 0x100) * 0x100 + l
    ensures ((v + 0x1_0000) % 0x1_0000) / 0x100 == h
    ensures (v + 0x1_0000) % 0x100 == l
  {
    var u := h * 0x100 + l;
    UnsignedPair(h, l);
    if h < 0x80 {
      assert v == u;
      AddBlock(u);
    } else {
      assert v + 0x1_0000 == u;
    }
  }

  lemma AddBlock(x: int)
    ensures (x + 0x1_0000) % 0x100 == x % 0x100
  {
    var q := x / 0x100;
    assert x + 0x1_0000 == (q + 0x100) * 0x100 + x % 0x100;
  }

  lemma UnsignedPair(h: int, l: int)
    requires 0 <= h < 0x100 && 0 <= l < 0x100
    ensures (h * 0x100 + l) / 0x100 == h && (h * 0x100 + l) % 0x100 == l
    ensures 0 <= h * 0x100 + l < 0x1_0000
  {
  }
}
