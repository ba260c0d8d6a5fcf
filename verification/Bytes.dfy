/** Bytes, and the five-bit groups that straddle them. */
module Bytes {
  type Byte = bv8

  function Num(b: Byte): nat { b as int }

  // ---- the five-bit groups of neighbouring bytes ----

  function Top3(b: Byte): (r: nat) ensures r == b as int / 32 < 8 { ((b & 224) >> 5) as int }
  function Top5(b: Byte): (r: nat) ensures r == b as int / 8 < 32 { ((b & 248) >> 3) as int }
  function Low5(b: Byte): (r: nat) ensures r == b as int % 32 { (b & 31) as int }
  function Mid5(b: Byte): (r: nat) ensures r == b as int % 64 / 2 < 32 {
    MiddleBits(b);
    ((b & 62) >> 1) as int
  }
  function Upper5(b: Byte): (r: nat) ensures r == b as int % 128 / 4 < 32 {
    UpperBits(b);
    ((b & 124) >> 2) as int
  }
  lemma MiddleBits(b: Byte)
    ensures ((b & 62) >> 1) as int == b as int % 64 / 2
  {
    var low := b & 63;
    assert (b & 62) >> 1 == low >> 1;
    assert (low >> 1) as int == low as int / 2;
    assert low as int == b as int % 64;
  }

  lemma UpperBits(b: Byte)
    ensures ((b & 124) >> 2) as int == b as int % 128 / 4
  {
    var low := b & 127;
    assert (b & 124) >> 2 == low >> 2;
    assert (low >> 2) as int == low as int / 4;
    assert low as int == b as int % 128;
  }

  /** Bits that do not overlap add up. */
  lemma DisjointBits(x: Byte, y: Byte)
    requires x & y == 0 && x < 32 && y < 32
    ensures (x | y) as int == x as int + y as int
  {
    assert x | y == x + y;
  }

  lemma Span3Parts(b: Byte, c: Byte)
    ensures ((b & 7) << 2) as int == b as int % 8 * 4 && ((c & 192) >> 6) as int == c as int / 64
    ensures ((b & 7) << 2) & ((c & 192) >> 6) == 0
  {
  }

  function Span3(b: Byte, c: Byte): (r: nat)
    ensures r == b as int % 8 * 4 + c as int / 64 < 32
  {
    Span3Parts(b, c);
    DisjointBits((b & 7) << 2, (c & 192) >> 6);
    (((b & 7) << 2) | ((c & 192) >> 6)) as int
  }

  lemma Span1Parts(b: Byte, c: Byte)
    ensures ((b & 1) << 4) as int == b as int % 2 * 16 && ((c & 240) >> 4) as int == c as int / 16
    ensures ((b & 1) << 4) & ((c & 240) >> 4) == 0
  {
  }

  function Span1(b: Byte, c: Byte): (r: nat)
    ensures r == b as int % 2 * 16 + c as int / 16 < 32
  {
    Span1Parts(b, c);
    DisjointBits((b & 1) << 4, (c & 240) >> 4);
    (((b & 1) << 4) | ((c & 240) >> 4)) as int
  }

  lemma Span4Parts(b: Byte, c: Byte)
    ensures ((b & 15) << 1) as int == b as int % 16 * 2 && ((c & 128) >> 7) as int == c as int / 128
    ensures ((b & 15) << 1) & ((c & 128) >> 7) == 0
  {
  }

  function Span4(b: Byte, c: Byte): (r: nat)
    ensures r == b as int % 16 * 2 + c as int / 128 < 32
  {
    Span4Parts(b, c);
    DisjointBits((b & 15) << 1, (c & 128) >> 7);
    (((b & 15) << 1) | ((c & 128) >> 7)) as int
  }

  lemma Span2Parts(b: Byte, c: Byte)
    ensures ((b & 3) << 3) as int == b as int % 4 * 8 && ((c & 224) >> 5) as int == c as int / 32
    ensures ((b & 3) << 3) & ((c & 224) >> 5) == 0
  {
  }

  function Span2(b: Byte, c: Byte): (r: nat)
    ensures r == b as int % 4 * 8 + c as int / 32 < 32
  {
    Span2Parts(b, c);
    DisjointBits((b & 3) << 3, (c & 224) >> 5);
    (((b & 3) << 3) | ((c & 224) >> 5)) as int
  }

  function Power2(n: nat): nat {
    if n == 0 then 1 else 2 * Power2(n - 1)
  }

  function Bit(x: nat): Byte
    requires x < 2
  {
    if x == 0 then 0 else 1
  }

  lemma {:induction false} Power2Grows(a: nat, b: nat)
    requires a <= b
    ensures Power2(a) <= Power2(b)
  {
    if a < b {
      Power2Grows(a, b - 1);
    }
  }

  lemma Doubles(h: Byte, bit: nat, n: nat)
    requires 0 < n <= 8 && Num(h) < Power2(n - 1) && bit < 2
    ensures Num((h << 1) | Bit(bit)) == 2 * Num(h) + bit
  {
    assert Power2(7) == 128;
    Power2Grows(n - 1, 7);
    assert h < 128;
    assert (h << 1) as nat == 2 * (h as nat);
    assert (h << 1) | 1 == (h << 1) + 1;
    assert ((h << 1) + 1) as nat == (h << 1) as nat + 1;
  }

  /** A number as a byte, bit by bit. */
  function FromBits(x: nat, n: nat): (b: Byte)
    requires n <= 8 && x < Power2(n)
    ensures Num(b) == x
  {
    if n == 0 then 0
    else
      var h := FromBits(x / 2, n - 1);
      Doubles(h, x % 2, n);
      (h << 1) | Bit(x % 2)
  }

  /** A number that fits, as a byte. */
  function ToByte(x: nat): (b: Byte)
    requires x < 256
    ensures Num(b) == x
  {
    assert Power2(8) == 256;
    FromBits(x, 8)
  }
}
