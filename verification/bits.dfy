/**
  Bit-level vocabulary shared by the register file and the shift/rotate unit:
  8- and 16-bit unsigned values, the k-th bit of a number (Python's
  `x & 2 ** k != 0`), conversion between numbers and bit lists, and the
  zero-padded binary text that Python's `'{0:08b}'.format(x)` produces.
*/
module Bits {

  /** An 8-bit unsigned value: an accumulator or the packed CC register. */
  type Byte = x: int | 0 <= x < 0x100

  /** A 16-bit unsigned value: the program counter. */
  type Word = x: int | 0 <= x < 0x1_0000

  function Pow2(k: nat): (r: nat)
    ensures r >= 1
  {
    if k == 0 then 1 else 2 * Pow2(k - 1)
  }

  /** Bit k of x, counting the least significant bit as bit 0. */
  predicate Bit(x: nat, k: nat)
  {
    if k == 0 then x % 2 == 1 else Bit(x / 2, k - 1)
  }

  /** The number whose bits, least significant first, are bs. */
  function FromBits(bs: seq<bool>): (r: nat)
    ensures r < Pow2(|bs|)
  {
    if bs == [] then 0 else (if bs[0] then 1 else 0) + 2 * FromBits(bs[1..])
  }

  /** The lowest w bits of x, least significant first. */
  function ToBits(x: nat, w: nat): (bs: seq<bool>)
    ensures |bs| == w
    ensures forall k :: 0 <= k < w ==> bs[k] == Bit(x, k)
  {
    if w == 0 then [] else [x % 2 == 1] + ToBits(x / 2, w - 1)
  }

  /** The widths of a byte: 2^7 is its top bit, 2^8 its range. */
  lemma ByteWidth()
    ensures Pow2(7) == 0x80 && Pow2(8) == 0x100
  {
    assert Pow2(4) == 16;
  }

  /** The character Python prints for one binary digit. */
  function Digit(b: bool): char
  {
    if b then '1' else '0'
  }

  /**
    The w lowest bits of x as text, most significant first, padded with
    '0': for a byte, `Binary(x, 8)` is Python's `'{0:08b}'.format(x)`.
  */
  function Binary(x: nat, w: nat): (s: string)
    ensures |s| == w
    ensures forall j :: 0 <= j < w ==> s[j] == Digit(Bit(x, w - 1 - j))
  {
    if w == 0 then "" else Binary(x / 2, w - 1) + [Digit(x % 2 == 1)]
  }

  lemma {:induction false} BitOfZero(k: nat)
    ensures !Bit(0, k)
  {
    if k > 0 {
      BitOfZero(k - 1);
    }
  }

  /** A number below 2^k has bit k and every higher bit clear. */
  lemma {:induction false} BitOfSmall(x: nat, k: nat)
    requires x < Pow2(k)
    ensures !Bit(x, k)
  {
    if k > 0 {
      BitOfSmall(x / 2, k - 1);
    }
  }

  /** For a number of k + 1 bits, its top bit is set exactly when it is at least 2^k. */
  lemma {:induction false} TopBit(x: nat, k: nat)
    requires x < Pow2(k + 1)
    ensures Bit(x, k) <==> x >= Pow2(k)
  {
    if k > 0 {
      TopBit(x / 2, k - 1);
    }
  }

  /** Removing a higher power of two leaves the lower bits alone. */
  lemma {:induction false} BitOfSubPow2(x: nat, m: nat, k: nat)
    requires k < m && Pow2(m) <= x
    ensures Bit(x - Pow2(m), k) == Bit(x, k)
  {
    if k > 0 {
      assert (x - Pow2(m)) / 2 == x / 2 - Pow2(m - 1);
      BitOfSubPow2(x / 2, m - 1, k - 1);
    }
  }

  /** Reading back the bits of a number that fits in w bits gives the number. */
  lemma {:induction false} FromToBits(x: nat, w: nat)
    requires x < Pow2(w)
    ensures FromBits(ToBits(x, w)) == x
  {
    if w > 0 {
      var bs := ToBits(x, w);
      assert bs[1..] == ToBits(x / 2, w - 1);
      FromToBits(x / 2, w - 1);
    }
  }

  /** Taking the bits of the number a bit list builds gives back the list. */
  lemma {:induction false} ToFromBits(bs: seq<bool>)
    ensures ToBits(FromBits(bs), |bs|) == bs
  {
    if bs != [] {
      assert FromBits(bs) / 2 == FromBits(bs[1..]);
      ToFromBits(bs[1..]);
    }
  }

  /** Two numbers of w bits that agree on every bit are equal. */
  lemma BitsDetermineValue(x: nat, y: nat, w: nat)
    requires x < Pow2(w) && y < Pow2(w)
    requires forall k :: 0 <= k < w ==> Bit(x, k) == Bit(y, k)
    ensures x == y
  {
    assert ToBits(x, w) == ToBits(y, w);
    FromToBits(x, w);
    FromToBits(y, w);
  }

  /** The bits of a byte, as a bit list, determine the byte. */
  lemma ByteBitsDetermineValue(x: Byte, y: Byte)
    requires forall k :: 0 <= k < 8 ==> Bit(x, k) == Bit(y, k)
    ensures x == y
  {
    ByteWidth();
    BitsDetermineValue(x, y, 8);
  }
}
