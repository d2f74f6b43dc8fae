/**
  The shift and rotate unit for 8-bit operands: logical shift right (LSR),
  arithmetic/logical shift left (ASL/LSL) and rotate left through carry
  (ROL), each giving the result byte and the N, Z, V and C flags it writes.
  No operation here writes H, E, F or I. The model's LSR clears V; the
  test file checks only that V is 0 after LSRA from a cleared CC.
*/
module Alu {
  import opened Bits

  /** The result byte of a shift or rotate and the four flags it writes. */
  datatype ShiftResult = ShiftResult(value: Byte, n: bool, z: bool, v: bool, c: bool)

  /**
    LSR: shift right by one, a 0 into bit 7, bit 0 out into C; V is cleared.
    No bit is lost: the result and C together give back the operand.
  */
  function Lsr(x: Byte): (r: ShiftResult)
    ensures r.value < 0x80
    ensures 2 * r.value + (if r.c then 1 else 0) == x
  {
    var value := x / 2;
    ShiftResult(value, Bit(value, 7), value == 0, false, Bit(x, 0))
  }

  /**
    ASL/LSL: shift left by one, a 0 into bit 0, bit 7 out into C; V is bit 6
    XOR bit 7. No bit is lost: C:result is twice the operand as a 9-bit number.
  */
  function Asl(x: Byte): (r: ShiftResult)
    ensures r.value % 2 == 0
    ensures r.value + (if r.c then 0x100 else 0) == 2 * x
  {
    HighBits(x);
    var value := (2 * x) % 0x100;
    ShiftResult(value, Bit(value, 7), value == 0, Bit(x, 6) != Bit(x, 7), Bit(x, 7))
  }

  /**
    ROL: shift left by one, the incoming carry into bit 0, bit 7 out into C;
    V is bit 6 XOR bit 7. No bit is lost: C:result is twice the operand plus
    the incoming carry as a 9-bit number.
  */
  function Rol(x: Byte, carry: bool): (r: ShiftResult)
    ensures r.value + (if r.c then 0x100 else 0) == 2 * x + (if carry then 1 else 0)
  {
    HighBits(x);
    var value := (2 * x + (if carry then 1 else 0)) % 0x100;
    ShiftResult(value, Bit(value, 7), value == 0, Bit(x, 6) != Bit(x, 7), Bit(x, 7))
  }

  /** Bits 7 and 6 of a byte, read as ranges of its value. */
  lemma HighBits(x: Byte)
    ensures Bit(x, 7) <==> x >= 0x80
    ensures Bit(x, 6) != Bit(x, 7) <==> 0x40 <= x <= 0xbf
  {
    ByteWidth();
    TopBit(x, 7);
    if x >= 0x80 {
      BitOfSubPow2(x, 7, 6);
      TopBit(x - 0x80, 6);
    } else {
      TopBit(x, 6);
    }
  }

  /**
    The bits of 2 * x + c, reduced to 8 bits: c in bit 0 and bit k of x in
    bit k + 1.
  */
  lemma ShiftedInBits(x: Byte, c: nat)
    requires c < 2
    ensures Bit((2 * x + c) % 0x100, 0) == (c == 1)
    ensures forall k :: 0 <= k < 7 ==> Bit((2 * x + c) % 0x100, k + 1) == Bit(x, k)
  {
    ByteWidth();
    var y := 2 * x + c;
    if y >= 0x100 {
      assert y % 0x100 == y - Pow2(8);
      forall k | 0 <= k < 8
        ensures Bit(y % 0x100, k) == Bit(y, k)
      {
        BitOfSubPow2(y, 8, k);
      }
    }
    forall k | 0 <= k < 7
      ensures Bit(y % 0x100, k + 1) == Bit(x, k)
    {
      assert y / 2 == x;
    }
  }

  /** LSR moves bit k + 1 of the operand to bit k and clears bit 7. */
  lemma LsrShiftsBits(x: Byte)
    ensures forall k :: 0 <= k < 7 ==> Bit(Lsr(x).value, k) == Bit(x, k + 1)
    ensures !Bit(Lsr(x).value, 7)
  {
    ByteWidth();
    BitOfSmall(x / 2, 7);
  }

  /** After LSR, C is the bit shifted out, V and N are clear, and Z is set exactly for the operands 0 and 1. */
  lemma LsrFlags(x: Byte)
    ensures Lsr(x).c == (x % 2 == 1) && !Lsr(x).v
    ensures !Lsr(x).n && (Lsr(x).z <==> x < 2)
  {
    LsrShiftsBits(x);
  }

  /** ASL moves bit k of the operand to bit k + 1 and clears bit 0. */
  lemma AslShiftsBits(x: Byte)
    ensures !Bit(Asl(x).value, 0)
    ensures forall k :: 0 <= k < 7 ==> Bit(Asl(x).value, k + 1) == Bit(x, k)
  {
    ShiftedInBits(x, 0);
  }

  /**
    After ASL, C is set for the operands 0x80..0xff, V for 0x40..0xbf, N
    exactly when the result is at least 0x80 and Z exactly when it is 0.
  */
  lemma AslFlags(x: Byte)
    ensures Asl(x).c <==> 0x80 <= x
    ensures Asl(x).v <==> 0x40 <= x <= 0xbf
    ensures Asl(x).n <==> Asl(x).value >= 0x80
    ensures Asl(x).z <==> Asl(x).value == 0
  {
    HighBits(x);
    HighBits(Asl(x).value);
  }

  /** ROL moves bit k of the operand to bit k + 1 and the incoming carry to bit 0. */
  lemma RolShiftsBits(x: Byte, carry: bool)
    ensures Bit(Rol(x, carry).value, 0) == carry
    ensures forall k :: 0 <= k < 7 ==> Bit(Rol(x, carry).value, k + 1) == Bit(x, k)
  {
    ShiftedInBits(x, if carry then 1 else 0);
  }

  /**
    After ROL, C is set for the operands 0x80..0xff, V for 0x40..0xbf, N
    exactly when the result is at least 0x80 and Z exactly when it is 0.
  */
  lemma RolFlags(x: Byte, carry: bool)
    ensures Rol(x, carry).c <==> 0x80 <= x
    ensures Rol(x, carry).v <==> 0x40 <= x <= 0xbf
    ensures Rol(x, carry).n <==> Rol(x, carry).value >= 0x80
    ensures Rol(x, carry).z <==> Rol(x, carry).value == 0
  {
    HighBits(x);
    HighBits(Rol(x, carry).value);
  }

  /** ASL is ROL with a clear incoming carry. */
  lemma AslIsRolWithoutCarry(x: Byte)
    ensures Asl(x) == Rol(x, false)
  {
  }

  /** n ROL instructions in a row, each taking the carry the previous one left. */
  function RolTimes(x: Byte, carry: bool, n: nat): (Byte, bool)
    decreases n
  {
    if n == 0 then (x, carry)
    else
      var r := Rol(x, carry);
      RolTimes(r.value, r.c, n - 1)
  }

  /** Bit k of the 9-bit quantity that ROL rotates: the byte in bits 0..7, C in bit 8. */
  predicate Bit9(x: Byte, carry: bool, k: nat)
  {
    if k < 8 then Bit(x, k) else carry
  }

  /** One ROL rotates the 9-bit quantity C:A left by one place. */
  lemma RolRotatesNine(x: Byte, carry: bool, k: nat)
    requires k < 9
    ensures Bit9(Rol(x, carry).value, Rol(x, carry).c, k) == Bit9(x, carry, (k + 8) % 9)
  {
    RolShiftsBits(x, carry);
    RolFlags(x, carry);
    if 0 < k < 8 {
      assert Bit(Rol(x, carry).value, (k - 1) + 1) == Bit(x, k - 1);
    }
  }

  /** Rotating by one more place moves the source index of bit k back by one, modulo 9. */
  lemma RotationIndexStep(k: nat, n: nat)
    requires k < 9 && n >= 1
    ensures ((k + 8 * (n - 1)) % 9 + 8) % 9 == (k + 8 * n) % 9
  {
  }

  /** n ROLs rotate C:A left by n places. */
  lemma {:induction false} RolTimesRotates(x: Byte, carry: bool, n: nat, k: nat)
    requires k < 9
    ensures Bit9(RolTimes(x, carry, n).0, RolTimes(x, carry, n).1, k) == Bit9(x, carry, (k + 8 * n) % 9)
    decreases n
  {
    if n > 0 {
      var r := Rol(x, carry);
      var j := (k + 8 * (n - 1)) % 9;
      RolTimesRotates(r.value, r.c, n - 1, k);
      RolRotatesNine(x, carry, j);
      RotationIndexStep(k, n);
    }
  }

  /** The source index of a rotation by a whole number of turns, or one place short of one. */
  lemma RotationIndexTurns(k: nat, n: nat)
    requires k < 9
    ensures n % 9 == 0 ==> (k + 8 * n) % 9 == k
    ensures n % 9 == 8 ==> (k + 8 * n) % 9 == (k + 1) % 9
  {
  }

  /** ROL through carry is a 9-bit rotation: any multiple of nine ROLs gives back both the byte and the carry. */
  lemma RolCycle(x: Byte, carry: bool, n: nat)
    requires n % 9 == 0
    ensures RolTimes(x, carry, n) == (x, carry)
  {
    var (y, c) := RolTimes(x, carry, n);
    forall k | 0 <= k < 8
      ensures Bit(y, k) == Bit(x, k)
    {
      RolTimesRotates(x, carry, n, k);
      RotationIndexTurns(k, n);
    }
    ByteBitsDetermineValue(y, x);
    RolTimesRotates(x, carry, n, 8);
    RotationIndexTurns(8, n);
  }

  /** The bits of x >> 1 with the carry in bit 7: bit k + 1 of x in bit k, and the carry in bit 7. */
  lemma RotatedRightBits(x: Byte, carry: bool, y: nat)
    requires y == x / 2 + (if carry then 0x80 else 0)
    ensures forall k :: 0 <= k < 7 ==> Bit(y, k) == Bit(x, k + 1)
    ensures Bit(y, 7) == carry
  {
    ByteWidth();
    if carry {
      TopBit(y, 7);
      forall k | 0 <= k < 7
        ensures Bit(y, k) == Bit(x, k + 1)
      {
        BitOfSubPow2(y, 7, k);
      }
    } else {
      BitOfSmall(y, 7);
    }
  }

  /**
    Eight ROLs (or 9m + 8) are one rotation right through carry: bit 0 goes
    to C and the old C to bit 7. So eight ROLs do not in general give back
    the byte.
  */
  lemma RolEightIsRotateRight(x: Byte, carry: bool, n: nat)
    requires n % 9 == 8
    ensures RolTimes(x, carry, n) == (x / 2 + (if carry then 0x80 else 0), Bit(x, 0))
  {
    var (y, c) := RolTimes(x, carry, n);
    var expected := x / 2 + (if carry then 0x80 else 0);
    RotatedRightBits(x, carry, expected);
    forall k | 0 <= k < 8
      ensures Bit(y, k) == Bit(expected, k)
    {
      RolTimesRotates(x, carry, n, k);
      RotationIndexTurns(k, n);
    }
    ByteBitsDetermineValue(y, expected);
    RolTimesRotates(x, carry, n, 8);
    RotationIndexTurns(8, n);
  }
}
