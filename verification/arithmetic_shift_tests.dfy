/**
  The behavioural contract that tests/test_6809_arithmetic_shift.py states
  for LSRA, ASLA and ROLA: its assertions as predicates over the operand,
  the byte read back from A and the flags read back from CC; lemmas that
  these predicates single out exactly what the shift/rotate unit computes;
  and the four test methods, which drive a Cpu through every operand and
  are proved to pass.
*/
module ArithmeticShiftTests {
  import opened Bits
  import opened Registers
  import opened Alu
  import opened Cpu6809

  /** What test_ASRA_inherent asserts after LSRA on i: A is i >> 1, N, Z as read from A, V clear, C the old bit 0. */
  predicate LsraOracle(i: nat, r: Byte, cc: Flags)
  {
    && r == (i / 2) % 0x100
    && (cc.n <==> 128 <= r <= 255)
    && (cc.z <==> r == 0)
    && !cc.v
    && (cc.c <==> Bit(i, 0))
  }

  /** What test_ASLA_inherent asserts after ASLA on i: A is (i << 1) & 0xff, N, Z as read from A, V and C by ranges of i. */
  predicate AslaOracle(i: nat, r: Byte, cc: Flags)
  {
    && r == (2 * i) % 0x100
    && (cc.n <==> 128 <= r <= 255)
    && (cc.z <==> r == 0)
    && (cc.v <==> 64 <= i <= 191)
    && (cc.c <==> 128 <= i <= 255)
  }

  /**
    What assertROL asserts after ROLA took src to dst with the given carry
    in: the eight-digit binary text of dst is that of src without its first
    digit, followed by the carry digit; N, Z as read from dst; V is bit 6
    XOR bit 7 of src; C is bit 7 of src.
  */
  predicate RolOracle(src: Byte, dst: Byte, sourceCarry: bool, cc: Flags)
  {
    && Binary(dst, 8) == Binary(src, 8)[1..] + [Digit(sourceCarry)]
    && (cc.n <==> dst >= 0x80)
    && (cc.z <==> dst == 0)
    && (cc.v <==> Bit(src, 6) != Bit(src, 7))
    && (cc.c <==> 0x80 <= src <= 0xff)
  }

  /** The flags an instruction wrote, next to the N, Z, V, C of a ShiftResult. */
  predicate FlagsAgree(cc: Flags, r: ShiftResult)
  {
    cc.n == r.n && cc.z == r.z && cc.v == r.v && cc.c == r.c
  }

  /** The LSRA assertions hold of exactly one result byte and one N, Z, V, C: the LSR of the operand. */
  lemma LsraOracleExact(i: Byte, r: Byte, cc: Flags)
    ensures LsraOracle(i, r, cc) <==> r == Lsr(i).value && FlagsAgree(cc, Lsr(i))
  {
    LsrFlags(i);
  }

  /**
    The ASLA assertions, for every operand the test writes (0 to 259, which
    A masks to 8 bits), hold of exactly one result byte and one N, Z, V, C:
    the ASL of the masked operand.
  */
  lemma AslaOracleExact(i: nat, r: Byte, cc: Flags)
    requires i < 260
    ensures AslaOracle(i, r, cc) <==> r == Asl(i % 0x100).value && FlagsAgree(cc, Asl(i % 0x100))
  {
    MaskedOperand(i);
    AslFlags(i % 0x100);
  }

  /**
    For the operands the ASLA test writes, the shift and the ranges it
    checks read the same on i as on i & 0xff.
  */
  lemma MaskedOperand(i: nat)
    requires i < 260
    ensures (2 * i) % 0x100 == (2 * (i % 0x100)) % 0x100
    ensures (64 <= i <= 191) == (0x40 <= i % 0x100 <= 0xbf)
    ensures (128 <= i <= 255) == (0x80 <= i % 0x100)
  {
    if i >= 0x100 {
      assert i % 0x100 == i - 0x100;
    }
  }

  /** The text comparison of assertROL holds exactly when dst is the ROL of src with that carry. */
  lemma RolBinaryExact(src: Byte, dst: Byte, carry: bool)
    ensures Binary(dst, 8) == Binary(src, 8)[1..] + [Digit(carry)] <==> dst == Rol(src, carry).value
  {
    var want := Binary(src, 8)[1..] + [Digit(carry)];
    var rol := Rol(src, carry).value;
    RolShiftsBits(src, carry);
    assert Binary(rol, 8) == want by {
      forall j | 0 <= j < 8
        ensures Binary(rol, 8)[j] == want[j]
      {
        if j < 7 {
          assert Bit(rol, (6 - j) + 1) == Bit(src, 6 - j);
        }
      }
    }
    if Binary(dst, 8) == want {
      forall k | 0 <= k < 8
        ensures Bit(dst, k) == Bit(rol, k)
      {
        assert Binary(dst, 8)[7 - k] == Binary(rol, 8)[7 - k];
        assert Digit(Bit(dst, k)) == Digit(Bit(rol, k));
      }
      ByteBitsDetermineValue(dst, rol);
    }
  }

  /** The assertROL assertions hold of exactly one result byte and one N, Z, V, C: the ROL of the source. */
  lemma RolOracleExact(src: Byte, dst: Byte, carry: bool, cc: Flags)
    ensures RolOracle(src, dst, carry, cc) <==> dst == Rol(src, carry).value && FlagsAgree(cc, Rol(src, carry))
  {
    RolBinaryExact(src, dst, carry);
    RolFlags(src, carry);
    HighBits(src);
  }

  /**
    test_ASRA_inherent: for every byte i, write i to A, clear CC, run LSRA
    at 0x1000 and check the LSRA assertions. The test passes.
  */
  method TestAsraInherent() returns (passed: bool)
    ensures passed
  {
    var cpu := new Cpu();
    for i := 0 to 0x100 {
      var _ := cpu.accuA.Set(i);
      cpu.cc.Set(0x00);
      ghost var before := cpu.Snapshot().(pc := 0x1000);
      var _ := cpu.RunOne(0x1000, LSRA);
      var r := cpu.accuA.Get();
      StepLsra(before);
      if !LsraOracle(i, r, cpu.cc.Snapshot()) {
        return false;
      }
    }
    return true;
  }

  /**
    test_ASLA_inherent: for every i from 0 to 259, write i to A (which keeps
    i & 0xff), clear CC, run ASLA at 0x1000 and check the ASLA assertions
    against i itself. The test passes.
  */
  method TestAslaInherent() returns (passed: bool)
    ensures passed
  {
    var cpu := new Cpu();
    for i := 0 to 260 {
      var _ := cpu.accuA.Set(i);
      cpu.cc.Set(0x00);
      var _ := cpu.RunOne(0x1000, ASLA);
      var r := cpu.accuA.Get();
      AslaOracleExact(i, r, cpu.cc.Snapshot());
      if !AslaOracle(i, r, cpu.cc.Snapshot()) {
        return false;
      }
    }
    return true;
  }

  /**
    test_ROLA_with_clear_carry: for every byte, clear CC, write the byte to
    A, run ROLA at 0x0000, check assertROL with carry 0 and that H is still
    0. The test passes.
  */
  method TestRolaWithClearCarry() returns (passed: bool)
    ensures passed
  {
    var cpu := new Cpu();
    for i := 0 to 0x100 {
      cpu.cc.Set(0x00);
      var a := cpu.accuA.Set(i);
      var _ := cpu.RunOne(0x0000, ROLA);
      var r := cpu.accuA.Get();
      UnpackClearsAll();
      RolOracleExact(a, r, false, cpu.cc.Snapshot());
      if !RolOracle(a, r, false, cpu.cc.Snapshot()) || cpu.cc.h {
        return false;
      }
    }
    return true;
  }

  /**
    test_ROLA_with_set_carry: for every byte, set every CC flag, write the
    byte to A, run ROLA at 0x0000, check assertROL with carry 1 and that H
    is still 1. The test passes.
  */
  method TestRolaWithSetCarry() returns (passed: bool)
    ensures passed
  {
    var cpu := new Cpu();
    for i := 0 to 0x100 {
      cpu.cc.Set(0xff);
      var a := cpu.accuA.Set(i);
      var _ := cpu.RunOne(0x0000, ROLA);
      var r := cpu.accuA.Get();
      UnpackSetsAll();
      RolOracleExact(a, r, true, cpu.cc.Snapshot());
      if !RolOracle(a, r, true, cpu.cc.Snapshot()) || !cpu.cc.h {
        return false;
      }
    }
    return true;
  }
}
