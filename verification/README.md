# MC6809 accumulator-A shift and rotate instructions

This project models the part of the DragonPy MC6809 emulator that three
inherent-mode instructions on accumulator A exercise, and proves it
against the contract that `tests/test_6809_arithmetic_shift.py` states:

- **LSRA** (opcode 0x44, which the test calls ASRA): logical shift right.
  Bit 7 becomes 0 and bit 0 goes to C. The model clears V; the test file
  checks only that V is 0 after LSRA from a cleared CC (lines 41 and 70).
  N and Z follow the result.
- **ASLA/LSLA** (0x48): shift left. Bit 0 becomes 0 and bit 7 goes to C.
  V is bit 6 XOR bit 7 of the operand, and N and Z follow the result.
- **ROLA** (0x49): rotate left through carry. The old C goes into bit 0 and
  bit 7 goes to C. V is bit 6 XOR bit 7 of the operand, and N and Z follow the result.

None of the three touches H, E, F or I. The model has five modules:

- `Bits` (bits.dfy): 8- and 16-bit values, bit k of a number
  (`x & 2 ** k != 0`), bit lists, and the binary text `'{0:08b}'.format(x)`.
- `Registers` (registers.dfy): the 8-bit register class (accumulator A),
  whose `Set` masks to 8 bits and returns what it stored. It also holds the
  condition-code register class, with one field per flag, and its packed-byte
  form in the MC6809 layout: C bit 0, V bit 1, Z bit 2, N bit 3, I bit 4,
  H bit 5, F bit 6, E bit 7.
- `Alu` (alu.dfy): LSR, ASL and ROL as pure functions giving the result
  byte and N, Z, V, C, with lemmas in the test's own terms. It also proves
  that ROL through carry is a 9-bit rotation.
- `Cpu6809` (cpu.dfy): the specification function `Step` of one
  instruction. It also holds the `Cpu` class (A, CC, PC) whose `Execute`
  dispatches on the opcode byte and updates the registers in place.
- `ArithmeticShiftTests` (arithmetic_shift_tests.dfy): each test's
  assertions as a predicate, lemmas that each predicate is met by exactly
  the shift/rotate unit's result, and the four test methods as loops over
  a `Cpu`, each proved to pass.

Flags are booleans where the Python code uses 0 and 1. The source of
the CPU class `cpu6809.CPU` lies outside the test file. The model's
`Cpu6809.Cpu` behaves as the test file requires of it.

A note on repeated rotation: ROL through carry rotates the 9-bit quantity
C:A, so nine ROLs in a row, or any multiple of nine, give back both A and C
(`Alu.RolCycle`). Eight ROLs are one rotation right through carry
(`Alu.RolEightIsRotateRight`), so they do not give back the byte in
general. For example, 0x01 with C clear becomes 0x00 with C set.

## Model

| member | source | states |
|---|---|---|
| `Registers.Register8.Set` | tests/test_6809_arithmetic_shift.py:161 | A keeps `v & 0xff` of any integer written to it and returns exactly the stored value, which the ROLA tests reuse as the source operand |
| `Registers.ConditionCodeRegister.Set` | tests/test_6809_arithmetic_shift.py:173 | writing a packed byte loads every flag from its bit, and reading the packed byte back gives the same byte |
| `Registers.UnpackPack` | tests/test_6809_arithmetic_shift.py:41 | unpacking the packed CC byte gives back all eight flags |
| `Registers.PackUnpack` | tests/test_6809_arithmetic_shift.py:173 | packing the flags of any byte gives back that byte |
| `Registers.UnpackClearsAll` | tests/test_6809_arithmetic_shift.py:160 | `cc.set(0x00)` clears every flag, H included |
| `Registers.UnpackSetsAll` | tests/test_6809_arithmetic_shift.py:173 | `cc.set(0xff)` sets every flag, C and H included |
| `Bits.Binary` | tests/test_6809_arithmetic_shift.py:120-121 | the 8-digit binary text of a byte has 8 characters, and character j is the digit of bit 7 - j |
| `Alu.Lsr` | tests/test_6809_arithmetic_shift.py:53-54 | LSR loses no bit: twice the result plus C gives back the operand, and the result is below 0x80 |
| `Alu.Asl` | tests/test_6809_arithmetic_shift.py:91-92 | ASL loses no bit: the result with C as bit 8 is twice the operand, and the result is even |
| `Alu.Rol` | tests/test_6809_arithmetic_shift.py:128-129 | ROL loses no bit: the result with C as bit 8 is twice the operand plus the incoming carry |
| `Alu.LsrShiftsBits` | tests/test_6809_arithmetic_shift.py:52-55 | LSR moves each bit k + 1 of the operand to bit k and clears bit 7 |
| `Alu.LsrFlags` | tests/test_6809_arithmetic_shift.py:57-74 | after LSR, C is the old bit 0, V and N are clear, and Z is set exactly for the operands 0 and 1 |
| `Alu.AslShiftsBits` | tests/test_6809_arithmetic_shift.py:90-93 | ASL moves each bit k of the operand to bit k + 1 and clears bit 0 |
| `Alu.AslFlags` | tests/test_6809_arithmetic_shift.py:95-117 | after ASL, C is set exactly for operands 0x80..0xff, V exactly for 0x40..0xbf (bit 6 XOR bit 7), N exactly when the result is at least 0x80, Z exactly when it is 0 |
| `Alu.RolShiftsBits` | tests/test_6809_arithmetic_shift.py:128-130 | ROL moves each bit k of the operand to bit k + 1 and the incoming carry to bit 0 |
| `Alu.RolFlags` | tests/test_6809_arithmetic_shift.py:132-156 | after ROL, C is set exactly for operands 0x80..0xff, V exactly for 0x40..0xbf (bit 6 XOR bit 7), N exactly when the result is at least 0x80, Z exactly when it is 0 |
| `Alu.AslIsRolWithoutCarry` | tests/test_6809_arithmetic_shift.py:90-117 | ASL gives the same result and flags as ROL with the carry clear |
| `Alu.RolCycle` | tests/test_6809_arithmetic_shift.py:128-130 | any multiple of nine ROLs, each fed the previous carry, gives back both the byte and the carry |
| `Alu.RolEightIsRotateRight` | tests/test_6809_arithmetic_shift.py:128-130 | 9m + 8 ROLs leave `x >> 1` with the old carry in bit 7, and the old bit 0 in C |
| `Cpu6809.Step` | tests/test_6809_arithmetic_shift.py:42-177 | one step executes exactly the opcodes 0x44, 0x48 and 0x49, which the test runs at lines 42-44 (0x44), 80-82 (0x48), 162-164 and 175-177 (0x49). It moves PC one byte on and leaves H, E, F and I as they were. Any other opcode is reported as invalid together with the PC it was fetched at |
| `Cpu6809.StepLsra` | tests/test_6809_arithmetic_shift.py:39-74 | from any state, LSRA leaves A = A >> 1, C = old bit 0, V and N clear, and Z set exactly when the old A was below 2 |
| `Cpu6809.StepAsla` | tests/test_6809_arithmetic_shift.py:77-117 | from any state, ASLA leaves A = (A << 1) & 0xff, with C, V, N and Z as in `AslFlags` |
| `Cpu6809.StepRola` | tests/test_6809_arithmetic_shift.py:158-179 | from any state, ROLA leaves A = ((A << 1) \| C) & 0xff, with C, V, N and Z as in `RolFlags` |
| `Cpu6809.Cpu.Execute` | tests/test_6809_arithmetic_shift.py:42-45 | executing an opcode updates A, CC and PC in place to exactly the state `Step` gives, or changes nothing for an invalid opcode |
| `Cpu6809.Cpu.RunOne` | tests/test_6809_arithmetic_shift.py:162-165 | running a one-instruction program at a start address sets PC to that address and executes the instruction once |
| `ArithmeticShiftTests.LsraOracleExact` | tests/test_6809_arithmetic_shift.py:52-74 | the LSRA assertions hold exactly when the result byte and N, Z, V, C are those of LSR on the operand |
| `ArithmeticShiftTests.MaskedOperand` | tests/test_6809_arithmetic_shift.py:77-78 | for i from 0 to 259, `(i << 1) & 0xff` and the V and C ranges the test checks read the same on i as on `i & 0xff` |
| `ArithmeticShiftTests.AslaOracleExact` | tests/test_6809_arithmetic_shift.py:90-117 | for every i from 0 to 259, the ASLA assertions on i hold exactly when the result byte and N, Z, V, C are those of ASL on `i & 0xff` |
| `ArithmeticShiftTests.RolBinaryExact` | tests/test_6809_arithmetic_shift.py:128-130 | the binary-text comparison of `assertROL` holds exactly when the result byte is the ROL of the source with that carry in |
| `ArithmeticShiftTests.RolOracleExact` | tests/test_6809_arithmetic_shift.py:119-156 | all `assertROL` assertions hold exactly when the result byte and N, Z, V, C are those of ROL on the source with that carry in |
| `ArithmeticShiftTests.TestAsraInherent` | tests/test_6809_arithmetic_shift.py:39-74 | writing every byte to A, clearing CC and executing 0x44 meets every LSRA assertion |
| `ArithmeticShiftTests.TestAslaInherent` | tests/test_6809_arithmetic_shift.py:77-117 | writing every i from 0 to 259 to A, clearing CC and executing 0x48 meets every ASLA assertion, checked against i itself |
| `ArithmeticShiftTests.TestRolaWithClearCarry` | tests/test_6809_arithmetic_shift.py:158-169 | for every byte, ROLA after `cc.set(0x00)` meets `assertROL` with carry 0 and leaves H at 0 |
| `ArithmeticShiftTests.TestRolaWithSetCarry` | tests/test_6809_arithmetic_shift.py:171-182 | for every byte, ROLA after `cc.set(0xff)` meets `assertROL` with carry 1 and leaves H at 1 |

## Left out

- Memory loading and instruction fetch inside `cpu_test_run`. Memory is not modelled: `Cpu.RunOne` takes the single opcode byte of the one-instruction program directly.
- Cycle counting. The test file asserts nothing about it.
- Opcodes other than 0x44, 0x48 and 0x49, and the other addressing modes (direct, indexed, extended). They are reported as invalid opcodes, because the test file does not constrain them.
- Accumulator B, the 16-bit registers other than PC, interrupts, and the sign-preserving ASR. The test file does not constrain them.
- The Dragon32 machine configuration and memory information (`Dragon32Cfg`, `DragonMemInfo`). The test file imports them (lines 16-17) but asserts nothing about them.
- The unittest harness, the test runner, the logging setup, the trace-file switch in the `__main__` block, and the commented-out debug printing. These are I/O and tooling.
- `accu_a.set` is defined in cpu6809.py, outside this model; the model follows the test's use of it (line 161). It masks every integer with `v % 0x100`, which equals Python's `v & 0xff`. cpu6809.py may also log a warning when a value needs masking; logging is left out.
- Alu.Lsr: the model clears V on every LSR, where Motorola's MC6809 programming manual leaves V unchanged by LSR. The test file cannot tell the two apart, because it writes 0x00 to CC before every LSRA (line 41) and then checks V against 0 (line 70).
- Alu.Asl: keeps H, where Motorola's manual calls H undefined after ASL; the test file asserts nothing about H after ASLA.
