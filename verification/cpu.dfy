/**
  Single-step execution of the inherent-mode accumulator-A shift and rotate
  instructions LSRA (0x44), ASLA/LSLA (0x48) and ROLA (0x49). Each one
  reads A, runs the shift/rotate unit, writes the result back to A, writes
  N, Z, V and C, and leaves H, E, F and I alone; the program counter moves
  past the one opcode byte. Any other opcode byte is reported as invalid
  and nothing changes.
*/
module Cpu6809 {
  import opened Bits
  import opened Registers
  import opened Alu

  const LSRA: Byte := 0x44
  const ASLA: Byte := 0x48
  const ROLA: Byte := 0x49

  /** The part of the CPU state the instructions read or write. */
  datatype State = State(a: Byte, cc: Flags, pc: Word)

  /** What one step did: executed, giving the next state, or stopped on an opcode it does not know. */
  datatype Outcome = Executed(next: State) | InvalidOpcode(opcode: Byte, pc: Word)

  /** The state after an instruction on A that gave r: A and N, Z, V, C from r, PC one byte further. */
  function WriteBack(s: State, r: ShiftResult): State
  {
    State(r.value, s.cc.(n := r.n, z := r.z, v := r.v, c := r.c), (s.pc + 1) % 0x1_0000)
  }

  /** One instruction: the opcode byte at PC, taken in state s. */
  function Step(s: State, opcode: Byte): (o: Outcome)
    ensures o.Executed? <==> opcode in {LSRA, ASLA, ROLA}
    ensures o.InvalidOpcode? ==> o.opcode == opcode && o.pc == s.pc
    ensures o.Executed? ==> o.next.pc == (s.pc + 1) % 0x1_0000
    ensures o.Executed? ==>
      o.next.cc.h == s.cc.h && o.next.cc.e == s.cc.e && o.next.cc.f == s.cc.f && o.next.cc.i == s.cc.i
  {
    if opcode == LSRA then Executed(WriteBack(s, Lsr(s.a)))
    else if opcode == ASLA then Executed(WriteBack(s, Asl(s.a)))
    else if opcode == ROLA then Executed(WriteBack(s, Rol(s.a, s.cc.c)))
    else InvalidOpcode(opcode, s.pc)
  }

  /** LSRA writes A >> 1 and the LSR flags, whatever the state it starts from. */
  lemma StepLsra(s: State)
    ensures Step(s, LSRA).Executed?
    ensures Step(s, LSRA).next.a == s.a / 2
    ensures Step(s, LSRA).next.cc.c == (s.a % 2 == 1)
    ensures !Step(s, LSRA).next.cc.v && !Step(s, LSRA).next.cc.n
    ensures Step(s, LSRA).next.cc.z <==> s.a < 2
  {
    LsrFlags(s.a);
  }

  /** ASLA writes (A << 1) & 0xff and the ASL flags, whatever the state it starts from. */
  lemma StepAsla(s: State)
    ensures Step(s, ASLA).Executed?
    ensures Step(s, ASLA).next.a == (2 * s.a) % 0x100
    ensures Step(s, ASLA).next.cc.c <==> s.a >= 0x80
    ensures Step(s, ASLA).next.cc.v <==> 0x40 <= s.a <= 0xbf
    ensures Step(s, ASLA).next.cc.n <==> Step(s, ASLA).next.a >= 0x80
    ensures Step(s, ASLA).next.cc.z <==> Step(s, ASLA).next.a == 0
  {
    AslFlags(s.a);
  }

  /** ROLA writes ((A << 1) | C) & 0xff and the ROL flags, whatever the state it starts from. */
  lemma StepRola(s: State)
    ensures Step(s, ROLA).Executed?
    ensures Step(s, ROLA).next.a == (2 * s.a + (if s.cc.c then 1 else 0)) % 0x100
    ensures Step(s, ROLA).next.cc.c <==> s.a >= 0x80
    ensures Step(s, ROLA).next.cc.v <==> 0x40 <= s.a <= 0xbf
    ensures Step(s, ROLA).next.cc.n <==> Step(s, ROLA).next.a >= 0x80
    ensures Step(s, ROLA).next.cc.z <==> Step(s, ROLA).next.a == 0
  {
    RolFlags(s.a, s.cc.c);
  }

  /** The CPU: accumulator A, the CC register and the program counter, all updated in place. */
  class Cpu {
    const accuA: Register8
    const cc: ConditionCodeRegister
    var pc: Word

    /** A CPU with every register zero. */
    constructor ()
      ensures fresh(accuA) && fresh(cc)
      ensures Snapshot() == State(0, Unpack(0x00), 0)
    {
      accuA := new Register8();
      cc := new ConditionCodeRegister();
      pc := 0;
    }

    function Snapshot(): State
      reads this, accuA, cc
    {
      State(accuA.value, cc.Snapshot(), pc)
    }

    /** Executes the instruction whose opcode byte was fetched at PC. */
    method Execute(opcode: Byte) returns (outcome: Outcome)
      modifies this, accuA, cc
      ensures outcome == Step(old(Snapshot()), opcode)
      ensures Snapshot() == if outcome.Executed? then outcome.next else old(Snapshot())
    {
      var src := accuA.Get();
      var r: ShiftResult;
      if opcode == LSRA {
        r := Lsr(src);
      } else if opcode == ASLA {
        r := Asl(src);
      } else if opcode == ROLA {
        r := Rol(src, cc.c);
      } else {
        return InvalidOpcode(opcode, pc);
      }
      var _ := accuA.Set(r.value);
      cc.n, cc.z, cc.v, cc.c := r.n, r.z, r.v, r.c;
      pc := (pc + 1) % 0x1_0000;
      outcome := Executed(Snapshot());
    }

    /**
      Runs a one-instruction program placed at start: PC is set to start and
      the instruction executes once.
    */
    method RunOne(start: Word, opcode: Byte) returns (outcome: Outcome)
      modifies this, accuA, cc
      ensures outcome == Step(old(Snapshot()).(pc := start), opcode)
      ensures Snapshot() == if outcome.Executed? then outcome.next else old(Snapshot()).(pc := start)
    {
      pc := start;
      outcome := Execute(opcode);
    }
  }
}
