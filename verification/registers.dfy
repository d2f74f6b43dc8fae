/**
  The part of the MC6809 register file that the shift and rotate
  instructions touch: the 8-bit accumulator A and the condition-code
  register CC. CC holds eight flags, readable and writable one by one or
  as one packed byte with C in bit 0, V in bit 1, Z in bit 2, N in bit 3,
  I in bit 4, H in bit 5, F in bit 6 and E in bit 7.
*/
module Registers {
  import opened Bits

  /** The eight CC flags as a value; each flag is true when it is 1. */
  datatype Flags = Flags(e: bool, f: bool, h: bool, i: bool, n: bool, z: bool, v: bool, c: bool)

  /** The flags in CC bit order, bit 0 (C) first. */
  function FlagBits(fl: Flags): seq<bool>
  {
    [fl.c, fl.v, fl.z, fl.n, fl.i, fl.h, fl.f, fl.e]
  }

  /** The flags whose bits, in CC bit order, are bs. */
  function FlagsOf(bs: seq<bool>): Flags
    requires |bs| == 8
  {
    Flags(bs[7], bs[6], bs[5], bs[4], bs[3], bs[2], bs[1], bs[0])
  }

  /** The packed CC byte. */
  function Pack(fl: Flags): Byte
  {
    ByteWidth();
    FromBits(FlagBits(fl))
  }

  /** The flags a packed CC byte stands for: flag k of CC bit order is bit k of b. */
  function Unpack(b: Byte): (fl: Flags)
    ensures FlagBits(fl) == ToBits(b, 8)
  {
    FlagsOf(ToBits(b, 8))
  }

  /** Unpacking a packed CC byte gives back every flag. */
  lemma UnpackPack(fl: Flags)
    ensures Unpack(Pack(fl)) == fl
  {
    ToFromBits(FlagBits(fl));
  }

  /** Packing the flags of a byte gives back the byte. */
  lemma PackUnpack(b: Byte)
    ensures Pack(Unpack(b)) == b
  {
    ByteWidth();
    FromToBits(b, 8);
  }

  /** Writing 0x00 to CC clears every flag. */
  lemma UnpackClearsAll()
    ensures Unpack(0x00) == Flags(false, false, false, false, false, false, false, false)
  {
    forall k: nat ensures !Bit(0, k) {
      BitOfZero(k);
    }
  }

  /** Writing 0xff to CC sets every flag, C and H included. */
  lemma UnpackSetsAll()
    ensures Unpack(0xff) == Flags(true, true, true, true, true, true, true, true)
  {
    var all := Flags(true, true, true, true, true, true, true, true);
    assert Pack(all) == 0xff by {
      assert FlagBits(all) == [true, true, true, true, true, true, true, true];
    }
    UnpackPack(all);
  }

  /** An 8-bit register such as accumulator A; every write is masked to 8 bits. */
  class Register8 {
    var value: Byte

    constructor ()
      ensures value == 0
    {
      value := 0;
    }

    /** Stores v & 0xff and returns the stored value. */
    method Set(v: int) returns (stored: Byte)
      modifies this
      ensures value == v % 0x100
      ensures stored == value
    {
      value := v % 0x100;
      stored := value;
    }

    function Get(): Byte
      reads this
    {
      value
    }
  }

  /** The condition-code register, one field per flag. */
  class ConditionCodeRegister {
    var e: bool, f: bool, h: bool, i: bool, n: bool, z: bool, v: bool, c: bool

    constructor ()
      ensures Snapshot() == Unpack(0x00)
    {
      e, f, h, i, n, z, v, c := false, false, false, false, false, false, false, false;
      UnpackClearsAll();
    }

    /** The current flags as a value. */
    function Snapshot(): Flags
      reads this
    {
      Flags(e, f, h, i, n, z, v, c)
    }

    /** Loads every flag from a packed byte. */
    method Set(status: Byte)
      modifies this
      ensures Snapshot() == Unpack(status)
      ensures Get() == status
    {
      var fl := Unpack(status);
      e, f, h, i, n, z, v, c := fl.e, fl.f, fl.h, fl.i, fl.n, fl.z, fl.v, fl.c;
      PackUnpack(status);
    }

    /** The packed byte; unpacking it gives the current flags. */
    function Get(): (status: Byte)
      reads this
      ensures Unpack(status) == Snapshot()
    {
      UnpackPack(Snapshot());
      Pack(Snapshot())
    }
  }
}
