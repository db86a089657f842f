/**
 * The register bus the driver talks to: one I2C device seen as a file of
 * 8-bit registers.  A single-byte read returns the register, a write
 * replaces it, and a block read copies the bytes the bus delivered into a
 * caller's buffer.  Every bus transaction is recorded in a ghost trace, so
 * that the driver's contracts can say which transactions an operation
 * issues and in what order.
 */
module I2C {

  /** A register address of the device. */
  type RegAddr = a: int | 0 <= a < 0x100

  /** The map giving every address below `n` the value `v`. */
  function Filled(n: nat, v: bv8): (m: map<RegAddr, bv8>)
    requires n <= 0x100
    ensures forall a: RegAddr :: a in m <==> a < n
    ensures forall a: RegAddr :: a in m ==> m[a] == v
  {
    if n == 0 then map[] else Filled(n - 1, v)[n - 1 := v]
  }

  /** The contents of the device: a byte at every register address. */
  type RegFile = m: map<RegAddr, bv8> | forall a: RegAddr :: a in m
    witness Filled(0x100, 0)

  /** One bus transaction. */
  datatype Transfer =
    | ReadByte(reg: RegAddr)
    | WriteByte(reg: RegAddr, value: bv8)
    | ReadBlock(reg: RegAddr, size: nat)

  /** The device at one bus address. */
  class I2CDevice {
    var regs: RegFile
    ghost var trace: seq<Transfer>

    constructor (init: RegFile)
      ensures regs == init && trace == []
    {
      regs := init;
      trace := [];
    }

    /** A single-byte read of register `reg`. */
    method Read(reg: RegAddr) returns (v: bv8)
      modifies this`trace
      ensures v == regs[reg]
      ensures trace == old(trace) + [ReadByte(reg)]
    {
      v := regs[reg];
      trace := trace + [ReadByte(reg)];
    }

    /** A single-byte write of `v` to register `reg`. */
    method Write(reg: RegAddr, v: bv8)
      modifies this
      ensures regs == old(regs)[reg := v]
      ensures trace == old(trace) + [WriteByte(reg, v)]
    {
      regs := regs[reg := v];
      trace := trace + [WriteByte(reg, v)];
    }

    /**
     * One multi-byte read of `size` bytes starting at register `reg` into
     * `buffer[offset..]`.  What the bus delivers, `reply`, comes from the
     * hardware and may be shorter than requested; only those bytes are
     * stored, and their number is returned.
     */
    method ReadInto(reg: RegAddr, buffer: array<bv8>, offset: nat, size: nat, reply: seq<bv8>)
      returns (count: int)
      requires offset + size <= buffer.Length
      requires |reply| <= size
      modifies this`trace, buffer
      ensures count == |reply|
      ensures buffer[..] == old(buffer[..offset]) + reply + old(buffer[offset + |reply|..])
      ensures trace == old(trace) + [ReadBlock(reg, size)]
    {
      var i := 0;
      while i < |reply|
        invariant 0 <= i <= |reply|
        invariant buffer[..offset] == old(buffer[..offset])
        invariant buffer[offset..offset + i] == reply[..i]
        invariant buffer[offset + i..] == old(buffer[offset + i..])
        invariant trace == old(trace)
      {
        buffer[offset + i] := reply[i];
        i := i + 1;
      }
      assert buffer[..] == buffer[..offset] + buffer[offset..offset + i] + buffer[offset + i..];
      count := |reply|;
      trace := trace + [ReadBlock(reg, size)];
    }

    /**
     * The sensor itself latching a new value into a register (a status flag
     * or a measurement); this is not a bus transaction.
     */
    method Latch(reg: RegAddr, v: bv8)
      modifies this`regs
      ensures regs == old(regs)[reg := v]
    {
      regs := regs[reg := v];
    }
  }
}
