/** A simulated port expander standing in for the chip behind /dev/spidev:
    it answers one 3-byte frame at a time (spi_transfer in pfio.c), keeps a
    byte per register address, presents the raw level of the input pins at
    the input port, and records every frame it receives. */
module Expander {
  import opened Protocol

  /** A register file that holds a byte for every 8-bit address.  It is
      keyed by the address's numeric value. */
  ghost predicate Total(regs: map<int, bv8>) {
    forall k :: 0 <= k < 256 ==> k in regs
  }

  /** The byte the chip reports for register `addr`: the pin levels for the
      input port, the stored byte for every other register. */
  function Peek(layout: Layout, regs: map<int, bv8>, rawInput: bv8, addr: bv8): bv8
    requires Total(regs)
  {
    if addr as int == layout.inputPort as int then rawInput else regs[addr as int]
  }

  /** The register file after the chip has received `frame`: a write frame
      stores its data byte in its register, any other frame stores nothing. */
  function Execute(layout: Layout, regs: map<int, bv8>, frame: Frame): (r: map<int, bv8>)
    requires Total(regs)
    ensures Total(r)
  {
    if frame[0] == layout.writeCmd then regs[frame[1] as int := frame[2]] else regs
  }

  /** Padding the chip shifts out where it has nothing to report. */
  const Idle: bv8 := 0x00

  /** The bytes the chip shifts back while receiving `frame`: for a read
      frame the requested register's byte in position 2. */
  function Reply(layout: Layout, regs: map<int, bv8>, rawInput: bv8, frame: Frame): Frame
    requires Total(regs)
  {
    if frame[0] == layout.readCmd then [Idle, Idle, Peek(layout, regs, rawInput, frame[1])]
    else [Idle, Idle, Idle]
  }

  /** A write frame changes exactly the register it names. */
  lemma WriteFrameEffect(layout: Layout, regs: map<int, bv8>, port: bv8, value: bv8, a: bv8)
    requires layout.Valid() && Total(regs)
    ensures Execute(layout, regs, WriteFrame(layout, port, value))[a as int]
         == if a as int == port as int then value else regs[a as int]
  {
  }

  /** A read frame changes no register, and its reply carries the register
      it names in byte 2. */
  lemma ReadFrameEffect(layout: Layout, regs: map<int, bv8>, rawInput: bv8, port: bv8)
    requires layout.Valid() && Total(regs)
    ensures Execute(layout, regs, ReadFrame(layout, port)) == regs
    ensures Reply(layout, regs, rawInput, ReadFrame(layout, port))[2]
         == Peek(layout, regs, rawInput, port)
  {
  }

  /** Reading back a register other than the input port after writing it
      gives the value written. */
  lemma WriteThenRead(layout: Layout, regs: map<int, bv8>, rawInput: bv8, port: bv8, value: bv8)
    requires layout.Valid() && Total(regs) && port as int != layout.inputPort as int
    ensures Reply(layout, Execute(layout, regs, WriteFrame(layout, port, value)), rawInput,
                  ReadFrame(layout, port))[2] == value
  {
  }

  class Chip {
    /** The register map and opcodes the chip implements. */
    const layout: Layout
    /** One byte per register address. */
    var regs: map<int, bv8>
    /** The level of the eight input pins (1 = line pulled up, not driven). */
    var rawInput: bv8
    /** Every frame received so far, oldest first. */
    var log: seq<Frame>

    ghost predicate Valid()
      reads this
    {
      layout.Valid() && Total(regs)
    }

    constructor (layout: Layout, regs: map<int, bv8>, rawInput: bv8)
      requires layout.Valid() && Total(regs)
      ensures Valid()
      ensures this.layout == layout && this.regs == regs && this.rawInput == rawInput
      ensures log == []
    {
      this.layout := layout;
      this.regs := regs;
      this.rawInput := rawInput;
      log := [];
    }

    /** spi_transfer: one full-duplex exchange of a 3-byte frame from `tx`,
        the reply landing in `rx`. */
    method Transfer(tx: array<bv8>, rx: array<bv8>)
      requires Valid()
      requires tx.Length == FrameLen && rx.Length == FrameLen && tx != rx
      modifies this, rx
      ensures Valid()
      ensures log == old(log) + [old(tx[..])]
      ensures regs == Execute(layout, old(regs), old(tx[..]))
      ensures rawInput == old(rawInput)
      ensures rx[..] == Reply(layout, old(regs), rawInput, old(tx[..]))
    {
      var frame: Frame := tx[..];
      var reply := Reply(layout, regs, rawInput, frame);
      rx[0], rx[1], rx[2] := reply[0], reply[1], reply[2];
      regs := Execute(layout, regs, frame);
      log := log + [frame];
    }
  }
}
