/** pfio.c: the PiFace session.  The global `spi` handle becomes a `Session`
    object that owns the bus settings read at start-up and talks to a
    simulated expander `Chip`; each pfio_ operation is a method whose
    contract gives the frames it sends, the registers it leaves behind and
    the value it returns. */
module Pfio {
  import opened PinBits
  import opened Protocol
  import opened Expander

  datatype Option<T> = None | Some(value: T)

  /** pfio_read_input's correction: the pins read as 1 when their line is
      not pulled low, so every bit is flipped (XOR with 0xFF).  The result
      is the complement: no bit is set in both, and each bit in one. */
  function Invert(raw: bv8): (v: bv8)
    ensures v & raw == 0 && v | raw == 0xFF
  {
    raw ^ 0xFF
  }

  /** Each bit of the corrected inputs is the opposite of the raw bit. */
  lemma InvertBit(raw: bv8, i: nat)
    requires i < 8
    ensures Bit(Invert(raw), i) <==> !Bit(raw, i)
  {
  }

  /** pfio_digital_read's test on the corrected inputs: the bits of the pin's
      mask are all set.  A pin of 8 or more has the empty mask, which always
      passes. */
  function PinIsOn(inputs: bv8, pin: nat): (on: bool)
    requires pin < IntBits
    ensures pin < 8 ==> (on <==> Bit(inputs, pin))
    ensures pin >= 8 ==> on
  {
    inputs & PinMask(pin) == PinMask(pin)
  }

  /** pfio_digital_write's new output byte: the pin's bit set when `value`
      is positive, cleared otherwise, and every bit outside the pin's mask
      as before.  `value` is the numeric value of the C `char` argument. */
  function WritePin(current: bv8, pin: nat, value: int): (r: bv8)
    requires pin < IntBits
    ensures r & !PinMask(pin) == current & !PinMask(pin)
    ensures value > 0 ==> r & PinMask(pin) == PinMask(pin)
    ensures value <= 0 ==> r & PinMask(pin) == 0
  {
    if value > 0 then current | PinMask(pin) else current & !PinMask(pin)
  }

  /** Bit by bit: WritePin sets or clears the pin's bit and keeps every
      other bit; a pin of 8 or more changes nothing. */
  lemma WritePinBit(current: bv8, pin: nat, value: int, i: nat)
    requires pin < IntBits && i < 8
    ensures Bit(WritePin(current, pin, value), i) <==> if i == pin then value > 0 else Bit(current, i)
  {
    PinMaskBit(pin, i);
  }

  /** A digital read reports a pin as on exactly when its raw input line
      is low. */
  lemma DigitalReadIsActiveLow(raw: bv8, pin: nat)
    requires pin < 8
    ensures PinIsOn(Invert(raw), pin) <==> !Bit(raw, pin)
  {
  }

  /** Writing a pin twice leaves only the second value: the later write
      decides the pin, and the first has no other trace. */
  lemma WritePinOverwrites(current: bv8, pin: nat, first: int, second: int)
    requires pin < IntBits
    ensures WritePin(WritePin(current, pin, first), pin, second) == WritePin(current, pin, second)
  {
    if second > 0 {
      assert WritePin(current, pin, second) == current | PinMask(pin);
    } else {
      assert WritePin(current, pin, second) == current & !PinMask(pin);
    }
  }

  /** The output register of a register file. */
  function OutputOf(layout: Layout, regs: map<int, bv8>): bv8
    requires Total(regs)
  {
    regs[layout.outputPort as int]
  }

  /** The register file after the five configuration writes of pfio_init. */
  function Configured(layout: Layout, regs: map<int, bv8>): (r: map<int, bv8>)
    requires Total(regs)
    ensures Total(r)
  {
    regs[layout.iocon as int := 8]
        [layout.gpioa as int := 0x00]
        [layout.iodira as int := 0]
        [layout.iodirb as int := 0xFF]
        [layout.gppub as int := 0xFF]
  }

  /** The frames of the five configuration writes of pfio_init, in order:
      hardware addressing on, port A cleared, port A all outputs, port B all
      inputs, port B pull-ups on. */
  function ConfigFrames(layout: Layout): seq<Frame> {
    [ WriteFrame(layout, layout.iocon, 8),
      WriteFrame(layout, layout.gpioa, 0x00),
      WriteFrame(layout, layout.iodira, 0),
      WriteFrame(layout, layout.iodirb, 0xFF),
      WriteFrame(layout, layout.gppub, 0xFF) ]
  }

  /** The output byte after pfio_digital_write(i, 0) for i = 1..n, from `v`. */
  function ClearedOutput(v: bv8, n: nat): bv8
    requires n <= 8
  {
    if n == 0 then v else WritePin(ClearedOutput(v, n - 1), n, 0)
  }

  /** The frames of pfio_digital_write(i, 0) for i = 1..n: a read of the
      output port, then a write of the updated byte. */
  function ClearFrames(layout: Layout, v: bv8, n: nat): seq<Frame>
    requires n <= 8
  {
    if n == 0 then []
    else ClearFrames(layout, v, n - 1)
         + [ReadFrame(layout, layout.outputPort), WriteFrame(layout, layout.outputPort, ClearedOutput(v, n))]
  }

  /** The register file after a successful pfio_init. */
  function InitRegisters(layout: Layout, regs: map<int, bv8>): (r: map<int, bv8>)
    requires Total(regs)
    ensures Total(r)
  {
    var c := Configured(layout, regs);
    c[layout.outputPort as int := ClearedOutput(OutputOf(layout, c), 8)]
  }

  /** Every frame a successful pfio_init sends, in order. */
  function InitFrames(layout: Layout, regs: map<int, bv8>): seq<Frame>
    requires Total(regs)
  {
    ConfigFrames(layout) + ClearFrames(layout, OutputOf(layout, Configured(layout, regs)), 8)
  }

  /** Clearing pins 1..n clears exactly bits 1..n (bit 8 and up do not
      exist in a byte) and keeps the rest. */
  lemma {:induction false} ClearedOutputBits(v: bv8, n: nat, i: nat)
    requires n <= 8 && i < 8
    ensures Bit(ClearedOutput(v, n), i) <==> Bit(v, i) && !(1 <= i <= n)
  {
    if n > 0 {
      ClearedOutputBits(v, n - 1, i);
      WritePinBit(ClearedOutput(v, n - 1), n, 0, i);
    }
  }

  /** The last round of the clearing loop, for pin 8, has the empty mask:
      it writes back the byte it read. */
  lemma LastClearIsNoOp(v: bv8)
    ensures ClearedOutput(v, 8) == ClearedOutput(v, 7)
  {
  }

  /** The clearing loop sends 2n frames: for each pin a read of the output
      port followed by the write of the new output byte. */
  lemma {:induction false} ClearFramesShape(layout: Layout, v: bv8, n: nat, k: nat)
    requires n <= 8 && k < n
    ensures |ClearFrames(layout, v, n)| == 2 * n
    ensures ClearFrames(layout, v, n)[2 * k] == ReadFrame(layout, layout.outputPort)
    ensures ClearFrames(layout, v, n)[2 * k + 1] == WriteFrame(layout, layout.outputPort, ClearedOutput(v, k + 1))
  {
    if k < n - 1 {
      ClearFramesShape(layout, v, n - 1, k);
    } else if n > 1 {
      ClearFramesShape(layout, v, n - 1, 0);
    }
  }

  /** After a successful pfio_init the output bits 1..7 are 0.  When the
      output port is port A's data register, which the configuration writes
      have just set to 0, the whole output byte is 0; otherwise bit 0 keeps
      its earlier value, because the loop clears pins 1..8, not 0..7. */
  lemma InitOutputs(layout: Layout, regs: map<int, bv8>)
    requires layout.Valid() && Total(regs)
    ensures forall i :: 1 <= i < 8 ==> !Bit(OutputOf(layout, InitRegisters(layout, regs)), i)
    ensures layout.outputPort as int == layout.gpioa as int ==> OutputOf(layout, InitRegisters(layout, regs)) == 0
    ensures layout.outputPort as int != layout.gpioa as int ==>
              (Bit(OutputOf(layout, InitRegisters(layout, regs)), 0) <==> Bit(OutputOf(layout, regs), 0))
  {
    var v := OutputOf(layout, Configured(layout, regs));
    var w := OutputOf(layout, InitRegisters(layout, regs));
    assert w == ClearedOutput(v, 8);
    forall i | 0 <= i < 8
      ensures Bit(w, i) <==> Bit(v, i) && i == 0
    {
      ClearedOutputBits(v, 8, i);
    }
    if layout.outputPort as int == layout.gpioa as int {
      assert v == 0;
      ZeroIffNoBitSet(w);
    } else {
      assert v == OutputOf(layout, regs);
    }
  }

  /** After a successful pfio_init the configuration registers hold the
      values written, port A's data register is 0, the input port is
      untouched, and every register pfio_init does not name keeps its value. */
  lemma InitConfiguration(layout: Layout, regs: map<int, bv8>, a: int)
    requires layout.Valid() && Total(regs) && 0 <= a < 256
    ensures InitRegisters(layout, regs)[layout.iocon as int] == 8
    ensures InitRegisters(layout, regs)[layout.gpioa as int] == 0
    ensures InitRegisters(layout, regs)[layout.iodira as int] == 0
    ensures InitRegisters(layout, regs)[layout.iodirb as int] == 0xFF
    ensures InitRegisters(layout, regs)[layout.gppub as int] == 0xFF
    ensures InitRegisters(layout, regs)[layout.inputPort as int] == regs[layout.inputPort as int]
    ensures a !in {layout.iocon as int, layout.gpioa as int, layout.iodira as int, layout.iodirb as int,
                   layout.gppub as int, layout.outputPort as int}
            ==> InitRegisters(layout, regs)[a] == regs[a]
  {
  }

  /** A successful pfio_init sends 21 frames: the five configuration writes
      first, in order, then eight read/write pairs on the output port. */
  lemma InitFrameCount(layout: Layout, regs: map<int, bv8>)
    requires Total(regs)
    ensures |InitFrames(layout, regs)| == 21
    ensures InitFrames(layout, regs)[..5] == ConfigFrames(layout)
  {
    ClearFramesShape(layout, OutputOf(layout, Configured(layout, regs)), 8, 0);
  }

  /** What the host reports at each step pfio_init takes before it talks to
      the chip: whether malloc succeeded, whether the device path fitted its
      buffer, the result of open, and the replies of the three ioctl queries
      (None when the query failed). */
  datatype HostReplies = HostReplies(
    allocOk: bool,
    pathFits: bool,
    openResult: int,
    mode: Option<bv8>,
    bitsPerWord: Option<bv8>,
    maxSpeed: Option<int>)
  {
    /** open is attempted. */
    predicate ReachesOpen() { allocOk && pathFits }
    /** The device is open and the mode query is attempted. */
    predicate Opened() { ReachesOpen() && openResult >= 0 }
    /** Each query in turn answered, so its result is stored. */
    predicate HasMode() { Opened() && mode.Some? }
    predicate HasBitsPerWord() { HasMode() && bitsPerWord.Some? }
    predicate HasMaxSpeed() { HasBitsPerWord() && maxSpeed.Some? }
  }

  /** pfio_init's failure code: -1 as a `char`. */
  const InitFailed: bv8 := 0xFF

  class Session {
    /** The pfio.h constants this session uses. */
    const layout: Layout
    /** The expander at the other end of the bus. */
    const chip: Chip
    /** The fields of the `Spi` structure. */
    var fd: int
    var mode: bv8
    var bitsPerWord: bv8
    var maxSpeed: int

    ghost predicate Valid()
      reads this, chip
    {
      chip.Valid() && chip.layout == layout
    }

    /** The session before pfio_init: no device open. */
    constructor (chip: Chip)
      requires chip.Valid()
      ensures Valid() && this.chip == chip && layout == chip.layout
      ensures fd == -1 && mode == 0 && bitsPerWord == 0 && maxSpeed == 0
    {
      this.chip := chip;
      layout := chip.layout;
      fd, mode, bitsPerWord, maxSpeed := -1, 0, 0, 0;
    }

    /** spi_write: sends {SPI_WRITE_CMD, port, value} and ignores the reply. */
    method SpiWrite(port: bv8, value: bv8)
      requires Valid()
      modifies chip
      ensures Valid()
      ensures chip.log == old(chip.log) + [WriteFrame(layout, port, value)]
      ensures chip.regs == old(chip.regs)[port as int := value]
      ensures chip.rawInput == old(chip.rawInput)
    {
      var tx := new bv8[FrameLen][layout.writeCmd, port, value];
      var rx := new bv8[FrameLen];
      assert tx[..] == WriteFrame(layout, port, value);
      chip.Transfer(tx, rx);
    }

    /** spi_read: sends {SPI_READ_CMD, port, 0xFF} and returns reply byte 2,
        the register's content; no register changes. */
    method SpiRead(port: bv8) returns (value: bv8)
      requires Valid()
      modifies chip
      ensures Valid()
      ensures chip.log == old(chip.log) + [ReadFrame(layout, port)]
      ensures chip.regs == old(chip.regs) && chip.rawInput == old(chip.rawInput)
      ensures value == Peek(layout, chip.regs, chip.rawInput, port)
    {
      var tx := new bv8[FrameLen][layout.readCmd, port, 0xFF];
      var rx := new bv8[FrameLen];
      assert tx[..] == ReadFrame(layout, port);
      chip.Transfer(tx, rx);
      value := rx[2];
    }

    /** pfio_read_input: the input port, every bit inverted. */
    method ReadInput() returns (inputs: bv8)
      requires Valid()
      modifies chip
      ensures Valid()
      ensures chip.log == old(chip.log) + [ReadFrame(layout, layout.inputPort)]
      ensures chip.regs == old(chip.regs) && chip.rawInput == old(chip.rawInput)
      ensures inputs == Invert(chip.rawInput)
    {
      var raw := SpiRead(layout.inputPort);
      inputs := raw ^ 0xFF;
    }

    /** pfio_read_output: the output register as last written. */
    method ReadOutput() returns (outputs: bv8)
      requires Valid()
      modifies chip
      ensures Valid()
      ensures chip.log == old(chip.log) + [ReadFrame(layout, layout.outputPort)]
      ensures chip.regs == old(chip.regs) && chip.rawInput == old(chip.rawInput)
      ensures outputs == OutputOf(layout, chip.regs)
    {
      outputs := SpiRead(layout.outputPort);
    }

    /** pfio_write_output: one write frame; the output register is `value`
        afterwards. */
    method WriteOutput(value: bv8)
      requires Valid()
      modifies chip
      ensures Valid()
      ensures chip.log == old(chip.log) + [WriteFrame(layout, layout.outputPort, value)]
      ensures chip.regs == old(chip.regs)[layout.outputPort as int := value]
      ensures OutputOf(layout, chip.regs) == value
      ensures chip.rawInput == old(chip.rawInput)
    {
      SpiWrite(layout.outputPort, value);
    }

    /** pfio_digital_read: whether the pin's input is on (its line low). */
    method DigitalRead(pin: nat) returns (on: bool)
      requires Valid() && pin < IntBits
      modifies chip
      ensures Valid()
      ensures chip.log == old(chip.log) + [ReadFrame(layout, layout.inputPort)]
      ensures chip.regs == old(chip.regs) && chip.rawInput == old(chip.rawInput)
      ensures on == PinIsOn(Invert(chip.rawInput), pin)
      ensures on <==> pin >= 8 || !Bit(chip.rawInput, pin)
    {
      var currentPinValues := ReadInput();
      var pinBitMask := PinMask(pin);
      on := currentPinValues & pinBitMask == pinBitMask;
    }

    /** pfio_digital_write: reads the output register, sets or clears the
        pin's bit and writes the whole byte back. */
    method DigitalWrite(pin: nat, value: int)
      requires Valid() && pin < IntBits
      modifies chip
      ensures Valid()
      ensures chip.log == old(chip.log)
              + [ ReadFrame(layout, layout.outputPort),
                  WriteFrame(layout, layout.outputPort, WritePin(old(OutputOf(layout, chip.regs)), pin, value)) ]
      ensures chip.regs
              == old(chip.regs)[layout.outputPort as int := WritePin(old(OutputOf(layout, chip.regs)), pin, value)]
      ensures chip.rawInput == old(chip.rawInput)
    {
      var oldPinValues := ReadOutput();
      var newPinValues := WritePin(oldPinValues, pin, value);
      WriteOutput(newPinValues);
    }

    /** Two identical pfio_write_output calls send two frames: repeated
        writes are not suppressed. */
    method WriteOutputTwice(value: bv8)
      requires Valid()
      modifies chip
      ensures Valid()
      ensures chip.log == old(chip.log) + [WriteFrame(layout, layout.outputPort, value),
                                           WriteFrame(layout, layout.outputPort, value)]
      ensures OutputOf(layout, chip.regs) == value
      ensures chip.regs == old(chip.regs)[layout.outputPort as int := value]
      ensures chip.rawInput == old(chip.rawInput)
    {
      WriteOutput(value);
      WriteOutput(value);
    }

    /** The five configuration writes of pfio_init, in order. */
    method Configure()
      requires Valid()
      modifies chip
      ensures Valid()
      ensures chip.log == old(chip.log) + ConfigFrames(layout)
      ensures chip.regs == Configured(layout, old(chip.regs))
      ensures chip.rawInput == old(chip.rawInput)
    {
      SpiWrite(layout.iocon, 8);        // enable hardware addressing
      SpiWrite(layout.gpioa, 0x00);     // port A data all 0
      SpiWrite(layout.iodira, 0);       // port A all outputs
      SpiWrite(layout.iodirb, 0xFF);    // port B all inputs
      SpiWrite(layout.gppub, 0xFF);     // port B pull-ups on
    }

    /** The output-clearing loop of pfio_init: pfio_digital_write(i, 0) for
        i = 1..8, in the legacy 1-based numbering. */
    method ClearOutputs()
      requires Valid()
      modifies chip
      ensures Valid()
      ensures chip.log == old(chip.log) + ClearFrames(layout, old(OutputOf(layout, chip.regs)), 8)
      ensures chip.regs
              == old(chip.regs)[layout.outputPort as int := ClearedOutput(old(OutputOf(layout, chip.regs)), 8)]
      ensures chip.rawInput == old(chip.rawInput)
    {
      ghost var v := OutputOf(layout, chip.regs);
      for i := 1 to 9
        invariant Valid()
        invariant chip.regs == old(chip.regs)[layout.outputPort as int := ClearedOutput(v, i - 1)]
        invariant chip.log == old(chip.log) + ClearFrames(layout, v, i - 1)
        invariant chip.rawInput == old(chip.rawInput)
      {
        DigitalWrite(i, 0);
      }
    }

    /** pfio_init: the host steps in order, each failure returning -1 before
        any frame is sent; then the five configuration writes and
        pfio_digital_write(i, 0) for i = 1..8; returns 0. */
    method Init(host: HostReplies) returns (result: bv8)
      requires Valid()
      modifies this, chip
      ensures Valid()
      ensures result == (if host.HasMaxSpeed() then 0 else InitFailed)
      ensures fd == (if host.ReachesOpen() then host.openResult else old(fd))
      ensures mode == (if host.HasMode() then host.mode.value else old(mode))
      ensures bitsPerWord == (if host.HasBitsPerWord() then host.bitsPerWord.value else old(bitsPerWord))
      ensures maxSpeed == (if host.HasMaxSpeed() then host.maxSpeed.value else old(maxSpeed))
      ensures chip.rawInput == old(chip.rawInput)
      ensures !host.HasMaxSpeed() ==> chip.log == old(chip.log) && chip.regs == old(chip.regs)
      ensures host.HasMaxSpeed() ==>
                chip.log == old(chip.log) + InitFrames(layout, old(chip.regs))
                && chip.regs == InitRegisters(layout, old(chip.regs))
    {
      if !host.allocOk {
        return InitFailed;
      }
      if !host.pathFits {
        return InitFailed;
      }
      fd := host.openResult;
      if fd < 0 {
        return InitFailed;
      }
      if host.mode.None? {
        return InitFailed;
      }
      mode := host.mode.value;
      if host.bitsPerWord.None? {
        return InitFailed;
      }
      bitsPerWord := host.bitsPerWord.value;
      if host.maxSpeed.None? {
        return InitFailed;
      }
      maxSpeed := host.maxSpeed.value;

      Configure();
      ClearOutputs();
      return 0;
    }
  }
}
