/** The register protocol over the serial bus: every transaction is one
    3-byte frame {command, register address, data}.  The opcodes and register
    addresses are the constants of pfio.h, which is not part of this model;
    they are carried as a `Layout` value instead of fixed numbers. */
module Protocol {

  /** The constants pfio.c takes from pfio.h: the two opcodes and the
      register addresses it uses. */
  datatype Layout = Layout(
    writeCmd: bv8,    // SPI_WRITE_CMD
    readCmd: bv8,     // SPI_READ_CMD
    iocon: bv8,       // IOCON: configuration register
    gpioa: bv8,       // GPIOA: port A data register
    iodira: bv8,      // IODIRA: port A direction register
    iodirb: bv8,      // IODIRB: port B direction register
    gppub: bv8,       // GPPUB: port B pull-up register
    inputPort: bv8,   // INPUT_PORT: the register pin inputs are read from
    outputPort: bv8)  // OUTPUT_PORT: the register pin outputs are written to
  {
    /** The two opcodes differ; the input port differs from the output port
        (a choice of pfio.h) and from port A's data register (the inputs are
        on port B); the four configuration registers are distinct from each
        other and from the data registers (the expander's register map).
        The output port may be port A's data register itself.  Addresses are
        compared by numeric value, the key of the chip's register file. */
    predicate Valid() {
      var data := {gpioa as int, inputPort as int, outputPort as int};
      && writeCmd != readCmd
      && inputPort as int != outputPort as int
      && gpioa as int != inputPort as int
      && iocon as int != iodira as int && iocon as int != iodirb as int && iocon as int != gppub as int
      && iodira as int != iodirb as int && iodira as int != gppub as int
      && iodirb as int != gppub as int
      && iocon as int !in data && iodira as int !in data
      && iodirb as int !in data && gppub as int !in data
    }
  }

  /** Number of bytes in every transaction (TRANSFER_LEN). */
  const FrameLen: nat := 3

  /** A frame as sent or received over the bus. */
  type Frame = s: seq<bv8> | |s| == FrameLen witness [0, 0, 0]

  /** Frame of spi_write: {SPI_WRITE_CMD, port, value}. */
  function WriteFrame(layout: Layout, port: bv8, value: bv8): Frame {
    [layout.writeCmd, port, value]
  }

  /** Frame of spi_read: {SPI_READ_CMD, port, 0xFF}. */
  function ReadFrame(layout: Layout, port: bv8): Frame {
    [layout.readCmd, port, 0xFF]
  }
}
