# PiFace digital I/O core (pfio.c) in Dafny

This project models the C core that drives the PiFace add-on board for the
Raspberry Pi. The board carries an MCP23S17-style port expander on the SPI
bus. Port A is used for the eight outputs. Port B is used for the eight
inputs, with pull-ups enabled. Every bus transaction is a 3-byte frame
{command, register, data}.

The model has four modules:

- `PinBits` (`pinbits.dfy`): pin index to single-bit mask
  (`pfio_get_pin_bit_mask`), and mask back to pin index
  (`pfio_get_pin_number`, a `while` loop proved against the predicate
  `IsPinNumber`).
- `Protocol` (`protocol.dfy`): the constants of `pfio.h` as a `Layout`
  value, and the two frame builders of `spi_write` and `spi_read`.
- `Expander` (`expander.dfy`): a simulated chip `Chip` that stands in for
  `/dev/spidev` behind `spi_transfer`. It keeps one byte per register
  address (a `map<int, bv8>` keyed by the address's numeric value), the raw
  level of the input pins, and a log of every frame it receives. The pure
  functions `Execute` and `Reply` say what one frame does to the registers
  and what the chip answers.
- `Pfio` (`pfio.dfy`): the global `spi` handle as a `Session` class. It
  holds the `Spi` fields and the chip. Each `pfio_` operation is a method
  whose contract gives the frames it sends, the registers it leaves behind
  and the value it returns. Pure functions specify the byte-level logic
  (`Invert`, `PinIsOn`, `WritePin`) and the whole effect of a successful
  `pfio_init` (`InitFrames`, `InitRegisters`). Lemmas prove the properties
  about them.

Modelling decisions:

- Bytes are `bv8`. C `char` values are handled as bit patterns. The
  `value > 0` test of `pfio_digital_write` is taken on the numeric value of
  the `char`, passed as an `int`, so it holds for either signedness of `char`.
- `1 << pin` is a C `int` shift truncated to `char`. Pins 8 to 30 give the
  mask 0. A shift by 32 or more, or by a negative amount, is undefined
  behaviour in C, so the model requires `pin < 32`. Pin 31 is undefined in C
  as well: 2^31 does not fit in a 32-bit `int` (C11 section 6.5.7,
  paragraph 4). The model gives pin 31 the mask 0, which is what
  two's-complement compilers produce after truncation to `char`.
- `pfio_get_pin_number` shifts a `char`, which may be an arithmetic shift.
  The model uses a logical shift. In the at most eight steps the loop takes,
  the low bit it tests is the same either way.
- `pfio.h` is not part of this model. Its opcodes and register addresses are
  therefore fields of `Layout`. `Layout.Valid` holds these clauses, and no
  others:
  - `writeCmd != readCmd`: the chip tells a write from a read by its opcode.
  - `inputPort != outputPort`: a choice of `pfio.h`, which reads the inputs
    and drives the outputs through different registers. The chip's register
    map does not require it.
  - `gpioa != inputPort`: the chip's register map. GPIOA is port A's data
    register, and the inputs are on port B. `InitConfiguration` relies on
    this clause when it states that init leaves the input port unchanged.
  - IOCON, IODIRA, IODIRB and GPPUB are distinct from each other: the chip's
    register map.
  - None of those four equals GPIOA, the input port or the output port: the
    chip's register map, because configuration registers are not data
    registers.

  Nothing requires the output port to differ from GPIOA. The output port
  may be port A's data register itself.
- `pfio_init` fails with -1 as a `char`, which is the byte `0xFF`
  (`InitFailed`). The host steps before the first frame are inputs to the
  model (`HostReplies`): `malloc`, the `snprintf` length check, `open`, and
  the three `ioctl` queries. Each one is a success or failure flag or a
  returned value.

Behaviour of pfio.c that the model keeps as written:

- A failed transfer is only logged (pfio.c:175-179). It is not reported to
  the caller, and `pfio_init` does not check its register writes.
- `pfio_digital_read` reads the input port. It does not read back the
  output register, so a pin written with `pfio_digital_write` is not
  necessarily read as on. What the model proves instead is in the table:
  how `WritePin` changes the output byte, and `ReadOutput` returning it.
- The clearing loop of `pfio_init` runs `pfio_digital_write(i, 0)` for i = 1..8.
  With 0-based masks this clears bits 1..7, and pin 8 has the empty mask.
  Bit 0 of the output register is 0 afterwards when the output port is
  port A's data register, which the configuration writes set to 0.
  Otherwise bit 0 keeps its earlier value (`InitOutputs`).
- A pin of 8 or more has the empty mask, so `pfio_digital_read` reports it
  as on (`PinIsOn`).

## Model

| member | source | states |
|---|---|---|
| `PinBits.PinMask` | c/src/piface/pfio.c:137-143 | for pins 0..7 the 8-bit mask holds exactly one set bit, the pin's own; pins 8..30 give 0 after truncation to `char`, and pin 31 (undefined in C) is given 0 too |
| `PinBits.PinMaskBit` | c/src/piface/pfio.c:137-143 | bit i of the mask of `pin` is set iff i == pin |
| `PinBits.GetPinNumber` | c/src/piface/pfio.c:145-158 | the shifting loop returns a pin in 0..7: the index of the lowest set bit, or 0 when the byte is 0 |
| `PinBits.PinNumberUnique` | c/src/piface/pfio.c:145-158 | the pin number of a byte is determined by the byte |
| `PinBits.PinNumberOfMask` | c/src/piface/pfio.c:137-158 | round trip: for every pin p in 0..7, the pin number of the mask of p is p |
| `PinBits.PinNumberFallbackAmbiguous` | c/src/piface/pfio.c:145-158 | the bytes 0x00 and 0x01 both give pin 0 |
| `Expander.Chip.Transfer` | c/src/piface/pfio.c:161-180 | one 3-byte exchange: the frame is appended to the log, a write frame stores its byte, the reply carries a read register in byte 2, and the input pins are unchanged |
| `Expander.WriteFrameEffect` | c/src/piface/pfio.c:182-187 | a write frame changes exactly the register it names, to the value it carries |
| `Expander.ReadFrameEffect` | c/src/piface/pfio.c:189-195 | a read frame changes no register, and the reply's byte 2 is the register it names |
| `Expander.WriteThenRead` | c/src/piface/pfio.c:182-195 | reading back a register other than the input port returns the value last written to it |
| `Pfio.Session.SpiWrite` | c/src/piface/pfio.c:182-187 | sends exactly the frame {SPI_WRITE_CMD, port, value}; the register then holds value and nothing else changes |
| `Pfio.Session.SpiRead` | c/src/piface/pfio.c:189-195 | sends exactly {SPI_READ_CMD, port, 0xFF}, returns reply byte 2 (the register's content), and leaves every register unchanged |
| `Pfio.Invert` | c/src/piface/pfio.c:119-125 | the XOR with 0xFF is the bitwise complement: no bit is set in both the result and the raw byte, and every bit is set in one of them |
| `Pfio.InvertBit` | c/src/piface/pfio.c:119-125 | each bit of the corrected input is the opposite of the raw bit |
| `Pfio.Session.ReadInput` | c/src/piface/pfio.c:119-125 | one read frame of the input port; returns the complement of the raw input byte; registers unchanged |
| `Pfio.Session.ReadOutput` | c/src/piface/pfio.c:127-130 | one read frame of the output port; returns the output register; registers unchanged |
| `Pfio.Session.WriteOutput` | c/src/piface/pfio.c:132-135 | exactly one frame {SPI_WRITE_CMD, OUTPUT_PORT, v}; the output register reads v afterwards |
| `Pfio.Session.WriteOutputTwice` | c/src/piface/pfio.c:132-135 | two identical writes send two identical frames (no suppression); the output register is v, every other register and the input pins are unchanged |
| `Pfio.PinIsOn` | c/src/piface/pfio.c:87-95 | the masked test is true iff bit p of the corrected input is set, for p in 0..7, and always true for pins 8 and above |
| `Pfio.DigitalReadIsActiveLow` | c/src/piface/pfio.c:87-125 | a digital read reports pin p as on iff raw input bit p is 0 |
| `Pfio.Session.DigitalRead` | c/src/piface/pfio.c:87-95 | one read frame of the input port; the result is true iff the pin is 8 or more or its raw input bit is 0 |
| `Pfio.WritePin` | c/src/piface/pfio.c:97-117 | with v > 0 the pin's bit is set (old OR mask), otherwise cleared (old AND NOT mask); every bit outside the mask is unchanged |
| `Pfio.WritePinBit` | c/src/piface/pfio.c:97-117 | bit by bit: bit p takes v > 0, every other bit keeps its old value, and a pin of 8 or more changes nothing |
| `Pfio.WritePinOverwrites` | c/src/piface/pfio.c:97-117 | a second write of the same pin undoes the first: the result depends only on the second value |
| `Pfio.Session.DigitalWrite` | c/src/piface/pfio.c:97-117 | read-modify-write: a read frame of the output port, then a write frame carrying WritePin of the old output; the output register becomes that byte |
| `Pfio.Session.Configure` | c/src/piface/pfio.c:63-70 | the five configuration writes in order: IOCON 8, GPIOA 0x00, IODIRA 0, IODIRB 0xFF, GPPUB 0xFF |
| `Pfio.Session.ClearOutputs` | c/src/piface/pfio.c:72-75 | the loop over i = 1..8 sends eight read/write pairs on the output port and leaves it at ClearedOutput(old output, 8) |
| `Pfio.ClearedOutputBits` | c/src/piface/pfio.c:72-75 | clearing pins 1..n clears exactly bits 1..n of the output byte and keeps the others |
| `Pfio.LastClearIsNoOp` | c/src/piface/pfio.c:74-75 | the pin-8 round has mask 0 in 8 bits, so it writes back the byte it read |
| `Pfio.ClearFramesShape` | c/src/piface/pfio.c:72-75 | the loop sends 2n frames: for each pin in turn, a read of the output port, then the write of the new byte |
| `Pfio.Session.Init` | c/src/piface/pfio.c:16-78 | a failed host step returns 0xFF (-1 as char) and sends no frame; success returns 0, stores fd, mode, bits per word and maximum speed, and leaves exactly the frames InitFrames and the registers InitRegisters |
| `Pfio.InitFrameCount` | c/src/piface/pfio.c:63-77 | a successful init sends 21 frames, and the first five are the configuration writes in order |
| `Pfio.InitConfiguration` | c/src/piface/pfio.c:63-70 | after init IOCON = 8, GPIOA = 0, IODIRA = 0, IODIRB = 0xFF, GPPUB = 0xFF; the input port and every register init does not name keep their values |
| `Pfio.InitOutputs` | c/src/piface/pfio.c:63-77 | after init, output bits 1..7 are 0; the whole output byte is 0 when OUTPUT_PORT is GPIOA, and otherwise bit 0 keeps its earlier value |

## Left out

- `pfio_deinit` (pfio.c:80-85): it only closes the file descriptor and frees the structure, and it always returns 0.
- Building the device path with `snprintf`, `open`, and the three `ioctl` queries (pfio.c:18-61): these are operating-system calls. Each is an input of `Session.Init`: a flag, or a returned value that is `None` on failure.
- `malloc` (pfio.c:18): on failure the global pointer becomes NULL. The model only returns 0xFF and keeps the old session fields. On success the fresh structure is the existing `Session` object.
- The kernel `ioctl(SPI_IOC_MESSAGE)` and its delay, speed and bits-per-word settings (pfio.c:161-173): `Chip.Transfer` takes its place, and the exchange always completes.
- The transfer-failure branch (pfio.c:175-179): it only prints a diagnostic, and it leaves the reply buffer uninitialised.
- Using the handle before `pfio_init` or after a failed `pfio_init`: in C this is a NULL dereference or an invalid descriptor. The model's methods only require a valid session.
- Any change of the input-pin levels between two reads: `rawInput` is part of the simulated chip's state and stays constant.
- Concurrent read-modify-write on the shared handle: the model assumes a single owner.
- The `fprintf`, `perror` and `VERBOSE_MODE` diagnostics: they are output only.
- `PinBits.PinMask`: pin 31 is undefined behaviour in C, and the model gives it the mask 0 that two's-complement compilers produce. It does not model other outcomes of that undefined shift.
- The numeric values of the `pfio.h` constants: `pfio.h` is not part of this model, so they are fields of `Layout`.
