/** Pin addressing on the PiFace's 8-bit port registers: a logical pin index
    and the single-bit mask that selects it (pfio_get_pin_bit_mask and
    pfio_get_pin_number in pfio.c). */
module PinBits {

  /** Number of bits of a C `int` on the target: `1 << pin` is evaluated at
      this width before being truncated to a `char`, and a shift by this many
      places or more is undefined behaviour in C.  `1 << 31` is undefined too,
      since 2^31 does not fit in a 32-bit `int` (C11 section 6.5.7,
      paragraph 4); the model gives pin 31 the mask 0 that two's-complement
      compilers produce. */
  const IntBits: nat := 32

  /** Bit `i` (0 = least significant) of a port register. */
  predicate Bit(b: bv8, i: nat)
    requires i < 8
  {
    (b >> i) & 1 == 1
  }

  /** A byte is zero exactly when none of its eight bits is set. */
  lemma ZeroIffNoBitSet(b: bv8)
    ensures b == 0 <==> forall i :: 0 <= i < 8 ==> !Bit(b, i)
  {
    if forall i :: 0 <= i < 8 ==> !Bit(b, i) {
      assert !Bit(b, 0) && !Bit(b, 1) && !Bit(b, 2) && !Bit(b, 3);
      assert !Bit(b, 4) && !Bit(b, 5) && !Bit(b, 6) && !Bit(b, 7);
    }
  }

  /** pfio_get_pin_bit_mask: `1 << pin` computed as a C int and truncated to
      the 8-bit `char` result, so pins 8 to 30 give the mask 0 (the set bit
      lies above bit 7), and pin 31, undefined in C, is given 0 as well.  For
      a pin of the port the mask has exactly one bit set, the pin's own. */
  function PinMask(pin: nat): (m: bv8)
    requires pin < IntBits
    ensures pin < 8 ==> m != 0 && m & (m - 1) == 0 && Bit(m, pin)
    ensures pin >= 8 ==> m == 0
  {
    if pin < 8 then (1 as bv8) << pin else 0
  }

  /** Bit i of the mask of `pin` is set exactly when i is the pin. */
  lemma PinMaskBit(pin: nat, i: nat)
    requires pin < IntBits && i < 8
    ensures Bit(PinMask(pin), i) <==> i == pin
  {
  }

  /** What pfio_get_pin_number returns for `bits`: the index of the lowest
      set bit, or 0 when no bit is set. */
  predicate IsPinNumber(bits: bv8, pin: nat)
  {
    && pin < 8
    && (bits == 0 ==> pin == 0)
    && (bits != 0 ==> Bit(bits, pin) && forall j :: 0 <= j < pin ==> !Bit(bits, j))
  }

  /** pfio_get_pin_number: shifts the pattern right until its low bit is
      set, giving up (and answering pin 0) once the count passes 7.  pfio.c
      shifts a `char`, which may be an arithmetic shift; in the
      first eight steps the low bit it tests is the same either way. */
  method GetPinNumber(bitPattern: bv8) returns (pin: nat)
    ensures IsPinNumber(bitPattern, pin)
  {
    var pattern := bitPattern;
    pin := 0;
    while pattern & 1 == 0
      invariant pin < 8
      invariant pattern == bitPattern >> pin
      invariant forall j :: 0 <= j < pin ==> !Bit(bitPattern, j)
      decreases 8 - pin
    {
      assert !Bit(bitPattern, pin);
      pattern := pattern >> 1;
      pin := pin + 1;
      if pin > 7 {
        ZeroIffNoBitSet(bitPattern);
        pin := 0;
        break;
      }
    }
  }

  /** The answer of pfio_get_pin_number is determined by its input. */
  lemma PinNumberUnique(bits: bv8, p: nat, q: nat)
    requires IsPinNumber(bits, p) && IsPinNumber(bits, q)
    ensures p == q
  {
  }

  /** Round trip: the pin number of the mask of pin p is p, for p in 0..7. */
  lemma PinNumberOfMask(p: nat, q: nat)
    requires p < 8
    requires IsPinNumber(PinMask(p), q)
    ensures q == p
  {
  }

  /** The fallback of pfio_get_pin_number makes it ambiguous: the patterns
      0x00 (no pin) and 0x01 (pin 0) both give pin 0. */
  lemma PinNumberFallbackAmbiguous(p: nat, q: nat)
    requires IsPinNumber(0x00, p) && IsPinNumber(0x01, q)
    ensures p == 0 && q == 0
  {
  }
}
