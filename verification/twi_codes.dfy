/** Constants of the TWI master-transmitter driver: the status codes the
    hardware reports, the error codes the driver latches, the status mask,
    and the compile-time baud-rate divisor.

    The status codes are those of the ATmega328P TWI Master Transmitter
    status-code table; the bus events behind them are the START condition,
    the SLA+W address byte and an acknowledged data byte of the I2C-bus
    specification (UM10204, sections 3.1.4, 3.1.6 and 3.1.10). Here they are opaque
    byte constants. */
module TwiCodes {

  // Status codes reported in the upper five bits of the status register.
  const TWI_START: bv8 := 0x08         // START condition transmitted
  const TWI_REP_START: bv8 := 0x10     // repeated START transmitted (declared, never compared)
  const TWI_MTX_ADR_ACK: bv8 := 0x18   // SLA+W transmitted, ACK received
  const TWI_MTX_DATA_ACK: bv8 := 0x28  // data byte transmitted, ACK received

  // Error codes latched by the driver. 0 means "no error".
  const NO_ERROR: bv8 := 0x00
  const MTX_START_NOT_REACH: bv8 := 0x01
  const MTX_ADR_NOT_REACH: bv8 := 0x02
  const MTX_DATA_NOT_REACH: bv8 := 0x03
  const MTX_START_DEAD_LOOP: bv8 := 0x04
  const MTX_ADR_DEAD_LOOP: bv8 := 0x05
  const MTX_DATA_DEAD_LOOP: bv8 := 0x06
  const MTX_STOP_DEAD_LOOP: bv8 := 0x07

  /** The largest error code the driver ever stores. */
  const MAX_ERROR_CODE: bv8 := MTX_STOP_DEAD_LOOP

  /** The mask that drops the three low (prescaler) bits of a status byte. */
  const STATUS_MASK: bv8 := 0xF8

  /** The status code proper: the status register with its prescaler bits cleared. */
  function StatusCode(status: bv8): (code: bv8)
    ensures code & 0x07 == 0
    ensures (status ^ code) <= 0x07
  {
    status & STATUS_MASK
  }

  /** Two statuses that differ only in the three prescaler bits carry the
      same status code. */
  lemma PrescalerBitsIgnored(a: bv8, b: bv8)
    requires (a ^ b) <= 0x07
    ensures StatusCode(a) == StatusCode(b)
  {
  }

  /** A status byte matches an expected code exactly when it equals that
      code up to the prescaler bits. */
  lemma StatusMatchesIff(status: bv8, expected: bv8)
    requires expected & 0x07 == 0
    ensures StatusCode(status) == expected <==> (status ^ expected) <= 0x07
  {
  }

  // ---------------------------------------------------------------------
  // Baud-rate divisor
  // ---------------------------------------------------------------------

  const F_CPU: nat := 16000000       // 16 MHz, an unsigned long
  const SCL_FREQ: nat := 100000      // 100 kHz
  const TWPS_PRESCALER: nat := 1

  /** Arithmetic modulus of the target's `unsigned long` (32 bits). */
  const ULONG_MODULUS: int := 0x1_0000_0000

  /** The divisor formula `((fCpu / sclFreq) - (16 - prescaler)) / 2` evaluated
      as the target does: the clock is an unsigned long, so the subtraction is
      taken modulo 2^32 before the final unsigned halving. */
  function TwbrBaud(fCpu: nat, sclFreq: nat, prescaler: nat): (r: nat)
    requires sclFreq > 0
    requires fCpu < ULONG_MODULUS
    ensures r < ULONG_MODULUS / 2
  {
    ((fCpu / sclFreq - (16 - prescaler)) % ULONG_MODULUS) / 2
  }

  /** Without wrap-around the divisor is the floor of half the difference:
      twice the divisor plus the subtracted term brackets the clock ratio. */
  lemma TwbrBaudNoWrap(fCpu: nat, sclFreq: nat, prescaler: nat)
    requires sclFreq > 0
    requires fCpu < ULONG_MODULUS
    requires prescaler <= 16
    requires fCpu / sclFreq >= 16 - prescaler
    ensures var r := TwbrBaud(fCpu, sclFreq, prescaler);
            2 * r + (16 - prescaler) <= fCpu / sclFreq < 2 * r + (16 - prescaler) + 2
  {
  }

  /** The 8-bit TWBR register receives the low byte of the divisor. */
  function TwbrRegister(divisor: nat): (b: bv8)
    ensures divisor < 256 ==> b as nat == divisor
  {
    (divisor % 256) as bv8
  }

  /** With the configured 16 MHz clock, 100 kHz bus and prescaler 1 the divisor
      is (160 - 15) / 2 = 72, which fits the register unchanged; the other
      bus speed the source header lists, 400 kHz, gives (40 - 15) / 2 = 12. */
  lemma ConfiguredBaud()
    ensures TwbrBaud(F_CPU, SCL_FREQ, TWPS_PRESCALER) == 72
    ensures TwbrRegister(TwbrBaud(F_CPU, SCL_FREQ, TWPS_PRESCALER)) == 72
    ensures TwbrBaud(F_CPU, 400000, TWPS_PRESCALER) == 12
  {
  }
}
