# TWI master-transmitter error latch

This project models the master-transmitter side of an I2C (TWI) driver for an AVR
microcontroller. The driver is used by an address scanner, which tries a bus
transaction at every slave address. A transaction has four steps:

1. `i2cMaster_Start` sends a START condition.
2. `i2cMaster_Adr_Write` sends the SLA+W address byte.
3. `i2cMaster_Data_Write` sends a data byte. This step may be repeated.
4. `i2cMaster_Stop` sends a STOP condition.

The steps share two byte globals. `MasterTX_Error` is the error latch: each step
that runs sets it or clears it. `Error` is the copy that `MTX_ERROR` takes of the latch
whenever a step fails. Each step polls the hardware with a one-millisecond
deadline. The poll's result is modelled as an input, `Observation`: either
`Timeout`, or `Completed(status)` carrying the status-register byte.

Modules:

- `TwiCodes` (`twi_codes.dfy`) holds the status codes and the error codes. It
  also holds the status mask `0xF8` and the `TWBR_BAUD` divisor. The divisor is
  computed with the target's 32-bit `unsigned long` arithmetic, and the
  wrap-around is written out.
- `MasterTwi` (`master_twi.dfy`) holds the driver state `Driver`, the error
  helper, and the four steps as pure functions. `Driver` contains the two
  globals, the last byte loaded into TWDR, and the last command written to TWCR.
- `Transaction` (`transaction.dfy`) runs sequences of steps. Its end-to-end
  lemmas compare a whole transaction with a reference definition that never
  mentions driver state. `Verdict` gives the code each step reports when it runs.
  `FirstFailure` returns the first non-zero verdict.

The three status comparisons use the 0x08 (START), 0x18 (SLA+W ACK) and
0x28 (data ACK) codes from the ATmega328P TWI Master Transmitter table. The bus
events behind them are described in sections 3.1.4 (START and STOP), 3.1.6
(acknowledge) and 3.1.10 (the slave address and R/W bit) of the NXP I2C-bus
specification UM10204. Here the codes are opaque constants.

The driver uses the AVR's hardware TWI peripheral through its registers.

## Model

| member | source | states |
|---|---|---|
| `TwiCodes.StatusCode` | i2c_slave_adr_scanner/Master_TWI.h:113 | The status code has its three prescaler bits clear, and it differs from the raw status only in those bits. |
| `TwiCodes.PrescalerBitsIgnored` | i2c_slave_adr_scanner/Master_TWI.h:113 | Two statuses that differ only in the low three bits give the same masked code. |
| `TwiCodes.StatusMatchesIff` | i2c_slave_adr_scanner/Master_TWI.h:149 | A masked status equals an expected code (whose low bits are clear) exactly when the raw status differs from that code only in the prescaler bits. |
| `TwiCodes.TwbrBaud` | i2c_slave_adr_scanner/Master_TWI.h:28 | The divisor formula evaluated in 32-bit unsigned arithmetic. The result is below 2^31. |
| `TwiCodes.TwbrBaudNoWrap` | i2c_slave_adr_scanner/Master_TWI.h:10 | When the subtraction does not wrap, twice the divisor plus (16 - prescaler) brackets F_CPU/SCL_FREQ from below, within 2. |
| `TwiCodes.TwbrRegister` | i2c_slave_adr_scanner/Master_TWI.h:76 | A divisor below 256 is stored in the 8-bit TWBR register unchanged. |
| `TwiCodes.ConfiguredBaud` | i2c_slave_adr_scanner/Master_TWI.h:25-28 | 16 MHz, 100 kHz and prescaler 1 give (160 - 15) / 2 = 72, which fits the register. The other speed the source header lists, 400 kHz, gives 12. |
| `MasterTwi.Init` | i2c_slave_adr_scanner/Master_TWI.h:66-79 | Initialisation leaves TWCR enabled and idle. It touches neither error global nor TWDR. |
| `MasterTwi.MtxError` | i2c_slave_adr_scanner/Master_TWI.h:232-240 | Afterwards `Error` equals the latch. Nothing else changes. A latch in 0..7 leaves the state consistent. |
| `MasterTwi.Fail` | i2c_slave_adr_scanner/Master_TWI.h:105-106 | Setting a failure code and calling the helper leaves both globals equal to that code. |
| `MasterTwi.AwaitCompletion` | i2c_slave_adr_scanner/Master_TWI.h:97-120 | The shared poll-and-compare tail. The latch is clear exactly when the poll completed with the expected masked status. A timeout latches the dead-loop code. A wrong status latches the not-reached code. On success `Error` is untouched. |
| `MasterTwi.Start` | i2c_slave_adr_scanner/Master_TWI.h:91-121 | Start ignores any prior latch. A timeout sets both globals to 0x04. A masked status other than 0x08 sets both to 0x01. Otherwise the latch is 0 and `Error` is untouched. Start preserves consistency. |
| `MasterTwi.AdrWrite` | i2c_slave_adr_scanner/Master_TWI.h:124-157 | While an error is latched, the state is unchanged, including TWDR and TWCR. Otherwise the address goes into TWDR, and the outcome is 0x05 on timeout, 0x02 on a masked status other than 0x18, and 0 otherwise. |
| `MasterTwi.DataWrite` | i2c_slave_adr_scanner/Master_TWI.h:160-193 | While an error is latched, the state is unchanged. Otherwise the byte goes into TWDR, and the outcome is 0x06 on timeout, 0x03 on a masked status other than 0x28, and 0 otherwise. |
| `MasterTwi.ResetControl` | i2c_slave_adr_scanner/Master_TWI.h:201-203 | The TWCR reset leaves TWCR enabled and idle, and leaves the globals alone. |
| `MasterTwi.Stop` | i2c_slave_adr_scanner/Master_TWI.h:196-228 | The latch is 0 on every path. With an error latched, `Error` keeps its code and TWCR is reset. A stop timeout sets `Error` to 0x07 and resets TWCR. Otherwise `Error` becomes 0 and the STOP is issued. |
| `MasterTwi.StepsIgnorePrescalerBits` | i2c_slave_adr_scanner/Master_TWI.h:113-189 | Statuses that differ only in the three prescaler bits drive every step to the same state. |
| `MasterTwi.InitialStateConsistent` | i2c_slave_adr_scanner/Master_TWI.h:53-54 | Both globals start at zero, so the initial driver is consistent and unlatched, before and after initialisation. |
| `Transaction.Apply` | i2c_slave_adr_scanner/Master_TWI.h:81-88 | Any single call preserves consistency. A STOP call leaves the latch clear. |
| `Transaction.Run` | i2c_slave_adr_scanner/Master_TWI.h:196-228 | Any call sequence from a consistent state ends consistent: both globals stay in 0..7, and a latched error is mirrored in `Error`. Any sequence ending in STOP leaves the latch clear. |
| `Transaction.Verdict` | i2c_slave_adr_scanner/Master_TWI.h:45-52 | The reference table of the code each step reports when it runs. Every code is at most 0x07. |
| `Transaction.FirstFailure` | i2c_slave_adr_scanner/Master_TWI.h:126-127 | The result is non-zero exactly when some step fails. When it is non-zero, it is the verdict of a failing step, and every earlier step succeeded. |
| `Transaction.Events` | i2c_slave_adr_scanner/Master_TWI.h:81-88 | A transaction is START, then the address, then only writes, then STOP. |
| `Transaction.ApplyUnlatched` | i2c_slave_adr_scanner/Master_TWI.h:105-120 | A call that runs (Start, or a write with nothing latched) latches exactly its verdict. On failure the verdict is mirrored in `Error`. On success `Error` is unchanged. |
| `Transaction.LatchedWritesSkipped` | i2c_slave_adr_scanner/Master_TWI.h:127 | While an error is latched, any run of address and data writes leaves the whole state unchanged. |
| `Transaction.UnlatchedWritesOutcome` | i2c_slave_adr_scanner/Master_TWI.h:163 | Writes run from an unlatched driver end with the latch equal to the first failing write's code, mirrored in `Error`. If every write succeeds, the latch is 0 and `Error` is untouched. |
| `Transaction.TransferOutcome` | i2c_slave_adr_scanner/Master_TWI.h:91-228 | For every prior state, a whole transaction ends with the latch 0 and `Error` equal to the first failing step's code. TWCR is left issuing the STOP exactly when `Error` is 0. |
| `Transaction.TransferSucceedsIff` | i2c_slave_adr_scanner/Master_TWI.h:227 | A transaction ends with `Error == 0` exactly when every step, including STOP, succeeded. |

## Left out

- Register bit layouts (TWCR, TWSR, TWDR, TWBR) are not modelled. TWCR is an abstract `Command`, the last value the driver wrote to it. Changes the hardware makes to these registers itself are not modelled.
- The port pull-ups, the TWSR write and the TWBR write in `i2cMaster_Init` are memory-mapped I/O with no effect on the error latch. `Driver` has no TWBR field; the value written there is modelled on its own by `TwiCodes.TwbrRegister` and `TwiCodes.ConfiguredBaud`.
- The `millis()` polling loops are not modelled. Each wait is reduced to its result, the `Observation` argument of each step.
- The STOP wait loops while TWSTO reads clear, so it ends as soon as TWSTO reads set, which is right after the driver writes it and while the STOP may still be pending. The model takes the same `Observation` input and ignores its status byte: `Completed` means the poll saw TWSTO set, `Timeout` means it did not within the deadline. Whether that poll can really time out, and whether its polarity matches the hardware's TWSTO behaviour (which clears the bit once the STOP is sent), depends on register semantics that are not modelled, so no discrepancy is claimed here.
- `volatile` and interrupts are not modelled. The driver polls in a single thread, and so does the model.
- The commented-out serial prints in `MTX_ERROR` are output only.
- The `return 0;` statements inside `void` functions have no behaviour of their own. The model treats each as an early return.
- `TWI_REP_START` (0x10) is declared as a constant. No step compares against it.
- The baud divisor follows the formula as written in the source, not the datasheet's `16` variant. Its `prescaler` is the configured factor, and the `16 - prescaler` term is taken in full-width arithmetic before the 32-bit wrap.
- Multi-master arbitration, clock stretching and slave-side behaviour are electrical bus behaviour. The driver does not handle them.
- The scanner sketch that calls these steps for each address is not part of this model.
