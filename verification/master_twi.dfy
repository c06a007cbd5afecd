/** The master-transmitter steps of the TWI driver as pure functions over
    the driver's observable state.

    The driver keeps two byte globals: `masterTxError`, the latch each step
    that runs sets or clears, and `error`, the copy `MtxError` takes of it on every
    failure. Each step writes the control register (and, for the address and
    data steps, the data register), then polls the hardware until the
    operation completes or a one-millisecond deadline passes. The poll is not
    modelled: its result is the `Observation` parameter of each step. */
module MasterTwi {
  import opened TwiCodes

  /** The command last written to the control register TWCR, as far as the
      driver's own writes go (bit layouts are not modelled). */
  datatype Command =
    | Disabled        // TWCR = 0, the reset value
    | EnableOnly      // TWCR = TWEN: interface enabled, idle
    | IssueStart      // TWEN | TWINT | TWSTA: transmit a START condition
    | IssueTransmit   // TWINT | TWEN: transmit the byte in TWDR
    | IssueStop       // TWINT | TWEN | TWSTO: transmit a STOP condition

  /** What one completion poll of the hardware yields: either the deadline
      passed first, or the operation completed with a status register value. */
  datatype Observation = Timeout | Completed(status: bv8)

  /** The driver state: the two error globals and the driver's last writes to
      the data and control registers. */
  datatype Driver = Driver(masterTxError: bv8, error: bv8, twdr: bv8, twcr: Command)

  /** The state at power-on: both globals are declared zero, TWDR holds its
      reset value 0xFF and TWCR its reset value 0. */
  const PowerOn: Driver := Driver(NO_ERROR, NO_ERROR, 0xFF, Disabled)

  /** Codes stay in range and a latched error is mirrored in `error`. Every
      step preserves this. */
  predicate Consistent(s: Driver) {
    && s.masterTxError <= MAX_ERROR_CODE
    && s.error <= MAX_ERROR_CODE
    && (s.masterTxError != NO_ERROR ==> s.error == s.masterTxError)
  }

  /** True when an earlier step has latched an error (the byte is unsigned,
      so `> 0` is `!= 0`). */
  predicate Latched(s: Driver) {
    s.masterTxError != NO_ERROR
  }

  /** Master initialisation as far as the latch machine sees it: the control
      register is set to enable-only; the globals and TWDR are not touched. */
  function Init(s: Driver): (r: Driver)
    ensures r.twcr == EnableOnly
    ensures r.twdr == s.twdr
    ensures r.masterTxError == s.masterTxError && r.error == s.error
    ensures Consistent(s) ==> Consistent(r)
  {
    s.(twcr := EnableOnly)
  }

  /** The error helper: copies the latch into `error`. */
  function MtxError(s: Driver): (r: Driver)
    ensures r.error == s.masterTxError
    ensures r.masterTxError == s.masterTxError
    ensures r.twdr == s.twdr && r.twcr == s.twcr
    ensures s.masterTxError <= MAX_ERROR_CODE ==> Consistent(r)
  {
    s.(error := s.masterTxError)
  }

  /** Latch a failure code and report it through `MtxError`. */
  function Fail(s: Driver, code: bv8): (r: Driver)
    ensures r.masterTxError == code && r.error == code
    ensures r.twdr == s.twdr && r.twcr == s.twcr
  {
    MtxError(s.(masterTxError := code))
  }

  /** The tail every transmitting step shares, after it has issued its
      command: a timeout latches `deadLoop`; a completion whose status code is
      not `expected` latches `notReach`; otherwise the latch is cleared and
      `error` is left alone. */
  function AwaitCompletion(s: Driver, obs: Observation, expected: bv8, deadLoop: bv8, notReach: bv8): (r: Driver)
    requires deadLoop != NO_ERROR && notReach != NO_ERROR
    ensures r.twdr == s.twdr && r.twcr == s.twcr
    ensures r.masterTxError == NO_ERROR <==> obs.Completed? && StatusCode(obs.status) == expected
    ensures obs.Timeout? ==> r.masterTxError == deadLoop && r.error == deadLoop
    ensures obs.Completed? && StatusCode(obs.status) != expected ==> r.masterTxError == notReach && r.error == notReach
    ensures r.masterTxError == NO_ERROR ==> r.error == s.error
  {
    match obs
    case Timeout => Fail(s, deadLoop)
    case Completed(status) =>
      if StatusCode(status) != expected then Fail(s, notReach)
      else s.(masterTxError := NO_ERROR)
  }

  /** Step 1: send a START condition. It does not consult the latch, so any
      earlier latch is overwritten. */
  function Start(s: Driver, obs: Observation): (r: Driver)
    ensures r.twcr == IssueStart && r.twdr == s.twdr
    ensures obs.Timeout? ==> r.masterTxError == MTX_START_DEAD_LOOP && r.error == MTX_START_DEAD_LOOP
    ensures obs.Completed? && StatusCode(obs.status) != TWI_START ==>
              r.masterTxError == MTX_START_NOT_REACH && r.error == MTX_START_NOT_REACH
    ensures obs.Completed? && StatusCode(obs.status) == TWI_START ==>
              r.masterTxError == NO_ERROR && r.error == s.error
    ensures Consistent(s) ==> Consistent(r)
  {
    AwaitCompletion(s.(twcr := IssueStart), obs, TWI_START, MTX_START_DEAD_LOOP, MTX_START_NOT_REACH)
  }

  /** Step 2: send the address byte SLA+W. Skipped entirely while an error is
      latched. */
  function AdrWrite(s: Driver, addr: bv8, obs: Observation): (r: Driver)
    ensures Latched(s) ==> r == s
    ensures !Latched(s) ==> r.twdr == addr && r.twcr == IssueTransmit
    ensures !Latched(s) && obs.Timeout? ==> r.masterTxError == MTX_ADR_DEAD_LOOP && r.error == MTX_ADR_DEAD_LOOP
    ensures !Latched(s) && obs.Completed? && StatusCode(obs.status) != TWI_MTX_ADR_ACK ==>
              r.masterTxError == MTX_ADR_NOT_REACH && r.error == MTX_ADR_NOT_REACH
    ensures !Latched(s) && obs.Completed? && StatusCode(obs.status) == TWI_MTX_ADR_ACK ==>
              r.masterTxError == NO_ERROR && r.error == s.error
    ensures Consistent(s) ==> Consistent(r)
  {
    if Latched(s) then s
    else AwaitCompletion(s.(twdr := addr, twcr := IssueTransmit), obs, TWI_MTX_ADR_ACK, MTX_ADR_DEAD_LOOP, MTX_ADR_NOT_REACH)
  }

  /** Step 3: send one data byte. Skipped entirely while an error is latched. */
  function DataWrite(s: Driver, data: bv8, obs: Observation): (r: Driver)
    ensures Latched(s) ==> r == s
    ensures !Latched(s) ==> r.twdr == data && r.twcr == IssueTransmit
    ensures !Latched(s) && obs.Timeout? ==> r.masterTxError == MTX_DATA_DEAD_LOOP && r.error == MTX_DATA_DEAD_LOOP
    ensures !Latched(s) && obs.Completed? && StatusCode(obs.status) != TWI_MTX_DATA_ACK ==>
              r.masterTxError == MTX_DATA_NOT_REACH && r.error == MTX_DATA_NOT_REACH
    ensures !Latched(s) && obs.Completed? && StatusCode(obs.status) == TWI_MTX_DATA_ACK ==>
              r.masterTxError == NO_ERROR && r.error == s.error
    ensures Consistent(s) ==> Consistent(r)
  {
    if Latched(s) then s
    else AwaitCompletion(s.(twdr := data, twcr := IssueTransmit), obs, TWI_MTX_DATA_ACK, MTX_DATA_DEAD_LOOP, MTX_DATA_NOT_REACH)
  }

  /** Reset the control register: written to 0, then to enable-only. */
  function ResetControl(s: Driver): (r: Driver)
    ensures r.twcr == EnableOnly
    ensures r.masterTxError == s.masterTxError && r.error == s.error && r.twdr == s.twdr
  {
    var cleared := s.(twcr := Disabled);
    cleared.(twcr := EnableOnly)
  }

  /** Step 4: send a STOP condition. The latch is clear afterwards on every
      path. With an error latched the STOP is not sent and `error` keeps the
      failing step's code; a STOP timeout reports the stop dead-loop code; when
      the poll sees TWSTO set, `error` is cleared. The STOP wait reads no
      status byte, so the status carried by a completion is ignored. */
  function Stop(s: Driver, obs: Observation): (r: Driver)
    ensures r.masterTxError == NO_ERROR
    ensures Latched(s) ==> r.error == s.error && r.twcr == EnableOnly && r.twdr == s.twdr
    ensures !Latched(s) && obs.Timeout? ==> r.error == MTX_STOP_DEAD_LOOP && r.twcr == EnableOnly
    ensures !Latched(s) && obs.Completed? ==> r.error == NO_ERROR && r.twcr == IssueStop
    ensures r.twdr == s.twdr
    ensures Consistent(s) ==> Consistent(r)
  {
    if Latched(s) then
      ResetControl(s.(masterTxError := NO_ERROR))
    else
      var issued := s.(twcr := IssueStop);
      match obs
      case Timeout =>
        var reported := Fail(issued, MTX_STOP_DEAD_LOOP);
        ResetControl(reported.(masterTxError := NO_ERROR))
      case Completed(_) =>
        issued.(error := NO_ERROR)
  }

  /** Only the status code matters: statuses that differ in the three
      prescaler bits drive every step to the same state. */
  lemma StepsIgnorePrescalerBits(s: Driver, a: bv8, b: bv8, value: bv8)
    requires (a ^ b) <= 0x07
    ensures Start(s, Completed(a)) == Start(s, Completed(b))
    ensures AdrWrite(s, value, Completed(a)) == AdrWrite(s, value, Completed(b))
    ensures DataWrite(s, value, Completed(a)) == DataWrite(s, value, Completed(b))
    ensures Stop(s, Completed(a)) == Stop(s, Completed(b))
  {
  }

  /** Initialising from power-on leaves a consistent, unlatched driver. */
  lemma InitialStateConsistent()
    ensures Consistent(PowerOn) && !Latched(PowerOn)
    ensures Consistent(Init(PowerOn)) && Init(PowerOn).twcr == EnableOnly
  {
  }
}
