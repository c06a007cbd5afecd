/** Sequences of driver steps, and the outcome of a whole master-transmitter
    transaction: START, address, zero or more data bytes, STOP.

    The outcome is related to a reference definition that does not mention
    driver state at all: `Verdict` gives the code each step reports when it
    runs, and `FirstFailure` picks the first non-zero one. */
module Transaction {
  import opened TwiCodes
  import opened MasterTwi

  /** One call into the driver. */
  datatype Step = StartStep | AddressStep(addr: bv8) | DataStep(data: bv8) | StopStep

  /** A call together with what its completion poll observed. */
  datatype Event = Event(step: Step, obs: Observation)

  /** One data byte of a transaction and what its poll observed. */
  datatype DataByte = DataByte(value: bv8, obs: Observation)

  /** A whole transaction: the observations of START, address and STOP, the
      address byte, and the data bytes. */
  datatype Transfer = Transfer(start: Observation, address: bv8, addressAck: Observation,
                               data: seq<DataByte>, stop: Observation)

  /** Perform one call. */
  function Apply(s: Driver, e: Event): (r: Driver)
    ensures Consistent(s) ==> Consistent(r)
    ensures e.step.StopStep? ==> !Latched(r)
  {
    match e.step
    case StartStep => Start(s, e.obs)
    case AddressStep(addr) => AdrWrite(s, addr, e.obs)
    case DataStep(data) => DataWrite(s, data, e.obs)
    case StopStep => Stop(s, e.obs)
  }

  /** Perform calls in order. */
  function Run(s: Driver, es: seq<Event>): (r: Driver)
    ensures Consistent(s) ==> Consistent(r)
    ensures |es| > 0 && es[|es| - 1].step.StopStep? ==> !Latched(r)
    decreases |es|
  {
    if |es| == 0 then s
    else
      var next := Apply(s, es[0]);
      assert es[1..] == [] || es[1..][|es[1..]| - 1] == es[|es| - 1];
      Run(next, es[1..])
  }

  /** The code a step reports when it is not skipped: 0 on success, its
      dead-loop code on timeout, its not-reached code on a wrong status. */
  function Verdict(e: Event): (code: bv8)
    ensures code <= MAX_ERROR_CODE
  {
    match (e.step, e.obs)
    case (StartStep, Timeout) => MTX_START_DEAD_LOOP
    case (StartStep, Completed(st)) => if StatusCode(st) == TWI_START then NO_ERROR else MTX_START_NOT_REACH
    case (AddressStep(_), Timeout) => MTX_ADR_DEAD_LOOP
    case (AddressStep(_), Completed(st)) => if StatusCode(st) == TWI_MTX_ADR_ACK then NO_ERROR else MTX_ADR_NOT_REACH
    case (DataStep(_), Timeout) => MTX_DATA_DEAD_LOOP
    case (DataStep(_), Completed(st)) => if StatusCode(st) == TWI_MTX_DATA_ACK then NO_ERROR else MTX_DATA_NOT_REACH
    case (StopStep, Timeout) => MTX_STOP_DEAD_LOOP
    case (StopStep, Completed(_)) => NO_ERROR
  }

  /** The code of the first step whose verdict is a failure, or 0 when every
      step succeeds. */
  function FirstFailure(es: seq<Event>): (code: bv8)
    ensures code != NO_ERROR <==> exists i :: 0 <= i < |es| && Verdict(es[i]) != NO_ERROR
    ensures code != NO_ERROR ==>
              exists i :: 0 <= i < |es| && Verdict(es[i]) == code &&
                          forall j :: 0 <= j < i ==> Verdict(es[j]) == NO_ERROR
    decreases |es|
  {
    if |es| == 0 then NO_ERROR
    else if Verdict(es[0]) != NO_ERROR then Verdict(es[0])
    else
      var rest := FirstFailure(es[1..]);
      assert forall i :: 1 <= i < |es| ==> es[i] == es[1..][i - 1];
      rest
  }

  /** True when every call is an address or a data write. */
  predicate AllWrites(es: seq<Event>) {
    forall i :: 0 <= i < |es| ==> es[i].step.AddressStep? || es[i].step.DataStep?
  }

  /** The data bytes of a transaction as driver calls. */
  function DataEvents(data: seq<DataByte>): seq<Event>
  {
    seq(|data|, i requires 0 <= i < |data| => Event(DataStep(data[i].value), data[i].obs))
  }

  /** The calls a transaction makes, in order. */
  function Events(t: Transfer): (es: seq<Event>)
    ensures |es| == |t.data| + 3
    ensures es[0] == Event(StartStep, t.start)
    ensures es[1] == Event(AddressStep(t.address), t.addressAck)
    ensures AllWrites(es[1..|es| - 1])
    ensures es[|es| - 1] == Event(StopStep, t.stop)
  {
    [Event(StartStep, t.start), Event(AddressStep(t.address), t.addressAck)]
      + DataEvents(t.data) + [Event(StopStep, t.stop)]
  }

  // ---------------------------------------------------------------------
  // Lemmas
  // ---------------------------------------------------------------------

  /** Running two call sequences one after the other is running their
      concatenation. */
  lemma {:induction false} RunAppend(s: Driver, a: seq<Event>, b: seq<Event>)
    ensures Run(s, a + b) == Run(Run(s, a), b)
    decreases |a|
  {
    if |a| == 0 {
      assert a + b == b;
    } else {
      assert (a + b)[0] == a[0];
      assert (a + b)[1..] == a[1..] + b;
      RunAppend(Apply(s, a[0]), a[1..], b);
    }
  }

  /** The first failure of a concatenation is the first failure of the front
      part, or of the back part when the front part succeeds throughout. */
  lemma {:induction false} FirstFailureAppend(a: seq<Event>, b: seq<Event>)
    ensures FirstFailure(a + b) == if FirstFailure(a) != NO_ERROR then FirstFailure(a) else FirstFailure(b)
    decreases |a|
  {
    if |a| == 0 {
      assert a + b == b;
    } else {
      assert (a + b)[0] == a[0];
      assert (a + b)[1..] == a[1..] + b;
      FirstFailureAppend(a[1..], b);
    }
  }

  /** One call from an unlatched driver latches exactly its verdict; on
      success `error` is left as it was, on failure it mirrors the latch. */
  lemma ApplyUnlatched(s: Driver, e: Event)
    requires !Latched(s) || e.step.StartStep?
    requires !e.step.StopStep?
    ensures Apply(s, e).masterTxError == Verdict(e)
    ensures Verdict(e) == NO_ERROR ==> Apply(s, e).error == s.error
    ensures Verdict(e) != NO_ERROR ==> Apply(s, e).error == Verdict(e)
  {
  }

  /** Gating: while an error is latched, address and data writes change
      nothing at all, neither the globals nor the registers. */
  lemma {:induction false} LatchedWritesSkipped(s: Driver, ws: seq<Event>)
    requires Latched(s)
    requires AllWrites(ws)
    ensures Run(s, ws) == s
    decreases |ws|
  {
    if |ws| > 0 {
      assert Apply(s, ws[0]) == s;
      assert AllWrites(ws[1..]) by {
        forall i | 0 <= i < |ws[1..]| ensures ws[1..][i] == ws[i + 1] { }
      }
      LatchedWritesSkipped(s, ws[1..]);
    }
  }

  /** A run of writes from an unlatched driver ends latched with the first
      failing write's code, mirrored in `error`; when every write succeeds the
      latch stays clear and `error` is untouched. */
  lemma {:induction false} UnlatchedWritesOutcome(s: Driver, ws: seq<Event>)
    requires !Latched(s)
    requires AllWrites(ws)
    ensures Run(s, ws).masterTxError == FirstFailure(ws)
    ensures FirstFailure(ws) == NO_ERROR ==> Run(s, ws).error == s.error
    ensures FirstFailure(ws) != NO_ERROR ==> Run(s, ws).error == FirstFailure(ws)
    decreases |ws|
  {
    if |ws| > 0 {
      var next := Apply(s, ws[0]);
      ApplyUnlatched(s, ws[0]);
      assert AllWrites(ws[1..]) by {
        forall i | 0 <= i < |ws[1..]| ensures ws[1..][i] == ws[i + 1] { }
      }
      if Verdict(ws[0]) != NO_ERROR {
        LatchedWritesSkipped(next, ws[1..]);
      } else {
        UnlatchedWritesOutcome(next, ws[1..]);
      }
    }
  }

  /** End-to-end outcome of a transaction, from any prior driver state: the
      latch is clear, `error` is the code of the first failing step (0 when
      every step, the STOP included, succeeds), and the control register was
      last left issuing the STOP exactly when the transaction succeeded. */
  lemma TransferOutcome(s: Driver, t: Transfer)
    ensures var r := Run(s, Events(t));
            && r.masterTxError == NO_ERROR
            && r.error == FirstFailure(Events(t))
            && (r.twcr == IssueStop <==> r.error == NO_ERROR)
  {
    var es := Events(t);
    var head := es[..1];
    var writes := es[1..|es| - 1];
    var tail := es[|es| - 1..];
    assert es == head + (writes + tail);
    RunAppend(s, head, writes + tail);
    FirstFailureAppend(head, writes + tail);
    var s1 := Run(s, head);
    assert s1 == Start(s, t.start);
    RunAppend(s1, writes, tail);
    FirstFailureAppend(writes, tail);
    var s2 := Run(s1, writes);
    assert Run(s2, tail) == Stop(s2, t.stop);
    ApplyUnlatched(s, es[0]);
    assert FirstFailure(head) == Verdict(es[0]);
    assert FirstFailure(tail) == Verdict(es[|es| - 1]);
    if Latched(s1) {
      LatchedWritesSkipped(s1, writes);
    } else {
      UnlatchedWritesOutcome(s1, writes);
    }
  }

  /** A transaction leaves `error` at 0 exactly when every step succeeded. */
  lemma TransferSucceedsIff(s: Driver, t: Transfer)
    ensures Run(s, Events(t)).error == NO_ERROR <==>
            forall i :: 0 <= i < |Events(t)| ==> Verdict(Events(t)[i]) == NO_ERROR
  {
    TransferOutcome(s, t);
  }
}
