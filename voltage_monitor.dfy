/**
 * The voltage-hysteresis firmware: one flag, circuitTripped, and one MOSFET
 * pin. Each pass of loop() first applies the hysteresis rule to the load
 * voltage (trip at or above 5.0 V, reset at or below 3.0 V) and then acts on
 * at most one received command byte ('0' trips, '1' resets), discarding the
 * rest of the receive buffer.
 */
module VoltageMonitor {
  import opened Wrappers

  /** autoCloseVoltageThresholdHigh */
  const High: real := 5.0

  /** autoCloseVoltageThresholdLow */
  const Low: real := 3.0

  /** circuitTripped and the level last written to mosfetPin (true for HIGH). */
  datatype Monitor = Monitor(tripped: bool, pinHigh: bool)

  /** After setup(): not tripped, pin HIGH. */
  function Initial(): (m: Monitor)
    ensures !m.tripped && m.pinHigh
  {
    Monitor(false, true)
  }

  /** The hysteresis branch of loop(). */
  function Hysteresis(m: Monitor, voltage: real): (r: Monitor)
    ensures r.tripped <==> if m.tripped then voltage > Low else voltage >= High
    ensures r == m || Consistent(r)
  {
    if !m.tripped then
      if voltage >= High then Monitor(true, true) else m
    else
      if voltage <= Low then Monitor(false, false) else m
  }

  /** The manual branch of loop() for one command byte. */
  function Manual(m: Monitor, command: char): (r: Monitor)
    ensures r.tripped <==> command == '0' || (m.tripped && command != '1')
    ensures r == m || Consistent(r)
  {
    if command == '0' && !m.tripped then Monitor(true, true)
    else if command == '1' then Monitor(false, false)
    else m
  }

  /** One pass of loop(): the hysteresis rule, then the first received byte if there is one. */
  function Step(m: Monitor, voltage: real, command: Option<char>): (r: Monitor)
    ensures r.tripped <==> (command == Some('0')
                            || (command != Some('1') && if m.tripped then voltage > Low else voltage >= High))
  {
    var h := Hysteresis(m, voltage);
    if command.Some? then Manual(h, command.value) else h
  }

  class VoltSens {
    var circuitTripped: bool
    var mosfetPinHigh: bool
    /** Bytes received and not yet read. */
    var rxBuffer: seq<char>

    ghost function State(): Monitor
      reads this
    {
      Monitor(circuitTripped, mosfetPinHigh)
    }

    /** The global initialiser and setup(). */
    constructor ()
      ensures State() == Initial() && rxBuffer == []
    {
      circuitTripped := false;
      mosfetPinHigh := true;
      rxBuffer := [];
    }

    /** Bytes arriving on the serial port between two passes. */
    method Receive(bytes: seq<char>)
      modifies this`rxBuffer
      ensures rxBuffer == old(rxBuffer) + bytes
    {
      rxBuffer := rxBuffer + bytes;
    }

    /** One pass of loop(), with the calibrated load voltage as input. */
    method Loop(dcLoadVoltage: real)
      modifies this
      ensures State() == Step(old(State()), dcLoadVoltage, if old(rxBuffer) == [] then None else Some(old(rxBuffer)[0]))
      ensures rxBuffer == []
    {
      if circuitTripped == false {
        if dcLoadVoltage >= High {
          mosfetPinHigh := true;
          circuitTripped := true;
        }
      } else {
        if dcLoadVoltage <= Low {
          mosfetPinHigh := false;
          circuitTripped := false;
        }
      }

      if |rxBuffer| > 0 {
        var incomingCommand := rxBuffer[0];
        rxBuffer := rxBuffer[1..];
        if incomingCommand == '0' && !circuitTripped {
          mosfetPinHigh := true;
          circuitTripped := true;
        } else if incomingCommand == '1' {
          mosfetPinHigh := false;
          circuitTripped := false;
        }
        ghost var settled := State();
        while |rxBuffer| > 0
          invariant State() == settled
          decreases |rxBuffer|
        {
          rxBuffer := rxBuffer[1..];
        }
      }
    }
  }

  // ---------------------------------------------------------------------------
  // Single passes

  lemma TripAtHigh(m: Monitor, voltage: real)
    requires !m.tripped && voltage >= High
    ensures Step(m, voltage, None) == Monitor(true, true)
  {
  }

  lemma ResetAtLow(m: Monitor, voltage: real)
    requires m.tripped && voltage <= Low
    ensures Step(m, voltage, None) == Monitor(false, false)
  {
  }

  /** Between the thresholds, with no command, a pass changes nothing. */
  lemma DeadBand(m: Monitor, voltage: real)
    requires Low < voltage < High
    ensures Step(m, voltage, None) == m
  {
  }

  /** '0' trips only a circuit that the hysteresis left untripped; '0' on a tripped circuit and unknown bytes do nothing. */
  lemma ManualTrip(m: Monitor, voltage: real, command: char)
    requires command != '1'
    ensures var h := Hysteresis(m, voltage);
      Step(m, voltage, Some(command)) == if command == '0' && !h.tripped then Monitor(true, true) else h
  {
  }

  /** '1' always resets and drives the pin LOW. */
  lemma ManualReset(m: Monitor, voltage: real)
    ensures Step(m, voltage, Some('1')) == Monitor(false, false)
  {
  }

  /**
   * The hysteresis rule is applied before the command: a voltage at the high
   * threshold trips first, so a '0' in the same pass is refused and a '1'
   * undoes the trip.
   */
  lemma HysteresisBeforeCommand(voltage: real)
    requires voltage >= High
    ensures Step(Initial(), voltage, Some('0')) == Monitor(true, true)
    ensures Step(Initial(), voltage, Some('1')) == Monitor(false, false)
  {
  }

  /** The pin agrees with the flag: HIGH exactly when tripped. */
  predicate Consistent(m: Monitor) {
    m.pinHigh == m.tripped
  }

  /** Every pass either leaves the state as it was or writes the pin that belongs with the new flag. */
  lemma StepPairsPinWithFlag(m: Monitor, voltage: real, command: Option<char>)
    ensures Step(m, voltage, command) == m || Consistent(Step(m, voltage, command))
  {
  }

  // ---------------------------------------------------------------------------
  // Runs of passes

  /** What one pass reads: the load voltage and the first received byte, if any. */
  datatype Input = Input(voltage: real, command: Option<char>)

  function Run(m: Monitor, inputs: seq<Input>): Monitor
    decreases |inputs|
  {
    if inputs == [] then m else Run(Step(m, inputs[0].voltage, inputs[0].command), inputs[1..])
  }

  datatype Event = Trip | Reset

  /** The changes of circuitTripped over a run, in order. */
  function Events(m: Monitor, inputs: seq<Input>): seq<Event>
    decreases |inputs|
  {
    if inputs == [] then []
    else
      var next := Step(m, inputs[0].voltage, inputs[0].command);
      (if next.tripped == m.tripped then [] else if next.tripped then [Trip] else [Reset])
        + Events(next, inputs[1..])
  }

  predicate NoCommands(inputs: seq<Input>) {
    forall i :: 0 <= i < |inputs| ==> inputs[i].command.None?
  }

  lemma {:induction false} RunAppend(m: Monitor, a: seq<Input>, b: seq<Input>)
    ensures Run(m, a + b) == Run(Run(m, a), b)
    ensures Events(m, a + b) == Events(m, a) + Events(Run(m, a), b)
    decreases |a|
  {
    if a == [] {
      assert a + b == b;
    } else {
      assert (a + b)[1..] == a[1..] + b;
      RunAppend(Step(m, a[0].voltage, a[0].command), a[1..], b);
    }
  }

  /** Without commands, an untripped circuit stays untripped while the voltage stays below the high threshold. */
  lemma {:induction false} QuietBelowHigh(m: Monitor, inputs: seq<Input>)
    requires !m.tripped && NoCommands(inputs)
    requires forall i :: 0 <= i < |inputs| ==> inputs[i].voltage < High
    ensures Run(m, inputs) == m && Events(m, inputs) == []
    decreases |inputs|
  {
    if inputs != [] {
      assert Step(m, inputs[0].voltage, inputs[0].command) == m;
      QuietBelowHigh(m, inputs[1..]);
    }
  }

  /** Without commands, a tripped circuit stays tripped while the voltage stays above the low threshold. */
  lemma {:induction false} QuietAboveLow(m: Monitor, inputs: seq<Input>)
    requires m.tripped && NoCommands(inputs)
    requires forall i :: 0 <= i < |inputs| ==> inputs[i].voltage > Low
    ensures Run(m, inputs) == m && Events(m, inputs) == []
    decreases |inputs|
  {
    if inputs != [] {
      assert Step(m, inputs[0].voltage, inputs[0].command) == m;
      QuietAboveLow(m, inputs[1..]);
    }
  }

  /** Since Low < High, voltages strictly inside the dead band cause no transition at all. */
  lemma NoChatterInDeadBand(m: Monitor, inputs: seq<Input>)
    requires NoCommands(inputs)
    requires forall i :: 0 <= i < |inputs| ==> Low < inputs[i].voltage < High
    ensures Run(m, inputs) == m && Events(m, inputs) == []
  {
    if m.tripped {
      QuietAboveLow(m, inputs);
    } else {
      QuietBelowHigh(m, inputs);
    }
  }

  /**
   * Voltages below High, then one at or above High, then voltages above Low,
   * then one at or below Low, then voltages below High: exactly one trip and
   * then one reset.
   */
  lemma OneTripThenOneReset(m: Monitor, before: seq<Input>, rise: Input, high: seq<Input>,
                            fall: Input, after: seq<Input>)
    requires !m.tripped
    requires NoCommands(before) && rise.command.None? && NoCommands(high) && fall.command.None? && NoCommands(after)
    requires forall i :: 0 <= i < |before| ==> before[i].voltage < High
    requires rise.voltage >= High
    requires forall i :: 0 <= i < |high| ==> high[i].voltage > Low
    requires fall.voltage <= Low
    requires forall i :: 0 <= i < |after| ==> after[i].voltage < High
    ensures Events(m, before + [rise] + high + [fall] + after) == [Trip, Reset]
    ensures !Run(m, before + [rise] + high + [fall] + after).tripped
  {
    var tripped := Monitor(true, true);
    var reset := Monitor(false, false);
    RisePhase(m, before, rise);
    FallPhase(high, fall);
    QuietBelowHigh(reset, after);
    RunAppend(m, before + [rise], high + [fall]);
    assert before + [rise] + high + [fall] == (before + [rise]) + (high + [fall]);
    RunAppend(m, before + [rise] + high + [fall], after);
  }

  /** Below High, then at or above High: one trip. */
  lemma RisePhase(m: Monitor, before: seq<Input>, rise: Input)
    requires !m.tripped && NoCommands(before) && rise.command.None? && rise.voltage >= High
    requires forall i :: 0 <= i < |before| ==> before[i].voltage < High
    ensures Run(m, before + [rise]) == Monitor(true, true) && Events(m, before + [rise]) == [Trip]
  {
    QuietBelowHigh(m, before);
    SinglePass(m, rise);
    RunAppend(m, before, [rise]);
  }

  /** Tripped, above Low, then at or below Low: one reset. */
  lemma FallPhase(high: seq<Input>, fall: Input)
    requires NoCommands(high) && fall.command.None? && fall.voltage <= Low
    requires forall i :: 0 <= i < |high| ==> high[i].voltage > Low
    ensures Run(Monitor(true, true), high + [fall]) == Monitor(false, false)
    ensures Events(Monitor(true, true), high + [fall]) == [Reset]
  {
    QuietAboveLow(Monitor(true, true), high);
    SinglePass(Monitor(true, true), fall);
    RunAppend(Monitor(true, true), high, [fall]);
  }

  lemma SinglePass(m: Monitor, x: Input)
    ensures Run(m, [x]) == Step(m, x.voltage, x.command)
    ensures var next := Step(m, x.voltage, x.command);
      Events(m, [x]) == if next.tripped == m.tripped then [] else if next.tripped then [Trip] else [Reset]
  {
    assert [x][1..] == [];
  }

  /** A tripped circuit always has its pin HIGH: each pass keeps it so, and so does the initial state. */
  lemma {:induction false} TrippedMeansPinHigh(m: Monitor, inputs: seq<Input>)
    requires m.tripped ==> m.pinHigh
    ensures Run(m, inputs).tripped ==> Run(m, inputs).pinHigh
    decreases |inputs|
  {
    if inputs != [] {
      TrippedMeansPinHigh(Step(m, inputs[0].voltage, inputs[0].command), inputs[1..]);
    }
  }

  lemma {:induction false} ConsistentStaysConsistent(m: Monitor, inputs: seq<Input>)
    requires Consistent(m)
    ensures Consistent(Run(m, inputs))
    decreases |inputs|
  {
    if inputs != [] {
      StepPairsPinWithFlag(m, inputs[0].voltage, inputs[0].command);
      ConsistentStaysConsistent(Step(m, inputs[0].voltage, inputs[0].command), inputs[1..]);
    }
  }

  /** The initial state (pin HIGH, not tripped) is the only state in which the pin disagrees with the flag. */
  lemma {:induction false} OnlyInitialIsInconsistent(inputs: seq<Input>)
    ensures Run(Initial(), inputs) == Initial() || Consistent(Run(Initial(), inputs))
    decreases |inputs|
  {
    if inputs != [] {
      var next := Step(Initial(), inputs[0].voltage, inputs[0].command);
      StepPairsPinWithFlag(Initial(), inputs[0].voltage, inputs[0].command);
      if next == Initial() {
        OnlyInitialIsInconsistent(inputs[1..]);
      } else {
        ConsistentStaysConsistent(next, inputs[1..]);
      }
    }
  }
}
