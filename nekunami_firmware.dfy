/**
 * The current-based, text-protocol breaker firmware: three breakers held in
 * global arrays (0 is the overall breaker, 1 and 2 the loads), a latching
 * current-window trip on load 1, the "T,i,v" / "M,i,v" / "m,i,v" command lines
 * and the "mask|system|total|load1|load2" telemetry line sent at most every
 * 100 ms.
 *
 * The model assumes an AVR board (readCurrent converts a 10-bit ADC reading
 * against a 5 V reference): int is 16 bits, long
 * and unsigned long are 32 bits.
 */
module NekunamiFirmware {
  import opened Wrappers
  import opened ArduinoText

  /** sendInterval: the least number of milliseconds between two telemetry lines. */
  const SendInterval := 100

  /** millis() and lastSendTime are 32-bit unsigned longs. */
  const ULongRange := 0x1_0000_0000

  /** The conversion of a long to the 16-bit int that holds breakerIndex. */
  function ToCInt(x: int): (r: int)
    ensures -0x8000 <= r < 0x8000
    ensures (r - x) % 0x1_0000 == 0
    ensures -0x8000 <= x < 0x8000 ==> r == x
  {
    (x + 0x8000) % 0x1_0000 - 0x8000
  }

  /** The contents of the arrays breakerIsOn, maxCurrents and minCurrents. */
  datatype BreakerBank = BreakerBank(isOn: seq<bool>, maxCurrents: seq<real>, minCurrents: seq<real>) {

    predicate WellFormed() {
      |isOn| == 3 && |maxCurrents| == 3 && |minCurrents| == 3
    }

    /** A load breaker is on only while the overall breaker is on. */
    predicate RootGatesLoads() {
      WellFormed() && (!isOn[0] ==> !isOn[1] && !isOn[2])
    }
  }

  /** The values the globals start with: all off, maxima 5.0 A and minima 0.1 A for the loads. */
  function InitialBank(): (b: BreakerBank)
    ensures b.RootGatesLoads() && !b.isOn[0] && !b.isOn[1] && !b.isOn[2]
    ensures b.minCurrents[1] < b.maxCurrents[1] && b.minCurrents[2] < b.maxCurrents[2]
  {
    BreakerBank([false, false, false], [0.0, 5.0, 5.0], [0.0, 0.1, 0.1])
  }

  /**
   * setBreakerState: an index outside 0..2 is ignored; the overall breaker is
   * set as asked, and switching it off switches both loads off through the
   * same routine; a load may not be switched on while the overall breaker is off.
   */
  function SetState(b: BreakerBank, index: int, on: bool): (r: BreakerBank)
    requires b.WellFormed()
    ensures r.WellFormed()
    ensures r.maxCurrents == b.maxCurrents && r.minCurrents == b.minCurrents
    ensures index < 0 || index > 2 ==> r == b
    ensures index == 0 ==> r.isOn[0] == on
    ensures index == 0 && on ==> r.isOn[1] == b.isOn[1] && r.isOn[2] == b.isOn[2]
    ensures index == 0 && !on ==> !r.isOn[1] && !r.isOn[2]
    ensures 0 < index < 3 ==> r.isOn[index] == (if on && !b.isOn[0] then b.isOn[index] else on)
    ensures 0 < index < 3 ==> forall j :: 0 <= j < 3 && j != index ==> r.isOn[j] == b.isOn[j]
    ensures b.RootGatesLoads() ==> r.RootGatesLoads()
    decreases if index == 0 then 1 else 0
  {
    if index < 0 || index > 2 then b
    else if index == 0 then
      var root := b.(isOn := b.isOn[0 := on]);
      if on then root else SetState(SetState(root, 1, false), 2, false)
    else if on && !b.isOn[0] then b
    else b.(isOn := b.isOn[index := on])
  }

  /** The trip condition of updateBreakerLogic: at or above the maximum, or drawing current below the minimum. */
  predicate OutsideWindow(b: BreakerBank, loadCurrent: real)
    requires b.WellFormed()
  {
    loadCurrent >= b.maxCurrents[1] || (loadCurrent > 0.0 && loadCurrent < b.minCurrents[1])
  }

  /** updateBreakerLogic: switch load 1 off when it is on and its current is outside the window. */
  function AutoTrip(b: BreakerBank, loadCurrent: real): (r: BreakerBank)
    requires b.WellFormed()
    ensures r.WellFormed()
    ensures r.maxCurrents == b.maxCurrents && r.minCurrents == b.minCurrents
    ensures r.isOn[0] == b.isOn[0] && r.isOn[2] == b.isOn[2]
    ensures r.isOn[1] <==> b.isOn[1] && !OutsideWindow(b, loadCurrent)
    ensures forall i :: 0 <= i < 3 && r.isOn[i] ==> b.isOn[i]
    ensures b.RootGatesLoads() ==> r.RootGatesLoads()
  {
    if b.isOn[1] && OutsideWindow(b, loadCurrent) then SetState(b, 1, false) else b
  }

  /** What one command line asks for, as handleSerialCommands reads it. */
  datatype Command =
    | Toggle(index: int, on: bool)
    | SetMax(index: int, value: real)
    | SetMin(index: int, value: real)
    | Ignored

  /** command.substring(2): empty when the line has two characters or fewer, and cut at its first NUL. */
  function Payload(line: string): string {
    if |line| <= 2 then "" else UpToNul(line[2..])
  }

  function CommaPosition(line: string): int {
    IndexOf(Payload(line), ',')
  }

  /** The text before the first comma of the payload. */
  function IndexText(line: string): string
    requires CommaPosition(line) >= 0
  {
    Payload(line)[..CommaPosition(line)]
  }

  /** The text after the first comma of the payload. */
  function ValueText(line: string): string
    requires CommaPosition(line) >= 0
  {
    Payload(line)[CommaPosition(line) + 1..]
  }

  /**
   * The parsing half of handleSerialCommands. The line is trimmed; the first
   * character is the command type and the second is skipped unread; an empty
   * line or a payload without a comma is dropped.
   */
  function ParseCommand(raw: string): (r: Command)
    ensures !r.Ignored? ==>
      var line := Trim(raw);
      |line| > 0 && CommaPosition(line) >= 0 && line[0] in "TMm"
    ensures !r.Ignored? ==> -0x8000 <= r.index < 0x8000
  {
    var line := Trim(raw);
    if |line| == 0 || CommaPosition(line) == -1 then Ignored
    else
      var index := ToCInt(ToInt(IndexText(line)));
      match line[0]
      case 'T' => Toggle(index, ToInt(ValueText(line)) == 1)
      case 'M' => SetMax(index, ToFloat(ValueText(line)))
      case 'm' => SetMin(index, ToFloat(ValueText(line)))
      case _ => Ignored
  }

  /** The effect half of handleSerialCommands: thresholds are accepted for the loads only. */
  function Apply(b: BreakerBank, cmd: Command): (r: BreakerBank)
    requires b.WellFormed()
    ensures r.WellFormed()
    ensures b.RootGatesLoads() ==> r.RootGatesLoads()
    ensures r.maxCurrents[0] == b.maxCurrents[0] && r.minCurrents[0] == b.minCurrents[0]
  {
    match cmd
    case Toggle(index, on) => SetState(b, index, on)
    case SetMax(index, value) =>
      if index > 0 && index < 3 then b.(maxCurrents := b.maxCurrents[index := value]) else b
    case SetMin(index, value) =>
      if index > 0 && index < 3 then b.(minCurrents := b.minCurrents[index := value]) else b
    case Ignored => b
  }

  /** One received line, parsed and carried out: the overall breaker's thresholds are out of its reach. */
  function ExecuteLine(b: BreakerBank, raw: string): (r: BreakerBank)
    requires b.WellFormed()
    ensures r.WellFormed()
    ensures b.RootGatesLoads() ==> r.RootGatesLoads()
    ensures r.maxCurrents[0] == b.maxCurrents[0] && r.minCurrents[0] == b.minCurrents[0]
  {
    Apply(b, ParseCommand(raw))
  }

  /** handleSerialCommands: at most one line per pass, none when nothing has arrived. */
  function HandleInput(b: BreakerBank, input: Option<string>): (r: BreakerBank)
    requires b.WellFormed()
    ensures r.WellFormed()
    ensures b.RootGatesLoads() ==> r.RootGatesLoads()
    ensures r.maxCurrents[0] == b.maxCurrents[0] && r.minCurrents[0] == b.minCurrents[0]
    ensures input.None? ==> r == b
  {
    if input.None? then b else ExecuteLine(b, input.value)
  }

  /** The mask built by the first n passes of sendDataPacket's loop. */
  function MaskBits(on: seq<bool>, n: nat): bv8
    requires n <= |on| && n <= 8
  {
    if n == 0 then 0
    else MaskBits(on, n - 1) | (if on[n - 1] then (1 as bv8) << (n - 1) else 0)
  }

  function StatusMask(on: seq<bool>): bv8
    requires |on| == 3
  {
    MaskBits(on, 3)
  }

  /** The line sendDataPacket prints, without the line terminator println adds. */
  function TelemetryLine(statusMask: bv8, systemCurrent: real, load1Current: real, fmt: real -> string): string {
    var load2Current := 0.0;
    var totalLoadCurrent := load1Current + load2Current;
    DecimalString(statusMask as int) + "|" + fmt(systemCurrent) + "|" + fmt(totalLoadCurrent)
      + "|" + fmt(load1Current) + "|" + fmt(load2Current)
  }

  /** millis() - lastSendTime in unsigned long arithmetic. */
  function Elapsed(now: int, last: int): (d: int)
    requires 0 <= now < ULongRange && 0 <= last < ULongRange
    ensures 0 <= d < ULongRange
    ensures now >= last ==> d == now - last
    ensures now < last ==> d == now + ULongRange - last
  {
    (now - last) % ULongRange
  }

  /** The firmware's global state; the arrays themselves are never replaced. */
  class Firmware {
    const breakerIsOn: array<bool>
    const maxCurrents: array<real>
    const minCurrents: array<real>
    var lastSendTime: int

    ghost predicate Shape()
      reads this
    {
      breakerIsOn.Length == 3 && maxCurrents.Length == 3 && minCurrents.Length == 3
      && maxCurrents != minCurrents && 0 <= lastSendTime < ULongRange
    }

    ghost function Bank(): (b: BreakerBank)
      reads this, breakerIsOn, maxCurrents, minCurrents
      requires Shape()
      ensures b.WellFormed()
    {
      BreakerBank(breakerIsOn[..], maxCurrents[..], minCurrents[..])
    }

    ghost predicate Valid()
      reads this, breakerIsOn, maxCurrents, minCurrents
    {
      Shape() && Bank().RootGatesLoads()
    }

    /** The globals' initial values. */
    constructor ()
      ensures Valid() && Bank() == InitialBank() && lastSendTime == 0
      ensures fresh(breakerIsOn) && fresh(maxCurrents) && fresh(minCurrents)
    {
      breakerIsOn := new bool[] [false, false, false];
      maxCurrents := new real[] [0.0, 5.0, 5.0];
      minCurrents := new real[] [0.0, 0.1, 0.1];
      lastSendTime := 0;
      new;
      assert breakerIsOn[..] == [false, false, false];
      assert maxCurrents[..] == [0.0, 5.0, 5.0];
      assert minCurrents[..] == [0.0, 0.1, 0.1];
    }

    method SetBreakerState(index: int, isOn: bool)
      requires Shape()
      modifies breakerIsOn
      ensures Bank() == SetState(old(Bank()), index, isOn)
      ensures old(Bank()).RootGatesLoads() ==> Valid()
      decreases if index == 0 then 1 else 0
    {
      if index < 0 || index > 2 {
        return;
      }
      if index == 0 {
        breakerIsOn[0] := isOn;
        if !isOn {
          for i := 1 to 3
            invariant !breakerIsOn[0]
            invariant forall j :: 1 <= j < i ==> !breakerIsOn[j]
          {
            SetBreakerState(i, false);
          }
          assert breakerIsOn[..] == [false, false, false];
        }
      } else {
        if isOn && !breakerIsOn[0] {
          return;
        }
        breakerIsOn[index] := isOn;
      }
    }

    method UpdateBreakerLogic(dcLoadCurrent: real)
      requires Shape()
      modifies breakerIsOn
      ensures Bank() == AutoTrip(old(Bank()), dcLoadCurrent)
    {
      if breakerIsOn[1] {
        if dcLoadCurrent >= maxCurrents[1] || (dcLoadCurrent > 0.0 && dcLoadCurrent < minCurrents[1]) {
          SetBreakerState(1, false);
        }
      }
    }

    /** input is the line Serial.readStringUntil returned, or None when no byte was available. */
    method HandleSerialCommands(input: Option<string>)
      requires Shape()
      modifies breakerIsOn, maxCurrents, minCurrents
      ensures Bank() == HandleInput(old(Bank()), input)
    {
      if input.None? {
        return;
      }
      var cmd := ParseCommand(input.value);
      assert HandleInput(Bank(), input) == Apply(Bank(), cmd);
      match cmd
      case Toggle(breakerIndex, newState) =>
        SetBreakerState(breakerIndex, newState);
      case SetMax(breakerIndex, newMax) =>
        if breakerIndex > 0 && breakerIndex < 3 {
          maxCurrents[breakerIndex] := newMax;
        }
      case SetMin(breakerIndex, newMin) =>
        if breakerIndex > 0 && breakerIndex < 3 {
          minCurrents[breakerIndex] := newMin;
        }
      case Ignored =>
    }

    method ComputeStatusMask() returns (statusMask: bv8)
      requires Shape()
      ensures statusMask == StatusMask(breakerIsOn[..])
    {
      statusMask := 0;
      for i := 0 to 3
        invariant statusMask == MaskBits(breakerIsOn[..], i)
      {
        if breakerIsOn[i] {
          statusMask := statusMask | ((1 as bv8) << i);
        }
      }
    }

    /**
     * sendDataPacket with the two current readings as inputs; fmt stands for
     * String(x, 2). Load 2 has no sensor and reads 0.0.
     */
    method SendDataPacket(systemCurrent: real, load1Current: real, fmt: real -> string) returns (dataPacket: string)
      requires Shape()
      ensures dataPacket == TelemetryLine(StatusMask(breakerIsOn[..]), systemCurrent, load1Current, fmt)
    {
      var statusMask := ComputeStatusMask();
      var load2Current := 0.0;
      var totalLoadCurrent := load1Current + load2Current;
      dataPacket := DecimalString(statusMask as int);
      dataPacket := dataPacket + "|" + fmt(systemCurrent);
      dataPacket := dataPacket + "|" + fmt(totalLoadCurrent);
      dataPacket := dataPacket + "|" + fmt(load1Current);
      dataPacket := dataPacket + "|" + fmt(load2Current);
    }

    /**
     * One pass of loop(). The sensor readings and the two millis() readings
     * (before and after sending) are inputs; the result is the line printed, if any.
     */
    method Loop(input: Option<string>, dcLoadCurrent: real, now: int,
                systemCurrent: real, load1Current: real, nowAfterSend: int, fmt: real -> string)
      returns (packet: Option<string>)
      requires Valid()
      requires 0 <= now < ULongRange && 0 <= nowAfterSend < ULongRange
      modifies this, breakerIsOn, maxCurrents, minCurrents
      ensures Valid()
      ensures Bank() == AutoTrip(HandleInput(old(Bank()), input), dcLoadCurrent)
      ensures Elapsed(now, old(lastSendTime)) >= SendInterval ==>
        packet == Some(TelemetryLine(StatusMask(Bank().isOn), systemCurrent, load1Current, fmt))
        && lastSendTime == nowAfterSend
      ensures Elapsed(now, old(lastSendTime)) < SendInterval ==>
        packet == None && lastSendTime == old(lastSendTime)
    {
      HandleSerialCommands(input);
      UpdateBreakerLogic(dcLoadCurrent);
      packet := SendIfDue(now, systemCurrent, load1Current, nowAfterSend, fmt);
    }

    /** The send-interval rule of loop(). */
    method SendIfDue(now: int, systemCurrent: real, load1Current: real, nowAfterSend: int, fmt: real -> string)
      returns (packet: Option<string>)
      requires Shape()
      requires 0 <= now < ULongRange && 0 <= nowAfterSend < ULongRange
      modifies this`lastSendTime
      ensures Shape()
      ensures Elapsed(now, old(lastSendTime)) >= SendInterval ==>
        packet == Some(TelemetryLine(StatusMask(breakerIsOn[..]), systemCurrent, load1Current, fmt))
        && lastSendTime == nowAfterSend
      ensures Elapsed(now, old(lastSendTime)) < SendInterval ==>
        packet == None && lastSendTime == old(lastSendTime)
    {
      packet := None;
      if (now - lastSendTime) % ULongRange >= SendInterval {
        var line := SendDataPacket(systemCurrent, load1Current, fmt);
        packet := Some(line);
        lastSendTime := nowAfterSend;
      }
    }
  }

  // ---------------------------------------------------------------------------
  // Properties of single operations

  lemma SetStateOutOfRangeChangesNothing(b: BreakerBank, index: int, on: bool)
    requires b.WellFormed() && (index < 0 || index > 2)
    ensures SetState(b, index, on) == b
  {
  }

  lemma RootOffCascades(b: BreakerBank)
    requires b.WellFormed()
    ensures SetState(b, 0, false).isOn == [false, false, false]
  {
  }

  lemma LoadRefusedWhileRootOff(b: BreakerBank, index: int)
    requires b.WellFormed() && 0 < index < 3 && !b.isOn[0]
    ensures SetState(b, index, true) == b
  {
  }

  lemma LoadChangeIsLocal(b: BreakerBank, index: int, on: bool)
    requires b.WellFormed() && 0 < index < 3 && (b.isOn[0] || !on)
    ensures SetState(b, index, on) == b.(isOn := b.isOn[index := on])
  {
  }

  /** The status mask has bit i set exactly when breaker i is on, so it is one of 0..7. */
  lemma StatusMaskBits(on: seq<bool>)
    requires |on| == 3
    ensures StatusMask(on) < 8
    ensures forall i :: 0 <= i < 3 ==> ((StatusMask(on) >> i) & 1 == 1 <==> on[i])
    ensures StatusMask(on) as int == (if on[0] then 1 else 0) + (if on[1] then 2 else 0) + (if on[2] then 4 else 0)
  {
    assert MaskBits(on, 1) == if on[0] then 1 else 0;
    assert MaskBits(on, 2) == MaskBits(on, 1) | (if on[1] then 2 else 0);
    assert StatusMask(on) == MaskBits(on, 2) | (if on[2] then 4 else 0);
  }

  /** The telemetry line is five '|'-separated fields, the first the mask in decimal and the total equal to load 1 plus load 2. */
  lemma TelemetryLineFields(statusMask: bv8, systemCurrent: real, load1Current: real, fmt: real -> string)
    requires forall x :: '|' !in fmt(x)
    ensures Split(TelemetryLine(statusMask, systemCurrent, load1Current, fmt), '|')
      == [DecimalString(statusMask as int), fmt(systemCurrent), fmt(load1Current + 0.0), fmt(load1Current), fmt(0.0)]
    ensures ToInt(Split(TelemetryLine(statusMask, systemCurrent, load1Current, fmt), '|')[0]) == statusMask as int
  {
    var fields := [DecimalString(statusMask as int), fmt(systemCurrent), fmt(load1Current + 0.0), fmt(load1Current), fmt(0.0)];
    assert '|' !in fields[0] by {
      assert AllDigits(fields[0]);
    }
    assert Join(fields[4..], '|') == fields[4];
    assert Join(fields[3..], '|') == fields[3] + "|" + fields[4];
    assert Join(fields[2..], '|') == fields[2] + "|" + fields[3] + "|" + fields[4];
    assert Join(fields[1..], '|') == fields[1] + "|" + fields[2] + "|" + fields[3] + "|" + fields[4];
    assert Join(fields, '|') == TelemetryLine(statusMask, systemCurrent, load1Current, fmt);
    SplitJoin(fields, '|');
    ToIntOfDecimalString(statusMask as int);
  }

  // ---------------------------------------------------------------------------
  // Command lines

  lemma EmptyLineIgnored(b: BreakerBank, raw: string)
    requires b.WellFormed() && AllSpace(raw)
    ensures ExecuteLine(b, raw) == b
  {
  }

  lemma LineWithoutCommaIgnored(b: BreakerBank, raw: string)
    requires b.WellFormed() && ',' !in Payload(Trim(raw))
    ensures ExecuteLine(b, raw) == b
  {
  }

  /** substring(2) stops at a NUL, so a comma that only follows a NUL is never seen: "T,1\0,1" changes nothing. */
  lemma CommaAfterNulIgnored(b: BreakerBank, raw: string)
    requires b.WellFormed() && |Trim(raw)| > 2
    requires var p := Trim(raw)[2..]; '\0' in p && ',' !in p[..IndexOf(p, '\0')]
    ensures ExecuteLine(b, raw) == b
  {
    var line := Trim(raw);
    var p := line[2..];
    assert Payload(line) == p[..IndexOf(p, '\0')];
    assert CommaPosition(line) == -1;
  }

  /** The shape of "T,d\0,1" as CommaAfterNulIgnored needs it: nothing to trim, and no comma before the NUL. */
  lemma NulLineShape(raw: string, d: char)
    requires IsDigit(d) && raw == ['T', ',', d, '\0', ',', '1']
    ensures |Trim(raw)| > 2
    ensures var p := Trim(raw)[2..]; '\0' in p && ',' !in p[..IndexOf(p, '\0')]
  {
    assert !IsSpace(raw[0]) && !IsSpace(raw[|raw| - 1]);
    TrimUntouched(raw);
    assert raw[2..] == [d, '\0', ',', '1'];
    NulPayloadShape(raw[2..], d);
  }

  /** In the payload "d\0,1" no comma comes before the NUL. */
  lemma NulPayloadShape(p: string, d: char)
    requires IsDigit(d) && p == [d, '\0', ',', '1']
    ensures '\0' in p && ',' !in p[..IndexOf(p, '\0')]
  {
    assert IndexOf(p, '\0') == 1;
    assert p[..1] == [d];
  }

  /** A line "T,d\0,1" with d a digit, "T,1\0,1" among them, leaves every breaker as it was. */
  lemma NulLineIgnored(b: BreakerBank, raw: string, d: char)
    requires b.WellFormed() && IsDigit(d) && raw == ['T', ',', d, '\0', ',', '1']
    ensures ExecuteLine(b, raw) == b
  {
    NulLineShape(raw, d);
    CommaAfterNulIgnored(b, raw);
  }

  lemma UnknownTypeIgnored(b: BreakerBank, raw: string)
    requires b.WellFormed() && Trim(raw) != []
    requires Trim(raw)[0] != 'T' && Trim(raw)[0] != 'M' && Trim(raw)[0] != 'm'
    ensures ExecuteLine(b, raw) == b
  {
  }

  lemma ThresholdForRootOrUnknownIndexIgnored(b: BreakerBank, raw: string)
    requires b.WellFormed()
    requires ParseCommand(raw).SetMax? || ParseCommand(raw).SetMin?
    requires !(0 < ParseCommand(raw).index < 3)
    ensures ExecuteLine(b, raw) == b
  {
  }

  /** A threshold line for a load changes that one threshold and nothing else. */
  lemma ThresholdLineSetsOneValue(b: BreakerBank, raw: string)
    requires b.WellFormed()
    requires ParseCommand(raw).SetMax? || ParseCommand(raw).SetMin?
    requires 0 < ParseCommand(raw).index < 3
    ensures var i, v := ParseCommand(raw).index, ParseCommand(raw).value;
      ExecuteLine(b, raw) ==
        if ParseCommand(raw).SetMax? then b.(maxCurrents := b.maxCurrents[i := v])
        else b.(minCurrents := b.minCurrents[i := v])
  {
  }

  /** A "T" line asks for "on" exactly when its value reads as the integer 1. */
  lemma ToggleOnOnlyForOne(raw: string)
    requires ParseCommand(raw).Toggle?
    ensures ParseCommand(raw).on <==> ToInt(ValueText(Trim(raw))) == 1
  {
    var line := Trim(raw);
    assert line[0] == 'T';
    assert ParseCommand(raw) == Toggle(ToCInt(ToInt(IndexText(line))), ToInt(ValueText(line)) == 1);
  }

  /** A command as the web app writes it: "<type>,<index>,<value>". */
  function CommandText(kind: char, index: nat, value: string): string {
    [kind] + "," + DecimalString(index) + "," + value
  }

  /**
   * Reading back a well-formed command line: the index comes back through the
   * 16-bit int, the value through toInt or toFloat.
   */
  lemma ParseCommandText(kind: char, index: nat, value: string)
    requires !IsSpace(kind) && value != [] && !IsSpace(value[|value| - 1]) && '\0' !in value
    ensures var cmd := ParseCommand(CommandText(kind, index, value));
      cmd == match kind
        case 'T' => Toggle(ToCInt(index), ToInt(value) == 1)
        case 'M' => SetMax(ToCInt(index), ToFloat(value))
        case 'm' => SetMin(ToCInt(index), ToFloat(value))
        case _ => Ignored
  {
    var line := CommandText(kind, index, value);
    CommandTextFields(kind, index, value);
    ToIntOfDecimalString(index);
    assert Trim(line)[0] == kind;
  }

  /** The pieces ParseCommand cuts out of a well-formed command line. */
  lemma CommandTextFields(kind: char, index: nat, value: string)
    requires !IsSpace(kind) && value != [] && !IsSpace(value[|value| - 1]) && '\0' !in value
    ensures var line := CommandText(kind, index, value);
      Trim(line) == line && |line| > 0 && line[0] == kind && CommaPosition(line) >= 0
      && IndexText(line) == DecimalString(index) && ValueText(line) == value
  {
    LineFields(kind, DecimalString(index), value);
  }

  lemma LineFields(kind: char, digits: string, value: string)
    requires AllDigits(digits) && !IsSpace(kind) && value != [] && !IsSpace(value[|value| - 1]) && '\0' !in value
    ensures var line := [kind] + "," + digits + "," + value;
      Trim(line) == line && |line| > 0 && line[0] == kind && CommaPosition(line) >= 0
      && IndexText(line) == digits && ValueText(line) == value
  {
    LineTrimmed(kind, digits, value);
    LinePayload(kind, digits, value);
    CommaAfterDigits(digits, value);
    var payload := digits + "," + value;
    assert payload[..|digits|] == digits;
    assert payload[|digits| + 1..] == value;
  }

  lemma LineTrimmed(kind: char, digits: string, value: string)
    requires !IsSpace(kind) && value != [] && !IsSpace(value[|value| - 1])
    ensures Trim([kind] + "," + digits + "," + value) == [kind] + "," + digits + "," + value
  {
    var line := [kind] + "," + digits + "," + value;
    assert line[|line| - 1] == value[|value| - 1];
    TrimUntouched(line);
  }

  lemma LinePayload(kind: char, digits: string, value: string)
    requires AllDigits(digits) && '\0' !in value
    ensures Payload([kind] + "," + digits + "," + value) == digits + "," + value
  {
    var line := [kind] + "," + digits + "," + value;
    assert line == [kind, ','] + (digits + "," + value);
    assert '\0' !in digits by {
      assert !IsDigit('\0');
    }
  }

  lemma CommaAfterDigits(digits: string, value: string)
    requires AllDigits(digits)
    ensures IndexOf(digits + "," + value, ',') == |digits|
  {
    var payload := digits + "," + value;
    assert payload[..|digits|] == digits;
    IndexOfIsFirst(payload, ',', |digits|);
  }

  /** "T,i,1" asks for breaker i on and "T,i,0" for it off, i read as a 16-bit int. */
  lemma ParseToggleText(index: nat, on: bool)
    ensures ParseCommand(CommandText('T', index, if on then "1" else "0")) == Toggle(ToCInt(index), on)
  {
    var v := if on then "1" else "0";
    ParseCommandText('T', index, v);
    assert v == DecimalString(if on then 1 else 0);
    ToIntOfDecimalString(if on then 1 else 0);
  }

  /** An index is read into a 16-bit int, so "T,65536,0" and every other multiple of 65536 reach the overall breaker. */
  lemma WrappedIndexReachesRoot(b: BreakerBank, index: nat)
    requires b.WellFormed() && index % 0x10000 == 0
    ensures ExecuteLine(b, CommandText('T', index, "0")) == SetState(b, 0, false)
    ensures ExecuteLine(b, CommandText('T', index, "0")).isOn == [false, false, false]
  {
    ParseToggleText(index, false);
    MultipleWrapsToZero(index);
    RootOffCascades(b);
  }

  lemma MultipleWrapsToZero(x: int)
    requires x % 0x10000 == 0
    ensures ToCInt(x) == 0
  {
    var r := ToCInt(x);
    var a := (r - x) / 0x10000;
    var c := x / 0x10000;
    assert r - x == 0x10000 * a;
    assert x == 0x10000 * c;
    assert r == 0x10000 * (a + c);
  }

  // ---------------------------------------------------------------------------
  // Runs of operations

  /** One call of the firmware's state-changing routines. */
  datatype Action =
    | SetStateCall(index: int, on: bool)
    | TripCheck(loadCurrent: real)
    | SerialLine(line: string)

  function Perform(b: BreakerBank, a: Action): (r: BreakerBank)
    requires b.WellFormed()
    ensures r.WellFormed()
  {
    match a
    case SetStateCall(index, on) => SetState(b, index, on)
    case TripCheck(c) => AutoTrip(b, c)
    case SerialLine(line) => ExecuteLine(b, line)
  }

  function Run(b: BreakerBank, acts: seq<Action>): (r: BreakerBank)
    requires b.WellFormed()
    ensures r.WellFormed()
    decreases |acts|
  {
    if acts == [] then b else Run(Perform(b, acts[0]), acts[1..])
  }

  /** Every run of set-state calls, trip checks and command lines keeps the overall breaker gating the loads. */
  lemma {:induction false} RunKeepsRootGating(b: BreakerBank, acts: seq<Action>)
    requires b.RootGatesLoads()
    ensures Run(b, acts).RootGatesLoads()
    decreases |acts|
  {
    if acts != [] {
      var next := Perform(b, acts[0]);
      assert next.RootGatesLoads() by {
        match acts[0]
        case SetStateCall(index, on) =>
        case TripCheck(c) =>
        case SerialLine(line) =>
      }
      RunKeepsRootGating(next, acts[1..]);
    }
  }

  lemma RootGatingFromStart(acts: seq<Action>)
    ensures Run(InitialBank(), acts).RootGatesLoads()
  {
    RunKeepsRootGating(InitialBank(), acts);
  }

  /** An action that explicitly asks for load 1 to be switched on. */
  predicate RequestsLoad1On(a: Action) {
    match a
    case SetStateCall(index, on) => index == 1 && on
    case TripCheck(_) => false
    case SerialLine(line) => ParseCommand(line) == Toggle(1, true)
  }

  /** One action that does not ask for load 1 leaves it off. */
  lemma StaysOff(b: BreakerBank, a: Action)
    requires b.WellFormed() && !b.isOn[1] && !RequestsLoad1On(a)
    ensures !Perform(b, a).isOn[1]
  {
    match a
    case SetStateCall(index, on) =>
    case TripCheck(c) =>
    case SerialLine(line) =>
      CommandStaysOff(b, ParseCommand(line));
  }

  /** A command other than "switch load 1 on" leaves load 1 off. */
  lemma CommandStaysOff(b: BreakerBank, cmd: Command)
    requires b.WellFormed() && !b.isOn[1] && cmd != Toggle(1, true)
    ensures !Apply(b, cmd).isOn[1]
  {
  }

  /** Once load 1 is off, no trip check or other command switches it on again: only an explicit request does. */
  lemma {:induction false} TripLatches(b: BreakerBank, acts: seq<Action>)
    requires b.WellFormed() && !b.isOn[1]
    requires forall i :: 0 <= i < |acts| ==> !RequestsLoad1On(acts[i])
    ensures !Run(b, acts).isOn[1]
    decreases |acts|
  {
    if acts != [] {
      var next := Perform(b, acts[0]);
      StaysOff(b, acts[0]);
      TripLatches(next, acts[1..]);
    }
  }

  /** The two lines of the scenario below, as the web app writes them. */
  lemma ScenarioTexts()
    ensures CommandText('T', 0, "1") == "T,0,1"
    ensures CommandText('T', 1, "1") == "T,1,1"
  {
  }

  /** The line "T,i,1" for a breaker i asks setBreakerState to switch it on. */
  lemma ToggleOnLine(b: BreakerBank, line: string, i: nat)
    requires b.WellFormed() && i < 3 && line == CommandText('T', i, "1")
    ensures ExecuteLine(b, line) == SetState(b, i, true)
  {
    ParseToggleText(i, true);
  }

  /** Two lines "T,i,1" and "T,j,1" in a row act as two setBreakerState calls that switch on. */
  lemma TogglesOn(b: BreakerBank, line0: string, line1: string, i: nat, j: nat)
    requires b.WellFormed() && i < 3 && j < 3
    requires line0 == CommandText('T', i, "1") && line1 == CommandText('T', j, "1")
    ensures ExecuteLine(ExecuteLine(b, line0), line1) == SetState(SetState(b, i, true), j, true)
  {
    ToggleOnLine(b, line0, i);
    ToggleOnLine(SetState(b, i, true), line1, j);
  }

  /** The lines "T,0,1" and "T,1,1", from all off, switch on the overall breaker and load 1. */
  lemma ScenarioSwitchesOn(line0: string, line1: string)
    requires line0 == CommandText('T', 0, "1") && line1 == CommandText('T', 1, "1")
    ensures ExecuteLine(ExecuteLine(InitialBank(), line0), line1) == ScenarioBank()
  {
    var b0 := InitialBank();
    TogglesOn(b0, line0, line1, 0, 1);
    var b1 := SetState(b0, 0, true);
    assert b1.isOn == [true, false, false];
    assert SetState(b1, 1, true).isOn == [true, true, false];
  }

  /** The bank after the scenario's two lines: the overall breaker and load 1 on, thresholds as at start. */
  function ScenarioBank(): BreakerBank {
    BreakerBank([true, true, false], [0.0, 5.0, 5.0], [0.0, 0.1, 0.1])
  }

  /** The same, for the lines as literal text. */
  lemma ScenarioLines(line0: string, line1: string)
    requires line0 == "T,0,1" && line1 == "T,1,1"
    ensures ExecuteLine(ExecuteLine(InitialBank(), line0), line1) == ScenarioBank()
  {
    ScenarioTexts();
    ScenarioSwitchesOn(line0, line1);
  }

  /** The scenario bank has status mask 3; a load-1 current just above its maximum leaves mask 1. */
  lemma ScenarioTrip()
    ensures var b := ScenarioBank();
      StatusMask(b.isOn) == 3 && StatusMask(AutoTrip(b, b.maxCurrents[1] + 0.01).isOn) == 1
  {
    var b := ScenarioBank();
    StatusMaskBits(b.isOn);
    var t := AutoTrip(b, b.maxCurrents[1] + 0.01);
    assert t.isOn == [true, false, false];
    StatusMaskBits(t.isOn);
  }

  /**
   * Starting all off, the lines "T,0,1" and "T,1,1" give status mask 3; a
   * load-1 current just above its maximum then trips load 1 and leaves mask 1.
   */
  lemma TripScenario(line0: string, line1: string)
    requires line0 == "T,0,1" && line1 == "T,1,1"
    ensures var b := ExecuteLine(ExecuteLine(InitialBank(), line0), line1);
      StatusMask(b.isOn) == 3 && StatusMask(AutoTrip(b, b.maxCurrents[1] + 0.01).isOn) == 1
  {
    ScenarioLines(line0, line1);
    ScenarioTrip();
  }
}
