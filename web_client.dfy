/**
 * The React control panel's protocol logic: decoding the device's 21-byte
 * binary status packet into the four breaker records, encoding a toggle as a
 * two-byte command, and resetting the records on disconnect.
 */
module WebClient {
  import opened Wrappers

  type byte = bv8

  /** EXPECTED_PACKET_LENGTH: a mask byte and five little-endian float32 fields. */
  const ExpectedPacketLength: nat := 21

  /** The 32 bits of an IEEE 754 single-precision number, as DataView.getFloat32 reads them. */
  datatype Float32 = Float32(bits: bv32)

  /** +0.0, the initial value of every voltage. */
  const Zero := Float32(0)

  datatype Breaker = Breaker(
    id: string,
    name: string,
    isOn: bool,
    voltage1Label: string,
    voltage2Label: string,
    voltage1: Float32,
    voltage2: Float32,
    isOverall: bool)

  function InitialBreakers(): (r: seq<Breaker>)
    ensures |r| == 4 && r[0].isOverall
    ensures forall i :: 0 <= i < 4 ==> !r[i].isOn && r[i].voltage1 == Zero && r[i].voltage2 == Zero
    ensures forall i :: 1 <= i < 4 ==> !r[i].isOverall
    ensures forall i, j :: 0 <= i < j < 4 ==> r[i].id != r[j].id
  {
    [
      Breaker("overall", "Overall Breaker", false, "System Voltage", "Total Load", Zero, Zero, true),
      Breaker("load1", "Load 1", false, "Input Voltage", "Load Voltage", Zero, Zero, false),
      Breaker("load2", "Load 2", false, "Input Voltage", "Load Voltage", Zero, Zero, false),
      Breaker("load3", "Load 3", false, "Input Voltage", "Load Voltage", Zero, Zero, false)
    ]
  }

  // ---------------------------------------------------------------------------
  // Bytes

  /** (statusMask & (1 << i)) > 0 */
  predicate MaskBit(mask: byte, i: nat)
    requires i < 8
  {
    mask & ((1 as bv8) << i) != 0
  }

  /** DataView.getFloat32(offset, true): four bytes, least significant first. */
  function Float32At(data: seq<byte>, offset: nat): Float32
    requires offset + 4 <= |data|
  {
    LittleEndian(data[offset], data[offset + 1], data[offset + 2], data[offset + 3])
  }

  function LittleEndian(b0: byte, b1: byte, b2: byte, b3: byte): Float32 {
    Float32((b3 as bv32 << 24) | (b2 as bv32 << 16) | (b1 as bv32 << 8) | b0 as bv32)
  }

  /** The four bytes a little-endian writer puts on the wire for f. */
  function Float32Bytes(f: Float32): (r: seq<byte>)
    ensures |r| == 4
  {
    [(f.bits & 0xFF) as bv8, ((f.bits >> 8) & 0xFF) as bv8,
     ((f.bits >> 16) & 0xFF) as bv8, ((f.bits >> 24) & 0xFF) as bv8]
  }

  lemma Float32BytesRead(f: Float32)
    ensures Float32At(Float32Bytes(f), 0) == f
  {
  }

  /** Reading four bytes and writing them back gives the same four bytes. */
  lemma Float32ReadBytes(data: seq<byte>, offset: nat)
    requires offset + 4 <= |data|
    ensures Float32Bytes(Float32At(data, offset)) == data[offset..offset + 4]
  {
  }

  lemma Float32AtBytes(data: seq<byte>, offset: nat, f: Float32)
    requires offset + 4 <= |data| && data[offset..offset + 4] == Float32Bytes(f)
    ensures Float32At(data, offset) == f
  {
    var b := Float32Bytes(f);
    assert data[offset] == b[0] && data[offset + 1] == b[1];
    assert data[offset + 2] == b[2] && data[offset + 3] == b[3];
    Float32BytesRead(f);
  }

  // ---------------------------------------------------------------------------
  // Status packets

  /**
   * handleStatusUpdate: a packet shorter than 21 bytes is dropped; otherwise
   * breaker i takes bit i of byte 0 as its status, the float at byte 1 as
   * voltage1 and the float at byte 5 + 4i as voltage2, keeping its other fields.
   */
  function HandleStatusUpdate(prev: seq<Breaker>, data: seq<byte>): (r: seq<Breaker>)
    requires |prev| == 4
    ensures |data| < ExpectedPacketLength ==> r == prev
    ensures |data| >= ExpectedPacketLength ==>
      |r| == 4 &&
      forall i :: 0 <= i < 4 ==>
        r[i] == prev[i].(isOn := MaskBit(data[0], i), voltage1 := Float32At(data, 1),
                         voltage2 := Float32At(data, 5 + 4 * i))
  {
    if |data| < ExpectedPacketLength then prev
    else
      var statusMask := data[0];
      var systemVoltage := Float32At(data, 1);
      [ prev[0].(isOn := statusMask & 1 != 0, voltage1 := systemVoltage, voltage2 := Float32At(data, 5)),
        prev[1].(isOn := statusMask & 2 != 0, voltage1 := systemVoltage, voltage2 := Float32At(data, 9)),
        prev[2].(isOn := statusMask & 4 != 0, voltage1 := systemVoltage, voltage2 := Float32At(data, 13)),
        prev[3].(isOn := statusMask & 8 != 0, voltage1 := systemVoltage, voltage2 := Float32At(data, 17)) ]
  }

  /** The device's side of the protocol: the mask of four statuses. */
  function StatusMaskOf(on: seq<bool>): (r: byte)
    requires |on| == 4
    ensures r < 16
    ensures r == 0 <==> !on[0] && !on[1] && !on[2] && !on[3]
  {
    (if on[0] then 1 else 0) | (if on[1] then 2 else 0) | (if on[2] then 4 else 0) | (if on[3] then 8 else 0)
  }

  /** The device's side of the protocol: the 21-byte packet for four statuses, the system voltage and four second voltages. */
  function StatusPacket(on: seq<bool>, systemVoltage: Float32, voltage2: seq<Float32>): (r: seq<byte>)
    requires |on| == 4 && |voltage2| == 4
    ensures |r| == ExpectedPacketLength
  {
    [StatusMaskOf(on)] + Float32Bytes(systemVoltage)
      + Float32Bytes(voltage2[0]) + Float32Bytes(voltage2[1]) + Float32Bytes(voltage2[2]) + Float32Bytes(voltage2[3])
  }

  lemma StatusMaskOfBits(on: seq<bool>)
    requires |on| == 4
    ensures forall i :: 0 <= i < 4 ==> MaskBit(StatusMaskOf(on), i) == on[i]
  {
    var m := StatusMaskOf(on);
    assert MaskBit(m, 0) == on[0];
    assert MaskBit(m, 1) == on[1];
    assert MaskBit(m, 2) == on[2];
    assert MaskBit(m, 3) == on[3];
  }

  /** Where each field sits in the device's packet. */
  lemma PacketFields(on: seq<bool>, systemVoltage: Float32, voltage2: seq<Float32>)
    requires |on| == 4 && |voltage2| == 4
    ensures var p := StatusPacket(on, systemVoltage, voltage2);
      p[0] == StatusMaskOf(on) && p[1..5] == Float32Bytes(systemVoltage)
      && p[5..9] == Float32Bytes(voltage2[0]) && p[9..13] == Float32Bytes(voltage2[1])
      && p[13..17] == Float32Bytes(voltage2[2]) && p[17..21] == Float32Bytes(voltage2[3])
  {
    var f := Float32Bytes(systemVoltage);
    var g0, g1, g2, g3 := Float32Bytes(voltage2[0]), Float32Bytes(voltage2[1]), Float32Bytes(voltage2[2]), Float32Bytes(voltage2[3]);
    var p := StatusPacket(on, systemVoltage, voltage2);
    assert p == [StatusMaskOf(on)] + f + g0 + g1 + g2 + g3;
    assert p[17..21] == g3 by {
      assert p == ([StatusMaskOf(on)] + f + g0 + g1 + g2) + g3;
    }
    assert p[13..17] == g2 by {
      assert p == ([StatusMaskOf(on)] + f + g0 + g1) + g2 + g3;
    }
  }

  /** Decoding a packet the device encoded recovers every status and voltage. */
  lemma StatusPacketRoundTrip(prev: seq<Breaker>, on: seq<bool>, systemVoltage: Float32, voltage2: seq<Float32>)
    requires |prev| == 4 && |on| == 4 && |voltage2| == 4
    ensures var r := HandleStatusUpdate(prev, StatusPacket(on, systemVoltage, voltage2));
      |r| == 4 &&
      forall i :: 0 <= i < 4 ==>
        r[i] == prev[i].(isOn := on[i], voltage1 := systemVoltage, voltage2 := voltage2[i])
  {
    var p := StatusPacket(on, systemVoltage, voltage2);
    StatusMaskOfBits(on);
    PacketFields(on, systemVoltage, voltage2);
    Float32AtBytes(p, 1, systemVoltage);
    Float32AtBytes(p, 5, voltage2[0]);
    Float32AtBytes(p, 9, voltage2[1]);
    Float32AtBytes(p, 13, voltage2[2]);
    Float32AtBytes(p, 17, voltage2[3]);
  }

  lemma MaskLowBits(m: byte, on: seq<bool>)
    requires |on| == 4 && forall i :: 0 <= i < 4 ==> on[i] == MaskBit(m, i)
    ensures StatusMaskOf(on) == m & 0x0F
  {
    assert on[0] == MaskBit(m, 0) && on[1] == MaskBit(m, 1) && on[2] == MaskBit(m, 2) && on[3] == MaskBit(m, 3);
  }

  /**
   * The decoder reads the first 21 bytes and nothing else: re-encoding what it
   * decoded gives those bytes back, with bits 4 to 7 of the mask cleared.
   */
  lemma StatusUpdateReadsThePacket(prev: seq<Breaker>, data: seq<byte>)
    requires |prev| == 4 && |data| >= ExpectedPacketLength
    ensures var r := HandleStatusUpdate(prev, data);
      StatusPacket(seq(4, i requires 0 <= i < 4 => r[i].isOn), r[0].voltage1, seq(4, i requires 0 <= i < 4 => r[i].voltage2))
        == [data[0] & 0x0F] + data[1..ExpectedPacketLength]
  {
    var r := HandleStatusUpdate(prev, data);
    var on := seq(4, i requires 0 <= i < 4 => r[i].isOn);
    var v2 := seq(4, i requires 0 <= i < 4 => r[i].voltage2);
    MaskLowBits(data[0], on);
    var packet := StatusPacket(on, r[0].voltage1, v2);
    PacketFields(on, r[0].voltage1, v2);
    Float32ReadBytes(data, 1);
    Float32ReadBytes(data, 5);
    Float32ReadBytes(data, 9);
    Float32ReadBytes(data, 13);
    Float32ReadBytes(data, 17);
    SameFields(packet, data[0] & 0x0F, data);
  }

  /** A 21-byte packet whose mask byte is m and whose five 4-byte fields are those of data is m followed by data's bytes 1 to 20. */
  lemma SameFields(p: seq<byte>, m: byte, data: seq<byte>)
    requires |p| == ExpectedPacketLength && |data| >= ExpectedPacketLength && p[0] == m
    requires p[1..5] == data[1..5] && p[5..9] == data[5..9] && p[9..13] == data[9..13]
    requires p[13..17] == data[13..17] && p[17..21] == data[17..21]
    ensures p == [m] + data[1..ExpectedPacketLength]
  {
    assert p == [p[0]] + p[1..5] + p[5..9] + p[9..13] + p[13..17] + p[17..21];
    assert data[1..ExpectedPacketLength] == data[1..5] + data[5..9] + data[9..13] + data[13..17] + data[17..21];
  }

  lemma Float32AtPrefix(data: seq<byte>, extra: seq<byte>, offset: nat)
    requires offset + 4 <= |data|
    ensures Float32At(data + extra, offset) == Float32At(data, offset)
  {
    var d := data + extra;
    assert d[offset] == data[offset] && d[offset + 1] == data[offset + 1];
    assert d[offset + 2] == data[offset + 2] && d[offset + 3] == data[offset + 3];
  }

  /** Bytes after the 21st are ignored. */
  lemma TrailingBytesIgnored(prev: seq<Breaker>, data: seq<byte>, extra: seq<byte>)
    requires |prev| == 4 && |data| >= ExpectedPacketLength
    ensures HandleStatusUpdate(prev, data + extra) == HandleStatusUpdate(prev, data)
  {
    assert (data + extra)[0] == data[0];
    Float32AtPrefix(data, extra, 1);
    Float32AtPrefix(data, extra, 5);
    Float32AtPrefix(data, extra, 9);
    Float32AtPrefix(data, extra, 13);
    Float32AtPrefix(data, extra, 17);
  }

  /** A status update changes only the status and the two voltages: the records keep their identity and labels. */
  predicate SameLayout(breakers: seq<Breaker>) {
    |breakers| == 4 &&
    forall i :: 0 <= i < 4 ==>
      breakers[i].id == InitialBreakers()[i].id && breakers[i].name == InitialBreakers()[i].name
      && breakers[i].voltage1Label == InitialBreakers()[i].voltage1Label
      && breakers[i].voltage2Label == InitialBreakers()[i].voltage2Label
      && breakers[i].isOverall == InitialBreakers()[i].isOverall
  }

  lemma StatusUpdateKeepsLayout(prev: seq<Breaker>, data: seq<byte>)
    requires SameLayout(prev)
    ensures SameLayout(HandleStatusUpdate(prev, data))
  {
  }

  // ---------------------------------------------------------------------------
  // Toggle commands

  /** Array.prototype.findIndex(b => b.id === id). */
  function FindIndex(breakers: seq<Breaker>, id: string): (r: int)
    ensures -1 <= r < |breakers|
    ensures r == -1 <==> forall j :: 0 <= j < |breakers| ==> breakers[j].id != id
    ensures r >= 0 ==> breakers[r].id == id && forall j :: 0 <= j < r ==> breakers[j].id != id
  {
    if |breakers| == 0 then -1
    else if breakers[0].id == id then 0
    else
      var k := FindIndex(breakers[1..], id);
      if k == -1 then -1 else k + 1
  }

  /** What the app holds besides the serial port objects; writerOpen stands for writerRef.current being set. */
  datatype AppState = AppState(
    breakers: seq<Breaker>,
    isConnecting: bool,
    isConnected: bool,
    writerOpen: bool,
    error: Option<string>)

  const InitialApp := AppState(InitialBreakers(), false, false, false, None)

  /** The result of handleToggle: the new state and the bytes written, if any. */
  datatype ToggleResult = ToggleResult(state: AppState, written: Option<seq<byte>>)

  const NotConnectedError := "Device is not connected."

  /** A Uint8Array element set to a breaker index (below 4) holds that index. */
  function IndexByte(i: nat): (r: byte)
    requires i < 4
    ensures r as int == i
  {
    if i == 0 then 0 else if i == 1 then 1 else if i == 2 then 2 else 3
  }

  /**
   * handleToggle(id, newIsOn): without a writer the error is set and nothing is
   * sent; an id that is not among the initial breakers sends nothing; otherwise
   * the two bytes [index, 1 or 0] are written. The records themselves are not
   * changed: the device's next status packet reports the outcome.
   */
  function HandleToggle(s: AppState, id: string, newIsOn: bool): (r: ToggleResult)
    ensures !s.writerOpen ==> r == ToggleResult(s.(error := Some(NotConnectedError)), None)
    ensures s.writerOpen ==> r.state == s
    ensures s.writerOpen && r.written.Some? ==>
      |r.written.value| == 2 && r.written.value[0] as int < |InitialBreakers()|
      && InitialBreakers()[r.written.value[0] as int].id == id
      && r.written.value[1] == (if newIsOn then 1 else 0)
    ensures s.writerOpen ==> (r.written.None? <==> forall j :: 0 <= j < |InitialBreakers()| ==> InitialBreakers()[j].id != id)
  {
    if !s.writerOpen then ToggleResult(s.(error := Some(NotConnectedError)), None)
    else
      var breakerIndex := FindIndex(InitialBreakers(), id);
      if breakerIndex == -1 then ToggleResult(s, None)
      else ToggleResult(s, Some([IndexByte(breakerIndex), if newIsOn then 1 else 0]))
  }

  /** The device's side: a two-byte command names a breaker and a state. */
  function DecodeCommand(command: seq<byte>): (r: Option<(nat, bool)>)
    ensures r.Some? ==> r.value.0 < 4 && command == [r.value.0 as byte, if r.value.1 then 1 else 0]
  {
    if |command| == 2 && command[0] < 4 && command[1] <= 1 then Some((command[0] as nat, command[1] == 1))
    else None
  }

  /** Every command the app sends decodes to the breaker it was meant for, at the same slot as in the status packet. */
  lemma ToggleCommandDecodes(s: AppState, i: nat, newIsOn: bool)
    requires s.writerOpen && i < 4 && SameLayout(s.breakers)
    ensures var r := HandleToggle(s, s.breakers[i].id, newIsOn);
      r.written.Some? && DecodeCommand(r.written.value) == Some((i, newIsOn))
  {
    var id := s.breakers[i].id;
    assert InitialBreakers()[i].id == id;
    var r := HandleToggle(s, id, newIsOn);
    assert r.written.Some?;
    var k := r.written.value[0] as int;
    assert InitialBreakers()[k].id == id;
    assert k == i by {
      assert InitialBreakers()[0].id == "overall" && InitialBreakers()[1].id == "load1";
      assert InitialBreakers()[2].id == "load2" && InitialBreakers()[3].id == "load3";
      assert "overall"[1] != "load1"[1];
      assert "load1"[4] != "load2"[4] && "load1"[4] != "load3"[4] && "load2"[4] != "load3"[4];
    }
  }

  // ---------------------------------------------------------------------------
  // Connection state

  /** onDisconnected: not connected, no port objects, every breaker back to its initial record. */
  function OnDisconnected(s: AppState): (r: AppState)
    ensures !r.isConnected && !r.writerOpen
    ensures r.breakers == InitialBreakers() && SameLayout(r.breakers)
    ensures forall i :: 0 <= i < 4 ==> !r.breakers[i].isOn && r.breakers[i].voltage1 == Zero && r.breakers[i].voltage2 == Zero
    ensures r.isConnecting == s.isConnecting && r.error == s.error
  {
    s.(isConnected := false, writerOpen := false, breakers := InitialBreakers())
  }

  /** A chunk read from the port, passed to handleStatusUpdate. */
  function OnData(s: AppState, data: seq<byte>): (r: AppState)
    requires |s.breakers| == 4
    ensures r.breakers == HandleStatusUpdate(s.breakers, data)
    ensures r.(breakers := s.breakers) == s
  {
    s.(breakers := HandleStatusUpdate(s.breakers, data))
  }

  datatype AppEvent = Data(bytes: seq<byte>) | Toggle(id: string, newIsOn: bool) | Disconnected

  function Step(s: AppState, e: AppEvent): (r: AppState)
    requires |s.breakers| == 4
    ensures |r.breakers| == 4
    ensures e.Toggle? ==> r.breakers == s.breakers
  {
    match e
    case Data(bytes) => OnData(s, bytes)
    case Toggle(id, newIsOn) => HandleToggle(s, id, newIsOn).state
    case Disconnected => OnDisconnected(s)
  }

  function Run(s: AppState, events: seq<AppEvent>): AppState
    requires SameLayout(s.breakers)
    decreases |events|
  {
    if events == [] then s
    else
      StepKeepsLayout(s, events[0]);
      Run(Step(s, events[0]), events[1..])
  }

  lemma StepKeepsLayout(s: AppState, e: AppEvent)
    requires SameLayout(s.breakers)
    ensures SameLayout(Step(s, e).breakers)
  {
    if e.Data? {
      StatusUpdateKeepsLayout(s.breakers, e.bytes);
    }
  }

  /** Whatever arrives, is clicked or disconnects, the app always shows the same four breakers in the same order. */
  lemma {:induction false} RunKeepsLayout(s: AppState, events: seq<AppEvent>)
    requires SameLayout(s.breakers)
    ensures SameLayout(Run(s, events).breakers)
    decreases |events|
  {
    if events != [] {
      StepKeepsLayout(s, events[0]);
      RunKeepsLayout(Step(s, events[0]), events[1..]);
    }
  }

  /** Toggling never changes a breaker record: only a status packet or a disconnect does. */
  lemma ToggleLeavesRecords(s: AppState, id: string, newIsOn: bool)
    ensures HandleToggle(s, id, newIsOn).state.breakers == s.breakers
  {
  }
}
