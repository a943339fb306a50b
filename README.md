# Neku-Nami breaker control, modelled in Dafny

Neku-Nami is a small power-distribution controller. Breakers form a hierarchy: an overall
breaker (index 0) gates load breakers. They are switched by commands from the web app and
tripped automatically by sensor readings. State travels back as telemetry.
This project models the four places where that logic lives:

- `wrappers.dfy`: `Option`.
- `arduino_text.dfy`: `ArduinoText`. The Arduino and avr-libc text routines the text firmware
  calls: `String::trim`, `indexOf`, `toInt` (atol), `toFloat` (atof in decimal notation) and
  `String(n)`. It also holds the `|`-joined field layout and its inverse `Split`.
- `nekunami_firmware.dfy`: `NekunamiFirmware`. The current-based, text-protocol firmware. It
  has three breakers held in global arrays, and the class `Firmware` keeps those arrays.
  - `setBreakerState` is recursive, with the overall breaker cascading off to the loads.
  - `updateBreakerLogic` trips load 1 when its current leaves the window.
  - `handleSerialCommands` reads `T,i,v`, `M,i,v` and `m,i,v` lines.
  - `sendDataPacket` builds the status mask in a loop and writes the `mask|system|total|load1|load2` line.
  - `loop` sends at most one line every 100 ms, using unsigned 32-bit time.

  Each method is proved against a pure function on the bank of values (`SetState`,
  `AutoTrip`, `HandleInput`, `StatusMask`, `TelemetryLine`). The lemmas are stated on those
  functions.
- `voltage_monitor.dfy`: `VoltageMonitor`. The voltage-hysteresis firmware. It has one
  tripped flag and one MOSFET pin.
  - A trip happens at 5.0 V or above; a reset happens at 3.0 V or below.
  - One command byte is read per pass, and the rest of the receive buffer is drained.

  The class `VoltSens` is proved against the pure `Step`. Runs of passes are modelled with
  `Run` and `Events`.
- `dashboard.dfy`: `NekuDashboard`. The plain-JavaScript dashboard. The class `Dashboard`
  covers `setOn`, `setOff` (with the cascade from panel 0), the one-second interval callback
  and `updateOverallLoad`. The global `dashboards` array is passed to each method as a
  sequence. Every method is proved against a function on the panels' view (`Panel`). Each
  display holds the number that `parseFloat` reads back from its `toFixed(2)` text.
- `web_client.dfy`: `WebClient`. The React client:
  - decoding the 21-byte binary status packet (`handleStatusUpdate`);
  - encoding a toggle as two bytes (`handleToggle`);
  - resetting on disconnect (`onDisconnected`).

  A float32 field is kept as its 32 bits, assembled little-endian.

Each file is modelled as written. The 4-breaker binary layout of the React client and the
3-breaker text protocol of the firmware belong to different deployments. The model does not
reconcile them.

Readings, clocks, random values and the serial link are inputs:
- The firmware's sensor currents are parameters, as are the two `millis()` readings around a send.
- A received line is an `Option<string>`: `None` when no byte was available.
- `String(x, 2)` is the parameter `fmt`.
- The dashboard's `Math.random()` values are parameters.
- The voltage monitor's calibrated load voltage is a parameter, and received bytes are
  appended by `Receive`.

The model assumes that the text firmware runs on an AVR board. The source never names the
board; the evidence is readCurrent's conversion at sketch/nekunami_firmware.c:68, which reads
a 10-bit ADC against a 5.0 V reference. On that assumption `int` is 16 bits, so the index
that `toInt` returns is narrowed to 16 bits (`ToCInt`). As a consequence, `T,65536,0`
switches the overall breaker off (`WrappedIndexReachesRoot`). Both hold only on that
assumption; on a board with a 32-bit `int` the index would not wrap.

Facts about the code that the model follows:
- handleStatusUpdate reads a 21-byte packet: one mask byte and five little-endian float32
  values, for four breakers (neku-web/neku-web-main/App.tsx:45-61).
- handleSerialCommands reads at most one line per pass of loop()
  (sketch/nekunami_firmware.c:73-76).
- The hysteresis band is 3.0 V to 5.0 V, though the comment at sketch/gemini_voltsens.c:13-16
  calls it 0.5 V.
- setBreakerState returns nothing; a refused request shows only in the next status mask.
- A received line is a string of characters, one per byte. readStringUntil keeps NUL bytes, and
  trim, length and charAt count them. substring copies through a C string, so it stops at the
  first NUL; indexOf and toInt stop there too. The model cuts the payload at its first NUL
  (Payload through UpToNul), so the line "T,1\0,1" changes nothing (NulLineIgnored). The
  pieces cut from the payload hold no NUL, so indexOf and toInt on them need no further cut.
  ParseCommandText and CommandTextFields require a value with no NUL, as the web app writes
  it; ParseToggleText's values "0" and "1" hold none.

## Model

| member | source | states |
|---|---|---|
| NekunamiFirmware.ToCInt | sketch/nekunami_firmware.c:86 | the long from toInt lands in a 16-bit int: the result is in -32768..32767, congruent to the input mod 65536, and equal to it when already in range |
| NekunamiFirmware.BreakerBank.WellFormed | sketch/nekunami_firmware.c:34-36 | the three arrays each hold three entries, one per breaker (a definition; no contract) |
| NekunamiFirmware.BreakerBank.RootGatesLoads | sketch/nekunami_firmware.c:118-129 | the invariant the firmware's switching rules keep: while the overall breaker is off, both loads are off (a definition; SetState, AutoTrip, Apply and RunKeepsRootGating prove it preserved) |
| NekunamiFirmware.InitialBank | sketch/nekunami_firmware.c:34-36 | the globals' initial values: all three breakers off, so root gating holds from the start, and each load's minimum (0.1 A) lies below its maximum (5.0 A) |
| NekunamiFirmware.SetState | sketch/nekunami_firmware.c:115-134 | index outside 0..2 is a no-op; index 0 sets the root, and root off forces both loads off; a load switch-on is refused while the root is off; otherwise only that load changes; thresholds never change; root gating is preserved |
| NekunamiFirmware.OutsideWindow | sketch/nekunami_firmware.c:109 | the trip condition: the current is at or above load 1's maximum, or above zero and below its minimum (a definition; AutoTrip states its effect) |
| NekunamiFirmware.AutoTrip | sketch/nekunami_firmware.c:106-113 | load 1 stays on exactly when it was on and its current is inside the window (below max, and either zero or at least min); breakers 0 and 2 and the thresholds are untouched; nothing is ever switched on |
| NekunamiFirmware.Payload | sketch/nekunami_firmware.c:81 | command.substring(2): empty for a line of two characters or fewer, otherwise everything after the first two characters up to the first NUL, because substring copies through a C string (a definition; UpToNul states what it keeps, CommaAfterNulIgnored its effect) |
| NekunamiFirmware.CommaPosition | sketch/nekunami_firmware.c:83 | payload.indexOf(','): the position of the payload's first comma, or -1 when it has none (a definition; IndexOf and IndexOfIsFirst state its meaning) |
| NekunamiFirmware.IndexText | sketch/nekunami_firmware.c:86 | the payload before its first comma, the text toInt reads as the breaker index (a definition; CommandTextFields states it for a well-formed line) |
| NekunamiFirmware.ValueText | sketch/nekunami_firmware.c:87 | the payload after its first comma, the text read as the new state or threshold (a definition; CommandTextFields states it for a well-formed line) |
| NekunamiFirmware.ParseCommand | sketch/nekunami_firmware.c:76-98 | a line yields a command only when it is non-empty after trim, has a comma after its first two characters and starts with T, M or m; the index it yields always lies in the 16-bit int range |
| NekunamiFirmware.Apply | sketch/nekunami_firmware.c:89-102 | a parsed command keeps the bank well formed and keeps the root gating the loads |
| NekunamiFirmware.ExecuteLine | sketch/nekunami_firmware.c:76-102 | one received line, parsed and carried out, keeps the bank well formed and the root gating the loads, and never changes the overall breaker's thresholds |
| NekunamiFirmware.HandleInput | sketch/nekunami_firmware.c:73-104 | no available line changes nothing; a line keeps the bank well formed and the root gating, and leaves the overall breaker's thresholds alone |
| NekunamiFirmware.MaskBits | sketch/nekunami_firmware.c:137-142 | the mask after the first n passes of the loop: bit i OR-ed in for each breaker i < n that is on (a definition; StatusMaskBits states its meaning) |
| NekunamiFirmware.StatusMask | sketch/nekunami_firmware.c:137-142 | the mask after all three passes (a definition; StatusMaskBits states its meaning) |
| NekunamiFirmware.TelemetryLine | sketch/nekunami_firmware.c:146-158 | the mask in decimal, then the formatted system, total, load 1 and load 2 currents, separated by bars, with load 2 fixed at 0.0 (a definition; TelemetryLineFields proves the reader recovers the fields) |
| NekunamiFirmware.Elapsed | sketch/nekunami_firmware.c:60 | millis() - lastSendTime in unsigned 32-bit arithmetic (both unsigned long, declared at lines 43-44): the plain difference when no wrap-around happened, the difference plus 2^32 otherwise |
| NekunamiFirmware.Firmware.constructor | sketch/nekunami_firmware.c:34-43 | the arrays start as all off, maxima 0/5/5, minima 0/0.1/0.1, lastSendTime 0 |
| NekunamiFirmware.Firmware.Valid | sketch/nekunami_firmware.c:34-36 | the class invariant: each of the three global arrays holds three entries, and the bank they form keeps root gating (a definition; every Firmware method requires it and ensures it again) |
| NekunamiFirmware.Firmware.SetBreakerState | sketch/nekunami_firmware.c:115-134 | the recursive routine, with its for loop over the loads, leaves the arrays equal to SetState of their old contents |
| NekunamiFirmware.Firmware.UpdateBreakerLogic | sketch/nekunami_firmware.c:106-113 | leaves the arrays equal to AutoTrip of their old contents |
| NekunamiFirmware.Firmware.HandleSerialCommands | sketch/nekunami_firmware.c:73-104 | no line leaves everything unchanged; a line leaves the arrays equal to the parsed command applied to their old contents |
| NekunamiFirmware.Firmware.ComputeStatusMask | sketch/nekunami_firmware.c:137-142 | the loop's mask equals StatusMask of the breaker states |
| NekunamiFirmware.Firmware.SendDataPacket | sketch/nekunami_firmware.c:136-158 | the built string is the telemetry line for the current mask, system current and load 1 current, with load 2 fixed at 0.0 |
| NekunamiFirmware.Firmware.Loop | sketch/nekunami_firmware.c:56-64 | commands first, then the trip check; a line is sent and lastSendTime updated exactly when at least 100 ms have elapsed (wrap-around included), otherwise nothing is sent and lastSendTime is kept; the root still gates the loads |
| NekunamiFirmware.Firmware.SendIfDue | sketch/nekunami_firmware.c:60-63 | the send-interval rule on its own |
| NekunamiFirmware.SetStateOutOfRangeChangesNothing | sketch/nekunami_firmware.c:116 | an index outside 0..2 changes nothing |
| NekunamiFirmware.RootOffCascades | sketch/nekunami_firmware.c:118-125 | switching the root off leaves all three breakers off, whatever their state before |
| NekunamiFirmware.LoadRefusedWhileRootOff | sketch/nekunami_firmware.c:127-129 | a load cannot be switched on while the root is off |
| NekunamiFirmware.LoadChangeIsLocal | sketch/nekunami_firmware.c:130 | an allowed load change sets that one breaker and nothing else |
| NekunamiFirmware.StatusMaskBits | sketch/nekunami_firmware.c:137-142 | bit i of the mask is set exactly when breaker i is on; the mask is 1·on0 + 2·on1 + 4·on2, below 8 |
| NekunamiFirmware.TelemetryLineFields | sketch/nekunami_firmware.c:149-158 | splitting the line at the bar separator gives exactly the five fields mask, system, total = load1 + 0.0, load1, 0.0, and toInt of the first field gives the mask back |
| NekunamiFirmware.EmptyLineIgnored | sketch/nekunami_firmware.c:76-78 | a line of only white space changes nothing |
| NekunamiFirmware.LineWithoutCommaIgnored | sketch/nekunami_firmware.c:81-84 | a line whose payload (after the first two characters) has no comma changes nothing |
| NekunamiFirmware.UnknownTypeIgnored | sketch/nekunami_firmware.c:80-102 | a line whose type is not T, M or m changes nothing |
| NekunamiFirmware.ThresholdForRootOrUnknownIndexIgnored | sketch/nekunami_firmware.c:92-101 | M and m lines for the root or an index outside 1..2 change nothing |
| NekunamiFirmware.ThresholdLineSetsOneValue | sketch/nekunami_firmware.c:92-101 | an M or m line for load 1 or 2 sets that one threshold and nothing else |
| NekunamiFirmware.ToggleOnOnlyForOne | sketch/nekunami_firmware.c:89-90 | a T line requests "on" exactly when its value reads as the integer 1 |
| NekunamiFirmware.CommandText | sketch/nekunami_firmware.c:16-23 | a reference encoder for the command format the header documents: the type character, a comma, the index in decimal, a comma, the value (a definition; ParseCommandText, CommandTextFields and ParseToggleText prove the firmware reads it back) |
| NekunamiFirmware.ParseCommandText | sketch/nekunami_firmware.c:16-23 | the documented "type,index,value" line parses back to its type, the index (taken through the 16-bit int) and the value through toInt or toFloat; unknown types are ignored |
| NekunamiFirmware.CommandTextFields | sketch/nekunami_firmware.c:76-87 | on such a line, trim changes nothing, the index text is the decimal index and the value text is the value |
| NekunamiFirmware.ParseToggleText | sketch/nekunami_firmware.c:18-19 | "T,i,1" and "T,i,0" parse to a toggle of breaker i (16-bit) to on and off |
| NekunamiFirmware.CommaAfterNulIgnored | sketch/nekunami_firmware.c:81-84 | a line whose payload holds a NUL with no comma before it changes nothing: substring(2) stops at the NUL, so indexOf(',') returns -1 |
| NekunamiFirmware.NulLineIgnored | sketch/nekunami_firmware.c:81-84 | the line "T,d\0,1" for any digit d, "T,1\0,1" among them, changes no breaker, even though the bytes after the NUL read ",1" |
| NekunamiFirmware.WrappedIndexReachesRoot | sketch/nekunami_firmware.c:86 | "T,n,0" for any multiple n of 65536 acts on the overall breaker and switches everything off |
| NekunamiFirmware.MultipleWrapsToZero | sketch/nekunami_firmware.c:86 | a multiple of 65536 narrows to 0 |
| NekunamiFirmware.Run | sketch/nekunami_firmware.c:56-64 | any run of set-state calls, trip checks and command lines keeps the bank well formed |
| NekunamiFirmware.Perform | sketch/nekunami_firmware.c:56-64 | one action of a run: a setBreakerState call, a trip check with a load current, or a received line; the bank stays well formed |
| NekunamiFirmware.RequestsLoad1On | sketch/nekunami_firmware.c:89-91 | an action that asks for load 1 to be switched on: setBreakerState(1, true), or a line that parses to that toggle (a definition; TripLatches uses it as its hypothesis) |
| NekunamiFirmware.StaysOff | sketch/nekunami_firmware.c:106-134 | one action that does not ask for load 1 leaves load 1 off |
| NekunamiFirmware.CommandStaysOff | sketch/nekunami_firmware.c:89-102 | a command other than "switch load 1 on" leaves load 1 off |
| NekunamiFirmware.RunKeepsRootGating | sketch/nekunami_firmware.c:106-134 | after any such run, the root being off implies both loads off, if it did so at the start |
| NekunamiFirmware.RootGatingFromStart | sketch/nekunami_firmware.c:34 | from the initial globals, every run keeps the root gating the loads |
| NekunamiFirmware.TripLatches | sketch/nekunami_firmware.c:106-113 | once load 1 is off, only an explicit request to switch load 1 on (a call or a "T,1,1"-like line) can switch it on again; trip checks never do |
| NekunamiFirmware.ScenarioTexts | sketch/nekunami_firmware.c:18-19 | the toggle lines for breakers 0 and 1 with value 1 are written "T,0,1" and "T,1,1" |
| NekunamiFirmware.ToggleOnLine | sketch/nekunami_firmware.c:89-91 | the line "T,i,1" for a breaker i acts as setBreakerState(i, true) |
| NekunamiFirmware.TogglesOn | sketch/nekunami_firmware.c:89-91 | two such lines in a row act as the two setBreakerState calls in that order |
| NekunamiFirmware.ScenarioSwitchesOn | sketch/nekunami_firmware.c:89-91 | from the initial bank, the lines CommandText writes for "T,0,1" and "T,1,1" give the bank with the overall breaker and load 1 on, load 2 off and the thresholds as at start |
| NekunamiFirmware.ScenarioBank | sketch/nekunami_firmware.c:34-36 | the bank after the scenario's two lines: the overall breaker and load 1 on, thresholds as at start (a definition; ScenarioSwitchesOn and ScenarioLines prove the lines reach it) |
| NekunamiFirmware.ScenarioLines | sketch/nekunami_firmware.c:18-19 | the literal lines "T,0,1" and "T,1,1", read from all off, give that bank |
| NekunamiFirmware.ScenarioTrip | sketch/nekunami_firmware.c:106-142 | that bank has status mask 3; a load-1 current just above its maximum trips load 1 and leaves mask 1 |
| NekunamiFirmware.TripScenario | sketch/nekunami_firmware.c:108-142 | from all off, toggling root and load 1 on gives mask 3, and a load-1 current just above its maximum trips load 1, leaving mask 1 |
| ArduinoText.LeadingSpaces | sketch/nekunami_firmware.c:76 | the length of the leading run of isspace characters, and the next character is not one |
| ArduinoText.TrailingSpaces | sketch/nekunami_firmware.c:76 | the length of the trailing run of isspace characters, and the character before is not one |
| ArduinoText.Trim | sketch/nekunami_firmware.c:76 | the result is the input minus its leading and trailing white space; it is empty exactly when the line is blank, and otherwise starts and ends with a non-space |
| ArduinoText.TrimUntouched | sketch/nekunami_firmware.c:76 | a line with no white space at either end is left as it is |
| ArduinoText.IndexOf | sketch/nekunami_firmware.c:83 | -1 exactly when the character is absent; otherwise the position of its first occurrence |
| ArduinoText.IndexOfIsFirst | sketch/nekunami_firmware.c:83 | a position holding the character with none before it is what indexOf returns |
| ArduinoText.UpToNul | sketch/nekunami_firmware.c:81 | what String::substring keeps: a prefix of its source with no NUL in it, which ends early only at a NUL, and which is the whole source when that holds no NUL |
| ArduinoText.DigitRun | sketch/nekunami_firmware.c:86 | the length of the leading run of decimal digits |
| ArduinoText.DigitsValue | sketch/nekunami_firmware.c:86 | the number a digit string denotes, most significant digit first; it is 0 exactly when every digit is '0' |
| ArduinoText.AfterSign | sketch/nekunami_firmware.c:86 | what atol and atof skip: the result is a suffix of the input that drops exactly the leading white space and at most one more character (the sign) |
| ArduinoText.IsNegative | sketch/nekunami_firmware.c:86 | a '-' directly after the leading white space (a definition; ToInt and ToFloat state its effect) |
| ArduinoText.ToInt | sketch/nekunami_firmware.c:86-90 | toInt is non-positive after a '-' and non-negative otherwise, and 0 when no digit follows the optional sign |
| ArduinoText.ToFloat | sketch/nekunami_firmware.c:93-99 | toFloat agrees with toInt on the integer part: the result lies between toInt and toInt + 1 for a positive text and between toInt - 1 and toInt for a negative one |
| ArduinoText.FractionValue | sketch/nekunami_firmware.c:93 | the digits after a decimal point denote a value in 0..1 |
| ArduinoText.DecimalString | sketch/nekunami_firmware.c:150 | String(n) is a non-empty string of decimal digits that starts with '0' only for n = 0, so without leading zeros |
| ArduinoText.DigitsValueOfDecimalString | sketch/nekunami_firmware.c:150 | the digits of String(n) denote n |
| ArduinoText.ToIntOfDecimalString | sketch/nekunami_firmware.c:86 | toInt reads back String(n) as n |
| ArduinoText.ToFloatOfDecimalString | sketch/nekunami_firmware.c:93 | toFloat reads back String(n) as n |
| ArduinoText.Split | sketch/nekunami_firmware.c:13 | a text always has at least one field |
| ArduinoText.Join | sketch/nekunami_firmware.c:149-158 | the line the firmware builds field by field: it starts with the first field, followed by the separator when more fields come; a single field is its own join |
| ArduinoText.SplitJoin | sketch/nekunami_firmware.c:149-158 | splitting fields joined with a separator gives them back when none contains the separator |
| VoltageMonitor.VoltSens.constructor | sketch/gemini_voltsens.c:4-22 | not tripped, pin HIGH, empty receive buffer |
| VoltageMonitor.Initial | sketch/gemini_voltsens.c:4-21 | the state after the global initializer and setup(): not tripped, pin HIGH (OnlyInitialIsInconsistent shows it is the only reachable state where pin and flag disagree) |
| VoltageMonitor.VoltSens.Receive | sketch/gemini_voltsens.c:54-55 | received bytes join the end of the buffer |
| VoltageMonitor.VoltSens.Loop | sketch/gemini_voltsens.c:38-72 | the flag and the pin become Step of their old values, the voltage and the first buffered byte (none if the buffer was empty); the buffer ends empty |
| VoltageMonitor.Hysteresis | sketch/gemini_voltsens.c:39-51 | after the hysteresis check the circuit is tripped exactly when it was tripped and the voltage is above 3.0 V, or untripped and the voltage is at or above 5.0 V; a change writes the pin that goes with the flag |
| VoltageMonitor.Manual | sketch/gemini_voltsens.c:57-67 | after a command byte the circuit is tripped exactly when the byte is '0', or it was tripped and the byte is not '1'; a change writes the pin that goes with the flag |
| VoltageMonitor.Step | sketch/gemini_voltsens.c:38-67 | after one pass the circuit is tripped exactly when the first byte is '0', or there is no '1' and the hysteresis rule leaves it tripped |
| VoltageMonitor.Consistent | sketch/gemini_voltsens.c:41-63 | the pin is HIGH exactly when the circuit is tripped (a definition; ConsistentStaysConsistent proves it preserved) |
| VoltageMonitor.TripAtHigh | sketch/gemini_voltsens.c:39-44 | untripped at or above 5.0 V: tripped, pin HIGH |
| VoltageMonitor.ResetAtLow | sketch/gemini_voltsens.c:45-51 | tripped at or below 3.0 V: reset, pin LOW |
| VoltageMonitor.DeadBand | sketch/gemini_voltsens.c:39-51 | strictly between 3.0 V and 5.0 V, with no command, nothing changes |
| VoltageMonitor.ManualTrip | sketch/gemini_voltsens.c:57-67 | '0' trips (pin HIGH) only if the circuit is untripped after the hysteresis check; '0' on a tripped circuit and any byte other than '0' and '1' leave the state |
| VoltageMonitor.ManualReset | sketch/gemini_voltsens.c:61-64 | '1' always resets and drives the pin LOW |
| VoltageMonitor.HysteresisBeforeCommand | sketch/gemini_voltsens.c:38-64 | the hysteresis check runs first: at 5.0 V or above, a '0' in the same pass is refused and a '1' undoes the trip |
| VoltageMonitor.StepPairsPinWithFlag | sketch/gemini_voltsens.c:39-67 | every pass either changes nothing or leaves the pin HIGH exactly when tripped |
| VoltageMonitor.Run | sketch/gemini_voltsens.c:24-74 | the state after successive passes of loop(), each with its load voltage and optional command byte (a definition; RunAppend, QuietBelowHigh, OneTripThenOneReset and ConsistentStaysConsistent state its properties) |
| VoltageMonitor.Events | sketch/gemini_voltsens.c:39-67 | the changes of circuitTripped over a run, in order: Trip when it is set, Reset when it is cleared (a definition; RunAppend, NoChatterInDeadBand and OneTripThenOneReset state its properties) |
| VoltageMonitor.RunAppend | sketch/gemini_voltsens.c:24-74 | passes compose: a run over two stretches is the second run from where the first ended, with the events concatenated |
| VoltageMonitor.QuietBelowHigh | sketch/gemini_voltsens.c:39-44 | without commands, an untripped circuit stays untripped, with no events, while every voltage is below 5.0 V |
| VoltageMonitor.QuietAboveLow | sketch/gemini_voltsens.c:45-51 | without commands, a tripped circuit stays tripped, with no events, while every voltage is above 3.0 V |
| VoltageMonitor.NoChatterInDeadBand | sketch/gemini_voltsens.c:13-16 | voltages strictly inside the band produce zero trip or reset events and leave the state |
| VoltageMonitor.OneTripThenOneReset | sketch/gemini_voltsens.c:39-51 | below 5.0 V, then at or above it, then above 3.0 V, then at or below it, then below 5.0 V: exactly one trip followed by one reset |
| VoltageMonitor.RisePhase | sketch/gemini_voltsens.c:39-44 | the first crossing of 5.0 V is the only event and trips the circuit |
| VoltageMonitor.FallPhase | sketch/gemini_voltsens.c:45-51 | from tripped, the first drop to 3.0 V or below is the only event and resets the circuit |
| VoltageMonitor.SinglePass | sketch/gemini_voltsens.c:24-74 | a run of one pass is that pass, with one event exactly when the flag changed |
| VoltageMonitor.TrippedMeansPinHigh | sketch/gemini_voltsens.c:41-59 | whenever the circuit is tripped, the pin is HIGH, after any run from such a state |
| VoltageMonitor.ConsistentStaysConsistent | sketch/gemini_voltsens.c:39-67 | once the pin agrees with the flag, it agrees after every later run |
| VoltageMonitor.OnlyInitialIsInconsistent | sketch/gemini_voltsens.c:21 | from setup's state (untripped but pin HIGH), every run either stays in that state or reaches one where the pin agrees with the flag |
| NekuDashboard.Fixed2 | neku_web/neku_js.js:57-63 | toFixed(2) read back: within 0.005 of the value |
| NekuDashboard.Fixed2Magnitude | neku_web/neku_js.js:90 | rounding a non-negative value to two decimals stays within 0.005 |
| NekuDashboard.Fixed2Zero | neku_web/neku_js.js:90 | a zero total is shown as 0 |
| NekuDashboard.Contribution | neku_web/neku_js.js:86-88 | what one child adds to updateOverallLoad's total: its displayed load voltage when it is on, nothing when it is off (a definition; ChildLoad and SameContributionsSameLoad use it) |
| NekuDashboard.ChildLoad | neku_web/neku_js.js:84-89 | the running total over panels 1 .. n-1 that are on; it is non-negative when those panels show non-negative loads |
| NekuDashboard.TotalLoad | neku_web/neku_js.js:84-89 | the total over all child panels that are on; non-negative when they show non-negative loads |
| NekuDashboard.WithOverallLoad | neku_web/neku_js.js:83-91 | updateOverallLoad changes only panel 0's load display, which ends within 0.005 of the total |
| NekuDashboard.SetOnSpec | neku_web/neku_js.js:32-40 | setOn changes the status of no panel but its own and the load display of no child |
| NekuDashboard.AllOff | neku_web/neku_js.js:42-48 | setOff on the overall panel: every panel off and every display cleared, except the overall panel's system voltage, which stopVoltageReadings keeps (a definition; OverallOffCascades states it) |
| NekuDashboard.SetOffSpec | neku_web/neku_js.js:42-49 | setOff switches no panel on |
| NekuDashboard.TickSpec | neku_web/neku_js.js:55-67 | an interval run changes no panel's status and no panel other than its own and panel 0 |
| NekuDashboard.Dashboard.constructor | neku_web/neku_js.js:2-18 | a new panel is off with cleared displays, the overall panel keeping its system voltage |
| NekuDashboard.Dashboard.SetOn | neku_web/neku_js.js:32-40 | the panels become SetOnSpec of their old view: the overall panel always switches on and refreshes the total; a child switches on only while panel 0 is on |
| NekuDashboard.Dashboard.SetOff | neku_web/neku_js.js:42-49 | the panels become SetOffSpec of their old view: the panel goes off with cleared displays; the overall panel first switches every child off through the same method; the total is refreshed last |
| NekuDashboard.Dashboard.VoltageTick | neku_web/neku_js.js:55-67 | the panels become TickSpec of their old view for the two random values |
| NekuDashboard.View | neku_web/neku_js.js:80-81 | one panel state per dashboard |
| NekuDashboard.Wired | neku_web/neku_js.js:80-81 | the dashboards array as the page builds it: at least one panel, the first one overall, the others not, all distinct objects (a definition; CreateDashboards ensures it) |
| NekuDashboard.InitialView | neku_web/neku_js.js:80-81 | the panels as constructed: all off, no load shown, the overall panel showing the markup's system voltage (a definition; CreateDashboards ensures it and InitialConsistent proves it consistent) |
| NekuDashboard.CreateDashboards | neku_web/neku_js.js:80-81 | n distinct, fresh panels, only the first one overall, all off with cleared displays |
| NekuDashboard.UpdateOverallLoad | neku_web/neku_js.js:83-91 | the loop's sum over the child panels that are on, rounded, becomes panel 0's load display; nothing else changes |
| NekuDashboard.OverallSwitchesOn | neku_web/neku_js.js:32-39 | setOn on the overall panel always switches it on and leaves the children as they were |
| NekuDashboard.ChildSwitchesOnOnlyUnderOverall | neku_web/neku_js.js:32-35 | after setOn, a child is on exactly when panel 0 was on or it already was; no other panel changes |
| NekuDashboard.SwitchedOffPanelIsOff | neku_web/neku_js.js:42-44 | after setOff, the panel is off and shows no load |
| NekuDashboard.ChildOffChangesOnlyItself | neku_web/neku_js.js:42-49 | setOff on a child clears that child and changes only panel 0's load display besides |
| NekuDashboard.OverallOffCascades | neku_web/neku_js.js:45-47 | setOff on the overall panel leaves every panel off |
| NekuDashboard.NoChildOnNoLoad | neku_web/neku_js.js:84-89 | with no child on, the total is 0 |
| NekuDashboard.SameContributionsSameLoad | neku_web/neku_js.js:85-89 | the total depends only on what each child that is on shows: not on panel 0, and not on children that are off |
| NekuDashboard.ChildLoadAddsOnChild | neku_web/neku_js.js:85-89 | changing the load shown by a child that is on changes the total by exactly that difference |
| NekuDashboard.ChildLoadSplit | neku_web/neku_js.js:85-89 | changing one child changes the partial total by the change in its contribution |
| NekuDashboard.WithOverallLoadShowsTotal | neku_web/neku_js.js:83-91 | after updateOverallLoad, panel 0 shows the rounded total |
| NekuDashboard.OverallShowsTotal | neku_web/neku_js.js:83-91 | the overall panel shows the two-decimal rounding of the sum of its children's contributions (a definition; WithOverallLoadShowsTotal proves updateOverallLoad establishes it) |
| NekuDashboard.Apply | neku_web/neku_js.js:32-67 | one event on the page: a click on setOn or setOff, or one run of a panel's interval callback; a tick may come on any panel, including one whose interval is stopped, so the event model allows more runs than the page does (a definition; ApplyKeepsConsistent states what it keeps) |
| NekuDashboard.Run | neku_web/neku_js.js:32-94 | the panels after a sequence of such events, ticks on stopped panels included (a definition; RunKeepsConsistent and AlwaysConsistent state what it keeps) |
| NekuDashboard.InitialConsistent | neku_web/neku_js.js:80-81 | at page load, the invariant holds: panel 0 gates the others, children that are off show no load, and panel 0 shows the total |
| NekuDashboard.Consistent | neku_web/neku_js.js:32-91 | the dashboard's invariant: panel 0 off means every panel off, children that are off show no load, and panel 0 shows the rounded total (a definition; the lemmas around it prove it preserved) |
| NekuDashboard.ApplyKeepsConsistent | neku_web/neku_js.js:32-91 | every click and every interval run keeps that invariant |
| NekuDashboard.RunKeepsConsistent | neku_web/neku_js.js:32-91 | so does every sequence of them |
| NekuDashboard.AlwaysConsistent | neku_web/neku_js.js:80-94 | from page load on, whatever is clicked and however the intervals fire, no child is on while panel 0 is off, and panel 0's load always equals the rounded sum of the loads of the children that are on |
| WebClient.Float32BytesRead | neku-web/neku-web-main/App.tsx:54 | reading the little-endian bytes of a float32 gives it back |
| WebClient.Float32ReadBytes | neku-web/neku-web-main/App.tsx:54 | writing back a float32 read from four bytes gives those bytes |
| WebClient.Float32AtBytes | neku-web/neku-web-main/App.tsx:54 | four bytes equal to a float's encoding read as that float |
| WebClient.Float32Bytes | neku-web/neku-web-main/App.tsx:10-15 | a float32 occupies four bytes |
| WebClient.Float32At | neku-web/neku-web-main/App.tsx:54 | getFloat32(offset, true): the four bytes from offset, least significant first (a definition; Float32BytesRead and Float32ReadBytes prove it inverse to the encoding) |
| WebClient.LittleEndian | neku-web/neku-web-main/App.tsx:54 | getFloat32(offset, true): the first byte is the least significant of the 32 bits (a definition; Float32BytesRead and Float32AtBytes prove it inverse to Float32Bytes) |
| WebClient.MaskBit | neku-web/neku-web-main/App.tsx:57-60 | (statusMask & (1 << i)) > 0 (a definition; StatusMaskOfBits and MaskLowBits relate it to the encoding) |
| WebClient.HandleStatusUpdate | neku-web/neku-web-main/App.tsx:45-61 | fewer than 21 bytes leave the breakers unchanged; otherwise breaker i takes bit i of byte 0 as its status, the float at byte 1 as voltage1 and the float at byte 5 + 4i as voltage2, keeping id, name, labels and kind |
| WebClient.StatusPacket | neku-web/neku-web-main/App.tsx:6-16 | the device's packet is 21 bytes |
| WebClient.StatusMaskOf | neku-web/neku-web-main/App.tsx:8-9 | the sending side's mask, bit i for breaker i: below 16, and 0 exactly when all four are off; a reference encoder for the device, not code of the client |
| WebClient.StatusMaskOfBits | neku-web/neku-web-main/App.tsx:8-9 | bit i of the encoded mask is status i |
| WebClient.StatusPacketRoundTrip | neku-web/neku-web-main/App.tsx:45-61 | decoding a packet the device encoded recovers every status, the system voltage and every second voltage |
| WebClient.MaskLowBits | neku-web/neku-web-main/App.tsx:57-60 | the four decoded statuses re-encode to the mask's low four bits |
| WebClient.StatusUpdateReadsThePacket | neku-web/neku-web-main/App.tsx:45-61 | re-encoding what was decoded gives the first 21 bytes back, with mask bits 4-7 cleared: nothing else of the packet is read |
| WebClient.PacketFields | neku-web/neku-web-main/App.tsx:6-16 | the packet the device sends holds the mask at byte 0 and the five float32 fields at bytes 1-4, 5-8, 9-12, 13-16 and 17-20 |
| WebClient.SameFields | neku-web/neku-web-main/App.tsx:45-61 | a 21-byte packet with mask byte m whose five fields match the input's is m followed by the input's bytes 1 to 20 |
| WebClient.Float32AtPrefix | neku-web/neku-web-main/App.tsx:54 | a float field reads the same with more bytes appended |
| WebClient.TrailingBytesIgnored | neku-web/neku-web-main/App.tsx:46-61 | bytes after the 21st do not change the result |
| WebClient.StatusUpdateKeepsLayout | neku-web/neku-web-main/App.tsx:56-61 | a status update keeps the four records' ids, names, labels and kind in order |
| WebClient.InitialBreakers | neku-web/neku-web-main/App.tsx:18-23 | INITIAL_BREAKERS: four records, the first the overall breaker and the others not, all off with zero voltages, with distinct ids |
| WebClient.SameLayout | neku-web/neku-web-main/App.tsx:56-61 | four records whose id, name, labels and overall flag are those of INITIAL_BREAKERS: what the spread `...prev[i]` keeps (a definition; StatusUpdateKeepsLayout, StepKeepsLayout and RunKeepsLayout prove it preserved) |
| WebClient.FindIndex | neku-web/neku-web-main/App.tsx:162 | -1 exactly when no record has the id; otherwise the first record with it |
| WebClient.HandleToggle | neku-web/neku-web-main/App.tsx:154-173 | without a writer, the error "Device is not connected." is set and nothing is written; with one, the records are untouched and two bytes [index, 1 or 0] are written exactly when some initial record has the id, the index being the one whose id it is |
| WebClient.ToggleCommandDecodes | neku-web/neku-web-main/App.tsx:159-166 | the command written for the record in slot i decodes to breaker i and the requested state, the same slot as bit i of the status mask |
| WebClient.DecodeCommand | neku-web/neku-web-main/App.tsx:159-161 | the receiving side of the two-byte command, for breakers 0..3 and states 0 and 1; a decoded command is exactly the two bytes [index, 1 or 0]. A reference decoder for the device, not code of the client |
| WebClient.ToggleLeavesRecords | neku-web/neku-web-main/App.tsx:154-173 | a toggle never changes a record; only a status packet or a disconnect does |
| WebClient.OnDisconnected | neku-web/neku-web-main/App.tsx:36-43 | not connected, no writer, the records reset to the initial four, all off with zero voltages |
| WebClient.OnData | neku-web/neku-web-main/App.tsx:80 | a chunk read from the port updates the records through handleStatusUpdate and nothing else |
| WebClient.Step | neku-web/neku-web-main/App.tsx:36-173 | one event of the app (a data chunk, a toggle or a disconnect); the app always holds four records, and a toggle leaves them alone |
| WebClient.Run | neku-web/neku-web-main/App.tsx:26-173 | the app's records after a sequence of events (a definition; RunKeepsLayout states what it keeps) |
| WebClient.StepKeepsLayout | neku-web/neku-web-main/App.tsx:36-173 | any packet, toggle or disconnect keeps the four records' layout |
| WebClient.RunKeepsLayout | neku-web/neku-web-main/App.tsx:26-173 | after any sequence of those, the app shows the same four breakers in the same order |

## Left out

- The analog front ends fall outside the model: readCurrent's ACS712 calibration and the voltage monitor's slope and intercept. Readings are inputs as real numbers.
- Single-precision floating point is not modelled. Sensor values, thresholds and comparisons are exact reals in both firmwares. The dashboard's toFixed rounds the exact real, not the binary double.
- Pins are left out: pinMode and digitalWrite of the text firmware's transistors. The voltage monitor's pin level is kept as a field.
- Serial I/O is an input: readStringUntil's timeout and terminator handling, println's CR LF, and the voltage monitor's diagnostic prints and delay(100). Each line or byte arrives as an argument.
- NekunamiFirmware.Firmware.SendDataPacket: String(x, 2) is the parameter fmt. Its two-decimal rendering is not modelled. TelemetryLineFields assumes only that fmt never writes '|'.
- ArduinoText.ToFloat: exponents, "inf" and "nan" are not read.
- ArduinoText.ToInt: the overflow of atol past 32 bits is not modelled. The 16-bit narrowing to int is modelled.
- WebClient.Float32At: the number a float32 denotes is not computed. The decoder and the encoder handle the 32 bits only.
- WebClient.HandleStatusUpdate: assumes the chunk's view starts at the start of its buffer (DataView over data.buffer). The catch branch is left out; it cannot be reached once the length check passes.
- Web Serial and React are left out: requestPort, open, readLoop's reader loop, write failures, handleConnect and handleDisconnect, useEffect, and rendering. The writer's presence is the flag writerOpen.
- The dashboard's DOM, status text, colours and the timers themselves are left out. NekuDashboard.Dashboard.VoltageTick is one run of the interval callback, whichever panel's interval fires. The model does not track which panels have a running interval, so NekuDashboard.Apply and NekuDashboard.Run allow a tick on a panel whose interval is stopped. The page never produces that run; the invariants are proved over the larger set of runs, so they hold for the page's runs too.
- NekuDashboard.CreateDashboards requires at least one container: with none, the page's last line fails.
- kivy_app/ui.py, components/BreakerPanel.tsx and types.ts beyond the Breaker record are not part of this model.
