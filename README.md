# ESP32 irrigation controller: the actuator and safety core

The firmware drives two actuators of a greenhouse, a water pump and a
fertiliser pump, from one ESP32. Twelve snapshots of it exist, from v5.0 (no
modes, no commands) to v11.0 (an RS-485 soil probe and contactor feedback).
Each snapshot runs the same control cycle in `loop()`:

1. classify the sensors;
2. run the thermal-overload interlock;
3. check the contactor feedback (v10.7 and v11.0);
4. run the daily fertiliser job, then moisture-driven irrigation;
5. apply the 10-minute pump runtime lockout;
6. build the status bitmask.

Remote commands (`STOP`, `AUTO_ON`, `AUTO_OFF`, `LED1_ON/OFF`, `LED2_ON/OFF`)
change the same globals. They arrive over MQTT (through `callback()`, before
the cycle body) or from a ThingSpeak TalkBack poll (after the lockout).

The model has three layers:

- **Specification.** `Control` states every phase as a function from the
  globals before it to the globals after it. `Cycle` composes the phases, and
  `Run` chains cycles.
- **Imperative controller.** `Firmware.Controller` is a class whose fields
  are the firmware's globals. `callback()`, `checkFeedback()`,
  `readSoilSensor()` and every block of `loop()` are methods that update those
  fields in the order of cpp/v10.7.cpp. Each method is proved to leave exactly
  the state its phase function describes, so every property proved of the
  phases holds of the object.
- **Snapshots.** One controller serves all twelve snapshots. `Snapshots` turns
  their differences into feature predicates:
  - the command channel, `STOP`, the manual interlock;
  - the overload policy, notifications, persisted mode, auto-demotion;
  - feedback pins, the bus sensor and the status width.

  The root v10.4.cpp is `V10_4Quiet`: it is cpp/v10.4.cpp without notifications
  and with silent overload stops.

Hardware reads are inputs of a cycle (`Inputs`):

- the overload and feedback pin levels;
- the raw ADC value, DHT validity and the 13-byte RS-485 reply;
- the optional wall-clock hour and minute, `millis()`, the WiFi state and the
  command text.

Webhook notifications are events appended to a log, so "one alert per onset"
is a counting statement. `millis()` is a 32-bit counter: intervals are
measured modulo 2^32 (`Common.Elapsed`).

Smaller pieces are modelled alongside the controller:

- the analog soil mapping, using C's truncating division;
- the status word encoder and decoder;
- the Modbus RTU query, reply and CRC-16 (Modbus Application Protocol V1.1b3
  section 6.3; MODBUS over Serial Line V1.02 section 2.5.1);
- the webhook payload and v8.2's JSON escaping (RFC 8259 section 7).

## Model

| member | source | states |
|---|---|---|
| Common.Elapsed | cpp/v10.7.cpp:409 | `now - since` on 32-bit `unsigned long` is the true distance, or that distance plus 2^32 across the roll-over |
| Common.ElapsedIsModular | cpp/v10.7.cpp:409 | the elapsed time is the difference modulo 2^32 |
| SoilMapping.TruncDiv | v5.0.cpp:103 | C integer division: magnitude is the quotient of magnitudes, sign of the operands' signs (toward zero) |
| SoilMapping.SoilPercent | cpp/v10.7.cpp:332-333 | `constrain(map(raw, 4095, 1500, 0, 100), 0, 100)` always lies in [0, 100] |
| SoilMapping.SoilPercentClosedForm | cpp/v10.7.cpp:332-333 | the percentage is the covered share of the dry-to-wet span, rounded down, saturating at 100 past the water point |
| SoilMapping.SoilPercentAntitone | v5.0.cpp:103-104 | a wetter (lower) raw reading never gives a lower percentage |
| SoilMapping.DryThreshold | cpp/v10.7.cpp:395 | `soilPercent < 20` exactly when the raw reading is above 3576 |
| SoilMapping.WetThreshold | cpp/v10.7.cpp:399 | `soilPercent > 80` exactly when the raw reading is at most 1993 |
| Snapshots.Overload | v8.0.cpp:135-151 | the overload policy is "not sensed" exactly in the snapshots without overload inputs (v5.0, v6.0, v6.2) |
| Snapshots.ChannelsPartition | cpp/v10.7.cpp:314 | every snapshot with a mode takes commands from exactly one channel (MQTT or TalkBack); v5.0 takes none |
| StatusWord.EncodeFlags | cpp/v10.7.cpp:416-426 | the `if (flag) status \|= value;` chain produces the status word of the flags for the snapshot's width |
| StatusWord.Truncate | v6.2.cpp:179-184 | a full-width word carries every flag |
| StatusWord.EncodeTruncated | cpp/v10.6.cpp:317-324 | a narrower word is the full word of the flags it can carry |
| StatusWord.DecodeEncodeFull | cpp/v10.7.cpp:416-426 | testing each bit of the nine-bit word recovers every flag |
| StatusWord.DecodeEncode | cpp/v10.7.cpp:416-426 | testing each bit recovers every flag the snapshot's width carries; the others read as clear |
| StatusWord.EncodeBounded | v5.0.cpp:166-175 | the word has no bit at or above its width: below 16, 32, 128 or 512 |
| StatusWord.EncodeInjective | cpp/v10.7.cpp:416-426 | different flags give different nine-bit words |
| StatusWord.MaskIsLowBits | v6.0.cpp:178-185 | the width mask is the low `width` bits |
| StatusWord.LowBits | v7.0.cpp:211-221 | the 4-, 5- and 7-bit words are the nine-bit word masked to 0xF, 0x1F and 0x7F |
| StatusWord.EncodeExtends | v6.2.cpp:179-184 | each narrower word is the full word restricted to its low bits: later snapshots only added bits |
| Modbus.CrcFromAppend | cpp/v11.0.cpp:50 | CRC-16/MODBUS folds in one byte at a time |
| Modbus.WithCrc | cpp/v11.0.cpp:50 | an RTU frame is the body followed by two CRC bytes |
| Modbus.WithCrcValid | cpp/v11.0.cpp:50 | a frame built with its CRC passes the CRC check |
| Modbus.ReadHoldingRegisters | cpp/v11.0.cpp:50 | a function-0x03 request is 8 bytes: slave, 0x03, start, count, CRC |
| Modbus.SoilQueryCrcHead | cpp/v11.0.cpp:50 | CRC register after the first three bytes of the query |
| Modbus.SoilQueryCrcTail | cpp/v11.0.cpp:50 | CRC register after the last three bytes of the query |
| Modbus.SoilQueryCrc | cpp/v11.0.cpp:50 | the CRC of the query body is 0x0944, sent as 0x44, 0x09 |
| Modbus.SoilQueryIsReadRequest | cpp/v11.0.cpp:48-50 | the constant query is the request "slave 1, read 4 registers from 0" with its correct CRC |
| Modbus.SoilReplyLength | cpp/v11.0.cpp:134 | the reply to a 4-register read is 13 = 3 + 2*4 + 2 bytes |
| Modbus.Word | cpp/v11.0.cpp:148-151 | `buf[i] << 8 \| buf[i+1]` has high byte `buf[i]` and low byte `buf[i+1]` |
| Modbus.WordOfBytes | cpp/v11.0.cpp:148-151 | splitting a register into bytes and joining them gives it back |
| Modbus.EncodeReply | cpp/v11.0.cpp:145 | the probe's reply carries a valid CRC and the header 01 03 08 |
| Modbus.DecodeReplyAsWritten | cpp/v11.0.cpp:145-156 | the decoder as written (the one the controller uses) accepts a frame exactly when its header is 01 03 08 |
| Modbus.DecodeReply | cpp/v11.0.cpp:145-156 | the corrected decoder accepts a frame exactly when its header is 01 03 08 |
| Modbus.DecodeEncodeReply | cpp/v11.0.cpp:146-151 | the corrected decoder gives back the four registers the probe sent |
| Modbus.DecodeAsWrittenSwaps | cpp/v11.0.cpp:148-149 | the decoder as written swaps moisture and temperature of every reply |
| Modbus.DrySoilReadAsMoist | cpp/v11.0.cpp:148-149 | soil at 15.00 % and 25.00 degrees is read as 25.00 % moisture by the code as written |
| Modbus.DecodeIgnoresCrc | cpp/v11.0.cpp:145 | frames that agree on bytes 0..10 decode alike, by the decoder as written and by the corrected one: the CRC bytes are never checked |
| Notify.Payload | cpp/v10.7.cpp:102 | the webhook body is the message between `{"content":"` and `"}`, pasted in unescaped by every notifying snapshot except v8.2 |
| Notify.RawLineFeedRejected | v8.0.cpp:78 | a message containing a raw line feed is not a valid JSON string body |
| Notify.UnescapedAlertMalformed | v8.0.cpp:205 | v8.0's multi-line alerts (most of its alerts) produce a malformed JSON payload |
| Notify.EscapedAppend | cpp/v8.2.cpp:83-89 | escaping distributes over concatenation |
| Notify.EscapeMessage | cpp/v8.2.cpp:83-89 | the escaping loop builds `\n` for a line feed, `\"` for a quote, and copies every other character in order |
| Notify.EscapedLength | cpp/v8.2.cpp:83-89 | escaped length = length + number of line feeds + number of quotes |
| Notify.EscapedIsJsonBody | cpp/v8.2.cpp:80-92 | for every message the firmware composes, v8.2's escaped payload is a valid JSON string body |
| Notify.UnescapeEscaped | cpp/v8.2.cpp:128-134 | a receiver that reads the JSON string back gets exactly the composed message |
| Notify.EscapeKeepsBackslash | cpp/v8.2.cpp:83-89 | a backslash is copied unescaped, so a line feed and the two characters `\n` escape alike |
| Notify.PayloadEscaped | cpp/v8.2.cpp:92 | v8.2's body holds the escaped message |
| Control.WithDrive | cpp/v10.7.cpp:209-244 | replacing one actuator's globals leaves the other actuator's alone |
| Control.SetRunning | cpp/v10.7.cpp:222-224 | switching an actuator sets its running flag and leaves the other actuator alone |
| Control.Start | cpp/v10.7.cpp:214 | a start sets the running flag and the start time to now, and leaves the other actuator alone |
| Control.InterlockStep | cpp/v10.7.cpp:210-213 | before a manual start the other actuator is off (where the snapshot interlocks); the started actuator is untouched |
| CommandFacts.NotManual | cpp/v10.7.cpp:176 | a command not starting with `L` is not a manual command |
| CommandFacts.StopCommand | cpp/v10.7.cpp:188-196 | `STOP`: both actuators off, manual mode, `is_auto=false` stored where the mode is stored, alarm untouched |
| CommandFacts.StopUnknownInV6_0 | v6.0.cpp:160-168 | v6.0 does not know `STOP`: it changes nothing |
| CommandFacts.ModeCommand | cpp/v10.6.cpp:133-144 | `AUTO_ON`/`AUTO_OFF` set the mode, store it where it is stored, and leave the actuators alone |
| CommandFacts.RebootRestoresMode | cpp/v10.5.cpp:215 | where the mode is stored (`putBool` at lines 123, 131, 137), a reboot restores the mode last set |
| CommandFacts.RebootDefaultsToAuto | v6.2.cpp:42 | elsewhere every boot starts in automatic mode |
| CommandFacts.Demotion | cpp/v10.6.cpp:115-122 | an LED command in auto mode (v10.6 onwards) sets manual mode, stores `is_auto=false` and sends one report; otherwise the prefix check changes nothing |
| CommandFacts.SwitchKeepsMode | cpp/v10.5.cpp:141-168 | before v10.6 the LED commands never change the mode |
| CommandFacts.SwitchCommands | cpp/v10.7.cpp:209-244 | the four LED strings name pump/fertiliser on/off and are manual commands |
| CommandFacts.ManualStartRefused | cpp/v10.4.cpp:124-164 | a manual start under the matching overload changes no actuator; v10.4 to v10.7 report the refusal, the others ignore it silently |
| CommandFacts.ManualStart | cpp/v10.7.cpp:209-239 | otherwise the requested actuator runs from now and the other is off (all but v6.0, where it is untouched) |
| CommandFacts.ManualStartIgnoresAlarm | cpp/v10.7.cpp:210 | a latched lockout alarm does not prevent a manual pump start |
| CommandFacts.ManualStop | cpp/v10.7.cpp:222-226 | `LED1_OFF`/`LED2_OFF` turn that actuator off and leave the other alone |
| CommandFacts.SwitchKeepsAlarm | cpp/v10.7.cpp:209-244 | no switch command touches the alarm |
| CommandFacts.ExecuteKeepsAlarm | cpp/v10.7.cpp:188-244 | no command touches the alarm |
| CommandFacts.CommandKeepsAlarm | v6.0.cpp:162-168 | no command, demotion included, clears the lockout alarm |
| CommandFacts.V6_0BothRunning | v6.0.cpp:165-168 | in v6.0, `LED1_ON` while the fertiliser runs leaves both running |
| CommandFacts.V6_0FromBoot | v6.0.cpp:165-168 | from boot, `LED2_ON` then `LED1_ON` leaves both running in v6.0 |
| SensingFacts.AnalogClassification | cpp/v10.7.cpp:329-337 | `sensorError` is a NaN climate value or raw 0; soil percent in [0, 100]; dry below 20 % and wet above 80 % in raw units, never both |
| SensingFacts.FaultAlertOnRisingEdge | cpp/v10.7.cpp:340-343 | the fault flag follows the reading, and an alert is added exactly on a false-to-true change |
| SensingFacts.NoRepeatedFaultAlert | cpp/v10.4.cpp:251-255 | while a fault persists no further alert is sent |
| SensingFacts.SilentSensing | v8.0.cpp:126-132 | before v10.4, sensing changes no global |
| SensingFacts.BusBetweenQueries | cpp/v11.0.cpp:317-324 | within 2000 ms of the last query the probe is not read, the old `soil_hum` is judged again, and it is an error only if it is 0 |
| SensingFacts.BusFailedQuery | cpp/v11.0.cpp:141-156 | a due query that times out or has a wrong header is an error and leaves the soil registers unchanged |
| SensingFacts.BusGoodQuery | cpp/v11.0.cpp:145-156 | a due query answered with the probe's registers stores them with moisture and temperature exchanged (bytes 5-6 become `soil_hum`); sensorError iff that `soil_hum` is 0, dry below 20.00 %, wet above 80.00 % |
| SensingFacts.BusIgnoresClimate | cpp/v11.0.cpp:311-328 | the DHT is zeroed before its NaN test, so a failed climate read never raises `sensorError` in v11.0 |
| SensingFacts.BusThresholds | cpp/v11.0.cpp:375-383 | `soil_hum` is compared with 20 and 80 in hundredths; dry and wet exclude each other |
| OverloadFacts.SilentVeto | v7.0.cpp:110-122 | v7.0: a tripped relay leaves its actuator off, nothing else changes, no alert |
| OverloadFacts.EachStopVeto | v8.0.cpp:135-151 | v8.x: a tripped relay leaves its actuator off and nothing is started |
| OverloadFacts.OnEdgeVeto | cpp/v10.7.cpp:346-371 | v10.4 onwards: a tripped relay leaves its actuator off, and the latch remembers the input |
| OverloadFacts.ActuatorVeto | v10.4.cpp:200-203 | wherever the input is wired, a tripped relay leaves its actuator off and nothing is started |
| OverloadFacts.OverloadVeto | cpp/v10.7.cpp:346-371 | after the overload block, an asserted input means that actuator is off, and nothing was switched on |
| OverloadFacts.OnEdgeAlertCount | cpp/v10.6.cpp:267-283 | one alert when the input rises, none while it stays asserted; the latch follows the input and the other latch is untouched |
| OverloadFacts.EachStopAlertCount | cpp/v8.2.cpp:206-224 | v8.x: one alert per forced stop, none when nothing was running |
| OverloadFacts.HeldTrip | cpp/v10.5.cpp:265-281 | a held trip is a sequence of overload steps |
| OverloadFacts.HeldTripAlertsOnce | cpp/v10.5.cpp:265-281 | however many cycles the relay stays tripped, one alert is sent (at the onset), and the actuator stays off |
| FeedbackFacts.FeedbackGrace | cpp/v10.7.cpp:122-123 | within 2000 ms of the last switching operation (and without feedback pins) the check changes nothing |
| FeedbackFacts.CheckOne | cpp/v10.7.cpp:125-140 | one actuator's check: latch = mismatch of command and contactor, running flags untouched, an alert only on the onset |
| FeedbackFacts.FeedbackChecked | cpp/v11.0.cpp:162-189 | after the grace period each latch is the mismatch, the running flags are unchanged, and alerts are sent only for latches that were clear |
| FeedbackFacts.PersistingMismatchSilent | cpp/v10.7.cpp:125-158 | a mismatch that persists is reported once: with both latches set no alert follows |
| AutomationFacts.ScheduleIdle | cpp/v10.7.cpp:377-378 | outside auto mode, without a synchronised clock or under fertiliser overload, the job does nothing |
| AutomationFacts.ScheduleStartsAtEight | cpp/v10.7.cpp:379-385 | at 08:00 with the job not done and the fertiliser off: the pump stops, the fertiliser starts now, the job is marked done |
| AutomationFacts.ScheduleOncePerDay | cpp/v10.5.cpp:285-296 | once done, the job does not start again before the midnight reset |
| AutomationFacts.ScheduleStopsAfterDuration | cpp/v10.7.cpp:386-390 | a running job stops once 600000 ms have passed since it started |
| AutomationFacts.ScheduleMidnightReset | cpp/v10.7.cpp:391 | at 00:00 the job is re-armed |
| AutomationFacts.ScheduleExclusive | v6.0.cpp:103-109 | the job starts the fertiliser only with the pump off and never starts the pump |
| AutomationFacts.IrrigationStart | cpp/v10.7.cpp:394-398 | irrigation starts the pump exactly when auto, dry, neither running, no alarm, overload or sensor error; the start time is now |
| AutomationFacts.IrrigationStop | cpp/v10.7.cpp:399-406 | a running pump in auto mode stops on wet soil (guards clear), a sensor error or an overload |
| AutomationFacts.AlarmAloneKeepsPump | cpp/v10.7.cpp:394-406 | a latched alarm alone does not stop a running pump in the irrigation block |
| AutomationFacts.IrrigationFrame | cpp/v10.7.cpp:376 | in manual mode irrigation does nothing; it never touches the fertiliser |
| AutomationFacts.RuntimeThreshold | cpp/v10.7.cpp:409 | `elapsed / 60000 >= 10` exactly when 600000 ms have passed |
| AutomationFacts.LockoutLatches | cpp/v10.7.cpp:409-413 | after 10 minutes the pump stops and the alarm latches, in any mode |
| AutomationFacts.LockoutBoundsRuntime | v8.0.cpp:201-206 | after the lockout a running pump has run less than 10 minutes, and the alarm is never cleared |
| Safety.InitialStateValid | cpp/v10.7.cpp:296 | boot gives a valid state with both actuators off |
| Safety.KeepsInv | cpp/v10.7.cpp:209-244 | which changes the invariant allows, snapshot by snapshot |
| Safety.ModeChangeKeepsInv | cpp/v10.6.cpp:125-144 | a mode change that stores the new mode keeps the invariant |
| Safety.DemoteKeepsInv | cpp/v10.6.cpp:115-122 | the demotion keeps the invariant |
| Safety.StopKeepsInv | v6.2.cpp:152-157 | `STOP` keeps the invariant |
| Safety.ModeKeepsInv | cpp/v10.5.cpp:121-140 | `AUTO_ON`/`AUTO_OFF` keep the invariant |
| Safety.SwitchOnKeepsInv | v7.0.cpp:188-201 | a manual start keeps the invariant (the interlock stops the other actuator first) |
| Safety.ExecuteKeepsInv | v6.2.cpp:150-170 | every command keeps the invariant |
| Safety.CommandKeepsInv | cpp/v10.7.cpp:164-245 | `callback()` keeps the invariant |
| Safety.SenseSteady | cpp/v10.7.cpp:329-343 | sensing changes nothing the invariant reads |
| Safety.SilentSteady | v7.0.cpp:110-122 | silent and alerting overload stops only switch off |
| Safety.OnEdgeSteady | cpp/v10.7.cpp:346-371 | edge-triggered overload handling only switches off |
| Safety.OverloadActuatorSteady | v8.0.cpp:135-151 | every overload policy only switches off |
| Safety.OverloadPhaseSteady | cpp/v10.7.cpp:346-371 | the overload block only switches off |
| Safety.FeedbackKeepsInv | cpp/v10.7.cpp:115-159 | the feedback check keeps the invariant |
| Safety.ScheduleSteady | cpp/v10.7.cpp:377-392 | the schedule never leaves both actuators on |
| Safety.IrrigationSteady | cpp/v10.7.cpp:394-406 | irrigation never leaves both actuators on |
| Safety.LockoutSteady | cpp/v10.7.cpp:409-413 | the lockout only switches off |
| Safety.BodyKeepsInv | cpp/v10.7.cpp:329-413 | the control body keeps the invariant |
| Safety.TimersSteady | cpp/v8.2.cpp:287-288 | moving the poll and upload timers changes nothing the invariant reads |
| Safety.TalkBackKeepsInv | cpp/v8.2.cpp:287-350 | the TalkBack block keeps the invariant |
| Safety.MqttCycleKeepsInv | cpp/v10.7.cpp:304-455 | a connected MQTT cycle keeps the invariant |
| Safety.UploadKeepsInv | cpp/v8.2.cpp:357-359 | the upload block keeps the invariant |
| Safety.PolledCommandsKeepInv | v6.2.cpp:150-170 | the polled command block keeps the invariant |
| Safety.PolledCycleKeepsInv | v8.0.cpp:135-284 | a connected polled cycle keeps the invariant |
| Safety.CycleKeepsInv | cpp/v10.7.cpp:304-455 | every cycle keeps the invariant, whatever arrives and whatever the sensors read |
| Safety.RunKeepsInv | cpp/v10.7.cpp:304-455 | any run of cycles keeps the invariant |
| Safety.NeverBothRunning | cpp/v10.7.cpp:209-239 | from boot on, pump and fertiliser are never on together (all snapshots but v6.0) |
| CycleFacts.DisconnectedIsNoOp | cpp/v10.7.cpp:305 | the whole body is inside the WiFi check: a disconnected cycle changes nothing and publishes nothing |
| CycleFacts.OfflineRunIsNoOp | cpp/v10.7.cpp:305 | any run of disconnected cycles leaves every global as it was |
| CycleFacts.OfflinePumpUnprotected | cpp/v10.7.cpp:305-413 | the overload block (346-371) and the lockout (409-413) are inside the WiFi check: while WiFi is down a pump past 10 minutes or with a tripped relay keeps running and the alarm does not latch |
| CycleFacts.StatusPublished | cpp/v8.2.cpp:357-367 | the MQTT snapshots build the status word every connected cycle; the polled ones exactly when the upload is due |
| CycleFacts.StatusReadsBack | cpp/v11.0.cpp:397-406 | the published word decodes to the state's flags restricted to the width, and has no higher bit |
| CycleFacts.OnEdgeKeepsAlarm | cpp/v10.7.cpp:346-371 | edge-triggered overload handling never touches the alarm |
| CycleFacts.OverloadKeepsAlarm | v7.0.cpp:110-122 | no overload policy touches the alarm |
| CycleFacts.OverloadPhaseKeepsAlarm | cpp/v10.7.cpp:346-371 | the overload block never touches the alarm |
| CycleFacts.SenseKeepsAlarm | cpp/v10.7.cpp:329-343 | sensing never touches the alarm |
| CycleFacts.FeedbackKeepsAlarm | cpp/v10.7.cpp:115-159 | the feedback check never touches the alarm |
| CycleFacts.ScheduleKeepsAlarm | cpp/v10.7.cpp:377-392 | the schedule never touches the alarm |
| CycleFacts.IrrigationKeepsAlarm | cpp/v10.7.cpp:394-406 | irrigation never touches the alarm |
| CycleFacts.LockoutKeepsAlarm | cpp/v10.7.cpp:409-413 | the lockout only ever sets the alarm |
| CycleFacts.BodyKeepsAlarm | cpp/v10.7.cpp:329-413 | the control body never clears the alarm |
| CycleFacts.TalkBackKeepsAlarm | v6.0.cpp:149-170 | the TalkBack block never clears the alarm |
| CycleFacts.CycleKeepsAlarm | cpp/v10.7.cpp:304-455 | no cycle clears the alarm |
| CycleFacts.AlarmNeverCleared | v6.0.cpp:141-146 | once latched, the lockout alarm stays set through any run of cycles: only a reboot clears it |
| CycleFacts.SwitchPumpRuntime | cpp/v10.7.cpp:209-226 | after a switch command the pump is off, restarted now, or exactly as before |
| CycleFacts.CommandPumpRuntime | cpp/v8.2.cpp:298-350 | after any command the pump is off, restarted now, or exactly as before |
| CycleFacts.BodyBoundsRuntime | cpp/v10.7.cpp:409-413 | after the control body a running pump has run less than 10 minutes |
| CycleFacts.TalkBackKeepsBound | cpp/v8.2.cpp:287-350 | a TalkBack command after the lockout keeps that bound |
| CycleFacts.PolledCycleBound | v8.0.cpp:201-267 | after a connected polled cycle a running pump has run less than 10 minutes |
| CycleFacts.RuntimeBoundedAfterCycle | cpp/v10.5.cpp:310-314 | after every connected cycle a running pump has run less than 10 minutes |
| CycleFacts.TalkBackRateLimited | cpp/v8.2.cpp:287 | within the poll interval of the last poll the TalkBack block does nothing |
| CycleFacts.TalkBackEmptyIgnored | cpp/v8.2.cpp:293-295 | an empty reply is ignored: only the poll time moves |
| CycleFacts.SwitchKeepsPoll | cpp/v8.2.cpp:316-350 | switch commands do not move the poll timer |
| CycleFacts.CommandKeepsPoll | cpp/v8.2.cpp:298-350 | no command moves the poll timer |
| CycleFacts.PollsAtMostOncePerInterval | cpp/v8.2.cpp:287-295 | commands are handled at most once per 5000 ms (2000 ms before v8.0): a second poll within the interval does nothing |
| AlertFacts.QuietTrans | cpp/v10.7.cpp:346-371 | "no new overload alert, same latch" composes |
| AlertFacts.InterlockQuiet | cpp/v10.7.cpp:210-213 | the manual interlock sends no overload alert and keeps the latches |
| AlertFacts.SwitchQuiet | cpp/v10.7.cpp:209-244 | switch commands send no overload alert and keep the latches |
| AlertFacts.ExecuteQuiet | cpp/v10.7.cpp:188-244 | no command sends an overload alert or touches the latches |
| AlertFacts.CommandQuiet | cpp/v10.7.cpp:164-245 | `callback()` sends no overload alert and keeps the latches |
| AlertFacts.SenseQuiet | cpp/v10.7.cpp:329-343 | sensing sends no overload alert |
| AlertFacts.FeedbackQuiet | cpp/v10.7.cpp:115-159 | the feedback check sends no overload alert |
| AlertFacts.ScheduleQuiet | cpp/v10.7.cpp:377-392 | the schedule sends no overload alert |
| AlertFacts.IrrigationQuiet | cpp/v10.7.cpp:394-406 | irrigation sends no overload alert |
| AlertFacts.LockoutQuiet | cpp/v10.7.cpp:409-413 | the lockout sends no overload alert |
| AlertFacts.OtherOnEdgeQuiet | cpp/v10.7.cpp:346-358 | one actuator's overload handling neither reports nor remembers anything about the other |
| AlertFacts.OverloadPhaseCount | cpp/v10.7.cpp:346-358 | the overload block adds one alert for `a` exactly on the rising edge of its input, and remembers the input |
| AlertFacts.AfterOverloadQuiet | cpp/v10.7.cpp:374-413 | nothing after the overload block reports an overload |
| AlertFacts.CycleCount | cpp/v10.7.cpp:304-455 | a connected cycle adds one overload alert for `a` exactly on a rising edge of its input |
| AlertFacts.AlertsCountOnsets | cpp/v10.4.cpp:251-276 | over any run, the overload alerts for `a` are exactly the rising edges of its relay input across connected cycles |
| AlertFacts.HeldEdges | cpp/v10.6.cpp:267-283 | an input held asserted rises at most once, at the start |
| AlertFacts.HeldOverloadReportedOnce | cpp/v10.6.cpp:267-283 | a relay held tripped through any number of connected cycles is reported exactly once |
| Firmware.HoldCommutes | cpp/v10.7.cpp:362-371 | keeping the pump off does not interfere with the fertiliser's edge check |
| Firmware.OnEdgeHalves | cpp/v10.7.cpp:346-371 | one actuator's overload handling is its edge check followed by its hold |
| Firmware.EdgeOrder | cpp/v10.7.cpp:346-371 | the firmware's order (both edges, then both holds) gives the same state and the same alerts in the same order as handling one actuator after the other |
| Firmware.Controller.constructor | cpp/v10.7.cpp:296 | `setup()`: the globals form the boot state (everything off, mode restored, default automatic), which is valid |
| Firmware.Controller.Report | cpp/v10.7.cpp:95-109 | `sendDiscord` appends one report where the snapshot sends one |
| Firmware.Controller.MarkStateChange | cpp/v10.7.cpp:193 | `stateChangeTime = millis()` in the feedback snapshots |
| Firmware.Controller.SetOutput | cpp/v10.7.cpp:222-223 | `digitalWrite`: the running flag of one actuator |
| Firmware.Controller.StartActuator | cpp/v10.7.cpp:214 | switch on and record the start time |
| Firmware.Controller.SetAuto | cpp/v10.7.cpp:197-199 | set `autoMode` and store it where the snapshot stores it |
| Firmware.Controller.SwitchOff | cpp/v10.7.cpp:399-402 | switch off, mark the switching time, report |
| Firmware.Controller.Demotion | cpp/v10.7.cpp:176-182 | the LED-prefix demotion updates the globals as `Control.Demote` says |
| Firmware.Controller.Interlock | cpp/v10.7.cpp:210-213 | the manual interlock updates the globals as `Control.InterlockStep` says |
| Firmware.Controller.ManualOn | cpp/v10.7.cpp:209-221 | `LED1_ON`/`LED2_ON` update the globals as `Control.Execute` says |
| Firmware.Controller.ManualOff | cpp/v10.7.cpp:222-226 | `LED1_OFF`/`LED2_OFF` update the globals as `Control.Execute` says |
| Firmware.Controller.EmergencyStop | cpp/v10.7.cpp:188-196 | `STOP` updates the globals as `Control.Execute` says |
| Firmware.Controller.Callback | cpp/v10.7.cpp:164-245 | `callback()` leaves exactly the state `Control.ApplyCommand` describes |
| Firmware.Controller.ReadSoilSensor | cpp/v11.0.cpp:125-157 | `readSoilSensor()` succeeds exactly on a reply with a good header, and then (only then) replaces the four registers, bytes 3-4 into `soil_temp` and 5-6 into `soil_hum` as written |
| Firmware.Controller.ReadBus | cpp/v11.0.cpp:317-328 | the 2000 ms bus read and its classification of `soil_hum` (bytes 5-6 of the reply), as `Control.BusRead` and `Control.BusReading` say |
| Firmware.Controller.SensorAlert | cpp/v10.7.cpp:340-343 | the edge-triggered fault alert and `lastSensorErrorState` |
| Firmware.Controller.ReadSensors | cpp/v10.7.cpp:329-343 | the sensor block returns `Control.Classify` and leaves `Control.Sense` |
| Firmware.Controller.StopIfTripped | v8.0.cpp:138-151 | a running tripped actuator is stopped, with an alert in v8.x |
| Firmware.Controller.OnEdge | cpp/v10.7.cpp:349-359 | one actuator's rising-edge check and latch update |
| Firmware.Controller.HoldOff | cpp/v10.7.cpp:362-371 | a tripped actuator is kept off |
| Firmware.Controller.OverloadInterlock | cpp/v10.7.cpp:346-371 | the overload block, in the firmware's order, leaves exactly `Control.OverloadPhase` |
| Firmware.Controller.CheckContactor | cpp/v10.7.cpp:125-140 | one actuator of `checkFeedback()`, as `Control.FeedbackActuator` says |
| Firmware.Controller.CheckFeedback | cpp/v10.7.cpp:115-159 | `checkFeedback()` leaves exactly `Control.FeedbackPhase` |
| Firmware.Controller.StartFertJob | cpp/v10.7.cpp:379-385 | the 08:00 start: pump paused, fertiliser started, job marked done |
| Firmware.Controller.Schedule | cpp/v10.7.cpp:377-392 | the schedule block leaves exactly `Control.SchedulePhase` |
| Firmware.Controller.RunSchedule | cpp/v10.7.cpp:379-391 | the body of the schedule block under its guard |
| Firmware.Controller.StartIrrigation | cpp/v10.7.cpp:395-398 | the irrigation start |
| Firmware.Controller.Irrigation | cpp/v10.7.cpp:394-406 | the irrigation block leaves exactly `Control.IrrigationPhase` |
| Firmware.Controller.Lockout | cpp/v10.7.cpp:409-413 | the lockout block leaves exactly `Control.LockoutPhase` |
| Firmware.Controller.EncodeStatus | cpp/v10.7.cpp:416-426 | the status word of the current globals, reading and overload inputs (read back by `CycleFacts.StatusReadsBack`) |
| Firmware.Controller.TalkBack | cpp/v8.2.cpp:287-350 | the TalkBack block leaves exactly `Control.TalkBackPhase` |
| Firmware.Controller.Body | cpp/v10.7.cpp:329-413 | the control body returns the cycle's reading and leaves `Control.ControlBody` |
| Firmware.Controller.Upload | cpp/v8.2.cpp:357-367 | when the upload is due, the status word is built and the upload time recorded; otherwise nothing changes |
| Firmware.Controller.Command | cpp/v10.7.cpp:314 | `client.loop()` runs the callback for a message that arrived |
| Firmware.Controller.MqttCycle | cpp/v10.7.cpp:305-426 | a connected MQTT cycle leaves the state and builds the word `Control.Cycle` describes |
| Firmware.Controller.PolledCycle | cpp/v8.2.cpp:287-367 | a connected polled cycle leaves the state and builds the word `Control.Cycle` describes |
| Firmware.Controller.Loop | cpp/v10.7.cpp:304-455 | `loop()` leaves exactly `Control.Cycle`'s state and word, and keeps the controller valid |

## Left out

- Network I/O is not modelled: WiFi bring-up and reconnect, MQTT connect and publish, and the HTTP(S) calls to Discord, ThingSpeak and TalkBack. A command is an input of the cycle. A notification is an event in the log; v8.2 posts each to two webhooks, and the log records it once.
- The MQTT publish rate limit (`lastMqttTime`) is left out, and so is the ThingSpeak backup upload of the MQTT snapshots. The status word is the value those blocks would send, computed every connected cycle.
- `setup()` beyond the globals it initialises is left out: pin modes, the boot notification and `configTime`.
- The 03:00 `ESP.restart()` is a platform call, and is left out.
- The DHT float readings, `String(x, 1)` formatting and the `/ 100.0` of v11.0 are floats. Climate validity is a boolean, and the probe's registers stay in integer hundredths, so `soil_hum < 20` becomes `moisture < 2000`.
- The RS-485 direction pin, `write`/`flush` and the 500 ms wait are I/O. A missing reply is `None`; only the decoding of the 13-byte buffer is modelled.
- `Preferences` (NVS) is the `stored` part of the mode: an ordinary field holding what was last written.
- The ThingSpeak block of v10.4.cpp (root) uses undeclared variables, so that file does not compile as shown. Its upload plumbing is left out; its control body is `V10_4Quiet`.
- Credentials and webhook URLs are left out.
- The text of the notifications is left out, because the events only name the report. The escaping lemmas use one representative multi-line alert.
- Network state is modelled as the firmware has it: cpp/v10.7.cpp:305 wraps the whole `loop()` body, overload block (346-371) and lockout (409-413) included, in the WiFi check. So while WiFi is down a tripped or over-time pump keeps running (`CycleFacts.OfflinePumpUnprotected`).
- Firmware.Controller.EncodeStatus: the source builds `status` with one `if (flag) status |= value;` per bit. The model's `StatusWord.EncodeFlags` writes each step as `status | Bit(flag, value)`, which has the same value.
- Firmware.Controller.OverloadInterlock: the model handles each actuator completely, where the firmware checks both edges before holding both actuators off. `Firmware.EdgeOrder` proves the two orders equal.
- The controller's bus read uses the register order as written (see Findings). The corrected decoder `Modbus.DecodeReply` is proved right separately and is not wired into the controller.
- `callback()` reads the overload pins itself (cpp/v10.7.cpp:172-173, cpp/v11.0.cpp:202-203, cpp/v10.4.cpp:120-121), apart from the loop's own read (cpp/v10.7.cpp:346-347). The model gives both reads the one level sampled for the cycle, so a relay that changes between the two reads is not modelled.
- `msg.trim()` (cpp/v10.7.cpp:169, cpp/v11.0.cpp:199, cpp/v10.4.cpp:116) and TalkBack's `cmd.trim()` are not modelled: the command input is the text after trimming.

## Findings

| source | as written | input that shows it | evidently intended | confidence | as-written member | corrected member |
|---|---|---|---|---|---|---|
| cpp/v11.0.cpp:148-149 | bytes 3-4 of the reply go to `soil_temp` and bytes 5-6 to `soil_hum`, although the query reads registers 0..3 with moisture first (as both comments of the file list them) | a reply for 15.00 % moisture and 25.00 degrees is decoded as 25.00 % moisture, above the 20 % start threshold, so dry soil is never irrigated | bytes 3-4 are moisture, bytes 5-6 temperature | medium (depends on the probe's register map, which both comments give as moisture first); not executed | Modbus.DecodeReplyAsWritten, Modbus.DecodeAsWrittenSwaps, Modbus.DrySoilReadAsMoist | Modbus.DecodeReply, Modbus.DecodeEncodeReply |
| v8.0.cpp:78 | the alert text is pasted into the JSON string unescaped, and most v8.0 alerts contain a line feed | the lockout alert (a title, a line feed, a sentence) gives a body that is not a valid JSON string, so the webhook rejects it | escape line feeds and quotation marks, as v8.2 does | high; not executed | Notify.Payload, Notify.RawLineFeedRejected, Notify.UnescapedAlertMalformed | Notify.PayloadEscaped, Notify.EscapedIsJsonBody |
