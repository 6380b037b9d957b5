/*
 * The actuator/safety controller as a state machine over the firmware's
 * globals. One call of `Cycle` is one pass of `loop()` (plus, in the MQTT
 * snapshots, the `callback` that `client.loop()` runs at its start):
 *
 *   command (MQTT) -> sensor classification -> overload interlock ->
 *   contactor feedback -> fertiliser schedule -> irrigation -> runtime lockout ->
 *   command (TalkBack) -> status word
 *
 * Each phase is a function from the state before it to the state after it.
 * Notifications are appended to `log` instead of being posted.
 */
module Control {
  import opened Common
  import opened Snapshots
  import SoilMapping
  import Modbus
  import StatusWord

  // ------------------------------------------------------------ constants

  const SoilLow: int := 20
  const SoilHigh: int := 80
  const FertHour: Hour := 8
  /** `fertDuration * 60 * 1000` with `fertDuration = 10`. */
  const FertDurationMs: int := 10 * 60 * 1000
  /** `pumpMaxRunTime`, compared with whole minutes of runtime. */
  const PumpMaxRunMinutes: int := 10
  /** `checkFeedback` waits this long after a switching operation. */
  const FeedbackGraceMs: int := 2000
  /** The RS-485 probe is read when more than this many milliseconds have passed. */
  const BusReadIntervalMs: int := 2000

  // -------------------------------------------------------------- entities

  datatype Actuator = Pump | Fertilizer

  function Other(a: Actuator): Actuator {
    if a.Pump? then Fertilizer else Pump
  }

  /** What the firmware reports through its webhook. */
  datatype Event =
    | SensorFault                       // climate or soil sensor failed (rising edge)
    | OverloadTrip(a: Actuator)          // thermal relay tripped, actuator stopped
    | FailedToEnergize(a: Actuator)      // commanded on, contactor open
    | StuckEnergized(a: Actuator)        // commanded off, contactor closed
    | PumpPausedForSchedule
    | ScheduleStarted
    | ScheduleFinished
    | IrrigationStarted(moisture: int)
    | IrrigationFinished(moisture: int)
    | FaultStop                         // pump stopped for sensor fault or overload
    | RuntimeLockout
    | EmergencyStop
    | ModeSwitched(auto: bool)
    | ManualTakeover                    // auto mode left because of an LED command
    | StartRefused(a: Actuator)
    | InterlockStop(a: Actuator)         // stopped because the other one was switched on
    | ManualSwitch(a: Actuator, on: bool)

  /**
   * One actuator's globals: `pumpRunning`, `pumpStartTime`,
   * `lastPumpOverloadState` and `lastPumpFeedbackError` (likewise for the
   * fertiliser). The two latches exist only in the snapshots that read them.
   */
  datatype Drive = Drive(running: bool, since: Millis, overloaded: bool, feedbackError: bool)

  /** `autoMode` and the `is_auto` key of `Preferences` (None: never written). */
  datatype Mode = Mode(auto: bool, stored: Option<bool>)

  /** The RS-485 registers (`soil_hum` and friends), when they were last read, and `lastSensorErrorState`. */
  datatype Sensor = Sensor(soil: Modbus.SoilRegisters, lastRead: Millis, lastError: bool)

  /** `stateChangeTime`, `lastTalkBackCheck` and `lastUploadTime`. */
  datatype Timers = Timers(stateChange: Millis, lastPoll: Millis, lastUpload: Millis)

  /**
   * The controller's globals. `alarm` is `pumpSoftAlarm` (`pumpAlarm` before
   * v7.0); `fertDoneToday` is `fertilizerDoneToday`.
   */
  datatype State = State(
    mode: Mode,
    alarm: bool,
    pump: Drive,
    fert: Drive,
    fertDoneToday: bool,
    sensor: Sensor,
    timers: Timers,
    log: Log)

  /**
   * One cycle's readings. `climateOk`: neither DHT value is NaN. `soilRaw`:
   * `analogRead` of the probe. `busReply`: the 13 bytes the RS-485 probe sent
   * (None: timeout). `*Tripped`: the overload pin reads LOW. `*Contactor`: the
   * feedback pin reads LOW. `command`: the MQTT message or TalkBack
   * reply after `trim()` (None: nothing arrived, or the poll did not answer 200).
   */
  datatype Inputs = Inputs(
    wifi: bool,
    now: Millis,
    clock: Option<Clock>,
    climateOk: bool,
    soilRaw: SoilMapping.AdcReading,
    busReply: Option<Modbus.ReplyFrame>,
    pumpTripped: bool,
    fertTripped: bool,
    pumpContactor: bool,
    fertContactor: bool,
    command: Option<string>)

  /** The reports sent so far, the most recent last. */
  datatype Log = Empty | Append(earlier: Log, last: Event)

  /** The classification the rest of the cycle works from. */
  datatype Reading = Reading(error: bool, moisture: int, dry: bool, wet: bool)

  // ------------------------------------------------------- state accessors

  function DriveOf(s: State, a: Actuator): Drive {
    if a.Pump? then s.pump else s.fert
  }

  function Running(s: State, a: Actuator): bool {
    DriveOf(s, a).running
  }

  /** Replaces one actuator's globals and leaves the other's alone. */
  function WithDrive(s: State, a: Actuator, d: Drive): (t: State)
    ensures DriveOf(t, a) == d && DriveOf(t, Other(a)) == DriveOf(s, Other(a))
  {
    s.(pump := if a.Pump? then d else s.pump, fert := if a.Fertilizer? then d else s.fert)
  }

  function SetRunning(s: State, a: Actuator, on: bool): (t: State)
    ensures Running(t, a) == on && DriveOf(t, Other(a)) == DriveOf(s, Other(a))
  {
    WithDrive(s, a, DriveOf(s, a).(running := on))
  }

  /** Switch on and record the start time. */
  function Start(s: State, a: Actuator, now: Millis): (t: State)
    ensures Running(t, a) && DriveOf(t, a).since == now && DriveOf(t, Other(a)) == DriveOf(s, Other(a))
  {
    WithDrive(s, a, DriveOf(s, a).(running := true, since := now))
  }

  function LastOverload(s: State, a: Actuator): bool {
    DriveOf(s, a).overloaded
  }

  function SetLastOverload(s: State, a: Actuator, b: bool): State {
    WithDrive(s, a, DriveOf(s, a).(overloaded := b))
  }

  function LastFeedbackError(s: State, a: Actuator): bool {
    DriveOf(s, a).feedbackError
  }

  function SetLastFeedbackError(s: State, a: Actuator, b: bool): State {
    WithDrive(s, a, DriveOf(s, a).(feedbackError := b))
  }

  function Tripped(v: Snapshot, inp: Inputs, a: Actuator): bool {
    SensesOverload(v) && (if a.Pump? then inp.pumpTripped else inp.fertTripped)
  }

  function Contactor(inp: Inputs, a: Actuator): bool {
    if a.Pump? then inp.pumpContactor else inp.fertContactor
  }

  /** `sendDiscord(...)` in the snapshots whose code has that call at this point. */
  function LogIf(cond: bool, s: State, e: Event): State {
    s.(log := if cond then Append(s.log, e) else s.log)
  }

  /** `stateChangeTime = millis()` (only the feedback snapshots keep it). */
  function Touch(v: Snapshot, s: State, now: Millis): State {
    s.(timers := s.timers.(stateChange := if HasFeedback(v) then now else s.timers.stateChange))
  }

  /** Sets `autoMode`, and `prefs.putBool("is_auto", autoMode)` in the snapshots that store the mode. */
  function SetMode(v: Snapshot, s: State, auto: bool): State {
    s.(mode := Mode(auto, if PersistsMode(v) then Some(auto) else s.mode.stored))
  }

  /**
   * `if c then t else s` for states, spelled out field by field: each branch
   * of the firmware's `if` blocks is a state, and this keeps the verifier from
   * splitting whole states where it only needs one field.
   */
  function When(c: bool, t: State, s: State): State {
    State(mode := if c then t.mode else s.mode,
          alarm := if c then t.alarm else s.alarm,
          pump := if c then t.pump else s.pump,
          fert := if c then t.fert else s.fert,
          fertDoneToday := if c then t.fertDoneToday else s.fertDoneToday,
          sensor := if c then t.sensor else s.sensor,
          timers := if c then t.timers else s.timers,
          log := if c then t.log else s.log)
  }

  // ------------------------------------------------------------------ boot

  /** What `setup()` leaves: everything off and clear, the mode restored (default automatic). */
  function InitialState(v: Snapshot, stored: Option<bool>, now: Millis): State {
    var stored' := if PersistsMode(v) then stored else None;
    var off := Drive(running := false, since := 0, overloaded := false, feedbackError := false);
    State(mode := Mode(if stored'.Some? then stored'.value else true, stored'),
          alarm := false, pump := off, fert := off, fertDoneToday := false,
          sensor := Sensor(Modbus.SoilRegisters(0, 0, 0, 0), 0, false),
          timers := Timers(stateChange := if HasFeedback(v) then now else 0, lastPoll := 0, lastUpload := 0),
          log := Empty)
  }

  // ------------------------------------------------------------- commands

  datatype Command = Stop | AutoOn | AutoOff | Switch(a: Actuator, on: bool) | Unrecognised

  /** The exact command strings the snapshot compares against. */
  function ParseCommand(v: Snapshot, msg: string): Command {
    if msg == "STOP" && HasStop(v) then Stop
    else if msg == "AUTO_ON" then AutoOn
    else if msg == "AUTO_OFF" then AutoOff
    else if msg == "LED1_ON" then Switch(Pump, true)
    else if msg == "LED1_OFF" then Switch(Pump, false)
    else if msg == "LED2_ON" then Switch(Fertilizer, true)
    else if msg == "LED2_OFF" then Switch(Fertilizer, false)
    else Unrecognised
  }

  /** `msg.startsWith("LED")`. */
  predicate IsManualCommand(msg: string) {
    |msg| >= 3 && msg[..3] == "LED"
  }

  /** The LED-prefix check that runs before the command itself. */
  function Demote(v: Snapshot, s: State, msg: string): State {
    When(AutoDemotion(v) && IsManualCommand(msg) && s.mode.auto,
         s.(mode := Mode(false, Some(false)), log := Append(s.log, ManualTakeover)),
         s)
  }

  /** Before a manual start, the other actuator is stopped (all commanding snapshots but v6.0). */
  function InterlockStep(v: Snapshot, s: State, a: Actuator): (t: State)
    ensures ManualInterlock(v) ==> !Running(t, Other(a))
    ensures DriveOf(t, a) == DriveOf(s, a)
  {
    When(ManualInterlock(v) && Running(s, Other(a)),
         LogIf(Verbose(v), SetRunning(s, Other(a), false), InterlockStop(Other(a))),
         s)
  }

  /** One recognised command, applied after the demotion check. */
  function Execute(v: Snapshot, s: State, cmd: Command, inp: Inputs): State {
    match cmd
    case Stop =>
      LogIf(Notifies(v), Touch(v, SetMode(v, SetRunning(SetRunning(s, Pump, false), Fertilizer, false), false), inp.now), EmergencyStop)
    case AutoOn =>
      LogIf(Notifies(v), SetMode(v, s, true), ModeSwitched(true))
    case AutoOff =>
      LogIf(Notifies(v), SetMode(v, s, false), ModeSwitched(false))
    case Switch(a, on) =>
      if !on then
        LogIf(Verbose(v), Touch(v, SetRunning(s, a, false), inp.now), ManualSwitch(a, false))
      else if Tripped(v, inp, a) then
        LogIf(ReportsRefusal(v), s, StartRefused(a))
      else
        LogIf(Verbose(v), Touch(v, Start(InterlockStep(v, s, a), a, inp.now), inp.now), ManualSwitch(a, true))
    case Unrecognised => s
  }

  /**
   * `callback` (MQTT) or the TalkBack command block: one command applied to
   * the state. `callback` reads the overload pins itself; the model gives it
   * the levels the loop samples in the same cycle.
   */
  function ApplyCommand(v: Snapshot, s: State, msg: string, inp: Inputs): State {
    Execute(v, Demote(v, s, msg), ParseCommand(v, msg), inp)
  }

  // -------------------------------------------------------------- sensing

  /** The analog snapshots: `sensorError` is a NaN climate value or a raw soil reading of 0. */
  function AnalogReading(inp: Inputs): Reading {
    var p := SoilMapping.SoilPercent(inp.soilRaw);
    Reading(!inp.climateOk || inp.soilRaw == 0, p, p < SoilLow, p > SoilHigh)
  }

  /** v11.0 queries the probe when more than 2000 ms have passed since the last query. */
  predicate BusDue(s: State, inp: Inputs) {
    Elapsed(inp.now, s.sensor.lastRead) > BusReadIntervalMs
  }

  /**
   * The registers of this cycle's reply, if one arrived and its header is
   * right, decoded as the firmware does: bytes 3-4 become `soil_temp` and
   * bytes 5-6 `soil_hum` (see `Modbus.DecodeAsWrittenSwaps`).
   */
  function BusDecoded(inp: Inputs): Option<Modbus.SoilRegisters> {
    if inp.busReply.Some? then Modbus.DecodeReplyAsWritten(inp.busReply.value) else None
  }

  /**
   * v11.0: when due, the probe is queried; a reply is used only if its header
   * is right; otherwise, and between queries, the previous registers stay.
   */
  function BusRead(s: State, inp: Inputs): State {
    var decoded := BusDecoded(inp);
    When(BusDue(s, inp),
         s.(sensor := s.sensor.(soil := if decoded.Some? then decoded.value else s.sensor.soil, lastRead := inp.now)),
         s)
  }

  /**
   * `soil_hum` is the moisture register in hundredths, so `soil_hum < 20` is
   * `moisture < 2000`. A failed query, or a moisture of exactly 0, is a sensor
   * error; between queries the last registers are judged again. The DHT is
   * zeroed before its NaN test, so it never flags an error here.
   */
  function BusReading(s: State, inp: Inputs): Reading {
    var m := BusRead(s, inp).sensor.soil.moisture as int;
    var ok := !BusDue(s, inp) || BusDecoded(inp).Some?;
    Reading(!ok || m == 0, m, m < SoilLow * 100, m > SoilHigh * 100)
  }

  /** How this cycle classifies the soil and the sensors. */
  function Classify(v: Snapshot, s: State, inp: Inputs): Reading {
    if BusSensor(v) then BusReading(s, inp) else AnalogReading(inp)
  }

  /** The sensor read (v11.0), then the edge-triggered fault alert. */
  function Sense(v: Snapshot, s: State, inp: Inputs): State {
    var r := Classify(v, s, inp);
    var s1 := When(BusSensor(v), BusRead(s, inp), s);
    When(EdgeAlerts(v),
         LogIf(r.error && !s1.sensor.lastError, s1, SensorFault).(sensor := s1.sensor.(lastError := r.error)),
         s1)
  }

  // ------------------------------------------------------------- overload

  /** v7.0 and v10.4.cpp (root): a running actuator whose relay has tripped is stopped. */
  function OverloadSilent(s: State, a: Actuator, tripped: bool): State {
    When(tripped && Running(s, a), SetRunning(s, a, false), s)
  }

  /** v8.x: the same, with an alert for every stop. */
  function OverloadEachStop(s: State, a: Actuator, tripped: bool): State {
    LogIf(tripped && Running(s, a), OverloadSilent(s, a, tripped), OverloadTrip(a))
  }

  /**
   * v10.4 and later: on the rising edge of the relay input, stop and alert;
   * then remember the input; while it stays tripped, keep the actuator off.
   */
  function OverloadOnEdge(v: Snapshot, s: State, a: Actuator, tripped: bool, now: Millis): State {
    var s1 := When(tripped && !LastOverload(s, a),
                   LogIf(true, Touch(v, SetRunning(s, a, false), now), OverloadTrip(a)),
                   s);
    var s2 := SetLastOverload(s1, a, tripped);
    When(tripped && Running(s2, a), Touch(v, SetRunning(s2, a, false), now), s2)
  }

  function OverloadActuator(v: Snapshot, s: State, a: Actuator, tripped: bool, now: Millis): State {
    match Overload(v)
    case NotSensed => s
    case SilentStop => OverloadSilent(s, a, tripped)
    case AlertEachStop => OverloadEachStop(s, a, tripped)
    case AlertOnEdge => OverloadOnEdge(v, s, a, tripped, now)
  }

  function OverloadPhase(v: Snapshot, s: State, inp: Inputs): State {
    OverloadActuator(v, OverloadActuator(v, s, Pump, inp.pumpTripped, inp.now), Fertilizer, inp.fertTripped, inp.now)
  }

  // ------------------------------------------------------------- feedback

  function FeedbackActuator(s: State, a: Actuator, contactorOn: bool): State {
    var mismatch := Running(s, a) != contactorOn;
    var alert := if Running(s, a) then FailedToEnergize(a) else StuckEnergized(a);
    SetLastFeedbackError(LogIf(mismatch && !LastFeedbackError(s, a), s, alert), a, mismatch)
  }

  /** `checkFeedback`: nothing within 2000 ms of the last switching operation. */
  function FeedbackPhase(v: Snapshot, s: State, inp: Inputs): State {
    When(HasFeedback(v) && Elapsed(inp.now, s.timers.stateChange) >= FeedbackGraceMs,
         FeedbackActuator(FeedbackActuator(s, Pump, inp.pumpContactor), Fertilizer, inp.fertContactor),
         s)
  }

  // ----------------------------------------------------------- automation

  /** The daily fertiliser job: start at 08:00, stop after 10 minutes, re-arm at 00:00. */
  function SchedulePhase(v: Snapshot, s: State, inp: Inputs): State {
    var active := s.mode.auto && inp.clock.Some? && !Tripped(v, inp, Fertilizer);
    var clock := if inp.clock.Some? then inp.clock.value else Clock(0, 0);
    var start := active && IsMinuteStart(clock, FertHour) && !s.fert.running && !s.fertDoneToday;
    var paused := When(s.pump.running, LogIf(Verbose(v), SetRunning(s, Pump, false), PumpPausedForSchedule), s);
    var s1 := When(start,
                   LogIf(Notifies(v), Touch(v, Start(paused, Fertilizer, inp.now).(fertDoneToday := true), inp.now), ScheduleStarted),
                   s);
    var finish := active && s1.fert.running && Elapsed(inp.now, s1.fert.since) >= FertDurationMs;
    var s2 := When(finish, LogIf(Notifies(v), Touch(v, SetRunning(s1, Fertilizer, false), inp.now), ScheduleFinished), s1);
    When(active && IsMinuteStart(clock, 0), s2.(fertDoneToday := false), s2)
  }

  /** Moisture-driven irrigation with its safety guards. */
  function IrrigationPhase(v: Snapshot, s: State, inp: Inputs, r: Reading): State {
    var clear := !s.alarm && !Tripped(v, inp, Pump) && !r.error;
    var start := s.mode.auto && clear && r.dry && !s.pump.running && !s.fert.running;
    var finish := s.mode.auto && clear && r.wet && s.pump.running;
    var faultStop := s.mode.auto && !clear && (r.error || Tripped(v, inp, Pump)) && s.pump.running;
    When(start, LogIf(Verbose(v), Touch(v, Start(s, Pump, inp.now), inp.now), IrrigationStarted(r.moisture)),
    When(finish, LogIf(Verbose(v), Touch(v, SetRunning(s, Pump, false), inp.now), IrrigationFinished(r.moisture)),
    When(faultStop, LogIf(Verbose(v), Touch(v, SetRunning(s, Pump, false), inp.now), FaultStop),
         s)))
  }

  // -------------------------------------------------------------- lockout

  /** `(now - pumpStartTime) / 60000 >= pumpMaxRunTime`, in any mode. */
  predicate RuntimeExceeded(s: State, now: Millis) {
    Elapsed(now, s.pump.since) / 60000 >= PumpMaxRunMinutes
  }

  function LockoutPhase(v: Snapshot, s: State, now: Millis): State {
    When(s.pump.running && RuntimeExceeded(s, now),
         LogIf(Notifies(v), Touch(v, SetRunning(s, Pump, false).(alarm := true), now), RuntimeLockout),
         s)
  }

  // --------------------------------------------------------------- status

  function Flags(v: Snapshot, s: State, r: Reading, inp: Inputs): StatusWord.StatusFlags {
    StatusWord.StatusFlags(s.pump.running, s.fert.running, s.alarm, r.error, s.mode.auto,
                           Tripped(v, inp, Pump), Tripped(v, inp, Fertilizer),
                           s.pump.feedbackError, s.fert.feedbackError)
  }

  function StatusOf(v: Snapshot, s: State, r: Reading, inp: Inputs): bv16 {
    StatusWord.Encode(Flags(v, s, r, inp), Width(v))
  }

  // ---------------------------------------------------------------- cycle

  /** The text of this cycle's command; nothing arrived reads as the empty string. */
  function Message(inp: Inputs): string {
    if inp.command.Some? then inp.command.value else ""
  }

  /** The TalkBack block: poll when due; a non-empty reply is a command. */
  function TalkBackPhase(v: Snapshot, s: State, inp: Inputs): State {
    var due := Elapsed(inp.now, s.timers.lastPoll) > PollInterval(v);
    var s1 := s.(timers := s.timers.(lastPoll := inp.now));
    When(due && |Message(inp)| > 0, ApplyCommand(v, s1, Message(inp), inp),
    When(due, s1, s))
  }

  /** The state after the cycle, and the status word if one was built this cycle. */
  datatype Outcome = Outcome(state: State, status: Option<bv16>)

  /** The control body from sensing to the lockout, shared by every snapshot. */
  function ControlBody(v: Snapshot, s: State, inp: Inputs): State {
    var r := Classify(v, s, inp);
    var s1 := Sense(v, s, inp);
    var s2 := OverloadPhase(v, s1, inp);
    var s3 := FeedbackPhase(v, s2, inp);
    var s4 := IrrigationPhase(v, SchedulePhase(v, s3, inp), inp, r);
    LockoutPhase(v, s4, inp.now)
  }

  /** One pass of `loop()`; nothing happens while WiFi is down. */
  function Cycle(v: Snapshot, s: State, inp: Inputs): Outcome {
    if !inp.wifi then Outcome(s, None)
    else if ViaMqtt(v) then
      var s0 := When(inp.command.Some?, ApplyCommand(v, s, Message(inp), inp), s);
      var s1 := ControlBody(v, s0, inp);
      Outcome(s1, Some(StatusOf(v, s1, Classify(v, s0, inp), inp)))
    else
      var s1 := ControlBody(v, s, inp);
      var r := Classify(v, s, inp);
      var s2 := When(ViaTalkBack(v), TalkBackPhase(v, s1, inp), s1);
      if Elapsed(inp.now, s2.timers.lastUpload) >= UploadInterval(v)
      then Outcome(s2.(timers := s2.timers.(lastUpload := inp.now)), Some(StatusOf(v, s2, r, inp)))
      else Outcome(s2, None)
  }

  /** Successive cycles. */
  function Run(v: Snapshot, s: State, inps: seq<Inputs>): State
    decreases |inps|
  {
    if |inps| == 0 then s else Run(v, Cycle(v, s, inps[0]).state, inps[1..])
  }

  // ------------------------------------------------------------------ log

  /** How many times `e` has been reported. */
  function Occurrences(log: Log, e: Event): nat {
    match log
    case Empty => 0
    case Append(earlier, x) => Occurrences(earlier, e) + (if x == e then 1 else 0)
  }

  // ------------------------------------------------------------ invariant

  /**
   * What holds between cycles: never both actuators on (except in v6.0),
   * auto mode fixed where there is no mode, feedback flags only where there
   * is feedback, and the stored mode agreeing with the current one.
   */
  predicate Inv(v: Snapshot, s: State) {
    (ManualInterlock(v) || !HasMode(v) ==> !(s.pump.running && s.fert.running))
    && (!HasMode(v) ==> s.mode.auto)
    && (!HasFeedback(v) ==> !s.pump.feedbackError && !s.fert.feedbackError)
    && (PersistsMode(v) ==> s.mode.auto == (if s.mode.stored.Some? then s.mode.stored.value else true))
    && (!PersistsMode(v) ==> s.mode.stored.None?)
  }
}
