/*
 * The firmware's globals as an object, and `callback()`/`loop()` as methods
 * that update them in place, statement by statement as cpp/v10.7.cpp does
 * (the other snapshots through the feature predicates of `Snapshots`). Each
 * method is proved to leave exactly the state the matching phase function of
 * `Control` describes, so every fact proved about the phases holds of it.
 */
module Firmware {
  import opened Common
  import opened Snapshots
  import opened Control
  import Modbus
  import StatusWord
  import Safety

  /** The rising-edge statements of one actuator's overload check, and the latch update after them. */
  function EdgeHalf(v: Snapshot, s: State, a: Actuator, tripped: bool, now: Millis): State {
    SetLastOverload(When(tripped && !LastOverload(s, a), LogIf(true, Touch(v, SetRunning(s, a, false), now), OverloadTrip(a)), s),
                    a, tripped)
  }

  /** The statement that keeps a tripped actuator off. */
  function HoldHalf(v: Snapshot, s: State, a: Actuator, tripped: bool, now: Millis): State {
    When(tripped && Running(s, a), Touch(v, SetRunning(s, a, false), now), s)
  }

  /** Keeping the pump off does not touch anything the fertiliser's edge check reads or writes. */
  lemma HoldCommutes(v: Snapshot, s: State, tp: bool, tf: bool, now: Millis)
    ensures HoldHalf(v, EdgeHalf(v, s, Fertilizer, tf, now), Pump, tp, now)
         == EdgeHalf(v, HoldHalf(v, s, Pump, tp, now), Fertilizer, tf, now)
  {
  }

  /** One actuator's rising-edge handling is the edge check followed by the hold. */
  lemma OnEdgeHalves(v: Snapshot, s: State, a: Actuator, tripped: bool, now: Millis)
    ensures OverloadOnEdge(v, s, a, tripped, now) == HoldHalf(v, EdgeHalf(v, s, a, tripped, now), a, tripped, now)
  {
  }

  /**
   * The firmware checks both rising edges first and then holds both
   * actuators off; handling one actuator completely before the other, as
   * `OverloadPhase` does, gives the same state and the same alerts in the same order.
   */
  lemma EdgeOrder(v: Snapshot, s: State, inp: Inputs)
    requires Overload(v).AlertOnEdge?
    ensures HoldHalf(v, HoldHalf(v, EdgeHalf(v, EdgeHalf(v, s, Pump, inp.pumpTripped, inp.now), Fertilizer, inp.fertTripped, inp.now),
                                 Pump, inp.pumpTripped, inp.now), Fertilizer, inp.fertTripped, inp.now)
         == OverloadPhase(v, s, inp)
  {
    var s1 := EdgeHalf(v, s, Pump, inp.pumpTripped, inp.now);
    HoldCommutes(v, s1, inp.pumpTripped, inp.fertTripped, inp.now);
    OnEdgeHalves(v, s, Pump, inp.pumpTripped, inp.now);
    var s2 := OverloadOnEdge(v, s, Pump, inp.pumpTripped, inp.now);
    assert s2 == OverloadActuator(v, s, Pump, inp.pumpTripped, inp.now);
    OnEdgeHalves(v, s2, Fertilizer, inp.fertTripped, inp.now);
    assert OverloadOnEdge(v, s2, Fertilizer, inp.fertTripped, inp.now) == OverloadActuator(v, s2, Fertilizer, inp.fertTripped, inp.now);
  }

  class Controller {
    /** Which snapshot this controller runs. */
    const v: Snapshot

    var autoMode: bool
    /** The `is_auto` key of `Preferences` (None: never written). */
    var storedAuto: Option<bool>
    var pumpSoftAlarm: bool
    var pumpRunning: bool
    var pumpStartTime: Millis
    var lastPumpOverloadState: bool
    var lastFbPumpError: bool
    var fertRunning: bool
    var fertStartTime: Millis
    var lastFertOverloadState: bool
    var lastFbFertError: bool
    var fertJobDoneToday: bool
    /** `soil_hum`, `soil_temp`, `soil_ec`, `soil_salinity` (v11.0), in raw register units. */
    var soil: Modbus.SoilRegisters
    var lastSensorRead: Millis
    var lastSensorErrorState: bool
    var stateChangeTime: Millis
    var lastTbCheck: Millis
    var lastUploadTime: Millis
    /** Every webhook message sent so far. */
    var alerts: Log

    /** The globals read as one state of the model. */
    function State(): State
      reads this
    {
      Control.State(
        Mode(autoMode, storedAuto),
        pumpSoftAlarm,
        Drive(pumpRunning, pumpStartTime, lastPumpOverloadState, lastFbPumpError),
        Drive(fertRunning, fertStartTime, lastFertOverloadState, lastFbFertError),
        fertJobDoneToday,
        Sensor(soil, lastSensorRead, lastSensorErrorState),
        Timers(stateChangeTime, lastTbCheck, lastUploadTime),
        alerts)
    }

    /** The controller keeps the invariant of `Control` between cycles. */
    predicate Valid()
      reads this
    {
      Inv(v, State())
    }

    /** `setup()`: everything off, the mode restored from `Preferences` (default automatic). */
    constructor(v: Snapshot, stored: Option<bool>, now: Millis)
      ensures this.v == v && State() == InitialState(v, stored, now)
      ensures Valid()
    {
      this.v := v;
      var stored' := if PersistsMode(v) then stored else None;
      autoMode := if stored'.Some? then stored'.value else true;
      storedAuto := stored';
      pumpSoftAlarm := false;
      pumpRunning, pumpStartTime, lastPumpOverloadState, lastFbPumpError := false, 0, false, false;
      fertRunning, fertStartTime, lastFertOverloadState, lastFbFertError := false, 0, false, false;
      fertJobDoneToday := false;
      soil, lastSensorRead, lastSensorErrorState := Modbus.SoilRegisters(0, 0, 0, 0), 0, false;
      stateChangeTime := if HasFeedback(v) then now else 0;
      lastTbCheck, lastUploadTime := 0, 0;
      alerts := Empty;
      new;
      Safety.InitialStateValid(v, stored, now);
    }

    // ------------------------------------------------------------ helpers

    /** `sendDiscord(...)`, where the snapshot has that call. */
    method Report(cond: bool, e: Event)
      modifies this
      ensures State() == LogIf(cond, old(State()), e)
    {
      if cond {
        alerts := Append(alerts, e);
      }
    }

    /** `stateChangeTime = millis()`, in the snapshots with feedback pins. */
    method MarkStateChange(now: Millis)
      modifies this
      ensures State() == Touch(v, old(State()), now)
    {
      if HasFeedback(v) {
        stateChangeTime := now;
      }
    }

    /** `digitalWrite(pin, on ? HIGH : LOW); running = on;` */
    method SetOutput(a: Actuator, on: bool)
      modifies this
      ensures State() == SetRunning(old(State()), a, on)
    {
      if a.Pump? {
        pumpRunning := on;
      } else {
        fertRunning := on;
      }
    }

    /** Switch on and `startTime = now`. */
    method StartActuator(a: Actuator, now: Millis)
      modifies this
      ensures State() == Start(old(State()), a, now)
    {
      if a.Pump? {
        pumpRunning, pumpStartTime := true, now;
      } else {
        fertRunning, fertStartTime := true, now;
      }
    }

    /** `autoMode = auto; prefs.putBool("is_auto", auto);` */
    method SetAuto(auto: bool)
      modifies this
      ensures State() == SetMode(v, old(State()), auto)
    {
      autoMode := auto;
      if PersistsMode(v) {
        storedAuto := Some(auto);
      }
    }

    /** Switch an actuator off, mark the switching time and send the report, where the snapshot has one. */
    method SwitchOff(a: Actuator, now: Millis, report: bool, e: Event)
      modifies this
      ensures State() == LogIf(report, Touch(v, SetRunning(old(State()), a, false), now), e)
    {
      SetOutput(a, false);
      MarkStateChange(now);
      Report(report, e);
    }

    // ----------------------------------------------------------- commands

    /** A command starting with "LED" while in auto mode switches to manual mode first. */
    method Demotion(msg: string)
      modifies this
      ensures State() == Demote(v, old(State()), msg)
    {
      if AutoDemotion(v) && |msg| >= 3 && msg[..3] == "LED" {
        if autoMode {
          autoMode := false;
          storedAuto := Some(false);
          alerts := Append(alerts, ManualTakeover);
        }
      }
    }

    /** Before a manual start the other actuator is switched off. */
    method Interlock(a: Actuator)
      modifies this
      ensures State() == InterlockStep(v, old(State()), a)
    {
      if ManualInterlock(v) && Running(State(), Other(a)) {
        SetOutput(Other(a), false);
        Report(Verbose(v), InterlockStop(Other(a)));
      }
    }

    /** `LED1_ON` / `LED2_ON`: refused under overload, otherwise the other actuator is stopped first. */
    method ManualOn(a: Actuator, inp: Inputs)
      modifies this
      ensures State() == Execute(v, old(State()), Switch(a, true), inp)
    {
      if !Tripped(v, inp, a) {
        Interlock(a);
        StartActuator(a, inp.now);
        MarkStateChange(inp.now);
        Report(Verbose(v), ManualSwitch(a, true));
      } else {
        Report(ReportsRefusal(v), StartRefused(a));
      }
    }

    /** `LED1_OFF` / `LED2_OFF`. */
    method ManualOff(a: Actuator, inp: Inputs)
      modifies this
      ensures State() == Execute(v, old(State()), Switch(a, false), inp)
    {
      SwitchOff(a, inp.now, Verbose(v), ManualSwitch(a, false));
    }

    /** `STOP`: manual mode, both actuators off. */
    method EmergencyStop(inp: Inputs)
      modifies this
      ensures State() == Execute(v, old(State()), Stop, inp)
    {
      SetAuto(false);
      SetOutput(Pump, false);
      SetOutput(Fertilizer, false);
      MarkStateChange(inp.now);
      Report(Notifies(v), Control.EmergencyStop);
    }

    /** `callback()` (or the TalkBack command block): the demotion, then the chain of string comparisons. */
    method Callback(msg: string, inp: Inputs)
      modifies this
      ensures State() == ApplyCommand(v, old(State()), msg, inp)
    {
      Demotion(msg);
      if msg == "STOP" && HasStop(v) {
        EmergencyStop(inp);
      } else if msg == "AUTO_ON" {
        SetAuto(true);
        Report(Notifies(v), ModeSwitched(true));
      } else if msg == "AUTO_OFF" {
        SetAuto(false);
        Report(Notifies(v), ModeSwitched(false));
      } else if msg == "LED1_ON" {
        ManualOn(Pump, inp);
      } else if msg == "LED1_OFF" {
        ManualOff(Pump, inp);
      } else if msg == "LED2_ON" {
        ManualOn(Fertilizer, inp);
      } else if msg == "LED2_OFF" {
        ManualOff(Fertilizer, inp);
      }
    }

    // ------------------------------------------------------------ sensing

    /**
     * `readSoilSensor()`: query the probe; on a reply with the right header
     * the four registers are replaced (bytes 3-4 into `soil_temp`, 5-6 into
     * `soil_hum`), otherwise they keep their values.
     */
    method ReadSoilSensor(inp: Inputs) returns (ok: bool)
      modifies this
      ensures ok == BusDecoded(inp).Some?
      ensures State() == old(State()).(sensor := old(State()).sensor.(soil := if ok then BusDecoded(inp).value else old(soil)))
    {
      var decoded := BusDecoded(inp);
      ok := decoded.Some?;
      if ok {
        soil := decoded.value;
      }
    }

    /** v11.0: the probe is queried when more than 2000 ms have passed, and its moisture register judged. */
    method ReadBus(inp: Inputs) returns (r: Reading)
      modifies this
      ensures r == BusReading(old(State()), inp)
      ensures State() == BusRead(old(State()), inp)
    {
      var success := true;
      if Elapsed(inp.now, lastSensorRead) > BusReadIntervalMs {
        success := ReadSoilSensor(inp);
        lastSensorRead := inp.now;
      }
      var m := soil.moisture as int;
      r := Reading(!success || m == 0, m, m < SoilLow * 100, m > SoilHigh * 100);
    }

    /** `if (sensorError && !lastSensorErrorState) sendDiscord(...); lastSensorErrorState = sensorError;` */
    method SensorAlert(error: bool)
      modifies this
      ensures State() == When(EdgeAlerts(v),
                              LogIf(error && !old(lastSensorErrorState), old(State()), SensorFault).(sensor := old(State()).sensor.(lastError := error)),
                              old(State()))
    {
      if EdgeAlerts(v) {
        Report(error && !lastSensorErrorState, SensorFault);
        lastSensorErrorState := error;
      }
    }

    /** The sensor block at the top of `loop()`, and its edge-triggered fault alert. */
    method ReadSensors(inp: Inputs) returns (r: Reading)
      modifies this
      ensures r == Classify(v, old(State()), inp)
      ensures State() == Sense(v, old(State()), inp)
    {
      if BusSensor(v) {
        r := ReadBus(inp);
      } else {
        r := AnalogReading(inp);
      }
      SensorAlert(r.error);
    }

    // ----------------------------------------------------------- overload

    /** `if (overload && running) { stop }`, with an alert in the v8 snapshots. */
    method StopIfTripped(a: Actuator, tripped: bool, alert: bool)
      modifies this
      ensures State() == LogIf(alert && tripped && Running(old(State()), a), OverloadSilent(old(State()), a, tripped), OverloadTrip(a))
    {
      if tripped && Running(State(), a) {
        SetOutput(a, false);
        Report(alert, OverloadTrip(a));
      }
    }

    /** v10.4 and later, first half: stop and alert on the rising edge, then latch the input. */
    method OnEdge(a: Actuator, tripped: bool, now: Millis)
      modifies this
      ensures State() == EdgeHalf(v, old(State()), a, tripped, now)
    {
      if tripped && !LastOverload(State(), a) {
        SetOutput(a, false);
        MarkStateChange(now);
        Report(true, OverloadTrip(a));
      }
      if a.Pump? {
        lastPumpOverloadState := tripped;
      } else {
        lastFertOverloadState := tripped;
      }
    }

    /** v10.4 and later, second half: while the input stays tripped the actuator is kept off. */
    method HoldOff(a: Actuator, tripped: bool, now: Millis)
      modifies this
      ensures State() == HoldHalf(v, old(State()), a, tripped, now)
    {
      if tripped && Running(State(), a) {
        SetOutput(a, false);
        MarkStateChange(now);
      }
    }

    /** The overload block of `loop()`, in the order of the firmware's statements. */
    method OverloadInterlock(inp: Inputs)
      modifies this
      ensures State() == OverloadPhase(v, old(State()), inp)
    {
      match Overload(v)
      case NotSensed =>
      case SilentStop =>
        StopIfTripped(Pump, inp.pumpTripped, false);
        StopIfTripped(Fertilizer, inp.fertTripped, false);
      case AlertEachStop =>
        StopIfTripped(Pump, inp.pumpTripped, true);
        StopIfTripped(Fertilizer, inp.fertTripped, true);
      case AlertOnEdge =>
        ghost var s0 := State();
        OnEdge(Pump, inp.pumpTripped, inp.now);
        OnEdge(Fertilizer, inp.fertTripped, inp.now);
        HoldOff(Pump, inp.pumpTripped, inp.now);
        HoldOff(Fertilizer, inp.fertTripped, inp.now);
        EdgeOrder(v, s0, inp);
    }

    // ----------------------------------------------------------- feedback

    /** One actuator of `checkFeedback()`: alert once when the contactor disagrees with the output. */
    method CheckContactor(a: Actuator, realOn: bool)
      modifies this
      ensures State() == FeedbackActuator(old(State()), a, realOn)
    {
      var running := Running(State(), a);
      if running != realOn {
        if !LastFeedbackError(State(), a) {
          Report(true, if running then FailedToEnergize(a) else StuckEnergized(a));
        }
      }
      if a.Pump? {
        lastFbPumpError := running != realOn;
      } else {
        lastFbFertError := running != realOn;
      }
    }

    /** `checkFeedback()`, skipped within 2000 ms of the last switching operation. */
    method CheckFeedback(inp: Inputs)
      modifies this
      ensures State() == FeedbackPhase(v, old(State()), inp)
    {
      if HasFeedback(v) && Elapsed(inp.now, stateChangeTime) >= FeedbackGraceMs {
        CheckContactor(Pump, inp.pumpContactor);
        CheckContactor(Fertilizer, inp.fertContactor);
      }
    }

    // --------------------------------------------------------- automation

    /** 08:00: the pump is paused if it runs, the fertiliser started and the job marked done for the day. */
    method StartFertJob(now: Millis)
      modifies this
      ensures State() == LogIf(Notifies(v), Touch(v, Start(When(old(pumpRunning), LogIf(Verbose(v), SetRunning(old(State()), Pump, false), PumpPausedForSchedule), old(State())),
                                                           Fertilizer, now).(fertDoneToday := true), now), ScheduleStarted)
    {
      if pumpRunning {
        SetOutput(Pump, false);
        Report(Verbose(v), PumpPausedForSchedule);
      }
      StartActuator(Fertilizer, now);
      fertJobDoneToday := true;
      MarkStateChange(now);
      Report(Notifies(v), ScheduleStarted);
    }

    /** The daily fertiliser job, while in auto mode with the clock synchronised and no fertiliser overload. */
    method Schedule(inp: Inputs)
      modifies this
      ensures State() == SchedulePhase(v, old(State()), inp)
    {
      if autoMode && inp.clock.Some? && !Tripped(v, inp, Fertilizer) {
        RunSchedule(inp);
      }
    }

    /** The body of the schedule block. */
    method RunSchedule(inp: Inputs)
      requires autoMode && inp.clock.Some? && !Tripped(v, inp, Fertilizer)
      modifies this
      ensures State() == SchedulePhase(v, old(State()), inp)
    {
      var clock := inp.clock.value;
      if IsMinuteStart(clock, FertHour) && !fertRunning && !fertJobDoneToday {
        StartFertJob(inp.now);
      }
      if fertRunning && Elapsed(inp.now, fertStartTime) >= FertDurationMs {
        SwitchOff(Fertilizer, inp.now, Notifies(v), ScheduleFinished);
      }
      if IsMinuteStart(clock, 0) {
        fertJobDoneToday := false;
      }
    }

    /** Dry soil: the pump is started and its start time recorded. */
    method StartIrrigation(now: Millis, moisture: int)
      modifies this
      ensures State() == LogIf(Verbose(v), Touch(v, Start(old(State()), Pump, now), now), IrrigationStarted(moisture))
    {
      StartActuator(Pump, now);
      MarkStateChange(now);
      Report(Verbose(v), IrrigationStarted(moisture));
    }

    /** Moisture-driven irrigation in auto mode, and the stop on a sensor fault or pump overload. */
    method Irrigation(inp: Inputs, r: Reading)
      modifies this
      ensures State() == IrrigationPhase(v, old(State()), inp, r)
    {
      if autoMode {
        if !pumpSoftAlarm && !Tripped(v, inp, Pump) && !r.error {
          if r.dry && !pumpRunning && !fertRunning {
            StartIrrigation(inp.now, r.moisture);
          } else if r.wet && pumpRunning {
            SwitchOff(Pump, inp.now, Verbose(v), IrrigationFinished(r.moisture));
          }
        } else if (r.error || Tripped(v, inp, Pump)) && pumpRunning {
          SwitchOff(Pump, inp.now, Verbose(v), FaultStop);
        }
      }
    }

    /** The run-time lockout: a pump on for ten minutes or more is stopped and the alarm latched, in any mode. */
    method Lockout(now: Millis)
      modifies this
      ensures State() == LockoutPhase(v, old(State()), now)
    {
      if pumpRunning && Elapsed(now, pumpStartTime) / 60000 >= PumpMaxRunMinutes {
        SetOutput(Pump, false);
        pumpSoftAlarm := true;
        MarkStateChange(now);
        Report(Notifies(v), RuntimeLockout);
      }
    }

    // ------------------------------------------------------------- status

    /** The status word of this cycle, from the globals, the reading and the overload inputs. */
    method EncodeStatus(r: Reading, inp: Inputs) returns (status: bv16)
      ensures status == StatusOf(v, State(), r, inp)
    {
      status := StatusWord.EncodeFlags(Flags(v, State(), r, inp), Width(v));
    }

    // -------------------------------------------------------------- cycle

    /** The TalkBack block: when the poll is due, a non-empty reply runs as a command. */
    method TalkBack(inp: Inputs)
      modifies this
      ensures State() == TalkBackPhase(v, old(State()), inp)
    {
      if Elapsed(inp.now, lastTbCheck) > PollInterval(v) {
        lastTbCheck := inp.now;
        var msg := Message(inp);
        if |msg| > 0 {
          Callback(msg, inp);
        }
      }
    }

    /** `loop()` from the sensor block to the lockout. */
    method Body(inp: Inputs) returns (r: Reading)
      modifies this
      ensures r == Classify(v, old(State()), inp)
      ensures State() == ControlBody(v, old(State()), inp)
    {
      r := ReadSensors(inp);
      OverloadInterlock(inp);
      CheckFeedback(inp);
      Schedule(inp);
      Irrigation(inp, r);
      Lockout(inp.now);
    }

    /** The upload block of the polling snapshots: when due, the status word is built and the time recorded. */
    method Upload(r: Reading, inp: Inputs) returns (status: Option<bv16>)
      modifies this
      ensures var due := Elapsed(inp.now, old(lastUploadTime)) >= UploadInterval(v);
              && status == (if due then Some(StatusOf(v, old(State()), r, inp)) else None)
              && State() == (if due then old(State()).(timers := old(State()).timers.(lastUpload := inp.now)) else old(State()))
    {
      if Elapsed(inp.now, lastUploadTime) >= UploadInterval(v) {
        var word := EncodeStatus(r, inp);
        lastUploadTime := inp.now;
        status := Some(word);
      } else {
        status := None;
      }
    }

    /** `client.loop()`: the MQTT callback runs for a message that arrived. */
    method Command(inp: Inputs)
      modifies this
      ensures State() == When(inp.command.Some?, ApplyCommand(v, old(State()), Message(inp), inp), old(State()))
    {
      if inp.command.Some? {
        Callback(inp.command.value, inp);
      }
    }

    /** A connected cycle of the MQTT snapshots. */
    method MqttCycle(inp: Inputs) returns (status: Option<bv16>)
      requires inp.wifi && ViaMqtt(v)
      modifies this
      ensures State() == Cycle(v, old(State()), inp).state
      ensures status == Cycle(v, old(State()), inp).status
    {
      Command(inp);
      var r := Body(inp);
      var word := EncodeStatus(r, inp);
      status := Some(word);
    }

    /** A connected cycle of the polling snapshots (and of v5.0, which takes no commands). */
    method PolledCycle(inp: Inputs) returns (status: Option<bv16>)
      requires inp.wifi && !ViaMqtt(v)
      modifies this
      ensures State() == Cycle(v, old(State()), inp).state
      ensures status == Cycle(v, old(State()), inp).status
    {
      var r := Body(inp);
      if ViaTalkBack(v) {
        TalkBack(inp);
      }
      status := Upload(r, inp);
    }

    /**
     * One pass of `loop()`: nothing while WiFi is down; an MQTT command first,
     * then the control body, then the status word (every cycle over MQTT;
     * in the polling snapshots after the TalkBack block, when the upload is due).
     */
    method Loop(inp: Inputs) returns (status: Option<bv16>)
      requires Valid()
      modifies this
      ensures State() == Cycle(v, old(State()), inp).state
      ensures status == Cycle(v, old(State()), inp).status
      ensures Valid()
    {
      Safety.CycleKeepsInv(v, State(), inp);
      if !inp.wifi {
        status := None;
      } else if ViaMqtt(v) {
        status := MqttCycle(inp);
      } else {
        status := PolledCycle(inp);
      }
    }
  }
}
