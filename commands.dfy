/*
 * Remote commands: `callback` in the MQTT snapshots, the TalkBack block in
 * v6.0 to v8.2. Each command string is compared exactly; a command starting
 * with "LED" first demotes automatic mode in v10.6 and later.
 */
module CommandFacts {
  import opened Common
  import opened Snapshots
  import opened Control

  /** Only commands starting with "LED" are manual commands. */
  lemma NotManual(msg: string)
    requires |msg| >= 1 && msg[0] != 'L'
    ensures !IsManualCommand(msg)
  {
    if |msg| >= 3 {
      assert msg[..3][0] == msg[0];
    }
  }

  /** `STOP` (v6.2 and later): manual mode, both actuators off, and the mode stored where it is stored. */
  lemma StopCommand(v: Snapshot, s: State, inp: Inputs)
    requires HasStop(v)
    ensures !ApplyCommand(v, s, "STOP", inp).pump.running && !ApplyCommand(v, s, "STOP", inp).fert.running
    ensures !ApplyCommand(v, s, "STOP", inp).mode.auto
    ensures ApplyCommand(v, s, "STOP", inp).mode.stored == if PersistsMode(v) then Some(false) else s.mode.stored
    ensures ApplyCommand(v, s, "STOP", inp).alarm == s.alarm
  {
    assert ParseCommand(v, "STOP") == Stop;
    NotManual("STOP");
  }

  /** v6.0 does not know `STOP`: it changes nothing. */
  lemma StopUnknownInV6_0(s: State, inp: Inputs)
    ensures ApplyCommand(V6_0, s, "STOP", inp) == s
  {
    NotManual("STOP");
  }

  /** `AUTO_ON` and `AUTO_OFF` set the mode, store it where it is stored, and leave the actuators alone. */
  lemma ModeCommand(v: Snapshot, s: State, inp: Inputs, auto: bool)
    ensures ApplyCommand(v, s, if auto then "AUTO_ON" else "AUTO_OFF", inp).mode
         == Mode(auto, if PersistsMode(v) then Some(auto) else s.mode.stored)
    ensures ApplyCommand(v, s, if auto then "AUTO_ON" else "AUTO_OFF", inp).pump == s.pump
    ensures ApplyCommand(v, s, if auto then "AUTO_ON" else "AUTO_OFF", inp).fert == s.fert
  {
    var msg := if auto then "AUTO_ON" else "AUTO_OFF";
    NotManual(msg);
    assert ParseCommand(v, msg) == if auto then AutoOn else AutoOff;
  }

  /** Where the mode is stored, it is what a reboot restores. */
  lemma RebootRestoresMode(v: Snapshot, s: State, now: Millis)
    requires PersistsMode(v) && Inv(v, s)
    ensures InitialState(v, s.mode.stored, now).mode == s.mode
  {
  }

  /** Elsewhere every boot starts in automatic mode. */
  lemma RebootDefaultsToAuto(v: Snapshot, stored: Option<bool>, now: Millis)
    requires !PersistsMode(v)
    ensures InitialState(v, stored, now).mode == Mode(true, None)
  {
  }

  /**
   * v10.6 and later: a command starting with "LED" in automatic mode stores
   * manual mode and reports the takeover, before the command itself runs;
   * in manual mode, or before v10.6, the prefix check changes nothing.
   */
  lemma Demotion(v: Snapshot, s: State, msg: string)
    ensures AutoDemotion(v) && IsManualCommand(msg) && s.mode.auto
            ==> Demote(v, s, msg) == s.(mode := Mode(false, Some(false)), log := Append(s.log, ManualTakeover))
    ensures !(AutoDemotion(v) && IsManualCommand(msg) && s.mode.auto) ==> Demote(v, s, msg) == s
  {
  }

  /** Before v10.6 the switch commands never touch the mode. */
  lemma SwitchKeepsMode(v: Snapshot, s: State, inp: Inputs, a: Actuator, on: bool)
    requires !AutoDemotion(v)
    ensures Execute(v, Demote(v, s, "LED"), Switch(a, on), inp).mode == s.mode
  {
  }

  /** The switch command strings and what they mean. */
  lemma SwitchCommands(v: Snapshot)
    ensures ParseCommand(v, "LED1_ON") == Switch(Pump, true) && ParseCommand(v, "LED1_OFF") == Switch(Pump, false)
    ensures ParseCommand(v, "LED2_ON") == Switch(Fertilizer, true) && ParseCommand(v, "LED2_OFF") == Switch(Fertilizer, false)
    ensures IsManualCommand("LED1_ON") && IsManualCommand("LED1_OFF") && IsManualCommand("LED2_ON") && IsManualCommand("LED2_OFF")
  {
  }

  /** A manual start under the matching overload changes no actuator; v10.4 to v10.7 report the refusal. */
  lemma ManualStartRefused(v: Snapshot, s: State, a: Actuator, inp: Inputs)
    requires Tripped(v, inp, a)
    ensures Execute(v, s, Switch(a, true), inp).pump == s.pump
    ensures Execute(v, s, Switch(a, true), inp).fert == s.fert
    ensures Execute(v, s, Switch(a, true), inp).log == if ReportsRefusal(v) then Append(s.log, StartRefused(a)) else s.log
  {
  }

  /** Otherwise the other actuator is stopped first (all but v6.0) and the requested one runs from now. */
  lemma ManualStart(v: Snapshot, s: State, a: Actuator, inp: Inputs)
    requires !Tripped(v, inp, a)
    ensures Running(Execute(v, s, Switch(a, true), inp), a)
    ensures DriveOf(Execute(v, s, Switch(a, true), inp), a).since == inp.now
    ensures ManualInterlock(v) ==> !Running(Execute(v, s, Switch(a, true), inp), Other(a))
    ensures !ManualInterlock(v) ==> DriveOf(Execute(v, s, Switch(a, true), inp), Other(a)) == DriveOf(s, Other(a))
  {
  }

  /** The manual pump start does not check the lockout alarm: a latched alarm does not prevent it. */
  lemma ManualStartIgnoresAlarm(v: Snapshot, s: State, inp: Inputs)
    requires s.alarm && !Tripped(v, inp, Pump)
    ensures Running(Execute(v, s, Switch(Pump, true), inp), Pump)
    ensures Execute(v, s, Switch(Pump, true), inp).alarm
  {
  }

  /** A manual stop turns off that actuator only. */
  lemma ManualStop(v: Snapshot, s: State, a: Actuator, inp: Inputs)
    ensures !Running(Execute(v, s, Switch(a, false), inp), a)
    ensures DriveOf(Execute(v, s, Switch(a, false), inp), Other(a)) == DriveOf(s, Other(a))
  {
  }

  lemma SwitchKeepsAlarm(v: Snapshot, s: State, a: Actuator, on: bool, inp: Inputs)
    ensures Execute(v, s, Switch(a, on), inp).alarm == s.alarm
  {
    if on && !Tripped(v, inp, a) {
      assert InterlockStep(v, s, a).alarm == s.alarm;
    }
  }

  lemma ExecuteKeepsAlarm(v: Snapshot, s: State, cmd: Command, inp: Inputs)
    ensures Execute(v, s, cmd, inp).alarm == s.alarm
  {
    if cmd.Switch? {
      SwitchKeepsAlarm(v, s, cmd.a, cmd.on, inp);
    }
  }

  /** No command clears the lockout alarm. */
  lemma CommandKeepsAlarm(v: Snapshot, s: State, msg: string, inp: Inputs)
    ensures ApplyCommand(v, s, msg, inp).alarm == s.alarm
  {
    ExecuteKeepsAlarm(v, Demote(v, s, msg), ParseCommand(v, msg), inp);
  }

  // ---------------------------------------------------------------- v6.0

  /**
   * v6.0 has no manual interlock: with the fertiliser running, `LED1_ON`
   * turns the pump on beside it.
   */
  lemma V6_0BothRunning(s: State, inp: Inputs)
    requires s.fert.running && !s.pump.running
    ensures ApplyCommand(V6_0, s, "LED1_ON", inp).pump.running
    ensures ApplyCommand(V6_0, s, "LED1_ON", inp).fert.running
  {
    assert ParseCommand(V6_0, "LED1_ON") == Switch(Pump, true);
  }

  /** From boot: `LED2_ON`, then `LED1_ON`, leaves both actuators on in v6.0. */
  lemma V6_0FromBoot(inp: Inputs)
    ensures var s := ApplyCommand(V6_0, ApplyCommand(V6_0, InitialState(V6_0, None, 0), "LED2_ON", inp), "LED1_ON", inp);
            s.pump.running && s.fert.running
  {
    assert ParseCommand(V6_0, "LED2_ON") == Switch(Fertilizer, true);
    V6_0BothRunning(ApplyCommand(V6_0, InitialState(V6_0, None, 0), "LED2_ON", inp), inp);
  }
}
