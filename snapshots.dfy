/*
 * The twelve snapshots of the firmware differ only in which safety and
 * notification features their control loop has. Each feature is a predicate
 * over the snapshot, so that one controller serves them all.
 *
 *   V5_0        v5.0.cpp         no mode, no commands
 *   V6_0        v6.0.cpp         TalkBack commands, no STOP, no manual interlock
 *   V6_2        v6.2.cpp         STOP and manual interlock
 *   V7_0        v7.0.cpp         thermal-overload inputs (silent)
 *   V8_0        v8.0.cpp         webhook alerts, one per forced stop
 *   V8_2        cpp/v8.2.cpp     as V8_0, alerts escaped and sent to two webhooks
 *   V10_4Quiet  v10.4.cpp        MQTT commands, no notifications
 *   V10_4       cpp/v10.4.cpp    MQTT with edge-triggered alerts
 *   V10_5       cpp/v10.5.cpp    mode stored in non-volatile memory
 *   V10_6       cpp/v10.6.cpp    manual commands demote auto mode
 *   V10_7       cpp/v10.7.cpp    contactor feedback check
 *   V11_0       cpp/v11.0.cpp    RS-485 soil probe instead of the analog one
 */
module Snapshots {
  import opened Common
  import StatusWord

  datatype Snapshot = V5_0 | V6_0 | V6_2 | V7_0 | V8_0 | V8_2 | V10_4Quiet | V10_4 | V10_5 | V10_6 | V10_7 | V11_0

  /** Every snapshot but the first has an automatic/manual mode. */
  predicate HasMode(v: Snapshot) { !v.V5_0? }

  /** Commands arrive by MQTT: `callback` runs inside `client.loop()`, before the control body. */
  predicate ViaMqtt(v: Snapshot) {
    v.V10_4Quiet? || v.V10_4? || v.V10_5? || v.V10_6? || v.V10_7? || v.V11_0?
  }

  /** Commands are polled from ThingSpeak TalkBack after the lockout check. */
  predicate ViaTalkBack(v: Snapshot) {
    v.V6_0? || v.V6_2? || v.V7_0? || v.V8_0? || v.V8_2?
  }

  /** The TalkBack poll runs when more than this many milliseconds have passed. */
  function PollInterval(v: Snapshot): Millis {
    if v.V8_0? || v.V8_2? then 5000 else 2000
  }

  /** The upload block (where the status word is built in the polling snapshots) runs this often. */
  function UploadInterval(v: Snapshot): Millis {
    if v.V5_0? || v.V6_0? || v.V6_2? then 20000 else 60000
  }

  /** `STOP` is understood from v6.2 on. */
  predicate HasStop(v: Snapshot) { HasMode(v) && !v.V6_0? }

  /** A manual start stops the other actuator first (all commanding snapshots but v6.0). */
  predicate ManualInterlock(v: Snapshot) { HasMode(v) && !v.V6_0? }

  /** The thermal-overload relays are wired in from v7.0 on. */
  predicate SensesOverload(v: Snapshot) { !v.V5_0? && !v.V6_0? && !v.V6_2? }

  datatype OverloadPolicy =
    | NotSensed        // no overload input
    | SilentStop       // stop a running actuator, no alert
    | AlertEachStop    // stop a running actuator and alert, every time
    | AlertOnEdge      // alert and stop once on the rising edge, stop silently while held

  function Overload(v: Snapshot): (p: OverloadPolicy)
    ensures p.NotSensed? <==> !SensesOverload(v)
  {
    match v
    case V5_0 => NotSensed
    case V6_0 => NotSensed
    case V6_2 => NotSensed
    case V7_0 => SilentStop
    case V10_4Quiet => SilentStop
    case V8_0 => AlertEachStop
    case V8_2 => AlertEachStop
    case _ => AlertOnEdge
  }

  /** Snapshots that post webhook notifications at all. */
  predicate Notifies(v: Snapshot) {
    v.V8_0? || v.V8_2? || v.V10_4? || v.V10_5? || v.V10_6? || v.V10_7? || v.V11_0?
  }

  /** The v8 snapshots also report irrigation, manual switching and interlock stops. */
  predicate Verbose(v: Snapshot) { v.V8_0? || v.V8_2? }

  /** Sensor-fault and overload alerts are sent once per rising edge (`last*State`). */
  predicate EdgeAlerts(v: Snapshot) {
    v.V10_4? || v.V10_5? || v.V10_6? || v.V10_7? || v.V11_0?
  }

  /** A refused manual start is reported. */
  predicate ReportsRefusal(v: Snapshot) {
    v.V10_4? || v.V10_5? || v.V10_6? || v.V10_7?
  }

  /** The mode is written to `Preferences` under `is_auto` and restored at boot. */
  predicate PersistsMode(v: Snapshot) {
    v.V10_5? || v.V10_6? || v.V10_7? || v.V11_0?
  }

  /** A command starting with "LED" switches auto mode off first. */
  predicate AutoDemotion(v: Snapshot) {
    v.V10_6? || v.V10_7? || v.V11_0?
  }

  /** Contactor feedback pins, `stateChangeTime` and `checkFeedback`. */
  predicate HasFeedback(v: Snapshot) { v.V10_7? || v.V11_0? }

  /** Soil moisture comes from the RS-485 probe. */
  predicate BusSensor(v: Snapshot) { v.V11_0? }

  /** The number of status bits the snapshot publishes. */
  function Width(v: Snapshot): StatusWord.StatusWidth {
    if v.V5_0? then 4
    else if v.V6_0? || v.V6_2? then 5
    else if HasFeedback(v) then 9
    else 7
  }

  /** Every snapshot is either polled, MQTT-driven or (v5.0) takes no commands. */
  lemma ChannelsPartition(v: Snapshot)
    ensures ViaMqtt(v) != ViaTalkBack(v) <==> HasMode(v)
    ensures !HasMode(v) ==> !ViaMqtt(v) && !ViaTalkBack(v)
  {
  }
}
