/*
 * Whole cycles and runs of cycles: what a disconnected cycle does, what the
 * status word says, and the promises that span many cycles (the lockout
 * alarm stays latched; a held overload is reported once).
 */
module CycleFacts {
  import opened Common
  import opened Snapshots
  import opened Control
  import StatusWord
  import AutomationFacts
  import CommandFacts

  /** The whole loop body is inside the WiFi check: a disconnected cycle changes nothing and publishes nothing. */
  lemma DisconnectedIsNoOp(v: Snapshot, s: State, inp: Inputs)
    requires !inp.wifi
    ensures Cycle(v, s, inp) == Outcome(s, None)
  {
  }

  /** A run of disconnected cycles leaves every global as it was. */
  lemma {:induction false} OfflineRunIsNoOp(v: Snapshot, s: State, inps: seq<Inputs>)
    requires forall i :: 0 <= i < |inps| ==> !inps[i].wifi
    ensures Run(v, s, inps) == s
    decreases |inps|
  {
    if |inps| > 0 {
      DisconnectedIsNoOp(v, s, inps[0]);
      OfflineRunIsNoOp(v, s, inps[1..]);
    }
  }

  /**
   * The overload block and the lockout are inside the WiFi check too: while
   * WiFi is down, a pump that has run for 10 minutes or whose overload relay
   * has tripped keeps running, and the alarm does not latch.
   */
  lemma OfflinePumpUnprotected(v: Snapshot, s: State, inps: seq<Inputs>)
    requires |inps| > 0 && forall i :: 0 <= i < |inps| ==> !inps[i].wifi
    requires s.pump.running && !s.alarm
    requires RuntimeExceeded(s, inps[|inps| - 1].now) || inps[|inps| - 1].pumpTripped
    ensures Run(v, s, inps).pump.running && !Run(v, s, inps).alarm
  {
    OfflineRunIsNoOp(v, s, inps);
  }

  /** The MQTT snapshots build the status word in every connected cycle; the polled ones only when an upload is due. */
  lemma StatusPublished(v: Snapshot, s: State, inp: Inputs)
    requires inp.wifi
    ensures ViaMqtt(v) ==> Cycle(v, s, inp).status.Some?
    ensures !ViaMqtt(v) ==> (Cycle(v, s, inp).status.Some? <==> Elapsed(inp.now, ControlBodyThenPoll(v, s, inp).timers.lastUpload) >= UploadInterval(v))
  {
  }

  /** The state the polled snapshots upload from. */
  function ControlBodyThenPoll(v: Snapshot, s: State, inp: Inputs): State {
    When(ViaTalkBack(v), TalkBackPhase(v, ControlBody(v, s, inp), inp), ControlBody(v, s, inp))
  }

  /**
   * A published status word reads back as the running flags, alarm, mode and
   * feedback latches of the state at that point, restricted to the snapshot's
   * width, and has no bit at or above that width.
   */
  lemma StatusReadsBack(v: Snapshot, s: State, r: Reading, inp: Inputs)
    ensures StatusWord.Decode(StatusOf(v, s, r, inp)) == StatusWord.Truncate(Flags(v, s, r, inp), Width(v))
    ensures StatusOf(v, s, r, inp) >> (Width(v) as bv16) == 0
    ensures StatusWord.Decode(StatusOf(v, s, r, inp)).pumpRunning == s.pump.running
    ensures StatusWord.Decode(StatusOf(v, s, r, inp)).alarmLatched == s.alarm
  {
    StatusWord.DecodeEncode(Flags(v, s, r, inp), Width(v));
    StatusWord.EncodeBounded(Flags(v, s, r, inp), Width(v));
  }

  // ------------------------------------------------------- the alarm latch

  predicate AlarmKept(s: State, t: State) { s.alarm ==> t.alarm }

  lemma OnEdgeKeepsAlarm(v: Snapshot, s: State, a: Actuator, tripped: bool, now: Millis)
    ensures OverloadOnEdge(v, s, a, tripped, now).alarm == s.alarm
  {
  }

  lemma OverloadKeepsAlarm(v: Snapshot, s: State, a: Actuator, tripped: bool, now: Millis)
    ensures OverloadActuator(v, s, a, tripped, now).alarm == s.alarm
  {
    if Overload(v).AlertOnEdge? {
      OnEdgeKeepsAlarm(v, s, a, tripped, now);
    }
  }

  lemma OverloadPhaseKeepsAlarm(v: Snapshot, s: State, inp: Inputs)
    ensures OverloadPhase(v, s, inp).alarm == s.alarm
  {
    OverloadKeepsAlarm(v, s, Pump, inp.pumpTripped, inp.now);
    OverloadKeepsAlarm(v, OverloadActuator(v, s, Pump, inp.pumpTripped, inp.now), Fertilizer, inp.fertTripped, inp.now);
  }

  lemma SenseKeepsAlarm(v: Snapshot, s: State, inp: Inputs)
    ensures Sense(v, s, inp).alarm == s.alarm
  {
    assert When(BusSensor(v), BusRead(s, inp), s).alarm == s.alarm;
  }

  lemma FeedbackKeepsAlarm(v: Snapshot, s: State, inp: Inputs)
    ensures FeedbackPhase(v, s, inp).alarm == s.alarm
  {
    assert FeedbackActuator(s, Pump, inp.pumpContactor).alarm == s.alarm;
  }

  lemma ScheduleKeepsAlarm(v: Snapshot, s: State, inp: Inputs)
    ensures SchedulePhase(v, s, inp).alarm == s.alarm
  {
  }

  lemma IrrigationKeepsAlarm(v: Snapshot, s: State, inp: Inputs, r: Reading)
    ensures IrrigationPhase(v, s, inp, r).alarm == s.alarm
  {
  }

  /** The lockout only ever sets the alarm. */
  lemma LockoutKeepsAlarm(v: Snapshot, s: State, now: Millis)
    ensures AlarmKept(s, LockoutPhase(v, s, now))
  {
  }

  lemma BodyKeepsAlarm(v: Snapshot, s: State, inp: Inputs)
    ensures AlarmKept(s, ControlBody(v, s, inp))
  {
    var r := Classify(v, s, inp);
    var s1 := Sense(v, s, inp);
    SenseKeepsAlarm(v, s, inp);
    var s2 := OverloadPhase(v, s1, inp);
    OverloadPhaseKeepsAlarm(v, s1, inp);
    var s3 := FeedbackPhase(v, s2, inp);
    FeedbackKeepsAlarm(v, s2, inp);
    var s4 := SchedulePhase(v, s3, inp);
    ScheduleKeepsAlarm(v, s3, inp);
    var s5 := IrrigationPhase(v, s4, inp, r);
    IrrigationKeepsAlarm(v, s4, inp, r);
    LockoutKeepsAlarm(v, s5, inp.now);
  }

  lemma TalkBackKeepsAlarm(v: Snapshot, s: State, inp: Inputs)
    ensures AlarmKept(s, TalkBackPhase(v, s, inp))
  {
    CommandFacts.CommandKeepsAlarm(v, s.(timers := s.timers.(lastPoll := inp.now)), Message(inp), inp);
  }

  lemma CycleKeepsAlarm(v: Snapshot, s: State, inp: Inputs)
    ensures AlarmKept(s, Cycle(v, s, inp).state)
  {
    if inp.wifi {
      if ViaMqtt(v) {
        CommandFacts.CommandKeepsAlarm(v, s, Message(inp), inp);
        BodyKeepsAlarm(v, When(inp.command.Some?, ApplyCommand(v, s, Message(inp), inp), s), inp);
      } else {
        BodyKeepsAlarm(v, s, inp);
        TalkBackKeepsAlarm(v, ControlBody(v, s, inp), inp);
      }
    }
  }

  /** Once latched, the lockout alarm is never cleared: only a reboot clears it. */
  lemma {:induction false} AlarmNeverCleared(v: Snapshot, s: State, inps: seq<Inputs>)
    requires s.alarm
    ensures Run(v, s, inps).alarm
    decreases |inps|
  {
    if |inps| > 0 {
      CycleKeepsAlarm(v, s, inps[0]);
      AlarmNeverCleared(v, Cycle(v, s, inps[0]).state, inps[1..]);
    }
  }

  // ---------------------------------------------------------- pump runtime

  /** After `t`, the pump is either off, restarted at `now`, or exactly as it was. */
  predicate PumpRestartedOrKept(s: State, t: State, now: Millis) {
    t.pump.running ==> t.pump.since == now || t.pump == s.pump
  }

  lemma SwitchPumpRuntime(v: Snapshot, s: State, a: Actuator, on: bool, inp: Inputs)
    ensures PumpRestartedOrKept(s, Execute(v, s, Switch(a, on), inp), inp.now)
  {
    if on && !Tripped(v, inp, a) {
      var i := InterlockStep(v, s, a);
      assert i.pump.running ==> i.pump == s.pump;
    }
  }

  lemma CommandPumpRuntime(v: Snapshot, s: State, msg: string, inp: Inputs)
    ensures PumpRestartedOrKept(s, ApplyCommand(v, s, msg, inp), inp.now)
  {
    var d := Demote(v, s, msg);
    assert d.pump == s.pump;
    var cmd := ParseCommand(v, msg);
    if cmd.Switch? {
      SwitchPumpRuntime(v, d, cmd.a, cmd.on, inp);
    }
  }

  /** A running pump has run for less than the 10-minute lockout time. */
  predicate RuntimeBounded(s: State, now: Millis) {
    s.pump.running ==> Elapsed(now, s.pump.since) < 600000
  }

  lemma BodyBoundsRuntime(v: Snapshot, s: State, inp: Inputs)
    ensures RuntimeBounded(ControlBody(v, s, inp), inp.now)
  {
    var s3 := FeedbackPhase(v, OverloadPhase(v, Sense(v, s, inp), inp), inp);
    AutomationFacts.LockoutBoundsRuntime(v, IrrigationPhase(v, SchedulePhase(v, s3, inp), inp, Classify(v, s, inp)), inp.now);
  }

  /** A TalkBack command after the lockout can only stop the pump or restart it now. */
  lemma TalkBackKeepsBound(v: Snapshot, s: State, inp: Inputs)
    requires RuntimeBounded(s, inp.now)
    ensures RuntimeBounded(When(ViaTalkBack(v), TalkBackPhase(v, s, inp), s), inp.now)
  {
    CommandPumpRuntime(v, s.(timers := s.timers.(lastPoll := inp.now)), Message(inp), inp);
    assert PumpRestartedOrKept(s, TalkBackPhase(v, s, inp), inp.now);
  }

  lemma PolledCycleBound(v: Snapshot, s: State, inp: Inputs)
    requires inp.wifi && !ViaMqtt(v)
    ensures RuntimeBounded(Cycle(v, s, inp).state, inp.now)
  {
    var s1 := ControlBody(v, s, inp);
    BodyBoundsRuntime(v, s, inp);
    TalkBackKeepsBound(v, s1, inp);
  }

  /**
   * After every connected cycle a running pump has run for less than 10
   * minutes: the lockout has just checked it, and a TalkBack command after
   * the lockout can only stop it or restart it now.
   */
  lemma RuntimeBoundedAfterCycle(v: Snapshot, s: State, inp: Inputs)
    requires inp.wifi
    ensures RuntimeBounded(Cycle(v, s, inp).state, inp.now)
  {
    if ViaMqtt(v) {
      BodyBoundsRuntime(v, When(inp.command.Some?, ApplyCommand(v, s, Message(inp), inp), s), inp);
    } else {
      PolledCycleBound(v, s, inp);
    }
  }

  // --------------------------------------------------------------- TalkBack

  /** Within the poll interval of the last poll, the TalkBack block does nothing at all. */
  lemma TalkBackRateLimited(v: Snapshot, s: State, inp: Inputs)
    requires Elapsed(inp.now, s.timers.lastPoll) <= PollInterval(v)
    ensures TalkBackPhase(v, s, inp) == s
  {
  }

  /** An empty reply is ignored: only the poll time moves. */
  lemma TalkBackEmptyIgnored(v: Snapshot, s: State, inp: Inputs)
    requires Message(inp) == ""
    ensures TalkBackPhase(v, s, inp).(timers := s.timers) == s
  {
  }

  lemma SwitchKeepsPoll(v: Snapshot, s: State, a: Actuator, on: bool, inp: Inputs)
    ensures Execute(v, s, Switch(a, on), inp).timers.lastPoll == s.timers.lastPoll
  {
    if on && !Tripped(v, inp, a) {
      assert InterlockStep(v, s, a).timers == s.timers;
    }
  }

  lemma CommandKeepsPoll(v: Snapshot, s: State, msg: string, inp: Inputs)
    ensures ApplyCommand(v, s, msg, inp).timers.lastPoll == s.timers.lastPoll
  {
    var d := Demote(v, s, msg);
    assert d.timers == s.timers;
    var cmd := ParseCommand(v, msg);
    if cmd.Switch? {
      SwitchKeepsPoll(v, d, cmd.a, cmd.on, inp);
    }
  }

  /** A command is handled at most once per poll interval: a poll right after a poll does nothing. */
  lemma PollsAtMostOncePerInterval(v: Snapshot, s: State, first: Inputs, second: Inputs)
    requires Elapsed(first.now, s.timers.lastPoll) > PollInterval(v)
    requires Elapsed(second.now, first.now) <= PollInterval(v)
    ensures TalkBackPhase(v, s, first).timers.lastPoll == first.now
    ensures TalkBackPhase(v, TalkBackPhase(v, s, first), second) == TalkBackPhase(v, s, first)
  {
    CommandKeepsPoll(v, s.(timers := s.timers.(lastPoll := first.now)), Message(first), first);
  }
}
