/*
 * The invariant every cycle keeps: pump and fertiliser are never on together
 * (except in v6.0, whose manual commands have no interlock), there is no
 * manual mode in v5.0, feedback errors exist only where feedback is wired,
 * and the stored mode agrees with the current one.
 *
 * Each phase is shown to change the state only in ways the invariant allows
 * (`Steady`, which does not depend on the snapshot); one lemma turns that
 * into the invariant, and the cycle lemmas chain the phases.
 */
module Safety {
  import opened Common
  import opened Snapshots
  import opened Control

  /** Booting gives a state that satisfies the invariant, with both actuators off. */
  lemma InitialStateValid(v: Snapshot, stored: Option<bool>, now: Millis)
    ensures Inv(v, InitialState(v, stored, now))
    ensures !InitialState(v, stored, now).pump.running && !InitialState(v, stored, now).fert.running
  {
  }

  /** The exclusion part of the invariant. */
  predicate Exclusive(s: State) { !(s.pump.running && s.fert.running) }

  // ------------------------------------------------------- allowed changes

  predicate ModeKept(s: State, t: State) {
    t.mode == s.mode
  }

  predicate FeedbackKept(s: State, t: State) {
    t.pump.feedbackError == s.pump.feedbackError && t.fert.feedbackError == s.fert.feedbackError
  }

  /** `t` has both actuators on only if `s` had. */
  predicate NoNewOverlap(s: State, t: State) {
    t.pump.running && t.fert.running ==> s.pump.running && s.fert.running
  }

  predicate Steady(s: State, t: State) {
    ModeKept(s, t) && FeedbackKept(s, t) && NoNewOverlap(s, t)
  }

  lemma SteadyTrans(s1: State, s2: State, s3: State)
    requires Steady(s1, s2) && Steady(s2, s3)
    ensures Steady(s1, s3)
  {
  }

  /** The one place the snapshot matters: what each part of the invariant requires of a change. */
  lemma KeepsInv(v: Snapshot, s: State, t: State)
    requires Inv(v, s) && ModeKept(s, t)
    requires NoNewOverlap(s, t) || (HasMode(v) && !ManualInterlock(v))
    requires FeedbackKept(s, t) || HasFeedback(v)
    ensures Inv(v, t)
  {
  }

  lemma SteadyKeepsInv(v: Snapshot, s: State, t: State)
    requires Inv(v, s) && Steady(s, t)
    ensures Inv(v, t)
  {
    KeepsInv(v, s, t);
  }

  /** A mode change by command: the new mode is the stored one where the mode is stored. */
  lemma ModeChangeKeepsInv(v: Snapshot, s: State, t: State)
    requires Inv(v, s) && HasMode(v)
    requires PersistsMode(v) ==> t.mode.stored == Some(t.mode.auto)
    requires !PersistsMode(v) ==> t.mode.stored == s.mode.stored
    requires NoNewOverlap(s, t) && FeedbackKept(s, t)
    ensures Inv(v, t)
  {
  }

  lemma WhenKeepsInv(v: Snapshot, c: bool, t: State, s: State)
    requires Inv(v, t) && Inv(v, s)
    ensures Inv(v, When(c, t, s))
  {
  }

  // ------------------------------------------------------------- commands

  lemma DemoteKeepsInv(v: Snapshot, s: State, msg: string)
    requires Inv(v, s) && HasMode(v)
    ensures Inv(v, Demote(v, s, msg))
  {
    var t := Demote(v, s, msg);
    if AutoDemotion(v) && IsManualCommand(msg) && s.mode.auto {
      assert t.mode == Mode(false, Some(false));
      ModeChangeKeepsInv(v, s, t);
    } else {
      assert Steady(s, t);
      SteadyKeepsInv(v, s, t);
    }
  }

  lemma StopKeepsInv(v: Snapshot, s: State, inp: Inputs)
    requires HasMode(v) && Inv(v, s)
    ensures Inv(v, Execute(v, s, Stop, inp))
  {
    var t := Execute(v, s, Stop, inp);
    assert !t.pump.running && !t.mode.auto && FeedbackKept(s, t);
    assert t.mode.stored == if PersistsMode(v) then Some(false) else s.mode.stored;
    ModeChangeKeepsInv(v, s, t);
  }

  lemma ModeKeepsInv(v: Snapshot, s: State, auto: bool, inp: Inputs)
    requires HasMode(v) && Inv(v, s)
    ensures Inv(v, Execute(v, s, if auto then AutoOn else AutoOff, inp))
  {
    var t := Execute(v, s, if auto then AutoOn else AutoOff, inp);
    assert t.mode.auto == auto && t.pump == s.pump && t.fert == s.fert;
    assert t.mode.stored == if PersistsMode(v) then Some(auto) else s.mode.stored;
    ModeChangeKeepsInv(v, s, t);
  }

  lemma SwitchOnKeepsInv(v: Snapshot, s: State, a: Actuator, now: Millis)
    requires HasMode(v) && Inv(v, s)
    ensures Inv(v, LogIf(Verbose(v), Touch(v, Start(InterlockStep(v, s, a), a, now), now), ManualSwitch(a, true)))
  {
    var t := LogIf(Verbose(v), Touch(v, Start(InterlockStep(v, s, a), a, now), now), ManualSwitch(a, true));
    assert ModeKept(s, t) && FeedbackKept(s, t);
    assert ManualInterlock(v) ==> !Running(t, Other(a));
    KeepsInv(v, s, t);
  }

  lemma ExecuteKeepsInv(v: Snapshot, s: State, cmd: Command, inp: Inputs)
    requires HasMode(v) && Inv(v, s)
    ensures Inv(v, Execute(v, s, cmd, inp))
  {
    match cmd
    case Stop =>
      StopKeepsInv(v, s, inp);
    case AutoOn =>
      ModeKeepsInv(v, s, true, inp);
    case AutoOff =>
      ModeKeepsInv(v, s, false, inp);
    case Switch(a, on) =>
      if !on || Tripped(v, inp, a) {
        assert Steady(s, Execute(v, s, cmd, inp));
        SteadyKeepsInv(v, s, Execute(v, s, cmd, inp));
      } else {
        SwitchOnKeepsInv(v, s, a, inp.now);
      }
    case Unrecognised =>
  }

  lemma CommandKeepsInv(v: Snapshot, s: State, msg: string, inp: Inputs)
    requires HasMode(v) && Inv(v, s)
    ensures Inv(v, ApplyCommand(v, s, msg, inp))
  {
    DemoteKeepsInv(v, s, msg);
    ExecuteKeepsInv(v, Demote(v, s, msg), ParseCommand(v, msg), inp);
  }

  // --------------------------------------------------------------- phases

  lemma SenseSteady(v: Snapshot, s: State, inp: Inputs)
    ensures Steady(s, Sense(v, s, inp))
  {
  }

  lemma SilentSteady(s: State, a: Actuator, tripped: bool)
    ensures Steady(s, OverloadSilent(s, a, tripped))
    ensures Steady(s, OverloadEachStop(s, a, tripped))
  {
  }

  lemma OnEdgeSteady(v: Snapshot, s: State, a: Actuator, tripped: bool, now: Millis)
    ensures Steady(s, OverloadOnEdge(v, s, a, tripped, now))
  {
  }

  lemma OverloadActuatorSteady(v: Snapshot, s: State, a: Actuator, tripped: bool, now: Millis)
    ensures Steady(s, OverloadActuator(v, s, a, tripped, now))
  {
    SilentSteady(s, a, tripped);
    OnEdgeSteady(v, s, a, tripped, now);
  }

  lemma OverloadPhaseSteady(v: Snapshot, s: State, inp: Inputs)
    ensures Steady(s, OverloadPhase(v, s, inp))
  {
    var p := OverloadActuator(v, s, Pump, inp.pumpTripped, inp.now);
    OverloadActuatorSteady(v, s, Pump, inp.pumpTripped, inp.now);
    OverloadActuatorSteady(v, p, Fertilizer, inp.fertTripped, inp.now);
    SteadyTrans(s, p, OverloadPhase(v, s, inp));
  }

  lemma FeedbackKeepsInv(v: Snapshot, s: State, inp: Inputs)
    requires Inv(v, s)
    ensures Inv(v, FeedbackPhase(v, s, inp))
  {
    var t := FeedbackPhase(v, s, inp);
    assert ModeKept(s, t) && t.pump.running == s.pump.running && t.fert.running == s.fert.running;
    assert !HasFeedback(v) ==> FeedbackKept(s, t);
    KeepsInv(v, s, t);
  }

  lemma ScheduleSteady(v: Snapshot, s: State, inp: Inputs)
    ensures Steady(s, SchedulePhase(v, s, inp))
  {
  }

  lemma IrrigationSteady(v: Snapshot, s: State, inp: Inputs, r: Reading)
    ensures Steady(s, IrrigationPhase(v, s, inp, r))
  {
  }

  lemma LockoutSteady(v: Snapshot, s: State, now: Millis)
    ensures Steady(s, LockoutPhase(v, s, now))
  {
  }

  lemma BodyKeepsInv(v: Snapshot, s: State, inp: Inputs)
    requires Inv(v, s)
    ensures Inv(v, ControlBody(v, s, inp))
  {
    var r := Classify(v, s, inp);
    var s1 := Sense(v, s, inp);
    SenseSteady(v, s, inp);
    var s2 := OverloadPhase(v, s1, inp);
    OverloadPhaseSteady(v, s1, inp);
    SteadyTrans(s, s1, s2);
    SteadyKeepsInv(v, s, s2);
    var s3 := FeedbackPhase(v, s2, inp);
    FeedbackKeepsInv(v, s2, inp);
    var s4 := SchedulePhase(v, s3, inp);
    ScheduleSteady(v, s3, inp);
    var s5 := IrrigationPhase(v, s4, inp, r);
    IrrigationSteady(v, s4, inp, r);
    SteadyTrans(s3, s4, s5);
    var s6 := LockoutPhase(v, s5, inp.now);
    LockoutSteady(v, s5, inp.now);
    SteadyTrans(s3, s5, s6);
    SteadyKeepsInv(v, s3, s6);
  }

  // ---------------------------------------------------------------- cycle

  /** The bookkeeping of the poll and upload timers changes nothing the invariant reads. */
  lemma TimersSteady(s: State, now: Millis)
    ensures Steady(s, s.(timers := s.timers.(lastPoll := now)))
    ensures Steady(s, s.(timers := s.timers.(lastUpload := now)))
  {
  }

  lemma TalkBackKeepsInv(v: Snapshot, s: State, inp: Inputs)
    requires HasMode(v) && Inv(v, s)
    ensures Inv(v, TalkBackPhase(v, s, inp))
  {
    var s1 := s.(timers := s.timers.(lastPoll := inp.now));
    TimersSteady(s, inp.now);
    SteadyKeepsInv(v, s, s1);
    CommandKeepsInv(v, s1, Message(inp), inp);
    var due := Elapsed(inp.now, s.timers.lastPoll) > PollInterval(v);
    WhenKeepsInv(v, due, s1, s);
    WhenKeepsInv(v, due && |Message(inp)| > 0, ApplyCommand(v, s1, Message(inp), inp), When(due, s1, s));
  }

  lemma MqttCycleKeepsInv(v: Snapshot, s: State, inp: Inputs)
    requires Inv(v, s) && ViaMqtt(v) && inp.wifi
    ensures Inv(v, Cycle(v, s, inp).state)
  {
    var s0 := When(inp.command.Some?, ApplyCommand(v, s, Message(inp), inp), s);
    CommandKeepsInv(v, s, Message(inp), inp);
    WhenKeepsInv(v, inp.command.Some?, ApplyCommand(v, s, Message(inp), inp), s);
    BodyKeepsInv(v, s0, inp);
  }

  lemma UploadKeepsInv(v: Snapshot, s: State, now: Millis)
    requires Inv(v, s)
    ensures Inv(v, s.(timers := s.timers.(lastUpload := now)))
  {
    TimersSteady(s, now);
    SteadyKeepsInv(v, s, s.(timers := s.timers.(lastUpload := now)));
  }

  lemma PolledCommandsKeepInv(v: Snapshot, s: State, inp: Inputs)
    requires Inv(v, s)
    ensures Inv(v, When(ViaTalkBack(v), TalkBackPhase(v, s, inp), s))
  {
    if ViaTalkBack(v) {
      TalkBackKeepsInv(v, s, inp);
      WhenKeepsInv(v, true, TalkBackPhase(v, s, inp), s);
    } else {
      WhenKeepsInv(v, false, s, s);
      assert When(false, TalkBackPhase(v, s, inp), s) == When(false, s, s);
    }
  }

  lemma PolledCycleKeepsInv(v: Snapshot, s: State, inp: Inputs)
    requires Inv(v, s) && !ViaMqtt(v) && inp.wifi
    ensures Inv(v, Cycle(v, s, inp).state)
  {
    var s1 := ControlBody(v, s, inp);
    BodyKeepsInv(v, s, inp);
    var s2 := When(ViaTalkBack(v), TalkBackPhase(v, s1, inp), s1);
    PolledCommandsKeepInv(v, s1, inp);
    UploadKeepsInv(v, s2, inp.now);
  }

  /** Every cycle keeps the invariant, whatever arrives and whatever the sensors read. */
  lemma CycleKeepsInv(v: Snapshot, s: State, inp: Inputs)
    requires Inv(v, s)
    ensures Inv(v, Cycle(v, s, inp).state)
  {
    if inp.wifi {
      if ViaMqtt(v) {
        MqttCycleKeepsInv(v, s, inp);
      } else {
        PolledCycleKeepsInv(v, s, inp);
      }
    }
  }

  lemma {:induction false} RunKeepsInv(v: Snapshot, s: State, inps: seq<Inputs>)
    requires Inv(v, s)
    ensures Inv(v, Run(v, s, inps))
    decreases |inps|
  {
    if |inps| > 0 {
      CycleKeepsInv(v, s, inps[0]);
      RunKeepsInv(v, Cycle(v, s, inps[0]).state, inps[1..]);
    }
  }

  /** From boot on, pump and fertiliser are never on together (all snapshots but v6.0). */
  lemma NeverBothRunning(v: Snapshot, stored: Option<bool>, boot: Millis, inps: seq<Inputs>)
    requires !v.V6_0?
    ensures Exclusive(Run(v, InitialState(v, stored, boot), inps))
  {
    InitialStateValid(v, stored, boot);
    RunKeepsInv(v, InitialState(v, stored, boot), inps);
  }
}
