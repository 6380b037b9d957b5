/*
 * One overload alert per fault onset, over whole runs of the edge-triggered
 * snapshots (v10.4 onwards): however the commands, the schedule, irrigation
 * and the lockout interleave, the number of `OverloadTrip(a)` reports equals
 * the number of rising edges of actuator `a`'s relay input.
 */
module AlertFacts {
  import opened Common
  import opened Snapshots
  import opened Control
  import OverloadFacts

  /** `t` reports no new overload of `a` and remembers the same relay level for it. */
  predicate Quiet(s: State, t: State, a: Actuator) {
    Occurrences(t.log, OverloadTrip(a)) == Occurrences(s.log, OverloadTrip(a))
    && LastOverload(t, a) == LastOverload(s, a)
  }

  lemma QuietTrans(s1: State, s2: State, s3: State, a: Actuator)
    requires Quiet(s1, s2, a) && Quiet(s2, s3, a)
    ensures Quiet(s1, s3, a)
  {
  }

  // ---------------------------------------------- the phases that stay quiet

  lemma InterlockQuiet(v: Snapshot, s: State, b: Actuator, a: Actuator)
    ensures Quiet(s, InterlockStep(v, s, b), a)
  {
  }

  lemma SwitchQuiet(v: Snapshot, s: State, b: Actuator, on: bool, inp: Inputs, a: Actuator)
    ensures Quiet(s, Execute(v, s, Switch(b, on), inp), a)
  {
    if on && !Tripped(v, inp, b) {
      InterlockQuiet(v, s, b, a);
      var t := Start(InterlockStep(v, s, b), b, inp.now);
      assert LastOverload(t, a) == LastOverload(InterlockStep(v, s, b), a);
    }
  }

  lemma ExecuteQuiet(v: Snapshot, s: State, cmd: Command, inp: Inputs, a: Actuator)
    ensures Quiet(s, Execute(v, s, cmd, inp), a)
  {
    if cmd.Switch? {
      SwitchQuiet(v, s, cmd.a, cmd.on, inp, a);
    }
  }

  lemma CommandQuiet(v: Snapshot, s: State, msg: string, inp: Inputs, a: Actuator)
    ensures Quiet(s, ApplyCommand(v, s, msg, inp), a)
  {
    var d := Demote(v, s, msg);
    assert Quiet(s, d, a);
    ExecuteQuiet(v, d, ParseCommand(v, msg), inp, a);
  }

  lemma SenseQuiet(v: Snapshot, s: State, inp: Inputs, a: Actuator)
    ensures Quiet(s, Sense(v, s, inp), a)
  {
  }

  lemma FeedbackQuiet(v: Snapshot, s: State, inp: Inputs, a: Actuator)
    ensures Quiet(s, FeedbackPhase(v, s, inp), a)
  {
  }

  lemma ScheduleQuiet(v: Snapshot, s: State, inp: Inputs, a: Actuator)
    ensures Quiet(s, SchedulePhase(v, s, inp), a)
  {
  }

  lemma IrrigationQuiet(v: Snapshot, s: State, inp: Inputs, r: Reading, a: Actuator)
    ensures Quiet(s, IrrigationPhase(v, s, inp, r), a)
  {
  }

  lemma LockoutQuiet(v: Snapshot, s: State, now: Millis, a: Actuator)
    ensures Quiet(s, LockoutPhase(v, s, now), a)
  {
  }

  /** The other actuator's overload handling neither reports nor remembers anything about `a`. */
  lemma OtherOnEdgeQuiet(v: Snapshot, s: State, b: Actuator, tripped: bool, now: Millis)
    ensures Quiet(s, OverloadOnEdge(v, s, b, tripped, now), Other(b))
  {
  }

  // ------------------------------------------------------------- counting

  /** The phase that reports: one alert on the rising edge of `a`'s relay input, which it then remembers. */
  lemma OverloadPhaseCount(v: Snapshot, s: State, inp: Inputs, a: Actuator)
    requires Overload(v).AlertOnEdge?
    ensures Occurrences(OverloadPhase(v, s, inp).log, OverloadTrip(a))
         == Occurrences(s.log, OverloadTrip(a)) + (if Tripped(v, inp, a) && !LastOverload(s, a) then 1 else 0)
    ensures LastOverload(OverloadPhase(v, s, inp), a) == Tripped(v, inp, a)
  {
    var p := OverloadOnEdge(v, s, Pump, inp.pumpTripped, inp.now);
    if a.Pump? {
      OverloadFacts.OnEdgeAlertCount(v, s, Pump, inp.pumpTripped, inp.now);
      OtherOnEdgeQuiet(v, p, Fertilizer, inp.fertTripped, inp.now);
    } else {
      OtherOnEdgeQuiet(v, s, Pump, inp.pumpTripped, inp.now);
      OverloadFacts.OnEdgeAlertCount(v, p, Fertilizer, inp.fertTripped, inp.now);
    }
  }

  /** Everything after the overload phase. */
  lemma AfterOverloadQuiet(v: Snapshot, s: State, inp: Inputs, r: Reading, a: Actuator)
    ensures Quiet(s, LockoutPhase(v, IrrigationPhase(v, SchedulePhase(v, FeedbackPhase(v, s, inp), inp), inp, r), inp.now), a)
  {
    var s3 := FeedbackPhase(v, s, inp);
    FeedbackQuiet(v, s, inp, a);
    var s4 := SchedulePhase(v, s3, inp);
    ScheduleQuiet(v, s3, inp, a);
    QuietTrans(s, s3, s4, a);
    var s5 := IrrigationPhase(v, s4, inp, r);
    IrrigationQuiet(v, s4, inp, r, a);
    QuietTrans(s, s4, s5, a);
    LockoutQuiet(v, s5, inp.now, a);
    QuietTrans(s, s5, LockoutPhase(v, s5, inp.now), a);
  }

  /** One connected cycle of an edge-triggered snapshot. */
  lemma CycleCount(v: Snapshot, s: State, inp: Inputs, a: Actuator)
    requires Overload(v).AlertOnEdge? && inp.wifi
    ensures Occurrences(Cycle(v, s, inp).state.log, OverloadTrip(a))
         == Occurrences(s.log, OverloadTrip(a)) + (if Tripped(v, inp, a) && !LastOverload(s, a) then 1 else 0)
    ensures LastOverload(Cycle(v, s, inp).state, a) == Tripped(v, inp, a)
  {
    var s0 := When(inp.command.Some?, ApplyCommand(v, s, Message(inp), inp), s);
    CommandQuiet(v, s, Message(inp), inp, a);
    assert Quiet(s, s0, a);
    var s1 := Sense(v, s0, inp);
    SenseQuiet(v, s0, inp, a);
    var s2 := OverloadPhase(v, s1, inp);
    OverloadPhaseCount(v, s1, inp, a);
    AfterOverloadQuiet(v, s2, inp, Classify(v, s0, inp), a);
  }

  /**
   * The reference count: the connected cycles in which `a`'s relay input is
   * asserted and was not asserted in the previous connected cycle (`last` is
   * the level remembered before the first one).
   */
  function RisingEdges(v: Snapshot, last: bool, inps: seq<Inputs>, a: Actuator): nat
    decreases |inps|
  {
    if |inps| == 0 then 0
    else if !inps[0].wifi then RisingEdges(v, last, inps[1..], a)
    else (if Tripped(v, inps[0], a) && !last then 1 else 0) + RisingEdges(v, Tripped(v, inps[0], a), inps[1..], a)
  }

  /** Exactly one overload alert per fault onset, over any run of an edge-triggered snapshot. */
  lemma {:induction false} AlertsCountOnsets(v: Snapshot, s: State, inps: seq<Inputs>, a: Actuator)
    requires Overload(v).AlertOnEdge?
    ensures Occurrences(Run(v, s, inps).log, OverloadTrip(a))
         == Occurrences(s.log, OverloadTrip(a)) + RisingEdges(v, LastOverload(s, a), inps, a)
    decreases |inps|
  {
    if |inps| > 0 {
      var t := Cycle(v, s, inps[0]).state;
      if inps[0].wifi {
        CycleCount(v, s, inps[0], a);
      }
      AlertsCountOnsets(v, t, inps[1..], a);
    }
  }

  /** Held through connected cycles, the input rises at most once: at the start, if it was not remembered as asserted. */
  lemma {:induction false} HeldEdges(v: Snapshot, last: bool, inps: seq<Inputs>, a: Actuator)
    requires forall i :: 0 <= i < |inps| ==> inps[i].wifi && Tripped(v, inps[i], a)
    ensures RisingEdges(v, last, inps, a) == if |inps| > 0 && !last then 1 else 0
    decreases |inps|
  {
    if |inps| > 0 {
      assert forall i :: 0 <= i < |inps[1..]| ==> inps[1..][i] == inps[i + 1];
      HeldEdges(v, true, inps[1..], a);
    }
  }

  /** A relay held tripped through any number of connected cycles is reported once. */
  lemma HeldOverloadReportedOnce(v: Snapshot, s: State, inps: seq<Inputs>, a: Actuator)
    requires Overload(v).AlertOnEdge? && !LastOverload(s, a) && |inps| > 0
    requires forall i :: 0 <= i < |inps| ==> inps[i].wifi && Tripped(v, inps[i], a)
    ensures Occurrences(Run(v, s, inps).log, OverloadTrip(a)) == Occurrences(s.log, OverloadTrip(a)) + 1
  {
    AlertsCountOnsets(v, s, inps, a);
    HeldEdges(v, LastOverload(s, a), inps, a);
  }
}
