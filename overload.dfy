/*
 * The thermal-overload interlock (v7.0 and later): a tripped relay keeps its
 * actuator off. v10.4 and later alert once per rising edge of the relay
 * input; v8.x alert on every forced stop; v7.0 and v10.4.cpp (root) stop
 * silently.
 */
module OverloadFacts {
  import opened Common
  import opened Snapshots
  import opened Control

  /** What one actuator's overload step may do: only stop it, and leave the other actuator alone. */
  predicate Vetoed(s: State, t: State, a: Actuator, tripped: bool) {
    (tripped ==> !Running(t, a))
    && (!tripped ==> Running(t, a) == Running(s, a))
    && (Running(t, a) ==> Running(s, a))
    && DriveOf(t, Other(a)) == DriveOf(s, Other(a))
  }

  lemma SilentVeto(s: State, a: Actuator, tripped: bool)
    ensures Vetoed(s, OverloadSilent(s, a, tripped), a, tripped)
    ensures OverloadSilent(s, a, tripped).log == s.log
  {
  }

  lemma EachStopVeto(s: State, a: Actuator, tripped: bool)
    ensures Vetoed(s, OverloadEachStop(s, a, tripped), a, tripped)
  {
  }

  lemma OnEdgeVeto(v: Snapshot, s: State, a: Actuator, tripped: bool, now: Millis)
    ensures Vetoed(s, OverloadOnEdge(v, s, a, tripped, now), a, tripped)
    ensures LastOverload(OverloadOnEdge(v, s, a, tripped, now), a) == tripped
  {
  }

  /** Where the overload input is wired, a tripped relay leaves its actuator off, and nothing is started. */
  lemma ActuatorVeto(v: Snapshot, s: State, a: Actuator, tripped: bool, now: Millis)
    requires SensesOverload(v)
    ensures Vetoed(s, OverloadActuator(v, s, a, tripped, now), a, tripped)
  {
    match Overload(v)
    case SilentStop => SilentVeto(s, a, tripped);
    case AlertEachStop => EachStopVeto(s, a, tripped);
    case AlertOnEdge => OnEdgeVeto(v, s, a, tripped, now);
  }

  /** After the overload phase, an asserted overload input means that actuator is off. */
  lemma OverloadVeto(v: Snapshot, s: State, inp: Inputs)
    ensures Tripped(v, inp, Pump) ==> !OverloadPhase(v, s, inp).pump.running
    ensures Tripped(v, inp, Fertilizer) ==> !OverloadPhase(v, s, inp).fert.running
    ensures OverloadPhase(v, s, inp).pump.running ==> s.pump.running
    ensures OverloadPhase(v, s, inp).fert.running ==> s.fert.running
  {
    if SensesOverload(v) {
      var p := OverloadActuator(v, s, Pump, inp.pumpTripped, inp.now);
      ActuatorVeto(v, s, Pump, inp.pumpTripped, inp.now);
      ActuatorVeto(v, p, Fertilizer, inp.fertTripped, inp.now);
    }
  }

  /** v10.4 and later: one alert when the input rises, none while it stays asserted, and the latch follows the input. */
  lemma OnEdgeAlertCount(v: Snapshot, s: State, a: Actuator, tripped: bool, now: Millis)
    ensures Occurrences(OverloadOnEdge(v, s, a, tripped, now).log, OverloadTrip(a))
         == Occurrences(s.log, OverloadTrip(a)) + (if tripped && !LastOverload(s, a) then 1 else 0)
    ensures LastOverload(OverloadOnEdge(v, s, a, tripped, now), a) == tripped
    ensures LastOverload(OverloadOnEdge(v, s, a, tripped, now), Other(a)) == LastOverload(s, Other(a))
  {
    var edge := tripped && !LastOverload(s, a);
    var s0 := Touch(v, SetRunning(s, a, false), now);
    assert Occurrences(When(edge, LogIf(true, s0, OverloadTrip(a)), s).log, OverloadTrip(a))
        == Occurrences(s.log, OverloadTrip(a)) + (if edge then 1 else 0);
  }

  /** v8.x: one alert for every forced stop, and none when nothing was running. */
  lemma EachStopAlertCount(s: State, a: Actuator, tripped: bool)
    ensures Occurrences(OverloadEachStop(s, a, tripped).log, OverloadTrip(a))
         == Occurrences(s.log, OverloadTrip(a)) + (if tripped && Running(s, a) then 1 else 0)
  {
  }

  /** Overload steps applied while the input of `a` stays asserted (one per cycle). */
  function HeldTrip(v: Snapshot, s: State, a: Actuator, nows: seq<Millis>): State
    decreases |nows|
  {
    if |nows| == 0 then s else HeldTrip(v, OverloadOnEdge(v, s, a, true, nows[0]), a, nows[1..])
  }

  /** However long the relay stays tripped, the edge-triggered snapshots alert once, at the onset. */
  lemma {:induction false} HeldTripAlertsOnce(v: Snapshot, s: State, a: Actuator, nows: seq<Millis>)
    ensures Occurrences(HeldTrip(v, s, a, nows).log, OverloadTrip(a))
         == Occurrences(s.log, OverloadTrip(a)) + (if |nows| > 0 && !LastOverload(s, a) then 1 else 0)
    ensures |nows| > 0 ==> !Running(HeldTrip(v, s, a, nows), a) && LastOverload(HeldTrip(v, s, a, nows), a)
    decreases |nows|
  {
    if |nows| > 0 {
      var s1 := OverloadOnEdge(v, s, a, true, nows[0]);
      OnEdgeAlertCount(v, s, a, true, nows[0]);
      OnEdgeVeto(v, s, a, true, nows[0]);
      HeldTripAlertsOnce(v, s1, a, nows[1..]);
    }
  }
}
