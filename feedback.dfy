/*
 * `checkFeedback` (v10.7 and v11.0): after a 2000 ms grace period following
 * any switching operation, the commanded state of each actuator is compared
 * with its contactor; a mismatch raises the latch and alerts once, agreement
 * clears it.
 */
module FeedbackFacts {
  import opened Common
  import opened Snapshots
  import opened Control

  /** The event a mismatch of `a` is reported as. */
  function MismatchAlert(s: State, a: Actuator): Event {
    if Running(s, a) then FailedToEnergize(a) else StuckEnergized(a)
  }

  /** Within the grace period, and in the snapshots without feedback pins, nothing is checked. */
  lemma FeedbackGrace(v: Snapshot, s: State, inp: Inputs)
    requires !HasFeedback(v) || Elapsed(inp.now, s.timers.stateChange) < FeedbackGraceMs
    ensures FeedbackPhase(v, s, inp) == s
  {
  }

  /** One actuator's check: the latch is the mismatch, and an alert marks its onset only. */
  lemma CheckOne(s: State, a: Actuator, contactorOn: bool, e: Event)
    ensures LastFeedbackError(FeedbackActuator(s, a, contactorOn), a) == (Running(s, a) != contactorOn)
    ensures DriveOf(FeedbackActuator(s, a, contactorOn), Other(a)) == DriveOf(s, Other(a))
    ensures Running(FeedbackActuator(s, a, contactorOn), a) == Running(s, a)
    ensures Occurrences(FeedbackActuator(s, a, contactorOn).log, e)
         == Occurrences(s.log, e)
            + (if Running(s, a) != contactorOn && !LastFeedbackError(s, a) && e == MismatchAlert(s, a) then 1 else 0)
  {
    var mismatch := Running(s, a) != contactorOn;
  }

  /**
   * After the grace period: each latch equals the mismatch between command and
   * contactor, the running flags are left alone, and a mismatch alert is sent
   * for an actuator only when its latch was clear.
   */
  lemma FeedbackChecked(v: Snapshot, s: State, inp: Inputs, e: Event)
    requires HasFeedback(v) && Elapsed(inp.now, s.timers.stateChange) >= FeedbackGraceMs
    ensures s.pump.running == FeedbackPhase(v, s, inp).pump.running
    ensures s.fert.running == FeedbackPhase(v, s, inp).fert.running
    ensures FeedbackPhase(v, s, inp).pump.feedbackError == (s.pump.running != inp.pumpContactor)
    ensures FeedbackPhase(v, s, inp).fert.feedbackError == (s.fert.running != inp.fertContactor)
    ensures Occurrences(FeedbackPhase(v, s, inp).log, e)
         == Occurrences(s.log, e)
            + (if s.pump.running != inp.pumpContactor && !s.pump.feedbackError && e == MismatchAlert(s, Pump) then 1 else 0)
            + (if s.fert.running != inp.fertContactor && !s.fert.feedbackError && e == MismatchAlert(s, Fertilizer) then 1 else 0)
  {
    var p := FeedbackActuator(s, Pump, inp.pumpContactor);
    CheckOne(s, Pump, inp.pumpContactor, e);
    CheckOne(p, Fertilizer, inp.fertContactor, e);
    assert MismatchAlert(p, Fertilizer) == MismatchAlert(s, Fertilizer);
  }

  /** A mismatch that persists is reported once: with the latch set, no alert follows. */
  lemma PersistingMismatchSilent(v: Snapshot, s: State, inp: Inputs, e: Event)
    requires HasFeedback(v) && Elapsed(inp.now, s.timers.stateChange) >= FeedbackGraceMs
    requires s.pump.feedbackError && s.fert.feedbackError
    ensures Occurrences(FeedbackPhase(v, s, inp).log, e) == Occurrences(s.log, e)
  {
    FeedbackChecked(v, s, inp, e);
  }
}
