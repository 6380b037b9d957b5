/*
 * The automatic paths (daily fertiliser job, moisture-driven irrigation) and
 * the 10-minute pump runtime lockout that runs in every mode.
 */
module AutomationFacts {
  import opened Common
  import opened Snapshots
  import opened Control

  // ------------------------------------------------------------ schedule

  /** The job's guard: auto mode, a synchronised clock, no fertiliser overload. */
  predicate ScheduleActive(v: Snapshot, s: State, inp: Inputs) {
    s.mode.auto && inp.clock.Some? && !Tripped(v, inp, Fertilizer)
  }

  /** Outside its guard the job does nothing at all. */
  lemma ScheduleIdle(v: Snapshot, s: State, inp: Inputs)
    requires !ScheduleActive(v, s, inp)
    ensures SchedulePhase(v, s, inp) == s
  {
  }

  /** At 08:00, with the job not yet done and the fertiliser off: the pump stops, the fertiliser starts, the job is marked done. */
  lemma ScheduleStartsAtEight(v: Snapshot, s: State, inp: Inputs)
    requires ScheduleActive(v, s, inp) && IsMinuteStart(inp.clock.value, FertHour)
    requires !s.fert.running && !s.fertDoneToday
    ensures SchedulePhase(v, s, inp).fert == s.fert.(running := true, since := inp.now)
    ensures !SchedulePhase(v, s, inp).pump.running
    ensures SchedulePhase(v, s, inp).fertDoneToday
  {
  }

  /** Once done, the job does not start again before the midnight reset. */
  lemma ScheduleOncePerDay(v: Snapshot, s: State, inp: Inputs)
    requires s.fertDoneToday && !s.fert.running
    ensures !SchedulePhase(v, s, inp).fert.running
    ensures SchedulePhase(v, s, inp).pump == s.pump
  {
  }

  /** A running job is stopped once 600000 ms have passed since it started. */
  lemma ScheduleStopsAfterDuration(v: Snapshot, s: State, inp: Inputs)
    requires ScheduleActive(v, s, inp) && s.fert.running
    requires Elapsed(inp.now, s.fert.since) >= FertDurationMs
    ensures !SchedulePhase(v, s, inp).fert.running
  {
  }

  /** At 00:00 the job is re-armed. */
  lemma ScheduleMidnightReset(v: Snapshot, s: State, inp: Inputs)
    requires ScheduleActive(v, s, inp) && IsMinuteStart(inp.clock.value, 0)
    ensures !SchedulePhase(v, s, inp).fertDoneToday
  {
  }

  /** The job only ever starts the fertiliser with the pump off, and never starts the pump. */
  lemma ScheduleExclusive(v: Snapshot, s: State, inp: Inputs)
    ensures SchedulePhase(v, s, inp).fert.running ==> !SchedulePhase(v, s, inp).pump.running || s.fert.running
    ensures SchedulePhase(v, s, inp).pump.running ==> s.pump.running
  {
  }

  // ---------------------------------------------------------- irrigation

  /** The guards under which irrigation may act at all. */
  predicate IrrigationClear(v: Snapshot, s: State, inp: Inputs, r: Reading) {
    !s.alarm && !Tripped(v, inp, Pump) && !r.error
  }

  /**
   * The pump is started by irrigation exactly when the mode is automatic, the
   * soil is dry, neither actuator runs, and no lockout, overload or sensor
   * error is present.
   */
  lemma IrrigationStart(v: Snapshot, s: State, inp: Inputs, r: Reading)
    requires !s.pump.running
    ensures IrrigationPhase(v, s, inp, r).pump.running
        <==> s.mode.auto && r.dry && !s.fert.running && IrrigationClear(v, s, inp, r)
    ensures IrrigationPhase(v, s, inp, r).pump.running ==> IrrigationPhase(v, s, inp, r).pump.since == inp.now
  {
  }

  /** A running pump is stopped in automatic mode on wet soil (with the guards clear), a sensor error or an overload. */
  lemma IrrigationStop(v: Snapshot, s: State, inp: Inputs, r: Reading)
    requires s.pump.running && s.mode.auto && !r.dry
    ensures !IrrigationPhase(v, s, inp, r).pump.running
        <==> (r.wet && IrrigationClear(v, s, inp, r)) || r.error || Tripped(v, inp, Pump)
  {
  }

  /** A latched alarm alone does not stop a running pump (the lockout has already stopped it). */
  lemma AlarmAloneKeepsPump(v: Snapshot, s: State, inp: Inputs, r: Reading)
    requires s.pump.running && s.alarm && !r.error && !Tripped(v, inp, Pump)
    ensures IrrigationPhase(v, s, inp, r).pump.running
  {
  }

  /** In manual mode irrigation does nothing; it never touches the fertiliser. */
  lemma IrrigationFrame(v: Snapshot, s: State, inp: Inputs, r: Reading)
    ensures !s.mode.auto ==> IrrigationPhase(v, s, inp, r) == s
    ensures IrrigationPhase(v, s, inp, r).fert == s.fert
  {
  }

  // -------------------------------------------------------------- lockout

  /** Whole minutes of runtime reach 10 exactly when 600000 ms have passed. */
  lemma RuntimeThreshold(s: State, now: Millis)
    ensures RuntimeExceeded(s, now) <==> Elapsed(now, s.pump.since) >= 600000
  {
  }

  /** After 10 minutes the pump is stopped and the alarm latched, in any mode. */
  lemma LockoutLatches(v: Snapshot, s: State, now: Millis)
    requires s.pump.running && Elapsed(now, s.pump.since) >= 600000
    ensures !LockoutPhase(v, s, now).pump.running && LockoutPhase(v, s, now).alarm
  {
    RuntimeThreshold(s, now);
  }

  /** Whenever the pump is still on after the lockout, it has run for less than 10 minutes. */
  lemma LockoutBoundsRuntime(v: Snapshot, s: State, now: Millis)
    ensures LockoutPhase(v, s, now).pump.running ==> Elapsed(now, LockoutPhase(v, s, now).pump.since) < 600000
    ensures s.alarm ==> LockoutPhase(v, s, now).alarm
  {
    RuntimeThreshold(s, now);
  }
}
