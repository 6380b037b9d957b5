/*
 * Sensor classification (the first phase of every cycle) and the
 * edge-triggered sensor-fault alert of v10.4 and later.
 */
module SensingFacts {
  import opened Common
  import opened Snapshots
  import opened Control
  import SoilMapping
  import Modbus

  /**
   * The analog snapshots: an error is a failed climate reading or a raw soil
   * value of 0; the percentage is in [0, 100]; dry and wet are the raw
   * thresholds 3576 and 1993 of the probe's calibration.
   */
  lemma AnalogClassification(inp: Inputs)
    ensures AnalogReading(inp).error <==> !inp.climateOk || inp.soilRaw == 0
    ensures 0 <= AnalogReading(inp).moisture <= 100
    ensures AnalogReading(inp).dry <==> inp.soilRaw > 3576
    ensures AnalogReading(inp).wet <==> inp.soilRaw <= 1993
    ensures !(AnalogReading(inp).dry && AnalogReading(inp).wet)
  {
    SoilMapping.DryThreshold(inp.soilRaw);
    SoilMapping.WetThreshold(inp.soilRaw);
  }

  /** A fault alert is sent exactly on a false-to-true change, and the flag follows the reading. */
  lemma FaultAlertOnRisingEdge(v: Snapshot, s: State, inp: Inputs)
    requires EdgeAlerts(v)
    ensures Sense(v, s, inp).sensor.lastError == Classify(v, s, inp).error
    ensures Occurrences(Sense(v, s, inp).log, SensorFault)
         == Occurrences(s.log, SensorFault) + (if Classify(v, s, inp).error && !s.sensor.lastError then 1 else 0)
  {
    var r := Classify(v, s, inp);
    var s1 := When(BusSensor(v), BusRead(s, inp), s);
    assert s1.log == s.log && s1.sensor.lastError == s.sensor.lastError;
  }

  /** While a fault persists, no further alert is sent. */
  lemma NoRepeatedFaultAlert(v: Snapshot, s: State, inp: Inputs)
    requires EdgeAlerts(v) && s.sensor.lastError
    ensures Occurrences(Sense(v, s, inp).log, SensorFault) == Occurrences(s.log, SensorFault)
  {
    FaultAlertOnRisingEdge(v, s, inp);
  }

  /** Before v10.4 a fault is only reported through the status word: sensing changes nothing. */
  lemma SilentSensing(v: Snapshot, s: State, inp: Inputs)
    requires !EdgeAlerts(v) && !BusSensor(v)
    ensures Sense(v, s, inp) == s
  {
  }

  // ---------------------------------------------------------- RS-485 probe

  /** Between queries (2000 ms), the stored registers are judged again and nothing is read. */
  lemma BusBetweenQueries(s: State, inp: Inputs)
    requires !BusDue(s, inp)
    ensures BusRead(s, inp) == s
    ensures BusReading(s, inp).moisture == s.sensor.soil.moisture as int
    ensures BusReading(s, inp).error <==> s.sensor.soil.moisture as int == 0
  {
  }

  /** A due query whose reply is missing or has a wrong header is an error and keeps the old registers. */
  lemma BusFailedQuery(s: State, inp: Inputs)
    requires BusDue(s, inp)
    requires inp.busReply.None? || !Modbus.HeaderOk(inp.busReply.value)
    ensures BusRead(s, inp).sensor.soil == s.sensor.soil
    ensures BusRead(s, inp).sensor.lastRead == inp.now
    ensures BusReading(s, inp).error
  {
  }

  /**
   * A due query answered by the probe with the registers `regs`: the firmware
   * stores them with moisture and temperature exchanged, and judges the soil
   * on the probe's temperature register.
   */
  lemma BusGoodQuery(s: State, inp: Inputs, regs: Modbus.SoilRegisters)
    requires BusDue(s, inp)
    requires inp.busReply == Some(Modbus.EncodeReply(regs))
    ensures BusRead(s, inp).sensor.soil == regs.(moisture := regs.temperature, temperature := regs.moisture)
    ensures BusReading(s, inp).error <==> regs.temperature as int == 0
    ensures BusReading(s, inp).dry <==> regs.temperature as int < 2000
    ensures BusReading(s, inp).wet <==> regs.temperature as int > 8000
  {
    Modbus.DecodeAsWrittenSwaps(regs);
  }

  /** The DHT is zeroed before its NaN test in v11.0, so the climate reading never raises an error. */
  lemma BusIgnoresClimate(s: State, inp: Inputs)
    ensures BusReading(s, inp.(climateOk := false)) == BusReading(s, inp.(climateOk := true))
  {
  }

  /** The soil thresholds of v11.0 are the percentages 20 and 80 in hundredths. */
  lemma BusThresholds(s: State, inp: Inputs)
    ensures BusReading(s, inp).dry <==> BusReading(s, inp).moisture < SoilLow * 100
    ensures BusReading(s, inp).wet <==> BusReading(s, inp).moisture > SoilHigh * 100
    ensures !(BusReading(s, inp).dry && BusReading(s, inp).wet)
  {
  }
}
