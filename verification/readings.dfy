/** The reading a sensor emits each tick: a snapshot of the live state with
    the three measurements rounded to one decimal place, the relay flag of
    the state and the status of the state. */
module Readings {
  import opened Sensor
  import opened Status
  import opened Rounding

  /** Name and place of a bin, fixed when the bin is created. */
  datatype BinIdentity = BinIdentity(binId: string, location: string)

  /** One emitted reading.  The timestamp is the wall-clock text supplied
      by the caller. */
  datatype Reading = Reading(
    binId: string,
    location: string,
    timestamp: string,
    fillLevel: real,
    temperature: real,
    humidity: real,
    relay: Relay,
    status: Status)

  /** The reading built from a bin's live state: the measurements are
      rounded, while relay and status are those of the unrounded state. */
  function Snapshot(id: BinIdentity, s: SensorState, timestamp: string): (r: Reading)
    ensures r.binId == id.binId && r.location == id.location && r.timestamp == timestamp
    ensures -0.05 <= r.fillLevel - s.fillLevel <= 0.05
    ensures -0.05 <= r.temperature - s.temperature <= 0.05
    ensures -0.05 <= r.humidity - s.humidity <= 0.05
    ensures r.relay == s.relay && r.status == Classify(s)
    ensures r.fillLevel == RoundTenth(s.fillLevel)
    ensures r.temperature == RoundTenth(s.temperature)
    ensures r.humidity == RoundTenth(s.humidity)
  {
    Reading(
      id.binId,
      id.location,
      timestamp,
      RoundTenth(s.fillLevel),
      RoundTenth(s.temperature),
      RoundTenth(s.humidity),
      s.relay,
      Classify(s))
  }

  /** What can be said of a reading from its own fields: rounded values in
      range, and relay and status agreeing with the rounded values as far
      as rounding allows (a value just above a threshold may round down
      onto it). */
  predicate WellFormed(r: Reading)
  {
    && 0.0 <= r.fillLevel <= FillMax
    && TempMin <= r.temperature <= TempMax
    && HumMin <= r.humidity <= HumMax
    && (r.fillLevel > RelayThreshold ==> r.relay == On)
    && (r.relay == On ==> r.fillLevel >= RelayThreshold)
    && (r.status == Alert ==> r.temperature >= HighTemperature)
    && (r.status != Alert ==> r.temperature <= HighTemperature)
    && (r.status == Urgent ==> r.relay == On)
    && (r.relay == On ==> r.status == Urgent || r.status == Alert)
    && (r.status == Warning ==> GettingFull <= r.fillLevel <= NearlyFull)
    && (r.status == Normal ==> r.fillLevel <= GettingFull)
  }

  /** A valid state yields a well-formed reading. */
  lemma SnapshotWellFormed(id: BinIdentity, s: SensorState, timestamp: string)
    requires Valid(s)
    ensures WellFormed(Snapshot(id, s, timestamp))
  {
    var r := Snapshot(id, s, timestamp);
    RoundTenthKeepsRange(s.fillLevel, 0, 1000);
    RoundTenthKeepsRange(s.temperature, 150, 400);
    RoundTenthKeepsRange(s.humidity, 200, 800);
    RoundTenthRespectsTenth(s.fillLevel, 900);
    RoundTenthRespectsTenth(s.fillLevel, 750);
    RoundTenthRespectsTenth(s.temperature, 350);
    ClassifyCases(s);
  }

  /** One call of the sensor: advance the state with the tick's noise, then
      take the reading of the new state.  The reading carries the bin's
      identity and the given timestamp, measurements within rounding of the
      new state's, and the new state's relay flag and status. */
  function ReadSensors(id: BinIdentity, s: SensorState, n: Noise, timestamp: string): (r: (SensorState, Reading))
    requires NoiseInRange(n)
    ensures r.0 == Advance(s, n)
    ensures r.1 == Snapshot(id, r.0, timestamp)
    ensures r.1.binId == id.binId && r.1.location == id.location && r.1.timestamp == timestamp
    ensures -0.05 <= r.1.fillLevel - r.0.fillLevel <= 0.05
    ensures -0.05 <= r.1.temperature - r.0.temperature <= 0.05
    ensures -0.05 <= r.1.humidity - r.0.humidity <= 0.05
    ensures r.1.relay == r.0.relay && r.1.status == Classify(r.0)
    ensures r.0.fillLevel <= FillMax && TempMin <= r.0.temperature <= TempMax
    ensures HumMin <= r.0.humidity <= HumMax
    ensures s.fillLevel >= 0.0 ==> Valid(r.0) && WellFormed(r.1)
    ensures s.fillLevel <= FillMax ==> r.0.fillLevel >= s.fillLevel
  {
    var s' := Advance(s, n);
    if s.fillLevel >= 0.0 then
      AdvanceValid(s, n);
      SnapshotWellFormed(id, s', timestamp);
      (s', Snapshot(id, s', timestamp))
    else
      (s', Snapshot(id, s', timestamp))
  }

  /** Relay and status follow the unrounded state, so the reading's own
      numbers do not decide them: a valid state with fill level 90.04 has its
      relay on and is urgent, yet its reading shows a fill level of exactly
      90.0, at which the relay would be off and the bin only getting full. */
  lemma ReadingMayHideRelay(id: BinIdentity, timestamp: string)
    ensures var s := SensorState(90.04, 20.0, 50.0, On);
      var r := Snapshot(id, s, timestamp);
      && Valid(s)
      && r.relay == On && r.status == Urgent
      && r.fillLevel == RelayThreshold
      && Classify(SensorState(r.fillLevel, r.temperature, r.humidity, r.relay)) == Warning
  {
    assert (900.4).Floor == 900;
    assert (200.0).Floor == 200;
    assert (500.0).Floor == 500;
  }

  /** Likewise for temperature: a state at 35.04 degrees is an alert, while
      its reading shows 35.0 degrees, which on its own is no alert. */
  lemma ReadingMayHideAlert(id: BinIdentity, timestamp: string)
    ensures var s := SensorState(10.0, 35.04, 50.0, Off);
      var r := Snapshot(id, s, timestamp);
      && Valid(s)
      && r.status == Alert
      && r.temperature == HighTemperature
      && Classify(SensorState(r.fillLevel, r.temperature, r.humidity, r.relay)) == Normal
  {
    assert (350.4).Floor == 350;
    assert (100.0).Floor == 100;
    assert (500.0).Floor == 500;
  }
}
