/** The live state of one simulated waste-bin sensor and the rule that
    advances it by one tick.  The random draws of the running program are
    parameters here: each tick receives a `Noise` whose three components lie
    in the ranges the program draws them from. */
module Sensor {
  import opened Options

  /** Largest fill level, in percent. */
  const FillMax: real := 100.0
  /** Temperature range, in degrees Celsius. */
  const TempMin: real := 15.0
  const TempMax: real := 40.0
  /** Humidity range, in percent. */
  const HumMin: real := 20.0
  const HumMax: real := 80.0
  /** The relay switches on above this fill level. */
  const RelayThreshold: real := 90.0

  /** Per-tick noise ranges: fill grows by [0.5, 3.0], temperature moves by
      [-1, 1] and humidity by [-2, 2]. */
  const FillStepMin: real := 0.5
  const FillStepMax: real := 3.0
  const TempStep: real := 1.0
  const HumStep: real := 2.0

  /** Ranges of the randomly chosen starting values. */
  const InitFillMax: real := 20.0
  const InitTempMin: real := 18.0
  const InitTempMax: real := 25.0
  const InitHumMin: real := 30.0
  const InitHumMax: real := 60.0

  /** The relay flag, written "ON" or "OFF" in readings. */
  datatype Relay = On | Off {
    function Text(): string
    {
      if On? then "ON" else "OFF"
    }
  }

  /** The relay flag a text stands for, if any. */
  function ParseRelay(s: string): (r: Option<Relay>)
    ensures r.Some? <==> s == "ON" || s == "OFF"
  {
    if s == "ON" then Some(On)
    else if s == "OFF" then Some(Off)
    else None
  }

  /** Relay text and parsing are inverse to each other. */
  lemma RelayTextRoundTrip(r: Relay, s: string)
    ensures ParseRelay(r.Text()) == Some(r)
    ensures ParseRelay(s) == Some(r) ==> r.Text() == s
  {
  }

  /** The unrounded physical state of one bin. */
  datatype SensorState = SensorState(
    fillLevel: real,
    temperature: real,
    humidity: real,
    relay: Relay)

  /** The three random increments of one tick. */
  datatype Noise = Noise(fill: real, temperature: real, humidity: real)

  predicate NoiseInRange(n: Noise)
  {
    && FillStepMin <= n.fill <= FillStepMax
    && -TempStep <= n.temperature <= TempStep
    && -HumStep <= n.humidity <= HumStep
  }

  /** The relay is on exactly when the bin is nearly full. */
  predicate RelayMatchesFill(s: SensorState)
  {
    s.relay == On <==> s.fillLevel > RelayThreshold
  }

  /** Every field within its physical range, and the relay consistent with
      the fill level. */
  predicate Valid(s: SensorState)
  {
    && 0.0 <= s.fillLevel <= FillMax
    && TempMin <= s.temperature <= TempMax
    && HumMin <= s.humidity <= HumMax
    && RelayMatchesFill(s)
  }

  function Min(a: real, b: real): real
  {
    if b < a then b else a
  }

  function Max(a: real, b: real): real
  {
    if b > a then b else a
  }

  /** `max(lo, min(hi, x))`: `x` forced into `[lo, hi]`. */
  function Clamp(lo: real, hi: real, x: real): (r: real)
    requires lo <= hi
    ensures lo <= r <= hi
    ensures lo <= x <= hi ==> r == x
    ensures x < lo ==> r == lo
    ensures x > hi ==> r == hi
  {
    Max(lo, Min(hi, x))
  }

  /** The state a sensor starts in, from its three random starting values. */
  function Init(fill0: real, temp0: real, hum0: real): (s: SensorState)
    requires 0.0 <= fill0 <= InitFillMax
    requires InitTempMin <= temp0 <= InitTempMax
    requires InitHumMin <= hum0 <= InitHumMax
    ensures Valid(s)
    ensures s.relay == Off
    ensures s.fillLevel == fill0 && s.temperature == temp0 && s.humidity == hum0
  {
    SensorState(fill0, temp0, hum0, Off)
  }

  /** One tick of the sensor: fill grows and is capped at 100 from above
      only, temperature and humidity drift and are clamped on both sides,
      and the relay follows the new fill level. */
  function Advance(s: SensorState, n: Noise): (s': SensorState)
    requires NoiseInRange(n)
    ensures s'.fillLevel <= FillMax
    ensures s'.fillLevel <= s.fillLevel + n.fill
    ensures s'.fillLevel == FillMax || s'.fillLevel == s.fillLevel + n.fill
    ensures TempMin <= s'.temperature <= TempMax
    ensures HumMin <= s'.humidity <= HumMax
    ensures TempMin <= s.temperature + n.temperature <= TempMax ==>
      s'.temperature == s.temperature + n.temperature
    ensures HumMin <= s.humidity + n.humidity <= HumMax ==>
      s'.humidity == s.humidity + n.humidity
    ensures s.temperature + n.temperature < TempMin ==> s'.temperature == TempMin
    ensures s.temperature + n.temperature > TempMax ==> s'.temperature == TempMax
    ensures s.humidity + n.humidity < HumMin ==> s'.humidity == HumMin
    ensures s.humidity + n.humidity > HumMax ==> s'.humidity == HumMax
    ensures RelayMatchesFill(s')
  {
    var fill := Min(FillMax, s.fillLevel + n.fill);
    SensorState(
      fill,
      Clamp(TempMin, TempMax, s.temperature + n.temperature),
      Clamp(HumMin, HumMax, s.humidity + n.humidity),
      if fill > RelayThreshold then On else Off)
  }

  /** Temperature and humidity land in range even from an out-of-range
      state, and the fill level stays non-negative because its increment is
      positive: a non-negative fill level is all an advance needs to produce
      a valid state. */
  lemma AdvanceValid(s: SensorState, n: Noise)
    requires NoiseInRange(n)
    requires s.fillLevel >= 0.0
    ensures Valid(Advance(s, n))
  {
  }

  /** The fill level never goes down, and exactly because it is never above
      100: a fill level above 100 would be cut back to 100. */
  lemma AdvanceFillMonotone(s: SensorState, n: Noise)
    requires NoiseInRange(n)
    ensures Advance(s, n).fillLevel >= s.fillLevel <==> s.fillLevel <= FillMax
    ensures s.fillLevel < FillMax ==> Advance(s, n).fillLevel > s.fillLevel
  {
  }

  /** Once the relay is on it stays on. */
  lemma RelayLatches(s: SensorState, n: Noise)
    requires NoiseInRange(n)
    requires Valid(s)
    requires s.relay == On
    ensures Advance(s, n).relay == On
  {
  }

  /** The state after a run of ticks, one `Noise` per tick. */
  function Trajectory(s: SensorState, noises: seq<Noise>): (s': SensorState)
    requires forall i :: 0 <= i < |noises| ==> NoiseInRange(noises[i])
    ensures Valid(s) ==> Valid(s')
    ensures Valid(s) ==> s'.fillLevel >= s.fillLevel
    ensures Valid(s) && s.relay == On ==> s'.relay == On
    ensures s'.fillLevel <= s.fillLevel + |noises| as real * FillStepMax
    decreases |noises|
  {
    if |noises| == 0 then s
    else Trajectory(Advance(s, noises[0]), noises[1..])
  }

  /** Advancing a run of ticks followed by one more tick is advancing the
      longer run. */
  lemma {:induction false} TrajectorySnoc(s: SensorState, noises: seq<Noise>, n: Noise)
    requires forall i :: 0 <= i < |noises| ==> NoiseInRange(noises[i])
    requires NoiseInRange(n)
    ensures Trajectory(s, noises + [n]) == Advance(Trajectory(s, noises), n)
    decreases |noises|
  {
    if |noises| == 0 {
      assert noises + [n] == [n];
    } else {
      assert (noises + [n])[1..] == noises[1..] + [n];
      TrajectorySnoc(Advance(s, noises[0]), noises[1..], n);
    }
  }
}
