/** The simulation loop over a fixed roster of bins: each tick advances every
    bin in roster order and appends its reading to an append-only log, the
    abstract stand-in for the table every reading is inserted into. */
module Network {
  import opened Sensor
  import opened Status
  import opened Readings
  import opened Rounding

  /** Readings of bin `b` are published under `TopicPrefix + "/" + b`. */
  const TopicPrefix: string := "smart_city/waste"

  /** The three bins the program simulates. */
  const Roster: seq<BinIdentity> := [
    BinIdentity("EBIN001", "City Center"),
    BinIdentity("EBIN002", "Main Street"),
    BinIdentity("EBIN003", "Park Area")
  ]

  /** The publish topic of a bin. */
  function Topic(id: BinIdentity): (t: string)
    ensures |t| == |TopicPrefix| + 1 + |id.binId|
    ensures t[..|TopicPrefix|] == TopicPrefix && t[|TopicPrefix|] == '/'
    ensures t[|TopicPrefix| + 1..] == id.binId
  {
    TopicPrefix + "/" + id.binId
  }

  /** Two bins share a topic exactly when they share a bin id. */
  lemma TopicInjective(a: BinIdentity, b: BinIdentity)
    ensures Topic(a) == Topic(b) <==> a.binId == b.binId
  {
    if Topic(a) == Topic(b) {
      assert a.binId == Topic(a)[|TopicPrefix| + 1..] == Topic(b)[|TopicPrefix| + 1..] == b.binId;
    }
  }

  /** A bin of the roster: its fixed identity and its live state. */
  datatype Bin = Bin(id: BinIdentity, state: SensorState)

  /** What the outside world supplies for one bin in one tick: the random
      increments and the wall-clock text. */
  datatype Sample = Sample(noise: Noise, timestamp: string)

  /** The random starting values of one bin. */
  datatype Start = Start(fill: real, temperature: real, humidity: real)

  predicate StartInRange(s: Start)
  {
    && 0.0 <= s.fill <= InitFillMax
    && InitTempMin <= s.temperature <= InitTempMax
    && InitHumMin <= s.humidity <= InitHumMax
  }

  predicate SamplesInRange(samples: seq<Sample>)
  {
    forall i :: 0 <= i < |samples| ==> NoiseInRange(samples[i].noise)
  }

  /** A schedule of ticks: one sample per bin for each tick. */
  predicate ScheduleFits(schedule: seq<seq<Sample>>, k: nat)
  {
    forall t :: 0 <= t < |schedule| ==> |schedule[t]| == k && SamplesInRange(schedule[t])
  }

  predicate AllValid(bins: seq<Bin>)
  {
    forall i :: 0 <= i < |bins| ==> Valid(bins[i].state)
  }

  predicate SameIdentities(a: seq<Bin>, b: seq<Bin>)
  {
    |a| == |b| && forall i :: 0 <= i < |a| ==> a[i].id == b[i].id
  }

  /** One reading per bin, position by position: each carries its bin's
      identity and the timestamp of its sample. */
  predicate Tagged(readings: seq<Reading>, bins: seq<Bin>, samples: seq<Sample>)
    requires |samples| == |bins|
  {
    && |readings| == |bins|
    && forall i :: 0 <= i < |bins| ==>
         && readings[i].binId == bins[i].id.binId
         && readings[i].location == bins[i].id.location
         && readings[i].timestamp == samples[i].timestamp
  }

  /** The readings the `t`-th tick appended to a log that held `base`
      entries before the first tick, for a roster of `k` bins; empty if the
      log is too short to hold them. */
  function TickSlice(log: seq<Reading>, base: nat, k: nat, t: nat): seq<Reading>
    decreases t
  {
    if t > 0 then TickSlice(log, base + k, k, t - 1)
    else if base + k <= |log| then log[base..base + k]
    else []
  }

  /** The roster at start-up: every bin of `Roster` with its random starting
      values and its relay off. */
  function InitialBins(starts: seq<Start>): (bins: seq<Bin>)
    requires |starts| == |Roster|
    requires forall i :: 0 <= i < |starts| ==> StartInRange(starts[i])
    ensures |bins| == |Roster| && AllValid(bins)
    ensures forall i :: 0 <= i < |bins| ==> bins[i].id == Roster[i] && bins[i].state.relay == Off
    ensures forall i :: 0 <= i < |bins| ==> bins[i].state.fillLevel == starts[i].fill
    ensures forall i :: 0 <= i < |bins| ==>
      bins[i].state.temperature == starts[i].temperature && bins[i].state.humidity == starts[i].humidity
  {
    seq(|starts|, i requires 0 <= i < |starts| && StartInRange(starts[i]) =>
      Bin(Roster[i], Init(starts[i].fill, starts[i].temperature, starts[i].humidity)))
  }

  /** One tick: every bin, in roster order, reads its sensors and its
      reading is appended to the log.  The roster keeps its length, the log
      grows by one reading per bin, and earlier entries stay put. */
  function Tick(bins: seq<Bin>, samples: seq<Sample>, log: seq<Reading>): (r: (seq<Bin>, seq<Reading>))
    requires |samples| == |bins| && SamplesInRange(samples)
    ensures |r.0| == |bins|
    ensures |r.1| == |log| + |bins| && r.1[..|log|] == log
    decreases |bins|
  {
    if |bins| == 0 then (bins, log)
    else
      var step := ReadSensors(bins[0].id, bins[0].state, samples[0].noise, samples[0].timestamp);
      var rest := Tick(bins[1..], samples[1..], log + [step.1]);
      ([Bin(bins[0].id, step.0)] + rest.0, rest.1)
  }

  /** A tick is `ReadSensors` applied to each bin in roster order: bin `i`
      keeps its identity, gets the state its sensors advanced to, and the
      reading it took lands at position `i` of the appended part. */
  lemma {:induction false} TickElementwise(bins: seq<Bin>, samples: seq<Sample>, log: seq<Reading>, i: nat)
    requires |samples| == |bins| && SamplesInRange(samples)
    requires i < |bins|
    ensures var r := Tick(bins, samples, log);
      var step := ReadSensors(bins[i].id, bins[i].state, samples[i].noise, samples[i].timestamp);
      && r.0[i] == Bin(bins[i].id, step.0)
      && r.1[|log| + i] == step.1
    decreases |bins|
  {
    var step0 := ReadSensors(bins[0].id, bins[0].state, samples[0].noise, samples[0].timestamp);
    var rest := Tick(bins[1..], samples[1..], log + [step0.1]);
    if i == 0 {
      assert rest.1[..|log| + 1] == log + [step0.1];
      assert rest.1[|log|] == (log + [step0.1])[|log|];
    } else {
      TickElementwise(bins[1..], samples[1..], log + [step0.1], i - 1);
    }
  }

  /** A tick keeps the identities of the bins and appends one reading per
      bin in roster order, carrying that bin's identity and the timestamp of
      its sample. */
  lemma TickTagged(bins: seq<Bin>, samples: seq<Sample>, log: seq<Reading>)
    requires |samples| == |bins| && SamplesInRange(samples)
    ensures var r := Tick(bins, samples, log);
      SameIdentities(r.0, bins) && Tagged(r.1[|log|..], bins, samples)
  {
    var r := Tick(bins, samples, log);
    forall i | 0 <= i < |bins|
      ensures r.0[i].id == bins[i].id
      ensures r.1[|log|..][i] == r.1[|log| + i]
      ensures r.1[|log| + i].binId == bins[i].id.binId
      ensures r.1[|log| + i].location == bins[i].id.location
      ensures r.1[|log| + i].timestamp == samples[i].timestamp
    {
      TickElementwise(bins, samples, log, i);
    }
  }

  /** A tick keeps every valid bin valid. */
  lemma TickKeepsValid(bins: seq<Bin>, samples: seq<Sample>, log: seq<Reading>)
    requires |samples| == |bins| && SamplesInRange(samples)
    requires AllValid(bins)
    ensures AllValid(Tick(bins, samples, log).0)
  {
    var r := Tick(bins, samples, log);
    forall i | 0 <= i < |bins|
      ensures Valid(r.0[i].state)
    {
      assert Valid(bins[i].state);
      TickElementwise(bins, samples, log, i);
    }
  }

  /** A tick from valid bins appends only well-formed readings. */
  lemma TickWellFormed(bins: seq<Bin>, samples: seq<Sample>, log: seq<Reading>)
    requires |samples| == |bins| && SamplesInRange(samples)
    requires AllValid(bins)
    ensures var r := Tick(bins, samples, log);
      forall j :: |log| <= j < |r.1| ==> WellFormed(r.1[j])
  {
    var r := Tick(bins, samples, log);
    forall j | |log| <= j < |r.1|
      ensures WellFormed(r.1[j])
    {
      var i := j - |log|;
      assert Valid(bins[i].state);
      TickElementwise(bins, samples, log, i);
    }
  }

  /** If the first tick's readings are all present and every later tick's
      slice, counted from the end of the first, is complete, then every
      tick's slice is complete. */
  lemma SlicesComplete(log: seq<Reading>, base: nat, k: nat, n: nat, later: nat)
    requires later == base + k <= |log|
    requires forall t :: 0 <= t < n - 1 ==> |TickSlice(log, later, k, t)| == k
    ensures forall t :: 0 <= t < n ==> |TickSlice(log, base, k, t)| == k
  {
    forall t | 0 <= t < n
      ensures |TickSlice(log, base, k, t)| == k
    {
      if t > 0 {
        TickSliceShift(log, base, k, t);
      }
    }
  }

  /** `n` ticks in a row, one row of the schedule per tick: the log grows by
      one complete tick slice of `|bins|` readings per tick, and the entries
      it held before stay put. */
  function Run(bins: seq<Bin>, schedule: seq<seq<Sample>>, log: seq<Reading>): (r: (seq<Bin>, seq<Reading>))
    requires ScheduleFits(schedule, |bins|)
    ensures |r.0| == |bins|
    ensures |r.1| >= |log| && r.1[..|log|] == log
    ensures forall t :: 0 <= t < |schedule| ==> |TickSlice(r.1, |log|, |bins|, t)| == |bins|
    decreases |schedule|
  {
    if |schedule| == 0 then (bins, log)
    else
      var next := Tick(bins, schedule[0], log);
      var r := Run(next.0, schedule[1..], next.1);
      assert r.1[..|log|] == r.1[..|next.1|][..|log|];
      SlicesComplete(r.1, |log|, |bins|, |schedule|, |next.1|);
      r
  }

  /** `n` ticks over `k` bins append exactly `n * k` readings. */
  lemma {:induction false} RunLength(bins: seq<Bin>, schedule: seq<seq<Sample>>, log: seq<Reading>)
    requires ScheduleFits(schedule, |bins|)
    ensures |Run(bins, schedule, log).1| == |log| + |schedule| * |bins|
    decreases |schedule|
  {
    if |schedule| > 0 {
      var next := Tick(bins, schedule[0], log);
      RunUnfold(bins, schedule, log);
      RunLength(next.0, schedule[1..], next.1);
      assert |schedule| * |bins| == |bins| + (|schedule| - 1) * |bins|;
    }
  }

  /** Tick `t` of a run starting from a log of `base` entries is tick `t - 1`
      of the run that starts one tick later. */
  lemma TickSliceShift(log: seq<Reading>, base: nat, k: nat, t: nat)
    requires t >= 1
    ensures TickSlice(log, base, k, t) == TickSlice(log, base + k, k, t - 1)
  {
  }

  /** A run is its first tick followed by the run of the remaining ticks,
      and the log after the first tick is a prefix of the final log. */
  lemma RunUnfold(bins: seq<Bin>, schedule: seq<seq<Sample>>, log: seq<Reading>)
    requires ScheduleFits(schedule, |bins|)
    requires |schedule| > 0
    ensures var next := Tick(bins, schedule[0], log);
      && ScheduleFits(schedule[1..], |next.0|)
      && Run(bins, schedule, log) == Run(next.0, schedule[1..], next.1)
      && |next.1| <= |Run(bins, schedule, log).1|
      && Run(bins, schedule, log).1[..|next.1|] == next.1
  {
  }

  /** Tick `t > 0` of a run is tick `t - 1` of the run that starts after
      the first tick. */
  lemma RunSliceShift(bins: seq<Bin>, schedule: seq<seq<Sample>>, log: seq<Reading>, t: nat)
    requires ScheduleFits(schedule, |bins|)
    requires 0 < t < |schedule|
    ensures var next := Tick(bins, schedule[0], log);
      && ScheduleFits(schedule[1..], |next.0|)
      && TickSlice(Run(bins, schedule, log).1, |log|, |bins|, t)
           == TickSlice(Run(next.0, schedule[1..], next.1).1, |next.1|, |next.0|, t - 1)
  {
    RunUnfold(bins, schedule, log);
    TickSliceShift(Run(bins, schedule, log).1, |log|, |bins|, t);
  }

  /** The first tick's slice of a run is what the first tick appended. */
  lemma RunFirstSlice(bins: seq<Bin>, schedule: seq<seq<Sample>>, log: seq<Reading>)
    requires ScheduleFits(schedule, |bins|)
    requires |schedule| > 0
    ensures var next := Tick(bins, schedule[0], log);
      TickSlice(Run(bins, schedule, log).1, |log|, |bins|, 0) == next.1[|log|..]
  {
    RunUnfold(bins, schedule, log);
  }

  /** A run does not change the identities of the bins. */
  lemma {:induction false} RunIdentities(bins: seq<Bin>, schedule: seq<seq<Sample>>, log: seq<Reading>)
    requires ScheduleFits(schedule, |bins|)
    ensures SameIdentities(Run(bins, schedule, log).0, bins)
    decreases |schedule|
  {
    if |schedule| > 0 {
      var next := Tick(bins, schedule[0], log);
      RunUnfold(bins, schedule, log);
      TickTagged(bins, schedule[0], log);
      RunIdentities(next.0, schedule[1..], next.1);
    }
  }

  /** Tick `t` of a run appends one reading per bin, in roster order, each
      carrying its bin's identity and the timestamp of its sample in that
      tick. */
  lemma {:induction false} RunTaggedAt(bins: seq<Bin>, schedule: seq<seq<Sample>>, log: seq<Reading>, t: nat)
    requires ScheduleFits(schedule, |bins|)
    requires t < |schedule|
    ensures Tagged(TickSlice(Run(bins, schedule, log).1, |log|, |bins|, t), bins, schedule[t])
    decreases |schedule|
  {
    var next := Tick(bins, schedule[0], log);
    if t == 0 {
      RunFirstSlice(bins, schedule, log);
      TickTagged(bins, schedule[0], log);
    } else {
      RunSliceShift(bins, schedule, log, t);
      TickTagged(bins, schedule[0], log);
      RunTaggedAt(next.0, schedule[1..], next.1, t - 1);
      assert schedule[t] == schedule[1..][t - 1];
    }
  }

  /** Every tick of a run appends one reading per bin, in roster order,
      each carrying its bin's identity and that tick's timestamp; the
      identities of the bins do not change. */
  lemma RunTagged(bins: seq<Bin>, schedule: seq<seq<Sample>>, log: seq<Reading>)
    requires ScheduleFits(schedule, |bins|)
    ensures var r := Run(bins, schedule, log);
      && SameIdentities(r.0, bins)
      && forall t :: 0 <= t < |schedule| ==> Tagged(TickSlice(r.1, |log|, |bins|, t), bins, schedule[t])
  {
    RunIdentities(bins, schedule, log);
    forall t | 0 <= t < |schedule|
      ensures Tagged(TickSlice(Run(bins, schedule, log).1, |log|, |bins|, t), bins, schedule[t])
    {
      RunTaggedAt(bins, schedule, log, t);
    }
  }

  /** A run from valid bins keeps every bin valid and appends only
      well-formed readings. */
  lemma {:induction false} RunValid(bins: seq<Bin>, schedule: seq<seq<Sample>>, log: seq<Reading>)
    requires ScheduleFits(schedule, |bins|)
    requires AllValid(bins)
    ensures var r := Run(bins, schedule, log);
      && AllValid(r.0)
      && forall j :: |log| <= j < |r.1| ==> WellFormed(r.1[j])
    decreases |schedule|
  {
    if |schedule| > 0 {
      var next := Tick(bins, schedule[0], log);
      var r := Run(bins, schedule, log);
      RunUnfold(bins, schedule, log);
      TickKeepsValid(bins, schedule[0], log);
      TickWellFormed(bins, schedule[0], log);
      RunValid(next.0, schedule[1..], next.1);
      forall j | |log| <= j < |r.1|
        ensures WellFormed(r.1[j])
      {
        if j < |next.1| {
          assert r.1[j] == next.1[j];
        }
      }
    }
  }

  /** In one tick, the reading of bin `i` shows the rounded fill level of
      its advanced state, which is no lower than its rounded fill level
      before the tick. */
  lemma TickReadingFill(bins: seq<Bin>, samples: seq<Sample>, log: seq<Reading>, i: nat)
    requires |samples| == |bins| && SamplesInRange(samples)
    requires i < |bins| && Valid(bins[i].state)
    ensures var r := Tick(bins, samples, log);
      && r.1[|log| + i].fillLevel == RoundTenth(r.0[i].state.fillLevel)
      && RoundTenth(bins[i].state.fillLevel) <= r.1[|log| + i].fillLevel
  {
    var r := Tick(bins, samples, log);
    TickElementwise(bins, samples, log, i);
    AdvanceFillMonotone(bins[i].state, samples[i].noise);
    RoundTenthMonotone(bins[i].state.fillLevel, r.0[i].state.fillLevel);
  }

  /** The reading bin `i` takes in the first tick of a run shows the
      rounded fill level of its advanced state, which is no lower than the
      rounded fill level it had before. */
  lemma RunFirstReading(bins: seq<Bin>, schedule: seq<seq<Sample>>, log: seq<Reading>, i: nat)
    requires ScheduleFits(schedule, |bins|)
    requires AllValid(bins)
    requires 0 < |schedule| && i < |bins|
    ensures var next := Tick(bins, schedule[0], log);
      var shown := TickSlice(Run(bins, schedule, log).1, |log|, |bins|, 0)[i].fillLevel;
      shown == RoundTenth(next.0[i].state.fillLevel)
      && RoundTenth(bins[i].state.fillLevel) <= shown
  {
    var k := |bins|;
    var next := Tick(bins, schedule[0], log);
    var r := Run(bins, schedule, log);
    RunUnfold(bins, schedule, log);
    TickReadingFill(bins, schedule[0], log, i);
    assert |next.1| == |log| + k;
    assert TickSlice(r.1, |log|, k, 0) == r.1[|log|..|log| + k];
    assert r.1[|log| + i] == next.1[|log| + i];
  }

  /** The fill level bin `i` shows at tick `t1` of a run is at least its
      rounded fill level before the run, and at most the one it shows at
      any later tick `t2`. */
  lemma {:induction false} RunFillAt(bins: seq<Bin>, schedule: seq<seq<Sample>>, log: seq<Reading>, t1: nat, t2: nat, i: nat)
    requires ScheduleFits(schedule, |bins|)
    requires AllValid(bins)
    requires t1 <= t2 < |schedule| && i < |bins|
    ensures var r := Run(bins, schedule, log);
      RoundTenth(bins[i].state.fillLevel)
        <= TickSlice(r.1, |log|, |bins|, t1)[i].fillLevel
        <= TickSlice(r.1, |log|, |bins|, t2)[i].fillLevel
    decreases |schedule|
  {
    var next := Tick(bins, schedule[0], log);
    RunFirstReading(bins, schedule, log, i);
    if t2 > 0 {
      TickKeepsValid(bins, schedule[0], log);
      RunSliceShift(bins, schedule, log, t2);
      if t1 == 0 {
        RunFillAt(next.0, schedule[1..], next.1, t2 - 1, t2 - 1, i);
      } else {
        RunSliceShift(bins, schedule, log, t1);
        RunFillAt(next.0, schedule[1..], next.1, t1 - 1, t2 - 1, i);
      }
    }
  }

  /** Per bin, the fill level the readings of a run show never goes down
      from one tick to a later one, and starts no lower than the rounded
      fill level the bin had before the run. */
  lemma RunFillChronological(bins: seq<Bin>, schedule: seq<seq<Sample>>, log: seq<Reading>)
    requires ScheduleFits(schedule, |bins|)
    requires AllValid(bins)
    ensures var r := Run(bins, schedule, log);
      forall t1, t2, i :: 0 <= t1 <= t2 < |schedule| && 0 <= i < |bins| ==>
        RoundTenth(bins[i].state.fillLevel)
          <= TickSlice(r.1, |log|, |bins|, t1)[i].fillLevel
          <= TickSlice(r.1, |log|, |bins|, t2)[i].fillLevel
  {
    var r := Run(bins, schedule, log);
    forall t1, t2, i | 0 <= t1 <= t2 < |schedule| && 0 <= i < |bins|
      ensures RoundTenth(bins[i].state.fillLevel)
        <= TickSlice(r.1, |log|, |bins|, t1)[i].fillLevel
        <= TickSlice(r.1, |log|, |bins|, t2)[i].fillLevel
    {
      RunFillAt(bins, schedule, log, t1, t2, i);
    }
  }

  /** The noise bin `i` receives in each tick of a schedule, in tick order. */
  function BinNoises(schedule: seq<seq<Sample>>, k: nat, i: nat): (ns: seq<Noise>)
    requires ScheduleFits(schedule, k) && i < k
    ensures |ns| == |schedule|
    ensures forall t :: 0 <= t < |ns| ==> ns[t] == schedule[t][i].noise && NoiseInRange(ns[t])
    decreases |schedule|
  {
    if |schedule| == 0 then []
    else [schedule[0][i].noise] + BinNoises(schedule[1..], k, i)
  }

  /** Within a run, every bin evolves on its own: bin `i` ends in the state
      its own sensor reaches from its start under the noise it receives in
      each tick, whatever the other bins do. */
  lemma {:induction false} RunTrajectory(bins: seq<Bin>, schedule: seq<seq<Sample>>, log: seq<Reading>, i: nat)
    requires ScheduleFits(schedule, |bins|)
    requires i < |bins|
    ensures Run(bins, schedule, log).0[i].state == Trajectory(bins[i].state, BinNoises(schedule, |bins|, i))
    decreases |schedule|
  {
    var ns := BinNoises(schedule, |bins|, i);
    if |schedule| == 0 {
      assert ns == [];
    } else {
      var next := Tick(bins, schedule[0], log);
      RunUnfold(bins, schedule, log);
      TickElementwise(bins, schedule[0], log, i);
      assert next.0[i].state == Advance(bins[i].state, ns[0]);
      RunTrajectory(next.0, schedule[1..], next.1, i);
      assert ns[1..] == BinNoises(schedule[1..], |next.0|, i);
    }
  }

  /** Over a run from valid bins, each bin stays valid, its fill level does
      not fall, a relay that was on stays on, and its fill level grows by
      at most 3 per tick. */
  lemma RunSensorBounds(bins: seq<Bin>, schedule: seq<seq<Sample>>, log: seq<Reading>, i: nat)
    requires ScheduleFits(schedule, |bins|)
    requires AllValid(bins) && i < |bins|
    ensures var s' := Run(bins, schedule, log).0[i].state;
      && Valid(s')
      && bins[i].state.fillLevel <= s'.fillLevel
      && s'.fillLevel <= bins[i].state.fillLevel + |schedule| as real * FillStepMax
      && (bins[i].state.relay == On ==> s'.relay == On)
  {
    assert Valid(bins[i].state);
    RunTrajectory(bins, schedule, log, i);
  }

  /** The start-up roster driven through ten ticks appends exactly thirty
      well-formed readings and leaves the earlier log untouched. */
  lemma ThreeBinsTenTicks(starts: seq<Start>, schedule: seq<seq<Sample>>, log: seq<Reading>)
    requires |starts| == |Roster|
    requires forall i :: 0 <= i < |starts| ==> StartInRange(starts[i])
    requires |schedule| == 10 && ScheduleFits(schedule, |Roster|)
    ensures var r := Run(InitialBins(starts), schedule, log);
      && |r.1| == |log| + 30
      && r.1[..|log|] == log
      && forall j :: |log| <= j < |r.1| ==> WellFormed(r.1[j])
  {
    RunLength(InitialBins(starts), schedule, log);
    RunValid(InitialBins(starts), schedule, log);
  }
}
