# Smart waste-bin sensor simulation — Dafny model

This project models the sensor-simulation core of a small smart-city telemetry
demo. The demo keeps a fixed roster of three waste bins. Each bin has a live
state: fill level, temperature, humidity and a relay flag. On every tick the
loop advances each bin's state by a random step. It then builds a reading from
the new state, with the measurements rounded to one decimal place and a status
label derived from the state. Each reading is published and inserted into a
table.

The model has six modules:

- `Options` (`options.dfy`): the `Option` type that the text parsers return.
- `Sensor` (`sensor.dfy`): the unrounded `SensorState` and the per-tick noise.
  `Init` gives the start state. `Advance` is the update rule: fill is capped at
  100 from above only, temperature and humidity are clamped on both sides, and
  the relay follows the new fill. `Trajectory` runs many ticks of one sensor.
  The random draws are `Noise` parameters, limited to the ranges the program
  draws them from.
- `Status` (`status.dfy`): the four status labels and `Classify`, the
  first-match-wins classifier over the unrounded state. `FirstMatch` is a
  reference definition of the precedence list that `Classify` is proved
  equal to.
- `Rounding` (`rounding.dfy`): `round(x, 1)` on exact reals. It rounds to the
  nearest tenth, and a tie goes to the even tenth.
- `Readings` (`readings.dfy`): the emitted `Reading` record, `Snapshot` (state
  to reading), `ReadSensors` (advance, then snapshot) and the `WellFormed`
  predicate, which says what a reading's own fields guarantee.
- `Network` (`network.dfy`): the roster, the publish topic and the loop body.
  `Tick` is one pass over the roster. It appends one reading per bin, in
  roster order, to an append-only log (a `seq`) that stands for the database
  table. `Run` is a finite number of ticks.

Two details of the code shape what can be proved, and the model follows the
code in both:

- The fill update is capped only from above, by `min(100, …)` (ecobin.py:25);
  nothing keeps it from falling below 0. The model keeps the one-sided cap and
  proves the lower bound instead: the increment is at least 0.5 and the start
  value is at least 0 (`Sensor.AdvanceValid`, `Sensor.Trajectory`).
- Relay and status come from the unrounded state (ecobin.py:28, 38, 41-48),
  while the reading holds rounded values (ecobin.py:34-36). So "relay ON
  exactly when fill level > 90", and a status recomputed from the reading's
  own numbers, do not hold of every reading; only the weaker statements in
  `Readings.WellFormed` do. `Readings.ReadingMayHideRelay` and
  `Readings.ReadingMayHideAlert` give concrete states where the reading's
  numbers alone would give a different relay flag or status.

## Model

| member | source | states |
|---|---|---|
| Sensor.Init | ecobin.py:16-22 | A sensor starts with fill in [0, 20], temperature in [18, 25], humidity in [30, 60] and the relay off; that state is valid (all ranges hold and the relay agrees with fill) |
| Sensor.Clamp | ecobin.py:26-27 | `max(lo, min(hi, x))` lies in [lo, hi], is `x` when `x` is in range, and is the nearer bound otherwise |
| Sensor.Advance | ecobin.py:24-28 | After one tick: fill is at most 100 and is either 100 or old fill plus its increment; temperature is in [15, 40] and humidity in [20, 80] from any prior value, move by exactly their noise when that stays in range, and otherwise stop at the bound they crossed; the relay is on exactly when the new fill exceeds 90 |
| Sensor.AdvanceValid | ecobin.py:19-28 | A non-negative fill level is all an advance needs to reach a fully valid state; no two-sided clamp on fill is needed |
| Sensor.AdvanceFillMonotone | ecobin.py:25 | Fill never goes down exactly when it is at most 100, and strictly rises below 100 |
| Sensor.RelayLatches | ecobin.py:25-28 | From a valid state with the relay on, the relay stays on after the next tick |
| Sensor.Trajectory | ecobin.py:24-28 | Over any number of ticks from a valid state: the state stays valid, fill never decreases, an on relay stays on, and fill grows by at most 3 per tick |
| Sensor.TrajectorySnoc | ecobin.py:24-28 | Running n ticks and then one more equals running n+1 ticks: a sensor's state evolves strictly tick by tick |
| Sensor.ParseRelay | ecobin.py:28 | Exactly the texts "ON" and "OFF" name a relay state |
| Sensor.RelayTextRoundTrip | ecobin.py:28 | Relay text and parsing are inverse |
| Status.Classify | ecobin.py:41-48 | The returned status's own rule fires on the state, and no rule earlier in the order alert, urgent, warning, normal fires |
| Status.ClassifyIsFirstMatch | ecobin.py:41-48 | `Classify` equals the first firing rule of the precedence list read by the independent `FirstMatch` |
| Status.ClassifyCases | ecobin.py:42-48 | Each status in terms of the state alone, both directions: alert iff temperature > 35; urgent iff temperature <= 35 and fill > 90; warning iff temperature <= 35 and 75 < fill <= 90; normal iff temperature <= 35 and fill <= 75 |
| Status.ClassifyExamples | ecobin.py:42-47 | Temperature 36 with fill 95 is an alert; fill 75 is normal, 75.1 and 90 are warning, 90.1 is urgent |
| Status.RelayOnIsUrgentOrAlert | ecobin.py:28-45 | With the relay consistent with fill, an on relay means urgent or alert and never normal or warning, and urgent means the relay is on |
| Status.ParseLabel | ecobin.py:41-48 | Exactly the four status labels are recognised |
| Status.LabelRoundTrip | ecobin.py:41-48 | Label and parsing are inverse, so the four labels are distinct |
| Rounding.RoundTenth | ecobin.py:34-36 | The rounded value is a whole number of tenths within 0.05 of the input |
| Rounding.RoundTenthTiesToEven | ecobin.py:34-36 | A value exactly halfway between two tenths rounds to the one with an even number of tenths, as Python's `round` does on a tie |
| Rounding.RoundTenthFixesTenths | ecobin.py:34-36 | A value that is already a whole number of tenths is unchanged by rounding |
| Rounding.RoundTenthMonotone | ecobin.py:34-36 | Rounding preserves order |
| Rounding.RoundTenthRespectsTenth | ecobin.py:34-36 | Rounding never crosses a whole number of tenths |
| Rounding.RoundTenthKeepsRange | ecobin.py:34-36 | Rounding keeps a value inside a range whose ends are whole numbers of tenths |
| Readings.Snapshot | ecobin.py:30-39 | The reading carries the bin's id, location and timestamp; each measurement is the state's value rounded to one decimal (`RoundTenth`: a whole number of tenths within 0.05 of it); relay and status are those of the unrounded state |
| Readings.SnapshotWellFormed | ecobin.py:30-39 | A valid state gives a reading whose rounded values are in range and agree with relay and status up to rounding |
| Readings.ReadSensors | ecobin.py:24-39 | One sensor read advances the state by one tick and returns the snapshot of the new state: the bin's id, location and the given timestamp, each measurement the new state's rounded to one decimal, and the new state's relay flag and status; the new state has temperature and humidity in range and fill at most 100; from a non-negative fill the state is valid and the reading well formed; fill does not decrease from at most 100 |
| Readings.ReadingMayHideRelay | ecobin.py:28-38 | A valid state with fill 90.04 has relay on and is urgent, but its reading shows fill exactly 90.0, at which relay off and warning would follow |
| Readings.ReadingMayHideAlert | ecobin.py:35-43 | A state at 35.04 degrees is an alert, but its reading shows exactly 35.0 degrees, which on its own is normal |
| Network.Topic | ecobin.py:114 | The topic is the prefix, a slash, then the bin id |
| Network.TopicInjective | ecobin.py:114 | Two bins share a topic exactly when they share a bin id |
| Network.InitialBins | ecobin.py:102-106 | The start-up roster is the three named bins, in order, each in a valid state with its relay off and with exactly its drawn starting fill, temperature and humidity |
| Network.Tick | ecobin.py:112-116 | One tick keeps the roster's length, appends exactly one reading per bin, and leaves earlier log entries untouched |
| Network.TickElementwise | ecobin.py:112-116 | Bin i keeps its identity and gets the state its own sensor read produced; that read's reading sits at position i of the appended part |
| Network.TickTagged | ecobin.py:112-116 | A tick keeps the bins' identities, and the appended readings carry, in roster order, each bin's id, location and sample timestamp |
| Network.TickKeepsValid | ecobin.py:112-113 | A tick keeps every valid bin valid |
| Network.TickWellFormed | ecobin.py:112-116 | A tick from valid bins appends only well-formed readings |
| Network.TickReadingFill | ecobin.py:25-34 | In a tick, bin i's reading shows its advanced fill rounded, at least its rounded fill before the tick |
| Network.Run | ecobin.py:111-116 | A run keeps the roster's length and the earlier log, and each tick's slice of the log is complete |
| Network.RunLength | ecobin.py:111-116 | n ticks over k bins append exactly n * k readings |
| Network.RunIdentities | ecobin.py:111-116 | A run never changes bin identities |
| Network.RunTaggedAt | ecobin.py:111-116 | Tick t's slice of the log holds one reading per bin in roster order, with that bin's id, location and tick-t timestamp |
| Network.RunTagged | ecobin.py:111-116 | Every tick's slice of the log is tagged that way |
| Network.RunValid | ecobin.py:111-116 | A run from valid bins keeps them valid and appends only well-formed readings |
| Network.RunFirstReading | ecobin.py:111-116 | The first tick's reading of bin i shows its advanced fill rounded, no lower than its rounded fill before the run |
| Network.RunFillAt | ecobin.py:111-116 | Bin i's reading at tick t1 shows a fill at least its rounded starting fill and at most the fill it shows at any later tick t2 |
| Network.RunFillChronological | ecobin.py:111-116 | For every bin, the fill levels its readings show never decrease along the log |
| Network.RunTrajectory | ecobin.py:111-113 | Over a run, bin i ends in the state its own sensor reaches from its start under the noise it receives in each tick, whatever the other bins do |
| Network.RunSensorBounds | ecobin.py:111-113 | Over a run from valid bins, each bin stays valid, its fill does not fall and grows by at most 3 per tick, and a relay that was on stays on |
| Network.ThreeBinsTenTicks | ecobin.py:102-116 | The start-up roster run for ten ticks appends exactly thirty well-formed readings and keeps the earlier log |

## Left out

- MQTT: client creation, `connect`, the connect and disconnect callbacks with their reconnect, `publish`, and `loop_start`/`loop_stop` (ecobin.py:81-100, 115, 128-129). These are network I/O on a background thread. Only the topic string is modelled.
- SQLite: schema creation, insert and the "most recent 10 by timestamp" query (ecobin.py:50-79, 145). These are storage-engine calls. The table is an append-only `seq` of readings.
- The tkinter viewer and the thread start-up (ecobin.py:131-163). These are UI and concurrency.
- `random.uniform`: the starting values and per-tick increments are parameters with the same closed ranges.
- `datetime.now().strftime` (ecobin.py:33): each reading's timestamp is a string given with the bin's sample.
- `json.dumps` payload serialisation (ecobin.py:115), `print` logging (ecobin.py:118-123) and `time.sleep` (ecobin.py:125).
- The endless `while True` loop and its `KeyboardInterrupt` exit (ecobin.py:111, 126-129): `Network.Run` covers any finite number of ticks.
- A failing insert and an abrupt stop: the loop catches only `KeyboardInterrupt` (ecobin.py:126), so an exception from `save_to_database` (ecobin.py:116, for example a locked database) ends the loop partway through a tick. The bins already handled in that tick have been advanced and stored, and the failing bin has been advanced and published but not stored. Under `__main__` the loop runs in a daemon thread (ecobin.py:160), which is killed at any point when the process exits. `Network.Run` models only complete ticks in which every insert succeeds, so `Network.RunLength`'s n * k readings is a statement about completed ticks.
- Floating point: state values and the rounding are exact reals. A double such as 0.15 lies just below the tie, so Python rounds it to 0.1, whereas `Rounding.RoundTenth` rounds the exact 0.15 to 0.2. Drift from accumulated float error is not modelled either.
- Sensor.Advance: requires the noise to lie in the ranges `random.uniform` draws from. The program has no such check; the bound comes from `random.uniform`.
