/** The operational status of a bin, derived from its live (unrounded)
    sensor state by a first-match-wins list of strict thresholds. */
module Status {
  import opened Options
  import opened Sensor

  /** Above this temperature the bin raises an alert. */
  const HighTemperature: real := 35.0
  /** Above this fill level the bin is nearly full. */
  const NearlyFull: real := 90.0
  /** Above this fill level the bin is getting full. */
  const GettingFull: real := 75.0

  datatype Status = Normal | Warning | Urgent | Alert {
    /** The label written into readings. */
    function Label(): string
    {
      match this
      case Normal => "Normal"
      case Warning => "WARNING: Getting Full"
      case Urgent => "URGENT: Nearly Full"
      case Alert => "ALERT: High Temperature"
    }
  }

  /** The status a label stands for, if it is one of the four labels. */
  function ParseLabel(s: string): (r: Option<Status>)
    ensures r.Some? <==> s in {"Normal", "WARNING: Getting Full", "URGENT: Nearly Full", "ALERT: High Temperature"}
  {
    if s == "Normal" then Some(Normal)
    else if s == "WARNING: Getting Full" then Some(Warning)
    else if s == "URGENT: Nearly Full" then Some(Urgent)
    else if s == "ALERT: High Temperature" then Some(Alert)
    else None
  }

  /** Labels and parsing are inverse to each other, so the four labels are
      pairwise distinct. */
  lemma LabelRoundTrip(st: Status, s: string)
    ensures ParseLabel(st.Label()) == Some(st)
    ensures ParseLabel(s) == Some(st) ==> st.Label() == s
  {
  }

  /** The classification rules in the order they are tried. */
  const Precedence: seq<Status> := [Alert, Urgent, Warning, Normal]

  /** Whether the rule that yields `st` fires on state `s`, on its own,
      regardless of the rules tried before it. */
  predicate Fires(st: Status, s: SensorState)
  {
    match st
    case Alert => s.temperature > HighTemperature
    case Urgent => s.fillLevel > NearlyFull
    case Warning => s.fillLevel > GettingFull
    case Normal => true
  }

  /** Position of a status in `Precedence`. */
  function Rank(st: Status): (k: nat)
    ensures k < |Precedence| && Precedence[k] == st
  {
    match st
    case Alert => 0
    case Urgent => 1
    case Warning => 2
    case Normal => 3
  }

  /** The first rule of `rules` that fires on `s`: a reference reading of
      the precedence list, independent of `Classify`. */
  function FirstMatch(rules: seq<Status>, s: SensorState): Option<Status>
  {
    if |rules| == 0 then None
    else if Fires(rules[0], s) then Some(rules[0])
    else FirstMatch(rules[1..], s)
  }

  /** The status of a bin, from its live state.  The rule that fires is
      returned, and no rule tried before it fires: first match wins. */
  function Classify(s: SensorState): (st: Status)
    ensures Fires(st, s)
    ensures forall j :: 0 <= j < Rank(st) ==> !Fires(Precedence[j], s)
  {
    if s.temperature > HighTemperature then Alert
    else if s.fillLevel > NearlyFull then Urgent
    else if s.fillLevel > GettingFull then Warning
    else Normal
  }

  /** `Classify` is the first match of the precedence list. */
  lemma ClassifyIsFirstMatch(s: SensorState)
    ensures FirstMatch(Precedence, s) == Some(Classify(s))
  {
    var p1 := [Urgent, Warning, Normal];
    var p2 := [Warning, Normal];
    var p3 := [Normal];
    assert Precedence[1..] == p1 && p1[1..] == p2 && p2[1..] == p3;
    assert FirstMatch(p3, s) == Some(Normal);
    assert FirstMatch(p2, s) == if Fires(Warning, s) then Some(Warning) else Some(Normal);
  }

  /** Each status in terms of the state alone: a high temperature wins over
      any fill level, and the fill thresholds are strict. */
  lemma ClassifyCases(s: SensorState)
    ensures Classify(s) == Alert <==> s.temperature > HighTemperature
    ensures Classify(s) == Urgent <==> s.temperature <= HighTemperature && s.fillLevel > NearlyFull
    ensures Classify(s) == Warning <==>
      s.temperature <= HighTemperature && GettingFull < s.fillLevel <= NearlyFull
    ensures Classify(s) == Normal <==> s.temperature <= HighTemperature && s.fillLevel <= GettingFull
  {
    assert Precedence[0] == Alert && Precedence[1] == Urgent && Precedence[2] == Warning;
  }

  /** The boundary cases: 36 degrees with a 95% fill level is an alert,
      and each fill threshold belongs to the lower status. */
  lemma ClassifyExamples(temperature: real, humidity: real, relay: Relay)
    requires temperature <= HighTemperature
    ensures Classify(SensorState(95.0, 36.0, humidity, relay)) == Alert
    ensures Classify(SensorState(75.0, temperature, humidity, relay)) == Normal
    ensures Classify(SensorState(75.1, temperature, humidity, relay)) == Warning
    ensures Classify(SensorState(90.0, temperature, humidity, relay)) == Warning
    ensures Classify(SensorState(90.1, temperature, humidity, relay)) == Urgent
  {
    ClassifyCases(SensorState(95.0, 36.0, humidity, relay));
    ClassifyCases(SensorState(75.0, temperature, humidity, relay));
    ClassifyCases(SensorState(75.1, temperature, humidity, relay));
    ClassifyCases(SensorState(90.0, temperature, humidity, relay));
    ClassifyCases(SensorState(90.1, temperature, humidity, relay));
  }

  /** With the relay consistent with the fill level, a switched-on relay
      means an urgent or alert status, never normal or warning; and an
      urgent status means the relay is on. */
  lemma RelayOnIsUrgentOrAlert(s: SensorState)
    requires RelayMatchesFill(s)
    ensures s.relay == On ==> Classify(s) == Urgent || Classify(s) == Alert
    ensures Classify(s) == Urgent ==> s.relay == On
  {
    ClassifyCases(s);
  }
}
