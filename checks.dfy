/**
 * The diagnostic rules of VehicleTestAgent: vehicle-type detection, the seven
 * threshold checks, the vehicle-dependent efficiency check, and the fixed order
 * in which run_all_tests performs them.
 */
module Checks {
  import opened Wrappers
  import opened Stats
  import opened Verdicts

  /** A drive session: each present column (channel) with its readings in sample order. */
  type Session = map<string, seq<real>>

  datatype VehicleKind = EV | Fuel | Unknown

  /** The channels the seven threshold checks read; the source raises KeyError without them. */
  const RequiredChannels: set<string> := {"gFx", "gFy", "gFz", "wy", "speed"}

  /** The columns detect_fuel_type looks at. */
  const IndicatorColumns: set<string> := {"battery_voltage", "ev_flag", "fuel_consumed", "fuel_type"}

  const BrakingStdMin: real := 0.03
  const AccelerationStdMin: real := 0.03
  const StabilityStdMax: real := 0.05
  const SpeedMeanMin: real := 1.5
  const SuspensionStdMin: real := 0.01
  const CorneringMeanMin: real := 0.9
  const TorqueRangeMin: real := 3.0
  const FuelEfficiencyMin: real := 10.0
  const BatteryEfficiencyMin: real := 5.0

  /** The EV indicators are tested first, so they win over the fuel indicators. */
  function DetectVehicleKind(columns: set<string>): (k: VehicleKind)
    ensures k == EV <==> "battery_voltage" in columns || "ev_flag" in columns
    ensures k == Fuel <==>
      "battery_voltage" !in columns && "ev_flag" !in columns &&
      ("fuel_consumed" in columns || "fuel_type" in columns)
    ensures k == Unknown <==> forall c :: c in IndicatorColumns ==> c !in columns
  {
    if "battery_voltage" in columns || "ev_flag" in columns then EV
    else if "fuel_consumed" in columns || "fuel_type" in columns then Fuel
    else Unknown
  }

  /** Detection looks at the indicator columns and at nothing else. */
  lemma DetectionReadsOnlyIndicators(c1: set<string>, c2: set<string>)
    requires c1 * IndicatorColumns == c2 * IndicatorColumns
    ensures DetectVehicleKind(c1) == DetectVehicleKind(c2)
  {
    forall c | c in IndicatorColumns ensures c in c1 <==> c in c2 {
      assert c in c1 <==> c in c1 * IndicatorColumns;
    }
  }

  /** Adding columns to an EV session, fuel columns included, keeps it EV. */
  lemma EvWinsTieBreak(columns: set<string>, extra: set<string>)
    requires DetectVehicleKind(columns) == EV
    ensures DetectVehicleKind(columns + extra) == EV
  {
  }

  // The seven threshold checks. Each statistic is undefined (NaN) on too few
  // readings, and the comparison then fails.

  function BrakingOutcome(gFx: seq<real>): (o: Outcome)
    ensures o != NotImplemented
    ensures |gFx| < 2 ==> o == Failed
  {
    FromBool(StdAbove(gFx, BrakingStdMin))
  }

  function AccelerationOutcome(gFy: seq<real>): (o: Outcome)
    ensures o != NotImplemented
    ensures |gFy| < 2 ==> o == Failed
  {
    FromBool(StdAbove(gFy, AccelerationStdMin))
  }

  function StabilityOutcome(wy: seq<real>): (o: Outcome)
    ensures o != NotImplemented
    ensures |wy| < 2 ==> o == Failed
  {
    FromBool(StdBelow(wy, StabilityStdMax))
  }

  function SpeedOutcome(speed: seq<real>): (o: Outcome)
    ensures o != NotImplemented
    ensures |speed| == 0 ==> o == Failed
  {
    FromBool(MeanAbove(speed, SpeedMeanMin))
  }

  function SuspensionOutcome(gFz: seq<real>): (o: Outcome)
    ensures o != NotImplemented
    ensures |gFz| < 2 ==> o == Failed
  {
    FromBool(StdAbove(gFz, SuspensionStdMin))
  }

  function CorneringOutcome(gFz: seq<real>): (o: Outcome)
    ensures o != NotImplemented
    ensures |gFz| == 0 ==> o == Failed
  {
    FromBool(MeanAbove(gFz, CorneringMeanMin))
  }

  /** Torque passes exactly when some two speed readings differ by more than 3. */
  function TorqueOutcome(speed: seq<real>): (o: Outcome)
    ensures o != NotImplemented
    ensures o == Passed <==>
      exists i, j :: 0 <= i < |speed| && 0 <= j < |speed| && speed[i] - speed[j] > TorqueRangeMin
  {
    RangeAboveWitness(speed, TorqueRangeMin);
    FromBool(RangeAbove(speed, TorqueRangeMin))
  }

  /** With `s` the sample standard deviation, the four spread checks are the source's strict comparisons. */
  lemma SpreadChecksCompareStd(xs: seq<real>, s: real)
    requires IsStd(xs, s)
    ensures BrakingOutcome(xs) == Passed <==> s > 0.03
    ensures AccelerationOutcome(xs) == Passed <==> s > 0.03
    ensures StabilityOutcome(xs) == Passed <==> s < 0.05
    ensures SuspensionOutcome(xs) == Passed <==> s > 0.01
  {
    StdComparison(xs, s, 0.03);
    StdComparison(xs, s, 0.05);
    StdComparison(xs, s, 0.01);
  }

  /** A column of equal readings (std 0) fails the "> threshold" spread checks whatever its value. */
  lemma ConstantColumnSpread(xs: seq<real>, c: real)
    requires forall i :: 0 <= i < |xs| ==> xs[i] == c
    ensures BrakingOutcome(xs) == Failed
    ensures AccelerationOutcome(xs) == Failed
    ensures SuspensionOutcome(xs) == Failed
    ensures StabilityOutcome(xs) == Passed <==> |xs| >= 2
  {
    if |xs| >= 2 {
      ConstantVariance(xs, c);
    }
  }

  /** The two mean checks without a division: the sum exceeds the threshold times the number of readings. */
  lemma MeanChecksPassCondition(xs: seq<real>)
    ensures SpeedOutcome(xs) == Passed <==> |xs| > 0 && Sum(xs) > SpeedMeanMin * (|xs| as real)
    ensures CorneringOutcome(xs) == Passed <==> |xs| > 0 && Sum(xs) > CorneringMeanMin * (|xs| as real)
  {
    if |xs| > 0 {
      MeanAgainstSum(xs, SpeedMeanMin);
      MeanAgainstSum(xs, CorneringMeanMin);
    }
  }

  /** The two mean checks: passing needs a reading above the threshold; readings all above it suffice. */
  lemma MeanChecksBounds(xs: seq<real>)
    ensures SpeedOutcome(xs) == Passed ==> exists i :: 0 <= i < |xs| && xs[i] > SpeedMeanMin
    ensures (|xs| > 0 && forall i :: 0 <= i < |xs| ==> xs[i] > SpeedMeanMin) ==> SpeedOutcome(xs) == Passed
    ensures CorneringOutcome(xs) == Passed ==> exists i :: 0 <= i < |xs| && xs[i] > CorneringMeanMin
    ensures (|xs| > 0 && forall i :: 0 <= i < |xs| ==> xs[i] > CorneringMeanMin) ==> CorneringOutcome(xs) == Passed
  {
    if |xs| > 0 {
      MeanBetweenMinMax(xs);
      var i :| 0 <= i < |xs| && xs[i] == Max(xs);
      var j :| 0 <= j < |xs| && xs[j] == Min(xs);
    }
  }

  // The efficiency check.

  /** `num / den > threshold` with NumPy's float division: x/0 is +inf for x > 0, -inf for x < 0, NaN for 0. */
  function RatioExceeds(num: real, den: real, threshold: real): (exceeds: bool)
    ensures den > 0.0 ==> (exceeds <==> num > threshold * den)
    ensures den < 0.0 ==> (exceeds <==> num < threshold * den)
    ensures den == 0.0 ==> (exceeds <==> num > 0.0)
  {
    if den != 0.0 then
      RatioAgainstProduct(num, den, threshold);
      num / den > threshold
    else num > 0.0
  }

  /** The usage column the efficiency check divides by, when it has one. */
  function UsageColumn(kind: VehicleKind): (column: Option<string>)
    ensures column.Some? <==> kind != Unknown
  {
    match kind
    case Fuel => Some("fuel_consumed")
    case EV => Some("battery_used")
    case Unknown => None
  }

  /** The ratio a known kind must exceed; an Unknown kind has no ratio to compare. */
  function EfficiencyThreshold(kind: VehicleKind): (t: real)
    requires kind != Unknown
    ensures t > 0.0
  {
    if kind == Fuel then FuelEfficiencyMin else BatteryEfficiencyMin
  }

  function EfficiencyName(kind: VehicleKind): string
  {
    match kind
    case Fuel => "Fuel Efficiency Test"
    case EV => "Battery Efficiency Test"
    case Unknown => "Efficiency Test"
  }

  /** The efficiency check can compute a ratio: a known kind whose usage column and `distance` are present. */
  predicate EfficiencyInputsPresent(data: Session, kind: VehicleKind)
    ensures EfficiencyInputsPresent(data, kind) ==> kind != Unknown && "distance" in data
  {
    UsageColumn(kind).Some? && UsageColumn(kind).value in data && "distance" in data
  }

  /** The efficiency verdict, branching on the vehicle kind and on which columns are present. */
  function EfficiencyVerdict(data: Session, kind: VehicleKind): (v: Verdict)
    ensures WellFormed(v) && v.test == EfficiencyName(kind)
    ensures v.outcome == NotImplemented <==> !EfficiencyInputsPresent(data, kind)
  {
    match kind
    case Fuel =>
      if "fuel_consumed" in data && "distance" in data then
        var passed := RatioExceeds(Sum(data["distance"]), Sum(data["fuel_consumed"]), FuelEfficiencyMin);
        MakeVerdict("Fuel Efficiency Test", FromBool(passed),
          FuelEfficiencyReason, FuelEfficiencySuggestion)
      else
        MakeVerdict("Fuel Efficiency Test", NotImplemented,
          FuelDataMissingReason, FuelDataMissingSuggestion)
    case EV =>
      if "battery_used" in data && "distance" in data then
        var passed := RatioExceeds(Sum(data["distance"]), Sum(data["battery_used"]), BatteryEfficiencyMin);
        MakeVerdict("Battery Efficiency Test", FromBool(passed),
          BatteryEfficiencyReason, BatteryEfficiencySuggestion)
      else
        MakeVerdict("Battery Efficiency Test", NotImplemented,
          BatteryDataMissingReason, BatteryDataMissingSuggestion)
    case Unknown =>
      MakeVerdict("Efficiency Test", NotImplemented,
          UnknownKindReason, UnknownKindSuggestion)
  }

  lemma RatioAgainstProduct(num: real, den: real, t: real)
    requires den != 0.0
    ensures den > 0.0 ==> (num / den > t <==> num > t * den)
    ensures den < 0.0 ==> (num / den > t <==> num < t * den)
  {
  }

  /**
   * When the ratio can be computed, the efficiency check passes exactly when total distance
   * exceeds threshold times total usage (the inequality flips for a negative total usage),
   * and on zero usage exactly when the distance total is positive.
   */
  lemma EfficiencyPassCondition(data: Session, kind: VehicleKind)
    requires EfficiencyInputsPresent(data, kind)
    ensures var dist, used, t := Sum(data["distance"]), Sum(data[UsageColumn(kind).value]), EfficiencyThreshold(kind);
      && (used != 0.0 ==> (EfficiencyVerdict(data, kind).outcome == Passed <==> dist / used > t))
      && (used > 0.0 ==> (EfficiencyVerdict(data, kind).outcome == Passed <==> dist > t * used))
      && (used < 0.0 ==> (EfficiencyVerdict(data, kind).outcome == Passed <==> dist < t * used))
      && (used == 0.0 ==> (EfficiencyVerdict(data, kind).outcome == Passed <==> dist > 0.0))
  {
    var dist, used, t := Sum(data["distance"]), Sum(data[UsageColumn(kind).value]), EfficiencyThreshold(kind);
    assert EfficiencyVerdict(data, kind).outcome == Passed <==> RatioExceeds(dist, used, t);
    if used != 0.0 {
      RatioAgainstProduct(dist, used, t);
    }
  }

  /** distance [100] over fuel [5] is 20 km/l and passes; over fuel [50] it is 2 km/l and fails. */
  lemma FuelEfficiencyExamples(data: Session)
    requires data.Keys == {"fuel_consumed", "distance"}
    requires data["distance"] == [100.0]
    ensures data["fuel_consumed"] == [5.0] ==> EfficiencyVerdict(data, Fuel).outcome == Passed
    ensures data["fuel_consumed"] == [50.0] ==> EfficiencyVerdict(data, Fuel).outcome == Failed
  {
    assert Sum([100.0]) == 100.0;
    assert Sum([5.0]) == 5.0;
    assert Sum([50.0]) == 50.0;
  }

  // The verdicts, in the order run_all_tests records them.

  // The reason and suggestion texts each check records. The efficiency reasons
  // leave out the ratio the source formats into them.
  const BrakingReason: string := "Braking force too consistent \U{2013} possible malfunction"
  const BrakingSuggestion: string := "Check braking system for response lag or sensor error"
  const AccelerationReason: string := "Low acceleration variance, possible sluggishness"
  const AccelerationSuggestion: string := "Check throttle, fuel injectors, or engine power"
  const StabilityReason: string := "High yaw rate variance, unstable turning"
  const StabilitySuggestion: string := "Check suspension, steering response"
  const SpeedReason: string := "Low average speed \U{2014} performance issue suspected"
  const SpeedSuggestion: string := "Inspect drivetrain, acceleration system"
  const SuspensionReason: string := "Suspension travel too minimal"
  const SuspensionSuggestion: string := "Inspect shock absorbers and suspension setup"
  const CorneringReason: string := "Low lateral force, poor cornering grip"
  const CorneringSuggestion: string := "Check tires, suspension stiffness"
  const TorqueReason: string := "Insufficient speed change under test"
  const TorqueSuggestion: string := "Inspect torque delivery, transmission"
  const FuelEfficiencyReason: string := "Low efficiency: km/l"
  const FuelEfficiencySuggestion: string := "Inspect fuel system"
  const FuelDataMissingReason: string := "Fuel consumption data missing"
  const FuelDataMissingSuggestion: string := "Include fuel usage logs or distance/time data"
  const BatteryEfficiencyReason: string := "Low battery efficiency: km/kWh"
  const BatteryEfficiencySuggestion: string := "Inspect battery health"
  const BatteryDataMissingReason: string := "Battery usage data missing"
  const BatteryDataMissingSuggestion: string := "Include battery usage logs or distance/time data"
  const UnknownKindReason: string := "Unknown fuel type"
  const UnknownKindSuggestion: string := "Cannot evaluate efficiency without knowing fuel type"

  function BrakingVerdict(gFx: seq<real>): (v: Verdict)
    ensures WellFormed(v) && v.test == "Braking Test" && v.outcome == BrakingOutcome(gFx)
    ensures v.outcome == Failed <==> v.reason == Some(BrakingReason) && v.suggestion == Some(BrakingSuggestion)
  {
    MakeVerdict("Braking Test", BrakingOutcome(gFx), BrakingReason, BrakingSuggestion)
  }

  function AccelerationVerdict(gFy: seq<real>): (v: Verdict)
    ensures WellFormed(v) && v.test == "Acceleration Test" && v.outcome == AccelerationOutcome(gFy)
    ensures v.outcome == Failed <==> v.reason == Some(AccelerationReason) && v.suggestion == Some(AccelerationSuggestion)
  {
    MakeVerdict("Acceleration Test", AccelerationOutcome(gFy), AccelerationReason, AccelerationSuggestion)
  }

  function StabilityVerdict(wy: seq<real>): (v: Verdict)
    ensures WellFormed(v) && v.test == "Stability Test" && v.outcome == StabilityOutcome(wy)
    ensures v.outcome == Failed <==> v.reason == Some(StabilityReason) && v.suggestion == Some(StabilitySuggestion)
  {
    MakeVerdict("Stability Test", StabilityOutcome(wy), StabilityReason, StabilitySuggestion)
  }

  function SpeedVerdict(speed: seq<real>): (v: Verdict)
    ensures WellFormed(v) && v.test == "Speed Test" && v.outcome == SpeedOutcome(speed)
    ensures v.outcome == Failed <==> v.reason == Some(SpeedReason) && v.suggestion == Some(SpeedSuggestion)
  {
    MakeVerdict("Speed Test", SpeedOutcome(speed), SpeedReason, SpeedSuggestion)
  }

  function SuspensionVerdict(gFz: seq<real>): (v: Verdict)
    ensures WellFormed(v) && v.test == "Suspension Test" && v.outcome == SuspensionOutcome(gFz)
    ensures v.outcome == Failed <==> v.reason == Some(SuspensionReason) && v.suggestion == Some(SuspensionSuggestion)
  {
    MakeVerdict("Suspension Test", SuspensionOutcome(gFz), SuspensionReason, SuspensionSuggestion)
  }

  function CorneringVerdict(gFz: seq<real>): (v: Verdict)
    ensures WellFormed(v) && v.test == "Cornering Grip Test" && v.outcome == CorneringOutcome(gFz)
    ensures v.outcome == Failed <==> v.reason == Some(CorneringReason) && v.suggestion == Some(CorneringSuggestion)
  {
    MakeVerdict("Cornering Grip Test", CorneringOutcome(gFz), CorneringReason, CorneringSuggestion)
  }

  function TorqueVerdict(speed: seq<real>): (v: Verdict)
    ensures WellFormed(v) && v.test == "Torque Test" && v.outcome == TorqueOutcome(speed)
    ensures v.outcome == Failed <==> v.reason == Some(TorqueReason) && v.suggestion == Some(TorqueSuggestion)
  {
    MakeVerdict("Torque Test", TorqueOutcome(speed), TorqueReason, TorqueSuggestion)
  }

  const ThresholdCheckNames: seq<string> := ["Braking Test", "Acceleration Test", "Stability Test",
    "Speed Test", "Suspension Test", "Cornering Grip Test", "Torque Test"]

  /** The seven threshold verdicts of one run, in execution order; none is "not implemented". */
  function ThresholdVerdicts(gFx: seq<real>, gFy: seq<real>, wy: seq<real>, speed: seq<real>, gFz: seq<real>): (vs: seq<Verdict>)
    ensures |vs| == 7 && AllWellFormed(vs)
    ensures forall i :: 0 <= i < 7 ==> vs[i].test == ThresholdCheckNames[i] && vs[i].outcome != NotImplemented
  {
    [ BrakingVerdict(gFx),
      AccelerationVerdict(gFy),
      StabilityVerdict(wy),
      SpeedVerdict(speed),
      SuspensionVerdict(gFz),
      CorneringVerdict(gFz),
      TorqueVerdict(speed) ]
  }

  /** The eight verdicts of one run, in execution order; only the last, efficiency, can be "not implemented". */
  function Battery(data: Session, kind: VehicleKind): (vs: seq<Verdict>)
    requires RequiredChannels <= data.Keys
    ensures |vs| == 8 && AllWellFormed(vs)
    ensures forall i :: 0 <= i < 7 ==> vs[i].test == ThresholdCheckNames[i] && vs[i].outcome != NotImplemented
    ensures vs[7].test == EfficiencyName(kind)
    ensures vs[7].outcome == NotImplemented <==> !EfficiencyInputsPresent(data, kind)
  {
    ThresholdVerdicts(data["gFx"], data["gFy"], data["wy"], data["speed"], data["gFz"])
      + [EfficiencyVerdict(data, kind)]
  }

  lemma BatteryElements(data: Session, kind: VehicleKind)
    requires RequiredChannels <= data.Keys
    ensures Battery(data, kind) ==
      [ BrakingVerdict(data["gFx"]), AccelerationVerdict(data["gFy"]), StabilityVerdict(data["wy"]),
        SpeedVerdict(data["speed"]), SuspensionVerdict(data["gFz"]), CorneringVerdict(data["gFz"]),
        TorqueVerdict(data["speed"]), EfficiencyVerdict(data, kind) ]
  {
  }
}
