/**
 * VehicleTestAgent: holds one session, detects the vehicle kind once, appends
 * one verdict per check to its `results` list, and overwrites `healthScore`
 * from that list.
 */
module Agent {
  import opened Stats
  import opened Verdicts
  import opened Checks
  import opened HealthScores

  class VehicleTestAgent {
    const data: Session
    const vehicleType: VehicleKind
    var results: seq<Verdict>
    var healthScore: int

    /** Every recorded verdict is well formed and the score is a percentage. */
    ghost predicate Valid()
      reads this
    {
      AllWellFormed(results) && 0 <= healthScore <= 100
    }

    constructor (data: Session)
      ensures this.data == data && vehicleType == DetectVehicleKind(data.Keys)
      ensures results == [] && healthScore == 100
      ensures Valid()
    {
      this.data := data;
      vehicleType := DetectVehicleKind(data.Keys);
      results := [];
      healthScore := 100;
    }

    /** Appends exactly one verdict; earlier verdicts and the score are untouched. */
    method RecordResult(testName: string, passed: Outcome, reason: string, suggestion: string)
      requires Valid()
      modifies this`results
      ensures Valid()
      ensures results == old(results) + [MakeVerdict(testName, passed, reason, suggestion)]
    {
      results := results + [MakeVerdict(testName, passed, reason, suggestion)];
    }

    method BrakingTest()
      requires Valid() && "gFx" in data
      modifies this`results
      ensures Valid()
      ensures results == old(results) + [BrakingVerdict(data["gFx"])]
    {
      RecordResult("Braking Test", BrakingOutcome(data["gFx"]),
        BrakingReason, BrakingSuggestion);
    }

    method AccelerationTest()
      requires Valid() && "gFy" in data
      modifies this`results
      ensures Valid()
      ensures results == old(results) + [AccelerationVerdict(data["gFy"])]
    {
      RecordResult("Acceleration Test", AccelerationOutcome(data["gFy"]),
        AccelerationReason, AccelerationSuggestion);
    }

    method StabilityTest()
      requires Valid() && "wy" in data
      modifies this`results
      ensures Valid()
      ensures results == old(results) + [StabilityVerdict(data["wy"])]
    {
      RecordResult("Stability Test", StabilityOutcome(data["wy"]),
        StabilityReason, StabilitySuggestion);
    }

    method SpeedTest()
      requires Valid() && "speed" in data
      modifies this`results
      ensures Valid()
      ensures results == old(results) + [SpeedVerdict(data["speed"])]
    {
      RecordResult("Speed Test", SpeedOutcome(data["speed"]),
        SpeedReason, SpeedSuggestion);
    }

    method SuspensionTest()
      requires Valid() && "gFz" in data
      modifies this`results
      ensures Valid()
      ensures results == old(results) + [SuspensionVerdict(data["gFz"])]
    {
      RecordResult("Suspension Test", SuspensionOutcome(data["gFz"]),
        SuspensionReason, SuspensionSuggestion);
    }

    method CorneringTest()
      requires Valid() && "gFz" in data
      modifies this`results
      ensures Valid()
      ensures results == old(results) + [CorneringVerdict(data["gFz"])]
    {
      RecordResult("Cornering Grip Test", CorneringOutcome(data["gFz"]),
        CorneringReason, CorneringSuggestion);
    }

    method TorqueTest()
      requires Valid() && "speed" in data
      modifies this`results
      ensures Valid()
      ensures results == old(results) + [TorqueVerdict(data["speed"])]
    {
      RecordResult("Torque Test", TorqueOutcome(data["speed"]),
        TorqueReason, TorqueSuggestion);
    }

    method EfficiencyTest()
      requires Valid()
      modifies this`results
      ensures Valid()
      ensures results == old(results) + [EfficiencyVerdict(data, vehicleType)]
    {
      if vehicleType == Fuel {
        if "fuel_consumed" in data && "distance" in data {
          var passed := RatioExceeds(Sum(data["distance"]), Sum(data["fuel_consumed"]), FuelEfficiencyMin);
          RecordResult("Fuel Efficiency Test", FromBool(passed),
            FuelEfficiencyReason, FuelEfficiencySuggestion);
        } else {
          RecordResult("Fuel Efficiency Test", NotImplemented,
            FuelDataMissingReason, FuelDataMissingSuggestion);
        }
      } else if vehicleType == EV {
        if "battery_used" in data && "distance" in data {
          var passed := RatioExceeds(Sum(data["distance"]), Sum(data["battery_used"]), BatteryEfficiencyMin);
          RecordResult("Battery Efficiency Test", FromBool(passed),
            BatteryEfficiencyReason, BatteryEfficiencySuggestion);
        } else {
          RecordResult("Battery Efficiency Test", NotImplemented,
            BatteryDataMissingReason, BatteryDataMissingSuggestion);
        }
      } else {
        RecordResult("Efficiency Test", NotImplemented,
          UnknownKindReason, UnknownKindSuggestion);
      }
    }

    /** Counts over `results` without changing it and overwrites `healthScore` with the score formula. */
    method CalculateHealthScore()
      requires Valid()
      modifies this`healthScore
      ensures Valid()
      ensures healthScore == HealthScore(results)
    {
      var total := 0;
      for i := 0 to |results|
        invariant total == CountedCount(results[..i])
      {
        assert results[..i + 1][..i] == results[..i];
        if results[i].outcome == Passed || results[i].outcome == Failed {
          total := total + 1;
        }
      }
      var failed := 0;
      for i := 0 to |results|
        invariant failed == FailedCount(results[..i])
      {
        assert results[..i + 1][..i] == results[..i];
        if results[i].outcome == Failed {
          failed := failed + 1;
        }
      }
      assert results[..|results|] == results;
      SourceExpressionIsScore(total, failed);
      healthScore := Trunc(if total > 0 then 100.0 - (failed as real / total as real) * 100.0 else 0.0);
    }

    /** Runs the eight checks in their fixed order, then recomputes the score over every verdict so far. */
    method RunAllTests() returns (rs: seq<Verdict>, score: int)
      requires Valid() && RequiredChannels <= data.Keys
      modifies this`results, this`healthScore
      ensures Valid()
      ensures results == old(results) + Battery(data, vehicleType)
      ensures healthScore == HealthScore(results)
      ensures rs == results && score == healthScore
    {
      ghost var before := results;
      BrakingTest();
      AccelerationTest();
      StabilityTest();
      SpeedTest();
      SuspensionTest();
      CorneringTest();
      TorqueTest();
      EfficiencyTest();
      AppendEight(before, BrakingVerdict(data["gFx"]), AccelerationVerdict(data["gFy"]),
        StabilityVerdict(data["wy"]), SpeedVerdict(data["speed"]), SuspensionVerdict(data["gFz"]),
        CorneringVerdict(data["gFz"]), TorqueVerdict(data["speed"]), EfficiencyVerdict(data, vehicleType));
      BatteryElements(data, vehicleType);
      CalculateHealthScore();
      rs, score := results, healthScore;
    }
  }

  lemma AppendEight<T>(s: seq<T>, a: T, b: T, c: T, d: T, e: T, f: T, g: T, h: T)
    ensures s + [a] + [b] + [c] + [d] + [e] + [f] + [g] + [h] == s + [a, b, c, d, e, f, g, h]
  {
  }

  /**
   * An agent run twice on one session: the results list is never reset, so the
   * second run returns sixteen verdicts, the first eight twice, and the same score.
   */
  method RunTwice(data: Session) returns (first: seq<Verdict>, second: seq<Verdict>, firstScore: int, secondScore: int)
    requires RequiredChannels <= data.Keys
    ensures |first| == 8 && second == first + first
    ensures firstScore == secondScore == HealthScore(first)
  {
    var agent := new VehicleTestAgent(data);
    first, firstScore := agent.RunAllTests();
    second, secondScore := agent.RunAllTests();
    RepeatedVerdictsKeepScore(first);
  }
}
