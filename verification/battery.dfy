/**
 * Battery tiering of backend/utils/battery_optimization.py (class BatteryOptimizer): a
 * decision table from battery percentage, charging state and network type to a processing
 * level, and the sampling limits, feature gates, drain estimates, advice and hourly
 * schedule derived from that level. Every member is a pure function of its inputs.
 */
module Battery {
  import opened Wrappers

  datatype Level = Low | Medium | High

  /** The enum's string value; the lookups below are keyed by it. */
  function LevelName(l: Level): string
  {
    match l
    case Low => "low"
    case Medium => "medium"
    case High => "high"
  }

  /** `level_hierarchy`. */
  function Rank(l: Level): nat
  {
    match l
    case Low => 1
    case Medium => 2
    case High => 3
  }

  const CriticalBattery: real := 15.0
  const LowBattery: real := 30.0
  const MediumBattery: real := 60.0
  const ChargingOverride: real := 20.0

  /** `get_processing_level`. */
  function ProcessingLevel(battery: real, charging: bool, network: string): (l: Level)
    ensures charging && battery > ChargingOverride ==> l == High
    ensures !(charging && battery > ChargingOverride) ==>
      && (battery <= CriticalBattery ==> l == Low)
      && (CriticalBattery < battery <= LowBattery ==> (l == Medium <==> network in ["wifi", "4g"]) && l != High)
      && (LowBattery < battery <= MediumBattery ==> l == Medium)
      && (battery > MediumBattery ==> l == High)
  {
    if charging && battery > ChargingOverride then High
    else if battery <= CriticalBattery then Low
    else if battery <= LowBattery then (if network in ["wifi", "4g"] then Medium else Low)
    else if battery <= MediumBattery then Medium
    else High
  }

  /** For a fixed charging state and network, more battery never lowers the level. */
  lemma ProcessingLevelMonotone(b1: real, b2: real, charging: bool, network: string)
    requires b1 <= b2
    ensures Rank(ProcessingLevel(b1, charging, network)) <= Rank(ProcessingLevel(b2, charging, network))
  {
  }

  datatype Config = Config(gpsInterval: int, imuBatchSize: int, enableAiModels: bool, maxConcurrentTasks: int)

  const LowConfig: Config := Config(300, 50, false, 1)
  const MediumConfig: Config := Config(120, 100, true, 2)
  const HighConfig: Config := Config(30, 200, true, 4)

  /** `get_config_for_level`, keyed by the level's string value; any other key gets MEDIUM's. */
  function ConfigFor(levelName: string): (c: Config)
    ensures levelName != "low" && levelName != "high" ==> c == MediumConfig
  {
    if levelName == "low" then LowConfig
    else if levelName == "high" then HighConfig
    else MediumConfig
  }

  /** A higher level samples GPS at least as often, in batches at least as large, with as many tasks. */
  lemma ConfigOrderedByLevel(l1: Level, l2: Level)
    requires Rank(l1) <= Rank(l2)
    ensures var c1, c2 := ConfigFor(LevelName(l1)), ConfigFor(LevelName(l2));
      && c2.gpsInterval <= c1.gpsInterval
      && c1.imuBatchSize <= c2.imuBatchSize
      && c1.maxConcurrentTasks <= c2.maxConcurrentTasks
      && (c1.enableAiModels ==> c2.enableAiModels)
  {
  }

  /** `risk_multipliers.get(location_risk, 1.0)`. */
  function RiskMultiplier(locationRisk: string): (m: real)
    ensures m > 0.0
    ensures locationRisk !in ["low", "medium", "high", "critical"] ==> m == 1.0
  {
    if locationRisk == "low" then 0.5
    else if locationRisk == "medium" then 1.0
    else if locationRisk == "high" then 2.0
    else if locationRisk == "critical" then 3.0
    else 1.0
  }

  /** Python's `int(x)`, truncation toward zero. */
  function Trunc(x: real): (n: int)
    ensures x >= 0.0 ==> n >= 0 && n as real <= x < n as real + 1.0
    ensures x < 0.0 ==> n <= 0 && n as real - 1.0 < x <= n as real
  {
    if x >= 0.0 then x.Floor else -((-x).Floor)
  }

  datatype SamplingRates = SamplingRates(gpsInterval: int, imuBatchSize: int, processingLevel: string,
                                         aiEnabled: bool, maxTasks: int)

  function MaxInt(a: int, b: int): int { if a >= b then a else b }
  function MinInt(a: int, b: int): int { if a <= b then a else b }

  /**
   * `optimize_sampling_rates`: the level is chosen with the default network "wifi"; the GPS
   * interval is divided by the risk multiplier with a floor of 10 seconds, the IMU batch is
   * multiplied by it with a ceiling of 500 samples.
   */
  function OptimizeSamplingRates(battery: real, charging: bool, locationRisk: string): (r: SamplingRates)
    ensures r.gpsInterval >= 10
    ensures r.imuBatchSize <= 500
    ensures var level := ProcessingLevel(battery, charging, "wifi");
      r.processingLevel == LevelName(level)
      && r.aiEnabled == ConfigFor(LevelName(level)).enableAiModels
      && r.maxTasks == ConfigFor(LevelName(level)).maxConcurrentTasks
  {
    var level := ProcessingLevel(battery, charging, "wifi");
    var base := ConfigFor(LevelName(level));
    var m := RiskMultiplier(locationRisk);
    SamplingRates(GpsInterval(base.gpsInterval, m), ImuBatchSize(base.imuBatchSize, m),
                  LevelName(level), base.enableAiModels, base.maxConcurrentTasks)
  }

  /** The risk names in increasing order of their multipliers. */
  function RiskRank(locationRisk: string): nat
  {
    if locationRisk == "low" then 0
    else if locationRisk == "high" then 2
    else if locationRisk == "critical" then 3
    else 1
  }

  /** `max(int(base / m), 10)`: the GPS interval at risk multiplier `m`. */
  function GpsInterval(base: int, m: real): (g: int)
    requires m > 0.0
    ensures g >= 10
  {
    MaxInt(Trunc(base as real / m), 10)
  }

  /** `min(int(base * m), 500)`: the IMU batch size at risk multiplier `m`. */
  function ImuBatchSize(base: int, m: real): (b: int)
    ensures b <= 500
  {
    MinInt(Trunc(base as real * m), 500)
  }

  lemma GpsIntervalAntitone(base: int, m1: real, m2: real)
    requires base >= 0 && 0.0 < m1 <= m2
    ensures GpsInterval(base, m2) <= GpsInterval(base, m1)
  {
    var a := base as real;
    var q1, q2 := a / m1, a / m2;
    assert q1 * m1 == a && q2 * m2 == a;
    assert q1 >= 0.0;
    assert q1 * m1 <= q1 * m2;
    assert (q1 - q2) * m2 >= 0.0;
    assert q2 <= q1;
  }

  lemma ImuBatchSizeMonotone(base: int, m1: real, m2: real)
    requires base >= 0 && 0.0 < m1 <= m2
    ensures ImuBatchSize(base, m1) <= ImuBatchSize(base, m2)
  {
    TruncMonotone(base as real * m1, base as real * m2);
  }

  lemma TruncMonotone(x: real, y: real)
    requires 0.0 <= x <= y
    ensures Trunc(x) <= Trunc(y)
  {
    assert x.Floor as real <= x <= y < y.Floor as real + 1.0;
  }

  lemma RiskMultiplierMonotone(risk1: string, risk2: string)
    requires RiskRank(risk1) <= RiskRank(risk2)
    ensures RiskMultiplier(risk1) <= RiskMultiplier(risk2)
  {
  }

  /**
   * A riskier location never samples GPS less often nor uses smaller IMU batches, at the same
   * battery and charging state.
   */
  lemma SamplingFollowsRisk(battery: real, charging: bool, risk1: string, risk2: string)
    requires RiskRank(risk1) <= RiskRank(risk2)
    ensures OptimizeSamplingRates(battery, charging, risk2).gpsInterval <= OptimizeSamplingRates(battery, charging, risk1).gpsInterval
    ensures OptimizeSamplingRates(battery, charging, risk1).imuBatchSize <= OptimizeSamplingRates(battery, charging, risk2).imuBatchSize
  {
    var base := ConfigFor(LevelName(ProcessingLevel(battery, charging, "wifi")));
    RiskMultiplierMonotone(risk1, risk2);
    GpsIntervalAntitone(base.gpsInterval, RiskMultiplier(risk1), RiskMultiplier(risk2));
    ImuBatchSizeMonotone(base.imuBatchSize, RiskMultiplier(risk1), RiskMultiplier(risk2));
  }

  /** `feature_requirements.get(feature_name, MEDIUM)`. */
  function RequiredLevel(feature: string): (l: Level)
    ensures feature in ["distress_detection", "behavioral_analysis", "advanced_analytics"] <==> l == High
    ensures l != Low
  {
    if feature in ["distress_detection", "behavioral_analysis", "advanced_analytics"] then High
    else Medium
  }

  /** `should_enable_feature`: the level from battery and charging (network "wifi") meets the feature's requirement. */
  function ShouldEnableFeature(feature: string, battery: real, charging: bool): (enabled: bool)
    ensures enabled <==> Rank(ProcessingLevel(battery, charging, "wifi")) >= Rank(RequiredLevel(feature))
  {
    var level := ProcessingLevel(battery, charging, "wifi");
    Rank(level) >= Rank(RequiredLevel(feature))
  }

  /** A feature enabled at some battery level stays enabled at every higher one. */
  lemma FeatureStaysEnabled(feature: string, b1: real, b2: real, charging: bool)
    requires b1 <= b2 && ShouldEnableFeature(feature, b1, charging)
    ensures ShouldEnableFeature(feature, b2, charging)
  {
    ProcessingLevelMonotone(b1, b2, charging, "wifi");
  }

  /** Not charging, at or under 15%, no feature runs; above 60%, every feature runs. */
  lemma FeatureExtremes(feature: string, battery: real)
    ensures battery <= CriticalBattery ==> !ShouldEnableFeature(feature, battery, false)
    ensures battery > MediumBattery ==> ShouldEnableFeature(feature, battery, false)
  {
  }

  /** `drain_rates.get(processing_level, 5.0)`, in percent per hour. */
  function DrainRate(levelName: string): real
  {
    if levelName == "low" then 2.0
    else if levelName == "high" then 10.0
    else 5.0
  }

  /** `calculate_estimated_battery_drain`. */
  function EstimatedDrain(levelName: string, hours: real): (drain: real)
    ensures hours >= 0.0 ==> drain >= 0.0
    ensures levelName !in ["low", "medium", "high"] ==> drain == 5.0 * hours
  {
    DrainRate(levelName) * hours
  }

  /** Over any non-negative duration, a higher level drains at least as much. */
  lemma DrainOrderedByLevel(l1: Level, l2: Level, hours: real)
    requires Rank(l1) <= Rank(l2) && hours >= 0.0
    ensures EstimatedDrain(LevelName(l1), hours) <= EstimatedDrain(LevelName(l2), hours)
  {
    assert DrainRate(LevelName(l1)) <= DrainRate(LevelName(l2));
  }

  /** `get_power_saving_recommendations`; the current configuration does not affect the advice. */
  function PowerSavingRecommendations(battery: real): (r: seq<string>)
    ensures battery < 20.0 ==> |r| == 4
    ensures 20.0 <= battery < 40.0 ==> |r| == 3
    ensures 40.0 <= battery < 60.0 ==> |r| == 2
    ensures battery >= 60.0 ==> r == []
  {
    if battery < 20.0 then
      ["Switch to emergency mode - GPS tracking only",
       "Disable continuous sensor monitoring",
       "Use rule-based detection instead of AI models",
       "Increase GPS reporting interval to 5 minutes"]
    else if battery < 40.0 then
      ["Reduce AI processing frequency",
       "Batch sensor data uploads",
       "Switch to medium processing level"]
    else if battery < 60.0 then
      ["Consider enabling power-saving mode",
       "Optimize network usage"]
    else []
  }

  /** More battery never brings more advice. */
  lemma FewerRecommendationsWithMoreBattery(b1: real, b2: real)
    requires b1 <= b2
    ensures |PowerSavingRecommendations(b2)| <= |PowerSavingRecommendations(b1)|
  {
  }

  datatype Schedule = Schedule(highActivityHours: seq<int>, lowActivityHours: seq<int>, travelHours: seq<int>,
                               processingAdjustments: map<int, Level>)

  const DefaultActiveHours: seq<int> := [6, 7, 8, 9, 10, 11, 12, 13, 14, 15, 16, 17, 18, 19, 20, 21]
  const DefaultTravelHours: seq<int> := [7, 8, 17, 18, 19]

  /** The level the schedule gives one hour: travel first, then activity, otherwise low. */
  function HourLevel(hour: int, active: seq<int>, travel: seq<int>): Level
  {
    if hour in travel then High
    else if hour in active then Medium
    else Low
  }

  /** `adaptive_processing_schedule`; a missing pattern key takes the documented default. */
  function AdaptiveSchedule(activeHours: Option<seq<int>>, travelHours: Option<seq<int>>): (s: Schedule)
    ensures s.highActivityHours == activeHours.GetOr(DefaultActiveHours)
    ensures s.travelHours == travelHours.GetOr(DefaultTravelHours)
    ensures s.lowActivityHours == []
    ensures forall h :: h in s.processingAdjustments <==> 0 <= h < 24
    ensures forall h :: 0 <= h < 24 ==>
      && (s.processingAdjustments[h] == High <==> h in s.travelHours)
      && (s.processingAdjustments[h] == Medium <==> h !in s.travelHours && h in s.highActivityHours)
      && (s.processingAdjustments[h] == Low <==> h !in s.travelHours && h !in s.highActivityHours)
  {
    var active := activeHours.GetOr(DefaultActiveHours);
    var travel := travelHours.GetOr(DefaultTravelHours);
    Schedule(active, [], travel, map h | 0 <= h < 24 :: HourLevel(h, active, travel))
  }

  /** With the default patterns, 7-8 and 17-19 are HIGH, the rest of 6-21 MEDIUM, and the night LOW. */
  lemma DefaultSchedule()
    ensures HourLevel(7, DefaultActiveHours, DefaultTravelHours) == High
    ensures HourLevel(18, DefaultActiveHours, DefaultTravelHours) == High
    ensures HourLevel(6, DefaultActiveHours, DefaultTravelHours) == Medium
    ensures HourLevel(21, DefaultActiveHours, DefaultTravelHours) == Medium
    ensures HourLevel(22, DefaultActiveHours, DefaultTravelHours) == Low
    ensures HourLevel(5, DefaultActiveHours, DefaultTravelHours) == Low
  {
    assert DefaultTravelHours[0] == 7 && DefaultTravelHours[3] == 18;
    assert DefaultActiveHours[0] == 6 && DefaultActiveHours[15] == 21;
  }

  datatype EmergencyConfig = EmergencyConfig(
    gpsInterval: int, imuProcessing: bool, aiModels: bool, ruleBasedOnly: bool,
    networkOptimization: bool, backgroundSync: bool, alertMethods: seq<string>, maxConcurrentOperations: int)

  /** `emergency_mode_config`. */
  const EmergencyModeConfig: EmergencyConfig :=
    EmergencyConfig(600, false, false, true, true, false, ["sms"], 1)

  /** Emergency mode samples GPS less often than any level and runs no more tasks than LOW. */
  lemma EmergencyIsMostFrugal(l: Level)
    ensures EmergencyModeConfig.gpsInterval > ConfigFor(LevelName(l)).gpsInterval
    ensures EmergencyModeConfig.maxConcurrentOperations <= ConfigFor(LevelName(l)).maxConcurrentTasks
    ensures !EmergencyModeConfig.aiModels && EmergencyModeConfig.ruleBasedOnly
  {
  }
}
