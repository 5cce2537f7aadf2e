# YatriGuard safety core in Dafny

This project models the deterministic safety logic of the YatriGuard tourist-safety backend
and proves properties of it. It covers six parts:

- **Geometry helpers** (`Geo`, from `backend/utils/geo_utils.py`):
  - ray-casting point-in-polygon;
  - bounding box, vertex-mean centre and shoelace area;
  - coordinate and Rajasthan bounds checks, bearing normalisation and the speed guard;
  - nearby-zone filtering and sorting, and nearest major city.
- **Red-zone registry** (`RedZones`, from `backend/fallback_systems/red_zone_fallback.py`):
  - an ordered list of polygonal zones, with add and remove;
  - breach queries where the first matching zone wins;
  - nearby zones by centre distance;
  - the location report, and the rule that combines zone risk with a crime-risk score.
- **Rule-based detectors** (`RuleBased`, from `backend/fallback_systems/rule_based_fallback.py`):
  - a per-user buffer with a 24-hour history cut-off and the last 100 locations;
  - fall, crash and distress detectors;
  - the `process_data` pipeline.
- **Battery tiering** (`Battery`, from `backend/utils/battery_optimization.py`):
  - a decision table from battery, charging and network to a processing level;
  - configurations, sampling rates, feature gates and drain estimates;
  - advice and the hourly schedule.
- **Sensor buffers and filters** (`DataProcessing`, from `backend/services/data_processing.py`):
  - bounded per-user FIFO buffers;
  - a 3-sample moving average and rolling window statistics;
  - movement metrics and activity classification.
- **Alert store** (`Alerts`, from `backend/services/alert_service.py`):
  - an in-memory list with append;
  - a per-user query that filters, sorts newest first and limits;
  - acknowledgement, SMS status and SMS text truncation;
  - the priority dispatch of authority notifications.

Shared modules supply Python semantics the source relies on:

- `Wrappers` is `Option`.
- `Sensors` holds the sensor records.
- `Stats` gives sums, extrema, mean and population variance.
- `Sorting` is Python's stable `list.sort(key=...)`.
- `Slices` gives Python slices with negative and out-of-range bounds.

How the model treats things the source does not compute itself:

- Haversine distance, bearing and the `sqrt` magnitude are transcendental. They are function-valued parameters (`Geo.DistanceFn`, `Geo.BearingFn`, `Sensors.MagnitudeFn`).
- The clock is an integer `now` in seconds, or clock fields passed in.
- `uuid4` is a `freshId` parameter.
- The crime-risk scorer is an input (`RedZones.CrimeOutcome`).
- Numbers are `real`, so floating-point rounding is not modelled.
- Python's `int()` truncation is written out (`Battery.Trunc`).

Where state is changed in place, the model uses classes:

- `RedZones.RedZoneSystem` holds the zone list.
- `RuleBased.RuleBasedSystem` holds the per-user buffers.
- `DataProcessing.SensorDataProcessor` holds the bounded deques.
- `Alerts.AlertService` holds the alert list.

Each state-changing method states its new state as a function of the old one. The properties are lemmas about those functions.

Behaviour of the code as written that a reader might not expect:

- The stillness threshold is 2.0 g. Any reading of 2.0 g or more among the five samples after the impact rules out a fall. A device at rest reads about 9.8 g, so phase 3 of the fall detector never passes on a resting device (`RuleBased.RestingDeviceNeverStill`).
- `add_zone` numbers a zone `len + 1`, so after a removal two zones can share an id (`RedZones.AddAfterRemoveCanDuplicateIds`).
- The red-zone ray caster has no guard for small polygons. An empty polygon raises, and `check_point_in_polygon` swallows the exception as "not breached". The model keeps this as the `Raised` scan outcome.
- The distress detector fires iff at least two indicators hold. The weight-sum clause can never fire on its own (`RuleBased.DistressTriggerIsTwoIndicators`). Five identical fixes one hour apart span 4 h, which is not more than the 4.0 h threshold, so that history shows no prolonged inactivity.
- `_update_alert_status` marks the user's first stored alert, not the alert the SMS was about.

## Model

| member | source | states |
|---|---|---|
| Geo.RayCast | backend/utils/geo_utils.py:96-111 | the toggle loop visits every edge, including the closing one, and returns the parity of qualifying crossings |
| Geo.EdgeToggles | backend/utils/geo_utils.py:101-107 | the edge test toggles exactly when the edge straddles the ray and the point lies left of the intersection; a horizontal edge never toggles, so the intersection is never read when the division would be by zero |
| Geo.PointInPolygon | backend/utils/geo_utils.py:76-116 | fewer than 3 vertices is outside; otherwise the crossing parity |
| Geo.CrossingSymmetric | backend/utils/geo_utils.py:101-107 | whether an edge is crossed does not depend on its direction |
| Geo.RayCastDegenerate | backend/fallback_systems/red_zone_fallback.py:124-150 | the unguarded ray caster also reports outside for 1- and 2-vertex polygons |
| Geo.BoundingBox | backend/utils/geo_utils.py:117-141 | all zeros for no points; otherwise every point lies inside and each bound is attained |
| Geo.OutsideBoundingBoxIsOutside | backend/utils/geo_utils.py:96-111 | a point below, above or right of the bounding box is never inside the polygon |
| Geo.NoCrossingOutsideBox | backend/utils/geo_utils.py:96-111 | such a point crosses no edge at all |
| Geo.PolygonCenter | backend/utils/geo_utils.py:195-214 | (0, 0) for an empty polygon, otherwise the per-axis mean |
| Geo.CenterInBoundingBox | backend/utils/geo_utils.py:200-209 | the centre lies inside the bounding box of the same points |
| Geo.PolygonArea | backend/utils/geo_utils.py:166-194 | 0 below 3 vertices; otherwise the absolute shoelace sum scaled by the degree-to-metre factors, never negative |
| Geo.ShoelaceReverse | backend/utils/geo_utils.py:176-184 | reversing the vertex order negates the signed shoelace sum |
| Geo.AreaOrientationInvariant | backend/utils/geo_utils.py:184-189 | the area is the same for both vertex orders |
| Geo.OpenChainReverse | backend/utils/geo_utils.py:176-182 | the open chain of cross products negates under reversal |
| Geo.ShoelaceSplit | backend/utils/geo_utils.py:176-182 | the closed sum is the open chain plus the closing edge |
| Geo.RajasthanIsValid | backend/utils/geo_utils.py:277-310 | the inclusive Rajasthan box lies within valid coordinates; its corners are in and points just outside are not |
| Geo.NormalizeBearing | backend/utils/geo_utils.py:286-291 | the result is in [0, 360) and differs from the input by whole turns |
| Geo.NormalizeBearingIdempotent | backend/utils/geo_utils.py:286-291 | normalising twice equals normalising once |
| Geo.CalculateSpeed | backend/utils/geo_utils.py:224-243 | a non-positive time difference gives 0; otherwise the speed times the hours equals the distance |
| Geo.NearbyFilteredMembers | backend/utils/geo_utils.py:252-267 | an entry is kept iff its zone's centre is not (0, 0) and is within the maximum distance |
| Geo.GetNearbyZones | backend/utils/geo_utils.py:244-276 | the result is sorted ascending by distance and is a permutation of the kept entries |
| Geo.GetNearestMajorCity | backend/utils/geo_utils.py:311-337 | the result is one of the listed cities, no other city is nearer, and ties go to the earlier city |
| RedZones.ScanFromCharacterised | backend/fallback_systems/red_zone_fallback.py:113-122 | the scan is clear iff every zone is closed and misses the point; a breach is the first match; an exception comes from an empty polygon met before any match |
| RedZones.BreachIsFirstMatch | backend/fallback_systems/red_zone_fallback.py:154-165 | a reported breach is a zone containing the point, and no earlier zone contains it |
| RedZones.ClosedZonesScan | backend/fallback_systems/red_zone_fallback.py:113-122 | with every polygon non-empty nothing raises, and a breach is found iff some zone contains the point |
| RedZones.RedZoneSystem.CheckPointInPolygon | backend/fallback_systems/red_zone_fallback.py:108-123 | true iff the scan finds a breach; a raised exception gives false |
| RedZones.RedZoneSystem.GetZoneInfo | backend/fallback_systems/red_zone_fallback.py:151-175 | the first containing zone's record; otherwise the Safe Area record with no id, risk 0 and no breach |
| RedZones.NearbyUnsortedMembers | backend/fallback_systems/red_zone_fallback.py:181-198 | an entry is produced iff its zone's centre distance is within the radius |
| RedZones.RedZoneSystem.GetNearbyZones | backend/fallback_systems/red_zone_fallback.py:176-205 | sorted ascending by distance, and a permutation of the zones within the radius |
| RedZones.NewZone | backend/fallback_systems/red_zone_fallback.py:245-252 | a new zone gets id len + 1 and the defaults 'New Zone', 'Custom' and risk 3 |
| RedZones.RedZoneSystem.AddZone | backend/fallback_systems/red_zone_fallback.py:242-265 | below 3 coordinates returns false and changes nothing; otherwise appends exactly one zone |
| RedZones.RedZoneSystem.RemoveZone | backend/fallback_systems/red_zone_fallback.py:266-276 | always true; the list becomes the list without that id |
| RedZones.WithoutIdKeeps | backend/fallback_systems/red_zone_fallback.py:269 | exactly the zones with another id remain, and closed zones stay closed |
| RedZones.WithoutIdAppend | backend/fallback_systems/red_zone_fallback.py:269 | removal distributes over concatenation, so the relative order is kept |
| RedZones.RemoveZoneIdempotent | backend/fallback_systems/red_zone_fallback.py:269-271 | removing twice gives the same list as removing once |
| RedZones.AddAfterRemoveCanDuplicateIds | backend/fallback_systems/red_zone_fallback.py:246 | after removing zone 1 from the seed list, a new zone gets id 4, which zone 4 already has |
| RedZones.MilitaryAlphaExcludesSouthernPoint | backend/fallback_systems/red_zone_fallback.py:47-58 | a point south of Military Zone Alpha is not inside it |
| RedZones.Assemble | backend/fallback_systems/red_zone_fallback.py:284-326 | unsafe iff a breach was found, with that zone's risk; the proximity warning iff the closest nearby zone is under 1 km; the exit advice iff unsafe |
| RedZones.ProximityWarningRule | backend/fallback_systems/red_zone_fallback.py:306-314 | the closest entry of the sorted list is under 1 km iff some zone within 2 km is under 1 km |
| RedZones.RedZoneSystem.ValidateLocation | backend/fallback_systems/red_zone_fallback.py:281-326 | is_safe is false iff a breach is found, and the risk level is then that zone's; the proximity warning appears iff some zone within 2 km is under 1 km away; the exit advice appears iff the location is unsafe |
| RedZones.CombineRisk | backend/fallback_systems/red_zone_fallback.py:356-365 | with zone risk > 0 the combined level is the maximum and the place is unsafe; otherwise it is the crime score and safe iff the score is at most 4.0 |
| RedZones.Distinct | backend/fallback_systems/red_zone_fallback.py:371-372 | the same elements without duplicates |
| RedZones.MergedRecommendations | backend/fallback_systems/red_zone_fallback.py:369-372 | at most 8 distinct recommendations, all from the two sources, and all of them when there are at most 8 |
| RedZones.AreaAlerts | backend/fallback_systems/red_zone_fallback.py:368 | each crime alert becomes one warning, in order |
| RedZones.RedZoneSystem.CheckLocationWithCrimeAnalysis | backend/fallback_systems/red_zone_fallback.py:327-401 | the basic part is the breach check (unsafe iff a breach, that zone's risk and info, the proximity warning and the exit advice as in validation); the enhanced flag iff the analysis succeeded; without it the basic result unchanged; with it the combination rule and the recommendations are the first 8 distinct ones of basic then crime, all of them when there are at most 8 |
| RedZones.RedZoneSystem.Initialize | backend/fallback_systems/red_zone_fallback.py:37-103 | loads the four seed zones and sets the ready flag |
| RuleBased.KeepNewer | backend/fallback_systems/rule_based_fallback.py:299-303 | keeps exactly the history items newer than the cut-off |
| RuleBased.UpdatedHistorySpec | backend/fallback_systems/rule_based_fallback.py:283-315 | the history gains the new batch as its last item and keeps exactly the earlier items younger than 24 h; the activity time is stamped |
| RuleBased.UpdatedLocationsSpec | backend/fallback_systems/rule_based_fallback.py:283-315 | a location is appended only when the batch has one; the list keeps at most 100, the new one last and nothing dropped while there is room |
| RuleBased.UpdatedBufferValid | backend/fallback_systems/rule_based_fallback.py:299-314 | after an update, every history item is within 24 h of the activity time and at most 100 locations remain |
| RuleBased.RuleBasedSystem.UpdateUserBuffer | backend/fallback_systems/rule_based_fallback.py:283-315 | the user's buffer is replaced by its update and no other user's changes |
| RuleBased.RecentDataMembers | backend/fallback_systems/rule_based_fallback.py:316-329 | a record is returned iff some history item newer than the cut-off carries it |
| RuleBased.RuleBasedSystem.GetRecentUserData | backend/fallback_systems/rule_based_fallback.py:316-329 | the records of the history items newer than now minus the window, in order |
| RuleBased.DetectFall | backend/fallback_systems/rule_based_fallback.py:106-167 | at most 10 samples gives no alert; an alert iff some start index shows freefall, then impact, then stillness; the alert has confidence 0.75, critical priority, and the maximum and minimum magnitudes |
| RuleBased.RestingDeviceNeverStill | backend/fallback_systems/rule_based_fallback.py:139-141 | readings of at least 2.0 g after the impact rule out a fall at any index |
| RuleBased.LongImpactIsNotAFall | backend/fallback_systems/rule_based_fallback.py:129-144 | an impact spanning the stillness window is not a fall |
| RuleBased.ShortImpactIsAFall | backend/fallback_systems/rule_based_fallback.py:129-144 | a 3-sample freefall, a 2-sample impact and 5 still samples is a fall |
| RuleBased.PeakG | backend/fallback_systems/rule_based_fallback.py:196-204 | the running maximum starting from 0: an upper bound of the magnitudes, attained unless it is 0 |
| RuleBased.MaxGForce | backend/fallback_systems/rule_based_fallback.py:196-204 | the loop computes that peak over the samples |
| RuleBased.DecelerationGate | backend/fallback_systems/rule_based_fallback.py:187-192 | the 3.6-scaled deceleration is below -8 iff the speed fell by more than 100/9 |
| RuleBased.RuleBasedSystem.DetectCrash | backend/fallback_systems/rule_based_fallback.py:168-228 | no alert below 5 recent records or below 25 peak speed; otherwise an alert iff the deceleration and impact thresholds are both passed |
| RuleBased.Inactive | backend/fallback_systems/rule_based_fallback.py:337-367 | needs at least 2 locations, and holds only when the first and last of the last 20 fixes lie more than the threshold apart in time |
| RuleBased.CompassBearing | backend/fallback_systems/rule_based_fallback.py:473-484 | the bearing is normalised into [0, 360) |
| RuleBased.TurnAngle | backend/fallback_systems/rule_based_fallback.py:390-392 | the folded difference of two bearings lies in [0, 180] |
| RuleBased.TurnCountBound | backend/fallback_systems/rule_based_fallback.py:380-395 | k locations give at most k - 2 turns |
| RuleBased.RuleBasedSystem.CheckErraticMovement | backend/fallback_systems/rule_based_fallback.py:368-403 | equals the turn-ratio rule, and is never true with fewer than 6 locations |
| RuleBased.ErraticNeedsSixFixes | backend/fallback_systems/rule_based_fallback.py:374-398 | with 5 locations there are at most 3 turns, never more than 0.6 × 5 |
| RuleBased.Unusual | backend/fallback_systems/rule_based_fallback.py:404-429 | never true with fewer than 10 locations |
| RuleBased.UsualAreaInsideHistoryBox | backend/fallback_systems/rule_based_fallback.py:413-425 | the centre of past locations lies within their bounding box |
| RuleBased.RuleBasedSystem.CheckSignalLossPattern | backend/fallback_systems/rule_based_fallback.py:430-454 | true iff some consecutive gap among the last 10 items exceeds 1800 s; never with fewer than 5 items |
| RuleBased.WeightSum | backend/fallback_systems/rule_based_fallback.py:241-262 | the confidence sum is never negative |
| RuleBased.WeightSumOfIndicators | backend/fallback_systems/rule_based_fallback.py:241-262 | the sum is 0.3, 0.2, 0.3 and 0.2 over the true indicators |
| RuleBased.DistressTriggerIsTwoIndicators | backend/fallback_systems/rule_based_fallback.py:265 | "two indicators or sum above 0.5" is equivalent to "two indicators" |
| RuleBased.WeightSumLowerBound | backend/fallback_systems/rule_based_fallback.py:241-262 | each indicator adds at least 0.2 |
| RuleBased.Indicators | backend/fallback_systems/rule_based_fallback.py:241-262 | each indicator is listed iff its check holds |
| RuleBased.DistressDecisionSpec | backend/fallback_systems/rule_based_fallback.py:264-273 | an alert iff at least 2 indicators, with confidence min(sum, 0.9) and verification always required |
| RuleBased.RuleBasedSystem.DetectDistress | backend/fallback_systems/rule_based_fallback.py:229-282 | the alert follows the decision over the four computed indicators |
| RuleBased.AlertsInOrder | backend/fallback_systems/rule_based_fallback.py:88-100 | the collected alerts number at most 3, in the order fall, crash, distress |
| RuleBased.RuleBasedSystem.RunDetectors | backend/fallback_systems/rule_based_fallback.py:83-100 | fall runs only with IMU data, crash only with IMU data and a location, distress always |
| RuleBased.RuleBasedSystem.ProcessData | backend/fallback_systems/rule_based_fallback.py:72-105 | the buffer is updated first; at most 3 alerts, in detector order, each present iff its detector fires |
| Battery.ProcessingLevel | backend/utils/battery_optimization.py:50-78 | charging above 20 is HIGH; in every other case ≤15 LOW, ≤30 MEDIUM on wifi or 4g and LOW otherwise, ≤60 MEDIUM, else HIGH |
| Battery.ProcessingLevelMonotone | backend/utils/battery_optimization.py:58-73 | more battery never lowers the level |
| Battery.ConfigFor | backend/utils/battery_optimization.py:79-82 | an unknown level falls back to the MEDIUM configuration |
| Battery.ConfigOrderedByLevel | backend/utils/battery_optimization.py:29-48 | a higher level samples GPS more often, uses larger batches and runs more tasks |
| Battery.RiskMultiplier | backend/utils/battery_optimization.py:94-99 | positive, and 1.0 for an unknown risk |
| Battery.Trunc | backend/utils/battery_optimization.py:101-104 | Python's `int()` truncation toward zero |
| Battery.OptimizeSamplingRates | backend/utils/battery_optimization.py:83-112 | GPS interval at least 10 and IMU batch at most 500, computed from the level's configuration |
| Battery.SamplingFollowsRisk | backend/utils/battery_optimization.py:94-105 | a higher risk never lengthens the GPS interval nor shrinks the batch |
| Battery.RequiredLevel | backend/utils/battery_optimization.py:121-134 | the three heavy features need HIGH, any other feature needs MEDIUM |
| Battery.ShouldEnableFeature | backend/utils/battery_optimization.py:113-140 | enabled iff the current level ranks at least the required one |
| Battery.FeatureStaysEnabled | backend/utils/battery_optimization.py:113-140 | a feature enabled at some battery stays enabled at more battery |
| Battery.FeatureExtremes | backend/utils/battery_optimization.py:113-140 | nothing is enabled at 15 or below when not charging, everything above 60 |
| Battery.EstimatedDrain | backend/utils/battery_optimization.py:141-155 | rate times hours, never negative, and rate 5 for an unknown level |
| Battery.DrainOrderedByLevel | backend/utils/battery_optimization.py:147-154 | a higher level drains at least as much |
| Battery.PowerSavingRecommendations | backend/utils/battery_optimization.py:156-183 | 4, 3, 2 or 0 items for below 20, 40, 60 and above |
| Battery.FewerRecommendationsWithMoreBattery | backend/utils/battery_optimization.py:163-182 | more battery never yields more advice |
| Battery.AdaptiveSchedule | backend/utils/battery_optimization.py:184-215 | every hour 0..23 and no other key is mapped; travel hours are HIGH before active hours are MEDIUM, the rest LOW |
| Battery.DefaultSchedule | backend/utils/battery_optimization.py:197-212 | with the default patterns, 7 and 18 are HIGH, 6 and 21 MEDIUM, 5 and 22 LOW |
| Battery.EmergencyIsMostFrugal | backend/utils/battery_optimization.py:216-230 | emergency mode samples GPS less often and runs no more operations than any level, rule-based only |
| DataProcessing.ApplyNoiseFilter | backend/services/data_processing.py:44-85 | same length; shorter than 3 returned unchanged; otherwise the first two pass through and every later sample is the 3-sample mean |
| DataProcessing.Averaged | backend/services/data_processing.py:58-80 | the averaged sample keeps sample i's timestamp and carries no magnitude |
| DataProcessing.FilterKeepsTimestamps | backend/services/data_processing.py:53-59 | every output keeps its input's timestamp; the first two are unchanged |
| DataProcessing.ConstantSignalIsFixed | backend/services/data_processing.py:58-80 | a constant signal comes out unchanged |
| DataProcessing.AverageWithinWindow | backend/services/data_processing.py:58-80 | each of the six averaged channels lies between the least and the greatest of its three inputs |
| DataProcessing.WindowStats | backend/services/data_processing.py:136-146 | min ≤ mean ≤ max, range = max − min ≥ 0, energy ≥ 0, and every magnitude lies within [min, max] |
| DataProcessing.RollingFeatures | backend/services/data_processing.py:123-150 | same length and the same samples; features exactly from index 9 on, each over the 10-sample window ending there; a missing magnitude fails the whole call exactly when there are at least ten samples |
| DataProcessing.RollingFeaturesBoundWindow | backend/services/data_processing.py:132-147 | every magnitude of a window is present and lies between the window's minimum and maximum, and so does its mean |
| DataProcessing.ExtractRollingFeatures | backend/services/data_processing.py:123-150 | the loop returns exactly the rolling features, or the failure |
| DataProcessing.ExtendBounded | backend/services/data_processing.py:156-170 | appending to a bounded deque leaves the last `maxlen` entries of old contents plus the new ones |
| DataProcessing.PushSensorData | backend/services/data_processing.py:161-172 | the updated buffer respects both bounds |
| DataProcessing.PushedKeepsNewest | backend/services/data_processing.py:156-166 | a batch of at least 1000 samples leaves exactly its newest 1000 |
| DataProcessing.PushedTwice | backend/services/data_processing.py:165-166 | two updates keep the same samples as one update with both batches |
| DataProcessing.SensorDataProcessor.UpdateUserBuffer | backend/services/data_processing.py:152-173 | creates the buffer on first use; only this user's buffer changes, to its update |
| DataProcessing.RecentSlice | backend/services/data_processing.py:186 | the result is a suffix of the list |
| DataProcessing.RecentSliceSpec | backend/services/data_processing.py:186 | a positive count gives the last min(count, len) items; 0 gives all; a negative count drops items from the front |
| DataProcessing.SensorDataProcessor.GetRecentData | backend/services/data_processing.py:174-187 | an unknown user or key gives nothing; otherwise a suffix of that deque |
| DataProcessing.MovementOver | backend/services/data_processing.py:197-232 | the loop computes the path length, the km/h mean speed, the variance and the count |
| DataProcessing.MetricsBounds | backend/services/data_processing.py:224-229 | the variance is never negative; with non-negative distances neither are the distance nor the speed |
| DataProcessing.SensorDataProcessor.CalculateMovementMetrics | backend/services/data_processing.py:188-237 | zeros without a count for fewer than 2 of the last 50 fixes; otherwise the metrics of those fixes |
| DataProcessing.ActivityLevel | backend/services/data_processing.py:276-283 | below 2 stationary, below 5 walking, below 10 active, else very_active |
| DataProcessing.PatternConfidence | backend/services/data_processing.py:289 | in [0, 1], and 1 iff there are at least 100 samples |
| DataProcessing.SensorDataProcessor.DetectActivityPatterns | backend/services/data_processing.py:258-296 | 'unknown' with confidence 0 for no data; otherwise the band of the mean magnitude (missing read as 0), its variance, the confidence and the count |
| Alerts.NewRecord | backend/services/alert_service.py:27-38 | the stored record copies the caller's fields and is neither acknowledged nor notified |
| Alerts.AlertService.StoreAlert | backend/services/alert_service.py:24-47 | appends exactly one record and returns its id; earlier records are unchanged |
| Alerts.OfUserMembers | backend/services/alert_service.py:52-55 | the filter keeps exactly that user's alerts |
| Alerts.OfUserAppend | backend/services/alert_service.py:40-55 | a stored alert joins the end of its user's list and no other user's |
| Alerts.RecentAlerts | backend/services/alert_service.py:52-60 | only that user's stored alerts, newest first, min(limit, count) of them |
| Alerts.RecentAlertsAreNewest | backend/services/alert_service.py:58-60 | no alert left out by the limit is newer than one returned |
| Alerts.RecentAlertsComplete | backend/services/alert_service.py:58-60 | a large enough limit returns all of the user's alerts |
| Alerts.FirstMatch | backend/services/alert_service.py:149-150 | the index of the first record with the id (or, for `_update_alert_status`, of the user), and none exactly when no record matches |
| Alerts.AlertService.AcknowledgeAlert | backend/services/alert_service.py:146-163 | acknowledges the first record with the id and returns true; false and no change when the id is absent |
| Alerts.AcknowledgeAgain | backend/services/alert_service.py:149-157 | a repeated acknowledgement finds the same record and leaves it acknowledged |
| Alerts.StoredAlertIsFound | backend/services/alert_service.py:149-150 | a stored alert with an unused id is what acknowledgement finds |
| Alerts.AlertService.UpdateAlertStatus | backend/services/alert_service.py:139-144 | marks only the user's first stored alert; every other record is unchanged |
| Alerts.AlertService.SendSmsAlert | backend/services/alert_service.py:110-126 | formats the text and marks the user's first alert as sent |
| Alerts.FormatSms | backend/services/alert_service.py:128-137 | at most 160 characters, a prefix of the full text, the full text when it fits, and the header always kept |
| Alerts.ShortMessageSurvives | backend/services/alert_service.py:134-137 | a short enough message without a location survives whole |
| Alerts.DispatchFor | backend/services/alert_service.py:84-89 | exactly one strategy: critical immediate, high priority, anything else standard |
| Alerts.NotifyAuthorities | backend/services/alert_service.py:66-92 | the payload carries the alert's id attribute (or none) and its fields, and the dispatch follows the priority |

## Left out

- Haversine distance (`calculate_distance`, `_calculate_distance`), bearing and the `sqrt` magnitude are parameters. Nothing is proved about their values beyond what a lemma assumes.
- `expand_bounding_box` uses `cos` and is not modelled. Neither is `is_within_radius`, which only compares a haversine distance.
- `_normalize_imu_data` and `process_imu_sequence` use `sqrt` and are not modelled. The fallback that `process_imu_sequence` takes on an exception is not modelled either.
- DataProcessing.WindowStats: the `acc_std` feature (numpy `std`) is not modelled.
- DataProcessing.SensorDataProcessor.CalculateMovementMetrics: fix timestamps are instants in seconds. The ISO parse that can raise, and the exception path that would then return zeros, are not modelled.
- DataProcessing.SensorDataProcessor.GetRecentData: asking for `last_update` gives `NotAList`. The source raises a `TypeError` there.
- Alerts.RecentAlerts: timestamps are sorted as instants. The source sorts their ISO strings, which gives the same order only for timestamps written in one format.
- Alerts.FormatSms: the `:.4f` coordinate formatting is a parameter, and the hour and minute are passed in.
- RedZones.Distinct: `list(set(...))` has no defined order. The model keeps first occurrences, so only the set of recommendations kept is modelled, not which 8 survive when there are more.
- RedZones.RedZoneSystem.CheckLocationWithCrimeAnalysis: the crime scorer is not part of this model. Its outcome is an input: unavailable, failed, or a score with recommendations and alerts.
- RuleBased.RuleBasedSystem.DetectCrash: a crash check with IMU data but a null location raises in the source. The model runs crash only when a location is present, as `process_data` does.
- RuleBased.SpeedOf: a stored record whose `location` key is present but null makes the source's speed lookup raise, so `_detect_crash_rule_based` returns no alert. The model has one `None` for both a missing and a null location and reads both as speed 0, so for a history such as speeds 30, null, null, 30, 0 with a peak above 20 g the model alerts where the source does not.
- The `is_ready`, `get_all_zones`, `get_system_status`, `get_tourist_area_crime_stats` and `get_user_history` accessors only return fields or fixed dictionaries, and are not modelled.
- Logging, `async`, the authority endpoints and the three notification senders only write log lines, and are not modelled.
- Battery.DefaultSchedule: stated for sample hours of the default patterns. AdaptiveSchedule states the rule for every hour.
- Numbers are unbounded reals. Floating-point rounding, `NaN` and infinities are not modelled.
