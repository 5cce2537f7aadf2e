/**
 * The rule-based detectors of backend/fallback_systems/rule_based_fallback.py
 * (class RuleBasedSystemFallback): a per-user buffer of recent batches and locations, and
 * the fall, crash and distress rules evaluated over it.
 *
 * `now` is the wall clock in seconds; the magnitude `sqrt(ax^2 + ay^2 + az^2)`, the
 * haversine distance and the raw `degrees(atan2(y, x))` bearing are supplied by the caller.
 */
module RuleBased {
  import opened Wrappers
  import opened Sensors
  import opened Geo
  import opened Stats
  import opened Slices

  // ---------------------------------------------------------------- thresholds

  const FreefallGMax: real := 2.0
  const FallImpactG: real := 15.0
  const StillnessThreshold: real := 2.0
  const FallConfidence: real := 0.75
  const MinFallSamples: nat := 10

  const MinVehicleSpeed: real := 25.0
  const DecelerationThreshold: real := -8.0
  const CrashImpactG: real := 20.0
  const CrashConfidence: real := 0.8
  const CrashWindowSeconds: int := 30

  const StationaryHours: real := 4.0
  const InactivityKm: real := 0.1
  const UnusualKm: real := 10.0
  const SignalGapSeconds: int := 1800
  const TurnDegrees: real := 45.0
  const DistressConfidenceCap: real := 0.9

  const HistorySeconds: int := 86400
  const MaxLocations: nat := 100

  // ---------------------------------------------------------------- records

  datatype HistoryItem = HistoryItem(timestamp: int, data: SensorData)
  datatype LocationItem = LocationItem(timestamp: int, location: Location)
  datatype UserBuffer = UserBuffer(dataHistory: seq<HistoryItem>, locations: seq<LocationItem>, lastActivity: int)

  datatype Indicator = ProlongedInactivity | ErraticMovement | UnusualLocation | SignalLossPattern

  datatype AlertType = FallDetected | CrashDetected | DistressDetected

  datatype Details =
    | FallDetails(maxImpactG: real, minFreefallG: real)
    | CrashDetails(maxGForce: real, deceleration: real, speedBefore: real, speedAfter: real)
    | DistressDetails(indicators: seq<Indicator>, requiresVerification: bool)

  datatype Alert = Alert(userId: string, alertType: AlertType, priority: string, confidence: real,
                         message: string, timestamp: int, details: Details)

  // ---------------------------------------------------------------- buffer

  /** `[item for item in items if item['timestamp'] > cutoff]`. */
  function KeepNewer(items: seq<HistoryItem>, cutoff: int): (r: seq<HistoryItem>)
    ensures |r| <= |items|
    ensures forall i :: 0 <= i < |r| ==> r[i].timestamp > cutoff
    ensures forall x :: x in r <==> x in items && x.timestamp > cutoff
  {
    if items == [] then []
    else
      var last := items[|items| - 1];
      var rest := KeepNewer(items[..|items| - 1], cutoff);
      assert forall x :: x in items <==> x in items[..|items| - 1] || x == last;
      rest + (if last.timestamp > cutoff then [last] else [])
  }

  /** The buffer `_update_user_buffer` leaves behind, from the user's previous buffer, if any. */
  function UpdatedBuffer(prior: Option<UserBuffer>, data: SensorData, now: int): UserBuffer
  {
    var base := prior.GetOr(UserBuffer([], [], now));
    var history := KeepNewer(base.dataHistory + [HistoryItem(now, data)], now - HistorySeconds);
    var locations :=
      if data.location.Some? then LastN(base.locations + [LocationItem(now, data.location.value)], MaxLocations)
      else base.locations;
    UserBuffer(history, locations, now)
  }

  /**
   * The update appends the new batch (it is never cut, being newer than the 24-hour cutoff),
   * keeps exactly the earlier items younger than 24 hours and stamps the activity.
   */
  lemma UpdatedHistorySpec(prior: Option<UserBuffer>, data: SensorData, now: int)
    ensures var b := UpdatedBuffer(prior, data, now);
      var base := prior.GetOr(UserBuffer([], [], now));
      && |b.dataHistory| > 0 && b.dataHistory[|b.dataHistory| - 1] == HistoryItem(now, data)
      && (forall x :: x in b.dataHistory <==>
            x == HistoryItem(now, data) || (x in base.dataHistory && x.timestamp > now - HistorySeconds))
      && (forall i :: 0 <= i < |b.dataHistory| ==> b.dataHistory[i].timestamp > now - HistorySeconds)
      && b.lastActivity == now
  {
    var base := prior.GetOr(UserBuffer([], [], now));
    KeepNewerAppendKept(base.dataHistory, HistoryItem(now, data), now - HistorySeconds);
  }

  /**
   * The update appends a location only when the batch has one, keeps at most 100 locations and
   * drops the oldest first.
   */
  lemma UpdatedLocationsSpec(prior: Option<UserBuffer>, data: SensorData, now: int)
    ensures var b := UpdatedBuffer(prior, data, now);
      var base := prior.GetOr(UserBuffer([], [], now));
      && (data.location.None? ==> b.locations == base.locations)
      && (data.location.Some? ==>
            && |b.locations| > 0 && |b.locations| <= MaxLocations
            && b.locations[|b.locations| - 1] == LocationItem(now, data.location.value)
            && (|base.locations| < MaxLocations ==> b.locations == base.locations + [LocationItem(now, data.location.value)]))
  {
    var base := prior.GetOr(UserBuffer([], [], now));
    if data.location.Some? {
      LastNAppendKeepsItem(base.locations, LocationItem(now, data.location.value), MaxLocations);
    }
  }

  lemma KeepNewerAppendKept(items: seq<HistoryItem>, x: HistoryItem, cutoff: int)
    requires x.timestamp > cutoff
    ensures KeepNewer(items + [x], cutoff) == KeepNewer(items, cutoff) + [x]
  {
    assert (items + [x])[..|items + [x]| - 1] == items;
  }

  predicate BufferValid(b: UserBuffer)
  {
    && |b.locations| <= MaxLocations
    && forall i :: 0 <= i < |b.dataHistory| ==> b.dataHistory[i].timestamp > b.lastActivity - HistorySeconds
  }

  lemma UpdatedBufferValid(prior: Option<UserBuffer>, data: SensorData, now: int)
    requires prior.Some? ==> BufferValid(prior.value)
    ensures BufferValid(UpdatedBuffer(prior, data, now))
  {
    UpdatedHistorySpec(prior, data, now);
    UpdatedLocationsSpec(prior, data, now);
  }

  function Lookup(buffers: map<string, UserBuffer>, userId: string): Option<UserBuffer>
  {
    if userId in buffers then Some(buffers[userId]) else None
  }

  /** `_get_user_history`: an unknown user has no history. */
  function HistoryOf(buffers: map<string, UserBuffer>, userId: string): seq<HistoryItem>
  {
    if userId in buffers then buffers[userId].dataHistory else []
  }

  function LocationsOf(buffers: map<string, UserBuffer>, userId: string): seq<LocationItem>
  {
    if userId in buffers then buffers[userId].locations else []
  }

  /** The batches of the items newer than `cutoff`, in buffer order. */
  function RecentData(items: seq<HistoryItem>, cutoff: int): (r: seq<SensorData>)
    ensures |r| <= |items|
  {
    if items == [] then []
    else
      var last := items[|items| - 1];
      RecentData(items[..|items| - 1], cutoff) + (if last.timestamp > cutoff then [last.data] else [])
  }

  lemma {:induction false} RecentDataMembers(items: seq<HistoryItem>, cutoff: int, d: SensorData)
    ensures d in RecentData(items, cutoff) <==> exists i :: 0 <= i < |items| && items[i].timestamp > cutoff && items[i].data == d
  {
    if items != [] {
      var init := items[..|items| - 1];
      RecentDataMembers(init, cutoff, d);
      if exists i :: 0 <= i < |items| && items[i].timestamp > cutoff && items[i].data == d {
        var i :| 0 <= i < |items| && items[i].timestamp > cutoff && items[i].data == d;
        if i < |init| {
          assert init[i] == items[i];
        }
      }
      if exists i :: 0 <= i < |init| && init[i].timestamp > cutoff && init[i].data == d {
        var i :| 0 <= i < |init| && init[i].timestamp > cutoff && init[i].data == d;
        assert items[i] == init[i];
      }
    }
  }

  // ---------------------------------------------------------------- fall

  predicate AllBelow(s: seq<real>, t: real)
  {
    forall j :: 0 <= j < |s| ==> s[j] < t
  }

  predicate AnyAbove(s: seq<real>, t: real)
  {
    exists j :: 0 <= j < |s| && s[j] > t
  }

  /** Freefall in `[i, i+3)`, an impact in `[i+3, i+5)`, stillness in `[i+5, i+10)`. */
  predicate FallPatternAt(mags: seq<real>, i: nat)
  {
    && i + 10 < |mags|
    && AllBelow(mags[i..i + 3], FreefallGMax)
    && AnyAbove(mags[i + 3..i + 5], FallImpactG)
    && AllBelow(mags[i + 5..i + 10], StillnessThreshold)
  }

  predicate FallPattern(mags: seq<real>)
  {
    exists i: nat :: i < |mags| && FallPatternAt(mags, i)
  }

  function FallAlert(userId: string, mags: seq<real>, now: int): Alert
    requires |mags| > 0
  {
    Alert(userId, FallDetected, "critical", FallConfidence, "Fall detected using rule-based system", now,
          FallDetails(SeqMax(mags), SeqMin(mags)))
  }

  /**
   * `_detect_fall_rule_based`: scans start offsets in order and stops at the first full
   * freefall-impact-stillness match.
   */
  method DetectFall(userId: string, imu: seq<ImuSample>, magnitude: MagnitudeFn, now: int) returns (alert: Option<Alert>)
    ensures |imu| <= MinFallSamples ==> alert.None?
    ensures alert.Some? <==> FallPattern(Magnitudes(imu, magnitude))
    ensures alert.Some? ==> alert.value == FallAlert(userId, Magnitudes(imu, magnitude), now)
    ensures alert.Some? ==> alert.value.confidence == 0.75 && alert.value.priority == "critical"
    ensures alert.Some? ==> alert.value.alertType == FallDetected && alert.value.userId == userId && alert.value.timestamp == now
  {
    if |imu| < MinFallSamples {
      return None;
    }
    var mags := Magnitudes(imu, magnitude);
    var n := |mags|;
    for i := 0 to n - 5
      invariant forall j: nat :: j < i ==> !FallPatternAt(mags, j)
    {
      if AllBelow(mags[i..i + 3], FreefallGMax) {
        if AnyAbove(mags[i + 3..i + 5], FallImpactG) {
          if i + 10 < n {
            if AllBelow(mags[i + 5..i + 10], StillnessThreshold) {
              assert FallPatternAt(mags, i);
              return Some(FallAlert(userId, mags, now));
            }
          }
        }
      }
    }
    return None;
  }

  /**
   * A device at rest reads about 1 g (9.8) on the accelerometer, above the stillness threshold
   * of 2.0: when every sample from some offset on is at least 2.0, no match starts at or
   * after five samples before it.
   */
  lemma RestingDeviceNeverStill(mags: seq<real>, from: nat, i: nat)
    requires forall j :: from <= j < |mags| ==> mags[j] >= StillnessThreshold
    requires i + 5 >= from
    ensures !FallPatternAt(mags, i)
  {
    if i + 10 < |mags| {
      var still := mags[i + 5..i + 10];
      assert still[0] == mags[i + 5];
    }
  }

  /** Ten samples at 1.0, five at 25.0 and fifteen at 10.0. */
  function FreefallLongImpactRest(): (s: seq<real>)
    ensures |s| == 30
  {
    seq(30, j => if j < 10 then 1.0 else if j < 15 then 25.0 else 10.0)
  }

  /**
   * The five-sample impact in this series leaves no stillness window of five samples below
   * 2.0 after it, so no fall is reported.
   */
  lemma LongImpactIsNotAFall()
    ensures !FallPattern(FreefallLongImpactRest())
  {
    forall i: nat | i < 30 ensures !FallPatternAt(FreefallLongImpactRest(), i) {
      NoFallAt(i);
    }
  }

  lemma NoFallAt(i: nat)
    ensures !FallPatternAt(FreefallLongImpactRest(), i)
  {
    var s := FreefallLongImpactRest();
    if i + 10 < |s| && AllBelow(s[i..i + 3], FreefallGMax) && AnyAbove(s[i + 3..i + 5], FallImpactG) {
      assert s[i..i + 3][2] == s[i + 2];
      var j :| 0 <= j < 2 && s[i + 3..i + 5][j] > FallImpactG;
      assert s[i + 3..i + 5][j] == s[i + 3 + j];
      assert s[i + 5..i + 10][0] == s[i + 5];
    }
  }

  /** Ten samples at 1.0, two at 25.0 and eighteen at 1.0. */
  function FreefallShortImpactStill(): (s: seq<real>)
    ensures |s| == 30
  {
    seq(30, j => if 10 <= j < 12 then 25.0 else 1.0)
  }

  /** A two-sample impact followed by stillness is detected, matching at offset 7. */
  lemma ShortImpactIsAFall()
    ensures FallPatternAt(FreefallShortImpactStill(), 7)
  {
    var s := FreefallShortImpactStill();
    assert s[10] == 25.0;
    assert s[7..10][0] == s[7];
    assert s[10..12][0] == s[10];
  }

  // ---------------------------------------------------------------- crash

  /** `data.get('location', {}).get('speed', 0)`: a missing location or speed reads as 0. */
  function SpeedOf(d: SensorData): real
  {
    if d.location.Some? then d.location.value.speed.GetOr(0.0) else 0.0
  }

  function Speeds(recent: seq<SensorData>): (r: seq<real>)
    ensures |r| == |recent| && forall i :: 0 <= i < |recent| ==> r[i] == SpeedOf(recent[i])
  {
    seq(|recent|, i requires 0 <= i < |recent| => SpeedOf(recent[i]))
  }

  /** The source's "deceleration": the speed change over the window, divided by 5 and times 3.6. */
  function Deceleration(speeds: seq<real>): real
    requires |speeds| > 0
  {
    (speeds[|speeds| - 1] - speeds[0]) / 5.0 * 3.6
  }

  /** `max_g_force`: the running maximum starting from 0. */
  function PeakG(mags: seq<real>): (m: real)
    ensures m >= 0.0
    ensures forall i :: 0 <= i < |mags| ==> mags[i] <= m
    ensures m == 0.0 || exists i :: 0 <= i < |mags| && mags[i] == m
  {
    if mags == [] then 0.0
    else
      var rest := PeakG(mags[..|mags| - 1]);
      var last := mags[|mags| - 1];
      if rest >= last then
        assert forall i :: 0 <= i < |mags| - 1 ==> mags[i] == mags[..|mags| - 1][i];
        rest
      else last
  }

  /** The loop over `imu_data[-10:]` that keeps the running maximum, from 0. */
  method MaxGForce(samples: seq<ImuSample>, magnitude: MagnitudeFn) returns (maxG: real)
    ensures maxG == PeakG(Magnitudes(samples, magnitude))
  {
    maxG := 0.0;
    for i := 0 to |samples|
      invariant maxG == PeakG(Magnitudes(samples[..i], magnitude))
    {
      var g := magnitude(samples[i]);
      assert Magnitudes(samples[..i + 1], magnitude)[..i] == Magnitudes(samples[..i], magnitude);
      maxG := if maxG >= g then maxG else g;
    }
    assert samples[..|samples|] == samples;
  }

  /**
   * The factor 3.6 makes the gate a speed drop of more than 100/9 (about 11.1) km/h between
   * the first and the last of the five speeds.
   */
  lemma DecelerationGate(speeds: seq<real>)
    requires |speeds| > 0
    ensures Deceleration(speeds) < DecelerationThreshold <==> speeds[0] - speeds[|speeds| - 1] > 100.0 / 9.0
  {
  }

  function CrashAlert(userId: string, speeds: seq<real>, peak: real, now: int): Alert
    requires |speeds| > 0
  {
    Alert(userId, CrashDetected, "critical", CrashConfidence, "Vehicle crash detected using rule-based system", now,
          CrashDetails(peak, Deceleration(speeds), speeds[0], speeds[|speeds| - 1]))
  }

  /** The three crash conditions over the recent batches and the current batch's magnitudes. */
  predicate CrashConditions(recent: seq<SensorData>, mags: seq<real>)
  {
    var speeds := Speeds(LastN(recent, 5));
    && |recent| >= 5
    && SeqMax(speeds) >= MinVehicleSpeed
    && Deceleration(speeds) < DecelerationThreshold
    && PeakG(LastN(mags, 10)) > CrashImpactG
  }

  // ---------------------------------------------------------------- distress indicators

  /**
   * `_check_prolonged_inactivity`: the first and last of the last 20 fixes are under 100 m
   * apart and more than `thresholdHours` apart in time.
   */
  function Inactive(locations: seq<LocationItem>, thresholdHours: real, dist: DistanceFn): (r: bool)
    ensures r ==> |locations| >= 2
    ensures r ==> var recent := LastN(locations, 20);
      (recent[|recent| - 1].timestamp - recent[0].timestamp) as real > thresholdHours * 3600.0
  {
    var recent := LastN(locations, 20);
    if |recent| < 2 then false
    else
      var first, last := recent[0], recent[|recent| - 1];
      var distance := dist(first.location.ToPoint(), last.location.ToPoint());
      var hours := (last.timestamp - first.timestamp) as real / 3600.0;
      distance < InactivityKm && hours > thresholdHours
  }

  /** The compass bearing `(degrees(atan2(y, x)) + 360) % 360` from the raw angle. */
  function CompassBearing(bearing: BearingFn, a: Location, b: Location): (r: real)
    ensures 0.0 <= r < 360.0
  {
    NormalizeBearing(bearing(a.ToPoint(), b.ToPoint()) + 360.0)
  }

  /** The turn between two compass bearings, folded to the smaller side. */
  function TurnAngle(b1: real, b2: real): (r: real)
    ensures 0.0 <= b1 < 360.0 && 0.0 <= b2 < 360.0 ==> 0.0 <= r <= 180.0
  {
    var diff := if b2 - b1 < 0.0 then b1 - b2 else b2 - b1;
    if diff > 180.0 then 360.0 - diff else diff
  }

  /** The number of sharp turns (over 45 degrees) at the interior points of `locs[..k]`. */
  function TurnCount(locs: seq<LocationItem>, k: nat, bearing: BearingFn): nat
    requires k <= |locs|
  {
    if k < 3 then 0
    else
      var a, b, c := locs[k - 3].location, locs[k - 2].location, locs[k - 1].location;
      TurnCount(locs, k - 1, bearing) + (if TurnAngle(CompassBearing(bearing, a, b), CompassBearing(bearing, b, c)) > TurnDegrees then 1 else 0)
  }

  lemma {:induction false} TurnCountBound(locs: seq<LocationItem>, k: nat, bearing: BearingFn)
    requires k <= |locs|
    ensures k >= 2 ==> TurnCount(locs, k, bearing) <= k - 2
    ensures k < 2 ==> TurnCount(locs, k, bearing) == 0
  {
    if k >= 3 {
      TurnCountBound(locs, k - 1, bearing);
    }
  }

  predicate Erratic(locations: seq<LocationItem>, bearing: BearingFn)
  {
    var recent := LastN(locations, 10);
    |recent| >= 5 && TurnCount(recent, |recent|, bearing) as real > |recent| as real * 0.6
  }

  /**
   * With the last ten fixes there are at most eight turns, so erratic movement needs at least
   * six fixes: five fixes allow three turns, and three is not more than 0.6 * 5.
   */
  lemma ErraticNeedsSixFixes(locations: seq<LocationItem>, bearing: BearingFn)
    ensures Erratic(locations, bearing) ==> |locations| >= 6
  {
    var recent := LastN(locations, 10);
    TurnCountBound(recent, |recent|, bearing);
  }

  function Points(items: seq<LocationItem>): (r: seq<Point>)
    ensures |r| == |items| && forall i :: 0 <= i < |items| ==> r[i] == items[i].location.ToPoint()
  {
    seq(|items|, i requires 0 <= i < |items| => items[i].location.ToPoint())
  }

  /**
   * `_check_unusual_location`: with at least ten fixes, the current position is more than
   * 10 km from the mean of all buffered fixes.
   */
  function Unusual(locations: seq<LocationItem>, current: Location, dist: DistanceFn): (r: bool)
    ensures r ==> |locations| >= 10
  {
    |locations| >= 10 && dist(current.ToPoint(), PolygonCenter(Points(locations))) > UnusualKm
  }

  /** The reference point of the unusual-location test lies within the box of the fixes. */
  lemma UsualAreaInsideHistoryBox(locations: seq<LocationItem>)
    requires |locations| > 0
    ensures var c := PolygonCenter(Points(locations)); InBox(BoundingBox(Points(locations)), c.lat, c.lng)
  {
    CenterInBoundingBox(Points(locations));
  }

  predicate GapAt(items: seq<HistoryItem>, i: nat)
    requires 1 <= i < |items|
  {
    items[i].timestamp - items[i - 1].timestamp > SignalGapSeconds
  }

  /** `_check_signal_loss_pattern`: some gap over 30 minutes between consecutive items of the last ten. */
  predicate SignalLoss(history: seq<HistoryItem>)
  {
    var recent := LastN(history, 10);
    |history| >= 5 && exists i :: 1 <= i < |recent| && GapAt(recent, i)
  }

  function Weight(ind: Indicator): real
  {
    match ind
    case ProlongedInactivity => 0.3
    case ErraticMovement => 0.2
    case UnusualLocation => 0.3
    case SignalLossPattern => 0.2
  }

  function WeightSum(inds: seq<Indicator>): (r: real)
    ensures r >= 0.0
  {
    if inds == [] then 0.0 else WeightSum(inds[..|inds| - 1]) + Weight(inds[|inds| - 1])
  }

  /**
   * No single weight exceeds 0.5, so "two indicators or a weight above 0.5" fires exactly when
   * two indicators hold; the reported confidence then lies in (0.4, 0.9].
   */
  lemma DistressTriggerIsTwoIndicators(inds: seq<Indicator>)
    ensures (|inds| >= 2 || WeightSum(inds) > 0.5) <==> |inds| >= 2
    ensures |inds| >= 2 ==> WeightSum(inds) >= 0.4
  {
    if |inds| >= 2 {
      WeightSumLowerBound(inds);
    } else if |inds| == 1 {
      assert inds[..0] == [];
    }
  }

  lemma {:induction false} WeightSumLowerBound(inds: seq<Indicator>)
    ensures WeightSum(inds) >= 0.2 * |inds| as real
  {
    if inds != [] {
      WeightSumLowerBound(inds[..|inds| - 1]);
    }
  }

  function IndicatorName(ind: Indicator): string
  {
    match ind
    case ProlongedInactivity => "prolonged_inactivity"
    case ErraticMovement => "erratic_movement"
    case UnusualLocation => "unusual_location"
    case SignalLossPattern => "signal_loss_pattern"
  }

  /** `", ".join(names)`. */
  function JoinNames(inds: seq<Indicator>): string
  {
    if inds == [] then ""
    else if |inds| == 1 then IndicatorName(inds[0])
    else IndicatorName(inds[0]) + ", " + JoinNames(inds[1..])
  }

  function MinReal(a: real, b: real): real { if a <= b then a else b }

  function DistressAlert(userId: string, inds: seq<Indicator>, now: int): Alert
  {
    Alert(userId, DistressDetected, "medium", MinReal(WeightSum(inds), DistressConfidenceCap),
          "Distress indicators detected: " + JoinNames(inds), now, DistressDetails(inds, true))
  }

  /** The indicators in the order the detector tests them. */
  function Indicators(b: bool, e: bool, u: bool, s: bool): (r: seq<Indicator>)
    ensures ProlongedInactivity in r <==> b
    ensures ErraticMovement in r <==> e
    ensures UnusualLocation in r <==> u
    ensures SignalLossPattern in r <==> s
    ensures |r| <= 4
  {
    (if b then [ProlongedInactivity] else []) + (if e then [ErraticMovement] else [])
    + (if u then [UnusualLocation] else []) + (if s then [SignalLossPattern] else [])
  }

  /** The indicators the distress detector finds for this user and batch. */
  function DistressIndicators(buffers: map<string, UserBuffer>, userId: string, data: SensorData,
                              dist: DistanceFn, bearing: BearingFn): seq<Indicator>
  {
    var locations := LocationsOf(buffers, userId);
    Indicators(Inactive(locations, StationaryHours, dist), Erratic(locations, bearing),
               data.location.Some? && Unusual(locations, data.location.value, dist),
               SignalLoss(HistoryOf(buffers, userId)))
  }

  function AlertRank(a: Alert): nat
  {
    match a.alertType
    case FallDetected => 0
    case CrashDetected => 1
    case DistressDetected => 2
  }

  function Opt(a: Option<Alert>): (r: seq<Alert>)
    ensures |r| <= 1 && (a.Some? <==> |r| == 1) && (a.Some? ==> r[0] == a.value)
  {
    if a.Some? then [a.value] else []
  }

  // ---------------------------------------------------------------- the detector

  class RuleBasedSystem {
    var isInitialized: bool
    var buffers: map<string, UserBuffer>

    ghost predicate Valid()
      reads this
    {
      BuffersValid(buffers)
    }

    constructor ()
      ensures !isInitialized && buffers == map[] && Valid()
    {
      isInitialized := false;
      buffers := map[];
    }

    /** `initialize`: the thresholds are the constants of this module. */
    method Initialize()
      modifies this
      ensures isInitialized && buffers == old(buffers)
    {
      isInitialized := true;
    }

    /** `_update_user_buffer`: only this user's buffer changes. */
    method UpdateUserBuffer(userId: string, data: SensorData, now: int)
      requires Valid()
      modifies this
      ensures Valid() && isInitialized == old(isInitialized)
      ensures buffers == old(buffers)[userId := UpdatedBuffer(Lookup(old(buffers), userId), data, now)]
    {
      var prior := Lookup(buffers, userId);
      var updated := UpdatedBuffer(prior, data, now);
      BuffersStayValid(buffers, userId, data, now);
      buffers := buffers[userId := updated];
    }

    /** `_get_recent_user_data`: the batches stored less than `seconds` ago, oldest first. */
    method GetRecentUserData(userId: string, seconds: int, now: int) returns (recent: seq<SensorData>)
      ensures recent == RecentData(HistoryOf(buffers, userId), now - seconds)
      ensures forall d :: d in recent <==>
        exists i :: 0 <= i < |HistoryOf(buffers, userId)| && HistoryOf(buffers, userId)[i].timestamp > now - seconds
                    && HistoryOf(buffers, userId)[i].data == d
    {
      var items := HistoryOf(buffers, userId);
      var cutoff := now - seconds;
      recent := [];
      for i := 0 to |items|
        invariant recent == RecentData(items[..i], cutoff)
      {
        assert items[..i + 1][..i] == items[..i];
        if items[i].timestamp > cutoff {
          recent := recent + [items[i].data];
        }
      }
      assert items[..|items|] == items;
      forall d ensures d in recent <==> exists i :: 0 <= i < |items| && items[i].timestamp > cutoff && items[i].data == d {
        RecentDataMembers(items, cutoff, d);
      }
    }

    /**
     * `_detect_crash_rule_based`: at least five batches in the last 30 seconds, a top speed of
     * at least 25 km/h among the last five, the deceleration gate, and a peak over 20 g among
     * the current batch's last ten samples.
     */
    method DetectCrash(userId: string, data: SensorData, now: int, magnitude: MagnitudeFn) returns (alert: Option<Alert>)
      ensures var recent := RecentData(HistoryOf(buffers, userId), now - CrashWindowSeconds);
        var mags := Magnitudes(data.imuData, magnitude);
        && (alert.Some? <==> CrashConditions(recent, mags))
        && (alert.Some? ==> alert.value == CrashAlert(userId, Speeds(LastN(recent, 5)), PeakG(LastN(mags, 10)), now))
      ensures alert.Some? ==> alert.value.alertType == CrashDetected && alert.value.userId == userId && alert.value.timestamp == now
    {
      var recent := GetRecentUserData(userId, CrashWindowSeconds, now);
      if |recent| < 5 {
        return None;
      }
      var speeds := Speeds(LastN(recent, 5));
      var maxRecentSpeed := SeqMax(speeds);
      if maxRecentSpeed < MinVehicleSpeed {
        return None;
      }
      var deceleration := Deceleration(speeds);
      if deceleration < DecelerationThreshold {
        var maxG := MaxGForce(LastN(data.imuData, 10), magnitude);
        assert Magnitudes(LastN(data.imuData, 10), magnitude) == LastN(Magnitudes(data.imuData, magnitude), 10);
        if maxG > CrashImpactG {
          return Some(CrashAlert(userId, speeds, maxG, now));
        }
      }
      return None;
    }

    /** `_check_erratic_movement`: counts sharp turns over the last ten fixes. */
    method CheckErraticMovement(userId: string, bearing: BearingFn) returns (erratic: bool)
      ensures erratic == Erratic(LocationsOf(buffers, userId), bearing)
      ensures erratic ==> |LocationsOf(buffers, userId)| >= 6
    {
      ErraticNeedsSixFixes(LocationsOf(buffers, userId), bearing);
      var locations := LastN(LocationsOf(buffers, userId), 10);
      if |locations| < 5 {
        return false;
      }
      var changes: nat := 0;
      for i := 2 to |locations|
        invariant changes == TurnCount(locations, i, bearing)
      {
        var b1 := CompassBearing(bearing, locations[i - 2].location, locations[i - 1].location);
        var b2 := CompassBearing(bearing, locations[i - 1].location, locations[i].location);
        var diff := if b2 - b1 < 0.0 then b1 - b2 else b2 - b1;
        if diff > 180.0 {
          diff := 360.0 - diff;
        }
        if diff > TurnDegrees {
          changes := changes + 1;
        }
      }
      return changes as real > |locations| as real * 0.6;
    }

    /** `_check_signal_loss_pattern`: stops at the first gap over 30 minutes. */
    method CheckSignalLossPattern(userId: string) returns (lost: bool)
      ensures lost == SignalLoss(HistoryOf(buffers, userId))
      ensures lost ==> |HistoryOf(buffers, userId)| >= 5
    {
      var history := HistoryOf(buffers, userId);
      if |history| < 5 {
        return false;
      }
      var recent := LastN(history, 10);
      for i := 1 to |recent|
        invariant forall j :: 1 <= j < i ==> !GapAt(recent, j)
      {
        if recent[i].timestamp - recent[i - 1].timestamp > SignalGapSeconds {
          assert GapAt(recent, i);
          return true;
        }
      }
      return false;
    }

    /**
     * `_detect_distress_rule_based`: four indicators (unusual location only for a batch with a
     * location), weighted 0.3/0.2/0.3/0.2; fires on two indicators or a weight above 0.5.
     */
    method DetectDistress(userId: string, data: SensorData, now: int, dist: DistanceFn, bearing: BearingFn)
      returns (alert: Option<Alert>)
      ensures var inds := DistressIndicators(buffers, userId, data, dist, bearing);
        && alert == DistressDecision(userId, inds, now)
        && (alert.Some? <==> |inds| >= 2)
      ensures alert.Some? ==> alert.value.alertType == DistressDetected && alert.value.userId == userId && alert.value.timestamp == now
    {
      var locations := LocationsOf(buffers, userId);
      var inactive := Inactive(locations, StationaryHours, dist);
      var erratic := CheckErraticMovement(userId, bearing);
      var unusual := data.location.Some? && Unusual(locations, data.location.value, dist);
      var lost := CheckSignalLossPattern(userId);
      var indicators := Indicators(inactive, erratic, unusual, lost);
      var confidence := (if inactive then 0.3 else 0.0) + (if erratic then 0.2 else 0.0)
                        + (if unusual then 0.3 else 0.0) + (if lost then 0.2 else 0.0);
      WeightSumOfIndicators(inactive, erratic, unusual, lost);
      DistressDecisionSpec(userId, indicators, now);
      if |indicators| >= 2 || confidence > 0.5 {
        return Some(DistressAlert(userId, indicators, now));
      }
      return None;
    }

    /**
     * `process_data`: updates the buffer first, then runs fall (when the batch has IMU data),
     * crash (IMU data and a location) and distress (always), collecting alerts in that order.
     */
    method ProcessData(userId: string, data: SensorData, now: int,
                       magnitude: MagnitudeFn, dist: DistanceFn, bearing: BearingFn) returns (alerts: seq<Alert>)
      requires Valid()
      modifies this
      ensures Valid() && isInitialized
      ensures buffers == old(buffers)[userId := UpdatedBuffer(Lookup(old(buffers), userId), data, now)]
      ensures |alerts| <= 3
      ensures forall i, j :: 0 <= i < j < |alerts| ==> AlertRank(alerts[i]) < AlertRank(alerts[j])
      ensures forall a :: a in alerts ==> a.userId == userId && a.timestamp == now
      ensures (exists a :: a in alerts && a.alertType == FallDetected) <==>
        |data.imuData| > 0 && FallPattern(Magnitudes(data.imuData, magnitude))
      ensures (exists a :: a in alerts && a.alertType == CrashDetected) <==>
        |data.imuData| > 0 && data.location.Some?
        && CrashConditions(RecentData(HistoryOf(buffers, userId), now - CrashWindowSeconds), Magnitudes(data.imuData, magnitude))
      ensures (exists a :: a in alerts && a.alertType == DistressDetected) <==>
        |DistressIndicators(buffers, userId, data, dist, bearing)| >= 2
    {
      if !isInitialized {
        Initialize();
      }
      UpdateUserBuffer(userId, data, now);
      alerts := RunDetectors(userId, data, now, magnitude, dist, bearing);
    }

    /** The detector calls of `process_data`, over the already updated buffer. */
    method RunDetectors(userId: string, data: SensorData, now: int,
                        magnitude: MagnitudeFn, dist: DistanceFn, bearing: BearingFn) returns (alerts: seq<Alert>)
      ensures |alerts| <= 3
      ensures forall i, j :: 0 <= i < j < |alerts| ==> AlertRank(alerts[i]) < AlertRank(alerts[j])
      ensures forall a :: a in alerts ==> a.userId == userId && a.timestamp == now
      ensures (exists a :: a in alerts && a.alertType == FallDetected) <==>
        |data.imuData| > 0 && FallPattern(Magnitudes(data.imuData, magnitude))
      ensures (exists a :: a in alerts && a.alertType == CrashDetected) <==>
        |data.imuData| > 0 && data.location.Some?
        && CrashConditions(RecentData(HistoryOf(buffers, userId), now - CrashWindowSeconds), Magnitudes(data.imuData, magnitude))
      ensures (exists a :: a in alerts && a.alertType == DistressDetected) <==>
        |DistressIndicators(buffers, userId, data, dist, bearing)| >= 2
    {
      ghost var crashing := CrashConditions(RecentData(HistoryOf(buffers, userId), now - CrashWindowSeconds),
                                            Magnitudes(data.imuData, magnitude));
      var fall: Option<Alert> := None;
      var crash: Option<Alert> := None;
      if |data.imuData| > 0 {
        fall := DetectFall(userId, data.imuData, magnitude, now);
        if data.location.Some? {
          crash := DetectCrash(userId, data, now, magnitude);
          assert crash.Some? <==> crashing;
        }
      }
      assert fall.Some? <==> |data.imuData| > 0 && FallPattern(Magnitudes(data.imuData, magnitude));
      assert crash.Some? <==> |data.imuData| > 0 && data.location.Some? && crashing;
      var distress := DetectDistress(userId, data, now, dist, bearing);
      assert distress.Some? <==> |DistressIndicators(buffers, userId, data, dist, bearing)| >= 2;
      alerts := Opt(fall) + Opt(crash) + Opt(distress);
      AlertsInOrder(userId, now, fall, crash, distress);
    }
  }

  predicate BuffersValid(buffers: map<string, UserBuffer>)
  {
    forall u :: u in buffers ==> BufferValid(buffers[u])
  }

  /** Updating one user's buffer keeps every buffer within its bounds. */
  lemma BuffersStayValid(buffers: map<string, UserBuffer>, userId: string, data: SensorData, now: int)
    requires BuffersValid(buffers)
    ensures BuffersValid(buffers[userId := UpdatedBuffer(Lookup(buffers, userId), data, now)])
  {
    var prior := Lookup(buffers, userId);
    if userId in buffers {
      assert BufferValid(buffers[userId]);
    }
    UpdatedBufferValid(prior, data, now);
  }

  /** The trigger of `_detect_distress_rule_based` over the indicators found. */
  function DistressDecision(userId: string, inds: seq<Indicator>, now: int): Option<Alert>
  {
    if |inds| >= 2 || WeightSum(inds) > 0.5 then Some(DistressAlert(userId, inds, now)) else None
  }

  /**
   * Distress fires exactly on two or more indicators; its confidence then lies in [0.4, 0.9],
   * its priority is medium and it always asks for verification.
   */
  lemma DistressDecisionSpec(userId: string, inds: seq<Indicator>, now: int)
    ensures var r := DistressDecision(userId, inds, now);
      && (r.Some? <==> |inds| >= 2)
      && (r.Some? ==> 0.4 <= r.value.confidence <= 0.9 && r.value.priority == "medium"
                      && r.value.details == DistressDetails(inds, true))
  {
    DistressTriggerIsTwoIndicators(inds);
  }

  /** Optional fall, crash and distress alerts, collected in that order. */
  lemma AlertsInOrder(userId: string, now: int, fall: Option<Alert>, crash: Option<Alert>, distress: Option<Alert>)
    requires fall.Some? ==> fall.value.alertType == FallDetected && fall.value.userId == userId && fall.value.timestamp == now
    requires crash.Some? ==> crash.value.alertType == CrashDetected && crash.value.userId == userId && crash.value.timestamp == now
    requires distress.Some? ==> distress.value.alertType == DistressDetected && distress.value.userId == userId && distress.value.timestamp == now
    ensures var alerts := Opt(fall) + Opt(crash) + Opt(distress);
      && |alerts| <= 3
      && (forall i, j :: 0 <= i < j < |alerts| ==> AlertRank(alerts[i]) < AlertRank(alerts[j]))
      && (forall a :: a in alerts ==> a.userId == userId && a.timestamp == now)
      && ((exists a :: a in alerts && a.alertType == FallDetected) <==> fall.Some?)
      && ((exists a :: a in alerts && a.alertType == CrashDetected) <==> crash.Some?)
      && ((exists a :: a in alerts && a.alertType == DistressDetected) <==> distress.Some?)
  {
    var alerts := Opt(fall) + Opt(crash) + Opt(distress);
    if fall.Some? {
      assert alerts[0] == fall.value;
    }
    if crash.Some? {
      assert alerts[|Opt(fall)|] == crash.value;
    }
    if distress.Some? {
      assert alerts[|Opt(fall)| + |Opt(crash)|] == distress.value;
    }
  }

  lemma WeightSumOfIndicators(b: bool, e: bool, u: bool, s: bool)
    ensures WeightSum(Indicators(b, e, u, s)) ==
      (if b then 0.3 else 0.0) + (if e then 0.2 else 0.0) + (if u then 0.3 else 0.0) + (if s then 0.2 else 0.0)
  {
    var p := if b then [ProlongedInactivity] else [];
    var q := if e then [ErraticMovement] else [];
    var r := if u then [UnusualLocation] else [];
    var t := if s then [SignalLossPattern] else [];
    assert Indicators(b, e, u, s) == p + q + r + t;
    WeightSumAppend(p, q);
    WeightSumAppend(p + q, r);
    WeightSumAppend(p + q + r, t);
    WeightSumOptional(b, ProlongedInactivity);
    WeightSumOptional(e, ErraticMovement);
    WeightSumOptional(u, UnusualLocation);
    WeightSumOptional(s, SignalLossPattern);
  }

  lemma WeightSumOptional(present: bool, ind: Indicator)
    ensures WeightSum(if present then [ind] else []) == if present then Weight(ind) else 0.0
  {
    if present {
      assert [ind][..0] == [];
    }
  }

  lemma {:induction false} WeightSumAppend(a: seq<Indicator>, b: seq<Indicator>)
    ensures WeightSum(a + b) == WeightSum(a) + WeightSum(b)
    decreases |b|
  {
    if b == [] {
      assert a + b == a;
    } else {
      WeightSumAppend(a, b[..|b| - 1]);
      assert (a + b)[..|a + b| - 1] == a + b[..|b| - 1];
    }
  }
}
