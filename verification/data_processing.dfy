/**
 * Sensor buffers and filters of backend/services/data_processing.py (class
 * SensorDataProcessor): per-user bounded FIFO buffers of IMU samples and GPS fixes, a
 * 3-sample moving average, rolling window statistics, movement metrics and an activity
 * classification. The haversine distance enters as a function parameter; the clock as `now`.
 */
module DataProcessing {
  import opened Wrappers
  import opened Sensors
  import opened Geo
  import opened Stats
  import opened Slices

  const FilterWindow: nat := 3
  const FeatureWindow: nat := 10
  const ImuBufferSize: nat := 1000
  const LocationBufferSize: nat := 100

  // ---------------------------------------------------------------- moving average

  /** The six sensor channels of a sample, which the filter averages. */
  datatype Channels = Channels(ax: real, ay: real, az: real, gx: real, gy: real, gz: real)

  function ChannelsOf(s: ImuSample): Channels
  {
    Channels(s.accelerationX, s.accelerationY, s.accelerationZ, s.gyroscopeX, s.gyroscopeY, s.gyroscopeZ)
  }

  /**
   * The averaged sample for index `i >= 2`: sample `i`'s timestamp and the mean of samples
   * `i`, `i-1` and `i-2` per channel; the new record carries no other key.
   */
  function Averaged(imu: seq<ImuSample>, i: nat): (s: ImuSample)
    requires 2 <= i < |imu|
    ensures s.timestamp == imu[i].timestamp && s.accMagnitude.None?
  {
    var a, b, c := imu[i], imu[i - 1], imu[i - 2];
    ImuSample(a.timestamp,
              (a.accelerationX + b.accelerationX + c.accelerationX) / 3.0,
              (a.accelerationY + b.accelerationY + c.accelerationY) / 3.0,
              (a.accelerationZ + b.accelerationZ + c.accelerationZ) / 3.0,
              (a.gyroscopeX + b.gyroscopeX + c.gyroscopeX) / 3.0,
              (a.gyroscopeY + b.gyroscopeY + c.gyroscopeY) / 3.0,
              (a.gyroscopeZ + b.gyroscopeZ + c.gyroscopeZ) / 3.0,
              None)
  }

  /** The filter's output at index `i`. */
  function FilteredAt(imu: seq<ImuSample>, i: nat): ImuSample
    requires i < |imu|
  {
    if i < FilterWindow - 1 then imu[i] else Averaged(imu, i)
  }

  /** `_apply_noise_filter`: shorter inputs than the window come back unchanged. */
  method ApplyNoiseFilter(imu: seq<ImuSample>) returns (filtered: seq<ImuSample>)
    ensures |filtered| == |imu|
    ensures |imu| < FilterWindow ==> filtered == imu
    ensures |imu| >= FilterWindow ==> forall i :: 0 <= i < |imu| ==> filtered[i] == FilteredAt(imu, i)
  {
    if |imu| < FilterWindow {
      return imu;
    }
    filtered := [];
    for i := 0 to |imu|
      invariant |filtered| == i
      invariant forall k :: 0 <= k < i ==> filtered[k] == FilteredAt(imu, k)
    {
      if i < FilterWindow - 1 {
        filtered := filtered + [imu[i]];
      } else {
        filtered := filtered + [Averaged(imu, i)];
      }
    }
  }

  /** The filter keeps every timestamp and leaves the first two samples untouched. */
  lemma FilterKeepsTimestamps(imu: seq<ImuSample>, i: nat)
    requires i < |imu|
    ensures FilteredAt(imu, i).timestamp == imu[i].timestamp
    ensures i < 2 ==> FilteredAt(imu, i) == imu[i]
  {
  }

  /** A constant signal passes through the moving average unchanged, channel by channel. */
  lemma ConstantSignalIsFixed(imu: seq<ImuSample>, c: Channels, i: nat)
    requires forall k :: 0 <= k < |imu| ==> ChannelsOf(imu[k]) == c
    requires i < |imu|
    ensures ChannelsOf(FilteredAt(imu, i)) == c
  {
    if i >= 2 {
      assert ChannelsOf(imu[i]) == c && ChannelsOf(imu[i - 1]) == c && ChannelsOf(imu[i - 2]) == c;
    }
  }

  /** Channel `k` of a sample, in the order accelerationX, Y, Z, gyroscopeX, Y, Z. */
  function Channel(c: Channels, k: nat): real
    requires k < 6
  {
    match k
    case 0 => c.ax
    case 1 => c.ay
    case 2 => c.az
    case 3 => c.gx
    case 4 => c.gy
    case _ => c.gz
  }

  /** The mean of three readings lies between their smallest and their largest. */
  lemma MeanOfThreeWithin(a: real, b: real, c: real)
    ensures var xs := [a, b, c]; SeqMin(xs) <= (a + b + c) / 3.0 <= SeqMax(xs)
  {
    var xs := [a, b, c];
    assert Sum(xs) == a + b + c by {
      assert xs[..2] == [xs[0], xs[1]];
      assert xs[..2][..1] == [xs[0]];
      assert [xs[0]][..0] == [];
      assert Sum([xs[0]]) == xs[0];
      assert Sum(xs[..2]) == xs[0] + xs[1];
    }
    MeanBetweenMinAndMax(xs);
  }

  /** Each averaged channel lies between the smallest and the largest of its three inputs. */
  lemma AverageWithinWindow(imu: seq<ImuSample>, i: nat, k: nat)
    requires 2 <= i < |imu| && k < 6
    ensures var xs := [Channel(ChannelsOf(imu[i]), k), Channel(ChannelsOf(imu[i - 1]), k), Channel(ChannelsOf(imu[i - 2]), k)];
      SeqMin(xs) <= Channel(ChannelsOf(Averaged(imu, i)), k) <= SeqMax(xs)
  {
    var a, b, c := Channel(ChannelsOf(imu[i]), k), Channel(ChannelsOf(imu[i - 1]), k), Channel(ChannelsOf(imu[i - 2]), k);
    assert Channel(ChannelsOf(Averaged(imu, i)), k) == (a + b + c) / 3.0;
    MeanOfThreeWithin(a, b, c);
  }

  // ---------------------------------------------------------------- rolling features

  /** The window statistics (numpy's std is not modelled). */
  datatype WindowFeatures = WindowFeatures(accMean: real, accMin: real, accMax: real, accRange: real, accEnergy: real)

  datatype FeatureSample = FeatureSample(sample: ImuSample, features: Option<WindowFeatures>)

  function WindowStats(mags: seq<real>): (f: WindowFeatures)
    requires |mags| > 0
    ensures f.accMin <= f.accMean <= f.accMax
    ensures f.accRange == f.accMax - f.accMin && f.accRange >= 0.0
    ensures f.accEnergy >= 0.0
    ensures forall k :: 0 <= k < |mags| ==> f.accMin <= mags[k] <= f.accMax
  {
    MeanBetweenMinAndMax(mags);
    SumOfSquaresNonNegative(mags);
    WindowFeatures(Mean(mags), SeqMin(mags), SeqMax(mags), SeqMax(mags) - SeqMin(mags), Sum(Squares(mags)))
  }

  predicate HasMagnitudes(window: seq<ImuSample>)
  {
    forall k :: 0 <= k < |window| ==> window[k].accMagnitude.Some?
  }

  /** A sample's magnitude, with a missing one read as 0. */
  function MagnitudeOrZero(s: ImuSample): real { s.accMagnitude.GetOr(0.0) }

  function ActivityLevels(imu: seq<ImuSample>): (r: seq<real>)
    ensures |r| == |imu| && forall k :: 0 <= k < |imu| ==> r[k] == MagnitudeOrZero(imu[k])
  {
    seq(|imu|, k requires 0 <= k < |imu| => MagnitudeOrZero(imu[k]))
  }

  lemma ActivityLevelsStep(imu: seq<ImuSample>, k: nat)
    requires k < |imu|
    ensures ActivityLevels(imu[..k + 1]) == ActivityLevels(imu[..k]) + [MagnitudeOrZero(imu[k])]
  {
    assert ActivityLevels(imu[..k + 1])[k] == MagnitudeOrZero(imu[k]);
  }

  /** The window that ends at index `i`. */
  function WindowAt(imu: seq<ImuSample>, i: nat): seq<ImuSample>
    requires FeatureWindow - 1 <= i < |imu|
  {
    imu[i - (FeatureWindow - 1)..i + 1]
  }

  /** Output `i`: the sample itself, with the statistics of the window ending at it from index 9 on. */
  function FeatureAt(imu: seq<ImuSample>, i: nat): FeatureSample
    requires i < |imu|
  {
    if i < FeatureWindow - 1 then FeatureSample(imu[i], None)
    else FeatureSample(imu[i], Some(WindowStats(ActivityLevels(WindowAt(imu, i)))))
  }

  predicate MissingMagnitude(imu: seq<ImuSample>)
  {
    exists j :: 0 <= j < |imu| && imu[j].accMagnitude.None?
  }

  /**
   * What `_extract_rolling_features` returns. Reading `acc_magnitude` from a sample that
   * lacks it raises `KeyError`, which reaches the caller: the result is then `None`. That
   * happens exactly when there are at least ten samples and one of them lacks the key.
   */
  function RollingFeatures(imu: seq<ImuSample>): (r: Option<seq<FeatureSample>>)
    ensures r.None? <==> |imu| >= FeatureWindow && MissingMagnitude(imu)
    ensures r.Some? ==> |r.value| == |imu|
    ensures r.Some? ==> forall i :: 0 <= i < |imu| ==> r.value[i].sample == imu[i]
    ensures r.Some? ==> forall i :: 0 <= i < |imu| ==> (r.value[i].features.Some? <==> i >= FeatureWindow - 1)
    ensures r.Some? ==> forall i :: 0 <= i < |imu| ==> r.value[i] == FeatureAt(imu, i)
  {
    if |imu| >= FeatureWindow && MissingMagnitude(imu) then None
    else Some(seq(|imu|, i requires 0 <= i < |imu| => FeatureAt(imu, i)))
  }

  /**
   * Every feature set describes the ten magnitudes of its window, all of which are present:
   * each lies between the minimum and the maximum, and so does the mean.
   */
  lemma RollingFeaturesBoundWindow(imu: seq<ImuSample>, i: nat)
    requires RollingFeatures(imu).Some? && FeatureWindow - 1 <= i < |imu|
    ensures RollingFeatures(imu).value[i].features.Some?
    ensures var f := RollingFeatures(imu).value[i].features.value;
      && f.accMin <= f.accMean <= f.accMax
      && forall k :: i - (FeatureWindow - 1) <= k <= i ==>
        imu[k].accMagnitude.Some? && f.accMin <= imu[k].accMagnitude.value <= f.accMax
  {
    var window := WindowAt(imu, i);
    var mags := ActivityLevels(window);
    forall k | i - (FeatureWindow - 1) <= k <= i
      ensures imu[k].accMagnitude.Some? && mags[k - (i - (FeatureWindow - 1))] == imu[k].accMagnitude.value
    {
      assert window[k - (i - (FeatureWindow - 1))] == imu[k];
    }
  }

  /** `_extract_rolling_features`: the loop over the samples, with one window per index from 9 on. */
  method ExtractRollingFeatures(imu: seq<ImuSample>) returns (r: Option<seq<FeatureSample>>)
    ensures r == RollingFeatures(imu)
  {
    var out: seq<FeatureSample> := [];
    for i := 0 to |imu|
      invariant |out| == i
      invariant i >= FeatureWindow ==> forall j :: 0 <= j < i ==> imu[j].accMagnitude.Some?
      invariant forall k :: 0 <= k < i ==> out[k] == FeatureAt(imu, k)
    {
      if i >= FeatureWindow - 1 {
        var window := WindowAt(imu, i);
        if !HasMagnitudes(window) {
          var k :| 0 <= k < |window| && window[k].accMagnitude.None?;
          assert imu[i - (FeatureWindow - 1) + k].accMagnitude.None?;
          return None;
        }
        if i == FeatureWindow - 1 {
          assert forall j :: 0 <= j < FeatureWindow ==> imu[j] == window[j];
        } else {
          assert imu[i] == window[FeatureWindow - 1];
        }
      }
      out := out + [FeatureAt(imu, i)];
    }
    ghost var spec := RollingFeatures(imu);
    assert spec.Some?;
    assert spec.value == out;
    return Some(out);
  }

  // ---------------------------------------------------------------- buffers

  /**
   * Appending `items` one by one to a `deque(maxlen=capacity)`: once full, each append
   * drops the oldest entry, so the deque ends as the last `capacity` entries of the whole.
   */
  method ExtendBounded<T>(deque: seq<T>, items: seq<T>, capacity: nat) returns (r: seq<T>)
    requires capacity > 0 && |deque| <= capacity
    ensures r == LastN(deque + items, capacity)
    ensures |r| <= capacity
  {
    r := deque;
    assert deque + items[..0] == deque;
    for k := 0 to |items|
      invariant r == LastN(deque + items[..k], capacity)
    {
      LastNExtendStep(deque, items, k, r, capacity);
      if |r| == capacity {
        r := r[1..] + [items[k]];
      } else {
        r := r + [items[k]];
      }
    }
    assert items[..|items|] == items;
  }

  datatype DeviceBuffer = DeviceBuffer(imu: seq<ImuSample>, location: seq<Location>, lastUpdate: int)

  predicate DeviceBufferValid(b: DeviceBuffer)
  {
    |b.imu| <= ImuBufferSize && |b.location| <= LocationBufferSize
  }

  predicate BuffersValid(buffers: map<string, DeviceBuffer>)
  {
    forall u :: u in buffers ==> DeviceBufferValid(buffers[u])
  }

  /** The user's buffer before an update: a new, empty one for a user not seen yet. */
  function Prior(buffers: map<string, DeviceBuffer>, userId: string, now: int): (b: DeviceBuffer)
    ensures BuffersValid(buffers) ==> DeviceBufferValid(b)
  {
    if userId in buffers then buffers[userId] else DeviceBuffer([], [], now)
  }

  /**
   * The buffer after one `update_user_buffer`: every IMU sample pushed into the 1000-entry
   * deque, the location, if any, into the 100-entry deque, and the update time.
   */
  function Pushed(before: DeviceBuffer, data: SensorData, now: int): DeviceBuffer
  {
    DeviceBuffer(LastN(before.imu + data.imuData, ImuBufferSize),
                 if data.location.Some? then LastN(before.location + [data.location.value], LocationBufferSize)
                 else before.location,
                 now)
  }

  /** The update loop of `update_user_buffer` for one user's buffer. */
  method PushSensorData(before: DeviceBuffer, data: SensorData, now: int) returns (b: DeviceBuffer)
    requires DeviceBufferValid(before)
    ensures b == Pushed(before, data, now)
    ensures DeviceBufferValid(b)
  {
    var imu := ExtendBounded(before.imu, data.imuData, ImuBufferSize);
    var location := before.location;
    if data.location.Some? {
      location := ExtendBounded(location, [data.location.value], LocationBufferSize);
    }
    b := DeviceBuffer(imu, location, now);
  }

  /** An update keeps every sample when the deque has room for them all. */
  lemma PushedAppendsWhenRoom(before: DeviceBuffer, data: SensorData, now: int)
    requires |before.imu| + |data.imuData| <= ImuBufferSize
    ensures Pushed(before, data, now).imu == before.imu + data.imuData
  {
  }

  /** A batch of at least 1000 samples leaves exactly its newest 1000 in the buffer. */
  lemma PushedKeepsNewest(before: DeviceBuffer, data: SensorData, now: int)
    requires |data.imuData| >= ImuBufferSize
    ensures Pushed(before, data, now).imu == data.imuData[|data.imuData| - ImuBufferSize..]
  {
    var all := before.imu + data.imuData;
    assert all[|all| - ImuBufferSize..] == data.imuData[|data.imuData| - ImuBufferSize..];
  }

  /**
   * Two updates leave the same samples as one update with both batches: the buffer always
   * holds the newest 1000 samples ever received, in arrival order.
   */
  lemma PushedTwice(before: DeviceBuffer, d1: SensorData, d2: SensorData, t1: int, t2: int)
    ensures Pushed(Pushed(before, d1, t1), d2, t2).imu == LastN(before.imu + d1.imuData + d2.imuData, ImuBufferSize)
  {
    LastNConcat(before.imu + d1.imuData, d2.imuData, ImuBufferSize);
  }

  lemma BuffersStayValid(buffers: map<string, DeviceBuffer>, userId: string, b: DeviceBuffer)
    requires BuffersValid(buffers) && DeviceBufferValid(b)
    ensures BuffersValid(buffers[userId := b])
  {
  }

  /** What `data_list[-count:] if len(data_list) > count else data_list` returns. */
  function RecentSlice<T>(items: seq<T>, count: int): (r: seq<T>)
    ensures |r| <= |items| && r == items[|items| - |r|..]
  {
    if |items| > count then Suffix(items, -count) else items
  }

  /**
   * The slice is the last `min(count, len)` items in their original order for a positive
   * count; a count of 0 returns everything (`[-0:]` is `[0:]`), and a negative count drops
   * the first `-count` items.
   */
  lemma RecentSliceSpec<T>(items: seq<T>, count: int)
    ensures count > 0 ==> RecentSlice(items, count) == LastN(items, count)
    ensures count == 0 ==> RecentSlice(items, count) == items
    ensures count < 0 ==> RecentSlice(items, count) == items[if -count < |items| then -count else |items|..]
  {
  }

  datatype Recent =
    | Samples(imu: seq<ImuSample>)
    | Fixes(locations: seq<Location>)
    | NoData
    | NotAList   // the 'last_update' entry is a timestamp; `list()` of it raises TypeError

  datatype MovementMetrics = MovementMetrics(totalDistance: real, averageSpeed: real, movementVariance: real,
                                             sampleCount: Option<nat>)

  const NoMovement: MovementMetrics := MovementMetrics(0.0, 0.0, 0.0, None)

  /** The distance along consecutive fixes. */
  function PathLength(locs: seq<Location>, dist: DistanceFn): real
  {
    if |locs| < 2 then 0.0
    else PathLength(locs[..|locs| - 1], dist) + dist(locs[|locs| - 2].ToPoint(), locs[|locs| - 1].ToPoint())
  }

  /** The speed in m/s of one leg, when both fixes carry a timestamp and time moves forward. */
  function LegSpeed(prev: Location, curr: Location, dist: DistanceFn): Option<real>
  {
    if prev.timestamp.Some? && curr.timestamp.Some? && curr.timestamp.value - prev.timestamp.value > 0 then
      Some(dist(prev.ToPoint(), curr.ToPoint()) * 1000.0 / (curr.timestamp.value - prev.timestamp.value) as real)
    else None
  }

  function LegSpeeds(locs: seq<Location>, dist: DistanceFn): seq<real>
  {
    if |locs| < 2 then []
    else
      var leg := LegSpeed(locs[|locs| - 2], locs[|locs| - 1], dist);
      LegSpeeds(locs[..|locs| - 1], dist) + (if leg.Some? then [leg.value] else [])
  }

  /** With non-negative distances every leg speed, and so their mean, is non-negative. */
  lemma {:induction false} LegSpeedsNonNegative(locs: seq<Location>, dist: DistanceFn)
    requires forall p, q :: dist(p, q) >= 0.0
    ensures forall k :: 0 <= k < |LegSpeeds(locs, dist)| ==> LegSpeeds(locs, dist)[k] >= 0.0
  {
    if |locs| >= 2 {
      LegSpeedsNonNegative(locs[..|locs| - 1], dist);
    }
  }

  lemma {:induction false} PathLengthNonNegative(locs: seq<Location>, dist: DistanceFn)
    requires forall p, q :: dist(p, q) >= 0.0
    ensures PathLength(locs, dist) >= 0.0
  {
    if |locs| >= 2 {
      PathLengthNonNegative(locs[..|locs| - 1], dist);
    }
  }

  /** Extending the fixes by one more leg adds that leg's distance and, when it has one, its speed. */
  lemma MovementStep(locs: seq<Location>, i: nat, dist: DistanceFn)
    requires 1 <= i < |locs|
    ensures PathLength(locs[..i + 1], dist) == PathLength(locs[..i], dist) + dist(locs[i - 1].ToPoint(), locs[i].ToPoint())
    ensures var leg := LegSpeed(locs[i - 1], locs[i], dist);
      LegSpeeds(locs[..i + 1], dist) == LegSpeeds(locs[..i], dist) + (if leg.Some? then [leg.value] else [])
  {
    assert locs[..i + 1][..i] == locs[..i];
  }

  /** The metrics computed from at least two fixes. */
  function MetricsOf(locs: seq<Location>, dist: DistanceFn): MovementMetrics
  {
    var speeds := LegSpeeds(locs, dist);
    MovementMetrics(PathLength(locs, dist),
                    (if speeds == [] then 0.0 else Mean(speeds)) * 3.6,
                    if speeds == [] then 0.0 else Variance(speeds),
                    Some(|locs|))
  }

  /** The loop of `calculate_movement_metrics` over fixes already selected. */
  method MovementOver(locs: seq<Location>, dist: DistanceFn) returns (m: MovementMetrics)
    requires |locs| >= 2
    ensures m == MetricsOf(locs, dist)
  {
    var total := 0.0;
    var speeds: seq<real> := [];
    for i := 1 to |locs|
      invariant total == PathLength(locs[..i], dist)
      invariant speeds == LegSpeeds(locs[..i], dist)
    {
      MovementStep(locs, i, dist);
      var prev, curr := locs[i - 1], locs[i];
      var distance := dist(prev.ToPoint(), curr.ToPoint());
      total := total + distance;
      if prev.timestamp.Some? && curr.timestamp.Some? {
        var timeDiff := curr.timestamp.value - prev.timestamp.value;
        if timeDiff > 0 {
          speeds := speeds + [distance * 1000.0 / timeDiff as real];
        }
      }
    }
    assert locs[..|locs|] == locs;
    var averageSpeed := if speeds == [] then 0.0 else Mean(speeds);
    var variance := if speeds == [] then 0.0 else Variance(speeds);
    return MovementMetrics(total, averageSpeed * 3.6, variance, Some(|locs|));
  }

  /** The variance is never negative; with non-negative distances neither are the path length and speed. */
  lemma MetricsBounds(locs: seq<Location>, dist: DistanceFn)
    ensures MetricsOf(locs, dist).movementVariance >= 0.0
    ensures (forall p, q :: dist(p, q) >= 0.0) ==>
      MetricsOf(locs, dist).totalDistance >= 0.0 && MetricsOf(locs, dist).averageSpeed >= 0.0
  {
    var speeds := LegSpeeds(locs, dist);
    if speeds != [] {
      VarianceNonNegative(speeds);
    }
    if forall p, q :: dist(p, q) >= 0.0 {
      PathLengthNonNegative(locs, dist);
      LegSpeedsNonNegative(locs, dist);
      if speeds != [] {
        MeanLowerBound(speeds, 0.0);
      }
    }
  }

  /** Activity bands over the mean accelerometer magnitude. */
  function ActivityLevel(average: real): (level: string)
    ensures average < 2.0 ==> level == "stationary"
    ensures 2.0 <= average < 5.0 ==> level == "walking"
    ensures 5.0 <= average < 10.0 ==> level == "active"
    ensures average >= 10.0 ==> level == "very_active"
  {
    if average < 2.0 then "stationary"
    else if average < 5.0 then "walking"
    else if average < 10.0 then "active"
    else "very_active"
  }

  datatype ActivityReport = ActivityReport(activityLevel: string, averageMagnitude: Option<real>, variance: Option<real>,
                                           patternConfidence: real, sampleCount: Option<nat>)

  /** `min(n / 100.0, 1.0)`. */
  function PatternConfidence(n: nat): (c: real)
    ensures 0.0 <= c <= 1.0
    ensures c == 1.0 <==> n >= 100
  {
    if n as real / 100.0 <= 1.0 then n as real / 100.0 else 1.0
  }

  /** A larger sample never lowers the confidence. */
  lemma PatternConfidenceMonotone(n1: nat, n2: nat)
    requires n1 <= n2
    ensures PatternConfidence(n1) <= PatternConfidence(n2)
  {
  }

  class SensorDataProcessor {
    var buffers: map<string, DeviceBuffer>

    ghost predicate Valid()
      reads this
    {
      BuffersValid(buffers)
    }

    constructor ()
      ensures buffers == map[] && Valid()
    {
      buffers := map[];
    }

    /**
     * `update_user_buffer`: appends every IMU sample and the location, if any, to the user's
     * bounded deques (1000 and 100 entries); a full deque drops its oldest entry first.
     */
    method UpdateUserBuffer(userId: string, data: SensorData, now: int)
      requires Valid()
      modifies this
      ensures Valid()
      ensures buffers == old(buffers)[userId := Pushed(Prior(old(buffers), userId, now), data, now)]
    {
      var before := Prior(buffers, userId, now);
      var b := PushSensorData(before, data, now);
      BuffersStayValid(buffers, userId, b);
      buffers := buffers[userId := b];
    }

    /** `get_recent_data`; `dataType` is one of the buffer's keys. */
    function GetRecentData(userId: string, dataType: string, count: int): (r: Recent)
      reads this
      ensures userId !in buffers ==> r == NoData
      ensures dataType !in ["imu", "location", "last_update"] ==> r == NoData
      ensures userId in buffers && dataType == "imu" ==>
        r.Samples? && |r.imu| <= |buffers[userId].imu| && r.imu == buffers[userId].imu[|buffers[userId].imu| - |r.imu|..]
      ensures userId in buffers && dataType == "location" ==>
        r.Fixes? && |r.locations| <= |buffers[userId].location|
        && r.locations == buffers[userId].location[|buffers[userId].location| - |r.locations|..]
    {
      if userId !in buffers then NoData
      else if dataType == "imu" then Samples(RecentSlice(buffers[userId].imu, count))
      else if dataType == "location" then Fixes(RecentSlice(buffers[userId].location, count))
      else if dataType == "last_update" then NotAList
      else NoData
    }

    /**
     * `calculate_movement_metrics` over the last 50 fixes: zeros (and no sample count) for
     * fewer than two; otherwise the path length, the mean leg speed in km/h and the variance
     * of the leg speeds in m/s.
     */
    method CalculateMovementMetrics(userId: string, dist: DistanceFn) returns (m: MovementMetrics)
      ensures var locs := if userId in buffers then LastN(buffers[userId].location, 50) else [];
        && (|locs| < 2 ==> m == NoMovement)
        && (|locs| >= 2 ==> m == MetricsOf(locs, dist))
      ensures m.movementVariance >= 0.0
      ensures (forall p, q :: dist(p, q) >= 0.0) ==> m.totalDistance >= 0.0 && m.averageSpeed >= 0.0
    {
      var recent := GetRecentData(userId, "location", 50);
      var locs := if recent.Fixes? then recent.locations else [];
      assert userId in buffers ==> locs == LastN(buffers[userId].location, 50) by {
        RecentSliceSpec(if userId in buffers then buffers[userId].location else [], 50);
      }
      if |locs| < 2 {
        return NoMovement;
      }
      m := MovementOver(locs, dist);
      MetricsBounds(locs, dist);
    }

    /**
     * `detect_activity_patterns` over the last 500 IMU samples, with a missing magnitude read
     * as 0: "unknown" with confidence 0 when there are none.
     */
    method DetectActivityPatterns(userId: string) returns (r: ActivityReport)
      ensures var imu := if userId in buffers then LastN(buffers[userId].imu, 500) else [];
        && (imu == [] ==> r == ActivityReport("unknown", None, None, 0.0, None))
        && (imu != [] ==>
              && r.averageMagnitude == Some(Mean(ActivityLevels(imu)))
              && r.activityLevel == ActivityLevel(Mean(ActivityLevels(imu)))
              && r.variance == Some(Variance(ActivityLevels(imu)))
              && r.patternConfidence == PatternConfidence(|imu|)
              && r.sampleCount == Some(|imu|))
      ensures 0.0 <= r.patternConfidence <= 1.0
    {
      var recent := GetRecentData(userId, "imu", 500);
      var imu := if recent.Samples? then recent.imu else [];
      assert userId in buffers ==> imu == LastN(buffers[userId].imu, 500) by {
        RecentSliceSpec(if userId in buffers then buffers[userId].imu else [], 500);
      }
      if imu == [] {
        return ActivityReport("unknown", None, None, 0.0, None);
      }
      var levels: seq<real> := [];
      for k := 0 to |imu|
        invariant levels == ActivityLevels(imu[..k])
      {
        ActivityLevelsStep(imu, k);
        levels := levels + [MagnitudeOrZero(imu[k])];
      }
      assert imu[..|imu|] == imu;
      var average := Mean(levels);
      return ActivityReport(ActivityLevel(average), Some(average), Some(Variance(levels)),
                            PatternConfidence(|imu|), Some(|imu|));
    }
  }
}
