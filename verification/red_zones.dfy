/**
 * The red-zone registry of the rule-based fallback
 * (backend/fallback_systems/red_zone_fallback.py, class RedZoneSystemFallback): an ordered
 * list of polygonal restricted zones, breach and proximity queries where the first zone in
 * list order wins, runtime add/remove, and the rule that combines a breach with the score of
 * the crime-risk scorer. The crime-risk scorer itself is not part of this model: its result
 * enters as a `CrimeOutcome` value.
 */
module RedZones {
  import opened Wrappers
  import opened Geo
  import opened Sorting
  import opened Slices

  datatype RedZone = RedZone(id: int, name: string, kind: string, coordinates: seq<Point>, riskLevel: int)

  /** The `zone_data` dictionary given to `add_zone`; every key may be missing. */
  datatype ZoneData = ZoneData(name: Option<string>, kind: Option<string>,
                               coordinates: Option<seq<Point>>, riskLevel: Option<int>)

  datatype ZoneInfo = ZoneInfo(zoneId: Option<int>, zoneName: string, zoneType: string,
                               riskLevel: int, breachDetected: bool)

  datatype NearbyZone = NearbyZone(zoneId: int, zoneName: string, zoneType: string, riskLevel: int,
                                   distanceKm: real, coordinates: seq<Point>)

  /** A warning line; the source formats these as text, the model keeps their content. */
  datatype Warning =
    | RestrictedZone(zoneType: string)
    | ZoneNearby(zoneName: string, distanceKm: real)
    | AreaAlert(text: string)

  datatype LocationReport = LocationReport(
    lat: real, lng: real, isSafe: bool, riskLevel: int, zoneInfo: Option<ZoneInfo>,
    nearbyZones: seq<NearbyZone>, warnings: seq<Warning>, recommendations: seq<string>)

  const ExitRecommendation: string := "Exit the area immediately and contact authorities"
  const AvoidRecommendation: string := "Avoid moving towards the restricted area"
  const ProximityRadiusKm: real := 2.0
  const WarningDistanceKm: real := 1.0
  const SafeCrimeScore: real := 4.0
  const DefaultCrimeScore: real := 5.0
  const MaxRecommendations: nat := 8

  const SeedZones: seq<RedZone> := [
    RedZone(1, "Military Zone Alpha", "Military",
            [Point(26.9124, 75.7873), Point(26.9150, 75.7900), Point(26.9100, 75.7950), Point(26.9080, 75.7920)], 5),
    RedZone(2, "Wildlife Sanctuary - Restricted Area", "Wildlife",
            [Point(26.9200, 75.8000), Point(26.9250, 75.8050), Point(26.9200, 75.8100), Point(26.9150, 75.8050)], 3),
    RedZone(3, "Border Security Zone", "Border",
            [Point(28.0000, 70.5000), Point(28.0200, 70.5200), Point(28.0100, 70.5400), Point(27.9900, 70.5200)], 4),
    RedZone(4, "Mining Area - Dangerous", "Industrial",
            [Point(25.5000, 74.5000), Point(25.5100, 74.5100), Point(25.5050, 74.5200), Point(25.4950, 74.5100)], 3)
  ]

  /** Every zone has a closed polygon of at least three vertices. */
  predicate AllClosed(zones: seq<RedZone>)
  {
    forall i :: 0 <= i < |zones| ==> |zones[i].coordinates| >= 3
  }

  // ---------------------------------------------------------------- breach scan

  /**
   * What the loop over `red_zones` meets first: a zone containing the point, an empty
   * polygon (the unguarded ray caster raises IndexError on `polygon[0]`), or the end.
   */
  datatype Scan = Clear | Breach(index: nat) | Raised

  function ScanFrom(zones: seq<RedZone>, lat: real, lng: real, i: nat): Scan
    requires i <= |zones|
    decreases |zones| - i
  {
    if i == |zones| then Clear
    else if |zones[i].coordinates| == 0 then Raised
    else if InsideByParity(lat, lng, zones[i].coordinates) then Breach(i)
    else ScanFrom(zones, lat, lng, i + 1)
  }

  function BreachScan(zones: seq<RedZone>, lat: real, lng: real): Scan
  {
    ScanFrom(zones, lat, lng, 0)
  }

  /** Every zone before `j`, from `i` on, has a polygon that does not contain the point. */
  predicate PassedFrom(zones: seq<RedZone>, lat: real, lng: real, i: nat, j: nat)
    requires i <= j <= |zones|
  {
    forall k :: i <= k < j ==> |zones[k].coordinates| > 0 && !InsideByParity(lat, lng, zones[k].coordinates)
  }

  lemma {:induction false} ScanFromCharacterised(zones: seq<RedZone>, lat: real, lng: real, i: nat)
    requires i <= |zones|
    ensures ScanFrom(zones, lat, lng, i) == Clear <==> PassedFrom(zones, lat, lng, i, |zones|)
    ensures ScanFrom(zones, lat, lng, i).Breach? ==>
      var b := ScanFrom(zones, lat, lng, i).index;
      i <= b < |zones| && PassedFrom(zones, lat, lng, i, b)
      && |zones[b].coordinates| > 0 && InsideByParity(lat, lng, zones[b].coordinates)
    ensures ScanFrom(zones, lat, lng, i) == Raised ==>
      exists r :: i <= r < |zones| && PassedFrom(zones, lat, lng, i, r) && |zones[r].coordinates| == 0
    decreases |zones| - i
  {
    if i < |zones| && |zones[i].coordinates| > 0 && !InsideByParity(lat, lng, zones[i].coordinates) {
      ScanFromCharacterised(zones, lat, lng, i + 1);
      if ScanFrom(zones, lat, lng, i + 1) == Raised {
        var r :| i + 1 <= r < |zones| && PassedFrom(zones, lat, lng, i + 1, r) && |zones[r].coordinates| == 0;
        assert PassedFrom(zones, lat, lng, i, r);
      }
    }
  }

  /**
   * The breach scan reports the FIRST zone in list order whose polygon contains the point:
   * every earlier zone has a polygon and does not contain it.
   */
  lemma BreachIsFirstMatch(zones: seq<RedZone>, lat: real, lng: real)
    requires BreachScan(zones, lat, lng).Breach?
    ensures var b := BreachScan(zones, lat, lng).index;
      b < |zones| && |zones[b].coordinates| > 0 && InsideByParity(lat, lng, zones[b].coordinates)
      && forall k :: 0 <= k < b ==> |zones[k].coordinates| > 0 && !InsideByParity(lat, lng, zones[k].coordinates)
  {
    ScanFromCharacterised(zones, lat, lng, 0);
  }

  /**
   * When every zone is a closed polygon (what `add_zone` and the seed list guarantee), the
   * scan never raises, and it finds a breach exactly when some zone contains the point.
   */
  lemma ClosedZonesScan(zones: seq<RedZone>, lat: real, lng: real)
    requires AllClosed(zones)
    ensures BreachScan(zones, lat, lng) != Raised
    ensures BreachScan(zones, lat, lng).Breach? <==>
      exists k :: 0 <= k < |zones| && InsideByParity(lat, lng, zones[k].coordinates)
  {
    ScanFromCharacterised(zones, lat, lng, 0);
  }

  function BreachInfo(z: RedZone): ZoneInfo
  {
    ZoneInfo(Some(z.id), z.name, z.kind, z.riskLevel, true)
  }

  const SafeArea: ZoneInfo := ZoneInfo(None, "Safe Area", "Safe", 0, false)

  // ---------------------------------------------------------------- nearby zones

  function NearbyKey(e: NearbyZone): real { e.distanceKm }

  function ToNearby(z: RedZone, d: real): NearbyZone
  {
    NearbyZone(z.id, z.name, z.kind, z.riskLevel, d, z.coordinates)
  }

  /** Zones whose vertex-mean centre is within `radiusKm`, in list order, before sorting. */
  function NearbyUnsorted(zones: seq<RedZone>, p: Point, radiusKm: real, dist: DistanceFn): seq<NearbyZone>
  {
    if zones == [] then []
    else
      var z := zones[|zones| - 1];
      var d := dist(p, PolygonCenter(z.coordinates));
      NearbyUnsorted(zones[..|zones| - 1], p, radiusKm, dist) + (if d <= radiusKm then [ToNearby(z, d)] else [])
  }

  /** The entry for zone `z` at the distance of its centre. */
  predicate IsEntryFor(e: NearbyZone, z: RedZone, p: Point, dist: DistanceFn)
  {
    e == ToNearby(z, dist(p, PolygonCenter(z.coordinates)))
  }

  lemma {:induction false} NearbyUnsortedMembers(zones: seq<RedZone>, p: Point, radiusKm: real, dist: DistanceFn, e: NearbyZone)
    ensures e in NearbyUnsorted(zones, p, radiusKm, dist) <==>
      exists i :: 0 <= i < |zones| && IsEntryFor(e, zones[i], p, dist) && e.distanceKm <= radiusKm
  {
    if zones != [] {
      var init, z := zones[..|zones| - 1], zones[|zones| - 1];
      NearbyUnsortedMembers(init, p, radiusKm, dist, e);
      var d := dist(p, PolygonCenter(z.coordinates));
      var tail := if d <= radiusKm then [ToNearby(z, d)] else [];
      assert NearbyUnsorted(zones, p, radiusKm, dist) == NearbyUnsorted(init, p, radiusKm, dist) + tail;
      assert e in tail <==> IsEntryFor(e, z, p, dist) && e.distanceKm <= radiusKm;
      if e in NearbyUnsorted(zones, p, radiusKm, dist) {
        if e in tail {
          assert IsEntryFor(e, zones[|zones| - 1], p, dist);
        } else {
          var i :| 0 <= i < |init| && IsEntryFor(e, init[i], p, dist) && e.distanceKm <= radiusKm;
          assert zones[i] == init[i];
        }
      } else {
        forall i | 0 <= i < |zones| && e.distanceKm <= radiusKm
          ensures !IsEntryFor(e, zones[i], p, dist)
        {
          if i < |init| {
            assert zones[i] == init[i];
          }
        }
      }
    }
  }

  // ---------------------------------------------------------------- combination rule

  datatype CombinedRisk = CombinedRisk(combinedRiskLevel: real, isSafe: bool)

  function MaxReal(a: real, b: real): real { if a >= b then a else b }

  /**
   * The rule of check_location_with_crime_analysis: a positive rule-based risk (a breached
   * zone) dominates and makes the location unsafe; otherwise the crime score decides, with
   * 4.0 as the highest safe score.
   */
  function CombineRisk(ruleRisk: int, crimeRisk: real): (c: CombinedRisk)
    ensures c.combinedRiskLevel >= crimeRisk || ruleRisk <= 0
    ensures ruleRisk > 0 ==> c.combinedRiskLevel >= ruleRisk as real && c.combinedRiskLevel >= crimeRisk
    ensures c.combinedRiskLevel == crimeRisk || c.combinedRiskLevel == ruleRisk as real
    ensures c.isSafe <==> (ruleRisk <= 0 && crimeRisk <= SafeCrimeScore)
    ensures c.isSafe ==> c.combinedRiskLevel <= SafeCrimeScore
  {
    if ruleRisk > 0 then CombinedRisk(MaxReal(ruleRisk as real, crimeRisk), false)
    else CombinedRisk(crimeRisk, crimeRisk <= SafeCrimeScore)
  }

  predicate NoDuplicates<T(==)>(s: seq<T>)
  {
    forall i, j :: 0 <= i < j < |s| ==> s[i] != s[j]
  }

  /**
   * `list(set(xs))`: the distinct elements of `xs`. Python leaves their order unspecified;
   * the model keeps first occurrences in order.
   */
  function Distinct<T(==,!new)>(s: seq<T>): (r: seq<T>)
    ensures forall x :: x in r <==> x in s
    ensures NoDuplicates(r)
    ensures |r| <= |s|
  {
    if s == [] then []
    else
      var rest := Distinct(s[..|s| - 1]);
      assert forall x :: x in s <==> x in s[..|s| - 1] || x == s[|s| - 1];
      if s[|s| - 1] in rest then rest else rest + [s[|s| - 1]]
  }

  /** What the crime-risk scorer (`calculate_area_risk_score`) returned, if it is available. */
  datatype CrimeAnalysis = CrimeAnalysis(overallRiskScore: Option<real>, riskLevel: Option<string>,
                                         alerts: seq<string>, recommendations: seq<string>)

  datatype CrimeOutcome =
    | NotAvailable                   // no enhanced system, or it is not ready
    | AnalysisFailed(error: string)  // the scorer raised
    | Analysed(analysis: CrimeAnalysis)

  datatype EnhancedReport = EnhancedReport(
    basic: LocationReport, enhancedAnalysis: bool, crimeRiskScore: Option<real>,
    combinedRiskLevel: Option<real>, isSafe: bool, warnings: seq<Warning>, recommendations: seq<string>)

  function AreaAlerts(alerts: seq<string>): (r: seq<Warning>)
    ensures |r| == |alerts| && forall i :: 0 <= i < |alerts| ==> r[i] == AreaAlert(alerts[i])
  {
    seq(|alerts|, i requires 0 <= i < |alerts| => AreaAlert(alerts[i]))
  }

  /** The merged recommendations: distinct, at most eight, all from the two sources. */
  lemma MergedRecommendations(basic: seq<string>, crime: seq<string>)
    ensures var r := Prefix(Distinct(basic + crime), MaxRecommendations);
      |r| <= 8 && NoDuplicates(r) && (forall x :: x in r ==> x in basic || x in crime)
      && (|Distinct(basic + crime)| <= 8 ==> forall x :: x in basic + crime ==> x in r)
  {
    var d := Distinct(basic + crime);
    var r := Prefix(d, MaxRecommendations);
    forall x | x in r ensures x in basic || x in crime {
      assert x in d;
      assert x in basic + crime;
    }
    forall i, j | 0 <= i < j < |r| ensures r[i] != r[j] {
      assert r[i] == d[i] && r[j] == d[j];
    }
    if |d| <= 8 {
      forall x | x in basic + crime ensures x in r {
        assert x in d;
      }
    }
  }

  // ---------------------------------------------------------------- the registry

  class RedZoneSystem {
    var zones: seq<RedZone>
    var isInitialized: bool

    ghost predicate Valid()
      reads this
    {
      AllClosed(zones)
    }

    /** `__init__`: no zones until `initialize` runs. */
    constructor ()
      ensures zones == [] && !isInitialized && Valid()
    {
      zones := [];
      isInitialized := false;
    }

    /** `initialize`: loads the four seed zones. */
    method Initialize()
      modifies this
      ensures zones == SeedZones && isInitialized && Valid()
    {
      zones := SeedZones;
      isInitialized := true;
    }

    /**
     * `check_point_in_polygon`: true iff the scan meets a containing zone before the end and
     * before any empty polygon; the exception of an empty polygon is caught and reads "not breached".
     */
    method CheckPointInPolygon(lat: real, lng: real) returns (breached: bool)
      ensures breached <==> BreachScan(zones, lat, lng).Breach?
      ensures AllClosed(zones) ==>
        (breached <==> exists k :: 0 <= k < |zones| && InsideByParity(lat, lng, zones[k].coordinates))
    {
      if AllClosed(zones) {
        ClosedZonesScan(zones, lat, lng);
      }
      for i := 0 to |zones|
        invariant BreachScan(zones, lat, lng) == ScanFrom(zones, lat, lng, i)
      {
        var polygon := zones[i].coordinates;
        if |polygon| == 0 {
          return false;
        }
        var inside := RayCast(lat, lng, polygon);
        if inside {
          return true;
        }
      }
      return false;
    }

    /**
     * `get_zone_info`: the first containing zone's record, or the "Safe Area" record; `None`
     * when an empty polygon raised before any match (the exception handler's result).
     */
    method GetZoneInfo(lat: real, lng: real) returns (info: Option<ZoneInfo>)
      ensures info.None? <==> BreachScan(zones, lat, lng) == Raised
      ensures BreachScan(zones, lat, lng) == Clear ==> info == Some(SafeArea)
      ensures BreachScan(zones, lat, lng).Breach? ==>
        BreachScan(zones, lat, lng).index < |zones|
        && info == Some(BreachInfo(zones[BreachScan(zones, lat, lng).index]))
    {
      for i := 0 to |zones|
        invariant BreachScan(zones, lat, lng) == ScanFrom(zones, lat, lng, i)
      {
        var zone := zones[i];
        if |zone.coordinates| == 0 {
          return None;
        }
        var inside := RayCast(lat, lng, zone.coordinates);
        if inside {
          return Some(BreachInfo(zone));
        }
      }
      return Some(SafeArea);
    }

    /**
     * `get_nearby_zones`: one entry per zone whose vertex-mean centre is within `radiusKm`,
     * sorted ascending by distance.
     */
    method GetNearbyZones(lat: real, lng: real, radiusKm: real, dist: DistanceFn) returns (nearby: seq<NearbyZone>)
      ensures SortedBy(nearby, NearbyKey)
      ensures forall e :: e in nearby <==>
        exists i :: 0 <= i < |zones| && IsEntryFor(e, zones[i], Point(lat, lng), dist) && e.distanceKm <= radiusKm
      ensures multiset(nearby) == multiset(NearbyUnsorted(zones, Point(lat, lng), radiusKm, dist))
    {
      var p := Point(lat, lng);
      var acc: seq<NearbyZone> := [];
      for i := 0 to |zones|
        invariant acc == NearbyUnsorted(zones[..i], p, radiusKm, dist)
      {
        assert zones[..i + 1][..i] == zones[..i];
        var zone := zones[i];
        var center := PolygonCenter(zone.coordinates);
        var distance := dist(p, center);
        if distance <= radiusKm {
          acc := acc + [ToNearby(zone, distance)];
        }
      }
      assert zones[..|zones|] == zones;
      nearby := SortBy(acc, NearbyKey);
      SortBySorted(acc, NearbyKey);
      forall e ensures e in nearby <==>
        exists i :: 0 <= i < |zones| && IsEntryFor(e, zones[i], p, dist) && e.distanceKm <= radiusKm
      {
        SortByMembers(acc, NearbyKey, e);
        NearbyUnsortedMembers(zones, p, radiusKm, dist, e);
      }
    }

    /** `add_zone`: rejects fewer than 3 coordinates; otherwise appends one zone with id `len + 1`. */
    method AddZone(data: ZoneData) returns (added: bool)
      requires Valid()
      modifies this
      ensures Valid() && isInitialized == old(isInitialized)
      ensures added <==> |data.coordinates.GetOr([])| >= 3
      ensures added ==> zones == old(zones) + [NewZone(old(zones), data)]
      ensures !added ==> zones == old(zones)
    {
      var newZone := NewZone(zones, data);
      if |newZone.coordinates| < 3 {
        return false;
      }
      zones := zones + [newZone];
      return true;
    }

    /** `remove_zone`: drops every zone with that id, keeps the others in order, always succeeds. */
    method RemoveZone(zoneId: int) returns (ok: bool)
      requires Valid()
      modifies this
      ensures Valid() && isInitialized == old(isInitialized)
      ensures ok && zones == WithoutId(old(zones), zoneId)
    {
      WithoutIdKeeps(zones, zoneId);
      zones := WithoutId(zones, zoneId);
      return true;
    }

    /**
     * `validate_location`: unsafe exactly when the breach scan finds a zone, with that zone's
     * risk level; a proximity warning exactly when some zone centre is under 1 km away.
     */
    method ValidateLocation(lat: real, lng: real, dist: DistanceFn) returns (r: LocationReport)
      ensures r.lat == lat && r.lng == lng
      ensures !r.isSafe <==> BreachScan(zones, lat, lng).Breach?
      ensures BreachScan(zones, lat, lng).Breach? ==>
        var b := BreachScan(zones, lat, lng).index;
        b < |zones| && r.riskLevel == zones[b].riskLevel && r.zoneInfo == Some(BreachInfo(zones[b]))
      ensures !BreachScan(zones, lat, lng).Breach? ==> r.riskLevel == 0 && r.zoneInfo.None?
      ensures (exists w :: w in r.warnings && w.ZoneNearby?) <==>
        exists i :: 0 <= i < |zones| && dist(Point(lat, lng), PolygonCenter(zones[i].coordinates)) < WarningDistanceKm
      ensures forall e :: e in r.nearbyZones ==> e.distanceKm <= ProximityRadiusKm
      ensures ExitRecommendation in r.recommendations <==> !r.isSafe
    {
      var info := GetZoneInfo(lat, lng);
      var nearby := GetNearbyZones(lat, lng, ProximityRadiusKm, dist);
      r := Assemble(lat, lng, info, nearby);
      ProximityWarningRule(zones, Point(lat, lng), dist, nearby);
    }

    /**
     * `check_location_with_crime_analysis`: the basic report, extended with the crime score
     * when the scorer answered; a missing score counts as 5.0.
     */
    method CheckLocationWithCrimeAnalysis(lat: real, lng: real, dist: DistanceFn, crime: CrimeOutcome)
      returns (r: EnhancedReport)
      ensures r.basic.lat == lat && r.basic.lng == lng
      ensures !r.basic.isSafe <==> BreachScan(zones, lat, lng).Breach?
      ensures BreachScan(zones, lat, lng).Breach? ==>
        var b := BreachScan(zones, lat, lng).index;
        b < |zones| && r.basic.riskLevel == zones[b].riskLevel && r.basic.zoneInfo == Some(BreachInfo(zones[b]))
      ensures !BreachScan(zones, lat, lng).Breach? ==> r.basic.riskLevel == 0 && r.basic.zoneInfo.None?
      ensures (exists w :: w in r.basic.warnings && w.ZoneNearby?) <==>
        exists i :: 0 <= i < |zones| && dist(Point(lat, lng), PolygonCenter(zones[i].coordinates)) < WarningDistanceKm
      ensures ExitRecommendation in r.basic.recommendations <==> !r.basic.isSafe
      ensures r.enhancedAnalysis <==> crime.Analysed?
      ensures !crime.Analysed? ==>
        && r.isSafe == r.basic.isSafe && r.crimeRiskScore.None? && r.combinedRiskLevel.None?
        && r.warnings == r.basic.warnings && r.recommendations == r.basic.recommendations
      ensures crime.Analysed? ==>
        var score := crime.analysis.overallRiskScore.GetOr(DefaultCrimeScore);
        && r.crimeRiskScore == Some(score)
        && r.combinedRiskLevel == Some(CombineRisk(r.basic.riskLevel, score).combinedRiskLevel)
        && r.isSafe == CombineRisk(r.basic.riskLevel, score).isSafe
        && (BreachScan(zones, lat, lng).Breach? ==>
              var b := BreachScan(zones, lat, lng).index;
              b < |zones| && (r.isSafe <==> zones[b].riskLevel <= 0 && score <= SafeCrimeScore))
        && (!BreachScan(zones, lat, lng).Breach? ==> (r.isSafe <==> score <= SafeCrimeScore))
        && |r.recommendations| <= MaxRecommendations && NoDuplicates(r.recommendations)
        && (forall x :: x in r.recommendations ==> x in r.basic.recommendations || x in crime.analysis.recommendations)
        && r.recommendations == Prefix(Distinct(r.basic.recommendations + crime.analysis.recommendations), MaxRecommendations)
        && (|Distinct(r.basic.recommendations + crime.analysis.recommendations)| <= MaxRecommendations ==>
              forall x :: x in r.basic.recommendations + crime.analysis.recommendations ==> x in r.recommendations)
        && NoDuplicates(r.warnings)
        && (forall w :: w in r.warnings <==> w in r.basic.warnings + AreaAlerts(crime.analysis.alerts))
    {
      var basic := ValidateLocation(lat, lng, dist);
      match crime {
        case NotAvailable =>
          r := EnhancedReport(basic, false, None, None, basic.isSafe, basic.warnings, basic.recommendations);
        case AnalysisFailed(_) =>
          r := EnhancedReport(basic, false, None, None, basic.isSafe, basic.warnings, basic.recommendations);
        case Analysed(analysis) =>
          var crimeRisk := analysis.overallRiskScore.GetOr(DefaultCrimeScore);
          var combined := CombineRisk(basic.riskLevel, crimeRisk);
          var warnings := Distinct(basic.warnings + AreaAlerts(analysis.alerts));
          var recommendations := Prefix(Distinct(basic.recommendations + analysis.recommendations), MaxRecommendations);
          MergedRecommendations(basic.recommendations, analysis.recommendations);
          r := EnhancedReport(basic, true, Some(crimeRisk), Some(combined.combinedRiskLevel), combined.isSafe,
                              warnings, recommendations);
      }
    }
  }

  /** True when the closest nearby zone (the list is sorted) is under 1 km away. */
  predicate ClosestUnderWarning(nearby: seq<NearbyZone>)
  {
    |nearby| > 0 && nearby[0].distanceKm < WarningDistanceKm
  }

  /** The report validate_location builds from the zone lookup and the nearby list. */
  function Assemble(lat: real, lng: real, info: Option<ZoneInfo>, nearby: seq<NearbyZone>): (r: LocationReport)
    ensures r.lat == lat && r.lng == lng && r.nearbyZones == nearby
    ensures !r.isSafe <==> info.Some? && info.value.breachDetected
    ensures !r.isSafe ==> r.riskLevel == info.value.riskLevel && r.zoneInfo == info
    ensures r.isSafe ==> r.riskLevel == 0 && r.zoneInfo.None?
    ensures (exists w :: w in r.warnings && w.ZoneNearby?) <==> ClosestUnderWarning(nearby)
    ensures ExitRecommendation in r.recommendations <==> !r.isSafe
  {
    var breach := info.Some? && info.value.breachDetected;
    var w1 := if breach then [RestrictedZone(info.value.zoneType)] else [];
    var r1 := if breach then [ExitRecommendation] else [];
    var near := ClosestUnderWarning(nearby);
    var w2 := if near then [ZoneNearby(nearby[0].zoneName, nearby[0].distanceKm)] else [];
    var r2 := if near then [AvoidRecommendation] else [];
    assert forall w :: w in w1 + w2 ==> w in w1 || w in w2;
    assert near ==> w2[0] in w1 + w2;
    LocationReport(lat, lng, !breach, if breach then info.value.riskLevel else 0,
                   if breach then info else None, nearby, w1 + w2, r1 + r2)
  }

  /** The proximity rule of validate_location, stated over the sorted nearby list. */
  lemma ProximityWarningRule(zones: seq<RedZone>, p: Point, dist: DistanceFn, nearby: seq<NearbyZone>)
    requires SortedBy(nearby, NearbyKey)
    requires forall e :: e in nearby <==>
      exists i :: 0 <= i < |zones| && IsEntryFor(e, zones[i], p, dist) && e.distanceKm <= ProximityRadiusKm
    ensures ClosestUnderWarning(nearby) <==>
      exists i :: 0 <= i < |zones| && dist(p, PolygonCenter(zones[i].coordinates)) < WarningDistanceKm
    ensures forall e :: e in nearby ==> e.distanceKm <= ProximityRadiusKm
  {
    if exists i :: 0 <= i < |zones| && dist(p, PolygonCenter(zones[i].coordinates)) < WarningDistanceKm {
      var i :| 0 <= i < |zones| && dist(p, PolygonCenter(zones[i].coordinates)) < WarningDistanceKm;
      var e := ToNearby(zones[i], dist(p, PolygonCenter(zones[i].coordinates)));
      assert IsEntryFor(e, zones[i], p, dist);
      assert e in nearby;
      var k :| 0 <= k < |nearby| && nearby[k] == e;
      assert NearbyKey(nearby[0]) <= NearbyKey(nearby[k]);
    }
    if |nearby| > 0 && nearby[0].distanceKm < WarningDistanceKm {
      assert nearby[0] in nearby;
    }
  }

  /** The zone `add_zone` would append: `id = len(red_zones) + 1` and the documented defaults. */
  function NewZone(zones: seq<RedZone>, data: ZoneData): (z: RedZone)
    ensures z.id == |zones| + 1
  {
    RedZone(|zones| + 1, data.name.GetOr("New Zone"), data.kind.GetOr("Custom"),
            data.coordinates.GetOr([]), data.riskLevel.GetOr(3))
  }

  /** The list comprehension of `remove_zone`. */
  function WithoutId(zones: seq<RedZone>, zoneId: int): (r: seq<RedZone>)
    ensures |r| <= |zones|
  {
    if zones == [] then []
    else (if zones[0].id != zoneId then [zones[0]] else []) + WithoutId(zones[1..], zoneId)
  }

  /** Exactly the zones with another id remain, each still closed. */
  lemma {:induction false} WithoutIdKeeps(zones: seq<RedZone>, zoneId: int)
    ensures forall z :: z in WithoutId(zones, zoneId) <==> z in zones && z.id != zoneId
    ensures AllClosed(zones) ==> AllClosed(WithoutId(zones, zoneId))
  {
    if zones != [] {
      WithoutIdKeeps(zones[1..], zoneId);
      var r := WithoutId(zones, zoneId);
      forall z ensures z in r <==> z in zones && z.id != zoneId {
        assert z in zones <==> z == zones[0] || z in zones[1..];
      }
      if AllClosed(zones) {
        assert AllClosed(zones[1..]) by {
          forall i | 0 <= i < |zones[1..]| ensures |zones[1..][i].coordinates| >= 3 {
            assert zones[1..][i] == zones[i + 1];
          }
        }
        var head := if zones[0].id != zoneId then [zones[0]] else [];
        var tail := WithoutId(zones[1..], zoneId);
        assert r == head + tail;
        forall i | 0 <= i < |r| ensures |r[i].coordinates| >= 3 {
          if i < |head| {
            assert r[i] == zones[0];
          } else {
            assert r[i] == tail[i - |head|];
          }
        }
      }
    }
  }

  /** The filter keeps the relative order: it distributes over concatenation. */
  lemma {:induction false} WithoutIdAppend(a: seq<RedZone>, b: seq<RedZone>, zoneId: int)
    ensures WithoutId(a + b, zoneId) == WithoutId(a, zoneId) + WithoutId(b, zoneId)
  {
    if a != [] {
      assert (a + b)[1..] == a[1..] + b;
      WithoutIdAppend(a[1..], b, zoneId);
    } else {
      assert a + b == b;
    }
  }

  /** Removing the same id twice leaves the list that removing it once gives. */
  lemma {:induction false} RemoveZoneIdempotent(zones: seq<RedZone>, zoneId: int)
    ensures WithoutId(WithoutId(zones, zoneId), zoneId) == WithoutId(zones, zoneId)
  {
    if zones != [] {
      RemoveZoneIdempotent(zones[1..], zoneId);
      var head := if zones[0].id != zoneId then [zones[0]] else [];
      WithoutIdAppend(head, WithoutId(zones[1..], zoneId), zoneId);
      if head != [] {
        assert head[1..] == [];
      }
    }
  }

  /**
   * Ids are not unique: after removing zone 1 from the seed list, `add_zone` hands out id 4,
   * which zone "Mining Area - Dangerous" still holds.
   */
  lemma AddAfterRemoveCanDuplicateIds(data: ZoneData)
    ensures var after := WithoutId(SeedZones, 1);
      |after| == 3 && after[2].id == 4 && NewZone(after, data).id == after[2].id
  {
    var s := SeedZones;
    assert WithoutId(s[3..], 1) == [s[3]] by { assert s[3..][1..] == []; }
    assert WithoutId(s[2..], 1) == [s[2], s[3]] by { assert s[2..][1..] == s[3..]; }
    assert WithoutId(s[1..], 1) == [s[1], s[2], s[3]] by { assert s[1..][1..] == s[2..]; }
  }

  /** The point (26.9000, 75.7800), south of Military Zone Alpha's lowest vertex, is outside it. */
  lemma MilitaryAlphaExcludesSouthernPoint()
    ensures !InsideByParity(26.9000, 75.7800, SeedZones[0].coordinates)
  {
    var poly := SeedZones[0].coordinates;
    assert forall i :: 0 <= i < |poly| ==> 26.9000 <= poly[i].lat;
    OutsideBoundingBoxIsOutside(26.9000, 75.7800, poly);
  }
}
