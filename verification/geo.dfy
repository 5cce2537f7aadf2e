/**
 * Geographic primitives of the safety backend (backend/utils/geo_utils.py): ray-casting
 * point-in-polygon, bounding box, vertex-mean centre, shoelace area, coordinate checks,
 * nearby-zone filtering and nearest-city selection.
 *
 * Haversine distance and bearing are transcendental; they enter as function parameters
 * (`dist`, `bearing`) and nothing is assumed about them beyond what a contract states.
 * Coordinates are exact reals, not IEEE doubles.
 */
module Geo {
  import opened Stats
  import opened Sorting

  /** A vertex or a position: `{'lat': ..., 'lng': ...}`. */
  datatype Point = Point(lat: real, lng: real)

  type DistanceFn = (Point, Point) -> real
  type BearingFn = (Point, Point) -> real

  function Min2(a: real, b: real): real { if a <= b then a else b }
  function Max2(a: real, b: real): real { if a >= b then a else b }

  // ---------------------------------------------------------------- ray casting

  /**
   * Whether the edge from `a` to `b` toggles `inside` for the point (x = lng, y = lat).
   * The division is only reached when `y > min(a.lat, b.lat)` and `y <= max(a.lat, b.lat)`,
   * which forces `a.lat != b.lat`: the intersection abscissa is always defined when read.
   */
  predicate Crossing(x: real, y: real, a: Point, b: Point)
  {
    && y > Min2(a.lat, b.lat)
    && y <= Max2(a.lat, b.lat)
    && x <= Max2(a.lng, b.lng)
    && (a.lng == b.lng || x <= Intercept(y, a, b))
  }

  /** The abscissa where the line through `a` and `b` meets latitude `y` (`xinters`). */
  function Intercept(y: real, a: Point, b: Point): real
    requires a.lat != b.lat
  {
    (y - a.lat) * (b.lng - a.lng) / (b.lat - a.lat) + a.lng
  }

  /** Number of toggling edges among the first `k` edges; edge `e` runs from vertex `e` to vertex `(e+1) % n`. */
  function CrossingCount(x: real, y: real, polygon: seq<Point>, k: nat): nat
    requires 1 <= |polygon| && k <= |polygon|
  {
    if k == 0 then 0
    else
      CrossingCount(x, y, polygon, k - 1)
      + (if Crossing(x, y, polygon[k - 1], polygon[Succ(k, |polygon|)]) then 1 else 0)
  }

  /** `k % n` for `1 <= k <= n`: the vertex that edge `k - 1` leads to. */
  function Succ(k: nat, n: nat): nat
    requires 1 <= k <= n
    ensures Succ(k, n) < n
  {
    if k < n then k else 0
  }

  lemma ModIsSucc(k: nat, n: nat)
    requires 1 <= k <= n
    ensures k % n == Succ(k, n)
  {
  }

  /** The ray-casting verdict: an odd number of toggling edges, the closing edge included. */
  predicate InsideByParity(lat: real, lng: real, polygon: seq<Point>)
    requires |polygon| >= 1
  {
    CrossingCount(lng, lat, polygon, |polygon|) % 2 == 1
  }

  /**
   * The ray-casting loop shared by geo_utils.point_in_polygon and
   * RedZoneSystemFallback._point_in_polygon_ray_casting (their loop bodies are identical).
   * The red-zone copy has no length guard: an empty polygon raises, which its callers model.
   */
  method RayCast(lat: real, lng: real, polygon: seq<Point>) returns (inside: bool)
    requires |polygon| >= 1
    ensures inside == InsideByParity(lat, lng, polygon)
  {
    var x, y := lng, lat;
    var n := |polygon|;
    inside := false;
    var p1x, p1y := polygon[0].lng, polygon[0].lat;
    ghost var p1 := polygon[0];
    for i := 1 to n + 1
      invariant p1 == polygon[if i == 1 then 0 else Succ(i - 1, n)]
      invariant p1x == p1.lng && p1y == p1.lat
      invariant inside == (CrossingCount(x, y, polygon, i - 1) % 2 == 1)
    {
      ModIsSucc(i, n);
      var p2x, p2y := polygon[i % n].lng, polygon[i % n].lat;
      ghost var p2 := polygon[i % n];
      var toggles := EdgeToggles(x, y, p1x, p1y, p2x, p2y);
      if toggles {
        inside := !inside;
      }
      p1x, p1y := p2x, p2y;
      p1 := p2;
    }
  }

  /**
   * One edge of the ray-casting loop, branch for branch. `xinters` is computed only when
   * `p1y != p2y`, and that always holds when it is needed: no division by zero, no stale read.
   */
  method EdgeToggles(x: real, y: real, p1x: real, p1y: real, p2x: real, p2y: real) returns (toggles: bool)
    ensures toggles == Crossing(x, y, Point(p1y, p1x), Point(p2y, p2x))
  {
    toggles := false;
    if y > Min2(p1y, p2y) {
      if y <= Max2(p1y, p2y) {
        if x <= Max2(p1x, p2x) {
          assert p1y != p2y;
          var xinters := (y - p1y) * (p2x - p1x) / (p2y - p1y) + p1x;
          assert xinters == Intercept(y, Point(p1y, p1x), Point(p2y, p2x));
          if p1x == p2x || x <= xinters {
            toggles := true;
          }
        }
      }
    }
  }

  /** geo_utils.point_in_polygon: fewer than 3 vertices is never inside. */
  method PointInPolygon(lat: real, lng: real, polygon: seq<Point>) returns (inside: bool)
    ensures |polygon| < 3 ==> !inside
    ensures |polygon| >= 3 ==> inside == InsideByParity(lat, lng, polygon)
  {
    if |polygon| < 3 {
      return false;
    }
    inside := RayCast(lat, lng, polygon);
  }

  /** Dividing both sides of `p * d == q * d` by a non-zero `d`. */
  lemma CancelFactor(p: real, q: real, d: real)
    requires d != 0.0 && p * d == q * d
    ensures p == q
  {
    assert (p - q) * d == 0.0;
  }

  lemma DivTimes(x: real, d: real)
    requires d != 0.0
    ensures x / d * d == x
  {
  }

  /** The line through `a` and `b` meets latitude `y` at the same abscissa from either end. */
  lemma InterceptSymmetric(y: real, a: Point, b: Point)
    requires a.lat != b.lat
    ensures Intercept(y, a, b) == Intercept(y, b, a)
  {
    var a1, a2, b1, b2 := a.lat, a.lng, b.lat, b.lng;
    var d, u := b1 - a1, b2 - a2;
    var p := (y - a1) * u / d;
    var q := (y - b1) * u / d;
    var r := (y - b1) * (a2 - b2) / (a1 - b1);
    DivTimes((y - a1) * u, d);
    DivTimes((y - b1) * u, d);
    DivTimes((y - b1) * (a2 - b2), a1 - b1);
    assert r * d == -(r * (a1 - b1));
    assert (y - b1) * (a2 - b2) == -((y - b1) * u);
    CancelFactor(r, q, d);
    assert (y - a1) * u - (y - b1) * u == d * u;
    assert p * d - q * d == u * d;
    assert (p - q) * d == p * d - q * d;
    CancelFactor(p - q, u, d);
  }

  /** The intersection abscissa of an edge does not depend on the edge's direction. */
  lemma CrossingSymmetric(x: real, y: real, a: Point, b: Point)
    ensures Crossing(x, y, a, b) == Crossing(x, y, b, a)
  {
    assert Min2(a.lat, b.lat) == Min2(b.lat, a.lat) && Max2(a.lat, b.lat) == Max2(b.lat, a.lat);
    assert Max2(a.lng, b.lng) == Max2(b.lng, a.lng);
    if a.lat != b.lat {
      InterceptSymmetric(y, a, b);
    }
  }

  /**
   * With one or two vertices the unguarded ray caster already answers "outside": one vertex
   * gives a degenerate edge, two vertices give the same edge twice. So the `< 3` guard of
   * geo_utils and the guard-free red-zone copy agree on every non-empty polygon.
   */
  lemma RayCastDegenerate(lat: real, lng: real, polygon: seq<Point>)
    requires 1 <= |polygon| < 3
    ensures !InsideByParity(lat, lng, polygon)
  {
    var n := |polygon|;
    if n == 1 {
      assert !Crossing(lng, lat, polygon[0], polygon[0]);
      assert CrossingCount(lng, lat, polygon, 1) == 0;
    } else {
      CrossingSymmetric(lng, lat, polygon[0], polygon[1]);
      var c := if Crossing(lng, lat, polygon[0], polygon[1]) then 1 else 0;
      assert CrossingCount(lng, lat, polygon, 1) == c;
      assert CrossingCount(lng, lat, polygon, 2) == 2 * c;
    }
  }

  // ---------------------------------------------------------------- bounding box

  datatype BBox = BBox(minLat: real, maxLat: real, minLng: real, maxLng: real)

  function Lats(points: seq<Point>): (r: seq<real>)
    ensures |r| == |points| && forall i :: 0 <= i < |r| ==> r[i] == points[i].lat
  {
    seq(|points|, i requires 0 <= i < |points| => points[i].lat)
  }

  function Lngs(points: seq<Point>): (r: seq<real>)
    ensures |r| == |points| && forall i :: 0 <= i < |r| ==> r[i] == points[i].lng
  {
    seq(|points|, i requires 0 <= i < |points| => points[i].lng)
  }

  predicate InBox(b: BBox, lat: real, lng: real)
  {
    b.minLat <= lat <= b.maxLat && b.minLng <= lng <= b.maxLng
  }

  /** get_bounding_box: all zeros when empty; otherwise tight bounds attained by some point. */
  function BoundingBox(points: seq<Point>): (b: BBox)
    ensures |points| == 0 ==> b == BBox(0.0, 0.0, 0.0, 0.0)
    ensures forall i :: 0 <= i < |points| ==> InBox(b, points[i].lat, points[i].lng)
    ensures |points| > 0 ==>
      && (exists i :: 0 <= i < |points| && points[i].lat == b.minLat)
      && (exists i :: 0 <= i < |points| && points[i].lat == b.maxLat)
      && (exists i :: 0 <= i < |points| && points[i].lng == b.minLng)
      && (exists i :: 0 <= i < |points| && points[i].lng == b.maxLng)
  {
    if |points| == 0 then BBox(0.0, 0.0, 0.0, 0.0)
    else BBox(SeqMin(Lats(points)), SeqMax(Lats(points)), SeqMin(Lngs(points)), SeqMax(Lngs(points)))
  }

  lemma {:induction false} NoCrossingOutsideBox(lat: real, lng: real, polygon: seq<Point>, k: nat)
    requires 1 <= |polygon| && k <= |polygon|
    requires var b := BoundingBox(polygon); lat <= b.minLat || lat > b.maxLat || lng > b.maxLng
    ensures CrossingCount(lng, lat, polygon, k) == 0
  {
    if k > 0 {
      NoCrossingOutsideBox(lat, lng, polygon, k - 1);
      var b := BoundingBox(polygon);
      assert InBox(b, polygon[k - 1].lat, polygon[k - 1].lng);
      assert InBox(b, polygon[Succ(k, |polygon|)].lat, polygon[Succ(k, |polygon|)].lng);
    }
  }

  /**
   * A point south of (or on) the lowest vertex, north of the highest vertex, or east of the
   * easternmost vertex is outside: the ray to the east meets no edge.
   */
  lemma OutsideBoundingBoxIsOutside(lat: real, lng: real, polygon: seq<Point>)
    requires |polygon| >= 1
    requires var b := BoundingBox(polygon); lat <= b.minLat || lat > b.maxLat || lng > b.maxLng
    ensures !InsideByParity(lat, lng, polygon)
  {
    NoCrossingOutsideBox(lat, lng, polygon, |polygon|);
  }

  // ---------------------------------------------------------------- centre

  /** get_polygon_center (and RedZoneSystemFallback._calculate_polygon_center): the vertex mean. */
  function PolygonCenter(polygon: seq<Point>): (c: Point)
    ensures |polygon| == 0 ==> c == Point(0.0, 0.0)
  {
    if |polygon| == 0 then Point(0.0, 0.0)
    else Point(Sum(Lats(polygon)) / (|polygon| as real), Sum(Lngs(polygon)) / (|polygon| as real))
  }

  /** The vertex mean lies within the bounding box of the same vertices. */
  lemma CenterInBoundingBox(polygon: seq<Point>)
    requires |polygon| > 0
    ensures var b := BoundingBox(polygon); var c := PolygonCenter(polygon); InBox(b, c.lat, c.lng)
  {
    var lats, lngs := Lats(polygon), Lngs(polygon);
    MeanLowerBound(lats, SeqMin(lats));
    MeanUpperBound(lats, SeqMax(lats));
    MeanLowerBound(lngs, SeqMin(lngs));
    MeanUpperBound(lngs, SeqMax(lngs));
  }

  // ---------------------------------------------------------------- area

  const MetersPerDegree: real := 111320.0

  /** Twice the signed area contributed by the edge from `a` to `b`. */
  function Cross(a: Point, b: Point): real
  {
    a.lng * b.lat - b.lng * a.lat
  }

  /** Shoelace sum over the first `k` edges, closing edge `n-1 -> 0` included when `k == n`. */
  function ShoelacePrefix(polygon: seq<Point>, k: nat): real
    requires k <= |polygon|
  {
    if k == 0 then 0.0
    else ShoelacePrefix(polygon, k - 1) + Cross(polygon[k - 1], polygon[Succ(k, |polygon|)])
  }

  function Shoelace(polygon: seq<Point>): real
  {
    ShoelacePrefix(polygon, |polygon|)
  }

  function Abs(r: real): real { if r < 0.0 then -r else r }

  /** calculate_polygon_area: shoelace area in square degrees, scaled by (111.32 km/degree)^2. */
  method PolygonArea(polygon: seq<Point>) returns (areaKm2: real)
    ensures |polygon| < 3 ==> areaKm2 == 0.0
    ensures |polygon| >= 3 ==>
      areaKm2 == Abs(Shoelace(polygon)) / 2.0 * (MetersPerDegree / 1000.0) * (MetersPerDegree / 1000.0)
    ensures areaKm2 >= 0.0
  {
    if |polygon| < 3 {
      return 0.0;
    }
    var n := |polygon|;
    var area := 0.0;
    for i := 0 to n
      invariant area == ShoelacePrefix(polygon, i)
    {
      var j := (i + 1) % n;
      ModIsSucc(i + 1, n);
      area := area + polygon[i].lng * polygon[j].lat;
      area := area - polygon[j].lng * polygon[i].lat;
    }
    area := Abs(area) / 2.0;
    areaKm2 := area * (MetersPerDegree / 1000.0) * (MetersPerDegree / 1000.0);
  }

  /** Sum over the open chain of consecutive pairs, without the closing edge. */
  function OpenChain(s: seq<Point>): real
  {
    if |s| < 2 then 0.0 else OpenChain(s[..|s| - 1]) + Cross(s[|s| - 2], s[|s| - 1])
  }

  function Reverse(s: seq<Point>): (r: seq<Point>)
    ensures |r| == |s| && forall i :: 0 <= i < |s| ==> r[i] == s[|s| - 1 - i]
  {
    seq(|s|, i requires 0 <= i < |s| => s[|s| - 1 - i])
  }

  lemma {:induction false} ShoelacePrefixIsOpenChain(polygon: seq<Point>, k: nat)
    requires 1 <= k <= |polygon|
    ensures ShoelacePrefix(polygon, k - 1) == OpenChain(polygon[..k])
  {
    if k > 1 {
      ShoelacePrefixIsOpenChain(polygon, k - 1);
      var s := polygon[..k];
      assert s[..|s| - 1] == polygon[..k - 1];
      assert s[|s| - 2] == polygon[k - 2] && s[|s| - 1] == polygon[k - 1];
      assert OpenChain(s) == OpenChain(polygon[..k - 1]) + Cross(polygon[k - 2], polygon[k - 1]);
      assert Succ(k - 1, |polygon|) == k - 1;
    }
  }

  lemma {:induction false} OpenChainPrepend(x: Point, s: seq<Point>)
    requires |s| >= 1
    ensures OpenChain([x] + s) == Cross(x, s[0]) + OpenChain(s)
  {
    if |s| >= 2 {
      OpenChainPrepend(x, s[..|s| - 1]);
      assert ([x] + s)[..|[x] + s| - 1] == [x] + s[..|s| - 1];
    } else {
      assert [x] + s == [x, s[0]];
      assert ([x] + s)[..1] == [x];
    }
  }

  lemma {:induction false} OpenChainReverse(s: seq<Point>)
    ensures OpenChain(Reverse(s)) == -OpenChain(s)
  {
    if |s| >= 2 {
      var init := s[..|s| - 1];
      OpenChainReverse(init);
      assert Reverse(s) == [s[|s| - 1]] + Reverse(init);
      OpenChainPrepend(s[|s| - 1], Reverse(init));
      assert Reverse(init)[0] == s[|s| - 2];
    }
  }

  lemma ShoelaceSplit(polygon: seq<Point>)
    requires |polygon| >= 1
    ensures Shoelace(polygon) == OpenChain(polygon) + Cross(polygon[|polygon| - 1], polygon[0])
  {
    var n := |polygon|;
    ShoelacePrefixIsOpenChain(polygon, n);
    assert polygon[..n] == polygon;
  }

  /** Reversing the vertex order negates the signed shoelace sum. */
  lemma ShoelaceReverse(polygon: seq<Point>)
    ensures Shoelace(Reverse(polygon)) == -Shoelace(polygon)
  {
    if |polygon| >= 1 {
      var r := Reverse(polygon);
      ShoelaceSplit(polygon);
      ShoelaceSplit(r);
      OpenChainReverse(polygon);
    }
  }

  /** The reported area does not depend on the orientation (clockwise or not) of the vertices. */
  lemma AreaOrientationInvariant(polygon: seq<Point>)
    ensures Abs(Shoelace(Reverse(polygon))) == Abs(Shoelace(polygon))
  {
    ShoelaceReverse(polygon);
  }

  // ---------------------------------------------------------------- coordinate checks

  /** validate_coordinates. */
  predicate ValidCoordinates(lat: real, lng: real)
  {
    -90.0 <= lat <= 90.0 && -180.0 <= lng <= 180.0
  }

  /** get_rajasthan_bounds. */
  const RajasthanBounds: BBox := BBox(23.03, 30.12, 69.30, 78.17)

  /** is_in_rajasthan: inclusive bounds on both axes. */
  predicate InRajasthan(lat: real, lng: real)
  {
    InBox(RajasthanBounds, lat, lng)
  }

  /** Every position inside the Rajasthan box is a valid coordinate, and the box corners are inside it. */
  lemma RajasthanIsValid(lat: real, lng: real)
    ensures InRajasthan(lat, lng) ==> ValidCoordinates(lat, lng)
    ensures InRajasthan(23.03, 69.30) && InRajasthan(30.12, 78.17)
    ensures !InRajasthan(23.0299, 75.0) && !InRajasthan(26.0, 78.1701)
  {
  }

  /** `x` is a whole number of turns: an integer multiple of 360 degrees. */
  predicate WholeTurns(x: real)
  {
    (x / 360.0).Floor as real == x / 360.0
  }

  /** normalize_bearing: Python's `bearing % 360`, which is never negative for a positive divisor. */
  function NormalizeBearing(bearing: real): (r: real)
    ensures 0.0 <= r < 360.0
    ensures WholeTurns(bearing - r)
  {
    var k := (bearing / 360.0).Floor;
    var r := bearing - 360.0 * (k as real);
    assert 0.0 <= r < 360.0;
    assert (bearing - r) / 360.0 == k as real;
    r
  }

  /** Normalising a normalised bearing changes nothing. */
  lemma NormalizeBearingIdempotent(bearing: real)
    ensures NormalizeBearing(NormalizeBearing(bearing)) == NormalizeBearing(bearing)
  {
    var r := NormalizeBearing(bearing);
    assert 0.0 <= r / 360.0 < 1.0;
    assert (r / 360.0).Floor == 0;
  }

  /** calculate_speed: km/h from a distance and two instants in seconds; 0 for a non-positive interval. */
  function CalculateSpeed(distanceKm: real, t1: real, t2: real): (kmh: real)
    ensures t2 - t1 <= 0.0 ==> kmh == 0.0
    ensures distanceKm >= 0.0 ==> kmh >= 0.0
    ensures t2 - t1 > 0.0 ==> kmh * (t2 - t1) == distanceKm * 3600.0
  {
    var dt := t2 - t1;
    if dt <= 0.0 then 0.0 else distanceKm / dt * 3600.0
  }

  // ---------------------------------------------------------------- nearby zones

  datatype WithDistance<Z> = WithDistance(item: Z, distanceKm: real)

  function DistanceKey<Z>(e: WithDistance<Z>): real { e.distanceKm }

  /** A zone is kept when its centre is not exactly (0, 0) and it is within `maxKm`. */
  predicate NearbyCandidate(p: Point, c: Point, dist: DistanceFn, maxKm: real)
  {
    !(c.lat == 0.0 && c.lng == 0.0) && dist(p, c) <= maxKm
  }

  /** The kept zones with their distances, in input order (before the sort). */
  function NearbyFiltered<Z>(p: Point, zones: seq<Z>, coordsOf: Z -> seq<Point>, dist: DistanceFn, maxKm: real)
    : (r: seq<WithDistance<Z>>)
  {
    if zones == [] then []
    else
      var z := zones[|zones| - 1];
      var c := PolygonCenter(coordsOf(z));
      NearbyFiltered(p, zones[..|zones| - 1], coordsOf, dist, maxKm)
      + (if NearbyCandidate(p, c, dist, maxKm) then [WithDistance(z, dist(p, c))] else [])
  }

  lemma {:induction false} NearbyFilteredMembers<Z>(p: Point, zones: seq<Z>, coordsOf: Z -> seq<Point>,
                                                   dist: DistanceFn, maxKm: real, e: WithDistance<Z>)
    ensures e in NearbyFiltered(p, zones, coordsOf, dist, maxKm) <==>
      (e.item in zones
       && NearbyCandidate(p, PolygonCenter(coordsOf(e.item)), dist, maxKm)
       && e.distanceKm == dist(p, PolygonCenter(coordsOf(e.item))))
  {
    if zones != [] {
      NearbyFilteredMembers(p, zones[..|zones| - 1], coordsOf, dist, maxKm, e);
      assert zones == zones[..|zones| - 1] + [zones[|zones| - 1]];
    }
  }

  /**
   * geo_utils.get_nearby_zones: every zone whose centre is not (0, 0) and lies within
   * `maxKm`, each paired with its distance, sorted ascending by distance.
   */
  method GetNearbyZones<Z>(lat: real, lng: real, zones: seq<Z>, coordsOf: Z -> seq<Point>,
                           dist: DistanceFn, maxKm: real)
    returns (nearby: seq<WithDistance<Z>>)
    ensures SortedBy(nearby, DistanceKey)
    ensures forall e :: e in nearby <==>
      (e.item in zones
       && NearbyCandidate(Point(lat, lng), PolygonCenter(coordsOf(e.item)), dist, maxKm)
       && e.distanceKm == dist(Point(lat, lng), PolygonCenter(coordsOf(e.item))))
    ensures multiset(nearby) == multiset(NearbyFiltered(Point(lat, lng), zones, coordsOf, dist, maxKm))
  {
    var p := Point(lat, lng);
    var acc: seq<WithDistance<Z>> := [];
    for i := 0 to |zones|
      invariant acc == NearbyFiltered(p, zones[..i], coordsOf, dist, maxKm)
    {
      assert zones[..i + 1][..i] == zones[..i];
      var zone := zones[i];
      var center := PolygonCenter(coordsOf(zone));
      if center.lat == 0.0 && center.lng == 0.0 {
        continue;
      }
      var d := dist(p, center);
      if d <= maxKm {
        acc := acc + [WithDistance(zone, d)];
      }
    }
    assert zones[..|zones|] == zones;
    nearby := SortBy(acc, DistanceKey);
    SortBySorted(acc, DistanceKey);
    forall e ensures e in nearby <==>
      (e.item in zones
       && NearbyCandidate(p, PolygonCenter(coordsOf(e.item)), dist, maxKm)
       && e.distanceKm == dist(p, PolygonCenter(coordsOf(e.item))))
    {
      SortByMembers(acc, DistanceKey, e);
      NearbyFilteredMembers(p, zones, coordsOf, dist, maxKm, e);
    }
  }

  // ---------------------------------------------------------------- nearest city

  datatype City = City(name: string, lat: real, lng: real)
  datatype NearestCity = NearestCity(city: City, distanceKm: real)

  const MajorCities: seq<City> := [
    City("Jaipur", 26.9124, 75.7873),
    City("Jodhpur", 26.2389, 73.0243),
    City("Udaipur", 24.5854, 73.7125),
    City("Kota", 25.2138, 75.8648),
    City("Ajmer", 26.4499, 74.6399),
    City("Bikaner", 28.0229, 73.3119),
    City("Pushkar", 26.4900, 74.5500),
    City("Mount Abu", 24.5925, 72.7156)
  ]

  function CityPoint(c: City): Point { Point(c.lat, c.lng) }

  /**
   * get_nearest_major_city: the city at minimum distance; a strict `<` keeps the first of
   * several cities at the same distance.
   */
  method GetNearestMajorCity(lat: real, lng: real, dist: DistanceFn) returns (nearest: NearestCity)
    ensures exists i :: (0 <= i < |MajorCities| && nearest.city == MajorCities[i]
      && nearest.distanceKm == dist(Point(lat, lng), CityPoint(MajorCities[i]))
      && (forall j :: 0 <= j < i ==> dist(Point(lat, lng), CityPoint(MajorCities[j])) > nearest.distanceKm))
    ensures forall j :: 0 <= j < |MajorCities| ==>
      nearest.distanceKm <= dist(Point(lat, lng), CityPoint(MajorCities[j]))
  {
    var p := Point(lat, lng);
    var best := 0;
    var minDistance := dist(p, CityPoint(MajorCities[0]));
    for k := 1 to |MajorCities|
      invariant 0 <= best < k
      invariant minDistance == dist(p, CityPoint(MajorCities[best]))
      invariant forall j :: 0 <= j < k ==> minDistance <= dist(p, CityPoint(MajorCities[j]))
      invariant forall j :: 0 <= j < best ==> dist(p, CityPoint(MajorCities[j])) > minDistance
    {
      var d := dist(p, CityPoint(MajorCities[k]));
      if d < minDistance {
        minDistance := d;
        best := k;
      }
    }
    nearest := NearestCity(MajorCities[best], minDistance);
  }
}
