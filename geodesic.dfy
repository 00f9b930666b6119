/**
 * The circle polygon drawn around a guess, and the longitude clamp used before a
 * guess is exported as a chat command (reactsite/src/Chatguessr.tsx).
 *
 * The spherical trigonometry of `GetLatLng` (with `DegToRad`) is not modelled: it is
 * a parameter `dest` of type `Destination`, so every property here holds whatever
 * destination formula is plugged in. Bearings are sampled every half degree; the
 * k-th sample has bearing k/2 degrees.
 */
module Geodesic {

  /** A point on the map, in degrees. */
  datatype LatLng = LatLng(lat: real, lng: real)

  /**
   * `GetLatLng(start, DegToRad(bearing), distance)`: the destination reached from
   * `start` after `distance` km along the initial `bearing`, given in degrees.
   */
  type Destination = (LatLng, real, real) -> LatLng

  /** Samples per ring: bearings 0, 0.5, ..., 359.5. */
  const SAMPLE_COUNT: nat := 720
  /** Samples in the first half of a split ring: bearings 0, 0.5, ..., 180 inclusive. */
  const FIRST_HALF_COUNT: nat := 361
  /** Radius (km) above which the polygon is split at bearing 180. */
  const SPLIT_THRESHOLD: real := 10007.0

  /** The bearing, in degrees, of the k-th half-degree sample. */
  function Bearing(k: int): real {
    k as real / 2.0
  }

  /** The unshifted k-th sample point of a circle around `start`. */
  function Sample(dest: Destination, start: LatLng, distance: real, k: int): LatLng {
    dest(start, Bearing(k), distance)
  }

  /** A point moved east by `shift` degrees of longitude. */
  function Shifted(p: LatLng, shift: real): LatLng {
    LatLng(p.lat, p.lng + shift)
  }

  /**
   * The longitude shifts (a, b) applied to the two halves of a split ring:
   * by default the second half is moved one turn east; for a centre east of
   * Greenwich the first half is moved one turn west instead.
   */
  function HalfShifts(start: LatLng): (s: (real, real))
    ensures s.1 - s.0 == 360.0 && s.0 <= 0.0 <= s.1
    ensures s.0 == 0.0 <==> start.lng <= 0.0
  {
    if start.lng > 0.0 then (-360.0, 0.0) else (0.0, 360.0)
  }

  /** The single ring of samples drawn for a circle up to the threshold. */
  function Ring(dest: Destination, start: LatLng, distance: real): (r: seq<LatLng>)
    ensures |r| == SAMPLE_COUNT
  {
    seq(SAMPLE_COUNT, k => Sample(dest, start, distance, k))
  }

  /** The ring split at bearing 180, each half shifted by its own turn count. */
  function SplitRing(dest: Destination, start: LatLng, distance: real): (r: seq<LatLng>)
    ensures |r| == SAMPLE_COUNT
  {
    var (a, b) := HalfShifts(start);
    seq(FIRST_HALF_COUNT, k => Shifted(Sample(dest, start, distance, k), a))
      + seq(SAMPLE_COUNT - FIRST_HALF_COUNT, j => Shifted(Sample(dest, start, distance, FIRST_HALF_COUNT + j), b))
  }

  /** The polygon drawn for a circle of `distance` km around `start`. */
  function Boundary(dest: Destination, start: LatLng, distance: real): (r: seq<LatLng>)
    ensures |r| == SAMPLE_COUNT
  {
    if distance > SPLIT_THRESHOLD then SplitRing(dest, start, distance) else Ring(dest, start, distance)
  }

  /** The longitude shift that the polygon applies to its k-th sample. */
  function ShiftAt(start: LatLng, distance: real, k: int): real {
    if distance <= SPLIT_THRESHOLD then 0.0
    else if k < FIRST_HALF_COUNT then HalfShifts(start).0
    else HalfShifts(start).1
  }

  /**
   * `PolylineFromStart`: one sample per half degree, in increasing bearing order;
   * beyond the threshold the work is handed to `PolylineFromStartConnected`.
   */
  method PolylineFromStart(dest: Destination, start: LatLng, distance: real) returns (points: seq<LatLng>)
    ensures points == Boundary(dest, start, distance)
  {
    if distance > SPLIT_THRESHOLD {
      points := PolylineFromStartConnected(dest, start, distance);
      return;
    }
    points := [];
    var k := 0;
    while k < SAMPLE_COUNT
      invariant 0 <= k <= SAMPLE_COUNT
      invariant |points| == k
      invariant forall i :: 0 <= i < k ==> points[i] == Sample(dest, start, distance, i)
    {
      points := points + [dest(start, Bearing(k), distance)];
      k := k + 1;
    }
  }

  /**
   * `PolylineFromStartConnected`: bearings 0..180 shifted by a, then
   * bearings 180.5..359.5 shifted by b.
   */
  method PolylineFromStartConnected(dest: Destination, start: LatLng, distance: real) returns (points: seq<LatLng>)
    ensures points == SplitRing(dest, start, distance)
  {
    var a, b := 0.0, 360.0;
    if start.lng > 0.0 {
      a, b := -360.0, 0.0;
    }
    points := [];
    var k := 0;
    while k < FIRST_HALF_COUNT
      invariant 0 <= k <= FIRST_HALF_COUNT
      invariant |points| == k
      invariant forall i :: 0 <= i < k ==> points[i] == Shifted(Sample(dest, start, distance, i), a)
    {
      var p := dest(start, Bearing(k), distance);
      points := points + [LatLng(p.lat, p.lng + a)];
      k := k + 1;
    }
    while k < SAMPLE_COUNT
      invariant FIRST_HALF_COUNT <= k <= SAMPLE_COUNT
      invariant |points| == k
      invariant forall i :: 0 <= i < FIRST_HALF_COUNT ==> points[i] == Shifted(Sample(dest, start, distance, i), a)
      invariant forall i :: FIRST_HALF_COUNT <= i < k ==> points[i] == Shifted(Sample(dest, start, distance, i), b)
    {
      var p := dest(start, Bearing(k), distance);
      points := points + [LatLng(p.lat, p.lng + b)];
      k := k + 1;
    }
    assert (a, b) == HalfShifts(start);
  }

  /** The samples run through bearings 0 to 359.5 in increasing half-degree steps. */
  lemma BearingsCoverTurn(k: int)
    requires 0 <= k < SAMPLE_COUNT
    ensures 0.0 <= Bearing(k) < 360.0
    ensures k + 1 < SAMPLE_COUNT ==> Bearing(k + 1) == Bearing(k) + 0.5
    ensures Bearing(k) <= 180.0 <==> k < FIRST_HALF_COUNT
  {
  }

  /** Up to the threshold, sample k is exactly the destination at bearing k/2, unshifted. */
  lemma SmallCircleIsRing(dest: Destination, start: LatLng, distance: real)
    requires distance <= SPLIT_THRESHOLD
    ensures forall k :: 0 <= k < SAMPLE_COUNT ==>
      Boundary(dest, start, distance)[k] == dest(start, Bearing(k), distance)
  {
  }

  /**
   * Every polygon point keeps its sample's latitude, and its longitude is the
   * sample's moved by the shift of its half.
   */
  lemma BoundaryShifts(dest: Destination, start: LatLng, distance: real, k: int)
    requires 0 <= k < SAMPLE_COUNT
    ensures Boundary(dest, start, distance)[k].lat == Sample(dest, start, distance, k).lat
    ensures Boundary(dest, start, distance)[k].lng == Sample(dest, start, distance, k).lng + ShiftAt(start, distance, k)
  {
    if distance > SPLIT_THRESHOLD && k >= FIRST_HALF_COUNT {
      var (a, b) := HalfShifts(start);
      var second := seq(SAMPLE_COUNT - FIRST_HALF_COUNT, j => Shifted(Sample(dest, start, distance, FIRST_HALF_COUNT + j), b));
      assert SplitRing(dest, start, distance)[k] == second[k - FIRST_HALF_COUNT];
      assert FIRST_HALF_COUNT + (k - FIRST_HALF_COUNT) == k;
      assert second[k - FIRST_HALF_COUNT] == Shifted(Sample(dest, start, distance, k), b);
    }
  }

  /**
   * The shift rule of a split ring: (0, 360) for a centre at or west of Greenwich,
   * (-360, 0) east of it; either way the second half lies one full turn east of
   * the first.
   */
  lemma SplitShiftRule(start: LatLng, distance: real)
    requires distance > SPLIT_THRESHOLD
    ensures start.lng <= 0.0 ==> ShiftAt(start, distance, 0) == 0.0 && ShiftAt(start, distance, FIRST_HALF_COUNT) == 360.0
    ensures start.lng > 0.0 ==> ShiftAt(start, distance, 0) == -360.0 && ShiftAt(start, distance, FIRST_HALF_COUNT) == 0.0
    ensures forall k, j :: 0 <= k < FIRST_HALF_COUNT <= j < SAMPLE_COUNT ==>
      ShiftAt(start, distance, j) - ShiftAt(start, distance, k) == 360.0
  {
  }

  // ---------------------------------------------------------------------------
  // ClampLatLng
  // ---------------------------------------------------------------------------

  /** x and y name the same meridian: they differ by a whole number of turns. */
  predicate SameMeridian(x: real, y: real) {
    var turns := (y - x) / 360.0;
    turns.Floor as real == turns
  }

  /** The first loop of `ClampLatLng`: subtract 360 while above 180. */
  function WrapDown(lng: real): (r: real)
    ensures r <= 180.0
    ensures lng > 180.0 ==> r > -180.0
    decreases if lng > 180.0 then (lng - 180.0).Floor + 1 else 0
  {
    if lng > 180.0 then WrapDown(lng - 360.0) else lng
  }

  /** The second loop of `ClampLatLng`: add 360 while below -180. */
  function WrapUp(lng: real): (r: real)
    ensures r >= -180.0
    ensures lng < -180.0 ==> r < 180.0
    decreases if lng < -180.0 then (-180.0 - lng).Floor + 1 else 0
  {
    if lng < -180.0 then WrapUp(lng + 360.0) else lng
  }

  /** The longitude `ClampLatLng` returns. */
  function ClampLng(lng: real): (r: real)
    ensures -180.0 <= r <= 180.0
  {
    var w := WrapDown(lng);
    assert w >= -180.0 ==> WrapUp(w) == w;
    WrapUp(w)
  }

  /** `ClampLatLng`: the two loops, run one after the other; the latitude is kept. */
  method ClampLatLng(ll: LatLng) returns (r: LatLng)
    ensures r == LatLng(ll.lat, ClampLng(ll.lng))
  {
    var lat := ll.lat;
    var lng := ll.lng;
    while lng > 180.0
      invariant WrapDown(lng) == WrapDown(ll.lng)
      decreases (lng - 180.0).Floor
    {
      lng := lng - 360.0;
    }
    while lng < -180.0
      invariant WrapUp(lng) == ClampLng(ll.lng)
      decreases (-180.0 - lng).Floor
    {
      lng := lng + 360.0;
    }
    r := LatLng(lat, lng);
  }

  lemma SameMeridianShift(x: real, y: real)
    requires SameMeridian(x, y)
    ensures SameMeridian(x - 360.0, y) && SameMeridian(x + 360.0, y)
  {
    var t := (y - x) / 360.0;
    assert (y - (x - 360.0)) / 360.0 == t + 1.0;
    assert (y - (x + 360.0)) / 360.0 == t - 1.0;
  }

  lemma SameMeridianTrans(x: real, y: real, z: real)
    requires SameMeridian(x, y) && SameMeridian(y, z)
    ensures SameMeridian(x, z)
  {
    var p, q := (y - x) / 360.0, (z - y) / 360.0;
    var n := p.Floor + q.Floor;
    assert p + q == n as real;
    assert (z - x) / 360.0 == p + q;
    assert (n as real).Floor == n;
  }

  lemma {:induction false} WrapDownSpec(lng: real)
    ensures WrapDown(lng) <= 180.0
    ensures lng > 180.0 ==> WrapDown(lng) > -180.0
    ensures lng <= 180.0 ==> WrapDown(lng) == lng
    ensures SameMeridian(lng, WrapDown(lng))
    decreases if lng > 180.0 then (lng - 180.0).Floor + 1 else 0
  {
    if lng > 180.0 {
      WrapDownSpec(lng - 360.0);
      SameMeridianShift(lng - 360.0 + 360.0, WrapDown(lng)) by {
        assert lng - 360.0 + 360.0 == lng;
      }
      assert SameMeridian(lng, WrapDown(lng)) by {
        assert (WrapDown(lng) - (lng - 360.0)) / 360.0 == (WrapDown(lng) - lng) / 360.0 + 1.0;
      }
    } else {
      assert (lng - lng) / 360.0 == 0.0;
    }
  }

  lemma {:induction false} WrapUpSpec(lng: real)
    ensures WrapUp(lng) >= -180.0
    ensures lng < -180.0 ==> WrapUp(lng) < 180.0
    ensures lng >= -180.0 ==> WrapUp(lng) == lng
    ensures SameMeridian(lng, WrapUp(lng))
    decreases if lng < -180.0 then (-180.0 - lng).Floor + 1 else 0
  {
    if lng < -180.0 {
      WrapUpSpec(lng + 360.0);
      assert SameMeridian(lng, WrapUp(lng)) by {
        assert (WrapUp(lng) - (lng + 360.0)) / 360.0 == (WrapUp(lng) - lng) / 360.0 - 1.0;
      }
    } else {
      assert (lng - lng) / 360.0 == 0.0;
    }
  }

  /**
   * The output longitude lies in [-180, 180], names the same meridian as the
   * input, and an input already in range is returned unchanged.
   */
  lemma ClampRange(lng: real)
    ensures -180.0 <= ClampLng(lng) <= 180.0
    ensures SameMeridian(lng, ClampLng(lng))
    ensures -180.0 <= lng <= 180.0 ==> ClampLng(lng) == lng
  {
    WrapDownSpec(lng);
    WrapUpSpec(WrapDown(lng));
    SameMeridianTrans(lng, WrapDown(lng), ClampLng(lng));
  }

  /** Clamping twice is clamping once. */
  lemma ClampIdempotent(lng: real)
    ensures ClampLng(ClampLng(lng)) == ClampLng(lng)
  {
    ClampRange(lng);
    ClampRange(ClampLng(lng));
  }

  /** Only an input at or west of -180 can come out as -180; otherwise the output lies in (-180, 180]. */
  lemma ClampAvoidsWestSeam(lng: real)
    requires lng > -180.0
    ensures -180.0 < ClampLng(lng) <= 180.0
  {
    WrapDownSpec(lng);
    WrapUpSpec(WrapDown(lng));
  }

  /**
   * Two longitudes of the same meridian clamp to the same value, unless the
   * meridian is the antimeridian itself (see `ClampSeam`). This holds in real
   * arithmetic; floating-point rounding in the loops is not modelled.
   */
  lemma ClampPeriodic(x: real, y: real)
    requires SameMeridian(x, y)
    requires -180.0 < ClampLng(x) < 180.0
    ensures ClampLng(y) == ClampLng(x)
  {
    ClampRange(x);
    ClampRange(y);
    SameMeridianSymm(x, ClampLng(x));
    SameMeridianTrans(ClampLng(x), x, y);
    SameMeridianTrans(ClampLng(x), y, ClampLng(y));
    var t := (ClampLng(y) - ClampLng(x)) / 360.0;
    assert -1.0 < t < 1.0;
  }

  lemma SameMeridianSymm(x: real, y: real)
    requires SameMeridian(x, y)
    ensures SameMeridian(y, x)
  {
    var t := (y - x) / 360.0;
    var n := -t.Floor;
    assert (x - y) / 360.0 == -t;
    assert -t == n as real;
    assert (n as real).Floor == n;
  }

  /**
   * The antimeridian seam: a longitude on the antimeridian comes out as -180
   * when it was at or west of -180, and as 180 otherwise.
   */
  lemma ClampSeam(x: real)
    requires SameMeridian(x, 180.0)
    ensures x <= -180.0 ==> ClampLng(x) == -180.0
    ensures x > -180.0 ==> ClampLng(x) == 180.0
  {
    var c := ClampLng(x);
    ClampRange(x);
    SameMeridianSymm(x, 180.0);
    SameMeridianTrans(180.0, x, c);
    var t := (c - 180.0) / 360.0;
    assert -1.0 <= t <= 0.0;
    assert t.Floor == -1 || t.Floor == 0;
    assert c == -180.0 || c == 180.0;
    if x > -180.0 {
      ClampAvoidsWestSeam(x);
    } else if x < -180.0 {
      WrapDownSpec(x);
      WrapUpSpec(x);
    }
  }
}
