/**
  `fetchTrafficDelay` from src/fetchTrafficInfo.ts. The Mapbox geocoding and
  directions responses are inputs; the function returns the delay estimate in
  minutes together with the lookups it asked Mapbox for, in order.
 */
module TrafficInfo {
  import opened Wrappers
  import opened JsText

  /** A geocoded point, `features[0].center` of a geocoding response. */
  datatype Coordinates = Coordinates(longitude: real, latitude: real)

  /** What a geocoding request produced: a thrown error, or a body whose `features` may be absent. */
  datatype GeocodeResponse =
    | GeocodeFailed
    | GeocodeBody(features: Option<seq<Coordinates>>)

  /**
    One leg of a route. `congestionNumeric` is `legs[i].annotation.congestion_numeric`;
    `None` covers both a missing annotation and a missing series.
   */
  datatype Leg = Leg(congestionNumeric: Option<seq<real>>)

  /** One route: its `duration` in seconds and its `legs`, which may be absent. */
  datatype Route = Route(durationSeconds: real, legs: Option<seq<Leg>>)

  /** What a directions request produced: a thrown error, or a body whose `routes` may be absent. */
  datatype DirectionsResponse =
    | DirectionsFailed
    | DirectionsBody(routes: Option<seq<Route>>)

  /** Everything `fetchTrafficDelay` reads from outside: the access token and Mapbox's three answers. */
  datatype TrafficEnv = TrafficEnv(
    accessToken: Option<string>,
    originGeocode: GeocodeResponse,
    destinationGeocode: GeocodeResponse,
    directions: DirectionsResponse)

  /** A request sent to Mapbox. */
  datatype Lookup =
    | Geocode(place: string)
    | Directions(start: Coordinates, end: Coordinates)

  /** The delay estimate in minutes and the Mapbox requests made while computing it. */
  datatype TrafficFetch = TrafficFetch(delayMinutes: real, lookups: seq<Lookup>)

  /** `getCoordinates`: the first feature's centre, or `None` when there is none or the request failed. */
  function GetCoordinates(response: GeocodeResponse): (c: Option<Coordinates>)
    ensures c.Some? <==> response.GeocodeBody? && response.features.Some? && |response.features.value| > 0
    ensures c.Some? ==> c.value == response.features.value[0]
  {
    match response
    case GeocodeFailed => None
    case GeocodeBody(features) =>
      if features.None? || |features.value| == 0 then None else Some(features.value[0])
  }

  // ---------------------------------------------------------------------
  // Congestion arithmetic
  // ---------------------------------------------------------------------

  /** Sum of a series, accumulated from the left as `reduce` does. */
  function Sum(s: seq<real>): real {
    if |s| == 0 then 0.0 else Sum(s[..|s| - 1]) + s[|s| - 1]
  }

  /** Arithmetic mean of a series; `0` for the empty series. */
  function Average(s: seq<real>): real {
    if |s| == 0 then 0.0 else Sum(s) / |s| as real
  }

  predicate Within(s: seq<real>, lo: real, hi: real) {
    forall i :: 0 <= i < |s| ==> lo <= s[i] <= hi
  }

  /** A sum of values within `[lo, hi]` lies within `[n * lo, n * hi]`. */
  lemma {:induction false} SumWithin(s: seq<real>, lo: real, hi: real)
    requires Within(s, lo, hi)
    ensures |s| as real * lo <= Sum(s) <= |s| as real * hi
    decreases |s|
  {
    if |s| > 0 {
      var front := s[..|s| - 1];
      assert Within(front, lo, hi) by {
        forall i | 0 <= i < |front| ensures lo <= front[i] <= hi {
          assert front[i] == s[i];
        }
      }
      SumWithin(front, lo, hi);
      var n := |front| as real;
      assert |s| as real * lo == n * lo + lo;
      assert |s| as real * hi == n * hi + hi;
    }
  }

  /** The mean of a non-empty series of values within `[lo, hi]` lies within `[lo, hi]`. */
  lemma AverageWithin(s: seq<real>, lo: real, hi: real)
    requires |s| > 0 && Within(s, lo, hi)
    ensures lo <= Average(s) <= hi
  {
    SumWithin(s, lo, hi);
    var n := |s| as real;
    assert Average(s) * n == Sum(s);
    assert Average(s) < lo ==> Average(s) * n < lo * n;
    assert Average(s) > hi ==> Average(s) * n > hi * n;
  }

  /**
    The mean congestion as `fetchTrafficDelay` computes it: the sum folded
    left to right by `reduce((sum, val) => sum + val, 0)`, divided by the
    length, or `0` for an empty series.
   */
  method AverageCongestion(levels: seq<real>) returns (avg: real)
    ensures avg == Average(levels)
    ensures |levels| == 0 ==> avg == 0.0
  {
    if |levels| == 0 {
      return 0.0;
    }
    var sum := 0.0;
    var i := 0;
    while i < |levels|
      invariant 0 <= i <= |levels|
      invariant sum == Sum(levels[..i])
    {
      assert levels[..i + 1][..i] == levels[..i];
      sum := sum + levels[i];
      i := i + 1;
    }
    assert levels[..|levels|] == levels;
    avg := sum / |levels| as real;
  }

  /** `Math.max(0, (avgCongestion / 100) * normalTravelTime)`, the travel time being `duration / 60`. */
  function DelayFromRoute(durationSeconds: real, levels: seq<real>): (delay: real)
    ensures delay >= 0.0
    ensures |levels| == 0 ==> delay == 0.0
    ensures delay >= Average(levels) / 100.0 * (durationSeconds / 60.0)
    ensures delay > 0.0 ==> delay == Average(levels) / 100.0 * (durationSeconds / 60.0)
  {
    var avgCongestion := Average(levels);
    var normalTravelTime := durationSeconds / 60.0;
    var estimate := avgCongestion / 100.0 * normalTravelTime;
    if estimate > 0.0 then estimate else 0.0
  }

  /**
    With congestion on Mapbox's 0 to 100 scale, the delay never exceeds the
    normal travel time, and it is zero on a free-flowing route.
   */
  lemma DelayBoundedByTravelTime(durationSeconds: real, levels: seq<real>)
    requires durationSeconds >= 0.0
    requires Within(levels, 0.0, 100.0)
    ensures DelayFromRoute(durationSeconds, levels) <= durationSeconds / 60.0
    ensures Within(levels, 0.0, 0.0) ==> DelayFromRoute(durationSeconds, levels) == 0.0
  {
    if |levels| > 0 {
      AverageWithin(levels, 0.0, 100.0);
      var a := Average(levels) / 100.0;
      var t := durationSeconds / 60.0;
      assert 0.0 <= a <= 1.0;
      assert a * t <= 1.0 * t;
      if Within(levels, 0.0, 0.0) {
        AverageWithin(levels, 0.0, 0.0);
      }
    }
  }

  /** The worked example: congestion `[0, 50, 100]` on a one-hour route gives 30 minutes. */
  lemma CongestionExample()
    ensures DelayFromRoute(3600.0, [0.0, 50.0, 100.0]) == 30.0
  {
    var s := [0.0, 50.0, 100.0];
    assert s[..2] == [0.0, 50.0];
    assert s[..2][..1] == [0.0];
    assert s[..2][..1][..0] == [];
    assert Sum([0.0]) == 0.0;
    assert Sum([0.0, 50.0]) == 50.0;
    assert Sum(s) == 150.0;
  }

  // ---------------------------------------------------------------------
  // fetchTrafficDelay
  // ---------------------------------------------------------------------

  /**
    `route.legs[0]?.annotation?.congestion_numeric || []`. Reading `legs[0]`
    of an absent `legs` throws, which is `None` here; every other absence
    yields the empty series.
   */
  function CongestionLevels(route: Route): (levels: Option<seq<real>>)
    ensures levels.None? <==> route.legs.None?
    ensures levels.Some? && |levels.value| > 0 ==>
      |route.legs.value| > 0 && route.legs.value[0].congestionNumeric == levels
    ensures route.legs.Some? && |route.legs.value| > 0 && route.legs.value[0].congestionNumeric.Some? ==>
      levels == route.legs.value[0].congestionNumeric
  {
    match route.legs
    case None => None
    case Some(legs) =>
      if |legs| == 0 || legs[0].congestionNumeric.None? then Some([])
      else legs[0].congestionNumeric
  }

  /**
    The delay `fetchTrafficDelay` reads off a directions response: the
    congestion formula on the first route, `0` on every failure path.
   */
  function DelayFromDirections(response: DirectionsResponse): (delay: real)
    ensures delay >= 0.0
    ensures delay > 0.0 ==>
      && response.DirectionsBody?
      && response.routes.Some? && |response.routes.value| > 0
      && CongestionLevels(response.routes.value[0]).Some?
      && delay == DelayFromRoute(response.routes.value[0].durationSeconds,
                                 CongestionLevels(response.routes.value[0]).value)
    ensures
      && response.DirectionsBody?
      && response.routes.Some? && |response.routes.value| > 0
      && CongestionLevels(response.routes.value[0]).Some?
      ==> delay == DelayFromRoute(response.routes.value[0].durationSeconds,
                                  CongestionLevels(response.routes.value[0]).value)
  {
    match response
    case DirectionsFailed => 0.0
    case DirectionsBody(routes) =>
      if routes.None? || |routes.value| == 0 then 0.0
      else
        var route := routes.value[0];
        match CongestionLevels(route)
        case None => 0.0
        case Some(levels) => DelayFromRoute(route.durationSeconds, levels)
  }

  /** `fetchTrafficDelay(origin, destination)`. */
  function FetchTrafficDelay(origin: string, destination: string, env: TrafficEnv): (r: TrafficFetch)
    ensures r.delayMinutes >= 0.0
    ensures !Truthy(env.accessToken) <==> r.lookups == []
    ensures !Truthy(env.accessToken) ==> r.delayMinutes == 0.0
    ensures Truthy(env.accessToken) ==>
      |r.lookups| >= 2 && r.lookups[0] == Geocode(origin) && r.lookups[1] == Geocode(destination)
    ensures |r.lookups| <= 3
    ensures |r.lookups| == 3 <==>
      Truthy(env.accessToken)
      && GetCoordinates(env.originGeocode).Some? && GetCoordinates(env.destinationGeocode).Some?
    ensures |r.lookups| == 3 ==>
      r.lookups[2] == Directions(GetCoordinates(env.originGeocode).value,
                                 GetCoordinates(env.destinationGeocode).value)
    ensures r.delayMinutes > 0.0 ==> |r.lookups| == 3
    ensures |r.lookups| == 3 ==> r.delayMinutes == DelayFromDirections(env.directions)
  {
    if !Truthy(env.accessToken) then TrafficFetch(0.0, [])
    else
      var start := GetCoordinates(env.originGeocode);
      var end := GetCoordinates(env.destinationGeocode);
      var geocodes := [Geocode(origin), Geocode(destination)];
      if start.None? || end.None? then TrafficFetch(0.0, geocodes)
      else TrafficFetch(DelayFromDirections(env.directions), geocodes + [Directions(start.value, end.value)])
  }

  /**
    Every fallback path yields exactly `0`: a missing token, an unresolved
    place, a failed directions request, no routes, a route without legs, or
    a first route whose legs carry no first congestion series.
   */
  lemma FetchFallbacksYieldZero(origin: string, destination: string, env: TrafficEnv)
    requires
      || !Truthy(env.accessToken)
      || GetCoordinates(env.originGeocode).None?
      || GetCoordinates(env.destinationGeocode).None?
      || env.directions.DirectionsFailed?
      || env.directions.routes.None?
      || |env.directions.routes.value| == 0
      || env.directions.routes.value[0].legs.None?
      || |env.directions.routes.value[0].legs.value| == 0
      || env.directions.routes.value[0].legs.value[0].congestionNumeric.None?
    ensures FetchTrafficDelay(origin, destination, env).delayMinutes == 0.0
  {
  }

  /** When every lookup succeeds, the result is the congestion formula applied to the first route. */
  lemma FetchUsesFirstRoute(origin: string, destination: string, env: TrafficEnv, route: Route, rest: seq<Route>, legs: seq<Leg>)
    requires Truthy(env.accessToken)
    requires GetCoordinates(env.originGeocode).Some? && GetCoordinates(env.destinationGeocode).Some?
    requires env.directions == DirectionsBody(Some([route] + rest))
    requires route.legs == Some(legs) && |legs| > 0 && legs[0].congestionNumeric.Some?
    ensures FetchTrafficDelay(origin, destination, env).delayMinutes
         == DelayFromRoute(route.durationSeconds, legs[0].congestionNumeric.value)
  {
  }
}
