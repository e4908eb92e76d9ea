/**
 * What the map shows for a planned trip (src/App.tsx): the route polyline
 * converted from GeoJSON to Leaflet order, the map centre, and one coloured
 * marker per stop that has coordinates.
 */
module TripMap {
  import opened Wrappers
  import opened Api

  /** A Leaflet position: (latitude, longitude). */
  type LatLng = (real, real)

  /** A circle marker for the stop at `stopIndex` in the response's stop list. */
  datatype Marker = Marker(stopIndex: nat, center: LatLng, color: string)

  /** Where the map is centred when there is no route. */
  const DEFAULT_CENTER: LatLng := (37.773972, -122.431297)

  const PICKUP_COLOR: string := "#26a69a"
  const DROPOFF_COLOR: string := "#ef5350"
  const FUEL_COLOR: string := "#ffa000"
  const BREAK_COLOR: string := "#42a5f5"
  const REST_COLOR: string := "#ab47bc"

  /** `([lon, lat]) => [lat, lon]`; any altitude is dropped. */
  function ToLatLng(p: Position): LatLng {
    (p[1], p[0])
  }

  /** The GeoJSON position of a Leaflet position, without altitude. */
  function ToPosition(ll: LatLng): Position {
    [ll.1, ll.0]
  }

  /** `coordinates.map(...)`: each GeoJSON position in Leaflet order. */
  function ConvertCoordinates(coords: seq<Position>): (r: seq<LatLng>)
    ensures |r| == |coords|
    ensures forall i :: 0 <= i < |coords| ==> r[i].0 == coords[i][1] && r[i].1 == coords[i][0]
  {
    if coords == [] then [] else [ToLatLng(coords[0])] + ConvertCoordinates(coords[1..])
  }

  /** The inverse direction: Leaflet positions back to 2-D GeoJSON positions. */
  function ToPositions(lls: seq<LatLng>): (r: seq<Position>)
    ensures |r| == |lls|
    ensures forall i :: 0 <= i < |lls| ==> r[i] == [lls[i].1, lls[i].0]
  {
    if lls == [] then [] else [ToPosition(lls[0])] + ToPositions(lls[1..])
  }

  /** The route polyline of a (possibly absent) plan: empty unless the route is a LineString. */
  function PolylinePositions(result: Option<PlanTripResponse>): (r: seq<LatLng>)
    ensures (result.None? || result.value.route.geometry.None?
             || !result.value.route.geometry.value.LineString?) ==> r == []
    ensures (result.Some? && result.value.route.geometry.Some?
             && result.value.route.geometry.value.LineString?) ==>
      var coords := result.value.route.geometry.value.coordinates;
      |r| == |coords| && forall i :: 0 <= i < |coords| ==> r[i] == (coords[i][1], coords[i][0])
  {
    if result.None? then []
    else match result.value.route.geometry
      case Some(LineString(coords)) => ConvertCoordinates(coords)
      case _ => []
  }

  /** `polylinePositions[0] || DEFAULT_CENTER`. */
  function Center(positions: seq<LatLng>): (c: LatLng)
    ensures positions != [] ==> c == positions[0]
    ensures positions == [] ==> c == DEFAULT_CENTER
  {
    if |positions| > 0 then positions[0] else DEFAULT_CENTER
  }

  /** The marker colour of a stop kind; every kind not named here (rest) shares one colour. */
  function StopColor(kind: string): (c: string)
    ensures c == PICKUP_COLOR <==> kind == "pickup"
    ensures c == DROPOFF_COLOR <==> kind == "dropoff"
    ensures c == FUEL_COLOR <==> kind == "fuel"
    ensures c == BREAK_COLOR <==> kind == "break"
    ensures c == REST_COLOR <==> kind !in {"pickup", "dropoff", "fuel", "break"}
  {
    if kind == "pickup" then PICKUP_COLOR
    else if kind == "dropoff" then DROPOFF_COLOR
    else if kind == "fuel" then FUEL_COLOR
    else if kind == "break" then BREAK_COLOR
    else REST_COLOR
  }

  /** `s.lat != null && s.lon != null`. */
  predicate HasCoordinates(s: Stop) {
    s.lat.Some? && s.lon.Some?
  }

  /** The indices of the stops that a list of markers stands for. */
  function MarkedStops(ms: seq<Marker>): (r: set<nat>)
    ensures forall n :: n in r <==> exists k :: 0 <= k < |ms| && ms[k].stopIndex == n
  {
    if ms == [] then {}
    else
      var r := {ms[0].stopIndex} + MarkedStops(ms[1..]);
      assert forall k :: 1 <= k < |ms| ==> ms[1..][k - 1] == ms[k];
      r
  }

  /** Markers for the stops from index `i` on, skipping stops without coordinates. */
  function MarkersFrom(stops: seq<Stop>, i: nat): (ms: seq<Marker>)
    requires i <= |stops|
    decreases |stops| - i
    ensures forall k :: 0 <= k < |ms| ==>
      && i <= ms[k].stopIndex < |stops|
      && HasCoordinates(stops[ms[k].stopIndex])
      && ms[k].center == (stops[ms[k].stopIndex].lat.value, stops[ms[k].stopIndex].lon.value)
      && ms[k].color == StopColor(stops[ms[k].stopIndex].kind)
    ensures forall k, l :: 0 <= k < l < |ms| ==> ms[k].stopIndex < ms[l].stopIndex
    ensures forall j :: i <= j < |stops| ==> (j in MarkedStops(ms) <==> HasCoordinates(stops[j]))
  {
    if i == |stops| then []
    else
      var rest := MarkersFrom(stops, i + 1);
      var s := stops[i];
      if HasCoordinates(s) then
        var ms := [Marker(i, (s.lat.value, s.lon.value), StopColor(s.kind))] + rest;
        assert ms[1..] == rest;
        ms
      else rest
  }

  /** The markers of a plan's stops (none when there is no plan). */
  function Markers(result: Option<PlanTripResponse>): (ms: seq<Marker>)
    ensures result.None? ==> ms == []
    ensures result.Some? ==>
      && (forall j :: 0 <= j < |result.value.stops| ==>
            (j in MarkedStops(ms) <==> HasCoordinates(result.value.stops[j])))
      && (forall k, l :: 0 <= k < l < |ms| ==> ms[k].stopIndex < ms[l].stopIndex)
      && (forall k :: 0 <= k < |ms| ==>
            && ms[k].stopIndex < |result.value.stops|
            && ms[k].color == StopColor(result.value.stops[ms[k].stopIndex].kind))
  {
    if result.None? then [] else MarkersFrom(result.value.stops, 0)
  }

  // ---- Properties ----

  /** Without a plan, without a geometry, or with a geometry other than a LineString, there is no polyline. */
  lemma PolylineEmptyUnlessLineString(result: Option<PlanTripResponse>)
    requires result.None? || result.value.route.geometry.None?
          || !result.value.route.geometry.value.LineString?
    ensures PolylinePositions(result) == []
  {
  }

  /** A LineString route gives one Leaflet position per coordinate, each with its pair swapped. */
  lemma PolylineSwapsPairs(result: Option<PlanTripResponse>)
    requires result.Some? && result.value.route.geometry.Some?
    requires result.value.route.geometry.value.LineString?
    ensures var coords := result.value.route.geometry.value.coordinates;
      && |PolylinePositions(result)| == |coords|
      && forall i :: 0 <= i < |coords| ==>
           PolylinePositions(result)[i] == (coords[i][1], coords[i][0])
  {
  }

  /** Converting Leaflet positions to GeoJSON and back gives them back unchanged. */
  lemma ConvertAfterToPositions(lls: seq<LatLng>)
    ensures ConvertCoordinates(ToPositions(lls)) == lls
  {
  }

  /** Converting GeoJSON to Leaflet and back is the identity exactly when every position is 2-D. */
  lemma ToPositionsAfterConvert(coords: seq<Position>)
    ensures ToPositions(ConvertCoordinates(coords)) == coords
        <==> forall i :: 0 <= i < |coords| ==> |coords[i]| == 2
  {
    var back := ToPositions(ConvertCoordinates(coords));
    if forall i :: 0 <= i < |coords| ==> |coords[i]| == 2 {
      forall i | 0 <= i < |coords|
        ensures back[i] == coords[i]
      {
        assert back[i] == [coords[i][0], coords[i][1]];
      }
    } else {
      var i :| 0 <= i < |coords| && |coords[i]| != 2;
      assert |back[i]| == 2;
    }
  }

  /** The map is centred on the first route position when there is one, else on the default. */
  lemma CenterOfRoute(result: Option<PlanTripResponse>)
    ensures
      var geometry := if result.None? then None else result.value.route.geometry;
      if geometry.Some? && geometry.value.LineString? && |geometry.value.coordinates| > 0
      then Center(PolylinePositions(result)) == (geometry.value.coordinates[0][1], geometry.value.coordinates[0][0])
      else Center(PolylinePositions(result)) == DEFAULT_CENTER
  {
  }

  /** A stop gets a marker exactly when both its latitude and longitude are present. */
  lemma MarkerIffCoordinates(result: Option<PlanTripResponse>, j: nat)
    requires result.Some? && j < |result.value.stops|
    ensures j in MarkedStops(Markers(result)) <==> HasCoordinates(result.value.stops[j])
  {
  }

  /** A plan whose stops all have coordinates gets one marker per stop, in stop order. */
  lemma {:induction false} MarkersForLocatedStops(stops: seq<Stop>, i: nat)
    requires i <= |stops|
    requires forall j :: i <= j < |stops| ==> HasCoordinates(stops[j])
    decreases |stops| - i
    ensures |MarkersFrom(stops, i)| == |stops| - i
    ensures forall k :: 0 <= k < |stops| - i ==> MarkersFrom(stops, i)[k].stopIndex == i + k
  {
    if i < |stops| {
      MarkersForLocatedStops(stops, i + 1);
      var rest := MarkersFrom(stops, i + 1);
      var s := stops[i];
      assert HasCoordinates(s);
      var ms := MarkersFrom(stops, i);
      assert ms == [Marker(i, (s.lat.value, s.lon.value), StopColor(s.kind))] + rest;
      forall k | 0 <= k < |stops| - i
        ensures ms[k].stopIndex == i + k
      {
        if k > 0 {
          assert ms[k] == rest[k - 1];
        }
      }
    }
  }
}
