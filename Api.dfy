/**
 * The shapes exchanged with the trip-planning service (src/api.ts).  The
 * service call itself is not modelled; see TripPlanner for how its outcome
 * enters the model.
 */
module Api {
  import opened Wrappers
  import EldLog

  /** The body of a plan request. */
  datatype PlanTripRequest = PlanTripRequest(
    currentLocation: string,
    pickupLocation: string,
    dropoffLocation: string,
    currentCycleHoursUsed: real,
    startTime: Option<string>)

  /**
   * A GeoJSON position (section 3.1.1 of RFC 7946): longitude, latitude and
   * optionally further elements such as altitude — at least two numbers.
   */
  type Position = p: seq<real> | |p| >= 2 witness [0.0, 0.0]

  /** The name of a GeoJSON geometry type other than LineString (Point, Polygon, ...). */
  type OtherGeometryType = t: string | t != "LineString" witness "Point"

  /** A route geometry: a GeoJSON LineString, or a geometry of any other type. */
  datatype Geometry = LineString(coordinates: seq<Position>) | OtherGeometry(kind: OtherGeometryType)

  /** The planned route; its turn-by-turn steps are not modelled. */
  datatype Route = Route(geometry: Option<Geometry>)

  /** A planned stop; `kind` is one of pickup, break, rest, fuel, dropoff. */
  datatype Stop = Stop(kind: string, eta: string, lat: Option<real>, lon: Option<real>, durationHours: real)

  /** One day's duty log, with timestamps already in milliseconds. */
  datatype EldDay = EldDay(date: string, segments: seq<EldLog.Segment>)

  datatype Summary = Summary(distanceMiles: real, durationHours: real)

  datatype PlanTripResponse = PlanTripResponse(
    route: Route,
    stops: seq<Stop>,
    eldDays: seq<EldDay>,
    summary: Summary)
}
