# Trip planner client: duty-status timeline and trip map, in Dafny

This project models the core of a trip-planning web client. The client sends
origin, pickup and dropoff locations to a planning service. It gets back a
route, a list of stops and a multi-day Hours-of-Service log. It then draws a
map and, for each day, an ELD (electronic logging device) duty-status chart.

The model covers two source files.

- `src/components/EldLog.tsx` is the duty-status timeline. It holds the four-row
  status catalogue (OFF, SB, D, ON), the chart constants, the per-segment bar
  layout and the static grid. It is modelled by the modules `EldLog` (catalogue
  and layout) and `EldGrid` (gridlines, separators, captions, ticks, canvas).
  These modules are pure functions and lemmas.
- `src/App.tsx` is the page. Its pure parts are the GeoJSON-to-Leaflet
  polyline conversion, the map-centre fallback, the stop marker filter and the
  marker colours. They are in `TripMap`. The submit handler changes state step
  by step. It is modelled as the class `TripPlanner.App`, whose methods update
  `loading`, `error` and `result`.
- `Api` holds the shapes of the planning service's request and response
  (`src/api.ts`). `Wrappers` holds `Option` and `Result`.

Modelling choices:
- Timestamps and a day's start are integer milliseconds. Hour offsets and pixel
  positions are exact `real`s.
- A status is a string, as it arrives from the service. A status is known when it
  is one of the catalogue's four keys.
- Row lookup is `findIndex` over the catalogue. It returns -1 for a status the
  catalogue does not list.
- The source does not check for that -1. `ROWS[-1].color` throws inside
  `segments.map`, so the first segment with an unknown status aborts the whole
  day. `EldLog.Layout` models this as `Failure(UnknownStatus(index, status))`
  for that first segment. No row is ever produced for an unknown status.
- A per-segment error policy, in which the other segments of the day still lay
  out after an unknown status, is not what the code does. The model follows the
  code.
- A bar's left edge always lies in [80, 848], but its right edge may not. A
  segment that starts at or after the next midnight gets x = 848 and the
  minimum width 2, so it ends at 850. That is still inside the 856-pixel canvas.
- A GeoJSON position has at least two numbers (section 3.1.1 of RFC 7946). The
  conversion keeps the first two and swaps them. Only a `LineString` geometry
  (section 3.1.4 of RFC 7946) yields a polyline.

Layout is a pure function, so calling it twice on the same inputs gives the
same bars by construction. No lemma states this.

## Model

| member | source | states |
|---|---|---|
| EldLog.FindIndex | src/components/EldLog.tsx:33 | the result is -1 exactly when no catalogue entry from the start position has the key; otherwise it is the first index whose key matches |
| EldLog.RowIndex | src/components/EldLog.tsx:9-14 | the row is in 0..3 exactly when the status is one of OFF, SB, D, ON, and the row's key is that status; otherwise the row is -1 |
| EldLog.CatalogueOrder | src/components/EldLog.tsx:9-14 | OFF, SB, D and ON map to rows 0, 1, 2 and 3 |
| EldLog.RowIndexInjective | src/components/EldLog.tsx:33 | two statuses that map to the same row are equal |
| EldLog.HoursBetween | src/components/EldLog.tsx:23-25 | the result multiplied by 3,600,000 is the millisecond difference |
| EldLog.ClampToDay | src/components/EldLog.tsx:34-35 | the result lies in [0, 24]; an offset already in the day is unchanged; offsets below 0 become 0 and offsets above 24 become 24 |
| EldLog.BarX | src/components/EldLog.tsx:34-35 | every instant maps into [80, 848], however far it lies outside the day |
| EldLog.BarXMonotone | src/components/EldLog.tsx:34 | a later instant never maps to a smaller x |
| EldLog.BarXAtWholeHour | src/components/EldLog.tsx:34-35 | an instant h whole hours after midnight, with 0 <= h <= 24, maps to 80 + 32h |
| EldLog.BarXOutsideDay | src/components/EldLog.tsx:34-35 | instants at or before midnight map to 80; instants at or after the next midnight map to 848 |
| EldLog.LayoutSegment | src/components/EldLog.tsx:30-39 | no bar exactly when the status is unknown; otherwise a bar carrying the note and the row's colour, with x in [80, 848] and width at least 2; its right edge is at most 848 unless only the minimum width is used; its right edge is the end instant's x whenever that is at least 2 past x, and otherwise the width is exactly 2 (zero-length, reversed and fully clamped segments) |
| EldLog.BarY | src/components/EldLog.tsx:36 | the top of a row's bar lies strictly inside that row, with the 18-pixel bar ending above the row's lower separator |
| EldLog.Layout | src/components/EldLog.tsx:30-39 | the day's layout succeeds exactly when every status is known, giving bar j for segment j; on failure the error names the first unknown segment's index and status |
| EldLog.LayoutFrom | src/components/EldLog.tsx:30-39 | success exactly when every segment's status is known, with one bar per segment in input order; on failure the error names the first unknown segment's index and status |
| EldLog.BarInsideRowBand | src/components/EldLog.tsx:36 | each row's bar, 18 high, lies strictly between the lines above and below its row; y is one of 28, 54, 80, 106 |
| EldLog.LayoutSucceedsIffKnown | src/components/EldLog.tsx:33-38 | a day lays out exactly when all of its statuses are known |
| EldLog.LayoutShape | src/components/EldLog.tsx:30-39 | when every status is known: one bar per segment, labelled with its note, x in [80, 848], width at least 2, y and colour from the segment's row, y in {28, 54, 80, 106} |
| EldLog.LayoutOrdersBars | src/components/EldLog.tsx:34 | when every status is known, segments sorted by start give bars sorted by x |
| EldLog.LayoutEmptyDay | src/components/EldLog.tsx:30 | a day without segments yields no bars and no error |
| EldLog.ScenarioMorningDrive | src/components/EldLog.tsx:34-38 | driving from midnight to 08:00 gives x = 80, width = 256, y = 80 and the driving colour |
| EldLog.ScenarioBeforeDay | src/components/EldLog.tsx:34-37 | a segment that ends before midnight gives a width-2 bar at x = 80 |
| EldLog.ScenarioPastMidnight | src/components/EldLog.tsx:34-37 | a segment from 20:00 to 02:00 the next day is cut at x = 848 (x = 720, width = 128) |
| EldLog.ScenarioUnknownStatus | src/components/EldLog.tsx:33-38 | a status "XX" in second place fails the day with UnknownStatus(1, "XX") |
| EldGrid.HourLines | src/components/EldLog.tsx:46-56 | 25 vertical lines spanning all rows, the first at x = 80, each one hour width right of the previous one |
| EldGrid.Separators | src/components/EldLog.tsx:58-70 | one horizontal line per catalogue row, at that row's lower edge, from the day's left edge to its right edge |
| EldGrid.RowCaptions | src/components/EldLog.tsx:58-60 | one caption per catalogue row, carrying that row's label, left of the grid, with its baseline inside the row |
| EldGrid.Ticks | src/components/EldLog.tsx:72-74 | one tick per listed hour, in order, 6 pixels left of that hour's gridline and above the grid |
| EldGrid.CanvasSize | src/components/EldLog.tsx:16-21 | the canvas is 856 by 136 and the rows end at y = 128 |
| EldGrid.HourLinesShape | src/components/EldLog.tsx:46-56 | 25 vertical lines at x = 80 + 32h for h = 0..24, one hour apart, each spanning all rows; the first is the day's left edge and the last its right edge |
| EldGrid.SeparatorsShape | src/components/EldLog.tsx:58-70 | four horizontal separators at y = 24 + 26(i + 1), running from the first hour line to the last; the last one closes the grid's bottom |
| EldGrid.RowCaptionsShape | src/components/EldLog.tsx:58-60 | row captions Off, Sleeper, Driving, On duty in catalogue order, each baseline inside its row |
| EldGrid.TickHoursExact | src/components/EldLog.tsx:72-74 | an hour has a tick exactly when it is a multiple of 4 in [0, 24] |
| EldGrid.TicksOnHourLines | src/components/EldLog.tsx:72-74 | seven ticks; tick k names hour 4k, is drawn 6 pixels left of that hour's line, and sits above the grid |
| EldGrid.GridOnCanvas | src/components/EldLog.tsx:44-70 | every gridline and separator lies inside the canvas |
| EldGrid.BarStartsOnHourLine | src/components/EldLog.tsx:34-51 | a known segment starting h whole hours after midnight starts its bar exactly on hour line h |
| EldGrid.BarsOnCanvas | src/components/EldLog.tsx:76-78 | when every status is known, every bar of the day lies inside the canvas and inside the rows |
| TripMap.ConvertCoordinates | src/App.tsx:24 | same length as the input; output i is (latitude, longitude) of input position i |
| TripMap.PolylinePositions | src/App.tsx:20-25 | empty without a plan, without a geometry or for a geometry other than a LineString; otherwise one position per coordinate with longitude and latitude swapped |
| TripMap.PolylineEmptyUnlessLineString | src/App.tsx:21-22 | no plan, no geometry, or a geometry other than a LineString gives an empty polyline |
| TripMap.PolylineSwapsPairs | src/App.tsx:20-25 | a LineString gives one position per coordinate, with longitude and latitude swapped |
| TripMap.ConvertAfterToPositions | src/App.tsx:24 | converting Leaflet positions to GeoJSON and back returns them unchanged |
| TripMap.ToPositionsAfterConvert | src/App.tsx:24 | converting GeoJSON positions to Leaflet and back returns them unchanged exactly when every position is 2-D |
| TripMap.Center | src/App.tsx:47 | the first position when there is one, otherwise (37.773972, -122.431297) |
| TripMap.CenterOfRoute | src/App.tsx:47 | the centre is the first route coordinate, swapped, when the route has one; otherwise it is (37.773972, -122.431297) |
| TripMap.StopColor | src/App.tsx:77 | pickup, dropoff, fuel and break each get their own colour, each colour only for that kind; every other kind (rest) gets #ab47bc |
| TripMap.MarkersFrom | src/App.tsx:74-77 | markers come in stop order; each stands for a stop with both coordinates, centred on them, coloured by its kind; every such stop gets one |
| TripMap.Markers | src/App.tsx:74-77 | no markers without a plan; otherwise exactly the stops with both coordinates are marked, in stop order, each coloured by its kind |
| TripMap.MarkerIffCoordinates | src/App.tsx:75 | a stop has a marker exactly when its latitude and longitude are both present |
| TripMap.MarkersForLocatedStops | src/App.tsx:74-76 | when every stop has coordinates, there is one marker per stop, in stop order |
| TripPlanner.RequestFor | src/App.tsx:33-38 | the request carries the form's three locations and cycle hours unchanged and no start time |
| TripPlanner.ErrorText | src/App.tsx:41 | the failure's own message when it is present and non-empty, otherwise "Failed"; never empty |
| TripPlanner.App.constructor | src/App.tsx:10-18 | empty form, not loading, no error, no result |
| TripPlanner.App.SetForm | src/App.tsx:100 | replaces the form and nothing else |
| TripPlanner.App.BeginSubmit | src/App.tsx:29-31 | loading is on, error and result are cleared |
| TripPlanner.App.FinishSubmit | src/App.tsx:39-44 | loading is off; a plan is stored as the result with no error; a failure stores its error text with no result, so the error banner shows |
| TripPlanner.App.Submit | src/App.tsx:27-45 | the request is built from the unchanged form; afterwards loading is off and exactly one of result and error is set, according to the service's outcome |

## Left out

- Calling the planning service (`planTrip`, a `fetch` over HTTP) is I/O. Its outcome is a parameter of `TripPlanner.App.Submit`, and its shapes are the datatypes in `Api`.
- Waiting for the service is not modelled. Only the order of the state changes around the call is kept.
- Parsing the ISO-8601 segment times and building the local midnight from the day's date depend on the JavaScript `Date` library and the time zone. Both arrive as integer milliseconds. So a malformed timestamp, which makes the source's positions NaN, is not modelled.
- Floating-point rounding of the hour division and of the pixel arithmetic is not modelled. Everything is exact `real` arithmetic.
- SVG/JSX drawing, stroke colours and font sizes are not modelled. The same goes for the Leaflet map, tile layer, popups, `FitBounds` and `toLocaleString` formatting, which are rendering or foreign library calls.
- The global Leaflet icon patch (`src/leaflet-fix.ts`) is a side effect on a foreign library.
- The labelled input component (`src/components/LabeledInput.tsx`) only presents an input.
- The route's turn-by-turn `steps` are never read by the modelled code, so they are not in `Api.Route`.
- `Number(form.current_cycle_hours_used)` is the identity on a value that is already a number, so `TripPlanner.RequestFor` copies the field.
