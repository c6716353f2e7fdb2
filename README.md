# Nearest evacuation destination: a Dafny model

This project models the selection logic of a browser map page that guides a
user to an evacuation destination (`map_eva.js`). The page loads two JSON
feeds. The primary feed holds evacuation buildings. The secondary feed holds
horizontal-evacuation points, and those are normalised and appended after the
buildings. When the user picks a start point, the page keeps the destinations
within 700 m in a straight line. If none is that close, it says so and clears
the route. Otherwise it asks a walking-distance service about the nearby
destinations and takes the first one with the smallest walking distance. That
destination becomes the latest destination and its route is requested. A
separate button hands the start point and the latest destination to the
external map application, provided both are set.

Modules:

- `Destinations` (`destinations.dfy`) holds the destination record and its
  location. Each coordinate is a JavaScript value: a number, `null`, or
  `undefined` for an absent field. It also holds the normalisation of a
  secondary-feed entry. A nested `location` coordinate wins unless it is null
  or undefined, and the flat `lat`/`lng` field is the fallback (`?.` and
  `??`).
- `Selection` (`selection.dfy`) holds the radius prefilter as a pure
  function, its characterisation, and the leftmost-minimum scan as a method
  with a loop.
- `MapSession` (`session.dfy`) holds the page's global state as a class
  `Session`. Its fields are the destination list, the start marker position,
  the latest destination, the message area and the route display. Its
  methods are the feed loads, the start point, the prefilter step, the
  distance-service callback and the navigation hand-over.
- `Scenarios` (`scenarios.dfy`) holds client methods that run whole user
  actions. They are proved from the session's contracts.

The distance service is asynchronous in the source. Here, the step that
issues the query returns it as a `MatrixRequest`. The callback is the method
`OnDistanceMatrix`, which takes that request (the values the closure
captured) and the service's response. A callback for an older request can
therefore be applied after a newer start point, as in the source.

The model follows the code where its behaviour may be unexpected:

- A failed selection does not clear the last selection. It keeps its value
  (map_eva.js:193-195).
- A secondary entry with neither coordinate shape is not rejected. It is
  appended with an undefined coordinate. Its straight-line distance is then
  NaN, and `NaN <= 700` is false, so such a destination never passes the
  prefilter (`Selection.Nearby`).
- A `null` coordinate is different: the distance arithmetic converts it to
  0, so the destination is measured as if that coordinate were 0 and can
  pass the prefilter. `null` reaches a record from the primary feed directly,
  and from the secondary feed when the flat field is null
  (`undefined ?? null` is `null`).
- Coordinates are not range-checked anywhere in the code, so the model does
  not constrain latitude or longitude.

## Model

| member | source | states |
|---|---|---|
| Destinations.Normalise | map_eva.js:101-107 | The name is carried over. Each nested `location` coordinate is used when it is neither null nor undefined. Otherwise the flat field is used as it is, null or undefined included. |
| Destinations.NormaliseComplete | map_eva.js:104-105 | Both coordinates of a normalised location convert to numbers exactly when, for each one, the nested shape supplies a number or the flat field is not undefined. |
| Destinations.FlatAndNestedAgree | map_eva.js:101-107 | The flat and the nested shape of the same point normalise to the same destination, with that point as its location. |
| Destinations.NormaliseAll | map_eva.js:100-108 | One record per feed entry, in feed order, each the entry's normalisation. |
| Selection.Prefilter | map_eva.js:154-160 | The result is no longer than the input. A destination is in it exactly when it is among the candidates and lies within 700 m, boundary included. A null coordinate counts as 0, and a destination with an undefined coordinate is never in it. |
| Selection.NullLatitudeCountsAsZero | map_eva.js:145-148 | A destination whose latitude is null passes the radius test exactly when the point at latitude 0 with the same longitude would. |
| Selection.UndefinedNeverNearby | map_eva.js:145-159 | A destination with an undefined coordinate never passes the radius test. |
| Selection.PrefilterIsSubsequence | map_eva.js:154-160 | The kept candidates appear in their original relative order. |
| Selection.PrefilterCount | map_eva.js:154-160 | Every candidate within the radius is kept as often as it occurs. Every other candidate is kept zero times. |
| Selection.PrefilterUnique | map_eva.js:154-160 | Any ordered subsequence of the candidates with those counts is the prefilter's result. With the two lemmas above, this pins the result down exactly. |
| Selection.PrefilterAppend | map_eva.js:154-160 | Filtering the primary destinations followed by the appended points equals filtering each part and concatenating. |
| Selection.PrefilterEmpty | map_eva.js:154-162 | The result is empty exactly when no candidate is within the radius. |
| Selection.SelectClosest | map_eva.js:176-185 | For a non-empty distance list, the index is valid and its distance is at most every distance. Every earlier index holds a strictly greater distance, so ties go to the leftmost. `minDistance` is the distance at that index. |
| Selection.LeftmostMinimumUnique | map_eva.js:180-185 | A list has only one leftmost minimum, so the scan's answer is determined. |
| MapSession.Session.constructor | map_eva.js:18-20 | The session starts with no destinations, no start marker and no latest destination. |
| MapSession.Session.LoadDestinations | map_eva.js:84-94 | A loaded primary feed replaces the destination list. A failed load only shows the error. |
| MapSession.Session.LoadEvacPoints | map_eva.js:96-113 | A loaded secondary feed appends the normalised entries in order after the existing destinations, which stay as they were. A failed load only shows the error. |
| MapSession.Session.FindClosestPoint | map_eva.js:154-173 | With an empty prefilter result, no query is issued, the message says nothing is within 700 m and the route display is cleared. Otherwise the query carries the origin and exactly the prefiltered candidates. The latest destination and the destination list are unchanged either way. |
| MapSession.Session.SetStartPoint | map_eva.js:131-139 | The start marker moves to the picked point, then the prefilter step runs from it. |
| MapSession.Session.OnDistanceMatrix | map_eva.js:174-196 | On a non-OK status, only the status is shown; the latest destination and the route display are unchanged. On OK, the selected index is the leftmost minimum of the walking distances. The latest destination is the candidate at that index, the message shows its name, metres and duration, and its route is requested. |
| MapSession.Session.LaunchGoogleMap | map_eva.js:218-229 | Without a start marker or a latest destination, it only asks the user to set both, and nothing is opened. With both, it hands over the start point and the latest destination's location, and the message is unchanged. |
| Scenarios.NearestShown | map_eva.js:96-196 | A single shelter from the flat-shaped secondary feed lies within the radius, with 650 m and "9 mins" reported. The shelter is shown and handed over for navigation. |
| Scenarios.NothingWithinRadius | map_eva.js:154-166 | When every destination is beyond the radius, no query is issued, the "nothing within 700 m" message is shown, the route is cleared and navigation is refused. |
| Scenarios.FailureKeepsEarlierDestination | map_eva.js:175-195 | After a successful selection, a failed query from a new start point shows the status and keeps the earlier destination. Navigation then goes from the new start point to that earlier destination. |

## Left out

- The haversine formula (map_eva.js:142-152) is floating-point trigonometry. The straight-line distance is a parameter `dist` of the prefilter, and no property of the formula (symmetry, zero distance to itself) is modelled.
- Map objects, markers, the GeoJSON overlay and the routing service (map_eva.js:53-82, 115-129, 199-211) are foreign calls. The route display records only that a route was requested or cleared. What the routing service returns, and its error message, are not modelled.
- The walking-distance service is an input. Its response is either OK with one element per queried location, or another status. Per-element statuses are not modelled; in the source, an element without a distance makes the callback throw.
- Fetching and parsing the feeds (map_eva.js:85-86, 97-98) are I/O, and each feed is given as loaded data or an error. An exception thrown part-way through a feed (a malformed entry) is not modelled. Such an exception would leave the entries pushed before it in place.
- Feed values that are not numbers (strings, objects) are not modelled. Coordinates are numbers, `null` or `undefined`.
- A primary entry without a `location` object is not modelled. In the source, that entry makes the marker loop throw (map_eva.js:90, 117) after the list has already been replaced (map_eva.js:88). The page then keeps the replaced list and also shows the feed error (map_eva.js:93), a combination `LoadDestinations` does not allow. A later prefilter over that entry throws as well.
- Telemetry, the local user id and the random id generator (map_eva.js:22-47) are network I/O, storage and randomness.
- Markers and the on-screen text (map_eva.js:49-51) are browser output. The message area is a field holding which message is shown, not the Japanese text.
- Geolocation (map_eva.js:231-257) is browser input. Its position reaches the model as the point given to `SetStartPoint`, and its error messages are not modelled.
- Building the navigation URL and opening a window (map_eva.js:213-216) need float-to-string formatting. `LaunchGoogleMap` returns the two points instead.
- The order in which the two feeds and the service callbacks complete is not modelled. Callers fix the order as primary feed, then secondary feed. If the primary feed arrived second in the source, it would discard the appended points (map_eva.js:88). A stale callback is representable, but no property about interleavings is stated.
