# PinMap: a verified model of the map pane and its Drupal behaviour

PinMap shows a set of location markers on a Google map inside a Drupal
page. Visitors search by address or postal code. The map is then
re-centred, and the markers inside a search circle around the found place
are selected. This project models the decision logic of the two scripts
and proves properties of that model:

- **pinmap.js** (module `PinMap`, file `pinmap.dfy`). A `Pane` class holds
  the state that persists between calls:
  - the loaded markers;
  - the search circle's radius and centre;
  - the map's centre and zoom;
  - the place marker;
  - `markersList`.

  `SetMapCenter` models `setMapCenter`:
  - it resets the out-parameter `data` (a `SearchData` object);
  - it counts the effective markers;
  - it moves the circle and the place marker to a located place;
  - it chooses the view;
  - when more than one marker is on the map, it selects markers. The
    selection keeps the ones inside the circle's bounds, in order, and
    falls back to all of them when none is inside.

  `SetMarkerPlace` and `CreateInfoWindow` model the marker helpers. The
  constructor models the pane's set-up: the circle radius in metres, the
  first centring, and the placing of every data marker with its info
  window.
- **files/ctools--pin-map--google-map--content-type--default.js** (module
  `PinMapBehaviour`, file `behaviour.dfy`). A `Behaviour` class covers:
  - collecting the pins' postal codes;
  - the submit handler's three outcomes: ignore, query or "not found";
  - the `apiQuery` status gate;
  - the response callback;
  - the info-window HTML of every pin.

Shared pieces:

- `Text` holds JavaScript's `join` and `split`, a literal substitution of
  the first occurrence of a placeholder, and an ASCII `toLowerCase`.
- `Markup` holds the `<br>`-separated info-window lines and `Drupal.t`
  with one placeholder.
- `Geo` holds the coordinate type.
- `Wrappers` holds `Option` and `Result`.

The mapping library's geometry is not modelled. Coordinates are opaque
pairs, and `LatLngBounds.contains` applied to the circle's bounds is the
pane's function-valued `contains` field. So the branching, the
order-preserving filter, the fallback and the constants are exact:

- world view centre (39, 34) at zoom 2;
- single-marker zoom 11;
- radius × 1000.

Behaviour of the code worth noting:

- With a located place and no data markers, the centre moves to the place
  and the zoom is left as it was. It is not set to the world zoom.
- The selection filters against the circle wherever the circle was last
  centred, even when the current call has no place. The circle's centre
  persists between calls, so the pane does have history.
- A place without a location is an error only when exactly one data
  marker is loaded. The code dereferences the missing geometry at
  pinmap.js:282. With no markers such a place yields the world view, and
  with several markers it is ignored.
- The multi-marker view is always the world view. The fit-bounds call is
  commented out and is not a configurable option.

## Model

| member | source | states |
|---|---|---|
| `PinMap.RadiusMeters` | pinmap.js:103 | the circle radius in metres divided by 1000 is the configured radius in kilometres |
| `PinMap.NextView` | pinmap.js:234-297 | the view depends on the data markers and the place. Zero effective markers, or more than one, give centre (39, 34) at zoom 2. One data marker and no place give that marker's coordinates at zoom 11. No data markers and a located place give the place's location with the zoom unchanged. The error occurs exactly when there is one data marker and a place without a location |
| `PinMap.Select` | pinmap.js:243-270 | `found` holds exactly when some marker lies inside the bounds. If so, `nodes` are the ids of the inside markers. Otherwise they are the ids of all markers |
| `PinMap.SelectInRegion` | pinmap.js:251-270 | the two passes over the markers give the same `found` and `nodes` as the selection: the inside ids if any marker is inside, all ids otherwise |
| `PinMap.InsideEmpty` | pinmap.js:264 | the inside list is empty exactly when no marker lies inside the bounds |
| `PinMap.InsideMembers` | pinmap.js:258-261 | a marker is in the inside list exactly when it is one of the markers and lies inside the bounds |
| `PinMap.InsideCount` | pinmap.js:251-262 | a marker inside the bounds occurs in the inside list as often as among the markers. A marker outside the bounds does not occur at all |
| `PinMap.InsideIsSubsequence` | pinmap.js:251-262 | the inside list is a subsequence of the markers, so the original order is kept |
| `PinMap.NoBoundsSelectsAll` | pinmap.js:237-264 | while the circle has no centre there are no bounds, nothing is found and every marker's id is selected |
| `PinMap.CircleKeepsLastCentre` | pinmap.js:209-237 | after a located search, a later call without a location filters against the bounds centred at the searched location |
| `PinMap.PositionOfPlaces` | pinmap.js:121-136 | a data record is placed at its coordinates. A located place is placed at its location |
| `PinMap.InfoLines` | pinmap.js:165-175 | the lines are: the bold name, only if the name is non-empty; then the address line "thoroughfare, postal code, locality, country"; then the phone line, only if a phone number is present. So there are 1 to 3 lines |
| `PinMap.InfoWindowLinesReadBack` | pinmap.js:165-177 | if the record's texts contain no markup, splitting the content on `<br>` gives back exactly its lines |
| `PinMap.Pane.constructor` | pinmap.js:95-112 | radius = configured kilometres × 1000. The circle has no centre. The first centring (no place) is applied. The place marker is fresh and unplaced. `markersList` holds one new marker per record, in order, each placed at its coordinates with its info-window content |
| `PinMap.Pane.PlaceMarkers` | pinmap.js:330-360 | one fresh marker per record, in order, attached to the map at the record's coordinates and carrying that record's info-window content |
| `PinMap.Pane.SetMarkerPlace` | pinmap.js:135-143 | the marker's position comes from the place's own geometry, else from its `coords`. The marker is on the map, and `markersList` grows by exactly this marker |
| `PinMap.Pane.CreateInfoWindow` | pinmap.js:153-180 | the content is the info-window lines joined with `<br>` |
| `PinMap.Pane.SetMapCenter` | pinmap.js:187-300 | covered in detail below the table |
| `Markup.PhoneLineText` | pinmap.js:174 | the translated phone line is "Phone: " followed by the number |
| `Text.SplitJoin` | pinmap.js:177 | splitting a `<br>`-joined text on the separator returns the parts, when no part can be mistaken for the separator |
| `Text.LowerIsOk` | files/ctools--pin-map--google-map--content-type--default.js:14 | a status lower-cases to "ok" exactly when it is one of "ok", "oK", "Ok", "OK" |
| `PinMapBehaviour.CollectPostalCodes` | files/ctools--pin-map--google-map--content-type--default.js:20-23 | the keys are exactly the pins' postal codes, and each key maps to itself |
| `PinMapBehaviour.SearchAddress` | files/ctools--pin-map--google-map--content-type--default.js:60 | the query is the postal code, ", ", then the region's formatted address |
| `PinMapBehaviour.SubmitDecision` | files/ctools--pin-map--google-map--content-type--default.js:56-68 | empty input is ignored, and only empty input is. A non-empty known code gives a query for "code, region address". A non-empty unknown code gives "not found" |
| `PinMapBehaviour.KnownCodeIsQueried` | files/ctools--pin-map--google-map--content-type--default.js:21-62 | submitting any pin's non-empty postal code issues the query for it within the region |
| `PinMapBehaviour.ApiQuery` | files/ctools--pin-map--google-map--content-type--default.js:12-18 | the callback gets the response exactly when it has a status spelled "ok" in any letter case. Any other response is dropped |
| `PinMapBehaviour.PinInfoHtml` | files/ctools--pin-map--google-map--content-type--default.js:74-86 | the content is four `<br>`-separated fields, as the script builds them: bold name, address, phone line, then the information line as written (empty when there is no information) |
| `PinMapBehaviour.PinInfoLinesReadBack` | files/ctools--pin-map--google-map--content-type--default.js:74-86 | if the pin's name, address and phone number contain no markup, splitting the content on `<br>` gives back those four fields. The last one is "Information: @info" or empty |
| `PinMapBehaviour.PinInfoIntendedLinesReadBack` | files/ctools--pin-map--google-map--content-type--default.js:74-86 | with the corrected information line, and no markup in any of the pin's texts, splitting the content on `<br>` gives back its four fields |
| `PinMapBehaviour.PinLinesVersusIntended` | files/ctools--pin-map--google-map--content-type--default.js:74-86 | the content as written and the corrected content share the name, address and phone lines. The last line is "Information: @info" as written and "Information: " followed by the information when corrected, both empty without information. The two contents are equal exactly when the information is empty or is "@info" |
| `PinMapBehaviour.InformationLinesAgree` | files/ctools--pin-map--google-map--content-type--default.js:84-86 | the written and corrected information lines are equal exactly when the information is "@info" |
| `PinMapBehaviour.InformationLineDropsValue` | files/ctools--pin-map--google-map--content-type--default.js:84-86 | as written, the information line is "Information: @info" whatever the information |
| `PinMapBehaviour.InformationLineText` | files/ctools--pin-map--google-map--content-type--default.js:84-86 | corrected, the information line is "Information: " followed by the information |
| `PinMapBehaviour.Behaviour.constructor` | files/ctools--pin-map--google-map--content-type--default.js:20-41 | the postal-code map has exactly the pins' codes as keys, each mapped to itself. The map is centred on the region. No effects yet. Each pin has its info-window content as the script builds it, whose information line is "Information: @info" |
| `PinMapBehaviour.Behaviour.ResetCenter` | files/ctools--pin-map--google-map--content-type--default.js:37-41 | the map is centred on the region's location |
| `PinMapBehaviour.Behaviour.Submit` | files/ctools--pin-map--google-map--content-type--default.js:53-69 | the effects grow by exactly the decision's effects: nothing, one query, or one "not found" message |
| `PinMapBehaviour.Behaviour.Respond` | files/ctools--pin-map--google-map--content-type--default.js:13-62 | a response the status gate drops changes nothing. An accepted response with results centres the map on the first result. An accepted response without results throws and changes nothing |

What the `PinMap.Pane.SetMapCenter` contract states:

- `data.nodes` and `data.found` are empty and false when at most one
  marker is on the map.
- Otherwise they are the selection against the circle's current bounds.
- The circle moves only to a located place.
- The view, or the error, is the one `NextView` gives. On an error the
  view is unchanged.
- `markersList` grows by the place marker exactly when the place has a
  location. In that case the place marker is placed there with the
  search icon; otherwise it is unchanged.

## Findings

| source | as written | input that shows it | evidently intended | confidence | as-written member | corrected member |
|---|---|---|---|---|---|---|
| files/ctools--pin-map--google-map--content-type--default.js:85 | the information is passed under the placeholder `@phone`, but the template's placeholder is `@info`, so the line always reads "Information: @info" | any pin whose `data.information` is non-empty, e.g. "Open Mondays" | the information replaces `@info`: "Information: Open Mondays" | high (not executed) | `PinMapBehaviour.InformationLineAsWritten` | `PinMapBehaviour.InformationLine` |

`PinMapBehaviour.InformationLineDropsValue` proves the as-written
behaviour. `PinMapBehaviour.InformationLineText` proves the corrected
one. `PinLines`, and so `PinInfoHtml` and the `Behaviour` constructor,
use the line as written, because that is what the page shows.
`PinLinesIntended` uses the corrected line. `PinInfoIntendedLinesReadBack`
proves that its content reads back. `PinLinesVersusIntended` compares the
two contents.

## Left out

- The jQuery DOM lookups, CSS heights, and the not-found message's
  animation, positioning and click-to-hide are user interface.
- Loading the marker files through `$.getJSON`/`$.when` is I/O. The pane
  receives the markers already loaded.
- The event wiring is left out: the geocoder button, the form-submit
  trigger of `place_changed`, the autocomplete and resize listeners, and
  the `pinMapPlaceChanged` payload. `SetMapCenter` takes the place they
  would pass, or none for a resize.
- The Google Maps objects are foreign calls: `Map`, `Marker`, `Circle`,
  `LatLngBounds`, `InfoWindow`, icons and animations. The SVG path of the
  place icon is reduced to a `searchIcon` flag. A marker's attachment to
  the map is reduced to an `onMap` flag.
- The bounds accumulation (`bounds.extend`) is not modelled. Its result is
  never applied, because the fit-bounds call is commented out.
- `MarkerClusterer` is a foreign library.
- The per-pane settings indexing is wiring. The pane receives its own
  markers, radius and containment test.
- `latLng` (`new google.maps.LatLng(data.coords)`) is modelled as the
  record's coordinates themselves, inside `AsPlace` and `Position`.
- `Drupal.t` is modelled as placeholder substitution only, as if no
  translation existed. The translation lookup and `checkPlain` escaping
  are not modelled. Substitution replaces the first occurrence of the
  placeholder, and each template here has only one.
- `Drupal.t` substitution: `$` sequences in substituted values are not
  modelled. `String.prototype.replace` expands `$$`, `$&`, `` $` `` and
  `$'` in the replacement. The model inserts the value literally, so a
  phone number containing such a sequence is shown differently.
- `toLowerCase` is modelled for ASCII letters only. Non-ASCII case
  mappings are not modelled; for example, the Kelvin sign lower-cases to
  "k".
- `encodeURI` and the `settings.apiUrl` prefix of the request URL are not
  modelled. A query is recorded by the address passed to `apiQuery`.
- The request is asynchronous: `Respond` models the callback as a
  separate call.
- The behaviour's initial zoom (`parseInt(settings.map.zoom, 10)`) is not
  modelled. Nor are the pins' `marker.setPlace`, icons and animations,
  which are foreign calls.
- The behaviour models one map container. With several containers every
  map binds a submit handler on every form, so one submission issues one
  query per map.
- JavaScript's loose values are not modelled. An absent text field is
  the empty string, so a missing address part does not print
  "undefined". A `geometry` property that is present but `null` is not
  modelled. A place whose geometry lacks a location counts as having no
  location.
- Setting the map centre to an undefined location at pinmap.js:282 is
  taken to throw, as a missing geometry does. Both are the error
  `InvalidSearchResult`.
- PinMap.RadiusMeters: the radius is an exact real. JavaScript multiplies
  IEEE doubles, so `1.1 * 1000` gives 1100.0000000000002 there; that
  rounding is not modelled.
- `setMarkerPlace` returning its marker for chaining is not modelled.
- files/ctools--pin-map--google-map--content-type--default.tpl.php is
  template markup with no logic.
