/**
 * The map pane of pinmap.js: data markers placed on a map, a movable marker
 * for the searched place, an invisible search circle, and `setMapCenter`,
 * which re-centres the map and selects the markers in the search region.
 *
 * Coordinates are opaque pairs; the geometry of the mapping library is the
 * pane's `contains` function, standing for `LatLngBounds.contains` applied
 * to the bounds of the search circle.
 */
module PinMap {
  import opened Wrappers
  import opened Text
  import opened Geo
  import opened Markup

  /** The application-defined identifier of a marker (`entity_id`). */
  type EntityId = string

  /**
   * One record of the marker data files. Text fields that are absent or
   * undefined in the data are the empty string (both are falsy).
   */
  datatype MarkerRecord = MarkerRecord(
    entityId: EntityId,
    coords: LatLng,
    organisationName: string,
    thoroughfare: string,
    postalCode: string,
    locality: string,
    country: string,
    phoneNumber: string)

  /** The `geometry` of a place; `location` may be missing. */
  datatype Geometry = Geometry(location: Option<LatLng>)

  /**
   * Whatever `setMarkerPlace` and `setMapCenter` receive as a place: a
   * geocoder or autocomplete result, which may carry its own `geometry`,
   * or a marker record, which carries `coords`.
   */
  datatype Place = Place(geometry: Option<Geometry>, coords: Option<LatLng>)

  /** A marker record seen as a place: no `geometry` of its own, only `coords`. */
  function AsPlace(m: MarkerRecord): Place
  {
    Place(None, Some(m.coords))
  }

  /** The bounds of the search circle: its centre and its radius in metres. */
  datatype Bounds = Bounds(center: LatLng, radius: real)

  /** The view of the map: centre and zoom, both unset on a fresh map. */
  datatype View = View(center: Option<LatLng>, zoom: Option<int>)

  /** `setMapCenter` throws when it centres on a place that has no location. */
  datatype CentreError = InvalidSearchResult

  /** The markers selected by a re-centring: `data.nodes` and `data.found`. */
  datatype Selection = Selection(nodes: seq<EntityId>, found: bool)

  /** The geographical centre of the Earth, used as the world view. */
  const EarthCentre := LatLng(39.0, 34.0)
  /** The zoom level of the world view. */
  const WorldZoom := 2
  /** The zoom level used to show a single marker. */
  const LocalZoom := 11

  /** The radius of the search circle in metres, from the configured kilometres. */
  function RadiusMeters(km: real): (m: real)
    ensures m / 1000.0 == km
  {
    km * 1000.0
  }

  /** The position `setMarkerPlace` gives a marker: the place's own geometry, else its `coords`. */
  function Position(place: Place): Option<LatLng>
  {
    if place.geometry.Some? then place.geometry.value.location else place.coords
  }

  /** The place is given, has a geometry, and the geometry has a location. */
  predicate HasLocation(place: Option<Place>)
  {
    place.Some? && place.value.geometry.Some? && place.value.geometry.value.location.Some?
  }

  function Location(place: Option<Place>): LatLng
    requires HasLocation(place)
  {
    place.value.geometry.value.location.value
  }

  /** The number of markers on the map: the data markers, plus the place marker when there is a location. */
  function EffectiveCount(markers: seq<MarkerRecord>, place: Option<Place>): nat
  {
    |markers| + if HasLocation(place) then 1 else 0
  }

  /** The centre of the search circle after a call: moved to the place's location, if any. */
  function CircleAfter(center: Option<LatLng>, place: Option<Place>): Option<LatLng>
  {
    if HasLocation(place) then Some(Location(place)) else center
  }

  /** The bounds of the search circle: none until the circle has a centre. */
  function QueryBounds(center: Option<LatLng>, radius: real): Option<Bounds>
  {
    if center.Some? then Some(Bounds(center.value, radius)) else None
  }

  /** There are search bounds and the point lies within them. */
  predicate InRegion(bounds: Option<Bounds>, contains: (Bounds, LatLng) -> bool, p: LatLng)
  {
    bounds.Some? && contains(bounds.value, p)
  }

  /** The markers inside the region, in their original order. */
  function Inside(ms: seq<MarkerRecord>, bounds: Option<Bounds>, contains: (Bounds, LatLng) -> bool): seq<MarkerRecord>
    decreases |ms|
  {
    if ms == [] then []
    else
      var last := ms[|ms| - 1];
      Inside(ms[..|ms| - 1], bounds, contains) + if InRegion(bounds, contains, last.coords) then [last] else []
  }

  /** The identifiers of the markers, in order. */
  function Ids(ms: seq<MarkerRecord>): (r: seq<EntityId>)
    ensures |r| == |ms|
  {
    seq(|ms|, i requires 0 <= i < |ms| => ms[i].entityId)
  }

  /** `xs` is `ys` with some elements deleted, the rest keeping their order. */
  predicate IsSubsequence<T(==)>(xs: seq<T>, ys: seq<T>)
    decreases |ys|
  {
    if xs == [] then true
    else if ys == [] then false
    else (xs[|xs| - 1] == ys[|ys| - 1] && IsSubsequence(xs[..|xs| - 1], ys[..|ys| - 1]))
         || IsSubsequence(xs, ys[..|ys| - 1])
  }

  /** Some marker lies inside the region. */
  predicate AnyInside(ms: seq<MarkerRecord>, bounds: Option<Bounds>, contains: (Bounds, LatLng) -> bool)
  {
    exists i :: 0 <= i < |ms| && InRegion(bounds, contains, ms[i].coords)
  }

  /**
   * The selection of a re-centring with more than one marker: the markers
   * inside the region if there are any, all markers otherwise.
   */
  function Select(ms: seq<MarkerRecord>, bounds: Option<Bounds>, contains: (Bounds, LatLng) -> bool): (s: Selection)
    ensures s.found <==> AnyInside(ms, bounds, contains)
    ensures s.found ==> s.nodes == Ids(Inside(ms, bounds, contains))
    ensures !s.found ==> s.nodes == Ids(ms)
  {
    var inside := Inside(ms, bounds, contains);
    InsideEmpty(ms, bounds, contains);
    Selection(Ids(if |inside| > 0 then inside else ms), |inside| > 0)
  }

  /**
   * The view after a re-centring, or the error `setMapCenter` throws.
   * `v` is the view before the call.
   */
  function NextView(markers: seq<MarkerRecord>, place: Option<Place>, v: View): (r: Result<View, CentreError>)
    ensures EffectiveCount(markers, place) != 1 ==> r == Ok(View(Some(EarthCentre), Some(WorldZoom)))
    ensures |markers| == 1 && place.None? ==> r == Ok(View(Some(markers[0].coords), Some(LocalZoom)))
    ensures |markers| == 0 && HasLocation(place) ==> r == Ok(View(Some(Location(place)), v.zoom))
    ensures r.Err? <==> |markers| == 1 && place.Some? && !HasLocation(place)
  {
    var markersLength := EffectiveCount(markers, place);
    if markersLength > 1 then
      Ok(View(Some(EarthCentre), Some(WorldZoom)))
    else if markersLength == 1 then
      if place.Some? then
        if place.value.geometry.Some? && place.value.geometry.value.location.Some? then
          Ok(View(place.value.geometry.value.location, v.zoom))
        else
          Err(InvalidSearchResult)
      else
        Ok(View(Some(markers[0].coords), Some(LocalZoom)))
    else
      Ok(View(Some(EarthCentre), Some(WorldZoom)))
  }

  /** The mandatory address line of an info window. */
  function AddressLine(info: MarkerRecord): string
  {
    info.thoroughfare + ", " + info.postalCode + ", " + info.locality + ", " + info.country
  }

  /** The lines of an info window: optional name, address, optional phone. */
  function InfoLines(info: MarkerRecord): (lines: seq<string>)
    ensures |lines| == 1 + (if info.organisationName != "" then 1 else 0) + (if info.phoneNumber != "" then 1 else 0)
    ensures info.organisationName != "" ==> lines[0] == Strong(info.organisationName)
    ensures lines[if info.organisationName != "" then 1 else 0] == AddressLine(info)
    ensures info.phoneNumber != "" ==> lines[|lines| - 1] == PhoneLine(info.phoneNumber)
  {
    (if info.organisationName != "" then [Strong(info.organisationName)] else [])
    + [AddressLine(info)]
    + (if info.phoneNumber != "" then [PhoneLine(info.phoneNumber)] else [])
  }

  // ---------------------------------------------------------------------
  // Properties of the selection

  /** The region holds no marker exactly when the inside list is empty. */
  lemma {:induction false} InsideEmpty(ms: seq<MarkerRecord>, bounds: Option<Bounds>, contains: (Bounds, LatLng) -> bool)
    ensures Inside(ms, bounds, contains) == [] <==> !AnyInside(ms, bounds, contains)
    decreases |ms|
  {
    if ms != [] {
      var init := ms[..|ms| - 1];
      InsideEmpty(init, bounds, contains);
      if AnyInside(init, bounds, contains) {
        var i :| 0 <= i < |init| && InRegion(bounds, contains, init[i].coords);
        assert ms[i] == init[i];
      }
      if AnyInside(ms, bounds, contains) && !InRegion(bounds, contains, ms[|ms| - 1].coords) {
        var i :| 0 <= i < |ms| && InRegion(bounds, contains, ms[i].coords);
        assert init[i] == ms[i];
      }
    }
  }

  /** A marker is in the inside list exactly when it is a marker lying inside the region. */
  lemma {:induction false} InsideMembers(ms: seq<MarkerRecord>, bounds: Option<Bounds>, contains: (Bounds, LatLng) -> bool, m: MarkerRecord)
    ensures m in Inside(ms, bounds, contains) <==> m in ms && InRegion(bounds, contains, m.coords)
    decreases |ms|
  {
    if ms != [] {
      var init := ms[..|ms| - 1];
      InsideMembers(init, bounds, contains, m);
      assert ms == init + [ms[|ms| - 1]];
    }
  }

  /** Every marker inside the region is kept as often as it occurs; every other marker is dropped. */
  lemma {:induction false} InsideCount(ms: seq<MarkerRecord>, bounds: Option<Bounds>, contains: (Bounds, LatLng) -> bool, m: MarkerRecord)
    ensures multiset(Inside(ms, bounds, contains))[m] == if InRegion(bounds, contains, m.coords) then multiset(ms)[m] else 0
    decreases |ms|
  {
    if ms != [] {
      var init, last := ms[..|ms| - 1], ms[|ms| - 1];
      InsideCount(init, bounds, contains, m);
      assert ms == init + [last];
    }
  }

  /** The inside list keeps the original order of the markers. */
  lemma {:induction false} InsideIsSubsequence(ms: seq<MarkerRecord>, bounds: Option<Bounds>, contains: (Bounds, LatLng) -> bool)
    ensures IsSubsequence(Inside(ms, bounds, contains), ms)
    decreases |ms|
  {
    if ms != [] {
      var init := ms[..|ms| - 1];
      var last := ms[|ms| - 1];
      var rest := Inside(init, bounds, contains);
      InsideIsSubsequence(init, bounds, contains);
      if InRegion(bounds, contains, last.coords) {
        assert (rest + [last])[..|rest|] == rest;
      } else {
        assert Inside(ms, bounds, contains) == rest;
      }
    }
  }

  /** Without search bounds nothing is found and every marker is selected. */
  lemma NoBoundsSelectsAll(ms: seq<MarkerRecord>, contains: (Bounds, LatLng) -> bool)
    ensures Select(ms, None, contains) == Selection(Ids(ms), false)
  {
  }

  /**
   * Once a search has centred the circle, later calls without a place
   * filter against that centre.
   */
  lemma CircleKeepsLastCentre(markers: seq<MarkerRecord>, c0: Option<LatLng>, radius: real,
                              contains: (Bounds, LatLng) -> bool, searched: Option<Place>, later: Option<Place>)
    requires HasLocation(searched) && !HasLocation(later)
    ensures QueryBounds(CircleAfter(CircleAfter(c0, searched), later), radius) == Some(Bounds(Location(searched), radius))
  {
  }

  /** The position of a data marker is its coordinates; that of a located place is its location. */
  lemma PositionOfPlaces(m: MarkerRecord, place: Option<Place>)
    ensures Position(AsPlace(m)) == Some(m.coords)
    ensures HasLocation(place) ==> Position(place.value) == Some(Location(place))
  {
  }

  // ---------------------------------------------------------------------
  // Properties of the info window

  /**
   * When the record's fields contain no markup, splitting the info-window
   * content on "<br>" gives back exactly its lines.
   */
  lemma InfoWindowLinesReadBack(info: MarkerRecord)
    requires Plain(info.organisationName) && Plain(info.thoroughfare) && Plain(info.postalCode)
    requires Plain(info.locality) && Plain(info.country) && Plain(info.phoneNumber)
    ensures Split(Join(InfoLines(info), Br), Br) == InfoLines(info)
  {
    var lines := InfoLines(info);
    SafeLines(info.organisationName, info.phoneNumber);
    assert Plain(AddressLine(info));
    forall k | 0 <= k < |lines|
      ensures Delimits(lines[k], Br)
    {
      NoBreakTagDelimits(lines[k]);
    }
    SplitJoin(lines, Br);
  }

  /**
   * The two passes of `setMapCenter` over the markers: collect every
   * marker and those inside the region, then list the identifiers of the
   * inside ones if there are any, of all of them otherwise.
   */
  method SelectInRegion(markers: seq<MarkerRecord>, queryBounds: Option<Bounds>, contains: (Bounds, LatLng) -> bool)
    returns (nodes: seq<EntityId>, found: bool)
    ensures found <==> AnyInside(markers, queryBounds, contains)
    ensures nodes == Ids(if found then Inside(markers, queryBounds, contains) else markers)
  {
    var inside: seq<MarkerRecord> := [];
    var all: seq<MarkerRecord> := [];
    var i := 0;
    while i < |markers|
      invariant 0 <= i <= |markers|
      invariant all == markers[..i]
      invariant inside == Inside(markers[..i], queryBounds, contains)
    {
      assert markers[..i + 1][..i] == markers[..i];
      all := all + [markers[i]];
      if InRegion(queryBounds, contains, markers[i].coords) {
        inside := inside + [markers[i]];
      }
      i := i + 1;
    }
    assert markers[..|markers|] == markers;
    InsideEmpty(markers, queryBounds, contains);
    found := |inside| > 0;
    var chosen := if found then inside else all;
    nodes := [];
    var j := 0;
    while j < |chosen|
      invariant 0 <= j <= |chosen|
      invariant nodes == Ids(chosen[..j])
    {
      nodes := nodes + [chosen[j].entityId];
      j := j + 1;
    }
    assert chosen[..|chosen|] == chosen;
  }

  // ---------------------------------------------------------------------
  // The pane

  /** A marker drawn by the mapping library. */
  class MapMarker {
    var position: Option<LatLng>
    var onMap: bool
    /** Whether the distinguishing icon of the searched place has been set. */
    var searchIcon: bool
    /** The content of the info window opened by a click on the marker. */
    var infoContent: Option<string>

    constructor ()
      ensures position == None && !onMap && !searchIcon && infoContent == None
    {
      position := None;
      onMap := false;
      searchIcon := false;
      infoContent := None;
    }
  }

  /** The object `setMapCenter` fills with the selected markers. */
  class SearchData {
    var nodes: seq<EntityId>
    var found: bool

    constructor ()
      ensures nodes == [] && !found
    {
      nodes := [];
      found := false;
    }
  }

  /** One map pane with its markers, search circle and place marker. */
  class Pane {
    const markers: seq<MarkerRecord>
    /** The radius of the search circle, in metres. */
    const radius: real
    /** `LatLngBounds.contains` for the bounds of the search circle. */
    const contains: (Bounds, LatLng) -> bool
    /** The movable marker of the searched place. */
    const placeMarker: MapMarker
    var circleCenter: Option<LatLng>
    var mapCenter: Option<LatLng>
    var mapZoom: Option<int>
    /** Every marker placed so far, the place marker once per located search. */
    var markersList: seq<MapMarker>

    /**
     * Sets the pane up with its loaded markers: centres the map once with
     * no place, then places every data marker with its info window.
     */
    constructor (markers: seq<MarkerRecord>, radiusKm: real, contains: (Bounds, LatLng) -> bool)
      ensures this.markers == markers && this.contains == contains
      ensures radius == RadiusMeters(radiusKm)
      ensures circleCenter == None
      ensures NextView(markers, None, View(None, None)) == Ok(View(mapCenter, mapZoom))
      ensures fresh(placeMarker) && placeMarker.position == None && !placeMarker.onMap
      ensures |markersList| == |markers|
      ensures forall i :: 0 <= i < |markers| ==>
                markersList[i] != placeMarker && markersList[i].onMap
                && markersList[i].position == Some(markers[i].coords)
                && markersList[i].infoContent == Some(Join(InfoLines(markers[i]), Br))
    {
      this.markers := markers;
      this.radius := RadiusMeters(radiusKm);
      this.contains := contains;
      this.placeMarker := new MapMarker();
      circleCenter := None;
      mapCenter := None;
      mapZoom := None;
      markersList := [];
      new;
      var data := new SearchData();
      var r := SetMapCenter(None, data);
      PlaceMarkers();
    }

    /** Places every data marker on the map, each with its info window. */
    method PlaceMarkers()
      requires markersList == []
      modifies this`markersList
      ensures |markersList| == |markers|
      ensures forall i :: 0 <= i < |markers| ==>
                fresh(markersList[i]) && markersList[i].onMap
                && markersList[i].position == Some(markers[i].coords)
                && markersList[i].infoContent == Some(Join(InfoLines(markers[i]), Br))
    {
      var i := 0;
      while i < |markers|
        invariant 0 <= i <= |markers| && |markersList| == i
        invariant forall j :: 0 <= j < i ==>
                    fresh(markersList[j]) && markersList[j].onMap
                    && markersList[j].position == Some(markers[j].coords)
                    && markersList[j].infoContent == Some(Join(InfoLines(markers[j]), Br))
      {
        var content := CreateInfoWindow(markers[i]);
        var marker := new MapMarker();
        SetMarkerPlace(marker, AsPlace(markers[i]));
        marker.infoContent := Some(content);
        i := i + 1;
      }
    }

    /** `setMarkerPlace`: positions the marker, attaches it to the map and records it. */
    method SetMarkerPlace(marker: MapMarker, place: Place)
      modifies this`markersList, marker`position, marker`onMap
      ensures marker.position == Position(place) && marker.onMap
      ensures markersList == old(markersList) + [marker]
    {
      marker.position := Position(place);
      marker.onMap := true;
      markersList := markersList + [marker];
    }

    /** `createInfoWindow`: the content of a data marker's info window. */
    method CreateInfoWindow(info: MarkerRecord) returns (content: string)
      ensures content == Join(InfoLines(info), Br)
    {
      var html: seq<string> := [];
      if info.organisationName != "" {
        html := html + [Strong(info.organisationName)];
      }
      html := html + [AddressLine(info)];
      if info.phoneNumber != "" {
        html := html + [PhoneLine(info.phoneNumber)];
      }
      assert html == InfoLines(info);
      content := Join(html, Br);
    }

    /**
     * `setMapCenter`: resets `data`, moves the circle and the place marker
     * to a located place, then chooses the view and, with more than one
     * marker on the map, the selected markers. `r` is the view applied,
     * or the error thrown when a single-marker map gets a place without
     * geometry.
     */
    method SetMapCenter(place: Option<Place>, data: SearchData) returns (r: Result<View, CentreError>)
      modifies this`circleCenter, this`mapCenter, this`mapZoom, this`markersList
      modifies placeMarker`position, placeMarker`onMap, placeMarker`searchIcon, data
      ensures circleCenter == CircleAfter(old(circleCenter), place)
      ensures EffectiveCount(markers, place) <= 1 ==> data.nodes == [] && !data.found
      ensures EffectiveCount(markers, place) > 1 ==>
                Selection(data.nodes, data.found) == Select(markers, QueryBounds(circleCenter, radius), contains)
      ensures r == NextView(markers, place, View(old(mapCenter), old(mapZoom)))
      ensures r.Ok? ==> View(mapCenter, mapZoom) == r.value
      ensures r.Err? ==> mapCenter == old(mapCenter) && mapZoom == old(mapZoom)
      ensures markersList == old(markersList) + if HasLocation(place) then [placeMarker] else []
      ensures HasLocation(place) ==>
                placeMarker.position == Some(Location(place)) && placeMarker.onMap && placeMarker.searchIcon
      ensures !HasLocation(place) ==> unchanged(placeMarker)
    {
      data.nodes := [];
      data.found := false;
      var markersLength := |markers|;
      if place.Some? && place.value.geometry.Some? && place.value.geometry.value.location.Some? {
        circleCenter := place.value.geometry.value.location;
        placeMarker.searchIcon := true;
        SetMarkerPlace(placeMarker, place.value);
        markersLength := markersLength + 1;
      }
      if markersLength > 1 {
        var queryBounds := QueryBounds(circleCenter, radius);
        var nodes, found := SelectInRegion(markers, queryBounds, contains);
        data.nodes, data.found := nodes, found;
        mapCenter := Some(EarthCentre);
        mapZoom := Some(WorldZoom);
        r := Ok(View(mapCenter, mapZoom));
      } else if markersLength > 0 {
        if place.Some? {
          if place.value.geometry.Some? && place.value.geometry.value.location.Some? {
            mapCenter := place.value.geometry.value.location;
            r := Ok(View(mapCenter, mapZoom));
          } else {
            r := Err(InvalidSearchResult);
          }
        } else {
          mapCenter := Some(markers[0].coords);
          mapZoom := Some(LocalZoom);
          r := Ok(View(mapCenter, mapZoom));
        }
      } else {
        mapCenter := Some(EarthCentre);
        mapZoom := Some(WorldZoom);
        r := Ok(View(mapCenter, mapZoom));
      }
    }
  }
}
