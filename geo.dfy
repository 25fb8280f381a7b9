/** The geo helpers of the server: the 3 km delivery radius, the control flow
    around the open-location-code library, and the post-processing of a
    routing-engine response. Coordinates are carried, never computed on. */
module Geo {
  import opened Common

  /** The application's coordinate shape, `{ lat, lng }`. */
  datatype LatLng = LatLng(lat: real, lng: real)

  /** The routing engine's (GeoJSON) coordinate shape: longitude first. */
  datatype LngLat = LngLat(lng: real, lat: real)

  const WarehouseLat: real := 31.28650278795713
  const WarehouseLng: real := 75.64906612235929
  const WarehouseAddress: string := "Warehouse (Jalandhar)"

  // ---------------------------------------------------------------------------
  // Delivery radius

  const MaxDeliveryMeters: real := 3000.0

  datatype RangeCheck = Allowed | Rejected(distance: real)

  function CheckDeliveryRange(distanceInMeters: real): (r: RangeCheck)
    ensures r.Allowed? <==> distanceInMeters <= MaxDeliveryMeters
    ensures r.Rejected? ==> r.distance == distanceInMeters
  {
    if distanceInMeters <= MaxDeliveryMeters then Allowed else Rejected(distanceInMeters)
  }

  /** The limit is inclusive: 3000 m is allowed, 3001 m is rejected and the
      rejection reports the distance it was given. */
  lemma DeliveryRangeBoundary()
    ensures CheckDeliveryRange(3000.0) == Allowed
    ensures CheckDeliveryRange(3001.0) == Rejected(3001.0)
  {
  }

  /** Anything nearer than an allowed distance is allowed too. */
  lemma DeliveryRangeMonotonic(nearer: real, farther: real)
    requires nearer <= farther
    requires CheckDeliveryRange(farther) == Allowed
    ensures CheckDeliveryRange(nearer) == Allowed
  {
  }

  // ---------------------------------------------------------------------------
  // Plus codes

  /** The area a full code decodes to; only its centre is used. */
  datatype CodeArea = CodeArea(latitudeCenter: real, longitudeCenter: real)

  /** The open-location-code library, whose algorithms are not part of this
      model. A call that throws returns `None`. */
  datatype OlcLibrary = OlcLibrary(
    isValid: string -> bool,
    isShort: string -> bool,
    recoverNearest: (string, real, real) -> Option<string>,
    decode: string -> Option<CodeArea>)

  /** What `decodePlusCode` returns: a position and a label. */
  datatype Place = Place(lat: real, lng: real, address: string)

  const InvalidPlusCode: string := "Invalid Plus Code"
  const PlusCodeLabel: string := "Plus Code: "

  /** The code that is handed to `decode`: a short code is first recovered to
      the full code nearest the warehouse, a full code is used as given. */
  function FullCode(olc: OlcLibrary, code: string): (r: Option<string>)
    ensures !olc.isShort(code) ==> r == Some(code)
    ensures olc.isShort(code) ==> r == olc.recoverNearest(code, WarehouseLat, WarehouseLng)
  {
    if olc.isShort(code) then olc.recoverNearest(code, WarehouseLat, WarehouseLng) else Some(code)
  }

  /** Every failure, the validity test, a throwing recovery or a throwing
      decode, comes out as the one error 'Invalid Plus Code'; on success the
      label names the code as it was supplied, not the recovered one. */
  function DecodePlusCode(olc: OlcLibrary, code: string): (r: Result<Place, string>)
    ensures !olc.isValid(code) ==> r == Err(InvalidPlusCode)
    ensures r.Err? ==> r.error == InvalidPlusCode
    ensures r.Ok? <==>
      olc.isValid(code) && FullCode(olc, code).Some? && olc.decode(FullCode(olc, code).value).Some?
    ensures r.Ok? ==> r.value.address == PlusCodeLabel + code
    ensures r.Ok? ==>
      var area := olc.decode(FullCode(olc, code).value).value;
      r.value.lat == area.latitudeCenter && r.value.lng == area.longitudeCenter
  {
    if !olc.isValid(code) then Err(InvalidPlusCode)
    else
      var fullCode := if olc.isShort(code) then olc.recoverNearest(code, WarehouseLat, WarehouseLng) else Some(code);
      match fullCode
      case None => Err(InvalidPlusCode)
      case Some(full) =>
        match olc.decode(full)
        case None => Err(InvalidPlusCode)
        case Some(area) => Ok(Place(area.latitudeCenter, area.longitudeCenter, PlusCodeLabel + code))
  }

  /** A valid short code is decoded exactly as the full code the library
      recovers for it near the warehouse; only the label differs. */
  lemma ShortCodeDecodesAsRecovered(olc: OlcLibrary, code: string, full: string)
    requires olc.isValid(code) && olc.isShort(code)
    requires olc.recoverNearest(code, WarehouseLat, WarehouseLng) == Some(full)
    requires olc.isValid(full) && !olc.isShort(full)
    ensures DecodePlusCode(olc, code).Ok? <==> DecodePlusCode(olc, full).Ok?
    ensures DecodePlusCode(olc, code).Ok? ==>
      var a, b := DecodePlusCode(olc, code).value, DecodePlusCode(olc, full).value;
      a.lat == b.lat && a.lng == b.lng && a.address == PlusCodeLabel + code && b.address == PlusCodeLabel + full
  {
  }

  // ---------------------------------------------------------------------------
  // Routing

  function ToWire(p: LatLng): (w: LngLat)
    ensures w.lng == p.lng && w.lat == p.lat
  {
    LngLat(p.lng, p.lat)
  }

  function FromWire(w: LngLat): (p: LatLng)
    ensures p.lat == w.lat && p.lng == w.lng
  {
    LatLng(w.lat, w.lng)
  }

  /** The waypoints named in the request path: origin, then destination, each
      written longitude first. */
  function RequestWaypoints(origin: LatLng, destination: LatLng): (ws: seq<LngLat>)
    ensures |ws| == 2
    ensures FromWire(ws[0]) == origin && FromWire(ws[1]) == destination
  {
    [ToWire(origin), ToWire(destination)]
  }

  /** `coordinates.map(p => ({ lat: p[1], lng: p[0] }))`. */
  function ConvertGeometry(coords: seq<LngLat>): (r: seq<LatLng>)
    ensures |r| == |coords|
    ensures forall i :: 0 <= i < |coords| ==> r[i] == FromWire(coords[i])
  {
    if |coords| == 0 then [] else [FromWire(coords[0])] + ConvertGeometry(coords[1..])
  }

  /** The conversion works point by point, so it keeps the order of a polyline
      made of pieces. */
  lemma {:induction false} ConvertGeometryAppend(a: seq<LngLat>, b: seq<LngLat>)
    ensures ConvertGeometry(a + b) == ConvertGeometry(a) + ConvertGeometry(b)
  {
    if |a| > 0 {
      assert (a + b)[1..] == a[1..] + b;
      ConvertGeometryAppend(a[1..], b);
    }
  }

  /** Converting the request's own waypoints gives back origin and destination. */
  lemma RequestRoundTrip(origin: LatLng, destination: LatLng)
    ensures ConvertGeometry(RequestWaypoints(origin, destination)) == [origin, destination]
  {
  }

  datatype OsrmRoute = OsrmRoute(distance: real, duration: real, coordinates: Option<seq<LngLat>>)

  /** The body of the routing engine's reply; a missing `routes` is `None`. */
  datatype OsrmResponse = OsrmResponse(code: string, routes: Option<seq<OsrmRoute>>)

  /** What `getOSRMRoute` resolves to (the `distanceText` string is not modelled). */
  datatype RouteInfo = RouteInfo(distance: real, duration: real, geometry: seq<LatLng>)

  const FailedToFindRoute: string := "Failed to find route"

  predicate HasRoute(resp: OsrmResponse) {
    resp.code == "Ok" && resp.routes.Some? && |resp.routes.value| > 0
  }

  /** `response` is `None` when the HTTP request itself failed. A reply whose
      code is not 'Ok' or that lists no route is an error, as is a first route
      without geometry; every error reads 'Failed to find route'. Otherwise the
      first route's distance and duration pass through unchanged. */
  function ParseRouteResponse(response: Option<OsrmResponse>): (r: Result<RouteInfo, string>)
    ensures r.Err? ==> r.error == FailedToFindRoute
    ensures r.Ok? <==>
      response.Some? && HasRoute(response.value) && response.value.routes.value[0].coordinates.Some?
    ensures r.Ok? ==>
      var first := response.value.routes.value[0];
      r.value.distance == first.distance && r.value.duration == first.duration &&
      |r.value.geometry| == |first.coordinates.value| &&
      forall i :: 0 <= i < |r.value.geometry| ==>
        r.value.geometry[i].lat == first.coordinates.value[i].lat &&
        r.value.geometry[i].lng == first.coordinates.value[i].lng
  {
    match response
    case None => Err(FailedToFindRoute)
    case Some(resp) =>
      if !HasRoute(resp) then Err(FailedToFindRoute)
      else
        var route := resp.routes.value[0];
        match route.coordinates
        case None => Err(FailedToFindRoute)
        case Some(coords) => Ok(RouteInfo(route.distance, route.duration, ConvertGeometry(coords)))
  }
}
