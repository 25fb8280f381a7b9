/** The rider's dashboard: which orders are tracked by GPS, the one action
    each status offers, the location updates a position fix sends, and the
    status request a button sends. The geolocation service and the reverse
    geocoder are inputs. */
module RiderDashboard {
  import opened Common
  import opened ClientOrders
  import OrderModel
  import OrderRoutes

  const OutForDelivery: string := "Out for Delivery"

  function IsTracked(o: OrderView): bool {
    o.status == Some(OutForDelivery)
  }

  /** `orders.filter(o => o.status === 'Out for Delivery')`. */
  function ActiveOrders(orders: seq<OrderView>): (active: seq<OrderView>)
    ensures forall i :: 0 <= i < |active| ==> active[i].status == Some(OutForDelivery) && active[i] in orders
    ensures forall i :: 0 <= i < |orders| && orders[i].status == Some(OutForDelivery) ==> orders[i] in active
    ensures forall o :: multiset(active)[o] == if o.status == Some(OutForDelivery) then multiset(orders)[o] else 0
  {
    var active := Filter(orders, IsTracked);
    assert forall i :: 0 <= i < |active| ==> active[i] in multiset(active);
    active
  }

  /** The tracked orders keep the list's order: the list is taken part by
      part, and a single order is kept exactly when it is out for delivery. */
  lemma ActiveOrdersInListOrder(a: seq<OrderView>, b: seq<OrderView>, o: OrderView)
    ensures ActiveOrders(a + b) == ActiveOrders(a) + ActiveOrders(b)
    ensures ActiveOrders([o]) == if o.status == Some(OutForDelivery) then [o] else []
  {
    FilterAppend(a, b, IsTracked);
    FilterSingle(o, IsTracked);
  }

  // ---------------------------------------------------------------------------
  // Actions

  datatype Action = StartDelivery | MarkDelivered

  /** The status an action asks for. */
  function Target(a: Action): (status: string)
    ensures status in OrderModel.StatusEnum
  {
    match a
    case StartDelivery => OutForDelivery
    case MarkDelivered => "Delivered"
  }

  /** Only a packed order can be started and only an order out for delivery
      can be completed; every other status offers nothing. */
  function NextAction(status: Option<string>): (a: Option<Action>)
    ensures a == Some(StartDelivery) <==> status == Some("Packed")
    ensures a == Some(MarkDelivered) <==> status == Some(OutForDelivery)
  {
    if status == Some("Packed") then Some(StartDelivery)
    else if status == Some(OutForDelivery) then Some(MarkDelivered)
    else None
  }

  /** An action always moves the order forward along the server's enum:
      starting a delivery skips 'Shipped' (Packed to Out for Delivery), and
      completing it is the last step. */
  lemma ActionMovesForward(status: Option<string>)
    requires NextAction(status).Some?
    ensures status.value in OrderModel.StatusEnum
    ensures var from := IndexOf(OrderModel.StatusEnum, status.value);
      var to := IndexOf(OrderModel.StatusEnum, Target(NextAction(status).value));
      to == from + (if status.value == "Packed" then 2 else 1)
  {
    var names := OrderModel.StatusEnum;
    assert Distinct(names);
    if status.value == "Packed" {
      IndexOfDistinct(names, 1);
      IndexOfDistinct(names, 3);
    } else {
      IndexOfDistinct(names, 3);
      IndexOfDistinct(names, 4);
    }
  }

  // ---------------------------------------------------------------------------
  // Position fixes

  /** `socket.emit('updateLocation', { trackingId, location })`. */
  datatype LocationEmit = LocationEmit(trackingId: Option<string>, lat: real, lng: real)

  /** One fix sends one update per tracked order, in list order, each naming
      its own order. */
  function OnPositionFix(orders: seq<OrderView>, lat: real, lng: real): (emits: seq<LocationEmit>)
    ensures |emits| == |ActiveOrders(orders)|
    ensures forall i :: 0 <= i < |emits| ==>
      emits[i] == LocationEmit(ActiveOrders(orders)[i].trackingId, lat, lng)
  {
    var active := ActiveOrders(orders);
    seq(|active|, i requires 0 <= i < |active| => LocationEmit(active[i].trackingId, lat, lng))
  }

  /** The updates follow the list: a fix over two parts of the list sends the
      first part's updates, then the second's, and a single order sends one
      update when it is out for delivery and none otherwise. */
  lemma PositionFixInListOrder(a: seq<OrderView>, b: seq<OrderView>, o: OrderView, lat: real, lng: real)
    ensures OnPositionFix(a + b, lat, lng) == OnPositionFix(a, lat, lng) + OnPositionFix(b, lat, lng)
    ensures OnPositionFix([o], lat, lng) ==
      if o.status == Some(OutForDelivery) then [LocationEmit(o.trackingId, lat, lng)] else []
  {
    ActiveOrdersInListOrder(a, b, o);
    EmitsConcat(ActiveOrders(a), ActiveOrders(b), a, b, lat, lng);
  }

  /** The updates of a fix over two lists whose tracked orders are `xs` and
      `ys`, and over their concatenation, line up. */
  lemma EmitsConcat(xs: seq<OrderView>, ys: seq<OrderView>, a: seq<OrderView>, b: seq<OrderView>, lat: real, lng: real)
    requires ActiveOrders(a) == xs && ActiveOrders(b) == ys && ActiveOrders(a + b) == xs + ys
    ensures OnPositionFix(a + b, lat, lng) == OnPositionFix(a, lat, lng) + OnPositionFix(b, lat, lng)
  {
    var e, ea, eb := OnPositionFix(a + b, lat, lng), OnPositionFix(a, lat, lng), OnPositionFix(b, lat, lng);
    assert |e| == |ea| + |eb|;
    forall i | 0 <= i < |e| ensures e[i] == (ea + eb)[i] {
      if i < |xs| {
        assert e[i] == LocationEmit(xs[i].trackingId, lat, lng);
      } else {
        assert (xs + ys)[i] == ys[i - |xs|];
      }
    }
  }

  /** Orders not out for delivery are never reported. */
  lemma OnlyTrackedOrdersReported(orders: seq<OrderView>, lat: real, lng: real, e: LocationEmit)
    requires e in OnPositionFix(orders, lat, lng)
    ensures exists o :: o in orders && o.status == Some(OutForDelivery) && o.trackingId == e.trackingId
  {
    var k :| 0 <= k < |OnPositionFix(orders, lat, lng)| && OnPositionFix(orders, lat, lng)[k] == e;
    assert ActiveOrders(orders)[k] in orders;
  }

  /** 'orderAssigned' puts the new order first. */
  function OnAssigned(orders: seq<OrderView>, newOrder: OrderView): (r: seq<OrderView>)
    ensures |r| == |orders| + 1 && r[0] == newOrder && r[1..] == orders
  {
    [newOrder] + orders
  }

  // ---------------------------------------------------------------------------
  // Status requests

  /** What the browser offers: no geolocation at all, a position request that
      fails (whose error is not handled), or a position. */
  datatype Geo = NoGeolocation | PositionFailed | Position(lat: real, lng: real)

  /** The reverse geocoder: the request fails, or it answers with a
      `display_name` that may be missing. */
  datatype Geocode = GeocodeFailed | Geocoded(displayName: Option<string>)

  const GpsFallbackAddress: string := "Current GPS Location"

  /** The body `handleStatusUpdate` sends, or `None` when it sends nothing. */
  function StatusUpdateBody(next: string, geo: Geo, geocode: Geocode): (body: Option<OrderRoutes.StatusRequest>)
    ensures body.None? <==> geo.PositionFailed?
    ensures geo.NoGeolocation? ==> body == Some(OrderRoutes.StatusRequest(Some(next), None))
    ensures geo.Position? ==>
      && body.Some? && body.value.status == Some(next)
      && body.value.location.Some?
      && body.value.location.value.lat == Some(geo.lat) && body.value.location.value.lng == Some(geo.lng)
      && body.value.location.value.address == (if geocode.GeocodeFailed? then Some(GpsFallbackAddress) else geocode.displayName)
  {
    match geo
    case NoGeolocation => Some(OrderRoutes.StatusRequest(Some(next), None))
    case PositionFailed => None
    case Position(lat, lng) =>
      var address := if geocode.GeocodeFailed? then Some(GpsFallbackAddress) else geocode.displayName;
      Some(OrderRoutes.StatusRequest(Some(next), Some(OrderModel.Location(Some(lat), Some(lng), address))))
  }

  /** The server accepts every request a button sends; with a position, the
      order moves to it and the new history entry names the geocoded address. */
  lemma RiderRequestAccepted(o: OrderModel.Order, a: Action, geo: Geo, geocode: Geocode, now: nat)
    requires !geo.PositionFailed?
    ensures var res := OrderRoutes.ApplyStatus(o, StatusUpdateBody(Target(a), geo, geocode).value, now);
      && res.Ok?
      && res.value.status.Some? && OrderModel.StatusName(res.value.status.value) == Target(a)
      && (geo.NoGeolocation? ==> res.value.currentLocation == o.currentLocation)
      && (geo.Position? ==> res.value.currentLocation.lat == Some(geo.lat) && res.value.currentLocation.lng == Some(geo.lng))
      && (geo.Position? ==>
            res.value.history[|o.history|].location == (if geocode.GeocodeFailed? then Some(GpsFallbackAddress) else geocode.displayName))
  {
  }
}
