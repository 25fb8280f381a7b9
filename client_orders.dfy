/** The order object as the React pages receive it, over HTTP or in an
    'orderUpdated' event: every field may be missing. Payment fields are read
    by some pages although the server's schema never stores them. */
module ClientOrders {
  import opened Common
  import OrderModel

  datatype LocationView = LocationView(lat: Option<real>, lng: Option<real>, address: Option<string>)

  datatype CustomerView = CustomerView(name: Option<string>, address: Option<string>)

  /** `deliveryPersonId` is present when a rider is assigned; its populated
      fields (name, email) are display-only and not modelled. */
  datatype OrderView = OrderView(
    trackingId: Option<string>,
    status: Option<string>,
    customer: Option<CustomerView>,
    currentLocation: Option<LocationView>,
    deliveryPersonId: Option<string>,
    paymentMethod: Option<string>,
    paymentStatus: Option<string>)

  function TrackingKey(o: OrderView): Option<string> {
    o.trackingId
  }

  /** `orders.map(o => o.trackingId === updated.trackingId ? updated : o)`. */
  function ReplaceByTrackingId(orders: seq<OrderView>, updated: OrderView): (r: seq<OrderView>)
    ensures |r| == |orders|
    ensures forall i :: 0 <= i < |orders| && orders[i].trackingId == updated.trackingId ==> r[i] == updated
    ensures forall i :: 0 <= i < |orders| && orders[i].trackingId != updated.trackingId ==> r[i] == orders[i]
  {
    ReplaceByKey(orders, TrackingKey, updated)
  }

  /** The JSON the server sends for a stored order. The stored document has no
      payment fields, so both are always missing. */
  function ToView(o: OrderModel.Order): (v: OrderView)
    ensures v.trackingId == Some(o.trackingId)
    ensures v.status.Some? <==> o.status.Some?
    ensures o.status.Some? ==> v.status == Some(OrderModel.StatusName(o.status.value))
    ensures v.deliveryPersonId == o.deliveryPersonId
    ensures v.paymentMethod.None? && v.paymentStatus.None?
  {
    OrderView(
      Some(o.trackingId),
      if o.status.Some? then Some(OrderModel.StatusName(o.status.value)) else None,
      if o.customer.Some? then Some(CustomerView(o.customer.value.name, o.customer.value.address)) else None,
      Some(LocationView(o.currentLocation.lat, o.currentLocation.lng, o.currentLocation.address)),
      o.deliveryPersonId,
      None,
      None)
  }
}
