/** The order object of the portal pages (the customer and admin portals),
    which speak to a separate admin/user API: orders are keyed by their
    database id `_id`, carry upper-case status names and pickup, drop and
    current coordinates. Every field but the id may be missing. */
module PortalOrders {
  import opened Common

  datatype Point = Point(lat: real, lng: real)

  /** `{ lat: 28.6139, lng: 77.209 }`, the demo default centre (Delhi). */
  const DefaultCenter: Point := Point(28.6139, 77.209)

  datatype PortalOrder = PortalOrder(
    id: string,
    status: Option<string>,
    userId: Option<string>,
    agentId: Option<string>,
    currentLocation: Option<Point>,
    pickupLocation: Option<Point>,
    dropLocation: Option<Point>)

  function OrderId(o: PortalOrder): string {
    o.id
  }

  /** `prev.map(o => o._id === order._id ? order : o)`. */
  function ReplaceById(orders: seq<PortalOrder>, updated: PortalOrder): (r: seq<PortalOrder>)
    ensures |r| == |orders|
    ensures forall i :: 0 <= i < |orders| && orders[i].id == updated.id ==> r[i] == updated
    ensures forall i :: 0 <= i < |orders| && orders[i].id != updated.id ==> r[i] == orders[i]
  {
    ReplaceByKey(orders, OrderId, updated)
  }

  /** `a || b || fallback` over two optional points: the first present one. */
  function FirstPresent(a: Option<Point>, b: Option<Point>, fallback: Point): (p: Point)
    ensures a.Some? ==> p == a.value
    ensures a.None? && b.Some? ==> p == b.value
    ensures a.None? && b.None? ==> p == fallback
  {
    if a.Some? then a.value else if b.Some? then b.value else fallback
  }
}
