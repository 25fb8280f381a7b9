/** The admin dashboard: the payment gate in front of rider assignment, the
    list refresh on 'orderUpdated', the local status update, payment
    verification, and the payload of a new order. Requests are inputs: a
    handler's outcome is given as the response it received, `None` when the
    request failed. */
module AdminPage {
  import opened Common
  import opened ClientOrders
  import OrderModel
  import OrderRoutes

  datatype AdminState = AdminState(orders: seq<OrderView>, selected: Option<OrderView>)

  // ---------------------------------------------------------------------------
  // Payment gate

  /** `paymentMethod !== 'COD' && paymentStatus !== 'Success'`. */
  function PaymentPending(o: OrderView): (pending: bool)
    ensures o.paymentMethod == Some("COD") ==> !pending
    ensures o.paymentStatus == Some("Success") ==> !pending
    ensures o.paymentMethod.None? && o.paymentStatus.None? ==> pending
    ensures o.paymentMethod == Some("Online") && o.paymentStatus == Some("Pending") ==> pending
  {
    o.paymentMethod != Some("COD") && o.paymentStatus != Some("Success")
  }

  /** What the rider panel offers for the selected order. */
  datatype Controls = Controls(methodLabel: string, statusLabel: string, verifyButton: bool, warning: bool, riderSelector: bool)

  function ControlsFor(o: OrderView): (c: Controls)
    ensures c.warning <==> o.paymentMethod != Some("COD") && o.paymentStatus != Some("Success")
    ensures c.verifyButton <==> c.warning
    ensures c.riderSelector <==> !c.warning
    ensures c.methodLabel == (if Truthy(o.paymentMethod) then o.paymentMethod.value else "COD")
    ensures c.statusLabel == (if Truthy(o.paymentStatus) then o.paymentStatus.value else "Pending")
  {
    var pending := PaymentPending(o);
    Controls(OrElse(o.paymentMethod, "COD"), OrElse(o.paymentStatus, "Pending"), pending, pending, !pending)
  }

  /** An order without payment fields is labelled 'COD' yet blocked as if it
      were paid online. */
  lemma MissingMethodLabelledCodButBlocked(o: OrderView)
    requires o.paymentMethod.None? && o.paymentStatus.None?
    ensures ControlsFor(o).methodLabel == "COD" && ControlsFor(o).statusLabel == "Pending"
    ensures ControlsFor(o).warning && !ControlsFor(o).riderSelector
  {
  }

  /** The server's orders carry no payment fields, so every one of them is
      shown with the warning and without the rider selector. */
  lemma ServerOrdersAlwaysGated(o: OrderModel.Order)
    ensures ControlsFor(ToView(o)).warning && !ControlsFor(ToView(o)).riderSelector
  {
  }

  // ---------------------------------------------------------------------------
  // Event and handlers

  /** 'orderUpdated': the list entry with the same tracking id is replaced.
      The handler is registered once at mount and reads the selection of that
      first render, which is empty, so the selection is never refreshed. */
  function OnOrderUpdated(s: AdminState, updated: OrderView): (r: AdminState)
    ensures r.selected == s.selected
    ensures |r.orders| == |s.orders|
    ensures forall i :: 0 <= i < |s.orders| ==>
      r.orders[i] == (if s.orders[i].trackingId == updated.trackingId then updated else s.orders[i])
  {
    AdminState(ReplaceByTrackingId(s.orders, updated), s.selected)
  }

  /** The stale selection: the panel keeps showing the old copy of an order
      that was just updated. */
  lemma SelectionNotRefreshed(s: AdminState, updated: OrderView)
    requires s.selected.Some? && s.selected.value.trackingId == updated.trackingId
    requires s.selected.value != updated
    ensures OnOrderUpdated(s, updated).selected != Some(updated)
  {
  }

  /** `updateStatus`. The handler closes over the state of the render it was
      clicked in (`atClick`) and awaits the request, during which the page may
      have moved on to `current`. Without a selection at the click nothing is
      sent; on failure the current state stays. Otherwise the clicked order
      with the new status becomes the selection, and the list becomes the
      click-time list with that entry replaced: whatever changed the list
      while the request was in flight is overwritten. */
  function UpdateStatus(current: AdminState, atClick: AdminState, status: string, requestOk: bool): (r: AdminState)
    ensures atClick.selected.None? || !requestOk ==> r == current
    ensures atClick.selected.Some? && requestOk ==>
      var updated := atClick.selected.value.(status := Some(status));
      && r.selected == Some(updated)
      && |r.orders| == |atClick.orders|
      && forall i :: 0 <= i < |atClick.orders| ==>
           r.orders[i] == (if atClick.orders[i].trackingId == updated.trackingId then updated else atClick.orders[i])
  {
    if atClick.selected.None? || !requestOk then current
    else
      var updated := atClick.selected.value.(status := Some(status));
      AdminState(ReplaceByTrackingId(atClick.orders, updated), Some(updated))
  }

  /** After a local update the selection differs from the clicked order in
      its status only. */
  lemma UpdateStatusChangesOnlyStatus(current: AdminState, atClick: AdminState, status: string)
    requires atClick.selected.Some?
    ensures var r := UpdateStatus(current, atClick, status, true).selected.value;
      r.status == Some(status) && r.(status := atClick.selected.value.status) == atClick.selected.value
  {
  }

  /** The server broadcasts 'orderUpdated' before it replies, so an update of
      another order can be applied while the request is in flight; the
      handler's reply then puts the click-time copy of that order back. */
  lemma UpdateStatusLosesInterleavedUpdate(s: AdminState, other: OrderView, status: string, i: int)
    requires s.selected.Some? && other.trackingId != s.selected.value.trackingId
    requires 0 <= i < |s.orders| && s.orders[i].trackingId == other.trackingId && s.orders[i] != other
    ensures OnOrderUpdated(s, other).orders[i] == other
    ensures UpdateStatus(OnOrderUpdated(s, other), s, status, true).orders[i] == s.orders[i]
  {
  }

  /** `verifyPayment`, closing over the click-time state in the same way:
      nothing without a selection at the click, the current state on failure,
      otherwise the returned order becomes the selection and replaces its
      entry in the click-time list. */
  function VerifyPayment(current: AdminState, atClick: AdminState, response: Option<OrderView>): (r: AdminState)
    ensures atClick.selected.None? || response.None? ==> r == current
    ensures atClick.selected.Some? && response.Some? ==>
      && r.selected == response
      && |r.orders| == |atClick.orders|
      && forall i :: 0 <= i < |atClick.orders| ==>
           r.orders[i] == (if atClick.orders[i].trackingId == response.value.trackingId then response.value else atClick.orders[i])
  {
    if atClick.selected.None? || response.None? then current
    else AdminState(ReplaceByTrackingId(atClick.orders, response.value), response)
  }

  /** The same race for payment verification: an update of another order
      that arrives while the request is in flight is lost. */
  lemma VerifyPaymentLosesInterleavedUpdate(s: AdminState, other: OrderView, paid: OrderView, i: int)
    requires s.selected.Some? && paid.trackingId == s.selected.value.trackingId
    requires other.trackingId != paid.trackingId
    requires 0 <= i < |s.orders| && s.orders[i].trackingId == other.trackingId && s.orders[i] != other
    ensures OnOrderUpdated(s, other).orders[i] == other
    ensures VerifyPayment(OnOrderUpdated(s, other), s, Some(paid)).orders[i] == s.orders[i]
  {
  }

  /** The request `assignRider` sends: the selected order's tracking id and
      the rider; nothing without a selection. */
  function AssignRequest(s: AdminState, riderId: string): (r: Option<(Option<string>, string)>)
    ensures r.None? <==> s.selected.None?
    ensures r.Some? ==> r.value == (s.selected.value.trackingId, riderId)
  {
    if s.selected.None? then None else Some((s.selected.value.trackingId, riderId))
  }

  // ---------------------------------------------------------------------------
  // Status buttons

  const StatusButtons: seq<string> := ["Ordered", "Packed", "Shipped"]

  /** The buttons offer only the first three statuses, each of which the
      server accepts; a status update sent from here carries no location, so
      the order stays where it was. */
  lemma StatusButtonsAccepted(o: OrderModel.Order, b: string, now: nat)
    requires b in StatusButtons
    ensures b in OrderModel.StatusEnum
    ensures "Out for Delivery" !in StatusButtons && "Delivered" !in StatusButtons
    ensures var res := OrderRoutes.ApplyStatus(o, OrderRoutes.StatusRequest(Some(b), None), now);
      res.Ok? && res.value.currentLocation == o.currentLocation
  {
  }

  // ---------------------------------------------------------------------------
  // New order

  datatype NewOrderForm = NewOrderForm(trackingId: string, customerName: string, address: string)

  const AdminWarehouseAddress: string := "Warehouse, New Delhi"

  /** The body of `createOrder`: an empty tracking id becomes 'ORD-' and the
      time; the initial location is the fixed warehouse. */
  function CreatePayload(form: NewOrderForm, now: nat): (req: OrderRoutes.CreateRequest)
    ensures req.trackingId == Some(if form.trackingId != "" then form.trackingId else TimestampId(now))
    ensures req.customer == Some(OrderModel.Customer(Some(form.customerName), Some(form.address), None))
    ensures req.initialLocation == Some(OrderModel.Location(Some(28.6139), Some(77.2090), Some(AdminWarehouseAddress)))
  {
    OrderRoutes.CreateRequest(
      Some(OrderModel.Customer(Some(form.customerName), Some(form.address), None)),
      Some(if form.trackingId != "" then form.trackingId else TimestampId(now)),
      Some(OrderModel.Location(Some(28.6139), Some(77.2090), Some(AdminWarehouseAddress))))
  }

  /** The payload always has a tracking id, so the server refuses it only
      when that id is taken; the new order's first entry names the warehouse. */
  lemma CreatePayloadAccepted(orders: map<string, OrderModel.Order>, form: NewOrderForm, now: nat, at: nat)
    ensures var req := CreatePayload(form, now);
      var res := OrderRoutes.CreateResult(orders, req, at);
      (res.Ok? <==> req.trackingId.value !in orders) &&
      (res.Ok? ==> res.value.history[0].location == Some(AdminWarehouseAddress))
  {
  }
}
