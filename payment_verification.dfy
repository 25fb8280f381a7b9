/** The payment verification page: it waits until the order is paid and has a
    rider, then navigates to the tracking page. The first fetch and every
    'orderUpdated' event apply the same test. */
module PaymentVerification {
  import opened Common
  import opened ClientOrders
  import OrderModel

  /** `paymentStatus === 'Success' && deliveryPersonId`. */
  function ReadyToTrack(o: OrderView): (ready: bool)
    ensures ready <==> ViewOf(PageState(Some(o), None)) == Details("Success", "Assigned")
  {
    o.paymentStatus == Some("Success") && o.deliveryPersonId.Some?
  }

  const FetchFailedMessage: string := "Failed to fetch order details."

  datatype PageState = PageState(order: Option<OrderView>, error: Option<string>)

  const Initial: PageState := PageState(None, None)

  /** A page state together with the navigation the handler triggered. */
  datatype Step = Step(state: PageState, navigateTo: Option<string>)

  function TrackPath(trackingId: string): string {
    "/track/" + trackingId
  }

  /** The first fetch; `response` is `None` when it failed. The target is
      built from the route's tracking id, not the order's. */
  function OnFetch(s: PageState, trackingId: string, response: Option<OrderView>): (r: Step)
    ensures response.None? ==> r.state == s.(error := Some(FetchFailedMessage)) && r.navigateTo.None?
    ensures response.Some? ==> r.state == s.(order := response)
    ensures response.Some? ==> (r.navigateTo.Some? <==> ReadyToTrack(response.value))
    ensures r.navigateTo.Some? ==> r.navigateTo.value == TrackPath(trackingId)
  {
    match response
    case None => Step(s.(error := Some(FetchFailedMessage)), None)
    case Some(o) => Step(s.(order := response), if ReadyToTrack(o) then Some(TrackPath(trackingId)) else None)
  }

  /** 'orderUpdated': the shown order is replaced first, then the same test
      decides the navigation. */
  function OnOrderUpdated(s: PageState, trackingId: string, updated: OrderView): (r: Step)
    ensures r.state.order == Some(updated) && r.state.error == s.error
    ensures r.navigateTo.Some? <==> ReadyToTrack(updated)
    ensures r.navigateTo.Some? ==> r.navigateTo.value == TrackPath(trackingId)
  {
    Step(s.(order := Some(updated)), if ReadyToTrack(updated) then Some(TrackPath(trackingId)) else None)
  }

  /** The fetch and the event agree: the same order triggers the same
      navigation whichever way it arrives. */
  lemma SameTestBothWays(s: PageState, t: PageState, trackingId: string, o: OrderView)
    ensures OnFetch(s, trackingId, Some(o)).navigateTo == OnOrderUpdated(t, trackingId, o).navigateTo
  {
  }

  datatype View = ErrorView(message: string) | Spinner | Details(paymentLabel: string, riderLabel: string)

  /** The error view wins over everything; without an order a spinner shows. */
  function ViewOf(s: PageState): (v: View)
    ensures s.error.Some? ==> v == ErrorView(s.error.value)
    ensures s.error.None? && s.order.None? ==> v == Spinner
    ensures s.error.None? && s.order.Some? ==>
      && v.Details?
      && v.paymentLabel == (if Truthy(s.order.value.paymentStatus) then s.order.value.paymentStatus.value else "Pending")
      && (v.riderLabel == "Assigned" <==> s.order.value.deliveryPersonId.Some?)
  {
    if s.error.Some? then ErrorView(s.error.value)
    else if s.order.None? then Spinner
    else
      var o := s.order.value;
      Details(OrElse(o.paymentStatus, "Pending"), if o.deliveryPersonId.Some? then "Assigned" else "Pending")
  }

  /** Once the fetch failed the page stays on the error view, whatever events
      arrive later. */
  lemma ErrorViewSticks(s: PageState, trackingId: string, updates: seq<OrderView>)
    requires s.error.Some?
    ensures ViewOf(ReplayUpdates(s, trackingId, updates)) == ErrorView(s.error.value)
  {
    ReplayKeepsError(s, trackingId, updates);
  }

  function ReplayUpdates(s: PageState, trackingId: string, updates: seq<OrderView>): PageState
    decreases |updates|
  {
    if |updates| == 0 then s
    else ReplayUpdates(OnOrderUpdated(s, trackingId, updates[0]).state, trackingId, updates[1..])
  }

  lemma {:induction false} ReplayKeepsError(s: PageState, trackingId: string, updates: seq<OrderView>)
    ensures ReplayUpdates(s, trackingId, updates).error == s.error
    decreases |updates|
  {
    if |updates| > 0 {
      ReplayKeepsError(OnOrderUpdated(s, trackingId, updates[0]).state, trackingId, updates[1..]);
    }
  }

  /** The server's orders never carry a payment status, so for them the page
      never navigates on its own. */
  lemma ServerOrdersNeverReady(o: OrderModel.Order)
    ensures !ReadyToTrack(ToView(o))
  {
  }
}
