/** The customer's tracking page: the progress steps derived from the order's
    status, and how the shown order changes on the initial fetch, on an
    'orderUpdated' event and on a 'locationUpdate' event. */
module TrackingPage {
  import opened Common
  import opened ClientOrders
  import OrderModel

  const Steps: seq<string> := ["Ordered", "Packed", "Shipped", "Out for Delivery", "Delivered"]

  /** `order?.status || 'Ordered'`. */
  function ShownStatus(order: Option<OrderView>): (s: string)
    ensures order.Some? && Truthy(order.value.status) ==> s == order.value.status.value
    ensures !(order.Some? && Truthy(order.value.status)) ==> s == "Ordered"
  {
    OrElse(if order.Some? then order.value.status else None, "Ordered")
  }

  /** `steps.indexOf(...)`: -1 for a status that is not a step. */
  function CurrentStepIndex(order: Option<OrderView>): (i: int)
    ensures -1 <= i < |Steps|
    ensures i == -1 <==> ShownStatus(order) !in Steps
    ensures 0 <= i ==> Steps[i] == ShownStatus(order)
  {
    IndexOf(Steps, ShownStatus(order))
  }

  /** The steps are distinct, so the index found is the only position of
      the shown status. */
  lemma StepPosition(order: Option<OrderView>, index: int)
    ensures 0 <= index < |Steps| ==>
      && (index <= CurrentStepIndex(order) <==> ShownStatus(order) in Steps[index..])
      && (index == CurrentStepIndex(order) <==> Steps[index] == ShownStatus(order))
  {
    if 0 <= index < |Steps| {
      assert Distinct(Steps);
      if ShownStatus(order) in Steps[index..] {
        var k := index + IndexOf(Steps[index..], ShownStatus(order));
        IndexOfDistinct(Steps, k);
      }
      if Steps[index] == ShownStatus(order) {
        IndexOfDistinct(Steps, index);
      }
    }
  }

  /** `index <= currentStepIndex`: a step is completed exactly when the shown
      status is that step or a later one. */
  function IsCompleted(order: Option<OrderView>, index: int): (done: bool)
    ensures 0 <= index < |Steps| ==> (done <==> ShownStatus(order) in Steps[index..])
  {
    StepPosition(order, index);
    index <= CurrentStepIndex(order)
  }

  /** `index === currentStepIndex`: a step is current exactly when it names
      the shown status. */
  function IsCurrent(order: Option<OrderView>, index: int): (current: bool)
    ensures 0 <= index < |Steps| ==> (current <==> Steps[index] == ShownStatus(order))
  {
    StepPosition(order, index);
    index == CurrentStepIndex(order)
  }

  /** The completed steps are always a prefix of the list. */
  lemma CompletedIsPrefix(order: Option<OrderView>, i: int, j: int)
    requires 0 <= i <= j < |Steps|
    requires IsCompleted(order, j)
    ensures IsCompleted(order, i)
  {
  }

  /** A step is current exactly when it names the shown status; then it is the
      last completed step. */
  lemma CurrentStep(order: Option<OrderView>, k: int)
    requires 0 <= k < |Steps|
    ensures IsCurrent(order, k) <==> Steps[k] == ShownStatus(order)
    ensures IsCurrent(order, k) ==> IsCompleted(order, k) && (k + 1 < |Steps| ==> !IsCompleted(order, k + 1))
  {
    if Steps[k] == ShownStatus(order) {
      assert Steps[CurrentStepIndex(order)] == Steps[k];
    }
  }

  /** A status that is not one of the steps, such as the simulator's
      'Arriving', completes no step and makes none current. */
  lemma UnknownStatusShowsNothing(order: OrderView, k: int)
    requires Truthy(order.status) && order.status.value !in Steps
    requires 0 <= k < |Steps|
    ensures !IsCompleted(Some(order), k) && !IsCurrent(Some(order), k)
  {
  }

  /** A missing or empty status reads as 'Ordered', the first step. */
  lemma MissingStatusIsOrdered(order: Option<OrderView>)
    requires order.None? || !Truthy(order.value.status)
    ensures CurrentStepIndex(order) == 0
  {
  }

  /** The steps are the server's enum, in its order: every order the server
      sends with a status shows that status's step as current; one without a
      status shows 'Ordered'. */
  lemma ServerOrderShowsItsStep(o: OrderModel.Order)
    ensures Steps == OrderModel.StatusEnum
    ensures o.status.Some? ==> Steps[CurrentStepIndex(Some(ToView(o)))] == OrderModel.StatusName(o.status.value)
    ensures o.status.None? ==> CurrentStepIndex(Some(ToView(o))) == 0
  {
    if o.status.Some? {
      assert OrderModel.StatusName(o.status.value) in Steps;
    }
  }

  // ---------------------------------------------------------------------------
  // Page state

  datatype PageState = PageState(order: Option<OrderView>, loading: bool)

  const Initial: PageState := PageState(None, true)

  const DemoTrackingId: string := "DEMO-123"
  const DemoAddress: string := "123, Green Street, Tech City"

  /** The order shown when the fetch fails. */
  function DemoOrder(trackingId: Option<string>): (o: OrderView)
    ensures Truthy(trackingId) ==> o.trackingId == trackingId
    ensures !Truthy(trackingId) ==> o.trackingId == Some(DemoTrackingId)
    ensures o.status == Some("Out for Delivery")
    ensures o.customer == Some(CustomerView(None, Some(DemoAddress)))
  {
    OrderView(Some(OrElse(trackingId, DemoTrackingId)), Some("Out for Delivery"),
              Some(CustomerView(None, Some(DemoAddress))), None, None, None, None)
  }

  /** The initial fetch: `response` is `None` when the request failed. Either
      way the page stops loading and shows an order. */
  function OnFetch(s: PageState, trackingId: Option<string>, response: Option<OrderView>): (r: PageState)
    ensures !r.loading && r.order.Some?
    ensures response.Some? ==> r.order == response
    ensures response.None? ==> r.order == Some(DemoOrder(trackingId))
  {
    PageState(if response.Some? then response else Some(DemoOrder(trackingId)), false)
  }

  /** 'orderUpdated' replaces the whole order object. */
  function OnOrderUpdated(s: PageState, updated: OrderView): (r: PageState)
    ensures r.order == Some(updated) && r.loading == s.loading
  {
    s.(order := Some(updated))
  }

  /** `{ ...current, ...patch }`: each field the patch carries wins. An absent
      current location spreads as nothing. */
  function MergeLocation(current: Option<LocationView>, patch: LocationView): (m: LocationView)
    ensures patch.lat.Some? ==> m.lat == patch.lat
    ensures patch.lng.Some? ==> m.lng == patch.lng
    ensures patch.address.Some? ==> m.address == patch.address
    ensures patch.lat.None? ==> m.lat == (if current.Some? then current.value.lat else None)
    ensures patch.lng.None? ==> m.lng == (if current.Some? then current.value.lng else None)
    ensures patch.address.None? ==> m.address == (if current.Some? then current.value.address else None)
  {
    var base := current.GetOr(LocationView(None, None, None));
    LocationView(
      if patch.lat.Some? then patch.lat else base.lat,
      if patch.lng.Some? then patch.lng else base.lng,
      if patch.address.Some? then patch.address else base.address)
  }

  /** 'locationUpdate': ignored until an order is shown; otherwise only the
      location changes. */
  function OnLocationUpdate(s: PageState, patch: LocationView): (r: PageState)
    ensures s.order.None? ==> r == s
    ensures s.order.Some? ==>
      && r.order.Some? && r.loading == s.loading
      && r.order.value == s.order.value.(currentLocation := Some(MergeLocation(s.order.value.currentLocation, patch)))
  {
    if s.order.None? then s
    else s.(order := Some(s.order.value.(currentLocation := Some(MergeLocation(s.order.value.currentLocation, patch)))))
  }

  /** A location update never moves the progress steps. */
  lemma LocationUpdateKeepsSteps(s: PageState, patch: LocationView)
    ensures CurrentStepIndex(OnLocationUpdate(s, patch).order) == CurrentStepIndex(s.order)
  {
  }

  /** Receiving the same location twice is the same as receiving it once, and
      of two updates the later one wins on every field it carries. */
  lemma MergeLaterWins(current: Option<LocationView>, p: LocationView, q: LocationView)
    ensures MergeLocation(Some(MergeLocation(current, p)), p) == MergeLocation(current, p)
    ensures MergeLocation(Some(MergeLocation(current, p)), q) ==
      MergeLocation(current, LocationView(
        if q.lat.Some? then q.lat else p.lat,
        if q.lng.Some? then q.lng else p.lng,
        if q.address.Some? then q.address else p.address))
  {
  }
}
