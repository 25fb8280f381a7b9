/** The order routes: create, look up by tracking id, and update the status.
    The collection is a map from tracking id to order (the unique index makes
    the id a key); the events broadcast to every connected client are kept in
    an outbox, in emission order. */
module OrderRoutes {
  import opened Common
  import opened OrderModel

  /** The three fields that the create handler reads from the body; anything
      else in the body (a status, items, a customer id) is ignored. */
  datatype CreateRequest = CreateRequest(
    customer: Option<Customer>,
    trackingId: Option<string>,
    initialLocation: Option<Location>)

  /** The body of a status update. A location object that is present counts as
      supplied, whatever fields it has. */
  datatype StatusRequest = StatusRequest(status: Option<string>, location: Option<Location>)

  datatype Reply = Created(order: Order) | Found(order: Order) | Updated(order: Order) | NotFound | ServerError

  function HttpStatus(r: Reply): (code: int)
    ensures r.Created? <==> code == 201
    ensures (r.Found? || r.Updated?) <==> code == 200
    ensures r.NotFound? <==> code == 404
    ensures r.ServerError? <==> code == 500
  {
    match r
    case Created(_) => 201
    case Found(_) => 200
    case Updated(_) => 200
    case NotFound => 404
    case ServerError => 500
  }

  /** `io.emit('orderUpdated', order)`: sent to every connected client. */
  datatype Event = OrderUpdated(order: Order)

  const DefaultHistoryLocation: string := "Warehouse"

  /** `initialLocation?.address || 'Warehouse'`. */
  function CreationLabel(initial: Option<Location>): (text: string)
    ensures text != ""
    ensures initial.Some? && Truthy(initial.value.address) ==> text == initial.value.address.value
    ensures !(initial.Some? && Truthy(initial.value.address)) ==> text == DefaultHistoryLocation
  {
    if initial.Some? then OrElse(initial.value.address, DefaultHistoryLocation) else DefaultHistoryLocation
  }

  /** What the create handler builds and `save` stores or refuses: the document
      is refused when its tracking id is missing or empty, or already taken. */
  function CreateResult(orders: map<string, Order>, req: CreateRequest, now: nat): (r: Result<Order, SaveError>)
    ensures r.Ok? <==> Truthy(req.trackingId) && req.trackingId.value !in orders
    ensures r.Ok? ==>
      && r.value.trackingId == req.trackingId.value
      && r.value.status == Some(Ordered)
      && r.value.customer == req.customer
      && r.value.currentLocation == req.initialLocation.GetOr(NoLocation)
      && r.value.history == [HistoryEntry(Some(Ordered), Some(CreationLabel(req.initialLocation)), now)]
      && r.value.customerId == None && r.value.deliveryPersonId == None
  {
    var fields := OrderFields(req.trackingId, req.customer, req.initialLocation,
                              [(Some(Ordered), Some(CreationLabel(req.initialLocation)))]);
    match Instantiate(fields, now)
    case Err(e) => Err(e)
    case Ok(order) => if order.trackingId in orders then Err(DuplicateKey) else Ok(order)
  }

  /** The status a request asks for, when it passes the enum check: an absent
      status unsets the field. */
  function RequestedStatus(req: StatusRequest): (r: Result<Option<Status>, SaveError>)
    ensures r.Ok? <==> req.status.None? || req.status.value in StatusEnum
    ensures r.Ok? && req.status.Some? ==> r.value.Some? && StatusName(r.value.value) == req.status.value
    ensures r.Ok? && req.status.None? ==> r.value.None?
  {
    match req.status
    case None => Ok(None)
    case Some(name) =>
      match ParseStatus(name)
      case None => Err(ValidationError)
      case Some(s) => Ok(Some(s))
  }

  /** The update applied to a loaded order, as `save` would store it. There is
      no check against the previous status; the location is replaced only when
      one is supplied; exactly one entry is appended, labelled with the
      supplied address, else the address the order already had. */
  function ApplyStatus(o: Order, req: StatusRequest, now: nat): (r: Result<Order, SaveError>)
    ensures r.Ok? <==> req.status.None? || req.status.value in StatusEnum
    ensures r.Ok? ==>
      && r.value.status == RequestedStatus(req).value
      && r.value.currentLocation == (if req.location.Some? then req.location.value else o.currentLocation)
      && r.value.history == o.history + [HistoryEntry(r.value.status, r.value.currentLocation.address, now)]
      && r.value.trackingId == o.trackingId && r.value.customer == o.customer
      && r.value.customerId == o.customerId && r.value.deliveryPersonId == o.deliveryPersonId
      && r.value.createdAt == o.createdAt
  {
    match RequestedStatus(req)
    case Err(e) => Err(e)
    case Ok(status) =>
      var location := if req.location.Some? then req.location.value else o.currentLocation;
      var entry := HistoryEntry(status, if req.location.Some? then req.location.value.address else o.currentLocation.address, now);
      Ok(o.(status := status, currentLocation := location, history := o.history + [entry]))
  }

  /** Moving backwards is accepted: a delivered order can be set back to
      'Ordered'. */
  lemma BackwardMoveAccepted(o: Order, now: nat)
    requires o.status == Some(Delivered)
    ensures ApplyStatus(o, StatusRequest(Some("Ordered"), None), now).Ok?
    ensures ApplyStatus(o, StatusRequest(Some("Ordered"), None), now).value.status == Some(Ordered)
  {
  }

  /** A status update issued at a given time. */
  datatype TimedUpdate = TimedUpdate(req: StatusRequest, at: nat)

  /** The order after a series of updates; a refused update leaves it as it was. */
  function Replay(o: Order, updates: seq<TimedUpdate>): Order
    decreases |updates|
  {
    if |updates| == 0 then o
    else
      var next := ApplyStatus(o, updates[0].req, updates[0].at);
      Replay(if next.Ok? then next.value else o, updates[1..])
  }

  predicate Accepted(u: TimedUpdate) {
    u.req.status.None? || u.req.status.value in StatusEnum
  }

  function AcceptedCount(updates: seq<TimedUpdate>): (n: nat)
    ensures n <= |updates|
  {
    if |updates| == 0 then 0
    else (if Accepted(updates[0]) then 1 else 0) + AcceptedCount(updates[1..])
  }

  /** The history is append-only: after any series of updates the old entries
      are still there, in place, and exactly one entry was added per accepted
      update. */
  lemma {:induction false} ReplayHistory(o: Order, updates: seq<TimedUpdate>)
    ensures |Replay(o, updates).history| == |o.history| + AcceptedCount(updates)
    ensures Replay(o, updates).history[..|o.history|] == o.history
    ensures Replay(o, updates).trackingId == o.trackingId
    decreases |updates|
  {
    if |updates| > 0 {
      var next := ApplyStatus(o, updates[0].req, updates[0].at);
      var o' := if next.Ok? then next.value else o;
      ReplayHistory(o', updates[1..]);
      assert Replay(o, updates) == Replay(o', updates[1..]);
      assert o'.history[..|o.history|] == o.history;
      assert Replay(o, updates).history[..|o.history|] == Replay(o', updates[1..]).history[..|o'.history|][..|o.history|];
    }
  }

  /** A created order's history holds its creation entry plus one entry per
      accepted update, and the creation entry stays first. */
  lemma CreatedThenUpdated(orders: map<string, Order>, req: CreateRequest, now: nat, updates: seq<TimedUpdate>)
    requires CreateResult(orders, req, now).Ok?
    ensures var o := CreateResult(orders, req, now).value;
      |Replay(o, updates).history| == 1 + AcceptedCount(updates) &&
      Replay(o, updates).history[0] == HistoryEntry(Some(Ordered), Some(CreationLabel(req.initialLocation)), now)
  {
    var o := CreateResult(orders, req, now).value;
    ReplayHistory(o, updates);
    assert Replay(o, updates).history[0] == Replay(o, updates).history[..|o.history|][0];
  }

  /** The order collection and the broadcast outbox. */
  class OrderStore {
    var orders: map<string, Order>
    var outbox: seq<Event>

    /** Every stored order sits under its own tracking id, which is non-empty,
        and has at least its creation entry. */
    ghost predicate Valid()
      reads this
    {
      forall id :: id in orders ==> orders[id].trackingId == id && id != "" && |orders[id].history| >= 1
    }

    constructor ()
      ensures Valid()
      ensures orders == map[] && outbox == []
    {
      orders := map[];
      outbox := [];
    }

    /** POST /: stores the new order and answers 201, or answers 500 and
        stores nothing. Creation emits no event. */
    method Create(req: CreateRequest, now: nat) returns (reply: Reply)
      requires Valid()
      modifies this
      ensures Valid()
      ensures outbox == old(outbox)
      ensures var res := CreateResult(old(orders), req, now);
        if res.Ok? then reply == Created(res.value) && orders == old(orders)[res.value.trackingId := res.value]
        else reply == ServerError && orders == old(orders)
    {
      var res := CreateResult(orders, req, now);
      if res.Ok? {
        orders := orders[res.value.trackingId := res.value];
        reply := Created(res.value);
      } else {
        reply := ServerError;
      }
    }

    /** GET /:trackingId. */
    method Get(trackingId: string) returns (reply: Reply)
      ensures trackingId in orders ==> reply == Found(orders[trackingId])
      ensures trackingId !in orders ==> reply == NotFound
    {
      if trackingId in orders {
        reply := Found(orders[trackingId]);
      } else {
        reply := NotFound;
      }
    }

    /** PUT /:trackingId/status: 404 for an unknown id; 500 when `save`
        refuses the status, leaving the stored order as it was and emitting
        nothing; otherwise the order is replaced by the updated one and one
        'orderUpdated' event carrying it is emitted after the save. */
    method UpdateStatus(trackingId: string, req: StatusRequest, now: nat) returns (reply: Reply)
      requires Valid()
      modifies this
      ensures Valid()
      ensures trackingId !in old(orders) ==>
        reply == NotFound && orders == old(orders) && outbox == old(outbox)
      ensures trackingId in old(orders) ==>
        var res := ApplyStatus(old(orders)[trackingId], req, now);
        if res.Ok? then
          reply == Updated(res.value) && orders == old(orders)[trackingId := res.value] &&
          outbox == old(outbox) + [OrderUpdated(res.value)]
        else
          reply == ServerError && orders == old(orders) && outbox == old(outbox)
    {
      if trackingId !in orders {
        reply := NotFound;
        return;
      }
      var res := ApplyStatus(orders[trackingId], req, now);
      if res.Err? {
        reply := ServerError;
        return;
      }
      orders := orders[trackingId := res.value];
      outbox := outbox + [OrderUpdated(res.value)];
      reply := Updated(res.value);
    }
  }

  /** A short run against the store: create, two accepted updates (one of
      them backwards) and a refused one. */
  method Scenario(now: nat)
  {
    var store := new OrderStore();
    var created := store.Create(CreateRequest(None, Some("ORD-1"), None), now);
    assert created.Created? && created.order.history == [HistoryEntry(Some(Ordered), Some("Warehouse"), now)];
    var again := store.Create(CreateRequest(None, Some("ORD-1"), None), now);
    assert again == ServerError;
    var shipped := store.UpdateStatus("ORD-1", StatusRequest(Some("Shipped"), None), now + 1);
    assert shipped.Updated? && |shipped.order.history| == 2;
    var back := store.UpdateStatus("ORD-1", StatusRequest(Some("Ordered"), None), now + 2);
    assert back.Updated? && back.order.status == Some(Ordered);
    var refused := store.UpdateStatus("ORD-1", StatusRequest(Some("Cancelled"), None), now + 3);
    assert refused == ServerError && |store.orders["ORD-1"].history| == 3 && |store.outbox| == 2;
    var missing := store.UpdateStatus("ORD-2", StatusRequest(Some("Packed"), None), now);
    assert missing == NotFound;
  }
}
