/** The order document: its five-value status enum, its defaults, and the shape
    of a history entry. Timestamps are natural numbers supplied by the caller. */
module OrderModel {
  import opened Common

  /** The status enum. There is no cancelled state. */
  datatype Status = Ordered | Packed | Shipped | OutForDelivery | Delivered

  const StatusEnum: seq<string> := ["Ordered", "Packed", "Shipped", "Out for Delivery", "Delivered"]

  function StatusName(s: Status): (name: string)
    ensures name in StatusEnum
  {
    match s
    case Ordered => "Ordered"
    case Packed => "Packed"
    case Shipped => "Shipped"
    case OutForDelivery => "Out for Delivery"
    case Delivered => "Delivered"
  }

  /** The enum check `save` applies to a status string. */
  function ParseStatus(name: string): (r: Option<Status>)
    ensures r.Some? <==> name in StatusEnum
    ensures r.Some? ==> StatusName(r.value) == name
  {
    if name == "Ordered" then Some(Ordered)
    else if name == "Packed" then Some(Packed)
    else if name == "Shipped" then Some(Shipped)
    else if name == "Out for Delivery" then Some(OutForDelivery)
    else if name == "Delivered" then Some(Delivered)
    else None
  }

  /** Each status has exactly one spelling, and every spelling parses back. */
  lemma StatusNameRoundTrip(s: Status)
    ensures ParseStatus(StatusName(s)) == Some(s)
  {
  }

  lemma StatusNameInjective(s: Status, t: Status)
    requires StatusName(s) == StatusName(t)
    ensures s == t
  {
    StatusNameRoundTrip(s);
    StatusNameRoundTrip(t);
  }

  datatype Customer = Customer(name: Option<string>, address: Option<string>, phone: Option<string>)

  /** `{ lat, lng, address }`, each part optional. */
  datatype Location = Location(lat: Option<real>, lng: Option<real>, address: Option<string>)

  /** The nested path of a document whose location was never set. */
  const NoLocation: Location := Location(None, None, None)

  /** A history entry: status, location label, and the time it was added. */
  datatype HistoryEntry = HistoryEntry(status: Option<Status>, location: Option<string>, timestamp: nat)

  /** `status` is `None` when the document holds no status at all, which a
      status update without a status produces (the enum validator lets an
      undefined value through). */
  datatype Order = Order(
    trackingId: string,
    customer: Option<Customer>,
    customerId: Option<string>,
    status: Option<Status>,
    currentLocation: Location,
    deliveryPersonId: Option<string>,
    history: seq<HistoryEntry>,
    createdAt: nat)

  datatype SaveError = ValidationError | DuplicateKey

  /** The fields handed to `new Order({...})`; a history entry is given as its
      status and location only. */
  datatype OrderFields = OrderFields(
    trackingId: Option<string>,
    customer: Option<Customer>,
    currentLocation: Option<Location>,
    history: seq<(Option<Status>, Option<string>)>)

  /** Builds and validates a new document: the required tracking id must be a
      non-empty string; absent fields take the schema defaults. */
  function Instantiate(f: OrderFields, now: nat): (r: Result<Order, SaveError>)
    ensures r.Ok? <==> Truthy(f.trackingId)
    ensures r.Err? ==> r.error == ValidationError
    ensures r.Ok? ==>
      && r.value.trackingId == f.trackingId.value
      && r.value.status == Some(Ordered)
      && r.value.customerId == None && r.value.deliveryPersonId == None
      && r.value.createdAt == now
      && r.value.customer == f.customer
      && r.value.currentLocation == f.currentLocation.GetOr(NoLocation)
      && |r.value.history| == |f.history|
      && forall i :: 0 <= i < |f.history| ==>
           r.value.history[i] == HistoryEntry(f.history[i].0, f.history[i].1, now)
  {
    if !Truthy(f.trackingId) then Err(ValidationError)
    else
      Ok(Order(
        f.trackingId.value,
        f.customer,
        None,
        Some(Ordered),
        f.currentLocation.GetOr(NoLocation),
        None,
        seq(|f.history|, i requires 0 <= i < |f.history| => HistoryEntry(f.history[i].0, f.history[i].1, now)),
        now))
  }
}
