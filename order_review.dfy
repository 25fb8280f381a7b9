/** The checkout page: the bill, the order it sends, and where it navigates
    afterwards. The stored user and the saved delivery address are inputs;
    `None` stands for what `localStorage` does not hold. */
module OrderReview {
  import opened Common
  import opened Cart
  import OrderModel
  import OrderRoutes

  const DeliveryFee: real := 15.0
  const PlatformFee: real := 2.0

  /** `cart.reduce((acc, item) => acc + item.price * item.quantity, 0)`. */
  function Subtotal(cart: seq<CartItem>): (r: real)
    ensures (forall i :: 0 <= i < |cart| ==> cart[i].product.price >= 0.0) ==> r >= 0.0
    ensures (forall i :: 0 <= i < |cart| ==> cart[i].product.price >= 0.0) ==>
      forall i :: 0 <= i < |cart| ==> Line(cart[i]) <= r
  {
    if |cart| == 0 then 0.0 else Line(cart[0]) + Subtotal(cart[1..])
  }

  /** One line of the bill: `item.price * item.quantity`. */
  function Line(item: CartItem): (l: real)
    ensures item.quantity == 1 ==> l == item.product.price
    ensures item.product.price >= 0.0 ==> l >= 0.0
  {
    item.product.price * item.quantity as real
  }

  /** The two fees are always charged: with prices that are not negative the
      total is at least 17. */
  function Total(cart: seq<CartItem>): (t: real)
    ensures (forall i :: 0 <= i < |cart| ==> cart[i].product.price >= 0.0) ==> t >= DeliveryFee + PlatformFee
  {
    Subtotal(cart) + DeliveryFee + PlatformFee
  }

  /** The price an addition adds: the price kept by the item already in the
      cart, or the product's own for a new item. */
  function UnitPrice(cart: seq<CartItem>, p: CatalogItem): (price: real)
    ensures p.id !in Ids(cart) ==> price == p.price
    ensures p.id in Ids(cart) ==> exists i :: 0 <= i < |cart| && cart[i].product.id == p.id && price == cart[i].product.price
  {
    match Find(cart, p.id)
    case Some(item) => item.product.price
    case None => p.price
  }

  lemma {:induction false} SubtotalAppend(cart: seq<CartItem>, x: CartItem)
    ensures Subtotal(cart + [x]) == Subtotal(cart) + Line(x)
  {
    if |cart| > 0 {
      assert (cart + [x])[1..] == cart[1..] + [x];
      SubtotalAppend(cart[1..], x);
    }
  }

  lemma LineAfterBump(item: CartItem)
    ensures Line(item.(quantity := item.quantity + 1)) == Line(item) + item.product.price
  {
  }

  /** Bumping the first item, whose id occurs nowhere else. */
  lemma BumpAtHead(cart: seq<CartItem>, id: string)
    requires DistinctIds(cart)
    requires |cart| > 0 && cart[0].product.id == id
    ensures Subtotal(Bump(cart, id)) == Subtotal(cart) + cart[0].product.price
  {
    var head := cart[0];
    assert id !in Ids(cart[1..]) by {
      forall k | 0 <= k < |cart| - 1 ensures Ids(cart[1..])[k] != id {
        assert cart[1..][k] == cart[k + 1];
      }
    }
    assert Bump(cart, id)[1..] == Bump(cart[1..], id) == cart[1..];
    assert Bump(cart, id)[0] == head.(quantity := head.quantity + 1);
    LineAfterBump(head);
  }

  /** Bumping past a first item with another id adds what bumping the rest
      adds. */
  lemma BumpPastHead(cart: seq<CartItem>, id: string, added: real)
    requires |cart| > 0 && cart[0].product.id != id
    requires Subtotal(Bump(cart[1..], id)) == Subtotal(cart[1..]) + added
    ensures Subtotal(Bump(cart, id)) == Subtotal(cart) + added
  {
    var bumped := Bump(cart, id);
    assert bumped[1..] == Bump(cart[1..], id);
    assert bumped[0] == cart[0];
  }

  lemma {:induction false} SubtotalBump(cart: seq<CartItem>, id: string)
    requires DistinctIds(cart)
    requires id in Ids(cart)
    ensures Subtotal(Bump(cart, id)) == Subtotal(cart) + Find(cart, id).value.product.price
  {
    if cart[0].product.id == id {
      BumpAtHead(cart, id);
    } else {
      assert id in Ids(cart[1..]) by {
        var k :| 0 <= k < |cart| && Ids(cart)[k] == id;
        assert Ids(cart[1..])[k - 1] == id;
      }
      assert DistinctIds(cart[1..]);
      SubtotalBump(cart[1..], id);
      assert Find(cart, id) == Find(cart[1..], id);
      BumpPastHead(cart, id, Find(cart, id).value.product.price);
    }
  }

  /** Adding a product raises the bill by exactly one unit price. */
  lemma TotalAfterAdd(cart: seq<CartItem>, p: CatalogItem)
    requires DistinctIds(cart)
    ensures Total(AddToCart(cart, p)) == Total(cart) + UnitPrice(cart, p)
  {
    if p.id in Ids(cart) {
      SubtotalBump(cart, p.id);
    } else {
      SubtotalAppend(cart, CartItem(p, 1));
    }
  }

  /** An empty cart shows the empty state, which has no place-order button. */
  datatype Screen = EmptyCart | Checkout(itemLines: nat, total: real)

  function ScreenFor(cart: seq<CartItem>): (s: Screen)
    ensures s.EmptyCart? <==> |cart| == 0
    ensures s.Checkout? ==> s.itemLines == |cart| && s.total == Subtotal(cart) + 17.0
  {
    if |cart| == 0 then EmptyCart else Checkout(|cart|, Total(cart))
  }

  /** The parsed `user` entry: `_id` or `id`, and a name. */
  datatype StoredUser = StoredUser(mongoId: Option<string>, id: Option<string>, name: Option<string>)

  const GuestName: string := "Guest User"
  const DefaultDeliveryAddress: string := "123, Green Street, Tech City"
  const DarkStoreLat: real := 28.6139
  const DarkStoreLng: real := 77.2090
  const DarkStoreAddress: string := "Dark Store #1"

  datatype OrderPayload = OrderPayload(
    trackingId: string,
    customerId: Option<string>,
    customerName: string,
    customerAddress: string,
    initialLocation: OrderModel.Location,
    items: seq<CartItem>)

  /** The body of the POST. With no stored user, reading `user._id` throws
      before anything is sent (`None`). */
  function Payload(user: Option<StoredUser>, deliveryAddress: Option<string>, cart: seq<CartItem>, now: nat): (r: Option<OrderPayload>)
    ensures r.Some? <==> user.Some?
    ensures r.Some? ==>
      && r.value.trackingId == TimestampId(now)
      && r.value.items == cart
      && r.value.customerId == (if Truthy(user.value.mongoId) then user.value.mongoId else user.value.id)
      && (Truthy(user.value.name) ==> r.value.customerName == user.value.name.value)
      && (!Truthy(user.value.name) ==> r.value.customerName == GuestName)
      && (Truthy(deliveryAddress) ==> r.value.customerAddress == deliveryAddress.value)
      && (!Truthy(deliveryAddress) ==> r.value.customerAddress == DefaultDeliveryAddress)
      && r.value.initialLocation == OrderModel.Location(Some(DarkStoreLat), Some(DarkStoreLng), Some(DarkStoreAddress))
  {
    match user
    case None => None
    case Some(u) =>
      Some(OrderPayload(
        TimestampId(now),
        if Truthy(u.mongoId) then u.mongoId else u.id,
        OrElse(u.name, GuestName),
        OrElse(deliveryAddress, DefaultDeliveryAddress),
        OrderModel.Location(Some(DarkStoreLat), Some(DarkStoreLng), Some(DarkStoreAddress)),
        cart))
  }

  /** What the server's create handler reads from the payload: customer,
      tracking id and initial location. The customer id and the items are
      dropped. */
  function AsCreateRequest(p: OrderPayload): (req: OrderRoutes.CreateRequest)
    ensures req.customer == Some(OrderModel.Customer(Some(p.customerName), Some(p.customerAddress), None))
    ensures req.trackingId == Some(p.trackingId)
    ensures req.initialLocation == Some(p.initialLocation)
  {
    OrderRoutes.CreateRequest(
      Some(OrderModel.Customer(Some(p.customerName), Some(p.customerAddress), None)),
      Some(p.trackingId),
      Some(p.initialLocation))
  }

  /** The server stores a placed order unless its id is already taken; the
      stored order starts 'Ordered' at the dark store, whose address labels
      its first history entry. */
  lemma PlacedOrderAccepted(orders: map<string, OrderModel.Order>, user: Option<StoredUser>,
                            deliveryAddress: Option<string>, cart: seq<CartItem>, now: nat, at: nat)
    requires user.Some?
    ensures var p := Payload(user, deliveryAddress, cart, now).value;
      var res := OrderRoutes.CreateResult(orders, AsCreateRequest(p), at);
      (res.Ok? <==> TimestampId(now) !in orders) &&
      (res.Ok? ==> res.value.status == Some(OrderModel.Ordered) &&
                   res.value.history == [OrderModel.HistoryEntry(Some(OrderModel.Ordered), Some(DarkStoreAddress), at)])
  {
  }

  /** Where the page goes after a placement attempt, and the spinner state. */
  datatype Outcome = Outcome(navigateTo: string, loading: bool)

  const TrackPrefix: string := "/track/"

  /** `response` is the tracking id in the server's reply, `None` when the
      request failed; `retryNow` is the time read in the failure branch.
      Whatever happens, the page ends on a tracking page and stops loading. */
  function PlaceOrder(user: Option<StoredUser>, deliveryAddress: Option<string>, cart: seq<CartItem>,
                      now: nat, response: Option<string>, retryNow: nat): (r: Outcome)
    ensures !r.loading
    ensures user.Some? && response.Some? ==> r.navigateTo == TrackPrefix + response.value
    ensures !(user.Some? && response.Some?) ==> r.navigateTo == TrackPrefix + TimestampId(retryNow)
  {
    match Payload(user, deliveryAddress, cart, now)
    case None => Outcome(TrackPrefix + TimestampId(retryNow), false)
    case Some(_) =>
      if response.Some? then Outcome(TrackPrefix + response.value, false)
      else Outcome(TrackPrefix + TimestampId(retryNow), false)
  }
}
