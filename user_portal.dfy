/** The customer portal: the seven-step status timeline, the cancel rule, the
    live updates of the active order, placing and cancelling an order, the
    login guard and the location shown on the map. Request outcomes are
    inputs: `None` is a request that failed. */
module UserPortal {
  import opened Common
  import opened PortalOrders

  const StatusLabels: seq<string> :=
    ["PLACED", "ASSIGNED", "ACCEPTED", "PACKING", "OUT_FOR_DELIVERY", "DELIVERED", "CANCELLED"]

  /** `statusLabels.indexOf(status)`; a missing status is never found. */
  function StatusIndex(status: Option<string>): (i: int)
    ensures -1 <= i < |StatusLabels|
    ensures i == -1 <==> status.None? || status.value !in StatusLabels
    ensures 0 <= i ==> status.Some? && StatusLabels[i] == status.value
  {
    if status.None? then -1 else IndexOf(StatusLabels, status.value)
  }

  /** The labels are distinct, so each is found at its own position. */
  lemma LabelPositions()
    ensures forall i :: 0 <= i < |StatusLabels| ==> IndexOf(StatusLabels, StatusLabels[i]) == i
  {
    assert Distinct(StatusLabels);
    forall i | 0 <= i < |StatusLabels| {
      IndexOfDistinct(StatusLabels, i);
    }
  }

  /** The 'done' class of each step:
      `statusLabels.indexOf(s) <= statusLabels.indexOf(activeOrder.status)`. */
  function TimelineDone(status: Option<string>): (done: seq<bool>)
    ensures |done| == |StatusLabels|
    ensures forall i :: 0 <= i < |done| ==> (done[i] <==> i <= StatusIndex(status))
  {
    LabelPositions();
    seq(|StatusLabels|, i requires 0 <= i < |StatusLabels| =>
      IndexOf(StatusLabels, StatusLabels[i]) <= StatusIndex(status))
  }

  /** The done steps always form a prefix of the timeline. */
  lemma DoneIsPrefix(status: Option<string>, i: int, j: int)
    requires 0 <= i <= j < |StatusLabels|
    requires TimelineDone(status)[j]
    ensures TimelineDone(status)[i]
  {
  }

  /** A step is done exactly up to the step naming the status. */
  lemma DoneUpToStatus(status: string, k: int)
    requires 0 <= k < |StatusLabels| && StatusLabels[k] == status
    ensures forall i :: 0 <= i < |StatusLabels| ==> (TimelineDone(Some(status))[i] <==> i <= k)
  {
    LabelPositions();
  }

  /** CANCELLED is the last label, so a cancelled order shows every step done,
      'Delivered' included. */
  lemma CancelledMarksAllDone()
    ensures forall i :: 0 <= i < |StatusLabels| ==> TimelineDone(Some("CANCELLED"))[i]
  {
    DoneUpToStatus("CANCELLED", 6);
  }

  /** A missing or unknown status marks no step done. */
  lemma UnknownMarksNone(status: Option<string>)
    requires status.None? || status.value !in StatusLabels
    ensures forall i :: 0 <= i < |StatusLabels| ==> !TimelineDone(status)[i]
  {
  }

  /** The cancel button is disabled for OUT_FOR_DELIVERY, DELIVERED and
      CANCELLED. */
  function CancelDisabled(status: Option<string>): (disabled: bool)
    ensures disabled <==> status in {Some("OUT_FOR_DELIVERY"), Some("DELIVERED"), Some("CANCELLED")}
  {
    status == Some("OUT_FOR_DELIVERY") || status == Some("DELIVERED") || status == Some("CANCELLED")
  }

  /** Cancel is disabled exactly when the timeline has reached
      OUT_FOR_DELIVERY. */
  lemma CancelDisabledFromOutForDelivery(status: Option<string>)
    ensures CancelDisabled(status) <==> StatusIndex(status) >= 4
  {
    LabelPositions();
    if StatusIndex(status) >= 4 {
      assert StatusLabels[StatusIndex(status)] == status.value;
    }
  }

  // ---------------------------------------------------------------------------
  // Page state

  datatype PortalUser = PortalUser(userId: string, name: string)

  datatype UserState = UserState(user: Option<PortalUser>, active: Option<PortalOrder>, orders: seq<PortalOrder>)

  /** 'order:location' and 'order:status' have the same handler. It is only
      listening while an order is active, and ignores other orders; for the
      active order it replaces the active order and its list entry. */
  function OnOrderEvent(s: UserState, order: PortalOrder): (r: UserState)
    ensures s.active.None? || s.active.value.id != order.id ==> r == s
    ensures s.active.Some? && s.active.value.id == order.id ==>
      r == s.(active := Some(order), orders := ReplaceById(s.orders, order))
    ensures r.user == s.user && |r.orders| == |s.orders|
  {
    if s.active.None? || s.active.value.id != order.id then s
    else s.(active := Some(order), orders := ReplaceById(s.orders, order))
  }

  /** Receiving the same event twice is the same as receiving it once, and an
      event never touches a list entry of another order. */
  lemma OrderEventIdempotent(s: UserState, order: PortalOrder)
    ensures OnOrderEvent(OnOrderEvent(s, order), order) == OnOrderEvent(s, order)
    ensures forall i :: 0 <= i < |s.orders| && s.orders[i].id != order.id ==>
      OnOrderEvent(s, order).orders[i] == s.orders[i]
  {
    if s.active.Some? && s.active.value.id == order.id {
      ReplaceIdempotent(s.orders, OrderId, order);
    }
  }

  /** The body of `POST /api/orders`; nothing is sent before login. */
  datatype PlaceBody = PlaceBody(userId: string, pickupLocation: Point, dropLocation: Point)

  function PlaceRequest(s: UserState, pickup: Point, drop: Point): (body: Option<PlaceBody>)
    ensures body.None? <==> s.user.None?
    ensures body.Some? ==> body.value == PlaceBody(s.user.value.userId, pickup, drop)
  {
    if s.user.None? then None else Some(PlaceBody(s.user.value.userId, pickup, drop))
  }

  /** The reply to placing an order: the new order goes first in the list and
      becomes the active one. */
  function OnPlaced(s: UserState, response: Option<PortalOrder>): (r: UserState)
    ensures s.user.None? || response.None? ==> r == s
    ensures s.user.Some? && response.Some? ==>
      && r.orders == [response.value] + s.orders
      && r.active == response && r.user == s.user
  {
    if s.user.None? || response.None? then s
    else s.(orders := [response.value] + s.orders, active := response)
  }

  /** The reply to a cancel request replaces the active order and the list
      entry with the same id. */
  function OnCancelled(s: UserState, response: Option<PortalOrder>): (r: UserState)
    ensures s.active.None? || response.None? ==> r == s
    ensures s.active.Some? && response.Some? ==>
      && r.active == response && r.user == s.user
      && |r.orders| == |s.orders|
      && forall i :: 0 <= i < |s.orders| ==>
           r.orders[i] == (if s.orders[i].id == response.value.id then response.value else s.orders[i])
  {
    if s.active.None? || response.None? then s
    else s.(active := response, orders := ReplaceById(s.orders, response.value))
  }

  /** A placed order is live at once: an event for it reaches both the active
      order and the list's first entry. */
  lemma PlacedOrderReceivesEvents(s: UserState, placed: PortalOrder, update: PortalOrder)
    requires s.user.Some? && update.id == placed.id
    ensures var r := OnOrderEvent(OnPlaced(s, Some(placed)), update);
      r.active == Some(update) && r.orders[0] == update
  {
  }

  // ---------------------------------------------------------------------------
  // Login

  /** What `String.prototype.trim` removes: white space and line terminators. */
  predicate IsJsWhitespace(c: char) {
    var n := c as int;
    (0x09 <= n <= 0x0D) || n == 0x20 || n == 0xA0 || n == 0x1680
    || (0x2000 <= n <= 0x200A) || n == 0x2028 || n == 0x2029 || n == 0x202F
    || n == 0x205F || n == 0x3000 || n == 0xFEFF
  }

  function TrimStart(s: string): (r: string)
    ensures |r| <= |s| && r == s[|s| - |r|..]
    ensures forall i :: 0 <= i < |s| - |r| ==> IsJsWhitespace(s[i])
    ensures |r| == 0 || !IsJsWhitespace(r[0])
  {
    if |s| > 0 && IsJsWhitespace(s[0]) then TrimStart(s[1..]) else s
  }

  function TrimEnd(s: string): (r: string)
    ensures |r| <= |s| && r == s[..|r|]
    ensures forall i :: |r| <= i < |s| ==> IsJsWhitespace(s[i])
    ensures |r| == 0 || !IsJsWhitespace(r[|r| - 1])
  {
    if |s| > 0 && IsJsWhitespace(s[|s| - 1]) then TrimEnd(s[..|s| - 1]) else s
  }

  /** What is left between the leading and the trailing white space. */
  function Trim(s: string): (r: string)
    ensures var k := |s| - |TrimStart(s)|;
      && k + |r| <= |s| && r == s[k..k + |r|]
      && (forall i :: 0 <= i < k ==> IsJsWhitespace(s[i]))
      && (forall i :: k + |r| <= i < |s| ==> IsJsWhitespace(s[i]))
    ensures |r| == 0 || (!IsJsWhitespace(r[0]) && !IsJsWhitespace(r[|r| - 1]))
  {
    TrimTail(s, TrimStart(s));
    TrimEnd(TrimStart(s))
  }

  /** White space trimmed off the end of a suffix `t` of `s` is white space
      at the end of `s`. */
  lemma TrimTail(s: string, t: string)
    requires |t| <= |s| && t == s[|s| - |t|..]
    ensures var k := |s| - |t|;
      forall i :: k + |TrimEnd(t)| <= i < |s| ==> IsJsWhitespace(s[i])
  {
    var k := |s| - |t|;
    var r := TrimEnd(t);
    forall i | k + |r| <= i < |s| ensures IsJsWhitespace(s[i]) {
      assert s[i] == t[i - k];
    }
  }

  /** `!name.trim()` holds exactly for a name made only of white space. */
  lemma TrimEmptyIffBlank(s: string)
    ensures Trim(s) == "" <==> forall i :: 0 <= i < |s| ==> IsJsWhitespace(s[i])
  {
  }

  /** `handleLogin` sends the login request only for a name with a character
      that is not white space. */
  function LoginRequested(name: string): (sent: bool)
    ensures sent <==> exists i :: 0 <= i < |name| && !IsJsWhitespace(name[i])
  {
    TrimEmptyIffBlank(name);
    Trim(name) != ""
  }

  // ---------------------------------------------------------------------------
  // Map

  /** `activeOrder?.currentLocation || activeOrder?.pickupLocation || pickup`. */
  function ShownLocation(active: Option<PortalOrder>, pickup: Point): (p: Point)
    ensures active.None? ==> p == pickup
    ensures active.Some? && active.value.currentLocation.Some? ==> p == active.value.currentLocation.value
    ensures active.Some? && active.value.currentLocation.None? && active.value.pickupLocation.Some? ==>
      p == active.value.pickupLocation.value
    ensures active.Some? && active.value.currentLocation.None? && active.value.pickupLocation.None? ==> p == pickup
  {
    if active.None? then pickup
    else FirstPresent(active.value.currentLocation, active.value.pickupLocation, pickup)
  }
}
