# Real-time order tracking and delivery portal — a Dafny model

This project models the core of a delivery-tracking web application. The
server side is an Express/Mongoose back end. It has:

- an order collection with a five-value status enum, and routes to create an
  order, look it up and update its status; each update broadcasts an
  'orderUpdated' event;
- a product catalogue whose create route checks the required fields before
  the schema validates them;
- a delivery simulator that moves an order in 100 steps and emits an update
  per step;
- geo helpers: the 3 km delivery radius, plus-code decoding and routing
  replies.

The client side is a set of React pages. The model covers:

- the cart and the checkout bill;
- the page frame and the route guard;
- the customer tracking page and its history timeline;
- the admin and rider dashboards and the payment verification page;
- the customer and admin portals of the second front end.

Each source file is one Dafny module. The model takes the form of the code:

- Pure request handling and page logic are functions over datatypes.
- The stored collections are classes. `OrderRoutes.OrderStore`,
  `ProductRoutes.ProductCatalog` and `Simulation.Simulator` hold their
  collection in a `map` or `seq` field. Their methods change it in place and
  append the events they broadcast to an outbox.
- React state updates are functions from the old page state to the new one.

What the code does outside the model is an input. The results of HTTP
requests, the time (`Date.now()`, a `nat`), the browser's geolocation and
the open-location-code library appear as parameters. `None` stands for a
failed request or a missing value.

Shared modules:

- `Common` holds `Option`/`Result`, JavaScript truthiness, `indexOf`,
  replace-by-id, `filter`, the stable newest-first sort, the decimal
  rendering of a timestamp and the `ORD-` id made from it.
- `ClientOrders` is the order object as the React pages receive it.
- `PortalOrders` is the order object of the portal pages.

## Model

| member | source | states |
|---|---|---|
| Common.Truthy | client/src/pages/TrackingPage.jsx:63 | an absent value and the empty string are falsy; every other string is truthy |
| Common.OrElse | client/src/pages/TrackingPage.jsx:63 | `s || fallback` gives the string when it is truthy and the fallback otherwise, so a non-empty fallback never yields '' |
| Common.IndexOf | client/src/pages/TrackingPage.jsx:63 | `indexOf` is -1 exactly when the value is absent, and otherwise the first position holding it |
| Common.IndexOfDistinct | server/client/src/pages/UserPortal.jsx:192 | in a list without repeats each element is found at its own position |
| Common.ReplaceByKey | server/client/src/pages/UserPortal.jsx:47-48 | the `map` replacement puts the new object exactly at the entries with its key and leaves every other entry in place |
| Common.ReplaceKeepsKeys | server/client/src/pages/AdminPortal.jsx:39-41 | replacing by key never changes the list of keys |
| Common.ReplaceIdempotent | server/client/src/pages/AdminPortal.jsx:39-41 | receiving the same update twice equals receiving it once |
| Common.ReplaceAbsentKey | server/client/src/pages/AdminPortal.jsx:39-41 | an update for an id not in the list leaves the list unchanged |
| Common.Filter | client/src/pages/RiderDashboard.jsx:42 | every kept element passes the test; each element that passes is kept exactly as many times as it occurs in the list, and nothing else is |
| Common.FilterAppend | client/src/pages/RiderDashboard.jsx:42 | filtering keeps the list's order: filtering a concatenation concatenates the filtered parts |
| Common.FilterSingle | client/src/pages/RiderDashboard.jsx:42 | a single element is kept exactly when it passes the test |
| Common.SortNewestFirst | client/src/components/TrackingTimeline.jsx:17 | the sorted copy is in non-increasing key order and is a permutation of its input |
| Common.InsertKeepsTies | client/src/components/TrackingTimeline.jsx:17 | inserting an element puts it ahead of every element with the same key and leaves their order alone |
| Common.SortIsStable | client/src/components/TrackingTimeline.jsx:17 | the sort is stable: for every key, the elements with that key keep their input order |
| Common.DecimalRoundTrip | client/src/pages/OrderReviewPage.jsx:21 | the decimal digits of a timestamp read back as the same number |
| Common.DecimalInjective | client/src/pages/OrderReviewPage.jsx:21 | different timestamps render as different digit strings |
| Common.TimestampId | client/src/pages/OrderReviewPage.jsx:21 | the id is 'ORD-' followed by decimal digits |
| Common.TimestampIdInjective | client/src/pages/OrderReviewPage.jsx:21 | different times give different ids |
| Geo.CheckDeliveryRange | server/utils/geo.js:77-83 | allowed exactly when the distance is at most 3000 m; a rejection carries the distance it was given |
| Geo.DeliveryRangeBoundary | server/utils/geo.js:79-82 | 3000 m is allowed and 3001 m is rejected with distance 3001 |
| Geo.DeliveryRangeMonotonic | server/utils/geo.js:79 | any distance nearer than an allowed one is allowed |
| Geo.FullCode | server/utils/geo.js:16-17 | a short code is recovered near the warehouse coordinates; a full code is used as given |
| Geo.DecodePlusCode | server/utils/geo.js:19-45 | a code failing the validity test, or a throwing recovery or decode, yields the single error 'Invalid Plus Code'; success carries the area's centre and the label 'Plus Code: ' plus the code as supplied |
| Geo.ShortCodeDecodesAsRecovered | server/utils/geo.js:27-39 | a valid short code decodes to the same position as the full code recovered for it; only the label differs |
| Geo.RequestWaypoints | server/utils/geo.js:50-53 | the request names origin then destination, each longitude first |
| Geo.ConvertGeometry | server/utils/geo.js:67 | each [lng, lat] pair becomes {lat, lng}, with length and order kept |
| Geo.ConvertGeometryAppend | server/utils/geo.js:67 | converting a concatenation equals concatenating the conversions |
| Geo.RequestRoundTrip | server/utils/geo.js:50-53 | converting the request's own waypoints gives back origin and destination |
| Geo.ParseRouteResponse | server/utils/geo.js:57-74 | a failed request, a code other than 'Ok', or no routes yields the error 'Failed to find route'; otherwise the first route's distance and duration pass through and its geometry is converted |
| OrderModel.StatusName | server/models/Order.js:19-23 | every status is spelled as one of the five enum values |
| OrderModel.ParseStatus | server/models/Order.js:21 | the enum check accepts exactly the five values, and parsing inverts the spelling |
| OrderModel.StatusNameRoundTrip | server/models/Order.js:21 | each status parses back from its own spelling |
| OrderModel.StatusNameInjective | server/models/Order.js:21 | no two statuses share a spelling |
| OrderModel.Instantiate | server/models/Order.js:3-46 | a document is built exactly when the required tracking id is a non-empty string. It then has status 'Ordered', null customer and rider ids, and the creation time on the document and on each history entry |
| OrderRoutes.HttpStatus | server/routes/orders.js:17-19 | 201 for created, 200 for found or updated, 404 for not found, 500 for a server error |
| OrderRoutes.CreationLabel | server/routes/orders.js:14 | the first entry's location is the initial address when that is non-empty, else 'Warehouse' |
| OrderRoutes.CreateResult | server/routes/orders.js:9-20 | creation succeeds exactly when the tracking id is present, non-empty and unused. The new order starts 'Ordered' at the initial location, with one history entry |
| OrderRoutes.RequestedStatus | server/routes/orders.js:47-51 | a status passes the enum check exactly when it is absent or one of the five values |
| OrderRoutes.ApplyStatus | server/routes/orders.js:51-59 | an update is saved exactly when its status passes the enum check. It sets the status with no check on the previous one, replaces the location only when one is supplied, appends one history entry with the new location's address, and leaves every other field unchanged |
| OrderRoutes.BackwardMoveAccepted | server/routes/orders.js:51 | a delivered order can be set back to 'Ordered' |
| OrderRoutes.AcceptedCount | server/routes/orders.js:59 | at most one accepted update per update sent |
| OrderRoutes.ReplayHistory | server/routes/orders.js:54-57 | over any series of updates the old history stays as a prefix, one entry is added per accepted update, and the tracking id is kept |
| OrderRoutes.CreatedThenUpdated | server/routes/orders.js:13-14 | a created order's history is its creation entry followed by one entry per accepted update |
| OrderRoutes.OrderStore.constructor | server/routes/orders.js:5 | the store starts empty, with no event sent |
| OrderRoutes.OrderStore.Create | server/routes/orders.js:7-21 | a created order is stored under its id with reply 201; a refused one stores nothing and answers 500; no event is sent |
| OrderRoutes.OrderStore.Get | server/routes/orders.js:34-42 | a known id answers the stored order; an unknown id answers 404 |
| OrderRoutes.OrderStore.UpdateStatus | server/routes/orders.js:45-68 | an unknown id answers 404 and a refused status 500, both changing nothing and sending nothing. Otherwise the updated order is stored and exactly one 'orderUpdated' event carrying it is sent |
| Simulation.TickLabel | server/services/simulation.js:38 | a tick reads 'Arriving' exactly after step 80, else 'Out for Delivery' |
| Simulation.TickEvent | server/services/simulation.js:32-42 | a step's update goes to the order's own room, names the step reached, reads 'Arriving' exactly after step 80 and never 'Delivered' |
| Simulation.StepEvents | server/services/simulation.js:28-48 | a tick emits the update for the next step to the order's room, and a 'Delivered' copy when that step is the 100th |
| Simulation.TicksBetween | server/services/simulation.js:27-42 | the updates between two counter values, one per step in step order |
| Simulation.RunFrom | server/services/simulation.js:27-49 | the rest of a run from counter k: 100 - k step updates in step order, none 'Delivered', then one 'Delivered' at step 100, all to the order's room |
| Simulation.RunFromUnfold | server/services/simulation.js:27-49 | the rest of a run is the next tick's events followed by the run after it |
| Simulation.FullRun | server/services/simulation.js:18-47 | a full run emits 100 updates, exactly the last 20 'Arriving', then one 'Delivered'; all go to the order's own room |
| Simulation.Simulator.constructor | server/services/simulation.js:2 | the registry starts empty, with nothing emitted |
| Simulation.Simulator.Start | server/services/simulation.js:4-7 | a running id is left alone; a new one is registered with counter 0; other entries are untouched and nothing is emitted |
| Simulation.Simulator.Tick | server/services/simulation.js:27-48 | the counter rises by one and the step's events are emitted; at step 100 the entry is removed |
| Simulation.Simulator.DriveToCompletion | server/services/simulation.js:27-49 | ticking until the interval clears emits exactly the rest of the run and removes only that id |
| ProductSchema.CastRequiredNumber | server/models/Product.js:8-11 | the Number cast keeps numbers, turns booleans into 1 or 0, parses non-empty strings, and refuses null, the empty string and objects |
| ProductSchema.CastString | server/models/Product.js:12-19 | the String cast keeps strings, writes out numbers and booleans, keeps null and refuses objects |
| ProductSchema.CastRequiredString | server/models/Product.js:4-7 | a required String field must cast to a non-empty string |
| ProductSchema.CategoryOf | server/models/Product.js:20-23 | an absent category takes 'General'; null stays null; anything else goes through the String cast |
| ProductSchema.Validate | server/models/Product.js:3-28 | a document is stored exactly when the four required fields are present and cast and the category casts. It holds the cast values and the creation time |
| ProductSchema.WellTypedFieldsStored | server/models/Product.js:20-27 | well-typed fields are stored as given, with category 'General' |
| ProductRoutes.HttpStatus | server/routes/products.js:20-35 | 201 exactly for a created product, 400 otherwise |
| ProductRoutes.HasRequiredFields | server/routes/products.js:19 | the check passes only when name, price, weight and image are all present; a price of 0 or an empty name fails it |
| ProductRoutes.CreateReply | server/routes/products.js:17-36 | 400 'All fields … are required' exactly when one of the four fields is falsy. Otherwise 201 with the validated product exactly when validation succeeds, else 400 |
| ProductRoutes.MissingFieldsBeforeCasts | server/routes/products.js:19-23 | the presence check's refusal does not depend on the casts |
| ProductRoutes.ZeroPriceRefused | server/routes/products.js:19 | a price of 0 is refused by the presence check although the cast accepts it |
| ProductRoutes.CategoryPassedThrough | server/routes/products.js:17 | an absent category is stored as 'General', a string as given and null as null |
| ProductRoutes.ProductCatalog.constructor | server/routes/products.js:1-3 | the catalogue starts empty |
| ProductRoutes.ProductCatalog.Create | server/routes/products.js:16-37 | a created product is appended; a refused request changes nothing |
| ProductRoutes.ProductCatalog.List | server/routes/products.js:5-13 | the listing holds every stored product as often as stored, newest createdAt first |
| ClientOrders.ReplaceByTrackingId | client/src/pages/AdminPage.jsx:45 | the entries with the same tracking id become the update and the others stay |
| ClientOrders.ToView | server/routes/orders.js:38 | the JSON of a stored order has its tracking id, the spelling of its status and its rider, and never a payment field |
| Cart.Ids | client/src/App.jsx:18 | the ids of the cart, position by position |
| Cart.Find | client/src/App.jsx:18 | an item is found exactly when its id is in the cart, and the found item has that id |
| Cart.Bump | client/src/App.jsx:20 | the item with the id gains one unit and every other item is unchanged |
| Cart.AddToCart | client/src/App.jsx:16-23 | a known id gains one unit in place; a new id is appended with quantity 1; no existing item moves or changes product |
| Cart.AddKeepsIdsDistinct | client/src/App.jsx:18-22 | ids stay pairwise distinct and the existing ids keep their order |
| Cart.AddAll | client/src/App.jsx:16-23 | any sequence of additions from an empty cart leaves distinct ids |
| Cart.CartCount | client/src/App.jsx:29 | the badge is at least the quantity of each item, and at least the number of items when each has a quantity |
| Cart.CountAppend | client/src/App.jsx:29 | appending an item adds its quantity to the count |
| Cart.CountBump | client/src/App.jsx:20-29 | bumping an id in the cart adds one to the count |
| Cart.CountAfterAdd | client/src/App.jsx:16-29 | every addition raises the navbar count by exactly one |
| Cart.CountIsAdditions | client/src/App.jsx:16-29 | the count equals the number of additions made |
| OrderReview.Line | client/src/pages/OrderReviewPage.jsx:10 | a line of one unit costs the price, and a line at a non-negative price is non-negative |
| OrderReview.Subtotal | client/src/pages/OrderReviewPage.jsx:10 | with non-negative prices the subtotal is non-negative and at least every single line's price times quantity |
| OrderReview.UnitPrice | client/src/pages/OrderReviewPage.jsx:10 | an addition is billed at the price kept in the cart for a known id, else at the product's own price |
| OrderReview.SubtotalAppend | client/src/pages/OrderReviewPage.jsx:10 | appending an item adds its price times quantity |
| OrderReview.LineAfterBump | client/src/pages/OrderReviewPage.jsx:10 | one more unit adds one price to a line |
| OrderReview.SubtotalBump | client/src/pages/OrderReviewPage.jsx:10 | bumping an item raises the subtotal by its price |
| OrderReview.TotalAfterAdd | client/src/pages/OrderReviewPage.jsx:10-13 | adding a product raises the total by exactly one unit price |
| OrderReview.Total | client/src/pages/OrderReviewPage.jsx:10-13 | with non-negative prices the total is at least the 15 + 2 in fees |
| OrderReview.ScreenFor | client/src/pages/OrderReviewPage.jsx:43-71 | an empty cart shows the empty state; otherwise the checkout with one line per item and total subtotal + 17 |
| OrderReview.Payload | client/src/pages/OrderReviewPage.jsx:19-29 | with no stored user nothing is sent. Otherwise the body carries the id, the customer id, the name or 'Guest User', the saved address or the default, the dark store's coordinates and address as initial location, and the cart |
| OrderReview.AsCreateRequest | server/routes/orders.js:9 | the server reads the payload's tracking id, its initial location, and a customer with the payload's name and address and no id |
| OrderReview.PlacedOrderAccepted | client/src/pages/OrderReviewPage.jsx:20-31 | the server stores a placed order exactly when its id is unused; it starts 'Ordered' with the dark store as its first entry |
| OrderReview.PlaceOrder | client/src/pages/OrderReviewPage.jsx:15-41 | success goes to /track/ plus the returned id; any failure goes to /track/ plus a fresh ORD- id; loading always ends |
| Layout.FrameFor | client/src/components/Layout.jsx:8-18 | the navbar is hidden only on exactly '/auth'; the footer is hidden on every path starting with '/auth', '/track' or '/admin'; padding follows the navbar; children always render |
| Layout.AuthSubpathKeepsNavbar | client/src/components/Layout.jsx:11-12 | '/auth/x' keeps the navbar but loses the footer |
| Layout.TrackingLosesFooter | client/src/components/Layout.jsx:12 | '/tracking' loses the footer |
| Layout.NavbarHiddenMeansFooterHidden | client/src/components/Layout.jsx:11-12 | wherever the navbar is hidden the footer is hidden too |
| ProtectedRoute.HomeFor | client/src/components/ProtectedRoute.jsx:11-13 | admins go to /admin, riders to /rider, anyone else to / |
| ProtectedRoute.Guard | client/src/components/ProtectedRoute.jsx:4-17 | no user redirects to /auth. The children render exactly for a signed-in user when no role is required or the role matches; a mismatch redirects to the user's own area; every redirect replaces |
| ProtectedRoute.RedirectTargetAdmits | client/src/components/ProtectedRoute.jsx:9-14 | an admin or rider turned away lands where a guard for their own role admits them |
| TrackingPage.ShownStatus | client/src/pages/TrackingPage.jsx:63 | a missing or empty status shows as 'Ordered' |
| TrackingPage.CurrentStepIndex | client/src/pages/TrackingPage.jsx:62-63 | the index is -1 exactly for a status that is not a step, and otherwise names that step |
| TrackingPage.IsCompleted | client/src/pages/TrackingPage.jsx:108 | a step is completed exactly when the shown status is that step or a later one |
| TrackingPage.IsCurrent | client/src/pages/TrackingPage.jsx:109 | a step is current exactly when it names the shown status |
| TrackingPage.CompletedIsPrefix | client/src/pages/TrackingPage.jsx:108 | the completed steps form a prefix |
| TrackingPage.CurrentStep | client/src/pages/TrackingPage.jsx:108-109 | a step is current exactly when it names the status, and then it is the last completed step |
| TrackingPage.UnknownStatusShowsNothing | client/src/pages/TrackingPage.jsx:63-108 | a status outside the steps, such as 'Arriving', completes no step and makes none current |
| TrackingPage.MissingStatusIsOrdered | client/src/pages/TrackingPage.jsx:63 | a missing status shows the first step as current |
| TrackingPage.ServerOrderShowsItsStep | client/src/pages/TrackingPage.jsx:62-63 | the steps are the server's enum in order, so a stored order's status is its current step |
| TrackingPage.DemoOrder | client/src/pages/TrackingPage.jsx:26-32 | the demo order has the requested id (else 'DEMO-123'), status 'Out for Delivery' and the demo address |
| TrackingPage.OnFetch | client/src/pages/TrackingPage.jsx:20-35 | loading ends with an order shown: the fetched one, or the demo order when the fetch failed |
| TrackingPage.OnOrderUpdated | client/src/pages/TrackingPage.jsx:41-44 | an update replaces the whole order |
| TrackingPage.MergeLocation | client/src/pages/TrackingPage.jsx:48-54 | each field the patch carries wins; the others keep the current value |
| TrackingPage.OnLocationUpdate | client/src/pages/TrackingPage.jsx:48-54 | without an order nothing changes; otherwise only the current location changes |
| TrackingPage.LocationUpdateKeepsSteps | client/src/pages/TrackingPage.jsx:48-54 | a location update never moves the progress steps |
| TrackingPage.MergeLaterWins | client/src/pages/TrackingPage.jsx:50-52 | merging is idempotent, and of two patches the later wins field by field |
| TrackingTimeline.IconFor | client/src/components/TrackingTimeline.jsx:5-11 | each known status has its icon; anything else gets the check icon |
| TrackingTimeline.LocationText | client/src/components/TrackingTimeline.jsx:48 | 'Location: ' plus the location when present, else 'Processing...' |
| TrackingTimeline.Shown | client/src/components/TrackingTimeline.jsx:17 | the shown copy is newest first and a permutation of the history |
| TrackingTimeline.SameTimeKeepsHistoryOrder | client/src/components/TrackingTimeline.jsx:17 | entries with the same timestamp are shown in the order the history holds them |
| TrackingTimeline.Render | client/src/components/TrackingTimeline.jsx:14-52 | a missing or empty history renders nothing; otherwise one row per shown entry with its icon and location text, and 'Latest' on the first row only |
| TrackingTimeline.LatestIsNewest | client/src/components/TrackingTimeline.jsx:17-38 | the row tagged 'Latest' has the greatest timestamp of the history |
| TrackingTimeline.RowsArePermutation | client/src/components/TrackingTimeline.jsx:17-22 | the rows show every history entry exactly as often as it occurs |
| AdminPage.PaymentPending | client/src/pages/AdminPage.jsx:276 | a 'COD' order or a paid one is never pending; an order without payment fields, or an online order still 'Pending', is |
| AdminPage.ControlsFor | client/src/pages/AdminPage.jsx:269-290 | the warning and verify button appear exactly when the method is not 'COD' and the status not 'Success'; the rider selector appears exactly otherwise; missing fields display as 'COD' and 'Pending' |
| AdminPage.MissingMethodLabelledCodButBlocked | client/src/pages/AdminPage.jsx:269-290 | an order without payment fields is labelled 'COD' yet blocked |
| AdminPage.ServerOrdersAlwaysGated | client/src/pages/AdminPage.jsx:290 | every order the server sends is blocked from assignment |
| AdminPage.OnOrderUpdated | client/src/pages/AdminPage.jsx:40-55 | the list entry with the same tracking id is replaced; the selection is never touched |
| AdminPage.SelectionNotRefreshed | client/src/pages/AdminPage.jsx:46-55 | an update of the selected order leaves the stale copy selected |
| AdminPage.UpdateStatus | client/src/pages/AdminPage.jsx:103-114 | with no selection at the click, or on failure, the current state stays. Otherwise the clicked order with the new status is selected, and the list is the click-time list with that entry replaced |
| AdminPage.UpdateStatusChangesOnlyStatus | client/src/pages/AdminPage.jsx:108 | the new selection differs from the clicked order in its status only |
| AdminPage.UpdateStatusLosesInterleavedUpdate | client/src/pages/AdminPage.jsx:103-110 | an 'orderUpdated' for another order applied while the request is in flight is overwritten by the click-time copy |
| AdminPage.VerifyPayment | client/src/pages/AdminPage.jsx:116-122 | with no selection at the click, or on failure, the current state stays. Otherwise the reply is selected and replaces its entry in the click-time list |
| AdminPage.VerifyPaymentLosesInterleavedUpdate | client/src/pages/AdminPage.jsx:116-122 | an 'orderUpdated' for another order applied while the request is in flight is overwritten by the click-time copy |
| AdminPage.AssignRequest | client/src/pages/AdminPage.jsx:57-60 | no request without a selection; otherwise the selected tracking id and the rider |
| AdminPage.StatusButtonsAccepted | client/src/pages/AdminPage.jsx:319 | the buttons offer only Ordered, Packed and Shipped, each accepted by the server without moving the order |
| AdminPage.CreatePayload | client/src/pages/AdminPage.jsx:72-79 | a blank tracking id becomes 'ORD-' plus the time; the initial location is the fixed warehouse |
| AdminPage.CreatePayloadAccepted | client/src/pages/AdminPage.jsx:72-81 | the server stores the new order exactly when its id is unused; its first entry names the warehouse |
| RiderDashboard.ActiveOrders | client/src/pages/RiderDashboard.jsx:42 | the tracked orders are exactly those 'Out for Delivery', each as often as it occurs in the list |
| RiderDashboard.ActiveOrdersInListOrder | client/src/pages/RiderDashboard.jsx:42 | the tracked orders keep the list's order |
| RiderDashboard.Target | client/src/pages/RiderDashboard.jsx:149-165 | every requested status is one of the server's enum values |
| RiderDashboard.NextAction | client/src/pages/RiderDashboard.jsx:149-165 | only Packed offers starting the delivery and only 'Out for Delivery' offers completing it |
| RiderDashboard.ActionMovesForward | client/src/pages/RiderDashboard.jsx:149-165 | each action moves the order forward along the enum: starting skips 'Shipped', completing is one step |
| RiderDashboard.OnPositionFix | client/src/pages/RiderDashboard.jsx:46-54 | one fix sends one update per tracked order, in list order, each naming its order |
| RiderDashboard.PositionFixInListOrder | client/src/pages/RiderDashboard.jsx:46-54 | a fix sends the updates part by part in list order; a single order sends one update exactly when it is out for delivery |
| RiderDashboard.OnlyTrackedOrdersReported | client/src/pages/RiderDashboard.jsx:49-54 | every update sent names an order that is out for delivery |
| RiderDashboard.OnAssigned | client/src/pages/RiderDashboard.jsx:29-31 | a newly assigned order is put first |
| RiderDashboard.StatusUpdateBody | client/src/pages/RiderDashboard.jsx:66-102 | nothing is sent when the position request fails. Without geolocation no location is sent. With a position, the location carries the coordinates and the geocoded name, or 'Current GPS Location' when geocoding failed |
| RiderDashboard.RiderRequestAccepted | client/src/pages/RiderDashboard.jsx:86-99 | the server accepts every button's request, moves the order to the sent position and labels the new entry with the address |
| PaymentVerification.ReadyToTrack | client/src/pages/PaymentVerificationPage.jsx:20 | the page redirects exactly for the orders it would show as paid 'Success' with a rider 'Assigned' |
| PaymentVerification.OnFetch | client/src/pages/PaymentVerificationPage.jsx:14-27 | a failed fetch sets the error. Otherwise the order is shown, with a redirect to /track/ plus the route id exactly when paid and assigned |
| PaymentVerification.OnOrderUpdated | client/src/pages/PaymentVerificationPage.jsx:34-40 | the order is replaced first, then the same redirect test applies |
| PaymentVerification.SameTestBothWays | client/src/pages/PaymentVerificationPage.jsx:20-37 | the fetch and the event redirect on the same orders |
| PaymentVerification.ViewOf | client/src/pages/PaymentVerificationPage.jsx:45-96 | the error view wins, else a spinner without an order, else the details with the status or 'Pending' and 'Assigned' exactly when a rider is set |
| PaymentVerification.ReplayKeepsError | client/src/pages/PaymentVerificationPage.jsx:34-40 | events never clear the error |
| PaymentVerification.ErrorViewSticks | client/src/pages/PaymentVerificationPage.jsx:45-60 | after a failed fetch the page stays on the error view whatever events arrive |
| PaymentVerification.ServerOrdersNeverReady | client/src/pages/PaymentVerificationPage.jsx:20 | a stored order from the server never meets the redirect test |
| PortalOrders.ReplaceById | server/client/src/pages/UserPortal.jsx:47-48 | the entries with the same `_id` become the update and the others stay |
| PortalOrders.FirstPresent | server/client/src/pages/UserPortal.jsx:111-112 | the first present location, else the fallback |
| UserPortal.StatusIndex | server/client/src/pages/UserPortal.jsx:16-24 | -1 exactly for a missing status or one outside the seven labels, else the label's position |
| UserPortal.LabelPositions | server/client/src/pages/UserPortal.jsx:192 | each label is found at its own position |
| UserPortal.TimelineDone | server/client/src/pages/UserPortal.jsx:187-196 | a step is done exactly when its index is at most the status's index |
| UserPortal.DoneIsPrefix | server/client/src/pages/UserPortal.jsx:192-194 | the done steps form a prefix |
| UserPortal.DoneUpToStatus | server/client/src/pages/UserPortal.jsx:192-194 | for a known status the steps up to and including it are done |
| UserPortal.CancelledMarksAllDone | server/client/src/pages/UserPortal.jsx:16-24 | a cancelled order shows every step done, 'DELIVERED' included |
| UserPortal.UnknownMarksNone | server/client/src/pages/UserPortal.jsx:192-194 | a missing or unknown status marks no step done |
| UserPortal.CancelDisabled | server/client/src/pages/UserPortal.jsx:221-225 | cancel is disabled exactly for OUT_FOR_DELIVERY, DELIVERED and CANCELLED |
| UserPortal.CancelDisabledFromOutForDelivery | server/client/src/pages/UserPortal.jsx:192-225 | cancel is disabled exactly when the timeline has reached OUT_FOR_DELIVERY |
| UserPortal.OnOrderEvent | server/client/src/pages/UserPortal.jsx:40-59 | with no active order or for another order nothing changes; otherwise the active order and its list entry are replaced |
| UserPortal.OrderEventIdempotent | server/client/src/pages/UserPortal.jsx:44-59 | the same event twice equals it once, and other orders' entries never change |
| UserPortal.PlaceRequest | server/client/src/pages/UserPortal.jsx:80-88 | nothing is sent before login; otherwise the user id with pickup and drop |
| UserPortal.OnPlaced | server/client/src/pages/UserPortal.jsx:80-93 | a placed order is prepended and becomes active; without a user or on failure nothing changes |
| UserPortal.OnCancelled | server/client/src/pages/UserPortal.jsx:100-109 | without an active order or on failure nothing changes; otherwise the reply becomes active and replaces the entry with the same id |
| UserPortal.PlacedOrderReceivesEvents | server/client/src/pages/UserPortal.jsx:40-90 | an event for a just-placed order reaches both the active order and the list's first entry |
| UserPortal.TrimStart | server/client/src/pages/UserPortal.jsx:71 | only leading white space is removed, and the rest starts with a non-space |
| UserPortal.TrimEnd | server/client/src/pages/UserPortal.jsx:71 | only trailing white space is removed, and the rest ends with a non-space |
| UserPortal.Trim | server/client/src/pages/UserPortal.jsx:71 | the trimmed name is the part of the name between its leading and trailing white space, and neither of its ends is white space |
| UserPortal.TrimEmptyIffBlank | server/client/src/pages/UserPortal.jsx:71 | the trimmed name is empty exactly when the name is all white space |
| UserPortal.LoginRequested | server/client/src/pages/UserPortal.jsx:70-72 | login is sent exactly when the name has a character that is not white space |
| UserPortal.ShownLocation | server/client/src/pages/UserPortal.jsx:111-112 | the current location, else the pickup location, else the form's pickup |
| AdminPortal.ActiveAgents | server/client/src/pages/AdminPortal.jsx:81 | the assignable agents are exactly those online and not blocked, each as often as it occurs in the list |
| AdminPortal.ActiveAgentsInListOrder | server/client/src/pages/AdminPortal.jsx:81 | the agent chips keep the list's order |
| AdminPortal.ReplaceAgent | server/client/src/pages/AdminPortal.jsx:46-50 | the agent with the same `_id` is replaced and the others stay |
| AdminPortal.UpdatedAgentLeavesChips | server/client/src/pages/AdminPortal.jsx:46-81 | once an update reports an agent offline or blocked, no chip for that agent is offered |
| AdminPortal.OnOrderUpdated | server/client/src/pages/AdminPortal.jsx:38-45 | the list entry with the same `_id` is replaced, and the selection too exactly when it is that order |
| AdminPortal.SelectionFollowsUpdates | server/client/src/pages/AdminPortal.jsx:42-44 | after an update of the selected order, the selection equals its list entry |
| AdminPortal.OnAgentUpdated | server/client/src/pages/AdminPortal.jsx:46-50 | only the agent list changes |
| AdminPortal.ControlRequest | server/client/src/pages/AdminPortal.jsx:61-76 | an agent or status chip sends nothing without a selection; otherwise the selected id with the chosen agent or status |
| AdminPortal.AfterControl | server/client/src/pages/AdminPortal.jsx:67-78 | the reply becomes the selection, then both lists take the reloaded data when the reload succeeds |
| AdminPortal.AgentLabel | server/client/src/pages/AdminPortal.jsx:103 | the agent id when present, else 'Unassigned' |
| AdminPortal.MapCenter | server/client/src/pages/AdminPortal.jsx:169-173 | the current location, else the pickup location, else Delhi |

## Left out

- Sockets: socket.io wiring, rooms and joins are not modelled. Broadcasts are appended to an outbox; a page receives an event as a function call.
- Network: HTTP requests (axios), the routing engine and the reverse geocoder are not modelled. Their replies are parameters, and `None` is a failure.
- Open-location-code: its algorithms (validity, shortness, recovery, decoding) are function parameters.
- Floating point is modelled as `real`. Not modelled: `distanceText`, the simulator's interpolation of coordinates, and the demo coordinate constants beyond being carried.
- Timers and the geolocation watch are not modelled. A simulator tick is an explicit call; `Date.now()` is a `nat` parameter.
- Mongoose persistence is not modelled beyond the checks its validation makes. The GET / order listing and every 500 path caused by database errors are left out.
- The authentication and user routes (server/routes/auth.js, server/routes/users.js), server/index.js and the remaining pages and components are not part of this model.
- The simulator's registry holds each simulation's step counter, not its interval id.
- ProductSchema.CastString: JSON objects and arrays in a product field are treated as cast failures. The schema's own handling of them is not modelled.
- JSON `null` and an absent field are told apart in product bodies only. Elsewhere both are `None`.
- UI-only text is not modelled: the underscore-to-space labels, the short `_id` suffix, ETA text, and agent names falling back to phone numbers.
- Loading flags are not modelled, except where the page's outcome depends on them (the checkout).
- Not modelled: the orders.js routes that AdminPage's `assignRider` and `verifyPayment` and RiderDashboard's rider list call, and the portals' `/api/admin` and `/api/user` routes, because the server source does not define them. Their replies are parameters.
- Starting a delivery on the rider dashboard moves a Packed order straight to 'Out for Delivery', skipping 'Shipped'. The model keeps this as the code has it.
- The order schema has no payment fields, so the admin page gates every order the server sends, and the payment verification page never navigates by itself for a stored order. The model keeps this as the code has it.
