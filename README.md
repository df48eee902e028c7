# Shipdelight reverse pickups, modelled in Dafny

This project models the logic core of a Next.js app that books and lists reverse
pickups (return shipments) through the Shipdelight carrier API. It is a verified model
of that core.

- **ShipdelightService** (`lib/services/shipdelight-service.ts`): the carrier client.
  - A class `TokenCache` holds the one piece of mutable state, `tokenData`.
  - `generateToken` overwrites it, and `getValidToken` refreshes it when there is no token or it has expired.
  - `createReversePickup` builds the booking payload from the form; `BuildPayload` is a pure record transform.
  - `queryTrackingApi` reports a body that is not JSON instead of throwing.
- **ReverseOrders** (`pages/api/shipdelight/get-reverse-orders.ts`): the listing endpoint.
  - It picks the initial filter from the search term.
  - It runs the strategy loop ("the first payload whose answer has data wins").
  - It applies the status, free-text and return filters in sequence.
  - It slices out the page and works out the page count.
  - It maps each record to a table row, with its defaults and `formatTimeAgo`.
- **ReturnOrderForm** (`components/AddReturnOrderModal.tsx`): the return-order form.
  - A class `ReturnOrderModal` holds `formData` and `openSections`.
  - `toggleSection`, `handleChange` and `handleSubmit` are its methods.
  - `handleSubmit` runs four validation stages in a fixed order (required, numeric, phone, pincode), and each stage opens one accordion section.
  - The model builds the toast text and reads back the booking answer.
- **ReversePickupApi** (`pages/api/shipdelight/reverse-pickup.ts`): the booking endpoint. It checks the method, loops over the required fields and reports the first missing one, and wraps the carrier's answer in the response envelope.
- **TrackOrder** (`components/TrackOrderModal.tsx`): the status classifiers `getStatusColor`, `getStatusIcon` and `isReturnStatus`, and the guard and trim in `handleTrack`.
- **RouteGate** (`middleware.ts`): the authentication gate, decided from the path and which cookies are present.
- **Wrappers**, **Strings**, **Sequences** are shared helpers. They cover:
  - Option/Result;
  - JavaScript's `startsWith`, `includes`, ASCII `toUpperCase`/`toLowerCase`, `trim` and its white-space set, and `/^\d+$/`;
  - order-preserving `filter` and `find`.

Inputs and outputs:
- Every network answer is an input datatype, e.g. `AuthReply`, `BookingReply`, `CarrierReply`, `TrackReply`. Each has an "unreachable" case for a `fetch` that throws.
- `Date.now()` is a parameter `nowMs`. Timestamps are integers in milliseconds.
- `Number(value) > 0` is a parameter `isPositiveNumber: string -> bool`.
- A form or request body is a `map<string, string>`; an absent key reads as falsy.
- Requests the code sends are returned as outputs, e.g. `sent`, `attempted`, `request`, so contracts can say what was sent and when nothing was.

The source's own comments show what the gate is meant to do. middleware.ts:4 describes the list as the paths that are publicly accessible without authentication, and middleware.ts:40 speaks of continuing to the protected route.

In the code, `'/'` is a public path matched by prefix, so no path is ever redirected. `RouteGate.Gate` models the code, and `RouteGate.GateIntended` models the intended gate; see Findings.

## Model

| member | source | states |
|---|---|---|
| ShipdelightService.NowSeconds | lib/services/shipdelight-service.ts:79 | The seconds value is the floor of the milliseconds divided by 1000. |
| ShipdelightService.TokenFromReply | lib/services/shipdelight-service.ts:48-63 | A token is produced exactly when the answer is `ok` JSON with `success`. The token holds the answer's access token, refresh token and expiry. Every other answer is an error. |
| ShipdelightService.GetValidTokenStep | lib/services/shipdelight-service.ts:77-86 | A new token is requested iff there is no cached token or `expiresAt <= now` (in seconds). A requested token's result is what `generateToken` makes of the endpoint's answer. Otherwise the cache and the returned token are the cached ones. A new token replaces the cache. A failed request leaves the cache as it was. |
| ShipdelightService.RunTokenCalls | lib/services/shipdelight-service.ts:77-86 | Successive calls give one result each and request at most one token per call. A first call on a stale cache requests one. A run that requests no token leaves the cache as it was and returns the cached token at every call. |
| ShipdelightService.CachedTokenReused | lib/services/shipdelight-service.ts:81-85 | While every call comes before the cached token's expiry, no token is requested, the cache stays, and every call returns that token (proved by induction). |
| ShipdelightService.FailingEndpointAsksEveryTime | lib/services/shipdelight-service.ts:48-82 | With a stale cache and an endpoint that keeps failing, every call requests a token, fails, and leaves the cache unchanged. |
| ShipdelightService.FreshTokenReusedNextCall | lib/services/shipdelight-service.ts:59-85 | A token obtained by one call is returned by the next call made before it expires, with no second request. |
| ShipdelightService.NoneAsEmpty | lib/services/shipdelight-service.ts:157-158 | The result is "" exactly when the field is falsy or equals "none". Otherwise it is the field. |
| ShipdelightService.PaymentMethod | lib/services/shipdelight-service.ts:99-104 | The result is always COD or PPD, and it is COD exactly when `payType` is "COD". |
| ShipdelightService.BuildLineItem | lib/services/shipdelight-service.ts:140-160 | `actual_weight` falls back to `weight`. `item_category` defaults to "Electronics". `item_tag` and `item_box` are "" for "none" or a missing value, and pass any other value through. |
| ShipdelightService.BuildPayload | lib/services/shipdelight-service.ts:107-195 | The payment method is COD iff `payType` is "COD". `cod_total` is `invoice_total` for COD and "0.0" otherwise. `order_number` and `invoice_number` are both `returnOrderNo`. `transaction_ref_no` is `transactionId` when it is truthy, else `returnOrderNo`. `shipping` takes the delivery fields: `first_name` is `deliveryLocation`, and address lines, city, state, pincode and phone are the delivery ones. The `rto` block copies that address and takes `vendorName`. The `pickup` block is the customer's name and pickup address fields. The payload has one line item. |
| ShipdelightService.PaymentMapping | lib/services/shipdelight-service.ts:99-117 | "Prepaid" and any unknown `payType` give PPD with `cod_total` "0.0". COD gives `cod_total` equal to `invoiceValue`. |
| ShipdelightService.InterpretTrackingText | lib/services/shipdelight-service.ts:290-304 | A body that is not JSON becomes `{success: false, error: 'Failed to parse API response', rawResponse: text}`. Only an unreachable endpoint is an error. |
| ShipdelightService.TokenCache.constructor | lib/services/shipdelight-service.ts:32 | The cache starts empty. |
| ShipdelightService.TokenCache.GenerateToken | lib/services/shipdelight-service.ts:38-71 | On success the cache is overwritten with the new token and that same token is returned. On a failure the error is returned and the cache is untouched. |
| ShipdelightService.TokenCache.GetValidToken | lib/services/shipdelight-service.ts:77-86 | It requests a token iff the entry cache is stale. Its new cache and result are exactly those of `GetValidTokenStep`. |
| ShipdelightService.TokenCache.CreateReversePickup | lib/services/shipdelight-service.ts:93-224 | The cache advances as `getValidToken` does. A payload is sent iff a token was obtained, and it is `BuildPayload(form)`. The result is the carrier's body iff the answer is `ok` JSON; otherwise it is an error. |
| ShipdelightService.TokenCache.QueryTrackingApi | lib/services/shipdelight-service.ts:268-309 | The cache advances as `getValidToken` does. A token failure is an error; otherwise the result is `InterpretTrackingText` of the answer. |
| ReverseOrders.InitialFilter | pages/api/shipdelight/get-reverse-orders.ts:85-97 | An all-digit search selects `airwaybilno` with that value. A search starting with '#' selects `orderno`. Any other search, including the empty one, gives `ordertype=REVERSE`. |
| ReverseOrders.Strategies | pages/api/shipdelight/get-reverse-orders.ts:107-158 | There are six payloads, tried in order: first the empty payload, then the initial filter. |
| ReverseOrders.RunStrategies | pages/api/shipdelight/get-reverse-orders.ts:160-207 | The loop stops at the first answer with `success` and a non-empty `tracking`, and returns it. The payloads sent are exactly the strategies up to and including that one. Unparsable or unreachable answers move on to the next strategy. When no answer has data, every strategy was sent and there is no data. |
| ReverseOrders.FilterStages | pages/api/shipdelight/get-reverse-orders.ts:224-269 | The result is an order-preserving subsequence of the records. It holds exactly the records all three filters keep, each with its original multiplicity. |
| ReverseOrders.ApplyFilters | pages/api/shipdelight/get-reverse-orders.ts:224-269 | Reassigning `filteredTracking` stage by stage gives `FilterStages`. |
| ReverseOrders.StatusFilterExact | pages/api/shipdelight/get-reverse-orders.ts:227-231 | The status filter alone keeps exactly the records whose upper-cased `latest_status` includes the upper-cased status. |
| ReverseOrders.FilterStagesChosenBySearch | pages/api/shipdelight/get-reverse-orders.ts:234-245 | The free-text filter runs exactly for a search that is neither all digits nor '#'-prefixed. The return classifier runs exactly for an empty search. |
| ReverseOrders.ReverseTypeIsReturn | pages/api/shipdelight/get-reverse-orders.ts:248 | With no search and no status, an `ordertype` of REVERSE is always kept. |
| ReverseOrders.ReverseCodeIsReturn | pages/api/shipdelight/get-reverse-orders.ts:251 | A latest status code in `REVERSE_STATUS_CODES` is always kept. |
| ReverseOrders.ReturnRemarkIsReturn | pages/api/shipdelight/get-reverse-orders.ts:262-265 | A history remark that mentions RETURN, in any case, keeps the record. |
| ReverseOrders.SliceIndex | pages/api/shipdelight/get-reverse-orders.ts:276 | The `slice` index is clipped into [0, length]. |
| ReverseOrders.JsSlice | pages/api/shipdelight/get-reverse-orders.ts:276 | Definition of `Array.prototype.slice`; what a page slice returns is stated by `ReverseOrders.WindowOfSlice`. |
| ReverseOrders.PageOf | pages/api/shipdelight/get-reverse-orders.ts:272-276 | For a positive page and size, the page is the window [(page-1)*limit, page*limit) clipped to the data, in order. Page 0 is empty. |
| ReverseOrders.WindowOfSlice | pages/api/shipdelight/get-reverse-orders.ts:276 | `slice(start, start+limit)` from a non-negative start is that window. |
| ReverseOrders.TotalPages | pages/api/shipdelight/get-reverse-orders.ts:339 | `Math.ceil(total/size)`: for a positive size it is the least q with total <= q*size. A zero size gives null. |
| ReverseOrders.InsertByTime | pages/api/shipdelight/get-reverse-orders.ts:287-289 | Inserting into a sorted history keeps it sorted and adds exactly the one event. |
| ReverseOrders.SortByTime | pages/api/shipdelight/get-reverse-orders.ts:287-289 | The sorted history is sorted by `updated_at` and is a permutation of the history. |
| ReverseOrders.SortKeepsMembers | pages/api/shipdelight/get-reverse-orders.ts:287-289 | Sorting neither adds nor drops events. |
| ReverseOrders.SortedFirstMatch | pages/api/shipdelight/get-reverse-orders.ts:295-306 | In sorted order, the first match is not later than any other match. |
| ReverseOrders.FirstMatchIsEarliest | pages/api/shipdelight/get-reverse-orders.ts:295-306 | `find` on the sorted history returns the earliest matching event, and finds one iff some event matches. |
| ReverseOrders.SortedStartsEarliest | pages/api/shipdelight/get-reverse-orders.ts:292 | `sortedHistory[0]` is the earliest event. |
| ReverseOrders.TimeAgoOf | pages/api/shipdelight/get-reverse-orders.ts:362-381 | No timestamp gives ''. Otherwise the result is whole minutes below an hour, whole hours below a day, 'a day ago' for exactly one day, and whole days beyond that. Each value brackets the elapsed time. |
| ReverseOrders.RenderTimeAgo | pages/api/shipdelight/get-reverse-orders.ts:372-380 | The text is empty exactly when there is no timestamp. |
| ReverseOrders.FormatTimeAgo | pages/api/shipdelight/get-reverse-orders.ts:362-381 | `formatTimeAgo` gives '' exactly for a missing timestamp. Its cases are stated by `ReverseOrders.TimeAgoOf`. |
| ReverseOrders.MapOrder | pages/api/shipdelight/get-reverse-orders.ts:279-334 | Definition of the row mapping. It is stated by `ReverseOrders.MapOrderDefaults`, `TimeAgoFromEarliest`, `SourceFromEarliestPickup` and `DestinationFromEarliestDelivery`. |
| ReverseOrders.MapOrderDefaults | pages/api/shipdelight/get-reverse-orders.ts:317-333 | `company` is 'Customer'. The AWB and order number are copied. Source, destination, reason and status are never empty. Status falls back to 'Pending'. The reason is the first non-blank remark, else 'Return'. The time is empty iff there is no history. |
| ReverseOrders.TimeAgoFromEarliest | pages/api/shipdelight/get-reverse-orders.ts:285-326 | The time column is computed from the earliest history event. |
| ReverseOrders.SourceFromEarliestPickup | pages/api/shipdelight/get-reverse-orders.ts:295-329 | The source is the location of the earliest pickup or origin event, else 'Not specified'. |
| ReverseOrders.DestinationFromEarliestDelivery | pages/api/shipdelight/get-reverse-orders.ts:301-330 | The destination is the location of the earliest delivered, destination or 501 event, else 'Not specified'. |
| ReverseOrders.Present | pages/api/shipdelight/get-reverse-orders.ts:276-342 | The rows are the mapped page in order. `total` is the filtered length and `total_pages` is `TotalPages` of it. The current page and page size are echoed back. |
| ReverseOrders.PresentedPage | pages/api/shipdelight/get-reverse-orders.ts:272-279 | A page has at most `limit` rows, is empty iff it starts past the data, and row k is the mapped record (page-1)*limit+k. |
| ReverseOrders.TotalPagesIsLastPage | pages/api/shipdelight/get-reverse-orders.ts:337-342 | Page `total_pages + 1` is empty. For non-empty data, page `total_pages` has rows. |
| ReverseOrders.GetReverseOrders | pages/api/shipdelight/get-reverse-orders.ts:63-358 | A non-GET request gets 405 and nothing is sent. A token failure gives 500 with its message. When no strategy yields data, all six were sent and the response is 500 "All API strategies failed". Otherwise the strategies up to the winner were sent, and the response presents the filtered records of the winning answer. A 200 response never occurs without data. |
| ReturnOrderForm.MissingFields | components/AddReturnOrderModal.tsx:332 | The missing fields keep the order of `requiredFields`. |
| ReturnOrderForm.MissingFieldsExact | components/AddReturnOrderModal.tsx:245-332 | A field is reported missing iff it is required and its value is empty. |
| ReturnOrderForm.InvalidNumericFields | components/AddReturnOrderModal.tsx:378-383 | The numeric offenders keep the order of `numericFields`. |
| ReturnOrderForm.InvalidNumericFieldsExact | components/AddReturnOrderModal.tsx:274-383 | A numeric field is flagged iff it is non-empty and not a positive number. |
| ReturnOrderForm.InvalidPhoneFields | components/AddReturnOrderModal.tsx:429-434 | The phone offenders keep the list order. |
| ReturnOrderForm.InvalidPhoneFieldsExact | components/AddReturnOrderModal.tsx:290-434 | A phone field is flagged iff it is non-empty and not exactly ten ASCII digits. |
| ReturnOrderForm.InvalidPincodeFields | components/AddReturnOrderModal.tsx:476-481 | The pincode offenders keep the list order. |
| ReturnOrderForm.InvalidPincodeFieldsExact | components/AddReturnOrderModal.tsx:296-481 | A pincode field is flagged iff it is non-empty and not exactly six ASCII digits. |
| ReturnOrderForm.BulletsListEveryLabel | components/AddReturnOrderModal.tsx:357-359 | The bullet list contains a bullet line for every label. |
| ReturnOrderForm.ComposeMessage | components/AddReturnOrderModal.tsx:356-359 | The `+=` loop produces the header followed by one bullet per label. |
| ReturnOrderForm.StageMessageNamesEveryField | components/AddReturnOrderModal.tsx:354-359 | A stage's toast text starts with its header and names every offending field on a bullet line. |
| ReturnOrderForm.Decide | components/AddReturnOrderModal.tsx:330-520 | Submission happens iff all four lists are empty. Otherwise the first non-empty stage, in the order required, numeric, phone, pincode, blocks. It reports that stage's full list and opens the section of its first field. |
| ReturnOrderForm.NoMissingIff | components/AddReturnOrderModal.tsx:332-334 | The required stage passes iff every required field has a value. |
| ReturnOrderForm.NoInvalidNumericIff | components/AddReturnOrderModal.tsx:378-385 | The numeric stage passes iff every non-empty numeric field is a positive number. |
| ReturnOrderForm.NoInvalidPhoneIff | components/AddReturnOrderModal.tsx:429-436 | The phone stage passes iff every non-empty phone field is ten digits. |
| ReturnOrderForm.NoInvalidPincodeIff | components/AddReturnOrderModal.tsx:476-483 | The pincode stage passes iff every non-empty pincode field is six digits. |
| ReturnOrderForm.ValidateSubmitsIff | components/AddReturnOrderModal.tsx:330-520 | The form submits iff all required fields are filled and every non-empty numeric, phone and pincode field is well formed. |
| ReturnOrderForm.EmptyVolumetricWeightPasses | components/AddReturnOrderModal.tsx:378-383 | An empty `volumetricWeight` is never flagged. |
| ReturnOrderForm.MissingReasonOpensOrderDetails | components/AddReturnOrderModal.tsx:336-353 | When `reasonForItem` is the first missing field, the order-details section is opened. |
| ReturnOrderForm.ReasonSection | components/AddReturnOrderModal.tsx:338-345 | `reasonForItem` is not in the item list, so its section is order details. |
| ReturnOrderForm.NineDigitPhoneRejected | components/AddReturnOrderModal.tsx:429-451 | A nine-digit pickup phone, with the earlier stages passing, blocks at the phone stage. That field is named first, and the pickup details are opened. |
| ReturnOrderForm.WellFormedPhoneAndPincodePass | components/AddReturnOrderModal.tsx:429-481 | Ten-digit phones and six-digit pincodes pass both digit stages. |
| ReturnOrderForm.FiveDigitPincodeRejected | components/AddReturnOrderModal.tsx:476-481 | A five-digit delivery pincode, with the earlier stages passing, blocks at the pincode stage and names that field. |
| ReturnOrderForm.PincodeLookupFor | components/AddReturnOrderModal.tsx:112-128 | A lookup is triggered iff the field is `pickupPincode` or `deliveryPincode` and the value has length 6. It is for that side and that value. |
| ReturnOrderForm.ErrorLine | components/AddReturnOrderModal.tsx:557-561 | Definition of one error line; its format is stated by `ReturnOrderForm.ErrorLines`. |
| ReturnOrderForm.ErrorLines | components/AddReturnOrderModal.tsx:557-562 | There is one line per carrier error, in order. Line i is `loc[1]: msg` of error i when its `loc` has more than one element, and error i's `msg` otherwise. |
| ReturnOrderForm.JoinLinesContainsEach | components/AddReturnOrderModal.tsx:562 | The joined text contains every line. |
| ReturnOrderForm.AwbOf | components/AddReturnOrderModal.tsx:571-573 | The AWB shown is `data.data.response.airwaybilno`, else `data.response.airwaybilno`, else 'Pending approval'. |
| ReturnOrderForm.InterpretReply | components/AddReturnOrderModal.tsx:553-593 | The pickup counts as created iff `success` holds and the data has no `errors`. A created pickup carries `AwbOf`. With `success` but `errors`, the reply is a failure with the error lines. |
| ReturnOrderForm.SoftFailureListsErrors | components/AddReturnOrderModal.tsx:555-567 | A `success` answer with carrier errors is reported as a failure whose description names every error line. |
| ReturnOrderForm.ReturnOrderModal.constructor | components/AddReturnOrderModal.tsx:35-109 | The form starts with the initial values, with order details and item details open. |
| ReturnOrderForm.ReturnOrderModal.ToggleSection | components/AddReturnOrderModal.tsx:48-53 | It flips exactly the named section and leaves every other section and the form data unchanged. |
| ReturnOrderForm.ReturnOrderModal.HandleChange | components/AddReturnOrderModal.tsx:112-128 | It updates only the named field, leaves the sections alone, and requests the pincode lookup given by `PincodeLookupFor`. |
| ReturnOrderForm.ReturnOrderModal.HandleSubmit | components/AddReturnOrderModal.tsx:328-520 | The outcome is `Validate` of the form. A block opens exactly its section and shows the stage's title and message. A submission changes no section and shows no error toast. The form data is untouched. |
| ReversePickupApi.FirstMissing | pages/api/shipdelight/reverse-pickup.ts:43-50 | No field is reported iff every server-required field is filled. Otherwise the reported field is the first empty one in list order. |
| ReversePickupApi.FindMissingField | pages/api/shipdelight/reverse-pickup.ts:43-50 | The `for` loop with its early return finds `FirstMissing`. |
| ReversePickupApi.FirstMissingAt | pages/api/shipdelight/reverse-pickup.ts:43-50 | An empty field with all earlier ones filled is the reported one. |
| ReversePickupApi.FirstMissingNone | pages/api/shipdelight/reverse-pickup.ts:43-50 | With every field filled, nothing is reported. |
| ReversePickupApi.Handler | pages/api/shipdelight/reverse-pickup.ts:4-72 | A non-POST request gets 405 with nothing sent and the cache unchanged. A missing field gets 400 naming the first such field, with nothing sent. Otherwise the booking runs: a carrier body gives 200 with that body, and any failure gives 500. |
| ReversePickupApi.ServerFieldsAreFormFields | pages/api/shipdelight/reverse-pickup.ts:20-41 | The server requires exactly the form's required fields except `reasonForItem`. |
| ReversePickupApi.ClientCheckCoversServerCheck | pages/api/shipdelight/reverse-pickup.ts:43-53 | A form that passes the client's required stage is never refused by the server for a missing field. |
| ReversePickupApi.ReasonOnlyRequiredByForm | pages/api/shipdelight/reverse-pickup.ts:20-53 | A body missing only `reasonForItem` passes the route, while the form blocks on exactly that field and opens order details. |
| TrackOrder.IsReturnStatusIsFirstLetter | components/TrackOrderModal.tsx:104-106 | `isReturnStatus` holds iff the code starts with 'R'. The `'Return-Exchange'` comparison adds nothing. |
| TrackOrder.IsReturnStatus | components/TrackOrderModal.tsx:104-106 | Definition of `isReturnStatus`; it is characterised by `TrackOrder.IsReturnStatusIsFirstLetter`. |
| TrackOrder.StatusColorOf | components/TrackOrderModal.tsx:109-118 | The priority order, case-insensitive, is: DELIVERED gives green; then FAILED, UNDELIVERED or REJECTED gives red; then PENDING gives orange; then a return gives purple; and blue otherwise. |
| TrackOrder.StatusIconOf | components/TrackOrderModal.tsx:89-101 | The same first three levels apply. TRANSIT or PICKUP DONE gives the return icon exactly when the order is a return, and the truck exactly when it is not. REVERSE with no earlier match gives the arrow. |
| TrackOrder.ColorMatchesIcon | components/TrackOrderModal.tsx:89-118 | Colour and icon agree on delivered, failed and pending. |
| TrackOrder.ClassifiersIgnoreCase | components/TrackOrderModal.tsx:90-111 | Upper-casing the status or the order type first changes neither result. |
| TrackOrder.UndeliveredMentionsDelivered | components/TrackOrderModal.tsx:93 | A status containing UNDELIVERED contains DELIVERED. |
| TrackOrder.UndeliveredShownAsDelivered | components/TrackOrderModal.tsx:93-114 | As written, an undelivered status is green with a check mark. |
| TrackOrder.StatusColorIntended | components/TrackOrderModal.tsx:113-114 | With the failure test first, a failure status is red. |
| TrackOrder.StatusIconIntended | components/TrackOrderModal.tsx:93-94 | With the failure test first, a failure status gets the failure icon. |
| TrackOrder.IntendedClassifiers | components/TrackOrderModal.tsx:89-118 | The corrected helpers show undelivered as a failure. They differ from the written ones only on statuses that mention both delivery and failure. |
| TrackOrder.TrackRequestShape | components/TrackOrderModal.tsx:49-64 | The request is refused iff the AWB is white space only. Otherwise it carries a non-empty part of the input with no white space at either end. |
| TrackOrder.TrackRequest | components/TrackOrderModal.tsx:49-64 | Definition of the guard and trim; it is stated by `TrackOrder.TrackRequestShape`. |
| TrackOrder.ReplyEffectCases | components/TrackOrderModal.tsx:67-82 | Data is shown iff the answer has `success` and data. Otherwise the error is the answer's `error`, or 'Failed to track order', or, with no answer, 'Failed to connect to tracking service', each with its toast. |
| TrackOrder.ReplyEffect | components/TrackOrderModal.tsx:67-82 | Definition of what a reply leaves in the dialog; it is stated by `TrackOrder.ReplyEffectCases`. |
| TrackOrder.TrackOrderModal.constructor | components/TrackOrderModal.tsx:29-39 | The dialog opens with the initial AWB, not loading, with no data and no error. |
| TrackOrder.TrackOrderModal.SetAwbNumber | components/TrackOrderModal.tsx:140 | The input updates the AWB. |
| TrackOrder.TrackOrderModal.HandleTrack | components/TrackOrderModal.tsx:48-86 | A blank AWB sends nothing, shows the toast and changes no state. Otherwise the trimmed AWB is sent; loading is cleared at the end, and the data, error and toast are those of `ReplyEffect`. |
| RouteGate.Gate | middleware.ts:16-42 | It redirects iff the path matches no public prefix, is no asset path, and both cookies are absent. The redirect carries the original path in `from`. |
| RouteGate.EitherCookieSuffices | middleware.ts:28-38 | Either cookie alone lets a request through. |
| RouteGate.GateReadsOnlyCookiePresence | middleware.ts:28-29 | The decision depends only on whether the two cookies are present. |
| RouteGate.EveryRootedPathPasses | middleware.ts:5-20 | Because "/" is public and matched by prefix, every path starting with "/" passes with or without cookies. |
| RouteGate.DashboardOpenWithoutSession | middleware.ts:5-24 | As written, "/dashboard" with no cookies passes. |
| RouteGate.GateIntended | middleware.ts:16-42 | With "/" matched exactly, it redirects iff the path is not public, is not an asset path, and has no session cookie. |
| RouteGate.GateIntendedRefinesGate | middleware.ts:20-38 | The corrected gate lets through only what the written one does, and agrees with it whenever a session cookie is present. |
| RouteGate.DashboardGuardedIntended | middleware.ts:32-37 | Under the corrected gate, "/dashboard" with no cookies redirects to login with from=/dashboard. |

## Left out

- Network calls are not modelled: `fetch` to the token, booking, tracking and pincode-lookup endpoints. Their answers are inputs, and `response.json()` failures are an "unreachable" or "not JSON" case.
- The pincode lookup API is not modelled. `HandleChange` only reports which lookup `handleChange` would start.
- Firebase authentication is left out, because it wraps a foreign SDK.
- Toasts, the loading toast, `onClose`, `setTimeout` and all rendering are left out; toasts are returned as values.
- The five-minute polling interval is left out.
- Floating-point arithmetic is left out: the volumetric weight (`l*b*h/5000` with `toFixed(2)`) is UI arithmetic on floats.
- `Number(...)`/`parseFloat` is left out. Positivity is the parameter `isPositiveNumber`.
- `parseInt` of `page` and `limit` is left out. `Query` carries integers, and a NaN page or size is not modelled.
- `Date` parsing is left out. Timestamps are integers.
- ReverseOrders.SortByTime: the contract states that the result is sorted by `updated_at` and is a permutation. It does not state that events with equal times keep their order, so which of two simultaneous events `find` returns is not stated. Unparsable dates, which compare as NaN, are not modelled.
- Strings are sequences of characters rather than UTF-16 code units. `toUpperCase`/`toLowerCase` are modelled on ASCII letters only.
- JSON values other than strings in the form body are not modelled. A body whose field holds a number or `null` is represented by its text or by an absent key.
- TypeErrors that JavaScript throws on `undefined` parts of carrier answers are not modelled. Such a part is modelled as the empty list or string the code would otherwise read.
- The `config.matcher` of middleware.ts is not modelled. It keeps the middleware off some asset paths that the gate lets through anyway.
- URL encoding of the `from` parameter and the absolute login URL are not modelled: `RedirectToLogin` holds the path.
- Overlapping asynchronous calls, such as two concurrent `getValidToken` callers, are not modelled. Calls are treated as sequential, as the runtime is single-threaded.
- The thin pass-through routes (`get-orders.ts`, `track-order.ts`, `token.ts`), `trackOrderByAwb`, the diagnostic pages and the mock-data UI files are not part of this model.
- ReturnOrderForm.Label: every field of the lists has a label, so the `|| field` fallback to the raw key can never trigger here and is not modelled.
- ReturnOrderForm.Validate: it carries no contract of its own. Its behaviour is stated by `Decide`, `ValidateSubmitsIff` and the stage lemmas.
- ReturnOrderForm.InterpretReply: the raw `result.error`, the 'Please try again later' text and the catch-all toast are modelled as values. The exact wording of the created toast is not stated.
- TrackOrder.TrackOrderModal.HandleTrack: the intermediate `isLoading: true` and the cleared error and data are assigned but not visible in the contract, since they are overwritten before the method returns. The auto-track effect on opening is not modelled.

## Findings

| source | as written | input that shows it | evidently intended | confidence | as-written member | corrected member |
|---|---|---|---|---|---|---|
| middleware.ts:5-20 | '/' is in `PUBLIC_PATHS` and paths are matched with `startsWith`, so every path counts as public | pathname "/dashboard" with no cookies passes through | only the home page "/" is public; other paths without a session cookie go to /login | high; not executed | RouteGate.DashboardOpenWithoutSession | RouteGate.DashboardGuardedIntended |
| components/TrackOrderModal.tsx:113-114 | `getStatusColor` tests DELIVERED before UNDELIVERED, and "UNDELIVERED" contains "DELIVERED" | status "UNDELIVERED" is coloured green | an undelivered shipment is coloured red | high; not executed | TrackOrder.UndeliveredShownAsDelivered | TrackOrder.IntendedClassifiers |
| components/TrackOrderModal.tsx:93-94 | `getStatusIcon` tests DELIVERED before UNDELIVERED | status "UNDELIVERED" gets the check-circle icon | an undelivered shipment gets the failure icon | high; not executed | TrackOrder.UndeliveredShownAsDelivered | TrackOrder.IntendedClassifiers |
