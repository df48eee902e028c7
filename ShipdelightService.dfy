/**
 * The carrier client of lib/services/shipdelight-service.ts: the in-memory token
 * cache (`generateToken`, `getValidToken`), the booking payload that
 * `createReversePickup` sends, and the JSON-parse fallback of `queryTrackingApi`.
 *
 * Every answer from the carrier is an input of the operation that receives it; the
 * clock is a parameter `nowMs` (milliseconds, as `Date.now()` gives it).
 */
module ShipdelightService {
  import opened Wrappers
  import opened Strings

  /** The cached credentials: `TokenData`. `expiresAt` is in unix seconds. */
  datatype Token = Token(accessToken: string, refreshToken: string, expiresAt: int)

  /** The parts of the token endpoint's JSON body that `generateToken` reads. */
  datatype AuthBody = AuthBody(
    success: bool, message: string,
    accessToken: string, refreshToken: string, expiresAt: int)

  /** What the token endpoint answered. */
  datatype AuthReply =
    | AuthUnreachable(reason: string)
      /** `body` is None when the body is not JSON. */
    | AuthAnswer(ok: bool, status: int, statusText: string, body: Option<AuthBody>)

  /** `Math.floor(Date.now() / 1000)`: Dafny's division by a positive divisor rounds down. */
  function NowSeconds(nowMs: int): (s: int)
    ensures s * 1000 <= nowMs < s * 1000 + 1000
  {
    nowMs / 1000
  }

  /** The condition `!tokenData || tokenData.expiresAt <= now` under which a new token is fetched. */
  predicate IsStale(cache: Option<Token>, now: int) {
    cache.None? || cache.value.expiresAt <= now
  }

  /** What `generateToken` makes of the endpoint's answer: the new token, or the error it throws. */
  function TokenFromReply(reply: AuthReply): (r: Result<Token>)
    ensures r.Ok? <==> reply.AuthAnswer? && reply.ok && reply.body.Some? && reply.body.value.success
    ensures r.Ok? ==> var b := reply.body.value;
      r.value == Token(b.accessToken, b.refreshToken, b.expiresAt)
  {
    match reply
    case AuthUnreachable(reason) => Err(reason)
    case AuthAnswer(ok, status, statusText, body) =>
      if !ok then Err("Failed to generate token: " + IntToString(status) + " " + statusText)
      else if body.None? then Err("invalid JSON in token response")
      else if !body.value.success then Err("API error: " + body.value.message)
      else Ok(Token(body.value.accessToken, body.value.refreshToken, body.value.expiresAt))
  }

  /** One `getValidToken` call as a transition: the new cache, the outcome, and whether
      `generateToken` was called. */
  datatype TokenStep = TokenStep(cache: Option<Token>, result: Result<Token>, generated: bool)

  function GetValidTokenStep(cache: Option<Token>, nowMs: int, reply: AuthReply): (s: TokenStep)
    ensures s.generated <==> IsStale(cache, NowSeconds(nowMs))
    ensures !s.generated ==> s.cache == cache && s.result == Ok(cache.value)
    ensures s.generated ==> s.result == TokenFromReply(reply)
    ensures s.generated && s.result.Ok? ==> s.cache == Some(s.result.value)
    ensures s.generated && s.result.Err? ==> s.cache == cache
  {
    if IsStale(cache, NowSeconds(nowMs)) then
      var r := TokenFromReply(reply);
      TokenStep(if r.Ok? then Some(r.value) else cache, r, true)
    else
      TokenStep(cache, Ok(cache.value), false)
  }

  /** A call of `getValidToken` at time `nowMs`, with the answer the token endpoint would give. */
  datatype TokenCall = TokenCall(nowMs: int, reply: AuthReply)

  /** The outcome of a sequence of `getValidToken` calls made one after another. */
  datatype TokenRun = TokenRun(cache: Option<Token>, results: seq<Result<Token>>, generations: nat)

  function RunTokenCalls(cache: Option<Token>, calls: seq<TokenCall>): (r: TokenRun)
    ensures |r.results| == |calls|
    ensures r.generations <= |calls|
    ensures calls != [] && IsStale(cache, NowSeconds(calls[0].nowMs)) ==> r.generations >= 1
    ensures r.generations == 0 ==> r.cache == cache && forall i :: 0 <= i < |calls| ==> r.results[i] == Ok(cache.value)
    decreases |calls|
  {
    if calls == [] then TokenRun(cache, [], 0)
    else
      var s := GetValidTokenStep(cache, calls[0].nowMs, calls[0].reply);
      var rest := RunTokenCalls(s.cache, calls[1..]);
      TokenRun(rest.cache, [s.result] + rest.results, rest.generations + (if s.generated then 1 else 0))
  }

  /** Between regenerations the cache hands out the same token: while the calls happen
      before the cached token's expiry, no new token is requested and every call
      returns the cached one. */
  lemma {:induction false} CachedTokenReused(tok: Token, calls: seq<TokenCall>)
    requires forall i :: 0 <= i < |calls| ==> NowSeconds(calls[i].nowMs) < tok.expiresAt
    ensures var r := RunTokenCalls(Some(tok), calls);
      && r.generations == 0
      && r.cache == Some(tok)
      && forall i :: 0 <= i < |calls| ==> r.results[i] == Ok(tok)
    decreases |calls|
  {
    if calls != [] {
      CachedTokenReused(tok, calls[1..]);
    }
  }

  /** Every call made while there is no token, or after its expiry, asks for a new one:
      with the endpoint failing each time, every call fails and asks again. */
  lemma {:induction false} FailingEndpointAsksEveryTime(cache: Option<Token>, calls: seq<TokenCall>)
    requires forall i :: 0 <= i < |calls| ==> IsStale(cache, NowSeconds(calls[i].nowMs))
    requires forall i :: 0 <= i < |calls| ==> TokenFromReply(calls[i].reply).Err?
    ensures var r := RunTokenCalls(cache, calls);
      && r.generations == |calls|
      && r.cache == cache
      && forall i :: 0 <= i < |calls| ==> r.results[i].Err?
    decreases |calls|
  {
    if calls != [] {
      FailingEndpointAsksEveryTime(cache, calls[1..]);
    }
  }

  /** A token obtained at one call is reused by the next call made before it expires. */
  lemma FreshTokenReusedNextCall(cache: Option<Token>, first: TokenCall, second: TokenCall)
    requires GetValidTokenStep(cache, first.nowMs, first.reply).result.Ok?
    requires NowSeconds(second.nowMs) < GetValidTokenStep(cache, first.nowMs, first.reply).result.value.expiresAt
    ensures var r := RunTokenCalls(cache, [first, second]);
      && r.results[1] == r.results[0]
      && r.generations <= 1
  {
    var s := GetValidTokenStep(cache, first.nowMs, first.reply);
    assert s.cache == Some(s.result.value);
    assert [first, second][1..] == [second];
    assert [second][1..] == [];
  }

  // ---- The booking payload of createReversePickup ----

  /** The value of a property of the posted form, None when it is absent (`undefined`). */
  function Field(form: map<string, string>, key: string): Option<string> {
    if key in form then Some(form[key]) else None
  }

  /** JavaScript truthiness of an optional string: present and non-empty. */
  predicate Truthy(v: Option<string>) {
    v.Some? && v.value != ""
  }

  /** `form[key] || alt`. */
  function FieldOr(form: map<string, string>, key: string, alt: Option<string>): (r: Option<string>)
    ensures Truthy(Field(form, key)) ==> r == Field(form, key)
    ensures !Truthy(Field(form, key)) ==> r == alt
  {
    if Truthy(Field(form, key)) then Field(form, key) else alt
  }

  /** `form[key] || fallback` for a string fallback. */
  function FieldOrText(form: map<string, string>, key: string, fallback: string): (r: string)
    ensures r == FieldOr(form, key, Some(fallback)).value
  {
    if Truthy(Field(form, key)) then form[key] else fallback
  }

  /** `form[key] === "none" ? "" : form[key] || ""`. */
  function NoneAsEmpty(form: map<string, string>, key: string): (r: string)
    ensures r == "" <==> !Truthy(Field(form, key)) || form[key] == "none"
    ensures r != "" ==> Field(form, key) == Some(r)
  {
    if Field(form, key) == Some("none") then "" else FieldOrText(form, key, "")
  }

  datatype Shipping = Shipping(
    firstName: Option<string>, lastName: string,
    address1: Option<string>, address2: string,
    city: Option<string>, state: Option<string>, postcode: Option<string>,
    country: string, phone: Option<string>, custEmail: string)

  datatype LineItem = LineItem(
    name: Option<string>, quantity: Option<string>, sku: string,
    productId: string, variantId: string, unitPrice: Option<string>,
    actualWeight: Option<string>, itemColor: string, itemSize: string,
    itemCategory: string, itemImage: string, itemBrand: string, itemImei: string,
    specialIns: string, returnReasons: string, itemTag: string, itemBox: string)

  /** The `pickup` and `rto` blocks. */
  datatype Address = Address(
    vendorName: Option<string>, address1: Option<string>, address2: string,
    city: Option<string>, state: Option<string>, postcode: Option<string>,
    country: string, phone: Option<string>)

  datatype GstDetails = GstDetails(
    gstNumber: string, cgst: string, igst: string, sgst: string,
    hsnNumber: string, ewaybillNumber: string)

  /** The JSON object posted to the booking endpoint. A passed-through form property that
      is absent is None (JSON.stringify leaves it out). */
  datatype BookingPayload = BookingPayload(
    autoApprove: string, orderNumber: Option<string>, serviceType: string,
    invoiceNumber: Option<string>, transactionRefNo: Option<string>,
    paymentMethod: string, discountTotal: string, codShippingCharge: string,
    invoiceTotal: Option<string>, codTotal: Option<string>,
    length: Option<string>, breadth: Option<string>, height: Option<string>,
    actualWeight: Option<string>, volumetricWeight: Option<string>, qc: string,
    shipping: Shipping, lineItems: seq<LineItem>, pickup: Address, rto: Address,
    gstDetails: GstDetails)

  /** The payment method sent to the carrier for the form's `payType`. */
  function PaymentMethod(payType: Option<string>): (m: string)
    ensures m == "COD" || m == "PPD"
    ensures m == "COD" <==> payType == Some("COD")
  {
    if payType == Some("Prepaid") then "PPD" else if payType == Some("COD") then "COD" else "PPD"
  }

  function BuildLineItem(form: map<string, string>): (item: LineItem)
    ensures item.actualWeight == FieldOr(form, "actualWeight", Field(form, "weight"))
    ensures !Truthy(Field(form, "actualWeight")) ==> item.actualWeight == Field(form, "weight")
    ensures item.itemCategory == (if Truthy(Field(form, "itemCategory")) then form["itemCategory"] else "Electronics")
    ensures item.itemTag == "" <==> !Truthy(Field(form, "hasOriginalTag")) || form["hasOriginalTag"] == "none"
    ensures item.itemBox == "" <==> !Truthy(Field(form, "hasOriginalBox")) || form["hasOriginalBox"] == "none"
    ensures item.itemTag != "" ==> Field(form, "hasOriginalTag") == Some(item.itemTag)
    ensures item.itemBox != "" ==> Field(form, "hasOriginalBox") == Some(item.itemBox)
  {
    LineItem(
      name := FieldOr(form, "itemName", Field(form, "itemDescription")),
      quantity := Field(form, "quantity"),
      sku := FieldOrText(form, "sku", ""),
      productId := FieldOrText(form, "productId", ""),
      variantId := FieldOrText(form, "variantId", ""),
      unitPrice := Field(form, "unitPrice"),
      actualWeight := FieldOr(form, "actualWeight", Field(form, "weight")),
      itemColor := FieldOrText(form, "itemColor", ""),
      itemSize := FieldOrText(form, "itemSize", ""),
      itemCategory := FieldOrText(form, "itemCategory", "Electronics"),
      itemImage := FieldOrText(form, "itemImage", ""),
      itemBrand := FieldOrText(form, "itemBrand", ""),
      itemImei := FieldOrText(form, "itemImei", ""),
      specialIns := FieldOrText(form, "specialInstructions", ""),
      returnReasons := FieldOrText(form, "reasonForItem", ""),
      itemTag := NoneAsEmpty(form, "hasOriginalTag"),
      itemBox := NoneAsEmpty(form, "hasOriginalBox"))
  }

  /** The payload `createReversePickup` builds from the posted form. */
  function BuildPayload(form: map<string, string>): (p: BookingPayload)
    // payment method and COD amount
    ensures p.paymentMethod == "COD" <==> Field(form, "payType") == Some("COD")
    ensures p.paymentMethod == "COD" || p.paymentMethod == "PPD"
    ensures p.codTotal == (if p.paymentMethod == "COD" then p.invoiceTotal else Some("0.0"))
    ensures p.invoiceTotal == Field(form, "invoiceValue")
    // order identifiers
    ensures p.orderNumber == p.invoiceNumber == Field(form, "returnOrderNo")
    ensures p.transactionRefNo == (if Truthy(Field(form, "transactionId")) then Field(form, "transactionId") else p.orderNumber)
    // the return-to-origin address is the delivery address
    ensures p.rto.vendorName == Field(form, "vendorName")
    ensures p.shipping.firstName == Field(form, "deliveryLocation")
    ensures && p.rto.address1 == p.shipping.address1 && p.rto.address2 == p.shipping.address2
            && p.rto.city == p.shipping.city && p.rto.state == p.shipping.state
            && p.rto.postcode == p.shipping.postcode && p.rto.phone == p.shipping.phone
            && p.rto.country == p.shipping.country
    ensures p.shipping.address1 == Field(form, "deliveryAddressLine1")
    ensures p.shipping.address2 == FieldOrText(form, "deliveryAddressLine2", "")
    ensures p.shipping.state == Field(form, "deliveryState")
    ensures p.shipping.city == Field(form, "deliveryCity") && p.shipping.postcode == Field(form, "deliveryPincode")
    ensures p.shipping.phone == Field(form, "deliveryContactNumber")
    // the pickup block is the customer's address
    ensures && p.pickup.vendorName == Field(form, "customerName")
            && p.pickup.address1 == Field(form, "pickupAddressLine1")
            && p.pickup.city == Field(form, "pickupCity") && p.pickup.state == Field(form, "pickupState")
            && p.pickup.postcode == Field(form, "pickupPincode") && p.pickup.phone == Field(form, "pickupContactNumber")
    // one line item
    ensures p.lineItems == [BuildLineItem(form)]
  {
    var paymentMethod := PaymentMethod(Field(form, "payType"));
    BookingPayload(
      autoApprove := "false",
      orderNumber := Field(form, "returnOrderNo"),
      serviceType := "r",
      invoiceNumber := Field(form, "returnOrderNo"),
      transactionRefNo := FieldOr(form, "transactionId", Field(form, "returnOrderNo")),
      paymentMethod := paymentMethod,
      discountTotal := "0.00",
      codShippingCharge := "0.00",
      invoiceTotal := Field(form, "invoiceValue"),
      codTotal := if paymentMethod == "COD" then Field(form, "invoiceValue") else Some("0.0"),
      length := Field(form, "length"),
      breadth := Field(form, "breadth"),
      height := Field(form, "height"),
      actualWeight := Field(form, "weight"),
      volumetricWeight := Field(form, "volumetricWeight"),
      qc := "y",
      shipping := Shipping(
        firstName := Field(form, "deliveryLocation"),
        lastName := FieldOrText(form, "customerLastName", ""),
        address1 := Field(form, "deliveryAddressLine1"),
        address2 := FieldOrText(form, "deliveryAddressLine2", ""),
        city := Field(form, "deliveryCity"),
        state := Field(form, "deliveryState"),
        postcode := Field(form, "deliveryPincode"),
        country := "India",
        phone := Field(form, "deliveryContactNumber"),
        custEmail := ""),
      lineItems := [BuildLineItem(form)],
      pickup := Address(
        vendorName := Field(form, "customerName"),
        address1 := Field(form, "pickupAddressLine1"),
        address2 := FieldOrText(form, "pickupAddressLine2", ""),
        city := Field(form, "pickupCity"),
        state := Field(form, "pickupState"),
        postcode := Field(form, "pickupPincode"),
        country := "India",
        phone := Field(form, "pickupContactNumber")),
      rto := Address(
        vendorName := Field(form, "vendorName"),
        address1 := Field(form, "deliveryAddressLine1"),
        address2 := FieldOrText(form, "deliveryAddressLine2", ""),
        city := Field(form, "deliveryCity"),
        state := Field(form, "deliveryState"),
        postcode := Field(form, "deliveryPincode"),
        country := "India",
        phone := Field(form, "deliveryContactNumber")),
      gstDetails := GstDetails(
        gstNumber := FieldOrText(form, "gstNumber", ""),
        cgst := FieldOrText(form, "cgstPercentage", ""),
        igst := FieldOrText(form, "igstPercentage", ""),
        sgst := FieldOrText(form, "sgstPercentage", ""),
        hsnNumber := FieldOrText(form, "hsnNumber", ""),
        ewaybillNumber := FieldOrText(form, "eWayBillNumber", "")))
  }

  /** The payment mapping in full: "Prepaid" and every unknown value give PPD, and the
      COD amount is the invoice value exactly for COD. */
  lemma PaymentMapping(form: map<string, string>)
    ensures Field(form, "payType") == Some("Prepaid") ==> BuildPayload(form).paymentMethod == "PPD"
    ensures Field(form, "payType") != Some("COD") ==>
      BuildPayload(form).paymentMethod == "PPD" && BuildPayload(form).codTotal == Some("0.0")
    ensures Field(form, "payType") == Some("COD") ==>
      BuildPayload(form).codTotal == Field(form, "invoiceValue")
  {
  }

  // ---- Booking and tracking answers ----

  /** One entry of the `errors` list the carrier may put in a booking answer. */
  datatype CarrierFieldError = CarrierFieldError(loc: Option<seq<string>>, msg: string)

  /** The parts of the carrier's booking answer that the form reads back:
      `errors`, `data.response.airwaybilno` and `response.airwaybilno`. */
  datatype BookingBody = BookingBody(
    errors: Option<seq<CarrierFieldError>>,
    nestedAwb: Option<string>,
    awb: Option<string>)

  /** What the booking endpoint answered; `body` is None when it is not JSON. */
  datatype BookingReply =
    | BookingUnreachable(reason: string)
    | BookingAnswer(ok: bool, status: int, statusText: string, body: Option<BookingBody>)

  /** What the tracking endpoint answered to `queryTrackingApi`: its text, and whether
      that text is JSON. */
  datatype TrackingTextReply =
    | TrackingUnreachable(reason: string)
    | TrackingText(text: string, isJson: bool)

  /** The value `queryTrackingApi` resolves to: the parsed body (named by its text) or
      the object `{success: false, error, rawResponse}`. */
  datatype TrackingQueryResult =
    | ParsedBody(json: string)
    | ParseFailure(success: bool, error: string, rawResponse: string)

  /** `queryTrackingApi` after the request: a body that is not JSON is reported, not thrown. */
  function InterpretTrackingText(reply: TrackingTextReply): (r: Result<TrackingQueryResult>)
    ensures r.Err? <==> reply.TrackingUnreachable?
    ensures r.Ok? && r.value.ParseFailure? <==> reply.TrackingText? && !reply.isJson
    ensures r.Ok? && r.value.ParseFailure? ==>
      !r.value.success && r.value.rawResponse == reply.text && r.value.error == "Failed to parse API response"
    ensures r.Ok? && r.value.ParsedBody? ==> r.value.json == reply.text
  {
    match reply
    case TrackingUnreachable(reason) => Err(reason)
    case TrackingText(text, isJson) =>
      if isJson then Ok(ParsedBody(text))
      else Ok(ParseFailure(false, "Failed to parse API response", text))
  }

  /** The module-level `tokenData` and the operations that read or replace it. */
  class TokenCache {
    var tokenData: Option<Token>

    /** The process starts with no token. */
    constructor ()
      ensures tokenData == None
    {
      tokenData := None;
    }

    /** `generateToken`: on success the cache is overwritten with the new token and the
        same token is returned; on failure the error is thrown and the cache is untouched. */
    method GenerateToken(reply: AuthReply) returns (r: Result<Token>)
      modifies this
      ensures r == TokenFromReply(reply)
      ensures r.Ok? ==> tokenData == Some(r.value)
      ensures r.Err? ==> tokenData == old(tokenData)
    {
      match reply {
        case AuthUnreachable(reason) =>
          return Err(reason);
        case AuthAnswer(ok, status, statusText, body) =>
          if !ok {
            return Err("Failed to generate token: " + IntToString(status) + " " + statusText);
          }
          if body.None? {
            return Err("invalid JSON in token response");
          }
          var data := body.value;
          if !data.success {
            return Err("API error: " + data.message);
          }
          tokenData := Some(Token(data.accessToken, data.refreshToken, data.expiresAt));
          return Ok(tokenData.value);
      }
    }

    /** `getValidToken`: a new token is requested exactly when there is none or it has
        expired; otherwise the cached token is returned and nothing changes. */
    method GetValidToken(nowMs: int, reply: AuthReply) returns (r: Result<Token>, generated: bool)
      modifies this
      ensures generated <==> IsStale(old(tokenData), NowSeconds(nowMs))
      ensures TokenStep(tokenData, r, generated) == GetValidTokenStep(old(tokenData), nowMs, reply)
    {
      var now := nowMs / 1000;
      if tokenData.None? || tokenData.value.expiresAt <= now {
        r := GenerateToken(reply);
        generated := true;
        return;
      }
      r, generated := Ok(tokenData.value), false;
    }

    /** `createReversePickup`: get a token, post the payload, and return the carrier's
        answer; `sent` is the payload posted, None when no request was made. */
    method CreateReversePickup(form: map<string, string>, nowMs: int, authReply: AuthReply, booking: BookingReply)
      returns (r: Result<BookingBody>, sent: Option<BookingPayload>)
      modifies this
      ensures var s := GetValidTokenStep(old(tokenData), nowMs, authReply);
        && tokenData == s.cache
        && (sent.Some? <==> s.result.Ok?)
        && (s.result.Err? ==> r == Err(s.result.message))
      ensures sent.Some? ==> sent.value == BuildPayload(form)
      ensures r.Ok? <==> sent.Some? && booking.BookingAnswer? && booking.ok && booking.body.Some?
      ensures r.Ok? ==> r.value == booking.body.value
    {
      var token, _ := GetValidToken(nowMs, authReply);
      if token.Err? {
        return Err(token.message), None;
      }
      var payload := BuildPayload(form);
      sent := Some(payload);
      match booking {
        case BookingUnreachable(reason) =>
          r := Err(reason);
        case BookingAnswer(ok, status, statusText, body) =>
          if body.None? {
            r := Err("invalid JSON in booking response");
          } else if !ok {
            r := Err("Failed to create reverse pickup: " + IntToString(status) + " " + statusText);
          } else {
            r := Ok(body.value);
          }
      }
    }

    /** `queryTrackingApi`: get a token, post the payload, and parse the answer, reporting
        a body that is not JSON instead of throwing. */
    method QueryTrackingApi(nowMs: int, authReply: AuthReply, reply: TrackingTextReply)
      returns (r: Result<TrackingQueryResult>)
      modifies this
      ensures var s := GetValidTokenStep(old(tokenData), nowMs, authReply);
        && tokenData == s.cache
        && r == (if s.result.Err? then Err(s.result.message) else InterpretTrackingText(reply))
    {
      var token, _ := GetValidToken(nowMs, authReply);
      if token.Err? {
        return Err(token.message);
      }
      match reply {
        case TrackingUnreachable(reason) =>
          r := Err(reason);
        case TrackingText(text, isJson) =>
          if isJson {
            r := Ok(ParsedBody(text));
          } else {
            r := Ok(ParseFailure(false, "Failed to parse API response", text));
          }
      }
    }
  }
}
