/**
 * The API route pages/api/shipdelight/reverse-pickup.ts: accept only POST, check
 * that the required fields are present, book the pickup with the carrier and wrap
 * its answer, turning every failure into a 500.
 */
module ReversePickupApi {
  import opened Wrappers
  import opened Sequences
  import opened ShipdelightService
  import opened ReturnOrderForm

  /** The fields the route insists on: the form's required fields without the reason
      for the item, in the same order. */
  const ServerRequiredFields: seq<ReturnOrderForm.Field> :=
    [ReturnOrderNo, InvoiceValue, Weight, Length, Breadth, Height]
    + [ItemDescription, Quantity, UnitPrice]
    + [CustomerName, PickupContactNumber, PickupPincode, PickupAddressLine1, PickupCity, PickupState]
    + [DeliveryContactNumber, DeliveryPincode, DeliveryAddressLine1, DeliveryCity, DeliveryState]

  /** The first required field the body leaves falsy (absent or empty), if any. */
  function FirstMissing(form: map<string, string>): (r: Option<ReturnOrderForm.Field>)
    ensures r.None? <==> forall f :: f in ServerRequiredFields ==> Value(form, f) != ""
    ensures r.Some? ==> exists k :: (
      && 0 <= k < |ServerRequiredFields| && ServerRequiredFields[k] == r.value && Value(form, r.value) == ""
      && forall j :: 0 <= j < k ==> Value(form, ServerRequiredFields[j]) != "")
  {
    match FindFirst(ServerRequiredFields, MissingTest(form))
    case None => None
    case Some(k) => Some(ServerRequiredFields[k])
  }

  /** The `for ... of` loop over the required fields, returning at the first gap. */
  method FindMissingField(form: map<string, string>) returns (missing: Option<ReturnOrderForm.Field>)
    ensures missing == FirstMissing(form)
  {
    var i := 0;
    while i < |ServerRequiredFields|
      invariant 0 <= i <= |ServerRequiredFields|
      invariant forall j :: 0 <= j < i ==> Value(form, ServerRequiredFields[j]) != ""
    {
      if Value(form, ServerRequiredFields[i]) == "" {
        FirstMissingAt(form, i);
        return Some(ServerRequiredFields[i]);
      }
      i := i + 1;
    }
    FirstMissingNone(form);
    return None;
  }

  /** A gap at `i` after none before it is the first gap. */
  lemma FirstMissingAt(form: map<string, string>, i: nat)
    requires i < |ServerRequiredFields| && Value(form, ServerRequiredFields[i]) == ""
    requires forall j :: 0 <= j < i ==> Value(form, ServerRequiredFields[j]) != ""
    ensures FirstMissing(form) == Some(ServerRequiredFields[i])
  {
  }

  lemma FirstMissingNone(form: map<string, string>)
    requires forall j :: 0 <= j < |ServerRequiredFields| ==> Value(form, ServerRequiredFields[j]) != ""
    ensures FirstMissing(form) == None
  {
  }

  /** What the route answers. */
  datatype PickupResponse =
    | MethodNotAllowed
    | MissingField(field: ReturnOrderForm.Field)
    | Booked(data: BookingBody)
    | BookingFailed

  function HttpStatus(r: PickupResponse): int {
    match r
    case MethodNotAllowed => 405
    case MissingField(_) => 400
    case Booked(_) => 200
    case BookingFailed => 500
  }

  /** The `error` text of the JSON answer; a booked pickup has none. */
  function ErrorText(r: PickupResponse): Option<string> {
    match r
    case MethodNotAllowed => Some("Method not allowed")
    case MissingField(f) => Some("Missing required field: " + Name(f))
    case Booked(_) => None
    case BookingFailed => Some("Failed to create reverse pickup")
  }

  /** The route. `sent` is the booking payload posted to the carrier, if any. */
  method Handler(
    cache: TokenCache, httpMethod: string, form: map<string, string>, nowMs: int,
    authReply: AuthReply, booking: BookingReply)
    returns (resp: PickupResponse, sent: Option<BookingPayload>)
    modifies cache
    ensures httpMethod != "POST" ==> resp == MethodNotAllowed && sent.None? && cache.tokenData == old(cache.tokenData)
    ensures httpMethod == "POST" && FirstMissing(form).Some? ==>
      resp == MissingField(FirstMissing(form).value) && sent.None? && cache.tokenData == old(cache.tokenData)
    ensures httpMethod == "POST" && FirstMissing(form).None? ==>
      var s := GetValidTokenStep(old(cache.tokenData), nowMs, authReply);
      && cache.tokenData == s.cache
      && (sent.Some? <==> s.result.Ok?)
      && (sent.Some? ==> sent.value == BuildPayload(form))
      && (resp.Booked? <==> sent.Some? && booking.BookingAnswer? && booking.ok && booking.body.Some?)
      && (resp.Booked? ==> resp.data == booking.body.value)
      && (!resp.Booked? ==> resp == BookingFailed)
  {
    if httpMethod != "POST" {
      return MethodNotAllowed, None;
    }
    var missing := FindMissingField(form);
    if missing.Some? {
      return MissingField(missing.value), None;
    }
    var r;
    r, sent := cache.CreateReversePickup(form, nowMs, authReply, booking);
    if r.Err? {
      resp := BookingFailed;
    } else {
      resp := Booked(r.value);
    }
  }

  /** Every field the route requires is one the form requires too. */
  lemma ServerFieldsAreFormFields(f: ReturnOrderForm.Field)
    ensures f in ServerRequiredFields <==> f in RequiredFields && f != ReasonForItem
  {
  }

  /** A form the client lets through is never refused by the route for a missing field. */
  lemma ClientCheckCoversServerCheck(form: map<string, string>)
    requires MissingFields(form) == []
    ensures FirstMissing(form).None?
  {
    NoMissingIff(form);
    forall f | f in ServerRequiredFields
      ensures Value(form, f) != ""
    {
      ServerFieldsAreFormFields(f);
    }
  }

  /** The two checks differ on the reason for the item: a body that leaves only that
      field empty passes the route, while the form blocks it, names that field alone,
      and opens the order details. */
  lemma ReasonOnlyRequiredByForm(form: map<string, string>, isPositiveNumber: string -> bool)
    requires Value(form, ReasonForItem) == ""
    requires forall f :: f in ServerRequiredFields ==> Value(form, f) != ""
    ensures FirstMissing(form).None?
    ensures Validate(form, isPositiveNumber) == Blocked(RequiredStage, MissingFields(form), OrderDetails)
    ensures forall f :: f in MissingFields(form) <==> f == ReasonForItem
  {
    MissingFieldsExact(form);
    forall f | f in RequiredFields && f != ReasonForItem
      ensures Value(form, f) != ""
    {
      ServerFieldsAreFormFields(f);
    }
    assert ReasonForItem in RequiredFields;
    var m := MissingFields(form);
    assert m[0] in m;
    MissingReasonOpensOrderDetails(form, isPositiveNumber);
  }
}
