/**
 * The "Add Return Order" form of components/AddReturnOrderModal.tsx: the accordion
 * state, field updates, the four validation stages `handleSubmit` runs before it
 * posts the form, and how it reads the answer back.
 *
 * Whether a text is a positive number (`Number(v)` is neither NaN nor <= 0) is left
 * to the parameter `isPositiveNumber`.
 */
module ReturnOrderForm {
  import opened Wrappers
  import opened Strings
  import opened Sequences
  import ShipdelightService

  /** The accordion sections of the form. */
  datatype Section = OrderDetails | ItemDetails | PickupDetails | DeliveryDetails | GstDetails

  /** The value of a form field; a field the form never set reads as "". */
  function ValueOf(form: map<string, string>, field: string): string {
    if field in form then form[field] else ""
  }

  /** The fields the validation stages look at, by their name in the form. */
  datatype Field =
    | ReturnOrderNo | InvoiceValue | Weight | VolumetricWeight | Length | Breadth | Height
    | ItemDescription | Quantity | UnitPrice | ReasonForItem
    | CustomerName | PickupContactNumber | PickupPincode | PickupAddressLine1 | PickupCity | PickupState
    | DeliveryContactNumber | DeliveryPincode | DeliveryAddressLine1 | DeliveryCity | DeliveryState

  /** The field's key in `formData`. */
  function Name(field: Field): string {
    match field
    case ReturnOrderNo => "returnOrderNo"
    case InvoiceValue => "invoiceValue"
    case Weight => "weight"
    case VolumetricWeight => "volumetricWeight"
    case Length => "length"
    case Breadth => "breadth"
    case Height => "height"
    case ItemDescription => "itemDescription"
    case Quantity => "quantity"
    case UnitPrice => "unitPrice"
    case ReasonForItem => "reasonForItem"
    case CustomerName => "customerName"
    case PickupContactNumber => "pickupContactNumber"
    case PickupPincode => "pickupPincode"
    case PickupAddressLine1 => "pickupAddressLine1"
    case PickupCity => "pickupCity"
    case PickupState => "pickupState"
    case DeliveryContactNumber => "deliveryContactNumber"
    case DeliveryPincode => "deliveryPincode"
    case DeliveryAddressLine1 => "deliveryAddressLine1"
    case DeliveryCity => "deliveryCity"
    case DeliveryState => "deliveryState"
  }

  /** The label the toasts use for the field (`fieldLabels`; every field has one). */
  function Label(field: Field): string {
    match field
    case ReturnOrderNo => "Return Order No."
    case InvoiceValue => "Invoice Value"
    case Weight => "Weight"
    case VolumetricWeight => "Volumetric Weight"
    case Length => "Length"
    case Breadth => "Breadth"
    case Height => "Height"
    case ItemDescription => "Item Description"
    case Quantity => "Quantity"
    case UnitPrice => "Unit Price"
    case ReasonForItem => "Reason for Item"
    case CustomerName => "Customer Name"
    case PickupContactNumber => "Pickup Contact Number"
    case PickupPincode => "Pickup Pincode"
    case PickupAddressLine1 => "Pickup Address Line 1"
    case PickupCity => "Pickup City"
    case PickupState => "Pickup State"
    case DeliveryContactNumber => "Delivery Contact Number"
    case DeliveryPincode => "Delivery Pincode"
    case DeliveryAddressLine1 => "Delivery Address Line 1"
    case DeliveryCity => "Delivery City"
    case DeliveryState => "Delivery State"
  }

  /** The value the form holds for a field. */
  function Value(form: map<string, string>, field: Field): string {
    ValueOf(form, Name(field))
  }

  /** The required fields, section by section (keeping the groups apart keeps the
      verifier from evaluating the whole list at once). */
  const RequiredFields: seq<Field> :=
    [ReturnOrderNo, InvoiceValue, Weight, Length, Breadth, Height]
    + [ItemDescription, Quantity, UnitPrice, ReasonForItem]
    + [CustomerName, PickupContactNumber, PickupPincode, PickupAddressLine1, PickupCity, PickupState]
    + [DeliveryContactNumber, DeliveryPincode, DeliveryAddressLine1, DeliveryCity, DeliveryState]

  const NumericFields: seq<Field> :=
    [InvoiceValue, Weight, VolumetricWeight, Length, Breadth, Height]
    + [Quantity, UnitPrice]
    + [PickupContactNumber, PickupPincode]
    + [DeliveryContactNumber, DeliveryPincode]

  const PhoneFields: seq<Field> := [PickupContactNumber, DeliveryContactNumber]

  const PincodeFields: seq<Field> := [PickupPincode, DeliveryPincode]

  // ---- The four stages ----

  function MissingTest(form: map<string, string>): Field -> bool {
    field => Value(form, field) == ""
  }

  function NumericTest(form: map<string, string>, isPositiveNumber: string -> bool): Field -> bool {
    field => Value(form, field) != "" && !isPositiveNumber(Value(form, field))
  }

  function DigitsTest(form: map<string, string>, n: nat): Field -> bool {
    field => Value(form, field) != "" && !IsDigitsOfLength(Value(form, field), n)
  }

  /** The required fields left empty, in the order of the list. */
  function MissingFields(form: map<string, string>): (r: seq<Field>)
    ensures IsSubsequence(r, RequiredFields)
  {
    FilterSeq(RequiredFields, MissingTest(form))
  }

  /** The numeric fields holding something that is not a positive number. */
  function InvalidNumericFields(form: map<string, string>, isPositiveNumber: string -> bool): (r: seq<Field>)
    ensures IsSubsequence(r, NumericFields)
  {
    FilterSeq(NumericFields, NumericTest(form, isPositiveNumber))
  }

  /** The phone fields holding something other than exactly ten digits. */
  function InvalidPhoneFields(form: map<string, string>): (r: seq<Field>)
    ensures IsSubsequence(r, PhoneFields)
  {
    FilterSeq(PhoneFields, DigitsTest(form, 10))
  }

  /** The pincode fields holding something other than exactly six digits. */
  function InvalidPincodeFields(form: map<string, string>): (r: seq<Field>)
    ensures IsSubsequence(r, PincodeFields)
  {
    FilterSeq(PincodeFields, DigitsTest(form, 6))
  }

  /** The required stage reports exactly the required fields left empty. */
  lemma MissingFieldsExact(form: map<string, string>)
    ensures forall f :: f in MissingFields(form) <==> f in RequiredFields && Value(form, f) == ""
  {
    FilterSeqMembers(RequiredFields, MissingTest(form));
  }

  /** The numeric stage reports exactly the filled numeric fields that are not positive
      numbers; an empty field is never reported. */
  lemma InvalidNumericFieldsExact(form: map<string, string>, isPositiveNumber: string -> bool)
    ensures forall f :: f in InvalidNumericFields(form, isPositiveNumber) <==>
      f in NumericFields && Value(form, f) != "" && !isPositiveNumber(Value(form, f))
  {
    FilterSeqMembers(NumericFields, NumericTest(form, isPositiveNumber));
  }

  /** The phone stage reports exactly the filled phone fields that are not ten digits. */
  lemma InvalidPhoneFieldsExact(form: map<string, string>)
    ensures forall f :: f in InvalidPhoneFields(form) <==>
      f in PhoneFields && Value(form, f) != "" && !IsDigitsOfLength(Value(form, f), 10)
  {
    FilterSeqMembers(PhoneFields, DigitsTest(form, 10));
  }

  /** The pincode stage reports exactly the filled pincode fields that are not six digits. */
  lemma InvalidPincodeFieldsExact(form: map<string, string>)
    ensures forall f :: f in InvalidPincodeFields(form) <==>
      f in PincodeFields && Value(form, f) != "" && !IsDigitsOfLength(Value(form, f), 6)
  {
    FilterSeqMembers(PincodeFields, DigitsTest(form, 6));
  }

  /** The section opened for the first missing field; the reason for the item is not
      in any of the lists, so it falls through to the order details. */
  function SectionForMissing(field: Field): Section {
    if field in [ItemDescription, Quantity, UnitPrice] then ItemDetails
    else if field in [CustomerName, PickupContactNumber, PickupPincode, PickupAddressLine1, PickupCity, PickupState] then PickupDetails
    else if field in [DeliveryContactNumber, DeliveryPincode, DeliveryAddressLine1, DeliveryCity, DeliveryState] then DeliveryDetails
    else OrderDetails
  }

  /** The section opened for the first field that is not a positive number. */
  function SectionForNumeric(field: Field): Section {
    if field in [Quantity, UnitPrice] then ItemDetails
    else if field in [PickupContactNumber, PickupPincode] then PickupDetails
    else if field in [DeliveryContactNumber, DeliveryPincode] then DeliveryDetails
    else OrderDetails
  }

  function SectionForPhone(field: Field): Section {
    if field == DeliveryContactNumber then DeliveryDetails else PickupDetails
  }

  function SectionForPincode(field: Field): Section {
    if field == DeliveryPincode then DeliveryDetails else PickupDetails
  }

  datatype Stage = RequiredStage | NumericStage | PhoneStage | PincodeStage

  function StageTitle(stage: Stage): string {
    match stage
    case RequiredStage => "Missing Required Fields"
    case NumericStage => "Invalid Numeric Fields"
    case PhoneStage => "Invalid Phone Numbers"
    case PincodeStage => "Invalid Pincodes"
  }

  /** The first line of the toast's description. */
  function StageHeader(stage: Stage): string {
    match stage
    case RequiredStage => "Please fill in the following required fields:"
    case NumericStage => "Please enter valid numbers for the following fields:"
    case PhoneStage => "Please enter valid 10-digit phone numbers for:"
    case PincodeStage => "Please enter valid 6-digit pincodes for:"
  }

  /** The labels of the fields, in order. */
  function Labels(fields: seq<Field>): (labels: seq<string>)
    ensures |labels| == |fields|
    ensures forall i :: 0 <= i < |fields| ==> labels[i] == Label(fields[i])
  {
    seq(|fields|, i requires 0 <= i < |fields| => Label(fields[i]))
  }

  /** The line the toast gives one field. */
  function Bullet(caption: string): string {
    "\n\U{2022} " + caption
  }

  /** The lines the toast gives a list of labels, in order. */
  function Bullets(labels: seq<string>): string
    decreases |labels|
  {
    if labels == [] then "" else Bullets(labels[..|labels| - 1]) + Bullet(labels[|labels| - 1])
  }

  /** Every label of the list has its line in the text. */
  lemma {:induction false} BulletsListEveryLabel(labels: seq<string>, i: nat)
    requires i < |labels|
    ensures Contains(Bullets(labels), Bullet(labels[i]))
    decreases |labels|
  {
    var n := |labels|;
    if i == n - 1 {
      ContainsInfix(Bullets(labels[..n - 1]), Bullet(labels[i]), "");
      assert Bullets(labels[..n - 1]) + Bullet(labels[i]) + "" == Bullets(labels);
    } else {
      assert labels[..n - 1][i] == labels[i];
      BulletsListEveryLabel(labels[..n - 1], i);
      ContainsInPrefix(Bullets(labels[..n - 1]), Bullet(labels[n - 1]), Bullet(labels[i]));
    }
  }

  /** The `+=` loop that builds the toast's description. */
  method ComposeMessage(header: string, labels: seq<string>) returns (message: string)
    ensures message == header + Bullets(labels)
  {
    message := header;
    for i := 0 to |labels|
      invariant message == header + Bullets(labels[..i])
    {
      assert labels[..i + 1][..i] == labels[..i];
      message := message + Bullet(labels[i]);
    }
    assert labels[..|labels|] == labels;
  }

  /** The toast's description for a stage and its offending fields. */
  function StageMessage(stage: Stage, fields: seq<Field>): string {
    StageHeader(stage) + Bullets(Labels(fields))
  }

  /** The description starts with the stage's header and names every offending field. */
  lemma StageMessageNamesEveryField(stage: Stage, fields: seq<Field>, i: nat)
    requires i < |fields|
    ensures StartsWith(StageMessage(stage, fields), StageHeader(stage))
    ensures Contains(StageMessage(stage, fields), "\n\U{2022} " + Label(fields[i]))
  {
    var h := StageHeader(stage);
    var labels := Labels(fields);
    var b := Bullet(labels[i]);
    assert (h + Bullets(labels))[..|h|] == h;
    BulletsListEveryLabel(labels, i);
    var k := ContainsHasOffset(Bullets(labels), b);
    assert (h + Bullets(labels))[|h| + k..|h| + k + |b|] == Bullets(labels)[k..k + |b|];
    ContainsAt(StageMessage(stage, fields), b, |h| + k);
  }

  /** What `handleSubmit` decides before any request: block at the first failing stage
      (naming its offending fields and the section to open), or submit. */
  datatype SubmitOutcome =
    | Blocked(stage: Stage, fields: seq<Field>, section: Section)
    | Submitted

  /** The error toast of a blocked submission. */
  datatype ErrorToast = ErrorToast(title: string, description: string)

  /** The stages in order, given each stage's offending fields: the first stage with
      any blocks, lists them all and opens the section of the first; a form no stage
      objects to is submitted. */
  function Decide(missing: seq<Field>, numeric: seq<Field>, phones: seq<Field>, pincodes: seq<Field>): (r: SubmitOutcome)
    ensures r.Submitted? <==> missing == [] && numeric == [] && phones == [] && pincodes == []
    ensures r.Blocked? ==> |r.fields| > 0
    ensures r.Blocked? && r.stage == RequiredStage <==> missing != []
    ensures r.Blocked? && r.stage == NumericStage <==> missing == [] && numeric != []
    ensures r.Blocked? && r.stage == PhoneStage <==> missing == [] && numeric == [] && phones != []
    ensures r.Blocked? && r.stage == PincodeStage <==> missing == [] && numeric == [] && phones == [] && pincodes != []
    ensures missing != [] ==> r.fields == missing && r.section == SectionForMissing(missing[0])
    ensures missing == [] && numeric != [] ==> r.fields == numeric && r.section == SectionForNumeric(numeric[0])
    ensures (missing == [] && numeric == [] && phones != []) ==>
      r.fields == phones && r.section == SectionForPhone(phones[0])
    ensures (missing == [] && numeric == [] && phones == [] && pincodes != []) ==>
      r.fields == pincodes && r.section == SectionForPincode(pincodes[0])
  {
    if |missing| > 0 then Blocked(RequiredStage, missing, SectionForMissing(missing[0]))
    else if |numeric| > 0 then Blocked(NumericStage, numeric, SectionForNumeric(numeric[0]))
    else if |phones| > 0 then Blocked(PhoneStage, phones, SectionForPhone(phones[0]))
    else if |pincodes| > 0 then Blocked(PincodeStage, pincodes, SectionForPincode(pincodes[0]))
    else Submitted
  }

  /** `handleSubmit`'s checks on a form. */
  function Validate(form: map<string, string>, isPositiveNumber: string -> bool): SubmitOutcome {
    Decide(MissingFields(form), InvalidNumericFields(form, isPositiveNumber),
           InvalidPhoneFields(form), InvalidPincodeFields(form))
  }

  /** No required field is empty exactly when the required stage reports nothing. */
  lemma NoMissingIff(form: map<string, string>)
    ensures MissingFields(form) == [] <==> forall f :: f in RequiredFields ==> Value(form, f) != ""
  {
    MissingFieldsExact(form);
    var m := MissingFields(form);
    if m != [] {
      assert m[0] in m;
    }
  }

  lemma NoInvalidNumericIff(form: map<string, string>, isPositiveNumber: string -> bool)
    ensures InvalidNumericFields(form, isPositiveNumber) == [] <==>
      forall f :: f in NumericFields && Value(form, f) != "" ==> isPositiveNumber(Value(form, f))
  {
    InvalidNumericFieldsExact(form, isPositiveNumber);
    var n := InvalidNumericFields(form, isPositiveNumber);
    if n != [] {
      assert n[0] in n;
    }
  }

  lemma NoInvalidPhoneIff(form: map<string, string>)
    ensures InvalidPhoneFields(form) == [] <==>
      forall f :: f in PhoneFields && Value(form, f) != "" ==> IsDigitsOfLength(Value(form, f), 10)
  {
    InvalidPhoneFieldsExact(form);
    var p := InvalidPhoneFields(form);
    if p != [] {
      assert p[0] in p;
    }
  }

  lemma NoInvalidPincodeIff(form: map<string, string>)
    ensures InvalidPincodeFields(form) == [] <==>
      forall f :: f in PincodeFields && Value(form, f) != "" ==> IsDigitsOfLength(Value(form, f), 6)
  {
    InvalidPincodeFieldsExact(form);
    var c := InvalidPincodeFields(form);
    if c != [] {
      assert c[0] in c;
    }
  }

  /** The form is submitted exactly when every stage passes: every required field is
      filled, every filled numeric field is a positive number, and every filled phone
      and pincode field has exactly ten and six digits. */
  lemma ValidateSubmitsIff(form: map<string, string>, isPositiveNumber: string -> bool)
    ensures Validate(form, isPositiveNumber).Submitted? <==>
      && (forall f :: f in RequiredFields ==> Value(form, f) != "")
      && (forall f :: f in NumericFields && Value(form, f) != "" ==> isPositiveNumber(Value(form, f)))
      && (forall f :: f in PhoneFields && Value(form, f) != "" ==> IsDigitsOfLength(Value(form, f), 10))
      && (forall f :: f in PincodeFields && Value(form, f) != "" ==> IsDigitsOfLength(Value(form, f), 6))
  {
    NoMissingIff(form);
    NoInvalidNumericIff(form, isPositiveNumber);
    NoInvalidPhoneIff(form);
    NoInvalidPincodeIff(form);
  }

  /** An empty volumetric weight is never reported as an invalid number. */
  lemma EmptyVolumetricWeightPasses(form: map<string, string>, isPositiveNumber: string -> bool)
    requires Value(form, VolumetricWeight) == ""
    ensures VolumetricWeight !in InvalidNumericFields(form, isPositiveNumber)
  {
    InvalidNumericFieldsExact(form, isPositiveNumber);
  }

  /** A missing reason for the item opens the order details section, as it is not in
      the item list. */
  lemma MissingReasonOpensOrderDetails(form: map<string, string>, isPositiveNumber: string -> bool)
    requires MissingFields(form) != [] && MissingFields(form)[0] == ReasonForItem
    ensures Validate(form, isPositiveNumber) == Blocked(RequiredStage, MissingFields(form), OrderDetails)
  {
    ReasonSection();
  }

  /** The reason for the item belongs to none of the listed sections. */
  lemma ReasonSection()
    ensures SectionForMissing(ReasonForItem) == OrderDetails
  {
  }

  /** A form that passes the first two stages with a nine-digit pickup phone number is
      blocked at the phone stage, naming that field first and opening the pickup details. */
  lemma NineDigitPhoneRejected(form: map<string, string>, isPositiveNumber: string -> bool)
    requires MissingFields(form) == [] && InvalidNumericFields(form, isPositiveNumber) == []
    requires IsDigitsOfLength(Value(form, PickupContactNumber), 9)
    ensures var r := Validate(form, isPositiveNumber);
      && r.Blocked? && r.stage == PhoneStage && PickupContactNumber in r.fields
      && r.fields[0] == PickupContactNumber && r.section == PickupDetails
  {
    InvalidPhoneFieldsExact(form);
    assert PickupContactNumber in PhoneFields;
    assert DigitsTest(form, 10)(PickupContactNumber);
    assert InvalidPhoneFields(form)[0] == PickupContactNumber;
  }

  /** Ten-digit phone numbers and six-digit pincodes pass their stages. */
  lemma WellFormedPhoneAndPincodePass(form: map<string, string>)
    requires IsDigitsOfLength(Value(form, PickupContactNumber), 10)
    requires IsDigitsOfLength(Value(form, DeliveryContactNumber), 10)
    requires IsDigitsOfLength(Value(form, PickupPincode), 6)
    requires IsDigitsOfLength(Value(form, DeliveryPincode), 6)
    ensures InvalidPhoneFields(form) == [] && InvalidPincodeFields(form) == []
  {
    NoInvalidPhoneIff(form);
    NoInvalidPincodeIff(form);
  }

  /** A five-digit pincode is rejected once the earlier stages pass. */
  lemma FiveDigitPincodeRejected(form: map<string, string>, isPositiveNumber: string -> bool)
    requires MissingFields(form) == [] && InvalidNumericFields(form, isPositiveNumber) == []
    requires InvalidPhoneFields(form) == []
    requires IsDigitsOfLength(Value(form, DeliveryPincode), 5)
    ensures var r := Validate(form, isPositiveNumber);
      r.Blocked? && r.stage == PincodeStage && DeliveryPincode in r.fields
  {
    InvalidPincodeFieldsExact(form);
    assert DeliveryPincode in PincodeFields;
  }

  // ---- Field updates ----

  /** The city and state lookup `handleChange` starts for a six-character pincode. */
  datatype PincodeLookup = LookupPickup(pincode: string) | LookupDelivery(pincode: string)

  function PincodeLookupFor(name: string, value: string): (r: Option<PincodeLookup>)
    ensures r.Some? <==> (name == "pickupPincode" || name == "deliveryPincode") && |value| == 6
    ensures r.Some? ==> r.value.pincode == value && (r.value.LookupPickup? <==> name == "pickupPincode")
  {
    if name == "pickupPincode" && |value| == 6 then Some(LookupPickup(value))
    else if name == "deliveryPincode" && |value| == 6 then Some(LookupDelivery(value))
    else None
  }

  // ---- Reading back the answer ----

  /** What the form's request to the reverse-pickup endpoint came back with:
      `{success, data, error}`, or a failure to connect or parse. */
  datatype SubmitReply =
    | ConnectionFailed
    | ApiReply(success: bool, data: Option<ShipdelightService.BookingBody>, error: Option<string>)

  /** The toast shown for the answer; on `Created` the modal closes. */
  datatype SubmitToast = Created(awb: string) | CreateFailed(title: string, description: string)

  /** One line of the error list: `loc[1]: msg` when `loc` has a second element, else `msg`. */
  function ErrorLine(e: ShipdelightService.CarrierFieldError): string {
    if e.loc.Some? && |e.loc.value| > 1 then e.loc.value[1] + ": " + e.msg else e.msg
  }

  function ErrorLines(errors: seq<ShipdelightService.CarrierFieldError>): (lines: seq<string>)
    ensures |lines| == |errors|
    ensures forall i :: 0 <= i < |errors| && errors[i].loc.Some? && |errors[i].loc.value| > 1 ==>
      lines[i] == errors[i].loc.value[1] + ": " + errors[i].msg
    ensures forall i :: 0 <= i < |errors| && !(errors[i].loc.Some? && |errors[i].loc.value| > 1) ==>
      lines[i] == errors[i].msg
    ensures forall i :: 0 <= i < |errors| ==> lines[i] == ErrorLine(errors[i])
  {
    seq(|errors|, i requires 0 <= i < |errors| => ErrorLine(errors[i]))
  }

  /** `lines.join('\n')`. */
  function JoinLines(lines: seq<string>): string
    decreases |lines|
  {
    if lines == [] then ""
    else if |lines| == 1 then lines[0]
    else JoinLines(lines[..|lines| - 1]) + "\n" + lines[|lines| - 1]
  }

  /** Every line occurs in the joined text. */
  lemma {:induction false} JoinLinesContainsEach(lines: seq<string>, i: nat)
    requires i < |lines|
    ensures Contains(JoinLines(lines), lines[i])
    decreases |lines|
  {
    var n := |lines|;
    if n == 1 {
      ContainsInfix("", lines[0], "");
      assert "" + lines[0] + "" == lines[0];
    } else if i == n - 1 {
      ContainsInfix(JoinLines(lines[..n - 1]) + "\n", lines[i], "");
      assert JoinLines(lines[..n - 1]) + "\n" + lines[i] + "" == JoinLines(lines);
    } else {
      assert lines[..n - 1][i] == lines[i];
      JoinLinesContainsEach(lines[..n - 1], i);
      ContainsInPrefix(JoinLines(lines[..n - 1]), "\n" + lines[n - 1], lines[i]);
      assert JoinLines(lines[..n - 1]) + ("\n" + lines[n - 1]) == JoinLines(lines);
    }
  }

  function OrText(s: string, fallback: string): string {
    if s == "" then fallback else s
  }

  function Truthy(v: Option<string>): bool {
    v.Some? && v.value != ""
  }

  /** The airway-bill number shown: `data.data.response.airwaybilno`, else
      `data.response.airwaybilno`, else "Pending approval". */
  function AwbOf(body: Option<ShipdelightService.BookingBody>): (awb: string)
    ensures body.Some? && Truthy(body.value.nestedAwb) ==> awb == body.value.nestedAwb.value
    ensures body.Some? && !Truthy(body.value.nestedAwb) && Truthy(body.value.awb) ==> awb == body.value.awb.value
    ensures awb == "Pending approval" <==>
      body.None? || ((!Truthy(body.value.nestedAwb) || body.value.nestedAwb.value == "Pending approval")
                     && (Truthy(body.value.nestedAwb) || !Truthy(body.value.awb) || body.value.awb.value == "Pending approval"))
  {
    if body.Some? && Truthy(body.value.nestedAwb) then body.value.nestedAwb.value
    else if body.Some? && Truthy(body.value.awb) then body.value.awb.value
    else "Pending approval"
  }

  /** The toast for the answer: a success envelope that carries an `errors` list is a
      failure, listing the errors. */
  function InterpretReply(reply: SubmitReply): (t: SubmitToast)
    ensures t.Created? <==> reply.ApiReply? && reply.success && !(reply.data.Some? && reply.data.value.errors.Some?)
    ensures t.Created? ==> t.awb == AwbOf(reply.data)
    ensures reply.ApiReply? && reply.success && reply.data.Some? && reply.data.value.errors.Some? ==>
      var lines := ErrorLines(reply.data.value.errors.value);
      && t == CreateFailed("Failed to create reverse pickup", OrText(JoinLines(lines), "Please check your input data"))
  {
    match reply
    case ConnectionFailed =>
      CreateFailed("An error occurred", "Please check your connection and try again")
    case ApiReply(success, data, error) =>
      if success then
        if data.Some? && data.value.errors.Some? then
          CreateFailed("Failed to create reverse pickup",
                       OrText(JoinLines(ErrorLines(data.value.errors.value)), "Please check your input data"))
        else Created(AwbOf(data))
      else CreateFailed("Failed to create reverse pickup", OrText(error.GetOr(""), "Please try again later"))
  }

  /** A soft failure names every carrier error in its description. */
  lemma SoftFailureListsErrors(reply: SubmitReply, i: nat)
    requires reply.ApiReply? && reply.success && reply.data.Some? && reply.data.value.errors.Some?
    requires i < |reply.data.value.errors.value|
    ensures var t := InterpretReply(reply);
      t.CreateFailed? && Contains(t.description, ErrorLine(reply.data.value.errors.value[i]))
  {
    var lines := ErrorLines(reply.data.value.errors.value);
    JoinLinesContainsEach(lines, i);
    var j := JoinLines(lines);
    if j == "" {
      assert |lines[i]| <= |j| by {
        var k := ContainsHasOffset(j, lines[i]);
      }
      assert lines[i] == "";
      assert StartsWith(OrText(j, "Please check your input data"), "");
    }
  }

  // ---- The component's state ----

  const InitialForm: map<string, string> := map[
    "forwardAirwayBillNo" := "", "forwardOrderNo" := "", "returnOrderNo" := "", "transactionId" := "",
    "payType" := "Prepaid", "invoiceValue" := "", "weight" := "", "volumetricWeight" := "",
    "length" := "", "breadth" := "", "height" := "",
    "itemDescription" := "GO ALT TECHNOLOGY", "sku" := "", "quantity" := "", "actualWeight" := "",
    "unitPrice" := "", "itemVolWeight" := "", "itemLength" := "", "itemBreadth" := "",
    "itemHeight" := "", "reasonForItem" := "",
    "customerName" := "", "pickupContactNumber" := "", "pickupPincode" := "",
    "pickupAddressLine1" := "", "pickupAddressLine2" := "", "pickupCity" := "", "pickupState" := "",
    "deliveryLocation" := "GO ALT TECHNOLOGIES", "vendorName" := "GO ALT TECHNOLOGIES",
    "customerLastName" := "", "deliveryContactNumber" := "9741623600", "deliveryPincode" := "560037",
    "deliveryAddressLine1" := "iTweak, 35/1B, CRM Sowbhagya Complex, Varthur Main Road, Marathalli,Near Spice Garden Bus Stop, Bangalore",
    "deliveryAddressLine2" := "", "deliveryCity" := "BANGALORE", "deliveryState" := "KARNATAKA",
    "gstNumber" := "", "hsnNumber" := "", "eWayBillNumber" := "",
    "cgstPercentage" := "", "sgstPercentage" := "", "igstPercentage" := ""
  ]

  const InitialSections: map<Section, bool> := map[
    OrderDetails := true, ItemDetails := true, PickupDetails := false,
    DeliveryDetails := false, GstDetails := false
  ]

  /** The modal's `formData` and `openSections` state. */
  class ReturnOrderModal {
    var formData: map<string, string>
    var openSections: map<Section, bool>

    /** Every section has an open/closed flag. */
    ghost predicate Valid()
      reads this
    {
      && OrderDetails in openSections && ItemDetails in openSections && PickupDetails in openSections
      && DeliveryDetails in openSections && GstDetails in openSections
    }

    constructor ()
      ensures Valid() && formData == InitialForm && openSections == InitialSections
    {
      formData := InitialForm;
      openSections := InitialSections;
    }

    /** `toggleSection`: flip the named section and nothing else. */
    method ToggleSection(section: Section)
      requires Valid()
      modifies this`openSections
      ensures Valid()
      ensures openSections[section] == !old(openSections)[section]
      ensures forall s :: s != section ==> openSections[s] == old(openSections)[s]
      ensures unchanged(this`formData)
    {
      openSections := openSections[section := !openSections[section]];
    }

    /** `handleChange`: set the named field and nothing else; the result is the pincode
        lookup it starts, if any. */
    method HandleChange(name: string, value: string) returns (lookup: Option<PincodeLookup>)
      requires Valid()
      modifies this`formData
      ensures Valid()
      ensures formData == old(formData)[name := value]
      ensures forall f :: f != name ==> ValueOf(formData, f) == ValueOf(old(formData), f)
      ensures unchanged(this`openSections)
      ensures lookup == PincodeLookupFor(name, value)
    {
      formData := formData[name := value];
      lookup := None;
      if name == "pickupPincode" && |value| == 6 {
        lookup := Some(LookupPickup(value));
      }
      if name == "deliveryPincode" && |value| == 6 {
        lookup := Some(LookupDelivery(value));
      }
    }

    /** The validation part of `handleSubmit`: on the first failing stage, open the
        section of its first offending field and stop; otherwise submit. The form
        itself is not changed. */
    method HandleSubmit(isPositiveNumber: string -> bool) returns (outcome: SubmitOutcome, toast: Option<ErrorToast>)
      requires Valid()
      modifies this`openSections
      ensures Valid()
      ensures outcome == Validate(old(formData), isPositiveNumber)
      ensures unchanged(this`formData)
      ensures outcome.Blocked? ==> openSections == old(openSections)[outcome.section := true]
      ensures outcome.Submitted? ==> openSections == old(openSections)
      ensures toast.Some? <==> outcome.Blocked?
      ensures outcome.Blocked? ==>
        toast == Some(ErrorToast(StageTitle(outcome.stage), StageMessage(outcome.stage, outcome.fields)))
    {
      outcome := Validate(formData, isPositiveNumber);
      if outcome.Submitted? {
        return outcome, None;
      }
      openSections := openSections[outcome.section := true];
      var message := ComposeMessage(StageHeader(outcome.stage), Labels(outcome.fields));
      toast := Some(ErrorToast(StageTitle(outcome.stage), message));
    }
  }
}
