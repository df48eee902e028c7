/**
 * The tracking dialog of components/TrackOrderModal.tsx: the helpers that classify a
 * carrier status for display, and the guard and state updates of a tracking request.
 */
module TrackOrder {
  import opened Wrappers
  import opened Strings
  import ReturnOrderForm

  /** `isReturnStatus`: a history status code that marks a return step. */
  predicate IsReturnStatus(code: string) {
    StartsWith(code, "R") || code == "Return-Exchange"
  }

  /** "Return-Exchange" itself starts with 'R', so the test is a first-letter test. */
  lemma IsReturnStatusIsFirstLetter(code: string)
    ensures IsReturnStatus(code) <==> |code| > 0 && code[0] == 'R'
  {
    if code == "Return-Exchange" {
      assert code[..1] == "R";
    }
  }

  /** `isReturn`: the order is a return by its type, or by its (upper-cased) status. */
  predicate IsReturn(upperStatus: string, orderType: string) {
    ToUpper(orderType) == "REVERSE" || Contains(upperStatus, "REVERSE")
  }

  /** The three priority levels shared by the colour and the icon. */
  predicate Delivered(u: string) {
    Contains(u, "DELIVERED")
  }

  predicate Failure(u: string) {
    Contains(u, "FAILED") || Contains(u, "UNDELIVERED") || Contains(u, "REJECTED")
  }

  predicate Pending(u: string) {
    Contains(u, "PENDING")
  }

  predicate InMotion(u: string) {
    Contains(u, "TRANSIT") || Contains(u, "PICKUP DONE")
  }

  datatype StatusColor = Green | Red | Orange | Purple | Blue

  /** The Tailwind classes of each colour. */
  function ColorClasses(c: StatusColor): string {
    match c
    case Green => "bg-green-50 text-green-700 border-green-200"
    case Red => "bg-red-50 text-red-700 border-red-200"
    case Orange => "bg-orange-50 text-orange-700 border-orange-200"
    case Purple => "bg-purple-50 text-purple-700 border-purple-200"
    case Blue => "bg-blue-50 text-blue-700 border-blue-200"
  }

  /** `getStatusColor` as written: delivered, failure, pending, return, otherwise blue. */
  function StatusColorOf(status: string, orderType: string): (c: StatusColor)
    ensures var u := ToUpper(status);
      && (c == Green <==> Delivered(u))
      && (c == Red <==> !Delivered(u) && Failure(u))
      && (c == Orange <==> !Delivered(u) && !Failure(u) && Pending(u))
      && (c == Purple <==> !Delivered(u) && !Failure(u) && !Pending(u) && IsReturn(u, orderType))
  {
    var u := ToUpper(status);
    if Delivered(u) then Green
    else if Failure(u) then Red
    else if Pending(u) then Orange
    else if IsReturn(u, orderType) then Purple
    else Blue
  }

  datatype StatusIcon = CheckCircle | XCircle | Clock | RotateCcw | Truck | ArrowLeftRight | PackageIcon

  /** `getStatusIcon` as written. */
  function StatusIconOf(status: string, orderType: string): (icon: StatusIcon)
    ensures var u := ToUpper(status);
      && (icon == CheckCircle <==> Delivered(u))
      && (icon == XCircle <==> !Delivered(u) && Failure(u))
      && (icon == Clock <==> !Delivered(u) && !Failure(u) && Pending(u))
      && (icon == RotateCcw <==> !Delivered(u) && !Failure(u) && !Pending(u) && InMotion(u) && IsReturn(u, orderType))
      && (icon == Truck <==> !Delivered(u) && !Failure(u) && !Pending(u) && InMotion(u) && !IsReturn(u, orderType))
      && (icon == ArrowLeftRight <==>
            !Delivered(u) && !Failure(u) && !Pending(u) && !InMotion(u) && Contains(u, "REVERSE"))
  {
    var u := ToUpper(status);
    if Delivered(u) then CheckCircle
    else if Failure(u) then XCircle
    else if Pending(u) then Clock
    else if InMotion(u) then (if IsReturn(u, orderType) then RotateCcw else Truck)
    else if Contains(u, "REVERSE") then ArrowLeftRight
    else PackageIcon
  }

  /** The colour and the icon agree on the three shared priority levels. */
  lemma ColorMatchesIcon(status: string, orderType: string)
    ensures StatusColorOf(status, orderType) == Green <==> StatusIconOf(status, orderType) == CheckCircle
    ensures StatusColorOf(status, orderType) == Red <==> StatusIconOf(status, orderType) == XCircle
    ensures StatusColorOf(status, orderType) == Orange <==> StatusIconOf(status, orderType) == Clock
  {
  }

  /** Both helpers ignore the case of the status and of the order type. */
  lemma ClassifiersIgnoreCase(status: string, orderType: string)
    ensures StatusColorOf(ToUpper(status), ToUpper(orderType)) == StatusColorOf(status, orderType)
    ensures StatusIconOf(ToUpper(status), ToUpper(orderType)) == StatusIconOf(status, orderType)
  {
    ToUpperIdempotent(status);
    ToUpperIdempotent(orderType);
  }

  /** Anything that mentions an undelivered shipment mentions a delivered one. */
  lemma UndeliveredMentionsDelivered(u: string)
    requires Contains(u, "UNDELIVERED")
    ensures Delivered(u)
  {
    assert "UNDELIVERED"[2..2 + |"DELIVERED"|] == "DELIVERED";
    ContainsAt("UNDELIVERED", "DELIVERED", 2);
    ContainsTransitive(u, "UNDELIVERED", "DELIVERED");
  }

  /** As written, an undelivered shipment is shown in green with a check mark: the
      delivered test comes first and matches inside "UNDELIVERED". */
  lemma UndeliveredShownAsDelivered(status: string, orderType: string)
    requires Contains(ToUpper(status), "UNDELIVERED")
    ensures StatusColorOf(status, orderType) == Green
    ensures StatusIconOf(status, orderType) == CheckCircle
  {
    UndeliveredMentionsDelivered(ToUpper(status));
  }

  /** The colour with the failure test ahead of the delivered test. */
  function StatusColorIntended(status: string, orderType: string): (c: StatusColor)
    ensures Failure(ToUpper(status)) ==> c == Red
  {
    var u := ToUpper(status);
    if Failure(u) then Red
    else if Delivered(u) then Green
    else if Pending(u) then Orange
    else if IsReturn(u, orderType) then Purple
    else Blue
  }

  /** The icon with the failure test ahead of the delivered test. */
  function StatusIconIntended(status: string, orderType: string): (icon: StatusIcon)
    ensures Failure(ToUpper(status)) ==> icon == XCircle
  {
    var u := ToUpper(status);
    if Failure(u) then XCircle
    else if Delivered(u) then CheckCircle
    else if Pending(u) then Clock
    else if InMotion(u) then (if IsReturn(u, orderType) then RotateCcw else Truck)
    else if Contains(u, "REVERSE") then ArrowLeftRight
    else PackageIcon
  }

  /** The corrected helpers show an undelivered shipment as a failure, and differ from
      the written ones only on statuses that mention both delivery and failure. */
  lemma IntendedClassifiers(status: string, orderType: string)
    ensures Contains(ToUpper(status), "UNDELIVERED") ==>
      StatusColorIntended(status, orderType) == Red && StatusIconIntended(status, orderType) == XCircle
    ensures StatusColorIntended(status, orderType) != StatusColorOf(status, orderType) ==>
      Delivered(ToUpper(status)) && Failure(ToUpper(status))
    ensures StatusIconIntended(status, orderType) != StatusIconOf(status, orderType) ==>
      Delivered(ToUpper(status)) && Failure(ToUpper(status))
  {
  }

  /** `awbNumber.trim()` when it is not blank: the AWB the request carries. */
  function TrackRequest(awb: string): Option<string> {
    var t := Trim(awb);
    if t == "" then None else Some(t)
  }

  /** The request is refused exactly for a blank AWB; otherwise it carries a non-empty
      part of the input with no white space at either end. */
  lemma TrackRequestShape(awb: string)
    ensures TrackRequest(awb).None? <==> AllWhitespace(awb)
    ensures TrackRequest(awb).Some? ==>
      var r := TrackRequest(awb).value;
      && r != ""
      && !IsJsWhitespace(r[0]) && !IsJsWhitespace(r[|r| - 1])
      && Contains(awb, r)
  {
    TrimEmptyIff(awb);
    TrimShape(awb);
  }

  /** What the tracking endpoint gave back: no parsable answer, or its JSON fields
      (`data` stands for the tracking object, present or absent). */
  datatype TrackReply =
    | ConnectionFailed
    | TrackAnswer(success: bool, data: Option<string>, error: Option<string>)

  const BlankAwbToast := ReturnOrderForm.ErrorToast("Please enter an AWB number", "")

  /** What a reply leaves in the dialog: the tracking data, the error line, the toast. */
  datatype TrackEffect = TrackEffect(
    trackingData: Option<string>, error: Option<string>, toast: Option<ReturnOrderForm.ErrorToast>)

  /** The state a reply leaves behind. */
  function ReplyEffect(reply: TrackReply): TrackEffect
  {
    match reply
    case ConnectionFailed =>
      TrackEffect(None, Some("Failed to connect to tracking service"),
        Some(ReturnOrderForm.ErrorToast("Tracking failed", "Could not connect to tracking service")))
    case TrackAnswer(success, data, err) =>
      if success && data.Some? then TrackEffect(data, None, None)
      else
        var text := err.GetOr("");
        TrackEffect(None, Some(ReturnOrderForm.OrText(text, "Failed to track order")),
          Some(ReturnOrderForm.ErrorToast("Tracking failed",
                 ReturnOrderForm.OrText(text, "Could not find tracking information"))))
  }

  /** A reply with `success` and data shows the data; any other answer shows its
      `error`, or a fixed fallback; no answer at all is a connection failure. */
  lemma ReplyEffectCases(reply: TrackReply)
    ensures var e := ReplyEffect(reply);
      && (e.trackingData.Some? <==> reply.TrackAnswer? && reply.success && reply.data.Some?)
      && (e.trackingData.Some? ==> e.trackingData == reply.data && e.error.None? && e.toast.None?)
      && (e.trackingData.None? ==> e.error.Some? && e.toast.Some? && e.toast.value.title == "Tracking failed")
    ensures var e := ReplyEffect(reply);
      reply.ConnectionFailed? ==>
        && e.error == Some("Failed to connect to tracking service")
        && e.toast.value.description == "Could not connect to tracking service"
    ensures var e := ReplyEffect(reply);
      reply.TrackAnswer? && e.trackingData.None? && reply.error.Some? && reply.error.value != "" ==>
        e.error == reply.error && e.toast.value.description == reply.error.value
    ensures var e := ReplyEffect(reply);
      reply.TrackAnswer? && e.trackingData.None? && (reply.error.None? || reply.error.value == "") ==>
        && e.error == Some("Failed to track order")
        && e.toast.value.description == "Could not find tracking information"
  {
  }

  /** The dialog's state. */
  class TrackOrderModal {
    var awbNumber: string
    var isLoading: bool
    var trackingData: Option<string>
    var error: Option<string>

    /** The input starts out holding the AWB the dialog was opened with. */
    constructor(initialAwb: string)
      ensures awbNumber == initialAwb && !isLoading && trackingData == None && error == None
    {
      awbNumber := initialAwb;
      isLoading := false;
      trackingData := None;
      error := None;
    }

    /** The input's change handler. */
    method SetAwbNumber(value: string)
      modifies this`awbNumber
      ensures awbNumber == value
    {
      awbNumber := value;
    }

    /** `handleTrack`: a blank AWB is refused before any request; otherwise the trimmed
        AWB is posted and the reply decides between tracking data and an error. */
    method HandleTrack(reply: TrackReply) returns (request: Option<string>, toast: Option<ReturnOrderForm.ErrorToast>)
      modifies this`isLoading, this`trackingData, this`error
      ensures request == TrackRequest(old(awbNumber))
      ensures unchanged(this`awbNumber)
      ensures request.None? ==>
        && toast == Some(BlankAwbToast)
        && unchanged(this`isLoading) && unchanged(this`trackingData) && unchanged(this`error)
      ensures request.Some? ==>
        && !isLoading
        && trackingData == ReplyEffect(reply).trackingData
        && error == ReplyEffect(reply).error
        && toast == ReplyEffect(reply).toast
    {
      request := TrackRequest(awbNumber);
      if request.None? {
        return request, Some(BlankAwbToast);
      }
      isLoading := true;
      error := None;
      trackingData := None;
      var effect := ReplyEffect(reply);
      trackingData := effect.trackingData;
      error := effect.error;
      toast := effect.toast;
      isLoading := false;
    }
  }
}
