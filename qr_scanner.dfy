/**
 * The QR scanner component: the callbacks the camera scanner reports to
 * (a decoded string, or a camera error) and the pay button's handler. The
 * decoded string's `JSON.parse` is an input: `None` when it throws.
 */
module QrScanner {
  import opened Wrappers
  import opened JsValue
  import opened Gateway
  import opened AuthContext

  const FormatError := "Invalid QR Code format"
  const MissingFields := "Invalid QR Code: missing required fields"
  const CameraErrorPrefix := "Camera error: "

  /** What the scan callback makes of one decoded string. */
  datatype ScanVerdict = Accepted(payload: Json) | Rejected(message: string)

  /** Both `userId` and `amount` of the parsed value are truthy. */
  predicate HasRequiredFields(v: Json)
    requires !v.JNull?
  {
    IsTruthy(Prop(v, "userId")) && IsTruthy(Prop(v, "amount"))
  }

  /**
   * The scan rule. A string that does not parse is a format error, and so is
   * the literal `null` (reading `userId` of null throws inside the same `try`).
   * A value without a truthy `userId` and a truthy `amount` misses fields.
   * Anything else is accepted exactly as parsed.
   */
  function ValidateScan(parsed: Option<Json>): (v: ScanVerdict)
    ensures v == Rejected(FormatError) <==> parsed == None || parsed == Some(JNull)
    ensures v == Rejected(MissingFields) <==> parsed.Some? && !parsed.value.JNull? && !HasRequiredFields(parsed.value)
    ensures v.Accepted? <==> parsed.Some? && !parsed.value.JNull? && HasRequiredFields(parsed.value)
    ensures v.Accepted? ==> parsed == Some(v.payload)
  {
    match parsed
    case None => Rejected(FormatError)
    case Some(value) =>
      if value.JNull? then Rejected(FormatError)
      else if !IsTruthy(Prop(value, "userId")) || !IsTruthy(Prop(value, "amount")) then Rejected(MissingFields)
      else Accepted(value)
  }

  /** An amount of 0 is falsy, so a payload carrying it is rejected whatever its `userId`. */
  lemma ZeroAmountRejected(members: map<string, Json>)
    requires "amount" in members && members["amount"] == JNum(0.0)
    ensures ValidateScan(Some(JObject(members))) == Rejected(MissingFields)
  {
  }

  /** An empty `userId` is falsy, so a payload carrying it is rejected whatever its `amount`. */
  lemma EmptyUserIdRejected(members: map<string, Json>)
    requires "userId" in members && members["userId"] == JStr("")
    ensures ValidateScan(Some(JObject(members))) == Rejected(MissingFields)
  {
  }

  /** A payload with a non-empty string `userId` and a non-zero numeric `amount` is stored as it is. */
  lemma WellFormedPayloadAccepted(members: map<string, Json>, userId: string, amount: real)
    requires userId != "" && amount != 0.0
    requires "userId" in members && members["userId"] == JStr(userId)
    requires "amount" in members && members["amount"] == JNum(amount)
    ensures ValidateScan(Some(JObject(members))) == Accepted(JObject(members))
  {
  }

  /**
   * The validator asks for `userId` and `amount`, but the pay button sends
   * `qrData.id`: a payload the validator accepts need not have an `id` at all.
   */
  lemma AcceptedPayloadNeedNotCarryId()
    ensures var payload := JObject(map["userId" := JStr("u2"), "amount" := JNum(500.0)]);
      ValidateScan(Some(payload)) == Accepted(payload) && Prop(payload, "id") == Undefined
  {
  }

  /**
   * The component destructures `qrData` from the context, which offers only
   * `scannedQrData`: `qrData` is always undefined, so the pay guard always fires.
   */
  lemma QrDataIsNeverProvided(context: AuthProvider)
    ensures "qrData" !in ContextKeys && "scannedQrData" in ContextKeys
    ensures context.ContextEntry("qrData") == Undefined
  {
  }

  /** What the pay button reports through `alert`. */
  datatype PayNotice = InvalidQr | PaymentSucceeded | PaymentFailed(error: Error)

  /** `err.message || err`, with the backend's error body abstracted to its reason. */
  function ErrorText(e: Error): (text: string) {
    match e
    case Guard(message) => message
    case Remote(reason) => reason
  }

  function AlertText(n: PayNotice): (text: string) {
    match n
    case InvalidQr => "Invalid QR"
    case PaymentSucceeded => "Payment successful!"
    case PaymentFailed(e) => "Payment failed: " + ErrorText(e)
  }

  class QrScannerModule {
    /** The provider the component reads through `useAuthContext`. */
    const context: AuthProvider
    var scanError: Option<string>

    constructor (context: AuthProvider)
      ensures this.context == context && scanError == None
    {
      this.context := context;
      scanError := None;
    }

    /** The scanner's success callback, given `JSON.parse` of the decoded string. */
    method OnScanSuccess(parsed: Option<Json>)
      requires context.Valid()
      modifies this, context
      ensures context.Valid()
      ensures match ValidateScan(parsed)
        case Accepted(payload) =>
          scanError == None && context.Snapshot() == old(context.Snapshot()).(scannedQrData := Some(payload))
        case Rejected(message) =>
          scanError == Some(message) && context.Snapshot() == old(context.Snapshot())
    {
      match ValidateScan(parsed)
      case Rejected(message) =>
        scanError := Some(message);
      case Accepted(payload) =>
        scanError := None;
        context.SetScannedQrData(Some(payload));
    }

    /** The scanner's error callback: reports the camera error and leaves the scanned payload alone. */
    method OnScanError(err: string)
      modifies this
      ensures scanError == Some(CameraErrorPrefix + err)
      ensures unchanged(context)
    {
      scanError := Some(CameraErrorPrefix + err);
    }

    /**
     * `handlePayQr` for a given `qrData`: nothing is sent unless it is truthy,
     * and then the payment is asked for with exactly `qrData.id` and the
     * notice reports the outcome. As wired, the component's `qrData` is
     * `context.ContextEntry("qrData")`, which is always undefined.
     */
    method HandlePayQr(qrData: Field, payReply: Reply<Json>, profileReply: Reply<Profile>) returns (notice: PayNotice)
      requires context.Valid()
      modifies context
      ensures context.Valid()
      ensures !IsTruthy(qrData) ==> notice == InvalidQr && context.Snapshot() == old(context.Snapshot())
      ensures IsTruthy(qrData) && old(context.token) == "" ==>
        notice == PaymentFailed(Guard(NoTokenForAuthorization)) && context.Snapshot() == old(context.Snapshot())
      ensures IsTruthy(qrData) && old(context.token) != "" && !SignedIn(old(context.user)) ==>
        notice == PaymentFailed(Guard(NotAuthenticated)) && context.Snapshot() == old(context.Snapshot())
      ensures IsTruthy(qrData) && old(context.token) != "" && SignedIn(old(context.user)) ==>
        var pay := PostPayQr(Prop(qrData.value, "id"), old(context.user).value.id.value, AuthHeader("", old(context.token)));
        var refreshed := old(context.Snapshot()).(sent := old(context.sent) + [pay, GetProfile(AuthHeader("", old(context.token)))]);
        match payReply
        case Failed(why) =>
          notice == PaymentFailed(Remote(why)) && context.Snapshot() == old(context.Snapshot()).(sent := old(context.sent) + [pay])
        case Answered(_) =>
          match profileReply
          case Answered(p) =>
            notice == PaymentSucceeded &&
            context.Snapshot() == refreshed.(user := Some(p), walletBalance := p.walletBalance, scannedQrData := None)
          case Failed(why) =>
            notice == PaymentFailed(Remote(why)) && context.Snapshot() == LoggedOut(refreshed)
    {
      if !IsTruthy(qrData) {
        notice := InvalidQr;
        return;
      }
      var r := context.PayWithQr(Prop(qrData.value, "id"), payReply, profileReply);
      notice := if r.Ok? then PaymentSucceeded else PaymentFailed(r.error);
    }
  }
}
