/** Inbound decoding and routing, and the outbound error policy, as functions:
    what callbacks one posted message produces, and what one send produces. */
module Messages {
  import opened Wrappers
  import opened Events
  import opened Operations

  // ---------------------------------------------------------------------------
  // The envelope
  // ---------------------------------------------------------------------------

  /** A JSON value as far as the envelope decoder cares: a string or anything else. */
  datatype JsonValue = JString(s: string) | JOther

  /** The JSON parser's view of a raw message: not JSON at all, JSON that is not
      an object, or an object with its fields (duplicate keys already resolved). */
  datatype JsonDoc = Malformed | NotAnObject | JObject(fields: map<string, JsonValue>)

  /** The wire envelope from page to host. */
  datatype WebToSdkEvent = WebToSdkEvent(name: string, body: string)

  predicate IsStringField(fields: map<string, JsonValue>, key: string) {
    key in fields && fields[key].JString?
  }

  /** Deserialise a `WebToSdkEvent`: `name` is a required string, `body` an
      optional string that defaults to "", and every other field is ignored. */
  function DecodeEnvelope(doc: JsonDoc): (r: Result<WebToSdkEvent>)
    ensures r.Success? <==>
      doc.JObject? && IsStringField(doc.fields, "name") && ("body" in doc.fields ==> IsStringField(doc.fields, "body"))
    ensures r.Success? ==> doc.fields["name"] == JString(r.value.name)
    ensures r.Success? && "body" in doc.fields ==> doc.fields["body"] == JString(r.value.body)
    ensures r.Success? && "body" !in doc.fields ==> r.value.body == ""
  {
    match doc
    case Malformed => Failure("malformed JSON")
    case NotAnObject => Failure("expected a JSON object")
    case JObject(fields) =>
      if !IsStringField(fields, "name") then Failure("field 'name' is required and must be a string")
      else if "body" in fields && !IsStringField(fields, "body") then Failure("field 'body' must be a string")
      else Success(WebToSdkEvent(fields["name"].s, if "body" in fields then fields["body"].s else ""))
  }

  /** Fields other than `name` and `body` do not change the decoded envelope. */
  lemma UnknownFieldsIgnored(fields: map<string, JsonValue>, key: string, v: JsonValue)
    requires key != "name" && key != "body"
    ensures DecodeEnvelope(JObject(fields[key := v])) == DecodeEnvelope(JObject(fields))
  {
  }

  /** Kotlin's `toBooleanStrictOrNull`: exactly "true" or "false", case-sensitive. */
  function ToBooleanStrictOrNull(s: string): (r: Option<bool>)
    ensures r == Some(true) <==> s == "true"
    ensures r == Some(false) <==> s == "false"
    ensures r.None? <==> s != "true" && s != "false"
  {
    if s == "true" then Some(true)
    else if s == "false" then Some(false)
    else None
  }

  // ---------------------------------------------------------------------------
  // Collaborators: the JSON facility and the payload decoders and encoder
  // ---------------------------------------------------------------------------

  /** The library code the bridge calls. Each decoder may throw (Failure); the
      pixel and error decoders may also return null (None). */
  datatype Collaborators = Collaborators(
    json: string -> JsonDoc,
    completedDecoder: WebToSdkEvent -> Result<CheckoutCompletedEvent>,
    pixelDecoder: WebToSdkEvent -> Result<Option<PixelEvent>>,
    errorDecoder: WebToSdkEvent -> Result<Option<CheckoutException>>,
    encode: SdkToWebEvent<InstrumentationPayload> -> string)

  // ---------------------------------------------------------------------------
  // Inbound: postMessage
  // ---------------------------------------------------------------------------

  const ReceiveFailureDescription := "Error decoding message from checkout."

  /** The one error reported when anything on the inbound path throws. */
  const ReceiveFailure: CheckoutException :=
    CheckoutSheetKitException(ReceiveFailureDescription, ErrorReceivingMessageFromCheckout, true)

  /** The callbacks a decoded envelope is routed to, or Failure when the
      operation's decoder throws. */
  function Route(c: Collaborators, msg: WebToSdkEvent): (r: Result<seq<Callback>>)
    ensures r.Success? ==> |r.value| <= 1
    ensures r.Failure? ==> msg.name in {"completed", "webPixels", "error"}
  {
    match FromKey(msg.name)
    case None => Success([])
    case Some(Completed) =>
      (match c.completedDecoder(msg)
       case Failure(e) => Failure(e)
       case Success(event) => Success([CheckoutViewComplete(event)]))
    case Some(Modal) =>
      (match ToBooleanStrictOrNull(msg.body)
       case None => Success([])
       case Some(visible) => Success([CheckoutViewModalToggled(visible)]))
    case Some(WebPixels) =>
      (match c.pixelDecoder(msg)
       case Failure(e) => Failure(e)
       case Success(None) => Success([])
       case Success(Some(event)) => Success([WebPixel(event)]))
    case Some(Error) =>
      (match c.errorDecoder(msg)
       case Failure(e) => Failure(e)
       case Success(None) => Success([])
       case Success(Some(exception)) => Success([CheckoutViewFailedWithError(exception)]))
  }

  /** The callbacks the processor receives for one posted message: what the
      envelope routes to, or the single receive error when decoding throws. */
  function Receive(c: Collaborators, message: string): (r: seq<Callback>)
    ensures |r| <= 1
    ensures DecodeEnvelope(c.json(message)).Failure? ==> r == [CheckoutViewFailedWithError(ReceiveFailure)]
  {
    match DecodeEnvelope(c.json(message))
    case Failure(_) => [CheckoutViewFailedWithError(ReceiveFailure)]
    case Success(msg) =>
      match Route(c, msg)
      case Failure(_) => [CheckoutViewFailedWithError(ReceiveFailure)]
      case Success(callbacks) => callbacks
  }

  /** The envelope of a message that decodes. */
  function EnvelopeOf(c: Collaborators, message: string): (envelope: WebToSdkEvent)
    requires DecodeEnvelope(c.json(message)).Success?
  {
    DecodeEnvelope(c.json(message)).value
  }

  /** The receive error has the fixed description and code and is recoverable. */
  lemma ReceiveFailureShape()
    ensures ReceiveFailure.errorDescription == "Error decoding message from checkout."
    ensures ReceiveFailure.errorCode == ErrorReceivingMessageFromCheckout && ReceiveFailure.isRecoverable
  {
  }

  /** A well-formed message whose name is not one of the four keys produces no callback at all. */
  lemma ReceiveUnknownName(c: Collaborators, message: string)
    requires DecodeEnvelope(c.json(message)).Success?
    requires EnvelopeOf(c, message).name !in InboundKeys
    ensures Receive(c, message) == []
  {
  }

  /** `completed`: exactly one completion callback carrying the decoder's
      event, or the single receive error when the decoder throws. */
  lemma ReceiveCompleted(c: Collaborators, message: string)
    requires DecodeEnvelope(c.json(message)).Success?
    requires EnvelopeOf(c, message).name == "completed"
    ensures var decoded := c.completedDecoder(EnvelopeOf(c, message));
      Receive(c, message) ==
        if decoded.Success? then [CheckoutViewComplete(decoded.value)]
        else [CheckoutViewFailedWithError(ReceiveFailure)]
  {
  }

  /** `checkoutBlockingEvent`: body "true" or "false" toggles the modal once;
      any other body (e.g. "True", or the default "") produces nothing, not even an error. */
  lemma ReceiveModal(c: Collaborators, message: string)
    requires DecodeEnvelope(c.json(message)).Success?
    requires EnvelopeOf(c, message).name == "checkoutBlockingEvent"
    ensures EnvelopeOf(c, message).body == "true" ==> Receive(c, message) == [CheckoutViewModalToggled(true)]
    ensures EnvelopeOf(c, message).body == "false" ==> Receive(c, message) == [CheckoutViewModalToggled(false)]
    ensures EnvelopeOf(c, message).body !in {"true", "false"} ==> Receive(c, message) == []
  {
  }

  /** `webPixels`: a pixel callback exactly when the decoder returns an event,
      carrying that event; nothing on null; the receive error when it throws. */
  lemma ReceiveWebPixels(c: Collaborators, message: string)
    requires DecodeEnvelope(c.json(message)).Success?
    requires EnvelopeOf(c, message).name == "webPixels"
    ensures var decoded := c.pixelDecoder(EnvelopeOf(c, message));
      Receive(c, message) ==
        if decoded.Failure? then [CheckoutViewFailedWithError(ReceiveFailure)]
        else if decoded.value.Some? then [WebPixel(decoded.value.value)]
        else []
  {
  }

  /** `error`: a failure callback exactly when the decoder returns an
      exception, carrying it; nothing on null; the receive error when it throws. */
  lemma ReceiveError(c: Collaborators, message: string)
    requires DecodeEnvelope(c.json(message)).Success?
    requires EnvelopeOf(c, message).name == "error"
    ensures var decoded := c.errorDecoder(EnvelopeOf(c, message));
      Receive(c, message) ==
        if decoded.Failure? then [CheckoutViewFailedWithError(ReceiveFailure)]
        else if decoded.value.Some? then [CheckoutViewFailedWithError(decoded.value.value)]
        else []
  {
  }

  /** Only the completed operation always produces a callback; a modal toggle
      is the only callback a `checkoutBlockingEvent` message can produce, and
      only a `completed` message produces a completion. */
  lemma ReceiveCallbackMatchesName(c: Collaborators, message: string)
    requires DecodeEnvelope(c.json(message)).Success?
    ensures Receive(c, message) != [] && Receive(c, message)[0].CheckoutViewComplete? ==>
      EnvelopeOf(c, message).name == "completed"
    ensures Receive(c, message) != [] && Receive(c, message)[0].CheckoutViewModalToggled? ==>
      EnvelopeOf(c, message).name == "checkoutBlockingEvent"
    ensures Receive(c, message) != [] && Receive(c, message)[0].WebPixel? ==>
      EnvelopeOf(c, message).name == "webPixels"
  {
  }

  // ---------------------------------------------------------------------------
  // Outbound: sendMessage's error policy
  // ---------------------------------------------------------------------------

  const SendFailurePrefix := "Failed to send "

  /** The error reported when evaluating the script for `op` throws. */
  function SendFailure(op: SdkOperation): (e: CheckoutException)
    ensures e.CheckoutSheetKitException? && e.errorCode == ErrorSendingMessageToCheckout && e.isRecoverable
    ensures OccursAt(Quoted(op.Key()), e.errorDescription, |SendFailurePrefix|)
  {
    CheckoutSheetKitException(
      SendFailurePrefix + Quoted(op.Key()) + " message to checkout, some features may not work.",
      ErrorSendingMessageToCheckout, true)
  }

  /** The callbacks one send produces: the send error when evaluation threw, none otherwise. */
  function SendCallbacks(op: SdkOperation, evaluationThrew: bool): (r: seq<Callback>)
    ensures evaluationThrew <==> |r| == 1
    ensures evaluationThrew ==>
              && r[0].CheckoutViewFailedWithError?
              && r[0].error.CheckoutSheetKitException?
              && r[0].error.errorCode == ErrorSendingMessageToCheckout
              && r[0].error.isRecoverable
              && OccursAt(op.Key(), r[0].error.errorDescription, |SendFailurePrefix| + 1)
    ensures !evaluationThrew ==> r == []
  {
    if evaluationThrew then [CheckoutViewFailedWithError(SendFailure(op))] else []
  }
}
