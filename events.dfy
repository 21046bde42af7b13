/** The domain events the bridge hands to the host, and the host's event
    processor, modelled by the callbacks it has received. */
module Events {

  /** A checkout-completed event as produced by the completed-event decoder;
      its fields are carried through, never inspected by the bridge. */
  datatype CheckoutCompletedEvent = CheckoutCompletedEvent(detail: string)

  /** A web pixel (analytics) event as produced by the pixel-event decoder. */
  datatype PixelEvent = PixelEvent(detail: string)

  /** The two error codes the bridge itself raises. */
  datatype ErrorCode = ErrorReceivingMessageFromCheckout | ErrorSendingMessageToCheckout

  /** A checkout failure: either one raised by the bridge, with its description,
      code and recoverability, or one decoded from the page's `error` message. */
  datatype CheckoutException =
    | CheckoutSheetKitException(errorDescription: string, errorCode: ErrorCode, isRecoverable: bool)
    | DecodedCheckoutError(detail: string)

  /** One call the bridge makes on the event processor. */
  datatype Callback =
    | CheckoutViewComplete(event: CheckoutCompletedEvent)
    | CheckoutViewModalToggled(modalVisible: bool)
    | WebPixel(pixel: PixelEvent)
    | CheckoutViewFailedWithError(error: CheckoutException)

  /** The host-side event processor. Its state is the sequence of callbacks it
      has received, oldest first. */
  class EventProcessor {
    var received: seq<Callback>

    constructor ()
      ensures received == []
    {
      received := [];
    }

    method OnCheckoutViewComplete(event: CheckoutCompletedEvent)
      modifies this
      ensures received == old(received) + [CheckoutViewComplete(event)]
    {
      received := received + [CheckoutViewComplete(event)];
    }

    method OnCheckoutViewModalToggled(modalVisible: bool)
      modifies this
      ensures received == old(received) + [CheckoutViewModalToggled(modalVisible)]
    {
      received := received + [CheckoutViewModalToggled(modalVisible)];
    }

    method OnWebPixelEvent(pixel: PixelEvent)
      modifies this
      ensures received == old(received) + [WebPixel(pixel)]
    {
      received := received + [WebPixel(pixel)];
    }

    method OnCheckoutViewFailedWithError(error: CheckoutException)
      modifies this
      ensures received == old(received) + [CheckoutViewFailedWithError(error)]
    {
      received := received + [CheckoutViewFailedWithError(error)];
    }
  }
}
