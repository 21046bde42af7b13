/** The bridge object: the swappable processor reference, the inbound entry
    point `postMessage` and the outbound `sendMessage`, each proved against the
    functions of module Messages. */
module Bridge {
  import opened Wrappers
  import opened Events
  import opened Operations
  import opened Messages

  /** The WebView, as far as the bridge uses it: evaluating a script either
      runs it (recorded in `evaluated`) or throws, as `rejectsScripts` says. */
  class WebView {
    var evaluated: seq<string>
    var rejectsScripts: bool

    constructor (rejectsScripts: bool)
      ensures this.evaluated == [] && this.rejectsScripts == rejectsScripts
    {
      this.evaluated := [];
      this.rejectsScripts := rejectsScripts;
    }

    method EvaluateJavascript(script: string) returns (threw: bool)
      modifies this
      ensures threw == rejectsScripts && rejectsScripts == old(rejectsScripts)
      ensures evaluated == if threw then old(evaluated) else old(evaluated) + [script]
    {
      threw := rejectsScripts;
      if !threw {
        evaluated := evaluated + [script];
      }
    }
  }

  class CheckoutBridge {
    var eventProcessor: EventProcessor
    const collaborators: Collaborators

    constructor (eventProcessor: EventProcessor, collaborators: Collaborators)
      ensures this.eventProcessor == eventProcessor && this.collaborators == collaborators
    {
      this.eventProcessor := eventProcessor;
      this.collaborators := collaborators;
    }

    function GetEventProcessor(): (p: EventProcessor)
      reads this
    {
      eventProcessor
    }

    /** Replaces the processor; nothing else about the bridge changes. */
    method SetEventProcessor(p: EventProcessor)
      modifies this
      ensures GetEventProcessor() == p
    {
      eventProcessor := p;
    }

    /** Decodes one message from the page and delivers what `Receive` says to
        the current processor; any throw on the way becomes one receive error.
        Only the current processor is touched, and the bridge itself is not. */
    method PostMessage(message: string)
      modifies eventProcessor
      ensures eventProcessor.received == old(eventProcessor.received) + Receive(collaborators, message)
    {
      var threw := false;
      var decoded := DecodeEnvelope(collaborators.json(message));
      if decoded.Failure? {
        threw := true;
      } else {
        var decodedMsg := decoded.value;
        match FromKey(decodedMsg.name) {
          case Some(Completed) =>
            var event := collaborators.completedDecoder(decodedMsg);
            if event.Failure? {
              threw := true;
            } else {
              eventProcessor.OnCheckoutViewComplete(event.value);
            }
          case Some(Modal) =>
            var modalVisible := ToBooleanStrictOrNull(decodedMsg.body);
            if modalVisible.Some? {
              eventProcessor.OnCheckoutViewModalToggled(modalVisible.value);
            }
          case Some(WebPixels) =>
            var pixel := collaborators.pixelDecoder(decodedMsg);
            if pixel.Failure? {
              threw := true;
            } else if pixel.value.Some? {
              eventProcessor.OnWebPixelEvent(pixel.value.value);
            }
          case Some(Error) =>
            var exception := collaborators.errorDecoder(decodedMsg);
            if exception.Failure? {
              threw := true;
            } else if exception.value.Some? {
              eventProcessor.OnCheckoutViewFailedWithError(exception.value.value);
            }
          case None =>
        }
      }
      if threw {
        eventProcessor.OnCheckoutViewFailedWithError(ReceiveFailure);
      }
    }

    /** Builds the script for `operation`, hands it to the WebView, and reports
        one send error to the current processor if evaluation throws. */
    method SendMessage(view: WebView, operation: SdkOperation)
      modifies view, eventProcessor
      ensures view.rejectsScripts == old(view.rejectsScripts)
      ensures view.evaluated ==
        if old(view.rejectsScripts) then old(view.evaluated)
        else old(view.evaluated) + [Script(operation, collaborators.encode)]
      ensures eventProcessor.received ==
        old(eventProcessor.received) + SendCallbacks(operation, old(view.rejectsScripts))
    {
      var script;
      match operation {
        case Presented =>
          script := DispatchMessageTemplate(Quoted(operation.Key()));
        case Instrumentation(payload) =>
          var body := collaborators.encode(SdkToWebEvent(payload));
          script := DispatchMessageTemplate(Quoted(operation.Key()) + ", " + body);
      }
      var threw := view.EvaluateJavascript(script);
      if threw {
        eventProcessor.OnCheckoutViewFailedWithError(SendFailure(operation));
      }
    }
  }

  /** After the processor is swapped, a posted message and a send reach the new
      processor only; the previous one receives nothing. */
  method SwapProcessorThenDeliver(
    bridge: CheckoutBridge, previous: EventProcessor, next: EventProcessor,
    view: WebView, message: string, operation: SdkOperation)
    requires bridge.GetEventProcessor() == previous && previous != next
    modifies bridge, next, view
    ensures bridge.GetEventProcessor() == next
    ensures next.received ==
      old(next.received) + Receive(bridge.collaborators, message) + SendCallbacks(operation, old(view.rejectsScripts))
    ensures previous.received == old(previous.received)
  {
    bridge.SetEventProcessor(next);
    bridge.PostMessage(message);
    bridge.SendMessage(view, operation);
  }

  /** A message that fails to decode yields one receive error and leaves the
      bridge as it was, so the next message is handled as usual. */
  method RecoverAfterUndecodableMessage(bridge: CheckoutBridge, bad: string, good: string)
    requires DecodeEnvelope(bridge.collaborators.json(bad)).Failure?
    modifies bridge.eventProcessor
    ensures bridge.eventProcessor.received ==
      old(bridge.eventProcessor.received) + [CheckoutViewFailedWithError(ReceiveFailure)] + Receive(bridge.collaborators, good)
  {
    bridge.PostMessage(bad);
    bridge.PostMessage(good);
  }
}
