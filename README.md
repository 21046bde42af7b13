# Checkout bridge model

A Dafny model of `CheckoutBridge`, the message bridge of Shopify's Checkout
Sheet Kit for Android. The bridge sits between the host app and the checkout
page rendered in a WebView:

- **inbound** (`postMessage`): the page posts a JSON envelope `{name, body}`;
  the bridge maps `name` through the closed enumeration `CheckoutWebOperation`
  (`completed`, `checkoutBlockingEvent`, `webPixels`, `error`) and calls at most
  one callback of the host's event processor; any exception on the way becomes
  one recoverable error with code `ERROR_RECEIVING_MESSAGE_FROM_CHECKOUT`;
- **outbound** (`sendMessage`): an `SDKOperation` (`Presented` or
  `Instrumentation`) becomes a JavaScript snippet from a fixed template that
  calls `window.MobileCheckoutSdk.dispatchMessage(...)` at once, or registers a
  one-shot, passive `mobileCheckoutBridgeReady` listener that makes the same
  call; if the WebView throws while evaluating it, one recoverable error with
  code `ERROR_SENDING_MESSAGE_TO_CHECKOUT` naming the operation's key is
  reported;
- the current event processor is a mutable reference with a setter and getter.

Files and modules:

- `wrappers.dfy` (`Wrappers`): `Option` for Kotlin nullables, `Result` for calls
  that may throw.
- `events.dfy` (`Events`): the domain events, `CheckoutException`, the
  `Callback` datatype (one processor call), and `EventProcessor`, a class whose
  state is the log `received` of the callbacks it has been given.
- `operations.dfy` (`Operations`): `CheckoutWebOperation` and `fromKey`;
  `SDKOperation`, the dispatch template and the outbound script.
- `messages.dfy` (`Messages`): the envelope decoder, `toBooleanStrictOrNull`,
  and the specification functions `Receive` (callbacks for one posted message)
  and `SendCallbacks` (callbacks for one send), with the lemmas about them.
- `bridge.dfy` (`Bridge`): the `CheckoutBridge` class (processor field, setter,
  getter, `PostMessage`, `SendMessage`) proved against those functions, and a
  `WebView` class whose evaluation succeeds or throws.

The JSON library, the three payload decoders and the JSON encoder are not
visible, so they are parameters: a `Collaborators` record holds
`json: string -> JsonDoc` (the parse of a raw message into a JSON object, or
malformed / not an object), the completed decoder (returns an event or throws),
the pixel and error decoders (return an event, null, or throw) and the encoder
of `SdkToWebEvent(payload)`. What the model does with the parsed object is the
`WebToSdkEvent` deserialisation itself: `name` is a required string, `body` an
optional string defaulting to `""`, and unknown fields are ignored
(`ignoreUnknownKeys = true`).

The bridge's methods are specified by functions of the old state: after
`PostMessage(m)` the current processor's log is its old log followed by
`Receive(collaborators, m)`; after `SendMessage(view, op)` it is followed by
`SendCallbacks(op, threw)`, and the WebView has run `Script(op, encode)` unless
it throws. Neither touches the bridge itself or any other processor (their
`modifies` clauses name only the current processor and the view).

## Model

| member | source | states |
|---|---|---|
| `Operations.CheckoutWebOperation.Key` | lib/src/main/java/com/shopify/checkoutsheetkit/CheckoutBridge.kt:53-57 | each inbound operation's `key` is one of the four wire keys `completed`, `checkoutBlockingEvent`, `webPixels`, `error` (that no two share one is `KeysDistinct`) |
| `Operations.FindByKey` | lib/src/main/java/com/shopify/checkoutsheetkit/CheckoutBridge.kt:60-62 | `entries.find`: a found entry is in the list and has the key; None exactly when no entry has the key; when the first entry matches, it is the one returned |
| `Operations.FromKey` | lib/src/main/java/com/shopify/checkoutsheetkit/CheckoutBridge.kt:53-63 | `fromKey` returns an operation exactly when the key is one of the four wire keys, and the operation it returns has that key; null for every other string |
| `Operations.KeysDistinct` | lib/src/main/java/com/shopify/checkoutsheetkit/CheckoutBridge.kt:53-57 | every operation is an entry with one of the four keys, and no two operations share a key |
| `Operations.FromKeyOfKey` | lib/src/main/java/com/shopify/checkoutsheetkit/CheckoutBridge.kt:53-63 | `fromKey(op.key) == op` for each of the four operations |
| `Operations.DispatchMessageTemplate` | lib/src/main/java/com/shopify/checkoutsheetkit/CheckoutBridge.kt:160-168 | `dispatchMessageTemplate(body)`: the dispatch call with the given argument text stands both at the immediate-call position and at the deferred-call position, and the script's length is the fixed text's length plus two copies of that call (the fixed text itself is `TemplateFixedText`; `TemplateDetermined` shows these facts together fix every character) |
| `Operations.TemplateChecksReadiness` | lib/src/main/java/com/shopify/checkoutsheetkit/CheckoutBridge.kt:161 | the script starts by testing for `window.MobileCheckoutSdk` and its `dispatchMessage` function |
| `Operations.TemplateCallsImmediately` | lib/src/main/java/com/shopify/checkoutsheetkit/CheckoutBridge.kt:161-162 | the script opens with the readiness guard, whose `if` block holds nothing before the call, and `dispatchMessage(args)` follows it directly, so a ready page gets the message right away |
| `Operations.TemplateBranchesOnReadiness` | lib/src/main/java/com/shopify/checkoutsheetkit/CheckoutBridge.kt:162-163 | right after the immediate call the script closes the `if` block with `} else {`, so the listener below is registered only when the bridge is not ready |
| `Operations.TemplateRegistersListener` | lib/src/main/java/com/shopify/checkoutsheetkit/CheckoutBridge.kt:163-164 | the registration of the `mobileCheckoutBridgeReady` listener stands right after the `} else {` that `TemplateBranchesOnReadiness` places, i.e. in the not-ready branch |
| `Operations.TemplateCallsWhenReady` | lib/src/main/java/com/shopify/checkoutsheetkit/CheckoutBridge.kt:163-165 | the `else` branch and the listener's `function () {` head stand, character for character, between the two calls, and the listener body is that same `dispatchMessage(args)` call with the same argument text |
| `Operations.TemplateListenerOptions` | lib/src/main/java/com/shopify/checkoutsheetkit/CheckoutBridge.kt:166-167 | the text after the deferred call closes the handler with `}, `, so `{passive: true, once: true}` is the third argument of `addEventListener`, followed by the closing `);` and `}` |
| `Operations.TemplateFixedText` | lib/src/main/java/com/shopify/checkoutsheetkit/CheckoutBridge.kt:160-168 | all of the template's fixed text stands in place: the readiness guard at the start, the `else` branch with the listener head between the two calls, and the listener options and closing braces after the deferred call |
| `Operations.TemplateDetermined` | lib/src/main/java/com/shopify/checkoutsheetkit/CheckoutBridge.kt:160-168 | the fixed text, the two calls and the length leave no character free: any text with those parts at those positions is the script |
| `Operations.TemplateLayout` | lib/src/main/java/com/shopify/checkoutsheetkit/CheckoutBridge.kt:160-168 | in this order in the script: readiness test, immediate call, `} else {`, listener registration, deferred call, listener options, each within the fixed text that surrounds it |
| `Operations.ArgsInTemplate` | lib/src/main/java/com/shopify/checkoutsheetkit/CheckoutBridge.kt:160-168 | the argument text appears verbatim inside the immediate dispatch call |
| `Operations.TemplateInjective` | lib/src/main/java/com/shopify/checkoutsheetkit/CheckoutBridge.kt:160-168 | the script determines its argument text: two different argument texts never give the same script |
| `Operations.SdkOperation.Key` | lib/src/main/java/com/shopify/checkoutsheetkit/CheckoutBridge.kt:66-68 | the outbound key is `presented` exactly for `Presented` and `instrumentation` exactly for `Instrumentation`, so the key tells the two operations apart |
| `Operations.DispatchArgs` | lib/src/main/java/com/shopify/checkoutsheetkit/CheckoutBridge.kt:130-141 | the argument text starts with the operation's key in single quotes; for `Presented` it is exactly `'presented'`; for `Instrumentation` it is exactly `'instrumentation', ` followed by the encoded `SdkToWebEvent(payload)`, with nothing after it |
| `Operations.Script` | lib/src/main/java/com/shopify/checkoutsheetkit/CheckoutBridge.kt:130-141 | the `when (operation)` script: the template applied to the operation's argument text, so the page's dispatch function is called with that text immediately and again from the readiness listener |
| `Operations.ScriptQuotesKey` | lib/src/main/java/com/shopify/checkoutsheetkit/CheckoutBridge.kt:130-141 | the immediate call of the outbound script carries the quoted operation key (e.g. `'presented'`) as its first argument |
| `Operations.ScriptQuotesKeyWhenReady` | lib/src/main/java/com/shopify/checkoutsheetkit/CheckoutBridge.kt:130-141 | so does the call made by the readiness listener |
| `Operations.ScriptDeterminesOperation` | lib/src/main/java/com/shopify/checkoutsheetkit/CheckoutBridge.kt:130-141 | equal scripts mean equal operation keys and, for instrumentation, equal encoded bodies: the page can tell the operations apart |
| `Messages.DecodeEnvelope` | lib/src/main/java/com/shopify/checkoutsheetkit/CheckoutBridge.kt:191-195 | decoding succeeds exactly for a JSON object whose `name` is a string and whose `body`, if present, is a string; the envelope carries those strings, and `body` is `""` when absent |
| `Messages.UnknownFieldsIgnored` | lib/src/main/java/com/shopify/checkoutsheetkit/CheckoutBridge.kt:41 | adding a field other than `name` or `body` does not change the decoding result |
| `Messages.ToBooleanStrictOrNull` | lib/src/main/java/com/shopify/checkoutsheetkit/CheckoutBridge.kt:90 | `true` exactly for `"true"`, `false` exactly for `"false"`, null for every other string (case-sensitive) |
| `Messages.Route` | lib/src/main/java/com/shopify/checkoutsheetkit/CheckoutBridge.kt:79-113 | routing a decoded envelope yields at most one callback, and it can only throw for the three operations that call a decoder |
| `Messages.Receive` | lib/src/main/java/com/shopify/checkoutsheetkit/CheckoutBridge.kt:74-125 | one posted message yields at most one callback; an envelope that fails to decode yields exactly the receive error |
| `Messages.ReceiveFailureShape` | lib/src/main/java/com/shopify/checkoutsheetkit/CheckoutBridge.kt:115-124 | the receive error has description "Error decoding message from checkout.", code `ERROR_RECEIVING_MESSAGE_FROM_CHECKOUT` and is recoverable |
| `Messages.ReceiveUnknownName` | lib/src/main/java/com/shopify/checkoutsheetkit/CheckoutBridge.kt:79-113 | a well-formed message whose name is none of the four keys yields no callback, neither event nor error |
| `Messages.ReceiveCompleted` | lib/src/main/java/com/shopify/checkoutsheetkit/CheckoutBridge.kt:80-86 | `completed` yields exactly one completion callback with the decoder's event, or exactly the receive error if the decoder throws |
| `Messages.ReceiveModal` | lib/src/main/java/com/shopify/checkoutsheetkit/CheckoutBridge.kt:88-95 | `checkoutBlockingEvent` with body `"true"`/`"false"` yields exactly one modal toggle with that value; any other body (including `"True"` and the default `""`) yields nothing, no error |
| `Messages.ReceiveWebPixels` | lib/src/main/java/com/shopify/checkoutsheetkit/CheckoutBridge.kt:97-103 | `webPixels` yields one pixel callback carrying the decoder's event exactly when it returns one, nothing on null, the receive error if it throws |
| `Messages.ReceiveError` | lib/src/main/java/com/shopify/checkoutsheetkit/CheckoutBridge.kt:105-111 | `error` yields one failure callback carrying the decoder's exception exactly when it returns one, nothing on null, the receive error if it throws |
| `Messages.ReceiveCallbackMatchesName` | lib/src/main/java/com/shopify/checkoutsheetkit/CheckoutBridge.kt:79-113 | a completion, modal toggle or pixel callback only ever comes from a message with the matching name |
| `Messages.SendFailure` | lib/src/main/java/com/shopify/checkoutsheetkit/CheckoutBridge.kt:144-153 | the send error has code `ERROR_SENDING_MESSAGE_TO_CHECKOUT`, is recoverable, and its description contains the quoted operation key |
| `Messages.SendCallbacks` | lib/src/main/java/com/shopify/checkoutsheetkit/CheckoutBridge.kt:142-153 | a send yields exactly one callback iff evaluation threw, and it is the send error naming the operation's key; nothing on success |
| `Bridge.CheckoutBridge.constructor` | lib/src/main/java/com/shopify/checkoutsheetkit/CheckoutBridge.kt:39-45 | the bridge holds the processor it is built with and the decoders and encoder it is given; the JSON configuration is the default one |
| `Bridge.CheckoutBridge.SetEventProcessor` | lib/src/main/java/com/shopify/checkoutsheetkit/CheckoutBridge.kt:47-51 | after `setEventProcessor(p)`, `getEventProcessor()` returns `p` |
| `Bridge.CheckoutBridge.GetEventProcessor` | lib/src/main/java/com/shopify/checkoutsheetkit/CheckoutBridge.kt:51 | `getEventProcessor()` returns the current processor reference (the field `SetEventProcessor` writes) |
| `Bridge.CheckoutBridge.PostMessage` | lib/src/main/java/com/shopify/checkoutsheetkit/CheckoutBridge.kt:74-125 | the current processor's log grows by exactly `Receive(collaborators, message)`; nothing else changes (the processor reference included) |
| `Bridge.CheckoutBridge.SendMessage` | lib/src/main/java/com/shopify/checkoutsheetkit/CheckoutBridge.kt:129-154 | the WebView is given `Script(operation)` (run unless it throws) and the current processor's log grows by exactly `SendCallbacks(operation, threw)` |
| `Bridge.SwapProcessorThenDeliver` | lib/src/main/java/com/shopify/checkoutsheetkit/CheckoutBridge.kt:47-51 | after a swap, a posted message and a send reach the new processor, and the previous processor receives nothing |
| `Bridge.RecoverAfterUndecodableMessage` | lib/src/main/java/com/shopify/checkoutsheetkit/CheckoutBridge.kt:115-124 | an undecodable message yields one receive error and the next message is then handled exactly as `Receive` says |

## Left out

- `CheckoutBridge`'s `decoder` argument is fixed to its default `Json { ignoreUnknownKeys = true }`; a bridge built with another Json configuration (for which an unknown field would make decoding throw) is not modelled.
- The JSON parser and encoder (kotlinx.serialization) are parameters: the parse of a raw string to a JSON object and the encoding of `SdkToWebEvent(payload)` are uninterpreted functions. The envelope rules on top of the parse are modelled.
- `PixelEventDecoder`, `CheckoutCompletedEventDecoder`, `CheckoutErrorDecoder` and the event types they produce are not part of this model beyond their signatures: each is a function returning an event (or, for pixel and error, null) or throwing. Events are carried as opaque values.
- `WebView.evaluateJavascript`, `@JavascriptInterface` threading and UI-thread affinity: evaluation is a step that runs the script or throws, decided by the WebView's `rejectsScripts` flag; the evaluation result callback (`null` in the source) is not modelled.
- Operations.DispatchMessageTemplate: written as the text `trimMargin()` produces from the template; `trimMargin` itself is not modelled, so the model equals the source whenever the argument text has no line break (compact JSON output has none).
- The instrumentation encoder (`Json.encodeToString`) never throws in the model. In the source it runs before the `try`, so an encoding exception would leave `sendMessage` without any callback (and propagate to its caller); the model does not capture that path.
- A processor callback that itself throws: in the source the `catch` would turn that into an extra receive error callback; the model's processors never throw.
- The values of the error codes (defined in `CheckoutSheetKitException`, which is not part of this model) are modelled as the two constructors of `ErrorCode`.
- Concurrency: the processor reference is read and written without synchronisation in the source; the model is sequential, so a swap racing with an in-flight message is not modelled.
- `log.d` calls, `LOG_TAG`, `SCHEMA_VERSION_NUMBER`, and the serialisation shape of `InstrumentationPayload`/`InstrumentationType` (carried through unchanged).
- `Long` width of `InstrumentationPayload.value`: never computed on, so an unbounded `int`.
- The demo app's `CartState` and the `LogWrapper` test: not part of the bridge.
