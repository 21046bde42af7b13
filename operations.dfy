/** The two operation types of the bridge: the closed set of inbound operations
    the page can post (with the key lookup `fromKey`), and the outbound SDK
    operations together with the JavaScript snippet that delivers them. */
module Operations {
  import opened Wrappers

  // ---------------------------------------------------------------------------
  // Inbound operations
  // ---------------------------------------------------------------------------

  /** The operations the checkout page can post, each named by a wire key. */
  datatype CheckoutWebOperation = Completed | Modal | WebPixels | Error {
    function Key(): (key: string)
      ensures key in InboundKeys
    {
      match this
      case Completed => "completed"
      case Modal => "checkoutBlockingEvent"
      case WebPixels => "webPixels"
      case Error => "error"
    }
  }

  /** The enumeration's entries, in declaration order. */
  const Entries: seq<CheckoutWebOperation> := [Completed, Modal, WebPixels, Error]

  /** The four inbound wire keys. */
  const InboundKeys: set<string> := {"completed", "checkoutBlockingEvent", "webPixels", "error"}

  /** The first entry whose key is `key`, or None: a `find` over the entries. */
  function FindByKey(entries: seq<CheckoutWebOperation>, key: string): (r: Option<CheckoutWebOperation>)
    ensures r.Some? ==> r.value in entries && r.value.Key() == key
    ensures r.None? <==> forall e :: e in entries ==> e.Key() != key
    ensures r.Some? && entries != [] && entries[0].Key() == key ==> r.value == entries[0]
  {
    if entries == [] then None
    else if entries[0].Key() == key then Some(entries[0])
    else FindByKey(entries[1..], key)
  }

  /** `fromKey`: the operation named by `key`, or None for any other string. */
  function FromKey(key: string): (r: Option<CheckoutWebOperation>)
    ensures r.Some? <==> key in InboundKeys
    ensures r.Some? ==> r.value.Key() == key
  {
    FindByKey(Entries, key)
  }

  /** Every operation is an entry, and no two operations share a key. */
  lemma KeysDistinct(a: CheckoutWebOperation, b: CheckoutWebOperation)
    ensures a in Entries && a.Key() in InboundKeys
    ensures a.Key() == b.Key() ==> a == b
  {
  }

  /** Looking up an operation's own key gives back that operation. */
  lemma FromKeyOfKey(op: CheckoutWebOperation)
    ensures FromKey(op.Key()) == Some(op)
  {
  }

  // ---------------------------------------------------------------------------
  // Outbound operations
  // ---------------------------------------------------------------------------

  datatype InstrumentationType = Histogram

  /** A metric emission. `value` is a Kotlin Long; it is only carried through. */
  datatype InstrumentationPayload = InstrumentationPayload(
    name: string, value: int, instrumentationType: InstrumentationType, tags: map<string, string>)

  /** The wire envelope from host to page. */
  datatype SdkToWebEvent<T> = SdkToWebEvent(detail: T)

  /** The operations the host sends to the page. */
  datatype SdkOperation = Presented | Instrumentation(payload: InstrumentationPayload) {
    function Key(): (key: string)
      ensures this.Presented? <==> key == "presented"
      ensures this.Instrumentation? <==> key == "instrumentation"
    {
      match this
      case Presented => "presented"
      case Instrumentation(_) => "instrumentation"
    }
  }

  /** `needle` stands in `hay` starting at index `i`. */
  predicate OccursAt(needle: string, hay: string, i: nat) {
    i + |needle| <= |hay| && hay[i..i + |needle|] == needle
  }

  lemma {:induction false} OccursWithin(needle: string, middle: string, hay: string, i: nat, j: nat)
    requires OccursAt(needle, middle, i) && OccursAt(middle, hay, j)
    ensures OccursAt(needle, hay, j + i)
  {
    forall k | 0 <= k < |needle|
      ensures hay[j + i + k] == needle[k]
    {
      assert middle[i + k] == needle[k];
      assert hay[j + (i + k)] == middle[i + k];
    }
  }

  /** A JavaScript string literal in single quotes. */
  function Quoted(s: string): (quoted: string) {
    "'" + s + "'"
  }

  // The fixed text of the dispatch template (after its margin is trimmed).
  const ReadinessCheck := "if (window.MobileCheckoutSdk && window.MobileCheckoutSdk.dispatchMessage) {"
  const ReadyGuard := "\n" + ReadinessCheck + "\n    "
  const DispatchCallee := "window.MobileCheckoutSdk.dispatchMessage("
  const ElseBranch := "} else {\n    "
  const ListenerRegistration := "window.addEventListener('mobileCheckoutBridgeReady', function () {"
  const DeferredBranch := ElseBranch + ListenerRegistration + "\n        "
  const ListenerLead := "    }, "
  const ListenerOptions := "{passive: true, once: true}"
  const ListenerClose := ListenerLead + ListenerOptions + ");\n}\n"

  /** One call of the page's dispatch function with argument text `args`. */
  function DispatchCall(args: string): (call: string) {
    DispatchCallee + args + ");\n"
  }

  // Where the parts of the template start in a script built from `args`.
  const ImmediateCallAt: nat := |ReadyGuard|
  function ListenerAt(args: string): (at: nat) { |ReadyGuard| + |DispatchCall(args)| + |ElseBranch| }
  function DeferredCallAt(args: string): (at: nat) { |ReadyGuard| + |DispatchCall(args)| + |DeferredBranch| }
  function OptionsAt(args: string): (at: nat) { DeferredCallAt(args) + |DispatchCall(args)| + |ListenerLead| }

  /** `dispatchMessageTemplate` with argument text `args`. */
  function DispatchMessageTemplate(args: string): (script: string)
    ensures OccursAt(DispatchCall(args), script, ImmediateCallAt)
    ensures OccursAt(DispatchCall(args), script, DeferredCallAt(args))
    ensures |script| == |ReadyGuard| + |DeferredBranch| + |ListenerClose| + 2 * |DispatchCall(args)|
  {
    FivePartsFront(ReadyGuard, DispatchCall(args), DeferredBranch, ListenerClose);
    FivePartsBack(ReadyGuard, DispatchCall(args), DeferredBranch, ListenerClose);
    ReadyGuard + (DispatchCall(args) + (DeferredBranch + (DispatchCall(args) + ListenerClose)))
  }

  lemma OccursSelf(needle: string)
    ensures OccursAt(needle, needle, 0)
  {
    assert needle[0..|needle|] == needle;
  }

  /** An occurrence stays where it is when text is appended. */
  lemma {:induction false} OccursBeforeSuffix(needle: string, hay: string, i: nat, suffix: string)
    requires OccursAt(needle, hay, i)
    ensures OccursAt(needle, hay + suffix, i)
  {
    assert (hay + suffix)[i..i + |needle|] == hay[i..i + |needle|];
  }

  /** An occurrence moves right by the length of text prepended. */
  lemma {:induction false} OccursAfterPrefix(needle: string, hay: string, i: nat, prefix: string)
    requires OccursAt(needle, hay, i)
    ensures OccursAt(needle, prefix + hay, |prefix| + i)
  {
    assert (prefix + hay)[|prefix| + i..|prefix| + i + |needle|] == hay[i..i + |needle|];
  }

  /** `needle` stands at the front of `needle + suffix`. */
  lemma OccursAtFront(needle: string, suffix: string)
    ensures OccursAt(needle, needle + suffix, 0)
  {
    OccursSelf(needle);
    OccursBeforeSuffix(needle, needle, 0, suffix);
  }

  /** Where the first three parts of `first + (x + (middle + (x + last)))` stand. */
  lemma {:induction false} FivePartsFront(first: string, x: string, middle: string, last: string)
    ensures var s := first + (x + (middle + (x + last)));
      && OccursAt(first, s, 0)
      && OccursAt(x, s, |first|)
      && OccursAt(middle, s, |first| + |x|)
  {
    var deferred := middle + (x + last);
    var rest := x + deferred;
    OccursAtFront(first, rest);
    OccursAtFront(x, deferred);
    OccursAfterPrefix(x, rest, 0, first);
    OccursAtFront(middle, x + last);
    OccursAfterPrefix(middle, deferred, 0, x);
    OccursAfterPrefix(middle, rest, |x|, first);
  }

  /** Where the last two parts of `first + (x + (middle + (x + last)))` stand. */
  lemma {:induction false} FivePartsBack(first: string, x: string, middle: string, last: string)
    ensures var s := first + (x + (middle + (x + last)));
      && OccursAt(x, s, |first| + |x| + |middle|)
      && OccursAt(last, s, |first| + |x| + |middle| + |x|)
  {
    var closing := x + last;
    var deferred := middle + closing;
    var rest := x + deferred;
    OccursAtFront(x, last);
    OccursAfterPrefix(x, closing, 0, middle);
    OccursAfterPrefix(x, deferred, |middle|, x);
    OccursAfterPrefix(x, rest, |x| + |middle|, first);
    OccursSelf(last);
    OccursAfterPrefix(last, last, 0, x);
    OccursAfterPrefix(last, closing, |x|, middle);
    OccursAfterPrefix(last, deferred, |middle| + |x|, x);
    OccursAfterPrefix(last, rest, |x| + |middle| + |x|, first);
  }

  /** `needle` stands right after `prefix` in `prefix + needle + suffix`. */
  lemma {:induction false} OccursBetween(prefix: string, needle: string, suffix: string)
    ensures OccursAt(needle, prefix + needle + suffix, |prefix|)
  {
    OccursAtFront(needle, suffix);
    OccursAfterPrefix(needle, needle + suffix, 0, prefix);
    assert prefix + (needle + suffix) == prefix + needle + suffix;
  }

  /** `needle` stands at the front of `needle + b + c`. */
  lemma OccursAtFrontOfThree(needle: string, b: string, c: string)
    ensures OccursAt(needle, needle + b + c, 0)
  {
    OccursAtFront(needle, b);
    OccursBeforeSuffix(needle, needle + b, 0, c);
  }

  /** The text from an occurrence of `needle` on is `needle` and what follows it. */
  lemma PeelFront(needle: string, s: string, i: nat)
    requires OccursAt(needle, s, i)
    ensures s[i..] == needle + s[i + |needle|..]
  {
    assert s[i..] == s[i..i + |needle|] + s[i + |needle|..];
  }

  /** A text holding the five parts of `first + (x + (middle + (x + last)))`
      in their places, and nothing more, is that concatenation. */
  lemma {:induction false} FivePartsDetermined(first: string, x: string, middle: string, last: string, s: string)
    requires OccursAt(first, s, 0)
    requires OccursAt(x, s, |first|)
    requires OccursAt(middle, s, |first| + |x|)
    requires OccursAt(x, s, |first| + |x| + |middle|)
    requires OccursAt(last, s, |first| + |x| + |middle| + |x|)
    requires |s| == |first| + |x| + |middle| + |x| + |last|
    ensures s == first + (x + (middle + (x + last)))
  {
    var p1 := |first|;
    var p2 := p1 + |x|;
    var p3 := p2 + |middle|;
    var p4 := p3 + |x|;
    PeelFront(first, s, 0);
    PeelFront(x, s, p1);
    PeelFront(middle, s, p2);
    PeelFront(x, s, p3);
    assert s[p4..] == last;
    assert s[0..] == s;
  }

  /** The script first tests whether the page's bridge and its dispatch function exist. */
  lemma TemplateChecksReadiness(args: string)
    ensures OccursAt(ReadinessCheck, DispatchMessageTemplate(args), 1)
  {
    FivePartsFront(ReadyGuard, DispatchCall(args), DeferredBranch, ListenerClose);
    OccursBetween("\n", ReadinessCheck, "\n    ");
    OccursWithin(ReadinessCheck, ReadyGuard, DispatchMessageTemplate(args), 1, 0);
  }

  /** When the bridge is ready, the script calls `dispatchMessage(args)` at once. */
  lemma TemplateCallsImmediately(args: string)
    ensures OccursAt(ReadyGuard, DispatchMessageTemplate(args), 0)
    ensures OccursAt(DispatchCall(args), DispatchMessageTemplate(args), ImmediateCallAt)
  {
    FivePartsFront(ReadyGuard, DispatchCall(args), DeferredBranch, ListenerClose);
  }

  /** Otherwise it registers a `mobileCheckoutBridgeReady` listener ... */
  lemma TemplateRegistersListener(args: string)
    ensures OccursAt(ListenerRegistration, DispatchMessageTemplate(args), ListenerAt(args))
  {
    var script, branchAt := DispatchMessageTemplate(args), ImmediateCallAt + |DispatchCall(args)|;
    TemplateFixedText(args);
    OccursBetween(ElseBranch, ListenerRegistration, "\n        ");
    OccursWithin(ListenerRegistration, DeferredBranch, script, |ElseBranch|, branchAt);
  }

  /** ... whose handler makes the same `dispatchMessage(args)` call ... */
  lemma TemplateCallsWhenReady(args: string)
    ensures OccursAt(DeferredBranch, DispatchMessageTemplate(args), ImmediateCallAt + |DispatchCall(args)|)
    ensures OccursAt(DispatchCall(args), DispatchMessageTemplate(args), DeferredCallAt(args))
  {
    FivePartsFront(ReadyGuard, DispatchCall(args), DeferredBranch, ListenerClose);
    FivePartsBack(ReadyGuard, DispatchCall(args), DeferredBranch, ListenerClose);
  }

  /** The options stand in the listener's closing text, after its lead. */
  lemma OptionsInClose()
    ensures OccursAt(ListenerOptions, ListenerClose, |ListenerLead|)
  {
    OccursBetween(ListenerLead, ListenerOptions, ");\n}\n");
  }

  /** ... and which is passive and fires once. */
  lemma TemplateListenerOptions(args: string)
    ensures OccursAt(ListenerClose, DispatchMessageTemplate(args), DeferredCallAt(args) + |DispatchCall(args)|)
    ensures OccursAt(ListenerOptions, DispatchMessageTemplate(args), OptionsAt(args))
  {
    var script, closeAt := DispatchMessageTemplate(args), DeferredCallAt(args) + |DispatchCall(args)|;
    TemplateFixedText(args);
    OptionsInClose();
    OccursWithin(ListenerOptions, ListenerClose, script, |ListenerLead|, closeAt);
  }

  /** The listener is registered in the `else` branch: right after the
      immediate call, the script closes the `if` block and opens `} else {`. */
  lemma TemplateBranchesOnReadiness(args: string)
    ensures OccursAt(ElseBranch, DispatchMessageTemplate(args), ImmediateCallAt + |DispatchCall(args)|)
  {
    var script, branchAt := DispatchMessageTemplate(args), ImmediateCallAt + |DispatchCall(args)|;
    TemplateFixedText(args);
    OccursAtFrontOfThree(ElseBranch, ListenerRegistration, "\n        ");
    OccursWithin(ElseBranch, DeferredBranch, script, 0, branchAt);
  }

  /** The text around the two calls: the readiness guard in front, the `else`
      branch with the listener head between them, and the listener's options
      and closing braces after the deferred call. */
  lemma TemplateFixedText(args: string)
    ensures var script := DispatchMessageTemplate(args);
      && OccursAt(ReadyGuard, script, 0)
      && OccursAt(DeferredBranch, script, ImmediateCallAt + |DispatchCall(args)|)
      && OccursAt(ListenerClose, script, DeferredCallAt(args) + |DispatchCall(args)|)
  {
    FivePartsFront(ReadyGuard, DispatchCall(args), DeferredBranch, ListenerClose);
    FivePartsBack(ReadyGuard, DispatchCall(args), DeferredBranch, ListenerClose);
  }

  /** The fixed text, the two calls and the length leave no character of the
      script free: any text with those parts in those places is the script. */
  lemma TemplateDetermined(args: string, script: string)
    requires OccursAt(ReadyGuard, script, 0)
    requires OccursAt(DispatchCall(args), script, ImmediateCallAt)
    requires OccursAt(DeferredBranch, script, ImmediateCallAt + |DispatchCall(args)|)
    requires OccursAt(DispatchCall(args), script, DeferredCallAt(args))
    requires OccursAt(ListenerClose, script, DeferredCallAt(args) + |DispatchCall(args)|)
    requires |script| == |ReadyGuard| + |DeferredBranch| + |ListenerClose| + 2 * |DispatchCall(args)|
    ensures script == DispatchMessageTemplate(args)
  {
    FivePartsDetermined(ReadyGuard, DispatchCall(args), DeferredBranch, ListenerClose, script);
  }

  /** The script tests whether the page's bridge is ready; it calls
      `dispatchMessage(args)` at once if so, otherwise it registers a one-shot,
      passive `mobileCheckoutBridgeReady` listener that makes the same call. */
  lemma TemplateLayout(args: string)
    ensures var script := DispatchMessageTemplate(args);
      && OccursAt(ReadyGuard, script, 0)
      && OccursAt(ReadinessCheck, script, 1)
      && OccursAt(DispatchCall(args), script, ImmediateCallAt)
      && OccursAt(DeferredBranch, script, ImmediateCallAt + |DispatchCall(args)|)
      && OccursAt(ElseBranch, script, ImmediateCallAt + |DispatchCall(args)|)
      && OccursAt(ListenerRegistration, script, ListenerAt(args))
      && OccursAt(DispatchCall(args), script, DeferredCallAt(args))
      && OccursAt(ListenerClose, script, DeferredCallAt(args) + |DispatchCall(args)|)
      && OccursAt(ListenerOptions, script, OptionsAt(args))
      && 1 < ImmediateCallAt < ImmediateCallAt + |DispatchCall(args)| < ListenerAt(args) < DeferredCallAt(args) < OptionsAt(args)
  {
    TemplateFixedText(args);
    TemplateChecksReadiness(args);
    TemplateCallsImmediately(args);
    TemplateBranchesOnReadiness(args);
    TemplateRegistersListener(args);
    TemplateCallsWhenReady(args);
    TemplateListenerOptions(args);
  }

  /** The argument text lies inside the immediate call. */
  lemma ArgsInTemplate(args: string)
    ensures OccursAt(args, DispatchMessageTemplate(args), ImmediateCallAt + |DispatchCallee|)
  {
    TemplateLayout(args);
    OccursBetween(DispatchCallee, args, ");\n");
    OccursWithin(args, DispatchCall(args), DispatchMessageTemplate(args), |DispatchCallee|, ImmediateCallAt);
  }

  /** The script determines the argument text: different arguments never give the same script. */
  lemma TemplateInjective(a: string, b: string)
    ensures DispatchMessageTemplate(a) == DispatchMessageTemplate(b) ==> a == b
  {
    if DispatchMessageTemplate(a) == DispatchMessageTemplate(b) {
      assert |a| == |b|;
      ArgsInTemplate(a);
      ArgsInTemplate(b);
    }
  }

  /** The argument text of an outbound operation: its quoted key, followed for
      instrumentation by the encoded `SdkToWebEvent` wrapping its payload. */
  function DispatchArgs(op: SdkOperation, encode: SdkToWebEvent<InstrumentationPayload> -> string): (args: string)
    ensures OccursAt(Quoted(op.Key()), args, 0)
    ensures op.Presented? ==> args == Quoted("presented")
    ensures op.Instrumentation? ==> OccursAt(encode(SdkToWebEvent(op.payload)), args, |Quoted(op.Key())| + 2)
    ensures op.Instrumentation? ==> args == Quoted("instrumentation") + ", " + encode(SdkToWebEvent(op.payload))
  {
    match op
    case Presented => Quoted(op.Key())
    case Instrumentation(payload) => Quoted(op.Key()) + ", " + encode(SdkToWebEvent(payload))
  }

  /** The script `sendMessage` hands to the WebView: the page's dispatch
      function is called with the operation's argument text, both at once and
      from the readiness listener. */
  function Script(op: SdkOperation, encode: SdkToWebEvent<InstrumentationPayload> -> string): (script: string)
    ensures OccursAt(DispatchCall(DispatchArgs(op, encode)), script, ImmediateCallAt)
    ensures OccursAt(DispatchCall(DispatchArgs(op, encode)), script, DeferredCallAt(DispatchArgs(op, encode)))
  {
    DispatchMessageTemplate(DispatchArgs(op, encode))
  }

  /** Text at the front of the argument text stands right after the callee in
      any occurrence of the dispatch call. */
  lemma {:induction false} FrontOfArgsInCall(front: string, args: string, script: string, at: nat)
    requires OccursAt(front, args, 0)
    requires OccursAt(DispatchCall(args), script, at)
    ensures OccursAt(front, script, at + |DispatchCallee|)
  {
    OccursBetween(DispatchCallee, args, ");\n");
    OccursWithin(front, args, DispatchCall(args), 0, |DispatchCallee|);
    OccursWithin(front, DispatchCall(args), script, |DispatchCallee|, at);
  }

  /** The immediate call in the script names the operation by its quoted key, e.g. `'presented'`. */
  lemma ScriptQuotesKey(op: SdkOperation, encode: SdkToWebEvent<InstrumentationPayload> -> string)
    ensures OccursAt(Quoted(op.Key()), Script(op, encode), ImmediateCallAt + |DispatchCallee|)
  {
    FrontOfArgsInCall(Quoted(op.Key()), DispatchArgs(op, encode), Script(op, encode), ImmediateCallAt);
  }

  /** So does the call the readiness listener makes. */
  lemma ScriptQuotesKeyWhenReady(op: SdkOperation, encode: SdkToWebEvent<InstrumentationPayload> -> string)
    ensures OccursAt(Quoted(op.Key()), Script(op, encode), DeferredCallAt(DispatchArgs(op, encode)) + |DispatchCallee|)
  {
    var args := DispatchArgs(op, encode);
    FrontOfArgsInCall(Quoted(op.Key()), args, Script(op, encode), DeferredCallAt(args));
  }

  /** The script determines the operation's key and, for instrumentation, the
      encoded body it carries. */
  lemma ScriptDeterminesOperation(a: SdkOperation, b: SdkOperation, encode: SdkToWebEvent<InstrumentationPayload> -> string)
    requires Script(a, encode) == Script(b, encode)
    ensures a.Key() == b.Key()
    ensures a.Instrumentation? ==> b.Instrumentation? && encode(SdkToWebEvent(a.payload)) == encode(SdkToWebEvent(b.payload))
  {
    var x, y := DispatchArgs(a, encode), DispatchArgs(b, encode);
    TemplateInjective(x, y);
    assert x == y;
    assert x[1] == a.Key()[0] && y[1] == b.Key()[0];
    if a.Instrumentation? {
      var n := |Quoted("instrumentation")| + 2;
      assert x[n..] == encode(SdkToWebEvent(a.payload));
      assert y[n..] == encode(SdkToWebEvent(b.payload));
    }
  }
}
