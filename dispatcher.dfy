/** NotificationDispatcher: resolves the provider and destination of one
    request, renders its template, formats and sends the payload, and on any
    exception in those steps sends exactly one fallback payload. Every render
    and every send is recorded in the run's trace. */
module Dispatcher {
  import opened Values
  import opened Renderer
  import opened Providers
  import opened Config

  /** An observable call made while processing one request. */
  datatype Event =
    | RenderCall(name: string, context: map<string, Value>)
    | SendCall(destination: Value, payload: Value)

  /** How processing one request ended. */
  datatype Final =
    | Rejected                  // missing or unknown provider, or no destination: nothing attempted
    | Delivered(ok: bool)       // the primary send returned (ok is what it returned)
    | FallbackSent(ok: bool)    // a step raised; the fallback send returned
    | FallbackFailed(exc: Exc)  // building or sending the fallback raised; logged as critical
    | Crashed(exc: Exc)         // an exception escaped `process`

  datatype Run = Run(events: seq<Event>, final: Final)

  /** The part of a run inside the `try` of the primary path. */
  datatype Step = Step(events: seq<Event>, result: Outcome<bool>)

  /** The sends of a trace, in order. */
  function Sends(events: seq<Event>): (s: seq<Event>)
    ensures |s| <= |events|
    ensures forall i :: 0 <= i < |s| ==> s[i].SendCall? && s[i] in events
    ensures forall i :: 0 <= i < |events| && events[i].SendCall? ==> events[i] in s
    ensures IsSubsequence(s, events)
    ensures (forall i :: 0 <= i < |events| ==> !events[i].SendCall?) ==> s == []
  {
    if events == [] then []
    else if events[0].SendCall? then [events[0]] + Sends(events[1..])
    else Sends(events[1..])
  }

  lemma {:induction false} SendsAppend(a: seq<Event>, b: seq<Event>)
    ensures Sends(a + b) == Sends(a) + Sends(b)
  {
    if a == [] {
      assert a + b == b;
    } else {
      assert (a + b)[0] == a[0];
      assert (a + b)[1..] == a[1..] + b;
      SendsAppend(a[1..], b);
    }
  }

  /** `not name or name not in providers`, then the lookup. A list or dict
      as the provider name is unhashable: the membership test raises. */
  function LookupProvider(providers: map<string, Provider>, name: Value): (r: Outcome<Option<Provider>>)
    ensures r.Raised? <==> Truthy(name) && (name.VList? || name.VDict?)
    ensures r == Done(None) <==> !Truthy(name) || (!name.VList? && !name.VDict? && !(name.VStr? && name.s in providers))
    ensures r.Done? && r.value.Some? ==> name.VStr? && name.s in providers && r.value.value == providers[name.s]
  {
    if !Truthy(name) then Done(None)
    else
      match In(name, providers)
      case Raised(e) => Raised(e)
      case Done(found) => if found then Done(Some(providers[name.s])) else Done(None)
  }

  /** The result of `_get_message_context`: the render context, and the
      request's `data` after the call (the method removes `_mail_meta` from the
      caller's dict in place). */
  datatype Context = Context(context: map<string, Value>, dataAfter: Value)

  /** `_get_message_context`. For dict data the context holds every key that
      does not start with "_" plus "_meta", the popped `_mail_meta` (default
      `{}`); any other data becomes `{"data": data}`. */
  function MessageContext(message: map<string, Value>): (c: Context)
    ensures var data := GetOr(message, "data", VDict(map[]));
      && (data.VDict? ==>
            && "_meta" in c.context
            && c.context["_meta"] == GetOr(data.entries, "_mail_meta", VDict(map[]))
            && (forall k :: k in c.context && k != "_meta" ==>
                  k in data.entries && !StartsWith(k, "_") && c.context[k] == data.entries[k])
            && (forall k :: k in data.entries && !StartsWith(k, "_") ==> k in c.context)
            && c.dataAfter == VDict(data.entries - {"_mail_meta"}))
      && (!data.VDict? ==> c.context == map["data" := data] && c.dataAfter == data)
  {
    var data := GetOr(message, "data", VDict(map[]));
    if data.VDict? then
      var meta := GetOr(data.entries, "_mail_meta", VDict(map[]));
      var rest := data.entries - {"_mail_meta"};
      var visible := map k | k in rest && !StartsWith(k, "_") :: rest[k];
      Context(visible["_meta" := meta], VDict(rest))
    else
      Context(map["data" := data], data)
  }

  /** The request as it is after `process` returned: `data` has lost
      `_mail_meta` once the context was built. */
  function MessageAfter(message: map<string, Value>): map<string, Value>
  {
    if "data" in message && message["data"].VDict? then message["data" := MessageContext(message).dataAfter]
    else message
  }

  /** The steps inside the `try`: template rules, render, format, send. */
  function Primary(p: Provider, engine: Engine, template: Option<Value>,
                   context: map<string, Value>, destination: Value, net: Net): (s: Step)
    ensures |s.events| <= 2
    ensures s.events != [] ==> s.events[0].RenderCall? && s.events[0].context == context
    ensures |s.events| == 2 ==>
      && s.events[1].SendCall? && s.events[1].destination == destination
      && s.result == p.send(destination, s.events[1].payload, net)
    ensures |s.events| < 2 ==> s.result.Raised?
    ensures Sends(s.events) == if |s.events| == 2 then [s.events[1]] else []
  {
    match p.applyTemplateRules
    case Raised(e) => Step([], Raised(e))
    case Done(rules) =>
      if template.None? then Step([], Raised(KeyError("template")))
      else
        match rules(template.value)
        case Raised(e) => Step([], Raised(e))
        case Done(name) =>
          var rendered := Render(engine, name, VDict(context));
          var trace := [RenderCall(name, context)];
          if rendered.Raised? then Step(trace, Raised(rendered.exc))
          else
            var metadata := GetOr(context, "_meta", VDict(map[]));
            match p.formatPayload
            case Raised(e) => Step(trace, Raised(e))
            case Done(format) =>
              match format(rendered.value, metadata)
              case Raised(e) => Step(trace, Raised(e))
              case Done(payload) =>
                Step(trace + [SendCall(destination, payload)], p.send(destination, payload, net))
  }

  /** The `except` branch: build the fallback payload and send it once; any
      exception here is logged and swallowed. */
  function Fallback(p: Provider, context: map<string, Value>, destination: Value,
                    error: Exc, net: Net): (r: Run)
    ensures |r.events| <= 1
    ensures r.events == Sends(r.events)
    ensures r.events != [] ==> r.events[0].destination == destination
    ensures r.final.FallbackSent? || r.final.FallbackFailed?
    ensures r.final.FallbackSent? ==> |r.events| == 1
    ensures r.events != [] ==>
      && p.getFallbackPayload.Done? && p.getFallbackPayload.value(error, context) == Done(r.events[0].payload)
      && r.final == (match p.send(destination, r.events[0].payload, net)
                     case Done(ok) => FallbackSent(ok)
                     case Raised(e) => FallbackFailed(e))
    ensures r.events == [] <==> p.getFallbackPayload.Raised? || p.getFallbackPayload.value(error, context).Raised?
  {
    match p.getFallbackPayload
    case Raised(e) => Run([], FallbackFailed(e))
    case Done(build) =>
      match build(error, context)
      case Raised(e) => Run([], FallbackFailed(e))
      case Done(payload) =>
        match p.send(destination, payload, net)
        case Done(ok) => Run([SendCall(destination, payload)], FallbackSent(ok))
        case Raised(e) => Run([SendCall(destination, payload)], FallbackFailed(e))
  }

  /** The destination of a request: the request's own if truthy, else the
      provider's default (reading it may raise). */
  function Destination(p: Provider, message: map<string, Value>): Outcome<Value>
  {
    var explicit := Get(message, "destination");
    if Truthy(explicit) then Done(explicit) else p.defaultDestination
  }

  /** `_get_default_destination`: the configured destination of each known
      provider, None for any other name. `process` itself does not call it:
      it reads the provider's own `default_destination`. */
  function DefaultDestinationFor(settings: Settings, name: string): (r: Value)
    ensures name == "discord" ==> r == settings.discordWebhookUrl
    ensures name == "email" ==> r == settings.defaultToEmail
    ensures name == "slack" ==> r == settings.slackWebhookUrl
    ensures name != "discord" && name != "email" && name != "slack" ==> r == VNone
  {
    if name == "discord" then settings.discordWebhookUrl
    else if name == "email" then settings.defaultToEmail
    else if name == "slack" then settings.slackWebhookUrl
    else VNone
  }

  /** `message["template"]`, which raises KeyError when the key is absent. */
  function Template(message: map<string, Value>): Option<Value>
  {
    if "template" in message then Some(message["template"]) else None
  }

  /** The `try` statement of `process`: the primary path, and on an exception
      the fallback. */
  function Attempt(p: Provider, engine: Engine, template: Option<Value>, context: map<string, Value>,
                   destination: Value, net: Net, fallbackNet: Net): (run: Run)
    ensures |Sends(run.events)| <= 2
    ensures forall i :: 0 <= i < |Sends(run.events)| ==> Sends(run.events)[i].destination == destination
    ensures run.final.Delivered? ==> |Sends(run.events)| == 1
    ensures run.final.FallbackSent? ==> 1 <= |Sends(run.events)|
    ensures !run.final.Rejected? && !run.final.Crashed?
  {
    var primary := Primary(p, engine, template, context, destination, net);
    match primary.result
    case Done(ok) =>
      assert Sends(primary.events) == [primary.events[1]];
      Run(primary.events, Delivered(ok))
    case Raised(e) =>
      var fallback := Fallback(p, context, destination, e, fallbackNet);
      SendsAppend(primary.events, fallback.events);
      assert Sends(primary.events + fallback.events) == Sends(primary.events) + fallback.events;
      Run(primary.events + fallback.events, fallback.final)
  }

  /** `NotificationDispatcher.process` on one request. `net` is what the
      network does for the primary send and `fallbackNet` for the fallback. */
  function Dispatch(providers: map<string, Provider>, engine: Engine, message: map<string, Value>,
                    net: Net, fallbackNet: Net): (run: Run)
    ensures |Sends(run.events)| <= 2
    ensures run.final.Rejected? || run.final.Crashed? ==> run.events == []
    ensures run.final.Delivered? ==> |Sends(run.events)| == 1
    ensures run.final.FallbackSent? ==> 1 <= |Sends(run.events)|
  {
    match LookupProvider(providers, Get(message, "provider"))
    case Raised(e) => Run([], Crashed(e))
    case Done(None) => Run([], Rejected)
    case Done(Some(p)) =>
      match Destination(p, message)
      case Raised(e) => Run([], Crashed(e))
      case Done(destination) =>
        if !Truthy(destination) then Run([], Rejected)
        else
          Attempt(p, engine, Template(message), MessageContext(message).context, destination, net, fallbackNet)
  }

  /** A missing or unregistered provider ends processing at once: nothing is
      rendered or sent and nothing is raised. */
  lemma UnknownProviderDoesNothing(providers: map<string, Provider>, engine: Engine,
                                   message: map<string, Value>, net: Net, fallbackNet: Net)
    requires var name := Get(message, "provider");
      !Truthy(name) || (name.VStr? && name.s !in providers)
    ensures Dispatch(providers, engine, message, net, fallbackNet) == Run([], Rejected)
  {
  }

  /** The destination is the request's own when truthy, otherwise the
      provider's default; when both are falsy nothing is rendered or sent. */
  lemma DestinationResolution(providers: map<string, Provider>, engine: Engine, message: map<string, Value>,
                              net: Net, fallbackNet: Net, p: Provider)
    requires LookupProvider(providers, Get(message, "provider")) == Done(Some(p))
    ensures Truthy(Get(message, "destination")) ==> Destination(p, message) == Done(Get(message, "destination"))
    ensures !Truthy(Get(message, "destination")) ==> Destination(p, message) == p.defaultDestination
    ensures Destination(p, message).Done? && !Truthy(Destination(p, message).value) ==>
      Dispatch(providers, engine, message, net, fallbackNet) == Run([], Rejected)
    ensures var run := Dispatch(providers, engine, message, net, fallbackNet);
      Destination(p, message).Done? && Truthy(Destination(p, message).value) ==>
        forall i :: 0 <= i < |Sends(run.events)| ==> Sends(run.events)[i].destination == Destination(p, message).value
  {
  }

  /** The happy path: template rules, one render with the full context, one
      format with the metadata, and exactly one send of that payload. A send
      that returns false still ends the request: no fallback follows. */
  lemma HappyPathSendsOnce(providers: map<string, Provider>, engine: Engine, message: map<string, Value>,
                           net: Net, fallbackNet: Net, p: Provider, destination: Value,
                           rules: Value -> Outcome<string>, name: string, rendered: Value,
                           format: (Value, Value) -> Outcome<Value>, payload: Value, ok: bool)
    requires LookupProvider(providers, Get(message, "provider")) == Done(Some(p))
    requires Destination(p, message) == Done(destination) && Truthy(destination)
    requires p.applyTemplateRules == Done(rules) && "template" in message
    requires rules(message["template"]) == Done(name)
    requires Render(engine, name, VDict(MessageContext(message).context)) == Done(rendered)
    requires p.formatPayload == Done(format)
    requires format(rendered, GetOr(MessageContext(message).context, "_meta", VDict(map[]))) == Done(payload)
    requires p.send(destination, payload, net) == Done(ok)
    ensures Dispatch(providers, engine, message, net, fallbackNet) ==
      Run([RenderCall(name, MessageContext(message).context), SendCall(destination, payload)], Delivered(ok))
  {
  }

  /** Any exception before the send, a missing "template" key included,
      leads to exactly one send: the provider's fallback payload for that
      exception and context, to the same destination. */
  lemma FailureBeforeSendFallsBackOnce(providers: map<string, Provider>, engine: Engine,
                                       message: map<string, Value>, net: Net, fallbackNet: Net,
                                       p: Provider, destination: Value, e: Exc,
                                       build: (Exc, map<string, Value>) -> Outcome<Value>, payload: Value)
    requires LookupProvider(providers, Get(message, "provider")) == Done(Some(p))
    requires Destination(p, message) == Done(destination) && Truthy(destination)
    requires var primary := Primary(p, engine, Template(message), MessageContext(message).context, destination, net);
      primary.result == Raised(e) && Sends(primary.events) == []
    requires p.getFallbackPayload == Done(build) && build(e, MessageContext(message).context) == Done(payload)
    ensures var run := Dispatch(providers, engine, message, net, fallbackNet);
      && Sends(run.events) == [SendCall(destination, payload)]
      && (run.final.FallbackSent? || run.final.FallbackFailed?)
  {
    var context := MessageContext(message).context;
    var primary := Primary(p, engine, Template(message), context, destination, net);
    var fallback := Fallback(p, context, destination, e, fallbackNet);
    SendsAppend(primary.events, fallback.events);
  }

  /** An exception raised by the primary send itself is handled the same
      way: the trace holds the render, the failed send and then exactly one
      fallback send of the provider's fallback payload for that exception. */
  lemma SendFailureFallsBackOnce(providers: map<string, Provider>, engine: Engine, message: map<string, Value>,
                                 net: Net, fallbackNet: Net, p: Provider, destination: Value,
                                 rules: Value -> Outcome<string>, name: string, rendered: Value,
                                 format: (Value, Value) -> Outcome<Value>, payload: Value, e: Exc,
                                 build: (Exc, map<string, Value>) -> Outcome<Value>, fallback: Value)
    requires LookupProvider(providers, Get(message, "provider")) == Done(Some(p))
    requires Destination(p, message) == Done(destination) && Truthy(destination)
    requires p.applyTemplateRules == Done(rules) && "template" in message
    requires rules(message["template"]) == Done(name)
    requires Render(engine, name, VDict(MessageContext(message).context)) == Done(rendered)
    requires p.formatPayload == Done(format)
    requires format(rendered, GetOr(MessageContext(message).context, "_meta", VDict(map[]))) == Done(payload)
    requires p.send(destination, payload, net) == Raised(e)
    requires p.getFallbackPayload == Done(build) && build(e, MessageContext(message).context) == Done(fallback)
    ensures var run := Dispatch(providers, engine, message, net, fallbackNet);
      && run.events == [RenderCall(name, MessageContext(message).context), SendCall(destination, payload),
                        SendCall(destination, fallback)]
      && Sends(run.events) == [SendCall(destination, payload), SendCall(destination, fallback)]
      && (run.final.FallbackSent? || run.final.FallbackFailed?)
  {
    var context := MessageContext(message).context;
    var template := Template(message);
    DispatchAttempts(providers, engine, message, net, fallbackNet, p, destination);
    PrimarySendRaises(p, engine, template, context, destination, net, rules, name, rendered, format, payload, e);
    var primary := [RenderCall(name, context), SendCall(destination, payload)];
    AttemptAfterSendFailure(p, engine, template, context, destination, net, fallbackNet, primary, e, build, fallback);
    var run := Attempt(p, engine, template, context, destination, net, fallbackNet);
    assert run.events == primary + [SendCall(destination, fallback)];
  }

  /** A resolved request with a truthy destination runs the `try`
      statement on its template and context. */
  lemma DispatchAttempts(providers: map<string, Provider>, engine: Engine, message: map<string, Value>,
                         net: Net, fallbackNet: Net, p: Provider, destination: Value)
    requires LookupProvider(providers, Get(message, "provider")) == Done(Some(p))
    requires Destination(p, message) == Done(destination) && Truthy(destination)
    ensures Dispatch(providers, engine, message, net, fallbackNet)
      == Attempt(p, engine, Template(message), MessageContext(message).context, destination, net, fallbackNet)
  {
  }

  /** When every step before the send succeeds and the send raises, the
      primary path is the render and the send, ending in that exception. */
  lemma PrimarySendRaises(p: Provider, engine: Engine, template: Option<Value>, context: map<string, Value>,
                          destination: Value, net: Net, rules: Value -> Outcome<string>, name: string,
                          rendered: Value, format: (Value, Value) -> Outcome<Value>, payload: Value, e: Exc)
    requires p.applyTemplateRules == Done(rules) && template.Some? && rules(template.value) == Done(name)
    requires Render(engine, name, VDict(context)) == Done(rendered)
    requires p.formatPayload == Done(format)
    requires format(rendered, GetOr(context, "_meta", VDict(map[]))) == Done(payload)
    requires p.send(destination, payload, net) == Raised(e)
    ensures Primary(p, engine, template, context, destination, net)
      == Step([RenderCall(name, context), SendCall(destination, payload)], Raised(e))
  {
  }

  lemma AttemptAfterSendFailure(p: Provider, engine: Engine, template: Option<Value>, context: map<string, Value>,
                                destination: Value, net: Net, fallbackNet: Net, primary: seq<Event>, e: Exc,
                                build: (Exc, map<string, Value>) -> Outcome<Value>, fallback: Value)
    requires |primary| == 2 && primary[0].RenderCall? && primary[1].SendCall?
    requires Primary(p, engine, template, context, destination, net) == Step(primary, Raised(e))
    requires p.getFallbackPayload == Done(build) && build(e, context) == Done(fallback)
    ensures var run := Attempt(p, engine, template, context, destination, net, fallbackNet);
      && run.events == primary + [SendCall(destination, fallback)]
      && Sends(run.events) == [primary[1], SendCall(destination, fallback)]
      && (run.final.FallbackSent? || run.final.FallbackFailed?)
  {
    var events := primary + [SendCall(destination, fallback)];
    assert Sends(events) == [events[1]] + Sends(events[2..]);
    assert Sends(events[2..]) == [events[2]] + Sends([]);
  }

  /** A missing "template" key is such an exception: it is raised inside the
      `try`, so the fallback is sent. */
  lemma MissingTemplateFallsBack(providers: map<string, Provider>, engine: Engine,
                                 message: map<string, Value>, net: Net, fallbackNet: Net,
                                 p: Provider, destination: Value, rules: Value -> Outcome<string>)
    requires LookupProvider(providers, Get(message, "provider")) == Done(Some(p))
    requires Destination(p, message) == Done(destination) && Truthy(destination)
    requires p.applyTemplateRules == Done(rules) && "template" !in message
    ensures Primary(p, engine, Template(message), MessageContext(message).context, destination, net)
      == Step([], Raised(KeyError("template")))
    ensures Dispatch(providers, engine, message, net, fallbackNet) ==
      Fallback(p, MessageContext(message).context, destination, KeyError("template"), fallbackNet)
  {
  }

  /** When the provider's `send` reports failures by returning false, a failed
      delivery never triggers the fallback: a request is sent at most once. */
  lemma NonRaisingSendSendsAtMostOnce(providers: map<string, Provider>, engine: Engine,
                                      message: map<string, Value>, net: Net, fallbackNet: Net, p: Provider)
    requires LookupProvider(providers, Get(message, "provider")) == Done(Some(p))
    requires NeverRaises(p.send)
    ensures |Sends(Dispatch(providers, engine, message, net, fallbackNet).events)| <= 1
  {
    match Destination(p, message)
    case Raised(_) =>
    case Done(destination) =>
      if Truthy(destination) {
        var context := MessageContext(message).context;
        var primary := Primary(p, engine, Template(message), context, destination, net);
        if primary.result.Raised? {
          var fallback := Fallback(p, context, destination, primary.result.exc, fallbackNet);
          SendsAppend(primary.events, fallback.events);
        }
      }
  }

  /** With the repository's Discord and Slack provider classes, which define
      only `send`, the dispatcher never sends anything: reading the template
      rules raises, and so does reading the fallback builder. */
  lemma RepositoryProvidersNeverSend(providers: map<string, Provider>, engine: Engine,
                                     message: map<string, Value>, net: Net, fallbackNet: Net,
                                     show: Value -> string)
    requires forall k :: k in providers ==> providers[k] == DiscordProvider() || providers[k] == SlackProvider(show)
    ensures Dispatch(providers, engine, message, net, fallbackNet).events == []
  {
  }

  /** `_get_message_context` pops `_mail_meta` out of the caller's dict, so
      processing the same request again renders with empty metadata. */
  lemma SecondContextLosesMetadata(message: map<string, Value>)
    requires "data" in message && message["data"].VDict?
    ensures MessageContext(MessageAfter(message)).context["_meta"] == VDict(map[])
    ensures MessageContext(MessageAfter(message)).context - {"_meta"} == MessageContext(message).context - {"_meta"}
  {
  }

  /** The dispatcher's test request with Kafka metadata: one `foo` data
      item and `_kafka_meta` naming topic, partition and offset. */
  function KafkaMetaRequest(): map<string, Value>
  {
    map["provider" := VStr("test_provider"), "template" := VStr("template"), "destination" := VStr("dest"),
        "data" := VDict(map["foo" := VStr("bar")]),
        "_kafka_meta" := VDict(map["topic" := VStr("test-topic"), "partition" := VInt(0), "offset" := VInt(123)])]
  }

  /** The context `_get_message_context` builds, and the fallback layout
      receives, never reads `_kafka_meta`: for the test request it has the
      data item but no topic, partition or offset. */
  lemma KafkaMetaMissingFromContext()
    ensures var c := MessageContext(KafkaMetaRequest()).context;
      && "foo" in c && c["foo"] == VStr("bar")
      && "topic" !in c && "partition" !in c && "offset" !in c
  {
    var data := map["foo" := VStr("bar")];
    assert GetOr(KafkaMetaRequest(), "data", VDict(map[])) == VDict(data);
    assert "foo"[..1] != "_" by {
      assert "foo"[..1][0] == 'f';
    }
  }

  /** The Kafka position fields a fallback context is evidently meant to carry. */
  const KafkaFields := ["topic", "partition", "offset"]

  /** The message context with the topic, partition and offset of a
      `_kafka_meta` dict added, as the dispatcher's tests expect. */
  function MessageContextWithKafka(message: map<string, Value>): (c: map<string, Value>)
    ensures var kafka := GetOr(message, "_kafka_meta", VDict(map[]));
      && (forall k :: k in KafkaFields && kafka.VDict? && k in kafka.entries ==> k in c && c[k] == kafka.entries[k])
      && (forall k :: k in MessageContext(message).context && !(kafka.VDict? && k in KafkaFields && k in kafka.entries) ==>
            k in c && c[k] == MessageContext(message).context[k])
      && (forall k :: k in c ==> k in MessageContext(message).context || k in KafkaFields)
  {
    var base := MessageContext(message).context;
    var kafka := GetOr(message, "_kafka_meta", VDict(map[]));
    if kafka.VDict? then
      map k | k in base.Keys + (set f | f in KafkaFields && f in kafka.entries) ::
        if k in KafkaFields && k in kafka.entries then kafka.entries[k] else base[k]
    else base
  }

  /** With the Kafka fields added, the test request's context has what the
      test asserts. */
  lemma KafkaMetaInContextFixed()
    ensures var c := MessageContextWithKafka(KafkaMetaRequest());
      && "foo" in c && c["foo"] == VStr("bar")
      && "topic" in c && c["topic"] == VStr("test-topic")
      && "partition" in c && c["partition"] == VInt(0)
      && "offset" in c && c["offset"] == VInt(123)
  {
    KafkaMetaMissingFromContext();
    var kafka := GetOr(KafkaMetaRequest(), "_kafka_meta", VDict(map[]));
    assert kafka.VDict? && "topic" in kafka.entries && "partition" in kafka.entries && "offset" in kafka.entries;
    assert "topic" in KafkaFields && "partition" in KafkaFields && "offset" in KafkaFields;
    assert "foo" !in KafkaFields;
  }

  class NotificationDispatcher {
    const providers: map<string, Provider>
    const renderer: Engine

    constructor (providers: map<string, Provider>, renderer: Engine)
      ensures this.providers == providers && this.renderer == renderer
    {
      this.providers := providers;
      this.renderer := renderer;
    }

    /** `_get_message_context`: pops `_mail_meta` out of the caller's `data`
        dict and returns the render context. */
    method GetMessageContext(fields: map<string, Value>, data: Data) returns (context: map<string, Value>)
      requires "data" !in fields && (data.OtherData? ==> !data.value.VDict?)
      modifies if data.DictData? then {data.dict} else {}
      ensures context == MessageContext(old(Snapshot(fields, data))).context
      ensures data.DictData? ==> data.dict.entries == old(data.dict.entries) - {"_mail_meta"}
    {
      match data
      case NoData =>
        context := map["_meta" := VDict(map[])];
      case OtherData(v) =>
        context := map["data" := v];
      case DictData(d) =>
        var meta := d.Pop("_mail_meta", VDict(map[]));
        var rest := d.entries;
        context := map k | k in rest && !StartsWith(k, "_") :: rest[k];
        context := context["_meta" := meta];
    }

    /** `process`: the request's `data` dict loses `_mail_meta` once the
        provider and destination are resolved; the trace is that of
        `Dispatch` on the request as it was before the call. */
    method Process(fields: map<string, Value>, data: Data, net: Net, fallbackNet: Net) returns (run: Run)
      requires "data" !in fields && (data.OtherData? ==> !data.value.VDict?)
      modifies if data.DictData? then {data.dict} else {}
      ensures run == Dispatch(providers, renderer, old(Snapshot(fields, data)), net, fallbackNet)
      ensures data.DictData? ==>
        data.dict.entries == if run.final.Rejected? || run.final.Crashed? then old(data.dict.entries)
                             else old(data.dict.entries) - {"_mail_meta"}
    {
      ghost var before := Snapshot(fields, data);
      var lookup := LookupProvider(providers, Get(fields, "provider"));
      if lookup.Raised? {
        return Run([], Crashed(lookup.exc));
      }
      if lookup.value.None? {
        return Run([], Rejected);
      }
      var p := lookup.value.value;
      var destination := Destination(p, fields);
      assert destination == Destination(p, before);
      if destination.Raised? {
        return Run([], Crashed(destination.exc));
      }
      if !Truthy(destination.value) {
        return Run([], Rejected);
      }
      var context := GetMessageContext(fields, data);
      run := Attempt(p, renderer, Template(fields), context, destination.value, net, fallbackNet);
      assert Template(fields) == Template(before);
    }
  }
}
