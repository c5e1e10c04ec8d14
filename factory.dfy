/** AlertFactory: the older single-entry pipeline. It validates a request,
    completes its destination from the settings, renders either an inline
    template string or a template file, wraps e-mail output in an envelope,
    sends once and, when any of that raises, sends one fallback message that
    quotes the error and the raw data. */
module Factory {
  import opened Values
  import opened Config
  import opened Renderer
  import opened Providers

  /** The template a request is rendered with. */
  datatype Source =
    | File(name: string)                    // `renderer.render(name, context)`
    | Inline(content: Value, isJson: bool)  // `renderer.render_from_string(content, context, is_json)`

  /** An observable call made while processing one request. */
  datatype Event =
    | RenderCall(source: Source, context: Value)
    | SendCall(destination: Value, payload: Value)

  /** How processing one request ended. */
  datatype Final =
    | Rejected                  // no or unknown provider, or no destination
    | NoTemplate                // neither "template" nor "template_content": logged, nothing sent
    | Delivered(ok: bool)       // the send returned
    | FallbackSent(ok: bool)    // a step raised; the fallback send returned
    | NoFallback                // a step raised and the provider has no fallback layout
    | FallbackFailed(exc: Exc)  // the fallback send raised; logged
    | Crashed(exc: Exc)         // an exception escaped `process`

  datatype Run = Run(events: seq<Event>, final: Final)

  /** How the `try` block ended. */
  datatype Exit = Sent(ok: bool) | Abandoned | Threw(exc: Exc)

  datatype Step = Step(events: seq<Event>, exit: Exit)

  const NonTemplateNodes: string := "Can't compile non template nodes"
  const DefaultSubject: string := "Alert Notification"
  const FallbackSubject: string := "[Error] Alert Rendering Failed"

  /** The providers the factory registers at initialisation. */
  function StandardProviders(show: Value -> string): (m: map<string, Sender>)
    ensures m.Keys == {"discord", "slack", "email"}
    ensures forall k :: k in m ==> NeverRaises(m[k])
  {
    SendersNeverRaise(show);
    map["discord" := DiscordSender(), "slack" := SlackSender(show), "email" := EmailSender()]
  }

  /** The destination after the fallback logic: the request's own when
      truthy, else the configured one for discord and email; slack and any
      other provider get no default. */
  function CompleteDestination(settings: Settings, provider: string, destination: Value): (r: Value)
    ensures Truthy(destination) ==> r == destination
    ensures !Truthy(destination) && provider == "discord" ==> r == settings.discordWebhookUrl
    ensures !Truthy(destination) && provider == "email" ==> r == settings.defaultToEmail
    ensures !Truthy(destination) && provider != "discord" && provider != "email" ==> !Truthy(r)
  {
    if Truthy(destination) then destination
    else if provider == "discord" then settings.discordWebhookUrl
    else if provider == "email" then settings.defaultToEmail
    else destination
  }

  /** The `_mail_meta` entry of dict data, `{}` when absent or when the data
      is not a dict. */
  function MailMeta(data: Value): Value
  {
    if data.VDict? && "_mail_meta" in data.entries then data.entries["_mail_meta"] else VDict(map[])
  }

  /** The data after `_mail_meta` has been popped out of it. */
  function Popped(data: Value): (r: Value)
    ensures r.VDict? <==> data.VDict?
    ensures data.VDict? ==> r.entries == data.entries - {"_mail_meta"}
    ensures !data.VDict? ==> r == data
  {
    if data.VDict? then VDict(data.entries - {"_mail_meta"}) else data
  }

  /** The render context: the keys of dict data not starting with "_", or
      non-dict data unchanged. */
  function RenderContext(data: Value): (r: Value)
    ensures data.VDict? ==> r.VDict? && (forall k :: k in r.entries <==> k in data.entries && !StartsWith(k, "_"))
    ensures data.VDict? ==> forall k :: k in r.entries ==> r.entries[k] == data.entries[k]
    ensures !data.VDict? ==> r == data
  {
    if data.VDict? then VDict(map k | k in data.entries && !StartsWith(k, "_") :: data.entries[k]) else data
  }

  /** The file a template name refers to: a name without the ".j2" extension
      gets ".json.j2" for discord and ".html.j2" for email. */
  function TemplateFile(provider: string, name: string): (r: string)
    ensures EndsWith(name, ".j2") ==> r == name
    ensures !EndsWith(name, ".j2") && provider == "discord" ==> r == name + JsonSuffix
    ensures !EndsWith(name, ".j2") && provider == "email" ==> r == name + ".html.j2"
    ensures !EndsWith(name, ".j2") && provider != "discord" && provider != "email" ==> r == name
    ensures provider == "discord" || provider == "email" ==> EndsWith(r, ".j2")
  {
    if EndsWith(name, ".j2") then name
    else if provider == "discord" then
      assert (name + JsonSuffix)[|name + JsonSuffix| - 3..] == ".j2";
      name + JsonSuffix
    else if provider == "email" then
      assert (name + ".html.j2")[|name + ".html.j2"| - 3..] == ".j2";
      name + ".html.j2"
    else name
  }

  /** Completing a template name twice is completing it once. */
  lemma TemplateFileIdempotent(provider: string, name: string)
    ensures TemplateFile(provider, TemplateFile(provider, name)) == TemplateFile(provider, name)
  {
  }

  /** The e-mail envelope `{"headers": mail_meta, "body": str(rendered)}`,
      with a default subject added to dict metadata that has none. Python's
      `"subject" not in mail_meta` and `mail_meta["subject"] = ...` are
      applied to whatever the metadata is: a string or list without a subject
      cannot take the assignment, and any other non-dict is not iterable. */
  function Envelope(settings: Settings, rendered: Value, meta: Value, show: Value -> string): (r: Outcome<Value>)
    ensures meta.VDict? ==> r.Done?
    ensures r.Done? ==> r.value.VDict? && r.value.entries.Keys == {"headers", "body"}
    ensures r.Done? ==> r.value.entries["body"] == VStr(Str(rendered, show))
    ensures meta.VDict? && "subject" in meta.entries ==> r.value.entries["headers"] == meta
    ensures meta.VDict? && "subject" !in meta.entries ==>
      r.value.entries["headers"] == VDict(meta.entries["subject" := Or(settings.defaultSubject, VStr(DefaultSubject))])
    ensures !meta.VDict? && r.Done? ==> r.value.entries["headers"] == meta
    ensures r.Raised? ==> r.exc.TypeError?
  {
    var body := VStr(Str(rendered, show));
    match meta
    case VDict(m) =>
      var headers := if "subject" in m then m else m["subject" := Or(settings.defaultSubject, VStr(DefaultSubject))];
      Done(VDict(map["headers" := VDict(headers), "body" := body]))
    case VStr(s) =>
      if Contains(s, "subject") then Done(VDict(map["headers" := meta, "body" := body]))
      else Raised(TypeError("'str' object does not support item assignment"))
    case VList(items) =>
      if VStr("subject") in items then Done(VDict(map["headers" := meta, "body" := body]))
      else Raised(TypeError("list indices must be integers or slices, not str"))
    case _ =>
      Raised(TypeError("argument of type '" + TypeName(meta) + "' is not iterable"))
  }

  /** The repr of the slice object `destination[:10]` looks up. */
  const SliceRepr: string := "slice(None, 10, None)"

  /** The exception `destination[:10]` raises in the log line: only strings
      and lists can be sliced (a dict raises KeyError on the slice object, as
      in Python 3.12 and later). */
  function SliceFailure(destination: Value): (r: Option<Exc>)
    ensures r.None? <==> destination.VStr? || destination.VList?
    ensures destination.VDict? ==> r.Some? && ExcText(r.value) == SliceRepr
    ensures !destination.VStr? && !destination.VList? && !destination.VDict? ==> r.Some? && r.value.TypeError?
  {
    match destination
    case VStr(_) => None
    case VList(_) => None
    case VDict(_) => Some(KeyErrorOn(SliceRepr))
    case _ => Some(TypeError("'" + TypeName(destination) + "' object is not subscriptable"))
  }

  /** What `provider.send` is given for a rendered value: the e-mail
      envelope for "email", the rendered value itself for every other
      provider. */
  function Payload(provider: string, settings: Settings, rendered: Value, meta: Value, show: Value -> string): Outcome<Value>
  {
    if provider == "email" then Envelope(settings, rendered, meta, show) else Done(rendered)
  }

  /** The exception that ends the `try` block before the send: the
      rendering's, else the envelope's, else the log line's slice. */
  function FirstFailure(provider: string, settings: Settings, rendered: Outcome<Value>, meta: Value,
                        destination: Value, show: Value -> string): Option<Exc>
  {
    if rendered.Raised? then Some(rendered.exc)
    else if Payload(provider, settings, rendered.value, meta, show).Raised? then
      Some(Payload(provider, settings, rendered.value, meta, show).exc)
    else SliceFailure(destination)
  }

  /** From a rendered payload to the send: the e-mail envelope, the log line,
      then `provider.send`, whose return value ends the `try`. The send
      happens iff no earlier step failed, and it carries the envelope (for
      e-mail) or the rendered value; otherwise the first failure is raised. */
  function Deliver(provider: string, send: Sender, settings: Settings, trace: seq<Event>,
                   rendered: Outcome<Value>, meta: Value, destination: Value, net: Net,
                   show: Value -> string): (s: Step)
    ensures !s.exit.Abandoned?
    ensures trace <= s.events && |s.events| <= |trace| + 1
    ensures |s.events| == |trace| + 1 <==> FirstFailure(provider, settings, rendered, meta, destination, show).None?
    ensures |s.events| == |trace| + 1 ==>
      && rendered.Done? && s.events[|trace|].SendCall? && s.events[|trace|].destination == destination
      && Payload(provider, settings, rendered.value, meta, show) == Done(s.events[|trace|].payload)
      && s.exit == OutcomeExit(send(destination, s.events[|trace|].payload, net))
    ensures |s.events| == |trace| ==>
      s.exit == Threw(FirstFailure(provider, settings, rendered, meta, destination, show).value)
    ensures s.exit.Sent? ==> |s.events| == |trace| + 1
  {
    match rendered
    case Raised(e) => Step(trace, Threw(e))
    case Done(value) =>
      var payload := Payload(provider, settings, value, meta, show);
      match payload
      case Raised(e) => Step(trace, Threw(e))
      case Done(body) =>
        match SliceFailure(destination)
        case Some(e) => Step(trace, Threw(e))
        case None => Step(trace + [SendCall(destination, body)], OutcomeExit(send(destination, body, net)))
  }

  function OutcomeExit(o: Outcome<bool>): Exit
  {
    match o
    case Done(ok) => Sent(ok)
    case Raised(e) => Threw(e)
  }

  /** What the `try` block renders, when it renders at all: inline content
      (parsed as JSON for discord and slack) before a template file. Content
      that is not a string cannot be compiled; a template name that is not a
      string has no `endswith`. */
  function Rendered(provider: string, engine: Engine, name: Value, content: Value, data: Value): Outcome<Value>
  {
    var context := RenderContext(data);
    if Truthy(content) then
      if content.VStr? then RenderFromString(engine, content.s, context, provider == "discord" || provider == "slack")
      else Raised(TypeError(NonTemplateNodes))
    else if name.VStr? then Render(engine, TemplateFile(provider, name.s), context)
    else Raised(AttributeError("'" + TypeName(name) + "' object has no attribute 'endswith'"))
  }

  /** The rendering part of the `try` block. Inline content takes precedence
      over a template name; with neither, the block returns without a
      fallback. `data` is the request's data after the pop. */
  function Attempt(provider: string, send: Sender, engine: Engine, settings: Settings,
                   name: Value, content: Value, data: Value, meta: Value,
                   destination: Value, net: Net, show: Value -> string): (s: Step)
    ensures |s.events| <= 2
    ensures s.exit.Abandoned? <==> !Truthy(content) && !Truthy(name)
    ensures s.exit.Abandoned? ==> s.events == []
    ensures s.events != [] ==> s.events[0].RenderCall? && s.events[0].context == RenderContext(data)
    ensures Truthy(content) ==>
      s.events != [] && s.events[0].source == Inline(content, provider == "discord" || provider == "slack")
    ensures !Truthy(content) && name.VStr? && name.s != "" ==>
      s.events != [] && s.events[0].source == File(TemplateFile(provider, name.s))
    ensures |s.events| == 2 ==> s.events[1].SendCall? && s.events[1].destination == destination
    ensures |s.events| == 2 ==> s.exit == OutcomeExit(send(destination, s.events[1].payload, net))
    ensures s.exit.Sent? ==> |s.events| == 2
    ensures (Truthy(content) || Truthy(name)) ==>
      (|s.events| == 2 <==> FirstFailure(provider, settings, Rendered(provider, engine, name, content, data), meta, destination, show).None?)
    ensures |s.events| == 2 ==>
      && Rendered(provider, engine, name, content, data).Done?
      && Payload(provider, settings, Rendered(provider, engine, name, content, data).value, meta, show) == Done(s.events[1].payload)
    ensures s.exit.Threw? && |s.events| < 2 ==>
      FirstFailure(provider, settings, Rendered(provider, engine, name, content, data), meta, destination, show).Some? &&
      s.exit.exc == FirstFailure(provider, settings, Rendered(provider, engine, name, content, data), meta, destination, show).value
  {
    var context := RenderContext(data);
    if Truthy(content) then
      var isJson := provider == "discord" || provider == "slack";
      var rendered := if content.VStr? then RenderFromString(engine, content.s, context, isJson)
                      else Raised(TypeError(NonTemplateNodes));
      Deliver(provider, send, settings, [RenderCall(Inline(content, isJson), context)], rendered, meta, destination, net, show)
    else if Truthy(name) then
      if !name.VStr? then Step([], Threw(AttributeError("'" + TypeName(name) + "' object has no attribute 'endswith'")))
      else
        var file := TemplateFile(provider, name.s);
        Deliver(provider, send, settings, [RenderCall(File(file), context)], Render(engine, file, context), meta, destination, net, show)
    else Step([], Abandoned)
  }

  /** The text of the fallback message. */
  function FallbackText(error: Exc, dataJson: string): string
  {
    "\U{26A0}\U{FE0F} **Alert Rendering Failed**\nError: `" + ExcText(error) + "`\nRaw Data:\n```json\n"
      + dataJson + "\n```"
  }

  lemma {:induction false} ContainsInfix(a: string, b: string, c: string)
    ensures Contains(a + b + c, b)
  {
    if a == [] {
      assert a + b + c == b + c;
      assert (b + c)[..|b|] == b;
    } else {
      assert (a + b + c)[1..] == a[1..] + b + c;
      ContainsInfix(a[1..], b, c);
    }
  }

  /** The fallback text quotes the error's text and the dumped data, the
      error first. */
  lemma FallbackTextQuotes(error: Exc, dataJson: string)
    ensures Contains(FallbackText(error, dataJson), ExcText(error))
    ensures Contains(FallbackText(error, dataJson), dataJson)
    ensures StartsWith(FallbackText(error, dataJson), "\U{26A0}\U{FE0F} **Alert Rendering Failed**\nError: `" + ExcText(error))
  {
    var head := "\U{26A0}\U{FE0F} **Alert Rendering Failed**\nError: `";
    var mid := "`\nRaw Data:\n```json\n";
    ContainsInfix(head, ExcText(error), mid + dataJson + "\n```");
    assert FallbackText(error, dataJson) == head + ExcText(error) + (mid + dataJson + "\n```");
    ContainsInfix(head + ExcText(error) + mid, dataJson, "\n```");
    assert FallbackText(error, dataJson) == (head + ExcText(error)) + (mid + dataJson + "\n```");
    assert FallbackText(error, dataJson)[..|head + ExcText(error)|] == head + ExcText(error);
  }

  /** `_create_fallback_payload`: a layout per known provider, None for any
      other. `dumps` is `json.dumps(data, indent=2, default=str)`. Every
      layout quotes the error text and the raw data. */
  function FallbackPayload(provider: string, error: Exc, data: Value, dumps: Value -> string): (r: Option<Value>)
    ensures r.Some? <==> provider in {"discord", "slack", "email"}
    ensures provider == "discord" ==> r.value == VDict(map["content" := VStr(FallbackText(error, dumps(data)))])
    ensures provider == "slack" ==> r.value == VDict(map["text" := VStr(FallbackText(error, dumps(data)))])
    ensures provider == "email" ==>
      (r.value.VDict? && r.value.entries.Keys == {"subject", "body"} && r.value.entries["subject"] == VStr(FallbackSubject))
    ensures r.Some? ==> r.value.VDict? && Truthy(r.value)
    ensures r.Some? ==> exists k :: (k in r.value.entries && r.value.entries[k].VStr? &&
      Contains(r.value.entries[k].s, ExcText(error)) && Contains(r.value.entries[k].s, dumps(data)))
  {
    var json := dumps(data);
    var text := FallbackText(error, json);
    var head := "\U{26A0}\U{FE0F} **Alert Rendering Failed**\nError: `";
    ContainsInfix(head, ExcText(error), "`\nRaw Data:\n```json\n" + json + "\n```");
    assert text == head + ExcText(error) + ("`\nRaw Data:\n```json\n" + json + "\n```");
    ContainsInfix(head + ExcText(error) + "`\nRaw Data:\n```json\n", json, "\n```");
    if provider == "discord" then
      var r := VDict(map["content" := VStr(text)]);
      assert r.entries["content"].s == text;
      Some(r)
    else if provider == "slack" then
      var r := VDict(map["text" := VStr(text)]);
      assert r.entries["text"].s == text;
      Some(r)
    else if provider == "email" then
      var body := "<h3>\U{26A0}\U{FE0F} Alert Rendering Failed</h3><p>Error: " + ExcText(error) + "</p><pre>" + json + "</pre>";
      ContainsInfix("<h3>\U{26A0}\U{FE0F} Alert Rendering Failed</h3><p>Error: ", ExcText(error), "</p><pre>" + json + "</pre>");
      assert body == "<h3>\U{26A0}\U{FE0F} Alert Rendering Failed</h3><p>Error: " + ExcText(error) + ("</p><pre>" + json + "</pre>");
      ContainsInfix("<h3>\U{26A0}\U{FE0F} Alert Rendering Failed</h3><p>Error: " + ExcText(error) + "</p><pre>", json, "</pre>");
      var r := VDict(map["subject" := VStr(FallbackSubject), "body" := VStr(body)]);
      assert r.entries["body"].s == body;
      Some(r)
    else None
  }

  /** The checks before the `try` block: the provider must be given and
      registered, and a destination must remain after the fallback logic. */
  function Resolve(providers: map<string, Sender>, settings: Settings, message: map<string, Value>)
    : (r: Outcome<Option<(string, Value)>>)
    ensures r.Raised? <==> Truthy(Get(message, "provider")) && (Get(message, "provider").VList? || Get(message, "provider").VDict?)
    ensures r.Done? && r.value.Some? ==>
      && Get(message, "provider") == VStr(r.value.value.0) && r.value.value.0 in providers
      && r.value.value.1 == CompleteDestination(settings, r.value.value.0, Get(message, "destination"))
      && Truthy(r.value.value.1)
    ensures var name := Get(message, "provider");
      name.VStr? && name.s != "" && name.s in providers && Truthy(CompleteDestination(settings, name.s, Get(message, "destination"))) ==>
        r == Done(Some((name.s, CompleteDestination(settings, name.s, Get(message, "destination")))))
  {
    var name := Get(message, "provider");
    if !Truthy(name) then Done(None)
    else
      match In(name, providers)
      case Raised(e) => Raised(e)
      case Done(found) =>
        if !found then Done(None)
        else
          var destination := CompleteDestination(settings, name.s, Get(message, "destination"));
          if !Truthy(destination) then Done(None) else Done(Some((name.s, destination)))
  }

  /** The `try` block and its `except` branch, for a resolved provider and
      destination. `data` is the request's data before the pop. */
  function Proceed(provider: string, send: Sender, engine: Engine, settings: Settings,
                   name: Value, content: Value, data: Value, destination: Value,
                   net: Net, fallbackNet: Net, show: Value -> string, dumps: Value -> string): (run: Run)
    ensures !run.final.Rejected? && !run.final.Crashed?
    ensures run.final.NoTemplate? ==> run.events == []
    ensures |run.events| <= 3
    ensures var step := Attempt(provider, send, engine, settings, name, content, Popped(data), MailMeta(data), destination, net, show);
      && (run.final.Delivered? <==> step.exit.Sent?)
      && (run.final.Delivered? ==> run.events == step.events)
      && (step.exit.Threw? ==>
            && step.events <= run.events
            && (run.final.NoFallback? <==> FallbackPayload(provider, step.exit.exc, Popped(data), dumps).None?)
            && (!run.final.NoFallback? ==>
                  run.events == step.events + [SendCall(destination, FallbackPayload(provider, step.exit.exc, Popped(data), dumps).value)]))
  {
    var step := Attempt(provider, send, engine, settings, name, content, Popped(data), MailMeta(data), destination, net, show);
    Conclude(provider, send, step, Popped(data), destination, fallbackNet, dumps)
  }

  /** How the `try` block ended decides the outcome: a send that returned is
      delivered, a missing template ends quietly, and an exception sends the
      fallback message, when the provider has a layout for one. */
  function Conclude(provider: string, send: Sender, step: Step, data: Value, destination: Value,
                    fallbackNet: Net, dumps: Value -> string): (run: Run)
    ensures !run.final.Rejected? && !run.final.Crashed?
    ensures run.final.NoTemplate? <==> step.exit.Abandoned?
    ensures run.final.Delivered? <==> step.exit.Sent?
    ensures run.final.NoTemplate? || run.final.Delivered? || run.final.NoFallback? ==> run.events == step.events
    ensures run.final.FallbackSent? || run.final.FallbackFailed? ==>
      && step.exit.Threw? && FallbackPayload(provider, step.exit.exc, data, dumps).Some?
      && run.events == step.events + [SendCall(destination, FallbackPayload(provider, step.exit.exc, data, dumps).value)]
    ensures step.exit.Threw? && FallbackPayload(provider, step.exit.exc, data, dumps).None? ==> run.final.NoFallback?
    ensures step.exit.Threw? && FallbackPayload(provider, step.exit.exc, data, dumps).Some? ==>
      var sent := send(destination, FallbackPayload(provider, step.exit.exc, data, dumps).value, fallbackNet);
      run.final == if sent.Done? then FallbackSent(sent.value) else FallbackFailed(sent.exc)
    ensures step.exit.Sent? ==> run.final == Delivered(step.exit.ok)
  {
    match step.exit
    case Sent(ok) => Run(step.events, Delivered(ok))
    case Abandoned => Run(step.events, NoTemplate)
    case Threw(e) =>
      match FallbackPayload(provider, e, data, dumps)
      case None => Run(step.events, NoFallback)
      case Some(payload) =>
        var events := step.events + [SendCall(destination, payload)];
        match send(destination, payload, fallbackNet)
        case Done(ok) => Run(events, FallbackSent(ok))
        case Raised(e') => Run(events, FallbackFailed(e'))
  }

  /** `AlertFactory.process` on one request. `net` is what the network does
      for the primary send and `fallbackNet` for the fallback; `dumps` is the
      JSON serialiser and `show` Python's `str` of non-strings. */
  function Handle(providers: map<string, Sender>, engine: Engine, settings: Settings,
                  message: map<string, Value>, net: Net, fallbackNet: Net,
                  show: Value -> string, dumps: Value -> string): (run: Run)
    ensures run.final.Rejected? || run.final.Crashed? || run.final.NoTemplate? ==> run.events == []
    ensures |run.events| <= 3
    ensures run.final.Crashed? <==> Resolve(providers, settings, message).Raised?
    ensures run.final.Rejected? <==> Resolve(providers, settings, message) == Done(None)
  {
    match Resolve(providers, settings, message)
    case Raised(e) => Run([], Crashed(e))
    case Done(None) => Run([], Rejected)
    case Done(Some((provider, destination))) =>
      Proceed(provider, providers[provider], engine, settings, Get(message, "template"), Get(message, "template_content"),
              GetOr(message, "data", VDict(map[])), destination, net, fallbackNet, show, dumps)
  }

  /** The sends of a trace, in order. */
  function Sends(events: seq<Event>): (s: seq<Event>)
    ensures |s| <= |events|
    ensures forall i :: 0 <= i < |s| ==> s[i].SendCall? && s[i] in events
    ensures forall i :: 0 <= i < |events| && events[i].SendCall? ==> events[i] in s
    ensures IsSubsequence(s, events)
    ensures (forall i :: 0 <= i < |events| ==> !events[i].SendCall?) ==> s == []
  {
    if events == [] then []
    else if events[0].SendCall? then [events[0]] + Sends(events[1..])
    else Sends(events[1..])
  }

  /** A request without a provider, or with one the factory does not know,
      ends at once: nothing is rendered or sent and nothing is raised. */
  lemma UnknownProviderRejected(providers: map<string, Sender>, engine: Engine, settings: Settings,
                                message: map<string, Value>, net: Net, fallbackNet: Net,
                                show: Value -> string, dumps: Value -> string)
    requires var name := Get(message, "provider");
      !Truthy(name) || (!name.VList? && !name.VDict? && !(name.VStr? && name.s in providers))
    ensures Handle(providers, engine, settings, message, net, fallbackNet, show, dumps) == Run([], Rejected)
  {
  }

  /** For a known provider whose `send` never raises, the `try` block ends
      in exactly one send: the primary send when every step succeeds (its
      payload is given by `ValidRequestDelivered`), otherwise the fallback
      message. Only a request without any template
      sends nothing. */
  lemma {:induction false} NonRaisingSendOnce(provider: string, send: Sender, engine: Engine, settings: Settings,
                                              name: Value, content: Value, data: Value, destination: Value,
                                              net: Net, fallbackNet: Net, show: Value -> string, dumps: Value -> string)
    requires NeverRaises(send) && provider in {"discord", "slack", "email"}
    ensures var run := Proceed(provider, send, engine, settings, name, content, data, destination, net, fallbackNet, show, dumps);
      && (run.final.Delivered? || run.final.FallbackSent? || run.final.NoTemplate?)
      && (run.final.Delivered? || run.final.FallbackSent? ==>
            |Sends(run.events)| == 1 && run.events[|run.events| - 1] == Sends(run.events)[0])
  {
    var step := Attempt(provider, send, engine, settings, name, content, Popped(data), MailMeta(data), destination, net, show);
    if |step.events| == 2 {
      assert send(destination, step.events[1].payload, net).Done?;
    }
    ConcludeSendOnce(provider, send, step, Popped(data), destination, fallbackNet, dumps);
  }

  /** A request that resolves, renders, gets its payload built and its
      destination logged is sent exactly once, with that payload to that
      destination, and the send's result is the outcome. */
  lemma ValidRequestDelivered(providers: map<string, Sender>, engine: Engine, settings: Settings,
                              message: map<string, Value>, net: Net, fallbackNet: Net,
                              show: Value -> string, dumps: Value -> string,
                              provider: string, destination: Value, rendered: Value, payload: Value)
    requires Resolve(providers, settings, message) == Done(Some((provider, destination)))
    requires var data := GetOr(message, "data", VDict(map[]));
      var name := Get(message, "template");
      var content := Get(message, "template_content");
      && (Truthy(content) || Truthy(name))
      && Rendered(provider, engine, name, content, Popped(data)) == Done(rendered)
      && Payload(provider, settings, rendered, MailMeta(data), show) == Done(payload)
      && SliceFailure(destination).None?
      && providers[provider](destination, payload, net).Done?
    ensures var run := Handle(providers, engine, settings, message, net, fallbackNet, show, dumps);
      && run.final == Delivered(providers[provider](destination, payload, net).value)
      && Sends(run.events) == [SendCall(destination, payload)]
  {
    var data := GetOr(message, "data", VDict(map[]));
    var step := Attempt(provider, providers[provider], engine, settings, Get(message, "template"),
                        Get(message, "template_content"), Popped(data), MailMeta(data), destination, net, show);
    assert |step.events| == 2 && step.events[1] == SendCall(destination, payload);
    var run := Handle(providers, engine, settings, message, net, fallbackNet, show, dumps);
    assert run.events == step.events;
    SingleSend(run.events);
  }

  /** The outcome half of `NonRaisingSendOnce`: a `try` block that sent and
      returned, or threw before any send, ends in one send. */
  lemma ConcludeSendOnce(provider: string, send: Sender, step: Step, data: Value, destination: Value,
                         fallbackNet: Net, dumps: Value -> string)
    requires NeverRaises(send) && provider in {"discord", "slack", "email"}
    requires step.exit.Sent? ==> |step.events| == 2 && step.events[0].RenderCall? && step.events[1].SendCall?
    requires step.exit.Threw? ==> |step.events| <= 1 && (step.events != [] ==> step.events[0].RenderCall?)
    ensures var run := Conclude(provider, send, step, data, destination, fallbackNet, dumps);
      && (run.final.Delivered? || run.final.FallbackSent? || run.final.NoTemplate?)
      && (run.final.Delivered? || run.final.FallbackSent? ==>
            |Sends(run.events)| == 1 && run.events[|run.events| - 1] == Sends(run.events)[0])
  {
    var run := Conclude(provider, send, step, data, destination, fallbackNet, dumps);
    if step.exit.Threw? {
      var payload := FallbackPayload(provider, step.exit.exc, data, dumps).value;
      assert send(destination, payload, fallbackNet).Done?;
    }
    if run.final.Delivered? || run.final.FallbackSent? {
      SingleSend(run.events);
    }
  }

  /** A trace of one send, alone or after one render, has that send as its
      only send. */
  lemma SingleSend(events: seq<Event>)
    requires (|events| == 1 && events[0].SendCall?) || (|events| == 2 && events[0].RenderCall? && events[1].SendCall?)
    ensures Sends(events) == [events[|events| - 1]]
  {
    if |events| == 2 {
      assert events[1..] == [events[1]];
      assert Sends(events[1..]) == [events[1]] + Sends([]);
    } else {
      assert Sends(events) == [events[0]] + Sends([]);
    }
  }

  /** With the factory's own providers every request that gets past the
      checks and names a template ends in exactly one send. */
  lemma StandardProvidersSendOnce(engine: Engine, settings: Settings, message: map<string, Value>,
                                  net: Net, fallbackNet: Net, show: Value -> string, dumps: Value -> string)
    ensures var run := Handle(StandardProviders(show), engine, settings, message, net, fallbackNet, show, dumps);
      && (run.final.Delivered? || run.final.FallbackSent? || run.final.Rejected? ||
          run.final.NoTemplate? || run.final.Crashed?)
      && (run.final.Delivered? || run.final.FallbackSent? ==> |Sends(run.events)| == 1)
  {
    var providers := StandardProviders(show);
    match Resolve(providers, settings, message)
    case Raised(_) =>
    case Done(None) =>
    case Done(Some((provider, destination))) =>
      NonRaisingSendOnce(provider, providers[provider], engine, settings, Get(message, "template"),
                         Get(message, "template_content"), GetOr(message, "data", VDict(map[])), destination,
                         net, fallbackNet, show, dumps);
  }

  /** The factory object. Its renderer and providers are set once, by the
      first initialisation. */
  class AlertFactory {
    var renderer: Engine
    var providers: map<string, Sender>

    constructor (renderer: Engine, show: Value -> string)
      ensures this.renderer == renderer && providers == StandardProviders(show)
    {
      this.renderer := renderer;
      providers := StandardProviders(show);
    }

    /** `process`: the trace is that of `Handle` on the request as it was
        before the call; once the `try` block is reached the caller's `data`
        dict has lost `_mail_meta`. */
    method Process(settings: Settings, fields: map<string, Value>, data: Data, net: Net, fallbackNet: Net,
                   show: Value -> string, dumps: Value -> string) returns (run: Run)
      requires "data" !in fields && (data.OtherData? ==> !data.value.VDict?)
      modifies if data.DictData? then {data.dict} else {}
      ensures run == Handle(providers, renderer, settings, old(Snapshot(fields, data)), net, fallbackNet, show, dumps)
      ensures data.DictData? ==>
        data.dict.entries == if run.final.Rejected? || run.final.Crashed? then old(data.dict.entries)
                             else old(data.dict.entries) - {"_mail_meta"}
    {
      ghost var message := Snapshot(fields, data);
      assert Get(fields, "provider") == Get(message, "provider");
      assert Get(fields, "destination") == Get(message, "destination");
      var resolved := Resolve(providers, settings, fields);
      assert resolved == Resolve(providers, settings, message);
      if resolved.Raised? {
        return Run([], Crashed(resolved.exc));
      }
      if resolved.value.None? {
        return Run([], Rejected);
      }
      var (provider, destination) := resolved.value.value;
      var before := PopMailMeta(data);
      assert before == GetOr(message, "data", VDict(map[]));
      assert Get(fields, "template") == Get(message, "template");
      assert Get(fields, "template_content") == Get(message, "template_content");
      run := Proceed(provider, providers[provider], renderer, settings, Get(fields, "template"),
                     Get(fields, "template_content"), before, destination, net, fallbackNet, show, dumps);
    }
  }

  /** The pop at the head of the `try` block: returns the request's data as
      it was and removes `_mail_meta` from a dict in place. */
  method PopMailMeta(data: Data) returns (before: Value)
    modifies if data.DictData? then {data.dict} else {}
    ensures data.NoData? ==> before == VDict(map[])
    ensures data.OtherData? ==> before == data.value
    ensures data.DictData? ==>
      before == VDict(old(data.dict.entries)) && data.dict.entries == old(data.dict.entries) - {"_mail_meta"}
  {
    match data {
      case NoData => before := VDict(map[]);
      case OtherData(v) => before := v;
      case DictData(d) =>
        before := VDict(d.entries);
        if "_mail_meta" in d.entries {
          var _ := d.Pop("_mail_meta", VNone);
        }
    }
  }

  /** The class attribute `_instance`: `AlertFactory()` builds and
      initialises the object on the first call and returns that same object,
      untouched, on every later call. */
  class FactoryClass {
    var instance: AlertFactory?

    constructor ()
      ensures instance == null
    {
      instance := null;
    }

    method Call(renderer: Engine, show: Value -> string) returns (f: AlertFactory)
      modifies this
      ensures old(instance) != null ==> f == old(instance) && unchanged(f)
      ensures old(instance) == null ==> fresh(f) && f.renderer == renderer && f.providers == StandardProviders(show)
      ensures instance == f
    {
      if instance == null {
        instance := new AlertFactory(renderer, show);
      }
      f := instance;
    }
  }
}
