/** The notification providers. DiscordProvider and SlackProvider each POST a
    JSON payload to a webhook once and classify the response status; the
    provider interface the dispatcher relies on is a record of capabilities,
    some of which the repository's provider classes do not define. */
module Providers {
  import opened Values

  /** What one aiohttp POST did: a response with a status code, or an
      exception raised by the client (connection refused, bad URL, timeout). */
  datatype Net = Response(status: int) | ClientFailure(reason: string)

  /** One POST of a JSON body to a webhook URL. */
  datatype Post = Post(url: Value, body: Value)

  /** What a webhook provider's `send` did: the POSTs it issued and the
      boolean it returned. */
  datatype Delivery = Delivery(posts: seq<Post>, ok: bool)

  /** The 2xx (Successful) class of status codes, section 15.3 of RFC 9110. */
  predicate Successful(status: int)
  {
    200 <= status < 300
  }

  /** `DiscordProvider.send`: a non-dict payload is refused without a POST;
      a dict is POSTed once and the result is true exactly for a 2xx response.
      Client exceptions are caught, so the result is always a boolean. */
  function DiscordSend(destination: Value, payload: Value, net: Net): (d: Delivery)
    ensures d.ok <==> payload.VDict? && net.Response? && Successful(net.status)
    ensures !payload.VDict? ==> d.posts == []
    ensures payload.VDict? ==> d.posts == [Post(destination, payload)]
  {
    if !payload.VDict? then Delivery([], false)
    else
      match net
      case Response(status) => Delivery([Post(destination, payload)], 200 <= status < 300)
      case ClientFailure(_) => Delivery([Post(destination, payload)], false)
  }

  /** The body SlackProvider posts: a dict as it is, anything else wrapped as
      `{"text": str(payload)}`. */
  function SlackBody(payload: Value, show: Value -> string): (b: Value)
    ensures b.VDict?
    ensures payload.VDict? ==> b == payload
    ensures !payload.VDict? ==> b.entries == map["text" := VStr(Str(payload, show))]
  {
    if payload.VDict? then payload else VDict(map["text" := VStr(Str(payload, show))])
  }

  /** `SlackProvider.send`: always exactly one POST, of the wrapped body; the
      result is true exactly for a 2xx response. */
  function SlackSend(destination: Value, payload: Value, net: Net, show: Value -> string): (d: Delivery)
    ensures d.posts == [Post(destination, SlackBody(payload, show))]
    ensures d.ok <==> net.Response? && Successful(net.status)
  {
    var body := SlackBody(payload, show);
    match net
    case Response(status) => Delivery([Post(destination, body)], 200 <= status < 300)
    case ClientFailure(_) => Delivery([Post(destination, body)], false)
  }

  /** On a dict payload the two webhook providers behave identically. */
  lemma WebhooksAgreeOnDicts(destination: Value, payload: Value, net: Net, show: Value -> string)
    requires payload.VDict?
    ensures SlackSend(destination, payload, net, show) == DiscordSend(destination, payload, net)
  {
  }

  /** A provider's `send`: given the destination, the payload and what the
      network did, it returns a boolean or raises. */
  type Sender = (Value, Value, Net) -> Outcome<bool>

  /** The capabilities NotificationDispatcher asks of a provider. Each one that
      is an attribute lookup is an Outcome, because a provider class that does
      not define it raises AttributeError when it is read. */
  datatype Provider = Provider(
    defaultDestination: Outcome<Value>,
    applyTemplateRules: Outcome<Value -> Outcome<string>>,
    formatPayload: Outcome<(Value, Value) -> Outcome<Value>>,
    getFallbackPayload: Outcome<(Exc, map<string, Value>) -> Outcome<Value>>,
    send: Sender)

  /** `send` reports every failure by its return value. */
  ghost predicate NeverRaises(send: Sender)
  {
    forall destination, payload, net :: send(destination, payload, net).Done?
  }

  function DiscordSender(): Sender
  {
    (destination, payload, net) => Done(DiscordSend(destination, payload, net).ok)
  }

  function SlackSender(show: Value -> string): Sender
  {
    (destination, payload, net) => Done(SlackSend(destination, payload, net, show).ok)
  }

  /** EmailProvider's `send` is a simulation: it logs and returns true. */
  function EmailSender(): Sender
  {
    (destination, payload, net) => Done(true)
  }

  /** No provider's `send` ever raises: an HTTP failure or a client exception
      comes back as `false`. */
  lemma SendersNeverRaise(show: Value -> string)
    ensures NeverRaises(DiscordSender())
    ensures NeverRaises(SlackSender(show))
    ensures NeverRaises(EmailSender())
  {
  }

  function Missing(cls: string, attr: string): Exc
  {
    AttributeError("'" + cls + "' object has no attribute '" + attr + "'")
  }

  /** DiscordProvider as the repository defines it: it implements only `send`,
      so reading any other capability raises AttributeError. */
  function DiscordProvider(): (p: Provider)
    ensures p.send == DiscordSender()
    ensures p.defaultDestination.Raised? && p.applyTemplateRules.Raised?
    ensures p.formatPayload.Raised? && p.getFallbackPayload.Raised?
  {
    Provider(
      Raised(Missing("DiscordProvider", "default_destination")),
      Raised(Missing("DiscordProvider", "apply_template_rules")),
      Raised(Missing("DiscordProvider", "format_payload")),
      Raised(Missing("DiscordProvider", "get_fallback_payload")),
      DiscordSender())
  }

  /** SlackProvider as the repository defines it: only `send`. */
  function SlackProvider(show: Value -> string): (p: Provider)
    ensures p.send == SlackSender(show)
    ensures p.defaultDestination.Raised? && p.applyTemplateRules.Raised?
    ensures p.formatPayload.Raised? && p.getFallbackPayload.Raised?
  {
    Provider(
      Raised(Missing("SlackProvider", "default_destination")),
      Raised(Missing("SlackProvider", "apply_template_rules")),
      Raised(Missing("SlackProvider", "format_payload")),
      Raised(Missing("SlackProvider", "get_fallback_payload")),
      SlackSender(show))
  }
}
