# kafka-alert, modelled in Dafny

kafka-alert is a Kafka-driven alerting service. A `KafkaManager` subscribes to the topics for which callbacks are
registered. It drops topics the cluster does not have, then hands every decoded message to each callback of its topic,
isolating each callback's errors. The callbacks are discovered in the `callback` package: one directory per topic, with
disabled modules dropped and the rest sorted stably by z-index. `main` adds the callbacks of the `all` directory to every
other topic.

The callbacks are written to:
- build Discord embeds for detection results (the detection-result, SVM and LSM modules);
- write server, container and heartbeat rows for heartbeats;
- or hand a notification to the `NotificationDispatcher` or the older `AlertFactory`. Both pick a provider, resolve the
  destination, render a Jinja template through the `TemplateRenderer`, send once, and on any error send exactly one
  fallback message.

The manager calls every handler as `callback(msg)`. The detection-result, SVM, heartbeat and LSM database callbacks
are declared `callback(key, value)`, as the older `EventManager` calls them, so through `main` they raise `TypeError`
before their bodies run (see "## Findings"). Their bodies are modelled as they run when called with the record's value.

The model is split into modules that follow the repository:

| file | module | what it models |
|---|---|---|
| values.dfy | `Values` | Python values, exceptions, `Outcome` (a value or a raised exception), dict order |
| config.dfy | `Config` | the settings the core reads |
| renderer.dfy | `Renderer` | `core/renderer.py` |
| providers.dfy | `Providers` | `core/providers/discord.py`, `slack.py`, `email.py` |
| dispatcher.dfy | `Dispatcher` | `core/dispatcher.py` |
| factory.dfy | `Factory` | `core/factory.py` |
| kafka.dfy | `Kafka` | `utils/kafka_manager.py` |
| loader.dfy | `Loader` | `callback/__init__.py` |
| app.dfy | `App` | `main.py` |
| event_bus.dfy | `Queue` | `utils/queue_eventmanager.py` |
| heartbeat.dfy | `Heartbeat` | `callback/heartbeat/add_database.py` |
| alerts.dfy | `Alerts` | `callback/detection-result/alert.py`, `callback/SVM_detection/alert.py`, `callback/lsm/alert.py` |

Objects whose fields the source updates in place are classes, and their methods are proved against specification
functions. Examples are `KafkaManager`, the callback table, `EventBus`, `EventManager`, the database tables, the cached
Discord client and the dispatcher's in-place pop of `_mail_meta`. The decision logic is functions with the properties
proved as lemmas.

Foreign code is passed in as function-valued arguments or outcome parameters:
- Jinja evaluation, `json.loads`/`json.dumps`, `str()` of non-strings;
- HTTP responses, Kafka broker answers, database lookups;
- the environment, and which callbacks raise.

A Python exception is the `Raised` case of `Outcome`.

## Model

| member | source | states |
|---|---|---|
| Renderer.Evaluate | core/renderer.py:31-33 | rendering succeeds iff the template compiles and evaluates over a dict context; failures are template or type errors |
| Renderer.ParseJson | core/renderer.py:68-74 | succeeds iff `json.loads` does; otherwise `ValueError("Rendered template is not valid JSON: …")` |
| Renderer.RenderFromString | core/renderer.py:50-66 | parses the rendered text iff `is_json`, otherwise returns the text; every evaluation error is re-raised unchanged; a `ValueError` arises exactly when parsing was asked for and `json.loads` fails, with the JSON error text appended; otherwise the call succeeds |
| Renderer.Render | core/renderer.py:23-48 | a missing template raises `TemplateNotFound`; otherwise the file is rendered, and parsed iff the name ends in `.json.j2`; only a `.json.j2` name can produce the JSON `ValueError` |
| Renderer.RenderJsonRoundTrip | core/renderer.py:35-38 | a `.json.j2` template yields the JSON parse of its text, or the `ValueError` when the text does not parse; any other name yields the text itself |
| Renderer.RenderErrorsDistinguishable | core/renderer.py:40-48 | `TemplateNotFound` is raised exactly when the template is missing, and a `ValueError` only when the template exists but its output is not JSON |
| Renderer.RenderFromStringDefault | core/renderer.py:50-52 | with `is_json` left at its default, a result is always the JSON parse of the rendered text |
| Providers.DiscordSend | core/providers/discord.py:17-33 | posts only a dict payload, exactly once, to the destination; reports success iff the response status is 2xx |
| Providers.SlackBody | core/providers/slack.py:17-19 | a dict payload is posted unchanged; anything else becomes `{"text": str(payload)}` |
| Providers.SlackSend | core/providers/slack.py:17-33 | always posts once, with the Slack body; reports success iff the status is 2xx |
| Providers.WebhooksAgreeOnDicts | core/providers/slack.py:22-33 | on a dict payload the Slack and Discord senders post the same thing and report the same result |
| Providers.SendersNeverRaise | core/providers/discord.py:31-33 | none of the three senders raises: a failure is reported as `False` |
| Providers.DiscordProvider | core/providers/discord.py:8-9 | the provider has `send` and nothing else: each of the four members the dispatcher also calls raises `AttributeError` |
| Providers.SlackProvider | core/providers/slack.py:8-9 | likewise for Slack |
| Dispatcher.Sends | core/dispatcher.py:55 | the sends of a trace in trace order: a subsequence of the trace made only of its send calls and holding every one of them, empty when the trace makes none |
| Dispatcher.SendsAppend | core/dispatcher.py:55-66 | the sends of a concatenated trace are the concatenation of the sends |
| Dispatcher.LookupProvider | core/dispatcher.py:29-34 | a falsy or unknown provider name gives no provider; an unhashable truthy one raises; a known name gives its provider |
| Dispatcher.MessageContext | core/dispatcher.py:86-94 | for dict data the context holds exactly the keys not starting with `_`, plus `_meta` = the popped `_mail_meta` (default `{}`), and the data loses `_mail_meta`; other data becomes `{"data": data}` |
| Dispatcher.MessageAfter | core/dispatcher.py:88-90 | the request after `process`: a dict `data` has lost `_mail_meta`; any other request is unchanged |
| Dispatcher.Primary | core/dispatcher.py:43-56 | the main attempt renders with the context, then makes at most one send, to the destination; any step that fails before the send leaves an exception and no send |
| Dispatcher.Fallback | core/dispatcher.py:58-74 | at most one send, to the same destination, of exactly the payload `get_fallback_payload(error, context)` built; nothing is sent iff reading or calling the builder raised; the result is the send's answer or its exception, and nothing raises out |
| Dispatcher.DefaultDestinationFor | core/dispatcher.py:76-84 | discord, email and slack map to their configured defaults; any other name to None |
| Dispatcher.Destination | core/dispatcher.py:35 | the request's destination when truthy, else the provider's `default_destination`, whose read may raise |
| Dispatcher.Template | core/dispatcher.py:45 | `message["template"]`; a missing key is the `KeyError` raised inside the `try` |
| Dispatcher.Attempt | core/dispatcher.py:41-74 | at most two sends, all to the resolved destination; a delivered message was sent exactly once |
| Dispatcher.Dispatch | core/dispatcher.py:18-74 | at most two sends; a rejected message makes no call at all; a delivered one exactly one send |
| Dispatcher.UnknownProviderDoesNothing | core/dispatcher.py:29-32 | a missing or unregistered provider returns before any render or send |
| Dispatcher.DestinationResolution | core/dispatcher.py:35-39 | the destination is the message's when truthy, else the provider's default; when that is falsy nothing happens, otherwise every send goes there |
| Dispatcher.HappyPathSendsOnce | core/dispatcher.py:44-56 | when every step succeeds the trace is exactly: render the named template with the context, then one send of the formatted payload |
| Dispatcher.FailureBeforeSendFallsBackOnce | core/dispatcher.py:58-66 | an exception before the send causes exactly one send, of the fallback payload, to the same destination |
| Dispatcher.SendFailureFallsBackOnce | core/dispatcher.py:52-66 | when the primary send itself raises, the trace is the render, the failed send and one send of the fallback payload for that exception, all to the same destination |
| Dispatcher.AttemptAfterSendFailure | core/dispatcher.py:55-66 | inside the `try`, a primary trace ending in a raising send is followed by exactly one send of the fallback payload |
| Dispatcher.MissingTemplateFallsBack | core/dispatcher.py:45 | a message without `template` raises `KeyError` inside the try and goes to the fallback |
| Dispatcher.NonRaisingSendSendsAtMostOnce | core/dispatcher.py:55-56 | a `send` that reports failure by returning `False` never triggers the fallback, so there is at most one send |
| Dispatcher.RepositoryProvidersNeverSend | core/dispatcher.py:45-66 | with only the repository's Discord and Slack providers nothing is ever sent, because `apply_template_rules` and `get_fallback_payload` do not exist on them |
| Dispatcher.SecondContextLosesMetadata | core/dispatcher.py:90 | the pop mutates the caller's data: building the context again yields the same keys but an empty `_meta` |
| Dispatcher.KafkaMetaMissingFromContext | core/dispatcher.py:86-94 | for the test request carrying `_kafka_meta`, the context has the data item but no topic, partition or offset |
| Dispatcher.MessageContextWithKafka | tests/test_dispatcher.py:68-106 | corrected: the context also carries topic, partition and offset from `_kafka_meta`, keeps every other key and adds nothing else |
| Dispatcher.KafkaMetaInContextFixed | tests/test_dispatcher.py:101-104 | the corrected context of the test request has `foo`, topic, partition and offset with the expected values |
| Dispatcher.NotificationDispatcher.GetMessageContext | core/dispatcher.py:86-94 | returns the context of the data before the call and removes `_mail_meta` from a dict in place |
| Dispatcher.NotificationDispatcher.Process | core/dispatcher.py:18-74 | the run is `Dispatch` of the message as it was; the data dict loses `_mail_meta` unless the message was rejected first |
| Factory.StandardProviders | core/factory.py:28-32 | exactly the discord, slack and email providers, none of which raises |
| Factory.CompleteDestination | core/factory.py:65-75 | a truthy destination is kept; otherwise discord and email take their configured defaults and any other provider stays without one |
| Factory.Popped | core/factory.py:87-92 | a dict loses `_mail_meta`; other data is unchanged |
| Factory.PopMailMeta | core/factory.py:87-92 | returns the data as it was before the pop and removes only `_mail_meta` from a dict in place; missing data reads as `{}` |
| Factory.MailMeta | core/factory.py:87-92 | the popped `_mail_meta` of dict data, `{}` when absent or when the data is not a dict |
| Factory.RenderContext | core/factory.py:95-99 | a dict context keeps exactly the keys not starting with `_`, with their values; other data is passed as is |
| Factory.TemplateFile | core/factory.py:109-116 | names ending in `.j2` are kept; otherwise discord gets `.json.j2` and email `.html.j2`, and slack names are unchanged |
| Factory.TemplateFileIdempotent | core/factory.py:112-116 | completing a completed template name changes nothing |
| Factory.Envelope | core/factory.py:127-142 | the email payload is `{"headers", "body"}`: the body is the rendered text as `str`, and an existing subject is kept, else the configured default or "Alert Notification" |
| Factory.SliceFailure | core/factory.py:144 | `destination[:10]` succeeds exactly for strings and lists; a dict raises `KeyError` on the slice object, whose text is the unquoted `slice(None, 10, None)`; anything else raises `TypeError` |
| Factory.Payload | core/factory.py:127-145 | the provider's payload: the email envelope for `email`, the rendered value for any other provider |
| Factory.FirstFailure | core/factory.py:101-145 | the first exception of the block before the send: rendering, then the payload, then slicing the destination |
| Factory.Deliver | core/factory.py:144-145 | adds at most one event, a send to the destination; the send happens exactly when rendering, building the provider's payload (the email envelope or the rendered value) and slicing the destination all succeed, and it carries that payload; otherwise the first of those failures is raised |
| Factory.OutcomeExit | core/factory.py:144 | how the `try` block ends after `provider.send`: its answer, or the exception it raised |
| Factory.Attempt | core/factory.py:101-145 | abandoned iff neither template nor content is given; `template_content` wins and is parsed only for discord/slack, otherwise the completed file name is rendered; the one send happens exactly when no step before it fails, and carries the payload built from the rendered value; a block that threw before sending throws the first failure |
| Factory.Rendered | core/factory.py:101-119 | renders `template_content` when truthy (parsed only for discord and slack; a non-string raises `TypeError`), otherwise the completed template file of a string name; a name that is not a string raises `AttributeError` |
| Factory.FallbackPayload | core/factory.py:162-185 | discord gets `{"content"}`, slack `{"text"}`, email `{"subject": "[Error] Alert Rendering Failed", "body"}`, anything else None; every payload carries the error text and the dumped data |
| Factory.FallbackText | core/factory.py:167-172 | the discord and slack fallback text: the warning line, the error text in backticks and the dumped data in a JSON block |
| Factory.FallbackTextQuotes | core/factory.py:167-172 | the fallback text opens with the warning line and the error text, and contains the dumped data |
| Factory.Resolve | core/factory.py:46-75 | a resolved provider is a known name and gets a truthy, completed destination; an unhashable provider raises; conversely a known non-empty provider name with a truthy completed destination is always resolved to exactly that pair |
| Factory.Proceed | core/factory.py:77-160 | never rejects; no template means no call at all; the events are those of `Attempt`, delivered exactly when its send returned; after an exception exactly one fallback send of `FallbackPayload` is appended, unless the provider has no fallback layout |
| Factory.Conclude | core/factory.py:144-160 | delivered with the send's answer iff the send returned; after an exception, no fallback iff the provider has no fallback layout, otherwise the fallback send's answer or its exception is the final state |
| Factory.ConcludeSendOnce | core/factory.py:147-160 | with a sender that never raises, a block that sent or threw before sending ends in exactly one send, which is the last event |
| Factory.Handle | core/factory.py:35-160 | a crashed run is exactly one whose provider lookup raised, a rejected one exactly one with no resolved provider; neither, nor a template-less message, makes any call |
| Factory.Sends | core/factory.py:145 | the sends of a trace in trace order: a subsequence of the trace made only of its send calls and holding every one of them, empty when the trace makes none |
| Factory.UnknownProviderRejected | core/factory.py:52-58 | a missing or unknown provider returns without rendering |
| Factory.NonRaisingSendOnce | core/factory.py:145-160 | with a sender that never raises, a delivered or fallen-back message was sent exactly once, and that send is the last event |
| Factory.ValidRequestDelivered | core/factory.py:35-145 | a resolvable message whose rendering, payload, destination slice and send all succeed is delivered with the send's answer, after exactly one send of that payload to that destination |
| Factory.StandardProvidersSendOnce | core/factory.py:28-32 | with the repository's providers every delivery or fallback is exactly one send |
| Factory.AlertFactory.Process | core/factory.py:35-160 | the run is `Handle` of the message as it was; the data dict loses `_mail_meta` once processing gets past the provider check |
| Factory.FactoryClass.Call | core/factory.py:17-33 | the first call builds the instance with the standard providers; every later call returns the same instance, untouched |
| Kafka.SafeJsonDeserialize | utils/kafka_manager.py:21-30 | a decode or JSON error yields None; otherwise the parsed value |
| Kafka.HandlersOf | utils/kafka_manager.py:53 | a topic never registered reads as the empty list, as with the `defaultdict` |
| Kafka.Fan | utils/kafka_manager.py:84-92 | a None value or an unsubscribed topic invokes nothing; otherwise each handler of the topic once, in order, with the record |
| Kafka.Deliveries | utils/kafka_manager.py:84-92 | the invocations of a consumed stream, record by record (its properties are the lemmas below) |
| Kafka.DeliveriesOnlyToSubscribers | utils/kafka_manager.py:84-92 | every invocation is of a handler registered for the record's topic, on a record with a value |
| Kafka.Failed | utils/kafka_manager.py:101-106 | the logged failures are exactly the raising invocations; they do not stop the others |
| Kafka.DeliveriesConcat | utils/kafka_manager.py:84 | consuming a split stream is consuming each part in turn |
| Kafka.RecordHandledInPlace | utils/kafka_manager.py:84-92 | each record's invocations appear in the stream's order, between those of the records before and after it |
| Kafka.FailedConcat | utils/kafka_manager.py:101-106 | failures of concatenated invocations concatenate |
| Kafka.BindAsWritten | utils/kafka_manager.py:101-104 | `await callback(msg)`: a handler declared `(msg)` gets the record; one declared `(key, value)` raises `TypeError` before its body runs |
| Kafka.BindFixed | utils/kafka_manager.py:101-104 | the corrected call: the record for `(msg)`, the record's value (and key) for `(key, value)`; never raises |
| Kafka.FailedAll | utils/kafka_manager.py:101-106 | when every invocation raises, every invocation is logged as a failure |
| Kafka.FailedNone | utils/kafka_manager.py:101-106 | when no invocation raises, none is logged |
| Kafka.KeyValueHandlersAlwaysFail | utils/kafka_manager.py:101-106 | with only `(key, value)` handlers registered, every invocation of a run fails with `TypeError` |
| Kafka.KeyValueInvocationsFail | utils/kafka_manager.py:101-106 | on a topic with both kinds of handler, exactly the invocations of `(key, value)` handlers fail |
| Kafka.HandlersBoundFixed | utils/kafka_manager.py:101-106 | with the corrected call no invocation fails on its arguments, and `(key, value)` handlers receive the record's value |
| Kafka.Surviving | utils/kafka_manager.py:135-136 | a topic survives iff it is registered and in the cluster |
| Kafka.SurvivingDistinct | utils/kafka_manager.py:136 | filtering keeps topics distinct |
| Kafka.Restrict | utils/kafka_manager.py:137-141 | absent topics' callbacks are removed, the others kept unchanged |
| Kafka.FilterKeepsEnumeration | utils/kafka_manager.py:135-141 | after filtering, the subscribed topics are still exactly the callback keys in first-registration order |
| Kafka.Register | utils/kafka_manager.py:60-63 | one `register_callback` on the registry |
| Kafka.RegisterEffect | utils/kafka_manager.py:60-63 | registering appends the handler to its topic's list, leaves every other list alone, and adds a new topic at the end of the order |
| Kafka.RegisterAll | utils/kafka_manager.py:60-63 | a sequence of `register_callback` calls |
| Kafka.HandlersFor | utils/kafka_manager.py:60-63 | the handlers a sequence of calls registers for one topic, in call order |
| Kafka.RegisterAllAppends | utils/kafka_manager.py:60-63 | registering appends each handler to its topic, keeping order and duplicates, and only adds new topics at the end |
| Kafka.StartResult | utils/kafka_manager.py:108-159 | what `start` returns or raises |
| Kafka.StartResultCases | utils/kafka_manager.py:108-159 | `start` succeeds exactly when the producer starts and, with topics registered, the temporary consumer starts and the cluster's topics are listed; otherwise the first failure in that order is raised |
| Kafka.Filters | utils/kafka_manager.py:118-136 | `start` reaches the topic filter: the producer and the temporary consumer start, topics are registered and the cluster's topics are listed |
| Kafka.Consumes | utils/kafka_manager.py:143-151 | `start` leaves a consumption task: it filtered and some registered topic survived |
| Kafka.StartActions | utils/kafka_manager.py:112-154 | the client operations `start` performs, in order |
| Kafka.ConsumerActions | utils/kafka_manager.py:121-154 | the temporary consumer's operations: start, then either stop after a failed listing or, with survivors, subscribe to them and create the task |
| Kafka.StartActionsShape | utils/kafka_manager.py:112-154 | the producer starts first unless it fails; a task is created exactly when some registered topic survives, after subscribing to the survivors; the temporary consumer is stopped exactly when listing topics failed |
| Kafka.KafkaManager.constructor | utils/kafka_manager.py:50-53 | no producer, consumer, task or callbacks |
| Kafka.KafkaManager.RegisterCallback | utils/kafka_manager.py:60-63 | appends the handler to its topic's list; a new topic is added at the end of the topic order |
| Kafka.KafkaManager.Start | utils/kafka_manager.py:108-159 | starts the producer first; with topics, filters them against the cluster; the consumer and task exist iff some topic survives; every failure is re-raised |
| Kafka.KafkaManager.StartConsumer | utils/kafka_manager.py:121-154 | the consumer half of `start`: filter, subscribe, create the task, or stop the temporary consumer and re-raise |
| Kafka.KafkaManager.DropMissingTopics | utils/kafka_manager.py:135-141 | returns the surviving topics and removes the others' callbacks |
| Kafka.KafkaManager.HandleRecord | utils/kafka_manager.py:85-106 | invokes each handler of the record's topic once and collects the failures |
| Kafka.KafkaManager.RunConsumer | utils/kafka_manager.py:77-99 | without a consumer nothing runs; otherwise the invocations are `Deliveries` of the stream and the failures those that raised |
| Kafka.KafkaManager.AwaitTask | utils/kafka_manager.py:151 | awaiting the task runs the consumer over the stream and leaves it finished |
| Kafka.KafkaManager.Stop | utils/kafka_manager.py:161-176 | cancels a pending task, then stops the consumer, then the producer, each only if it exists |
| Kafka.KafkaManager.SendMessage | utils/kafka_manager.py:178-200 | raises `RuntimeError` without a producer; otherwise returns the producer's answer |
| Kafka.ManagerSlot.Init | utils/kafka_manager.py:204-223 | a repeat call returns the existing instance; the first creates a fresh empty manager |
| Kafka.ManagerSlot.Get | utils/kafka_manager.py:225-229 | raises `RuntimeError` before `init`, otherwise returns the instance |
| Loader.DirCallbacks | callback/__init__.py:31-47 | a directory contributes at most one callback per file |
| Loader.IsSource | callback/__init__.py:32 | a `.py` file other than `__init__.py` |
| Loader.Enabled | callback/__init__.py:37-43 | `ALERT_DISABLE` absent or falsy |
| Loader.ZIndex | callback/__init__.py:38 | `Z_INDEX`, defaulting to 0 |
| Loader.Contributes | callback/__init__.py:34-47 | the callback a file contributes: an importable, enabled `.py` module, named by its stem |
| Loader.DirCallbacksFromEnabledModules | callback/__init__.py:31-47 | a directory's callbacks are exactly those of its `.py` modules (not `__init__.py`) that import and are not disabled, each named by its stem, with `Z_INDEX` defaulting to 0 |
| Loader.DisabledModulesContributeNothing | callback/__init__.py:42-43 | a directory whose modules are all disabled contributes no callback |
| Loader.Insert | callback/__init__.py:50 | insertion adds one element and keeps the multiset |
| Loader.SortByZ | callback/__init__.py:50 | sorting keeps the length |
| Loader.InsertSorted | callback/__init__.py:50 | inserting into a sorted list keeps it sorted |
| Loader.InsertLowerBound | callback/__init__.py:50 | a lower bound of the element and the list bounds the insertion |
| Loader.ConsSorted | callback/__init__.py:50 | a head no greater than any element of a sorted list keeps it sorted |
| Loader.InsertKeepsTies | callback/__init__.py:50 | inserting places the new element after those with equal z-index |
| Loader.NoneBelow | callback/__init__.py:50 | a sorted list whose first z-index is larger has none equal to a smaller z |
| Loader.WithZAppend | callback/__init__.py:50 | selecting one z-index distributes over concatenation |
| Loader.SortByZSorted | callback/__init__.py:50 | each list ends non-decreasing by z-index |
| Loader.SortByZPermutes | callback/__init__.py:50 | the sort is a permutation |
| Loader.SortByZStable | callback/__init__.py:50 | callbacks with equal z-index keep their discovery order |
| Loader.Discover | callback/__init__.py:24-50 | every directory except `__pycache__` gets a key, even with no callbacks; each list is sorted; the key order is the directory order (the exact order and lists are `DiscoverKeyOrder` and `DiscoverLists`) |
| Loader.TopicNames | callback/__init__.py:24-26 | exactly the names of the listed directories other than `__pycache__`, in listing order |
| Loader.Firsts | callback/__init__.py:27 | keeps each name at its first occurrence, and exactly the names of its input |
| Loader.FirstsOfDistinct | callback/__init__.py:27 | distinct names are kept as they are |
| Loader.DiscoverKeyOrder | callback/__init__.py:24-27 | the table's keys come in the order their directories are first listed |
| Loader.DiscoverLists | callback/__init__.py:27-50 | a topic's list is the z-sorted callbacks of the last directory listed under its name |
| Loader.Without | main.py:24 | removing a key keeps exactly the other keys |
| Loader.WithoutKeepsEnumeration | main.py:24 | after the pop, the key order still enumerates the dict |
| Loader.WithoutDistinct | main.py:24 | removing a key keeps the order distinct |
| Loader.CallbackTable.Load | callback/__init__.py:24-50 | the table is exactly the one `Discover` describes, or the import error is raised |
| Loader.CallbackTable.Pop | main.py:24 | returns the key's list (default `[]`) and removes the key from the dict and its order |
| Loader.CallbackTable.Extend | main.py:28 | extends one topic's list in place, leaving the others |
| Loader.CallbackTable.LoadDir | callback/__init__.py:31-47 | the loop builds exactly `DirCallbacks` |
| Loader.DirPrefixRaises | callback/__init__.py:35 | an import error ends discovery of the directory |
| Loader.DiscoverRaisesFrom | callback/__init__.py:35 | an import error ends discovery of the whole package |
| App.Funcs | main.py:29-31 | registers the callbacks' functions, one per callback, in order |
| App.AllOf | main.py:24 | `callbacks.pop("all", [])`: the `all` list, empty when there is none |
| App.Pairs | main.py:29-31 | the `register_callback` calls of one topic's inner loop, in order |
| App.Subscriptions | main.py:27-31 | all registration calls of the outer loop: topic by topic in key order, each topic's callbacks then the `all` ones |
| App.HandlersForConcat | main.py:27-31 | registrations of concatenated plans concatenate per topic |
| App.HandlersForPairs | main.py:29-31 | one topic's loop registers its functions for that topic only |
| App.SubscriptionsPerTopic | main.py:27-31 | each listed topic registers its own callbacks followed by the `all` ones |
| App.EveryTopicGetsAllCallbacks | main.py:24-31 | every topic other than `all` ends with its own handlers followed by every `all` handler in list order; `all` itself is never registered |
| App.ConsumerTaskTypo | main.py:38 | a concrete run: a successful start is followed by `AttributeError` where the intended code keeps running |
| App.MainResult | main.py:33-51 | as written: without brokers `main` returns; with brokers it always raises, the start's failure or else the `AttributeError` of `consumer_task` |
| App.MainResultFixed | main.py:33-51 | corrected: it raises exactly when the start raises, and then the same exception as written |
| App.MergedStep | main.py:27-28 | extending one more topic adds the `all` callbacks to that topic only |
| App.RegisterEach | main.py:29-31 | the inner loop registers each callback of the topic in order |
| App.Subscribe | main.py:24-31 | pops `all`, extends every other list with it in place, and registers exactly `Plan` |
| App.ExtendAndRegister | main.py:27-31 | the outer loop leaves each list extended and the manager registered with `Subscriptions` |
| App.Plan | main.py:24-31 | the registry `main` builds on a fresh manager: every topic but `all`, in key order, with its callbacks followed by the `all` ones |
| App.Merged | main.py:27-28 | after extending the topics in `done`, exactly those lists end with the `all` callbacks; the keys are unchanged |
| App.RunMain | main.py:10-51 | with no brokers nothing is created or changed; otherwise `all` is popped, every other list is extended with it in place, the manager's registry is `Plan` restricted to the surviving topics when the start filtered them, the result is `MainResult` and the manager is stopped on every path |
| App.RunMainFixed | main.py:33-51 | the corrected `main`: the same table and registry as `RunMain`; the consumer delivers every record of the stream to the surviving topics' handlers, then the manager is stopped |
| App.ShutDown | main.py:48-50 | the manager after `stop`: producer stopped, no pending task, no running consumer |
| Queue.Removed | utils/queue_eventmanager.py:23 | removing index i keeps the elements before it, shifts those after it down by one, and keeps the multiset minus the removed one |
| Queue.SubscribeUnsubscribe | utils/queue_eventmanager.py:13-24 | unsubscribing the id just returned restores the list |
| Queue.EventBus.Subscribe | utils/queue_eventmanager.py:13-16 | appends the callback and returns its index, `len - 1` |
| Queue.EventBus.Unsubscribe | utils/queue_eventmanager.py:18-24 | an id outside `[0, len)` returns `False` and changes nothing; otherwise exactly that entry is removed and `True` returned |
| Queue.RetryFrom | utils/queue_eventmanager.py:33-62 | at most `max_retries` attempts; after failed attempt k it waits `(k+1)*5` unless it was the last; the last `NoBrokersAvailable` is re-raised; any other error propagates at once |
| Queue.RetrySchedule | utils/queue_eventmanager.py:34-62 | when no broker ever answers, exactly `max_retries` attempts are made with waits 5, 10, …, and `NoBrokersAvailable` is raised; with `max_retries <= 0` there is no attempt and no client |
| Queue.Retry | utils/queue_eventmanager.py:33-62 | the schedule from the first attempt: no attempt iff `max_retries <= 0`, at most `max_retries` attempts, waits 5, 10, …, and a returned client came from the last attempt |
| Queue.CreateConsumer | utils/queue_eventmanager.py:33-62 | the loop makes exactly the attempts and waits `Retry` describes |
| Queue.StopAsWritten | utils/queue_eventmanager.py:142-146 | as written: raises exactly for a known topic and never changes a consumer |
| Queue.StopIntended | utils/queue_eventmanager.py:142-146 | as intended: never raises, keeps the topics, and stops a known topic's consumer on the same bus |
| Queue.StopDiscrepancy | utils/queue_eventmanager.py:142-146 | for a known topic the written `stop` raises `TypeError` and leaves the consumer running, while the intended call stops only that consumer |
| Queue.EventManager.constructor | utils/queue_eventmanager.py:122-126 | no buses, no consumers |
| Queue.EventManager.Init | utils/queue_eventmanager.py:121-130 | a topic's bus is created once and kept later; its consumer is replaced each time, with the retry schedule's outcome |
| Queue.EventManager.Subscribe | utils/queue_eventmanager.py:152-154 | an unknown topic raises `KeyError`; otherwise only that topic's bus gets the subscriber |
| Queue.EventManager.Unsubscribe | utils/queue_eventmanager.py:156-158 | an unknown topic raises `KeyError`; otherwise only that topic's bus changes |
| Queue.EventManager.Start | utils/queue_eventmanager.py:132-136 | an unknown topic raises `KeyError`; otherwise only that consumer starts running |
| Queue.EventManager.Stop | utils/queue_eventmanager.py:142-146 | as written: `StopAsWritten` |
| Queue.EventManager.StopFixed | utils/queue_eventmanager.py:142-146 | as intended: `StopIntended`, with the other consumers and the buses unchanged |
| Queue.ManagerSlot.Construct | utils/queue_eventmanager.py:116-130 | every construction yields the same manager; its result is the retry schedule's exception or success; the topic's bus is created once and kept, no other bus changes, and the topic's consumer is replaced by one on that bus holding the new client |
| Heartbeat.FindServer | callback/heartbeat/add_database.py:32 | finds a server with the uuid, or proves there is none |
| Heartbeat.Rename | callback/heartbeat/add_database.py:35 | renames exactly the server with that id |
| Heartbeat.GetOrCreateServerAsWritten | callback/heartbeat/add_database.py:31-46 | as written: returns None exactly when the uuid was unknown, after appending the new row; a found server carries the uuid and the new name |
| Heartbeat.GetOrCreateServer | callback/heartbeat/add_database.py:31-46 | the corrected lookup returns a server with the heartbeat's uuid and name; an unknown uuid appends exactly one row with the next id and returns it; a known one renames that row only when its name differs |
| Heartbeat.ServerLookupDiscrepancy | callback/heartbeat/add_database.py:39-46 | both versions write the same rows, but for an unknown uuid the written one returns None |
| Heartbeat.Latest | callback/heartbeat/add_database.py:128-131 | the latest id row of a container, or proof that it has none |
| Heartbeat.ShouldUpdate | callback/heartbeat/add_database.py:143-147 | no latest row, or one whose pid, mnt or cgroup differs |
| Heartbeat.UpdateIds | callback/heartbeat/add_database.py:117-141 | appends at most one row, and only when no identical row exists; the appended row records the report's ids |
| Heartbeat.IdsAddedUnlessRecorded | callback/heartbeat/add_database.py:117-147 | a row is added iff no row with the same container, pid, mnt and cgroup exists; when none exists the change test always passes |
| Heartbeat.UpdateIdsIdempotent | callback/heartbeat/add_database.py:117-141 | after an update the exact row exists, and a second report checked against the updated table (rows the database already holds) changes nothing |
| Heartbeat.KeptOnly | callback/heartbeat/add_database.py:84-85 | skipping containers never adds one |
| Heartbeat.Existing | callback/heartbeat/add_database.py:76-79 | the name map holds exactly this server's containers |
| Heartbeat.Ingest1 | callback/heartbeat/add_database.py:84-94 | a skipped container changes nothing; the duplicate-name error is raised exactly for a kept new name already taken on the server; otherwise every table only grows, by one stats row with the report's stats |
| Heartbeat.Ingest | callback/heartbeat/add_database.py:83-94 | the loop over the reported containers, stopping at the first error; each report is checked against every id row added before it, flushed or not |
| Heartbeat.SkippedContainersIgnored | callback/heartbeat/add_database.py:84-85 | a container with a falsy mnt or pid namespace contributes no row, no stats and no active name |
| Heartbeat.IngestAppends | callback/heartbeat/add_database.py:83-94 | only appends rows; one stats row per kept container, each pointing at a container of this server |
| Heartbeat.MarkByName | callback/heartbeat/add_database.py:97-105 | as written: every row whose name is active is cleared, every other removed name marked, on any server |
| Heartbeat.MarkOnServer | callback/heartbeat/add_database.py:97-105 | corrected: only this server's rows change, each marked removed iff its name is not active |
| Heartbeat.HandleContainersAsWritten | callback/heartbeat/add_database.py:75-105 | as written: raises exactly when ingestion does; otherwise the ingested ids and stats, with only the containers' flags changed |
| Heartbeat.HandleContainers | callback/heartbeat/add_database.py:75-105 | corrected: likewise, with the flags of `MarkOnServer` |
| Heartbeat.RemovalScopedToServer | callback/heartbeat/add_database.py:75-105 | after reconciliation this server's containers are removed exactly when not reported active, and other servers' rows are untouched |
| Heartbeat.RemovalCrossesServers | callback/heartbeat/add_database.py:97-101 | a concrete run: a container vanishing on server 1 marks the same-named container of server 2 removed |
| Heartbeat.FirstHeartbeatLost | callback/heartbeat/add_database.py:16-46 | a concrete run: the first heartbeat of a new host raises `AttributeError` and keeps only the server row, where the intended code records everything |
| Heartbeat.HeartbeatCountsAllContainers | callback/heartbeat/add_database.py:22-27 | the heartbeat row counts every reported container, skipped ones included, while stats are written only for kept ones; afterwards the server exists |
| Heartbeat.AddHeartbeatAsWritten | callback/heartbeat/add_database.py:16-46 | as written: the server step always persists; an unknown uuid raises `AttributeError`; on error nothing else is kept; on success one heartbeat row counts the report's containers |
| Heartbeat.AddHeartbeat | callback/heartbeat/add_database.py:16-46 | corrected: raises exactly when the containers' handling does, keeping only the server step; on success one system-info row for the server and one heartbeat row are added |
| Heartbeat.Database.constructor | callback/heartbeat/add_database.py:16-17 | the tables hold the given rows |
| Heartbeat.Database.Rollback | callback/heartbeat/add_database.py:17 | restores the saved tables |
| Heartbeat.Database.UpdateContainerIds | callback/heartbeat/add_database.py:117-141 | the id table becomes `UpdateIds` of the old one; nothing else changes |
| Heartbeat.Database.IngestReports | callback/heartbeat/add_database.py:81-94 | the loop writes exactly what `Ingest` describes and returns the active names |
| Heartbeat.Database.ReconcileAsWritten | callback/heartbeat/add_database.py:75-105 | as written: `HandleContainersAsWritten` |
| Heartbeat.Database.Reconcile | callback/heartbeat/add_database.py:75-105 | corrected: `HandleContainers` |
| Heartbeat.Database.RecordAsWritten | callback/heartbeat/add_database.py:16-29 | as written: `AddHeartbeatAsWritten`, with the transaction rolled back on error |
| Heartbeat.Database.Record | callback/heartbeat/add_database.py:16-29 | corrected: `AddHeartbeat` |
| Heartbeat.IngestRaisesFrom | callback/heartbeat/add_database.py:91 | a duplicate-name error ends ingestion |
| Alerts.AllPresent | callback/detection-result/alert.py:60 | for a dict, whether every required key is present; a value that is not a container raises `TypeError` |
| Alerts.Validate | callback/detection-result/alert.py:60-61 | a dict passes iff every required key is present, else `ValueError("Missing required fields in data")` |
| Alerts.Subscript | callback/lsm/alert.py:30 | `v[key]` succeeds iff v is a dict holding the key; a dict without it raises `KeyError` |
| Alerts.InfoFields | callback/detection-result/alert.py:92-97 | one inline field per `detection_info` key, in the given order, valued `str(value)` |
| Alerts.DetectionHead | callback/detection-result/alert.py:63-91 | six fields, the second to fifth holding the message's container id, pid, timestamp and detection time, the first not inline and the next two inline |
| Alerts.DetectionFields | callback/detection-result/alert.py:63-97 | six fixed fields with their exact names, values and inline flags ("[host_name] name", then container id, pid, call time, detection time and a dashed heading), then one inline `str(value)` field per `detection_info` item in the dict's order |
| Alerts.AppendInfoFields | callback/detection-result/alert.py:92-97 | the loop appends exactly `InfoFields` to the fixed fields |
| Alerts.DetectionPost | callback/detection-result/alert.py:98-113 | the post goes to the client URL with the given fields in a red embed |
| Alerts.DetectionAlert | callback/detection-result/alert.py:57-118 | posts iff the message has every required key, a container was found, `detection_info` is a dict and the post succeeds; a missing key raises `ValueError`, a missing container `TypeError`; the embed is red with `DetectionFields` |
| Alerts.SendDetectionAlert | callback/detection-result/alert.py:92-97 | the loop appends exactly the fields `DetectionAlert` describes |
| Alerts.SvmAlert | callback/SVM_detection/alert.py:58-109 | posts iff every required key is present, a container was found and the post succeeds; exactly five fields in fixed order, the first "host_name-name", the rest the values as `str` |
| Alerts.ProcessInfo | callback/lsm/alert.py:65 | the whole process text: name (or "None"), image, then the mount, pid and cgroup ids, one per line |
| Alerts.ProcessInfoNamesContainer | callback/lsm/alert.py:65 | the process text opens with "NAME: ", the container name (or "None") and ", Image: " |
| Alerts.LsmEmbed | callback/lsm/alert.py:35-79 | red with the blocked wording when blocked, green with the allowed wording otherwise; the title, footer and all seven fields with their exact texts |
| Alerts.LsmReadable | callback/lsm/alert.py:24-79 | every nested subscript of `send_alert` succeeds on the message |
| Alerts.LsmAlert | callback/lsm/alert.py:24-84 | posts exactly when the message has every required key, every nested read succeeds, the timestamp parses and the post succeeds; the post is `LsmEmbed` of the message's values, red iff `return_value == -1` |
| Alerts.LsmCallback | callback/lsm/alert.py:7-15 | no webhook means `None` and no post; otherwise the post `LsmAlert` makes is returned, and its exception propagates unchanged |
| Alerts.LsmCallbackNeverLoaded | callback/lsm/alert.py:5 | `ALERT_DISABLE = True`, so discovery never registers the LSM callback |
| Alerts.CachedCallback | callback/detection-result/alert.py:11-49 | a message without `container_name` does nothing; a cached client is kept and otherwise created from the webhook; with a client the post goes to its URL with the container found for the message, and its failure reads as no result |
| Alerts.ClientCreatedOnce | callback/SVM_detection/alert.py:38-44 | over any sequence of messages the client, once created, is never replaced, and none is created while the webhook is unset |
| Alerts.AlertCell.Callback | callback/SVM_detection/alert.py:13-51 | the module global and the post are exactly `CachedCallback` |

## Left out

- asyncio: `gather`, `create_task`, `cancel`, `to_thread` and the endless `Consumer.start` loop. Consumption is a sequential pass over a finite record sequence; which callbacks raise is a parameter.
- Awaiting the consumer task in `KafkaManager.stop` is modelled as cancelling it; the interleaving of a running task with `stop` is not modelled.
- `KafkaManager.get_all_topics` is not modelled: the core never calls it.
- Logging and `print` are not modelled.
- The Kafka consumer and producer configuration objects, and the settings names that `core/config.py` does not define, are left out. The settings are an abstract record.
- `EventManager.start_all` and `stop_all` only loop over `start` and `stop`. They are not modelled; `stop_all` inherits the `stop` finding.
- `MessageQueue.get_consumer`, `close` and the record decoding inside `Consumer.start` are not modelled.
- Dates and floats: `datetime.now()`, the embed timestamps, `removed_at` (a flag here), `reg_time` (the latest id row is the last one appended) and the float metric columns.
- The DB session:
  - `add_heartbeat` runs in one transaction, modelled as a rollback on error.
  - The `db.commit()` calls inside `_get_or_create_server` (lines 36 and 44) run inside `with db.begin():` (line 17). They are modelled as persisting the server step while the block goes on. Under SQLAlchemy 2.x such a commit ends the block's transaction, and the next query (line 78) raises `InvalidRequestError`, so a heartbeat that renames or inserts a server would keep only that step. That outcome depends on the library version's session rules and is not modelled.
  - `next(get_db())` and `db.close()` are not modelled.
- `_add_system_info` and `_add_container_stats` read many nested keys. The rows keep the raw values, and their `KeyError`s and those of the heartbeat dict are not modelled.
- The heartbeat `callback` wrapper only re-raises. `callback/lsm/add_database.py` is one insert with float parsing. Neither is modelled.
- `core/providers/email.py` is a stub that always returns `True`; it is modelled as exactly that.
- `core/providers/base.py` declares only `send`. Its Python class hierarchy is replaced by a record of function values.
- The Discord embeds leave out the avatar URL, the footer icon URL and the `timestamp` entry. `Alerts.LsmAlert` takes the formatted event time from a parameter, because `strptime` and `isoformat` are not modelled.
- Heartbeat.Ingest: the sessions are created with `autoflush=False` (database/database.py:29), so the two queries of `_update_container_ids` (callback/heartbeat/add_database.py:119-131) do not see id rows added earlier in the same heartbeat, unless a `_create_container` flush (line 112) came in between. A heartbeat that lists an already known container twice with the same new pid, mnt and cgroup ids adds two identical rows in the source. The commit at the end of the block opened at line 17 then raises `IntegrityError` on the unique constraint of database/models.py:273 and the whole heartbeat is rolled back. The model checks every report against all rows added so far, adds one row and succeeds. Pending and flushed rows are not told apart.
- Heartbeat.UpdateIdsIdempotent: a second identical report adds nothing only when it is checked against rows the database already holds (flushed or committed). Within one heartbeat the source does not see the pending row; see the line above.
- Loader.ZIndex: `Z_INDEX` is an int or absent. A module whose `Z_INDEX` cannot be compared with the others' makes the sort at line 50 raise `TypeError`; that case is not modelled.
- The lookup query of the alert callbacks, `next(get_db())` and `db.close()` are a lookup parameter. The outer `except` around `get_db` is not modelled.
- The example callbacks in `callback/example` and `callback/all` only forward to the dispatcher and are not modelled.
- Python `str()` and f-string formatting of non-string values, `json.loads`/`json.dumps` and Jinja evaluation are parameters.

## Findings

| source | as written | input that shows it | evidently intended | confidence | as-written member | corrected member |
|---|---|---|---|---|---|---|
| main.py:38 | reads `kafka_manager.consumer_task`, but the manager only has `_consumer_task` | any configured broker whose start succeeds, e.g. topic `alerts` present in the cluster | await the consumer task (`_consumer_task`) | high, not executed | App.RunMain, App.ConsumerTaskTypo | App.RunMainFixed |
| utils/queue_eventmanager.py:144 | calls `Consumer.stop()` without the required `topic` argument (see line 105) | `stop(t)` for any topic `t` that has a consumer | stop that topic's consumer | high, not executed | Queue.EventManager.Stop, Queue.StopAsWritten, Queue.StopDiscrepancy | Queue.EventManager.StopFixed, Queue.StopIntended |
| callback/heartbeat/add_database.py:39-46 | `_get_or_create_server` inserts a server for an unknown uuid but returns `None`, so line 19 fails on `server.id` | the first heartbeat of a new host | return the new server | high, not executed | Heartbeat.AddHeartbeatAsWritten, Heartbeat.FirstHeartbeatLost | Heartbeat.AddHeartbeat, Heartbeat.GetOrCreateServer |
| callback/heartbeat/add_database.py:97-105 | the removal and reactivation updates filter by container name only, not by server | server 1 and server 2 both run `web`; server 1 reports no containers | update only this server's containers | medium, not executed | Heartbeat.HandleContainersAsWritten, Heartbeat.RemovalCrossesServers | Heartbeat.HandleContainers, Heartbeat.MarkOnServer |
| tests/test_dispatcher.py:68-106 | the test expects the fallback context to carry `topic`, `partition` and `offset` from `_kafka_meta`, but `_get_message_context` (core/dispatcher.py:86-94) never reads `_kafka_meta` | the test's request: data `{"foo": "bar"}` and `_kafka_meta` with topic `test-topic`, partition 0, offset 123 | the fallback context carries the Kafka position | medium, not executed | Dispatcher.MessageContext, Dispatcher.KafkaMetaMissingFromContext | Dispatcher.MessageContextWithKafka, Dispatcher.KafkaMetaInContextFixed |
| utils/kafka_manager.py:101-106 | `_execute_callback` awaits `callback(msg)`, but `main` registers the detection-result, SVM, heartbeat and LSM database callbacks, which are declared `callback(key, value)` (callback/detection-result/alert.py:11, callback/SVM_detection/alert.py:13, callback/heartbeat/add_database.py:7, callback/lsm/add_database.py:7); each call raises `TypeError`, which is logged and swallowed | any record with a value on topic `heartbeat`, e.g. `{"host_uuid": "h1"}` | call such handlers with the record's key and value, as `utils/queue_eventmanager.py:96` does | high, not executed | Kafka.BindAsWritten, Kafka.KeyValueHandlersAlwaysFail, Kafka.KeyValueInvocationsFail | Kafka.BindFixed, Kafka.HandlersBoundFixed |
