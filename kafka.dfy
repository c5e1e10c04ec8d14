/** KafkaManager: a registry of message handlers per topic, a producer and a
    consumer whose lifecycle is `start` and `stop`, and the consumption loop
    that hands every decoded record to each handler of its topic. The broker
    is an environment: what starting a client does and which topics the
    cluster has are given as arguments. */
module Kafka {
  import opened Values

  /** A consumed record: its topic and its decoded value. `VNone` is what the
      value deserialiser yields for a malformed message (and for JSON null). */
  datatype Record = Record(topic: string, value: Value)

  /** One call of a handler with a record. */
  datatype Invocation = Invocation(handler: Handler, record: Record)

  datatype ClientState = Created | Running | Stopped

  datatype TaskState = NoTask | Pending | Cancelled | Finished

  /** The broker-side effects of the manager, in order. */
  datatype Action =
    | ProducerStarted
    | TempConsumerStarted
    | TempConsumerStopped
    | Subscribed(topics: seq<string>)
    | TaskCreated
    | TaskCancelled
    | ConsumerStopped
    | ProducerStopped

  /** What the broker does during `start`: whether starting the producer and
      the consumer raises, and what listing the cluster's topics returns. */
  datatype Broker = Broker(producerStart: Option<Exc>, consumerStart: Option<Exc>, clusterTopics: Outcome<set<string>>)

  const NotInitialized: string := "Kafka Producer is not initialized or has been stopped."
  const ManagerMissing: string := "KafkaManager is not initialized. Call init_kafka_manager() first."

  /** `_safe_json_deserializer`: UTF-8 decoding then `json.loads`; either
      failure yields None instead of raising. */
  function SafeJsonDeserialize(bytes: seq<bv8>, decode: seq<bv8> -> Result<string>,
                               loads: string -> Result<Value>): (v: Value)
    ensures decode(bytes).Err? ==> v == VNone
    ensures decode(bytes).Ok? && loads(decode(bytes).value).Err? ==> v == VNone
    ensures decode(bytes).Ok? && loads(decode(bytes).value).Ok? ==> v == loads(decode(bytes).value).value
  {
    match decode(bytes)
    case Err(_) => VNone
    case Ok(text) =>
      match loads(text)
      case Err(_) => VNone
      case Ok(value) => value
  }

  /** `self._callbacks[topic]` of the defaultdict, without inserting. */
  function HandlersOf(callbacks: map<string, seq<Handler>>, topic: string): seq<Handler>
  {
    if topic in callbacks then callbacks[topic] else []
  }

  /** The invocations one record causes: each handler of its topic, in
      registration order; none for a record whose value is None. */
  function Fan(callbacks: map<string, seq<Handler>>, r: Record): (calls: seq<Invocation>)
    ensures r.value == VNone || r.topic !in callbacks ==> calls == []
    ensures r.value != VNone && r.topic in callbacks ==> |calls| == |callbacks[r.topic]|
    ensures r.value != VNone && r.topic in callbacks ==>
      forall i :: 0 <= i < |calls| ==> calls[i] == Invocation(callbacks[r.topic][i], r)
  {
    if r.value == VNone || r.topic !in callbacks then []
    else seq(|callbacks[r.topic]|, i requires 0 <= i < |callbacks[r.topic]| => Invocation(callbacks[r.topic][i], r))
  }

  /** The invocations a sequence of records causes, record by record. */
  function Deliveries(callbacks: map<string, seq<Handler>>, records: seq<Record>): (calls: seq<Invocation>)
  {
    if records == [] then []
    else Deliveries(callbacks, records[..|records| - 1]) + Fan(callbacks, records[|records| - 1])
  }

  /** Only records with a value are handled, and only by the handlers
      registered for their topic. */
  lemma {:induction false} DeliveriesOnlyToSubscribers(callbacks: map<string, seq<Handler>>, records: seq<Record>)
    ensures forall c :: c in Deliveries(callbacks, records) ==>
      c.record in records && c.record.value != VNone && c.record.topic in callbacks && c.handler in callbacks[c.record.topic]
  {
    if records != [] {
      var init := records[..|records| - 1];
      var last := records[|records| - 1];
      DeliveriesOnlyToSubscribers(callbacks, init);
      forall c | c in Deliveries(callbacks, records)
        ensures c.record in records && c.record.value != VNone && c.record.topic in callbacks
          && c.handler in callbacks[c.record.topic]
      {
        if c in Deliveries(callbacks, init) {
          assert c.record in init;
        } else {
          var fan := Fan(callbacks, last);
          assert c in fan;
          var i :| 0 <= i < |fan| && fan[i] == c;
        }
      }
    }
  }

  /** The invocations whose handler raised; each was logged and swallowed. */
  function Failed(calls: seq<Invocation>, raises: Invocation -> bool): (f: seq<Invocation>)
    ensures forall c :: c in f <==> c in calls && raises(c)
  {
    if calls == [] then []
    else
      assert calls == calls[..|calls| - 1] + [calls[|calls| - 1]];
      Failed(calls[..|calls| - 1], raises) + (if raises(calls[|calls| - 1]) then [calls[|calls| - 1]] else [])
  }

  /** A failing handler takes nothing away from the others: the invocations
      of a run do not depend on which handlers raise. */
  lemma {:induction false} DeliveriesConcat(callbacks: map<string, seq<Handler>>, a: seq<Record>, b: seq<Record>)
    ensures Deliveries(callbacks, a + b) == Deliveries(callbacks, a) + Deliveries(callbacks, b)
    decreases |b|
  {
    if b == [] {
      assert a + b == a;
    } else {
      var b' := b[..|b| - 1];
      assert (a + b)[..|a + b| - 1] == a + b';
      assert (a + b)[|a + b| - 1] == b[|b| - 1];
      DeliveriesConcat(callbacks, a, b');
    }
  }

  /** Every record with a value reaches every handler of its topic exactly
      in registration order, right after the invocations of the records before
      it; records whose value is None are skipped. */
  lemma RecordHandledInPlace(callbacks: map<string, seq<Handler>>, records: seq<Record>, k: nat)
    requires k < |records|
    ensures Deliveries(callbacks, records) ==
      Deliveries(callbacks, records[..k]) + Fan(callbacks, records[k]) + Deliveries(callbacks, records[k + 1..])
  {
    var one := [records[k]];
    assert records == records[..k] + (one + records[k + 1..]);
    DeliveriesConcat(callbacks, records[..k], one + records[k + 1..]);
    DeliveriesConcat(callbacks, one, records[k + 1..]);
    assert one[..0] == [];
    assert Deliveries(callbacks, one) == Fan(callbacks, records[k]);
  }

  lemma DeliveriesStep(callbacks: map<string, seq<Handler>>, records: seq<Record>, n: nat)
    requires n < |records|
    ensures Deliveries(callbacks, records[..n + 1]) == Deliveries(callbacks, records[..n]) + Fan(callbacks, records[n])
  {
    assert records[..n + 1][..n] == records[..n];
  }

  lemma {:induction false} FailedConcat(a: seq<Invocation>, b: seq<Invocation>, raises: Invocation -> bool)
    ensures Failed(a + b, raises) == Failed(a, raises) + Failed(b, raises)
    decreases |b|
  {
    if b == [] {
      assert a + b == a;
    } else {
      var b' := b[..|b| - 1];
      assert (a + b)[..|a + b| - 1] == a + b';
      assert (a + b)[|a + b| - 1] == b[|b| - 1];
      FailedConcat(a, b', raises);
    }
  }

  lemma FailedStep(calls: seq<Invocation>, c: Invocation, raises: Invocation -> bool)
    ensures Failed(calls + [c], raises) == Failed(calls, raises) + (if raises(c) then [c] else [])
  {
    assert (calls + [c])[..|calls|] == calls;
  }

  // -------------------------------------------------- calling a handler

  /** How a handler declares its parameters: `callback(msg)`, the
      `MessageHandler` type the manager expects, or `callback(key, value)`,
      the way the alert and database callbacks are written. */
  datatype Params = RecordParam | KeyValueParams

  /** What a handler's body receives. The record's key is not modelled: no
      callback reads it. */
  datatype Args = RecordArg(record: Record) | KeyValueArgs(value: Value)

  const MissingValue: string := "callback() missing 1 required positional argument: 'value'"

  /** `await callback(msg)` in `_execute_callback`: a handler declared with
      `(key, value)` raises TypeError before its body runs. */
  function BindAsWritten(params: Params, r: Record): (a: Outcome<Args>)
    ensures a.Done? <==> params.RecordParam?
    ensures a.Done? ==> a.value == RecordArg(r)
    ensures a.Raised? ==> a.exc == TypeError(MissingValue)
  {
    match params
    case RecordParam => Done(RecordArg(r))
    case KeyValueParams => Raised(TypeError(MissingValue))
  }

  /** The call each signature evidently expects: the record for `(msg)`,
      its key and value for `(key, value)`. */
  function BindFixed(params: Params, r: Record): (a: Outcome<Args>)
    ensures a.Done?
    ensures params.RecordParam? ==> a.value == RecordArg(r)
    ensures params.KeyValueParams? ==> a.value == KeyValueArgs(r.value)
  {
    match params
    case RecordParam => Done(RecordArg(r))
    case KeyValueParams => Done(KeyValueArgs(r.value))
  }

  lemma {:induction false} FailedAll(calls: seq<Invocation>, raises: Invocation -> bool)
    requires forall c :: c in calls ==> raises(c)
    ensures Failed(calls, raises) == calls
  {
    if calls != [] {
      var init, last := calls[..|calls| - 1], calls[|calls| - 1];
      assert calls == init + [last];
      assert forall c :: c in init ==> c in calls;
      FailedAll(init, raises);
      FailedStep(init, last, raises);
    }
  }

  lemma {:induction false} FailedNone(calls: seq<Invocation>, raises: Invocation -> bool)
    requires forall c :: c in calls ==> !raises(c)
    ensures Failed(calls, raises) == []
  {
    if calls != [] {
      var init, last := calls[..|calls| - 1], calls[|calls| - 1];
      assert calls == init + [last];
      assert forall c :: c in init ==> c in calls;
      FailedNone(init, raises);
      FailedStep(init, last, raises);
    }
  }

  /** As written, a handler declared `(key, value)` never gets to its body:
      when every registered handler is declared that way, every invocation
      of a run raises TypeError and is logged as a failure. */
  lemma KeyValueHandlersAlwaysFail(callbacks: map<string, seq<Handler>>, records: seq<Record>, params: Handler -> Params)
    requires forall t, h :: t in callbacks && h in callbacks[t] ==> params(h) == KeyValueParams
    ensures var calls := Deliveries(callbacks, records);
      Failed(calls, (c: Invocation) => BindAsWritten(params(c.handler), c.record).Raised?) == calls
  {
    DeliveriesOnlyToSubscribers(callbacks, records);
    FailedAll(Deliveries(callbacks, records), (c: Invocation) => BindAsWritten(params(c.handler), c.record).Raised?);
  }

  /** With handlers of both kinds on a topic, as when `main` appends the
      `all` callbacks, exactly the invocations of `(key, value)` handlers
      fail; the others reach their bodies. */
  lemma KeyValueInvocationsFail(callbacks: map<string, seq<Handler>>, records: seq<Record>, params: Handler -> Params)
    ensures var calls := Deliveries(callbacks, records);
      forall c :: c in Failed(calls, (c: Invocation) => BindAsWritten(params(c.handler), c.record).Raised?) <==>
        c in calls && params(c.handler) == KeyValueParams
  {
  }

  /** With the corrected call no invocation fails on its arguments, and a
      handler declared `(key, value)` receives the record's value. */
  lemma HandlersBoundFixed(callbacks: map<string, seq<Handler>>, records: seq<Record>, params: Handler -> Params)
    ensures var calls := Deliveries(callbacks, records);
      && Failed(calls, (c: Invocation) => BindFixed(params(c.handler), c.record).Raised?) == []
      && forall c :: c in calls && params(c.handler) == KeyValueParams ==>
           BindFixed(params(c.handler), c.record) == Done(KeyValueArgs(c.record.value))
  {
    FailedNone(Deliveries(callbacks, records), (c: Invocation) => BindFixed(params(c.handler), c.record).Raised?);
  }

  /** `[t for t in topics if t in cluster]` */
  function Surviving(topics: seq<string>, cluster: set<string>): (r: seq<string>)
    ensures forall t :: t in r <==> t in topics && t in cluster
    ensures |r| <= |topics|
  {
    if topics == [] then []
    else (if topics[0] in cluster then [topics[0]] else []) + Surviving(topics[1..], cluster)
  }

  lemma {:induction false} SurvivingDistinct(topics: seq<string>, cluster: set<string>)
    requires Distinct(topics)
    ensures Distinct(Surviving(topics, cluster))
  {
    if topics != [] {
      var tail := topics[1..];
      assert Distinct(tail) by {
        forall i, j | 0 <= i < j < |tail| ensures tail[i] != tail[j] {
          assert tail[i] == topics[i + 1] && tail[j] == topics[j + 1];
        }
      }
      SurvivingDistinct(tail, cluster);
      var rest := Surviving(tail, cluster);
      var r := Surviving(topics, cluster);
      if topics[0] in cluster {
        assert r == [topics[0]] + rest;
        forall i, j | 0 <= i < j < |r| ensures r[i] != r[j] {
          if i == 0 {
            assert r[j] in tail;
            var k :| 0 <= k < |tail| && tail[k] == r[j];
            assert topics[k + 1] == r[j];
          } else {
            assert r[i] == rest[i - 1] && r[j] == rest[j - 1];
          }
        }
      } else {
        assert r == rest;
      }
    }
  }

  /** The handlers kept for the topics the cluster has. */
  function Restrict(callbacks: map<string, seq<Handler>>, cluster: set<string>): (m: map<string, seq<Handler>>)
    ensures forall t :: t in m <==> t in callbacks && t in cluster
    ensures forall t :: t in m ==> m[t] == callbacks[t]
  {
    map t | t in callbacks && t in cluster :: callbacks[t]
  }

  /** Filtering keeps the topic list an enumeration of the registry. */
  lemma FilterKeepsEnumeration(topics: seq<string>, callbacks: map<string, seq<Handler>>, cluster: set<string>)
    requires IsEnumeration(topics, callbacks)
    ensures IsEnumeration(Surviving(topics, cluster), Restrict(callbacks, cluster))
  {
    SurvivingDistinct(topics, cluster);
    var r := Surviving(topics, cluster);
    var m := Restrict(callbacks, cluster);
    forall i | 0 <= i < |r| ensures r[i] in m {
      assert r[i] in r;
    }
    forall k | k in m ensures k in r {
      assert k in callbacks && k in topics;
    }
  }

  /** The handler registry: the topics in first-registration order and each
      topic's handlers. */
  datatype Registry = Registry(topics: seq<string>, callbacks: map<string, seq<Handler>>)

  /** The effect of one `register_callback`. */
  function Register(reg: Registry, topic: string, handler: Handler): Registry
  {
    Registry(if topic in reg.callbacks then reg.topics else reg.topics + [topic],
             reg.callbacks[topic := HandlersOf(reg.callbacks, topic) + [handler]])
  }

  /** The effect of a sequence of `register_callback` calls. */
  function RegisterAll(reg: Registry, calls: seq<(string, Handler)>): Registry
  {
    if calls == [] then reg
    else Register(RegisterAll(reg, calls[..|calls| - 1]), calls[|calls| - 1].0, calls[|calls| - 1].1)
  }

  /** The handlers registered for `topic`, in call order. */
  function HandlersFor(calls: seq<(string, Handler)>, topic: string): seq<Handler>
  {
    if calls == [] then []
    else HandlersFor(calls[..|calls| - 1], topic) + (if calls[|calls| - 1].0 == topic then [calls[|calls| - 1].1] else [])
  }

  /** After a sequence of registrations each topic holds its earlier
      handlers followed by the new ones in call order, duplicates kept; the
      topic list stays an enumeration of the registry. */
  lemma {:induction false} RegisterAllAppends(reg: Registry, calls: seq<(string, Handler)>, topic: string)
    requires IsEnumeration(reg.topics, reg.callbacks)
    ensures IsEnumeration(RegisterAll(reg, calls).topics, RegisterAll(reg, calls).callbacks)
    ensures HandlersOf(RegisterAll(reg, calls).callbacks, topic) == HandlersOf(reg.callbacks, topic) + HandlersFor(calls, topic)
    ensures reg.topics <= RegisterAll(reg, calls).topics
  {
    if calls != [] {
      var init := calls[..|calls| - 1];
      RegisterAllAppends(reg, init, topic);
      var before := RegisterAll(reg, init);
      var (t, h) := calls[|calls| - 1];
      if t !in before.callbacks {
        assert Distinct(before.topics + [t]) by {
          assert t !in before.topics;
        }
      }
    }
  }

  /** What `start` returns or raises, given the topics registered before it. */
  function StartResult(broker: Broker, topics: seq<string>): Outcome<()>
  {
    if broker.producerStart.Some? then Raised(broker.producerStart.value)
    else if topics == [] then Done(())
    else if broker.consumerStart.Some? then Raised(broker.consumerStart.value)
    else if broker.clusterTopics.Raised? then Raised(broker.clusterTopics.exc)
    else Done(())
  }

  /** Whether `start` leaves a consumption task behind: it got as far as the
      topic check and at least one registered topic exists on the cluster. */
  predicate Consumes(broker: Broker, topics: seq<string>)
  {
    Filters(broker, topics) && Surviving(topics, broker.clusterTopics.value) != []
  }

  /** Whether `start` gets the cluster's topic list and filters by it. */
  predicate Filters(broker: Broker, topics: seq<string>)
  {
    broker.producerStart.None? && topics != [] && broker.consumerStart.None? && broker.clusterTopics.Done?
  }

  /** The client operations `start` performs, in order. */
  function StartActions(broker: Broker, topics: seq<string>): seq<Action>
  {
    if broker.producerStart.Some? then []
    else if topics == [] then [ProducerStarted]
    else [ProducerStarted] + ConsumerActions(broker, topics)
  }

  /** The client operations of the consumer half of `start`. */
  function ConsumerActions(broker: Broker, topics: seq<string>): seq<Action>
  {
    if broker.consumerStart.Some? then []
    else if broker.clusterTopics.Raised? then [TempConsumerStarted, TempConsumerStopped]
    else
      var valid := Surviving(topics, broker.clusterTopics.value);
      [TempConsumerStarted] + (if valid == [] then [] else [Subscribed(valid), TaskCreated])
  }

  /** `start` succeeds exactly when the producer starts and, with topics
      registered, the consumer starts and the cluster's topics are listed;
      otherwise the first failure in that order is raised. */
  lemma StartResultCases(broker: Broker, topics: seq<string>)
    ensures StartResult(broker, topics).Done? <==> broker.producerStart.None? && (topics == [] || Filters(broker, topics))
    ensures StartResult(broker, topics).Raised? ==>
      StartResult(broker, topics).exc ==
        (if broker.producerStart.Some? then broker.producerStart.value
         else if broker.consumerStart.Some? then broker.consumerStart.value
         else broker.clusterTopics.exc)
  {
  }

  /** Registering one handler appends it to its topic's list, leaves every
      other topic's list alone, and adds the topic at the end of the order
      when it is new. */
  lemma RegisterEffect(reg: Registry, topic: string, handler: Handler)
    ensures HandlersOf(Register(reg, topic, handler).callbacks, topic) == HandlersOf(reg.callbacks, topic) + [handler]
    ensures forall t :: t != topic ==> HandlersOf(Register(reg, topic, handler).callbacks, t) == HandlersOf(reg.callbacks, t)
    ensures Register(reg, topic, handler).topics == if topic in reg.callbacks then reg.topics else reg.topics + [topic]
  {
  }

  /** The producer starts first, unless it fails; a consumption task is
      created exactly when some registered topic survives the filter, after
      the subscription to the surviving topics; the temporary consumer is
      stopped exactly when listing the cluster's topics failed. */
  lemma StartActionsShape(broker: Broker, topics: seq<string>)
    ensures var r := StartActions(broker, topics);
      && (broker.producerStart.None? <==> r != [] && r[0] == ProducerStarted)
      && (TaskCreated in r <==> Consumes(broker, topics))
      && (Consumes(broker, topics) ==>
            r == [ProducerStarted, TempConsumerStarted, Subscribed(Surviving(topics, broker.clusterTopics.value)), TaskCreated])
      && (TempConsumerStopped in r <==>
            broker.producerStart.None? && topics != [] && broker.consumerStart.None? && broker.clusterTopics.Raised?)
  {
  }

  class KafkaManager {
    var topics: seq<string>                       // the keys of `_callbacks`, in insertion order
    var callbacks: map<string, seq<Handler>>      // `_callbacks`
    var producer: Option<ClientState>
    var consumer: Option<ClientState>
    var task: TaskState                           // `_consumer_task`
    var actions: seq<Action>

    ghost predicate Valid()
      reads this
    {
      IsEnumeration(topics, callbacks)
    }

    constructor ()
      ensures Valid()
      ensures topics == [] && callbacks == map[]
      ensures producer == None && consumer == None && task == NoTask && actions == []
    {
      topics := [];
      callbacks := map[];
      producer := None;
      consumer := None;
      task := NoTask;
      actions := [];
    }

    /** `subscribed_topics` */
    function SubscribedTopics(): seq<string>
      reads this
    {
      topics
    }

    /** `register_callback`: appends, so order and duplicates are kept; a new
        topic goes to the end of the topic list. */
    method RegisterCallback(topic: string, handler: Handler)
      requires Valid()
      modifies this
      ensures Valid()
      ensures callbacks == old(callbacks)[topic := HandlersOf(old(callbacks), topic) + [handler]]
      ensures topics == if topic in old(callbacks) then old(topics) else old(topics) + [topic]
      ensures producer == old(producer) && consumer == old(consumer) && task == old(task) && actions == old(actions)
    {
      if topic !in callbacks {
        topics := topics + [topic];
      }
      callbacks := callbacks[topic := HandlersOf(callbacks, topic) + [handler]];
    }

    /** `start`. The producer is created and started first; with registered
        topics a temporary consumer is started and the cluster's topics are
        listed; topics missing from the cluster lose their handlers; with
        survivors the consumer is kept, subscribed to them, and the
        consumption task is created. When no topic survives, the temporary
        consumer is left running and unreferenced. */
    method Start(broker: Broker) returns (r: Outcome<()>)
      requires Valid()
      modifies this
      ensures Valid()
      ensures r == StartResult(broker, old(topics))
      ensures task == if Consumes(broker, old(topics)) then Pending else old(task)
      ensures consumer == if Consumes(broker, old(topics)) then Some(Running) else old(consumer)
      ensures producer == Some(if broker.producerStart.Some? then Created else Running)
      ensures actions == old(actions) + StartActions(broker, old(topics))
      ensures topics == if Filters(broker, old(topics)) then Surviving(old(topics), broker.clusterTopics.value) else old(topics)
      ensures callbacks == if Filters(broker, old(topics)) then Restrict(old(callbacks), broker.clusterTopics.value) else old(callbacks)
    {
      if broker.producerStart.Some? {
        producer := Some(Created);
        return Raised(broker.producerStart.value);
      }
      producer := Some(Running);
      actions := actions + [ProducerStarted];
      if topics == [] {
        return Done(());
      }
      r := StartConsumer(broker);
    }

    /** The consumer half of `start`, reached with registered topics. */
    method StartConsumer(broker: Broker) returns (r: Outcome<()>)
      requires Valid() && topics != [] && broker.producerStart.None?
      modifies this
      ensures Valid()
      ensures r == StartResult(broker, old(topics))
      ensures task == if Consumes(broker, old(topics)) then Pending else old(task)
      ensures consumer == if Consumes(broker, old(topics)) then Some(Running) else old(consumer)
      ensures producer == old(producer)
      ensures actions == old(actions) + ConsumerActions(broker, old(topics))
      ensures topics == if Filters(broker, old(topics)) then Surviving(old(topics), broker.clusterTopics.value) else old(topics)
      ensures callbacks == if Filters(broker, old(topics)) then Restrict(old(callbacks), broker.clusterTopics.value) else old(callbacks)
    {
      if broker.consumerStart.Some? {
        return Raised(broker.consumerStart.value);
      }
      if broker.clusterTopics.Raised? {
        actions := actions + [TempConsumerStarted, TempConsumerStopped];
        return Raised(broker.clusterTopics.exc);
      }
      var valid := DropMissingTopics(broker.clusterTopics.value);
      if valid == [] {
        actions := actions + [TempConsumerStarted];
        return Done(());
      }
      consumer := Some(Running);
      actions := actions + [TempConsumerStarted, Subscribed(valid), TaskCreated];
      task := Pending;
      r := Done(());
    }

    /** The filtering step of `start`: topics the cluster lacks lose their
        handlers; the surviving topics keep their order. */
    method DropMissingTopics(cluster: set<string>) returns (valid: seq<string>)
      requires Valid()
      modifies this
      ensures Valid()
      ensures valid == Surviving(old(topics), cluster) && topics == valid
      ensures callbacks == Restrict(old(callbacks), cluster)
      ensures producer == old(producer) && consumer == old(consumer) && task == old(task) && actions == old(actions)
    {
      valid := Surviving(topics, cluster);
      FilterKeepsEnumeration(topics, callbacks, cluster);
      callbacks := Restrict(callbacks, cluster);
      topics := valid;
    }

    /** One record of `_run_consumer`: skipped when its value is None or
        its topic has no handlers, otherwise every handler of the topic is
        run through `_execute_callback`, which logs and swallows its error. */
    method HandleRecord(record: Record, raises: Invocation -> bool) returns (calls: seq<Invocation>, errors: seq<Invocation>)
      ensures calls == Fan(callbacks, record)
      ensures errors == Failed(calls, raises)
    {
      calls := [];
      errors := [];
      if record.value == VNone || record.topic !in callbacks {
        return;
      }
      var handlers := callbacks[record.topic];
      var i := 0;
      while i < |handlers|
        invariant 0 <= i <= |handlers|
        invariant calls == Fan(callbacks, record)[..i]
        invariant errors == Failed(calls, raises)
      {
        var call := Invocation(handlers[i], record);
        assert Fan(callbacks, record)[..i + 1] == Fan(callbacks, record)[..i] + [call];
        FailedStep(calls, call, raises);
        calls := calls + [call];
        if raises(call) {
          errors := errors + [call];
        }
        i := i + 1;
      }
      assert Fan(callbacks, record)[..i] == Fan(callbacks, record);
    }

    /** `_run_consumer` over the records the subscription yields: each handler
        of a record's topic is invoked once, in order, whether or not its
        siblings raise. `raises` says which invocations raise. */
    method RunConsumer(records: seq<Record>, raises: Invocation -> bool)
      returns (calls: seq<Invocation>, errors: seq<Invocation>)
      ensures consumer.None? ==> calls == [] && errors == []
      ensures consumer.Some? ==> calls == Deliveries(callbacks, records)
      ensures errors == Failed(calls, raises)
    {
      calls := [];
      errors := [];
      if consumer.None? {
        return;
      }
      var n := 0;
      while n < |records|
        invariant 0 <= n <= |records|
        invariant calls == Deliveries(callbacks, records[..n])
        invariant errors == Failed(calls, raises)
      {
        DeliveriesStep(callbacks, records, n);
        var more, failed := HandleRecord(records[n], raises);
        FailedConcat(calls, more, raises);
        calls := calls + more;
        errors := errors + failed;
        n := n + 1;
      }
      assert records[..n] == records;
    }

    /** Awaiting `_consumer_task` until it ends: the consumption loop runs
        over the records that arrive before shutdown, and the task is done. */
    method AwaitTask(records: seq<Record>, raises: Invocation -> bool) returns (calls: seq<Invocation>, errors: seq<Invocation>)
      requires task.Pending? && consumer.Some?
      modifies this
      ensures calls == Deliveries(callbacks, records) && errors == Failed(calls, raises)
      ensures task == Finished
      ensures topics == old(topics) && callbacks == old(callbacks)
      ensures producer == old(producer) && consumer == old(consumer) && actions == old(actions)
    {
      calls, errors := RunConsumer(records, raises);
      task := Finished;
    }

    /** `stop`: cancels a pending consumption task, then stops the consumer,
        then the producer. The fields keep their clients. */
    method Stop()
      modifies this
      ensures task == if old(task).Pending? then Cancelled else old(task)
      ensures consumer == if old(consumer).Some? then Some(Stopped) else None
      ensures producer == if old(producer).Some? then Some(Stopped) else None
      ensures actions == old(actions)
        + (if old(task).Pending? then [TaskCancelled] else [])
        + (if old(consumer).Some? then [ConsumerStopped] else [])
        + (if old(producer).Some? then [ProducerStopped] else [])
      ensures topics == old(topics) && callbacks == old(callbacks)
    {
      var cancelled: seq<Action> := [];
      if task.Pending? {
        task := Cancelled;
        cancelled := [TaskCancelled];
      }
      var stoppedConsumer: seq<Action> := [];
      if consumer.Some? {
        consumer := Some(Stopped);
        stoppedConsumer := [ConsumerStopped];
      }
      var stoppedProducer: seq<Action> := [];
      if producer.Some? {
        producer := Some(Stopped);
        stoppedProducer := [ProducerStopped];
      }
      actions := actions + cancelled + stoppedConsumer + stoppedProducer;
    }

    /** `send_message` and `send_message_async`: RuntimeError when no producer
        was ever created; otherwise whatever the producer's send does
        (`produce`), its errors re-raised. */
    method SendMessage(topic: string, message: Value, produce: Outcome<Value>) returns (r: Outcome<Value>)
      ensures producer.None? ==> r == Raised(RuntimeError(NotInitialized))
      ensures producer.Some? ==> r == produce
    {
      if producer.None? {
        return Raised(RuntimeError(NotInitialized));
      }
      r := produce;
    }
  }

  /** The module global `_kafka_manager_instance`. */
  class ManagerSlot {
    var instance: KafkaManager?

    constructor ()
      ensures instance == null
    {
      instance := null;
    }

    /** `init_kafka_manager`: the existing manager on every call after the first. */
    method Init() returns (m: KafkaManager)
      modifies this
      ensures old(instance) != null ==> m == old(instance)
      ensures old(instance) == null ==>
        (fresh(m) && m.Valid() && m.topics == [] && m.callbacks == map[]
         && m.producer == None && m.consumer == None && m.task == NoTask && m.actions == [])
      ensures instance == m
    {
      if instance == null {
        instance := new KafkaManager();
      }
      m := instance;
    }

    /** `get_kafka_manager` */
    method Get() returns (r: Outcome<KafkaManager>)
      ensures instance == null ==> r == Raised(RuntimeError(ManagerMissing))
      ensures instance != null ==> r == Done(instance)
    {
      if instance == null {
        return Raised(RuntimeError(ManagerMissing));
      }
      r := Done(instance);
    }
  }
}
