/** The application entry point: with brokers configured it creates the
    Kafka manager, merges the callbacks of the `all` directory into every
    other topic, registers each topic's callbacks, starts the manager, waits
    on the consumption task and always stops the manager on the way out. */
module App {
  import opened Values
  import opened Config
  import opened Kafka
  import opened Loader

  /** What reading `kafka_manager.consumer_task` raises: the manager keeps
      its task in `_consumer_task` and has no attribute of the public name. */
  const ConsumerTaskMissing := "'KafkaManager' object has no attribute 'consumer_task'"

  /** The callbacks of the `all` directory, or none. */
  function AllOf(lists: map<string, seq<Callback>>): seq<Callback>
  {
    if "all" in lists then lists["all"] else []
  }

  /** The handler functions of a callback list, in order. */
  function Funcs(cs: seq<Callback>): (r: seq<Handler>)
    ensures |r| == |cs| && forall i :: 0 <= i < |cs| ==> r[i] == cs[i].func
  {
    seq(|cs|, i requires 0 <= i < |cs| => cs[i].func)
  }

  /** One `register_callback(topic, callback.func)` call per callback. */
  function Pairs(topic: string, cs: seq<Callback>): seq<(string, Handler)>
  {
    seq(|cs|, i requires 0 <= i < |cs| => (topic, cs[i].func))
  }

  /** The `register_callback` calls of the subscription loop: topic by topic
      in key order, each topic's callbacks followed by the `all` ones. */
  function Subscriptions(order: seq<string>, lists: map<string, seq<Callback>>, all: seq<Callback>): seq<(string, Handler)>
    requires forall t :: t in order ==> t in lists
  {
    if order == [] then []
    else
      var t := order[|order| - 1];
      Subscriptions(order[..|order| - 1], lists, all) + Pairs(t, lists[t] + all)
  }

  /** The manager's registry after `main` has merged and registered the
      discovered callbacks on a fresh manager. */
  function Plan(order: seq<string>, lists: map<string, seq<Callback>>): Registry
    requires IsEnumeration(order, lists)
  {
    RegisterAll(Registry([], map[]), Subscriptions(Without(order, "all"), lists - {"all"}, AllOf(lists)))
  }

  lemma {:induction false} HandlersForConcat(a: seq<(string, Handler)>, b: seq<(string, Handler)>, t: string)
    ensures HandlersFor(a + b, t) == HandlersFor(a, t) + HandlersFor(b, t)
    decreases |b|
  {
    if b != [] {
      var init := b[..|b| - 1];
      assert (a + b)[..|a + b| - 1] == a + init;
      HandlersForConcat(a, init, t);
    } else {
      assert a + b == a;
    }
  }

  lemma {:induction false} HandlersForPairs(topic: string, cs: seq<Callback>, t: string)
    ensures HandlersFor(Pairs(topic, cs), t) == if t == topic then Funcs(cs) else []
  {
    if cs != [] {
      var init := cs[..|cs| - 1];
      assert Pairs(topic, cs)[..|cs| - 1] == Pairs(topic, init);
      HandlersForPairs(topic, init, t);
      if t == topic {
        assert Funcs(cs) == Funcs(init) + [cs[|cs| - 1].func];
      }
    }
  }

  /** Each topic of the loop receives exactly its own list followed by the
      `all` list; a topic outside the loop receives nothing. */
  lemma {:induction false} SubscriptionsPerTopic(order: seq<string>, lists: map<string, seq<Callback>>, all: seq<Callback>, t: string)
    requires Distinct(order) && forall u :: u in order ==> u in lists
    ensures HandlersFor(Subscriptions(order, lists, all), t) == if t in order then Funcs(lists[t] + all) else []
  {
    if order != [] {
      var init := order[..|order| - 1];
      var last := order[|order| - 1];
      assert Distinct(init) by {
        forall i, j | 0 <= i < j < |init| ensures init[i] != init[j] {
          assert init[i] == order[i] && init[j] == order[j];
        }
      }
      assert last !in init by {
        forall i | 0 <= i < |init| ensures init[i] != last {
          assert init[i] == order[i];
        }
      }
      assert order == init + [last];
      SubscriptionsPerTopic(init, lists, all, t);
      assert Subscriptions(order, lists, all) == Subscriptions(init, lists, all) + Pairs(last, lists[last] + all);
      HandlersForConcat(Subscriptions(init, lists, all), Pairs(last, lists[last] + all), t);
      HandlersForPairs(last, lists[last] + all, t);
      assert t in order <==> t in init || t == last;
    }
  }

  /** After `main`'s subscription loop every discovered topic other than
      `all` has its own callbacks in z-index order followed by the `all`
      callbacks, duplicates kept; `all` itself and unknown topics have no
      handlers; the manager's topic list stays an enumeration. */
  lemma {:induction false} EveryTopicGetsAllCallbacks(order: seq<string>, lists: map<string, seq<Callback>>, t: string)
    requires IsEnumeration(order, lists)
    ensures IsEnumeration(Plan(order, lists).topics, Plan(order, lists).callbacks)
    ensures HandlersOf(Plan(order, lists).callbacks, t)
            == if t in lists && t != "all" then Funcs(lists[t] + AllOf(lists)) else []
  {
    var rest := Without(order, "all");
    WithoutKeepsEnumeration(order, lists, "all");
    RegisterAllAppends(Registry([], map[]), Subscriptions(rest, lists - {"all"}, AllOf(lists)), t);
    SubscriptionsPerTopic(rest, lists - {"all"}, AllOf(lists), t);
  }

  /** What `main` returns or raises, as written: with brokers configured and
      a successful start, the read of `consumer_task` raises. */
  function MainResult(settings: Settings, broker: Broker, topics: seq<string>): (r: Outcome<()>)
    ensures r.Done? <==> !Truthy(settings.kafkaBrokers)
    ensures Truthy(settings.kafkaBrokers) && StartResult(broker, topics).Done? ==> r == Raised(AttributeError(ConsumerTaskMissing))
  {
    if !Truthy(settings.kafkaBrokers) then Done(())
    else
      var started := StartResult(broker, topics);
      if started.Raised? then started else Raised(AttributeError(ConsumerTaskMissing))
  }

  /** What `main` returns or raises once it reads `_consumer_task`: a start
      failure propagates, otherwise the wait ends in a handled shutdown. */
  function MainResultFixed(settings: Settings, broker: Broker, topics: seq<string>): (r: Outcome<()>)
    ensures r.Raised? <==> Truthy(settings.kafkaBrokers) && StartResult(broker, topics).Raised?
    ensures r.Raised? ==> r == MainResult(settings, broker, topics)
  {
    if !Truthy(settings.kafkaBrokers) then Done(()) else StartResult(broker, topics)
  }

  /** As written, a configured run whose start succeeds never reaches the
      consumption task: one topic present on the cluster, nothing failing,
      and `main` still ends in AttributeError, where the intended reading
      consumes the topic's records and shuts down cleanly. */
  lemma ConsumerTaskTypo()
    ensures var settings := Settings(VStr("localhost:9092"), VStr("alert"), VNone, VNone, VNone, VNone);
            var broker := Broker(None, None, Done({"alerts"}));
            && MainResult(settings, broker, ["alerts"]) == Raised(AttributeError(ConsumerTaskMissing))
            && MainResultFixed(settings, broker, ["alerts"]) == Done(())
            && Consumes(broker, ["alerts"])
  {
    var broker := Broker(None, None, Done({"alerts"}));
    assert Surviving(["alerts"], {"alerts"}) == ["alerts"];
  }

  /** The manager after `main` left it: producer stopped, no task pending,
      no consumer left running. */
  ghost predicate ShutDown(m: KafkaManager)
    reads m
  {
    m.producer == Some(Stopped) && !m.task.Pending? && m.consumer != Some(Running)
  }

  /** The registration calls of one topic's inner loop. */
  method RegisterEach(m: KafkaManager, topic: string, cs: seq<Callback>, ghost base: Registry, ghost done: seq<(string, Handler)>)
    requires m.Valid() && Registry(m.topics, m.callbacks) == RegisterAll(base, done)
    modifies m
    ensures m.Valid() && Registry(m.topics, m.callbacks) == RegisterAll(base, done + Pairs(topic, cs))
    ensures m.producer == old(m.producer) && m.consumer == old(m.consumer) && m.task == old(m.task) && m.actions == old(m.actions)
  {
    var k := 0;
    assert done + Pairs(topic, cs[..k]) == done;
    while k < |cs|
      invariant 0 <= k <= |cs| && m.Valid()
      invariant Registry(m.topics, m.callbacks) == RegisterAll(base, done + Pairs(topic, cs[..k]))
      invariant m.producer == old(m.producer) && m.consumer == old(m.consumer) && m.task == old(m.task) && m.actions == old(m.actions)
    {
      RegisterEachStep(base, done, topic, cs, k);
      ghost var before := Registry(m.topics, m.callbacks);
      m.RegisterCallback(topic, cs[k].func);
      assert Registry(m.topics, m.callbacks) == Register(before, topic, cs[k].func);
      k := k + 1;
    }
    assert cs[..k] == cs;
  }

  /** One more callback of the inner loop is one more `Register`. */
  lemma RegisterEachStep(base: Registry, done: seq<(string, Handler)>, topic: string, cs: seq<Callback>, k: nat)
    requires k < |cs|
    ensures RegisterAll(base, done + Pairs(topic, cs[..k + 1])) == Register(RegisterAll(base, done + Pairs(topic, cs[..k])), topic, cs[k].func)
  {
    var calls := done + Pairs(topic, cs[..k + 1]);
    assert calls[..|calls| - 1] == done + Pairs(topic, cs[..k]);
    assert calls[|calls| - 1] == (topic, cs[k].func);
  }

  /** `callbacks.pop("all", [])`, then the subscription loop. */
  method Subscribe(table: CallbackTable, m: KafkaManager)
    requires table.Valid() && m.Valid() && m.topics == [] && m.callbacks == map[]
    modifies table, m
    ensures table.Valid() && m.Valid()
    ensures table.order == Without(old(table.order), "all")
    ensures table.lists == Merged(old(table.lists) - {"all"}, AllOf(old(table.lists)), Without(old(table.order), "all"))
    ensures Registry(m.topics, m.callbacks) == Plan(old(table.order), old(table.lists))
    ensures m.producer == old(m.producer) && m.consumer == old(m.consumer) && m.task == old(m.task) && m.actions == old(m.actions)
  {
    var all := table.Pop("all");
    ExtendAndRegister(table, m, all);
  }

  /** The loop over the topics: the in-place `extend` with the `all`
      callbacks, then one registration per callback of the topic. */
  method ExtendAndRegister(table: CallbackTable, m: KafkaManager, all: seq<Callback>)
    requires table.Valid() && m.Valid() && m.topics == [] && m.callbacks == map[]
    modifies table, m
    ensures table.Valid() && m.Valid()
    ensures table.order == old(table.order) && table.lists == Merged(old(table.lists), all, old(table.order))
    ensures Registry(m.topics, m.callbacks) == RegisterAll(Registry([], map[]), Subscriptions(old(table.order), old(table.lists), all))
    ensures m.producer == old(m.producer) && m.consumer == old(m.consumer) && m.task == old(m.task) && m.actions == old(m.actions)
  {
    ghost var lists := table.lists;
    ghost var order := table.order;
    var i := 0;
    while i < |table.order|
      invariant 0 <= i <= |order| && table.order == order && table.Valid() && m.Valid()
      invariant table.lists == Merged(lists, all, order[..i])
      invariant Registry(m.topics, m.callbacks) == RegisterAll(Registry([], map[]), Subscriptions(order[..i], lists, all))
      invariant m.producer == old(m.producer) && m.consumer == old(m.consumer) && m.task == old(m.task) && m.actions == old(m.actions)
    {
      var topic := table.order[i];
      MergedStep(lists, all, order, i);
      table.Extend(topic, all);
      RegisterEach(m, topic, table.lists[topic], Registry([], map[]), Subscriptions(order[..i], lists, all));
      i := i + 1;
    }
    assert order[..i] == order;
  }

  /** The dict after `extend` has run for the topics in `done`. */
  function Merged(lists: map<string, seq<Callback>>, all: seq<Callback>, done: seq<string>): (m: map<string, seq<Callback>>)
    ensures m.Keys == lists.Keys
    ensures forall t :: t in lists && t !in done ==> m[t] == lists[t]
    ensures forall t :: t in lists && t in done ==> m[t] == lists[t] + all
  {
    map t | t in lists :: if t in done then lists[t] + all else lists[t]
  }

  lemma MergedStep(lists: map<string, seq<Callback>>, all: seq<Callback>, order: seq<string>, i: nat)
    requires IsEnumeration(order, lists) && i < |order|
    ensures Merged(lists, all, order[..i + 1]) == Merged(lists, all, order[..i])[order[i] := lists[order[i]] + all]
    ensures order[i] in Merged(lists, all, order[..i]) && Merged(lists, all, order[..i])[order[i]] == lists[order[i]]
    ensures Subscriptions(order[..i + 1], lists, all) == Subscriptions(order[..i], lists, all) + Pairs(order[i], lists[order[i]] + all)
  {
    assert order[..i + 1][..i] == order[..i];
    assert order[i] !in order[..i] by {
      forall j | 0 <= j < i ensures order[..i][j] != order[i] {
        assert order[..i][j] == order[j];
      }
    }
    assert order[..i + 1] == order[..i] + [order[i]];
  }

  /** `main` as written: after a successful start the read of the misspelt
      `consumer_task` raises AttributeError, the `finally` clause stops the
      manager, and no record is ever consumed. */
  method RunMain(settings: Settings, slot: ManagerSlot, table: CallbackTable, broker: Broker) returns (r: Outcome<()>)
    requires slot.instance == null && table.Valid()
    modifies slot, table
    ensures r == MainResult(settings, broker, Plan(old(table.order), old(table.lists)).topics)
    ensures !Truthy(settings.kafkaBrokers) ==>
      slot.instance == null && table.order == old(table.order) && table.lists == old(table.lists)
    ensures Truthy(settings.kafkaBrokers) ==> slot.instance != null && fresh(slot.instance) && ShutDown(slot.instance)
    ensures Truthy(settings.kafkaBrokers) ==>
      && table.order == Without(old(table.order), "all")
      && table.lists == Merged(old(table.lists) - {"all"}, AllOf(old(table.lists)), Without(old(table.order), "all"))
    ensures Truthy(settings.kafkaBrokers) ==> (slot.instance != null &&
      var plan := Plan(old(table.order), old(table.lists));
      && slot.instance.topics == (if Filters(broker, plan.topics) then Surviving(plan.topics, broker.clusterTopics.value) else plan.topics)
      && slot.instance.callbacks == (if Filters(broker, plan.topics) then Restrict(plan.callbacks, broker.clusterTopics.value) else plan.callbacks))
  {
    if !Truthy(settings.kafkaBrokers) {
      return Done(());
    }
    var m := slot.Init();
    Subscribe(table, m);
    r := m.Start(broker);
    if r.Done? {
      r := Raised(AttributeError(ConsumerTaskMissing));
    }
    m.Stop();
  }

  /** `main` reading `_consumer_task`: with a task, the records that arrive
      before shutdown are delivered to the subscribed handlers; without one
      it waits for the shutdown signal; either way the manager is stopped. */
  method RunMainFixed(settings: Settings, slot: ManagerSlot, table: CallbackTable, broker: Broker,
                      records: seq<Record>, raises: Invocation -> bool)
    returns (r: Outcome<()>, calls: seq<Invocation>, errors: seq<Invocation>)
    requires slot.instance == null && table.Valid()
    modifies slot, table
    ensures var plan := Plan(old(table.order), old(table.lists));
      && r == MainResultFixed(settings, broker, plan.topics)
      && calls == (if Truthy(settings.kafkaBrokers) && Consumes(broker, plan.topics)
                   then Deliveries(Restrict(plan.callbacks, broker.clusterTopics.value), records)
                   else [])
    ensures errors == Failed(calls, raises)
    ensures Truthy(settings.kafkaBrokers) ==> slot.instance != null && fresh(slot.instance) && ShutDown(slot.instance)
    ensures Truthy(settings.kafkaBrokers) ==>
      && table.order == Without(old(table.order), "all")
      && table.lists == Merged(old(table.lists) - {"all"}, AllOf(old(table.lists)), Without(old(table.order), "all"))
    ensures Truthy(settings.kafkaBrokers) ==> (slot.instance != null &&
      var plan := Plan(old(table.order), old(table.lists));
      && slot.instance.topics == (if Filters(broker, plan.topics) then Surviving(plan.topics, broker.clusterTopics.value) else plan.topics)
      && slot.instance.callbacks == (if Filters(broker, plan.topics) then Restrict(plan.callbacks, broker.clusterTopics.value) else plan.callbacks))
  {
    calls, errors := [], [];
    if !Truthy(settings.kafkaBrokers) {
      return Done(()), [], [];
    }
    var m := slot.Init();
    Subscribe(table, m);
    r := m.Start(broker);
    if r.Done? && m.task.Pending? {
      calls, errors := m.AwaitTask(records, raises);
    }
    m.Stop();
  }
}
