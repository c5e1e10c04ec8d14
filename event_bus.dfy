/** The older queue layer: an event bus per topic holding subscriber
    callbacks, a consumer whose broker connection is retried on a linear
    back-off, and a singleton manager keeping one bus and one consumer per
    topic. Connecting and sleeping are given as arguments: `connect(k)` is
    what the k-th connection attempt raises, if anything, and the sleeps are
    returned as the list of their durations in seconds. */
module Queue {
  import opened Values

  /** `s` without its element at index `i`, as `list.pop(i)` leaves it:
      earlier elements keep their index, later ones move down by one. */
  function Removed<T>(s: seq<T>, i: int): (r: seq<T>)
    requires 0 <= i < |s|
    ensures |r| == |s| - 1
    ensures forall j :: 0 <= j < i ==> r[j] == s[j]
    ensures forall j :: i <= j < |r| ==> r[j] == s[j + 1]
    ensures multiset(r) + multiset{s[i]} == multiset(s)
  {
    assert s == s[..i] + [s[i]] + s[i + 1..];
    s[..i] + s[i + 1..]
  }

  /** Unsubscribing the id `subscribe` just returned restores the list. */
  lemma SubscribeUnsubscribe<T>(s: seq<T>, callback: T)
    ensures Removed(s + [callback], |s|) == s
  {
    assert (s + [callback])[..|s|] == s;
  }

  /** `EventBus`: the subscriber list; a subscriber's id is its index. */
  class EventBus {
    var subscribers: seq<Handler>

    constructor ()
      ensures subscribers == []
    {
      subscribers := [];
    }

    /** `subscribe`: appends and returns the new subscriber's index. */
    method Subscribe(callback: Handler) returns (id: int)
      modifies this
      ensures subscribers == old(subscribers) + [callback]
      ensures id == |old(subscribers)| && subscribers[id] == callback
    {
      subscribers := subscribers + [callback];
      id := |subscribers| - 1;
    }

    /** `unsubscribe`: an id outside the list is refused and nothing
        changes; otherwise exactly that subscriber is removed. */
    method Unsubscribe(id: int) returns (ok: bool)
      modifies this
      ensures ok <==> 0 <= id < |old(subscribers)|
      ensures subscribers == if ok then Removed(old(subscribers), id) else old(subscribers)
    {
      if id < 0 || id >= |subscribers| {
        return false;
      }
      subscribers := Removed(subscribers, id);
      ok := true;
    }
  }

  /** How `_create_consumer` ended (the client is known by the attempt that
      made it; None when no attempt was made), the sleeps between attempts,
      and the number of attempts. */
  datatype Attempts = Attempts(result: Outcome<Option<nat>>, waits: seq<nat>, tries: nat)

  /** The retry loop from attempt `k` on: a refused connection is retried
      after `(k + 1) * 5` seconds until the last allowed attempt, whose
      NoBrokersAvailable propagates; any other error propagates at once. */
  function RetryFrom(k: nat, maxRetries: int, connect: nat -> Option<Exc>): (a: Attempts)
    ensures a.tries <= if maxRetries > k then maxRetries - k else 0
    ensures |a.waits| == if a.tries == 0 then 0 else a.tries - 1
    ensures forall i :: 0 <= i < |a.waits| ==> a.waits[i] == (k + i + 1) * 5
    ensures a.tries == 0 <==> maxRetries <= k
    ensures a.tries == 0 ==> a.result == Done(None)
    ensures forall j :: k <= j < k + a.tries - 1 ==> connect(j) == Some(NoBrokersAvailable)
    ensures a.result.Done? && a.result.value.Some? ==>
      a.tries > 0 && a.result.value.value == k + a.tries - 1 && connect(k + a.tries - 1).None?
    ensures a.result.Raised? ==>
      a.tries > 0 && connect(k + a.tries - 1) == Some(a.result.exc)
      && (a.result.exc.NoBrokersAvailable? ==> k + a.tries == maxRetries)
    decreases if maxRetries > k then maxRetries - k else 0
  {
    if maxRetries <= k then Attempts(Done(None), [], 0)
    else
      match connect(k)
      case None => Attempts(Done(Some(k)), [], 1)
      case Some(e) =>
        if !e.NoBrokersAvailable? || k >= maxRetries - 1 then Attempts(Raised(e), [], 1)
        else
          var rest := RetryFrom(k + 1, maxRetries, connect);
          Attempts(rest.result, [(k + 1) * 5] + rest.waits, 1 + rest.tries)
  }

  /** `_create_consumer`: the whole schedule. */
  function Retry(maxRetries: int, connect: nat -> Option<Exc>): (a: Attempts)
    ensures a.tries <= if maxRetries > 0 then maxRetries else 0
    ensures a.tries == 0 <==> maxRetries <= 0
    ensures forall i :: 0 <= i < |a.waits| ==> a.waits[i] == (i + 1) * 5
    ensures a.result.Done? && a.result.value.Some? ==> a.tries > 0 && connect(a.tries - 1).None?
  {
    RetryFrom(0, maxRetries, connect)
  }

  /** With no retries allowed no attempt is made and the client is None;
      when every connection is refused, exactly `maxRetries` attempts are
      made, with sleeps of 5, 10, ... seconds between them, and the last
      NoBrokersAvailable is re-raised. */
  lemma {:induction false} RetrySchedule(k: nat, maxRetries: int, connect: nat -> Option<Exc>)
    requires forall j :: connect(j) == Some(NoBrokersAvailable)
    ensures maxRetries <= k ==> RetryFrom(k, maxRetries, connect) == Attempts(Done(None), [], 0)
    ensures maxRetries > k ==>
      && RetryFrom(k, maxRetries, connect).result == Raised(NoBrokersAvailable)
      && RetryFrom(k, maxRetries, connect).tries == maxRetries - k
      && RetryFrom(k, maxRetries, connect).waits == seq(maxRetries - k - 1, i => (k + i + 1) * 5)
    decreases if maxRetries > k then maxRetries - k else 0
  {
    if maxRetries > k + 1 {
      RetrySchedule(k + 1, maxRetries, connect);
    }
  }

  /** The `for attempt in range(max_retries)` loop, with its sleeps. */
  method CreateConsumer(maxRetries: int, connect: nat -> Option<Exc>) returns (a: Attempts)
    ensures a == Retry(maxRetries, connect)
  {
    var waits: seq<nat> := [];
    var k: nat := 0;
    while k < maxRetries
      invariant var rest := RetryFrom(k, maxRetries, connect);
        RetryFrom(0, maxRetries, connect) == Attempts(rest.result, waits + rest.waits, k + rest.tries)
      decreases maxRetries - k
    {
      var error := connect(k);
      if error.None? {
        assert RetryFrom(k, maxRetries, connect) == Attempts(Done(Some(k)), [], 1);
        return Attempts(Done(Some(k)), waits, k + 1);
      }
      if !error.value.NoBrokersAvailable? || k >= maxRetries - 1 {
        assert RetryFrom(k, maxRetries, connect) == Attempts(Raised(error.value), [], 1);
        return Attempts(Raised(error.value), waits, k + 1);
      }
      ghost var rest := RetryFrom(k + 1, maxRetries, connect);
      assert waits + ([(k + 1) * 5] + rest.waits) == (waits + [(k + 1) * 5]) + rest.waits;
      waits := waits + [(k + 1) * 5];
      k := k + 1;
    }
    a := Attempts(Done(None), waits, k);
  }

  /** A `Consumer`: the bus it feeds, its client, and whether its
      consumption task has been started. */
  datatype ConsumerState = ConsumerState(bus: EventBus, client: Option<nat>, running: bool)

  /** What `Consumer.stop` raises when called without its `topic` argument. */
  const StopArity := "Consumer.stop() missing 1 required positional argument: 'topic'"

  /** `EventManager.stop` as written: the call to the consumer's `stop`
      omits its `topic` parameter, so a known topic raises TypeError and its
      consumer keeps running. */
  function StopAsWritten(consumers: map<string, ConsumerState>, topic: string): (r: (Outcome<()>, map<string, ConsumerState>))
    ensures r.1 == consumers
    ensures r.0.Raised? <==> topic in consumers
  {
    if topic in consumers then (Raised(TypeError(StopArity)), consumers) else (Done(()), consumers)
  }

  /** `EventManager.stop` as evidently intended: a known topic's consumer is
      stopped, nothing else changes. */
  function StopIntended(consumers: map<string, ConsumerState>, topic: string): (r: (Outcome<()>, map<string, ConsumerState>))
    ensures r.0 == Done(()) && r.1.Keys == consumers.Keys
    ensures topic in consumers ==> !r.1[topic].running && r.1[topic].bus == consumers[topic].bus
  {
    if topic in consumers then (Done(()), consumers[topic := consumers[topic].(running := false)]) else (Done(()), consumers)
  }

  /** On a started topic the written `stop` raises and leaves the consumer
      running, where the intended one returns with it stopped; on an unknown
      topic both do nothing. */
  lemma StopDiscrepancy(consumers: map<string, ConsumerState>, topic: string)
    ensures topic in consumers ==>
      && StopAsWritten(consumers, topic).0 == Raised(TypeError(StopArity))
      && StopAsWritten(consumers, topic).1[topic] == consumers[topic]
      && StopIntended(consumers, topic).0 == Done(())
      && !StopIntended(consumers, topic).1[topic].running
    ensures forall t :: t in consumers && t != topic ==> StopIntended(consumers, topic).1[t] == consumers[t]
    ensures topic !in consumers ==> StopAsWritten(consumers, topic) == StopIntended(consumers, topic) == (Done(()), consumers)
  {
  }

  /** `EventManager`: one bus per topic, created once, and the topic's
      current consumer. */
  class EventManager {
    var buses: map<string, EventBus>
    var consumers: map<string, ConsumerState>

    /** Every bus belongs to one topic, and every consumer feeds its topic's bus. */
    ghost predicate Valid()
      reads this
    {
      && (forall t, u :: t in buses && u in buses && t != u ==> buses[t] != buses[u])
      && (forall t :: t in consumers ==> t in buses && consumers[t].bus == buses[t])
    }

    constructor ()
      ensures Valid() && buses == map[] && consumers == map[]
    {
      buses := map[];
      consumers := map[];
    }

    /** `__init__` on the shared instance: the topic's bus is created only if
        missing; a new consumer, connected with retries, replaces the old one.
        A connection failure propagates after the bus exists. */
    method Init(topic: string, maxRetries: int, connect: nat -> Option<Exc>) returns (r: Outcome<()>, waits: seq<nat>)
      requires Valid()
      modifies this
      ensures Valid()
      ensures buses.Keys == old(buses).Keys + {topic}
      ensures forall t :: t in old(buses) ==> buses[t] == old(buses)[t]
      ensures topic !in old(buses) ==> fresh(buses[topic]) && buses[topic].subscribers == []
      ensures var a := Retry(maxRetries, connect);
        && waits == a.waits
        && r == (if a.result.Raised? then Raised(a.result.exc) else Done(()))
        && consumers == if a.result.Raised? then old(consumers)
                        else old(consumers)[topic := ConsumerState(buses[topic], a.result.value, false)]
    {
      if topic !in buses {
        var bus := new EventBus();
        buses := buses[topic := bus];
      }
      var a := CreateConsumer(maxRetries, connect);
      waits := a.waits;
      if a.result.Raised? {
        return Raised(a.result.exc), waits;
      }
      consumers := consumers[topic := ConsumerState(buses[topic], a.result.value, false)];
      r := Done(());
    }

    /** `subscribe`: KeyError for a topic without a bus; otherwise that
        topic's bus alone gains the callback. */
    method Subscribe(callback: Handler, topic: string) returns (r: Outcome<int>)
      requires Valid()
      modifies if topic in buses then {buses[topic]} else {}
      ensures topic !in buses ==> r == Raised(KeyError(topic))
      ensures topic in buses ==>
        r == Done(|old(buses[topic].subscribers)|)
        && buses[topic].subscribers == old(buses[topic].subscribers) + [callback]
      ensures forall t :: t in buses && t != topic ==> buses[t].subscribers == old(buses[t].subscribers)
    {
      if topic !in buses {
        return Raised(KeyError(topic));
      }
      var id := buses[topic].Subscribe(callback);
      r := Done(id);
    }

    /** `unsubscribe`: KeyError for a topic without a bus; otherwise only
        that topic's bus is touched. */
    method Unsubscribe(id: int, topic: string) returns (r: Outcome<bool>)
      requires Valid()
      modifies if topic in buses then {buses[topic]} else {}
      ensures topic !in buses ==> r == Raised(KeyError(topic))
      ensures topic in buses ==>
        var before := old(buses[topic].subscribers);
        && r == Done(0 <= id < |before|)
        && buses[topic].subscribers == if 0 <= id < |before| then Removed(before, id) else before
      ensures forall t :: t in buses && t != topic ==> buses[t].subscribers == old(buses[t].subscribers)
    {
      if topic !in buses {
        return Raised(KeyError(topic));
      }
      var ok := buses[topic].Unsubscribe(id);
      r := Done(ok);
    }

    /** `start`: KeyError for a topic without a consumer; otherwise its
        consumption task is started. */
    method Start(topic: string) returns (r: Outcome<()>)
      requires Valid()
      modifies this
      ensures Valid() && buses == old(buses)
      ensures topic !in old(consumers) ==> r == Raised(KeyError(topic)) && consumers == old(consumers)
      ensures topic in old(consumers) ==>
        r == Done(()) && consumers == old(consumers)[topic := old(consumers)[topic].(running := true)]
    {
      if topic !in consumers {
        return Raised(KeyError(topic));
      }
      consumers := consumers[topic := consumers[topic].(running := true)];
      r := Done(());
    }

    /** `stop` as written. */
    method Stop(topic: string) returns (r: Outcome<()>)
      ensures (r, consumers) == StopAsWritten(consumers, topic)
    {
      if topic in consumers {
        return Raised(TypeError(StopArity));
      }
      r := Done(());
    }

    /** `stop` passing the topic on, as evidently intended. */
    method StopFixed(topic: string) returns (r: Outcome<()>)
      requires Valid()
      modifies this
      ensures Valid() && buses == old(buses)
      ensures (r, consumers) == StopIntended(old(consumers), topic)
    {
      if topic in consumers {
        consumers := consumers[topic := consumers[topic].(running := false)];
      }
      r := Done(());
    }
  }

  /** The class attribute `EventManager._instance`. */
  class ManagerSlot {
    var instance: EventManager?

    constructor ()
      ensures instance == null
    {
      instance := null;
    }

    /** `EventManager(...)`: `__new__` hands out the one instance, then
        `__init__` runs on it for the given topic. */
    method Construct(topic: string, maxRetries: int, connect: nat -> Option<Exc>)
      returns (m: EventManager, r: Outcome<()>, waits: seq<nat>)
      requires instance != null ==> instance.Valid()
      modifies this, if instance != null then {instance} else {}
      ensures old(instance) != null ==> m == old(instance)
      ensures old(instance) == null ==> fresh(m)
      ensures instance == m && m.Valid() && topic in m.buses
      ensures waits == Retry(maxRetries, connect).waits
      ensures var a := Retry(maxRetries, connect);
        r == if a.result.Raised? then Raised(a.result.exc) else Done(())
      ensures var before := if old(instance) != null then old(instance.consumers) else map[];
        var a := Retry(maxRetries, connect);
        m.consumers == if a.result.Raised? then before else before[topic := ConsumerState(m.buses[topic], a.result.value, false)]
      ensures var before := if old(instance) != null then old(instance.buses) else map[];
        && m.buses.Keys == before.Keys + {topic}
        && (forall t :: t in before ==> m.buses[t] == before[t])
        && (topic !in before ==> m.buses[topic].subscribers == [])
    {
      if instance == null {
        instance := new EventManager();
      }
      m := instance;
      r, waits := m.Init(topic, maxRetries, connect);
    }
  }
}
