/** The fluent binding builder: `From(queue)` picks the queue, one of the
    `To...` operations picks the exchange, and for headers, direct and topic
    exchanges a last step supplies the header arguments or the routing key. */
module BindingBuilder {

  import opened Wrappers
  import opened AmqpCore

  /** A mutable `java.util.HashMap<String, Object>`: the builder creates one,
      copies one and puts entries into it. */
  class HeaderMap {
    var entries: Arguments

    /** `new HashMap()`. */
    constructor Empty()
      ensures entries == map[]
    {
      entries := map[];
    }

    /** `new HashMap(source)`: a fresh map with the same entries. */
    constructor CopyOf(source: HeaderMap)
      ensures entries == source.entries
    {
      entries := source.entries;
    }

    /** `put(key, value)`: adds the entry or replaces the value of the key. */
    method Put(key: string, value: Option<Value>)
      modifies this
      ensures entries == old(entries)[key := value]
    {
      entries := entries[key := value];
    }
  }

  /** The entries the varargs forms put before "x-match": each header key
      mapped to `null`. */
  function NullEntries(keys: seq<string>): (r: Arguments)
    ensures r.Keys == set k | k in keys
    ensures forall k :: k in r ==> r[k] == None
  {
    map k | k in keys :: None
  }

  /** A copy of `entries` whose "x-match" entry is forced to `mode`. */
  function OverrideMatch(entries: Arguments, mode: MatchMode): (r: Arguments)
    ensures r.Keys == entries.Keys + {XMatch}
    ensures r[XMatch] == Some(Text(mode.Name()))
    ensures forall k :: k in entries && k != XMatch ==> r[k] == entries[k]
  {
    entries[XMatch := Some(Text(mode.Name()))]
  }

  /** The arguments of `matchingAny(keys)` / `matchingAll(keys)`: exactly the
      given header keys plus "x-match"; every header key other than "x-match"
      is mapped to `null`, and "x-match" to the mode. */
  function MatchArguments(keys: seq<string>, mode: MatchMode): (r: Arguments)
    ensures r.Keys == (set k | k in keys) + {XMatch}
    ensures r[XMatch] == Some(Text(mode.Name()))
    ensures forall k :: k in keys && k != XMatch ==> r[k] == None
  {
    OverrideMatch(NullEntries(keys), mode)
  }

  /** The arguments depend only on which keys were supplied, not on their
      order or on repetitions. */
  lemma MatchArgumentsBySet(keys1: seq<string>, keys2: seq<string>, mode: MatchMode)
    requires (set k | k in keys1) == (set k | k in keys2)
    ensures MatchArguments(keys1, mode) == MatchArguments(keys2, mode)
  {
  }

  /** `BindingBuilder.from(queue)`. */
  function From(queue: Queue): (c: ExchangeConfigurer)
    ensures c.queue == queue
  {
    ExchangeConfigurer(queue)
  }

  /** The configurer returned by `from`: it holds the queue and offers one
      `to` step per exchange class. */
  datatype ExchangeConfigurer = ExchangeConfigurer(queue: Queue) {

    /** `to(FanoutExchange)`: the binding is built from the queue and the
        exchange only. */
    function ToFanout(exchange: FanoutExchange): (b: Binding)
      ensures b.queue == queue && b.exchange == exchange
      ensures b.routingKey == None && b.arguments == None
      ensures WellShaped(b)
    {
      Binding(queue, exchange, None, None)
    }

    /** `to(HeadersExchange)`. */
    function ToHeaders(exchange: HeadersExchange): (c: HeadersExchangeMapConfigurer)
      ensures c.queue == queue && c.exchange == exchange
    {
      HeadersExchangeMapConfigurer(queue, exchange)
    }

    /** `to(DirectExchange)`. */
    function ToDirect(exchange: DirectExchange): (c: DirectExchangeRoutingKeyConfigurer)
      ensures c.queue == queue && c.exchange == exchange
    {
      DirectExchangeRoutingKeyConfigurer(queue, exchange)
    }

    /** `to(TopicExchange)`. */
    function ToTopic(exchange: TopicExchange): (c: TopicExchangeRoutingKeyConfigurer)
      ensures c.queue == queue && c.exchange == exchange
    {
      TopicExchangeRoutingKeyConfigurer(queue, exchange)
    }
  }

  /** The configurer returned by `to(HeadersExchange)`. */
  datatype HeadersExchangeMapConfigurer = HeadersExchangeMapConfigurer(queue: Queue, exchange: HeadersExchange) {

    /** The loop shared by `matchingAny(String...)` and
        `matchingAll(String...)`: a fresh map, each key put with `null`, then
        "x-match" put with the mode. */
    method MatchingKeys(headerKeys: seq<string>, mode: MatchMode) returns (b: Binding)
      ensures b.queue == queue && b.exchange == exchange && b.routingKey == None
      ensures b.arguments == Some(MatchArguments(headerKeys, mode))
      ensures WellShaped(b)
    {
      var arguments := new HeaderMap.Empty();
      for i := 0 to |headerKeys|
        invariant arguments.entries == NullEntries(headerKeys[..i])
      {
        assert headerKeys[..i + 1] == headerKeys[..i] + [headerKeys[i]];
        arguments.Put(headerKeys[i], None);
      }
      assert headerKeys[..|headerKeys|] == headerKeys;
      arguments.Put(XMatch, Some(Text(mode.Name())));
      b := Binding(queue, exchange, None, Some(arguments.entries));
    }

    /** `matchingAny(String... headerKeys)`. */
    method MatchingAny(headerKeys: seq<string>) returns (b: Binding)
      ensures b.queue == queue && b.exchange == exchange && b.routingKey == None
      ensures b.arguments == Some(MatchArguments(headerKeys, Any))
      ensures WellShaped(b)
    {
      b := MatchingKeys(headerKeys, Any);
    }

    /** `matchingAll(String... headerKeys)`. */
    method MatchingAll(headerKeys: seq<string>) returns (b: Binding)
      ensures b.queue == queue && b.exchange == exchange && b.routingKey == None
      ensures b.arguments == Some(MatchArguments(headerKeys, All))
      ensures WellShaped(b)
    {
      b := MatchingKeys(headerKeys, All);
    }

    /** The steps shared by `matchingAny(Map)` and `matchingAll(Map)`: copy
        the caller's map, put "x-match" into the copy. The caller's map is
        left as it was. */
    method MatchingEntries(headerValues: HeaderMap, mode: MatchMode) returns (b: Binding)
      ensures headerValues.entries == old(headerValues.entries)
      ensures b.queue == queue && b.exchange == exchange && b.routingKey == None
      ensures b.arguments == Some(OverrideMatch(old(headerValues.entries), mode))
      ensures WellShaped(b)
    {
      var arguments := new HeaderMap.CopyOf(headerValues);
      arguments.Put(XMatch, Some(Text(mode.Name())));
      b := Binding(queue, exchange, None, Some(arguments.entries));
    }

    /** `matchingAny(Map<String, Object> headerValues)`. */
    method MatchingAnyMap(headerValues: HeaderMap) returns (b: Binding)
      ensures headerValues.entries == old(headerValues.entries)
      ensures b.queue == queue && b.exchange == exchange && b.routingKey == None
      ensures b.arguments == Some(OverrideMatch(old(headerValues.entries), Any))
      ensures WellShaped(b)
    {
      b := MatchingEntries(headerValues, Any);
    }

    /** `matchingAll(Map<String, Object> headerValues)`. */
    method MatchingAllMap(headerValues: HeaderMap) returns (b: Binding)
      ensures headerValues.entries == old(headerValues.entries)
      ensures b.queue == queue && b.exchange == exchange && b.routingKey == None
      ensures b.arguments == Some(OverrideMatch(old(headerValues.entries), All))
      ensures WellShaped(b)
    {
      b := MatchingEntries(headerValues, All);
    }
  }

  /** The configurer returned by `to(TopicExchange)`. */
  datatype TopicExchangeRoutingKeyConfigurer = TopicExchangeRoutingKeyConfigurer(queue: Queue, exchange: TopicExchange) {

    /** `with(String routingKey)`. */
    function With(routingKey: string): (b: Binding)
      ensures b.queue == queue && b.exchange == exchange
      ensures b.routingKey == Some(routingKey) && b.arguments == None
      ensures WellShaped(b)
    {
      Binding(queue, exchange, Some(routingKey), None)
    }

    /** `with(Enum<?> routingKeyEnum)`: `with` on the enum's string form. */
    function WithEnum(routingKeyEnum: EnumConstant): (b: Binding)
      ensures b == With(routingKeyEnum.ToString())
    {
      Binding(queue, exchange, Some(routingKeyEnum.ToString()), None)
    }
  }

  /** The configurer returned by `to(DirectExchange)`. */
  datatype DirectExchangeRoutingKeyConfigurer = DirectExchangeRoutingKeyConfigurer(queue: Queue, exchange: DirectExchange) {

    /** `with(String routingKey)`. */
    function With(routingKey: string): (b: Binding)
      ensures b.queue == queue && b.exchange == exchange
      ensures b.routingKey == Some(routingKey) && b.arguments == None
      ensures WellShaped(b)
    {
      Binding(queue, exchange, Some(routingKey), None)
    }

    /** `with(Enum<?> routingKeyEnum)`: `with` on the enum's string form. */
    function WithEnum(routingKeyEnum: EnumConstant): (b: Binding)
      ensures b == With(routingKeyEnum.ToString())
    {
      Binding(queue, exchange, Some(routingKeyEnum.ToString()), None)
    }

    /** `withQueueName()`: `with` on the queue's own name. */
    function WithQueueName(): (b: Binding)
      ensures b == With(queue.name)
      ensures b.routingKey == Some(queue.name)
    {
      Binding(queue, exchange, Some(queue.name), None)
    }
  }

}
