# Spring AMQP binding builder, modelled in Dafny

This project models the fluent `BindingBuilder` of Spring AMQP's core
package. The builder assembles a `Binding` from a queue, an exchange and,
depending on the exchange's class, either a routing key or a map of header
arguments:

- `from(queue)` fixes the queue;
- `to(exchange)` fixes the exchange: a fanout exchange yields the binding at
  once, a headers, direct or topic exchange yields a configurer;
- on a headers exchange, `matchingAny` / `matchingAll` build the argument
  map: the varargs forms map every header key to `null`, the map forms copy
  the caller's map, and both then force `"x-match"` to `"any"` or `"all"`;
- on a direct or topic exchange, `with` supplies the routing key (a string,
  or an enum constant's string form), and on a direct exchange
  `withQueueName` uses the queue's name.

Files:

- `wrappers.dfy` (module `Wrappers`): `Option`, where `None` is a Java
  `null` or a constructor argument that was not passed.
- `amqp_core.dfy` (module `AmqpCore`): queues, exchanges (one subset type
  per exchange class), header values, `Binding`, the `"x-match"` key, the
  two match modes and `WellShaped`, the shape every built binding has for
  its exchange class.
- `binding_builder.dfy` (module `BindingBuilder`): the builder. The
  configurers are datatypes, since their fields are final. The
  `java.util.HashMap` that the headers configurer creates, copies and fills
  is the class `HeaderMap`. The varargs forms are methods with the source's
  loop, proved equal to the reference function `MatchArguments`. The map
  forms are methods proved equal to `OverrideMatch` of the caller's
  entries, and they leave the caller's map unchanged.

Java overloads get distinct names: `ToFanout`, `ToHeaders`, `ToDirect`,
`ToTopic` for the four `to` methods; `With` / `WithEnum`; `MatchingAny` /
`MatchingAnyMap` and `MatchingAll` / `MatchingAllMap`.

## Model

| member | source | states |
|---|---|---|
| BindingBuilder.From | spring-amqp-core/src/main/java/org/springframework/amqp/core/BindingBuilder.java:30-32 | the configurer holds exactly the given queue |
| BindingBuilder.ExchangeConfigurer.ToFanout | spring-amqp-core/src/main/java/org/springframework/amqp/core/BindingBuilder.java:43-45 | the binding carries the configurer's queue and the exchange unchanged, no routing key and no argument map, and is well shaped for a fanout exchange |
| BindingBuilder.ExchangeConfigurer.ToHeaders | spring-amqp-core/src/main/java/org/springframework/amqp/core/BindingBuilder.java:47-49 | the headers configurer holds the queue and the exchange unchanged |
| BindingBuilder.ExchangeConfigurer.ToDirect | spring-amqp-core/src/main/java/org/springframework/amqp/core/BindingBuilder.java:51-53 | the direct configurer holds the queue and the exchange unchanged |
| BindingBuilder.ExchangeConfigurer.ToTopic | spring-amqp-core/src/main/java/org/springframework/amqp/core/BindingBuilder.java:55-57 | the topic configurer holds the queue and the exchange unchanged |
| BindingBuilder.HeaderMap.Empty | spring-amqp-core/src/main/java/org/springframework/amqp/core/BindingBuilder.java:73 | a new map has no entries |
| BindingBuilder.HeaderMap.CopyOf | spring-amqp-core/src/main/java/org/springframework/amqp/core/BindingBuilder.java:82 | the copy has exactly the source map's entries |
| BindingBuilder.HeaderMap.Put | spring-amqp-core/src/main/java/org/springframework/amqp/core/BindingBuilder.java:75 | put adds the entry or replaces the key's value and changes nothing else |
| BindingBuilder.NullEntries | spring-amqp-core/src/main/java/org/springframework/amqp/core/BindingBuilder.java:74-76 | the keys put by the loop are exactly the supplied header keys, each with a null value |
| BindingBuilder.OverrideMatch | spring-amqp-core/src/main/java/org/springframework/amqp/core/BindingBuilder.java:82-83 | copying a map and putting "x-match" keeps every other entry with its value, adds no key besides "x-match", and leaves "x-match" mapped to the mode whatever the map held there |
| BindingBuilder.MatchArguments | spring-amqp-core/src/main/java/org/springframework/amqp/core/BindingBuilder.java:73-77 | the varargs arguments have exactly the supplied header keys plus "x-match" as keys; every header key other than "x-match" maps to null; "x-match" maps to the mode even when it was among the keys |
| BindingBuilder.MatchArgumentsBySet | spring-amqp-core/src/main/java/org/springframework/amqp/core/BindingBuilder.java:74-76 | the varargs arguments depend only on the set of supplied keys: order and duplicates do not matter |
| BindingBuilder.HeadersExchangeMapConfigurer.MatchingKeys | spring-amqp-core/src/main/java/org/springframework/amqp/core/BindingBuilder.java:73-78 | the loop over the header keys followed by the "x-match" put produces exactly MatchArguments of the keys and the mode, bound to the configurer's queue and exchange with no routing key |
| BindingBuilder.HeadersExchangeMapConfigurer.MatchingAny | spring-amqp-core/src/main/java/org/springframework/amqp/core/BindingBuilder.java:72-79 | matchingAny(keys) binds the queue and exchange with the arguments MatchArguments(keys, any) and no routing key |
| BindingBuilder.HeadersExchangeMapConfigurer.MatchingAll | spring-amqp-core/src/main/java/org/springframework/amqp/core/BindingBuilder.java:87-94 | matchingAll(keys) binds the queue and exchange with the arguments MatchArguments(keys, all) and no routing key |
| BindingBuilder.HeadersExchangeMapConfigurer.MatchingEntries | spring-amqp-core/src/main/java/org/springframework/amqp/core/BindingBuilder.java:82-84 | copying the caller's map and putting "x-match" gives the arguments OverrideMatch(caller's entries, mode), and the caller's map is left unchanged |
| BindingBuilder.HeadersExchangeMapConfigurer.MatchingAnyMap | spring-amqp-core/src/main/java/org/springframework/amqp/core/BindingBuilder.java:81-85 | matchingAny(map) binds with OverrideMatch(map, any) and leaves the caller's map unchanged |
| BindingBuilder.HeadersExchangeMapConfigurer.MatchingAllMap | spring-amqp-core/src/main/java/org/springframework/amqp/core/BindingBuilder.java:96-100 | matchingAll(map) binds with OverrideMatch(map, all) and leaves the caller's map unchanged |
| BindingBuilder.TopicExchangeRoutingKeyConfigurer.With | spring-amqp-core/src/main/java/org/springframework/amqp/core/BindingBuilder.java:123-125 | the binding carries the queue, the topic exchange and the given routing key unchanged, and no argument map |
| BindingBuilder.TopicExchangeRoutingKeyConfigurer.WithEnum | spring-amqp-core/src/main/java/org/springframework/amqp/core/BindingBuilder.java:127-129 | with(enum) is with(String) applied to the enum's string form |
| BindingBuilder.DirectExchangeRoutingKeyConfigurer.With | spring-amqp-core/src/main/java/org/springframework/amqp/core/BindingBuilder.java:139-141 | the binding carries the queue, the direct exchange and the given routing key unchanged, and no argument map |
| BindingBuilder.DirectExchangeRoutingKeyConfigurer.WithEnum | spring-amqp-core/src/main/java/org/springframework/amqp/core/BindingBuilder.java:143-145 | with(enum) is with(String) applied to the enum's string form |
| BindingBuilder.DirectExchangeRoutingKeyConfigurer.WithQueueName | spring-amqp-core/src/main/java/org/springframework/amqp/core/BindingBuilder.java:147-149 | withQueueName() is with(String) applied to the queue's own name, so the routing key equals the queue's name |
| AmqpCore.MatchMode.Name | spring-amqp-core/src/main/java/org/springframework/amqp/core/BindingBuilder.java:77 | the mode's text is "any" exactly for matchingAny and "all" exactly for matchingAll |

## Left out

- The `Binding`, `Queue` and exchange classes are not part of this model beyond the constructor arguments they receive; in particular no default routing key or argument map is assumed for the two- and three-argument `Binding` constructors, which is why both are optional fields.
- A binding records the contents of its argument map when it is built; the map object itself is local to the builder, so no other reference can change it afterwards, and later mutation through the `Binding` is not modelled.
- Java `null` passed as the queue, the exchange, the routing key, the key array, a single key or the header map (a `NullPointerException` in the copy constructor, a `null` key or routing key stored as is) is not modelled: these parameters are non-null values here.
- Header values other than strings, integers and booleans are represented by an identity only; `Enum.toString()` is represented by the text it returns, since an enum may override it.
- `HashMap` hashing, capacity and iteration order are not modelled; the arguments are a mathematical map.
- The broker administration wrapper, the Spring configuration base class, the argument annotation and the listener-container lifecycle test are not part of this model: they delegate to remote calls, process execution, dependency-injection wiring or a live broker with threads and timeouts.
