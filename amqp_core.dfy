/** The AMQP model objects that the binding builder assembles: queues,
    exchanges of the four kinds, header values and bindings. Their Java
    classes are records of the constructor arguments passed to them. */
module AmqpCore {

  import opened Wrappers

  /** A queue, identified by the name it was constructed with. */
  datatype Queue = Queue(name: string)

  /** The four exchange classes the builder distinguishes. */
  datatype ExchangeKind = Fanout | Headers | Direct | Topic

  /** An exchange: its class and the name it was constructed with. */
  datatype Exchange = Exchange(kind: ExchangeKind, name: string)

  type FanoutExchange = e: Exchange | e.kind == Fanout witness Exchange(Fanout, "")
  type HeadersExchange = e: Exchange | e.kind == Headers witness Exchange(Headers, "")
  type DirectExchange = e: Exchange | e.kind == Direct witness Exchange(Direct, "")
  type TopicExchange = e: Exchange | e.kind == Topic witness Exchange(Topic, "")

  /** A non-null value stored under a header key. Java allows any object;
      strings, integers and booleans are told apart, every other object is
      represented by an identity. */
  datatype Value = Text(text: string) | Integer(number: int) | Boolean(flag: bool) | Object(identity: nat)

  /** A binding argument map: a `null` value is `None`. */
  type Arguments = map<string, Option<Value>>

  /** A Java enum constant, represented by the text its `toString()` yields. */
  datatype EnumConstant = EnumConstant(text: string) {
    function ToString(): string { text }
  }

  /** A binding records the arguments its constructor was called with:
      `routingKey` is `None` unless a routing key was passed, `arguments`
      is `None` unless an argument map was passed. */
  datatype Binding = Binding(queue: Queue, exchange: Exchange, routingKey: Option<string>, arguments: Option<Arguments>)

  /** The header key that tells a headers exchange how to combine the
      header conditions. */
  const XMatch: string := "x-match"

  /** The two combination modes of a headers binding. */
  datatype MatchMode = Any | All {
    function Name(): (s: string)
      ensures s == "any" <==> this == Any
      ensures s == "all" <==> this == All
    {
      match this
      case Any => "any"
      case All => "all"
    }
  }

  /** The shape every binding produced by the builder has, according to the
      class of its exchange: a fanout binding carries neither a routing key
      nor arguments, a headers binding carries arguments whose "x-match"
      entry names a mode and no routing key, and a direct or topic binding
      carries a routing key and no arguments. */
  predicate WellShaped(b: Binding) {
    match b.exchange.kind
    case Fanout => b.routingKey.None? && b.arguments.None?
    case Headers =>
      && b.routingKey.None?
      && b.arguments.Some?
      && XMatch in b.arguments.value
      && (b.arguments.value[XMatch] == Some(Text(Any.Name())) || b.arguments.value[XMatch] == Some(Text(All.Name())))
    case Direct => b.routingKey.Some? && b.arguments.None?
    case Topic => b.routingKey.Some? && b.arguments.None?
  }

}
