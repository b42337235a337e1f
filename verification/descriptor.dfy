/** The generator's input: the method record of a service descriptor, the
    generator options, and the naming collaborators whose internals are not
    part of this model. Also the four interaction shapes a method can have. */
module Descriptor {

  /** The idempotency level declared in a method's options. */
  datatype Idempotency = IdempotencyUnknown | NoSideEffects | Idempotent

  /** One RPC method. `servicePath` is the enclosing service's path, copied
      into each method: the generator reads it through the method's service,
      so all methods of one service share it, but the record does not
      enforce that and no property here depends on it. `inputType` and
      `outputType` are message type references, which the naming
      collaborator turns into Swift type names. */
  datatype Method = Method(
    name: string,
    servicePath: string,
    inputType: string,
    outputType: string,
    clientStreaming: bool,
    serverStreaming: bool,
    idempotencyLevel: Idempotency,
    deprecated: bool)

  /** The access level requested for everything the generator declares. */
  datatype Visibility = Internal | Public | Package

  datatype GeneratorOptions = GeneratorOptions(visibility: Visibility, keepMethodCasing: bool)

  /** The foreign naming calls, taken as arbitrary total functions:
      `fullName` is the protobuf namer's Swift name for a message type and
      `toLowerCamelCase` is the casing normaliser for method names. */
  datatype Naming = Naming(fullName: string -> string, toLowerCamelCase: string -> string)

  /** A service as the printer sees it: its two Swift type names (computed
      by the naming collaborator) and its methods in declaration order. */
  datatype Service = Service(protocolName: string, implementationName: string, methods: seq<Method>)

  /** The four RPC interaction patterns. */
  datatype Shape = Unary | ServerStream | ClientStream | Bidirectional {

    /** The caller sends a stream of requests. */
    predicate ClientStreams() {
      this == ClientStream || this == Bidirectional
    }

    /** The server answers with a stream of responses. */
    predicate ServerStreams() {
      this == ServerStream || this == Bidirectional
    }
  }

  /** The shape selected by the streaming flags, tested in the order every
      branch chain of the generator tests them: both, server only, client
      only, neither. */
  function ShapeOf(clientStreaming: bool, serverStreaming: bool): (s: Shape)
    ensures s.ClientStreams() == clientStreaming
    ensures s.ServerStreams() == serverStreaming
  {
    if clientStreaming && serverStreaming then Bidirectional
    else if serverStreaming then ServerStream
    else if clientStreaming then ClientStream
    else Unary
  }

  function MethodShape(m: Method): Shape {
    ShapeOf(m.clientStreaming, m.serverStreaming)
  }

  /** The classification is a bijection between the two flags and the four
      shapes: every shape is reached, from exactly one pair of flags. */
  lemma ShapeOfBijective(s: Shape, c: bool, v: bool)
    ensures ShapeOf(s.ClientStreams(), s.ServerStreams()) == s
    ensures ShapeOf(c, v) == s <==> (c == s.ClientStreams() && v == s.ServerStreams())
  {
  }
}
