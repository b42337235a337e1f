# Connect Swift client generator — per-method text generation

This project models how the Connect Swift plugin turns a protobuf service
description into Swift client source. Per method, the model covers:

- the wire path;
- the declared name;
- the `async`/`throws` signature and its return type;
- the availability annotations;
- the idempotency literal and the stream-type tag;
- the statements of the generated method body for each of the four RPC
  shapes (unary, server streaming, client streaming, bidirectional).

Per service, it covers the printed protocol, the concrete class and the lint
markers around a file.

The generator's output is modelled as the sequence of arguments it hands to
`printLine`. A method body is one such argument: the body's lines joined by
`"\n"`. The module layout follows the source:

- `Descriptor`: the method record, the options and the four shapes. `ShapeOf`
  is the branch chain "both flags / server only / client only / neither" that
  four functions of the source repeat: `asyncAwaitThrowingSignature`,
  `returnValue`, `specStreamType` and `asyncAwaitThrowingReturnValue`.
- `MethodExtensions`: `MethodDescriptor+Extensions.swift`.
- `ClientGenerator`: the private `MethodDescriptor` extension of
  `ConnectClientGenerator.swift`.
- `ServicePrinter`: `printContent`, `printService` and the two per-method
  printers.
- `Parsing`: readers for the emitted signature, keywords and literals. The
  properties use them as inverses of the emitting functions.
- `Strings` and `Wrappers`: generic string, line-count and `Option` helpers.

## Model

| member | source | states |
|---|---|---|
| Descriptor.ShapeOf | Plugins/ConnectPluginUtilities/MethodDescriptor+Extensions.swift:37-61 | The four-way branch chain picks a shape that streams from the client exactly when `clientStreaming` is set and from the server exactly when `serverStreaming` is set. |
| Descriptor.ShapeOfBijective | Plugins/ConnectPluginUtilities/MethodDescriptor+Extensions.swift:37-61 | The branch chain is a bijection between the two streaming flags and the four shapes. Each shape is selected by exactly one pair of flags. |
| MethodExtensions.MethodPath | Plugins/ConnectPluginUtilities/MethodDescriptor+Extensions.swift:18-20 | The path starts with `/` and ends with `/` followed by the method name. `MethodPathRoundTrip` gives its inverse. |
| MethodExtensions.MethodName | Plugins/ConnectPluginUtilities/MethodDescriptor+Extensions.swift:22-26 | No contract of its own. It is its definition: the raw name when casing is kept, the lower-camel-cased name otherwise. `KeptCasingMatchesPath` states its property. |
| MethodExtensions.MethodPathRoundTrip | Plugins/ConnectPluginUtilities/MethodDescriptor+Extensions.swift:18-20 | When the method name holds no slash, the path `/<service>/<name>` splits back at its last slash into the service path and the method name. |
| MethodExtensions.KeptCasingMatchesPath | Plugins/ConnectPluginUtilities/MethodDescriptor+Extensions.swift:22-26 | With `keepMethodCasing` set, the declared name is the raw name, which is the last segment of the method path. |
| MethodExtensions.ReturnValue | Plugins/ConnectPluginUtilities/MethodDescriptor+Extensions.swift:64-79 | No contract of its own. It is its definition over the shape; `ReturnValueByShape` states what the result is for each shape. |
| MethodExtensions.ReturnValueByShape | Plugins/ConnectPluginUtilities/MethodDescriptor+Extensions.swift:64-79 | Unary methods return the output message type. All three streaming shapes, client streaming included, return `AsyncThrowingStream<…, Error>` wrapped around exactly that type. |
| MethodExtensions.AsyncAwaitThrowingSignature | Plugins/ConnectPluginUtilities/MethodDescriptor+Extensions.swift:28-62 | The signature opens with `func` and the backtick-escaped name, and ends with the return type. |
| MethodExtensions.SignatureRoundTrip | Plugins/ConnectPluginUtilities/MethodDescriptor+Extensions.swift:28-62 | Reading the signature back gives the name, the input type, the defaults flag, the `async` flag (set exactly for unary methods) and the return type. This holds when the name has no backtick and the input type no `)`. |
| MethodExtensions.SignatureDefaultsMarker | Plugins/ConnectPluginUtilities/MethodDescriptor+Extensions.swift:40 | The text ` = nil` appears in the signature exactly when defaults are requested, provided no name holds `=`. |
| MethodExtensions.SignatureEffects | Plugins/ConnectPluginUtilities/MethodDescriptor+Extensions.swift:37-61 | Unary signatures end `) async throws -> <return>`. The three streaming shapes end `) throws -> <return>`. |
| MethodExtensions.PopulatorParameterSharedByShapes | Plugins/ConnectPluginUtilities/MethodDescriptor+Extensions.swift:37-60 | Whatever the shape, two methods with the same name and input type have signatures that agree up to the end of the populator parameter. |
| Parsing.ParseSignatureRoundTrip | Plugins/ConnectPluginUtilities/MethodDescriptor+Extensions.swift:38-60 | The signature reader inverts the signature text on all names free of backtick and `)`. |
| Parsing.SignatureDefaultMarker | Plugins/ConnectPluginUtilities/MethodDescriptor+Extensions.swift:40 | ` = nil` occurs in a signature text if and only if defaults are on, for names free of `=`. |
| Parsing.SignatureOpensWithPopulator | Plugins/ConnectPluginUtilities/MethodDescriptor+Extensions.swift:39-40 | Every signature starts with `func`, the escaped name and the optional `populator` closure parameter over the input type, with its default when requested. |
| Parsing.SignatureEndsWithClose | Plugins/ConnectPluginUtilities/MethodDescriptor+Extensions.swift:40-59 | Every signature ends with the closing parenthesis, the effects (`async throws` or `throws`) and the return type. |
| ClientGenerator.VisibilityKeyword | Plugins/ConnectSwiftPlugin/ConnectClientGenerator.swift:33-40 | The visibility keyword reads back as the option it came from: distinct options print distinct keywords. |
| ClientGenerator.SpecStreamType | Plugins/ConnectSwiftPlugin/ConnectClientGenerator.swift:119-129 | The stream-type tag reads back as the method's shape. |
| ClientGenerator.IdempotencyLevel | Plugins/ConnectSwiftPlugin/ConnectClientGenerator.swift:131-140 | The idempotency literal reads back as the level it came from. |
| ClientGenerator.DeprecatedOn | Plugins/ConnectSwiftPlugin/ConnectClientGenerator.swift:145-149 | A deprecating attribute starts with its platform's introduced/deprecated prefix and contains the fixed deprecation message. |
| ClientGenerator.CallbackDeprecations | Plugins/ConnectSwiftPlugin/ConnectClientGenerator.swift:145-150 | The callback deprecation text starts with the iOS 12 attribute prefix and contains the macOS 10.15, tvOS 13 and watchOS 6 attribute prefixes and the message. |
| ClientGenerator.CallbackDeprecationsPerPlatform | Plugins/ConnectSwiftPlugin/ConnectClientGenerator.swift:146-149 | The text starts with the whole iOS 12 attribute and contains the whole macOS 10.15, tvOS 13 and watchOS 6 attributes, each with its own deprecation message. |
| ClientGenerator.CallbackAvailabilityAnnotation | Plugins/ConnectSwiftPlugin/ConnectClientGenerator.swift:142-155 | The callback annotation is present exactly for deprecated methods. When present, it starts with the iOS 12 deprecation and carries the message. |
| ClientGenerator.AsyncAwaitAvailabilityAnnotation | Plugins/ConnectSwiftPlugin/ConnectClientGenerator.swift:157-164 | A method that is not deprecated gets exactly `@available(iOS 13, *)`. A deprecated one gets an attribute starting with the iOS 13 introduced/deprecated prefix. |
| ClientGenerator.AnnotationMarksDeprecation | Plugins/ConnectSwiftPlugin/ConnectClientGenerator.swift:157-164 | The async annotation contains the deprecation message exactly when the method is deprecated. |
| ClientGenerator.AnnotationIsAttribute | Plugins/ConnectSwiftPlugin/ConnectClientGenerator.swift:157-164 | The async annotation is a Swift attribute: it is non-empty and starts with `@`. |
| ClientGenerator.BidirectionalBody | Plugins/ConnectSwiftPlugin/ConnectClientGenerator.swift:172-199 | No contract of its own. It is its definition: the bidirectional statements, one per line. `StreamingBodiesShareAdapter`, `StreamingBodyCounts` and `StreamingBodyWiresCancellation` state its properties. |
| ClientGenerator.ServerStreamBody | Plugins/ConnectSwiftPlugin/ConnectClientGenerator.swift:201-228 | No contract of its own. It is its definition: the server-streaming statements, one per line. The same lemmas as for `BidirectionalBody` state its properties. |
| ClientGenerator.ClientStreamBody | Plugins/ConnectSwiftPlugin/ConnectClientGenerator.swift:230-233 | No contract of its own. It is its definition: the stream opening and `return stream`. `ClientStreamBodyReturnsHandle` and `ClientStreamTextSkipsPopulator` state its properties. |
| ClientGenerator.UnaryBody | Plugins/ConnectSwiftPlugin/ConnectClientGenerator.swift:235-250 | No contract of its own. It is its definition: the ten unary statements, with the line continuations of the transport call joined. `UnaryBodyCounts`, `UnaryCallCarriesLevel` and `UnaryBodyPropagatesFailure` state its properties. |
| ClientGenerator.ReturnValueLines | Plugins/ConnectSwiftPlugin/ConnectClientGenerator.swift:166-252 | No contract of its own. It is its definition: the body selected by the method's shape, with the input and output names from the namer. `BodyRequestCounts` and `BodyOpensWithDeclaration` state per-shape properties. |
| ClientGenerator.AsyncAwaitThrowingReturnValue | Plugins/ConnectSwiftPlugin/ConnectClientGenerator.swift:166-252 | No contract of its own. It is its definition: the statements joined by newlines. `BodyPassesMethodPath` and `BodyOpensWithDeclaration` state its properties. |
| ClientGenerator.StreamingBodiesShareAdapter | Plugins/ConnectSwiftPlugin/ConnectClientGenerator.swift:171-228 | The bidirectional and server-streaming bodies have the same length and agree line for line after their first line. Each first line opens its own transport stream. |
| ClientGenerator.StreamingBodyCounts | Plugins/ConnectSwiftPlugin/ConnectClientGenerator.swift:173-198 | A streaming body with the adapter calls the populator once, sends once and never makes a unary call. |
| ClientGenerator.UnaryBodyCounts | Plugins/ConnectSwiftPlugin/ConnectClientGenerator.swift:235-250 | The unary body calls the populator once, never sends on a stream and makes the unary call once. |
| ClientGenerator.BodyRequestCounts | Plugins/ConnectSwiftPlugin/ConnectClientGenerator.swift:166-252 | By shape: every shape except client streaming calls the populator exactly once. Only server streaming and bidirectional send, once each. Only unary makes the unary call (the one call taking an idempotency level), once. |
| ClientGenerator.BodyPassesMethodPath | Plugins/ConnectSwiftPlugin/ConnectClientGenerator.swift:171-251 | Every body addresses its transport call to `path: "<method path>"`. |
| ClientGenerator.UnaryBodyPassesIdempotency | Plugins/ConnectSwiftPlugin/ConnectClientGenerator.swift:239-243 | The unary call line carries `idempotencyLevel: .<literal>` for the method's level, and so does the body text. |
| ClientGenerator.UnaryCallCarriesLevel | Plugins/ConnectSwiftPlugin/ConnectClientGenerator.swift:239-243 | For any names and level, the fourth unary line starts the unary call and carries the idempotency argument, and the joined body contains it. |
| ClientGenerator.UnaryBodyPropagatesFailure | Plugins/ConnectSwiftPlugin/ConnectClientGenerator.swift:244-249 | In the unary body, the failure case is followed by `throw error` and the success case by `return successData`. |
| ClientGenerator.StreamingBodyWiresCancellation | Plugins/ConnectSwiftPlugin/ConnectClientGenerator.swift:171-228 | The server-streaming and bidirectional bodies set the termination handler directly followed by `stream.cancel()`, and finish the returned stream with the completion's error. |
| ClientGenerator.ClientStreamBodyReturnsHandle | Plugins/ConnectSwiftPlugin/ConnectClientGenerator.swift:229-233 | The client-streaming method declares an `AsyncThrowingStream<` result, yet its two-line body opens the client-only stream and returns that handle. |
| ClientGenerator.ClientStreamBodySkipsPopulator | Plugins/ConnectSwiftPlugin/ConnectClientGenerator.swift:229-233 | The client-streaming body never calls `populator?(&request)`, provided no name or path holds `&`. |
| ClientGenerator.ClientStreamTextSkipsPopulator | Plugins/ConnectSwiftPlugin/ConnectClientGenerator.swift:230-233 | For any `&`-free names and path, the joined client-streaming statements contain no populator call. |
| ClientGenerator.BodyOpensWithDeclaration | Plugins/ConnectSwiftPlugin/ConnectClientGenerator.swift:171-251 | A unary body starts with `var request = `. The three streaming bodies start with `let stream: any Connect.`, the declaration of the transport stream. |
| ServicePrinter.DeclarationRoundTrip | Plugins/ConnectSwiftPlugin/ConnectClientGenerator.swift:33-40 | A line opened by a visibility keyword and a space reads back as that visibility and the rest of the line. |
| ServicePrinter.KeywordsExclusive | Plugins/ConnectSwiftPlugin/ConnectClientGenerator.swift:33-40 | A line declaring one visibility never starts with another visibility's keyword. |
| ServicePrinter.DeclarationLineKeyword | Plugins/ConnectSwiftPlugin/ConnectClientGenerator.swift:56 | A declaration line starts with keyword `w` exactly when it declares `w`. |
| ServicePrinter.ImplementationLineDeclares | Plugins/ConnectSwiftPlugin/ConnectClientGenerator.swift:102-110 | An implementation line declares the visibility it was assembled with, followed by the signature and ` {`. |
| ServicePrinter.ImplementationLineRoundTrip | Plugins/ConnectSwiftPlugin/ConnectClientGenerator.swift:102-110 | An implementation line reads back as its visibility and signature parts whenever the signature reads back. |
| ServicePrinter.MethodInterface | Plugins/ConnectSwiftPlugin/ConnectClientGenerator.swift:87-98 | A protocol requirement takes exactly three lines. `InterfaceDeclaresMethod` and `InterfaceDeclaresNothing` state what they hold. |
| ServicePrinter.InterfaceDeclaresMethod | Plugins/ConnectSwiftPlugin/ConnectClientGenerator.swift:87-98 | A protocol requirement's signature line has no visibility keyword, opens with the escaped name, and reads back with defaults off. |
| ServicePrinter.MethodImplementation | Plugins/ConnectSwiftPlugin/ConnectClientGenerator.swift:99-115 | A class method takes exactly five lines. `ImplementationDeclaresMethod` and `ImplementationDeclaresOnce` state what they hold. |
| ServicePrinter.ImplementationDeclaresMethod | Plugins/ConnectSwiftPlugin/ConnectClientGenerator.swift:99-115 | A class method's declaration line carries the configured visibility and reads back with defaults on. |
| ServicePrinter.ClassOpening | Plugins/ConnectSwiftPlugin/ConnectClientGenerator.swift:62-78 | No contract of its own. It is its definition: the protocol's closing brace, the class declaration, the stored client and the initialiser. `ClassOpeningDeclaresTwice` states its property. |
| ServicePrinter.PrintService | Plugins/ConnectSwiftPlugin/ConnectClientGenerator.swift:52-85 | A service prints at least eleven lines. The first declares the protocol with the configured visibility; the last closes the class. |
| ServicePrinter.ServiceLength | Plugins/ConnectSwiftPlugin/ConnectClientGenerator.swift:52-115 | A service prints `8 * n + 11` lines for `n` methods: three per requirement, five per class method, eleven of its own. |
| ServicePrinter.InterfacesInOrder | Plugins/ConnectSwiftPlugin/ConnectClientGenerator.swift:56-61 | The requirement of method `i` occupies lines `1 + 3i` to `3 + 3i`: the protocol lists the methods in declaration order. |
| ServicePrinter.ImplementationsInOrder | Plugins/ConnectSwiftPlugin/ConnectClientGenerator.swift:66-84 | The class method of method `i` occupies lines `3n + 10 + 5i` to `3n + 14 + 5i`: the class lists the methods in declaration order after the initialiser. |
| ServicePrinter.InterfaceDeclaresNothing | Plugins/ConnectSwiftPlugin/ConnectClientGenerator.swift:87-98 | No line of a protocol requirement starts with a visibility keyword. |
| ServicePrinter.ImplementationDeclaresOnce | Plugins/ConnectSwiftPlugin/ConnectClientGenerator.swift:99-115 | Exactly one line of a class method starts with a visibility keyword, and it is the configured one. |
| ServicePrinter.ClassOpeningDeclaresTwice | Plugins/ConnectSwiftPlugin/ConnectClientGenerator.swift:62-78 | Between the requirements and the class methods, exactly two lines start with a visibility keyword: the class and its initialiser. Both carry the configured one. |
| ServicePrinter.ServiceVisibilityUniform | Plugins/ConnectSwiftPlugin/ConnectClientGenerator.swift:52-85 | In a service, `n + 3` printed lines (a method body counts as one) start with the configured keyword (protocol, class, initialiser and one per method), and none starts with another. |
| ServicePrinter.ServiceBlockAt | Plugins/ConnectSwiftPlugin/ConnectClientGenerator.swift:44-47 | Block `i` of the file is a blank line followed by the lines of service `i`. |
| ServicePrinter.ServicesInOrder | Plugins/ConnectSwiftPlugin/ConnectClientGenerator.swift:44-47 | Service `k`'s block sits right after the blocks of the services before it: the file keeps the services' declaration order. |
| ServicePrinter.PrintContent | Plugins/ConnectSwiftPlugin/ConnectClientGenerator.swift:28-50 | The file opens with `// swiftlint:disable all`, closes with `// swiftlint:enable all`, and holds exactly the services' blocks between the two. |
| ServicePrinter.ServicesVisibilityUniform | Plugins/ConnectSwiftPlugin/ConnectClientGenerator.swift:44-47 | Across all services, the printed lines (a method body counts as one) that start with the configured keyword number the total of their declarations, and no printed line starts with another keyword. |
| ServicePrinter.ContentVisibilityUniform | Plugins/ConnectSwiftPlugin/ConnectClientGenerator.swift:28-50 | Across the whole file, lint markers included, the printed lines (a method body counts as one) that start with the configured keyword number the services' declarations, and no printed line starts with another keyword. |

## Left out

- Comments copied from the descriptor (`printCommentsIfNeeded`) are left out. They come from the protobuf source info, which is outside this model.
- `super.printContent`, `printModuleImports` and `outputFileExtension` are left out. They belong to the `Generator` base class and its options, which are not part of this model.
- Indentation is left out, both from `indent` blocks and inside the multi-line body literals. Each printed line is modelled without leading whitespace, and a body is its statements joined by newlines.
- `namer.fullName`, `NamingUtils.toLowerCamelCase`, `protocolName` and `implementationName` are foreign naming calls. They are arbitrary functions, or given strings on the service record. Their own rules are not modelled.
- What the generated Swift does at run time is not modelled. The properties are about the emitted text, not about the behaviour of the transport calls.
- The server-streaming and bidirectional adapters are identical in the source (lines 177-198 and 206-227). The model writes the shared adapter once. `StreamingBodiesShareAdapter` states that the two bodies agree after their opening line.
- `specStreamType` and `callbackAvailabilityAnnotation` belong to the file-private extension of ConnectClientGenerator.swift, and nothing in that file calls them. They are modelled anyway.
- `returnValue`, `asyncAwaitThrowingSignature` and `asyncAwaitThrowingReturnValue` each repeat the four-way branch chain on the streaming flags. The model writes that chain once, as `ShapeOf`, and dispatches on the shape it returns.
- The service path is a field of each `Method` record, while the source reads it from the method's service (MethodDescriptor+Extensions.swift:19). So the model does not force the methods of one service to share a path. No property here depends on that sharing.
- Libraries/Connect/Internal/Utilities/Locked.swift is a runtime lock of the client library. The generator does not use it, so it is not part of this model.
- MethodExtensions.SignatureRoundTrip: holds only for method names without a backtick and input types without `)`. Otherwise the emitted signature is ambiguous and does not determine its parts.
- Parsing.ParseSignatureRoundTrip: same restriction as `SignatureRoundTrip`, for the same reason.
- MethodExtensions.SignatureDefaultsMarker: only for names without `=`. A type name holding ` = nil` would make the marker appear without defaults.
- Parsing.SignatureDefaultMarker: same restriction as `SignatureDefaultsMarker`.
- MethodExtensions.MethodPathRoundTrip: only for method names without `/`. Otherwise the last slash of the path is not the separator.
- MethodExtensions.KeptCasingMatchesPath: only for kept casing and slash-free names. A lower-camel-cased name comes from a foreign call.
- ClientGenerator.ClientStreamBodySkipsPopulator: only when no name or path holds `&`. A name holding `populator?(&request)` would put that text in the body.
- ClientGenerator.BodyRequestCounts: counts lines by their opening text, not arbitrary substrings. A type or method name can contain any text, so substring absence does not hold in general.
- ServicePrinter.ImplementationsInOrder: states a lower bound on the service's length. `ServiceLength` gives the exact count.
